/** The server's log of conversations: messages get their position by counting, and
    a suffix is cut off by position. */
module Conversations {
  import opened Text

  type Id = string
  type UserId = string

  datatype Message = Message(id: Id, role: string, content: string, position: int)

  /** A conversation and its rows in order of insertion. */
  datatype Conversation = Conversation(owner: UserId, rows: seq<Message>)

  type Table = map<Id, Conversation>

  datatype Answer<+T> = Ok(value: T) | NotFound | Forbidden

  // ---------------------------------------------------------------- the rules

  function Find(rows: seq<Message>, id: Id): (found: Option<nat>)
    ensures found.Some? ==> found.value < |rows| && rows[found.value].id == id
    ensures found.None? ==> forall i :: 0 <= i < |rows| ==> rows[i].id != id
  {
    if rows == [] then None
    else if rows[0].id == id then Some(0)
    else match Find(rows[1..], id)
         case None => None
         case Some(i) => Some(i + 1)
  }

  /** The rows that `DELETE ... WHERE position >= p` leaves. */
  function Below(rows: seq<Message>, p: int): seq<Message> {
    if rows == [] then []
    else (if rows[0].position >= p then [] else [rows[0]]) + Below(rows[1..], p)
  }

  lemma {:induction false} BelowIs(rows: seq<Message>, p: int)
    ensures forall m :: m in Below(rows, p) <==> m in rows && m.position < p
  {
    if rows != [] {
      BelowIs(rows[1..], p);
    }
  }

  ghost predicate RowIs(rows: seq<Message>, i: int, id: Id) {
    0 <= i < |rows| && rows[i].id == id
  }

  function Insert(m: Message, rows: seq<Message>): seq<Message> {
    if rows == [] || m.position <= rows[0].position then [m] + rows
    else [rows[0]] + Insert(m, rows[1..])
  }

  /** `ORDER BY position`. */
  function Sorted(rows: seq<Message>): seq<Message> {
    if rows == [] then [] else Insert(rows[0], Sorted(rows[1..]))
  }

  ghost predicate ByPosition(rows: seq<Message>) {
    forall i, j :: 0 <= i < j < |rows| ==> rows[i].position <= rows[j].position
  }

  lemma {:induction false} InsertAdds(m: Message, rows: seq<Message>)
    ensures multiset(Insert(m, rows)) == multiset(rows) + multiset{m}
    ensures forall x :: x in Insert(m, rows) ==> x == m || x in rows
  {
    if rows != [] && m.position > rows[0].position {
      InsertAdds(m, rows[1..]);
      assert rows == [rows[0]] + rows[1..];
    }
  }

  lemma {:induction false} InsertSorts(m: Message, rows: seq<Message>)
    requires ByPosition(rows)
    ensures ByPosition(Insert(m, rows))
  {
    if rows != [] && m.position > rows[0].position {
      InsertSorts(m, rows[1..]);
      InsertAdds(m, rows[1..]);
      var rest := Insert(m, rows[1..]);
      forall j | 0 <= j < |rest| ensures rows[0].position <= rest[j].position {
        assert rest[j] in rest;
      }
    }
  }

  /** Sorting loses no row, adds none, and orders all of them. */
  lemma {:induction false} SortedSorts(rows: seq<Message>)
    ensures ByPosition(Sorted(rows))
    ensures multiset(Sorted(rows)) == multiset(rows)
  {
    if rows != [] {
      SortedSorts(rows[1..]);
      InsertSorts(rows[0], Sorted(rows[1..]));
      InsertAdds(rows[0], Sorted(rows[1..]));
      assert rows == [rows[0]] + rows[1..];
    }
  }

  function Appended(rows: seq<Message>, id: Id, role: string, content: string): seq<Message> {
    rows + [Message(id, role, content, |rows|)]
  }

  function Edited(rows: seq<Message>, id: Id, content: string): seq<Message> {
    match Find(rows, id)
    case None => rows
    case Some(i) => rows[i := rows[i].(content := content)]
  }

  function CutAt(rows: seq<Message>, id: Id): seq<Message> {
    match Find(rows, id)
    case None => rows
    case Some(i) => Below(rows, rows[i].position)
  }

  /** The ownership check at the head of every endpoint. */
  function Access(table: Table, user: UserId, conv: Id): Answer<Conversation> {
    if conv !in table then NotFound
    else if table[conv].owner != user then Forbidden
    else Ok(table[conv])
  }

  /** The user's own among these conversations, in their order. */
  function OwnedIn(table: Table, user: UserId, convs: seq<Id>): seq<Id> {
    if convs == [] then []
    else (if convs[0] in table && table[convs[0]].owner == user then [convs[0]] else [])
         + OwnedIn(table, user, convs[1..])
  }

  ghost predicate Different(ids: seq<Id>) {
    forall i, j :: 0 <= i < j < |ids| ==> ids[i] != ids[j]
  }

  lemma {:induction false} OwnedAre(table: Table, user: UserId, convs: seq<Id>)
    requires Different(convs)
    ensures Different(OwnedIn(table, user, convs))
    ensures forall id :: id in OwnedIn(table, user, convs) <==>
              id in convs && id in table && table[id].owner == user
  {
    if convs != [] {
      assert forall i :: 0 <= i < |convs[1..]| ==> convs[1..][i] == convs[i + 1];
      OwnedAre(table, user, convs[1..]);
      var rest := OwnedIn(table, user, convs[1..]);
      forall j | 0 <= j < |rest| ensures rest[j] != convs[0] {
        assert rest[j] in rest;
      }
    }
  }

  /** The first `n` of these conversations that are the user's own. */
  ghost function Own(table: Table, user: UserId, convs: seq<Id>, n: nat): set<nat>
    requires n <= |convs|
  {
    set p: nat | p < n && convs[p] in table && table[convs[p]].owner == user
  }

  lemma {:induction false} OwnedAppend(table: Table, user: UserId, convs: seq<Id>, conv: Id)
    ensures OwnedIn(table, user, convs + [conv])
         == OwnedIn(table, user, convs)
            + if conv in table && table[conv].owner == user then [conv] else []
  {
    if convs == [] {
      assert convs + [conv] == [conv] && [conv][1..] == [];
    } else {
      assert (convs + [conv])[1..] == convs[1..] + [conv];
      OwnedAppend(table, user, convs[1..], conv);
    }
  }

  lemma {:induction false} OwnNext(table: Table, user: UserId, convs: seq<Id>, n: nat)
    requires n < |convs|
    ensures |Own(table, user, convs, n + 1)|
         == |Own(table, user, convs, n)|
            + if convs[n] in table && table[convs[n]].owner == user then 1 else 0
  {
    assert Own(table, user, convs, n + 1)
        == Own(table, user, convs, n)
           + if convs[n] in table && table[convs[n]].owner == user then {n} else {};
  }

  /** Each of the user's own stands after as many as come before it. */
  lemma {:induction false} OwnedInOrder(table: Table, user: UserId, convs: seq<Id>, n: nat)
    requires n <= |convs|
    ensures var mine := OwnedIn(table, user, convs[..n]);
            && |mine| == |Own(table, user, convs, n)|
            && forall p: nat | p < n && convs[p] in table && table[convs[p]].owner == user ::
                 |Own(table, user, convs, p)| < |mine|
                 && mine[|Own(table, user, convs, p)|] == convs[p]
  {
    if n == 0 {
      assert Own(table, user, convs, 0) == {};
    } else {
      hide OwnedIn, Own;
      OwnedInOrder(table, user, convs, n - 1);
      assert convs[..n] == convs[..n - 1] + [convs[n - 1]];
      OwnedAppend(table, user, convs[..n - 1], convs[n - 1]);
      OwnNext(table, user, convs, n - 1);
    }
  }

  function WithRows(table: Table, conv: Id, rows: seq<Message>): Table
    requires conv in table
  {
    table[conv := table[conv].(rows := rows)]
  }

  // ---------------------------------------------------------------- endpoints

  class ConversationService {
    var table: Table

    constructor ()
      ensures table == map[]
    {
      table := map[];
    }

    /** `id` is the identifier generated for the new row. */
    method CreateConversation(user: UserId, id: Id)
      requires id !in table
      modifies this
      ensures table == old(table)[id := Conversation(user, [])]
    {
      table := table[id := Conversation(user, [])];
    }

    /** The user's newest conversations, up to a limit, each after those of them that are
        newer; `newest` is the table's order by update time. */
    method ListConversations(user: UserId, newest: seq<Id>, limit: nat) returns (ids: seq<Id>)
      requires Different(newest) && forall id :: id in newest <==> id in table
      ensures Different(ids) && |ids| <= limit
      ensures forall id :: id in ids ==> id in table && table[id].owner == user
      ensures ids <= OwnedIn(table, user, newest)
      ensures forall p: nat | p < |newest| && table[newest[p]].owner == user ::
                var newer := |Own(table, user, newest, p)|;
                if newer < limit then newer < |ids| && ids[newer] == newest[p]
                else newest[p] !in ids
    {
      OwnedAre(table, user, newest);
      assert newest[..|newest|] == newest;
      OwnedInOrder(table, user, newest, |newest|);
      var mine := OwnedIn(table, user, newest);
      ids := if |mine| > limit then mine[..limit] else mine;
    }

    /** The owner, and nobody else, gets every row of the conversation once, by position. */
    method GetConversation(user: UserId, conv: Id) returns (answer: Answer<seq<Message>>)
      ensures answer.Ok? <==> conv in table && table[conv].owner == user
      ensures answer.NotFound? <==> conv !in table
      ensures answer.Ok? ==>
                && ByPosition(answer.value)
                && multiset(answer.value) == multiset(table[conv].rows)
      ensures match Access(table, user, conv)
              case Ok(c) => answer == Ok(Sorted(c.rows))
              case NotFound => answer == NotFound
              case Forbidden => answer == Forbidden
    {
      if conv !in table {
        return NotFound;
      }
      if table[conv].owner != user {
        return Forbidden;
      }
      SortedSorts(table[conv].rows);
      answer := Ok(Sorted(table[conv].rows));
    }

    /** The new row comes last, and its position is the number of rows before it. */
    method SaveMessage(user: UserId, conv: Id, role: string, content: string, id: Id)
      returns (answer: Answer<Message>)
      modifies this
      ensures answer.Ok? <==> conv in old(table) && old(table)[conv].owner == user
      ensures answer.Ok? ==>
                var rows := old(table)[conv].rows;
                && answer.value == Message(id, role, content, |rows|)
                && table == old(table)[conv := Conversation(user, rows + [answer.value])]
      ensures match Access(old(table), user, conv)
              case Ok(c) =>
                && answer == Ok(Message(id, role, content, |c.rows|))
                && table == WithRows(old(table), conv, Appended(c.rows, id, role, content))
              case NotFound => answer == NotFound && table == old(table)
              case Forbidden => answer == Forbidden && table == old(table)
    {
      if conv !in table {
        return NotFound;
      }
      if table[conv].owner != user {
        return Forbidden;
      }
      var position := |table[conv].rows|;
      var msg := Message(id, role, content, position);
      table := WithRows(table, conv, table[conv].rows + [msg]);
      answer := Ok(msg);
    }

    /** Only the content is taken from the request; its role is ignored. */
    method UpdateMessage(user: UserId, conv: Id, id: Id, role: string, content: string)
      returns (answer: Answer<Message>)
      modifies this
      ensures answer.Ok? <==> conv in old(table) && old(table)[conv].owner == user
                              && exists i :: RowIs(old(table)[conv].rows, i, id)
      ensures answer.Ok? ==>
                exists i :: RowIs(old(table)[conv].rows, i, id)
                  && var row := old(table)[conv].rows[i];
                     && answer.value == Message(id, row.role, content, row.position)
                     && table == old(table)[conv := Conversation(user, old(table)[conv].rows[
                                              i := answer.value])]
      ensures match Access(old(table), user, conv)
              case Ok(c) =>
                && (Find(c.rows, id).None? ==> answer == NotFound && table == old(table))
                && (Find(c.rows, id).Some? ==>
                      && answer == Ok(c.rows[Find(c.rows, id).value].(content := content))
                      && table == WithRows(old(table), conv, Edited(c.rows, id, content)))
              case NotFound => answer == NotFound && table == old(table)
              case Forbidden => answer == Forbidden && table == old(table)
    {
      if conv !in table {
        return NotFound;
      }
      if table[conv].owner != user {
        return Forbidden;
      }
      var rows := table[conv].rows;
      var found := Find(rows, id);
      if found.None? {
        return NotFound;
      }
      assert RowIs(rows, found.value, id);
      var msg := rows[found.value].(content := content);
      table := WithRows(table, conv, rows[found.value := msg]);
      answer := Ok(msg);
    }

    /** The rows from that row's position on go, and no others. */
    method DeleteMessagesFrom(user: UserId, conv: Id, id: Id) returns (answer: Answer<()>)
      modifies this
      ensures answer.Ok? <==> conv in old(table) && old(table)[conv].owner == user
                              && exists i :: RowIs(old(table)[conv].rows, i, id)
      ensures answer.Ok? ==>
                && conv in table && table == old(table)[conv := Conversation(user,
                                                                             table[conv].rows)]
                && exists i :: RowIs(old(table)[conv].rows, i, id)
                     && forall m :: m in table[conv].rows
                          <==> m in old(table)[conv].rows
                               && m.position < old(table)[conv].rows[i].position
      ensures match Access(old(table), user, conv)
              case Ok(c) =>
                && (Find(c.rows, id).None? ==> answer == NotFound && table == old(table))
                && (Find(c.rows, id).Some? ==>
                      && answer == Ok(())
                      && table == WithRows(old(table), conv, CutAt(c.rows, id)))
              case NotFound => answer == NotFound && table == old(table)
              case Forbidden => answer == Forbidden && table == old(table)
    {
      if conv !in table {
        return NotFound;
      }
      if table[conv].owner != user {
        return Forbidden;
      }
      var rows := table[conv].rows;
      var found := Find(rows, id);
      if found.None? {
        return NotFound;
      }
      assert RowIs(rows, found.value, id);
      BelowIs(rows, rows[found.value].position);
      table := WithRows(table, conv, Below(rows, rows[found.value].position));
      answer := Ok(());
    }

    method DeleteConversation(user: UserId, conv: Id) returns (answer: Answer<()>)
      modifies this
      ensures match Access(old(table), user, conv)
              case Ok(_) => answer == Ok(()) && table == old(table) - {conv}
              case NotFound => answer == NotFound && table == old(table)
              case Forbidden => answer == Forbidden && table == old(table)
    {
      if conv !in table {
        return NotFound;
      }
      if table[conv].owner != user {
        return Forbidden;
      }
      table := table - {conv};
      answer := Ok(());
    }
  }

  // ---------------------------------------------------------- dense positions

  /** Positions are 0, 1, 2, ... in order of insertion, and identifiers differ. */
  ghost predicate Dense(rows: seq<Message>) {
    && (forall i :: 0 <= i < |rows| ==> rows[i].position == i)
    && (forall i, j :: 0 <= i < j < |rows| ==> rows[i].id != rows[j].id)
  }

  ghost predicate Climbs(rows: seq<Message>, from: int) {
    forall i :: 0 <= i < |rows| ==> rows[i].position == from + i
  }

  lemma {:induction false} BelowClimbing(rows: seq<Message>, from: int, p: int)
    requires Climbs(rows, from) && from <= p <= from + |rows|
    ensures Below(rows, p) == rows[..p - from]
    decreases |rows|
  {
    if rows != [] {
      if p > from {
        BelowClimbing(rows[1..], from + 1, p);
        assert rows[..p - from] == [rows[0]] + rows[1..][..p - from - 1];
      } else {
        NoneBelow(rows, from, p);
      }
    }
  }

  lemma {:induction false} NoneBelow(rows: seq<Message>, from: int, p: int)
    requires Climbs(rows, from) && p <= from
    ensures Below(rows, p) == []
    decreases |rows|
  {
    if rows != [] {
      NoneBelow(rows[1..], from + 1, p);
    }
  }

  lemma {:induction false} SortedClimbing(rows: seq<Message>, from: int)
    requires Climbs(rows, from)
    ensures Sorted(rows) == rows
    decreases |rows|
  {
    if rows != [] {
      SortedClimbing(rows[1..], from + 1);
      assert |rows| > 1 ==> rows[1..][0].position == from + 1;
    }
  }

  lemma {:induction false} FindDense(rows: seq<Message>, i: nat)
    requires Dense(rows) && i < |rows|
    ensures Find(rows, rows[i].id) == Some(i)
  {
    assert Find(rows, rows[i].id).Some?;
  }

  lemma {:induction false} DenseReads(rows: seq<Message>, p: nat, content: string)
    requires Dense(rows) && p < |rows|
    ensures CutAt(rows, rows[p].id) == rows[..p] && Dense(rows[..p])
    ensures Sorted(rows) == rows
    ensures Edited(rows, rows[p].id, content) == rows[p := rows[p].(content := content)]
  {
    FindDense(rows, p);
    BelowClimbing(rows, 0, p);
    SortedClimbing(rows, 0);
  }

  lemma {:induction false} DenseWrites(rows: seq<Message>, p: nat, id: Id, role: string,
        content: string)
    requires Dense(rows) && p < |rows|
    requires forall i :: 0 <= i < |rows| ==> rows[i].id != id
    ensures Dense(rows[p := rows[p].(content := content)])
    ensures Dense(Appended(rows, id, role, content))
  {
  }

  /** Truncating at the message of position p leaves the first p messages; the list
      read back is in order of insertion; the next append gets the next position. */
  lemma {:induction false} DenseOperations(rows: seq<Message>, p: nat, id: Id, role: string,
        content: string)
    requires Dense(rows) && p < |rows|
    requires forall i :: 0 <= i < |rows| ==> rows[i].id != id
    ensures CutAt(rows, rows[p].id) == rows[..p]
    ensures Sorted(rows) == rows
    ensures Edited(rows, rows[p].id, content) == rows[p := rows[p].(content := content)]
    ensures Dense(rows[..p]) && Dense(Edited(rows, rows[p].id, content))
    ensures Dense(Appended(rows, id, role, content))
    ensures Appended(rows, id, role, content)[|rows|].position == |rows|
  {
    hide Find, Below, Sorted, Dense, CutAt, Edited;
    DenseReads(rows, p, content);
    DenseWrites(rows, p, id, role, content);
  }

  // ---------------------------------------------------------------------- runs

  /** A request that an owner's session may make; identifiers are generated. */
  datatype Request =
    | Create(user: UserId, conv: Id)
    | Save(user: UserId, conv: Id, id: Id, role: string, content: string)
    | Update(user: UserId, conv: Id, id: Id, content: string)
    | Cut(user: UserId, conv: Id, id: Id)
    | Drop(user: UserId, conv: Id)

  datatype State = State(table: Table, minted: set<Id>)

  function Handle(s: State, request: Request): State {
    match request
    case Create(user, conv) =>
      State(s.table[conv := Conversation(user, [])], s.minted + {conv})
    case Save(user, conv, id, role, content) =>
      (match Access(s.table, user, conv)
       case Ok(c) =>
         State(WithRows(s.table, conv, Appended(c.rows, id, role, content)), s.minted + {id})
       case _ => s)
    case Update(user, conv, id, content) =>
      (match Access(s.table, user, conv)
       case Ok(c) => s.(table := WithRows(s.table, conv, Edited(c.rows, id, content)))
       case _ => s)
    case Cut(user, conv, id) =>
      (match Access(s.table, user, conv)
       case Ok(c) => s.(table := WithRows(s.table, conv, CutAt(c.rows, id)))
       case _ => s)
    case Drop(user, conv) =>
      if Access(s.table, user, conv).Ok? then s.(table := s.table - {conv}) else s
  }

  predicate Legal(s: State, request: Request) {
    match request
    case Create(_, conv) => conv !in s.minted
    case Save(_, _, id, _, _) => id !in s.minted
    case _ => true
  }

  predicate LegalRun(s: State, requests: seq<Request>)
    decreases |requests|
  {
    requests == [] ||
    (Legal(s, requests[0]) && LegalRun(Handle(s, requests[0]), requests[1..]))
  }

  function Execute(s: State, requests: seq<Request>): State
    decreases |requests|
  {
    if requests == [] then s else Execute(Handle(s, requests[0]), requests[1..])
  }

  ghost predicate RowsKnown(rows: seq<Message>, minted: set<Id>) {
    Dense(rows) && forall i :: 0 <= i < |rows| ==> rows[i].id in minted
  }

  ghost predicate Inv(s: State) {
    forall c :: c in s.table ==> RowsKnown(s.table[c].rows, s.minted) && c in s.minted
  }

  lemma {:induction false} SaveKeepsRows(rows: seq<Message>, minted: set<Id>, id: Id, role: string,
        content: string)
    requires RowsKnown(rows, minted) && id !in minted
    ensures RowsKnown(Appended(rows, id, role, content), minted + {id})
  {
  }

  lemma {:induction false} EditKeepsRows(rows: seq<Message>, minted: set<Id>, id: Id,
        content: string)
    requires RowsKnown(rows, minted)
    ensures RowsKnown(Edited(rows, id, content), minted)
  {
  }

  lemma {:induction false} CutKeepsRows(rows: seq<Message>, minted: set<Id>, id: Id)
    requires RowsKnown(rows, minted)
    ensures RowsKnown(CutAt(rows, id), minted)
  {
    if Find(rows, id).Some? {
      BelowClimbing(rows, 0, rows[Find(rows, id).value].position);
    }
  }

  lemma {:induction false} WithRowsKeeps(s: State, conv: Id, rows: seq<Message>, minted: set<Id>)
    requires Inv(s) && conv in s.table && s.minted <= minted && RowsKnown(rows, minted)
    ensures Inv(State(WithRows(s.table, conv, rows), minted))
  {
    forall c | c in s.table ensures RowsKnown(s.table[c].rows, minted) {
      assert RowsKnown(s.table[c].rows, s.minted);
    }
  }

  lemma {:induction false} HandleKeeps(s: State, request: Request)
    requires Inv(s) && Legal(s, request)
    ensures Inv(Handle(s, request))
  {
    if request.Create? {
      forall c | c in s.table ensures RowsKnown(s.table[c].rows, s.minted + {request.conv}) {
        assert RowsKnown(s.table[c].rows, s.minted);
      }
    } else if Access(s.table, request.user, request.conv).Ok? {
      var rows := s.table[request.conv].rows;
      assert RowsKnown(rows, s.minted);
      match request
      case Save(_, conv, id, role, content) =>
        SaveKeepsRows(rows, s.minted, id, role, content);
        WithRowsKeeps(s, conv, Appended(rows, id, role, content), s.minted + {id});
      case Update(_, conv, id, content) =>
        EditKeepsRows(rows, s.minted, id, content);
        WithRowsKeeps(s, conv, Edited(rows, id, content), s.minted);
      case Cut(_, conv, id) =>
        CutKeepsRows(rows, s.minted, id);
        WithRowsKeeps(s, conv, CutAt(rows, id), s.minted);
      case Drop(_, _) =>
    }
  }

  /** In every reachable table every conversation's positions are dense. */
  lemma {:induction false} AlwaysDense(s: State, requests: seq<Request>)
    requires Inv(s) && LegalRun(s, requests)
    ensures Inv(Execute(s, requests))
    decreases |requests|
  {
    if requests != [] {
      HandleKeeps(s, requests[0]);
      AlwaysDense(Handle(s, requests[0]), requests[1..]);
    }
  }
}
