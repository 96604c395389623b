/** What the one-time codes of a single (email, purpose) guarantee over whole runs:
    a bound on requests, on attempts, on guesses, and on resets. */
module OtpTheory {
  import opened Text
  import opened Otp

  // -------------------------------------------------- one key's rows, in order

  function RowsOf(table: Table, key: Key): seq<Row> {
    if table == [] then []
    else
      RowsOf(table[..|table| - 1], key)
      + if table[|table| - 1].key == key then [table[|table| - 1].row] else []
  }

  lemma {:induction false} RowsAppend(a: Table, b: Table, key: Key)
    ensures RowsOf(a + b, key) == RowsOf(a, key) + RowsOf(b, key)
  {
    if b == [] {
      assert a + b == a;
    } else {
      assert (a + b)[..|a + b| - 1] == a + b[..|b| - 1];
      RowsAppend(a, b[..|b| - 1], key);
    }
  }

  /** The table around position `i`, seen through one key. */
  lemma {:induction false} RowsAround(table: Table, i: nat, key: Key)
    requires i < |table|
    ensures RowsOf(table, key) == RowsOf(table[..i], key)
            + (if table[i].key == key then [table[i].row] else []) + RowsOf(table[i + 1..], key)
  {
    assert table == table[..i] + ([table[i]] + table[i + 1..]);
    RowsAppend(table[..i], [table[i]] + table[i + 1..], key);
    RowsAppend([table[i]], table[i + 1..], key);
    assert [table[i]][..0] == [];
  }

  lemma {:induction false} RowsPut(table: Table, i: nat, row: Row, key: Key)
    requires i < |table|
    ensures RowsOf(Put(table, i, row), key) == RowsOf(table[..i], key)
            + (if table[i].key == key then [row] else []) + RowsOf(table[i + 1..], key)
  {
    RowsAround(Put(table, i, row), i, key);
    assert Put(table, i, row)[..i] == table[..i];
    assert Put(table, i, row)[i + 1..] == table[i + 1..];
  }

  lemma {:induction false} RowsRemove(table: Table, i: nat, key: Key)
    requires i < |table|
    ensures RowsOf(Remove(table, i), key) == RowsOf(table[..i], key) + RowsOf(table[i + 1..], key)
  {
    RowsAppend(table[..i], table[i + 1..], key);
  }

  /** Rows are in order of creation. */
  ghost predicate Rising(rows: seq<Row>) {
    forall i, j :: 0 <= i < j < |rows| ==> rows[i].created < rows[j].created
  }

  /** Position `i` holds the key's last row. */
  ghost predicate LastAt(table: Table, key: Key, i: nat) {
    && i < |table| && table[i].key == key
    && RowsOf(table, key) == RowsOf(table[..i], key) + [table[i].row]
  }

  lemma {:induction false} LastAtEnd(table: Table, key: Key)
    requires table != [] && table[|table| - 1].key == key
    ensures LastAt(table, key, |table| - 1)
  {
  }

  lemma {:induction false} LastAtEarlier(table: Table, key: Key, i: nat)
    requires table != [] && table[|table| - 1].key != key
    requires LastAt(table[..|table| - 1], key, i)
    ensures LastAt(table, key, i)
  {
    assert table[..|table| - 1][..i] == table[..i];
  }

  lemma {:induction false} NothingAfter(table: Table, key: Key, i: nat)
    requires LastAt(table, key, i)
    ensures RowsOf(table[i + 1..], key) == []
  {
    RowsAround(table, i, key);
  }

  /** With rows in order, the newest row is the key's last one. */
  lemma {:induction false} NewestIsLast(table: Table, key: Key)
    requires Rising(RowsOf(table, key))
    ensures match Newest(table, key)
            case None => RowsOf(table, key) == []
            case Some(i) => LastAt(table, key, i)
  {
    if table != [] {
      var n := |table| - 1;
      var earlier, rows := RowsOf(table[..n], key), RowsOf(table, key);
      assert forall i :: 0 <= i < |earlier| ==> earlier[i] == rows[i];
      NewestIsLast(table[..n], key);
      if table[n].key == key {
        LastAtEnd(table, key);
        match Newest(table[..n], key)
        case None =>
        case Some(i) =>
          assert rows[|earlier| - 1] == table[i].row && rows[|earlier|] == table[n].row;
      } else if Newest(table[..n], key).Some? {
        LastAtEarlier(table, key, Newest(table[..n], key).value);
      }
    }
  }

  // ------------------------------------------------------ the one-key machine

  /** What happened to a code: identified by its creation time. */
  datatype Happening =
    | Issued(created: int)
    | Missed(created: int, at: int)
    | Lapsed(created: int, at: int)
    | Confirmed(created: int, at: int)
    | Redeemed(created: int, at: int)

  /** The committed rows of the key and the history so far. */
  datatype State = State(rows: seq<Row>, log: seq<Happening>)

  function RowsSince(rows: seq<Row>, since: int): nat {
    if rows == [] then 0
    else RowsSince(rows[..|rows| - 1], since)
         + if rows[|rows| - 1].created >= since then 1 else 0
  }

  function Older(rows: seq<Row>): seq<Row>
    requires rows != []
  {
    rows[..|rows| - 1]
  }

  function Youngest(rows: seq<Row>): Row
    requires rows != []
  {
    rows[|rows| - 1]
  }

  function Failure(row: Row, reason: Reason, now: int): Happening {
    if reason == Expired then Lapsed(row.created, now) else Missed(row.created, now)
  }

  /** A request as the rows of its own key see it. */
  function Act(s: State, request: Request, now: int): (State, Result) {
    match request
    case Issue(_, digest, mailed) =>
      if RowsSince(s.rows, now - WINDOW) >= MAX_ROWS then (s, Denied(TooMany))
      else if !mailed then (s, Denied(MailFailed))
      else (State(s.rows + [NewRow(digest, now)], s.log + [Issued(now)]), Fine)
    case Verify(_, digest, accepted) =>
      if s.rows == [] then (s, Denied(NoCode))
      else (match TryCode(Youngest(s.rows), digest, now)
        case Untouched(reason) => (s, Denied(reason))
        case Spent(row, reason) =>
          (State(Older(s.rows) + [row], s.log + [Failure(row, reason, now)]), Denied(reason))
        case Matched(row) =>
          if accepted then
            (State(Older(s.rows) + [row], s.log + [Confirmed(row.created, now)]), Fine)
          else (s, Denied(TokenRejected)))
    case Reset(_, code) =>
      if s.rows == [] then (s, Denied(NoRequest))
      else if Youngest(s.rows).verified then
        if now > Youngest(s.rows).expires then (s, Denied(Expired))
        else (State(Older(s.rows), s.log + [Redeemed(Youngest(s.rows).created, now)]), Fine)
      else match code
        case None => (s, Denied(NeedCode))
        case Some(digest) =>
          match TryCode(Youngest(s.rows), digest, now)
          case Untouched(reason) => (s, Denied(reason))
          case Spent(row, reason) =>
            (State(Older(s.rows) + [row], s.log + [Failure(row, reason, now)]), Denied(reason))
          case Matched(row) =>
            (State(Older(s.rows),
                   s.log + [Confirmed(row.created, now), Redeemed(row.created, now)]), Fine)
  }

  lemma {:induction false} SinceProjects(table: Table, key: Key, since: int)
    ensures CountSince(table, key, since) == RowsSince(RowsOf(table, key), since)
  {
    if table != [] {
      var n := |table| - 1;
      SinceProjects(table[..n], key, since);
      var earlier := RowsOf(table[..n], key);
      if table[n].key == key {
        assert (earlier + [table[n].row])[..|earlier|] == earlier;
      } else {
        assert earlier + [] == earlier;
      }
    }
  }

  /** Every write goes to the key's last row, or appends one. */
  lemma {:induction false} NewestWrites(table: Table, key: Key)
    requires Rising(RowsOf(table, key))
    ensures Newest(table, key).None? <==> RowsOf(table, key) == []
    ensures match Newest(table, key)
            case None => true
            case Some(i) =>
              && table[i].row == Youngest(RowsOf(table, key))
              && RowsOf(Remove(table, i), key) == Older(RowsOf(table, key))
              && forall row :: RowsOf(Put(table, i, row), key) == Older(RowsOf(table, key)) + [row]
  {
    NewestIsLast(table, key);
    match Newest(table, key)
    case None =>
    case Some(i) =>
      var rows := RowsOf(table, key);
      NothingAfter(table, key, i);
      assert Older(rows) == RowsOf(table[..i], key) && Youngest(rows) == table[i].row;
      RowsRemove(table, i, key);
      forall row ensures RowsOf(Put(table, i, row), key) == Older(rows) + [row] {
        RowsPut(table, i, row, key);
      }
  }

  lemma {:induction false} RowsIssue(table: Table, entry: Entry, key: Key)
    ensures RowsOf(table + [entry], key)
         == RowsOf(table, key) + if entry.key == key then [entry.row] else []
  {
    assert (table + [entry])[..|table|] == table;
  }

  lemma {:induction false} IssueProjects(table: Table, log: seq<Happening>, request: Request,
        now: int)
    requires request.Issue?
    ensures var (after, result) := Handle(table, request, now);
            var (s, told) := Act(State(RowsOf(table, request.key), log), request, now);
            RowsOf(after, request.key) == s.rows && result == told
  {
    SinceProjects(table, request.key, now - WINDOW);
    RowsIssue(table, Entry(request.key, NewRow(request.digest, now)), request.key);
  }

  lemma {:induction false} VerifyProjects(table: Table, log: seq<Happening>, request: Request,
        now: int)
    requires request.Verify? && Rising(RowsOf(table, request.key))
    ensures var (after, result) := HandleVerify(table, request.key, request.digest,
                                                request.accepted, now);
            var (s, told) := Act(State(RowsOf(table, request.key), log), request, now);
            RowsOf(after, request.key) == s.rows && result == told
  {
    hide TryCode, RowsOf, Newest, Older, Put, Remove;
    NewestWrites(table, request.key);
  }

  lemma {:induction false} ResetProjects(table: Table, log: seq<Happening>, request: Request,
        now: int)
    requires request.Reset? && Rising(RowsOf(table, request.key))
    ensures var (after, result) := HandleReset(table, request.key, request.code, now);
            var (s, told) := Act(State(RowsOf(table, request.key), log), request, now);
            RowsOf(after, request.key) == s.rows && result == told
  {
    hide TryCode, RowsOf, Newest, Older, Put, Remove;
    NewestWrites(table, request.key);
  }

  /** Requests act on the rows of their own key as the one-key machine does. */
  lemma {:induction false} HandleProjects(table: Table, log: seq<Happening>, request: Request,
        now: int)
    requires Rising(RowsOf(table, request.key))
    ensures var (after, result) := Handle(table, request, now);
            var (s, told) := Act(State(RowsOf(table, request.key), log), request, now);
            RowsOf(after, request.key) == s.rows && result == told
  {
    if request.Issue? {
      IssueProjects(table, log, request, now);
    } else if request.Verify? {
      VerifyProjects(table, log, request, now);
    } else {
      ResetProjects(table, log, request, now);
    }
  }

  lemma {:induction false} OthersKept(table: Table, i: nat, other: Key)
    requires i < |table| && table[i].key != other
    ensures RowsOf(Remove(table, i), other) == RowsOf(table, other)
    ensures forall row :: RowsOf(Put(table, i, row), other) == RowsOf(table, other)
  {
    RowsAround(table, i, other);
    RowsRemove(table, i, other);
    assert RowsOf(table[..i], other) + [] == RowsOf(table[..i], other);
    forall row ensures RowsOf(Put(table, i, row), other) == RowsOf(table, other) {
      RowsPut(table, i, row, other);
    }
  }

  /** They leave the rows of every other key alone. */
  lemma {:induction false} HandleLeavesOthers(table: Table, request: Request, now: int, other: Key)
    requires other != request.key
    ensures RowsOf(Handle(table, request, now).0, other) == RowsOf(table, other)
  {
    if request.Issue? {
      RowsIssue(table, Entry(request.key, NewRow(request.digest, now)), other);
      assert RowsOf(table, other) + [] == RowsOf(table, other);
    } else if Newest(table, request.key).Some? {
      OthersKept(table, Newest(table, request.key).value, other);
    }
  }
}
