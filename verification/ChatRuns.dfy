/** Any sequence of completed flows of one user's page, with no failed call and no
    stream error, keeps the cache in step with the server. */
module ChatRuns {
  import opened Text
  import opened Conversations
  import ChatStore
  import StreamPost
  import opened ChatFlows
  import opened ChatAgreement

  datatype Flow =
    | List(ids: seq<Id>)
    | Start(conv: Id)
    | Fetch(conv: Id)
    | Send(conv: Id, text: string, id: Id, reply: Id, trace: seq<StreamPost.Event>)
    | Edit(conv: Id, index: nat, text: string, reply: Id, trace: seq<StreamPost.Event>)
    | Retry(conv: Id, index: nat, reply: Id, trace: seq<StreamPost.Event>)
    | Delete(conv: Id)

  /** The world, and every identifier generated so far. */
  datatype Page = Page(world: World, minted: set<Id>)

  /** The identifier the page shows at an index of a conversation. */
  function ShownId(cache: ChatStore.Cache, conv: Id, index: nat): Id {
    match ChatStore.Find(cache, conv)
    case None => ""
    case Some(c) =>
      if index < |c.messages| && c.messages[index].id.Some? then c.messages[index].id.value else ""
  }

  function Do(s: Page, user: UserId, flow: Flow): Page {
    var w := s.world;
    match flow
    case List(ids) => s.(world := Listed(w, ids))
    case Start(conv) => Page(Started(w, user, conv), s.minted + {conv})
    case Fetch(conv) => s.(world := Fetched(w, user, conv))
    case Send(conv, text, id, reply, trace) =>
      Page(Sent(w, user, conv, text, id, reply, trace), s.minted + {id, reply})
    case Edit(conv, index, text, reply, trace) =>
      Page(EditSubmitted(w, user, conv, index, ShownId(w.cache, conv, index), text, reply, trace),
            s.minted + {reply})
    case Retry(conv, index, reply, trace) =>
      Page(Retried(w, user, conv, index, ShownId(w.cache, conv, index), reply, trace),
            s.minted + {reply})
    case Delete(conv) => s.(world := Deleted(w, user, conv))
  }

  /** The page shows a message at this index of this conversation. */
  ghost predicate Shows(cache: ChatStore.Cache, conv: Id, index: nat) {
    ChatStore.Find(cache, conv).Some? &&
    index < |ChatStore.Find(cache, conv).value.messages|
  }

  /** The flow can be started from here, its calls succeed and its stream ends well;
      generated identifiers are new. */
  ghost predicate Completes(s: Page, user: UserId, flow: Flow) {
    match flow
    case List(ids) =>
      && (forall i :: 0 <= i < |ids| ==> Mine(s.world.table, user, ids[i]))
      && Different(ids)
    case Start(conv) => conv !in s.minted
    case Fetch(conv) => Mine(s.world.table, user, conv)
    case Send(conv, _, id, reply, trace) =>
      && Mine(s.world.table, user, conv)
      && id !in s.minted && reply !in s.minted && id != reply && StreamPost.WellStreamed(trace)
    case Edit(conv, index, _, reply, trace) =>
      Shows(s.world.cache, conv, index) && reply !in s.minted && StreamPost.WellStreamed(trace)
    case Retry(conv, index, reply, trace) =>
      Shows(s.world.cache, conv, index) && reply !in s.minted && StreamPost.WellStreamed(trace)
    case Delete(conv) => Mine(s.world.table, user, conv)
  }

  // ------------------------------------------------------------------- offsets

  /** How many of the server's messages the page lacks, conversation by conversation:
      a list brings no messages, a fetch brings all, and nothing else changes it. */
  function Offsets(offsets: map<Id, nat>, table: Table, flow: Flow): map<Id, nat> {
    match flow
    case List(ids) => map id | id in ids && id in table :: |table[id].rows|
    case Start(conv) => offsets[conv := 0]
    case Fetch(conv) => offsets[conv := 0]
    case _ => offsets
  }

  ghost predicate EntryTracked(entry: ChatStore.Conversation, table: Table, user: UserId,
                               offsets: map<Id, nat>) {
    && Mine(table, user, entry.id)
    && entry.id in offsets
    && offsets[entry.id] <= |table[entry.id].rows|
    && entry.messages == ChatStore.ReceivedAll(table[entry.id].rows[offsets[entry.id]..])
  }

  ghost predicate Distinct(cache: ChatStore.Cache) {
    forall i, j :: 0 <= i < j < |cache| ==> cache[i].id != cache[j].id
  }

  ghost predicate Tracked(w: World, user: UserId, offsets: map<Id, nat>) {
    && Distinct(w.cache)
    && forall i :: 0 <= i < |w.cache| ==> EntryTracked(w.cache[i], w.table, user, offsets)
  }

  ghost predicate TableKnown(table: Table, minted: set<Id>) {
    forall c :: c in table ==> RowsKnown(table[c].rows, minted) && c in minted
  }

  ghost predicate Inv(s: Page, user: UserId, offsets: map<Id, nat>) {
    TableKnown(s.world.table, s.minted) && Tracked(s.world, user, offsets)
  }

  /** The offset to use for a conversation: its own if the page holds it. */
  function OffsetOf(cache: ChatStore.Cache, offsets: map<Id, nat>, conv: Id): nat {
    if ChatStore.Find(cache, conv).Some? && conv in offsets then offsets[conv] else 0
  }

  lemma {:induction false} TrackedHolds(s: Page, user: UserId, offsets: map<Id, nat>, conv: Id)
    requires Inv(s, user, offsets) && Mine(s.world.table, user, conv)
    ensures Holding(s.world, user, conv, OffsetOf(s.world.cache, offsets, conv))
  {
    var cache := s.world.cache;
    assert RowsKnown(s.world.table[conv].rows, s.minted);
    match ChatStore.Find(cache, conv)
    case None =>
      forall i | 0 <= i < |cache| ensures cache[i].id != conv {
        assert cache[i] in cache;
      }
    case Some(c) =>
      var j :| 0 <= j < |cache| && cache[j] == c;
      assert EntryTracked(cache[j], s.world.table, user, offsets);
      assert forall i :: 0 <= i < |cache| && cache[i].id == conv ==> i == j;
  }

  /** A flow that leaves one conversation in step leaves all of them in step. */
  lemma {:induction false} FlowTracked(s: Page, after: World, user: UserId, offsets: map<Id, nat>,
        conv: Id, rows: seq<Message>, minted: set<Id>)
    requires Inv(s, user, offsets) && Mine(s.world.table, user, conv)
    requires var k := OffsetOf(s.world.cache, offsets, conv);
             k <= |rows| && At(s.world, after, conv, rows, ChatStore.ReceivedAll(rows[k..]))
    requires s.minted <= minted && RowsKnown(rows, minted)
    ensures Inv(Page(after, minted), user, offsets)
  {
    var cache := s.world.cache;
    forall i | 0 <= i < |cache|
      ensures EntryTracked(after.cache[i], after.table, user, offsets)
    {
      assert EntryTracked(cache[i], s.world.table, user, offsets);
      if cache[i].id == conv {
        assert cache[i] in cache;
      }
    }
    RowsStayKnown(s.world.table, s.minted, conv, rows, minted);
  }

  lemma {:induction false} RowsStayKnown(table: Table, before: set<Id>, conv: Id,
        rows: seq<Message>, minted: set<Id>)
    requires TableKnown(table, before) && conv in table
    requires before <= minted && RowsKnown(rows, minted)
    ensures TableKnown(WithRows(table, conv, rows), minted)
  {
    forall c | c in table ensures RowsKnown(table[c].rows, minted) && c in minted {
      assert RowsKnown(table[c].rows, before);
    }
  }

  lemma {:induction false} KnownRows(s: Page, user: UserId, offsets: map<Id, nat>, conv: Id)
    requires Inv(s, user, offsets) && conv in s.world.table
    ensures RowsKnown(s.world.table[conv].rows, s.minted)
    ensures forall id :: id !in s.minted ==> Unused(s.world.table[conv].rows, id)
  {
    assert RowsKnown(s.world.table[conv].rows, s.minted);
  }

  /** Rows kept and rewritten, with one or two new ones, are known. */
  lemma {:induction false} GrownKnown(rows: seq<Message>, after: seq<Message>, minted: set<Id>,
        added: set<Id>)
    requires RowsKnown(rows, minted) && Dense(after)
    requires forall i :: 0 <= i < |after| ==>
               after[i].id in added || (i < |rows| && after[i].id == rows[i].id)
    ensures RowsKnown(after, minted + added)
  {
  }

  lemma {:induction false} SendKeeps(s: Page, user: UserId, offsets: map<Id, nat>, flow: Flow)
    requires Inv(s, user, offsets) && Completes(s, user, flow) && flow.Send?
    ensures Inv(Do(s, user, flow), user, offsets)
  {
    hide Inv, At, Holding, RowsKnown, OffsetOf, ChatStore.Find;
    hide Sent, EditSubmitted, Retried;
    var conv, k := flow.conv, OffsetOf(s.world.cache, offsets, flow.conv);
    var rows := s.world.table[conv].rows;
    TrackedHolds(s, user, offsets, conv);
    KnownRows(s, user, offsets, conv);
    SendEffect(s.world, user, conv, k, flow.text, flow.id, flow.reply, flow.trace);
    var after := Reply(Asked(rows, flow.id, flow.text), flow.reply,
                       StreamPost.Accumulated(flow.trace));
    GrownKnown(rows, after, s.minted, {flow.id, flow.reply});
    FlowTracked(s, Sent(s.world, user, conv, flow.text, flow.id, flow.reply, flow.trace), user,
                offsets, conv, after, s.minted + {flow.id, flow.reply});
  }

  /** What the page shows at an index is the server's row at offset plus index. */
  lemma {:induction false} ShownIsRow(s: Page, user: UserId, offsets: map<Id, nat>, conv: Id,
        index: nat)
    requires Inv(s, user, offsets) && Shows(s.world.cache, conv, index)
    ensures Mine(s.world.table, user, conv)
    ensures var k := OffsetOf(s.world.cache, offsets, conv);
            && k + index < |s.world.table[conv].rows|
            && ShownId(s.world.cache, conv, index) == s.world.table[conv].rows[k + index].id
    ensures exists i :: 0 <= i < |s.world.cache| && s.world.cache[i].id == conv
  {
    var cache := s.world.cache;
    var c := ChatStore.Find(cache, conv).value;
    var j :| 0 <= j < |cache| && cache[j] == c;
    assert EntryTracked(cache[j], s.world.table, user, offsets);
  }

  lemma {:induction false} EditKeeps(s: Page, user: UserId, offsets: map<Id, nat>, flow: Flow)
    requires Inv(s, user, offsets) && Completes(s, user, flow) && flow.Edit?
    ensures Inv(Do(s, user, flow), user, offsets)
  {
    hide Inv, At, Holding, Mine, RowsKnown, OffsetOf, ChatStore.Find;
    hide Sent, EditSubmitted, Retried;
    var conv, k := flow.conv, OffsetOf(s.world.cache, offsets, flow.conv);
    ShownIsRow(s, user, offsets, conv, flow.index);
    var rows := s.world.table[conv].rows;
    TrackedHolds(s, user, offsets, conv);
    KnownRows(s, user, offsets, conv);
    EditEffect(s.world, user, conv, k, flow.index, flow.text, flow.reply, flow.trace);
    var after := Reply(EditedTo(rows, k + flow.index, flow.text), flow.reply,
                       StreamPost.Accumulated(flow.trace));
    GrownKnown(rows, after, s.minted, {flow.reply});
    FlowTracked(s, EditSubmitted(s.world, user, conv, flow.index,
                                 rows[k + flow.index].id, flow.text, flow.reply, flow.trace),
                user, offsets, conv, after, s.minted + {flow.reply});
  }

  lemma {:induction false} RetryKeeps(s: Page, user: UserId, offsets: map<Id, nat>, flow: Flow)
    requires Inv(s, user, offsets) && Completes(s, user, flow) && flow.Retry?
    ensures Inv(Do(s, user, flow), user, offsets)
  {
    hide Inv, At, Holding, Mine, RowsKnown, OffsetOf, ChatStore.Find;
    hide Sent, EditSubmitted, Retried;
    var conv, k := flow.conv, OffsetOf(s.world.cache, offsets, flow.conv);
    ShownIsRow(s, user, offsets, conv, flow.index);
    var rows := s.world.table[conv].rows;
    TrackedHolds(s, user, offsets, conv);
    KnownRows(s, user, offsets, conv);
    RetryEffect(s.world, user, conv, k, flow.index, flow.reply, flow.trace);
    var after := Reply(rows[..k + flow.index], flow.reply, StreamPost.Accumulated(flow.trace));
    GrownKnown(rows, after, s.minted, {flow.reply});
    FlowTracked(s, Retried(s.world, user, conv, flow.index, rows[k + flow.index].id, flow.reply,
                           flow.trace),
                user, offsets, conv, after, s.minted + {flow.reply});
  }

  lemma {:induction false} FetchKeeps(s: Page, user: UserId, offsets: map<Id, nat>, conv: Id)
    requires Inv(s, user, offsets) && Mine(s.world.table, user, conv)
    ensures Inv(Do(s, user, Fetch(conv)), user, offsets[conv := 0])
  {
    var rows := s.world.table[conv].rows;
    assert RowsKnown(rows, s.minted);
    SortedClimbing(rows, 0);
    assert rows[0..] == rows;
    var after := Do(s, user, Fetch(conv)).world;
    forall i | 0 <= i < |s.world.cache|
      ensures EntryTracked(after.cache[i], after.table, user, offsets[conv := 0])
    {
      assert EntryTracked(s.world.cache[i], s.world.table, user, offsets);
    }
  }

  lemma {:induction false} StartKeeps(s: Page, user: UserId, offsets: map<Id, nat>, conv: Id)
    requires Inv(s, user, offsets) && conv !in s.minted
    ensures Inv(Do(s, user, Start(conv)), user, offsets[conv := 0])
  {
    var after := Do(s, user, Start(conv)).world;
    forall i | 0 <= i < |after.cache|
      ensures EntryTracked(after.cache[i], after.table, user, offsets[conv := 0])
      ensures i > 0 ==> s.world.cache[i - 1].id != conv
    {
      if i > 0 {
        assert after.cache[i] == s.world.cache[i - 1];
        assert EntryTracked(s.world.cache[i - 1], s.world.table, user, offsets);
      }
    }
    DistinctCons(s.world.cache, ChatStore.Conversation(conv, []));
    TableGrows(s.world.table, s.minted, conv, Conversation(user, []));
  }

  lemma {:induction false} DistinctCons(cache: ChatStore.Cache, entry: ChatStore.Conversation)
    requires Distinct(cache) && forall i :: 0 <= i < |cache| ==> cache[i].id != entry.id
    ensures Distinct([entry] + cache)
  {
  }

  lemma {:induction false} TableGrows(table: Table, minted: set<Id>, conv: Id,
        created: Conversation)
    requires TableKnown(table, minted) && created.rows == []
    ensures TableKnown(table[conv := created], minted + {conv})
  {
    forall c | c in table ensures RowsKnown(table[c].rows, minted + {conv}) {
      assert RowsKnown(table[c].rows, minted);
    }
  }

  lemma {:induction false} WithoutKeeps(cache: ChatStore.Cache, conv: Id)
    requires Distinct(cache)
    ensures Distinct(ChatStore.Without(cache, conv))
    ensures forall c :: c in ChatStore.Without(cache, conv) <==> c in cache && c.id != conv
  {
    if cache != [] {
      WithoutKeeps(cache[1..], conv);
      var rest := ChatStore.Without(cache[1..], conv);
      forall j | 0 <= j < |rest| ensures rest[j].id != cache[0].id {
        assert rest[j] in cache[1..];
        var m :| 0 <= m < |cache[1..]| && cache[1..][m] == rest[j];
        assert cache[0].id != cache[m + 1].id;
      }
    }
  }

  lemma {:induction false} DeleteKeeps(s: Page, user: UserId, offsets: map<Id, nat>, conv: Id)
    requires Inv(s, user, offsets)
    ensures Inv(Do(s, user, Delete(conv)), user, offsets)
  {
    var after := Do(s, user, Delete(conv)).world;
    WithoutKeeps(s.world.cache, conv);
    forall i | 0 <= i < |after.cache|
      ensures EntryTracked(after.cache[i], after.table, user, offsets)
    {
      var c := after.cache[i];
      assert c in after.cache;
      var j :| 0 <= j < |s.world.cache| && s.world.cache[j] == c;
      assert EntryTracked(s.world.cache[j], s.world.table, user, offsets);
    }
  }

  lemma {:induction false} DoKeeps(s: Page, user: UserId, offsets: map<Id, nat>, flow: Flow)
    requires Inv(s, user, offsets) && Completes(s, user, flow)
    ensures Inv(Do(s, user, flow), user, Offsets(offsets, s.world.table, flow))
  {
    match flow
    case List(ids) =>
    case Start(conv) => StartKeeps(s, user, offsets, conv);
    case Fetch(conv) => FetchKeeps(s, user, offsets, conv);
    case Send(_, _, _, _, _) => SendKeeps(s, user, offsets, flow);
    case Edit(_, _, _, _, _) => EditKeeps(s, user, offsets, flow);
    case Retry(_, _, _, _) => RetryKeeps(s, user, offsets, flow);
    case Delete(conv) => DeleteKeeps(s, user, offsets, conv);
  }

  // ---------------------------------------------------------------------- runs

  function After(s: Page, user: UserId, flows: seq<Flow>): Page
    decreases |flows|
  {
    if flows == [] then s else After(Do(s, user, flows[0]), user, flows[1..])
  }

  ghost predicate AllComplete(s: Page, user: UserId, flows: seq<Flow>)
    decreases |flows|
  {
    flows == [] ||
    (Completes(s, user, flows[0]) && AllComplete(Do(s, user, flows[0]), user, flows[1..]))
  }

  function OffsetsAfter(offsets: map<Id, nat>, s: Page, user: UserId, flows: seq<Flow>)
    : map<Id, nat>
    decreases |flows|
  {
    if flows == [] then offsets
    else OffsetsAfter(Offsets(offsets, s.world.table, flows[0]), Do(s, user, flows[0]), user,
                      flows[1..])
  }

  lemma {:induction false} AfterKeeps(s: Page, user: UserId, offsets: map<Id, nat>,
        flows: seq<Flow>)
    requires Inv(s, user, offsets) && AllComplete(s, user, flows)
    ensures Inv(After(s, user, flows), user, OffsetsAfter(offsets, s, user, flows))
    decreases |flows|
  {
    if flows != [] {
      DoKeeps(s, user, offsets, flows[0]);
      AfterKeeps(Do(s, user, flows[0]), user, Offsets(offsets, s.world.table, flows[0]),
                   flows[1..]);
    }
  }

  /** A page just opened, over a server in any reachable state. */
  function Opened(table: Table, minted: set<Id>): Page {
    Page(World(table, []), minted)
  }

  /** Cache agreement, exactly: after any completed flows, each conversation the page
      holds lacks just the first `k` messages of the server's list, where `k` is its
      offset; message `i` of the page is the server's message at position `k + i`; and
      the two lists are the same if and only if the offset is zero. */
  lemma {:induction false} CacheAgreement(table: Table, minted: set<Id>, user: UserId,
        flows: seq<Flow>, i: nat)
    requires TableKnown(table, minted) && AllComplete(Opened(table, minted), user, flows)
    requires i < |After(Opened(table, minted), user, flows).world.cache|
    ensures var w := After(Opened(table, minted), user, flows).world;
            var entry := w.cache[i];
            var offsets := OffsetsAfter(map[], Opened(table, minted), user, flows);
            && entry.id in w.table && entry.id in offsets
            && var rows, k := w.table[entry.id].rows, offsets[entry.id];
               && Missing(rows, entry.messages) == k
               && (forall j :: 0 <= j < |entry.messages| ==>
                     && entry.messages[j] == ChatStore.Received(rows[k + j])
                     && entry.messages[j].position == Some(k + j))
               && (entry.messages == ChatStore.ReceivedAll(rows) <==> k == 0)
  {
    AfterKeeps(Opened(table, minted), user, map[], flows);
    var w := After(Opened(table, minted), user, flows).world;
    var entry := w.cache[i];
    var offsets := OffsetsAfter(map[], Opened(table, minted), user, flows);
    assert EntryTracked(entry, w.table, user, offsets);
    var rows := w.table[entry.id].rows;
    assert RowsKnown(rows, After(Opened(table, minted), user, flows).minted);
    MirrorsAll(rows, entry.messages);
  }

  lemma {:induction false} AfterJoin(s: Page, user: UserId, offsets: map<Id, nat>, a: seq<Flow>,
        b: seq<Flow>)
    ensures After(s, user, a + b) == After(After(s, user, a), user, b)
    ensures OffsetsAfter(offsets, s, user, a + b)
         == OffsetsAfter(OffsetsAfter(offsets, s, user, a), After(s, user, a), user, b)
    decreases |a|
  {
    if a == [] {
      assert a + b == b;
    } else {
      assert (a + b)[1..] == a[1..] + b;
      AfterJoin(Do(s, user, a[0]), user, Offsets(offsets, s.world.table, a[0]), a[1..], b);
    }
  }

  /** A conversation fetched or created since the last list stays in full agreement. */
  lemma {:induction false} LoadedAgrees(offsets: map<Id, nat>, s: Page, user: UserId,
        flows: seq<Flow>, conv: Id)
    requires conv in offsets && offsets[conv] == 0
    requires forall i :: 0 <= i < |flows| ==> !flows[i].List?
    ensures conv in OffsetsAfter(offsets, s, user, flows)
    ensures OffsetsAfter(offsets, s, user, flows)[conv] == 0
    decreases |flows|
  {
    if flows != [] {
      LoadedAgrees(Offsets(offsets, s.world.table, flows[0]), Do(s, user, flows[0]), user,
                   flows[1..], conv);
    }
  }

  lemma {:induction false} OffsetsCons(s: Page, user: UserId, offsets: map<Id, nat>, flow: Flow,
        later: seq<Flow>)
    ensures OffsetsAfter(offsets, s, user, [flow] + later)
         == OffsetsAfter(Offsets(offsets, s.world.table, flow), Do(s, user, flow), user, later)
    ensures flow.Fetch? || flow.Start? ==>
              var loaded := Offsets(offsets, s.world.table, flow);
              flow.conv in loaded && loaded[flow.conv] == 0
  {
    assert ([flow] + later)[1..] == later;
  }

  lemma {:induction false} LoadedOffset(s: Page, user: UserId, before: seq<Flow>, load: Flow,
        later: seq<Flow>)
    requires load.Fetch? || load.Start?
    requires forall j :: 0 <= j < |later| ==> !later[j].List?
    ensures var offsets := OffsetsAfter(map[], s, user, before + ([load] + later));
            load.conv in offsets && offsets[load.conv] == 0
  {
    hide After, OffsetsAfter, Do, Offsets;
    var middle := After(s, user, before);
    var offsets := OffsetsAfter(map[], s, user, before);
    AfterJoin(s, user, map[], before, [load] + later);
    OffsetsCons(middle, user, offsets, load, later);
    LoadedAgrees(Offsets(offsets, middle.world.table, load), Do(middle, user, load), user, later,
                 load.conv);
  }

  lemma {:induction false} AgreesAtZero(table: Table, minted: set<Id>, user: UserId,
        flows: seq<Flow>, i: nat, conv: Id)
    requires TableKnown(table, minted) && AllComplete(Opened(table, minted), user, flows)
    requires i < |After(Opened(table, minted), user, flows).world.cache|
    requires After(Opened(table, minted), user, flows).world.cache[i].id == conv
    requires var offsets := OffsetsAfter(map[], Opened(table, minted), user, flows);
             conv in offsets && offsets[conv] == 0
    ensures var w := After(Opened(table, minted), user, flows).world;
            && conv in w.table
            && w.cache[i].messages == ChatStore.ReceivedAll(w.table[conv].rows)
            && forall j :: 0 <= j < |w.cache[i].messages| ==>
                 w.cache[i].messages[j].position == Some(j)
  {
    hide *;
    CacheAgreement(table, minted, user, flows, i);
    var entry := After(Opened(table, minted), user, flows).world.cache[i];
    assert forall j :: 0 <= j < |entry.messages| ==> entry.messages[j].position == Some(0 + j);
  }

  /** A conversation that was fetched or created, and not listed anew since, is the
      same list on both sides, index by index its position, whatever happened before
      and after. */
  lemma {:induction false} LoadedConversationsAgree(table: Table, minted: set<Id>, user: UserId,
        before: seq<Flow>, load: Flow, later: seq<Flow>, i: nat)
    requires TableKnown(table, minted) && (load.Fetch? || load.Start?)
    requires AllComplete(Opened(table, minted), user, before + ([load] + later))
    requires forall j :: 0 <= j < |later| ==> !later[j].List?
    requires var w := After(Opened(table, minted), user, before + ([load] + later)).world;
             i < |w.cache| && w.cache[i].id == load.conv
    ensures var w := After(Opened(table, minted), user, before + ([load] + later)).world;
            && load.conv in w.table
            && w.cache[i].messages == ChatStore.ReceivedAll(w.table[load.conv].rows)
            && forall j :: 0 <= j < |w.cache[i].messages| ==>
                 w.cache[i].messages[j].position == Some(j)
  {
    hide *;
    LoadedOffset(Opened(table, minted), user, before, load, later);
    AgreesAtZero(table, minted, user, before + ([load] + later), i, load.conv);
  }

  /** A listed conversation with messages that is never fetched lacks as many, whatever
      is sent, edited or retried in it: this is how a conversation that becomes active
      because another was deleted stays short of its earlier messages. */
  lemma {:induction false} UnfetchedDiffers(offsets: map<Id, nat>, s: Page, user: UserId,
        flows: seq<Flow>, conv: Id)
    requires conv in offsets && offsets[conv] > 0
    requires forall i :: 0 <= i < |flows| ==>
               !flows[i].List? && flows[i] != Fetch(conv) && flows[i] != Start(conv)
    ensures conv in OffsetsAfter(offsets, s, user, flows)
    ensures OffsetsAfter(offsets, s, user, flows)[conv] == offsets[conv]
    decreases |flows|
  {
    if flows != [] {
      UnfetchedDiffers(Offsets(offsets, s.world.table, flows[0]), Do(s, user, flows[0]), user,
                       flows[1..], conv);
    }
  }

  /** So it never agrees with the server, as long as it is neither fetched nor listed
      anew. */
  lemma {:induction false} UnfetchedConversationsDiffer(table: Table, minted: set<Id>, user: UserId,
        before: seq<Flow>, ids: seq<Id>, later: seq<Flow>, i: nat)
    requires TableKnown(table, minted)
    requires AllComplete(Opened(table, minted), user, before + ([List(ids)] + later))
    requires var w := After(Opened(table, minted), user, before + ([List(ids)] + later)).world;
             i < |w.cache| && w.cache[i].id in ids
    requires var w := After(Opened(table, minted), user, before + ([List(ids)] + later)).world;
             var conv := w.cache[i].id;
             var listed := After(Opened(table, minted), user, before).world.table;
             && conv in listed && listed[conv].rows != []
             && forall j :: 0 <= j < |later| ==>
                  !later[j].List? && later[j] != Fetch(conv) && later[j] != Start(conv)
    ensures var w := After(Opened(table, minted), user, before + ([List(ids)] + later)).world;
            && w.cache[i].id in w.table
            && w.cache[i].messages != ChatStore.ReceivedAll(w.table[w.cache[i].id].rows)
  {
    var s := Opened(table, minted);
    var middle := After(s, user, before);
    var offsets := OffsetsAfter(map[], s, user, before);
    hide After, OffsetsAfter, AllComplete, Do, TableKnown;
    CacheAgreement(table, minted, user, before + ([List(ids)] + later), i);
    AfterJoin(s, user, map[], before, [List(ids)] + later);
    OffsetsCons(middle, user, offsets, List(ids), later);
    var conv := After(s, user, before + ([List(ids)] + later)).world.cache[i].id;
    UnfetchedDiffers(Offsets(offsets, middle.world.table, List(ids)), Do(middle, user, List(ids)),
                     user, later, conv);
  }
}
