/** The cache and the server agree: each conversation the page holds is a suffix of
    the server's list, and the whole list once it has been fetched or was created
    here. */
module ChatAgreement {
  import opened Text
  import opened Conversations
  import ChatStore
  import StreamPost
  import opened ChatFlows

  /** The page's messages are the last ones of the server's list, field for field. */
  ghost predicate Mirrors(rows: seq<Message>, messages: seq<ChatStore.Message>) {
    |messages| <= |rows| && messages == ChatStore.ReceivedAll(rows[|rows| - |messages|..])
  }

  /** How many of the server's messages the page does not hold. */
  function Missing(rows: seq<Message>, messages: seq<ChatStore.Message>): int {
    |rows| - |messages|
  }

  lemma {:induction false} MirrorsAll(rows: seq<Message>, messages: seq<ChatStore.Message>)
    ensures Mirrors(rows, messages) && Missing(rows, messages) == 0
       <==> messages == ChatStore.ReceivedAll(rows)
  {
    if |messages| == |rows| {
      assert rows[0..] == rows;
    }
  }

  // ------------------------------------------------- one conversation at a time

  /** World `w` is world `w0` but for one conversation, which has these rows on the
      server and these messages wherever the page holds it. */
  ghost predicate At(w0: World, w: World, conv: Id, rows: seq<Message>,
                     messages: seq<ChatStore.Message>) {
    && conv in w0.table
    && w.table == WithRows(w0.table, conv, rows)
    && w.cache == ChatStore.OnMessages(w0.cache, conv, ChatStore.Replacing(messages))
  }

  lemma {:induction false} AtLocally(w0: World, w: World, conv: Id, rows: seq<Message>,
        messages: seq<ChatStore.Message>, update: ChatStore.Update)
    requires At(w0, w, conv, rows, messages)
    ensures At(w0, Locally(w, conv, update), conv, rows, update(messages))
  {
  }

  lemma {:induction false} AtSaved(w0: World, w: World, user: UserId, conv: Id, rows: seq<Message>,
        messages: seq<ChatStore.Message>, role: string, content: string, id: Id)
    requires At(w0, w, conv, rows, messages) && Mine(w0.table, user, conv)
    ensures At(w0, Saved(w, user, conv, role, content, id), conv,
               Appended(rows, id, role, content),
               ChatStore.BackFilled(messages, role, id, |rows|))
  {
    var w1 := Locally(w, conv, ChatStore.BackFilling(role, id, |rows|));
    AtLocally(w0, w, conv, rows, messages, ChatStore.BackFilling(role, id, |rows|));
    assert Saved(w, user, conv, role, content, id).cache == w1.cache;
  }

  lemma {:induction false} AtPatched(w0: World, w: World, user: UserId, conv: Id,
        rows: seq<Message>, messages: seq<ChatStore.Message>, id: Id, content: string)
    requires At(w0, w, conv, rows, messages) && Mine(w0.table, user, conv)
    ensures At(w0, Patched(w, user, conv, id, content), conv, Edited(rows, id, content), messages)
  {
  }

  lemma {:induction false} AtCutFrom(w0: World, w: World, user: UserId, conv: Id,
        rows: seq<Message>, messages: seq<ChatStore.Message>, id: Id)
    requires At(w0, w, conv, rows, messages) && Mine(w0.table, user, conv)
    ensures At(w0, CutFrom(w, user, conv, id), conv, CutAt(rows, id), messages)
  {
  }

  lemma {:induction false} LastSetTwice(messages: seq<ChatStore.Message>, first: string,
        second: string)
    ensures ChatStore.LastSet(ChatStore.LastSet(messages, first), second)
         == ChatStore.LastSet(messages, second)
  {
  }

  /** A stream that ended well sets the last message to all it carried, and stores
      that if it is not empty. */
  lemma {:induction false} AtHeard(w0: World, w: World, user: UserId, conv: Id, rows: seq<Message>,
        messages: seq<ChatStore.Message>, id: Id, accumulated: string, trace: seq<StreamPost.Event>)
    requires At(w0, w, conv, rows, messages) && Mine(w0.table, user, conv)
    requires StreamPost.WellStreamed(trace) && ChatStore.LastSet(messages, accumulated) == messages
    ensures var all := accumulated + StreamPost.Accumulated(trace);
            At(w0, Heard(w, user, conv, id, accumulated, trace), conv,
               if all != "" then Edited(rows, id, all) else rows,
               ChatStore.LastSet(messages, all))
    decreases |trace|
  {
    if |trace| == 1 {
      assert trace[1..] == [];
      assert accumulated + StreamPost.Accumulated(trace) == accumulated;
      AtPatched(w0, w, user, conv, rows, messages, id, accumulated);
    } else {
      var longer := accumulated + trace[0].content;
      var next := Locally(w, conv, ChatStore.Setting(longer));
      AtLocally(w0, w, conv, rows, messages, ChatStore.Setting(longer));
      AtHeard(w0, next, user, conv, rows, ChatStore.LastSet(messages, longer), id, longer,
              trace[1..]);
      assert longer + StreamPost.Accumulated(trace[1..]) == accumulated + StreamPost.Accumulated(trace);
      LastSetTwice(messages, longer, longer);
      LastSetTwice(messages, longer, accumulated + StreamPost.Accumulated(trace));
    }
  }

  /** A stream that never got done changes the last message and nothing on the server. */
  lemma {:induction false} AtHeardSoFar(w0: World, w: World, user: UserId, conv: Id,
        rows: seq<Message>, messages: seq<ChatStore.Message>, id: Id, accumulated: string,
        trace: seq<StreamPost.Event>)
    requires At(w0, w, conv, rows, messages) && StreamPost.OnlyContent(trace)
    requires ChatStore.LastSet(messages, accumulated) == messages
    ensures At(w0, Heard(w, user, conv, id, accumulated, trace), conv, rows,
               ChatStore.LastSet(messages, accumulated + StreamPost.Accumulated(trace)))
    decreases |trace|
  {
    if trace == [] {
      assert accumulated + StreamPost.Accumulated(trace) == accumulated;
    } else {
      var longer := accumulated + trace[0].content;
      var next := Locally(w, conv, ChatStore.Setting(longer));
      var all := accumulated + StreamPost.Accumulated(trace);
      AtLocally(w0, w, conv, rows, messages, ChatStore.Setting(longer));
      LastSetTwice(messages, longer, longer);
      AtHeardSoFar(w0, next, user, conv, rows, ChatStore.LastSet(messages, longer), id, longer,
                   trace[1..]);
      assert longer + StreamPost.Accumulated(trace[1..]) == all;
      LastSetTwice(messages, longer, all);
    }
  }

  // --------------------------------------------- messages and rows side by side

  lemma {:induction false} BackFillAdded(rows: seq<Message>, k: nat, role: string, content: string,
        id: Id)
    requires k <= |rows|
    ensures var m := Message(id, role, content, |rows|);
            ChatStore.BackFilled(ChatStore.ReceivedAll(rows[k..]) + [Placeholder(role, content)],
                                 role, id, |rows|)
            == ChatStore.ReceivedAll((rows + [m])[k..])
  {
    assert (rows + [Message(id, role, content, |rows|)])[k..]
        == rows[k..] + [Message(id, role, content, |rows|)];
  }

  lemma {:induction false} BackFillTwo(rows: seq<Message>, k: nat, text: string, id: Id, reply: Id)
    requires k <= |rows|
    ensures var n := |rows|;
            var ms := (ChatStore.ReceivedAll(rows[k..]) + [Placeholder("user", text)])
                      + [Placeholder("assistant", "")];
            var rows2 := rows + [Message(id, "user", text, n)]
                         + [Message(reply, "assistant", "", n + 1)];
            ChatStore.BackFilled(ChatStore.BackFilled(ms, "user", id, n), "assistant", reply, n + 1)
            == ChatStore.ReceivedAll(rows2[k..])
  {
  }

  function Reply(rows: seq<Message>, id: Id, content: string): seq<Message> {
    rows + [Message(id, "assistant", content, |rows|)]
  }

  lemma {:induction false} ReplyEdited(rows: seq<Message>, id: Id, content: string)
    requires Dense(rows) && Unused(rows, id)
    ensures Dense(Reply(rows, id, content))
    ensures (if content != "" then Edited(Reply(rows, id, ""), id, content)
             else Reply(rows, id, "")) == Reply(rows, id, content)
  {
    FindDense(Reply(rows, id, ""), |rows|);
  }

  lemma {:induction false} ReceivedReply(rows: seq<Message>, k: nat, id: Id, content: string)
    requires k <= |rows|
    ensures ChatStore.ReceivedAll(Reply(rows, id, content)[k..])
         == ChatStore.ReceivedAll(rows[k..])
            + [ChatStore.Received(Message(id, "assistant", content, |rows|))]
  {
    assert Reply(rows, id, content)[k..]
        == rows[k..] + [Message(id, "assistant", content, |rows|)];
  }

  /** The last message takes the reply as the last row does. */
  lemma {:induction false} ReplyShown(rows: seq<Message>, k: nat, id: Id, content: string)
    requires k <= |rows|
    ensures ChatStore.LastSet(ChatStore.ReceivedAll(Reply(rows, id, "")[k..]), content)
         == ChatStore.ReceivedAll(Reply(rows, id, content)[k..])
  {
    ReceivedReply(rows, k, id, "");
    ReceivedReply(rows, k, id, content);
  }

  ghost predicate Unused(rows: seq<Message>, id: Id) {
    forall i :: 0 <= i < |rows| ==> rows[i].id != id
  }

  /** The stream into a reply just saved as empty. */
  lemma {:induction false} ReplyHeard(w0: World, w: World, user: UserId, conv: Id,
        rows: seq<Message>, k: nat, id: Id, trace: seq<StreamPost.Event>)
    requires k <= |rows| && Dense(rows) && Unused(rows, id)
    requires Mine(w0.table, user, conv) && StreamPost.WellStreamed(trace)
    requires At(w0, w, conv, Reply(rows, id, ""), ChatStore.ReceivedAll(Reply(rows, id, "")[k..]))
    ensures var after := Reply(rows, id, StreamPost.Accumulated(trace));
            && Dense(after)
            && At(w0, Heard(w, user, conv, id, "", trace), conv, after,
                  ChatStore.ReceivedAll(after[k..]))
  {
    var said := StreamPost.Accumulated(trace);
    var before := Reply(rows, id, "");
    assert "" + said == said;
    ReplyEdited(rows, id, said);
    ReplyShown(rows, k, id, said);
    ReplyShown(rows, k, id, "");
    AtHeard(w0, w, user, conv, before, ChatStore.ReceivedAll(before[k..]), id, "", trace);
  }

  // ----------------------------------------------------------------- the flows

  /** The page holds the conversation, if at all, as the rows from `k` on. */
  ghost predicate Holding(w: World, user: UserId, conv: Id, k: nat) {
    && Mine(w.table, user, conv)
    && Dense(w.table[conv].rows)
    && k <= |w.table[conv].rows|
    && forall i :: 0 <= i < |w.cache| && w.cache[i].id == conv ==>
         w.cache[i].messages == ChatStore.ReceivedAll(w.table[conv].rows[k..])
  }

  lemma {:induction false} HoldingAt(w: World, user: UserId, conv: Id, k: nat)
    requires Holding(w, user, conv, k)
    ensures At(w, w, conv, w.table[conv].rows, ChatStore.ReceivedAll(w.table[conv].rows[k..]))
  {
    assert w.table == WithRows(w.table, conv, w.table[conv].rows);
  }

  lemma {:induction false} AnswerEffect(w0: World, w: World, user: UserId, conv: Id,
        rows: seq<Message>, k: nat, id: Id, trace: seq<StreamPost.Event>)
    requires k <= |rows| && Dense(rows) && Unused(rows, id)
    requires Mine(w0.table, user, conv) && StreamPost.WellStreamed(trace)
    requires At(w0, w, conv, rows, ChatStore.ReceivedAll(rows[k..]))
    ensures var after := Reply(rows, id, StreamPost.Accumulated(trace));
            && Dense(after)
            && At(w0, Answered(w, user, conv, id, trace), conv, after,
                  ChatStore.ReceivedAll(after[k..]))
  {
    var ms := ChatStore.ReceivedAll(rows[k..]);
    var placeholder := Placeholder("assistant", "");
    AtLocally(w0, w, conv, rows, ms, ChatStore.Adding(placeholder));
    var w1 := Locally(w, conv, ChatStore.Adding(placeholder));
    AtSaved(w0, w1, user, conv, rows, ms + [placeholder], "assistant", "", id);
    BackFillAdded(rows, k, "assistant", "", id);
    ReplyHeard(w0, Saved(w1, user, conv, "assistant", "", id), user, conv, rows, k, id, trace);
  }

  /** The user's text and an empty reply, placed locally and then saved. */
  function Placed(w: World, user: UserId, conv: Id, text: string, id: Id, reply: Id): World {
    var w1 := Locally(w, conv, ChatStore.Adding(Placeholder("user", text)));
    var w2 := Locally(w1, conv, ChatStore.Adding(Placeholder("assistant", "")));
    var w3 := Saved(w2, user, conv, "user", text, id);
    Saved(w3, user, conv, "assistant", "", reply)
  }

  function Asked(rows: seq<Message>, id: Id, text: string): seq<Message> {
    rows + [Message(id, "user", text, |rows|)]
  }

  lemma {:induction false} PlacedEffect(w: World, user: UserId, conv: Id, k: nat, text: string,
        id: Id, reply: Id)
    requires Holding(w, user, conv, k)
    ensures var placed := Reply(Asked(w.table[conv].rows, id, text), reply, "");
            At(w, Placed(w, user, conv, text, id, reply), conv, placed,
               ChatStore.ReceivedAll(placed[k..]))
  {
    var rows := w.table[conv].rows;
    var ms := ChatStore.ReceivedAll(rows[k..]);
    HoldingAt(w, user, conv, k);
    AtLocally(w, w, conv, rows, ms, ChatStore.Adding(Placeholder("user", text)));
    var w1 := Locally(w, conv, ChatStore.Adding(Placeholder("user", text)));
    var ms1 := ms + [Placeholder("user", text)];
    AtLocally(w, w1, conv, rows, ms1, ChatStore.Adding(Placeholder("assistant", "")));
    var w2 := Locally(w1, conv, ChatStore.Adding(Placeholder("assistant", "")));
    var ms2 := ms1 + [Placeholder("assistant", "")];
    AtSaved(w, w2, user, conv, rows, ms2, "user", text, id);
    var w3 := Saved(w2, user, conv, "user", text, id);
    AtSaved(w, w3, user, conv, Asked(rows, id, text),
            ChatStore.BackFilled(ms2, "user", id, |rows|), "assistant", "", reply);
    BackFillTwo(rows, k, text, id, reply);
  }

  /** Sending appends the user's text and the whole reply, on both sides. */
  lemma {:induction false} SendEffect(w: World, user: UserId, conv: Id, k: nat, text: string,
        id: Id, reply: Id, trace: seq<StreamPost.Event>)
    requires Holding(w, user, conv, k) && StreamPost.WellStreamed(trace)
    requires Unused(w.table[conv].rows, id) && Unused(w.table[conv].rows, reply) && id != reply
    ensures var after := Reply(Asked(w.table[conv].rows, id, text), reply,
                               StreamPost.Accumulated(trace));
            && after == w.table[conv].rows
                        + [Message(id, "user", text, |w.table[conv].rows|)]
                        + [Message(reply, "assistant", StreamPost.Accumulated(trace),
                                   |w.table[conv].rows| + 1)]
            && Dense(after)
            && At(w, Sent(w, user, conv, text, id, reply, trace), conv, after,
                  ChatStore.ReceivedAll(after[k..]))
  {
    PlacedEffect(w, user, conv, k, text, id, reply);
    ReplyHeard(w, Placed(w, user, conv, text, id, reply), user, conv,
               Asked(w.table[conv].rows, id, text), k, reply, trace);
  }

  /** What the page shows when a reply's row is empty and a notice stands in its place. */
  ghost predicate InPlaceOfReply(rows: seq<Message>, k: nat, text: string, id: Id, reply: Id,
                                 notice: string)
    requires k <= |rows|
  {
    var after := Reply(Asked(rows, id, text), reply, "");
    && after == rows + [Message(id, "user", text, |rows|)]
                + [Message(reply, "assistant", "", |rows| + 1)]
    && ChatStore.LastSet(ChatStore.ReceivedAll(after[k..]), notice)
       == ChatStore.ReceivedAll(rows[k..])
          + [ChatStore.Message(Some(id), "user", text, Some(|rows|))]
          + [ChatStore.Message(Some(reply), "assistant", notice, Some(|rows| + 1))]
  }

  lemma {:induction false} ErrorInPlace(rows: seq<Message>, k: nat, text: string, id: Id, reply: Id,
        notice: string)
    requires k <= |rows|
    ensures InPlaceOfReply(rows, k, text, id, reply, notice)
  {
    var after := Reply(Asked(rows, id, text), reply, "");
    assert after[k..] == rows[k..] + [Message(id, "user", text, |rows|)]
                         + [Message(reply, "assistant", "", |rows| + 1)];
  }

  lemma {:induction false} HeardError(w: World, user: UserId, conv: Id, id: Id, message: string)
    ensures Heard(w, user, conv, id, "", [StreamPost.OnError(message)])
         == Locally(w, conv, ChatStore.Setting("Error: " + message))
  {
    assert [StreamPost.OnError(message)][1..] == [];
    assert forall more :: Heard(more, user, conv, id, "", []) == more;
  }

  /** A request that is refused is told in the reply's place: its row stays empty. */
  lemma {:induction false} SendRefused(w: World, user: UserId, conv: Id, k: nat, text: string,
        id: Id, reply: Id, message: string)
    requires Holding(w, user, conv, k)
    ensures var after := Reply(Asked(w.table[conv].rows, id, text), reply, "");
            At(w, Sent(w, user, conv, text, id, reply, [StreamPost.OnError(message)]), conv, after,
               ChatStore.LastSet(ChatStore.ReceivedAll(after[k..]), "Error: " + message))
    ensures InPlaceOfReply(w.table[conv].rows, k, text, id, reply, "Error: " + message)
  {
    ErrorInPlace(w.table[conv].rows, k, text, id, reply, "Error: " + message);
    hide At, ChatStore.LastSet, ChatStore.ReceivedAll, InPlaceOfReply;
    var after := Reply(Asked(w.table[conv].rows, id, text), reply, "");
    var placed := Placed(w, user, conv, text, id, reply);
    PlacedEffect(w, user, conv, k, text, id, reply);
    AtLocally(w, placed, conv, after, ChatStore.ReceivedAll(after[k..]),
              ChatStore.Setting("Error: " + message));
    HeardError(placed, user, conv, reply, message);
  }

  /** When the stream is rejected the reply is lost: its row stays empty, and the page
      shows an error in its place. */
  lemma {:induction false} SendLost(w: World, user: UserId, conv: Id, k: nat, text: string,
        id: Id, reply: Id, trace: seq<StreamPost.Event>)
    requires Holding(w, user, conv, k) && StreamPost.OnlyContent(trace)
    ensures var after := Reply(Asked(w.table[conv].rows, id, text), reply, "");
            At(w, Caught(Sent(w, user, conv, text, id, reply, trace), conv, true), conv, after,
               ChatStore.LastSet(ChatStore.ReceivedAll(after[k..]), COULD_NOT_CONNECT))
    ensures InPlaceOfReply(w.table[conv].rows, k, text, id, reply,
                           "Error: Could not connect to the inference engine.")
  {
    ErrorInPlace(w.table[conv].rows, k, text, id, reply, COULD_NOT_CONNECT);
    hide At, ChatStore.LastSet, ChatStore.ReceivedAll;
    var asked := Asked(w.table[conv].rows, id, text);
    var after := Reply(asked, reply, "");
    var ms := ChatStore.ReceivedAll(after[k..]);
    var placed := Placed(w, user, conv, text, id, reply);
    PlacedEffect(w, user, conv, k, text, id, reply);
    ReplyShown(asked, k, reply, "");
    AtHeardSoFar(w, placed, user, conv, after, ms, reply, "", trace);
    var said := "" + StreamPost.Accumulated(trace);
    AtLocally(w, Heard(placed, user, conv, reply, "", trace), conv, after,
              ChatStore.LastSet(ms, said), ChatStore.Setting(COULD_NOT_CONNECT));
    LastSetTwice(ms, said, COULD_NOT_CONNECT);
  }

  /** Dropping messages on the page is dropping rows on the server. */
  lemma {:induction false} CutShown(rows: seq<Message>, k: nat, index: nat)
    requires k + index <= |rows|
    ensures ChatStore.Cut(ChatStore.ReceivedAll(rows[k..]), index)
         == ChatStore.ReceivedAll(rows[..k + index][k..])
  {
  }

  lemma {:induction false} RetryCuts(w: World, user: UserId, conv: Id, k: nat, index: nat)
    requires Holding(w, user, conv, k) && k + index < |w.table[conv].rows|
    ensures var kept := w.table[conv].rows[..k + index];
            && Dense(kept)
            && At(w, Locally(CutFrom(w, user, conv, w.table[conv].rows[k + index].id), conv,
                             ChatStore.Cutting(index)),
                  conv, kept, ChatStore.ReceivedAll(kept[k..]))
  {
    hide At, ChatStore.Cut, ChatStore.ReceivedAll, CutAt, Dense, CutFrom;
    var rows := w.table[conv].rows;
    var ms := ChatStore.ReceivedAll(rows[k..]);
    var msg := rows[k + index].id;
    HoldingAt(w, user, conv, k);
    AtCutFrom(w, w, user, conv, rows, ms, msg);
    DenseReads(rows, k + index, "");
    AtLocally(w, CutFrom(w, user, conv, msg), conv, rows[..k + index], ms,
              ChatStore.Cutting(index));
    CutShown(rows, k, index);
  }

  /** Retrying at the page's message `index` replaces it and all after it by a new
      reply, on both sides. */
  lemma {:induction false} RetryEffect(w: World, user: UserId, conv: Id, k: nat, index: nat,
        reply: Id, trace: seq<StreamPost.Event>)
    requires Holding(w, user, conv, k) && StreamPost.WellStreamed(trace)
    requires k + index < |w.table[conv].rows| && Unused(w.table[conv].rows, reply)
    ensures var rows := w.table[conv].rows;
            var after := Reply(rows[..k + index], reply, StreamPost.Accumulated(trace));
            && after == rows[..k + index]
                        + [Message(reply, "assistant", StreamPost.Accumulated(trace), k + index)]
            && Dense(after)
            && At(w, Retried(w, user, conv, index, rows[k + index].id, reply, trace), conv, after,
                  ChatStore.ReceivedAll(after[k..]))
  {
    var rows := w.table[conv].rows;
    RetryCuts(w, user, conv, k, index);
    AnswerEffect(w, Locally(CutFrom(w, user, conv, rows[k + index].id), conv,
                            ChatStore.Cutting(index)),
                 user, conv, rows[..k + index], k, reply, trace);
  }

  lemma {:induction false} FindAt(w0: World, w: World, user: UserId, conv: Id, rows: seq<Message>,
        messages: seq<ChatStore.Message>)
    requires At(w0, w, conv, rows, messages)
    ensures match ChatStore.Find(w.cache, conv)
            case None => forall i :: 0 <= i < |w0.cache| ==> w0.cache[i].id != conv
            case Some(c) => c.messages == messages
  {
    match ChatStore.Find(w.cache, conv)
    case None =>
      forall i | 0 <= i < |w0.cache| ensures w0.cache[i].id != conv {
        assert w.cache[i] in w.cache;
      }
    case Some(c) =>
      var i :| 0 <= i < |w.cache| && w.cache[i] == c;
      assert w0.cache[i].id == conv;
  }

  lemma {:induction false} HeldIsFound(w0: World, w: World, user: UserId, conv: Id,
        rows: seq<Message>, messages: seq<ChatStore.Message>)
    requires At(w0, w, conv, rows, messages)
    requires exists i :: 0 <= i < |w0.cache| && w0.cache[i].id == conv
    ensures ChatStore.Find(w.cache, conv).Some?
  {
    FindAt(w0, w, user, conv, rows, messages);
  }

  /** The first half of an edit: the message is rewritten on both sides. */
  lemma {:induction false} EditRewrites(w: World, user: UserId, conv: Id, k: nat, index: nat,
        text: string)
    requires Holding(w, user, conv, k) && k + index < |w.table[conv].rows|
    ensures var rows := w.table[conv].rows;
            var rewritten := rows[k + index := rows[k + index].(content := text)];
            && Dense(rewritten)
            && At(w, Rewritten(w, user, conv, index, rows[k + index].id, text),
                  conv, rewritten, ChatStore.ReceivedAll(rewritten[k..]))
  {
    var rows := w.table[conv].rows;
    var ms := ChatStore.ReceivedAll(rows[k..]);
    var rewritten := rows[k + index := rows[k + index].(content := text)];
    HoldingAt(w, user, conv, k);
    AtLocally(w, w, conv, rows, ms, ChatStore.Rewriting(index, text));
    var w1 := Locally(w, conv, ChatStore.Rewriting(index, text));
    assert ChatStore.ContentSet(ms, index, text) == ChatStore.ReceivedAll(rewritten[k..]);
    AtPatched(w, w1, user, conv, rows, ChatStore.ReceivedAll(rewritten[k..]),
              rows[k + index].id, text);
    FindDense(rows, k + index);
  }

  lemma {:induction false} NextAt(w0: World, w: World, user: UserId, conv: Id, rows: seq<Message>,
        k: nat, index: nat)
    requires k + index < |rows| && At(w0, w, conv, rows, ChatStore.ReceivedAll(rows[k..]))
    requires ChatStore.Find(w.cache, conv).Some?
    ensures NextId(w.cache, conv, index)
         == if k + index + 1 < |rows| then Some(rows[k + index + 1].id) else None
  {
    FindAt(w0, w, user, conv, rows, ChatStore.ReceivedAll(rows[k..]));
  }

  /** The second half: what follows it goes on both sides. */
  lemma {:induction false} EditCuts(w0: World, w: World, user: UserId, conv: Id, rows: seq<Message>,
        k: nat, index: nat)
    requires Mine(w0.table, user, conv) && Dense(rows) && k + index < |rows|
    requires At(w0, w, conv, rows, ChatStore.ReceivedAll(rows[k..]))
    requires ChatStore.Find(w.cache, conv).Some?
    ensures var kept := rows[..k + index + 1];
            At(w0, CutAfter(w, user, conv, index), conv, kept, ChatStore.ReceivedAll(kept[k..]))
  {
    hide At, Mine, ChatStore.Find, ChatStore.Cut, ChatStore.ReceivedAll, CutAt, Dense, NextId;
    var ms := ChatStore.ReceivedAll(rows[k..]);
    var p := k + index + 1;
    NextAt(w0, w, user, conv, rows, k, index);
    CutShown(rows, k, index + 1);
    if p < |rows| {
      var next := rows[p].id;
      AtCutFrom(w0, w, user, conv, rows, ms, next);
      DenseReads(rows, p, "");
      AtLocally(w0, CutFrom(w, user, conv, next), conv, rows[..p], ms,
                ChatStore.Cutting(index + 1));
    } else {
      assert rows[..p] == rows;
      AtLocally(w0, w, conv, rows, ms, ChatStore.Cutting(index + 1));
    }
  }

  function EditedTo(rows: seq<Message>, p: nat, text: string): seq<Message>
    requires p < |rows|
  {
    rows[..p] + [rows[p].(content := text)]
  }

  lemma {:induction false} EditAnswers(w0: World, w: World, user: UserId, conv: Id,
        rows: seq<Message>, k: nat, index: nat, reply: Id, trace: seq<StreamPost.Event>)
    requires Mine(w0.table, user, conv) && Dense(rows) && k + index < |rows|
    requires At(w0, w, conv, rows, ChatStore.ReceivedAll(rows[k..]))
    requires ChatStore.Find(w.cache, conv).Some?
    requires Unused(rows, reply) && StreamPost.WellStreamed(trace)
    ensures var after := Reply(rows[..k + index + 1], reply, StreamPost.Accumulated(trace));
            && Dense(after)
            && At(w0, Answered(CutAfter(w, user, conv, index), user, conv, reply, trace), conv,
                  after, ChatStore.ReceivedAll(after[k..]))
  {
    EditCuts(w0, w, user, conv, rows, k, index);
    AnswerEffect(w0, CutAfter(w, user, conv, index), user, conv, rows[..k + index + 1], k, reply,
                 trace);
  }

  /** Editing the page's message `index` rewrites it, drops all after it and gets a
      new reply, on both sides. */
  lemma {:induction false} EditEffect(w: World, user: UserId, conv: Id, k: nat, index: nat,
        text: string, reply: Id, trace: seq<StreamPost.Event>)
    requires Holding(w, user, conv, k) && StreamPost.WellStreamed(trace)
    requires k + index < |w.table[conv].rows| && Unused(w.table[conv].rows, reply)
    requires exists i :: 0 <= i < |w.cache| && w.cache[i].id == conv
    ensures var rows := w.table[conv].rows;
            var after := Reply(EditedTo(rows, k + index, text), reply,
                               StreamPost.Accumulated(trace));
            && after == rows[..k + index]
                        + [Message(rows[k + index].id, rows[k + index].role, text, k + index)]
                        + [Message(reply, "assistant", StreamPost.Accumulated(trace),
                                   k + index + 1)]
            && Dense(after)
            && At(w, EditSubmitted(w, user, conv, index, rows[k + index].id, text, reply, trace),
                  conv, after, ChatStore.ReceivedAll(after[k..]))
  {
    hide At, ChatStore.Find, CutAfter, Answered, Rewritten;
    var rows := w.table[conv].rows;
    var p := k + index;
    var rewritten := rows[p := rows[p].(content := text)];
    var w1 := Rewritten(w, user, conv, index, rows[p].id, text);
    EditRewrites(w, user, conv, k, index, text);
    HeldIsFound(w, w1, user, conv, rewritten, ChatStore.ReceivedAll(rewritten[k..]));
    EditAnswers(w, w1, user, conv, rewritten, k, index, reply, trace);
    assert rewritten[..p + 1] == EditedTo(rows, p, text);
  }
}
