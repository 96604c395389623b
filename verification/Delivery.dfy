/** From the engine's mouth to the conversation log: the whole way a reply takes. */
module Delivery {
  import opened Text
  import opened InferenceStream
  import opened EndToEnd
  import StreamPost
  import Conversations
  import ChatStore
  import ChatFlows
  import ChatAgreement

  /** Whatever text arrives, and however it is cut, the callbacks of a body that ends
      cleanly end well. Those of an aborted body end well if they end at all. */
  lemma {:induction false} AlwaysWellStreamed(decode: StreamPost.Decode, text: string,
        aborted: bool)
    ensures var trace := StreamPost.Reference(decode, text, aborted);
            if aborted && StreamPost.OnDone !in trace then StreamPost.OnlyContent(trace)
            else StreamPost.WellStreamed(trace)
  {
    var rule := StreamPost.RuleOf(decode);
    forall line | rule(line).Delta? ensures rule(line).content != "" {
      assert rule(line) == StreamPost.Meant(decode, line);
    }
    StreamPost.DoneOnceAndLast(rule, StreamPost.LinesOf(text, aborted));
  }

  /** What the two sides hold after a message was sent and its stream is over. */
  function After(w: ChatFlows.World, user: string, conv: string, text: string, id: string,
                 reply: string, trace: seq<StreamPost.Event>, rejected: bool): ChatFlows.World {
    ChatFlows.Caught(ChatFlows.Sent(w, user, conv, text, id, reply, trace), conv, rejected)
  }

  /** The server's rows once a question was answered. */
  function Answered(rows: seq<Conversations.Message>, text: string, id: string, reply: string,
                    content: string): seq<Conversations.Message> {
    rows + [Conversations.Message(id, "user", text, |rows|)]
         + [Conversations.Message(reply, "assistant", content, |rows| + 1)]
  }

  /** What the page and the server hold when a message was sent. */
  ghost predicate Holds(w: ChatFlows.World, conv: string, k: nat,
                        rows: seq<Conversations.Message>, rejected: bool) {
    && conv in w.table && w.table[conv].rows == rows && k <= |rows|
    && forall i :: 0 <= i < |w.cache| && w.cache[i].id == conv ==>
         w.cache[i].messages
         == if rejected then ChatStore.LastSet(ChatStore.ReceivedAll(rows[k..]),
                                               ChatFlows.COULD_NOT_CONNECT)
            else ChatStore.ReceivedAll(rows[k..])
  }

  lemma {:induction false} StoredAs(w: ChatFlows.World, user: string, conv: string, k: nat,
        text: string, id: string, reply: string, trace: seq<StreamPost.Event>, rejected: bool)
    requires ChatAgreement.Holding(w, user, conv, k)
    requires ChatAgreement.Unused(w.table[conv].rows, id)
    requires ChatAgreement.Unused(w.table[conv].rows, reply) && id != reply
    requires if rejected then StreamPost.OnlyContent(trace) else StreamPost.WellStreamed(trace)
    ensures Holds(After(w, user, conv, text, id, reply, trace, rejected), conv, k,
                  Answered(w.table[conv].rows, text, id, reply,
                           if rejected then "" else StreamPost.Accumulated(trace)), rejected)
  {
    hide ChatFlows.Sent, StreamPost.WellStreamed, StreamPost.OnlyContent;
    if rejected {
      ChatAgreement.SendLost(w, user, conv, k, text, id, reply, trace);
    } else {
      ChatAgreement.SendEffect(w, user, conv, k, text, id, reply, trace);
    }
  }

  /** Some of what a run emitted reaches the browser before the body ends or is
      aborted: the page hears the first `n` chunks whole. It is rejected just when the
      body was aborted before the terminator's line was complete, which is always so
      when the relay failed. */
  lemma {:induction false} ReplyIsHeard(codec: Codec, chunks: seq<OutChunk>, failed: bool,
        arrived: string, aborted: bool)
        returns (n: nat)
    requires Faithful(codec) && (failed ==> aborted)
    requires arrived <= Emitted(codec.encode, chunks, failed)
    ensures n <= |chunks|
    ensures |Concat(Frames(codec.encode, chunks))| <= |arrived| ==> n == |chunks|
    ensures var trace := StreamPost.Reference(codec.decode, arrived, aborted);
            var rejected := aborted && StreamPost.OnDone !in trace;
            && (rejected <==> aborted && |arrived| <= BeforeDone(codec.encode, chunks))
            && (failed ==> rejected)
            && StreamPost.Accumulated(trace) == Contents(chunks[..n])
            && if rejected then StreamPost.OnlyContent(trace) else StreamPost.WellStreamed(trace)
  {
    var rejected := aborted && |arrived| <= BeforeDone(codec.encode, chunks);
    assert Concat(Frames(codec.encode, chunks)) <= WholeText(codec.encode, chunks);
    hide Contents, Heard, StreamPost.Reference, Frames, StreamPost.Accumulated;
    n := CutShort(codec, chunks, arrived, aborted);
    HeardIsContent(chunks[..n]);
    HeardAccumulates(chunks[..n], if rejected then [] else [StreamPost.OnDone]);
    AlwaysWellStreamed(codec.decode, arrived, aborted);
  }

  /** A message is sent, the engine answers, and some of what the relay emitted arrives,
      in any pieces. If the stream is rejected the stored reply is empty and the page
      shows an error; otherwise both sides hold exactly the chunks that arrived whole. */
  lemma {:induction false} ReplyIsStored(w: ChatFlows.World, user: string, conv: string, k: nat,
        text: string, id: string, reply: string, codec: Codec, chunks: seq<OutChunk>,
        failed: bool, pieces: seq<string>, aborted: bool)
        returns (n: nat)
    requires ChatAgreement.Holding(w, user, conv, k)
    requires ChatAgreement.Unused(w.table[conv].rows, id)
    requires ChatAgreement.Unused(w.table[conv].rows, reply) && id != reply
    requires Faithful(codec) && (failed ==> aborted)
    requires Concat(pieces) <= Emitted(codec.encode, chunks, failed)
    ensures n <= |chunks|
    ensures |Concat(Frames(codec.encode, chunks))| <= |Concat(pieces)| ==> n == |chunks|
    ensures var trace := StreamPost.Reference(codec.decode, Concat(pieces), aborted);
            var rejected := aborted && StreamPost.OnDone !in trace;
            && (rejected <==> aborted && |Concat(pieces)| <= BeforeDone(codec.encode, chunks))
            && (failed ==> rejected)
            && Holds(After(w, user, conv, text, id, reply, trace, rejected), conv, k,
                     Answered(w.table[conv].rows, text, id, reply,
                              if rejected then "" else Contents(chunks[..n])), rejected)
  {
    hide After, Holds, Answered, Emitted, BeforeDone, ChatAgreement.Unused, StreamPost.Reference;
    n := ReplyIsHeard(codec, chunks, failed, Concat(pieces), aborted);
    var trace := StreamPost.Reference(codec.decode, Concat(pieces), aborted);
    StoredAs(w, user, conv, k, text, id, reply, trace, aborted && StreamPost.OnDone !in trace);
  }

  /** So on the Ollama path the stored reply is what the engine said if and only if the
      relay did not fail, or the engine had said nothing. */
  lemma {:induction false} StoredUnlessFailed(w: ChatFlows.World, user: string, conv: string,
        k: nat, text: string, id: string, reply: string, codec: Codec, lines: seq<OllamaLine>,
        pieces: seq<string>)
    requires ChatAgreement.Holding(w, user, conv, k)
    requires ChatAgreement.Unused(w.table[conv].rows, id)
    requires ChatAgreement.Unused(w.table[conv].rows, reply) && id != reply
    requires Faithful(codec)
    requires Concat(pieces) == Emitted(codec.encode, Relayed(Consumed(lines)), Fails(lines))
    ensures var trace := StreamPost.Reference(codec.decode, Concat(pieces), Fails(lines));
            var after := After(w, user, conv, text, id, reply, trace,
                               Fails(lines) && StreamPost.OnDone !in trace);
            var rows := w.table[conv].rows;
            && Holds(after, conv, k,
                     Answered(rows, text, id, reply, if Fails(lines) then "" else Said(lines)),
                     Fails(lines))
            && (after.table[conv].rows == Answered(rows, text, id, reply, Said(lines))
                <==> (!Fails(lines) || Said(lines) == ""))
  {
    var chunks := Relayed(Consumed(lines));
    assert |Concat(Frames(codec.encode, chunks))| <= |Concat(pieces)|;
    hide After, StreamPost.Reference, Frames, BeforeDone, Answered, Contents, Said;
    var n := ReplyIsStored(w, user, conv, k, text, id, reply, codec, chunks, Fails(lines), pieces,
                           Fails(lines));
    assert chunks[..n] == chunks;
    SaidIsRelayed(lines);
    DifferentReplies(w.table[conv].rows, text, id, reply, "", Said(lines));
  }

  lemma {:induction false} DifferentReplies(rows: seq<Conversations.Message>, text: string,
        id: string, reply: string, a: string, b: string)
    ensures Answered(rows, text, id, reply, a) == Answered(rows, text, id, reply, b) <==> a == b
  {
    var one, other := Answered(rows, text, id, reply, a), Answered(rows, text, id, reply, b);
    assert one[|rows| + 1].content == a && other[|rows| + 1].content == b;
  }
}
