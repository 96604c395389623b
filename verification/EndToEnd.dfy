/** The printer and the incremental parser together: what the engine says is what
    the browser hears, wherever the text between them is cut. */
module EndToEnd {
  import opened Text
  import opened InferenceStream
  import StreamPost

  /** The JSON library at both ends. */
  datatype Codec = Codec(encode: Encode, decode: StreamPost.Decode)

  ghost predicate EncodesWell(codec: Codec, chunk: OutChunk) {
    var text := codec.encode(chunk);
    && |text| >= 2 && text[0] == '{' && text[|text| - 1] == '}' && '\n' !in text
    && (if chunk.content == "" then codec.decode(text) in {None, Some("")}
        else codec.decode(text) == Some(chunk.content))
    && forall cut | cut < text :: codec.decode(cut) == None
  }

  /** Decoding undoes encoding; encoded text is one line, an object in braces, and
      no text cut short of its end is JSON. The terminator cut short is not either. */
  ghost predicate Faithful(codec: Codec) {
    && (forall chunk :: EncodesWell(codec, chunk))
    && forall cut | cut < StreamPost.DONE :: codec.decode(cut) == None
  }

  /** The callbacks that chunks deserve: one for each that carries content. */
  function Heard(chunks: seq<OutChunk>): seq<StreamPost.Event> {
    if chunks == [] then []
    else
      (if chunks[0].content != "" then [StreamPost.OnChunk(chunks[0].content)] else [])
      + Heard(chunks[1..])
  }

  function Contents(chunks: seq<OutChunk>): string {
    if chunks == [] then "" else chunks[0].content + Contents(chunks[1..])
  }

  lemma {:induction false} HeardAccumulates(chunks: seq<OutChunk>, end: seq<StreamPost.Event>)
    requires end == [] || end == [StreamPost.OnDone]
    ensures StreamPost.Accumulated(Heard(chunks) + end) == Contents(chunks)
  {
    if chunks == [] {
      assert Heard(chunks) + end == end;
      assert [StreamPost.OnDone][1..] == [];
    } else {
      HeardAccumulates(chunks[1..], end);
      var rest := Heard(chunks[1..]) + end;
      if chunks[0].content != "" {
        assert Heard(chunks) + end == [StreamPost.OnChunk(chunks[0].content)] + rest;
        hide Heard;
        AccumulatedCons(chunks[0].content, rest);
      } else {
        assert Heard(chunks) + end == rest;
      }
    }
  }

  lemma {:induction false} AccumulatedCons(content: string, rest: seq<StreamPost.Event>)
    ensures StreamPost.Accumulated([StreamPost.OnChunk(content)] + rest)
         == content + StreamPost.Accumulated(rest)
  {
    assert ([StreamPost.OnChunk(content)] + rest)[1..] == rest;
  }

  // ------------------------------------------------------- meaning of a line

  /** A data line cut short of its end says nothing. */
  lemma {:induction false} PartialLine(decode: StreamPost.Decode, data: string, line: string)
    requires data != "" && !JsSpace(data[0])
    requires forall cut | cut < data :: decode(cut) == None
    requires data == StreamPost.DONE || data[0] != StreamPost.DONE[0]
    requires line < StreamPost.DATA + data
    ensures StreamPost.Meant(decode, line) == StreamPost.Nothing
  {
    if line != "" {
      assert line[0] == StreamPost.DATA[0];
      var trimmed := TrimEnd(JsSpace, line);
      assert Trim(JsSpace, line) == trimmed;
      TrimEndIsPrefix(JsSpace, line);
      if StartsWith(trimmed, StreamPost.DATA) {
        var rest := trimmed[|StreamPost.DATA|..];
        assert rest == line[|StreamPost.DATA|..|trimmed|];
        assert rest < data;
        TrimEndIsPrefix(JsSpace, rest);
        assert Trim(JsSpace, rest) == TrimEnd(JsSpace, rest);
      }
    }
  }

  lemma {:induction false} FullLine(decode: StreamPost.Decode, data: string)
    requires data != "" && !JsSpace(data[0]) && !JsSpace(data[|data| - 1])
    ensures StreamPost.Meant(decode, StreamPost.DATA + data) ==
            if data == StreamPost.DONE then StreamPost.Finished
            else match decode(data)
                 case None => StreamPost.Nothing
                 case Some(content) =>
                   if content == "" then StreamPost.Nothing else StreamPost.Delta(content)
  {
    var line := StreamPost.DATA + data;
    assert line[0] == 'd' && line[|line| - 1] == data[|data| - 1];
    TrimTight(JsSpace, line);
    assert line[|StreamPost.DATA|..] == data;
    TrimTight(JsSpace, data);
  }

  lemma {:induction false} ChunkLine(codec: Codec, chunk: OutChunk)
    requires EncodesWell(codec, chunk)
    ensures StreamPost.Callback(
              StreamPost.RuleOf(codec.decode)(StreamPost.DATA + codec.encode(chunk)))
         == Heard([chunk])
    ensures !StreamPost.RuleOf(codec.decode)(StreamPost.DATA + codec.encode(chunk)).Finished?
  {
    FullLine(codec.decode, codec.encode(chunk));
    assert [chunk][1..] == [];
    assert codec.encode(chunk)[0] != StreamPost.DONE[0];
  }

  // ---------------------------------------------------------- whole frames

  lemma {:induction false} BlankLine(decode: StreamPost.Decode)
    ensures StreamPost.RuleOf(decode)("") == StreamPost.Nothing
  {
  }

  lemma {:induction false} HeardCons(chunk: OutChunk, chunks: seq<OutChunk>)
    ensures Heard([chunk] + chunks) == Heard([chunk]) + Heard(chunks)
  {
    assert ([chunk] + chunks)[1..] == chunks && [chunk][1..] == [];
  }

  lemma {:induction false} ReportBlank(rule: StreamPost.Rule, rest: seq<string>,
        end: seq<StreamPost.Event>)
    requires rule("").Nothing?
    ensures StreamPost.Report(rule, [""] + rest, end) == StreamPost.Report(rule, rest, end)
  {
    StreamPost.ReportStep(rule, [""] + rest, end);
    assert ([""] + rest)[1..] == rest;
    assert [] + StreamPost.Report(rule, rest, end) == StreamPost.Report(rule, rest, end);
  }

  lemma {:induction false} ReportTwo(rule: StreamPost.Rule, line: string, rest: seq<string>,
        end: seq<StreamPost.Event>)
    requires rule("").Nothing? && !rule(line).Finished?
    ensures StreamPost.Report(rule, [line] + ([""] + rest), end)
         == StreamPost.Callback(rule(line)) + StreamPost.Report(rule, rest, end)
  {
    var tail := [""] + rest;
    StreamPost.ReportStep(rule, [line] + tail, end);
    assert ([line] + tail)[1..] == tail;
    ReportBlank(rule, rest, end);
  }

  /** A frame at the head of the text contributes its chunk and nothing else. */
  lemma {:induction false} ReportFrame(codec: Codec, chunk: OutChunk, rest: string, aborted: bool)
    requires EncodesWell(codec, chunk)
    ensures StreamPost.Reference(codec.decode, Frame(codec.encode, chunk) + rest, aborted)
         == Heard([chunk]) + StreamPost.Reference(codec.decode, rest, aborted)
  {
    FrameLines(codec.encode(chunk), rest, aborted);
    ChunkLine(codec, chunk);
    BlankLine(codec.decode);
    ReportTwo(StreamPost.RuleOf(codec.decode), StreamPost.DATA + codec.encode(chunk),
              StreamPost.LinesOf(rest, aborted), StreamPost.EndOf(aborted));
  }

  lemma {:induction false} FrameSplits(data: string, rest: string)
    requires '\n' !in data
    ensures Split((PREFIX + data + BREAK) + rest)
         == [StreamPost.DATA + data] + ([""] + Split(rest))
  {
    var line := StreamPost.DATA + data;
    assert (PREFIX + data + BREAK) + rest == line + "\n" + ("" + "\n" + rest);
    SplitLine(line, "" + "\n" + rest);
    SplitLine("", rest);
  }

  lemma {:induction false} FrameLines(data: string, rest: string, aborted: bool)
    requires '\n' !in data
    ensures StreamPost.LinesOf((PREFIX + data + BREAK) + rest, aborted)
         == [StreamPost.DATA + data] + ([""] + StreamPost.LinesOf(rest, aborted))
  {
    FrameSplits(data, rest);
    var head, tail := [StreamPost.DATA + data], Split(rest);
    assert Init(head + ([""] + tail)) == head + ([""] + Init(tail));
  }

  lemma {:induction false} ReportTerminator(decode: StreamPost.Decode, rest: string, aborted: bool)
    ensures StreamPost.Reference(decode, TERMINATOR + rest, aborted) == [StreamPost.OnDone]
  {
    FrameLines(StreamPost.DONE, rest, aborted);
    assert TERMINATOR + rest == (PREFIX + StreamPost.DONE + BREAK) + rest;
    FullLine(decode, StreamPost.DONE);
    StreamPost.ReportStep(
      StreamPost.RuleOf(decode),
      [StreamPost.DATA + StreamPost.DONE] + ([""] + StreamPost.LinesOf(rest, aborted)),
      StreamPost.EndOf(aborted));
  }

  lemma {:induction false} FramesCons(encode: Encode, chunks: seq<OutChunk>)
    requires chunks != []
    ensures Concat(Frames(encode, chunks))
         == Frame(encode, chunks[0]) + Concat(Frames(encode, chunks[1..]))
  {
    assert Frames(encode, chunks)[1..] == Frames(encode, chunks[1..]);
  }

  lemma {:induction false} FramesTail(encode: Encode, chunks: seq<OutChunk>, rest: string)
    requires chunks != []
    ensures Concat(Frames(encode, chunks)) + rest
         == Frame(encode, chunks[0]) + (Concat(Frames(encode, chunks[1..])) + rest)
  {
    FramesCons(encode, chunks);
  }

  lemma {:induction false} Associate<T>(a: seq<T>, b: seq<T>, c: seq<T>)
    ensures a + (b + c) == (a + b) + c
  {
  }

  lemma {:induction false} HeardAll(chunks: seq<OutChunk>, after: seq<StreamPost.Event>)
    requires chunks != []
    ensures Heard([chunks[0]]) + (Heard(chunks[1..]) + after) == Heard(chunks) + after
  {
    Associate(Heard([chunks[0]]), Heard(chunks[1..]), after);
    HeardCons(chunks[0], chunks[1..]);
    assert [chunks[0]] + chunks[1..] == chunks;
  }

  /** Frames followed by anything: their chunks, then whatever the rest means. */
  lemma {:induction false} ReportFrames(codec: Codec, chunks: seq<OutChunk>, rest: string,
        aborted: bool)
    requires Faithful(codec)
    ensures StreamPost.Reference(codec.decode, Concat(Frames(codec.encode, chunks)) + rest, aborted)
         == Heard(chunks) + StreamPost.Reference(codec.decode, rest, aborted)
  {
    if chunks == [] {
      assert Concat(Frames(codec.encode, chunks)) + rest == rest;
      assert [] + StreamPost.Reference(codec.decode, rest, aborted)
          == StreamPost.Reference(codec.decode, rest, aborted);
    } else {
      FramesTail(codec.encode, chunks, rest);
      assert EncodesWell(codec, chunks[0]);
      ReportFrame(codec, chunks[0], Concat(Frames(codec.encode, chunks[1..])) + rest, aborted);
      ReportFrames(codec, chunks[1..], rest, aborted);
      HeardAll(chunks, StreamPost.Reference(codec.decode, rest, aborted));
    }
  }

  // ------------------------------------------------------------- the theorems

  /** What a run emitted, cut into reads anywhere, is heard chunk by chunk, and what
      the page accumulates is the concatenation of what the engine said. A run that was
      left by an exception has no terminator, so its aborted body is never done. */
  lemma {:induction false} HeardInFull(codec: Codec, chunks: seq<OutChunk>, failed: bool,
        pieces: seq<string>, aborted: bool)
    requires Faithful(codec)
    requires Concat(pieces) == Emitted(codec.encode, chunks, failed)
    ensures var trace := StreamPost.Reference(codec.decode, Concat(pieces), aborted);
            && trace == Heard(chunks) + (if failed && aborted then [] else [StreamPost.OnDone])
            && StreamPost.Accumulated(trace) == Contents(chunks)
  {
    if failed {
      ReportFrames(codec, chunks, "", aborted);
      assert Concat(Frames(codec.encode, chunks)) + "" == Concat(Frames(codec.encode, chunks));
      CutTerminator(codec, "", aborted);
    } else {
      ReportFrames(codec, chunks, TERMINATOR, aborted);
      ReportTerminator(codec.decode, "", aborted);
      assert TERMINATOR + "" == TERMINATOR;
    }
    HeardAccumulates(chunks, if failed && aborted then [] else [StreamPost.OnDone]);
  }

  lemma {:induction false} WholeCons(encode: Encode, chunks: seq<OutChunk>)
    requires chunks != []
    ensures WholeText(encode, chunks) == Frame(encode, chunks[0]) + WholeText(encode, chunks[1..])
  {
    FramesTail(encode, chunks, TERMINATOR);
  }

  lemma {:induction false} PrefixSplits(text: string, head: string, tail: string)
    requires text <= head + tail && |head| <= |text|
    ensures text == head + text[|head|..] && text[|head|..] <= tail
  {
    assert text == (head + tail)[..|text|];
  }

  /** One frame arrived whole: its chunk is heard, and the rest goes on. */
  lemma {:induction false} CutLater(codec: Codec, chunks: seq<OutChunk>, rest: string, m: nat,
        aborted: bool, end: seq<StreamPost.Event>)
    requires Faithful(codec) && chunks != [] && m <= |chunks| - 1
    requires StreamPost.Reference(codec.decode, rest, aborted) == Heard(chunks[1..][..m]) + end
    ensures StreamPost.Reference(codec.decode, Frame(codec.encode, chunks[0]) + rest, aborted)
         == Heard(chunks[..m + 1]) + end
  {
    hide Heard, Frame, EncodesWell;
    assert EncodesWell(codec, chunks[0]);
    ReportFrame(codec, chunks[0], rest, aborted);
    assert chunks[..m + 1][1..] == chunks[1..][..m];
    HeardAll(chunks[..m + 1], end);
  }

  /** How much text arrives before the terminator's line is complete. */
  function BeforeDone(encode: Encode, chunks: seq<OutChunk>): nat {
    |Concat(Frames(encode, chunks))| + |StreamPost.DATA + StreamPost.DONE|
  }

  /** A text that stops anywhere, even inside a frame: the browser hears the first `n`
      chunks whole, never part of one. It is done once if the body ended cleanly or the
      terminator's line was complete, and otherwise never. */
  lemma {:induction false} CutShort(codec: Codec, chunks: seq<OutChunk>, text: string,
        aborted: bool)
        returns (n: nat)
    requires Faithful(codec)
    requires text <= WholeText(codec.encode, chunks)
    ensures n <= |chunks|
    ensures StreamPost.Reference(codec.decode, text, aborted)
         == Heard(chunks[..n])
            + if aborted && |text| <= BeforeDone(codec.encode, chunks) then []
              else [StreamPost.OnDone]
    ensures |Concat(Frames(codec.encode, chunks))| <= |text| ==> n == |chunks|
    decreases |chunks|
  {
    if chunks == [] {
      n := 0;
      assert WholeText(codec.encode, chunks) == TERMINATOR;
      CutTerminator(codec, text, aborted);
      assert Heard(chunks[..0]) == [];
    } else {
      var frame := Frame(codec.encode, chunks[0]);
      WholeCons(codec.encode, chunks);
      FramesCons(codec.encode, chunks);
      if |frame| <= |text| {
        PrefixSplits(text, frame, WholeText(codec.encode, chunks[1..]));
        var m := CutShort(codec, chunks[1..], text[|frame|..], aborted);
        CutLater(codec, chunks, text[|frame|..], m, aborted,
                 if aborted && |text| <= BeforeDone(codec.encode, chunks) then []
                 else [StreamPost.OnDone]);
        n := m + 1;
      } else {
        n := CutFirst(codec, chunks, text, aborted);
      }
    }
  }

  lemma {:induction false} CutFirst(codec: Codec, chunks: seq<OutChunk>, text: string,
        aborted: bool)
        returns (n: nat)
    requires Faithful(codec) && chunks != []
    requires text <= Frame(codec.encode, chunks[0]) + WholeText(codec.encode, chunks[1..])
    requires |text| < |Frame(codec.encode, chunks[0])|
    ensures n <= 1
    ensures StreamPost.Reference(codec.decode, text, aborted)
         == Heard(chunks[..n]) + StreamPost.EndOf(aborted)
  {
    var frame := Frame(codec.encode, chunks[0]);
    assert text == (frame + WholeText(codec.encode, chunks[1..]))[..|text|] == frame[..|text|];
    assert EncodesWell(codec, chunks[0]);
    n := CutFrame(codec, chunks[0], text, aborted);
    assert chunks[..1] == [chunks[0]] && chunks[..0] == [];
  }

  /** One line without a terminator, unfinished or finished. */
  lemma {:induction false} OneLine(decode: StreamPost.Decode, line: string, aborted: bool)
    requires '\n' !in line
    requires !StreamPost.RuleOf(decode)(line).Finished?
    ensures StreamPost.Reference(decode, line, false)
         == StreamPost.Callback(StreamPost.RuleOf(decode)(line)) + [StreamPost.OnDone]
    ensures StreamPost.Reference(decode, line, true) == []
    ensures StreamPost.Reference(decode, line + "\n", aborted)
         == StreamPost.Callback(StreamPost.RuleOf(decode)(line)) + StreamPost.EndOf(aborted)
  {
    SplitNoNewline(line);
    SplitNewline(line);
    BlankLine(decode);
    StreamPost.UnfinishedIsLost(decode, line);
    ReportOne(StreamPost.RuleOf(decode), line, [StreamPost.OnDone]);
    ReportOne(StreamPost.RuleOf(decode), line, []);
    assert Init([line, ""]) == [line];
  }

  lemma {:induction false} ReportOne(rule: StreamPost.Rule, line: string,
        end: seq<StreamPost.Event>)
    requires rule("").Nothing? && !rule(line).Finished?
    ensures StreamPost.Report(rule, [line], end) == StreamPost.Callback(rule(line)) + end
    ensures StreamPost.Report(rule, [line, ""], end) == StreamPost.Callback(rule(line)) + end
  {
    StreamPost.ReportStep(rule, [line], end);
    StreamPost.ReportNothing(rule, end);
    ReportTwo(rule, line, [], end);
    assert [line] + ([""] + []) == [line, ""];
  }

  lemma {:induction false} CutFrame(codec: Codec, chunk: OutChunk, text: string, aborted: bool)
        returns (n: nat)
    requires EncodesWell(codec, chunk)
    requires text < Frame(codec.encode, chunk)
    ensures n <= 1
    ensures StreamPost.Reference(codec.decode, text, aborted)
         == (if n == 0 then [] else Heard([chunk])) + StreamPost.EndOf(aborted)
  {
    var data := codec.encode(chunk);
    var line := StreamPost.DATA + data;
    assert Frame(codec.encode, chunk) == line + "\n" + "\n";
    assert '\n' !in line;
    hide Heard, StreamPost.Meant, StreamPost.Report, StreamPost.LinesOf;
    if |text| < |line| {
      n := 0;
      assert text == line[..|text|];
      PartialLine(codec.decode, data, text);
      OneLine(codec.decode, text, aborted);
    } else {
      ChunkLine(codec, chunk);
      OneLine(codec.decode, line, aborted);
      assert text == line || text == line + "\n";
      n := if aborted && text == line then 0 else 1;
    }
  }

  lemma {:induction false} CutTerminator(codec: Codec, text: string, aborted: bool)
    requires Faithful(codec)
    requires text <= TERMINATOR
    ensures StreamPost.Reference(codec.decode, text, aborted)
         == if aborted && |text| <= |StreamPost.DATA + StreamPost.DONE| then []
            else [StreamPost.OnDone]
  {
    var line := StreamPost.DATA + StreamPost.DONE;
    assert TERMINATOR == line + "\n" + "\n";
    if |text| < |line| {
      assert text == line[..|text|];
      PartialLine(codec.decode, StreamPost.DONE, text);
      OneLine(codec.decode, text, aborted);
    } else {
      assert text == line || text == line + "\n" || text == TERMINATOR;
      if text == line {
        DoneUnfinished(codec.decode, aborted);
      } else {
        DoneFinished(codec.decode, text[|line| + 1..], aborted);
        assert text == line + "\n" + text[|line| + 1..];
      }
    }
  }

  lemma {:induction false} DoneUnfinished(decode: StreamPost.Decode, aborted: bool)
    ensures StreamPost.Reference(decode, StreamPost.DATA + StreamPost.DONE, aborted)
         == StreamPost.EndOf(aborted)
  {
    var line := StreamPost.DATA + StreamPost.DONE;
    FullLine(decode, StreamPost.DONE);
    SplitNoNewline(line);
    StreamPost.UnfinishedIsLost(decode, line);
    StreamPost.ReportStep(StreamPost.RuleOf(decode), [line], [StreamPost.OnDone]);
  }

  lemma {:induction false} DoneFinished(decode: StreamPost.Decode, rest: string, aborted: bool)
    ensures StreamPost.Reference(decode, StreamPost.DATA + StreamPost.DONE + "\n" + rest, aborted)
         == [StreamPost.OnDone]
  {
    var line := StreamPost.DATA + StreamPost.DONE;
    FullLine(decode, StreamPost.DONE);
    SplitLine(line, rest);
    assert Init([line] + Split(rest)) == [line] + Init(Split(rest));
    StreamPost.ReportStep(StreamPost.RuleOf(decode),
                          [line] + StreamPost.LinesOf(rest, aborted), StreamPost.EndOf(aborted));
  }

  /** What the engine says: the contents of its replies up to and including the
      first `done` one, whatever blank or malformed lines stand between. */
  function Said(lines: seq<OllamaLine>): string {
    if lines == [] then ""
    else match lines[0]
         case Reply(_, content, done, _) => content + if done then "" else Said(lines[1..])
         case Raises => ""
         case _ => Said(lines[1..])
  }

  lemma {:induction false} ConsumedCons(lines: seq<OllamaLine>)
    requires lines != [] && !EndsLoop(lines[0])
    ensures Consumed(lines) == [lines[0]] + Consumed(lines[1..])
  {
  }

  lemma {:induction false} SaidIsRelayed(lines: seq<OllamaLine>)
    ensures Contents(Relayed(Consumed(lines))) == Said(lines)
  {
    if lines != [] {
      if EndsLoop(lines[0]) {
        assert StopAt(lines) == 0;
        if lines[0].Reply? {
          assert Consumed(lines) == [lines[0]] && [lines[0]][1..] == [];
          assert Relayed(Consumed(lines)) == Sent(lines[0]);
          assert Sent(lines[0])[1..] == [];
        }
      } else {
        ConsumedCons(lines);
        assert ([lines[0]] + Consumed(lines[1..]))[1..] == Consumed(lines[1..]);
        SaidIsRelayed(lines[1..]);
        ContentsAppend(Sent(lines[0]), Relayed(Consumed(lines[1..])));
        if lines[0].Reply? {
          assert Sent(lines[0])[1..] == [];
        }
      }
    }
  }

  lemma {:induction false} ContentsAppend(a: seq<OutChunk>, b: seq<OutChunk>)
    ensures Contents(a + b) == Contents(a) + Contents(b)
  {
    if a == [] {
      assert a + b == b;
    } else {
      assert (a + b)[1..] == a[1..] + b;
      ContentsAppend(a[1..], b);
    }
  }

  lemma {:induction false} TerminatorIs()
    ensures TERMINATOR == "data: [DONE]\n\n"
  {
  }

  /** End to end on the Ollama path: the relay's output, cut anywhere, accumulates in
      the browser to exactly what the engine said. When the relay fails the body is
      aborted, and then the browser's promise is rejected and nothing is ever done. */
  method OllamaToBrowser(codec: Codec, lines: seq<OllamaLine>, pieces: seq<string>)
    returns (frames: seq<string>, trace: seq<StreamPost.Event>, rejected: bool)
    requires Faithful(codec)
    requires Concat(pieces) == Emitted(codec.encode, Relayed(Consumed(lines)), Fails(lines))
    ensures Concat(pieces)
         == Concat(frames) + if Fails(lines) then "" else "data: [DONE]\n\n"
    ensures trace == Heard(Relayed(Consumed(lines))) + StreamPost.EndOf(Fails(lines))
    ensures rejected <==> Fails(lines)
    ensures StreamPost.Accumulated(trace) == Said(lines)
  {
    hide OllamaRead, Relayed, Consumed, Fails, Said, Heard, StreamPost.Accumulated, Frames,
         StreamPost.Reference;
    var counts, failed;
    TerminatorIs();
    frames, counts, failed := RelayOllama(lines, codec.encode);
    assert Concat(frames) + "" == Concat(frames);
    trace, rejected := StreamPost.ApiStreamPost(StreamPost.Body(pieces, failed), codec.decode);
    HeardInFull(codec, Relayed(Consumed(lines)), failed, pieces, failed);
    HeardIsContent(Relayed(Consumed(lines)));
    SaidIsRelayed(lines);
  }

  lemma {:induction false} HeardIsContent(chunks: seq<OutChunk>)
    ensures StreamPost.OnDone !in Heard(chunks)
  {
    if chunks != [] {
      HeardIsContent(chunks[1..]);
    }
  }

  /** The contents of the usable payloads before the terminator or the first broken
      one, whatever other lines stand between, as long as they can be counted. */
  function Spoken(readings: seq<Reading>, counts: Usage): string {
    if readings == [] then ""
    else match readings[0]
         case Use(item) =>
           if Uncountable(counts, item) then ""
           else item.chunk.content + Spoken(readings[1..], Counting(counts, item))
         case Skip => Spoken(readings[1..], counts)
         case _ => ""
  }

  /** From line `i` on. */
  lemma {:induction false} SpokenFrom(readings: seq<Reading>, i: nat)
    requires Passed(readings, i)
    ensures Contents(ChunksOf(Served(readings)))
         == Contents(ChunksOf(Items(readings[..i])))
            + Spoken(readings[i..], Counted(Items(readings[..i])))
    decreases |readings| - i
  {
    hide Items, Counted, Served, ChunksOf, Contents, Counting, Uncountable;
    var items := Items(readings[..i]);
    if i == |readings| || Ends(readings[i]) {
      ServedAll(readings, i);
    } else {
      assert readings[i..][1..] == readings[i + 1..];
      ItemsTake(readings, i);
      match readings[i]
      case Skip =>
        PassedNext(readings, i);
        SpokenFrom(readings, i + 1);
      case Use(item) =>
        if Uncountable(Counted(items), item) {
          ServedStumbling(readings, i, item);
        } else {
          PassedNext(readings, i);
          SpokenFrom(readings, i + 1);
          CountedAppend(items, item);
          OneMore(items, item);
        }
    }
  }

  lemma {:induction false} OneMore(items: seq<Item>, item: Item)
    ensures Contents(ChunksOf(items + [item]))
         == Contents(ChunksOf(items)) + item.chunk.content
  {
    assert ChunksOf(items + [item]) == ChunksOf(items) + [item.chunk];
    ContentsAppend(ChunksOf(items), [item.chunk]);
    assert [item.chunk][1..] == [];
  }

  lemma {:induction false} SpokenIsServed(readings: seq<Reading>)
    ensures Contents(ChunksOf(Served(readings))) == Spoken(readings, NO_TOKENS)
  {
    assert readings[..0] == [] && readings[0..] == readings;
    SpokenFrom(readings, 0);
    assert ChunksOf(Items([])) == [];
  }

  /** The same on the path of an OpenAI-compatible engine. */
  method OpenAiToBrowser(codec: Codec, parse: Parse, lines: seq<string>, pieces: seq<string>)
    returns (frames: seq<string>, trace: seq<StreamPost.Event>, rejected: bool)
    requires Faithful(codec)
    requires Concat(pieces) == Emitted(codec.encode, ChunksOf(Served(Readings(parse, lines))),
                                       Breaks(Readings(parse, lines)))
    ensures var readings := Readings(parse, lines);
            && Concat(pieces)
               == Concat(frames) + (if Breaks(readings) then "" else "data: [DONE]\n\n")
            && trace == Heard(ChunksOf(Served(readings))) + StreamPost.EndOf(Breaks(readings))
            && (rejected <==> Breaks(readings))
            && StreamPost.Accumulated(trace) == Spoken(readings, NO_TOKENS)
  {
    hide Served, Breaks, Readings, ChunksOf, Heard, StreamPost.Accumulated, OpenAiRead, Frames,
         StreamPost.Reference;
    var counts, failed;
    TerminatorIs();
    frames, counts, failed := RelayOpenAi(lines, parse, codec.encode);
    assert Concat(frames) + "" == Concat(frames);
    trace, rejected := StreamPost.ApiStreamPost(StreamPost.Body(pieces, failed), codec.decode);
    ghost var served := ChunksOf(Served(Readings(parse, lines)));
    HeardInFull(codec, served, failed, pieces, failed);
    HeardIsContent(served);
    SpokenIsServed(Readings(parse, lines));
  }

  // ------------------------------------------- the assumption can be satisfied

  function Mark(c: char): string {
    if c == '\n' then ['.', 'n'] else if c == '}' then ['.', 'b']
    else if c == '.' then ['.', 'd'] else [c]
  }

  function Escape(s: string): string {
    if s == "" then "" else Mark(s[0]) + Escape(s[1..])
  }

  function Unescape(s: string): string {
    if s == "" then ""
    else if s[0] != '.' || |s| == 1 then [s[0]] + Unescape(s[1..])
    else [if s[1] == 'n' then '\n' else if s[1] == 'b' then '}' else '.'] + Unescape(s[2..])
  }

  lemma {:induction false} UnescapeMark(c: char, rest: string)
    ensures Unescape(Mark(c) + rest) == [c] + Unescape(rest)
  {
    if |Mark(c)| == 2 {
      assert (Mark(c) + rest)[2..] == rest;
    } else {
      assert (Mark(c) + rest)[1..] == rest;
    }
  }

  lemma {:induction false} EscapeUndone(s: string)
    ensures Unescape(Escape(s)) == s
    ensures '\n' !in Escape(s) && '}' !in Escape(s)
  {
    if s != "" {
      EscapeUndone(s[1..]);
      UnescapeMark(s[0], Escape(s[1..]));
    }
  }

  const SAMPLE: Codec := Codec(
    (chunk: OutChunk) => "{" + Escape(chunk.content) + "}",
    (text: string) => if |text| >= 2 && text[0] == '{' && text[|text| - 1] == '}'
            then Some(Unescape(text[1..|text| - 1])) else None)

  lemma {:induction false} SampleIsFaithful()
    ensures Faithful(SAMPLE)
  {
    forall chunk ensures EncodesWell(SAMPLE, chunk) {
      EscapeUndone(chunk.content);
      var text := SAMPLE.encode(chunk);
      assert text[1..|text| - 1] == Escape(chunk.content);
      forall cut | cut < text ensures SAMPLE.decode(cut) == None {
        assert |cut| > 0 ==> cut[|cut| - 1] == text[|cut| - 1];
      }
    }
    forall cut | cut < StreamPost.DONE ensures SAMPLE.decode(cut) == None {
      assert |cut| > 0 ==> cut[0] == StreamPost.DONE[0];
    }
  }
}
