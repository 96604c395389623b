/** The server's side of a streamed completion: `stream_complete` turns the lines
    of the inference engine into server-sent frames and counts tokens. */
module InferenceStream {
  import opened Text

  /** One chunk sent to the browser. `stamp` stands for the fields the relay only
      copies (id, creation time, model, role); an empty content is sent as null. */
  datatype OutChunk = OutChunk(stamp: string, content: string, finish: Option<string>)

  type Encode = OutChunk -> string

  const PREFIX := "data: "
  const BREAK := "\n\n"
  const TERMINATOR := PREFIX + "[DONE]" + BREAK

  function Frame(encode: Encode, chunk: OutChunk): string {
    PREFIX + encode(chunk) + BREAK
  }

  function Frames(encode: Encode, chunks: seq<OutChunk>): seq<string> {
    seq(|chunks|, i requires 0 <= i < |chunks| => Frame(encode, chunks[i]))
  }

  /** The text of a run that is not cut short. */
  function WholeText(encode: Encode, chunks: seq<OutChunk>): string {
    Concat(Frames(encode, chunks)) + TERMINATOR
  }

  /** The text of a run whose reading loop ended, by itself or by an exception: only
      the former is followed by the terminator. */
  function Emitted(encode: Encode, chunks: seq<OutChunk>, failed: bool): string {
    if failed then Concat(Frames(encode, chunks)) else WholeText(encode, chunks)
  }

  /** How many chunks carry content. */
  function Worded(chunks: seq<OutChunk>): nat {
    if chunks == [] then 0
    else (if chunks[0].content != "" then 1 else 0) + Worded(chunks[1..])
  }

  lemma {:induction false} WordedAppend(chunks: seq<OutChunk>, chunk: OutChunk)
    ensures Worded(chunks + [chunk]) == Worded(chunks) + if chunk.content != "" then 1 else 0
  {
    if chunks == [] {
      assert chunks + [chunk] == [chunk] && [chunk][1..] == [];
    } else {
      assert (chunks + [chunk])[1..] == chunks[1..] + [chunk];
      WordedAppend(chunks[1..], chunk);
    }
  }

  /** What the engine's JSON holds where a token count belongs: an integer, an empty
      value such as null, or anything else. */
  datatype Count = Number(value: int) | Empty | Junk

  datatype Usage = Usage(prompt: Count, completion: Count)

  const NO_TOKENS := Usage(Number(0), Number(0))

  const TWO_TO_64 := 0x1_0000_0000_0000_0000
  const TWO_TO_256 := TWO_TO_64 * TWO_TO_64 * TWO_TO_64 * TWO_TO_64
  const TWO_TO_1024 := TWO_TO_256 * TWO_TO_256 * TWO_TO_256 * TWO_TO_256

  /** The largest integer that rounds to a finite double: from here on, half a unit in
      the last of 53 places below two to the power of 1024, the conversion overflows. */
  const LARGEST_COUNT := TWO_TO_1024 - TWO_TO_1024 / 0x40_0000_0000_0000 - 1

  /** Whether the token counters accept it: an empty value is not counted at all, a
      counter never goes down, and it adds up doubles. */
  predicate Accepted(count: Count) {
    count.Empty? || (count.Number? && 0 <= count.value <= LARGEST_COUNT)
  }

  predicate Recordable(usage: Usage) {
    Accepted(usage.prompt) && Accepted(usage.completion)
  }

  /** `completion_tokens += 1`, where that is possible. */
  function More(usage: Usage, n: nat): Usage {
    if usage.completion.Number? then
      usage.(completion := Number(usage.completion.value + n)) else usage
  }

  // ------------------------------------------------------------------ Ollama

  /** One line of an Ollama reply. `Raises` is a line of JSON of another shape, on
      which the loop is left by an exception. */
  datatype OllamaLine =
    | Blank
    | Malformed
    | Reply(stamp: string, content: string, done: bool, counts: Usage)
    | Raises

  predicate EndsLoop(line: OllamaLine) {
    line.Raises? || (line.Reply? && line.done)
  }

  /** Where the loop ends: the first `done` reply or failure, or the last line. */
  function StopAt(lines: seq<OllamaLine>): (n: nat)
    ensures n <= |lines|
    ensures n < |lines| ==> EndsLoop(lines[n])
    ensures forall i :: 0 <= i < n ==> !EndsLoop(lines[i])
  {
    if lines == [] || EndsLoop(lines[0]) then 0 else 1 + StopAt(lines[1..])
  }

  predicate Fails(lines: seq<OllamaLine>) {
    StopAt(lines) < |lines| && lines[StopAt(lines)].Raises?
  }

  predicate SeesDone(lines: seq<OllamaLine>) {
    StopAt(lines) < |lines| && lines[StopAt(lines)].Reply?
  }

  /** The lines read up to and including the first `done` one. */
  function Consumed(lines: seq<OllamaLine>): seq<OllamaLine> {
    lines[..StopAt(lines) + if SeesDone(lines) then 1 else 0]
  }

  /** What the relay sends for one line. */
  function Sent(line: OllamaLine): seq<OutChunk> {
    match line
    case Reply(stamp, content, done, _) =>
      [OutChunk(stamp, content, if done then Some("stop") else None)]
    case _ => []
  }

  function Relayed(lines: seq<OllamaLine>): seq<OutChunk> {
    if lines == [] then [] else Sent(lines[0]) + Relayed(lines[1..])
  }

  lemma {:induction false} RelayedAppend(lines: seq<OllamaLine>, line: OllamaLine)
    ensures Relayed(lines + [line]) == Relayed(lines) + Sent(line)
  {
    if lines == [] {
      assert [line][1..] == [];
      assert lines + [line] == [line];
    } else {
      assert (lines + [line])[1..] == lines[1..] + [line];
      RelayedAppend(lines[1..], line);
    }
  }

  lemma {:induction false} RelayedTake(lines: seq<OllamaLine>, i: nat)
    requires i < |lines|
    ensures Relayed(lines[..i + 1]) == Relayed(lines[..i]) + Sent(lines[i])
    ensures Sent(lines[i]) == [] ==> Relayed(lines[..i + 1]) == Relayed(lines[..i])
  {
    assert lines[..i + 1] == lines[..i] + [lines[i]];
    RelayedAppend(lines[..i], lines[i]);
  }

  /** The lines before `i` were read without ending the loop. */
  ghost predicate Open(lines: seq<OllamaLine>, i: nat) {
    i <= |lines| && forall j :: 0 <= j < i ==> !EndsLoop(lines[j])
  }

  lemma {:induction false} StopIs(lines: seq<OllamaLine>, n: nat)
    requires Open(lines, n)
    requires n < |lines| ==> EndsLoop(lines[n])
    ensures StopAt(lines) == n
  {
  }

  lemma {:induction false} OpenNext(lines: seq<OllamaLine>, i: nat)
    requires Open(lines, i) && i < |lines| && !EndsLoop(lines[i])
    ensures Open(lines, i + 1)
  {
  }

  /** What the loop has yielded and counted for the lines before `i`. */
  ghost predicate Progress(encode: Encode, lines: seq<OllamaLine>, i: nat,
                           frames: seq<string>, counts: Usage) {
    && i <= |lines|
    && frames == Frames(encode, Relayed(lines[..i]))
    && counts == More(NO_TOKENS, Worded(Relayed(lines[..i])))
  }

  lemma {:induction false} ProgressReply(encode: Encode, lines: seq<OllamaLine>, i: nat,
        frames: seq<string>, counts: Usage, chunk: OutChunk)
    requires Progress(encode, lines, i, frames, counts)
    requires i < |lines| && Sent(lines[i]) == [chunk]
    ensures Progress(encode, lines, i + 1, frames + [Frame(encode, chunk)],
                     if chunk.content != "" then More(counts, 1) else counts)
  {
    RelayedTake(lines, i);
    WordedAppend(Relayed(lines[..i]), chunk);
  }

  lemma {:induction false} ProgressSkip(encode: Encode, lines: seq<OllamaLine>, i: nat,
        frames: seq<string>, counts: Usage)
    requires Progress(encode, lines, i, frames, counts)
    requires i < |lines| && Sent(lines[i]) == []
    ensures Progress(encode, lines, i + 1, frames, counts)
  {
    RelayedTake(lines, i);
  }

  /** The counts of the `done` reply, or how many contents were not empty. */
  function OllamaCounts(lines: seq<OllamaLine>): Usage {
    if SeesDone(lines) then lines[StopAt(lines)].counts
    else Usage(Number(0), Number(Worded(Relayed(Consumed(lines)))))
  }

  /** The lines before `n` that are replies, and those of them that say something. */
  ghost function Replies(lines: seq<OllamaLine>, n: nat): set<nat>
    requires n <= |lines|
  {
    set j: nat | j < n && lines[j].Reply?
  }

  ghost function Speaking(lines: seq<OllamaLine>, n: nat): set<nat>
    requires n <= |lines|
  {
    set j: nat | j < n && lines[j].Reply? && lines[j].content != ""
  }

  /** One frame for every reply before `n`, in their order, with what the reply says. */
  ghost predicate RepliesSent(encode: Encode, lines: seq<OllamaLine>, n: nat,
                              frames: seq<string>) {
    && n <= |lines|
    && |frames| == |Replies(lines, n)|
    && forall j: nat :: j < n && lines[j].Reply? ==>
         var line, at := lines[j], |Replies(lines, j)|;
         && at < |frames|
         && frames[at]
            == "data: "
               + encode(OutChunk(line.stamp, line.content,
                                 if line.done then Some("stop") else None))
               + "\n\n"
  }

  lemma {:induction false} RepliesNext(lines: seq<OllamaLine>, n: nat)
    requires n < |lines|
    ensures |Replies(lines, n + 1)| == |Replies(lines, n)| + if lines[n].Reply? then 1 else 0
    ensures |Speaking(lines, n + 1)|
         == |Speaking(lines, n)| + if lines[n].Reply? && lines[n].content != "" then 1 else 0
  {
    assert Replies(lines, n + 1)
        == if lines[n].Reply? then Replies(lines, n) + {n} else Replies(lines, n);
    assert Speaking(lines, n + 1)
        == if lines[n].Reply? && lines[n].content != "" then Speaking(lines, n) + {n}
           else Speaking(lines, n);
  }

  lemma {:induction false} SentNext(encode: Encode, lines: seq<OllamaLine>, n: nat,
        frames: seq<string>)
    requires n < |lines| && RepliesSent(encode, lines, n, frames)
    ensures !lines[n].Reply? ==> RepliesSent(encode, lines, n + 1, frames)
    ensures lines[n].Reply? ==>
              RepliesSent(encode, lines, n + 1, frames + [Frame(encode, Sent(lines[n])[0])])
  {
    RepliesNext(lines, n);
    hide Replies, Speaking;
  }

  lemma {:induction false} NothingSent(encode: Encode, lines: seq<OllamaLine>)
    ensures RepliesSent(encode, lines, 0, Frames(encode, Relayed(lines[..0])))
    ensures Worded(Relayed(lines[..0])) == |Speaking(lines, 0)|
  {
    assert lines[..0] == [];
    assert Replies(lines, 0) == {} && Speaking(lines, 0) == {};
  }

  lemma {:induction false} SentIs(line: OllamaLine)
    ensures line.Reply? ==>
              |Sent(line)| == 1 && Sent(line) == [Sent(line)[0]]
              && Sent(line)[0].content == line.content
    ensures !line.Reply? ==> Sent(line) == []
  {
  }

  lemma {:induction false} FramesSnoc(encode: Encode, chunks: seq<OutChunk>, chunk: OutChunk)
    ensures Frames(encode, chunks + [chunk]) == Frames(encode, chunks) + [Frame(encode, chunk)]
  {
  }

  lemma {:induction false} RepliesAreSent(encode: Encode, lines: seq<OllamaLine>, n: nat)
    requires n <= |lines|
    ensures RepliesSent(encode, lines, n, Frames(encode, Relayed(lines[..n])))
    ensures Worded(Relayed(lines[..n])) == |Speaking(lines, n)|
  {
    hide *;
    if n == 0 {
      NothingSent(encode, lines);
    } else {
      var before := Relayed(lines[..n - 1]);
      RepliesAreSent(encode, lines, n - 1);
      RepliesNext(lines, n - 1);
      RelayedTake(lines, n - 1);
      SentNext(encode, lines, n - 1, Frames(encode, before));
      SentIs(lines[n - 1]);
      if lines[n - 1].Reply? {
        var chunk := Sent(lines[n - 1])[0];
        WordedAppend(before, chunk);
        FramesSnoc(encode, before, chunk);
      }
    }
  }

  ghost predicate DoneAt(lines: seq<OllamaLine>, n: nat) {
    0 < n <= |lines| && lines[n - 1].Reply? && lines[n - 1].done
  }

  /** Of these lines `n` were read: up to and including the first reply that is done, or
      up to the first line that raises, or all of them. Counted are the tokens that the
      reply which is done reports, or else the replies that say something. */
  ghost predicate OllamaRead(encode: Encode, lines: seq<OllamaLine>, n: nat,
                             frames: seq<string>, counts: Usage, failed: bool) {
    && RepliesSent(encode, lines, n, frames)
    && (forall j: nat :: j < n ==> !lines[j].Raises?)
    && (forall j: nat :: j < n && lines[j].Reply? && lines[j].done ==> j == n - 1)
    && (if DoneAt(lines, n) then !failed && counts == lines[n - 1].counts
        else
          && counts == Usage(Number(0), Number(|Speaking(lines, n)|))
          && (if n == |lines| then !failed else failed && lines[n].Raises?))
  }

  /** The relay loop on the Ollama path: what it yields and what it counts. */
  method RelayOllama(lines: seq<OllamaLine>, encode: Encode)
    returns (frames: seq<string>, counts: Usage, failed: bool)
    ensures exists n :: OllamaRead(encode, lines, n, frames, counts, failed)
    ensures frames == Frames(encode, Relayed(Consumed(lines)))
    ensures failed <==> Fails(lines)
    ensures counts == OllamaCounts(lines)
  {
    hide Replies, Speaking, RepliesSent, Frames, Frame, Relayed, Worded;
    frames, counts, failed := [], NO_TOKENS, false;
    NothingRelayed(encode, lines);
    for i := 0 to |lines|
      invariant Open(lines, i)
      invariant Progress(encode, lines, i, frames, counts) && !failed
    {
      var line := lines[i];
      if line.Raises? {
        StopIs(lines, i);
        RepliesAreSent(encode, lines, i);
        assert OllamaRead(encode, lines, i, frames, counts, true);
        return frames, counts, true;
      }
      if line.Blank? || line.Malformed? {
        OpenNext(lines, i);
        ProgressSkip(encode, lines, i, frames, counts);
        continue;
      }
      var chunk := OutChunk(line.stamp, line.content, if line.done then Some("stop") else None);
      ProgressReply(encode, lines, i, frames, counts, chunk);
      if line.content != "" {
        counts := counts.(completion := Number(counts.completion.value + 1));
      }
      if line.done {
        counts := line.counts;
      }
      frames := frames + [Frame(encode, chunk)];
      if line.done {
        StopIs(lines, i);
        RepliesAreSent(encode, lines, i + 1);
        assert OllamaRead(encode, lines, i + 1, frames, counts, false);
        return;
      }
      OpenNext(lines, i);
    }
    StopIs(lines, |lines|);
    RepliesAreSent(encode, lines, |lines|);
    assert OllamaRead(encode, lines, |lines|, frames, counts, false);
  }

  lemma {:induction false} NothingRelayed(encode: Encode, lines: seq<OllamaLine>)
    ensures Progress(encode, lines, 0, [], NO_TOKENS)
  {
    assert lines[..0] == [];
  }

  // --------------------------------------------- OpenAI-compatible engines

  datatype Item = Item(chunk: OutChunk, usage: Option<Usage>)

  /** What `json.loads` and the field accesses make of one payload. */
  datatype Payload = Invalid | Unusable | Good(item: Item)

  type Parse = string -> Payload

  /** What one raw line of the engine's own event stream means. */
  datatype Reading = Skip | Stop | Broken | Use(item: Item)

  function Payloaded(parse: Parse, text: string): Reading {
    if text == "[DONE]" then Stop
    else match parse(text)
         case Invalid => Skip
         case Unusable => Broken
         case Good(item) => Use(item)
  }

  function Read(parse: Parse, line: string): Reading {
    if StartsWith(line, "data: ") then Payloaded(parse, Trim(PySpace, line[6..]))
    else if StartsWith(line, "data:") then Payloaded(parse, Trim(PySpace, line[5..]))
    else Skip
  }

  function Readings(parse: Parse, lines: seq<string>): seq<Reading> {
    seq(|lines|, i requires 0 <= i < |lines| => Read(parse, lines[i]))
  }

  /** The line is this payload after the field name, with white space or none around. */
  ghost predicate Padded(line: string, before: string, text: string, after: string) {
    && line == "data:" + before + text + after
    && (forall c :: c in before + after ==> PySpace(c))
    && Tight(PySpace, text)
  }

  ghost predicate Carries(line: string, text: string) {
    exists before, after :: Padded(line, before, text, after)
  }

  lemma {:induction false} CarriesTrimmed(line: string)
    requires "data:" <= line
    ensures Carries(line, Trim(PySpace, line[5..]))
  {
    var before, after := TrimSplits(PySpace, line[5..]);
    hide Trim;
    assert Padded(line, before, Trim(PySpace, line[5..]), after);
  }

  lemma {:induction false} TrimmedIsCarried(line: string, text: string)
    requires Carries(line, text)
    ensures "data:" <= line && text == Trim(PySpace, line[5..])
  {
    var before, after :| Padded(line, before, text, after);
    assert line[5..] == before + text + after;
    if text == "" {
      assert line[5..] == before + after;
      TrimSpace(PySpace, line[5..]);
    } else {
      TrimPadded(PySpace, before, text, after);
    }
  }

  /** A blank after the field name makes no difference. */
  lemma {:induction false} ReadTrimmed(parse: Parse, line: string)
    ensures Read(parse, line)
         == if "data:" <= line then Payloaded(parse, Trim(PySpace, line[5..])) else Skip
  {
    if "data: " <= line {
      assert line[5..][0] == ' ' && line[5..][1..] == line[6..];
      assert Trim(PySpace, line[5..]) == Trim(PySpace, line[6..]);
    }
  }

  /** What a line does: a payload of the terminator's ends the loop, one that is not JSON
      is skipped, JSON of another shape fails the loop, and a usable one is used. A line
      that does not start with the field name is skipped; any other has a payload. */
  lemma {:induction false} PayloadIsRead(parse: Parse, line: string)
    ensures forall text | Carries(line, text) ::
              Read(parse, line) == if text == "[DONE]" then Stop
                                   else if parse(text).Invalid? then Skip
                                   else if parse(text).Unusable? then Broken
                                   else Use(parse(text).item)
    ensures if "data:" <= line then exists text :: Carries(line, text)
            else Read(parse, line) == Skip
  {
    ReadTrimmed(parse, line);
    forall text | Carries(line, text)
      ensures "data:" <= line && text == Trim(PySpace, line[5..])
    {
      TrimmedIsCarried(line, text);
    }
    if "data:" <= line {
      CarriesTrimmed(line);
    }
    hide Carries, Trim, Read;
  }

  ghost predicate Terminates(line: string) {
    Carries(line, "[DONE]")
  }

  ghost predicate Spoils(parse: Parse, line: string) {
    exists text :: Carries(line, text) && text != "[DONE]" && parse(text).Unusable?
  }

  ghost predicate Yields(parse: Parse, line: string, item: Item) {
    exists text :: Carries(line, text) && text != "[DONE]" && parse(text) == Good(item)
  }

  lemma {:induction false} ReadIs(parse: Parse, line: string)
    ensures Read(parse, line) == Stop <==> Terminates(line)
    ensures Read(parse, line) == Broken <==> Spoils(parse, line)
    ensures forall item :: Yields(parse, line, item) <==> Read(parse, line) == Use(item)
  {
    PayloadIsRead(parse, line);
    hide Read, Carries;
    if "data:" <= line {
      var text :| Carries(line, text);
    } else {
      forall text ensures !Carries(line, text) {
        if Carries(line, text) {
          TrimmedIsCarried(line, text);
        }
      }
    }
  }

  predicate Ends(reading: Reading) {
    reading.Stop? || reading.Broken?
  }

  /** Where the loop ends: the first terminator or unusable payload. */
  function EndAt(readings: seq<Reading>): (n: nat)
    ensures n <= |readings|
    ensures n < |readings| ==> Ends(readings[n])
    ensures forall i :: 0 <= i < n ==> !Ends(readings[i])
  {
    if readings == [] || Ends(readings[0]) then 0 else 1 + EndAt(readings[1..])
  }

  function Taken(reading: Reading): seq<Item> {
    if reading.Use? then [reading.item] else []
  }

  function Items(readings: seq<Reading>): seq<Item> {
    if readings == [] then [] else Taken(readings[0]) + Items(readings[1..])
  }

  function ChunksOf(items: seq<Item>): seq<OutChunk> {
    seq(|items|, i requires 0 <= i < |items| => items[i].chunk)
  }

  /** One past the last payload that reports usage, or 0. */
  function LastUsage(items: seq<Item>): (n: nat)
    ensures n <= |items|
    ensures n > 0 ==> items[n - 1].usage.Some?
    ensures forall i :: n <= i < |items| ==> items[i].usage.None?
  {
    if items == [] || items[|items| - 1].usage.Some? then |items|
    else LastUsage(items[..|items| - 1])
  }

  /** The last reported usage, plus the worded chunks that came after it. */
  function Counted(items: seq<Item>): Usage {
    var n := LastUsage(items);
    More(if n == 0 then NO_TOKENS else items[n - 1].usage.value, Worded(ChunksOf(items[n..])))
  }

  function Counting(counts: Usage, item: Item): Usage {
    match item.usage
    case Some(usage) => usage
    case None => if item.chunk.content != "" then More(counts, 1) else counts
  }

  lemma {:induction false} CountedAppend(items: seq<Item>, item: Item)
    ensures Counted(items + [item]) == Counting(Counted(items), item)
  {
    var more := items + [item];
    assert more[..|more| - 1] == items;
    if item.usage.Some? {
      assert more[|more|..] == [];
    } else {
      var n := LastUsage(items);
      assert LastUsage(more) == n;
      assert more[n..] == items[n..] + [item];
      assert ChunksOf(more[n..]) == ChunksOf(items[n..]) + [item.chunk];
      WordedAppend(ChunksOf(items[n..]), item.chunk);
    }
  }

  /** A worded payload cannot be counted after a usage whose completion count is no
      number: the addition raises. */
  predicate Uncountable(counts: Usage, item: Item) {
    item.chunk.content != "" && !counts.completion.Number?
  }

  predicate Stumbles(items: seq<Item>, i: nat)
    requires i < |items|
  {
    Uncountable(Counted(items[..i]), items[i])
  }

  function StumbleFrom(items: seq<Item>, i: nat): (n: nat)
    requires i <= |items|
    ensures i <= n <= |items|
    ensures n < |items| ==> Stumbles(items, n)
    ensures forall j :: i <= j < n ==> !Stumbles(items, j)
    decreases |items| - i
  {
    if i == |items| || Stumbles(items, i) then i else StumbleFrom(items, i + 1)
  }

  /** The first payload on which the addition raises, or their number. */
  function StumbleAt(items: seq<Item>): (n: nat)
    ensures n <= |items|
    ensures n < |items| ==> Stumbles(items, n)
    ensures forall j :: 0 <= j < n ==> !Stumbles(items, j)
  {
    StumbleFrom(items, 0)
  }

  /** The payloads relayed: the usable ones before the end of the loop. */
  function Served(readings: seq<Reading>): seq<Item> {
    var items := Items(readings[..EndAt(readings)]);
    items[..StumbleAt(items)]
  }

  /** The loop is left by an exception: an unusable payload, or an addition. */
  predicate Breaks(readings: seq<Reading>) {
    || (EndAt(readings) < |readings| && readings[EndAt(readings)].Broken?)
    || StumbleAt(Items(readings[..EndAt(readings)])) < |Items(readings[..EndAt(readings)])|
  }

  lemma {:induction false} ItemsJoin(a: seq<Reading>, b: seq<Reading>)
    ensures Items(a + b) == Items(a) + Items(b)
  {
    if a == [] {
      assert a + b == b;
    } else {
      assert (a + b)[1..] == a[1..] + b;
      ItemsJoin(a[1..], b);
    }
  }

  lemma {:induction false} ItemsTake(readings: seq<Reading>, i: nat)
    requires i < |readings|
    ensures Items(readings[..i + 1]) == Items(readings[..i]) + Taken(readings[i])
    ensures !readings[i].Use? ==> Items(readings[..i + 1]) == Items(readings[..i])
  {
    assert readings[..i + 1] == readings[..i] + [readings[i]];
    ItemsJoin(readings[..i], [readings[i]]);
    assert [readings[i]][1..] == [];
  }

  ghost predicate Unended(readings: seq<Reading>, i: nat) {
    i <= |readings| && forall j :: 0 <= j < i ==> !Ends(readings[j])
  }

  lemma {:induction false} EndIs(readings: seq<Reading>, n: nat)
    requires Unended(readings, n)
    requires n < |readings| ==> Ends(readings[n])
    ensures EndAt(readings) == n
  {
  }

  lemma {:induction false} UnendedNext(readings: seq<Reading>, i: nat)
    requires Unended(readings, i) && i < |readings| && !Ends(readings[i])
    ensures Unended(readings, i + 1)
  {
  }

  lemma {:induction false} StumbleIs(items: seq<Item>, n: nat)
    requires n <= |items| && (n < |items| ==> Stumbles(items, n))
    requires forall j :: 0 <= j < n ==> !Stumbles(items, j)
    ensures StumbleAt(items) == n
  {
  }

  lemma {:induction false} StumblesBefore(items: seq<Item>, more: seq<Item>, j: nat)
    requires j < |items|
    ensures Stumbles(items + more, j) == Stumbles(items, j)
  {
    assert (items + more)[..j] == items[..j];
  }

  /** What the loop has yielded and counted for the lines before `i`. */
  ghost predicate ServedUpTo(encode: Encode, readings: seq<Reading>, i: nat,
                             frames: seq<string>, counts: Usage) {
    && i <= |readings|
    && var items := Items(readings[..i]);
       && frames == Frames(encode, ChunksOf(items))
       && counts == Counted(items)
  }

  lemma {:induction false} ServedNothing(encode: Encode, readings: seq<Reading>)
    ensures ServedUpTo(encode, readings, 0, [], NO_TOKENS) && Passed(readings, 0)
  {
    assert readings[..0] == [] && Items([]) == [];
  }

  lemma {:induction false} FramesAppend(encode: Encode, items: seq<Item>, item: Item)
    ensures Frames(encode, ChunksOf(items + [item]))
         == Frames(encode, ChunksOf(items)) + [Frame(encode, item.chunk)]
  {
  }

  lemma {:induction false} ServedUse(encode: Encode, readings: seq<Reading>, i: nat,
        frames: seq<string>, counts: Usage, item: Item)
    requires ServedUpTo(encode, readings, i, frames, counts)
    requires i < |readings| && readings[i] == Use(item)
    ensures ServedUpTo(encode, readings, i + 1,
                       frames + [Frame(encode, item.chunk)], Counting(counts, item))
  {
    hide Items, Counted, Counting, Frames, Frame, ChunksOf;
    var items := Items(readings[..i]);
    ItemsTake(readings, i);
    CountedAppend(items, item);
    FramesAppend(encode, items, item);
  }

  /** The lines before `i` were read without ending the loop. */
  ghost predicate Passed(readings: seq<Reading>, i: nat) {
    && Unended(readings, i)
    && StumbleAt(Items(readings[..i])) == |Items(readings[..i])|
  }

  /** The loop ended at line `i`, by a terminator, a broken line or the last one. */
  lemma {:induction false} ServedAll(readings: seq<Reading>, i: nat)
    requires Passed(readings, i)
    requires i < |readings| ==> Ends(readings[i])
    ensures Served(readings) == Items(readings[..i])
    ensures Breaks(readings) <==> i < |readings| && readings[i].Broken?
  {
    EndIs(readings, i);
    var items := Items(readings[..i]);
    assert items[..|items|] == items;
  }

  /** The loop ended at line `i` because its content could not be counted. */
  lemma {:induction false} ServedStumbling(readings: seq<Reading>, i: nat, item: Item)
    requires Passed(readings, i) && i < |readings| && readings[i] == Use(item)
    requires Uncountable(Counted(Items(readings[..i])), item)
    ensures Served(readings) == Items(readings[..i]) && Breaks(readings)
  {
    hide Items, Counted, ChunksOf, Uncountable;
    var end := EndAt(readings);
    UnendedNext(readings, i);
    assert end > i;
    var items, all := Items(readings[..i]), Items(readings[..end]);
    assert readings[..end] == readings[..i + 1] + readings[i + 1..end];
    ItemsJoin(readings[..i + 1], readings[i + 1..end]);
    ItemsTake(readings, i);
    var more := [item] + Items(readings[i + 1..end]);
    assert all == items + more;
    assert all[..|items|] == items && all[|items|] == item;
    forall j | 0 <= j < |items| ensures !Stumbles(all, j) {
      StumblesBefore(items, more, j);
    }
    StumbleIs(all, |items|);
  }

  lemma {:induction false} PassedNext(readings: seq<Reading>, i: nat)
    requires Passed(readings, i) && i < |readings| && !Ends(readings[i])
    requires readings[i].Use? ==> !Uncountable(Counted(Items(readings[..i])), readings[i].item)
    ensures Passed(readings, i + 1)
  {
    hide Items, Counted, Uncountable;
    var items := Items(readings[..i]);
    UnendedNext(readings, i);
    ItemsTake(readings, i);
    if readings[i].Use? {
      var item := readings[i].item;
      assert (items + [item])[..|items|] == items;
      forall j | 0 <= j < |items| ensures !Stumbles(items + [item], j) {
        StumblesBefore(items, [item], j);
      }
      StumbleIs(items + [item], |items| + 1);
    }
  }

  // -------------------------------------------------- said of the raw lines

  ghost predicate Usable(parse: Parse, line: string) {
    exists item :: Yields(parse, line, item)
  }

  ghost predicate Speaks(parse: Parse, line: string) {
    exists item :: Yields(parse, line, item) && item.chunk.content != ""
  }

  ghost predicate Reports(parse: Parse, line: string, usage: Usage) {
    exists item :: Yields(parse, line, item) && item.usage == Some(usage)
  }

  ghost predicate Silent(parse: Parse, line: string) {
    forall usage :: !Reports(parse, line, usage)
  }

  /** What the predicates on a raw line come to, once its reading is known. */
  lemma {:induction false} LineFacts(parse: Parse, line: string)
    ensures var reading := Read(parse, line);
            if reading.Use? then
              && Usable(parse, line)
              && (forall item :: Yields(parse, line, item) <==> item == reading.item)
              && (Speaks(parse, line) <==> reading.item.chunk.content != "")
              && (forall usage :: Reports(parse, line, usage)
                                  <==> reading.item.usage == Some(usage))
              && (reading.item.usage.None? ==> Silent(parse, line))
            else
              && !Usable(parse, line) && !Speaks(parse, line) && Silent(parse, line)
              && forall item :: !Yields(parse, line, item)
  {
    ReadIs(parse, line);
    hide Yields, Terminates, Spoils, Read;
    var reading := Read(parse, line);
    if reading.Use? {
      assert Yields(parse, line, reading.item);
    }
  }

  /** The lines before `n` whose payload is used, and those from `m` on that say
      something. */
  ghost function Used(parse: Parse, lines: seq<string>, n: nat): set<nat>
    requires n <= |lines|
  {
    set j: nat | j < n && Usable(parse, lines[j])
  }

  ghost function Talking(parse: Parse, lines: seq<string>, m: nat, n: nat): set<nat>
    requires n <= |lines|
  {
    set j: nat | j < n && m <= j && Speaks(parse, lines[j])
  }

  /** One frame for every payload used before `n`, in their order, with its chunk. */
  ghost predicate PayloadsSent(encode: Encode, parse: Parse, lines: seq<string>, n: nat,
                               frames: seq<string>) {
    && n <= |lines|
    && |frames| == |Used(parse, lines, n)|
    && forall j: nat, item :: j < n && Yields(parse, lines[j], item) ==>
         var at := |Used(parse, lines, j)|;
         at < |frames| && frames[at] == "data: " + encode(item.chunk) + "\n\n"
  }

  /** Line `m` is the last one before `n` that reports a usage, this. */
  ghost predicate LastReport(parse: Parse, lines: seq<string>, n: nat, m: nat, usage: Usage)
    requires n <= |lines|
  {
    && m < n && Reports(parse, lines[m], usage)
    && forall j: nat :: m < j < n ==> Silent(parse, lines[j])
  }

  /** These are the counts if line `m` is the last one before `n` that reports, this
      usage: the lines that say something afterwards are added if it is a number. */
  ghost predicate CountsSince(parse: Parse, lines: seq<string>, n: nat, m: nat, usage: Usage,
                              counts: Usage)
    requires n <= |lines|
  {
    && counts.prompt == usage.prompt
    && counts.completion
       == if usage.completion.Number? then
            Number(usage.completion.value + |Talking(parse, lines, m + 1, n)|)
          else usage.completion
  }

  /** The usage last reported and what was said since, or, without any, the number of
      lines that say something. */
  ghost predicate UsageOf(parse: Parse, lines: seq<string>, n: nat, counts: Usage) {
    && n <= |lines|
    && ((forall j: nat :: j < n ==> Silent(parse, lines[j])) ==>
          counts == Usage(Number(0), Number(|Talking(parse, lines, 0, n)|)))
    && (forall m: nat, usage :: LastReport(parse, lines, n, m, usage) ==>
          CountsSince(parse, lines, n, m, usage, counts))
  }

  lemma {:induction false} UsedNext(parse: Parse, lines: seq<string>, n: nat)
    requires n < |lines|
    ensures |Used(parse, lines, n + 1)|
         == |Used(parse, lines, n)| + if Usable(parse, lines[n]) then 1 else 0
  {
    hide Usable;
    assert Used(parse, lines, n + 1)
        == if Usable(parse, lines[n]) then Used(parse, lines, n) + {n}
           else Used(parse, lines, n);
  }

  lemma {:induction false} TalkingNext(parse: Parse, lines: seq<string>, m: nat, n: nat)
    requires n < |lines|
    ensures m <= n ==>
              |Talking(parse, lines, m, n + 1)|
              == |Talking(parse, lines, m, n)| + if Speaks(parse, lines[n]) then 1 else 0
    ensures n < m ==> |Talking(parse, lines, m, n + 1)| == 0
  {
    hide Speaks;
    if m <= n {
      assert Talking(parse, lines, m, n + 1)
          == if Speaks(parse, lines[n]) then Talking(parse, lines, m, n) + {n}
             else Talking(parse, lines, m, n);
    } else {
      assert Talking(parse, lines, m, n + 1) == {};
    }
  }

  lemma {:induction false} PayloadsNext(encode: Encode, parse: Parse, lines: seq<string>, n: nat,
        frames: seq<string>)
    requires n < |lines| && PayloadsSent(encode, parse, lines, n, frames)
    ensures var reading := Read(parse, lines[n]);
            PayloadsSent(encode, parse, lines, n + 1,
                         if reading.Use? then frames + [Frame(encode, reading.item.chunk)]
                         else frames)
  {
    LineFacts(parse, lines[n]);
    UsedNext(parse, lines, n);
    hide Used, Usable, Yields, Read, Speaks, Reports, Silent;
  }

  lemma {:induction false} LastReportNext(parse: Parse, lines: seq<string>, n: nat, m: nat,
        usage: Usage)
    requires n < |lines|
    ensures Silent(parse, lines[n]) ==>
              (LastReport(parse, lines, n + 1, m, usage) <==> LastReport(parse, lines, n, m, usage))
    ensures !Silent(parse, lines[n]) ==>
              (LastReport(parse, lines, n + 1, m, usage)
               <==> m == n && Reports(parse, lines[n], usage))
  {
    hide Reports;
  }

  lemma {:induction false} UsageNext(parse: Parse, lines: seq<string>, n: nat, counts: Usage)
    requires n < |lines| && UsageOf(parse, lines, n, counts)
    ensures var reading := Read(parse, lines[n]);
            UsageOf(parse, lines, n + 1,
                    if reading.Use? then Counting(counts, reading.item) else counts)
  {
    var reading := Read(parse, lines[n]);
    LineFacts(parse, lines[n]);
    hide Talking, Usable, Yields, Read, Speaks, Reports, LastReport;
    if reading.Use? && reading.item.usage.Some? {
      hide Silent;
      UsageReported(parse, lines, n, reading.item.usage.value);
    } else {
      UsageWithout(parse, lines, n, counts, Speaks(parse, lines[n]));
    }
  }

  lemma {:induction false} UsageReported(parse: Parse, lines: seq<string>, n: nat, reported: Usage)
    requires n < |lines| && Reports(parse, lines[n], reported)
    requires forall usage :: Reports(parse, lines[n], usage) ==> usage == reported
    ensures UsageOf(parse, lines, n + 1, reported)
  {
    hide Talking, Reports, LastReport;
    var next := n + 1;
    forall m: nat, usage | LastReport(parse, lines, next, m, usage)
      ensures m == n && usage == reported && |Talking(parse, lines, m + 1, next)| == 0
    {
      LastReportNext(parse, lines, n, m, usage);
      TalkingNext(parse, lines, m + 1, n);
    }
    assert !Silent(parse, lines[n]);
  }

  lemma {:induction false} UsageWithout(parse: Parse, lines: seq<string>, n: nat, counts: Usage,
        speaks: bool)
    requires n < |lines| && UsageOf(parse, lines, n, counts)
    requires Silent(parse, lines[n]) && speaks == Speaks(parse, lines[n])
    ensures UsageOf(parse, lines, n + 1, if speaks then More(counts, 1) else counts)
  {
    var next, more := n + 1, if speaks then More(counts, 1) else counts;
    TalkingNext(parse, lines, 0, n);
    hide Talking, Silent, Speaks, Reports, LastReport, CountsSince;
    forall m: nat, usage | LastReport(parse, lines, next, m, usage)
      ensures CountsSince(parse, lines, next, m, usage, more)
    {
      LastReportNext(parse, lines, n, m, usage);
      LastReportBefore(parse, lines, n, m, usage);
      OneMoreSince(parse, lines, n, m, usage, counts, speaks);
    }
  }

  lemma {:induction false} OneMoreSince(parse: Parse, lines: seq<string>, n: nat, m: nat,
        usage: Usage, counts: Usage, speaks: bool)
    requires m < n < |lines| && speaks == Speaks(parse, lines[n])
    requires CountsSince(parse, lines, n, m, usage, counts)
    ensures CountsSince(parse, lines, n + 1, m, usage, if speaks then More(counts, 1) else counts)
  {
    TalkingNext(parse, lines, m + 1, n);
    hide Talking, Speaks;
  }

  lemma {:induction false} LastReportBefore(parse: Parse, lines: seq<string>, n: nat, m: nat,
        usage: Usage)
    requires n <= |lines| && LastReport(parse, lines, n, m, usage)
    ensures m < n
  {
  }

  lemma {:induction false} NothingUsed(encode: Encode, parse: Parse, lines: seq<string>)
    ensures PayloadsSent(encode, parse, lines, 0, Frames(encode, ChunksOf(Items([]))))
    ensures UsageOf(parse, lines, 0, Counted(Items([])))
  {
    NothingBefore(parse, lines);
    hide *;
    NothingCounted(encode);
    NoPayloads(encode, parse, lines);
    NoUsage(parse, lines);
  }

  lemma {:induction false} NothingCounted(encode: Encode)
    ensures Frames(encode, ChunksOf(Items([]))) == [] && Counted(Items([])) == NO_TOKENS
  {
  }

  lemma {:induction false} NothingBefore(parse: Parse, lines: seq<string>)
    ensures Used(parse, lines, 0) == {} && Talking(parse, lines, 0, 0) == {}
  {
    hide Usable, Speaks;
  }

  lemma {:induction false} NoPayloads(encode: Encode, parse: Parse, lines: seq<string>)
    requires Used(parse, lines, 0) == {}
    ensures PayloadsSent(encode, parse, lines, 0, [])
  {
    hide Used, Yields;
  }

  lemma {:induction false} NoUsage(parse: Parse, lines: seq<string>)
    requires Talking(parse, lines, 0, 0) == {}
    ensures UsageOf(parse, lines, 0, NO_TOKENS)
  {
    hide Talking, Reports, Silent;
  }

  /** What the spec of the loop says of its readings is true of the raw lines. */
  lemma {:induction false} ReadingsAreLines(encode: Encode, parse: Parse, lines: seq<string>,
        n: nat)
    requires n <= |lines|
    ensures var items := Items(Readings(parse, lines)[..n]);
            && PayloadsSent(encode, parse, lines, n, Frames(encode, ChunksOf(items)))
            && UsageOf(parse, lines, n, Counted(items))
  {
    hide *;
    var readings := Readings(parse, lines);
    ReadingsAt(parse, lines);
    if n == 0 {
      assert readings[..0] == [];
      NothingUsed(encode, parse, lines);
    } else {
      var items := Items(readings[..n - 1]);
      ReadingsAreLines(encode, parse, lines, n - 1);
      PayloadsNext(encode, parse, lines, n - 1, Frames(encode, ChunksOf(items)));
      UsageNext(parse, lines, n - 1, Counted(items));
      ItemsTake(readings, n - 1);
      if readings[n - 1].Use? {
        var item := readings[n - 1].item;
        TakenOne(readings[n - 1]);
        CountedAppend(items, item);
        FramesAppend(encode, items, item);
      }
    }
  }

  lemma {:induction false} ReadingsAt(parse: Parse, lines: seq<string>)
    ensures |Readings(parse, lines)| == |lines|
    ensures forall i :: 0 <= i < |lines| ==> Readings(parse, lines)[i] == Read(parse, lines[i])
  {
    hide Read;
  }

  lemma {:induction false} TakenOne(reading: Reading)
    ensures reading.Use? ==> Taken(reading) == [reading.item]
  {
  }

  /** Of these lines `n` were read before the loop ended: none of them ends it, and each
      that says something could be counted. Then comes the terminator, and the loop ends;
      or JSON of another shape, or something said after a usage without a number, and it
      fails; or nothing. Lines after that are not looked at. */
  ghost predicate OpenAiRead(encode: Encode, parse: Parse, lines: seq<string>, n: nat,
                             frames: seq<string>, counts: Usage, failed: bool) {
    && PayloadsSent(encode, parse, lines, n, frames)
    && UsageOf(parse, lines, n, counts)
    && (forall j: nat :: j < n ==> !Terminates(lines[j]) && !Spoils(parse, lines[j]))
    && (forall j: nat, m: nat, usage ::
          j < n && Speaks(parse, lines[j]) && LastReport(parse, lines, j, m, usage) ==>
          usage.completion.Number?)
    && (if n == |lines| || Terminates(lines[n]) then !failed
        else
          && failed
          && (Spoils(parse, lines[n])
              || (Speaks(parse, lines[n]) && !counts.completion.Number?)))
  }

  lemma {:induction false} PassedLines(encode: Encode, parse: Parse, lines: seq<string>, n: nat)
    requires n <= |lines| && Passed(Readings(parse, lines), n)
    ensures forall j: nat :: j < n ==> !Terminates(lines[j]) && !Spoils(parse, lines[j])
    ensures forall j: nat, m: nat, usage ::
              j < n && Speaks(parse, lines[j]) && LastReport(parse, lines, j, m, usage) ==>
              usage.completion.Number?
  {
    hide Terminates, Spoils, Speaks, LastReport, Read, Items, Counted, StumbleAt;
    var readings := Readings(parse, lines);
    ReadingsAt(parse, lines);
    forall j: nat | j < n ensures !Terminates(lines[j]) && !Spoils(parse, lines[j]) {
      ReadIs(parse, lines[j]);
      assert !Ends(readings[j]);
    }
    forall j: nat, m: nat, usage |
      j < n && Speaks(parse, lines[j]) && LastReport(parse, lines, j, m, usage)
      ensures usage.completion.Number?
    {
      LineFacts(parse, lines[j]);
      ReadingsAreLines(encode, parse, lines, j);
      CountableAt(readings, n, j);
    }
  }

  /** A payload the loop went past could be counted. */
  lemma {:induction false} CountableAt(readings: seq<Reading>, n: nat, j: nat)
    requires Passed(readings, n) && j < n && readings[j].Use?
    ensures !Uncountable(Counted(Items(readings[..j])), readings[j].item)
  {
    hide Items, Counted, Uncountable;
    assert readings[..n] == readings[..j + 1] + readings[j + 1..n];
    ItemsJoin(readings[..j + 1], readings[j + 1..n]);
    ItemsTake(readings, j);
    var items, all := Items(readings[..j]), Items(readings[..n]);
    assert all[..|items|] == items && all[|items|] == readings[j].item;
    assert !Stumbles(all, |items|);
  }

  /** The tests on one raw line at the head of the loop body. */
  method ReadLine(line: string, parse: Parse) returns (reading: Reading)
    ensures reading == Read(parse, line)
  {
    var text: string;
    if StartsWith(line, "data: ") {
      text := Trim(PySpace, line[6..]);
    } else if StartsWith(line, "data:") {
      text := Trim(PySpace, line[5..]);
    } else {
      return Skip;
    }
    if text == "[DONE]" {
      return Stop;
    }
    match parse(text)
    case Invalid => reading := Skip;
    case Unusable => reading := Broken;
    case Good(item) => reading := Use(item);
  }

  /** The relay loop on the OpenAI-compatible path. */
  method RelayOpenAi(lines: seq<string>, parse: Parse, encode: Encode)
    returns (frames: seq<string>, counts: Usage, failed: bool)
    ensures exists n :: OpenAiRead(encode, parse, lines, n, frames, counts, failed)
    ensures frames == Frames(encode, ChunksOf(Served(Readings(parse, lines))))
    ensures counts == Counted(Served(Readings(parse, lines)))
    ensures failed <==> Breaks(Readings(parse, lines))
  {
    hide Read, Items, Counted, Frames, Frame, ChunksOf, StumbleAt, Served, Breaks, EndAt,
         Passed, OpenAiRead;
    ghost var readings := Readings(parse, lines);
    frames, counts, failed := [], NO_TOKENS, false;
    ServedNothing(encode, readings);
    for i := 0 to |lines|
      invariant Passed(readings, i)
      invariant ServedUpTo(encode, readings, i, frames, counts)
      invariant !failed
    {
      var reading := ReadLine(lines[i], parse);
      assert readings[i] == reading;
      match reading
      case Skip =>
        PassedNext(readings, i);
        ItemsTake(readings, i);
      case Stop =>
        ServedAll(readings, i);
        EndedAt(encode, parse, lines, i, frames, counts, false);
        return;
      case Broken =>
        ServedAll(readings, i);
        EndedAt(encode, parse, lines, i, frames, counts, true);
        return frames, counts, true;
      case Use(item) =>
        if item.chunk.content != "" && !counts.completion.Number? {
          ServedStumbling(readings, i, item);
          EndedAt(encode, parse, lines, i, frames, counts, true);
          return frames, counts, true;
        }
        PassedNext(readings, i);
        ServedUse(encode, readings, i, frames, counts, item);
        if item.chunk.content != "" {
          counts := counts.(completion := Number(counts.completion.value + 1));
        }
        if item.usage.Some? {
          counts := item.usage.value;
        }
        frames := frames + [Frame(encode, item.chunk)];
    }
    ServedAll(readings, |lines|);
    EndedAt(encode, parse, lines, |lines|, frames, counts, false);
  }

  lemma {:induction false} EndedAt(encode: Encode, parse: Parse, lines: seq<string>, n: nat,
        frames: seq<string>, counts: Usage, failed: bool)
    requires var readings := Readings(parse, lines);
             && Passed(readings, n) && ServedUpTo(encode, readings, n, frames, counts)
             && (n == |readings| || Ends(readings[n])
                 || (readings[n].Use? && Uncountable(counts, readings[n].item)))
             && failed == (n < |readings| && !readings[n].Stop?)
    ensures OpenAiRead(encode, parse, lines, n, frames, counts, failed)
  {
    ReadingsAt(parse, lines);
    ReadingsAreLines(encode, parse, lines, n);
    PassedLines(encode, parse, lines, n);
    if n < |lines| {
      ReadIs(parse, lines[n]);
      LineFacts(parse, lines[n]);
    }
    hide Readings, Read, Items, Counted, Frames, ChunksOf, Passed, Terminates, Spoils, Speaks,
         LastReport, PayloadsSent, UsageOf, Yields, Reports, Silent, Usable;
  }
}
