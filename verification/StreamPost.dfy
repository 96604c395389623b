/** The browser's side of a streamed completion: `apiStreamPost` keeps the
    unfinished last line of what it has read, parses the finished ones and fires
    callbacks. However the network cuts the text, the callbacks are those of
    parsing the whole text at once. */
module StreamPost {
  import opened Text

  /** One callback fired by `apiStreamPost`. */
  datatype Event = OnChunk(content: string) | OnDone | OnError(message: string)

  /** What `JSON.parse(data).choices?.[0]?.delta?.content` yields: `None` when the
      parse throws or the path is absent. */
  type Decode = string -> Option<string>

  /** What a request comes to before its body is read. A body ends cleanly, or it is
      aborted and the next read rejects. */
  datatype Response =
    | FetchFailed(message: string)
    | Refused(message: string)
    | NoBody
    | Body(pieces: seq<string>, aborted: bool)

  /** What one line of the body means. */
  datatype Meaning = Nothing | Delta(content: string) | Finished

  type Rule = string -> Meaning

  const DATA := "data: "
  const DONE := "[DONE]"

  function Meant(decode: Decode, line: string): Meaning {
    var trimmed := Trim(JsSpace, line);
    if !StartsWith(trimmed, DATA) then Nothing
    else
      var data := Trim(JsSpace, trimmed[|DATA|..]);
      if data == DONE then Finished
      else match decode(data)
           case None => Nothing
           case Some(content) => if content == "" then Nothing else Delta(content)
  }

  function RuleOf(decode: Decode): Rule {
    line => Meant(decode, line)
  }

  /** What a line says, white space around it or before its data aside: the terminator
      finishes, data that decodes to some content is that content, and any other data, or
      a line that is no data line, says nothing. */
  lemma {:induction false} LineMeans(decode: Decode, before: string, text: string, data: string,
        mid: string, after: string)
    requires forall c :: c in before + mid + after ==> JsSpace(c)
    requires Tight(JsSpace, text) && Tight(JsSpace, data) && data != ""
    ensures !("data: " <= text) ==> Meant(decode, before + text + after) == Nothing
    ensures text == "data: " + mid + data ==>
              Meant(decode, before + text + after)
              == if data == "[DONE]" then Finished
                 else if decode(data).None? || decode(data).value == "" then Nothing
                 else Delta(decode(data).value)
  {
    assert forall c :: c in before + after ==> c in before + mid + after;
    if text == "" {
      assert before + text + after == before + after;
      TrimSpace(JsSpace, before + after);
    } else {
      TrimPadded(JsSpace, before, text, after);
      if text == "data: " + mid + data {
        assert text[6..] == mid + data + "";
        assert forall c :: c in mid + "" ==> c in before + mid + after;
        TrimPadded(JsSpace, mid, data, "");
      }
    }
  }

  // ------------------------------------------------------------ the reference

  /** Where the first terminator line stands, or the number of lines. */
  function FirstDone(rule: Rule, lines: seq<string>): (n: nat)
    ensures n <= |lines|
    ensures n < |lines| ==> rule(lines[n]).Finished?
    ensures forall i :: 0 <= i < n ==> !rule(lines[i]).Finished?
  {
    if lines == [] || rule(lines[0]).Finished? then 0
    else 1 + FirstDone(rule, lines[1..])
  }

  function Callback(meaning: Meaning): seq<Event> {
    match meaning
    case Nothing => []
    case Delta(content) => [OnChunk(content)]
    case Finished => [OnDone]
  }

  function Chunks(rule: Rule, lines: seq<string>): seq<Event> {
    if lines == [] then [] else Callback(rule(lines[0])) + Chunks(rule, lines[1..])
  }

  /** Cut the lines at the first terminator and report what the ones before it mean;
      `onDone` follows at a terminator, and `end` when there is none. */
  function Report(rule: Rule, lines: seq<string>, end: seq<Event>): seq<Event> {
    var n := FirstDone(rule, lines);
    Chunks(rule, lines[..n]) + if n < |lines| then [OnDone] else end
  }

  /** The lines that count: an aborted body loses its unfinished last line. */
  function LinesOf(text: string, aborted: bool): seq<string> {
    if aborted then Init(Split(text)) else Split(text)
  }

  function EndOf(aborted: bool): seq<Event> {
    if aborted then [] else [OnDone]
  }

  /** The reference: the report on the whole text, split at once. */
  function Reference(decode: Decode, text: string, aborted: bool): seq<Event> {
    Report(RuleOf(decode), LinesOf(text, aborted), EndOf(aborted))
  }

  lemma {:induction false} ReportStep(rule: Rule, lines: seq<string>, end: seq<Event>)
    requires lines != []
    ensures Report(rule, lines, end)
         == Callback(rule(lines[0]))
            + if rule(lines[0]).Finished? then [] else Report(rule, lines[1..], end)
  {
    var n := FirstDone(rule, lines);
    if rule(lines[0]).Finished? {
      assert lines[..n] == [];
    } else {
      assert lines[..n][1..] == lines[1..][..n - 1];
      assert lines[..n][0] == lines[0];
    }
  }

  lemma {:induction false} ReportNothing(rule: Rule, end: seq<Event>)
    ensures Report(rule, [], end) == end
  {
    assert Chunks(rule, []) == [] && [] + end == end;
  }

  /** Chunks that carry content, then one `onDone`. */
  ghost predicate WellStreamed(trace: seq<Event>) {
    && trace != []
    && forall i :: 0 <= i < |trace| ==>
         if i == |trace| - 1 then trace[i] == OnDone
         else trace[i].OnChunk? && trace[i].content != ""
  }

  /** Chunks that carry content, and nothing else. */
  ghost predicate OnlyContent(trace: seq<Event>) {
    forall i :: 0 <= i < |trace| ==> trace[i].OnChunk? && trace[i].content != ""
  }

  /** What `accumulated += chunk` builds from the callbacks. */
  function Accumulated(trace: seq<Event>): string {
    if trace == [] then ""
    else (if trace[0].OnChunk? then trace[0].content else "") + Accumulated(trace[1..])
  }

  /** Exactly one `onDone`, and it comes last, whatever the text; an aborted body is
      done the same way if its terminator arrived, and otherwise never. */
  lemma {:induction false} DoneOnceAndLast(rule: Rule, lines: seq<string>)
    requires forall line :: rule(line).Delta? ==> rule(line).content != ""
    ensures WellStreamed(Report(rule, lines, [OnDone]))
    ensures if OnDone in Report(rule, lines, []) then WellStreamed(Report(rule, lines, []))
            else OnlyContent(Report(rule, lines, []))
  {
    OnlyChunks(rule, lines[..FirstDone(rule, lines)]);
  }

  lemma {:induction false} OnlyChunks(rule: Rule, lines: seq<string>)
    requires forall line :: rule(line).Delta? ==> rule(line).content != ""
    requires forall i :: 0 <= i < |lines| ==> !rule(lines[i]).Finished?
    ensures forall e :: e in Chunks(rule, lines) ==> e.OnChunk? && e.content != ""
  {
    if lines != [] {
      OnlyChunks(rule, lines[1..]);
    }
  }

  // -------------------------------------------------------------- the parser

  /** One finished line of the loop body; `halt` is the early return. */
  method HandleLine(decode: Decode, line: string) returns (events: seq<Event>, halt: bool)
    ensures halt <==> RuleOf(decode)(line).Finished?
    ensures halt <==> OnDone in events
    ensures events == Callback(RuleOf(decode)(line))
  {
    events, halt := [], false;
    var trimmed := Trim(JsSpace, line);
    if trimmed == "" || !StartsWith(trimmed, DATA) {
      return;
    }
    var data := Trim(JsSpace, trimmed[|DATA|..]);
    if data == DONE {
      return [OnDone], true;
    }
    match decode(data)
    case None =>
    case Some(content) =>
      if content != "" {
        events := [OnChunk(content)];
      }
  }

  lemma {:induction false} AppendEvents(a: seq<Event>, b: seq<Event>, c: seq<Event>)
    ensures (a + b) + c == a + (b + c)
    ensures OnDone in a + b <==> OnDone in a || OnDone in b
  {
  }

  /** The inner loop over the lines a read completed. */
  method HandleLines(decode: Decode, lines: seq<string>, ghost rest: seq<string>,
                     ghost end: seq<Event>)
    returns (events: seq<Event>, halt: bool)
    ensures Report(RuleOf(decode), lines + rest, end)
         == events + if halt then [] else Report(RuleOf(decode), rest, end)
    ensures halt <==> OnDone in events
  {
    hide RuleOf, Report, Callback;
    ghost var rule := RuleOf(decode);
    events, halt := [], false;
    assert lines[0..] == lines;
    for i := 0 to |lines|
      invariant !halt && OnDone !in events
      invariant Report(rule, lines + rest, end) == events + Report(rule, lines[i..] + rest, end)
    {
      ReportStep(rule, lines[i..] + rest, end);
      assert (lines[i..] + rest)[1..] == lines[i + 1..] + rest;
      var more;
      more, halt := HandleLine(decode, lines[i]);
      AppendEvents(events, more, if halt then [] else Report(rule, lines[i + 1..] + rest, end));
      events := events + more;
      if halt {
        return;
      }
    }
    assert lines[|lines|..] + rest == rest;
  }

  /** What is left in the buffer when the body ends, and the closing `onDone`. */
  method HandleLeftover(decode: Decode, buffer: string) returns (events: seq<Event>)
    requires '\n' !in buffer
    ensures events == Reference(decode, buffer, false)
  {
    SplitNoNewline(buffer);
    ReportStep(RuleOf(decode), [buffer], [OnDone]);
    ReportNothing(RuleOf(decode), [OnDone]);
    var halt;
    events, halt := HandleLine(decode, buffer);
    if !halt {
      events := events + [OnDone];
    }
  }

  /** More text in front of an unfinished line never changes the lines before it. */
  lemma {:induction false} LinesAppend(joined: string, rest: string, aborted: bool)
    ensures LinesOf(joined + rest, aborted)
         == Init(Split(joined)) + LinesOf(Last(Split(joined)) + rest, aborted)
  {
    SplitAppend(joined, rest);
    var lines, more := Init(Split(joined)), Split(Last(Split(joined)) + rest);
    assert Init(lines + more) == lines + Init(more);
  }

  /** One read: extend the buffer, handle the lines it completed, keep the rest. */
  method TakeRead(decode: Decode, buffer: string, piece: string, ghost rest: string,
                  ghost aborted: bool)
    returns (events: seq<Event>, left: string, halt: bool)
    ensures '\n' !in left
    ensures Reference(decode, (buffer + piece) + rest, aborted)
         == events + if halt then [] else Reference(decode, left + rest, aborted)
    ensures halt <==> OnDone in events
  {
    var joined := buffer + piece;
    LinesAppend(joined, rest, aborted);
    SplitJoin(joined);
    var lines := Split(joined);
    left := Last(lines);
    events, halt := HandleLines(decode, Init(lines), LinesOf(left + rest, aborted),
                                EndOf(aborted));
  }

  lemma {:induction false} AppendRead(buffer: string, pieces: seq<string>, i: nat)
    requires i < |pieces|
    ensures buffer + Concat(pieces[i..]) == (buffer + pieces[i]) + Concat(pieces[i + 1..])
  {
    assert pieces[i..][1..] == pieces[i + 1..];
  }

  /** The callbacks still owed for `whole` are those of the unread text. */
  ghost predicate Owed(decode: Decode, whole: string, aborted: bool, trace: seq<Event>,
                       unread: string) {
    Reference(decode, whole, aborted) == trace + Reference(decode, unread, aborted)
  }

  lemma {:induction false} OwedStep(whole: seq<Event>, trace: seq<Event>, owed: seq<Event>,
        events: seq<Event>, after: seq<Event>)
    requires whole == trace + owed && owed == events + after
    ensures whole == (trace + events) + after
  {
  }

  /** Nothing is owed for a line that never ended. */
  lemma {:induction false} UnfinishedIsLost(decode: Decode, buffer: string)
    requires '\n' !in buffer
    ensures Reference(decode, buffer, true) == []
  {
    SplitNoNewline(buffer);
    ReportNothing(RuleOf(decode), []);
  }

  /** The read loop. Its result does not depend on how the text was cut. An aborted
      body makes it reject, unless it returned at a terminator before. */
  method ReadBody(pieces: seq<string>, aborted: bool, decode: Decode)
    returns (trace: seq<Event>, rejected: bool)
    ensures trace == Reference(decode, Concat(pieces), aborted)
    ensures rejected <==> aborted && OnDone !in trace
  {
    ghost var whole := Concat(pieces);
    trace, rejected := [], false;
    var buffer := "";
    assert pieces[0..] == pieces && "" + whole == whole;
    for i := 0 to |pieces|
      invariant '\n' !in buffer && !rejected && OnDone !in trace
      invariant Owed(decode, whole, aborted, trace, buffer + Concat(pieces[i..]))
    {
      ghost var rest := Concat(pieces[i + 1..]);
      AppendRead(buffer, pieces, i);
      var events, left, halt := TakeRead(decode, buffer, pieces[i], rest, aborted);
      OwedStep(Reference(decode, whole, aborted), trace,
               Reference(decode, (buffer + pieces[i]) + rest, aborted),
               events, if halt then [] else Reference(decode, left + rest, aborted));
      trace := trace + events;
      buffer := left;
      if halt {
        return;
      }
    }
    assert buffer + Concat(pieces[|pieces|..]) == buffer;
    if aborted {
      UnfinishedIsLost(decode, buffer);
      rejected := true;
    } else {
      var events := HandleLeftover(decode, buffer);
      trace := trace + events;
    }
  }

  /** `apiStreamPost`: the callbacks in the order they are fired, and whether its
      promise is rejected. */
  method ApiStreamPost(response: Response, decode: Decode)
    returns (trace: seq<Event>, rejected: bool)
    ensures response.Body? ==>
              && trace == Reference(decode, Concat(response.pieces), response.aborted)
              && (rejected <==> response.aborted && OnDone !in trace)
    ensures !response.Body? ==> !rejected
    ensures response.NoBody? ==> trace == [OnError("No response stream")]
    ensures response.Refused? ==> trace == [OnError(response.message)]
    ensures response.FetchFailed? ==>
              trace == [OnError(if response.message == "" then "Streaming connection failed"
                                else response.message)]
  {
    rejected := false;
    match response
    case FetchFailed(message) =>
      trace := [OnError(if message == "" then "Streaming connection failed" else message)];
    case Refused(message) =>
      trace := [OnError(message)];
    case NoBody =>
      trace := [OnError("No response stream")];
    case Body(pieces, aborted) =>
      trace, rejected := ReadBody(pieces, aborted, decode);
  }
}
