/** What a run records and tells its callback, said of the events that happen to it: no
    theorem here speaks of the history that the steps themselves keep. */
module StreamEvents {
  import opened Text
  import opened InferenceStream
  import opened StreamRuns

  // ------------------------------------------------------------ runs of events

  lemma {:induction false} ExecuteJoin(s: System, a: seq<Event>, b: seq<Event>)
    ensures Execute(s, a + b) == Execute(Execute(s, a), b)
    decreases |a|
  {
    hide Step;
    if a == [] {
      assert a + b == b;
    } else {
      assert (a + b)[1..] == a[1..] + b;
      ExecuteJoin(Step(s, a[0]), a[1..], b);
    }
  }

  lemma {:induction false} ExecuteCons(s: System, event: Event, rest: seq<Event>)
    ensures Execute(s, [event] + rest) == Execute(Step(s, event), rest)
  {
    assert ([event] + rest)[1..] == rest;
  }

  /** An event of one run moves that run and no other. */
  lemma {:induction false} StepAt(s: System, event: Event, i: nat)
    requires i < |s.runs|
    ensures i < |Step(s, event).runs|
    ensures !event.Arrive? && event.run == i ==>
              && Step(s, event).runs[i] == Advance(s.runs[i], event, s.pool).run
              && Step(s, event).pool == Advance(s.runs[i], event, s.pool).pool
    ensures event.Arrive? || event.run != i ==> Step(s, event).runs[i] == s.runs[i]
  {
    hide Advance;
  }

  /** What is no fault while this run cleans up. */
  predicate Calm(event: Event, i: nat) {
    event.CloseFault? ==> event.run != i
  }

  ghost predicate AllCalm(events: seq<Event>, i: nat) {
    forall e :: e in events ==> Calm(e, i)
  }

  /** What is neither a fault while this run cleans up, nor the browser leaving it at the
      terminator, nor a cancellation that its callback lets through. */
  predicate Smooth(event: Event, i: nat) {
    && Calm(event, i)
    && (event.Dropped? ==> event.run != i)
    && (event.CallbackCancelled? ==> event.run != i)
  }

  ghost predicate AllSmooth(events: seq<Event>, i: nat) {
    forall e :: e in events ==> Smooth(e, i)
  }

  // --------------------------------------------------------- on the way to fail

  /** The run is going to have just this status recorded after these, and is told of a
      cancellation after these calls. */
  predicate Heading(run: Run, records: seq<Status>, calls: seq<Usage>, status: Status) {
    match run.phase
    case ClosingResponse(Raising(exn)) =>
      && run.calls == calls
      && (if exn.Surfaced? then run.records == records + [status] && Failure(status)
          else run.records == records && status == StatusAt(run.phase, exn))
    case ClosingClient(Raising(exn)) =>
      && run.calls == calls
      && (if exn.Surfaced? then run.records == records + [status] && Failure(status)
          else run.records == records && status == StatusAt(run.phase, exn))
    case InLastCallback =>
      && status == Cancelled && run.records == records + [Cancelled]
      && run.calls == calls + [NO_TOKENS] && run.hasCallback
    case Over(Failed) =>
      run.records == records + [status] && Failure(status) && run.calls == calls
    case Over(Disconnected) =>
      && status == Cancelled && run.records == records + [Cancelled]
      && run.calls == calls + if run.hasCallback then [NO_TOKENS] else []
    case _ => false
  }

  /** What an exception is recorded as: a timeout only while the client is open, a
      cancellation when the browser went away, and else an error. */
  function StatusAt(phase: Phase, exn: Exn): Status {
    if exn.Disconnect? then Cancelled
    else if exn.AsyncTimeout?
            && (phase.Opening? || phase.Streaming? || phase.ClosingResponse?) then Timeout
    else Error
  }

  /** The event is this exception, at a point where the run can meet one. */
  predicate Meets(run: Run, event: Event, exn: Exn) {
    match run.phase
    case Preparing => event.Fault? && event.exn == exn && exn != Surfaced
    case Opening => event.Fault? && event.exn == exn && exn != Surfaced
    case Streaming => event.Fault? && event.exn == exn && exn != Surfaced
    case ClosingResponse(_) => event.CloseFault? && event.exn == exn && exn != Surfaced
    case ClosingClient(_) => event.CloseFault? && event.exn == exn && exn != Surfaced
    case Ending => event.Dropped? && exn == Disconnect
    case InCallback => event.CallbackCancelled? && exn == Disconnect
    case _ => false
  }

  lemma {:induction false} HeadingStays(run: Run, records: seq<Status>, calls: seq<Usage>,
        status: Status, event: Event, pool: Pool, i: nat)
    requires Heading(run, records, calls, status)
    requires !event.Arrive? && event.run == i && Calm(event, i)
    ensures Heading(Advance(run, event, pool).run, records, calls, status)
    ensures Advance(run, event, pool).run.hasCallback == run.hasCallback
  {
    if run.phase.ClosingClient? {
      AdvanceClosed(run, event, pool);
      hide Advance;
    } else {
      hide LoopFails, CountsOf, Recordable;
    }
  }

  lemma {:induction false} HeadingLasts(s: System, events: seq<Event>, i: nat,
        records: seq<Status>, calls: seq<Usage>, status: Status)
    requires i < |s.runs| && Heading(s.runs[i], records, calls, status) && AllCalm(events, i)
    ensures var t := Execute(s, events);
            && i < |t.runs| && Heading(t.runs[i], records, calls, status)
            && t.runs[i].hasCallback == s.runs[i].hasCallback
    decreases |events|
  {
    hide Step, Heading, Calm, Advance;
    if events != [] {
      assert Calm(events[0], i);
      StepAt(s, events[0], i);
      if !events[0].Arrive? && events[0].run == i {
        HeadingStays(s.runs[i], records, calls, status, events[0], s.pool, i);
      }
      HeadingLasts(Step(s, events[0]), events[1..], i, records, calls, status);
    }
  }

  // ------------------------------------------------------ on the way to succeed

  /** The run is going to be recorded as a success with these counts. */
  predicate Finishing(run: Run, counts: Usage) {
    && (match run.phase
        case ClosingResponse(Quiet) => run.records == [] && run.calls == []
        case ClosingClient(Quiet) => run.records == [] && run.calls == []
        case Ending => run.records == [] && run.calls == []
        case InCallback =>
          run.records == [Success] && run.calls == [counts] && Recordable(counts) && run.hasCallback
        case Over(Succeeded) =>
          && run.records == [Success] && Recordable(counts)
          && run.calls == if run.hasCallback then [counts] else []
        case Over(Failed) =>
          run.records == [Success, Error] && !Recordable(counts) && run.calls == []
        case _ => false)
    && run.counts == counts
  }

  lemma {:induction false} FinishingStays(run: Run, counts: Usage, event: Event, pool: Pool,
        i: nat)
    requires Finishing(run, counts) && !event.Arrive? && event.run == i && Smooth(event, i)
    ensures Finishing(Advance(run, event, pool).run, counts)
    ensures Advance(run, event, pool).run.hasCallback == run.hasCallback
  {
    hide Recordable;
    if run.phase.ClosingClient? {
      AdvanceClosed(run, event, pool);
      hide Advance;
    } else {
      hide LoopFails, CountsOf;
    }
  }

  lemma {:induction false} FinishingLasts(s: System, events: seq<Event>, i: nat, counts: Usage)
    requires i < |s.runs| && Finishing(s.runs[i], counts) && AllSmooth(events, i)
    ensures var t := Execute(s, events);
            && i < |t.runs| && Finishing(t.runs[i], counts)
            && t.runs[i].hasCallback == s.runs[i].hasCallback
    decreases |events|
  {
    hide Step, Finishing, Smooth, Advance;
    if events != [] {
      assert Smooth(events[0], i);
      StepAt(s, events[0], i);
      if !events[0].Arrive? && events[0].run == i {
        FinishingStays(s.runs[i], counts, events[0], s.pool, i);
      }
      FinishingLasts(Step(s, events[0]), events[1..], i, counts);
    }
  }

  // ---------------------------------------------------------------- theorems

  /** The run at `i`, after these events from the start. */
  ghost predicate At(maximum: nat, events: seq<Event>, i: nat, run: Run) {
    var s := Execute(Boot(maximum), events);
    i < |s.runs| && s.runs[i] == run
  }

  /** Up to here nothing was recorded or told. */
  lemma {:induction false} NothingYet(maximum: nat, events: seq<Event>, i: nat, run: Run)
    requires At(maximum, events, i, run)
    ensures run.phase.Preparing? || run.phase.Opening? || run.phase.Streaming?
            || run.phase.Ending? || run.phase == ClosingResponse(Quiet) ==>
              run.records == [] && run.calls == []
  {
    hide Step, CountsOf, LoopFails, Recordable;
    ExecuteKeeps(Boot(maximum), events, maximum);
    assert StreamRuns.Good(run);
  }

  lemma {:induction false} AfterEvent(maximum: nat, before: seq<Event>, event: Event,
        later: seq<Event>, i: nat, run: Run)
    requires At(maximum, before, i, run) && !event.Arrive? && event.run == i
    ensures var s := Execute(Boot(maximum), before);
            && i < |Step(s, event).runs|
            && Step(s, event).runs[i] == Advance(run, event, s.pool).run
            && Execute(Boot(maximum), before + ([event] + later))
               == Execute(Step(s, event), later)
  {
    hide Advance;
    var s := Execute(Boot(maximum), before);
    ExecuteJoin(Boot(maximum), before, [event] + later);
    ExecuteCons(s, event, later);
    StepAt(s, event, i);
  }

  /** A run meets an exception, whatever happened to it before, and nothing disturbs it
      afterwards: once it is over just that was recorded after what it had on record. Its
      callback is told of a cancellation alone, without tokens. A run that was not yet
      cleaning up, or answering, had nothing on record. */
  lemma {:induction false} FaultIsTold(maximum: nat, before: seq<Event>, i: nat, run: Run,
        event: Event, exn: Exn, later: seq<Event>, end: Run)
    requires At(maximum, before, i, run) && !event.Arrive? && event.run == i
    requires Meets(run, event, exn) && AllCalm(later, i)
    requires At(maximum, before + ([event] + later), i, end) && end.phase.Over?
    ensures end.records
            == run.records + [if exn.Disconnect? then Cancelled
                              else if exn.AsyncTimeout? && !run.phase.Preparing?
                                      && !run.phase.ClosingClient? then Timeout
                              else Error]
    ensures end.calls
            == run.calls + if exn.Disconnect? && run.hasCallback then [NO_TOKENS] else []
    ensures end.phase == Over(if exn.Disconnect? then Disconnected else Failed)
    ensures run.phase.Preparing? || run.phase.Opening? || run.phase.Streaming?
            || run.phase.Ending? || run.phase == ClosingResponse(Quiet) ==>
              run.records == [] && run.calls == []
  {
    var status := StatusAt(run.phase, exn);
    var s := Execute(Boot(maximum), before);
    NothingYet(maximum, before, i, run);
    AfterEvent(maximum, before, event, later, i, run);
    FaultHeads(run, event, exn, s.pool);
    HeadingLasts(Step(s, event), later, i, run.records, run.calls, status);
    hide Step, Execute, Advance;
  }

  lemma {:induction false} FaultHeads(run: Run, event: Event, exn: Exn, pool: Pool)
    requires Meets(run, event, exn)
    ensures Heading(Advance(run, event, pool).run, run.records, run.calls,
                    StatusAt(run.phase, exn))
    ensures Advance(run, event, pool).run.hasCallback == run.hasCallback
  {
    hide LoopFails, CountsOf, Recordable;
    if run.phase.ClosingClient? {
      AdvanceClosed(run, event, pool);
      hide Advance;
    }
  }

  /** A status other than 200 is recorded as an error, and so is a reply that leaves the
      reading loop by an exception; the callback is never called. */
  lemma {:induction false} BadReplyIsTold(maximum: nat, before: seq<Event>, i: nat, run: Run,
        event: Event, later: seq<Event>, end: Run)
    requires At(maximum, before, i, run) && AllCalm(later, i)
    requires || (run.phase.Opening? && event == Replied(i, false))
             || (run.phase.Streaming? && event.LinesEnd? && event.run == i
                 && LoopFails(event.upstream))
    requires At(maximum, before + ([event] + later), i, end) && end.phase.Over?
    ensures end.records == [Error] && end.calls == [] && end.phase == Over(Failed)
  {
    var s := Execute(Boot(maximum), before);
    NothingYet(maximum, before, i, run);
    AfterEvent(maximum, before, event, later, i, run);
    BadReplyHeads(run, event, s.pool);
    HeadingLasts(Step(s, event), later, i, [], [], Error);
    hide Step, Execute, Advance;
  }

  lemma {:induction false} BadReplyHeads(run: Run, event: Event, pool: Pool)
    requires run.records == [] && run.calls == []
    requires || (run.phase.Opening? && event.Replied? && !event.ok)
             || (run.phase.Streaming? && event.LinesEnd? && LoopFails(event.upstream))
    ensures Heading(Advance(run, event, pool).run, [], [], Error)
  {
    hide LoopFails, CountsOf, Recordable;
  }

  /** A reply read to its end is recorded as a success, and its callback gets exactly the
      counts of what the engine sent; counts that are refused add an error instead. */
  lemma {:induction false} ReplyIsTold(maximum: nat, before: seq<Event>, i: nat, run: Run,
        upstream: Upstream, later: seq<Event>, end: Run)
    requires At(maximum, before, i, run) && AllSmooth(later, i)
    requires run.phase.Streaming? && !LoopFails(upstream)
    requires At(maximum, before + ([LinesEnd(i, upstream)] + later), i, end) && end.phase.Over?
    ensures end.records == if Recordable(CountsOf(upstream)) then [Success] else [Success, Error]
    ensures end.calls == if Recordable(CountsOf(upstream)) && run.hasCallback
                         then [CountsOf(upstream)] else []
  {
    var s := Execute(Boot(maximum), before);
    NothingYet(maximum, before, i, run);
    AfterEvent(maximum, before, LinesEnd(i, upstream), later, i, run);
    ReplyFinishes(run, LinesEnd(i, upstream), s.pool);
    FinishingLasts(Step(s, LinesEnd(i, upstream)), later, i, CountsOf(upstream));
    hide Step, Execute, Advance, CountsOf, LoopFails, Recordable;
  }

  lemma {:induction false} ReplyFinishes(run: Run, event: Event, pool: Pool)
    requires run.records == [] && run.calls == [] && run.phase.Streaming?
    requires event.LinesEnd? && !LoopFails(event.upstream)
    ensures Finishing(Advance(run, event, pool).run, CountsOf(event.upstream))
  {
    hide LoopFails, CountsOf, Recordable;
  }

  // ---------------------------------------------------- the loops and their runs

  /** What the reading loop returned decides what its run records and tells. */
  ghost predicate ToldAs(run: Run, counts: Usage, failed: bool) {
    && run.records == (if failed then [Error]
                       else if Recordable(counts) then [Success]
                       else [Success, Error])
    && run.calls == (if !failed && Recordable(counts) && run.hasCallback then [counts] else [])
  }

  /** Run `i` streams what the engine sends, this, and is over smoothly. */
  ghost predicate Streams(maximum: nat, before: seq<Event>, i: nat, upstream: Upstream,
                          later: seq<Event>) {
    var s := Execute(Boot(maximum), before);
    var t := Execute(Boot(maximum), before + ([LinesEnd(i, upstream)] + later));
    && i < |s.runs| && s.runs[i].phase.Streaming? && AllSmooth(later, i)
    && i < |t.runs| && t.runs[i].phase.Over?
  }

  function EndOf(maximum: nat, before: seq<Event>, i: nat, upstream: Upstream,
                 later: seq<Event>): Run
    requires i < |Execute(Boot(maximum), before + ([LinesEnd(i, upstream)] + later)).runs|
  {
    Execute(Boot(maximum), before + ([LinesEnd(i, upstream)] + later)).runs[i]
  }

  lemma {:induction false} SmoothIsCalm(events: seq<Event>, i: nat)
    requires AllSmooth(events, i)
    ensures AllCalm(events, i)
  {
    forall e | e in events ensures Calm(e, i) {
      assert Smooth(e, i);
    }
  }

  lemma {:induction false} StreamIsTold(maximum: nat, before: seq<Event>, i: nat,
        upstream: Upstream, later: seq<Event>)
    requires Streams(maximum, before, i, upstream, later)
    ensures ToldAs(EndOf(maximum, before, i, upstream, later), CountsOf(upstream),
                   LoopFails(upstream))
  {
    SmoothIsCalm(later, i);
    hide CountsOf, LoopFails, Recordable, Execute, AllSmooth, AllCalm;
    var run := Execute(Boot(maximum), before).runs[i];
    var end := EndOf(maximum, before, i, upstream, later);
    if LoopFails(upstream) {
      BadReplyIsTold(maximum, before, i, run, LinesEnd(i, upstream), later, end);
    } else {
      SameCallback(maximum, before, i, LinesEnd(i, upstream), later);
      ReplyIsTold(maximum, before, i, run, upstream, later, end);
    }
  }

  lemma {:induction false} AdvanceSameCallback(run: Run, event: Event, pool: Pool)
    ensures Advance(run, event, pool).run.hasCallback == run.hasCallback
  {
    hide LoopFails, CountsOf, Recordable;
  }

  lemma {:induction false} ExecuteSameCallback(s: System, events: seq<Event>, i: nat)
    requires i < |s.runs|
    ensures i < |Execute(s, events).runs|
    ensures Execute(s, events).runs[i].hasCallback == s.runs[i].hasCallback
    decreases |events|
  {
    hide Step, Advance;
    if events != [] {
      StepAt(s, events[0], i);
      AdvanceSameCallback(s.runs[i], events[0], s.pool);
      ExecuteSameCallback(Step(s, events[0]), events[1..], i);
    }
  }

  lemma {:induction false} SameCallback(maximum: nat, before: seq<Event>, i: nat, event: Event,
        later: seq<Event>)
    requires i < |Execute(Boot(maximum), before).runs|
    ensures var t := Execute(Boot(maximum), before + ([event] + later));
            && i < |t.runs|
            && t.runs[i].hasCallback == Execute(Boot(maximum), before).runs[i].hasCallback
  {
    ExecuteJoin(Boot(maximum), before, [event] + later);
    ExecuteSameCallback(Execute(Boot(maximum), before), [event] + later, i);
  }

  /** The counts passed to the callback are those the loop computes from the lines of the
      engine, and what the loop fails on is recorded as an error. */
  method OllamaIsTold(ghost maximum: nat, ghost before: seq<Event>, ghost i: nat,
                      lines: seq<OllamaLine>, ghost later: seq<Event>, encode: Encode)
    returns (frames: seq<string>, counts: Usage, failed: bool)
    requires Streams(maximum, before, i, FromOllama(lines), later)
    ensures frames == Frames(encode, Relayed(Consumed(lines)))
    ensures !failed ==> ToldAs(EndOf(maximum, before, i, FromOllama(lines), later), counts, false)
    ensures failed ==> ToldAs(EndOf(maximum, before, i, FromOllama(lines), later), NO_TOKENS, true)
  {
    hide Execute, Recordable, Frames;
    frames, counts, failed := RelayOllama(lines, encode);
    StreamIsTold(maximum, before, i, FromOllama(lines), later);
  }

  method OpenAiIsTold(ghost maximum: nat, ghost before: seq<Event>, ghost i: nat,
                      lines: seq<string>, parse: Parse, ghost later: seq<Event>, encode: Encode)
    returns (frames: seq<string>, counts: Usage, failed: bool)
    requires Streams(maximum, before, i, FromOpenAi(Readings(parse, lines)), later)
    ensures frames == Frames(encode, ChunksOf(Served(Readings(parse, lines))))
    ensures var end := EndOf(maximum, before, i, FromOpenAi(Readings(parse, lines)), later);
            ToldAs(end, if failed then NO_TOKENS else counts, failed)
  {
    hide Execute, Recordable, Frames, Served, Breaks, Readings, Counted;
    frames, counts, failed := RelayOpenAi(lines, parse, encode);
    StreamIsTold(maximum, before, i, FromOpenAi(Readings(parse, lines)), later);
  }

  // ------------------------------------------------- runs start, go on and end

  /** Whether it has a callback is a run's own from its arrival. */
  lemma {:induction false} ArrivesFresh(maximum: nat, before: seq<Event>, hasCallback: bool)
    ensures var i := |Execute(Boot(maximum), before).runs|;
            var t := Execute(Boot(maximum), before + ([Arrive(hasCallback)] + []));
            && |t.runs| == i + 1 && t.runs[i].phase.Fresh?
            && t.runs[i].hasCallback == hasCallback
            && t.runs[i].records == [] && t.runs[i].calls == []
  {
    ExecuteJoin(Boot(maximum), before, [Arrive(hasCallback)] + []);
    ExecuteCons(Execute(Boot(maximum), before), Arrive(hasCallback), []);
  }

  /** A run is refused just when as many hold a slot as there are; else it is admitted. */
  lemma {:induction false} AdmittedUnlessFull(maximum: nat, before: seq<Event>, i: nat, run: Run)
    requires At(maximum, before, i, run) && run.phase.Fresh?
    ensures var full := Holders(Execute(Boot(maximum), before).runs) == maximum;
            && At(maximum, before + ([Begin(i)] + []), i,
                  if full then run.(phase := Over(Refused))
                  else run.(phase := Preparing, acquired := run.acquired + 1))
            && At(maximum, before + ([BeginPlain(i)] + []), i,
                  if full then run.(phase := Over(Refused))
                  else run.(phase := Plain, acquired := run.acquired + 1))
  {
    var s := Execute(Boot(maximum), before);
    SlotSafety(maximum, before);
    AfterEvent(maximum, before, Begin(i), [], i, run);
    AfterEvent(maximum, before, BeginPlain(i), [], i, run);
    hide Step, StreamRuns.Good, Holders;
  }

  /** An admitted run reaches the engine, and its reply. */
  lemma {:induction false} AdmittedGoesOn(maximum: nat, before: seq<Event>, i: nat, run: Run)
    requires At(maximum, before, i, run)
    ensures run.phase.Preparing? ==>
              At(maximum, before + ([ClientReady(i)] + []), i, run.(phase := Opening))
    ensures run.phase.Opening? ==>
              At(maximum, before + ([Replied(i, true)] + []), i, run.(phase := Streaming))
    ensures run.phase.Plain? ==>
              At(maximum, before + ([EndPlain(i)] + []), i,
                 run.(phase := Over(PlainDone), released := run.released + 1))
  {
    AfterEvent(maximum, before, ClientReady(i), [], i, run);
    AfterEvent(maximum, before, Replied(i, true), [], i, run);
    AfterEvent(maximum, before, EndPlain(i), [], i, run);
    hide Step, Execute;
  }

  /** A run alone among events: the slots do not matter once it is admitted. */
  lemma {:induction false} FourSteps(s: System, i: nat, a: Event, b: Event, c: Event, d: Event)
    requires i < |s.runs| && !a.Arrive? && !b.Arrive? && !c.Arrive? && !d.Arrive?
    requires a.run == b.run == c.run == d.run == i
    ensures var s1 := Step(s, a); var s2 := Step(s1, b); var s3 := Step(s2, c);
            && i < |s1.runs| && i < |s2.runs| && i < |s3.runs|
            && s1.runs[i] == Advance(s.runs[i], a, s.pool).run
            && s2.runs[i] == Advance(s1.runs[i], b, s1.pool).run
            && s3.runs[i] == Advance(s2.runs[i], c, s2.pool).run
            && i < |Execute(s, [a] + ([b] + ([c] + ([d] + [])))).runs|
            && Execute(s, [a] + ([b] + ([c] + ([d] + [])))).runs[i]
               == Advance(s3.runs[i], d, s3.pool).run
  {
    var s1 := Step(s, a);
    var s2 := Step(s1, b);
    var s3 := Step(s2, c);
    ExecuteCons(s, a, [b] + ([c] + ([d] + [])));
    ExecuteCons(s1, b, [c] + ([d] + []));
    ExecuteCons(s2, c, [d] + []);
    ExecuteCons(s3, d, []);
    StepAt(s, a, i);
    StepAt(s1, b, i);
    StepAt(s2, c, i);
    StepAt(s3, d, i);
    hide Step, Advance;
  }

  lemma {:induction false} ClosedHeads(run: Run, records: seq<Status>, calls: seq<Usage>,
        status: Status, pool: Pool, i: nat)
    requires Heading(run, records, calls, status)
    ensures var next := Advance(run, Closed(i), pool).run;
            Heading(next, records, calls, status)
            && (run.phase.ClosingResponse? ==> next.phase.ClosingClient?)
            && (run.phase.ClosingClient? ==> next.phase.InLastCallback? || next.phase.Over?)
            && (run.phase.InLastCallback? || run.phase.Over? ==> next == run)
    ensures run.phase.InLastCallback? || run.phase.Over? ==>
              Advance(run, CallbackEnds(i), pool).run.phase.Over?
  {
    HeadingStays(run, records, calls, status, Closed(i), pool, i);
    if run.phase.ClosingClient? {
      AdvanceClosed(run, Closed(i), pool);
      hide Advance;
    } else {
      hide LoopFails, CountsOf, Recordable;
    }
  }

  /** Closing what was opened, and the callback if it is called, ends a run that met an
      exception. */
  lemma {:induction false} FaultedRunEnds(maximum: nat, before: seq<Event>, i: nat, run: Run,
        event: Event, exn: Exn)
    requires At(maximum, before, i, run) && !event.Arrive? && event.run == i
    requires Meets(run, event, exn)
    ensures var events := [event] + ([Closed(i)] + ([Closed(i)] + ([CallbackEnds(i)] + [])));
            && i < |Execute(Boot(maximum), before + events).runs|
            && Execute(Boot(maximum), before + events).runs[i].phase.Over?
  {
    var s := Execute(Boot(maximum), before);
    var status := StatusAt(run.phase, exn);
    var events := [event] + ([Closed(i)] + ([Closed(i)] + ([CallbackEnds(i)] + [])));
    ExecuteJoin(Boot(maximum), before, events);
    FourSteps(s, i, event, Closed(i), Closed(i), CallbackEnds(i));
    FaultHeads(run, event, exn, s.pool);
    hide Execute, Advance, Step;
    var s1 := Step(s, event);
    var s2 := Step(s1, Closed(i));
    var s3 := Step(s2, Closed(i));
    ClosedHeads(s1.runs[i], run.records, run.calls, status, s1.pool, i);
    ClosedHeads(s2.runs[i], run.records, run.calls, status, s2.pool, i);
    ClosedHeads(s3.runs[i], run.records, run.calls, status, s3.pool, i);
    assert s3.runs[i].phase.InLastCallback? || s3.runs[i].phase.Over?;
  }

  /** And closing, the terminator and the callback end a run that was read to its end. */
  lemma {:induction false} FinishedRunEnds(maximum: nat, before: seq<Event>, i: nat, run: Run)
    requires At(maximum, before, i, run)
    ensures run.phase == ClosingResponse(Quiet) ==>
              At(maximum, before + ([Closed(i)] + []), i, run.(phase := ClosingClient(Quiet)))
    ensures run.phase == ClosingClient(Quiet) ==>
              At(maximum, before + ([Closed(i)] + []), i,
                 run.(phase := Ending, released := run.released + 1))
    ensures run.phase.Ending? && run.hasCallback && Recordable(run.counts) ==>
              At(maximum, before + ([Resumed(i)] + []), i,
                 run.(phase := InCallback, records := run.records + [Success],
                      calls := run.calls + [run.counts]))
    ensures run.phase.Ending? && !(run.hasCallback && Recordable(run.counts)) ==>
              exists end :: At(maximum, before + ([Resumed(i)] + []), i, end) && end.phase.Over?
    ensures run.phase.InCallback? ==>
              At(maximum, before + ([CallbackEnds(i)] + []), i, run.(phase := Over(Succeeded)))
  {
    var s := Execute(Boot(maximum), before);
    AfterEvent(maximum, before, Closed(i), [], i, run);
    AfterEvent(maximum, before, Resumed(i), [], i, run);
    AfterEvent(maximum, before, CallbackEnds(i), [], i, run);
    if run.phase.Ending? {
      assert At(maximum, before + ([Resumed(i)] + []), i, Advance(run, Resumed(i), s.pool).run);
    }
    hide Step, Execute, Recordable;
  }
}
