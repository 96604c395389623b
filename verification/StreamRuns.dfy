/** Many streamed completions sharing the inference slots. Each run moves from one
    suspension point to the next; the environment chooses which run moves and what
    happens to it: replies, faults, disconnects, and faults while cleaning up. */
module StreamRuns {
  import opened Text
  import opened InferenceStream

  // --------------------------------------------------------------- the slots

  /** The semaphore's value and the module's counter of active inferences. */
  datatype Pool = Pool(permits: int, active: int)

  function Acquire(pool: Pool): Pool {
    Pool(pool.permits - 1, pool.active + 1)
  }

  function Release(pool: Pool): Pool {
    Pool(pool.permits + 1, pool.active - 1)
  }

  /** `sem.locked()`, as nobody ever waits. */
  predicate Locked(pool: Pool) {
    pool.permits == 0
  }

  /** The module globals behind `_inference_slot`. */
  class InferenceSlots {
    const maximum: nat
    var permits: nat
    var active: int

    ghost predicate Valid()
      reads this
    {
      permits + active == maximum && 0 <= active
    }

    ghost function Pooled(): Pool
      reads this
    {
      Pool(permits, active)
    }

    constructor (maximum: nat)
      ensures Valid() && this.maximum == maximum && Pooled() == Pool(maximum, 0)
    {
      this.maximum := maximum;
      permits := maximum;
      active := 0;
    }

    /** Entering the context: refused when locked, otherwise a permit at once. */
    method Enter() returns (admitted: bool)
      requires Valid()
      modifies this
      ensures Valid()
      ensures admitted <==> !old(Locked(Pooled()))
      ensures Pooled() == if admitted then Acquire(old(Pooled())) else old(Pooled())
    {
      if permits == 0 {
        return false;
      }
      permits := permits - 1;
      active := active + 1;
      admitted := true;
    }

    /** Leaving it, on whatever path. */
    method Leave()
      requires Valid() && active > 0
      modifies this
      ensures Valid()
      ensures Pooled() == Release(old(Pooled()))
    {
      active := active - 1;
      permits := permits + 1;
    }

    /** One turn of the loop that drains the server at shutdown. */
    method DrainEnds() returns (ends: bool)
      requires Valid()
      ensures ends <==> Pooled() == Pool(maximum, 0)
    {
      ends := active == 0;
    }
  }

  // ------------------------------------------------------------------ a run

  datatype Status = Success | Timeout | Error | Cancelled

  /** The kinds of exception the handlers tell apart. `Disconnect` is GeneratorExit
      or CancelledError; `Surfaced` is an error the service raised itself, which it
      has already recorded. */
  datatype Exn = AsyncTimeout | ConnectFailed | Disconnect | Surfaced | Other

  datatype Pending = Quiet | Raising(exn: Exn)

  datatype Outcome = Refused | Succeeded | Failed | Disconnected | PlainDone

  /** `Preparing` is between taking the slot and entering the client's context. */
  datatype Phase =
    | Fresh
    | Waiting
    | Plain
    | Preparing
    | Opening
    | Streaming
    | ClosingResponse(pending: Pending)
    | ClosingClient(pending: Pending)
    | Ending
    | InCallback
    | InLastCallback
    | Over(outcome: Outcome)

  /** What the engine sent until the reading loop ended by itself. */
  datatype Upstream =
    | FromOllama(lines: seq<OllamaLine>)
    | FromOpenAi(readings: seq<Reading>)

  /** The loop is left by an exception, and else what it counted. */
  predicate LoopFails(upstream: Upstream) {
    match upstream
    case FromOllama(lines) => Fails(lines)
    case FromOpenAi(readings) => Breaks(readings)
  }

  function CountsOf(upstream: Upstream): Usage {
    match upstream
    case FromOllama(lines) => OllamaCounts(lines)
    case FromOpenAi(readings) => Counted(Served(readings))
  }

  /** The first thing that went wrong with a run: before its client was there, a bad
      status, an exception while talking to the engine, or the browser going away at
      the terminator. */
  datatype Cause = Unprepared(exn: Exn) | BadStatus | Faulted(exn: Exn) | GoneAtEnd

  /** `counts` are those of the reading loop once it ended; `acquired` and `released`
      count permits. The other fields are history: the first cause, the faults while
      cleaning up, those of them that replaced an error already recorded, the success
      records that raised, and the cancellations a callback let through. */
  datatype Run = Run(
    phase: Phase,
    hasCallback: bool,
    counts: Usage,
    records: seq<Status>,
    calls: seq<Usage>,
    acquired: nat,
    released: nat,
    upstream: Option<Upstream>,
    cause: Option<Cause>,
    disturbed: nat,
    interrupted: nat,
    spoiled: nat,
    escaped: nat)

  function Arrived(hasCallback: bool): Run {
    Run(Fresh, hasCallback, NO_TOKENS, [], [], 0, 0, None, None, 0, 0, 0, 0)
  }

  datatype Event =
    | Arrive(hasCallback: bool)
    | Begin(run: nat)
    | BeginPlain(run: nat)
    | EndPlain(run: nat)
    | ClientReady(run: nat)
    | Replied(run: nat, ok: bool)
    | Fault(run: nat, exn: Exn)
    | LinesEnd(run: nat, upstream: Upstream)
    | Closed(run: nat)
    | CloseFault(run: nat, exn: Exn)
    | Resumed(run: nat)
    | Dropped(run: nat)
    | CallbackEnds(run: nat)
    | CallbackCancelled(run: nat)

  function Record(run: Run, status: Status): Run {
    run.(records := run.records + [status])
  }

  /** A run and the slots after a step. */
  datatype Moved = Moved(run: Run, pool: Pool)

  /** The handlers inside the client's context. */
  function Inner(run: Run, pending: Pending): Run {
    match pending
    case Raising(AsyncTimeout) =>
      Record(run, Timeout).(phase := ClosingClient(Raising(Surfaced)))
    case Raising(ConnectFailed) =>
      Record(run, Error).(phase := ClosingClient(Raising(Surfaced)))
    case _ => run.(phase := ClosingClient(pending))
  }

  /** The handlers around the whole body. */
  function Outer(run: Run, pending: Pending): Run {
    match pending
    case Quiet => run.(phase := Ending)
    case Raising(Disconnect) =>
      var gone := Record(run, Cancelled);
      if run.hasCallback then gone.(calls := run.calls + [NO_TOKENS], phase := InLastCallback)
      else gone.(phase := Over(Disconnected))
    case Raising(Surfaced) => run.(phase := Over(Failed))
    case Raising(_) => Record(run, Error).(phase := Over(Failed))
  }

  /** `if sem.locked(): raise`, then `await sem.acquire()`, with nothing in between;
      acquiring waits when no permit is left. */
  function Admit(run: Run, pool: Pool, admitted: Phase): Moved {
    if Locked(pool) then Moved(run.(phase := Over(Refused)), pool)
    else if pool.permits > 0 then
      Moved(run.(phase := admitted, acquired := run.acquired + 1), Acquire(pool))
    else Moved(run.(phase := Waiting), pool)
  }

  function Freed(run: Run): Run {
    run.(released := run.released + 1)
  }

  /** The `finally` of the slot, and then whatever handles what is pending. */
  function LeaveSlot(run: Run, pending: Pending, pool: Pool): Moved {
    Moved(Outer(Freed(run), pending), Release(pool))
  }

  /** A fault while closing takes the place of whatever was pending. */
  function Interrupt(run: Run, pending: Pending): Run {
    var hit := run.(disturbed := run.disturbed + 1);
    if pending == Raising(Surfaced) then hit.(interrupted := run.interrupted + 1) else hit
  }

  /** After the terminator: the success is recorded, its token counters raise on counts
      they do not accept, and otherwise the callback gets the counts. */
  function Conclude(run: Run): Run {
    var done := Record(run, Success);
    if !Recordable(run.counts) then
      Record(done, Error).(phase := Over(Failed), spoiled := run.spoiled + 1)
    else if run.hasCallback then done.(calls := run.calls + [run.counts], phase := InCallback)
    else done.(phase := Over(Succeeded))
  }

  /** One step of one run; an event that does not fit its phase does nothing. */
  function Advance(run: Run, event: Event, pool: Pool): Moved {
    match (run.phase, event)
    case (Fresh, Begin(_)) => Admit(run, pool, Preparing)
    case (Fresh, BeginPlain(_)) => Admit(run, pool, Plain)
    case (Plain, EndPlain(_)) =>
      Moved(Freed(run).(phase := Over(PlainDone)), Release(pool))
    case (Preparing, ClientReady(_)) => Moved(run.(phase := Opening), pool)
    case (Preparing, Fault(_, exn)) =>
      if exn.Surfaced? then Moved(run, pool)
      else LeaveSlot(run.(cause := Some(Unprepared(exn))), Raising(exn), pool)
    case (ClosingClient(pending), Closed(_)) => LeaveSlot(run, pending, pool)
    case (ClosingClient(pending), CloseFault(_, exn)) =>
      if exn.Surfaced? then Moved(run, pool)
      else LeaveSlot(Interrupt(run, pending), Raising(exn), pool)
    case _ => Moved(Proceed(run, event), pool)
  }

  /** The steps that leave the slots alone. */
  function Proceed(run: Run, event: Event): Run {
    match (run.phase, event)
    case (Opening, Replied(_, ok)) =>
      if ok then run.(phase := Streaming)
      else Record(run, Error).(phase := ClosingResponse(Raising(Surfaced)),
                               cause := Some(BadStatus))
    case (Opening, Fault(_, exn)) =>
      if exn.Surfaced? then run else Inner(run.(cause := Some(Faulted(exn))), Raising(exn))
    case (Streaming, Fault(_, exn)) =>
      if exn.Surfaced? then run
      else run.(phase := ClosingResponse(Raising(exn)), cause := Some(Faulted(exn)))
    case (Streaming, LinesEnd(_, upstream)) =>
      if LoopFails(upstream) then
        run.(phase := ClosingResponse(Raising(Other)), cause := Some(Faulted(Other)))
      else
        run.(phase := ClosingResponse(Quiet), counts := CountsOf(upstream),
             upstream := Some(upstream))
    case (ClosingResponse(pending), Closed(_)) => Inner(run, pending)
    case (ClosingResponse(pending), CloseFault(_, exn)) =>
      if exn.Surfaced? then run else Inner(Interrupt(run, pending), Raising(exn))
    case (Ending, Resumed(_)) => Conclude(run)
    case (Ending, Dropped(_)) => Outer(run.(cause := Some(GoneAtEnd)), Raising(Disconnect))
    case (InCallback, CallbackEnds(_)) => run.(phase := Over(Succeeded))
    case (InCallback, CallbackCancelled(_)) =>
      Outer(run.(escaped := run.escaped + 1), Raising(Disconnect))
    case (InLastCallback, CallbackEnds(_)) => run.(phase := Over(Disconnected))
    case (InLastCallback, CallbackCancelled(_)) => run.(phase := Over(Disconnected))
    case _ => run
  }

  // -------------------------------------------------------------- the system

  datatype System = System(pool: Pool, runs: seq<Run>)

  function Boot(maximum: nat): System {
    System(Pool(maximum, 0), [])
  }

  function Step(s: System, event: Event): System {
    if event.Arrive? then s.(runs := s.runs + [Arrived(event.hasCallback)])
    else if event.run >= |s.runs| then s
    else
      var moved := Advance(s.runs[event.run], event, s.pool);
      System(moved.pool, s.runs[event.run := moved.run])
  }

  function Execute(s: System, events: seq<Event>): System
    decreases |events|
  {
    if events == [] then s else Execute(Step(s, events[0]), events[1..])
  }

  // --------------------------------------------------------- books of one run

  predicate Holds(phase: Phase) {
    phase.Plain? || phase.Preparing? || phase.Opening? || phase.Streaming?
    || phase.ClosingResponse? || phase.ClosingClient?
  }

  /** The run never took a permit. */
  predicate Outside(phase: Phase) {
    phase.Fresh? || phase.Waiting? || phase == Over(Refused)
  }

  function One(b: bool): nat {
    if b then 1 else 0
  }

  /** A permit is taken once by every run that was admitted, and given back once by the
      time it no longer holds a slot. */
  predicate Permitted(run: Run) {
    && !run.phase.Waiting?
    && run.acquired == One(!Outside(run.phase))
    && run.released == One(!Outside(run.phase) && !Holds(run.phase))
  }

  /** Whether the run, in this phase, has recorded how it went. */
  predicate Settled(phase: Phase) {
    match phase
    case ClosingResponse(pending) => pending == Raising(Surfaced)
    case ClosingClient(pending) => pending == Raising(Surfaced)
    case InCallback => true
    case InLastCallback => true
    case Over(outcome) => !outcome.Refused? && !outcome.PlainDone?
    case _ => false
  }

  predicate Called(phase: Phase) {
    || phase.InCallback? || phase.InLastCallback?
    || phase == Over(Succeeded) || phase == Over(Disconnected)
  }

  /** A record once settled, and one more for each interruption, each success record
      that raised and each escape; a callback once called, and one more for each
      escape. */
  predicate Balanced(run: Run) {
    && |run.records| == One(Settled(run.phase)) + run.interrupted + run.spoiled + run.escaped
    && |run.calls| == (if run.hasCallback then One(Called(run.phase)) else 0) + run.escaped
    && (run.phase.InCallback? || run.phase.InLastCallback? ==> run.hasCallback)
    && (run.escaped > 0 ==> run.hasCallback
                            && (run.phase.InLastCallback? || run.phase == Over(Disconnected)))
    && (run.spoiled > 0 ==> run.phase == Over(Failed))
    && (Undisturbed(run.phase) ==> run.interrupted == 0 && run.disturbed == 0)
    && run.interrupted <= run.disturbed
    && LastRecordFits(run)
  }

  predicate Failure(status: Status) {
    status.Timeout? || status.Error?
  }

  /** The last record names the outcome. */
  predicate LastRecordFits(run: Run) {
    && |run.records| >= One(Settled(run.phase))
    && (Settled(run.phase) ==>
          var last := run.records[|run.records| - 1];
          if run.phase.InCallback? || run.phase == Over(Succeeded) then last == Success
          else if run.phase.InLastCallback? || run.phase == Over(Disconnected) then
            last == Cancelled
          else Failure(last))
  }

  /** Phases a run reaches only while no clean-up was disturbed. */
  predicate Undisturbed(phase: Phase) {
    match phase
    case ClosingResponse(_) => true
    case ClosingClient(pending) => pending == Quiet
    case InLastCallback => false
    case Over(outcome) => !outcome.Failed? && !outcome.Disconnected?
    case _ => true
  }

  /** Once the loop ended the counts are those of what was read; a success and its
      callback have exactly these, and they were accepted. */
  predicate Tallied(run: Run) {
    && (run.upstream.Some? ==>
          run.counts == CountsOf(run.upstream.value) && !LoopFails(run.upstream.value))
    && (run.phase == ClosingResponse(Quiet) || run.phase == ClosingClient(Quiet)
        || run.phase.Ending? || run.phase.InCallback? || run.phase == Over(Succeeded)
        || run.spoiled > 0 || run.escaped > 0
        ==> run.upstream.Some?)
    && (run.phase.InCallback? || run.phase == Over(Succeeded) || run.escaped > 0 ==>
          Recordable(run.counts))
    && ((run.phase.InCallback? || run.phase == Over(Succeeded)) && run.hasCallback ==>
          run.calls == [run.counts])
    && (run.escaped > 0 ==> run.calls == [run.counts, NO_TOKENS])
    && (run.spoiled > 0 ==> run.spoiled == 1 && !Recordable(run.counts) && run.calls == [])
    && (run.phase == Over(Failed) ==> run.calls == [])
    && (run.phase.InLastCallback? || run.phase == Over(Disconnected) ==>
          run.calls == (if run.escaped > 0 then [run.counts, NO_TOKENS]
                        else if run.hasCallback then [NO_TOKENS] else []))
    && (!Called(run.phase) ==> run.calls == [])
  }

  /** The status that tells how a run went wrong. Only what happens within the client's
      context can be a timeout. */
  function StatusOf(cause: Cause): Status {
    match cause
    case Unprepared(exn) => if exn.Disconnect? then Cancelled else Error
    case BadStatus => Error
    case Faulted(exn) =>
      if exn.AsyncTimeout? then Timeout else if exn.Disconnect? then Cancelled else Error
    case GoneAtEnd => Cancelled
  }

  /** What a run that is over has recorded, when its clean-up was not disturbed. */
  function Expected(run: Run): seq<Status> {
    match run.cause
    case Some(cause) => [StatusOf(cause)]
    case None => if Recordable(run.counts) then [Success] else [Success, Error]
  }

  /** What is pending, and what was recorded for it, comes from the cause. */
  predicate Caused(run: Run, pending: Pending) {
    match pending
    case Quiet => run.cause.None? && run.records == []
    case Raising(Surfaced) =>
      && run.cause.Some? && run.records == [StatusOf(run.cause.value)]
      && Failure(StatusOf(run.cause.value))
    case Raising(exn) => run.cause == Some(Faulted(exn)) && run.records == []
  }

  predicate Named(run: Run) {
    run.disturbed == 0 && run.escaped == 0 ==>
      match run.phase
      case ClosingResponse(pending) => Caused(run, pending)
      case ClosingClient(pending) =>
        Caused(run, pending) && pending != Raising(AsyncTimeout) && pending != Raising(ConnectFailed)
      case InCallback => run.cause.None? && Recordable(run.counts) && run.records == [Success]
      case InLastCallback =>
        run.cause.Some? && StatusOf(run.cause.value) == Cancelled && run.records == [Cancelled]
      case Over(outcome) =>
        if outcome.Refused? || outcome.PlainDone? then run.records == []
        else run.records == Expected(run)
      case _ => run.cause.None? && run.records == []
  }

  predicate Books(run: Run) {
    Balanced(run) && Tallied(run) && Named(run)
  }

  // ------------------------------------------------- every step keeps the books

  /** A run about to handle what is pending, its books in order. */
  predicate Ready(run: Run, pending: Pending) {
    && |run.records| == One(pending == Raising(Surfaced)) + run.interrupted
    && run.calls == [] && run.spoiled == 0 && run.escaped == 0
    && run.interrupted <= run.disturbed
    && (pending == Raising(Surfaced) ==> Failure(run.records[|run.records| - 1]))
    && (pending == Quiet ==> run.disturbed == 0 && run.upstream.Some?)
    && (run.upstream.Some? ==>
          run.counts == CountsOf(run.upstream.value) && !LoopFails(run.upstream.value))
  }

  lemma {:induction false} InnerBalanced(run: Run, pending: Pending)
    requires Ready(run, pending)
    ensures Balanced(Inner(run, pending))
  {
    hide CountsOf, LoopFails;
  }

  lemma {:induction false} InnerTallied(run: Run, pending: Pending)
    requires Ready(run, pending)
    ensures Tallied(Inner(run, pending))
  {
    hide CountsOf, LoopFails, Recordable;
  }

  lemma {:induction false} InnerNamed(run: Run, pending: Pending)
    requires Ready(run, pending) && (run.disturbed == 0 ==> Caused(run, pending))
    ensures Named(Inner(run, pending))
  {
    hide CountsOf, LoopFails, Recordable;
  }

  lemma {:induction false} InnerBooks(run: Run, pending: Pending)
    requires Ready(run, pending) && (run.disturbed == 0 ==> Caused(run, pending))
    ensures Books(Inner(run, pending))
  {
    hide Balanced, Tallied, Named, Inner, Ready, Caused;
    InnerBalanced(run, pending);
    InnerTallied(run, pending);
    InnerNamed(run, pending);
  }

  /** What the outer handlers are told is the cause. */
  predicate CausedOutside(run: Run, pending: Pending) {
    match pending
    case Quiet => run.cause.None? && run.records == []
    case Raising(Surfaced) => run.cause.Some? && run.records == [StatusOf(run.cause.value)]
    case Raising(exn) =>
      && run.cause.Some? && run.records == []
      && StatusOf(run.cause.value) == if exn.Disconnect? then Cancelled else Error
  }

  lemma {:induction false} OuterBooks(run: Run, pending: Pending)
    requires Ready(run, pending) && (run.disturbed == 0 ==> CausedOutside(run, pending))
    ensures Books(Outer(run, pending))
  {
    OuterBalanced(run, pending);
    OuterTallied(run, pending);
    OuterNamed(run, pending);
    hide Balanced, Tallied, Named, Ready, CausedOutside, Outer;
  }

  lemma {:induction false} OuterBalanced(run: Run, pending: Pending)
    requires Ready(run, pending)
    ensures Balanced(Outer(run, pending))
  {
    hide CountsOf, LoopFails, Recordable;
  }

  lemma {:induction false} OuterTallied(run: Run, pending: Pending)
    requires Ready(run, pending)
    ensures Tallied(Outer(run, pending))
  {
    hide CountsOf, LoopFails, Recordable;
  }

  lemma {:induction false} OuterNamed(run: Run, pending: Pending)
    requires Ready(run, pending) && (run.disturbed == 0 ==> CausedOutside(run, pending))
    ensures Named(Outer(run, pending))
  {
    hide CountsOf, LoopFails, Recordable;
  }

  lemma {:induction false} InterruptReady(run: Run, pending: Pending, exn: Exn)
    requires Ready(run, pending) && exn != Surfaced
    ensures Ready(Interrupt(run, pending), Raising(exn)) && Interrupt(run, pending).disturbed > 0
    ensures Ready(Freed(Interrupt(run, pending)), Raising(exn))
  {
    hide CountsOf, LoopFails;
  }

  lemma {:induction false} OpeningReady(run: Run, exn: Exn)
    requires Books(run) && run.phase.Opening? && exn != Surfaced
    ensures var hit := run.(cause := Some(Faulted(exn)));
            Ready(hit, Raising(exn)) && Caused(hit, Raising(exn))
  {
    hide CountsOf, LoopFails, Recordable;
  }

  lemma {:induction false} BadStatusBooks(run: Run)
    requires Books(run) && run.phase.Opening?
    ensures Books(Record(run, Error).(phase := ClosingResponse(Raising(Surfaced)),
                                      cause := Some(BadStatus)))
  {
    hide CountsOf, LoopFails, Recordable;
    assert run.records == [];
  }

  lemma {:induction false} OpenedBooks(run: Run)
    requires Books(run) && run.phase.Opening?
    ensures Books(run.(phase := Streaming))
  {
    hide CountsOf, LoopFails, Recordable;
  }

  lemma {:induction false} OpeningBooks(run: Run, event: Event)
    requires Books(run) && run.phase.Opening?
    ensures Books(Proceed(run, event))
  {
    hide Books, Ready, Caused, Inner;
    BadStatusBooks(run);
    OpenedBooks(run);
    if event.Fault? && event.exn != Surfaced {
      OpeningReady(run, event.exn);
      InnerBooks(run.(cause := Some(Faulted(event.exn))), Raising(event.exn));
    }
  }

  lemma {:induction false} StreamingBooks(run: Run, event: Event)
    requires Books(run) && run.phase.Streaming?
    ensures Books(Proceed(run, event))
  {
    hide CountsOf, LoopFails, Recordable;
  }

  lemma {:induction false} ClosingIsReady(run: Run)
    requires Books(run) && (run.phase.ClosingResponse? || run.phase.ClosingClient?)
    ensures Ready(run, run.phase.pending)
    ensures run.disturbed == 0 ==> Caused(run, run.phase.pending)
    ensures run.phase.ClosingClient? ==>
              && Ready(Freed(run), run.phase.pending)
              && (run.disturbed == 0 ==> CausedOutside(Freed(run), run.phase.pending))
  {
    hide CountsOf, LoopFails, Recordable;
  }

  lemma {:induction false} ClosingResponseBooks(run: Run, event: Event)
    requires Books(run) && run.phase.ClosingResponse?
    ensures Books(Proceed(run, event))
  {
    var pending := run.phase.pending;
    ClosingIsReady(run);
    hide Books, Ready, Caused, Inner;
    if event.CloseFault? && event.exn != Surfaced {
      InterruptReady(run, pending, event.exn);
      InnerBooks(Interrupt(run, pending), Raising(event.exn));
    } else if event.Closed? {
      InnerBooks(run, pending);
    }
  }

  lemma {:induction false} ClosingClientBooks(run: Run, event: Event, pool: Pool)
    requires Books(run) && run.phase.ClosingClient?
    ensures Books(Advance(run, event, pool).run)
  {
    var pending := run.phase.pending;
    ClosingIsReady(run);
    AdvanceClosed(run, event, pool);
    hide Books, Ready, Caused, CausedOutside, Outer, Advance;
    if event.CloseFault? && event.exn != Surfaced {
      InterruptReady(run, pending, event.exn);
      OuterBooks(Freed(Interrupt(run, pending)), Raising(event.exn));
    } else if event.Closed? {
      OuterBooks(Freed(run), pending);
    }
  }

  lemma {:induction false} AdvanceClosed(run: Run, event: Event, pool: Pool)
    requires run.phase.ClosingClient?
    ensures Advance(run, event, pool).run
         == if event.Closed? then Outer(Freed(run), run.phase.pending)
            else if event.CloseFault? && event.exn != Surfaced then
              Outer(Freed(Interrupt(run, run.phase.pending)), Raising(event.exn))
            else run
  {
    hide Outer;
  }

  lemma {:induction false} PreparingReady(run: Run, exn: Exn)
    requires Books(run) && run.phase.Preparing? && exn != Surfaced
    ensures var hit := Freed(run.(cause := Some(Unprepared(exn))));
            Ready(hit, Raising(exn)) && CausedOutside(hit, Raising(exn))
    ensures Books(run.(phase := Opening))
  {
    hide CountsOf, LoopFails, Recordable;
  }

  lemma {:induction false} PreparingBooks(run: Run, event: Event, pool: Pool)
    requires Books(run) && run.phase.Preparing?
    ensures Books(Advance(run, event, pool).run)
  {
    hide Books, Ready, CausedOutside, Outer;
    PreparingReady(run, Other);
    if event.Fault? && event.exn != Surfaced {
      PreparingReady(run, event.exn);
      OuterBooks(Freed(run.(cause := Some(Unprepared(event.exn)))),
                 Raising(event.exn));
    }
  }

  lemma {:induction false} StartBooks(run: Run, event: Event, pool: Pool)
    requires Books(run)
    requires run.phase.Fresh? || run.phase.Waiting? || run.phase.Plain? || run.phase.Over?
    ensures Books(Advance(run, event, pool).run)
  {
    hide CountsOf, LoopFails, Recordable;
  }

  lemma {:induction false} EndingReady(run: Run)
    requires Books(run) && run.phase.Ending?
    ensures var gone := run.(cause := Some(GoneAtEnd));
            Ready(gone, Raising(Disconnect)) && CausedOutside(gone, Raising(Disconnect))
  {
    hide CountsOf, LoopFails, Recordable;
  }

  lemma {:induction false} ConcludeBooks(run: Run)
    requires Books(run) && run.phase.Ending?
    ensures Books(Conclude(run))
  {
    hide CountsOf, LoopFails, Recordable;
    assert run.records == [];
  }

  lemma {:induction false} EndingBooks(run: Run, event: Event)
    requires Books(run) && run.phase.Ending?
    ensures Books(Proceed(run, event))
  {
    hide Books, Outer, Conclude, Ready, CausedOutside;
    EndingReady(run);
    ConcludeBooks(run);
    OuterBooks(run.(cause := Some(GoneAtEnd)), Raising(Disconnect));
  }

  lemma {:induction false} CallbackBooks(run: Run, event: Event)
    requires Books(run) && (run.phase.InCallback? || run.phase.InLastCallback?)
    ensures Books(Proceed(run, event))
  {
    hide CountsOf, LoopFails, Recordable;
  }

  lemma {:induction false} AdvanceBooks(run: Run, event: Event, pool: Pool)
    requires Books(run)
    ensures Books(Advance(run, event, pool).run)
  {
    hide Books;
    match run.phase
    case Preparing => PreparingBooks(run, event, pool);
    case Opening => OpeningBooks(run, event);
    case Streaming => StreamingBooks(run, event);
    case ClosingResponse(_) => ClosingResponseBooks(run, event);
    case ClosingClient(_) => ClosingClientBooks(run, event, pool);
    case Ending => EndingBooks(run, event);
    case InCallback => CallbackBooks(run, event);
    case InLastCallback => CallbackBooks(run, event);
    case _ => StartBooks(run, event, pool);
  }

  lemma {:induction false} ProceedStays(run: Run, event: Event)
    ensures Holds(Proceed(run, event).phase) == Holds(run.phase)
    ensures Outside(Proceed(run, event).phase) == Outside(run.phase)
    ensures Proceed(run, event).phase.Waiting? == run.phase.Waiting?
  {
    hide LoopFails, CountsOf, Recordable;
  }

  lemma {:induction false} ProceedTakesNothing(run: Run, event: Event)
    ensures Proceed(run, event).acquired == run.acquired
    ensures Proceed(run, event).released == run.released
  {
    hide LoopFails, CountsOf, Recordable;
  }

  lemma {:induction false} AdvancePermitted(run: Run, event: Event, pool: Pool)
    requires Permitted(run) && pool.permits >= 0
    ensures Permitted(Advance(run, event, pool).run)
  {
    hide Proceed;
    ProceedStays(run, event);
    ProceedTakesNothing(run, event);
  }

  /** A success is on record just when the terminator was passed. */
  predicate Marked(run: Run) {
    Success in run.records <==>
      run.phase.InCallback? || run.phase == Over(Succeeded) || run.spoiled > 0 || run.escaped > 0
  }

  /** Before the terminator no success is on record. */
  predicate Unmarked(run: Run) {
    Success !in run.records && run.spoiled == 0 && run.escaped == 0
  }

  lemma {:induction false} RecordMarks(run: Run, status: Status)
    ensures Success in Record(run, status).records <==> Success in run.records || status.Success?
  {
    assert Record(run, status).records[|run.records|] == status;
    if Success in run.records {
      var k :| 0 <= k < |run.records| && run.records[k] == Success;
      assert Record(run, status).records[k] == Success;
    }
  }

  lemma {:induction false} OuterMarked(run: Run, pending: Pending)
    requires (Success in run.records <==> run.escaped > 0) && run.spoiled == 0
    requires pending == Quiet ==> run.escaped == 0
    ensures Marked(Outer(run, pending))
  {
    RecordMarks(run, Cancelled);
    RecordMarks(run, Error);
  }

  lemma {:induction false} InnerMarked(run: Run, pending: Pending)
    requires Unmarked(run)
    ensures Marked(Inner(run, pending))
  {
    RecordMarks(run, Timeout);
    RecordMarks(run, Error);
  }

  lemma {:induction false} ConcludeMarked(run: Run)
    requires Unmarked(run)
    ensures Marked(Conclude(run))
  {
    hide Recordable;
    RecordMarks(run, Success);
    RecordMarks(Record(run, Success), Error);
  }

  lemma {:induction false} EarlyMarked(run: Run, event: Event)
    requires Unmarked(run)
    requires run.phase.Opening? || run.phase.Streaming? || run.phase.ClosingResponse?
    ensures Marked(Proceed(run, event))
  {
    hide LoopFails, CountsOf, Inner;
    RecordMarks(run, Error);
    match run.phase
    case Opening =>
      if event.Fault? {
        InnerMarked(run.(cause := Some(Faulted(event.exn))), Raising(event.exn));
      }
    case ClosingResponse(pending) =>
      InnerMarked(run, pending);
      if event.CloseFault? {
        InnerMarked(Interrupt(run, pending), Raising(event.exn));
      }
    case _ =>
  }

  lemma {:induction false} LateMarked(run: Run, event: Event)
    requires Marked(run)
    requires run.phase.Ending? ==> Unmarked(run)
    requires run.phase.InCallback? ==> run.spoiled == 0 && run.escaped == 0
    requires run.phase.Ending? || run.phase.InCallback? || run.phase.InLastCallback?
    ensures Marked(Proceed(run, event))
  {
    hide Outer, Conclude;
    match run.phase
    case Ending =>
      ConcludeMarked(run);
      OuterMarked(run.(cause := Some(GoneAtEnd)), Raising(Disconnect));
    case InCallback => OuterMarked(run.(escaped := run.escaped + 1), Raising(Disconnect));
    case _ =>
  }

  lemma {:induction false} ProceedMarked(run: Run, event: Event)
    requires Marked(run) && Balanced(run)
    ensures Marked(Proceed(run, event))
  {
    assert (run.phase.Opening? || run.phase.Streaming? || run.phase.ClosingResponse?
            || run.phase.Ending?) ==> Unmarked(run);
    if run.phase.Opening? || run.phase.Streaming? || run.phase.ClosingResponse? {
      hide Proceed, Marked, Balanced;
      EarlyMarked(run, event);
    } else if run.phase.Ending? || run.phase.InCallback? || run.phase.InLastCallback? {
      LateMarked(run, event);
      hide Proceed, Marked, Balanced;
    }
  }

  lemma {:induction false} AdvanceMarked(run: Run, event: Event, pool: Pool)
    requires Marked(run) && Balanced(run)
    ensures Marked(Advance(run, event, pool).run)
  {
    ProceedMarked(run, event);
    match run.phase
    case Preparing =>
      if event.Fault? {
        OuterMarked(Freed(run.(cause := Some(Unprepared(event.exn)))), Raising(event.exn));
      }
      hide Outer, Proceed, Balanced;
    case ClosingClient(pending) =>
      AdvanceClosed(run, event, pool);
      OuterMarked(Freed(run), pending);
      if event.CloseFault? {
        OuterMarked(Freed(Interrupt(run, pending)), Raising(event.exn));
      }
      hide Outer, Proceed, Balanced, Advance;
    case _ =>
      hide Outer, Proceed, Balanced;
  }

  // ------------------------------------------------------- slots and permits

  /** The permits that the runs have taken and not given back. */
  function Held(runs: seq<Run>): int {
    if runs == [] then 0
    else Held(runs[..|runs| - 1])
         + (runs[|runs| - 1].acquired - runs[|runs| - 1].released)
  }

  /** How many runs are in a phase that holds a slot. */
  function Holders(runs: seq<Run>): nat {
    if runs == [] then 0
    else Holders(runs[..|runs| - 1]) + One(Holds(runs[|runs| - 1].phase))
  }

  lemma {:induction false} HeldAppend(runs: seq<Run>, run: Run)
    ensures Held(runs + [run]) == Held(runs) + (run.acquired - run.released)
  {
    assert (runs + [run])[..|runs|] == runs;
  }

  lemma {:induction false} HeldUpdate(runs: seq<Run>, i: nat, run: Run)
    requires i < |runs|
    ensures Held(runs[i := run])
         == Held(runs) - (runs[i].acquired - runs[i].released) + (run.acquired - run.released)
  {
    var n := |runs| - 1;
    if i == n {
      assert runs[i := run][..n] == runs[..n];
    } else {
      HeldUpdate(runs[..n], i, run);
      assert runs[i := run][..n] == runs[..n][i := run];
    }
  }

  ghost predicate Every(good: Run -> bool, runs: seq<Run>) {
    forall i :: 0 <= i < |runs| ==> good(runs[i])
  }

  lemma {:induction false} EveryUpdate(good: Run -> bool, runs: seq<Run>, i: nat, run: Run)
    requires Every(good, runs) && i < |runs| && good(run)
    ensures Every(good, runs[i := run])
  {
  }

  lemma {:induction false} EveryAppend(good: Run -> bool, runs: seq<Run>, run: Run)
    requires Every(good, runs) && good(run)
    ensures Every(good, runs + [run])
  {
  }

  /** With its permits in order, each run holds a permit just while it holds a slot. */
  lemma {:induction false} HeldByHolders(runs: seq<Run>)
    requires Every(Permitted, runs)
    ensures Held(runs) == Holders(runs)
    ensures Holders(runs) == 0 <==> forall i :: 0 <= i < |runs| ==> !Holds(runs[i].phase)
  {
    if runs != [] {
      var init := runs[..|runs| - 1];
      HeldByHolders(init);
      assert Permitted(runs[|runs| - 1]);
      assert forall i :: 0 <= i < |init| ==> init[i] == runs[i];
    }
  }

  ghost predicate PoolCounts(pool: Pool, runs: seq<Run>, maximum: nat) {
    && pool.permits == maximum - Held(runs)
    && pool.active == Held(runs)
    && pool.permits >= 0
  }

  /** The slots change by what the run takes and gives back, and a permit is taken only
      when there is one. */
  lemma {:induction false} AdvancePays(run: Run, event: Event, pool: Pool)
    requires pool.permits >= 0
    ensures var (after, left) := (Advance(run, event, pool).run, Advance(run, event, pool).pool);
            && left.permits + (after.acquired - after.released)
               == pool.permits + (run.acquired - run.released)
            && left.active - (after.acquired - after.released)
               == pool.active - (run.acquired - run.released)
            && left.permits >= 0
  {
    hide Proceed, Recordable;
    ProceedTakesNothing(run, event);
    OuterTakesNothing(Freed(run), if run.phase.ClosingClient? then run.phase.pending else Quiet);
    if event.Fault? {
      OuterTakesNothing(Freed(run.(cause := Some(Unprepared(event.exn)))), Raising(event.exn));
    }
    if event.CloseFault? && run.phase.ClosingClient? {
      OuterTakesNothing(Freed(Interrupt(run, run.phase.pending)), Raising(event.exn));
    }
    hide Outer;
  }

  lemma {:induction false} OuterTakesNothing(run: Run, pending: Pending)
    ensures Outer(run, pending).acquired == run.acquired
    ensures Outer(run, pending).released == run.released
  {
  }

  predicate Good(run: Run) {
    Permitted(run) && Books(run) && Marked(run)
  }

  ghost predicate Inv(s: System, maximum: nat) {
    PoolCounts(s.pool, s.runs, maximum) && Every(Good, s.runs)
  }

  lemma {:induction false} ArrivedIsGood(hasCallback: bool)
    ensures Good(Arrived(hasCallback))
  {
  }

  lemma {:induction false} AdvanceGood(run: Run, event: Event, pool: Pool)
    requires Good(run) && pool.permits >= 0
    ensures Good(Advance(run, event, pool).run)
  {
    assert Balanced(run);
    hide Advance, Permitted, Marked, Balanced, Tallied, Named;
    AdvancePermitted(run, event, pool);
    AdvanceBooks(run, event, pool);
    AdvanceMarked(run, event, pool);
  }

  lemma {:induction false} ArriveKeeps(s: System, hasCallback: bool, maximum: nat)
    requires Inv(s, maximum)
    ensures Inv(System(s.pool, s.runs + [Arrived(hasCallback)]), maximum)
  {
    hide Good, Held;
    HeldAppend(s.runs, Arrived(hasCallback));
    ArrivedIsGood(hasCallback);
    EveryAppend(Good, s.runs, Arrived(hasCallback));
  }

  lemma {:induction false} AdvanceKeeps(s: System, i: nat, event: Event, maximum: nat)
    requires Inv(s, maximum) && i < |s.runs|
    ensures var moved := Advance(s.runs[i], event, s.pool);
            Inv(System(moved.pool, s.runs[i := moved.run]), maximum)
  {
    hide Advance, Good, Held;
    var after := Advance(s.runs[i], event, s.pool).run;
    AdvanceGood(s.runs[i], event, s.pool);
    EveryUpdate(Good, s.runs, i, after);
    AdvancePays(s.runs[i], event, s.pool);
    HeldUpdate(s.runs, i, after);
  }

  lemma {:induction false} StepKeeps(s: System, event: Event, maximum: nat)
    requires Inv(s, maximum)
    ensures Inv(Step(s, event), maximum)
  {
    hide Inv, Advance;
    if event.Arrive? {
      ArriveKeeps(s, event.hasCallback, maximum);
    } else if event.run < |s.runs| {
      AdvanceKeeps(s, event.run, event, maximum);
    }
  }

  lemma {:induction false} ExecuteKeeps(s: System, events: seq<Event>, maximum: nat)
    requires Inv(s, maximum)
    ensures Inv(Execute(s, events), maximum)
    decreases |events|
  {
    hide Inv, Step;
    if events != [] {
      StepKeeps(s, events[0], maximum);
      ExecuteKeeps(Step(s, events[0]), events[1..], maximum);
    }
  }

  // ------------------------------------------------------------- the server

  /** The slots and the runs together, one event at a time. */
  class StreamServer {
    const slots: InferenceSlots
    var runs: seq<Run>

    ghost function Seen(): System
      reads this, slots
    {
      System(slots.Pooled(), runs)
    }

    ghost predicate Valid()
      reads this, slots
    {
      slots.Valid() && Inv(Seen(), slots.maximum)
    }

    constructor (maximum: nat)
      ensures Valid() && fresh(slots) && slots.maximum == maximum && Seen() == Boot(maximum)
    {
      slots := new InferenceSlots(maximum);
      runs := [];
    }

    /** Whoever leaves a slot was in one: the counter is positive by the books. */
    method Handle(event: Event)
      requires Valid()
      modifies this, slots
      ensures Valid()
      ensures Seen() == Step(old(Seen()), event)
    {
      hide Proceed, Outer, Inv, Interrupt;
      StepKeeps(Seen(), event, slots.maximum);
      if event.Arrive? {
        runs := runs + [Arrived(event.hasCallback)];
      } else if event.run < |runs| {
        var i, run := event.run, runs[event.run];
        if run.phase.Fresh? && (event.Begin? || event.BeginPlain?) {
          var admitted := slots.Enter();
          run := if !admitted then run.(phase := Over(Refused))
                 else run.(phase := if event.Begin? then Preparing else Plain,
                           acquired := run.acquired + 1);
        } else if run.phase.Plain? && event.EndPlain? {
          HolderCounts(Seen(), slots.maximum, i);
          slots.Leave();
          run := Freed(run).(phase := Over(PlainDone));
        } else if run.phase.Preparing? && event.Fault? && event.exn != Surfaced {
          HolderCounts(Seen(), slots.maximum, i);
          slots.Leave();
          run := Outer(Freed(run.(cause := Some(Unprepared(event.exn)))), Raising(event.exn));
        } else if run.phase.ClosingClient? && event.Closed? {
          HolderCounts(Seen(), slots.maximum, i);
          slots.Leave();
          run := Outer(Freed(run), run.phase.pending);
        } else if run.phase.ClosingClient? && event.CloseFault? && event.exn != Surfaced {
          HolderCounts(Seen(), slots.maximum, i);
          slots.Leave();
          run := Outer(Freed(Interrupt(run, run.phase.pending)), Raising(event.exn));
        } else if run.phase.Preparing? && event.ClientReady? {
          run := run.(phase := Opening);
        } else if !(run.phase.Preparing? && event.Fault?)
                  && !(run.phase.ClosingClient? && event.CloseFault?) {
          run := Proceed(run, event);
        }
        runs := runs[i := run];
      }
    }
  }

  lemma {:induction false} HolderCounts(s: System, maximum: nat, i: nat)
    requires Inv(s, maximum) && i < |s.runs| && Holds(s.runs[i].phase)
    ensures s.pool.active > 0
  {
    assert forall j :: 0 <= j < |s.runs| ==> Good(s.runs[j]) ==> Permitted(s.runs[j]);
    HeldByHolders(s.runs);
  }

  // ---------------------------------------------------------------- theorems

  /** Slots are safe over all interleavings. Every run takes at most one permit and gives
      back no more than it took; a run that is over has given back what it took, on
      every exit path; so permits and holders always add up to the maximum, nobody
      waits, and the drain ends only when nobody holds a slot. */
  lemma {:induction false} SlotSafety(maximum: nat, events: seq<Event>)
    ensures var s := Execute(Boot(maximum), events);
            && (forall i :: 0 <= i < |s.runs| ==>
                  var run := s.runs[i];
                  && run.released <= run.acquired <= 1
                  && (Holds(run.phase) <==> run.acquired == 1 && run.released == 0)
                  && (run.phase.Over? ==>
                        run.acquired == run.released == One(!run.phase.outcome.Refused?))
                  && !run.phase.Waiting?)
            && s.pool.active == Holders(s.runs)
            && s.pool.permits + Holders(s.runs) == maximum
            && s.pool.permits >= 0
            && (s.pool.active == 0 <==>
                forall i :: 0 <= i < |s.runs| ==> !Holds(s.runs[i].phase))
  {
    hide Step, Books, Marked;
    ExecuteKeeps(Boot(maximum), events, maximum);
    HeldByHolders(Execute(Boot(maximum), events).runs);
  }

  /** Accounting over all interleavings. An admitted run that is over has recorded one
      status, and one more for each error record whose clean-up was interrupted, each
      success whose counts were refused and each cancellation a callback let escape:
      exactly one if and only if none of this happened, where a success is refused just
      when a count is negative, too large for a double, or no number. The last record names the outcome. The
      callback gets the counts of the lines read on success, is told of a disconnect
      once and without tokens, and is never called after a timeout or an error. */
  lemma {:induction false} Accounting(maximum: nat, events: seq<Event>, i: nat)
    requires var s := Execute(Boot(maximum), events);
             i < |s.runs| && s.runs[i].phase.Over? && Settled(s.runs[i].phase)
    ensures var run := Execute(Boot(maximum), events).runs[i];
            var outcome := run.phase.outcome;
            && |run.records| == 1 + run.interrupted + run.spoiled + run.escaped
            && (Success in run.records ==> run.spoiled == One(!Recordable(run.counts)))
            && (Success !in run.records ==> run.spoiled == 0)
            && (|run.records| == 1 <==>
                  && run.interrupted == 0 && run.escaped == 0
                  && (Success in run.records ==> Recordable(run.counts)))
            && (match outcome
                case Succeeded => run.records == [Success]
                case Disconnected => run.records[|run.records| - 1] == Cancelled
                case _ => Failure(run.records[|run.records| - 1]))
            && run.calls ==
                 if outcome == Failed || !run.hasCallback then []
                 else if outcome == Succeeded then [run.counts]
                 else if run.escaped > 0 then [run.counts, NO_TOKENS]
                 else [NO_TOKENS]
  {
    hide Step, Permitted, Named, CountsOf, LoopFails;
    ExecuteKeeps(Boot(maximum), events, maximum);
    var run := Execute(Boot(maximum), events).runs[i];
    assert Good(run);
  }

  /** A run that is over, with no fault while cleaning up and no cancellation escaping,
      has recorded the status of its first fault; with no fault at all, a success, and
      then an error just when its counts are refused. */
  lemma {:induction false} EndsByItsFault(maximum: nat, events: seq<Event>, i: nat)
    requires var s := Execute(Boot(maximum), events);
             && i < |s.runs| && s.runs[i].phase.Over? && Settled(s.runs[i].phase)
             && s.runs[i].disturbed == 0 && s.runs[i].escaped == 0
    ensures var run := Execute(Boot(maximum), events).runs[i];
            run.records == match run.cause
                           case Some(cause) => [StatusOf(cause)]
                           case None => if Recordable(run.counts) then [Success]
                                        else [Success, Error]
  {
    hide Step, Permitted, Balanced, Tallied, Marked, CountsOf, LoopFails, Recordable;
    ExecuteKeeps(Boot(maximum), events, maximum);
    assert Good(Execute(Boot(maximum), events).runs[i]);
  }

  // ---------------------------------------------------- runs recorded twice

  function AdvanceAll(moved: Moved, events: seq<Event>): Moved
    decreases |events|
  {
    if events == [] then moved
    else AdvanceAll(Advance(moved.run, events[0], moved.pool), events[1..])
  }

  lemma {:induction false} ExecuteAlone(moved: Moved, events: seq<Event>)
    requires forall i :: 0 <= i < |events| ==> !events[i].Arrive? && events[i].run == 0
    ensures Execute(System(moved.pool, [moved.run]), events)
         == System(AdvanceAll(moved, events).pool, [AdvanceAll(moved, events).run])
    decreases |events|
  {
    hide Advance;
    if events != [] {
      var next := Advance(moved.run, events[0], moved.pool);
      assert [moved.run][0 := next.run] == [next.run];
      ExecuteAlone(next, events[1..]);
    }
  }

  lemma {:induction false} AloneCons(moved: Moved, event: Event, events: seq<Event>)
    ensures AdvanceAll(moved, [event] + events)
         == AdvanceAll(Advance(moved.run, event, moved.pool), events)
  {
    assert ([event] + events)[1..] == events;
  }

  /** One run alone, from its arrival on. */
  lemma {:induction false} FromArrival(events: seq<Event>)
    requires forall i :: 0 <= i < |events| ==> !events[i].Arrive? && events[i].run == 0
    ensures Execute(Boot(1), [Arrive(true)] + events).runs
         == [AdvanceAll(Moved(Arrived(true), Pool(1, 0)), events).run]
  {
    hide Advance;
    assert ([Arrive(true)] + events)[1..] == events;
    assert Step(Boot(1), Arrive(true)) == System(Pool(1, 0), [Arrived(true)]);
    ExecuteAlone(Moved(Arrived(true), Pool(1, 0)), events);
  }

  lemma {:induction false} Admitted(events: seq<Event>)
    ensures AdvanceAll(Moved(Arrived(true), Pool(1, 0)), [Begin(0)] + ([ClientReady(0)] + events))
         == AdvanceAll(Opened(), events)
  {
    var begun := Moved(Arrived(true), Pool(1, 0));
    AloneCons(begun, Begin(0), [ClientReady(0)] + events);
    AloneCons(Advance(begun.run, Begin(0), begun.pool), ClientReady(0), events);
  }

  /** What an admitted run alone goes through, one event after the other. */
  lemma {:induction false} AloneStep(moved: Moved, event: Event, events: seq<Event>, next: Moved,
        last: Moved)
    requires Advance(moved.run, event, moved.pool) == next && AdvanceAll(next, events) == last
    ensures AdvanceAll(moved, [event] + events) == last
  {
    hide Advance;
    AloneCons(moved, event, events);
  }

  lemma {:induction false} NothingLeft(moved: Moved)
    ensures AdvanceAll(moved, []) == moved
  {
  }

  lemma {:induction false} ClosedResponse(run: Run, pool: Pool, event: Event)
    requires run.phase.ClosingResponse? && (event.Closed? || event.CloseFault?)
    ensures event.Closed? ==>
              Advance(run, event, pool) == Moved(Inner(run, run.phase.pending), pool)
    ensures event.CloseFault? && event.exn != Surfaced ==>
              Advance(run, event, pool)
              == Moved(Inner(Interrupt(run, run.phase.pending), Raising(event.exn)), pool)
  {
    hide Inner, Interrupt;
  }

  lemma {:induction false} ClosedClient(run: Run, pool: Pool)
    requires run.phase.ClosingClient?
    ensures Advance(run, Closed(0), pool) == LeaveSlot(run, run.phase.pending, pool)
  {
    hide LeaveSlot;
  }

  lemma {:induction false} RepliedOrResumed(run: Run, pool: Pool)
    ensures run.phase.Opening? ==>
              && Advance(run, Replied(0, true), pool) == Moved(run.(phase := Streaming), pool)
              && Advance(run, Replied(0, false), pool)
                 == Moved(Record(run, Error).(phase := ClosingResponse(Raising(Surfaced)),
                                              cause := Some(BadStatus)), pool)
    ensures run.phase.Ending? ==> Advance(run, Resumed(0), pool) == Moved(Conclude(run), pool)
  {
    hide Conclude;
  }

  /** The run of these theorems once its client is open. */
  function Opened(): Moved {
    Moved(Arrived(true).(phase := Opening, acquired := 1), Pool(0, 1))
  }

  /** A refused reply is recorded, the client goes away while the response is being
      closed, and the run is recorded again. */
  lemma {:induction false} InterruptedTwice()
    ensures var s := Execute(Boot(1), [Arrive(true)] + ([Begin(0)] + ([ClientReady(0)]
              + ([Replied(0, false)] + ([CloseFault(0, Disconnect)] + ([Closed(0)] + []))))));
            && |s.runs| == 1
            && s.runs[0].records == [Error, Cancelled]
            && s.runs[0].calls == [NO_TOKENS]
  {
    hide Advance;
    var m0 := Opened();
    RepliedOrResumed(m0.run, m0.pool);
    var m1 := Advance(m0.run, Replied(0, false), m0.pool);
    ClosedResponse(m1.run, m1.pool, CloseFault(0, Disconnect));
    var m2 := Advance(m1.run, CloseFault(0, Disconnect), m1.pool);
    ClosedClient(m2.run, m2.pool);
    var m3 := Advance(m2.run, Closed(0), m2.pool);
    assert m1.run.phase == ClosingResponse(Raising(Surfaced)) && m1.run.records == [Error];
    assert m2.run.phase == ClosingClient(Raising(Disconnect)) && m2.run.records == [Error];
    assert m3.run.records == [Error, Cancelled] && m3.run.calls == [NO_TOKENS];
    hide AdvanceAll, Execute, Opened, Inner, Interrupt, LeaveSlot;
    NothingLeft(m3);
    AloneStep(m2, Closed(0), [], m3, m3);
    AloneStep(m1, CloseFault(0, Disconnect), [Closed(0)] + [], m2, m3);
    var tail := [Replied(0, false)] + ([CloseFault(0, Disconnect)] + ([Closed(0)] + []));
    AloneStep(m0, Replied(0, false), [CloseFault(0, Disconnect)] + ([Closed(0)] + []), m1, m3);
    FromArrival([Begin(0)] + ([ClientReady(0)] + tail));
    Admitted(tail);
  }

  /** A reply that is over at once, with these counts. */
  function DoneWith(counts: Usage): Upstream {
    FromOllama([Reply("", "", true, counts)])
  }

  lemma {:induction false} DoneIsRead(run: Run, pool: Pool, counts: Usage)
    requires run.phase.Streaming?
    ensures Advance(run, LinesEnd(0, DoneWith(counts)), pool)
         == Moved(run.(phase := ClosingResponse(Quiet), counts := counts,
                       upstream := Some(DoneWith(counts))), pool)
  {
    assert StopAt(DoneWith(counts).lines) == 0;
  }

  /** Whatever counts a reply ends with, if the counters do not accept them: the run is
      recorded as a success, then as an error, and its callback is never called. */
  lemma {:induction false} RefusedCountTwice(counts: Usage)
    requires !Recordable(counts)
    ensures var s := Execute(Boot(1), [Arrive(true)] + ([Begin(0)] + ([ClientReady(0)]
              + ([Replied(0, true)] + ([LinesEnd(0, DoneWith(counts))]
              + ([Closed(0)] + ([Closed(0)] + ([Resumed(0)] + []))))))));
            && |s.runs| == 1
            && s.runs[0].records == [Success, Error]
            && s.runs[0].interrupted == 0 && s.runs[0].escaped == 0
            && s.runs[0].calls == []
  {
    hide StopAt, Advance, DoneWith, Recordable;
    var m0 := Opened();
    var read := LinesEnd(0, DoneWith(counts));
    RepliedOrResumed(m0.run, m0.pool);
    var m1 := Advance(m0.run, Replied(0, true), m0.pool);
    DoneIsRead(m1.run, m1.pool, counts);
    var m2 := Advance(m1.run, read, m1.pool);
    ClosedResponse(m2.run, m2.pool, Closed(0));
    var m3 := Advance(m2.run, Closed(0), m2.pool);
    ClosedClient(m3.run, m3.pool);
    var m4 := Advance(m3.run, Closed(0), m3.pool);
    RepliedOrResumed(m4.run, m4.pool);
    var m5 := Advance(m4.run, Resumed(0), m4.pool);
    assert m3.run.phase == ClosingClient(Quiet) && m4.run.phase == Ending;
    assert m4.run.records == [] && m4.run.counts == counts;
    assert m5.run.records == [Success, Error] && m5.run.calls == [];
    hide AdvanceAll, Execute, Opened, Inner, Interrupt, LeaveSlot;
    NothingLeft(m5);
    var e5 := [Resumed(0)] + [];
    AloneStep(m4, Resumed(0), [], m5, m5);
    AloneStep(m3, Closed(0), e5, m4, m5);
    AloneStep(m2, Closed(0), [Closed(0)] + e5, m3, m5);
    AloneStep(m1, read, [Closed(0)] + ([Closed(0)] + e5), m2, m5);
    var tail := [Replied(0, true)] + ([read] + ([Closed(0)] + ([Closed(0)] + e5)));
    AloneStep(m0, Replied(0, true), [read] + ([Closed(0)] + ([Closed(0)] + e5)), m1, m5);
    FromArrival([Begin(0)] + ([ClientReady(0)] + tail));
    Admitted(tail);
  }

  /** Counts of each kind that are refused, and the last one that is not. */
  lemma {:induction false} RefusedCounts()
    ensures !Recordable(Usage(Number(0), Number(-1)))
    ensures !Recordable(Usage(Number(LARGEST_COUNT + 1), Number(0)))
    ensures !Recordable(Usage(Number(0), Junk))
    ensures Recordable(Usage(Empty, Number(LARGEST_COUNT))) && LARGEST_COUNT > TWO_TO_256
  {
    assert TWO_TO_64 > 1 && TWO_TO_256 > 1;
  }
}
