/** Theorems about every run of requests for one-time codes. */
module OtpRuns {
  import opened Text
  import opened Otp
  import opened OtpTheory

  datatype Timed = Timed(at: int, request: Request)

  /** One request at a time, each later than the one before. */
  ghost predicate InOrder(requests: seq<Timed>) {
    forall i, j :: 0 <= i < j < |requests| ==> requests[i].at < requests[j].at
  }

  /** The state of one key after requests for that key. */
  function Run(requests: seq<Timed>): State {
    if requests == [] then State([], [])
    else
      var last := requests[|requests| - 1];
      Act(Run(requests[..|requests| - 1]), last.request, last.at).0
  }

  // ------------------------------------------------------------------- moves

  /** The ways a request can change a key's rows. */
  datatype Move = Stay | Add(digest: Digest) | Burn | Confirm | Redeem | RedeemAtOnce

  predicate Open(s: State) {
    s.rows != [] && !Youngest(s.rows).verified && Youngest(s.rows).attempts < MAX_ATTEMPTS
  }

  predicate Possible(s: State, move: Move, now: int) {
    match move
    case Stay => true
    case Add(_) => RowsSince(s.rows, now - WINDOW) < MAX_ROWS
    case Burn => Open(s)
    case Confirm => Open(s) && now <= Youngest(s.rows).expires
    case Redeem => s.rows != [] && Youngest(s.rows).verified && now <= Youngest(s.rows).expires
    case RedeemAtOnce => Open(s) && now <= Youngest(s.rows).expires
  }

  function Tried(row: Row): Row {
    row.(attempts := row.attempts + 1)
  }

  function Moved(s: State, move: Move, now: int): State
    requires Possible(s, move, now)
  {
    match move
    case Stay => s
    case Add(digest) => State(s.rows + [NewRow(digest, now)], s.log + [Issued(now)])
    case Burn =>
      var row := Youngest(s.rows);
      State(Older(s.rows) + [Tried(row)],
            s.log + [if now > row.expires then Lapsed(row.created, now)
                     else Missed(row.created, now)])
    case Confirm =>
      var row := Youngest(s.rows);
      State(Older(s.rows) + [Tried(row).(verified := true)], s.log + [Confirmed(row.created, now)])
    case Redeem =>
      State(Older(s.rows), s.log + [Redeemed(Youngest(s.rows).created, now)])
    case RedeemAtOnce =>
      var c := Youngest(s.rows).created;
      State(Older(s.rows), s.log + [Confirmed(c, now), Redeemed(c, now)])
  }

  lemma {:induction false} ActMoves(s: State, request: Request, now: int) returns (move: Move)
    ensures Possible(s, move, now) && Act(s, request, now).0 == Moved(s, move, now)
  {
    move := Stay;
    match request
    case Issue(_, digest, mailed) =>
      if RowsSince(s.rows, now - WINDOW) < MAX_ROWS && mailed {
        move := Add(digest);
      }
    case Verify(_, digest, accepted) =>
      if Open(s) {
        var outcome := TryCode(Youngest(s.rows), digest, now);
        if outcome.Spent? {
          move := Burn;
        } else if accepted {
          move := Confirm;
        }
      }
    case Reset(_, code) =>
      if s.rows != [] && Youngest(s.rows).verified && now <= Youngest(s.rows).expires {
        move := Redeem;
      } else if Open(s) && code.Some? {
        var outcome := TryCode(Youngest(s.rows), code.value, now);
        move := if outcome.Spent? then Burn else RedeemAtOnce;
      }
  }

  // ----------------------------------------------------------------- counting

  function Count(p: Happening -> bool, log: seq<Happening>): nat {
    if log == [] then 0
    else Count(p, log[..|log| - 1]) + if p(log[|log| - 1]) then 1 else 0
  }

  lemma {:induction false} CountOne(p: Happening -> bool, log: seq<Happening>, h: Happening)
    ensures Count(p, log + [h]) == Count(p, log) + if p(h) then 1 else 0
  {
    assert (log + [h])[..|log|] == log;
  }

  lemma {:induction false} CountNone(p: Happening -> bool, log: seq<Happening>)
    requires forall i :: 0 <= i < |log| ==> !p(log[i])
    ensures Count(p, log) == 0
  {
    if log != [] {
      CountNone(p, log[..|log| - 1]);
    }
  }

  function SpentOn(c: int): Happening -> bool {
    (h: Happening) => (h.Missed? || h.Lapsed?) && h.created == c
  }

  function MissedIn(a: int, b: int): Happening -> bool {
    (h: Happening) => h.Missed? && a <= h.at <= b
  }

  function RedeemedIn(a: int, b: int): Happening -> bool {
    (h: Happening) => h.Redeemed? && a <= h.at <= b
  }

  function IsConfirmed(): Happening -> bool {
    (h: Happening) => h.Confirmed?
  }

  function IsRedeemed(): Happening -> bool {
    (h: Happening) => h.Redeemed?
  }

  /** How many rows were created between two times, ends included. */
  function RowsIn(rows: seq<Row>, a: int, b: int): nat {
    if rows == [] then 0
    else RowsIn(Older(rows), a, b) + if a <= Youngest(rows).created <= b then 1 else 0
  }

  function VerifiedRows(rows: seq<Row>): nat {
    if rows == [] then 0
    else VerifiedRows(Older(rows)) + if Youngest(rows).verified then 1 else 0
  }

  lemma {:induction false} RowsInOne(rows: seq<Row>, row: Row, a: int, b: int)
    ensures RowsIn(rows + [row], a, b)
         == RowsIn(rows, a, b) + if a <= row.created <= b then 1 else 0
    ensures VerifiedRows(rows + [row]) == VerifiedRows(rows) + if row.verified then 1 else 0
  {
    assert Older(rows + [row]) == rows;
  }

  lemma {:induction false} RowsInAtMost(rows: seq<Row>, a: int, b: int, since: int)
    requires since <= a
    ensures RowsIn(rows, a, b) <= RowsSince(rows, since)
  {
    if rows != [] {
      RowsInAtMost(Older(rows), a, b, since);
    }
  }

  // ------------------------------------------------------ rows and their order

  ghost predicate RowsFine(rows: seq<Row>, clock: int) {
    && Rising(rows)
    && forall i :: 0 <= i < |rows| ==>
         rows[i].created <= clock && rows[i].expires == rows[i].created + LIFETIME
  }

  lemma {:induction false} RowsStayFine(s: State, move: Move, clock: int, now: int)
    requires RowsFine(s.rows, clock) && clock < now && Possible(s, move, now)
    ensures RowsFine(Moved(s, move, now).rows, now)
  {
  }

  // -------------------------------------------------------- window invariant

  /** Any closed quarter of an hour holds at most three rows. */
  ghost predicate Windowed(rows: seq<Row>) {
    forall a, b :: b - a <= WINDOW ==> RowsIn(rows, a, b) <= MAX_ROWS
  }

  lemma {:induction false} WindowStays(s: State, move: Move, clock: int, now: int)
    requires RowsFine(s.rows, clock) && Windowed(s.rows)
    requires clock < now && Possible(s, move, now)
    ensures Windowed(Moved(s, move, now).rows)
  {
    var rows := Moved(s, move, now).rows;
    forall a, b | b - a <= WINDOW ensures RowsIn(rows, a, b) <= MAX_ROWS {
      assert RowsIn(s.rows, a, b) <= MAX_ROWS;
      match move
      case Stay =>
      case Add(digest) =>
        RowsInOne(s.rows, NewRow(digest, now), a, b);
        if a <= now <= b {
          RowsInAtMost(s.rows, a, b, now - WINDOW);
        }
      case Burn => RowsInOne(Older(s.rows), Tried(Youngest(s.rows)), a, b);
      case Confirm => RowsInOne(Older(s.rows), Tried(Youngest(s.rows)).(verified := true), a, b);
      case Redeem =>
      case RedeemAtOnce =>
    }
  }

  // ------------------------------------------------------------- conservation

  /** Each committed verification is a verified row or a completed reset. */
  ghost predicate Conserved(s: State) {
    Count(IsConfirmed(), s.log) == VerifiedRows(s.rows) + Count(IsRedeemed(), s.log)
  }

  lemma {:induction false} ConservedStays(s: State, move: Move, now: int)
    requires Conserved(s) && Possible(s, move, now)
    ensures Conserved(Moved(s, move, now))
  {
    hide Count;
    var after := Moved(s, move, now);
    if move == RedeemAtOnce {
      var c := Youngest(s.rows).created;
      assert after.log == (s.log + [Confirmed(c, now)]) + [Redeemed(c, now)];
      CountOne(IsConfirmed(), s.log, Confirmed(c, now));
      CountOne(IsRedeemed(), s.log, Confirmed(c, now));
      CountOne(IsConfirmed(), s.log + [Confirmed(c, now)], Redeemed(c, now));
      CountOne(IsRedeemed(), s.log + [Confirmed(c, now)], Redeemed(c, now));
    } else if move != Stay {
      var h := after.log[|s.log|];
      CountOne(IsConfirmed(), s.log, h);
      CountOne(IsRedeemed(), s.log, h);
      if move.Add? {
        RowsInOne(s.rows, NewRow(move.digest, now), 0, 0);
      } else if move != Redeem {
        RowsInOne(Older(s.rows), Youngest(after.rows), 0, 0);
      }
    }
  }

  // ----------------------------------------------------------------- attempts

  /** A row's counter is exactly the attempts spent on it, and one for its match. */
  ghost predicate RowAccounted(row: Row, log: seq<Happening>) {
    && row.attempts == Count(SpentOn(row.created), log) + (if row.verified then 1 else 0)
    && row.attempts <= MAX_ATTEMPTS
  }

  ghost predicate HasRow(rows: seq<Row>, c: int) {
    exists i :: 0 <= i < |rows| && rows[i].created == c
  }

  ghost predicate RedeemedLater(log: seq<Happening>, c: int, at: int) {
    exists i :: 0 <= i < |log| && log[i].Redeemed? && log[i].created == c && at <= log[i].at
  }

  /** Where each entry of the history points. */
  ghost predicate Placed(h: Happening, s: State, clock: int) {
    && h.created <= clock
    && (!h.Issued? ==> h.at <= clock)
    && (h.Missed? ==> h.created <= h.at <= h.created + LIFETIME)
    && (h.Missed? ==> HasRow(s.rows, h.created) || RedeemedLater(s.log, h.created, h.at))
    && (h.Redeemed? ==> Count(SpentOn(h.created), s.log) < MAX_ATTEMPTS)
    && (h.Redeemed? ==> !HasRow(s.rows, h.created))
  }

  ghost predicate Accounted(s: State, clock: int) {
    && (forall i :: 0 <= i < |s.rows| ==> RowAccounted(s.rows[i], s.log))
    && (forall i :: 0 <= i < |s.log| ==> Placed(s.log[i], s, clock))
  }

  ghost predicate Inv(s: State, clock: int) {
    RowsFine(s.rows, clock) && Windowed(s.rows) && Conserved(s) && Accounted(s, clock)
  }
  lemma {:induction false} RowsStayAccounted(s: State, move: Move, clock: int, now: int)
    requires RowsFine(s.rows, clock) && Accounted(s, clock)
    requires clock < now && Possible(s, move, now)
    ensures var after := Moved(s, move, now);
            forall i :: 0 <= i < |after.rows| ==> RowAccounted(after.rows[i], after.log)
  {
    var after := Moved(s, move, now);
    forall i | 0 <= i < |after.rows| ensures RowAccounted(after.rows[i], after.log) {
      var c := after.rows[i].created;
      SpentAfter(s, move, now, c);
      if i < |s.rows| {
        assert RowAccounted(s.rows[i], s.log);
        assert after.rows[i].created == s.rows[i].created;
      } else {
        NothingSpentYet(s, clock, now);
      }
    }
  }

  /** Only a burnt attempt counts against a row, and only against the youngest. */
  lemma {:induction false} SpentAfter(s: State, move: Move, now: int, c: int)
    requires Possible(s, move, now)
    ensures Count(SpentOn(c), Moved(s, move, now).log)
         == Count(SpentOn(c), s.log)
            + if move.Burn? && Youngest(s.rows).created == c then 1 else 0
  {
    hide Count;
    var after := Moved(s, move, now);
    if move == RedeemAtOnce {
      var y := Youngest(s.rows).created;
      CountOne(SpentOn(c), s.log, Confirmed(y, now));
      CountOne(SpentOn(c), s.log + [Confirmed(y, now)], Redeemed(y, now));
      assert after.log == (s.log + [Confirmed(y, now)]) + [Redeemed(y, now)];
    } else if move != Stay {
      CountOne(SpentOn(c), s.log, after.log[|s.log|]);
    }
  }

  lemma {:induction false} NothingSpentYet(s: State, clock: int, now: int)
    requires Accounted(s, clock) && clock < now
    ensures Count(SpentOn(now), s.log) == 0
  {
    forall i | 0 <= i < |s.log| ensures !SpentOn(now)(s.log[i]) {
      assert Placed(s.log[i], s, clock);
    }
    CountNone(SpentOn(now), s.log);
  }

  /** Which creation times the rows hold after a move. */
  lemma {:induction false} HasRowAfter(s: State, move: Move, clock: int, now: int, c: int)
    requires RowsFine(s.rows, clock) && clock < now && Possible(s, move, now)
    ensures HasRow(Moved(s, move, now).rows, c) <==>
            || (HasRow(s.rows, c)
                && !((move.Redeem? || move.RedeemAtOnce?) && c == Youngest(s.rows).created))
            || (move.Add? && c == now)
  {
    var after := Moved(s, move, now).rows;
    if HasRow(s.rows, c) {
      var i :| 0 <= i < |s.rows| && s.rows[i].created == c;
      if i < |after| {
        assert after[i].created == c;
      }
    }
    if move.Add? {
      assert after[|s.rows|].created == now;
    }
    if HasRow(after, c) {
      var i :| 0 <= i < |after| && after[i].created == c;
      if i < |s.rows| {
        assert s.rows[i].created == c;
      }
    }
  }

  lemma {:induction false} OldStaysPlaced(s: State, move: Move, clock: int, now: int, h: Happening)
    requires RowsFine(s.rows, clock) && clock < now && Possible(s, move, now)
    requires Placed(h, s, clock)
    ensures Placed(h, Moved(s, move, now), now)
  {
    var after := Moved(s, move, now);
    HasRowAfter(s, move, clock, now, h.created);
    SpentAfter(s, move, now, h.created);
    if h.Missed? {
      if HasRow(s.rows, h.created) {
        if !HasRow(after.rows, h.created) {
          assert after.log[|after.log| - 1] == Redeemed(h.created, now);
        }
      } else {
        var i :| 0 <= i < |s.log| && s.log[i].Redeemed? && s.log[i].created == h.created
                 && h.at <= s.log[i].at;
        assert after.log[i] == s.log[i];
      }
    }
    if h.Redeemed? && move.Burn? {
      assert s.rows[|s.rows| - 1].created == Youngest(s.rows).created;
    }
  }

  lemma {:induction false} NewIsPlaced(s: State, move: Move, clock: int, now: int, k: nat)
    requires RowsFine(s.rows, clock) && Accounted(s, clock)
    requires clock < now && Possible(s, move, now)
    requires |s.log| <= k < |Moved(s, move, now).log|
    ensures Placed(Moved(s, move, now).log[k], Moved(s, move, now), now)
  {
    var after := Moved(s, move, now);
    if !move.Add? {
      var row := Youngest(s.rows);
      assert RowAccounted(s.rows[|s.rows| - 1], s.log);
      HasRowAfter(s, move, clock, now, row.created);
      SpentAfter(s, move, now, row.created);
      assert s.rows[|s.rows| - 1].created == row.created;
    }
  }

  lemma {:induction false} StaysAccounted(s: State, move: Move, clock: int, now: int)
    requires RowsFine(s.rows, clock) && Accounted(s, clock)
    requires clock < now && Possible(s, move, now)
    ensures Accounted(Moved(s, move, now), now)
  {
    var after := Moved(s, move, now);
    RowsStayAccounted(s, move, clock, now);
    forall k | 0 <= k < |after.log| ensures Placed(after.log[k], after, now) {
      if k < |s.log| {
        OldStaysPlaced(s, move, clock, now, s.log[k]);
      } else {
        NewIsPlaced(s, move, clock, now, k);
      }
    }
  }

  lemma {:induction false} RunKeepsInv(requests: seq<Timed>, clock: int)
    requires InOrder(requests)
    requires forall i :: 0 <= i < |requests| ==> requests[i].at <= clock
    ensures Inv(Run(requests), clock)
    decreases |requests|
  {
    if requests != [] {
      var n := |requests| - 1;
      var last := requests[n];
      var s := Run(requests[..n]);
      RunKeepsInv(requests[..n], last.at - 1);
      var move := ActMoves(s, last.request, last.at);
      RowsStayFine(s, move, last.at - 1, last.at);
      WindowStays(s, move, last.at - 1, last.at);
      ConservedStays(s, move, last.at);
      StaysAccounted(s, move, last.at - 1, last.at);
      LaterInv(Run(requests), last.at, clock);
    }
  }

  lemma {:induction false} LaterInv(s: State, clock: int, later: int)
    requires Inv(s, clock) && clock <= later
    ensures Inv(s, later)
  {
    forall i | 0 <= i < |s.log| ensures Placed(s.log[i], s, later) {
      assert Placed(s.log[i], s, clock);
    }
  }

  // --------------------------------------------------------------- guess bound

  /** The attempts spent on a list of codes. */
  function SpentOnAll(log: seq<Happening>, codes: seq<int>): nat {
    if codes == [] then 0
    else SpentOnAll(log, codes[..|codes| - 1]) + Count(SpentOn(codes[|codes| - 1]), log)
  }

  lemma {:induction false} SpentOnAllAppend(log: seq<Happening>, a: seq<int>, b: seq<int>)
    ensures SpentOnAll(log, a + b) == SpentOnAll(log, a) + SpentOnAll(log, b)
    decreases |b|
  {
    if b == [] {
      assert a + b == a;
    } else {
      assert (a + b)[..|a + b| - 1] == a + b[..|b| - 1];
      SpentOnAllAppend(log, a, b[..|b| - 1]);
    }
  }

  lemma {:induction false} SpentOnAllGrows(log: seq<Happening>, h: Happening, codes: seq<int>)
    ensures SpentOnAll(log + [h], codes) >= SpentOnAll(log, codes)
    ensures (h.Missed? && h.created in codes) ==>
              SpentOnAll(log + [h], codes) > SpentOnAll(log, codes)
    decreases |codes|
  {
    if codes != [] {
      var c := codes[|codes| - 1];
      SpentOnAllGrows(log, h, codes[..|codes| - 1]);
      CountOne(SpentOn(c), log, h);
      if h.created in codes && h.created != c {
        assert h.created in codes[..|codes| - 1];
      }
    }
  }

  /** Guesses in an interval are attempts spent on the codes guessed in it. */
  lemma {:induction false} GuessesCovered(log: seq<Happening>, a: int, b: int, codes: seq<int>)
    requires forall i :: 0 <= i < |log| && MissedIn(a, b)(log[i]) ==> log[i].created in codes
    ensures Count(MissedIn(a, b), log) <= SpentOnAll(log, codes)
    decreases |log|
  {
    if log != [] {
      var n := |log| - 1;
      assert log == log[..n] + [log[n]];
      GuessesCovered(log[..n], a, b, codes);
      SpentOnAllGrows(log[..n], log[n], codes);
    }
  }

  lemma {:induction false} SpentAtMost(log: seq<Happening>, codes: seq<int>, most: nat)
    requires forall i :: 0 <= i < |codes| ==> Count(SpentOn(codes[i]), log) <= most
    ensures SpentOnAll(log, codes) <= most * |codes|
    decreases |codes|
  {
    if codes != [] {
      var n := |codes| - 1;
      SpentAtMost(log, codes[..n], most);
      assert most * (n + 1) == most * n + most;
    }
  }

  function CodesIn(rows: seq<Row>, a: int, b: int): (codes: seq<int>)
    ensures |codes| == RowsIn(rows, a, b)
  {
    if rows == [] then []
    else CodesIn(Older(rows), a, b)
         + if a <= Youngest(rows).created <= b then [Youngest(rows).created] else []
  }

  lemma {:induction false} CodesInAre(rows: seq<Row>, a: int, b: int)
    ensures forall i :: 0 <= i < |rows| && a <= rows[i].created <= b ==>
              rows[i].created in CodesIn(rows, a, b)
    ensures forall c :: c in CodesIn(rows, a, b) ==> HasRow(rows, c)
  {
    if rows != [] {
      CodesInAre(Older(rows), a, b);
      forall c | c in CodesIn(rows, a, b) ensures HasRow(rows, c) {
        if c in CodesIn(Older(rows), a, b) {
          var i :| 0 <= i < |Older(rows)| && Older(rows)[i].created == c;
          assert rows[i].created == c;
        } else {
          assert rows[|rows| - 1].created == c;
        }
      }
      forall i | 0 <= i < |rows| && a <= rows[i].created <= b
        ensures rows[i].created in CodesIn(rows, a, b)
      {
        if i < |rows| - 1 {
          assert Older(rows)[i] == rows[i];
        }
      }
    }
  }

  function CodesRedeemed(log: seq<Happening>, a: int, b: int): (codes: seq<int>)
    ensures |codes| == Count(RedeemedIn(a, b), log)
  {
    if log == [] then []
    else CodesRedeemed(log[..|log| - 1], a, b)
         + if RedeemedIn(a, b)(log[|log| - 1]) then [log[|log| - 1].created] else []
  }

  ghost predicate WasRedeemed(log: seq<Happening>, c: int) {
    exists i :: 0 <= i < |log| && log[i].Redeemed? && log[i].created == c
  }

  lemma {:induction false} CodesRedeemedAre(log: seq<Happening>, a: int, b: int)
    ensures forall i :: 0 <= i < |log| && RedeemedIn(a, b)(log[i]) ==>
              log[i].created in CodesRedeemed(log, a, b)
    ensures forall c :: c in CodesRedeemed(log, a, b) ==> WasRedeemed(log, c)
  {
    if log != [] {
      var n := |log| - 1;
      CodesRedeemedAre(log[..n], a, b);
      assert forall i :: 0 <= i < n ==> log[..n][i] == log[i];
      forall c | c in CodesRedeemed(log, a, b) ensures WasRedeemed(log, c) {
        if c in CodesRedeemed(log[..n], a, b) {
          var i :| 0 <= i < n && log[..n][i].Redeemed? && log[..n][i].created == c;
          assert log[i].Redeemed? && log[i].created == c;
        } else {
          assert log[n].Redeemed? && log[n].created == c;
        }
      }
    }
  }

  lemma {:induction false} RowCodesSpent(s: State, clock: int, a: int, b: int)
    requires Inv(s, clock) && b - a <= WINDOW
    ensures SpentOnAll(s.log, CodesIn(s.rows, a, b)) <= MAX_ATTEMPTS * MAX_ROWS
  {
    var codes := CodesIn(s.rows, a, b);
    CodesInAre(s.rows, a, b);
    forall i | 0 <= i < |codes| ensures Count(SpentOn(codes[i]), s.log) <= MAX_ATTEMPTS {
      assert codes[i] in codes && HasRow(s.rows, codes[i]);
      var j :| 0 <= j < |s.rows| && s.rows[j].created == codes[i];
      assert RowAccounted(s.rows[j], s.log);
    }
    SpentAtMost(s.log, codes, MAX_ATTEMPTS);
    assert RowsIn(s.rows, a, b) <= MAX_ROWS;
  }

  lemma {:induction false} RedeemedCodesSpent(s: State, clock: int, a: int, b: int)
    requires Inv(s, clock)
    ensures SpentOnAll(s.log, CodesRedeemed(s.log, a, b))
         <= (MAX_ATTEMPTS - 1) * Count(RedeemedIn(a, b), s.log)
  {
    var codes := CodesRedeemed(s.log, a, b);
    CodesRedeemedAre(s.log, a, b);
    forall i | 0 <= i < |codes| ensures Count(SpentOn(codes[i]), s.log) <= MAX_ATTEMPTS - 1 {
      assert codes[i] in codes && WasRedeemed(s.log, codes[i]);
      var j :| 0 <= j < |s.log| && s.log[j].Redeemed? && s.log[j].created == codes[i];
      assert Placed(s.log[j], s, clock);
    }
    SpentAtMost(s.log, codes, MAX_ATTEMPTS - 1);
  }

  /** A code guessed in the interval is live and recent, or was redeemed in it. */
  lemma {:induction false} GuessedCode(s: State, clock: int, a: int, b: int, i: nat)
    requires Inv(s, clock) && clock <= b
    requires i < |s.log| && MissedIn(a, b)(s.log[i])
    ensures s.log[i].created in CodesIn(s.rows, a - LIFETIME, b)
         || s.log[i].created in CodesRedeemed(s.log, a, b)
  {
    hide Count, CodesIn, CodesRedeemed, Windowed, Conserved;
    var h := s.log[i];
    assert Placed(h, s, clock);
    if HasRow(s.rows, h.created) {
      CodesInAre(s.rows, a - LIFETIME, b);
      var j :| 0 <= j < |s.rows| && s.rows[j].created == h.created;
      assert a - LIFETIME <= s.rows[j].created <= b;
    } else {
      CodesRedeemedAre(s.log, a, b);
      var j :| 0 <= j < |s.log| && s.log[j].Redeemed? && s.log[j].created == h.created
               && h.at <= s.log[j].at;
      assert Placed(s.log[j], s, clock);
      assert RedeemedIn(a, b)(s.log[j]);
    }
  }

  /** In a state no later than the end of the interval. */
  lemma {:induction false} GuessBoundNow(s: State, clock: int, a: int, b: int)
    requires Inv(s, clock) && clock <= b && b - a <= WINDOW - LIFETIME
    ensures Count(MissedIn(a, b), s.log)
         <= MAX_ATTEMPTS * MAX_ROWS + (MAX_ATTEMPTS - 1) * Count(RedeemedIn(a, b), s.log)
  {
    hide Inv, Count, SpentOnAll, CodesIn, CodesRedeemed, MissedIn, RedeemedIn;
    var live, gone := CodesIn(s.rows, a - LIFETIME, b), CodesRedeemed(s.log, a, b);
    forall i | 0 <= i < |s.log| && MissedIn(a, b)(s.log[i])
      ensures s.log[i].created in live + gone
    {
      GuessedCode(s, clock, a, b, i);
    }
    GuessesCovered(s.log, a, b, live + gone);
    SpentOnAllAppend(s.log, live, gone);
    RowCodesSpent(s, clock, a - LIFETIME, b);
    RedeemedCodesSpent(s, clock, a, b);
  }

  lemma {:induction false} LaterMoveUncounted(s: State, move: Move, now: int, a: int, b: int)
    requires Possible(s, move, now) && b < now
    ensures Count(MissedIn(a, b), Moved(s, move, now).log) == Count(MissedIn(a, b), s.log)
    ensures Count(RedeemedIn(a, b), Moved(s, move, now).log) == Count(RedeemedIn(a, b), s.log)
  {
    hide Count;
    var after := Moved(s, move, now);
    if move == RedeemAtOnce {
      var y := Youngest(s.rows).created;
      var log1 := s.log + [Confirmed(y, now)];
      assert after.log == log1 + [Redeemed(y, now)];
      CountOne(MissedIn(a, b), s.log, Confirmed(y, now));
      CountOne(MissedIn(a, b), log1, Redeemed(y, now));
      CountOne(RedeemedIn(a, b), s.log, Confirmed(y, now));
      CountOne(RedeemedIn(a, b), log1, Redeemed(y, now));
    } else if move != Stay {
      CountOne(MissedIn(a, b), s.log, after.log[|s.log|]);
      CountOne(RedeemedIn(a, b), s.log, after.log[|s.log|]);
    }
  }

  /** In any closed ten minutes of any run, at most fifteen wrong codes are compared,
      and four more for each reset completed in them. */
  lemma {:induction false} GuessBound(requests: seq<Timed>, a: int, b: int)
    requires InOrder(requests) && b - a <= 10 * MINUTE
    ensures Count(MissedIn(a, b), Run(requests).log)
         <= 15 + 4 * Count(RedeemedIn(a, b), Run(requests).log)
    decreases |requests|
  {
    if requests != [] {
      var n := |requests| - 1;
      var last := requests[n];
      if last.at <= b {
        RunKeepsInv(requests, b);
        GuessBoundNow(Run(requests), b, a, b);
      } else {
        GuessBound(requests[..n], a, b);
        var move := ActMoves(Run(requests[..n]), last.request, last.at);
        LaterMoveUncounted(Run(requests[..n]), move, last.at, a, b);
      }
    }
  }

  // ------------------------------------------------------------ the whole table

  /** The committed table after requests for any keys. */
  function TableAfter(requests: seq<Timed>): Table {
    if requests == [] then []
    else
      var last := requests[|requests| - 1];
      Handle(TableAfter(requests[..|requests| - 1]), last.request, last.at).0
  }

  function For(requests: seq<Timed>, key: Key): seq<Timed> {
    if requests == [] then []
    else For(requests[..|requests| - 1], key)
         + if requests[|requests| - 1].request.key == key then [requests[|requests| - 1]] else []
  }

  lemma {:induction false} ForInOrder(requests: seq<Timed>, key: Key)
    requires InOrder(requests)
    ensures InOrder(For(requests, key))
    ensures forall t :: t in For(requests, key) ==> t in requests
  {
    if requests != [] {
      var n := |requests| - 1;
      ForInOrder(requests[..n], key);
      var earlier := For(requests[..n], key);
      forall i | 0 <= i < |earlier| ensures earlier[i].at < requests[n].at {
        assert earlier[i] in requests[..n];
      }
    }
  }

  lemma {:induction false} RunOne(own: seq<Timed>, last: Timed)
    ensures Run(own + [last]) == Act(Run(own), last.request, last.at).0
  {
    assert (own + [last])[..|own|] == own;
  }

  lemma {:induction false} ForInv(requests: seq<Timed>, key: Key, clock: int)
    requires InOrder(requests)
    requires forall i :: 0 <= i < |requests| ==> requests[i].at <= clock
    ensures Inv(Run(For(requests, key)), clock)
  {
    var own := For(requests, key);
    ForInOrder(requests, key);
    forall i | 0 <= i < |own| ensures own[i].at <= clock {
      assert own[i] in requests;
    }
    RunKeepsInv(own, clock);
  }

  lemma {:induction false} OwnStep(table: Table, own: seq<Timed>, last: Timed, clock: int)
    requires Inv(Run(own), clock)
    requires RowsOf(table, last.request.key) == Run(own).rows
    ensures RowsOf(Handle(table, last.request, last.at).0, last.request.key)
         == Run(own + [last]).rows
  {
    var s := Run(own);
    assert State(s.rows, s.log) == s;
    HandleProjects(table, s.log, last.request, last.at);
    RunOne(own, last);
  }

  /** Every key's rows in the table are those of its own requests alone. */
  lemma {:induction false} KeysAreIndependent(requests: seq<Timed>, key: Key)
    requires InOrder(requests)
    ensures RowsOf(TableAfter(requests), key) == Run(For(requests, key)).rows
    decreases |requests|
  {
    hide Handle, Act, Inv;
    if requests != [] {
      var n := |requests| - 1;
      var last, table := requests[n], TableAfter(requests[..n]);
      KeysAreIndependent(requests[..n], key);
      if last.request.key == key {
        ForInv(requests[..n], key, last.at);
        OwnStep(table, For(requests[..n], key), last, last.at);
      } else {
        HandleLeavesOthers(table, last.request, last.at, key);
        assert For(requests[..n], key) + [] == For(requests[..n], key);
      }
    }
  }

  /** In every reachable table: at most three rows of a key in any closed quarter of
      an hour, and no row with more than five attempts; and of a key's history, each
      committed verification is a verified row still in the table or a completed
      reset, so there are never more resets than verifications. */
  lemma {:induction false} TableTheorem(requests: seq<Timed>, key: Key)
    requires InOrder(requests)
    ensures var rows := RowsOf(TableAfter(requests), key);
            var log := Run(For(requests, key)).log;
            && (forall a, b :: b - a <= WINDOW ==> RowsIn(rows, a, b) <= 3)
            && (forall i :: 0 <= i < |rows| ==>
                  && rows[i].attempts <= 5
                  && rows[i].attempts == Count(SpentOn(rows[i].created), log)
                                         + (if rows[i].verified then 1 else 0))
            && Count(IsConfirmed(), log) == VerifiedRows(rows) + Count(IsRedeemed(), log)
            && Count(IsRedeemed(), log) <= Count(IsConfirmed(), log)
  {
    KeysAreIndependent(requests, key);
    ForInv(requests, key, if requests == [] then 0 else requests[|requests| - 1].at);
  }

  /** The request tries this code against the key's newest row: at the endpoints that
      verify, or on the fly within a reset. */
  predicate Tries(request: Request, key: Key, digest: Digest) {
    match request
    case Issue(_, _, _) => false
    case Verify(k, d, _) => k == key && d == digest
    case Reset(k, code) => k == key && code == Some(digest)
  }

  /** A wrong or late code costs an attempt for good, although the request that spent it
      is answered with an error, wherever the code was tried. */
  lemma {:induction false} AttemptsAreDurable(requests: seq<Timed>, request: Request, key: Key,
        digest: Digest, now: int)
    requires InOrder(requests + [Timed(now, request)]) && Tries(request, key, digest)
    requires var rows := RowsOf(TableAfter(requests), key);
             && rows != [] && !Youngest(rows).verified && Youngest(rows).attempts < MAX_ATTEMPTS
             && (now > Youngest(rows).expires || digest != Youngest(rows).digest)
    ensures var rows := RowsOf(TableAfter(requests), key);
            var (after, result) := Handle(TableAfter(requests), request, now);
            && result.Denied?
            && RowsOf(after, key) == Older(rows) + [Tried(Youngest(rows))]
            && (forall other :: other != key ==>
                  RowsOf(after, other) == RowsOf(TableAfter(requests), other))
  {
    var all := requests + [Timed(now, request)];
    assert all[..|requests|] == requests;
    assert forall i :: 0 <= i < |requests| ==> all[i].at < all[|requests|].at;
    KeysAreIndependent(requests, key);
    ForInv(requests, key, now);
    HandleProjects(TableAfter(requests), [], request, now);
    forall other | other != key
      ensures RowsOf(Handle(TableAfter(requests), request, now).0, other)
           == RowsOf(TableAfter(requests), other)
    {
      HandleLeavesOthers(TableAfter(requests), request, now, other);
    }
    hide Handle, HandleVerify, HandleReset, TableAfter, For;
  }
}
