/** What each request for a one-time code comes to, in any reachable table, said of the
    rows of its key: whom it is fine for, what it is refused for, and what it leaves. */
module OtpExact {
  import opened Text
  import opened Otp
  import opened OtpTheory
  import opened OtpRuns

  /** The rows of a key after requests, in the order of their creation. */
  function RowsAfter(requests: seq<Timed>, key: Key): seq<Row> {
    RowsOf(TableAfter(requests), key)
  }

  /** The newest row of the key becomes this. */
  function Renewed(rows: seq<Row>, row: Row): seq<Row>
    requires rows != []
  {
    rows[..|rows| - 1] + [row]
  }

  lemma {:induction false} Reached(requests: seq<Timed>, request: Request, now: int, other: Key)
    requires InOrder(requests + [Timed(now, request)])
    ensures RowsFine(RowsAfter(requests, request.key), now)
    ensures var table := TableAfter(requests);
            && RowsOf(Handle(table, request, now).0, request.key)
               == Act(State(RowsAfter(requests, request.key), []), request, now).0.rows
            && Handle(table, request, now).1
               == Act(State(RowsAfter(requests, request.key), []), request, now).1
            && (other != request.key ==>
                  RowsOf(Handle(table, request, now).0, other) == RowsAfter(requests, other))
  {
    var all := requests + [Timed(now, request)];
    assert all[..|requests|] == requests;
    assert forall i :: 0 <= i < |requests| ==> all[i].at < all[|requests|].at;
    KeysAreIndependent(requests, request.key);
    ForInv(requests, request.key, now);
    HandleProjects(TableAfter(requests), [], request, now);
    if other != request.key {
      HandleLeavesOthers(TableAfter(requests), request, now, other);
    }
    hide Handle, Act, TableAfter, For;
  }

  /** A code that is tried: refused without a trace when its row was locked or verified,
      refused for good when it is late or wrong, and confirmed when it is right and the
      token that comes with it is accepted. */
  lemma {:induction false} VerifyIsExact(requests: seq<Timed>, key: Key, digest: Digest,
        accepted: bool, now: int, other: Key)
    requires InOrder(requests + [Timed(now, Verify(key, digest, accepted))])
    ensures var rows := RowsAfter(requests, key);
            var (table, result) := Handle(TableAfter(requests), Verify(key, digest, accepted), now);
            var after := RowsOf(table, key);
            && (other != key ==> RowsOf(table, other) == RowsAfter(requests, other))
            && if rows == [] then result == Denied(NoCode) && after == []
               else
                 var row := rows[|rows| - 1];
                 var spent := row.(attempts := row.attempts + 1);
                 if row.attempts >= 5 then result == Denied(LockedOut) && after == rows
                 else if row.verified then result == Denied(Reused) && after == rows
                 else if now > row.expires then
                   result == Denied(Expired) && after == Renewed(rows, spent)
                 else if digest != row.digest then
                   && result == Denied(if row.attempts == 4 then LockedOut else WrongCode)
                   && after == Renewed(rows, spent)
                 else if !accepted then result == Denied(TokenRejected) && after == rows
                 else result == Fine && after == Renewed(rows, spent.(verified := true))
  {
    Reached(requests, Verify(key, digest, accepted), now, other);
    hide Handle, TableAfter, RowsOf, RowsFine;
  }

  /** A reset: fine just when the newest code was verified, or is right and tried on the
      fly, and has not expired; then exactly its row is gone. */
  lemma {:induction false} ResetIsExact(requests: seq<Timed>, key: Key, code: Option<Digest>,
        now: int, other: Key)
    requires InOrder(requests + [Timed(now, Reset(key, code))])
    ensures var rows := RowsAfter(requests, key);
            var (table, result) := Handle(TableAfter(requests), Reset(key, code), now);
            var after := RowsOf(table, key);
            && (other != key ==> RowsOf(table, other) == RowsAfter(requests, other))
            && if rows == [] then result == Denied(NoRequest) && after == []
               else
                 var row := rows[|rows| - 1];
                 var spent := row.(attempts := row.attempts + 1);
                 if row.verified && now > row.expires then
                   result == Denied(Expired) && after == rows
                 else if row.verified then result == Fine && after == rows[..|rows| - 1]
                 else if code.None? then result == Denied(NeedCode) && after == rows
                 else if row.attempts >= 5 then result == Denied(LockedOut) && after == rows
                 else if now > row.expires then
                   result == Denied(Expired) && after == Renewed(rows, spent)
                 else if code.value != row.digest then
                   && result == Denied(if row.attempts == 4 then LockedOut else WrongCode)
                   && after == Renewed(rows, spent)
                 else result == Fine && after == rows[..|rows| - 1]
  {
    Reached(requests, Reset(key, code), now, other);
    hide Handle, TableAfter, RowsOf, RowsFine;
  }

  /** The rows created in the last quarter of an hour, its start included. */
  ghost function Recent(rows: seq<Row>, now: int): set<nat> {
    set i: nat | i < |rows| && rows[i].created >= now - 15 * 60_000_000
  }

  lemma {:induction false} RecentCounted(rows: seq<Row>, now: int)
    ensures RowsSince(rows, now - WINDOW) == |Recent(rows, now)|
  {
    if rows == [] {
      assert Recent(rows, now) == {};
    } else {
      var n := |rows| - 1;
      RecentCounted(rows[..n], now);
      assert Recent(rows, now)
          == Recent(rows[..n], now)
             + if rows[n].created >= now - 15 * 60_000_000 then {n} else {};
    }
  }

  /** A new code: refused just when three are recent already, or its mail is not sent, and
      then nothing is kept; otherwise good for five minutes, and untried. */
  lemma {:induction false} IssueIsExact(requests: seq<Timed>, key: Key, digest: Digest,
        mailed: bool, now: int, other: Key)
    requires InOrder(requests + [Timed(now, Issue(key, digest, mailed))])
    ensures var rows := RowsAfter(requests, key);
            var (table, result) := Handle(TableAfter(requests), Issue(key, digest, mailed), now);
            var after := RowsOf(table, key);
            && (other != key ==> RowsOf(table, other) == RowsAfter(requests, other))
            && if |Recent(rows, now)| >= 3 then result == Denied(TooMany) && after == rows
               else if !mailed then result == Denied(MailFailed) && after == rows
               else
                 && result == Fine
                 && after == rows + [Row(digest, now, now + 5 * 60_000_000, 0, false)]
  {
    Reached(requests, Issue(key, digest, mailed), now, other);
    RecentCounted(RowsAfter(requests, key), now);
    hide Handle, TableAfter, RowsOf, RowsFine, Recent, RowsSince;
  }

  /** What trying a code on a row leaves in its key's history when it is refused: nothing
      if the row was closed, and else that it came late, or was wrong. */
  function Refusal(row: Row, digest: Digest, now: int): seq<Happening> {
    if row.attempts >= 5 || row.verified then []
    else if now > row.expires then [Lapsed(row.created, now)]
    else if digest != row.digest then [Missed(row.created, now)]
    else []
  }

  /** What a request leaves in its key's history, by the newest row and by its answer. */
  function Traces(rows: seq<Row>, request: Request, fine: bool, now: int): seq<Happening> {
    match request
    case Issue(_, _, _) => if fine then [Issued(now)] else []
    case Verify(_, digest, _) =>
      if rows == [] then []
      else if fine then [Confirmed(rows[|rows| - 1].created, now)]
      else Refusal(rows[|rows| - 1], digest, now)
    case Reset(_, code) =>
      if rows == [] then []
      else
        var row := rows[|rows| - 1];
        if fine then
          (if row.verified then [] else [Confirmed(row.created, now)])
          + [Redeemed(row.created, now)]
        else if code.None? then []
        else Refusal(row, code.value, now)
  }

  /** The history of a key, of which the bounds on guesses and resets speak, says what
      its requests came to, and no request is missing from it. */
  lemma {:induction false} HistoryIsExact(requests: seq<Timed>, request: Request, now: int)
    requires InOrder(requests + [Timed(now, request)])
    ensures var key := request.key;
            var fine := Handle(TableAfter(requests), request, now).1 == Fine;
            Run(For(requests + [Timed(now, request)], key)).log
            == Run(For(requests, key)).log + Traces(RowsAfter(requests, key), request, fine, now)
  {
    Reached(requests, request, now, request.key);
    var key, all := request.key, requests + [Timed(now, request)];
    assert all[..|requests|] == requests;
    assert forall i :: 0 <= i < |requests| ==> all[i].at < all[|requests|].at;
    KeysAreIndependent(requests, key);
    RunOne(For(requests, key), Timed(now, request));
    ActLogs(Run(For(requests, key)), request, now);
    assert For(all, key) == For(requests, key) + [Timed(now, request)];
    hide Handle, Act, TableAfter, RowsOf, RowsFine, Run, For, Traces;
  }

  /** The one-key machine does not look at the history. */
  lemma {:induction false} ActLogs(s: State, request: Request, now: int)
    ensures Act(s, request, now).0.log
         == s.log + Traces(s.rows, request, Act(s, request, now).1 == Fine, now)
    ensures Act(s, request, now).1 == Act(State(s.rows, []), request, now).1
  {
  }
}
