/** Usage reports: summaries and the fifteen-day breakdown conserve what was logged. */
module Usage {
  import opened Text
  import opened Tenant
  import opened TenantRuns

  // Times are integers in microseconds; dates are days since the epoch, in UTC.
  const DAY := 86_400_000_000

  /** The day a time falls on, its first microsecond included and the next day's not. */
  function DateOf(time: int): (date: int)
    ensures 24 * 3600 * 1_000_000 * date <= time < 24 * 3600 * 1_000_000 * (date + 1)
  {
    time / DAY
  }

  /** Whose logs a caller sees. */
  datatype Scope = Everyone | Organisation(org: Id) | Own(user: Id)

  function ScopeOf(caller: Claim, filter: Option<Id>): Scope {
    if caller.role == "platform_admin" then
      if filter.Some? && filter.value != "" then Organisation(filter.value) else Everyone
    else if caller.role == "org_admin" then Organisation(caller.org)
    else Own(caller.user)
  }

  predicate InScope(scope: Scope, log: Log) {
    match scope
    case Everyone => true
    case Organisation(org) => log.org == org
    case Own(user) => log.user == Some(user)
  }

  type Filter = Log -> bool

  /** The logs of a scope created between two times, ends included. */
  function Selecting(scope: Scope, from: int, to: int): Filter {
    (l: Log) => InScope(scope, l) && from <= l.created <= to
  }

  datatype Summary = Summary(requests: int, prompt: int, completion: int, total: int)

  const NONE := Summary(0, 0, 0, 0)

  function Plus(a: Summary, b: Summary): Summary {
    Summary(a.requests + b.requests, a.prompt + b.prompt, a.completion + b.completion,
            a.total + b.total)
  }

  function OneLog(log: Log): Summary {
    Summary(1, log.prompt, log.completion, log.total)
  }

  /** `get_usage_summary`: the counts and sums of the selected rows, 0 when none. */
  function Summarise(filter: Filter, logs: seq<Log>): Summary {
    if logs == [] then NONE
    else
      Plus(Summarise(filter, logs[..|logs| - 1]),
           if filter(logs[|logs| - 1]) then OneLog(logs[|logs| - 1]) else NONE)
  }

  lemma {:induction false} SummariseTake(filter: Filter, logs: seq<Log>, i: nat)
    requires i < |logs|
    ensures Summarise(filter, logs[..i + 1])
         == Plus(Summarise(filter, logs[..i]), if filter(logs[i]) then OneLog(logs[i]) else NONE)
  {
    assert logs[..i + 1][..i] == logs[..i];
  }

  /** The sum of a quantity over the logs. */
  function Sum(quantity: Log -> int, logs: seq<Log>): int {
    if logs == [] then 0 else quantity(logs[0]) + Sum(quantity, logs[1..])
  }

  lemma {:induction false} SumAppend(quantity: Log -> int, logs: seq<Log>, log: Log)
    ensures Sum(quantity, logs + [log]) == Sum(quantity, logs) + quantity(log)
  {
    if logs == [] {
      assert logs + [log] == [log] && [log][1..] == [];
    } else {
      assert (logs + [log])[1..] == logs[1..] + [log];
      SumAppend(quantity, logs[1..], log);
    }
  }

  function Where(filter: Filter, quantity: Log -> int): Log -> int {
    (l: Log) => if filter(l) then quantity(l) else 0
  }

  /** Each figure of a summary is the sum of its own column over the selected logs. */
  lemma {:induction false} SummaryIsSums(filter: Filter, logs: seq<Log>)
    ensures Summarise(filter, logs).requests == Sum(Where(filter, (l: Log) => 1), logs)
    ensures Summarise(filter, logs).prompt == Sum(Where(filter, (l: Log) => l.prompt), logs)
    ensures Summarise(filter, logs).completion == Sum(Where(filter, (l: Log) => l.completion), logs)
    ensures Summarise(filter, logs).total == Sum(Where(filter, (l: Log) => l.total), logs)
  {
    hide Sum;
    if logs == [] {
      NoSum(Where(filter, (l: Log) => 1));
      NoSum(Where(filter, (l: Log) => l.prompt));
      NoSum(Where(filter, (l: Log) => l.completion));
      NoSum(Where(filter, (l: Log) => l.total));
    } else {
      var n := |logs| - 1;
      SummaryIsSums(filter, logs[..n]);
      assert logs == logs[..n] + [logs[n]];
      SumAppend(Where(filter, (l: Log) => 1), logs[..n], logs[n]);
      SumAppend(Where(filter, (l: Log) => l.prompt), logs[..n], logs[n]);
      SumAppend(Where(filter, (l: Log) => l.completion), logs[..n], logs[n]);
      SumAppend(Where(filter, (l: Log) => l.total), logs[..n], logs[n]);
    }
  }

  lemma {:induction false} NoSum(quantity: Log -> int)
    ensures Sum(quantity, []) == 0
  {
  }

  // ------------------------------------------------------------ conservation

  lemma {:induction false} SummariseSame(a: Filter, before: seq<Log>, b: Filter, after: seq<Log>)
    requires |before| == |after|
    requires forall i :: 0 <= i < |before| ==>
               && a(before[i]) == b(after[i]) && OneLog(before[i]) == OneLog(after[i])
    ensures Summarise(a, before) == Summarise(b, after)
    decreases |before|
  {
    if before != [] {
      var n := |before| - 1;
      SummariseSame(a, before[..n], b, after[..n]);
    }
  }

  lemma {:induction false} SummariseNone(filter: Filter, logs: seq<Log>)
    requires forall l :: l in logs ==> !filter(l)
    ensures Summarise(filter, logs) == NONE
    decreases |logs|
  {
    if logs != [] {
      var n := |logs| - 1;
      assert logs[n] in logs;
      forall l | l in logs[..n] ensures !filter(l) {
        assert l in logs;
      }
      SummariseNone(filter, logs[..n]);
    }
  }

  /** Deleting a user leaves every summary as it was, except that user's own, which
      becomes empty: the logs stay, without a name. */
  lemma {:induction false} DeletingUserConserves(db: Db, user: Id, scope: Scope, from: int, to: int)
    ensures Summarise(Selecting(scope, from, to), WithoutUser(db, user).logs)
         == if scope == Own(user) then NONE else Summarise(Selecting(scope, from, to), db.logs)
  {
    var after := WithoutUser(db, user).logs;
    var filter := Selecting(scope, from, to);
    assert |after| == |db.logs|;
    forall i | 0 <= i < |after|
      ensures OneLog(after[i]) == OneLog(db.logs[i])
      ensures filter(after[i]) == (filter(db.logs[i]) && scope != Own(user))
    {
      assert after[i] == NullifyKey(NullifyUser(db.logs[i], user), KeysBy(db, user));
    }
    if scope == Own(user) {
      SummariseNone(filter, after);
    } else {
      SummariseSame(filter, db.logs, filter, after);
    }
  }

  /** Revoking or deleting a key changes no summary at all. */
  lemma {:induction false} RevokingKeyConserves(db: Db, key: Id, scope: Scope, from: int, to: int)
    requires key in db.keys
    ensures Summarise(Selecting(scope, from, to), KeyRevoked(db, key).logs)
         == Summarise(Selecting(scope, from, to), db.logs)
  {
    var filter := Selecting(scope, from, to);
    SummariseSame(filter, db.logs, filter, KeyRevoked(db, key).logs);
  }

  // --------------------------------------------- totals add up at every scope

  ghost predicate Totalled(logs: seq<Log>) {
    forall l :: l in logs ==> l.total == l.prompt + l.completion
  }

  lemma {:induction false} StepTotalled(s: State, request: Request)
    requires Totalled(s.db.logs)
    ensures Totalled(Stored(s.db, request).logs)
  {
    if request.DeleteOrg? {
      KeepIs(OtherOrg(request.org), s.db.logs);
    }
    var after := Stored(s.db, request).logs;
    if request.DeleteUser? || request.RevokeKey? {
      forall i | 0 <= i < |after| ensures after[i].total == after[i].prompt + after[i].completion {
        assert s.db.logs[i] in s.db.logs;
      }
    }
  }

  lemma {:induction false} RunTotalled(s: State, requests: seq<Request>)
    requires Totalled(s.db.logs)
    ensures Totalled(Execute(s, requests).db.logs)
    decreases |requests|
  {
    if requests != [] {
      StepTotalled(s, requests[0]);
      RunTotalled(Step(s, requests[0]), requests[1..]);
    }
  }

  lemma {:induction false} SummaryAdds(filter: Filter, logs: seq<Log>)
    requires Totalled(logs)
    ensures var s := Summarise(filter, logs); s.total == s.prompt + s.completion
  {
    if logs != [] {
      assert logs[|logs| - 1] in logs;
      SummaryAdds(filter, logs[..|logs| - 1]);
    }
  }

  /** In every reachable database, for every caller and period: total = prompt + completion. */
  lemma {:induction false} TotalsAddUp(requests: seq<Request>, scope: Scope, from: int, to: int)
    ensures var s := Summarise(Selecting(scope, from, to), Execute(EMPTY, requests).db.logs);
            s.total == s.prompt + s.completion
  {
    RunTotalled(EMPTY, requests);
    SummaryAdds(Selecting(scope, from, to), Execute(EMPTY, requests).db.logs);
  }

  // ------------------------------------------------------------- who sees what

  /** In every reachable database, a caller with a claim once issued sees exactly the logs
      of the organisation written in the claim, and below an organisation admin only their
      own of them; a platform admin sees all, or those of the organisation asked for. The
      period is taken with both its ends. */
  lemma {:induction false} SeenWithinOrganisation(requests: seq<Request>, caller: Claim,
        filter: Option<Id>, from: int, to: int, log: Log)
    requires LegalRun(EMPTY, requests) && caller in Execute(EMPTY, requests).claims
    requires log in Execute(EMPTY, requests).db.logs
    ensures Selecting(ScopeOf(caller, filter), from, to)(log)
            <==> from <= log.created <= to
                 && if caller.role == "platform_admin" then
                      filter == None || filter.value == "" || log.org == filter.value
                    else log.org == caller.org
                         && (caller.role == "org_admin" || log.user == Some(caller.user))
  {
    ExecuteKeeps(EMPTY, requests);
    var s := Execute(EMPTY, requests);
    InLogs(s.db, log);
    LogInOwned(s.db, log);
    assert ClaimHolds(caller, s.db, s.minted);
  }

  // ---------------------------------------------------------- daily breakdown

  datatype DailyItem = DailyItem(date: int, requests: int, tokens: int)

  function OnDays(filter: Filter, first: int, last: int): Filter {
    (l: Log) => filter(l) && first <= DateOf(l.created) <= last
  }

  function OnDay(filter: Filter, logs: seq<Log>, date: int): Summary {
    Summarise(OnDays(filter, date, date), logs)
  }

  function LookedUp(rows: map<int, (int, int)>, date: int): (int, int) {
    if date in rows then rows[date] else (0, 0)
  }

  /** A date is a key just when something was selected on it, with count and sum. */
  ghost predicate Grouped(filter: Filter, logs: seq<Log>, rows: map<int, (int, int)>) {
    forall d :: (OnDay(filter, logs, d).requests, OnDay(filter, logs, d).total)
             == LookedUp(rows, d)
  }

  lemma {:induction false} OnDayTake(filter: Filter, logs: seq<Log>, i: nat, d: int)
    requires i < |logs|
    ensures OnDay(filter, logs[..i + 1], d)
         == Plus(OnDay(filter, logs[..i], d),
                 if filter(logs[i]) && DateOf(logs[i].created) == d then OneLog(logs[i]) else NONE)
  {
    SummariseTake(OnDays(filter, d, d), logs, i);
  }

  lemma {:induction false} GroupedNext(filter: Filter, logs: seq<Log>, i: nat,
        rows: map<int, (int, int)>, after: map<int, (int, int)>)
    requires i < |logs| && Grouped(filter, logs[..i], rows)
    requires var d := DateOf(logs[i].created);
             var (count, tokens) := LookedUp(rows, d);
             after == if filter(logs[i]) then rows[d := (count + 1, tokens + logs[i].total)] else rows
    ensures Grouped(filter, logs[..i + 1], after)
  {
    hide Summarise, OnDay, DateOf;
    forall d ensures (OnDay(filter, logs[..i + 1], d).requests, OnDay(filter, logs[..i + 1], d).total)
                  == LookedUp(after, d) {
      OnDayTake(filter, logs, i, d);
      assert (OnDay(filter, logs[..i], d).requests, OnDay(filter, logs[..i], d).total)
          == LookedUp(rows, d);
    }
  }

  /** The grouped query: date to request count and token sum. */
  method GroupByDate(filter: Filter, logs: seq<Log>) returns (rows: map<int, (int, int)>)
    ensures Grouped(filter, logs, rows)
  {
    rows := map[];
    for i := 0 to |logs|
      invariant Grouped(filter, logs[..i], rows)
    {
      ghost var before := rows;
      if filter(logs[i]) {
        var d := DateOf(logs[i].created);
        var (count, tokens) := LookedUp(rows, d);
        rows := rows[d := (count + 1, tokens + logs[i].total)];
      }
      GroupedNext(filter, logs, i, before, rows);
    }
    assert logs[..|logs|] == logs;
  }

  function SumItems(items: seq<DailyItem>): (int, int) {
    if items == [] then (0, 0)
    else
      var (requests, tokens) := SumItems(items[..|items| - 1]);
      (requests + items[|items| - 1].requests, tokens + items[|items| - 1].tokens)
  }

  lemma {:induction false} DaysAdd(filter: Filter, first: int, last: int, logs: seq<Log>)
    requires first <= last
    ensures Summarise(OnDays(filter, first, last), logs)
         == Plus(Summarise(OnDays(filter, first, last - 1), logs),
                 Summarise(OnDays(filter, last, last), logs))
  {
    if logs != [] {
      DaysAdd(filter, first, last, logs[..|logs| - 1]);
    }
  }

  /** Every log of the last fourteen days falls on one of the fifteen dates. */
  lemma {:induction false} NoneDropped(scope: Scope, now: int, logs: seq<Log>)
    ensures var filter := Selecting(scope, now - 14 * DAY, now);
            Summarise(OnDays(filter, DateOf(now) - 14, DateOf(now)), logs) == Summarise(filter, logs)
  {
    var filter := Selecting(scope, now - 14 * DAY, now);
    SummariseSame(OnDays(filter, DateOf(now) - 14, DateOf(now)), logs, filter, logs);
  }

  /** The output so far: consecutive dates from the first, each with its day's usage. */
  ghost predicate Listed(filter: Filter, logs: seq<Log>, first: int, output: seq<DailyItem>) {
    forall i :: 0 <= i < |output| ==> output[i] == ItemOf(filter, logs, first + i)
  }

  function ItemOf(filter: Filter, logs: seq<Log>, date: int): DailyItem {
    DailyItem(date, OnDay(filter, logs, date).requests, OnDay(filter, logs, date).total)
  }

  ghost predicate Summed(filter: Filter, logs: seq<Log>, first: int, output: seq<DailyItem>) {
    var s := Summarise(OnDays(filter, first, first + |output| - 1), logs);
    SumItems(output) == (s.requests, s.total)
  }

  lemma {:induction false} SummedNext(filter: Filter, logs: seq<Log>, first: int,
        output: seq<DailyItem>)
    requires Summed(filter, logs, first, output)
    ensures Summed(filter, logs, first, output + [ItemOf(filter, logs, first + |output|)])
  {
    DaysAdd(filter, first, first + |output|, logs);
    var more := output + [ItemOf(filter, logs, first + |output|)];
    assert more[..|more| - 1] == output;
  }

  lemma {:induction false} SummedNothing(filter: Filter, logs: seq<Log>, first: int)
    ensures Summed(filter, logs, first, [])
  {
    SummariseNone(OnDays(filter, first, first - 1), logs);
  }

  lemma {:induction false} DateBack(now: int, days: nat)
    ensures DateOf(now - days * DAY) == DateOf(now) - days
  {
  }

  /** What is looked up for the next date is that date's item. */
  lemma {:induction false} ListedNext(filter: Filter, logs: seq<Log>, rows: map<int, (int, int)>,
        first: int, output: seq<DailyItem>, date: int)
    requires Grouped(filter, logs, rows) && date == first + |output|
    requires Listed(filter, logs, first, output) && Summed(filter, logs, first, output)
    ensures var item := DailyItem(date, LookedUp(rows, date).0, LookedUp(rows, date).1);
            && Listed(filter, logs, first, output + [item])
            && Summed(filter, logs, first, output + [item])
  {
    hide Summarise, OnDay, SumItems, Summed;
    assert (OnDay(filter, logs, date).requests, OnDay(filter, logs, date).total)
        == LookedUp(rows, date);
    SummedNext(filter, logs, first, output);
  }

  /** `get_daily_usage`: fifteen consecutive dates, each with what was logged on it,
      whose totals are those of all visible logs of the period. */
  method GetDailyUsage(logs: seq<Log>, caller: Claim, orgFilter: Option<Id>, now: int)
    returns (output: seq<DailyItem>)
    ensures |output| == 15
    ensures var filter := Selecting(ScopeOf(caller, orgFilter), now - 14 * DAY, now);
            && (forall i :: 0 <= i < 15 ==>
                  output[i] == ItemOf(filter, logs, DateOf(now) - 14 + i))
            && SumItems(output) == (Summarise(filter, logs).requests, Summarise(filter, logs).total)
  {
    hide Summarise, OnDay, SumItems, Grouped, DateOf, ScopeOf;
    var filter := Selecting(ScopeOf(caller, orgFilter), now - 14 * DAY, now);
    ghost var start := DateOf(now) - 14;
    var rows := GroupByDate(filter, logs);
    output := [];
    SummedNothing(filter, logs, start);
    for i := 15 downto 0
      invariant |output| == 15 - i && Listed(filter, logs, start, output)
      invariant Summed(filter, logs, start, output)
    {
      var date := DateOf(now - i * DAY);
      DateBack(now, i);
      var (requests, tokens) := LookedUp(rows, date);
      ListedNext(filter, logs, rows, start, output, date);
      output := output + [DailyItem(date, requests, tokens)];
    }
    NoneDropped(ScopeOf(caller, orgFilter), now, logs);
  }
}
