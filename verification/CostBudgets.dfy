/** The cost meter's budgets: recording a call checks the budgets of its agent
    and raises each alert threshold once. */
module CostBudgets {
  import opened Text
  import opened CostReports
  import opened CostPricing

  datatype Period = Daily | Weekly | Monthly

  datatype Severity = Warning | Critical | Exceeded

  /** Budgets are numbered in the order of their creation, which is the order in
      which they are checked. */
  type BudgetId = nat

  /** Thresholds are in hundredths of a percent, amounts in the unit of costs. */
  datatype Budget = Budget(
    agent: string, amount: int, period: Period, thresholds: seq<int>, owner: Option<string>, tenant: Option<string>)

  datatype Alert = Alert(
    budget: BudgetId, agent: string, severity: Severity, threshold: int, spend: int, amount: int,
    owner: string, tenant: string)

  const FULL := 100_00

  function SeverityOf(threshold: int): Severity {
    if threshold >= FULL then Exceeded else if threshold >= 80_00 then Critical else Warning
  }

  /** Utilisation has reached a threshold: spend / amount * 100 >= threshold. */
  predicate Reached(spend: int, amount: int, threshold: int) {
    spend * FULL >= threshold * amount
  }

  /** The beginning of the period that contains a time. */
  type Calendar = (Period, Time) -> Time

  /** `_get_period_spend`: what the scope can see of the agent's records in the current period. */
  function PeriodSpend(records: seq<Record>, agent: string, since: Time, scope: Option<Scope>): int {
    if records == [] then 0
    else
      var n := |records| - 1;
      var r := records[n];
      PeriodSpend(records[..n], agent, since, scope)
      + if Visible(r, scope) && r.agent == Some(agent) && since <= r.time then r.cost else 0
  }

  method SumPeriod(records: seq<Record>, agent: string, since: Time, scope: Option<Scope>) returns (spend: int)
    ensures spend == PeriodSpend(records, agent, since, scope)
  {
    spend := 0;
    for i := 0 to |records|
      invariant spend == PeriodSpend(records[..i], agent, since, scope)
    {
      assert records[..i + 1][..i] == records[..i];
      var r := records[i];
      if Visible(r, scope) && r.agent == Some(agent) && since <= r.time {
        spend := spend + r.cost;
      }
    }
    assert records[..|records|] == records;
  }

  /** The spend a budget is checked against is the spend of the records that the
      filter selects for that agent and period in the same scope. */
  lemma {:induction false} PeriodSpendIsSelection(
    records: seq<Record>, agent: string, since: Time, scope: Option<Scope>)
    requires agent != ""
    ensures PeriodSpend(records, agent, since, scope) ==
            Selection(LoadRecords(records, scope), agent, "", Window(Some(since), None), Spend)
  {
    NothingSelected(agent, "", Spend);
    hide Selection, Visible;
    if records != [] {
      var n := |records| - 1;
      var r, w := records[n], Window(Some(since), None);
      var loaded := LoadRecords(records[..n], scope);
      PeriodSpendIsSelection(records[..n], agent, since, scope);
      assert records == records[..n] + [r];
      LoadAppend(records[..n], r, scope);
      if Visible(r, scope) {
        assert (loaded + [r])[..|loaded|] == loaded;
        SelectionStep(loaded + [r], agent, "", w, Spend);
      } else {
        assert loaded + [] == loaded;
      }
    }
  }

  predicate Matches(b: Budget, agent: string, scope: Scope) {
    b.agent == agent && b.owner == Some(scope.owner) && b.tenant == Some(scope.tenant)
  }

  /** How many alerts a budget and threshold have raised in a stretch of the alert list. */
  function Raised(alerts: seq<Alert>, id: BudgetId, threshold: int): nat {
    if alerts == [] then 0
    else
      var n := |alerts| - 1;
      Raised(alerts[..n], id, threshold) + if alerts[n].budget == id && alerts[n].threshold == threshold then 1 else 0
  }

  lemma RaisedAppend(alerts: seq<Alert>, a: Alert, id: BudgetId, threshold: int)
    ensures Raised(alerts + [a], id, threshold) ==
            Raised(alerts, id, threshold) + if a.budget == id && a.threshold == threshold then 1 else 0
  {
    assert (alerts + [a])[..|alerts|] == alerts;
  }

  lemma {:induction false} RaisedHasWitness(alerts: seq<Alert>, id: BudgetId, threshold: int)
    requires Raised(alerts, id, threshold) > 0
    ensures exists i :: 0 <= i < |alerts| && alerts[i].budget == id && alerts[i].threshold == threshold
  {
    var n := |alerts| - 1;
    if !(alerts[n].budget == id && alerts[n].threshold == threshold) {
      RaisedHasWitness(alerts[..n], id, threshold);
    }
  }

  lemma {:induction false} RaisedSplit(a: seq<Alert>, b: seq<Alert>, id: BudgetId, threshold: int)
    ensures Raised(a + b, id, threshold) == Raised(a, id, threshold) + Raised(b, id, threshold)
  {
    if b == [] {
      assert a + b == a;
    } else {
      var n := |b| - 1;
      assert (a + b)[..|a| + n] == a + b[..n];
      RaisedSplit(a, b[..n], id, threshold);
    }
  }

  // ---- One check as a function ----------------------------------------------------------------

  type FiredMap = map<BudgetId, set<int>>

  function FiredOf(fired: FiredMap, id: BudgetId): set<int> {
    if id in fired then fired[id] else {}
  }

  /** What a check writes: the alert list and the thresholds that have fired. */
  datatype Ledger = Ledger(alerts: seq<Alert>, fired: FiredMap)

  function AlertOf(id: BudgetId, b: Budget, spend: int, scope: Scope, threshold: int): Alert {
    Alert(id, b.agent, SeverityOf(threshold), threshold, spend, b.amount, scope.owner, scope.tenant)
  }

  predicate Fires(l: Ledger, id: BudgetId, b: Budget, spend: int, threshold: int) {
    Reached(spend, b.amount, threshold) && threshold !in FiredOf(l.fired, id)
  }

  function Crossed(l: Ledger, id: BudgetId, b: Budget, spend: int, scope: Scope, threshold: int): Ledger {
    if !Fires(l, id, b, spend, threshold) then l
    else Ledger(l.alerts + [AlertOf(id, b, spend, scope, threshold)],
                l.fired[id := FiredOf(l.fired, id) + {threshold}])
  }

  /** The first `k` thresholds of one budget. */
  function Checked(l: Ledger, id: BudgetId, b: Budget, spend: int, scope: Scope, k: nat): Ledger
    requires k <= |b.thresholds|
  {
    if k == 0 then l
    else Crossed(Checked(l, id, b, spend, scope, k - 1), id, b, spend, scope, b.thresholds[k - 1])
  }

  datatype Meter = Meter(
    records: seq<Record>, budgets: map<BudgetId, Budget>, alerts: seq<Alert>, fired: FiredMap, nextId: BudgetId)

  predicate Concerns(m: Meter, id: BudgetId, agent: string, scope: Scope) {
    id in m.budgets && Matches(m.budgets[id], agent, scope)
  }

  /** Spend of a budget's agent in its current period. */
  function SpendOf(calendar: Calendar, m: Meter, id: BudgetId, scope: Option<Scope>, now: Time): int
    requires id in m.budgets
  {
    PeriodSpend(m.records, m.budgets[id].agent, calendar(m.budgets[id].period, now), scope)
  }

  /** All budgets with a number below `n`. */
  function Swept(calendar: Calendar, m: Meter, agent: string, scope: Scope, now: Time, n: nat): Ledger {
    if n == 0 then Ledger(m.alerts, m.fired)
    else
      var l := Swept(calendar, m, agent, scope, now, n - 1);
      if Concerns(m, n - 1, agent, scope) then
        var b := m.budgets[n - 1];
        Checked(l, n - 1, b, SpendOf(calendar, m, n - 1, Some(scope), now), scope, |b.thresholds|)
      else l
  }

  // ---- The operations as functions of the meter --------------------------------------------------

  /** `Hydrate` puts one rule as it is in the database into the meter; unlike an
      update it re-arms nothing. */
  datatype Event =
    | Create(budget: Budget)
    | Hydrate(id: BudgetId, budget: Budget)
    | Update(id: BudgetId, amount: Option<int>, period: Option<Period>, thresholds: Option<seq<int>>)
    | Call(model: string, prompt: nat, completion: nat, agent: Option<string>, scope: Option<Scope>, now: Time)

  function Updated(b: Budget, amount: Option<int>, period: Option<Period>, thresholds: Option<seq<int>>): Budget {
    b.(amount := if amount.Some? then amount.value else b.amount,
       period := if period.Some? then period.value else b.period,
       thresholds := if thresholds.Some? then thresholds.value else b.thresholds)
  }

  function RecordOf(e: Event): Record
    requires e.Call?
  {
    Record(e.agent, e.model, e.prompt, e.completion, e.prompt + e.completion,
           CalculateCost(e.model, e.prompt, e.completion), e.now,
           if e.scope.Some? then Some(e.scope.value.owner) else None,
           if e.scope.Some? then Some(e.scope.value.tenant) else None)
  }

  /** The call names an agent and a scope, so budgets are checked. */
  predicate Checks(e: Event) {
    e.Call? && e.agent.Some? && e.agent.value != "" && e.scope.Some?
  }

  function Recorded(m: Meter, e: Event): Meter
    requires e.Call?
  {
    m.(records := m.records + [RecordOf(e)])
  }

  function Step(calendar: Calendar, m: Meter, e: Event): Meter {
    match e
    case Create(b) => m.(budgets := m.budgets[m.nextId := b], nextId := m.nextId + 1)
    case Hydrate(id, b) => m.(budgets := m.budgets[id := b], nextId := if id < m.nextId then m.nextId else id + 1)
    case Update(id, amount, period, thresholds) =>
      if id !in m.budgets then m
      else m.(budgets := m.budgets[id := Updated(m.budgets[id], amount, period, thresholds)], fired := m.fired - {id})
    case Call(_, _, _, _, _, _) =>
      var recorded := Recorded(m, e);
      if !Checks(e) then recorded
      else
        var l := Swept(calendar, recorded, e.agent.value, e.scope.value, e.now, recorded.nextId);
        recorded.(alerts := l.alerts, fired := l.fired)
  }

  function Run(calendar: Calendar, m: Meter, events: seq<Event>): Meter {
    if events == [] then m
    else Step(calendar, Run(calendar, m, events[..|events| - 1]), events[|events| - 1])
  }

  /** Numbers are given once; only known budgets have fired thresholds, and every
      amount is positive. */
  predicate WellFormed(m: Meter) {
    && (forall id :: id in m.budgets ==> id < m.nextId && m.budgets[id].amount > 0)
    && m.fired.Keys <= m.budgets.Keys
  }

  /** Requests carry positive amounts. */
  predicate Admissible(e: Event) {
    match e
    case Create(b) => b.amount > 0
    case Hydrate(_, b) => b.amount > 0
    case Update(_, amount, _, _) => amount.Some? ==> amount.value > 0
    case Call(_, _, _, _, _, _) => true
  }

  // ---- What a check adds -----------------------------------------------------------------------------

  /** From one ledger to a later one, alerts are only added and thresholds only
      fire, and each budget and threshold raised one alert if it fired in
      between and none otherwise. */
  predicate Accounts(before: Ledger, after: Ledger, id: BudgetId, threshold: int) {
    && before.alerts <= after.alerts
    && FiredOf(before.fired, id) <= FiredOf(after.fired, id)
    && Raised(after.alerts, id, threshold) - Raised(before.alerts, id, threshold)
       == if threshold in FiredOf(after.fired, id) - FiredOf(before.fired, id) then 1 else 0
  }

  lemma CrossedAccounts(
    l: Ledger, budget: BudgetId, b: Budget, spend: int, scope: Scope, crossed: int, id: BudgetId, threshold: int)
    ensures Accounts(l, Crossed(l, budget, b, spend, scope, crossed), id, threshold)
  {
    RaisedAppend(l.alerts, AlertOf(budget, b, spend, scope, crossed), id, threshold);
  }

  lemma AccountsJoin(l1: Ledger, l2: Ledger, l3: Ledger, id: BudgetId, threshold: int)
    requires Accounts(l1, l2, id, threshold) && Accounts(l2, l3, id, threshold)
    ensures Accounts(l1, l3, id, threshold)
  {
  }

  lemma {:induction false} CheckedAccounts(
    l: Ledger, budget: BudgetId, b: Budget, spend: int, scope: Scope, k: nat, id: BudgetId, threshold: int)
    requires k <= |b.thresholds|
    ensures Accounts(l, Checked(l, budget, b, spend, scope, k), id, threshold)
  {
    if k > 0 {
      hide Accounts, Crossed;
      var before := Checked(l, budget, b, spend, scope, k - 1);
      CheckedAccounts(l, budget, b, spend, scope, k - 1, id, threshold);
      CrossedAccounts(before, budget, b, spend, scope, b.thresholds[k - 1], id, threshold);
      AccountsJoin(l, before, Checked(l, budget, b, spend, scope, k), id, threshold);
    }
  }

  lemma {:induction false} SweptAccounts(
    calendar: Calendar, m: Meter, agent: string, scope: Scope, now: Time, n: nat, id: BudgetId, threshold: int)
    ensures Accounts(Ledger(m.alerts, m.fired), Swept(calendar, m, agent, scope, now, n), id, threshold)
  {
    if n > 0 {
      hide Accounts, Checked;
      var start, before := Ledger(m.alerts, m.fired), Swept(calendar, m, agent, scope, now, n - 1);
      SweptAccounts(calendar, m, agent, scope, now, n - 1, id, threshold);
      if Concerns(m, n - 1, agent, scope) {
        var b := m.budgets[n - 1];
        var spend := SpendOf(calendar, m, n - 1, Some(scope), now);
        CheckedAccounts(before, n - 1, b, spend, scope, |b.thresholds|, id, threshold);
        AccountsJoin(start, before, Swept(calendar, m, agent, scope, now, n), id, threshold);
      }
    }
  }

  /** Other budgets are not touched. */
  lemma {:induction false} CheckedOthers(
    l: Ledger, budget: BudgetId, b: Budget, spend: int, scope: Scope, k: nat, id: BudgetId)
    requires k <= |b.thresholds| && id != budget
    ensures FiredOf(Checked(l, budget, b, spend, scope, k).fired, id) == FiredOf(l.fired, id)
  {
    if k > 0 {
      CheckedOthers(l, budget, b, spend, scope, k - 1, id);
    }
  }

  /** Afterwards every threshold reached has fired. */
  lemma {:induction false} CheckedFires(
    l: Ledger, id: BudgetId, b: Budget, spend: int, scope: Scope, k: nat, j: nat)
    requires j < k <= |b.thresholds| && Reached(spend, b.amount, b.thresholds[j])
    ensures b.thresholds[j] in FiredOf(Checked(l, id, b, spend, scope, k).fired, id)
  {
    if j < k - 1 {
      CheckedFires(l, id, b, spend, scope, k - 1, j);
    }
  }

  /** An alert that a check of this agent may raise now. */
  predicate Justified(calendar: Calendar, m: Meter, a: Alert, agent: string, scope: Scope, now: Time) {
    && Concerns(m, a.budget, agent, scope)
    && a == AlertOf(a.budget, m.budgets[a.budget], SpendOf(calendar, m, a.budget, Some(scope), now), scope, a.threshold)
    && a.threshold in m.budgets[a.budget].thresholds
    && Reached(a.spend, a.amount, a.threshold)
  }

  lemma {:induction false} CheckedAlerts(
    l: Ledger, id: BudgetId, b: Budget, spend: int, scope: Scope, k: nat, i: nat)
    requires k <= |b.thresholds| && |l.alerts| <= i < |Checked(l, id, b, spend, scope, k).alerts|
    ensures var a := Checked(l, id, b, spend, scope, k).alerts[i];
            && a == AlertOf(id, b, spend, scope, a.threshold)
            && a.threshold in b.thresholds && Reached(spend, b.amount, a.threshold)
  {
    if i < |Checked(l, id, b, spend, scope, k - 1).alerts| {
      CheckedAlerts(l, id, b, spend, scope, k - 1, i);
    }
  }

  lemma {:induction false} SweptAlerts(
    calendar: Calendar, m: Meter, agent: string, scope: Scope, now: Time, n: nat, i: nat)
    requires |m.alerts| <= i < |Swept(calendar, m, agent, scope, now, n).alerts|
    ensures Justified(calendar, m, Swept(calendar, m, agent, scope, now, n).alerts[i], agent, scope, now)
  {
    var before := Swept(calendar, m, agent, scope, now, n - 1);
    if Concerns(m, n - 1, agent, scope) {
      var b := m.budgets[n - 1];
      var spend := SpendOf(calendar, m, n - 1, Some(scope), now);
      CheckedAccounts(before, n - 1, b, spend, scope, |b.thresholds|, 0, 0);
      if i >= |before.alerts| {
        CheckedAlerts(before, n - 1, b, spend, scope, |b.thresholds|, i);
      }
    }
    if i < |before.alerts| {
      SweptAlerts(calendar, m, agent, scope, now, n - 1, i);
    }
  }

  /** Every threshold of the budget at or below its utilisation has fired. */
  predicate UpToDate(calendar: Calendar, m: Meter, fired: FiredMap, id: BudgetId, scope: Scope, now: Time)
    requires id in m.budgets
  {
    var b, spend := m.budgets[id], SpendOf(calendar, m, id, Some(scope), now);
    forall t :: t in b.thresholds && Reached(spend, b.amount, t) ==> t in FiredOf(fired, id)
  }

  lemma {:induction false} SweptUpToDate(
    calendar: Calendar, m: Meter, agent: string, scope: Scope, now: Time, n: nat, id: BudgetId)
    requires id < n && Concerns(m, id, agent, scope)
    ensures UpToDate(calendar, m, Swept(calendar, m, agent, scope, now, n).fired, id, scope, now)
  {
    var before, after := Swept(calendar, m, agent, scope, now, n - 1), Swept(calendar, m, agent, scope, now, n);
    var b, spend := m.budgets[id], SpendOf(calendar, m, id, Some(scope), now);
    if id == n - 1 {
      forall t | t in b.thresholds && Reached(spend, b.amount, t) ensures t in FiredOf(after.fired, id) {
        var j :| 0 <= j < |b.thresholds| && b.thresholds[j] == t;
        CheckedFires(before, id, b, spend, scope, |b.thresholds|, j);
      }
    } else {
      SweptUpToDate(calendar, m, agent, scope, now, n - 1, id);
      if Concerns(m, n - 1, agent, scope) {
        var other := m.budgets[n - 1];
        CheckedOthers(before, n - 1, other, SpendOf(calendar, m, n - 1, Some(scope), now), scope,
                      |other.thresholds|, id);
      }
    }
  }

  lemma {:induction false} SweptOthers(
    calendar: Calendar, m: Meter, agent: string, scope: Scope, now: Time, n: nat, id: BudgetId)
    requires !Concerns(m, id, agent, scope)
    ensures FiredOf(Swept(calendar, m, agent, scope, now, n).fired, id) == FiredOf(m.fired, id)
  {
    if n > 0 {
      SweptOthers(calendar, m, agent, scope, now, n - 1, id);
      if Concerns(m, n - 1, agent, scope) {
        var b := m.budgets[n - 1];
        CheckedOthers(Swept(calendar, m, agent, scope, now, n - 1), n - 1, b,
                      SpendOf(calendar, m, n - 1, Some(scope), now), scope, |b.thresholds|, id);
      }
    }
  }

  lemma {:induction false} SweptKnown(calendar: Calendar, m: Meter, agent: string, scope: Scope, now: Time, n: nat)
    requires m.fired.Keys <= m.budgets.Keys
    ensures Swept(calendar, m, agent, scope, now, n).fired.Keys <= m.budgets.Keys
  {
    if n > 0 {
      SweptKnown(calendar, m, agent, scope, now, n - 1);
      if Concerns(m, n - 1, agent, scope) {
        var b := m.budgets[n - 1];
        CheckedKnown(Swept(calendar, m, agent, scope, now, n - 1), n - 1, b,
                     SpendOf(calendar, m, n - 1, Some(scope), now), scope, |b.thresholds|);
      }
    }
  }

  lemma {:induction false} CheckedKnown(l: Ledger, id: BudgetId, b: Budget, spend: int, scope: Scope, k: nat)
    requires k <= |b.thresholds|
    ensures Checked(l, id, b, spend, scope, k).fired.Keys <= l.fired.Keys + {id}
  {
    if k > 0 {
      CheckedKnown(l, id, b, spend, scope, k - 1);
    }
  }

  // ---- Whole runs -----------------------------------------------------------------------------------

  lemma WellFormedStep(calendar: Calendar, m: Meter, e: Event)
    requires WellFormed(m) && Admissible(e)
    ensures WellFormed(Step(calendar, m, e))
  {
    if Checks(e) {
      var recorded := Recorded(m, e);
      SweptKnown(calendar, recorded, e.agent.value, e.scope.value, e.now, recorded.nextId);
    }
  }

  predicate Touches(e: Event, id: BudgetId) {
    e.Update? && e.id == id
  }

  function LedgerOf(m: Meter): Ledger {
    Ledger(m.alerts, m.fired)
  }

  lemma StepAccounts(calendar: Calendar, m: Meter, e: Event, id: BudgetId, threshold: int)
    requires !Touches(e, id)
    ensures Accounts(LedgerOf(m), LedgerOf(Step(calendar, m, e)), id, threshold)
  {
    hide Swept, Raised;
    if Checks(e) {
      var recorded := Recorded(m, e);
      SweptAccounts(calendar, recorded, e.agent.value, e.scope.value, e.now, recorded.nextId, id, threshold);
    }
  }

  lemma {:induction false} RunAccounts(calendar: Calendar, m: Meter, events: seq<Event>, id: BudgetId, threshold: int)
    requires forall e :: e in events ==> !Touches(e, id)
    ensures Accounts(LedgerOf(m), LedgerOf(Run(calendar, m, events)), id, threshold)
  {
    if events != [] {
      var n := |events| - 1;
      var before := Run(calendar, m, events[..n]);
      RunAccounts(calendar, m, events[..n], id, threshold);
      StepAccounts(calendar, before, events[n], id, threshold);
      AccountsJoin(LedgerOf(m), LedgerOf(before), LedgerOf(Run(calendar, m, events)), id, threshold);
    }
  }

  /** In every run of record, create, update and hydrate operations a budget and threshold
      raise at most one alert between two updates of that budget: exactly one if
      the threshold fired in between, and none otherwise. */
  lemma OneAlertBetweenUpdates(calendar: Calendar, m: Meter, events: seq<Event>, id: BudgetId, threshold: int)
    requires forall e :: e in events ==> !Touches(e, id)
    ensures var m' := Run(calendar, m, events);
            && m.alerts <= m'.alerts
            && Raised(m'.alerts[|m.alerts|..], id, threshold) ==
               if threshold in FiredOf(m'.fired, id) && threshold !in FiredOf(m.fired, id) then 1 else 0
  {
    RunAccounts(calendar, m, events, id, threshold);
    var m' := Run(calendar, m, events);
    assert m'.alerts == m.alerts + m'.alerts[|m.alerts|..];
    RaisedSplit(m.alerts, m'.alerts[|m.alerts|..], id, threshold);
  }

  /** An update re-arms its budget, and a new budget is armed. */
  lemma Armed(calendar: Calendar, m: Meter, e: Event, id: BudgetId)
    requires WellFormed(m)
    requires if e.Create? then id == m.nextId else Touches(e, id) && id in m.budgets
    ensures id in Step(calendar, m, e).budgets && FiredOf(Step(calendar, m, e).fired, id) == {}
  {
  }

  /** Alerts from a position on have the severity of their threshold. */
  predicate Graded(alerts: seq<Alert>, from: nat) {
    forall i :: from <= i < |alerts| ==> alerts[i].severity == SeverityOf(alerts[i].threshold)
  }

  lemma StepAlerts(calendar: Calendar, m: Meter, e: Event)
    ensures m.alerts <= Step(calendar, m, e).alerts
    ensures Graded(Step(calendar, m, e).alerts, |m.alerts|)
  {
    if Checks(e) {
      var recorded := Recorded(m, e);
      var l := Swept(calendar, recorded, e.agent.value, e.scope.value, e.now, recorded.nextId);
      SweptAccounts(calendar, recorded, e.agent.value, e.scope.value, e.now, recorded.nextId, 0, 0);
      forall i | |m.alerts| <= i < |l.alerts| ensures l.alerts[i].severity == SeverityOf(l.alerts[i].threshold) {
        SweptAlerts(calendar, recorded, e.agent.value, e.scope.value, e.now, recorded.nextId, i);
      }
    }
  }

  lemma {:induction false} RunKeepsShape(calendar: Calendar, m: Meter, events: seq<Event>)
    requires WellFormed(m) && forall e :: e in events ==> Admissible(e)
    ensures var m' := Run(calendar, m, events);
            WellFormed(m') && m.alerts <= m'.alerts && Graded(m'.alerts, |m.alerts|)
  {
    if events != [] {
      var n := |events| - 1;
      var before := Run(calendar, m, events[..n]);
      RunKeepsShape(calendar, m, events[..n]);
      WellFormedStep(calendar, before, events[n]);
      StepAlerts(calendar, before, events[n]);
    }
  }

  /** Right after a recorded call, with any operations but updates of the budget
      since it was armed, an exceeded budget with a full threshold has an
      EXCEEDED alert that was raised since then. */
  lemma ExceededHasAlert(calendar: Calendar, m: Meter, events: seq<Event>, call: Event, id: BudgetId)
    requires WellFormed(m) && FiredOf(m.fired, id) == {} && Checks(call)
    requires forall e :: e in events ==> Admissible(e) && !Touches(e, id)
    requires var m' := Run(calendar, m, events + [call]);
             && Concerns(m', id, call.agent.value, call.scope.value)
             && SpendOf(calendar, m', id, call.scope, call.now) >= m'.budgets[id].amount
             && FULL in m'.budgets[id].thresholds
    ensures var m' := Run(calendar, m, events + [call]);
            exists i :: |m.alerts| <= i < |m'.alerts| && m'.alerts[i].budget == id && m'.alerts[i].severity == Exceeded
  {
    var all := events + [call];
    var before, m' := Run(calendar, m, events), Run(calendar, m, all);
    assert all[..|all| - 1] == events && all[|all| - 1] == call;
    OneAlertBetweenUpdates(calendar, m, all, id, FULL);
    RunKeepsShape(calendar, m, all);
    var recorded := Recorded(before, call);
    SweptUpToDate(calendar, recorded, call.agent.value, call.scope.value, call.now, recorded.nextId, id);
    assert FULL in FiredOf(m'.fired, id);
    var recent := m'.alerts[|m.alerts|..];
    RaisedHasWitness(recent, id, FULL);
    var i :| 0 <= i < |recent| && recent[i].budget == id && recent[i].threshold == FULL;
    assert m'.alerts[|m.alerts| + i] == recent[i];
  }

  // ---- One call in plain terms -----------------------------------------------------------------------

  /** What the owner of a budget has spent through its agent in the current period,
      the new call included. */
  function SpentWith(calendar: Calendar, m: Meter, e: Event, b: Budget): int
    requires e.Call?
  {
    var loaded := LoadRecords(m.records + [RecordOf(e)], e.scope);
    Selection(loaded, b.agent, "", Window(Some(calendar(b.period, e.now)), None), Spend)
  }

  /** The call was made for the agent and the owner of the budget. */
  predicate MadeFor(e: Event, b: Budget) {
    && e.Call? && e.agent == Some(b.agent) && b.agent != "" && e.scope.Some?
    && b.owner == Some(e.scope.value.owner) && b.tenant == Some(e.scope.value.tenant)
  }

  lemma ConcernsIff(m: Meter, e: Event, id: BudgetId)
    requires e.Call? && id in m.budgets
    ensures MadeFor(e, m.budgets[id]) <==>
              Checks(e) && Concerns(Recorded(m, e), id, e.agent.value, e.scope.value)
  {
  }

  lemma SpentIs(calendar: Calendar, m: Meter, e: Event, id: BudgetId)
    requires e.Call? && id in m.budgets && m.budgets[id].agent != ""
    ensures SpendOf(calendar, Recorded(m, e), id, e.scope, e.now) == SpentWith(calendar, m, e, m.budgets[id])
  {
    var b := m.budgets[id];
    PeriodSpendIsSelection(m.records + [RecordOf(e)], b.agent, calendar(b.period, e.now), e.scope);
  }

  /** A recorded call marks exactly those thresholds of exactly those budgets of
      its agent and owner whose share of the amount has been spent, in hundredths
      of a percent; whatever was marked stays marked, and budgets of other agents
      and owners are as they were. */
  lemma CallMarksIff(calendar: Calendar, m: Meter, e: Event, id: BudgetId, t: int)
    requires e.Call? && WellFormed(m) && id in m.budgets
    ensures var b := m.budgets[id];
            t in FiredOf(Step(calendar, m, e).fired, id) <==>
              || t in FiredOf(m.fired, id)
              || (MadeFor(e, b) && t in b.thresholds && SpentWith(calendar, m, e, b) * 10000 >= t * b.amount)
  {
    hide SpentWith, SpendOf, Swept;
    ConcernsIff(m, e, id);
    if Checks(e) {
      var recorded, scope := Recorded(m, e), e.scope.value;
      var l := Swept(calendar, recorded, e.agent.value, scope, e.now, recorded.nextId);
      if Concerns(recorded, id, e.agent.value, scope) {
        SpentIs(calendar, m, e, id);
        MarksIff(calendar, recorded, e.agent.value, scope, e.now, id, t);
      } else {
        SweptOthers(calendar, recorded, e.agent.value, scope, e.now, recorded.nextId, id);
      }
    }
  }

  lemma MarksIff(calendar: Calendar, m: Meter, agent: string, scope: Scope, now: Time, id: BudgetId, t: int)
    requires id < m.nextId && Concerns(m, id, agent, scope)
    ensures var b := m.budgets[id];
            t in FiredOf(Swept(calendar, m, agent, scope, now, m.nextId).fired, id) <==>
              || t in FiredOf(m.fired, id)
              || (t in b.thresholds && SpendOf(calendar, m, id, Some(scope), now) * 10000 >= t * b.amount)
  {
    hide SpendOf, Swept;
    var l := Swept(calendar, m, agent, scope, now, m.nextId);
    SweptUpToDate(calendar, m, agent, scope, now, m.nextId, id);
    SweptAccounts(calendar, m, agent, scope, now, m.nextId, id, t);
    if t in FiredOf(l.fired, id) && t !in FiredOf(m.fired, id) {
      var added := l.alerts[|m.alerts|..];
      assert l.alerts == m.alerts + added;
      RaisedSplit(m.alerts, added, id, t);
      RaisedHasWitness(added, id, t);
      var i :| 0 <= i < |added| && added[i].budget == id && added[i].threshold == t;
      assert l.alerts[|m.alerts| + i] == added[i];
      SweptAlerts(calendar, m, agent, scope, now, m.nextId, |m.alerts| + i);
    }
  }

  /** Every alert of a recorded call names a budget of its agent and owner, one of
      the thresholds of that budget, and the spend that has reached it; it says
      EXCEEDED from the full amount on, CRITICAL from four fifths on, and WARNING
      below. Only calls raise alerts. */
  lemma CallAlertsAre(calendar: Calendar, m: Meter, e: Event, i: nat)
    requires WellFormed(m) && |m.alerts| <= i < |Step(calendar, m, e).alerts|
    ensures var a := Step(calendar, m, e).alerts[i];
            && e.Call? && a.budget in m.budgets
            && var b := m.budgets[a.budget];
            && MadeFor(e, b)
            && a.agent == b.agent && Some(a.owner) == b.owner && Some(a.tenant) == b.tenant
            && a.amount == b.amount && a.threshold in b.thresholds
            && a.spend == SpentWith(calendar, m, e, b) && a.spend * 10000 >= a.threshold * a.amount
            && (a.severity == Exceeded <==> a.threshold >= 10000)
            && (a.severity == Critical <==> 8000 <= a.threshold < 10000)
  {
    hide SpentWith, SpendOf, Swept;
    var recorded, scope := Recorded(m, e), e.scope.value;
    SweptAlerts(calendar, recorded, e.agent.value, scope, e.now, recorded.nextId, i);
    var id := Step(calendar, m, e).alerts[i].budget;
    ConcernsIff(m, e, id);
    SpentIs(calendar, m, e, id);
  }

  // ---- The meter ------------------------------------------------------------------------------------

  class CostMeter {
    const calendar: Calendar
    var records: seq<Record>
    var budgets: map<BudgetId, Budget>
    var alerts: seq<Alert>
    var fired: FiredMap
    var nextId: BudgetId

    ghost function Value(): Meter
      reads this
    {
      Meter(records, budgets, alerts, fired, nextId)
    }

    ghost predicate Valid()
      reads this
    {
      WellFormed(Value())
    }

    constructor (calendar: Calendar)
      ensures Valid() && this.calendar == calendar
      ensures Value() == Meter([], map[], [], map[], 0)
    {
      this.calendar := calendar;
      records, budgets, alerts, fired, nextId := [], map[], [], map[], 0;
    }

    method CreateBudget(b: Budget) returns (id: BudgetId)
      requires Valid() && b.amount > 0
      modifies this
      ensures Valid() && Value() == Step(calendar, old(Value()), Create(b))
      ensures id !in old(budgets) && budgets == old(budgets)[id := b] && FiredOf(fired, id) == {}
    {
      id := nextId;
      nextId := nextId + 1;
      budgets := budgets[id := b];
    }

    /** One row of the budget table, read before budgets are looked at. */
    method HydrateBudget(id: BudgetId, b: Budget)
      requires Valid() && b.amount > 0
      modifies this`budgets, this`nextId
      ensures Valid() && Value() == Step(calendar, old(Value()), Hydrate(id, b))
      ensures budgets == old(budgets)[id := b] && id < nextId && old(nextId) <= nextId
    {
      budgets := budgets[id := b];
      if id >= nextId {
        nextId := id + 1;
      }
    }

    /** Every update re-arms the thresholds of its budget. */
    method UpdateBudget(id: BudgetId, amount: Option<int>, period: Option<Period>, thresholds: Option<seq<int>>)
      returns (found: bool)
      requires Valid() && (amount.Some? ==> amount.value > 0)
      modifies this
      ensures Valid() && Value() == Step(calendar, old(Value()), Update(id, amount, period, thresholds))
      ensures found == (id in old(budgets)) && records == old(records) && alerts == old(alerts)
      ensures budgets.Keys == old(budgets).Keys
      ensures forall other :: other in budgets && other != id ==> budgets[other] == old(budgets)[other]
      ensures found ==>
                && budgets[id].agent == old(budgets)[id].agent
                && budgets[id].owner == old(budgets)[id].owner && budgets[id].tenant == old(budgets)[id].tenant
                && (if amount == None then budgets[id].amount == old(budgets)[id].amount
                    else amount == Some(budgets[id].amount))
                && (if period == None then budgets[id].period == old(budgets)[id].period
                    else period == Some(budgets[id].period))
                && (if thresholds == None then budgets[id].thresholds == old(budgets)[id].thresholds
                    else thresholds == Some(budgets[id].thresholds))
      ensures found ==> FiredOf(fired, id) == {}
      ensures forall other :: other != id ==> FiredOf(fired, other) == FiredOf(old(fired), other)
    {
      if id !in budgets {
        return false;
      }
      var b := budgets[id];
      if amount.Some? {
        b := b.(amount := amount.value);
      }
      if period.Some? {
        b := b.(period := period.value);
      }
      if thresholds.Some? {
        b := b.(thresholds := thresholds.value);
      }
      budgets := budgets[id := b];
      fired := fired - {id};
      return true;
    }

    /** One threshold: append an alert and mark it, unless it has fired before. */
    method Fire(id: BudgetId, b: Budget, spend: int, scope: Scope, threshold: int)
      modifies this`alerts, this`fired
      ensures Ledger(alerts, fired) == Crossed(old(Ledger(alerts, fired)), id, b, spend, scope, threshold)
    {
      var sofar := FiredOf(fired, id);
      if Reached(spend, b.amount, threshold) && threshold !in sofar {
        alerts := alerts + [AlertOf(id, b, spend, scope, threshold)];
        fired := fired[id := sofar + {threshold}];
      }
    }

    method CheckBudget(id: BudgetId, b: Budget, spend: int, scope: Scope)
      modifies this`alerts, this`fired
      ensures Ledger(alerts, fired) == Checked(old(Ledger(alerts, fired)), id, b, spend, scope, |b.thresholds|)
    {
      for k := 0 to |b.thresholds|
        invariant Ledger(alerts, fired) == Checked(old(Ledger(alerts, fired)), id, b, spend, scope, k)
      {
        Fire(id, b, spend, scope, b.thresholds[k]);
      }
    }

    /** After the check every threshold at or below the utilisation has fired,
        and nothing else has been raised. */
    method CheckBudgets(agent: string, scope: Scope, now: Time)
      requires Valid()
      modifies this`alerts, this`fired
      ensures Ledger(alerts, fired) == Swept(calendar, old(Value()), agent, scope, now, nextId)
      ensures forall id :: Concerns(old(Value()), id, agent, scope) ==>
                UpToDate(calendar, old(Value()), fired, id, scope, now)
      ensures forall id :: !Concerns(old(Value()), id, agent, scope) ==> FiredOf(fired, id) == FiredOf(old(fired), id)
      ensures old(alerts) <= alerts
      ensures forall i :: |old(alerts)| <= i < |alerts| ==>
                Justified(calendar, old(Value()), alerts[i], agent, scope, now)
    {
      for id := 0 to nextId
        invariant Ledger(alerts, fired) == Swept(calendar, old(Value()), agent, scope, now, id)
      {
        if id in budgets && Matches(budgets[id], agent, scope) {
          var b := budgets[id];
          var spend := SumPeriod(records, agent, calendar(b.period, now), Some(scope));
          CheckBudget(id, b, spend, scope);
        }
      }
      SweepIsSound(calendar, old(Value()), agent, scope, now);
    }

    /** Record one call, then check the budgets of its agent. */
    method RecordCall(
      model: string, prompt: nat, completion: nat, agent: Option<string>, scope: Option<Scope>, now: Time)
      requires Valid()
      modifies this
      ensures Valid() && Value() == Step(calendar, old(Value()), Call(model, prompt, completion, agent, scope, now))
      ensures budgets == old(budgets) && old(records) <= records && |records| == |old(records)| + 1
      ensures Metered(records[|old(records)|])
      ensures records[|old(records)|] ==
              Record(agent, model, prompt, completion, prompt + completion, CalculateCost(model, prompt, completion),
                     now, if scope == None then None else Some(scope.value.owner),
                     if scope == None then None else Some(scope.value.tenant))
      ensures old(alerts) <= alerts
      ensures forall id :: FiredOf(old(fired), id) <= FiredOf(fired, id)
      ensures if agent.Some? && agent.value != "" && scope.Some?
              then && (forall id :: Concerns(Value(), id, agent.value, scope.value) ==>
                         UpToDate(calendar, Value(), fired, id, scope.value, now))
                   && forall i :: |old(alerts)| <= i < |alerts| ==>
                        Justified(calendar, Value(), alerts[i], agent.value, scope.value, now)
              else alerts == old(alerts) && fired == old(fired)
    {
      hide CalculateCost, Swept, PeriodSpend;
      ghost var event := Call(model, prompt, completion, agent, scope, now);
      WellFormedStep(calendar, Value(), event);
      forall id ensures FiredOf(fired, id) <= FiredOf(Step(calendar, Value(), event).fired, id) {
        StepAccounts(calendar, Value(), event, id, 0);
      }
      var record := Record(agent, model, prompt, completion, prompt + completion,
                           CalculateCost(model, prompt, completion), now,
                           if scope.Some? then Some(scope.value.owner) else None,
                           if scope.Some? then Some(scope.value.tenant) else None);
      records := records + [record];
      if agent.Some? && agent.value != "" && scope.Some? {
        CheckBudgets(agent.value, scope.value, now);
      }
      assert Value() == Step(calendar, old(Value()), event);
      assert fired == Step(calendar, old(Value()), event).fired;
    }

    /** Without a scope all budgets and all records are looked at. */
    method IsBudgetExceeded(agent: string, scope: Option<Scope>, now: Time) returns (exceeded: bool)
      requires Valid()
      ensures exceeded <==>
              exists id :: id in budgets && VisibleBudget(budgets[id], agent, scope)
                           && SpendOf(calendar, Value(), id, scope, now) >= budgets[id].amount
      ensures exceeded <==>
              exists id :: && id in budgets && budgets[id].agent == agent
                           && (|| scope == None || scope.value.admin
                               || (&& budgets[id].owner == Some(scope.value.owner)
                                   && budgets[id].tenant == Some(scope.value.tenant)))
                           && SpendOf(calendar, Value(), id, scope, now) >= budgets[id].amount
    {
      for id := 0 to nextId
        invariant forall k :: k in budgets && k < id && VisibleBudget(budgets[k], agent, scope) ==>
                    SpendOf(calendar, Value(), k, scope, now) < budgets[k].amount
      {
        if id in budgets && VisibleBudget(budgets[id], agent, scope) {
          var spend := SumPeriod(records, agent, calendar(budgets[id].period, now), scope);
          if spend >= budgets[id].amount {
            return true;
          }
        }
      }
      return false;
    }
  }

  lemma SweepIsSound(calendar: Calendar, m: Meter, agent: string, scope: Scope, now: Time)
    requires WellFormed(m)
    ensures var l := Swept(calendar, m, agent, scope, now, m.nextId);
            && m.alerts <= l.alerts
            && (forall id :: Concerns(m, id, agent, scope) ==> UpToDate(calendar, m, l.fired, id, scope, now))
            && (forall id :: !Concerns(m, id, agent, scope) ==> FiredOf(l.fired, id) == FiredOf(m.fired, id))
            && forall i :: |m.alerts| <= i < |l.alerts| ==> Justified(calendar, m, l.alerts[i], agent, scope, now)
  {
    hide Swept, UpToDate, Justified;
    SweptAccounts(calendar, m, agent, scope, now, m.nextId, 0, 0);
    var l := Swept(calendar, m, agent, scope, now, m.nextId);
    forall id | Concerns(m, id, agent, scope) ensures UpToDate(calendar, m, l.fired, id, scope, now) {
      SweptUpToDate(calendar, m, agent, scope, now, m.nextId, id);
    }
    forall id | !Concerns(m, id, agent, scope) ensures FiredOf(l.fired, id) == FiredOf(m.fired, id) {
      SweptOthers(calendar, m, agent, scope, now, m.nextId, id);
    }
    forall i | |m.alerts| <= i < |l.alerts| ensures Justified(calendar, m, l.alerts[i], agent, scope, now) {
      SweptAlerts(calendar, m, agent, scope, now, m.nextId, i);
    }
  }

  predicate VisibleBudget(b: Budget, agent: string, scope: Option<Scope>) {
    && b.agent == agent
    && (|| scope == None || scope.value.admin
        || (b.owner == Some(scope.value.owner) && b.tenant == Some(scope.value.tenant)))
  }
}
