/** Monthly usage quotas: consumers run under a lock, the monthly reset zeroes
    the counters one by one without it. */
module UsageQuota {
  import opened Text

  datatype Tier = Free | Team | Enterprise

  datatype Action = Analyze | IacDownload | HldGeneration | CostEstimate | ShareLink

  function Limit(tier: Tier, a: Action): nat {
    match (tier, a)
    case (Free, Analyze) => 5
    case (Free, IacDownload) => 3
    case (Free, HldGeneration) => 2
    case (Free, CostEstimate) => 10
    case (Free, ShareLink) => 3
    case (Team, Analyze) => 50
    case (Team, IacDownload) => 30
    case (Team, HldGeneration) => 20
    case (Team, CostEstimate) => 100
    case (Team, ShareLink) => 50
    case (Enterprise, _) => 10000
  }

  /** The quota action behind a request's action name, if it has one. */
  function ActionOf(name: string): Option<Action> {
    if name == "analyze" then Some(Analyze)
    else if name == "iac_download" then Some(IacDownload)
    else if name == "hld_generation" then Some(HldGeneration)
    else if name == "cost_estimate" then Some(CostEstimate)
    else if name == "share_link" then Some(ShareLink)
    else None
  }

  datatype Usage = Usage(analyses: nat, iacDownloads: nat, hldGenerations: nat, costEstimates: nat, shareLinks: nat)

  function Used(u: Usage, a: Action): nat {
    match a
    case Analyze => u.analyses
    case IacDownload => u.iacDownloads
    case HldGeneration => u.hldGenerations
    case CostEstimate => u.costEstimates
    case ShareLink => u.shareLinks
  }

  function WithUsed(u: Usage, a: Action, n: nat): Usage {
    match a
    case Analyze => u.(analyses := n)
    case IacDownload => u.(iacDownloads := n)
    case HldGeneration => u.(hldGenerations := n)
    case CostEstimate => u.(costEstimates := n)
    case ShareLink => u.(shareLinks := n)
  }

  /** The quota of a request: its limit per month in each tier, by the name of its
      action, and the one counter it is measured by; other names have no quota. */
  lemma QuotasAre(name: string, u: Usage, n: nat)
    ensures ActionOf(name) == None <==>
              name !in {"analyze", "iac_download", "hld_generation", "cost_estimate", "share_link"}
    ensures ActionOf(name).Some? ==>
              var a := ActionOf(name).value;
              && Limit(Enterprise, a) == 10000
              && if name == "analyze" then
                   Limit(Free, a) == 5 && Limit(Team, a) == 50 && Used(u, a) == u.analyses
                   && WithUsed(u, a, n) == u.(analyses := n)
                 else if name == "iac_download" then
                   Limit(Free, a) == 3 && Limit(Team, a) == 30 && Used(u, a) == u.iacDownloads
                   && WithUsed(u, a, n) == u.(iacDownloads := n)
                 else if name == "hld_generation" then
                   Limit(Free, a) == 2 && Limit(Team, a) == 20 && Used(u, a) == u.hldGenerations
                   && WithUsed(u, a, n) == u.(hldGenerations := n)
                 else if name == "cost_estimate" then
                   Limit(Free, a) == 10 && Limit(Team, a) == 100 && Used(u, a) == u.costEstimates
                   && WithUsed(u, a, n) == u.(costEstimates := n)
                 else
                   Limit(Free, a) == 3 && Limit(Team, a) == 50 && Used(u, a) == u.shareLinks
                   && WithUsed(u, a, n) == u.(shareLinks := n)
  {
  }

  const NO_USAGE := Usage(0, 0, 0, 0, 0)

  // ---- Calendar months -----------------------------------------------------------------

  datatype Month = Month(year: int, month: int)

  function NeedsMonthlyReset(now: Month, last: Month): bool {
    now.year > last.year || now.month > last.month
  }

  predicate Later(now: Month, last: Month) {
    now.year > last.year || (now.year == last.year && now.month > last.month)
  }

  /** The test is "a later calendar month" except when the clock shows an
      earlier year with a higher month number. */
  lemma NeedsResetIff(now: Month, last: Month)
    ensures NeedsMonthlyReset(now, last) == Later(now, last) <==> !(now.year < last.year && now.month > last.month)
  {
  }

  // ---- One user, sequentially --------------------------------------------------------------

  datatype Check = Unlimited | Limited(allowed: bool, used: nat, limit: nat, remaining: nat, upgradePrompt: bool)

  class User {
    const tier: Tier
    var usage: Usage
    var resetMonth: Month

    constructor (tier: Tier, now: Month)
      ensures this.tier == tier && usage == Usage(0, 0, 0, 0, 0) && resetMonth == now
    {
      this.tier, usage, resetMonth := tier, NO_USAGE, now;
    }

    method CheckQuota(name: string) returns (check: Check)
      ensures ActionOf(name) == None <==> check == Unlimited
      ensures ActionOf(name).Some? ==>
                var limit, used := Limit(tier, ActionOf(name).value), Used(usage, ActionOf(name).value);
                && check.limit == limit && check.used == used
                && check.remaining == (if used < limit then limit - used else 0)
                && (check.allowed <==> used < limit)
                && (check.upgradePrompt <==> tier == Free && used + 1 >= limit)
    {
      var action := ActionOf(name);
      if action == None {
        return Unlimited;
      }
      var limit, used := Limit(tier, action.value), Used(usage, action.value);
      var remaining := if limit > used then limit - used else 0;
      return Limited(remaining > 0, used, limit, remaining, remaining <= 1 && tier == Free);
    }

    /** Check and consume one unit in one critical section. */
    method TryConsumeQuota(name: string) returns (check: Check)
      modifies this`usage
      ensures ActionOf(name) == None ==> check == Unlimited && usage == old(usage)
      ensures ActionOf(name).Some? ==>
                var a := ActionOf(name).value;
                var limit, before := Limit(tier, a), Used(old(usage), a);
                && check.Limited? && (check.allowed <==> before < limit) && check.limit == limit
                && (check.upgradePrompt <==> tier == Free && before + 1 >= limit)
                && usage == (if before < limit then WithUsed(old(usage), a, before + 1) else old(usage))
                && check.used == Used(usage, a)
                && check.remaining == (if check.used < limit then limit - check.used else 0)
    {
      check := CheckQuota(name);
      if check.Limited? && check.allowed {
        var a := ActionOf(name).value;
        usage := WithUsed(usage, a, Used(usage, a) + 1);
        check := check.(used := check.used + 1, remaining := check.remaining - 1);
      }
    }

    method MaybeResetMonthlyUsage(now: Month)
      modifies this
      ensures (usage, resetMonth) ==
              if NeedsMonthlyReset(now, old(resetMonth)) then (Usage(0, 0, 0, 0, 0), now)
              else (old(usage), old(resetMonth))
    {
      if NeedsMonthlyReset(now, resetMonth) {
        usage := usage.(analyses := 0);
        usage := usage.(iacDownloads := 0);
        usage := usage.(hldGenerations := 0);
        usage := usage.(costEstimates := 0);
        usage := usage.(shareLinks := 0);
        resetMonth := now;
      }
    }
  }

  // ---- Many threads on one user -------------------------------------------------------------

  type Thread = nat

  /** A consumer holds the lock from its check until its store. Its increment
      is a load and a store, and the reset may write between the two. */
  datatype Holder =
    | Unlocked
    | Checked(thread: Thread, action: Action)
    | Loaded(thread: Thread, action: Action, value: nat)

  /** `grants` and `attempts` record history per action: successful increments
      since the last reset of that counter, and finished attempts in all. */
  datatype State = State(usage: Usage, holder: Holder, grants: Usage, attempts: Usage)

  datatype Event =
    | Begin(thread: Thread, action: Action)
    | Load
    | Store
    | Zero(action: Action)

  predicate Enabled(s: State, e: Event) {
    match e
    case Begin(_, _) => s.holder.Unlocked?
    case Load => s.holder.Checked?
    case Store => s.holder.Loaded?
    case Zero(_) => true
  }

  function Bump(u: Usage, a: Action): Usage {
    WithUsed(u, a, Used(u, a) + 1)
  }

  function Apply(tier: Tier, s: State, e: Event): State
    requires Enabled(s, e)
  {
    match e
    case Begin(t, a) =>
      if Used(s.usage, a) < Limit(tier, a) then s.(holder := Checked(t, a))
      else s.(attempts := Bump(s.attempts, a))
    case Load => s.(holder := Loaded(s.holder.thread, s.holder.action, Used(s.usage, s.holder.action)))
    case Store =>
      var a := s.holder.action;
      s.(usage := WithUsed(s.usage, a, s.holder.value + 1), holder := Unlocked,
         grants := Bump(s.grants, a), attempts := Bump(s.attempts, a))
    case Zero(a) => s.(usage := WithUsed(s.usage, a, 0), grants := WithUsed(s.grants, a, 0))
  }

  function Run(tier: Tier, s: State, events: seq<Event>): Option<State>
    decreases events
  {
    if events == [] then Some(s)
    else if Enabled(s, events[0]) then Run(tier, Apply(tier, s, events[0]), events[1..])
    else None
  }

  const INITIAL := State(NO_USAGE, Unlocked, NO_USAGE, NO_USAGE)

  predicate Inv(tier: Tier, s: State) {
    && (forall a :: Used(s.grants, a) <= Used(s.usage, a) <= Limit(tier, a))
    && match s.holder
       case Unlocked => true
       case Checked(_, a) => Used(s.usage, a) < Limit(tier, a)
       case Loaded(_, a, v) => Used(s.grants, a) <= v < Limit(tier, a) && Used(s.usage, a) in {0, v}
  }

  lemma OtherCounters(u: Usage, a: Action, n: nat)
    ensures forall b :: Used(WithUsed(u, a, n), b) == if a == b then n else Used(u, b)
  {
  }

  lemma InvPreserved(tier: Tier, s: State, e: Event)
    requires Inv(tier, s) && Enabled(s, e)
    ensures Inv(tier, Apply(tier, s, e))
  {
    hide Limit, Used, WithUsed;
    match e
    case Begin(_, _) =>
    case Load =>
    case Store =>
      OtherCounters(s.usage, s.holder.action, s.holder.value + 1);
      OtherCounters(s.grants, s.holder.action, Used(s.grants, s.holder.action) + 1);
    case Zero(a) =>
      OtherCounters(s.usage, a, 0);
      OtherCounters(s.grants, a, 0);
  }

  /** In every interleaving of consumers with field-by-field resets, every
      counter stays within its limit, and no more than the limit is ever granted
      between two resets of a counter. */
  lemma {:induction false} NeverOverLimit(tier: Tier, s: State, events: seq<Event>)
    requires Inv(tier, s) && Run(tier, s, events).Some?
    ensures Inv(tier, Run(tier, s, events).value)
    decreases events
  {
    if events != [] {
      InvPreserved(tier, s, events[0]);
      NeverOverLimit(tier, Apply(tier, s, events[0]), events[1..]);
    }
  }

  /** No reset writes the counter of the consumer that is between load and store. */
  predicate NoResetInWindow(tier: Tier, s: State, events: seq<Event>)
    requires Run(tier, s, events).Some?
    decreases events
  {
    events != [] ==>
      && !(events[0].Zero? && s.holder.Loaded? && s.holder.action == events[0].action)
      && NoResetInWindow(tier, Apply(tier, s, events[0]), events[1..])
  }

  predicate Exact(s: State) {
    && (forall a :: Used(s.usage, a) == Used(s.grants, a))
    && (s.holder.Loaded? ==> s.holder.value == Used(s.usage, s.holder.action))
  }

  lemma ExactPreserved(tier: Tier, s: State, e: Event)
    requires Exact(s) && Enabled(s, e)
    requires !(e.Zero? && s.holder.Loaded? && s.holder.action == e.action)
    ensures Exact(Apply(tier, s, e))
  {
    if e.Zero? {
      OtherCounters(s.usage, e.action, 0);
      OtherCounters(s.grants, e.action, 0);
    } else if e.Store? {
      OtherCounters(s.usage, s.holder.action, s.holder.value + 1);
      OtherCounters(s.grants, s.holder.action, Used(s.grants, s.holder.action) + 1);
    }
  }

  /** As long as no reset hits a counter between a consumer's load and store of
      it, every counter equals the grants since its last reset. */
  lemma {:induction false} CountersCountGrants(tier: Tier, s: State, events: seq<Event>)
    requires Exact(s) && Run(tier, s, events).Some? && NoResetInWindow(tier, s, events)
    ensures Exact(Run(tier, s, events).value)
    decreases events
  {
    if events != [] {
      ExactPreserved(tier, s, events[0]);
      CountersCountGrants(tier, Apply(tier, s, events[0]), events[1..]);
    }
  }

  /** A reset hits the counter of a consumer that has loaded more than zero. */
  predicate HitsWindow(s: State, e: Event) {
    e.Zero? && s.holder.Loaded? && s.holder.action == e.action && s.holder.value != 0
  }

  /** No such reset is followed by the store of that consumer. While a consumer
      holds the lock the next store is its own. */
  predicate NoLostReset(tier: Tier, s: State, events: seq<Event>)
    requires Run(tier, s, events).Some?
    decreases events
  {
    events != [] ==>
      && (HitsWindow(s, events[0]) ==> Store !in events[1..])
      && NoLostReset(tier, Apply(tier, s, events[0]), events[1..])
  }

  /** Whenever nobody holds the lock, every counter equals the grants since its reset. */
  predicate ExactWhenUnlocked(tier: Tier, s: State, events: seq<Event>)
    requires Run(tier, s, events).Some?
    decreases events
  {
    && (s.holder.Unlocked? ==> Exact(s))
    && (events != [] ==> ExactWhenUnlocked(tier, Apply(tier, s, events[0]), events[1..]))
  }

  /** A consumer is about to store a count that a reset has made stale. */
  predicate Doomed(s: State) {
    && s.holder.Loaded? && s.holder.value != 0
    && Used(s.usage, s.holder.action) == Used(s.grants, s.holder.action) == 0
  }

  lemma DoomedStep(tier: Tier, s: State, e: Event)
    requires Doomed(s) && Enabled(s, e)
    ensures e.Store? ==> Apply(tier, s, e).holder.Unlocked? && !Exact(Apply(tier, s, e))
    ensures !e.Store? ==> Doomed(Apply(tier, s, e))
  {
    if e.Zero? {
      OtherCounters(s.usage, e.action, 0);
      OtherCounters(s.grants, e.action, 0);
    } else if e.Store? {
      OtherCounters(s.usage, s.holder.action, s.holder.value + 1);
      OtherCounters(s.grants, s.holder.action, 1);
    }
  }

  lemma {:induction false} DoomedRun(tier: Tier, s: State, events: seq<Event>)
    requires Doomed(s) && Run(tier, s, events).Some?
    ensures ExactWhenUnlocked(tier, s, events) <==> Store !in events
    ensures Store !in events ==> NoLostReset(tier, s, events)
    decreases events
  {
    if events != [] {
      var e, rest := events[0], events[1..];
      assert events == [e] + rest;
      DoomedStep(tier, s, e);
      if !e.Store? {
        DoomedRun(tier, Apply(tier, s, e), rest);
      }
    }
  }

  lemma HitDooms(tier: Tier, s: State, e: Event)
    requires Exact(s) && Enabled(s, e)
    ensures HitsWindow(s, e) ==> Doomed(Apply(tier, s, e)) && !Apply(tier, s, e).holder.Unlocked?
    ensures !HitsWindow(s, e) ==> Exact(Apply(tier, s, e))
  {
    if e.Zero? {
      OtherCounters(s.usage, e.action, 0);
      OtherCounters(s.grants, e.action, 0);
    } else {
      ExactPreserved(tier, s, e);
    }
  }

  /** Over every run, counters equal the grants since their reset whenever the
      lock is free if and only if no reset is lost: none hits a counter between
      the load of a count above zero and the store that follows. */
  lemma {:induction false} LostResetIff(tier: Tier, s: State, events: seq<Event>)
    requires Exact(s) && Run(tier, s, events).Some?
    ensures ExactWhenUnlocked(tier, s, events) <==> NoLostReset(tier, s, events)
    decreases events
  {
    if events != [] {
      HitDooms(tier, s, events[0]);
      if HitsWindow(s, events[0]) {
        DoomedRun(tier, Apply(tier, s, events[0]), events[1..]);
      } else {
        LostResetIff(tier, Apply(tier, s, events[0]), events[1..]);
      }
    }
  }

  /** Such a run exists: one grant, then a reset inside the second consumer's window. */
  lemma LostResetRun(tier: Tier)
    ensures var events := [Begin(0, Analyze), Load, Store, Begin(1, Analyze), Load, Zero(Analyze), Store];
            && Run(tier, INITIAL, events).Some?
            && Used(Run(tier, INITIAL, events).value.usage, Analyze) == 2
            && Used(Run(tier, INITIAL, events).value.grants, Analyze) == 1
  {
    var s1 := Apply(tier, INITIAL, Begin(0, Analyze));
    var s2 := Apply(tier, s1, Load);
    var s3 := Apply(tier, s2, Store);
    var s4 := Apply(tier, s3, Begin(1, Analyze));
    var s5 := Apply(tier, s4, Load);
    var s6 := Apply(tier, s5, Zero(Analyze));
    var s7 := Apply(tier, s6, Store);
    var events := [Begin(0, Analyze), Load, Store, Begin(1, Analyze), Load, Zero(Analyze), Store];
    RunStep(tier, INITIAL, events, s1);
    RunStep(tier, s1, events[1..], s2);
    RunStep(tier, s2, events[2..], s3);
    RunStep(tier, s3, events[3..], s4);
    RunStep(tier, s4, events[4..], s5);
    RunStep(tier, s5, events[5..], s6);
    RunStep(tier, s6, events[6..], s7);
  }

  lemma RunStep(tier: Tier, s: State, events: seq<Event>, s': State)
    requires events != [] && Enabled(s, events[0]) && s' == Apply(tier, s, events[0])
    ensures Run(tier, s, events) == Run(tier, s', events[1..])
  {
  }

  /** Without resets the grants are exactly the attempts, cut off at the limit. */
  predicate Metered(tier: Tier, s: State) {
    Exact(s) && forall a :: Used(s.grants, a) == Min(Used(s.attempts, a), Limit(tier, a))
  }

  lemma MeteredPreserved(tier: Tier, s: State, e: Event)
    requires Inv(tier, s) && Metered(tier, s) && Enabled(s, e) && !e.Zero?
    ensures Metered(tier, Apply(tier, s, e))
  {
    hide Exact, Limit, Used, WithUsed;
    ExactPreserved(tier, s, e);
    match e
    case Begin(_, a) => OtherCounters(s.attempts, a, Used(s.attempts, a) + 1);
    case Load =>
    case Store =>
      var a := s.holder.action;
      OtherCounters(s.grants, a, Used(s.grants, a) + 1);
      OtherCounters(s.attempts, a, Used(s.attempts, a) + 1);
    case Zero(_) =>
  }

  /** Starting from zero, any interleaving in which n attempts finish grants
      exactly the smaller of n and the limit. */
  lemma {:induction false} GrantsAreMinOfAttempts(tier: Tier, s: State, events: seq<Event>)
    requires Inv(tier, s) && Metered(tier, s) && Run(tier, s, events).Some?
    requires forall e :: e in events ==> !e.Zero?
    ensures var s' := Run(tier, s, events).value;
            forall a :: Used(s'.grants, a) == Used(s'.usage, a) == Min(Used(s'.attempts, a), Limit(tier, a))
    decreases events
  {
    if events != [] {
      InvPreserved(tier, s, events[0]);
      MeteredPreserved(tier, s, events[0]);
      GrantsAreMinOfAttempts(tier, Apply(tier, s, events[0]), events[1..]);
    }
  }

  /** In every run from a fresh user, with any resets, no counter and no number of
      grants since a reset passes the limit; without resets, what is granted is
      exactly the attempts cut off at the limit. */
  lemma FromAFreshUser(tier: Tier, events: seq<Event>)
    requires Run(tier, INITIAL, events).Some?
    ensures var s := Run(tier, INITIAL, events).value;
            && (forall a :: Used(s.grants, a) <= Used(s.usage, a) <= Limit(tier, a))
            && ((forall e :: e in events ==> !e.Zero?) ==>
                  forall a :: Used(s.grants, a) == Used(s.usage, a) == Min(Used(s.attempts, a), Limit(tier, a)))
  {
    NeverOverLimit(tier, INITIAL, events);
    if forall e :: e in events ==> !e.Zero? {
      GrantsAreMinOfAttempts(tier, INITIAL, events);
    }
  }
}
