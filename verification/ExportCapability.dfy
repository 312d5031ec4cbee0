/** One-time export capabilities: issue, verify and consume over a shared store,
    from any number of concurrent requests. */
module ExportCapability {
  import opened Text

  type Digest = string
  type Time = int

  const EXPORT_SCOPE := "artifact:export"

  datatype Contract = Contract(intent: string, format: string)

  datatype Binding = Binding(principal: string, owner: string, tenant: string, analysisId: string, projectId: string)

  /** The stored record. `binding` is `None` for binding version 0. */
  datatype Record = Record(
    diagramId: string, scope: string, issued: Contract, current: Contract,
    contracts: set<Contract>, expiresAt: Time, binding: Option<Binding>)

  datatype Capability = Capability(digest: Digest, record: Record)

  type Store = map<Digest, Record>

  /** How a store call ends; `RaisesAfter` raises although the effect took place. */
  datatype Effect = Completes | RaisesBefore | RaisesAfter

  datatype ConsumeResult = Consumed | Replayed | Unconfirmed

  /** A request as far as verification looks at it: the diagram and the contract
      of its route, and later the binding and public flag resolved for it. */
  datatype Request = Request(diagramId: string, contract: Contract)

  datatype CheckResult = Passed(capability: Capability) | Refused(burn: bool)

  // ---- The checks of one verification -------------------------------------------------

  predicate WellFormed(r: Record) {
    r.scope == EXPORT_SCOPE && r.current == r.issued
  }

  /** Verification up to the point where it awaits the caller's binding. `burn`
      says that the entry is deleted as well. */
  function Check(store: Store, digest: Digest, q: Request, now: Time): CheckResult {
    if digest !in store then Refused(false)
    else
      var r := store[digest];
      if r.scope != EXPORT_SCOPE then Refused(true)
      else if r.diagramId != q.diagramId then Refused(false)
      else if r.expiresAt < now then Refused(true)
      else if r.current != r.issued then Refused(true)
      else if q.contract !in r.contracts then Refused(false)
      else Passed(Capability(digest, r))
  }

  /** The remaining check, after the binding has been resolved. */
  predicate BindingOk(r: Record, resolved: Option<Binding>, publicSession: bool) {
    match r.binding
    case Some(b) => resolved == Some(b) || (resolved == None && b == Binding("", "", "", "", ""))
    case None => publicSession
  }

  // ---- The operations ---------------------------------------------------------------------

  function Popped(store: Store, digest: Digest, effect: Effect): Store {
    if effect == RaisesBefore then store else store - {digest}
  }

  function ConsumeOutcome(store: Store, c: Capability, effect: Effect): ConsumeResult {
    if effect != Completes then Unconfirmed
    else if c.digest in store && store[c.digest] == c.record then Consumed
    else Replayed
  }

  function Put(store: Store, digest: Digest, record: Record, effect: Effect): Store {
    if effect == RaisesBefore then store else store[digest := record]
  }

  function Burned(store: Store, digest: Digest, burn: bool, effect: Effect): Store {
    if !burn || effect == RaisesBefore then store else store - {digest}
  }

  /** The shared store; every method is one atomic store call with what its
      caller does around it. */
  class CapabilityStore {
    var entries: Store

    constructor ()
      ensures entries == map[]
    {
      entries := map[];
    }

    method Issue(digest: Digest, record: Record, effect: Effect) returns (token: Option<Digest>)
      modifies this
      ensures entries == Put(old(entries), digest, record, effect)
      ensures token == if effect == Completes then Some(digest) else None
    {
      if effect != RaisesBefore {
        entries := entries[digest := record];
      }
      if effect != Completes {
        return None;
      }
      return Some(digest);
    }

    /** Peek and check. A failing peek reads as a missing entry. */
    method VerifyUpToBinding(digest: Digest, q: Request, now: Time, peek: Effect, delete: Effect)
      returns (result: CheckResult)
      modifies this
      ensures result == if peek == Completes then Check(old(entries), digest, q, now) else Refused(false)
      ensures entries == Burned(old(entries), digest, result.Refused? && result.burn, delete)
    {
      if peek != Completes || digest !in entries {
        return Refused(false);
      }
      var r := entries[digest];
      var burn := false;
      if r.scope != EXPORT_SCOPE {
        burn := true;
      } else if r.diagramId != q.diagramId {
        return Refused(false);
      } else if r.expiresAt < now {
        burn := true;
      } else if r.current != r.issued {
        burn := true;
      }
      if burn {
        if delete != RaisesBefore {
          entries := entries - {digest};
        }
        return Refused(true);
      }
      if q.contract !in r.contracts {
        return Refused(false);
      }
      return Passed(Capability(digest, r));
    }

    method Consume(c: Capability, effect: Effect) returns (result: ConsumeResult)
      modifies this
      ensures entries == Popped(old(entries), c.digest, effect)
      ensures result == ConsumeOutcome(old(entries), c, effect)
    {
      var value := if c.digest in entries then Some(entries[c.digest]) else None;
      if effect != RaisesBefore {
        entries := entries - {c.digest};
      }
      if effect != Completes {
        return Unconfirmed;
      }
      if value == None || value.value != c.record {
        return Replayed;
      }
      return Consumed;
    }
  }

  // ---- The protocol -------------------------------------------------------------------------

  type Thread = nat

  /** A request after its peek: waiting for the binding, or with a verified capability. */
  datatype Phase = Awaiting(capability: Capability) | Verified(capability: Capability) | Denied

  /** `issued` and `consumed` record history: every digest ever written, with its
      record, and every successful consume in order. */
  datatype State = State(store: Store, requests: map<Thread, Phase>, issued: map<Digest, Record>, consumed: seq<Digest>)

  datatype Event =
    | Issue(digest: Digest, record: Record, effect: Effect)
    | Expire(digest: Digest)
    | Peek(thread: Thread, digest: Digest, request: Request, now: Time, effect: Effect, delete: Effect)
    | Finish(thread: Thread, resolved: Option<Binding>, publicSession: bool)
    | Consume(thread: Thread, effect: Effect)

  /** A new token is random, so its digest has never been issued before. */
  predicate Enabled(s: State, e: Event) {
    match e
    case Issue(d, _, _) => d !in s.issued
    case Expire(_) => true
    case Peek(t, _, _, _, _, _) => t !in s.requests
    case Finish(t, _, _) => t in s.requests && s.requests[t].Awaiting?
    case Consume(t, _) => t in s.requests && s.requests[t].Verified?
  }

  function Apply(s: State, e: Event): State
    requires Enabled(s, e)
  {
    match e
    case Issue(d, r, effect) =>
      if effect == RaisesBefore then s
      else s.(store := Put(s.store, d, r, effect), issued := s.issued[d := r])
    case Expire(d) => s.(store := s.store - {d})
    case Peek(t, d, q, now, effect, delete) =>
      var result := if effect == Completes then Check(s.store, d, q, now) else Refused(false);
      s.(store := Burned(s.store, d, result.Refused? && result.burn, delete),
         requests := s.requests[t := if result.Passed? then Awaiting(result.capability) else Denied])
    case Finish(t, resolved, publicSession) =>
      var c := s.requests[t].capability;
      s.(requests := s.requests[t := if BindingOk(c.record, resolved, publicSession) then Verified(c) else Denied])
    case Consume(t, effect) =>
      var c := s.requests[t].capability;
      s.(store := Popped(s.store, c.digest, effect),
         consumed := if ConsumeOutcome(s.store, c, effect) == Consumed then s.consumed + [c.digest] else s.consumed)
  }

  function Run(s: State, events: seq<Event>): Option<State>
    decreases events
  {
    if events == [] then Some(s)
    else if Enabled(s, events[0]) then Run(Apply(s, events[0]), events[1..])
    else None
  }

  const INITIAL := State(map[], map[], map[], [])

  // ---- The invariant -----------------------------------------------------------------------------

  predicate HoldsIssued(s: State, p: Phase) {
    p.Denied? || (p.capability.digest in s.issued && s.issued[p.capability.digest] == p.capability.record)
  }

  /** Store entries and capabilities in flight are issued records, and no
      consumed digest is in the store. */
  predicate Inv(s: State) {
    && (forall d :: d in s.store ==> d in s.issued && s.issued[d] == s.store[d])
    && (forall t :: t in s.requests ==> HoldsIssued(s, s.requests[t]))
    && (forall d :: d in s.consumed ==> d in s.issued && d !in s.store)
    && Distinct(s.consumed)
  }

  lemma InvPreserved(s: State, e: Event)
    requires Inv(s) && Enabled(s, e)
    ensures Inv(Apply(s, e)) && s.consumed <= Apply(s, e).consumed
  {
  }

  lemma {:induction false} RunKeepsInv(s: State, events: seq<Event>)
    requires Inv(s) && Run(s, events).Some?
    ensures Inv(Run(s, events).value) && s.consumed <= Run(s, events).value.consumed
    decreases events
  {
    if events != [] {
      InvPreserved(s, events[0]);
      RunKeepsInv(Apply(s, events[0]), events[1..]);
    }
  }

  // ---- Results ------------------------------------------------------------------------------------

  lemma DistinctWithin(ds: seq<Digest>, all: set<Digest>)
    requires Distinct(ds) && forall d :: d in ds ==> d in all
    ensures |ds| <= |all|
  {
    if ds != [] {
      var n := |ds| - 1;
      assert forall d :: d in ds[..n] ==> d in all - {ds[n]};
      DistinctWithin(ds[..n], all - {ds[n]});
    }
  }

  /** In every interleaving each capability is consumed at most once, and never
      more capabilities are consumed than were issued. */
  lemma AtMostOneConsume(events: seq<Event>)
    requires Run(INITIAL, events).Some?
    ensures var s := Run(INITIAL, events).value;
            && (forall d :: multiset(s.consumed)[d] <= 1)
            && (forall d :: d in s.consumed ==> d in s.issued)
            && |s.consumed| <= |s.issued|
  {
    RunKeepsInv(INITIAL, events);
    var s := Run(INITIAL, events).value;
    DistinctCounts(s.consumed);
    DistinctWithin(s.consumed, s.issued.Keys);
    assert |s.issued.Keys| == |s.issued|;
  }

  lemma {:induction false} DistinctCounts(ds: seq<Digest>)
    requires Distinct(ds)
    ensures forall d :: multiset(ds)[d] <= 1
  {
    if ds != [] {
      var n := |ds| - 1;
      DistinctCounts(ds[..n]);
      assert ds == ds[..n] + [ds[n]];
      assert ds[n] !in ds[..n];
      assert multiset(ds[..n])[ds[n]] == 0;
    }
  }

  /** After a successful consume, however the run goes on, every peek of that
      token is refused and every consume of it fails, even by requests that had
      verified the token before. */
  lemma NothingSucceedsAfterConsume(before: seq<Event>, after: seq<Event>, d: Digest)
    requires Run(INITIAL, before).Some? && d in Run(INITIAL, before).value.consumed
    requires Run(Run(INITIAL, before).value, after).Some?
    ensures var s := Run(Run(INITIAL, before).value, after).value;
            && d in s.consumed && d !in s.store
            && (forall q, now :: Check(s.store, d, q, now) == Refused(false))
            && (forall c: Capability, effect :: c.digest == d ==> ConsumeOutcome(s.store, c, effect) != Consumed)
  {
    RunKeepsInv(INITIAL, before);
    RunKeepsInv(Run(INITIAL, before).value, after);
  }

  /** A verified capability carries the issued record, so a consume that ends in
      "replayed" always found no entry, and one that finds the entry succeeds. */
  lemma ReplayMeansGone(events: seq<Event>, t: Thread)
    requires Run(INITIAL, events).Some?
    requires var s := Run(INITIAL, events).value; t in s.requests && s.requests[t].Verified?
    ensures var s := Run(INITIAL, events).value;
            var c := s.requests[t].capability;
            ConsumeOutcome(s.store, c, Completes) == if c.digest in s.store then Consumed else Replayed
  {
    RunKeepsInv(INITIAL, events);
  }

  /** A refused verification removes only an entry that is expired or malformed;
      probing with a wrong diagram or contract leaves the capability usable. */
  lemma RefusalKeepsLiveCapability(s: State, e: Event, d: Digest)
    requires e.Peek? && Enabled(s, e)
    requires d in s.store && (d != e.digest || (WellFormed(s.store[d]) && e.now <= s.store[d].expiresAt))
    ensures d in Apply(s, e).store && Apply(s, e).store[d] == s.store[d]
  {
  }

  /** A verification passes exactly for a stored, well-formed, unexpired record
      of the same diagram whose contracts include the requested one. */
  lemma CheckPassesIff(store: Store, d: Digest, q: Request, now: Time)
    ensures Check(store, d, q, now).Passed? <==>
            && d in store && WellFormed(store[d]) && now <= store[d].expiresAt
            && store[d].diagramId == q.diagramId && q.contract in store[d].contracts
    ensures Check(store, d, q, now).Passed? ==> Check(store, d, q, now).capability == Capability(d, store[d])
  {
  }

  /** Left alone, an issued capability can be verified and consumed. */
  lemma FreshCapabilityWorks(s: State, d: Digest, r: Record, q: Request, now: Time, t: Thread, publicSession: bool)
    requires d !in s.issued && t !in s.requests
    requires WellFormed(r) && now <= r.expiresAt && r.diagramId == q.diagramId && q.contract in r.contracts
    requires r.binding == None ==> publicSession
    ensures var events := [Issue(d, r, Completes), Peek(t, d, q, now, Completes, Completes),
                           Finish(t, r.binding, publicSession), Consume(t, Completes)];
            Run(s, events).Some? && Run(s, events).value.consumed == s.consumed + [d]
  {
    var e1, e2 := Issue(d, r, Completes), Peek(t, d, q, now, Completes, Completes);
    var e3, e4 := Finish(t, r.binding, publicSession), Consume(t, Completes);
    var s1 := Apply(s, e1);
    var s2 := Apply(s1, e2);
    assert s2.requests[t] == Awaiting(Capability(d, r));
    var s3 := Apply(s2, e3);
    var s4 := Apply(s3, e4);
    assert [e1, e2, e3, e4][1..] == [e2, e3, e4] && [e2, e3, e4][1..] == [e3, e4] && [e3, e4][1..] == [e4];
    assert Run(s3, [e4]) == Some(s4);
    assert Run(s2, [e3, e4]) == Some(s4);
  }

  /** Verification awaits the binding after its peek, so a request that peeked
      before another one consumed can still be told "verified" afterwards; only
      its own consume then fails. */
  lemma VerifiedAfterConsume(d: Digest, r: Record, q: Request, now: Time, b: Binding)
    returns (before: seq<Event>, last: Event)
    requires WellFormed(r) && now <= r.expiresAt && r.diagramId == q.diagramId && q.contract in r.contracts
    requires r.binding == Some(b)
    ensures Run(INITIAL, before).Some? && d in Run(INITIAL, before).value.consumed
    ensures last.Finish? && Enabled(Run(INITIAL, before).value, last)
    ensures var s := Apply(Run(INITIAL, before).value, last);
            && s.requests[last.thread] == Verified(Capability(d, r))
            && ConsumeOutcome(s.store, s.requests[last.thread].capability, Completes) == Replayed
  {
    var e1 := Issue(d, r, Completes);
    var e2, e3 := Peek(0, d, q, now, Completes, Completes), Peek(1, d, q, now, Completes, Completes);
    var e4, e5 := Finish(0, Some(b), false), Consume(0, Completes);
    before, last := [e1, e2, e3, e4, e5], Finish(1, Some(b), false);
    var s1 := Apply(INITIAL, e1);
    var s2 := Apply(s1, e2);
    var s3 := Apply(s2, e3);
    assert s3.requests[0] == Awaiting(Capability(d, r)) && s3.requests[1] == Awaiting(Capability(d, r));
    var s4 := Apply(s3, e4);
    var s5 := Apply(s4, e5);
    RunStep(INITIAL, before, s1);
    RunStep(s1, before[1..], s2);
    RunStep(s2, before[2..], s3);
    RunStep(s3, before[3..], s4);
    RunStep(s4, before[4..], s5);
  }

  predicate WaitsWith(s: State, t: Thread, d: Digest) {
    t in s.requests && s.requests[t].Awaiting? && s.requests[t].capability.digest == d
  }

  /** The rest of a verification succeeds now and hands out the capability of `d`. */
  predicate VerifiesNow(s: State, t: Thread, d: Digest, resolved: Option<Binding>, publicSession: bool) {
    && Enabled(s, Finish(t, resolved, publicSession))
    && var p := Apply(s, Finish(t, resolved, publicSession)).requests[t];
       p.Verified? && p.capability.digest == d
  }

  lemma WaitingStep(s: State, e: Event, d: Digest, t: Thread)
    requires Inv(s) && d in s.consumed && Enabled(s, e)
    ensures WaitsWith(Apply(s, e), t, d) ==> WaitsWith(s, t, d) && s.requests[t] == Apply(s, e).requests[t]
  {
  }

  lemma {:induction false} WaitingSince(s: State, events: seq<Event>, d: Digest, t: Thread)
    requires Inv(s) && d in s.consumed && Run(s, events).Some?
    ensures var s' := Run(s, events).value;
            WaitsWith(s', t, d) ==> WaitsWith(s, t, d) && s.requests[t] == s'.requests[t]
    decreases events
  {
    if events != [] {
      InvPreserved(s, events[0]);
      WaitingSince(Apply(s, events[0]), events[1..], d, t);
      WaitingStep(s, events[0], d, t);
    }
  }

  /** After a successful consume a verification of the token succeeds if and only
      if its peek came before that consume, it is still waiting for its binding,
      and the binding then matches the record it peeked. */
  lemma VerifiesAfterConsumeIff(
    before: seq<Event>, after: seq<Event>, d: Digest, t: Thread, resolved: Option<Binding>, publicSession: bool)
    requires Run(INITIAL, before).Some? && d in Run(INITIAL, before).value.consumed
    requires Run(Run(INITIAL, before).value, after).Some?
    ensures var s := Run(INITIAL, before).value;
            var s' := Run(s, after).value;
            VerifiesNow(s', t, d, resolved, publicSession) <==>
              && WaitsWith(s, t, d) && t in s'.requests && s'.requests[t] == s.requests[t]
              && BindingOk(s.requests[t].capability.record, resolved, publicSession)
  {
    RunKeepsInv(INITIAL, before);
    WaitingSince(Run(INITIAL, before).value, after, d, t);
  }

  lemma RunStep(s: State, events: seq<Event>, s': State)
    requires events != [] && Enabled(s, events[0]) && s' == Apply(s, events[0])
    ensures Run(s, events) == Run(s', events[1..])
  {
  }

  // ---- Who a verification lets through ---------------------------------------------------

  /** The rest of a verification, in plain terms: a bound record wants exactly its
      own binding, five empty fields stand for no binding at all, and an unbound
      record wants a public session. */
  lemma FinishInPlain(s: State, t: Thread, resolved: Option<Binding>, publicSession: bool)
    requires t in s.requests && s.requests[t].Awaiting?
    ensures var c := s.requests[t].capability;
            var after := Apply(s, Finish(t, resolved, publicSession));
            && after.requests[t] in {Verified(c), Denied}
            && after.store == s.store && after.issued == s.issued && after.consumed == s.consumed
            && (forall b, b' :: c.record.binding == Some(b) && resolved == Some(b') ==>
                  (after.requests[t].Verified? <==>
                     && b'.principal == b.principal && b'.owner == b.owner && b'.tenant == b.tenant
                     && b'.analysisId == b.analysisId && b'.projectId == b.projectId))
            && (forall b :: c.record.binding == Some(b) && resolved == None ==>
                  (after.requests[t].Verified? <==>
                     b.principal == "" && b.owner == "" && b.tenant == "" && b.analysisId == "" && b.projectId == ""))
            && (c.record.binding == None ==> (after.requests[t].Verified? <==> publicSession))
  {
  }

  /** What the caller of a record with this binding had to be found out to be. */
  predicate Entitled(binding: Option<Binding>, resolved: Option<Binding>, publicSession: bool) {
    || (binding.Some? && resolved == binding)
    || (binding == Some(Binding("", "", "", "", "")) && resolved == None)
    || (binding == None && publicSession)
  }

  /** Among the first `n` events the request was found entitled to a record. */
  predicate WasEntitled(events: seq<Event>, n: nat, t: Thread, binding: Option<Binding>)
    requires n <= |events|
  {
    exists j :: 0 <= j < n && events[j].Finish? && events[j].thread == t
                && Entitled(binding, events[j].resolved, events[j].publicSession)
  }

  lemma {:induction false} RunAppend(s: State, events: seq<Event>, e: Event)
    requires Run(s, events + [e]).Some?
    ensures Run(s, events).Some? && Enabled(Run(s, events).value, e)
    ensures Run(s, events + [e]) == Some(Apply(Run(s, events).value, e))
    decreases events
  {
    if events == [] {
      assert events + [e] == [e];
      assert Run(Apply(s, e), []) == Some(Apply(s, e));
      assert [e][1..] == [];
    } else {
      assert (events + [e])[1..] == events[1..] + [e];
      RunAppend(Apply(s, events[0]), events[1..], e);
    }
  }

  lemma WasEntitledStays(events: seq<Event>, e: Event, t: Thread, binding: Option<Binding>)
    ensures WasEntitled(events, |events|, t, binding) ==> WasEntitled(events + [e], |events| + 1, t, binding)
  {
    if WasEntitled(events, |events|, t, binding) {
      var j :| 0 <= j < |events| && events[j].Finish? && events[j].thread == t
               && Entitled(binding, events[j].resolved, events[j].publicSession);
      assert (events + [e])[j] == events[j];
    }
  }

  lemma {:induction false} VerifiedWereEntitled(events: seq<Event>, t: Thread)
    requires Run(INITIAL, events).Some?
    ensures var s := Run(INITIAL, events).value;
            t in s.requests && s.requests[t].Verified? ==>
              WasEntitled(events, |events|, t, s.requests[t].capability.record.binding)
  {
    if events != [] {
      var n := |events| - 1;
      var before, e := events[..n], events[n];
      assert events == before + [e];
      RunAppend(INITIAL, before, e);
      VerifiedWereEntitled(before, t);
      var s := Run(INITIAL, before).value;
      if t in s.requests && s.requests[t].Verified? {
        WasEntitledStays(before, e, t, s.requests[t].capability.record.binding);
      }
    }
  }

  /** In every interleaving a consume succeeds only for a request that was found,
      in an earlier step of its own, to have exactly the binding the capability was
      issued with, or to fall under one of the two cases without a binding. */
  lemma ConsumersWereEntitled(events: seq<Event>, t: Thread, effect: Effect)
    requires Run(INITIAL, events).Some? && Enabled(Run(INITIAL, events).value, Consume(t, effect))
    ensures var s := Run(INITIAL, events).value;
            var s' := Apply(s, Consume(t, effect));
            s'.consumed != s.consumed ==>
              && |s'.consumed| == |s.consumed| + 1
              && var d := s'.consumed[|s.consumed|];
                 d in s.issued && WasEntitled(events, |events|, t, s.issued[d].binding)
  {
    RunKeepsInv(INITIAL, events);
    VerifiedWereEntitled(events, t);
  }

  /** A peek deletes an entry that is of another scope, expired, or changed in its
      contract, and no other. */
  lemma StaleIsBurned(s: State, t: Thread, d: Digest, q: Request, now: Time)
    requires t !in s.requests && d in s.store
    ensures var r, after := s.store[d], Apply(s, Peek(t, d, q, now, Completes, Completes));
            after.store == if || r.scope != "artifact:export"
                              || (r.diagramId == q.diagramId && (r.expiresAt < now || r.current != r.issued))
                           then s.store - {d} else s.store
  {
  }
}
