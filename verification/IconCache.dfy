/** The generation-stamped cache of landing-zone icon data URIs: any number of
    lookups race with any number of registry writers. */
module IconCache {
  import opened Text

  type Key = string
  type IconId = string
  type Uri = string

  // ---- The locked sections -------------------------------------------------

  datatype Cache = Cache(entries: map<Key, Uri>, generation: nat)

  function Cleared(c: Cache): Cache {
    Cache(map[], c.generation + 1)
  }

  function Cached(c: Cache, key: Key): Option<Uri> {
    if key in c.entries then Some(c.entries[key]) else None
  }

  function Stored(c: Cache, key: Key, uri: Uri, generation: nat): Cache {
    if c.generation == generation then c.(entries := c.entries[key := uri]) else c
  }

  /** The module state guarded by the cache lock; each method is one locked section. */
  class LockedCache {
    var entries: map<Key, Uri>
    var generation: nat

    constructor ()
      ensures Value() == Cache(map[], 0)
    {
      entries, generation := map[], 0;
    }

    ghost function Value(): Cache
      reads this
    {
      Cache(entries, generation)
    }

    method Clear()
      modifies this
      ensures Value() == Cleared(old(Value()))
      ensures entries == map[] && generation == old(generation) + 1
    {
      entries := map[];
      generation := generation + 1;
    }

    method Probe(key: Key) returns (hit: Option<Uri>, stamp: nat)
      ensures hit == Cached(Value(), key) && stamp == generation
      ensures if key in entries then hit == Some(entries[key]) else hit == None
    {
      stamp := generation;
      hit := if key in entries then Some(entries[key]) else None;
    }

    method StoreIfCurrent(key: Key, uri: Uri, stamp: nat) returns (stored: bool)
      modifies this
      ensures stored == (old(generation) == stamp)
      ensures Value() == Stored(old(Value()), key, uri, stamp)
      ensures generation == old(generation)
      ensures entries == if old(generation) == stamp then old(entries)[key := uri] else old(entries)
    {
      stored := generation == stamp;
      if stored {
        entries := entries[key := uri];
      }
    }

    method IsCurrent(stamp: nat) returns (current: bool)
      ensures current == (generation == stamp)
    {
      current := generation == stamp;
    }
  }

  // ---- The registry ----------------------------------------------------------

  /** Registry identifiers that have an SVG, with its data URI. */
  type Registry = map<IconId, Uri>

  /** The identifiers tried for a key, in order, and the bundled icon used when
      none of them resolves. */
  datatype Catalog = Catalog(candidates: Key -> seq<IconId>, bundled: Key -> Option<Uri>)

  function FirstHit(ids: seq<IconId>, reg: Registry): Option<Uri> {
    if ids == [] then None
    else if ids[0] in reg then Some(reg[ids[0]])
    else FirstHit(ids[1..], reg)
  }

  /** The value a lookup is meant to return: all candidates read at one instant. */
  function Resolve(cat: Catalog, reg: Registry, key: Key): Option<Uri> {
    var hit := FirstHit(cat.candidates(key), reg);
    if hit.Some? then hit else cat.bundled(key)
  }

  /** The first candidate that the registry has wins; the bundled icon stands in
      only when it has none. */
  lemma {:induction false} FirstCandidateWins(cat: Catalog, reg: Registry, key: Key, i: nat)
    requires i <= |cat.candidates(key)| && forall j :: 0 <= j < i ==> cat.candidates(key)[j] !in reg
    ensures i < |cat.candidates(key)| && cat.candidates(key)[i] in reg ==>
              Resolve(cat, reg, key) == Some(reg[cat.candidates(key)[i]])
    ensures i == |cat.candidates(key)| ==> Resolve(cat, reg, key) == cat.bundled(key)
  {
    FirstHitFrom(cat.candidates(key), reg, i);
  }

  lemma {:induction false} FirstHitFrom(ids: seq<IconId>, reg: Registry, i: nat)
    requires i <= |ids| && forall j :: 0 <= j < i ==> ids[j] !in reg
    ensures FirstHit(ids, reg) == FirstHit(ids[i..], reg)
  {
    if i > 0 {
      FirstHitFrom(ids[1..], reg, i - 1);
      assert ids[1..][i - 1..] == ids[i..];
    } else {
      assert ids[0..] == ids;
    }
  }

  // ---- The protocol ------------------------------------------------------------

  const ATTEMPTS := 3

  /** Where one icon rendering stands. Candidates are read one at a time without
      the lock, so the registry may change between two reads. */
  datatype Phase =
    | Probing
    | Reading(stamp: nat, next: nat)
    | Storing(uri: Uri, stamp: nat)
    | Holding(uri: Uri, stamp: nat)
    | Emitted(uri: Uri)
    | NotFound(stamp: nat)
    | Exhausted

  /** `started` is the cache generation when the rendering began. */
  datatype Lookup = Lookup(key: Key, started: nat, outer: nat, inner: nat, phase: Phase)

  type Thread = nat

  /** `writing` holds the writers that are between a registry write and the clear
      that follows it. */
  datatype State = State(registry: Registry, cache: Cache, lookups: map<Thread, Lookup>, writing: set<Thread>)

  datatype Event =
    | Write(writer: Thread, registry: Registry)
    | Clear(writer: Thread)
    | Begin(thread: Thread, key: Key)
    | Probe(thread: Thread)
    | Read(thread: Thread)
    | Store(thread: Thread)
    | Recheck(thread: Thread)

  predicate Enabled(s: State, e: Event) {
    match e
    case Write(_, _) => true
    case Clear(_) => true
    case Begin(t, _) => t !in s.lookups
    case Probe(t) => t in s.lookups && s.lookups[t].phase.Probing?
    case Read(t) => t in s.lookups && s.lookups[t].phase.Reading?
    case Store(t) => t in s.lookups && s.lookups[t].phase.Storing?
    case Recheck(t) => t in s.lookups && s.lookups[t].phase.Holding?
  }

  function AfterProbe(c: Cache, l: Lookup): Lookup {
    var hit := Cached(c, l.key);
    l.(phase := if hit.Some? then Holding(hit.value, c.generation) else Reading(c.generation, 0))
  }

  function AfterRead(cat: Catalog, reg: Registry, l: Lookup): Lookup
    requires l.phase.Reading?
  {
    var ids := cat.candidates(l.key);
    var Reading(stamp, next) := l.phase;
    if next < |ids| then
      l.(phase := if ids[next] in reg then Storing(reg[ids[next]], stamp) else Reading(stamp, next + 1))
    else
      var bundled := cat.bundled(l.key);
      l.(phase := if bundled.Some? then Storing(bundled.value, stamp) else NotFound(stamp))
  }

  function AfterStore(c: Cache, l: Lookup): Lookup
    requires l.phase.Storing?
  {
    if c.generation == l.phase.stamp then l.(phase := Holding(l.phase.uri, l.phase.stamp))
    else l.(inner := l.inner + 1, phase := if l.inner + 1 < ATTEMPTS then Probing else Exhausted)
  }

  function AfterRecheck(c: Cache, l: Lookup): Lookup
    requires l.phase.Holding?
  {
    if c.generation == l.phase.stamp then l.(phase := Emitted(l.phase.uri))
    else l.(outer := l.outer + 1, inner := 0, phase := if l.outer + 1 < ATTEMPTS then Probing else Exhausted)
  }

  function Apply(cat: Catalog, s: State, e: Event): State
    requires Enabled(s, e)
  {
    match e
    case Write(w, reg) => s.(registry := reg, writing := s.writing + {w})
    case Clear(w) => s.(cache := Cleared(s.cache), writing := s.writing - {w})
    case Begin(t, key) => s.(lookups := s.lookups[t := Lookup(key, s.cache.generation, 0, 0, Probing)])
    case Probe(t) => s.(lookups := s.lookups[t := AfterProbe(s.cache, s.lookups[t])])
    case Read(t) => s.(lookups := s.lookups[t := AfterRead(cat, s.registry, s.lookups[t])])
    case Store(t) =>
      var l := s.lookups[t];
      s.(cache := Stored(s.cache, l.key, l.phase.uri, l.phase.stamp), lookups := s.lookups[t := AfterStore(s.cache, l)])
    case Recheck(t) => s.(lookups := s.lookups[t := AfterRecheck(s.cache, s.lookups[t])])
  }

  function Initial(reg: Registry): State {
    State(reg, Cache(map[], 0), map[], {})
  }

  /** The state after a run, or `None` when an event was not enabled. */
  function Run(cat: Catalog, reg: Registry, events: seq<Event>): Option<State> {
    if events == [] then Some(Initial(reg))
    else
      var before := Run(cat, reg, events[..|events| - 1]);
      var e := events[|events| - 1];
      if before.Some? && Enabled(before.value, e) then Some(Apply(cat, before.value, e)) else None
  }

  // ---- The invariant ---------------------------------------------------------

  predicate CacheCurrent(cat: Catalog, s: State) {
    forall k :: k in s.cache.entries ==> Resolve(cat, s.registry, k) == Some(s.cache.entries[k])
  }

  /** What a lookup that carries the current generation knows is still true. */
  predicate LookupCurrent(cat: Catalog, reg: Registry, generation: nat, l: Lookup) {
    match l.phase
    case Reading(stamp, next) =>
      stamp == generation ==>
        && next <= |cat.candidates(l.key)|
        && FirstHit(cat.candidates(l.key)[..next], reg) == None
    case Storing(uri, stamp) => stamp == generation ==> Resolve(cat, reg, l.key) == Some(uri)
    case Holding(uri, stamp) => stamp == generation ==> Resolve(cat, reg, l.key) == Some(uri)
    case NotFound(stamp) => stamp == generation ==> Resolve(cat, reg, l.key) == None
    case _ => true
  }

  /** Every failed attempt is paid for by a clear that happened during the call. */
  predicate AttemptsPaid(generation: nat, l: Lookup) {
    match l.phase
    case Probing => l.started + l.outer + l.inner <= generation
    case Reading(stamp, _) => l.started + l.outer + l.inner <= stamp <= generation
    case Storing(_, stamp) => l.started + l.outer + l.inner <= stamp <= generation
    case Holding(_, stamp) => l.started + l.outer + l.inner <= stamp <= generation
    case NotFound(stamp) => stamp <= generation
    case Exhausted => l.started + ATTEMPTS <= generation
    case Emitted(_) => true
  }

  predicate Inv(cat: Catalog, s: State) {
    && (forall t :: t in s.lookups ==> AttemptsPaid(s.cache.generation, s.lookups[t]))
    && (s.writing == {} ==>
        && CacheCurrent(cat, s)
        && forall t :: t in s.lookups ==> LookupCurrent(cat, s.registry, s.cache.generation, s.lookups[t]))
  }

  lemma {:induction false} FirstHitPrefix(ids: seq<IconId>, reg: Registry, next: nat)
    requires next <= |ids| && FirstHit(ids[..next], reg) == None
    ensures next < |ids| && ids[next] in reg ==> FirstHit(ids, reg) == Some(reg[ids[next]])
    ensures next < |ids| && ids[next] !in reg ==> FirstHit(ids[..next + 1], reg) == None
    ensures next == |ids| ==> FirstHit(ids, reg) == None
  {
    if next == |ids| {
      assert ids[..next] == ids;
    } else if next > 0 {
      assert ids[..next][1..] == ids[1..][..next - 1];
      FirstHitPrefix(ids[1..], reg, next - 1);
      assert ids[..next + 1][1..] == ids[1..][..next];
    }
  }

  lemma InvPreserved(cat: Catalog, s: State, e: Event)
    requires Inv(cat, s) && Enabled(s, e)
    ensures Inv(cat, Apply(cat, s, e))
  {
    if e.Read? {
      var l := s.lookups[e.thread];
      var ids := cat.candidates(l.key);
      if s.writing == {} && l.phase.stamp == s.cache.generation {
        FirstHitPrefix(ids, s.registry, l.phase.next);
      }
    }
  }

  lemma {:induction false} InvHolds(cat: Catalog, reg: Registry, events: seq<Event>)
    requires Run(cat, reg, events).Some?
    ensures Inv(cat, Run(cat, reg, events).value)
  {
    if events != [] {
      InvHolds(cat, reg, events[..|events| - 1]);
      InvPreserved(cat, Run(cat, reg, events[..|events| - 1]).value, events[|events| - 1]);
    }
  }

  // ---- Results -------------------------------------------------------------------

  /** In every interleaving, whenever no writer is between its write and its
      clear, the whole cache agrees with the registry, and so does every
      lookup in flight that carries the current generation. */
  lemma QuiescentCacheIsCurrent(cat: Catalog, reg: Registry, events: seq<Event>)
    requires Run(cat, reg, events).Some? && Run(cat, reg, events).value.writing == {}
    ensures var s := Run(cat, reg, events).value;
            && CacheCurrent(cat, s)
            && forall t :: t in s.lookups ==> LookupCurrent(cat, s.registry, s.cache.generation, s.lookups[t])
  {
    InvHolds(cat, reg, events);
  }

  /** The URI that passes the locked re-check is the registry's value at that moment. */
  lemma EmittedUriIsCurrent(cat: Catalog, reg: Registry, events: seq<Event>, t: Thread)
    requires Run(cat, reg, events + [Recheck(t)]).Some?
    requires var s := Run(cat, reg, events + [Recheck(t)]).value;
             s.writing == {} && s.lookups[t].phase.Emitted?
    ensures var s := Run(cat, reg, events + [Recheck(t)]).value;
            Resolve(cat, s.registry, s.lookups[t].key) == Some(s.lookups[t].phase.uri)
  {
    var all := events + [Recheck(t)];
    assert all[..|all| - 1] == events && all[|all| - 1] == Recheck(t);
    InvHolds(cat, reg, events);
    assert LookupCurrent(cat, Run(cat, reg, events).value.registry, Run(cat, reg, events).value.cache.generation,
                         Run(cat, reg, events).value.lookups[t]);
  }

  /** A rendering gives up after its retries only if the cache was cleared at
      least three times since it began; a key with a bundled icon has no other
      way to end in the placeholder tile. */
  lemma PlaceholderNeedsThreeClears(cat: Catalog, reg: Registry, events: seq<Event>, t: Thread)
    requires Run(cat, reg, events).Some?
    requires var s := Run(cat, reg, events).value;
             t in s.lookups && (s.lookups[t].phase.Exhausted? || s.lookups[t].phase.NotFound?)
    ensures var s := Run(cat, reg, events).value;
            && (s.lookups[t].phase.Exhausted? ==> s.lookups[t].started + 3 <= s.cache.generation)
            && (cat.bundled(s.lookups[t].key).Some? ==> s.lookups[t].phase.Exhausted?)
  {
    InvHolds(cat, reg, events);
    BundledIsFound(cat, reg, events, t);
  }

  lemma {:induction false} BundledIsFound(cat: Catalog, reg: Registry, events: seq<Event>, t: Thread)
    requires Run(cat, reg, events).Some?
    ensures var s := Run(cat, reg, events).value;
            t in s.lookups && cat.bundled(s.lookups[t].key).Some? ==> !s.lookups[t].phase.NotFound?
  {
    if events != [] {
      BundledIsFound(cat, reg, events[..|events| - 1], t);
    }
  }

  /** Attempts are counted up to three on both levels, and the rendering gives up
      exactly when one level has used all of them. */
  predicate Counted(l: Lookup) {
    if l.phase.Exhausted? then l.outer == 3 || l.inner == 3 else l.outer <= 2 && l.inner <= 2
  }

  lemma {:induction false} AttemptsAreCounted(cat: Catalog, reg: Registry, events: seq<Event>)
    requires Run(cat, reg, events).Some?
    ensures forall t :: t in Run(cat, reg, events).value.lookups ==> Counted(Run(cat, reg, events).value.lookups[t])
  {
    if events != [] {
      AttemptsAreCounted(cat, reg, events[..|events| - 1]);
    }
  }

  // ---- An undisturbed rendering ------------------------------------------------------

  /** The next step of a rendering that still has one. */
  function NextStep(t: Thread, phase: Phase): Option<Event> {
    match phase
    case Probing => Some(Probe(t))
    case Reading(_, _) => Some(Read(t))
    case Storing(_, _) => Some(Store(t))
    case Holding(_, _) => Some(Recheck(t))
    case _ => None
  }

  /** Up to `n` steps of one rendering with nothing in between. */
  function Alone(cat: Catalog, s: State, t: Thread, n: nat): State
    requires t in s.lookups
    decreases n
  {
    var e := NextStep(t, s.lookups[t].phase);
    if n == 0 || e == None then s else Alone(cat, Apply(cat, s, e.value), t, n - 1)
  }

  /** Where a rendering is that starts to read its candidates. */
  function ReadingAt(s: State, t: Thread, next: nat): State
    requires t in s.lookups
  {
    s.(lookups := s.lookups[t := s.lookups[t].(phase := Reading(s.cache.generation, next))])
  }

  /** What becomes of a rendering that has looked at every candidate. */
  function Settled(s: State, t: Thread, found: Option<Uri>): State
    requires t in s.lookups
  {
    var l := s.lookups[t];
    match found
    case Some(uri) =>
      s.(cache := s.cache.(entries := s.cache.entries[l.key := uri]),
         lookups := s.lookups[t := l.(phase := Emitted(uri))])
    case None => s.(lookups := s.lookups[t := l.(phase := NotFound(s.cache.generation))])
  }

  lemma AloneStep(cat: Catalog, s: State, t: Thread, n: nat)
    requires t in s.lookups && n > 0 && NextStep(t, s.lookups[t].phase).Some?
    ensures Alone(cat, s, t, n) == Alone(cat, Apply(cat, s, NextStep(t, s.lookups[t].phase).value), t, n - 1)
  {
  }

  /** Storing and re-checking a value under the current generation. */
  lemma AloneStores(cat: Catalog, s: State, t: Thread, uri: Uri, n: nat)
    requires t in s.lookups && n >= 2
    ensures var l := s.lookups[t];
            Alone(cat, s.(lookups := s.lookups[t := l.(phase := Storing(uri, s.cache.generation))]), t, n)
            == Settled(s, t, Some(uri))
  {
    var l := s.lookups[t];
    var storing := s.(lookups := s.lookups[t := l.(phase := Storing(uri, s.cache.generation))]);
    var holding := Apply(cat, storing, Store(t));
    AloneStep(cat, storing, t, n);
    AloneStep(cat, holding, t, n - 1);
    assert Apply(cat, holding, Recheck(t)).lookups == Settled(s, t, Some(uri)).lookups;
  }

  lemma {:induction false} AloneReads(cat: Catalog, s: State, t: Thread, next: nat, n: nat)
    requires t in s.lookups && next <= |cat.candidates(s.lookups[t].key)|
    requires FirstHit(cat.candidates(s.lookups[t].key)[..next], s.registry) == None
    requires n >= |cat.candidates(s.lookups[t].key)| - next + 3
    ensures Alone(cat, ReadingAt(s, t, next), t, n) ==
            Settled(s, t, Resolve(cat, s.registry, s.lookups[t].key))
    decreases |cat.candidates(s.lookups[t].key)| - next
  {
    hide Alone, Settled;
    var reading := ReadingAt(s, t, next);
    var ids := cat.candidates(s.lookups[t].key);
    AloneStep(cat, reading, t, n);
    FirstHitPrefix(ids, s.registry, next);
    var after := Apply(cat, reading, Read(t));
    if next < |ids| && ids[next] !in s.registry {
      assert after.lookups == ReadingAt(s, t, next + 1).lookups;
      AloneReads(cat, s, t, next + 1, n - 1);
    } else if next < |ids| || cat.bundled(s.lookups[t].key).Some? {
      var uri := Resolve(cat, s.registry, s.lookups[t].key).value;
      assert after.lookups == s.lookups[t := s.lookups[t].(phase := Storing(uri, s.cache.generation))];
      AloneStores(cat, s, t, uri, n - 1);
    } else {
      AloneEnds(cat, s, t, after, n - 1);
    }
  }

  lemma AloneEnds(cat: Catalog, s: State, t: Thread, after: State, n: nat)
    requires t in s.lookups
    requires after == s.(lookups := s.lookups[t := s.lookups[t].(phase := NotFound(s.cache.generation))])
    ensures Alone(cat, after, t, n) == Settled(s, t, None)
  {
  }

  /** A rendering that nothing disturbs ends with the cached URI if there is one;
      otherwise with the first candidate the registry has or the bundled icon,
      which it leaves in the cache for its key alone, so that the next rendering
      finds it there; and it is not found only if there is neither. */
  lemma UndisturbedRendering(cat: Catalog, s: State, t: Thread, n: nat)
    requires t in s.lookups && s.lookups[t].phase == Probing
    requires n >= |cat.candidates(s.lookups[t].key)| + 4
    ensures var key, after := s.lookups[t].key, Alone(cat, s, t, n);
            var found := Resolve(cat, s.registry, key);
            && t in after.lookups && after.registry == s.registry && after.cache.generation == s.cache.generation
            && if key in s.cache.entries then
                 after.lookups[t].phase == Emitted(s.cache.entries[key]) && after.cache == s.cache
               else if found.Some? then
                 && after.lookups[t].phase == Emitted(found.value)
                 && after.cache.entries == s.cache.entries[key := found.value]
               else after.lookups[t].phase == NotFound(s.cache.generation) && after.cache == s.cache
  {
    hide Alone;
    var l := s.lookups[t];
    var probed := Apply(cat, s, Probe(t));
    AloneStep(cat, s, t, n);
    if l.key in s.cache.entries {
      AloneStep(cat, probed, t, n - 1);
      AloneRests(cat, Apply(cat, probed, Recheck(t)), t, n - 2);
    } else {
      assert probed == ReadingAt(s, t, 0);
      AloneReads(cat, s, t, 0, n - 1);
    }
  }

  lemma AloneRests(cat: Catalog, s: State, t: Thread, n: nat)
    requires t in s.lookups && NextStep(t, s.lookups[t].phase) == None
    ensures Alone(cat, s, t, n) == s
  {
  }

  /** Three clears are enough: one between each read and the store after it. */
  lemma ThreeClearsExhaust(cat: Catalog, uri: Uri) returns (events: seq<Event>, s: State)
    requires cat.candidates("vm") == ["vm"]
    ensures Run(cat, map["vm" := uri], events) == Some(s) && s.cache.generation == 3
    ensures 0 in s.lookups && s.lookups[0].started == 0 && s.lookups[0].phase == Exhausted
  {
    var reg := map["vm" := uri];
    events, s := [], Initial(reg);
    events, s := Extend(cat, reg, events, s, Begin(0, "vm"));
    for i := 0 to 3
      invariant Run(cat, reg, events) == Some(s) && s.registry == reg && s.cache == Cache(map[], i)
      invariant 0 in s.lookups
      invariant s.lookups[0] == Lookup("vm", 0, 0, i, if i < 3 then Probing else Exhausted)
    {
      events, s := Extend(cat, reg, events, s, Probe(0));
      assert s.lookups[0].phase == Reading(i, 0);
      events, s := Extend(cat, reg, events, s, Read(0));
      assert s.lookups[0].phase == Storing(uri, i);
      events, s := Extend(cat, reg, events, s, Clear(1));
      events, s := Extend(cat, reg, events, s, Store(0));
    }
  }

  /** The promise does need the clear: between a write and its clear a stale
      URI can pass the re-check. */
  lemma StaleBeforeClear(cat: Catalog, before: Uri, after: Uri)
    returns (events: seq<Event>, s: State)
    requires cat.candidates("vm") == ["vm"] && before != after
    ensures Run(cat, map["vm" := before], events) == Some(s)
    ensures 0 in s.lookups && s.lookups[0] == Lookup("vm", 0, 0, 0, Emitted(before))
    ensures Resolve(cat, s.registry, "vm") == Some(after) && s.writing != {}
  {
    var reg, reg' := map["vm" := before], map["vm" := after];
    events, s := [], Initial(reg);
    events, s := Extend(cat, reg, events, s, Begin(0, "vm"));
    events, s := Extend(cat, reg, events, s, Probe(0));
    assert s.lookups[0].phase == Reading(0, 0);
    events, s := Extend(cat, reg, events, s, Read(0));
    assert s.lookups[0].phase == Storing(before, 0);
    events, s := Extend(cat, reg, events, s, Store(0));
    assert s.lookups[0].phase == Holding(before, 0);
    events, s := Extend(cat, reg, events, s, Write(1, reg'));
    events, s := Extend(cat, reg, events, s, Recheck(0));
    assert s.registry == reg';
  }

  lemma Extend(cat: Catalog, reg: Registry, events: seq<Event>, s: State, e: Event)
    returns (events': seq<Event>, s': State)
    requires Run(cat, reg, events) == Some(s) && Enabled(s, e)
    ensures events' == events + [e] && s' == Apply(cat, s, e) && Run(cat, reg, events') == Some(s')
  {
    events', s' := events + [e], Apply(cat, s, e);
    assert events'[..|events'| - 1] == events && events'[|events'| - 1] == e;
  }
}
