/** Version history of an analysis and the comparison of two versions. */
module VersionDiff {
  import opened Text

  // ---- Services and their keys ----------------------------------------------------------

  /** A service entry; `repr` is its printed form, `cost` its monthly cost in
      cents. Empty strings count as missing. */
  datatype Service = Service(
    name: string, sourceService: string, id: string, repr: string,
    azureService: string, targetService: Option<string>, cost: int)

  function Key(s: Service): string {
    if s.name != "" then s.name
    else if s.sourceService != "" then s.sourceService
    else if s.id != "" then s.id
    else s.repr
  }

  function Target(s: Service): Option<string> {
    if s.azureService != "" then Some(s.azureService) else s.targetService
  }

  /** Services by key; a later entry with the same key replaces an earlier one. */
  function ByKey(services: seq<Service>): map<string, Service> {
    if services == [] then map[]
    else
      var n := |services| - 1;
      ByKey(services[..n])[Key(services[n]) := services[n]]
  }

  lemma {:induction false} KeysMatch(services: seq<Service>)
    ensures forall k :: k in ByKey(services) ==> Key(ByKey(services)[k]) == k && ByKey(services)[k] in services
  {
    if services != [] {
      KeysMatch(services[..|services| - 1]);
    }
  }

  method Index(services: seq<Service>) returns (m: map<string, Service>)
    ensures m == ByKey(services)
  {
    m := map[];
    for i := 0 to |services|
      invariant m == ByKey(services[..i])
    {
      assert services[..i + 1][..i] == services[..i];
      m := m[Key(services[i]) := services[i]];
    }
    assert services[..|services|] == services;
  }

  // ---- The service diff ----------------------------------------------------------------------

  datatype Change = Change(service: string, oldMapping: Option<string>, newMapping: Option<string>)

  datatype Diff = Diff(added: seq<Service>, removed: seq<Service>, changed: seq<Change>)

  /** The entries of `m` for an ascending listing of the keys. */
  predicate Lists(entries: seq<Service>, m: map<string, Service>, keys: set<string>)
    requires keys <= m.Keys
  {
    && (forall i, j :: 0 <= i < j < |entries| ==> TextLess(Key(entries[i]), Key(entries[j])))
    && (forall i :: 0 <= i < |entries| ==> Key(entries[i]) in keys && entries[i] == m[Key(entries[i])])
    && (forall k :: k in keys ==> exists i :: 0 <= i < |entries| && Key(entries[i]) == k)
  }

  predicate Remapped(before: map<string, Service>, after: map<string, Service>, k: string) {
    k in before && k in after && Target(before[k]) != Target(after[k])
  }

  ghost predicate ListsChanges(changed: seq<Change>, before: map<string, Service>, after: map<string, Service>) {
    && (forall i, j :: 0 <= i < j < |changed| ==> TextLess(changed[i].service, changed[j].service))
    && (forall i :: 0 <= i < |changed| ==> IsChange(changed[i], before, after))
    && (forall k :: Remapped(before, after, k) ==> HasChange(changed, k))
  }

  predicate IsChange(c: Change, before: map<string, Service>, after: map<string, Service>) {
    Remapped(before, after, c.service) && c == Change(c.service, Target(before[c.service]), Target(after[c.service]))
  }

  predicate HasChange(changed: seq<Change>, k: string) {
    exists i :: 0 <= i < |changed| && changed[i].service == k
  }

  ghost predicate IsDiff(d: Diff, before: map<string, Service>, after: map<string, Service>) {
    && Lists(d.added, after, after.Keys - before.Keys)
    && Lists(d.removed, before, before.Keys - after.Keys)
    && ListsChanges(d.changed, before, after)
  }

  predicate Keyed(m: map<string, Service>) {
    forall k :: k in m ==> Key(m[k]) == k
  }

  method Listing(m: map<string, Service>, keys: set<string>) returns (entries: seq<Service>)
    requires keys <= m.Keys && Keyed(m)
    ensures Lists(entries, m, keys)
  {
    var order := Sorted(keys);
    forall i | 0 <= i < |order| ensures order[i] in m {
      assert order[i] in order;
    }
    entries := seq(|order|, i requires 0 <= i < |order| && order[i] in m => m[order[i]]);
    forall k | k in keys ensures exists i :: 0 <= i < |entries| && Key(entries[i]) == k {
      var i :| 0 <= i < |order| && order[i] == k;
      assert Key(entries[i]) == k;
    }
    forall i | 0 <= i < |entries| ensures Key(entries[i]) == order[i] && order[i] in keys {
      assert order[i] in order;
    }
  }

  method DiffServices(oldServices: seq<Service>, newServices: seq<Service>) returns (d: Diff)
    ensures IsDiff(d, ByKey(oldServices), ByKey(newServices))
  {
    var before := Index(oldServices);
    var after := Index(newServices);
    KeysMatch(oldServices);
    KeysMatch(newServices);
    var added := Listing(after, after.Keys - before.Keys);
    var removed := Listing(before, before.Keys - after.Keys);
    var changed := ListChanged(before, after);
    d := Diff(added, removed, changed);
  }

  method ListChanged(before: map<string, Service>, after: map<string, Service>) returns (changed: seq<Change>)
    ensures ListsChanges(changed, before, after)
  {
    changed := [];
    var common := Sorted(before.Keys * after.Keys);
    for i := 0 to |common|
      invariant forall a, b :: 0 <= a < b < |changed| ==> TextLess(changed[a].service, changed[b].service)
      invariant forall a :: 0 <= a < |changed| ==> IsChange(changed[a], before, after)
      invariant forall a, j :: 0 <= a < |changed| && i <= j < |common| ==> TextLess(changed[a].service, common[j])
      invariant forall j :: 0 <= j < i && Remapped(before, after, common[j]) ==> HasChange(changed, common[j])
    {
      var k := common[i];
      assert k in common;
      var oldTarget, newTarget := Target(before[k]), Target(after[k]);
      if oldTarget != newTarget {
        var n := |changed|;
        var longer := changed + [Change(k, oldTarget, newTarget)];
        assert longer[n].service == k && longer[..n] == changed;
        forall j | HasChange(changed, j) ensures HasChange(longer, j) {
          var a :| 0 <= a < |changed| && changed[a].service == j;
          assert longer[a].service == j;
        }
        changed := longer;
      }
    }
    forall k | Remapped(before, after, k) ensures HasChange(changed, k) {
      assert k in common;
    }
  }

  // ---- What the diff means -----------------------------------------------------------------------

  type Targets = map<string, Option<string>>

  function TargetsOf(m: map<string, Service>): Targets {
    map k | k in m :: Target(m[k])
  }

  function KeysOf(entries: seq<Service>): set<string> {
    set s | s in entries :: Key(s)
  }

  function WithAdded(t: Targets, added: seq<Service>): Targets {
    if added == [] then t
    else WithAdded(t, added[..|added| - 1])[Key(added[|added| - 1]) := Target(added[|added| - 1])]
  }

  function WithChanged(t: Targets, changed: seq<Change>): Targets {
    if changed == [] then t
    else WithChanged(t, changed[..|changed| - 1])[changed[|changed| - 1].service := changed[|changed| - 1].newMapping]
  }

  /** Replaying a report on the old key-to-target map. */
  function Replay(t: Targets, d: Diff): Targets {
    WithChanged(WithAdded(t - KeysOf(d.removed), d.added), d.changed)
  }

  lemma {:induction false} WithAddedAt(t: Targets, added: seq<Service>, m: map<string, Service>, k: string)
    requires forall i :: 0 <= i < |added| ==> Key(added[i]) in m && added[i] == m[Key(added[i])]
    ensures var r := WithAdded(t, added);
            if exists i :: 0 <= i < |added| && Key(added[i]) == k
            then k in r && k in m && r[k] == Target(m[k])
            else (k in r <==> k in t) && (k in t ==> r[k] == t[k])
  {
    if added != [] {
      var n := |added| - 1;
      WithAddedAt(t, added[..n], m, k);
      if Key(added[n]) != k && exists i :: 0 <= i < |added| && Key(added[i]) == k {
        var i :| 0 <= i < |added| && Key(added[i]) == k;
        assert Key(added[..n][i]) == k;
      }
    }
  }

  lemma {:induction false} WithChangedAt(t: Targets, changed: seq<Change>, m: map<string, Service>, k: string)
    requires forall i :: 0 <= i < |changed| ==>
               changed[i].service in m && changed[i].newMapping == Target(m[changed[i].service])
    ensures var r := WithChanged(t, changed);
            if HasChange(changed, k)
            then k in r && k in m && r[k] == Target(m[k])
            else (k in r <==> k in t) && (k in t ==> r[k] == t[k])
  {
    if changed != [] {
      WithChangedAt(t, changed[..|changed| - 1], m, k);
    }
  }

  lemma ReplayAt(d: Diff, before: map<string, Service>, after: map<string, Service>, k: string)
    requires IsDiff(d, before, after)
    ensures var r := Replay(TargetsOf(before), d);
            (k in r <==> k in after) && (k in after ==> r[k] == Target(after[k]))
  {
    var start := TargetsOf(before) - KeysOf(d.removed);
    var middle := WithAdded(start, d.added);
    RemovedKeys(d, before, after, k);
    AddedKeys(d, before, after, k);
    WithAddedAt(start, d.added, after, k);
    WithChangedAt(middle, d.changed, after, k);
    assert Remapped(before, after, k) <==> HasChange(d.changed, k);
  }

  lemma AddedKeys(d: Diff, before: map<string, Service>, after: map<string, Service>, k: string)
    requires IsDiff(d, before, after)
    ensures (exists i :: 0 <= i < |d.added| && Key(d.added[i]) == k) <==> k in after && k !in before
  {
    if k in after && k !in before {
      assert k in after.Keys - before.Keys;
    }
  }

  lemma RemovedKeys(d: Diff, before: map<string, Service>, after: map<string, Service>, k: string)
    requires IsDiff(d, before, after)
    ensures k in KeysOf(d.removed) <==> k in before && k !in after
  {
    if k in before && k !in after {
      assert k in before.Keys - after.Keys;
      var i :| 0 <= i < |d.removed| && Key(d.removed[i]) == k;
      assert d.removed[i] in d.removed;
    }
  }

  /** Replaying the reported added, removed and changed entries on the old
      key-to-target map yields exactly the new map. */
  lemma ReplayGivesNew(d: Diff, before: map<string, Service>, after: map<string, Service>)
    requires IsDiff(d, before, after)
    ensures Replay(TargetsOf(before), d) == TargetsOf(after)
  {
    var r := Replay(TargetsOf(before), d);
    forall k ensures (k in r <==> k in after) && (k in after ==> r[k] == Target(after[k])) {
      ReplayAt(d, before, after, k);
    }
  }

  function KeysIn(entries: seq<Service>): seq<string> {
    seq(|entries|, i requires 0 <= i < |entries| => Key(entries[i]))
  }

  lemma ListingIsUnique(a: seq<Service>, b: seq<Service>, m: map<string, Service>, keys: set<string>)
    requires keys <= m.Keys && Lists(a, m, keys) && Lists(b, m, keys)
    ensures a == b
  {
    ListedKeys(a, m, keys);
    ListedKeys(b, m, keys);
    AscendingUnique(KeysIn(a), KeysIn(b));
    forall i | 0 <= i < |a| ensures a[i] == b[i] {
      assert KeysIn(a)[i] == KeysIn(b)[i];
    }
  }

  lemma ListedKeys(entries: seq<Service>, m: map<string, Service>, keys: set<string>)
    requires keys <= m.Keys && Lists(entries, m, keys)
    ensures Ascending(KeysIn(entries)) && forall k :: k in KeysIn(entries) <==> k in keys
  {
    forall k | k in keys ensures k in KeysIn(entries) {
      var i :| 0 <= i < |entries| && Key(entries[i]) == k;
      assert KeysIn(entries)[i] == k;
    }
  }

  lemma ChangesAreUnique(a: seq<Change>, b: seq<Change>, before: map<string, Service>, after: map<string, Service>)
    requires ListsChanges(a, before, after) && ListsChanges(b, before, after)
    ensures a == b
  {
    ChangedKeys(a, before, after);
    ChangedKeys(b, before, after);
    AscendingUnique(ServicesIn(a), ServicesIn(b));
    forall i | 0 <= i < |a| ensures a[i] == b[i] {
      assert ServicesIn(a)[i] == ServicesIn(b)[i];
    }
  }

  function ServicesIn(changed: seq<Change>): seq<string> {
    seq(|changed|, i requires 0 <= i < |changed| => changed[i].service)
  }

  lemma ChangedKeys(changed: seq<Change>, before: map<string, Service>, after: map<string, Service>)
    requires ListsChanges(changed, before, after)
    ensures Ascending(ServicesIn(changed)) && forall k :: k in ServicesIn(changed) <==> Remapped(before, after, k)
  {
    forall k | Remapped(before, after, k) ensures k in ServicesIn(changed) {
      var i :| 0 <= i < |changed| && changed[i].service == k;
      assert ServicesIn(changed)[i] == k;
    }
  }

  /** Two versions have exactly one report. */
  lemma DiffIsUnique(d1: Diff, d2: Diff, before: map<string, Service>, after: map<string, Service>)
    requires IsDiff(d1, before, after) && IsDiff(d2, before, after)
    ensures d1 == d2
  {
    ListingIsUnique(d1.added, d2.added, after, after.Keys - before.Keys);
    ListingIsUnique(d1.removed, d2.removed, before, before.Keys - after.Keys);
    ChangesAreUnique(d1.changed, d2.changed, before, after);
  }

  function Swapped(d: Diff): Diff {
    Diff(d.removed, d.added,
         seq(|d.changed|, i requires 0 <= i < |d.changed| =>
               Change(d.changed[i].service, d.changed[i].newMapping, d.changed[i].oldMapping)))
  }

  /** Swapping the versions swaps the report. */
  lemma SwapSwaps(d: Diff, before: map<string, Service>, after: map<string, Service>)
    requires IsDiff(d, before, after)
    ensures IsDiff(Swapped(d), after, before)
  {
    var changed := Swapped(d).changed;
    forall k | Remapped(after, before, k) ensures HasChange(changed, k) {
      assert Remapped(before, after, k);
      var i :| 0 <= i < |d.changed| && d.changed[i].service == k;
      assert changed[i].service == k;
    }
  }

  // ---- The cost diff ------------------------------------------------------------------------------------

  type Costs = map<string, int>

  function CostsOf(services: seq<Service>): Costs {
    if services == [] then map[]
    else
      var n := |services| - 1;
      CostsOf(services[..n])[Key(services[n]) := services[n].cost]
  }

  function CostAt(m: Costs, k: string): int {
    if k in m then m[k] else 0
  }

  datatype Delta = Delta(service: string, oldCost: int, newCost: int, delta: int)

  function SumAt(m: Costs, keys: seq<string>): int {
    if keys == [] then 0
    else SumAt(m, keys[..|keys| - 1]) + CostAt(m, keys[|keys| - 1])
  }

  function SumDeltas(deltas: seq<Delta>): int {
    if deltas == [] then 0
    else SumDeltas(deltas[..|deltas| - 1]) + deltas[|deltas| - 1].delta
  }

  method IndexCosts(services: seq<Service>) returns (m: Costs)
    ensures m == CostsOf(services)
  {
    m := map[];
    for i := 0 to |services|
      invariant m == CostsOf(services[..i])
    {
      assert services[..i + 1][..i] == services[..i];
      m := m[Key(services[i]) := services[i].cost];
    }
    assert services[..|services|] == services;
  }

  predicate IsDelta(d: Delta, before: Costs, after: Costs) {
    && d.oldCost == CostAt(before, d.service) && d.newCost == CostAt(after, d.service)
    && d.delta == d.newCost - d.oldCost != 0
  }

  /** The deltas of the first `i` keys. */
  function DeltasOf(before: Costs, after: Costs, keys: seq<string>): seq<Delta> {
    if keys == [] then []
    else
      var n := |keys| - 1;
      var rest := DeltasOf(before, after, keys[..n]);
      var o, c := CostAt(before, keys[n]), CostAt(after, keys[n]);
      if o == c then rest else rest + [Delta(keys[n], o, c, c - o)]
  }

  /** The deltas of all keys of both versions, in ascending order. */
  ghost predicate IsCostReport(deltas: seq<Delta>, before: Costs, after: Costs) {
    exists keys :: deltas == DeltasOf(before, after, keys) && Ascending(keys)
                   && forall k :: k in keys <==> k in before || k in after
  }

  /** One delta for each service whose cost differs, in key order. */
  method DiffCost(oldServices: seq<Service>, newServices: seq<Service>) returns (deltas: seq<Delta>)
    ensures IsCostReport(deltas, CostsOf(oldServices), CostsOf(newServices))
  {
    hide Ascending, CostsOf, CostAt;
    var before := IndexCosts(oldServices);
    var after := IndexCosts(newServices);
    var order := Sorted(before.Keys + after.Keys);
    deltas := [];
    for i := 0 to |order|
      invariant deltas == DeltasOf(before, after, order[..i])
    {
      var k := order[i];
      assert order[..i + 1][..i] == order[..i];
      var o, n := CostAt(before, k), CostAt(after, k);
      if o != n {
        deltas := deltas + [Delta(k, o, n, n - o)];
      }
    }
    assert order[..|order|] == order;
  }

  /** A service is in the report exactly when its cost differs, once, with its
      two costs. */
  lemma {:induction false} DeltasAreDifferences(before: Costs, after: Costs, keys: seq<string>, d: Delta)
    ensures d in DeltasOf(before, after, keys) <==> d.service in keys && IsDelta(d, before, after)
  {
    if keys != [] {
      var n := |keys| - 1;
      DeltasAreDifferences(before, after, keys[..n], d);
      assert keys == keys[..n] + [keys[n]];
    }
  }

  lemma {:induction false} SumOfDeltas(before: Costs, after: Costs, keys: seq<string>)
    ensures SumDeltas(DeltasOf(before, after, keys)) == SumAt(after, keys) - SumAt(before, keys)
  {
    if keys != [] {
      var n := |keys| - 1;
      SumOfDeltas(before, after, keys[..n]);
      var rest, all := DeltasOf(before, after, keys[..n]), DeltasOf(before, after, keys);
      assert all != rest ==> all[..|all| - 1] == rest;
    }
  }

  /** There is only one cost report for two versions. */
  lemma CostReportIsUnique(d1: seq<Delta>, d2: seq<Delta>, before: Costs, after: Costs)
    requires IsCostReport(d1, before, after) && IsCostReport(d2, before, after)
    ensures d1 == d2
  {
    var k1 :| d1 == DeltasOf(before, after, k1) && Ascending(k1) && forall k :: k in k1 <==> k in before || k in after;
    var k2 :| d2 == DeltasOf(before, after, k2) && Ascending(k2) && forall k :: k in k2 <==> k in before || k in after;
    AscendingUnique(k1, k2);
  }

  /** The report has exactly the services whose costs differ, with both costs,
      and its deltas add up to the new total minus the old total. */
  lemma CostReportAddsUp(deltas: seq<Delta>, before: Costs, after: Costs)
    requires IsCostReport(deltas, before, after)
    ensures SumDeltas(deltas) == Total(after) - Total(before)
    ensures forall d :: d in deltas <==> (d.service in before || d.service in after) && IsDelta(d, before, after)
  {
    var keys :| deltas == DeltasOf(before, after, keys) && Ascending(keys)
                && forall k :: k in keys <==> k in before || k in after;
    AscendingIsDistinct(keys);
    forall d ensures d in deltas <==> (d.service in before || d.service in after) && IsDelta(d, before, after) {
      DeltasAreDifferences(before, after, keys, d);
    }
    SumOfDeltas(before, after, keys);
    TotalIsSum(before, keys);
    TotalIsSum(after, keys);
  }

  /** The summed costs of all services of a version. */
  ghost function Total(m: Costs): int {
    if m == map[] then 0
    else
      var k := PickKey(m);
      m[k] + Total(m - {k})
  }

  ghost function PickKey(m: Costs): (k: string)
    requires m != map[]
    ensures k in m
  {
    assert m.Keys != {};
    var k :| k in m;
    k
  }

  lemma {:induction false} SumWithout(m: Costs, keys: seq<string>, k: string)
    requires Distinct(keys) && k in m
    ensures SumAt(m, keys) == SumAt(m - {k}, keys) + if k in keys then m[k] else 0
  {
    if keys != [] {
      var n := |keys| - 1;
      SumWithout(m, keys[..n], k);
      assert keys == keys[..n] + [keys[n]];
    }
  }

  lemma {:induction false} SumOfEmpty(keys: seq<string>)
    ensures SumAt(map[], keys) == 0
  {
    if keys != [] {
      SumOfEmpty(keys[..|keys| - 1]);
    }
  }

  /** The total does not depend on the order in which the services are summed. */
  lemma {:induction false} TotalIsSum(m: Costs, keys: seq<string>)
    requires Distinct(keys) && forall k :: k in m ==> k in keys
    ensures Total(m) == SumAt(m, keys)
    decreases |m|
  {
    if m == map[] {
      SumOfEmpty(keys);
    } else {
      var k := PickKey(m);
      assert m.Keys == (m - {k}).Keys + {k};
      TotalIsSum(m - {k}, keys);
      SumWithout(m, keys, k);
    }
  }

  // ---- The reports in plain terms -------------------------------------------------------------------------

  /** A service goes by its name, or else its source service, its id, or its
      printed form, whichever is given first. */
  predicate GoesBy(s: Service, k: string) {
    || (s.name != "" && k == s.name)
    || (s.name == "" && s.sourceService != "" && k == s.sourceService)
    || (s.name == "" && s.sourceService == "" && s.id != "" && k == s.id)
    || (s.name == "" && s.sourceService == "" && s.id == "" && k == s.repr)
  }

  /** It is mapped to its Azure service, or else to its target service, if any. */
  predicate MapsTo(s: Service, target: Option<string>) {
    if s.azureService != "" then target == Some(s.azureService) else target == s.targetService
  }

  /** The last entry that goes by a name stands for it. */
  predicate StandsFor(services: seq<Service>, k: string, s: Service) {
    exists i :: && 0 <= i < |services| && services[i] == s && GoesBy(s, k)
                && forall j :: i < j < |services| ==> !GoesBy(services[j], k)
  }

  predicate Nobody(services: seq<Service>, k: string) {
    forall i :: 0 <= i < |services| ==> !GoesBy(services[i], k)
  }

  lemma GoesByIff(s: Service, k: string)
    ensures GoesBy(s, k) <==> Key(s) == k
  {
  }

  lemma {:induction false} EntryOf(services: seq<Service>, k: string, s: Service)
    ensures k in ByKey(services) && ByKey(services)[k] == s <==> StandsFor(services, k, s)
    ensures k !in ByKey(services) <==> Nobody(services, k)
    ensures k in CostsOf(services) <==> k in ByKey(services)
    ensures k in ByKey(services) ==> CostsOf(services)[k] == ByKey(services)[k].cost
  {
    if services != [] {
      var n := |services| - 1;
      hide GoesBy, Key;
      EntryOf(services[..n], k, s);
      GoesByIff(services[n], k);
      assert services == services[..n] + [services[n]];
      EntryStep(services[..n], services[n], k, s);
    }
  }

  lemma EntryStep(services: seq<Service>, last: Service, k: string, s: Service)
    ensures StandsFor(services + [last], k, s) <==> if GoesBy(last, k) then s == last else StandsFor(services, k, s)
    ensures Nobody(services + [last], k) <==> Nobody(services, k) && !GoesBy(last, k)
  {
    hide GoesBy;
    var all, n := services + [last], |services|;
    assert all[n] == last && forall i :: 0 <= i < n ==> all[i] == services[i];
    if !GoesBy(last, k) && StandsFor(services, k, s) {
      var i :| && 0 <= i < |services| && services[i] == s && GoesBy(s, k)
               && forall j :: i < j < |services| ==> !GoesBy(services[j], k);
      assert all[i] == s;
    }
  }

  /** What the service diff of two versions reports: as added the new entries that
      go by a name nothing went by before, as removed the old ones, and as changed
      each name whose entry is now mapped to something else, from where to where. */
  lemma ReportIs(d: Diff, oldServices: seq<Service>, newServices: seq<Service>, k: string, s: Service, t: Service)
    requires IsDiff(d, ByKey(oldServices), ByKey(newServices)) && GoesBy(s, k)
    ensures s in d.added <==> StandsFor(newServices, k, s) && Nobody(oldServices, k)
    ensures s in d.removed <==> StandsFor(oldServices, k, s) && Nobody(newServices, k)
    ensures StandsFor(oldServices, k, s) && StandsFor(newServices, k, t) ==>
              forall c :: c in d.changed && c.service == k <==>
                c.service == k && c.oldMapping != c.newMapping && MapsTo(s, c.oldMapping) && MapsTo(t, c.newMapping)
    ensures Nobody(oldServices, k) || Nobody(newServices, k) ==> forall c :: c in d.changed ==> c.service != k
  {
    hide ByKey, StandsFor, Nobody, Key;
    GoesByIff(s, k);
    EntryOf(oldServices, k, s);
    EntryOf(newServices, k, s);
    EntryOf(newServices, k, t);
    var before, after := ByKey(oldServices), ByKey(newServices);
    ListedIff(d.added, after, after.Keys - before.Keys, s);
    ListedIff(d.removed, before, before.Keys - after.Keys, s);
    forall c ensures c in d.changed <==> IsChange(c, before, after) {
      ChangedIff(d.changed, before, after, c);
    }
  }

  lemma ListedIff(entries: seq<Service>, m: map<string, Service>, keys: set<string>, s: Service)
    requires keys <= m.Keys && Lists(entries, m, keys)
    ensures s in entries <==> Key(s) in keys && m[Key(s)] == s
  {
    hide Key;
    if Key(s) in keys && m[Key(s)] == s {
      var i :| 0 <= i < |entries| && Key(entries[i]) == Key(s);
      assert entries[i] == s;
    }
  }

  lemma ChangedIff(changed: seq<Change>, before: map<string, Service>, after: map<string, Service>, c: Change)
    requires ListsChanges(changed, before, after)
    ensures c in changed <==> IsChange(c, before, after)
  {
    hide Target;
    if IsChange(c, before, after) {
      var i :| 0 <= i < |changed| && changed[i].service == c.service;
      assert IsChange(changed[i], before, after) && changed[i] == c;
    }
  }

  /** What a name costs in one version: nothing if no entry goes by it. */
  predicate CostsIn(services: seq<Service>, k: string, cost: int) {
    (Nobody(services, k) && cost == 0) || exists s :: s in services && StandsFor(services, k, s) && cost == s.cost
  }

  lemma CostsInIff(services: seq<Service>, k: string, cost: int)
    ensures CostsIn(services, k, cost) <==> CostAt(CostsOf(services), k) == cost
  {
    hide ByKey, CostsOf, StandsFor, Nobody;
    forall s
      ensures k in ByKey(services) && ByKey(services)[k] == s <==> StandsFor(services, k, s)
      ensures k !in ByKey(services) <==> Nobody(services, k)
      ensures k in CostsOf(services) <==> k in ByKey(services)
      ensures k in ByKey(services) ==> CostsOf(services)[k] == ByKey(services)[k].cost
    {
      EntryOf(services, k, s);
    }
    KeysMatch(services);
    if k in ByKey(services) {
      assert StandsFor(services, k, ByKey(services)[k]);
    } else {
      EntryOf(services, k, Service("", "", "", "", "", None, 0));
    }
  }

  /** The cost report of two versions has a line for a name exactly when what it
      costs differs, with both costs and their difference. */
  lemma CostReportIs(deltas: seq<Delta>, oldServices: seq<Service>, newServices: seq<Service>, d: Delta)
    requires IsCostReport(deltas, CostsOf(oldServices), CostsOf(newServices))
    ensures d in deltas <==>
              && CostsIn(oldServices, d.service, d.oldCost) && CostsIn(newServices, d.service, d.newCost)
              && d.oldCost != d.newCost && d.delta == d.newCost - d.oldCost
  {
    hide CostsIn, CostsOf, IsCostReport;
    CostReportAddsUp(deltas, CostsOf(oldServices), CostsOf(newServices));
    CostsInIff(oldServices, d.service, d.oldCost);
    CostsInIff(newServices, d.service, d.newCost);
  }

  // ---- The version list -------------------------------------------------------------------------------

  datatype Version = Version(number: nat, title: string, snapshot: seq<Service>)

  const MAX_VERSIONS := 50

  /** The list after one more save: numbered by the current length, oldest trimmed. */
  function Saved(versions: seq<Version>, lbl: nat -> string, snapshot: seq<Service>): seq<Version> {
    var number := |versions| + 1;
    var all := versions + [Version(number, lbl(number), snapshot)];
    if |all| > MAX_VERSIONS then all[1..] else all
  }

  class VersionStore {
    var versions: map<string, seq<Version>>

    constructor ()
      ensures versions == map[]
    {
      versions := map[];
    }

    function Of(diagram: string): seq<Version>
      reads this
    {
      if diagram in versions then versions[diagram] else []
    }

    method SaveVersion(diagram: string, snapshot: seq<Service>, customLabel: string, defaultLabel: nat -> string)
      returns (number: nat)
      modifies this
      ensures Of(diagram) ==
              Saved(old(Of(diagram)), (n: nat) => if customLabel != "" then customLabel else defaultLabel(n), snapshot)
      ensures forall other :: other != diagram ==> Of(other) == old(Of(other))
      ensures number == |old(Of(diagram))| + 1
    {
      if diagram !in versions {
        versions := versions[diagram := []];
      }
      number := |versions[diagram]| + 1;
      var record := Version(number, if customLabel != "" then customLabel else defaultLabel(number), snapshot);
      versions := versions[diagram := versions[diagram] + [record]];
      if |versions[diagram]| > MAX_VERSIONS {
        versions := versions[diagram := versions[diagram][1..]];
      }
    }

    /** The first stored version with the number. */
    method GetVersion(diagram: string, number: nat) returns (found: Option<Version>)
      ensures var list := Of(diagram);
              var at := FirstWith(list, number);
              found == if at < |list| then Some(list[at]) else None
    {
      if diagram !in versions {
        return None;
      }
      var list := versions[diagram];
      for i := 0 to |list|
        invariant FirstWith(list, number) == i + FirstWith(list[i..], number)
      {
        if list[i].number == number {
          return Some(list[i]);
        }
        assert list[i..][1..] == list[i + 1..];
      }
      return None;
    }
  }

  function FirstWith(list: seq<Version>, number: nat): (at: nat)
    ensures at <= |list|
    ensures at < |list| ==> list[at].number == number
    ensures forall i :: 0 <= i < at ==> list[i].number != number
  {
    if list == [] || list[0].number == number then 0 else 1 + FirstWith(list[1..], number)
  }

  /** The version list after the given saves. */
  function History(saves: seq<seq<Service>>, lbl: nat -> string): seq<Version> {
    if saves == [] then []
    else Saved(History(saves[..|saves| - 1], lbl), lbl, saves[|saves| - 1])
  }

  /** The list holds the last fifty saves in order; save number k + 1 got the
      number min(k, 50) + 1. */
  lemma {:induction false} HistoryShape(saves: seq<seq<Service>>, lbl: nat -> string)
    ensures var list, n := History(saves, lbl), |saves|;
            && |list| == (if n < 50 then n else 50)
            && forall i :: 0 <= i < |list| ==>
                 var k := n - |list| + i;
                 && list[i].snapshot == saves[k] && list[i].number == (if k < 50 then k + 1 else 51)
                 && list[i].title == lbl(list[i].number)
  {
    if saves != [] {
      HistoryShape(saves[..|saves| - 1], lbl);
    }
  }

  /** Looking up the number a save returned finds that save if and only if it is
      at most the 51st of its diagram; from the 52nd on every save repeats
      number 51 and the lookup finds the oldest one stored under it. */
  lemma SavedIsFoundIff(saves: seq<seq<Service>>, lbl: nat -> string)
    requires saves != []
    ensures var list := History(saves, lbl);
            var at := FirstWith(list, list[|list| - 1].number);
            && list != [] && (at == |list| - 1 <==> |saves| <= 51)
            && (|saves| > 50 ==> list[|list| - 1].number == 51)
            && (|saves| >= 100 ==> at == 0)
  {
    HistoryShape(saves, lbl);
    var list, n := History(saves, lbl), |saves|;
    if n >= MAX_VERSIONS + 2 {
      assert list[|list| - 2].number == MAX_VERSIONS + 1;
    } else {
      assert forall i :: 0 <= i < |list| - 1 ==> list[i].number < list[|list| - 1].number;
    }
    if n >= 2 * MAX_VERSIONS {
      assert list[0].number == MAX_VERSIONS + 1;
    }
  }
}
