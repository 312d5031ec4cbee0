/** Which connection each arrow of the draw.io export stands for, in terms of the
    services and their names alone. */
module DiagramEdges {
  import opened Text
  import opened DiagramLayout

  // ---- Where the labels are ---------------------------------------------------------------------

  function ServicesBefore(zones: seq<Zone>, z: nat): nat
    requires z <= |zones|
  {
    if z == 0 then 0 else ServicesBefore(zones, z - 1) + |zones[z - 1]|
  }

  /** The first four cells are the two roots, the title and the boundary; every
      zone takes one cell and every service two, the label after the icon. */
  function ZoneCellId(zones: seq<Zone>, z: nat): nat
    requires z <= |zones|
  {
    4 + z + 2 * ServicesBefore(zones, z)
  }

  function LabelId(zones: seq<Zone>, z: nat, s: nat): nat
    requires z <= |zones|
  {
    ZoneCellId(zones, z) + 2 * s + 2
  }

  lemma {:induction false} ZoneIdIs(zones: seq<Zone>, z: nat)
    requires z <= |zones|
    ensures 4 + |ZoneCells(zones, z)| == ZoneCellId(zones, z)
  {
    if z > 0 {
      ZoneIdIs(zones, z - 1);
    }
  }

  lemma {:induction false} LayoutGrowsTo(zones: seq<Zone>, z: nat, n: nat)
    requires z <= n <= |zones|
    ensures ZoneCells(zones, z) <= ZoneCells(zones, n)
  {
    if z < n {
      LayoutGrowsTo(zones, z, n - 1);
      LayoutGrows(zones, n);
    }
  }

  lemma ZonePart(zones: seq<Zone>, z: nat, s: nat)
    requires z < |zones| && s < |zones[z]|
    ensures var id := ZoneId(zones, z);
            && |ZoneCells(zones, z + 1)| > id + 2 * s + 2 - 4
            && ZoneCells(zones, z + 1)[id - 4] == Cell(id, 1, ZoneCell, RectOf(zones, z))
            && ZoneCells(zones, z + 1)[id + 2 * s + 2 - 4].kind == Label
            && ZoneCells(zones, z + 1)[id + 2 * s + 2 - 4].parent == id
  {
    var id, count := ZoneId(zones, z), |zones[z]|;
    ServiceCellKinds(id, id + 1, count, 2 * s + 1);
    LastPart(ZoneCells(zones, z), Cell(id, 1, ZoneCell, RectOf(zones, z)), ServiceCells(id, id + 1, count), 2 * s + 1);
  }

  /** In every diagram the label of each service stands under its zone. */
  lemma LabelsAreEmitted(key: NameKey, zones: seq<Zone>, aliases: Aliases, cs: Connections, z: nat, s: nat)
    requires z < |zones| && s < |zones[z]|
    ensures var cells, zone, id := Diagram(key, zones, aliases, cs), ZoneCellId(zones, z), LabelId(zones, z, s);
            && id < |cells|
            && cells[zone].id == zone && cells[zone].kind == ZoneCell && cells[zone].rect == RectOf(zones, z)
            && cells[id].id == id && cells[id].kind == Label && cells[id].parent == zone
  {
    hide ZoneCells;
    ZoneIdIs(zones, z);
    ZonePart(zones, z, s);
    LayoutGrowsTo(zones, z + 1, |zones|);
    IdsAreUnique(key, zones, aliases, cs);
  }

  // ---- Which label a name means --------------------------------------------------------------------

  /** A service bears a key if one of its names has it. */
  predicate Bears(key: NameKey, service: Service, k: string) {
    exists i :: 0 <= i < |service.names| && key(service.names[i]) == k
  }

  /** The last of the first `n` services of a zone that bears the key. */
  predicate LastInZone(key: NameKey, zone: Zone, k: string, s: nat, n: nat)
    requires n <= |zone|
  {
    && s < n && Bears(key, zone[s], k)
    && forall t :: s < t < n ==> !Bears(key, zone[t], k)
  }

  predicate NoneInZone(key: NameKey, zone: Zone, k: string, n: nat)
    requires n <= |zone|
  {
    forall s :: 0 <= s < n ==> !Bears(key, zone[s], k)
  }

  /** The last service of the first `n` zones that bears the key. */
  predicate LastBearer(key: NameKey, zones: seq<Zone>, k: string, z: nat, s: nat, n: nat)
    requires n <= |zones|
  {
    && z < n && LastInZone(key, zones[z], k, s, |zones[z]|)
    && forall y :: z < y < n ==> NoneInZone(key, zones[y], k, |zones[y]|)
  }

  predicate NoBearer(key: NameKey, zones: seq<Zone>, k: string, n: nat)
    requires n <= |zones|
  {
    forall z :: 0 <= z < n ==> NoneInZone(key, zones[z], k, |zones[z]|)
  }

  predicate SameAt(a: Ids, b: Ids, k: string) {
    (k in a <==> k in b) && (k in a ==> a[k] == b[k])
  }

  lemma {:induction false} NamedMeans(ids: Ids, key: NameKey, names: seq<string>, id: nat, k: string)
    ensures var named := Named(ids, key, names, id);
            if Bears(key, Service(names), k) then k in named && named[k] == id else SameAt(named, ids, k)
  {
    if names != [] {
      var n := |names| - 1;
      var before := Service(names[..n]);
      NamedMeans(ids, key, names[..n], id, k);
      if Bears(key, before, k) {
        var i :| 0 <= i < n && key(before.names[i]) == k;
        assert key(Service(names).names[i]) == k;
      } else if key(names[n]) == k {
        assert key(Service(names).names[n]) == k;
      } else {
        forall i | 0 <= i < |names| ensures key(names[i]) != k {
          assert i < n ==> before.names[i] == names[i];
        }
      }
    }
  }

  lemma {:induction false} ServicesMean(
    ids: Ids, key: NameKey, zone: Zone, first: nat, n: nat, k: string, s: nat)
    requires n <= |zone|
    ensures var named := NamedServices(ids, key, zone, first, n);
            && (LastInZone(key, zone, k, s, n) ==> k in named && named[k] == first + 2 * s + 1)
            && (NoneInZone(key, zone, k, n) ==> SameAt(named, ids, k))
  {
    hide Named, Bears;
    if n > 0 {
      var before := NamedServices(ids, key, zone, first, n - 1);
      ServicesMean(ids, key, zone, first, n - 1, k, s);
      NamedMeans(before, key, zone[n - 1].names, first + 2 * n - 1, k);
      assert Service(zone[n - 1].names) == zone[n - 1];
    }
  }

  /** A key in use points to the label of the last service that bears it. */
  lemma {:induction false} NamesMean(key: NameKey, zones: seq<Zone>, n: nat, k: string, z: nat, s: nat)
    requires n <= |zones|
    ensures var named := NamedZones(key, zones, n);
            && (LastBearer(key, zones, k, z, s, n) ==> k in named && named[k] == LabelId(zones, z, s))
            && (NoBearer(key, zones, k, n) ==> k !in named)
  {
    hide NamedServices, LastInZone, NoneInZone, ZoneCells;
    if n > 0 {
      var before := NamedZones(key, zones, n - 1);
      NamesMean(key, zones, n - 1, k, z, s);
      ZoneIdIs(zones, n - 1);
      ServicesMean(before, key, zones[n - 1], ZoneId(zones, n - 1) + 1, |zones[n - 1]|, k, s);
    }
  }

  lemma {:induction false} LastInZoneExists(key: NameKey, zone: Zone, k: string, n: nat)
    requires n <= |zone|
    ensures NoneInZone(key, zone, k, n) || exists s :: LastInZone(key, zone, k, s, n)
  {
    hide Bears;
    if n > 0 {
      LastInZoneExists(key, zone, k, n - 1);
      if Bears(key, zone[n - 1], k) {
        assert LastInZone(key, zone, k, n - 1, n);
      } else if !NoneInZone(key, zone, k, n - 1) {
        var s :| LastInZone(key, zone, k, s, n - 1);
        assert LastInZone(key, zone, k, s, n);
      }
    }
  }

  lemma {:induction false} LastBearerExists(key: NameKey, zones: seq<Zone>, k: string, n: nat)
    requires n <= |zones|
    ensures NoBearer(key, zones, k, n) || exists z, s :: LastBearer(key, zones, k, z, s, n)
  {
    hide LastInZone, NoneInZone;
    if n > 0 {
      var zone := zones[n - 1];
      LastBearerExists(key, zones, k, n - 1);
      LastInZoneExists(key, zone, k, |zone|);
      if !NoneInZone(key, zone, k, |zone|) {
        var s :| LastInZone(key, zone, k, s, |zone|);
        assert LastBearer(key, zones, k, n - 1, s, n);
      } else if !NoBearer(key, zones, k, n - 1) {
        var z, s :| LastBearer(key, zones, k, z, s, n - 1);
        assert LastBearer(key, zones, k, z, s, n);
      }
    }
  }

  // ---- The ends of a connection -------------------------------------------------------------------------

  /** The label of the last service that bears the key of a name. */
  ghost predicate MeansLabel(key: NameKey, zones: seq<Zone>, name: string, id: nat) {
    exists z: nat, s: nat ::
      z < |zones| && LastBearer(key, zones, key(name), z, s, |zones|) && id == LabelId(zones, z, s)
  }

  predicate MeansNothing(key: NameKey, zones: seq<Zone>, name: string) {
    NoBearer(key, zones, key(name), |zones|)
  }

  /** An end of a connection: what its alias means, if it has one that means
      something, and otherwise what the name itself means. */
  ghost predicate EndsAt(key: NameKey, zones: seq<Zone>, aliases: Aliases, name: string, id: nat) {
    if key(name) in aliases && !MeansNothing(key, zones, aliases[key(name)])
    then MeansLabel(key, zones, aliases[key(name)], id)
    else MeansLabel(key, zones, name, id)
  }

  lemma LabelMeant(key: NameKey, zones: seq<Zone>, name: string, id: nat)
    requires MeansLabel(key, zones, name, id)
    ensures var ids := NamedZones(key, zones, |zones|); key(name) in ids && ids[key(name)] == id
  {
    hide LastBearer, NamedZones, LabelId;
    var z: nat, s: nat :|
      z < |zones| && LastBearer(key, zones, key(name), z, s, |zones|) && id == LabelId(zones, z, s);
    NamesMean(key, zones, |zones|, key(name), z, s);
  }

  lemma MeaningOf(key: NameKey, zones: seq<Zone>, name: string, id: nat)
    ensures var ids := NamedZones(key, zones, |zones|);
            && (MeansNothing(key, zones, name) <==> key(name) !in ids)
            && (MeansLabel(key, zones, name, id) <==> key(name) in ids && ids[key(name)] == id)
  {
    hide LastBearer, NoBearer, NamedZones, LabelId, MeansLabel;
    NamesMean(key, zones, |zones|, key(name), 0, 0);
    if MeansLabel(key, zones, name, id) {
      LabelMeant(key, zones, name, id);
    }
    if !MeansNothing(key, zones, name) {
      var meant := LastMeaning(key, zones, name);
      LabelMeant(key, zones, name, meant);
    }
  }

  lemma LastMeaning(key: NameKey, zones: seq<Zone>, name: string) returns (id: nat)
    requires !MeansNothing(key, zones, name)
    ensures MeansLabel(key, zones, name, id)
  {
    hide LastInZone, NoBearer;
    LastBearerExists(key, zones, key(name), |zones|);
    var z: nat, s: nat :| LastBearer(key, zones, key(name), z, s, |zones|);
    id := LabelId(zones, z, s);
  }

  lemma EndOf(key: NameKey, zones: seq<Zone>, aliases: Aliases, name: string, id: nat)
    ensures EndsAt(key, zones, aliases, name, id) <==>
              Endpoint(NamedZones(key, zones, |zones|), key, aliases, name) == Some(id)
  {
    hide MeansLabel, MeansNothing, NamedZones;
    MeaningOf(key, zones, name, id);
    if key(name) in aliases {
      MeaningOf(key, zones, aliases[key(name)], id);
    }
  }

  // ---- The edges -------------------------------------------------------------------------------------------

  /** An arrow for a connection: from the label its `from` means to the different
      label its `to` means. */
  ghost predicate DrawnFor(
    key: NameKey, zones: seq<Zone>, aliases: Aliases, c: Option<Connection>, source: nat, target: nat) {
    && c.Some? && source != target
    && EndsAt(key, zones, aliases, c.value.from, source) && EndsAt(key, zones, aliases, c.value.to, target)
  }

  ghost predicate Drawable(key: NameKey, zones: seq<Zone>, aliases: Aliases, c: Option<Connection>) {
    exists source, target :: DrawnFor(key, zones, aliases, c, source, target)
  }

  predicate Increasing(picks: seq<nat>) {
    forall i, j :: 0 <= i < j < |picks| ==> picks[i] < picks[j]
  }

  /** The edges stand, in order, for the connections at `picks`, and these are all
      that can be drawn. */
  ghost predicate StandFor(
    key: NameKey, zones: seq<Zone>, aliases: Aliases, cs: Connections, edges: seq<(nat, nat)>, picks: seq<nat>) {
    && Increasing(picks) && |picks| == |edges|
    && (forall j :: 0 <= j < |picks| ==>
          picks[j] < |cs| && DrawnFor(key, zones, aliases, cs[picks[j]], edges[j].0, edges[j].1))
    && forall i: nat :: i < |cs| && Drawable(key, zones, aliases, cs[i]) ==> i in picks
  }

  lemma EdgeMeans(key: NameKey, zones: seq<Zone>, aliases: Aliases, c: Option<Connection>, source: nat, target: nat)
    ensures EdgeOf(NamedZones(key, zones, |zones|), key, aliases, c) == Some((source, target)) <==>
              DrawnFor(key, zones, aliases, c, source, target)
  {
    hide EndsAt, Endpoint, NamedZones;
    if c.Some? {
      EndOf(key, zones, aliases, c.value.from, source);
      EndOf(key, zones, aliases, c.value.to, target);
    }
  }

  lemma EdgeIffDrawable(key: NameKey, zones: seq<Zone>, aliases: Aliases, c: Option<Connection>)
    ensures var e := EdgeOf(NamedZones(key, zones, |zones|), key, aliases, c);
            && (e.Some? <==> Drawable(key, zones, aliases, c))
            && (e.Some? ==> DrawnFor(key, zones, aliases, c, e.value.0, e.value.1))
  {
    hide DrawnFor, NamedZones, EdgeOf;
    var e := EdgeOf(NamedZones(key, zones, |zones|), key, aliases, c);
    if e.Some? {
      EdgeMeans(key, zones, aliases, c, e.value.0, e.value.1);
    }
    if Drawable(key, zones, aliases, c) {
      var source, target :| DrawnFor(key, zones, aliases, c, source, target);
      EdgeMeans(key, zones, aliases, c, source, target);
    }
  }

  lemma StandForSkip(
    key: NameKey, zones: seq<Zone>, aliases: Aliases, cs: Connections, edges: seq<(nat, nat)>, picks: seq<nat>,
    c: Option<Connection>)
    requires StandFor(key, zones, aliases, cs, edges, picks) && !Drawable(key, zones, aliases, c)
    ensures StandFor(key, zones, aliases, cs + [c], edges, picks)
  {
    hide DrawnFor, Drawable;
    assert forall i :: 0 <= i < |cs| ==> (cs + [c])[i] == cs[i];
  }

  lemma StandForDraw(
    key: NameKey, zones: seq<Zone>, aliases: Aliases, cs: Connections, edges: seq<(nat, nat)>, picks: seq<nat>,
    c: Option<Connection>, e: (nat, nat))
    requires StandFor(key, zones, aliases, cs, edges, picks) && DrawnFor(key, zones, aliases, c, e.0, e.1)
    ensures StandFor(key, zones, aliases, cs + [c], edges + [e], picks + [|cs|])
  {
    hide DrawnFor, Drawable;
    var all := picks + [|cs|];
    assert forall i :: 0 <= i < |cs| ==> (cs + [c])[i] == cs[i];
    assert (cs + [c])[|cs|] == c && all[|picks|] == |cs|;
    assert forall i: nat :: i in picks ==> i in all;
  }

  lemma {:induction false} ConnectedStandFor(key: NameKey, zones: seq<Zone>, aliases: Aliases, cs: Connections)
    ensures exists picks ::
      StandFor(key, zones, aliases, cs, Connected(NamedZones(key, zones, |zones|), key, aliases, cs), picks)
  {
    hide DrawnFor, Drawable, NamedZones, EdgeOf;
    var ids := NamedZones(key, zones, |zones|);
    var edges := Connected(ids, key, aliases, cs);
    if cs == [] {
      assert StandFor(key, zones, aliases, cs, edges, []);
    } else {
      var n := |cs| - 1;
      ConnectedStandFor(key, zones, aliases, cs[..n]);
      var before := Connected(ids, key, aliases, cs[..n]);
      var picks :| StandFor(key, zones, aliases, cs[..n], before, picks);
      EdgeIffDrawable(key, zones, aliases, cs[n]);
      assert cs[..n] + [cs[n]] == cs;
      var e := EdgeOf(ids, key, aliases, cs[n]);
      hide StandFor;
      if e.Some? {
        StandForDraw(key, zones, aliases, cs[..n], before, picks, cs[n], e.value);
      } else {
        StandForSkip(key, zones, aliases, cs[..n], before, picks, cs[n]);
      }
    }
  }

  /** The edge cells of a diagram, after the first `n` cells. */
  predicate EdgesFrom(cells: seq<Cell>, n: nat, edges: seq<(nat, nat)>) {
    && |cells| == n + |edges|
    && (forall i :: 0 <= i < n ==> !cells[i].kind.Edge?)
    && forall j :: 0 <= j < |edges| ==>
         cells[n + j] == Cell(n + j, 1, Edge(edges[j].0, edges[j].1), Rect(0, 0, 0, 0))
  }

  /** Zone after zone, from each to the next. */
  predicate IsChain(zones: seq<Zone>, edges: seq<(nat, nat)>) {
    && |edges| == (if |zones| < 2 then 0 else |zones| - 1)
    && forall j :: 0 <= j < |edges| ==> edges[j] == (ZoneCellId(zones, j), ZoneCellId(zones, j + 1))
  }

  lemma ChainIs(zones: seq<Zone>)
    ensures IsChain(zones, Chain(zones))
  {
    hide ZoneCells, ZoneCellId;
    forall j | 0 <= j < |Chain(zones)|
      ensures Chain(zones)[j] == (ZoneCellId(zones, j), ZoneCellId(zones, j + 1))
    {
      ZoneIdIs(zones, j);
      ZoneIdIs(zones, j + 1);
    }
  }

  lemma EdgeCellsLast(key: NameKey, zones: seq<Zone>, aliases: Aliases, cs: Connections)
    ensures EdgesFrom(Diagram(key, zones, aliases, cs), ZoneCellId(zones, |zones|), Edges(key, zones, aliases, cs))
  {
    hide ZoneCellId, Edges, NamedZones, ZoneCells;
    ZoneIdIs(zones, |zones|);
    LayoutWellPlaced(zones, |zones|);
    forall i | 0 <= i < |ZoneCells(zones, |zones|)| ensures !ZoneCells(zones, |zones|)[i].kind.Edge? {
      assert WellPlaced(zones, ZoneCells(zones, |zones|), i);
    }
  }

  /** The edges stand for the connections at `picks`, or for the chain of the
      zones when no connection can be drawn. */
  ghost predicate Explains(
    key: NameKey, zones: seq<Zone>, aliases: Aliases, cs: Connections, edges: seq<(nat, nat)>, picks: seq<nat>) {
    if exists i :: 0 <= i < |cs| && Drawable(key, zones, aliases, cs[i])
    then StandFor(key, zones, aliases, cs, edges, picks)
    else IsChain(zones, edges)
  }

  /** The arrows of every diagram, after all other cells: in the order of the
      connections, one for each connection whose two ends mean different labels,
      from the label of its `from` to the label of its `to`; and from zone to zone
      if there is no such connection. */
  lemma ArrowsFollowConnections(key: NameKey, zones: seq<Zone>, aliases: Aliases, cs: Connections)
    ensures EdgesFrom(Diagram(key, zones, aliases, cs), ZoneCellId(zones, |zones|), Edges(key, zones, aliases, cs))
    ensures exists picks :: Explains(key, zones, aliases, cs, Edges(key, zones, aliases, cs), picks)
  {
    hide DrawnFor, Drawable, NamedZones, EdgesFrom, IsChain, Connected;
    EdgeCellsLast(key, zones, aliases, cs);
    ConnectedStandFor(key, zones, aliases, cs);
    ChainIs(zones);
    var connected := Connected(NamedZones(key, zones, |zones|), key, aliases, cs);
    var picks :| StandFor(key, zones, aliases, cs, connected, picks);
    if connected == [] {
      assert picks == [];
    } else {
      EdgeDrawable(key, zones, aliases, cs[picks[0]], connected[0]);
    }
    assert Explains(key, zones, aliases, cs, Edges(key, zones, aliases, cs), picks);
  }

  lemma EdgeDrawable(key: NameKey, zones: seq<Zone>, aliases: Aliases, c: Option<Connection>, e: (nat, nat))
    requires DrawnFor(key, zones, aliases, c, e.0, e.1)
    ensures Drawable(key, zones, aliases, c)
  {
  }
}
