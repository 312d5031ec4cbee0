/** Layout and graph of the draw.io export: a grid of zones inside a cloud
    boundary, service cells inside the zones, and edges between cells. */
module DiagramLayout {
  import opened Text

  /** One service of a zone, with the three names under which edges may refer to it. */
  datatype Service = Service(names: seq<string>)

  type Zone = seq<Service>

  datatype Rect = Rect(x: int, y: int, w: int, h: int)

  // ---- Geometry ---------------------------------------------------------------------------

  const ZONE_W := 420
  const ZONE_H_BASE := 160
  const SVC_H := 50
  const SVC_SPACING := 60
  const ZONE_PAD := 60
  const MARGIN_X := 60
  const MARGIN_Y := 100
  const TITLE_BAR := 30

  function Columns(zoneCount: nat): (cols: nat)
    ensures 1 <= cols <= 4
  {
    if zoneCount == 0 then 1 else if zoneCount < 4 then zoneCount else 4
  }

  function ZoneHeight(services: nat): int {
    ZONE_H_BASE + ((if services > 1 then services else 1) - 1) * SVC_SPACING
  }

  function ZoneRect(i: nat, zoneCount: nat, services: nat): Rect {
    var cols := Columns(zoneCount);
    Rect(MARGIN_X + 20 + i % cols * (ZONE_W + ZONE_PAD),
         MARGIN_Y + 60 + i / cols * (ZONE_H_BASE + 6 * SVC_SPACING + ZONE_PAD),
         ZONE_W, ZoneHeight(services))
  }

  function RectOf(zones: seq<Zone>, i: nat): Rect
    requires i < |zones|
  {
    ZoneRect(i, |zones|, |zones[i]|)
  }

  /** Relative to the zone, as draw.io positions children. */
  function IconRect(si: nat): Rect {
    Rect(16 + 4, 40 + si * SVC_SPACING + 5, 40, 40)
  }

  function LabelRect(si: nat): Rect {
    Rect(16 + 48, 40 + si * SVC_SPACING, ZONE_W - 32 - 48, SVC_H)
  }

  function Right(r: Rect): int { r.x + r.w }

  function Bottom(r: Rect): int { r.y + r.h }

  predicate Inside(inner: Rect, outer: Rect) {
    outer.x <= inner.x && outer.y <= inner.y && Right(inner) <= Right(outer) && Bottom(inner) <= Bottom(outer)
  }

  /** No interior point in common. */
  predicate Apart(a: Rect, b: Rect) {
    Right(a) <= b.x || Right(b) <= a.x || Bottom(a) <= b.y || Bottom(b) <= a.y
  }

  /** What a zone leaves for its children below the title bar. */
  function Body(zone: Rect): Rect {
    Rect(0, TITLE_BAR, zone.w, zone.h - TITLE_BAR)
  }

  /** Every icon and label lies inside its zone and clear of every other cell of
      the zone, its own partner included. */
  lemma ServiceCellsFit(zones: seq<Zone>, i: nat, si: nat, sj: nat)
    requires i < |zones| && si < |zones[i]| && sj < |zones[i]|
    ensures Inside(IconRect(si), Body(RectOf(zones, i))) && Inside(LabelRect(si), Body(RectOf(zones, i)))
    ensures Apart(IconRect(si), LabelRect(sj))
    ensures si != sj ==> Apart(IconRect(si), IconRect(sj)) && Apart(LabelRect(si), LabelRect(sj))
  {
  }

  /** The grid in numbers: at most four columns 480 apart, rows 580 apart, zones
      420 wide and 60 taller for every service after the first. */
  lemma GridInNumbers(zones: seq<Zone>, i: nat, si: nat)
    requires i < |zones|
    ensures var cols, n := if |zones| < 4 then |zones| else 4, |zones[i]|;
            RectOf(zones, i) ==
            Rect(80 + 480 * (i % cols), 160 + 580 * (i / cols), 420, if n == 0 then 160 else 100 + 60 * n)
    ensures IconRect(si) == Rect(20, 45 + 60 * si, 40, 40) && LabelRect(si) == Rect(64, 40 + 60 * si, 340, 50)
  {
  }

  predicate PairwiseApart(zones: seq<Zone>) {
    forall i, j :: 0 <= i < j < |zones| ==> Apart(RectOf(zones, i), RectOf(zones, j))
  }

  /** Every zone with another zone below it has at most eight services. */
  predicate AtMostEightAbove(zones: seq<Zone>) {
    forall i :: 0 <= i && i + Columns(|zones|) < |zones| ==> |zones[i]| <= 8
  }

  lemma BelowIsNextRow(i: nat, cols: nat)
    requires 1 <= cols <= 4
    ensures (i + cols) / cols == i / cols + 1 && (i + cols) % cols == i % cols
  {
    if cols == 1 {
    } else if cols == 2 {
    } else if cols == 3 {
    } else {
    }
  }

  lemma LaterIsBelow(i: nat, j: nat, cols: nat)
    requires 1 <= cols <= 4
    requires i < j && i % cols == j % cols
    ensures i + cols <= j && i / cols < j / cols
  {
    if cols == 1 {
    } else if cols == 2 {
    } else if cols == 3 {
    } else {
    }
  }

  /** For any number of zones, no two zones overlap if and only if every zone
      with another one below it has at most eight services. */
  lemma ZonesApartIff(zones: seq<Zone>)
    ensures PairwiseApart(zones) <==> AtMostEightAbove(zones)
  {
    var cols := Columns(|zones|);
    if AtMostEightAbove(zones) {
      forall i, j | 0 <= i < j < |zones| ensures Apart(RectOf(zones, i), RectOf(zones, j)) {
        if i % cols == j % cols {
          LaterIsBelow(i, j, cols);
          assert |zones[i]| <= 8;
        }
      }
    }
    if PairwiseApart(zones) {
      forall i | 0 <= i && i + cols < |zones| ensures |zones[i]| <= 8 {
        BelowIsNextRow(i, cols);
        assert Apart(RectOf(zones, i), RectOf(zones, i + cols));
      }
    }
  }

  // ---- Cells and edges ----------------------------------------------------------------------------

  datatype Kind = Root | Title | Cloud | ZoneCell | Icon | Label | Edge(source: nat, target: nat)

  datatype Cell = Cell(id: nat, parent: nat, kind: Kind, rect: Rect)

  /** Endpoint names of a service connection. */
  datatype Connection = Connection(from: string, to: string)

  /** Entries of the connection list that are not objects are `None`. */
  type Connections = seq<Option<Connection>>

  /** How a service name is normalised, which names the mappings declare equal,
      and the label cell of each name. */
  type NameKey = string -> string
  type Aliases = map<string, string>
  type Ids = map<string, nat>

  const NO_RECT := Rect(0, 0, 0, 0)

  predicate UniqueIds(cells: seq<Cell>) {
    forall i, j :: 0 <= i < j < |cells| ==> cells[i].id != cells[j].id
  }

  predicate IsCell(cells: seq<Cell>, id: nat, kind: Kind) {
    exists i :: 0 <= i < |cells| && cells[i].id == id && cells[i].kind == kind
  }

  /** Edges join two different cells that were emitted, both labels or both zones. */
  predicate EdgesJoinCells(cells: seq<Cell>) {
    forall i :: 0 <= i < |cells| && cells[i].kind.Edge? ==>
      var Edge(source, target) := cells[i].kind;
      && source != target
      && ((IsCell(cells, source, Label) && IsCell(cells, target, Label))
          || (IsCell(cells, source, ZoneCell) && IsCell(cells, target, ZoneCell)))
  }

  /** The boundary contains every zone. */
  predicate CloudContainsZones(cells: seq<Cell>) {
    forall i, j :: 0 <= i < |cells| && 0 <= j < |cells| && cells[i].kind.Cloud? && cells[j].kind.ZoneCell? ==>
      Inside(cells[j].rect, cells[i].rect)
  }

  /** Icons and labels have a zone as parent and lie inside its body. */
  predicate ServicesInsideZones(cells: seq<Cell>) {
    forall i :: 0 <= i < |cells| && (cells[i].kind.Icon? || cells[i].kind.Label?) ==>
      exists j :: 0 <= j < |cells| && cells[j].kind.ZoneCell? && cells[j].id == cells[i].parent
                  && Inside(cells[i].rect, Body(cells[j].rect))
  }

  // ---- The document as a function of its input --------------------------------------------------

  function Header(cloud: Rect): seq<Cell> {
    [Cell(0, 0, Root, NO_RECT), Cell(1, 0, Root, NO_RECT),
     Cell(2, 1, Title, Rect(MARGIN_X, 20, 600, 40)), Cell(3, 1, Cloud, cloud)]
  }

  /** Icons and labels of the first `n` services of a zone; `first` is the first id used. */
  function ServiceCells(zone: nat, first: nat, n: nat): (cells: seq<Cell>)
    ensures |cells| == 2 * n
  {
    if n == 0 then []
    else
      ServiceCells(zone, first, n - 1)
      + [Cell(first + 2 * n - 2, zone, Icon, IconRect(n - 1)), Cell(first + 2 * n - 1, zone, Label, LabelRect(n - 1))]
  }

  function ZoneCells(zones: seq<Zone>, n: nat): seq<Cell>
    requires n <= |zones|
  {
    if n == 0 then []
    else
      var before := ZoneCells(zones, n - 1);
      var id := 4 + |before|;
      before + [Cell(id, 1, ZoneCell, RectOf(zones, n - 1))] + ServiceCells(id, id + 1, |zones[n - 1]|)
  }

  function ZoneId(zones: seq<Zone>, i: nat): nat
    requires i < |zones|
  {
    4 + |ZoneCells(zones, i)|
  }

  function Max(a: int, b: int): int {
    if a < b then b else a
  }

  function MaxRight(zones: seq<Zone>, n: nat): int
    requires 0 < n <= |zones|
  {
    var r := Right(RectOf(zones, n - 1));
    if n == 1 then r else Max(MaxRight(zones, n - 1), r)
  }

  function MaxBottom(zones: seq<Zone>, n: nat): int
    requires 0 < n <= |zones|
  {
    var b := Bottom(RectOf(zones, n - 1));
    if n == 1 then b else Max(MaxBottom(zones, n - 1), b)
  }

  function CloudRect(zones: seq<Zone>): Rect {
    if zones == [] then Rect(MARGIN_X, MARGIN_Y, 800, 600)
    else
      var x, y := MARGIN_X, MARGIN_Y + 40;
      Rect(x, y, MaxRight(zones, |zones|) - x + ZONE_PAD, MaxBottom(zones, |zones|) - y + ZONE_PAD)
  }

  /** Each name of a service points to its label; later services take over a name. */
  function Named(ids: Ids, key: NameKey, names: seq<string>, id: nat): map<string, nat> {
    if names == [] then ids
    else Named(ids, key, names[..|names| - 1], id)[key(names[|names| - 1]) := id]
  }

  function NamedServices(ids: Ids, key: NameKey, zone: Zone, first: nat, n: nat): map<string, nat>
    requires n <= |zone|
  {
    if n == 0 then ids
    else Named(NamedServices(ids, key, zone, first, n - 1), key, zone[n - 1].names, first + 2 * n - 1)
  }

  function NamedZones(key: NameKey, zones: seq<Zone>, n: nat): map<string, nat>
    requires n <= |zones|
  {
    if n == 0 then map[]
    else NamedServices(NamedZones(key, zones, n - 1), key, zones[n - 1], ZoneId(zones, n - 1) + 1, |zones[n - 1]|)
  }

  function Endpoint(ids: Ids, key: NameKey, aliases: Aliases, name: string): Option<nat> {
    var resolved := if key(name) in aliases then aliases[key(name)] else name;
    if key(resolved) in ids then Some(ids[key(resolved)])
    else if key(name) in ids then Some(ids[key(name)])
    else None
  }

  function EdgeOf(ids: Ids, key: NameKey, aliases: Aliases, c: Option<Connection>): Option<(nat, nat)> {
    if c == None then None
    else
      var source, target := Endpoint(ids, key, aliases, c.value.from), Endpoint(ids, key, aliases, c.value.to);
      if source == None || target == None || source == target then None else Some((source.value, target.value))
  }

  function Connected(ids: Ids, key: NameKey, aliases: Aliases, cs: Connections): seq<(nat, nat)> {
    if cs == [] then []
    else
      var n := |cs| - 1;
      var before := Connected(ids, key, aliases, cs[..n]);
      var e := EdgeOf(ids, key, aliases, cs[n]);
      if e.Some? then before + [e.value] else before
  }

  /** The fallback: each zone flows into the next. */
  function Chain(zones: seq<Zone>): seq<(nat, nat)> {
    if |zones| < 2 then []
    else seq(|zones| - 1, i requires 0 <= i < |zones| - 1 => (ZoneId(zones, i), ZoneId(zones, i + 1)))
  }

  function EdgeCells(first: nat, edges: seq<(nat, nat)>): seq<Cell> {
    seq(|edges|, i requires 0 <= i < |edges| => Cell(first + i, 1, Edge(edges[i].0, edges[i].1), NO_RECT))
  }

  function Edges(key: NameKey, zones: seq<Zone>, aliases: Aliases, cs: Connections): seq<(nat, nat)> {
    var connected := Connected(NamedZones(key, zones, |zones|), key, aliases, cs);
    if connected == [] then Chain(zones) else connected
  }

  function Diagram(key: NameKey, zones: seq<Zone>, aliases: Aliases, cs: Connections): seq<Cell> {
    var body := Header(CloudRect(zones)) + ZoneCells(zones, |zones|);
    body + EdgeCells(|body|, Edges(key, zones, aliases, cs))
  }

  // ---- The generator ------------------------------------------------------------------------------

  class DrawioBuilder {
    var cellId: nat
    var cells: seq<Cell>
    var serviceIds: map<string, nat>
    const key: NameKey

    constructor (key: NameKey)
      ensures this.key == key && cellId == |cells| == 2 && serviceIds == map[]
      ensures cells == [Cell(0, 0, Root, NO_RECT), Cell(1, 0, Root, NO_RECT)]
    {
      this.key := key;
      cells := [Cell(0, 0, Root, NO_RECT), Cell(1, 0, Root, NO_RECT)];
      cellId := 2;
      serviceIds := map[];
    }

    /** The next id goes to the next cell. */
    method Append(parent: nat, kind: Kind, rect: Rect) returns (id: nat)
      requires cellId == |cells|
      modifies this`cellId, this`cells
      ensures cellId == |cells|
      ensures id == |old(cells)| && cells == old(cells) + [Cell(id, parent, kind, rect)]
    {
      id := cellId;
      cellId := cellId + 1;
      cells := cells + [Cell(id, parent, kind, rect)];
    }

    method AddService(zone: nat, si: nat, service: Service)
      requires cellId == |cells|
      modifies this
      ensures cellId == |cells|
      ensures var n := |old(cells)|;
              && cells == old(cells) + [Cell(n, zone, Icon, IconRect(si)), Cell(n + 1, zone, Label, LabelRect(si))]
              && serviceIds == Named(old(serviceIds), key, service.names, n + 1)
    {
      var _ := Append(zone, Icon, IconRect(si));
      var labelId := Append(zone, Label, LabelRect(si));
      var names := service.names;
      for a := 0 to |names|
        invariant cells ==
                  old(cells) + [Cell(labelId - 1, zone, Icon, IconRect(si)), Cell(labelId, zone, Label, LabelRect(si))]
        invariant cellId == |cells|
        invariant serviceIds == Named(old(serviceIds), key, names[..a], labelId)
      {
        assert names[..a + 1][..a] == names[..a];
        serviceIds := serviceIds[key(names[a]) := labelId];
      }
      assert names[..|names|] == names;
    }

    method AddZone(rect: Rect, zone: Zone) returns (id: nat)
      requires cellId == |cells|
      modifies this
      ensures cellId == |cells|
      ensures id == |old(cells)|
      ensures cells == old(cells) + [Cell(id, 1, ZoneCell, rect)] + ServiceCells(id, id + 1, |zone|)
      ensures serviceIds == NamedServices(old(serviceIds), key, zone, id + 1, |zone|)
    {
      id := Append(1, ZoneCell, rect);
      for si := 0 to |zone|
        invariant cellId == |cells|
        invariant cells == old(cells) + [Cell(id, 1, ZoneCell, rect)] + ServiceCells(id, id + 1, si)
        invariant serviceIds == NamedServices(old(serviceIds), key, zone, id + 1, si)
      {
        AddService(id, si, zone[si]);
      }
    }

    method AddEdge(source: nat, target: nat)
      requires cellId == |cells|
      modifies this`cellId, this`cells
      ensures cellId == |cells|
      ensures cells == old(cells) + [Cell(|old(cells)|, 1, Edge(source, target), NO_RECT)]
    {
      var _ := Append(1, Edge(source, target), NO_RECT);
    }

    method AddConnections(aliases: Aliases, cs: Connections) returns (rendered: nat)
      requires cellId == |cells|
      modifies this`cellId, this`cells
      ensures cellId == |cells|
      ensures var edges := Connected(serviceIds, key, aliases, cs);
              rendered == |edges| && cells == old(cells) + EdgeCells(|old(cells)|, edges)
    {
      rendered := 0;
      for i := 0 to |cs|
        invariant cellId == |cells|
        invariant var edges := Connected(serviceIds, key, aliases, cs[..i]);
                  rendered == |edges| && cells == old(cells) + EdgeCells(|old(cells)|, edges)
      {
        assert cs[..i + 1][..i] == cs[..i];
        var e := EdgeOf(serviceIds, key, aliases, cs[i]);
        if e == None {
          continue;
        }
        AddEdge(e.value.0, e.value.1);
        rendered := rendered + 1;
      }
      assert cs[..|cs|] == cs;
    }
  }

  lemma ZoneCellsStep(zones: seq<Zone>, i: nat)
    requires i < |zones|
    ensures var id := ZoneId(zones, i);
            Header(NO_RECT) + ZoneCells(zones, i) + [Cell(id, 1, ZoneCell, RectOf(zones, i))]
            + ServiceCells(id, id + 1, |zones[i]|)
            == Header(NO_RECT) + ZoneCells(zones, i + 1)
  {
  }

  lemma NoZones(key: NameKey, zones: seq<Zone>)
    ensures ZoneCells(zones, 0) == [] && NamedZones(key, zones, 0) == map[]
  {
  }

  method LayOutZones(b: DrawioBuilder, zones: seq<Zone>) returns (zoneIds: seq<nat>)
    requires b.cellId == |b.cells| && b.cells == Header(NO_RECT) && b.serviceIds == map[]
    modifies b
    ensures b.cellId == |b.cells| && b.cells == Header(NO_RECT) + ZoneCells(zones, |zones|)
    ensures b.serviceIds == NamedZones(b.key, zones, |zones|)
    ensures |zoneIds| == |zones| && forall j :: 0 <= j < |zones| ==> zoneIds[j] == ZoneId(zones, j)
  {
    hide ZoneCells, NamedZones, ZoneId, Header;
    NoZones(b.key, zones);
    zoneIds := [];
    for i := 0 to |zones|
      invariant b.cellId == |b.cells| && b.cells == Header(NO_RECT) + ZoneCells(zones, i)
      invariant b.serviceIds == NamedZones(b.key, zones, i)
      invariant |zoneIds| == i && forall j :: 0 <= j < i ==> zoneIds[j] == ZoneId(zones, j)
    {
      var id := AddZoneAt(b, zones, i);
      zoneIds := zoneIds + [id];
    }
  }

  /** One turn of the zone loop. */
  method AddZoneAt(b: DrawioBuilder, zones: seq<Zone>, i: nat) returns (id: nat)
    requires i < |zones|
    requires b.cellId == |b.cells| && b.cells == Header(NO_RECT) + ZoneCells(zones, i)
    requires b.serviceIds == NamedZones(b.key, zones, i)
    modifies b
    ensures b.cellId == |b.cells| && b.cells == Header(NO_RECT) + ZoneCells(zones, i + 1)
    ensures b.serviceIds == NamedZones(b.key, zones, i + 1)
    ensures id == ZoneId(zones, i)
  {
    id := b.AddZone(ZoneRect(i, |zones|, |zones[i]|), zones[i]);
    ZoneCellsStep(zones, i);
  }

  method AddChain(b: DrawioBuilder, zones: seq<Zone>, zoneIds: seq<nat>)
    requires b.cellId == |b.cells|
    requires |zoneIds| == |zones| && forall j :: 0 <= j < |zones| ==> zoneIds[j] == ZoneId(zones, j)
    modifies b
    ensures b.cells == old(b.cells) + EdgeCells(|old(b.cells)|, Chain(zones))
  {
    var i := 0;
    ghost var chain, body := Chain(zones), b.cells;
    while i < |zones| - 1
      invariant 0 <= i <= |chain|
      invariant b.cellId == |b.cells| && b.cells == body + EdgeCells(|body|, chain[..i])
    {
      b.AddEdge(zoneIds[i], zoneIds[i + 1]);
      assert chain[..i + 1] == chain[..i] + [(zoneIds[i], zoneIds[i + 1])];
      i := i + 1;
    }
    assert chain[..i] == chain;
  }

  /** The generated cells, ids and edges are exactly those of the document function. */
  method GenerateDrawio(key: NameKey, zones: seq<Zone>, aliases: Aliases, cs: Connections)
    returns (cells: seq<Cell>)
    ensures cells == Diagram(key, zones, aliases, cs)
  {
    var b := new DrawioBuilder(key);
    var _ := b.Append(1, Title, Rect(MARGIN_X, 20, 600, 40));
    var cloudId := b.Append(1, Cloud, NO_RECT);
    var zoneIds := LayOutZones(b, zones);
    b.cells := b.cells[cloudId := Cell(cloudId, 1, Cloud, CloudRect(zones))];
    ghost var body := Header(CloudRect(zones)) + ZoneCells(zones, |zones|);
    assert b.cells == body;
    var rendered := b.AddConnections(aliases, cs);
    if rendered == 0 {
      assert b.cells == body;
      AddChain(b, zones, zoneIds);
    }
    cells := b.cells;
  }

  // ---- What holds of every diagram -------------------------------------------------------------------

  predicate Numbered(cells: seq<Cell>, first: nat) {
    forall i :: 0 <= i < |cells| ==> cells[i].id == first + i
  }

  lemma {:induction false} ServiceCellsNumbered(zone: nat, first: nat, n: nat)
    ensures Numbered(ServiceCells(zone, first, n), first)
  {
    if n > 0 {
      ServiceCellsNumbered(zone, first, n - 1);
    }
  }

  lemma {:induction false} ZoneCellsNumbered(zones: seq<Zone>, n: nat)
    requires n <= |zones|
    ensures Numbered(ZoneCells(zones, n), 4)
  {
    if n > 0 {
      ZoneCellsNumbered(zones, n - 1);
      var id := ZoneId(zones, n - 1);
      ServiceCellsNumbered(id, id + 1, |zones[n - 1]|);
    }
  }

  /** All cell ids of every diagram are distinct. */
  lemma IdsAreUnique(key: NameKey, zones: seq<Zone>, aliases: Aliases, cs: Connections)
    ensures UniqueIds(Diagram(key, zones, aliases, cs)) && Numbered(Diagram(key, zones, aliases, cs), 0)
  {
    hide ZoneCells, Edges, CloudRect;
    ZoneCellsNumbered(zones, |zones|);
  }

  lemma {:induction false} ServiceCellKinds(zone: nat, first: nat, n: nat, i: nat)
    requires i < 2 * n
    ensures var c := ServiceCells(zone, first, n)[i];
            && c.parent == zone
            && if i % 2 == 0 then c.kind == Icon && c.rect == IconRect(i / 2)
               else c.kind == Label && c.rect == LabelRect(i / 2)
  {
    if i < 2 * n - 2 {
      ServiceCellKinds(zone, first, n - 1, i);
    }
  }

  /** Every zone cell has the rectangle of its zone, and every other cell of the
      layout sits inside the zone cell that is its parent. */
  predicate WellPlaced(zones: seq<Zone>, cells: seq<Cell>, i: nat)
    requires i < |cells|
  {
    match cells[i].kind
    case ZoneCell =>
      exists z: nat :: z < |zones| && cells[i].rect == RectOf(zones, z) && cells[i].id == ZoneId(zones, z)
    case Icon => InsideParent(cells, i)
    case Label => InsideParent(cells, i)
    case _ => false
  }

  predicate InsideParent(cells: seq<Cell>, i: nat)
    requires i < |cells|
  {
    exists j :: 0 <= j < |cells| && cells[j].kind == ZoneCell && cells[j].id == cells[i].parent
                && Inside(cells[i].rect, Body(cells[j].rect))
  }

  lemma {:induction false} LayoutWellPlaced(zones: seq<Zone>, n: nat)
    requires n <= |zones|
    ensures forall i :: 0 <= i < |ZoneCells(zones, n)| ==> WellPlaced(zones, ZoneCells(zones, n), i)
  {
    if n > 0 {
      var before, cells := ZoneCells(zones, n - 1), ZoneCells(zones, n);
      LayoutWellPlaced(zones, n - 1);
      forall i | 0 <= i < |cells| ensures WellPlaced(zones, cells, i) {
        if i < |before| {
          assert WellPlaced(zones, before, i);
          StillPlaced(zones, before, cells, i);
        } else if i == |before| {
          assert cells[i].rect == RectOf(zones, n - 1) && cells[i].id == ZoneId(zones, n - 1);
        } else {
          NewServicePlaced(zones, n, i);
        }
      }
    }
  }

  lemma StillPlaced(zones: seq<Zone>, before: seq<Cell>, cells: seq<Cell>, i: nat)
    requires before <= cells && i < |before| && WellPlaced(zones, before, i)
    ensures WellPlaced(zones, cells, i)
  {
    if !before[i].kind.ZoneCell? {
      var j :| 0 <= j < |before| && before[j].kind == ZoneCell && before[j].id == before[i].parent
               && Inside(before[i].rect, Body(before[j].rect));
      assert cells[j] == before[j] && cells[i] == before[i];
    }
  }

  lemma NewServicePlaced(zones: seq<Zone>, n: nat, i: nat)
    requires 0 < n <= |zones| && |ZoneCells(zones, n - 1)| < i < |ZoneCells(zones, n)|
    ensures WellPlaced(zones, ZoneCells(zones, n), i)
  {
    var before, cells := ZoneCells(zones, n - 1), ZoneCells(zones, n);
    var id := ZoneId(zones, n - 1);
    var k := i - |before| - 1;
    ServiceCellKinds(id, id + 1, |zones[n - 1]|, k);
    assert cells[i] == ServiceCells(id, id + 1, |zones[n - 1]|)[k];
    assert cells[|before|].kind == ZoneCell && cells[|before|].id == cells[i].parent;
    assert Inside(cells[i].rect, Body(cells[|before|].rect));
  }

  lemma {:induction false} MaximaBound(zones: seq<Zone>, n: nat, i: nat)
    requires i < n <= |zones|
    ensures Right(RectOf(zones, i)) <= MaxRight(zones, n) && Bottom(RectOf(zones, i)) <= MaxBottom(zones, n)
  {
    if i < n - 1 {
      MaximaBound(zones, n - 1, i);
    }
  }

  /** The boundary is no wider and no taller than its zones and the padding ask for. */
  lemma {:induction false} MaximaAttained(zones: seq<Zone>, n: nat)
    requires 0 < n <= |zones|
    ensures exists i: nat :: i < n && Right(RectOf(zones, i)) == MaxRight(zones, n)
    ensures exists i: nat :: i < n && Bottom(RectOf(zones, i)) == MaxBottom(zones, n)
  {
    if n == 1 {
      assert Right(RectOf(zones, 0)) == MaxRight(zones, n) && Bottom(RectOf(zones, 0)) == MaxBottom(zones, n);
    } else {
      MaximaAttained(zones, n - 1);
      var i: nat :| i < n - 1 && Right(RectOf(zones, i)) == MaxRight(zones, n - 1);
      var j: nat :| j < n - 1 && Bottom(RectOf(zones, j)) == MaxBottom(zones, n - 1);
      assert Right(RectOf(zones, i)) == MaxRight(zones, n) || Right(RectOf(zones, n - 1)) == MaxRight(zones, n);
      assert Bottom(RectOf(zones, j)) == MaxBottom(zones, n) || Bottom(RectOf(zones, n - 1)) == MaxBottom(zones, n);
    }
  }

  /** Where the layout cells stand in the document. */
  lemma CellAt(key: NameKey, zones: seq<Zone>, aliases: Aliases, cs: Connections, i: nat)
    requires i < |Diagram(key, zones, aliases, cs)|
    ensures var cells, layout := Diagram(key, zones, aliases, cs), ZoneCells(zones, |zones|);
            if i < 4 then cells[i] == Header(CloudRect(zones))[i]
            else if i < 4 + |layout| then cells[i] == layout[i - 4] && WellPlaced(zones, layout, i - 4)
            else cells[i].kind.Edge? && cells[i].id == i
  {
    LayoutWellPlaced(zones, |zones|);
  }

  lemma ZoneInsideCloud(zones: seq<Zone>, z: nat)
    requires z < |zones|
    ensures Inside(RectOf(zones, z), CloudRect(zones))
  {
    MaximaBound(zones, |zones|, z);
    assert z % Columns(|zones|) >= 0 && z / Columns(|zones|) >= 0;
  }

  lemma LayoutInsideCloud(zones: seq<Zone>, i: nat)
    requires i < |ZoneCells(zones, |zones|)| && ZoneCells(zones, |zones|)[i].kind == ZoneCell
    ensures Inside(ZoneCells(zones, |zones|)[i].rect, CloudRect(zones))
  {
    var layout := ZoneCells(zones, |zones|);
    LayoutWellPlaced(zones, |zones|);
    assert WellPlaced(zones, layout, i);
    var z: nat :| z < |zones| && layout[i].rect == RectOf(zones, z) && layout[i].id == ZoneId(zones, z);
    ZoneInsideCloud(zones, z);
  }

  /** For any number of zones the cloud boundary contains every zone. */
  lemma CloudContainsAllZones(key: NameKey, zones: seq<Zone>, aliases: Aliases, cs: Connections)
    ensures CloudContainsZones(Diagram(key, zones, aliases, cs))
  {
    var cells := Diagram(key, zones, aliases, cs);
    forall i, j | 0 <= i < |cells| && 0 <= j < |cells| && cells[i].kind.Cloud? && cells[j].kind.ZoneCell?
      ensures Inside(cells[j].rect, cells[i].rect)
    {
      CellAt(key, zones, aliases, cs, i);
      CellAt(key, zones, aliases, cs, j);
      LayoutInsideCloud(zones, j - 4);
    }
  }

  /** Every zone contains the icons and labels of its services. */
  lemma ZonesContainServices(key: NameKey, zones: seq<Zone>, aliases: Aliases, cs: Connections)
    ensures ServicesInsideZones(Diagram(key, zones, aliases, cs))
  {
    var cells, layout := Diagram(key, zones, aliases, cs), ZoneCells(zones, |zones|);
    forall i | 0 <= i < |cells| && (cells[i].kind.Icon? || cells[i].kind.Label?) ensures InsideParent(cells, i) {
      CellAt(key, zones, aliases, cs, i);
      var j :| 0 <= j < |layout| && layout[j].kind == ZoneCell && layout[j].id == layout[i - 4].parent
               && Inside(layout[i - 4].rect, Body(layout[j].rect));
      assert cells[j + 4] == layout[j];
    }
  }

  /** How every document begins: two roots, the title, and a boundary that starts
      at a fixed corner and reaches exactly 60 beyond the last zone on the right and
      the last one below, or has a fixed size without zones. */
  lemma DocumentBegins(key: NameKey, zones: seq<Zone>, aliases: Aliases, cs: Connections)
    ensures var cells, nowhere := Diagram(key, zones, aliases, cs), Rect(0, 0, 0, 0);
            && |cells| >= 4
            && cells[0] == Cell(0, 0, Root, nowhere) && cells[1] == Cell(1, 0, Root, nowhere)
            && cells[2] == Cell(2, 1, Title, Rect(60, 20, 600, 40))
            && cells[3].id == 3 && cells[3].parent == 1 && cells[3].kind == Cloud
            && var r := cells[3].rect;
               if zones == [] then r == Rect(60, 100, 800, 600)
               else
                 && r.x == 60 && r.y == 140
                 && (forall z :: 0 <= z < |zones| ==> WithinBy60(RectOf(zones, z), r))
                 && (exists z :: 0 <= z < |zones| && RectOf(zones, z).x + 420 == r.x + r.w - 60)
                 && (exists z :: 0 <= z < |zones| && RectOf(zones, z).y + RectOf(zones, z).h == r.y + r.h - 60)
  {
    hide ZoneCells, Edges, EdgeCells, RectOf;
    if zones != [] {
      var n := |zones|;
      forall z | 0 <= z < n ensures WithinBy60(RectOf(zones, z), CloudRect(zones)) {
        MaximaBound(zones, n, z);
      }
      MaximaAttained(zones, n);
      WidthIs(zones);
    }
  }

  predicate WithinBy60(zone: Rect, r: Rect) {
    zone.x + zone.w <= r.x + r.w - 60 && zone.y + zone.h <= r.y + r.h - 60
  }

  lemma WidthIs(zones: seq<Zone>)
    ensures forall z :: 0 <= z < |zones| ==> RectOf(zones, z).w == 420
  {
  }

  // ---- Edges -----------------------------------------------------------------------------------------

  predicate IsKind(layout: seq<Cell>, id: nat, kind: Kind) {
    4 <= id < 4 + |layout| && layout[id - 4].kind == kind
  }

  /** Every registered name points to a label of the layout. */
  predicate PointsToLabels(ids: Ids, layout: seq<Cell>) {
    forall k :: k in ids ==> IsKind(layout, ids[k], Label)
  }

  lemma {:induction false} NamedPointsToLabels(ids: Ids, key: NameKey, names: seq<string>, id: nat, layout: seq<Cell>)
    requires PointsToLabels(ids, layout) && IsKind(layout, id, Label)
    ensures PointsToLabels(Named(ids, key, names, id), layout)
  {
    if names != [] {
      NamedPointsToLabels(ids, key, names[..|names| - 1], id, layout);
    }
  }

  lemma {:induction false} ServicesPointToLabels(
    ids: Ids, key: NameKey, zone: Zone, first: nat, n: nat, layout: seq<Cell>)
    requires n <= |zone| && PointsToLabels(ids, layout)
    requires forall k: nat :: k < n ==> IsKind(layout, first + 2 * k + 1, Label)
    ensures PointsToLabels(NamedServices(ids, key, zone, first, n), layout)
  {
    if n > 0 {
      ServicesPointToLabels(ids, key, zone, first, n - 1, layout);
      assert IsKind(layout, first + 2 * (n - 1) + 1, Label);
      var before := NamedServices(ids, key, zone, first, n - 1);
      NamedPointsToLabels(before, key, zone[n - 1].names, first + 2 * n - 1, layout);
    }
  }

  lemma LabelsOfNewZone(zones: seq<Zone>, n: nat, k: nat)
    requires 0 < n <= |zones| && k < |zones[n - 1]|
    ensures IsKind(ZoneCells(zones, n), ZoneId(zones, n - 1) + 1 + 2 * k + 1, Label)
  {
    var before, id, count := ZoneCells(zones, n - 1), ZoneId(zones, n - 1), |zones[n - 1]|;
    ServiceCellKinds(id, id + 1, count, 2 * k + 1);
    LastPart(before, Cell(id, 1, ZoneCell, RectOf(zones, n - 1)), ServiceCells(id, id + 1, count), 2 * k + 1);
  }

  lemma LastPart(a: seq<Cell>, b: Cell, c: seq<Cell>, i: nat)
    requires i < |c|
    ensures (a + [b] + c)[|a| + 1 + i] == c[i]
  {
  }

  lemma LabelsStay(ids: Ids, before: seq<Cell>, cells: seq<Cell>)
    requires before <= cells && PointsToLabels(ids, before)
    ensures PointsToLabels(ids, cells)
  {
    forall k | k in ids ensures IsKind(cells, ids[k], Label) {
      assert IsKind(before, ids[k], Label);
    }
  }

  lemma LayoutGrows(zones: seq<Zone>, n: nat)
    requires n <= |zones|
    ensures n > 0 ==> ZoneCells(zones, n - 1) <= ZoneCells(zones, n)
    ensures n == 0 ==> PointsToLabels(map[], ZoneCells(zones, n))
  {
  }

  lemma {:induction false} ZonesPointToLabels(key: NameKey, zones: seq<Zone>, n: nat)
    requires n <= |zones|
    ensures PointsToLabels(NamedZones(key, zones, n), ZoneCells(zones, n))
  {
    hide ZoneCells, PointsToLabels, IsKind, ZoneId;
    LayoutGrows(zones, n);
    if n > 0 {
      var ids := NamedZones(key, zones, n - 1);
      ZonesPointToLabels(key, zones, n - 1);
      LabelsStay(ids, ZoneCells(zones, n - 1), ZoneCells(zones, n));
      forall k: nat | k < |zones[n - 1]|
        ensures IsKind(ZoneCells(zones, n), ZoneId(zones, n - 1) + 1 + 2 * k + 1, Label)
      {
        LabelsOfNewZone(zones, n, k);
      }
      ServicesPointToLabels(ids, key, zones[n - 1], ZoneId(zones, n - 1) + 1, |zones[n - 1]|, ZoneCells(zones, n));
    }
  }

  /** The two ends of an edge are different cells of the same kind. */
  predicate Joins(layout: seq<Cell>, e: (nat, nat)) {
    && e.0 != e.1
    && ((IsKind(layout, e.0, Label) && IsKind(layout, e.1, Label))
        || (IsKind(layout, e.0, ZoneCell) && IsKind(layout, e.1, ZoneCell)))
  }

  predicate AllJoin(layout: seq<Cell>, edges: seq<(nat, nat)>) {
    forall k :: 0 <= k < |edges| ==> Joins(layout, edges[k])
  }

  lemma {:induction false} ConnectedJoinLabels(
    ids: Ids, key: NameKey, aliases: Aliases, cs: Connections, layout: seq<Cell>)
    requires PointsToLabels(ids, layout)
    ensures AllJoin(layout, Connected(ids, key, aliases, cs))
  {
    if cs != [] {
      ConnectedJoinLabels(ids, key, aliases, cs[..|cs| - 1], layout);
    }
  }

  lemma {:induction false} ZoneCellsGrow(zones: seq<Zone>, i: nat, n: nat)
    requires i < n <= |zones|
    ensures |ZoneCells(zones, i)| < |ZoneCells(zones, n)|
    ensures IsKind(ZoneCells(zones, n), ZoneId(zones, i), ZoneCell)
  {
    if i < n - 1 {
      ZoneCellsGrow(zones, i, n - 1);
    }
  }

  lemma ChainJoinsZones(zones: seq<Zone>, k: nat)
    requires k < |Chain(zones)|
    ensures Joins(ZoneCells(zones, |zones|), Chain(zones)[k])
  {
    hide ZoneCells;
    ZoneCellsGrow(zones, k, |zones|);
    ZoneCellsGrow(zones, k + 1, |zones|);
    ZoneCellsGrow(zones, k, k + 1);
  }

  lemma EdgesJoin(head: seq<Cell>, layout: seq<Cell>, edges: seq<(nat, nat)>, cells: seq<Cell>)
    requires |head| == 4 && cells == head + layout + EdgeCells(4 + |layout|, edges) && Numbered(cells, 0)
    requires forall i :: 0 <= i < 4 ==> !head[i].kind.Edge?
    requires forall i :: 0 <= i < |layout| ==> !layout[i].kind.Edge?
    requires AllJoin(layout, edges)
    ensures EdgesJoinCells(cells)
  {
    forall i | 0 <= i < |cells| && cells[i].kind.Edge?
      ensures var Edge(source, target) := cells[i].kind;
              && source != target
              && ((IsCell(cells, source, Label) && IsCell(cells, target, Label))
                  || (IsCell(cells, source, ZoneCell) && IsCell(cells, target, ZoneCell)))
    {
      var Edge(source, target) := cells[i].kind;
      assert Joins(layout, edges[i - 4 - |layout|]) && edges[i - 4 - |layout|] == (source, target);
      assert cells[source] == layout[source - 4] && cells[target] == layout[target - 4];
    }
  }

  /** Every edge of every diagram joins two different cells that were emitted:
      two labels, or two zones in the fallback. */
  lemma EdgesAreSound(key: NameKey, zones: seq<Zone>, aliases: Aliases, cs: Connections)
    ensures EdgesJoinCells(Diagram(key, zones, aliases, cs))
  {
    var layout, edges := ZoneCells(zones, |zones|), Edges(key, zones, aliases, cs);
    IdsAreUnique(key, zones, aliases, cs);
    LayoutWellPlaced(zones, |zones|);
    forall k | 0 <= k < |edges| ensures Joins(layout, edges[k]) {
      ZonesPointToLabels(key, zones, |zones|);
      ConnectedJoinLabels(NamedZones(key, zones, |zones|), key, aliases, cs, layout);
      if Connected(NamedZones(key, zones, |zones|), key, aliases, cs) == [] {
        ChainJoinsZones(zones, k);
      }
    }
    forall i | 0 <= i < |layout| ensures !layout[i].kind.Edge? {
      assert WellPlaced(zones, layout, i);
    }
    EdgesJoin(Header(CloudRect(zones)), layout, edges, Diagram(key, zones, aliases, cs));
  }
}
