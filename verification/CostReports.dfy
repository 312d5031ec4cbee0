/** Cost records, who may see them, and the reports computed from them. Money
    is counted in hundred-millionths of a dollar, the precision of a record. */
module CostReports {
  import opened Filtering
  import opened Text

  type Time = int

  datatype Record = Record(
    agent: Option<string>, model: string, prompt: nat, completion: nat, total: nat,
    cost: int, time: Time, owner: Option<string>, tenant: Option<string>)

  datatype Scope = Scope(owner: string, tenant: string, admin: bool)

  // ---- Rounding ---------------------------------------------------------------------------

  /** Millionths of a dollar, ties to even. */
  function Round6(cost: int): int {
    var q, r := cost / 100, cost % 100;
    if r < 50 || (r == 50 && q % 2 == 0) then q else q + 1
  }

  lemma Round6Error(cost: int)
    ensures -50 <= 100 * Round6(cost) - cost <= 50
  {
  }

  // ---- Visibility -----------------------------------------------------------------------------

  predicate Visible(r: Record, scope: Option<Scope>) {
    scope == None || scope.value.admin || (r.owner == Some(scope.value.owner) && r.tenant == Some(scope.value.tenant))
  }

  function LoadRecords(records: seq<Record>, scope: Option<Scope>): seq<Record> {
    if records == [] then []
    else
      var rest := LoadRecords(records[1..], scope);
      if Visible(records[0], scope) then [records[0]] + rest else rest
  }

  /** A record of another owner or tenant changes no report of a non-admin
      scope, since all reports are computed from what the scope can load. */
  lemma {:induction false} ForeignRecordInvisible(a: seq<Record>, r: Record, b: seq<Record>, scope: Scope)
    requires !scope.admin && (r.owner != Some(scope.owner) || r.tenant != Some(scope.tenant))
    ensures LoadRecords(a + [r] + b, Some(scope)) == LoadRecords(a + b, Some(scope))
  {
    if a == [] {
      assert (a + [r] + b)[1..] == b && a + b == b;
    } else {
      assert (a + [r] + b)[1..] == a[1..] + [r] + b && (a + b)[1..] == a[1..] + b;
      ForeignRecordInvisible(a[1..], r, b, scope);
    }
  }

  // ---- Selection ---------------------------------------------------------------------------------

  /** Bounds that may be missing; both ends belong to the window. */
  datatype Window = Window(since: Option<Time>, until: Option<Time>)

  predicate Inside(t: Time, w: Window) {
    (w.since.Some? ==> w.since.value <= t) && (w.until.Some? ==> t <= w.until.value)
  }

  /** An empty agent or model selects everything. */
  predicate Selected(r: Record, agent: string, model: string, w: Window) {
    && (agent != "" ==> r.agent == Some(agent))
    && (model != "" ==> r.model == model)
    && Inside(r.time, w)
  }

  function Filter(records: seq<Record>, agent: string, model: string, w: Window): seq<Record> {
    if records == [] then []
    else
      var n := |records| - 1;
      var before := Filter(records[..n], agent, model, w);
      if Selected(records[n], agent, model, w) then before + [records[n]] else before
  }

  method FilterRecords(records: seq<Record>, agent: string, model: string, w: Window, scope: Option<Scope>)
    returns (filtered: seq<Record>)
    ensures filtered == Filter(LoadRecords(records, scope), agent, model, w)
  {
    var loaded := LoadRecords(records, scope);
    filtered := [];
    for i := 0 to |loaded|
      invariant filtered == Filter(loaded[..i], agent, model, w)
    {
      var r := loaded[i];
      assert loaded[..i + 1][..i] == loaded[..i];
      if agent != "" && r.agent != Some(agent) {
        continue;
      }
      if model != "" && r.model != model {
        continue;
      }
      if w.since.Some? && r.time < w.since.value {
        continue;
      }
      if w.until.Some? && r.time > w.until.value {
        continue;
      }
      filtered := filtered + [r];
    }
    assert loaded[..|loaded|] == loaded;
  }

  /** One column of what a selection adds up to. */
  function Selection(records: seq<Record>, agent: string, model: string, w: Window, c: Column): int {
    At(Sum(Filter(records, agent, model, w)), c)
  }

  /** Two windows that meet at an instant count the records of that instant
      twice, in every column, and nothing else twice or not at all. */
  lemma {:induction false} AdjacentWindowsOverlap(
    records: seq<Record>, agent: string, model: string, since: Time, mid: Time, until: Time, c: Column)
    requires since <= mid <= until
    ensures Selection(records, agent, model, Window(Some(since), Some(mid)), c)
            + Selection(records, agent, model, Window(Some(mid), Some(until)), c)
            == Selection(records, agent, model, Window(Some(since), Some(until)), c)
            + Selection(records, agent, model, Window(Some(mid), Some(mid)), c)
  {
    NothingSelected(agent, model, c);
    hide Selection;
    if records == [] {
    } else {
      var n := |records| - 1;
      AdjacentWindowsOverlap(records[..n], agent, model, since, mid, until, c);
      SelectionStep(records, agent, model, Window(Some(since), Some(mid)), c);
      SelectionStep(records, agent, model, Window(Some(mid), Some(until)), c);
      SelectionStep(records, agent, model, Window(Some(since), Some(until)), c);
      SelectionStep(records, agent, model, Window(Some(mid), Some(mid)), c);
    }
  }

  lemma NothingSelected(agent: string, model: string, c: Column)
    ensures forall w :: Selection([], agent, model, w, c) == 0
  {
  }

  lemma SelectionStep(records: seq<Record>, agent: string, model: string, w: Window, c: Column)
    requires records != []
    ensures var n := |records| - 1;
            Selection(records, agent, model, w, c) == Selection(records[..n], agent, model, w, c)
            + if Selected(records[n], agent, model, w) then Amount(records[n], c) else 0
  {
    var n := |records| - 1;
    SumAppend(Filter(records[..n], agent, model, w), records[n]);
  }

  // ---- Totals -----------------------------------------------------------------------------------

  datatype Totals = Totals(spend: int, prompt: nat, completion: nat, tokens: nat, calls: nat)

  const NOTHING := Totals(0, 0, 0, 0, 0)

  function Add(t: Totals, r: Record): Totals {
    Totals(t.spend + r.cost, t.prompt + r.prompt, t.completion + r.completion, t.tokens + r.total, t.calls + 1)
  }

  function Sum(records: seq<Record>): Totals {
    if records == [] then NOTHING
    else Add(Sum(records[..|records| - 1]), records[|records| - 1])
  }

  /** One column of the totals. */
  datatype Column = Spend | Prompt | Completion | Tokens | Calls

  function At(t: Totals, c: Column): int {
    match c
    case Spend => t.spend
    case Prompt => t.prompt
    case Completion => t.completion
    case Tokens => t.tokens
    case Calls => t.calls
  }

  /** What a report groups by: the model, the agent, or a time bucket. */
  datatype Grouping = Model | Agent | Bucket(of: Time -> string)

  function KeyOf(g: Grouping, r: Record): string {
    match g
    case Model => r.model
    case Agent => if Attributed(r) then r.agent.value else "_unattributed"
    case Bucket(of) => of(r.time)
  }

  predicate Attributed(r: Record) {
    r.agent.Some? && r.agent.value != ""
  }

  function Group(records: seq<Record>, g: Grouping, k: string): seq<Record> {
    if records == [] then []
    else
      var n := |records| - 1;
      var before := Group(records[..n], g, k);
      if KeyOf(g, records[n]) == k then before + [records[n]] else before
  }

  function Keys(records: seq<Record>, g: Grouping): set<string> {
    if records == [] then {}
    else Keys(records[..|records| - 1], g) + {KeyOf(g, records[|records| - 1])}
  }

  datatype Overview = Overview(totals: Totals, agents: set<string>, models: set<string>)

  function Agents(records: seq<Record>): set<string> {
    if records == [] then {}
    else
      var n := |records| - 1;
      if Attributed(records[n]) then Agents(records[..n]) + {records[n].agent.value} else Agents(records[..n])
  }

  method GetOverview(records: seq<Record>) returns (o: Overview)
    ensures o == Overview(Sum(records), Agents(records), Keys(records, Model))
    ensures o.totals.calls == |records|
  {
    var totals, agents, models := NOTHING, {}, {};
    for i := 0 to |records|
      invariant totals == Sum(records[..i]) && totals.calls == i
      invariant agents == Agents(records[..i])
      invariant models == Keys(records[..i], Model)
    {
      assert records[..i + 1][..i] == records[..i];
      totals := Add(totals, records[i]);
      if Attributed(records[i]) {
        agents := agents + {records[i].agent.value};
      }
      models := models + {records[i].model};
    }
    assert records[..|records|] == records;
    return Overview(totals, agents, models);
  }

  predicate IsGrouping(groups: map<string, Totals>, records: seq<Record>, g: Grouping) {
    && groups.Keys == Keys(records, g)
    && forall k :: k in groups ==> groups[k] == Sum(Group(records, g, k))
  }

  /** One record into the accumulator of its group, created on first use. */
  method Accumulate(groups: map<string, Totals>, ghost seen: seq<Record>, r: Record, g: Grouping)
    returns (groups': map<string, Totals>)
    requires IsGrouping(groups, seen, g)
    ensures IsGrouping(groups', seen + [r], g)
  {
    var k := KeyOf(g, r);
    groups' := groups;
    if k !in groups' {
      groups' := groups'[k := NOTHING];
    }
    groups' := groups'[k := Add(groups'[k], r)];
    assert groups' == groups[k := Add(if k in groups then groups[k] else NOTHING, r)];
    GroupingStep(groups, seen, r, g);
  }

  lemma OneMore(groups: map<string, Totals>, records: seq<Record>, i: nat, g: Grouping)
    requires i < |records| && IsGrouping(groups, records[..i] + [records[i]], g)
    ensures IsGrouping(groups, records[..i + 1], g)
  {
    assert records[..i + 1] == records[..i] + [records[i]];
  }

  /** The keys in the order in which they first appear. */
  function Order(records: seq<Record>, g: Grouping): seq<string> {
    if records == [] then []
    else
      var before, k := Order(records[..|records| - 1], g), KeyOf(g, records[|records| - 1]);
      if k in before then before else before + [k]
  }

  /** Where a key first appears. */
  function FirstSeen(records: seq<Record>, g: Grouping, k: string): (i: nat)
    ensures i <= |records|
    ensures i < |records| ==> KeyOf(g, records[i]) == k
    ensures forall j :: 0 <= j < i ==> KeyOf(g, records[j]) != k
  {
    if records == [] || KeyOf(g, records[0]) == k then 0 else 1 + FirstSeen(records[1..], g, k)
  }

  lemma {:induction false} FirstSeenAppend(records: seq<Record>, r: Record, g: Grouping, k: string)
    ensures FirstSeen(records + [r], g, k) ==
            if FirstSeen(records, g, k) < |records| then FirstSeen(records, g, k)
            else if KeyOf(g, r) == k then |records|
            else |records| + 1
  {
    if records == [] {
      assert records + [r] == [r];
    } else {
      assert (records + [r])[1..] == records[1..] + [r];
      FirstSeenAppend(records[1..], r, g, k);
    }
  }

  lemma {:induction false} SeenIffKey(records: seq<Record>, g: Grouping, k: string)
    ensures k in Order(records, g) <==> k in Keys(records, g)
    ensures k in Keys(records, g) <==> FirstSeen(records, g, k) < |records|
  {
    hide FirstSeen;
    FirstSeenBound(records, g, k);
    if records != [] {
      var n := |records| - 1;
      SeenIffKey(records[..n], g, k);
      FirstSeenAppend(records[..n], records[n], g, k);
      assert records == records[..n] + [records[n]];
    }
  }

  predicate AppearInOrder(order: seq<string>, records: seq<Record>, g: Grouping) {
    forall i, j :: 0 <= i < j < |order| ==> FirstSeen(records, g, order[i]) < FirstSeen(records, g, order[j])
  }

  lemma AppearStep(order: seq<string>, records: seq<Record>, r: Record, g: Grouping)
    requires AppearInOrder(order, records, g)
    requires forall k :: k in order ==> FirstSeen(records, g, k) < |records|
    requires FirstSeen(records, g, KeyOf(g, r)) < |records| || KeyOf(g, r) !in order
    ensures AppearInOrder(order, records + [r], g)
    ensures FirstSeen(records, g, KeyOf(g, r)) == |records| ==> AppearInOrder(order + [KeyOf(g, r)], records + [r], g)
  {
    hide FirstSeen;
    FirstSeenAppend(records, r, g, KeyOf(g, r));
    forall i | 0 <= i < |order|
      ensures FirstSeen(records + [r], g, order[i]) == FirstSeen(records, g, order[i]) < |records|
    {
      assert order[i] in order;
      FirstSeenAppend(records, r, g, order[i]);
    }
  }

  lemma {:induction false} OrderIsFirstSeen(records: seq<Record>, g: Grouping)
    ensures AppearInOrder(Order(records, g), records, g)
  {
    hide AppearInOrder, FirstSeen, Keys;
    if records == [] {
      NothingAppears(g);
    } else {
      var n := |records| - 1;
      var before, last := records[..n], records[n];
      assert records == before + [last];
      OrderIsFirstSeen(before, g);
      forall k ensures (k in Order(before, g) <==> FirstSeen(before, g, k) < |before|) {
        SeenIffKey(before, g, k);
      }
      FirstSeenBound(before, g, KeyOf(g, last));
      AppearStep(Order(before, g), before, last, g);
    }
  }

  lemma NothingAppears(g: Grouping)
    ensures AppearInOrder([], [], g)
  {
  }

  lemma FirstSeenBound(records: seq<Record>, g: Grouping, k: string)
    ensures FirstSeen(records, g, k) <= |records|
  {
  }

  /** The accumulator loop shared by the per-model, per-agent and per-bucket
      reports: the groups, and their keys in the order of insertion. */
  method Aggregate(records: seq<Record>, g: Grouping) returns (groups: map<string, Totals>, order: seq<string>)
    ensures IsGrouping(groups, records, g) && order == Order(records, g)
  {
    hide IsGrouping;
    groups, order := map[], [];
    NoGroups(g);
    var i := 0;
    while i < |records|
      invariant 0 <= i <= |records|
      invariant IsGrouping(groups, records[..i], g) && order == Order(records[..i], g)
    {
      assert records[..i + 1][..i] == records[..i];
      var k := KeyOf(g, records[i]);
      if k !in order {
        order := order + [k];
      }
      groups := Accumulate(groups, records[..i], records[i], g);
      OneMore(groups, records, i, g);
      i := i + 1;
    }
    assert records[..|records|] == records;
  }

  lemma NoGroups(g: Grouping)
    ensures IsGrouping(map[], [], g)
  {
  }

  lemma GroupingStep(groups: map<string, Totals>, records: seq<Record>, r: Record, g: Grouping)
    requires IsGrouping(groups, records, g)
    ensures var before := if KeyOf(g, r) in groups then groups[KeyOf(g, r)] else NOTHING;
            IsGrouping(groups[KeyOf(g, r) := Add(before, r)], records + [r], g)
  {
    var k := KeyOf(g, r);
    var before := if k in groups then groups[k] else NOTHING;
    var groups' := groups[k := Add(before, r)];
    KeysAppend(records, r, g);
    GroupOfOther(records, g, k);
    forall j | j in groups' ensures groups'[j] == Sum(Group(records + [r], g, j)) {
      GroupSum(records, r, g, j);
    }
  }

  lemma KeysAppend(records: seq<Record>, r: Record, g: Grouping)
    ensures Keys(records + [r], g) == Keys(records, g) + {KeyOf(g, r)}
  {
    assert (records + [r])[..|records|] == records;
  }

  lemma GroupSum(records: seq<Record>, r: Record, g: Grouping, k: string)
    ensures Sum(Group(records + [r], g, k)) ==
            if KeyOf(g, r) == k then Add(Sum(Group(records, g, k)), r) else Sum(Group(records, g, k))
  {
    GroupAppend(records, r, g);
    SumAppend(Group(records, g, k), r);
  }

  lemma GroupAppend(records: seq<Record>, r: Record, g: Grouping)
    ensures forall k :: Group(records + [r], g, k) ==
                        if KeyOf(g, r) == k then Group(records, g, k) + [r] else Group(records, g, k)
  {
    assert (records + [r])[..|records|] == records;
  }

  lemma {:induction false} GroupOfOther(records: seq<Record>, g: Grouping, k: string)
    ensures k !in Keys(records, g) ==> Group(records, g, k) == []
  {
    if records != [] {
      GroupOfOther(records[..|records| - 1], g, k);
    }
  }

  lemma {:induction false} LoadAppend(records: seq<Record>, r: Record, scope: Option<Scope>)
    ensures LoadRecords(records + [r], scope) == LoadRecords(records, scope) + if Visible(r, scope) then [r] else []
  {
    if records == [] {
      assert records + [r] == [r];
    } else {
      assert (records + [r])[1..] == records[1..] + [r];
      LoadAppend(records[1..], r, scope);
    }
  }

  lemma SumAppend(records: seq<Record>, r: Record)
    ensures Sum(records + [r]) == Add(Sum(records), r)
  {
    assert (records + [r])[..|records|] == records;
  }

  // ---- Reports -------------------------------------------------------------------------------------

  datatype Row = Row(key: string, spend6: int, totals: Totals)

  predicate DistinctRows(rows: seq<Row>) {
    forall i, j :: 0 <= i < j < |rows| ==> rows[i].key != rows[j].key
  }

  /** One row for each group, carrying its totals and its rounded spend. */
  predicate IsReport(rows: seq<Row>, records: seq<Record>, g: Grouping) {
    && DistinctRows(rows)
    && (forall k :: k in Keys(records, g) ==> HasRow(rows, k))
    && forall i :: 0 <= i < |rows| ==> IsRowOf(rows[i], records, g)
  }

  predicate HasRow(rows: seq<Row>, k: string) {
    exists i :: 0 <= i < |rows| && rows[i].key == k
  }

  predicate IsRowOf(row: Row, records: seq<Record>, g: Grouping) {
    && row.key in Keys(records, g)
    && row.totals == Sum(Group(records, g, row.key))
    && row.spend6 == Round6(row.totals.spend)
  }

  /** Largest rounded spend first; equal ones in the order of first appearance. */
  predicate Ranked(rows: seq<Row>, records: seq<Record>, g: Grouping) {
    forall i, j :: 0 <= i < j < |rows| ==> Before(rows[i], rows[j], records, g)
  }

  predicate Before(a: Row, b: Row, records: seq<Record>, g: Grouping) {
    || a.spend6 > b.spend6
    || (a.spend6 == b.spend6 && FirstSeen(records, g, a.key) < FirstSeen(records, g, b.key))
  }

  predicate SpendDescending(rows: seq<Row>) {
    forall i, j :: 0 <= i < j < |rows| ==> rows[i].spend6 >= rows[j].spend6
  }

  predicate InsertedAt(out: seq<Row>, rows: seq<Row>, row: Row, at: nat) {
    && at <= |rows| && out == rows[..at] + [row] + rows[at..]
    && (forall i :: 0 <= i < at ==> rows[i].spend6 >= row.spend6)
    && (forall i :: at <= i < |rows| ==> rows[i].spend6 < row.spend6)
  }

  /** The place the stable sort gives to a row: behind the equal ones. */
  method InsertBySpend(rows: seq<Row>, row: Row) returns (out: seq<Row>, ghost at: nat)
    requires SpendDescending(rows)
    ensures SpendDescending(out) && InsertedAt(out, rows, row, at)
  {
    var k := 0;
    while k < |rows| && rows[k].spend6 >= row.spend6
      invariant 0 <= k <= |rows|
      invariant forall i :: 0 <= i < k ==> rows[i].spend6 >= row.spend6
    {
      k := k + 1;
    }
    out, at := rows[..k] + [row] + rows[k..], k;
  }

  /** A report sorted by rounded spend, largest first, with equal ones in the order
      of first appearance: the model breakdown, or, before its cut, the list of top
      consumers. */
  method SpendReport(records: seq<Record>, g: Grouping) returns (rows: seq<Row>)
    ensures IsReport(rows, records, g) && Ranked(rows, records, g)
    ensures forall i, j :: 0 <= i < j < |rows| ==> rows[i].spend6 >= rows[j].spend6
  {
    hide Partial, AppearInOrder, IsGrouping;
    var groups, order := Aggregate(records, g);
    OrderIsFirstSeen(records, g);
    forall k ensures k in order <==> k in Keys(records, g) {
      SeenIffKey(records, g, k);
    }
    NoRows(order, records, g);
    rows := [];
    for i := 0 to |order|
      invariant Partial(rows, order, i, records, g) && SpendDescending(rows)
    {
      var row := RowFor(groups, order, i, records, g);
      ghost var before := rows;
      ghost var at;
      rows, at := InsertBySpend(rows, row);
      PartialStep(before, rows, row, at, order, i, records, g);
    }
    Complete(rows, order, records, g);
  }

  /** The report of the first `i` keys. */
  predicate Partial(rows: seq<Row>, order: seq<string>, i: nat, records: seq<Record>, g: Grouping)
    requires i <= |order|
  {
    && DistinctRows(rows) && Ranked(rows, records, g)
    && (forall j :: 0 <= j < |rows| ==> IsRowOf(rows[j], records, g) && rows[j].key in order[..i])
    && (forall k :: k in order[..i] ==> HasRow(rows, k))
  }

  lemma NoRows(order: seq<string>, records: seq<Record>, g: Grouping)
    ensures Partial([], order, 0, records, g)
  {
  }

  lemma PartialStep(
    rows: seq<Row>, out: seq<Row>, row: Row, at: nat, order: seq<string>, i: nat, records: seq<Record>, g: Grouping)
    requires i < |order| && Partial(rows, order, i, records, g) && AppearInOrder(order, records, g)
    requires InsertedAt(out, rows, row, at) && row.key == order[i] && IsRowOf(row, records, g)
    ensures Partial(out, order, i + 1, records, g)
  {
    hide Ranked, IsRowOf, AppearInOrder, DistinctRows, HasRow, InsertedAt, FirstSeen;
    SeenBefore(rows, order, i, records, g);
    Inserted(rows, out, row, at);
    StaysRanked(rows, out, row, at, records, g);
    assert order[..i + 1] == order[..i] + [order[i]];
  }

  lemma Complete(rows: seq<Row>, order: seq<string>, records: seq<Record>, g: Grouping)
    requires Partial(rows, order, |order|, records, g) && forall k :: k in order <==> k in Keys(records, g)
    ensures IsReport(rows, records, g) && Ranked(rows, records, g)
  {
    hide Ranked, IsRowOf, DistinctRows, HasRow;
    assert order[..|order|] == order;
  }

  method RowFor(groups: map<string, Totals>, order: seq<string>, i: nat, records: seq<Record>, g: Grouping)
    returns (row: Row)
    requires IsGrouping(groups, records, g) && i < |order| && forall k :: k in order <==> k in Keys(records, g)
    ensures row.key == order[i] && IsRowOf(row, records, g)
  {
    assert order[i] in order;
    row := Row(order[i], Round6(groups[order[i]].spend), groups[order[i]]);
  }

  /** The rows so far belong to keys that appear before the next one. */
  lemma SeenBefore(rows: seq<Row>, order: seq<string>, i: nat, records: seq<Record>, g: Grouping)
    requires i < |order| && forall j :: 0 <= j < |rows| ==> rows[j].key in order[..i]
    requires AppearInOrder(order, records, g)
    ensures forall j :: 0 <= j < |rows| ==> FirstSeen(records, g, rows[j].key) < FirstSeen(records, g, order[i])
    ensures !HasRow(rows, order[i])
  {
    hide FirstSeen;
    forall j | 0 <= j < |rows| ensures FirstSeen(records, g, rows[j].key) < FirstSeen(records, g, order[i]) {
      assert rows[j].key in order[..i];
      var a :| 0 <= a < |order[..i]| && order[..i][a] == rows[j].key;
    }
  }

  lemma Inserted(rows: seq<Row>, out: seq<Row>, row: Row, at: nat)
    requires InsertedAt(out, rows, row, at) && DistinctRows(rows) && !HasRow(rows, row.key)
    ensures DistinctRows(out)
    ensures forall i :: 0 <= i < |out| ==> out[i] == row || out[i] in rows
    ensures forall k :: HasRow(rows, k) || k == row.key ==> HasRow(out, k)
  {
    assert forall i :: 0 <= i < at ==> out[i] == rows[i];
    assert out[at] == row;
    assert forall i :: at <= i < |rows| ==> out[i + 1] == rows[i];
    assert forall i :: at < i < |out| ==> out[i] == rows[i - 1];
  }

  lemma StaysRanked(rows: seq<Row>, out: seq<Row>, row: Row, at: nat, records: seq<Record>, g: Grouping)
    requires InsertedAt(out, rows, row, at) && Ranked(rows, records, g)
    requires forall j :: 0 <= j < |rows| ==> FirstSeen(records, g, rows[j].key) < FirstSeen(records, g, row.key)
    ensures Ranked(out, records, g)
  {
    hide FirstSeen;
    forall i, j | 0 <= i < j < |out| ensures Before(out[i], out[j], records, g) {
      var a, b := if i < at then i else i - 1, if j < at then j else j - 1;
      if i != at {
        assert out[i] == rows[a];
      }
      if j != at {
        assert out[j] == rows[b];
      }
    }
  }

  /** The order leaves no choice: there is only one such report. */
  lemma SpendReportIsUnique(r1: seq<Row>, r2: seq<Row>, records: seq<Record>, g: Grouping)
    requires IsReport(r1, records, g) && Ranked(r1, records, g)
    requires IsReport(r2, records, g) && Ranked(r2, records, g)
    ensures r1 == r2
  {
    hide Before;
    forall row ensures row in r1 <==> row in r2 {
      SameRows(r1, r2, row, records, g);
      SameRows(r2, r1, row, records, g);
    }
    RankedUnique(r1, r2, records, g);
  }

  lemma SameRows(r1: seq<Row>, r2: seq<Row>, row: Row, records: seq<Record>, g: Grouping)
    requires IsReport(r1, records, g) && IsReport(r2, records, g)
    ensures row in r1 ==> row in r2
  {
    if row in r1 {
      assert IsRowOf(row, records, g) && HasRow(r2, row.key);
      var j :| 0 <= j < |r2| && r2[j].key == row.key;
      assert IsRowOf(r2[j], records, g) && r2[j] == row;
    }
  }

  lemma {:induction false} RankedUnique(r1: seq<Row>, r2: seq<Row>, records: seq<Record>, g: Grouping)
    requires Ranked(r1, records, g) && Ranked(r2, records, g) && forall row :: row in r1 <==> row in r2
    ensures r1 == r2
  {
    assert r1 != [] ==> r1[0] in r1;
    assert r2 != [] ==> r2[0] in r2;
    BeforeIsStrict(records, g);
    hide Before;
    if r1 != [] {
      assert r1[0] == r2[0];
      forall row ensures row in r1[1..] <==> row in r2[1..] {
        assert row in r1[1..] <==> row in r1 && row != r1[0];
        assert row in r2[1..] <==> row in r2 && row != r2[0];
      }
      RankedUnique(r1[1..], r2[1..], records, g);
    }
  }

  lemma BeforeIsStrict(records: seq<Record>, g: Grouping)
    ensures forall a, b :: Before(a, b, records, g) ==> !Before(b, a, records, g) && a != b
  {
  }

  /** The time series: one row per bucket, in ascending order of the bucket key. */
  method TimeSeries(records: seq<Record>, bucket: Time -> string) returns (rows: seq<Row>)
    ensures IsReport(rows, records, Bucket(bucket))
    ensures Ascending(seq(|rows|, i requires 0 <= i < |rows| => rows[i].key))
  {
    var groups, _ := Aggregate(records, Bucket(bucket));
    var order := Sorted(groups.Keys);
    AscendingIsDistinct(order);
    rows := [];
    for i := 0 to |order|
      invariant |rows| == i
      invariant forall j :: 0 <= j < i ==> rows[j].key == order[j] && IsRowOf(rows[j], records, Bucket(bucket))
    {
      var k := order[i];
      assert k in order;
      rows := rows + [Row(k, Round6(groups[k].spend), groups[k])];
    }
    forall k | k in Keys(records, Bucket(bucket)) ensures HasRow(rows, k) {
      var i :| 0 <= i < |order| && order[i] == k;
      assert rows[i].key == k;
    }
  }

  // ---- Conservation ---------------------------------------------------------------------------------

  function SumRows(rows: seq<Row>, c: Column): int {
    if rows == [] then 0
    else SumRows(rows[..|rows| - 1], c) + At(rows[|rows| - 1].totals, c)
  }

  function SumSpend6(rows: seq<Row>): int {
    if rows == [] then 0
    else SumSpend6(rows[..|rows| - 1]) + rows[|rows| - 1].spend6
  }

  /** The sum over the rows of what `part` gives for their keys. */
  function SumParts(rows: seq<Row>, part: string -> int): int {
    if rows == [] then 0
    else SumParts(rows[..|rows| - 1], part) + part(rows[|rows| - 1].key)
  }

  function Part(records: seq<Record>, g: Grouping, c: Column): string -> int {
    k => At(Sum(Group(records, g, k)), c)
  }

  function Amount(r: Record, c: Column): int {
    match c
    case Spend => r.cost
    case Prompt => r.prompt
    case Completion => r.completion
    case Tokens => r.total
    case Calls => 1
  }

  lemma PartStep(records: seq<Record>, r: Record, g: Grouping, c: Column, k: string)
    ensures Part(records + [r], g, c)(k) == Part(records, g, c)(k) + if k == KeyOf(g, r) then Amount(r, c) else 0
  {
    GroupSum(records, r, g, k);
  }

  lemma HasRowStep(rows: seq<Row>, k: string)
    requires rows != [] && DistinctRows(rows)
    ensures var n := |rows| - 1;
            && DistinctRows(rows[..n])
            && (HasRow(rows, k) <==> HasRow(rows[..n], k) || rows[n].key == k)
            && (rows[n].key == k ==> !HasRow(rows[..n], k))
  {
  }

  lemma {:induction false} PartsGrow(rows: seq<Row>, part: string -> int, part': string -> int, k: string, x: int)
    requires DistinctRows(rows)
    requires forall j :: part'(j) == part(j) + if j == k then x else 0
    ensures SumParts(rows, part') == SumParts(rows, part) + if HasRow(rows, k) then x else 0
  {
    if rows != [] {
      HasRowStep(rows, k);
      PartsGrow(rows[..|rows| - 1], part, part', k, x);
    }
  }

  lemma {:induction false} PartsOfNothing(rows: seq<Row>, g: Grouping, c: Column)
    ensures SumParts(rows, Part([], g, c)) == 0
  {
    if rows != [] {
      PartsOfNothing(rows[..|rows| - 1], g, c);
    }
  }

  lemma PartsNext(records: seq<Record>, r: Record, g: Grouping, c: Column)
    ensures forall j :: Part(records + [r], g, c)(j) ==
                        Part(records, g, c)(j) + if j == KeyOf(g, r) then Amount(r, c) else 0
  {
    forall j
      ensures Part(records + [r], g, c)(j) == Part(records, g, c)(j) + if j == KeyOf(g, r) then Amount(r, c) else 0
    {
      PartStep(records, r, g, c, j);
    }
  }

  lemma WholeNext(records: seq<Record>, r: Record, c: Column)
    ensures At(Sum(records + [r]), c) == At(Sum(records), c) + Amount(r, c)
  {
    SumAppend(records, r);
  }

  lemma {:induction false} PartsMakeWhole(rows: seq<Row>, records: seq<Record>, g: Grouping, c: Column)
    requires DistinctRows(rows)
    requires forall k :: k in Keys(records, g) ==> HasRow(rows, k)
    ensures SumParts(rows, Part(records, g, c)) == At(Sum(records), c)
  {
    if records == [] {
      PartsOfNothing(rows, g, c);
    } else {
      hide Group, HasRow, Part, Sum, DistinctRows, KeyOf;
      var n := |records| - 1;
      var before, r := records[..n], records[n];
      assert records == before + [r];
      PartsMakeWhole(rows, before, g, c);
      PartsNext(before, r, g, c);
      WholeNext(before, r, c);
      PartsGrow(rows, Part(before, g, c), Part(records, g, c), KeyOf(g, r), Amount(r, c));
    }
  }

  lemma {:induction false} RowsAreParts(rows: seq<Row>, part: string -> int, c: Column)
    requires forall i :: 0 <= i < |rows| ==> At(rows[i].totals, c) == part(rows[i].key)
    ensures SumRows(rows, c) == SumParts(rows, part)
  {
    if rows != [] {
      RowsAreParts(rows[..|rows| - 1], part, c);
    }
  }

  lemma {:induction false} RoundingErrors(rows: seq<Row>)
    requires forall i :: 0 <= i < |rows| ==> rows[i].spend6 == Round6(rows[i].totals.spend)
    ensures -50 * |rows| <= 100 * SumSpend6(rows) - SumRows(rows, Spend) <= 50 * |rows|
  {
    if rows != [] {
      var n := |rows| - 1;
      RoundingErrors(rows[..n]);
      Round6Error(rows[n].totals.spend);
    }
  }

  /** Every uncut report conserves the overview: calls and tokens add up
      exactly, and k rounded spends differ from the rounded total by at most
      (k + 1) / 2 millionths of a dollar. */
  lemma ReportConserves(rows: seq<Row>, records: seq<Record>, g: Grouping)
    requires IsReport(rows, records, g)
    ensures forall c :: SumRows(rows, c) == At(Sum(records), c)
    ensures -(|rows| + 1) <= 2 * (SumSpend6(rows) - Round6(Sum(records).spend)) <= |rows| + 1
  {
    forall c ensures SumRows(rows, c) == At(Sum(records), c) {
      PartsMakeWhole(rows, records, g, c);
      RowsAreParts(rows, Part(records, g, c), c);
    }
    RoundingErrors(rows);
    Round6Error(Sum(records).spend);
    assert SumRows(rows, Spend) == Sum(records).spend;
  }

  // ---- Selections in plain terms -----------------------------------------------------------------------

  /** Without a scope, or for an admin, everything is loaded; otherwise exactly
      what the owner recorded in the same tenant, in order. */
  lemma {:induction false} LoadedAre(records: seq<Record>, scope: Option<Scope>)
    ensures LoadRecords(records, scope) ==
            Keep(records, (r: Record) =>
              scope == None || scope.value.admin
              || (r.owner == Some(scope.value.owner) && r.tenant == Some(scope.value.tenant)))
  {
    if records != [] {
      var n := |records| - 1;
      LoadedAre(records[..n], scope);
      LoadAppend(records[..n], records[n], scope);
      assert records == records[..n] + [records[n]];
    }
  }

  /** The filter keeps, in order, the records of the agent and of the model asked
      for, if any, from the start of the window to its end, both included. */
  lemma {:induction false} FilteredAre(records: seq<Record>, agent: string, model: string, w: Window)
    ensures Filter(records, agent, model, w) ==
            Keep(records, (r: Record) =>
              && (agent == "" || r.agent == Some(agent)) && (model == "" || r.model == model)
              && (w.since == None || w.since.value <= r.time) && (w.until == None || r.time <= w.until.value))
  {
    if records != [] {
      FilteredAre(records[..|records| - 1], agent, model, w);
    }
  }

  /** The group of a key: its model's records, its agent's records, those of no
      agent under one common key, or those whose time falls into its bucket. */
  lemma {:induction false} GroupsAre(records: seq<Record>, k: string, bucket: Time -> string)
    ensures Group(records, Model, k) == Keep(records, (r: Record) => r.model == k)
    ensures Group(records, Agent, k) ==
            Keep(records, (r: Record) =>
              if r.agent == None || r.agent == Some("") then k == "_unattributed" else r.agent == Some(k))
    ensures Group(records, Bucket(bucket), k) == Keep(records, (r: Record) => bucket(r.time) == k)
  {
    if records != [] {
      GroupsAre(records[..|records| - 1], k, bucket);
    }
  }

  /** A key has a group exactly when a record belongs to it. */
  lemma {:induction false} KeysAreOfRecords(records: seq<Record>, g: Grouping, k: string)
    ensures k in Keys(records, g) <==> Group(records, g, k) != []
  {
    if records != [] {
      KeysAreOfRecords(records[..|records| - 1], g, k);
    }
  }

  /** The overview counts the agents that some record names. */
  lemma {:induction false} AgentsAre(records: seq<Record>, a: string)
    ensures a in Agents(records) <==> a != "" && exists i :: 0 <= i < |records| && records[i].agent == Some(a)
  {
    if records != [] {
      var n := |records| - 1;
      AgentsAre(records[..n], a);
      assert forall i :: 0 <= i < n ==> records[..n][i] == records[i];
    }
  }

  /** Rounded to the nearest millionth, and to the even one of two. */
  lemma RoundedToNearest(cost: int)
    ensures -50 <= 100 * Round6(cost) - cost <= 50
    ensures 100 * Round6(cost) - cost in {-50, 50} ==> Round6(cost) % 2 == 0
  {
  }

  /** Every column of a sum is the sum of that column, and calls are counted. */
  lemma {:induction false} SumIsColumnwise(records: seq<Record>)
    ensures Sum(records).calls == |records|
    ensures records != [] ==>
              var n := |records| - 1;
              var (before, all, r) := (Sum(records[..n]), Sum(records), records[n]);
              && all.spend == before.spend + r.cost && all.tokens == before.tokens + r.total
              && all.prompt == before.prompt + r.prompt && all.completion == before.completion + r.completion
  {
    if records != [] {
      SumIsColumnwise(records[..|records| - 1]);
    }
  }
}
