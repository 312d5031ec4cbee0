/** Namespacing of the ids of two SVG drawings that are embedded in one HTML page. */
module SvgIds {
  import opened Text

  type Id = string

  /** What the substitution patterns see of an SVG text: `id="x"`, `url(#x)`,
      `href="#x"` and `xlink:href="#x"`; everything else stays as it is. */
  datatype Token = IdAttr(id: Id) | UrlRef(id: Id) | Href(id: Id, xlink: bool) | Other(text: string)

  type Document = seq<Token>

  datatype Pattern = IdPattern | UrlPattern | HrefPattern | XlinkPattern

  function NewId(id: Id, suffix: string): Id {
    id + "-" + suffix
  }

  /** The `href` pattern has no word boundary, so it also matches inside `xlink:href`. */
  predicate Matches(p: Pattern, t: Token, id: Id) {
    match p
    case IdPattern => t == IdAttr(id)
    case UrlPattern => t == UrlRef(id)
    case HrefPattern => t.Href? && t.id == id
    case XlinkPattern => t == Href(id, true)
  }

  /** One `re.sub` over the whole text. */
  function Substitute(doc: Document, p: Pattern, from: Id, to: Id): Document {
    seq(|doc|, i requires 0 <= i < |doc| => if Matches(p, doc[i], from) then doc[i].(id := to) else doc[i])
  }

  function IdsOf(doc: Document): set<Id> {
    set t | t in doc && t.IdAttr? :: t.id
  }

  // ---- Renaming, one id at a time and all at once -----------------------------

  function RenameToken(t: Token, from: Id, to: Id): Token {
    if !t.Other? && t.id == from then t.(id := to) else t
  }

  function RenameOne(doc: Document, from: Id, to: Id): Document {
    seq(|doc|, i requires 0 <= i < |doc| => RenameToken(doc[i], from, to))
  }

  /** The ids of `order` renamed one after another. */
  function RenameInOrder(doc: Document, order: seq<Id>, suffix: string): Document
    decreases order
  {
    if order == [] then doc
    else RenameInOrder(RenameOne(doc, order[0], NewId(order[0], suffix)), order[1..], suffix)
  }

  function RenameTokenIn(t: Token, ids: set<Id>, suffix: string): Token {
    if !t.Other? && t.id in ids then t.(id := NewId(t.id, suffix)) else t
  }

  /** The meaning wanted: every token renamed at most once, all at the same time. */
  function RenameAtOnce(doc: Document, ids: set<Id>, suffix: string): Document {
    seq(|doc|, i requires 0 <= i < |doc| => RenameTokenIn(doc[i], ids, suffix))
  }

  predicate LongestFirst(order: seq<Id>) {
    forall i, j :: 0 <= i < j < |order| ==> |order[i]| >= |order[j]|
  }

  /** No id comes after another id whose new name it is. */
  predicate NoRecapture(order: seq<Id>, suffix: string) {
    forall i, j :: 0 <= i < j < |order| ==> order[j] != NewId(order[i], suffix)
  }

  function Elements(order: seq<Id>): set<Id> {
    set id | id in order
  }

  lemma LongestFirstIsSafe(order: seq<Id>, suffix: string)
    requires LongestFirst(order)
    ensures NoRecapture(order, suffix)
  {
    forall i, j | 0 <= i < j < |order| ensures order[j] != NewId(order[i], suffix) {
      assert |NewId(order[i], suffix)| > |order[j]|;
    }
  }

  /** Where one id ends up after the whole sequence of renamings. */
  function Chase(id: Id, order: seq<Id>, suffix: string): Id
    decreases order
  {
    if order == [] then id
    else Chase(if id == order[0] then NewId(id, suffix) else id, order[1..], suffix)
  }

  lemma {:induction false} ChaseGrows(id: Id, order: seq<Id>, suffix: string)
    ensures |Chase(id, order, suffix)| >= |id|
    ensures id in order ==> |Chase(id, order, suffix)| > |id|
    decreases order
  {
    if order != [] {
      ChaseGrows(if id == order[0] then NewId(id, suffix) else id, order[1..], suffix);
    }
  }

  lemma {:induction false} ChaseStays(id: Id, order: seq<Id>, suffix: string)
    requires id !in order
    ensures Chase(id, order, suffix) == id
  {
    if order != [] {
      ChaseStays(id, order[1..], suffix);
    }
  }

  lemma {:induction false} ChaseOnce(id: Id, order: seq<Id>, suffix: string)
    requires Distinct(order) && NoRecapture(order, suffix)
    ensures Chase(id, order, suffix) == if id in order then NewId(id, suffix) else id
  {
    if order != [] {
      if id == order[0] {
        ChaseStays(NewId(id, suffix), order[1..], suffix);
      } else {
        ChaseOnce(id, order[1..], suffix);
      }
    }
  }

  lemma {:induction false} InOrderIsChase(doc: Document, order: seq<Id>, suffix: string)
    ensures |RenameInOrder(doc, order, suffix)| == |doc|
    ensures forall i :: 0 <= i < |doc| ==>
              RenameInOrder(doc, order, suffix)[i] ==
              if doc[i].Other? then doc[i] else doc[i].(id := Chase(doc[i].id, order, suffix))
    decreases order
  {
    if order != [] {
      InOrderIsChase(RenameOne(doc, order[0], NewId(order[0], suffix)), order[1..], suffix);
    }
  }

  /** Renaming one id at a time equals renaming all at once, on every document,
      exactly when no id comes after another id whose new name it is. */
  lemma SequentialIsSimultaneousIff(order: seq<Id>, suffix: string)
    requires Distinct(order)
    ensures NoRecapture(order, suffix) <==>
            forall doc: Document :: RenameInOrder(doc, order, suffix) == RenameAtOnce(doc, Elements(order), suffix)
  {
    if NoRecapture(order, suffix) {
      forall doc: Document ensures RenameInOrder(doc, order, suffix) == RenameAtOnce(doc, Elements(order), suffix) {
        InOrderIsAtOnce(doc, order, suffix);
      }
    } else {
      var i, j :| 0 <= i < j < |order| && order[j] == NewId(order[i], suffix);
      var doc := [IdAttr(order[i])];
      RecapturedTwice(order, suffix, i, j);
      InOrderIsChase(doc, order, suffix);
      assert RenameInOrder(doc, order, suffix)[0] != RenameAtOnce(doc, Elements(order), suffix)[0];
    }
  }

  lemma InOrderIsAtOnce(doc: Document, order: seq<Id>, suffix: string)
    requires Distinct(order) && NoRecapture(order, suffix)
    ensures RenameInOrder(doc, order, suffix) == RenameAtOnce(doc, Elements(order), suffix)
  {
    InOrderIsChase(doc, order, suffix);
    forall k | 0 <= k < |doc|
      ensures RenameInOrder(doc, order, suffix)[k] == RenameTokenIn(doc[k], Elements(order), suffix)
    {
      if !doc[k].Other? {
        ChaseOnce(doc[k].id, order, suffix);
      }
    }
  }

  lemma {:induction false} RecapturedTwice(order: seq<Id>, suffix: string, i: nat, j: nat)
    requires Distinct(order) && i < j < |order| && order[j] == NewId(order[i], suffix)
    ensures |Chase(order[i], order, suffix)| > |NewId(order[i], suffix)|
  {
    if i > 0 {
      RecapturedTwice(order[1..], suffix, i - 1, j - 1);
    } else {
      assert order[1..][j - 1] == order[j];
      ChaseGrows(order[j], order[1..], suffix);
    }
  }

  // ---- The operation --------------------------------------------------------------

  method SortedLongestFirst(ids: set<Id>) returns (order: seq<Id>)
    ensures Distinct(order) && LongestFirst(order) && Elements(order) == ids
  {
    order := [];
    var rest := ids;
    while rest != {}
      invariant Elements(order) + rest == ids && Elements(order) !! rest
      invariant Distinct(order) && LongestFirst(order)
      invariant forall a, b :: a in order && b in rest ==> |a| >= |b|
      decreases rest
    {
      var longest := Longest(rest);
      assert forall id :: id in Elements(order + [longest]) <==> id in Elements(order) || id == longest;
      order := order + [longest];
      rest := rest - {longest};
    }
  }

  method Longest(ids: set<Id>) returns (longest: Id)
    requires ids != {}
    ensures longest in ids && forall id :: id in ids ==> |id| <= |longest|
  {
    longest :| longest in ids;
    var rest := ids - {longest};
    while rest != {}
      invariant rest <= ids && longest in ids
      invariant forall id :: id in ids - rest ==> |id| <= |longest|
      decreases rest
    {
      var id :| id in rest;
      if |id| > |longest| {
        longest := id;
      }
      rest := rest - {id};
    }
  }

  /** The four substitutions of one turn together rename one id everywhere; the
      last one has nothing left to do. */
  lemma FourPasses(doc: Document, from: Id, to: Id)
    requires from != to
    ensures var ids := Substitute(doc, IdPattern, from, to);
            var out := Substitute(Substitute(ids, UrlPattern, from, to), HrefPattern, from, to);
            && out == RenameOne(doc, from, to)
            && Substitute(out, XlinkPattern, from, to) == out
  {
  }

  /** Give every id a suffix, definitions and references alike. */
  method NamespaceSvgIds(svg: Document, suffix: string) returns (out: Document)
    ensures out == RenameAtOnce(svg, IdsOf(svg), suffix)
  {
    var ids := IdsOf(svg);
    if ids == {} {
      assert RenameAtOnce(svg, ids, suffix) == svg;
      return svg;
    }
    out := svg;
    var order := SortedLongestFirst(ids);
    for k := 0 to |order|
      invariant RenameInOrder(out, order[k..], suffix) == RenameInOrder(svg, order, suffix)
    {
      var rawId := order[k];
      var newId := NewId(rawId, suffix);
      FourPasses(out, rawId, newId);
      out := Substitute(out, IdPattern, rawId, newId);
      out := Substitute(out, UrlPattern, rawId, newId);
      out := Substitute(out, HrefPattern, rawId, newId);
      out := Substitute(out, XlinkPattern, rawId, newId);
      assert order[k..][1..] == order[k + 1..];
    }
    LongestFirstIsSafe(order, suffix);
    InOrderIsAtOnce(svg, order, suffix);
  }

  // ---- What the renaming keeps --------------------------------------------------

  predicate IsReference(t: Token) {
    t.UrlRef? || t.Href?
  }

  /** The positions a reference resolves to. */
  function Targets(doc: Document, ref: Id): set<nat> {
    set j: nat | 0 <= j < |doc| && doc[j] == IdAttr(ref)
  }

  predicate SameResolution(before: Document, after: Document) {
    && |before| == |after|
    && forall i :: 0 <= i < |before| ==>
         && IsReference(before[i]) == IsReference(after[i])
         && (IsReference(before[i]) ==> Targets(after, after[i].id) == Targets(before, before[i].id))
  }

  /** Every reference resolves. */
  predicate Closed(doc: Document) {
    forall t :: t in doc && IsReference(t) ==> t.id in IdsOf(doc)
  }

  /** A reference that resolved to nothing and would now find a renamed id. */
  predicate Captures(doc: Document, suffix: string) {
    exists t :: t in doc && IsReference(t) && t.id !in IdsOf(doc)
                && exists d :: d in IdsOf(doc) && NewId(d, suffix) == t.id
  }

  lemma NewIdInjective(a: Id, b: Id, suffix: string)
    requires NewId(a, suffix) == NewId(b, suffix)
    ensures a == b
  {
    var n := NewId(a, suffix);
    assert a == n[..|n| - |suffix| - 1] && b == n[..|n| - |suffix| - 1];
  }

  /** Which definitions a reference finds after the renaming. */
  lemma TargetsAfter(doc: Document, suffix: string, ref: Id)
    ensures var out := RenameAtOnce(doc, IdsOf(doc), suffix);
            && Targets(out, NewId(ref, suffix)) == Targets(doc, ref)
            && ((forall d :: d in IdsOf(doc) ==> NewId(d, suffix) != ref) ==> Targets(out, ref) == {})
  {
    var out := RenameAtOnce(doc, IdsOf(doc), suffix);
    forall j | 0 <= j < |doc|
      ensures out[j] == IdAttr(NewId(ref, suffix)) <==> doc[j] == IdAttr(ref)
    {
      if out[j] == IdAttr(NewId(ref, suffix)) {
        assert doc[j].IdAttr? && doc[j].id in IdsOf(doc);
        NewIdInjective(doc[j].id, ref, suffix);
      }
      if doc[j] == IdAttr(ref) {
        assert doc[j].id in IdsOf(doc);
      }
    }
    forall j | 0 <= j < |doc| && doc[j].IdAttr? ensures out[j] == IdAttr(NewId(doc[j].id, suffix)) {
      assert doc[j].id in IdsOf(doc);
    }
  }

  /** Every reference keeps exactly its targets if and only if the document has
      no dangling reference that a new name captures. */
  lemma ResolutionKeptIff(doc: Document, suffix: string)
    ensures SameResolution(doc, RenameAtOnce(doc, IdsOf(doc), suffix)) <==> !Captures(doc, suffix)
  {
    var out := RenameAtOnce(doc, IdsOf(doc), suffix);
    forall i | 0 <= i < |doc| && IsReference(doc[i])
      ensures Targets(out, out[i].id) == Targets(doc, doc[i].id) <==>
              !(doc[i].id !in IdsOf(doc) && exists d :: d in IdsOf(doc) && NewId(d, suffix) == doc[i].id)
    {
      var id := doc[i].id;
      TargetsAfter(doc, suffix, id);
      if id !in IdsOf(doc) {
        assert out[i].id == id && Targets(doc, id) == {};
        if d :| d in IdsOf(doc) && NewId(d, suffix) == id {
          TargetsAfter(doc, suffix, d);
          DefinedHasTarget(doc, d);
        }
      }
    }
  }

  lemma DefinedHasTarget(doc: Document, d: Id)
    requires d in IdsOf(doc)
    ensures Targets(doc, d) != {}
  {
    var j :| 0 <= j < |doc| && doc[j] == IdAttr(d);
    assert j in Targets(doc, d);
  }

  /** A reference of any of the three kinds to an id. */
  predicate Refers(t: Token, id: Id) {
    t == UrlRef(id) || t == Href(id, true) || t == Href(id, false)
  }

  /** What becomes of each token: every definition gets the suffix, and so does
      every reference to a defined id, in its kind; nothing else changes. */
  lemma TokenBecomes(doc: Document, suffix: string, i: nat)
    requires i < |doc|
    ensures var out := RenameAtOnce(doc, IdsOf(doc), suffix);
            match doc[i]
            case IdAttr(x) => out[i] == IdAttr(x + "-" + suffix)
            case UrlRef(x) => out[i] == UrlRef(if IdAttr(x) in doc then x + "-" + suffix else x)
            case Href(x, xlink) => out[i] == Href(if IdAttr(x) in doc then x + "-" + suffix else x, xlink)
            case Other(_) => out[i] == doc[i]
  {
    if !doc[i].Other? {
      IdsAre(doc, doc[i].id);
    }
  }

  lemma IdsAre(doc: Document, id: Id)
    ensures id in IdsOf(doc) <==> IdAttr(id) in doc
  {
  }

  /** Two documents in which the reference at `i` finds the same definitions. */
  predicate FindsTheSame(doc: Document, out: Document, i: nat)
    requires i < |doc| == |out| && !doc[i].Other? && !out[i].Other?
  {
    forall j :: 0 <= j < |doc| ==> (doc[j] == IdAttr(doc[i].id) <==> out[j] == IdAttr(out[i].id))
  }

  /** The same, token by token: all references find the definitions they found
      before if and only if there is no reference to an id that nothing defines
      and that is, with the suffix, the new name of a defined one. */
  lemma ReferencesFindTheSameIff(doc: Document, suffix: string)
    ensures var out := RenameAtOnce(doc, IdsOf(doc), suffix);
            (forall i, x :: 0 <= i < |doc| && Refers(doc[i], x) ==> FindsTheSame(doc, out, i)) <==>
              !exists i, d :: 0 <= i < |doc| && Refers(doc[i], d + "-" + suffix)
                              && IdAttr(d + "-" + suffix) !in doc && IdAttr(d) in doc
  {
    hide RenameAtOnce;
    var out := RenameAtOnce(doc, IdsOf(doc), suffix);
    ResolutionKeptIff(doc, suffix);
    RefersIff(doc, suffix);
    CapturesIff(doc, suffix);
  }

  lemma RefersIff(doc: Document, suffix: string)
    ensures var out := RenameAtOnce(doc, IdsOf(doc), suffix);
            SameResolution(doc, out) <==>
              forall i, x :: 0 <= i < |doc| && Refers(doc[i], x) ==> FindsTheSame(doc, out, i)
  {
    var out := RenameAtOnce(doc, IdsOf(doc), suffix);
    forall i | 0 <= i < |doc|
      ensures IsReference(doc[i]) <==> !doc[i].Other? && Refers(doc[i], doc[i].id)
      ensures IsReference(doc[i]) == IsReference(out[i])
    {
      TokenBecomes(doc, suffix, i);
    }
    forall i | 0 <= i < |doc| && IsReference(doc[i])
      ensures Targets(out, out[i].id) == Targets(doc, doc[i].id) <==> FindsTheSame(doc, out, i)
    {
      SameTargets(doc, out, i);
    }
  }

  lemma SameTargets(doc: Document, out: Document, i: nat)
    requires i < |doc| == |out| && !doc[i].Other? && !out[i].Other?
    ensures Targets(out, out[i].id) == Targets(doc, doc[i].id) <==> FindsTheSame(doc, out, i)
  {
    var before, after := Targets(doc, doc[i].id), Targets(out, out[i].id);
    if before == after {
      forall j | 0 <= j < |doc| ensures doc[j] == IdAttr(doc[i].id) <==> out[j] == IdAttr(out[i].id) {
        assert j in before <==> j in after;
      }
    }
  }

  lemma CapturesIff(doc: Document, suffix: string)
    ensures Captures(doc, suffix) <==>
              exists i, d :: 0 <= i < |doc| && Refers(doc[i], d + "-" + suffix)
                             && IdAttr(d + "-" + suffix) !in doc && IdAttr(d) in doc
  {
    forall id ensures id in IdsOf(doc) <==> IdAttr(id) in doc {
      IdsAre(doc, id);
    }
    if Captures(doc, suffix) {
      var t :| t in doc && IsReference(t) && t.id !in IdsOf(doc)
               && exists d :: d in IdsOf(doc) && NewId(d, suffix) == t.id;
      var d :| d in IdsOf(doc) && NewId(d, suffix) == t.id;
      var i :| 0 <= i < |doc| && doc[i] == t;
      assert Refers(doc[i], d + "-" + suffix);
    }
  }

  /** The primary and the disaster-recovery copy never share an id. */
  lemma CopiesShareNoId(a: Document, b: Document)
    ensures IdsOf(RenameAtOnce(a, IdsOf(a), "primary")) !! IdsOf(RenameAtOnce(b, IdsOf(b), "dr"))
  {
    EveryIdSuffixed(a, "primary");
    EveryIdSuffixed(b, "dr");
    forall x, y ensures NewId(x, "primary") != NewId(y, "dr") {
      var p, q := NewId(x, "primary"), NewId(y, "dr");
      assert p[|p| - 1] == 'y' && q[|q| - 1] == 'r';
    }
  }

  lemma EveryIdSuffixed(doc: Document, suffix: string)
    ensures forall id :: id in IdsOf(RenameAtOnce(doc, IdsOf(doc), suffix)) ==>
              exists d :: d in IdsOf(doc) && id == NewId(d, suffix)
  {
    var out := RenameAtOnce(doc, IdsOf(doc), suffix);
    forall id | id in IdsOf(out) ensures exists d :: d in IdsOf(doc) && id == NewId(d, suffix) {
      var j :| 0 <= j < |out| && out[j] == IdAttr(id);
      assert doc[j].id in IdsOf(doc);
    }
  }

  /** The page with both copies. */
  function Page(a: Document, b: Document): Document {
    RenameAtOnce(a, IdsOf(a), "primary") + RenameAtOnce(b, IdsOf(b), "dr")
  }

  /** Every reference of both copies finds exactly the positions it found before,
      inside its own copy. */
  predicate PageKeeps(a: Document, b: Document) {
    var page := Page(a, b);
    && (forall i :: 0 <= i < |a| && IsReference(a[i]) ==> KeepsPrimary(a, page, i))
    && (forall i :: 0 <= i < |b| && IsReference(b[i]) ==> KeepsDr(a, b, page, i))
  }

  predicate KeepsPrimary(a: Document, page: Document, i: nat)
    requires i < |a| <= |page| && IsReference(a[i]) && IsReference(page[i])
  {
    Targets(page, page[i].id) == Targets(a, a[i].id)
  }

  predicate KeepsDr(a: Document, b: Document, page: Document, i: nat)
    requires i < |b| && |page| == |a| + |b| && IsReference(b[i]) && IsReference(page[|a| + i])
  {
    Targets(page, page[|a| + i].id) == Shifted(|a|, Targets(b, b[i].id))
  }

  function Shifted(offset: nat, positions: set<nat>): set<nat> {
    set j | j in positions :: offset + j
  }

  /** Some definition of either drawing gets this id. */
  predicate IsNewId(a: Document, b: Document, id: Id) {
    || (exists d :: d in IdsOf(a) && NewId(d, "primary") == id)
    || (exists d :: d in IdsOf(b) && NewId(d, "dr") == id)
  }

  predicate PageCaptures(doc: Document, a: Document, b: Document) {
    exists i :: 0 <= i < |doc| && IsReference(doc[i]) && doc[i].id !in IdsOf(doc) && IsNewId(a, b, doc[i].id)
  }

  /** The definitions of a renamed drawing are its new ids. */
  lemma FoundIff(doc: Document, suffix: string, id: Id)
    ensures Targets(RenameAtOnce(doc, IdsOf(doc), suffix), id) != {} <==>
              exists d :: d in IdsOf(doc) && NewId(d, suffix) == id
  {
    TargetsAfter(doc, suffix, id);
    if d :| d in IdsOf(doc) && NewId(d, suffix) == id {
      TargetsAfter(doc, suffix, d);
      DefinedHasTarget(doc, d);
    }
  }

  lemma NoTargets(doc: Document, id: Id)
    requires id !in IdsOf(doc)
    ensures Targets(doc, id) == {}
  {
    forall j | 0 <= j < |doc| ensures doc[j] != IdAttr(id) {
      assert doc[j] in doc;
    }
  }

  lemma ShiftedEmpty(offset: nat, positions: set<nat>)
    ensures Shifted(offset, positions) == {} <==> positions == {}
  {
    if j :| j in positions {
      assert offset + j in Shifted(offset, positions);
    }
  }

  lemma PrimaryIff(a: Document, b: Document, i: nat)
    requires i < |a| && IsReference(a[i])
    ensures KeepsPrimary(a, Page(a, b), i) <==> a[i].id in IdsOf(a) || !IsNewId(a, b, a[i].id)
  {
    hide IsNewId;
    var a', b' := RenameAtOnce(a, IdsOf(a), "primary"), RenameAtOnce(b, IdsOf(b), "dr");
    var id := Page(a, b)[i].id;
    PageTargets(a', b', id);
    ShiftedEmpty(|a|, Targets(b', id));
    CopiesShareNoId(a, b);
    if a[i].id in IdsOf(a) {
      TargetsAfter(a, "primary", a[i].id);
      DefinedHasTarget(a, a[i].id);
      NotDefined(b', id, a');
    } else {
      DanglingIff(a, b, id);
      NoTargets(a, id);
    }
  }

  lemma DrIff(a: Document, b: Document, i: nat)
    requires i < |b| && IsReference(b[i])
    ensures KeepsDr(a, b, Page(a, b), i) <==> b[i].id in IdsOf(b) || !IsNewId(a, b, b[i].id)
  {
    hide IsNewId;
    var a', b' := RenameAtOnce(a, IdsOf(a), "primary"), RenameAtOnce(b, IdsOf(b), "dr");
    var id := Page(a, b)[|a| + i].id;
    PageTargets(a', b', id);
    ShiftedEmpty(|a|, Targets(b', id));
    ShiftedEmpty(|a|, Targets(b, b[i].id));
    CopiesShareNoId(a, b);
    if b[i].id in IdsOf(b) {
      TargetsAfter(b, "dr", b[i].id);
      DefinedHasTarget(b, b[i].id);
      NotDefined(a', id, b');
    } else {
      DanglingIff(a, b, id);
      NoTargets(b, id);
    }
  }

  lemma DanglingIff(a: Document, b: Document, id: Id)
    ensures (&& Targets(RenameAtOnce(a, IdsOf(a), "primary"), id) == {}
             && Targets(RenameAtOnce(b, IdsOf(b), "dr"), id) == {})
            <==> !IsNewId(a, b, id)
  {
    FoundIff(a, "primary", id);
    FoundIff(b, "dr", id);
  }

  /** For any two drawings, every reference of the page keeps its resolution if and
      only if no dangling reference of either drawing equals a new id of either. */
  lemma PageKeepsIff(a: Document, b: Document)
    ensures PageKeeps(a, b) <==> !PageCaptures(a, a, b) && !PageCaptures(b, a, b)
  {
    hide KeepsPrimary, KeepsDr, IsNewId, IdsOf;
    forall i | 0 <= i < |a| && IsReference(a[i])
      ensures KeepsPrimary(a, Page(a, b), i) <==> a[i].id in IdsOf(a) || !IsNewId(a, b, a[i].id)
    {
      PrimaryIff(a, b, i);
    }
    forall i | 0 <= i < |b| && IsReference(b[i])
      ensures KeepsDr(a, b, Page(a, b), i) <==> b[i].id in IdsOf(b) || !IsNewId(a, b, b[i].id)
    {
      DrIff(a, b, i);
    }
  }

  /** In particular, for two drawings without dangling references every reference
      of the page resolves inside its own copy, to the same positions as before. */
  lemma EmbeddedResolution(a: Document, b: Document, i: nat)
    requires Closed(a) && Closed(b)
    ensures i < |a| && IsReference(a[i]) ==> Targets(Page(a, b), Page(a, b)[i].id) == Targets(a, a[i].id)
    ensures i < |b| && IsReference(b[i]) ==>
              Targets(Page(a, b), Page(a, b)[|a| + i].id) == Shifted(|a|, Targets(b, b[i].id))
  {
    PageKeepsIff(a, b);
    assert PageKeeps(a, b);
    assert i < |a| && IsReference(a[i]) ==> KeepsPrimary(a, Page(a, b), i);
    assert i < |b| && IsReference(b[i]) ==> KeepsDr(a, b, Page(a, b), i);
  }

  lemma PageTargets(a: Document, b: Document, ref: Id)
    ensures Targets(a + b, ref) == Targets(a, ref) + Shifted(|a|, Targets(b, ref))
  {
    forall j: nat ensures j in Targets(a + b, ref) <==> j in Targets(a, ref) || j - |a| in Targets(b, ref) {
    }
    var shifted := Shifted(|a|, Targets(b, ref));
    forall j: nat ensures j in shifted <==> j - |a| in Targets(b, ref) {
      if j - |a| in Targets(b, ref) {
        assert j == |a| + (j - |a|);
      }
    }
  }

  lemma NotDefined(doc: Document, ref: Id, other: Document)
    requires IdsOf(doc) !! IdsOf(other) && Targets(other, ref) != {}
    ensures Targets(doc, ref) == {}
  {
    var j :| j in Targets(other, ref);
    assert ref in IdsOf(other);
    assert ref !in IdsOf(doc);
  }
}
