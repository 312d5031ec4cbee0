/** Detection of breaking changes between two OpenAPI snapshots. */
module SchemaCompatibility {

  type Codes = set<string>

  /** A component definition, as far as the comparison looks at it. */
  datatype Definition = ObjectType(properties: set<string>, required: set<string>) | OtherType

  /** Operations by method name, each with its response codes. */
  type Operations = map<string, Codes>

  datatype Schema = Schema(paths: map<string, Operations>, components: map<string, Definition>)

  datatype Break =
    | RemovedPath(path: string)
    | RemovedOperation(path: string, verb: string)
    | RemovedSuccess(path: string, verb: string, codes: Codes)
    | RemovedComponent(name: string)
    | RemovedProperties(name: string, properties: set<string>)
    | RemovedRequired(name: string, properties: set<string>)

  const HTTP_METHODS := {"get", "post", "put", "patch", "delete", "options", "head"}

  function Success(codes: Codes): Codes {
    set c | c in codes && c != "" && c[0] == '2'
  }

  // ---- What counts as a break -------------------------------------------------------------

  predicate OperationBreak(path: string, base: Operations, target: Operations, b: Break) {
    match b
    case RemovedOperation(p, m) => p == path && m in base && m in HTTP_METHODS && m !in target
    case RemovedSuccess(p, m, codes) =>
      && p == path && m in base && m in HTTP_METHODS && m in target
      && codes == Success(base[m]) - Success(target[m]) && codes != {}
    case _ => false
  }

  predicate DefinitionBreak(name: string, base: Definition, target: Definition, b: Break) {
    && base.ObjectType? && target.ObjectType?
    && match b
       case RemovedProperties(n, ps) => n == name && ps == base.properties - target.properties && ps != {}
       case RemovedRequired(n, ps) => n == name && ps == base.required - target.required && ps != {}
       case _ => false
  }

  /** The reported breaks, one by one. */
  predicate IsBreak(base: Schema, target: Schema, b: Break) {
    match b
    case RemovedPath(p) => p in base.paths && p !in target.paths
    case RemovedOperation(p, _) => PathBreak(base, target, p, b)
    case RemovedSuccess(p, _, _) => PathBreak(base, target, p, b)
    case RemovedComponent(n) => n in base.components && n !in target.components
    case RemovedProperties(n, _) => ComponentBreak(base, target, n, b)
    case RemovedRequired(n, _) => ComponentBreak(base, target, n, b)
  }

  predicate PathBreak(base: Schema, target: Schema, p: string, b: Break) {
    p in base.paths && p in target.paths && OperationBreak(p, base.paths[p], target.paths[p], b)
  }

  predicate ComponentBreak(base: Schema, target: Schema, n: string, b: Break) {
    n in base.components && n in target.components && DefinitionBreak(n, base.components[n], target.components[n], b)
  }

  // ---- What a client may rely on ---------------------------------------------------------------

  predicate KeepsOperations(base: Operations, target: Operations) {
    forall m :: m in base && m in HTTP_METHODS ==> m in target && Success(base[m]) <= Success(target[m])
  }

  predicate KeepsDefinition(base: Definition, target: Definition) {
    base.ObjectType? && target.ObjectType? ==> base.properties <= target.properties && base.required <= target.required
  }

  predicate Compatible(base: Schema, target: Schema) {
    && (forall p :: p in base.paths ==> p in target.paths && KeepsOperations(base.paths[p], target.paths[p]))
    && (forall n :: n in base.components ==>
          n in target.components && KeepsDefinition(base.components[n], target.components[n]))
  }

  // ---- The operation -------------------------------------------------------------------------------

  method OperationBreaks(path: string, base: Operations, target: Operations) returns (breaks: seq<Break>)
    ensures forall b :: b in breaks <==> OperationBreak(path, base, target, b)
  {
    breaks := [];
    var rest := base.Keys;
    while rest != {}
      invariant rest <= base.Keys
      invariant forall b :: b in breaks <==>
                  OperationBreak(path, base, target, b) && (b.RemovedOperation? || b.RemovedSuccess?) && b.verb !in rest
      decreases rest
    {
      var m :| m in rest;
      rest := rest - {m};
      if m !in HTTP_METHODS {
        continue;
      }
      if m !in target {
        breaks := breaks + [RemovedOperation(path, m)];
        continue;
      }
      var removed := Success(base[m]) - Success(target[m]);
      if removed != {} {
        breaks := breaks + [RemovedSuccess(path, m, removed)];
      }
    }
  }

  method DefinitionBreaks(name: string, base: Definition, target: Definition) returns (breaks: seq<Break>)
    ensures forall b :: b in breaks <==> DefinitionBreak(name, base, target, b)
  {
    breaks := [];
    if base.OtherType? || target.OtherType? {
      return;
    }
    var removedProperties := base.properties - target.properties;
    if removedProperties != {} {
      breaks := breaks + [RemovedProperties(name, removedProperties)];
    }
    var removedRequired := base.required - target.required;
    if removedRequired != {} {
      breaks := breaks + [RemovedRequired(name, removedRequired)];
    }
  }

  function PathOf(b: Break): string {
    if b.RemovedPath? || b.RemovedOperation? || b.RemovedSuccess? then b.path else b.name
  }

  predicate AboutPaths(b: Break) {
    b.RemovedPath? || b.RemovedOperation? || b.RemovedSuccess?
  }

  method PathBreaks(base: Schema, target: Schema) returns (breaks: seq<Break>)
    ensures forall b :: b in breaks <==> IsBreak(base, target, b) && AboutPaths(b)
  {
    breaks := [];
    var rest := base.paths.Keys;
    while rest != {}
      invariant rest <= base.paths.Keys
      invariant forall b :: b in breaks <==> IsBreak(base, target, b) && AboutPaths(b) && PathOf(b) !in rest
      decreases rest
    {
      var p :| p in rest;
      rest := rest - {p};
      if p !in target.paths {
        breaks := breaks + [RemovedPath(p)];
      } else {
        var more := OperationBreaks(p, base.paths[p], target.paths[p]);
        breaks := breaks + more;
      }
    }
  }

  method ComponentBreaks(base: Schema, target: Schema) returns (breaks: seq<Break>)
    ensures forall b :: b in breaks <==> IsBreak(base, target, b) && !AboutPaths(b)
  {
    breaks := [];
    var rest := base.components.Keys;
    while rest != {}
      invariant rest <= base.components.Keys
      invariant forall b :: b in breaks <==> IsBreak(base, target, b) && !AboutPaths(b) && PathOf(b) !in rest
      decreases rest
    {
      var n :| n in rest;
      rest := rest - {n};
      if n !in target.components {
        breaks := breaks + [RemovedComponent(n)];
      } else {
        var more := DefinitionBreaks(n, base.components[n], target.components[n]);
        breaks := breaks + more;
      }
    }
  }

  /** Exactly the breaks there are, and none if and only if the target keeps
      everything a client of the base may rely on. */
  method DetectBreakingChanges(base: Schema, target: Schema) returns (breaks: seq<Break>)
    ensures forall b :: b in breaks <==> IsBreak(base, target, b)
    ensures breaks == [] <==> Compatible(base, target)
  {
    breaks := PathBreaks(base, target);
    var more := ComponentBreaks(base, target);
    breaks := breaks + more;
    NoBreakIff(base, target);
    assert breaks != [] ==> breaks[0] in breaks;
  }

  lemma NoDifference(a: set<string>, b: set<string>)
    requires a - b == {}
    ensures a <= b
  {
    assert forall x :: x in a ==> x in b || x in a - b;
  }

  lemma NoBreakIff(base: Schema, target: Schema)
    ensures (forall b :: !IsBreak(base, target, b)) <==> Compatible(base, target)
  {
    if forall b :: !IsBreak(base, target, b) {
      forall p | p in base.paths ensures p in target.paths && KeepsOperations(base.paths[p], target.paths[p]) {
        assert !IsBreak(base, target, RemovedPath(p));
        OperationsKept(base, target, p);
      }
      forall n | n in base.components
        ensures n in target.components && KeepsDefinition(base.components[n], target.components[n])
      {
        assert !IsBreak(base, target, RemovedComponent(n));
        var d, t := base.components[n], target.components[n];
        if d.ObjectType? && t.ObjectType? {
          assert !IsBreak(base, target, RemovedProperties(n, d.properties - t.properties));
          assert !IsBreak(base, target, RemovedRequired(n, d.required - t.required));
          NoDifference(d.properties, t.properties);
          NoDifference(d.required, t.required);
        }
      }
    }
    if Compatible(base, target) {
      forall b ensures !IsBreak(base, target, b) {
      }
    }
  }

  lemma OperationsKept(base: Schema, target: Schema, p: string)
    requires forall b :: !IsBreak(base, target, b)
    requires p in base.paths && p in target.paths
    ensures KeepsOperations(base.paths[p], target.paths[p])
  {
    var d, t := base.paths[p], target.paths[p];
    forall m | m in d && m in HTTP_METHODS ensures m in t && Success(d[m]) <= Success(t[m]) {
      assert !IsBreak(base, target, RemovedOperation(p, m));
      assert !IsBreak(base, target, RemovedSuccess(p, m, Success(d[m]) - Success(t[m])));
      NoDifference(Success(d[m]), Success(t[m]));
    }
  }

  // ---- The verdict in plain terms ---------------------------------------------------------------------

  /** The seven methods of an OpenAPI operation that are compared. */
  predicate Compared(verb: string) {
    || verb == "get" || verb == "post" || verb == "put" || verb == "patch" || verb == "delete" || verb == "options"
    || verb == "head"
  }

  ghost predicate Succeeds(code: string) {
    exists rest :: code == "2" + rest
  }

  /** Every compared operation of a path is still there, with each success code. */
  ghost predicate ServesAll(base: Operations, target: Operations) {
    forall verb :: verb in base && Compared(verb) ==>
      && verb in target
      && forall code :: code in base[verb] && Succeeds(code) ==> code in target[verb]
  }

  /** As long as both are objects, every property and every required name stays. */
  predicate ListsAll(base: Definition, target: Definition) {
    base.ObjectType? && target.ObjectType? ==>
      && (forall x :: x in base.properties ==> x in target.properties)
      && (forall x :: x in base.required ==> x in target.required)
  }

  lemma SuccessCode(codes: Codes, code: string)
    ensures code in Success(codes) <==> code in codes && Succeeds(code)
  {
    if code != "" && code[0] == '2' {
      assert code == "2" + code[1..];
    }
  }

  lemma ComparedIff(verb: string)
    ensures Compared(verb) <==> verb in HTTP_METHODS
  {
  }

  lemma RemovedCodes(base: Codes, target: Codes, names: set<string>)
    ensures names == Success(base) - Success(target) <==>
              forall c :: c in names <==> c in base && Succeeds(c) && c !in target
    ensures Success(base) <= Success(target) <==> forall c :: c in base && Succeeds(c) ==> c in target
  {
    hide Succeeds, Success;
    forall c
      ensures c in Success(base) <==> c in base && Succeeds(c)
      ensures c in Success(target) <==> c in target && Succeeds(c)
    {
      SuccessCode(base, c);
      SuccessCode(target, c);
    }
    if forall c :: c in names <==> c in base && Succeeds(c) && c !in target {
      assert forall c :: c in names <==> c in Success(base) - Success(target);
    }
  }

  lemma ServesAllIff(base: Operations, target: Operations)
    ensures KeepsOperations(base, target) <==> ServesAll(base, target)
  {
    hide Succeeds, Success, Compared, HTTP_METHODS;
    forall verb ensures Compared(verb) <==> verb in HTTP_METHODS {
      ComparedIff(verb);
    }
    forall verb | verb in base && verb in target
      ensures Success(base[verb]) <= Success(target[verb]) <==>
                forall code :: code in base[verb] && Succeeds(code) ==> code in target[verb]
    {
      RemovedCodes(base[verb], target[verb], {});
    }
  }

  /** Nothing breaks exactly when every path stays with every compared operation
      and each of its success codes, and every component stays with each property
      and each required name of an object. */
  lemma CompatibleIff(base: Schema, target: Schema)
    ensures Compatible(base, target) <==>
              && (forall p :: p in base.paths ==> p in target.paths && ServesAll(base.paths[p], target.paths[p]))
              && (forall n :: n in base.components ==>
                    n in target.components && ListsAll(base.components[n], target.components[n]))
  {
    hide ServesAll, KeepsOperations;
    forall p | p in base.paths && p in target.paths
      ensures KeepsOperations(base.paths[p], target.paths[p]) <==> ServesAll(base.paths[p], target.paths[p])
    {
      ServesAllIff(base.paths[p], target.paths[p]);
    }
  }

  /** What is reported, kind by kind: removed operations and codes only for paths
      that stay and compared methods, removed names only for objects that stay
      objects, and always all that were removed together. */
  lemma BreaksAre(base: Schema, target: Schema, x: string, verb: string, names: set<string>)
    ensures IsBreak(base, target, RemovedPath(x)) <==> x in base.paths && x !in target.paths
    ensures IsBreak(base, target, RemovedOperation(x, verb)) <==>
              && x in base.paths && x in target.paths
              && Compared(verb) && verb in base.paths[x] && verb !in target.paths[x]
    ensures IsBreak(base, target, RemovedSuccess(x, verb, names)) <==>
              && x in base.paths && x in target.paths
              && Compared(verb) && verb in base.paths[x] && verb in target.paths[x] && names != {}
              && forall c :: c in names <==>
                   c in base.paths[x][verb] && Succeeds(c) && c !in target.paths[x][verb]
    ensures IsBreak(base, target, RemovedComponent(x)) <==> x in base.components && x !in target.components
    ensures IsBreak(base, target, RemovedProperties(x, names)) <==>
              && x in base.components && x in target.components
              && base.components[x].ObjectType? && target.components[x].ObjectType? && names != {}
              && names == base.components[x].properties - target.components[x].properties
    ensures IsBreak(base, target, RemovedRequired(x, names)) <==>
              && x in base.components && x in target.components
              && base.components[x].ObjectType? && target.components[x].ObjectType? && names != {}
              && names == base.components[x].required - target.components[x].required
  {
    hide Succeeds, Success, Compared, HTTP_METHODS;
    ComparedIff(verb);
    if x in base.paths && x in target.paths && verb in base.paths[x] && verb in target.paths[x] {
      RemovedCodes(base.paths[x][verb], target.paths[x][verb], names);
    }
  }

  // ---- Chains of releases ------------------------------------------------------------------------------

  /** No object definition that lists anything stops being an object. */
  predicate Protected(a: Schema, b: Schema) {
    forall n :: n in a.components && n in b.components && a.components[n].ObjectType? && b.components[n].OtherType? ==>
      a.components[n].properties == {} && a.components[n].required == {}
  }

  lemma ProtectedComposes(a: Schema, b: Schema, c: Schema)
    requires Compatible(a, b) && Compatible(b, c) && Protected(a, b)
    ensures Compatible(a, c)
  {
    forall p | p in a.paths ensures p in c.paths && KeepsOperations(a.paths[p], c.paths[p]) {
      assert p in b.paths && KeepsOperations(a.paths[p], b.paths[p]) && KeepsOperations(b.paths[p], c.paths[p]);
    }
    forall n | n in a.components ensures n in c.components && KeepsDefinition(a.components[n], c.components[n]) {
      assert n in b.components && KeepsDefinition(a.components[n], b.components[n]);
      assert n in c.components && KeepsDefinition(b.components[n], c.components[n]);
    }
  }

  /** Whatever passes its check against `b` keeps clients of `a`, exactly when no
      object definition with contents stops being an object from `a` to `b`. */
  lemma NextReleaseIff(a: Schema, b: Schema)
    requires Compatible(a, b)
    ensures (forall c :: Compatible(b, c) ==> Compatible(a, c)) <==> Protected(a, b)
  {
    if Protected(a, b) {
      forall c | Compatible(b, c) ensures Compatible(a, c) {
        ProtectedComposes(a, b, c);
      }
    }
    if forall c :: Compatible(b, c) ==> Compatible(a, c) {
      forall n | n in a.components && n in b.components && a.components[n].ObjectType? && b.components[n].OtherType?
        ensures a.components[n].properties == {} && a.components[n].required == {}
      {
        var c := b.(components := b.components[n := ObjectType({}, {})]);
        assert Compatible(b, c);
        assert KeepsDefinition(a.components[n], c.components[n]);
      }
    }
  }

  /** Releases each of which passes its check against the one before. */
  predicate Checked(rs: seq<Schema>) {
    rs != [] && forall i :: 0 <= i < |rs| - 1 ==> Compatible(rs[i], rs[i + 1])
  }

  /** Every step of the chain but the last keeps object definitions with contents. */
  predicate ProtectedSteps(rs: seq<Schema>) {
    forall i :: 0 <= i < |rs| - 2 ==> Protected(rs[i], rs[i + 1])
  }

  lemma KeepsItself(a: Schema)
    ensures Compatible(a, a)
  {
  }

  /** In a chain of any length whose steps, but for the last one, keep object
      definitions with contents, the last release keeps the clients of the first. */
  lemma {:induction false} ChainIsCompatible(rs: seq<Schema>)
    requires Checked(rs) && ProtectedSteps(rs)
    ensures Compatible(rs[0], rs[|rs| - 1])
  {
    hide Compatible, Protected;
    if |rs| == 1 {
      KeepsItself(rs[0]);
    } else if |rs| > 2 {
      var rest := rs[1..];
      forall i | 0 <= i < |rest| - 1 ensures Compatible(rest[i], rest[i + 1]) {
        assert rest[i] == rs[i + 1] && rest[i + 1] == rs[i + 2];
      }
      forall i | 0 <= i < |rest| - 2 ensures Protected(rest[i], rest[i + 1]) {
        assert rest[i] == rs[i + 1] && rest[i + 1] == rs[i + 2];
      }
      ChainIsCompatible(rest);
      ProtectedComposes(rs[0], rs[1], rs[|rs| - 1]);
    }
  }

  /** After such a chain, every next release that passes its check keeps the
      clients of the first release exactly when no object definition with contents
      has stopped being an object from the first release to the last one. */
  lemma ChainProtectedIff(rs: seq<Schema>)
    requires Checked(rs) && ProtectedSteps(rs)
    ensures (forall c :: Compatible(rs[|rs| - 1], c) ==> Compatible(rs[0], c)) <==> Protected(rs[0], rs[|rs| - 1])
  {
    ChainIsCompatible(rs);
    NextReleaseIff(rs[0], rs[|rs| - 1]);
  }

  /** No object definition lists anything. */
  predicate Bare(a: Schema) {
    forall n :: n in a.components && a.components[n].ObjectType? ==>
      a.components[n].properties == {} && a.components[n].required == {}
  }

  lemma BareComposes(a: Schema, b: Schema, c: Schema)
    requires Bare(a) && Compatible(a, b) && Compatible(b, c)
    ensures Compatible(a, c)
  {
    forall p | p in a.paths ensures p in c.paths && KeepsOperations(a.paths[p], c.paths[p]) {
      assert p in b.paths && KeepsOperations(a.paths[p], b.paths[p]) && KeepsOperations(b.paths[p], c.paths[p]);
    }
    forall n | n in a.components ensures n in c.components && KeepsDefinition(a.components[n], c.components[n]) {
      assert n in b.components && n in c.components;
    }
  }

  lemma {:induction false} BareChain(rs: seq<Schema>)
    requires Checked(rs) && Bare(rs[0])
    ensures Compatible(rs[0], rs[|rs| - 1])
  {
    hide Compatible, Bare;
    var n := |rs| - 1;
    if n == 0 {
      KeepsItself(rs[0]);
    } else {
      BareChain(rs[..n]);
      BareComposes(rs[0], rs[n - 1], rs[n]);
    }
  }

  /** Checking each release against the one before protects the clients of a
      release for ever, through every chain of any length, exactly when none of
      its object definitions lists a property or a required name: any other one
      can be emptied in two steps that both pass. */
  lemma ForeverProtectedIff(a: Schema)
    ensures (forall rs :: Checked(rs) && rs[0] == a ==> Compatible(a, rs[|rs| - 1])) <==> Bare(a)
  {
    if Bare(a) {
      forall rs | Checked(rs) && rs[0] == a ensures Compatible(a, rs[|rs| - 1]) {
        BareChain(rs);
      }
    }
    if !Bare(a) {
      var n :| n in a.components && a.components[n].ObjectType?
               && !(a.components[n].properties == {} && a.components[n].required == {});
      EmptiedInTwoSteps(a, n);
    }
  }

  lemma EmptiedInTwoSteps(a: Schema, n: string)
    requires n in a.components && a.components[n].ObjectType?
    requires !(a.components[n].properties == {} && a.components[n].required == {})
    ensures exists rs :: Checked(rs) && rs[0] == a && !Compatible(a, rs[|rs| - 1])
  {
    var b := a.(components := a.components[n := OtherType]);
    var c := a.(components := a.components[n := ObjectType({}, {})]);
    assert Compatible(a, b) && Compatible(b, c);
    assert !KeepsDefinition(a.components[n], c.components[n]);
    assert !Compatible(a, c);
    assert Checked([a, b, c]);
  }
}
