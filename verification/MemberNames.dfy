/** The archive member-name filter of the export scanner. */
module MemberNames {
  import opened Text

  /** `IndexError` is the exception the first-component lookup raises for a
      relative name that has no component at all, such as "." or "./.". */
  datatype NameCheck = Safe | Unsafe | IndexError

  function Normalized(name: string): string {
    seq(|name|, i requires 0 <= i < |name| => if name[i] == '\\' then '/' else name[i])
  }

  /** Components that neither path parsing nor path resolution keeps. */
  predicate Trivial(component: string) {
    component == "" || component == "."
  }

  function Kept(components: seq<string>): seq<string> {
    if components == [] then []
    else if Trivial(components[0]) then Kept(components[1..])
    else [components[0]] + Kept(components[1..])
  }

  /** `PurePosixPath(n).parts[0]`; the parts of an absolute path start with its root. */
  function FirstPart(n: string): Option<string>
    requires n != ""
  {
    var kept := Kept(Split(n, '/'));
    if n[0] == '/' then Some("/")
    else if kept == [] then None
    else Some(kept[0])
  }

  predicate EndsWithColon(part: string) {
    part != "" && part[|part| - 1] == ':'
  }

  /** The component loop of `posixpath.normpath`, with `acc` the list built so far. */
  function NormComponents(components: seq<string>, acc: seq<string>, absolute: bool): seq<string>
    decreases |components|
  {
    if components == [] then acc
    else
      var c, rest := components[0], components[1..];
      if Trivial(c) then NormComponents(rest, acc, absolute)
      else if c != ".." || (!absolute && acc == []) || (acc != [] && acc[|acc| - 1] == "..") then
        NormComponents(rest, acc + [c], absolute)
      else if acc != [] then NormComponents(rest, acc[..|acc| - 1], absolute)
      else NormComponents(rest, acc, absolute)
  }

  /** `posixpath.normpath`; exactly two leading slashes are kept, three or more become one. */
  function NormPath(path: string): string {
    var absolute := StartsWith(path, "/");
    var slashes := if StartsWith(path, "//") && !StartsWith(path, "///") then "//" else if absolute then "/" else "";
    var components := NormComponents(Split(path, '/'), [], absolute);
    var normal := slashes + (if components == [] then "" else Join(components, '/'));
    if normal == "" then "." else normal
  }

  function CheckMemberName(name: string): NameCheck {
    var n := Normalized(name);
    if n == "" then Unsafe
    else
      match FirstPart(n)
      case None => IndexError
      case Some(first) =>
        if && '\0' !in n
           && !StartsWith(n, "/")
           && !StartsWith(n, "../")
           && !Contains("/" + n + "/", "/../")
           && !EndsWithColon(first)
           && NormPath(n) !in {".", ".."}
        then Safe
        else Unsafe
  }

  // ---- What the filter decides -------------------------------------------

  predicate HasParentComponent(n: string) {
    ".." in Split(n, '/')
  }

  lemma {:induction false} KeptWithoutParents(components: seq<string>, acc: seq<string>)
    requires ".." !in components
    ensures NormComponents(components, acc, false) == acc + Kept(components)
    decreases |components|
  {
    if components != [] {
      var c := components[0];
      if Trivial(c) {
        KeptWithoutParents(components[1..], acc);
      } else {
        KeptWithoutParents(components[1..], acc + [c]);
        assert acc + [c] + Kept(components[1..]) == acc + Kept(components);
      }
    }
  }

  lemma {:induction false} KeptAreNamed(components: seq<string>)
    requires ".." !in components
    ensures forall k :: 0 <= k < |Kept(components)| ==> !Trivial(Kept(components)[k]) && Kept(components)[k] != ".."
  {
    if components != [] {
      KeptAreNamed(components[1..]);
    }
  }

  lemma JoinIsNotDots(kept: seq<string>)
    requires kept != [] && !Trivial(kept[0]) && kept[0] != ".."
    ensures Join(kept, '/') !in {"", ".", ".."}
  {
    if |kept| > 1 {
      var joined := Join(kept, '/');
      assert joined[|kept[0]|] == '/';
    }
  }

  /** On a relative name without a parent component the normal form is the
      list of kept components, so it is never "..", and "." only if none is kept. */
  lemma NormPathOfPlainName(n: string)
    requires !StartsWith(n, "/") && !HasParentComponent(n)
    ensures NormPath(n) == if Kept(Split(n, '/')) == [] then "." else Join(Kept(Split(n, '/')), '/')
    ensures NormPath(n) in {".", ".."} <==> Kept(Split(n, '/')) == []
  {
    var components := Split(n, '/');
    KeptWithoutParents(components, []);
    KeptAreNamed(components);
    assert NormComponents(components, [], false) == Kept(components);
    if Kept(components) != [] {
      JoinIsNotDots(Kept(components));
    }
  }

  /** A leading "../" is already caught by the substring test. */
  lemma ParentPrefixIsComponent(n: string)
    requires StartsWith(n, "../")
    ensures HasParentComponent(n)
  {
    assert n == ".." + ['/'] + n[3..];
    SplitAppend("..", '/', n[3..]);
    SplitWithoutSeparator("..", '/');
    assert Split(n, '/')[0] == "..";
  }

  /** The exact verdict for every name, without the substring, prefix and
      normal-form tests the code runs. */
  lemma Classification(name: string)
    ensures var n := Normalized(name);
            var kept := Kept(Split(n, '/'));
            && (CheckMemberName(name) == Safe <==>
                && n != "" && n[0] != '/' && '\0' !in n
                && !HasParentComponent(n)
                && kept != [] && !EndsWithColon(kept[0]))
            && (CheckMemberName(name) == IndexError <==> n != "" && n[0] != '/' && kept == [])
  {
    var n := Normalized(name);
    if n != "" {
      ComponentIffSubstring(n, '/', "..");
      assert "/" + n + "/" == ['/'] + n + ['/'] && ['/'] + ".." + ['/'] == "/../";
      if n[0] != '/' && !HasParentComponent(n) {
        NormPathOfPlainName(n);
        if StartsWith(n, "../") {
          ParentPrefixIsComponent(n);
        }
      }
    }
  }

  /** The "../" prefix test and the whole normal-form test never decide:
      whenever the remaining tests pass, both pass. */
  lemma ImpliedTests(name: string)
    requires var n := Normalized(name);
             && n != "" && FirstPart(n).Some?
             && !StartsWith(n, "/") && !Contains("/" + n + "/", "/../")
    ensures !StartsWith(Normalized(name), "../") && NormPath(Normalized(name)) !in {".", ".."}
  {
    var n := Normalized(name);
    ComponentIffSubstring(n, '/', "..");
    assert "/" + n + "/" == ['/'] + n + ['/'] && ['/'] + ".." + ['/'] == "/../";
    if StartsWith(n, "../") {
      ParentPrefixIsComponent(n);
    }
    NormPathOfPlainName(n);
  }

  /** The crash is reachable: the relative name "." has no first component. */
  lemma DotNameCrashes()
    ensures CheckMemberName(".") == IndexError
  {
    SplitWithoutSeparator(".", '/');
    assert Normalized(".") == ".";
    assert Kept(["."]) == Kept([]);
  }

  /** The first component that names something. */
  predicate FirstNamed(components: seq<string>, k: nat) {
    && k < |components| && components[k] != "" && components[k] != "."
    && forall j :: 0 <= j < k ==> components[j] == "" || components[j] == "."
  }

  lemma {:induction false} FirstKept(components: seq<string>)
    ensures Kept(components) == [] <==>
              forall k :: 0 <= k < |components| ==> components[k] == "" || components[k] == "."
    ensures forall k: nat :: FirstNamed(components, k) ==>
              Kept(components) != [] && Kept(components)[0] == components[k]
    ensures Kept(components) != [] ==> exists k: nat :: FirstNamed(components, k)
  {
    if components != [] {
      var rest := components[1..];
      FirstKept(rest);
      assert components == [components[0]] + rest;
      if Trivial(components[0]) {
        forall k: nat | FirstNamed(components, k) ensures Kept(components)[..1] == [components[k]] {
          assert FirstNamed(rest, k - 1);
        }
        if Kept(rest) != [] {
          var k: nat :| FirstNamed(rest, k);
          assert FirstNamed(components, k + 1);
        }
      } else {
        assert FirstNamed(components, 0);
        forall k: nat | 0 < k ensures !FirstNamed(components, k) {
        }
      }
    }
  }

  /** The accepted names, component by component: `n` is the name with slashes for
      backslashes; it is relative, holds no NUL, has no component "..", and its
      first component that names something does not end with a colon. */
  lemma SafeIff(name: string, n: string)
    requires |n| == |name| && forall i :: 0 <= i < |n| ==> n[i] == if name[i] == '\\' then '/' else name[i]
    ensures CheckMemberName(name) == Safe <==>
              && n != "" && n[0] != '/' && '\0' !in n && ".." !in Split(n, '/')
              && exists k: nat :: && FirstNamed(Split(n, '/'), k)
                                  && Split(n, '/')[k][|Split(n, '/')[k]| - 1] != ':'
  {
    hide Split, Kept, CheckMemberName;
    assert Normalized(name) == n;
    Classification(name);
    FirstKept(Split(n, '/'));
    if Kept(Split(n, '/')) != [] {
      var k: nat :| FirstNamed(Split(n, '/'), k);
    }
  }

  /** Slashes and backslashes are alike: names that differ only in them get the
      same verdict. */
  lemma SlashesAreAlike(a: string, b: string)
    requires |a| == |b|
    requires forall i :: 0 <= i < |a| ==> a[i] == b[i] || (a[i] in {'/', '\\'} && b[i] in {'/', '\\'})
    ensures CheckMemberName(a) == CheckMemberName(b)
  {
    assert Normalized(a) == Normalized(b);
  }

  // ---- Resolution against an extraction root ------------------------------

  /** Pathname resolution (section 4.13 of POSIX.1-2017 Base Definitions) in a
      tree without symbolic links; the parent of the root directory is itself. */
  function Resolve(directory: seq<string>, components: seq<string>): seq<string>
    decreases |components|
  {
    if components == [] then directory
    else
      var c, rest := components[0], components[1..];
      if Trivial(c) then Resolve(directory, rest)
      else if c == ".." then Resolve(if directory == [] then [] else directory[..|directory| - 1], rest)
      else Resolve(directory + [c], rest)
  }

  lemma {:induction false} ResolveDescends(directory: seq<string>, components: seq<string>)
    requires ".." !in components
    ensures Resolve(directory, components) == directory + Kept(components)
    decreases |components|
  {
    if components != [] {
      var c := components[0];
      if Trivial(c) {
        ResolveDescends(directory, components[1..]);
      } else {
        ResolveDescends(directory + [c], components[1..]);
        assert directory + [c] + Kept(components[1..]) == directory + Kept(components);
      }
    }
  }

  /** Resolving an accepted name never leaves the extraction root, not even
      part of the way, and ends strictly below it. */
  lemma SafeNameStaysInside(name: string, root: seq<string>, k: nat)
    requires CheckMemberName(name) == Safe
    requires k <= |Split(Normalized(name), '/')|
    ensures var components := Split(Normalized(name), '/');
            && root <= Resolve(root, components[..k])
            && root < Resolve(root, components)
  {
    Classification(name);
    var components := Split(Normalized(name), '/');
    ResolveDescends(root, components[..k]);
    ResolveDescends(root, components);
  }
}
