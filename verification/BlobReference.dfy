/** Printer and parser of the private references under which generated
    artifacts are stored. */
module BlobReference {
  import opened Filtering
  import opened Text

  datatype Reference = Reference(uri: string, container: string, blobName: string, prefix: string)

  /** The pseudonymous hash of an owner or a tenant; only its shape matters here. */
  type ScopeHash = string -> string

  datatype Scope = Scope(owner: string, tenant: string)

  /** The four caller-chosen segments of a reference. */
  datatype Segments = Segments(analysisId: string, versionId: string, artifactType: string, contentHash: string)

  // ---- Character classes ----------------------------------------------------------

  predicate IsAlpha(c: char) {
    'a' <= c <= 'z' || 'A' <= c <= 'Z'
  }

  predicate IsDigit(c: char) {
    '0' <= c <= '9'
  }

  predicate IsSegmentChar(c: char) {
    IsAlpha(c) || IsDigit(c) || c == '.' || c == '_' || c == '-'
  }

  predicate ValidSegment(s: string) {
    && 1 <= |s| <= 128
    && (IsAlpha(s[0]) || IsDigit(s[0]))
    && (forall k :: 0 <= k < |s| ==> IsSegmentChar(s[k]))
    && s !in {".", ".."}
  }

  predicate LowerHex(s: string, length: nat) {
    |s| == length && forall k :: 0 <= k < |s| ==> IsDigit(s[k]) || 'a' <= s[k] <= 'f'
  }

  predicate ValidSegments(g: Segments) {
    && ValidSegment(g.analysisId) && ValidSegment(g.versionId) && ValidSegment(g.artifactType)
    && LowerHex(g.contentHash, 64)
  }

  ghost predicate Digests(h: ScopeHash) {
    forall s :: LowerHex(h(s), 24)
  }

  // ---- Building -----------------------------------------------------------------------

  /** `None` stands for the invalid-reference exception. */
  function Build(container: string, h: ScopeHash, scope: Scope, g: Segments): Option<Reference> {
    var ownerHash, tenantHash := h(scope.owner), h(scope.tenant);
    if !ValidSegments(g) then None
    else
      var prefix := "artifacts/" + tenantHash + "/" + ownerHash + "/" + g.analysisId + "/" + g.versionId;
      var blobName := prefix + "/" + g.artifactType + "/" + g.contentHash;
      Some(Reference("azblob://" + container + "/" + blobName, container, blobName, prefix))
  }

  // ---- Splitting a URL (section 3 of RFC 3986, as the standard library does it) ----------

  datatype Url = Url(scheme: string, netloc: string, path: string, query: string, fragment: string)

  /** The first position of a character of `stops`, or the length. */
  function FirstOf(s: string, stops: set<char>): (i: nat)
    ensures i <= |s|
    ensures i < |s| ==> s[i] in stops
    ensures forall k :: 0 <= k < i ==> s[k] !in stops
  {
    if s == "" || s[0] in stops then 0 else 1 + FirstOf(s[1..], stops)
  }

  function DropControls(s: string): string {
    if s != "" && s[0] <= ' ' then DropControls(s[1..]) else s
  }

  predicate IsUnsafe(c: char) {
    c == '\t' || c == '\r' || c == '\n'
  }

  function RemoveUnsafe(s: string): string {
    if s == "" then ""
    else if IsUnsafe(s[0]) then RemoveUnsafe(s[1..])
    else [s[0]] + RemoveUnsafe(s[1..])
  }

  predicate IsSchemeChar(c: char) {
    IsAlpha(c) || IsDigit(c) || c == '+' || c == '-' || c == '.'
  }

  function SplitScheme(s: string): (string, string) {
    var i := FirstOf(s, {':'});
    if 0 < i < |s| && IsAlpha(s[0]) && forall k :: 0 <= k < i ==> IsSchemeChar(s[k])
    then (Lower(s[..i]), s[i + 1..])
    else ("", s)
  }

  function SplitOnce(s: string, sep: char): (string, string) {
    var i := FirstOf(s, {sep});
    if i < |s| then (s[..i], s[i + 1..]) else (s, "")
  }

  /** The authority after "//", and what follows it. */
  function SplitAuthority(s: string): (string, string) {
    if "//" <= s then
      var i := FirstOf(s[2..], {'/', '?', '#'});
      (s[2..][..i], s[2..][i..])
    else ("", s)
  }

  /** `urlsplit`; `netlocOk` is its check for bracketed hosts and for characters
      that change under normalisation, `None` the exception it raises then. */
  function UrlSplit(url: string, netlocOk: string -> bool): Option<Url> {
    var (scheme, rest) := SplitScheme(RemoveUnsafe(DropControls(url)));
    SplitHierarchy(scheme, rest, netlocOk)
  }

  function SplitHierarchy(scheme: string, rest: string, netlocOk: string -> bool): Option<Url> {
    var (netloc, afterNetloc) := SplitAuthority(rest);
    var (beforeFragment, fragment) := SplitOnce(afterNetloc, '#');
    var (path, query) := SplitOnce(beforeFragment, '?');
    if netlocOk(netloc) then Some(Url(scheme, netloc, path, query, fragment)) else None
  }

  function DropSlashes(s: string): string {
    if s != "" && s[0] == '/' then DropSlashes(s[1..]) else s
  }

  // ---- Parsing ----------------------------------------------------------------------------

  function Parse(uri: string, container: string, netlocOk: string -> bool, h: ScopeHash, scope: Scope)
    : Option<Reference>
  {
    match UrlSplit(uri, netlocOk)
    case None => None
    case Some(parsed) =>
      if || parsed.scheme != "azblob"
         || parsed.netloc != container
         || parsed.query != ""
         || parsed.fragment != ""
         || '@' in parsed.netloc
      then None
      else ParseParts(uri, container, h, scope, Split(DropSlashes(parsed.path), '/'))
  }

  function ParseParts(uri: string, container: string, h: ScopeHash, scope: Scope, parts: seq<string>): Option<Reference>
    requires parts != []
  {
    if |parts| != 7 || parts[0] != "artifacts" then None
    else if !LowerHex(parts[1], 24) || parts[1] != h(scope.tenant) then None
    else if !LowerHex(parts[2], 24) || parts[2] != h(scope.owner) then None
    else if !ValidSegments(Segments(parts[3], parts[4], parts[5], parts[6])) then None
    else Some(Reference(uri, container, Join(parts, '/'), Join(parts[..5], '/')))
  }

  // ---- The blob name and its parts ------------------------------------------------------------

  function Parts(h: ScopeHash, scope: Scope, g: Segments): seq<string> {
    ["artifacts", h(scope.tenant), h(scope.owner), g.analysisId, g.versionId, g.artifactType, g.contentHash]
  }

  lemma JoinFive(a: string, b: string, c: string, d: string, e: string)
    ensures Join([a, b, c, d, e], '/') == a + "/" + b + "/" + c + "/" + d + "/" + e
  {
    assert [a, b, c, d, e][1..] == [b, c, d, e] && [b, c, d, e][1..] == [c, d, e];
    assert [c, d, e][1..] == [d, e] && [d, e][1..] == [e];
    assert Join([d, e], '/') == d + "/" + e;
    assert Join([c, d, e], '/') == c + "/" + (d + "/" + e);
    assert Join([b, c, d, e], '/') == b + "/" + (c + "/" + (d + "/" + e));
  }

  /** The built names are the parts joined by slashes. */
  lemma BuildJoins(container: string, h: ScopeHash, scope: Scope, g: Segments)
    requires ValidSegments(g)
    ensures var r := Build(container, h, scope, g).value;
            && r.blobName == Join(Parts(h, scope, g), '/')
            && r.prefix == Join(Parts(h, scope, g)[..5], '/')
  {
    var parts := Parts(h, scope, g);
    JoinFive(parts[0], parts[1], parts[2], parts[3], parts[4]);
    assert parts[..5] == [parts[0], parts[1], parts[2], parts[3], parts[4]];
    assert parts == parts[..5] + ([parts[5]] + [parts[6]]);
    JoinAppend(parts[..5], [parts[5]] + [parts[6]], '/');
    JoinAppend([parts[5]], [parts[6]], '/');
    var r := Build(container, h, scope, g).value;
    assert "artifacts/" == parts[0] + "/";
    assert r.prefix == Join(parts[..5], '/');
    assert r.blobName == r.prefix + "/" + parts[5] + "/" + parts[6];
  }

  lemma PartIsClean(h: ScopeHash, scope: Scope, g: Segments, k: nat)
    requires Digests(h) && ValidSegments(g) && k < 7
    ensures forall c :: c in Parts(h, scope, g)[k] ==> IsSegmentChar(c)
  {
    assert LowerHex(h(scope.tenant), 24) && LowerHex(h(scope.owner), 24);
  }

  lemma SplitOfParts(h: ScopeHash, scope: Scope, g: Segments)
    requires Digests(h) && ValidSegments(g)
    ensures Split(Join(Parts(h, scope, g), '/'), '/') == Parts(h, scope, g)
  {
    forall k | 0 <= k < 7 ensures '/' !in Parts(h, scope, g)[k] {
      PartIsClean(h, scope, g, k);
    }
    SplitJoin(Parts(h, scope, g), '/');
  }

  /** Two references name the same blob only for the same segments and for
      scopes with the same hashes. */
  lemma BlobNameInjective(container: string, h: ScopeHash, s1: Scope, g1: Segments, s2: Scope, g2: Segments)
    requires Digests(h) && ValidSegments(g1) && ValidSegments(g2)
    requires Build(container, h, s1, g1).value.blobName == Build(container, h, s2, g2).value.blobName
    ensures g1 == g2 && h(s1.owner) == h(s2.owner) && h(s1.tenant) == h(s2.tenant)
  {
    BuildJoins(container, h, s1, g1);
    BuildJoins(container, h, s2, g2);
    SplitOfParts(h, s1, g1);
    SplitOfParts(h, s2, g2);
    var p1, p2 := Parts(h, s1, g1), Parts(h, s2, g2);
    assert p1 == p2;
    assert p1[1] == p2[1] && p1[2] == p2[2] && p1[3] == p2[3] && p1[4] == p2[4] && p1[5] == p2[5] && p1[6] == p2[6];
  }

  // ---- Round trip ----------------------------------------------------------------------------

  predicate Clean(container: string) {
    forall c :: c in container ==> c !in {'/', '?', '#'} && !IsUnsafe(c)
  }

  /** The container names for which the application can read back its own references. */
  predicate ContainerOk(container: string, netlocOk: string -> bool) {
    Clean(container) && '@' !in container && netlocOk(container)
  }

  predicate PathChars(s: string) {
    forall c :: c in s ==> IsSegmentChar(c) || c == '/'
  }

  lemma {:induction false} JoinChars(parts: seq<string>)
    requires |parts| >= 1
    requires forall k, c :: 0 <= k < |parts| && c in parts[k] ==> IsSegmentChar(c)
    ensures PathChars(Join(parts, '/'))
  {
    if |parts| > 1 {
      JoinChars(parts[1..]);
    }
  }

  lemma {:induction false} RemoveUnsafeAppend(a: string, b: string)
    ensures RemoveUnsafe(a + b) == RemoveUnsafe(a) + RemoveUnsafe(b)
  {
    if a == "" {
      assert a + b == b;
    } else {
      assert (a + b)[1..] == a[1..] + b;
      RemoveUnsafeAppend(a[1..], b);
    }
  }

  lemma {:induction false} RemoveUnsafeKeeps(s: string)
    ensures |RemoveUnsafe(s)| <= |s|
    ensures RemoveUnsafe(s) == s <==> forall c :: c in s ==> !IsUnsafe(c)
    ensures |RemoveUnsafe(s)| == |s| ==> RemoveUnsafe(s) == s
    ensures forall c :: c in RemoveUnsafe(s) ==> c in s
  {
    if s != "" {
      RemoveUnsafeKeeps(s[1..]);
      assert s == [s[0]] + s[1..];
    }
  }

  lemma CleanBuiltUri(container: string, tail: string)
    requires forall c :: c in tail ==> !IsUnsafe(c)
    ensures RemoveUnsafe(DropControls("azblob://" + container + tail)) == "azblob://" + RemoveUnsafe(container) + tail
  {
    var head := "azblob://";
    assert DropControls(head + container + tail) == head + container + tail;
    RemoveUnsafeAppend(head + container, tail);
    RemoveUnsafeAppend(head, container);
    RemoveUnsafeKeeps(head);
    RemoveUnsafeKeeps(tail);
  }

  lemma SchemeOfBuiltUri(rest: string)
    ensures SplitScheme("azblob:" + rest) == ("azblob", rest)
  {
    var s := "azblob:" + rest;
    assert s[6] == ':' && s[..6] == "azblob" && s[7..] == rest;
    assert FirstOf(s, {':'}) == 6;
    assert Lower("azblob") == "azblob";
  }

  lemma AuthorityOfBuiltUri(host: string, path: string)
    ensures var (netloc, after) := SplitAuthority("//" + host + "/" + path);
            if forall c :: c in host ==> c !in {'/', '?', '#'}
            then netloc == host && after == "/" + path
            else |netloc| < |host|
  {
    var tail := host + "/" + path;
    assert ("//" + host + "/" + path)[2..] == tail;
    var i := FirstOf(tail, {'/', '?', '#'});
    assert tail[|host|] == '/' && tail[..|host|] == host && tail[|host|..] == "/" + path;
    if i < |host| {
      assert host[i] == tail[i] && host[i] in host;
    } else {
      forall c | c in host ensures c !in {'/', '?', '#'} {
        var k :| 0 <= k < |host| && host[k] == c;
        assert tail[k] == c;
      }
    }
  }

  lemma NothingToSplit(path: string, sep: char)
    requires sep !in path
    ensures SplitOnce(path, sep) == (path, "")
  {
    var i := FirstOf(path, {sep});
    if i < |path| {
      assert false;
    }
  }

  lemma PathIsSafe(blobName: string)
    requires PathChars(blobName)
    ensures forall c :: c in "/" + blobName ==> !IsUnsafe(c)
  {
  }

  lemma StagesOfBuiltUri(container: string, blobName: string)
    requires PathChars(blobName)
    ensures var uri := "azblob://" + container + "/" + blobName;
            SplitScheme(RemoveUnsafe(DropControls(uri))) == ("azblob", "//" + RemoveUnsafe(container) + "/" + blobName)
  {
    hide DropControls, RemoveUnsafe, SplitScheme, PathChars;
    PathIsSafe(blobName);
    var tail := "/" + blobName;
    var rest := "//" + RemoveUnsafe(container) + "/" + blobName;
    assert "azblob://" + container + "/" + blobName == "azblob://" + container + tail;
    CleanBuiltUri(container, tail);
    assert "azblob://" + RemoveUnsafe(container) + tail == "azblob:" + rest;
    SchemeOfBuiltUri(rest);
  }

  lemma AuthorityOfContainer(container: string, blobName: string)
    requires PathChars(blobName)
    ensures var (netloc, after) := SplitAuthority("//" + RemoveUnsafe(container) + "/" + blobName);
            if Clean(container)
            then netloc == container && after == "/" + blobName
            else netloc != container
  {
    RemoveUnsafeKeeps(container);
    AuthorityOfBuiltUri(RemoveUnsafe(container), blobName);
  }

  /** What the URL splitter makes of a URI of the built shape. */
  lemma SplitBuiltUri(container: string, netlocOk: string -> bool, blobName: string)
    requires PathChars(blobName)
    ensures var parsed := UrlSplit("azblob://" + container + "/" + blobName, netlocOk);
            if ContainerOk(container, netlocOk)
            then parsed == Some(Url("azblob", container, "/" + blobName, "", ""))
            else parsed.Some? ==> parsed.value.netloc != container || '@' in container
  {
    StagesOfBuiltUri(container, blobName);
    HierarchyOfBuiltUri(container, netlocOk, blobName);
  }

  lemma HierarchyOfBuiltUri(container: string, netlocOk: string -> bool, blobName: string)
    requires PathChars(blobName)
    ensures var parsed := SplitHierarchy("azblob", "//" + RemoveUnsafe(container) + "/" + blobName, netlocOk);
            if ContainerOk(container, netlocOk)
            then parsed == Some(Url("azblob", container, "/" + blobName, "", ""))
            else parsed.Some? ==> parsed.value.netloc != container || '@' in container
  {
    hide ContainerOk, SplitHierarchy, SplitAuthority, RemoveUnsafe, Clean;
    AuthorityOfContainer(container, blobName);
    HierarchyOf(container, netlocOk, "//" + RemoveUnsafe(container) + "/" + blobName, "/" + blobName);
  }

  lemma HierarchyOf(container: string, netlocOk: string -> bool, rest: string, path: string)
    requires var (netloc, after) := SplitAuthority(rest);
             if Clean(container) then netloc == container && after == path else netloc != container
    requires '#' !in path && '?' !in path
    ensures var parsed := SplitHierarchy("azblob", rest, netlocOk);
            if ContainerOk(container, netlocOk)
            then parsed == Some(Url("azblob", container, path, "", ""))
            else parsed.Some? ==> parsed.value.netloc != container || '@' in container
  {
    NetlocOfHierarchy("azblob", rest, netlocOk);
    if ContainerOk(container, netlocOk) {
      PlainHierarchy("azblob", rest, netlocOk);
    }
  }

  lemma NetlocOfHierarchy(scheme: string, rest: string, netlocOk: string -> bool)
    ensures var parsed := SplitHierarchy(scheme, rest, netlocOk);
            && parsed.Some? == netlocOk(SplitAuthority(rest).0)
            && (parsed.Some? ==> parsed.value.netloc == SplitAuthority(rest).0)
  {
  }

  lemma PlainHierarchy(scheme: string, rest: string, netlocOk: string -> bool)
    requires var (netloc, after) := SplitAuthority(rest);
             netlocOk(netloc) && '#' !in after && '?' !in after
    ensures var (netloc, after) := SplitAuthority(rest);
            SplitHierarchy(scheme, rest, netlocOk) == Some(Url(scheme, netloc, after, "", ""))
  {
    var (netloc, after) := SplitAuthority(rest);
    NothingToSplit(after, '#');
    NothingToSplit(after, '?');
  }

  lemma PartsAreClean(h: ScopeHash, scope: Scope, g: Segments)
    requires Digests(h) && ValidSegments(g)
    ensures PathChars(Join(Parts(h, scope, g), '/'))
  {
    var parts := Parts(h, scope, g);
    forall k | 0 <= k < |parts| ensures forall c :: c in parts[k] ==> IsSegmentChar(c) {
      PartIsClean(h, scope, g, k);
    }
    JoinChars(parts);
  }

  lemma PathOfBuiltUri(h: ScopeHash, scope: Scope, g: Segments)
    requires Digests(h) && ValidSegments(g)
    ensures Split(DropSlashes("/" + Join(Parts(h, scope, g), '/')), '/') == Parts(h, scope, g)
  {
    var blobName := Join(Parts(h, scope, g), '/');
    assert blobName[0] == 'a';
    assert ("/" + blobName)[1..] == blobName;
    assert DropSlashes("/" + blobName) == DropSlashes(blobName) == blobName;
    SplitOfParts(h, scope, g);
  }

  /** Reading back a built reference in its own scope returns exactly that
      reference when the configured container name is usable, and is refused
      when it is not. */
  lemma RoundTrip(container: string, netlocOk: string -> bool, h: ScopeHash, scope: Scope, g: Segments)
    requires Digests(h) && ValidSegments(g)
    ensures var r := Build(container, h, scope, g).value;
            Parse(r.uri, container, netlocOk, h, scope) == if ContainerOk(container, netlocOk) then Some(r) else None
  {
    hide UrlSplit, Split, Join, DropSlashes, PathChars;
    var r := Build(container, h, scope, g).value;
    BuildJoins(container, h, scope, g);
    PartsAreClean(h, scope, g);
    SplitBuiltUri(container, netlocOk, r.blobName);
    PathOfBuiltUri(h, scope, g);
    assert LowerHex(h(scope.tenant), 24) && LowerHex(h(scope.owner), 24);
  }

  /** The path components of a URI. */
  function PathParts(uri: string, netlocOk: string -> bool): seq<string> {
    match UrlSplit(uri, netlocOk)
    case None => []
    case Some(parsed) => Split(DropSlashes(parsed.path), '/')
  }

  /** Whatever URI is accepted, its path has the components that the builder puts
      together for the caller's scope and the URI's own four segments, and the
      blob name and prefix are the builder's for exactly these segments. */
  lemma AcceptedIsCanonical(uri: string, container: string, netlocOk: string -> bool, h: ScopeHash, scope: Scope)
    ensures var r, parts := Parse(uri, container, netlocOk, h, scope), PathParts(uri, netlocOk);
            r.Some? ==>
              && |parts| == 7
              && var g := Segments(parts[3], parts[4], parts[5], parts[6]);
                 && ValidSegments(g) && parts == Parts(h, scope, g)
                 && Build(container, h, scope, g).value.(uri := uri) == r.value
  {
    hide UrlSplit, Split, DropSlashes;
    if Parse(uri, container, netlocOk, h, scope).Some? {
      AcceptedParts(uri, container, h, scope, PathParts(uri, netlocOk));
    }
  }

  lemma AcceptedParts(uri: string, container: string, h: ScopeHash, scope: Scope, parts: seq<string>)
    requires parts != [] && ParseParts(uri, container, h, scope, parts).Some?
    ensures |parts| == 7
    ensures var g := Segments(parts[3], parts[4], parts[5], parts[6]);
            && ValidSegments(g) && parts == Parts(h, scope, g)
            && Build(container, h, scope, g).value.(uri := uri) == ParseParts(uri, container, h, scope, parts).value
  {
    var g := Segments(parts[3], parts[4], parts[5], parts[6]);
    assert parts == Parts(h, scope, g);
    BuildJoins(container, h, scope, g);
  }

  /** Nothing but the container, the scope and the segments decides: a URI is
      accepted exactly when its URL is plain and its path has the components of
      some valid segments in the caller's scope. */
  lemma AcceptedIff(uri: string, container: string, netlocOk: string -> bool, h: ScopeHash, scope: Scope)
    requires Digests(h)
    ensures Parse(uri, container, netlocOk, h, scope).Some? <==>
              && UrlSplit(uri, netlocOk).Some? && IsPlain(UrlSplit(uri, netlocOk).value, container)
              && exists g :: ValidSegments(g) && PathParts(uri, netlocOk) == Parts(h, scope, g)
  {
    hide UrlSplit, Split, DropSlashes;
    AcceptedIsCanonical(uri, container, netlocOk, h, scope);
    var parts := PathParts(uri, netlocOk);
    if g :| ValidSegments(g) && parts == Parts(h, scope, g) {
      assert LowerHex(h(scope.tenant), 24) && LowerHex(h(scope.owner), 24);
      assert Segments(parts[3], parts[4], parts[5], parts[6]) == g;
    }
  }

  predicate IsPlain(parsed: Url, container: string) {
    && parsed.scheme == "azblob" && parsed.netloc == container
    && parsed.query == "" && parsed.fragment == "" && '@' !in container
  }

  /** A URI is accepted in two scopes only when their hashes agree. */
  lemma ScopesAreSeparate(uri: string, container: string, netlocOk: string -> bool, h: ScopeHash, s1: Scope, s2: Scope)
    ensures Parse(uri, container, netlocOk, h, s1).Some? ==>
              (Parse(uri, container, netlocOk, h, s2).Some? <==>
                 h(s1.owner) == h(s2.owner) && h(s1.tenant) == h(s2.tenant))
  {
    hide UrlSplit, Split, DropSlashes;
  }

  // ---- References as texts ----------------------------------------------------------------------

  predicate LetterOrDigit(c: char) {
    'a' <= c <= 'z' || 'A' <= c <= 'Z' || '0' <= c <= '9'
  }

  /** Up to 128 letters, digits, dots, underscores and hyphens, the first of them a
      letter or a digit. */
  predicate IsName(s: string) {
    && 0 < |s| < 129 && LetterOrDigit(s[0])
    && forall c :: c in s ==> LetterOrDigit(c) || c in {'.', '_', '-'}
  }

  predicate IsHex(s: string, length: nat) {
    |s| == length && forall c :: c in s ==> '0' <= c <= '9' || c in {'a', 'b', 'c', 'd', 'e', 'f'}
  }

  lemma NamesAndHashes(s: string)
    ensures IsName(s) <==> ValidSegment(s)
    ensures forall n :: IsHex(s, n) <==> LowerHex(s, n)
  {
    assert forall k :: 0 <= k < |s| ==> s[k] in s;
  }

  /** What is built, and when: the hashes of tenant and owner, then three names and
      64 hexadecimal digits, below one directory of the container. */
  lemma BuiltIs(container: string, h: ScopeHash, scope: Scope, g: Segments)
    ensures var r := Build(container, h, scope, g);
            && (r.Some? <==> IsName(g.analysisId) && IsName(g.versionId) && IsName(g.artifactType)
                             && IsHex(g.contentHash, 64))
            && (r.Some? ==>
                  && r.value.prefix ==
                     "artifacts/" + h(scope.tenant) + "/" + h(scope.owner) + "/" + g.analysisId + "/" + g.versionId
                  && r.value.blobName == r.value.prefix + "/" + g.artifactType + "/" + g.contentHash
                  && r.value.uri == "azblob://" + container + "/" + r.value.blobName
                  && r.value.container == container)
  {
    hide IsName, IsHex, ValidSegment, LowerHex;
    NamesAndHashes(g.analysisId);
    NamesAndHashes(g.versionId);
    NamesAndHashes(g.artifactType);
    NamesAndHashes(g.contentHash);
  }

  /** A URI as the splitter reads it: without leading control characters and
      blanks, and without tabs and line ends anywhere. */
  function Cleaned(uri: string): string {
    RemoveUnsafe(DropControls(uri))
  }

  /** `uri` from its `n`-th character on, the first one above the blank. */
  predicate BlanksUpTo(uri: string, n: nat) {
    && n <= |uri| && (forall k :: 0 <= k < n ==> uri[k] as int <= 32) && (n < |uri| ==> uri[n] as int > 32)
  }

  lemma {:induction false} DroppedIs(uri: string) returns (n: nat)
    ensures BlanksUpTo(uri, n) && DropControls(uri) == uri[n..]
  {
    if uri == "" || uri[0] as int > 32 {
      n := 0;
      assert uri[0..] == uri;
    } else {
      var rest := uri[1..];
      var m := DroppedIs(rest);
      n := m + 1;
      assert uri[n..] == rest[m..];
      assert forall k :: 0 < k < n ==> uri[k] == rest[k - 1];
    }
  }

  lemma CleanedIs(uri: string)
    ensures exists n: nat :: BlanksUpTo(uri, n) &&
                             Cleaned(uri) == Keep(uri[n..], (c: char) => c != '\t' && c != '\r' && c != '\n')
  {
    var n := DroppedIs(uri);
    RemovedIs(uri[n..]);
  }

  lemma {:induction false} RemovedIs(s: string)
    ensures RemoveUnsafe(s) == Keep(s, (c: char) => c != '\t' && c != '\r' && c != '\n')
  {
    if s != "" {
      var n := |s| - 1;
      RemovedIs(s[..n]);
      RemoveUnsafeAppend(s[..n], [s[n]]);
      assert s[..n] + [s[n]] == s && [s[n]][1..] == "";
    }
  }

  predicate AllSlashes(s: string) {
    forall c :: c in s ==> c == '/'
  }

  /** A text for a blob: the scheme in any case, the container after two slashes,
      the blob name after one or more, and perhaps the mark of an empty query and
      of an empty fragment. Only an empty container may do without the slashes. */
  ghost predicate Spells(text: string, container: string, blobName: string) {
    exists scheme, authority, slashes, marks ::
      && text == scheme + ":" + (authority + (slashes + blobName + marks))
      && Lower(scheme) == "azblob" && AllSlashes(slashes) && marks in {"", "?", "#", "?#"}
      && if authority == "" then container == "" && |slashes| <= 1
         else authority == "//" + container && |slashes| >= 1
  }

  lemma SchemeOf(text: string) returns (scheme: string)
    requires SplitScheme(text).0 == "azblob"
    ensures text == scheme + ":" + SplitScheme(text).1 && Lower(scheme) == "azblob"
  {
    var i := FirstOf(text, {':'});
    scheme := text[..i];
  }

  lemma SchemeFrom(scheme: string, rest: string)
    requires Lower(scheme) == "azblob"
    ensures SplitScheme(scheme + ":" + rest) == ("azblob", rest)
  {
    var text := scheme + ":" + rest;
    assert |Lower(scheme)| == |scheme| == 6;
    forall k | 0 <= k < 6 ensures IsAlpha(scheme[k]) {
      assert Lower(scheme)[k] in {'a', 'z', 'b', 'l', 'o'};
    }
    assert text[..6] == scheme && text[6] == ':' && text[7..] == rest;
    assert text == scheme + (":" + rest);
    StopsBehind(scheme, ":" + rest, {':'});
  }

  predicate StartsPath(s: string) {
    s == "" || s[0] in {'/', '?', '#'}
  }

  /** Where the authority ends. */
  predicate Hosts(rest: string, container: string, after: string) {
    || (rest == "//" + container + after && StartsPath(after))
    || (container == "" && rest == after && !("//" <= rest))
  }

  lemma AuthorityOf(rest: string)
    ensures var (container, after) := SplitAuthority(rest); Hosts(rest, container, after)
  {
    if "//" <= rest {
      var tail := rest[2..];
      var i := FirstOf(tail, {'/', '?', '#'});
      assert tail == tail[..i] + tail[i..];
      assert rest == "//" + tail[..i] + tail[i..];
    }
  }

  lemma AuthorityFrom(rest: string, container: string, after: string)
    requires '/' !in container && '?' !in container && '#' !in container && Hosts(rest, container, after)
    ensures SplitAuthority(rest) == (container, after)
  {
    if "//" <= rest {
      var tail := container + after;
      assert rest == "//" + tail && rest[2..] == tail;
      StopsBehind(container, after, {'/', '?', '#'});
      assert tail[..|container|] == container && tail[|container|..] == after;
    }
  }

  lemma AuthorityIff(rest: string, container: string, after: string)
    requires '/' !in container && '?' !in container && '#' !in container
    ensures SplitAuthority(rest) == (container, after) <==> Hosts(rest, container, after)
  {
    hide SplitAuthority, Hosts;
    AuthorityOf(rest);
    if Hosts(rest, container, after) {
      AuthorityFrom(rest, container, after);
    }
  }

  lemma StopsBehind(before: string, after: string, stops: set<char>)
    requires (forall c :: c in before ==> c !in stops) && (after == "" || after[0] in stops)
    ensures FirstOf(before + after, stops) == |before|
  {
    var s := before + after;
    forall k | 0 <= k < |before| ensures s[k] !in stops {
      assert s[k] == before[k] && before[k] in before;
    }
    if after != "" {
      assert s[|before|] == after[0];
    }
  }

  lemma MarksOf(after: string) returns (marks: string)
    requires SplitOnce(after, '#').1 == "" && SplitOnce(SplitOnce(after, '#').0, '?').1 == ""
    ensures after == SplitOnce(SplitOnce(after, '#').0, '?').0 + marks && marks in {"", "?", "#", "?#"}
  {
    var before := SplitOnce(after, '#').0;
    var path := SplitOnce(before, '?').0;
    OnceOf(after, '#');
    OnceOf(before, '?');
    if path == before {
      marks := if before == after then "" else "#";
    } else if before == after {
      marks := "?";
    } else {
      marks := "?#";
      assert after == (path + "?") + "#" == path + "?#";
    }
  }

  lemma OnceOf(s: string, sep: char)
    requires SplitOnce(s, sep).1 == ""
    ensures s == SplitOnce(s, sep).0 + if SplitOnce(s, sep).0 == s then "" else [sep]
  {
    var i := FirstOf(s, {sep});
    if i < |s| {
      assert s == s[..i] + [sep] + s[i + 1..];
    }
  }

  lemma OnceFrom(path: string, sep: char, marked: bool)
    requires sep !in path
    ensures SplitOnce(path + (if marked then [sep] else ""), sep) == (path, "")
  {
    var s := path + (if marked then [sep] else "");
    StopsBehind(path, if marked then [sep] else "", {sep});
    assert s[..|path|] == path;
    if marked {
      assert s[|path| + 1..] == "";
    } else {
      assert s == path;
    }
  }

  lemma MarksFrom(path: string, marks: string)
    requires '?' !in path && '#' !in path && marks in {"", "?", "#", "?#"}
    ensures SplitOnce(path + marks, '#').1 == ""
    ensures SplitOnce(SplitOnce(path + marks, '#').0, '?') == (path, "")
  {
    var query, fragment := marks in {"?", "?#"}, marks in {"#", "?#"};
    var before := path + if query then "?" else "";
    assert path + marks == before + if fragment then "#" else "";
    OnceFrom(before, '#', fragment);
    OnceFrom(path, '?', query);
  }

  lemma {:induction false} SlashesOf(path: string) returns (slashes: string)
    ensures path == slashes + DropSlashes(path) && AllSlashes(slashes)
  {
    if path != "" && path[0] == '/' {
      var more := SlashesOf(path[1..]);
      slashes := "/" + more;
      assert path == "/" + path[1..];
    } else {
      slashes := "";
    }
  }

  lemma {:induction false} SlashesFrom(slashes: string, name: string)
    requires AllSlashes(slashes) && (name == "" || name[0] != '/')
    ensures DropSlashes(slashes + name) == name
  {
    if slashes == "" {
      assert slashes + name == name;
    } else {
      assert slashes[0] in slashes && forall c :: c in slashes[1..] ==> c in slashes;
      assert (slashes + name)[1..] == slashes[1..] + name;
      SlashesFrom(slashes[1..], name);
    }
  }

  /** A URL without query and fragment, whose path is some slashes and a name. */
  predicate PlainUrl(parsed: Option<Url>, container: string, name: string) {
    && parsed.Some? && parsed.value.scheme == "azblob" && parsed.value.netloc == container
    && parsed.value.query == "" && parsed.value.fragment == "" && DropSlashes(parsed.value.path) == name
  }

  lemma PlainIsSpelled(uri: string, container: string, netlocOk: string -> bool, name: string)
    requires '/' !in container && '?' !in container && '#' !in container
    requires name != "" && name[0] !in {'/', '?', '#'}
    requires PlainUrl(UrlSplit(uri, netlocOk), container, name)
    ensures Spells(Cleaned(uri), container, name)
  {
    hide DropControls, RemoveUnsafe, SplitScheme, SplitAuthority, SplitOnce, DropSlashes, Lower, AllSlashes;
    var text := Cleaned(uri);
    var rest := SplitScheme(text).1;
    var scheme := SchemeOf(text);
    var after := SplitAuthority(rest).1;
    AuthorityIff(rest, container, after);
    var marks := MarksOf(after);
    var path := UrlSplit(uri, netlocOk).value.path;
    var slashes := SlashesOf(path);
    assert after == slashes + name + marks;
    SlashCount(slashes, name, marks);
    if rest == "//" + container + after && StartsPath(after) {
      var authority := "//" + container;
      assert rest == authority + after;
      assert authority != "" && |slashes| >= 1;
    } else {
      var authority := "";
      assert rest == authority + after;
      assert |slashes| <= 1;
    }
  }

  lemma SlashCount(slashes: string, name: string, marks: string)
    requires AllSlashes(slashes) && name != "" && name[0] !in {'/', '?', '#'}
    ensures StartsPath(slashes + name + marks) <==> |slashes| >= 1
    ensures "//" <= slashes + name + marks <==> |slashes| >= 2
  {
    var s := slashes + name + marks;
    assert slashes == "" ==> s[0] == name[0];
    if |slashes| >= 1 {
      assert slashes[0] in slashes && s[0] == slashes[0];
    }
    if |slashes| == 1 {
      assert s[1] == name[0];
    }
    if |slashes| >= 2 {
      assert slashes[1] in slashes && s[1] == slashes[1];
      assert s[..2] == "//";
    }
  }

  lemma HierarchyFrom(
    container: string, netlocOk: string -> bool, authority: string, slashes: string, name: string, marks: string)
    requires '/' !in container && '?' !in container && '#' !in container && netlocOk(container)
    requires name != "" && name[0] != '/' && '?' !in name && '#' !in name
    requires AllSlashes(slashes) && marks in {"", "?", "#", "?#"}
    requires if authority == "" then container == "" && |slashes| <= 1
             else authority == "//" + container && |slashes| >= 1
    ensures SplitHierarchy("azblob", authority + (slashes + name + marks), netlocOk) ==
            Some(Url("azblob", container, slashes + name, "", ""))
  {
    hide SplitAuthority, SplitOnce, AllSlashes;
    var path, after := slashes + name, slashes + name + marks;
    assert name[0] in name;
    SlashCount(slashes, name, marks);
    assert authority == "" ==> authority + after == after;
    AuthorityIff(authority + after, container, after);
    NoMarks(slashes, name);
    MarksFrom(path, marks);
  }

  lemma UrlFrom(
    uri: string, container: string, netlocOk: string -> bool, scheme: string, rest: string, url: Option<Url>)
    requires Cleaned(uri) == scheme + ":" + rest && Lower(scheme) == "azblob"
    requires SplitHierarchy("azblob", rest, netlocOk) == url
    ensures UrlSplit(uri, netlocOk) == url
  {
    hide DropControls, RemoveUnsafe, SplitScheme, SplitHierarchy, Lower;
    SchemeFrom(scheme, rest);
  }

  lemma SpelledIsPlain(uri: string, container: string, netlocOk: string -> bool, name: string)
    requires '/' !in container && '?' !in container && '#' !in container && netlocOk(container)
    requires name != "" && name[0] != '/' && '?' !in name && '#' !in name
    requires Spells(Cleaned(uri), container, name)
    ensures PlainUrl(UrlSplit(uri, netlocOk), container, name)
  {
    hide Cleaned, UrlSplit, SplitHierarchy, DropSlashes, Lower, AllSlashes;
    var scheme, authority, slashes, marks :|
      && Cleaned(uri) == scheme + ":" + (authority + (slashes + name + marks))
      && Lower(scheme) == "azblob" && AllSlashes(slashes) && marks in {"", "?", "#", "?#"}
      && if authority == "" then container == "" && |slashes| <= 1
         else authority == "//" + container && |slashes| >= 1;
    var rest := authority + (slashes + name + marks);
    HierarchyFrom(container, netlocOk, authority, slashes, name, marks);
    UrlFrom(uri, container, netlocOk, scheme, rest, Some(Url("azblob", container, slashes + name, "", "")));
    SlashesFrom(slashes, name);
  }

  lemma NoMarks(slashes: string, name: string)
    requires AllSlashes(slashes) && '?' !in name && '#' !in name
    ensures '?' !in slashes + name && '#' !in slashes + name
  {
  }

  lemma PartsDecide(name: string, h: ScopeHash, scope: Scope, g: Segments)
    requires Digests(h) && ValidSegments(g)
    ensures Split(name, '/') == Parts(h, scope, g) <==> name == Join(Parts(h, scope, g), '/')
    ensures var joined := Join(Parts(h, scope, g), '/');
            joined != "" && joined[0] == 'a' && '?' !in joined && '#' !in joined
  {
    JoinSplit(name, '/');
    SplitOfParts(h, scope, g);
    PartsAreClean(h, scope, g);
    PathOfBuiltUri(h, scope, g);
    assert Join(Parts(h, scope, g), '/')[0] == 'a';
  }

  /** The accepted URIs as texts: exactly those that, cleaned, spell the blob name of
      some valid segments in the caller's scope, in a container that can be told
      from what follows it. */
  lemma AcceptedTextIff(uri: string, container: string, netlocOk: string -> bool, h: ScopeHash, scope: Scope)
    requires Digests(h)
    ensures Parse(uri, container, netlocOk, h, scope).Some? <==>
              && '/' !in container && '?' !in container && '#' !in container && '@' !in container
              && netlocOk(container)
              && exists g :: Build(container, h, scope, g).Some?
                             && Spells(Cleaned(uri), container, Build(container, h, scope, g).value.blobName)
  {
    hide UrlSplit, Split, DropSlashes, Spells, Cleaned, Join, LowerHex, ValidSegment;
    AcceptedIff(uri, container, netlocOk, h, scope);
    NetlocOfUrl(uri, netlocOk);
    if '/' !in container && '?' !in container && '#' !in container {
      var parsed := UrlSplit(uri, netlocOk);
      forall g | ValidSegments(g)
        ensures netlocOk(container) && Spells(Cleaned(uri), container, Build(container, h, scope, g).value.blobName)
                <==>
                  && parsed.Some? && parsed.value.scheme == "azblob" && parsed.value.netloc == container
                  && parsed.value.query == "" && parsed.value.fragment == ""
                  && PathParts(uri, netlocOk) == Parts(h, scope, g)
      {
        SpelledIff(uri, container, netlocOk, h, scope, g);
      }
    }
  }

  lemma SpelledIff(
    uri: string, container: string, netlocOk: string -> bool, h: ScopeHash, scope: Scope, g: Segments)
    requires Digests(h) && '/' !in container && '?' !in container && '#' !in container && ValidSegments(g)
    ensures var parsed := UrlSplit(uri, netlocOk);
            Spells(Cleaned(uri), container, Build(container, h, scope, g).value.blobName) && netlocOk(container) <==>
              && parsed.Some? && parsed.value.scheme == "azblob" && parsed.value.netloc == container
              && parsed.value.query == "" && parsed.value.fragment == ""
              && PathParts(uri, netlocOk) == Parts(h, scope, g)
  {
    hide SplitScheme, SplitAuthority, SplitOnce, DropSlashes, Spells, Cleaned, Join, Split, LowerHex, ValidSegment;
    var name, parsed := Join(Parts(h, scope, g), '/'), UrlSplit(uri, netlocOk);
    BuildJoins(container, h, scope, g);
    PartsDecide(name, h, scope, g);
    if parsed.Some? {
      PartsDecide(DropSlashes(parsed.value.path), h, scope, g);
      NetlocOfUrl(uri, netlocOk);
    }
    if PlainUrl(parsed, container, name) {
      PlainIsSpelled(uri, container, netlocOk, name);
    }
    if Spells(Cleaned(uri), container, name) && netlocOk(container) {
      SpelledIsPlain(uri, container, netlocOk, name);
    }
  }

  lemma NetlocOfUrl(uri: string, netlocOk: string -> bool)
    ensures var parsed := UrlSplit(uri, netlocOk);
            parsed.Some? ==>
              && netlocOk(parsed.value.netloc)
              && '/' !in parsed.value.netloc && '?' !in parsed.value.netloc && '#' !in parsed.value.netloc
  {
    hide DropControls, RemoveUnsafe, SplitScheme, SplitOnce;
  }
}
