/** The bounded, fail-closed archive scan that runs before an export is stored. */
module ArchiveScanner {
  import opened Text
  import opened MemberNames

  newtype Byte = x: int | 0 <= x < 256
  type Bytes = seq<Byte>

  /** One entry of an archive listing. `data` is what reading the entry yields,
      `None` when reading raises. Sizes are the ones the listing declares. */
  datatype Member = Member(filename: string, encrypted: bool, fileSize: nat, compressSize: nat, data: Option<Bytes>)

  datatype Leaf = Text | Pdf | Png | Jpeg

  /** Code the scanner calls: the zip reader (`None` for a broken archive), the
      lower-cased suffix of a path, and the accept/reject leaf scanners. Nothing is
      assumed of `open`: an archive may list members that contain itself. */
  datatype Library = Library(
    open: Bytes -> Option<seq<Member>>, suffix: string -> string, leafOk: (Leaf, Bytes) -> bool)

  datatype Limits = Limits(scanBytes: int, members: int, memberBytes: int, depth: int, ratio: int)

  datatype Error =
    | Empty | ScanSize | DepthExceeded | InvalidArchive | DuplicateMember | MemberLimit
    | NameLookupCrash | Traversal | Encrypted | MemberTooLarge | Bomb | ExpandedTooLarge
    | Unreadable | LeafRejected | BinaryUnavailable

  datatype Verdict = Accept | Reject(error: Error)

  // ---- Content dispatch ----------------------------------------------------

  const ZIP_MAGIC: Bytes := [0x50, 0x4B, 0x03, 0x04]
  const PDF_MAGIC: Bytes := [0x25, 0x50, 0x44, 0x46, 0x2D]
  const PNG_MAGIC: Bytes := [0x89, 0x50, 0x4E, 0x47, 0x0D, 0x0A, 0x1A, 0x0A]
  const JPEG_MAGIC: Bytes := [0xFF, 0xD8, 0xFF]
  const XML_MAGIC: Bytes := [0x3C, 0x3F, 0x78, 0x6D, 0x6C]

  const TEXT_EXTENSIONS := {
    ".bicep", ".csv", ".drawio", ".hcl", ".html", ".json", ".md", ".rels",
    ".svg", ".terraform", ".tf", ".txt", ".vdx", ".xml"
  }

  predicate IsZip(content: Bytes) {
    ZIP_MAGIC <= content
  }

  /** Python's `content.find(needle)`, with -1 for absent. */
  function Find(content: Bytes, needle: Bytes): int {
    if needle <= content then 0
    else if content == [] then -1
    else
      var i := Find(content[1..], needle);
      if i < 0 then -1 else i + 1
  }

  /** Whether a member that is not a nested archive passes its scanner. */
  predicate LeafMemberOk(lib: Library, name: string, content: Bytes) {
    var suffix := lib.suffix(name);
    if PDF_MAGIC <= content || suffix == ".pdf" then lib.leafOk(Pdf, content)
    else if PNG_MAGIC <= content || suffix == ".png" then lib.leafOk(Png, content)
    else if JPEG_MAGIC <= content || suffix in {".jpg", ".jpeg"} then lib.leafOk(Jpeg, content)
    else if suffix in TEXT_EXTENSIONS || name in {"[Content_Types].xml", "_rels/.rels"} then lib.leafOk(Text, content)
    else if StartsWith(name, "ppt/printerSettings/") && suffix == ".bin" then
      var offset := Find(content, XML_MAGIC);
      && 0 <= offset
      && PrinterSettingsOk(lib, content, offset)
    else false
  }

  predicate PrinterSettingsOk(lib: Library, content: Bytes, offset: int)
    requires 0 <= offset
  {
    offset <= |content| && lib.leafOk(Text, content[offset..])
  }

  // ---- The declarative acceptance condition --------------------------------

  predicate IsDir(m: Member) {
    m.filename != "" && m.filename[|m.filename| - 1] == '/'
  }

  predicate IsNestedArchive(m: Member) {
    !IsDir(m) && m.data.Some? && IsZip(m.data.value)
  }

  predicate RatioOk(m: Member, lim: Limits) {
    var compressed := if m.compressSize > 1 then m.compressSize else 1;
    m.fileSize <= compressed * lim.ratio
  }

  /** Everything that is asked of one member on its own. */
  predicate LocallyOk(lib: Library, lim: Limits, m: Member) {
    && CheckMemberName(m.filename) == Safe
    && !m.encrypted
    && (IsDir(m) || (
          && m.fileSize <= lim.memberBytes
          && RatioOk(m, lim)
          && m.data.Some?
          && (IsZip(m.data.value) || LeafMemberOk(lib, m.filename, m.data.value))))
  }

  function NormalizedNames(members: seq<Member>): seq<string> {
    seq(|members|, i requires 0 <= i < |members| => Normalized(members[i].filename))
  }

  /** The nesting of an archive, unfolded as far as the depth limit allows. */
  datatype Tree = Flat | TooDeep | Broken | Archive(members: seq<Member>, children: seq<Tree>)

  function Unfold(lib: Library, content: Bytes, levels: int): (t: Tree)
    ensures t.Archive? ==> |t.members| == |t.children|
    decreases if levels < 0 then 0 else levels + 1, 0
  {
    if levels < 0 then TooDeep
    else
      match lib.open(content)
      case None => Broken
      case Some(members) =>
        Archive(members, seq(|members|, i requires 0 <= i < |members| => UnfoldMember(lib, members[i], levels - 1)))
  }

  function UnfoldMember(lib: Library, m: Member, levels: int): Tree
    requires levels >= -1
    decreases levels + 1, 1
  {
    if IsNestedArchive(m) then Unfold(lib, m.data.value, levels) else Flat
  }

  predicate WellNested(t: Tree) {
    match t
    case Flat => true
    case TooDeep => false
    case Broken => false
    case Archive(_, children) => forall k :: 0 <= k < |children| ==> WellNested(children[k])
  }

  predicate Reaches(t: Tree, node: Tree) {
    t == node || (t.Archive? && exists k :: 0 <= k < |t.children| && Reaches(t.children[k], node))
  }

  lemma {:induction false} ReachesRefutes(t: Tree, node: Tree)
    requires node in {TooDeep, Broken} && Reaches(t, node)
    ensures !WellNested(t)
  {
    if t != node {
      var k :| 0 <= k < |t.children| && Reaches(t.children[k], node);
      ReachesRefutes(t.children[k], node);
    }
  }

  /** Every member listed anywhere in the tree. */
  function AllMembers(t: Tree): seq<Member>
    decreases t, 1
  {
    match t
    case Archive(members, children) => members + MembersOf(children)
    case _ => []
  }

  function MembersOf(ts: seq<Tree>): seq<Member>
    decreases ts, 0
  {
    if ts == [] then [] else MembersOf(ts[..|ts| - 1]) + AllMembers(ts[|ts| - 1])
  }

  predicate NamesDistinct(t: Tree) {
    t.Archive? ==>
      && Distinct(NormalizedNames(t.members))
      && forall k :: 0 <= k < |t.children| ==> NamesDistinct(t.children[k])
  }

  function Expanded(members: seq<Member>): nat {
    if members == [] then 0
    else Expanded(members[..|members| - 1]) + Size(members[|members| - 1])
  }

  function Size(m: Member): nat {
    if IsDir(m) then 0 else m.fileSize
  }

  predicate AllLocallyOk(lib: Library, lim: Limits, members: seq<Member>) {
    forall m :: m in members ==> LocallyOk(lib, lim, m)
  }

  predicate Sound(lib: Library, lim: Limits, t: Tree) {
    WellNested(t) && NamesDistinct(t) && AllLocallyOk(lib, lim, AllMembers(t))
  }

  /** The acceptance condition: no running total, no order, no early exit. */
  predicate Acceptable(lib: Library, lim: Limits, t: Tree) {
    && Sound(lib, lim, t)
    && |AllMembers(t)| <= lim.members
    && Expanded(AllMembers(t)) <= lim.scanBytes
  }

  lemma {:induction false} ExpandedAppend(a: seq<Member>, b: seq<Member>)
    ensures Expanded(a + b) == Expanded(a) + Expanded(b)
  {
    if b == [] {
      assert a + b == a;
    } else {
      var ab := a + b;
      assert ab[..|ab| - 1] == a + b[..|b| - 1];
      ExpandedAppend(a, b[..|b| - 1]);
    }
  }

  lemma MembersOfStep(ts: seq<Tree>, i: nat)
    requires i < |ts|
    ensures MembersOf(ts[..i + 1]) == MembersOf(ts[..i]) + AllMembers(ts[i])
  {
    assert ts[..i + 1][..i] == ts[..i];
  }

  /** The first children's members are no more than all of them, in number and size. */
  lemma {:induction false} MembersOfPrefix(ts: seq<Tree>, i: nat)
    requires i <= |ts|
    ensures |MembersOf(ts[..i])| <= |MembersOf(ts)|
    ensures Expanded(MembersOf(ts[..i])) <= Expanded(MembersOf(ts))
    ensures forall m :: m in MembersOf(ts[..i]) ==> m in MembersOf(ts)
    decreases |ts| - i
  {
    if i < |ts| {
      MembersOfStep(ts, i);
      ExpandedAppend(MembersOf(ts[..i]), AllMembers(ts[i]));
      MembersOfPrefix(ts, i + 1);
    } else {
      assert ts[..i] == ts;
    }
  }

  /** What a rejection reveals about the tree, given what the budget held before. */
  predicate Evidence(lib: Library, lim: Limits, t: Tree, members0: int, bytes0: int, e: Error) {
    match e
    case DepthExceeded => Reaches(t, TooDeep)
    case InvalidArchive => Reaches(t, Broken)
    case DuplicateMember => !NamesDistinct(t)
    case MemberLimit => members0 + |AllMembers(t)| > lim.members
    case ExpandedTooLarge => bytes0 + Expanded(AllMembers(t)) > lim.scanBytes
    case NameLookupCrash => exists m :: m in AllMembers(t) && CheckMemberName(m.filename) == IndexError
    case Traversal => exists m :: m in AllMembers(t) && CheckMemberName(m.filename) == Unsafe
    case Encrypted => exists m :: m in AllMembers(t) && m.encrypted
    case MemberTooLarge => exists m :: m in AllMembers(t) && !IsDir(m) && m.fileSize > lim.memberBytes
    case Bomb => exists m :: m in AllMembers(t) && !IsDir(m) && !RatioOk(m, lim)
    case Unreadable => exists m :: m in AllMembers(t) && !IsDir(m) && m.data.None?
    case LeafRejected =>
      exists m :: m in AllMembers(t) && !IsDir(m) && m.data.Some? && !IsZip(m.data.value)
                  && !LeafMemberOk(lib, m.filename, m.data.value)
    case _ => false
  }

  /** Members of one child are members of the archive, and what was charged
      before it together with the child is no more than the whole. */
  lemma ChildWithinWhole(t: Tree, i: nat)
    requires t.Archive? && i < |t.children| == |t.members|
    ensures forall m :: m in AllMembers(t.children[i]) ==> m in AllMembers(t)
    ensures |t.members| + |MembersOf(t.children[..i])| + |AllMembers(t.children[i])| <= |AllMembers(t)|
    ensures Expanded(t.members[..i + 1]) + Expanded(MembersOf(t.children[..i])) + Expanded(AllMembers(t.children[i]))
            <= Expanded(AllMembers(t))
  {
    hide Expanded;
    MembersOfStep(t.children, i);
    MembersOfPrefix(t.children, i + 1);
    ExpandedAppend(MembersOf(t.children[..i]), AllMembers(t.children[i]));
    ExpandedAppend(t.members, MembersOf(t.children));
    ExpandedPrefix(t.members, i + 1);
    hide MembersOf;
  }

  lemma ExpandedPrefix(members: seq<Member>, i: nat)
    requires i <= |members|
    ensures Expanded(members[..i]) <= Expanded(members)
  {
    ExpandedAppend(members[..i], members[i..]);
    assert members == members[..i] + members[i..];
  }

  /** Evidence found in one child, after the members before it were charged, is
      evidence about the whole archive. */
  lemma EvidenceLifts(lib: Library, lim: Limits, t: Tree, i: nat, members0: int, bytes0: int, e: Error)
    requires t.Archive? && i < |t.children| == |t.members|
    requires Evidence(lib, lim, t.children[i],
                      members0 + |t.members| + |MembersOf(t.children[..i])|,
                      bytes0 + Expanded(t.members[..i + 1]) + Expanded(MembersOf(t.children[..i])), e)
    ensures Evidence(lib, lim, t, members0, bytes0, e)
  {
    hide AllMembers, MembersOf, Expanded;
    ChildWithinWhole(t, i);
  }

  /** Evidence is never found in an acceptable tree. */
  lemma EvidenceRefutes(lib: Library, lim: Limits, t: Tree, members0: int, bytes0: int, e: Error)
    requires Evidence(lib, lim, t, members0, bytes0, e)
    ensures !(&& Sound(lib, lim, t)
              && members0 + |AllMembers(t)| <= lim.members
              && bytes0 + Expanded(AllMembers(t)) <= lim.scanBytes)
  {
    if e == DepthExceeded {
      ReachesRefutes(t, TooDeep);
    } else if e == InvalidArchive {
      ReachesRefutes(t, Broken);
    }
  }

  /** The budget shared by all nested archives. `readCount` and `bytesRead` record
      the member reads that have really been made. */
  class Budget {
    var bytes: int
    var members: int
    ghost var readCount: nat
    ghost var bytesRead: nat

    constructor ()
      ensures bytes == 0 && members == 0 && readCount == 0 && bytesRead == 0
    {
      bytes, members, readCount, bytesRead := 0, 0, 0, 0;
    }

    ghost predicate WithinLimits(lim: Limits)
      reads this
    {
      bytesRead <= bytes <= lim.scanBytes && readCount <= members <= lim.members
    }
  }

  function NameError(check: NameCheck): (e: Error)
    requires check != Safe
  {
    if check == IndexError then NameLookupCrash else Traversal
  }

  /** The archive tree below one member's bytes. */
  function Below(lib: Library, content: Bytes, levels: int): Tree
    requires levels >= -1
  {
    if IsZip(content) then Unfold(lib, content, levels) else Flat
  }

  /** Whether a tree fits next to what has already been charged. */
  predicate Fits(lib: Library, lim: Limits, t: Tree, members0: int, bytes0: int) {
    && Sound(lib, lim, t)
    && members0 + |AllMembers(t)| <= lim.members
    && bytes0 + Expanded(AllMembers(t)) <= lim.scanBytes
  }

  method ScanArchiveMember(lib: Library, lim: Limits, name: string, content: Bytes, depth: nat, budget: Budget)
    returns (v: Verdict)
    requires depth <= lim.depth
    requires budget.WithinLimits(lim)
    modifies budget
    ensures var t := Below(lib, content, lim.depth - depth - 1);
            var members0, bytes0 := old(budget.members), old(budget.bytes);
            && (v == Accept <==>
                (IsZip(content) || LeafMemberOk(lib, name, content)) && Fits(lib, lim, t, members0, bytes0))
            && (v == Accept ==>
                && budget.WithinLimits(lim)
                && budget.members == members0 + |AllMembers(t)|
                && budget.bytes == bytes0 + Expanded(AllMembers(t)))
            && (v.Reject? ==>
                if IsZip(content) then Evidence(lib, lim, t, members0, bytes0, v.error) else v.error == LeafRejected)
    ensures old(budget.readCount) <= budget.readCount <= lim.members
    ensures old(budget.bytesRead) <= budget.bytesRead <= lim.scanBytes
    ensures v == Accept ==> budget.readCount - old(budget.readCount) <= budget.members - old(budget.members)
    decreases lim.depth - depth, 2
  {
    if IsZip(content) {
      v := ScanArchive(lib, lim, content, depth + 1, budget);
    } else if LeafMemberOk(lib, name, content) {
      v := Accept;
    } else {
      v := Reject(LeafRejected);
    }
  }

  /** What is wrong with one listed member itself, next to `bytes0` bytes already charged. */
  predicate MemberFault(lib: Library, lim: Limits, m: Member, bytes0: int, e: Error) {
    match e
    case NameLookupCrash => CheckMemberName(m.filename) == IndexError
    case Traversal => CheckMemberName(m.filename) == Unsafe
    case Encrypted => m.encrypted
    case MemberTooLarge => !IsDir(m) && m.fileSize > lim.memberBytes
    case Bomb => !IsDir(m) && !RatioOk(m, lim)
    case ExpandedTooLarge => bytes0 + Size(m) > lim.scanBytes
    case Unreadable => !IsDir(m) && m.data.None?
    case LeafRejected =>
      !IsDir(m) && m.data.Some? && !IsZip(m.data.value) && !LeafMemberOk(lib, m.filename, m.data.value)
    case _ => false
  }

  lemma FlatIsSound(lib: Library, lim: Limits)
    ensures Sound(lib, lim, Flat)
  {
  }

  /** One turn of the member loop. */
  method ScanEntry(lib: Library, lim: Limits, m: Member, depth: nat, budget: Budget) returns (v: Verdict)
    requires depth <= lim.depth
    requires budget.WithinLimits(lim) && budget.readCount < budget.members
    modifies budget
    ensures var t := UnfoldMember(lib, m, lim.depth - depth - 1);
            var members0, bytes0 := old(budget.members), old(budget.bytes);
            && (v == Accept <==> LocallyOk(lib, lim, m) && Fits(lib, lim, t, members0, bytes0 + Size(m)))
            && (v == Accept ==>
                && budget.WithinLimits(lim)
                && budget.members == members0 + |AllMembers(t)|
                && budget.bytes == bytes0 + Size(m) + Expanded(AllMembers(t)))
            && (v.Reject? ==>
                MemberFault(lib, lim, m, bytes0, v.error) || Evidence(lib, lim, t, members0, bytes0 + Size(m), v.error))
    ensures old(budget.readCount) <= budget.readCount <= lim.members
    ensures old(budget.bytesRead) <= budget.bytesRead <= lim.scanBytes
    ensures v == Accept ==> budget.readCount - old(budget.readCount) <= 1 + budget.members - old(budget.members)
    decreases lim.depth - depth, 3
  {
    FlatIsSound(lib, lim);
    hide Evidence, Sound, WellNested, CheckMemberName, LeafMemberOk;
    var check := CheckMemberName(m.filename);
    if check != Safe {
      return Reject(NameError(check));
    }
    if m.encrypted {
      return Reject(Encrypted);
    }
    if IsDir(m) {
      return Accept;
    }
    if m.fileSize > lim.memberBytes {
      return Reject(MemberTooLarge);
    }
    if !RatioOk(m, lim) {
      return Reject(Bomb);
    }
    budget.bytes := budget.bytes + m.fileSize;
    if budget.bytes > lim.scanBytes {
      return Reject(ExpandedTooLarge);
    }
    if m.data == None {
      return Reject(Unreadable);
    }
    budget.readCount, budget.bytesRead := budget.readCount + 1, budget.bytesRead + m.fileSize;
    v := ScanArchiveMember(lib, lim, m.filename, m.data.value, depth, budget);
  }

  /** The loop invariant on values: the first `i` members and everything below
      them were accepted. */
  predicate AcceptedUpTo(lib: Library, lim: Limits, t: Tree, i: nat)
    requires t.Archive? && i <= |t.members| == |t.children|
  {
    && AllLocallyOk(lib, lim, t.members[..i])
    && AllLocallyOk(lib, lim, MembersOf(t.children[..i]))
    && forall k :: 0 <= k < i ==> WellNested(t.children[k]) && NamesDistinct(t.children[k])
  }

  lemma AcceptedStep(lib: Library, lim: Limits, t: Tree, i: nat)
    requires t.Archive? && i < |t.members| == |t.children|
    requires AcceptedUpTo(lib, lim, t, i)
    requires LocallyOk(lib, lim, t.members[i]) && Sound(lib, lim, t.children[i])
    ensures AcceptedUpTo(lib, lim, t, i + 1)
    ensures |MembersOf(t.children[..i + 1])| == |MembersOf(t.children[..i])| + |AllMembers(t.children[i])|
    ensures Expanded(MembersOf(t.children[..i + 1])) ==
            Expanded(MembersOf(t.children[..i])) + Expanded(AllMembers(t.children[i]))
    ensures Expanded(t.members[..i + 1]) == Expanded(t.members[..i]) + Size(t.members[i])
  {
    MembersOfStep(t.children, i);
    ExpandedAppend(MembersOf(t.children[..i]), AllMembers(t.children[i]));
    assert t.members[..i + 1][..i] == t.members[..i];
  }

  lemma AcceptedAll(lib: Library, lim: Limits, t: Tree)
    requires t.Archive? && |t.members| == |t.children|
    requires Distinct(NormalizedNames(t.members))
    requires AcceptedUpTo(lib, lim, t, |t.members|)
    ensures Sound(lib, lim, t)
    ensures |AllMembers(t)| == |t.members| + |MembersOf(t.children[..|t.members|])|
    ensures Expanded(AllMembers(t)) ==
            Expanded(t.members[..|t.members|]) + Expanded(MembersOf(t.children[..|t.members|]))
  {
    assert t.members[..|t.members|] == t.members && t.children[..|t.members|] == t.children;
    ExpandedAppend(t.members, MembersOf(t.children));
  }

  lemma FaultLifts(lib: Library, lim: Limits, t: Tree, i: nat, members0: int, bytes0: int, e: Error)
    requires t.Archive? && i < |t.children| == |t.members|
    requires MemberFault(lib, lim, t.members[i],
                         bytes0 + Expanded(t.members[..i]) + Expanded(MembersOf(t.children[..i])), e)
    ensures Evidence(lib, lim, t, members0, bytes0, e)
  {
    assert t.members[i] in AllMembers(t);
    if e == ExpandedTooLarge {
      MembersOfPrefix(t.children, i);
      assert t.members[..i + 1][..i] == t.members[..i];
      ExpandedAppend(t.members[..i + 1], t.members[i + 1..]);
      assert t.members == t.members[..i + 1] + t.members[i + 1..];
      ExpandedAppend(t.members, MembersOf(t.children));
    }
  }

  /** What each early exit of an archive scan has found. */
  lemma EarlyExits(lib: Library, lim: Limits, content: Bytes, levels: int, members0: int, bytes0: int)
    ensures levels < 0 ==> Evidence(lib, lim, Unfold(lib, content, levels), members0, bytes0, DepthExceeded)
    ensures levels >= 0 && lib.open(content) == None ==>
              Evidence(lib, lim, Unfold(lib, content, levels), members0, bytes0, InvalidArchive)
    ensures levels >= 0 && lib.open(content).Some? ==>
              var members := lib.open(content).value;
              && (!Distinct(NormalizedNames(members)) ==>
                    Evidence(lib, lim, Unfold(lib, content, levels), members0, bytes0, DuplicateMember))
              && (members0 + |members| > lim.members ==>
                    Evidence(lib, lim, Unfold(lib, content, levels), members0, bytes0, MemberLimit))
  {
  }

  /** Before the first member nothing has been accepted or charged. */
  lemma NothingYet(lib: Library, lim: Limits, content: Bytes, levels: int)
    requires levels >= 0 && lib.open(content).Some?
    ensures var t, members := Unfold(lib, content, levels), lib.open(content).value;
            && t.Archive? && t.members == members
            && (forall i :: 0 <= i < |members| ==> t.children[i] == UnfoldMember(lib, members[i], levels - 1))
            && AcceptedUpTo(lib, lim, t, 0)
            && MembersOf(t.children[..0]) == []
            && Expanded(members[..0]) == 0 && Expanded(MembersOf(t.children[..0])) == 0
  {
  }

  method ScanArchive(lib: Library, lim: Limits, content: Bytes, depth: nat, budget: Budget) returns (v: Verdict)
    requires budget.bytesRead <= budget.bytes <= lim.scanBytes && budget.readCount <= budget.members
    modifies budget
    ensures var t := Unfold(lib, content, lim.depth - depth);
            var members0, bytes0 := old(budget.members), old(budget.bytes);
            && (v == Accept <==> Fits(lib, lim, t, members0, bytes0))
            && (v == Accept ==>
                && budget.WithinLimits(lim)
                && budget.members == members0 + |AllMembers(t)|
                && budget.bytes == bytes0 + Expanded(AllMembers(t)))
            && (v.Reject? ==> Evidence(lib, lim, t, members0, bytes0, v.error))
    ensures budget.readCount == old(budget.readCount) || old(budget.readCount) <= budget.readCount <= lim.members
    ensures old(budget.bytesRead) <= budget.bytesRead <= lim.scanBytes
    ensures v == Accept ==> budget.readCount - old(budget.readCount) <= budget.members - old(budget.members)
    decreases if lim.depth < depth then 0 else lim.depth - depth + 1, 1
  {
    hide Evidence, LocallyOk, Sound, Distinct, AllMembers, Unfold, AcceptedUpTo, MembersOf, Expanded;
    ghost var t := Unfold(lib, content, lim.depth - depth);
    ghost var members0, bytes0 := budget.members, budget.bytes;
    EarlyExits(lib, lim, content, lim.depth - depth, members0, bytes0);
    if depth > lim.depth {
      EvidenceRefutes(lib, lim, t, members0, bytes0, DepthExceeded);
      return Reject(DepthExceeded);
    }
    var listing := lib.open(content);
    if listing == None {
      EvidenceRefutes(lib, lim, t, members0, bytes0, InvalidArchive);
      return Reject(InvalidArchive);
    }
    var members := listing.value;
    if !Distinct(NormalizedNames(members)) {
      EvidenceRefutes(lib, lim, t, members0, bytes0, DuplicateMember);
      return Reject(DuplicateMember);
    }
    budget.members := budget.members + |members|;
    if budget.members > lim.members {
      EvidenceRefutes(lib, lim, t, members0, bytes0, MemberLimit);
      return Reject(MemberLimit);
    }
    NothingYet(lib, lim, content, lim.depth - depth);
    for i := 0 to |members|
      invariant budget.WithinLimits(lim)
      invariant budget.members == members0 + |members| + |MembersOf(t.children[..i])|
      invariant budget.bytes == bytes0 + Expanded(members[..i]) + Expanded(MembersOf(t.children[..i]))
      invariant 0 <= budget.readCount - old(budget.readCount) <= i + |MembersOf(t.children[..i])|
      invariant old(budget.bytesRead) <= budget.bytesRead
      invariant AcceptedUpTo(lib, lim, t, i)
    {
      v := ScanEntry(lib, lim, members[i], depth, budget);
      if v.Reject? {
        Refuted(lib, lim, t, i, members0, bytes0, v.error);
        return;
      }
      AcceptedStep(lib, lim, t, i);
    }
    AcceptedAll(lib, lim, t);
    v := Accept;
  }

  lemma Refuted(lib: Library, lim: Limits, t: Tree, i: nat, members0: int, bytes0: int, e: Error)
    requires t.Archive? && i < |t.children| == |t.members|
    requires var bytes1 := bytes0 + Expanded(t.members[..i]) + Expanded(MembersOf(t.children[..i]));
             || MemberFault(lib, lim, t.members[i], bytes1, e)
             || Evidence(lib, lim, t.children[i], members0 + |t.members| + |MembersOf(t.children[..i])|,
                         bytes1 + Size(t.members[i]), e)
    ensures Evidence(lib, lim, t, members0, bytes0, e) && !Fits(lib, lim, t, members0, bytes0)
  {
    hide Evidence, MemberFault;
    var bytes1 := bytes0 + Expanded(t.members[..i]) + Expanded(MembersOf(t.children[..i]));
    if MemberFault(lib, lim, t.members[i], bytes1, e) {
      FaultLifts(lib, lim, t, i, members0, bytes0, e);
    } else {
      assert t.members[..i + 1][..i] == t.members[..i];
      EvidenceLifts(lib, lim, t, i, members0, bytes0, e);
    }
    EvidenceRefutes(lib, lim, t, members0, bytes0, e);
  }

  // ---- The entry point -----------------------------------------------------

  const TEXT_FORMATS := {
    "bicep", "csv", "drawio", "excalidraw", "hcl", "html", "json", "landing-zone-svg",
    "md", "markdown", "svg", "terraform", "text", "txt", "vdx", "vsdx", "xml"
  }
  const ARCHIVE_FORMATS := {"docx", "pptx", "zip"}

  /** The scanner a format asks for when the bytes are not a zip archive. */
  function FormatLeaf(format: string): Option<Leaf> {
    if format in TEXT_FORMATS then Some(Text)
    else if format == "pdf" then Some(Pdf)
    else if format == "png" then Some(Png)
    else if format in {"jpeg", "jpg"} then Some(Jpeg)
    else None
  }

  predicate ExportAcceptable(lib: Library, lim: Limits, content: Bytes, format: string) {
    && 0 < |content| <= lim.scanBytes
    && if IsZip(content) then Acceptable(lib, lim, Unfold(lib, content, lim.depth))
       else FormatLeaf(format).Some? && lib.leafOk(FormatLeaf(format).value, content)
  }

  /** Scan the exact generated bytes. `format` is trimmed, lower-cased and
      without leading dots. Reads stay within the limits on every path. */
  method ScanGeneratedExport(lib: Library, lim: Limits, content: Bytes, format: string)
    returns (v: Verdict, ghost readCount: nat, ghost bytesRead: nat)
    ensures v == Accept <==> ExportAcceptable(lib, lim, content, format)
    ensures content == [] ==> v == Reject(Empty)
    ensures |content| > lim.scanBytes && content != [] ==> v == Reject(ScanSize)
    ensures readCount == 0 || readCount <= lim.members
    ensures bytesRead == 0 || bytesRead <= lim.scanBytes
    ensures v.Reject? && 0 < |content| <= lim.scanBytes && IsZip(content) ==>
              Evidence(lib, lim, Unfold(lib, content, lim.depth), 0, 0, v.error)
    ensures v.Reject? && 0 < |content| <= lim.scanBytes && !IsZip(content) ==>
              v.error == if format in ARCHIVE_FORMATS then InvalidArchive
                         else if FormatLeaf(format).Some? then LeafRejected
                         else BinaryUnavailable
  {
    readCount, bytesRead := 0, 0;
    if content == [] {
      return Reject(Empty), 0, 0;
    }
    if |content| > lim.scanBytes {
      return Reject(ScanSize), 0, 0;
    }
    if IsZip(content) {
      var budget := new Budget();
      v := ScanArchive(lib, lim, content, 0, budget);
      readCount, bytesRead := budget.readCount, budget.bytesRead;
      return;
    }
    if format in ARCHIVE_FORMATS {
      return Reject(InvalidArchive), 0, 0;
    }
    match FormatLeaf(format)
    case None => v := Reject(BinaryUnavailable);
    case Some(leaf) => v := if lib.leafOk(leaf, content) then Accept else Reject(LeafRejected);
  }

  /** An archive that lists itself is rejected at every depth limit. */
  lemma SelfContainingRejected(lib: Library, lim: Limits, content: Bytes, levels: int)
    requires lib.open(content).Some?
    requires exists m :: m in lib.open(content).value && IsNestedArchive(m) && m.data.value == content
    ensures !Acceptable(lib, lim, Unfold(lib, content, levels))
  {
    if levels >= 0 {
      var members := lib.open(content).value;
      var k :| 0 <= k < |members| && IsNestedArchive(members[k]) && members[k].data.value == content;
      SelfNestingIsDeep(lib, content, levels, k);
    }
  }

  lemma {:induction false} SelfNestingIsDeep(lib: Library, content: Bytes, levels: int, k: nat)
    requires lib.open(content).Some? && k < |lib.open(content).value|
    requires IsNestedArchive(lib.open(content).value[k]) && lib.open(content).value[k].data.value == content
    ensures !WellNested(Unfold(lib, content, levels))
    decreases if levels < 0 then 0 else levels + 1
  {
    if levels >= 0 {
      SelfNestingIsDeep(lib, content, levels - 1, k);
      var t := Unfold(lib, content, levels);
      var m := lib.open(content).value[k];
      assert t.children[k] == UnfoldMember(lib, m, levels - 1) == Unfold(lib, content, levels - 1);
    }
  }

  // ---- Acceptance in plain terms ---------------------------------------------

  predicate IsFile(m: Member) {
    m.filename == "" || m.filename[|m.filename| - 1] != '/'
  }

  /** What a file takes up in its archive, one byte at least. */
  function PackedSize(m: Member): nat {
    if m.compressSize > 1 then m.compressSize else 1
  }

  function Packed(members: seq<Member>): nat {
    if members == [] then 0
    else
      var n := |members| - 1;
      Packed(members[..n]) + if IsFile(members[n]) then PackedSize(members[n]) else 0
  }

  /** What is asked of one member, spelled out in names, sizes and bytes. */
  lemma MemberInPlain(lib: Library, lim: Limits, m: Member)
    ensures LocallyOk(lib, lim, m) <==>
              && CheckMemberName(m.filename) == Safe && !m.encrypted
              && (IsFile(m) ==>
                    && m.fileSize <= lim.memberBytes && m.fileSize <= lim.ratio * PackedSize(m)
                    && m.data.Some?
                    && ([0x50, 0x4B, 0x03, 0x04] <= m.data.value || LeafMemberOk(lib, m.filename, m.data.value)))
  {
    hide LeafMemberOk, CheckMemberName;
    assert lim.ratio * PackedSize(m) == PackedSize(m) * lim.ratio;
  }

  /** No archive of the tree is too deep, broken or lists a name twice, slashes
      and backslashes being alike. */
  ghost predicate EveryArchiveIsFine(t: Tree) {
    forall node :: Reaches(t, node) ==> node != TooDeep && node != Broken && NamesDiffer(node)
  }

  predicate NamesDiffer(node: Tree) {
    node.Archive? ==>
      forall i, j :: 0 <= i < j < |node.members| ==>
        Normalized(node.members[i].filename) != Normalized(node.members[j].filename)
  }

  lemma {:induction false} EveryArchiveIff(t: Tree)
    ensures EveryArchiveIsFine(t) <==> WellNested(t) && NamesDistinct(t)
  {
    match t
    case Archive(members, children) =>
      forall k | 0 <= k < |children|
        ensures EveryArchiveIsFine(children[k]) <==> WellNested(children[k]) && NamesDistinct(children[k])
      {
        EveryArchiveIff(children[k]);
      }
      hide Normalized;
      NamesDifferIff(t);
      if EveryArchiveIsFine(t) {
        assert Reaches(t, t);
        forall k | 0 <= k < |children| ensures EveryArchiveIsFine(children[k]) {
          forall node | Reaches(children[k], node) ensures node != TooDeep && node != Broken && NamesDiffer(node) {
            assert Reaches(t, node);
          }
        }
      }
      if WellNested(t) && NamesDistinct(t) {
        forall node | Reaches(t, node) ensures node != TooDeep && node != Broken && NamesDiffer(node) {
          if node != t {
            var k :| 0 <= k < |children| && Reaches(children[k], node);
            assert EveryArchiveIsFine(children[k]);
          }
        }
      }
    case _ =>
      assert Reaches(t, t);
  }

  lemma NamesDifferIff(node: Tree)
    ensures NamesDiffer(node) <==> (node.Archive? ==> Distinct(NormalizedNames(node.members)))
  {
    hide Normalized;
    if node.Archive? {
      var names := NormalizedNames(node.members);
      assert forall i :: 0 <= i < |names| ==> names[i] == Normalized(node.members[i].filename);
    }
  }

  /** Acceptance, counted out: every archive of the tree is fine, every member
      anywhere in it is as `MemberInPlain` says, and there are at most as many
      members, and of all files together at most as many bytes, as allowed. */
  lemma AcceptableIff(lib: Library, lim: Limits, t: Tree)
    ensures Acceptable(lib, lim, t) <==>
              && EveryArchiveIsFine(t)
              && (forall m :: m in AllMembers(t) ==> LocallyOk(lib, lim, m))
              && !(|AllMembers(t)| > lim.members) && !(Expanded(AllMembers(t)) > lim.scanBytes)
  {
    hide EveryArchiveIsFine, LocallyOk;
    EveryArchiveIff(t);
  }

  /** An accepted archive expands to at most the allowed ratio times what it
      takes up, over all nested archives together, and so does every file in it. */
  lemma AcceptedIsCompact(lib: Library, lim: Limits, t: Tree)
    requires Acceptable(lib, lim, t)
    ensures forall m :: m in AllMembers(t) && IsFile(m) ==> m.fileSize <= lim.ratio * PackedSize(m)
    ensures 0 <= lim.ratio ==> Expanded(AllMembers(t)) <= lim.ratio * Packed(AllMembers(t))
  {
    hide LocallyOk;
    forall m | m in AllMembers(t) && IsFile(m) ensures m.fileSize <= lim.ratio * PackedSize(m) {
      MemberInPlain(lib, lim, m);
    }
    if 0 <= lim.ratio {
      ExpandedWithinPacked(AllMembers(t), lim.ratio);
    }
  }

  lemma {:induction false} ExpandedWithinPacked(members: seq<Member>, ratio: nat)
    requires forall m :: m in members && IsFile(m) ==> m.fileSize <= ratio * PackedSize(m)
    ensures Expanded(members) <= ratio * Packed(members)
  {
    hide PackedSize;
    if members != [] {
      var n := |members| - 1;
      var m := members[n];
      assert m in members;
      ExpandedWithinPacked(members[..n], ratio);
      var file := if IsFile(m) then PackedSize(m) else 0;
      assert ratio * (Packed(members[..n]) + file) == ratio * Packed(members[..n]) + ratio * file;
    }
  }

  /** A scan rejects for the ratio only with a file above it to show. */
  lemma BombIff(lib: Library, lim: Limits, t: Tree, members0: int, bytes0: int)
    ensures Evidence(lib, lim, t, members0, bytes0, Bomb) <==>
              exists m :: m in AllMembers(t) && IsFile(m) && m.fileSize > lim.ratio * PackedSize(m)
  {
    forall m: Member ensures RatioOk(m, lim) <==> m.fileSize <= lim.ratio * PackedSize(m) {
      assert lim.ratio * PackedSize(m) == PackedSize(m) * lim.ratio;
    }
  }

  /** So an accepted export that is an archive, whatever its format is called,
      expands to at most the allowed ratio times what its files take up. */
  lemma AcceptedExportIsCompact(lib: Library, lim: Limits, content: Bytes, format: string)
    requires ExportAcceptable(lib, lim, content, format) && [0x50, 0x4B, 0x03, 0x04] <= content
    ensures var members := AllMembers(Unfold(lib, content, lim.depth));
            && (forall m :: m in members && IsFile(m) ==> m.fileSize <= lim.ratio * PackedSize(m))
            && (0 <= lim.ratio ==> Expanded(members) <= lim.ratio * Packed(members))
  {
    hide Acceptable, AllMembers, Expanded, Packed;
    AcceptedIsCompact(lib, lim, Unfold(lib, content, lim.depth));
  }

  /** By its first bytes or its suffix, in this order, a member that is no archive
      goes to the scanner of a PDF, of an image, or of text. */
  function LeafOf(suffix: string, name: string, content: Bytes): Option<Leaf> {
    if [0x25, 0x50, 0x44, 0x46, 0x2D] <= content || suffix == ".pdf" then Some(Pdf)
    else if [0x89, 0x50, 0x4E, 0x47, 0x0D, 0x0A, 0x1A, 0x0A] <= content || suffix == ".png" then Some(Png)
    else if [0xFF, 0xD8, 0xFF] <= content || suffix == ".jpg" || suffix == ".jpeg" then Some(Jpeg)
    else if suffix in {".bicep", ".csv", ".drawio", ".hcl", ".html", ".json", ".md", ".rels", ".svg",
                       ".terraform", ".tf", ".txt", ".vdx", ".xml"}
            || name == "[Content_Types].xml" || name == "_rels/.rels" then Some(Text)
    else None
  }

  ghost predicate HoldsSettings(lib: Library, content: Bytes) {
    exists i: nat :: FirstAt(content, [0x3C, 0x3F, 0x78, 0x6D, 0x6C], i) && lib.leafOk(Text, content[i..])
  }

  /** What no scanner takes gets through only as printer settings whose text, from
      its first XML declaration on, is accepted. */
  lemma LeafInPlain(lib: Library, name: string, content: Bytes)
    ensures LeafMemberOk(lib, name, content) <==>
              match LeafOf(lib.suffix(name), name, content)
              case Some(leaf) => lib.leafOk(leaf, content)
              case None =>
                "ppt/printerSettings/" <= name && lib.suffix(name) == ".bin" && HoldsSettings(lib, content)
  {
    hide Find, FirstAt;
    SettingsIff(lib, content);
  }

  lemma SettingsIff(lib: Library, content: Bytes)
    ensures HoldsSettings(lib, content) <==>
              var i := Find(content, [0x3C, 0x3F, 0x78, 0x6D, 0x6C]);
              0 <= i && PrinterSettingsOk(lib, content, i)
  {
    FindIsFirst(content, [0x3C, 0x3F, 0x78, 0x6D, 0x6C]);
    var i := Find(content, [0x3C, 0x3F, 0x78, 0x6D, 0x6C]);
    assert 0 <= i ==> FirstAt(content, [0x3C, 0x3F, 0x78, 0x6D, 0x6C], i);
  }

  /** The first position at which a byte string occurs. */
  predicate FirstAt(content: Bytes, needle: Bytes, i: nat) {
    && i <= |content| && needle <= content[i..]
    && forall j :: 0 <= j < i ==> !(needle <= content[j..])
  }

  lemma {:induction false} FindIsFirst(content: Bytes, needle: Bytes)
    ensures forall i: nat :: FirstAt(content, needle, i) <==> Find(content, needle) == i
  {
    assert content[0..] == content;
    if !(needle <= content) && content != [] {
      FindIsFirst(content[1..], needle);
      forall i: nat ensures FirstAt(content, needle, i) <==> Find(content, needle) == i {
        if i > 0 {
          FirstAtTail(content, needle, i);
        }
      }
    }
  }

  lemma FirstAtTail(content: Bytes, needle: Bytes, i: nat)
    requires 0 < i && content != [] && !(needle <= content)
    ensures FirstAt(content, needle, i) <==> FirstAt(content[1..], needle, i - 1)
  {
    assert content[0..] == content;
    assert forall j :: 0 <= j < |content| ==> content[1..][j..] == content[j + 1..];
    if FirstAt(content[1..], needle, i - 1) {
      forall j | 0 <= j < i ensures !(needle <= content[j..]) {
        assert j > 0 ==> content[1..][j - 1..] == content[j..];
      }
    }
    if FirstAt(content, needle, i) {
      forall j | 0 <= j < i - 1 ensures !(needle <= content[1..][j..]) {
        assert content[1..][j..] == content[j + 1..];
      }
    }
  }

  /** Which scanner a format asks for. */
  lemma FormatInPlain(format: string)
    ensures FormatLeaf(format) ==
            if format in {"bicep", "csv", "drawio", "excalidraw", "hcl", "html", "json", "landing-zone-svg", "md",
                          "markdown", "svg", "terraform", "text", "txt", "vdx", "vsdx", "xml"} then Some(Text)
            else if format == "pdf" then Some(Pdf)
            else if format == "png" then Some(Png)
            else if format == "jpg" || format == "jpeg" then Some(Jpeg)
            else None
    ensures format in ARCHIVE_FORMATS <==> format in {"docx", "pptx", "zip"}
  {
  }
}
