/** Persistence of one generated export: a blob upload and a database row, with
    compensation when the row cannot be created. */
module ExportPersistence {
  import opened Text
  import opened BlobReference

  type Bytes = seq<int>

  datatype RowKey = RowKey(scope: Scope, segments: Segments)

  /** Deployment settings and the functions of other modules: the reference
      builder and parser, the hash, the UTF-8 test and the scanner. */
  datatype Config = Config(
    build: RowKey -> Option<Reference>,
    parse: (string, Scope) -> Option<Reference>,
    contentHash: Bytes -> string,
    isUtf8: Bytes -> bool,
    scanOk: Bytes -> bool,
    inlineLimit: int)

  /** What persistence needs of references: a blob name determines the content
      hash, and a built reference parses back to itself in its own scope or,
      with an unusable container name, not at all. */
  ghost predicate Lawful(c: Config) {
    && (forall k1, k2 ::
          c.build(k1).Some? && c.build(k2).Some? && c.build(k1).value.blobName == c.build(k2).value.blobName ==>
            k1.segments.contentHash == k2.segments.contentHash)
    && (forall k ::
          c.build(k).Some? ==> c.parse(c.build(k).value.uri, k.scope) in {None, c.build(k)})
  }

  ghost predicate Readable(c: Config) {
    forall k :: c.build(k).Some? ==> c.parse(c.build(k).value.uri, k.scope).Some?
  }

  /** The application's own builder and parser meet this. */
  lemma ReferencesAreLawful(c: Config, container: string, netlocOk: string -> bool, h: ScopeHash)
    requires Digests(h)
    requires forall k: RowKey :: c.build(k) == Build(container, h, k.scope, k.segments)
    requires forall uri, scope :: c.parse(uri, scope) == Parse(uri, container, netlocOk, h, scope)
    ensures Lawful(c) && (ContainerOk(container, netlocOk) ==> Readable(c))
  {
    forall k1, k2 | c.build(k1).Some? && c.build(k2).Some? && c.build(k1).value.blobName == c.build(k2).value.blobName
      ensures k1.segments.contentHash == k2.segments.contentHash
    {
      BlobNameInjective(container, h, k1.scope, k1.segments, k2.scope, k2.segments);
    }
    forall k | c.build(k).Some?
      ensures c.parse(c.build(k).value.uri, k.scope) == if ContainerOk(container, netlocOk) then c.build(k) else None
    {
      RoundTrip(container, netlocOk, h, k.scope, k.segments);
    }
  }

  /** An export request against the current version of a stored analysis. */
  datatype Request = Request(
    scope: Scope, analysisId: string, versionId: string, artifactType: string,
    payload: Bytes, forceBlob: bool, publicSession: bool)

  datatype Row = Row(key: RowKey, storageUrl: Option<string>, inline: Option<Bytes>, size: nat)

  /** How one remote call ends. `FailsAfter` raises although the effect took place. */
  datatype Effect = Completes | FailsBefore | FailsAfter

  /** The exception class a failing call raises. */
  datatype Cause = Denied | ValueFault | Other

  datatype Lookup = Found | LookupFails(cause: Cause)

  datatype Faults = Faults(
    version: Lookup, find: Lookup, upload: Effect, uploadCause: Cause, create: Effect, createCause: Cause,
    delete: Effect, confirm: Effect)

  datatype Outcome =
    | Persisted(key: RowKey, size: nat)
    | NotPersisted
    | ScanRejected
    | VersionRequired
    | NotFound
    | CleanupPending
    | Raised

  datatype State = State(blobs: map<string, Bytes>, rows: seq<Row>, reported: set<string>)

  function KeyOf(c: Config, q: Request): RowKey {
    RowKey(q.scope, Segments(q.analysisId, q.versionId, q.artifactType, c.contentHash(q.payload)))
  }

  predicate HasRow(rows: seq<Row>, key: RowKey) {
    exists i :: 0 <= i < |rows| && rows[i].key == key
  }

  predicate NeedsBlob(c: Config, q: Request) {
    q.forceBlob || !c.isUtf8(q.payload) || |q.payload| > c.inlineLimit
  }

  /** The handlers around the whole persistence block. */
  function Handled(cause: Cause, publicSession: bool): Outcome {
    match cause
    case Denied => NotFound
    case ValueFault => if publicSession then NotPersisted else VersionRequired
    case Other => Raised
  }

  // ---- The operation ------------------------------------------------------------------

  class ArtifactStore {
    var blobs: map<string, Bytes>
    var rows: seq<Row>
    /** Names of blobs for which a call has reported that cleanup is pending. */
    ghost var reported: set<string>

    constructor ()
      ensures Value() == State(map[], [], {})
    {
      blobs, rows, reported := map[], [], {};
    }

    ghost function Value(): State
      reads this
    {
      State(blobs, rows, reported)
    }

    /** `upload_blob` without overwriting; `clash` is the resource-exists error. */
    method Upload(name: string, content: Bytes, effect: Effect) returns (raised: bool, clash: bool)
      modifies this
      ensures clash == (effect == Completes && name in old(blobs))
      ensures raised == (effect != Completes || name in old(blobs))
      ensures Value() == State(AfterUpload(old(blobs), name, content, effect), old(rows), old(reported))
    {
      clash := effect == Completes && name in blobs;
      raised := effect != Completes || name in blobs;
      if effect != FailsBefore && name !in blobs {
        blobs := blobs[name := content];
      }
    }

    /** Delete, then confirm absence; a blob that is not there is no error, and
        `deleted` tells whether there was one. Without an error the blob is gone. */
    method DeleteArtifactBlob(c: Config, uri: string, scope: Scope, delete: Effect, confirm: Effect)
      returns (raised: bool, deleted: bool)
      modifies this
      ensures var r := c.parse(uri, scope);
              && raised == (r.None? || delete != Completes || confirm != Completes)
              && (!raised ==> deleted == (r.value.blobName in old(blobs)) && r.value.blobName !in blobs)
              && Value() == State(AfterDelete(old(blobs), r, delete), old(rows), old(reported))
    {
      var r := c.parse(uri, scope);
      if r == None {
        return true, false;
      }
      deleted := r.value.blobName in blobs;
      if delete != FailsBefore {
        blobs := blobs - {r.value.blobName};
      }
      if delete != Completes {
        return true, false;
      }
      raised := confirm != Completes || r.value.blobName in blobs;
    }

    /** Insert the row unless the key has one; the insert may fail on either side of the commit. */
    method CreateRow(row: Row, effect: Effect) returns (raised: bool)
      modifies this
      ensures raised == (effect != Completes)
      ensures Value() == State(old(blobs), AfterCreate(old(rows), row, effect), old(reported))
    {
      if effect != FailsBefore && !HasRow(rows, row.key) {
        rows := rows + [row];
      }
      return effect != Completes;
    }

    method Persist(c: Config, q: Request, f: Faults) returns (out: Outcome)
      modifies this
      ensures (Value(), out) == Step(c, q, f, old(Value()))
    {
      if !c.scanOk(q.payload) {
        return ScanRejected;
      }
      if f.version.LookupFails? {
        return Handled(f.version.cause, q.publicSession);
      }
      var key := KeyOf(c, q);
      if f.find.LookupFails? {
        return Handled(f.find.cause, q.publicSession);
      }
      if HasRow(rows, key) {
        return Existing(rows, key);
      }
      var storageUrl: Option<string> := None;
      var uploadedNewBlob := false;
      if NeedsBlob(c, q) {
        var reference := c.build(key);
        if reference == None {
          return Handled(ValueFault, q.publicSession);
        }
        var raised, clash := Upload(reference.value.blobName, q.payload, f.upload);
        if raised && !clash {
          return Handled(f.uploadCause, q.publicSession);
        }
        uploadedNewBlob := !raised;
        storageUrl := Some(reference.value.uri);
      }
      var row := Row(key, storageUrl, if storageUrl == None then Some(q.payload) else None, |q.payload|);
      var raised := CreateRow(row, f.create);
      if raised {
        if uploadedNewBlob && storageUrl != None {
          var failed, _ := DeleteArtifactBlob(c, storageUrl.value, q.scope, f.delete, f.confirm);
          if failed {
            reported := reported + {c.build(key).value.blobName};
            return CleanupPending;
          }
        }
        return Handled(f.createCause, q.publicSession);
      }
      return Persisted(key, |q.payload|);
    }
  }

  // ---- The same call as a function of the stored state ----------------------------------

  function AfterUpload(blobs: map<string, Bytes>, name: string, content: Bytes, effect: Effect): map<string, Bytes> {
    if effect == FailsBefore || name in blobs then blobs else blobs[name := content]
  }

  function AfterDelete(blobs: map<string, Bytes>, r: Option<Reference>, delete: Effect): map<string, Bytes> {
    if r.None? || delete == FailsBefore then blobs else blobs - {r.value.blobName}
  }

  function AfterCreate(rows: seq<Row>, row: Row, effect: Effect): seq<Row> {
    if effect == FailsBefore || HasRow(rows, row.key) then rows else rows + [row]
  }

  function Existing(rows: seq<Row>, key: RowKey): Outcome
    requires HasRow(rows, key)
  {
    if rows[0].key == key then Persisted(key, rows[0].size) else Existing(rows[1..], key)
  }

  predicate Ready(c: Config, q: Request, f: Faults, s: State) {
    && c.scanOk(q.payload) && f.version == Found && f.find == Found
    && !HasRow(s.rows, KeyOf(c, q))
  }

  function Step(c: Config, q: Request, f: Faults, s: State): (State, Outcome) {
    var key := KeyOf(c, q);
    if !c.scanOk(q.payload) then (s, ScanRejected)
    else if f.version.LookupFails? then (s, Handled(f.version.cause, q.publicSession))
    else if f.find.LookupFails? then (s, Handled(f.find.cause, q.publicSession))
    else if HasRow(s.rows, key) then (s, Existing(s.rows, key))
    else if NeedsBlob(c, q) then StepWithBlob(c, q, f, s)
    else
      var row := Row(key, None, Some(q.payload), |q.payload|);
      (s.(rows := AfterCreate(s.rows, row, f.create)),
       if f.create == Completes then Persisted(key, |q.payload|) else Handled(f.createCause, q.publicSession))
  }

  function StepWithBlob(c: Config, q: Request, f: Faults, s: State): (State, Outcome) {
    var key := KeyOf(c, q);
    match c.build(key)
    case None => (s, Handled(ValueFault, q.publicSession))
    case Some(r) =>
      var adopted := r.blobName in s.blobs && f.upload == Completes;
      var uploaded := AfterUpload(s.blobs, r.blobName, q.payload, f.upload);
      if f.upload != Completes then (s.(blobs := uploaded), Handled(f.uploadCause, q.publicSession))
      else
        var row := Row(key, Some(r.uri), None, |q.payload|);
        var created := s.(blobs := uploaded, rows := AfterCreate(s.rows, row, f.create));
        if f.create == Completes then (created, Persisted(key, |q.payload|))
        else if adopted then (created, Handled(f.createCause, q.publicSession))
        else
          var parsed := c.parse(r.uri, q.scope);
          var cleaned := created.(blobs := AfterDelete(uploaded, parsed, f.delete));
          if parsed.Some? && f.delete == Completes && f.confirm == Completes
          then (cleaned, Handled(f.createCause, q.publicSession))
          else (cleaned.(reported := s.reported + {r.blobName}), CleanupPending)
  }

  // ---- What the store should look like -----------------------------------------------------

  predicate KeysDistinct(rows: seq<Row>) {
    forall i, j :: 0 <= i < j < |rows| ==> rows[i].key != rows[j].key
  }

  /** A row that points to a blob has it, under the name built from its key. */
  predicate Backed(c: Config, blobs: map<string, Bytes>, row: Row) {
    row.storageUrl.Some? ==>
      var r := c.build(row.key);
      && r.Some? && row.storageUrl == Some(r.value.uri)
      && r.value.blobName in blobs
  }

  predicate AllBacked(c: Config, s: State) {
    forall i :: 0 <= i < |s.rows| ==> Backed(c, s.blobs, s.rows[i])
  }

  /** The bytes of every stored blob have the content hash its name ends with. */
  ghost predicate Hashed(c: Config, s: State) {
    forall key :: c.build(key).Some? && c.build(key).value.blobName in s.blobs ==>
                    c.contentHash(s.blobs[c.build(key).value.blobName]) == key.segments.contentHash
  }

  predicate Owns(c: Config, row: Row, name: string) {
    row.storageUrl.Some? && c.build(row.key).Some? && c.build(row.key).value.blobName == name
  }

  predicate Owned(c: Config, s: State, name: string) {
    exists i :: 0 <= i < |s.rows| && Owns(c, s.rows[i], name)
  }

  /** Every blob without a row has been reported as pending cleanup. */
  predicate OrphansReported(c: Config, s: State) {
    forall name :: name in s.blobs && !Owned(c, s, name) ==> name in s.reported
  }

  ghost predicate Consistent(c: Config, s: State) {
    KeysDistinct(s.rows) && AllBacked(c, s) && Hashed(c, s) && OrphansReported(c, s)
  }

  /** The call would upload a blob that is not there yet. */
  predicate UploadsNew(c: Config, q: Request, f: Faults, s: State) {
    && Ready(c, q, f, s) && NeedsBlob(c, q)
    && c.build(KeyOf(c, q)).Some?
    && c.build(KeyOf(c, q)).value.blobName !in s.blobs
  }

  /** The compensation removes the blob of a row whose commit did go through. */
  predicate LosesCommittedBlob(c: Config, q: Request, f: Faults, s: State) {
    && UploadsNew(c, q, f, s)
    && f.upload == Completes && f.create == FailsAfter && f.delete != FailsBefore
    && c.parse(c.build(KeyOf(c, q)).value.uri, q.scope).Some?
  }

  /** The upload raises although the bytes were stored; nothing cleans them up. */
  predicate LeavesSilentOrphan(c: Config, q: Request, f: Faults, s: State) {
    UploadsNew(c, q, f, s) && f.upload == FailsAfter
  }

  // ---- Results ---------------------------------------------------------------------------------

  /** Whatever fails, earlier rows and all other blobs stay as they were, and at
      most one row with the key of the call is added. */
  lemma OnlyGrows(c: Config, q: Request, f: Faults, s: State)
    requires Lawful(c)
    ensures var s' := Step(c, q, f, s).0;
            && s.rows <= s'.rows && |s'.rows| <= |s.rows| + 1
            && (|s'.rows| > |s.rows| ==> s'.rows[|s.rows|].key == KeyOf(c, q))
            && s.reported <= s'.reported
            && forall name :: (c.build(KeyOf(c, q)).None? || name != c.build(KeyOf(c, q)).value.blobName) ==>
                 (name in s.blobs <==> name in s'.blobs) && (name in s.blobs ==> s.blobs[name] == s'.blobs[name])
  {
  }

  /** Whatever fails, keys stay unique and stored bytes keep matching their names. */
  lemma AlwaysKept(c: Config, q: Request, f: Faults, s: State)
    requires Lawful(c) && KeysDistinct(s.rows) && Hashed(c, s)
    ensures var s' := Step(c, q, f, s).0;
            KeysDistinct(s'.rows) && Hashed(c, s')
  {
    var key, s' := KeyOf(c, q), Step(c, q, f, s).0;
    OnlyGrows(c, q, f, s);
    if c.build(key).Some? {
      var own := c.build(key).value.blobName;
      forall k | c.build(k).Some? && c.build(k).value.blobName in s'.blobs
        ensures c.contentHash(s'.blobs[c.build(k).value.blobName]) == k.segments.contentHash
      {
        if c.build(k).value.blobName == own {
          assert k.segments.contentHash == key.segments.contentHash;
        }
      }
    }
  }

  /** After any single failure pattern, every committed row still has its blob,
      unless the row was committed, its creation raised all the same, and the
      compensation then deleted the blob. */
  lemma RowsKeepTheirBlobsIff(c: Config, q: Request, f: Faults, s: State)
    requires Lawful(c) && AllBacked(c, s)
    ensures AllBacked(c, Step(c, q, f, s).0) <==> !LosesCommittedBlob(c, q, f, s)
  {
    var key, s' := KeyOf(c, q), Step(c, q, f, s).0;
    if Ready(c, q, f, s) && NeedsBlob(c, q) && c.build(key).Some? {
      var own := c.build(key).value.blobName;
      if own !in s.blobs {
        NobodyElseUses(c, s, own);
      }
      if LosesCommittedBlob(c, q, f, s) {
        assert s'.rows[|s.rows|].key == key && own !in s'.blobs;
        assert !Backed(c, s'.blobs, s'.rows[|s.rows|]);
      } else {
        forall i | 0 <= i < |s'.rows| ensures Backed(c, s'.blobs, s'.rows[i]) {
          if i < |s.rows| {
            assert Backed(c, s.blobs, s.rows[i]) && s'.rows[i] == s.rows[i];
          }
        }
      }
    } else {
      forall i | 0 <= i < |s'.rows| ensures Backed(c, s'.blobs, s'.rows[i]) {
        if i < |s.rows| {
          assert Backed(c, s.blobs, s.rows[i]) && s'.rows[i] == s.rows[i];
        }
      }
    }
  }

  lemma NobodyElseUses(c: Config, s: State, name: string)
    requires AllBacked(c, s) && name !in s.blobs
    ensures !Owned(c, s, name)
  {
    forall i | 0 <= i < |s.rows| ensures !Owns(c, s.rows[i], name) {
      assert Backed(c, s.blobs, s.rows[i]);
    }
  }

  lemma OwnedStays(c: Config, s: State, s': State, name: string)
    requires s.rows <= s'.rows && Owned(c, s, name)
    ensures Owned(c, s', name)
  {
    var i :| 0 <= i < |s.rows| && Owns(c, s.rows[i], name);
    assert s'.rows[i] == s.rows[i];
  }

  /** A blob without a row stays behind only when a call has said so, unless an
      upload raised after the bytes were stored; even that goes unnoticed only
      if no row owns the name and no call has reported it before. */
  lemma OrphansAreReportedIff(c: Config, q: Request, f: Faults, s: State)
    requires Lawful(c) && OrphansReported(c, s)
    ensures OrphansReported(c, Step(c, q, f, s).0) <==>
              LeavesSilentOrphan(c, q, f, s) ==> OwnName(c, q) in s.reported || Owned(c, s, OwnName(c, q))
  {
    var key, s' := KeyOf(c, q), Step(c, q, f, s).0;
    OnlyGrows(c, q, f, s);
    if c.build(key).Some? {
      var own := c.build(key).value.blobName;
      if LeavesSilentOrphan(c, q, f, s) {
        assert own in s'.blobs && s'.rows == s.rows && s'.reported == s.reported;
      }
      forall name | name in s'.blobs && !Owned(c, s', name) && name != own ensures name in s'.reported {
        if Owned(c, s, name) {
          OwnedStays(c, s, s', name);
        }
      }
      if !LeavesSilentOrphan(c, q, f, s) && own in s'.blobs && !Owned(c, s', own) {
        OwnBlobReported(c, q, f, s);
      }
    } else {
      forall name | name in s'.blobs && !Owned(c, s', name) ensures name in s'.reported {
        if Owned(c, s, name) {
          OwnedStays(c, s, s', name);
        }
      }
    }
  }

  function OwnName(c: Config, q: Request): string {
    var r := c.build(KeyOf(c, q));
    if r.Some? then r.value.blobName else ""
  }

  lemma OwnBlobReported(c: Config, q: Request, f: Faults, s: State)
    requires Lawful(c) && OrphansReported(c, s) && c.build(KeyOf(c, q)).Some?
    requires !LeavesSilentOrphan(c, q, f, s)
    requires var s' := Step(c, q, f, s).0; OwnName(c, q) in s'.blobs && !Owned(c, s', OwnName(c, q))
    ensures OwnName(c, q) in Step(c, q, f, s).0.reported
  {
    var s', own := Step(c, q, f, s).0, OwnName(c, q);
    OnlyGrows(c, q, f, s);
    if Owned(c, s, own) {
      OwnedStays(c, s, s', own);
    }
    assert |s'.rows| > |s.rows| ==> !Owns(c, s'.rows[|s.rows|], own);
  }

  /** One call of a run with what fails in it. */
  datatype Call = Call(request: Request, faults: Faults)

  function Run(c: Config, calls: seq<Call>): State {
    if calls == [] then State(map[], [], {})
    else Step(c, calls[|calls| - 1].request, calls[|calls| - 1].faults, Run(c, calls[..|calls| - 1])).0
  }

  /** Over every sequential run, with failures at any call, keys stay unique and
      stored bytes match their names. */
  lemma {:induction false} RunsKeepHashes(c: Config, calls: seq<Call>)
    requires Lawful(c)
    ensures KeysDistinct(Run(c, calls).rows) && Hashed(c, Run(c, calls))
  {
    if calls != [] {
      var n := |calls| - 1;
      RunsKeepHashes(c, calls[..n]);
      AlwaysKept(c, calls[n].request, calls[n].faults, Run(c, calls[..n]));
    }
  }

  /** Some call of the run compensates a row that was committed. */
  predicate SomeCallLosesBlob(c: Config, calls: seq<Call>) {
    calls != [] &&
    var n := |calls| - 1;
    SomeCallLosesBlob(c, calls[..n]) || LosesCommittedBlob(c, calls[n].request, calls[n].faults, Run(c, calls[..n]))
  }

  /** At every point of the run each committed row has its blob. */
  predicate RowsAlwaysBacked(c: Config, calls: seq<Call>) {
    AllBacked(c, Run(c, calls)) && (calls != [] ==> RowsAlwaysBacked(c, calls[..|calls| - 1]))
  }

  /** The row guarantee: over every sequential run, whatever else fails and
      whatever orphans there are, each committed row has its blob at every point
      if and only if no call compensates a row that was committed. */
  lemma {:induction false} RowsKeptIff(c: Config, calls: seq<Call>)
    requires Lawful(c)
    ensures RowsAlwaysBacked(c, calls) <==> !SomeCallLosesBlob(c, calls)
  {
    if calls != [] {
      var n := |calls| - 1;
      RowsKeptIff(c, calls[..n]);
      if RowsAlwaysBacked(c, calls[..n]) {
        RowsKeepTheirBlobsIff(c, calls[n].request, calls[n].faults, Run(c, calls[..n]));
      }
    }
  }

  /** A call of the run leaves an orphan that no row owns and no call has reported. */
  predicate GoesUnnoticed(c: Config, call: Call, s: State) {
    && LeavesSilentOrphan(c, call.request, call.faults, s)
    && OwnName(c, call.request) !in s.reported && !Owned(c, s, OwnName(c, call.request))
  }

  predicate SomeOrphanUnnoticed(c: Config, calls: seq<Call>) {
    calls != [] &&
    var n := |calls| - 1;
    SomeOrphanUnnoticed(c, calls[..n]) || GoesUnnoticed(c, calls[n], Run(c, calls[..n]))
  }

  predicate OrphansAlwaysReported(c: Config, calls: seq<Call>) {
    OrphansReported(c, Run(c, calls)) && (calls != [] ==> OrphansAlwaysReported(c, calls[..|calls| - 1]))
  }

  /** The orphan guarantee: over every sequential run, whatever happens to rows,
      every blob without a row has been reported at every point if and only if no
      upload left an unnoticed orphan. */
  lemma {:induction false} OrphansReportedIff(c: Config, calls: seq<Call>)
    requires Lawful(c)
    ensures OrphansAlwaysReported(c, calls) <==> !SomeOrphanUnnoticed(c, calls)
  {
    if calls != [] {
      var n := |calls| - 1;
      OrphansReportedIff(c, calls[..n]);
      if OrphansAlwaysReported(c, calls[..n]) {
        OrphansAreReportedIff(c, calls[n].request, calls[n].faults, Run(c, calls[..n]));
      }
    }
  }

  /** No call of the run hits one of the two unprotected windows. */
  predicate WindowsMissed(c: Config, calls: seq<Call>) {
    !SomeCallLosesBlob(c, calls) && !SomeOrphanUnnoticed(c, calls)
  }

  /** Over every sequential run that misses both windows, with failures anywhere
      else, rows and blobs agree and every orphan was reported. */
  lemma RunsStayConsistent(c: Config, calls: seq<Call>)
    requires Lawful(c) && WindowsMissed(c, calls)
    ensures Consistent(c, Run(c, calls))
  {
    RunsKeepHashes(c, calls);
    RowsKeptIff(c, calls);
    OrphansReportedIff(c, calls);
  }

  const NO_FAULTS := Faults(Found, Found, Completes, Other, Completes, Other, Completes, Completes)

  /** A failure-free retry adopts any orphan, reported or not: the row appears, no
      byte moves, the blob is an orphan no longer, and rows that had their blobs
      keep them. */
  lemma RetryAdoptsOrphan(c: Config, q: Request, s: State)
    requires Lawful(c)
    requires c.scanOk(q.payload) && !HasRow(s.rows, KeyOf(c, q)) && NeedsBlob(c, q)
    requires c.build(KeyOf(c, q)).Some? && OwnName(c, q) in s.blobs
    ensures var (s', out) := Step(c, q, NO_FAULTS, s);
            && out == Persisted(KeyOf(c, q), |q.payload|)
            && s'.blobs == s.blobs && HasRow(s'.rows, KeyOf(c, q)) && Owned(c, s', OwnName(c, q))
            && (AllBacked(c, s) ==> AllBacked(c, s'))
            && (OrphansReported(c, s) ==> OrphansReported(c, s'))
            && (Consistent(c, s) ==> Consistent(c, s'))
  {
    var s' := Step(c, q, NO_FAULTS, s).0;
    assert s'.rows[|s.rows|].key == KeyOf(c, q);
    if AllBacked(c, s) {
      RowsKeepTheirBlobsIff(c, q, NO_FAULTS, s);
    }
    if OrphansReported(c, s) {
      OrphansAreReportedIff(c, q, NO_FAULTS, s);
    }
    if Consistent(c, s) {
      AlwaysKept(c, q, NO_FAULTS, s);
    }
  }

  lemma {:induction false} ExistingSize(rows: seq<Row>, key: RowKey, i: nat)
    requires KeysDistinct(rows) && i < |rows| && rows[i].key == key && HasRow(rows, key)
    ensures Existing(rows, key) == Persisted(key, rows[i].size)
  {
    if i > 0 {
      assert rows[1..][i - 1] == rows[i];
      ExistingSize(rows[1..], key, i - 1);
    }
  }

  /** Repeating a successful call changes nothing, whatever fails the second
      time, and without failures gives the same answer. */
  lemma RepeatIsIdempotent(c: Config, q: Request, f1: Faults, f2: Faults, s: State)
    requires Lawful(c) && KeysDistinct(s.rows) && Hashed(c, s)
    requires Step(c, q, f1, s).1.Persisted?
    ensures var (s', out) := Step(c, q, f1, s);
            Step(c, q, f2, s').0 == s' && Step(c, q, NO_FAULTS, s') == (s', out)
  {
    var key, s' := KeyOf(c, q), Step(c, q, f1, s).0;
    AlwaysKept(c, q, f1, s);
    if !HasRow(s.rows, key) {
      assert s'.rows[|s.rows|].key == key;
      ExistingSize(s'.rows, key, |s.rows|);
    }
  }

  // ---- One call in plain terms -----------------------------------------------------------------

  /** A call that is stopped by nothing before it looks for its row. */
  predicate Reaches(c: Config, q: Request, f: Faults) {
    c.scanOk(q.payload) && f.version == Found && f.find == Found
  }

  /** The key a request stands for. */
  function Asked(c: Config, q: Request): RowKey {
    RowKey(q.scope, Segments(q.analysisId, q.versionId, q.artifactType, c.contentHash(q.payload)))
  }

  /** Small text stays in the row unless the caller wants a blob. */
  predicate StaysInline(c: Config, q: Request) {
    !q.forceBlob && c.isUtf8(q.payload) && |q.payload| <= c.inlineLimit
  }

  /** The content has found its place and only the row is missing. */
  predicate ContentPlaced(c: Config, q: Request, f: Faults) {
    StaysInline(c, q) || (c.build(Asked(c, q)).Some? && f.upload == Completes)
  }

  predicate Known(rows: seq<Row>, key: RowKey) {
    exists i :: 0 <= i < |rows| && rows[i].key == key
  }

  /** The answer a failure gets from its cause. */
  predicate Answers(out: Outcome, cause: Cause, publicSession: bool) {
    && (out == NotFound <==> cause == Denied)
    && (out == NotPersisted <==> cause == ValueFault && publicSession)
    && (out == VersionRequired <==> cause == ValueFault && !publicSession)
    && (out == Raised <==> cause == Other)
  }

  /** The first thing that fails in a call without a known row and without
      pending cleanup. */
  function FirstCause(c: Config, q: Request, f: Faults): Cause {
    if f.version.LookupFails? then f.version.cause
    else if f.find.LookupFails? then f.find.cause
    else if !StaysInline(c, q) && c.build(Asked(c, q)) == None then ValueFault
    else if !StaysInline(c, q) && f.upload != Completes then f.uploadCause
    else f.createCause
  }

  /** The cleanup of a blob that this call has brought is called for and fails. */
  predicate CleanupFails(c: Config, q: Request, f: Faults, s: State) {
    && !StaysInline(c, q) && c.build(Asked(c, q)).Some? && f.upload == Completes && f.create != Completes
    && c.build(Asked(c, q)).value.blobName !in s.blobs
    && (|| c.parse(c.build(Asked(c, q)).value.uri, q.scope) == None
        || f.delete != Completes || f.confirm != Completes)
  }

  /** A payload the scanner refuses changes nothing; an export is persisted exactly
      when its row is known or its content is placed and its row created; cleanup
      is pending exactly when the blob this call brought could not be removed; and
      every other failure is answered by its cause. */
  lemma OutcomeIs(c: Config, q: Request, f: Faults, s: State)
    ensures var (s', out) := Step(c, q, f, s);
            var known := Known(s.rows, Asked(c, q));
            && (!c.scanOk(q.payload) ==> out == ScanRejected && s' == s)
            && (out == ScanRejected ==> !c.scanOk(q.payload))
            && (out.Persisted? <==> Reaches(c, q, f) && (known || (ContentPlaced(c, q, f) && f.create == Completes)))
            && (out.Persisted? ==> out.key == Asked(c, q) && (!known ==> out.size == |q.payload|))
            && (out == CleanupPending <==> Reaches(c, q, f) && !known && CleanupFails(c, q, f, s))
            && (out !in {ScanRejected, CleanupPending} && !out.Persisted? ==>
                  Answers(out, FirstCause(c, q, f), q.publicSession))
  {
    hide AfterUpload, AfterDelete, AfterCreate;
    assert HasRow(s.rows, KeyOf(c, q)) == Known(s.rows, Asked(c, q));
    if HasRow(s.rows, KeyOf(c, q)) {
      ExistingIsFirst(s.rows, KeyOf(c, q));
    }
  }

  lemma {:induction false} ExistingIsFirst(rows: seq<Row>, key: RowKey)
    requires HasRow(rows, key)
    ensures exists i :: && 0 <= i < |rows| && rows[i].key == key && Existing(rows, key) == Persisted(key, rows[i].size)
                        && forall j :: 0 <= j < i ==> rows[j].key != key
  {
    if rows[0].key != key {
      var k :| 0 <= k < |rows| && rows[k].key == key;
      assert rows[1..][k - 1].key == key;
      ExistingIsFirst(rows[1..], key);
      var i :| && 0 <= i < |rows[1..]| && rows[1..][i].key == key
               && Existing(rows[1..], key) == Persisted(key, rows[1..][i].size)
               && forall j :: 0 <= j < i ==> rows[1..][j].key != key;
      assert rows[i + 1] == rows[1..][i];
      forall j | 0 <= j < i + 1 ensures rows[j].key != key {
        assert j > 0 ==> rows[j] == rows[1..][j - 1];
      }
    }
  }

  /** A row is added exactly when the insert took place, acknowledged or not, and
      holds either the payload itself or the URI of its blob. */
  lemma NewRowIs(c: Config, q: Request, f: Faults, s: State)
    ensures var s' := Step(c, q, f, s).0;
            var adds :=
              Reaches(c, q, f) && !Known(s.rows, Asked(c, q)) && ContentPlaced(c, q, f) && f.create != FailsBefore;
            && (!adds ==> s'.rows == s.rows)
            && (adds && StaysInline(c, q) ==>
                  s'.rows == s.rows + [Row(Asked(c, q), None, Some(q.payload), |q.payload|)])
            && (adds && !StaysInline(c, q) ==>
                  s'.rows == s.rows + [Row(Asked(c, q), Some(c.build(Asked(c, q)).value.uri), None, |q.payload|)])
  {
    hide AfterUpload, AfterDelete;
    assert HasRow(s.rows, KeyOf(c, q)) == Known(s.rows, Asked(c, q));
  }

  /** An upload that stored the bytes, and a removal of them afterwards. */
  predicate Uploads(c: Config, q: Request, f: Faults, s: State) {
    && Reaches(c, q, f) && !Known(s.rows, Asked(c, q)) && !StaysInline(c, q)
    && c.build(Asked(c, q)).Some? && f.upload != FailsBefore
  }

  predicate Removes(c: Config, q: Request, f: Faults) {
    && f.upload == Completes && f.create != Completes && f.delete != FailsBefore
    && c.build(Asked(c, q)).Some? && c.parse(c.build(Asked(c, q)).value.uri, q.scope).Some?
  }

  /** A blob that was there stays as it was; a new one holds the payload, and is
      there exactly when it was uploaded and not removed again. */
  lemma OwnBlobIs(c: Config, q: Request, f: Faults, s: State, name: string)
    requires Lawful(c) && c.build(Asked(c, q)).Some? && name == c.build(Asked(c, q)).value.blobName
    ensures var s' := Step(c, q, f, s).0;
            && (name in s.blobs ==> s'.blobs == s.blobs)
            && (name !in s.blobs ==>
                  s'.blobs == if Uploads(c, q, f, s) && !Removes(c, q, f) then s.blobs[name := q.payload] else s.blobs)
  {
    hide AfterCreate;
    assert KeyOf(c, q) == Asked(c, q);
    assert HasRow(s.rows, KeyOf(c, q)) == Known(s.rows, Asked(c, q));
    assert name !in s.blobs ==> s.blobs[name := q.payload] - {name} == s.blobs;
  }

  // ---- The two windows ----------------------------------------------------------------------------

  /** The first window is real: a row whose commit acknowledgement was lost is
      left pointing at a deleted blob. */
  lemma CommittedRowLosesBlob(c: Config, q: Request)
    requires Lawful(c) && Readable(c)
    requires c.scanOk(q.payload) && q.forceBlob && c.build(KeyOf(c, q)).Some?
    ensures var (s, out) := Step(c, q, NO_FAULTS.(create := FailsAfter), State(map[], [], {}));
            out == Raised && |s.rows| == 1 && s.rows[0].storageUrl.Some? && s.blobs == map[]
  {
  }

  /** The second window is real: a stored upload that raised leaves an orphan
      without any report. */
  lemma UploadLeavesSilentOrphan(c: Config, q: Request)
    requires c.scanOk(q.payload) && q.forceBlob && c.build(KeyOf(c, q)).Some?
    ensures var (s, out) := Step(c, q, NO_FAULTS.(upload := FailsAfter), State(map[], [], {}));
            out == Raised && s.rows == [] && s.reported == {} && s.blobs == map[OwnName(c, q) := q.payload]
  {
  }
}
