/** The approval gate for breaking API changes: which authenticated reviews
    let a pull request through. */
module ReviewGate {
  import opened Text

  /** A JSON field that may be missing or have the wrong type. */
  datatype Field<+T> = Missing | BadType | Value(value: T)

  datatype Attestation = Attestation(
    version: Field<int>, repository: Field<string>, pullRequest: Field<int>,
    baseHash: Field<string>, headHash: Field<string>,
    breakIds: Field<seq<string>>, expiresAt: Field<int>)

  datatype Review = Review(
    login: Option<string>, state: string, submittedAt: Option<string>, id: Option<int>,
    commitId: Option<string>, url: Option<string>, body: Option<seq<string>>)

  /** Everything a review is judged against. `fold`, `strip`, `isDigits` and
      `parseObject` are library functions; the hashes and break ids are those of
      the schemas under review. */
  datatype Gate = Gate(
    repository: string, trustedRepository: string, pullRequest: int, headSha: string, author: string,
    approvers: set<string>, urlPrefix: string,
    baseHash: string, headHash: string, breakIds: set<string>, now: int,
    fold: string -> string, strip: string -> string, isDigits: string -> bool,
    parseObject: string -> Option<Attestation>)

  const ATTESTATION_PREFIX := "OpenAPI-Breaking-Change-Approval:"
  const APPROVAL_VERSION := 1

  datatype Fault =
    | MissingField | WrongVersion | WrongRepository | WrongPullRequest | BadHash | WrongHash
    | BadBreakIds | DuplicateBreakIds | WrongBreakIds | BadExpiry | Expired
    | NotApproved | StaleCommit | UntrustedUrl | BadAttestation

  datatype Reason =
    | UntrustedRepository | NotAnArray | NoIndependentApprover | NoReview
    | From(login: string, fault: Fault)

  // ---- The binding checks of one approval ------------------------------------------------

  predicate IsHash(s: string) {
    |s| == 64 && forall k :: 0 <= k < |s| ==> '0' <= s[k] <= '9' || 'a' <= s[k] <= 'f'
  }

  function Elements(ids: seq<string>): set<string> {
    set id | id in ids
  }

  /** The attestation names exactly this change, in this pull request, and has not expired. */
  predicate BoundTo(g: Gate, a: Attestation) {
    && a.version == Value(APPROVAL_VERSION)
    && a.repository == Value(g.repository)
    && a.pullRequest == Value(g.pullRequest)
    && a.baseHash == Value(g.baseHash) && IsHash(g.baseHash)
    && a.headHash == Value(g.headHash) && IsHash(g.headHash)
    && a.breakIds.Value? && a.breakIds.value != []
    && (forall id :: id in a.breakIds.value ==> g.strip(id) != "")
    && Distinct(a.breakIds.value) && Elements(a.breakIds.value) == g.breakIds
    && a.expiresAt.Value? && g.now < a.expiresAt.value
  }

  method ValidateAttestation(g: Gate, a: Attestation) returns (faults: seq<Fault>)
    ensures faults == [] <==> BoundTo(g, a)
  {
    faults := [];
    if || a.version.Missing? || a.repository.Missing? || a.pullRequest.Missing? || a.baseHash.Missing?
       || a.headHash.Missing? || a.breakIds.Missing? || a.expiresAt.Missing?
    {
      return [MissingField];
    }
    if a.version != Value(APPROVAL_VERSION) {
      faults := faults + [WrongVersion];
    }
    if a.repository != Value(g.repository) {
      faults := faults + [WrongRepository];
    }
    if a.pullRequest != Value(g.pullRequest) {
      faults := faults + [WrongPullRequest];
    }
    faults := faults + HashFaults(a.baseHash, g.baseHash);
    faults := faults + HashFaults(a.headHash, g.headHash);
    if a.breakIds.BadType? || a.breakIds.value == [] || exists id :: id in a.breakIds.value && g.strip(id) == "" {
      faults := faults + [BadBreakIds];
    } else if !Distinct(a.breakIds.value) {
      faults := faults + [DuplicateBreakIds];
    } else if Elements(a.breakIds.value) != g.breakIds {
      faults := faults + [WrongBreakIds];
    }
    if a.expiresAt.BadType? {
      faults := faults + [BadExpiry];
    } else if a.expiresAt.value <= g.now {
      faults := faults + [Expired];
    }
  }

  function HashFaults(actual: Field<string>, expected: string): (faults: seq<Fault>)
    requires !actual.Missing?
    ensures faults == [] <==> actual == Value(expected) && IsHash(expected)
  {
    if actual.BadType? || !IsHash(actual.value) then [BadHash]
    else if actual.value != expected then [WrongHash]
    else []
  }

  /** The body lines that carry an attestation. */
  function AttestationLines(lines: seq<string>): seq<string> {
    if lines == [] then []
    else
      var rest := AttestationLines(lines[1..]);
      if StartsWith(lines[0], ATTESTATION_PREFIX) then [lines[0][|ATTESTATION_PREFIX|..]] + rest else rest
  }

  function ParseAttestation(g: Gate, body: Option<seq<string>>): Option<Attestation> {
    if body == None then None
    else
      var lines := AttestationLines(body.value);
      if |lines| != 1 then None else g.parseObject(g.strip(lines[0]))
  }

  predicate TrustedUrl(g: Gate, url: Option<string>) {
    url.Some? && StartsWith(url.value, g.urlPrefix) && g.isDigits(url.value[|g.urlPrefix|..])
  }

  /** The review approves exactly this head commit and change. */
  predicate Passes(g: Gate, r: Review) {
    && r.state == "APPROVED"
    && r.commitId == Some(g.headSha)
    && TrustedUrl(g, r.url)
    && ParseAttestation(g, r.body).Some?
    && BoundTo(g, ParseAttestation(g, r.body).value)
  }

  method Judge(g: Gate, r: Review) returns (faults: seq<Fault>)
    ensures faults == [] <==> Passes(g, r)
  {
    if r.state != "APPROVED" {
      return [NotApproved];
    }
    if r.commitId != Some(g.headSha) {
      return [StaleCommit];
    }
    if !TrustedUrl(g, r.url) {
      return [UntrustedUrl];
    }
    var attestation := ParseAttestation(g, r.body);
    if attestation == None {
      return [BadAttestation];
    }
    faults := ValidateAttestation(g, attestation.value);
  }

  // ---- The order of reviews --------------------------------------------------------------

  datatype SortKey = SortKey(submittedAt: string, id: int)

  function KeyOf(r: Review): SortKey {
    SortKey(if r.submittedAt.Some? then r.submittedAt.value else "", if r.id.Some? then r.id.value else 0)
  }

  predicate Less(a: SortKey, b: SortKey) {
    TextLess(a.submittedAt, b.submittedAt) || (a.submittedAt == b.submittedAt && a.id < b.id)
  }

  lemma KeyOrder(a: SortKey, b: SortKey, c: SortKey)
    ensures Less(a, b) || Less(b, a) || a == b
    ensures !(Less(a, b) && Less(b, a)) && !Less(a, a)
    ensures Less(a, b) && Less(b, c) ==> Less(a, c)
    ensures !Less(a, b) && !Less(b, c) ==> !Less(a, c)
  {
    TextOrder(a.submittedAt, b.submittedAt, c.submittedAt);
    TextOrder(c.submittedAt, b.submittedAt, a.submittedAt);
    TextOrder(b.submittedAt, a.submittedAt, c.submittedAt);
    TextOrder(b.submittedAt, c.submittedAt, a.submittedAt);
    TextOrder(c.submittedAt, a.submittedAt, b.submittedAt);
    TextOrder(a.submittedAt, c.submittedAt, b.submittedAt);
  }

  // ---- The latest decisive review of each approver ---------------------------------------------

  predicate DecisiveBy(g: Gate, r: Review, who: string) {
    && r.login.Some? && g.fold(r.login.value) == who
    && r.state in {"APPROVED", "CHANGES_REQUESTED", "DISMISSED"}
  }

  function Authorized(g: Gate): set<string> {
    (set login | login in g.approvers :: g.fold(login)) - {g.fold(g.author)}
  }

  /** The review that wins when `r` meets the latest one so far. */
  function Newer(latest: Option<Review>, r: Review): Option<Review> {
    if latest == None || Less(KeyOf(latest.value), KeyOf(r)) then Some(r) else latest
  }

  function LatestOf(g: Gate, reviews: seq<Option<Review>>, who: string): Option<Review> {
    if reviews == [] then None
    else
      var n := |reviews| - 1;
      var before := LatestOf(g, reviews[..n], who);
      if reviews[n].Some? && DecisiveBy(g, reviews[n].value, who) then Newer(before, reviews[n].value) else before
  }

  /** Some authorized login other than the author has a latest decisive review
      that passes every check. */
  predicate Approved(g: Gate, reviews: seq<Option<Review>>) {
    exists who :: who in Authorized(g) && PassesLatest(g, reviews, who)
  }

  predicate PassesLatest(g: Gate, reviews: seq<Option<Review>>, who: string) {
    var latest := LatestOf(g, reviews, who);
    latest.Some? && Passes(g, latest.value)
  }

  method ValidateReviews(g: Gate, response: Option<seq<Option<Review>>>) returns (reasons: seq<Reason>)
    ensures reasons == [] <==>
            && g.repository == g.trustedRepository && response.Some?
            && Approved(g, response.value)
    ensures g.repository != g.trustedRepository ==> reasons == [UntrustedRepository]
    ensures g.repository == g.trustedRepository && response.Some? && Authorized(g) == {} ==>
              reasons == [NoIndependentApprover]
    ensures g.repository == g.trustedRepository && response.Some? && Authorized(g) != {} ==>
              (reasons == [NoReview] <==>
                 forall who :: who in Authorized(g) ==> LatestOf(g, response.value, who) == None)
    ensures forall r :: r in reasons && r.From? ==>
              r.login in Authorized(g) && response.Some? && LatestOf(g, response.value, r.login).Some?
  {
    if g.repository != g.trustedRepository {
      return [UntrustedRepository];
    }
    if response == None {
      return [NotAnArray];
    }
    var reviews := response.value;
    var authorized := Authorized(g);
    if authorized == {} {
      return [NoIndependentApprover];
    }
    var latest: map<string, Review>, order := CollectLatest(g, reviews, authorized);
    reasons := [];
    for k := 0 to |order|
      invariant forall j :: 0 <= j < k ==> !Passes(g, latest[order[j]])
      invariant reasons == [] <==> k == 0
      invariant forall r :: r in reasons ==> r.From? && r.login in latest
    {
      var login := order[k];
      var faults := Judge(g, latest[login]);
      if faults == [] {
        assert PassesLatest(g, reviews, login);
        return [];
      }
      var added := seq(|faults|, i requires 0 <= i < |faults| => From(login, faults[i]));
      assert added[0] in added;
      reasons := reasons + added;
    }
    assert !Approved(g, reviews);
    if order == [] {
      return [NoReview];
    }
    assert order[0] in latest && reasons[0] in reasons;
  }

  /** The first loop: the latest decisive review per login, and the logins in
      the order in which they first appeared. */
  method CollectLatest(g: Gate, reviews: seq<Option<Review>>, authorized: set<string>)
    returns (latest: map<string, Review>, order: seq<string>)
    ensures forall who :: who in latest <==> who in order
    ensures forall who :: who in latest ==> who in authorized
    ensures forall who :: who in authorized ==>
              LatestOf(g, reviews, who) == if who in latest then Some(latest[who]) else None
  {
    latest, order := map[], [];
    for i := 0 to |reviews|
      invariant forall who :: who in latest <==> who in order
      invariant forall who :: who in latest ==> who in authorized
      invariant forall who :: who in authorized ==>
                  LatestOf(g, reviews[..i], who) == if who in latest then Some(latest[who]) else None
    {
      assert reviews[..i + 1][..i] == reviews[..i];
      if reviews[i] == None || reviews[i].value.login == None {
        continue;
      }
      var review := reviews[i].value;
      var login := g.fold(review.login.value);
      if login !in authorized || review.state !in {"APPROVED", "CHANGES_REQUESTED", "DISMISSED"} {
        continue;
      }
      if login !in latest {
        latest, order := latest[login := review], order + [login];
      } else if Less(KeyOf(latest[login]), KeyOf(review)) {
        latest := latest[login := review];
      }
    }
    assert reviews[..|reviews|] == reviews;
  }

  // ---- Results -----------------------------------------------------------------------------------

  predicate Has(g: Gate, reviews: seq<Option<Review>>, who: string, r: Review) {
    Some(r) in reviews && DecisiveBy(g, r, who)
  }

  /** The fold picks a maximum: nobody's latest review is older than another
      decisive review of theirs, and there is one whenever they have any. */
  lemma {:induction false} LatestIsMaximal(g: Gate, reviews: seq<Option<Review>>, who: string)
    ensures var latest := LatestOf(g, reviews, who);
            && (latest.Some? ==> Has(g, reviews, who, latest.value))
            && (forall r :: Has(g, reviews, who, r) ==> latest.Some? && !Less(KeyOf(latest.value), KeyOf(r)))
  {
    if reviews != [] {
      var n := |reviews| - 1;
      LatestIsMaximal(g, reviews[..n], who);
      var before, latest := LatestOf(g, reviews[..n], who), LatestOf(g, reviews, who);
      forall r | Has(g, reviews, who, r) ensures latest.Some? && !Less(KeyOf(latest.value), KeyOf(r)) {
        assert Some(r) in reviews[..n] || Some(r) == reviews[n];
        if before.Some? && reviews[n].Some? {
          KeyOrder(KeyOf(reviews[n].value), KeyOf(before.value), KeyOf(r));
        }
        KeyOrder(KeyOf(r), KeyOf(r), KeyOf(r));
      }
    }
  }

  /** No two different decisive reviews of one approver have the same sort key. */
  predicate KeysDistinct(g: Gate, reviews: seq<Option<Review>>) {
    forall i, j :: 0 <= i < |reviews| && 0 <= j < |reviews| && reviews[i].Some? && reviews[j].Some? ==>
      BothDecisive(g, reviews[i].value, reviews[j].value) && KeyOf(reviews[i].value) == KeyOf(reviews[j].value) ==>
        reviews[i] == reviews[j]
  }

  /** Decisive reviews by the same approver. */
  predicate BothDecisive(g: Gate, a: Review, b: Review) {
    a.login.Some? && DecisiveBy(g, a, g.fold(a.login.value)) && DecisiveBy(g, b, g.fold(a.login.value))
  }

  lemma LatestDependsOnSet(g: Gate, a: seq<Option<Review>>, b: seq<Option<Review>>, who: string)
    requires KeysDistinct(g, a) && forall r :: r in a <==> r in b
    ensures LatestOf(g, a, who) == LatestOf(g, b, who)
  {
    LatestIsMaximal(g, a, who);
    LatestIsMaximal(g, b, who);
    var x, y := LatestOf(g, a, who), LatestOf(g, b, who);
    if x.Some? {
      assert Has(g, b, who, x.value);
      assert Has(g, a, who, y.value);
      KeyOrder(KeyOf(x.value), KeyOf(y.value), KeyOf(x.value));
      var i :| 0 <= i < |a| && a[i] == x;
      var j :| 0 <= j < |a| && a[j] == y;
      assert BothDecisive(g, a[i].value, a[j].value);
    } else if y.Some? {
      assert Has(g, a, who, y.value);
    }
  }

  /** The verdict does not depend on the order in which the reviews arrive, as
      long as sort keys tell an approver's reviews apart. */
  lemma OrderDoesNotMatter(g: Gate, a: seq<Option<Review>>, b: seq<Option<Review>>)
    requires KeysDistinct(g, a) && multiset(a) == multiset(b)
    ensures Approved(g, a) <==> Approved(g, b)
  {
    assert forall r :: r in a <==> r in multiset(a);
    assert forall r :: r in b <==> r in multiset(b);
    forall who ensures LatestOf(g, a, who) == LatestOf(g, b, who) {
      LatestDependsOnSet(g, a, b, who);
    }
  }

  // ---- When the order of the reviews matters --------------------------------------------------------

  /** The later one of two, the first one on a tie. */
  function Combine(g: Gate, first: Option<Review>, second: Option<Review>): Option<Review> {
    if second == None then first else Newer(first, second.value)
  }

  lemma {:induction false} LatestOfJoined(g: Gate, a: seq<Option<Review>>, b: seq<Option<Review>>, who: string)
    ensures LatestOf(g, a + b, who) == Combine(g, LatestOf(g, a, who), LatestOf(g, b, who))
  {
    if b == [] {
      assert a + b == a;
    } else {
      var n := |b| - 1;
      assert (a + b)[..|a| + n] == a + b[..n];
      LatestOfJoined(g, a, b[..n], who);
      if b[n].Some? {
        CombineNewer(g, LatestOf(g, a, who), LatestOf(g, b[..n], who), b[n].value);
      }
    }
  }

  lemma CombineNewer(g: Gate, first: Option<Review>, second: Option<Review>, r: Review)
    ensures Newer(Combine(g, first, second), r) == Combine(g, first, Newer(second, r))
  {
    if first.Some? && second.Some? {
      KeyOrder(KeyOf(first.value), KeyOf(second.value), KeyOf(r));
      KeyOrder(KeyOf(second.value), KeyOf(r), KeyOf(first.value));
    }
  }

  /** No decisive review of this approver is newer. */
  ghost predicate Maximal(g: Gate, reviews: seq<Option<Review>>, who: string, r: Review) {
    Has(g, reviews, who, r) && forall other :: Has(g, reviews, who, other) ==> !Less(KeyOf(r), KeyOf(other))
  }

  /** Some order makes a passing review of this approver the latest. */
  ghost predicate CanPass(g: Gate, reviews: seq<Option<Review>>, who: string) {
    exists r :: Maximal(g, reviews, who, r) && Passes(g, r)
  }

  /** Some order does not: there is no decisive review, or a failing one is maximal. */
  ghost predicate CanFail(g: Gate, reviews: seq<Option<Review>>, who: string) {
    (forall r :: !Has(g, reviews, who, r)) || exists r :: Maximal(g, reviews, who, r) && !Passes(g, r)
  }

  predicate IsPassing(g: Gate, r: Option<Review>) {
    r.Some? && Passes(g, r.value)
  }

  function Select(g: Gate, reviews: seq<Option<Review>>, passing: bool): seq<Option<Review>> {
    if reviews == [] then []
    else
      var n := |reviews| - 1;
      Select(g, reviews[..n], passing) + if IsPassing(g, reviews[n]) == passing then [reviews[n]] else []
  }

  lemma {:induction false} SelectSplits(g: Gate, reviews: seq<Option<Review>>)
    ensures multiset(Select(g, reviews, true)) + multiset(Select(g, reviews, false)) == multiset(reviews)
  {
    hide IsPassing;
    if reviews != [] {
      var n := |reviews| - 1;
      SelectSplits(g, reviews[..n]);
      assert reviews == reviews[..n] + [reviews[n]];
    }
  }

  lemma {:induction false} Selected(g: Gate, reviews: seq<Option<Review>>, passing: bool, r: Option<Review>)
    ensures r in Select(g, reviews, passing) <==> r in reviews && IsPassing(g, r) == passing
  {
    hide IsPassing;
    if reviews != [] {
      var n := |reviews| - 1;
      Selected(g, reviews[..n], passing, r);
      assert reviews == reviews[..n] + [reviews[n]];
    }
  }

  lemma SameReviews(g: Gate, a: seq<Option<Review>>, b: seq<Option<Review>>, who: string)
    requires multiset(a) == multiset(b)
    ensures forall r :: Has(g, a, who, r) <==> Has(g, b, who, r)
    ensures forall r :: Maximal(g, a, who, r) <==> Maximal(g, b, who, r)
  {
    assert forall r :: r in a <==> r in multiset(a);
    assert forall r :: r in b <==> r in multiset(b);
  }

  lemma LatestMaximal(g: Gate, reviews: seq<Option<Review>>, who: string)
    ensures var latest := LatestOf(g, reviews, who);
            (latest.Some? ==> Maximal(g, reviews, who, latest.value))
            && (latest == None ==> forall r :: !Has(g, reviews, who, r))
  {
    LatestIsMaximal(g, reviews, who);
  }

  /** With the passing reviews in front, or behind, a maximal review of that kind
      becomes the latest. */
  lemma FrontWins(g: Gate, reviews: seq<Option<Review>>, passing: bool, who: string, r: Review)
    requires Maximal(g, reviews, who, r) && Passes(g, r) == passing
    ensures var latest := LatestOf(g, Select(g, reviews, passing) + Select(g, reviews, !passing), who);
            latest.Some? && Passes(g, latest.value) == passing
  {
    hide Passes, DecisiveBy, Select, Less, LatestOf;
    var front, back := Select(g, reviews, passing), Select(g, reviews, !passing);
    LatestIsMaximal(g, front, who);
    LatestIsMaximal(g, back, who);
    LatestOfJoined(g, front, back, who);
    Selected(g, reviews, passing, Some(r));
    assert Has(g, front, who, r);
    var latest := LatestOf(g, front, who);
    var x := latest.value;
    Selected(g, reviews, passing, latest);
    var y := LatestOf(g, back, who);
    Selected(g, reviews, !passing, y);
    if y.Some? {
      KeyOrder(KeyOf(x), KeyOf(r), KeyOf(y.value));
    }
  }

  lemma NobodyStays(g: Gate, a: seq<Option<Review>>, b: seq<Option<Review>>, who: string)
    requires multiset(a) == multiset(b) && forall r :: !Has(g, a, who, r)
    ensures LatestOf(g, b, who) == None
  {
    SameReviews(g, a, b, who);
    LatestMaximal(g, b, who);
  }

  ghost predicate DependsOnOrder(g: Gate, reviews: seq<Option<Review>>) {
    exists b, c :: multiset(b) == multiset(reviews) && multiset(c) == multiset(reviews)
                   && Approved(g, b) && !Approved(g, c)
  }

  /** The verdict depends on the order in which the reviews arrive exactly when
      some authorized approver has a passing review with a maximal key, and every
      authorized approver has a failing one with a maximal key or none at all. */
  lemma OrderMattersIff(g: Gate, reviews: seq<Option<Review>>)
    ensures DependsOnOrder(g, reviews) <==>
              && (exists who :: who in Authorized(g) && CanPass(g, reviews, who))
              && (forall who :: who in Authorized(g) ==> CanFail(g, reviews, who))
  {
    if DependsOnOrder(g, reviews) {
      OrderMattersOnlyIf(g, reviews);
    }
    if && (exists who :: who in Authorized(g) && CanPass(g, reviews, who))
       && (forall who :: who in Authorized(g) ==> CanFail(g, reviews, who))
    {
      OrderMattersIf(g, reviews);
    }
  }

  lemma OrderMattersOnlyIf(g: Gate, reviews: seq<Option<Review>>)
    requires DependsOnOrder(g, reviews)
    ensures exists who :: who in Authorized(g) && CanPass(g, reviews, who)
    ensures forall who :: who in Authorized(g) ==> CanFail(g, reviews, who)
  {
    var b, c :| multiset(b) == multiset(reviews) && multiset(c) == multiset(reviews)
                && Approved(g, b) && !Approved(g, c);
    var passing :| passing in Authorized(g) && PassesLatest(g, b, passing);
    LatestMaximal(g, b, passing);
    SameReviews(g, b, reviews, passing);
    assert CanPass(g, reviews, passing);
    forall who | who in Authorized(g) ensures CanFail(g, reviews, who) {
      LatestMaximal(g, c, who);
      SameReviews(g, c, reviews, who);
      assert !PassesLatest(g, c, who);
    }
  }

  lemma OrderMattersIf(g: Gate, reviews: seq<Option<Review>>)
    requires exists who :: who in Authorized(g) && CanPass(g, reviews, who)
    requires forall who :: who in Authorized(g) ==> CanFail(g, reviews, who)
    ensures DependsOnOrder(g, reviews)
  {
    hide Passes, Has, Maximal, Select, LatestOf, Authorized;
    var b := Select(g, reviews, true) + Select(g, reviews, false);
    var c := Select(g, reviews, false) + Select(g, reviews, true);
    SelectSplits(g, reviews);
    var passing :| passing in Authorized(g) && CanPass(g, reviews, passing);
    var r :| Maximal(g, reviews, passing, r) && Passes(g, r);
    FrontWins(g, reviews, true, passing, r);
    assert PassesLatest(g, b, passing);
    forall who | who in Authorized(g) ensures !PassesLatest(g, c, who) {
      if forall r :: !Has(g, reviews, who, r) {
        NobodyStays(g, reviews, c, who);
      } else {
        var f :| Maximal(g, reviews, who, f) && !Passes(g, f);
        FrontWins(g, reviews, false, who, f);
      }
    }
    assert multiset(b) == multiset(reviews) && multiset(c) == multiset(reviews);
    assert Approved(g, b) && !Approved(g, c);
  }

  lemma {:induction false} InsertedElsewhere(
    g: Gate, a: seq<Option<Review>>, x: Option<Review>, b: seq<Option<Review>>, who: string)
    requires x == None || !DecisiveBy(g, x.value, who)
    ensures LatestOf(g, a + [x] + b, who) == LatestOf(g, a + b, who)
  {
    if b == [] {
      assert (a + [x] + b)[..|a|] == a && a + b == a;
    } else {
      var n := |b| - 1;
      assert (a + [x] + b)[..|a| + 1 + n] == a + [x] + b[..n] && (a + b)[..|a| + n] == a + b[..n];
      InsertedElsewhere(g, a, x, b[..n], who);
    }
  }

  /** A comment, a pending review or a review by anybody without authority
      changes nothing, wherever it is inserted. */
  lemma OnlyDecisiveReviewsCount(g: Gate, a: seq<Option<Review>>, x: Option<Review>, b: seq<Option<Review>>)
    requires x == None || forall who :: who in Authorized(g) ==> !DecisiveBy(g, x.value, who)
    ensures Approved(g, a + [x] + b) <==> Approved(g, a + b)
  {
    forall who | who in Authorized(g) ensures LatestOf(g, a + [x] + b, who) == LatestOf(g, a + b, who) {
      InsertedElsewhere(g, a, x, b, who);
    }
  }

  lemma NewestIsLatest(g: Gate, a: seq<Option<Review>>, x: Review, b: seq<Option<Review>>, who: string)
    requires DecisiveBy(g, x, who)
    requires forall r :: Has(g, a + b, who, r) ==> Less(KeyOf(r), KeyOf(x))
    ensures LatestOf(g, a + [Some(x)] + b, who) == Some(x)
  {
    var all := a + [Some(x)] + b;
    LatestIsMaximal(g, all, who);
    assert Some(x) == all[|a|];
    assert Has(g, all, who, x);
    var latest := LatestOf(g, all, who).value;
    assert latest == x || Has(g, a + b, who, latest);
  }

  /** A newer decisive review that does not pass, by the only approver whose
      latest review passed, revokes the approval. */
  lemma NewerReviewRevokes(g: Gate, a: seq<Option<Review>>, x: Review, b: seq<Option<Review>>, who: string)
    requires DecisiveBy(g, x, who) && !Passes(g, x)
    requires forall r :: Has(g, a + b, who, r) ==> Less(KeyOf(r), KeyOf(x))
    requires forall other :: other in Authorized(g) && other != who ==> !PassesLatest(g, a + b, other)
    ensures !Approved(g, a + [Some(x)] + b)
  {
    NewestIsLatest(g, a, x, b, who);
    forall other | other in Authorized(g) && other != who
      ensures !PassesLatest(g, a + [Some(x)] + b, other)
    {
      InsertedElsewhere(g, a, Some(x), b, other);
    }
  }

  /** The author's own approval never counts. */
  lemma AuthorCannotApprove(g: Gate, reviews: seq<Option<Review>>)
    requires forall k :: 0 <= k < |reviews| && reviews[k].Some? && reviews[k].value.login.Some? ==>
               g.fold(reviews[k].value.login.value) == g.fold(g.author)
    ensures !Approved(g, reviews)
  {
    forall who | who in Authorized(g) ensures LatestOf(g, reviews, who) == None {
      LatestIsMaximal(g, reviews, who);
    }
  }

  // ---- The gate in plain terms -------------------------------------------------------------------------

  function Stamp(r: Review): string {
    match r.submittedAt
    case Some(t) => t
    case None => ""
  }

  function Number(r: Review): int {
    match r.id
    case Some(n) => n
    case None => 0
  }

  /** Reviews are ordered by their time stamp, a missing one first, and then by
      their number. */
  ghost predicate Later(a: Review, b: Review) {
    Earlier(Stamp(b), Stamp(a)) || (Stamp(a) == Stamp(b) && Number(a) > Number(b))
  }

  /** An approval, a request for changes or a dismissal decides; a comment does not. */
  predicate Decides(g: Gate, r: Option<Review>, who: string) {
    && r.Some? && r.value.login.Some? && g.fold(r.value.login.value) == who
    && (r.value.state == "APPROVED" || r.value.state == "CHANGES_REQUESTED" || r.value.state == "DISMISSED")
  }

  /** Somebody on the list who is not the author, however the names are spelled. */
  predicate Independent(g: Gate, who: string) {
    (exists login :: login in g.approvers && g.fold(login) == who) && who != g.fold(g.author)
  }

  /** The first of the latest decisive reviews of its reviewer. */
  ghost predicate HasTheLastWord(g: Gate, reviews: seq<Option<Review>>, i: nat, who: string) {
    && i < |reviews| && Decides(g, reviews[i], who)
    && forall j :: 0 <= j < |reviews| && Decides(g, reviews[j], who) ==>
         && !Later(reviews[j].value, reviews[i].value)
         && (j < i ==> Later(reviews[i].value, reviews[j].value))
  }

  predicate Hex64(s: string) {
    |s| == 64 && forall k :: 0 <= k < 64 ==> s[k] in "0123456789abcdef"
  }

  /** The attestation is for this change in this pull request, names each break
      once and no other, and is still valid. */
  predicate Attests(g: Gate, a: Attestation) {
    && a.version == Value(1) && a.repository == Value(g.repository) && a.pullRequest == Value(g.pullRequest)
    && a.baseHash == Value(g.baseHash) && a.headHash == Value(g.headHash) && Hex64(g.baseHash) && Hex64(g.headHash)
    && a.breakIds.Value? && |a.breakIds.value| == |g.breakIds| > 0
    && (forall id :: id in g.breakIds ==> id in a.breakIds.value)
    && (forall id :: id in g.breakIds ==> g.strip(id) != "")
    && a.expiresAt.Value? && a.expiresAt.value > g.now
  }

  predicate Carries(line: string) {
    "OpenAPI-Breaking-Change-Approval:" <= line
  }

  /** One line of the body, and no other, carries the attestation. */
  predicate OnlyLine(lines: seq<string>, k: nat) {
    k < |lines| && Carries(lines[k]) && forall j :: 0 <= j < |lines| && j != k ==> !Carries(lines[j])
  }

  predicate CarriesAttestation(g: Gate, lines: seq<string>) {
    exists k: nat :: && k < |lines| && OnlyLine(lines, k)
                     && g.parseObject(g.strip(lines[k][33..])).Some?
                     && Attests(g, g.parseObject(g.strip(lines[k][33..])).value)
  }

  /** An approval of the head commit, on a page of this pull request, whose body
      carries an attestation of exactly this change. */
  predicate Sound(g: Gate, r: Review) {
    && r.state == "APPROVED" && r.commitId == Some(g.headSha)
    && r.url.Some? && g.urlPrefix <= r.url.value && g.isDigits(r.url.value[|g.urlPrefix|..])
    && r.body.Some? && CarriesAttestation(g, r.body.value)
  }

  lemma {:induction false} SizeOfElements(ids: seq<string>)
    ensures |Elements(ids)| <= |ids|
    ensures |Elements(ids)| == |ids| <==> Distinct(ids)
  {
    if ids == [] {
      assert Elements(ids) == {};
    } else {
      var n := |ids| - 1;
      SizeOfElements(ids[..n]);
      assert Elements(ids) == Elements(ids[..n]) + {ids[n]};
      if ids[n] in ids[..n] {
        var i :| 0 <= i < n && ids[..n][i] == ids[n];
        assert ids[i] == ids[n];
        assert Elements(ids) == Elements(ids[..n]);
      } else if Distinct(ids[..n]) {
        forall i | 0 <= i < n ensures ids[i] != ids[n] {
          assert ids[..n][i] == ids[i];
        }
      } else {
        var i, j :| 0 <= i < j < n && ids[..n][i] == ids[..n][j];
        assert ids[i] == ids[j];
      }
    }
  }

  lemma HexIff(s: string)
    ensures Hex64(s) <==> IsHash(s)
  {
    forall c: char ensures c in "0123456789abcdef" <==> '0' <= c <= '9' || 'a' <= c <= 'f' {
      HexDigit(c);
    }
  }

  lemma HexDigit(c: char)
    ensures c in "0123456789abcdef" <==> '0' <= c <= '9' || 'a' <= c <= 'f'
  {
    var digits := "0123456789abcdef";
    if '0' <= c <= '9' {
      assert digits[c as int - '0' as int] == c;
    } else if 'a' <= c <= 'f' {
      assert digits[10 + c as int - 'a' as int] == c;
    }
  }

  lemma AttestsIff(g: Gate, a: Attestation)
    ensures Attests(g, a) <==> BoundTo(g, a)
  {
    hide Hex64, IsHash, Distinct;
    HexIff(g.baseHash);
    HexIff(g.headHash);
    if a.breakIds.Value? {
      var ids := a.breakIds.value;
      SizeOfElements(ids);
      if Attests(g, a) {
        SameSize(g.breakIds, Elements(ids));
      }
    }
  }

  lemma SameSize(a: set<string>, b: set<string>)
    requires a <= b && |b| <= |a|
    ensures a == b
  {
    assert b == a + (b - a);
  }

  lemma CarriesIff(line: string)
    ensures Carries(line) <==> StartsWith(line, ATTESTATION_PREFIX)
    ensures |ATTESTATION_PREFIX| == 33
  {
  }

  lemma OnlyLineBehind(first: string, rest: seq<string>, k: nat)
    ensures OnlyLine([first] + rest, k + 1) <==> !Carries(first) && OnlyLine(rest, k)
    ensures OnlyLine([first] + rest, 0) <==> Carries(first) && forall j :: 0 <= j < |rest| ==> !Carries(rest[j])
  {
    hide Carries;
    var lines := [first] + rest;
    assert forall j :: 0 <= j < |rest| ==> lines[j + 1] == rest[j];
    assert forall j :: 0 < j < |lines| ==> lines[j] == rest[j - 1];
    assert lines[0] == first;
  }

  /** The lines that carry an attestation are one line exactly when there is only
      one, and then what stands behind the prefix there. */
  lemma {:induction false} CarryingLines(lines: seq<string>)
    ensures AttestationLines(lines) == [] <==> forall k :: 0 <= k < |lines| ==> !Carries(lines[k])
    ensures |AttestationLines(lines)| == 1 ==> exists k: nat :: OnlyLine(lines, k)
    ensures forall k: nat :: OnlyLine(lines, k) ==> AttestationLines(lines) == [lines[k][33..]]
  {
    if lines != [] {
      hide Carries, OnlyLine;
      var first, rest := lines[0], lines[1..];
      assert lines == [first] + rest;
      CarryingLines(rest);
      CarriesIff(first);
      NoneCarries(first, rest);
      forall k: nat ensures OnlyLine(lines, k + 1) <==> !Carries(first) && OnlyLine(rest, k) {
        OnlyLineBehind(first, rest, k);
      }
      OnlyLineBehind(first, rest, 0);
      if |AttestationLines(lines)| == 1 {
        if Carries(first) {
          assert OnlyLine(lines, 0);
        } else {
          var k: nat :| OnlyLine(rest, k);
          assert OnlyLine(lines, k + 1);
        }
      }
      forall k: nat | OnlyLine(lines, k) ensures AttestationLines(lines) == [lines[k][33..]] {
        if k > 0 {
          assert OnlyLine(rest, k - 1) && lines[k] == rest[k - 1];
        }
      }
    }
  }

  lemma NoneCarries(first: string, rest: seq<string>)
    ensures (forall k :: 0 <= k < |[first] + rest| ==> !Carries(([first] + rest)[k])) <==>
              !Carries(first) && forall k :: 0 <= k < |rest| ==> !Carries(rest[k])
  {
    hide Carries;
    var lines := [first] + rest;
    assert forall j :: 0 <= j < |rest| ==> lines[j + 1] == rest[j];
    assert lines[0] == first;
  }

  lemma AttestationIff(g: Gate, body: seq<string>)
    ensures var parsed := ParseAttestation(g, Some(body));
            (parsed.Some? && BoundTo(g, parsed.value)) <==> CarriesAttestation(g, body)
  {
    hide Carries, Attests, BoundTo;
    CarryingLines(body);
    forall a ensures Attests(g, a) <==> BoundTo(g, a) {
      AttestsIff(g, a);
    }
    if |AttestationLines(body)| == 1 {
      var k: nat :| OnlyLine(body, k);
      CarriesIff(body[k]);
      assert AttestationLines(body) == [body[k][33..]];
    }
  }

  lemma SoundIff(g: Gate, r: Review)
    ensures Sound(g, r) <==> Passes(g, r)
  {
    hide CarriesAttestation, BoundTo;
    if r.body.Some? {
      AttestationIff(g, r.body.value);
    }
  }

  lemma LaterIff(a: Review, b: Review)
    ensures Later(a, b) <==> Less(KeyOf(b), KeyOf(a))
  {
    TextLessIff(Stamp(b), Stamp(a));
  }

  /** No decisive review has a later one before it, and only one is first. */
  predicate FirstLatest(g: Gate, reviews: seq<Option<Review>>, i: nat, who: string) {
    && i < |reviews| && reviews[i].Some? && DecisiveBy(g, reviews[i].value, who)
    && forall j :: 0 <= j < |reviews| && reviews[j].Some? && DecisiveBy(g, reviews[j].value, who) ==>
         && !Less(KeyOf(reviews[i].value), KeyOf(reviews[j].value))
         && (j < i ==> Less(KeyOf(reviews[j].value), KeyOf(reviews[i].value)))
  }

  lemma LastWordIff(g: Gate, reviews: seq<Option<Review>>, i: nat, who: string)
    ensures HasTheLastWord(g, reviews, i, who) <==> FirstLatest(g, reviews, i, who)
  {
    hide Later, Less;
    forall a, b ensures Later(a, b) <==> Less(KeyOf(b), KeyOf(a)) {
      LaterIff(a, b);
    }
  }

  lemma FirstLatestStep(g: Gate, reviews: seq<Option<Review>>, x: Option<Review>, i: nat, who: string)
    requires FirstLatest(g, reviews, i, who)
    ensures var joined := reviews + [x];
            if x.Some? && DecisiveBy(g, x.value, who) && Less(KeyOf(reviews[i].value), KeyOf(x.value))
            then FirstLatest(g, joined, |reviews|, who)
            else FirstLatest(g, joined, i, who)
  {
    hide Less, DecisiveBy;
    var joined := reviews + [x];
    assert forall j :: 0 <= j < |reviews| ==> joined[j] == reviews[j];
    if x.Some? {
      KeyOrder(KeyOf(x.value), KeyOf(x.value), KeyOf(x.value));
      forall j | 0 <= j < |reviews| && reviews[j].Some? && DecisiveBy(g, reviews[j].value, who)
        ensures Less(KeyOf(reviews[i].value), KeyOf(x.value)) ==>
                  && Less(KeyOf(reviews[j].value), KeyOf(x.value))
                  && !Less(KeyOf(x.value), KeyOf(reviews[j].value))
      {
        KeyOrder(KeyOf(x.value), KeyOf(reviews[i].value), KeyOf(reviews[j].value));
        KeyOrder(KeyOf(x.value), KeyOf(reviews[j].value), KeyOf(x.value));
        KeyOrder(KeyOf(reviews[j].value), KeyOf(reviews[i].value), KeyOf(x.value));
      }
    }
  }

  lemma FirstLatestIsUnique(g: Gate, reviews: seq<Option<Review>>, i: nat, j: nat, who: string)
    requires FirstLatest(g, reviews, i, who) && FirstLatest(g, reviews, j, who)
    ensures i == j
  {
    KeyOrder(KeyOf(reviews[i].value), KeyOf(reviews[j].value), KeyOf(reviews[i].value));
  }

  lemma {:induction false} LatestIsFirst(g: Gate, reviews: seq<Option<Review>>, who: string)
    ensures var latest := LatestOf(g, reviews, who);
            && (latest.Some? ==> exists i: nat :: FirstLatest(g, reviews, i, who) && reviews[i] == latest)
            && (latest == None ==>
                  forall i :: 0 <= i < |reviews| ==> reviews[i] == None || !DecisiveBy(g, reviews[i].value, who))
  {
    hide DecisiveBy, Less;
    if reviews != [] {
      var n := |reviews| - 1;
      var before, x := reviews[..n], reviews[n];
      assert reviews == before + [x];
      LatestIsFirst(g, before, who);
      var latest := LatestOf(g, before, who);
      if latest.Some? {
        var i: nat :| FirstLatest(g, before, i, who) && before[i] == latest;
        FirstLatestStep(g, before, x, i, who);
        assert FirstLatest(g, reviews, n, who) || FirstLatest(g, reviews, i, who);
      } else if x.Some? && DecisiveBy(g, x.value, who) {
        KeyOrder(KeyOf(x.value), KeyOf(x.value), KeyOf(x.value));
        assert FirstLatest(g, reviews, n, who);
      }
    }
  }

  lemma IndependentIff(g: Gate, who: string)
    ensures Independent(g, who) <==> who in Authorized(g)
  {
  }

  /** The review at `i` has the last word for its reviewer, and is sound. */
  ghost predicate Settles(g: Gate, reviews: seq<Option<Review>>, i: nat, who: string) {
    HasTheLastWord(g, reviews, i, who) && Sound(g, reviews[i].value)
  }

  lemma LastWordIsLatest(g: Gate, reviews: seq<Option<Review>>, i: nat, who: string)
    requires FirstLatest(g, reviews, i, who)
    ensures LatestOf(g, reviews, who) == reviews[i]
  {
    LatestIsFirst(g, reviews, who);
    hide Less, DecisiveBy, LatestOf;
    var latest := LatestOf(g, reviews, who);
    if latest.Some? {
      var j: nat :| FirstLatest(g, reviews, j, who) && reviews[j] == latest;
      FirstLatestIsUnique(g, reviews, i, j, who);
    }
  }

  lemma SettledLatest(g: Gate, reviews: seq<Option<Review>>, i: nat, who: string)
    requires HasTheLastWord(g, reviews, i, who)
    ensures PassesLatest(g, reviews, who) <==> Settles(g, reviews, i, who)
  {
    LastWordIff(g, reviews, i, who);
    hide Passes, Sound, FirstLatest;
    LastWordIsLatest(g, reviews, i, who);
    SoundIff(g, reviews[i].value);
  }

  lemma LastWordDecides(g: Gate, reviews: seq<Option<Review>>, who: string)
    ensures PassesLatest(g, reviews, who) <==> exists i: nat :: Settles(g, reviews, i, who)
  {
    LatestIsFirst(g, reviews, who);
    hide Sound, Passes, HasTheLastWord;
    if PassesLatest(g, reviews, who) {
      var i: nat :| FirstLatest(g, reviews, i, who) && reviews[i] == LatestOf(g, reviews, who);
      LastWordIff(g, reviews, i, who);
      SettledLatest(g, reviews, i, who);
    }
    if i: nat :| Settles(g, reviews, i, who) {
      SettledLatest(g, reviews, i, who);
    }
  }

  /** The verdict: a change is approved exactly when somebody on the list, other
      than its author, has the last word with a sound review: the first of the
      latest decisive reviews of that person. */
  lemma ApprovedIff(g: Gate, reviews: seq<Option<Review>>)
    ensures Approved(g, reviews) <==>
              exists who: string, i: nat :: Independent(g, who) && Settles(g, reviews, i, who)
  {
    hide Settles, PassesLatest, Authorized, Independent;
    forall who
      ensures Independent(g, who) <==> who in Authorized(g)
      ensures PassesLatest(g, reviews, who) <==> exists i: nat :: Settles(g, reviews, i, who)
    {
      IndependentIff(g, who);
      LastWordDecides(g, reviews, who);
    }
    if Approved(g, reviews) {
      var who :| who in Authorized(g) && PassesLatest(g, reviews, who);
      var i: nat :| Settles(g, reviews, i, who);
      assert Independent(g, who);
    }
  }
}
