/** What the guided-answer pipeline makes of one mapping, in closed form: which
    target it ends with and which increments it gets, in terms of the answers and
    of the mapping as it came in. */
module GuidedTargets {
  import opened Text
  import opened GuidedAnswers

  // ---- One rule --------------------------------------------------------------------------------

  /** The target after one rule. */
  function NameAfter(r: Rule, a: Answers, source: string, name: string): string {
    match r
    case SkuStrategy => TierName(a, name)
    case HaAndDr => EarlyHa(a, name)
    case Spark => if SparkRenames(source, name) then SparkTarget(a) else name
    case Streaming => if StreamRenames(a, source) then StreamTarget(a).value else name
    case Iot => if TwinsRename(a, source) then TWINS_TARGET else name
    case Containers => if ContainerRenames(a, source, name) then "Azure " + ContainerTarget(a) else name
    case _ => name
  }

  function EarlyHa(a: Answers, name: string): string {
    if SpreadsWrites(a, name) then name + " (multi-region writes)" else name
  }

  /** Whether a rule gives an increment to a service of this name. */
  predicate Raises(r: Rule, a: Answers, source: string, name: string) {
    match r
    case Environment => Development(a)
    case SkuStrategy => SkuTier(a) == "enterprise"
    case HaAndDr => SpreadsWrites(a, name)
    case NetworkIsolation => PrivateEndpointsWanted(a) && ContainsAny(name, PRIVATE_LINK)
    case StorageRedundancy => Redundancy(a) in GEO_REDUNDANT && ContainsAny(name, STORAGE)
    case Spark => SparkRenames(source, name)
    case FunctionsPlan => FunctionPlan(a) == "premium" && Contains(name, "Functions")
    case Iot => TwinsRename(a, source)
    case _ => false
  }

  lemma RuleName(r: Rule, a: Answers, m: Mapping)
    ensures BookOf(a)(r, m).azure == NameAfter(r, a, m.source, m.azure)
  {
    hide ContainsAny, Contains, TierName, Get, Lookup, SkuTier, SparkTarget, StreamTarget, SpreadsWrites, Development;
    assert BookOf(a)(r, m) == ChangeOf(r, a, m);
  }

  lemma RuleRaises(r: Rule, a: Answers, m: Mapping)
    ensures BookOf(a)(r, m).boost.Some? <==> Raises(r, a, m.source, m.azure)
    ensures BookOf(a)(r, m).boost.Some? ==>
              (BookOf(a)(r, m).boost.value.reason == PrivateLink <==> r == NetworkIsolation)
  {
    hide ContainsAny, Contains, TierName, Get, Lookup, SkuTier, SparkTarget, StreamTarget, SpreadsWrites, Development;
    assert BookOf(a)(r, m) == ChangeOf(r, a, m);
  }

  // ---- The final target ---------------------------------------------------------------------------

  /** The name after the first four rules. */
  function EarlyName(a: Answers, name: string): string {
    EarlyHa(a, TierName(a, name))
  }

  /** The later renamings, in their order: Spark, streaming, digital twins, containers. */
  function SparkName(a: Answers, source: string, name: string): string {
    if SparkRenames(source, name) then SparkTarget(a) else name
  }

  function StreamName(a: Answers, source: string, name: string): string {
    if StreamRenames(a, source) then StreamTarget(a).value else name
  }

  function TwinsName(a: Answers, source: string, name: string): string {
    if TwinsRename(a, source) then TWINS_TARGET else name
  }

  function ContainerName(a: Answers, source: string, name: string): string {
    if ContainerRenames(a, source, name) then "Azure " + ContainerTarget(a) else name
  }

  function FinalName(a: Answers, source: string, name: string): string {
    ContainerName(a, source, TwinsName(a, source, StreamName(a, source, SparkName(a, source, EarlyName(a, name)))))
  }

  /** The name after the first `k` rules. */
  function NameAt(k: nat, a: Answers, source: string, name: string): string {
    if k < 2 then name
    else if k < 3 then TierName(a, name)
    else if k < 7 then EarlyName(a, name)
    else if k < 12 then SparkName(a, source, EarlyName(a, name))
    else if k < 13 then StreamName(a, source, SparkName(a, source, EarlyName(a, name)))
    else if k < 15 then TwinsName(a, source, StreamName(a, source, SparkName(a, source, EarlyName(a, name))))
    else FinalName(a, source, name)
  }

  lemma NameStep(k: nat, a: Answers, source: string, name: string)
    requires k < |RULES|
    ensures NameAfter(RULES[k], a, source, NameAt(k, a, source, name)) == NameAt(k + 1, a, source, name)
  {
    hide TierName, EarlyHa, SparkRenames, StreamRenames, TwinsRename, ContainerRenames, ContainerTarget,
      SparkTarget, StreamTarget;
  }

  lemma {:induction false} NamesUpTo(k: nat, a: Answers, m: Mapping)
    requires k <= |RULES|
    ensures var before := AfterRules(RULES[..k], BookOf(a), m);
            before.azure == NameAt(k, a, m.source, m.azure) && before.source == m.source
  {
    hide BookOf, NameAt, NameAfter, RULES;
    if k == 0 {
      NameAtStart(a, m.source, m.azure);
    } else {
      assert RULES[..k][..k - 1] == RULES[..k - 1];
      var before := AfterRules(RULES[..k - 1], BookOf(a), m);
      NamesUpTo(k - 1, a, m);
      RuleName(RULES[k - 1], a, before);
      NameStep(k - 1, a, m.source, m.azure);
    }
  }

  lemma NameAtStart(a: Answers, source: string, name: string)
    ensures NameAt(0, a, source, name) == name
  {
  }

  /** The target a mapping ends with, in closed form: the tier and multi-region
      renamings of the given name, then the four renamings by source. */
  lemma FinalTarget(a: Answers, m: Mapping)
    ensures AfterRules(RULES, BookOf(a), m).azure == FinalName(a, m.source, m.azure)
  {
    hide FinalName, BookOf, AfterRules;
    assert RULES[..|RULES|] == RULES;
    NamesUpTo(|RULES|, a, m);
  }

  // ---- Which increments fire ------------------------------------------------------------------------

  /** Whether any rule gives an increment. Until one does, the only renaming is
      that of the tier, so the name in that tier decides. */
  predicate RaisesSomething(a: Answers, m: Mapping) {
    exists r :: Raises(r, a, m.source, TierName(a, m.azure))
  }

  /** As long as nothing has fired, the rules up to the streaming rule have only
      applied the tier. */
  predicate Quiet(k: nat, a: Answers, m: Mapping)
    requires k <= |RULES|
  {
    forall j :: 0 <= j < k ==> !Raises(RULES[j], a, m.source, TierName(a, m.azure))
  }

  lemma QuietName(k: nat, a: Answers, m: Mapping)
    requires k < |RULES| && Quiet(k, a, m)
    ensures Raises(RULES[k], a, m.source, NameAt(k, a, m.source, m.azure)) <==>
              Raises(RULES[k], a, m.source, TierName(a, m.azure))
  {
    hide TierName, SparkRenames, StreamRenames, TwinsRename, ContainerRenames, SpreadsWrites,
      ContainsAny, Contains, PrivateEndpointsWanted, Redundancy, FunctionPlan, Development, SkuTier;
    if k > 2 {
      assert !Raises(RULES[2], a, m.source, TierName(a, m.azure));
    }
    if k > 6 {
      assert !Raises(RULES[6], a, m.source, TierName(a, m.azure));
    }
  }

  lemma {:induction false} QuietIff(k: nat, a: Answers, m: Mapping)
    requires k <= |RULES|
    ensures Fired(RULES[..k], BookOf(a), m) == [] <==> Quiet(k, a, m)
  {
    hide BookOf, Raises, NameAt, RULES;
    if k > 0 {
      assert RULES[..k][..k - 1] == RULES[..k - 1];
      QuietIff(k - 1, a, m);
      NamesUpTo(k - 1, a, m);
      RuleRaises(RULES[k - 1], a, AfterRules(RULES[..k - 1], BookOf(a), m));
      if Quiet(k - 1, a, m) {
        QuietName(k - 1, a, m);
      }
    }
  }

  function IndexOf(r: Rule): (k: nat)
    ensures k < |RULES| && RULES[k] == r
  {
    match r
    case Environment => 0
    case SkuStrategy => 1
    case HaAndDr => 2
    case Compliance => 3
    case NetworkIsolation => 4
    case StorageRedundancy => 5
    case Spark => 6
    case FunctionsPlan => 7
    case CosmosDb => 8
    case CacheTier => 9
    case SqlTier => 10
    case Streaming => 11
    case Iot => 12
    case Monitoring => 13
    case Containers => 14
    case Ml => 15
    case IacStyle => 16
    case DeployRegion => 17
    case Encryption => 18
  }

  /** Some increment fires exactly when the answers and the name in the tier asked
      for call for one. */
  lemma SomethingFiresIff(a: Answers, m: Mapping)
    ensures Fired(RULES, BookOf(a), m) != [] <==> RaisesSomething(a, m)
  {
    hide BookOf, Raises, RULES, Fired;
    assert RULES[..|RULES|] == RULES;
    QuietIff(|RULES|, a, m);
    if r :| Raises(r, a, m.source, TierName(a, m.azure)) {
      assert RULES[IndexOf(r)] == r;
    }
  }

  /** The pipeline is not idempotent: applied to a mapping it has already refined,
      it leaves the reasons as they are exactly when neither the environment nor
      the tier raises confidence, and none of the services with multi-region
      writes, private endpoints, geo-redundant storage, a Spark runtime, a premium
      plan or digital twins is what the refined mapping names. */
  lemma SecondRunAddsReasonsIff(a: Answers, m: Mapping)
    ensures var once := AfterRules(RULES, BookOf(a), m);
            AfterRules(RULES + RULES, BookOf(a), m).reasons != once.reasons <==> RaisesSomething(a, once)
  {
    SecondRunIsQuietIff(RULES, BookOf(a), m);
    SomethingFiresIff(a, AfterRules(RULES, BookOf(a), m));
  }

  /** A development environment fires on every mapping in every run. */
  lemma DevelopmentAlwaysFires(a: Answers, m: Mapping)
    requires Development(a)
    ensures |AfterRules(RULES, BookOf(a), m).reasons| > |m.reasons|
    ensures AfterRules(RULES + RULES, BookOf(a), m) != AfterRules(RULES, BookOf(a), m)
  {
    var once := AfterRules(RULES, BookOf(a), m);
    assert Raises(Environment, a, m.source, TierName(a, m.azure));
    assert Raises(Environment, a, once.source, TierName(a, once.azure));
    SomethingFiresIff(a, m);
    OnlyExtended(RULES, BookOf(a), m);
    SecondRunAddsReasonsIff(a, m);
  }

  // ---- Private endpoints -----------------------------------------------------------------------------

  predicate Listed(name: string) {
    ContainsAny(name, PRIVATE_LINK)
  }

  predicate HasPrivateLink(boosts: seq<Boost>) {
    exists i :: 0 <= i < |boosts| && boosts[i].reason == PrivateLink
  }

  /** The private-endpoint increment fires exactly when the name after the first
      four rules is listed. */
  lemma {:induction false} PrivateLinkFiresIff(k: nat, a: Answers, m: Mapping)
    requires k <= |RULES|
    ensures HasPrivateLink(Fired(RULES[..k], BookOf(a), m)) <==>
              k > 4 && PrivateEndpointsWanted(a) && Listed(EarlyName(a, m.azure))
  {
    hide BookOf, NameAt, Listed, PrivateEndpointsWanted, EarlyName, ContainsAny, RULES;
    if k > 0 {
      assert RULES[..k][..k - 1] == RULES[..k - 1];
      var before := AfterRules(RULES[..k - 1], BookOf(a), m);
      PrivateLinkFiresIff(k - 1, a, m);
      NamesUpTo(k - 1, a, m);
      RuleRaises(RULES[k - 1], a, before);
      NetworkRuleAt(k - 1, a, m);
      HasPrivateLinkStep(Fired(RULES[..k - 1], BookOf(a), m), BookOf(a)(RULES[k - 1], before).boost);
    }
  }

  lemma HasPrivateLinkStep(boosts: seq<Boost>, boost: Option<Boost>)
    ensures HasPrivateLink(boosts + if boost.Some? then [boost.value] else []) <==>
              HasPrivateLink(boosts) || (boost.Some? && boost.value.reason == PrivateLink)
  {
    var all := boosts + if boost.Some? then [boost.value] else [];
    if HasPrivateLink(boosts) {
      var i :| 0 <= i < |boosts| && boosts[i].reason == PrivateLink;
      assert all[i] == boosts[i];
    }
    if boost.Some? {
      assert all[|boosts|] == boost.value;
    }
  }

  lemma NetworkRuleAt(k: nat, a: Answers, m: Mapping)
    requires k < |RULES|
    ensures RULES[k] == NetworkIsolation <==> k == 4
    ensures k == 4 ==>
              (Raises(RULES[k], a, m.source, NameAt(k, a, m.source, m.azure)) <==>
                 PrivateEndpointsWanted(a) && Listed(EarlyName(a, m.azure)))
  {
    hide EarlyName, PrivateEndpointsWanted, ContainsAny;
  }

  /** A later rule gives a service that was not listed a listed name: a streaming
      target, unless it is a digital twin after all; or a container target, which
      only an App Service that is neither a Spark nor a streaming service gets. */
  predicate ListedTooLate(a: Answers, m: Mapping) {
    var name := EarlyName(a, m.azure);
    && !Listed(name) && !TwinsRename(a, m.source)
    && (|| StreamRenames(a, m.source)
        || (&& !SparkRenames(m.source, name) && ContainerRenames(a, m.source, name)
            && ContainerTarget(a) in {"Container Apps", "Container Instances"}))
  }

  /** With private endpoints for everything, a mapping ends with a listed target
      and yet without the private-endpoint increment exactly when a later rule
      gave it that name. */
  lemma PrivateLinkMissedIff(a: Answers, m: Mapping)
    requires PrivateEndpointsWanted(a)
    ensures (Listed(AfterRules(RULES, BookOf(a), m).azure) && !HasPrivateLink(Fired(RULES, BookOf(a), m)))
            <==> ListedTooLate(a, m)
  {
    hide BookOf, Fired, AfterRules, Listed, FinalName, ListedTooLate, EarlyName;
    assert RULES[..|RULES|] == RULES;
    PrivateLinkFiresIff(|RULES|, a, m);
    FinalTarget(a, m);
    FinalNameListedIff(a, m);
  }

  lemma FinalNameListedIff(a: Answers, m: Mapping)
    ensures Listed(FinalName(a, m.source, m.azure)) && !Listed(EarlyName(a, m.azure)) <==> ListedTooLate(a, m)
  {
    hide Listed, EarlyName, ContainsAny, Contains, StreamTarget, SparkTarget, ContainerTarget, Maybe;
    var source, name := m.source, EarlyName(a, m.azure);
    SparkTargets(a);
    StreamTargets(a);
    TwinsTarget();
    ContainerTargets(a);
  }

  // ---- Listed and unlisted names -------------------------------------------------------------------------

  lemma CharAt(s: string, t: string, i: nat, k: nat)
    requires k < |t|
    ensures OccursAt(s, t, i) ==> s[i + k] == t[k]
  {
    if OccursAt(s, t, i) {
      assert s[i..i + |t|][k] == s[i + k];
    }
  }

  lemma AbsentChar(s: string, t: string, c: char)
    requires c in t && c !in s
    ensures !Contains(s, t)
  {
    var k :| 0 <= k < |t| && t[k] == c;
    forall i: nat ensures !OccursAt(s, t, i) {
      CharAt(s, t, i, k);
    }
  }

  /** A name with none of six letters has no listed fragment. */
  lemma Unlisted(name: string)
    requires forall c :: c in name ==> c !in {'B', 'Q', 'C', 'V', 'F', 'E'}
    ensures !Listed(name)
  {
    hide Contains;
    AbsentChar(name, "Blob", 'B');
    AbsentChar(name, "SQL", 'Q');
    AbsentChar(name, "Cosmos", 'C');
    AbsentChar(name, "Key Vault", 'V');
    AbsentChar(name, "Functions", 'F');
    AbsentChar(name, "Container", 'C');
    AbsentChar(name, "Event Hubs", 'E');
    AbsentChar(name, "Service Bus", 'B');
  }

  lemma SparkTargets(a: Answers)
    ensures !Listed(SparkTarget(a)) && !ContainsAny(SparkTarget(a), CONTAINER_NAMES)
  {
    assert SparkTarget(a) in {"Azure Synapse Spark Pool", "Azure HDInsight", "Azure Databricks"} by {
      hide Get;
    }
    hide SparkTarget, ContainsAny, Listed;
    PlainTarget("Azure Synapse Spark Pool");
    PlainTarget("Azure HDInsight");
    PlainTarget("Azure Databricks");
  }

  /** Neither listed nor a container name. */
  lemma PlainTarget(name: string)
    requires forall c :: c in name ==> c !in {'B', 'Q', 'C', 'V', 'F', 'E', 'v'}
    ensures !Listed(name) && !ContainsAny(name, CONTAINER_NAMES)
  {
    hide Contains;
    Unlisted(name);
    AbsentChar(name, "Container Instances", 'C');
    AbsentChar(name, "Container Apps", 'C');
    AbsentChar(name, "App Service", 'v');
  }

  lemma TwinsTarget()
    ensures !Listed(TWINS_TARGET) && !ContainsAny(TWINS_TARGET, CONTAINER_NAMES)
  {
    hide Listed, ContainsAny;
    PlainTarget(TWINS_TARGET);
  }

  lemma ListedWith(before: string, i: nat, after: string)
    requires i < |PRIVATE_LINK|
    ensures Listed(before + PRIVATE_LINK[i] + after)
  {
    OccursBetween(before, PRIVATE_LINK[i], after);
  }

  lemma StreamTargets(a: Answers)
    ensures StreamTarget(a).Some? ==>
              Listed(StreamTarget(a).value) && !ContainsAny(StreamTarget(a).value, CONTAINER_NAMES)
  {
    hide Listed, ContainsAny, Contains, Get;
    KafkaTarget();
    StreamingTarget();
  }

  lemma KafkaTarget()
    ensures Listed(KAFKA_TARGET) && !ContainsAny(KAFKA_TARGET, CONTAINER_NAMES)
  {
    hide Listed, Contains, EVENT_HUBS;
    EventHubsListed(" (Kafka protocol)");
    EventHubsLetters();
    AbsentChar(KAFKA_TARGET, "Container Instances", 'C');
    AbsentChar(KAFKA_TARGET, "Container Apps", 'C');
    NoAppService(KAFKA_TARGET);
  }

  lemma StreamingTarget()
    ensures Listed(STREAMING_TARGET) && !ContainsAny(STREAMING_TARGET, CONTAINER_NAMES)
  {
    hide Listed, Contains, EVENT_HUBS;
    EventHubsListed(" + Spark Structured Streaming");
    EventHubsLetters();
    AbsentChar(STREAMING_TARGET, "Container Instances", 'C');
    AbsentChar(STREAMING_TARGET, "Container Apps", 'C');
    NoAppService(STREAMING_TARGET);
  }

  lemma EventHubsListed(suffix: string)
    ensures Listed(EVENT_HUBS + suffix)
  {
    hide Listed;
    assert EVENT_HUBS == "Azure " + "Event Hubs";
    ListedWith("Azure ", 6, suffix);
  }

  lemma EventHubsLetters()
    ensures 'C' !in EVENT_HUBS && |EVENT_HUBS| > 1 && 'A' !in EVENT_HUBS[1..] && EVENT_HUBS[1] == 'z'
  {
  }

  /** The only capital A is the first letter, and no p follows it. */
  lemma NoAppService(name: string)
    requires name != "" && 'A' !in name[1..] && (|name| > 1 ==> name[1] != 'p')
    ensures !Contains(name, "App Service")
  {
    forall i: nat ensures !OccursAt(name, "App Service", i) {
      CharAt(name, "App Service", i, 0);
      CharAt(name, "App Service", i, 1);
      assert 0 < i < |name| ==> name[1..][i - 1] == name[i];
    }
  }

  lemma ContainerTargets(a: Answers)
    ensures Listed("Azure " + ContainerTarget(a)) <==> ContainerTarget(a) in {"Container Apps", "Container Instances"}
  {
    assert ContainerTarget(a) in {"AKS", "Container Apps", "Container Instances", "App Service"} by {
      hide Maybe;
    }
    hide ContainerTarget, Listed;
    if ContainerTarget(a) == "Container Apps" {
      assert "Azure " + "Container Apps" == "Azure " + PRIVATE_LINK[5] + " Apps";
      ListedWith("Azure ", 5, " Apps");
    } else if ContainerTarget(a) == "Container Instances" {
      assert "Azure " + "Container Instances" == "Azure " + PRIVATE_LINK[5] + " Instances";
      ListedWith("Azure ", 5, " Instances");
    } else if ContainerTarget(a) == "AKS" {
      Unlisted("Azure " + "AKS");
    } else {
      Unlisted("Azure " + "App Service");
    }
  }

  // ---- Targets that stay -------------------------------------------------------------------------------

  /** Answers and a source service for which no rule has a reason to rename. */
  predicate NoRename(a: Answers, source: string) {
    && SkuTier(a) !in {"enterprise", "basic"} && !ActiveActiveWanted(a)
    && !ContainsAny(source, SPARK_SOURCES) && !ContainsAny(source, STREAM_SOURCES)
    && !Contains(source, "TwinMaker") && !ContainsAny(source, CONTAINER_SOURCES)
  }

  /** In a balanced or performance tier without active-active regions, only
      mappings from Spark, streaming, digital-twin and container services can end
      with another target than they started with, through any rules in any order. */
  lemma {:induction false} OthersKeepTheirName(rules: seq<Rule>, a: Answers, m: Mapping)
    requires NoRename(a, m.source)
    ensures AfterRules(rules, BookOf(a), m).azure == m.azure
  {
    hide BookOf, ContainsAny, Contains, SkuTier;
    if rules != [] {
      var n := |rules| - 1;
      OthersKeepTheirName(rules[..n], a, m);
      OnlyExtended(rules[..n], BookOf(a), m);
      RuleName(rules[n], a, AfterRules(rules[..n], BookOf(a), m));
    }
  }
}
