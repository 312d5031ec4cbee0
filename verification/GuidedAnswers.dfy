/** The guided-answer pipeline: nineteen rules applied in order to the same
    mappings, later rules testing names that earlier ones rewrote. */
module GuidedAnswers {
  import opened Text

  datatype Answer = One(text: string) | Many(choices: seq<string>)

  type Answers = map<string, Answer>

  /** Confidence is in hundredths; a mapping may come without one. */
  datatype Mapping = Mapping(
    source: string, azure: string, notes: string, confidence: Option<int>, reasons: seq<Reason>)

  datatype Reason =
    | SimplerConfig | EnterpriseSku | MultiRegionWrites | PrivateLink | GeoRedundant(redundancy: string)
    | SparkRuntime(runtime: string) | PremiumFunctions | DigitalTwins

  datatype Warning =
    | DevelopmentDefaults | MultiEnvironment | EnterpriseTier | CostOptimizedTier
    | ActiveActive | ActivePassive | SingleRegion | HotStandby
    | Hipaa | GdprResidency | Gdpr | PciDss | FedRamp | ResidencyRegions(residency: string) | SpecificCountry
    | PrivateEndpoints | AirGapped | Databricks | HdInsight | IotVolume | IotScale
    | FullObservability | Sentinel | HsmKeys | CustomerKeys

  const DEFAULT_CONFIDENCE := 80

  datatype Boost = Boost(points: int, reason: Reason)

  /** What one rule does to one mapping. `note` is appended to the notes. */
  datatype Change = Change(azure: string, note: string, boost: Option<Boost>)

  datatype Rule =
    | Environment | SkuStrategy | HaAndDr | Compliance | NetworkIsolation | StorageRedundancy | Spark
    | FunctionsPlan | CosmosDb | CacheTier | SqlTier | Streaming | Iot | Monitoring | Containers | Ml
    | IacStyle | DeployRegion | Encryption

  const RULES := [
    Environment, SkuStrategy, HaAndDr, Compliance, NetworkIsolation, StorageRedundancy, Spark,
    FunctionsPlan, CosmosDb, CacheTier, SqlTier, Streaming, Iot, Monitoring, Containers, Ml,
    IacStyle, DeployRegion, Encryption]

  // ---- Reading answers --------------------------------------------------------------------

  /** Given answers win over the defaults of the question bank. */
  function MergeDefaults(defaults: Answers, answers: Answers): Answers {
    defaults + answers
  }

  function Get(a: Answers, key: string, default: string): string {
    if key in a && a[key].One? then a[key].text else default
  }

  /** An answer that may be missing; an empty one counts as missing. */
  function Maybe(a: Answers, key: string): string {
    Get(a, key, "")
  }

  function Frameworks(a: Answers): seq<string> {
    if "sec_compliance" !in a then ["None"]
    else match a["sec_compliance"]
      case One(text) => [text]
      case Many(choices) => choices
  }

  predicate ContainsAny(s: string, fragments: seq<string>) {
    exists i :: 0 <= i < |fragments| && Contains(s, fragments[i])
  }

  /** Python's `s.replace(from, to)`. */
  function Replace(s: string, from: string, to: string): string
    requires from != ""
    decreases |s|
  {
    if s == "" then ""
    else if StartsWith(s, from) then to + Replace(s[|from|..], from, to)
    else [s[0]] + Replace(s[1..], from, to)
  }

  function Lookup(table: map<string, string>, key: string, default: string): string {
    if key in table then table[key] else default
  }

  const TIERS := map[
    "Cost-optimized (lowest viable tier)" := "basic",
    "Balanced (good performance-to-cost ratio)" := "standard",
    "Performance-first (premium tiers)" := "premium",
    "Enterprise (maximum SLA and features)" := "enterprise"]

  const SPARK_RUNTIMES := map[
    "Azure Synapse Spark Pools" := "Azure Synapse Spark Pool",
    "Azure HDInsight" := "Azure HDInsight",
    "Azure Databricks" := "Azure Databricks"]

  const FUNCTION_PLANS := map[
    "Consumption (pure serverless, pay-per-execution)" := "consumption",
    "Premium (pre-warmed instances, VNet support)" := "premium",
    "Dedicated App Service Plan" := "dedicated"]

  const COSMOS_APIS := map[
    "NoSQL (native, recommended)" := "nosql", "MongoDB" := "mongodb", "Cassandra" := "cassandra",
    "Gremlin (graph)" := "gremlin", "Table" := "table"]

  const COSMOS_THROUGHPUT := map[
    "Serverless (intermittent traffic)" := "serverless",
    "Provisioned with manual scaling" := "provisioned",
    "Provisioned with autoscale" := "autoscale"]

  const CACHE_TIERS := map[
    "Basic (dev/test, no SLA)" := "basic",
    "Standard (replicated, 99.9 %)" := "standard",
    "Premium (clustering, VNet, geo-replication)" := "premium",
    "Enterprise (Redis Enterprise modules)" := "enterprise"]

  const SQL_TIERS := map[
    "Basic / Burstable (B-series)" := "burstable",
    "General Purpose" := "general_purpose",
    "Business Critical / Memory-Optimized" := "business_critical",
    "Hyperscale" := "hyperscale"]

  const CONTAINER_RUNTIMES := map[
    "AKS (full Kubernetes)" := "AKS",
    "Azure Container Apps (serverless Kubernetes)" := "Container Apps",
    "Azure Container Instances (simple single-container)" := "Container Instances",
    "Azure App Service (containers on PaaS)" := "App Service"]

  const ML_COMPUTE := map[
    "CPU clusters (general training)" := "cpu",
    "GPU clusters (deep learning)" := "gpu",
    "Spark pools (big-data ML)" := "spark",
    "Serverless compute (AML managed)" := "serverless"]

  const PRIVATE_LINK := ["Blob", "SQL", "Cosmos", "Key Vault", "Functions", "Container", "Event Hubs", "Service Bus"]
  const ENCRYPTED := ["Blob", "ADLS", "Data Lake", "SQL", "Cosmos", "Redis", "Managed Disk", "Functions"]
  const GEO_REDUNDANT := {"GRS", "RA-GRS", "GZRS"}
  const STORAGE := ["Blob Storage", "ADLS", "Data Lake", "Azure Files"]
  const SPARK_SOURCES := ["EMR", "Elastic MapReduce"]
  const SPARK_NAMES := ["Synapse", "HDInsight", "Databricks"]
  const STREAM_SOURCES := ["Kinesis", "MSK"]
  const CONTAINER_SOURCES := ["ECS", "Fargate", "App Runner"]
  const CONTAINER_NAMES := ["Container Instances", "Container Apps", "App Service"]

  const EVENT_HUBS := "Azure Event Hubs"
  const KAFKA_TARGET := EVENT_HUBS + " (Kafka protocol)"
  const STREAMING_TARGET := EVENT_HUBS + " + Spark Structured Streaming"
  const TWINS_TARGET := "Azure Digital Twins"

  // ---- What the answers ask for --------------------------------------------------------------

  predicate Development(a: Answers) {
    Get(a, "env_target", "Production") == "Development"
  }

  function SkuTier(a: Answers): string {
    Lookup(TIERS, Get(a, "arch_sku_strategy", "Balanced"), "standard")
  }

  /** The name of a service in the tier asked for. */
  function TierName(a: Answers, name: string): string {
    if SkuTier(a) == "enterprise" then Replace(name, "Standard", "Premium")
    else if SkuTier(a) == "basic" then Replace(name, "Premium", "Standard")
    else name
  }

  predicate ActiveActiveWanted(a: Answers) {
    Contains(Get(a, "arch_ha", "Multi-AZ within region (99.95 %)"), "active-active")
  }

  /** A database that gets multi-region writes. */
  predicate SpreadsWrites(a: Answers, name: string) {
    ActiveActiveWanted(a) && Contains(name, "Cosmos DB") && !Contains(Lower(name), "multi-region")
  }

  predicate PrivateEndpointsWanted(a: Answers) {
    Get(a, "sec_network_isolation", "VNet integration") == "Full private endpoints"
  }

  function Redundancy(a: Answers): string {
    Get(a, "data_storage_redundancy", "ZRS")
  }

  function SparkTarget(a: Answers): string {
    Lookup(SPARK_RUNTIMES, Get(a, "data_spark_runtime", "Azure Synapse Spark Pools"), "Azure Synapse Spark Pool")
  }

  predicate SparkRenames(source: string, name: string) {
    ContainsAny(source, SPARK_SOURCES) && ContainsAny(name, SPARK_NAMES)
  }

  function FunctionPlan(a: Answers): string {
    Lookup(FUNCTION_PLANS, Get(a, "data_functions_plan", "Consumption"), "consumption")
  }

  /** The new name of a streaming service, if the engine asks for one. */
  function StreamTarget(a: Answers): Option<string> {
    var engine := Get(a, "data_streaming_engine", "Azure Event Hubs + Stream Analytics");
    if Contains(engine, "Kafka") then Some(KAFKA_TARGET)
    else if Contains(engine, "Spark") then Some(STREAMING_TARGET)
    else None
  }

  predicate StreamRenames(a: Answers, source: string) {
    ContainsAny(source, STREAM_SOURCES) && StreamTarget(a).Some?
  }

  predicate TwinsRename(a: Answers, source: string) {
    Contains(Maybe(a, "iot_digital_twins"), "Digital Twins") && Contains(source, "TwinMaker")
  }

  function ContainerTarget(a: Answers): string {
    Lookup(CONTAINER_RUNTIMES, Maybe(a, "container_runtime_pref"), "Container Apps")
  }

  predicate ContainerRenames(a: Answers, source: string, name: string) {
    && Maybe(a, "container_runtime_pref") != ""
    && ContainsAny(source, CONTAINER_SOURCES) && ContainsAny(name, CONTAINER_NAMES)
  }

  // ---- The rules ------------------------------------------------------------------------------

  function Unchanged(m: Mapping): Change {
    Change(m.azure, "", None)
  }

  function Noted(m: Mapping, note: string): Change {
    Change(m.azure, " | " + note, None)
  }

  function EnvironmentChange(a: Answers, m: Mapping): Change {
    if Development(a) then Change(m.azure, "", Some(Boost(5, SimplerConfig))) else Unchanged(m)
  }

  function SkuChange(a: Answers, m: Mapping): Change {
    Change(TierName(a, m.azure), "", if SkuTier(a) == "enterprise" then Some(Boost(3, EnterpriseSku)) else None)
  }

  function HaChange(a: Answers, m: Mapping): Change {
    if SpreadsWrites(a, m.azure)
    then Change(m.azure + " (multi-region writes)", "", Some(Boost(5, MultiRegionWrites)))
    else Unchanged(m)
  }

  function NetworkChange(a: Answers, m: Mapping): Change {
    if PrivateEndpointsWanted(a) && ContainsAny(m.azure, PRIVATE_LINK)
    then Change(m.azure, "", Some(Boost(2, PrivateLink)))
    else Unchanged(m)
  }

  function StorageChange(a: Answers, m: Mapping): Change {
    if ContainsAny(m.azure, STORAGE) then
      Noted(m, "Redundancy: " + Redundancy(a)).(
        boost := if Redundancy(a) in GEO_REDUNDANT then Some(Boost(3, GeoRedundant(Redundancy(a)))) else None)
    else Unchanged(m)
  }

  function SparkChange(a: Answers, m: Mapping): Change {
    var runtime := Get(a, "data_spark_runtime", "Azure Synapse Spark Pools");
    if SparkRenames(m.source, m.azure)
    then Change(SparkTarget(a), " | User selected: " + runtime, Some(Boost(5, SparkRuntime(runtime))))
    else Unchanged(m)
  }

  function FunctionsChange(a: Answers, m: Mapping): Change {
    if Contains(m.azure, "Functions") then
      Noted(m, "Plan: " + FunctionPlan(a)).(
        boost := if FunctionPlan(a) == "premium" then Some(Boost(3, PremiumFunctions)) else None)
    else Unchanged(m)
  }

  function CosmosChange(a: Answers, m: Mapping): Change {
    var api := Lookup(COSMOS_APIS, Get(a, "data_cosmosdb_api", "NoSQL (native, recommended)"), "nosql");
    var throughput :=
      Lookup(COSMOS_THROUGHPUT, Get(a, "data_cosmosdb_throughput", "Provisioned with autoscale"), "autoscale");
    if Contains(m.azure, "Cosmos DB") then Noted(m, "API: " + api + ", Throughput: " + throughput) else Unchanged(m)
  }

  function CacheChange(a: Answers, m: Mapping): Change {
    var tier := Lookup(CACHE_TIERS, Get(a, "data_cache_tier", "Standard (replicated, 99.9 %)"), "standard");
    if ContainsAny(m.azure, ["Redis", "Cache"]) then Noted(m, "Tier: " + tier) else Unchanged(m)
  }

  function SqlChange(a: Answers, m: Mapping): Change {
    var tier := Lookup(SQL_TIERS, Get(a, "data_sql_tier", "General Purpose"), "general_purpose");
    if ContainsAny(m.azure, ["SQL Database", "PostgreSQL", "MySQL"])
    then Noted(m, "Compute tier: " + tier)
    else Unchanged(m)
  }

  function StreamingChange(a: Answers, m: Mapping): Change {
    if !StreamRenames(a, m.source) then Unchanged(m)
    else
      Change(StreamTarget(a).value,
             if StreamTarget(a) == Some(KAFKA_TARGET)
             then " | Kafka surface enabled"
             else " | Spark Structured Streaming",
             None)
  }

  function IotChange(a: Answers, m: Mapping): Change {
    if TwinsRename(a, m.source)
    then Change(TWINS_TARGET, " | User confirmed digital twins", Some(Boost(5, DigitalTwins)))
    else Unchanged(m)
  }

  function ContainersChange(a: Answers, m: Mapping): Change {
    if ContainerRenames(a, m.source, m.azure)
    then Change("Azure " + ContainerTarget(a), " | User selected: " + ContainerTarget(a), None)
    else Unchanged(m)
  }

  function MlChange(a: Answers, m: Mapping): Change {
    var compute := Maybe(a, "ml_compute_target");
    if compute != "" && Contains(m.source, "SageMaker")
    then Noted(m, "Compute: " + Lookup(ML_COMPUTE, compute, "gpu"))
    else Unchanged(m)
  }

  function EncryptionChange(a: Answers, m: Mapping): Change {
    if && Contains(Get(a, "sec_encryption", "Platform-managed keys (default)"), "Customer-managed")
       && ContainsAny(m.azure, ENCRYPTED)
    then Noted(m, "Encryption: CMK via Key Vault")
    else Unchanged(m)
  }

  function ChangeOf(r: Rule, a: Answers, m: Mapping): Change {
    match r
    case Environment => EnvironmentChange(a, m)
    case SkuStrategy => SkuChange(a, m)
    case HaAndDr => HaChange(a, m)
    case Compliance => Unchanged(m)
    case NetworkIsolation => NetworkChange(a, m)
    case StorageRedundancy => StorageChange(a, m)
    case Spark => SparkChange(a, m)
    case FunctionsPlan => FunctionsChange(a, m)
    case CosmosDb => CosmosChange(a, m)
    case CacheTier => CacheChange(a, m)
    case SqlTier => SqlChange(a, m)
    case Streaming => StreamingChange(a, m)
    case Iot => IotChange(a, m)
    case Monitoring => Unchanged(m)
    case Containers => ContainersChange(a, m)
    case Ml => MlChange(a, m)
    case IacStyle => Unchanged(m)
    case DeployRegion => Unchanged(m)
    case Encryption => EncryptionChange(a, m)
  }

  // ---- Warnings ---------------------------------------------------------------------------------

  function When(c: bool, w: Warning): seq<Warning> {
    if c then [w] else []
  }

  function HaWarnings(a: Answers): seq<Warning> {
    var ha := Get(a, "arch_ha", "Multi-AZ within region (99.95 %)");
    (if Contains(ha, "active-active") then [ActiveActive]
     else if Contains(ha, "active-passive") then [ActivePassive]
     else When(Contains(ha, "Single region"), SingleRegion))
    + When(Contains(Get(a, "arch_dr_rto", "<1 hour"), "<1 min"), HotStandby)
  }

  function ComplianceWarnings(a: Answers): seq<Warning> {
    var f, residency := Frameworks(a), Get(a, "sec_data_residency", "No restriction");
    When("HIPAA" in f, Hipaa)
    + When("GDPR" in f && residency == "No restriction", GdprResidency) + When("GDPR" in f, Gdpr)
    + When("PCI-DSS" in f, PciDss) + When("FedRAMP" in f, FedRamp)
    + (if residency in {"EU only", "US only"} then [ResidencyRegions(residency)]
       else When(residency == "Specific country", SpecificCountry))
  }

  function MonitoringWarnings(a: Answers): seq<Warning> {
    var depth := Get(a, "ops_monitoring_depth", "Application Insights");
    if Contains(depth, "None") || Contains(Lower(depth), "no monitoring") then []
    else if Contains(depth, "Full observability") then [FullObservability]
    else When(Contains(depth, "Sentinel"), Sentinel)
  }

  function EncryptionWarnings(a: Answers): seq<Warning> {
    var pref := Get(a, "sec_encryption", "Platform-managed keys (default)");
    if !Contains(pref, "Customer-managed") then []
    else if Contains(pref, "HSM") then [HsmKeys]
    else [CustomerKeys]
  }

  function WarningsOf(r: Rule, a: Answers): seq<Warning> {
    match r
    case Environment =>
      var env := Get(a, "env_target", "Production");
      When(env == "Development", DevelopmentDefaults) + When(env == "Multi-environment", MultiEnvironment)
    case SkuStrategy =>
      When(SkuTier(a) == "enterprise", EnterpriseTier) + When(SkuTier(a) == "basic", CostOptimizedTier)
    case HaAndDr => HaWarnings(a)
    case Compliance => ComplianceWarnings(a)
    case NetworkIsolation =>
      var level := Get(a, "sec_network_isolation", "VNet integration");
      When(level == "Full private endpoints", PrivateEndpoints) + When(level == "Air-gapped / isolated", AirGapped)
    case Spark =>
      When(SparkTarget(a) == "Azure Databricks", Databricks) + When(SparkTarget(a) == "Azure HDInsight", HdInsight)
    case Iot =>
      When(Maybe(a, "iot_message_volume") == ">100 M messages/day", IotVolume)
      + When(Maybe(a, "iot_device_scale") == ">1 M devices", IotScale)
    case Monitoring => MonitoringWarnings(a)
    case Encryption => EncryptionWarnings(a)
    case _ => []
  }

  // ---- Applying rules in place -----------------------------------------------------------------------

  function Confidence(m: Mapping): int {
    if m.confidence.Some? then m.confidence.value else DEFAULT_CONFIDENCE
  }

  function Updated(m: Mapping, c: Change): Mapping {
    var m' := m.(azure := c.azure, notes := m.notes + c.note);
    if c.boost == None then m'
    else m'.(confidence := Some(Min(100, Confidence(m) + c.boost.value.points)),
             reasons := m.reasons + [c.boost.value.reason])
  }

  /** A rule book says what each rule does to a mapping as it finds it. */
  type RuleBook = (Rule, Mapping) -> Change

  function BookOf(a: Answers): RuleBook {
    (r, m) => ChangeOf(r, a, m)
  }

  /** One mapping after a list of rules, each seeing what the ones before it left. */
  function AfterRules(rules: seq<Rule>, book: RuleBook, m: Mapping): Mapping {
    if rules == [] then m
    else
      var n := |rules| - 1;
      var before := AfterRules(rules[..n], book, m);
      Updated(before, book(rules[n], before))
  }

  type WarningBook = Rule -> seq<Warning>

  function WarningBookOf(a: Answers): WarningBook {
    r => WarningsOf(r, a)
  }

  function AllWarnings(rules: seq<Rule>, book: WarningBook): seq<Warning> {
    if rules == [] then []
    else AllWarnings(rules[..|rules| - 1], book) + book(rules[|rules| - 1])
  }

  method ApplyRule(r: Rule, book: RuleBook, mappings: array<Mapping>)
    modifies mappings
    ensures forall i :: 0 <= i < mappings.Length ==> mappings[i] == Updated(old(mappings[i]), book(r, old(mappings[i])))
  {
    for i := 0 to mappings.Length
      invariant forall j :: 0 <= j < i ==> mappings[j] == Updated(old(mappings[j]), book(r, old(mappings[j])))
      invariant forall j :: i <= j < mappings.Length ==> mappings[j] == old(mappings[j])
    {
      var c := book(r, mappings[i]);
      mappings[i] := Updated(mappings[i], c);
    }
  }

  /** The rules one after another over the mapping array. */
  method ApplyRules(rules: seq<Rule>, book: RuleBook, mappings: array<Mapping>)
    modifies mappings
    ensures forall i :: 0 <= i < mappings.Length ==> mappings[i] == AfterRules(rules, book, old(mappings[i]))
  {
    for k := 0 to |rules|
      invariant forall i :: 0 <= i < mappings.Length ==> mappings[i] == AfterRules(rules[..k], book, old(mappings[i]))
    {
      assert rules[..k + 1][..k] == rules[..k];
      ApplyRule(rules[k], book, mappings);
    }
    assert rules[..|rules|] == rules;
  }

  method CollectWarnings(rules: seq<Rule>, book: WarningBook, initial: seq<Warning>) returns (warnings: seq<Warning>)
    ensures warnings == initial + AllWarnings(rules, book)
  {
    warnings := initial;
    for k := 0 to |rules|
      invariant warnings == initial + AllWarnings(rules[..k], book)
    {
      assert rules[..k + 1][..k] == rules[..k];
      warnings := warnings + book(rules[k]);
    }
    assert rules[..|rules|] == rules;
  }

  datatype Summary = Summary(high: nat, medium: nat, low: nat)

  /** Confidence as the summary reads it: a missing one counts as zero. */
  function Shown(m: Mapping): int {
    if m.confidence.Some? then m.confidence.value else 0
  }

  /** How many mappings show at least the given confidence. */
  function AtLeast(ms: seq<Mapping>, bound: int): nat {
    if ms == [] then 0
    else
      var n := |ms| - 1;
      AtLeast(ms[..n], bound) + if Shown(ms[n]) >= bound then 1 else 0
  }

  /** The three counts partition the mappings. */
  method Summarize(mappings: array<Mapping>) returns (s: Summary)
    ensures s.high == AtLeast(mappings[..], 90) && s.high + s.medium == AtLeast(mappings[..], 80)
    ensures s.high + s.medium + s.low == mappings.Length
  {
    s := Summary(0, 0, 0);
    for i := 0 to mappings.Length
      invariant s.high == AtLeast(mappings[..i], 90) && s.high + s.medium == AtLeast(mappings[..i], 80)
      invariant s.high + s.medium + s.low == i
    {
      assert mappings[..i + 1][..i] == mappings[..i];
      var c := Shown(mappings[i]);
      if c >= 90 {
        s := s.(high := s.high + 1);
      } else if c >= 80 {
        s := s.(medium := s.medium + 1);
      } else {
        s := s.(low := s.low + 1);
      }
    }
    assert mappings[..mappings.Length] == mappings[..];
  }

  predicate ValidConfidence(m: Mapping) {
    m.confidence.Some? ==> 0 <= m.confidence.value <= 100
  }

  /** The whole pipeline works on a deep copy: the analysis passed in is not touched. */
  method ApplyAnswers(input: array<Mapping>, inputWarnings: seq<Warning>, defaults: Answers, answers: Answers)
    returns (mappings: array<Mapping>, warnings: seq<Warning>, summary: Summary)
    ensures fresh(mappings) && mappings.Length == input.Length && input[..] == old(input[..])
    ensures forall i :: 0 <= i < input.Length ==>
      mappings[i] == AfterRules(RULES, BookOf(MergeDefaults(defaults, answers)), input[i])
    ensures warnings == inputWarnings + AllWarnings(RULES, WarningBookOf(MergeDefaults(defaults, answers)))
    ensures summary.high + summary.medium + summary.low == input.Length
    ensures summary.high == AtLeast(mappings[..], 90) && summary.high + summary.medium == AtLeast(mappings[..], 80)
  {
    hide AfterRules, AllWarnings, MergeDefaults;
    var a := MergeDefaults(defaults, answers);
    mappings := new Mapping[input.Length](i requires 0 <= i < input.Length reads input => input[i]);
    ApplyRules(RULES, BookOf(a), mappings);
    warnings := CollectWarnings(RULES, WarningBookOf(a), inputWarnings);
    summary := Summarize(mappings);
  }

  // ---- Results ---------------------------------------------------------------------------------------

  /** The increments that fire on one mapping along the way, in order. */
  function Fired(rules: seq<Rule>, book: RuleBook, m: Mapping): seq<Boost> {
    if rules == [] then []
    else
      var n := |rules| - 1;
      var boost := book(rules[n], AfterRules(rules[..n], book, m)).boost;
      Fired(rules[..n], book, m) + if boost.Some? then [boost.value] else []
  }

  function Points(boosts: seq<Boost>): int {
    if boosts == [] then 0 else Points(boosts[..|boosts| - 1]) + boosts[|boosts| - 1].points
  }

  predicate CanRaise(r: Rule) {
    || r.Environment? || r.SkuStrategy? || r.HaAndDr? || r.NetworkIsolation?
    || r.StorageRedundancy? || r.Spark? || r.FunctionsPlan? || r.Iot?
  }

  /** A rule raises confidence by two to five points, and only the eight rules
      above ever do. */
  ghost predicate Positive(book: RuleBook) {
    forall r, m :: book(r, m).boost.Some? ==> 2 <= book(r, m).boost.value.points <= 5 && CanRaise(r)
  }

  predicate SmallBoost(c: Change) {
    c.boost.Some? ==> 2 <= c.boost.value.points <= 5
  }

  lemma RaisersAreSmall(r: Rule, a: Answers, m: Mapping)
    requires CanRaise(r)
    ensures SmallBoost(ChangeOf(r, a, m))
  {
    hide ContainsAny, Contains, TierName, Lower, Get, Lookup, SkuTier, SparkTarget, StreamTarget, Development;
  }

  lemma OthersRaiseNothing(r: Rule, a: Answers, m: Mapping)
    requires !CanRaise(r)
    ensures ChangeOf(r, a, m).boost == None
  {
    hide ContainsAny, Contains, TierName, Lower, Get, Lookup, SkuTier, SparkTarget, StreamTarget, Development;
  }

  lemma BookIsPositive(a: Answers)
    ensures Positive(BookOf(a))
  {
    forall r, m ensures BookOf(a)(r, m).boost.Some? ==>
      2 <= BookOf(a)(r, m).boost.value.points <= 5 && CanRaise(r)
    {
      if CanRaise(r) {
        RaisersAreSmall(r, a, m);
      } else {
        OthersRaiseNothing(r, a, m);
      }
      assert BookOf(a)(r, m) == ChangeOf(r, a, m);
    }
  }

  lemma PointsAppend(boosts: seq<Boost>, b: Boost)
    ensures Points(boosts + [b]) == Points(boosts) + b.points
  {
    assert (boosts + [b])[..|boosts|] == boosts;
  }

  /** The confidence of `m` after exactly the given increments, capped at 100. */
  predicate Raised(m: Mapping, m': Mapping, fired: seq<Boost>) {
    && Points(fired) >= 2 * |fired|
    && m'.confidence == if fired == [] then m.confidence else Some(Min(100, Confidence(m) + Points(fired)))
  }

  lemma RaisedStep(m: Mapping, before: Mapping, fired: seq<Boost>, c: Change)
    requires Raised(m, before, fired)
    requires SmallBoost(c)
    ensures c.boost == None ==> Raised(m, Updated(before, c), fired)
    ensures c.boost.Some? ==> Raised(m, Updated(before, c), fired + [c.boost.value])
  {
    if c.boost.Some? {
      PointsAppend(fired, c.boost.value);
    }
  }

  /** For any rules, answers and mapping, the final confidence is the initial
      one plus every increment that fired, capped once at 100 although each rule
      caps on its own; a mapping without confidence starts from the default when
      something fires and stays without one otherwise. */
  lemma {:induction false} ConfidenceIsCappedSum(rules: seq<Rule>, book: RuleBook, m: Mapping)
    requires Positive(book)
    ensures Raised(m, AfterRules(rules, book, m), Fired(rules, book, m))
    ensures ValidConfidence(m) ==> ValidConfidence(AfterRules(rules, book, m))
  {
    if rules != [] {
      var n := |rules| - 1;
      var before, fired := AfterRules(rules[..n], book, m), Fired(rules[..n], book, m);
      ConfidenceIsCappedSum(rules[..n], book, m);
      assert SmallBoost(book(rules[n], before));
      hide Raised, SmallBoost, Updated;
      RaisedStep(m, before, fired, book(rules[n], before));
      assert fired + [] == fired;
    }
    RaisedIsValid(m, AfterRules(rules, book, m), Fired(rules, book, m));
  }

  lemma RaisedIsValid(m: Mapping, m': Mapping, fired: seq<Boost>)
    ensures Raised(m, m', fired) && ValidConfidence(m) ==> ValidConfidence(m')
  {
  }

  function ReasonsOf(boosts: seq<Boost>): seq<Reason> {
    seq(|boosts|, i requires 0 <= i < |boosts| => boosts[i].reason)
  }

  /** Exactly one reason is appended for each increment, in order; the source
      service never changes and notes are only extended. */
  lemma {:induction false} OnlyExtended(rules: seq<Rule>, book: RuleBook, m: Mapping)
    ensures var m' := AfterRules(rules, book, m);
            && m'.source == m.source
            && m'.reasons == m.reasons + ReasonsOf(Fired(rules, book, m))
            && m.notes <= m'.notes
  {
    if rules != [] {
      OnlyExtended(rules[..|rules| - 1], book, m);
    }
  }

  /** How many rules of the list can raise confidence at all. */
  function Raisers(rules: seq<Rule>): nat {
    if rules == [] then 0
    else Raisers(rules[..|rules| - 1]) + if CanRaise(rules[|rules| - 1]) then 1 else 0
  }

  lemma {:induction false} AtMostRaisersFire(rules: seq<Rule>, book: RuleBook, m: Mapping)
    requires Positive(book)
    ensures |Fired(rules, book, m)| <= Raisers(rules)
  {
    if rules != [] {
      AtMostRaisersFire(rules[..|rules| - 1], book, m);
    }
  }

  lemma RaisersStep(k: nat)
    requires k < |RULES|
    ensures Raisers(RULES[..k + 1]) == Raisers(RULES[..k]) + if CanRaise(RULES[k]) then 1 else 0
  {
    assert RULES[..k + 1][..k] == RULES[..k];
  }

  lemma EightRaisers()
    ensures Raisers(RULES) == 8
  {
    for k := 0 to |RULES|
      invariant Raisers(RULES[..k]) ==
                if k <= 3 then k else if k <= 7 then k - 1 else if k <= 12 then 7 else 8
    {
      RaisersStep(k);
    }
    assert RULES[..|RULES|] == RULES;
  }

  /** Of the nineteen rules at most eight add a reason to a mapping. */
  lemma AtMostEightReasons(a: Answers, m: Mapping)
    ensures |AfterRules(RULES, BookOf(a), m).reasons| <= |m.reasons| + 8
  {
    BookIsPositive(a);
    OnlyExtended(RULES, BookOf(a), m);
    AtMostRaisersFire(RULES, BookOf(a), m);
    EightRaisers();
  }

  /** Running a list of rules and then another is running the joined list. */
  lemma {:induction false} RunsJoin(first: seq<Rule>, second: seq<Rule>, book: RuleBook, m: Mapping)
    ensures AfterRules(first + second, book, m) == AfterRules(second, book, AfterRules(first, book, m))
    ensures Fired(first + second, book, m) == Fired(first, book, m) + Fired(second, book, AfterRules(first, book, m))
  {
    if second == [] {
      assert first + second == first;
    } else {
      var n := |second| - 1;
      assert (first + second)[..|first| + n] == first + second[..n];
      RunsJoin(first, second[..n], book, m);
    }
  }

  /** Applying a list of rules once more leaves the reasons as they are exactly
      when no increment fires the second time. */
  lemma SecondRunIsQuietIff(rules: seq<Rule>, book: RuleBook, m: Mapping)
    ensures var once := AfterRules(rules, book, m);
            AfterRules(rules + rules, book, m).reasons == once.reasons <==> Fired(rules, book, once) == []
  {
    var once := AfterRules(rules, book, m);
    RunsJoin(rules, rules, book, m);
    OnlyExtended(rules, book, once);
  }
}
