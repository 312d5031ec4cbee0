/** The guided-answer pipeline in terms of what was answered: which answer wins,
    and what each choice does to the targets, increments, notes and warnings. */
module GuidedMeaning {
  import opened Text
  import opened GuidedAnswers
  import opened GuidedTargets

  /** A question was answered with exactly this text. */
  predicate Is(a: Answers, key: string, text: string) {
    key in a && a[key] == One(text)
  }

  /** The text answered to a question mentions a fragment. */
  predicate Says(a: Answers, key: string, fragment: string) {
    key in a && a[key].One? && Contains(a[key].text, fragment)
  }

  /** The text answered to a question, or what holds without one. */
  function Told(a: Answers, key: string, otherwise: string): string {
    if key in a then match a[key] case One(text) => text case Many(_) => otherwise else otherwise
  }

  // ---- Given answers and defaults -----------------------------------------------------------------

  /** For every question the given answer wins, whatever the default; a default
      stands in for a question without an answer; and no other question counts. */
  lemma GivenAnswersWin(defaults: Answers, answers: Answers)
    ensures var merged := MergeDefaults(defaults, answers);
            && (forall key :: key in merged <==> key in answers || key in defaults)
            && (forall key :: key in answers ==> merged[key] == answers[key])
            && (forall key :: key in defaults && key !in answers ==> merged[key] == defaults[key])
  {
  }

  /** Defaults of answered questions decide nothing: two calls whose defaults
      agree on the questions left open give the same mappings and warnings. */
  lemma OpenQuestionsDecide(defaults: Answers, others: Answers, answers: Answers, m: Mapping)
    requires forall key :: key !in answers ==> (key in defaults <==> key in others)
    requires forall key :: key !in answers && key in defaults ==> defaults[key] == others[key]
    ensures var a, b := MergeDefaults(defaults, answers), MergeDefaults(others, answers);
            && AfterRules(RULES, BookOf(a), m) == AfterRules(RULES, BookOf(b), m)
            && AllWarnings(RULES, WarningBookOf(a)) == AllWarnings(RULES, WarningBookOf(b))
  {
    hide AfterRules, AllWarnings, RULES, BookOf, WarningBookOf;
    assert MergeDefaults(defaults, answers) == MergeDefaults(others, answers);
  }

  lemma DevelopmentIff(a: Answers)
    ensures Development(a) <==> Is(a, "env_target", "Development")
  {
  }

  // ---- One rule ---------------------------------------------------------------------------------------

  /** One text after another name, if a condition holds. */
  function If(c: bool, note: string): string {
    if c then note else ""
  }

  function TierAsked(a: Answers, name: string): string {
    if Is(a, "arch_sku_strategy", "Enterprise (maximum SLA and features)") then Replace(name, "Standard", "Premium")
    else if Is(a, "arch_sku_strategy", "Cost-optimized (lowest viable tier)")
    then Replace(name, "Premium", "Standard")
    else name
  }

  predicate MultiRegionAsked(a: Answers, name: string) {
    Says(a, "arch_ha", "active-active") && Contains(name, "Cosmos DB") && !Contains(Lower(name), "multi-region")
  }

  predicate SparkAsked(source: string, name: string) {
    && (Contains(source, "EMR") || Contains(source, "Elastic MapReduce"))
    && (Contains(name, "Synapse") || Contains(name, "HDInsight") || Contains(name, "Databricks"))
  }

  function SparkAnswer(a: Answers): string {
    if Is(a, "data_spark_runtime", "Azure Databricks") then "Azure Databricks"
    else if Is(a, "data_spark_runtime", "Azure HDInsight") then "Azure HDInsight"
    else "Azure Synapse Spark Pool"
  }

  predicate StreamSource(source: string) {
    Contains(source, "Kinesis") || Contains(source, "MSK")
  }

  predicate TwinsAsked(a: Answers, source: string) {
    Says(a, "iot_digital_twins", "Digital Twins") && Contains(source, "TwinMaker")
  }

  predicate ContainersAsked(a: Answers, source: string, name: string) {
    && Told(a, "container_runtime_pref", "") != ""
    && (Contains(source, "ECS") || Contains(source, "Fargate") || Contains(source, "App Runner"))
    && (Contains(name, "Container Instances") || Contains(name, "Container Apps") || Contains(name, "App Service"))
  }

  function ContainerAnswer(a: Answers): string {
    if Is(a, "container_runtime_pref", "AKS (full Kubernetes)") then "AKS"
    else if Is(a, "container_runtime_pref", "Azure Container Instances (simple single-container)")
    then "Container Instances"
    else if Is(a, "container_runtime_pref", "Azure App Service (containers on PaaS)") then "App Service"
    else "Container Apps"
  }

  /** The target one rule gives a service. */
  function NameAsked(r: Rule, a: Answers, source: string, name: string): string {
    match r
    case SkuStrategy => TierAsked(a, name)
    case HaAndDr => if MultiRegionAsked(a, name) then name + " (multi-region writes)" else name
    case Spark => if SparkAsked(source, name) then SparkAnswer(a) else name
    case Streaming =>
      if StreamSource(source) && Says(a, "data_streaming_engine", "Kafka") then "Azure Event Hubs (Kafka protocol)"
      else if StreamSource(source) && Says(a, "data_streaming_engine", "Spark")
      then "Azure Event Hubs + Spark Structured Streaming"
      else name
    case Iot => if TwinsAsked(a, source) then "Azure Digital Twins" else name
    case Containers => if ContainersAsked(a, source, name) then "Azure " + ContainerAnswer(a) else name
    case _ => name
  }


  predicate LinkedPrivately(name: string) {
    || Contains(name, "Blob") || Contains(name, "SQL") || Contains(name, "Cosmos") || Contains(name, "Key Vault")
    || Contains(name, "Functions") || Contains(name, "Container") || Contains(name, "Event Hubs")
    || Contains(name, "Service Bus")
  }

  predicate Stores(name: string) {
    || Contains(name, "Blob Storage") || Contains(name, "ADLS") || Contains(name, "Data Lake")
    || Contains(name, "Azure Files")
  }

  predicate GeoRedundantAsked(a: Answers) {
    || Is(a, "data_storage_redundancy", "GRS") || Is(a, "data_storage_redundancy", "RA-GRS")
    || Is(a, "data_storage_redundancy", "GZRS")
  }

  predicate PremiumFunctionsAsked(a: Answers) {
    Is(a, "data_functions_plan", "Premium (pre-warmed instances, VNet support)")
  }

  /** The increment of one rule: five points for a development environment, for
      multi-region writes, for a chosen Spark runtime and for digital twins, three
      for the enterprise tier, geo-redundancy and premium functions, two for a
      private link. */
  function Increment(r: Rule, a: Answers, source: string, name: string): Option<Boost> {
    match r
    case Environment => if Is(a, "env_target", "Development") then Some(Boost(5, SimplerConfig)) else None
    case SkuStrategy =>
      if Is(a, "arch_sku_strategy", "Enterprise (maximum SLA and features)")
      then Some(Boost(3, EnterpriseSku))
      else None
    case HaAndDr => if MultiRegionAsked(a, name) then Some(Boost(5, MultiRegionWrites)) else None
    case NetworkIsolation =>
      if Is(a, "sec_network_isolation", "Full private endpoints") && LinkedPrivately(name)
      then Some(Boost(2, PrivateLink))
      else None
    case StorageRedundancy =>
      if GeoRedundantAsked(a) && Stores(name)
      then Some(Boost(3, GeoRedundant(a["data_storage_redundancy"].text)))
      else None
    case Spark =>
      if SparkAsked(source, name)
      then Some(Boost(5, SparkRuntime(Told(a, "data_spark_runtime", "Azure Synapse Spark Pools"))))
      else None
    case FunctionsPlan =>
      if PremiumFunctionsAsked(a) && Contains(name, "Functions") then Some(Boost(3, PremiumFunctions)) else None
    case Iot => if TwinsAsked(a, source) then Some(Boost(5, DigitalTwins)) else None
    case _ => None
  }

  function FunctionsWord(a: Answers): string {
    if PremiumFunctionsAsked(a) then "premium"
    else if Is(a, "data_functions_plan", "Dedicated App Service Plan") then "dedicated"
    else "consumption"
  }

  function CosmosWords(a: Answers): string {
    "API: "
    + (if Is(a, "data_cosmosdb_api", "MongoDB") then "mongodb"
       else if Is(a, "data_cosmosdb_api", "Cassandra") then "cassandra"
       else if Is(a, "data_cosmosdb_api", "Gremlin (graph)") then "gremlin"
       else if Is(a, "data_cosmosdb_api", "Table") then "table"
       else "nosql")
    + ", Throughput: "
    + (if Is(a, "data_cosmosdb_throughput", "Serverless (intermittent traffic)") then "serverless"
       else if Is(a, "data_cosmosdb_throughput", "Provisioned with manual scaling") then "provisioned"
       else "autoscale")
  }

  function CacheWord(a: Answers): string {
    if Is(a, "data_cache_tier", "Basic (dev/test, no SLA)") then "basic"
    else if Is(a, "data_cache_tier", "Premium (clustering, VNet, geo-replication)") then "premium"
    else if Is(a, "data_cache_tier", "Enterprise (Redis Enterprise modules)") then "enterprise"
    else "standard"
  }

  function SqlWord(a: Answers): string {
    if Is(a, "data_sql_tier", "Basic / Burstable (B-series)") then "burstable"
    else if Is(a, "data_sql_tier", "Business Critical / Memory-Optimized")
    then "business_critical"
    else if Is(a, "data_sql_tier", "Hyperscale") then "hyperscale"
    else "general_purpose"
  }

  function MlWord(a: Answers): string {
    if Is(a, "ml_compute_target", "CPU clusters (general training)") then "cpu"
    else if Is(a, "ml_compute_target", "Spark pools (big-data ML)") then "spark"
    else if Is(a, "ml_compute_target", "Serverless compute (AML managed)") then "serverless"
    else "gpu"
  }

  predicate Encrypts(name: string) {
    || Contains(name, "Blob") || Contains(name, "ADLS") || Contains(name, "Data Lake") || Contains(name, "SQL")
    || Contains(name, "Cosmos") || Contains(name, "Redis") || Contains(name, "Managed Disk")
    || Contains(name, "Functions")
  }

  /** What one rule appends to the notes. */
  function NoteAsked(r: Rule, a: Answers, source: string, name: string): string {
    match r
    case StorageRedundancy =>
      If(Stores(name), " | " + ("Redundancy: " + Told(a, "data_storage_redundancy", "ZRS")))
    case Spark =>
      If(SparkAsked(source, name), " | User selected: " + Told(a, "data_spark_runtime", "Azure Synapse Spark Pools"))
    case FunctionsPlan => If(Contains(name, "Functions"), " | " + ("Plan: " + FunctionsWord(a)))
    case CosmosDb => If(Contains(name, "Cosmos DB"), " | " + CosmosWords(a))
    case CacheTier => If(Contains(name, "Redis") || Contains(name, "Cache"), " | " + ("Tier: " + CacheWord(a)))
    case SqlTier =>
      If(Contains(name, "SQL Database") || Contains(name, "PostgreSQL") || Contains(name, "MySQL"),
         " | " + ("Compute tier: " + SqlWord(a)))
    case Streaming =>
      if !StreamSource(source) then ""
      else if Says(a, "data_streaming_engine", "Kafka") then " | Kafka surface enabled"
      else If(Says(a, "data_streaming_engine", "Spark"), " | Spark Structured Streaming")
    case Iot => If(TwinsAsked(a, source), " | User confirmed digital twins")
    case Containers => If(ContainersAsked(a, source, name), " | User selected: " + ContainerAnswer(a))
    case Ml =>
      If(Told(a, "ml_compute_target", "") != "" && Contains(source, "SageMaker"),
         " | " + ("Compute: " + MlWord(a)))
    case Encryption =>
      If(Says(a, "sec_encryption", "Customer-managed") && Encrypts(name), " | " + "Encryption: CMK via Key Vault")
    case _ => ""
  }

  /** A name without the fragment stays; otherwise the first occurrence is
      replaced, and so on behind it. */
  lemma {:induction false} ReplaceNone(s: string, from: string, to: string)
    requires from != "" && forall i: nat :: !OccursAt(s, from, i)
    ensures Replace(s, from, to) == s
  {
    assert !OccursAt(s, from, 0);
    if s != "" {
      forall i: nat ensures !OccursAt(s[1..], from, i) {
        assert !OccursAt(s, from, i + 1);
        assert i + |from| <= |s[1..]| ==> s[1..][i..i + |from|] == s[i + 1..i + 1 + |from|];
      }
      ReplaceNone(s[1..], from, to);
      assert s == [s[0]] + s[1..];
    }
  }

  lemma {:induction false} ReplaceFirst(before: string, from: string, after: string, to: string)
    requires from != "" && forall i: nat :: i < |before| ==> !OccursAt(before + from + after, from, i)
    ensures Replace(before + from + after, from, to) == before + to + Replace(after, from, to)
  {
    var s := before + from + after;
    if before == "" {
      assert s[|from|..] == after;
    } else {
      assert !OccursAt(s, from, 0);
      var rest := before[1..] + from + after;
      assert s[1..] == rest;
      forall i: nat | i < |before[1..]| ensures !OccursAt(rest, from, i) {
        assert !OccursAt(s, from, i + 1);
        assert i + |from| <= |rest| ==> rest[i..i + |from|] == s[i + 1..i + 1 + |from|];
      }
      ReplaceFirst(before[1..], from, after, to);
    }
  }

  // ---- The rules do what the answers ask for -------------------------------------------------------

  lemma PrivateFragments(name: string)
    ensures ContainsAny(name, PRIVATE_LINK) <==> LinkedPrivately(name)
  {
    hide Contains;
    var all := PRIVATE_LINK;
    assert all[0] == "Blob" && all[1] == "SQL" && all[2] == "Cosmos" && all[3] == "Key Vault";
    assert all[4] == "Functions" && all[5] == "Container" && all[6] == "Event Hubs" && all[7] == "Service Bus";
  }

  lemma EncryptedFragments(name: string)
    ensures ContainsAny(name, ENCRYPTED) <==> Encrypts(name)
  {
    hide Contains;
    var all := ENCRYPTED;
    assert all[0] == "Blob" && all[1] == "ADLS" && all[2] == "Data Lake" && all[3] == "SQL";
    assert all[4] == "Cosmos" && all[5] == "Redis" && all[6] == "Managed Disk" && all[7] == "Functions";
  }

  lemma StorageFragments(name: string)
    ensures ContainsAny(name, STORAGE) <==> Stores(name)
  {
    hide Contains;
    var all := STORAGE;
    assert all[0] == "Blob Storage" && all[1] == "ADLS" && all[2] == "Data Lake" && all[3] == "Azure Files";
  }

  lemma Fragments2(name: string, f: string, g: string)
    ensures ContainsAny(name, [f, g]) <==> Contains(name, f) || Contains(name, g)
  {
    hide Contains;
    var all := [f, g];
    assert all[0] == f && all[1] == g;
  }

  lemma Fragments3(name: string, f: string, g: string, h: string)
    ensures ContainsAny(name, [f, g, h]) <==> Contains(name, f) || Contains(name, g) || Contains(name, h)
  {
    hide Contains;
    var all := [f, g, h];
    assert all[0] == f && all[1] == g && all[2] == h;
  }

  lemma AnswerSays(a: Answers, key: string, otherwise: string, fragment: string, c: char)
    requires c in fragment && c !in otherwise
    ensures Contains(Get(a, key, otherwise), fragment) <==> Says(a, key, fragment)
  {
    hide Contains;
    AbsentChar(otherwise, fragment, c);
  }

  function Asked(r: Rule, a: Answers, m: Mapping): Change {
    Change(NameAsked(r, a, m.source, m.azure), NoteAsked(r, a, m.source, m.azure), Increment(r, a, m.source, m.azure))
  }

  lemma TierMeans(a: Answers)
    ensures SkuTier(a) == "enterprise" <==> Is(a, "arch_sku_strategy", "Enterprise (maximum SLA and features)")
    ensures SkuTier(a) == "basic" <==> Is(a, "arch_sku_strategy", "Cost-optimized (lowest viable tier)")
  {
  }

  lemma EarlyRules(a: Answers, m: Mapping)
    ensures EnvironmentChange(a, m) == Asked(Environment, a, m)
    ensures SkuChange(a, m) == Asked(SkuStrategy, a, m)
    ensures HaChange(a, m) == Asked(HaAndDr, a, m)
  {
    hide Contains, Lower, Replace, SkuTier;
    TierMeans(a);
    AnswerSays(a, "arch_ha", "Multi-AZ within region (99.95 %)", "active-active", 'c');
  }

  lemma PlacementRules(a: Answers, m: Mapping)
    ensures NetworkChange(a, m) == Asked(NetworkIsolation, a, m)
    ensures StorageChange(a, m) == Asked(StorageRedundancy, a, m)
  {
    hide Contains, ContainsAny, LinkedPrivately, Stores;
    PrivateFragments(m.azure);
    StorageFragments(m.azure);
  }

  lemma SparkRule(a: Answers, m: Mapping)
    ensures SparkChange(a, m) == Asked(Spark, a, m)
  {
    hide Contains, ContainsAny;
    Fragments2(m.source, "EMR", "Elastic MapReduce");
    Fragments3(m.azure, "Synapse", "HDInsight", "Databricks");
  }

  lemma FunctionsRule(a: Answers, m: Mapping)
    ensures FunctionsChange(a, m) == Asked(FunctionsPlan, a, m)
  {
    hide Contains;
  }

  lemma CosmosAnswers(a: Answers)
    ensures "API: " + Lookup(COSMOS_APIS, Get(a, "data_cosmosdb_api", "NoSQL (native, recommended)"), "nosql")
            + ", Throughput: "
            + Lookup(COSMOS_THROUGHPUT, Get(a, "data_cosmosdb_throughput", "Provisioned with autoscale"), "autoscale")
            == CosmosWords(a)
  {
  }

  lemma CosmosRule(a: Answers, m: Mapping)
    ensures CosmosChange(a, m) == Asked(CosmosDb, a, m)
  {
    hide Contains, Get, Lookup, CosmosWords, COSMOS_APIS, COSMOS_THROUGHPUT;
    CosmosAnswers(a);
  }

  lemma CacheRule(a: Answers, m: Mapping)
    ensures CacheChange(a, m) == Asked(CacheTier, a, m)
  {
    hide Contains, ContainsAny;
    Fragments2(m.azure, "Redis", "Cache");
  }

  lemma Words(a: Answers)
    ensures Lookup(SQL_TIERS, Get(a, "data_sql_tier", "General Purpose"), "general_purpose") == SqlWord(a)
    ensures Maybe(a, "ml_compute_target") != "" ==>
              Lookup(ML_COMPUTE, Maybe(a, "ml_compute_target"), "gpu") == MlWord(a)
  {
  }

  lemma SqlRule(a: Answers, m: Mapping)
    ensures SqlChange(a, m) == Asked(SqlTier, a, m)
  {
    hide Contains, ContainsAny, Get, Lookup, SqlWord, SQL_TIERS;
    Words(a);
    Fragments3(m.azure, "SQL Database", "PostgreSQL", "MySQL");
  }

  lemma StreamNames()
    ensures KAFKA_TARGET == "Azure Event Hubs (Kafka protocol)"
    ensures STREAMING_TARGET == "Azure Event Hubs + Spark Structured Streaming"
  {
  }

  lemma StreamAnswer(a: Answers)
    ensures StreamTarget(a) ==
            if Says(a, "data_streaming_engine", "Kafka") then Some("Azure Event Hubs (Kafka protocol)")
            else if Says(a, "data_streaming_engine", "Spark")
            then Some("Azure Event Hubs + Spark Structured Streaming")
            else None
  {
    hide Contains, Get, Says, KAFKA_TARGET, STREAMING_TARGET;
    StreamNames();
    AnswerSays(a, "data_streaming_engine", "Azure Event Hubs + Stream Analytics", "Kafka", 'K');
    AnswerSays(a, "data_streaming_engine", "Azure Event Hubs + Stream Analytics", "Spark", 'k');
  }

  lemma StreamingRule(a: Answers, m: Mapping)
    ensures StreamingChange(a, m) == Asked(Streaming, a, m)
  {
    hide Contains, ContainsAny, Get, Says, StreamTarget, KAFKA_TARGET, STREAMING_TARGET;
    Fragments2(m.source, "Kinesis", "MSK");
    StreamNames();
    StreamAnswer(a);
  }

  lemma IotRule(a: Answers, m: Mapping)
    ensures IotChange(a, m) == Asked(Iot, a, m)
  {
    hide Contains, Get;
    AnswerSays(a, "iot_digital_twins", "", "Digital Twins", 'D');
  }

  lemma ContainersRule(a: Answers, m: Mapping)
    ensures ContainersChange(a, m) == Asked(Containers, a, m)
  {
    hide Contains, ContainsAny;
    Fragments3(m.source, "ECS", "Fargate", "App Runner");
    Fragments3(m.azure, "Container Instances", "Container Apps", "App Service");
  }

  lemma MlRule(a: Answers, m: Mapping)
    ensures MlChange(a, m) == Asked(Ml, a, m)
  {
    hide Contains, Lookup, MlWord, ML_COMPUTE;
    Words(a);
  }

  lemma EncryptionRule(a: Answers, m: Mapping)
    ensures EncryptionChange(a, m) == Asked(Encryption, a, m)
  {
    hide Contains, ContainsAny, Encrypts, Get, Says;
    EncryptedFragments(m.azure);
    CustomerManagedSaid(a);
  }

  lemma OtherRules(r: Rule, a: Answers, m: Mapping)
    requires r in {Compliance, Monitoring, IacStyle, DeployRegion}
    ensures ChangeOf(r, a, m) == Asked(r, a, m)
  {
  }

  /** Every rule changes a mapping as the answers ask for. */
  lemma RuleDoesWhatIsAsked(r: Rule, a: Answers, m: Mapping)
    ensures BookOf(a)(r, m) == Asked(r, a, m)
  {
    hide EnvironmentChange, SkuChange, HaChange, NetworkChange, StorageChange, SparkChange, FunctionsChange,
      CosmosChange, CacheChange, SqlChange, StreamingChange, IotChange, ContainersChange, MlChange, EncryptionChange,
      Asked;
    assert BookOf(a)(r, m) == ChangeOf(r, a, m);
    match r
    case Environment | SkuStrategy | HaAndDr => EarlyRules(a, m);
    case NetworkIsolation | StorageRedundancy => PlacementRules(a, m);
    case Spark => SparkRule(a, m);
    case FunctionsPlan => FunctionsRule(a, m);
    case CosmosDb => CosmosRule(a, m);
    case CacheTier => CacheRule(a, m);
    case SqlTier => SqlRule(a, m);
    case Streaming => StreamingRule(a, m);
    case Iot => IotRule(a, m);
    case Containers => ContainersRule(a, m);
    case Ml => MlRule(a, m);
    case Encryption => EncryptionRule(a, m);
    case Compliance | Monitoring | IacStyle | DeployRegion => OtherRules(r, a, m);
  }

  // ---- The whole pipeline ------------------------------------------------------------------------------

  /** The target before each rule is the one the rule before it was asked for. */
  lemma NamesAreAsked(k: nat, a: Answers, source: string, name: string)
    requires k < |RULES|
    ensures NameAt(0, a, source, name) == name
    ensures NameAt(k + 1, a, source, name) == NameAsked(RULES[k], a, source, NameAt(k, a, source, name))
  {
    hide NameAt, NameAfter, NameAsked, BookOf, RULES;
    var m := Mapping(source, NameAt(k, a, source, name), "", None, []);
    NameAtStart(a, source, name);
    NameStep(k, a, source, name);
    RuleName(RULES[k], a, m);
    RuleDoesWhatIsAsked(RULES[k], a, m);
  }

  /** The increments of the first `k` rules, each for the name it finds. */
  function Increments(k: nat, a: Answers, source: string, name: string): seq<Boost>
    requires k <= |RULES|
  {
    if k == 0 then []
    else
      var boost := Increment(RULES[k - 1], a, source, NameAt(k - 1, a, source, name));
      Increments(k - 1, a, source, name) + if boost.Some? then [boost.value] else []
  }

  function Notes(k: nat, a: Answers, source: string, name: string): string
    requires k <= |RULES|
  {
    if k == 0 then ""
    else Notes(k - 1, a, source, name) + NoteAsked(RULES[k - 1], a, source, NameAt(k - 1, a, source, name))
  }

  lemma {:induction false} PipelineUpTo(k: nat, a: Answers, m: Mapping)
    requires k <= |RULES|
    ensures AfterRules(RULES[..k], BookOf(a), m).notes == m.notes + Notes(k, a, m.source, m.azure)
    ensures Fired(RULES[..k], BookOf(a), m) == Increments(k, a, m.source, m.azure)
  {
    hide BookOf, NameAt, NameAsked, NoteAsked, Increment, RULES;
    if k > 0 {
      assert RULES[..k][..k - 1] == RULES[..k - 1];
      var before := AfterRules(RULES[..k - 1], BookOf(a), m);
      PipelineUpTo(k - 1, a, m);
      NamesUpTo(k - 1, a, m);
      RuleDoesWhatIsAsked(RULES[k - 1], a, before);
      assert (m.notes + Notes(k - 1, a, m.source, m.azure))
             + NoteAsked(RULES[k - 1], a, m.source, NameAt(k - 1, a, m.source, m.azure))
             == m.notes + Notes(k, a, m.source, m.azure);
    }
  }

  /** What the answers make of a mapping: the target all renamings lead to, one
      reason for each increment, the confidence raised by their points from 80 if
      there was none and up to 100, and the notes of every rule. */
  lemma PipelineDoesWhatIsAsked(a: Answers, m: Mapping)
    ensures var after := AfterRules(RULES, BookOf(a), m);
            var boosts := Increments(|RULES|, a, m.source, m.azure);
            && after.source == m.source
            && after.azure == NameAt(|RULES|, a, m.source, m.azure)
            && after.notes == m.notes + Notes(|RULES|, a, m.source, m.azure)
            && after.reasons == m.reasons + ReasonsOf(boosts)
            && after.confidence ==
               if boosts == [] then m.confidence
               else Some(Min(100, (if m.confidence.Some? then m.confidence.value else 80) + Points(boosts)))
  {
    hide BookOf, NameAt, Notes, Increments, AfterRules, Fired, Positive, RULES;
    assert RULES[..|RULES|] == RULES;
    NamesUpTo(|RULES|, a, m);
    PipelineUpTo(|RULES|, a, m);
    OnlyExtended(RULES, BookOf(a), m);
    BookIsPositive(a);
    ConfidenceIsCappedSum(RULES, BookOf(a), m);
  }

  // ---- Warnings -----------------------------------------------------------------------------------------

  predicate Complies(a: Answers, framework: string) {
    && "sec_compliance" in a
    && match a["sec_compliance"]
       case One(text) => text == framework
       case Many(choices) => framework in choices
  }

  predicate NoMonitoring(a: Answers) {
    || Says(a, "ops_monitoring_depth", "None")
    || Contains(Lower(Told(a, "ops_monitoring_depth", "")), "no monitoring")
  }

  function Warn(c: bool, w: Warning): seq<Warning> {
    if c then [w] else []
  }

  /** The warnings one rule was asked for, in order. */
  function WarningsAsked(r: Rule, a: Answers): seq<Warning> {
    match r
    case Environment =>
      Warn(Is(a, "env_target", "Development"), DevelopmentDefaults)
      + Warn(Is(a, "env_target", "Multi-environment"), MultiEnvironment)
    case SkuStrategy =>
      Warn(Is(a, "arch_sku_strategy", "Enterprise (maximum SLA and features)"), EnterpriseTier)
      + Warn(Is(a, "arch_sku_strategy", "Cost-optimized (lowest viable tier)"), CostOptimizedTier)
    case HaAndDr =>
      (if Says(a, "arch_ha", "active-active") then [ActiveActive]
       else if Says(a, "arch_ha", "active-passive") then [ActivePassive]
       else Warn(Says(a, "arch_ha", "Single region"), SingleRegion))
      + Warn(Says(a, "arch_dr_rto", "<1 min"), HotStandby)
    case Compliance =>
      Warn(Complies(a, "HIPAA"), Hipaa)
      + Warn(Complies(a, "GDPR") && Told(a, "sec_data_residency", "No restriction") == "No restriction", GdprResidency)
      + Warn(Complies(a, "GDPR"), Gdpr) + Warn(Complies(a, "PCI-DSS"), PciDss)
      + Warn(Complies(a, "FedRAMP"), FedRamp)
      + (if Is(a, "sec_data_residency", "EU only") then [ResidencyRegions("EU only")]
         else if Is(a, "sec_data_residency", "US only") then [ResidencyRegions("US only")]
         else Warn(Is(a, "sec_data_residency", "Specific country"), SpecificCountry))
    case NetworkIsolation =>
      Warn(Is(a, "sec_network_isolation", "Full private endpoints"), PrivateEndpoints)
      + Warn(Is(a, "sec_network_isolation", "Air-gapped / isolated"), AirGapped)
    case Spark =>
      Warn(Is(a, "data_spark_runtime", "Azure Databricks"), Databricks)
      + Warn(Is(a, "data_spark_runtime", "Azure HDInsight"), HdInsight)
    case Iot =>
      Warn(Is(a, "iot_message_volume", ">100 M messages/day"), IotVolume)
      + Warn(Is(a, "iot_device_scale", ">1 M devices"), IotScale)
    case Monitoring =>
      if NoMonitoring(a) then []
      else if Says(a, "ops_monitoring_depth", "Full observability") then [FullObservability]
      else Warn(Says(a, "ops_monitoring_depth", "Sentinel"), Sentinel)
    case Encryption =>
      if !Says(a, "sec_encryption", "Customer-managed") then []
      else if Says(a, "sec_encryption", "HSM") then [HsmKeys]
      else [CustomerKeys]
    case _ => []
  }

  lemma RegionsSaid(a: Answers)
    ensures var ha := Get(a, "arch_ha", "Multi-AZ within region (99.95 %)");
            && (Contains(ha, "active-active") <==> Says(a, "arch_ha", "active-active"))
            && (Contains(ha, "active-passive") <==> Says(a, "arch_ha", "active-passive"))
  {
    hide Contains, Get, Says;
    AnswerSays(a, "arch_ha", "Multi-AZ within region (99.95 %)", "active-active", 'c');
    AnswerSays(a, "arch_ha", "Multi-AZ within region (99.95 %)", "active-passive", 'c');
  }

  lemma SingleRegionSaid(a: Answers)
    ensures Contains(Get(a, "arch_ha", "Multi-AZ within region (99.95 %)"), "Single region") <==>
              Says(a, "arch_ha", "Single region")
    ensures Contains(Get(a, "arch_dr_rto", "<1 hour"), "<1 min") <==> Says(a, "arch_dr_rto", "<1 min")
  {
    hide Contains, Get, Says;
    AnswerSays(a, "arch_ha", "Multi-AZ within region (99.95 %)", "Single region", 'S');
    AnswerSays(a, "arch_dr_rto", "<1 hour", "<1 min", 'm');
  }

  lemma HaWarningsAsked(a: Answers)
    ensures HaWarnings(a) == WarningsAsked(HaAndDr, a)
  {
    hide Contains, Get, Says;
    RegionsSaid(a);
    SingleRegionSaid(a);
  }

  lemma CompliesIff(a: Answers, framework: string)
    requires framework != "None"
    ensures framework in Frameworks(a) <==> Complies(a, framework)
  {
  }

  lemma ComplianceWarningsAsked(a: Answers)
    ensures ComplianceWarnings(a) == WarningsAsked(Compliance, a)
  {
    hide Frameworks, Complies, Get, Told, Is;
    CompliesIff(a, "HIPAA");
    CompliesIff(a, "GDPR");
    CompliesIff(a, "PCI-DSS");
    CompliesIff(a, "FedRAMP");
    ResidencyTold(a);
  }

  lemma ResidencyTold(a: Answers)
    ensures var residency := Get(a, "sec_data_residency", "No restriction");
            && residency == Told(a, "sec_data_residency", "No restriction")
            && (residency == "EU only" <==> Is(a, "sec_data_residency", "EU only"))
            && (residency == "US only" <==> Is(a, "sec_data_residency", "US only"))
            && (residency == "Specific country" <==> Is(a, "sec_data_residency", "Specific country"))
  {
  }

  lemma LowerLetters()
    ensures 'm' !in Lower("Application Insights") && 'm' !in Lower("")
  {
  }

  lemma NoMonitoringIff(a: Answers)
    ensures var depth := Get(a, "ops_monitoring_depth", "Application Insights");
            NoMonitoring(a) <==> Contains(depth, "None") || Contains(Lower(depth), "no monitoring")
  {
    hide Contains, Lower;
    AnswerSays(a, "ops_monitoring_depth", "Application Insights", "None", 'N');
    LowerLetters();
    AbsentChar(Lower("Application Insights"), "no monitoring", 'm');
    AbsentChar(Lower(""), "no monitoring", 'm');
  }

  lemma MonitoringWarningsAsked(a: Answers)
    ensures MonitoringWarnings(a) == WarningsAsked(Monitoring, a)
  {
    hide Contains, Lower, Get, Says, NoMonitoring;
    NoMonitoringIff(a);
    AnswerSays(a, "ops_monitoring_depth", "Application Insights", "Full observability", 'F');
    AnswerSays(a, "ops_monitoring_depth", "Application Insights", "Sentinel", 'S');
  }

  lemma CustomerManagedSaid(a: Answers)
    ensures Contains(Get(a, "sec_encryption", "Platform-managed keys (default)"), "Customer-managed") <==>
              Says(a, "sec_encryption", "Customer-managed")
  {
    hide Contains, Get, Says;
    AnswerSays(a, "sec_encryption", "Platform-managed keys (default)", "Customer-managed", 'C');
  }

  lemma HsmSaid(a: Answers)
    ensures Contains(Get(a, "sec_encryption", "Platform-managed keys (default)"), "HSM") <==>
              Says(a, "sec_encryption", "HSM")
  {
    hide Contains, Get, Says;
    AnswerSays(a, "sec_encryption", "Platform-managed keys (default)", "HSM", 'H');
  }

  lemma EncryptionWarningsAsked(a: Answers)
    ensures EncryptionWarnings(a) == WarningsAsked(Encryption, a)
  {
    hide Contains, Get, Says;
    CustomerManagedSaid(a);
    HsmSaid(a);
  }

  lemma SparkMeans(a: Answers)
    ensures SparkTarget(a) == SparkAnswer(a)
  {
  }

  lemma SparkWarningsAsked(a: Answers)
    ensures WarningsOf(Spark, a) == WarningsAsked(Spark, a)
  {
    hide SparkTarget;
    SparkMeans(a);
  }

  lemma SkuWarningsAsked(a: Answers)
    ensures WarningsOf(SkuStrategy, a) == WarningsAsked(SkuStrategy, a)
  {
    hide SkuTier, Is;
    TierMeans(a);
  }

  lemma EnvironmentWarningsAsked(a: Answers)
    ensures WarningsOf(Environment, a) == WarningsAsked(Environment, a)
  {
  }

  lemma NetworkWarningsAsked(a: Answers)
    ensures WarningsOf(NetworkIsolation, a) == WarningsAsked(NetworkIsolation, a)
  {
  }

  lemma IotWarningsAsked(a: Answers)
    ensures WarningsOf(Iot, a) == WarningsAsked(Iot, a)
  {
  }

  lemma QuietRuleWarnsOfNothing(r: Rule, a: Answers)
    requires r in {StorageRedundancy, FunctionsPlan, CosmosDb, CacheTier, SqlTier, Streaming, Containers, Ml, IacStyle,
                   DeployRegion}
    ensures WarningsOf(r, a) == WarningsAsked(r, a)
  {
  }

  lemma RuleWarnsAsAsked(r: Rule, a: Answers)
    ensures WarningBookOf(a)(r) == WarningsAsked(r, a)
  {
    hide HaWarnings, ComplianceWarnings, MonitoringWarnings, EncryptionWarnings, WarningsAsked, Get, Contains,
      SkuTier, SparkTarget;
    assert WarningBookOf(a)(r) == WarningsOf(r, a);
    match r
    case HaAndDr => HaWarningsAsked(a);
    case Compliance => ComplianceWarningsAsked(a);
    case Monitoring => MonitoringWarningsAsked(a);
    case Encryption => EncryptionWarningsAsked(a);
    case SkuStrategy => SkuWarningsAsked(a);
    case Spark => SparkWarningsAsked(a);
    case Environment => EnvironmentWarningsAsked(a);
    case NetworkIsolation => NetworkWarningsAsked(a);
    case Iot => IotWarningsAsked(a);
    case _ => QuietRuleWarnsOfNothing(r, a);
  }

  /** The warnings of the rules, one rule after another. */
  function AllAsked(rules: seq<Rule>, a: Answers): seq<Warning> {
    if rules == [] then [] else WarningsAsked(rules[0], a) + AllAsked(rules[1..], a)
  }

  lemma {:induction false} AllAskedAppend(rules: seq<Rule>, r: Rule, a: Answers)
    ensures AllAsked(rules + [r], a) == AllAsked(rules, a) + WarningsAsked(r, a)
  {
    hide WarningsAsked;
    if rules == [] {
      assert [r][1..] == [];
    } else {
      AllAskedAppend(rules[1..], r, a);
      assert (rules + [r])[1..] == rules[1..] + [r];
    }
  }

  /** The pipeline warns of what was asked, in the order of the rules. */
  lemma {:induction false} WarningsAreAsked(rules: seq<Rule>, a: Answers)
    ensures AllWarnings(rules, WarningBookOf(a)) == AllAsked(rules, a)
  {
    hide WarningsAsked, WarningBookOf;
    if rules != [] {
      var n := |rules| - 1;
      WarningsAreAsked(rules[..n], a);
      RuleWarnsAsAsked(rules[n], a);
      AllAskedAppend(rules[..n], rules[n], a);
      assert rules[..n] + [rules[n]] == rules;
    }
  }

  lemma {:induction false} FirstReasonStays(rules: seq<Rule>, book: RuleBook, m: Mapping)
    requires rules != [] && book(rules[0], m).boost.Some?
    ensures m.reasons + [book(rules[0], m).boost.value.reason] <= AfterRules(rules, book, m).reasons
  {
    var n := |rules| - 1;
    if n > 0 {
      FirstReasonStays(rules[..n], book, m);
    } else {
      assert rules[..n] == [];
    }
  }

  /** A given "Development" adds its reason to every mapping, before any other,
      and its warning, whatever the defaults say. */
  lemma GivenDevelopmentCounts(defaults: Answers, answers: Answers, m: Mapping)
    requires "env_target" in answers && answers["env_target"] == One("Development")
    ensures var a := MergeDefaults(defaults, answers);
            && m.reasons + [SimplerConfig] <= AfterRules(RULES, BookOf(a), m).reasons
            && [DevelopmentDefaults] <= AllWarnings(RULES, WarningBookOf(a))
  {
    hide AfterRules, AllWarnings, MergeDefaults;
    var a := MergeDefaults(defaults, answers);
    GivenAnswersWin(defaults, answers);
    RuleDoesWhatIsAsked(Environment, a, m);
    FirstReasonStays(RULES, BookOf(a), m);
    WarningsAreAsked(RULES, a);
    assert WarningsAsked(Environment, a) == [DevelopmentDefaults];
  }

  // ---- The summary -----------------------------------------------------------------------------------------

  function Showing(ms: seq<Mapping>, bound: int): set<nat> {
    set i: nat | i < |ms| && ms[i].confidence.Some? && ms[i].confidence.value >= bound
  }

  /** The counts of the summary are numbers of mappings whose confidence is known
      and reaches the bound. */
  lemma {:induction false} AtLeastCounts(ms: seq<Mapping>, bound: int)
    requires bound > 0
    ensures AtLeast(ms, bound) == |Showing(ms, bound)|
  {
    if ms == [] {
      assert Showing(ms, bound) == {};
    } else {
      var n := |ms| - 1;
      AtLeastCounts(ms[..n], bound);
      var shows := ms[n].confidence.Some? && ms[n].confidence.value >= bound;
      assert Showing(ms, bound) == Showing(ms[..n], bound) + if shows then {n} else {};
    }
  }
}
