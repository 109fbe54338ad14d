/**
 A world in which the observer passes: for every contract it accepts that allows the synthetic call,
 one answer for each planned place that shows what the contract asks for.
 */
module PassingRun {
  import opened Wrappers
  import opened SdkValues
  import opened PreflightReceipt
  import opened Observer
  import opened Answers
  import opened ObserverRun

  // ---------- One answer for each call ----------

  function Pair(key: string, value: Value): Value {
    Dict(map[key := value])
  }

  function IdentityAnswer(contract: Contract): Mapping {
    map["Account" := Text(contract.accountId), "Arn" := ArnText(contract.roleArn), "UserId" := Text("")]
  }

  function TlsStatement(bucket: string): Value {
    Dict(map[
      "Action" := Text("s3:*"),
      "Condition" := Pair("Bool", Pair("aws:SecureTransport", Bool(false))),
      "Effect" := Text("Deny"),
      "Principal" := Text("*"),
      "Resource" := List([Text("arn:aws:s3:::" + bucket), Text("arn:aws:s3:::" + bucket + "/*")])])
  }

  function LifecycleRule(prefix: string): Value {
    Dict(map[
      "Status" := Text("Enabled"),
      "Prefix" := Text(prefix),
      "Expiration" := Pair("Days", Int(3)),
      "NoncurrentVersionExpiration" := Pair("NoncurrentDays", Int(3))])
  }

  function EncryptionAnswer(): Mapping {
    map["ServerSideEncryptionConfiguration" :=
          Pair("Rules", List([Pair("ApplyServerSideEncryptionByDefault", Pair("SSEAlgorithm", Text("AES256")))]))]
  }

  function AccessAnswer(): Mapping {
    map["PublicAccessBlockConfiguration" := Dict(map[
      "BlockPublicAcls" := Bool(true),
      "BlockPublicPolicy" := Bool(true),
      "IgnorePublicAcls" := Bool(true),
      "RestrictPublicBuckets" := Bool(true)])]
  }

  function OwnershipAnswer(): Mapping {
    map["OwnershipControls" := Pair("Rules", List([Pair("ObjectOwnership", Text("BucketOwnerEnforced"))]))]
  }

  function LifecycleAnswer(prefix: string): Mapping {
    map["Rules" := List([LifecycleRule(prefix)])]
  }

  function PolicyAnswer(bucket: string): Mapping {
    map["Policy" := JsonText(Pair("Statement", TlsStatement(bucket)), 0)]
  }

  function PartAnswer(part: BucketPart, contract: Contract): Mapping {
    match part
    case Location => map["LocationConstraint" := Text(REGION)]
    case Encryption => EncryptionAnswer()
    case PublicAccessBlock => AccessAnswer()
    case Ownership => OwnershipAnswer()
    case Versioning => map["Status" := Text("Enabled")]
    case Lifecycle => LifecycleAnswer(contract.artifactPrefix)
    case BucketPolicy => PolicyAnswer(contract.bucket)
  }

  function AllowedAction(action: string, resource: string): Value {
    Dict(map[
      "EvalActionName" := Text(action), "EvalDecision" := Text("allowed"), "EvalResourceName" := Text(resource)])
  }

  function SimulationAnswer(actions: seq<string>, resource: string): Mapping {
    map["EvaluationResults" :=
          List(seq(|actions|, i requires 0 <= i < |actions| => AllowedAction(actions[i], resource))),
        "IsTruncated" := Bool(false)]
  }

  function SandboxInstance(contract: Contract): Value {
    Dict(map[
      "InstanceId" := Text(contract.instanceId),
      "State" := Pair("Name", Text("running")),
      "Placement" := Pair("AvailabilityZone", Text(REGION)),
      "RootDeviceType" := Text("ebs"),
      "BlockDeviceMappings" := List([Pair("Ebs", Pair("VolumeId", Int(1)))]),
      "Tags" := List([Dict(map["Key" := Text(SANDBOX_TAG), "Value" := Text("true")])])])
  }

  function InstancesAnswer(contract: Contract): Mapping {
    map["Reservations" := List([Pair("Instances", List([SandboxInstance(contract)]))])]
  }

  // Ten minutes apart, so that no two fall into one five-minute period.
  const SPACING := 600 * MICROS

  function Datapoint(contract: Contract, i: nat): Value {
    Dict(map[
      "Average" := Int(0), "Timestamp" := Moment(contract.cwEnd - i * SPACING), "Unit" := Text("Percent")])
  }

  function MetricsAnswer(contract: Contract): Mapping {
    map["Datapoints" := List(seq(6, i requires 0 <= i < 6 => Datapoint(contract, i)))]
  }

  const REGIONS := ["eu-central-1", "eu-north-1", "eu-south-1", "eu-south-2", "eu-west-1", "eu-west-3"]

  function ModelsIn(regions: seq<string>): Value {
    List(seq(|regions|, i requires 0 <= i < |regions| => Pair("modelArn", Text(ModelArn(regions[i])))))
  }

  function ProfileAnswer(contract: Contract): Mapping {
    map["inferenceProfileId" := Text(contract.novaProfileId), "models" := ModelsIn(REGIONS), "status" := Text("ACTIVE")]
  }

  function BudgetAnswer(contract: Contract): Mapping {
    map["Budget" := Dict(map[
      "BudgetName" := Text(contract.budgetName),
      "BudgetType" := Text("COST"),
      "BudgetLimit" := Pair("Unit", Text("USD"))])]
  }

  function Notification(threshold: real): Value {
    Dict(map[
      "NotificationType" := Text("ACTUAL"),
      "ThresholdType" := Text("ABSOLUTE_VALUE"),
      "ComparisonOperator" := Text("GREATER_THAN"),
      "Threshold" := Float(threshold)])
  }

  function NotificationsAnswer(): Mapping {
    map["Notifications" := List([Notification(10.0), Notification(25.0), Notification(40.0)])]
  }

  function OwnerAnswer(contract: Contract): Mapping {
    map["Subscribers" := List([Dict(map[
      "SubscriptionType" := Text(contract.budgetOwnerType), "Address" := Text(contract.budgetOwner)])])]
  }

  function GoodAnswer(contract: Contract, k: nat): Mapping {
    if k == 0 then IdentityAnswer(contract)
    else if k < 8 then PartAnswer(PartOf(BucketCall(k - 1)), contract)
    else if k == 8 then SimulationAnswer(SECRET_ACTIONS, contract.secretArn)
    else if k == 9 then SimulationAnswer(PACKAGING_ACTIONS, PackagingArn(contract))
    else if k == 10 then InstancesAnswer(contract)
    else if k == 11 then MetricsAnswer(contract)
    else if k == 12 then ProfileAnswer(contract)
    else if k == 13 then map[]
    else if k == 14 then BudgetAnswer(contract)
    else if k == 15 then NotificationsAnswer()
    else OwnerAnswer(contract)
  }

  function GoodWorld(contract: Contract): World {
    var answers := map k | 0 <= k < CALLS :: Answered(GoodAnswer(contract, k));
    World(answers.Keys, answers, answers.Keys + {CALLS}, 0)
  }

  // ---------- Each answer passes ----------

  lemma PairReads(key: string, value: Value)
    ensures Field(Pair(key, value), key) == value
    ensures Encodable(value) ==> Encodable(Pair(key, value))
  {
  }

  lemma EncryptionAnswerIsValid()
    ensures IsEncrypted(EncryptionAnswer()) && MetadataEncodable(EncryptionAnswer())
  {
    var inner := Pair("SSEAlgorithm", Text("AES256"));
    var rule := Pair("ApplyServerSideEncryptionByDefault", inner);
    PairReads("SSEAlgorithm", Text("AES256"));
    PairReads("ApplyServerSideEncryptionByDefault", inner);
    PairReads("Rules", List([rule]));
    assert Encrypts(rule);
    assert Field(Get(EncryptionAnswer(), "ServerSideEncryptionConfiguration"), "Rules").items[0] == rule;
  }

  lemma LifecycleAnswerIsValid(prefix: string)
    ensures LifecycleIsBounded(LifecycleAnswer(prefix), prefix) && MetadataEncodable(LifecycleAnswer(prefix))
  {
    var rule := LifecycleRule(prefix);
    PairReads("Days", Int(3));
    PairReads("NoncurrentDays", Int(3));
    assert LifecycleRuleBounded(rule, prefix);
    assert Encodable(rule);
    assert Get(LifecycleAnswer(prefix), "Rules").items[0] == rule;
  }

  lemma PolicyAnswerIsValid(bucket: string)
    ensures PolicyIsTlsOnly(Get(PolicyAnswer(bucket), "Policy"), bucket) && MetadataEncodable(PolicyAnswer(bucket))
  {
    var secure := Pair("aws:SecureTransport", Bool(false));
    PairReads("aws:SecureTransport", Bool(false));
    PairReads("Bool", secure);
    PairReads("Statement", TlsStatement(bucket));
    assert DeniesPlainTransport(TlsStatement(bucket), bucket);
    assert Statements(Pair("Statement", TlsStatement(bucket))) == [TlsStatement(bucket)];
  }

  lemma OwnershipAnswerIsValid()
    ensures OwnerEnforced(OwnershipAnswer()) && MetadataEncodable(OwnershipAnswer())
  {
    var rule := Pair("ObjectOwnership", Text("BucketOwnerEnforced"));
    PairReads("ObjectOwnership", Text("BucketOwnerEnforced"));
    PairReads("Rules", List([rule]));
    assert Field(Get(OwnershipAnswer(), "OwnershipControls"), "Rules").items[0] == rule;
  }

  lemma AccessAnswerIsValid()
    ensures BlocksPublicAccess(AccessAnswer()) && MetadataEncodable(AccessAnswer())
  {
  }

  lemma PartAnswerIsValid(part: BucketPart, contract: Contract)
    ensures PartIsValid(part, PartAnswer(part, contract), contract)
    ensures MetadataEncodable(PartAnswer(part, contract))
  {
    match part
    case Location =>
    case Encryption => EncryptionAnswerIsValid();
    case PublicAccessBlock => AccessAnswerIsValid();
    case Ownership => OwnershipAnswerIsValid();
    case Versioning =>
    case Lifecycle => LifecycleAnswerIsValid(contract.artifactPrefix);
    case BucketPolicy => PolicyAnswerIsValid(contract.bucket);
  }

  lemma SimulationAnswerAllows(actions: seq<string>, resource: string)
    requires forall i, j | 0 <= i < j < |actions| :: actions[i] != actions[j]
    ensures Allows(SimulationAnswer(actions, resource), actions, resource)
  {
    var results := Get(SimulationAnswer(actions, resource), "EvaluationResults").items;
    assert forall i | 0 <= i < |actions| :: ActionName(results[i]) == actions[i];
    assert (set i | 0 <= i < |results| :: ActionName(results[i])) == (set action | action in actions);
  }

  lemma OnlyInstance(instance: Value)
    requires instance.Dict?
    ensures InstancesOf([Pair("Instances", List([instance]))]) == [instance]
  {
    var reservations := [Pair("Instances", List([instance]))];
    PairReads("Instances", List([instance]));
    assert [instance][..0] == [] && Mappings([]) == [];
    assert Mappings([instance]) == [instance];
    assert reservations[..0] == [] && InstancesOf([]) == [];
  }

  lemma OnlyTag(tag: Value)
    requires Field(tag, "Key") == Text(SANDBOX_TAG)
    ensures Tagged([tag], SANDBOX_TAG) == [tag]
  {
    assert [tag][..0] == [] && Tagged([], SANDBOX_TAG) == [];
  }

  lemma SandboxIsOnEbs(contract: Contract)
    ensures HasEbs(SandboxInstance(contract)) && IsTagged(SandboxInstance(contract))
  {
    var instance := SandboxInstance(contract);
    var volume, ebs := Pair("VolumeId", Int(1)), Pair("Ebs", Pair("VolumeId", Int(1)));
    PairReads("VolumeId", Int(1));
    PairReads("Ebs", volume);
    assert Field(instance, "BlockDeviceMappings") == List([ebs]);
    assert ebs in ItemsOf(Field(instance, "BlockDeviceMappings"));
    var tag := Dict(map["Key" := Text(SANDBOX_TAG), "Value" := Text("true")]);
    assert Field(instance, "Tags") == List([tag]);
    OnlyTag(tag);
  }

  lemma SandboxInstancePasses(contract: Contract)
    ensures InstancePasses(SandboxInstance(contract))
  {
    var instance := SandboxInstance(contract);
    SandboxIsOnEbs(contract);
    PairReads("Name", Text("running"));
    PairReads("AvailabilityZone", Text(REGION));
    assert Field(instance, "State") == Pair("Name", Text("running"));
    assert Field(instance, "Placement") == Pair("AvailabilityZone", Text(REGION));
    assert Field(instance, "RootDeviceType") == Text("ebs");
  }

  lemma OneInstancePasses(instance: Value, contract: Contract)
    requires instance.Dict? && InstancePasses(instance)
    requires Field(instance, "InstanceId") == Text(contract.instanceId)
    ensures SandboxPasses(map["Reservations" := List([Pair("Instances", List([instance]))])], contract)
  {
    OnlyInstance(instance);
  }

  lemma SandboxAnswerPasses(contract: Contract)
    ensures SandboxPasses(InstancesAnswer(contract), contract)
  {
    SandboxInstancePasses(contract);
    OneInstancePasses(SandboxInstance(contract), contract);
  }

  lemma PeriodsDiffer(micros: int, micros': int)
    requires micros' - micros >= SPACING
    ensures PeriodOf(micros, PERIOD_SECONDS) < PeriodOf(micros', PERIOD_SECONDS)
  {
  }

  lemma DatapointHasPeriod(contract: Contract, i: nat)
    requires i < 6 && contract.cwPeriod == PERIOD_SECONDS
    requires contract.cwEnd - contract.cwStart == WINDOW_MINUTES * 60 * MICROS
    ensures PeriodOf(contract.cwEnd - i * SPACING, PERIOD_SECONDS) in PeriodsOf(MetricsAnswer(contract), contract)
  {
    var datapoints := ItemsOf(Get(MetricsAnswer(contract), "Datapoints"));
    assert datapoints[i] == Datapoint(contract, i);
    assert DatapointCounts(datapoints[i], contract);
  }

  // Numbers that fall all lie in the set: it has at least as many members.
  lemma {:induction false} FallingCount(values: seq<int>, all: set<int>)
    requires forall i | 0 <= i < |values| :: values[i] in all
    requires forall i, j | 0 <= i < j < |values| :: values[j] < values[i]
    ensures |all| >= |values|
  {
    if values != [] {
      FallingCount(values[1..], all - {values[0]});
    }
  }

  lemma MetricsAnswerPasses(contract: Contract)
    requires contract.cwPeriod == PERIOD_SECONDS && contract.cwMinimum == MINIMUM_DATAPOINTS
    requires contract.cwEnd - contract.cwStart == WINDOW_MINUTES * 60 * MICROS
    ensures |PeriodsOf(MetricsAnswer(contract), contract)| >= contract.cwMinimum
  {
    var periods := seq(6, i requires 0 <= i < 6 => PeriodOf(contract.cwEnd - i * SPACING, PERIOD_SECONDS));
    forall i | 0 <= i < 6
      ensures periods[i] in PeriodsOf(MetricsAnswer(contract), contract)
    {
      DatapointHasPeriod(contract, i);
    }
    forall i, j | 0 <= i < j < 6
      ensures periods[j] < periods[i]
    {
      PeriodsDiffer(contract.cwEnd - j * SPACING, contract.cwEnd - i * SPACING);
    }
    FallingCount(periods, PeriodsOf(MetricsAnswer(contract), contract));
  }

  lemma RegionsAreExact()
    ensures |NOVA_MODEL_REGIONS| == |REGIONS|
    ensures forall region :: region in REGIONS <==> region in NOVA_MODEL_REGIONS
  {
  }

  lemma ModelsAreObserved(regions: seq<string>)
    ensures ObservedModelArns(ModelsIn(regions)) == set region | region in regions :: ModelArn(region)
  {
    var models := ModelsIn(regions);
    forall i | 0 <= i < |regions|
      ensures Field(models.items[i], "modelArn") == Text(ModelArn(regions[i]))
    {
      PairReads("modelArn", Text(ModelArn(regions[i])));
    }
    forall region | region in regions
      ensures ModelArn(region) in ObservedModelArns(models)
    {
      var i :| 0 <= i < |regions| && regions[i] == region;
      assert models.items[i] in models.items && Field(models.items[i], "modelArn").s == ModelArn(region);
    }
  }

  lemma ProfileAnswerPasses(contract: Contract)
    ensures ProfilePasses(ProfileAnswer(contract), contract)
  {
    RegionsAreExact();
    ModelsAreObserved(REGIONS);
    assert (set region | region in REGIONS :: ModelArn(region)) == ExpectedModelArns();
    ImageOfRegions(NOVA_MODEL_REGIONS, ExpectedModelArns());
  }

  lemma NotificationsAnswerPasses()
    ensures NotificationsPass(NotificationsAnswer())
  {
    var notifications := Get(NotificationsAnswer(), "Notifications").items;
    assert NotificationThreshold(notifications[0]) == Some(10.0);
    assert NotificationThreshold(notifications[1]) == Some(25.0);
    assert NotificationThreshold(notifications[2]) == Some(40.0);
  }

  lemma OwnerAnswerPasses(contract: Contract)
    ensures OwnerPasses(Some(OwnerAnswer(contract)), contract)
  {
    var subscribers := Get(OwnerAnswer(contract), "Subscribers");
    assert subscribers.items[0] in subscribers.items;
  }

  // ---------- The world passes ----------

  predicate Gives(w: World, k: nat, answer: Mapping) {
    k in w.clients && Reply(w, k) == Some(answer)
  }

  lemma GoodWorldGives(contract: Contract, k: nat)
    requires k < CALLS
    ensures Gives(GoodWorld(contract), k, GoodAnswer(contract, k))
    ensures k in GoodWorld(contract).small
  {
  }

  lemma BucketPassesWith(w: World, contract: Contract)
    requires forall i | 0 <= i < BUCKET_CALLS :: Gives(w, 1 + i, PartAnswer(PartOf(BucketCall(i)), contract))
    ensures BucketPasses(w, contract)
  {
    forall part: BucketPart
      ensures PartPasses(w, part, contract)
    {
      BucketPartHasPlace(part);
      assert Gives(w, 1 + PlaceOf(part), PartAnswer(part, contract));
      PartAnswerIsValid(part, contract);
    }
    assert Gives(w, 1 + 0, PartAnswer(PartOf(BucketCall(0)), contract));
  }

  lemma StorableWith(w: World, contract: Contract)
    requires Gives(w, 0, IdentityAnswer(contract)) && forall k | 0 <= k <= CALLS :: k in w.small
    requires forall i | 0 <= i < BUCKET_CALLS :: Gives(w, 1 + i, PartAnswer(PartOf(BucketCall(i)), contract))
    ensures AllStorable(w)
  {
    forall i | 0 <= i < BUCKET_CALLS
      ensures PartStorable(w, i)
    {
      assert Gives(w, 1 + i, PartAnswer(PartOf(BucketCall(i)), contract));
      PartAnswerIsValid(PartOf(BucketCall(i)), contract);
    }
    assert MetadataEncodable(IdentityAnswer(contract));
  }

  lemma CapabilitiesPassWith(w: World, contract: Contract)
    requires Gives(w, 8, SimulationAnswer(SECRET_ACTIONS, contract.secretArn))
    requires Gives(w, 9, SimulationAnswer(PACKAGING_ACTIONS, PackagingArn(contract)))
    ensures CapabilitiesPass(w, contract)
  {
    ActionsDiffer();
    SimulationAnswerAllows(SECRET_ACTIONS, contract.secretArn);
    SimulationAnswerAllows(PACKAGING_ACTIONS, PackagingArn(contract));
  }

  lemma InstancesPassWith(w: World, contract: Contract)
    requires Gives(w, 10, InstancesAnswer(contract))
    ensures InstancesPass(w, contract)
  {
    SandboxAnswerPasses(contract);
  }

  lemma MetricsPassWith(w: World, contract: Contract)
    requires contract.cwPeriod == PERIOD_SECONDS && contract.cwMinimum == MINIMUM_DATAPOINTS
    requires contract.cwEnd - contract.cwStart == WINDOW_MINUTES * 60 * MICROS
    requires Gives(w, 11, MetricsAnswer(contract))
    ensures MetricsPass(w, contract)
  {
    MetricsAnswerPasses(contract);
  }

  lemma ModelPassesWith(w: World, contract: Contract)
    requires contract.syntheticConverse && Gives(w, 12, ProfileAnswer(contract)) && Gives(w, 13, map[])
    ensures ModelPasses(w, contract)
  {
    ProfileAnswerPasses(contract);
  }

  lemma BudgetAnswerPasses(contract: Contract)
    ensures BudgetConfigured(Get(BudgetAnswer(contract), "Budget"), contract)
  {
    PairReads("Unit", Text("USD"));
  }

  lemma BudgetPassesWith(w: World, contract: Contract)
    requires Gives(w, 14, BudgetAnswer(contract)) && Gives(w, 15, NotificationsAnswer())
    requires Gives(w, 16, OwnerAnswer(contract)) && Gives(w, 17, OwnerAnswer(contract))
    requires Gives(w, 18, OwnerAnswer(contract))
    ensures BudgetPasses(w, contract)
  {
    BudgetAnswerPasses(contract);
    NotificationsAnswerPasses();
    OwnerAnswerPasses(contract);
    assert NotifiedOwnerPasses(w, 0, contract) && NotifiedOwnerPasses(w, 1, contract);
    assert NotifiedOwnerPasses(w, 2, contract);
  }

  lemma IdentityAnswerIsExact(contract: Contract)
    ensures IdentityKeysExact(WithoutMetadata(IdentityAnswer(contract)))
  {
  }

  lemma ActionsDiffer()
    ensures SECRET_ACTIONS[0] != SECRET_ACTIONS[1] && PACKAGING_ACTIONS[0] != PACKAGING_ACTIONS[1]
  {
    assert |SECRET_ACTIONS[0]| != |SECRET_ACTIONS[1]|;
    assert PACKAGING_ACTIONS[0][3] != PACKAGING_ACTIONS[1][3];
  }

  lemma GoodIdentityPasses(contract: Contract)
    ensures IdentityPasses(GoodWorld(contract), contract)
    ensures StoredIdentity(GoodWorld(contract)) == Some(WithoutMetadata(IdentityAnswer(contract)))
  {
    GoodWorldGives(contract, 0);
  }

  lemma GoodBucketPasses(contract: Contract)
    ensures BucketPasses(GoodWorld(contract), contract) && AllStorable(GoodWorld(contract))
  {
    GoodWorldGives(contract, 0);
    forall i | 0 <= i < BUCKET_CALLS
      ensures Gives(GoodWorld(contract), 1 + i, PartAnswer(PartOf(BucketCall(i)), contract))
    {
      GoodWorldGives(contract, 1 + i);
    }
    StorableWith(GoodWorld(contract), contract);
    BucketPassesWith(GoodWorld(contract), contract);
  }

  lemma GoodCapabilitiesPass(contract: Contract)
    ensures CapabilitiesPass(GoodWorld(contract), contract)
  {
    GoodWorldGives(contract, 8);
    GoodWorldGives(contract, 9);
    CapabilitiesPassWith(GoodWorld(contract), contract);
  }

  lemma GoodInstancesPass(contract: Contract)
    ensures InstancesPass(GoodWorld(contract), contract)
  {
    GoodWorldGives(contract, 10);
    InstancesPassWith(GoodWorld(contract), contract);
  }

  lemma GoodMetricsPass(contract: Contract)
    requires contract.cwPeriod == PERIOD_SECONDS && contract.cwMinimum == MINIMUM_DATAPOINTS
    requires contract.cwEnd - contract.cwStart == WINDOW_MINUTES * 60 * MICROS
    ensures MetricsPass(GoodWorld(contract), contract)
  {
    GoodWorldGives(contract, 11);
    MetricsPassWith(GoodWorld(contract), contract);
  }

  lemma GoodModelPasses(contract: Contract)
    requires contract.syntheticConverse
    ensures ModelPasses(GoodWorld(contract), contract)
  {
    GoodWorldGives(contract, 12);
    GoodWorldGives(contract, 13);
    ModelPassesWith(GoodWorld(contract), contract);
  }

  lemma GoodBudgetPasses(contract: Contract)
    ensures BudgetPasses(GoodWorld(contract), contract)
  {
    GoodWorldGives(contract, 14);
    GoodWorldGives(contract, 15);
    GoodWorldGives(contract, 16);
    GoodWorldGives(contract, 17);
    GoodWorldGives(contract, 18);
    BudgetPassesWith(GoodWorld(contract), contract);
  }

  lemma GoodWorldPasses(contract: Contract)
    requires contract.cwPeriod == PERIOD_SECONDS && contract.cwMinimum == MINIMUM_DATAPOINTS
    requires contract.cwEnd - contract.cwStart == WINDOW_MINUTES * 60 * MICROS && contract.syntheticConverse
    ensures Passes(GoodWorld(contract), contract) && AllStorable(GoodWorld(contract))
  {
    GoodIdentityPasses(contract);
    GoodBucketPasses(contract);
    GoodCapabilitiesPass(contract);
    GoodInstancesPass(contract);
    GoodMetricsPass(contract);
    GoodModelPasses(contract);
    GoodBudgetPasses(contract);
  }

  ghost predicate CanPass(contract: Contract)
    requires contract.cwPeriod > 0
  {
    exists w ::
      && Passes(w, contract) && AllStorable(w)
      && IdentityIsExact(NO_OBSERVATIONS.(callerIdentity := StoredIdentity(w)))
  }

  // An accepted contract can be passed, by a receipt its validator accepts, exactly when it allows
  // the synthetic call.
  lemma PassingWorldExists(raw: RawContract, digest: string, now: int)
    requires ValidateContract(raw, digest, now).Success?
    ensures ContractFrom(raw, now).cwPeriod > 0
    ensures CanPass(ContractFrom(raw, now)) <==> raw.allowInferenceProbe
  {
    var contract := ContractFrom(raw, now);
    if raw.allowInferenceProbe {
      GoodWorldPasses(contract);
      GoodIdentityPasses(contract);
      IdentityAnswerIsExact(contract);
    }
  }

  // ---------- A passing run ----------

  function WholePlan(k: nat): seq<LedgerEntry> {
    seq(k, i requires 0 <= i < k => LedgerEntry(Planned(i), i + 1, false))
  }

  function GoodBucket(contract: Contract): map<BucketPart, Mapping> {
    map part | part in ALL_BUCKET_PARTS :: WithoutMetadata(PartAnswer(part, contract))
  }

  function GoodObservations(identity: Mapping, bucket: map<BucketPart, Mapping>, contract: Contract): Observations {
    Observations(
      Some(identity), Some(bucket), Some(GOOD_CAPABILITY), Some(GOOD_CAPABILITY), Some(GOOD_SANDBOX),
      Some(CloudwatchWindow(contract.cwMinimum, contract.cwMinimum, (contract.cwEnd - contract.cwStart) / MICROS)),
      Some(NovaProfile(true, true, |NOVA_MODEL_REGIONS|, true)),
      Some(NovaProbe.Probe(0, true, true, false)),
      Some(Budget(Some(true), Some(true), Some([true, true, true]))))
  }

  function GoodRun(contract: Contract): Evidence {
    Evidence(
      WholePlan(CALLS), [],
      GoodObservations(WithoutMetadata(IdentityAnswer(contract)), GoodBucket(contract), contract))
  }

  lemma GoodObservationsAreValid(identity: Mapping, bucket: map<BucketPart, Mapping>, contract: Contract)
    requires IdentityMatches(identity, contract) && BucketIsValid(bucket, contract)
    ensures StagesAreValid(GoodObservations(identity, bucket, contract), contract)
  {
  }

  lemma WholePlanProgress()
    ensures LedgerProgress(WholePlan(CALLS), [], CALLS)
  {
    var ledger := WholePlan(CALLS);
    assert Placed(ledger, CALLS, seq(CALLS, i => i));
    forall i | 0 <= i < CALLS
      ensures EntryIsValid(ledger[i], i + 1)
    {
      PlannedCallIsRead(i);
    }
    forall i | 0 <= i < CALLS && Planned(i) == Converse
      ensures i == CONVERSE_PLACE
    {
    }
  }

  lemma GoodBucketIsValid(contract: Contract)
    ensures BucketIsValid(GoodBucket(contract), contract)
  {
    forall part | part in ALL_BUCKET_PARTS
      ensures PartIsValid(part, GoodBucket(contract)[part], contract)
    {
      PartAnswerIsValid(part, contract);
      PartSurvives(part, PartAnswer(part, contract), contract);
    }
  }

  // For every contract there is a run that ends without a reason.
  lemma PassingRunExists(contract: Contract)
    ensures RunEnded(GoodRun(contract), contract) && GoodRun(contract).reasons == []
    ensures IdentityIsExact(GoodRun(contract).observations)
  {
    WholePlanProgress();
    IdentitySurvives(IdentityAnswer(contract), contract);
    IdentityAnswerIsExact(contract);
    GoodBucketIsValid(contract);
    GoodObservationsAreValid(WithoutMetadata(IdentityAnswer(contract)), GoodBucket(contract), contract);
  }
}
