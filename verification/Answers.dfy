/**
 The world a run of the observer meets, and what every answer in it has to show for the run to pass.

 The observer makes each planned call at most once, so the world is a table over the nineteen
 planned places: whether a client can be created there, and what the call is answered.
 */
module Answers {
  import opened Wrappers
  import opened SdkValues
  import opened PreflightReceipt
  import opened Observer

  const SECRET_ACTIONS := ["secretsmanager:CreateSecret", "secretsmanager:GetSecretValue"]
  const PACKAGING_ACTIONS := ["s3:GetObject", "s3:PutObject"]
  const THRESHOLDS: seq<real> := [10.0, 25.0, 40.0]

  function DecimalOf(v: Value): Option<real> {
    match v
    case Int(n) => Some(n as real)
    case Float(r) => Some(r)
    case DecimalNumber(r) => Some(r)
    case NumberText(r) => Some(r)
    case _ => None
  }

  function NotificationThreshold(notification: Value): Option<real> {
    if Field(notification, "NotificationType") != Text("ACTUAL")
       || Field(notification, "ThresholdType") != Text("ABSOLUTE_VALUE")
       || Field(notification, "ComparisonOperator") != Text("GREATER_THAN") then None
    else DecimalOf(Field(notification, "Threshold"))
  }

  predicate BudgetConfigured(budget: Value, contract: Contract) {
    && Field(budget, "BudgetName") == Text(contract.budgetName)
    && Field(budget, "BudgetType") == Text("COST")
    && Field(Field(budget, "BudgetLimit"), "Unit") == Text("USD")
  }

  predicate OwnerPresent(subscribers: Value, contract: Contract) {
    subscribers.List? && exists subscriber | subscriber in subscribers.items ::
      && Field(subscriber, "SubscriptionType") == Text(contract.budgetOwnerType)
      && Field(subscriber, "Address") == Text(contract.budgetOwner)
  }

  function ModelArn(region: string): string {
    "arn:aws:bedrock:" + region + "::foundation-model/amazon.nova-2-lite-v1:0"
  }

  function ExpectedModelArns(): set<string> {
    set region | region in NOVA_MODEL_REGIONS :: ModelArn(region)
  }

  function ObservedModelArns(models: Value): set<string> {
    if models.List?
    then set model | model in models.items && Field(model, "modelArn").Text? :: Field(model, "modelArn").s
    else {}
  }

  lemma {:induction false} ImageOfRegions(regions: set<string>, arns: set<string>)
    requires arns == set region | region in regions :: ModelArn(region)
    ensures |arns| == |regions|
  {
    if regions != {} {
      var region :| region in regions;
      var rest := set r | r in regions - {region} :: ModelArn(r);
      forall r | r in regions && ModelArn(r) == ModelArn(region)
        ensures r == region
      {
        var head := |"arn:aws:bedrock:"|;
        assert ModelArn(r)[head..head + |r|] == r;
        assert ModelArn(region)[head..head + |region|] == region;
      }
      assert rest == arns - {ModelArn(region)};
      ImageOfRegions(regions - {region}, rest);
    }
  }

  // A datapoint counts when it is a percentage with a number at an instant inside the window.
  predicate DatapointCounts(datapoint: Value, contract: Contract) {
    var value, timestamp := Field(datapoint, "Average"), Field(datapoint, "Timestamp");
    && (value.Int? || value.Float? || value.DecimalNumber?)
    && timestamp.Moment?
    && contract.cwStart <= timestamp.micros <= contract.cwEnd
    && Field(datapoint, "Unit") == Text("Percent")
  }

  // int(timestamp.timestamp()) // period
  function PeriodOf(micros: int, period: int): int
    requires period > 0
  {
    var seconds := if micros >= 0 then micros / MICROS else -(-micros / MICROS);
    seconds / period
  }

  // ---------- When an answer passes ----------

  // Each action is simulated once, under its own name, and allowed for exactly this resource.
  predicate Allows(response: Mapping, actions: seq<string>, resource: string) {
    var results := Get(response, "EvaluationResults");
    && Get(response, "IsTruncated") == Bool(false)
    && results.List? && |results.items| == |actions|
    && (forall i | 0 <= i < |results.items| :: AllowedResult(results.items[i], resource))
    && (forall i, j | 0 <= i < j < |results.items| :: ActionName(results.items[i]) != ActionName(results.items[j]))
    && (set i | 0 <= i < |results.items| :: ActionName(results.items[i])) == (set action | action in actions)
  }

  predicate AllowedResult(result: Value, resource: string) {
    && Field(result, "EvalActionName").Text?
    && Field(result, "EvalDecision") == Text("allowed")
    && Field(result, "EvalResourceName") == Text(resource)
  }

  function ActionName(result: Value): string {
    var name := Field(result, "EvalActionName");
    if name.Text? then name.s else ""
  }

  function Mappings(values: seq<Value>): seq<Value> {
    if values == [] then []
    else Mappings(values[..|values| - 1]) + if values[|values| - 1].Dict? then [values[|values| - 1]] else []
  }

  function ItemsOf(value: Value): seq<Value> {
    if value.List? then value.items else []
  }

  // All instances of all reservations.
  function InstancesOf(reservations: seq<Value>): seq<Value> {
    if reservations == [] then []
    else InstancesOf(reservations[..|reservations| - 1]) +
         Mappings(ItemsOf(Field(reservations[|reservations| - 1], "Instances")))
  }

  function Tagged(tags: seq<Value>, key: string): seq<Value> {
    if tags == [] then []
    else Tagged(tags[..|tags| - 1], key) +
         if Field(tags[|tags| - 1], "Key") == Text(key) then [tags[|tags| - 1]] else []
  }

  const SANDBOX_TAG := "AIOACloudOpsSandbox"

  predicate HasEbs(instance: Value) {
    exists item | item in ItemsOf(Field(instance, "BlockDeviceMappings")) ::
      Field(item, "Ebs").Dict? && Truthy(Field(Field(item, "Ebs"), "VolumeId"))
  }

  predicate InRegion(instance: Value) {
    var zone := Field(Field(instance, "Placement"), "AvailabilityZone");
    zone.Text? && REGION <= zone.s
  }

  predicate IsTagged(instance: Value) {
    var matching := Tagged(ItemsOf(Field(instance, "Tags")), SANDBOX_TAG);
    |matching| == 1 && Field(matching[0], "Value") == Text("true")
  }

  // Running, in the region, on EBS, tagged once.
  predicate InstancePasses(instance: Value) {
    && Field(Field(instance, "State"), "Name") == Text("running")
    && InRegion(instance)
    && Field(instance, "RootDeviceType") == Text("ebs") && HasEbs(instance)
    && IsTagged(instance)
  }

  // Exactly the agreed instance, and it passes.
  predicate SandboxPasses(response: Mapping, contract: Contract) {
    var instances := InstancesOf(ItemsOf(Get(response, "Reservations")));
    && |instances| == 1
    && Field(instances[0], "InstanceId") == Text(contract.instanceId)
    && InstancePasses(instances[0])
  }

  // The periods of the window that have a datapoint.
  function PeriodsOf(response: Mapping, contract: Contract): set<int>
    requires contract.cwPeriod > 0
  {
    var datapoints := ItemsOf(Get(response, "Datapoints"));
    set i | 0 <= i < |datapoints| && DatapointCounts(datapoints[i], contract) ::
      PeriodOf(Field(datapoints[i], "Timestamp").micros, contract.cwPeriod)
  }

  predicate ProfilePasses(response: Mapping, contract: Contract) {
    var models := Get(response, "models");
    && Get(response, "inferenceProfileId") == Text(contract.novaProfileId)
    && Get(response, "status") == Text("ACTIVE")
    && models.List? && ObservedModelArns(models) == ExpectedModelArns()
    && |models.items| == |ExpectedModelArns()|
  }

  // One notification for each threshold and no other, on one page.
  predicate NotificationsPass(response: Mapping) {
    var notifications := Get(response, "Notifications");
    && notifications.List? && !Truthy(Get(response, "NextToken"))
    && ThresholdsExact(notifications.items)
  }

  predicate ThresholdsExact(notifications: seq<Value>) {
    && |notifications| == THRESHOLD_COUNT
    && (forall t | t in THRESHOLDS ::
          exists i | 0 <= i < |notifications| :: NotificationThreshold(notifications[i]) == Some(t))
    && (forall i | 0 <= i < |notifications| ::
          NotificationThreshold(notifications[i]).Some? ==> NotificationThreshold(notifications[i]).value in THRESHOLDS)
  }

  predicate OwnerPasses(response: Option<Mapping>, contract: Contract) {
    && response.Some?
    && OwnerPresent(Get(response.value, "Subscribers"), contract)
    && !Truthy(Get(response.value, "NextToken"))
  }

  // ---------- The world ----------

  datatype Answer = Raised | NotAMapping | Answered(fields: Mapping)

  // By planned place: where a missing client can be created, what each call is answered, and which
  // canonical documents are within the size limit. The whole receipt is document CALLS.
  datatype World = World(clients: set<nat>, answers: map<nat, Answer>, small: set<nat>, elapsed: int)

  function AnswerAt(w: World, k: nat): Answer {
    if k in w.answers then w.answers[k] else Raised
  }

  function Reply(w: World, k: nat): Option<Mapping> {
    match AnswerAt(w, k)
    case Answered(fields) => Some(fields)
    case _ => None
  }

  // The reasons after a call: one more for a client that cannot be created, a call that raises, or
  // an answer that is no mapping.
  function Complain(reasons: seq<Reason>, op: Operation, reached: bool, answer: Answer): seq<Reason> {
    if !reached then Note(reasons, ClientCreationFailed(ServiceOf(op)))
    else
      match answer
      case Raised => Note(reasons, AwsCallFailed(op))
      case NotAMapping => Note(reasons, AwsResponseInvalid(op))
      case Answered(_) => reasons
  }

  // The first planned place that needs a client of the service; the client is kept from there on.
  function FirstPlace(service: Service): nat {
    match service
    case STS => 0
    case S3 => 1
    case IAM => 8
    case EC2 => 10
    case CLOUDWATCH => 11
    case BEDROCK => 12
    case BEDROCK_RUNTIME => 13
    case BUDGETS => 14
  }

  // The bucket calls in order, which is the planned order.
  const BUCKET_CALLS := 7

  function BucketCall(i: nat): Operation {
    match i
    case 0 => GetBucketLocation
    case 1 => GetBucketEncryption
    case 2 => GetBucketPublicAccessBlock
    case 3 => GetBucketOwnershipControls
    case 4 => GetBucketVersioning
    case 5 => GetBucketLifecycleConfiguration
    case _ => GetBucketPolicy
  }

  function PlaceOf(part: BucketPart): nat {
    match part
    case Location => 0
    case Encryption => 1
    case PublicAccessBlock => 2
    case Ownership => 3
    case Versioning => 4
    case Lifecycle => 5
    case BucketPolicy => 6
  }

  // The answers to the identity call and the bucket calls are stored, as canonical JSON.
  predicate Storable(w: World, k: nat) {
    Reply(w, k).Some? ==> MetadataEncodable(Reply(w, k).value) && k in w.small
  }

  predicate BucketStorable(w: World) {
    forall i | 0 <= i < BUCKET_CALLS :: PartStorable(w, i)
  }

  predicate PartStorable(w: World, i: nat) {
    Storable(w, 1 + i)
  }

  predicate AllStorable(w: World) {
    Storable(w, 0) && BucketStorable(w) && CALLS in w.small
  }

  // ---------- When the world passes ----------

  predicate IdentityPasses(w: World, contract: Contract) {
    0 in w.clients && Reply(w, 0).Some? && IdentityMatches(Reply(w, 0).value, contract)
  }

  predicate PartPasses(w: World, part: BucketPart, contract: Contract) {
    var reply := Reply(w, 1 + PlaceOf(part));
    reply.Some? && PartIsValid(part, reply.value, contract)
  }

  predicate BucketPasses(w: World, contract: Contract) {
    1 in w.clients && forall part: BucketPart :: PartPasses(w, part, contract)
  }

  function PackagingArn(contract: Contract): string {
    "arn:aws:s3:::" + contract.bucket + "/" + ARTIFACT_PATH
  }

  predicate SimulationPasses(reply: Option<Mapping>, actions: seq<string>, resource: string) {
    reply.Some? && Allows(reply.value, actions, resource)
  }

  predicate CapabilitiesPass(w: World, contract: Contract) {
    && 8 in w.clients
    && SimulationPasses(Reply(w, 8), SECRET_ACTIONS, contract.secretArn)
    && SimulationPasses(Reply(w, 9), PACKAGING_ACTIONS, PackagingArn(contract))
  }

  predicate InstancesPass(w: World, contract: Contract) {
    10 in w.clients && Reply(w, 10).Some? && SandboxPasses(Reply(w, 10).value, contract)
  }

  predicate MetricsPass(w: World, contract: Contract)
    requires contract.cwPeriod > 0
  {
    11 in w.clients && Reply(w, 11).Some? && |PeriodsOf(Reply(w, 11).value, contract)| >= contract.cwMinimum
  }

  predicate ProfileShown(w: World, contract: Contract) {
    12 in w.clients && Reply(w, 12).Some? && ProfilePasses(Reply(w, 12).value, contract)
  }

  predicate ModelPasses(w: World, contract: Contract) {
    ProfileShown(w, contract) && contract.syntheticConverse && 13 in w.clients && Reply(w, 13).Some?
  }

  predicate NotifiedOwnerPasses(w: World, i: nat, contract: Contract) {
    OwnerPasses(Reply(w, 16 + i), contract)
  }

  predicate OwnersPass(w: World, contract: Contract) {
    forall i | 0 <= i < THRESHOLD_COUNT :: NotifiedOwnerPasses(w, i, contract)
  }

  predicate BudgetPasses(w: World, contract: Contract) {
    && 14 in w.clients
    && Reply(w, 14).Some? && BudgetConfigured(Get(Reply(w, 14).value, "Budget"), contract)
    && Reply(w, 15).Some? && NotificationsPass(Reply(w, 15).value)
    && OwnersPass(w, contract)
  }

  // Every client can be created, every call is answered, and every answer shows what the contract
  // asks for.
  predicate Passes(w: World, contract: Contract)
    requires contract.cwPeriod > 0
  {
    && IdentityPasses(w, contract)
    && BucketPasses(w, contract)
    && CapabilitiesPass(w, contract)
    && InstancesPass(w, contract)
    && MetricsPass(w, contract)
    && ModelPasses(w, contract)
    && BudgetPasses(w, contract)
  }
}
