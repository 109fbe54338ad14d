/**
 The private receipt of the read-only G10 preflight: its parts, the checks that are derived
 from an observation, and the closed validator a later gate applies to a stored receipt.
 */
module PreflightReceipt {
  import opened Wrappers
  import opened SdkValues

  // ---------- Operations and the call ledger ----------

  datatype Service = STS | S3 | IAM | EC2 | CLOUDWATCH | BEDROCK | BEDROCK_RUNTIME | BUDGETS

  datatype Operation =
    | GetCallerIdentity
    | GetBucketLocation
    | GetBucketEncryption
    | GetBucketPublicAccessBlock
    | GetBucketOwnershipControls
    | GetBucketVersioning
    | GetBucketLifecycleConfiguration
    | GetBucketPolicy
    | SimulatePrincipalPolicy
    | DescribeInstances
    | GetMetricStatistics
    | GetInferenceProfile
    | Converse
    | DescribeBudget
    | DescribeNotificationsForBudget
    | DescribeSubscribersForNotification
    | Unlisted(name: string)

  function ServiceOf(op: Operation): Service {
    match op
    case GetCallerIdentity => STS
    case SimulatePrincipalPolicy => IAM
    case DescribeInstances => EC2
    case GetMetricStatistics => CLOUDWATCH
    case GetInferenceProfile => BEDROCK
    case Converse => BEDROCK_RUNTIME
    case DescribeBudget => BUDGETS
    case DescribeNotificationsForBudget => BUDGETS
    case DescribeSubscribersForNotification => BUDGETS
    case _ => S3
  }

  // The read allowlist, in the order of the operation names.
  const READ_OPERATION_ALLOWLIST: seq<Operation> := [
    Converse, GetInferenceProfile, DescribeBudget, DescribeNotificationsForBudget,
    DescribeSubscribersForNotification, GetMetricStatistics, DescribeInstances,
    SimulatePrincipalPolicy, GetBucketEncryption, GetBucketLifecycleConfiguration,
    GetBucketLocation, GetBucketOwnershipControls, GetBucketPolicy,
    GetBucketPublicAccessBlock, GetBucketVersioning, GetCallerIdentity]

  predicate Allowlisted(op: Operation) { !op.Unlisted? }

  const PASS_OPERATION_SEQUENCE: seq<Operation> := [
    GetCallerIdentity,
    GetBucketLocation, GetBucketEncryption, GetBucketPublicAccessBlock, GetBucketOwnershipControls,
    GetBucketVersioning, GetBucketLifecycleConfiguration, GetBucketPolicy,
    SimulatePrincipalPolicy, SimulatePrincipalPolicy,
    DescribeInstances,
    GetMetricStatistics,
    GetInferenceProfile, Converse,
    DescribeBudget, DescribeNotificationsForBudget,
    DescribeSubscribersForNotification, DescribeSubscribersForNotification,
    DescribeSubscribersForNotification]

  datatype LedgerEntry = LedgerEntry(operation: Operation, sequence: int, write: bool)

  function Operations(ledger: seq<LedgerEntry>): (ops: seq<Operation>)
    ensures |ops| == |ledger|
    ensures forall i | 0 <= i < |ledger| :: ops[i] == ledger[i].operation
  {
    seq(|ledger|, i requires 0 <= i < |ledger| => ledger[i].operation)
  }

  predicate EntryIsValid(entry: LedgerEntry, sequence: int) {
    entry.sequence == sequence && !entry.write && Allowlisted(entry.operation)
  }

  predicate WellNumbered(ledger: seq<LedgerEntry>) {
    forall i | 0 <= i < |ledger| :: EntryIsValid(ledger[i], i + 1)
  }

  // pattern.index(op, position)
  function IndexFrom<T(==)>(pattern: seq<T>, op: T, position: nat): (r: Option<nat>)
    ensures r.None? ==> forall i | position <= i < |pattern| :: pattern[i] != op
    ensures r.Some? ==> position <= r.value < |pattern| && pattern[r.value] == op
    ensures r.Some? ==> forall i | position <= i < r.value :: pattern[i] != op
    decreases |pattern| - position
  {
    if position >= |pattern| then None
    else if pattern[position] == op then Some(position)
    else IndexFrom(pattern, op, position + 1)
  }

  // The greedy left-to-right scan: each operation takes the first free place in the pattern.
  predicate GreedyScan<T(==)>(ops: seq<T>, pattern: seq<T>, position: nat) {
    ops == [] ||
    var found := IndexFrom(pattern, ops[0], position);
    found.Some? && GreedyScan(ops[1..], pattern, found.value + 1)
  }

  // An order-preserving placement of every operation in the pattern, at or after position.
  ghost predicate Embeds<T>(ops: seq<T>, pattern: seq<T>, position: nat, places: seq<nat>) {
    && |places| == |ops|
    && (forall i | 0 <= i < |ops| :: position <= places[i] < |pattern| && pattern[places[i]] == ops[i])
    && (forall i, j | 0 <= i < j < |places| :: places[i] < places[j])
  }

  ghost predicate IsSubsequence<T(!new)>(ops: seq<T>, pattern: seq<T>) {
    exists places: seq<nat> :: Embeds(ops, pattern, 0, places)
  }

  predicate LedgerIsValid(ledger: seq<LedgerEntry>, requireComplete: bool) {
    && WellNumbered(ledger)
    && if requireComplete then Operations(ledger) == PASS_OPERATION_SEQUENCE
       else GreedyScan(Operations(ledger), PASS_OPERATION_SEQUENCE, 0)
  }

  lemma {:induction false} GreedyFindsEmbedding<T>(ops: seq<T>, pattern: seq<T>, position: nat)
      returns (places: seq<nat>)
    requires GreedyScan(ops, pattern, position)
    ensures Embeds(ops, pattern, position, places)
  {
    if ops == [] {
      places := [];
    } else {
      var first := IndexFrom(pattern, ops[0], position).value;
      var rest := GreedyFindsEmbedding(ops[1..], pattern, first + 1);
      places := [first] + rest;
    }
  }

  // Taking the first free place never loses a placement that exists.
  lemma {:induction false} EmbeddingPassesGreedy<T>(ops: seq<T>, pattern: seq<T>, position: nat, places: seq<nat>)
    requires Embeds(ops, pattern, position, places)
    ensures GreedyScan(ops, pattern, position)
  {
    if ops != [] {
      var found := IndexFrom(pattern, ops[0], position);
      assert pattern[places[0]] == ops[0];
      assert found.Some? && found.value <= places[0];
      assert Embeds(ops[1..], pattern, found.value + 1, places[1..]) by {
        forall i | 0 <= i < |ops[1..]|
          ensures found.value + 1 <= places[1..][i]
        {
          assert places[0] < places[i + 1];
        }
      }
      EmbeddingPassesGreedy(ops[1..], pattern, found.value + 1, places[1..]);
    }
  }

  // The greedy scan accepts exactly the subsequences of the pattern.
  lemma GreedyScanIsSubsequence<T(!new)>(ops: seq<T>, pattern: seq<T>)
    ensures GreedyScan(ops, pattern, 0) <==> IsSubsequence(ops, pattern)
  {
    if GreedyScan(ops, pattern, 0) {
      var places := GreedyFindsEmbedding(ops, pattern, 0);
      assert Embeds(ops, pattern, 0, places);
    }
    if IsSubsequence(ops, pattern) {
      var places: seq<nat> :| Embeds(ops, pattern, 0, places);
      EmbeddingPassesGreedy(ops, pattern, 0, places);
    }
  }

  method CheckLedger(ledger: seq<LedgerEntry>, requireComplete: bool) returns (valid: bool)
    ensures requireComplete ==>
      (valid <==> WellNumbered(ledger) && Operations(ledger) == PASS_OPERATION_SEQUENCE)
    ensures !requireComplete ==>
      (valid <==> WellNumbered(ledger) && IsSubsequence(Operations(ledger), PASS_OPERATION_SEQUENCE))
  {
    var operations: seq<Operation> := [];
    for index := 0 to |ledger|
      invariant forall i | 0 <= i < index :: EntryIsValid(ledger[i], i + 1)
      invariant operations == Operations(ledger)[..index]
    {
      if !EntryIsValid(ledger[index], index + 1) {
        return false;
      }
      operations := operations + [ledger[index].operation];
    }
    assert operations == Operations(ledger);
    GreedyScanIsSubsequence(operations, PASS_OPERATION_SEQUENCE);
    if requireComplete {
      return operations == PASS_OPERATION_SEQUENCE;
    }
    valid := FollowsPattern(operations, PASS_OPERATION_SEQUENCE);
  }

  // Each operation is looked for behind the place of the one before.
  method FollowsPattern(operations: seq<Operation>, pattern: seq<Operation>) returns (follows: bool)
    ensures follows == GreedyScan(operations, pattern, 0)
  {
    var position := 0;
    for index := 0 to |operations|
      invariant GreedyScan(operations, pattern, 0) == GreedyScan(operations[index..], pattern, position)
    {
      var found := IndexFrom(pattern, operations[index], position);
      assert operations[index..][1..] == operations[index + 1..];
      if found.None? {
        return false;
      }
      position := found.value + 1;
    }
    return true;
  }

  // ---------- Reasons ----------

  datatype Reason =
    | ClientCreationFailed(service: Service)
    | AwsCallFailed(op: Operation)
    | AwsResponseInvalid(op: Operation)
    | CallerAccountMismatch
    | CallerRoleMismatch
    | BucketPartInvalid(part: BucketPart)
    | JudgeSecretCapabilityNotAllowed
    | ArtifactPathCapabilityNotAllowed
    | SandboxExplicitTargetMismatch
    | SandboxNotRunning
    | SandboxRegionMismatch
    | SandboxEbsRequired
    | SandboxTagMismatch
    | CloudwatchNumericDatapointsInsufficient
    | NovaProfileUnavailable
    | NovaInvocationAccessUnproven
    | NovaInvocationProbeSkippedDueToPriorBlocker
    | NovaSyntheticConverseFailed
    | BudgetConfigurationInvalid
    | BudgetThresholdsInvalid
    | BudgetNotificationOwnerMissing
    | OtherReason(text: string)

  datatype BucketPart =
    Location | Encryption | PublicAccessBlock | Ownership | Versioning | Lifecycle | BucketPolicy

  function ServiceText(service: Service): string {
    match service
    case STS => "STS"
    case S3 => "S3"
    case IAM => "IAM"
    case EC2 => "EC2"
    case CLOUDWATCH => "CLOUDWATCH"
    case BEDROCK => "BEDROCK"
    case BEDROCK_RUNTIME => "BEDROCK" + "-RUNTIME"
    case BUDGETS => "BUDGETS"
  }

  // operation.upper().replace(":", "_")
  function OperationText(op: Operation): string {
    match op
    case GetCallerIdentity => "STS_GETCALLERIDENTITY"
    case GetBucketLocation => "S3_GETBUCKETLOCATION"
    case GetBucketEncryption => "S3_GETBUCKETENCRYPTION"
    case GetBucketPublicAccessBlock => "S3_GETBUCKETPUBLICACCESSBLOCK"
    case GetBucketOwnershipControls => "S3_GETBUCKETOWNERSHIPCONTROLS"
    case GetBucketVersioning => "S3_GETBUCKETVERSIONING"
    case GetBucketLifecycleConfiguration => "S3_GETBUCKETLIFECYCLECONFIGURATION"
    case GetBucketPolicy => "S3_GETBUCKETPOLICY"
    case SimulatePrincipalPolicy => "IAM_SIMULATEPRINCIPALPOLICY"
    case DescribeInstances => "EC2_DESCRIBEINSTANCES"
    case GetMetricStatistics => "CLOUDWATCH_GETMETRICSTATISTICS"
    case GetInferenceProfile => "BEDROCK_GETINFERENCEPROFILE"
    case Converse => "BEDROCK-RUNTIME_CONVERSE"
    case DescribeBudget => "BUDGETS_DESCRIBEBUDGET"
    case DescribeNotificationsForBudget => "BUDGETS_DESCRIBENOTIFICATIONSFORBUDGET"
    case DescribeSubscribersForNotification => "BUDGETS_DESCRIBESUBSCRIBERSFORNOTIFICATION"
    case Unlisted(name) => name
  }

  // The words reason codes begin with.
  const CLIENT_CREATION_FAILED := "CLIENT_CREATION_FAILED:"
  const AWS_CALL_FAILED := "AWS_CALL_FAILED:"
  const CALLER := "CALLER_"
  const BUCKET := "S3_"
  const JUDGE_SECRET := "JUDGE_SECRET_"
  const ARTIFACT := "ARTIFACT_PATH_"
  const SANDBOX := "SANDBOX_"
  const WINDOW := "CLOUDWATCH_"
  const NOVA := "NOVA_"
  const BUDGET := "BUDGET_"

  function BucketPartText(part: BucketPart): string {
    match part
    case Location => "BUCKET_REGION_MISMATCH"
    case Encryption => "BUCKET_ENCRYPTION_INVALID"
    case PublicAccessBlock => "PUBLIC_ACCESS_BLOCK_INVALID"
    case Ownership => "OWNERSHIP_CONTROLS_INVALID"
    case Versioning => "VERSIONING_INVALID"
    case Lifecycle => "LIFECYCLE_INVALID"
    case BucketPolicy => "TLS_POLICY_INVALID"
  }

  function ReasonText(reason: Reason): string {
    match reason
    case ClientCreationFailed(service) => CLIENT_CREATION_FAILED + ServiceText(service)
    case AwsCallFailed(op) => AWS_CALL_FAILED + OperationText(op)
    case AwsResponseInvalid(op) => "AWS_RESPONSE_INVALID:" + OperationText(op)
    case CallerAccountMismatch => CALLER + "ACCOUNT_MISMATCH"
    case CallerRoleMismatch => CALLER + "ROLE_MISMATCH"
    case BucketPartInvalid(part) => BUCKET + BucketPartText(part)
    case JudgeSecretCapabilityNotAllowed => JUDGE_SECRET + "CAPABILITY_NOT_ALLOWED"
    case ArtifactPathCapabilityNotAllowed => ARTIFACT + "CAPABILITY_NOT_ALLOWED"
    case SandboxExplicitTargetMismatch => SANDBOX + "EXPLICIT_TARGET_MISMATCH"
    case SandboxNotRunning => SANDBOX + "NOT_RUNNING"
    case SandboxRegionMismatch => SANDBOX + "REGION_MISMATCH"
    case SandboxEbsRequired => SANDBOX + "EBS_REQUIRED"
    case SandboxTagMismatch => SANDBOX + "TAG_MISMATCH"
    case CloudwatchNumericDatapointsInsufficient => WINDOW + "NUMERIC_DATAPOINTS_INSUFFICIENT"
    case NovaProfileUnavailable => NOVA + "PROFILE_UNAVAILABLE"
    case NovaInvocationAccessUnproven => NOVA + "INVOCATION_ACCESS_UNPROVEN"
    case NovaInvocationProbeSkippedDueToPriorBlocker =>
      NOVA + "INVOCATION_PROBE_SKIPPED_DUE_TO_PRIOR_BLOCKER"
    case NovaSyntheticConverseFailed => NOVA + "SYNTHETIC_CONVERSE_FAILED"
    case BudgetConfigurationInvalid => BUDGET + "CONFIGURATION_INVALID"
    case BudgetThresholdsInvalid => BUDGET + "THRESHOLDS_INVALID"
    case BudgetNotificationOwnerMissing => BUDGET + "NOTIFICATION_OWNER_MISSING"
    case OtherReason(text) => text
  }

  predicate IsCodeChar(c: char) {
    'A' <= c <= 'Z' || '0' <= c <= '9' || c == '_' || c == ':' || c == '.' || c == '-'
  }

  // The expression [A-Z0-9_:.-]{1,160}. The named codes are spelled in it; any other text is tested.
  predicate ReasonWellFormed(reason: Reason) {
    match reason
    case AwsCallFailed(op) => !op.Unlisted?
    case AwsResponseInvalid(op) => !op.Unlisted?
    case OtherReason(text) => 1 <= |text| <= 160 && forall c | c in text :: IsCodeChar(c)
    case _ => true
  }

  predicate HasReasonPrefix(reasons: seq<Reason>, prefixes: seq<string>) {
    exists i, j | 0 <= i < |reasons| && 0 <= j < |prefixes| :: prefixes[j] <= ReasonText(reasons[i])
  }

  predicate NoDuplicates<T(==)>(s: seq<T>) {
    forall i, j | 0 <= i < j < |s| :: s[i] != s[j]
  }

  // ---------- Observations ----------

  datatype Capability = Capability(actionsExact: bool, allowedForExactResource: bool, notTruncated: bool)

  datatype Sandbox =
    | TargetMismatch
    | Target(ebsBacked: bool, regionMatch: bool, running: bool, tagMatch: bool)

  datatype CloudwatchWindow =
    CloudwatchWindow(minimumNumericDatapoints: int, numericDatapoints: int, windowSeconds: int)

  datatype NovaProfile =
    NovaProfile(active: bool, exactProfile: bool, routedModelCount: int, routedModelsExact: bool)

  datatype NovaProbe =
    | ProbeNotRun
    | Probe(latencyMs: int, succeeded: bool, responseReceived: bool, responsePersisted: bool)

  datatype Budget =
    Budget(configurationValid: Option<bool>, thresholdsExact: Option<bool>, ownersPresent: Option<seq<bool>>)

  datatype Observations = Observations(
    callerIdentity: Option<Mapping>,
    artifactBucket: Option<map<BucketPart, Mapping>>,
    secretCapability: Option<Capability>,
    artifactPathCapability: Option<Capability>,
    sandbox: Option<Sandbox>,
    cloudwatch: Option<CloudwatchWindow>,
    novaProfile: Option<NovaProfile>,
    novaProbe: Option<NovaProbe>,
    budget: Option<Budget>)

  const NO_OBSERVATIONS := Observations(None, None, None, None, None, None, None, None, None)

  const ALL_BUCKET_PARTS: set<BucketPart> :=
    {Location, Encryption, PublicAccessBlock, Ownership, Versioning, Lifecycle, BucketPolicy}

  const THRESHOLD_COUNT := 3

  // ---------- The contract ----------

  const REGION := "eu-central-1"
  const DEPLOYMENT_PROFILE := "aioa-day15-deployer"
  const DEPLOYMENT_ROLE_LEAF := "AIOANonZeroCloudOpsDay15DeploymentRole"
  const STACK_NAME := "aioa-nonzero-cloudops-day15"
  const ARTIFACT_PATH := "day15/reviewed/aioa-lambda.zip"
  const ARTIFACT_PREFIX := "day15/reviewed/"
  const NOVA_PROFILE := "eu.amazon.nova-2-lite-v1:0"
  const NOVA_MODEL_REGIONS: set<string> :=
    {"eu-central-1", "eu-north-1", "eu-south-1", "eu-south-2", "eu-west-1", "eu-west-3"}
  const WINDOW_MINUTES: int := 60
  const PERIOD_SECONDS: int := 300
  const MINIMUM_DATAPOINTS: int := 6
  const MAX_SELECTION_AGE: int := 3600 * MICROS
  const MAX_FUTURE_SKEW: int := 60 * MICROS

  // Times are microseconds. fieldsValid stands for the tests of the contract that are
  // regular expressions, exact key sets or comparisons with one fixed word.
  datatype RawContract = RawContract(
    schemaVersion: int,
    candidateDigest: string,
    region: string,
    accountId: string,
    selectedProfile: string,
    roleArn: Arn,
    bucket: string,
    instanceId: string,
    periodSeconds: int,
    minimumDatapoints: int,
    windowMinutes: int,
    selectionTime: int,
    allowInferenceProbe: bool,
    budgetName: string,
    budgetOwner: string,
    budgetOwnerType: string,
    fieldsValid: bool)

  datatype Contract = Contract(
    raw: RawContract,
    accountId: string,
    deploymentProfile: string,
    roleArn: Arn,
    bucket: string,
    artifactPrefix: string,
    secretArn: string,
    instanceId: string,
    cwStart: int,
    cwEnd: int,
    cwPeriod: int,
    cwMinimum: int,
    novaProfileId: string,
    syntheticConverse: bool,
    budgetName: string,
    budgetOwner: string,
    budgetOwnerType: string)

  datatype Rejection =
    | CandidateDescriptorInvalid
    | CandidateDigestMismatch
    | PrivateContractSchemaInvalid
    | RegionMustBeEuCentral1
    | ProfileInvalid
    | RoleArnInvalid
    | ContractFieldInvalid
    | CloudwatchContractInvalid
    | PrivateContractTimestampStale
    | SessionProfileMismatch
    | ObservationTimeInvalid
    | ReceiptNonceInvalid
    | NonJsonValue
    | CanonicalDocumentTooLarge
    | PrivateReceiptSchemaInvalid
    | PrivateReceiptCandidateMismatch
    | PrivateReceiptObservedAtInvalid
    | PrivateReceiptStale
    | PrivateReceiptStatusInvalid

  // The operator's selection is at most one hour old and at most one minute in the future.
  predicate Fresh(now: int, selectionTime: int) {
    -MAX_FUTURE_SKEW <= now - selectionTime <= MAX_SELECTION_AGE
  }

  function SecretArn(accountId: string): string {
    "arn:aws:secretsmanager:" + REGION + ":" + accountId + ":secret:" + STACK_NAME + "-JudgeTokenSecret-*"
  }

  // The tests that come before the timestamp.
  function FixedFieldProblem(raw: RawContract, expectedDigest: string): Option<Rejection> {
    if raw.schemaVersion != 1 || raw.candidateDigest != expectedDigest then Some(PrivateContractSchemaInvalid)
    else if raw.region != REGION then Some(RegionMustBeEuCentral1)
    else if raw.selectedProfile != DEPLOYMENT_PROFILE then Some(ProfileInvalid)
    else if !raw.roleArn.RoleArn? || raw.roleArn.account != raw.accountId
            || raw.roleArn.leaf != DEPLOYMENT_ROLE_LEAF then Some(RoleArnInvalid)
    else if raw.periodSeconds != PERIOD_SECONDS || raw.minimumDatapoints != MINIMUM_DATAPOINTS
            || raw.windowMinutes != WINDOW_MINUTES then Some(CloudwatchContractInvalid)
    else None
  }

  function ContractFrom(raw: RawContract, now: int): Contract {
    Contract(
      raw, raw.accountId, raw.selectedProfile, raw.roleArn, raw.bucket, ARTIFACT_PREFIX,
      SecretArn(raw.accountId), raw.instanceId, now - raw.windowMinutes * 60 * MICROS, now,
      raw.periodSeconds, raw.minimumDatapoints, NOVA_PROFILE, raw.allowInferenceProbe,
      raw.budgetName, raw.budgetOwner, raw.budgetOwnerType)
  }

  function ValidateContract(raw: RawContract, expectedDigest: string, now: int): Result<Contract, Rejection> {
    var problem := FixedFieldProblem(raw, expectedDigest);
    if problem.Some? then Failure(problem.value)
    else if !Fresh(now, raw.selectionTime) then Failure(PrivateContractTimestampStale)
    else if !raw.fieldsValid then Failure(ContractFieldInvalid)
    else Success(ContractFrom(raw, now))
  }

  // derivedDigest is what derive_candidate_digest yields for the commit and the components.
  datatype Candidate = Candidate(
    schemaVersion: int, region: string, sourceCommit: string, components: map<string, string>,
    candidateDigest: string, derivedDigest: string, patternsMatch: bool)

  function ValidateCandidate(candidate: Candidate, digest: string): Option<Rejection> {
    if candidate.schemaVersion != 1 || candidate.region != REGION then Some(CandidateDescriptorInvalid)
    else if !candidate.patternsMatch || digest != candidate.candidateDigest then Some(CandidateDigestMismatch)
    else if candidate.derivedDigest != digest then Some(CandidateDigestMismatch)
    else None
  }

  // ---------- The receipt ----------

  datatype Status = Pass | Blocked | OtherStatus(text: string)

  datatype Checks = Checks(
    authenticatedIdentityMatch: bool,
    budgetNotificationOwnerReady: bool,
    cloudwatchEvidenceReady: bool,
    judgeSecretReady: bool,
    nova2ProfileAccess: bool,
    packagingBucketReady: bool,
    sandboxReadOnlyVerified: bool)

  predicate AllTrue(checks: Checks) {
    && checks.authenticatedIdentityMatch
    && checks.budgetNotificationOwnerReady
    && checks.cloudwatchEvidenceReady
    && checks.judgeSecretReady
    && checks.nova2ProfileAccess
    && checks.packagingBucketReady
    && checks.sandboxReadOnlyVerified
  }

  datatype Identifiers = Identifiers(
    artifactBucket: string, budgetName: string, budgetOwner: string, deploymentProfile: string,
    deploymentRoleArn: Arn, expectedAccountId: string, judgeSecretArn: string,
    novaInferenceProfileId: string, sandboxInstanceId: string)

  function IdentifiersOf(contract: Contract): Identifiers {
    Identifiers(contract.bucket, contract.budgetName, contract.budgetOwner, contract.deploymentProfile,
                contract.roleArn, contract.accountId, contract.secretArn, contract.novaProfileId,
                contract.instanceId)
  }

  datatype PrivateReceipt = PrivateReceipt(
    schemaVersion: int,
    region: string,
    candidate: Candidate,
    candidateSha256: string,
    observedAt: int,
    receiptNonce: string,
    privateContract: RawContract,
    identifiers: Identifiers,
    readOperationAllowlist: seq<Operation>,
    callLedger: seq<LedgerEntry>,
    writeOperations: seq<string>,
    observations: Observations,
    checks: Checks,
    reasons: seq<Reason>,
    externalPrerequisitesPass: bool,
    status: Status)

  predicate NonceWellFormed(nonce: string) {
    32 <= |nonce| <= 128 && forall c | c in nonce :: '0' <= c <= '9' || 'a' <= c <= 'f'
  }

  // isoformat(timespec="seconds")
  function TruncateToSecond(micros: int): int {
    micros / MICROS * MICROS
  }

  // ---------- What each stored observation has to show ----------

  predicate PrincipalMatches(expected: Arn, observed: Value, account: string) {
    observed == ArnText(expected) ||
    (&& observed.ArnText?
     && observed.arn.AssumedRoleArn?
     && expected.RoleArn?
     && observed.arn.account == account
     && observed.arn.leaf == expected.leaf)
  }

  predicate IsEncrypted(fields: Mapping) {
    var rules := Field(Get(fields, "ServerSideEncryptionConfiguration"), "Rules");
    rules.List? && exists i | 0 <= i < |rules.items| :: Encrypts(rules.items[i])
  }

  predicate Encrypts(rule: Value) {
    Field(Field(rule, "ApplyServerSideEncryptionByDefault"), "SSEAlgorithm")
      in {Text("AES256"), Text("aws:kms"), Text("aws:kms:dsse")}
  }

  predicate BlocksPublicAccess(fields: Mapping) {
    var configuration := Get(fields, "PublicAccessBlockConfiguration");
    && Field(configuration, "BlockPublicAcls") == Bool(true)
    && Field(configuration, "BlockPublicPolicy") == Bool(true)
    && Field(configuration, "IgnorePublicAcls") == Bool(true)
    && Field(configuration, "RestrictPublicBuckets") == Bool(true)
  }

  predicate OwnerEnforced(fields: Mapping) {
    var rules := Field(Get(fields, "OwnershipControls"), "Rules");
    rules.List? && exists i | 0 <= i < |rules.items| ::
      Field(rules.items[i], "ObjectOwnership") == Text("BucketOwnerEnforced")
  }

  predicate DaysBounded(days: Value) { days.Int? && 1 <= days.n <= 3 }

  // A filter, when present, overrides the older prefix attribute.
  function RulePrefix(rule: Value): Value {
    var filter := Field(rule, "Filter");
    if filter.Dict? then Get(filter.fields, "Prefix") else Field(rule, "Prefix")
  }

  predicate LifecycleRuleBounded(rule: Value, prefix: string) {
    && Field(rule, "Status") == Text("Enabled")
    && RulePrefix(rule) == Text(prefix)
    && DaysBounded(Field(Field(rule, "Expiration"), "Days"))
    && DaysBounded(Field(Field(rule, "NoncurrentVersionExpiration"), "NoncurrentDays"))
  }

  predicate LifecycleIsBounded(fields: Mapping, prefix: string) {
    var rules := Get(fields, "Rules");
    rules.List? && exists i | 0 <= i < |rules.items| :: LifecycleRuleBounded(rules.items[i], prefix)
  }

  const MAX_CANONICAL_DOCUMENT_BYTES := 65_536

  // {value} for a text, otherwise the members of the collection
  function Members(v: Value): set<Value> {
    if v.List? then set x | x in v.items
    else if v.Dict? then set k | k in v.fields :: Text(k)
    else if v == Null then {}
    else {v}
  }

  function Lower(c: char): char {
    if 'A' <= c <= 'Z' then c - 'A' + 'a' else c
  }

  // str(value).lower() == "false"
  predicate ReadsAsFalse(v: Value) {
    v == Bool(false) || (v.Text? && seq(|v.s|, i requires 0 <= i < |v.s| => Lower(v.s[i])) == "false")
  }

  predicate DeniesPlainTransport(statement: Value, bucket: string) {
    && ReadsAsFalse(Field(Field(Field(statement, "Condition"), "Bool"), "aws:SecureTransport"))
    && Field(statement, "Effect") == Text("Deny")
    && Field(statement, "Principal") == Text("*")
    && Text("s3:*") in Members(Field(statement, "Action"))
    && {Text("arn:aws:s3:::" + bucket), Text("arn:aws:s3:::" + bucket + "/*")}
       <= Members(Field(statement, "Resource"))
  }

  // One statement may stand alone or in a list.
  function Statements(policy: Value): seq<Value> {
    var statements := Field(policy, "Statement");
    if statements.Dict? then [statements] else if statements.List? then statements.items else []
  }

  predicate PolicyIsTlsOnly(policy: Value, bucket: string) {
    && policy.JsonText?
    && policy.length <= MAX_CANONICAL_DOCUMENT_BYTES
    && exists statement | statement in Statements(policy.parsed) :: DeniesPlainTransport(statement, bucket)
  }

  predicate PartIsValid(part: BucketPart, fields: Mapping, contract: Contract) {
    match part
    case Location => Get(fields, "LocationConstraint") == Text(REGION)
    case Encryption => IsEncrypted(fields)
    case PublicAccessBlock => BlocksPublicAccess(fields)
    case Ownership => OwnerEnforced(fields)
    case Versioning => Get(fields, "Status") == Text("Enabled")
    case Lifecycle => LifecycleIsBounded(fields, contract.artifactPrefix)
    case BucketPolicy => PolicyIsTlsOnly(Get(fields, "Policy"), contract.bucket)
  }

  predicate IdentityMatches(identity: Mapping, contract: Contract) {
    && Get(identity, "Account") == Text(contract.accountId)
    && PrincipalMatches(contract.roleArn, Get(identity, "Arn"), contract.accountId)
  }

  predicate IdentityKeysExact(identity: Mapping) {
    identity.Keys == {"Account", "Arn", "UserId"}
  }

  predicate BucketIsValid(bucket: map<BucketPart, Mapping>, contract: Contract) {
    && bucket.Keys == ALL_BUCKET_PARTS
    && forall part | part in bucket :: PartIsValid(part, bucket[part], contract)
  }

  predicate CloudwatchIsValid(window: CloudwatchWindow, contract: Contract) {
    && window.minimumNumericDatapoints == contract.cwMinimum
    && window.numericDatapoints >= contract.cwMinimum
    && window.windowSeconds == (contract.cwEnd - contract.cwStart) / MICROS
  }

  const GOOD_CAPABILITY := Capability(true, true, true)
  const GOOD_SANDBOX := Target(true, true, true, true)

  predicate NovaProfileIsValid(profile: NovaProfile) {
    profile == NovaProfile(true, true, |NOVA_MODEL_REGIONS|, true)
  }

  predicate NovaProbeIsValid(probe: NovaProbe) {
    probe.Probe? && probe.latencyMs >= 0 && probe.succeeded && probe.responseReceived && !probe.responsePersisted
  }

  predicate BudgetIsValid(budget: Budget) {
    budget == Budget(Some(true), Some(true), Some([true, true, true]))
  }

  // Every stage but the exact key set of the caller identity.
  predicate StagesAreValid(o: Observations, contract: Contract) {
    && o.callerIdentity.Some? && IdentityMatches(o.callerIdentity.value, contract)
    && o.artifactBucket.Some? && BucketIsValid(o.artifactBucket.value, contract)
    && o.secretCapability == Some(GOOD_CAPABILITY)
    && o.artifactPathCapability == Some(GOOD_CAPABILITY)
    && o.sandbox == Some(GOOD_SANDBOX)
    && o.cloudwatch.Some? && CloudwatchIsValid(o.cloudwatch.value, contract)
    && o.novaProfile.Some? && NovaProfileIsValid(o.novaProfile.value)
    && o.novaProbe.Some? && NovaProbeIsValid(o.novaProbe.value)
    && o.budget.Some? && BudgetIsValid(o.budget.value)
  }

  predicate IdentityIsExact(o: Observations) {
    o.callerIdentity.Some? && IdentityKeysExact(o.callerIdentity.value)
  }

  predicate PassObservationsAreValid(o: Observations, contract: Contract) {
    IdentityIsExact(o) && StagesAreValid(o, contract)
  }

  // ---------- The validator ----------

  function ValidatePrivateReceipt(
    receipt: PrivateReceipt, expected: Candidate, validationTime: Option<int>): Option<Rejection>
  {
    var badCandidate := ValidateCandidate(expected, expected.candidateDigest);
    if receipt.schemaVersion != 1 then Some(PrivateReceiptSchemaInvalid)
    else if badCandidate.Some? then badCandidate
    else if receipt.candidate != expected || receipt.candidateSha256 != expected.candidateDigest then
      Some(PrivateReceiptCandidateMismatch)
    else if receipt.observedAt != TruncateToSecond(receipt.observedAt) then
      Some(PrivateReceiptObservedAtInvalid)
    else if validationTime.Some? && !Fresh(validationTime.value, receipt.observedAt) then
      Some(PrivateReceiptStale)
    else
      var contract := ValidateContract(receipt.privateContract, expected.candidateDigest, receipt.observedAt);
      if contract.Failure? then Some(contract.error) else ValidateAgainstContract(receipt, contract.value)
  }

  function ValidateAgainstContract(receipt: PrivateReceipt, contract: Contract): Option<Rejection> {
    if !ReceiptSchemaIsValid(receipt, contract) then Some(PrivateReceiptSchemaInvalid)
    else if !CoherentPass(receipt, contract) && !CoherentBlock(receipt) then Some(PrivateReceiptStatusInvalid)
    else None
  }

  predicate ReceiptSchemaIsValid(receipt: PrivateReceipt, contract: Contract) {
    && receipt.region == REGION
    && receipt.identifiers == IdentifiersOf(contract)
    && receipt.readOperationAllowlist == READ_OPERATION_ALLOWLIST
    && NonceWellFormed(receipt.receiptNonce)
    && receipt.writeOperations == []
    && NoDuplicates(receipt.reasons)
    && (forall r | r in receipt.reasons :: ReasonWellFormed(r))
    && LedgerIsValid(receipt.callLedger, receipt.status == Pass)
  }

  predicate CoherentPass(receipt: PrivateReceipt, contract: Contract) {
    && receipt.status == Pass
    && receipt.externalPrerequisitesPass
    && receipt.reasons == []
    && AllTrue(receipt.checks)
    && PassObservationsAreValid(receipt.observations, contract)
  }

  predicate CoherentBlock(receipt: PrivateReceipt) {
    && receipt.status == Blocked
    && !receipt.externalPrerequisitesPass
    && (receipt.reasons != [] || !AllTrue(receipt.checks))
  }
}
