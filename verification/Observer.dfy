/**
 The G10 read-only observer: six stages of AWS calls that append to one call ledger and one
 reason list, and the receipt that is derived from them.

 Nothing here depends on what AWS answers: each contract below speaks about every run.
 */
module Observer {
  import opened Wrappers
  import opened SdkValues
  import opened PreflightReceipt

  // ---------- The checks of a receipt ----------

  const IDENTITY_PREFIXES := [CALLER, AWS_CALL_FAILED + "STS_", CLIENT_CREATION_FAILED + "STS"]
  const PACKAGING_PREFIXES := [
    BUCKET, AWS_CALL_FAILED + "S3_", CLIENT_CREATION_FAILED + "S3", ARTIFACT, AWS_CALL_FAILED + "IAM_"]
  const SECRET_PREFIXES := [JUDGE_SECRET, AWS_CALL_FAILED + "IAM_", CLIENT_CREATION_FAILED + "IAM"]
  const SANDBOX_PREFIXES := [SANDBOX, AWS_CALL_FAILED + "EC2_", CLIENT_CREATION_FAILED + "EC2"]
  const CLOUDWATCH_PREFIXES :=
    [WINDOW, AWS_CALL_FAILED + "CLOUDWATCH_", CLIENT_CREATION_FAILED + "CLOUDWATCH"]
  const NOVA_PREFIXES := [NOVA, AWS_CALL_FAILED + "BEDROCK_", CLIENT_CREATION_FAILED + "BEDROCK"]
  const BUDGET_PREFIXES := [BUDGET, AWS_CALL_FAILED + "BUDGETS_", CLIENT_CREATION_FAILED + "BUDGETS"]

  function ChecksOf(o: Observations, reasons: seq<Reason>): Checks {
    Checks(
      authenticatedIdentityMatch :=
        o.callerIdentity.Some? && !HasReasonPrefix(reasons, IDENTITY_PREFIXES),
      budgetNotificationOwnerReady :=
        && o.budget.Some?
        && o.budget.value.configurationValid.Some?
        && o.budget.value.thresholdsExact.Some?
        && o.budget.value.ownersPresent.Some?
        && |o.budget.value.ownersPresent.value| == THRESHOLD_COUNT
        && !HasReasonPrefix(reasons, BUDGET_PREFIXES),
      cloudwatchEvidenceReady :=
        o.cloudwatch.Some? && !HasReasonPrefix(reasons, CLOUDWATCH_PREFIXES),
      judgeSecretReady :=
        && o.secretCapability.Some?
        && o.secretCapability.value.allowedForExactResource
        && !HasReasonPrefix(reasons, SECRET_PREFIXES),
      nova2ProfileAccess :=
        && o.novaProfile.Some?
        && o.novaProbe.Some?
        && o.novaProbe.value.Probe?
        && o.novaProbe.value.responseReceived
        && !o.novaProbe.value.responsePersisted
        && !HasReasonPrefix(reasons, NOVA_PREFIXES),
      packagingBucketReady :=
        && o.artifactBucket.Some?
        && o.artifactBucket.value.Keys == ALL_BUCKET_PARTS
        && o.artifactPathCapability.Some?
        && o.artifactPathCapability.value.allowedForExactResource
        && !HasReasonPrefix(reasons, PACKAGING_PREFIXES),
      sandboxReadOnlyVerified :=
        o.sandbox.Some? && !HasReasonPrefix(reasons, SANDBOX_PREFIXES))
  }

  datatype Evidence = Evidence(ledger: seq<LedgerEntry>, reasons: seq<Reason>, observations: Observations)

  function FinishReceipt(
    e: Evidence, contract: Contract, candidate: Candidate, digest: string, observedAt: int, nonce: string)
    : PrivateReceipt
  {
    var checks := ChecksOf(e.observations, e.reasons);
    var passed := e.reasons == [] && AllTrue(checks);
    PrivateReceipt(
      1, REGION, candidate, digest, observedAt, nonce, contract.raw, IdentifiersOf(contract),
      READ_OPERATION_ALLOWLIST, e.ledger, [], e.observations, checks, e.reasons, passed,
      if passed then Pass else Blocked)
  }

  // ---------- Why a reason makes a check false ----------

  function PartOf(op: Operation): BucketPart {
    match op
    case GetBucketEncryption => Encryption
    case GetBucketPublicAccessBlock => PublicAccessBlock
    case GetBucketOwnershipControls => Ownership
    case GetBucketVersioning => Versioning
    case GetBucketLifecycleConfiguration => Lifecycle
    case GetBucketPolicy => BucketPolicy
    case _ => Location
  }

  // No usable answer to the operation is among the observations.
  predicate Missing(op: Operation, o: Observations) {
    match op
    case GetCallerIdentity => o.callerIdentity.None?
    case SimulatePrincipalPolicy => o.secretCapability.None? || o.artifactPathCapability.None?
    case DescribeInstances => o.sandbox.None?
    case GetMetricStatistics => o.cloudwatch.None?
    case GetInferenceProfile => o.novaProfile.None?
    case Converse => o.novaProbe.None? || o.novaProbe.value.ProbeNotRun? || !o.novaProbe.value.responseReceived
    case DescribeBudget => o.budget.None? || o.budget.value.configurationValid.None?
    case DescribeNotificationsForBudget => o.budget.None? || o.budget.value.thresholdsExact.None?
    case DescribeSubscribersForNotification =>
      o.budget.None? || o.budget.value.ownersPresent.None?
      || |o.budget.value.ownersPresent.value| != THRESHOLD_COUNT
    case Unlisted(_) => false
    case _ => o.artifactBucket.None? || PartOf(op) !in o.artifactBucket.value
  }

  // A failed call leaves a gap in the observations; every other reason is seen by its prefix.
  predicate Explained(reason: Reason, o: Observations) {
    match reason
    case AwsCallFailed(op) => Missing(op, o)
    case AwsResponseInvalid(op) => Missing(op, o)
    case OtherReason(_) => false
    case _ => true
  }

  function WatchingPrefixes(reason: Reason): seq<string> {
    match reason
    case ClientCreationFailed(service) =>
      (match service
       case STS => IDENTITY_PREFIXES
       case S3 => PACKAGING_PREFIXES
       case IAM => SECRET_PREFIXES
       case EC2 => SANDBOX_PREFIXES
       case CLOUDWATCH => CLOUDWATCH_PREFIXES
       case BEDROCK => NOVA_PREFIXES
       case BEDROCK_RUNTIME => NOVA_PREFIXES
       case BUDGETS => BUDGET_PREFIXES)
    case CallerAccountMismatch => IDENTITY_PREFIXES
    case CallerRoleMismatch => IDENTITY_PREFIXES
    case BucketPartInvalid(_) => PACKAGING_PREFIXES
    case ArtifactPathCapabilityNotAllowed => PACKAGING_PREFIXES
    case JudgeSecretCapabilityNotAllowed => SECRET_PREFIXES
    case SandboxExplicitTargetMismatch => SANDBOX_PREFIXES
    case SandboxNotRunning => SANDBOX_PREFIXES
    case SandboxRegionMismatch => SANDBOX_PREFIXES
    case SandboxEbsRequired => SANDBOX_PREFIXES
    case SandboxTagMismatch => SANDBOX_PREFIXES
    case CloudwatchNumericDatapointsInsufficient => CLOUDWATCH_PREFIXES
    case BudgetConfigurationInvalid => BUDGET_PREFIXES
    case BudgetThresholdsInvalid => BUDGET_PREFIXES
    case BudgetNotificationOwnerMissing => BUDGET_PREFIXES
    case _ => NOVA_PREFIXES
  }

  function WatchingIndex(reason: Reason): nat {
    if reason.ClientCreationFailed? then 2
    else if reason.ArtifactPathCapabilityNotAllowed? then 3
    else 0
  }

  predicate SeenByPrefix(reason: Reason) {
    !reason.AwsCallFailed? && !reason.AwsResponseInvalid? && !reason.OtherReason?
  }

  lemma WatchedPrefixMatches(reason: Reason)
    requires SeenByPrefix(reason)
    ensures WatchingPrefixes(reason)[WatchingIndex(reason)] <= ReasonText(reason)
  {
  }

  lemma PrefixIsSeen(reasons: seq<Reason>, reason: Reason, prefixes: seq<string>, j: nat)
    requires reason in reasons && j < |prefixes| && prefixes[j] <= ReasonText(reason)
    ensures HasReasonPrefix(reasons, prefixes)
  {
    var i :| 0 <= i < |reasons| && reasons[i] == reason;
  }

  lemma GapFailsCheck(op: Operation, o: Observations, reasons: seq<Reason>)
    requires Missing(op, o)
    ensures !AllTrue(ChecksOf(o, reasons))
  {
    if ServiceOf(op) == S3 && o.artifactBucket.Some? {
      assert PartOf(op) in ALL_BUCKET_PARTS;
    }
  }

  // Every explained reason turns at least one of the seven checks false.
  lemma ExplainedReasonFailsCheck(reason: Reason, o: Observations, reasons: seq<Reason>)
    requires reason in reasons && Explained(reason, o)
    ensures !AllTrue(ChecksOf(o, reasons))
  {
    if SeenByPrefix(reason) {
      WatchedPrefixMatches(reason);
      PrefixIsSeen(reasons, reason, WatchingPrefixes(reason), WatchingIndex(reason));
    } else {
      GapFailsCheck(reason.op, o, reasons);
    }
  }

  // ---------- The plan ----------

  const CALLS := 19          // |PASS_OPERATION_SEQUENCE|
  const CONVERSE_PLACE := 13

  // PASS_OPERATION_SEQUENCE, place by place.
  function Planned(k: nat): Operation {
    match k
    case 0 => GetCallerIdentity
    case 1 => GetBucketLocation
    case 2 => GetBucketEncryption
    case 3 => GetBucketPublicAccessBlock
    case 4 => GetBucketOwnershipControls
    case 5 => GetBucketVersioning
    case 6 => GetBucketLifecycleConfiguration
    case 7 => GetBucketPolicy
    case 8 => SimulatePrincipalPolicy
    case 9 => SimulatePrincipalPolicy
    case 10 => DescribeInstances
    case 11 => GetMetricStatistics
    case 12 => GetInferenceProfile
    case 13 => Converse
    case 14 => DescribeBudget
    case 15 => DescribeNotificationsForBudget
    case _ => DescribeSubscribersForNotification
  }

  lemma PlanIsPassSequence()
    ensures |PASS_OPERATION_SEQUENCE| == CALLS
    ensures forall k | 0 <= k < CALLS :: PASS_OPERATION_SEQUENCE[k] == Planned(k)
  {
  }

  // The first k calls on the ledger are the first k planned ones.
  predicate Follows(ledger: seq<LedgerEntry>, k: nat) {
    k <= |ledger| && forall i {:trigger ledger[i]} | 0 <= i < k :: ledger[i].operation == Planned(i)
  }

  // The calls on the ledger are some of the first k planned ones, in order.
  ghost predicate Placed(ledger: seq<LedgerEntry>, k: nat, places: seq<nat>) {
    && |places| == |ledger|
    && (forall i | 0 <= i < |ledger| :: places[i] < k && Planned(places[i]) == ledger[i].operation)
    && (forall i, j | 0 <= i < j < |places| :: places[i] < places[j])
  }

  ghost predicate OnPlan(ledger: seq<LedgerEntry>, k: nat) {
    exists places: seq<nat> :: Placed(ledger, k, places)
  }

  lemma PlannedLedger(ledger: seq<LedgerEntry>)
    requires OnPlan(ledger, CALLS)
    ensures IsSubsequence(Operations(ledger), PASS_OPERATION_SEQUENCE)
  {
    PlanIsPassSequence();
    var places :| Placed(ledger, CALLS, places);
    assert Embeds(Operations(ledger), PASS_OPERATION_SEQUENCE, 0, places);
  }

  lemma WholeLedger(ledger: seq<LedgerEntry>)
    requires Follows(ledger, CALLS) && |ledger| == CALLS
    ensures Operations(ledger) == PASS_OPERATION_SEQUENCE
  {
    PlanIsPassSequence();
  }

  // ---------- The invariant of a run ----------

  function Record(ledger: seq<LedgerEntry>, op: Operation): seq<LedgerEntry> {
    ledger + [LedgerEntry(op, |ledger| + 1, false)]
  }

  function Note(reasons: seq<Reason>, reason: Reason): seq<Reason> {
    if reason in reasons then reasons else reasons + [reason]
  }

  // The ledger after the first k planned calls were made or skipped.
  ghost predicate LedgerProgress(ledger: seq<LedgerEntry>, reasons: seq<Reason>, k: nat) {
    && k <= CALLS
    && WellNumbered(ledger)
    && OnPlan(ledger, k)
    && (reasons == [] ==> |ledger| == k && Follows(ledger, k))
    && NoDuplicates(reasons)
    && ConverseOnlyAfterCleanRun(ledger)
  }

  // Converse, once called, is the fourteenth call and all thirteen planned before it came first.
  predicate ConverseOnlyAfterCleanRun(ledger: seq<LedgerEntry>) {
    forall i | 0 <= i < |ledger| && ledger[i].operation == Converse :: i == CONVERSE_PLACE && Follows(ledger, i)
  }

  lemma PlannedCallIsRead(k: nat)
    requires k < CALLS
    ensures Allowlisted(Planned(k))
  {
  }

  lemma ConverseStaysClean(ledger: seq<LedgerEntry>, reasons: seq<Reason>, k: nat)
    requires LedgerProgress(ledger, reasons, k) && k < CALLS
    requires Planned(k) == Converse ==> reasons == []
    ensures ConverseOnlyAfterCleanRun(Record(ledger, Planned(k)))
  {
    var ledger' := Record(ledger, Planned(k));
    forall i | 0 <= i < |ledger'| && ledger'[i].operation == Converse
      ensures i == CONVERSE_PLACE && Follows(ledger', i)
    {
      if i < |ledger| {
        assert ledger[i].operation == Converse;
      }
    }
  }

  lemma RecordedCallIsNumbered(ledger: seq<LedgerEntry>, k: nat)
    requires WellNumbered(ledger) && k < CALLS
    ensures WellNumbered(Record(ledger, Planned(k)))
  {
    PlannedCallIsRead(k);
  }

  lemma RecordFollows(ledger: seq<LedgerEntry>, k: nat)
    requires Follows(ledger, k) && |ledger| == k
    ensures Follows(Record(ledger, Planned(k)), k + 1)
  {
  }

  lemma PlanExtends(ledger: seq<LedgerEntry>, k: nat)
    requires OnPlan(ledger, k)
    ensures OnPlan(ledger, k + 1) && OnPlan(Record(ledger, Planned(k)), k + 1)
  {
    var places :| Placed(ledger, k, places);
    assert Placed(ledger, k + 1, places);
    assert Placed(Record(ledger, Planned(k)), k + 1, places + [k]);
  }

  // The next planned call is recorded; the reasons may only have grown.
  lemma ProgressByCall(ledger: seq<LedgerEntry>, reasons: seq<Reason>, k: nat, reasons': seq<Reason>)
    requires LedgerProgress(ledger, reasons, k) && k < CALLS
    requires NoDuplicates(reasons') && (reasons' == [] ==> reasons == [])
    requires Planned(k) == Converse ==> reasons == []
    ensures LedgerProgress(Record(ledger, Planned(k)), reasons', k + 1)
  {
    RecordedCallIsNumbered(ledger, k);
    PlanExtends(ledger, k);
    ConverseStaysClean(ledger, reasons, k);
    if reasons' == [] {
      RecordFollows(ledger, k);
    }
  }

  // The next planned call is skipped, which only happens with a reason on record.
  lemma ProgressBySkip(ledger: seq<LedgerEntry>, reasons: seq<Reason>, k: nat, reasons': seq<Reason>)
    requires LedgerProgress(ledger, reasons, k) && k < CALLS
    requires NoDuplicates(reasons') && reasons' != []
    ensures LedgerProgress(ledger, reasons', k + 1)
  {
    PlanExtends(ledger, k);
  }

  lemma {:induction false} ProgressBySkips(ledger: seq<LedgerEntry>, reasons: seq<Reason>, k: nat, k': nat)
    requires LedgerProgress(ledger, reasons, k) && k <= k' <= CALLS && reasons != []
    ensures LedgerProgress(ledger, reasons, k')
    decreases k' - k
  {
    if k < k' {
      ProgressBySkip(ledger, reasons, k, reasons);
      ProgressBySkips(ledger, reasons, k + 1, k');
    }
  }

  // Every recorded reason is explained by the observations.
  ghost predicate Settled(reasons: seq<Reason>, o: Observations) {
    forall r | r in reasons :: Explained(r, o)
  }

  // What holds whenever a run ends with a receipt.
  ghost predicate RunEnded(e: Evidence, contract: Contract) {
    && LedgerProgress(e.ledger, e.reasons, CALLS)
    && Settled(e.reasons, e.observations)
    && (e.reasons == [] ==> StagesAreValid(e.observations, contract))
  }

  lemma ValidStagesPassChecks(o: Observations, contract: Contract)
    requires StagesAreValid(o, contract)
    ensures AllTrue(ChecksOf(o, []))
  {
  }

  // The reason list is empty exactly when all seven checks hold, and then no call is missing.
  lemma NoReasonIffAllChecks(e: Evidence, contract: Contract)
    requires RunEnded(e, contract)
    ensures e.reasons == [] <==> AllTrue(ChecksOf(e.observations, e.reasons))
    ensures AllTrue(ChecksOf(e.observations, e.reasons)) ==> Operations(e.ledger) == PASS_OPERATION_SEQUENCE
  {
    if e.reasons == [] {
      ValidStagesPassChecks(e.observations, contract);
      WholeLedger(e.ledger);
    } else {
      ExplainedReasonFailsCheck(e.reasons[0], e.observations, e.reasons);
    }
  }

  // ---------- The observation time ----------

  // A second-precision copy of every fresh observation time is fresh too, exactly when the
  // operator's selection time is a whole second.
  lemma TruncationKeepsFreshness(selectionTime: int)
    ensures selectionTime % MICROS == 0 <==>
            forall now :: Fresh(now, selectionTime) ==> Fresh(TruncateToSecond(now), selectionTime)
  {
    if selectionTime % MICROS != 0 {
      var now := selectionTime - MAX_FUTURE_SKEW;
      assert Fresh(now, selectionTime);
      assert TruncateToSecond(now) < now;
      assert !Fresh(TruncateToSecond(now), selectionTime);
    }
  }

  // ---------- Producer and validator agree ----------

  // A contract read again at another fresh time differs only in where its window lies.
  lemma ContractAtAnotherTime(raw: RawContract, digest: string, now: int, later: int, o: Observations)
    requires ValidateContract(raw, digest, now).Success?
    ensures ValidateContract(raw, digest, later).Success? <==> Fresh(later, raw.selectionTime)
    ensures Fresh(later, raw.selectionTime) ==>
      var contract, contract' := ValidateContract(raw, digest, now).value, ValidateContract(raw, digest, later).value;
      && IdentifiersOf(contract') == IdentifiersOf(contract)
      && (StagesAreValid(o, contract') <==> StagesAreValid(o, contract))
  {
    if Fresh(later, raw.selectionTime) {
      var contract, contract' := ValidateContract(raw, digest, now).value, ValidateContract(raw, digest, later).value;
      assert forall part, fields :: PartIsValid(part, fields, contract') == PartIsValid(part, fields, contract);
      assert (contract'.cwEnd - contract'.cwStart) == (contract.cwEnd - contract.cwStart);
    }
  }

  lemma RunReceiptSchema(
    e: Evidence, contract: Contract, contract': Contract, candidate: Candidate, digest: string, observedAt: int,
    nonce: string)
    requires RunEnded(e, contract) && NonceWellFormed(nonce)
    requires IdentifiersOf(contract') == IdentifiersOf(contract)
    ensures ReceiptSchemaIsValid(FinishReceipt(e, contract, candidate, digest, observedAt, nonce), contract')
  {
    NoReasonIffAllChecks(e, contract);
    PlannedLedger(e.ledger);
    GreedyScanIsSubsequence(Operations(e.ledger), PASS_OPERATION_SEQUENCE);
    forall r | r in e.reasons
      ensures ReasonWellFormed(r)
    {
      assert Explained(r, e.observations);
    }
  }

  lemma RunReceiptStatus(
    e: Evidence, contract: Contract, contract': Contract, candidate: Candidate, digest: string, observedAt: int,
    nonce: string)
    requires RunEnded(e, contract)
    requires StagesAreValid(e.observations, contract') <==> StagesAreValid(e.observations, contract)
    ensures
      var receipt := FinishReceipt(e, contract, candidate, digest, observedAt, nonce);
      && (CoherentBlock(receipt) <==> e.reasons != [])
      && (CoherentPass(receipt, contract') <==>
          e.reasons == [] && IdentityIsExact(e.observations))
  {
    NoReasonIffAllChecks(e, contract);
  }

  lemma ReceiptMatchesContract(
    e: Evidence, contract: Contract, contract': Contract, candidate: Candidate, digest: string, observedAt: int,
    nonce: string)
    requires RunEnded(e, contract) && NonceWellFormed(nonce)
    requires IdentifiersOf(contract') == IdentifiersOf(contract)
    requires StagesAreValid(e.observations, contract') <==> StagesAreValid(e.observations, contract)
    ensures
      var receipt := FinishReceipt(e, contract, candidate, digest, observedAt, nonce);
      ValidateAgainstContract(receipt, contract').None? <==> (e.reasons == [] ==> IdentityIsExact(e.observations))
  {
    RunReceiptStatus(e, contract, contract', candidate, digest, observedAt, nonce);
    RunReceiptSchema(e, contract, contract', candidate, digest, observedAt, nonce);
  }

  lemma ValidatorReadsContract(receipt: PrivateReceipt, candidate: Candidate)
    requires ValidateCandidate(candidate, candidate.candidateDigest).None?
    requires receipt.schemaVersion == 1
    requires receipt.candidate == candidate && receipt.candidateSha256 == candidate.candidateDigest
    requires receipt.observedAt == TruncateToSecond(receipt.observedAt)
    ensures
      var contract := ValidateContract(receipt.privateContract, candidate.candidateDigest, receipt.observedAt);
      ValidatePrivateReceipt(receipt, candidate, None).None? <==>
        contract.Success? && ValidateAgainstContract(receipt, contract.value).None?
  {
  }

  // The receipt of a finished run is accepted by its validator, except when its time no longer
  // counts as fresh after truncation, or it passed on an identity answer with other keys.
  lemma ReceiptIsAccepted(
    e: Evidence, raw: RawContract, candidate: Candidate, digest: string, now: int, nonce: string,
    receipt: PrivateReceipt)
    requires ValidateCandidate(candidate, digest).None?
    requires ValidateContract(raw, digest, now).Success?
    requires RunEnded(e, ContractFrom(raw, now))
    requires NonceWellFormed(nonce)
    requires receipt == FinishReceipt(e, ContractFrom(raw, now), candidate, digest, TruncateToSecond(now), nonce)
    ensures receipt.status == Pass <==> e.reasons == []
    ensures ValidatePrivateReceipt(receipt, candidate, None).None? <==>
            && Fresh(TruncateToSecond(now), raw.selectionTime)
            && (receipt.status == Pass ==> IdentityIsExact(e.observations))
  {
    var contract := ContractFrom(raw, now);
    var later := TruncateToSecond(now);
    NoReasonIffAllChecks(e, contract);
    ContractAtAnotherTime(raw, digest, now, later, e.observations);
    ValidatorReadsContract(receipt, candidate);
    if Fresh(later, raw.selectionTime) {
      ReceiptMatchesContract(e, contract, ContractFrom(raw, later), candidate, digest, later, nonce);
    }
  }

  // The same answers, but for one more key in the answer to the identity call.
  function WithIdentityKey(e: Evidence, key: string, value: Value): Evidence
    requires e.observations.callerIdentity.Some?
  {
    e.(observations := e.observations.(
      callerIdentity := Some(e.observations.callerIdentity.value[key := value])))
  }

  // Any passing run whose identity answer had one more key passes just the same, and its receipt is
  // then refused by the validator.
  lemma ExtraIdentityKeyIsRejected(
    e: Evidence, raw: RawContract, candidate: Candidate, digest: string, now: int, nonce: string,
    key: string, value: Value)
    requires ValidateCandidate(candidate, digest).None?
    requires ValidateContract(raw, digest, now).Success?
    requires RunEnded(e, ContractFrom(raw, now)) && e.reasons == []
    requires NonceWellFormed(nonce) && key !in {"Account", "Arn", "UserId"}
    ensures
      var e' := WithIdentityKey(e, key, value);
      var receipt := FinishReceipt(e', ContractFrom(raw, now), candidate, digest, TruncateToSecond(now), nonce);
      && RunEnded(e', ContractFrom(raw, now))
      && receipt.status == Pass
      && ValidatePrivateReceipt(receipt, candidate, None).Some?
  {
    var e' := WithIdentityKey(e, key, value);
    var receipt := FinishReceipt(e', ContractFrom(raw, now), candidate, digest, TruncateToSecond(now), nonce);
    var before, after := e.observations.callerIdentity.value, e'.observations.callerIdentity.value;
    assert Get(after, "Account") == Get(before, "Account") && Get(after, "Arn") == Get(before, "Arn");
    assert key in after.Keys && !IdentityIsExact(e'.observations);
    ReceiptIsAccepted(e', raw, candidate, digest, now, nonce, receipt);
  }
}
