/**
 The G10 closure: the public receipt that is derived from a private one, the validator that
 binds the two, and the command that runs observer, writes and validation in sequence.

 A SHA-256 digest of canonical JSON is an injective tag of the value that was encoded.
 */
module Closure {
  import opened Wrappers
  import opened SdkValues
  import opened PreflightReceipt
  import opened Observer
  import opened ObserverRun

  datatype Digest = OfReceipt(receipt: PrivateReceipt) | OfContract(contract: RawContract) | OtherDigest(text: string)

  datatype SelectionSource =
    | FromPrivateContract
    | FromExplicitProfile
    | FromUniqueProjectProfile
    | NoSelection
    | OtherSource(text: string)

  // The eleven prerequisites in the order they are reported.
  datatype Prerequisite =
    | AuthorizedProfileAndRole
    | CorrectAccount
    | DeploymentRegion
    | PackagingBucketAndPath
    | JudgeTokenSecret
    | PreexistingSandbox
    | ExactSandboxTag
    | SandboxRegion
    | CloudwatchData
    | Nova2ProfileAccess
    | BudgetNotificationOwnership

  const PREREQUISITES := [
    AuthorizedProfileAndRole, CorrectAccount, DeploymentRegion, PackagingBucketAndPath, JudgeTokenSecret,
    PreexistingSandbox, ExactSandboxTag, SandboxRegion, CloudwatchData, Nova2ProfileAccess,
    BudgetNotificationOwnership]

  datatype PublicReceipt = PublicReceipt(
    schemaVersion: int,
    sanitized: bool,
    region: string,
    candidate: Candidate,
    selectionSource: SelectionSource,
    multipleAmbiguousProfiles: bool,
    checks: Checks,
    apiOperations: seq<Operation>,
    writeOperations: seq<string>,
    awsCallsPerformed: bool,
    awsStateChanged: bool,
    changeSetCreated: bool,
    correctAccountBinding: bool,
    deploymentAuthorized: bool,
    deploymentContractSelected: bool,
    externalPrerequisitesPass: bool,
    missingPrerequisites: seq<Prerequisite>,
    observedAt: Option<int>,
    privateContractSha256: Option<Digest>,
    privateReceiptCreated: bool,
    privateReceiptSha256: Option<Digest>,
    readyForChangeSet: bool,
    readyForDeployment: bool,
    regionReady: bool,
    reasons: seq<Reason>,
    sandboxExplicitIdPresent: bool,
    status: Status)

  predicate Fulfilled(p: Prerequisite, payload: PublicReceipt) {
    match p
    case AuthorizedProfileAndRole => payload.checks.authenticatedIdentityMatch
    case CorrectAccount => payload.correctAccountBinding
    case DeploymentRegion => payload.regionReady
    case PackagingBucketAndPath => payload.checks.packagingBucketReady
    case JudgeTokenSecret => payload.checks.judgeSecretReady
    case PreexistingSandbox => payload.sandboxExplicitIdPresent
    case ExactSandboxTag => payload.checks.sandboxReadOnlyVerified
    case SandboxRegion => payload.checks.sandboxReadOnlyVerified
    case CloudwatchData => payload.checks.cloudwatchEvidenceReady
    case Nova2ProfileAccess => payload.checks.nova2ProfileAccess
    case BudgetNotificationOwnership => payload.checks.budgetNotificationOwnerReady
  }

  function Unfulfilled(prerequisites: seq<Prerequisite>, payload: PublicReceipt): seq<Prerequisite> {
    if prerequisites == [] then []
    else (if Fulfilled(prerequisites[0], payload) then [] else [prerequisites[0]])
         + Unfulfilled(prerequisites[1..], payload)
  }

  function MissingPrerequisites(payload: PublicReceipt): seq<Prerequisite> {
    Unfulfilled(PREREQUISITES, payload)
  }

  const NO_CHECKS := Checks(false, false, false, false, false, false, false)

  function BasePayload(candidate: Candidate, source: SelectionSource, ambiguous: bool): PublicReceipt {
    PublicReceipt(
      1, true, REGION, candidate, source, ambiguous, NO_CHECKS, [], [], false, false, false, false, false, false,
      false, [], None, None, false, None, false, false, false, [], false, Blocked)
  }

  // ---------- The validator ----------

  datatype PublicRejection =
    | SanitizedReceiptSchemaInvalid
    | SanitizedReceiptCandidateMismatch
    | SanitizedReceiptSelectionInvalid
    | SanitizedReceiptObservationTimeInvalid
    | SanitizedReceiptOperationBoundaryInvalid
    | SanitizedReceiptSensitiveValueForbidden
    | SanitizedReceiptPrerequisitesInvalid
    | SanitizedReceiptReasonsInvalid
    | SanitizedReceiptPrivateBindingInvalid
    | SanitizedReceiptCheckBindingInvalid
    | SanitizedReceiptStatusInvalid
    | PrivateReceiptRejected(rejection: Rejection)

  predicate CandidateIsValid(candidate: Candidate) {
    ValidateCandidate(candidate, candidate.candidateDigest).None?
  }

  predicate PublicReasonsAreValid(reasons: seq<Reason>) {
    forall r | r in reasons :: 0 < |ReasonText(r)| <= 160
  }

  // The texts of a public receipt that are not from a fixed vocabulary are its reasons.
  predicate ContainsSensitiveValue(reasons: seq<Reason>, sensitive: string -> bool) {
    exists r | r in reasons :: sensitive(ReasonText(r))
  }

  // The part of the validation that does not look at a private receipt.
  function ValidatePublicPart(
    receipt: PublicReceipt, expected: Candidate, sensitive: string -> bool): Option<PublicRejection>
  {
    if receipt.schemaVersion != 1 || !receipt.sanitized then Some(SanitizedReceiptSchemaInvalid)
    else if !CandidateIsValid(expected) || receipt.candidate != expected then Some(SanitizedReceiptCandidateMismatch)
    else if receipt.region != REGION then Some(SanitizedReceiptSchemaInvalid)
    else if receipt.selectionSource.OtherSource? then Some(SanitizedReceiptSelectionInvalid)
    else if receipt.observedAt.Some? && receipt.observedAt.value != TruncateToSecond(receipt.observedAt.value) then
      Some(SanitizedReceiptObservationTimeInvalid)
    else if (exists op | op in receipt.apiOperations :: !Allowlisted(op)) || receipt.writeOperations != []
            || receipt.awsStateChanged || receipt.changeSetCreated || receipt.deploymentAuthorized
            || receipt.readyForDeployment then Some(SanitizedReceiptOperationBoundaryInvalid)
    else if ContainsSensitiveValue(receipt.reasons, sensitive) then Some(SanitizedReceiptSensitiveValueForbidden)
    else if receipt.missingPrerequisites != MissingPrerequisites(receipt) then
      Some(SanitizedReceiptPrerequisitesInvalid)
    else if !PublicReasonsAreValid(receipt.reasons) then Some(SanitizedReceiptReasonsInvalid)
    else None
  }

  function ValidateUnbound(receipt: PublicReceipt): Option<PublicRejection> {
    if receipt.privateReceiptCreated || receipt.privateReceiptSha256.Some? || receipt.privateContractSha256.Some?
       || receipt.status != Blocked || receipt.externalPrerequisitesPass || receipt.readyForChangeSet
       || receipt.apiOperations != [] then Some(SanitizedReceiptPrivateBindingInvalid)
    else None
  }

  predicate BothPassed(receipt: PublicReceipt, private: PrivateReceipt) {
    && private.status == Pass
    && private.externalPrerequisitesPass
    && AllTrue(private.checks)
    && receipt.reasons == []
    && MissingPrerequisites(receipt) == []
  }

  function ValidateBound(
    receipt: PublicReceipt, expected: Candidate, private: PrivateReceipt, validationTime: Option<int>)
    : Option<PublicRejection>
  {
    var rejection := ValidatePrivateReceipt(private, expected, validationTime);
    if rejection.Some? then Some(PrivateReceiptRejected(rejection.value))
    else if !receipt.privateReceiptCreated || receipt.privateReceiptSha256 != Some(OfReceipt(private))
            || receipt.privateContractSha256 != Some(OfContract(private.privateContract)) then
      Some(SanitizedReceiptPrivateBindingInvalid)
    else if private.candidate != expected then Some(SanitizedReceiptCandidateMismatch)
    else if receipt.checks != private.checks then Some(SanitizedReceiptCheckBindingInvalid)
    else if receipt.apiOperations != Operations(private.callLedger) || private.writeOperations != [] then
      Some(SanitizedReceiptOperationBoundaryInvalid)
    else
      var passed := BothPassed(receipt, private);
      if receipt.status != (if passed then Pass else Blocked) || receipt.externalPrerequisitesPass != passed
         || receipt.readyForChangeSet != passed then Some(SanitizedReceiptStatusInvalid)
      else None
  }

  function ValidateSanitizedReceipt(
    receipt: PublicReceipt, expected: Candidate, private: Option<PrivateReceipt>, validationTime: Option<int>,
    sensitive: string -> bool): Option<PublicRejection>
  {
    var rejection := ValidatePublicPart(receipt, expected, sensitive);
    if rejection.Some? then rejection
    else if private.None? then ValidateUnbound(receipt)
    else ValidateBound(receipt, expected, private.value, validationTime)
  }

  // ---------- The producers ----------

  function BlockedReceipt(candidate: Candidate, reason: Reason, source: SelectionSource, ambiguous: bool)
    : PublicReceipt
  {
    var payload := BasePayload(candidate, source, ambiguous).(reasons := [reason]);
    payload.(missingPrerequisites := MissingPrerequisites(payload))
  }

  // Everything but the decision.
  function UndecidedReceipt(
    candidate: Candidate, contract: RawContract, private: PrivateReceipt, source: SelectionSource): PublicReceipt
  {
    var payload := BasePayload(candidate, source, false).(
      checks := private.checks,
      apiOperations := Operations(private.callLedger),
      awsCallsPerformed := private.callLedger != [],
      correctAccountBinding := private.checks.authenticatedIdentityMatch,
      deploymentContractSelected := true,
      externalPrerequisitesPass := private.externalPrerequisitesPass,
      observedAt := Some(private.observedAt),
      privateContractSha256 := Some(OfContract(contract)),
      privateReceiptCreated := true,
      privateReceiptSha256 := Some(OfReceipt(private)),
      reasons := private.reasons,
      regionReady := true,
      sandboxExplicitIdPresent := true,
      status := private.status);
    payload.(missingPrerequisites := MissingPrerequisites(payload))
  }

  function Decide(payload: PublicReceipt): PublicReceipt {
    if payload.externalPrerequisitesPass && payload.missingPrerequisites == [] && payload.reasons == []
       && payload.status == Pass
    then payload.(readyForChangeSet := true)
    else payload.(readyForChangeSet := false, externalPrerequisitesPass := false, status := Blocked)
  }

  function SanitizedReceipt(
    candidate: Candidate, contract: RawContract, private: PrivateReceipt, source: SelectionSource): PublicReceipt
  {
    Decide(UndecidedReceipt(candidate, contract, private, source))
  }

  // ---------- What acceptance means ----------

  lemma {:induction false} NothingUnfulfilled(prerequisites: seq<Prerequisite>, payload: PublicReceipt)
    ensures Unfulfilled(prerequisites, payload) == [] <==> forall p | p in prerequisites :: Fulfilled(p, payload)
  {
    if prerequisites != [] {
      NothingUnfulfilled(prerequisites[1..], payload);
      assert prerequisites == [prerequisites[0]] + prerequisites[1..];
    }
  }

  lemma EveryPrerequisiteListed(p: Prerequisite)
    ensures p in PREREQUISITES
  {
    match p
    case AuthorizedProfileAndRole => assert PREREQUISITES[0] == p;
    case CorrectAccount => assert PREREQUISITES[1] == p;
    case DeploymentRegion => assert PREREQUISITES[2] == p;
    case PackagingBucketAndPath => assert PREREQUISITES[3] == p;
    case JudgeTokenSecret => assert PREREQUISITES[4] == p;
    case PreexistingSandbox => assert PREREQUISITES[5] == p;
    case ExactSandboxTag => assert PREREQUISITES[6] == p;
    case SandboxRegion => assert PREREQUISITES[7] == p;
    case CloudwatchData => assert PREREQUISITES[8] == p;
    case Nova2ProfileAccess => assert PREREQUISITES[9] == p;
    case BudgetNotificationOwnership => assert PREREQUISITES[10] == p;
  }

  // Nothing is reported missing exactly when all checks and the three bindings hold.
  lemma NothingMissing(payload: PublicReceipt)
    ensures MissingPrerequisites(payload) == [] <==>
            && AllTrue(payload.checks)
            && payload.correctAccountBinding
            && payload.regionReady
            && payload.sandboxExplicitIdPresent
  {
    NothingUnfulfilled(PREREQUISITES, payload);
    forall p: Prerequisite
      ensures p in PREREQUISITES
    {
      EveryPrerequisiteListed(p);
    }
    if forall p | p in PREREQUISITES :: Fulfilled(p, payload) {
      assert Fulfilled(AuthorizedProfileAndRole, payload) && Fulfilled(CorrectAccount, payload);
      assert Fulfilled(DeploymentRegion, payload) && Fulfilled(PackagingBucketAndPath, payload);
      assert Fulfilled(JudgeTokenSecret, payload) && Fulfilled(PreexistingSandbox, payload);
      assert Fulfilled(ExactSandboxTag, payload) && Fulfilled(CloudwatchData, payload);
      assert Fulfilled(Nova2ProfileAccess, payload) && Fulfilled(BudgetNotificationOwnership, payload);
    }
  }

  lemma OperationTextLength(op: Operation)
    requires !op.Unlisted?
    ensures 0 < |OperationText(op)| <= 50
  {
  }

  lemma ReasonTextLength(r: Reason)
    requires ReasonWellFormed(r)
    ensures 0 < |ReasonText(r)| <= 160
  {
    if r.AwsCallFailed? || r.AwsResponseInvalid? {
      OperationTextLength(r.op);
    }
  }

  lemma ValidLedgerIsAllowlisted(ledger: seq<LedgerEntry>, complete: bool)
    requires LedgerIsValid(ledger, complete)
    ensures forall op | op in Operations(ledger) :: Allowlisted(op)
  {
    forall op | op in Operations(ledger)
      ensures Allowlisted(op)
    {
      var i :| 0 <= i < |ledger| && Operations(ledger)[i] == op;
      assert EntryIsValid(ledger[i], i + 1);
    }
  }

  // A receipt that says a change set may be created is bound to a private receipt that passed in
  // full: every planned call, every check, no reason, no write.
  lemma ReadyMeansPassed(
    receipt: PublicReceipt, expected: Candidate, private: Option<PrivateReceipt>, validationTime: Option<int>,
    sensitive: string -> bool)
    requires ValidateSanitizedReceipt(receipt, expected, private, validationTime, sensitive).None?
    requires receipt.readyForChangeSet
    ensures private.Some?
    ensures ValidatePrivateReceipt(private.value, expected, validationTime).None?
    ensures receipt.privateReceiptSha256 == Some(OfReceipt(private.value))
    ensures private.value.status == Pass && private.value.reasons == [] && AllTrue(private.value.checks)
    ensures Operations(private.value.callLedger) == PASS_OPERATION_SEQUENCE == receipt.apiOperations
    ensures forall entry | entry in private.value.callLedger :: !entry.write
    ensures private.value.writeOperations == [] && receipt.writeOperations == []
    ensures private.value.privateContract.candidateDigest == expected.candidateDigest
    ensures receipt.status == Pass && receipt.reasons == [] && AllTrue(receipt.checks)
    ensures receipt.missingPrerequisites == []
  {
    var p := private.value;
    assert LedgerIsValid(p.callLedger, true);
    forall entry | entry in p.callLedger
      ensures !entry.write
    {
      var i :| 0 <= i < |p.callLedger| && p.callLedger[i] == entry;
      assert EntryIsValid(p.callLedger[i], i + 1);
    }
  }

  lemma SanitizedPrerequisites(
    candidate: Candidate, contract: RawContract, private: PrivateReceipt, source: SelectionSource)
    ensures
      var payload := SanitizedReceipt(candidate, contract, private, source);
      && payload.missingPrerequisites == MissingPrerequisites(payload)
      && (payload.missingPrerequisites == [] <==> AllTrue(private.checks))
  {
    var payload := SanitizedReceipt(candidate, contract, private, source);
    var undecided := UndecidedReceipt(candidate, contract, private, source);
    SameFulfilment(PREREQUISITES, payload, undecided);
    SameFulfilment(PREREQUISITES, undecided.(missingPrerequisites := []), undecided);
    NothingMissing(undecided);
  }

  // What the public part of the validation needs of a private receipt.
  predicate Publishable(private: PrivateReceipt, candidate: Candidate) {
    && CandidateIsValid(candidate)
    && private.observedAt == TruncateToSecond(private.observedAt)
    && (forall op | op in Operations(private.callLedger) :: Allowlisted(op))
    && PublicReasonsAreValid(private.reasons)
  }

  lemma ValidReceiptIsPublishable(private: PrivateReceipt, candidate: Candidate)
    requires ValidatePrivateReceipt(private, candidate, None).None?
    ensures Publishable(private, candidate)
  {
    ValidLedgerIsAllowlisted(private.callLedger, private.status == Pass);
    forall r | r in private.reasons
      ensures 0 < |ReasonText(r)| <= 160
    {
      ReasonTextLength(r);
    }
  }

  lemma PublishablePublicPart(
    candidate: Candidate, contract: RawContract, private: PrivateReceipt, source: SelectionSource,
    sensitive: string -> bool)
    requires Publishable(private, candidate) && !source.OtherSource?
    ensures
      ValidatePublicPart(SanitizedReceipt(candidate, contract, private, source), candidate, sensitive).None?
      <==> !ContainsSensitiveValue(private.reasons, sensitive)
  {
    SanitizedPrerequisites(candidate, contract, private, source);
  }

  lemma SanitizedPublicPart(
    candidate: Candidate, contract: RawContract, private: PrivateReceipt, source: SelectionSource,
    sensitive: string -> bool)
    requires ValidatePrivateReceipt(private, candidate, None).None?
    requires !source.OtherSource?
    ensures
      ValidatePublicPart(SanitizedReceipt(candidate, contract, private, source), candidate, sensitive).None?
      <==> !ContainsSensitiveValue(private.reasons, sensitive)
  {
    ValidReceiptIsPublishable(private, candidate);
    PublishablePublicPart(candidate, contract, private, source, sensitive);
  }

  lemma SanitizedBinding(
    candidate: Candidate, contract: RawContract, private: PrivateReceipt, source: SelectionSource)
    requires ValidatePrivateReceipt(private, candidate, None).None?
    ensures
      ValidateBound(SanitizedReceipt(candidate, contract, private, source), candidate, private, None).None?
      <==> contract == private.privateContract
  {
    SanitizedPrerequisites(candidate, contract, private, source);
  }

  // A receipt derived from a valid private one is accepted against it exactly when it was derived
  // for the contract inside and no reason looks sensitive.
  lemma SanitizedReceiptAccepted(
    candidate: Candidate, contract: RawContract, private: PrivateReceipt, source: SelectionSource,
    sensitive: string -> bool)
    requires ValidatePrivateReceipt(private, candidate, None).None?
    requires !source.OtherSource?
    ensures
      ValidateSanitizedReceipt(
        SanitizedReceipt(candidate, contract, private, source), candidate, Some(private), None, sensitive).None?
      <==> contract == private.privateContract && !ContainsSensitiveValue(private.reasons, sensitive)
  {
    SanitizedPublicPart(candidate, contract, private, source, sensitive);
    SanitizedBinding(candidate, contract, private, source);
  }

  lemma {:induction false} SameFulfilment(prerequisites: seq<Prerequisite>, a: PublicReceipt, b: PublicReceipt)
    requires forall p | p in prerequisites :: Fulfilled(p, a) == Fulfilled(p, b)
    ensures Unfulfilled(prerequisites, a) == Unfulfilled(prerequisites, b)
  {
    if prerequisites != [] {
      SameFulfilment(prerequisites[1..], a, b);
    }
  }

  // A blocked receipt is accepted without any private receipt, for every reason that may be shown.
  lemma BlockedReceiptAccepted(
    candidate: Candidate, reason: Reason, source: SelectionSource, ambiguous: bool, validationTime: Option<int>,
    sensitive: string -> bool)
    requires CandidateIsValid(candidate) && !source.OtherSource?
    ensures
      ValidateSanitizedReceipt(
        BlockedReceipt(candidate, reason, source, ambiguous), candidate, None, validationTime, sensitive).None?
      <==> 0 < |ReasonText(reason)| <= 160 && !sensitive(ReasonText(reason))
  {
    var payload := BlockedReceipt(candidate, reason, source, ambiguous);
    SameFulfilment(PREREQUISITES, payload.(missingPrerequisites := []), payload);
    assert payload.missingPrerequisites == MissingPrerequisites(payload);
    assert payload.reasons == [reason];
    assert PublicReasonsAreValid(payload.reasons) <==> 0 < |ReasonText(reason)| <= 160;
    assert ContainsSensitiveValue(payload.reasons, sensitive) <==> sensitive(ReasonText(reason));
  }
}
