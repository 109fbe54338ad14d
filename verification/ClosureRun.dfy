/**
 The closure command: select a contract, observe once, write the private receipt, derive and
 validate the public one, and only then write that.

 What loading the contract, opening a session, the clock, AWS and every file write come to is given
 as input.
 */
module ClosureRun {
  import opened Wrappers
  import opened SdkValues
  import opened PreflightReceipt
  import opened Observer
  import opened Answers
  import opened ObserverRun
  import opened Closure

  datatype FailureReason =
    | CandidateUnavailable
    | PrivateOutputForbidden
    | PublicOutputForbidden
    | PrivateContractInvalid
    | OperatorSelectionInvalid
    | ExplicitProfileSelectionMismatch
    | ProjectProfileSelectionAmbiguous
    | SelectedAwsProfileUnavailable
    | ObservationRejected(rejection: Rejection)
    | PrivateReceiptInvalid(rejection: Rejection)
    | PublicReceiptInvalid(publicRejection: PublicRejection)
    | PrivateReceiptModeInvalid
    | PrivateReceiptWriteBindingInvalid
    | ReceiptWriteFailed

  datatype ClosureFailure = ClosureFailure(reason: FailureReason, status: string, awsCallsPerformed: bool)

  datatype LoadedContract = Unavailable | Invalid | Loaded(contract: RawContract, source: SelectionSource)

  datatype WriteOutcome = Kept | ReplacedThenFailed | Replaced

  // What the command finds around it. No session opens for None, else one with the given profile.
  datatype Setting = Setting(
    privateAllowed: bool,
    publicAllowed: bool,
    loaded: LoadedContract,
    session: Option<string>,
    clock: Option<int>,
    nonce: string,
    world: World)

  // ---------- Profile selection ----------

  // Selection evidence when there is no contract: source and whether it is ambiguous.
  function SelectionWithoutContract(explicit: set<string>, configured: seq<string>): (SelectionSource, bool) {
    if |explicit| > 1 then (NoSelection, true)
    else if |explicit| == 1 then (FromExplicitProfile, false)
    else if DEPLOYMENT_PROFILE in configured then (FromUniqueProjectProfile, false)
    else (NoSelection, false)
  }

  function ValidateContractSelection(
    profile: string, source: SelectionSource, explicit: set<string>, configured: seq<string>)
    : Option<(FailureReason, string)>
  {
    match source
    case FromPrivateContract => None
    case FromExplicitProfile =>
      if explicit != {profile} then Some((ExplicitProfileSelectionMismatch, "BLOCKED")) else None
    case FromUniqueProjectProfile =>
      if explicit != {} || profile != DEPLOYMENT_PROFILE || multiset(configured)[profile] != 1
      then Some((ProjectProfileSelectionAmbiguous, "BLOCKED")) else None
    case _ => Some((OperatorSelectionInvalid, "FAIL"))
  }

  const MULTIPLE_PROFILES := "MULTIPLE_AMBIGUOUS_PROFILES"
  const CONTRACT_REQUIRED := "PRIVATE_DEPLOYMENT_CONTRACT_REQUIRED"

  // ---------- The payload, updated step by step ----------

  method BuildBlockedReceipt(candidate: Candidate, reason: Reason, source: SelectionSource, ambiguous: bool)
      returns (payload: PublicReceipt)
    ensures payload == BlockedReceipt(candidate, reason, source, ambiguous)
  {
    payload := BasePayload(candidate, source, ambiguous);
    payload := payload.(reasons := [reason]);
    payload := payload.(missingPrerequisites := MissingPrerequisites(payload));
  }

  method BuildSanitizedReceipt(
      candidate: Candidate, contract: RawContract, private: PrivateReceipt, source: SelectionSource)
      returns (r: Result<PublicReceipt, FailureReason>)
    ensures r.Success? <==> ValidatePrivateReceipt(private, candidate, None).None?
    ensures r.Success? ==> r.value == SanitizedReceipt(candidate, contract, private, source)
    ensures r.Failure? ==>
      r.error == PrivateReceiptInvalid(ValidatePrivateReceipt(private, candidate, None).value)
  {
    var rejection := ValidatePrivateReceipt(private, candidate, None);
    if rejection.Some? {
      return Failure(PrivateReceiptInvalid(rejection.value));
    }
    var operations := Operations(private.callLedger);
    var payload := BasePayload(candidate, source, false);
    payload := payload.(checks := private.checks, apiOperations := operations);
    payload := payload.(awsCallsPerformed := operations != []);
    payload := payload.(correctAccountBinding := private.checks.authenticatedIdentityMatch);
    payload := payload.(deploymentContractSelected := true);
    payload := payload.(externalPrerequisitesPass := private.externalPrerequisitesPass);
    payload := payload.(observedAt := Some(private.observedAt));
    payload := payload.(privateContractSha256 := Some(OfContract(contract)));
    payload := payload.(privateReceiptCreated := true, privateReceiptSha256 := Some(OfReceipt(private)));
    payload := payload.(reasons := private.reasons, status := private.status);
    payload := payload.(regionReady := true, sandboxExplicitIdPresent := true);
    payload := payload.(missingPrerequisites := MissingPrerequisites(payload));
    var passed := && payload.externalPrerequisitesPass
                  && payload.missingPrerequisites == []
                  && payload.reasons == []
                  && payload.status == Pass;
    payload := payload.(readyForChangeSet := passed);
    if !passed {
      payload := payload.(externalPrerequisitesPass := false);
      payload := payload.(status := Blocked);
    }
    return Success(payload);
  }

  // Derive the public receipt and put it through its own validator.
  method DerivePublicReceipt(
      candidate: Candidate, contract: RawContract, source: SelectionSource, private: PrivateReceipt,
      sensitive: string -> bool)
      returns (r: Result<PublicReceipt, FailureReason>)
    requires private.privateContract == contract && !source.OtherSource?
    ensures r.Success? <==>
            && ValidatePrivateReceipt(private, candidate, None).None?
            && !ContainsSensitiveValue(private.reasons, sensitive)
    ensures r.Success? ==>
      && r.value == SanitizedReceipt(candidate, contract, private, source)
      && ValidateSanitizedReceipt(r.value, candidate, Some(private), None, sensitive).None?
    ensures r.Failure? ==>
      if ValidatePrivateReceipt(private, candidate, None).Some?
      then r.error == PrivateReceiptInvalid(ValidatePrivateReceipt(private, candidate, None).value)
      else r.error.PublicReceiptInvalid?
  {
    var built := BuildSanitizedReceipt(candidate, contract, private, source);
    if built.Failure? {
      return built;
    }
    var payload := built.value;
    if payload.privateReceiptSha256 != Some(OfReceipt(private)) {
      return Failure(PrivateReceiptWriteBindingInvalid);
    }
    SanitizedReceiptAccepted(candidate, contract, private, source, sensitive);
    var rejection := ValidateSanitizedReceipt(payload, candidate, Some(private), None, sensitive);
    return if rejection.Some? then Failure(PublicReceiptInvalid(rejection.value)) else Success(payload);
  }

  // Derived from an accepted receipt of the observer, the public receipt is ready for a change set
  // exactly when the private one passed.
  lemma ReadyExactlyOnPass(
    candidate: Candidate, contract: RawContract, source: SelectionSource, observed: PrivateReceipt)
    requires FaithfulReceipt(observed, contract, candidate) && ValidatePrivateReceipt(observed, candidate, None).None?
    ensures SanitizedReceipt(candidate, contract, observed, source).readyForChangeSet <==> observed.status == Pass
    ensures observed.status == Pass ==> observed.reasons == []
  {
    SanitizedPrerequisites(candidate, contract, observed, source);
  }

  // ---------- When the command says ready ----------

  // The contract is there, was selected unambiguously, and a session for its profile opens.
  predicate Selected(setting: Setting, explicit: set<string>, configured: seq<string>, writePublic: bool) {
    && setting.privateAllowed && (writePublic ==> setting.publicAllowed)
    && setting.loaded.Loaded?
    && setting.loaded.contract.selectionTime % MICROS == 0
    && ValidateContractSelection(
         setting.loaded.contract.selectedProfile, setting.loaded.source, explicit, configured).None?
    && setting.session.Some?
  }

  // The request is valid, everything AWS answers can be stored and shows what the contract asks for,
  // and the identity answer has the three expected keys.
  predicate WorldReady(setting: Setting, contract: RawContract, candidate: Candidate) {
    && setting.session.Some?
    && RequestValid(
         setting.session.value, contract, candidate, candidate.candidateDigest, setting.clock, setting.nonce)
    && ContractFrom(contract, setting.clock.value).cwPeriod > 0
    && Passes(setting.world, ContractFrom(contract, setting.clock.value))
    && AllStorable(setting.world)
    && IdentityIsExact(NO_OBSERVATIONS.(callerIdentity := StoredIdentity(setting.world)))
  }

  // ---------- The command ----------

  class Outputs {
    // How the writes of this command come out.
    const privateWrite: WriteOutcome
    const modeKept: bool
    const publicWrite: WriteOutcome
    var privateFile: Option<PrivateReceipt>
    var publicFile: Option<PublicReceipt>

    constructor (
      privateWrite: WriteOutcome, modeKept: bool, publicWrite: WriteOutcome, privateFile: Option<PrivateReceipt>,
      publicFile: Option<PublicReceipt>)
      ensures this.privateWrite == privateWrite && this.modeKept == modeKept && this.publicWrite == publicWrite
      ensures this.privateFile == privateFile && this.publicFile == publicFile
    {
      this.privateWrite, this.modeKept, this.publicWrite := privateWrite, modeKept, publicWrite;
      this.privateFile, this.publicFile := privateFile, publicFile;
    }

    predicate PublicWritten(writePublic: bool) {
      writePublic ==> publicWrite == Replaced
    }

    predicate AllWritten(writePublic: bool) {
      privateWrite == Replaced && modeKept && PublicWritten(writePublic)
    }

    // Write to a temporary file and replace; the replacement may happen before an error shows.
    method WritePrivate(receipt: PrivateReceipt) returns (ok: bool)
      modifies this`privateFile
      ensures ok <==> privateWrite == Replaced
      ensures privateFile == if privateWrite == Kept then old(privateFile) else Some(receipt)
    {
      if privateWrite != Kept {
        privateFile := Some(receipt);
      }
      return privateWrite == Replaced;
    }

    method WritePublic(receipt: PublicReceipt) returns (ok: bool)
      modifies this`publicFile
      ensures ok <==> publicWrite == Replaced
      ensures publicFile == if publicWrite == Kept then old(publicFile) else Some(receipt)
    {
      if publicWrite != Kept {
        publicFile := Some(receipt);
      }
      return publicWrite == Replaced;
    }

    // The public file was left alone or holds a receipt its validator accepts.
    twostate predicate PublicFileSound(candidate: Candidate, sensitive: string -> bool)
      reads this
    {
      publicFile == old(publicFile) ||
      (publicFile.Some? && Accepted(publicFile.value, candidate, sensitive))
    }

    // No contract: report what is missing, without any AWS call.
    method CloseWithoutContract(
        candidate: Candidate, source: SelectionSource, ambiguous: bool, writePublic: bool, sensitive: string -> bool)
        returns (r: Result<PublicReceipt, ClosureFailure>)
      modifies this`publicFile
      ensures r.Success? <==>
        && CandidateIsValid(candidate) && !source.OtherSource?
        && !sensitive(if ambiguous then MULTIPLE_PROFILES else CONTRACT_REQUIRED)
        && PublicWritten(writePublic)
      ensures r.Success? ==>
        && ValidateSanitizedReceipt(r.value, candidate, None, None, sensitive).None?
        && !r.value.readyForChangeSet
        && !r.value.awsCallsPerformed && r.value.apiOperations == []
        && (writePublic ==> publicFile == Some(r.value))
      ensures r.Failure? ==> !r.error.awsCallsPerformed
      ensures r.Failure? ==> r.error.reason.PublicReceiptInvalid? || r.error.reason == ReceiptWriteFailed
      ensures PublicFileSound(candidate, sensitive)
    {
      var reason := OtherReason(if ambiguous then MULTIPLE_PROFILES else CONTRACT_REQUIRED);
      var payload := BuildBlockedReceipt(candidate, reason, source, ambiguous);
      if CandidateIsValid(candidate) && !source.OtherSource? {
        BlockedReceiptAccepted(candidate, reason, source, ambiguous, None, sensitive);
      }
      var rejection := ValidateSanitizedReceipt(payload, candidate, None, None, sensitive);
      if rejection.Some? {
        return Failure(ClosureFailure(PublicReceiptInvalid(rejection.value), "FAIL", false));
      }
      if writePublic {
        var written := WritePublic(payload);
        if !written {
          return Failure(ClosureFailure(ReceiptWriteFailed, "FAIL", false));
        }
      }
      return Success(payload);
    }

    // Write the observed receipt, then derive, validate and write the public one.
    method CloseObserved(
        candidate: Candidate, contract: RawContract, source: SelectionSource, observed: PrivateReceipt,
        writePublic: bool, sensitive: string -> bool)
        returns (r: Result<PublicReceipt, ClosureFailure>)
      requires FaithfulReceipt(observed, contract, candidate) && !source.OtherSource?
      modifies this
      ensures privateFile == if privateWrite == Kept then old(privateFile) else Some(observed)
      ensures r.Success? <==>
        && AllWritten(writePublic)
        && ValidatePrivateReceipt(observed, candidate, None).None?
        && !ContainsSensitiveValue(observed.reasons, sensitive)
      ensures r.Success? ==>
        && ValidateSanitizedReceipt(r.value, candidate, privateFile, None, sensitive).None?
        && r.value == SanitizedReceipt(candidate, contract, observed, source)
        && (r.value.readyForChangeSet <==> observed.status == Pass)
        && (writePublic ==> publicFile == Some(r.value))
      ensures r.Failure? ==> r.error.awsCallsPerformed == (observed.callLedger != [])
      ensures r.Failure? && r.error.reason.PrivateReceiptInvalid? ==>
        privateFile == Some(observed) && ValidatePrivateReceipt(observed, candidate, None).Some?
      ensures r.Failure? && r.error.reason.PublicReceiptInvalid? ==>
        ContainsSensitiveValue(observed.reasons, sensitive)
      ensures r.Failure? ==> r.error.reason != PrivateReceiptWriteBindingInvalid
      ensures PublicFileSound(candidate, sensitive)
    {
      var called := observed.callLedger != [];
      var written := WritePrivate(observed);
      if !written {
        return Failure(ClosureFailure(ReceiptWriteFailed, "FAIL", called));
      }
      if !modeKept {
        return Failure(ClosureFailure(PrivateReceiptModeInvalid, "FAIL", called));
      }
      var derived := DerivePublicReceipt(candidate, contract, source, observed, sensitive);
      if derived.Failure? {
        return Failure(ClosureFailure(derived.error, "FAIL", called));
      }
      ReadyExactlyOnPass(candidate, contract, source, observed);
      if writePublic {
        written := WritePublic(derived.value);
        if !written {
          return Failure(ClosureFailure(ReceiptWriteFailed, "FAIL", called));
        }
      }
      return Success(derived.value);
    }

    // What a receipt that is ready for a change set stands for: the private receipt on file passed
    // in full, and it was made in a world that shows all its contract asks for.
    predicate Backed(receipt: PublicReceipt, setting: Setting)
      reads this
    {
      && privateFile.Some?
      && receipt.privateReceiptSha256 == Some(OfReceipt(privateFile.value))
      && privateFile.value.status == Pass
      && AllTrue(privateFile.value.checks)
      && Operations(privateFile.value.callLedger) == PASS_OPERATION_SEQUENCE
      && setting.loaded.Loaded? && privateFile.value.privateContract == setting.loaded.contract
      && WorldReady(setting, setting.loaded.contract, receipt.candidate)
    }

    // The receipt is accepted against the private receipt on file, if it names one.
    ghost predicate Accepted(receipt: PublicReceipt, candidate: Candidate, sensitive: string -> bool)
      reads this
    {
      exists private: Option<PrivateReceipt> ::
        && ValidateSanitizedReceipt(receipt, candidate, private, None, sensitive).None?
        && (private.Some? ==> private == privateFile)
    }

    // Observe under a contract whose selection time is a whole second, and close.
    method ObserveAndClose(
        candidate: Candidate, setting: Setting, writePublic: bool, sensitive: string -> bool)
        returns (r: Result<PublicReceipt, ClosureFailure>)
      requires setting.loaded.Loaded? && setting.session.Some?
      requires setting.loaded.contract.selectionTime % MICROS == 0 && !setting.loaded.source.OtherSource?
      modifies this
      ensures r.Success? ==> Accepted(r.value, candidate, sensitive)
      ensures r.Success? && r.value.readyForChangeSet <==>
              WorldReady(setting, setting.loaded.contract, candidate) && AllWritten(writePublic)
      ensures r.Success? && r.value.readyForChangeSet ==> Backed(r.value, setting)
      ensures r.Success? && writePublic ==> publicFile == Some(r.value)
      ensures r.Failure? && r.error.reason.PrivateReceiptInvalid? ==>
        privateFile.Some? && privateFile.value.status == Pass && !IdentityIsExact(privateFile.value.observations)
      ensures PublicFileSound(candidate, sensitive)
    {
      var contract, source := setting.loaded.contract, setting.loaded.source;
      var observed := ObserveAwsPreflight(
        setting.world, setting.session.value, contract, candidate, candidate.candidateDigest, setting.clock,
        setting.nonce);
      if observed.Failure? {
        return Failure(ClosureFailure(ObservationRejected(observed.error), "FAIL", false));
      }
      WholeSecondReceiptAccepted(observed.value, contract, candidate, setting.clock.value);
      r := CloseObserved(candidate, contract, source, observed.value, writePublic, sensitive);
      if r.Success? && r.value.readyForChangeSet {
        ReadyMeansPassed(r.value, candidate, privateFile, None, sensitive);
      }
    }

    // The whole command. It says ready for a change set exactly when the contract is selected, the
    // world shows all it asks for, and every write comes through. A whole-second selection time is
    // what the contract loader accepts.
    method RunClosure(
        candidate: Candidate, setting: Setting, explicit: set<string>, configured: seq<string>, writePublic: bool,
        sensitive: string -> bool)
        returns (r: Result<PublicReceipt, ClosureFailure>)
      modifies this
      ensures r.Success? ==> Accepted(r.value, candidate, sensitive)
      ensures r.Success? && r.value.readyForChangeSet <==>
        && Selected(setting, explicit, configured, writePublic)
        && WorldReady(setting, setting.loaded.contract, candidate)
        && AllWritten(writePublic)
      ensures r.Success? && r.value.readyForChangeSet ==> Backed(r.value, setting)
      ensures r.Success? && writePublic ==> publicFile == Some(r.value)
      ensures r.Failure? && r.error.reason.PrivateReceiptInvalid? ==>
        privateFile.Some? && privateFile.value.status == Pass && !IdentityIsExact(privateFile.value.observations)
      ensures !setting.loaded.Loaded? ==> privateFile == old(privateFile)
      ensures PublicFileSound(candidate, sensitive)
    {
      if !setting.privateAllowed {
        return Failure(ClosureFailure(PrivateOutputForbidden, "FAIL", false));
      }
      if writePublic && !setting.publicAllowed {
        return Failure(ClosureFailure(PublicOutputForbidden, "FAIL", false));
      }
      var fallback := SelectionWithoutContract(explicit, configured);
      match setting.loaded
      case Unavailable =>
        r := CloseWithoutContract(candidate, fallback.0, fallback.1, writePublic, sensitive);
      case Invalid =>
        r := Failure(ClosureFailure(PrivateContractInvalid, "FAIL", false));
      case Loaded(contract, source) =>
        if contract.selectionTime % MICROS != 0 {
          return Failure(ClosureFailure(PrivateContractInvalid, "FAIL", false));
        }
        var problem := ValidateContractSelection(contract.selectedProfile, source, explicit, configured);
        if problem.Some? {
          return Failure(ClosureFailure(problem.value.0, problem.value.1, false));
        }
        if setting.session.None? {
          return Failure(ClosureFailure(SelectedAwsProfileUnavailable, "BLOCKED", false));
        }
        r := ObserveAndClose(candidate, setting, writePublic, sensitive);
    }
  }
}
