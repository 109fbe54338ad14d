/**
 The operator bootstrap: select one profile, prove the deployment role with STS, add the local
 profile alias, and leave a private receipt and a public decision at every exit.

 STS, sessions, the repository guard and all file operations answer arbitrarily. Nobody else
 writes the configuration or the receipts during a run.
 */
module Bootstrap {
  import opened Wrappers
  import opened SdkValues
  import opened AuthorityReceipt
  import opened ReceiptStore
  import opened ConfigAppend

  // ---------- Profile selection ----------

  function Distinct(profiles: seq<string>): (r: seq<string>)
    ensures NoDuplicates(r)
    ensures forall p :: p in r <==> p in profiles
  {
    if profiles == [] then []
    else
      var rest := Distinct(profiles[..|profiles| - 1]);
      var last := profiles[|profiles| - 1];
      assert profiles == profiles[..|profiles| - 1] + [last];
      if last in rest then rest else rest + [last]
  }

  function Without(profiles: seq<string>, name: string): (r: seq<string>)
    ensures forall p :: p in r <==> p in profiles && p != name
    ensures NoDuplicates(profiles) ==> NoDuplicates(r)
  {
    if profiles == [] then []
    else
      var rest := Without(profiles[..|profiles| - 1], name);
      var last := profiles[|profiles| - 1];
      assert profiles == profiles[..|profiles| - 1] + [last];
      assert NoDuplicates(profiles) ==> last !in profiles[..|profiles| - 1];
      if last == name then rest else rest + [last]
  }

  // An explicit profile, or the only source profile, or the only profile. explicit holds the
  // stripped non-empty values of the two environment variables.
  function SelectSourceProfile(explicit: seq<string>, configured: seq<string>)
    : (r: Result<(string, SelectionMethod), BootstrapFailure>)
    ensures r.Success? ==> ProfileValid(r.value.0) && r.value.0 in configured
                           && r.value.1 in {ExplicitEnvironmentProfile, UniqueLocalProfile}
    ensures r.Failure? ==> r.error == Block(ProfileAmbiguous) || Reportable(r.error)
  {
    var profiles := Distinct(configured);
    var requested := Distinct(explicit);
    if exists p | p in profiles :: !ProfileValid(p) then Failure(Fail(ConfiguredProfileNameInvalid))
    else if |requested| > 1 then Failure(Block(ProfileAmbiguous))
    else if |requested| == 1 then
      if !ProfileValid(requested[0]) || requested[0] !in profiles then Failure(Block(ExplicitSourceProfileUnavailable))
      else Success((requested[0], ExplicitEnvironmentProfile))
    else
      var candidates := Without(profiles, DEPLOYMENT_PROFILE);
      if |candidates| == 1 then Success((candidates[0], UniqueLocalProfile))
      else if |profiles| == 1 then Success((profiles[0], UniqueLocalProfile))
      else if profiles == [] then Failure(Block(SourceProfileRequired))
      else Failure(Block(ProfileAmbiguous))
  }

  predicate SameMembers(a: seq<string>, b: seq<string>) {
    (forall p | p in a :: p in b) && (forall p | p in b :: p in a)
  }

  lemma {:induction false} SameMembersSameLength(a: seq<string>, b: seq<string>)
    requires NoDuplicates(a) && NoDuplicates(b) && SameMembers(a, b)
    ensures |a| == |b|
  {
    SeqAsSet(a);
    SeqAsSet(b);
    assert (set p | p in a) == (set p | p in b);
  }

  lemma {:induction false} SeqAsSet(s: seq<string>)
    requires NoDuplicates(s)
    ensures |set p | p in s| == |s|
  {
    if s != [] {
      var front, last := s[..|s| - 1], s[|s| - 1];
      SeqAsSet(front);
      assert s == front + [last];
      assert (set p | p in s) == (set p | p in front) + {last};
    }
  }

  // The choice does not depend on the order or the repetition of what is configured.
  lemma SelectionIgnoresOrder(explicit: seq<string>, explicit': seq<string>, a: seq<string>, b: seq<string>)
    requires SameMembers(a, b) && SameMembers(explicit, explicit')
    ensures SelectSourceProfile(explicit, a) == SelectSourceProfile(explicit', b)
  {
    var da, db := Distinct(a), Distinct(b);
    var ca, cb := Without(da, DEPLOYMENT_PROFILE), Without(db, DEPLOYMENT_PROFILE);
    var ea, eb := Distinct(explicit), Distinct(explicit');
    SameMembersSameLength(da, db);
    SameMembersSameLength(ca, cb);
    SameMembersSameLength(ea, eb);
    if |ea| == 1 {
      assert ea[0] in eb;
    }
    if |ca| == 1 {
      assert ca[0] in cb;
    }
    if |da| == 1 {
      assert da[0] in db;
    }
  }

  // ---------- Identities ----------

  datatype IdentityArn =
    | RootArn(account: string)
    | IamRoleArn(account: string, name: string)
    | AssumedRole(account: string, name: string, session: string)
    | IamUserArn(account: string, name: string)
    | FederatedUserArn(account: string, name: string)
    | UnrecognizedArn
    | ArnMissing

  // An identity call raises, or answers; an answer that is a mapping may raise when it is read.
  datatype IdentityAnswer =
    | CallRaised
    | NotAMapping
    | Unreadable
    | Identity(account: Option<string>, arn: IdentityArn)

  // The account and the ARN of a usable identity.
  function IdentityParts(identity: IdentityAnswer): (r: Result<(string, IdentityArn), Reason>)
    requires identity.Identity?
    ensures r.Success? ==> AccountValid(r.value.0)
    ensures r.Failure? ==> r.error in {StsIdentityResponseInvalid, RootSourcePrincipalForbidden}
  {
    if identity.account.None? || !AccountValid(identity.account.value) || identity.arn.ArnMissing? then
      Result.Failure(StsIdentityResponseInvalid)
    else if identity.arn.RootArn? && identity.arn.account == identity.account.value then
      Result.Failure(RootSourcePrincipalForbidden)
    else if identity.arn.RootArn? || identity.arn.UnrecognizedArn?
            || identity.arn.account != identity.account.value then
      Result.Failure(StsIdentityResponseInvalid)
    else Result.Success((identity.account.value, identity.arn))
  }

  predicate IdentityIsExactRole(identity: IdentityAnswer, account: string)
    requires identity.Identity?
  {
    var parts := IdentityParts(identity);
    && parts.Success?
    && parts.value.0 == account
    && (parts.value.1 == IamRoleArn(account, DEPLOYMENT_ROLE_LEAF)
        || (parts.value.1.AssumedRole? && parts.value.1.account == account
            && parts.value.1.name == DEPLOYMENT_ROLE_LEAF))
  }

  // What STS answers to the identity calls of a run, call by call: first for the source profile,
  // then for the temporary credentials.
  type StsAnswers = nat -> IdentityAnswer

  // The account of the source identity.
  function AccountOf(sts: StsAnswers): Option<string> {
    if sts(0).Identity? && IdentityParts(sts(0)).Success? then Some(IdentityParts(sts(0)).value.0) else None
  }

  // The identity that counts, the source's own or the assumed one, is the exact role in the account.
  predicate RoleShown(sts: StsAnswers, assumed: bool) {
    var proof := sts(if assumed then 1 else 0);
    AccountOf(sts).Some? && proof.Identity? && IdentityIsExactRole(proof, AccountOf(sts).value)
  }

  // ---------- The configuration ----------

  type Section = map<string, string>

  const HEADER := "[profile aioa-day15-deployer]\n"
  // The keys an exact source profile may have.
  const SAFE_KEYS := 16

  function SafeKey(i: nat): string
    requires i < SAFE_KEYS
  {
    match i
    case 0 => "credential_process"
    case 1 => "credential_source"
    case 2 => "duration_seconds"
    case 3 => "external_id"
    case 4 => "mfa_serial"
    case 5 => "output"
    case 6 => "region"
    case 7 => "role_arn"
    case 8 => "role_session_name"
    case 9 => "source_profile"
    case 10 => "sso_account_id"
    case 11 => "sso_region"
    case 12 => "sso_role_name"
    case 13 => "sso_session"
    case 14 => "sso_start_url"
    case _ => "web_identity_token_file"
  }

  predicate OnlySafeKeys(section: Section) {
    forall key | key in section :: exists i | 0 <= i < SAFE_KEYS :: key == SafeKey(i)
  }

  // The alias that assumes the role from another profile.
  function AssumptionAlias(sourceProfile: string, account: string): Section {
    map[
      "duration_seconds" := "900",
      "region" := REGION,
      "role_arn" := "arn:aws:iam::" + account + ":role/" + DEPLOYMENT_ROLE_LEAF,
      "role_session_name" := "aioa-day15-operator-bootstrap",
      "source_profile" := sourceProfile]
  }

  predicate EndsWith(raw: Bytes, tail: Bytes) {
    |tail| <= |raw| && raw[|raw| - |tail|..] == tail
  }

  // A blank line between what is there and the new block.
  function Separator(raw: Bytes): Bytes {
    if raw == [] || EndsWith(raw, "\n\n") then "" else if EndsWith(raw, "\n") then "\n" else "\n\n"
  }

  // lines is the rendering of the mapping, one "key = value" line for each key in order.
  function AppendedConfig(raw: Bytes, lines: Bytes): (updated: Bytes)
    ensures raw < updated
  {
    raw + (Separator(raw) + (HEADER + lines))
  }

  function ReasonOf(reason: AppendReason): BootstrapFailure {
    match reason
    case LocalProfileAliasReverifyFailed => Fail(Reason.LocalProfileAliasReverifyFailed)
    case LocalPathForbidden => Fail(LocalPathSymlinkForbidden)
    case AwsConfigUnavailable => Block(Reason.AwsConfigUnavailable)
    case AwsConfigProtectionInvalid => Fail(Reason.AwsConfigProtectionInvalid)
    case AwsConfigChangedDuringBootstrap => Fail(Reason.AwsConfigChangedDuringBootstrap)
  }

  // How the library reads configuration bytes, and which sections are refused outright.
  datatype ConfigReader = ConfigReader(
    parse: Bytes -> Option<map<string, Section>>,
    unsafe: Section -> bool,
    render: Section -> Bytes)

  // ---------- The state of a run ----------

  class RunState {
    var observedAt: Timestamp
    var receiptNonce: string
    var status: Status
    var reasons: seq<Reason>
    var selectionMethod: SelectionMethod
    var sourceProfile: Option<string>
    var sourceProfileAmbiguous: bool
    var sourceIdentityVerified: bool
    var assumeRolePerformed: bool
    var temporaryIdentityVerified: bool
    var exactRoleProven: bool
    var aliasCreated: bool
    var aliasReverified: bool
    var accountId: Option<string>
    var roleArn: Option<Arn>
    var apiOperations: seq<ApiEntry>
    var localWriteOperations: seq<LocalWrite>

    constructor (observedAt: Timestamp, receiptNonce: string, status: Status, reasons: seq<Reason>)
      ensures View() == State(observedAt, receiptNonce, status, reasons, NotSelected, None, false, false, false,
                              false, false, false, false, None, None, [], [])
    {
      this.observedAt, this.receiptNonce, this.status, this.reasons := observedAt, receiptNonce, status, reasons;
      selectionMethod, sourceProfile, sourceProfileAmbiguous := NotSelected, None, false;
      sourceIdentityVerified, assumeRolePerformed, temporaryIdentityVerified := false, false, false;
      exactRoleProven, aliasCreated, aliasReverified := false, false, false;
      accountId, roleArn, apiOperations, localWriteOperations := None, None, [], [];
    }

    function View(): State
      reads this
    {
      State(observedAt, receiptNonce, status, reasons, selectionMethod, sourceProfile, sourceProfileAmbiguous,
            sourceIdentityVerified, assumeRolePerformed, temporaryIdentityVerified, exactRoleProven, aliasCreated,
            aliasReverified, accountId, roleArn, apiOperations, localWriteOperations)
    }

    // Add a reason; the marker of a run in progress gives way to the first real one.
    method AddReason(failure: BootstrapFailure)
      modifies this`reasons, this`status
      ensures reasons == Noted(old(reasons), failure.reason)
      ensures status == if failure.status == FAIL then FAIL else old(status)
    {
      if reasons == [BootstrapInProgress] {
        reasons := [];
      }
      if failure.reason !in reasons {
        reasons := reasons + [failure.reason];
      }
      if failure.status == FAIL {
        status := FAIL;
      }
    }

    method RecordCall(operation: StsOperation)
      modifies this`apiOperations
      ensures apiOperations == old(apiOperations) + [ApiEntry(operation, |old(apiOperations)| + 1, false)]
    {
      apiOperations := apiOperations + [ApiEntry(operation, |apiOperations| + 1, false)];
    }

    // A run in progress: evidence that hangs together, nothing concluded.
    predicate InProgress()
      reads this
    {
      Coherent(View()) && status == BLOCKED && reasons == [BootstrapInProgress]
    }
  }

  function Noted(reasons: seq<Reason>, reason: Reason): seq<Reason> {
    var kept := if reasons == [BootstrapInProgress] then [] else reasons;
    if reason in kept then kept else kept + [reason]
  }

  // ---------- The run ----------

  // What leaves a phase: nothing, a failure with its reason, or any other exception.
  datatype Raised = Nothing | Known(failure: BootstrapFailure) | Unexpected

  // What may leave a phase before it is known which profile is meant.
  predicate Escapes(raised: Raised) {
    raised.Unexpected? || (raised.Known? && Reportable(raised.failure))
  }

  // What a raised exception is noted as.
  function FailureOf(raised: Raised): BootstrapFailure {
    if raised.Known? then raised.failure else Fail(AuthorityBootstrapInternalFailure)
  }

  datatype RunOutcome =
    | Returned(payload: PublicReceipt)
    | Aborted(failure: BootstrapFailure)         // raised before the state was first written
    | AbortedUnexpectedly
    | ValidatorRaised(reason: Reason)            // raised by a validator after that

  predicate CallsMade(state: State, names: seq<StsOperation>) {
    && Names(state.apiOperations) == names
    && forall i | 0 <= i < |state.apiOperations| :: EntryValid(state.apiOperations[i], i + 1)
  }

  lemma CallRecorded(entries: seq<ApiEntry>, operation: StsOperation)
    requires forall i | 0 <= i < |entries| :: EntryValid(entries[i], i + 1)
    requires !operation.OtherOperation?
    ensures
      var entries' := entries + [ApiEntry(operation, |entries| + 1, false)];
      && Names(entries') == Names(entries) + [operation]
      && (forall i | 0 <= i < |entries'| :: EntryValid(entries'[i], i + 1))
  {
  }

  lemma AssumedBeginnings()
    ensures DIRECT + [AssumeRole] == ASSUMED[..2] <= ASSUMED
    ensures ASSUMED[..2] + [GetCallerIdentity] == ASSUMED
    ensures AssumeRole in ASSUMED[..2] && AssumeRole in ASSUMED && AssumeRole !in DIRECT
  {
    assert ASSUMED[..2][1] == AssumeRole;
    assert ASSUMED[1] == AssumeRole;
  }

  // A state about to be reported without a pass.
  predicate Unpassed(s: State) {
    Coherent(s) && s.status in {BLOCKED, FAIL} && s.reasons != [] && NoDuplicates(s.reasons)
  }

  // The state that is reported after the last attempt to write the receipt.
  function Reported(s: State, created: bool): State {
    if created then s else s.(reasons := Noted(s.reasons, PrivateReceiptWriteFailed), status := FAIL)
  }

  // The reasons are public, not repeated, and say ambiguous exactly where that was recorded.
  predicate ReasonsFit(reasons: seq<Reason>, ambiguous: bool) {
    ReasonsValid(reasons) && ambiguous == (ProfileAmbiguous in reasons)
  }

  lemma NotedMembers(reasons: seq<Reason>, reason: Reason)
    ensures reason in Noted(reasons, reason)
    ensures forall r | r in Noted(reasons, reason) :: r == reason || r in reasons
    ensures forall r | r in reasons && !r.BootstrapInProgress? :: r in Noted(reasons, reason)
    ensures NoDuplicates(reasons) ==> NoDuplicates(Noted(reasons, reason))
  {
  }

  // Noting that the receipt could not be written changes nothing about that.
  lemma NotedFit(reasons: seq<Reason>, ambiguous: bool)
    requires NoDuplicates(reasons)
    ensures ReasonsFit(Noted(reasons, PrivateReceiptWriteFailed), ambiguous) <==> ReasonsFit(reasons, ambiguous)
  {
    NotedMembers(reasons, PrivateReceiptWriteFailed);
    var noted := Noted(reasons, PrivateReceiptWriteFailed);
    assert ProfileAmbiguous in noted <==> ProfileAmbiguous in reasons;
    if !ReasonsValid(reasons) {
      var bad :| bad in reasons && bad.OtherReason?;
      assert bad in noted;
    }
  }

  lemma ReportConcluded(s: State, created: bool)
    requires Unpassed(s)
    ensures Coherent(Reported(s, created)) && Reported(s, created).status in {BLOCKED, FAIL}
    ensures Reported(s, created).reasons != []
    ensures ReasonsFit(Reported(s, created).reasons, s.sourceProfileAmbiguous) <==> Concluded(s)
  {
    NotedFit(s.reasons, s.sourceProfileAmbiguous);
  }

  // The public validator accepts the report exactly when the reasons fit the evidence. Without
  // that the private validator refused the receipt too, so none was created.
  lemma ReportIsValid(s: State, created: bool)
    requires Unpassed(s)
    ensures ValidatePublic(PublicReceiptOf(Reported(s, created), created)) ==
            if Concluded(s) then None else Some(SanitizedAuthorityReceiptStatusInvalid)
  {
    ReportConcluded(s, created);
    if Concluded(s) {
      PublicReceiptAccepted(Reported(s, created), created);
    }
  }

  // A guard may raise a code the validators do not know, or claim an ambiguity nobody recorded.
  predicate Unreportable(problem: Raised) {
    problem.Known? && (problem.failure.reason.OtherReason? || problem.failure.reason == ProfileAmbiguous)
  }

  // The payload is what the state is reported as.
  ghost predicate Reports(payload: PublicReceipt, s: State) {
    exists created :: payload == PublicReceiptOf(s, created)
  }

  // The reason is not a public one, or claims an ambiguity that was not recorded, or hides one.
  predicate Misfits(failure: BootstrapFailure, ambiguous: bool) {
    failure.reason.OtherReason? || (failure.reason == ProfileAmbiguous) != ambiguous
  }

  function AbortBy(result: StoreResult): RunOutcome
    requires !result.Stored?
  {
    if result.StoreFailed? then Aborted(result.failure) else AbortedUnexpectedly
  }

  function AfterFailure(s: State, failure: BootstrapFailure): State {
    s.(reasons := Noted(s.reasons, failure.reason), status := if failure.status == FAIL then FAIL else s.status)
  }

  // A run in progress, or one whose pass could not be written.
  predicate Handleable(s: State, failure: BootstrapFailure) {
    && Coherent(s)
    && ((s.status == BLOCKED && s.reasons == [BootstrapInProgress])
        || (s.status == PASS && s.reasons == [] && failure.status == FAIL))
  }

  // A failure concludes a run exactly when its reason is public and says ambiguous only where that
  // was recorded.
  lemma FailureConcludes(s: State, failure: BootstrapFailure)
    requires Handleable(s, failure)
    ensures Unpassed(AfterFailure(s, failure))
    ensures Concluded(AfterFailure(s, failure)) <==> !Misfits(failure, s.sourceProfileAmbiguous)
  {
    assert AfterFailure(s, failure).reasons == [failure.reason];
  }

  // From the failure to the reported payload: never a pass, and accepted exactly when the reason fits.
  lemma HandledReport(s: State, failure: BootstrapFailure, created: bool)
    requires Handleable(s, failure)
    ensures var payload := PublicReceiptOf(Reported(AfterFailure(s, failure), created), created);
            && payload.status != PASS
            && ValidatePublic(payload) ==
               if Misfits(failure, s.sourceProfileAmbiguous) then Some(SanitizedAuthorityReceiptStatusInvalid) else None
  {
    FailureConcludes(s, failure);
    ReportIsValid(AfterFailure(s, failure), created);
  }

  function Passed(s: State, account: string): State {
    s.(accountId := Some(account), roleArn := Some(RoleArnOf(account)), status := PASS, reasons := [])
  }

  lemma PassConcludes(s: State, account: string)
    requires Coherent(s) && s.aliasReverified && !s.sourceProfileAmbiguous && AccountValid(account)
    ensures Coherent(Passed(s, account)) && Concluded(Passed(s, account))
  {
  }

  // What the last step of a run does with a payload.
  function Validated(payload: PublicReceipt): RunOutcome {
    var rejection := ValidatePublic(payload);
    if rejection.Some? then ValidatorRaised(rejection.value) else Returned(payload)
  }

  class Operator {
    const store: Store
    const config: ConfigFile
    const reader: ConfigReader
    const sts: StsAnswers

    constructor (store: Store, config: ConfigFile, reader: ConfigReader, sts: StsAnswers)
      ensures this.store == store && this.config == config && this.reader == reader && this.sts == sts
    {
      this.store, this.config, this.reader, this.sts := store, config, reader, sts;
    }

    method ReadConfig() returns (r: Result<Bytes, Raised>)
      ensures r.Success? ==> r.value == config.bytes && reader.parse(r.value).Some?
      ensures r.Failure? ==> Escapes(r.error)
    {
      var pathAllowed: bool, readable: bool, protected: bool, unexpected: bool := *, *, *, *;
      if unexpected {
        return Result.Failure(Unexpected);
      }
      if !pathAllowed {
        return Result.Failure(Known(Fail(LocalPathSymlinkForbidden)));
      }
      if !readable {
        return Result.Failure(Known(Block(Reason.AwsConfigUnavailable)));
      }
      if !protected || |config.bytes| > MAX_CONFIG_BYTES {
        return Result.Failure(Known(Fail(Reason.AwsConfigProtectionInvalid)));
      }
      if reader.parse(config.bytes).None? {
        return Result.Failure(Known(Fail(AwsConfigInvalid)));
      }
      return Result.Success(config.bytes);
    }

    function SectionMapping(raw: Bytes, profile: string): (r: Result<Option<Section>, BootstrapFailure>)
      requires reader.parse(raw).Some?
      ensures r.Failure? ==> Reportable(r.error)
    {
      var sections := reader.parse(raw).value;
      if profile !in sections then Result.Success(None)
      else if reader.unsafe(sections[profile]) then Result.Failure(Fail(AwsConfigProfileUnsafe))
      else Result.Success(Some(sections[profile]))
    }

    // The alias that reaches the role: an assumption of it, or the exact profile itself.
    function ExpectedAlias(raw: Bytes, sourceProfile: string, account: string, assumed: bool)
      : (r: Result<Section, BootstrapFailure>)
      requires reader.parse(raw).Some?
      ensures r.Failure? ==> Reportable(r.error)
    {
      if assumed then
        Result.Success(AssumptionAlias(sourceProfile, account))
      else if sourceProfile != DEPLOYMENT_PROFILE then Result.Failure(Block(SourceProfileAliasAuthorityUnproven))
      else
        var source := SectionMapping(raw, sourceProfile);
        if source.Failure? then Result.Failure(source.error)
        else if source.value.None? then Result.Failure(Block(SourceProfileConfigRequired))
        else if source.value.value == map[] || !OnlySafeKeys(source.value.value) then
          Result.Failure(Fail(AwsConfigProfileUnsafe))
        else Result.Success(source.value.value["region" := REGION])
    }

    // The deployment profile reads as the given section.
    predicate ProfileReads(raw: Bytes, expected: Section) {
      reader.parse(raw).Some? && SectionMapping(raw, DEPLOYMENT_PROFILE) == Result.Success(Some(expected))
    }

    // The alias the run works towards, from what was read first and what STS answers.
    function Alias(original: Bytes, profile: Option<string>, assumed: bool): Option<Section> {
      if reader.parse(original).None? || profile.None? || AccountOf(sts).None? then None
      else
        var expected := ExpectedAlias(original, profile.value, AccountOf(sts).value, assumed);
        if expected.Success? then Some(expected.value) else None
    }

    // The original with the whole block of that alias.
    function Extended(original: Bytes, profile: Option<string>, assumed: bool): Bytes {
      var alias := Alias(original, profile, assumed);
      if alias.Some? then AppendedConfig(original, reader.render(alias.value)) else original
    }

    // The configuration is the original, or the original with (part of) the one alias block.
    ghost predicate ConfigExtends(original: Bytes, profile: Option<string>, assumed: bool)
      reads config
    {
      config.bytes == original || (original < config.bytes <= Extended(original, profile, assumed))
    }

    // So was every content the file has had since.
    ghost predicate HistoryExtends(length: nat, original: Bytes, limit: Bytes)
      reads config
    {
      length <= |config.history| && forall i | length <= i < |config.history| :: original <= config.history[i] <= limit
    }

    // The configuration is the original or has the whole block, and the profile reads as the alias.
    predicate AliasInPlace(original: Bytes, profile: Option<string>, assumed: bool)
      reads config
    {
      var alias := Alias(original, profile, assumed);
      && alias.Some?
      && (config.bytes == original || config.bytes == Extended(original, profile, assumed))
      && ProfileReads(config.bytes, alias.value)
    }

    // What a caller is told about an answer to an identity call.
    function Received(answer: IdentityAnswer, unavailable: Reason): Result<IdentityAnswer, Raised> {
      match answer
      case CallRaised => Result.Failure(Known(Block(unavailable)))
      case NotAMapping => Result.Failure(Known(Block(StsIdentityResponseInvalid)))
      case Unreadable => Result.Failure(Unexpected)
      case Identity(_, _) => Result.Success(answer)
    }

    // The n-th identity call, recorded before it is made.
    method GetIdentity(state: RunState, n: nat, unavailable: Reason) returns (r: Result<IdentityAnswer, Raised>)
      modifies state`apiOperations
      ensures state.apiOperations ==
        old(state.apiOperations) + [ApiEntry(GetCallerIdentity, |old(state.apiOperations)| + 1, false)]
      ensures r == Received(sts(n), unavailable)
    {
      state.RecordCall(GetCallerIdentity);
      r := Received(sts(n), unavailable);
    }

    // Nothing is proven yet, one profile is selected.
    predicate Selected(state: RunState)
      reads state
    {
      && state.InProgress()
      && state.sourceProfile.Some?
      && state.apiOperations == []
      && !state.sourceIdentityVerified
      && !state.exactRoleProven
      && !state.aliasReverified
      && !state.aliasCreated
    }

    // The source identity is verified by exactly one call.
    predicate SourceVerified(state: RunState)
      reads state
    {
      && state.InProgress()
      && CallsMade(state.View(), DIRECT)
      && state.sourceIdentityVerified
      && !state.aliasReverified
      && !state.aliasCreated
    }

    // The exact role is proven, the configuration untouched.
    predicate RoleProven(state: RunState)
      reads state
    {
      state.InProgress() && state.exactRoleProven && !state.aliasReverified && !state.aliasCreated
    }

    // A session for the profile, and a client of it.
    method OpenSource(profile: string) returns (raised: Raised)
      ensures raised.Nothing? || Escapes(raised)
    {
      var created: bool, sessionProfile: Option<string>, client: bool, unexpected: bool := *, *, *, *;
      return if !created then Known(Block(SourceProfileAuthenticationRequired))
             else if unexpected then Unexpected
             else if sessionProfile != Some(profile) then Known(Block(SourceSessionProfileMismatch))
             else if !client then Known(Block(SourceProfileAuthenticationRequired))
             else Nothing;
    }

    method ProveSource(state: RunState, profile: string) returns (r: Result<string, Raised>)
      requires Selected(state) && state.sourceProfile == Some(profile)
      modifies state`apiOperations, state`sourceIdentityVerified, state`exactRoleProven
      ensures state.InProgress()
      ensures r.Success? ==> SourceVerified(state) && AccountOf(sts) == Some(r.value)
      ensures r.Success? ==> (state.exactRoleProven <==> RoleShown(sts, false))
      ensures r.Failure? ==> Escapes(r.error)
    {
      var raised := OpenSource(profile);
      if !raised.Nothing? {
        return Result.Failure(raised);
      }
      CallRecorded(state.apiOperations, GetCallerIdentity);
      var identity := GetIdentity(state, 0, SourceProfileAuthenticationRequired);
      assert Names(state.apiOperations) == DIRECT;
      if identity.Failure? {
        return Result.Failure(identity.error);
      }
      var parts := IdentityParts(identity.value);
      if parts.Failure? {
        return Result.Failure(Known(Block(parts.error)));
      }
      RecordSource(state, IdentityIsExactRole(identity.value, parts.value.0));
      return Result.Success(parts.value.0);
    }

    method RecordSource(state: RunState, exact: bool)
      requires state.InProgress() && CallsMade(state.View(), DIRECT) && state.sourceProfile.Some?
      requires !state.exactRoleProven && !state.aliasReverified && !state.aliasCreated
      modifies state`sourceIdentityVerified, state`exactRoleProven
      ensures SourceVerified(state) && state.exactRoleProven == exact
    {
      state.sourceIdentityVerified := true;
      if exact {
        state.exactRoleProven := true;
      }
    }

    // The assumption is on record before it is attempted.
    method RecordAssumption(state: RunState)
      requires SourceVerified(state) && !state.exactRoleProven
      modifies state`apiOperations, state`assumeRolePerformed
      ensures state.InProgress() && CallsMade(state.View(), ASSUMED[..2])
      ensures state.assumeRolePerformed && state.sourceIdentityVerified
    {
      AssumedBeginnings();
      CallRecorded(state.apiOperations, AssumeRole);
      state.assumeRolePerformed := true;
      state.RecordCall(AssumeRole);
    }

    // Who do the temporary credentials belong to?
    method VerifyTemporary(state: RunState, account: string) returns (raised: Raised)
      requires state.InProgress() && CallsMade(state.View(), ASSUMED[..2])
      requires state.assumeRolePerformed && state.sourceIdentityVerified && AccountOf(sts) == Some(account)
      requires !state.aliasReverified && !state.aliasCreated
      modifies state`apiOperations, state`temporaryIdentityVerified, state`exactRoleProven
      ensures state.InProgress()
      ensures raised.Nothing? ==> RoleProven(state) && RoleShown(sts, true)
      ensures raised.Nothing? || Escapes(raised)
    {
      AssumedBeginnings();
      CallRecorded(state.apiOperations, GetCallerIdentity);
      var identity := GetIdentity(state, 1, TemporaryRoleIdentityUnavailable);
      if identity.Failure? {
        return identity.error;
      }
      if !IdentityIsExactRole(identity.value, account) {
        return Known(Block(AssumedRoleIdentityMismatch));
      }
      state.temporaryIdentityVerified := true;
      state.exactRoleProven := true;
      return Nothing;
    }

    // Temporary credentials for the role, and a client that uses them.
    method AssumeDeploymentRole() returns (raised: Raised)
      ensures raised.Nothing? || Escapes(raised)
    {
      var assumed: bool, unexpected: bool, credentials: bool, session: bool, client: bool := *, *, *, *, *;
      return if !assumed then Known(Block(ExactDeploymentRoleNotAssumable))
             else if unexpected then Unexpected
             else if !credentials then Known(Block(AssumeRoleResponseInvalid))
             else if !session || !client then Known(Block(TemporaryRoleSessionUnavailable))
             else Nothing;
    }

    // Assume the role once and check the identity behind it.
    method ProveByAssumption(state: RunState, account: string) returns (raised: Raised)
      requires SourceVerified(state) && !state.exactRoleProven && AccountOf(sts) == Some(account)
      modifies state`apiOperations, state`assumeRolePerformed, state`temporaryIdentityVerified, state`exactRoleProven
      ensures state.InProgress()
      ensures raised.Nothing? ==> RoleProven(state) && state.assumeRolePerformed && RoleShown(sts, true)
      ensures raised.Nothing? || Escapes(raised)
    {
      RecordAssumption(state);
      raised := AssumeDeploymentRole();
      if raised.Nothing? {
        raised := VerifyTemporary(state, account);
      }
    }

    method AppendTo(original: Bytes, updated: Bytes) returns (outcome: AppendOutcome)
      requires config.bytes == original
      modifies config
      ensures outcome.Appended? ==> config.bytes == updated
      ensures outcome.Refused? && !outcome.localProfileChanged ==> config.bytes == original
      ensures config.bytes == original || original < config.bytes <= updated
      ensures HistoryExtends(|old(config.history)|, original, updated)
    {
      outcome := config.AppendAlias(original, updated);
    }

    method RecordAlias(state: RunState)
      requires RoleProven(state)
      modifies state`aliasCreated, state`localWriteOperations
      ensures state.InProgress() && state.exactRoleProven && state.aliasCreated
    {
      state.aliasCreated := true;
      state.localWriteOperations := state.localWriteOperations + [PutProfileAlias];
    }

    // The file is as it was written, and the profile in it reads as the alias.
    method Reverify(updated: Bytes, expected: Section) returns (raised: Raised)
      ensures raised.Nothing? ==> config.bytes == updated && ProfileReads(config.bytes, expected)
      ensures raised.Nothing? || Escapes(raised)
    {
      var after := ReadConfig();
      if after.Failure? {
        return after.error;
      }
      if after.value != updated {
        return Known(Fail(Reason.LocalProfileAliasReverifyFailed));
      }
      var section := SectionMapping(after.value, DEPLOYMENT_PROFILE);
      if section.Failure? {
        return Known(section.error);
      }
      return if section.value == Some(expected) then Nothing else Known(Fail(Reason.LocalProfileAliasReverifyFailed));
    }

    // Append the alias block, and re-read what is there. The role has been proven by now.
    method CreateAlias(state: RunState, original: Bytes, expected: Section) returns (raised: Raised)
      requires RoleProven(state) && config.bytes == original
      modifies state`aliasCreated, state`localWriteOperations, config
      ensures state.InProgress() && state.exactRoleProven
      ensures !state.aliasCreated ==> config.bytes == original
      ensures config.bytes == original || original < config.bytes <= AppendedConfig(original, reader.render(expected))
      ensures raised.Nothing? ==>
        && state.aliasCreated && config.bytes == AppendedConfig(original, reader.render(expected))
        && ProfileReads(config.bytes, expected)
      ensures raised.Nothing? || Escapes(raised)
      ensures HistoryExtends(|old(config.history)|, original, AppendedConfig(original, reader.render(expected)))
    {
      var updated := AppendedConfig(original, reader.render(expected));
      var outcome := AppendTo(original, updated);
      if outcome.Appended? || outcome.localProfileChanged {
        RecordAlias(state);
      }
      if outcome.Refused? {
        return Known(ReasonOf(outcome.reason));
      }
      raised := Reverify(updated, expected);
    }

    // Keep an alias that is already right, create a missing one, refuse any other.
    method EnsureAlias(state: RunState, original: Bytes, profile: string, account: string) returns (raised: Raised)
      requires RoleProven(state) && AccountOf(sts) == Some(account)
      modifies state`aliasCreated, state`localWriteOperations, config
      ensures state.InProgress() && state.exactRoleProven
      ensures !state.aliasCreated ==> config.bytes == old(config.bytes)
      ensures config.bytes != old(config.bytes) ==> old(config.bytes) == original
      ensures ConfigExtends(old(config.bytes), Some(profile), state.assumeRolePerformed)
      ensures raised.Nothing? ==>
        old(config.bytes) == original && AliasInPlace(original, Some(profile), state.assumeRolePerformed)
      ensures raised.Nothing? || Escapes(raised)
      ensures HistoryExtends(|old(config.history)|, old(config.bytes),
                             Extended(old(config.bytes), Some(profile), state.assumeRolePerformed))
    {
      var current := ReadConfig();
      if current.Failure? {
        return current.error;
      }
      if current.value != original {
        return Known(Fail(Reason.AwsConfigChangedDuringBootstrap));
      }
      var expected := ExpectedAlias(original, profile, account, state.assumeRolePerformed);
      if expected.Failure? {
        return Known(expected.error);
      }
      var existing := SectionMapping(original, DEPLOYMENT_PROFILE);
      if existing.Failure? {
        return Known(existing.error);
      }
      if existing.value.Some? {
        return if existing.value.value == expected.value then Nothing else Known(Block(LocalProfileAliasConflict));
      }
      raised := CreateAlias(state, original, expected.value);
    }

    // Record the selected profile, or that the choice was ambiguous.
    method Select(state: RunState, explicit: seq<string>, configured: seq<string>) returns (r: Result<string, Raised>)
      requires state.InProgress() && !state.sourceProfileAmbiguous && state.sourceProfile.None?
      requires state.apiOperations == [] && !state.aliasCreated && !state.aliasReverified
      modifies state`sourceProfile, state`selectionMethod, state`sourceProfileAmbiguous
      ensures state.InProgress()
      ensures r.Success? ==> Selected(state) && state.sourceProfile == Some(r.value)
      ensures r.Failure? ==>
        if state.sourceProfileAmbiguous then r.error == Known(Block(ProfileAmbiguous)) else Escapes(r.error)
    {
      var unexpected: bool := *;
      if unexpected {
        return Result.Failure(Unexpected);   // the environment or the list of profiles cannot be read
      }
      var selection := SelectSourceProfile(explicit, configured);
      if selection.Failure? {
        if selection.error.reason == ProfileAmbiguous {
          state.sourceProfileAmbiguous := true;
        }
        return Result.Failure(Known(selection.error));
      }
      state.sourceProfile, state.selectionMethod := Some(selection.value.0), selection.value.1;
      return Result.Success(selection.value.0);
    }

    // Prove the role from the selected profile, by its own identity or by assumption.
    method ProveRole(state: RunState, profile: string) returns (r: Result<string, Raised>)
      requires Selected(state) && state.sourceProfile == Some(profile)
      modifies state`apiOperations, state`sourceIdentityVerified, state`exactRoleProven,
               state`assumeRolePerformed, state`temporaryIdentityVerified
      ensures state.InProgress()
      ensures r.Success? ==>
        RoleProven(state) && AccountOf(sts) == Some(r.value) && RoleShown(sts, state.assumeRolePerformed)
      ensures r.Failure? ==> Escapes(r.error)
    {
      r := ProveSource(state, profile);
      if r.Success? && !state.exactRoleProven {
        var raised := ProveByAssumption(state, r.value);
        if !raised.Nothing? {
          return Result.Failure(raised);
        }
      }
    }

    // The configuration, provided the selected profile in it is not refused outright.
    method ReadSource(profile: string) returns (r: Result<Bytes, Raised>)
      ensures r.Success? ==> r.value == config.bytes
      ensures r.Failure? ==> Escapes(r.error)
    {
      r := ReadConfig();
      if r.Success? {
        var source := SectionMapping(r.value, profile);
        if source.Failure? {
          return Result.Failure(Known(source.error));
        }
      }
    }

    // Read the configuration, prove the role, and only then touch the configuration.
    method ProveSelected(state: RunState, profile: string) returns (raised: Raised)
      requires Selected(state) && state.sourceProfile == Some(profile)
      modifies state`apiOperations, state`sourceIdentityVerified, state`exactRoleProven,
               state`assumeRolePerformed, state`temporaryIdentityVerified, state`aliasCreated,
               state`localWriteOperations, state`aliasReverified, config
      ensures state.InProgress()
      ensures raised.Nothing? ==>
        && state.aliasReverified && RoleShown(sts, state.assumeRolePerformed)
        && AliasInPlace(old(config.bytes), Some(profile), state.assumeRolePerformed)
      ensures raised.Nothing? || Escapes(raised)
      ensures !state.aliasCreated ==> config.bytes == old(config.bytes)
      ensures config.bytes != old(config.bytes) ==> state.exactRoleProven && RoleShown(sts, state.assumeRolePerformed)
      ensures ConfigExtends(old(config.bytes), Some(profile), state.assumeRolePerformed)
      ensures HistoryExtends(|old(config.history)|, old(config.bytes),
                             Extended(old(config.bytes), Some(profile), state.assumeRolePerformed))
    {
      var original := ReadSource(profile);
      if original.Failure? {
        return original.error;
      }
      var proven := ProveRole(state, profile);
      if proven.Failure? {
        return proven.error;
      }
      raised := EnsureAlias(state, original.value, profile, proven.value);
      if raised.Nothing? {
        RecordReverification(state);
      }
    }

    method RecordReverification(state: RunState)
      requires state.InProgress() && state.exactRoleProven
      modifies state`aliasReverified
      ensures state.InProgress() && state.aliasReverified
    {
      state.aliasReverified := true;
    }

    // What the surrounding program found before a profile is chosen.
    function EarlyProblem(guard: Raised, endpointOverride: bool, configPathActive: bool): Raised {
      if !guard.Nothing? then guard
      else if endpointOverride then Known(Fail(AwsEndpointOverrideForbidden))
      else if !configPathActive then Known(Fail(AwsConfigActivePathMismatch))
      else Nothing
    }

    // A run that has made no call and touched nothing.
    predicate Beginning(state: RunState)
      reads state
    {
      && state.InProgress() && !state.sourceProfileAmbiguous && state.sourceProfile.None?
      && state.apiOperations == [] && !state.aliasCreated && !state.aliasReverified
    }

    // The configuration after a run that began with the original bytes: changed only with the role
    // shown, and then by the one alias block or a piece of it.
    twostate predicate ConfigKept(state: RunState)
      reads state, config
    {
      && (!state.aliasCreated ==> config.bytes == old(config.bytes))
      && (config.bytes != old(config.bytes) ==> state.exactRoleProven && RoleShown(sts, state.assumeRolePerformed))
      && ConfigExtends(old(config.bytes), state.sourceProfile, state.assumeRolePerformed)
      && HistoryExtends(|old(config.history)|, old(config.bytes),
                        Extended(old(config.bytes), state.sourceProfile, state.assumeRolePerformed))
    }

    // Everything between the first and the last write of a passing run.
    method Prove(state: RunState, problem: Raised, explicit: seq<string>, configured: seq<string>)
        returns (raised: Raised)
      requires Beginning(state)
      modifies state, config
      ensures state.InProgress()
      ensures raised.Nothing? ==>
        && problem.Nothing? && !state.sourceProfileAmbiguous && state.aliasReverified
        && RoleShown(sts, state.assumeRolePerformed)
        && AliasInPlace(old(config.bytes), state.sourceProfile, state.assumeRolePerformed)
      ensures !problem.Nothing? ==> raised == problem && !state.sourceProfileAmbiguous
      ensures problem.Nothing? && !raised.Nothing? ==>
        if state.sourceProfileAmbiguous then raised == Known(Block(ProfileAmbiguous)) else Escapes(raised)
      ensures ConfigKept(state)
    {
      if !problem.Nothing? {
        return problem;
      }
      var selection := Select(state, explicit, configured);
      if selection.Failure? {
        return selection.error;
      }
      raised := ProveSelected(state, selection.value);
    }

    // Conclude as passed and write the receipt once more.
    method FinishPass(state: RunState, account: string) returns (result: StoreResult)
      requires state.InProgress() && state.aliasReverified && !state.sourceProfileAmbiguous && AccountValid(account)
      requires store.Recording() && BackedUp(store.tag, store.Start(), store.files)
      modifies state`accountId, state`roleArn, state`status, state`reasons, store`files, store`trace
      ensures Coherent(state.View()) && Concluded(state.View()) && state.status == PASS && state.reasons == []
      ensures store.Recording() && store.Start() == old(store.Start())
      ensures BackedUp(store.tag, store.Start(), store.files)
      ensures result.Stored? ==> WrittenLast(state) && state.accountId == Some(account)
      ensures result.StoreFailed? ==> Reportable(result.failure) && result.failure.status == FAIL
    {
      ghost var before := state.View();
      state.accountId, state.roleArn := Some(account), Some(RoleArnOf(account));
      state.status, state.reasons := PASS, [];
      assert state.View() == Passed(before, account);
      PassConcludes(before, account);
      result := store.WritePrivateReceipt(state.View());
    }

    // The private receipt on disk is the valid one of this state.
    predicate WrittenLast(state: RunState)
      reads state, store
    {
      && ReceiptPath in store.files
      && store.files[ReceiptPath] == Canonical(PrivateReceiptOf(state.View()))
      && ValidatePrivate(PrivateReceiptOf(state.View())).None?
    }

    // The last attempt: write the receipt, report whether that worked, and validate the report.
    method Report(state: RunState) returns (outcome: RunOutcome, created: bool)
      requires store.Recording() && BackedUp(store.tag, store.Start(), store.files)
      modifies state`status, state`reasons, store`files, store`trace
      ensures state.View() == Reported(old(state.View()), created)
      ensures store.Recording() && store.Start() == old(store.Start())
      ensures outcome == Validated(PublicReceiptOf(Reported(old(state.View()), created), created))
      ensures created ==> WrittenLast(state)
    {
      var result := store.WritePrivateReceipt(state.View());
      created := result.Stored?;
      if !created {
        state.AddReason(Fail(PrivateReceiptWriteFailed));
      }
      outcome := Validated(PublicReceiptOf(state.View(), created));
    }

    // Note what was raised, write the receipt, and report.
    method Handle(state: RunState, failure: BootstrapFailure) returns (outcome: RunOutcome)
      requires Handleable(state.View(), failure)
      requires store.Recording() && BackedUp(store.tag, store.Start(), store.files)
      modifies state`status, state`reasons, store`files, store`trace
      ensures store.Recording() && store.Start() == old(store.Start())
      ensures if Misfits(failure, state.sourceProfileAmbiguous)
              then outcome == ValidatorRaised(SanitizedAuthorityReceiptStatusInvalid) else outcome.Returned?
      ensures outcome.Returned? ==>
        && ValidatePublic(outcome.payload).None? && outcome.payload.status != PASS
        && Reports(outcome.payload, state.View())
    {
      ghost var before := state.View();
      state.AddReason(failure);
      assert state.View() == AfterFailure(before, failure);
      var created;
      outcome, created := Report(state);
      HandledReport(before, failure, created);
    }

    // Conclude as passed; what goes wrong with that is handled like any failure.
    method Pass(state: RunState, account: string) returns (outcome: RunOutcome)
      requires state.InProgress() && state.aliasReverified && !state.sourceProfileAmbiguous && AccountValid(account)
      requires store.Recording() && BackedUp(store.tag, store.Start(), store.files)
      modifies state`accountId, state`roleArn, state`status, state`reasons, store`files, store`trace
      ensures store.Recording() && store.Start() == old(store.Start())
      ensures outcome.Returned? && ValidatePublic(outcome.payload).None?
      ensures Reports(outcome.payload, state.View())
      ensures outcome.payload.status == PASS ==>
        WrittenLast(state) && state.status == PASS && state.accountId == Some(account)
    {
      var result := FinishPass(state, account);
      if result.Stored? {
        PublicReceiptAccepted(state.View(), true);
        return Returned(PublicReceiptOf(state.View(), true));
      }
      outcome :=
        Handle(state, if result.StoreFailed? then result.failure else Fail(AuthorityBootstrapInternalFailure));
    }

    // Pass when nothing was raised, else handle what was, an unexpected exception as an internal failure.
    method Decide(state: RunState, raised: Raised) returns (outcome: RunOutcome)
      requires state.InProgress()
      requires raised.Nothing? ==> state.aliasReverified && !state.sourceProfileAmbiguous && AccountOf(sts).Some?
      requires store.Recording() && BackedUp(store.tag, store.Start(), store.files)
      modifies state`accountId, state`roleArn, state`status, state`reasons, store`files, store`trace
      ensures store.Recording() && store.Start() == old(store.Start())
      ensures if !raised.Nothing? && Misfits(FailureOf(raised), state.sourceProfileAmbiguous)
              then outcome == ValidatorRaised(SanitizedAuthorityReceiptStatusInvalid) else outcome.Returned?
      ensures outcome.Returned? ==>
        && ValidatePublic(outcome.payload).None?
        && Reports(outcome.payload, state.View())
      ensures outcome.Returned? && outcome.payload.status == PASS ==>
        raised.Nothing? && WrittenLast(state) && state.status == PASS && state.accountId == AccountOf(sts)
    {
      if raised.Nothing? {
        outcome := Pass(state, AccountOf(sts).value);
      } else {
        outcome := Handle(state, FailureOf(raised));
      }
    }

    // The guarded part of a run, and the handling of whatever it raises.
    method Conclude(state: RunState, problem: Raised, explicit: seq<string>, configured: seq<string>)
        returns (outcome: RunOutcome)
      requires Beginning(state)
      requires store.Recording() && BackedUp(store.tag, store.Start(), store.files)
      modifies state, config, store`files, store`trace
      ensures store.Recording() && store.Start() == old(store.Start())
      ensures if Unreportable(problem) then outcome == ValidatorRaised(SanitizedAuthorityReceiptStatusInvalid)
              else outcome.Returned?
      ensures outcome.Returned? ==>
        && ValidatePublic(outcome.payload).None?
        && Reports(outcome.payload, state.View())
      ensures outcome.Returned? && outcome.payload.status == PASS ==>
        && WrittenLast(state) && state.status == PASS && state.accountId == AccountOf(sts)
        && RoleShown(sts, state.assumeRolePerformed)
        && AliasInPlace(old(config.bytes), state.sourceProfile, state.assumeRolePerformed)
      ensures ConfigKept(state)
    {
      var raised := Prove(state, problem, explicit, configured);
      outcome := Decide(state, raised);
    }

    /**
     One run. problem is what the repository guard, the endpoint variables and the active
     configuration path leave to report; clock is None for a time without a zone.

     Whatever STS and the file operations answer, and whatever else is raised on the way: a
     validator raises exactly when the problem's reason cannot be reported; the configuration
     changes only after STS showed the role, by the one alias block or a piece of it; and a
     reported pass is on disk, with the role shown and the alias in place.
     */
    method Run(problem: Raised, explicit: seq<string>, configured: seq<string>, clock: Option<int>, nonce: string)
        returns (outcome: RunOutcome, ghost final: State)
      modifies config, store
      ensures store.Recording() && store.Start() == old(store.files)
      ensures outcome.Aborted? ==> Reportable(outcome.failure)
      ensures outcome.Aborted? || outcome.AbortedUnexpectedly? || (outcome.ValidatorRaised? <==> Unreportable(problem))
      ensures outcome.ValidatorRaised? ==> outcome.reason == SanitizedAuthorityReceiptStatusInvalid
      ensures outcome.Returned? ==> ValidatePublic(outcome.payload).None? && Reports(outcome.payload, final)
      ensures outcome.Returned? && outcome.payload.status == PASS ==>
        && PassOnDisk(final)
        && RoleShown(sts, final.assumeRolePerformed)
        && AliasInPlace(old(config.bytes), final.sourceProfile, final.assumeRolePerformed)
      ensures !final.aliasCreated ==> config.bytes == old(config.bytes)
      ensures config.bytes != old(config.bytes) ==> final.exactRoleProven && RoleShown(sts, final.assumeRolePerformed)
      ensures ConfigExtends(old(config.bytes), final.sourceProfile, final.assumeRolePerformed)
      ensures HistoryExtends(|old(config.history)|, old(config.bytes),
                             Extended(old(config.bytes), final.sourceProfile, final.assumeRolePerformed))
    {
      store.Begin();
      final := State(Seconds(0), nonce, BLOCKED, [], NotSelected, None, false, false, false, false, false, false, false,
                     None, None, [], []);
      var early: Option<BootstrapFailure>, unexpected: bool := *, *;
      if early.Some? && Reportable(early.value) {
        return Aborted(early.value), final;   // path collision, forbidden or unprotected output
      }
      if unexpected {
        return AbortedUnexpectedly, final;
      }
      var preserved := store.PreserveExisting();
      if !preserved.Stored? {
        return AbortBy(preserved), final;
      }
      if clock.None? {
        return Aborted(Fail(BootstrapClockInvalid)), final;
      }
      if !NonceValid(nonce) {
        return Aborted(Fail(BootstrapNonceInvalid)), final;
      }
      var state := new RunState(Seconds(clock.value), nonce, BLOCKED, [BootstrapInProgress]);
      PrivateReceiptAccepted(state.View());
      var first := store.WritePrivateReceipt(state.View());
      if !first.Stored? {
        return AbortBy(first), final;
      }
      outcome := Conclude(state, problem, explicit, configured);
      final := state.View();
    }

    // The private receipt on disk is that of the state, valid, and a pass for the account STS named.
    predicate PassOnDisk(final: State)
      reads store
    {
      && ReceiptPath in store.files
      && store.files[ReceiptPath] == Canonical(PrivateReceiptOf(final))
      && ValidatePrivate(PrivateReceiptOf(final)).None?
      && final.status == PASS && final.accountId == AccountOf(sts)
    }

    // The default repository guard: five Git questions, five public reasons.
    method DefaultGuard() returns (problem: Raised)
      ensures problem.Nothing? || Escapes(problem)
    {
      var available: bool, onMain: bool, clean: bool, pushed: bool, tagged: bool, unexpected: bool := *, *, *, *, *, *;
      return if unexpected then Unexpected
             else if !available then Known(Fail(RepositoryGitUnavailable))
             else if !onMain then Known(Fail(RepositoryBranchInvalid))
             else if !clean then Known(Fail(RepositoryWorktreeNotClean))
             else if !pushed then Known(Fail(RepositoryMainNotOriginMain))
             else if !tagged then Known(Fail(RepositoryPhase1TagDrift))
             else Nothing;
    }

    // A payload for what was raised outside the guarded part.
    method PayloadFor(failure: BootstrapFailure) returns (payload: PublicReceipt)
      requires Reportable(failure)
      ensures ValidatePublic(payload).None? && payload.status != PASS && !payload.privateReceiptCreated
    {
      var state := new RunState(
        Seconds(0), "00000000000000000000000000000000", failure.status, [failure.reason]);
      payload := PublicReceiptOf(state.View(), false);
    }

    // The command with the default guard: some accepted payload at every exit, and no validator
    // raises on the way.
    method RunCommand(explicit: seq<string>, configured: seq<string>, endpointOverride: bool, configPathActive: bool,
                      clock: Option<int>, nonce: string)
        returns (payload: PublicReceipt, ghost final: State)
      modifies config, store
      ensures ValidatePublic(payload).None?
      ensures store.Recording() && store.Start() == old(store.files)
      ensures payload.status == PASS ==>
        && PassOnDisk(final)
        && RoleShown(sts, final.assumeRolePerformed)
        && AliasInPlace(old(config.bytes), final.sourceProfile, final.assumeRolePerformed)
      ensures config.bytes != old(config.bytes) ==>
        final.exactRoleProven && final.aliasCreated && RoleShown(sts, final.assumeRolePerformed)
      ensures HistoryExtends(|old(config.history)|, old(config.bytes),
                             Extended(old(config.bytes), final.sourceProfile, final.assumeRolePerformed))
    {
      var guard := DefaultGuard();
      var outcome;
      outcome, final := Run(
        EarlyProblem(guard, endpointOverride, configPathActive), explicit, configured, clock, nonce);
      match outcome
      case Returned(accepted) => payload := accepted;
      case Aborted(failure) => payload := PayloadFor(failure);
      case AbortedUnexpectedly => payload := PayloadFor(Fail(AuthorityBootstrapInternalFailure));
      case ValidatorRaised(_) => assert false;
    }
  }
}
