/**
 The receipts of the operator bootstrap: the state they are written from, the private and the
 public form, and the two closed validators.
 */
module AuthorityReceipt {
  import opened Wrappers
  import opened SdkValues

  const REGION := "eu-central-1"
  const DEPLOYMENT_PROFILE := "aioa-day15-deployer"
  const DEPLOYMENT_ROLE_LEAF := "AIOANonZeroCloudOpsDay15DeploymentRole"

  // The public reason codes; anything else a caller may raise is OtherReason.
  datatype Reason =
    | AssumedRoleIdentityMismatch
    | AssumeRoleResponseInvalid
    | AuthorityBootstrapInternalFailure
    | AwsConfigActivePathMismatch
    | AwsConfigChangedDuringBootstrap
    | AwsEndpointOverrideForbidden
    | AwsConfigInvalid
    | AwsConfigProfileUnsafe
    | AwsConfigProtectionInvalid
    | AwsConfigUnavailable
    | BootstrapClockInvalid
    | BootstrapInProgress
    | BootstrapNonceInvalid
    | ConfiguredProfileNameInvalid
    | DeploymentProfileAliasAuthenticationRequired
    | DeploymentProfileAliasIdentityMismatch
    | ExactDeploymentRoleNotAssumable
    | ExplicitSourceProfileUnavailable
    | LocalPathInvalid
    | LocalPathSymlinkForbidden
    | LocalProfileAliasConflict
    | LocalProfileAliasReverifyFailed
    | LocalProfileAliasRollbackConflict
    | LocalProfileAliasRollbackFailed
    | PrivateReceiptAlreadyExistsInvalid
    | PrivateReceiptBackupConflict
    | PrivateReceiptGitCheckFailed
    | PrivateReceiptIgnoredPathRequired
    | PrivateReceiptModeInvalid
    | PrivateReceiptPathCollision
    | PrivateReceiptProtectionInvalid
    | PrivateReceiptRepositoryPathForbidden
    | PrivateReceiptTooLarge
    | PrivateReceiptWriteFailed
    | PrivateAuthorityReceiptSchemaInvalid
    | PrivateAuthorityReceiptStatusInvalid
    | ProfileAmbiguous
    | RepositoryBranchInvalid
    | RepositoryGitUnavailable
    | RepositoryMainNotOriginMain
    | RepositoryPhase1TagDrift
    | RepositoryWorktreeNotClean
    | RootSourcePrincipalForbidden
    | SanitizedAuthorityReceiptSchemaInvalid
    | SanitizedAuthorityReceiptStatusInvalid
    | SourceProfileAuthenticationRequired
    | SourceProfileConfigRequired
    | SourceProfileAliasAuthorityUnproven
    | SourceProfileRequired
    | SourceSessionProfileMismatch
    | StsIdentityResponseInvalid
    | TemporaryRoleIdentityUnavailable
    | TemporaryRoleSessionUnavailable
    | OtherReason(text: string)

  datatype Status = PASS | BLOCKED | FAIL | OtherStatus(text: string)

  datatype BootstrapFailure = BootstrapFailure(reason: Reason, status: Status)

  function Fail(reason: Reason): BootstrapFailure { BootstrapFailure(reason, FAIL) }
  function Block(reason: Reason): BootstrapFailure { BootstrapFailure(reason, BLOCKED) }

  datatype StsOperation = GetCallerIdentity | AssumeRole | OtherOperation(name: string)

  datatype ApiEntry = ApiEntry(operation: StsOperation, sequence: int, write: bool)

  datatype SelectionMethod =
    NotSelected | ExplicitEnvironmentProfile | UniqueLocalProfile | OtherMethod(text: string)

  datatype LocalWrite = PutProfileAlias | OtherWrite(text: string)

  // The text of an instant: canonical seconds, or anything else.
  datatype Timestamp = Seconds(n: int) | Malformed(text: string)

  // What a run knows, field by field.
  datatype State = State(
    observedAt: Timestamp,
    receiptNonce: string,
    status: Status,
    reasons: seq<Reason>,
    selectionMethod: SelectionMethod,
    sourceProfile: Option<string>,
    sourceProfileAmbiguous: bool,
    sourceIdentityVerified: bool,
    assumeRolePerformed: bool,
    temporaryIdentityVerified: bool,
    exactRoleProven: bool,
    aliasCreated: bool,
    aliasReverified: bool,
    accountId: Option<string>,
    roleArn: Option<Arn>,
    apiOperations: seq<ApiEntry>,
    localWriteOperations: seq<LocalWrite>)

  datatype PrivateReceipt = PrivateReceipt(
    schemaVersion: int,
    region: string,
    status: Status,
    reasons: seq<Reason>,
    observedAt: Timestamp,
    receiptNonce: string,
    directStsOperations: seq<ApiEntry>,
    deploymentProfile: string,
    deploymentRoleArn: Option<Arn>,
    expectedAccountId: Option<string>,
    awsStateChanged: bool,
    credentialsPersisted: bool,
    iamRoleCreated: bool,
    localProfileStateChanged: bool,
    localProfileWriteOperations: seq<LocalWrite>,
    ambiguous: bool,
    selectionMethod: SelectionMethod,
    sourceProfile: Option<string>,
    aliasCreated: bool,
    aliasReverified: bool,
    assumeRolePerformed: bool,
    exactDeploymentRoleProven: bool,
    sourceIdentityVerified: bool,
    sourceProfileSelected: bool,
    temporaryAssumedIdentityVerified: bool)

  datatype PublicReceipt = PublicReceipt(
    schemaVersion: int,
    status: Status,
    reasons: seq<Reason>,
    sanitized: bool,
    awsStateChanged: bool,
    credentialsPersisted: bool,
    iamRoleCreated: bool,
    privateReceiptCreated: bool,
    exactDeploymentRoleProven: bool,
    localProfileAliasCreated: bool,
    localProfileAliasReverified: bool,
    sourceIdentityVerified: bool,
    sourceProfileAmbiguous: bool,
    sourceProfileSelected: bool,
    stsAssumeRolePerformed: bool,
    temporaryAssumedIdentityVerified: bool)

  function PrivateReceiptOf(s: State): PrivateReceipt {
    var passed := s.status == PASS;
    PrivateReceipt(
      1, REGION, s.status, s.reasons, s.observedAt, s.receiptNonce, s.apiOperations, DEPLOYMENT_PROFILE,
      if passed then s.roleArn else None, if passed then s.accountId else None, false, false, false,
      s.aliasCreated, s.localWriteOperations, s.sourceProfileAmbiguous, s.selectionMethod, s.sourceProfile,
      s.aliasCreated, s.aliasReverified, s.assumeRolePerformed, s.exactRoleProven, s.sourceIdentityVerified,
      s.sourceProfile.Some?, s.temporaryIdentityVerified)
  }

  function PublicReceiptOf(s: State, privateReceiptCreated: bool): PublicReceipt {
    PublicReceipt(
      1, s.status, s.reasons, true, false, false, false, privateReceiptCreated, s.exactRoleProven,
      s.aliasCreated, s.aliasReverified, s.sourceIdentityVerified, s.sourceProfileAmbiguous,
      s.sourceProfile.Some?, s.assumeRolePerformed, s.temporaryIdentityVerified)
  }

  // ---------- Shapes ----------

  predicate Digit(c: char) { '0' <= c <= '9' }

  predicate Alphanumeric(c: char) { Digit(c) || 'A' <= c <= 'Z' || 'a' <= c <= 'z' }

  predicate ProfileValid(profile: string) {
    1 <= |profile| <= 128 && Alphanumeric(profile[0]) &&
    forall c | c in profile :: Alphanumeric(c) || c in {'_', '.', '@', '+', '-'}
  }

  predicate AccountValid(account: string) { |account| == 12 && forall c | c in account :: Digit(c) }

  predicate NonceValid(nonce: string) {
    32 <= |nonce| <= 128 && forall c | c in nonce :: Digit(c) || 'a' <= c <= 'f'
  }

  function RoleArnOf(account: string): Arn { RoleArn(account, "", DEPLOYMENT_ROLE_LEAF) }

  predicate NoDuplicates<T(==)>(s: seq<T>) {
    forall i, j | 0 <= i < j < |s| :: s[i] != s[j]
  }

  // Every reason is public and none is repeated.
  predicate ReasonsValid(reasons: seq<Reason>) {
    NoDuplicates(reasons) && forall r | r in reasons :: !r.OtherReason?
  }

  // ---------- The recorded STS calls ----------

  const DIRECT: seq<StsOperation> := [GetCallerIdentity]
  const ASSUMED: seq<StsOperation> := [GetCallerIdentity, AssumeRole, GetCallerIdentity]

  function Names(entries: seq<ApiEntry>): (names: seq<StsOperation>)
    ensures |names| == |entries|
    ensures forall i | 0 <= i < |entries| :: names[i] == entries[i].operation
  {
    seq(|entries|, i requires 0 <= i < |entries| => entries[i].operation)
  }

  predicate EntryValid(entry: ApiEntry, sequence: int) {
    entry.sequence == sequence && !entry.write && !entry.operation.OtherOperation?
  }

  function CountAssume(names: seq<StsOperation>): nat {
    if names == [] then 0 else CountAssume(names[..|names| - 1]) + if names[|names| - 1] == AssumeRole then 1 else 0
  }

  predicate EntriesValid(entries: seq<ApiEntry>) {
    && (forall i | 0 <= i < |entries| :: EntryValid(entries[i], i + 1))
    && CountAssume(Names(entries)) <= 1
  }

  // The names of well-formed entries with at most one assumption, otherwise nothing.
  method ApiOperationNames(entries: seq<ApiEntry>) returns (names: Option<seq<StsOperation>>)
    ensures names.Some? <==> EntriesValid(entries)
    ensures names.Some? ==> names.value == Names(entries)
  {
    var assumeCount, collected := 0, [];
    for index := 0 to |entries|
      invariant collected == Names(entries)[..index]
      invariant forall i | 0 <= i < index :: EntryValid(entries[i], i + 1)
      invariant assumeCount == CountAssume(collected)
    {
      if !EntryValid(entries[index], index + 1) {
        return None;
      }
      collected := collected + [entries[index].operation];
      assert collected[..|collected| - 1] == Names(entries)[..index];
      if entries[index].operation == AssumeRole {
        assumeCount := assumeCount + 1;
      }
    }
    assert collected == Names(entries);
    if assumeCount > 1 {
      return None;
    }
    return Some(collected);
  }

  // One of the two call sequences, or a beginning of it.
  predicate SequenceValid(names: seq<StsOperation>) {
    names <= DIRECT || names <= ASSUMED
  }

  // ---------- The private validator ----------

  predicate PrivateSchemaValid(r: PrivateReceipt) {
    && r.schemaVersion == 1
    && r.region == REGION
    && !r.status.OtherStatus?
    && ReasonsValid(r.reasons)
    && !r.awsStateChanged
    && !r.credentialsPersisted
    && !r.iamRoleCreated
    && (forall w | w in r.localProfileWriteOperations :: w == PutProfileAlias)
    && NonceValid(r.receiptNonce)
    && r.observedAt.Seconds?
  }

  predicate SelectionValid(r: PrivateReceipt) {
    && !r.selectionMethod.OtherMethod?
    && r.sourceProfileSelected == r.sourceProfile.Some?
    && (r.sourceProfile.Some? ==> ProfileValid(r.sourceProfile.value))
    && r.sourceProfileSelected == (r.selectionMethod != NotSelected)
    && !(r.ambiguous && r.sourceProfileSelected)
    && r.ambiguous == (ProfileAmbiguous in r.reasons)
  }

  predicate ProofValid(r: PrivateReceipt, names: seq<StsOperation>) {
    && !(r.sourceIdentityVerified && (!r.sourceProfileSelected || names == []))
    && r.assumeRolePerformed == (AssumeRole in names)
    && !(r.temporaryAssumedIdentityVerified && (!r.assumeRolePerformed || !(ASSUMED <= names)))
    && !(r.exactDeploymentRoleProven && !r.sourceIdentityVerified)
    && !(r.exactDeploymentRoleProven && r.assumeRolePerformed && !r.temporaryAssumedIdentityVerified)
    && !(r.aliasReverified && (!r.exactDeploymentRoleProven || (names != DIRECT && names != ASSUMED)))
    && r.localProfileStateChanged == r.aliasCreated
    && (r.localProfileWriteOperations == [PutProfileAlias]) == r.aliasCreated
  }

  predicate OutcomeValid(r: PrivateReceipt) {
    if r.status == PASS then
      && r.reasons == []
      && r.expectedAccountId.Some? && AccountValid(r.expectedAccountId.value)
      && r.deploymentRoleArn == Some(RoleArnOf(r.expectedAccountId.value))
      && r.deploymentProfile == DEPLOYMENT_PROFILE
      && r.sourceProfileSelected
      && r.sourceIdentityVerified
      && r.exactDeploymentRoleProven
      && r.aliasReverified
      && r.assumeRolePerformed == r.temporaryAssumedIdentityVerified
    else
      && r.reasons != []
      && r.expectedAccountId.None?
      && r.deploymentRoleArn.None?
      && r.deploymentProfile == DEPLOYMENT_PROFILE
  }

  // The reason a receipt is rejected with, if it is.
  function ValidatePrivate(r: PrivateReceipt): Option<Reason> {
    if !PrivateSchemaValid(r) then Some(PrivateAuthorityReceiptSchemaInvalid)
    else
      var names := Names(r.directStsOperations);
      if !EntriesValid(r.directStsOperations) || !SequenceValid(names) || !SelectionValid(r)
         || !ProofValid(r, names) || !OutcomeValid(r) then Some(PrivateAuthorityReceiptStatusInvalid)
      else None
  }

  // ---------- The public validator ----------

  function ValidatePublic(r: PublicReceipt): Option<Reason> {
    if r.schemaVersion != 1 || r.status.OtherStatus? || !r.sanitized || r.awsStateChanged || r.credentialsPersisted
       || r.iamRoleCreated then Some(SanitizedAuthorityReceiptSchemaInvalid)
    else if !ReasonsValid(r.reasons) || (r.status == PASS) == (r.reasons != [])
            || (r.sourceProfileAmbiguous && r.sourceProfileSelected)
            || r.sourceProfileAmbiguous != (ProfileAmbiguous in r.reasons)
            || (r.sourceIdentityVerified && !r.sourceProfileSelected)
            || (r.temporaryAssumedIdentityVerified && !r.stsAssumeRolePerformed)
            || (r.exactDeploymentRoleProven && !r.sourceIdentityVerified)
            || (r.exactDeploymentRoleProven && r.stsAssumeRolePerformed && !r.temporaryAssumedIdentityVerified)
            || (r.localProfileAliasReverified && !r.exactDeploymentRoleProven)
            || (r.localProfileAliasCreated && !r.exactDeploymentRoleProven)
            || (r.status == PASS &&
                (!r.sourceProfileSelected || !r.sourceIdentityVerified || !r.exactDeploymentRoleProven
                 || !r.localProfileAliasReverified
                 || r.stsAssumeRolePerformed != r.temporaryAssumedIdentityVerified
                 || !r.privateReceiptCreated)) then Some(SanitizedAuthorityReceiptStatusInvalid)
    else None
  }

  // ---------- What a run keeps ----------

  // The evidence a run has gathered so far hangs together, the recorded profile writes apart.
  predicate Evidenced(s: State) {
    && s.observedAt.Seconds?
    && NonceValid(s.receiptNonce)
    && !s.selectionMethod.OtherMethod?
    && (s.sourceProfile.Some? <==> s.selectionMethod != NotSelected)
    && (s.sourceProfile.Some? ==> ProfileValid(s.sourceProfile.value) && !s.sourceProfileAmbiguous)
    && (forall i | 0 <= i < |s.apiOperations| :: EntryValid(s.apiOperations[i], i + 1))
    && SequenceValid(Names(s.apiOperations))
    && s.assumeRolePerformed == (AssumeRole in Names(s.apiOperations))
    && (s.sourceIdentityVerified ==> s.sourceProfile.Some? && s.apiOperations != [])
    && (s.temporaryIdentityVerified ==> Names(s.apiOperations) == ASSUMED)
    && (s.exactRoleProven ==>
          s.sourceIdentityVerified && Names(s.apiOperations) == if s.assumeRolePerformed then ASSUMED else DIRECT)
    && (s.exactRoleProven && s.assumeRolePerformed ==> s.temporaryIdentityVerified)
    && (s.aliasReverified ==> s.exactRoleProven)
    && (s.aliasCreated ==> s.exactRoleProven)
  }

  // The evidence hangs together, and the profile write is recorded exactly when the alias was created.
  predicate Coherent(s: State) {
    Evidenced(s) && s.localWriteOperations == (if s.aliasCreated then [PutProfileAlias] else [])
  }

  // What the validators ask of the recorded writes: without an alias, any number of writes but one.
  predicate WritesAccepted(s: State) {
    && (forall w | w in s.localWriteOperations :: w == PutProfileAlias)
    && (s.localWriteOperations == [PutProfileAlias]) == s.aliasCreated
  }

  // The reasons and the status that go with the evidence.
  predicate Concluded(s: State) {
    && ReasonsValid(s.reasons)
    && s.sourceProfileAmbiguous == (ProfileAmbiguous in s.reasons)
    && if s.status == PASS then
         && s.reasons == []
         && s.accountId.Some? && AccountValid(s.accountId.value)
         && s.roleArn == Some(RoleArnOf(s.accountId.value))
         && s.aliasReverified
       else s.reasons != [] && !s.status.OtherStatus?
  }

  lemma {:induction false} BeginningsAssumeOnce(names: seq<StsOperation>)
    requires SequenceValid(names)
    ensures CountAssume(names) <= 1
  {
    assert |names| <= 3;
    if |names| > 0 {
      var one := names[..|names| - 1];
      if |one| > 0 {
        var two := one[..|one| - 1];
        assert |two| > 0 ==> CountAssume(two) == CountAssume(two[..0]) + if two[0] == AssumeRole then 1 else 0;
      }
    }
  }

  // A concluded state with its evidence yields a private receipt its validator accepts ...
  lemma PrivateReceiptAccepted(s: State)
    requires Evidenced(s) && WritesAccepted(s) && Concluded(s)
    ensures ValidatePrivate(PrivateReceiptOf(s)).None?
  {
    BeginningsAssumeOnce(Names(s.apiOperations));
  }

  // ... and a public one, provided a pass is only reported with the private receipt written.
  lemma PublicReceiptAccepted(s: State, created: bool)
    requires Evidenced(s) && Concluded(s)
    ensures ValidatePublic(PublicReceiptOf(s, created)).None? <==> (s.status == PASS ==> created)
  {
    if s.temporaryIdentityVerified {
      assert Names(s.apiOperations)[1] == AssumeRole;
    }
  }

  lemma NamesOfBeginning(names: seq<StsOperation>)
    requires SequenceValid(names) && names != []
    ensures names == if AssumeRole !in names then DIRECT else if |names| == 3 then ASSUMED else ASSUMED[..2]
  {
    assert ASSUMED[1] == AssumeRole;
    assert |names| >= 2 ==> names[1] == AssumeRole;
    assert names[0] == GetCallerIdentity;
  }

  lemma AcceptedIsEvidenced(s: State)
    requires ValidatePrivate(PrivateReceiptOf(s)).None? && ValidatePublic(PublicReceiptOf(s, true)).None?
    ensures Evidenced(s) && WritesAccepted(s) && Concluded(s)
  {
    var r, names := PrivateReceiptOf(s), Names(s.apiOperations);
    if names != [] {
      NamesOfBeginning(names);
    }
    assert PrivateSchemaValid(r) && ProofValid(r, names);
  }

  // The two validators together accept exactly the concluded states whose evidence hangs together
  // and whose writes are profile writes, one if and only if the alias was created.
  lemma AcceptedExactly(s: State)
    ensures ValidatePrivate(PrivateReceiptOf(s)).None? && ValidatePublic(PublicReceiptOf(s, true)).None?
            <==> Evidenced(s) && WritesAccepted(s) && Concluded(s)
  {
    if Evidenced(s) && WritesAccepted(s) && Concluded(s) {
      PrivateReceiptAccepted(s);
      PublicReceiptAccepted(s, true);
    } else if ValidatePrivate(PrivateReceiptOf(s)).None? && ValidatePublic(PublicReceiptOf(s, true)).None? {
      AcceptedIsEvidenced(s);
    }
  }

  // With at most one recorded write, acceptance is coherence.
  lemma OneWriteIsCoherent(s: State)
    requires Evidenced(s) && WritesAccepted(s)
    ensures Coherent(s) <==> |s.localWriteOperations| <= 1
  {
    if |s.localWriteOperations| == 1 {
      assert s.localWriteOperations[0] in s.localWriteOperations;
      assert s.localWriteOperations == [PutProfileAlias];
    }
  }

  // Without an alias, a write that never happened may be listed twice, and nothing is refused.
  lemma DoubledWriteIsAccepted(s: State)
    requires Coherent(s) && Concluded(s) && !s.aliasCreated
    ensures var doubled := s.(localWriteOperations := [PutProfileAlias, PutProfileAlias]);
            && ValidatePrivate(PrivateReceiptOf(doubled)).None?
            && ValidatePublic(PublicReceiptOf(doubled, true)).None?
            && !Coherent(doubled)
  {
    AcceptedExactly(s.(localWriteOperations := [PutProfileAlias, PutProfileAlias]));
  }
}
