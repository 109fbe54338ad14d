/**
 The observer as it runs: one context object, six stages in a fixed order, one receipt.

 Creating a client, calling AWS and the JSON size limit answer as the given world says.
 */
module ObserverRun {
  import opened Wrappers
  import opened SdkValues
  import opened PreflightReceipt
  import opened Observer
  import opened Answers

  // ---------- Reasons of one stage ----------

  // A reason that is seen by its prefix, or a failed call to one of the operations left without an
  // observation.
  predicate Accounted(r: Reason, gaps: set<Operation>) {
    SeenByPrefix(r) || ((r.AwsCallFailed? || r.AwsResponseInvalid?) && r.op in gaps)
  }

  ghost predicate NewReasons(before: seq<Reason>, after: seq<Reason>, gaps: set<Operation>) {
    && (forall r | r in after :: r in before || Accounted(r, gaps))
    && (after == [] ==> before == [])
  }

  function Gap(op: Operation, missing: bool): set<Operation> {
    if missing then {op} else {}
  }

  lemma ReasonNoted(before: seq<Reason>, after: seq<Reason>, gaps: set<Operation>, reason: Reason)
    requires NewReasons(before, after, gaps) && Accounted(reason, gaps)
    ensures NewReasons(before, Note(after, reason), gaps)
  {
  }

  lemma GapsWiden(before: seq<Reason>, after: seq<Reason>, gaps: set<Operation>, wider: set<Operation>)
    requires NewReasons(before, after, gaps) && gaps <= wider
    ensures NewReasons(before, after, wider)
  {
    forall r | r in after && r !in before
      ensures Accounted(r, wider)
    {
      assert Accounted(r, gaps);
    }
  }

  lemma ReasonsAddUp(
    before: seq<Reason>, middle: seq<Reason>, after: seq<Reason>, earlier: set<Operation>, later: set<Operation>,
    gaps: set<Operation>)
    requires NewReasons(before, middle, earlier) && NewReasons(middle, after, later)
    requires earlier <= gaps && later <= gaps
    ensures NewReasons(before, after, gaps)
  {
    forall r | r in after && r !in before
      ensures Accounted(r, gaps)
    {
      if r in middle {
        assert Accounted(r, earlier);
      } else {
        assert Accounted(r, later);
      }
    }
  }

  // Reasons that are accounted for are explained by observations with all those gaps.
  lemma SettledFurther(before: seq<Reason>, after: seq<Reason>, gaps: set<Operation>, o: Observations)
    requires Settled(before, o) && NewReasons(before, after, gaps) && forall op | op in gaps :: Missing(op, o)
    ensures Settled(after, o)
  {
    forall r | r in after
      ensures Explained(r, o)
    {
      if r !in before {
        assert Accounted(r, gaps);
      }
    }
  }

  // ---------- Canonical copies keep what the tests look at ----------

  lemma FieldOfCanonicalCopy(v: Value, key: string)
    ensures Field(Normalize(v), key) == Normalize(Field(v, key))
  {
  }

  lemma ItemsOfCanonicalCopy(v: Value)
    requires v.List?
    ensures Normalize(v).List? && |Normalize(v).items| == |v.items|
    ensures forall i | 0 <= i < |v.items| :: Normalize(v).items[i] == Normalize(v.items[i])
  {
  }

  lemma RuleSurvives(rule: Value)
    requires Encrypts(rule)
    ensures Encrypts(Normalize(rule))
  {
    FieldOfCanonicalCopy(rule, "ApplyServerSideEncryptionByDefault");
    FieldOfCanonicalCopy(Field(rule, "ApplyServerSideEncryptionByDefault"), "SSEAlgorithm");
  }

  lemma EncryptionSurvives(fields: Mapping)
    requires IsEncrypted(fields)
    ensures IsEncrypted(WithoutMetadata(fields))
  {
    var configuration := Get(fields, "ServerSideEncryptionConfiguration");
    FieldOfCanonicalCopy(configuration, "Rules");
    var rules := Field(configuration, "Rules");
    ItemsOfCanonicalCopy(rules);
    var i :| 0 <= i < |rules.items| && Encrypts(rules.items[i]);
    RuleSurvives(rules.items[i]);
    assert Get(WithoutMetadata(fields), "ServerSideEncryptionConfiguration") == Normalize(configuration);
  }

  lemma PublicAccessSurvives(fields: Mapping)
    requires BlocksPublicAccess(fields)
    ensures BlocksPublicAccess(WithoutMetadata(fields))
  {
    var configuration := Get(fields, "PublicAccessBlockConfiguration");
    FieldOfCanonicalCopy(configuration, "BlockPublicAcls");
    FieldOfCanonicalCopy(configuration, "BlockPublicPolicy");
    FieldOfCanonicalCopy(configuration, "IgnorePublicAcls");
    FieldOfCanonicalCopy(configuration, "RestrictPublicBuckets");
    assert Get(WithoutMetadata(fields), "PublicAccessBlockConfiguration") == Normalize(configuration);
  }

  lemma OwnershipSurvives(fields: Mapping)
    requires OwnerEnforced(fields)
    ensures OwnerEnforced(WithoutMetadata(fields))
  {
    var controls := Get(fields, "OwnershipControls");
    FieldOfCanonicalCopy(controls, "Rules");
    var rules := Field(controls, "Rules");
    ItemsOfCanonicalCopy(rules);
    var i :| 0 <= i < |rules.items| && Field(rules.items[i], "ObjectOwnership") == Text("BucketOwnerEnforced");
    FieldOfCanonicalCopy(rules.items[i], "ObjectOwnership");
    assert Get(WithoutMetadata(fields), "OwnershipControls") == Normalize(controls);
  }

  lemma DaysSurvive(rule: Value, section: string, key: string)
    requires DaysBounded(Field(Field(rule, section), key))
    ensures DaysBounded(Field(Field(Normalize(rule), section), key))
  {
    FieldOfCanonicalCopy(rule, section);
    FieldOfCanonicalCopy(Field(rule, section), key);
  }

  lemma RulePrefixSurvives(rule: Value)
    ensures RulePrefix(Normalize(rule)) == Normalize(RulePrefix(rule))
  {
    FieldOfCanonicalCopy(rule, "Filter");
    FieldOfCanonicalCopy(rule, "Prefix");
    FieldOfCanonicalCopy(Field(rule, "Filter"), "Prefix");
  }

  lemma LifecycleRuleSurvives(rule: Value, prefix: string)
    requires LifecycleRuleBounded(rule, prefix)
    ensures LifecycleRuleBounded(Normalize(rule), prefix)
  {
    FieldOfCanonicalCopy(rule, "Status");
    RulePrefixSurvives(rule);
    DaysSurvive(rule, "Expiration", "Days");
    DaysSurvive(rule, "NoncurrentVersionExpiration", "NoncurrentDays");
  }

  lemma LifecycleSurvives(fields: Mapping, prefix: string)
    requires LifecycleIsBounded(fields, prefix)
    ensures LifecycleIsBounded(WithoutMetadata(fields), prefix)
  {
    var rules := Get(fields, "Rules");
    ItemsOfCanonicalCopy(rules);
    var i :| 0 <= i < |rules.items| && LifecycleRuleBounded(rules.items[i], prefix);
    LifecycleRuleSurvives(rules.items[i], prefix);
    assert Get(WithoutMetadata(fields), "Rules") == Normalize(rules);
    assert LifecycleRuleBounded(Normalize(rules).items[i], prefix);
  }

  // A part that passes on the raw answer passes again on the stored copy of it.
  lemma PartSurvives(part: BucketPart, fields: Mapping, contract: Contract)
    requires PartIsValid(part, fields, contract)
    ensures PartIsValid(part, WithoutMetadata(fields), contract)
  {
    match part
    case Location =>
      assert Get(WithoutMetadata(fields), "LocationConstraint") == Normalize(Get(fields, "LocationConstraint"));
    case Encryption => EncryptionSurvives(fields);
    case PublicAccessBlock => PublicAccessSurvives(fields);
    case Ownership => OwnershipSurvives(fields);
    case Versioning =>
      assert Get(WithoutMetadata(fields), "Status") == Normalize(Get(fields, "Status"));
    case Lifecycle => LifecycleSurvives(fields, contract.artifactPrefix);
    case BucketPolicy =>
      assert Get(WithoutMetadata(fields), "Policy") == Normalize(Get(fields, "Policy"));
  }

  lemma IdentitySurvives(fields: Mapping, contract: Contract)
    requires IdentityMatches(fields, contract)
    ensures IdentityMatches(WithoutMetadata(fields), contract)
  {
    assert Get(WithoutMetadata(fields), "Account") == Normalize(Get(fields, "Account"));
    assert Get(WithoutMetadata(fields), "Arn") == Normalize(Get(fields, "Arn"));
  }

  // ---------- Facts about one stage ----------

  // The bucket calls among the first i that left their part unanswered.
  function BucketGaps(answered: set<BucketPart>, i: nat): set<Operation>
    requires i <= BUCKET_CALLS
  {
    set j | 0 <= j < i && PartOf(BucketCall(j)) !in answered :: BucketCall(j)
  }

  ghost predicate AnsweredUpTo(answered: set<BucketPart>, i: nat)
    requires i <= BUCKET_CALLS
  {
    forall j | 0 <= j < i :: PartOf(BucketCall(j)) in answered
  }

  lemma BucketPlan(i: nat)
    requires i < BUCKET_CALLS
    ensures PlaceOf(PartOf(BucketCall(i))) == i
    ensures BucketCall(i) == Planned(1 + i)
    ensures ServiceOf(BucketCall(i)) == S3 && BucketCall(i) != Converse
  {
  }

  lemma NoEarlierPart(i: nat)
    ensures forall j | i < j < BUCKET_CALLS :: PartOf(BucketCall(j)) != PartOf(BucketCall(i))
  {
    forall j | i < j < BUCKET_CALLS
      ensures PartOf(BucketCall(j)) != PartOf(BucketCall(i))
    {
      BucketPlan(i);
      BucketPlan(j);
    }
  }

  lemma BucketPartHasPlace(part: BucketPart)
    ensures PlaceOf(part) < BUCKET_CALLS && PartOf(BucketCall(PlaceOf(part))) == part
    ensures part in ALL_BUCKET_PARTS
  {
  }

  // One more part: its gap is added to the others, or its answer to the answers.
  lemma BucketGapStep(
    before: seq<Reason>, middle: seq<Reason>, after: seq<Reason>, raw: map<BucketPart, Mapping>,
    raw': map<BucketPart, Mapping>, i: nat, response: Option<Mapping>)
    requires i < BUCKET_CALLS && NewReasons(before, middle, BucketGaps(raw.Keys, i))
    requires PartOf(BucketCall(i)) !in raw
    requires raw' == if response.Some? then raw[PartOf(BucketCall(i)) := response.value] else raw
    requires NewReasons(middle, after, Gap(BucketCall(i), response.None?))
    requires middle == [] <==> before == [] && AnsweredUpTo(raw.Keys, i)
    requires after == [] <==> middle == [] && response.Some?
    ensures NewReasons(before, after, BucketGaps(raw'.Keys, i + 1))
    ensures after == [] <==> before == [] && AnsweredUpTo(raw'.Keys, i + 1)
  {
    GapsGrow(raw.Keys, raw'.Keys, i, response.None?);
    ReasonsAddUp(
      before, middle, after, BucketGaps(raw.Keys, i), Gap(BucketCall(i), response.None?), BucketGaps(raw'.Keys, i + 1));
    forall j | 0 <= j < i
      ensures PartOf(BucketCall(j)) in raw'.Keys <==> PartOf(BucketCall(j)) in raw.Keys
    {
      BucketPlan(j);
      BucketPlan(i);
    }
  }

  lemma GapsGrow(answered: set<BucketPart>, answered': set<BucketPart>, i: nat, missing: bool)
    requires i < BUCKET_CALLS && PartOf(BucketCall(i)) !in answered
    requires answered' == if missing then answered else answered + {PartOf(BucketCall(i))}
    ensures BucketGaps(answered, i) <= BucketGaps(answered', i + 1)
    ensures Gap(BucketCall(i), missing) <= BucketGaps(answered', i + 1)
  {
    forall op | op in BucketGaps(answered, i)
      ensures op in BucketGaps(answered', i + 1)
    {
      var j :| 0 <= j < i && PartOf(BucketCall(j)) !in answered && op == BucketCall(j);
      BucketPlan(i);
      BucketPlan(j);
    }
  }

  lemma BucketGapIsMissing(responses: map<BucketPart, Mapping>, o: Observations)
    requires o.artifactBucket == Some(responses)
    ensures forall op | op in BucketGaps(responses.Keys, BUCKET_CALLS) :: Missing(op, o)
  {
    forall op | op in BucketGaps(responses.Keys, BUCKET_CALLS)
      ensures Missing(op, o)
    {
      var j :| 0 <= j < BUCKET_CALLS && PartOf(BucketCall(j)) !in responses && op == BucketCall(j);
    }
  }

  // After i bucket calls: what was read is what was answered, and nothing answered is lost once the
  // client is there.
  ghost predicate BucketRead(w: World, clients: set<Service>, raw: map<BucketPart, Mapping>, i: nat)
    requires i <= BUCKET_CALLS
  {
    && (forall j | i <= j < BUCKET_CALLS :: PartOf(BucketCall(j)) !in raw)
    && (forall part | part in raw :: Reply(w, 1 + PlaceOf(part)) == Some(raw[part]))
    && (i > 0 && 1 in w.clients ==> S3 in clients)
    && (1 in w.clients ==> forall j | 0 <= j < i && Reply(w, 1 + j).Some? :: PartOf(BucketCall(j)) in raw)
    && (i > 0 && PartOf(BucketCall(0)) in raw ==> 1 in w.clients)
    && (AnsweredUpTo(raw.Keys, i) ==> forall j | 0 <= j < i :: PartStorable(w, j))
  }

  lemma BucketReadStep(
    w: World, clients: set<Service>, clients': set<Service>, raw: map<BucketPart, Mapping>,
    raw': map<BucketPart, Mapping>, i: nat)
    requires i < BUCKET_CALLS && BucketRead(w, clients, raw, i)
    requires var reached := S3 in clients || 1 + i in w.clients;
             && (i == 0 ==> S3 !in clients)
             && clients <= clients' && (reached ==> S3 in clients')
             && raw' == (if reached && Reply(w, 1 + i).Some?
                         then raw[PartOf(BucketCall(i)) := Reply(w, 1 + i).value] else raw)
             && (PartOf(BucketCall(i)) in raw' ==> PartStorable(w, i))
    ensures BucketRead(w, clients', raw', i + 1)
  {
    BucketPlan(i);
    NoEarlierPart(i);
    var part := PartOf(BucketCall(i));
    if AnsweredUpTo(raw'.Keys, i + 1) {
      forall j | 0 <= j < i
        ensures PartOf(BucketCall(j)) in raw.Keys
      {
        BucketPlan(j);
        assert PartOf(BucketCall(j)) in raw'.Keys;
      }
      assert part in raw'.Keys;
    }
  }

  lemma BucketPassed(w: World, clients: set<Service>, raw: map<BucketPart, Mapping>, contract: Contract)
    requires BucketRead(w, clients, raw, BUCKET_CALLS)
    ensures BucketPasses(w, contract) <==>
            AnsweredUpTo(raw.Keys, BUCKET_CALLS) && forall part | part in raw :: PartIsValid(part, raw[part], contract)
  {
    if BucketPasses(w, contract) {
      forall j | 0 <= j < BUCKET_CALLS
        ensures PartOf(BucketCall(j)) in raw.Keys
      {
        BucketPlan(j);
        assert PartPasses(w, PartOf(BucketCall(j)), contract);
      }
      forall part | part in raw
        ensures PartIsValid(part, raw[part], contract)
      {
        assert PartPasses(w, part, contract);
      }
    }
    if AnsweredUpTo(raw.Keys, BUCKET_CALLS) && forall part | part in raw :: PartIsValid(part, raw[part], contract) {
      assert PartOf(BucketCall(0)) in raw.Keys;
      forall part: BucketPart
        ensures PartPasses(w, part, contract)
      {
        BucketPartHasPlace(part);
        assert PartOf(BucketCall(PlaceOf(part))) in raw.Keys;
      }
    }
  }

  predicate StoredCopies(raw: map<BucketPart, Mapping>, responses: map<BucketPart, Mapping>) {
    raw.Keys == responses.Keys && forall part | part in raw :: responses[part] == WithoutMetadata(raw[part])
  }

  lemma BucketIsClean(raw: map<BucketPart, Mapping>, responses: map<BucketPart, Mapping>, contract: Contract)
    requires StoredCopies(raw, responses) && AnsweredUpTo(raw.Keys, BUCKET_CALLS)
    requires forall part | part in raw :: PartIsValid(part, raw[part], contract)
    ensures BucketIsValid(responses, contract)
  {
    forall part: BucketPart
      ensures part in raw && part in ALL_BUCKET_PARTS
    {
      BucketPartHasPlace(part);
    }
    forall part | part in responses
      ensures PartIsValid(part, responses[part], contract)
    {
      PartSurvives(part, raw[part], contract);
    }
  }

  function StoredIdentity(w: World): Option<Mapping> {
    if Reply(w, 0).Some? then Some(WithoutMetadata(Reply(w, 0).value)) else None
  }

  function Decision(result: Value, resource: string): (Value, bool) {
    (Field(result, "EvalDecision"), Field(result, "EvalResourceName") == Text(resource))
  }

  // The first n results name an action each, and no action twice.
  predicate DecidedOnce(results: seq<Value>, n: nat)
    requires n <= |results|
  {
    && (forall i | 0 <= i < n :: Field(results[i], "EvalActionName").Text?)
    && (forall i, j | 0 <= i < j < n :: ActionName(results[i]) != ActionName(results[j]))
  }

  lemma DecisionsSayAllowed(
    response: Mapping, actions: seq<string>, resource: string, decisions: map<string, (Value, bool)>)
    requires var results := ItemsOf(Get(response, "EvaluationResults"));
             && DecidedOnce(results, |results|)
             && decisions.Keys == (set i | 0 <= i < |results| :: ActionName(results[i]))
             && forall i | 0 <= i < |results| ::
                  ActionName(results[i]) in decisions &&
                  decisions[ActionName(results[i])] == Decision(results[i], resource)
    ensures var results := Get(response, "EvaluationResults");
            Allows(response, actions, resource) <==>
              && results.List? && |results.items| == |actions| && Get(response, "IsTruncated") == Bool(false)
              && decisions.Keys == (set action | action in actions)
              && forall action | action in actions && action in decisions ::
                   decisions[action] == (Text("allowed"), true)
  {
    var results := ItemsOf(Get(response, "EvaluationResults"));
    if Get(response, "EvaluationResults").List? && decisions.Keys == (set action | action in actions) {
      forall i | 0 <= i < |results|
        ensures AllowedResult(results[i], resource) <==> decisions[ActionName(results[i])] == (Text("allowed"), true)
      {
      }
      forall i | 0 <= i < |results|
        ensures ActionName(results[i]) in actions
      {
        assert ActionName(results[i]) in decisions.Keys;
      }
      forall action | action in actions
        ensures exists i | 0 <= i < |results| :: ActionName(results[i]) == action
      {
        assert action in decisions.Keys;
      }
    }
  }

  // No client is there before the first planned place that needs it.
  predicate OpenedOnPlan(clients: set<Service>, k: nat) {
    && (k <= FirstPlace(STS) ==> STS !in clients)
    && (k <= FirstPlace(S3) ==> S3 !in clients)
    && (k <= FirstPlace(IAM) ==> IAM !in clients)
    && (k <= FirstPlace(EC2) ==> EC2 !in clients)
    && (k <= FirstPlace(CLOUDWATCH) ==> CLOUDWATCH !in clients)
    && (k <= FirstPlace(BEDROCK) ==> BEDROCK !in clients)
    && (k <= FirstPlace(BEDROCK_RUNTIME) ==> BEDROCK_RUNTIME !in clients)
    && (k <= FirstPlace(BUDGETS) ==> BUDGETS !in clients)
  }

  // Every planned call needs a client that is needed there first or was needed before.
  lemma PlannedServices(k: nat)
    requires k < CALLS
    ensures FirstPlace(ServiceOf(Planned(k))) <= k
  {
  }

  lemma SameThresholds(notifications: seq<Value>, thresholds: set<real>)
    requires thresholds == set j | 0 <= j < |notifications| && NotificationThreshold(notifications[j]).Some? ::
                              NotificationThreshold(notifications[j]).value
    ensures thresholds == (set t | t in THRESHOLDS) && |notifications| == THRESHOLD_COUNT <==>
            ThresholdsExact(notifications)
  {
    if thresholds == (set t | t in THRESHOLDS) {
      forall t | t in THRESHOLDS
        ensures exists i | 0 <= i < |notifications| :: NotificationThreshold(notifications[i]) == Some(t)
      {
        assert t in thresholds;
      }
      forall i | 0 <= i < |notifications| && NotificationThreshold(notifications[i]).Some?
        ensures NotificationThreshold(notifications[i]).value in THRESHOLDS
      {
        assert NotificationThreshold(notifications[i]).value in thresholds;
      }
    }
    if ThresholdsExact(notifications) {
      forall t
        ensures t in thresholds <==> t in THRESHOLDS
      {
      }
    }
  }

  predicate Describes(target: Sandbox, instance: Value) {
    && target.Target?
    && (target.running <==> Field(Field(instance, "State"), "Name") == Text("running"))
    && (target.regionMatch <==> InRegion(instance))
    && (target.ebsBacked <==> Field(instance, "RootDeviceType") == Text("ebs") && HasEbs(instance))
    && (target.tagMatch <==> IsTagged(instance))
  }

  // The reason each deviation of the sandbox has.
  predicate SandboxFault(r: Reason, target: Sandbox) {
    match r
    case SandboxExplicitTargetMismatch => target.TargetMismatch?
    case SandboxNotRunning => target.Target? && !target.running
    case SandboxRegionMismatch => target.Target? && !target.regionMatch
    case SandboxEbsRequired => target.Target? && !target.ebsBacked
    case SandboxTagMismatch => target.Target? && !target.tagMatch
    case _ => false
  }

  function NotedIf(reasons: seq<Reason>, condition: bool, reason: Reason): (noted: seq<Reason>)
    ensures forall r :: r in noted <==> r in reasons || (condition && r == reason)
    ensures noted == [] <==> reasons == [] && !condition
  {
    if condition then Note(reasons, reason) else reasons
  }

  lemma FaultsNoted(
    r0: seq<Reason>, r1: seq<Reason>, r2: seq<Reason>, r3: seq<Reason>, r4: seq<Reason>, target: Sandbox)
    requires target.Target?
    requires r1 == NotedIf(r0, !target.running, SandboxNotRunning)
    requires r2 == NotedIf(r1, !target.regionMatch, SandboxRegionMismatch)
    requires r3 == NotedIf(r2, !target.ebsBacked, SandboxEbsRequired)
    requires r4 == NotedIf(r3, !target.tagMatch, SandboxTagMismatch)
    ensures forall r :: r in r4 <==> r in r0 || SandboxFault(r, target)
    ensures NewReasons(r0, r4, {})
    ensures r4 == [] <==> r0 == [] && target == GOOD_SANDBOX
  {
    forall r
      ensures r in r4 <==> r in r0 || SandboxFault(r, target)
    {
      assert r in r4 <==> r in r3 || (!target.tagMatch && r == SandboxTagMismatch);
      assert r in r3 <==> r in r2 || (!target.ebsBacked && r == SandboxEbsRequired);
      assert r in r2 <==> r in r1 || (!target.regionMatch && r == SandboxRegionMismatch);
      assert r in r1 <==> r in r0 || (!target.running && r == SandboxNotRunning);
    }
  }

  // The budget calls that left a part of the budget unobserved.
  function BudgetGaps(budget: Budget): set<Operation> {
    Gap(DescribeBudget, budget.configurationValid.None?)
    + Gap(DescribeNotificationsForBudget, budget.thresholdsExact.None?)
    + Gap(DescribeSubscribersForNotification,
          budget.ownersPresent.None? || |budget.ownersPresent.value| < THRESHOLD_COUNT)
  }

  lemma BudgetReasons(
    r0: seq<Reason>, r1: seq<Reason>, r2: seq<Reason>, r3: seq<Reason>, r4: seq<Reason>, budget: Budget,
    unconfigured: bool, unlisted: bool)
    requires NewReasons(r0, r1, Gap(DescribeBudget, unconfigured))
    requires NewReasons(r1, r2, Gap(DescribeNotificationsForBudget, unlisted)) && NewReasons(r2, r3, {})
    requires NewReasons(
               r3, r4,
               Gap(DescribeSubscribersForNotification,
                   budget.ownersPresent.None? || |budget.ownersPresent.value| < THRESHOLD_COUNT))
    requires unconfigured ==> budget.configurationValid.None?
    requires unlisted ==> budget.thresholdsExact.None?
    ensures NewReasons(r0, r4, BudgetGaps(budget))
  {
    var gaps := BudgetGaps(budget);
    var unnamed := budget.ownersPresent.None? || |budget.ownersPresent.value| < THRESHOLD_COUNT;
    ReasonsAddUp(
      r0, r1, r2, Gap(DescribeBudget, unconfigured), Gap(DescribeNotificationsForBudget, unlisted), gaps);
    ReasonsAddUp(r0, r2, r3, gaps, {}, gaps);
    ReasonsAddUp(r0, r3, r4, gaps, Gap(DescribeSubscribersForNotification, unnamed), gaps);
  }

  // Did the synthetic call bring no answer?
  predicate Unanswered(probe: Option<NovaProbe>) {
    probe.None? || probe.value.ProbeNotRun? || !probe.value.responseReceived
  }

  function ModelGaps(profile: Option<NovaProfile>, probe: Option<NovaProbe>): set<Operation> {
    Gap(GetInferenceProfile, profile.None?) + Gap(Converse, Unanswered(probe))
  }

  // After the five stages, each leaving the gaps it accounts for, every reason is explained.
  lemma ResourcesSettle(
    r1: seq<Reason>, r2: seq<Reason>, r3: seq<Reason>, r4: seq<Reason>, r5: seq<Reason>, r6: seq<Reason>,
    responses: map<BucketPart, Mapping>, o: Observations)
    requires o.artifactBucket == Some(responses) && o.budget.Some?
    requires NewReasons([], r1, BucketGaps(responses.Keys, BUCKET_CALLS))
    requires NewReasons(
               r1, r2,
               Gap(SimulatePrincipalPolicy, o.secretCapability.None? || o.artifactPathCapability.None?))
    requires NewReasons(r2, r3, Gap(DescribeInstances, o.sandbox.None?))
    requires NewReasons(r3, r4, Gap(GetMetricStatistics, o.cloudwatch.None?))
    requires NewReasons(
               r4, r5, ModelGaps(o.novaProfile, o.novaProbe))
    requires NewReasons(r5, r6, BudgetGaps(o.budget.value))
    ensures Settled(r6, o)
  {
    BucketGapIsMissing(responses, o);
    SettledFurther([], r1, BucketGaps(responses.Keys, BUCKET_CALLS), o);
    SettledFurther(r1, r2, Gap(SimulatePrincipalPolicy, o.secretCapability.None? || o.artifactPathCapability.None?), o);
    SettledFurther(r2, r3, Gap(DescribeInstances, o.sandbox.None?), o);
    SettledFurther(r3, r4, Gap(GetMetricStatistics, o.cloudwatch.None?), o);
    SettledFurther(r4, r5, ModelGaps(o.novaProfile, o.novaProbe), o);
    SettledFurther(r5, r6, BudgetGaps(o.budget.value), o);
  }

  class Context {
    const world: World
    var clients: set<Service>
    var ledger: seq<LedgerEntry>
    var reasons: seq<Reason>

    constructor (world: World)
      ensures this.world == world
      ensures Progress(0) && reasons == []
    {
      this.world := world;
      clients, ledger, reasons := {}, [], [];
      new;
      assert Placed(ledger, 0, []);
    }

    // The first k planned calls were made or skipped.
    ghost predicate Progress(k: nat)
      reads this
    {
      LedgerProgress(ledger, reasons, k) && OpenedOnPlan(clients, k)
    }

    method AddReason(value: Reason, ghost k: nat)
      requires Progress(k)
      modifies this`reasons
      ensures reasons == Note(old(reasons), value) && Progress(k)
    {
      if value !in reasons {
        reasons := reasons + [value];
      }
    }

    // Is there a client for the call planned at place k, or can one be created?
    predicate Opens(op: Operation, k: nat)
      reads this
    {
      ServiceOf(op) in clients || k in world.clients
    }

    function Received(op: Operation, k: nat): Option<Mapping>
      reads this
    {
      if Opens(op, k) then Reply(world, k) else None
    }

    method Client(service: Service, created: bool, ghost k: nat) returns (available: bool)
      requires Progress(k) && FirstPlace(service) <= k
      modifies this`clients, this`reasons
      ensures available == (service in old(clients) || created)
      ensures clients == if available then old(clients) + {service} else old(clients)
      ensures available ==> reasons == old(reasons)
      ensures !available ==> reasons == Note(old(reasons), ClientCreationFailed(service))
    {
      if service in clients {
        return true;
      }
      if !created {
        AddReason(ClientCreationFailed(service), k);
        return false;
      }
      clients := clients + {service};
      return true;
    }

    // The answer to a call that is already on the ledger.
    method Ask(op: Operation, answer: Answer, ghost k: nat) returns (response: Option<Mapping>)
      requires Progress(k)
      modifies this`reasons
      ensures Progress(k)
      ensures response == match answer case Answered(fields) => Some(fields) case _ => None
      ensures reasons == Complain(old(reasons), op, true, answer)
    {
      match answer
      case Raised =>
        AddReason(AwsCallFailed(op), k);
        return None;
      case NotAMapping =>
        AddReason(AwsResponseInvalid(op), k);
        return None;
      case Answered(fields) =>
        return Some(fields);
    }

    // Make the call planned at place k; Converse only on a clean record.
    method Call(op: Operation, k: nat) returns (response: Option<Mapping>)
      requires Progress(k) && k < CALLS && Planned(k) == op
      requires op == Converse ==> reasons == []
      modifies this`clients, this`reasons, this`ledger
      ensures Progress(k + 1)
      ensures response == old(Received(op, k))
      ensures clients == if old(Opens(op, k)) then old(clients) + {ServiceOf(op)} else old(clients)
      ensures ledger == if old(Opens(op, k)) then Record(old(ledger), op) else old(ledger)
      ensures reasons == Complain(old(reasons), op, old(Opens(op, k)), AnswerAt(world, k))
    {
      ghost var before := reasons;
      PlannedServices(k);
      var available := Client(ServiceOf(op), k in world.clients, k);
      if !available {
        ProgressBySkip(ledger, before, k, reasons);
        return None;
      }
      ProgressByCall(ledger, reasons, k, reasons);
      ledger := Record(ledger, op);
      response := Ask(op, AnswerAt(world, k), k + 1);
    }

    // A planned call as its stage sees it: an answer, or a gap with a reason.
    method Read(op: Operation, k: nat) returns (response: Option<Mapping>)
      requires Progress(k) && k < CALLS && Planned(k) == op
      requires op == Converse ==> reasons == []
      modifies this`clients, this`reasons, this`ledger
      ensures Progress(k + 1)
      ensures response == old(Received(op, k))
      ensures old(clients) <= clients && (old(Opens(op, k)) ==> ServiceOf(op) in clients)
      ensures response.Some? ==> reasons == old(reasons)
      ensures NewReasons(old(reasons), reasons, Gap(op, response.None?))
      ensures reasons == [] <==> old(reasons) == [] && response.Some?
    {
      response := Call(op, k);
    }

    // Canonical encoding of the answer to call k; it fails on values that are not JSON or on the
    // size limit.
    method Encode(response: Mapping, k: nat) returns (stored: Result<Mapping, Rejection>)
      ensures stored.Success? <==> MetadataEncodable(response) && k in world.small
      ensures stored.Success? ==> stored.value == WithoutMetadata(response)
    {
      if !MetadataEncodable(response) {
        return Failure(NonJsonValue);
      }
      return if k in world.small then Success(WithoutMetadata(response)) else Failure(CanonicalDocumentTooLarge);
    }

    // The caller identity: a gap, an answer that cannot be stored, or an answer that is checked.
    method ObserveIdentity(contract: Contract) returns (identity: Option<Mapping>, problem: Option<Rejection>)
      requires Progress(0) && reasons == []
      modifies this
      ensures Progress(1)
      ensures problem.Some? ==> !Storable(world, 0)
      ensures problem.None? ==>
        && NewReasons([], reasons, Gap(GetCallerIdentity, identity.None?))
        && (reasons == [] <==> IdentityPasses(world, contract))
        && (reasons == [] ==>
              && Storable(world, 0) && identity == StoredIdentity(world)
              && identity.Some? && IdentityMatches(identity.value, contract))
    {
      assert STS !in clients;
      var response := Read(GetCallerIdentity, 0);
      if response.None? {
        return None, None;
      }
      var stored := Encode(response.value, 0);
      if stored.Failure? {
        return None, Some(stored.error);
      }
      if Get(response.value, "Account") != Text(contract.accountId) {
        AddReason(CallerAccountMismatch, 1);
      }
      if !PrincipalMatches(contract.roleArn, Get(response.value, "Arn"), contract.accountId) {
        AddReason(CallerRoleMismatch, 1);
      }
      if reasons == [] {
        IdentitySurvives(response.value, contract);
      }
      return Some(stored.value), None;
    }

    // One bucket part: a gap, an answer that cannot be stored, or an answer and its stored copy.
    method ReadPart(i: nat) returns (response: Option<Mapping>, stored: Mapping, problem: Option<Rejection>)
      requires i < BUCKET_CALLS && Progress(1 + i)
      modifies this
      ensures Progress(2 + i) && old(clients) <= clients
      ensures response == old(Received(BucketCall(i), 1 + i))
      ensures old(Opens(BucketCall(i), 1 + i)) ==> S3 in clients
      ensures NewReasons(old(reasons), reasons, Gap(BucketCall(i), response.None?))
      ensures reasons == [] <==> old(reasons) == [] && response.Some?
      ensures problem.Some? ==> !PartStorable(world, i)
      ensures problem.None? && response.Some? ==> stored == WithoutMetadata(response.value) && PartStorable(world, i)
    {
      BucketPlan(i);
      stored, problem := map[], None;
      response := Read(BucketCall(i), 1 + i);
      if response.Some? {
        var encoded := Encode(response.value, 1 + i);
        if encoded.Failure? {
          return response, map[], Some(encoded.error);
        }
        stored := encoded.value;
      }
    }

    // The first i bucket parts are read.
    ghost predicate ReadSoFar(
        before: seq<Reason>, raw: map<BucketPart, Mapping>, responses: map<BucketPart, Mapping>, i: nat)
      requires i <= BUCKET_CALLS
      reads this
    {
      && Progress(1 + i) && BucketRead(world, clients, raw, i) && StoredCopies(raw, responses)
      && NewReasons(before, reasons, BucketGaps(raw.Keys, i))
      && (reasons == [] <==> before == [] && AnsweredUpTo(raw.Keys, i))
    }

    // The next part, next to what was read before.
    method ReadNext(
        i: nat, raw: map<BucketPart, Mapping>, responses: map<BucketPart, Mapping>, ghost before: seq<Reason>)
        returns (raw': map<BucketPart, Mapping>, responses': map<BucketPart, Mapping>, problem: Option<Rejection>)
      requires i < BUCKET_CALLS && ReadSoFar(before, raw, responses, i)
      modifies this
      ensures if problem.Some? then !PartStorable(world, i) else ReadSoFar(before, raw', responses', i + 1)
    {
      ghost var middle, had := reasons, clients;
      var part := PartOf(BucketCall(i));
      var response, stored;
      BucketPlan(i);
      response, stored, problem := ReadPart(i);
      raw', responses' := raw, responses;
      if problem.None? {
        if response.Some? {
          raw', responses' := raw[part := response.value], responses[part := stored];
        }
        BucketGapStep(before, middle, reasons, raw, raw', i, response);
        BucketReadStep(world, had, clients, raw, raw', i);
      }
    }

    // The seven parts: what was answered, and the stored copies.
    method ReadBucket()
        returns (raw: map<BucketPart, Mapping>, responses: map<BucketPart, Mapping>, problem: Option<Rejection>)
      requires Progress(1)
      modifies this
      ensures if problem.Some? then !BucketStorable(world) else ReadSoFar(old(reasons), raw, responses, BUCKET_CALLS)
    {
      ghost var before := reasons;
      assert S3 !in clients;
      raw, responses := map[], map[];
      for i := 0 to BUCKET_CALLS
        invariant ReadSoFar(before, raw, responses, i)
      {
        raw, responses, problem := ReadNext(i, raw, responses, before);
        if problem.Some? {
          return;
        }
      }
      problem := None;
    }

    // Either an answer cannot be stored, or the stage ends with no reason exactly when it passes.
    method ObserveBucket(contract: Contract)
        returns (responses: map<BucketPart, Mapping>, problem: Option<Rejection>)
      requires Progress(1)
      modifies this
      ensures problem.Some? ==> !BucketStorable(world)
      ensures problem.None? ==>
        && Progress(8)
        && NewReasons(old(reasons), reasons, BucketGaps(responses.Keys, BUCKET_CALLS))
        && (reasons == [] <==> old(reasons) == [] && BucketPasses(world, contract))
        && (reasons == [] ==> BucketIsValid(responses, contract) && BucketStorable(world))
    {
      ghost var before := reasons;
      var raw;
      raw, responses, problem := ReadBucket();
      if problem.None? {
        CheckParts(raw, before, BucketGaps(raw.Keys, BUCKET_CALLS), contract);
        BucketPassed(world, clients, raw, contract);
        if reasons == [] {
          BucketIsClean(raw, responses, contract);
        }
      }
    }

    // Note every part that was read and is not as the contract wants it.
    method CheckParts(
        raw: map<BucketPart, Mapping>, ghost before: seq<Reason>, ghost gaps: set<Operation>, contract: Contract)
      requires Progress(8) && NewReasons(before, reasons, gaps)
      requires reasons == [] <==> before == [] && AnsweredUpTo(raw.Keys, BUCKET_CALLS)
      modifies this`reasons
      ensures Progress(8) && NewReasons(before, reasons, gaps)
      ensures reasons == [] <==>
        && before == [] && AnsweredUpTo(raw.Keys, BUCKET_CALLS)
        && forall part | part in raw :: PartIsValid(part, raw[part], contract)
    {
      for i := 0 to BUCKET_CALLS
        invariant Progress(8) && NewReasons(before, reasons, gaps)
        invariant reasons == [] <==>
          && before == [] && AnsweredUpTo(raw.Keys, BUCKET_CALLS)
          && forall j | 0 <= j < i :: PartIsValid(PartOf(BucketCall(j)), raw[PartOf(BucketCall(j))], contract)
      {
        var part := PartOf(BucketCall(i));
        if part in raw && !PartIsValid(part, raw[part], contract) {
          ReasonNoted(before, reasons, gaps, BucketPartInvalid(part));
          AddReason(BucketPartInvalid(part), 8);
        }
      }
      if reasons == [] {
        forall part | part in raw
          ensures PartIsValid(part, raw[part], contract)
        {
          BucketPartHasPlace(part);
          assert PartIsValid(PartOf(BucketCall(PlaceOf(part))), raw[part], contract);
        }
      }
    }

    // What was decided for each action, and whether every action was decided once.
    method ReadDecisions(results: seq<Value>, resource: string)
        returns (decisions: map<string, (Value, bool)>, valid: bool)
      ensures valid <==> DecidedOnce(results, |results|)
      ensures valid ==> decisions.Keys == set i | 0 <= i < |results| :: ActionName(results[i])
      ensures valid ==> forall i | 0 <= i < |results| ::
        ActionName(results[i]) in decisions && decisions[ActionName(results[i])] == Decision(results[i], resource)
    {
      decisions, valid := map[], true;
      for i := 0 to |results|
        invariant valid <==> DecidedOnce(results, i)
        invariant valid ==> decisions.Keys == set j | 0 <= j < i :: ActionName(results[j])
        invariant valid ==> forall j | 0 <= j < i ::
          ActionName(results[j]) in decisions && decisions[ActionName(results[j])] == Decision(results[j], resource)
      {
        var name := Field(results[i], "EvalActionName");
        if !name.Text? {
          valid := false;
        } else {
          if name.s in decisions {
            valid := false;
          }
          decisions := decisions[name.s := Decision(results[i], resource)];
        }
      }
    }

    // The capability one simulation answer shows.
    method ReadCapability(response: Mapping, actions: seq<string>, resource: string) returns (capability: Capability)
      ensures capability.allowedForExactResource <==> Allows(response, actions, resource)
      ensures capability.allowedForExactResource ==> capability == GOOD_CAPABILITY
    {
      var results := Get(response, "EvaluationResults");
      var decisions, once := ReadDecisions(ItemsOf(results), resource);
      var valid := once && results.List? && |results.items| == |actions|;
      var notTruncated := Get(response, "IsTruncated") == Bool(false);
      var actionsExact := decisions.Keys == (set action | action in actions);
      var exact := && valid && notTruncated && actionsExact
                   && (forall action | action in actions && action in decisions ::
                         decisions[action] == (Text("allowed"), true));
      if once {
        DecisionsSayAllowed(response, actions, resource, decisions);
      }
      return Capability(actionsExact, exact, notTruncated);
    }

    // One policy simulation: every listed action has to be allowed for exactly this resource.
    method Simulate(actions: seq<string>, resource: string, failure: Reason, k: nat)
        returns (capability: Option<Capability>)
      requires Progress(k) && k < CALLS && Planned(k) == SimulatePrincipalPolicy && SeenByPrefix(failure)
      modifies this`clients, this`reasons, this`ledger
      ensures Progress(k + 1)
      ensures old(Opens(SimulatePrincipalPolicy, k)) ==> IAM in clients
      ensures capability.Some? <==> old(Received(SimulatePrincipalPolicy, k)).Some?
      ensures capability.Some? ==>
        && (capability.value.allowedForExactResource <==>
            Allows(old(Received(SimulatePrincipalPolicy, k)).value, actions, resource))
        && reasons == NotedIf(old(reasons), !capability.value.allowedForExactResource, failure)
      ensures NewReasons(old(reasons), reasons, Gap(SimulatePrincipalPolicy, capability.None?))
      ensures reasons == [] <==>
              old(reasons) == [] && SimulationPasses(old(Received(SimulatePrincipalPolicy, k)), actions, resource)
      ensures reasons == [] ==> capability == Some(GOOD_CAPABILITY)
    {
      var response := Read(SimulatePrincipalPolicy, k);
      if response.None? {
        return None;
      }
      var shown := ReadCapability(response.value, actions, resource);
      if !shown.allowedForExactResource {
        AddReason(failure, k + 1);
      }
      return Some(shown);
    }

    method ObserveIam(contract: Contract) returns (secret: Option<Capability>, path: Option<Capability>)
      requires Progress(8)
      modifies this
      ensures Progress(10)
      ensures NewReasons(old(reasons), reasons, Gap(SimulatePrincipalPolicy, secret.None? || path.None?))
      ensures reasons == [] ==> secret == Some(GOOD_CAPABILITY) && path == Some(GOOD_CAPABILITY)
      ensures reasons == [] <==> old(reasons) == [] && CapabilitiesPass(world, contract)
    {
      ghost var before := reasons;
      assert IAM !in clients;
      secret := Simulate(SECRET_ACTIONS, contract.secretArn, JudgeSecretCapabilityNotAllowed, 8);
      ghost var middle := reasons;
      path := Simulate(PACKAGING_ACTIONS, PackagingArn(contract), ArtifactPathCapabilityNotAllowed, 9);
      ReasonsAddUp(
        before, middle, reasons, Gap(SimulatePrincipalPolicy, secret.None?), Gap(SimulatePrincipalPolicy, path.None?),
        Gap(SimulatePrincipalPolicy, secret.None? || path.None?));
    }

    // All instances of all reservations.
    method Instances(response: Mapping) returns (instances: seq<Value>)
      ensures instances == InstancesOf(ItemsOf(Get(response, "Reservations")))
    {
      instances := [];
      var reservations := ItemsOf(Get(response, "Reservations"));
      assert reservations[..0] == [];
      for i := 0 to |reservations|
        invariant instances == InstancesOf(reservations[..i])
      {
        var values := ItemsOf(Field(reservations[i], "Instances"));
        ghost var above := instances;
        assert values[..0] == [];
        for j := 0 to |values|
          invariant instances == above + Mappings(values[..j])
        {
          assert values[..j + 1][..j] == values[..j];
          if values[j].Dict? {
            instances := instances + [values[j]];
          }
        }
        assert values[..|values|] == values;
        assert reservations[..i + 1][..i] == reservations[..i];
      }
      assert reservations[..|reservations|] == reservations;
    }

    // The tags of the instance that have the agreed key.
    method MatchingTags(instance: Value) returns (matching: seq<Value>)
      ensures matching == Tagged(ItemsOf(Field(instance, "Tags")), SANDBOX_TAG)
    {
      matching := [];
      var tags := ItemsOf(Field(instance, "Tags"));
      assert tags[..0] == [];
      for i := 0 to |tags|
        invariant matching == Tagged(tags[..i], SANDBOX_TAG)
      {
        assert tags[..i + 1][..i] == tags[..i];
        if Field(tags[i], "Key") == Text(SANDBOX_TAG) {
          matching := matching + [tags[i]];
        }
      }
      assert tags[..|tags|] == tags;
    }

    method ReadSandbox(instance: Value) returns (target: Sandbox)
      ensures Describes(target, instance)
    {
      var matching := MatchingTags(instance);
      target := Target(
        Field(instance, "RootDeviceType") == Text("ebs") && HasEbs(instance),
        InRegion(instance),
        Field(Field(instance, "State"), "Name") == Text("running"),
        |matching| == 1 && Field(matching[0], "Value") == Text("true"));
    }

    // One reason for each way in which the instance is not the sandbox.
    method JudgeSandbox(target: Sandbox, ghost k: nat)
      requires Progress(k) && target.Target?
      modifies this`reasons
      ensures Progress(k)
      ensures forall r :: r in reasons <==> r in old(reasons) || SandboxFault(r, target)
      ensures NewReasons(old(reasons), reasons, {})
      ensures reasons == [] <==> old(reasons) == [] && target == GOOD_SANDBOX
    {
      ghost var r0 := reasons;
      if !target.running {
        AddReason(SandboxNotRunning, k);
      }
      ghost var r1 := reasons;
      if !target.regionMatch {
        AddReason(SandboxRegionMismatch, k);
      }
      ghost var r2 := reasons;
      if !target.ebsBacked {
        AddReason(SandboxEbsRequired, k);
      }
      ghost var r3 := reasons;
      if !target.tagMatch {
        AddReason(SandboxTagMismatch, k);
      }
      FaultsNoted(r0, r1, r2, r3, reasons, target);
    }

    // The one instance the contract names, judged.
    method FindSandbox(response: Mapping, contract: Contract, ghost k: nat) returns (target: Sandbox)
      requires Progress(k)
      modifies this`reasons
      ensures Progress(k)
      ensures
        var instances := InstancesOf(ItemsOf(Get(response, "Reservations")));
        if |instances| == 1 && Field(instances[0], "InstanceId") == Text(contract.instanceId)
        then Describes(target, instances[0]) else target == TargetMismatch
      ensures forall r :: r in reasons <==> r in old(reasons) || SandboxFault(r, target)
      ensures NewReasons(old(reasons), reasons, {})
      ensures reasons == [] ==> target == GOOD_SANDBOX
      ensures reasons == [] <==> old(reasons) == [] && SandboxPasses(response, contract)
    {
      var instances := Instances(response);
      if |instances| != 1 || Field(instances[0], "InstanceId") != Text(contract.instanceId) {
        AddReason(SandboxExplicitTargetMismatch, k);
        return TargetMismatch;
      }
      target := ReadSandbox(instances[0]);
      JudgeSandbox(target, k);
    }

    method ObserveEc2(contract: Contract) returns (target: Option<Sandbox>)
      requires Progress(10)
      modifies this
      ensures Progress(11)
      ensures NewReasons(old(reasons), reasons, Gap(DescribeInstances, target.None?))
      ensures reasons == [] ==> target == Some(GOOD_SANDBOX)
      ensures reasons == [] <==> old(reasons) == [] && InstancesPass(world, contract)
    {
      ghost var before := reasons;
      assert EC2 !in clients;
      var response := Read(DescribeInstances, 10);
      if response.None? {
        return None;
      }
      ghost var middle := reasons;
      assert InstancesPass(world, contract) <==> SandboxPasses(response.value, contract);
      var found := FindSandbox(response.value, contract, 11);
      ReasonsAddUp(before, middle, reasons, {}, {}, {});
      return Some(found);
    }

    method ReadPeriods(response: Mapping, contract: Contract) returns (periods: set<int>)
      requires contract.cwPeriod > 0
      ensures periods == PeriodsOf(response, contract)
    {
      periods := {};
      var datapoints := ItemsOf(Get(response, "Datapoints"));
      for i := 0 to |datapoints|
        invariant periods == set j | 0 <= j < i && DatapointCounts(datapoints[j], contract) ::
                    PeriodOf(Field(datapoints[j], "Timestamp").micros, contract.cwPeriod)
      {
        if DatapointCounts(datapoints[i], contract) {
          periods := periods + {PeriodOf(Field(datapoints[i], "Timestamp").micros, contract.cwPeriod)};
        }
      }
    }

    method ObserveCloudwatch(contract: Contract) returns (window: Option<CloudwatchWindow>)
      requires Progress(11) && contract.cwPeriod > 0
      modifies this
      ensures Progress(12)
      ensures NewReasons(old(reasons), reasons, Gap(GetMetricStatistics, window.None?))
      ensures reasons == [] ==> window.Some? && CloudwatchIsValid(window.value, contract)
      ensures reasons == [] <==> old(reasons) == [] && MetricsPass(world, contract)
    {
      assert CLOUDWATCH !in clients;
      var response := Read(GetMetricStatistics, 11);
      if response.None? {
        return None;
      }
      var periods := ReadPeriods(response.value, contract);
      if |periods| < contract.cwMinimum {
        AddReason(CloudwatchNumericDatapointsInsufficient, 12);
      }
      return Some(CloudwatchWindow(contract.cwMinimum, |periods|, (contract.cwEnd - contract.cwStart) / MICROS));
    }

    method ReadNovaProfile(response: Mapping, contract: Contract) returns (profile: NovaProfile, valid: bool)
      ensures valid ==> NovaProfileIsValid(profile)
      ensures valid <==> ProfilePasses(response, contract)
    {
      var models := Get(response, "models");
      var active := Get(response, "status") == Text("ACTIVE");
      var exactProfile := Get(response, "inferenceProfileId") == Text(contract.novaProfileId);
      var observed := ObservedModelArns(models);
      var modelsExact := observed == ExpectedModelArns();
      profile := NovaProfile(active, exactProfile, |observed|, modelsExact);
      valid := exactProfile && active && models.List? && modelsExact && |models.items| == |ExpectedModelArns()|;
      if valid {
        ImageOfRegions(NOVA_MODEL_REGIONS, observed);
      }
    }

    // End the stage without the synthetic call.
    method SkipProbe(reason: Reason, ghost before: seq<Reason>)
      requires Progress(13) && reasons == before && SeenByPrefix(reason)
      modifies this`reasons
      ensures Progress(14) && NewReasons(before, reasons, {}) && reasons != []
    {
      AddReason(reason, 13);
      ProgressBySkip(ledger, reasons, 13, reasons);
    }

    // The synthetic call, or why it is not made.
    method ProbeModel(valid: bool, contract: Contract) returns (probe: Option<NovaProbe>)
      requires Progress(13)
      modifies this
      ensures Progress(14)
      ensures NewReasons(old(reasons), reasons, Gap(Converse, Unanswered(probe)))
      ensures reasons == [] ==> probe.Some? && NovaProbeIsValid(probe.value)
      ensures reasons == [] <==>
        old(reasons) == [] && valid && contract.syntheticConverse && 13 in world.clients && Reply(world, 13).Some?
    {
      ghost var before := reasons;
      probe := None;
      if !valid {
        SkipProbe(NovaProfileUnavailable, before);
      } else if !contract.syntheticConverse {
        probe := Some(ProbeNotRun);
        SkipProbe(NovaInvocationAccessUnproven, before);
      } else if reasons != [] {
        probe := Some(ProbeNotRun);
        SkipProbe(NovaInvocationProbeSkippedDueToPriorBlocker, before);
      } else {
        var made := Probe();
        return Some(made);
      }
      GapsWiden(before, reasons, {}, Gap(Converse, Unanswered(probe)));
    }

    // The inference profile, and whether it is the agreed one.
    method ReadProfile(contract: Contract) returns (profile: Option<NovaProfile>, valid: bool)
      requires Progress(12)
      modifies this
      ensures Progress(13)
      ensures NewReasons(old(reasons), reasons, Gap(GetInferenceProfile, profile.None?))
      ensures if profile.None? then reasons != [] && !valid else reasons == old(reasons)
      ensures valid ==> profile.Some? && NovaProfileIsValid(profile.value)
      ensures valid <==> ProfileShown(world, contract)
    {
      assert BEDROCK !in clients;
      var response := Read(GetInferenceProfile, 12);
      if response.None? {
        return None, false;
      }
      var shown;
      shown, valid := ReadNovaProfile(response.value, contract);
      profile := Some(shown);
    }

    method ObserveNova(contract: Contract) returns (profile: Option<NovaProfile>, probe: Option<NovaProbe>)
      requires Progress(12)
      modifies this
      ensures Progress(14)
      ensures NewReasons(old(reasons), reasons, ModelGaps(profile, probe))
      ensures reasons == [] ==> profile.Some? && NovaProfileIsValid(profile.value)
      ensures reasons == [] ==> probe.Some? && NovaProbeIsValid(probe.value)
      ensures reasons == [] <==> old(reasons) == [] && ModelPasses(world, contract)
    {
      ghost var before := reasons;
      var valid;
      profile, valid := ReadProfile(contract);
      ghost var middle := reasons;
      if profile.None? {
        ProgressBySkip(ledger, reasons, 13, reasons);
        GapsWiden(before, reasons, Gap(GetInferenceProfile, true), ModelGaps(None, None));
        return None, None;
      }
      probe := ProbeModel(valid, contract);
      ReasonsAddUp(before, middle, reasons, {}, Gap(Converse, Unanswered(probe)), ModelGaps(profile, probe));
    }

    // The synthetic call, made on a clean record only.
    method Probe() returns (probe: NovaProbe)
      requires Progress(13) && reasons == []
      modifies this
      ensures Progress(14)
      ensures NewReasons([], reasons, Gap(Converse, Unanswered(Some(probe))))
      ensures reasons == [] ==> NovaProbeIsValid(probe)
      ensures reasons == [] <==> 13 in world.clients && Reply(world, 13).Some?
    {
      assert BEDROCK_RUNTIME !in clients;
      var response := Read(Converse, 13);
      var latency := if world.elapsed < 0 then 0 else world.elapsed;
      if response.None? {
        ReasonNoted([], reasons, {Converse}, NovaSyntheticConverseFailed);
        AddReason(NovaSyntheticConverseFailed, 14);
      }
      return NovaProbe.Probe(latency, response.Some?, response.Some?, false);
    }

    // The subscribers of the three notifications, one call each; a failed call leaves no entry.
    method ObserveOwners(contract: Contract) returns (owners: seq<bool>)
      requires Progress(16) && (reasons == [] ==> BUDGETS in clients)
      modifies this`clients, this`reasons, this`ledger
      ensures Progress(19) && |owners| <= THRESHOLD_COUNT
      ensures NewReasons(
                old(reasons), reasons, Gap(DescribeSubscribersForNotification, |owners| < THRESHOLD_COUNT))
      ensures reasons == [] ==> owners == [true, true, true]
      ensures reasons == [] <==> old(reasons) == [] && OwnersPass(world, contract)
    {
      ghost var before := reasons;
      owners := [];
      for i := 0 to THRESHOLD_COUNT
        invariant Progress(16 + i) && |owners| <= i && (reasons == [] ==> BUDGETS in clients)
        invariant reasons == [] <==> before == [] && forall j | 0 <= j < i :: NotifiedOwnerPasses(world, j, contract)
        invariant NewReasons(before, reasons, Gap(DescribeSubscribersForNotification, |owners| < i))
        invariant reasons == [] ==> |owners| == i && forall j | 0 <= j < |owners| :: owners[j]
      {
        ghost var middle, gaps := reasons, Gap(DescribeSubscribersForNotification, |owners| < i);
        var owner := AskOwner(contract, i);
        if owner.Some? {
          owners := owners + [owner.value];
        }
        ReasonsAddUp(
          before, middle, reasons, gaps, Gap(DescribeSubscribersForNotification, owner.None?),
          Gap(DescribeSubscribersForNotification, |owners| < i + 1));
      }
    }

    // The subscribers of one notification.
    method AskOwner(contract: Contract, i: nat) returns (owner: Option<bool>)
      requires i < THRESHOLD_COUNT && Progress(16 + i) && (reasons == [] ==> BUDGETS in clients)
      modifies this`clients, this`reasons, this`ledger
      ensures Progress(17 + i) && (reasons == [] ==> BUDGETS in clients)
      ensures NewReasons(old(reasons), reasons, Gap(DescribeSubscribersForNotification, owner.None?))
      ensures reasons == [] ==> owner == Some(true)
      ensures reasons == [] <==> old(reasons) == [] && NotifiedOwnerPasses(world, i, contract)
    {
      var response := Read(DescribeSubscribersForNotification, 16 + i);
      if response.None? {
        return None;
      }
      var ownerPresent := OwnerPresent(Get(response.value, "Subscribers"), contract);
      var paged := Truthy(Get(response.value, "NextToken"));
      if !ownerPresent || paged {
        AddReason(BudgetNotificationOwnerMissing, 17 + i);
      }
      return Some(ownerPresent && !paged);
    }

    // Are the notifications exactly one for each threshold?
    method ReadThresholds(notifications: seq<Value>) returns (exact: bool)
      ensures exact <==> ThresholdsExact(notifications)
    {
      var thresholds: set<real> := {};
      for i := 0 to |notifications|
        invariant thresholds == set j | 0 <= j < i && NotificationThreshold(notifications[j]).Some? ::
                    NotificationThreshold(notifications[j]).value
      {
        var threshold := NotificationThreshold(notifications[i]);
        if threshold.Some? {
          thresholds := thresholds + {threshold.value};
        }
      }
      exact := thresholds == (set t | t in THRESHOLDS) && |notifications| == THRESHOLD_COUNT;
      SameThresholds(notifications, thresholds);
    }

    // Thresholds and owners, when the notifications were listed at all.
    method ObserveNotifications(response: Option<Mapping>, contract: Contract)
        returns (thresholds: Option<bool>, owners: Option<seq<bool>>)
      requires Progress(16) && (response.None? ==> reasons != []) && (reasons == [] ==> BUDGETS in clients)
      modifies this`clients, this`reasons, this`ledger
      ensures Progress(19)
      ensures response.None? ==> thresholds.None?
      ensures NewReasons(
                old(reasons), reasons,
                Gap(DescribeSubscribersForNotification, owners.None? || |owners.value| < THRESHOLD_COUNT))
      ensures reasons == [] ==> thresholds == Some(true) && owners == Some([true, true, true])
      ensures reasons == [] <==>
        old(reasons) == [] && response.Some? && NotificationsPass(response.value) && OwnersPass(world, contract)
    {
      thresholds, owners := None, None;
      if response.Some? {
        var notifications := Get(response.value, "Notifications");
        if !notifications.List? || Truthy(Get(response.value, "NextToken")) {
          AddReason(BudgetThresholdsInvalid, 16);
        } else {
          var exact := ReadThresholds(notifications.items);
          thresholds := Some(exact);
          if exact {
            var present := ObserveOwners(contract);
            return thresholds, Some(present);
          }
          AddReason(BudgetThresholdsInvalid, 16);
        }
      }
      ProgressBySkips(ledger, reasons, 16, 19);
    }

    // Is the budget the agreed one?
    method JudgeBudget(response: Option<Mapping>, contract: Contract, ghost k: nat)
        returns (configuration: Option<bool>)
      requires Progress(k)
      modifies this`reasons
      ensures Progress(k)
      ensures configuration.Some? <==> response.Some?
      ensures NewReasons(old(reasons), reasons, {})
      ensures reasons == [] && response.Some? ==> configuration == Some(true)
      ensures response.Some? ==>
        (reasons == [] <==> old(reasons) == [] && BudgetConfigured(Get(response.value, "Budget"), contract))
      ensures response.None? ==> reasons == old(reasons)
    {
      configuration := None;
      if response.Some? {
        configuration := Some(BudgetConfigured(Get(response.value, "Budget"), contract));
        if configuration == Some(false) {
          AddReason(BudgetConfigurationInvalid, k);
        }
      }
    }

    method ObserveBudgets(contract: Contract) returns (budget: Budget)
      requires Progress(14)
      modifies this
      ensures Progress(19)
      ensures NewReasons(old(reasons), reasons, BudgetGaps(budget))
      ensures reasons == [] ==> BudgetIsValid(budget)
      ensures reasons == [] <==> old(reasons) == [] && BudgetPasses(world, contract)
    {
      ghost var r0 := reasons;
      assert BUDGETS !in clients;
      var budgetResponse := Read(DescribeBudget, 14);
      ghost var r1 := reasons;
      var notificationsResponse := Read(DescribeNotificationsForBudget, 15);
      ghost var r2 := reasons;
      var configuration := JudgeBudget(budgetResponse, contract, 16);
      ghost var r3 := reasons;
      var thresholds, owners := ObserveNotifications(notificationsResponse, contract);
      budget := Budget(configuration, thresholds, owners);
      BudgetReasons(r0, r1, r2, r3, reasons, budget, budgetResponse.None?, notificationsResponse.None?);
    }

    // The other five stages, after an identity that was answered and fits.
    method ObserveResources(identity: Mapping, contract: Contract)
        returns (o: Observations, problem: Option<Rejection>)
      requires Progress(1) && reasons == [] && contract.cwPeriod > 0
      requires IdentityPasses(world, contract) && IdentityMatches(identity, contract)
      modifies this
      ensures o.callerIdentity == Some(identity)
      ensures problem.Some? ==> !BucketStorable(world)
      ensures problem.None? ==>
        && Progress(19) && Settled(reasons, o)
        && (reasons == [] <==> Passes(world, contract))
        && (reasons == [] ==> StagesAreValid(o, contract) && BucketStorable(world))
    {
      var responses;
      o := NO_OBSERVATIONS.(callerIdentity := Some(identity));
      responses, problem := ObserveBucket(contract);
      if problem.Some? {
        return;
      }
      ghost var r1 := reasons;
      var secret, path := ObserveIam(contract);
      ghost var r2 := reasons;
      var target := ObserveEc2(contract);
      ghost var r3 := reasons;
      var window := ObserveCloudwatch(contract);
      ghost var r4 := reasons;
      var profile, probe := ObserveNova(contract);
      ghost var r5 := reasons;
      var budget := ObserveBudgets(contract);
      o := Observations(
        Some(identity), Some(responses), secret, path, target, window, profile, probe, Some(budget));
      ResourcesSettle(r1, r2, r3, r4, r5, reasons, responses, o);
    }
  }

  // ---------- The whole run ----------

  // What every receipt of the observer satisfies, whatever AWS answered.
  ghost predicate FaithfulReceipt(receipt: PrivateReceipt, raw: RawContract, candidate: Candidate) {
    && receipt.privateContract == raw
    && receipt.candidate == candidate
    && receipt.writeOperations == []
    && (receipt.status == Pass <==> receipt.reasons == [])
    && (receipt.reasons == [] <==> AllTrue(receipt.checks))
    && (AllTrue(receipt.checks) ==> Operations(receipt.callLedger) == PASS_OPERATION_SEQUENCE)
    && WellNumbered(receipt.callLedger)
    && IsSubsequence(Operations(receipt.callLedger), PASS_OPERATION_SEQUENCE)
    && ConverseOnlyAfterCleanRun(receipt.callLedger)
    && (ValidatePrivateReceipt(receipt, candidate, None).None? <==>
        && Fresh(receipt.observedAt, raw.selectionTime)
        && (receipt.status == Pass ==> IdentityIsExact(receipt.observations)))
  }

  lemma EndedRunIsFaithful(
    e: Evidence, raw: RawContract, candidate: Candidate, digest: string, now: int, nonce: string,
    receipt: PrivateReceipt)
    requires ValidateCandidate(candidate, digest).None?
    requires ValidateContract(raw, digest, now).Success?
    requires RunEnded(e, ContractFrom(raw, now))
    requires NonceWellFormed(nonce)
    requires receipt == FinishReceipt(e, ContractFrom(raw, now), candidate, digest, TruncateToSecond(now), nonce)
    ensures FaithfulReceipt(receipt, raw, candidate)
  {
    ReceiptIsAccepted(e, raw, candidate, digest, now, nonce, receipt);
    NoReasonIffAllChecks(e, ContractFrom(raw, now));
    PlannedLedger(e.ledger);
  }

  // The receipts the loader's whole-second selection times lead to are all accepted, but for the
  // one case of a passing run on an identity answer with unexpected keys.
  lemma WholeSecondReceiptAccepted(receipt: PrivateReceipt, raw: RawContract, candidate: Candidate, now: int)
    requires FaithfulReceipt(receipt, raw, candidate)
    requires Fresh(now, raw.selectionTime) && receipt.observedAt == TruncateToSecond(now)
    requires raw.selectionTime % MICROS == 0
    ensures ValidatePrivateReceipt(receipt, candidate, None).None? <==>
            (receipt.status == Pass ==> IdentityIsExact(receipt.observations))
  {
    TruncationKeepsFreshness(raw.selectionTime);
  }

  // What is demanded before any call: clock() is None for a datetime without a time zone.
  predicate RequestValid(
    sessionProfile: string, raw: RawContract, candidate: Candidate, digest: string, clock: Option<int>, nonce: string)
  {
    && ValidateCandidate(candidate, digest).None?
    && clock.Some?
    && NonceWellFormed(nonce)
    && ValidateContract(raw, digest, clock.value).Success?
    && sessionProfile == raw.selectedProfile
  }

  // The stages in order, on a fresh context.
  method RunStages(world: World, contract: Contract) returns (r: Result<Evidence, Rejection>)
    requires contract.cwPeriod > 0
    ensures AllStorable(world) ==> r.Success?
    ensures r.Success? ==>
      && RunEnded(r.value, contract) && CALLS in world.small
      && (r.value.reasons == [] <==> Passes(world, contract))
      && (r.value.reasons == [] ==> AllStorable(world) && r.value.observations.callerIdentity == StoredIdentity(world))
  {
    var context := new Context(world);
    var identity, problem := context.ObserveIdentity(contract);
    var o := NO_OBSERVATIONS.(callerIdentity := identity);
    if problem.None? && context.reasons == [] {
      o, problem := context.ObserveResources(identity.value, contract);
    } else if problem.None? {
      ProgressBySkips(context.ledger, context.reasons, 1, CALLS);
      SettledFurther([], context.reasons, Gap(GetCallerIdentity, identity.None?), o);
    }
    if problem.Some? {
      return Failure(problem.value);
    }
    if CALLS !in world.small {
      return Failure(CanonicalDocumentTooLarge);
    }
    return Success(Evidence(context.ledger, context.reasons, o));
  }

  // The whole observation, as the world decides it: a valid request is answered with a receipt as
  // long as everything can be stored, and the receipt says PASS exactly when the world passes.
  method ObserveAwsPreflight(
    world: World, sessionProfile: string, raw: RawContract, candidate: Candidate, digest: string, clock: Option<int>,
    nonce: string)
    returns (r: Result<PrivateReceipt, Rejection>)
    ensures r.Success? ==> RequestValid(sessionProfile, raw, candidate, digest, clock, nonce)
    ensures RequestValid(sessionProfile, raw, candidate, digest, clock, nonce) && AllStorable(world) ==> r.Success?
    ensures r.Success? ==>
      && FaithfulReceipt(r.value, raw, candidate)
      && r.value.observedAt == TruncateToSecond(clock.value) && Fresh(clock.value, raw.selectionTime)
      && r.value.receiptNonce == nonce
    ensures r.Success? ==>
      var contract := ContractFrom(raw, clock.value);
      contract.cwPeriod > 0 && (r.value.status == Pass <==> Passes(world, contract))
    ensures r.Success? && r.value.status == Pass ==>
      AllStorable(world) && r.value.observations.callerIdentity == StoredIdentity(world)
  {
    var problem := ValidateCandidate(candidate, digest);
    if problem.Some? {
      return Failure(problem.value);
    }
    if clock.None? {
      return Failure(ObservationTimeInvalid);
    }
    if !NonceWellFormed(nonce) {
      return Failure(ReceiptNonceInvalid);
    }
    var now := clock.value;
    var validated := ValidateContract(raw, digest, now);
    if validated.Failure? {
      return Failure(validated.error);
    }
    var contract := validated.value;
    if sessionProfile != contract.deploymentProfile {
      return Failure(SessionProfileMismatch);
    }
    var run := RunStages(world, contract);
    if run.Failure? {
      return Failure(run.error);
    }
    var e := run.value;
    var receipt := FinishReceipt(e, contract, candidate, digest, TruncateToSecond(now), nonce);
    EndedRunIsFaithful(e, raw, candidate, digest, now, nonce, receipt);
    return Success(receipt);
  }
}
