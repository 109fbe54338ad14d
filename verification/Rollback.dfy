/**
 The two-alias rollback: a plan that is read from the live aliases, confirmed by its hash,
 executed update by update, and verified by reading a fresh plan.

 Every AWS read may fail. An alias update is acknowledged, refused, or applied although it is
 reported as failed. Nobody else moves the aliases meanwhile.
 */
module Rollback {
  import opened Wrappers

  const EXPECTED_REGION := "eu-central-1"

  datatype Request = Request(
    stackName: string,
    orchestratorFunctionName: string,
    executorFunctionName: string,
    orchestratorPreviousVersion: string,
    executorPreviousVersion: string,
    profile: string,
    region: string)

  datatype Status = FAIL | BLOCKED | PARTIAL

  datatype RollbackFailure = RollbackFailure(reason: string, status: Status)

  // A missing or ill-typed entry field is None.
  datatype AliasEntry =
    | AliasEntry(
        currentVersion: string, functionName: Option<string>, pending: bool, role: string,
        targetVersion: Option<string>)
    | NotAnEntry

  datatype Plan = Plan(aliases: Option<seq<AliasEntry>>, region: string, stackName: string)

  // SHA-256 of the canonical plan: an injective tag.
  datatype PlanHash = OfPlan(plan: Plan) | OtherHash(text: string)

  datatype SignedPlan = SignedPlan(plan: Plan, hash: PlanHash)

  type Aliases = map<string, string>

  datatype Update = Update(functionName: string, version: string)

  // ---------- Request shapes ----------

  predicate Alphanumeric(c: char) {
    'A' <= c <= 'Z' || 'a' <= c <= 'z' || '0' <= c <= '9'
  }

  predicate NameValid(name: string, extra: set<char>) {
    1 <= |name| <= 128 && Alphanumeric(name[0]) && forall c | c in name :: Alphanumeric(c) || c in extra
  }

  predicate VersionValid(version: string) {
    version != "" && '1' <= version[0] <= '9' && forall c | c in version :: '0' <= c <= '9'
  }

  function RequestProblem(request: Request): Option<string> {
    if !NameValid(request.stackName, {'-'}) then Some("STACK_NAME_INVALID")
    else if !NameValid(request.orchestratorFunctionName, {'-'}) || !NameValid(request.executorFunctionName, {'-'}) then
      Some("FUNCTION_NAME_INVALID")
    else if request.orchestratorFunctionName == request.executorFunctionName then Some("FUNCTION_NAMES_MUST_DIFFER")
    else if !VersionValid(request.orchestratorPreviousVersion) || !VersionValid(request.executorPreviousVersion) then
      Some("PREVIOUS_VERSION_INVALID")
    else if !NameValid(request.profile, {'-', '_', '.', '@'}) then Some("PROFILE_NAME_INVALID")
    else if request.region != EXPECTED_REGION then Some("REGION_NOT_EU_CENTRAL_1")
    else None
  }

  // ---------- What a plan says ----------

  // Executor first, orchestrator second.
  function Targets(request: Request): seq<(string, Update)> {
    [("executor", Update(request.executorFunctionName, request.executorPreviousVersion)),
     ("orchestrator", Update(request.orchestratorFunctionName, request.orchestratorPreviousVersion))]
  }

  function EntryFor(role: string, target: Update, current: string): AliasEntry {
    AliasEntry(current, Some(target.functionName), current != target.version, role, Some(target.version))
  }

  predicate BothLive(request: Request, live: Aliases) {
    request.executorFunctionName in live && request.orchestratorFunctionName in live
  }

  // The plan an observer of the given aliases draws up.
  function PlanFor(request: Request, live: Aliases): Plan
    requires BothLive(request, live)
  {
    var t := Targets(request);
    Plan(
      Some([EntryFor(t[0].0, t[0].1, live[t[0].1.functionName]), EntryFor(t[1].0, t[1].1, live[t[1].1.functionName])]),
      request.region, request.stackName)
  }

  predicate EntryWellFormed(entry: AliasEntry) {
    entry.AliasEntry? && entry.functionName.Some? && entry.targetVersion.Some?
  }

  // The updates an execution issues, in order, up to the first malformed pending entry.
  function PendingUpdates(entries: seq<AliasEntry>): seq<Update> {
    if entries == [] then []
    else if entries[0].NotAnEntry? || !entries[0].pending then PendingUpdates(entries[1..])
    else if !EntryWellFormed(entries[0]) then []
    else [Update(entries[0].functionName.value, entries[0].targetVersion.value)] + PendingUpdates(entries[1..])
  }

  function Apply(live: Aliases, updates: seq<Update>): Aliases
    decreases |updates|
  {
    if updates == [] then live
    else Apply(live[updates[0].functionName := updates[0].version], updates[1..])
  }

  lemma {:induction false} ApplyOneMore(live: Aliases, updates: seq<Update>, update: Update)
    ensures Apply(live, updates + [update]) == Apply(live, updates)[update.functionName := update.version]
    decreases |updates|
  {
    if updates == [] {
      assert Apply(live, [update]) == Apply(live[update.functionName := update.version], []);
    } else {
      ApplyOneMore(live[updates[0].functionName := updates[0].version], updates[1..], update);
      assert (updates + [update])[1..] == updates[1..] + [update];
    }
  }

  predicate NothingPending(request: Request, live: Aliases) {
    && BothLive(request, live)
    && live[request.executorFunctionName] == request.executorPreviousVersion
    && live[request.orchestratorFunctionName] == request.orchestratorPreviousVersion
  }

  // ---------- AWS and the two commands ----------

  datatype UpdateOutcome = Acknowledged | Refused | AppliedButFailed

  class Lambda {
    var live: Aliases                        // function name -> version of the alias "live"
    const retained: map<string, set<string>> // function name -> published versions
    const stackFunctions: set<string>

    constructor (live: Aliases, retained: map<string, set<string>>, stackFunctions: set<string>)
      ensures this.live == live && this.retained == retained && this.stackFunctions == stackFunctions
    {
      this.live, this.retained, this.stackFunctions := live, retained, stackFunctions;
    }

    predicate IsRetained(functionName: string, version: string) {
      functionName in retained && version in retained[functionName]
    }

    method DescribeStack() returns (r: Option<set<string>>)
      ensures r.Some? ==> r.value == stackFunctions
    {
      var answered: bool := *;
      return if answered then Some(stackFunctions) else None;
    }

    method GetAlias(functionName: string) returns (r: Option<string>)
      ensures r.Some? ==> functionName in live && r.value == live[functionName]
    {
      var answered: bool := *;
      return if answered && functionName in live then Some(live[functionName]) else None;
    }

    // The version a qualified function configuration reports; only published ones report their own.
    method GetFunctionVersion(functionName: string, version: string) returns (r: Option<string>)
      ensures r == Some(version) ==> IsRetained(functionName, version)
    {
      var answered: bool, other: string := *, *;
      if !answered {
        return None;
      }
      return if IsRetained(functionName, version) then Some(version)
             else if other != version then Some(other) else None;
    }

    method UpdateAlias(functionName: string, version: string) returns (acknowledged: bool)
      modifies this`live
      ensures acknowledged ==> live == old(live)[functionName := version]
      ensures live == old(live) || live == old(live)[functionName := version]
    {
      var outcome: UpdateOutcome := *;
      if outcome == Refused || functionName !in live || !IsRetained(functionName, version) {
        return false;
      }
      live := live[functionName := version];
      return outcome == Acknowledged;
    }

    predicate Reachable(request: Request)
      reads this
    {
      && NothingPending(request, live)
      && IsRetained(request.executorFunctionName, request.executorPreviousVersion)
      && IsRetained(request.orchestratorFunctionName, request.orchestratorPreviousVersion)
    }

    // Read both aliases and check that the requested versions still exist.
    method BuildPlan(request: Request) returns (r: Result<SignedPlan, RollbackFailure>)
      ensures r.Success? ==>
        && RequestProblem(request).None?
        && BothLive(request, live)
        && r.value.plan == PlanFor(request, live)
        && r.value.hash == OfPlan(r.value.plan)
        && IsRetained(request.executorFunctionName, request.executorPreviousVersion)
        && IsRetained(request.orchestratorFunctionName, request.orchestratorPreviousVersion)
        && {request.executorFunctionName, request.orchestratorFunctionName} <= stackFunctions
      ensures r.Failure? ==> r.error.status != PARTIAL
      ensures RequestProblem(request).Some? ==>
        r == Failure(RollbackFailure(RequestProblem(request).value, FAIL))
    {
      var problem := RequestProblem(request);
      if problem.Some? {
        return Failure(RollbackFailure(problem.value, FAIL));
      }
      var functions := DescribeStack();
      if functions.None? {
        return Failure(RollbackFailure("STACK_RESOURCE_PREFLIGHT_INVALID", BLOCKED));
      }
      if !({request.executorFunctionName, request.orchestratorFunctionName} <= functions.value) {
        return Failure(RollbackFailure("FUNCTION_NOT_OWNED_BY_STACK", FAIL));
      }
      var targets := Targets(request);
      var aliases: seq<AliasEntry> := [];
      for i := 0 to |targets|
        invariant |aliases| == i
        invariant forall j | 0 <= j < i ::
          && targets[j].1.functionName in live
          && aliases[j] == EntryFor(targets[j].0, targets[j].1, live[targets[j].1.functionName])
          && IsRetained(targets[j].1.functionName, targets[j].1.version)
      {
        var (role, target) := targets[i];
        var current := GetAlias(target.functionName);
        if current.None? {
          return Failure(RollbackFailure("AWS_READ_PREFLIGHT_FAILED", BLOCKED));
        }
        if !VersionValid(current.value) {
          return Failure(RollbackFailure("LIVE_ALIAS_VERSION_INVALID", BLOCKED));
        }
        var configured := GetFunctionVersion(target.functionName, target.version);
        if configured != Some(target.version) {
          return Failure(RollbackFailure("PREVIOUS_VERSION_NOT_RETAINED", BLOCKED));
        }
        aliases := aliases + [EntryFor(role, target, current.value)];
      }
      assert IsRetained(targets[0].1.functionName, targets[0].1.version);
      assert IsRetained(targets[1].1.functionName, targets[1].1.version);
      assert PlanFor(request, live).aliases.value == aliases;
      var plan := Plan(Some(aliases), request.region, request.stackName);
      return Success(SignedPlan(plan, OfPlan(plan)));
    }

    // Issue the pending updates in order; stop at the first one that is not acknowledged.
    method ExecutePlan(request: Request, signed: SignedPlan, confirmed: Option<PlanHash>)
        returns (r: Result<PlanHash, RollbackFailure>, ghost applied: nat)
      modifies this`live
      ensures signed.plan.aliases.Some? ==> applied <= |PendingUpdates(signed.plan.aliases.value)|
      ensures live == (if signed.plan.aliases.Some?
                       then Apply(old(live), PendingUpdates(signed.plan.aliases.value)[..applied])
                       else old(live))
      ensures confirmed != Some(signed.hash) ==>
        live == old(live) && r == Failure(RollbackFailure("PLAN_CONFIRMATION_REQUIRED", BLOCKED))
      ensures r.Success? ==> r.value == signed.hash && Reachable(request)
    {
      applied := 0;
      if confirmed != Some(signed.hash) {
        return Failure(RollbackFailure("PLAN_CONFIRMATION_REQUIRED", BLOCKED)), 0;
      }
      if signed.plan.aliases.None? {
        return Failure(RollbackFailure("ROLLBACK_PLAN_INVALID", FAIL)), 0;
      }
      var entries := signed.plan.aliases.value;
      ghost var updates, start := PendingUpdates(entries), live;
      for i := 0 to |entries|
        invariant applied <= |updates| && updates[applied..] == PendingUpdates(entries[i..])
        invariant live == Apply(start, updates[..applied])
      {
        var entry := entries[i];
        assert entries[i..] == [entry] + entries[i + 1..];
        if entry.NotAnEntry? || !entry.pending {
          continue;
        }
        if !EntryWellFormed(entry) {
          return Failure(RollbackFailure("ROLLBACK_PLAN_INVALID", FAIL)), applied;
        }
        ghost var next := updates[applied];
        assert updates[applied..][1..] == updates[applied + 1..];
        assert updates[..applied + 1] == updates[..applied] + [next];
        ApplyOneMore(start, updates[..applied], next);
        ghost var untouched := live;
        var acknowledged := UpdateAlias(entry.functionName.value, entry.targetVersion.value);
        applied := if live == untouched[next.functionName := next.version] then applied + 1 else applied;
        if !acknowledged {
          return Failure(RollbackFailure("ALIAS_RECONCILIATION_REQUIRED", PARTIAL)), applied;
        }
      }
      var verified := BuildPlan(request);
      if verified.Failure? {
        return Failure(verified.error), applied;
      }
      if exists entry | entry in verified.value.plan.aliases.value :: entry.AliasEntry? && entry.pending {
        return Failure(RollbackFailure("ALIAS_RECONCILIATION_REQUIRED", PARTIAL)), applied;
      }
      NoPendingEntryMeansNothingPending(request, live);
      return Success(signed.hash), applied;
    }

    // The command: a fresh plan, and with --execute its confirmed execution.
    method Rollback(request: Request, confirmed: Option<PlanHash>)
        returns (r: Result<PlanHash, RollbackFailure>, ghost applied: nat)
      modifies this`live
      ensures BothLive(request, old(live)) ==> Round(request, old(live), live, applied)
      ensures !BothLive(request, old(live)) ==> live == old(live)
      ensures BothLive(request, old(live)) && confirmed != Some(OfPlan(PlanFor(request, old(live)))) ==>
        live == old(live) && r.Failure?
      ensures r.Success? ==> Reachable(request)
    {
      var signed := BuildPlan(request);
      if signed.Failure? {
        ghost var none: seq<Update> := [];
        return Failure(signed.error), 0;
      }
      r, applied := ExecutePlan(request, signed.value, confirmed);
    }
  }

  lemma NoPendingEntryMeansNothingPending(request: Request, live: Aliases)
    requires BothLive(request, live)
    requires forall entry | entry in PlanFor(request, live).aliases.value :: !entry.pending
    ensures NothingPending(request, live)
  {
    var aliases := PlanFor(request, live).aliases.value;
    assert !aliases[0].pending && !aliases[1].pending;
  }

  // ---------- Many rounds ----------

  // One round: plan from the current aliases, then the first k pending updates took effect.
  predicate Round(request: Request, live: Aliases, live': Aliases, k: nat)
    requires BothLive(request, live)
  {
    var updates := PendingUpdates(PlanFor(request, live).aliases.value);
    k <= |updates| && live' == Apply(live, updates[..k])
  }

  function PendingCount(request: Request, live: Aliases): nat
    requires BothLive(request, live)
  {
    |PendingUpdates(PlanFor(request, live).aliases.value)|
  }

  predicate IsPending(target: Update, live: Aliases)
    requires target.functionName in live
  {
    live[target.functionName] != target.version
  }

  lemma PendingUpdatesOfPlan(request: Request, live: Aliases)
    requires BothLive(request, live)
    ensures
      var executor, orchestrator := Targets(request)[0].1, Targets(request)[1].1;
      PendingUpdates(PlanFor(request, live).aliases.value) ==
        (if IsPending(executor, live) then [executor] else [])
        + (if IsPending(orchestrator, live) then [orchestrator] else [])
  {
    var entries := PlanFor(request, live).aliases.value;
    assert entries[1..][1..] == [];
    assert PendingUpdates(entries[1..]) ==
      if IsPending(Targets(request)[1].1, live) then [Targets(request)[1].1] + [] else [];
  }

  // Every applied update settles one alias for good and touches nothing else.
  lemma RoundSettles(request: Request, live: Aliases, live': Aliases, k: nat)
    requires request.executorFunctionName != request.orchestratorFunctionName
    requires BothLive(request, live) && Round(request, live, live', k)
    ensures BothLive(request, live')
    ensures PendingCount(request, live') + k == PendingCount(request, live) <= 2
    ensures PendingCount(request, live') == 0 <==> NothingPending(request, live')
    ensures live'.Keys == live.Keys
    ensures forall f | f in live && f != request.executorFunctionName && f != request.orchestratorFunctionName ::
              live'[f] == live[f]
    // the executor moves first
    ensures live' != live && IsPending(Targets(request)[0].1, live) ==> !IsPending(Targets(request)[0].1, live')
  {
    var updates := PendingUpdates(PlanFor(request, live).aliases.value);
    PendingUpdatesOfPlan(request, live);
    if k > 0 {
      ApplyOneMore(live, [], updates[0]);
      assert updates[..1] == [] + [updates[0]];
    }
    if k == 2 {
      ApplyOneMore(live, updates[..1], updates[1]);
      assert updates[..2] == updates[..1] + [updates[1]];
    }
    PendingUpdatesOfPlan(request, live');
  }

  // A run of rounds: the aliases before, between and after, and the updates applied in each.
  predicate Rounds(request: Request, states: seq<Aliases>, applied: seq<nat>) {
    && |states| == |applied| + 1
    && (forall i | 0 <= i < |states| :: BothLive(request, states[i]))
    && (forall i | 0 <= i < |applied| :: Round(request, states[i], states[i + 1], applied[i]))
  }

  function Sum(s: seq<nat>): nat {
    if s == [] then 0 else s[0] + Sum(s[1..])
  }

  // However often planning and execution are repeated, and wherever each stops, at most two
  // updates are ever applied, and nothing is pending once all that were pending at the start are.
  lemma {:induction false} RoundsConverge(request: Request, states: seq<Aliases>, applied: seq<nat>)
    requires request.executorFunctionName != request.orchestratorFunctionName
    requires Rounds(request, states, applied)
    ensures Sum(applied) + PendingCount(request, states[|applied|]) == PendingCount(request, states[0]) <= 2
    ensures Sum(applied) == PendingCount(request, states[0]) <==> NothingPending(request, states[|applied|])
  {
    PendingUpdatesOfPlan(request, states[0]);
    if applied != [] {
      RoundSettles(request, states[0], states[1], applied[0]);
      assert Rounds(request, states[1..], applied[1..]) by {
        forall i | 0 <= i < |applied[1..]|
          ensures Round(request, states[1..][i], states[1..][i + 1], applied[1..][i])
        {
          assert Round(request, states[i + 1], states[i + 2], applied[i + 1]);
        }
      }
      RoundsConverge(request, states[1..], applied[1..]);
    }
  }

  // Two fresh plans have the same hash exactly when both aliases stand where they stood.
  lemma PlanHashPinsAliases(request: Request, live: Aliases, live': Aliases)
    requires BothLive(request, live) && BothLive(request, live')
    ensures OfPlan(PlanFor(request, live)) == OfPlan(PlanFor(request, live')) <==>
            && live[request.executorFunctionName] == live'[request.executorFunctionName]
            && live[request.orchestratorFunctionName] == live'[request.orchestratorFunctionName]
  {
    var before, after := PlanFor(request, live).aliases.value, PlanFor(request, live').aliases.value;
    if before == after {
      assert before[0].currentVersion == after[0].currentVersion;
      assert before[1].currentVersion == after[1].currentVersion;
    }
  }

  // Once any planned update has taken effect, the hash that was confirmed before no longer
  // belongs to a fresh plan, so executing under the old confirmation is refused.
  lemma ConfirmationExpires(request: Request, live: Aliases, live': Aliases, k: nat)
    requires request.executorFunctionName != request.orchestratorFunctionName
    requires BothLive(request, live) && Round(request, live, live', k)
    ensures BothLive(request, live')
    ensures k > 0 <==> OfPlan(PlanFor(request, live')) != OfPlan(PlanFor(request, live))
  {
    RoundSettles(request, live, live', k);
    PendingUpdatesOfPlan(request, live);
    PendingUpdatesOfPlan(request, live');
    PlanHashPinsAliases(request, live, live');
  }
}
