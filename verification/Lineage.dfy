/**
 The frozen commit lineage: which Git questions the manifest validator asks about its anchors,
 and what a clean answer says about an arbitrary acyclic commit graph.
 */
module Lineage {
  import opened Wrappers

  type Commit = string

  // generation grows from parent to child, so the graph has no cycle.
  datatype Graph = Graph(parents: map<Commit, seq<Commit>>, generation: map<Commit, nat>)

  predicate Acyclic(g: Graph) {
    && g.generation.Keys == g.parents.Keys
    && forall c | c in g.parents :: forall p | p in g.parents[c] ::
         p in g.parents && g.generation[p] < g.generation[c]
  }

  // Is to reachable from from by following parents?
  predicate Reaches(g: Graph, from: Commit, to: Commit)
    requires Acyclic(g) && from in g.parents
    decreases g.generation[from]
  {
    to == from || exists p | p in g.parents[from] :: Reaches(g, p, to)
  }

  // git merge-base --is-ancestor a b
  predicate IsAncestor(g: Graph, a: Commit, b: Commit)
    requires Acyclic(g)
  {
    a in g.parents && b in g.parents && Reaches(g, b, a)
  }

  // git rev-list --parents -n 1 child prints exactly "child parent"
  predicate OnlyParent(g: Graph, parent: Commit, child: Commit) {
    child in g.parents && g.parents[child] == [parent]
  }

  // ---------- Reachability is what paths say it is ----------

  predicate IsPath(g: Graph, path: seq<Commit>) {
    && path != []
    && (forall i | 0 <= i < |path| :: path[i] in g.parents)
    && forall i | 0 <= i < |path| - 1 :: path[i + 1] in g.parents[path[i]]
  }

  lemma {:induction false} ReachableHasPath(g: Graph, from: Commit, to: Commit) returns (path: seq<Commit>)
    requires Acyclic(g) && from in g.parents && Reaches(g, from, to)
    ensures IsPath(g, path) && path[0] == from && path[|path| - 1] == to
    decreases g.generation[from]
  {
    if to == from {
      path := [from];
    } else {
      var p :| p in g.parents[from] && Reaches(g, p, to);
      var rest := ReachableHasPath(g, p, to);
      path := [from] + rest;
    }
  }

  lemma {:induction false} PathReaches(g: Graph, path: seq<Commit>)
    requires Acyclic(g) && IsPath(g, path)
    ensures Reaches(g, path[0], path[|path| - 1])
  {
    if |path| > 1 {
      assert IsPath(g, path[1..]);
      PathReaches(g, path[1..]);
      assert path[1] in g.parents[path[0]];
    }
  }

  lemma ReachesIffPath(g: Graph, from: Commit, to: Commit)
    requires Acyclic(g) && from in g.parents
    ensures Reaches(g, from, to) <==>
            exists path :: IsPath(g, path) && path[0] == from && path[|path| - 1] == to
  {
    if Reaches(g, from, to) {
      var path := ReachableHasPath(g, from, to);
    }
    if path :| IsPath(g, path) && path[0] == from && path[|path| - 1] == to {
      PathReaches(g, path);
    }
  }

  lemma {:induction false} ReachesTransitively(g: Graph, a: Commit, b: Commit, c: Commit)
    requires Acyclic(g) && a in g.parents && b in g.parents && Reaches(g, a, b) && Reaches(g, b, c)
    ensures Reaches(g, a, c)
    decreases g.generation[a]
  {
    if a != b {
      var p :| p in g.parents[a] && Reaches(g, p, b);
      ReachesTransitively(g, p, b, c);
    }
  }

  lemma {:induction false} ReachedIsOlder(g: Graph, from: Commit, to: Commit)
    requires Acyclic(g) && from in g.parents && Reaches(g, from, to)
    ensures to in g.parents && (to == from || g.generation[to] < g.generation[from])
    decreases g.generation[from]
  {
    if to != from {
      var p :| p in g.parents[from] && Reaches(g, p, to);
      ReachedIsOlder(g, p, to);
    }
  }

  // ---------- The check ----------

  // lineage is the recovery lineage, oldest first; phases are the anchors after it, oldest first.
  datatype Anchors = Anchors(snapshot: Commit, baseline: Commit, lineage: seq<Commit>, phases: seq<Commit>)

  datatype Reason =
    | ReplacementPresent
    | GraftPresent
    | EvidenceSnapshotMissing
    | EvidenceSnapshotNotAncestor
    | Day15CommitMissing
    | Day15AnchorChainDrift

  // Git answers from the graph it shows, which is the stored one unless commits are replaced or
  // grafted. replaceRefs and graft are None when Git cannot tell.
  datatype Repository = Repository(
    stored: Graph, shown: Graph, replaceRefs: Option<seq<string>>, graft: Option<bool>)

  predicate Truthful(repository: Repository) {
    && Acyclic(repository.shown)
    && (repository.replaceRefs == Some([]) && repository.graft == Some(false) ==>
          repository.shown == repository.stored)
  }

  predicate AnchorsNamed(anchors: Anchors) {
    |anchors.lineage| >= 2 && |anchors.phases| >= 2
  }

  // The anchors in their claimed order, up to HEAD.
  function Chain(anchors: Anchors, head: Commit): seq<Commit> {
    [anchors.baseline] + anchors.lineage + anchors.phases + [head]
  }

  predicate Ordered(g: Graph, commits: seq<Commit>)
    requires Acyclic(g)
  {
    forall i | 0 <= i < |commits| - 1 :: IsAncestor(g, commits[i], commits[i + 1])
  }

  predicate Linked(g: Graph, commits: seq<Commit>) {
    forall i | 0 <= i < |commits| - 1 :: OnlyParent(g, commits[i], commits[i + 1])
  }

  predicate ChainDrifted(g: Graph, anchors: Anchors, head: Commit)
    requires Acyclic(g) && AnchorsNamed(anchors)
  {
    var lineage, phases := anchors.lineage, anchors.phases;
    || !IsAncestor(g, anchors.baseline, lineage[0])
    || !IsAncestor(g, phases[1], head)
    || !IsAncestor(g, lineage[|lineage| - 1], phases[0])
    || !Ordered(g, phases)
    || !IsAncestor(g, phases[|phases| - 1], head)
    || !Linked(g, lineage)
  }

  // Where in the list the commits stand that do not exist.
  function MissingPlaces(g: Graph, commits: seq<Commit>, n: nat): set<nat>
    requires n <= |commits|
  {
    set i | 0 <= i < n && commits[i] !in g.parents
  }

  function MissingReasons(n: nat): seq<Reason> {
    seq(n, i => Day15CommitMissing)
  }

  // One reason for each listed commit that does not exist.
  method MissingCommits(g: Graph, commits: seq<Commit>) returns (reasons: seq<Reason>)
    ensures reasons == MissingReasons(|MissingPlaces(g, commits, |commits|)|)
  {
    reasons := [];
    for i := 0 to |commits|
      invariant reasons == MissingReasons(|MissingPlaces(g, commits, i)|)
    {
      if commits[i] !in g.parents {
        reasons := reasons + [Day15CommitMissing];
        assert MissingPlaces(g, commits, i + 1) == MissingPlaces(g, commits, i) + {i};
      } else {
        assert MissingPlaces(g, commits, i + 1) == MissingPlaces(g, commits, i);
      }
    }
  }

  // Ask for the parents of every commit after the first.
  method AskParents(g: Graph, commits: seq<Commit>) returns (linked: bool)
    ensures linked <==> Linked(g, commits)
  {
    for i := 0 to if commits == [] then 0 else |commits| - 1
      invariant forall j | 0 <= j < i :: OnlyParent(g, commits[j], commits[j + 1])
    {
      if !OnlyParent(g, commits[i], commits[i + 1]) {
        return false;
      }
    }
    return true;
  }

  // The ancestry questions, and the parents of the lineage.
  method AskAncestry(g: Graph, anchors: Anchors, head: Commit) returns (drifted: bool)
    requires Acyclic(g) && AnchorsNamed(anchors)
    ensures drifted <==> ChainDrifted(g, anchors, head)
  {
    var lineage, phases := anchors.lineage, anchors.phases;
    var linked := AskParents(g, lineage);
    drifted := || !IsAncestor(g, anchors.baseline, lineage[0])
               || !IsAncestor(g, phases[1], head)
               || !IsAncestor(g, lineage[|lineage| - 1], phases[0])
               || !Ordered(g, phases)
               || !IsAncestor(g, phases[|phases| - 1], head)
               || !linked;
  }

  function Raised(condition: bool, reason: Reason): seq<Reason> {
    if condition then [reason] else []
  }

  // The reasons a graph gives rise to.
  function GraphReasons(g: Graph, anchors: Anchors, head: Commit): (reasons: seq<Reason>)
    requires Acyclic(g) && AnchorsNamed(anchors)
    ensures reasons == [] ==> IsAncestor(g, anchors.snapshot, head) && !ChainDrifted(g, anchors, head)
  {
    Raised(anchors.snapshot !in g.parents, EvidenceSnapshotMissing)
    + Raised(!IsAncestor(g, anchors.snapshot, head), EvidenceSnapshotNotAncestor)
    + MissingReasons(|MissingPlaces(g, anchors.lineage, |anchors.lineage|)|)
    + Raised(ChainDrifted(g, anchors, head), Day15AnchorChainDrift)
  }

  // What is asked of the graph itself.
  method AskGraph(g: Graph, anchors: Anchors, head: Commit) returns (reasons: seq<Reason>)
    requires Acyclic(g) && AnchorsNamed(anchors)
    ensures reasons == GraphReasons(g, anchors, head)
  {
    reasons := if anchors.snapshot !in g.parents then [EvidenceSnapshotMissing] else [];
    if !IsAncestor(g, anchors.snapshot, head) {
      reasons := reasons + [EvidenceSnapshotNotAncestor];
    }
    var missing := MissingCommits(g, anchors.lineage);
    reasons := reasons + missing;
    var drifted := AskAncestry(g, anchors, head);
    if drifted {
      reasons := reasons + [Day15AnchorChainDrift];
    }
  }

  // Every question is asked, and each reason stands for one answer; a clean check speaks about the
  // stored graph.
  method CheckAnchors(repository: Repository, anchors: Anchors, head: Commit) returns (reasons: seq<Reason>)
    requires Truthful(repository) && AnchorsNamed(anchors)
    ensures reasons ==
            Raised(repository.replaceRefs != Some([]), ReplacementPresent)
            + Raised(repository.graft != Some(false), GraftPresent)
            + GraphReasons(repository.shown, anchors, head)
    ensures reasons == [] ==>
      && Acyclic(repository.stored)
      && IsAncestor(repository.stored, anchors.snapshot, head)
      && !ChainDrifted(repository.stored, anchors, head)
  {
    reasons := if repository.replaceRefs != Some([]) then [ReplacementPresent] else [];
    if repository.graft != Some(false) {
      reasons := reasons + [GraftPresent];
    }
    var answers := AskGraph(repository.shown, anchors, head);
    reasons := reasons + answers;
  }

  // ---------- What a clean check says ----------

  lemma NeighboursAreOrdered(g: Graph, anchors: Anchors, head: Commit, i: nat)
    requires Acyclic(g) && AnchorsNamed(anchors) && !ChainDrifted(g, anchors, head)
    requires i + 1 < |Chain(anchors, head)|
    ensures IsAncestor(g, Chain(anchors, head)[i], Chain(anchors, head)[i + 1])
  {
    var n := |anchors.lineage|;
    if 1 <= i < n {
      assert OnlyParent(g, anchors.lineage[i - 1], anchors.lineage[i]);
      assert Reaches(g, anchors.lineage[i - 1], anchors.lineage[i - 1]);
    } else if n < i < n + |anchors.phases| {
      assert IsAncestor(g, anchors.phases[i - n - 1], anchors.phases[i - n]);
    }
  }

  // All anchors are totally ordered by ancestry, the last of them up to HEAD.
  lemma {:induction false} AnchorsAreOrdered(g: Graph, anchors: Anchors, head: Commit, i: nat, j: nat)
    requires Acyclic(g) && AnchorsNamed(anchors) && !ChainDrifted(g, anchors, head)
    requires i <= j < |Chain(anchors, head)|
    ensures IsAncestor(g, Chain(anchors, head)[i], Chain(anchors, head)[j])
    decreases j - i
  {
    var chain := Chain(anchors, head);
    if i == j {
      if i + 1 < |chain| {
        NeighboursAreOrdered(g, anchors, head, i);
      } else {
        NeighboursAreOrdered(g, anchors, head, i - 1);
      }
    } else {
      AnchorsAreOrdered(g, anchors, head, i, j - 1);
      NeighboursAreOrdered(g, anchors, head, j - 1);
      ReachesTransitively(g, chain[j], chain[j - 1], chain[i]);
    }
  }

  // Along single-parent commits, each reaches the first one's history and the commits between.
  lemma {:induction false} LineageReaches(g: Graph, lineage: seq<Commit>, k: nat, c: Commit)
    requires Acyclic(g) && k < |lineage| && lineage[0] in g.parents
    requires forall i | 0 <= i < |lineage| - 1 :: OnlyParent(g, lineage[i], lineage[i + 1])
    ensures lineage[k] in g.parents
    ensures Reaches(g, lineage[k], c) <==> Reaches(g, lineage[0], c) || exists i | 1 <= i <= k :: lineage[i] == c
  {
    if k > 0 {
      LineageReaches(g, lineage, k - 1, c);
      assert OnlyParent(g, lineage[k - 1], lineage[k - 1 + 1]);
      assert g.parents[lineage[k]] == [lineage[k - 1]];
    }
  }

  lemma {:induction false} LineageGrowsYounger(g: Graph, lineage: seq<Commit>, i: nat, j: nat)
    requires Acyclic(g) && i < j < |lineage| && lineage[0] in g.parents
    requires forall i | 0 <= i < |lineage| - 1 :: OnlyParent(g, lineage[i], lineage[i + 1])
    ensures lineage[i] in g.parents && lineage[j] in g.parents && g.generation[lineage[i]] < g.generation[lineage[j]]
  {
    assert OnlyParent(g, lineage[j - 1], lineage[j - 1 + 1]);
    if i < j - 1 {
      LineageGrowsYounger(g, lineage, i, j - 1);
    }
  }

  // Nothing was slipped in between: what the last lineage commit reaches and the first does not is
  // exactly the other lineage commits, and they are all different.
  lemma LineageIsExact(g: Graph, anchors: Anchors, head: Commit)
    requires Acyclic(g) && AnchorsNamed(anchors) && !ChainDrifted(g, anchors, head)
    ensures
      var lineage := anchors.lineage;
      && lineage[0] in g.parents && lineage[|lineage| - 1] in g.parents
      && (forall c :: Reaches(g, lineage[|lineage| - 1], c) && !Reaches(g, lineage[0], c) <==> c in lineage[1..])
      && (forall i, j | 0 <= i < j < |lineage| :: lineage[i] != lineage[j])
  {
    var lineage := anchors.lineage;
    var last := |lineage| - 1;
    LineageReaches(g, lineage, last, lineage[0]);
    forall c
      ensures Reaches(g, lineage[last], c) && !Reaches(g, lineage[0], c) <==> c in lineage[1..]
    {
      LineageReaches(g, lineage, last, c);
      if c in lineage[1..] {
        var i :| 0 <= i < |lineage[1..]| && lineage[1..][i] == c;
        LineageGrowsYounger(g, lineage, 0, i + 1);
        if Reaches(g, lineage[0], c) {
          ReachedIsOlder(g, lineage[0], c);
        }
        assert lineage[i + 1] == c;
      }
    }
    forall i, j | 0 <= i < j < |lineage|
      ensures lineage[i] != lineage[j]
    {
      LineageGrowsYounger(g, lineage, i, j);
    }
  }

  // The separate question whether the second phase anchor is an ancestor of HEAD is implied by the
  // others; it can only be answered no together with one of them.
  lemma PhaseTwoQuestionIsImplied(g: Graph, anchors: Anchors, head: Commit)
    requires Acyclic(g) && AnchorsNamed(anchors)
    requires forall i | 0 <= i < |anchors.phases| - 1 :: IsAncestor(g, anchors.phases[i], anchors.phases[i + 1])
    requires IsAncestor(g, anchors.phases[|anchors.phases| - 1], head)
    ensures IsAncestor(g, anchors.phases[1], head)
  {
    var k := |anchors.phases| - 1;
    while k > 1
      invariant 1 <= k < |anchors.phases| && IsAncestor(g, anchors.phases[k], head)
    {
      assert IsAncestor(g, anchors.phases[k - 1], anchors.phases[k - 1 + 1]);
      ReachesTransitively(g, head, anchors.phases[k], anchors.phases[k - 1]);
      k := k - 1;
    }
  }
}
