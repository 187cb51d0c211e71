/** The dependency graph of a plan, and where a plan that has stopped moving is stuck. */
module PlanGraph {
  import opened Autonomous

  /** Step `i` waits for step `j` through the first step that carries the dependency's id. */
  ghost predicate DependsOn(steps: seq<Step>, i: nat, j: nat) {
    i < |steps| && j < |steps| && exists k | 0 <= k < |steps[i].dependsOn| :: IndexOf(steps, steps[i].dependsOn[k]) == j
  }

  ghost predicate IsPath(steps: seq<Step>, p: seq<nat>) {
    && p != []
    && (forall a | 0 <= a < |p| :: p[a] < |steps|)
    && forall a | 0 <= a < |p| - 1 :: DependsOn(steps, p[a], p[a + 1])
  }

  ghost predicate MissingDependency(steps: seq<Step>, i: nat) {
    i < |steps| && exists k | 0 <= k < |steps[i].dependsOn| :: IndexOf(steps, steps[i].dependsOn[k]) == |steps|
  }

  ghost predicate Resolved(steps: seq<Step>) {
    forall i | 0 <= i < |steps| :: !MissingDependency(steps, i)
  }

  ghost predicate Acyclic(steps: seq<Step>) {
    forall p: seq<nat> | IsPath(steps, p) && |p| > 1 :: p[0] != p[|p| - 1]
  }

  /** Nothing can run and nothing is in progress or broken: every step is done, or pending and blocked. */
  ghost predicate Settled(steps: seq<Step>) {
    forall i | 0 <= i < |steps| :: steps[i].status.Completed? || (steps[i].status.Pending? && !IsReady(steps, i))
  }

  ghost predicate AllCompleted(steps: seq<Step>) {
    forall i | 0 <= i < |steps| :: steps[i].status.Completed?
  }

  /** A path of pending steps, each blocked by the next, that ends at a missing id or comes back to
      itself. */
  ghost predicate Stuck(steps: seq<Step>, p: seq<nat>) {
    && IsPath(steps, p)
    && (forall a | 0 <= a < |p| :: steps[p[a]].status.Pending?)
    && (MissingDependency(steps, p[|p| - 1]) || exists a | 0 <= a < |p| - 1 :: p[a] == p[|p| - 1])
  }

  ghost predicate NoDuplicates(p: seq<nat>) {
    forall a, b | 0 <= a < b < |p| :: p[a] != p[b]
  }

  /** Distinct indices below `n` are at most `n` many. */
  lemma {:induction false} DistinctBounded(p: seq<nat>, n: nat)
    requires NoDuplicates(p) && forall a | 0 <= a < |p| :: p[a] < n
    ensures |p| <= n
  {
    if p != [] {
      var first := p[0];
      if k: nat :| k < |p| && p[k] == n - 1 {
        var q := p[..k] + p[k + 1..];
        assert forall a | 0 <= a < |q| :: q[a] == if a < k then p[a] else p[a + 1];
        DistinctBounded(q, n - 1);
      } else {
        DistinctBounded(p, n - 1);
      }
    }
  }

  /** A blocked step has a dependency that is missing or itself pending. */
  lemma BlockedBy(steps: seq<Step>, i: nat) returns (j: nat)
    requires Settled(steps) && i < |steps| && steps[i].status.Pending?
    ensures MissingDependency(steps, i) || (DependsOn(steps, i, j) && steps[j].status.Pending?)
  {
    var k :| 0 <= k < |steps[i].dependsOn| && !IdCompleted(steps, steps[i].dependsOn[k]);
    j := IndexOf(steps, steps[i].dependsOn[k]);
  }

  /** A path without repetition along which every step is pending. */
  ghost predicate PendingWalk(steps: seq<Step>, p: seq<nat>) {
    IsPath(steps, p) && NoDuplicates(p) && forall a | 0 <= a < |p| :: steps[p[a]].status.Pending?
  }

  lemma ExtendWalk(steps: seq<Step>, p: seq<nat>, next: nat)
    requires PendingWalk(steps, p) && DependsOn(steps, p[|p| - 1], next) && steps[next].status.Pending?
    ensures next !in p ==> PendingWalk(steps, p + [next])
    ensures next in p ==> Stuck(steps, p + [next])
  {
    var q := p + [next];
    forall a | 0 <= a < |q| - 1 ensures DependsOn(steps, q[a], q[a + 1]) {
      if a < |p| - 1 {
        assert DependsOn(steps, p[a], p[a + 1]);
      }
    }
    if next in p {
      var a :| 0 <= a < |p| && p[a] == next;
      assert q[a] == q[|q| - 1];
    }
  }

  lemma {:induction false} WalkToStuck(steps: seq<Step>, p: seq<nat>) returns (q: seq<nat>)
    requires Settled(steps) && PendingWalk(steps, p)
    ensures Stuck(steps, q) && q[0] == p[0]
    decreases |steps| - |p|
  {
    var next := BlockedBy(steps, p[|p| - 1]);
    if MissingDependency(steps, p[|p| - 1]) {
      q := p;
    } else {
      ExtendWalk(steps, p, next);
      q := p + [next];
      if next !in p {
        DistinctBounded(q, |steps|);
        q := WalkToStuck(steps, q);
      }
    }
  }

  /** From every step that a settled plan leaves pending, unmet dependencies lead to a missing id or
      around a cycle. */
  lemma PendingMeansStuck(steps: seq<Step>, i: nat) returns (p: seq<nat>)
    requires Settled(steps) && i < |steps| && steps[i].status.Pending?
    ensures Stuck(steps, p) && p[0] == i
  {
    p := WalkToStuck(steps, [i]);
  }

  /** So a settled plan whose dependencies resolve without a cycle is finished. */
  lemma SettledIsCompleted(steps: seq<Step>)
    requires Settled(steps) && Resolved(steps) && Acyclic(steps)
    ensures AllCompleted(steps)
  {
    forall i | 0 <= i < |steps| ensures steps[i].status.Completed? {
      if !steps[i].status.Completed? {
        var p := PendingMeansStuck(steps, i);
        var a :| 0 <= a < |p| - 1 && p[a] == p[|p| - 1];
        assert IsPath(steps, p[a..]);
      }
    }
  }

  /** Ids and dependencies make the graph; statuses do not. */
  ghost predicate SameGraph(s: seq<Step>, t: seq<Step>) {
    |s| == |t| && forall i | 0 <= i < |s| :: s[i].id == t[i].id && s[i].dependsOn == t[i].dependsOn
  }

  lemma SameIndexOf(s: seq<Step>, t: seq<Step>, id: string)
    requires |s| == |t| && forall i | 0 <= i < |s| :: s[i].id == t[i].id
    ensures IndexOf(s, id) == IndexOf(t, id)
  {
    var i, j := IndexOf(s, id), IndexOf(t, id);
    assert i < |s| ==> t[i].id == id;
    assert j < |t| ==> s[j].id == id;
  }

  lemma SameEdges(s: seq<Step>, t: seq<Step>, i: nat)
    requires SameGraph(s, t)
    ensures forall j: nat :: DependsOn(s, i, j) ==> DependsOn(t, i, j)
    ensures MissingDependency(s, i) ==> MissingDependency(t, i)
  {
    if i < |s| {
      forall k | 0 <= k < |s[i].dependsOn| ensures IndexOf(s, s[i].dependsOn[k]) == IndexOf(t, t[i].dependsOn[k]) {
        SameIndexOf(s, t, s[i].dependsOn[k]);
      }
    }
  }

  lemma SameGraphSameShape(s: seq<Step>, t: seq<Step>)
    requires SameGraph(s, t)
    ensures Resolved(s) ==> Resolved(t)
    ensures Acyclic(s) ==> Acyclic(t)
  {
    forall i: nat {
      SameEdges(t, s, i);
    }
    forall p: seq<nat> | IsPath(t, p) ensures IsPath(s, p) {
      forall a | 0 <= a < |p| - 1 ensures DependsOn(s, p[a], p[a + 1]) {
        SameEdges(t, s, p[a]);
      }
    }
  }
}
