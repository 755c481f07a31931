/** A set of services and their dependencies, and what it means to have no dependency cycle. */
module ServiceGraph {

  type Name = seq<char>

  datatype Spec = Spec(name: Name, dependsOn: seq<Name>, entry: bool)

  /** Service `i` names service `j` as a dependency. */
  predicate DependsOn(specs: seq<Spec>, i: nat, j: nat) {
    i < |specs| && j < |specs| && specs[j].name in specs[i].dependsOn
  }

  predicate UniqueNames(specs: seq<Spec>) {
    && (forall i :: 0 <= i < |specs| ==> specs[i].name != [])
    && forall i, j :: 0 <= i < j < |specs| ==> specs[i].name != specs[j].name
  }

  predicate IsName(specs: seq<Spec>, name: Name) { exists j :: 0 <= j < |specs| && specs[j].name == name }

  predicate IsEntry(specs: seq<Spec>, name: Name) { exists j :: 0 <= j < |specs| && specs[j].name == name && specs[j].entry }

  /** Names are unique, dependencies are known, and nothing depends on an entry service. */
  predicate Valid(specs: seq<Spec>) {
    && UniqueNames(specs)
    && forall i, k :: 0 <= i < |specs| && 0 <= k < |specs[i].dependsOn| ==>
         IsName(specs, specs[i].dependsOn[k]) && !IsEntry(specs, specs[i].dependsOn[k])
  }

  /** The walk leaves its step `k` along a dependency. */
  ghost predicate Follows(specs: seq<Spec>, p: seq<nat>, k: nat) { k + 1 < |p| && DependsOn(specs, p[k], p[k + 1]) }

  ghost predicate Walk(specs: seq<Spec>, p: seq<nat>) {
    (forall k :: 0 <= k < |p| ==> p[k] < |specs|) && forall k :: 0 <= k < |p| - 1 ==> Follows(specs, p, k)
  }

  /** A walk along dependencies that returns to where it began. */
  ghost predicate Cycle(specs: seq<Spec>, p: seq<nat>) { |p| >= 2 && Walk(specs, p) && p[0] == p[|p| - 1] }

  ghost predicate Acyclic(specs: seq<Spec>) { forall p :: !Cycle(specs, p) }

  /** Every service ranks above what it depends on. */
  ghost predicate Ranks(specs: seq<Spec>, rank: seq<nat>) {
    |rank| == |specs| && forall i: nat, j: nat :: DependsOn(specs, i, j) ==> rank[j] < rank[i]
  }

  lemma {:induction false} RankFalls(specs: seq<Spec>, rank: seq<nat>, p: seq<nat>, k: nat)
    requires Ranks(specs, rank) && Walk(specs, p) && 0 < k < |p|
    ensures rank[p[k]] < rank[p[0]]
  {
    assert Follows(specs, p, k - 1);
    if k > 1 {
      RankFalls(specs, rank, p, k - 1);
    }
  }

  lemma RankedIsAcyclic(specs: seq<Spec>, rank: seq<nat>)
    requires Ranks(specs, rank)
    ensures Acyclic(specs)
  {
    forall p
      ensures !Cycle(specs, p)
    {
      if Cycle(specs, p) {
        RankFalls(specs, rank, p, |p| - 1);
      }
    }
  }

  // ---------------------------------------------------------------------------------------
  // A set in which everybody depends on somebody contains a cycle

  ghost predicate LeansOn(specs: seq<Spec>, stuck: set<nat>, i: nat) { exists j: nat :: j in stuck && DependsOn(specs, i, j) }

  ghost predicate Closed(specs: seq<Spec>, stuck: set<nat>) {
    forall i :: i in stuck ==> i < |specs| && LeansOn(specs, stuck, i)
  }

  lemma {:induction false} LongWalk(specs: seq<Spec>, stuck: set<nat>, n: nat) returns (p: seq<nat>)
    requires Closed(specs, stuck) && stuck != {}
    ensures |p| == n + 1 && Walk(specs, p) && forall k :: 0 <= k < |p| ==> p[k] in stuck
  {
    hide LeansOn;
    if n == 0 {
      var i: nat :| i in stuck;
      p := [i];
    } else {
      var q := LongWalk(specs, stuck, n - 1);
      var j := NextOne(specs, stuck, q[n - 1]);
      p := q + [j];
      forall k | 0 <= k < |p| - 1
        ensures Follows(specs, p, k)
      {
        if k < n - 1 {
          assert Follows(specs, q, k);
        }
      }
    }
  }

  lemma NextOne(specs: seq<Spec>, stuck: set<nat>, i: nat) returns (j: nat)
    requires LeansOn(specs, stuck, i)
    ensures j in stuck && DependsOn(specs, i, j)
  {
    j :| j in stuck && DependsOn(specs, i, j);
  }

  lemma {:induction false} DistinctFit(p: seq<nat>, s: set<nat>)
    requires (forall k :: 0 <= k < |p| ==> p[k] in s) && forall i, j :: 0 <= i < j < |p| ==> p[i] != p[j]
    ensures |p| <= |s|
  {
    if p != [] {
      var last := p[|p| - 1];
      DistinctFit(p[..|p| - 1], s - {last});
    }
  }

  lemma StuckMeansCycle(specs: seq<Spec>, stuck: set<nat>)
    requires Closed(specs, stuck) && stuck != {}
    ensures !Acyclic(specs)
  {
    hide LeansOn;
    var p := LongWalk(specs, stuck, |stuck|);
    if forall i, j :: 0 <= i < j < |p| ==> p[i] != p[j] {
      DistinctFit(p, stuck);
    } else {
      var i, j :| 0 <= i < j < |p| && p[i] == p[j];
      var c := p[i..j + 1];
      forall k | 0 <= k < |c| - 1
        ensures Follows(specs, c, k)
      {
        assert Follows(specs, p, i + k);
      }
      assert Cycle(specs, c);
    }
  }
}
