/** The start-up topology: validation, Kahn's cycle check, depth layering and wave assembly, as
    the program runs them over index arrays. */
module StartupOrder {
  import opened ServiceGraph

  /** Reject bad names, unknown dependencies and dependencies on entry services. */
  method Validate(specs: seq<Spec>) returns (ok: bool)
    ensures ok <==> Valid(specs)
  {
    var names: set<Name> := {};
    var entries: set<Name> := {};
    var i := 0;
    while i < |specs|
      invariant i <= |specs| && UniqueNames(specs[..i])
      invariant forall x :: x in names <==> IsName(specs[..i], x)
      invariant forall x :: x in entries <==> IsEntry(specs[..i], x)
    {
      var s := specs[i];
      if s.name == [] || s.name in names {
        assert s.name in names ==> exists j :: 0 <= j < i && specs[..i][j].name == s.name;
        return false;
      }
      NamesStep(specs, i);
      names := names + {s.name};
      if s.entry {
        entries := entries + {s.name};
      }
      i := i + 1;
    }
    assert specs[..i] == specs;
    i := 0;
    while i < |specs|
      invariant i <= |specs|
      invariant forall a, k :: 0 <= a < i && 0 <= k < |specs[a].dependsOn| ==>
                  IsName(specs, specs[a].dependsOn[k]) && !IsEntry(specs, specs[a].dependsOn[k])
    {
      var k := 0;
      while k < |specs[i].dependsOn|
        invariant k <= |specs[i].dependsOn|
        invariant forall b :: 0 <= b < k ==> IsName(specs, specs[i].dependsOn[b]) && !IsEntry(specs, specs[i].dependsOn[b])
      {
        if specs[i].dependsOn[k] !in names || specs[i].dependsOn[k] in entries {
          return false;
        }
        k := k + 1;
      }
      i := i + 1;
    }
    ok := true;
  }

  lemma NamesStep(specs: seq<Spec>, i: nat)
    requires i < |specs| && UniqueNames(specs[..i]) && specs[i].name != [] && !IsName(specs[..i], specs[i].name)
    ensures UniqueNames(specs[..i + 1])
    ensures forall x :: IsName(specs[..i + 1], x) <==> IsName(specs[..i], x) || x == specs[i].name
    ensures forall x :: IsEntry(specs[..i + 1], x) <==> IsEntry(specs[..i], x) || (specs[i].entry && x == specs[i].name)
  {
    var a, b := specs[..i], specs[..i + 1];
    assert forall j :: 0 <= j < i ==> b[j] == a[j];
    forall x
      ensures IsName(b, x) <==> IsName(a, x) || x == specs[i].name
      ensures IsEntry(b, x) <==> IsEntry(a, x) || (specs[i].entry && x == specs[i].name)
    {
      if IsName(a, x) {
        var j :| 0 <= j < i && a[j].name == x;
        assert b[j].name == x;
      }
      if IsEntry(a, x) {
        var j :| 0 <= j < i && a[j].name == x && a[j].entry;
        assert b[j].name == x;
      }
      assert b[i] == specs[i];
    }
    forall j, k | 0 <= j < k < |b|
      ensures b[j].name != b[k].name
    {
      if k == i {
        assert a[j].name == b[j].name;
      }
    }
  }

  /** The index of every name. */
  ghost predicate Indexes(specs: seq<Spec>, index: map<Name, nat>) {
    && (forall i :: 0 <= i < |specs| ==> specs[i].name in index && index[specs[i].name] == i)
    && forall x :: x in index ==> index[x] < |specs| && specs[index[x]].name == x
  }

  method IndexNames(specs: seq<Spec>) returns (index: map<Name, nat>)
    requires UniqueNames(specs)
    ensures Indexes(specs, index)
  {
    index := map[];
    var i := 0;
    while i < |specs|
      invariant i <= |specs|
      invariant forall j :: 0 <= j < i ==> specs[j].name in index && index[specs[j].name] == j
      invariant forall x :: x in index ==> index[x] < i && specs[index[x]].name == x
    {
      index := index[specs[i].name := i];
      i := i + 1;
    }
  }

  /** The dependencies of service `i`, as indices. */
  function Deps(specs: seq<Spec>, index: map<Name, nat>, i: nat): (r: seq<nat>)
    requires i < |specs| && forall k :: 0 <= k < |specs[i].dependsOn| ==> specs[i].dependsOn[k] in index
    ensures |r| == |specs[i].dependsOn|
  {
    seq(|specs[i].dependsOn|, k requires 0 <= k < |specs[i].dependsOn| => index[specs[i].dependsOn[k]])
  }

  /** How many of the listed are not done. */
  function Left(s: seq<nat>, done: set<nat>): nat {
    if s == [] then 0 else Left(s[..|s| - 1], done) + (if s[|s| - 1] in done then 0 else 1)
  }

  function Count(s: seq<nat>, x: nat): nat {
    if s == [] then 0 else Count(s[..|s| - 1], x) + (if s[|s| - 1] == x then 1 else 0)
  }

  lemma {:induction false} LeftOneMore(s: seq<nat>, done: set<nat>, x: nat)
    requires x !in done
    ensures Left(s, done + {x}) + Count(s, x) == Left(s, done)
  {
    if s != [] {
      LeftOneMore(s[..|s| - 1], done, x);
    }
  }

  lemma {:induction false} LeftNone(s: seq<nat>, done: set<nat>)
    ensures Left(s, done) == 0 <==> forall x :: x in s ==> x in done
    ensures Left(s, {}) == |s|
  {
    if s != [] {
      LeftNone(s[..|s| - 1], done);
    }
  }

  lemma {:induction false} CountConcat(a: seq<nat>, y: nat, x: nat)
    ensures Count(a + [y], x) == Count(a, x) + (if y == x then 1 else 0)
  {
    assert (a + [y])[..|a + [y]| - 1] == a;
  }

  lemma {:induction false} CountPrefix(s: seq<nat>, k: nat, x: nat)
    requires k <= |s|
    ensures Count(s[..k], x) <= Count(s, x)
    ensures k < |s| && s[k] == x ==> Count(s[..k], x) < Count(s, x)
    decreases |s| - k
  {
    if k == |s| {
      assert s[..k] == s;
    } else {
      assert s[..k + 1][..k] == s[..k];
      CountPrefix(s, k + 1, x);
    }
  }

  ghost predicate Known(specs: seq<Spec>, index: map<Name, nat>) {
    Indexes(specs, index) && forall i, k :: 0 <= i < |specs| && 0 <= k < |specs[i].dependsOn| ==> specs[i].dependsOn[k] in index
  }

  lemma DepsMeanDependsOn(specs: seq<Spec>, index: map<Name, nat>, i: nat, j: nat)
    requires Known(specs, index) && i < |specs|
    ensures j in Deps(specs, index, i) <==> DependsOn(specs, i, j)
  {
    if j in Deps(specs, index, i) {
      var k :| 0 <= k < |specs[i].dependsOn| && Deps(specs, index, i)[k] == j;
      assert specs[j].name == specs[i].dependsOn[k];
    }
    if DependsOn(specs, i, j) {
      var k :| 0 <= k < |specs[i].dependsOn| && specs[i].dependsOn[k] == specs[j].name;
      assert Deps(specs, index, i)[k] == j;
    }
  }

  /** Per service, once for each time it is named: who depends on it. */
  ghost predicate Reversed(specs: seq<Spec>, index: map<Name, nat>, dependents: seq<seq<nat>>)
    requires Known(specs, index)
  {
    && |dependents| == |specs|
    && (forall j, k :: 0 <= j < |dependents| && 0 <= k < |dependents[j]| ==> dependents[j][k] < |specs|)
    && forall i, j :: 0 <= i < |specs| && 0 <= j < |specs| ==> Count(dependents[j], i) == Count(Deps(specs, index, i), j)
  }

  /** The dependents counted so far: all of the services before `i`, and `k` dependencies of `i`. */
  ghost predicate Tally(specs: seq<Spec>, index: map<Name, nat>, dependents: seq<seq<nat>>, i: nat, k: nat)
    requires Known(specs, index) && |dependents| == |specs| && (i < |specs| ==> k <= |specs[i].dependsOn|)
  {
    forall a, j :: 0 <= a < |specs| && 0 <= j < |specs| ==> Tallied(specs, index, dependents, i, k, a, j)
  }

  ghost predicate Tallied(specs: seq<Spec>, index: map<Name, nat>, dependents: seq<seq<nat>>, i: nat, k: nat, a: nat, j: nat)
    requires Known(specs, index) && |dependents| == |specs| && (i < |specs| ==> k <= |specs[i].dependsOn|)
    requires a < |specs| && j < |specs|
  {
    Count(dependents[j], a) ==
      if a < i then Count(Deps(specs, index, a), j) else if a == i then Count(Deps(specs, index, a)[..k], j) else 0
  }

  lemma TallyStep(specs: seq<Spec>, index: map<Name, nat>, dependents: seq<seq<nat>>, i: nat, k: nat)
    requires Known(specs, index) && |dependents| == |specs| && i < |specs| && k < |specs[i].dependsOn|
    requires Tally(specs, index, dependents, i, k)
    ensures var d := index[specs[i].dependsOn[k]]; Tally(specs, index, dependents[d := dependents[d] + [i]], i, k + 1)
  {
    var d := index[specs[i].dependsOn[k]];
    var s := Deps(specs, index, i);
    var after := dependents[d := dependents[d] + [i]];
    var more := k + 1;
    assert s[..more] == s[..k] + [d];
    forall a, j | 0 <= a < |specs| && 0 <= j < |specs|
      ensures Tallied(specs, index, after, i, more, a, j)
    {
      assert Tallied(specs, index, dependents, i, k, a, j);
      CountConcat(dependents[d], i, a);
      CountConcat(s[..k], d, j);
    }
  }

  lemma TallyEmpty(specs: seq<Spec>, index: map<Name, nat>, dependents: seq<seq<nat>>)
    requires Known(specs, index) && |dependents| == |specs| && forall j :: 0 <= j < |specs| ==> dependents[j] == []
    ensures Tally(specs, index, dependents, 0, 0)
  {
    forall a, j | 0 <= a < |specs| && 0 <= j < |specs|
      ensures Tallied(specs, index, dependents, 0, 0, a, j)
    {
      assert Deps(specs, index, 0)[..0] == [];
    }
  }

  lemma TallyNext(specs: seq<Spec>, index: map<Name, nat>, dependents: seq<seq<nat>>, i: nat)
    requires Known(specs, index) && |dependents| == |specs| && i < |specs| && Tally(specs, index, dependents, i, |specs[i].dependsOn|)
    ensures Tally(specs, index, dependents, i + 1, 0)
  {
    assert Deps(specs, index, i)[..|specs[i].dependsOn|] == Deps(specs, index, i);
    var next := i + 1;
    forall a, j | 0 <= a < |specs| && 0 <= j < |specs|
      ensures Tallied(specs, index, dependents, next, 0, a, j)
    {
      assert Tallied(specs, index, dependents, i, |specs[i].dependsOn|, a, j);
      assert Deps(specs, index, a)[..0] == [];
    }
  }

  method ReverseEdges(specs: seq<Spec>, index: map<Name, nat>) returns (dependents: seq<seq<nat>>)
    requires Known(specs, index)
    ensures Reversed(specs, index, dependents)
  {
    dependents := seq(|specs|, _ => []);
    var i := 0;
    TallyEmpty(specs, index, dependents);
    while i < |specs|
      invariant i <= |specs| && |dependents| == |specs| && Tally(specs, index, dependents, i, 0)
      invariant forall j, b :: 0 <= j < |dependents| && 0 <= b < |dependents[j]| ==> dependents[j][b] < |specs|
    {
      var k := 0;
      while k < |specs[i].dependsOn|
        invariant k <= |specs[i].dependsOn| && |dependents| == |specs| && Tally(specs, index, dependents, i, k)
        invariant forall j, b :: 0 <= j < |dependents| && 0 <= b < |dependents[j]| ==> dependents[j][b] < |specs|
      {
        var d := index[specs[i].dependsOn[k]];
        TallyStep(specs, index, dependents, i, k);
        dependents := dependents[d := dependents[d] + [i]];
        k := k + 1;
      }
      TallyNext(specs, index, dependents, i);
      i := i + 1;
    }
    forall a, j | 0 <= a < |specs| && 0 <= j < |specs|
      ensures Count(dependents[j], a) == Count(Deps(specs, index, a), j)
    {
      assert Tallied(specs, index, dependents, i, 0, a, j);
    }
  }

  // ---------------------------------------------------------------------------------------
  // Kahn's algorithm

  function Elements(s: seq<nat>): set<nat> { set x | x in s }

  /** The first of these that still lack a dependency lack one of the others. */
  ghost predicate Sorted(specs: seq<Spec>, index: map<Name, nat>, order: seq<nat>)
    requires Known(specs, index)
  {
    && (forall h :: 0 <= h < |order| ==> order[h] < |specs|)
    && (forall g, h :: 0 <= g < h < |order| ==> order[g] != order[h])
    && forall h :: 0 <= h < |order| ==> Settled(specs, index, order, h)
  }

  /** All dependencies of the service at place `h` come before it. */
  ghost predicate Settled(specs: seq<Spec>, index: map<Name, nat>, order: seq<nat>, h: nat)
    requires Known(specs, index) && h < |order| && order[h] < |specs|
  {
    forall d :: d in Deps(specs, index, order[h]) ==> d in order[..h]
  }

  /** What the counters stand at once the services in `done` have been taken out, and the first
      `k` dependents of `node` (which is next) have been told. */
  ghost predicate Counters(specs: seq<Spec>, index: map<Name, nat>, indegree: seq<nat>, done: set<nat>, told: seq<nat>)
    requires Known(specs, index) && |indegree| == |specs|
  {
    forall i :: 0 <= i < |specs| ==> indegree[i] + Count(told, i) == Left(Deps(specs, index, i), done)
  }

  ghost predicate ReadyAtZero(specs: seq<Spec>, indegree: seq<nat>, ready: seq<nat>)
    requires |indegree| == |specs|
  {
    forall i :: 0 <= i < |specs| ==> (i in ready <==> indegree[i] == 0)
  }

  lemma SettledGrows(specs: seq<Spec>, index: map<Name, nat>, ready: seq<nat>, x: nat, h: nat)
    requires Known(specs, index) && h < |ready| && ready[h] < |specs| && Settled(specs, index, ready, h)
    ensures Settled(specs, index, ready + [x], h)
  {
    assert (ready + [x])[..h] == ready[..h];
  }

  /** A counter that reaches zero: every dependency is out, and they are all at the front. */
  lemma NewlySettled(specs: seq<Spec>, index: map<Name, nat>, ready: seq<nat>, head: nat, x: nat)
    requires Known(specs, index) && head < |ready| && x < |specs|
    requires Left(Deps(specs, index, x), Elements(ready[..head + 1])) == 0
    ensures Settled(specs, index, ready + [x], |ready|)
  {
    LeftNone(Deps(specs, index, x), Elements(ready[..head + 1]));
    assert (ready + [x])[..|ready|] == ready;
  }

  method Kahn(specs: seq<Spec>, index: map<Name, nat>) returns (order: seq<nat>)
    requires Known(specs, index)
    ensures Sorted(specs, index, order) && |order| <= |specs|
    ensures |order| < |specs| ==> !Acyclic(specs)
    ensures |order| == |specs| ==> forall i :: 0 <= i < |specs| ==> i in order
  {
    hide Sorted, Counters, ReadyAtZero, Reversed;
    var dependents := ReverseEdges(specs, index);
    var indegree := new nat[|specs|](i requires 0 <= i < |specs| => |specs[i].dependsOn|);
    var ready: seq<nat> := [];
    var i := 0;
    while i < |specs|
      invariant i <= |specs| && indegree.Length == |specs|
      invariant forall a :: 0 <= a < |specs| ==> indegree[a] == |specs[a].dependsOn|
      invariant forall a :: 0 <= a < |specs| ==> (a in ready <==> a < i && indegree[a] == 0)
      invariant forall h :: 0 <= h < |ready| ==> ready[h] < i && |specs[ready[h]].dependsOn| == 0
      invariant forall g, h :: 0 <= g < h < |ready| ==> ready[g] != ready[h]
    {
      if indegree[i] == 0 {
        ready := ready + [i];
      }
      i := i + 1;
    }
    StartCounters(specs, index, indegree[..], ready);
    assert Elements(ready[..0]) == {};
    var head := 0;
    while head < |ready|
      invariant head <= |ready| && indegree.Length == |specs| && Sorted(specs, index, ready)
      invariant Counters(specs, index, indegree[..], Elements(ready[..head]), [])
      invariant ReadyAtZero(specs, indegree[..], ready)
      decreases |specs| - head
    {
      FitsIn(specs, index, ready);
      ready := Take(specs, index, dependents, indegree, ready, head);
      head := head + 1;
    }
    order := ready;
    FitsIn(specs, index, order);
    assert order[..head] == order;
    Remaining(specs, index, indegree[..], order);
  }

  function Below(n: nat): (r: set<nat>)
    ensures |r| == n && forall x: nat :: x in r <==> x < n
  {
    if n == 0 then {} else Below(n - 1) + {n - 1}
  }

  lemma FitsIn(specs: seq<Spec>, index: map<Name, nat>, order: seq<nat>)
    requires Known(specs, index) && Sorted(specs, index, order)
    ensures |order| <= |specs|
  {
    DistinctFit(order, Below(|specs|));
  }

  lemma StartCounters(specs: seq<Spec>, index: map<Name, nat>, indegree: seq<nat>, ready: seq<nat>)
    requires Known(specs, index) && |indegree| == |specs|
    requires forall a :: 0 <= a < |specs| ==> indegree[a] == |specs[a].dependsOn|
    requires forall a :: 0 <= a < |specs| ==> (a in ready <==> indegree[a] == 0)
    requires forall h :: 0 <= h < |ready| ==> ready[h] < |specs| && |specs[ready[h]].dependsOn| == 0
    requires forall g, h :: 0 <= g < h < |ready| ==> ready[g] != ready[h]
    ensures Counters(specs, index, indegree, {}, []) && ReadyAtZero(specs, indegree, ready) && Sorted(specs, index, ready)
  {
    forall i | 0 <= i < |specs|
      ensures indegree[i] + Count([], i) == Left(Deps(specs, index, i), {})
    {
      LeftNone(Deps(specs, index, i), {});
    }
  }

  /** One dependent is told: its counter falls by one, and at zero it may be queued. */
  lemma TellOne(specs: seq<Spec>, index: map<Name, nat>, dependents: seq<seq<nat>>, indegree: seq<nat>, ready: seq<nat>,
                head: nat, k: nat)
    requires Known(specs, index) && Reversed(specs, index, dependents) && |indegree| == |specs|
    requires head < |ready| && Sorted(specs, index, ready) && ReadyAtZero(specs, indegree, ready)
    requires k < |dependents[ready[head]]|
    requires Counters(specs, index, indegree, Elements(ready[..head]), dependents[ready[head]][..k])
    ensures var x := dependents[ready[head]][k];
            && x < |specs| && indegree[x] > 0
            && var after := indegree[x := indegree[x] - 1];
               var queued := if after[x] == 0 then ready + [x] else ready;
               && Counters(specs, index, after, Elements(ready[..head]), dependents[ready[head]][..k + 1])
               && ReadyAtZero(specs, after, queued) && Sorted(specs, index, queued)
  {
    hide Settled, Deps;
    var node := ready[head];
    var told := dependents[node];
    var x := told[k];
    var done := Elements(ready[..head]);
    CountPrefix(told, k, x);
    LeftOneMore(Deps(specs, index, x), done, node);
    assert indegree[x] > 0;
    assert told[..k + 1] == told[..k] + [x];
    forall a | 0 <= a < |specs|
      ensures Count(told[..k + 1], a) == Count(told[..k], a) + (if x == a then 1 else 0)
    {
      CountConcat(told[..k], x, a);
    }
    var after := indegree[x := indegree[x] - 1];
    if after[x] == 0 {
      assert x !in ready;
      LastTold(specs, index, told, k + 1, x, node, done);
      assert ready[..head + 1] == ready[..head] + [node];
      assert Elements(ready[..head + 1]) == done + {node};
      NewlySettled(specs, index, ready, head, x);
      SortedGrows(specs, index, ready, x);
    }
  }

  /** Once all dependents are told, the service itself counts as done. */
  lemma ToldAll(specs: seq<Spec>, index: map<Name, nat>, dependents: seq<seq<nat>>, indegree: seq<nat>, ready: seq<nat>, head: nat)
    requires Known(specs, index) && Reversed(specs, index, dependents) && |indegree| == |specs|
    requires head < |ready| && Sorted(specs, index, ready)
    requires Counters(specs, index, indegree, Elements(ready[..head]), dependents[ready[head]])
    ensures Counters(specs, index, indegree, Elements(ready[..head + 1]), [])
  {
    hide Settled, Deps;
    var done := Elements(ready[..head]);
    assert ready[..head + 1] == ready[..head] + [ready[head]];
    assert Elements(ready[..head + 1]) == done + {ready[head]};
    forall a | 0 <= a < |specs|
      ensures indegree[a] + Count([], a) == Left(Deps(specs, index, a), done + {ready[head]})
    {
      LeftOneMore(Deps(specs, index, a), done, ready[head]);
    }
  }

  /** Where Kahn's loop stands while the dependents of the service at `head` are being told. */
  ghost predicate Telling(specs: seq<Spec>, index: map<Name, nat>, dependents: seq<seq<nat>>, counts: seq<nat>, ready: seq<nat>,
                          head: nat, k: nat)
    requires Known(specs, index) && |dependents| == |specs|
  {
    && |counts| == |specs| && head < |ready| && Sorted(specs, index, ready) && ReadyAtZero(specs, counts, ready)
    && k <= |dependents[ready[head]]|
    && Counters(specs, index, counts, Elements(ready[..head]), dependents[ready[head]][..k])
  }

  lemma ToldLast(specs: seq<Spec>, index: map<Name, nat>, dependents: seq<seq<nat>>, counts: seq<nat>, ready: seq<nat>, head: nat)
    requires Known(specs, index) && Reversed(specs, index, dependents) && head < |ready| && ready[head] < |dependents|
    requires Telling(specs, index, dependents, counts, ready, head, |dependents[ready[head]]|)
    ensures Sorted(specs, index, ready) && |counts| == |specs|
    ensures Counters(specs, index, counts, Elements(ready[..head + 1]), []) && ReadyAtZero(specs, counts, ready)
  {
    hide Counters, ReadyAtZero, Sorted, Reversed;
    assert dependents[ready[head]][..|dependents[ready[head]]|] == dependents[ready[head]];
    ToldAll(specs, index, dependents, counts, ready, head);
  }

  lemma TellNext(specs: seq<Spec>, index: map<Name, nat>, dependents: seq<seq<nat>>, counts: seq<nat>, ready: seq<nat>,
                 head: nat, k: nat)
    requires Known(specs, index) && Reversed(specs, index, dependents) && Telling(specs, index, dependents, counts, ready, head, k)
    requires k < |dependents[ready[head]]|
    ensures head < |ready| && ready[head] < |dependents| && |counts| == |specs| && dependents[ready[head]][k] < |specs|
    ensures var x := dependents[ready[head]][k];
            && counts[x] > 0
            && var after := counts[x := counts[x] - 1];
               var queued := if after[x] == 0 then ready + [x] else ready;
               && head < |queued| && queued[head] == ready[head] && Telling(specs, index, dependents, after, queued, head, k + 1)
  {
    assert ready[head] < |dependents|;
    hide Counters, ReadyAtZero, Sorted, Reversed, Known;
    TellOne(specs, index, dependents, counts, ready, head, k);
    KeepsFront(ready, dependents[ready[head]][k], head);
  }

  /** Tell one dependent, and queue it if it lacks nothing more. */
  method Tell(specs: seq<Spec>, index: map<Name, nat>, dependents: seq<seq<nat>>, indegree: array<nat>, queue: seq<nat>,
              head: nat, k: nat) returns (ready: seq<nat>)
    requires Known(specs, index) && Reversed(specs, index, dependents) && Telling(specs, index, dependents, indegree[..], queue, head, k)
    requires k < |dependents[queue[head]]|
    modifies indegree
    ensures head < |ready| && ready[head] == queue[head] && Telling(specs, index, dependents, indegree[..], ready, head, k + 1)
  {
    hide Telling, Reversed, Known;
    TellNext(specs, index, dependents, indegree[..], queue, head, k);
    var x := dependents[queue[head]][k];
    ghost var before := indegree[..];
    indegree[x] := indegree[x] - 1;
    assert indegree[..] == before[x := before[x] - 1];
    ready := queue;
    if indegree[x] == 0 {
      ready := queue + [x];
    }
  }

  /** Take the service at `head` out: tell its dependents, and queue those that lack nothing more. */
  method Take(specs: seq<Spec>, index: map<Name, nat>, dependents: seq<seq<nat>>, indegree: array<nat>, queue: seq<nat>, head: nat)
    returns (ready: seq<nat>)
    requires Known(specs, index) && Reversed(specs, index, dependents) && indegree.Length == |specs|
    requires head < |queue| && Sorted(specs, index, queue)
    requires Counters(specs, index, indegree[..], Elements(queue[..head]), []) && ReadyAtZero(specs, indegree[..], queue)
    modifies indegree
    ensures head < |ready| && Sorted(specs, index, ready)
    ensures Counters(specs, index, indegree[..], Elements(ready[..head + 1]), []) && ReadyAtZero(specs, indegree[..], ready)
  {
    ready := queue;
    assert dependents[queue[head]][..0] == [];
    assert Telling(specs, index, dependents, indegree[..], ready, head, 0);
    hide Telling, Counters, ReadyAtZero, Sorted, Reversed, Known;
    var k := 0;
    while k < |dependents[queue[head]]|
      invariant k <= |dependents[queue[head]]| && head < |ready| && ready[head] == queue[head]
      invariant Telling(specs, index, dependents, indegree[..], ready, head, k)
    {
      ready := Tell(specs, index, dependents, indegree, ready, head, k);
      k := k + 1;
    }
    assert dependents[queue[head]][..k] == dependents[queue[head]];
    ToldLast(specs, index, dependents, indegree[..], ready, head);
  }

  lemma KeepsFront(ready: seq<nat>, x: nat, head: nat)
    requires head < |ready|
    ensures (ready + [x])[..head] == ready[..head] && (ready + [x])[head] == ready[head]
  {
  }

  lemma SortedGrows(specs: seq<Spec>, index: map<Name, nat>, ready: seq<nat>, x: nat)
    requires Known(specs, index) && Sorted(specs, index, ready) && x < |specs| && x !in ready
    requires Settled(specs, index, ready + [x], |ready|)
    ensures Sorted(specs, index, ready + [x])
  {
    forall h | 0 <= h < |ready + [x]|
      ensures Settled(specs, index, ready + [x], h)
    {
      if h < |ready| {
        SettledGrows(specs, index, ready, x, h);
      }
    }
  }

  /** When the counter reaches zero nothing more is to be told, so nothing is left. */
  lemma LastTold(specs: seq<Spec>, index: map<Name, nat>, told: seq<nat>, k: nat, x: nat, node: nat, done: set<nat>)
    requires Known(specs, index) && x < |specs| && k <= |told| && node !in done
    requires Count(told, x) == Count(Deps(specs, index, x), node)
    requires Count(told[..k], x) == Left(Deps(specs, index, x), done)
    ensures Left(Deps(specs, index, x), done + {node}) == 0
  {
    LeftOneMore(Deps(specs, index, x), done, node);
    CountPrefix(told, k, x);
  }

  /** With the queue run dry, whoever is not out waits for somebody who is not out either. */
  lemma Remaining(specs: seq<Spec>, index: map<Name, nat>, indegree: seq<nat>, order: seq<nat>)
    requires Known(specs, index) && |indegree| == |specs| && Sorted(specs, index, order) && |order| <= |specs|
    requires Counters(specs, index, indegree, Elements(order), []) && ReadyAtZero(specs, indegree, order)
    ensures |order| < |specs| ==> !Acyclic(specs)
    ensures |order| == |specs| ==> forall i :: 0 <= i < |specs| ==> i in order
  {
    var stuck := set i | i in Below(|specs|) && i !in order;
    forall i | i in stuck
      ensures LeansOn(specs, stuck, i)
    {
      WaitsFor(specs, index, indegree, order, stuck, i);
    }
    AllOrStuck(specs, order, stuck);
    if stuck != {} {
      assert Closed(specs, stuck);
      StuckMeansCycle(specs, stuck);
    }
    forall i | 0 <= i < |specs| && |order| == |specs|
      ensures i in order
    {
      assert i !in order ==> i in stuck;
    }
  }

  lemma WaitsFor(specs: seq<Spec>, index: map<Name, nat>, indegree: seq<nat>, order: seq<nat>, stuck: set<nat>, i: nat)
    requires Known(specs, index) && |indegree| == |specs| && i < |specs| && i !in order
    requires Counters(specs, index, indegree, Elements(order), []) && ReadyAtZero(specs, indegree, order)
    requires stuck == set i | i in Below(|specs|) && i !in order
    ensures LeansOn(specs, stuck, i)
  {
    LeftNone(Deps(specs, index, i), Elements(order));
    assert Count([], i) == 0;
    var d: nat :| d in Deps(specs, index, i) && d !in Elements(order);
    DepsMeanDependsOn(specs, index, i, d);
    assert d in stuck;
  }

  lemma AllOrStuck(specs: seq<Spec>, order: seq<nat>, stuck: set<nat>)
    requires forall h :: 0 <= h < |order| ==> order[h] < |specs|
    requires forall g, h :: 0 <= g < h < |order| ==> order[g] != order[h]
    requires stuck == set i | i in Below(|specs|) && i !in order
    ensures |order| + |stuck| == |specs|
  {
    assert Elements(order) + stuck == Below(|specs|);
    OrderSize(order);
  }

  lemma {:induction false} OrderSize(order: seq<nat>)
    requires forall g, h :: 0 <= g < h < |order| ==> order[g] != order[h]
    ensures |Elements(order)| == |order|
  {
    if order != [] {
      var rest := order[..|order| - 1];
      OrderSize(rest);
      assert Elements(order) == Elements(rest) + {order[|order| - 1]};
      assert order[|order| - 1] !in rest;
    }
  }

  // ---------------------------------------------------------------------------------------
  // Depth

  /** One more than the deepest of the listed. */
  function Deepest(s: seq<nat>, depth: seq<nat>): nat
    requires forall k :: 0 <= k < |s| ==> s[k] < |depth|
  {
    if s == [] then 0
    else
      var rest, own := Deepest(s[..|s| - 1], depth), depth[s[|s| - 1]] + 1;
      if rest >= own then rest else own
  }

  lemma {:induction false} DeepestFacts(s: seq<nat>, depth: seq<nat>)
    requires forall k :: 0 <= k < |s| ==> s[k] < |depth|
    ensures forall x :: x in s ==> depth[x] < Deepest(s, depth)
    ensures Deepest(s, depth) > 0 ==> exists x :: x in s && depth[x] + 1 == Deepest(s, depth)
  {
    if s != [] {
      DeepestFacts(s[..|s| - 1], depth);
      assert s[|s| - 1] in s;
      if exists x :: x in s[..|s| - 1] && depth[x] + 1 == Deepest(s, depth) {
        var x :| x in s[..|s| - 1] && depth[x] + 1 == Deepest(s, depth);
        assert x in s;
      }
    }
  }

  lemma {:induction false} DeepestSame(s: seq<nat>, a: seq<nat>, b: seq<nat>)
    requires forall k :: 0 <= k < |s| ==> s[k] < |a| && s[k] < |b| && a[s[k]] == b[s[k]]
    ensures Deepest(s, a) == Deepest(s, b)
  {
    if s != [] {
      DeepestSame(s[..|s| - 1], a, b);
    }
  }

  ghost predicate AtDepth(specs: seq<Spec>, index: map<Name, nat>, depth: seq<nat>, i: nat)
    requires Known(specs, index) && |depth| == |specs| && i < |specs|
  {
    depth[i] == Deepest(Deps(specs, index, i), depth)
  }

  /** Every service is one deeper than its deepest dependency. */
  ghost predicate Layered(specs: seq<Spec>, index: map<Name, nat>, depth: seq<nat>)
    requires Known(specs, index)
  {
    |depth| == |specs| && forall i :: 0 <= i < |specs| ==> AtDepth(specs, index, depth, i)
  }

  /** Changing a later service's depth leaves the settled ones as they are. */
  lemma DepthStands(specs: seq<Spec>, index: map<Name, nat>, order: seq<nat>, before: seq<nat>, after: seq<nat>, g: nat, h: nat)
    requires Known(specs, index) && Sorted(specs, index, order) && g < h < |order| && |before| == |after| == |specs|
    requires AtDepth(specs, index, before, order[g]) && after == before[order[h] := after[order[h]]]
    ensures AtDepth(specs, index, after, order[g])
  {
    var s := Deps(specs, index, order[g]);
    assert Settled(specs, index, order, g);
    forall k | 0 <= k < |s|
      ensures s[k] != order[h]
    {
      assert s[k] in order[..g];
      var a :| 0 <= a < g && order[..g][a] == s[k];
      assert order[a] == s[k];
    }
    DeepestSame(s, before, after);
  }

  lemma DepthReached(specs: seq<Spec>, index: map<Name, nat>, depth: seq<nat>, i: nat)
    requires Known(specs, index) && |depth| == |specs| && i < |specs|
    requires depth[i] == Deepest(Deps(specs, index, i), depth)
    ensures AtDepth(specs, index, depth, i)
  {
  }

  method Depths(specs: seq<Spec>, index: map<Name, nat>, order: seq<nat>) returns (result: seq<nat>)
    requires Known(specs, index) && Sorted(specs, index, order) && forall i :: 0 <= i < |specs| ==> i in order
    ensures Layered(specs, index, result)
  {
    hide AtDepth;
    var depth := new nat[|specs|](_ => 0);
    var h := 0;
    while h < |order|
      invariant h <= |order| && depth.Length == |specs|
      invariant forall g :: 0 <= g < h ==> AtDepth(specs, index, depth[..], order[g])
      invariant forall g :: h <= g < |order| ==> depth[order[g]] == 0
    {
      var node := order[h];
      ghost var s := Deps(specs, index, node);
      ghost var before := depth[..];
      assert Settled(specs, index, order, h);
      assert node !in order[..h];
      var k := 0;
      while k < |specs[node].dependsOn|
        invariant k <= |specs[node].dependsOn| && depth[node] == Deepest(s[..k], before)
        invariant depth[..] == before[node := depth[node]]
      {
        assert s[k] in s && s[..k + 1][..k] == s[..k];
        var d := index[specs[node].dependsOn[k]];
        if depth[d] + 1 > depth[node] {
          depth[node] := depth[d] + 1;
        }
        k := k + 1;
      }
      assert s[..k] == s;
      ghost var after := depth[..];
      forall g | 0 <= g < h
        ensures AtDepth(specs, index, after, order[g])
      {
        DepthStands(specs, index, order, before, after, g, h);
      }
      DeepestSame(s, before, after);
      DepthReached(specs, index, after, node);
      h := h + 1;
    }
    result := depth[..];
    forall i | 0 <= i < |specs|
      ensures AtDepth(specs, index, result, i)
    {
      assert i in order;
      var g :| 0 <= g < |order| && order[g] == i;
    }
  }

  lemma LayersRank(specs: seq<Spec>, index: map<Name, nat>, depth: seq<nat>)
    requires Known(specs, index) && Layered(specs, index, depth)
    ensures Ranks(specs, depth) && Acyclic(specs)
  {
    forall i: nat, j: nat | DependsOn(specs, i, j)
      ensures depth[j] < depth[i]
    {
      DepsMeanDependsOn(specs, index, i, j);
      assert AtDepth(specs, index, depth, i);
      DeepestFacts(Deps(specs, index, i), depth);
    }
    RankedIsAcyclic(specs, depth);
  }
}
