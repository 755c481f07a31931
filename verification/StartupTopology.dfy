/** Start-up waves and shut-down order: built if and only if the dependencies have no cycle, and
    then every service starts once, after everything it depends on and before nothing it must
    wait for. */
module StartupTopology {
  import opened Basics
  import opened ServiceGraph
  import opened StartupOrder

  datatype Topology = Topology(waves: seq<seq<Name>>, allNames: seq<Name>)

  /** The ordinary services of one depth, in the order they were declared. */
  function Layer(specs: seq<Spec>, depth: seq<nat>, d: nat, n: nat): seq<Name>
    requires n <= |specs| == |depth|
  {
    if n == 0 then []
    else Layer(specs, depth, d, n - 1) + (if !specs[n - 1].entry && depth[n - 1] == d then [specs[n - 1].name] else [])
  }

  function Entries(specs: seq<Spec>, n: nat): seq<Name>
    requires n <= |specs|
  {
    if n == 0 then [] else Entries(specs, n - 1) + (if specs[n - 1].entry then [specs[n - 1].name] else [])
  }

  function LayerCount(specs: seq<Spec>, depth: seq<nat>, n: nat): nat
    requires n <= |specs| == |depth|
  {
    if n == 0 then 0
    else
      var rest := LayerCount(specs, depth, n - 1);
      if !specs[n - 1].entry && depth[n - 1] + 1 > rest then depth[n - 1] + 1 else rest
  }

  ghost predicate Assembled(specs: seq<Spec>, depth: seq<nat>, t: Topology)
    requires |specs| == |depth|
  {
    var layers := LayerCount(specs, depth, |specs|);
    var entries := Entries(specs, |specs|);
    && |t.waves| == layers + (if entries == [] then 0 else 1)
    && (forall d :: 0 <= d < layers ==> t.waves[d] == Layer(specs, depth, d, |specs|))
    && (entries != [] ==> t.waves[layers] == entries)
    && |t.allNames| == |specs| && forall i :: 0 <= i < |specs| ==> t.allNames[i] == specs[i].name
  }

  method Assemble(specs: seq<Spec>, depth: seq<nat>) returns (t: Topology)
    requires |specs| == |depth|
    ensures Assembled(specs, depth, t)
  {
    var layers := 0;
    var i := 0;
    while i < |specs|
      invariant i <= |specs| && layers == LayerCount(specs, depth, i)
    {
      if !specs[i].entry && depth[i] + 1 > layers {
        layers := depth[i] + 1;
      }
      i := i + 1;
    }
    var waves: seq<seq<Name>> := seq(layers, _ => []);
    var entryWave: seq<Name> := [];
    var names: seq<Name> := [];
    i := 0;
    while i < |specs|
      invariant i <= |specs| && |waves| == layers && |names| == i
      invariant forall d :: 0 <= d < layers ==> waves[d] == Layer(specs, depth, d, i)
      invariant entryWave == Entries(specs, i)
      invariant forall j :: 0 <= j < i ==> names[j] == specs[j].name
    {
      if specs[i].entry {
        entryWave := entryWave + [specs[i].name];
      } else {
        CountCovers(specs, depth, |specs|, i);
        waves := waves[depth[i] := waves[depth[i]] + [specs[i].name]];
      }
      names := names + [specs[i].name];
      i := i + 1;
    }
    if entryWave != [] {
      waves := waves + [entryWave];
    }
    t := Topology(waves, names);
  }

  lemma {:induction false} CountCovers(specs: seq<Spec>, depth: seq<nat>, n: nat, i: nat)
    requires i < n <= |specs| == |depth| && !specs[i].entry
    ensures depth[i] < LayerCount(specs, depth, n)
  {
    if i < n - 1 {
      CountCovers(specs, depth, n - 1, i);
    }
  }

  /** The constructor; `None` where it throws. */
  method Build(specs: seq<Spec>) returns (t: Option<Topology>)
    ensures t.Some? <==> Valid(specs) && Acyclic(specs)
    ensures t.Some? ==> exists depth :: Ordered(specs, depth) && Assembled(specs, depth, t.value)
  {
    var ok := Validate(specs);
    if !ok {
      return None;
    }
    var index := IndexNames(specs);
    forall i, k | 0 <= i < |specs| && 0 <= k < |specs[i].dependsOn|
      ensures specs[i].dependsOn[k] in index
    {
      assert IsName(specs, specs[i].dependsOn[k]);
      var j :| 0 <= j < |specs| && specs[j].name == specs[i].dependsOn[k];
    }
    var order := Kahn(specs, index);
    if |order| != |specs| {
      return None;
    }
    var depth := Depths(specs, index, order);
    LayersRank(specs, index, depth);
    LayersOrdered(specs, index, depth);
    var built := Assemble(specs, depth);
    t := Some(built);
  }

  /** A service is deeper than its dependencies, and no deeper than it must be. */
  ghost predicate Ordered(specs: seq<Spec>, depth: seq<nat>) {
    Ranks(specs, depth) && forall i: nat :: i < |specs| ==> NoDeeperThanItMust(specs, depth, i)
  }

  ghost predicate NoDeeperThanItMust(specs: seq<Spec>, depth: seq<nat>, i: nat)
    requires |depth| == |specs| && i < |specs|
  {
    depth[i] > 0 ==> exists j: nat :: DependsOn(specs, i, j) && depth[j] + 1 == depth[i]
  }

  lemma JustAbove(specs: seq<Spec>, depth: seq<nat>, i: nat) returns (j: nat)
    requires Ordered(specs, depth) && i < |specs| && depth[i] > 0
    ensures DependsOn(specs, i, j) && depth[j] + 1 == depth[i]
  {
    assert NoDeeperThanItMust(specs, depth, i);
    j :| DependsOn(specs, i, j) && depth[j] + 1 == depth[i];
  }

  lemma LayersOrdered(specs: seq<Spec>, index: map<Name, nat>, depth: seq<nat>)
    requires Known(specs, index) && Layered(specs, index, depth)
    ensures Ordered(specs, depth)
  {
    LayersRank(specs, index, depth);
    forall i: nat | i < |specs|
      ensures NoDeeperThanItMust(specs, depth, i)
    {
      assert AtDepth(specs, index, depth, i);
      DeepestFacts(Deps(specs, index, i), depth);
      if depth[i] > 0 {
        var j: nat :| j in Deps(specs, index, i) && depth[j] + 1 == Deepest(Deps(specs, index, i), depth);
        DepsMeanDependsOn(specs, index, i, j);
      }
    }
  }

  // ---------------------------------------------------------------------------------------
  // What the waves are

  /** The wave a service starts in. */
  function WaveOf(specs: seq<Spec>, depth: seq<nat>, i: nat): nat
    requires i < |specs| == |depth|
  {
    if specs[i].entry then LayerCount(specs, depth, |specs|) else depth[i]
  }

  lemma {:induction false} LayerMembers(specs: seq<Spec>, depth: seq<nat>, d: nat, n: nat, i: nat)
    requires UniqueNames(specs) && n <= |specs| == |depth| && i < |specs|
    ensures specs[i].name in Layer(specs, depth, d, n) <==> i < n && !specs[i].entry && depth[i] == d
    ensures specs[i].name in Entries(specs, n) <==> i < n && specs[i].entry
  {
    if n > 0 {
      assert specs[i].name == specs[n - 1].name <==> i == n - 1;
      hide UniqueNames;
      LayerMembers(specs, depth, d, n - 1, i);
    }
  }

  lemma {:induction false} LayerNames(specs: seq<Spec>, depth: seq<nat>, d: nat, n: nat, name: Name)
    requires n <= |specs| == |depth| && (name in Layer(specs, depth, d, n) || name in Entries(specs, n))
    ensures IsName(specs, name)
  {
    if name in Layer(specs, depth, d, n - 1) || name in Entries(specs, n - 1) {
      LayerNames(specs, depth, d, n - 1, name);
    } else {
      assert specs[n - 1].name == name;
    }
  }

  lemma {:induction false} LayerDistinct(specs: seq<Spec>, depth: seq<nat>, d: nat, n: nat)
    requires UniqueNames(specs) && n <= |specs| == |depth|
    ensures forall x, y :: 0 <= x < y < |Layer(specs, depth, d, n)| ==> Layer(specs, depth, d, n)[x] != Layer(specs, depth, d, n)[y]
    ensures forall x, y :: 0 <= x < y < |Entries(specs, n)| ==> Entries(specs, n)[x] != Entries(specs, n)[y]
  {
    if n > 0 {
      LayerDistinct(specs, depth, d, n - 1);
      LayerMembers(specs, depth, d, n - 1, n - 1);
    }
  }

  /** The waves partition the services: each service is in the wave it belongs to, in no other
      and only once, and the waves hold nothing else. */
  lemma WavesPartition(specs: seq<Spec>, depth: seq<nat>, t: Topology, w: nat)
    requires Valid(specs) && Ordered(specs, depth) && Assembled(specs, depth, t) && w < |t.waves|
    ensures forall i: nat :: i < |specs| ==> (specs[i].name in t.waves[w] <==> w == WaveOf(specs, depth, i))
    ensures forall i: nat :: i < |specs| ==> WaveOf(specs, depth, i) < |t.waves|
    ensures forall name :: name in t.waves[w] ==> IsName(specs, name)
    ensures forall x, y :: 0 <= x < y < |t.waves[w]| ==> t.waves[w][x] != t.waves[w][y]
  {
    var n := |specs|;
    LayerDistinct(specs, depth, w, n);
    forall i: nat | i < n
      ensures specs[i].name in t.waves[w] <==> w == WaveOf(specs, depth, i)
      ensures WaveOf(specs, depth, i) < |t.waves|
    {
      LayerMembers(specs, depth, w, n, i);
      if !specs[i].entry {
        CountCovers(specs, depth, n, i);
      }
    }
    forall name | name in t.waves[w]
      ensures IsName(specs, name)
    {
      LayerNames(specs, depth, w, n, name);
    }
  }

  /** Every dependency starts in a strictly earlier wave; an ordinary service past the first
      wave waits for one in the wave just before its own; entry services make up the last wave. */
  lemma WavesRespectDependencies(specs: seq<Spec>, depth: seq<nat>, t: Topology, i: nat, j: nat)
    requires Valid(specs) && Ordered(specs, depth) && Assembled(specs, depth, t) && i < |specs|
    ensures DependsOn(specs, i, j) ==> WaveOf(specs, depth, j) < WaveOf(specs, depth, i)
    ensures !specs[i].entry && WaveOf(specs, depth, i) > 0 ==>
              exists a: nat :: DependsOn(specs, i, a) && WaveOf(specs, depth, a) + 1 == WaveOf(specs, depth, i)
    ensures specs[i].entry ==> WaveOf(specs, depth, i) == |t.waves| - 1
    ensures specs[i].entry && j < |specs| && !specs[j].entry ==> WaveOf(specs, depth, j) < WaveOf(specs, depth, i)
  {
    var n := |specs|;
    LayerMembers(specs, depth, 0, n, i);
    forall a: nat | DependsOn(specs, i, a)
      ensures !specs[a].entry
    {
      NeverOnEntry(specs, i, a);
    }
    if j < n && !specs[j].entry {
      CountCovers(specs, depth, n, j);
    }
    if !specs[i].entry && depth[i] > 0 {
      var a := JustAbove(specs, depth, i);
      assert WaveOf(specs, depth, a) == depth[a];
    }
  }

  lemma NeverOnEntry(specs: seq<Spec>, i: nat, a: nat)
    requires Valid(specs) && DependsOn(specs, i, a)
    ensures !specs[a].entry
  {
    var k :| 0 <= k < |specs[i].dependsOn| && specs[i].dependsOn[k] == specs[a].name;
    assert !IsEntry(specs, specs[i].dependsOn[k]);
  }

  lemma {:induction false} SomeoneAtDepth(specs: seq<Spec>, depth: seq<nat>, i: nat, d: nat)
    requires Valid(specs) && Ordered(specs, depth) && i < |specs| && !specs[i].entry && d <= depth[i]
    ensures exists j: nat :: j < |specs| && !specs[j].entry && depth[j] == d
    decreases depth[i]
  {
    if d < depth[i] {
      var a := JustAbove(specs, depth, i);
      NeverOnEntry(specs, i, a);
      SomeoneAtDepth(specs, depth, a, d);
    }
  }

  lemma {:induction false} CountReached(specs: seq<Spec>, depth: seq<nat>, n: nat)
    requires n <= |specs| == |depth| && LayerCount(specs, depth, n) > 0
    ensures exists i: nat :: i < n && !specs[i].entry && depth[i] + 1 == LayerCount(specs, depth, n)
  {
    if LayerCount(specs, depth, n) == LayerCount(specs, depth, n - 1) {
      CountReached(specs, depth, n - 1);
    } else {
      assert !specs[n - 1].entry && depth[n - 1] + 1 == LayerCount(specs, depth, n);
    }
  }

  /** No wave is empty. */
  lemma NoEmptyWave(specs: seq<Spec>, depth: seq<nat>, t: Topology, w: nat)
    requires Valid(specs) && Ordered(specs, depth) && Assembled(specs, depth, t) && w < |t.waves|
    ensures t.waves[w] != []
  {
    assert UniqueNames(specs) && |depth| == |specs|;
    hide Ordered, Valid, UniqueNames;
    var n := |specs|;
    if w < LayerCount(specs, depth, n) {
      CountReached(specs, depth, n);
      var i: nat :| i < n && !specs[i].entry && depth[i] + 1 == LayerCount(specs, depth, n);
      SomeoneAtDepth(specs, depth, i, w);
      var j: nat :| j < n && !specs[j].entry && depth[j] == w;
      LayerMembers(specs, depth, w, n, j);
    }
  }

  // ---------------------------------------------------------------------------------------
  // Shutting down

  function Flat(ws: seq<seq<Name>>): seq<Name> {
    if ws == [] then [] else Flat(ws[..|ws| - 1]) + ws[|ws| - 1]
  }

  function Backwards(s: seq<Name>): (r: seq<Name>)
    ensures |r| == |s|
  {
    if s == [] then [] else [s[|s| - 1]] + Backwards(s[..|s| - 1])
  }

  lemma {:induction false} BackwardsAt(s: seq<Name>, k: nat)
    requires k < |s|
    ensures Backwards(s)[k] == s[|s| - 1 - k]
  {
    if k > 0 {
      BackwardsAt(s[..|s| - 1], k - 1);
    }
  }

  method ShutdownOrder(t: Topology) returns (order: seq<Name>)
    ensures order == Backwards(Flat(t.waves))
  {
    var names: seq<Name> := [];
    var w := 0;
    while w < |t.waves|
      invariant w <= |t.waves| && names == Flat(t.waves[..w])
    {
      assert t.waves[..w + 1][..w] == t.waves[..w];
      var k := 0;
      while k < |t.waves[w]|
        invariant k <= |t.waves[w]| && names == Flat(t.waves[..w]) + t.waves[w][..k]
      {
        names := names + [t.waves[w][k]];
        k := k + 1;
      }
      assert t.waves[w][..k] == t.waves[w];
      w := w + 1;
    }
    assert t.waves[..w] == t.waves;
    order := [];
    var i := |names|;
    while i > 0
      invariant 0 <= i <= |names| && |order| == |names| - i
      invariant forall k :: 0 <= k < |order| ==> order[k] == names[|names| - 1 - k]
    {
      i := i - 1;
      order := order + [names[i]];
    }
    forall k | 0 <= k < |names|
      ensures order[k] == Backwards(names)[k]
    {
      BackwardsAt(names, k);
    }
    assert order == Backwards(names);
  }

  /** The wave that place `x` of the flattened waves belongs to. */
  function WaveAt(ws: seq<seq<Name>>, x: nat): (w: nat)
    requires x < |Flat(ws)|
    ensures w < |ws| && Flat(ws)[x] in ws[w]
  {
    if x < |Flat(ws[..|ws| - 1])| then WaveAt(ws[..|ws| - 1], x) else |ws| - 1
  }

  lemma {:induction false} WavesInOrder(ws: seq<seq<Name>>, x: nat, y: nat)
    requires x <= y < |Flat(ws)|
    ensures WaveAt(ws, x) <= WaveAt(ws, y)
  {
    if y < |Flat(ws[..|ws| - 1])| {
      WavesInOrder(ws[..|ws| - 1], x, y);
    }
  }

  lemma PlaceOf(specs: seq<Spec>, depth: seq<nat>, t: Topology, i: nat, p: nat)
    requires Valid(specs) && Ordered(specs, depth) && Assembled(specs, depth, t) && i < |specs|
    requires p < |Flat(t.waves)| && Flat(t.waves)[p] == specs[i].name
    ensures WaveAt(t.waves, p) == WaveOf(specs, depth, i)
  {
    hide Valid, Ordered, Assembled, WaveOf;
    WavesPartition(specs, depth, t, WaveAt(t.waves, p));
  }

  /** Shutting down stops every service before anything it depends on. */
  lemma DependentsStopFirst(specs: seq<Spec>, depth: seq<nat>, t: Topology, i: nat, j: nat, x: nat, y: nat)
    requires Valid(specs) && Ordered(specs, depth) && Assembled(specs, depth, t) && DependsOn(specs, i, j)
    requires x < |Flat(t.waves)| && y < |Flat(t.waves)|
    requires Backwards(Flat(t.waves))[x] == specs[i].name && Backwards(Flat(t.waves))[y] == specs[j].name
    ensures x < y
  {
    assert i < |specs| && j < |specs| && |depth| == |specs|;
    var flat := Flat(t.waves);
    var a, b := |flat| - 1 - x, |flat| - 1 - y;
    BackwardsAt(flat, x);
    BackwardsAt(flat, y);
    hide Backwards, Valid, Ordered, Assembled, WaveOf, DependsOn, Flat, WaveAt;
    PlaceOf(specs, depth, t, i, a);
    PlaceOf(specs, depth, t, j, b);
    WavesRespectDependencies(specs, depth, t, i, j);
    if y <= x {
      WavesInOrder(t.waves, a, b);
    }
  }

  ghost predicate Distinct(s: seq<Name>) { forall x, y :: 0 <= x < y < |s| ==> s[x] != s[y] }

  lemma {:induction false} FlatMembers(ws: seq<seq<Name>>, name: Name)
    ensures name in Flat(ws) <==> exists w :: 0 <= w < |ws| && name in ws[w]
  {
    if ws != [] {
      var rest := ws[..|ws| - 1];
      FlatMembers(rest, name);
      assert forall w :: 0 <= w < |rest| ==> rest[w] == ws[w];
      assert name in ws[|ws| - 1] ==> exists w :: 0 <= w < |ws| && name in ws[w];
    }
  }

  lemma {:induction false} FlatDistinct(ws: seq<seq<Name>>)
    requires forall w :: 0 <= w < |ws| ==> Distinct(ws[w])
    requires forall v, w, name :: 0 <= v < w < |ws| && name in ws[v] ==> name !in ws[w]
    ensures Distinct(Flat(ws))
  {
    if ws != [] {
      var rest, last := ws[..|ws| - 1], ws[|ws| - 1];
      FlatDistinct(rest);
      forall name | name in Flat(rest) ensures name !in last { FlatMembers(rest, name); }
      var front, all := Flat(rest), Flat(ws);
      forall x, y | 0 <= x < y < |all|
        ensures all[x] != all[y]
      {
        if x < |front| <= y {
          assert front[x] in front && last[y - |front|] in last;
        }
      }
    }
  }

  /** Shutting down stops every service, each exactly once, and nothing else. */
  lemma EachStopsOnce(specs: seq<Spec>, depth: seq<nat>, t: Topology)
    requires Valid(specs) && Ordered(specs, depth) && Assembled(specs, depth, t)
    ensures var order := Backwards(Flat(t.waves));
            Distinct(order) && forall name :: name in order <==> IsName(specs, name)
  {
    hide Valid, Ordered, Assembled, WaveOf, Flat, Backwards;
    forall w | 0 <= w < |t.waves| ensures Distinct(t.waves[w]) { WavesPartition(specs, depth, t, w); }
    forall v, w, name | 0 <= v < w < |t.waves| && name in t.waves[v] ensures name !in t.waves[w] {
      WavesPartition(specs, depth, t, v);
      WavesPartition(specs, depth, t, w);
      var i :| 0 <= i < |specs| && specs[i].name == name;
    }
    FlatDistinct(t.waves);
    var flat := Flat(t.waves);
    forall k | 0 <= k < |flat| ensures Backwards(flat)[k] == flat[|flat| - 1 - k] { BackwardsAt(flat, k); }
    assert forall k :: 0 <= k < |flat| ==> flat[k] == Backwards(flat)[|flat| - 1 - k];
    forall name ensures name in Backwards(flat) <==> IsName(specs, name) { StopsName(specs, depth, t, name); }
  }

  lemma HasWave(specs: seq<Spec>, depth: seq<nat>, t: Topology, i: nat)
    requires Valid(specs) && Ordered(specs, depth) && Assembled(specs, depth, t) && i < |specs|
    ensures |depth| == |specs| && WaveOf(specs, depth, i) < |t.waves|
  {
    LayerMembers(specs, depth, 0, |specs|, i);
    if !specs[i].entry {
      CountCovers(specs, depth, |specs|, i);
    }
  }

  lemma StopsName(specs: seq<Spec>, depth: seq<nat>, t: Topology, name: Name)
    requires Valid(specs) && Ordered(specs, depth) && Assembled(specs, depth, t)
    ensures name in Backwards(Flat(t.waves)) <==> IsName(specs, name)
  {
    hide Valid, Ordered, Assembled, WaveOf, Flat, Backwards;
    var flat := Flat(t.waves);
    forall k | 0 <= k < |flat| ensures Backwards(flat)[k] == flat[|flat| - 1 - k] { BackwardsAt(flat, k); }
    assert forall k :: 0 <= k < |flat| ==> flat[k] == Backwards(flat)[|flat| - 1 - k];
    FlatMembers(t.waves, name);
    if IsName(specs, name) {
      var i :| 0 <= i < |specs| && specs[i].name == name;
      HasWave(specs, depth, t, i);
      WavesPartition(specs, depth, t, WaveOf(specs, depth, i));
    } else if name in flat {
      var w :| 0 <= w < |t.waves| && name in t.waves[w];
      WavesPartition(specs, depth, t, w);
    }
  }
}
