/** Small building blocks shared by the models: an option type, the least element and the
    ascending enumeration of a finite set of keys (the iteration order of `std::map`), and
    the run of consecutive counters used to state gap-free delivery. */
module Basics {

  datatype Option<+T> = None | Some(value: T)

  predicate IsLeast(m: nat, s: set<nat>) { m in s && forall y :: y in s ==> m <= y }

  lemma LeastExists(s: set<nat>) returns (m: nat)
    requires s != {}
    ensures IsLeast(m, s)
  {
    var a: nat :| a in s;
    var below := set z: nat | z in s && z < a;
    if below == {} {
      m := a;
      assert forall y :: y in s && y < a ==> y in below;
    } else {
      assert a !in below && below < s;
      m := LeastExists(below);
      assert forall y :: y in s && y < a ==> y in below;
    }
  }

  function Least(s: set<nat>): (m: nat)
    requires s != {}
    ensures IsLeast(m, s)
  {
    assert exists m :: IsLeast(m, s) by { var m := LeastExists(s); }
    var m :| IsLeast(m, s);
    m
  }

  /** The keys in ascending order, as an ordered map iterates them. */
  function Ascending(s: set<nat>): (r: seq<nat>) {
    if s == {} then [] else [Least(s)] + Ascending(s - {Least(s)})
  }

  lemma AscendingSorted(s: set<nat>)
    ensures forall x :: x in Ascending(s) <==> x in s
    ensures forall i, j :: 0 <= i < j < |Ascending(s)| ==> Ascending(s)[i] < Ascending(s)[j]
  {
    if s != {} {
      var m := Least(s);
      var rest := Ascending(s - {m});
      AscendingSorted(s - {m});
      assert forall x :: x in [m] + rest <==> x == m || x in rest;
      forall i, j | 0 <= i < j < 1 + |rest|
        ensures ([m] + rest)[i] < ([m] + rest)[j]
      {
        assert rest[j - 1] in rest;
      }
    }
  }

  /** The counters `from + 1 .. to`, each once and in order. */
  function Counters(from: nat, to: nat): (r: seq<nat>)
    requires from <= to
    ensures |r| == to - from
    ensures forall i :: 0 <= i < |r| ==> r[i] == from + 1 + i
  {
    seq(to - from, i requires 0 <= i < to - from => from + 1 + i)
  }

  lemma CountersExtend(from: nat, to: nat)
    requires from <= to
    ensures Counters(from, to) + [to + 1] == Counters(from, to + 1)
  {
  }

  /** A prefix of a run of counters is itself a run of counters. */
  lemma CountersPrefix(from: nat, to: nat, a: seq<nat>, b: seq<nat>)
    requires from <= to && a + b == Counters(from, to)
    ensures from + |a| <= to && a == Counters(from, from + |a|)
    ensures b == Counters(from + |a|, to)
  {
    assert |a| + |b| == to - from;
    forall i | 0 <= i < |a|
      ensures a[i] == from + 1 + i
    {
      assert (a + b)[i] == a[i];
    }
    forall i | 0 <= i < |b|
      ensures b[i] == from + |a| + 1 + i
    {
      assert (a + b)[|a| + i] == b[i];
    }
  }
}
