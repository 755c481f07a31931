/** Keeping part of a sequence, and adding up a measure over it. */
module Filters {

  function Not<T>(p: T -> bool): T -> bool { x => !p(x) }

  function Filter<T>(p: T -> bool, s: seq<T>): (r: seq<T>)
    ensures |r| <= |s|
    ensures forall x :: x in r ==> x in s && p(x)
  {
    if s == [] then []
    else Filter(p, s[..|s| - 1]) + (if p(s[|s| - 1]) then [s[|s| - 1]] else [])
  }

  function Total<T>(size: T -> nat, s: seq<T>): nat {
    if s == [] then 0 else Total(size, s[..|s| - 1]) + size(s[|s| - 1])
  }

  lemma {:induction false} FilterConcat<T>(p: T -> bool, a: seq<T>, b: seq<T>)
    ensures Filter(p, a + b) == Filter(p, a) + Filter(p, b)
  {
    if b == [] {
      assert a + b == a;
    } else {
      assert (a + b)[..|a + b| - 1] == a + b[..|b| - 1];
      FilterConcat(p, a, b[..|b| - 1]);
    }
  }

  lemma {:induction false} TotalConcat<T>(size: T -> nat, a: seq<T>, b: seq<T>)
    ensures Total(size, a + b) == Total(size, a) + Total(size, b)
  {
    if b == [] {
      assert a + b == a;
    } else {
      assert (a + b)[..|a + b| - 1] == a + b[..|b| - 1];
      TotalConcat(size, a, b[..|b| - 1]);
    }
  }

  /** What is kept and what is dropped together make up the whole. */
  lemma {:induction false} Split<T>(p: T -> bool, size: T -> nat, s: seq<T>)
    ensures |s| == |Filter(p, s)| + |Filter(Not(p), s)|
    ensures Total(size, s) == Total(size, Filter(p, s)) + Total(size, Filter(Not(p), s))
  {
    if s != [] {
      var rest, last := s[..|s| - 1], s[|s| - 1];
      Split(p, size, rest);
      TotalConcat(size, Filter(p, rest), if p(last) then [last] else []);
      TotalConcat(size, Filter(Not(p), rest), if p(last) then [] else [last]);
    }
  }

  lemma {:induction false} FilterNone<T>(p: T -> bool, s: seq<T>)
    requires forall x :: x in s ==> !p(x)
    ensures Filter(p, s) == []
  {
    if s != [] {
      FilterNone(p, s[..|s| - 1]);
      assert s[|s| - 1] in s;
    }
  }

  /** Dropping only what the outer filter drops anyway. */
  lemma {:induction false} FilterThrough<T>(p: T -> bool, q: T -> bool, s: seq<T>)
    requires forall x :: x in s && p(x) ==> q(x)
    ensures Filter(p, Filter(q, s)) == Filter(p, s)
  {
    if s != [] {
      var rest, last := s[..|s| - 1], s[|s| - 1];
      FilterThrough(p, q, rest);
      FilterConcat(p, Filter(q, rest), if q(last) then [last] else []);
      assert last in s;
    }
  }
}
