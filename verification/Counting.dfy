/** Counting the threads whose program counter satisfies a predicate. */
module Counting {

  type Tid = nat

  ghost function Who<P>(m: map<Tid, P>, p: P -> bool): set<Tid> {
    set t | t in m && p(m[t])
  }

  ghost function Count<P>(m: map<Tid, P>, p: P -> bool): nat {
    |Who(m, p)|
  }

  function Bit(b: bool): nat {
    if b then 1 else 0
  }

  /** Moving one thread changes a count by what that thread contributes before and after. */
  lemma CountUpdate<P>(m: map<Tid, P>, t: Tid, x: P, p: P -> bool)
    requires t in m
    ensures Count(m[t := x], p) == Count(m, p) - Bit(p(m[t])) + Bit(p(x))
  {
    var before, after := Who(m, p), Who(m[t := x], p);
    forall u ensures u in after - {t} <==> u in before - {t} {
    }
    assert after - {t} == before - {t};
    SplitOff(before, t);
    SplitOff(after, t);
  }

  lemma SplitOff<T>(s: set<T>, x: T)
    ensures |s| == |s - {x}| + Bit(x in s)
  {
  }

  lemma CountSpawn<P>(m: map<Tid, P>, t: Tid, x: P, p: P -> bool)
    requires t !in m && !p(x)
    ensures Count(m[t := x], p) == Count(m, p)
  {
    assert Who(m, p) == Who(m[t := x], p);
  }

  lemma CountPositive<P>(m: map<Tid, P>, t: Tid, p: P -> bool)
    requires t in m && p(m[t])
    ensures Count(m, p) >= 1
  {
    SubsetSize({t}, Who(m, p));
  }

  lemma CountZero<P>(m: map<Tid, P>, p: P -> bool)
    requires forall t :: t in m ==> !p(m[t])
    ensures Count(m, p) == 0
  {
  }

  lemma SubsetSize<T>(a: set<T>, b: set<T>)
    requires a <= b
    ensures |a| <= |b|
  {
    assert |b - a| == |b| - |a|;
  }

  lemma CountMonotone<P(!new)>(m: map<Tid, P>, p: P -> bool, q: P -> bool)
    requires forall x :: p(x) ==> q(x)
    ensures Count(m, p) <= Count(m, q)
  {
    SubsetSize(Who(m, p), Who(m, q));
  }

  /** Disjoint classes of threads number at most all threads. */
  lemma CountDisjoint<P(!new)>(m: map<Tid, P>, p: P -> bool, q: P -> bool)
    requires forall x :: !(p(x) && q(x))
    ensures Count(m, p) + Count(m, q) <= |m|
  {
    var a, b := Who(m, p), Who(m, q);
    assert a * b == {};
    assert |a + b| == |a| + |b|;
    SubsetSize(a + b, m.Keys);
    assert |m.Keys| == |m|;
  }
}
