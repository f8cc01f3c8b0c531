/** Counting the threads of a step machine that are at certain places. */
module Counting {
  ghost function Who<T(!new)>(threads: seq<T>, p: T -> bool): set<nat> {
    set u | 0 <= u < |threads| && p(threads[u])
  }

  function Ind(b: bool): int { if b then 1 else 0 }

  lemma WhoCard<T(!new)>(threads: seq<T>, u: nat, pc: T, p: T -> bool)
    requires u < |threads|
    ensures |Who(threads[u := pc], p)| == |Who(threads, p)| - Ind(p(threads[u])) + Ind(p(pc))
  {
    var before, after := Who(threads, p), Who(threads[u := pc], p);
    var others := before - {u};
    assert after - {u} == others;
    assert before == if p(threads[u]) then others + {u} else others;
    assert after == if p(pc) then others + {u} else others;
  }

  lemma WhoAppend<T(!new)>(threads: seq<T>, pc: T, p: T -> bool)
    ensures |Who(threads + [pc], p)| == |Who(threads, p)| + Ind(p(pc))
  {
    var before, after := Who(threads, p), Who(threads + [pc], p);
    assert after == if p(pc) then before + {|threads|} else before;
  }

  lemma {:induction false} WhoAll<T(!new)>(threads: seq<T>, p: T -> bool)
    requires forall u :: 0 <= u < |threads| ==> p(threads[u])
    ensures |Who(threads, p)| == |threads|
  {
    if threads == [] {
      assert Who(threads, p) == {};
    } else {
      var n := |threads| - 1;
      assert threads == threads[..n] + [threads[n]];
      WhoAll(threads[..n], p);
      WhoAppend(threads[..n], threads[n], p);
    }
  }

  lemma WhoTwo<T(!new)>(threads: seq<T>, u: nat, w: nat, p: T -> bool)
    requires u < |threads| && w < |threads| && u != w && p(threads[u]) && p(threads[w])
    ensures |Who(threads, p)| >= 2
  {
    assert {u, w} <= Who(threads, p) && |{u, w}| == 2;
    Subset({u, w}, Who(threads, p));
  }

  lemma WhoOne<T(!new)>(threads: seq<T>, u: nat, p: T -> bool)
    requires u < |threads| && p(threads[u])
    ensures |Who(threads, p)| >= 1
  {
    assert u in Who(threads, p);
  }

  lemma Subset<T>(a: set<T>, b: set<T>)
    requires a <= b
    ensures |a| <= |b|
  {
    assert b == a + (b - a);
  }
}
