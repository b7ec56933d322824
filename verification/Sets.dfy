/** Finite-set counting. */
module Sets {

  /** The n integers from low on. */
  ghost function Window(low: int, n: nat): (w: set<int>)
    ensures |w| == n
    ensures forall e :: e in w <==> low <= e < low + n
  {
    if n == 0 then {} else Window(low, n - 1) + {low + n - 1}
  }

  lemma {:induction false} SubsetSize<T>(a: set<T>, b: set<T>)
    requires a <= b
    ensures |a| <= |b|
  {
    if a != {} {
      var x :| x in a;
      SubsetSize(a - {x}, b - {x});
    }
  }

  lemma Pick<T>(s: set<T>) returns (x: T)
    requires |s| > 0
    ensures x in s
  {
    x :| x in s;
  }

  lemma {:induction false} Least(s: set<int>) returns (low: int)
    requires |s| > 0
    ensures low in s && forall e :: e in s ==> low <= e
  {
    var x := Pick(s);
    var rest := s - {x};
    if |rest| == 0 {
      low := x;
      assert s == {x};
    } else {
      var y := Least(rest);
      low := if x < y then x else y;
      assert forall e :: e in s ==> e == x || e in rest;
    }
  }

  /** Integers that are pairwise less than n apart are at most n. */
  lemma SpreadBound(s: set<int>, n: nat)
    requires forall e, e' :: e in s && e' in s ==> e - e' < n
    ensures |s| <= n
  {
    if |s| > 0 {
      var low := Least(s);
      SubsetSize(s, Window(low, n));
    }
  }
}
