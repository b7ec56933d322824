/** Weighted sums over sequences and over the values of finite maps. */
module Sums {

  ghost function SeqSum<T>(s: seq<T>, w: T -> nat): nat
  {
    if s == [] then 0 else SeqSum(s[..|s| - 1], w) + w(s[|s| - 1])
  }

  lemma {:induction false} SeqSumAppend<T>(s: seq<T>, t: seq<T>, w: T -> nat)
    ensures SeqSum(s + t, w) == SeqSum(s, w) + SeqSum(t, w)
  {
    if t == [] {
      assert s + t == s;
    } else {
      var last := |t| - 1;
      assert (s + t)[..|s + t| - 1] == s + t[..last];
      SeqSumAppend(s, t[..last], w);
    }
  }

  lemma SeqSumOne<T>(x: T, w: T -> nat)
    ensures SeqSum([x], w) == w(x)
  {
    assert [x][..0] == [];
  }

  lemma {:induction false} SeqSumMonotone<T>(s: seq<T>, w: T -> nat, w': T -> nat)
    requires forall x :: x in s ==> w(x) <= w'(x)
    ensures SeqSum(s, w) <= SeqSum(s, w')
  {
    if s != [] {
      SeqSumMonotone(s[..|s| - 1], w, w');
    }
  }

  lemma {:induction false} SeqSumZero<T>(s: seq<T>, w: T -> nat)
    requires forall x :: x in s ==> w(x) == 0
    ensures SeqSum(s, w) == 0
  {
    if s != [] {
      SeqSumZero(s[..|s| - 1], w);
    }
  }

  ghost function MapSum<K, V>(m: map<K, V>, w: V -> nat): nat
  {
    if m == map[] then 0 else var k :| k in m; w(m[k]) + MapSum(m - {k}, w)
  }

  lemma {:induction false} MapSumRemove<K, V>(m: map<K, V>, w: V -> nat, k: K)
    requires k in m
    ensures MapSum(m, w) == w(m[k]) + MapSum(m - {k}, w)
  {
    var j :| j in m && MapSum(m, w) == w(m[j]) + MapSum(m - {j}, w);
    if j != k {
      MapSumRemove(m - {j}, w, k);
      MapSumRemove(m - {k}, w, j);
      assert m - {j} - {k} == m - {k} - {j};
    }
  }

  /** Setting one key replaces what it contributed. */
  lemma MapSumUpdate<K, V>(m: map<K, V>, w: V -> nat, k: K, v: V)
    ensures MapSum(m[k := v], w) == w(v) + MapSum(m - {k}, w)
    ensures MapSum(m, w) == (if k in m then w(m[k]) else 0) + MapSum(m - {k}, w)
  {
    MapSumRemove(m[k := v], w, k);
    assert m[k := v] - {k} == m - {k};
    if k in m { MapSumRemove(m, w, k); } else { assert m - {k} == m; }
  }

  lemma {:induction false} MapSumSubmap<K, V>(m: map<K, V>, n: map<K, V>, w: V -> nat)
    requires forall k :: k in m ==> k in n && n[k] == m[k]
    ensures MapSum(m, w) <= MapSum(n, w)
  {
    if m != map[] {
      var k :| k in m;
      MapSumRemove(m, w, k);
      MapSumRemove(n, w, k);
      MapSumSubmap(m - {k}, n - {k}, w);
    }
  }

  lemma {:induction false} MapSumMonotone<K, V>(m: map<K, V>, w: V -> nat, w': V -> nat)
    requires forall k :: k in m ==> w(m[k]) <= w'(m[k])
    ensures MapSum(m, w) <= MapSum(m, w')
  {
    if m != map[] {
      var k :| k in m;
      MapSumRemove(m, w, k);
      MapSumRemove(m, w', k);
      MapSumMonotone(m - {k}, w, w');
    }
  }

  /** A position of the sequence contributes at most the whole sum; two of them, both together. */
  lemma {:induction false} SeqSumAtLeast<T>(s: seq<T>, w: T -> nat, i: nat, j: nat)
    requires i < j < |s|
    ensures w(s[i]) + w(s[j]) <= SeqSum(s, w)
  {
    if j < |s| - 1 {
      SeqSumAtLeast(s[..|s| - 1], w, i, j);
    } else {
      SeqSumAtLeastOne(s[..j], w, i);
    }
  }

  lemma {:induction false} SeqSumAtLeastOne<T>(s: seq<T>, w: T -> nat, i: nat)
    requires i < |s|
    ensures w(s[i]) <= SeqSum(s, w)
  {
    if i < |s| - 1 {
      SeqSumAtLeastOne(s[..|s| - 1], w, i);
    }
  }
}
