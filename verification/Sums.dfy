/** Sums over finite sets. */
module Sums {
  ghost function SumOf<K(!new)>(s: set<K>, f: K -> int): (n: int)
    decreases s
  {
    if s == {} then 0
    else
      var k :| k in s;
      f(k) + SumOf(s - {k}, f)
  }

  /** The order in which a sum is taken does not matter. */
  lemma {:induction false} SumPick<K(!new)>(s: set<K>, f: K -> int, k: K)
    requires k in s
    ensures SumOf(s, f) == f(k) + SumOf(s - {k}, f)
    decreases s
  {
    var j :| j in s && SumOf(s, f) == f(j) + SumOf(s - {j}, f);
    if j != k {
      SumPick(s - {j}, f, k);
      SumPick(s - {k}, f, j);
      assert s - {j} - {k} == s - {k} - {j};
    }
  }

  lemma {:induction false} SumEqual<K(!new)>(s: set<K>, f: K -> int, g: K -> int)
    requires forall k :: k in s ==> f(k) == g(k)
    ensures SumOf(s, f) == SumOf(s, g)
    decreases s
  {
    if s != {} {
      var k :| k in s;
      SumPick(s, f, k);
      SumPick(s, g, k);
      SumEqual(s - {k}, f, g);
    }
  }

  lemma {:induction false} SumChange<K(!new)>(s: set<K>, f: K -> int, g: K -> int, k: K)
    requires k in s && forall j :: j in s && j != k ==> f(j) == g(j)
    ensures SumOf(s, g) == SumOf(s, f) - f(k) + g(k)
  {
    SumPick(s, f, k);
    SumPick(s, g, k);
    SumEqual(s - {k}, f, g);
  }

  lemma {:induction false} SumInsert<K(!new)>(s: set<K>, f: K -> int, g: K -> int, k: K)
    requires k !in s && forall j :: j in s ==> f(j) == g(j)
    ensures SumOf(s + {k}, g) == SumOf(s, f) + g(k)
  {
    SumPick(s + {k}, g, k);
    assert s + {k} - {k} == s;
    SumEqual(s, f, g);
  }

  lemma {:induction false} SumAtMost<K(!new)>(s: set<K>, f: K -> int, g: K -> int)
    requires forall k :: k in s ==> f(k) <= g(k)
    ensures SumOf(s, f) <= SumOf(s, g)
    decreases s
  {
    if s != {} {
      var k :| k in s;
      SumPick(s, f, k);
      SumPick(s, g, k);
      SumAtMost(s - {k}, f, g);
    }
  }

  lemma {:induction false} SumPlus<K(!new)>(s: set<K>, f: K -> int, g: K -> int, h: K -> int)
    requires forall k :: k in s ==> h(k) == f(k) + g(k)
    ensures SumOf(s, h) == SumOf(s, f) + SumOf(s, g)
    decreases s
  {
    if s != {} {
      var k :| k in s;
      SumPick(s, f, k);
      SumPick(s, g, k);
      SumPick(s, h, k);
      SumPlus(s - {k}, f, g, h);
    }
  }

  lemma {:induction false} SumZero<K(!new)>(s: set<K>, f: K -> int)
    requires forall k :: k in s ==> f(k) == 0
    ensures SumOf(s, f) == 0
    decreases s
  {
    if s != {} {
      var k :| k in s;
      SumPick(s, f, k);
      SumZero(s - {k}, f);
    }
  }

  /** A sum of equal amounts counts. */
  lemma {:induction false} SumCount<K(!new)>(s: set<K>, t: set<K>, c: int, f: K -> int)
    requires t <= s && forall k :: k in s ==> f(k) == if k in t then c else 0
    ensures SumOf(s, f) == c * |t|
    decreases s
  {
    if s == {} {
      assert t == {};
    } else {
      var k :| k in s;
      SumPick(s, f, k);
      SumCount(s - {k}, t - {k}, c, f);
      if k in t { assert |t| == |t - {k}| + 1 && c * (|t - {k}| + 1) == c * |t - {k}| + c; } else { assert t - {k} == t; }
    }
  }
}
