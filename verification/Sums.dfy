/**
 Sums of integer weights over finite sets, maps and sequences, and the few facts that the
 counting arguments need: taking one element out, and bounds from below.
 */
module Sums {

  ghost function SumSet<T(!new)>(s: set<T>, w: T -> int): int
    decreases |s|
  {
    if s == {} then 0 else
    var x :| x in s;
    w(x) + SumSet(s - {x}, w)
  }

  /** The choice made inside `SumSet` does not matter. */
  lemma {:induction false} SumSetRemove<T(!new)>(s: set<T>, x: T, w: T -> int)
    requires x in s
    ensures SumSet(s, w) == w(x) + SumSet(s - {x}, w)
    decreases |s|
  {
    var y :| y in s && SumSet(s, w) == w(y) + SumSet(s - {y}, w);
    if y != x {
      SumSetRemove(s - {y}, x, w);
      SumSetRemove(s - {x}, y, w);
      assert s - {y} - {x} == s - {x} - {y};
    }
  }

  lemma SumSetAdd<T(!new)>(s: set<T>, x: T, w: T -> int)
    requires x !in s
    ensures SumSet(s + {x}, w) == SumSet(s, w) + w(x)
  {
    SumSetRemove(s + {x}, x, w);
    assert s + {x} - {x} == s;
  }

  lemma {:induction false} SumSetNonNegative<T(!new)>(s: set<T>, w: T -> int)
    requires forall x :: x in s ==> w(x) >= 0
    ensures SumSet(s, w) >= 0
    decreases |s|
  {
    if s != {} {
      var x :| x in s;
      SumSetRemove(s, x, w);
      SumSetNonNegative(s - {x}, w);
    }
  }

  lemma SumSetAtLeast<T(!new)>(s: set<T>, x: T, w: T -> int)
    requires x in s
    requires forall y :: y in s ==> w(y) >= 0
    ensures SumSet(s, w) >= w(x)
  {
    SumSetRemove(s, x, w);
    SumSetNonNegative(s - {x}, w);
  }

  lemma {:induction false} SumSetZero<T(!new)>(s: set<T>, w: T -> int)
    requires forall x :: x in s ==> w(x) == 0
    ensures SumSet(s, w) == 0
    decreases |s|
  {
    if s != {} {
      var x :| x in s;
      SumSetRemove(s, x, w);
      SumSetZero(s - {x}, w);
    }
  }

  lemma {:induction false} SumSetOnes<T(!new)>(s: set<T>, w: T -> int)
    requires forall x :: x in s ==> w(x) == 1
    ensures SumSet(s, w) == |s|
    decreases |s|
  {
    if s != {} {
      var x :| x in s;
      SumSetRemove(s, x, w);
      SumSetOnes(s - {x}, w);
    }
  }

  /** A weighting that is 1 on a subset and 0 elsewhere counts the subset. */
  lemma {:induction false} SumSetIndicator<T(!new)>(s: set<T>, w: T -> int, part: set<T>)
    requires part <= s
    requires forall x :: x in s ==> w(x) == if x in part then 1 else 0
    ensures SumSet(s, w) == |part|
    decreases |s|
  {
    if s != {} {
      var x :| x in s;
      SumSetRemove(s, x, w);
      SumSetIndicator(s - {x}, w, part - {x});
      if x !in part { assert part - {x} == part; }
    }
  }

  /** Two weightings that agree on the set have the same sum. */
  lemma {:induction false} SumSetSame<T(!new)>(s: set<T>, v: T -> int, w: T -> int)
    requires forall x :: x in s ==> v(x) == w(x)
    ensures SumSet(s, v) == SumSet(s, w)
    decreases |s|
  {
    if s != {} {
      var x :| x in s;
      SumSetRemove(s, x, v);
      SumSetRemove(s, x, w);
      SumSetSame(s - {x}, v, w);
    }
  }

  ghost function SumMap<K(!new), V(!new)>(m: map<K, V>, w: V -> int): int
  {
    SumSet(m.Keys, AtKey(m, w))
  }

  ghost function AtKey<K(!new), V(!new)>(m: map<K, V>, w: V -> int): K -> int
  {
    k => if k in m then w(m[k]) else 0
  }

  lemma SumMapRemove<K(!new), V(!new)>(m: map<K, V>, k: K, w: V -> int)
    requires k in m
    ensures SumMap(m, w) == w(m[k]) + SumMap(m - {k}, w)
  {
    SumSetRemove(m.Keys, k, AtKey(m, w));
    assert (m - {k}).Keys == m.Keys - {k};
    SumSetSame(m.Keys - {k}, AtKey(m, w), AtKey(m - {k}, w));
  }

  lemma SumMapPut<K(!new), V(!new)>(m: map<K, V>, k: K, v: V, w: V -> int)
    ensures SumMap(m[k := v], w) == SumMap(m, w) + w(v) - (if k in m then w(m[k]) else 0)
  {
    SumMapRemove(m[k := v], k, w);
    assert m[k := v] - {k} == m - {k};
    if k in m {
      SumMapRemove(m, k, w);
    } else {
      assert m - {k} == m;
    }
  }

  lemma SumMapNonNegative<K(!new), V(!new)>(m: map<K, V>, w: V -> int)
    requires forall k :: k in m ==> w(m[k]) >= 0
    ensures SumMap(m, w) >= 0
  {
    SumSetNonNegative(m.Keys, AtKey(m, w));
  }

  lemma SumMapAtLeast<K(!new), V(!new)>(m: map<K, V>, k: K, w: V -> int)
    requires k in m
    requires forall l :: l in m ==> w(m[l]) >= 0
    ensures SumMap(m, w) >= w(m[k])
  {
    SumSetAtLeast(m.Keys, k, AtKey(m, w));
  }

  lemma SumMapZero<K(!new), V(!new)>(m: map<K, V>, w: V -> int)
    requires forall k :: k in m ==> w(m[k]) == 0
    ensures SumMap(m, w) == 0
  {
    SumSetZero(m.Keys, AtKey(m, w));
  }

  ghost function SumSeq<T>(s: seq<T>, w: T -> int): int
  {
    if s == [] then 0 else w(s[0]) + SumSeq(s[1..], w)
  }

  lemma {:induction false} SumSeqConcat<T>(s: seq<T>, t: seq<T>, w: T -> int)
    ensures SumSeq(s + t, w) == SumSeq(s, w) + SumSeq(t, w)
  {
    if s == [] {
      assert s + t == t;
    } else {
      assert (s + t)[1..] == s[1..] + t;
      SumSeqConcat(s[1..], t, w);
    }
  }

  lemma {:induction false} SumSeqNonNegative<T(!new)>(s: seq<T>, w: T -> int)
    requires forall x :: x in s ==> w(x) >= 0
    ensures SumSeq(s, w) >= 0
    ensures forall x :: x in s ==> SumSeq(s, w) >= w(x)
  {
    if s != [] {
      SumSeqNonNegative(s[1..], w);
    }
  }

  lemma {:induction false} SumSeqZero<T(!new)>(s: seq<T>, w: T -> int)
    requires forall x :: x in s ==> w(x) == 0
    ensures SumSeq(s, w) == 0
  {
    if s != [] {
      assert s[0] in s;
      SumSeqZero(s[1..], w);
    }
  }
}
