// Sums of natural weights over finite sets, independent of the order of summation.
module Sums {

  ghost function Total<K(!new)>(s: set<K>, w: K -> nat): nat
    decreases |s|
  {
    if s == {} then 0 else
    var k :| k in s;
    w(k) + Total(s - {k}, w)
  }

  lemma {:induction false} TotalRemove<K(!new)>(s: set<K>, w: K -> nat, k: K)
    requires k in s
    ensures Total(s, w) == w(k) + Total(s - {k}, w)
    decreases |s|
  {
    var j :| j in s && Total(s, w) == w(j) + Total(s - {j}, w);
    if j != k {
      TotalRemove(s - {j}, w, k);
      TotalRemove(s - {k}, w, j);
      assert s - {j} - {k} == s - {k} - {j};
    }
  }

  lemma TotalAdd<K(!new)>(s: set<K>, w: K -> nat, k: K)
    requires k !in s
    ensures Total(s + {k}, w) == w(k) + Total(s, w)
  {
    TotalRemove(s + {k}, w, k);
    assert s + {k} - {k} == s;
  }

  lemma {:induction false} TotalUnion<K(!new)>(s: set<K>, t: set<K>, w: K -> nat)
    requires s !! t
    ensures Total(s + t, w) == Total(s, w) + Total(t, w)
    decreases |s|
  {
    if s == {} {
      assert s + t == t;
    } else {
      var k :| k in s;
      TotalRemove(s, w, k);
      TotalRemove(s + t, w, k);
      assert (s + t) - {k} == (s - {k}) + t;
      TotalUnion(s - {k}, t, w);
    }
  }

  // A part weighs no more than the whole, and a proper part weighs less when
  // every element has a positive weight.
  lemma TotalSubset<K(!new)>(s: set<K>, t: set<K>, w: K -> nat)
    requires s <= t
    ensures Total(s, w) <= Total(t, w)
    ensures (forall k :: k in t ==> 0 < w(k)) ==> (Total(s, w) == Total(t, w) <==> s == t)
  {
    TotalUnion(s, t - s, w);
    assert s + (t - s) == t;
    if s != t {
      var k :| k in t - s;
      TotalRemove(t - s, w, k);
    }
  }

  lemma {:induction false} TotalAgree<K(!new)>(s: set<K>, v: K -> nat, w: K -> nat)
    requires forall k :: k in s ==> v(k) == w(k)
    ensures Total(s, v) == Total(s, w)
    decreases |s|
  {
    if s != {} {
      var k :| k in s;
      TotalRemove(s, v, k);
      TotalRemove(s, w, k);
      TotalAgree(s - {k}, v, w);
    }
  }
}
