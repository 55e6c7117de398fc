/** Sums of a weight over a sequence, one element at a time. */
module Counting {

  function Total<C>(w: C -> nat, cs: seq<C>): nat {
    if cs == [] then 0 else Total(w, cs[..|cs| - 1]) + w(cs[|cs| - 1])
  }

  lemma {:induction false} TotalUpdate<C>(w: C -> nat, cs: seq<C>, k: nat, c: C)
    requires k < |cs|
    ensures Total(w, cs[k := c]) == Total(w, cs) - w(cs[k]) + w(c)
  {
    var n := |cs| - 1;
    if k < n {
      TotalUpdate(w, cs[..n], k, c);
      assert cs[k := c][..n] == cs[..n][k := c];
    } else {
      assert cs[k := c][..n] == cs[..n];
    }
  }

  lemma TotalAppend<C>(w: C -> nat, cs: seq<C>, c: C)
    ensures Total(w, cs + [c]) == Total(w, cs) + w(c)
  {
    assert (cs + [c])[..|cs|] == cs;
  }

  lemma {:induction false} TotalIncludes<C>(w: C -> nat, cs: seq<C>, k: nat)
    requires k < |cs|
    ensures w(cs[k]) <= Total(w, cs)
  {
    if k < |cs| - 1 {
      TotalIncludes(w, cs[..|cs| - 1], k);
    }
  }

  /** A pointwise smaller weight has a smaller sum, and equal sums only if it is equal everywhere. */
  lemma {:induction false} TotalOrder<C(!new)>(w: C -> nat, v: C -> nat, cs: seq<C>)
    requires forall c :: w(c) <= v(c)
    ensures Total(w, cs) <= Total(v, cs)
    ensures Total(w, cs) == Total(v, cs) ==> forall k :: 0 <= k < |cs| ==> w(cs[k]) == v(cs[k])
  {
    if cs != [] {
      TotalOrder(w, v, cs[..|cs| - 1]);
      assert forall k :: 0 <= k < |cs| - 1 ==> cs[..|cs| - 1][k] == cs[k];
    }
  }

  lemma {:induction false} TotalPositive<C>(w: C -> nat, cs: seq<C>) returns (k: nat)
    requires Total(w, cs) > 0
    ensures k < |cs| && w(cs[k]) > 0
  {
    var n := |cs| - 1;
    if w(cs[n]) > 0 {
      k := n;
    } else {
      k := TotalPositive(w, cs[..n]);
    }
  }

  /** Where a smaller weight has a strictly smaller sum, some element accounts for it. */
  lemma {:induction false} TotalGap<C>(w: C -> nat, v: C -> nat, cs: seq<C>) returns (k: nat)
    requires Total(w, cs) < Total(v, cs)
    ensures k < |cs| && w(cs[k]) < v(cs[k])
  {
    var n := |cs| - 1;
    if w(cs[n]) < v(cs[n]) {
      k := n;
    } else {
      k := TotalGap(w, v, cs[..n]);
    }
  }
}
