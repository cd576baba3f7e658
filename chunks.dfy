/** Concatenation of a run of chunks, and the facts about it that do not depend on
    what the chunks hold. */
module Chunks {

  /** The chunks lo .. hi-1 joined in order. */
  function Concat<T>(bs: seq<seq<T>>, lo: nat, hi: nat): seq<T>
    requires lo <= hi <= |bs|
    decreases hi - lo
  {
    if hi == lo then [] else Concat(bs, lo, hi - 1) + bs[hi - 1]
  }

  lemma {:induction false} ConcatSplit<T>(bs: seq<seq<T>>, lo: nat, mid: nat, hi: nat)
    requires lo <= mid <= hi <= |bs|
    ensures Concat(bs, lo, hi) == Concat(bs, lo, mid) + Concat(bs, mid, hi)
    decreases hi - mid
  {
    if hi > mid {
      ConcatSplit(bs, lo, mid, hi - 1);
    }
  }

  lemma {:induction false} ConcatOne<T>(bs: seq<seq<T>>, d: nat)
    requires d < |bs|
    ensures Concat(bs, d, d + 1) == bs[d]
  {
    assert Concat(bs, d, d + 1) == Concat(bs, d, d) + bs[d];
  }

  lemma {:induction false} ConcatAllEmpty<T>(bs: seq<seq<T>>, lo: nat, hi: nat)
    requires lo <= hi <= |bs|
    requires forall d :: lo <= d < hi ==> bs[d] == []
    ensures Concat(bs, lo, hi) == []
    decreases hi - lo
  {
    if hi > lo {
      ConcatAllEmpty(bs, lo, hi - 1);
    }
  }

  lemma {:induction false} ConcatUnchanged<T>(bs: seq<seq<T>>, bs': seq<seq<T>>, lo: nat, hi: nat)
    requires lo <= hi <= |bs| && hi <= |bs'|
    requires forall d :: lo <= d < hi ==> bs[d] == bs'[d]
    ensures Concat(bs, lo, hi) == Concat(bs', lo, hi)
    decreases hi - lo
  {
    if hi > lo {
      ConcatUnchanged(bs, bs', lo, hi - 1);
    }
  }

  lemma {:induction false} ConcatMember<T>(bs: seq<seq<T>>, lo: nat, hi: nat, x: T)
    requires lo <= hi <= |bs| && x in Concat(bs, lo, hi)
    ensures exists d :: lo <= d < hi && x in bs[d]
    decreases hi - lo
  {
    if x !in bs[hi - 1] {
      ConcatMember(bs, lo, hi - 1, x);
    }
  }

  /** Element i of chunk d sits after all elements of the chunks before d. */
  lemma ConcatIndex<T>(bs: seq<seq<T>>, d: nat, i: nat)
    requires d < |bs| && i < |bs[d]|
    ensures |Concat(bs, 0, d)| + i < |Concat(bs, 0, |bs|)|
    ensures Concat(bs, 0, |bs|)[|Concat(bs, 0, d)| + i] == bs[d][i]
  {
    var a := Concat(bs, 0, d);
    var m := Concat(bs, d, |bs|);
    ConcatSplit(bs, 0, d, |bs|);
    ConcatSplit(bs, d, d + 1, |bs|);
    ConcatOne(bs, d);
    assert m == bs[d] + Concat(bs, d + 1, |bs|);
    assert m[i] == bs[d][i];
    assert (a + m)[|a| + i] == m[i];
  }
}
