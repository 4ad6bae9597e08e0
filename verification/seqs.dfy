/**
 * Order-preserving selection over sequences: JavaScript's `Array.prototype.filter`
 * and a counter of the elements it leaves behind. Both are defined by peeling off
 * the last element, the order in which the chart pad's loops append.
 */
module Seqs {

  /** The elements of `s` that satisfy `p`, in their original order. */
  function Filter<T>(s: seq<T>, p: T -> bool): (r: seq<T>)
    ensures |r| <= |s|
    ensures forall k :: 0 <= k < |r| ==> p(r[k])
  {
    if s == [] then [] else Filter(s[..|s| - 1], p) + (if p(s[|s| - 1]) then [s[|s| - 1]] else [])
  }

  /** How many elements of `s` satisfy `p`. */
  function Count<T>(s: seq<T>, p: T -> bool): (n: nat)
    ensures n <= |s|
  {
    if s == [] then 0 else Count(s[..|s| - 1], p) + (if p(s[|s| - 1]) then 1 else 0)
  }

  /** Widening a slice by one position appends the element at that position. */
  lemma SliceSnoc<T>(s: seq<T>, lo: nat, hi: nat)
    requires lo <= hi < |s|
    ensures s[lo..hi + 1] == s[lo..hi] + [s[hi]]
  {
  }

  /** Filtering after one more element appends that element exactly when it is kept. */
  lemma FilterSnoc<T>(a: seq<T>, x: T, p: T -> bool)
    ensures Filter(a + [x], p) == Filter(a, p) + (if p(x) then [x] else [])
  {
    assert (a + [x])[..|a|] == a;
  }

  /** Counting after one more element adds one exactly when it is counted. */
  lemma CountSnoc<T>(a: seq<T>, x: T, p: T -> bool)
    ensures Count(a + [x], p) == Count(a, p) + (if p(x) then 1 else 0)
  {
    assert (a + [x])[..|a|] == a;
  }

  /** The kept elements and the counted complement together account for every element. */
  lemma {:induction false} FilterCountPartition<T>(s: seq<T>, p: T -> bool, q: T -> bool)
    requires forall x :: q(x) == !p(x)
    ensures |Filter(s, p)| + Count(s, q) == |s|
  {
    if s != [] {
      FilterCountPartition(s[..|s| - 1], p, q);
    }
  }

  /**
   * The positions in `s` of the elements `Filter(s, p)` keeps: strictly
   * increasing, and holding exactly the positions whose element satisfies `p`.
   */
  function KeptIndices<T>(s: seq<T>, p: T -> bool): (ix: seq<nat>)
    ensures |ix| == |Filter(s, p)|
    ensures forall k :: 0 <= k < |ix| ==> ix[k] < |s| && Filter(s, p)[k] == s[ix[k]]
    ensures forall k, l :: 0 <= k < l < |ix| ==> ix[k] < ix[l]
    ensures forall i :: 0 <= i < |s| ==> (i in ix <==> p(s[i]))
  {
    if s == [] then [] else KeptIndices(s[..|s| - 1], p) + (if p(s[|s| - 1]) then [|s| - 1] else [])
  }

  /** Nothing is kept exactly when no element satisfies `p`. */
  lemma FilterEmpty<T>(s: seq<T>, p: T -> bool)
    ensures Filter(s, p) == [] <==> forall i :: 0 <= i < |s| ==> !p(s[i])
  {
    var ix := KeptIndices(s, p);
    if Filter(s, p) != [] {
      assert ix[0] in ix;
    }
  }

  /** When every element satisfies `p`, filtering changes nothing. */
  lemma {:induction false} FilterAll<T>(s: seq<T>, p: T -> bool)
    requires forall i :: 0 <= i < |s| ==> p(s[i])
    ensures Filter(s, p) == s
  {
    if s != [] {
      FilterAll(s[..|s| - 1], p);
    }
  }
}
