/**
 * Python's list comprehensions over one list, `[f(x) for x in s if keep(x)]`,
 * split into their two halves: an order-preserving filter and an element-wise
 * map.
 */
module Seqs {

  /** `[x for x in s if keep(x)]`. */
  function Filter<T>(s: seq<T>, keep: T -> bool): (r: seq<T>)
    ensures |r| <= |s|
    ensures forall i :: 0 <= i < |r| ==> keep(r[i])
  {
    if |s| == 0 then []
    else (if keep(s[0]) then [s[0]] else []) + Filter(s[1..], keep)
  }

  /** `[f(x) for x in s]`. */
  function Map<T, U>(s: seq<T>, f: T -> U): (r: seq<U>)
    ensures |r| == |s|
    ensures forall i :: 0 <= i < |s| ==> r[i] == f(s[i])
  {
    if |s| == 0 then [] else [f(s[0])] + Map(s[1..], f)
  }

  /** Every index of `idx` is one more than the matching index of `rest`. */
  function Shift(rest: seq<nat>): (idx: seq<nat>)
    ensures |idx| == |rest|
    ensures forall k :: 0 <= k < |rest| ==> idx[k] == rest[k] + 1
  {
    if |rest| == 0 then [] else [rest[0] + 1] + Shift(rest[1..])
  }

  /** The positions in `s` whose elements pass `keep`, in increasing order. */
  function KeptIndices<T>(s: seq<T>, keep: T -> bool): seq<nat>
  {
    if |s| == 0 then []
    else (if keep(s[0]) then [0] else []) + Shift(KeptIndices(s[1..], keep))
  }

  /** The k-th element of the filter is the element at the k-th kept position. */
  lemma {:induction false} KeptIndicesSelect<T>(s: seq<T>, keep: T -> bool)
    ensures var idx := KeptIndices(s, keep);
      && |idx| == |Filter(s, keep)|
      && forall k :: 0 <= k < |idx| ==> idx[k] < |s| && Filter(s, keep)[k] == s[idx[k]]
    decreases |s|
  {
    if |s| > 0 {
      var t := s[1..];
      KeptIndicesSelect(t, keep);
      var rest := KeptIndices(t, keep);
      var head: seq<nat> := if keep(s[0]) then [0] else [];
      var idx := head + Shift(rest);
      var ft := Filter(t, keep);
      var f := Filter(s, keep);
      var kept: seq<T> := if keep(s[0]) then [s[0]] else [];
      assert f == kept + ft;
      forall k | |head| <= k < |idx|
        ensures idx[k] < |s| && f[k] == s[idx[k]]
      {
        var m := k - |head|;
        assert idx[k] == rest[m] + 1;
        assert f[k] == ft[m];
      }
    }
  }

  /** The kept positions strictly increase. */
  lemma {:induction false} KeptIndicesIncrease<T>(s: seq<T>, keep: T -> bool)
    ensures forall k, l :: 0 <= k < l < |KeptIndices(s, keep)| ==>
      KeptIndices(s, keep)[k] < KeptIndices(s, keep)[l]
    decreases |s|
  {
    if |s| > 0 {
      KeptIndicesIncrease(s[1..], keep);
      var rest := KeptIndices(s[1..], keep);
      var head: seq<nat> := if keep(s[0]) then [0] else [];
      var idx := head + Shift(rest);
      assert idx == KeptIndices(s, keep);
      assert forall k, l :: 0 <= k < l < |rest| ==> rest[k] < rest[l];
      forall k, l | 0 <= k < l < |idx|
        ensures idx[k] < idx[l]
      {
        assert idx[l] == rest[l - |head|] + 1;
        if k >= |head| {
          assert idx[k] == rest[k - |head|] + 1;
          assert rest[k - |head|] < rest[l - |head|];
        }
      }
    }
  }

  /** A position is kept exactly when `keep` holds of its element. */
  lemma {:induction false} KeptIndicesExact<T>(s: seq<T>, keep: T -> bool)
    ensures var idx := KeptIndices(s, keep);
      forall j :: 0 <= j < |s| ==> (keep(s[j]) <==> j in idx)
    decreases |s|
  {
    if |s| > 0 {
      var t := s[1..];
      KeptIndicesExact(t, keep);
      var rest := KeptIndices(t, keep);
      var shifted := Shift(rest);
      var head: seq<nat> := if keep(s[0]) then [0] else [];
      var idx := head + shifted;
      forall j | 0 <= j < |s|
        ensures keep(s[j]) <==> j in idx
      {
        if j == 0 {
          assert 0 !in shifted;
        } else {
          assert s[j] == t[j - 1];
          if j in shifted {
            var k :| 0 <= k < |shifted| && shifted[k] == j;
            assert rest[k] == j - 1;
          }
          if j - 1 in rest {
            var k :| 0 <= k < |rest| && rest[k] == j - 1;
            assert idx[|head| + k] == j;
          }
        }
      }
    }
  }

  /**
   * The filter is the subsequence of the kept elements in their original
   * order: its k-th element is the element of `s` at the k-th kept position,
   * the kept positions strictly increase, and a position is kept exactly when
   * `keep` holds of its element.
   */
  lemma FilterIsKeptSubsequence<T>(s: seq<T>, keep: T -> bool)
    ensures var idx := KeptIndices(s, keep);
      && |idx| == |Filter(s, keep)|
      && (forall k :: 0 <= k < |idx| ==> idx[k] < |s| && Filter(s, keep)[k] == s[idx[k]])
      && (forall k, l :: 0 <= k < l < |idx| ==> idx[k] < idx[l])
      && (forall j :: 0 <= j < |s| ==> (keep(s[j]) <==> j in idx))
  {
    KeptIndicesSelect(s, keep);
    KeptIndicesIncrease(s, keep);
    KeptIndicesExact(s, keep);
  }

  /** Filtering distributes over concatenation: the filter works element by element. */
  lemma {:induction false} FilterAppend<T>(a: seq<T>, b: seq<T>, keep: T -> bool)
    ensures Filter(a + b, keep) == Filter(a, keep) + Filter(b, keep)
    decreases |a|
  {
    if |a| == 0 {
      assert a + b == b;
    } else {
      assert (a + b)[1..] == a[1..] + b;
      FilterAppend(a[1..], b, keep);
    }
  }

  /** Filtering twice by the same test keeps the same elements as filtering once. */
  lemma {:induction false} FilterIdempotent<T>(s: seq<T>, keep: T -> bool)
    ensures Filter(Filter(s, keep), keep) == Filter(s, keep)
    decreases |s|
  {
    if |s| > 0 {
      FilterIdempotent(s[1..], keep);
      var head := if keep(s[0]) then [s[0]] else [];
      FilterAppend(head, Filter(s[1..], keep), keep);
    }
  }

  /** The filter keeps everything exactly when every element passes the test. */
  lemma {:induction false} FilterKeepsAll<T>(s: seq<T>, keep: T -> bool)
    ensures Filter(s, keep) == s <==> forall i :: 0 <= i < |s| ==> keep(s[i])
    decreases |s|
  {
    if |s| > 0 {
      FilterKeepsAll(s[1..], keep);
      if !keep(s[0]) {
        assert |Filter(s, keep)| < |s|;
      }
    }
  }
}
