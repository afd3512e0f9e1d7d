/**
 * The numpy reductions the calibration uses: `np.sum`, `np.dot`, `np.mean`
 * and `np.median`, over sequences of reals. A median sorts its input and
 * averages the two middle values when the length is even.
 */
module Statistics {

  /** `np.sum(s)`. */
  function Sum(s: seq<real>): real {
    if |s| == 0 then 0.0 else s[0] + Sum(s[1..])
  }

  /** A sum of non-negative values is non-negative. */
  lemma {:induction false} SumNonNegative(s: seq<real>)
    requires forall k :: 0 <= k < |s| ==> s[k] >= 0.0
    ensures Sum(s) >= 0.0
  {
    if |s| > 0 {
      SumNonNegative(s[1..]);
    }
  }

  /** `np.dot(a, b)`. */
  function Dot(a: seq<real>, b: seq<real>): real
    requires |a| == |b|
  {
    if |a| == 0 then 0.0 else a[0] * b[0] + Dot(a[1..], b[1..])
  }

  /** `np.mean(s)` of a non-empty sequence. */
  function Mean(s: seq<real>): real
    requires |s| > 0
  {
    Sum(s) / |s| as real
  }

  /** `k * s`, elementwise. */
  function ScaleSeq(s: seq<real>, k: real): (r: seq<real>)
    ensures |r| == |s| && forall i :: 0 <= i < |s| ==> r[i] == k * s[i]
  {
    seq(|s|, i requires 0 <= i < |s| => k * s[i])
  }

  lemma ScaleSeqTail(s: seq<real>, k: real)
    requires |s| > 0
    ensures ScaleSeq(s, k)[1..] == ScaleSeq(s[1..], k)
  {
    assert forall i :: 0 <= i < |s| - 1 ==> ScaleSeq(s, k)[1..][i] == k * s[1..][i];
  }

  lemma DiffTail(b: seq<real>, c: seq<real>)
    requires |b| == |c| && |b| > 0
    ensures Diff(b, c)[1..] == Diff(b[1..], c[1..])
  {
    assert forall i :: 0 <= i < |b| - 1 ==> Diff(b, c)[1..][i] == b[1..][i] - c[1..][i];
  }

  /** A dot product of a sequence with itself is never negative. */
  lemma {:induction false} DotSelfNonNegative(s: seq<real>)
    ensures Dot(s, s) >= 0.0
  {
    if |s| > 0 {
      DotSelfNonNegative(s[1..]);
      assert s[0] * s[0] >= 0.0;
    }
  }

  /** Dot(a, k * b) == k * Dot(a, b). */
  lemma {:induction false} DotScale(a: seq<real>, b: seq<real>, k: real)
    requires |a| == |b|
    ensures Dot(a, ScaleSeq(b, k)) == k * Dot(a, b)
  {
    if |a| > 0 {
      var kb := ScaleSeq(b, k);
      DotScale(a[1..], b[1..], k);
      ScaleSeqTail(b, k);
      calc {
        Dot(a, kb);
        a[0] * (k * b[0]) + Dot(a[1..], kb[1..]);
        a[0] * (k * b[0]) + k * Dot(a[1..], b[1..]);
        k * (a[0] * b[0] + Dot(a[1..], b[1..]));
      }
    }
  }

  /** Dot(a, b - c) == Dot(a, b) - Dot(a, c). */
  lemma {:induction false} DotSub(a: seq<real>, b: seq<real>, c: seq<real>)
    requires |a| == |b| == |c|
    ensures Dot(a, Diff(b, c)) == Dot(a, b) - Dot(a, c)
  {
    if |a| > 0 {
      DotSub(a[1..], b[1..], c[1..]);
      DiffTail(b, c);
    }
  }

  lemma {:induction false} DotSymmetric(a: seq<real>, b: seq<real>)
    requires |a| == |b|
    ensures Dot(a, b) == Dot(b, a)
  {
    if |a| > 0 {
      DotSymmetric(a[1..], b[1..]);
    }
  }

  /** numpy's elementwise `b - c`, as in `y - yhat` and `y - np.mean(y)` of the R^2. */
  function Diff(b: seq<real>, c: seq<real>): (r: seq<real>)
    requires |b| == |c|
    ensures |r| == |b| && forall i :: 0 <= i < |b| ==> r[i] == b[i] - c[i]
  {
    seq(|b|, i requires 0 <= i < |b| => b[i] - c[i])
  }

  // ---------------------------------------------------------------------------
  // Sorting and the median

  predicate SortedAsc(s: seq<real>) {
    forall i, j :: 0 <= i < j < |s| ==> s[i] <= s[j]
  }

  function Insert(x: real, t: seq<real>): (r: seq<real>)
    requires SortedAsc(t)
    ensures SortedAsc(r) && multiset(r) == multiset(t) + multiset{x} && |r| == |t| + 1
    ensures forall y :: y in r ==> y == x || y in t
  {
    if |t| == 0 then [x]
    else if x <= t[0] then [x] + t
    else
      var rest := Insert(x, t[1..]);
      assert t == [t[0]] + t[1..];
      HeadBelowRest(t);
      assert forall k :: 0 <= k < |rest| ==> t[0] <= rest[k] by {
        forall k | 0 <= k < |rest| ensures t[0] <= rest[k] {
          assert rest[k] in rest;
        }
      }
      [t[0]] + rest
  }

  /** The head of an ascending sequence is at most every later value. */
  lemma HeadBelowRest(t: seq<real>)
    requires SortedAsc(t) && |t| > 0
    ensures forall y :: y in t[1..] ==> t[0] <= y
  {
    forall y | y in t[1..] ensures t[0] <= y {
      var i :| 0 <= i < |t[1..]| && t[1..][i] == y;
      assert t[0] <= t[i + 1];
    }
  }

  /** The values of `s` in ascending order (`np.sort`). */
  function SortAsc(s: seq<real>): (r: seq<real>)
    ensures SortedAsc(r) && multiset(r) == multiset(s) && |r| == |s|
  {
    if |s| == 0 then []
    else
      assert s == [s[0]] + s[1..];
      Insert(s[0], SortAsc(s[1..]))
  }

  /** The head of an ascending sequence is its least value. */
  lemma HeadIsLeast(a: seq<real>, x: real)
    requires SortedAsc(a) && x in multiset(a)
    ensures |a| > 0 && a[0] <= x
  {
    var i :| 0 <= i < |a| && a[i] == x;
    assert a[0] <= a[i];
  }

  /** Dropping the head keeps a sequence ascending and removes one copy of the head's value. */
  lemma Tail(a: seq<real>)
    requires SortedAsc(a) && |a| > 0
    ensures SortedAsc(a[1..]) && multiset(a[1..]) == multiset(a) - multiset{a[0]}
  {
    assert a == [a[0]] + a[1..];
  }

  /** Two ascending sequences with the same non-empty values start with the same value. */
  lemma HeadsAgree(a: seq<real>, b: seq<real>)
    requires SortedAsc(a) && SortedAsc(b) && multiset(a) == multiset(b) && |a| > 0
    ensures |b| > 0 && a[0] == b[0]
  {
    assert a[0] in multiset(a);
    HeadIsLeast(b, a[0]);
    assert b[0] in multiset(b);
    HeadIsLeast(a, b[0]);
  }

  /** Two ascending sequences with the same values are the same sequence. */
  lemma {:induction false} SortedUnique(a: seq<real>, b: seq<real>)
    requires SortedAsc(a) && SortedAsc(b) && multiset(a) == multiset(b)
    ensures a == b
  {
    if |a| == 0 {
      assert |multiset(b)| == 0;
    } else {
      HeadsAgree(a, b);
      Tail(a);
      Tail(b);
      SortedUnique(a[1..], b[1..]);
      assert a == [a[0]] + a[1..];
      assert b == [b[0]] + b[1..];
    }
  }

  /** The middle value of a sorted sequence, or the mean of its two middle values. */
  function Middle(t: seq<real>): (m: real)
    requires |t| > 0 && SortedAsc(t)
    ensures t[0] <= m <= t[|t| - 1]
    ensures t[(|t| - 1) / 2] <= m <= t[|t| / 2]
  {
    var h := |t| / 2;
    if |t| % 2 == 1 then t[h] else (t[h - 1] + t[h]) / 2.0
  }

  /** `np.median(s)`: the middle of the sorted values. */
  function Median(s: seq<real>): (m: real)
    requires |s| > 0
    ensures (exists i :: 0 <= i < |s| && s[i] <= m) && (exists j :: 0 <= j < |s| && m <= s[j])
  {
    var t := SortAsc(s);
    assert t[0] in multiset(s) && t[|t| - 1] in multiset(s);
    Middle(t)
  }

  /** The median depends only on the values, not on their order. */
  lemma MedianOfPermutation(s: seq<real>, t: seq<real>)
    requires |s| > 0 && multiset(s) == multiset(t)
    ensures |t| > 0 && Median(s) == Median(t)
  {
    assert |t| == |multiset(t)| == |s|;
    var a := SortAsc(s);
    var b := SortAsc(t);
    SortedUnique(a, b);
  }

  /** The median of constant values is that value. */
  lemma MedianOfConstant(s: seq<real>, c: real)
    requires |s| > 0 && forall i :: 0 <= i < |s| ==> s[i] == c
    ensures Median(s) == c
  {
    var t := SortAsc(s);
    forall k | 0 <= k < |t| ensures t[k] == c {
      assert t[k] in multiset(s);
    }
  }

  /** The entries of `s` at the given indices, in that order (`s[idx]`). */
  function Pick(s: seq<real>, idx: seq<nat>): (r: seq<real>)
    requires forall k :: 0 <= k < |idx| ==> idx[k] < |s|
    ensures |r| == |idx| && forall k :: 0 <= k < |idx| ==> r[k] == s[idx[k]]
  {
    seq(|idx|, k requires 0 <= k < |idx| => s[idx[k]])
  }
}
