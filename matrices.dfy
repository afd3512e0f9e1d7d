/**
 * The numpy matrices the scripts handle, as sequences of rows over `real`
 * (float rounding is not modelled), with the few array operations they use:
 * reshape of a flat reading, row-major flatten, elementwise clip / scale /
 * blend, `np.flipud` and `np.rot90(k=1)`.
 */
module Matrices {

  import opened Wrappers
  import opened Statistics

  type Matrix = seq<seq<real>>

  /** The matrix has `rows` rows of `cols` entries each (numpy shape (rows, cols)). */
  ghost predicate Shaped(m: Matrix, rows: nat, cols: nat) {
    |m| == rows && forall i :: 0 <= i < rows ==> |m[i]| == cols
  }

  /** A non-empty matrix whose rows all have the first row's length. */
  ghost predicate Rectangular(m: Matrix) {
    |m| > 0 && Shaped(m, |m|, |m[0]|)
  }

  ghost predicate SameShape(a: Matrix, b: Matrix) {
    |a| == |b| && forall i :: 0 <= i < |a| ==> |a[i]| == |b[i]|
  }

  ghost predicate AllEntries(m: Matrix, lo: real, hi: Option<real>) {
    forall i, j :: 0 <= i < |m| && 0 <= j < |m[i]| ==>
      lo <= m[i][j] && (hi.Some? ==> m[i][j] <= hi.value)
  }

  // ---------------------------------------------------------------------------
  // Reshape and flatten

  /** `values.reshape(rows, cols)`: consecutive runs of `cols` values become rows. */
  function FromFlat(values: seq<real>, rows: nat, cols: nat): (m: Matrix)
    requires |values| == rows * cols
    ensures Shaped(m, rows, cols)
    decreases rows
  {
    if rows == 0 then []
    else [values[..cols]] + FromFlat(values[cols..], rows - 1, cols)
  }

  /** `m.flatten()`: the rows concatenated in order (row-major). */
  function Flatten(m: Matrix): seq<real> {
    if |m| == 0 then [] else m[0] + Flatten(m[1..])
  }

  lemma {:induction false} FlattenAppend(a: Matrix, b: Matrix)
    ensures Flatten(a + b) == Flatten(a) + Flatten(b)
  {
    if |a| > 0 {
      assert (a + b)[1..] == a[1..] + b;
      FlattenAppend(a[1..], b);
    } else {
      assert a + b == b;
    }
  }

  /** The bounds of every entry hold for every flattened value. */
  lemma {:induction false} FlattenWithin(m: Matrix, lo: real, hi: Option<real>)
    requires AllEntries(m, lo, hi)
    ensures forall k :: 0 <= k < |Flatten(m)| ==> lo <= Flatten(m)[k] && (hi.Some? ==> Flatten(m)[k] <= hi.value)
  {
    if |m| > 0 {
      FlattenWithin(m[1..], lo, hi);
      assert forall k :: 0 <= k < |m[0]| ==> lo <= m[0][k] && (hi.Some? ==> m[0][k] <= hi.value);
    }
  }

  /** A flattened rows-by-cols matrix has rows * cols values. */
  lemma {:induction false} FlattenLength(m: Matrix, rows: nat, cols: nat)
    requires Shaped(m, rows, cols)
    ensures |Flatten(m)| == rows * cols
    decreases rows
  {
    if rows > 0 {
      FlattenLength(m[1..], rows - 1, cols);
    }
  }

  /** Reshaping a flat reading and flattening it again gives the reading back. */
  lemma {:induction false} FlattenFromFlat(values: seq<real>, rows: nat, cols: nat)
    requires |values| == rows * cols
    ensures Flatten(FromFlat(values, rows, cols)) == values
    decreases rows
  {
    if rows > 0 {
      var m := FromFlat(values, rows, cols);
      assert m[1..] == FromFlat(values[cols..], rows - 1, cols);
      FlattenFromFlat(values[cols..], rows - 1, cols);
      assert values == values[..cols] + values[cols..];
    }
  }

  /** A flattened matrix reshaped with its own dimensions is the matrix again. */
  lemma {:induction false} FromFlatFlatten(m: Matrix, rows: nat, cols: nat)
    requires Shaped(m, rows, cols)
    ensures |Flatten(m)| == rows * cols
    ensures FromFlat(Flatten(m), rows, cols) == m
    decreases rows
  {
    FlattenLength(m, rows, cols);
    if rows > 0 {
      FromFlatFlatten(m[1..], rows - 1, cols);
      assert Flatten(m)[..cols] == m[0];
      assert Flatten(m)[cols..] == Flatten(m[1..]);
      assert m == [m[0]] + m[1..];
    }
  }

  // ---------------------------------------------------------------------------
  // Elementwise arithmetic

  /** `np.zeros_like(m, dtype=float)`. */
  function ZerosLike(m: Matrix): (z: Matrix)
    ensures SameShape(z, m) && AllEntries(z, 0.0, Some(0.0))
  {
    seq(|m|, i requires 0 <= i < |m| => seq(|m[i]|, j => 0.0))
  }

  /** `np.clip(x, 0.0, upper)`, where `upper == None` leaves the top open. */
  function Clip(x: real, upper: Option<real>): (r: real)
    requires upper.Some? ==> upper.value >= 0.0
    ensures 0.0 <= r && (upper.Some? ==> r <= upper.value)
    ensures 0.0 <= x && (upper.Some? ==> x <= upper.value) ==> r == x
    ensures x <= 0.0 ==> r == 0.0
    ensures upper.Some? && x >= upper.value ==> r == upper.value
  {
    var low := if x < 0.0 then 0.0 else x;
    match upper
    case None => low
    case Some(u) => if low > u then u else low
  }

  /** `np.clip(raw - base, 0.0, upper)`. */
  function ClippedDelta(raw: Matrix, base: Matrix, upper: Option<real>): (d: Matrix)
    requires SameShape(raw, base)
    requires upper.Some? ==> upper.value >= 0.0
    ensures SameShape(d, raw) && AllEntries(d, 0.0, upper)
  {
    seq(|raw|, i requires 0 <= i < |raw| =>
      seq(|raw[i]|, j requires 0 <= j < |raw[i]| => Clip(raw[i][j] - base[i][j], upper)))
  }

  /** `m * k`. */
  function Scaled(m: Matrix, k: real): (r: Matrix)
    ensures SameShape(r, m)
  {
    seq(|m|, i requires 0 <= i < |m| => seq(|m[i]|, j requires 0 <= j < |m[i]| => k * m[i][j]))
  }

  /** Scaling by 1 changes nothing. */
  lemma ScaledByOne(m: Matrix)
    ensures Scaled(m, 1.0) == m
  {
    forall i | 0 <= i < |m|
      ensures Scaled(m, 1.0)[i] == m[i]
    {
      assert forall j :: 0 <= j < |m[i]| ==> Scaled(m, 1.0)[i][j] == m[i][j];
    }
  }

  /** `alpha * x + (1 - alpha) * prev`, the exponential moving average step. */
  function Blend(alpha: real, x: Matrix, prev: Matrix): (r: Matrix)
    requires SameShape(x, prev)
    ensures SameShape(r, x)
  {
    seq(|x|, i requires 0 <= i < |x| =>
      seq(|x[i]|, j requires 0 <= j < |x[i]| => alpha * x[i][j] + (1.0 - alpha) * prev[i][j]))
  }

  lemma ProductNonNegative(a: real, b: real)
    requires a >= 0.0 && b >= 0.0
    ensures a * b >= 0.0
  {
  }

  /** A convex combination lies between its two ends. */
  lemma BetweenEnds(alpha: real, x: real, p: real)
    requires 0.0 <= alpha <= 1.0
    ensures var r := alpha * x + (1.0 - alpha) * p;
      (if x <= p then x else p) <= r <= (if x <= p then p else x)
  {
    var r := alpha * x + (1.0 - alpha) * p;
    assert r - p == alpha * (x - p);
    assert r - x == (1.0 - alpha) * (p - x);
    if x <= p {
      ProductNonNegative(alpha, p - x);
      ProductNonNegative(1.0 - alpha, p - x);
    } else {
      ProductNonNegative(alpha, x - p);
      ProductNonNegative(1.0 - alpha, x - p);
    }
  }

  /**
   * Every entry of an exponential-moving-average step lies between the
   * previous entry and the new entry, so the step keeps any range that both
   * inputs respect.
   */
  lemma BlendBetween(alpha: real, x: Matrix, prev: Matrix)
    requires 0.0 <= alpha <= 1.0 && SameShape(x, prev)
    ensures forall i, j :: 0 <= i < |x| && 0 <= j < |x[i]| ==>
      var r := Blend(alpha, x, prev)[i][j];
      (if x[i][j] <= prev[i][j] then x[i][j] <= r <= prev[i][j] else prev[i][j] <= r <= x[i][j])
  {
    forall i, j | 0 <= i < |x| && 0 <= j < |x[i]|
      ensures var r := Blend(alpha, x, prev)[i][j];
        if x[i][j] <= prev[i][j] then x[i][j] <= r <= prev[i][j] else prev[i][j] <= r <= x[i][j]
    {
      BetweenEnds(alpha, x[i][j], prev[i][j]);
    }
  }

  /** A moving-average step keeps any range that both of its inputs respect. */
  lemma BlendRange(alpha: real, x: Matrix, prev: Matrix, hi: Option<real>)
    requires 0.0 <= alpha <= 1.0 && SameShape(x, prev)
    requires AllEntries(x, 0.0, hi) && AllEntries(prev, 0.0, hi)
    ensures AllEntries(Blend(alpha, x, prev), 0.0, hi)
  {
    BlendBetween(alpha, x, prev);
  }

  /** With alpha = 1 the step takes the new value; with alpha = 0 it keeps the old one. */
  lemma BlendEnds(x: Matrix, prev: Matrix)
    requires SameShape(x, prev)
    ensures Blend(1.0, x, prev) == x && Blend(0.0, x, prev) == prev
  {
    var one := Blend(1.0, x, prev);
    var zero := Blend(0.0, x, prev);
    assert forall i :: 0 <= i < |x| ==> one[i] == x[i] && zero[i] == prev[i];
  }

  /** A step from a zero delta only damps the previous value. */
  lemma BlendFromZero(alpha: real, x: Matrix, prev: Matrix)
    requires SameShape(x, prev) && AllEntries(x, 0.0, Some(0.0))
    ensures forall i, j :: 0 <= i < |x| && 0 <= j < |x[i]| ==>
      Blend(alpha, x, prev)[i][j] == (1.0 - alpha) * prev[i][j]
  {
  }

  /** A reading measured against itself has a zero delta. */
  lemma ClippedDeltaSelf(raw: Matrix, upper: Option<real>, k: real)
    requires upper.Some? ==> upper.value >= 0.0
    ensures AllEntries(Scaled(ClippedDelta(raw, raw, upper), k), 0.0, Some(0.0))
  {
    var d := ClippedDelta(raw, raw, upper);
    forall i, j | 0 <= i < |raw| && 0 <= j < |raw[i]|
      ensures d[i][j] == 0.0
    {
      assert d[i][j] == Clip(raw[i][j] - raw[i][j], upper);
    }
  }

  // ---------------------------------------------------------------------------
  // Sum and peak

  function SeqMax(s: seq<real>): (r: real)
    requires |s| > 0
    ensures forall i :: 0 <= i < |s| ==> s[i] <= r
    ensures exists i :: 0 <= i < |s| && s[i] == r
  {
    if |s| == 1 then s[0]
    else
      var m := SeqMax(s[..|s| - 1]);
      if s[|s| - 1] > m then s[|s| - 1] else m
  }

  /** `np.sum(m)`. */
  function Total(m: Matrix): (r: real)
    ensures (forall k :: 0 <= k < |Flatten(m)| ==> Flatten(m)[k] >= 0.0) ==> r >= 0.0
  {
    var s := Flatten(m);
    if forall k :: 0 <= k < |s| ==> s[k] >= 0.0 then
      SumNonNegative(s);
      Sum(s)
    else
      Sum(s)
  }

  /** `np.max(m)`; numpy raises on an empty matrix. */
  function Peak(m: Matrix): (r: real)
    requires |Flatten(m)| > 0
    ensures forall k :: 0 <= k < |Flatten(m)| ==> Flatten(m)[k] <= r
    ensures exists k :: 0 <= k < |Flatten(m)| && Flatten(m)[k] == r
  {
    SeqMax(Flatten(m))
  }

  // ---------------------------------------------------------------------------
  // Orientation

  /** `np.flipud(m)`: the rows in reverse order. */
  function FlipRows(m: Matrix): (r: Matrix)
    ensures |r| == |m|
  {
    seq(|m|, i requires 0 <= i < |m| => m[|m| - 1 - i])
  }

  /** Column j of a matrix whose rows all have more than j entries. */
  function Column(m: Matrix, j: nat): seq<real>
    requires forall i :: 0 <= i < |m| ==> j < |m[i]|
  {
    seq(|m|, i requires 0 <= i < |m| => m[i][j])
  }

  /** `m.T` for a matrix of `cols` columns. */
  function Transpose(m: Matrix, cols: nat): Matrix
    requires Shaped(m, |m|, cols)
  {
    seq(cols, j requires 0 <= j < cols => Column(m, j))
  }

  /**
   * `np.rot90(m, k=1)`: a quarter turn counter-clockwise, i.e. the transpose
   * upside down. A rows-by-cols matrix becomes cols-by-rows.
   */
  function RotateCcw(m: Matrix, cols: nat): (r: Matrix)
    requires Shaped(m, |m|, cols)
    ensures Shaped(r, cols, |m|)
    ensures forall i, j :: 0 <= i < cols && 0 <= j < |m| ==> r[i][j] == m[j][cols - 1 - i]
  {
    FlipRows(Transpose(m, cols))
  }

  /** Flipping the rows twice restores the matrix. */
  lemma FlipRowsInvolution(m: Matrix)
    ensures FlipRows(FlipRows(m)) == m
  {
  }

  lemma {:induction false} FlipRowsValues(m: Matrix)
    ensures multiset(Flatten(FlipRows(m))) == multiset(Flatten(m))
    decreases |m|
  {
    if |m| > 0 {
      assert FlipRows(m) == FlipRows(m[1..]) + [m[0]];
      FlattenAppend(FlipRows(m[1..]), [m[0]]);
      assert Flatten([m[0]]) == m[0] + Flatten([]);
      FlipRowsValues(m[1..]);
    }
  }

  /** Putting one value in front of each row adds exactly those values. */
  lemma {:induction false} PrependColumnValues(c: seq<real>, t: Matrix)
    requires |c| == |t|
    ensures multiset(Flatten(seq(|c|, j requires 0 <= j < |c| => [c[j]] + t[j])))
         == multiset(c) + multiset(Flatten(t))
    decreases |c|
  {
    var u := seq(|c|, j requires 0 <= j < |c| => [c[j]] + t[j]);
    if |c| > 0 {
      var u' := seq(|c| - 1, j requires 0 <= j < |c| - 1 => [c[1..][j]] + t[1..][j]);
      assert u[1..] == u';
      PrependColumnValues(c[1..], t[1..]);
      assert c == [c[0]] + c[1..];
      assert Flatten(t) == t[0] + Flatten(t[1..]);
    }
  }

  lemma {:induction false} TransposeValues(m: Matrix, cols: nat)
    requires Shaped(m, |m|, cols)
    ensures multiset(Flatten(Transpose(m, cols))) == multiset(Flatten(m))
    decreases |m|
  {
    var t := Transpose(m, cols);
    if |m| == 0 {
      assert forall j :: 0 <= j < cols ==> t[j] == [];
      EmptyRowsFlatten(t);
    } else {
      var t' := Transpose(m[1..], cols);
      forall j | 0 <= j < cols
        ensures t[j] == [m[0][j]] + t'[j]
      {
        assert Column(m, j) == [m[0][j]] + Column(m[1..], j);
      }
      assert t == seq(|m[0]|, j requires 0 <= j < |m[0]| => [m[0][j]] + t'[j]);
      PrependColumnValues(m[0], t');
      TransposeValues(m[1..], cols);
    }
  }

  lemma {:induction false} EmptyRowsFlatten(t: Matrix)
    requires forall j :: 0 <= j < |t| ==> t[j] == []
    ensures Flatten(t) == []
    decreases |t|
  {
    if |t| > 0 {
      EmptyRowsFlatten(t[1..]);
    }
  }

  /** The quarter turn moves values but neither adds nor drops any. */
  lemma RotateCcwValues(m: Matrix, cols: nat)
    requires Shaped(m, |m|, cols)
    ensures multiset(Flatten(RotateCcw(m, cols))) == multiset(Flatten(m))
  {
    TransposeValues(m, cols);
    FlipRowsValues(Transpose(m, cols));
  }
}
