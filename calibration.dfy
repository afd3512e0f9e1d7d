/**
 * Offline calibration of the gram-per-count scale factor from two logs of
 * the same session: a force log whose third column is the middle finger's
 * force in gram-force, and a touch log of one tactile region's counts per
 * frame. The lowest-force frames give a force baseline and a per-pixel touch
 * baseline; the force above baseline is fitted, through the origin, against
 * the sum of the touch counts above their baselines.
 */
module Calibration {

  import opened Wrappers
  import opened Statistics
  import opened Matrices

  // ---------------------------------------------------------------------------
  // Loading a numeric table

  /** A parsed CSV cell: a number, or None where the parser produced NaN (headers, blanks, text). */
  type Cell = Option<real>

  datatype LoadError = NoValidData | NotATable

  predicate AllNaN(row: seq<Cell>) {
    forall k :: 0 <= k < |row| ==> row[k].None?
  }

  predicate AnyNaN(row: seq<Cell>) {
    exists k :: 0 <= k < |row| && row[k].None?
  }

  function Values(row: seq<Cell>): (r: seq<real>)
    requires !AnyNaN(row)
    ensures |r| == |row| && forall k :: 0 <= k < |row| ==> row[k] == Some(r[k])
  {
    seq(|row|, k requires 0 <= k < |row| => row[k].value)
  }

  /** Every index one higher. */
  function Shift(t: seq<nat>): (r: seq<nat>)
    ensures |r| == |t| && forall k :: 0 <= k < |t| ==> r[k] == t[k] + 1
  {
    seq(|t|, k requires 0 <= k < |t| => t[k] + 1)
  }

  /** The positions of the rows `keep` accepts, ascending: what a boolean row mask selects. */
  function Kept(rows: seq<seq<Cell>>, keep: seq<Cell> -> bool): (idx: seq<nat>)
    ensures forall k :: 0 <= k < |idx| ==> idx[k] < |rows| && keep(rows[idx[k]])
    ensures forall k, l :: 0 <= k < l < |idx| ==> idx[k] < idx[l]
    ensures forall i :: 0 <= i < |rows| && keep(rows[i]) ==> i in idx
  {
    if |rows| == 0 then []
    else
      var rest := Kept(rows[1..], keep);
      var head: seq<nat> := if keep(rows[0]) then [0] else [];
      KeptStepSelected(rows, keep, rest, head);
      KeptStepAscending(rest, head);
      KeptStepComplete(rows, keep, rest, head);
      head + Shift(rest)
  }

  lemma KeptStepSelected(rows: seq<seq<Cell>>, keep: seq<Cell> -> bool, rest: seq<nat>, head: seq<nat>)
    requires |rows| > 0 && head == (if keep(rows[0]) then [0] else [])
    requires forall k :: 0 <= k < |rest| ==> rest[k] < |rows| - 1 && keep(rows[1..][rest[k]])
    ensures var idx := head + Shift(rest);
      forall k :: 0 <= k < |idx| ==> idx[k] < |rows| && keep(rows[idx[k]])
  {
    var idx := head + Shift(rest);
    forall k | 0 <= k < |idx| ensures idx[k] < |rows| && keep(rows[idx[k]]) {
      if k >= |head| {
        var m := k - |head|;
        assert idx[k] == rest[m] + 1;
        assert rows[1..][rest[m]] == rows[idx[k]];
      }
    }
  }

  lemma KeptStepAscending(rest: seq<nat>, head: seq<nat>)
    requires head == [] || head == [0]
    requires forall k, l :: 0 <= k < l < |rest| ==> rest[k] < rest[l]
    ensures var idx := head + Shift(rest);
      forall k, l :: 0 <= k < l < |idx| ==> idx[k] < idx[l]
  {
  }

  lemma KeptStepComplete(rows: seq<seq<Cell>>, keep: seq<Cell> -> bool, rest: seq<nat>, head: seq<nat>)
    requires |rows| > 0 && head == (if keep(rows[0]) then [0] else [])
    requires forall i :: 0 <= i < |rows| - 1 && keep(rows[1..][i]) ==> i in rest
    ensures var idx := head + Shift(rest);
      forall i :: 0 <= i < |rows| && keep(rows[i]) ==> i in idx
  {
    var idx := head + Shift(rest);
    forall i | 0 <= i < |rows| && keep(rows[i]) ensures i in idx {
      if i > 0 {
        assert rows[1..][i - 1] == rows[i];
        var k :| 0 <= k < |rest| && rest[k] == i - 1;
        assert idx[|head| + k] == i;
      }
    }
  }

  /** A mask selects nothing exactly when it accepts no row. */
  lemma KeptNone(rows: seq<seq<Cell>>, keep: seq<Cell> -> bool)
    ensures |Kept(rows, keep)| == 0 <==> forall i :: 0 <= i < |rows| ==> !keep(rows[i])
  {
    var idx := Kept(rows, keep);
    if |idx| > 0 {
      assert keep(rows[idx[0]]);
    }
  }

  /** One step of a head-first filter: kept positions of the tail shift by one. */
  lemma FilterStep<T>(rows: seq<seq<Cell>>, keep: seq<Cell> -> bool, head: seq<T>, rest: seq<T>)
    requires |rows| > 0
    requires |head| == (if keep(rows[0]) then 1 else 0)
    requires |rest| == |Kept(rows[1..], keep)|
    ensures |head + rest| == |Kept(rows, keep)|
    ensures forall k :: 0 <= k < |rest| ==> Kept(rows, keep)[|head| + k] == Kept(rows[1..], keep)[k] + 1
    ensures keep(rows[0]) ==> Kept(rows, keep)[0] == 0
  {
    var ri := Kept(rows[1..], keep);
    var h: seq<nat> := if keep(rows[0]) then [0] else [];
    assert Kept(rows, keep) == h + Shift(ri);
  }

  predicate NotAllNaN(row: seq<Cell>) {
    !AllNaN(row)
  }

  /**
   * The first mask: rows that are entirely NaN (headers, and rows with no
   * cells) are dropped; the others stay, in their order.
   */
  function DropAllNaN(rows: seq<seq<Cell>>): (r: seq<seq<Cell>>)
    ensures forall k :: 0 <= k < |r| ==> !AllNaN(r[k])
    ensures |r| == |Kept(rows, NotAllNaN)|
    ensures forall k :: 0 <= k < |r| ==> r[k] == rows[Kept(rows, NotAllNaN)[k]]
  {
    if |rows| == 0 then []
    else
      var rest := DropAllNaN(rows[1..]);
      var head := if AllNaN(rows[0]) then [] else [rows[0]];
      FilterStep(rows, NotAllNaN, head, rest);
      DropStep(rows, head, rest, Kept(rows, NotAllNaN), Kept(rows[1..], NotAllNaN));
      head + rest
  }

  lemma DropStep(rows: seq<seq<Cell>>, head: seq<seq<Cell>>, rest: seq<seq<Cell>>, idx: seq<nat>, ri: seq<nat>)
    requires |rows| > 0 && head == (if AllNaN(rows[0]) then [] else [rows[0]])
    requires |rest| == |ri| && forall k :: 0 <= k < |ri| ==> ri[k] < |rows| - 1 && rest[k] == rows[1..][ri[k]]
    requires |idx| == |head| + |rest| && forall k :: 0 <= k < |ri| ==> idx[|head| + k] == ri[k] + 1
    requires |head| == 1 ==> idx[0] == 0
    ensures forall k :: 0 <= k < |idx| ==> idx[k] < |rows| && (head + rest)[k] == rows[idx[k]]
  {
    forall k | 0 <= k < |idx| ensures idx[k] < |rows| && (head + rest)[k] == rows[idx[k]] {
      if k >= |head| {
        var m := k - |head|;
        assert idx[|head| + m] == ri[m] + 1;
        assert rows[1..][ri[m]] == rows[ri[m] + 1];
      }
    }
  }

  /** The second mask: rows with any NaN left are dropped; the rest become numbers. */
  function DropAnyNaN(rows: seq<seq<Cell>>): seq<seq<real>> {
    if |rows| == 0 then []
    else (if AnyNaN(rows[0]) then [] else [Values(rows[0])]) + DropAnyNaN(rows[1..])
  }

  /** A row survives both masks exactly when it has cells and none of them is NaN. */
  predicate Numeric(row: seq<Cell>) {
    |row| > 0 && !AnyNaN(row)
  }

  /** The rows that survive, in their original order, as numbers. */
  function NumericRows(rows: seq<seq<Cell>>): (r: seq<seq<real>>)
    ensures |r| <= |rows|
    ensures |r| == 0 <==> forall i :: 0 <= i < |rows| ==> !Numeric(rows[i])
    ensures |r| == |Kept(rows, Numeric)|
    ensures forall k :: 0 <= k < |r| ==> r[k] == Values(rows[Kept(rows, Numeric)[k]])
  {
    if |rows| == 0 then []
    else
      var rest := NumericRows(rows[1..]);
      NumericRowsStep(rows, rest);
      (if Numeric(rows[0]) then [Values(rows[0])] else []) + rest
  }

  /** The contract of NumericRows carries over from the rows after the first to all of them. */
  lemma NumericRowsStep(rows: seq<seq<Cell>>, rest: seq<seq<real>>)
    requires |rows| > 0
    requires |rest| == |Kept(rows[1..], Numeric)|
    requires forall k :: 0 <= k < |rest| ==> rest[k] == Values(rows[1..][Kept(rows[1..], Numeric)[k]])
    ensures var r := (if Numeric(rows[0]) then [Values(rows[0])] else []) + rest;
      |r| == 0 <==> forall i :: 0 <= i < |rows| ==> !Numeric(rows[i])
    ensures var r := (if Numeric(rows[0]) then [Values(rows[0])] else []) + rest;
      && |r| == |Kept(rows, Numeric)|
      && forall k :: 0 <= k < |r| ==> r[k] == Values(rows[Kept(rows, Numeric)[k]])
  {
    var head := if Numeric(rows[0]) then [Values(rows[0])] else [];
    FilterStep(rows, Numeric, head, rest);
    NumericStep(rows, head, rest, Kept(rows, Numeric), Kept(rows[1..], Numeric));
    KeptNone(rows, Numeric);
  }

  lemma NumericStep(rows: seq<seq<Cell>>, head: seq<seq<real>>, rest: seq<seq<real>>, idx: seq<nat>, ri: seq<nat>)
    requires |rows| > 0 && head == (if Numeric(rows[0]) then [Values(rows[0])] else [])
    requires |rest| == |ri|
    requires forall k :: 0 <= k < |ri| ==> ri[k] < |rows| - 1 && Numeric(rows[1..][ri[k]]) && rest[k] == Values(rows[1..][ri[k]])
    requires |idx| == |head| + |rest| && forall k :: 0 <= k < |ri| ==> idx[|head| + k] == ri[k] + 1
    requires |head| == 1 ==> idx[0] == 0
    ensures forall k :: 0 <= k < |idx| ==> idx[k] < |rows| && Numeric(rows[idx[k]]) && (head + rest)[k] == Values(rows[idx[k]])
  {
    forall k | 0 <= k < |idx| ensures idx[k] < |rows| && Numeric(rows[idx[k]]) && (head + rest)[k] == Values(rows[idx[k]]) {
      if k >= |head| {
        var m := k - |head|;
        assert idx[|head| + m] == ri[m] + 1;
        assert rows[1..][ri[m]] == rows[ri[m] + 1];
      }
    }
  }

  /** Applying the two masks one after the other is the single filter `Numeric`. */
  lemma {:induction false} TwoMasksAreOneFilter(rows: seq<seq<Cell>>)
    ensures DropAnyNaN(DropAllNaN(rows)) == NumericRows(rows)
  {
    if |rows| > 0 {
      TwoMasksAreOneFilter(rows[1..]);
      var head := if AllNaN(rows[0]) then [] else [rows[0]];
      assert DropAllNaN(rows) == head + DropAllNaN(rows[1..]);
      DropAnyNaNAppend(head, DropAllNaN(rows[1..]));
      if |rows[0]| == 0 {
        assert AllNaN(rows[0]);
      } else if AllNaN(rows[0]) {
        assert rows[0][0].None?;
        assert AnyNaN(rows[0]);
      } else {
        assert DropAnyNaN(head) == (if AnyNaN(rows[0]) then [] else [Values(rows[0])]) + DropAnyNaN([]);
      }
    }
  }

  lemma {:induction false} DropAnyNaNAppend(a: seq<seq<Cell>>, b: seq<seq<Cell>>)
    ensures DropAnyNaN(a + b) == DropAnyNaN(a) + DropAnyNaN(b)
  {
    if |a| > 0 {
      assert (a + b)[1..] == a[1..] + b;
      DropAnyNaNAppend(a[1..], b);
    } else {
      assert a + b == b;
    }
  }

  /** A log of one cell per line and more than one line: the parser returns it as a flat array. */
  predicate OneColumn(rows: seq<seq<Cell>>) {
    |rows| > 1 && forall i :: 0 <= i < |rows| ==> |rows[i]| == 1
  }

  /** A log of exactly one cell: the parser returns it as a 0-dimensional array. */
  predicate OneCell(rows: seq<seq<Cell>>) {
    |rows| == 1 && |rows[0]| == 1
  }

  /**
   * The parsed array after `if arr.ndim == 1: arr = arr.reshape(1, -1)`: a
   * flat array of one column becomes a single row holding the whole column;
   * a single line is already one row.
   */
  function AsTable(rows: seq<seq<Cell>>): (t: seq<seq<Cell>>)
    ensures OneColumn(rows) ==> |t| == 1 && |t[0]| == |rows| && forall i :: 0 <= i < |rows| ==> t[0][i] == rows[i][0]
    ensures !OneColumn(rows) ==> t == rows
  {
    if OneColumn(rows) then [seq(|rows|, i requires 0 <= i < |rows| && |rows[i]| == 1 => rows[i][0])] else rows
  }

  /**
   * `load_csv_numeric`: reshape a flat array to one row, drop all-NaN rows,
   * then rows with any NaN; fail when nothing is left. A single cell has no
   * second axis for the masks, and fails too.
   */
  function LoadNumeric(rows: seq<seq<Cell>>): (r: Result<Matrix, LoadError>)
    ensures OneCell(rows) ==> r == Err(NotATable)
    ensures !OneCell(rows) ==>
      (r.Err? <==> forall i :: 0 <= i < |AsTable(rows)| ==> !Numeric(AsTable(rows)[i]))
    ensures !OneColumn(rows) && !OneCell(rows) ==>
      (r.Err? <==> forall i :: 0 <= i < |rows| ==> !Numeric(rows[i]))
    ensures r.Ok? ==> |r.value| > 0 && r.value == NumericRows(AsTable(rows))
    ensures OneColumn(rows) ==>
      && (r.Ok? <==> forall i :: 0 <= i < |rows| ==> rows[i][0].Some?)
      && (r.Ok? ==> |r.value| == 1 && |r.value[0]| == |rows| && forall i :: 0 <= i < |rows| ==> rows[i][0] == Some(r.value[0][i]))
  {
    if OneCell(rows) then Err(NotATable)
    else
      var table := AsTable(rows);
      var kept := DropAnyNaN(DropAllNaN(table));
      TwoMasksAreOneFilter(table);
      OneColumnLoads(rows);
      if |kept| == 0 then Err(NoValidData) else Ok(kept)
  }

  /** A one-column log loads as a single row exactly when none of its cells is NaN: a header line empties it. */
  lemma OneColumnLoads(rows: seq<seq<Cell>>)
    ensures var r := NumericRows(AsTable(rows));
      OneColumn(rows) ==>
      && (r != [] <==> forall i :: 0 <= i < |rows| ==> rows[i][0].Some?)
      && (r != [] ==> |r| == 1 && |r[0]| == |rows| && forall i :: 0 <= i < |rows| ==> rows[i][0] == Some(r[0][i]))
  {
    if OneColumn(rows) {
      var t := AsTable(rows);
      assert NumericRows(t) == (if Numeric(t[0]) then [Values(t[0])] else []) + NumericRows(t[1..]);
      assert t[1..] == [];
      if forall i :: 0 <= i < |rows| ==> rows[i][0].Some? {
        assert !AnyNaN(t[0]);
      } else {
        var i :| 0 <= i < |rows| && rows[i][0].None?;
        assert t[0][i].None?;
      }
    }
  }

  /** A log whose cells all have the same width loads into a table of that width. */
  lemma LoadedWidth(rows: seq<seq<Cell>>, w: nat)
    requires forall i :: 0 <= i < |rows| ==> |rows[i]| == w
    ensures forall k :: 0 <= k < |NumericRows(rows)| ==> |NumericRows(rows)[k]| == w
  {
    var r := NumericRows(rows);
    forall k | 0 <= k < |r| ensures |r[k]| == w {
      var i := Kept(rows, Numeric)[k];
      assert r[k] == Values(rows[i]);
    }
  }

  // ---------------------------------------------------------------------------
  // Goodness of fit

  /** The squared length of a vector, `np.sum(d ** 2)`. */
  function SumSquares(d: seq<real>): real {
    Dot(d, d)
  }

  const Tiny: real := 0.000000000001

  /**
   * `compute_r2`: 1 - ss_res / ss_tot, or NaN (None) when the target's total
   * variation is at most 1e-12.
   */
  function R2(y: seq<real>, yhat: seq<real>): (r: Option<real>)
    requires |y| == |yhat| && |y| > 0
    ensures r.Some? <==> SumSquares(Diff(y, ScaleSeq(Ones(|y|), Mean(y)))) > Tiny
    ensures r.Some? ==> r.value <= 1.0
    ensures r.Some? && yhat == y ==> r.value == 1.0
  {
    var ssRes := SumSquares(Diff(y, yhat));
    var ssTot := SumSquares(Diff(y, ScaleSeq(Ones(|y|), Mean(y))));
    DotSelfNonNegative(Diff(y, yhat));
    if ssTot > Tiny then
      assert ssRes / ssTot >= 0.0;
      ZeroResidual(y);
      Some(1.0 - ssRes / ssTot)
    else None
  }

  function Ones(n: nat): (r: seq<real>)
    ensures |r| == n && forall i :: 0 <= i < n ==> r[i] == 1.0
  {
    seq(n, i => 1.0)
  }

  lemma {:induction false} ZeroResidual(y: seq<real>)
    ensures SumSquares(Diff(y, y)) == 0.0
  {
    if |y| > 0 {
      ZeroResidual(y[1..]);
      DiffTail(y, y);
    }
  }

  // ---------------------------------------------------------------------------
  // The least-squares fit through the origin

  datatype CalibrationError =
    | TooFewColumns   // the force log has fewer than 3 columns
    | DegenerateFit   // the touch feature has (almost) no energy

  /** y - c * s. */
  function Residual(y: seq<real>, s: seq<real>, c: real): (r: seq<real>)
    requires |y| == |s|
    ensures |r| == |y|
  {
    Diff(y, ScaleSeq(s, c))
  }

  /**
   * The slope of dF ~ k * S through the origin, or DegenerateFit when S.S is
   * below 1e-12. The residual of the fitted slope is orthogonal to S, which
   * is what makes it the least-squares slope (`FitMinimisesResidual`).
   */
  function Fit(s: seq<real>, y: seq<real>): (r: Result<real, CalibrationError>)
    requires |s| == |y|
    ensures r.Err? <==> Dot(s, s) < Tiny
    ensures r.Err? ==> r.error == DegenerateFit
    ensures r.Ok? ==> Dot(s, Residual(y, s, r.value)) == 0.0
  {
    var denom := Dot(s, s);
    if denom < Tiny then Err(DegenerateFit)
    else
      var k := Dot(s, y) / denom;
      DotSub(s, y, ScaleSeq(s, k));
      DotScale(s, s, k);
      Ok(k)
  }

  /** The first residual, squared, plus the squared residuals of the rest. */
  lemma ResidualStep(y: seq<real>, s: seq<real>, c: real)
    requires |y| == |s| && |y| > 0
    ensures SumSquares(Residual(y, s, c))
      == (y[0] - c * s[0]) * (y[0] - c * s[0]) + SumSquares(Residual(y[1..], s[1..], c))
  {
    var r := Residual(y, s, c);
    ScaleSeqTail(s, c);
    DiffTail(y, ScaleSeq(s, c));
    assert r[1..] == Residual(y[1..], s[1..], c);
  }

  /** yy - 2c sy + c^2 ss: the sum of squared residuals of slope c, from the three dot products. */
  function Quadratic(yy: real, sy: real, ss: real, c: real): real {
    yy - 2.0 * c * sy + c * c * ss
  }

  /** The sum of squared residuals, expanded: y.y - 2c s.y + c^2 s.s. */
  lemma {:induction false} ResidualExpansion(y: seq<real>, s: seq<real>, c: real)
    requires |y| == |s|
    ensures SumSquares(Residual(y, s, c)) == Quadratic(Dot(y, y), Dot(s, y), Dot(s, s), c)
  {
    if |y| > 0 {
      ResidualExpansion(y[1..], s[1..], c);
      ResidualStep(y, s, c);
      var yY, sY, sS := Dot(y, y), Dot(s, y), Dot(s, s);
      var all := SumSquares(Residual(y, s, c));
      assert yY == y[0] * y[0] + Dot(y[1..], y[1..]);
      assert sY == s[0] * y[0] + Dot(s[1..], y[1..]);
      assert sS == s[0] * s[0] + Dot(s[1..], s[1..]);
      Regroup(y[0], s[0], c, Dot(y[1..], y[1..]), Dot(s[1..], y[1..]), Dot(s[1..], s[1..]),
        SumSquares(Residual(y[1..], s[1..], c)), all, yY, sY, sS);
      assert all == Quadratic(yY, sY, sS, c);
    } else {
      assert Quadratic(0.0, 0.0, 0.0, c) == 0.0 by {
        assert c * c * 0.0 == 0.0 && 2.0 * c * 0.0 == 0.0;
      }
    }
  }

  /** The arithmetic of one induction step of `ResidualExpansion`. */
  lemma Regroup(y0: real, s0: real, c: real, yy: real, sy: real, ss: real, rest: real, all: real, yY: real, sY: real, sS: real)
    requires rest == Quadratic(yy, sy, ss, c)
    requires all == (y0 - c * s0) * (y0 - c * s0) + rest
    requires yY == y0 * y0 + yy && sY == s0 * y0 + sy && sS == s0 * s0 + ss
    ensures all == Quadratic(yY, sY, sS, c)
  {
    Square(y0, c, s0);
    Distribute(2.0 * c, s0 * y0, sy);
    Distribute(c * c, s0 * s0, ss);
  }

  lemma SquareNonNegative(x: real)
    ensures x * x >= 0.0
  {
    if x < 0.0 {
      ProductNonNegative(-x, -x);
    } else {
      ProductNonNegative(x, x);
    }
  }

  lemma Distribute(a: real, x: real, y: real)
    ensures a * x + a * y == a * (x + y)
  {
  }

  lemma Square(a: real, c: real, b: real)
    ensures (a - c * b) * (a - c * b) == a * a - 2.0 * c * (b * a) + c * c * (b * b)
  {
  }

  /** No slope c gives a smaller sum of squared residuals than the fitted one. */
  lemma FitMinimisesResidual(s: seq<real>, y: seq<real>, c: real)
    requires |s| == |y| && Fit(s, y).Ok?
    ensures SumSquares(Residual(y, s, Fit(s, y).value)) <= SumSquares(Residual(y, s, c))
  {
    var k := Fit(s, y).value;
    var ss := Dot(s, s);
    var sy := Dot(s, y);
    ResidualExpansion(y, s, k);
    ResidualExpansion(y, s, c);
    assert sy == k * ss;
    QuadraticGap(Dot(y, y), sy, ss, k, c);
  }

  /** Away from the fitted slope k = sy / ss, the quadratic grows by (c - k)^2 ss. */
  lemma QuadraticGap(yy: real, sy: real, ss: real, k: real, c: real)
    requires sy == k * ss && ss >= 0.0
    ensures Quadratic(yy, sy, ss, k) <= Quadratic(yy, sy, ss, c)
  {
    calc {
      Quadratic(yy, sy, ss, c) - Quadratic(yy, sy, ss, k);
      2.0 * (k - c) * sy + (c * c - k * k) * ss;
      2.0 * (k - c) * (k * ss) + (c * c - k * k) * ss;
      (c - k) * (c - k) * ss;
    }
    SquareNonNegative(c - k);
    ProductNonNegative((c - k) * (c - k), ss);
  }

  /** When the force delta is exactly c times the feature, the fit recovers c. */
  lemma FitRecoversExactSlope(s: seq<real>, c: real)
    requires Dot(s, s) >= Tiny
    ensures Fit(s, ScaleSeq(s, c)) == Ok(c)
  {
    var ss := Dot(s, s);
    DotScale(s, s, c);
    assert ss > 0.0;
    assert (c * ss) / ss == c by {
      var q := (c * ss) / ss;
      assert q * ss == c * ss;
      assert (q - c) * ss == 0.0;
    }
    assert Fit(s, ScaleSeq(s, c)).Ok?;
    assert Fit(s, ScaleSeq(s, c)).value == Dot(s, ScaleSeq(s, c)) / ss == c;
  }

  // ---------------------------------------------------------------------------
  // Baseline selection

  function Min(a: nat, b: nat): nat {
    if a <= b then a else b
  }

  /** `np.clip(baseline_frac, 0.05, 0.8)`. */
  function ClampFrac(f: real): (r: real)
    ensures 0.05 <= r <= 0.8
    ensures 0.05 <= f <= 0.8 ==> r == f
  {
    if f < 0.05 then 0.05 else if f > 0.8 then 0.8 else f
  }

  /** `max(5, int(frac * n))`: at least five frames, otherwise the fraction rounded down. */
  function BaselineCount(frac: real, n: nat): (k0: nat)
    ensures k0 >= 5
    ensures k0 > 5 ==> k0 as real <= ClampFrac(frac) * n as real < k0 as real + 1.0
    ensures (ClampFrac(frac) * n as real).Floor <= k0
  {
    var f := ClampFrac(frac);
    ProductNonNegative(f, n as real);
    var scaled := (f * n as real).Floor;
    if scaled > 5 then scaled else 5
  }

  /**
   * `order` is an argsort of `v`: a rearrangement of all the indices of `v`
   * that lists them by ascending value (ties in any order).
   */
  ghost predicate IsArgsort(order: seq<nat>, v: seq<real>) {
    && |order| == |v|
    && (forall k :: 0 <= k < |order| ==> order[k] < |v|)
    && (forall i :: 0 <= i < |v| ==> i in order)
    && (forall a, b :: 0 <= a < b < |order| ==> v[order[a]] <= v[order[b]])
  }

  /** A frame outside the first m entries of an argsort weighs no less than any frame inside. */
  lemma BaselineIsLowest(order: seq<nat>, v: seq<real>, m: nat, inside: nat, outside: nat)
    requires IsArgsort(order, v) && m <= |order|
    requires inside in order[..m] && outside < |v| && outside !in order[..m]
    ensures v[inside] <= v[outside]
  {
    var a :| 0 <= a < m && order[..m][a] == inside;
    assert outside in order;
    var b :| 0 <= b < |order| && order[b] == outside;
    assert forall c :: 0 <= c < m ==> order[c] in order[..m];
  }

  /** The median force of the baseline frames lies below every frame outside the baseline. */
  lemma ForceBaselineBelowOthers(order: seq<nat>, v: seq<real>, m: nat, outside: nat)
    requires IsArgsort(order, v) && 0 < m <= |order|
    requires outside < |v| && outside !in order[..m]
    ensures Median(Pick(v, order[..m])) <= v[outside]
  {
    var picked := Pick(v, order[..m]);
    assert exists j :: 0 <= j < |picked| && Median(picked) <= picked[j];
    var j :| 0 <= j < |picked| && Median(picked) <= picked[j];
    assert order[..m][j] in order[..m];
    BaselineIsLowest(order, v, m, order[..m][j], outside);
  }

  // ---------------------------------------------------------------------------
  // Features

  /** `np.clip(Fg - F0, 0.0, None)`: the force above baseline, never negative. */
  function ForceDelta(fg: seq<real>, f0: real): (d: seq<real>)
    ensures |d| == |fg|
    ensures forall i :: 0 <= i < |fg| ==> d[i] >= 0.0 && d[i] >= fg[i] - f0 && (d[i] == 0.0 || d[i] == fg[i] - f0)
  {
    seq(|fg|, i requires 0 <= i < |fg| => Clip(fg[i] - f0, None))
  }

  /** `np.median(touch[idx_base, :], axis=0)`: each pixel's median over the baseline frames. */
  function TouchBaseline(t: Matrix, w: nat, base: seq<nat>): (t0: seq<real>)
    requires Shaped(t, |t|, w) && |base| > 0
    requires forall k :: 0 <= k < |base| ==> base[k] < |t|
    ensures |t0| == w
    ensures forall j :: 0 <= j < w ==> t0[j] == Median(Pick(Column(t, j), base))
  {
    seq(w, j requires 0 <= j < w => Median(Pick(Column(t, j), base)))
  }

  /** A pixel's median over the baseline frames lies between two of those frames' counts. */
  lemma PixelMedianBetween(t: Matrix, w: nat, base: seq<nat>, j: nat)
    requires Shaped(t, |t|, w) && |base| > 0 && j < w
    requires forall k :: 0 <= k < |base| ==> base[k] < |t|
    ensures (exists k :: k in base && t[k][j] <= TouchBaseline(t, w, base)[j])
         && (exists k :: k in base && TouchBaseline(t, w, base)[j] <= t[k][j])
  {
    var picked := Pick(Column(t, j), base);
    var a :| 0 <= a < |picked| && picked[a] <= Median(picked);
    var b :| 0 <= b < |picked| && Median(picked) <= picked[b];
    assert base[a] in base && base[b] in base;
    assert picked[a] == t[base[a]][j] && picked[b] == t[base[b]][j];
  }

  /**
   * `np.where(touch - T0 > thresh, touch - T0, 0.0)`: a pixel keeps its
   * baseline-subtracted count only above the threshold.
   */
  function DeadZone(t: Matrix, t0: seq<real>, thresh: real): (d: Matrix)
    requires Shaped(t, |t|, |t0|)
    ensures Shaped(d, |t|, |t0|)
    ensures forall i, j :: 0 <= i < |t| && 0 <= j < |t0| ==>
      (d[i][j] == 0.0 || d[i][j] > thresh) && (t[i][j] - t0[j] > thresh ==> d[i][j] == t[i][j] - t0[j])
      && (t[i][j] - t0[j] <= thresh ==> d[i][j] == 0.0)
  {
    seq(|t|, i requires 0 <= i < |t| =>
      seq(|t0|, j requires 0 <= j < |t0| => if t[i][j] - t0[j] > thresh then t[i][j] - t0[j] else 0.0))
  }

  /** `np.sum(dT, axis=1)`: the feature S of each frame. */
  function RowSums(d: Matrix): (s: seq<real>)
    ensures |s| == |d| && forall i :: 0 <= i < |d| ==> s[i] == Sum(d[i])
  {
    seq(|d|, i requires 0 <= i < |d| => Sum(d[i]))
  }

  /** With a threshold of at least zero, every retained count is positive, so S is never negative. */
  lemma FeatureNonNegative(t: Matrix, t0: seq<real>, thresh: real)
    requires Shaped(t, |t|, |t0|) && thresh >= 0.0
    ensures forall i :: 0 <= i < |t| ==> RowSums(DeadZone(t, t0, thresh))[i] >= 0.0
  {
    var d := DeadZone(t, t0, thresh);
    forall i | 0 <= i < |t| ensures Sum(d[i]) >= 0.0 {
      SumNonNegative(d[i]);
    }
  }

  // ---------------------------------------------------------------------------
  // The whole calibration

  /** The intermediate quantities of one calibration run. */
  datatype Prepared = Prepared(
    fg: seq<real>,     // middle-finger force per frame
    base: seq<nat>,    // the baseline frames
    f0: real,          // force baseline
    dF: seq<real>,     // force above baseline
    t0: seq<real>,     // touch baseline per pixel
    dT: Matrix,        // touch above baseline and threshold
    s: seq<real>)      // feature per frame

  /** The calibration result the script prints. */
  datatype Estimate = Estimate(samples: nat, baselineFrames: nat, forceBaseline: real, scale: real, r2: Option<real>)

  /** The force log's third column over the first n frames. */
  function MiddleForce(force: Matrix, n: nat): (fg: seq<real>)
    requires n <= |force| && forall i :: 0 <= i < |force| ==> |force[i]| >= 3
    ensures |fg| == n && forall i :: 0 <= i < n ==> fg[i] == force[i][2]
  {
    Column(force[..n], 2)
  }

  /** Truncation, baseline selection, baselines, deltas and the feature. */
  function Prepare(force: Matrix, touch: Matrix, frac: real, thresh: real, order: seq<nat>): (p: Prepared)
    requires |force| > 0 && |touch| > 0
    requires Shaped(force, |force|, |force[0]|) && Shaped(touch, |touch|, |touch[0]|)
    requires |force[0]| >= 3
    requires IsArgsort(order, MiddleForce(force, Min(|force|, |touch|)))
    ensures var n := Min(|force|, |touch|);
      && p.fg == MiddleForce(force, n)
      && p.base == order[..Min(BaselineCount(frac, n), n)] && |p.base| > 0
      && (forall k :: 0 <= k < |p.base| ==> p.base[k] < n)
      && p.f0 == Median(Pick(p.fg, p.base))
      && p.dF == ForceDelta(p.fg, p.f0)
      && |p.t0| == |touch[0]|
      && p.t0 == TouchBaseline(touch[..n], |touch[0]|, p.base)
      && p.dT == DeadZone(touch[..n], p.t0, thresh)
      && p.s == RowSums(p.dT) && |p.s| == n
  {
    var n := Min(|force|, |touch|);
    var fg := MiddleForce(force, n);
    var base := order[..Min(BaselineCount(frac, n), n)];
    var f0 := Median(Pick(fg, base));
    var tn := touch[..n];
    var t0 := TouchBaseline(tn, |touch[0]|, base);
    var dT := DeadZone(tn, t0, thresh);
    Prepared(fg, base, f0, ForceDelta(fg, f0), t0, dT, RowSums(dT))
  }

  /**
   * The force baseline is the median force of the lowest-force frames: it
   * lies between two baseline frames' forces and below every other frame's,
   * so every frame outside the baseline has a force delta of exactly Fg - F0.
   */
  lemma ForceBaselineFacts(force: Matrix, touch: Matrix, frac: real, thresh: real, order: seq<nat>)
    requires |force| > 0 && |touch| > 0
    requires Shaped(force, |force|, |force[0]|) && Shaped(touch, |touch|, |touch[0]|)
    requires |force[0]| >= 3
    requires IsArgsort(order, MiddleForce(force, Min(|force|, |touch|)))
    ensures var p := Prepare(force, touch, frac, thresh, order);
      && (exists i :: i in p.base && p.fg[i] <= p.f0)
      && (exists i :: i in p.base && p.f0 <= p.fg[i])
      && (forall i :: 0 <= i < |p.fg| && i !in p.base ==> p.f0 <= p.fg[i] && p.dF[i] == p.fg[i] - p.f0)
  {
    var p := Prepare(force, touch, frac, thresh, order);
    var picked := Pick(p.fg, p.base);
    var i0 :| 0 <= i0 < |picked| && picked[i0] <= p.f0;
    var i1 :| 0 <= i1 < |picked| && p.f0 <= picked[i1];
    assert p.base[i0] in p.base && p.base[i1] in p.base;
    forall i | 0 <= i < |p.fg| && i !in p.base
      ensures p.f0 <= p.fg[i] && p.dF[i] == p.fg[i] - p.f0
    {
      ForceBaselineBelowOthers(order, p.fg, |p.base|, i);
    }
  }

  /**
   * The calibration: TooFewColumns when the force log has fewer than three
   * columns, DegenerateFit when the feature has no energy, and otherwise the
   * sample count, the number of baseline frames, the force baseline, the
   * least-squares scale factor and the R^2 of the fit.
   */
  function Calibrate(force: Matrix, touch: Matrix, frac: real, thresh: real, order: seq<nat>): (r: Result<Estimate, CalibrationError>)
    requires |force| > 0 && |touch| > 0
    requires Shaped(force, |force|, |force[0]|) && Shaped(touch, |touch|, |touch[0]|)
    requires |force[0]| >= 3 ==> IsArgsort(order, MiddleForce(force, Min(|force|, |touch|)))
    ensures r == Err(TooFewColumns) <==> |force[0]| < 3
    ensures |force[0]| >= 3 ==>
      var p := Prepare(force, touch, frac, thresh, order);
      && (r == Err(DegenerateFit) <==> Dot(p.s, p.s) < Tiny)
      && (r.Ok? ==>
            && r.value.samples == Min(|force|, |touch|)
            && r.value.baselineFrames == BaselineCount(frac, Min(|force|, |touch|))
            && r.value.forceBaseline == p.f0
            && Fit(p.s, p.dF) == Ok(r.value.scale)
            && r.value.r2 == R2(p.dF, ScaleSeq(p.s, r.value.scale)))
  {
    if |force[0]| < 3 then Err(TooFewColumns)
    else
      var n := Min(|force|, |touch|);
      var p := Prepare(force, touch, frac, thresh, order);
      match Fit(p.s, p.dF)
      case Err(e) => Err(e)
      case Ok(k) => Ok(Estimate(n, BaselineCount(frac, n), p.f0, k, R2(p.dF, ScaleSeq(p.s, k))))
  }
}
