/**
 * `compute_axes` (expert_system.py): on a copy of the table, twelve
 * numeric columns are cast with `pd.to_numeric(errors="coerce")`; then six
 * scores in [0,1] are added to every row. Performance, economy, safety
 * and comfort are the row means of the normalised columns of their group
 * that the table has (0 when it has none); ownership and price are one
 * minus the normalised service cost and price (0 without the column).
 * The frame is a value, so the caller's table is never changed.
 */
module Axes {
  import opened Wrappers
  import opened Tables
  import opened Normalizer

  /** The columns cast to numbers, in the order they are cast. */
  const CastColumns: seq<string> := [
    "power_bhp", "torque_nm", "top_speed_kmph", "mileage_value", "range_km_est",
    "airbags_num", "adas_level_num", "service_cost_per_year_avg",
    "ground_clearance_mm", "sunroof_yes", "cruise_control_yes", "price_inr"]

  const Performance: seq<string> := ["power_bhp", "torque_nm", "top_speed_kmph"]
  const Economy: seq<string> := ["mileage_value", "range_km_est"]
  const Safety: seq<string> := ["airbags_num", "adas_level_num"]
  const Comfort: seq<string> := ["sunroof_yes", "cruise_control_yes", "ground_clearance_mm"]
  const ServiceCost: string := "service_cost_per_year_avg"
  const Price: string := "price_inr"

  /** The four averaged groups, in the order of the first four axes. */
  const Groups: seq<seq<string>> := [Performance, Economy, Safety, Comfort]

  /** The two inverted columns, in the order of the last two axes. */
  const Inverted: seq<string> := [ServiceCost, Price]

  /** The six axis columns, in the order they are written. */
  const AxisNames: seq<string> := [
    "axis_performance", "axis_economy", "axis_safety", "axis_comfort", "axis_ownership", "axis_price"]

  // ---------------------------------------------------------------------------
  // Facts about the column names

  /** No column is cast twice. */
  lemma CastColumnsDistinct()
    ensures forall a, b :: 0 <= a < b < |CastColumns| ==> CastColumns[a] != CastColumns[b]
  {
  }

  /** The axis names are distinct. */
  lemma AxisNamesDistinct()
    ensures forall a, b :: 0 <= a < b < |AxisNames| ==> AxisNames[a] != AxisNames[b]
  {
  }

  /** No axis name is a cast column. */
  lemma AxisNamesNotCast()
    ensures forall k :: 0 <= k < |AxisNames| ==> AxisNames[k] !in CastColumns
  {
    assert forall a :: 0 <= a < |CastColumns| ==> |CastColumns[a]| > 1 && CastColumns[a][1] != 'x';
    assert forall k :: 0 <= k < |AxisNames| ==> |AxisNames[k]| > 1 && AxisNames[k][1] == 'x';
  }

  /** Every column an axis reads is a cast column. */
  lemma SourcesAreCast()
    ensures forall g, k :: 0 <= g < |Groups| && 0 <= k < |Groups[g]| ==> Groups[g][k] in CastColumns
    ensures forall k :: 0 <= k < |Inverted| ==> Inverted[k] in CastColumns
  {
  }

  // ---------------------------------------------------------------------------
  // The numeric casts

  /** Column `c` through `pd.to_numeric(..., errors="coerce")`. */
  function CoercedCells(f: Frame, c: string): (r: seq<Cell>)
    requires WellFormed(f) && c in f.columns
    ensures |r| == |f.rows|
  {
    seq(|f.rows|, i requires 0 <= i < |f.rows| => Coerce(f.rows[i][c]))
  }

  /** One cast: the column is cast when the table has it. */
  function CastStep(f: Frame, c: string): (r: Frame)
    requires WellFormed(f)
    ensures WellFormed(r) && r.columns == f.columns && |r.rows| == |f.rows|
  {
    if c in f.columns then WithColumn(f, c, CoercedCells(f, c)) else f
  }

  /** The table after the first `n` casts. */
  function CastUpTo(f: Frame, n: nat): (r: Frame)
    requires WellFormed(f) && n <= |CastColumns|
    ensures WellFormed(r) && r.columns == f.columns && |r.rows| == |f.rows|
  {
    if n == 0 then f else CastStep(CastUpTo(f, n - 1), CastColumns[n - 1])
  }

  /** The table after all twelve casts. */
  function Cast(f: Frame): (r: Frame)
    requires WellFormed(f)
    ensures WellFormed(r) && r.columns == f.columns && |r.rows| == |f.rows|
  {
    CastUpTo(f, |CastColumns|)
  }

  /** After `n` casts, the cells of the columns cast so far are coerced and the others are as they were. */
  lemma {:induction false} CastUpToAt(f: Frame, n: nat, i: nat, c: string)
    requires WellFormed(f) && n <= |CastColumns| && i < |f.rows| && c in f.columns
    ensures CastUpTo(f, n).rows[i][c] == if c in CastColumns[..n] then Coerce(f.rows[i][c]) else f.rows[i][c]
  {
    if n > 0 {
      CastUpToAt(f, n - 1, i, c);
      PrefixMember(CastColumns, n, c);
      CastStepAt(CastUpTo(f, n - 1), CastColumns[n - 1], i, c);
      CoerceIdempotent(f.rows[i][c]);
    }
  }

  /** One cast coerces its own column's cells and leaves the others. */
  lemma CastStepAt(f: Frame, cast: string, i: nat, c: string)
    requires WellFormed(f) && i < |f.rows| && c in f.columns
    ensures CastStep(f, cast).rows[i][c] == if c == cast then Coerce(f.rows[i][c]) else f.rows[i][c]
  {
  }

  /** A name is in a prefix one longer exactly when it is in the shorter prefix or is the added entry. */
  lemma PrefixMember(s: seq<string>, n: nat, c: string)
    requires 0 < n <= |s|
    ensures c in s[..n] <==> c in s[..n - 1] || c == s[n - 1]
  {
    assert s[..n] == s[..n - 1] + [s[n - 1]];
  }

  /** Casting coerces exactly the cast columns. */
  lemma CastAt(f: Frame, i: nat, c: string)
    requires WellFormed(f) && i < |f.rows| && c in f.columns
    ensures Cast(f).rows[i][c] == if c in CastColumns then Coerce(f.rows[i][c]) else f.rows[i][c]
  {
    CastUpToAt(f, |CastColumns|, i, c);
    assert CastColumns[..|CastColumns|] == CastColumns;
  }

  /** Casting does not change how a column reads as numbers. */
  lemma CastNumbers(f: Frame, c: string)
    requires WellFormed(f) && c in f.columns
    ensures Numbers(Cast(f), c) == Numbers(f, c)
  {
    forall i | 0 <= i < |f.rows| ensures Numbers(Cast(f), c)[i] == Numbers(f, c)[i] {
      CastAt(f, i, c);
    }
  }

  // ---------------------------------------------------------------------------
  // The six axes

  /** The columns of `group` that the table has, in the group's order. */
  function PresentIn(group: seq<string>, columns: set<string>): (r: seq<string>)
    ensures forall c :: c in r <==> c in group && c in columns
  {
    if group == [] then []
    else (if group[0] in columns then [group[0]] else []) + PresentIn(group[1..], columns)
  }

  /** The sum of the entries at row `i` of the given columns; at most their number when each is in [0,1]. */
  function SumAt(cols: seq<seq<real>>, i: nat): (r: real)
    requires forall k :: 0 <= k < |cols| ==> i < |cols[k]|
    ensures (forall k :: 0 <= k < |cols| ==> 0.0 <= cols[k][i] <= 1.0) ==> 0.0 <= r <= |cols| as real
  {
    if cols == [] then 0.0 else SumAt(cols[..|cols| - 1], i) + cols[|cols| - 1][i]
  }

  /** `normalize_series(df[c])` for each listed column. */
  function NormalizedColumns(f: Frame, cols: seq<string>): (r: seq<seq<real>>)
    requires WellFormed(f) && forall k :: 0 <= k < |cols| ==> cols[k] in f.columns
    ensures |r| == |cols|
    ensures forall k :: 0 <= k < |r| ==> |r[k]| == |f.rows|
    ensures forall k, i :: 0 <= k < |r| && 0 <= i < |r[k]| ==> 0.0 <= r[k][i] <= 1.0
  {
    seq(|cols|, k requires 0 <= k < |cols| => Normalize(Numbers(f, cols[k])))
  }

  /** A mean of values in [0,1] is in [0,1]. */
  lemma MeanBound(x: real, n: nat)
    requires n > 0 && 0.0 <= x <= n as real
    ensures 0.0 <= x / n as real <= 1.0
  {
  }

  /** The row means of equally long columns of values in [0,1]. */
  function RowMeans(norm: seq<seq<real>>, n: nat): (r: seq<real>)
    requires |norm| > 0 && forall k :: 0 <= k < |norm| ==> |norm[k]| == n
    requires forall k, i :: 0 <= k < |norm| && 0 <= i < |norm[k]| ==> 0.0 <= norm[k][i] <= 1.0
    ensures |r| == n
    ensures forall i :: 0 <= i < |r| ==> 0.0 <= r[i] <= 1.0
  {
    assert forall i :: 0 <= i < n ==> 0.0 <= SumAt(norm, i) / |norm| as real <= 1.0 by {
      forall i | 0 <= i < n ensures 0.0 <= SumAt(norm, i) / |norm| as real <= 1.0 {
        MeanBound(SumAt(norm, i), |norm|);
      }
    }
    seq(n, i requires 0 <= i < n => SumAt(norm, i) / |norm| as real)
  }

  /** A group axis: the row mean of the group's columns the table has, normalised; zeros when it has none. */
  function GroupAxis(f: Frame, group: seq<string>): (r: seq<real>)
    requires WellFormed(f)
    ensures |r| == |f.rows|
    ensures forall i :: 0 <= i < |r| ==> 0.0 <= r[i] <= 1.0
  {
    var cols := PresentIn(group, f.columns);
    if cols == [] then Zeros(|f.rows|)
    else RowMeans(NormalizedColumns(f, cols), |f.rows|)
  }

  /** `s.fillna(s.median())`: unchanged when every entry is missing, since the median is then NaN. */
  function MedianFilled(s: seq<Option<real>>): (r: seq<Option<real>>)
    ensures |r| == |s|
  {
    if AllMissing(s) then s else FillOpt(s, FillValue(s))
  }

  /** `1 - v`, elementwise, on values in [0,1]. */
  function Complement(v: seq<real>): (r: seq<real>)
    requires forall i :: 0 <= i < |v| ==> 0.0 <= v[i] <= 1.0
    ensures |r| == |v|
    ensures forall i :: 0 <= i < |r| ==> 0.0 <= r[i] <= 1.0
  {
    seq(|v|, i requires 0 <= i < |v| => 1.0 - v[i])
  }

  /**
   * An inverted axis: `1 - normalize_series(s.fillna(s.median()))` for the
   * column `c` read as numbers, or zeros without the column.
   */
  function InvertedAxis(f: Frame, c: string): (r: seq<real>)
    requires WellFormed(f)
    ensures |r| == |f.rows|
    ensures forall i :: 0 <= i < |r| ==> 0.0 <= r[i] <= 1.0
  {
    if c !in f.columns then Zeros(|f.rows|)
    else Complement(Normalize(MedianFilled(Numbers(f, c))))
  }

  /** Axis `k` of the six, in the order of `AxisNames`. */
  function AxisAt(f: Frame, k: nat): (r: seq<real>)
    requires WellFormed(f) && k < |AxisNames|
    ensures |r| == |f.rows|
    ensures forall i :: 0 <= i < |r| ==> 0.0 <= r[i] <= 1.0
  {
    if k < |Groups| then GroupAxis(f, Groups[k]) else InvertedAxis(f, Inverted[k - |Groups|])
  }

  /** The six axes, computed on the cast table. */
  function AxisValues(f: Frame): (r: seq<seq<real>>)
    requires WellFormed(f)
    ensures |r| == |AxisNames|
    ensures forall k :: 0 <= k < |r| ==> |r[k]| == |f.rows|
  {
    seq(|AxisNames|, k requires 0 <= k < |AxisNames| => AxisAt(f, k))
  }

  /** The table after the first `j` axis columns are written. */
  function SetAxes(f: Frame, axes: seq<seq<real>>, j: nat): (r: Frame)
    requires WellFormed(f) && |axes| == |AxisNames| && j <= |AxisNames|
    requires forall k :: 0 <= k < |axes| ==> |axes[k]| == |f.rows|
    ensures WellFormed(r) && |r.rows| == |f.rows|
    ensures r.columns == f.columns + set k | 0 <= k < j :: AxisNames[k]
  {
    if j == 0 then f
    else
      var g := SetAxes(f, axes, j - 1);
      WithColumn(g, AxisNames[j - 1], NumCells(axes[j - 1]))
  }

  /** The names of the six axis columns. */
  function AxisSet(): set<string> {
    set k | 0 <= k < |AxisNames| :: AxisNames[k]
  }

  /** `compute_axes(df)` */
  function WithAxes(df: Frame): (r: Frame)
    requires WellFormed(df)
    ensures WellFormed(r) && |r.rows| == |df.rows|
    ensures r.columns == df.columns + AxisSet()
  {
    var c := Cast(df);
    SetAxes(c, AxisValues(c), |AxisNames|)
  }

  // ---------------------------------------------------------------------------
  // The computation, as the source performs it

  /** `compute_axes(df)`: the casts, then the six column assignments. */
  method ComputeAxes(df: Frame) returns (out: Frame)
    requires WellFormed(df)
    ensures out == WithAxes(df)
  {
    var cast := CastNumericColumns(df);
    var axes := AxisValues(cast);
    out := WriteAxes(cast, axes);
  }

  /** The loop casting each of the twelve columns the table has. */
  method CastNumericColumns(df: Frame) returns (d: Frame)
    requires WellFormed(df)
    ensures d == Cast(df)
  {
    d := df;
    var n := 0;
    while n < |CastColumns|
      invariant 0 <= n <= |CastColumns|
      invariant d == CastUpTo(df, n)
    {
      var c := CastColumns[n];
      if c in d.columns {
        d := WithColumn(d, c, CoercedCells(d, c));
      }
      n := n + 1;
    }
  }

  /** The loop writing each axis as a column (`df[col] = axes[col]`). */
  method WriteAxes(cast: Frame, axes: seq<seq<real>>) returns (d: Frame)
    requires WellFormed(cast) && |axes| == |AxisNames|
    requires forall k :: 0 <= k < |axes| ==> |axes[k]| == |cast.rows|
    ensures d == SetAxes(cast, axes, |AxisNames|)
  {
    d := cast;
    var j := 0;
    while j < |AxisNames|
      invariant 0 <= j <= |AxisNames|
      invariant d == SetAxes(cast, axes, j)
    {
      d := WithColumn(d, AxisNames[j], NumCells(axes[j]));
      j := j + 1;
    }
  }

  // ---------------------------------------------------------------------------
  // Properties

  /** After `j` axis columns are written, those cells hold the axes and the others are as they were. */
  lemma {:induction false} SetAxesAt(f: Frame, axes: seq<seq<real>>, j: nat, i: nat)
    requires WellFormed(f) && |axes| == |AxisNames| && j <= |AxisNames| && i < |f.rows|
    requires forall k :: 0 <= k < |axes| ==> |axes[k]| == |f.rows|
    ensures forall k :: 0 <= k < j ==> SetAxes(f, axes, j).rows[i][AxisNames[k]] == Num(axes[k][i])
    ensures forall c :: c in f.columns && c !in AxisNames[..j] ==> SetAxes(f, axes, j).rows[i][c] == f.rows[i][c]
  {
    if j > 0 {
      SetAxesAt(f, axes, j - 1, i);
      AxisNamesDistinct();
      assert AxisNames[..j] == AxisNames[..j - 1] + [AxisNames[j - 1]];
    }
  }

  /** Each axis cell of `compute_axes`' result holds the axis computed on the cast table. */
  lemma AxisCellAt(df: Frame, k: nat, i: nat)
    requires WellFormed(df) && k < |AxisNames| && i < |df.rows|
    ensures WithAxes(df).rows[i][AxisNames[k]] == Num(AxisAt(Cast(df), k)[i])
  {
    SetAxesAt(Cast(df), AxisValues(Cast(df)), |AxisNames|, i);
  }

  /** Every axis cell is a number in [0,1]. */
  lemma AxesInUnitRange(df: Frame, k: nat, i: nat)
    requires WellFormed(df) && k < |AxisNames| && i < |df.rows|
    ensures WithAxes(df).rows[i][AxisNames[k]].Num?
    ensures 0.0 <= WithAxes(df).rows[i][AxisNames[k]].value <= 1.0
  {
    AxisCellAt(df, k, i);
  }

  /** Every other cell keeps its value, coerced to a number in the cast columns. */
  lemma OtherCellsKept(df: Frame, i: nat, c: string)
    requires WellFormed(df) && i < |df.rows| && c in df.columns && c !in AxisNames
    ensures WithAxes(df).rows[i][c] == if c in CastColumns then Coerce(df.rows[i][c]) else df.rows[i][c]
  {
    SetAxesAt(Cast(df), AxisValues(Cast(df)), |AxisNames|, i);
    assert AxisNames[..|AxisNames|] == AxisNames;
    CastAt(df, i, c);
  }

  /** A group axis is 0 in every row when the table has none of the group's columns. */
  lemma AbsentGroupIsZero(df: Frame, g: nat, i: nat)
    requires WellFormed(df) && g < |Groups| && i < |df.rows|
    requires forall k :: 0 <= k < |Groups[g]| ==> Groups[g][k] !in df.columns
    ensures WithAxes(df).rows[i][AxisNames[g]] == Num(0.0)
  {
    AxisCellAt(df, g, i);
    GroupAxisAbsent(Cast(df), Groups[g], i);
  }

  /** A group none of whose columns the table has gives 0. */
  lemma GroupAxisAbsent(f: Frame, group: seq<string>, i: nat)
    requires WellFormed(f) && i < |f.rows|
    requires forall k :: 0 <= k < |group| ==> group[k] !in f.columns
    ensures GroupAxis(f, group)[i] == 0.0
  {
    PresentInNone(group, f.columns);
  }

  /** A group none of whose columns the table has selects none. */
  lemma {:induction false} PresentInNone(group: seq<string>, columns: set<string>)
    requires forall k :: 0 <= k < |group| ==> group[k] !in columns
    ensures PresentIn(group, columns) == []
  {
    if group != [] {
      PresentInNone(group[1..], columns);
    }
  }

  /** An inverted axis is 0 in every row when the table lacks its column. */
  lemma AbsentInvertedIsZero(df: Frame, k: nat, i: nat)
    requires WellFormed(df) && k < |Inverted| && i < |df.rows| && Inverted[k] !in df.columns
    ensures WithAxes(df).rows[i][AxisNames[4 + k]] == Num(0.0)
  {
    AxisCellAt(df, 4 + k, i);
  }

  /** The median fill before normalising changes nothing: an inverted axis is one minus the normalised column. */
  lemma InvertedIsComplement(f: Frame, c: string, i: nat)
    requires WellFormed(f) && c in f.columns && i < |f.rows|
    ensures InvertedAxis(f, c)[i] == 1.0 - Normalize(Numbers(f, c))[i]
  {
    var s := Numbers(f, c);
    if !AllMissing(s) {
      NormalizeOfFilled(s);
    }
  }

  /**
   * With the service-cost or price column present but all missing or
   * constant, its axis is 1.0 in every row.
   */
  lemma FlatColumnIsOne(df: Frame, k: nat, i: nat)
    requires WellFormed(df) && k < |Inverted| && i < |df.rows| && Inverted[k] in df.columns
    requires var s := Numbers(df, Inverted[k]); AllMissing(s) || MinOf(Present(s)) == MaxOf(Present(s))
    ensures WithAxes(df).rows[i][AxisNames[4 + k]] == Num(1.0)
  {
    AxisCellAt(df, 4 + k, i);
    CastNumbers(df, Inverted[k]);
    InvertedIsComplement(Cast(df), Inverted[k], i);
    NormalizeDegenerate(Numbers(df, Inverted[k]));
  }

  /** A cheaper car (or one with lower service cost) scores at least as high on that axis. */
  lemma CheaperScoresHigher(df: Frame, k: nat, i: nat, j: nat)
    requires WellFormed(df) && k < |Inverted| && i < |df.rows| && j < |df.rows| && Inverted[k] in df.columns
    requires ToNumeric(df.rows[i][Inverted[k]]).Some? && ToNumeric(df.rows[j][Inverted[k]]).Some?
    requires ToNumeric(df.rows[i][Inverted[k]]).value <= ToNumeric(df.rows[j][Inverted[k]]).value
    ensures WithAxes(df).rows[i][AxisNames[4 + k]].Num? && WithAxes(df).rows[j][AxisNames[4 + k]].Num?
      && WithAxes(df).rows[i][AxisNames[4 + k]].value >= WithAxes(df).rows[j][AxisNames[4 + k]].value
  {
    InvertedCell(df, k, i);
    InvertedCell(df, k, j);
    NormalizeMonotone(Numbers(df, Inverted[k]), i, j);
  }

  /** An inverted axis cell is one minus the normalized reading of its source column. */
  lemma InvertedCell(df: Frame, k: nat, i: nat)
    requires WellFormed(df) && k < |Inverted| && i < |df.rows| && Inverted[k] in df.columns
    ensures WithAxes(df).rows[i][AxisNames[4 + k]] == Num(1.0 - Normalize(Numbers(df, Inverted[k]))[i])
  {
    var c := Inverted[k];
    AxisCellAt(df, 4 + k, i);
    CastNumbers(df, c);
    InvertedIsComplement(Cast(df), c, i);
  }

  /** Casting a table that is already cast changes nothing. */
  lemma CastOfAxes(df: Frame)
    requires WellFormed(df)
    ensures Cast(WithAxes(df)) == WithAxes(df)
  {
    var w := WithAxes(df);
    AxisNamesNotCast();
    forall i, c | 0 <= i < |w.rows| && c in w.columns ensures Cast(w).rows[i][c] == w.rows[i][c] {
      CastAt(w, i, c);
      if c in CastColumns && c in df.columns {
        OtherCellsKept(df, i, c);
        CoerceIdempotent(df.rows[i][c]);
      }
    }
    FrameExt(Cast(w), w);
  }

  /** The axes depend only on the source columns the table has and how they read as numbers. */
  lemma AxisValuesAgree(f: Frame, g: Frame)
    requires WellFormed(f) && WellFormed(g) && |f.rows| == |g.rows|
    requires forall c :: c in CastColumns ==> (c in f.columns <==> c in g.columns)
    requires forall c :: c in CastColumns && c in f.columns ==> Numbers(f, c) == Numbers(g, c)
    ensures AxisValues(f) == AxisValues(g)
  {
    SourcesAreCast();
    forall k | 0 <= k < |AxisNames| ensures AxisAt(f, k) == AxisAt(g, k) {
      if k < |Groups| {
        GroupAxisAgree(f, g, Groups[k]);
      }
    }
  }

  /** A group axis depends only on which of the group's columns the table has and how they read. */
  lemma GroupAxisAgree(f: Frame, g: Frame, group: seq<string>)
    requires WellFormed(f) && WellFormed(g) && |f.rows| == |g.rows|
    requires forall c :: c in group ==> (c in f.columns <==> c in g.columns)
    requires forall c :: c in group && c in f.columns ==> Numbers(f, c) == Numbers(g, c)
    ensures GroupAxis(f, group) == GroupAxis(g, group)
  {
    PresentInAgree(group, f.columns, g.columns);
    var cols := PresentIn(group, f.columns);
    if cols != [] {
      assert NormalizedColumns(f, cols) == NormalizedColumns(g, cols);
    }
  }

  /** Two column sets that agree on a group's columns select the same of them. */
  lemma {:induction false} PresentInAgree(group: seq<string>, a: set<string>, b: set<string>)
    requires forall k :: 0 <= k < |group| ==> (group[k] in a <==> group[k] in b)
    ensures PresentIn(group, a) == PresentIn(group, b)
  {
    if group != [] {
      PresentInAgree(group[1..], a, b);
    }
  }

  /** On `compute_axes`' result, the axes come out as they were computed the first time. */
  lemma AxesOfAxes(df: Frame)
    requires WellFormed(df)
    ensures AxisValues(WithAxes(df)) == AxisValues(Cast(df))
  {
    var w := WithAxes(df);
    var cast := Cast(df);
    AxisNamesNotCast();
    forall c | c in CastColumns && c in w.columns ensures Numbers(w, c) == Numbers(cast, c) {
      forall i | 0 <= i < |w.rows| ensures w.rows[i][c] == cast.rows[i][c] {
        OtherCellsKept(df, i, c);
        CastAt(df, i, c);
      }
    }
    AxisValuesAgree(w, cast);
  }

  /** Writing axes a frame already holds leaves the frame as it was. */
  lemma SetAxesOver(f: Frame, axes: seq<seq<real>>)
    requires WellFormed(f) && |axes| == |AxisNames|
    requires forall k :: 0 <= k < |axes| ==> |axes[k]| == |f.rows|
    requires forall k :: 0 <= k < |AxisNames| ==> AxisNames[k] in f.columns
    requires forall k, i :: 0 <= k < |AxisNames| && 0 <= i < |f.rows| ==> f.rows[i][AxisNames[k]] == Num(axes[k][i])
    ensures SetAxes(f, axes, |AxisNames|) == f
  {
    var again := SetAxes(f, axes, |AxisNames|);
    assert AxisNames[..|AxisNames|] == AxisNames;
    forall i, c | 0 <= i < |f.rows| && c in f.columns ensures again.rows[i][c] == f.rows[i][c] {
      SetAxesAt(f, axes, |AxisNames|, i);
    }
    FrameExt(again, f);
  }

  /** Writing the first result's axes again over it changes nothing. */
  lemma RewriteAxes(df: Frame)
    requires WellFormed(df)
    ensures SetAxes(WithAxes(df), AxisValues(Cast(df)), |AxisNames|) == WithAxes(df)
  {
    var w := WithAxes(df);
    var axes := AxisValues(Cast(df));
    forall k, i | 0 <= k < |AxisNames| && 0 <= i < |w.rows| ensures w.rows[i][AxisNames[k]] == Num(axes[k][i]) {
      AxisCellAt(df, k, i);
    }
    SetAxesOver(w, axes);
  }

  /** `compute_axes` is idempotent: rerunning it on its own result gives that result back. */
  lemma WithAxesIdempotent(df: Frame)
    requires WellFormed(df)
    ensures WithAxes(WithAxes(df)) == WithAxes(df)
  {
    CastOfAxes(df);
    AxesOfAxes(df);
    RewriteAxes(df);
  }
}
