/**
 * `recommend` (expert_system.py): on a copy of the table, the six axes are
 * computed unless all are present; optional 0/1 preference axes for the
 * chosen fuel and body type are added; the weights, looked up by key, are
 * normalised to sum to 1 (all ones when they sum to 0); `final_score` is
 * the weighted sum of the axes; cars above a maximum budget lose a soft
 * penalty; the rows are sorted by score, highest first, and the first
 * `top_n` are returned.
 */
module Ranking {
  import opened Wrappers
  import opened Strings
  import opened Tables
  import opened Normalizer
  import opened Axes

  const FuelCategoryColumn: string := "fuel_category"
  const FuelPrefAxis: string := "axis_fuel_pref"
  const BodyCleanColumn: string := "body_clean"
  const BodyPrefAxis: string := "axis_body_pref"
  const FinalScore: string := "final_score"
  const BudgetPenalty: string := "budget_penalty"

  /** The weight keys of the six axes, in the order of `AxisNames`. */
  const BaseWeightKeys: seq<string> := ["performance", "economy", "safety", "comfort", "ownership", "price"]

  /**
   * The soft preferences: whether each is on and the selection (None for
   * Python's `None`).
   */
  datatype Prefs = Prefs(softFuel: bool, softBody: bool, selectedFuel: Option<string>, selectedBody: Option<string>)

  /** A selection Python treats as true: given and non-empty. */
  predicate Chosen(s: Option<string>) {
    s.Some? && s.value != ""
  }

  predicate FuelPrefOn(p: Prefs) {
    p.softFuel && Chosen(p.selectedFuel)
  }

  predicate BodyPrefOn(p: Prefs) {
    p.softBody && Chosen(p.selectedBody)
  }

  // ---------------------------------------------------------------------------
  // The axes and the preference axes

  predicate HasAxes(columns: set<string>) {
    forall k :: 0 <= k < |AxisNames| ==> AxisNames[k] in columns
  }

  /** The table with its axes: as it is when it has all six, otherwise `compute_axes` of it. */
  function EnsureAxes(df: Frame): (r: Frame)
    requires WellFormed(df)
    ensures WellFormed(r) && |r.rows| == |df.rows|
    ensures r.columns == df.columns + AxisSet()
  {
    if HasAxes(df.columns) then df else WithAxes(df)
  }

  /** One row's fuel indicator: 1 when its category is exactly the chosen fuel. */
  function FuelMatch(c: Cell, fuel: string): real {
    if c == Text(fuel) then 1.0 else 0.0
  }

  /** The fuel preference column; NaN throughout when the table has no `fuel_category`. */
  function FuelPrefCells(f: Frame, fuel: string): (r: seq<Cell>)
    requires WellFormed(f)
    ensures |r| == |f.rows|
  {
    if FuelCategoryColumn in f.columns then
      seq(|f.rows|, i requires 0 <= i < |f.rows| => Num(FuelMatch(f.rows[i][FuelCategoryColumn], fuel)))
    else
      seq(|f.rows|, i => Missing)
  }

  /** The column the body preference reads: `body_type`, else `original_body_type`. */
  function BodySource(columns: set<string>): Option<string> {
    FirstColumn(columns, "body_type", "original_body_type")
  }

  /** A cell through `astype(str)`: NaN becomes "nan". */
  function CellText(c: Cell): string {
    match c
    case Missing => "nan"
    case Text(t) => t
    case Num(_) => ""
  }

  /** The `body_clean` column: the body text trimmed and lower-cased; NaN without a body column. */
  function BodyCleanCells(f: Frame): (r: seq<Cell>)
    requires WellFormed(f)
    ensures |r| == |f.rows|
  {
    match BodySource(f.columns)
    case None => seq(|f.rows|, i => Missing)
    case Some(b) => seq(|f.rows|, i requires 0 <= i < |f.rows| => Text(Lower(Strip(CellText(f.rows[i][b])))))
  }

  /** One row's body indicator: 1 when its cleaned body text contains the cleaned choice literally. */
  function BodyMatch(c: Cell, body: string): real {
    if c.Text? && Contains(c.text, body) then 1.0 else 0.0
  }

  /** The body preference column, read from `body_clean`. */
  function BodyPrefCells(f: Frame, body: string): (r: seq<Cell>)
    requires WellFormed(f) && BodyCleanColumn in f.columns
    ensures |r| == |f.rows|
  {
    seq(|f.rows|, i requires 0 <= i < |f.rows| => Num(BodyMatch(f.rows[i][BodyCleanColumn], Lower(Strip(body)))))
  }

  /** The table with the fuel preference column when it is switched on. */
  function WithFuelPref(a: Frame, p: Prefs): (r: Frame)
    requires WellFormed(a)
    ensures WellFormed(r) && |r.rows| == |a.rows|
    ensures r.columns == a.columns + (if FuelPrefOn(p) then {FuelPrefAxis} else {})
  {
    if FuelPrefOn(p) then WithColumn(a, FuelPrefAxis, FuelPrefCells(a, p.selectedFuel.value)) else a
  }

  /** The table with `body_clean` and the body preference column. */
  function WithBodyPref(b: Frame, body: string): (r: Frame)
    requires WellFormed(b)
    ensures WellFormed(r) && |r.rows| == |b.rows|
    ensures r.columns == b.columns + {BodyCleanColumn, BodyPrefAxis}
  {
    var c := WithColumn(b, BodyCleanColumn, BodyCleanCells(b));
    WithColumn(c, BodyPrefAxis, BodyPrefCells(c, body))
  }

  /** The preference columns that are switched on, added to a table with its axes. */
  function AddPrefs(a: Frame, p: Prefs): (r: Frame)
    requires WellFormed(a)
    ensures WellFormed(r) && |r.rows| == |a.rows|
    ensures r.columns == a.columns + (if FuelPrefOn(p) then {FuelPrefAxis} else {})
      + (if BodyPrefOn(p) then {BodyCleanColumn, BodyPrefAxis} else {})
  {
    var b := WithFuelPref(a, p);
    if BodyPrefOn(p) then WithBodyPref(b, p.selectedBody.value) else b
  }

  /** The table with its axes and the preference columns that are switched on. */
  function WithPrefs(df: Frame, p: Prefs): (r: Frame)
    requires WellFormed(df)
    ensures WellFormed(r) && |r.rows| == |df.rows|
    ensures r.columns == EnsureAxes(df).columns + (if FuelPrefOn(p) then {FuelPrefAxis} else {})
      + (if BodyPrefOn(p) then {BodyCleanColumn, BodyPrefAxis} else {})
  {
    AddPrefs(EnsureAxes(df), p)
  }

  /** The axis columns scored, in order. */
  function AxisColumns(p: Prefs): seq<string> {
    AxisNames + (if FuelPrefOn(p) then [FuelPrefAxis] else []) + (if BodyPrefOn(p) then [BodyPrefAxis] else [])
  }

  /** The weight keys, one per scored axis. */
  function WeightKeys(p: Prefs): (r: seq<string>)
    ensures |r| == |AxisColumns(p)|
  {
    BaseWeightKeys + (if FuelPrefOn(p) then ["fuel_pref"] else []) + (if BodyPrefOn(p) then ["body_pref"] else [])
  }

  // ---------------------------------------------------------------------------
  // The weights

  function Sum(w: seq<real>): real {
    if w == [] then 0.0 else Sum(w[..|w| - 1]) + w[|w| - 1]
  }

  /** `weights.get(k, 0.0)` for each key. */
  function Lookup(weights: map<string, real>, keys: seq<string>): (r: seq<real>)
    ensures |r| == |keys|
    ensures forall i :: 0 <= i < |keys| && keys[i] !in weights ==> r[i] == 0.0
  {
    seq(|keys|, i requires 0 <= i < |keys| => if keys[i] in weights then weights[keys[i]] else 0.0)
  }

  function Ones(n: nat): seq<real> {
    seq(n, i => 1.0)
  }

  /** `n` ones sum to `n`. */
  lemma {:induction false} SumOnes(n: nat)
    ensures Sum(Ones(n)) == n as real
  {
    if n > 0 {
      assert Ones(n)[..n - 1] == Ones(n - 1);
      SumOnes(n - 1);
    }
  }

  /** Each weight divided by the total. */
  function Scale(u: seq<real>, s: real): (r: seq<real>)
    requires s != 0.0
    ensures |r| == |u|
  {
    seq(|u|, i requires 0 <= i < |u| => u[i] / s)
  }

  /** The weights with ones in place of a vector summing to 0, divided by their sum. */
  function NormalizedWeights(w: seq<real>): (r: seq<real>)
    requires |w| > 0
    ensures |r| == |w|
  {
    var u := if Sum(w) == 0.0 then Ones(|w|) else w;
    assert Sum(u) != 0.0 by {
      SumOnes(|w|);
    }
    Scale(u, Sum(u))
  }

  /** Dividing every entry by `s` divides the sum by `s`. */
  lemma {:induction false} SumScale(u: seq<real>, s: real)
    requires s != 0.0
    ensures Sum(Scale(u, s)) == Sum(u) / s
  {
    if u != [] {
      var n := |u|;
      assert Scale(u, s)[..n - 1] == Scale(u[..n - 1], s);
      SumScale(u[..n - 1], s);
      assert Sum(u[..n - 1]) / s + u[n - 1] / s == (Sum(u[..n - 1]) + u[n - 1]) / s;
    }
  }

  /** The normalised weights sum to 1. */
  lemma WeightsSumToOne(w: seq<real>)
    requires |w| > 0
    ensures Sum(NormalizedWeights(w)) == 1.0
  {
    var u := if Sum(w) == 0.0 then Ones(|w|) else w;
    SumOnes(|w|);
    assert NormalizedWeights(w) == Scale(u, Sum(u));
    SumScale(u, Sum(u));
    assert Sum(u) / Sum(u) == 1.0;
  }

  /** Weights summing to 0 become equal weights. */
  lemma ZeroSumIsUniform(w: seq<real>)
    requires |w| > 0 && Sum(w) == 0.0
    ensures forall i :: 0 <= i < |w| ==> NormalizedWeights(w)[i] == 1.0 / |w| as real
  {
    SumOnes(|w|);
  }

  predicate NonNegative(w: seq<real>) {
    forall i :: 0 <= i < |w| ==> w[i] >= 0.0
  }

  /** A sum of non-negative weights is non-negative, and it is 0 only when every weight is 0. */
  lemma {:induction false} SumNonNegative(w: seq<real>)
    requires NonNegative(w)
    ensures Sum(w) >= 0.0
    ensures Sum(w) == 0.0 <==> forall i :: 0 <= i < |w| ==> w[i] == 0.0
  {
    if w != [] {
      var n := |w|;
      assert NonNegative(w[..n - 1]);
      SumNonNegative(w[..n - 1]);
      if Sum(w) == 0.0 {
        forall i | 0 <= i < n ensures w[i] == 0.0 {
          if i < n - 1 {
            assert w[..n - 1][i] == w[i];
          }
        }
      }
      if forall i :: 0 <= i < n ==> w[i] == 0.0 {
        var v := w[..n - 1];
        assert forall i :: 0 <= i < |v| ==> v[i] == 0.0;
      }
    }
  }

  /** Non-negative weights stay non-negative once normalised; only an all-zero vector is replaced. */
  lemma NormalizedNonNegative(w: seq<real>)
    requires |w| > 0 && NonNegative(w)
    ensures NonNegative(NormalizedWeights(w))
    ensures (forall i :: 0 <= i < |w| ==> w[i] == 0.0) <==> Sum(w) == 0.0
  {
    SumNonNegative(w);
    SumOnes(|w|);
    var u := if Sum(w) == 0.0 then Ones(|w|) else w;
    assert NormalizedWeights(w) == Scale(u, Sum(u));
    assert Sum(u) > 0.0;
    forall i | 0 <= i < |u| ensures Scale(u, Sum(u))[i] >= 0.0 {
      QuotientNonNegative(u[i], Sum(u));
    }
  }

  lemma QuotientNonNegative(x: real, y: real)
    requires x >= 0.0 && y > 0.0
    ensures x / y >= 0.0
  {
  }

  // ---------------------------------------------------------------------------
  // The score

  /** An axis cell as scored: `fillna(0)`. */
  function CellScore(c: Cell): real {
    if c.Num? then c.value else 0.0
  }

  /** A column as scored. */
  function Reading(f: Frame, c: string): (r: seq<real>)
    requires WellFormed(f) && c in f.columns
    ensures |r| == |f.rows|
  {
    seq(|f.rows|, i requires 0 <= i < |f.rows| => CellScore(f.rows[i][c]))
  }

  /** `a + x * b`, elementwise. */
  function Added(a: seq<real>, x: real, b: seq<real>): (r: seq<real>)
    requires |a| == |b|
    ensures |r| == |a|
  {
    seq(|a|, i requires 0 <= i < |a| => a[i] + Weighted(x, b[i]))
  }

  /** One value scaled by its weight. */
  function Weighted(x: real, v: real): real {
    x * v
  }

  predicate ScoredColumns(f: Frame, cols: seq<string>, w: seq<real>) {
    WellFormed(f) && |w| == |cols| && forall k :: 0 <= k < |cols| ==> cols[k] in f.columns
  }

  /** The score after the first `j` axes are added in. */
  function PartialScores(f: Frame, cols: seq<string>, w: seq<real>, j: nat): (r: seq<real>)
    requires ScoredColumns(f, cols, w) && j <= |cols|
    ensures |r| == |f.rows|
  {
    if j == 0 then Zeros(|f.rows|)
    else Added(PartialScores(f, cols, w, j - 1), w[j - 1], Reading(f, cols[j - 1]))
  }

  /** The sum of the first `j` weights. */
  function SumTo(w: seq<real>, j: nat): real
    requires j <= |w|
  {
    if j == 0 then 0.0 else SumTo(w, j - 1) + w[j - 1]
  }

  /** Summing the first `j` weights is summing the prefix of length `j`. */
  lemma {:induction false} SumToPrefix(w: seq<real>, j: nat)
    requires j <= |w|
    ensures SumTo(w, j) == Sum(w[..j])
  {
    if j > 0 {
      SumToPrefix(w, j - 1);
      assert w[..j][..j - 1] == w[..j - 1];
    } else {
      assert w[..0] == [];
    }
  }

  /**
   * With non-negative weights and every scored cell in [0,1], the score
   * after `j` axes lies between 0 and the sum of their weights.
   */
  lemma {:induction false} PartialScoreBound(f: Frame, cols: seq<string>, w: seq<real>, j: nat, i: nat)
    requires ScoredColumns(f, cols, w) && j <= |cols| && i < |f.rows| && NonNegative(w)
    requires forall k :: 0 <= k < |cols| ==> 0.0 <= CellScore(f.rows[i][cols[k]]) <= 1.0
    ensures 0.0 <= PartialScores(f, cols, w, j)[i] <= SumTo(w, j)
  {
    if j > 0 {
      PartialScoreBound(f, cols, w, j - 1, i);
      var x := CellScore(f.rows[i][cols[j - 1]]);
      assert Reading(f, cols[j - 1])[i] == x;
      assert PartialScores(f, cols, w, j)[i] == PartialScores(f, cols, w, j - 1)[i] + Weighted(w[j - 1], x);
      assert w[j - 1] >= 0.0;
      WeightedAtMost(w[j - 1], x);
    }
  }

  /** A non-negative weight times a value in [0,1] lies between 0 and the weight. */
  lemma WeightedAtMost(a: real, x: real)
    requires a >= 0.0 && 0.0 <= x <= 1.0
    ensures 0.0 <= Weighted(a, x) <= a
  {
  }

  /** A weighted sum with weights summing to 1 of values in [0,1] lies in [0,1]. */
  lemma ConvexScore(f: Frame, cols: seq<string>, w: seq<real>, i: nat)
    requires ScoredColumns(f, cols, w) && i < |f.rows| && NonNegative(w) && Sum(w) == 1.0
    requires forall k :: 0 <= k < |cols| ==> 0.0 <= CellScore(f.rows[i][cols[k]]) <= 1.0
    ensures 0.0 <= PartialScores(f, cols, w, |cols|)[i] <= 1.0
  {
    PartialScoreBound(f, cols, w, |cols|, i);
    SumToPrefix(w, |w|);
    assert w[..|w|] == w;
  }

  /** The table with `final_score` before any penalty. */
  function Scored(df: Frame, weights: map<string, real>, p: Prefs): (r: Frame)
    requires WellFormed(df)
    ensures WellFormed(r) && |r.rows| == |df.rows|
    ensures r.columns == WithPrefs(df, p).columns + {FinalScore}
  {
    var d := WithPrefs(df, p);
    var cols := AxisColumns(p);
    PrefsHaveColumns(df, p);
    var w := NormalizedWeights(Lookup(weights, WeightKeys(p)));
    WithColumn(d, FinalScore, NumCells(PartialScores(d, cols, w, |cols|)))
  }

  /** Every scored axis is a column of the table with its preferences. */
  lemma PrefsHaveColumns(df: Frame, p: Prefs)
    requires WellFormed(df)
    ensures forall k :: 0 <= k < |AxisColumns(p)| ==> AxisColumns(p)[k] in WithPrefs(df, p).columns
    ensures FinalScore !in AxisColumns(p)
  {
    var cols := AxisColumns(p);
    var a := EnsureAxes(df);
    assert forall k :: 0 <= k < |AxisNames| ==> AxisNames[k] in a.columns;
    assert forall c :: c in a.columns ==> c in WithPrefs(df, p).columns;
  }

  // ---------------------------------------------------------------------------
  // The budget penalty

  /** Only a given, non-zero maximum budget switches the penalty on. */
  predicate PenaltyOn(maxBudget: Option<int>) {
    maxBudget.Some? && maxBudget.value != 0
  }

  /** One car's penalty: 0 without a price, otherwise the relative excess over the budget, at least 0. */
  function Penalty(price: Option<real>, m: int): real
    requires price.Some? ==> m != -1
  {
    match price
    case None => 0.0
    case Some(x) =>
      var excess := (x - m as real) / (m as real + 1.0);
      if excess > 0.0 then excess else 0.0
  }

  /** Some price is text, which `p - maxb` cannot subtract from. */
  predicate TextPrice(f: Frame)
    requires WellFormed(f) && Price in f.columns
  {
    exists i :: 0 <= i < |f.rows| && f.rows[i][Price].Text?
  }

  /**
   * Where the penalty raises: the table has no `price_inr` column, some
   * price is text, or the budget is -1 and some price is present, so
   * `maxb + 1` divides by zero.
   */
  predicate PenaltyFails(f: Frame, m: int)
    requires WellFormed(f)
  {
    Price !in f.columns || TextPrice(f) || (m == -1 && !AllMissing(Numbers(f, Price)))
  }

  /** The `budget_penalty` column. */
  function Penalties(f: Frame, m: int): (r: seq<real>)
    requires WellFormed(f) && !PenaltyFails(f, m)
    ensures |r| == |f.rows|
  {
    var prices := Numbers(f, Price);
    seq(|f.rows|, i requires 0 <= i < |f.rows| => Penalty(prices[i], m))
  }

  /** The scored table after the penalty, None where the source raises. */
  function Penalized(s: Frame, maxBudget: Option<int>): (r: Option<Frame>)
    requires WellFormed(s) && FinalScore in s.columns
    ensures r.Some? ==> WellFormed(r.value) && |r.value.rows| == |s.rows|
  {
    if !PenaltyOn(maxBudget) then Some(s)
    else if PenaltyFails(s, maxBudget.value) then None
    else
      var pen := Penalties(s, maxBudget.value);
      var t := WithColumn(s, BudgetPenalty, NumCells(pen));
      Some(WithColumn(t, FinalScore, NumCells(Added(Reading(t, FinalScore), -0.5, pen))))
  }

  // ---------------------------------------------------------------------------
  // The order

  /** A row's `final_score` as sorted. */
  function ScoreOf(row: Row): real {
    if FinalScore in row then CellScore(row[FinalScore]) else 0.0
  }

  predicate Descending(rows: seq<Row>) {
    forall i, j :: 0 <= i < j < |rows| ==> ScoreOf(rows[i]) >= ScoreOf(rows[j])
  }

  /** Inserting a row before the first row scoring less than it adds exactly that row. */
  function InsertByScore(x: Row, s: seq<Row>): (r: seq<Row>)
    ensures multiset(r) == multiset(s) + multiset{x}
  {
    if s == [] || ScoreOf(x) >= ScoreOf(s[0]) then [x] + s
    else
      assert s == [s[0]] + s[1..];
      [s[0]] + InsertByScore(x, s[1..])
  }

  /** Inserting into rows sorted by descending score keeps them sorted. */
  lemma {:induction false} InsertKeepsDescending(x: Row, s: seq<Row>)
    requires Descending(s)
    ensures Descending(InsertByScore(x, s))
  {
    if s != [] && ScoreOf(x) < ScoreOf(s[0]) {
      var rest := InsertByScore(x, s[1..]);
      assert Descending(s[1..]);
      InsertKeepsDescending(x, s[1..]);
      assert s == [s[0]] + s[1..];
      HeadStaysFirst(s[0], x, s[1..], rest);
      assert InsertByScore(x, s) == [s[0]] + rest;
    }
  }

  /** A row scoring at least `x` and every row of `tail` scores at least every row of `tail` with `x` added. */
  lemma HeadStaysFirst(h: Row, x: Row, tail: seq<Row>, rest: seq<Row>)
    requires ScoreOf(h) >= ScoreOf(x)
    requires forall k :: 0 <= k < |tail| ==> ScoreOf(h) >= ScoreOf(tail[k])
    requires multiset(rest) == multiset(tail) + multiset{x}
    ensures forall k :: 0 <= k < |rest| ==> ScoreOf(h) >= ScoreOf(rest[k])
  {
    forall k | 0 <= k < |rest| ensures ScoreOf(h) >= ScoreOf(rest[k]) {
      assert rest[k] in multiset(rest);
      if rest[k] != x {
        assert rest[k] in multiset(tail);
        var j :| 0 <= j < |tail| && tail[j] == rest[k];
      }
    }
  }

  /**
   * `sort_values("final_score", ascending=False)`: the rows by descending
   * score. Ties are kept in input order here; pandas does not promise any
   * order among them.
   */
  function SortByScore(rows: seq<Row>): (r: seq<Row>)
    ensures Descending(r)
    ensures multiset(r) == multiset(rows)
  {
    if rows == [] then []
    else
      assert rows == [rows[0]] + rows[1..];
      InsertKeepsDescending(rows[0], SortByScore(rows[1..]));
      InsertByScore(rows[0], SortByScore(rows[1..]))
  }

  /** The table with its rows sorted; a reordering keeps every row's columns. */
  function Sorted(f: Frame): (r: Frame)
    requires WellFormed(f)
    ensures WellFormed(r) && r.columns == f.columns
    ensures Descending(r.rows) && multiset(r.rows) == multiset(f.rows)
  {
    var rows := SortByScore(f.rows);
    forall i | 0 <= i < |rows| ensures rows[i].Keys == f.columns {
      assert rows[i] in multiset(f.rows);
    }
    Frame(f.columns, rows)
  }

  /** `recommend(df, weights, top_n, filters, ...)`; None where the source raises. */
  function Ranked(df: Frame, weights: map<string, real>, topN: nat, p: Prefs, maxBudget: Option<int>): (r: Option<Frame>)
    requires WellFormed(df)
  {
    match Penalized(Scored(df, weights, p), maxBudget)
    case None => None
    case Some(t) => Some(Head(Sorted(t), topN))
  }

  // ---------------------------------------------------------------------------
  // The computation, as the source performs it

  /** The scoring loop: `final_score` starts at 0 and each axis adds its weighted, NaN-as-0 value. */
  method AccumulateScores(base: Frame, cols: seq<string>, w: seq<real>) returns (d: Frame)
    requires ScoredColumns(base, cols, w) && FinalScore !in cols
    ensures d == WithColumn(base, FinalScore, NumCells(PartialScores(base, cols, w, |cols|)))
  {
    d := WithColumn(base, FinalScore, NumCells(Zeros(|base.rows|)));
    var j := 0;
    while j < |cols|
      invariant 0 <= j <= |cols|
      invariant d == WithColumn(base, FinalScore, NumCells(PartialScores(base, cols, w, j)))
    {
      AccumulateStep(base, cols, w, j);
      d := WithColumn(d, FinalScore, NumCells(Added(Reading(d, FinalScore), w[j], Reading(d, cols[j]))));
      j := j + 1;
    }
  }

  /** One pass of the scoring loop adds the next axis to the running score. */
  lemma AccumulateStep(base: Frame, cols: seq<string>, w: seq<real>, j: nat)
    requires ScoredColumns(base, cols, w) && FinalScore !in cols && j < |cols|
    ensures var d := WithColumn(base, FinalScore, NumCells(PartialScores(base, cols, w, j)));
      WithColumn(d, FinalScore, NumCells(Added(Reading(d, FinalScore), w[j], Reading(d, cols[j]))))
        == WithColumn(base, FinalScore, NumCells(PartialScores(base, cols, w, j + 1)))
  {
    var d := WithColumn(base, FinalScore, NumCells(PartialScores(base, cols, w, j)));
    RunningReadings(base, cols, w, j);
    WithColumnTwice(base, FinalScore, NumCells(PartialScores(base, cols, w, j)), NumCells(PartialScores(base, cols, w, j + 1)));
  }

  /** While the score is being accumulated, it reads back as written and the axes read as in the base table. */
  lemma RunningReadings(base: Frame, cols: seq<string>, w: seq<real>, j: nat)
    requires ScoredColumns(base, cols, w) && FinalScore !in cols && j < |cols|
    ensures var d := WithColumn(base, FinalScore, NumCells(PartialScores(base, cols, w, j)));
      Reading(d, FinalScore) == PartialScores(base, cols, w, j) && Reading(d, cols[j]) == Reading(base, cols[j])
  {
  }

  /** The two optional preference blocks. */
  method AddPreferenceAxes(a: Frame, p: Prefs) returns (d: Frame)
    requires WellFormed(a)
    ensures d == AddPrefs(a, p)
  {
    d := a;
    if FuelPrefOn(p) {
      d := WithColumn(d, FuelPrefAxis, FuelPrefCells(d, p.selectedFuel.value));
    }
    if BodyPrefOn(p) {
      d := WithColumn(d, BodyCleanColumn, BodyCleanCells(d));
      d := WithColumn(d, BodyPrefAxis, BodyPrefCells(d, p.selectedBody.value));
    }
  }

  /** The penalty block: `budget_penalty` is computed and half of it is taken off `final_score`. */
  method ApplyPenalty(s: Frame, maxBudget: Option<int>) returns (r: Option<Frame>)
    requires WellFormed(s) && FinalScore in s.columns
    ensures r == Penalized(s, maxBudget)
  {
    if !PenaltyOn(maxBudget) {
      return Some(s);
    }
    var m := maxBudget.value;
    if PenaltyFails(s, m) {
      return None;
    }
    var pen := Penalties(s, m);
    var d := WithColumn(s, BudgetPenalty, NumCells(pen));
    d := WithColumn(d, FinalScore, NumCells(Added(Reading(d, FinalScore), -0.5, pen)));
    r := Some(d);
  }

  /** `recommend`, step by step on its copy of the table. */
  method Recommend(df: Frame, weights: map<string, real>, topN: nat, p: Prefs, maxBudget: Option<int>)
    returns (out: Option<Frame>)
    requires WellFormed(df)
    ensures out == Ranked(df, weights, topN, p, maxBudget)
  {
    var d := df;
    if !HasAxes(d.columns) {
      d := ComputeAxes(d);
    }
    d := AddPreferenceAxes(d, p);
    var cols := AxisColumns(p);
    var w := NormalizedWeights(Lookup(weights, WeightKeys(p)));
    PrefsHaveColumns(df, p);
    d := AccumulateScores(d, cols, w);
    var penalized := ApplyPenalty(d, maxBudget);
    if penalized.None? {
      return None;
    }
    out := Some(Head(Sorted(penalized.value), topN));
  }

  // ---------------------------------------------------------------------------
  // Properties of the preference axes

  /** Outside the axes, ensuring the axes keeps every cell's numeric reading, and the cell itself outside the cast columns. */
  lemma EnsureAxesAt(df: Frame, i: nat, c: string)
    requires WellFormed(df) && i < |df.rows| && c in df.columns && c !in AxisNames
    ensures ToNumeric(EnsureAxes(df).rows[i][c]) == ToNumeric(df.rows[i][c])
    ensures c !in CastColumns ==> EnsureAxes(df).rows[i][c] == df.rows[i][c]
  {
    if !HasAxes(df.columns) {
      OtherCellsKept(df, i, c);
    }
  }

  /** None of the columns the preferences read is an axis or a cast column. */
  lemma PrefSourcesUntouched()
    ensures FuelCategoryColumn !in AxisNames && FuelCategoryColumn !in CastColumns
    ensures "body_type" !in AxisNames && "body_type" !in CastColumns
    ensures "original_body_type" !in AxisNames && "original_body_type" !in CastColumns
  {
  }

  /**
   * The fuel preference is 1 exactly in the rows whose `fuel_category` is
   * the chosen fuel and 0 in the others; NaN when the table has no such
   * column.
   */
  lemma FuelPrefIsIndicator(df: Frame, p: Prefs, i: nat)
    requires WellFormed(df) && i < |df.rows| && FuelPrefOn(p)
    ensures FuelCategoryColumn in df.columns ==>
              WithPrefs(df, p).rows[i][FuelPrefAxis]
              == Num(if df.rows[i][FuelCategoryColumn] == Text(p.selectedFuel.value) then 1.0 else 0.0)
    ensures FuelCategoryColumn !in df.columns ==> WithPrefs(df, p).rows[i][FuelPrefAxis] == Missing
  {
    PrefSourcesUntouched();
    if FuelCategoryColumn in df.columns {
      EnsureAxesAt(df, i, FuelCategoryColumn);
    }
  }

  /**
   * The body preference is 1 exactly in the rows whose body text, trimmed
   * and lower-cased, contains the trimmed, lower-cased choice, and 0 in the
   * others (also when the table has no body column).
   */
  lemma BodyPrefIsIndicator(df: Frame, p: Prefs, i: nat)
    requires WellFormed(df) && i < |df.rows| && BodyPrefOn(p)
    ensures var b := BodySource(df.columns);
      WithPrefs(df, p).rows[i][BodyPrefAxis]
      == Num(if b.Some? && Contains(Lower(Strip(CellText(df.rows[i][b.value]))), Lower(Strip(p.selectedBody.value)))
             then 1.0 else 0.0)
  {
    var fb := WithFuelPref(EnsureAxes(df), p);
    BodySourceKept(df, p, i);
    assert WithPrefs(df, p) == WithBodyPref(fb, p.selectedBody.value);
  }

  /** The body column and its cells are the same before the body preference as in the input. */
  lemma BodySourceKept(df: Frame, p: Prefs, i: nat)
    requires WellFormed(df) && i < |df.rows|
    ensures var fb := WithFuelPref(EnsureAxes(df), p);
      && BodySource(fb.columns) == BodySource(df.columns)
      && (BodySource(df.columns).Some? ==> fb.rows[i][BodySource(df.columns).value] == df.rows[i][BodySource(df.columns).value])
  {
    PrefSourcesUntouched();
    var b := BodySource(df.columns);
    var fb := WithFuelPref(EnsureAxes(df), p);
    assert "body_type" !in AxisSet() && "original_body_type" !in AxisSet();
    assert BodySource(fb.columns) == b;
    if b.Some? {
      EnsureAxesAt(df, i, b.value);
    }
  }

  /** Every text contains itself. */
  lemma ContainsItself(t: string)
    ensures Contains(t, t)
  {
    assert t[..|t|] == t;
  }

  /** A body text equal to the choice up to case and surrounding white space matches it. */
  lemma SameBodyMatches(df: Frame, p: Prefs, i: nat, b: string)
    requires WellFormed(df) && i < |df.rows| && BodyPrefOn(p) && BodySource(df.columns) == Some(b)
    requires Lower(Strip(CellText(df.rows[i][b]))) == Lower(Strip(p.selectedBody.value))
    ensures WithPrefs(df, p).rows[i][BodyPrefAxis] == Num(1.0)
  {
    BodyPrefIsIndicator(df, p, i);
    ContainsItself(Lower(Strip(p.selectedBody.value)));
  }

  // ---------------------------------------------------------------------------
  // Properties of the score

  /**
   * When the table already has all six axes (so they are scored as they
   * are), every axis cell is read as a number in [0,1]; a partial set is
   * recomputed and needs nothing.
   */
  predicate AxesInRange(df: Frame)
    requires WellFormed(df)
  {
    HasAxes(df.columns) ==>
      forall i, k :: 0 <= i < |df.rows| && 0 <= k < |AxisNames| ==>
        0.0 <= CellScore(df.rows[i][AxisNames[k]]) <= 1.0
  }

  /** After ensuring the axes, every axis cell is read in [0,1]. */
  lemma EnsuredAxesInRange(df: Frame, i: nat, k: nat)
    requires WellFormed(df) && AxesInRange(df) && i < |df.rows| && k < |AxisNames|
    ensures 0.0 <= CellScore(EnsureAxes(df).rows[i][AxisNames[k]]) <= 1.0
  {
    if !HasAxes(df.columns) {
      AxesInUnitRange(df, k, i);
    }
  }

  /** The preference columns leave the axis cells as they were. */
  lemma AxisCellAfterPrefs(df: Frame, p: Prefs, i: nat, k: nat)
    requires WellFormed(df) && i < |df.rows| && k < |AxisNames|
    ensures AxisNames[k] in WithPrefs(df, p).columns
    ensures WithPrefs(df, p).rows[i][AxisNames[k]] == EnsureAxes(df).rows[i][AxisNames[k]]
  {
    assert AxisNames[k] in AxisSet();
    assert AxisNames[k] != FuelPrefAxis && AxisNames[k] != BodyCleanColumn && AxisNames[k] != BodyPrefAxis;
  }

  /** The preference cells are read as 0 or 1 (NaN reads as 0). */
  lemma PrefCellsInRange(df: Frame, p: Prefs, i: nat)
    requires WellFormed(df) && i < |df.rows|
    ensures FuelPrefOn(p) ==> 0.0 <= CellScore(WithPrefs(df, p).rows[i][FuelPrefAxis]) <= 1.0
    ensures BodyPrefOn(p) ==> 0.0 <= CellScore(WithPrefs(df, p).rows[i][BodyPrefAxis]) <= 1.0
  {
    if FuelPrefOn(p) {
      FuelPrefIsIndicator(df, p, i);
    }
    if BodyPrefOn(p) {
      BodyPrefIsIndicator(df, p, i);
    }
  }

  /** Every scored cell is read in [0,1]: the axes by the above, the preferences as 0/1 or NaN. */
  lemma ScoredCellsInRange(df: Frame, p: Prefs, i: nat)
    requires WellFormed(df) && AxesInRange(df) && i < |df.rows|
    ensures forall k :: 0 <= k < |AxisColumns(p)| ==>
      AxisColumns(p)[k] in WithPrefs(df, p).columns && 0.0 <= CellScore(WithPrefs(df, p).rows[i][AxisColumns(p)[k]]) <= 1.0
  {
    var cols, d := AxisColumns(p), WithPrefs(df, p);
    PrefsHaveColumns(df, p);
    PrefCellsInRange(df, p, i);
    forall k | 0 <= k < |cols| ensures 0.0 <= CellScore(d.rows[i][cols[k]]) <= 1.0 {
      if k < |AxisNames| {
        assert cols[k] == AxisNames[k];
        AxisCellAfterPrefs(df, p, i, k);
        EnsuredAxesInRange(df, i, k);
      } else {
        assert cols[k] == FuelPrefAxis || cols[k] == BodyPrefAxis;
      }
    }
  }

  /**
   * With non-negative weights and axes in [0,1], `final_score` before the
   * penalty is a convex combination of the axes and lies in [0,1].
   */
  lemma ScoreInUnitRange(df: Frame, weights: map<string, real>, p: Prefs, i: nat)
    requires WellFormed(df) && AxesInRange(df) && i < |df.rows|
    requires forall k :: k in weights ==> weights[k] >= 0.0
    ensures 0.0 <= ScoreOf(Scored(df, weights, p).rows[i]) <= 1.0
  {
    var d, cols := WithPrefs(df, p), AxisColumns(p);
    var raw := Lookup(weights, WeightKeys(p));
    var w := NormalizedWeights(raw);
    PrefsHaveColumns(df, p);
    NormalizedNonNegative(raw);
    WeightsSumToOne(raw);
    ScoredCellsInRange(df, p, i);
    ConvexScore(d, cols, w, i);
  }

  // ---------------------------------------------------------------------------
  // Properties of the penalty

  /** Above a budget greater than -1 the penalty is positive; at or below it, it is 0. */
  lemma PenaltySign(x: real, m: int)
    requires m > -1
    ensures Penalty(Some(x), m) >= 0.0
    ensures Penalty(Some(x), m) > 0.0 <==> x > m as real
  {
    var d := m as real + 1.0;
    if x > m as real {
      QuotientPositive(x - m as real, d);
    } else {
      QuotientNonPositive(x - m as real, d);
    }
  }

  lemma QuotientPositive(x: real, y: real)
    requires x > 0.0 && y > 0.0
    ensures x / y > 0.0
  {
  }

  lemma QuotientNonPositive(x: real, y: real)
    requires x <= 0.0 && y > 0.0
    ensures x / y <= 0.0
  {
    assert (x / y) * y == x;
  }

  /** A dearer car is penalised at least as much. */
  lemma PenaltyMonotone(x: real, y: real, m: int)
    requires m > -1 && x <= y
    ensures Penalty(Some(x), m) <= Penalty(Some(y), m)
  {
    var d := m as real + 1.0;
    assert (y - m as real) / d - (x - m as real) / d == (y - x) / d;
    QuotientNonNegative(y - x, d);
  }

  /**
   * With the penalty on and a budget above -1, a car's score drops exactly
   * when it has a price above the budget; otherwise it is unchanged.
   */
  lemma PenaltyEffect(s: Frame, m: int, i: nat)
    requires WellFormed(s) && FinalScore in s.columns && Price in s.columns && i < |s.rows|
    requires m > -1 && m != 0 && !TextPrice(s)
    ensures Penalized(s, Some(m)).Some?
    ensures var price := Numbers(s, Price)[i];
      var after := ScoreOf(Penalized(s, Some(m)).value.rows[i]);
      && (after < ScoreOf(s.rows[i]) <==> price.Some? && price.value > m as real)
      && (after == ScoreOf(s.rows[i]) <==> !(price.Some? && price.value > m as real))
  {
    var price := Numbers(s, Price)[i];
    if price.Some? {
      PenaltySign(price.value, m);
    }
  }

  // ---------------------------------------------------------------------------
  // Properties of the result

  /** A prefix holds part of the rows. */
  lemma PrefixIncluded(s: seq<Row>, n: nat)
    requires n <= |s|
    ensures multiset(s[..n]) <= multiset(s)
  {
    assert s == s[..n] + s[n..];
  }

  /**
   * The result is sorted by descending score, holds `min(top_n, rows)`
   * rows, all of them rows of the scored table (all of them when `top_n`
   * is at least the row count), with its columns.
   */
  lemma RankedOutput(df: Frame, weights: map<string, real>, topN: nat, p: Prefs, maxBudget: Option<int>)
    requires WellFormed(df) && Ranked(df, weights, topN, p, maxBudget).Some?
    ensures var out := Ranked(df, weights, topN, p, maxBudget).value;
      var t := Penalized(Scored(df, weights, p), maxBudget).value;
      && out.columns == t.columns
      && |out.rows| == (if topN < |df.rows| then topN else |df.rows|)
      && Descending(out.rows)
      && multiset(out.rows) <= multiset(t.rows)
      && (topN >= |df.rows| ==> multiset(out.rows) == multiset(t.rows))
      && (forall x, y :: x in out.rows && y in multiset(t.rows) - multiset(out.rows) ==> ScoreOf(y) <= ScoreOf(x))
  {
    var t := Penalized(Scored(df, weights, p), maxBudget).value;
    TopRows(t, topN);
  }

  /** The first `n` rows of the sorted table: the properties `RankedOutput` states, for any table. */
  lemma TopRows(t: Frame, n: nat)
    requires WellFormed(t)
    ensures var out := Head(Sorted(t), n);
      && out.columns == t.columns
      && |out.rows| == (if n < |t.rows| then n else |t.rows|)
      && Descending(out.rows)
      && multiset(out.rows) <= multiset(t.rows)
      && (n >= |t.rows| ==> multiset(out.rows) == multiset(t.rows))
      && (forall x, y :: x in out.rows && y in multiset(t.rows) - multiset(out.rows) ==> ScoreOf(y) <= ScoreOf(x))
  {
    var sorted := Sorted(t);
    var out := Head(sorted, n);
    PrefixIncluded(sorted.rows, |out.rows|);
    assert |sorted.rows| == |multiset(t.rows)| == |t.rows|;
    KeptOutscoreDropped(sorted.rows, |out.rows|);
  }

  /** In a descending list, every row of a prefix scores at least as high as every row left out of it. */
  lemma KeptOutscoreDropped(s: seq<Row>, n: nat)
    requires n <= |s| && Descending(s)
    ensures forall x, y :: x in s[..n] && y in multiset(s) - multiset(s[..n]) ==> ScoreOf(y) <= ScoreOf(x)
  {
    assert s == s[..n] + s[n..];
    assert multiset(s) - multiset(s[..n]) == multiset(s[n..]);
    forall x, y | x in s[..n] && y in multiset(s) - multiset(s[..n])
      ensures ScoreOf(y) <= ScoreOf(x)
    {
      assert y in s[n..];
      var a :| 0 <= a < n && s[a] == x;
      var b :| n <= b < |s| && s[b] == y;
    }
  }

  /** The price column keeps its numeric reading through scoring. */
  lemma ScoredPrices(df: Frame, weights: map<string, real>, p: Prefs)
    requires WellFormed(df)
    ensures Price in Scored(df, weights, p).columns <==> Price in df.columns
    ensures Price in df.columns ==> Numbers(Scored(df, weights, p), Price) == Numbers(df, Price)
  {
    PriceNotAdded();
    if Price in df.columns {
      var s := Scored(df, weights, p);
      forall i | 0 <= i < |df.rows| ensures Numbers(s, Price)[i] == Numbers(df, Price)[i] {
        ScoredPriceAt(df, weights, p, i);
      }
    }
  }

  /** None of the columns `recommend` adds is the price column. */
  lemma PriceNotAdded()
    ensures Price !in AxisNames && Price !in AxisSet()
    ensures Price != FuelPrefAxis && Price != BodyCleanColumn && Price != BodyPrefAxis && Price != FinalScore
  {
    AxisNamesNotCast();
    assert Price == CastColumns[|CastColumns| - 1];
  }

  /** One row's price through scoring. */
  lemma ScoredPriceAt(df: Frame, weights: map<string, real>, p: Prefs, i: nat)
    requires WellFormed(df) && Price in df.columns && Price !in AxisNames && i < |df.rows|
    ensures Price in Scored(df, weights, p).columns
    ensures Scored(df, weights, p).rows[i][Price]
      == if HasAxes(df.columns) then df.rows[i][Price] else Coerce(df.rows[i][Price])
    ensures ToNumeric(Scored(df, weights, p).rows[i][Price]) == ToNumeric(df.rows[i][Price])
  {
    PriceNotAdded();
    if !HasAxes(df.columns) {
      OtherCellsKept(df, i, Price);
    }
    PrefsKeep(EnsureAxes(df), p, i, Price);
  }

  /**
   * A text price survives to the penalty only when the table already has
   * its axes: otherwise `compute_axes` casts the price column.
   */
  lemma ScoredTextPrice(df: Frame, weights: map<string, real>, p: Prefs)
    requires WellFormed(df) && Price in df.columns
    ensures TextPrice(Scored(df, weights, p)) <==> HasAxes(df.columns) && TextPrice(df)
  {
    var s := Scored(df, weights, p);
    forall i | 0 <= i < |df.rows|
      ensures s.rows[i][Price].Text? <==> HasAxes(df.columns) && df.rows[i][Price].Text?
    {
      ScoredPriceAt(df, weights, p, i);
    }
    TextPriceWhen(s, df, HasAxes(df.columns));
  }

  /** Two tables whose price cells are text at the same rows, when `on` holds, agree on `TextPrice` likewise. */
  lemma TextPriceWhen(a: Frame, b: Frame, on: bool)
    requires WellFormed(a) && WellFormed(b) && Price in a.columns && Price in b.columns && |a.rows| == |b.rows|
    requires forall i :: 0 <= i < |a.rows| ==> (a.rows[i][Price].Text? <==> on && b.rows[i][Price].Text?)
    ensures TextPrice(a) <==> on && TextPrice(b)
  {
    if TextPrice(b) && on {
      var i :| 0 <= i < |b.rows| && b.rows[i][Price].Text?;
      assert a.rows[i][Price].Text?;
    }
  }

  /** Adding the preference columns leaves every other cell as it was. */
  lemma PrefsKeep(a: Frame, p: Prefs, i: nat, c: string)
    requires WellFormed(a) && i < |a.rows| && c in a.columns
    requires c != FuelPrefAxis && c != BodyCleanColumn && c != BodyPrefAxis
    ensures AddPrefs(a, p).rows[i][c] == a.rows[i][c]
  {
    var b := WithFuelPref(a, p);
    assert b.rows[i][c] == a.rows[i][c];
  }

  /**
   * `recommend` raises exactly when the penalty is on and the table has no
   * price column, or it already has its axes (so its prices are never
   * cast) and some price is text, or the budget is -1 and some price is
   * present.
   */
  lemma RankedFailsExactly(df: Frame, weights: map<string, real>, topN: nat, p: Prefs, maxBudget: Option<int>)
    requires WellFormed(df)
    ensures Ranked(df, weights, topN, p, maxBudget).None? <==>
      PenaltyOn(maxBudget)
      && (|| Price !in df.columns
          || (HasAxes(df.columns) && TextPrice(df))
          || (maxBudget.value == -1 && !AllMissing(Numbers(df, Price))))
  {
    ScoredPrices(df, weights, p);
    if Price in df.columns {
      ScoredTextPrice(df, weights, p);
    }
  }
}
