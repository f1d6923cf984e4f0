/**
 * The primary hard filters of the app (app.py): the loaded table is
 * narrowed step by step by the minimum and maximum budget, the exact
 * seating count, the exact fuel category and a body-type substring, each
 * step only when its choice is made. Each step keeps the rows that pass
 * it, in their order.
 */
module Filters {
  import opened Wrappers
  import opened Strings
  import opened Numerals
  import opened Tables

  const PriceColumn: string := "price_inr"
  const FuelColumn: string := "fuel_category"

  /** The seating column the app reads: `seating_capacity_num`, else `original_seating_capacity`. */
  function SeatColumn(columns: set<string>): Option<string> {
    FirstColumn(columns, "seating_capacity_num", "original_seating_capacity")
  }

  /** The body column the body filter reads: `body_type_clean`, else `original_body_type`. */
  function BodyColumn(columns: set<string>): Option<string> {
    FirstColumn(columns, "body_type_clean", "original_body_type")
  }

  /**
   * The sidebar's choices: the parsed budgets (None when blank or
   * unparsable), the seat count picked (None for "Any"), the fuel and body
   * choices ("" when blank) and whether each is a hard filter.
   */
  datatype Choice = Choice(
    minBudget: Option<int>, maxBudget: Option<int>, seats: Option<int>,
    fuel: string, fuelHard: bool, body: string, bodyHard: bool)

  /** One filtering step. */
  datatype Test =
    | AtLeast(min: int)
    | AtMost(max: int)
    | SeatsAre(seatColumn: string, seats: int)
    | FuelIs(fuel: string)
    | BodyHas(bodyColumn: string, body: string)

  /** Whether a row passes one step. */
  predicate Passes(t: Test, row: Row) {
    match t
    case AtLeast(m) =>
      // price with a missing entry read as 0
      PriceColumn in row && ToNumeric(row[PriceColumn]).GetOr(0.0) >= m as real
    case AtMost(m) =>
      // price with a missing entry read as +infinity, which never passes
      PriceColumn in row && ToNumeric(row[PriceColumn]).Some? && ToNumeric(row[PriceColumn]).value <= m as real
    case SeatsAre(c, n) =>
      // seats with a missing entry read as -1, truncated to an integer
      c in row && Truncate(ToNumeric(row[c]).GetOr(-1.0)) == n
    case FuelIs(fuel) =>
      FuelColumn in row && row[FuelColumn] == Text(fuel)
    case BodyHas(c, body) =>
      // lower-cased substring test; a missing or non-text entry never matches
      c in row && row[c].Text? && Contains(Lower(row[c].text), Lower(body))
  }

  predicate PassesAll(ts: seq<Test>, row: Row) {
    forall k :: 0 <= k < |ts| ==> Passes(ts[k], row)
  }

  /** `df[mask]` for the mask of one step: the passing rows, in order. */
  function Keep(rows: seq<Row>, t: Test): (r: seq<Row>)
    ensures |r| <= |rows|
  {
    if rows == [] then []
    else (if Passes(t, rows[0]) then [rows[0]] else []) + Keep(rows[1..], t)
  }

  /** The rows that pass every step, in order. */
  function KeepAll(rows: seq<Row>, ts: seq<Test>): (r: seq<Row>)
    ensures |r| <= |rows|
  {
    if rows == [] then []
    else (if PassesAll(ts, rows[0]) then [rows[0]] else []) + KeepAll(rows[1..], ts)
  }

  /** `a` is `b` with some entries removed, the rest in their order. */
  predicate IsSubsequence(a: seq<Row>, b: seq<Row>)
    decreases |b|
  {
    if b == [] then a == []
    else (a != [] && a[0] == b[0] && IsSubsequence(a[1..], b[1..])) || IsSubsequence(a, b[1..])
  }

  /** The budget steps: each runs when its budget parsed and the table has a price column. */
  function BudgetSteps(c: Choice, columns: set<string>): seq<Test> {
    (if c.minBudget.Some? && PriceColumn in columns then [AtLeast(c.minBudget.value)] else [])
    + (if c.maxBudget.Some? && PriceColumn in columns then [AtMost(c.maxBudget.value)] else [])
  }

  /** The seating step: runs when a seat count is picked and the table has a seating column. */
  function SeatSteps(c: Choice, columns: set<string>): seq<Test> {
    if SeatColumn(columns).Some? && c.seats.Some? then [SeatsAre(SeatColumn(columns).value, c.seats.value)] else []
  }

  /** The fuel step: runs when a fuel is chosen as a hard filter. */
  function FuelSteps(c: Choice): seq<Test> {
    if c.fuel != "" && c.fuelHard then [FuelIs(c.fuel)] else []
  }

  /** The body step: runs when a body is chosen as a hard filter and a body column exists. */
  function BodySteps(c: Choice, columns: set<string>): seq<Test> {
    if c.body != "" && c.bodyHard && BodyColumn(columns).Some? then [BodyHas(BodyColumn(columns).value, c.body)] else []
  }

  /** The steps before the body filter, in the block's order. */
  function StepsBeforeBody(c: Choice, columns: set<string>): seq<Test> {
    BudgetSteps(c, columns) + SeatSteps(c, columns) + FuelSteps(c)
  }

  /** All steps the filter block runs for the given choices, in its order. */
  function Steps(c: Choice, columns: set<string>): seq<Test> {
    StepsBeforeBody(c, columns) + BodySteps(c, columns)
  }

  /**
   * The filter block's outcome: None where pandas raises — a hard fuel
   * filter on a table without `fuel_category` (a missing key), or a hard
   * body filter on a non-empty table without either body column (an empty
   * mask that does not align with the rows).
   */
  function PrimaryFiltered(df: Frame, c: Choice): Option<Frame> {
    if c.fuel != "" && c.fuelHard && FuelColumn !in df.columns then None
    else if c.body != "" && c.bodyHard && BodyColumn(df.columns).None?
      && KeepAll(df.rows, StepsBeforeBody(c, df.columns)) != [] then None
    else Some(Frame(df.columns, KeepAll(df.rows, Steps(c, df.columns))))
  }

  // ---------------------------------------------------------------------------
  // Composition of steps

  /** Filtering by one more step after the earlier ones is filtering by all of them. */
  lemma {:induction false} KeepAfterKeepAll(rows: seq<Row>, ts: seq<Test>, t: Test)
    ensures Keep(KeepAll(rows, ts), t) == KeepAll(rows, ts + [t])
    decreases |rows|
  {
    if rows != [] {
      KeepAfterKeepAll(rows[1..], ts, t);
      var x := rows[0];
      assert PassesAll(ts + [t], x) <==> PassesAll(ts, x) && Passes(t, x) by {
        if PassesAll(ts, x) && Passes(t, x) {
          forall k | 0 <= k < |ts + [t]| ensures Passes((ts + [t])[k], x) {
            if k < |ts| {
              assert (ts + [t])[k] == ts[k];
            }
          }
        }
        if PassesAll(ts + [t], x) {
          assert Passes((ts + [t])[|ts|], x);
          forall k | 0 <= k < |ts| ensures Passes(ts[k], x) {
            assert (ts + [t])[k] == ts[k];
          }
        }
      }
      var rest := KeepAll(rows[1..], ts);
      if PassesAll(ts, x) {
        var all := [x] + rest;
        assert KeepAll(rows, ts) == all;
        assert all[0] == x && all[1..] == rest;
        assert Keep(all, t) == (if Passes(t, x) then [x] else []) + Keep(rest, t);
      } else {
        assert KeepAll(rows, ts) == rest;
        assert KeepAll(rows, ts + [t]) == KeepAll(rows[1..], ts + [t]);
      }
    }
  }

  /** No step keeps everything. */
  lemma {:induction false} KeepAllNone(rows: seq<Row>)
    ensures KeepAll(rows, []) == rows
    decreases |rows|
  {
    if rows != [] {
      KeepAllNone(rows[1..]);
    }
  }

  /** A row survives exactly when it is one of the input rows and passes every step. */
  lemma {:induction false} KeepAllMembers(rows: seq<Row>, ts: seq<Test>, x: Row)
    ensures x in KeepAll(rows, ts) <==> x in rows && PassesAll(ts, x)
    decreases |rows|
  {
    if rows != [] {
      KeepAllMembers(rows[1..], ts, x);
      assert rows == [rows[0]] + rows[1..];
    }
  }

  /** The survivors keep their relative order: filtering never adds or reorders rows. */
  lemma {:induction false} KeepAllSubsequence(rows: seq<Row>, ts: seq<Test>)
    ensures IsSubsequence(KeepAll(rows, ts), rows)
    decreases |rows|
  {
    if rows != [] {
      KeepAllSubsequence(rows[1..], ts);
      var rest := KeepAll(rows[1..], ts);
      if PassesAll(ts, rows[0]) {
        var all := [rows[0]] + rest;
        assert KeepAll(rows, ts) == all;
        assert all[0] == rows[0] && all[1..] == rest;
      } else {
        assert KeepAll(rows, ts) == rest;
      }
    }
  }

  // ---------------------------------------------------------------------------
  // The filter block

  /** The filter block of the app: `df_filtered` is narrowed step by step. */
  method ApplyPrimaryFilters(df: Frame, c: Choice) returns (out: Option<Frame>)
    requires WellFormed(df)
    ensures out == PrimaryFiltered(df, c)
  {
    var d := FilterBudgetAndSeats(df, c);
    ghost var done := BudgetSteps(c, df.columns) + SeatSteps(c, df.columns);
    if c.fuel != "" && c.fuelHard {
      if FuelColumn !in d.columns {
        return None;
      }
      var t := FuelIs(c.fuel);
      KeepAfterKeepAll(df.rows, done, t);
      d := Frame(d.columns, Keep(d.rows, t));
      done := done + [t];
    }
    assert done == StepsBeforeBody(c, df.columns);
    if c.body != "" && c.bodyHard {
      var body := BodyColumn(d.columns);
      if body.None? {
        if d.rows != [] {
          return None;
        }
      } else {
        var t := BodyHas(body.value, c.body);
        KeepAfterKeepAll(df.rows, done, t);
        d := Frame(d.columns, Keep(d.rows, t));
        done := done + [t];
      }
    }
    assert done == Steps(c, df.columns);
    out := Some(d);
  }

  /** The first part of the block: the two budget bounds, then the seat count. */
  method FilterBudgetAndSeats(df: Frame, c: Choice) returns (d: Frame)
    requires WellFormed(df)
    ensures d == Frame(df.columns, KeepAll(df.rows, BudgetSteps(c, df.columns) + SeatSteps(c, df.columns)))
  {
    d := df;
    ghost var done: seq<Test> := [];
    KeepAllNone(df.rows);
    if c.minBudget.Some? && PriceColumn in d.columns {
      var t := AtLeast(c.minBudget.value);
      KeepAfterKeepAll(df.rows, done, t);
      d := Frame(d.columns, Keep(d.rows, t));
      done := done + [t];
    }
    if c.maxBudget.Some? && PriceColumn in d.columns {
      var t := AtMost(c.maxBudget.value);
      KeepAfterKeepAll(df.rows, done, t);
      d := Frame(d.columns, Keep(d.rows, t));
      done := done + [t];
    }
    assert done == BudgetSteps(c, df.columns);
    var seat := SeatColumn(df.columns);
    if seat.Some? && c.seats.Some? {
      var t := SeatsAre(seat.value, c.seats.value);
      KeepAfterKeepAll(df.rows, done, t);
      d := Frame(d.columns, Keep(d.rows, t));
      done := done + [t];
    }
    assert done == BudgetSteps(c, df.columns) + SeatSteps(c, df.columns);
  }

  // ---------------------------------------------------------------------------
  // Properties of the filter block

  /** The filters only remove rows: the result's rows are the input's, in their order. */
  lemma FiltersOnlyRemove(df: Frame, c: Choice)
    requires PrimaryFiltered(df, c).Some?
    ensures PrimaryFiltered(df, c).value.columns == df.columns
    ensures IsSubsequence(PrimaryFiltered(df, c).value.rows, df.rows)
  {
    KeepAllSubsequence(df.rows, Steps(c, df.columns));
  }

  /** A row is kept exactly when it passes every active step. */
  lemma KeptExactly(df: Frame, c: Choice, x: Row)
    requires PrimaryFiltered(df, c).Some?
    ensures x in PrimaryFiltered(df, c).value.rows <==> x in df.rows && PassesAll(Steps(c, df.columns), x)
  {
    KeepAllMembers(df.rows, Steps(c, df.columns), x);
  }

  /** With no choice made, nothing is removed. */
  lemma NoChoiceKeepsAll(df: Frame)
    ensures PrimaryFiltered(df, Choice(None, None, None, "", true, "", true)) == Some(df)
  {
    KeepAllNone(df.rows);
  }

  /**
   * The maximum budget drops every row without a price, and keeps only
   * prices at or below it; the minimum budget keeps a row without a price
   * only when the minimum is at most 0.
   */
  lemma BudgetFilters(df: Frame, c: Choice, x: Row)
    requires PrimaryFiltered(df, c).Some? && PriceColumn in df.columns
    requires x in PrimaryFiltered(df, c).value.rows
    ensures c.maxBudget.Some? ==>
              PriceColumn in x && ToNumeric(x[PriceColumn]).Some?
              && ToNumeric(x[PriceColumn]).value <= c.maxBudget.value as real
    ensures c.minBudget.Some? ==>
              PriceColumn in x && ToNumeric(x[PriceColumn]).GetOr(0.0) >= c.minBudget.value as real
  {
    var ts := Steps(c, df.columns);
    KeepAllMembers(df.rows, ts, x);
    if c.minBudget.Some? {
      assert ts[0] == AtLeast(c.minBudget.value);
      assert Passes(ts[0], x);
    }
    if c.maxBudget.Some? {
      var k := if c.minBudget.Some? then 1 else 0;
      assert ts[k] == AtMost(c.maxBudget.value);
      assert Passes(ts[k], x);
    }
  }
}
