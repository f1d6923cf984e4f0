/**
 * `normalize_series` (expert_system.py): a column of optional numbers is
 * rescaled to [0,1]. Missing entries are first filled with the median of
 * the present ones; an all-missing or constant column becomes all zeros.
 * A column is a sequence of `Option<real>` (None for NaN), already passed
 * through the numeric coercion.
 */
module Normalizer {
  import opened Wrappers

  predicate AllMissing(s: seq<Option<real>>) {
    forall i :: 0 <= i < |s| ==> s[i].None?
  }

  /** The present values, in order (`s.dropna()`), each as often as it occurs. */
  function Present(s: seq<Option<real>>): (r: seq<real>)
    ensures forall x :: x in r <==> Some(x) in s
    ensures forall x :: multiset(r)[x] == multiset(s)[Some(x)]
    ensures |r| == 0 <==> AllMissing(s)
  {
    if s == [] then []
    else
      var rest := Present(s[1..]);
      assert s == [s[0]] + s[1..];
      assert forall x :: Some(x) in s <==> s[0] == Some(x) || Some(x) in s[1..];
      match s[0]
      case None => rest
      case Some(x) => [x] + rest
  }

  /** The least element. */
  function MinOf(s: seq<real>): (r: real)
    requires |s| > 0
    ensures r in s
    ensures forall i :: 0 <= i < |s| ==> r <= s[i]
  {
    if |s| == 1 then s[0]
    else
      var m := MinOf(s[1..]);
      assert forall i :: 1 <= i < |s| ==> s[i] == s[1..][i - 1];
      if s[0] <= m then s[0] else m
  }

  /** The greatest element. */
  function MaxOf(s: seq<real>): (r: real)
    requires |s| > 0
    ensures r in s
    ensures forall i :: 0 <= i < |s| ==> s[i] <= r
  {
    if |s| == 1 then s[0]
    else
      var m := MaxOf(s[1..]);
      assert forall i :: 1 <= i < |s| ==> s[i] == s[1..][i - 1];
      if s[0] >= m then s[0] else m
  }

  predicate Ascending(s: seq<real>) {
    forall i, j :: 0 <= i < j < |s| ==> s[i] <= s[j]
  }

  /** Inserting into an ascending sequence keeps it ascending and adds exactly `x`. */
  function Insert(x: real, s: seq<real>): (r: seq<real>)
    requires Ascending(s)
    ensures Ascending(r)
    ensures multiset(r) == multiset(s) + multiset{x}
  {
    if s == [] || x <= s[0] then [x] + s
    else
      var rest := Insert(x, s[1..]);
      assert s == [s[0]] + s[1..];
      BoundKept(s[0], rest, s[1..], x);
      [s[0]] + rest
  }

  /** A lower bound of `u` and of `x` bounds every element of `u` with `x` added. */
  lemma BoundKept(a: real, t: seq<real>, u: seq<real>, x: real)
    requires multiset(t) == multiset(u) + multiset{x}
    requires a <= x && forall j :: 0 <= j < |u| ==> a <= u[j]
    ensures forall k :: 0 <= k < |t| ==> a <= t[k]
  {
    forall k | 0 <= k < |t| ensures a <= t[k] {
      assert t[k] in multiset(t);
      if t[k] != x {
        assert t[k] in multiset(u);
        var j :| 0 <= j < |u| && u[j] == t[k];
      }
    }
  }

  /** The values in ascending order (insertion sort). */
  function Sorted(s: seq<real>): (r: seq<real>)
    ensures Ascending(r)
    ensures multiset(r) == multiset(s)
  {
    if s == [] then []
    else
      assert s == [s[0]] + s[1..];
      Insert(s[0], Sorted(s[1..]))
  }

  /** `Series.median()` of the present values: the middle value, or the mean of the two middle ones. */
  function Median(s: seq<real>): (r: real)
    requires |s| > 0
    ensures MinOf(s) <= r <= MaxOf(s)
  {
    var t := Sorted(s);
    var n := |t|;
    assert |t| == |multiset(t)| == |multiset(s)| == |s|;
    assert forall i :: 0 <= i < n ==> t[i] in s by {
      forall i | 0 <= i < n ensures t[i] in s {
        assert t[i] in multiset(t);
      }
    }
    if n % 2 == 1 then t[n / 2]
    else (t[n / 2 - 1] + t[n / 2]) / 2.0
  }

  /** `s.fillna(v)` on a column that then has no gaps. */
  function Fill(s: seq<Option<real>>, v: real): seq<real> {
    seq(|s|, i requires 0 <= i < |s| => s[i].GetOr(v))
  }

  /** `s.fillna(v)` keeping the column's optional type. */
  function FillOpt(s: seq<Option<real>>, v: real): seq<Option<real>> {
    seq(|s|, i requires 0 <= i < |s| => Some(s[i].GetOr(v)))
  }

  function Zeros(n: nat): seq<real> {
    seq(n, i => 0.0)
  }

  /** The fill value `normalize_series` uses: the median of the present values. */
  function FillValue(s: seq<Option<real>>): real
    requires !AllMissing(s)
  {
    Median(Present(s))
  }

  /** Where `x` sits between `lo` and `hi`, as a fraction of the distance. */
  function Position(x: real, lo: real, hi: real): real
    requires lo < hi
  {
    (x - lo) / (hi - lo)
  }

  /** The position of a value between `lo` and `hi` lies in [0,1]. */
  lemma UnitScale(x: real, lo: real, hi: real)
    requires lo <= x <= hi && lo < hi
    ensures 0.0 <= Position(x, lo, hi) <= 1.0
  {
    var q := (x - lo) / (hi - lo);
    assert q * (hi - lo) == x - lo;
  }

  /** The ends sit at 0 and 1. */
  lemma PositionEnds(lo: real, hi: real)
    requires lo < hi
    ensures Position(lo, lo, hi) == 0.0 && Position(hi, lo, hi) == 1.0
  {
    var d := hi - lo;
    assert d / d == 1.0;
  }

  /** Positions keep the order of the values. */
  lemma PositionMonotone(x: real, y: real, lo: real, hi: real)
    requires x <= y && lo < hi
    ensures Position(x, lo, hi) <= Position(y, lo, hi)
  {
    var d := hi - lo;
    assert (y - lo) / d - (x - lo) / d == (y - x) / d;
  }

  /** `(f - lo) / (hi - lo)` elementwise, for values between `lo` and `hi`. */
  function Rescale(f: seq<real>, lo: real, hi: real): (r: seq<real>)
    requires lo < hi
    requires forall i :: 0 <= i < |f| ==> lo <= f[i] <= hi
    ensures |r| == |f|
    ensures forall i :: 0 <= i < |r| ==> 0.0 <= r[i] <= 1.0
  {
    assert forall i :: 0 <= i < |f| ==> 0.0 <= Position(f[i], lo, hi) <= 1.0 by {
      forall i | 0 <= i < |f| ensures 0.0 <= Position(f[i], lo, hi) <= 1.0 {
        UnitScale(f[i], lo, hi);
      }
    }
    seq(|f|, i requires 0 <= i < |f| => Position(f[i], lo, hi))
  }

  /** `normalize_series(s)` */
  function Normalize(s: seq<Option<real>>): (r: seq<real>)
    ensures |r| == |s|
    ensures forall i :: 0 <= i < |r| ==> 0.0 <= r[i] <= 1.0
  {
    if AllMissing(s) then Zeros(|s|)
    else
      var filled := Fill(s, FillValue(s));
      var mn, mx := MinOf(filled), MaxOf(filled);
      if mx == mn then Zeros(|s|) else Rescale(filled, mn, mx)
  }

  // ---------------------------------------------------------------------------
  // Properties

  /** Filling with a value between the least and greatest present value keeps both. */
  lemma FillKeepsRange(s: seq<Option<real>>, v: real)
    requires !AllMissing(s)
    requires MinOf(Present(s)) <= v <= MaxOf(Present(s))
    ensures MinOf(Fill(s, v)) == MinOf(Present(s))
    ensures MaxOf(Fill(s, v)) == MaxOf(Present(s))
  {
    var p, f := Present(s), Fill(s, v);
    var lo, hi := MinOf(p), MaxOf(p);
    forall i | 0 <= i < |f| ensures lo <= f[i] <= hi {
      if s[i].Some? {
        assert s[i].value in p;
      }
    }
    var a :| a in p && a == lo;
    var k :| 0 <= k < |s| && s[k] == Some(a);
    assert f[k] == lo;
    var b :| b in p && b == hi;
    var m :| 0 <= m < |s| && s[m] == Some(b);
    assert f[m] == hi;
  }

  /** The column after filling spans exactly the range of the present values. */
  lemma FilledRange(s: seq<Option<real>>)
    requires !AllMissing(s)
    ensures MinOf(Fill(s, FillValue(s))) == MinOf(Present(s))
    ensures MaxOf(Fill(s, FillValue(s))) == MaxOf(Present(s))
  {
    FillKeepsRange(s, FillValue(s));
  }

  /** All-missing input, and input whose present values are all equal, normalise to zeros. */
  lemma NormalizeDegenerate(s: seq<Option<real>>)
    requires AllMissing(s) || MinOf(Present(s)) == MaxOf(Present(s))
    ensures Normalize(s) == Zeros(|s|)
  {
    if !AllMissing(s) {
      FilledRange(s);
    }
  }

  /** On non-constant input, normalising rescales the filled column between its own extremes. */
  lemma NormalizeIsRescale(s: seq<Option<real>>)
    requires !AllMissing(s) && MinOf(Present(s)) < MaxOf(Present(s))
    ensures var f := Fill(s, FillValue(s)); MinOf(f) < MaxOf(f) && Normalize(s) == Rescale(f, MinOf(f), MaxOf(f))
  {
    FilledRange(s);
  }

  /** On non-constant input, each entry is its filled value's position between the least and greatest present value. */
  lemma NormalizeAt(s: seq<Option<real>>, i: nat)
    requires i < |s| && !AllMissing(s) && MinOf(Present(s)) < MaxOf(Present(s))
    ensures Normalize(s)[i] == Position(s[i].GetOr(FillValue(s)), MinOf(Present(s)), MaxOf(Present(s)))
  {
    var f := Fill(s, FillValue(s));
    NormalizeIsRescale(s);
    FilledRange(s);
    assert f[i] == s[i].GetOr(FillValue(s));
  }

  /**
   * On non-constant input the least present value maps to 0 and the
   * greatest to 1.
   */
  lemma NormalizeExtremes(s: seq<Option<real>>, i: nat)
    requires i < |s| && !AllMissing(s) && MinOf(Present(s)) < MaxOf(Present(s))
    ensures s[i] == Some(MinOf(Present(s))) ==> Normalize(s)[i] == 0.0
    ensures s[i] == Some(MaxOf(Present(s))) ==> Normalize(s)[i] == 1.0
  {
    NormalizeAt(s, i);
    var lo, hi := MinOf(Present(s)), MaxOf(Present(s));
    PositionEnds(lo, hi);
  }

  /** Normalisation keeps the order of present values. */
  lemma NormalizeMonotone(s: seq<Option<real>>, i: nat, j: nat)
    requires i < |s| && j < |s| && s[i].Some? && s[j].Some? && s[i].value <= s[j].value
    ensures Normalize(s)[i] <= Normalize(s)[j]
  {
    assert !AllMissing(s);
    var lo, hi := MinOf(Present(s)), MaxOf(Present(s));
    if lo == hi {
      NormalizeDegenerate(s);
    } else {
      NormalizeAt(s, i);
      NormalizeAt(s, j);
      PositionMonotone(s[i].value, s[j].value, lo, hi);
    }
  }

  /**
   * Filling a column with its median before normalising changes nothing:
   * the pattern `normalize_series(c.fillna(c.median()))` equals
   * `normalize_series(c)`.
   */
  lemma NormalizeOfFilled(s: seq<Option<real>>)
    requires !AllMissing(s)
    ensures Normalize(FillOpt(s, FillValue(s))) == Normalize(s)
  {
    var t := FillOpt(s, FillValue(s));
    assert !AllMissing(t) by {
      assert t[0].Some?;
    }
    RefillIgnored(s, FillValue(s), FillValue(t));
  }

  /** A filled column has nothing left to fill. */
  lemma RefillIgnored(s: seq<Option<real>>, v: real, w: real)
    ensures Fill(FillOpt(s, v), w) == Fill(s, v)
  {
  }
}
