# Car recommender engine — a Dafny model

The system is a used-and-new car recommender. A table of cars is first
narrowed by the app's hard filters:
- a minimum and maximum budget typed as free text ("10", "1.2cr", "100k",
  "₹12.5");
- an exact seat count;
- an exact fuel category;
- a body-type substring.

The engine then gives every car six scores in [0,1]: performance, economy,
safety, comfort, ownership cost and price. It can add two 0/1 soft-preference
scores, for the chosen fuel and body type. It combines all of these with
normalised user weights, takes a soft penalty off cars above the maximum
budget, sorts by score and returns the best `top_n`. The user also keeps a
shortlist of cars and a compare list that holds at most three.

## How the model is laid out

| module | file | models |
|---|---|---|
| `Wrappers` | wrappers.dfy | `Option`: Python's `None` and pandas' missing values |
| `Strings` | strings.dfy | `lower`, `strip`, substring `in`, `endswith`, `replace(c, "")` |
| `Numerals` | numerals.dfy | `float(text)`, the first match of `[-+]?[0-9]*\.?[0-9]+`, `round` (half to even), `int()` truncation |
| `Tables` | tables.dfy | the DataFrame: a set of column names and a sequence of rows; `pd.to_numeric(errors="coerce")`, column assignment, `head` |
| `Normalizer` | normalizer.dfy | `normalize_series`, with an exact median |
| `Fuel` | fuel.dfy | `FUEL_CATEGORIES`, `map_fuel_to_category` |
| `Budget` | budget.dfy | `parse_budget_input`; which branch `format_price` takes |
| `Axes` | axes.dfy | `compute_axes` |
| `Ranking` | ranking.dfy | `recommend` |
| `Filters` | filters.dfy | the hard-filter block of app.py |
| `Session` | session.dfy | the shortlist and compare lists of app.py |

A frame is a value, so the copy `compute_axes` and `recommend` make is
implicit: the caller's table is never changed. The places where pandas or
Python raise are modelled as `None` results:
- the penalty without a `price_inr` column;
- the penalty on a text price, which reaches `p - maxb` only when the table
  already has its six axes, so `compute_axes` never casts the price column;
- the penalty with a budget of -1, which divides by `maxb + 1`;
- a hard fuel filter without `fuel_category`;
- a hard body filter on a non-empty table with no body column.

Each imperative piece of the source is modelled as a method proved against
the function that specifies it:
- the cast loop and the axis-writing loop of `compute_axes`;
- the `final_score +=` loop and the penalty step of `recommend`;
- the successive reassignments of `df_filtered`;
- the in-place list updates of the session.

The median is computed exactly, as the middle element of the sorted present
values or the mean of the two middle ones.

## Model

| member | source | states |
|---|---|---|
| Normalizer.Normalize | expert_system.py:13-22 | one value per entry, each in [0,1] |
| Normalizer.NormalizeDegenerate | expert_system.py:16-21 | an all-missing or constant column normalises to all zeros |
| Normalizer.NormalizeExtremes | expert_system.py:19-22 | on a non-constant column, the least present value maps to 0 and the greatest to 1 |
| Normalizer.NormalizeAt | expert_system.py:18-22 | on a non-constant column, each entry (missing ones filled with the median) is its position between the least and greatest present value |
| Normalizer.NormalizeMonotone | expert_system.py:18-22 | normalising keeps the order of present values |
| Normalizer.NormalizeOfFilled | expert_system.py:18-22 | filling with the median before normalising changes nothing |
| Normalizer.NormalizeIsRescale | expert_system.py:18-22 | on a non-constant column, the result is `(filled - min) / (max - min)` with the filled column's own extremes |
| Normalizer.FilledRange | expert_system.py:18-19 | the median fill leaves the minimum and maximum of the present values unchanged |
| Normalizer.Median | expert_system.py:18 | the median lies between the least and the greatest value |
| Normalizer.Sorted | expert_system.py:18 | the values in ascending order, a permutation of the input (the median's sort) |
| Normalizer.Present | expert_system.py:16-18 | the present values are exactly the non-missing entries, each as often as it occurs; there are none exactly when the column is all missing |
| Fuel.MapFuelToCategory | expert_system.py:24-37 | the result is always one of `FUEL_CATEGORIES`; `None` gives "Petrol" |
| Fuel.CategoryOrder | expert_system.py:28-37 | each category holds exactly when its markers occur in the lower-cased text and no earlier category's markers do |
| Fuel.CategoryIsFixedPoint | expert_system.py:10 | each category name is classified as itself |
| Fuel.MapFuelIdempotent | expert_system.py:24-37 | classifying a category again gives the same category |
| Fuel.CngBeforePetrolExample | expert_system.py:29-30 | "CNG+Petrol" is CNG |
| Fuel.DieselBeforeTurboExample | expert_system.py:31-35 | "Diesel Turbo" is Diesel, although "turbo" is a petrol marker |
| Fuel.MildHybridExample | expert_system.py:33-34 | "Mild Hybrid Petrol" is Hybrid |
| Fuel.UnknownIsPetrolExample | expert_system.py:37 | text with no marker ("Electric") is Petrol |
| Budget.BlankIsNoBudget | expert_system.py:43-45 | text that is blank after cleaning is no budget |
| Budget.NoInputExample | expert_system.py:41-45 | `None` and "" are no budget |
| Budget.NoDigitIsNoBudget | expert_system.py:46-75 | text without a digit is no budget on every branch |
| Budget.CroreBudget | expert_system.py:47-51 | "<n>cr" is n crores |
| Budget.OnePointTwoCroreExample | expert_system.py:47-51 | "1.2cr" is 12,000,000 |
| Budget.LakhWordBudget | expert_system.py:53-57 | "<n>lakh" is n lakhs |
| Budget.LakhLetterBudget | expert_system.py:59-62 | "<n>l" is n lakhs |
| Budget.UnparsedLakhLetterFallsThrough | expert_system.py:59-75 | a trailing `l` whose rest does not parse falls through to the bare-number rule |
| Budget.ThousandsBudget | expert_system.py:64-66 | "<n>k" is n thousand rupees |
| Budget.UnparsedThousandsIsNone | expert_system.py:64-66 | a trailing `k` whose rest does not parse gives no budget |
| Budget.HundredKExample | expert_system.py:64-66 | "100k" is 100,000 |
| Budget.BareNumberBudget | expert_system.py:67-75 | a bare whole number above 1,000 is rupees; 1,000 and below is lakhs |
| Budget.BareLiteral | expert_system.py:67-75 | cleaned text with no unit word or letter is read by the magnitude heuristic on its first numeric literal |
| Budget.TenLakhsExample | expert_system.py:73-75 | "10" is 1,000,000 |
| Budget.FiftyThousandExample | expert_system.py:74 | "50000" is 50,000 |
| Budget.RupeeLakhsExample | expert_system.py:40-43 | "₹12.5" loses its rupee sign and is 1,250,000 |
| Budget.FormatPrice | expert_system.py:77-86 | missing is "N/A"; the truncated amount is shown in crores from one crore up, in lakhs (below 100) from one lakh up, in rupees below a lakh, each equal to the truncated amount |
| Budget.CroreDisplayRoundTrip | expert_system.py:47-82 | parsing "<k>cr" and formatting the result shows k crores |
| Budget.LakhDisplayRoundTrip | expert_system.py:59-83 | parsing "<k>l" (1 ≤ k < 100) and formatting the result shows k lakhs |
| Numerals.RoundHalfEven | expert_system.py:73-75 | `round` gives the nearest integer, ties to even |
| Numerals.Truncate | expert_system.py:81 | `int()` truncates toward zero |
| Numerals.ParseFloatOfDigits | expert_system.py:61 | `float` of a digit string is the number it writes |
| Numerals.ParseFloatNeedsDigit | expert_system.py:65 | `float` of text without digits fails |
| Numerals.FirstLiteralOfDecimal | expert_system.py:48 | the first match in "w.f…" is the decimal w.f |
| Numerals.FirstLiteralNeedsDigit | expert_system.py:67-68 | text without digits has no numeric literal |
| Tables.Coerce | expert_system.py:114 | a cast cell is a number or missing, with the same numeric reading |
| Tables.CoerceIdempotent | expert_system.py:113-114 | casting twice is casting once |
| Tables.Head | expert_system.py:185 | `head(n)` keeps the first `min(n, rows)` rows |
| Axes.ComputeAxes | expert_system.py:103-137 | the method equals `WithAxes`, the specification of `compute_axes` |
| Axes.CastNumericColumns | expert_system.py:110-114 | the cast loop casts each listed column the table has |
| Axes.WriteAxes | expert_system.py:135-136 | the assignment loop writes the six axis columns |
| Axes.WithAxes | expert_system.py:103-137 | same rows, the input's columns plus the six axis columns |
| Axes.AxesInUnitRange | expert_system.py:115-136 | every axis cell is a number in [0,1] |
| Axes.AxisCellAt | expert_system.py:126-136 | each axis cell holds the axis computed on the cast table |
| Axes.OtherCellsKept | expert_system.py:109-136 | every other cell is unchanged, except that cast columns are coerced to numbers |
| Axes.GroupAxis | expert_system.py:115-122 | a group axis is in [0,1], one value per row |
| Axes.RowMeans | expert_system.py:116-122 | the row mean of columns in [0,1] is in [0,1] |
| Axes.PresentIn | expert_system.py:115-121 | the group columns used are exactly those the table has |
| Axes.AbsentGroupIsZero | expert_system.py:116-122 | a group axis with none of its columns present is 0 |
| Axes.AbsentInvertedIsZero | expert_system.py:123-124 | without the service-cost or price column, its axis is 0 |
| Axes.InvertedIsComplement | expert_system.py:123-124 | an inverted axis is one minus the normalised column |
| Axes.FlatColumnIsOne | expert_system.py:123-124 | a present but all-missing or constant service-cost or price column gives an axis of 1.0 |
| Axes.CheaperScoresHigher | expert_system.py:123-124 | a cheaper car (or a lower service cost) scores at least as high on that axis |
| Axes.CastOfAxes | expert_system.py:110-114 | casting the result again changes nothing |
| Axes.AxesOfAxes | expert_system.py:103-137 | on the result, the axes come out as they were computed the first time |
| Axes.WithAxesIdempotent | expert_system.py:103-137 | rerunning `compute_axes` on its own result gives the same table |
| Ranking.EnsureAxes | expert_system.py:145-148 | the table keeps its rows and gains the six axis columns |
| Ranking.EnsureAxesAt | expert_system.py:145-148 | outside the axes, every cell keeps its numeric reading |
| Ranking.FuelPrefIsIndicator | expert_system.py:151-153 | the fuel preference is 1 exactly when `fuel_category` equals the selection, else 0; missing without the column |
| Ranking.BodyPrefIsIndicator | expert_system.py:154-158 | the body preference is 1 exactly when the trimmed, lower-cased body text contains the trimmed, lower-cased selection literally |
| Ranking.SameBodyMatches | expert_system.py:155-157 | a body equal to the selection up to case and surrounding space matches it |
| Ranking.WithPrefs | expert_system.py:145-158 | same rows; the axis columns plus the preference columns that are switched on |
| Ranking.WeightKeys | expert_system.py:160-167 | one weight key per scored axis |
| Ranking.Lookup | expert_system.py:169 | one weight per key, 0 for a key not given |
| Ranking.WeightsSumToOne | expert_system.py:169-172 | the normalised weights sum to 1 |
| Ranking.ZeroSumIsUniform | expert_system.py:170-172 | weights summing to 0 become equal weights 1/n |
| Ranking.NormalizedNonNegative | expert_system.py:169-172 | non-negative weights stay non-negative; only an all-zero vector sums to 0 |
| Ranking.SumNonNegative | expert_system.py:170 | a sum of non-negative weights is non-negative, and 0 exactly when all are 0 |
| Ranking.AccumulateScores | expert_system.py:174-176 | the loop leaves `final_score` equal to the weighted sum of the axes, missing read as 0 |
| Ranking.PartialScoreBound | expert_system.py:174-176 | with cells in [0,1], the score after j axes lies between 0 and the sum of their weights |
| Ranking.ConvexScore | expert_system.py:174-176 | weights summing to 1 over cells in [0,1] give a score in [0,1] |
| Ranking.ScoreInUnitRange | expert_system.py:145-176 | with non-negative weights, and axes in [0,1] whenever the table already has all six (a partial set is recomputed), the score before the penalty is in [0,1] |
| Ranking.ScoredCellsInRange | expert_system.py:151-176 | every scored cell reads in [0,1] |
| Ranking.Scored | expert_system.py:174-176 | same rows, one more column, `final_score` |
| Ranking.ApplyPenalty | expert_system.py:179-182 | the penalty step equals its specification `Penalized` |
| Ranking.Penalized | expert_system.py:179-182 | the penalised table keeps its rows |
| Ranking.PenaltySign | expert_system.py:181 | for a budget above -1, the penalty is positive exactly above the budget, else 0 |
| Ranking.PenaltyMonotone | expert_system.py:181 | a dearer car is penalised at least as much |
| Ranking.PenaltyEffect | expert_system.py:179-182 | on a table with no text price, a car's score drops exactly when it has a price above the budget; otherwise it is unchanged |
| Ranking.SortByScore | expert_system.py:184 | the rows by non-increasing score, a permutation of the input |
| Ranking.Sorted | expert_system.py:184 | the sorted table keeps its columns and its rows as a multiset |
| Ranking.Recommend | expert_system.py:140-185 | the method equals `Ranked`, the specification of `recommend` |
| Ranking.RankedOutput | expert_system.py:184-185 | the output has `min(top_n, rows)` rows, sorted by non-increasing score, drawn from the scored rows (all of them when `top_n` is at least the row count), and every kept row scores at least as high as every dropped row |
| Ranking.RankedFailsExactly | expert_system.py:179-181 | `recommend` raises exactly when the penalty is on and the table has no price column, or it already has its six axes and some price is text, or the budget is -1 and some price is present |
| Ranking.ScoredTextPrice | expert_system.py:147-148 | a text price is still text when scored exactly when the table already had its six axes, since otherwise `compute_axes` casts it |
| Ranking.ScoredPrices | expert_system.py:145-176 | scoring keeps the price column and its numeric reading |
| Session.SessionState.constructor | app.py:53-56 | both lists start empty |
| Session.SessionState.AddToShortlist | app.py:58-60 | the uid is appended only when absent; the list stays duplicate-free and keeps its entries in order |
| Session.SessionState.RemoveFromShortlist | app.py:62-64 | a present uid is removed; an absent one leaves the list unchanged |
| Session.SessionState.ToggleCompare | app.py:66-73 | a present uid is removed; an absent one is appended only below three entries; the list stays within three and duplicate-free |
| Session.RemoveFirst | app.py:62-68 | `list.remove` takes exactly one occurrence of a present entry away |
| Session.ShortlistedProperties | app.py:58-60 | adding keeps the list duplicate-free and in order, and then holds the uid |
| Session.RemovedFromShortlist | app.py:62-64 | after removal the uid is absent; an absent uid changes nothing |
| Session.ToggledProperties | app.py:66-73 | toggling keeps the list within three and duplicate-free; the uid is listed afterwards exactly when it was absent and there was room |
| Session.ToggleTwice | app.py:66-73 | toggling a uid on and off again restores the list |
| Session.CompareAfterBounded | app.py:55-73 | from the empty list, whatever the clicks, the compare list never exceeds three cars or repeats one |
| Filters.ApplyPrimaryFilters | app.py:159-185 | the method equals `PrimaryFiltered`, the specification of the filter block |
| Filters.FilterBudgetAndSeats | app.py:159-177 | the budget and seat steps keep the rows passing each of them |
| Tables.FirstColumn | app.py:94 | a lookup with a fallback reads the first of its two columns the table has, none when it has neither (the seat column, and the body columns of app.py:185 and expert_system.py:155) |
| Filters.KeepAfterKeepAll | app.py:159-185 | one more filter after the earlier ones is filtering by all of them |
| Filters.FiltersOnlyRemove | app.py:159-185 | the filters keep the columns and only remove rows, never adding or reordering them |
| Filters.KeptExactly | app.py:159-185 | a row is kept exactly when it passes every active step |
| Filters.NoChoiceKeepsAll | app.py:159-185 | with no choice made, nothing is removed |
| Filters.BudgetFilters | app.py:160-164 | the maximum drops rows without a price and keeps prices at or below it; the minimum reads a missing price as 0 |

## Left out

- CSV loading (`load_data`, `cached_load_data`) is file I/O and is not modelled. The columns `fuel_category` and `body_type_clean` that it derives are read as given.
- The Streamlit interface is not modelled: widgets, rendering, the warning shown at the compare limit, and downloads. The sidebar choices are inputs (`Filters.Choice`).
- How a seating label becomes a number (`seat_label_to_int` and the `(\d+)` fallback) is not modelled: the seat count is an input.
- Floating point is not modelled. Numbers are exact reals, so `float` rounding error is absent. The text `format_price` renders, with `round(x, 2)` and `round(x, 1)`, is left out; only the branch and the amount are modelled.
- Python's `float` also accepts "inf", "nan", exponents and underscores. The model parses only plain decimals.
- Unicode is not modelled: case and whitespace are ASCII only, with no Unicode case folding or white space.
- A text cell in an axis or score column reads as 0, where pandas would raise.
- Filters.BudgetFilters: a text price is read through the numeric cast, where the comparisons at app.py:162 and app.py:164 would raise. The app's loader casts `price_inr` to numbers first (expert_system.py:97-99), so such a cell does not reach the filter.
- A number cell in a text column renders as "" in the body preference, and never equals the fuel selection.
- Ranking.SortByScore: ties are kept in input order. pandas' default sort is not stable, so only "sorted, non-increasing, and a permutation" is claimed (`Ranking.Sorted`, `Ranking.RankedOutput`).
- Ranking.Ranked: `top_n` is a natural number. pandas' `head` with a negative count, which drops rows from the end, is not modelled.
- `soft_fuel_weight` and `soft_body_weight` are not modelled: `recommend` never reads them. The preference weights come from the `weights` map.
- Ranking.ScoreInUnitRange: assumes non-negative weights, because with mixed signs the score need not lie in [0,1].
- Ranking.BodyPrefIsIndicator: the selection is matched as a literal substring, which is what the escaped pattern at expert_system.py:157 does. The hard body filter at app.py:185 passes an unescaped pattern to `str.contains`. It is modelled as a literal substring too, which differs for choices holding regular-expression characters.
- Ranking.PenaltyEffect: stated for budgets above -1 only. Below -1, `maxb + 1` is negative and the penalty no longer rises with the price. It is also stated only for tables with no text price, because on a text price the penalty raises (`Ranking.RankedFailsExactly`).
