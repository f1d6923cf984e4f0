/**
 * The budget parser `parse_budget_input` and the display-branch choice of
 * `format_price` (expert_system.py). Budgets are whole rupees; a crore is
 * 10,000,000 and a lakh 100,000.
 */
module Budget {
  import opened Wrappers
  import opened Strings
  import opened Numerals

  const Crore: int := 10000000
  const Lakh: int := 100000
  const Thousand: int := 1000

  const RupeeSign: char := '\U{20B9}'

  /** `str(s).strip().lower().replace(",", "").replace("₹", "")` */
  function Clean(s: string): string {
    Without(Without(Lower(Strip(s)), ','), RupeeSign)
  }

  /** An amount `x` given in multiples of `unit` rupees, in rupees. */
  function InUnits(x: real, unit: int): real {
    x * unit as real
  }

  /** `round(v * unit)` when a number was read; None otherwise. */
  function Scaled(v: Option<real>, unit: int): Option<int> {
    if v.None? then None else Some(RoundHalfEven(InUnits(v.value, unit)))
  }

  /**
   * The unit heuristic for a bare number: from 100,000 up, or strictly
   * between 1,000 and 100,000, the number is already in rupees; otherwise
   * (1,000 and below, negatives included) it is read in lakhs.
   */
  function BareAmount(v: real): int {
    if v >= 100000.0 then RoundHalfEven(v)
    else if 1000.0 < v < 100000.0 then RoundHalfEven(v)
    else RoundHalfEven(InUnits(v, Lakh))
  }

  predicate MentionsCrore(s0: string) {
    Contains(s0, "cr") || Contains(s0, "crore")
  }

  predicate MentionsLakh(s0: string) {
    Contains(s0, "lakh") || Contains(s0, "lakhs")
  }

  /** `parse_budget_input(s)`; `None` stands for Python's `None` input and result. */
  function ParseBudgetInput(s: Option<string>): Option<int> {
    match s
    case None => None
    case Some(text) => ParseCleaned(Clean(text))
  }

  /** The parser after cleaning: the blank test and the two unit words. */
  function ParseCleaned(s0: string): Option<int> {
    if s0 == "" then None
    else if MentionsCrore(s0) then Scaled(FirstLiteral(s0), Crore)
    else if MentionsLakh(s0) && !EndsWith(s0, "k") then Scaled(FirstLiteral(s0), Lakh)
    else ParseSuffixed(s0)
  }

  /**
   * The parser on non-blank text without a unit word: a trailing `l` (lakhs,
   * falling through when the rest is not a number), a trailing `k`
   * (thousands, None when the rest is not a number), else the first numeric
   * literal under the magnitude heuristic.
   */
  function ParseSuffixed(s0: string): Option<int>
    requires s0 != ""
  {
    var body := s0[..|s0| - 1];
    if EndsWith(s0, "l") && !EndsWith(s0, "k") && ParseFloat(body).Some? then
      Scaled(ParseFloat(body), Lakh)
    else if EndsWith(s0, "k") then
      Scaled(ParseFloat(body), Thousand)
    else
      match FirstLiteral(s0)
      case None => None
      case Some(v) => Some(BareAmount(v))
  }

  /** What `format_price` displays: which unit it picks and the amount in that unit. */
  datatype PriceLabel = NotAvailable | Crores(crores: real) | Lakhs(lakhs: real) | Rupees(rupees: int)

  /**
   * `format_price(inr)` up to the text rendering: missing is "N/A"; the
   * amount is truncated to an integer, then shown in crores from one crore
   * up, in lakhs from one lakh up, and in plain rupees below.
   */
  function FormatPrice(inr: Option<real>): (r: PriceLabel)
    ensures r.NotAvailable? <==> inr.None?
    ensures r.Crores? ==> r.crores >= 1.0 && r.crores * Crore as real == Truncate(inr.value) as real
    ensures r.Lakhs? ==> 1.0 <= r.lakhs < 100.0 && r.lakhs * Lakh as real == Truncate(inr.value) as real
    ensures r.Rupees? ==> r.rupees < Lakh && r.rupees == Truncate(inr.value)
  {
    match inr
    case None => NotAvailable
    case Some(x) =>
      var n := Truncate(x);
      if n >= Crore then Crores(n as real / Crore as real)
      else if n >= Lakh then Lakhs(n as real / Lakh as real)
      else Rupees(n)
  }

  // ---------------------------------------------------------------------------
  // Properties of the parser

  /** Blank text (after stripping and removing separators) is no budget. */
  lemma BlankIsNoBudget(text: string)
    requires Clean(text) == ""
    ensures ParseBudgetInput(Some(text)) == None
  {
  }

  /** Lower-casing, stripping and removing separators never creates a digit. */
  lemma CleanKeepsNoDigit(text: string)
    requires NoDigit(text)
    ensures NoDigit(Clean(text))
  {
    var u := Strip(text);
    StripKeepsChars(text);
    var l := Lower(u);
    forall c | c in l ensures !IsDigit(c) {
      var i :| 0 <= i < |l| && l[i] == c;
      assert u[i] in u;
    }
  }

  /** Text without any digit is no budget, whatever suffix it carries. */
  lemma NoDigitIsNoBudget(text: string)
    requires NoDigit(text)
    ensures ParseBudgetInput(Some(text)) == None
  {
    CleanKeepsNoDigit(text);
    NoDigitCleaned(Clean(text));
  }

  /** After cleaning, text without any digit is no budget. */
  lemma NoDigitCleaned(s0: string)
    requires NoDigit(s0)
    ensures ParseCleaned(s0) == None
  {
    FirstLiteralNeedsDigit(s0, 0);
    if s0 != "" {
      NoDigitSuffixed(s0);
    }
  }

  /** Neither a suffix rule nor the bare-number rule reads a number from text without digits. */
  lemma NoDigitSuffixed(s0: string)
    requires s0 != "" && NoDigit(s0)
    ensures ParseSuffixed(s0) == None
  {
    var body := s0[..|s0| - 1];
    assert NoDigit(body) by {
      forall c | c in body ensures c in s0 {
      }
    }
    ParseFloatNeedsDigit(body);
    FirstLiteralNeedsDigit(s0, 0);
  }

  /**
   * A trailing `k` whose rest does not parse gives no budget: the thousands
   * rule does not fall through to the bare-number rule.
   */
  lemma UnparsedThousandsIsNone(s0: string)
    requires s0 != "" && !MentionsCrore(s0) && EndsWith(s0, "k")
    requires ParseFloat(s0[..|s0| - 1]).None?
    ensures ParseCleaned(s0) == None
  {
    assert !EndsWith(s0, "l") by {
      assert s0[|s0| - 1] == 'k';
    }
  }

  /**
   * A trailing `l` whose rest does not parse falls through to the
   * bare-number rule, which reads the first numeric literal.
   */
  lemma UnparsedLakhLetterFallsThrough(s0: string)
    requires s0 != "" && !MentionsCrore(s0) && !MentionsLakh(s0) && EndsWith(s0, "l")
    requires ParseFloat(s0[..|s0| - 1]).None?
    ensures ParseCleaned(s0) == match FirstLiteral(s0) case None => None case Some(v) => Some(BareAmount(v))
  {
    assert !EndsWith(s0, "k") by {
      assert s0[|s0| - 1] == 'l';
    }
  }

  /** Digits and lower-case unit letters are left alone by cleaning. */
  lemma CleanOfPlain(s: string)
    requires |s| > 0 && !IsSpace(s[0]) && !IsSpace(s[|s| - 1])
    requires forall i :: 0 <= i < |s| ==> !IsUpper(s[i]) && s[i] != ',' && s[i] != RupeeSign
    ensures Clean(s) == s
  {
    StripOfTrimmed(s);
    LowerOfLower(s);
  }

  /** Scaling a whole number by a whole unit needs no rounding. */
  lemma ScaledWhole(n: int, unit: int)
    ensures Scaled(Some(n as real), unit) == Some(n * unit)
  {
    assert Scaled(Some(n as real), unit) == Some(RoundHalfEven(InUnits(n as real, unit)));
    assert InUnits(n as real, unit) == (n * unit) as real by {
      CastMul(n, unit);
    }
    RoundWhole(n * unit);
  }

  /**
   * Digits followed by at most one unit letter survive cleaning and mention
   * no unit word, so they reach the suffix rules unchanged.
   */
  lemma ReachesSuffixRules(ds: string, suffix: string)
    requires |ds| > 0 && AllDigits(ds)
    requires suffix == "" || suffix == "k" || suffix == "l"
    ensures ds + suffix != ""
    ensures ParseBudgetInput(Some(ds + suffix)) == ParseSuffixed(ds + suffix)
  {
    var s := ds + suffix;
    assert DigitsOrUnit(s);
    CleanOfPlain(s);
    NoUnitWord(s);
    assert ParseCleaned(s) == ParseSuffixed(s);
  }

  /** Every character is a digit or one of the unit letters `k` and `l`. */
  predicate DigitsOrUnit(s: string) {
    forall i :: 0 <= i < |s| ==> IsDigit(s[i]) || s[i] == 'k' || s[i] == 'l'
  }

  /** Digits and the letters `k` and `l` spell neither "cr", "crore", "lakh" nor "lakhs". */
  lemma NoUnitWord(s: string)
    requires DigitsOrUnit(s)
    ensures !MentionsCrore(s) && !MentionsLakh(s)
  {
    assert 'c' !in s && 'a' !in s;
    NoUnitLetters(s);
  }

  /**
   * A bare whole number is read by the magnitude heuristic: above 1,000 it
   * is rupees, otherwise lakhs ("10" is 1,000,000 and "50000" is 50,000).
   */
  lemma BareNumberBudget(n: nat)
    ensures ParseBudgetInput(Some(NatToDigits(n))) == Some(if n > 1000 then n else n * Lakh)
  {
    var ds := NatToDigits(n);
    ReachesSuffixRules(ds, "");
    assert ds + "" == ds;
    assert !EndsWith(ds, "l") && !EndsWith(ds, "k") by {
      assert IsDigit(ds[|ds| - 1]);
    }
    FirstLiteralOfDigits(ds);
    assert ParseSuffixed(ds) == Some(BareAmount(n as real));
    BareWhole(n);
  }

  /** The magnitude heuristic on a whole number. */
  lemma BareWhole(n: nat)
    ensures BareAmount(n as real) == if n > 1000 then n else n * Lakh
  {
    if n > 1000 {
      RoundWhole(n);
    } else {
      ScaledWhole(n, Lakh);
    }
  }

  /** Digits followed by one letter end with that letter and with no other one-letter suffix. */
  lemma LastLetter(ds: string, x: char)
    requires |ds| > 0 && AllDigits(ds) && !IsDigit(x)
    ensures (ds + [x])[..|ds|] == ds
    ensures EndsWith(ds + [x], [x])
    ensures forall y :: y != x ==> !EndsWith(ds + [x], [y])
  {
    var s := ds + [x];
    assert s[|s| - 1..] == [x];
  }

  /** Whole numbers with a `k` suffix are thousands: "100k" is 100,000. */
  lemma ThousandsBudget(n: nat)
    ensures ParseBudgetInput(Some(NatToDigits(n) + "k")) == Some(n * Thousand)
  {
    var ds := NatToDigits(n);
    var s := ds + "k";
    ReachesSuffixRules(ds, "k");
    LastLetter(ds, 'k');
    ParseFloatOfDigits(ds);
    assert ParseSuffixed(s) == Scaled(ParseFloat(ds), Thousand);
    ScaledWhole(n, Thousand);
  }

  /** Whole numbers with an `l` suffix are lakhs. */
  lemma LakhLetterBudget(n: nat)
    ensures ParseBudgetInput(Some(NatToDigits(n) + "l")) == Some(n * Lakh)
  {
    var ds := NatToDigits(n);
    var s := ds + "l";
    ReachesSuffixRules(ds, "l");
    LastLetter(ds, 'l');
    ParseFloatOfDigits(ds);
    assert ParseSuffixed(s) == Scaled(ParseFloat(ds), Lakh);
    ScaledWhole(n, Lakh);
  }

  /** Text mentioning "lakh" (and no crore) is read in lakhs from its first number. */
  lemma LakhWordCleaned(ds: string)
    requires |ds| > 0 && AllDigits(ds)
    ensures ParseCleaned(ds + "lakh") == Scaled(FirstLiteral(ds + "lakh"), Lakh)
  {
    var s := ds + "lakh";
    NotContains(s, "cr", 0);
    NotContains(s, "crore", 0);
    assert s[|s| - 4..] == "lakh";
    ContainsSuffix(s, |s| - 4, "lakh");
    assert s[|s| - 1] == 'h';
  }

  /** Whole numbers followed by "lakh" are lakhs. */
  lemma LakhWordBudget(n: nat)
    ensures ParseBudgetInput(Some(NatToDigits(n) + "lakh")) == Some(n * Lakh)
  {
    var ds := NatToDigits(n);
    var s := ds + "lakh";
    CleanOfPlain(s);
    LakhWordCleaned(ds);
    FirstLiteralOfDigitsThen(ds, "lakh");
    ScaledWhole(n, Lakh);
  }

  /** Whole numbers followed by "cr" are crores. */
  lemma CroreBudget(n: nat)
    ensures ParseBudgetInput(Some(NatToDigits(n) + "cr")) == Some(n * Crore)
  {
    var ds := NatToDigits(n);
    var s := ds + "cr";
    CleanOfPlain(s);
    assert s[|s| - 2..] == "cr";
    ContainsSuffix(s, |s| - 2, "cr");
    FirstLiteralOfDigitsThen(ds, "cr");
    ScaledWhole(n, Crore);
  }

  /**
   * The display inverts the parser on whole crores: a budget typed as
   * "<k>cr" is shown as k crores.
   */
  lemma CroreDisplayRoundTrip(k: nat)
    requires k >= 1
    ensures ParseBudgetInput(Some(NatToDigits(k) + "cr")) == Some(k * Crore)
    ensures FormatPrice(Some((k * Crore) as real)) == Crores(k as real)
  {
    CroreBudget(k);
  }

  /** Whole lakhs below a crore are shown in lakhs. */
  lemma LakhsShown(k: nat)
    requires 1 <= k < 100
    ensures FormatPrice(Some((k * Lakh) as real)) == Lakhs(k as real)
  {
    var n := k * Lakh;
    assert Lakh <= n < Crore;
    assert Truncate(n as real) == n by {
      assert (n as real).Floor == n;
    }
    assert n as real / Lakh as real == k as real by {
      CastMul(k, Lakh);
    }
  }

  /** A budget typed as "<k>l" with 1 <= k < 100 is shown as k lakhs. */
  lemma LakhDisplayRoundTrip(k: nat)
    requires 1 <= k < 100
    ensures ParseBudgetInput(Some(NatToDigits(k) + "l")) == Some(k * Lakh)
    ensures FormatPrice(Some((k * Lakh) as real)) == Lakhs(k as real)
  {
    LakhLetterBudget(k);
    LakhsShown(k);
  }

  /** "10" is ten lakhs, as the parser's documentation says. */
  lemma TenLakhsExample(text: string)
    requires text == "10"
    ensures ParseBudgetInput(Some(text)) == Some(1000000)
  {
    assert NatToDigits(10) == text;
    BareNumberBudget(10);
  }

  /** "50000" is fifty thousand rupees. */
  lemma FiftyThousandExample(text: string)
    requires text == "50000"
    ensures ParseBudgetInput(Some(text)) == Some(50000)
  {
    assert NatToDigits(50000) == text;
    BareNumberBudget(50000);
  }

  /** "100k" is one lakh. */
  lemma HundredKExample(text: string)
    requires text == "100k"
    ensures ParseBudgetInput(Some(text)) == Some(100000)
  {
    assert NatToDigits(100) + "k" == text;
    ThousandsBudget(100);
  }

  /** The first numeric literal of "1.2cr" is 1.2. */
  lemma OnePointTwoLiteral(s: string)
    requires s == "1.2cr"
    ensures FirstLiteral(s) == Some(1.2)
  {
    var ws, fs := "1", "2";
    FirstLiteralOfDecimal(ws, fs, "cr");
    assert ws + "." + fs + "cr" == s;
    assert DigitsValue(ws) == 1 && DigitsValue(fs) == 2 && Pow10(|fs|) == 10;
  }

  /** The first numeric literal of "12.5" is 12.5. */
  lemma TwelvePointFiveLiteral(s: string)
    requires s == "12.5"
    ensures FirstLiteral(s) == Some(12.5)
  {
    var ws, fs := "12", "5";
    FirstLiteralOfDecimal(ws, fs, "");
    assert ws + "." + fs + "" == s;
    assert DigitsValue("1") == 1 && DigitsValue(ws) == 12 && DigitsValue(fs) == 5 && Pow10(|fs|) == 10;
  }

  /** "1.2cr" is 1.2 crores, as the parser's documentation says. */
  lemma OnePointTwoCroreExample(s: string)
    requires s == "1.2cr"
    ensures ParseBudgetInput(Some(s)) == Some(12000000)
  {
    CleanOfPlain(s);
    assert s[3..] == "cr" && s[3..][..2] == "cr";
    ContainsSuffix(s, 3, "cr");
    OnePointTwoLiteral(s);
    assert InUnits(1.2, Crore) == 12000000 as real;
    RoundWhole(12000000);
  }

  /** Cleaning "₹12.5" drops the rupee sign. */
  lemma RupeeCleaned(text: string)
    requires text == [RupeeSign] + "12.5"
    ensures Clean(text) == "12.5"
  {
    StripOfTrimmed(text);
    LowerOfLower(text);
    assert Without(text, RupeeSign) == Without("12.5", RupeeSign);
  }

  /** Text without the letters `c` and `a` mentions no unit word. */
  lemma NoUnitLetters(s: string)
    requires 'c' !in s && 'a' !in s
    ensures !MentionsCrore(s) && !MentionsLakh(s)
  {
    NotContains(s, "cr", 0);
    NotContains(s, "crore", 0);
    NotContains(s, "lakh", 1);
    NotContains(s, "lakhs", 1);
  }

  /** Cleaned text with no unit word and no unit letter at its end is read by the magnitude heuristic. */
  lemma BareLiteral(s0: string, v: real)
    requires s0 != "" && !MentionsCrore(s0) && !MentionsLakh(s0)
    requires !EndsWith(s0, "l") && !EndsWith(s0, "k") && FirstLiteral(s0) == Some(v)
    ensures ParseCleaned(s0) == Some(BareAmount(v))
  {
  }

  /** "12.5", being at most 1,000, is read in lakhs: 1,250,000. */
  lemma TwelvePointFiveBudget(s: string)
    requires s == "12.5"
    ensures ParseCleaned(s) == Some(1250000)
  {
    NoUnitLetters(s);
    assert s[|s| - 1..] == "5";
    TwelvePointFiveLiteral(s);
    BareLiteral(s, 12.5);
    assert InUnits(12.5, Lakh) == 1250000 as real;
    RoundWhole(1250000);
  }

  /** "₹12.5" loses its rupee sign and reads as 12.5 lakhs, as the parser's documentation says. */
  lemma RupeeLakhsExample(text: string)
    requires text == [RupeeSign] + "12.5"
    ensures ParseBudgetInput(Some(text)) == Some(1250000)
  {
    RupeeCleaned(text);
    TwelvePointFiveBudget(Clean(text));
  }

  /** Empty text and a missing input are no budget. */
  lemma NoInputExample()
    ensures ParseBudgetInput(Some("")) == None
    ensures ParseBudgetInput(None) == None
  {
    assert Clean("") == "";
  }
}
