/**
 * The few string operations the engine relies on: Python's `str.lower`,
 * `str.strip`, `in` (substring test), `str.endswith` and `str.replace(c, "")`.
 * Characters are ASCII-cased; Unicode case folding and Unicode whitespace
 * are not modelled.
 */
module Strings {

  /** The ASCII whitespace that `str.strip()` removes. */
  predicate IsSpace(c: char) {
    c == ' ' || c == '\t' || c == '\n' || c == '\r' || c == '\U{000B}' || c == '\U{000C}'
  }

  predicate IsUpper(c: char) {
    'A' <= c <= 'Z'
  }

  function LowerChar(c: char): char {
    if IsUpper(c) then (c as int + 32) as char else c
  }

  /** `s.lower()` */
  function Lower(s: string): string {
    seq(|s|, i requires 0 <= i < |s| => LowerChar(s[i]))
  }

  /** Removing leading whitespace. */
  function TrimStart(s: string): (r: string)
    ensures |r| <= |s| && r == s[|s| - |r|..]
    ensures |r| > 0 ==> !IsSpace(r[0])
  {
    if |s| > 0 && IsSpace(s[0]) then TrimStart(s[1..]) else s
  }

  /** Removing trailing whitespace. */
  function TrimEnd(s: string): (r: string)
    ensures |r| <= |s| && r == s[..|r|]
    ensures |r| > 0 ==> !IsSpace(r[|r| - 1])
  {
    if |s| > 0 && IsSpace(s[|s| - 1]) then TrimEnd(s[..|s| - 1]) else s
  }

  /** `s.strip()` */
  function Strip(s: string): string {
    TrimEnd(TrimStart(s))
  }

  /** `t in s` for strings: `t` occurs as a contiguous block of `s`. */
  predicate Contains(s: string, t: string)
    decreases |s|
  {
    |t| <= |s| && (s[..|t|] == t || Contains(s[1..], t))
  }

  /** `s.endswith(t)` */
  predicate EndsWith(s: string, t: string) {
    |t| <= |s| && s[|s| - |t|..] == t
  }

  /** `s.replace(c, "")` for a single character `c`. */
  function Without(s: string, c: char): (r: string)
    ensures c !in r
    ensures forall x :: x in r ==> x in s
    ensures c !in s ==> r == s
  {
    if s == [] then []
    else if s[0] == c then Without(s[1..], c)
    else [s[0]] + Without(s[1..], c)
  }

  /** Every character of `t` occurs in any string that contains `t`. */
  lemma {:induction false} ContainsChars(s: string, t: string)
    requires Contains(s, t)
    ensures forall k :: 0 <= k < |t| ==> t[k] in s
    decreases |s|
  {
    if s[..|t|] == t {
      forall k | 0 <= k < |t| ensures t[k] in s {
        assert t[k] == s[k];
      }
    } else {
      ContainsChars(s[1..], t);
    }
  }

  /** A string lacking one of the characters of `t` does not contain `t`. */
  lemma NotContains(s: string, t: string, k: nat)
    requires k < |t| && t[k] !in s
    ensures !Contains(s, t)
  {
    if Contains(s, t) {
      ContainsChars(s, t);
    }
  }

  /** Whatever a suffix of `s` contains, `s` contains. */
  lemma {:induction false} ContainsSuffix(s: string, i: nat, t: string)
    requires i <= |s| && Contains(s[i..], t)
    ensures Contains(s, t)
    decreases i
  {
    if i > 0 {
      assert s[i - 1..][1..] == s[i..];
      ContainsSuffix(s, i - 1, t);
    } else {
      assert s[0..] == s;
    }
  }

  /** Stripping only removes characters. */
  lemma StripKeepsChars(s: string)
    ensures forall c :: c in Strip(s) ==> c in s
  {
    var v := TrimStart(s);
    var u := TrimEnd(v);
    forall i | 0 <= i < |u| ensures u[i] in s {
      assert u[i] == v[i];
      assert v[i] == s[|s| - |v| + i];
    }
  }

  /** A string without upper-case letters is its own lower-case form. */
  lemma LowerOfLower(s: string)
    requires forall i :: 0 <= i < |s| ==> !IsUpper(s[i])
    ensures Lower(s) == s
  {
  }

  /** A string that starts and ends with a non-space character is already stripped. */
  lemma StripOfTrimmed(s: string)
    requires |s| > 0 && !IsSpace(s[0]) && !IsSpace(s[|s| - 1])
    ensures Strip(s) == s
  {
  }
}
