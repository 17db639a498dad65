/**
 * String helpers standing in for the parts of Rust's `str` the line processor uses:
 * `trim_end`, and searches for a character or a run of ASCII digits.
 */
module Text {
  import opened Wrappers

  /**
   * Rust's `char::is_whitespace`, the test `str::trim_end` applies: the characters
   * with the Unicode White_Space property, listed out.
   */
  predicate IsWhitespace(c: char) {
    ('\t' <= c <= '\r') || c == ' ' || c == '\U{85}' || c == '\U{A0}' || c == '\U{1680}'
    || ('\U{2000}' <= c <= '\U{200A}') || c == '\U{2028}' || c == '\U{2029}'
    || c == '\U{202F}' || c == '\U{205F}' || c == '\U{3000}'
  }

  /** True when `s` is empty or does not end in whitespace: what `trim_end` leaves behind. */
  predicate EndsClean(s: string) {
    s == [] || !IsWhitespace(s[|s| - 1])
  }

  /**
   * `str::trim_end`: `s` without its trailing whitespace. The result is a prefix of `s`,
   * everything removed is whitespace, and what is left does not end in whitespace.
   */
  function TrimEnd(s: string): (r: string)
    ensures |r| <= |s| && r == s[..|r|]
    ensures forall i :: |r| <= i < |s| ==> IsWhitespace(s[i])
    ensures EndsClean(r)
  {
    if EndsClean(s) then s else TrimEnd(s[..|s| - 1])
  }

  /** A string that ends clean is its own `trim_end`. */
  lemma TrimEndOfClean(s: string)
    requires EndsClean(s)
    ensures TrimEnd(s) == s
  {
  }

  /** Trimming twice is trimming once. */
  lemma TrimEndIdempotent(s: string)
    ensures TrimEnd(TrimEnd(s)) == TrimEnd(s)
  {
    TrimEndOfClean(TrimEnd(s));
  }

  /**
   * Trimming never reaches past a non-whitespace character: trailing whitespace
   * after a head that ends clean is removed from the tail alone.
   */
  lemma {:induction false} TrimEndAppend(s: string, t: string)
    requires EndsClean(s)
    ensures TrimEnd(s + t) == s + TrimEnd(t)
    decreases |t|
  {
    if t == [] {
      assert s + t == s;
    } else if EndsClean(t) {
      assert (s + t)[|s + t| - 1] == t[|t| - 1];
    } else {
      assert (s + t)[..|s + t| - 1] == s + t[..|t| - 1];
      TrimEndAppend(s, t[..|t| - 1]);
    }
  }

  /** The index of the first `c` in `s`, if there is one. */
  function FirstIndex(s: string, c: char): (r: Option<nat>)
    ensures r.Some? ==> r.value < |s| && s[r.value] == c && c !in s[..r.value]
    ensures r.None? <==> c !in s
  {
    if s == [] then None
    else if s[0] == c then Some(0)
    else
      match FirstIndex(s[1..], c)
      case None => None
      case Some(k) =>
        assert s[..k + 1] == [s[0]] + s[1..][..k];
        Some(k + 1)
  }

  /** The index of the last `c` in `s`, if there is one. */
  function LastIndex(s: string, c: char): (r: Option<nat>)
    ensures r.Some? ==> r.value < |s| && s[r.value] == c && c !in s[r.value + 1..]
    ensures r.None? <==> c !in s
  {
    if s == [] then None
    else if s[|s| - 1] == c then Some(|s| - 1)
    else
      match LastIndex(s[..|s| - 1], c)
      case None =>
        assert s == s[..|s| - 1] + [s[|s| - 1]];
        None
      case Some(k) =>
        assert s[k + 1..] == s[..|s| - 1][k + 1..] + [s[|s| - 1]];
        Some(k)
  }

  /** `[0-9]` in a Rust regex: an ASCII digit. */
  predicate IsDigit(c: char) {
    '0' <= c <= '9'
  }

  /** A non-empty run of ASCII digits, what `[0-9]+` matches. */
  predicate IsNumeral(s: string) {
    |s| > 0 && forall i :: 0 <= i < |s| ==> IsDigit(s[i])
  }

  /** The length of the longest run of digits at the start of `s` (what greedy `[0-9]+` takes). */
  function DigitRun(s: string): (n: nat)
    ensures n <= |s|
    ensures forall i :: 0 <= i < n ==> IsDigit(s[i])
    ensures n == |s| || !IsDigit(s[n])
  {
    if s == [] || !IsDigit(s[0]) then 0 else 1 + DigitRun(s[1..])
  }

  /** A digit run stops exactly where the numeral at the head of the string ends. */
  lemma DigitRunOfNumeral(num: string, t: string)
    requires IsNumeral(num)
    requires t == [] || !IsDigit(t[0])
    ensures DigitRun(num + t) == |num|
  {
    var s := num + t;
    assert forall i :: 0 <= i < |num| ==> IsDigit(s[i]);
    assert |num| == |s| || !IsDigit(s[|num|]);
  }
}
