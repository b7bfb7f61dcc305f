/**
 * The few java.lang.String operations the engine relies on, written out over
 * `seq<char>`: suffix tests, the two `lastIndexOf` overloads, single-character
 * `replace`, blankness, and the decimal rendering of an `int`
 * (`String.valueOf(int)`, which is also what `%d` prints).
 */
module Strings {

  /** String.endsWith */
  predicate EndsWith(s: string, suffix: string) {
    |suffix| <= |s| && s[|s| - |suffix|..] == suffix
  }

  /** String.lastIndexOf(char): the position of the last `c` in `s`, or -1 when there is none. */
  function LastIndexOf(s: string, c: char): (r: int)
    ensures -1 <= r < |s|
    ensures r >= 0 ==> s[r] == c
    ensures forall k :: r < k < |s| ==> s[k] != c
  {
    if s == [] then -1
    else if s[|s| - 1] == c then |s| - 1
    else LastIndexOf(s[..|s| - 1], c)
  }

  /** `t` occurs in `s` starting at position `k`. */
  predicate OccursAt(s: string, t: string, k: int) {
    0 <= k && k + |t| <= |s| && s[k..k + |t|] == t
  }

  /** The largest position at or below `k` where `t` occurs in `s`, or -1. */
  function LastOccurrenceUpTo(s: string, t: string, k: int): (r: int)
    requires k + |t| <= |s|
    ensures r == -1 || (r <= k && OccursAt(s, t, r))
    ensures forall j :: r < j <= k ==> !OccursAt(s, t, j)
    decreases k + 1
  {
    if k < 0 then -1
    else if s[k..k + |t|] == t then k
    else LastOccurrenceUpTo(s, t, k - 1)
  }

  /** String.lastIndexOf(String): the last position where `t` occurs in `s`, or -1. */
  function LastIndexOfString(s: string, t: string): (r: int)
    ensures r == -1 || OccursAt(s, t, r)
    ensures forall j :: r < j ==> !OccursAt(s, t, j)
  {
    LastOccurrenceUpTo(s, t, |s| - |t|)
  }

  /** When `s` ends with `t`, the last occurrence of `t` is that trailing one. */
  lemma LastIndexOfTrailing(s: string, t: string)
    requires EndsWith(s, t)
    ensures LastIndexOfString(s, t) == |s| - |t|
  {
    assert OccursAt(s, t, |s| - |t|);
  }

  /** Blank as the test platform checks it: `trim()` leaves nothing, so every character is at most U+0020. */
  predicate IsBlank(s: string) {
    forall i :: 0 <= i < |s| ==> s[i] <= ' '
  }

  /** String.replace for a one-character target and replacement. */
  function ReplaceChar(s: string, from: char, to: char): (r: string)
    ensures |r| == |s|
  {
    seq(|s|, i requires 0 <= i < |s| => if s[i] == from then to else s[i])
  }

  /**
   * What the replacement does to each character: the target becomes the
   * replacement and every other character is kept, so no target is left when
   * the two differ. Stated apart from the function so that its callers do not
   * carry the quantifier.
   */
  lemma ReplaceCharReplaces(s: string, from: char, to: char)
    ensures forall i :: 0 <= i < |s| ==> ReplaceChar(s, from, to)[i] == (if s[i] == from then to else s[i])
    ensures from != to ==> from !in ReplaceChar(s, from, to)
  {
  }

  predicate IsDigit(c: char) {
    '0' <= c <= '9'
  }

  predicate AllDigits(s: string) {
    forall i :: 0 <= i < |s| ==> IsDigit(s[i])
  }

  function DigitChar(d: int): (c: char)
    requires 0 <= d < 10
    ensures IsDigit(c) && c as int - '0' as int == d
  {
    ('0' as int + d) as char
  }

  /** The digits of a natural number, most significant first, without leading zeros. */
  function Digits(n: nat): (s: string)
    ensures |s| >= 1 && AllDigits(s)
    ensures n >= 10 ==> |s| >= 2
    ensures n == 0 ==> s == "0"
    ensures n > 0 ==> s[0] != '0'
  {
    if n < 10 then [DigitChar(n)] else Digits(n / 10) + [DigitChar(n % 10)]
  }

  /** String.valueOf(int) and Integer.toString(int): a minus sign for negatives, then the digits. */
  function DecimalString(n: int): (s: string)
    ensures |s| >= 1
    ensures s[0] == '-' <==> n < 0
    ensures forall i :: 0 <= i < |s| ==> IsDigit(s[i]) || (i == 0 && s[i] == '-')
    ensures n == 0 ==> s == "0"
    ensures n > 0 ==> s[0] != '0'
    ensures n < 0 ==> |s| >= 2 && s[1] != '0'
  {
    if n < 0 then "-" + Digits(-n) else Digits(n)
  }

  /** Reads a digit string back as a number (the reference the rendering is checked against). */
  function DigitsValue(s: string): nat
    requires AllDigits(s)
  {
    if s == [] then 0 else DigitsValue(s[..|s| - 1]) * 10 + (s[|s| - 1] as int - '0' as int)
  }

  /** Integer.parseInt on the texts DecimalString produces. */
  function DecimalValue(s: string): int
    requires |s| >= 1
    requires forall i :: 0 <= i < |s| ==> IsDigit(s[i]) || (i == 0 && s[i] == '-')
  {
    if s[0] == '-' then -(DigitsValue(s[1..]) as int) else DigitsValue(s)
  }

  lemma {:induction false} DigitsRoundTrip(n: nat)
    ensures DigitsValue(Digits(n)) == n
  {
    if n >= 10 {
      DigitsRoundTrip(n / 10);
      var s := Digits(n);
      assert s[..|s| - 1] == Digits(n / 10);
    }
  }

  /** Reading the decimal rendering of `n` back gives `n`. */
  lemma DecimalRoundTrip(n: int)
    ensures DecimalValue(DecimalString(n)) == n
  {
    if n < 0 {
      DigitsRoundTrip(-n);
      assert DecimalString(n)[1..] == Digits(-n);
    } else {
      DigitsRoundTrip(n);
    }
  }

  /** Distinct numbers have distinct decimal renderings. */
  lemma DecimalStringInjective(a: int, b: int)
    ensures DecimalString(a) == DecimalString(b) ==> a == b
  {
    DecimalRoundTrip(a);
    DecimalRoundTrip(b);
  }
}
