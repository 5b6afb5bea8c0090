/** Character classes and the syntax of Rust's number parsing, over `string = seq<char>`.

    Rust's `char::is_alphabetic`/`is_alphanumeric` follow Unicode; the model takes their
    ASCII part. `char::is_digit(10)` is ASCII-only in Rust as well.
 */
module Text {
  import opened Outcomes

  predicate IsDigit(c: char) {
    '0' <= c <= '9'
  }

  predicate IsAlphabetic(c: char) {
    'a' <= c <= 'z' || 'A' <= c <= 'Z'
  }

  predicate IsAlphanumeric(c: char) {
    IsAlphabetic(c) || IsDigit(c)
  }

  function AsciiLower(c: char): char {
    if 'A' <= c <= 'Z' then (c as int + 32) as char else c
  }

  /** `s.eq_ignore_ascii_case(word)` for a lower-case `word`. */
  predicate EqIgnoreAsciiCase(s: string, word: string) {
    |s| == |word| && forall k :: 0 <= k < |s| ==> AsciiLower(s[k]) == word[k]
  }

  predicate AllDigits(s: string) {
    forall k :: 0 <= k < |s| ==> IsDigit(s[k])
  }

  /** The characters a number lexeme is made of: digits and dots. */
  predicate IsNumberChar(c: char) {
    IsDigit(c) || c == '.'
  }

  predicate AllNumberChars(s: string) {
    forall k :: 0 <= k < |s| ==> IsNumberChar(s[k])
  }

  predicate HasDigit(s: string) {
    exists k :: 0 <= k < |s| && IsDigit(s[k])
  }

  /** The index of the first `e` or `E` in `s`, or `|s|`. */
  function ExponentMark(s: string): (e: nat)
    ensures e <= |s|
    ensures forall k :: 0 <= k < e ==> s[k] != 'e' && s[k] != 'E'
    ensures e < |s| ==> s[e] == 'e' || s[e] == 'E'
  {
    if |s| == 0 then 0
    else if s[0] == 'e' || s[0] == 'E' then 0
    else 1 + ExponentMark(s[1..])
  }

  /** Digits with at most one dot and at least one digit: `1`, `1.`, `.5`, `1.25`. */
  predicate IsMantissa(m: string) {
    AllNumberChars(m) && multiset(m)['.'] <= 1 && HasDigit(m)
  }

  /** An exponent after `e`: an optional sign, then one or more digits. */
  predicate IsExponent(x: string) {
    var digits := if |x| > 0 && (x[0] == '+' || x[0] == '-') then x[1..] else x;
    |digits| > 0 && AllDigits(digits)
  }

  predicate IsDecimal(s: string) {
    var e := ExponentMark(s);
    IsMantissa(s[..e]) && (e == |s| || IsExponent(s[e + 1..]))
  }

  /** The text `str::parse::<f64>` accepts: an optional sign, then `inf`, `infinity` or
      `nan` in any case, or a decimal number with an optional exponent. */
  predicate IsFloatText(s: string) {
    var body := if |s| > 0 && (s[0] == '+' || s[0] == '-') then s[1..] else s;
    EqIgnoreAsciiCase(body, "inf") || EqIgnoreAsciiCase(body, "infinity") ||
    EqIgnoreAsciiCase(body, "nan") || IsDecimal(body)
  }

  /** The empty text is no number. */
  lemma EmptyIsNoFloat()
    ensures !IsFloatText("")
  {
    assert !HasDigit("");
    assert ExponentMark("") == 0;
  }

  /** On a run of digits and dots, `f64` parsing succeeds exactly when there is at most
      one dot and at least one digit: `.` and `1.2.3` are rejected. */
  lemma NumberRunIsFloat(s: string)
    requires AllNumberChars(s)
    ensures IsFloatText(s) <==> multiset(s)['.'] <= 1 && HasDigit(s)
  {
    if |s| > 0 {
      assert s[0] != '+' && s[0] != '-';
      assert AsciiLower(s[0]) == s[0];
      assert "inf"[0] == 'i' && "infinity"[0] == 'i' && "nan"[0] == 'n';
    }
    var e := ExponentMark(s);
    assert e < |s| ==> IsNumberChar(s[e]);
    assert s[..|s|] == s;
  }

  /** `str::parse::<usize>`: an optional `+`, then one or more ASCII digits. */
  predicate IsUsizeText(s: string) {
    var digits := if |s| > 0 && s[0] == '+' then s[1..] else s;
    |digits| > 0 && AllDigits(digits)
  }

  /** The value of a run of decimal digits. */
  function DigitsValue(s: string): (v: nat)
    requires AllDigits(s)
  {
    if |s| == 0 then 0 else 10 * DigitsValue(s[..|s| - 1]) + (s[|s| - 1] as int - '0' as int)
  }

  /** The number `str::parse::<usize>` reads from `s` (overflow is not modelled). */
  function UsizeValue(s: string): nat
    requires IsUsizeText(s)
  {
    if s[0] == '+' then DigitsValue(s[1..]) else DigitsValue(s)
  }

  /** `str::parse` into an unsigned integer of `width` bits: `None` on malformed text and on
      overflow. */
  function ParseUnsigned(s: string, width: nat): (r: Option<nat>)
    ensures r.Some? <==> IsUsizeText(s) && UsizeValue(s) < Pow2(width)
    ensures r.Some? ==> r.value == UsizeValue(s)
  {
    if IsUsizeText(s) && UsizeValue(s) < Pow2(width) then Some(UsizeValue(s)) else None
  }

  function Pow2(n: nat): (p: nat)
    ensures p >= 1
  {
    if n == 0 then 1 else 2 * Pow2(n - 1)
  }

  /** The index of the first `c` in `s`, or `|s|`. */
  function IndexOfChar(s: string, c: char): (i: nat)
    ensures i <= |s|
    ensures forall k :: 0 <= k < i ==> s[k] != c
    ensures i < |s| ==> s[i] == c
  {
    if |s| == 0 || s[0] == c then 0 else 1 + IndexOfChar(s[1..], c)
  }

  /** The digits of a number lexeme before its dot, and those after it. */
  function IntegerDigits(s: string): string {
    s[..IndexOfChar(s, '.')]
  }

  function FractionDigits(s: string): string {
    var i := IndexOfChar(s, '.');
    if i < |s| then s[i + 1..] else ""
  }

  predicate AllZeros(s: string) {
    forall k :: 0 <= k < |s| ==> s[k] == '0'
  }

  /** `d` without its leading zeros. */
  function TrimLeadingZeros(d: string): (r: string)
    ensures |r| <= |d| && r == d[|d| - |r|..]
    ensures AllZeros(d[..|d| - |r|])
    ensures |r| > 0 ==> r[0] != '0'
  {
    if |d| > 0 && d[0] == '0' then
      var r := TrimLeadingZeros(d[1..]);
      assert d[1..][|d| - 1 - |r|..] == d[|d| - |r|..];
      assert forall k :: 1 <= k < |d| - |r| ==> d[k] == d[1..][..|d| - 1 - |r|][k - 1];
      r
    else d
  }

  /** `d` without its trailing zeros. */
  function TrimTrailingZeros(d: string): (r: string)
    ensures |r| <= |d| && r == d[..|r|]
    ensures AllZeros(d[|r|..])
    ensures |r| > 0 ==> r[|r| - 1] != '0'
  {
    if |d| > 0 && d[|d| - 1] == '0' then
      var r := TrimTrailingZeros(d[..|d| - 1]);
      assert d[..|d| - 1][..|r|] == d[..|r|];
      assert forall k :: |r| <= k < |d| - 1 ==> d[k] == d[..|d| - 1][|r|..][k - |r|];
      r
    else d
  }

  /** The integer part of a number lexeme as `Display` writes it: `0` when it is empty or
      all zeros. */
  function WholeText(s: string): string {
    var whole := TrimLeadingZeros(IntegerDigits(s));
    if whole == "" then "0" else whole
  }

  /** The fractional digits as `Display` writes them: empty for an integral value. */
  function FractionText(s: string): string {
    TrimTrailingZeros(FractionDigits(s))
  }

  /** The text `f64`'s `Display` gives for the value of a number lexeme (digits and one
      optional dot): no leading zeros, no trailing fractional zeros, no dot for an integer. */
  function FloatDisplay(s: string): string {
    WholeText(s) + (if FractionText(s) == "" then "" else "." + FractionText(s))
  }

  /** The integer part of the value of a number lexeme, unbounded. */
  function IntegerValue(s: string): nat
    requires AllNumberChars(s)
  {
    assert forall k :: 0 <= k < |IntegerDigits(s)| ==> IntegerDigits(s)[k] == s[k];
    DigitsValue(IntegerDigits(s))
  }

  /** `usize::MAX`, 2^64 - 1. */
  const USIZE_MAX: nat := 0xFFFF_FFFF_FFFF_FFFF

  /** `as usize` applied to the value of a number lexeme: the integer part, saturated at
      `usize::MAX` as Rust's float-to-integer casts do. */
  function TruncateToIndex(s: string): (i: nat)
    requires AllNumberChars(s)
    ensures i <= USIZE_MAX
    ensures IntegerValue(s) <= USIZE_MAX ==> i == IntegerValue(s)
    ensures IntegerValue(s) > USIZE_MAX ==> i == USIZE_MAX
  {
    if IntegerValue(s) <= USIZE_MAX then IntegerValue(s) else USIZE_MAX
  }

  function Pow10(n: nat): (p: nat)
    ensures p >= 1
  {
    if n == 0 then 1 else 10 * Pow10(n - 1)
  }

  lemma AllDigitsAppend(a: string, b: string)
    requires AllDigits(a) && AllDigits(b)
    ensures AllDigits(a + b)
  {
    forall k | 0 <= k < |a + b| ensures IsDigit((a + b)[k]) {
      if k < |a| { assert (a + b)[k] == a[k]; } else { assert (a + b)[k] == b[k - |a|]; }
    }
  }

  /** Appending a digit `d` to `x * p + y` multiplies the whole by ten. */
  lemma ShiftDigit(x: int, p: int, y: int, d: int)
    ensures 10 * (x * p + y) + d == x * (10 * p) + (10 * y + d)
  {
  }

  lemma {:induction false} DigitsValueAppend(a: string, b: string)
    requires AllDigits(a) && AllDigits(b)
    ensures AllDigits(a + b)
    ensures DigitsValue(a + b) == DigitsValue(a) * Pow10(|b|) + DigitsValue(b)
    decreases |b|
  {
    AllDigitsAppend(a, b);
    if |b| > 0 {
      var b' := b[..|b| - 1];
      var d := b[|b| - 1] as int - '0' as int;
      assert (a + b)[..|a + b| - 1] == a + b';
      assert (a + b)[|a + b| - 1] == b[|b| - 1];
      DigitsValueAppend(a, b');
      ShiftDigit(DigitsValue(a), Pow10(|b'|), DigitsValue(b'), d);
    } else {
      assert a + b == a;
    }
  }

  lemma {:induction false} ZerosValue(z: string)
    requires AllZeros(z)
    ensures AllDigits(z) && DigitsValue(z) == 0
    decreases |z|
  {
    if |z| > 0 {
      ZerosValue(z[..|z| - 1]);
    }
  }

  lemma WholeTextValue(s: string)
    requires AllNumberChars(s)
    ensures |WholeText(s)| > 0 && AllDigits(WholeText(s))
    ensures DigitsValue(WholeText(s)) == IntegerValue(s)
  {
    var digits := IntegerDigits(s);
    assert AllDigits(digits) by {
      forall k | 0 <= k < |digits| ensures IsDigit(digits[k]) {
        assert digits[k] == s[k];
      }
    }
    var whole := TrimLeadingZeros(digits);
    assert AllDigits(whole) by {
      forall k | 0 <= k < |whole| ensures IsDigit(whole[k]) {
        assert whole[k] == digits[|digits| - |whole| + k];
      }
    }
    var zeros := digits[..|digits| - |whole|];
    assert digits == zeros + whole;
    ZerosValue(zeros);
    DigitsValueAppend(zeros, whole);
    assert DigitsValue(digits) == DigitsValue(whole);
    assert IntegerValue(s) == DigitsValue(digits);
    if whole == "" {
      assert WholeText(s) == "0";
      assert DigitsValue("0") == 10 * DigitsValue("") + 0;
    } else {
      assert WholeText(s) == whole;
    }
  }

  lemma FractionTextEmpty(s: string)
    ensures FractionText(s) == "" <==> AllZeros(FractionDigits(s))
  {
    var f := FractionDigits(s);
    var r := FractionText(s);
    if r != "" {
      assert r[|r| - 1] == f[|r| - 1];
    } else {
      assert f[|r|..] == f;
    }
  }

  /** The `Display` text of a number lexeme parses back as a `usize` exactly when the
      lexeme has no non-zero fractional digit, and then it reads back the lexeme's integer
      part. */
  lemma DisplayParsesAsIndex(s: string)
    requires AllNumberChars(s)
    ensures IsUsizeText(FloatDisplay(s)) <==> AllZeros(FractionDigits(s))
    ensures IsUsizeText(FloatDisplay(s)) ==> UsizeValue(FloatDisplay(s)) == IntegerValue(s)
  {
    WholeTextValue(s);
    FractionTextEmpty(s);
    var shown := WholeText(s);
    var display := FloatDisplay(s);
    if FractionText(s) == "" {
      assert display == shown;
    } else {
      assert display[|shown|] == '.';
      assert display[0] == shown[0];
    }
  }
}
