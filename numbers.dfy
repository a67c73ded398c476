/**
 * Integer text conversion as Rust's `str::parse` and `i64::to_string` do it, the
 * integer ranges of the fixed-width types the engine uses, and a symbolic model of
 * `f64` values.
 */
module Numbers {
  import opened Diag

  const I16_MIN: int := -0x8000
  const I16_MAX: int := 0x7FFF
  const I32_MIN: int := -0x8000_0000
  const I32_MAX: int := 0x7FFF_FFFF
  const I64_MIN: int := -0x8000_0000_0000_0000
  const I64_MAX: int := 0x7FFF_FFFF_FFFF_FFFF
  const U16_MAX: int := 0xFFFF
  const U32_MAX: int := 0xFFFF_FFFF
  const USIZE_MAX: int := 0xFFFF_FFFF_FFFF_FFFF

  /** Rust's fixed-width integer types, as ranges of mathematical integers. */
  type I16 = x: int | I16_MIN <= x <= I16_MAX
  type I32 = x: int | I32_MIN <= x <= I32_MAX
  type U16 = x: int | 0 <= x <= U16_MAX
  type U32 = x: int | 0 <= x <= U32_MAX

  predicate IsDigit(c: char) { '0' <= c <= '9' }

  predicate AllDigits(s: string) { forall k :: 0 <= k < |s| ==> IsDigit(s[k]) }

  function DigitChar(d: nat): (c: char)
    requires d < 10
    ensures IsDigit(c) && c as int - '0' as int == d
  {
    ('0' as int + d) as char
  }

  /** The number the digits `s[start..stop]` write, most significant first; None when one of them is not a digit. */
  function DigitsIn(s: string, start: nat, stop: nat): (r: Option<nat>)
    requires start < stop <= |s|
    ensures r.Some? ==> IsDigit(s[start])
    decreases stop
  {
    if !IsDigit(s[stop - 1]) then None
    else if stop == start + 1 then Some(s[start] as int - '0' as int)
    else
      match DigitsIn(s, start, stop - 1)
      case None => None
      case Some(v) => Some(v * 10 + (s[stop - 1] as int - '0' as int))
  }

  /** The number a string of one or more ASCII digits writes; None for any other string. */
  function Digits(s: string): (r: Option<nat>)
    ensures r.Some? ==> |s| > 0 && IsDigit(s[0])
  {
    if s == [] then None else DigitsIn(s, 0, |s|)
  }

  /**
   * `s.parse::<T>()` for an integer type `T` whose range is `lo..=hi`: an optional
   * `+`, or `-` when `T` is signed, then one or more ASCII digits, and the value must
   * lie in the range; anything else is a parse error (None).
   */
  function ParseInt(s: string, lo: int, hi: int): (r: Option<int>)
    ensures r.Some? ==> lo <= r.value <= hi
    ensures r.Some? ==> |s| > 0 && (IsDigit(s[0]) || s[0] == '+' || (s[0] == '-' && lo < 0))
  {
    var signed := |s| > 0 && (s[0] == '+' || (s[0] == '-' && lo < 0));
    var from := if signed then 1 else 0;
    if from == |s| then None
    else
      match DigitsIn(s, from, |s|)
      case None => None
      case Some(d) =>
        var n: int := if signed && s[0] == '-' then 0 - d else d;
        if lo <= n <= hi then Some(n) else None
  }

  /** Decimal digits of a natural number, without leading zeros. */
  function NatText(n: nat): (s: string)
    ensures |s| >= 1 && AllDigits(s)
  {
    if n < 10 then [DigitChar(n)] else NatText(n / 10) + [DigitChar(n % 10)]
  }

  /** `i64::to_string`: a `-` for negative numbers, then the decimal digits. */
  function IntText(i: int): (s: string)
    ensures |s| >= 1
  {
    if i < 0 then "-" + NatText(-i) else NatText(i)
  }

  /** Equal runs of characters write the same number, wherever they stand. */
  lemma {:induction false} DigitsInSame(s: string, f: nat, t: string, g: nat, n: nat)
    requires 0 < n && f + n <= |s| && g + n <= |t|
    requires s[f..f + n] == t[g..g + n]
    ensures DigitsIn(s, f, f + n) == DigitsIn(t, g, g + n)
    decreases n
  {
    assert s[f + n - 1] == s[f..f + n][n - 1] && t[g + n - 1] == t[g..g + n][n - 1];
    assert s[f] == s[f..f + n][0] && t[g] == t[g..g + n][0];
    if n > 1 {
      assert s[f..f + n - 1] == s[f..f + n][..n - 1];
      assert t[g..g + n - 1] == t[g..g + n][..n - 1];
      DigitsInSame(s, f, t, g, n - 1);
    }
  }

  lemma {:induction false} NatTextValue(n: nat)
    ensures Digits(NatText(n)) == Some(n)
  {
    if n >= 10 {
      var s := NatText(n);
      var init := NatText(n / 10);
      NatTextValue(n / 10);
      assert s == init + [DigitChar(n % 10)];
      assert s[0..|init|] == init[0..|init|];
      DigitsInSame(s, 0, init, 0, |init|);
    }
  }

  /** Printing an integer and parsing the text back gives the integer again. */
  lemma {:induction false} ParseIntText(i: int, lo: int, hi: int)
    requires lo <= i <= hi
    requires i < 0 ==> lo < 0
    ensures ParseInt(IntText(i), lo, hi) == Some(i)
  {
    var s := IntText(i);
    if i < 0 {
      var t := NatText(-i);
      NatTextValue(-i);
      assert s == "-" + t;
      assert s[1..1 + |t|] == t[0..|t|];
      DigitsInSame(s, 1, t, 0, |t|);
    } else {
      NatTextValue(i);
      assert s == NatText(i) && IsDigit(s[0]);
    }
  }

  /** The index of the first character of `s` that is in `cs`, or `|s|` when there is none. */
  function FirstOf(s: string, cs: set<char>): (i: nat)
    ensures i <= |s|
    ensures forall k :: 0 <= k < i ==> s[k] !in cs
    ensures i < |s| ==> s[i] in cs
  {
    if s == [] || s[0] in cs then 0 else 1 + FirstOf(s[1..], cs)
  }

  /** ASCII letters folded to lower case. */
  function LowerAscii(s: string): (r: string)
    ensures |r| == |s|
  {
    if s == [] then []
    else [if 'A' <= s[0] <= 'Z' then (s[0] as int + 32) as char else s[0]] + LowerAscii(s[1..])
  }

  /** An exponent after the `e`: an optional sign, then one or more digits. */
  predicate ExponentSyntax(x: string)
  {
    var digits := if |x| > 0 && (x[0] == '+' || x[0] == '-') then x[1..] else x;
    |digits| >= 1 && AllDigits(digits)
  }

  /** Digits with at most one '.', at least one digit in all, then an optional exponent. */
  predicate DecimalSyntax(s: string)
  {
    var e := FirstOf(s, {'e', 'E'});
    var mantissa := s[..e];
    var dot := FirstOf(mantissa, {'.'});
    var whole := mantissa[..dot];
    var fraction := if dot < |mantissa| then mantissa[dot + 1..] else "";
    AllDigits(whole) && AllDigits(fraction) && |whole| + |fraction| >= 1
    && (e == |s| || ExponentSyntax(s[e + 1..]))
  }

  /**
   * The texts `s.parse::<f64>()` accepts: an optional sign, then either a decimal
   * number or one of `inf`, `infinity`, `nan` in any letter case.
   */
  predicate FloatSyntax(s: string): (ok: bool)
    ensures ok ==> |s| >= 1
  {
    var body := if |s| > 0 && (s[0] == '+' || s[0] == '-') then s[1..] else s;
    LowerAscii(body) in {"inf", "infinity", "nan"} || DecimalSyntax(body)
  }

  /** Every non-empty run of digits, the text of any natural number, also reads as a float. */
  lemma {:induction false} DigitsAreFloat(s: string)
    requires |s| >= 1 && AllDigits(s)
    ensures FloatSyntax(s)
  {
    assert forall k :: 0 <= k < |s| ==> s[k] !in {'e', 'E', '.'};
    var e := FirstOf(s, {'e', 'E'});
    var dot := FirstOf(s[..e], {'.'});
    assert e == |s| && dot == |s|;
    assert s[..e][..dot] == s;
    assert DecimalSyntax(s);
  }

  /** A signed integer and a number with an exponent are floats. */
  lemma {:induction false} FloatsAccepted()
    ensures FloatSyntax("-3") && FloatSyntax("1e3")
  {
  }

  /** The empty text, a lone dot and a word are not floats. */
  lemma {:induction false} FloatsRejected()
    ensures !FloatSyntax("") && !FloatSyntax(".") && !FloatSyntax("big")
  {
    assert LowerAscii("big")[0] == 'b';
    assert FirstOf("big", {'e', 'E'}) == 3;
    assert "big"[0] == 'b';
  }

  /**
   * An `f64`, kept as the symbolic term that produced it: floating-point arithmetic
   * and formatting are not modelled, so two terms are equal exactly when the same
   * operations were applied to the same inputs.
   */
  datatype F64 =
    | Parsed(text: string)          // `text.parse::<f64>()`, or 0.0 when that fails
    | FromInt(i: int)               // `i as f64`
    | Sum(a: F64, b: F64)
    | Difference(a: F64, b: F64)
    | Product(a: F64, b: F64)
    | Quotient(a: F64, b: F64)
    | Negated(a: F64)

  /** `0.0`, the `Default` of `f64`. */
  const Zero: F64 := FromInt(0)

  /** The text a float renders to; the model spells out the term that produced it. */
  function FloatText(f: F64): string
  {
    match f
    case Parsed(t) => t
    case FromInt(i) => IntText(i)
    case Sum(a, b) => "(" + FloatText(a) + "+" + FloatText(b) + ")"
    case Difference(a, b) => "(" + FloatText(a) + "-" + FloatText(b) + ")"
    case Product(a, b) => "(" + FloatText(a) + "*" + FloatText(b) + ")"
    case Quotient(a, b) => "(" + FloatText(a) + "/" + FloatText(b) + ")"
    case Negated(a) => "-" + FloatText(a)
  }
}
