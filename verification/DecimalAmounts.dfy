/** Decimal printing and parsing of numbers, as JavaScript's big integers do it. */
module Decimals {
  import opened Wrappers
  import opened Division

  predicate IsDigit(c: char) {
    '0' <= c <= '9'
  }

  predicate AllDigits(s: string) {
    forall i :: 0 <= i < |s| ==> IsDigit(s[i])
  }

  function DigitChar(d: nat): (c: char)
    requires d < 10
    ensures IsDigit(c)
  {
    '0' + d as char
  }

  function DigitValue(c: char): (d: nat)
    requires IsDigit(c)
    ensures d < 10
  {
    (c - '0') as nat
  }

  function Pow10(k: nat): (p: nat)
    ensures p > 0
  {
    if k == 0 then 1 else 10 * Pow10(k - 1)
  }

  /** The number a string of digits denotes; the empty string denotes zero. */
  function Value(s: string): nat
    requires AllDigits(s)
  {
    if s == "" then 0 else Value(s[..|s| - 1]) * 10 + DigitValue(s[|s| - 1])
  }

  /** `toString` */
  function Digits(n: nat): (s: string)
    ensures AllDigits(s) && s != ""
  {
    if n < 10 then [DigitChar(n)] else Digits(n / 10) + [DigitChar(n % 10)]
  }

  /** `BigInt(s)` on unsigned decimal text; anything else is a syntax error. */
  function ParseBigInt(s: string): Option<nat> {
    if AllDigits(s) then Some(Value(s)) else None
  }

  function Zeros(k: nat): (s: string)
    ensures |s| == k && AllDigits(s)
  {
    if k == 0 then "" else Zeros(k - 1) + "0"
  }

  function PadStart(s: string, width: nat): string {
    if |s| >= width then s else Zeros(width - |s|) + s
  }

  function PadEnd(s: string, width: nat): string {
    if |s| >= width then s else s + Zeros(width - |s|)
  }

  function StripTrailingZeros(s: string): string {
    if s != "" && s[|s| - 1] == '0' then StripTrailingZeros(s[..|s| - 1]) else s
  }

  lemma {:induction false} DigitsValue(n: nat)
    ensures Value(Digits(n)) == n
  {
    if n >= 10 {
      DigitsValue(n / 10);
      var s := Digits(n);
      assert s[..|s| - 1] == Digits(n / 10);
    } else {
      assert Digits(n)[..0] == "";
    }
  }

  lemma {:induction false} PowAdd(a: nat, b: nat)
    ensures Pow10(a + b) == Pow10(a) * Pow10(b)
  {
    if a > 0 {
      PowAdd(a - 1, b);
      assert 10 * Pow10(a - 1 + b) == 10 * Pow10(a - 1) * Pow10(b);
    }
  }

  lemma {:induction false} ValueConcat(a: string, b: string)
    requires AllDigits(a) && AllDigits(b)
    ensures AllDigits(a + b) && Value(a + b) == Value(a) * Pow10(|b|) + Value(b)
  {
    if b == "" {
      assert a + b == a;
    } else {
      var init := b[..|b| - 1];
      ValueConcat(a, init);
      assert (a + b)[..|a + b| - 1] == a + init;
      ShiftDigit(Value(a), Pow10(|init|), Value(init), DigitValue(b[|b| - 1]));
    }
  }

  lemma ShiftDigit(a: nat, p: nat, v: nat, d: nat)
    ensures (a * p + v) * 10 + d == a * (10 * p) + (v * 10 + d)
  {
  }

  lemma {:induction false} ValueBound(s: string)
    requires AllDigits(s)
    ensures Value(s) < Pow10(|s|)
  {
    if s != "" {
      ValueBound(s[..|s| - 1]);
    }
  }

  lemma {:induction false} ZerosValue(k: nat)
    ensures Value(Zeros(k)) == 0
  {
    if k > 0 {
      ZerosValue(k - 1);
      assert Zeros(k)[..k - 1] == Zeros(k - 1);
    }
  }

  lemma PadStartValue(s: string, width: nat)
    requires AllDigits(s)
    ensures AllDigits(PadStart(s, width)) && Value(PadStart(s, width)) == Value(s)
  {
    if |s| < width {
      ValueConcat(Zeros(width - |s|), s);
      ZerosValue(width - |s|);
    }
  }

  lemma PadEndValue(s: string, width: nat)
    requires AllDigits(s) && |s| <= width
    ensures AllDigits(PadEnd(s, width)) && Value(PadEnd(s, width)) == Value(s) * Pow10(width - |s|)
  {
    if |s| < width {
      ValueConcat(s, Zeros(width - |s|));
      ZerosValue(width - |s|);
    }
  }

  lemma {:induction false} StripThenPad(s: string)
    requires AllDigits(s)
    ensures var t := StripTrailingZeros(s);
      |t| <= |s| && AllDigits(t) && Value(s) == Value(t) * Pow10(|s| - |t|)
  {
    if s != "" && s[|s| - 1] == '0' {
      var init := s[..|s| - 1];
      StripThenPad(init);
      var t := StripTrailingZeros(init);
      assert Value(t) * Pow10(|init| - |t|) * 10 == Value(t) * (10 * Pow10(|init| - |t|));
    }
  }

  /** Fewer digits than the bound leaves a number shorter than the width. */
  lemma {:induction false} DigitsWidth(n: nat, width: nat)
    requires n < Pow10(width) && width > 0
    ensures |Digits(n)| <= width
  {
    if n >= 10 {
      DigitsWidth(n / 10, width - 1);
    }
  }
}

/** The amounts shown to users and the amounts typed by them. */
module TokenAmounts {
  import opened Wrappers
  import opened Division
  import opened Decimals

  const STROOP_DECIMALS: nat := 7

  function FormatTokenAmount(n: nat, decimals: nat): string {
    var divisor := Pow10(decimals);
    FloorGreatest(n, divisor, 0);
    var frac := StripTrailingZeros(PadStart(Digits(n % divisor), decimals));
    if |frac| > 0 then Digits(n / divisor) + "." + frac else Digits(n / divisor)
  }

  /** The text before the first point. */
  function BeforePoint(s: string): string {
    if s == "" || s[0] == '.' then "" else [s[0]] + BeforePoint(s[1..])
  }

  /** The second part of splitting at points: what follows the first point, up to the next. */
  function AfterPoint(s: string): string {
    if s == "" then ""
    else if s[0] == '.' then BeforePoint(s[1..])
    else AfterPoint(s[1..])
  }

  function Take(s: string, count: nat): string {
    if |s| <= count then s else s[..count]
  }

  /** A whole part and a fraction, as a number of the smallest unit. */
  function Combined(whole: nat, frac: nat, unit: nat): nat {
    whole * unit + frac
  }

  /** The parse with a given number of decimals kept; nothing when a part is not a number. */
  function ParseAmount(text: string, decimals: nat): Option<nat> {
    var whole := ParseBigInt(BeforePoint(text));
    var frac := ParseBigInt(PadEnd(Take(AfterPoint(text), decimals), decimals));
    if whole.None? || frac.None? then None else Some(Combined(whole.value, frac.value, Pow10(decimals)))
  }

  /** `xlmToStroops` from the number's decimal text onward. */
  function XlmToStroops(text: string): Option<nat> {
    ParseAmount(text, STROOP_DECIMALS)
  }

  lemma {:induction false} SplitAtPoint(whole: string, tail: string)
    requires '.' !in whole && (tail == "" || tail[0] == '.')
    ensures BeforePoint(whole + tail) == whole
    ensures AfterPoint(whole + tail) == AfterPoint(tail)
  {
    if whole == "" {
      assert whole + tail == tail;
    } else {
      assert (whole + tail)[1..] == whole[1..] + tail;
      SplitAtPoint(whole[1..], tail);
      assert whole == [whole[0]] + whole[1..];
    }
  }

  lemma PartsOf(whole: string, frac: string)
    requires '.' !in whole && '.' !in frac
    ensures BeforePoint(whole + "." + frac) == whole && AfterPoint(whole + "." + frac) == frac
    ensures BeforePoint(whole) == whole && AfterPoint(whole) == ""
  {
    var tail := "." + frac;
    assert whole + "." + frac == whole + tail && tail[1..] == frac;
    SplitAtPoint(whole, tail);
    SplitAtPoint(frac, "");
    SplitAtPoint(whole, "");
    assert frac + "" == frac && whole + "" == whole;
  }

  /** The digits kept of a fraction, filled up to `k` of them. */
  function Kept(frac: string, k: nat): (part: string)
    requires AllDigits(frac)
    ensures AllDigits(part)
  {
    PadEnd(Take(frac, k), k)
  }

  lemma KeptOfShort(frac: string, k: nat)
    requires AllDigits(frac) && |frac| <= k
    ensures Value(Kept(frac, k)) == Value(frac) * Pow10(k - |frac|)
    ensures Pow10(k) == Pow10(k - |frac|) * Pow10(|frac|)
  {
    PadEndValue(frac, k);
    PowAdd(k - |frac|, |frac|);
  }

  lemma KeptOfNothing(k: nat)
    ensures Value(Kept("", k)) == 0
  {
    assert Kept("", k) == Zeros(k);
    ZerosValue(k);
  }

  lemma KeptOfLong(frac: string, k: nat) returns (rest: nat)
    requires AllDigits(frac) && |frac| > k
    ensures Value(frac) == Value(Kept(frac, k)) * Pow10(|frac| - k) + rest
    ensures rest < Pow10(|frac| - k)
    ensures Pow10(|frac|) == Pow10(k) * Pow10(|frac| - k)
  {
    var head, tail := frac[..k], frac[k..];
    assert frac == head + tail && Kept(frac, k) == head;
    ValueConcat(head, tail);
    ValueBound(tail);
    PowAdd(k, |frac| - k);
    rest := Value(tail);
  }

  /** `r` is the floor of `v * p / d`. */
  predicate IsFloorOf(r: int, v: int, p: int, d: int) {
    r * d <= v * p < (r + 1) * d
  }

  lemma FloorIsQuotient(r: int, v: int, p: int, d: int)
    requires d > 0
    ensures IsFloorOf(r, v, p, d) <==> r == v * p / d
  {
    assert (r + 1) * d == r * d + d;
    FloorBounds(v * p, d);
    if IsFloorOf(r, v, p, d) {
      FloorGreatest(v * p, d, r);
      FloorLeast(v * p, d, r);
    }
  }

  /**
   * The fraction's contribution: its first digits, read as if there were exactly that many. Here and
   * below the numbers are passed by name, which keeps their definitions out of the arithmetic.
   */
  lemma FractionFloor(frac: string, k: nat, f: nat, v: nat, d: nat, p: nat)
    requires AllDigits(frac)
    requires f == Value(frac) && v == Value(Kept(frac, k)) && d == Pow10(|frac|) && p == Pow10(k)
    ensures IsFloorOf(v, f, p, d)
  {
    if |frac| <= k {
      KeptOfShort(frac, k);
      ExactFraction(f, Pow10(k - |frac|), d);
    } else {
      var rest := KeptOfLong(frac, k);
      CutFraction(v, rest, p, Pow10(|frac| - k));
    }
  }

  lemma ExactFraction(v: nat, p: nat, q: nat)
    requires q > 0
    ensures IsFloorOf(v * p, v, p * q, q)
  {
    assert v * p * q == v * (p * q);
    assert (v * p + 1) * q == v * p * q + q;
  }

  lemma CutFraction(h: nat, r: nat, p: nat, q: nat)
    requires r < q && p > 0
    ensures IsFloorOf(h, h * q + r, p, p * q)
  {
    assert (h * q + r) * p == h * (p * q) + r * p by {
      assert (h * q + r) * p == h * q * p + r * p;
      assert h * q * p == h * (p * q);
    }
    MulGap(p, r, q);
    assert (h + 1) * (p * q) == h * (p * q) + p * q;
  }

  /** What the parse makes of a text whose parts are known. */
  lemma ParseSplit(text: string, whole: string, frac: string, k: nat)
    requires AllDigits(whole) && AllDigits(frac)
    requires BeforePoint(text) == whole && AfterPoint(text) == frac
    ensures ParseAmount(text, k) == Some(Combined(Value(whole), Value(Kept(frac, k)), Pow10(k)))
  {
  }

  lemma ParseOfParts(whole: string, frac: string, k: nat)
    requires AllDigits(whole) && AllDigits(frac)
    ensures ParseAmount(whole + "." + frac, k) == Some(Combined(Value(whole), Value(Kept(frac, k)), Pow10(k)))
  {
    PartsOf(whole, frac);
    ParseSplit(whole + "." + frac, whole, frac, k);
  }

  lemma ParseOfWhole(whole: string, k: nat)
    requires AllDigits(whole)
    ensures ParseAmount(whole, k) == Some(Value(whole) * Pow10(k))
  {
    PartsOf(whole, "");
    ParseSplit(whole, whole, "", k);
    KeptOfNothing(k);
  }

  lemma WholePlusFraction(t: nat, w: nat, f: nat, v: nat, d: nat, p: nat)
    requires t == w * d + f
    requires IsFloorOf(v, f, p, d)
    ensures IsFloorOf(Combined(w, v, p), t, p, d)
  {
    assert t * p == w * p * d + f * p by {
      assert (w * d + f) * p == w * d * p + f * p;
      assert w * d * p == w * p * d;
    }
    assert (w * p + v) * d == w * p * d + v * d;
    assert (w * p + v + 1) * d == w * p * d + (v + 1) * d;
  }

  lemma ScaledValue(whole: string, frac: string, k: nat, t: nat, w: nat, f: nat, v: nat, d: nat, p: nat)
    requires AllDigits(whole) && AllDigits(frac) && AllDigits(whole + frac)
    requires t == Value(whole + frac) && w == Value(whole) && f == Value(frac) && v == Value(Kept(frac, k))
    requires d == Pow10(|frac|) && p == Pow10(k)
    ensures IsFloorOf(Combined(w, v, p), t, p, d)
  {
    FractionFloor(frac, k, f, v, d, p);
    ValueConcat(whole, frac);
    WholePlusFraction(t, w, f, v, d, p);
  }

  lemma ParseIsFloorAt(text: string, whole: string, frac: string, k: nat, v: nat, p: nat, d: nat)
    requires AllDigits(whole) && AllDigits(frac) && AllDigits(whole + frac) && text == whole + "." + frac
    requires v == Value(whole + frac) && p == Pow10(k) && d == Pow10(|frac|)
    ensures ParseAmount(text, k).Some? && IsFloorOf(ParseAmount(text, k).value, v, p, d)
  {
    ParseOfParts(whole, frac, k);
    ScaledValue(whole, frac, k, v, Value(whole), Value(frac), Value(Kept(frac, k)), d, p);
  }

  /**
   * On any unsigned decimal text, with or without a fraction of any length, the result is the floor
   * of its value times ten to the seventh.
   */
  lemma ParseIsFloor(whole: string, frac: string)
    requires AllDigits(whole) && AllDigits(frac)
    ensures XlmToStroops(whole) == Some(Value(whole) * Pow10(STROOP_DECIMALS))
    ensures XlmToStroops(whole + "." + frac).Some? && AllDigits(whole + frac)
    ensures IsFloorOf(XlmToStroops(whole + "." + frac).value, Value(whole + frac),
                      Pow10(STROOP_DECIMALS), Pow10(|frac|))
  {
    ValueConcat(whole, frac);
    ParseIsFloorAt(whole + "." + frac, whole, frac, STROOP_DECIMALS,
                   Value(whole + frac), Pow10(STROOP_DECIMALS), Pow10(|frac|));
    ParseOfWhole(whole, STROOP_DECIMALS);
  }

  // JavaScript's exponent form

  /** What an exponent puts after the digits, in either sign; or nothing. */
  predicate IsSuffix(x: string) {
    x == "" || (x[0] == 'e' && '.' !in x)
  }

  /**
   * With fewer than seven digits after the mantissa's point the parse is an error; with seven or more
   * the exponent is dropped, and the result is that of the mantissa alone.
   */
  lemma ExponentDroppedIffLong(whole: string, frac: string, x: string)
    requires AllDigits(whole) && AllDigits(frac) && IsSuffix(x) && x != ""
    ensures XlmToStroops(whole + "." + (frac + x))
         == if |frac| >= STROOP_DECIMALS then XlmToStroops(whole + "." + frac) else None
  {
    var long := frac + x;
    PartsOf(whole, frac);
    PartsOf(whole, long);
    assert long[|frac|] == 'e';
    if |frac| >= STROOP_DECIMALS {
      assert Take(long, STROOP_DECIMALS) == Take(frac, STROOP_DECIMALS);
    } else {
      assert PadEnd(Take(long, STROOP_DECIMALS), STROOP_DECIMALS)[|frac|] == 'e';
    }
  }

  lemma WholeExponentFails(whole: string, x: string)
    requires AllDigits(whole) && IsSuffix(x) && x != ""
    ensures XlmToStroops(whole + x) == None
  {
    var plain := whole + x;
    PartsOf(plain, "");
    assert plain[|whole|] == 'e';
  }

  datatype Exponent = Exponent(negative: bool, size: nat)

  /** A number as JavaScript prints it: digits, perhaps a fraction, perhaps an exponent. */
  datatype Numeral = Numeral(whole: string, frac: string, exponent: Option<Exponent>)

  /** With an exponent there is one digit before the point, and it is not zero. */
  predicate NormalForm(n: Numeral) {
    && AllDigits(n.whole) && AllDigits(n.frac) && n.whole != ""
    && (n.exponent.Some? ==> |n.whole| == 1 && n.whole[0] != '0' && n.exponent.value.size >= 1)
  }

  function Suffix(e: Option<Exponent>): (x: string)
    ensures IsSuffix(x) && (x == "" <==> e.None?)
  {
    if e.None? then "" else (if e.value.negative then "e-" else "e+") + Digits(e.value.size)
  }

  function Text(n: Numeral): string {
    if n.frac == "" then n.whole + Suffix(n.exponent) else n.whole + "." + (n.frac + Suffix(n.exponent))
  }

  /** The number denoted, in stroops, is the value of all its digits times `Scale`, divided by `Divisor`. */
  function Scale(n: Numeral): nat {
    Pow10(STROOP_DECIMALS + if n.exponent.Some? && !n.exponent.value.negative then n.exponent.value.size else 0)
  }

  function Divisor(n: Numeral): nat {
    Pow10(|n.frac| + if n.exponent.Some? && n.exponent.value.negative then n.exponent.value.size else 0)
  }

  predicate ReadsRight(n: Numeral)
    requires NormalForm(n)
  {
    && AllDigits(n.whole + n.frac)
    && XlmToStroops(Text(n)).Some?
    && IsFloorOf(XlmToStroops(Text(n)).value, Value(n.whole + n.frac), Scale(n), Divisor(n))
  }

  lemma {:induction false} PowGrows(k: nat, more: nat)
    requires more >= 1
    ensures Pow10(k + more) >= 10 * Pow10(k)
  {
    if more > 1 {
      PowGrows(k, more - 1);
    }
  }

  lemma KeptBound(frac: string, k: nat)
    requires AllDigits(frac)
    ensures Value(Kept(frac, k)) < Pow10(k)
  {
    ValueBound(Kept(frac, k));
  }

  lemma FirstDigit(s: string)
    requires AllDigits(s) && |s| == 1 && s[0] != '0'
    ensures 1 <= Value(s) <= 9
  {
    assert s[..0] == "" && s[0] > '0';
    assert Value(s) == DigitValue(s[0]);
  }

  /** A mantissa's digits, as a number, and what the parse makes of the mantissa alone. */
  lemma MantissaBounds(n: Numeral, v: nat, r: nat, f: nat, p: nat)
    requires NormalForm(n) && n.exponent.Some? && f == Pow10(|n.frac|) && p == Pow10(STROOP_DECIMALS)
    requires AllDigits(n.whole + n.frac) && v == Value(n.whole + n.frac)
    requires r == Combined(Value(n.whole), Value(Kept(n.frac, STROOP_DECIMALS)), p)
    ensures f <= v < 10 * f && p <= r < 10 * p
  {
    FirstDigit(n.whole);
    ValueConcat(n.whole, n.frac);
    ValueBound(n.frac);
    KeptBound(n.frac, STROOP_DECIMALS);
    OneDigit(Value(n.whole), f);
    OneDigit(Value(n.whole), p);
  }

  lemma OneDigit(w: nat, p: nat)
    requires 1 <= w <= 9
    ensures p <= w * p <= 9 * p
  {
  }

  lemma TooLarge(r: nat, v: nat, p: nat, f: nat, d: nat)
    requires r >= p > 0 && v < 10 * f && d >= 10 * f
    ensures !IsFloorOf(r, v, p, d)
  {
    MulLeft(p, v + 1, d);
    MulLeft(d, p, r);
    assert p * (v + 1) == v * p + p;
  }

  lemma TooSmall(r: nat, v: nat, p: nat, f: nat, n: nat)
    requires r < 10 * p && v >= f && n >= 10 * p && f > 0
    ensures !IsFloorOf(r, v, n, f)
  {
    MulLeft(f, r + 1, n);
    MulLeft(n, f, v);
  }

  lemma ExponentReadsWrong(n: Numeral)
    requires NormalForm(n) && n.exponent.Some?
    ensures !ReadsRight(n)
  {
    var x := Suffix(n.exponent);
    if n.frac == "" {
      WholeExponentFails(n.whole, x);
    } else {
      ExponentDroppedIffLong(n.whole, n.frac, x);
      if |n.frac| >= STROOP_DECIMALS {
        ParseOfParts(n.whole, n.frac, STROOP_DECIMALS);
        ValueConcat(n.whole, n.frac);
        MantissaReadsWrong(n, Combined(Value(n.whole), Value(Kept(n.frac, STROOP_DECIMALS)), Pow10(STROOP_DECIMALS)),
                           Value(n.whole + n.frac), Pow10(|n.frac|), Pow10(STROOP_DECIMALS), Scale(n), Divisor(n));
      }
    }
  }

  lemma ScaleBounds(n: Numeral, f: nat, p: nat, scale: nat, divisor: nat)
    requires NormalForm(n) && n.exponent.Some? && f == Pow10(|n.frac|) && p == Pow10(STROOP_DECIMALS)
    requires scale == Scale(n) && divisor == Divisor(n)
    ensures if n.exponent.value.negative then scale == p && divisor >= 10 * f else scale >= 10 * p && divisor == f
  {
    PowGrows(|n.frac|, n.exponent.value.size);
    PowGrows(STROOP_DECIMALS, n.exponent.value.size);
  }

  lemma MantissaReadsWrong(n: Numeral, r: nat, v: nat, f: nat, p: nat, scale: nat, divisor: nat)
    requires NormalForm(n) && n.exponent.Some? && f == Pow10(|n.frac|) && p == Pow10(STROOP_DECIMALS)
    requires AllDigits(n.whole + n.frac) && v == Value(n.whole + n.frac)
    requires r == Combined(Value(n.whole), Value(Kept(n.frac, STROOP_DECIMALS)), p)
    requires scale == Scale(n) && divisor == Divisor(n)
    ensures !IsFloorOf(r, v, scale, divisor)
  {
    MantissaBounds(n, v, r, f, p);
    ScaleBounds(n, f, p, scale, divisor);
    if n.exponent.value.negative {
      TooLarge(r, v, p, f, divisor);
    } else {
      TooSmall(r, v, p, f, scale);
    }
  }

  lemma PlainText(n: Numeral)
    requires n.exponent.None?
    ensures Text(n) == if n.frac == "" then n.whole else n.whole + "." + n.frac
  {
    assert n.frac + "" == n.frac && n.whole + "" == n.whole;
  }

  lemma WholeIsFloor(v: nat, p: nat)
    ensures IsFloorOf(v * p, v, p, 1)
  {
  }

  lemma PlainWholeReadsRight(n: Numeral)
    requires NormalForm(n) && n.exponent.None? && n.frac == ""
    ensures ReadsRight(n)
  {
    PlainText(n);
    ParseOfWhole(n.whole, STROOP_DECIMALS);
    assert n.whole + n.frac == n.whole;
    WholeIsFloor(Value(n.whole), Pow10(STROOP_DECIMALS));
  }

  lemma PlainReadsRight(n: Numeral)
    requires NormalForm(n) && n.exponent.None?
    ensures ReadsRight(n)
  {
    if n.frac == "" {
      PlainWholeReadsRight(n);
    } else {
      PlainText(n);
      ParseIsFloor(n.whole, n.frac);
    }
  }

  /**
   * Of the numbers JavaScript prints, the parse gives the floor of their value in stroops for exactly
   * those printed without an exponent. Every other one is an error or a wrong amount.
   */
  lemma ReadsRightIff(n: Numeral)
    requires NormalForm(n)
    ensures ReadsRight(n) <==> n.exponent.None?
  {
    if n.exponent.None? {
      PlainReadsRight(n);
    } else {
      ExponentReadsWrong(n);
    }
  }

  lemma PaddedRemainder(rem: nat, k: nat)
    requires k > 0 && rem < Pow10(k)
    ensures var padded := PadStart(Digits(rem), k);
      |padded| == k && AllDigits(padded) && Value(padded) == rem
  {
    DigitsWidth(rem, k);
    DigitsValue(rem);
    PadStartValue(Digits(rem), k);
  }

  /** Zeros taken off the end come back when the digits are filled up again. */
  lemma StrippedKept(padded: string, frac: string)
    requires AllDigits(padded) && frac == StripTrailingZeros(padded)
    ensures AllDigits(frac) && Value(Kept(frac, |padded|)) == Value(padded)
  {
    StripThenPad(padded);
    KeptOfShort(frac, |padded|);
  }

  /** The printed fraction, filled up again, is the remainder. */
  lemma PrintedFraction(rem: nat, k: nat)
    requires k > 0 && rem < Pow10(k)
    ensures var frac := StripTrailingZeros(PadStart(Digits(rem), k));
      AllDigits(frac) && Value(Kept(frac, k)) == rem
  {
    PaddedRemainder(rem, k);
    var padded := PadStart(Digits(rem), k);
    StrippedKept(padded, StripTrailingZeros(padded));
  }

  lemma Recombine(n: nat, d: nat)
    requires d > 0
    ensures n / d >= 0 && n / d * d + n % d == n
  {
  }

  /** A whole part and a fraction that denote the quotient and the remainder denote the number. */
  lemma ParseRecombines(text: string, whole: string, frac: string, k: nat, n: nat, d: nat)
    requires AllDigits(whole) && AllDigits(frac) && d == Pow10(k)
    requires Value(whole) == n / d && Value(Kept(frac, k)) == n % d
    requires text == if |frac| > 0 then whole + "." + frac else whole
    ensures ParseAmount(text, k) == Some(n)
  {
    Recombine(n, d);
    if |frac| > 0 {
      ParseOfParts(whole, frac, k);
    } else {
      ParseOfWhole(whole, k);
      KeptOfNothing(k);
    }
  }

  /** Parsing with the decimals it was printed with gives back the number. */
  lemma FormatParseRoundTripAt(n: nat, k: nat, d: nat)
    requires k > 0 && d == Pow10(k)
    ensures ParseAmount(FormatTokenAmount(n, k), k) == Some(n)
  {
    Recombine(n, d);
    var whole, rem := Digits(n / d), n % d;
    PrintedFraction(rem, k);
    DigitsValue(n / d);
    ParseRecombines(FormatTokenAmount(n, k), whole, StripTrailingZeros(PadStart(Digits(rem), k)), k, n, d);
  }

  /** Parsing what was printed gives back the number. */
  lemma FormatParseRoundTrip(n: nat)
    ensures XlmToStroops(FormatTokenAmount(n, STROOP_DECIMALS)) == Some(n)
  {
    FormatParseRoundTripAt(n, STROOP_DECIMALS, Pow10(STROOP_DECIMALS));
  }

  lemma {:induction false} StrippedEnd(s: string)
    requires AllDigits(s)
    ensures var t := StripTrailingZeros(s);
      && AllDigits(t) && (t != "" <==> Value(s) > 0) && (t != "" ==> t[|t| - 1] != '0')
  {
    if s != "" && s[|s| - 1] == '0' {
      StrippedEnd(s[..|s| - 1]);
    }
  }

  lemma {:induction false} LeadingDigit(n: nat)
    ensures Digits(n)[0] == '0' <==> n == 0
    ensures n == 0 ==> Digits(n) == "0"
  {
    if n >= 10 {
      LeadingDigit(n / 10);
    }
  }

  /**
   * The printed amount is the shortest: a point exactly when there is a fraction, no zero at the end of
   * the fraction, and none at the front of the whole part unless that is zero.
   */
  lemma FormatIsShortest(n: nat, k: nat, d: nat)
    requires k > 0 && d == Pow10(k)
    ensures var text := FormatTokenAmount(n, k);
      && text != ""
      && ('.' in text <==> n % d != 0)
      && ('.' in text ==> IsDigit(text[|text| - 1]) && text[|text| - 1] != '0')
      && (text[0] == '0' ==> BeforePoint(text) == "0")
  {
    Recombine(n, d);
    PrintedShort(n / d, n % d, k);
    var whole, frac := Digits(n / d), StripTrailingZeros(PadStart(Digits(n % d), k));
    ShortText(whole, frac, FormatTokenAmount(n, k));
  }

  lemma PrintedShort(whole: nat, rem: nat, k: nat)
    requires k > 0 && rem < Pow10(k)
    ensures var frac := StripTrailingZeros(PadStart(Digits(rem), k));
      AllDigits(frac) && (frac != "" <==> rem > 0) && (frac != "" ==> frac[|frac| - 1] != '0')
    ensures Digits(whole)[0] == '0' ==> Digits(whole) == "0"
  {
    PaddedRemainder(rem, k);
    StrippedEnd(PadStart(Digits(rem), k));
    LeadingDigit(whole);
  }

  lemma ShortText(whole: string, frac: string, text: string)
    requires AllDigits(whole) && AllDigits(frac) && whole != "" && (whole[0] == '0' ==> whole == "0")
    requires text == if |frac| > 0 then whole + "." + frac else whole
    requires frac != "" ==> frac[|frac| - 1] != '0'
    ensures text != "" && ('.' in text <==> frac != "")
    ensures '.' in text ==> IsDigit(text[|text| - 1]) && text[|text| - 1] != '0'
    ensures text[0] == '0' ==> BeforePoint(text) == "0"
  {
    NoPoint(whole);
    NoPoint(frac);
    PartsOf(whole, frac);
    if frac != "" {
      assert (whole + "." + frac)[|whole|] == '.';
      assert (whole + "." + frac)[|whole| + |frac|] == frac[|frac| - 1];
    }
  }

  lemma NoPoint(s: string)
    requires AllDigits(s)
    ensures '.' !in s
  {
  }
}
