/** Decimal printing (`%d`, `%04d`, `%.4f`, `%.6f`) and the C readers `strtol` and `strtod`. */
module Numbers {
  import opened Basics

  const LONG_MIN: int := -0x8000_0000_0000_0000
  const LONG_MAX: int := 0x7FFF_FFFF_FFFF_FFFF

  /** `isspace` in the C locale. */
  predicate IsSpace(c: char) {
    c == ' ' || '\t' <= c <= '\r'
  }

  predicate IsDigit(c: char) {
    '0' <= c <= '9'
  }

  predicate AllSpace(s: string) {
    forall k | 0 <= k < |s| :: IsSpace(s[k])
  }

  predicate AllDigits(s: string) {
    forall k | 0 <= k < |s| :: IsDigit(s[k])
  }

  /** The first index at or after `i` that does not hold white space. */
  function SkipSpace(s: string, i: nat): (r: nat)
    requires i <= |s|
    ensures i <= r <= |s|
    ensures forall k | i <= k < r :: IsSpace(s[k])
    ensures r < |s| ==> !IsSpace(s[r])
    decreases |s| - i
  {
    if i < |s| && IsSpace(s[i]) then SkipSpace(s, i + 1) else i
  }

  lemma SkipSpaceIs(s: string, i: nat, r: nat)
    requires i <= r <= |s|
    requires forall k | i <= k < r :: IsSpace(s[k])
    requires r == |s| || !IsSpace(s[r])
    ensures SkipSpace(s, i) == r
  {
  }

  lemma SkipSpaceOver(s: string, i: nat, ws: string)
    requires At(s, i, ws) && AllSpace(ws)
    ensures SkipSpace(s, i) == SkipSpace(s, i + |ws|)
  {
    forall k | i <= k < i + |ws| ensures IsSpace(s[k]) {
      AtIndex(s, i, ws, k - i);
    }
    SkipSpaceIs(s, i, SkipSpace(s, i + |ws|));
  }

  function Digit(n: nat): (c: char)
    requires n < 10
    ensures IsDigit(c) && DigitValue(c) == n
  {
    ('0' as int + n) as char
  }

  function DigitValue(c: char): (n: nat)
    requires IsDigit(c)
    ensures n < 10
  {
    c as int - '0' as int
  }

  /** The decimal digits of `n`, as `%d` prints them. */
  function Digits(n: nat): (s: string)
    ensures s != "" && AllDigits(s)
  {
    if n < 10 then [Digit(n)] else Digits(n / 10) + [Digit(n % 10)]
  }

  /** The number a run of digits stands for. */
  function Value(s: string): (n: nat)
    requires AllDigits(s)
  {
    if s == "" then 0 else 10 * Value(s[..|s| - 1]) + DigitValue(s[|s| - 1])
  }

  lemma {:induction false} ValueOfDigits(n: nat)
    ensures Value(Digits(n)) == n
  {
    if n >= 10 {
      var s := Digits(n);
      assert s[..|s| - 1] == Digits(n / 10);
      ValueOfDigits(n / 10);
    } else {
      assert Digits(n)[..0] == "";
    }
  }

  function Pow10(k: nat): (p: nat)
    ensures p >= 1
  {
    if k == 0 then 1 else 10 * Pow10(k - 1)
  }

  lemma {:induction false} DigitsLength(n: nat, k: nat)
    requires k >= 1 && n < Pow10(k)
    ensures |Digits(n)| <= k
  {
    if n >= 10 {
      DigitsLength(n / 10, k - 1);
    }
  }

  /** `n` in decimal on exactly `k` digits, for `n` below `Pow10(k)`. */
  function Padded(n: nat, k: nat): (s: string)
    ensures |s| == k && AllDigits(s)
  {
    if k == 0 then "" else Padded(n / 10, k - 1) + [Digit(n % 10)]
  }

  lemma {:induction false} ValueOfPadded(n: nat, k: nat)
    requires n < Pow10(k)
    ensures Value(Padded(n, k)) == n
  {
    if k > 0 {
      var s := Padded(n, k);
      assert s[..|s| - 1] == Padded(n / 10, k - 1);
      ValueOfPadded(n / 10, k - 1);
    }
  }

  /** `%d` */
  function IntText(n: int): (s: string)
    ensures s != ""
  {
    if n < 0 then "-" + Digits(-n) else Digits(n)
  }

  lemma IntTextLength(n: int, k: nat)
    requires k >= 1 && 0 - Pow10(k) < n < Pow10(k)
    ensures |IntText(n)| <= k + 1
  {
    DigitsLength(if n < 0 then -n else n, k);
  }

  /** The end of the run of digits that starts at `i`. */
  function DigitsEnd(s: string, i: nat): (r: nat)
    requires i <= |s|
    ensures i <= r <= |s| && AllDigits(s[i..r])
    ensures r < |s| ==> !IsDigit(s[r])
    decreases |s| - i
  {
    if i < |s| && IsDigit(s[i]) then
      var r := DigitsEnd(s, i + 1);
      assert forall k | 0 < k < r - i :: s[i..r][k] == s[i + 1..r][k - 1];
      r
    else i
  }

  lemma DigitsEndIs(s: string, i: nat, r: nat)
    requires i <= r <= |s| && AllDigits(s[i..r])
    requires r == |s| || !IsDigit(s[r])
    ensures DigitsEnd(s, i) == r
    decreases r - i
  {
    if i < r {
      assert s[i..r][0] == s[i];
      assert s[i + 1..r] == s[i..r][1..];
      DigitsEndIs(s, i + 1, r);
    }
  }

  predicate HasSign(s: string, i: nat) {
    i < |s| && (s[i] == '-' || s[i] == '+')
  }

  /** `strtol(s, NULL, 10)`: leading white space, a sign, digits; saturating at
      the limits of a 64-bit `long`, and 0 when there is no digit. */
  function StrToL(s: string): (n: int)
    ensures LONG_MIN <= n <= LONG_MAX
  {
    var i := SkipSpace(s, 0);
    var d := if HasSign(s, i) then i + 1 else i;
    var v := Value(s[d..DigitsEnd(s, d)]);
    var n: int := if HasSign(s, i) && s[i] == '-' then 0 - v else v;
    if n < LONG_MIN then LONG_MIN else if n > LONG_MAX then LONG_MAX else n
  }

  lemma StrToLOfIntText(n: int)
    requires LONG_MIN <= n <= LONG_MAX
    ensures StrToL(IntText(n)) == n
  {
    var s := IntText(n);
    var d := if n < 0 then 1 else 0;
    var a := if n < 0 then -n else n;
    assert s[d..|s|] == Digits(a);
    assert IsDigit(Digits(a)[0]) && s[d] == Digits(a)[0];
    SkipSpaceIs(s, 0, 0);
    DigitsEndIs(s, d, |s|);
    ValueOfDigits(a);
  }

  /** `x` in units of 10 to the minus `k`, rounded to nearest, ties to even. */
  function Scaled(x: real, k: nat): (n: int)
    ensures n as real - 0.5 <= x * Pow10(k) as real <= n as real + 0.5
  {
    var y := x * Pow10(k) as real;
    var f := y.Floor;
    if y - f as real < 0.5 || (y - f as real == 0.5 && f % 2 == 0) then f else f + 1
  }

  function Unscaled(n: int, k: nat): real {
    n as real / Pow10(k) as real
  }

  /** `x` as it survives being printed with `k` decimals. */
  function Rounded(x: real, k: nat): real {
    Unscaled(Scaled(x, k), k)
  }

  lemma ScaledUnscaled(n: int, k: nat)
    ensures Scaled(Unscaled(n, k), k) == n
  {
    assert Unscaled(n, k) * Pow10(k) as real == n as real;
  }

  function Quotient(a: nat, p: nat): (q: nat)
    requires p >= 1
  {
    a / p
  }

  function Remainder(a: nat, p: nat): (r: nat)
    requires p >= 1
    ensures r < p && a == Quotient(a, p) * p + r
  {
    a % p
  }

  function Magnitude(n: int): (a: nat) {
    if n < 0 then 0 - n else n
  }

  /** `a` in units of 10 to the minus `k`, written out. */
  function UnsignedFixed(a: nat, k: nat): (s: string)
    ensures |s| >= 1 && IsDigit(s[0])
  {
    Digits(Quotient(a, Pow10(k))) + ("." + Padded(Remainder(a, Pow10(k)), k))
  }

  /** `%.<k>f` */
  function FixedText(x: real, k: nat): (s: string) {
    (if x < 0.0 then "-" else "") + UnsignedFixed(Magnitude(Scaled(x, k)), k)
  }

  /** The power of ten written at `i`; 0 when no digit follows the `e`. */
  function Exponent(s: string, i: nat): (n: int) {
    if i < |s| && (s[i] == 'e' || s[i] == 'E') then
      var d := if HasSign(s, i + 1) then i + 2 else i + 1;
      var v := Value(s[d..DigitsEnd(s, d)]);
      if HasSign(s, i + 1) && s[i + 1] == '-' then 0 - v else v
    else 0
  }

  function TimesPow10(x: real, n: int): real {
    if n >= 0 then x * Pow10(n) as real else x / Pow10(-n) as real
  }

  /** `strtod(s, NULL)` on decimal notation: white space, a sign, digits, an
      optional fraction and an optional exponent. */
  function StrToD(s: string): real {
    var i := SkipSpace(s, 0);
    var v := UnsignedDecimal(s, if HasSign(s, i) then i + 1 else i);
    if HasSign(s, i) && s[i] == '-' then -v else v
  }

  /** `strtod` finds a number in `s`: there is a digit where one may start. */
  predicate HasNumber(s: string) {
    var i := SkipSpace(s, 0);
    var d := if HasSign(s, i) then i + 1 else i;
    d < |s| && (IsDigit(s[d]) || (s[d] == '.' && d + 1 < |s| && IsDigit(s[d + 1])))
  }

  lemma ScaledSign(x: real, k: nat)
    ensures x < 0.0 ==> Scaled(x, k) <= 0
    ensures x >= 0.0 ==> Scaled(x, k) >= 0
  {
    var p := Pow10(k) as real;
    if x < 0.0 {
      assert x * p < 0.0;
    } else {
      assert x * p >= 0.0;
    }
  }

  lemma SplitFraction(a: nat, p: nat)
    requires p >= 1
    ensures Quotient(a, p) as real + Remainder(a, p) as real / p as real == a as real / p as real
  {
    var q, r := Quotient(a, p), Remainder(a, p);
    assert a as real == q as real * p as real + r as real;
  }

  /** The number written as `whole`, a point, and `part`. */
  function Decimal(whole: string, part: string): real
    requires AllDigits(whole) && AllDigits(part)
  {
    Value(whole) as real + Value(part) as real / Pow10(|part|) as real
  }

  lemma TimesOne(x: real)
    ensures TimesPow10(x, 0) == x
  {
  }

  function UnsignedDecimal(s: string, d: nat): real
    requires d <= |s|
  {
    var e := DigitsEnd(s, d);
    var f := if e < |s| && s[e] == '.' then e + 1 else e;
    var g := DigitsEnd(s, f);
    TimesPow10(Decimal(s[d..e], s[f..g]), Exponent(s, g))
  }

  lemma DecimalEnds(s: string, d: nat, whole: string, part: string)
    requires At(s, d, whole + ("." + part)) && |s| == d + |whole| + 1 + |part|
    requires AllDigits(whole) && AllDigits(part)
    ensures DigitsEnd(s, d) == d + |whole| && s[d..d + |whole|] == whole
    ensures s[d + |whole|] == '.'
    ensures DigitsEnd(s, d + |whole| + 1) == |s| && s[d + |whole| + 1..|s|] == part
  {
    AtSplit(s, d, whole, "." + part);
    AtSplit(s, d + |whole|, ".", part);
    AtIndex(s, d + |whole|, ".", 0);
    DigitsEndIs(s, d, d + |whole|);
    DigitsEndIs(s, d + |whole| + 1, |s|);
  }

  lemma DecimalParts(s: string, d: nat, whole: string, part: string)
    requires At(s, d, whole + ("." + part)) && |s| == d + |whole| + 1 + |part|
    requires AllDigits(whole) && AllDigits(part)
    ensures UnsignedDecimal(s, d) == Decimal(whole, part)
  {
    hide Decimal, TimesPow10, At, Exponent;
    DecimalEnds(s, d, whole, part);
    NoExponent(s);
    TimesOne(Decimal(whole, part));
  }

  lemma NoExponent(s: string)
    ensures Exponent(s, |s|) == 0
  {
  }

  lemma UnsignedDecimalOfFixed(s: string, d: nat, a: nat, k: nat)
    requires At(s, d, UnsignedFixed(a, k)) && |s| == d + |UnsignedFixed(a, k)|
    ensures UnsignedDecimal(s, d) == Unscaled(a, k)
  {
    var p := Pow10(k);
    var q, r := Quotient(a, p), Remainder(a, p);
    DecimalParts(s, d, Digits(q), Padded(r, k));
    ValueOfDigits(q);
    ValueOfPadded(r, k);
    SplitFraction(a, p);
  }

  lemma UnscaledMagnitude(n: int, k: nat)
    ensures n <= 0 ==> Unscaled(n, k) == -Unscaled(Magnitude(n), k)
    ensures n >= 0 ==> Magnitude(n) == n
  {
  }

  /** Reading back a printed decimal gives the printed value. */
  lemma StrToDOfFixedText(x: real, k: nat)
    ensures StrToD(FixedText(x, k)) == Rounded(x, k)
  {
    var n := Scaled(x, k);
    var a := Magnitude(n);
    assert x < 0.0 ==> n <= 0 by { ScaledSign(x, k); }
    assert x >= 0.0 ==> n >= 0 by { ScaledSign(x, k); }
    UnscaledMagnitude(n, k);
    hide UnsignedDecimal, Unscaled, Scaled, StrToD, UnsignedFixed;
    SignedDecimal(x < 0.0, UnsignedFixed(a, k));
    UnsignedDecimalOfFixed(FixedText(x, k), if x < 0.0 then 1 else 0, a, k);
  }

  lemma SignedDecimal(negative: bool, u: string)
    requires u != "" && IsDigit(u[0])
    ensures var s := (if negative then "-" else "") + u;
            var d := if negative then 1 else 0;
            At(s, d, u) && |s| == d + |u| &&
            StrToD(s) == if negative then -UnsignedDecimal(s, d) else UnsignedDecimal(s, d)
  {
    hide UnsignedDecimal;
    var s := (if negative then "-" else "") + u;
    var d := if negative then 1 else 0;
    assert s[d..] == u;
    assert s[d] == u[0];
    if negative {
      assert s[0] == '-';
    } else {
      assert s[0] == u[0] && IsDigit(s[0]) && s[0] != '-' && s[0] != '+';
    }
    SkipSpaceIs(s, 0, 0);
  }

  /** Printing is stable: what was read back prints as the same number. */
  lemma RoundedTwice(x: real, k: nat)
    ensures Rounded(Rounded(x, k), k) == Rounded(x, k)
  {
    ScaledUnscaled(Scaled(x, k), k);
  }

  lemma FixedTextLength(x: real, k: nat, w: nat)
    requires w >= 1 && Magnitude(Scaled(x, k)) < Pow10(w) * Pow10(k)
    ensures |FixedText(x, k)| <= w + k + 2
  {
    QuotientBelow(Magnitude(Scaled(x, k)), Pow10(k), Pow10(w));
    DigitsLength(Quotient(Magnitude(Scaled(x, k)), Pow10(k)), w);
  }

  lemma QuotientBelow(a: nat, p: nat, m: nat)
    requires p >= 1 && a < m * p
    ensures Quotient(a, p) < m
  {
    var q, r := Quotient(a, p), Remainder(a, p);
    assert q * p + r < m * p;
    assert (q - m) * p < 0;
  }

  // ---- Doubles ----

  /** A finite `double` is below 10 to the 309 in magnitude. */
  predicate IsDouble(x: real) {
    -(Pow10(309) as real) <= x <= Pow10(309) as real
  }

  lemma ScaledBound(x: real, m: nat, k: nat)
    requires -(m as real) <= x <= m as real
    ensures Magnitude(Scaled(x, k)) <= m * Pow10(k)
  {
    hide Scaled, Pow10;
    TimesPositive(x, m, Pow10(k));
    assert Scaled(x, k) as real <= (m * Pow10(k)) as real + 0.5;
    assert Scaled(x, k) as real >= -((m * Pow10(k)) as real) - 0.5;
  }

  lemma TimesPositive(x: real, m: nat, p: nat)
    requires -(m as real) <= x <= m as real && p >= 1
    ensures -((m * p) as real) <= x * p as real <= (m * p) as real
  {
    assert (m * p) as real == m as real * p as real;
    assert (m as real - x) * p as real >= 0.0;
    assert (x + m as real) * p as real >= 0.0;
  }

  lemma RoundedIsDouble(x: real, k: nat)
    requires IsDouble(x)
    ensures IsDouble(Rounded(x, k))
  {
    var p, m := Pow10(k), Pow10(309);
    ScaledBound(x, m, k);
    var n := Scaled(x, k);
    BoundedQuotient(n, m, p);
  }

  lemma BoundedQuotient(n: int, m: nat, p: nat)
    requires p >= 1 && -(m * p) <= n <= m * p
    ensures -(m as real) <= n as real / p as real <= m as real
  {
    assert (m * p) as real == m as real * p as real;
    assert (m * p) as real / p as real == m as real;
  }

  lemma DoubleTextLength(x: real, k: nat)
    requires IsDouble(x)
    ensures |FixedText(x, k)| <= 312 + k
  {
    var p, m := Pow10(k), Pow10(309);
    ScaledBound(x, m, k);
    assert Pow10(310) == 10 * m;
    TenTimes(m, p);
    FixedTextLength(x, k, 310);
  }

  lemma TenTimes(m: nat, p: nat)
    requires m >= 1 && p >= 1
    ensures m * p < 10 * m * p
  {
    assert m * p >= 1;
  }
}
