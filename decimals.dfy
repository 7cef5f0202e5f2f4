/**
 * Decimal text as the pages handle it: the amount-input filter `^\d*\.?\d*$`,
 * JavaScript's `parseFloat` on that kind of text, and the 18-decimal fixed-point
 * conversions every page applies (`parseUnits(x, 18)` and `formatUnits(x, 18)`).
 * Numbers are exact: a `Decimal` is `units / 10^scale`, never a float.
 */
module Decimals {
  import opened Wrappers

  // ---------------------------------------------------------------- digits

  predicate IsDigit(c: char) { '0' <= c <= '9' }

  predicate AllDigits(s: string) { forall i | 0 <= i < |s| :: IsDigit(s[i]) }

  predicate AllZeros(s: string) { forall i | 0 <= i < |s| :: s[i] == '0' }

  function DigitValue(c: char): nat
    requires IsDigit(c)
  {
    c as int - '0' as int
  }

  function DigitChar(d: nat): (c: char)
    requires d < 10
    ensures IsDigit(c) && DigitValue(c) == d
  {
    ('0' as int + d) as char
  }

  function Pow10(n: nat): (r: nat)
    ensures r >= 1
  {
    if n == 0 then 1 else 10 * Pow10(n - 1)
  }

  lemma {:induction false} Pow10Add(a: nat, b: nat)
    ensures Pow10(a) * Pow10(b) == Pow10(a + b)
  {
    if a > 0 {
      Pow10Add(a - 1, b);
      calc {
        Pow10(a) * Pow10(b);
        10 * Pow10(a - 1) * Pow10(b);
        10 * Pow10(a - 1 + b);
        Pow10(a + b);
      }
    }
  }

  /** The value of a string of decimal digits (the empty string is 0). */
  function NatOf(s: string): nat
    requires AllDigits(s)
  {
    if s == [] then 0 else NatOf(s[..|s| - 1]) * 10 + DigitValue(s[|s| - 1])
  }

  lemma {:induction false} AllDigitsAppend(a: string, b: string)
    requires AllDigits(a) && AllDigits(b)
    ensures AllDigits(a + b)
  {
    forall i | 0 <= i < |a + b| ensures IsDigit((a + b)[i]) {
      if i < |a| { assert (a + b)[i] == a[i]; } else { assert (a + b)[i] == b[i - |a|]; }
    }
  }

  lemma ShiftDigit(x: int, p: int, y: int, d: int)
    ensures (x * p + y) * 10 + d == x * (p * 10) + (y * 10 + d)
  {
  }

  lemma MulAssoc(x: int, y: int, z: int)
    ensures x * y * z == x * (y * z)
  {
  }

  lemma {:induction false} NatOfAppend(a: string, b: string)
    requires AllDigits(a) && AllDigits(b)
    ensures AllDigits(a + b)
    ensures NatOf(a + b) == NatOf(a) * Pow10(|b|) + NatOf(b)
  {
    AllDigitsAppend(a, b);
    if b != [] {
      var b' := b[..|b| - 1];
      var d := DigitValue(b[|b| - 1]);
      assert (a + b)[..|a + b| - 1] == a + b';
      assert (a + b)[|a + b| - 1] == b[|b| - 1];
      NatOfAppend(a, b');
      var x, y, p := NatOf(a), NatOf(b'), Pow10(|b'|);
      assert NatOf(a + b) == NatOf(a + b') * 10 + d;
      assert NatOf(a + b') == x * p + y;
      assert NatOf(b) == y * 10 + d;
      assert Pow10(|b|) == p * 10;
      ShiftDigit(x, p, y, d);
    } else {
      assert a + b == a;
    }
  }

  lemma {:induction false} NatOfZeros(s: string)
    requires AllZeros(s)
    ensures AllDigits(s) && NatOf(s) == 0
  {
    if s != [] { NatOfZeros(s[..|s| - 1]); }
  }

  /** Decimal rendering of a natural number without leading zeros, as `BigInt.toString()`. */
  function Digits(n: nat): (s: string)
    ensures |s| >= 1 && AllDigits(s) && NatOf(s) == n
  {
    if n < 10 then [DigitChar(n)]
    else
      var s := Digits(n / 10) + [DigitChar(n % 10)];
      assert s[..|s| - 1] == Digits(n / 10);
      s
  }

  /** The last `w` decimal digits of `r`, left-padded with zeros (`padStart(w, '0')`). */
  function PadDigits(r: nat, w: nat): (s: string)
    requires r < Pow10(w)
    ensures |s| == w && AllDigits(s) && NatOf(s) == r
  {
    if w == 0 then ""
    else
      var s := PadDigits(r / 10, w - 1) + [DigitChar(r % 10)];
      assert s[..|s| - 1] == PadDigits(r / 10, w - 1);
      s
  }

  /** Drops the zeros at the right end (`replace(/(0+)$/, '')`). */
  function TrimZerosRight(s: string): (t: string)
    ensures |t| <= |s| && t == s[..|t|]
    ensures t == [] || t[|t| - 1] != '0'
    ensures AllZeros(s[|t|..])
  {
    if s != [] && s[|s| - 1] == '0' then
      var t := TrimZerosRight(s[..|s| - 1]);
      assert forall i | |t| <= i < |s| - 1 :: s[i] == s[..|s| - 1][|t|..][i - |t|];
      t
    else s
  }

  lemma {:induction false} NatOfTrimZerosRight(s: string)
    requires AllDigits(s)
    ensures AllDigits(TrimZerosRight(s))
    ensures NatOf(TrimZerosRight(s)) * Pow10(|s| - |TrimZerosRight(s)|) == NatOf(s)
  {
    var t := TrimZerosRight(s);
    assert s == t + s[|t|..];
    NatOfZeros(s[|t|..]);
    NatOfAppend(t, s[|t|..]);
  }

  // ------------------------------------------------------- the input filter

  /** Number of leading ASCII digits of `s`. */
  function LeadingDigits(s: string): (n: nat)
    ensures n <= |s| && AllDigits(s[..n]) && (n < |s| ==> !IsDigit(s[n]))
  {
    if s == [] || !IsDigit(s[0]) then 0
    else
      var m := LeadingDigits(s[1..]);
      assert s[..1 + m] == [s[0]] + s[1..][..m];
      1 + m
  }

  lemma LeadingDigitsOfDigits(s: string)
    requires AllDigits(s)
    ensures LeadingDigits(s) == |s|
  {
  }

  lemma {:induction false} LeadingDigitsConcat(a: string, b: string)
    requires AllDigits(a) && (b == [] || !IsDigit(b[0]))
    ensures LeadingDigits(a + b) == |a|
  {
    if a != [] {
      assert (a + b)[1..] == a[1..] + b;
      LeadingDigitsConcat(a[1..], b);
    } else {
      assert a + b == b;
    }
  }

  /**
   * The text an amount input accepts, the regular expression `^\d*\.?\d*$`:
   * a run of digits, then optionally one '.' followed by a run of digits.
   */
  predicate AmountText(s: string) {
    var i := LeadingDigits(s);
    i == |s| || (s[i] == '.' && AllDigits(s[i + 1..]))
  }

  /** The filter's test on a keystroke: `value === "" || /^\d*\.?\d*$/.test(value)`. */
  predicate FilterAccepts(value: string) {
    value == "" || AmountText(value)
  }

  /** `AmountText` is exactly "only digits and dots, and at most one dot". */
  lemma FilterAcceptsIff(s: string)
    ensures FilterAccepts(s) <==>
      (forall i | 0 <= i < |s| :: IsDigit(s[i]) || s[i] == '.') &&
      (forall i, j | 0 <= i < j < |s| :: s[i] == '.' ==> s[j] != '.')
  {
    var n := LeadingDigits(s);
    if FilterAccepts(s) {
      assert AmountText(s);
      forall i | 0 <= i < |s| ensures IsDigit(s[i]) || s[i] == '.' {
        if i < n { assert s[..n][i] == s[i]; }
        else if i > n { assert s[n + 1..][i - n - 1] == s[i]; }
      }
      forall i | 0 <= i < n ensures IsDigit(s[i]) { assert s[..n][i] == s[i]; }
      forall i | n < i < |s| ensures IsDigit(s[i]) { assert s[n + 1..][i - n - 1] == s[i]; }
    } else {
      assert n < |s|;
      if s[n] != '.' {
        assert !(IsDigit(s[n]) || s[n] == '.');
      } else {
        var k :| 0 <= k < |s[n + 1..]| && !IsDigit(s[n + 1..][k]);
        assert s[n + 1..][k] == s[n + 1 + k];
        assert n < n + 1 + k < |s|;
      }
    }
  }

  /** The digits before the dot. */
  function IntPart(s: string): (r: string)
    requires AmountText(s)
    ensures AllDigits(r)
  {
    s[..LeadingDigits(s)]
  }

  /** The digits after the dot ("" when there is no dot). */
  function FracPart(s: string): (r: string)
    requires AmountText(s)
    ensures AllDigits(r)
  {
    var i := LeadingDigits(s);
    if i == |s| then "" else s[i + 1..]
  }

  /** Amount text without any digit: only "" and "." are such. */
  lemma DigitlessAmountText(s: string)
    requires AmountText(s)
    ensures IntPart(s) + FracPart(s) == "" <==> s == "" || s == "."
  {
    var i := LeadingDigits(s);
    if i < |s| { assert s == IntPart(s) + "." + FracPart(s); }
  }

  // ------------------------------------------------------------- decimals

  /** The exact number `units / 10^scale`. */
  datatype Decimal = Decimal(units: nat, scale: nat)

  /** `a < b` on exact values. */
  predicate Less(a: Decimal, b: Decimal) {
    a.units * Pow10(b.scale) < b.units * Pow10(a.scale)
  }

  /** `a <= n` for a whole number `n`. */
  predicate AtMost(a: Decimal, n: nat) {
    a.units <= n * Pow10(a.scale)
  }

  /** The value of amount text, read digit for digit. */
  function DecimalOf(s: string): (d: Decimal)
    requires AmountText(s)
    ensures d.scale == |FracPart(s)|
  {
    NatOfAppend(IntPart(s), FracPart(s));
    Decimal(NatOf(IntPart(s) + FracPart(s)), |FracPart(s)|)
  }

  // ------------------------------------------------------------ parseFloat

  /** What `parseFloat` yields: NaN, or a signed exact number (`-0` is `Num(true, 0)`). */
  datatype Parsed = NaN | Num(negative: bool, magnitude: Decimal)

  /**
   * The longest prefix of the form `\d*(\.\d*)?` holding at least one digit,
   * as `parseFloat` reads it after an optional sign.
   */
  function ParseMagnitude(s: string): Option<Decimal> {
    var i := LeadingDigits(s);
    var frac := if i < |s| && s[i] == '.' then s[i + 1..][..LeadingDigits(s[i + 1..])] else "";
    if i + |frac| == 0 then None
    else
      NatOfAppend(s[..i], frac);
      Some(Decimal(NatOf(s[..i] + frac), |frac|))
  }

  /** JavaScript's `parseFloat` on sign-and-decimal text (longest valid prefix). */
  function ParseFloat(s: string): Parsed {
    var signed := |s| > 0 && (s[0] == '-' || s[0] == '+');
    match ParseMagnitude(if signed then s[1..] else s)
    case None => NaN
    case Some(d) => Num(signed && s[0] == '-', d)
  }

  /** On amount text `parseFloat` is the digit-for-digit value, and NaN when there is no digit. */
  lemma ParseFloatAmountText(s: string)
    requires AmountText(s)
    ensures ParseFloat(s) == if s == "" || s == "." then NaN else Num(false, DecimalOf(s))
  {
    DigitlessAmountText(s);
    var i := LeadingDigits(s);
    if i < |s| {
      LeadingDigitsOfDigits(s[i + 1..]);
      assert s[i + 1..][..|s[i + 1..]|] == s[i + 1..];
    }
  }

  /** `parseFloat(x) <= 0`: false for NaN, true for every negative number and for zero. */
  predicate AtMostZero(p: Parsed) {
    p.Num? && (p.negative || p.magnitude.units == 0)
  }

  /** `parseFloat(x) > 0`: false for NaN, for zero and for every negative number. */
  predicate Positive(p: Parsed) {
    p.Num? && !p.negative && p.magnitude.units > 0
  }

  /** The guard every transaction handler starts with: `!amount || parseFloat(amount) <= 0`. */
  predicate RejectedAmount(s: string) {
    s == "" || AtMostZero(ParseFloat(s))
  }

  /**
   * On amount text the guard rejects exactly the empty text and the text whose
   * value is zero; a digit-less "." parses to NaN and so passes the guard.
   */
  lemma {:induction false} RejectedAmountText(s: string)
    requires AmountText(s)
    ensures RejectedAmount(s) <==> s == "" || (s != "." && DecimalOf(s).units == 0)
    ensures !RejectedAmount(".")
  {
    ParseFloatAmountText(s);
    ParseFloatAmountText(".");
  }

  /**
   * The value a browser's `type="number"` input reports: empty, or an optional
   * '-' followed by amount text holding at least one digit.
   */
  predicate NumberText(s: string) {
    s == "" || (var body := if s[0] == '-' then s[1..] else s; AmountText(body) && body != "" && body != ".")
  }

  /** Number text that gets past the amount guard is unsigned amount text of a positive value. */
  lemma NumberTextPastGuard(s: string)
    requires NumberText(s) && !RejectedAmount(s)
    ensures AmountText(s) && s != "." && DecimalOf(s).units > 0
  {
    if s[0] == '-' {
      ParseFloatAmountText(s[1..]);
      assert false;
    }
    ParseFloatAmountText(s);
    RejectedAmountText(s);
  }

  // ------------------------------------------------------- 18-decimal units

  const TokenDecimals: nat := 18

  /** `parseUnits(_, 18)`: the value times 10^18, rounded half up past the 18th fractional digit. */
  function Wei(d: Decimal): nat {
    if d.scale <= TokenDecimals then d.units * Pow10(TokenDecimals - d.scale)
    else DivHalfUp(d.units, Pow10(d.scale - TokenDecimals))
  }

  /** Within 18 fractional digits `Wei` is exact: it is the value times 10^18. */
  lemma WeiScaled(d: Decimal)
    requires d.scale <= TokenDecimals
    ensures Wei(d) * Pow10(d.scale) == d.units * Pow10(TokenDecimals)
  {
    var k := TokenDecimals - d.scale;
    Pow10Add(k, d.scale);
    MulAssoc(d.units, Pow10(k), Pow10(d.scale));
  }

  /** `u / p` rounded to the nearest whole number, halves upwards. */
  function DivHalfUp(u: nat, p: nat): nat
    requires p >= 1
  {
    u / p + (if 2 * (u % p) >= p then 1 else 0)
  }

  /** `parseUnits(amount, 18)` on amount text; the digit-less "." converts to 0. */
  function ParseUnits(s: string): nat
    requires AmountText(s)
  {
    Wei(DecimalOf(s))
  }

  /** Quotient and remainder, with the facts the proofs below need. */
  lemma DivMod(n: nat, w: nat)
    requires w >= 1
    ensures n / w >= 0 && 0 <= n % w < w && n == (n / w) * w + n % w
  {
  }

  /** `formatUnits(n, 18)`: integer part, then '.' and the fraction without trailing zeros, if any. */
  function FormatUnits(n: nat): (s: string)
    ensures AmountText(s) && s != "" && s != "."
  {
    DivMod(n, Pow10(TokenDecimals));
    FormatParts(n / Pow10(TokenDecimals), n % Pow10(TokenDecimals))
  }

  /** The text `formatUnits` prints for `q` whole tokens and `r` units below one token. */
  function FormatParts(q: nat, r: nat): (s: string)
    requires r < Pow10(TokenDecimals)
    ensures AmountText(s) && s != "" && s != "."
    ensures IntPart(s) == Digits(q) && FracPart(s) == TrimZerosRight(PadDigits(r, TokenDecimals))
  {
    var frac := TrimZerosRight(PadDigits(r, TokenDecimals));
    assert AllDigits(frac) by { assert frac == PadDigits(r, TokenDecimals)[..|frac|]; }
    JoinParts(Digits(q), frac);
    Digits(q) + (if frac == "" then "" else "." + frac)
  }

  /** Digits, then a dot and the fraction digits unless there are none: amount text that splits back into the two. */
  lemma JoinParts(ip: string, frac: string)
    requires |ip| >= 1 && AllDigits(ip) && AllDigits(frac)
    ensures var s := ip + (if frac == "" then "" else "." + frac);
      AmountText(s) && s != "" && s != "." && IntPart(s) == ip && FracPart(s) == frac
  {
    var tail := if frac == "" then "" else "." + frac;
    var s := ip + tail;
    LeadingDigitsConcat(ip, tail);
    assert s[..|ip|] == ip;
    assert frac != "" ==> s[|ip| + 1..] == frac;
  }

  /** Digits, a dot and at least one digit: amount text whose value is both digit runs read as one. */
  lemma JoinDotted(ip: string, frac: string)
    requires |ip| >= 1 && AllDigits(ip) && AllDigits(frac) && frac != ""
    ensures var s := ip + "." + frac;
      AmountText(s) && IntPart(s) == ip && FracPart(s) == frac &&
      DecimalOf(s) == Decimal(NatOf(ip + frac), |frac|)
  {
    assert ip + "." + frac == ip + (if frac == "" then "" else "." + frac);
    JoinParts(ip, frac);
  }

  /** Round trip: reading back what `formatUnits` printed gives the same number of units. */
  lemma {:induction false} ParseUnitsFormatUnits(n: nat)
    ensures ParseUnits(FormatUnits(n)) == n
    ensures DecimalOf(FormatUnits(n)).scale <= TokenDecimals
  {
    var w := Pow10(TokenDecimals);
    DivMod(n, w);
    ParseUnitsFormatParts(n / w, n % w);
  }

  lemma {:induction false} ParseUnitsFormatParts(q: nat, r: nat)
    requires r < Pow10(TokenDecimals)
    ensures ParseUnits(FormatParts(q, r)) == q * Pow10(TokenDecimals) + r
    ensures DecimalOf(FormatParts(q, r)).scale <= TokenDecimals
  {
    var pad := PadDigits(r, TokenDecimals);
    var frac := TrimZerosRight(pad);
    var d := DecimalOf(FormatParts(q, r));
    NatOfTrimZerosRight(pad);
    NatOfAppend(Digits(q), frac);
    var k := TokenDecimals - |frac|;
    var p, c, f := Pow10(|frac|), Pow10(k), NatOf(frac);
    assert d.units == q * p + f;
    assert f * c == r;
    Pow10Add(|frac|, k);
    assert p * c == Pow10(TokenDecimals);
    assert Wei(d) == d.units * c;
    SpreadScale(q, p, f, c);
  }

  lemma SpreadScale(q: int, p: int, f: int, c: int)
    ensures (q * p + f) * c == q * (p * c) + f * c
  {
  }

  /** What `parseFloat` makes of `formatUnits(n, 18)`: a non-negative number, positive iff n > 0. */
  lemma ParseFloatFormatUnits(n: nat)
    ensures ParseFloat(FormatUnits(n)) == Num(false, DecimalOf(FormatUnits(n)))
    ensures DecimalOf(FormatUnits(n)).units > 0 <==> n > 0
  {
    var d := DecimalOf(FormatUnits(n));
    ParseFloatAmountText(FormatUnits(n));
    ParseUnitsFormatUnits(n);
    WeiScaled(d);
    assert n * Pow10(d.scale) == d.units * Pow10(TokenDecimals);
    ZeroProduct(n, Pow10(d.scale), d.units, Pow10(TokenDecimals));
  }

  lemma ZeroProduct(x: int, p: int, y: int, q: int)
    requires x >= 0 && y >= 0 && p >= 1 && q >= 1 && x * p == y * q
    ensures x > 0 <==> y > 0
  {
    if x > 0 { assert x * p > 0; }
    if y > 0 { assert y * q > 0; }
  }

  /** Equal values, whatever the scales. */
  predicate SameValue(a: Decimal, b: Decimal) {
    a.units * Pow10(b.scale) == b.units * Pow10(a.scale)
  }

  /** Within 18 fractional digits the conversion is exact: equal units iff equal values. */
  lemma WeiExact(a: Decimal, b: Decimal)
    requires a.scale <= TokenDecimals && b.scale <= TokenDecimals
    ensures Wei(a) == Wei(b) <==> SameValue(a, b)
  {
    WeiScaled(a);
    WeiScaled(b);
    CrossScaled(Wei(a), Wei(b), a.units, b.units, Pow10(a.scale), Pow10(b.scale), Pow10(TokenDecimals));
  }

  lemma MulCancel(x: int, y: int, c: int)
    requires c >= 1
    ensures x * c == y * c <==> x == y
  {
    if x < y { assert x * c < y * c; } else if x > y { assert x * c > y * c; }
  }

  lemma CrossScaled(wa: int, wb: int, ua: int, ub: int, pa: int, pb: int, t: int)
    requires pa >= 1 && pb >= 1 && t >= 1
    requires wa * pa == ua * t && wb * pb == ub * t
    ensures wa == wb <==> ua * pb == ub * pa
  {
    assert ua * pb * t == wa * (pa * pb) by { assert ua * pb * t == (ua * t) * pb; }
    assert ub * pa * t == wb * (pa * pb) by { assert ub * pa * t == (ub * t) * pa; }
    MulCancel(wa, wb, pa * pb);
    MulCancel(ua * pb, ub * pa, t);
  }

  /** JavaScript's `a < b` on two `parseFloat` results: false whenever either is NaN. */
  predicate LessThan(a: Parsed, b: Parsed) {
    a.Num? && b.Num? &&
    if a.negative && b.negative then Less(b.magnitude, a.magnitude)
    else if a.negative then a.magnitude.units != 0 || b.magnitude.units != 0
    else if b.negative then false
    else Less(a.magnitude, b.magnitude)
  }

  /**
   * Comparing a formatted balance with amount text by `parseFloat` compares the
   * exact values: it holds iff the balance is below the amount in units of 10^-18.
   */
  lemma BalanceBelowAmount(n: nat, amount: string)
    requires AmountText(amount) && amount != "" && amount != "." && |FracPart(amount)| <= TokenDecimals
    ensures LessThan(ParseFloat(FormatUnits(n)), ParseFloat(amount)) <==> n < ParseUnits(amount)
  {
    var a, b := DecimalOf(FormatUnits(n)), DecimalOf(amount);
    ParseFloatFormatUnits(n);
    ParseFloatAmountText(amount);
    ParseUnitsFormatUnits(n);
    WeiScaled(a);
    WeiScaled(b);
    CrossScaledLess(Wei(a), Wei(b), a.units, b.units, Pow10(a.scale), Pow10(b.scale), Pow10(TokenDecimals));
  }

  /**
   * The same comparison for amount text with any number of fractional digits:
   * the balance in units of 10^-18 is below the amount's exact value times 10^18.
   */
  lemma BalanceBelowValue(n: nat, amount: string)
    requires AmountText(amount) && amount != "" && amount != "."
    ensures LessThan(ParseFloat(FormatUnits(n)), ParseFloat(amount)) <==>
      n * Pow10(|FracPart(amount)|) < DecimalOf(amount).units * Pow10(TokenDecimals)
  {
    var a, b := DecimalOf(FormatUnits(n)), DecimalOf(amount);
    ParseFloatFormatUnits(n);
    ParseFloatAmountText(amount);
    ParseUnitsFormatUnits(n);
    WeiScaled(a);
    ScaledLess(n, a.units, b.units, Pow10(a.scale), Pow10(b.scale), Pow10(TokenDecimals));
  }

  /** `au / t` is `n / pa`, so comparing it with `bu / pb` is comparing `n * pb` with `bu * t`. */
  lemma ScaledLess(n: int, au: int, bu: int, pa: int, pb: int, t: int)
    requires pa >= 1 && pb >= 1 && t >= 1 && n * pa == au * t
    ensures au * pb < bu * pa <==> n * pb < bu * t
  {
    MulLess(au * pb, bu * pa, t);
    assert au * pb * t == n * pb * pa by { assert au * pb * t == (au * t) * pb; }
    assert bu * pa * t == bu * t * pa;
    MulLess(n * pb, bu * t, pa);
  }

  lemma MulLess(x: int, y: int, c: int)
    requires c >= 1
    ensures x * c < y * c <==> x < y
  {
    MulCancel(x, y, c);
    if x < y { assert x * c < y * c; } else { assert x * c >= y * c; }
  }

  lemma CrossScaledLess(wa: int, wb: int, ua: int, ub: int, pa: int, pb: int, t: int)
    requires pa >= 1 && pb >= 1 && t >= 1
    requires wa * pa == ua * t && wb * pb == ub * t
    ensures wa < wb <==> ua * pb < ub * pa
  {
    assert ua * pb * t == wa * (pa * pb) by { assert ua * pb * t == (ua * t) * pb; }
    assert ub * pa * t == wb * (pa * pb) by { assert ub * pa * t == (ub * t) * pa; }
    MulLess(wa, wb, pa * pb);
    MulLess(ua * pb, ub * pa, t);
  }

  /**
   * Display round trip: formatting the units that amount text converts to gives
   * text of the same value, when the text has at most 18 fractional digits.
   */
  lemma FormatUnitsParseUnits(s: string)
    requires AmountText(s) && |FracPart(s)| <= TokenDecimals
    ensures SameValue(DecimalOf(FormatUnits(ParseUnits(s))), DecimalOf(s))
  {
    ParseUnitsFormatUnits(ParseUnits(s));
    WeiExact(DecimalOf(FormatUnits(ParseUnits(s))), DecimalOf(s));
  }

  // ------------------------------------------------------------ formatNumber

  /**
   * `p` millionths is `d` rounded to six places, halves upwards: the two differ
   * by less than half a millionth, or by exactly half with `p` the larger.
   */
  predicate RoundedToMillionths(p: nat, d: Decimal) {
    var e: int := p * Pow10(d.scale) - d.units * Pow10(6);
    -(Pow10(d.scale) as int) < 2 * e <= Pow10(d.scale)
  }

  /** Scaling to 12 more fractional digits than `d` has and converting to units rounds `d` to millionths. */
  lemma RoundToMillionths(d: Decimal)
    ensures RoundedToMillionths(Wei(Decimal(d.units, d.scale + (TokenDecimals - 6))), d)
  {
    var w := Wei(Decimal(d.units, d.scale + (TokenDecimals - 6)));
    if d.scale <= 6 {
      var k := 6 - d.scale;
      assert w == d.units * Pow10(k);
      Pow10Add(k, d.scale);
      MulAssoc(d.units, Pow10(k), Pow10(d.scale));
    } else {
      var k := d.scale - 6;
      assert w == DivHalfUp(d.units, Pow10(k));
      HalfUpError(d.units, Pow10(k));
      Pow10Add(k, 6);
      ScaleHalf(w, d.units, Pow10(k), Pow10(6));
    }
  }

  /** Rounding `u / p` half up misses `u` by less than half of `p`, or by exactly half upwards. */
  lemma HalfUpError(u: nat, p: nat)
    requires p >= 1
    ensures -(p as int) < 2 * (DivHalfUp(u, p) * p - u) <= p
  {
    DivMod(u, p);
  }

  /** The rounding error bound survives scaling both sides by `m`. */
  lemma ScaleHalf(w: int, u: int, p: int, m: int)
    requires m >= 1 && -p < 2 * (w * p - u) <= p
    ensures -(p * m) < 2 * (w * (p * m) - u * m) <= p * m
  {
    var e := w * p - u;
    MulLess(-p, 2 * e, m);
    MulLess(p, 2 * e, m);
    assert (-p) * m == -(p * m);
    assert (2 * e) * m == 2 * (w * (p * m) - u * m) by {
      assert (2 * e) * m == 2 * (e * m);
      assert e * m == (w * p) * m - u * m;
      MulAssoc(w, p, m);
    }
  }

  /**
   * `(x).toFixed(6)` on an exact non-negative value: digits, a dot and six
   * digits, which together are `x` rounded to millionths, halves upwards.
   */
  function ToFixed6(d: Decimal): (s: string)
    ensures |s| >= 8 && AllDigits(s[..|s| - 7]) && s[|s| - 7] == '.' && AllDigits(s[|s| - 6..])
    ensures RoundedToMillionths(NatOf(s[..|s| - 7]) * Pow10(6) + NatOf(s[|s| - 6..]), d)
  {
    var places := 6;
    var scaled := Wei(Decimal(d.units, d.scale + (TokenDecimals - places)));
    RoundToMillionths(d);
    DivMod(scaled, Pow10(places));
    var intDigits := Digits(scaled / Pow10(places));
    var frac := PadDigits(scaled % Pow10(places), places);
    var s := intDigits + "." + frac;
    assert s[..|s| - 7] == intDigits;
    assert s[|s| - 6..] == frac;
    s
  }

  /** Does `\.?0+$` match the tail of `s` starting at `i`? */
  predicate ZeroTailAt(s: string, i: nat)
    requires i <= |s|
  {
    (i < |s| && AllZeros(s[i..])) ||
    (i + 1 < |s| && s[i] == '.' && AllZeros(s[i + 1..]))
  }

  /** The leftmost position at or after `i` where `\.?0+$` matches. */
  function FirstZeroTail(s: string, i: nat): (r: Option<nat>)
    requires i <= |s|
    decreases |s| - i
    ensures r.Some? ==> i <= r.value < |s| && ZeroTailAt(s, r.value)
    ensures r.Some? ==> forall j | i <= j < r.value :: !ZeroTailAt(s, j)
    ensures r.None? ==> forall j | i <= j <= |s| :: !ZeroTailAt(s, j)
  {
    if i == |s| then None
    else if ZeroTailAt(s, i) then Some(i)
    else FirstZeroTail(s, i + 1)
  }

  /** `s.replace(/\.?0+$/, "")`: cut the string at the leftmost match. */
  function StripZeroTail(s: string): string {
    match FirstZeroTail(s, 0)
    case Some(i) => s[..i]
    case None => s
  }

  /**
   * On fixed-point text `I.F` the replacement keeps the integer part intact and
   * only drops trailing zeros of the fraction, and the dot with them when the
   * fraction was all zeros.
   */
  lemma StripZeroTailFixed(ip: string, fp: string)
    requires |ip| >= 1 && AllDigits(ip) && AllDigits(fp) && |fp| >= 1
    ensures StripZeroTail(ip + "." + fp) ==
      if AllZeros(fp) then ip else ip + "." + TrimZerosRight(fp)
  {
    if AllZeros(fp) {
      StripZeroFraction(ip, fp);
    } else {
      StripFractionZeros(ip, fp);
    }
  }

  lemma StripZeroFraction(ip: string, fp: string)
    requires AllDigits(ip) && |fp| >= 1 && AllZeros(fp)
    ensures StripZeroTail(ip + "." + fp) == ip
  {
    var s := ip + "." + fp;
    var n := |ip|;
    NoZeroTailInIntPart(ip, fp);
    assert s[n + 1..] == fp;
    assert ZeroTailAt(s, n);
    FirstZeroTailIs(s, 0, n);
    assert s[..n] == ip;
  }

  lemma StripFractionZeros(ip: string, fp: string)
    requires AllDigits(ip) && AllDigits(fp) && !AllZeros(fp)
    ensures StripZeroTail(ip + "." + fp) == ip + "." + TrimZerosRight(fp)
  {
    var s := ip + "." + fp;
    var n := |ip|;
    var t := TrimZerosRight(fp);
    NoZeroTailInIntPart(ip, fp);
    NoZeroTailBeforeFractionEnd(ip, fp);
    if |t| < |fp| {
      var m := n + 1 + |t|;
      assert s[m..] == fp[|t|..];
      assert ZeroTailAt(s, m);
      FirstZeroTailIs(s, 0, m);
      assert s[..m] == ip + "." + t;
    } else {
      FirstZeroTailNone(s, 0);
    }
  }

  /** No match of `\.?0+$` starts inside the integer digits: the dot follows them. */
  lemma NoZeroTailInIntPart(ip: string, fp: string)
    requires AllDigits(ip)
    ensures forall j | 0 <= j < |ip| :: !ZeroTailAt(ip + "." + fp, j)
  {
    var s := ip + "." + fp;
    var n := |ip|;
    forall j | 0 <= j < n ensures !ZeroTailAt(s, j) {
      assert s[j..][n - j] == '.';
      assert IsDigit(s[j]) by { assert s[j] == ip[j]; }
    }
  }

  /** Nor at the dot or within the kept fraction digits, whose last digit is not zero. */
  lemma NoZeroTailBeforeFractionEnd(ip: string, fp: string)
    requires AllDigits(fp) && !AllZeros(fp)
    ensures var t := TrimZerosRight(fp);
      forall j | |ip| <= j < |ip| + 1 + |t| :: !ZeroTailAt(ip + "." + fp, j)
  {
    var s := ip + "." + fp;
    var n := |ip|;
    var t := TrimZerosRight(fp);
    assert t != "";
    assert s[n + 1..] == fp;
    assert !ZeroTailAt(s, n);
    forall j | n < j < n + 1 + |t| ensures !ZeroTailAt(s, j) {
      assert s[j] == fp[j - n - 1];
      assert s[j..][n + |t| - j] == t[|t| - 1] by {
        assert s[n + |t|] == fp[|t| - 1];
      }
    }
  }

  lemma {:induction false} FirstZeroTailIs(s: string, i: nat, m: nat)
    requires i <= m < |s| && ZeroTailAt(s, m)
    requires forall j | i <= j < m :: !ZeroTailAt(s, j)
    ensures FirstZeroTail(s, i) == Some(m)
    decreases m - i
  {
    if i < m { FirstZeroTailIs(s, i + 1, m); }
  }

  lemma {:induction false} FirstZeroTailNone(s: string, i: nat)
    requires i <= |s|
    requires forall j | i <= j <= |s| :: !ZeroTailAt(s, j)
    ensures FirstZeroTail(s, i) == None
    decreases |s| - i
  {
    if i < |s| { FirstZeroTailNone(s, i + 1); }
  }

  const BelowSmallestShown := "< 0.000001"

  /**
   * `formatNumber(value)` on the vault page: "0" for NaN and zero, a marker below
   * one millionth (and for negative numbers), otherwise `toFixed(6)` with the
   * trailing zeros of the fraction removed.
   */
  function FormatNumber(value: string): (r: string)
    ensures ParseFloat(value).NaN? || ParseFloat(value).magnitude.units == 0 ==> r == "0"
    ensures (ParseFloat(value).Num? && ParseFloat(value).magnitude.units > 0 &&
             (ParseFloat(value).negative || Less(ParseFloat(value).magnitude, Decimal(1, 6)))) ==>
      r == BelowSmallestShown
    ensures (ParseFloat(value).Num? && ParseFloat(value).magnitude.units > 0 &&
             !ParseFloat(value).negative && !Less(ParseFloat(value).magnitude, Decimal(1, 6))) ==>
      ShowsMillionths(r, ParseFloat(value).magnitude)
  {
    match ParseFloat(value)
    case NaN => "0"
    case Num(negative, d) =>
      if d.units == 0 then "0"
      else if negative || Less(d, Decimal(1, 6)) then BelowSmallestShown
      else
        var s := ToFixed6(d);
        var ip, fp := s[..|s| - 7], s[|s| - 6..];
        assert s == ip + "." + fp;
        StrippedMillionths(ip, fp);
        StripZeroTail(s)
  }

  /**
   * Text showing `d` to six places: digits, then, unless the fraction is
   * empty, a dot and at most six fraction digits of which the last is not 0;
   * its value is `d` rounded to millionths.
   */
  predicate ShowsMillionths(r: string, d: Decimal) {
    AmountText(r) && IntPart(r) != "" && |FracPart(r)| <= 6 &&
    (FracPart(r) == "" ==> r == IntPart(r)) &&
    (FracPart(r) == "" || FracPart(r)[|FracPart(r)| - 1] != '0') &&
    RoundedToMillionths(DecimalOf(r).units * Pow10(6 - |FracPart(r)|), d)
  }

  /**
   * Stripping the zero tail of `I.F` with six fraction digits leaves amount
   * text with integer part `I` and the same number of millionths.
   */
  lemma StrippedMillionths(ip: string, fp: string)
    requires |ip| >= 1 && AllDigits(ip) && AllDigits(fp) && |fp| == 6
    ensures var r := StripZeroTail(ip + "." + fp);
      AmountText(r) && IntPart(r) == ip && |FracPart(r)| <= 6 &&
      (FracPart(r) == "" ==> r == IntPart(r)) &&
      (FracPart(r) == "" || FracPart(r)[|FracPart(r)| - 1] != '0') &&
      DecimalOf(r).units * Pow10(6 - |FracPart(r)|) == NatOf(ip) * Pow10(6) + NatOf(fp)
  {
    StripZeroTailFixed(ip, fp);
    if AllZeros(fp) {
      StrippedZeroFraction(ip, fp);
    } else {
      StrippedFractionZeros(ip, fp);
    }
  }

  lemma StrippedZeroFraction(ip: string, fp: string)
    requires |ip| >= 1 && AllDigits(ip) && AllZeros(fp)
    ensures AmountText(ip) && IntPart(ip) == ip && FracPart(ip) == "" &&
      DecimalOf(ip).units * Pow10(6) == NatOf(ip) * Pow10(6) + NatOf(fp)
  {
    NatOfZeros(fp);
    JoinParts(ip, "");
    assert ip + "" == ip;
  }

  lemma StrippedFractionZeros(ip: string, fp: string)
    requires |ip| >= 1 && AllDigits(ip) && AllDigits(fp) && |fp| == 6 && !AllZeros(fp)
    ensures var r := ip + "." + TrimZerosRight(fp);
      AmountText(r) && IntPart(r) == ip && FracPart(r) == TrimZerosRight(fp) &&
      1 <= |FracPart(r)| <= 6 && FracPart(r)[|FracPart(r)| - 1] != '0' &&
      DecimalOf(r).units * Pow10(6 - |FracPart(r)|) == NatOf(ip) * Pow10(6) + NatOf(fp)
  {
    TrimmedFraction(fp);
    JoinDotted(ip, TrimZerosRight(fp));
    TrimmedFractionValue(ip, fp);
  }

  /** A fraction that is not all zeros keeps at least one digit when its trailing zeros go. */
  lemma TrimmedFraction(fp: string)
    requires AllDigits(fp) && !AllZeros(fp)
    ensures TrimZerosRight(fp) != "" && AllDigits(TrimZerosRight(fp))
  {
    var t := TrimZerosRight(fp);
    assert AllDigits(t) by { assert t == fp[..|t|]; }
  }

  /** Dropping the fraction's trailing zeros and scaling back keeps the number of millionths. */
  lemma TrimmedFractionValue(ip: string, fp: string)
    requires AllDigits(ip) && AllDigits(fp) && |fp| == 6
    ensures AllDigits(TrimZerosRight(fp)) && AllDigits(ip + TrimZerosRight(fp))
    ensures NatOf(ip + TrimZerosRight(fp)) * Pow10(6 - |TrimZerosRight(fp)|) == NatOf(ip) * Pow10(6) + NatOf(fp)
  {
    var t := TrimZerosRight(fp);
    NatOfTrimZerosRight(fp);
    NatOfAppend(ip, t);
    Pow10Add(|t|, 6 - |t|);
    SpreadScale(NatOf(ip), Pow10(|t|), NatOf(t), Pow10(6 - |t|));
  }



  /** The shapes `formatNumber` can produce. */
  lemma FormatNumberShape(value: string)
    ensures var r := FormatNumber(value);
      r == "0" || r == BelowSmallestShown ||
      (exists ip, fp :: |ip| >= 1 && AllDigits(ip) && AllDigits(fp) &&
         (r == ip || (r == ip + "." + fp && fp != "" && fp[|fp| - 1] != '0')))
  {
    match ParseFloat(value)
    case NaN =>
    case Num(negative, d) =>
      if d.units != 0 && !negative && !Less(d, Decimal(1, 6)) {
        var s := ToFixed6(d);
        var ip, fp := s[..|s| - 7], s[|s| - 6..];
        assert s == ip + "." + fp;
        StripZeroTailFixed(ip, fp);
        var t := TrimZerosRight(fp);
        assert AllDigits(t) by { assert t == fp[..|t|]; }
      }
  }
}
