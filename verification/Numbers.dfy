/** Numbers as the native toolchain writes and reads them. Written with `%.15g` a number
    keeps fifteen significant digits; read back it is the number its text stands for. The
    numbers are those integers between which a double leaves no gap. */
module Numbers {
  import opened Syntax

  const GAPLESS := 0x20_0000_0000_0000  // 2^53
  const FIFTEEN := 1_000_000_000_000_000  // the first number of sixteen digits

  type Number = n: int | -GAPLESS <= n <= GAPLESS

  // Digits.

  function Digit(d: nat): char
    requires d < 10
  {
    "0123456789"[d]
  }

  function Digits(n: nat): (s: string)
    ensures s != "" && forall k :: 0 <= k < |s| ==> '0' <= s[k] <= '9'
  {
    if n < 10 then [Digit(n)] else Digits(n / 10) + [Digit(n % 10)]
  }

  function Decimal(n: int): string {
    if n < 0 then "-" + Digits(-n) else Digits(n)
  }

  function Natural(s: string): Option<nat> {
    if s == "" then None
    else
      var c := s[|s| - 1];
      var front := s[..|s| - 1];
      if !('0' <= c <= '9') then None
      else if front == "" then Some((c - '0') as nat)
      else
        match Natural(front)
        case None => None
        case Some(n) => Some(10 * n + (c - '0') as nat)
  }

  function Ten(k: nat): nat {
    if k == 0 then 1 else 10 * Ten(k - 1)
  }

  // Writing.

  /** Sixteen digits to fifteen: to the nearest, and to the even one of two that are equally near. */
  function Rounded(m: nat): nat {
    m / 10 + (if m % 10 > 5 || (m % 10 == 5 && m / 10 % 2 == 1) then 1 else 0)
  }

  function Stripped(s: string): (t: string)
    ensures |t| <= |s| && t == s[..|t|] && (s != "" ==> t != "")
  {
    if |s| > 1 && s[|s| - 1] == '0' then Stripped(s[..|s| - 1]) else s
  }

  /** The digits with a point after the first. */
  function Mantissa(digits: string): string
    requires digits != ""
  {
    if |digits| == 1 then digits else digits[..1] + ("." + digits[1..])
  }

  function Magnitude(m: nat): string {
    if m < FIFTEEN then Digits(m) else Mantissa(Stripped(Digits(Rounded(m)))) + "e+15"
  }

  /** `%.15g` */
  function Formatted(n: Number): string {
    if n < 0 then "-" + Magnitude(-n) else Magnitude(n)
  }

  // Reading.

  predicate HasExponent(s: string) {
    |s| > 4 && s[|s| - 4..] == "e+15"
  }

  /** The digits of a mantissa. */
  function Unpointed(mantissa: string): Option<string> {
    if |mantissa| == 1 then Some(mantissa)
    else if |mantissa| > 2 && mantissa[1] == '.' then Some(mantissa[..1] + mantissa[2..])
    else None
  }

  /** A mantissa with the exponent fifteen: its digits, and the zeros they lack. */
  function Scaled(mantissa: string): Option<nat> {
    var digits := Unpointed(mantissa);
    if digits.None? || |digits.value| > 16 then None
    else
      var n := Natural(digits.value);
      if n.None? then None else Some(n.value * Ten(16 - |digits.value|))
  }

  function MagnitudeOf(s: string): Option<nat> {
    if HasExponent(s) then Scaled(s[..|s| - 4]) else Natural(s)
  }

  /** The number a text stands for. */
  function NumberOf(s: string): Option<int> {
    var negative := s != "" && s[0] == '-';
    var m := MagnitudeOf(if negative then s[1..] else s);
    if m.None? then None
    else
      var n: int := m.value;
      Some(if negative then -n else n)
  }

  function Gapless(n: Option<int>): Option<Number> {
    if n.Some? && -GAPLESS <= n.value <= GAPLESS then Some(n.value) else None
  }

  // What is read of what was written.

  function Kept(m: nat): nat {
    if m < FIFTEEN then m else 10 * Rounded(m)
  }

  /** The number that comes back. */
  function Back(n: Number): (r: Number)
    ensures r == n <==> -FIFTEEN < n < FIFTEEN || n % 10 == 0
  {
    KeptIs(if n < 0 then -n else n);
    var m: int := Kept(if n < 0 then -n else n);
    if n < 0 then -m else m
  }

  /** What is written is nearest to the number among those of fifteen digits, and even if two are. */
  lemma RoundsToNearest(m: nat, k: nat)
    ensures Apart(m, 10 * Rounded(m)) <= Apart(m, 10 * k)
    ensures Apart(m, 10 * Rounded(m)) == Apart(m, 10 * k) && k != Rounded(m) ==> Rounded(m) % 2 == 0
  {
    assert m == 10 * (m / 10) + m % 10;
  }

  function Apart(a: nat, b: nat): nat {
    if a < b then b - a else a - b
  }

  /** A number of sixteen digits is kept exactly when the last one is zero. */
  lemma KeptIs(m: nat)
    requires m <= GAPLESS
    ensures Kept(m) <= GAPLESS
    ensures Kept(m) == m <==> m < FIFTEEN || m % 10 == 0
  {
  }

  lemma {:induction false} NaturalOfDigits(n: nat)
    ensures Natural(Digits(n)) == Some(n)
  {
    var s := Digits(n);
    assert Digit(n % 10) - '0' == (n % 10) as char;
    if n >= 10 {
      NaturalOfDigits(n / 10);
      assert s[..|s| - 1] == Digits(n / 10);
    } else {
      assert s[..|s| - 1] == "";
    }
  }

  lemma {:induction false} DigitCount(n: nat, k: nat)
    requires k > 0
    ensures |Digits(n)| <= k <==> n < Ten(k)
    decreases k
  {
    if n >= 10 && k > 1 { DigitCount(n / 10, k - 1); }
    if k == 1 { assert Ten(1) == 10; }
    if n < 10 { TenGrows(k); }
  }

  lemma {:induction false} TenGrows(k: nat)
    requires k > 0
    ensures Ten(k) >= 10
  {
    if k > 1 { TenGrows(k - 1); }
  }

  lemma {:induction false} StrippedValue(s: string)
    requires s != "" && Natural(s).Some?
    ensures Natural(Stripped(s)).Some? && Natural(s).value == Natural(Stripped(s)).value * Ten(|s| - |Stripped(s)|)
  {
    if |s| > 1 && s[|s| - 1] == '0' {
      var front := s[..|s| - 1];
      StrippedValue(front);
      assert Natural(s).value == 10 * Natural(front).value;
      hide Natural, Ten;
      TenMore(Natural(Stripped(front)).value, |front| - |Stripped(front)|, Natural(front).value);
    } else {
      assert Ten(0) == 1;
    }
  }

  lemma UnpointedBack(digits: string)
    requires digits != ""
    ensures Unpointed(Mantissa(digits)) == Some(digits)
  {
    var m := Mantissa(digits);
    if |digits| > 1 {
      assert m[1] == '.' && m[..1] == digits[..1] && m[2..] == digits[1..];
      assert digits[..1] + digits[1..] == digits;
    }
  }

  lemma ExponentBack(mantissa: string)
    requires mantissa != ""
    ensures MagnitudeOf(mantissa + "e+15") == Scaled(mantissa)
  {
    hide Scaled, Natural;
    var s := mantissa + "e+15";
    assert s[|s| - 4..] == "e+15" && s[..|s| - 4] == mantissa;
  }

  lemma NoExponent(n: nat)
    ensures !HasExponent(Digits(n))
  {
    hide Digits;
    var s := Digits(n);
    if |s| > 4 { assert s[|s| - 4..][0] == s[|s| - 4]; }
  }

  lemma FifteenDigits(m: nat)
    requires FIFTEEN <= m <= GAPLESS
    ensures |Digits(Rounded(m))| == 15
  {
    DigitCount(Rounded(m), 14);
    DigitCount(Rounded(m), 15);
    TenIs();
  }

  lemma TenIs()
    ensures Ten(14) == 100_000_000_000_000 && Ten(15) == FIFTEEN && Ten(1) == 10
  {
    assert Ten(5) == 100_000;
    assert Ten(10) == 10_000_000_000;
  }

  lemma MagnitudeBack(m: nat)
    requires m <= GAPLESS
    ensures MagnitudeOf(Magnitude(m)) == Some(Kept(m))
  {
    if m < FIFTEEN {
      hide Digits, Natural;
      NoExponent(m);
      NaturalOfDigits(m);
    } else {
      hide Digits, Natural, Mantissa, Stripped, MagnitudeOf, Scaled, Rounded;
      var s := Digits(Rounded(m));
      FifteenDigits(m);
      NaturalOfDigits(Rounded(m));
      MantissaText(Stripped(s));
      ExponentBack(Mantissa(Stripped(s)));
      ScaledBack(s, Rounded(m));
    }
  }

  /** The digits that were stripped are put back. */
  lemma ScaledBack(s: string, q: nat)
    requires |s| == 15 && Natural(s) == Some(q)
    ensures Scaled(Mantissa(Stripped(s))) == Some(10 * q)
  {
    hide Natural, Mantissa, Stripped, Unpointed;
    StrippedValue(s);
    var t := Stripped(s);
    UnpointedBack(t);
    TenMore(Natural(t).value, 15 - |t|, q);
  }

  lemma TenMore(a: nat, k: nat, q: nat)
    requires q == a * Ten(k)
    ensures 10 * q == a * Ten(k + 1)
  {
  }

  /** What is read of a written number. */
  lemma NumberBack(n: Number)
    ensures NumberOf(Formatted(n)) == Some(Back(n))
  {
    hide Magnitude, MagnitudeOf, Kept;
    var m := if n < 0 then -n else n;
    MagnitudeBack(m);
    MagnitudeText(m);
    if n < 0 { assert ("-" + Magnitude(m))[1..] == Magnitude(m); }
  }

  /** An address is read back from its decimal digits. */
  lemma DecimalBack(n: int)
    ensures NumberOf(Decimal(n)) == Some(n)
  {
    var m := if n < 0 then -n else n;
    NaturalOfDigits(m);
    NoExponent(m);
    hide Digits, Natural;
    if n < 0 { assert ("-" + Digits(m))[1..] == Digits(m); }
  }

  // The characters of written numbers.

  predicate NumberChar(c: char) {
    '0' <= c <= '9' || c == '-' || c == '+' || c == '.' || c == 'e'
  }

  predicate NumberChars(s: string) {
    forall k :: 0 <= k < |s| ==> NumberChar(s[k])
  }

  lemma MantissaText(digits: string)
    requires digits != ""
    ensures Mantissa(digits) != "" && Mantissa(digits)[0] == digits[0]
    ensures NumberChars(digits) ==> NumberChars(Mantissa(digits))
  {
  }

  lemma MagnitudeText(m: nat)
    ensures Magnitude(m) != "" && '0' <= Magnitude(m)[0] <= '9' && NumberChars(Magnitude(m))
  {
    hide Digits, Stripped, Mantissa;
    if m >= FIFTEEN {
      var t := Stripped(Digits(Rounded(m)));
      forall k | 0 <= k < |t| ensures '0' <= t[k] <= '9' { assert t[k] == Digits(Rounded(m))[k]; }
      MantissaText(t);
    }
  }

  lemma FormattedText(n: Number)
    ensures Formatted(n) != "" && ('0' <= Formatted(n)[0] <= '9' || Formatted(n)[0] == '-') && NumberChars(Formatted(n))
  {
    hide Magnitude;
    MagnitudeText(if n < 0 then -n else n);
  }

  lemma DecimalText(n: int)
    ensures Decimal(n) != "" && ('0' <= Decimal(n)[0] <= '9' || Decimal(n)[0] == '-') && NumberChars(Decimal(n))
  {
    hide Digits;
  }
}
