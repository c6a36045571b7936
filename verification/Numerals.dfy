/** Numerals in base 10 and 16, as fmt prints and scans them. */
module Numerals {
  predicate IsBase(base: nat) { base == 10 || base == 16 }

  function DigitChar(d: nat): char
    requires d < 16
  {
    "0123456789abcdef"[d]
  }

  /** The value of a digit character in the given base, or -1 (the scanner takes both letter cases). */
  function DigitValue(c: char, base: nat): int
    requires IsBase(base)
  {
    if '0' <= c <= '9' then (c - '0') as int
    else if base == 16 && 'a' <= c <= 'f' then (c - 'a') as int + 10
    else if base == 16 && 'A' <= c <= 'F' then (c - 'A') as int + 10
    else -1
  }

  predicate AllDigits(s: string, base: nat)
    requires IsBase(base)
  {
    forall i | 0 <= i < |s| :: DigitValue(s[i], base) >= 0
  }

  /** The shortest numeral of n. */
  function Numeral(n: nat, base: nat): (s: string)
    requires IsBase(base)
    ensures |s| > 0 && AllDigits(s, base)
  {
    if n < base then [DigitChar(n)] else Numeral(n / base, base) + [DigitChar(n % base)]
  }

  /** Lower-case digits, and no zero in front unless it is all there is. */
  lemma {:induction false} NumeralShape(n: nat, base: nat)
    requires IsBase(base)
    ensures forall c | c in Numeral(n, base) :: '0' <= c <= '9' || 'a' <= c <= 'f'
    ensures n > 0 ==> Numeral(n, base)[0] != '0'
  {
    if n >= base { NumeralShape(n / base, base); }
  }

  function Pad(s: string, width: nat): (p: string)
    decreases width - |s|
  {
    if |s| < width then Pad("0" + s, width) else s
  }

  function Value(s: string, base: nat): nat
    requires IsBase(base) && AllDigits(s, base)
  {
    if s == [] then 0
    else Value(s[..|s| - 1], base) * base + DigitValue(s[|s| - 1], base)
  }

  /** How many leading characters are digits; the scanner stops at the first that is not. */
  function DigitRun(s: string, base: nat): (n: nat)
    requires IsBase(base)
    ensures n <= |s| && AllDigits(s[..n], base)
    ensures n < |s| ==> DigitValue(s[n], base) < 0
  {
    if s == [] || DigitValue(s[0], base) < 0 then 0
    else
      var n := DigitRun(s[1..], base);
      assert s[..n + 1] == [s[0]] + s[1..][..n];
      n + 1
  }

  /** The scanned integer: optional sign, then at least one digit; anything else reads as 0. */
  function ScanNumber(s: string, base: nat): int
    requires IsBase(base)
  {
    var signed := s != [] && (s[0] == '+' || s[0] == '-');
    var body := if signed then s[1..] else s;
    var n := DigitRun(body, base);
    if n == 0 then 0
    else if signed && s[0] == '-' then -(Value(body[..n], base) as int)
    else Value(body[..n], base)
  }

  predicate DigitsThen(digits: string, rest: string, base: nat)
    requires IsBase(base)
  {
    digits != [] && AllDigits(digits, base) && (rest != [] ==> DigitValue(rest[0], base) < 0)
  }

  /** The scanner takes all the digits there are. */
  lemma ScanIs(digits: string, rest: string, base: nat)
    requires IsBase(base) && DigitsThen(digits, rest, base)
    ensures ScanNumber(digits + rest, base) == Value(digits, base)
  {
    var s := digits + rest;
    RunIs(digits, rest, base);
    assert s[..|digits|] == digits;
    assert DigitValue(s[0], base) >= 0;
  }

  /** And a sign before them. */
  lemma SignedScanIs(sign: char, digits: string, rest: string, base: nat)
    requires IsBase(base) && DigitsThen(digits, rest, base) && (sign == '+' || sign == '-')
    ensures var s := [sign] + (digits + rest);
            ScanNumber(s, base) == if sign == '-' then -(Value(digits, base) as int) else Value(digits, base)
  {
    var body := digits + rest;
    RunIs(digits, rest, base);
    assert body[..|digits|] == digits;
    assert ([sign] + body)[1..] == body;
  }

  lemma {:induction false} RunIs(digits: string, rest: string, base: nat)
    requires IsBase(base) && AllDigits(digits, base) && (rest != [] ==> DigitValue(rest[0], base) < 0)
    ensures DigitRun(digits + rest, base) == |digits|
  {
    var s := digits + rest;
    if digits == [] {
      assert s == rest;
    } else {
      assert DigitValue(s[0], base) >= 0;
      assert s[1..] == digits[1..] + rest;
      RunIs(digits[1..], rest, base);
    }
  }

  /** Letters count from ten in base 16, in either case, and are no digits in base 10. */
  lemma DigitValues(c: char)
    ensures DigitValue(c, 10) == if '0' <= c <= '9' then c as int - 48 else -1
    ensures DigitValue(c, 16) == if '0' <= c <= '9' then c as int - 48
                                 else if 'a' <= c <= 'f' then c as int - 87
                                 else if 'A' <= c <= 'F' then c as int - 55 else -1
  {
  }

  lemma DigitRoundTrip(d: nat, base: nat)
    requires IsBase(base) && d < base
    ensures DigitValue(DigitChar(d), base) == d
  {
  }

  /** One more digit on the right multiplies by the base and adds. */
  lemma ValueSnoc(s: string, d: nat, base: nat)
    requires IsBase(base) && AllDigits(s, base) && d < base
    ensures AllDigits(s + [DigitChar(d)], base)
    ensures Value(s + [DigitChar(d)], base) == Value(s, base) * base + d
  {
    DigitRoundTrip(d, base);
    var t := s + [DigitChar(d)];
    assert t[..|t| - 1] == s;
  }

  lemma QuotientAndRest(n: nat, base: nat)
    requires IsBase(base)
    ensures n / base * base + n % base == n
  {
  }

  lemma {:induction false} NumeralValue(n: nat, base: nat)
    requires IsBase(base)
    ensures Value(Numeral(n, base), base) == n
  {
    if n < base {
      ValueSnoc([], n, base);
      assert [] + [DigitChar(n)] == Numeral(n, base);
    } else {
      NumeralValue(n / base, base);
      ValueSnoc(Numeral(n / base, base), n % base, base);
      QuotientAndRest(n, base);
    }
  }

  lemma {:induction false} LeadingZero(s: string, base: nat)
    requires IsBase(base) && AllDigits(s, base)
    ensures AllDigits("0" + s, base) && Value("0" + s, base) == Value(s, base)
  {
    if s == [] {
      assert ("0" + s)[..0] == [];
    } else {
      LeadingZero(s[..|s| - 1], base);
      assert ("0" + s)[..|s|] == "0" + s[..|s| - 1];
    }
  }

  lemma {:induction false} PadValue(s: string, width: nat, base: nat)
    requires IsBase(base) && AllDigits(s, base) && |s| > 0
    ensures AllDigits(Pad(s, width), base) && Value(Pad(s, width), base) == Value(s, base)
    ensures |Pad(s, width)| > 0
    decreases width - |s|
  {
    if |s| < width {
      LeadingZero(s, base);
      PadValue("0" + s, width, base);
    }
  }

  function Power(base: nat, n: nat): nat { if n == 0 then 1 else base * Power(base, n - 1) }

  lemma {:induction false} ValueBound(s: string, base: nat)
    requires IsBase(base) && AllDigits(s, base)
    ensures Value(s, base) < Power(base, |s|)
  {
    if s != [] {
      ValueBound(s[..|s| - 1], base);
      OneMoreDigit(Value(s[..|s| - 1], base), DigitValue(s[|s| - 1], base), Power(base, |s| - 1), base);
    }
  }

  lemma OneMoreDigit(v: nat, d: nat, p: nat, base: nat)
    requires v < p && d < base
    ensures v * base + d < p * base
  {
    assert (v + 1) * base <= p * base;
  }

  lemma {:induction false} PowerGrows(base: nat, m: nat, n: nat)
    requires IsBase(base) && m <= n
    ensures 1 <= Power(base, m) <= Power(base, n)
  {
    if m < n { PowerGrows(base, m, n - 1); } else if m > 0 { PowerGrows(base, m - 1, m - 1); }
  }

  lemma {:induction false} NumeralLength(n: nat, base: nat, width: nat)
    requires IsBase(base) && n < Power(base, width) && width > 0
    ensures |Numeral(n, base)| <= width
  {
    if n >= base { NumeralLength(n / base, base, width - 1); }
  }
}
