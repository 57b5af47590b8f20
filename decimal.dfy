/** Ruby's `Integer#to_s` and `String#to_i` in base 10, and the round trip
    the lookup fallback uses to decide whether a member name is an index. */
module Decimal {

  predicate IsDigit(c: char) {
    '0' <= c <= '9'
  }

  predicate AllDigits(d: string) {
    forall i :: 0 <= i < |d| ==> IsDigit(d[i])
  }

  function DigitVal(c: char): (n: nat)
    requires IsDigit(c)
    ensures n < 10
  {
    (c as int) - ('0' as int)
  }

  function DigitChar(n: nat): (c: char)
    requires n < 10
    ensures IsDigit(c) && DigitVal(c) == n
  {
    (('0' as int) + n) as char
  }

  /** The number a string of decimal digits denotes, most significant first. */
  function DecValue(d: string): nat
    requires AllDigits(d)
  {
    if d == [] then 0 else DecValue(d[..|d| - 1]) * 10 + DigitVal(d[|d| - 1])
  }

  /** The decimal digits of n, without sign or leading zeros. */
  function Digits(n: nat): (r: string)
    ensures |r| > 0 && AllDigits(r)
    ensures r[0] == '0' ==> n == 0 && r == "0"
  {
    if n < 10 then [DigitChar(n)] else Digits(n / 10) + [DigitChar(n % 10)]
  }

  /** `Integer#to_s`: a minus sign exactly for a negative number. */
  function ToS(n: int): (r: string)
    ensures |r| > 0 && (r[0] == '-' <==> n < 0)
  {
    if n < 0 then "-" + Digits(-n) else Digits(n)
  }

  /** The characters Ruby's conversion skips before a number. */
  predicate IsSpace(c: char) {
    c == ' ' || c == '\t' || c == '\n' || c == '\U{000B}' || c == '\U{000C}' || c == '\r'
  }

  function SkipSpace(s: string): (t: string)
    ensures |t| <= |s| && t == s[|s| - |t|..]
  {
    if s != [] && IsSpace(s[0]) then SkipSpace(s[1..]) else s
  }

  /** The digits `String#to_i` reads from the front of t: a run of digits in
      which a single underscore may stand between two digits. The underscores
      are dropped. */
  function DigitRun(t: string): (r: string)
    ensures AllDigits(r)
  {
    if t == [] || !IsDigit(t[0]) then []
    else [t[0]] + (if |t| >= 3 && t[1] == '_' && IsDigit(t[2]) then DigitRun(t[2..]) else DigitRun(t[1..]))
  }

  /** The magnitude read after the sign; base 10 accepts a `0d` radix prefix. */
  function Magnitude(t: string): nat {
    var u := if |t| >= 2 && t[0] == '0' && (t[1] == 'd' || t[1] == 'D') then t[2..] else t;
    DecValue(DigitRun(u))
  }

  /** `String#to_i`: leading white space, one optional sign, then digits; it
      stops at the first character that does not fit, and reads 0 when no
      digit comes first. */
  function ToI(s: string): (r: int)
    ensures r < 0 ==> SkipSpace(s) != [] && SkipSpace(s)[0] == '-'
  {
    var t := SkipSpace(s);
    if t != [] && t[0] == '-' then 0 - Magnitude(t[1..])
    else if t != [] && t[0] == '+' then Magnitude(t[1..])
    else Magnitude(t)
  }

  /** The text `Integer#to_s` produces: "0", or digits without a leading zero,
      optionally after a minus sign. */
  predicate Canonical(s: string) {
    || s == "0"
    || (|s| >= 1 && '1' <= s[0] <= '9' && AllDigits(s))
    || (|s| >= 2 && s[0] == '-' && '1' <= s[1] <= '9' && AllDigits(s[1..]))
  }

  /** `keyval.to_i.to_s == keyval` */
  predicate RoundTrips(s: string)
    ensures RoundTrips(s) ==> s != [] && (s[0] == '-' <==> ToI(s) < 0)
  {
    ToS(ToI(s)) == s
  }

  lemma {:induction false} DigitsValue(n: nat)
    ensures DecValue(Digits(n)) == n
  {
    if n >= 10 {
      DigitsValue(n / 10);
      var d := Digits(n);
      assert d[..|d| - 1] == Digits(n / 10);
    }
  }

  lemma {:induction false} DigitRunOfDigits(d: string)
    requires AllDigits(d)
    ensures DigitRun(d) == d
  {
    if d != [] {
      DigitRunOfDigits(d[1..]);
    }
  }

  /** DecValue is positive on a digit string that does not start with 0. */
  lemma {:induction false} DecValuePositive(d: string)
    requires |d| > 0 && AllDigits(d) && d[0] != '0'
    ensures DecValue(d) > 0
  {
    if |d| > 1 {
      DecValuePositive(d[..|d| - 1]);
    }
  }

  lemma {:induction false} ValueDigits(d: string)
    requires |d| > 0 && AllDigits(d) && d[0] != '0'
    ensures Digits(DecValue(d)) == d
  {
    if |d| > 1 {
      var init := d[..|d| - 1];
      DecValuePositive(init);
      ValueDigits(init);
      var n := DecValue(d);
      assert n / 10 == DecValue(init) && n % 10 == DigitVal(d[|d| - 1]);
      assert DigitChar(n % 10) == d[|d| - 1];
    }
  }

  lemma ToSCanonical(n: int)
    ensures Canonical(ToS(n))
  {
    if n < 0 {
      var d := Digits(-n);
      assert ToS(n)[1..] == d;
    }
  }

  lemma DigitsMagnitude(d: string)
    requires |d| > 0 && AllDigits(d)
    ensures Magnitude(d) == DecValue(d)
  {
    assert !(|d| >= 2 && (d[1] == 'd' || d[1] == 'D'));
    DigitRunOfDigits(d);
  }

  /** A plain digit string, leading zeros and all, reads as its value. */
  lemma DigitsToI(d: string)
    requires |d| > 0 && AllDigits(d)
    ensures ToI(d) == DecValue(d)
  {
    assert SkipSpace(d) == d;
    assert d[0] != '-' && d[0] != '+';
    DigitsMagnitude(d);
  }

  /** A minus sign before a digit string reads as the negated value. */
  lemma NegativeToI(d: string)
    requires |d| > 0 && AllDigits(d)
    ensures ToI("-" + d) == 0 - DecValue(d)
  {
    var s := "-" + d;
    assert SkipSpace(s) == s;
    assert s[0] == '-' && s[1..] == d;
    DigitsMagnitude(d);
  }

  /** A canonical text reads back as the number it spells. */
  lemma CanonicalValue(s: string)
    requires Canonical(s)
    ensures s[0] == '-' ==> ToI(s) == 0 - DecValue(s[1..])
    ensures s[0] != '-' ==> ToI(s) == DecValue(s)
  {
    if s[0] == '-' {
      assert s == "-" + s[1..];
      NegativeToI(s[1..]);
    } else {
      DigitsToI(s);
    }
  }

  /** Reading back what `Integer#to_s` wrote gives the number again. */
  lemma ToIToS(n: int)
    ensures ToI(ToS(n)) == n
  {
    ToSCanonical(n);
    var s := ToS(n);
    CanonicalValue(s);
    if n < 0 {
      var d := Digits(-n);
      assert s == "-" + d;
      assert s[0] == '-' && s[1..] == d;
      DigitsValue(-n);
    } else {
      assert s == Digits(n);
      assert IsDigit(s[0]);
      DigitsValue(n);
    }
  }

  /** A negative canonical text round-trips. */
  lemma NegativeRoundTrips(d: string)
    requires |d| > 0 && AllDigits(d) && d[0] != '0'
    ensures RoundTrips("-" + d)
  {
    var n: int := DecValue(d);
    NegativeToI(d);
    DecValuePositive(d);
    ValueDigits(d);
    calc {
      ToS(ToI("-" + d));
      ToS(0 - n);
      "-" + Digits(n);
      "-" + d;
    }
  }

  /** A canonical text without sign round-trips. */
  lemma UnsignedRoundTrips(s: string)
    requires s == "0" || (|s| >= 1 && '1' <= s[0] <= '9' && AllDigits(s))
    ensures RoundTrips(s)
  {
    assert Canonical(s);
    CanonicalValue(s);
    if s != "0" {
      ValueDigits(s);
    }
  }

  lemma CanonicalRoundTrips(s: string)
    requires Canonical(s)
    ensures RoundTrips(s)
  {
    if |s| >= 2 && s[0] == '-' {
      assert s == "-" + s[1..];
      NegativeRoundTrips(s[1..]);
    } else {
      UnsignedRoundTrips(s);
    }
  }

  /** The round trip succeeds exactly on canonical texts, so "007", "+7",
      " 7", "7_0" and "-0" stay strings while "7" and "-12" become integers. */
  lemma RoundTripIffCanonical(s: string)
    ensures RoundTrips(s) <==> Canonical(s)
  {
    if RoundTrips(s) {
      ToSCanonical(ToI(s));
    }
    if Canonical(s) {
      CanonicalRoundTrips(s);
    }
  }

  lemma LeadingZeroValue()
    ensures AllDigits("007") && DecValue("007") == 7
  {
    assert "007"[..2] == "00" && "00"[..1] == "0";
    assert "0"[..0] == [];
  }

  lemma LeadingZeroStaysText()
    ensures !RoundTrips("007") && ToI("007") == 7
  {
    RoundTripIffCanonical("007");
    assert !Canonical("007");
    LeadingZeroValue();
    DigitsToI("007");
  }
}
