/**
  Decimal strings as the Hermes adapter handles them (integrations/hermes-hype-comms/adapter.py):
  sequences stay text from the wire to the checkpoint file and are never converted to compare them.
 */
module Decimals {

  const POSTGRES_BIGINT_MAX: nat := 9_223_372_036_854_775_807

  predicate IsDigit(c: char)
  {
    '0' <= c <= '9'
  }

  predicate AllDigits(s: string)
  {
    forall i :: 0 <= i < |s| ==> IsDigit(s[i])
  }

  function Digit(c: char): (d: nat)
    requires IsDigit(c)
    ensures d < 10
  {
    c as int - '0' as int
  }

  /** The number that a digit string denotes, Python's int(). */
  function Value(s: string): nat
    requires AllDigits(s)
  {
    if s == "" then 0 else 10 * Value(s[..|s| - 1]) + Digit(s[|s| - 1])
  }

  /** `Value`, totalised for text that is not a number. */
  function Num(s: string): nat
  {
    if AllDigits(s) then Value(s) else 0
  }

  /** Python's str() of a non-negative integer. */
  function Decimal(n: nat): (s: string)
    ensures AllDigits(s)
  {
    if n < 10 then [n as char + '0'] else Decimal(n / 10) + [(n % 10) as char + '0']
  }

  /** `_DECIMAL_CURSOR`. */
  predicate Canonical(s: string)
  {
    s != "" && AllDigits(s) && (s == "0" || s[0] != '0')
  }

  /** A sequence by its meaning; `_is_sequence` decides it without converting (see IsSequenceMeans). */
  predicate IsSequence(s: string)
  {
    Canonical(s) && Value(s) <= POSTGRES_BIGINT_MAX
  }

  /** `_is_sequence`. */
  predicate PassesSequenceCheck(s: string)
  {
    Canonical(s) && CompareDecimalStrings(s, Decimal(POSTGRES_BIGINT_MAX)) <= 0
  }

  /** `s.lstrip("0")`. */
  function StripZeros(s: string): (r: string)
    ensures AllDigits(s) ==> AllDigits(r)
    ensures r != "" ==> r[0] != '0'
  {
    if s != "" && s[0] == '0' then StripZeros(s[1..]) else s
  }

  /** Python's `<` on strings, by code point. */
  predicate Before(a: string, b: string)
  {
    b != "" && (a == "" || a[0] < b[0] || (a[0] == b[0] && Before(a[1..], b[1..])))
  }

  function Normalized(s: string): string
  {
    if StripZeros(s) == "" then "0" else StripZeros(s)
  }

  /** `_compare_decimal_strings`. */
  function CompareDecimalStrings(left: string, right: string): int
  {
    var l, r := Normalized(left), Normalized(right);
    if |l| != |r| then (if |l| > |r| then 1 else -1)
    else if l == r then 0
    else if Before(r, l) then 1 else -1
  }

  function Pow10(n: nat): (p: nat)
    ensures p >= 1
  {
    if n == 0 then 1 else 10 * Pow10(n - 1)
  }

  lemma ShiftDigit(d: nat, n: nat, rest: nat, last: nat)
    ensures 10 * (d * Pow10(n) + rest) + last == d * Pow10(n + 1) + (10 * rest + last)
  {
    var p := Pow10(n);
    assert d * (10 * p) == 10 * (d * p);
  }

  lemma {:induction false} ValueFromFront(s: string)
    requires AllDigits(s) && s != ""
    ensures Value(s) == Digit(s[0]) * Pow10(|s| - 1) + Value(s[1..])
  {
    if |s| > 1 {
      var front := s[..|s| - 1];
      ValueFromFront(front);
      assert s[1..][..|s| - 2] == front[1..];
      ShiftDigit(Digit(s[0]), |s| - 2, Value(front[1..]), Digit(s[|s| - 1]));
    }
  }

  lemma {:induction false} ValueBound(s: string)
    requires AllDigits(s)
    ensures Value(s) < Pow10(|s|)
  {
    if s != "" { ValueBound(s[..|s| - 1]); }
  }

  lemma {:induction false} StripKeepsValue(s: string)
    requires AllDigits(s)
    ensures Value(StripZeros(s)) == Value(s)
  {
    if s != "" && s[0] == '0' {
      ValueFromFront(s);
      StripKeepsValue(s[1..]);
    }
  }

  lemma NormalizedKeepsValue(s: string)
    requires AllDigits(s)
    ensures Canonical(Normalized(s)) && Value(Normalized(s)) == Value(s)
  {
    StripKeepsValue(s);
  }

  lemma {:induction false} Pow10Grows(m: nat, n: nat)
    requires m <= n
    ensures Pow10(m) <= Pow10(n)
  {
    if m < n { Pow10Grows(m, n - 1); }
  }

  lemma LongerIsGreater(a: string, b: string)
    requires Canonical(a) && Canonical(b) && |a| > |b|
    ensures Value(a) > Value(b)
  {
    hide Value, Pow10;
    ValueFromFront(a);
    ValueBound(b);
    Pow10Grows(|b|, |a| - 1);
    assert Digit(a[0]) * Pow10(|a| - 1) >= Pow10(|a| - 1);
  }

  lemma LeadingDigit(x: nat, y: nat, p: nat, u: nat, v: nat)
    requires u < p && v < p
    ensures x * p + u < y * p + v <==> x < y || (x == y && u < v)
    ensures x * p + u == y * p + v <==> x == y && u == v
  {
    if x < y {
      Gap(x, y, p);
    } else if y < x {
      Gap(y, x, p);
    }
  }

  lemma {:induction false} Gap(x: nat, y: nat, p: nat)
    requires x < y
    ensures x * p + p <= y * p
  {
    if x + 1 < y { Gap(x, y - 1, p); }
    assert y * p == (y - 1) * p + p;
  }

  lemma {:induction false} SameLengthOrder(a: string, b: string)
    requires AllDigits(a) && AllDigits(b) && |a| == |b|
    ensures Before(a, b) <==> Value(a) < Value(b)
    ensures a == b <==> Value(a) == Value(b)
  {
    hide Value, Pow10;
    if a == "" {
      assert b == "";
    } else {
      ValueFromFront(a);
      ValueFromFront(b);
      ValueBound(a[1..]);
      ValueBound(b[1..]);
      SameLengthOrder(a[1..], b[1..]);
      LeadingDigit(Digit(a[0]), Digit(b[0]), Pow10(|a| - 1), Value(a[1..]), Value(b[1..]));
      assert a == [a[0]] + a[1..] && b == [b[0]] + b[1..];
    }
  }

  /** Length, then code points: the numeric order, on every pair of digit strings. */
  lemma CompareIsNumeric(left: string, right: string)
    requires AllDigits(left) && AllDigits(right)
    ensures CompareDecimalStrings(left, right) > 0 <==> Value(left) > Value(right)
    ensures CompareDecimalStrings(left, right) == 0 <==> Value(left) == Value(right)
  {
    var l, r := Normalized(left), Normalized(right);
    NormalizedKeepsValue(left);
    NormalizedKeepsValue(right);
    if |l| > |r| {
      LongerIsGreater(l, r);
    } else if |l| < |r| {
      LongerIsGreater(r, l);
    } else {
      SameLengthOrder(l, r);
      SameLengthOrder(r, l);
    }
  }

  lemma {:induction false} DecimalRoundTrip(n: nat)
    ensures Canonical(Decimal(n)) && Value(Decimal(n)) == n
  {
    if n >= 10 {
      DecimalRoundTrip(n / 10);
      var s := Decimal(n);
      assert s[..|s| - 1] == Decimal(n / 10);
      DecimalPositive(n / 10);
    }
  }

  lemma {:induction false} DecimalPositive(n: nat)
    requires n > 0
    ensures Decimal(n)[0] != '0'
  {
    if n >= 10 { DecimalPositive(n / 10); }
  }

  /** Two canonical spellings of one number are one string, so text equality is numeric equality. */
  lemma CanonicalIsUnique(a: string, b: string)
    requires Canonical(a) && Canonical(b) && Value(a) == Value(b)
    ensures a == b
  {
    if |a| > |b| {
      LongerIsGreater(a, b);
    } else if |b| > |a| {
      LongerIsGreater(b, a);
    } else {
      SameLengthOrder(a, b);
    }
  }

  /** `_is_sequence` accepts exactly the canonical spellings of the numbers up to the bigint maximum. */
  lemma IsSequenceMeans(s: string)
    ensures PassesSequenceCheck(s) <==> IsSequence(s)
  {
    DecimalRoundTrip(POSTGRES_BIGINT_MAX);
    if Canonical(s) { CompareIsNumeric(s, Decimal(POSTGRES_BIGINT_MAX)); }
  }

  lemma DecimalIsSequence(n: nat)
    ensures IsSequence(Decimal(n)) <==> n <= POSTGRES_BIGINT_MAX
  {
    DecimalRoundTrip(n);
  }

  lemma {:induction false} BeforeIsTotal(a: string, b: string)
    ensures !(Before(a, b) && Before(b, a))
    ensures Before(a, b) || Before(b, a) || a == b
    ensures a == b ==> !Before(a, b)
  {
    if a != "" && b != "" {
      BeforeIsTotal(a[1..], b[1..]);
      assert a == [a[0]] + a[1..] && b == [b[0]] + b[1..];
    }
  }

  lemma {:induction false} BeforeIsTransitive(a: string, b: string, c: string)
    requires Before(a, b) && Before(b, c)
    ensures Before(a, c)
  {
    if a != "" && a[0] == b[0] && b[0] == c[0] {
      BeforeIsTransitive(a[1..], b[1..], c[1..]);
    }
  }
}
