/** Numbers as they are written into a message, and read back from it. */
module Decimal {
  import opened Common

  function Digit(d: nat): char
    requires d < 10
  {
    '0' + d as char
  }

  predicate IsDigit(c: char) {
    '0' <= c <= '9'
  }

  function DigitValue(c: char): nat
    requires IsDigit(c)
  {
    c as int - '0' as int
  }

  predicate AllDigits(s: string) {
    forall i :: 0 <= i < |s| ==> IsDigit(s[i])
  }

  // ----- writing

  /** The digits of a number, without leading zeros. */
  function Digits(n: nat): (s: string)
    ensures AllDigits(s) && s != [] && (s[0] == '0' ==> |s| == 1)
    ensures n > 0 ==> s[0] != '0'
  {
    if n < 10 then [Digit(n)] else Digits(n / 10) + [Digit(n % 10)]
  }

  /** The last `p` digits of a number, with leading zeros. */
  function Padded(n: nat, p: nat): (s: string)
    ensures AllDigits(s) && |s| == p
  {
    if p == 0 then [] else Padded(n / 10, p - 1) + [Digit(n % 10)]
  }

  /** A number without its last `p` digits. */
  function Whole(n: nat, p: nat): nat {
    if p == 0 then n else Whole(n / 10, p - 1)
  }

  /** A decimal with `p` digits after the point, given as a number of its smallest units. */
  function Unsigned(units: nat, p: nat): string {
    if p == 0 then Digits(units) else Digits(Whole(units, p)) + (['.'] + Padded(units, p))
  }

  function DecimalText(units: int, p: nat): string {
    if units < 0 then ['-'] + Unsigned(-units, p) else Unsigned(units, p)
  }

  function IntText(n: int): string {
    DecimalText(n, 0)
  }

  // ----- reading

  function ReadDigits(s: string): nat
    requires AllDigits(s)
  {
    if s == [] then 0 else ReadDigits(s[..|s| - 1]) * 10 + DigitValue(s[|s| - 1])
  }

  /** The position of the point; the length when there is none. */
  function Point(s: string): (at: nat)
    ensures at <= |s| && '.' !in s[..at]
    ensures at < |s| ==> s[at] == '.'
  {
    if s == [] || s[0] == '.' then 0 else 1 + Point(s[1..])
  }

  /** The numbers of section 6 of RFC 8259, without a sign and without an exponent. */
  predicate IsUnsigned(s: string) {
    var k := Point(s);
    && AllDigits(s[..k]) && k > 0 && (s[0] == '0' ==> k == 1)
    && (k < |s| ==> k + 1 < |s| && AllDigits(s[k + 1..]))
  }

  predicate Negative(s: string) {
    s != [] && s[0] == '-'
  }

  predicate IsNumber(s: string) {
    IsUnsigned(if Negative(s) then s[1..] else s)
  }

  /** `units` counted in steps of ten to the power of minus `places`. */
  datatype Number = Number(units: int, places: nat)

  function ReadUnsigned(s: string): Number
    requires IsUnsigned(s)
  {
    var k := Point(s);
    if k == |s| then Number(ReadDigits(s), 0) else Number(ReadDigits(s[..k] + s[k + 1..]), |s| - k - 1)
  }

  function ReadNumber(s: string): Option<Number> {
    if !IsNumber(s) then None
    else if Negative(s) then
      var n := ReadUnsigned(s[1..]);
      Some(Number(-n.units, n.places))
    else Some(ReadUnsigned(s))
  }

  // ----- the round trip

  lemma ReadSnoc(s: string, c: char)
    requires AllDigits(s) && IsDigit(c)
    ensures AllDigits(s + [c]) && ReadDigits(s + [c]) == ReadDigits(s) * 10 + DigitValue(c)
  {
    assert (s + [c])[..|s|] == s;
  }

  lemma {:induction false} ReadOfDigits(n: nat)
    ensures ReadDigits(Digits(n)) == n
  {
    if n < 10 {
      assert Digits(n) == [] + [Digit(n)];
      ReadSnoc([], Digit(n));
    } else {
      ReadOfDigits(n / 10);
      ReadSnoc(Digits(n / 10), Digit(n % 10));
    }
  }

  lemma {:induction false} ReadOfSplit(n: nat, p: nat)
    ensures ReadDigits(Digits(Whole(n, p)) + Padded(n, p)) == n
  {
    var a := Digits(Whole(n, p));
    if p == 0 {
      ReadOfDigits(n);
      assert a + Padded(n, p) == a;
    } else {
      var b, d := Padded(n / 10, p - 1), Digit(n % 10);
      ReadOfSplit(n / 10, p - 1);
      ReadSnoc(a + b, d);
      assert a + Padded(n, p) == (a + b) + [d];
    }
  }

  lemma {:induction false} PointOfDigits(a: string, b: string)
    requires AllDigits(a)
    ensures Point(a + b) == |a| + Point(b)
  {
    if a == [] {
      assert a + b == b;
    } else {
      PointOfDigits(a[1..], b);
      assert (a + b)[1..] == a[1..] + b;
    }
  }

  lemma UnsignedReadsBack(units: nat, p: nat)
    ensures var s := Unsigned(units, p); IsUnsigned(s) && ReadUnsigned(s) == Number(units, p) && !Negative(s)
  {
    var s := Unsigned(units, p);
    if p == 0 {
      PointOfDigits(s, []);
      assert s + [] == s;
      ReadOfDigits(units);
    } else {
      var a, b := Digits(Whole(units, p)), Padded(units, p);
      PointOfDigits(a, ['.'] + b);
      assert s[..|a|] == a && s[|a| + 1..] == b;
      ReadOfSplit(units, p);
    }
  }

  /** What is written is a number by the grammar, and reads back as the same units and places. */
  lemma DecimalReadsBack(units: int, p: nat)
    ensures IsNumber(DecimalText(units, p)) && ReadNumber(DecimalText(units, p)) == Some(Number(units, p))
  {
    if units < 0 {
      UnsignedReadsBack(-units, p);
      assert DecimalText(units, p)[1..] == Unsigned(-units, p);
    } else {
      UnsignedReadsBack(units, p);
    }
  }
}
