// Decimal text: how Rust prints an integer, and what its `parse` accepts
// (a leading `+`, leading zeros, `-` for signed types only, no overflow).
module Decimal {
  import opened Prelude

  predicate IsDigit(c: char) {
    '0' <= c <= '9'
  }

  predicate AllDigits(s: string) {
    forall i | 0 <= i < |s| :: IsDigit(s[i])
  }

  function Digit(d: nat): (c: char)
    requires d < 10
    ensures IsDigit(c) && c as int - '0' as int == d
  {
    ('0' as int + d) as char
  }

  /** The decimal text of a natural number. */
  function Dec(n: nat): (s: string)
    ensures s != "" && AllDigits(s)
  {
    if n < 10 then [Digit(n)] else Dec(n / 10) + [Digit(n % 10)]
  }

  /** The decimal text of an integer. */
  function IntText(i: int): string {
    if i < 0 then "-" + Dec(-i) else Dec(i)
  }

  function Value(s: string): nat
    requires AllDigits(s)
  {
    if s == "" then 0
    else 10 * Value(s[..|s| - 1]) + (s[|s| - 1] as int - '0' as int)
  }

  function ParseDigits(s: string): Option<nat> {
    if s != "" && AllDigits(s) then Some(Value(s)) else None
  }

  function ParseUnsigned(s: string): Option<nat> {
    if |s| > 1 && s[0] == '+' then ParseDigits(s[1..]) else ParseDigits(s)
  }

  function ParseSigned(s: string): Option<int> {
    if |s| > 1 && s[0] == '-' then
      match ParseDigits(s[1..])
      case Some(n) => var magnitude: int := n; Some(-magnitude)
      case None => None
    else
      ParseUnsigned(s)
  }

  function ParseU16(s: string): Option<U16> {
    match ParseUnsigned(s)
    case Some(n) => if n < 0x1_0000 then Some(n) else None
    case None => None
  }

  function ParseU32(s: string): Option<U32> {
    match ParseUnsigned(s)
    case Some(n) => if n <= U32_MAX then Some(n) else None
    case None => None
  }

  function ParseI32(s: string): Option<I32> {
    match ParseSigned(s)
    case Some(i) => if -0x8000_0000 <= i < 0x8000_0000 then Some(i) else None
    case None => None
  }

  lemma {:induction false} ValueOfDec(n: nat)
    ensures Value(Dec(n)) == n
  {
    if n >= 10 {
      ValueOfDec(n / 10);
      var s := Dec(n);
      assert s[..|s| - 1] == Dec(n / 10);
    } else {
      assert Dec(n)[..0] == "";
    }
  }

  /** Printing an integer and parsing the text gives the integer back. */
  lemma ParseOfDec(n: nat)
    ensures ParseUnsigned(Dec(n)) == Some(n)
    ensures ParseSigned(Dec(n)) == Some(n)
  {
    ValueOfDec(n);
    assert IsDigit(Dec(n)[0]);
  }

  lemma ParseOfIntText(i: int)
    ensures ParseSigned(IntText(i)) == Some(i)
  {
    if i < 0 {
      ParseOfDec(-i);
      assert IntText(i)[1..] == Dec(-i);
    } else {
      ParseOfDec(i);
    }
  }

  lemma DecInjective(m: nat, n: nat)
    requires Dec(m) == Dec(n)
    ensures m == n
  {
    ValueOfDec(m);
    ValueOfDec(n);
  }

  lemma IntTextInjective(i: int, j: int)
    requires IntText(i) == IntText(j)
    ensures i == j
  {
    ParseOfIntText(i);
    ParseOfIntText(j);
  }

  /** A character that is neither a digit nor `-` does not occur in printed integers. */
  lemma NotInIntText(c: char, i: int)
    requires !IsDigit(c) && c != '-'
    ensures c !in IntText(i)
  {
  }

  // What texts are numbers, said by the places of their digits

  const DIGITS: string := "0123456789"

  function Pow10(k: nat): nat {
    if k == 0 then 1 else 10 * Pow10(k - 1)
  }

  ghost function Place(c: char): nat
    requires c in DIGITS
  {
    var d :| 0 <= d < 10 && DIGITS[d] == c;
    d
  }

  /** The digits, each with the weight of its place. */
  ghost function Weighed(s: string): nat
    requires forall c | c in s :: c in DIGITS
  {
    if s == "" then 0 else Place(s[0]) * Pow10(|s| - 1) + Weighed(s[1..])
  }

  /** `s` is digits, at least one, whose weights add up to `n`. */
  ghost predicate Spells(s: string, n: nat) {
    s != "" && (forall c | c in s :: c in DIGITS) && n == Weighed(s)
  }

  /** One `+` may come before the digits. */
  ghost predicate Reads(s: string, n: nat) {
    Spells(s, n) || ("+" <= s && Spells(s[1..], n))
  }

  /** One `-` may come instead, for the negative of the number. */
  ghost predicate ReadsSigned(s: string, i: int) {
    (i >= 0 && Reads(s, i)) || ("-" <= s && i <= 0 && Spells(s[1..], -i))
  }

  lemma PlaceOfDigit(c: char)
    ensures IsDigit(c) <==> c in DIGITS
    ensures IsDigit(c) ==> Place(c) == c as int - '0' as int
  {
    if IsDigit(c) {
      assert DIGITS[c as int - '0' as int] == c;
    }
  }

  lemma {:induction false} WeighedSnoc(s: string, c: char)
    requires forall d | d in s + [c] :: d in DIGITS
    ensures forall d | d in s :: d in DIGITS
    ensures Weighed(s + [c]) == 10 * Weighed(s) + Place(c)
  {
    assert forall d | d in s :: d in s + [c];
    var t := s + [c];
    if s == "" {
      assert t[1..] == "" && Pow10(0) == 1;
    } else {
      assert t[1..] == s[1..] + [c] && t[0] == s[0];
      assert forall d | d in t[1..] :: d in t;
      WeighedSnoc(s[1..], c);
      WeightOfLonger(Place(s[0]), |s| - 1);
    }
  }

  lemma WeightOfLonger(d: nat, k: nat)
    ensures d * Pow10(k + 1) == 10 * (d * Pow10(k))
  {
  }

  lemma {:induction false} ValueIsWeighed(s: string)
    ensures AllDigits(s) <==> forall c | c in s :: c in DIGITS
    ensures AllDigits(s) ==> Value(s) == Weighed(s)
  {
    forall c ensures IsDigit(c) <==> c in DIGITS {
      PlaceOfDigit(c);
    }
    if AllDigits(s) && s != "" {
      var init, last := s[..|s| - 1], s[|s| - 1];
      assert s == init + [last];
      ValueIsWeighed(init);
      PlaceOfDigit(last);
      WeighedSnoc(init, last);
    }
  }

  lemma ParsesDigits(s: string, n: nat)
    ensures ParseDigits(s) == Some(n) <==> Spells(s, n)
  {
    ValueIsWeighed(s);
  }

  lemma SignIsNoDigit(s: string, n: nat)
    requires s != "" && (s[0] == '+' || s[0] == '-')
    ensures !Spells(s, n)
  {
    assert s[0] in s;
  }

  lemma ParseExactly(s: string, n: nat)
    ensures ParseUnsigned(s) == Some(n) <==> Reads(s, n)
  {
    ParsesDigits(s, n);
    if s != "" && s[0] == '+' {
      SignIsNoDigit(s, n);
      ParsesDigits(s[1..], n);
    }
  }

  /** A text is taken for a number exactly if it spells one that the type can hold, and for that one. */
  lemma ParsePortExactly(s: string, n: nat)
    ensures (exists p :: ParseU16(s) == Some(p) && p == n) <==> Reads(s, n) && n < 65536
  {
    ParseExactly(s, n);
    if Reads(s, n) && n < 65536 {
      var p: U16 := n;
      assert ParseU16(s) == Some(p);
    }
  }

  lemma ParseSequenceExactly(s: string, n: nat)
    ensures (exists p :: ParseU32(s) == Some(p) && p == n) <==> Reads(s, n) && n < 4294967296
  {
    ParseExactly(s, n);
    if Reads(s, n) && n < 4294967296 {
      var p: U32 := n;
      assert ParseU32(s) == Some(p);
    }
  }

  lemma ParseSignedExactly(s: string, i: int)
    ensures ParseSigned(s) == Some(i) <==> ReadsSigned(s, i)
  {
    if i >= 0 {
      ParseExactly(s, i);
    }
    if s != "" && s[0] == '-' {
      if i >= 0 {
        SignIsNoDigit(s, i);
      }
      if i <= 0 {
        ParsesDigits(s[1..], -i);
      }
    }
  }

  lemma ParsePidExactly(s: string, i: int)
    ensures (exists p :: ParseI32(s) == Some(p) && p == i) <==> ReadsSigned(s, i) && -2147483648 <= i < 2147483648
  {
    ParseSignedExactly(s, i);
    if ReadsSigned(s, i) && -2147483648 <= i < 2147483648 {
      var p: I32 := i;
      assert ParseI32(s) == Some(p);
    }
  }

  /** Numbers are printed in digits by their places, without a zero in front. */
  lemma {:induction false} DecSpells(n: nat)
    ensures Spells(Dec(n), n)
    ensures Dec(n)[0] == '0' ==> n == 0 && Dec(n) == "0"
  {
    ParseOfDec(n);
    assert IsDigit(Dec(n)[0]);
    ParsesDigits(Dec(n), n);
    NoLeadingZero(n);
  }

  lemma {:induction false} NoLeadingZero(n: nat)
    ensures Dec(n)[0] == '0' ==> n == 0
  {
    if n >= 10 {
      NoLeadingZero(n / 10);
    }
  }
}
