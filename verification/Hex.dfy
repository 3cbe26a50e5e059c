// Hex payload text: parsing typed tokens into bytes and printing bytes.
module Hex {
  import opened Prelude
  import opened Text

  predicate IsHexDigit(c: char) {
    '0' <= c <= '9' || 'A' <= c <= 'F' || 'a' <= c <= 'f'
  }

  predicate AllHex(s: string) {
    forall i | 0 <= i < |s| :: IsHexDigit(s[i])
  }

  function HexValue(c: char): (v: nat)
    requires IsHexDigit(c)
    ensures v < 16
  {
    if c <= '9' then c as int - '0' as int
    else if c <= 'F' then c as int - 'A' as int + 10
    else c as int - 'a' as int + 10
  }

  function UpperDigit(v: nat): (c: char)
    requires v < 16
    ensures IsHexDigit(c) && HexValue(c) == v
  {
    if v < 10 then ('0' as int + v) as char else ('A' as int + v - 10) as char
  }

  /** All the text of the tokens, without the gaps between them. */
  function Concat(tokens: seq<string>): string {
    if tokens == [] then "" else Concat(tokens[..|tokens| - 1]) + tokens[|tokens| - 1]
  }

  function FirstNonHex(s: string): (r: Option<char>)
    ensures r.None? <==> AllHex(s)
  {
    if s == "" then None
    else
      match FirstNonHex(s[..|s| - 1])
      case Some(c) => Some(c)
      case None => if IsHexDigit(s[|s| - 1]) then None else Some(s[|s| - 1])
  }

  /** The byte that each pair of digits stands for. */
  function Decode(s: string): (bytes: seq<U8>)
    requires AllHex(s) && |s| % 2 == 0
    ensures |bytes| == |s| / 2
    ensures forall i | 0 <= i < |bytes| :: bytes[i] == 16 * HexValue(s[2 * i]) + HexValue(s[2 * i + 1])
  {
    seq(|s| / 2, i requires 0 <= i < |s| / 2 => 16 * HexValue(s[2 * i]) + HexValue(s[2 * i + 1]))
  }

  /** What a payload text means: its bytes, or the first reason to refuse it. */
  function Payload(digits: string): Result<seq<U8>, DomainError> {
    match FirstNonHex(digits)
    case Some(c) => Err(InvalidHex(NonHex(c)))
    case None =>
      if digits == "" then Err(EmptyPayload)
      else if |digits| % 2 != 0 then Err(InvalidHex(OddDigits))
      else Ok(Decode(digits))
  }

  function Pair(b: U8): string {
    [UpperDigit(b / 16), UpperDigit(b % 16)]
  }

  function Pairs(bytes: seq<U8>): (ps: seq<string>)
    ensures |ps| == |bytes|
    ensures forall i | 0 <= i < |ps| :: ps[i] == Pair(bytes[i])
  {
    if bytes == [] then [] else Pairs(bytes[..|bytes| - 1]) + [Pair(bytes[|bytes| - 1])]
  }

  /** The tokens are refused or accepted by their concatenation alone. */
  method ParseHexTokens(tokens: seq<string>) returns (r: Result<seq<U8>, DomainError>)
    ensures r == Payload(Concat(tokens))
  {
    if tokens == [] {
      return Err(EmptyPayload);
    }
    var joined := "";
    for k := 0 to |tokens|
      invariant joined == Concat(tokens[..k]) && AllHex(joined)
    {
      var t := tokens[k];
      ghost var before := joined;
      for j := 0 to |t|
        invariant joined == before + t[..j] && AllHex(joined)
      {
        if !IsHexDigit(t[j]) {
          NonHexDecides(tokens, k, j);
          return Err(InvalidHex(NonHex(t[j])));
        }
        joined := joined + [t[j]];
      }
      assert t[..|t|] == t;
      assert tokens[..k + 1][..k] == tokens[..k];
    }
    assert tokens[..|tokens|] == tokens;
    if joined == "" {
      return Err(EmptyPayload);
    }
    if |joined| % 2 != 0 {
      return Err(InvalidHex(OddDigits));
    }
    var out: seq<U8> := [];
    var i := 0;
    while i < |joined|
      invariant 0 <= i <= |joined| && i % 2 == 0
      invariant out == Decode(joined)[..i / 2]
    {
      var byte: U8 := 16 * HexValue(joined[i]) + HexValue(joined[i + 1]);
      DecodeNext(joined, i);
      out := out + [byte];
      i := i + 2;
    }
    assert out == Decode(joined);
    return Ok(out);
  }

  /** The first character that is no hex digit settles the outcome. */
  lemma NonHexDecides(tokens: seq<string>, k: nat, j: nat)
    requires k < |tokens| && j < |tokens[k]| && !IsHexDigit(tokens[k][j])
    requires AllHex(Concat(tokens[..k]) + tokens[k][..j])
    ensures FirstNonHex(Concat(tokens)) == Some(tokens[k][j])
  {
    var t, before := tokens[k], Concat(tokens[..k]);
    FirstNonHexAt(before + t[..j], t[j], t[j + 1..]);
    assert t == t[..j] + [t[j]] + t[j + 1..];
    assert before + t[..j] + [t[j]] + t[j + 1..] == before + t;
    assert tokens[..k + 1][..k] == tokens[..k];
    FirstNonHexOfConcat(tokens, k + 1, t[j]);
  }

  lemma DecodeNext(s: string, i: nat)
    requires AllHex(s) && |s| % 2 == 0 && i % 2 == 0 && i < |s|
    ensures Decode(s)[..i / 2] + [16 * HexValue(s[i]) + HexValue(s[i + 1])] == Decode(s)[..(i + 2) / 2]
  {
  }

  /** Bytes are printed as upper-case pairs with one space between them. */
  method FormatHexSpaced(bytes: seq<U8>) returns (s: string)
    ensures s == Join(Pairs(bytes))
  {
    s := "";
    for i := 0 to |bytes|
      invariant s == Join(Pairs(bytes[..i]))
    {
      assert bytes[..i + 1][..i] == bytes[..i];
      JoinSnoc(Pairs(bytes[..i]), Pair(bytes[i]));
      if i > 0 {
        s := s + " ";
      }
      s := s + Pair(bytes[i]);
    }
    assert bytes[..|bytes|] == bytes;
  }

  lemma {:induction false} JoinSnoc(words: seq<string>, w: string)
    ensures Join(words + [w]) == if words == [] then w else Join(words) + " " + w
  {
    if |words| == 1 {
      assert (words + [w])[1..] == [w];
    } else if |words| > 1 {
      JoinSnoc(words[1..], w);
      JoinCons(words[0], words[1..]);
      JoinCons(words[0], words[1..] + [w]);
      assert words == [words[0]] + words[1..];
      assert words + [w] == [words[0]] + (words[1..] + [w]);
      var a, b := words[0] + " ", Join(words[1..]);
      assert a + (b + " " + w) == a + b + " " + w;
    }
  }

  lemma JoinCons(head: string, rest: seq<string>)
    requires rest != []
    ensures Join([head] + rest) == head + " " + Join(rest)
  {
    assert ([head] + rest)[1..] == rest;
  }

  lemma {:induction false} FirstNonHexAt(good: string, c: char, rest: string)
    requires AllHex(good) && !IsHexDigit(c)
    ensures FirstNonHex(good + [c] + rest) == Some(c)
  {
    var s := good + [c] + rest;
    if rest == "" {
      assert s[..|s| - 1] == good;
    } else {
      FirstNonHexAt(good, c, rest[..|rest| - 1]);
      assert s[..|s| - 1] == good + [c] + rest[..|rest| - 1];
    }
  }

  lemma {:induction false} FirstNonHexAppend(s: string, t: string, c: char)
    requires FirstNonHex(s) == Some(c)
    ensures FirstNonHex(s + t) == Some(c)
  {
    if t == "" {
      assert s + t == s;
    } else {
      FirstNonHexAppend(s, t[..|t| - 1], c);
      assert (s + t)[..|s + t| - 1] == s + t[..|t| - 1];
    }
  }

  lemma {:induction false} FirstNonHexOfConcat(tokens: seq<string>, k: nat, c: char)
    requires k <= |tokens|
    requires FirstNonHex(Concat(tokens[..k])) == Some(c)
    ensures FirstNonHex(Concat(tokens)) == Some(c)
    decreases |tokens|
  {
    if k == |tokens| {
      assert tokens[..k] == tokens;
    } else {
      var init := tokens[..|tokens| - 1];
      assert init[..k] == tokens[..k];
      FirstNonHexOfConcat(init, k, c);
      FirstNonHexAppend(Concat(init), tokens[|tokens| - 1], c);
    }
  }

  /** Exactly the nonempty, even runs of hex digits are payloads, each byte from its pair. */
  lemma PayloadMeaning(digits: string)
    ensures Payload(digits).Ok? <==> digits != "" && AllHex(digits) && |digits| % 2 == 0
    ensures Payload(digits).Ok? ==>
              var bytes := Payload(digits).value;
              |bytes| * 2 == |digits|
              && forall i | 0 <= i < |bytes| ::
                   bytes[i] == 16 * HexValue(digits[2 * i]) + HexValue(digits[2 * i + 1])
  {
  }

  lemma PairsSnoc(bytes: seq<U8>, b: U8)
    ensures Concat(Pairs(bytes + [b])) == Concat(Pairs(bytes)) + Pair(b)
  {
    assert (bytes + [b])[..|bytes|] == bytes;
    assert Pairs(bytes + [b])[..|bytes|] == Pairs(bytes);
  }

  lemma DecodeSnoc(digits: string, high: char, low: char)
    requires AllHex(digits) && |digits| % 2 == 0 && IsHexDigit(high) && IsHexDigit(low)
    ensures var s := digits + [high, low];
            AllHex(s) && Decode(s) == Decode(digits) + [16 * HexValue(high) + HexValue(low)]
  {
    var s := digits + [high, low];
    assert |s| / 2 == |digits| / 2 + 1;
  }

  /** The digits of printed bytes decode to the bytes. */
  lemma {:induction false} ConcatOfPairs(bytes: seq<U8>)
    ensures var s := Concat(Pairs(bytes));
            AllHex(s) && |s| == 2 * |bytes| && Decode(s) == bytes
  {
    if bytes != [] {
      var n := |bytes| - 1;
      var b := bytes[n];
      ConcatOfPairs(bytes[..n]);
      assert bytes == bytes[..n] + [b];
      PairsSnoc(bytes[..n], b);
      DecodeSnoc(Concat(Pairs(bytes[..n])), UpperDigit(b / 16), UpperDigit(b % 16));
      assert 16 * (b / 16) + b % 16 == b;
    }
  }

  lemma PairsAreWords(bytes: seq<U8>)
    ensures forall w | w in Pairs(bytes) :: IsWord(w) && CanOpen(w) && CanClose(w)
  {
    forall w | w in Pairs(bytes) ensures IsWord(w) && CanOpen(w) && CanClose(w) {
      var i :| 0 <= i < |bytes| && Pairs(bytes)[i] == w;
      assert w == Pair(bytes[i]);
    }
  }

  /** Reading back printed bytes gives the bytes. */
  lemma FormatThenParse(bytes: seq<U8>)
    requires bytes != []
    ensures Tokens(Join(Pairs(bytes))) == Pairs(bytes)
    ensures Payload(Concat(Tokens(Join(Pairs(bytes))))) == Ok(bytes)
  {
    PairsAreWords(bytes);
    TokensOfJoin(Pairs(bytes));
    ConcatOfPairs(bytes);
  }

  function Uppercase(digits: string): string
    requires AllHex(digits)
  {
    seq(|digits|, i requires 0 <= i < |digits| => UpperDigit(HexValue(digits[i])))
  }

  /** Printing parsed bytes gives the typed digits in upper case. */
  lemma {:induction false} ParseThenFormat(digits: string)
    requires AllHex(digits) && |digits| % 2 == 0
    ensures Concat(Pairs(Decode(digits))) == Uppercase(digits)
  {
    if digits != "" {
      var m := |digits| - 2;
      var init, high, low := digits[..m], digits[m], digits[m + 1];
      assert digits == init + [high, low];
      assert AllHex(init) && |init| % 2 == 0 && IsHexDigit(high) && IsHexDigit(low);
      assert Concat(Pairs(Decode(init + [high, low]))) == Uppercase(init + [high, low]) by {
        ParseThenFormat(init);
        ParseThenFormatSnoc(init, high, low);
      }
    }
  }

  lemma {:induction false} ParseThenFormatSnoc(digits: string, high: char, low: char)
    requires AllHex(digits) && |digits| % 2 == 0 && IsHexDigit(high) && IsHexDigit(low)
    requires Concat(Pairs(Decode(digits))) == Uppercase(digits)
    ensures var s := digits + [high, low];
            AllHex(s) && Concat(Pairs(Decode(s))) == Uppercase(s)
  {
    var s, b := digits + [high, low], 16 * HexValue(high) + HexValue(low);
    DecodeSnoc(digits, high, low);
    assert Concat(Pairs(Decode(s))) == Uppercase(digits) + Pair(b) by {
      PairsSnoc(Decode(digits), b);
    }
    UppercaseSnoc(digits, high, low);
  }

  lemma UppercaseSnoc(digits: string, high: char, low: char)
    requires AllHex(digits) && IsHexDigit(high) && IsHexDigit(low)
    ensures Uppercase(digits + [high, low]) == Uppercase(digits) + Pair(16 * HexValue(high) + HexValue(low))
  {
    SplitByte(HexValue(high), HexValue(low));
  }

  lemma SplitByte(high: nat, low: nat)
    requires low < 16
    ensures (16 * high + low) / 16 == high && (16 * high + low) % 16 == low
  {
  }

  // Digits by their place in the alphabet

  const HEX: string := "0123456789ABCDEF"
  const LOWER_HEX: string := "0123456789abcdef"

  lemma DigitPlaces(v: nat)
    requires v < 16
    ensures UpperDigit(v) == HEX[v]
    ensures IsHexDigit(HEX[v]) && HexValue(HEX[v]) == v
    ensures IsHexDigit(LOWER_HEX[v]) && HexValue(LOWER_HEX[v]) == v
  {
  }

  lemma DigitLetters(c: char)
    ensures IsHexDigit(c) <==> c in HEX || c in LOWER_HEX
    ensures IsHexDigit(c) ==> c == HEX[HexValue(c)] || c == LOWER_HEX[HexValue(c)]
  {
  }

  /** `c` is the digit for `v`, in upper or in lower case. */
  predicate IsDigitFor(c: char, v: nat)
    requires v < 16
  {
    c == HEX[v] || c == LOWER_HEX[v]
  }

  /** Two digits for each byte, in any mix of cases. */
  predicate SpellsBytes(digits: string, bytes: seq<U8>) {
    |digits| == 2 * |bytes|
    && forall i | 0 <= i < |bytes| ::
         IsDigitFor(digits[2 * i], bytes[i] / 16) && IsDigitFor(digits[2 * i + 1], bytes[i] % 16)
  }

  lemma DigitForValue(c: char, v: nat)
    requires v < 16
    ensures IsDigitFor(c, v) <==> IsHexDigit(c) && HexValue(c) == v
  {
    DigitPlaces(v);
    DigitLetters(c);
  }

  lemma PairForByte(high: char, low: char, b: U8)
    ensures IsDigitFor(high, b / 16) && IsDigitFor(low, b % 16)
            <==> IsHexDigit(high) && IsHexDigit(low) && 16 * HexValue(high) + HexValue(low) == b
  {
    DigitForValue(high, b / 16);
    DigitForValue(low, b % 16);
    assert b == 16 * (b / 16) + b % 16;
    if IsHexDigit(high) && IsHexDigit(low) && 16 * HexValue(high) + HexValue(low) == b {
      SplitByte(HexValue(high), HexValue(low));
    }
  }

  lemma SpelledIsHex(digits: string, bytes: seq<U8>)
    requires SpellsBytes(digits, bytes)
    ensures AllHex(digits) && |digits| % 2 == 0 && Decode(digits) == bytes
  {
    forall j | 0 <= j < |digits| ensures IsHexDigit(digits[j]) {
      PairForByte(digits[2 * (j / 2)], digits[2 * (j / 2) + 1], bytes[j / 2]);
    }
    forall i | 0 <= i < |bytes| ensures Decode(digits)[i] == bytes[i] {
      PairForByte(digits[2 * i], digits[2 * i + 1], bytes[i]);
    }
  }

  lemma DecodedIsSpelled(digits: string)
    requires AllHex(digits) && |digits| % 2 == 0
    ensures SpellsBytes(digits, Decode(digits))
  {
    forall i | 0 <= i < |Decode(digits)|
      ensures IsDigitFor(digits[2 * i], Decode(digits)[i] / 16) && IsDigitFor(digits[2 * i + 1], Decode(digits)[i] % 16)
    {
      PairForByte(digits[2 * i], digits[2 * i + 1], Decode(digits)[i]);
    }
  }

  /** A payload text stands for just the bytes that it spells, whatever the case of its digits. */
  lemma PayloadSpells(digits: string, bytes: seq<U8>)
    ensures Payload(digits) == Ok(bytes) <==> bytes != [] && SpellsBytes(digits, bytes)
  {
    if bytes != [] && SpellsBytes(digits, bytes) {
      SpelledIsHex(digits, bytes);
    }
    if Payload(digits).Ok? {
      DecodedIsSpelled(digits);
    }
  }

  /** Why a payload text is refused: its first character that is no digit, or nothing there, or half a byte. */
  lemma PayloadRefused(digits: string)
    ensures Payload(digits) == Err(EmptyPayload) <==> digits == ""
    ensures Payload(digits) == Err(InvalidHex(OddDigits))
            <==> (forall c | c in digits :: c in HEX || c in LOWER_HEX) && |digits| % 2 == 1
    ensures forall c :: Payload(digits) == Err(InvalidHex(NonHex(c)))
                        <==> exists i :: IsFirstBad(digits, i) && digits[i] == c
  {
    forall c ensures IsHexDigit(c) <==> c in HEX || c in LOWER_HEX {
      DigitLetters(c);
    }
    FirstBadIs(digits);
  }

  predicate IsFirstBad(s: string, i: int) {
    0 <= i < |s| && s[i] !in HEX && s[i] !in LOWER_HEX && forall j | 0 <= j < i :: s[j] in HEX || s[j] in LOWER_HEX
  }

  lemma {:induction false} FirstBadIs(s: string)
    ensures forall c :: FirstNonHex(s) == Some(c) <==> exists i :: IsFirstBad(s, i) && s[i] == c
  {
    forall c ensures IsHexDigit(c) <==> c in HEX || c in LOWER_HEX {
      DigitLetters(c);
    }
    if FirstNonHex(s).Some? {
      var i := FirstBadAt(s);
      assert forall j | IsFirstBad(s, j) :: j == i;
    }
  }

  lemma {:induction false} FirstBadAt(s: string) returns (i: nat)
    requires FirstNonHex(s).Some?
    ensures IsFirstBad(s, i) && FirstNonHex(s) == Some(s[i])
  {
    forall c ensures IsHexDigit(c) <==> c in HEX || c in LOWER_HEX {
      DigitLetters(c);
    }
    if FirstNonHex(s[..|s| - 1]).Some? {
      i := FirstBadAt(s[..|s| - 1]);
    } else {
      i := |s| - 1;
    }
  }

  /** The tokens' text is put together in their order. */
  lemma ConcatSnoc(tokens: seq<string>, w: string)
    ensures Concat([]) == "" && Concat(tokens + [w]) == Concat(tokens) + w
  {
    assert (tokens + [w])[..|tokens|] == tokens;
  }
}
