// The string primitives that the printers and parsers rely on: splitting at the
// first or last occurrence of a character, trimming, and cutting a line into tokens.
module Text {
  import opened Prelude

  /** The text before and after the first `c`. */
  function SplitOnce(s: string, c: char): (r: Option<(string, string)>)
    ensures r.None? ==> c !in s
    ensures r.Some? ==> s == r.value.0 + [c] + r.value.1 && c !in r.value.0
  {
    if s == "" then None
    else if s[0] == c then Some(("", s[1..]))
    else
      match SplitOnce(s[1..], c)
      case None => None
      case Some((l, r)) => Some(([s[0]] + l, r))
  }

  /** The text before and after the last `c`. */
  function RSplitOnce(s: string, c: char): (r: Option<(string, string)>)
    ensures r.None? ==> c !in s
    ensures r.Some? ==> s == r.value.0 + [c] + r.value.1 && c !in r.value.1
  {
    if s == "" then None
    else
      var n := |s| - 1;
      if s[n] == c then Some((s[..n], ""))
      else
        match RSplitOnce(s[..n], c)
        case None => None
        case Some((l, r)) => Some((l, r + [s[n]]))
  }

  /** The first-occurrence split is the only one whose left part has no `c`. */
  lemma {:induction false} SplitOnceAt(l: string, c: char, r: string)
    requires c !in l
    ensures SplitOnce(l + [c] + r, c) == Some((l, r))
  {
    var s := l + [c] + r;
    if l == "" {
      assert s[1..] == r;
    } else {
      SplitOnceAt(l[1..], c, r);
      assert s[1..] == l[1..] + [c] + r;
      assert l == [l[0]] + l[1..];
    }
  }

  /** The last-occurrence split is the only one whose right part has no `c`. */
  lemma {:induction false} RSplitOnceAt(l: string, c: char, r: string)
    requires c !in r
    ensures RSplitOnce(l + [c] + r, c) == Some((l, r))
  {
    var s := l + [c] + r;
    var n := |s| - 1;
    if r == "" {
      assert s[..n] == l;
    } else {
      var last := |r| - 1;
      RSplitOnceAt(l, c, r[..last]);
      assert s[..n] == l + [c] + r[..last];
      assert r == r[..last] + [r[last]];
    }
  }

  function StripPrefix(s: string, prefix: string): Option<string> {
    if prefix <= s then Some(s[|prefix|..]) else None
  }

  /** The characters with the Unicode property White_Space. */
  predicate IsWhitespace(c: char) {
    var n := c as int;
    9 <= n <= 13 || n == 32 || n == 0x85 || n == 0xA0 || n == 0x1680
    || 0x2000 <= n <= 0x200A || n == 0x2028 || n == 0x2029 || n == 0x202F
    || n == 0x205F || n == 0x3000
  }

  function TrimStart(s: string): string {
    if s != "" && IsWhitespace(s[0]) then TrimStart(s[1..]) else s
  }

  function TrimEnd(s: string): string {
    if s != "" && IsWhitespace(s[|s| - 1]) then TrimEnd(s[..|s| - 1]) else s
  }

  function Trim(s: string): string {
    TrimEnd(TrimStart(s))
  }

  /** The two characters that separate tokens on a line. */
  predicate IsSeparator(c: char) {
    c == ' ' || c == '\t'
  }

  predicate NoSeparators(s: string) {
    forall i | 0 <= i < |s| :: !IsSeparator(s[i])
  }

  /** What one token of a line looks like: other white space than separators may be in it. */
  predicate IsWord(s: string) {
    s != "" && NoSeparators(s)
  }

  /** Words that can stand at the beginning or at the end of a trimmed line. */
  predicate CanOpen(w: string) {
    w != "" && !IsWhitespace(w[0])
  }

  predicate CanClose(w: string) {
    w != "" && !IsWhitespace(w[|w| - 1])
  }

  /** The words of a line. */
  predicate AreTokens(words: seq<string>) {
    words != [] && (forall w | w in words :: IsWord(w)) && CanOpen(words[0]) && CanClose(words[|words| - 1])
  }

  /** All fields of a line, empty ones included: n separators give n + 1 fields. */
  function Fields(s: string): (fs: seq<string>)
    ensures |fs| > 0
  {
    if s == "" then [""]
    else
      var rest := Fields(s[1..]);
      if IsSeparator(s[0]) then [""] + rest
      else [[s[0]] + rest[0]] + rest[1..]
  }

  function DropEmpty(fs: seq<string>): seq<string> {
    if fs == [] then []
    else if fs[0] == "" then DropEmpty(fs[1..])
    else [fs[0]] + DropEmpty(fs[1..])
  }

  function Tokens(line: string): seq<string> {
    DropEmpty(Fields(line))
  }

  lemma {:induction false} FieldsOfWord(w: string)
    requires NoSeparators(w)
    ensures Fields(w) == [w]
  {
    if w != "" {
      FieldsOfWord(w[1..]);
      assert w == [w[0]] + w[1..];
    }
  }

  lemma {:induction false} FieldsUpTo(w: string, c: char, rest: string)
    requires NoSeparators(w) && IsSeparator(c)
    ensures Fields(w + [c] + rest) == [w] + Fields(rest)
  {
    var s := w + [c] + rest;
    if w == "" {
      assert s[1..] == rest;
    } else {
      FieldsUpTo(w[1..], c, rest);
      assert s[1..] == w[1..] + [c] + rest;
      assert s[0] == w[0];
      assert w == [w[0]] + w[1..];
    }
  }

  /** Words joined by single spaces. */
  function Join(words: seq<string>): string {
    if words == [] then ""
    else if |words| == 1 then words[0]
    else words[0] + " " + Join(words[1..])
  }

  /** Cutting a line made of words gives the words back. */
  lemma {:induction false} TokensOfJoin(words: seq<string>)
    requires words != []
    requires forall w | w in words :: IsWord(w)
    ensures Tokens(Join(words)) == words
  {
    var w := words[0];
    assert IsWord(w);
    if |words| == 1 {
      FieldsOfWord(w);
      assert words == [w];
      assert DropEmpty([w]) == [w] + DropEmpty([w][1..]);
    } else {
      FieldsUpTo(w, ' ', Join(words[1..]));
      TokensOfJoin(words[1..]);
      var fs := Fields(Join(words));
      assert fs[0] == w && fs[1..] == Fields(Join(words[1..]));
      assert words == [w] + words[1..];
    }
  }

  lemma {:induction false} JoinEnds(words: seq<string>)
    requires words != [] && words[0] != "" && words[|words| - 1] != ""
    ensures Join(words) != ""
    ensures Join(words)[0] == words[0][0]
    ensures Join(words)[|Join(words)| - 1] == words[|words| - 1][|words[|words| - 1]| - 1]
  {
    JoinLast(words);
  }

  lemma {:induction false} JoinLast(words: seq<string>)
    requires words != [] && words[|words| - 1] != ""
    ensures Join(words) != ""
    ensures Join(words)[|Join(words)| - 1] == words[|words| - 1][|words[|words| - 1]| - 1]
  {
    if |words| > 1 {
      JoinLast(words[1..]);
    }
  }

  /** A line of tokens is not changed by trimming. */
  lemma TrimOfJoin(words: seq<string>)
    requires AreTokens(words)
    ensures Trim(Join(words)) == Join(words) != ""
  {
    assert words[0] in words && words[|words| - 1] in words;
    JoinEnds(words);
  }

  // What can come out of a line

  lemma {:induction false} TrimmedEnds(s: string)
    ensures Trim(s) != "" ==> !IsWhitespace(Trim(s)[0]) && !IsWhitespace(Trim(s)[|Trim(s)| - 1])
  {
    TrimmedStart(s);
    TrimmedEnd(TrimStart(s));
  }

  lemma {:induction false} TrimmedStart(s: string)
    ensures TrimStart(s) != "" ==> !IsWhitespace(TrimStart(s)[0])
  {
    if s != "" && IsWhitespace(s[0]) {
      TrimmedStart(s[1..]);
    }
  }

  lemma {:induction false} TrimmedEnd(s: string)
    ensures TrimEnd(s) != "" ==> !IsWhitespace(TrimEnd(s)[|TrimEnd(s)| - 1]) && TrimEnd(s)[0] == s[0]
    ensures TrimEnd(s) != "" ==> s != ""
  {
    if s != "" && IsWhitespace(s[|s| - 1]) {
      TrimmedEnd(s[..|s| - 1]);
    }
  }

  lemma {:induction false} FieldsHaveNoSeparators(s: string)
    ensures forall f | f in Fields(s) :: NoSeparators(f)
  {
    if s != "" {
      FieldsHaveNoSeparators(s[1..]);
      assert Fields(s[1..])[0] in Fields(s[1..]);
    }
  }

  lemma {:induction false} DropEmptyMembers(fs: seq<string>)
    ensures forall w :: w in DropEmpty(fs) <==> w in fs && w != ""
  {
    if fs != [] {
      DropEmptyMembers(fs[1..]);
      assert fs == [fs[0]] + fs[1..];
    }
  }

  /** A field that is not empty and comes last is the last token. */
  lemma {:induction false} DropEmptyLast(fs: seq<string>)
    requires fs != [] && fs[|fs| - 1] != ""
    ensures DropEmpty(fs) != [] && DropEmpty(fs)[|DropEmpty(fs)| - 1] == fs[|fs| - 1]
  {
    if |fs| == 1 {
      assert DropEmpty(fs[1..]) == [];
    } else {
      DropEmptyLast(fs[1..]);
    }
  }

  lemma {:induction false} LastField(s: string)
    requires s != "" && !IsSeparator(s[|s| - 1])
    ensures var last := Fields(s)[|Fields(s)| - 1];
            last != "" && last[|last| - 1] == s[|s| - 1]
  {
    if |s| == 1 {
      assert Fields(s[1..]) == [""];
      assert Fields(s) == [[s[0]] + ""];
    } else {
      LastField(s[1..]);
      LastFieldAfter(s[0], s[1..]);
      assert s == [s[0]] + s[1..];
    }
  }

  lemma LastFieldAfter(c: char, rest: string)
    requires Fields(rest)[|Fields(rest)| - 1] != ""
    ensures var fs, last := Fields([c] + rest), Fields(rest)[|Fields(rest)| - 1];
            fs[|fs| - 1] == if |Fields(rest)| == 1 && !IsSeparator(c) then [c] + last else last
  {
    assert ([c] + rest)[1..] == rest;
  }

  /** The tokens of a trimmed line that is not empty. */
  lemma TokensOfTrimmed(line: string)
    requires Trim(line) != ""
    ensures AreTokens(Tokens(Trim(line)))
  {
    var s := Trim(line);
    var fs := Fields(s);
    TrimmedEnds(line);
    FieldsHaveNoSeparators(s);
    DropEmptyMembers(fs);
    LastField(s);
    DropEmptyLast(fs);
    assert fs[0] != "" && fs[0][0] == s[0];
    assert Tokens(s)[0] == fs[0];
  }

  /** The white space of Unicode, letter by letter. */
  const BLANKS: string :=
    "\t\n\r \U{b}\U{c}\U{85}\U{a0}\U{1680}\U{2000}\U{2001}\U{2002}\U{2003}\U{2004}\U{2005}\U{2006}\U{2007}"
    + "\U{2008}\U{2009}\U{200a}\U{2028}\U{2029}\U{202f}\U{205f}\U{3000}"

  lemma WhitespaceExactly(c: char)
    ensures IsWhitespace(c) <==> c in BLANKS
  {
    assert forall i | 0 <= i < |BLANKS| :: IsWhitespace(BLANKS[i]);
    if IsWhitespace(c) {
      WhitespaceIsBlank(c);
    }
  }

  lemma WhitespaceIsBlank(c: char)
    requires IsWhitespace(c)
    ensures c in BLANKS
  {
    assert BLANKS[0] == '\t' && BLANKS[1] == '\n' && BLANKS[2] == '\r' && BLANKS[3] == ' ';
    assert BLANKS[4] == '\U{b}' && BLANKS[5] == '\U{c}' && BLANKS[6] == '\U{85}' && BLANKS[7] == '\U{a0}';
    assert BLANKS[8] == '\U{1680}' && BLANKS[20] == '\U{2028}' && BLANKS[21] == '\U{2029}';
    assert BLANKS[22] == '\U{202f}' && BLANKS[23] == '\U{205f}' && BLANKS[24] == '\U{3000}';
    assert 0x2000 <= c as int <= 0x200A ==> BLANKS[9 + (c as int - 0x2000)] == c;
  }

  /** Trimming takes white space from both ends, and nothing else, until neither end is white. */
  lemma {:induction false} TrimExactly(s: string)
    ensures exists a, b :: AllWhite(a) && AllWhite(b) && s == a + Trim(s) + b
    ensures Trim(s) != "" ==> Trim(s)[0] !in BLANKS && Trim(s)[|Trim(s)| - 1] !in BLANKS
  {
    var a := TrimmedFront(s);
    var b := TrimmedBack(TrimStart(s));
    assert s == a + Trim(s) + b;
    TrimmedEnds(s);
    if Trim(s) != "" {
      WhitespaceExactly(Trim(s)[0]);
      WhitespaceExactly(Trim(s)[|Trim(s)| - 1]);
    }
  }

  predicate AllWhite(s: string) {
    forall c | c in s :: c in BLANKS
  }

  lemma {:induction false} TrimmedFront(s: string) returns (a: string)
    ensures AllWhite(a) && s == a + TrimStart(s)
  {
    if s != "" && IsWhitespace(s[0]) {
      WhitespaceExactly(s[0]);
      var rest := TrimmedFront(s[1..]);
      a := [s[0]] + rest;
    } else {
      a := "";
    }
  }

  lemma {:induction false} TrimmedBack(s: string) returns (b: string)
    ensures AllWhite(b) && s == TrimEnd(s) + b
  {
    if s != "" && IsWhitespace(s[|s| - 1]) {
      WhitespaceExactly(s[|s| - 1]);
      var rest := TrimmedBack(s[..|s| - 1]);
      b := rest + [s[|s| - 1]];
    } else {
      b := "";
    }
  }

  /** How every line is cut: a space or tab in front is dropped, and a word is taken up to the next one. */
  lemma TokensDetermined(w: string, c: char, rest: string)
    requires c == ' ' || c == '\t'
    ensures Tokens("") == []
    ensures Tokens([c] + rest) == Tokens(rest)
    ensures w != "" && ' ' !in w && '\t' !in w ==>
              Tokens(w) == [w] && Tokens(w + [c] + rest) == [w] + Tokens(rest)
  {
    assert ([c] + rest)[1..] == rest;
    SeparatorIsDropped(rest);
    assert Fields("") == [""] && DropEmpty([""][1..]) == [];
    if w != "" && ' ' !in w && '\t' !in w {
      assert IsWord(w);
      FieldsOfWord(w);
      FieldsUpTo(w, c, rest);
      WordIsTaken(w, []);
      WordIsTaken(w, Fields(rest));
      assert [w] + [] == [w] && DropEmpty([]) == [];
    }
  }

  lemma SeparatorIsDropped(rest: string)
    ensures DropEmpty([""] + Fields(rest)) == Tokens(rest)
  {
    assert ([""] + Fields(rest))[1..] == Fields(rest);
  }

  lemma WordIsTaken(w: string, fs: seq<string>)
    requires w != ""
    ensures DropEmpty([w] + fs) == [w] + DropEmpty(fs)
  {
    assert ([w] + fs)[1..] == fs;
  }
}
