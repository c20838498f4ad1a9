/** Character classes, substring search, case folding and UTF-8 encoding,
    as Python's `str` operations perform them. */
module Text {

  /** The class `[A-Za-z0-9]` of a regular expression. */
  predicate IsAsciiAlnum(c: char) {
    ('A' <= c <= 'Z') || ('a' <= c <= 'z') || ('0' <= c <= '9')
  }

  /** The class `\s` of a `str` pattern in Python's `re`: the characters
      for which `str.isspace()` holds. */
  predicate IsPySpace(c: char) {
    || ('\U{0009}' <= c <= '\U{000D}')
    || ('\U{001C}' <= c <= '\U{0020}')
    || c == '\U{0085}' || c == '\U{00A0}' || c == '\U{1680}'
    || ('\U{2000}' <= c <= '\U{200A}')
    || c == '\U{2028}' || c == '\U{2029}' || c == '\U{202F}'
    || c == '\U{205F}' || c == '\U{3000}'
  }

  /** The class `[A-Za-z0-9]` holds the ASCII letters and digits and nothing next to them. */
  lemma AsciiAlnumBounds()
    ensures IsAsciiAlnum('0') && IsAsciiAlnum('9') && IsAsciiAlnum('A') && IsAsciiAlnum('Z')
    ensures IsAsciiAlnum('a') && IsAsciiAlnum('z')
    ensures !IsAsciiAlnum('/') && !IsAsciiAlnum(':') && !IsAsciiAlnum('@') && !IsAsciiAlnum('[')
    ensures !IsAsciiAlnum('`') && !IsAsciiAlnum('{') && !IsAsciiAlnum('_') && !IsAsciiAlnum('\U{00E9}')
    ensures forall c :: IsAsciiAlnum(c) ==> (c as int) < 0x80
  {
  }

  /** `\s` in a `str` pattern: the ASCII whitespace, the separators U+001C to U+001F,
      and the Unicode spaces (U+0085, U+00A0, U+1680, U+2000 to U+200A, U+2028,
      U+2029, U+202F, U+205F, U+3000), but not the zero-width U+200B, U+180E or U+FEFF. */
  lemma PySpaceMembers()
    ensures IsPySpace(' ') && IsPySpace('\t') && IsPySpace('\n') && IsPySpace('\r')
    ensures IsPySpace('\U{000B}') && IsPySpace('\U{000C}') && IsPySpace('\U{001C}') && IsPySpace('\U{001F}')
    ensures IsPySpace('\U{0085}') && IsPySpace('\U{00A0}') && IsPySpace('\U{1680}')
    ensures IsPySpace('\U{2000}') && IsPySpace('\U{200A}') && IsPySpace('\U{2028}') && IsPySpace('\U{2029}')
    ensures IsPySpace('\U{202F}') && IsPySpace('\U{205F}') && IsPySpace('\U{3000}')
    ensures !IsPySpace('a') && !IsPySpace('&') && !IsPySpace('=') && !IsPySpace('\U{0008}')
    ensures !IsPySpace('\U{200B}') && !IsPySpace('\U{180E}') && !IsPySpace('\U{FEFF}')
  {
  }

  /** `sub` occurs in `s` starting at index `i`. */
  predicate OccursAt(s: string, sub: string, i: int) {
    0 <= i && i + |sub| <= |s| && s[i..i + |sub|] == sub
  }

  /** Python's `sub in s`, searching from index `i` on. */
  function ContainsFrom(s: string, sub: string, i: nat): (b: bool)
    requires i <= |s|
    ensures b <==> exists j :: i <= j && OccursAt(s, sub, j)
    decreases |s| - i
  {
    if OccursAt(s, sub, i) then true
    else if i + |sub| >= |s| then false
    else ContainsFrom(s, sub, i + 1)
  }

  /** Python's `sub in s` for two strings. */
  function Contains(s: string, sub: string): (b: bool)
    ensures b <==> exists j :: OccursAt(s, sub, j)
  {
    ContainsFrom(s, sub, 0)
  }

  /** `str.lower()` on the ASCII letters; every other character is kept. */
  function AsciiLower(c: char): char {
    if 'A' <= c <= 'Z' then (c as int + 32) as char else c
  }

  function LowerAll(s: string): (r: string)
    ensures |r| == |s|
    ensures forall i :: 0 <= i < |s| ==> r[i] == AsciiLower(s[i])
  {
    if s == [] then [] else [AsciiLower(s[0])] + LowerAll(s[1..])
  }

  /** Python's `s.lower() == 'true'`. Only U+0130 and U+212A lowercase into
      ASCII letters ('i' and 'k'), so ASCII folding decides this comparison. */
  predicate IsTrueText(s: string) {
    LowerAll(s) == "true"
  }

  /** `s` is "true" in some mix of letter cases. */
  predicate SpellsTrue(s: string) {
    |s| == 4 && s[0] in "tT" && s[1] in "rR" && s[2] in "uU" && s[3] in "eE"
  }

  lemma {:induction false} IsTrueTextSpelled(s: string)
    ensures IsTrueText(s) <==> SpellsTrue(s)
  {
    var l := LowerAll(s);
    if SpellsTrue(s) {
      assert l[0] == 't' && l[1] == 'r' && l[2] == 'u' && l[3] == 'e';
      assert l == "true";
    }
    if IsTrueText(s) {
      assert |s| == 4;
      assert AsciiLower(s[0]) == 't' && AsciiLower(s[1]) == 'r';
      assert AsciiLower(s[2]) == 'u' && AsciiLower(s[3]) == 'e';
    }
  }

  /** `n` split into its quotient and remainder by 64. */
  lemma Split64(n: int)
    requires n >= 0
    ensures n == (n / 0x40) * 0x40 + n % 0x40 && 0 <= n % 0x40 < 0x40 && n / 0x40 >= 0
  {
  }

  /** The UTF-8 encoding of one Unicode scalar value: lead byte and continuation
      bytes carry the bits of the code point, six per continuation byte. */
  function Utf8Char(c: char): (bs: seq<int>)
    ensures 1 <= |bs| <= 4
    ensures forall k :: 0 <= k < |bs| ==> 0 <= bs[k] < 256
    ensures |bs| == 1 <==> (c as int) < 0x80
    ensures |bs| == 2 <==> 0x80 <= c as int < 0x800
    ensures |bs| == 3 <==> 0x800 <= c as int < 0x1_0000
    ensures |bs| == 1 ==> bs[0] == c as int
    ensures |bs| > 1 ==> 0xC0 <= bs[0] && forall k :: 1 <= k < |bs| ==> 0x80 <= bs[k] < 0xC0
    ensures |bs| == 2 ==> bs[0] < 0xE0 && (bs[0] - 0xC0) * 0x40 + (bs[1] - 0x80) == c as int
    ensures |bs| == 3 ==>
      && 0xE0 <= bs[0] < 0xF0
      && ((bs[0] - 0xE0) * 0x40 + (bs[1] - 0x80)) * 0x40 + (bs[2] - 0x80) == c as int
    ensures |bs| == 4 ==>
      && 0xF0 <= bs[0] < 0xF8
      && (((bs[0] - 0xF0) * 0x40 + (bs[1] - 0x80)) * 0x40 + (bs[2] - 0x80)) * 0x40 + (bs[3] - 0x80) == c as int
  {
    var n := c as int;
    var n1 := n / 0x40;
    var n2 := n1 / 0x40;
    var n3 := n2 / 0x40;
    Split64(n); Split64(n1); Split64(n2);
    if n < 0x80 then [n]
    else if n < 0x800 then [0xC0 + n1, 0x80 + n % 0x40]
    else if n < 0x1_0000 then [0xE0 + n2, 0x80 + n1 % 0x40, 0x80 + n % 0x40]
    else [0xF0 + n3, 0x80 + n2 % 0x40, 0x80 + n1 % 0x40, 0x80 + n % 0x40]
  }

  /** Python's `s.encode('utf-8')`. */
  function Utf8Encode(s: string): (bs: seq<int>)
    ensures |bs| >= |s|
    ensures forall k :: 0 <= k < |bs| ==> 0 <= bs[k] < 256
  {
    if s == [] then [] else Utf8Char(s[0]) + Utf8Encode(s[1..])
  }

  /** An ASCII string encodes to its own code points, one byte each. */
  lemma {:induction false} Utf8EncodeAscii(s: string)
    requires forall i :: 0 <= i < |s| ==> (s[i] as int) < 0x80
    ensures |Utf8Encode(s)| == |s|
    ensures forall i :: 0 <= i < |s| ==> Utf8Encode(s)[i] == s[i] as int
  {
    if s != [] {
      Utf8EncodeAscii(s[1..]);
    }
  }

  /** The code points of a string. */
  function CodePoints(s: string): (cs: seq<int>)
    ensures |cs| == |s| && forall i :: 0 <= i < |s| ==> cs[i] == s[i] as int
  {
    seq(|s|, i requires 0 <= i < |s| => s[i] as int)
  }

  /** How many bytes the UTF-8 sequence led by `b` has; 0 when `b` cannot lead one. */
  function SequenceLength(b: int): nat {
    if b < 0x80 then 1
    else if 0xC0 <= b < 0xE0 then 2
    else if 0xE0 <= b < 0xF0 then 3
    else if 0xF0 <= b < 0xF8 then 4
    else 0
  }

  /** The bits a UTF-8 sequence carries, lead byte first. */
  function SequenceBits(u: seq<int>): int
    requires 1 <= |u| <= 4
  {
    if |u| == 1 then u[0]
    else if |u| == 2 then (u[0] - 0xC0) * 0x40 + (u[1] - 0x80)
    else if |u| == 3 then ((u[0] - 0xE0) * 0x40 + (u[1] - 0x80)) * 0x40 + (u[2] - 0x80)
    else (((u[0] - 0xF0) * 0x40 + (u[1] - 0x80)) * 0x40 + (u[2] - 0x80)) * 0x40 + (u[3] - 0x80)
  }

  /** The smallest code point that needs `n` bytes. */
  function ShortestFor(n: int): int {
    if n <= 1 then 0 else if n == 2 then 0x80 else if n == 3 then 0x800 else 0x1_0000
  }

  /** The code point carried by one UTF-8 sequence, or -1 when the sequence is not
      well formed: a continuation byte outside `10xxxxxx`, an overlong form, a
      surrogate, or a value past U+10FFFF. */
  function DecodeSequence(u: seq<int>): (v: int)
    requires 1 <= |u| <= 4
    ensures v == -1 || (ShortestFor(|u|) <= v < 0x11_0000 && !(0xD800 <= v < 0xE000))
  {
    var v := SequenceBits(u);
    if && (forall k :: 1 <= k < |u| ==> 0x80 <= u[k] < 0xC0)
       && ShortestFor(|u|) <= v < 0x11_0000
       && !(0xD800 <= v < 0xE000)
    then v
    else -1
  }

  /** A strict UTF-8 decoder, the reference the encoder is checked against: each lead
      byte says how many bytes make up the next code point; a byte that cannot lead a
      sequence, a sequence cut short, and an ill-formed sequence decode to -1. */
  function Utf8Decode(bs: seq<int>): (cs: seq<int>)
    ensures |cs| <= |bs|
    decreases |bs|
  {
    if bs == [] then []
    else
      var n := SequenceLength(bs[0]);
      if n == 0 || n > |bs| then [-1] + Utf8Decode(bs[1..])
      else [DecodeSequence(bs[..n])] + Utf8Decode(bs[n..])
  }

  /** The bytes of one character decode to that character, whatever follows them. */
  lemma Utf8CharDecodes(c: char, rest: seq<int>)
    ensures Utf8Decode(Utf8Char(c) + rest) == [c as int] + Utf8Decode(rest)
  {
    var bs := Utf8Char(c);
    var all := bs + rest;
    assert all[0] == bs[0];
    assert SequenceLength(bs[0]) == |bs|;
    assert all[..|bs|] == bs;
    assert all[|bs|..] == rest;
  }

  /** Decoding the UTF-8 encoding of a string gives back its code points: the
      encoding adds, drops and reorders nothing. */
  lemma {:induction false} Utf8RoundTrip(s: string)
    ensures Utf8Decode(Utf8Encode(s)) == CodePoints(s)
  {
    if s != [] {
      Utf8CharDecodes(s[0], Utf8Encode(s[1..]));
      Utf8RoundTrip(s[1..]);
      assert CodePoints(s) == [s[0] as int] + CodePoints(s[1..]);
    }
  }

  /** Different strings have different encodings. */
  lemma Utf8EncodeInjective(s: string, t: string)
    requires Utf8Encode(s) == Utf8Encode(t)
    ensures s == t
  {
    Utf8RoundTrip(s);
    Utf8RoundTrip(t);
    assert |s| == |t|;
    forall i | 0 <= i < |s| ensures s[i] == t[i] {
      assert CodePoints(s)[i] == CodePoints(t)[i];
    }
  }

  /** Ill-formed input is refused: overlong forms of U+0000 and U+0080, the surrogate
      U+D800, and a lead byte followed by an ASCII byte. */
  lemma IllFormedRejected()
    ensures Utf8Decode([0xC0, 0x80]) == [-1]
    ensures Utf8Decode([0xE0, 0x82, 0x80]) == [-1]
    ensures Utf8Decode([0xED, 0xA0, 0x80]) == [-1]
    ensures Utf8Decode([0xC4, 0x41]) == [-1]
  {
    assert [0xC0, 0x80][2..] == [];
    assert [0xE0, 0x82, 0x80][3..] == [];
    assert [0xED, 0xA0, 0x80][3..] == [];
    assert [0xC4, 0x41][2..] == [];
  }
}
