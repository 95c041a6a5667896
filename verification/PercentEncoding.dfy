/**
  Percent-encoding of text (sections 2.1 and 2.3 of RFC 3986) over UTF-8, as used
  for citation ids and for the values put into connector paths.
 */
module PercentEncoding {

  newtype Byte = b: int | 0 <= b < 256

  // ------------------------------------------------------------------- UTF-8

  /** The UTF-8 bytes of one character. */
  function Utf8(c: char): (bs: seq<Byte>)
    ensures 1 <= |bs| <= 4
  {
    var k := c as int;
    if k < 0x80 then [k as Byte]
    else if k < 0x800 then [(0xC0 + k / 64) as Byte, (0x80 + k % 64) as Byte]
    else if k < 0x10000 then [(0xE0 + k / 4096) as Byte, (0x80 + k / 64 % 64) as Byte, (0x80 + k % 64) as Byte]
    else [(0xF0 + k / 262144) as Byte, (0x80 + k / 4096 % 64) as Byte, (0x80 + k / 64 % 64) as Byte, (0x80 + k % 64) as Byte]
  }

  function Encode(s: string): seq<Byte>
  {
    if s == "" then [] else Utf8(s[0]) + Encode(s[1..])
  }

  /** The first byte tells how many bytes a character has. */
  function Width(first: Byte): nat
  {
    if first < 0x80 then 1 else if first < 0xE0 then 2 else if first < 0xF0 then 3 else 4
  }

  lemma WidthOfFirst(c: char)
    ensures |Utf8(c)| == Width(Utf8(c)[0])
  {
  }

  lemma Utf8Injective(c: char, d: char)
    requires Utf8(c) == Utf8(d)
    ensures c == d
  {
    var (i, j) := (c as int, d as int);
    var (u, v) := (Utf8(c), Utf8(d));
    assert |u| == |v|;
    assert forall n :: 0 <= n < |u| ==> u[n] as int == v[n] as int;
    assert i == j by {
      if |u| == 1 { assert u[0] as int == v[0] as int; }
      else if |u| == 2 { assert i / 64 == j / 64 && i % 64 == j % 64; }
      else if |u| == 3 {
        assert i / 4096 == j / 4096 && i / 64 % 64 == j / 64 % 64 && i % 64 == j % 64;
        assert i / 64 / 64 == i / 4096 && j / 64 / 64 == j / 4096;
      } else {
        assert i / 262144 == j / 262144 && i / 4096 % 64 == j / 4096 % 64 && i / 64 % 64 == j / 64 % 64 && i % 64 == j % 64;
        assert i / 4096 / 64 == i / 262144 && j / 4096 / 64 == j / 262144;
        assert i / 64 / 64 == i / 4096 && j / 64 / 64 == j / 4096;
      }
    }
  }

  lemma {:induction false} EncodeInjective(s: string, t: string)
    requires Encode(s) == Encode(t)
    ensures s == t
  {
    if s == "" || t == "" {
      assert s != "" ==> |Encode(s)| > 0;
      assert t != "" ==> |Encode(t)| > 0;
    } else {
      hide Utf8;
      var (u, v) := (Utf8(s[0]), Utf8(t[0]));
      var (x, y) := (Encode(s[1..]), Encode(t[1..]));
      assert u + x == v + y;
      assert u[0] == (u + x)[0] == v[0];
      WidthOfFirst(s[0]);
      WidthOfFirst(t[0]);
      SplitEqual(u, x, v, y);
      Utf8Injective(s[0], t[0]);
      EncodeInjective(s[1..], t[1..]);
      assert s == [s[0]] + s[1..] && t == [t[0]] + t[1..];
    }
  }

  lemma SplitEqual<T>(u: seq<T>, x: seq<T>, v: seq<T>, y: seq<T>)
    requires u + x == v + y && |u| == |v|
    ensures u == v && x == y
  {
    assert u == (u + x)[..|u|] && v == (v + y)[..|v|];
    assert x == (u + x)[|u|..] && y == (v + y)[|v|..];
  }

  // ---------------------------------------------------------------- quoting

  /** The unreserved characters of section 2.3. */
  predicate Unreserved(c: char)
  {
    || 'A' <= c <= 'Z' || 'a' <= c <= 'z' || '0' <= c <= '9'
    || c == '-' || c == '.' || c == '_' || c == '~'
  }

  function HexDigit(n: nat): (c: char)
    requires n < 16
    ensures '0' <= c <= '9' || 'A' <= c <= 'F'
  {
    if n < 10 then ('0' as int + n) as char else ('A' as int + n - 10) as char
  }

  function HexValue(c: char): (n: nat)
    ensures n < 16
  {
    if '0' <= c <= '9' then c as int - '0' as int else if 'A' <= c <= 'F' then c as int - 'A' as int + 10 else 0
  }

  /** One byte: an unreserved character as it is, anything else as a triplet. */
  function QuoteByte(b: Byte): (s: string)
    ensures |s| == 1 || |s| == 3
  {
    var c := b as int as char;
    if Unreserved(c) then [c] else ['%', HexDigit(b as int / 16), HexDigit(b as int % 16)]
  }

  function QuoteBytes(bs: seq<Byte>): string
  {
    if bs == [] then "" else QuoteByte(bs[0]) + QuoteBytes(bs[1..])
  }

  /** Encodes a text with no character considered safe. */
  function Quote(s: string): string { QuoteBytes(Encode(s)) }

  function Unquote(s: string): seq<Byte>
  {
    if s == "" then []
    else if s[0] == '%' && |s| >= 3 then [(16 * HexValue(s[1]) + HexValue(s[2])) as Byte] + Unquote(s[3..])
    else [(s[0] as int % 256) as Byte] + Unquote(s[1..])
  }

  lemma UnquoteOne(b: Byte, rest: string)
    ensures Unquote(QuoteByte(b) + rest) == [b] + Unquote(rest)
  {
    var q := QuoteByte(b);
    assert (q + rest)[|q|..] == rest;
    assert b as int == 16 * (b as int / 16) + b as int % 16;
  }

  /** Decoding gives back the bytes that were encoded. */
  lemma {:induction false} UnquoteInvertsQuote(bs: seq<Byte>)
    ensures Unquote(QuoteBytes(bs)) == bs
  {
    if bs != [] {
      UnquoteOne(bs[0], QuoteBytes(bs[1..]));
      UnquoteInvertsQuote(bs[1..]);
      assert bs == [bs[0]] + bs[1..];
    }
  }

  /** Different texts have different encodings. */
  lemma QuoteInjective(s: string, t: string)
    requires Quote(s) == Quote(t)
    ensures s == t
  {
    UnquoteInvertsQuote(Encode(s));
    UnquoteInvertsQuote(Encode(t));
    EncodeInjective(s, t);
  }

  predicate QuotedChar(c: char) { Unreserved(c) || c == '%' }

  /** An encoding holds nothing but unreserved characters and percent signs. */
  lemma {:induction false} QuotedChars(bs: seq<Byte>)
    ensures forall c :: c in QuoteBytes(bs) ==> QuotedChar(c)
  {
    if bs != [] {
      QuotedChars(bs[1..]);
      assert forall c :: c in QuoteByte(bs[0]) ==> QuotedChar(c);
    }
  }

  // ------------------------------------------------------------ citation ids

  /** The identifier of a retrieved source version. */
  function CitationId(key: string, version: string): string
  {
    "rag:" + Quote(key) + "@" + Quote(version)
  }

  /** A citation id names one source version: no two pairs share an id. */
  lemma CitationIdInjective(k1: string, v1: string, k2: string, v2: string)
    requires CitationId(k1, v1) == CitationId(k2, v2)
    ensures k1 == k2 && v1 == v2
  {
    hide Quote;
    var (a, b) := (Quote(k1), Quote(v1));
    var (c, d) := (Quote(k2), Quote(v2));
    NoSeparator(k1);
    NoSeparator(k2);
    SplitEqual("rag:", a + "@" + b, "rag:", c + "@" + d) by {
      assert "rag:" + a + "@" + b == "rag:" + (a + "@" + b);
      assert "rag:" + c + "@" + d == "rag:" + (c + "@" + d);
    }
    SplitAtMark(a, b, c, d);
    QuoteInjective(k1, k2);
    QuoteInjective(v1, v2);
  }

  lemma NoSeparator(s: string)
    ensures '@' !in Quote(s) && '/' !in Quote(s) && '{' !in Quote(s) && '}' !in Quote(s)
  {
    QuotedChars(Encode(s));
  }

  lemma SplitAtMark(a: string, b: string, c: string, d: string)
    requires '@' !in a && '@' !in c && a + "@" + b == c + "@" + d
    ensures a == c && b == d
  {
    var s := a + "@" + b;
    assert s[|a|] == '@' && s[|c|] == '@';
    assert forall i :: 0 <= i < |a| ==> s[i] == a[i];
    assert forall i :: 0 <= i < |c| ==> s[i] == c[i];
    SplitEqual(a, "@" + b, c, "@" + d) by {
      assert a + "@" + b == a + ("@" + b) && c + "@" + d == c + ("@" + d);
    }
    SplitEqual("@", b, "@", d);
  }
}
