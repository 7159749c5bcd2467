/**
 * Text encodings needed to explain the emoji of the AI coach's messages:
 * UTF-8 encoding of a string, and decoding of bytes as Windows-1252, where
 * the five bytes that code page leaves undefined are dropped.
 */
module Encoding {
  import opened Lists

  /** An octet. */
  type Byte = b: int | 0 <= b < 256

  /** The UTF-8 bytes of one character. */
  function Utf8Char(c: char): (bytes: seq<Byte>)
    ensures 1 <= |bytes| <= 4
    ensures |bytes| == 1 <==> c as int < 0x80
    ensures |bytes| == 1 ==> bytes[0] == c as int
  {
    var n := c as int;
    if n < 0x80 then [n]
    else if n < 0x800 then [0xC0 + n / 64, 0x80 + n % 64]
    else if n < 0x10000 then [0xE0 + n / 4096, 0x80 + (n / 64) % 64, 0x80 + n % 64]
    else [0xF0 + n / 262144, 0x80 + (n / 4096) % 64, 0x80 + (n / 64) % 64, 0x80 + n % 64]
  }

  function Utf8(s: string): (bytes: seq<Byte>)
    ensures |bytes| >= |s|
  {
    if s == [] then [] else Utf8Char(s[0]) + Utf8(s[1..])
  }

  /** One byte read as Windows-1252: `None` for the undefined 0x81, 0x8D, 0x8F, 0x90 and 0x9D. */
  function Cp1252Char(b: Byte): (c: seq<char>)
    ensures |c| <= 1
    ensures b < 0x80 ==> c == [b as char]
  {
    if b < 0x80 || 0xA0 <= b then [b as char]
    else match b
      case 0x80 => "\U{20AC}"
      case 0x82 => "\U{201A}"
      case 0x83 => "\U{0192}"
      case 0x84 => "\U{201E}"
      case 0x85 => "\U{2026}"
      case 0x86 => "\U{2020}"
      case 0x87 => "\U{2021}"
      case 0x88 => "\U{02C6}"
      case 0x89 => "\U{2030}"
      case 0x8A => "\U{0160}"
      case 0x8B => "\U{2039}"
      case 0x8C => "\U{0152}"
      case 0x8E => "\U{017D}"
      case 0x91 => "\U{2018}"
      case 0x92 => "\U{2019}"
      case 0x93 => "\U{201C}"
      case 0x94 => "\U{201D}"
      case 0x95 => "\U{2022}"
      case 0x96 => "\U{2013}"
      case 0x97 => "\U{2014}"
      case 0x98 => "\U{02DC}"
      case 0x99 => "\U{2122}"
      case 0x9A => "\U{0161}"
      case 0x9B => "\U{203A}"
      case 0x9C => "\U{0153}"
      case 0x9E => "\U{017E}"
      case 0x9F => "\U{0178}"
      case _ => ""
  }

  function Cp1252(bytes: seq<Byte>): (s: string)
    ensures |s| <= |bytes|
  {
    if bytes == [] then "" else Cp1252Char(bytes[0]) + Cp1252(bytes[1..])
  }

  /**
   * The text a UTF-8 file shows when it is opened as Windows-1252: each
   * character's bytes, read one by one.
   */
  function Misread(s: string): (t: string)
    ensures |t| <= 4 * |s|
  {
    if s == [] then "" else Cp1252(Utf8Char(s[0])) + Misread(s[1..])
  }

  /** Misreading is decoding the whole UTF-8 encoding as Windows-1252. */
  lemma {:induction false} MisreadDecodes(s: string)
    ensures Misread(s) == Cp1252(Utf8(s))
    decreases |s|
  {
    if s != [] {
      MisreadDecodes(s[1..]);
      Cp1252Append(Utf8Char(s[0]), Utf8(s[1..]));
    }
  }

  predicate Ascii(s: string) {
    forall i :: 0 <= i < |s| ==> s[i] as int < 0x80
  }

  /** Plain ASCII text survives the misreading; only other characters are garbled. */
  lemma {:induction false} MisreadAscii(s: string)
    requires Ascii(s)
    ensures Misread(s) == s
    decreases |s|
  {
    if s != [] {
      MisreadAscii(s[1..]);
      assert Cp1252(Utf8Char(s[0])) == [s[0]] by {
        assert Utf8Char(s[0]) == [s[0] as int];
        assert Cp1252([s[0] as int]) == Cp1252Char(s[0] as int) + Cp1252([]);
      }
    }
  }

  /** The misreading of a concatenation is the concatenation of the misreadings. */
  lemma {:induction false} MisreadAppend(a: string, b: string)
    ensures Misread(a + b) == Misread(a) + Misread(b)
    decreases |a|
  {
    if a == [] {
      assert a + b == b;
    } else {
      assert (a + b)[1..] == a[1..] + b;
      MisreadAppend(a[1..], b);
    }
  }

  lemma {:induction false} Cp1252Append(a: seq<Byte>, b: seq<Byte>)
    ensures Cp1252(a + b) == Cp1252(a) + Cp1252(b)
    decreases |a|
  {
    if a == [] {
      assert a + b == b;
    } else {
      var x, t := a[0], a[1..];
      assert a == [x] + t && a + b == [x] + (t + b);
      Cp1252Cons(x, t);
      Cp1252Cons(x, t + b);
      Cp1252Append(t, b);
      Associative(Cp1252Char(x), Cp1252(t), Cp1252(b));
    }
  }

  /** One byte of the decoding. */
  lemma Cp1252Cons(x: Byte, s: seq<Byte>)
    ensures Cp1252([x] + s) == Cp1252Char(x) + Cp1252(s)
  {
    assert ([x] + s)[0] == x && ([x] + s)[1..] == s;
  }

  /** Three bytes read one by one. */
  lemma Cp1252Three(a: Byte, b: Byte, c: Byte)
    ensures Cp1252([a, b, c]) == Cp1252Char(a) + Cp1252Char(b) + Cp1252Char(c)
  {
    assert [a, b, c] == [a] + [b, c] && [b, c] == [b] + [c] && [c] == [c] + [];
    Cp1252Cons(a, [b, c]);
    Cp1252Cons(b, [c]);
    Cp1252Cons(c, []);
  }

  /** Four bytes read one by one. */
  lemma Cp1252Four(a: Byte, b: Byte, c: Byte, d: Byte)
    ensures Cp1252([a, b, c, d]) == Cp1252Char(a) + Cp1252Char(b) + Cp1252Char(c) + Cp1252Char(d)
  {
    assert [a, b, c, d] == [a] + [b, c, d];
    Cp1252Cons(a, [b, c, d]);
    Cp1252Three(b, c, d);
  }

  /** The four-byte form of a character outside the Basic Multilingual Plane. */
  lemma Utf8Four(c: char, b0: Byte, b1: Byte, b2: Byte, b3: Byte)
    requires c as int >= 0x10000
    requires b0 == 0xF0 + c as int / 262144 && b1 == 0x80 + (c as int / 4096) % 64
    requires b2 == 0x80 + (c as int / 64) % 64 && b3 == 0x80 + c as int % 64
    ensures Utf8Char(c) == [b0, b1, b2, b3]
  {
  }

  /** The three-byte form of a character from U+0800 to U+FFFF. */
  lemma Utf8Three(c: char, b0: Byte, b1: Byte, b2: Byte)
    requires 0x800 <= c as int < 0x10000
    requires b0 == 0xE0 + c as int / 4096 && b1 == 0x80 + (c as int / 64) % 64 && b2 == 0x80 + c as int % 64
    ensures Utf8Char(c) == [b0, b1, b2]
  {
  }
}
