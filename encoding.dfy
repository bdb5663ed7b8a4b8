/** The byte and text encodings the signature builder relies on: UTF-8
    (`str.encode('utf-8')`), hexadecimal digits (`bytes.hex()` followed by
    `str.upper()`) and Base64 as defined in section 4 of RFC 4648
    (`base64.b64encode`). */
module Encoding {

  type Byte = b: int | 0 <= b < 256
  type Bytes = seq<Byte>

  /** The line feed byte, `b'\n'`. */
  const NEWLINE: Byte := 10

  /** Number of occurrences of `x` in `s`. */
  function Count<T(==)>(s: seq<T>, x: T): nat
  {
    if |s| == 0 then 0 else (if s[0] == x then 1 else 0) + Count(s[1..], x)
  }

  lemma {:induction false} CountAppend<T>(a: seq<T>, b: seq<T>, x: T)
    ensures Count(a + b, x) == Count(a, x) + Count(b, x)
  {
    if |a| == 0 {
      assert a + b == b;
    } else {
      assert (a + b)[1..] == a[1..] + b;
      CountAppend(a[1..], b, x);
    }
  }

  lemma CountZero<T>(s: seq<T>, x: T)
    ensures Count(s, x) == 0 <==> x !in s
  {
  }

  // ---------------------------------------------------------------------------
  // UTF-8

  /** A byte that continues a multi-byte sequence: `10xxxxxx`. */
  predicate IsContinuation(b: Byte)
  {
    0x80 <= b < 0xC0
  }

  /** The UTF-8 encoding of one Unicode scalar value: the code point's bits
      split into 6-bit groups, the lowest group last. */
  function Utf8Char(c: char): (bytes: Bytes)
    ensures 1 <= |bytes| <= 4
    ensures |bytes| == 1 <==> c as int < 0x80
    ensures |bytes| == 1 ==> bytes[0] == c as int
    ensures |bytes| > 1 ==> bytes[0] >= 0xC0 && forall k :: 1 <= k < |bytes| ==> IsContinuation(bytes[k])
  {
    var n := c as int;
    var q1, r1 := n / 64, n % 64;
    var q2, r2 := q1 / 64, q1 % 64;
    var q3, r3 := q2 / 64, q2 % 64;
    if n < 0x80 then [n]
    else if n < 0x800 then [0xC0 + q1, 0x80 + r1]
    else if n < 0x10000 then [0xE0 + q2, 0x80 + r2, 0x80 + r1]
    else [0xF0 + q3, 0x80 + r3, 0x80 + r2, 0x80 + r1]
  }

  /** The code point a well-formed UTF-8 sequence of one character stands for. */
  function DecodeUtf8Char(bytes: Bytes): int
    requires 1 <= |bytes| <= 4
  {
    var b0 := bytes[0] as int;
    if |bytes| == 1 then b0
    else
      var tail := bytes[|bytes| - 1] as int - 0x80;
      if |bytes| == 2 then (b0 - 0xC0) * 64 + tail
      else if |bytes| == 3 then ((b0 - 0xE0) * 64 + (bytes[1] as int - 0x80)) * 64 + tail
      else (((b0 - 0xF0) * 64 + (bytes[1] as int - 0x80)) * 64 + (bytes[2] as int - 0x80)) * 64 + tail
  }

  /** Decoding a character's encoding gives back its code point, so distinct
      characters have distinct encodings. */
  lemma Utf8CharRoundTrip(c: char)
    ensures DecodeUtf8Char(Utf8Char(c)) == c as int
  {
    var n := c as int;
    var q1 := n / 64;
    var q2 := q1 / 64;
    assert n == q1 * 64 + n % 64;
    assert q1 == q2 * 64 + q1 % 64;
    assert q2 == (q2 / 64) * 64 + q2 % 64;
  }

  /** The length of the sequence a lead byte starts. */
  function SequenceLength(lead: Byte): int
  {
    if lead < 0x80 then 1 else if lead < 0xE0 then 2 else if lead < 0xF0 then 3 else 4
  }

  /** The lead byte tells how long a character's encoding is: UTF-8 is a prefix code. */
  lemma Utf8CharLead(c: char)
    ensures SequenceLength(Utf8Char(c)[0]) == |Utf8Char(c)|
  {
    var n := c as int;
    assert n < 0x800 ==> n / 64 < 32;
    assert n < 0x10000 ==> (n / 64) / 64 < 16;
  }

  lemma Utf8CharInjective(a: char, b: char)
    requires Utf8Char(a) == Utf8Char(b)
    ensures a == b
  {
    Utf8CharRoundTrip(a);
    Utf8CharRoundTrip(b);
  }

  /** The line feed byte occurs in a character's encoding only for the line
      feed character itself, and then once. */
  lemma Utf8CharNewline(c: char)
    ensures Count(Utf8Char(c), NEWLINE) == (if c == '\n' then 1 else 0)
  {
    var b := Utf8Char(c);
    if |b| > 1 {
      assert b[0] != NEWLINE;
      assert NEWLINE !in b[1..] by {
        forall k | 0 <= k < |b[1..]| ensures b[1..][k] != NEWLINE {
          assert IsContinuation(b[k + 1]);
        }
      }
      CountZero(b[1..], NEWLINE);
    }
  }

  /** `s.encode('utf-8')`. */
  function Utf8(s: string): (bytes: Bytes)
    ensures |s| <= |bytes| <= 4 * |s|
  {
    if |s| == 0 then [] else Utf8Char(s[0]) + Utf8(s[1..])
  }

  lemma {:induction false} Utf8Append(a: string, b: string)
    ensures Utf8(a + b) == Utf8(a) + Utf8(b)
  {
    if |a| > 0 {
      assert (a + b)[0] == a[0] && (a + b)[1..] == a[1..] + b;
      Utf8Append(a[1..], b);
    } else {
      assert a + b == b;
    }
  }

  /** Distinct strings have distinct encodings. */
  lemma {:induction false} Utf8Injective(a: string, b: string)
    requires Utf8(a) == Utf8(b)
    ensures a == b
  {
    if |a| > 0 && |b| > 0 {
      var ea, eb := Utf8Char(a[0]), Utf8Char(b[0]);
      assert Utf8(a) == ea + Utf8(a[1..]) && Utf8(b) == eb + Utf8(b[1..]);
      assert ea[0] == Utf8(a)[0] == eb[0];
      Utf8CharLead(a[0]);
      Utf8CharLead(b[0]);
      assert ea == Utf8(a)[..|ea|] == eb;
      Utf8CharInjective(a[0], b[0]);
      assert Utf8(a[1..]) == Utf8(a)[|ea|..] == Utf8(b[1..]);
      Utf8Injective(a[1..], b[1..]);
      assert a == [a[0]] + a[1..] && b == [b[0]] + b[1..];
    }
  }

  /** The encoding of a string holds exactly as many line feed bytes as the
      string has line feed characters. */
  lemma {:induction false} Utf8Newlines(s: string)
    ensures Count(Utf8(s), NEWLINE) == Count(s, '\n')
  {
    if |s| > 0 {
      Utf8CharNewline(s[0]);
      CountAppend(Utf8Char(s[0]), Utf8(s[1..]), NEWLINE);
      Utf8Newlines(s[1..]);
    }
  }

  lemma Utf8NoNewline(s: string)
    requires '\n' !in s
    ensures NEWLINE !in Utf8(s)
  {
    CountZero(s, '\n');
    Utf8Newlines(s);
    CountZero(Utf8(s), NEWLINE);
  }

  // ---------------------------------------------------------------------------
  // Splitting at a separator byte

  /** `bytes.split(sep)`: the pieces between separators, one more than there
      are separators. */
  function Split(b: Bytes, sep: Byte): (parts: seq<Bytes>)
    ensures |parts| == Count(b, sep) + 1
  {
    if |b| == 0 then [[]]
    else if b[0] == sep then [[]] + Split(b[1..], sep)
    else var rest := Split(b[1..], sep); [[b[0]] + rest[0]] + rest[1..]
  }

  /** Each piece followed by the separator, as a sequence of `update` calls
      writes them. */
  function Framed(pieces: seq<Bytes>, sep: Byte): Bytes
  {
    if |pieces| == 0 then [] else pieces[0] + [sep] + Framed(pieces[1..], sep)
  }

  /** Framing one more piece appends it and its separator. */
  lemma {:induction false} FramedSnoc(pieces: seq<Bytes>, piece: Bytes, sep: Byte)
    ensures Framed(pieces + [piece], sep) == Framed(pieces, sep) + piece + [sep]
  {
    if |pieces| == 0 {
      assert pieces + [piece] == [piece];
    } else {
      assert (pieces + [piece])[1..] == pieces[1..] + [piece];
      FramedSnoc(pieces[1..], piece, sep);
    }
  }

  /** Eight framed pieces, written out. */
  lemma FramedEight(ls: seq<Bytes>, sep: Byte)
    requires |ls| == 8
    ensures Framed(ls, sep) == ls[0] + [sep] + ls[1] + [sep] + ls[2] + [sep] + ls[3] + [sep]
                             + ls[4] + [sep] + ls[5] + [sep] + ls[6] + [sep] + ls[7] + [sep]
  {
    assert ls[..0] == [];
    assert ls[..1] == ls[..0] + [ls[0]];
    FramedSnoc(ls[..0], ls[0], sep);
    assert ls[..2] == ls[..1] + [ls[1]];
    FramedSnoc(ls[..1], ls[1], sep);
    assert ls[..3] == ls[..2] + [ls[2]];
    FramedSnoc(ls[..2], ls[2], sep);
    assert ls[..4] == ls[..3] + [ls[3]];
    FramedSnoc(ls[..3], ls[3], sep);
    assert ls[..5] == ls[..4] + [ls[4]];
    FramedSnoc(ls[..4], ls[4], sep);
    assert ls[..6] == ls[..5] + [ls[5]];
    FramedSnoc(ls[..5], ls[5], sep);
    assert ls[..7] == ls[..6] + [ls[6]];
    FramedSnoc(ls[..6], ls[6], sep);
    assert ls[..8] == ls[..7] + [ls[7]];
    FramedSnoc(ls[..7], ls[7], sep);
    assert ls[..8] == ls;
  }

  /** Framing adds one separator per piece. */
  lemma {:induction false} FramedCount(pieces: seq<Bytes>, sep: Byte)
    ensures Count(Framed(pieces, sep), sep) == |pieces| + CountIn(pieces, sep)
  {
    if |pieces| > 0 {
      FramedCount(pieces[1..], sep);
      CountAppend(pieces[0] + [sep], Framed(pieces[1..], sep), sep);
      CountAppend(pieces[0], [sep], sep);
    }
  }

  /** Occurrences of `x` across all pieces. */
  function CountIn(pieces: seq<Bytes>, x: Byte): nat
  {
    if |pieces| == 0 then 0 else Count(pieces[0], x) + CountIn(pieces[1..], x)
  }

  /** Splitting framed separator-free pieces gives them back, followed by the
      empty piece after the last separator. */
  lemma {:induction false} SplitFramed(pieces: seq<Bytes>, sep: Byte)
    requires forall k :: 0 <= k < |pieces| ==> sep !in pieces[k]
    ensures Split(Framed(pieces, sep), sep) == pieces + [[]]
  {
    if |pieces| > 0 {
      SplitPiece(pieces[0], sep, Framed(pieces[1..], sep));
      SplitFramed(pieces[1..], sep);
      assert pieces == [pieces[0]] + pieces[1..];
    }
  }

  /** A separator-free piece followed by the separator splits off as the first part. */
  lemma {:induction false} SplitPiece(piece: Bytes, sep: Byte, rest: Bytes)
    requires sep !in piece
    ensures Split(piece + [sep] + rest, sep) == [piece] + Split(rest, sep)
  {
    if |piece| > 0 {
      assert (piece + [sep] + rest)[1..] == piece[1..] + [sep] + rest;
      SplitPiece(piece[1..], sep, rest);
      assert [piece[0]] + piece[1..] == piece;
    } else {
      assert piece + [sep] + rest == [sep] + rest;
    }
  }

  // ---------------------------------------------------------------------------
  // Hexadecimal

  /** The lowercase digit of a value below 16, as `bytes.hex()` writes it. */
  function HexDigit(k: int): char
    requires 0 <= k < 16
  {
    if k < 10 then ('0' as int + k) as char else ('a' as int + k - 10) as char
  }

  /** `bytes.hex()`: two lowercase digits per byte, high nibble first. */
  function Hex(b: Bytes): (s: string)
    ensures |s| == 2 * |b|
  {
    if |b| == 0 then "" else [HexDigit(b[0] / 16), HexDigit(b[0] % 16)] + Hex(b[1..])
  }

  /** `str.upper()` on one ASCII character; other characters are kept. */
  function UpperChar(c: char): char
  {
    if 'a' <= c <= 'z' then (c as int - 32) as char else c
  }

  /** `str.upper()` on ASCII text. */
  function UpperAscii(s: string): (u: string)
    ensures |u| == |s|
  {
    if |s| == 0 then "" else [UpperChar(s[0])] + UpperAscii(s[1..])
  }

  predicate IsUpperHexDigit(c: char)
  {
    '0' <= c <= '9' || 'A' <= c <= 'F'
  }

  /** The value of an uppercase hexadecimal digit. */
  function UpperHexValue(c: char): (v: int)
    requires IsUpperHexDigit(c)
    ensures 0 <= v < 16
  {
    if c <= '9' then c as int - '0' as int else c as int - 'A' as int + 10
  }

  lemma UpperHexDigitValue(k: int)
    requires 0 <= k < 16
    ensures IsUpperHexDigit(UpperChar(HexDigit(k))) && UpperHexValue(UpperChar(HexDigit(k))) == k
  {
  }

  /** Reads pairs of uppercase digits back into bytes. */
  function DecodeUpperHex(s: string): Bytes
    requires |s| % 2 == 0
    requires forall k :: 0 <= k < |s| ==> IsUpperHexDigit(s[k])
  {
    if |s| == 0 then []
    else [UpperHexValue(s[0]) * 16 + UpperHexValue(s[1])] + DecodeUpperHex(s[2..])
  }

  /** The uppercase hex text of `b` is twice as long as `b`, uses only
      `0-9A-F`, and reads back to `b`. */
  lemma {:induction false} UpperHexRoundTrip(b: Bytes)
    ensures var s := UpperAscii(Hex(b));
      && |s| == 2 * |b|
      && (forall k :: 0 <= k < |s| ==> IsUpperHexDigit(s[k]))
      && DecodeUpperHex(s) == b
  {
    if |b| > 0 {
      UpperHexRoundTrip(b[1..]);
      var hi, lo := b[0] / 16, b[0] % 16;
      UpperHexDigitValue(hi);
      UpperHexDigitValue(lo);
      var h := Hex(b);
      assert h[0] == HexDigit(hi) && h[1..][0] == HexDigit(lo) && h[1..][1..] == Hex(b[1..]);
      var s := UpperAscii(h);
      assert s == [UpperChar(HexDigit(hi))] + ([UpperChar(HexDigit(lo))] + UpperAscii(Hex(b[1..])));
      assert s[2..] == UpperAscii(Hex(b[1..]));
      assert hi * 16 + lo == b[0];
    }
  }

  // ---------------------------------------------------------------------------
  // Base64, section 4 of RFC 4648

  /** Entry `k` of the Base64 alphabet `A-Z a-z 0-9 + /`. */
  function Base64Digit(k: int): (c: char)
    requires 0 <= k < 64
  {
    if k < 26 then ('A' as int + k) as char
    else if k < 52 then ('a' as int + k - 26) as char
    else if k < 62 then ('0' as int + k - 52) as char
    else if k == 62 then '+'
    else '/'
  }

  predicate IsBase64Char(c: char)
  {
    'A' <= c <= 'Z' || 'a' <= c <= 'z' || '0' <= c <= '9' || c == '+' || c == '/' || c == '='
  }

  /** The position of a Base64 digit in the alphabet; 0 for the pad. */
  function Base64Value(c: char): (v: int)
    ensures 0 <= v < 64
  {
    if 'A' <= c <= 'Z' then c as int - 'A' as int
    else if 'a' <= c <= 'z' then c as int - 'a' as int + 26
    else if '0' <= c <= '9' then c as int - '0' as int + 52
    else if c == '+' then 62
    else if c == '/' then 63
    else 0
  }

  lemma Base64DigitValue(k: int)
    requires 0 <= k < 64
    ensures Base64Value(Base64Digit(k)) == k && IsBase64Char(Base64Digit(k)) && Base64Digit(k) != '='
  {
  }

  /** The four 6-bit digits of the 24-bit group `b0 b1 b2`. */
  function Sextets(b0: Byte, b1: Byte, b2: Byte): (v: seq<int>)
    ensures |v| == 4 && forall k :: 0 <= k < 4 ==> 0 <= v[k] < 64
  {
    [b0 / 4, (b0 % 4) * 16 + b1 / 16, (b1 % 16) * 4 + b2 / 64, b2 % 64]
  }

  /** The three bytes of the 24-bit group whose digits are `v0 v1 v2 v3`. */
  function Octets(v0: int, v1: int, v2: int, v3: int): (b: Bytes)
    requires 0 <= v0 < 64 && 0 <= v1 < 64 && 0 <= v2 < 64 && 0 <= v3 < 64
    ensures |b| == 3
  {
    [v0 * 4 + v1 / 16, (v1 % 16) * 16 + v2 / 4, (v2 % 4) * 64 + v3]
  }

  lemma SextetsOctets(b0: Byte, b1: Byte, b2: Byte)
    ensures var v := Sextets(b0, b1, b2); Octets(v[0], v[1], v[2], v[3]) == [b0, b1, b2]
  {
    var x, y := b0 % 4, b1 / 16;
    assert (x * 16 + y) / 16 == x && (x * 16 + y) % 16 == y;
    var z, w := b1 % 16, b2 / 64;
    assert (z * 4 + w) / 4 == z && (z * 4 + w) % 4 == w;
  }

  /** The four characters for a group holding `n` real bytes (1 to 3); the
      missing bytes count as zero bits and their digits are written as `=`. */
  function Quad(b0: Byte, b1: Byte, b2: Byte, n: int): (q: string)
    requires 1 <= n <= 3
    ensures |q| == 4
    ensures forall k :: 0 <= k < 4 ==> IsBase64Char(q[k])
    ensures (q[2] == '=') == (n == 1) && (q[3] == '=') == (n < 3)
  {
    var v := Sextets(b0, b1, b2);
    Base64DigitValue(v[0]);
    Base64DigitValue(v[1]);
    Base64DigitValue(v[2]);
    Base64DigitValue(v[3]);
    [Base64Digit(v[0]), Base64Digit(v[1]),
     if n > 1 then Base64Digit(v[2]) else '=',
     if n > 2 then Base64Digit(v[3]) else '=']
  }

  /** Reading a group back gives its `n` real bytes. */
  lemma QuadOctets(b0: Byte, b1: Byte, b2: Byte, n: int)
    requires 1 <= n <= 3
    requires n < 3 ==> b2 == 0
    requires n < 2 ==> b1 == 0
    ensures var q := Quad(b0, b1, b2, n);
      Octets(Base64Value(q[0]), Base64Value(q[1]), Base64Value(q[2]), Base64Value(q[3])) == [b0, b1, b2]
  {
    var v := Sextets(b0, b1, b2);
    Base64DigitValue(v[0]);
    Base64DigitValue(v[1]);
    Base64DigitValue(v[2]);
    Base64DigitValue(v[3]);
    SextetsOctets(b0, b1, b2);
    var q := Quad(b0, b1, b2, n);
    assert Base64Value(q[0]) == v[0] && Base64Value(q[1]) == v[1];
    assert Base64Value(q[2]) == v[2] by {
      if n == 1 {
        assert v[2] == (b1 % 16) * 4 + b2 / 64 == 0;
      }
    }
    assert Base64Value(q[3]) == v[3] by {
      if n < 3 {
        assert v[3] == b2 % 64 == 0;
      }
    }
  }

  /** `base64.b64encode`: each 3 bytes become 4 digits; a final group of 1 or
      2 bytes is filled with zero bits and padded with `=`. */
  function Base64(b: Bytes): (s: string)
    ensures |s| == 4 * ((|b| + 2) / 3)
    ensures forall k :: 0 <= k < |s| ==> IsBase64Char(s[k])
  {
    if |b| == 0 then ""
    else if |b| == 1 then Quad(b[0], 0, 0, 1)
    else if |b| == 2 then Quad(b[0], b[1], 0, 2)
    else
      var q, rest := Quad(b[0], b[1], b[2], 3), Base64(b[3..]);
      assert forall k :: 4 <= k < |q + rest| ==> (q + rest)[k] == rest[k - 4];
      q + rest
  }

  /** Base64 decoding of a padded text whose length is a multiple of 4. */
  function DecodeBase64(s: string): Bytes
    requires |s| % 4 == 0
  {
    if |s| == 0 then []
    else
      var b := Octets(Base64Value(s[0]), Base64Value(s[1]), Base64Value(s[2]), Base64Value(s[3]));
      if s[2] == '=' then b[..1]
      else if s[3] == '=' then b[..2]
      else b + DecodeBase64(s[4..])
  }

  /** Decoding the Base64 text gives back the bytes it encodes. */
  lemma {:induction false} Base64RoundTrip(b: Bytes)
    ensures DecodeBase64(Base64(b)) == b
  {
    if |b| == 1 {
      QuadOctets(b[0], 0, 0, 1);
    } else if |b| == 2 {
      QuadOctets(b[0], b[1], 0, 2);
    } else if |b| >= 3 {
      QuadOctets(b[0], b[1], b[2], 3);
      Base64RoundTrip(b[3..]);
      var s := Base64(b);
      assert s[4..] == Base64(b[3..]);
      assert b == [b[0], b[1], b[2]] + b[3..];
    }
  }
}
