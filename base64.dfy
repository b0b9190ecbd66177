/**
 * The encodings `set_value` puts between the value and the page: Python's
 * `value.encode()` (UTF-8) followed by `base64.b64encode` (the alphabet of
 * section 4 of RFC 4648, with '=' padding), and the page-side `atob`, which
 * turns base64 text back into bytes, one character per byte.
 */
module Base64 {
  import opened Wrappers

  type Byte = x: int | 0 <= x < 256

  // ---------------------------------------------------------------------------
  // UTF-8

  /** A continuation byte 10xxxxxx carrying the six bits `v`. */
  function Cont(v: int): Byte
    requires 0 <= v < 64
  {
    0x80 + v
  }

  /** The UTF-8 encoding of one Unicode scalar value. */
  function EncodeChar(c: char): (e: seq<Byte>)
    ensures 1 <= |e| <= 4
  {
    var n := c as int;
    var q1 := n / 64;
    var q2 := q1 / 64;
    var q3 := q2 / 64;
    if n < 0x80 then [n]
    else if n < 0x800 then [0xC0 + q1, Cont(n % 64)]
    else if n < 0x1_0000 then [0xE0 + q2, Cont(q1 % 64), Cont(n % 64)]
    else [0xF0 + q3, Cont(q2 % 64), Cont(q1 % 64), Cont(n % 64)]
  }

  /** `value.encode()`: the UTF-8 encoding of a string. */
  function Utf8Encode(s: string): (b: seq<Byte>)
    ensures |s| <= |b| <= 4 * |s|
  {
    if |s| == 0 then [] else EncodeChar(s[0]) + Utf8Encode(s[1..])
  }

  predicate IsCont(b: Byte)
  {
    0x80 <= b < 0xC0
  }

  predicate IsScalar(n: int)
  {
    0 <= n < 0xD800 || 0xE000 <= n < 0x11_0000
  }

  /** The sequence length a lead byte announces, or 0 for a byte that cannot lead. */
  function LeadLength(b: Byte): nat
  {
    if b < 0x80 then 1
    else if 0xC0 <= b < 0xE0 then 2
    else if 0xE0 <= b < 0xF0 then 3
    else if 0xF0 <= b < 0xF8 then 4
    else 0
  }

  /** The scalar value an encoded sequence of the announced length denotes, if any. */
  function DecodeScalar(e: seq<Byte>): Option<char>
    requires |e| > 0 && |e| == LeadLength(e[0])
  {
    var x := seq(|e|, i requires 0 <= i < |e| => e[i] as int);
    var n :=
      if |e| == 1 then x[0]
      else if |e| == 2 then (x[0] - 0xC0) * 64 + (x[1] - 0x80)
      else if |e| == 3 then ((x[0] - 0xE0) * 64 + (x[1] - 0x80)) * 64 + (x[2] - 0x80)
      else (((x[0] - 0xF0) * 64 + (x[1] - 0x80)) * 64 + (x[2] - 0x80)) * 64 + (x[3] - 0x80);
    if (forall i :: 1 <= i < |e| ==> IsCont(e[i])) && IsScalar(n) then Some(n as char) else None
  }

  /** The inverse of `Utf8Encode`: the string a byte sequence encodes, if any. */
  function Utf8Decode(b: seq<Byte>): Option<string>
    decreases |b|
  {
    if |b| == 0 then Some("")
    else
      var k := LeadLength(b[0]);
      if k == 0 || |b| < k then None
      else match (DecodeScalar(b[..k]), Utf8Decode(b[k..]))
        case (Some(c), Some(rest)) => Some([c] + rest)
        case _ => None
  }

  lemma EncodeCharDecodes(c: char)
    ensures LeadLength(EncodeChar(c)[0]) == |EncodeChar(c)|
    ensures DecodeScalar(EncodeChar(c)) == Some(c)
  {
    var n := c as int;
    var q1 := n / 64;
    var q2 := q1 / 64;
    var q3 := q2 / 64;
    assert n == q1 * 64 + n % 64;
    assert q1 == q2 * 64 + q1 % 64;
    assert q2 == q3 * 64 + q2 % 64;
  }

  /** Decoding undoes encoding: no character of the value is lost or altered. */
  lemma {:induction false} Utf8RoundTrip(s: string)
    ensures Utf8Decode(Utf8Encode(s)) == Some(s)
  {
    if |s| > 0 {
      var e := EncodeChar(s[0]);
      var rest := Utf8Encode(s[1..]);
      var b := e + rest;
      assert Utf8Encode(s) == b;
      EncodeCharDecodes(s[0]);
      Utf8RoundTrip(s[1..]);
      assert b[..|e|] == e && b[|e|..] == rest;
      assert [s[0]] + s[1..] == s;
    }
  }

  predicate IsAscii(s: string)
  {
    forall i :: 0 <= i < |s| ==> s[i] as int < 0x80
  }

  /** `atob` output read as text: each byte becomes the character with that code. */
  function Latin1(b: seq<Byte>): (s: string)
    ensures |s| == |b|
    ensures forall i :: 0 <= i < |b| ==> s[i] as int == b[i]
  {
    if |b| == 0 then "" else [b[0] as char] + Latin1(b[1..])
  }

  /** For ASCII text the page reads back exactly the characters that were encoded. */
  lemma {:induction false} AsciiSurvivesLatin1(s: string)
    requires IsAscii(s)
    ensures Latin1(Utf8Encode(s)) == s
  {
    if |s| > 0 {
      AsciiSurvivesLatin1(s[1..]);
      assert Utf8Encode(s) == [s[0] as int] + Utf8Encode(s[1..]);
    }
  }

  /** Any character from U+0080 on takes at least two bytes, so such text grows under UTF-8. */
  lemma {:induction false} NonAsciiLengthens(s: string)
    requires !IsAscii(s)
    ensures |Utf8Encode(s)| > |s|
  {
    var i :| 0 <= i < |s| && s[i] as int >= 0x80;
    if i == 0 {
      assert |EncodeChar(s[0])| >= 2;
    } else {
      assert s[1..][i - 1] == s[i];
      NonAsciiLengthens(s[1..]);
    }
  }

  /**
   * Text with a character from U+0080 on does not survive: `atob` yields one
   * character per UTF-8 byte, so the page reads more characters than were sent.
   */
  lemma {:induction false} NonAsciiGarbled(s: string)
    requires !IsAscii(s)
    ensures Latin1(Utf8Encode(s)) != s
  {
    NonAsciiLengthens(s);
  }

  // ---------------------------------------------------------------------------
  // Base64 (section 4 of RFC 4648)

  /** The character of the base64 alphabet for the six-bit value `v`. */
  function SextetChar(v: int): char
    requires 0 <= v < 64
  {
    if v < 26 then ('A' as int + v) as char
    else if v < 52 then ('a' as int + v - 26) as char
    else if v < 62 then ('0' as int + v - 52) as char
    else if v == 62 then '+'
    else '/'
  }

  predicate IsSextetChar(c: char)
  {
    'A' <= c <= 'Z' || 'a' <= c <= 'z' || '0' <= c <= '9' || c == '+' || c == '/'
  }

  /** A character of the base64 alphabet or the padding character. */
  predicate IsBase64Char(c: char)
  {
    IsSextetChar(c) || c == '='
  }

  /** The six-bit value of an alphabet character. */
  function SextetValue(c: char): (v: int)
    requires IsSextetChar(c)
    ensures 0 <= v < 64
  {
    if 'A' <= c <= 'Z' then c as int - 'A' as int
    else if 'a' <= c <= 'z' then c as int - 'a' as int + 26
    else if '0' <= c <= '9' then c as int - '0' as int + 52
    else if c == '+' then 62
    else 63
  }

  lemma SextetRoundTrip(v: int)
    requires 0 <= v < 64
    ensures IsSextetChar(SextetChar(v)) && SextetValue(SextetChar(v)) == v
  {
  }

  /** Three bytes as four alphabet characters. */
  function Quad3(b0: Byte, b1: Byte, b2: Byte): string
  {
    [SextetChar(b0 / 4), SextetChar(b0 % 4 * 16 + b1 / 16),
     SextetChar(b1 % 16 * 4 + b2 / 64), SextetChar(b2 % 64)]
  }

  /** Two final bytes as three alphabet characters and one '='. */
  function Quad2(b0: Byte, b1: Byte): string
  {
    [SextetChar(b0 / 4), SextetChar(b0 % 4 * 16 + b1 / 16), SextetChar(b1 % 16 * 4), '=']
  }

  /** One final byte as two alphabet characters and two '='. */
  function Quad1(b0: Byte): string
  {
    [SextetChar(b0 / 4), SextetChar(b0 % 4 * 16), '=', '=']
  }

  /** `base64.b64encode`: three bytes to four characters, padded with '='. */
  function Encode(b: seq<Byte>): (s: string)
    ensures |s| == 4 * ((|b| + 2) / 3)
    decreases |b|
  {
    if |b| == 0 then ""
    else if |b| == 1 then Quad1(b[0])
    else if |b| == 2 then Quad2(b[0], b[1])
    else Quad3(b[0], b[1], b[2]) + Encode(b[3..])
  }

  /** Every character of the encoding is from the base64 alphabet or the padding. */
  lemma {:induction false} EncodeAlphabet(b: seq<Byte>)
    ensures forall i :: 0 <= i < |Encode(b)| ==> IsBase64Char(Encode(b)[i])
    decreases |b|
  {
    if |b| == 1 {
      SextetRoundTrip(b[0] / 4);
      SextetRoundTrip(b[0] % 4 * 16);
    } else if |b| == 2 {
      SextetRoundTrip(b[0] / 4);
      SextetRoundTrip(b[0] % 4 * 16 + b[1] / 16);
      SextetRoundTrip(b[1] % 16 * 4);
    } else if |b| >= 3 {
      EncodeAlphabet(b[3..]);
      SextetRoundTrip(b[0] / 4);
      SextetRoundTrip(b[0] % 4 * 16 + b[1] / 16);
      SextetRoundTrip(b[1] % 16 * 4 + b[2] / 64);
      SextetRoundTrip(b[2] % 64);
      var g, e := Quad3(b[0], b[1], b[2]), Encode(b[3..]);
      assert Encode(b) == g + e;
      forall i | 0 <= i < |g + e|
        ensures IsBase64Char((g + e)[i])
      {
        if i >= 4 {
          assert (g + e)[i] == e[i - 4];
        }
      }
    }
  }

  /** The bytes one group of four characters stands for. */
  function DecodeGroup(g: string): (r: Option<seq<Byte>>)
    requires |g| == 4
    ensures r.Some? ==> 1 <= |r.value| <= 3
  {
    if IsSextetChar(g[0]) && IsSextetChar(g[1]) then
      var v0, v1 := SextetValue(g[0]), SextetValue(g[1]);
      var b0 := v0 * 4 + v1 / 16;
      if IsSextetChar(g[2]) && IsSextetChar(g[3]) then
        var v2, v3 := SextetValue(g[2]), SextetValue(g[3]);
        Some([b0, v1 % 16 * 16 + v2 / 4, v2 % 4 * 64 + v3])
      else if IsSextetChar(g[2]) && g[3] == '=' then
        var v2 := SextetValue(g[2]);
        Some([b0, v1 % 16 * 16 + v2 / 4])
      else if g[2] == '=' && g[3] == '=' then Some([b0])
      else None
    else None
  }

  /** `atob` on padded input: the bytes a base64 text stands for, if it is well formed. */
  function Decode(s: string): Option<seq<Byte>>
    decreases |s|
  {
    if |s| == 0 then Some([])
    else if |s| < 4 then None
    else match (DecodeGroup(s[..4]), Decode(s[4..]))
      case (Some(g), Some(rest)) =>
        if |g| < 3 && |rest| > 0 then None else Some(g + rest)
      case _ => None
  }

  /** The first byte comes back from the first two sextets. */
  lemma FirstByteBack(b0: Byte, b1: Byte)
    ensures b0 / 4 * 4 + (b0 % 4 * 16 + b1 / 16) / 16 == b0
  {
  }

  /** The second byte comes back from the second and third sextets. */
  lemma SecondByteBack(b0: Byte, b1: Byte, b2: Byte)
    ensures (b0 % 4 * 16 + b1 / 16) % 16 * 16 + (b1 % 16 * 4 + b2 / 64) / 4 == b1
  {
  }

  /** The third byte comes back from the third and fourth sextets. */
  lemma ThirdByteBack(b1: Byte, b2: Byte)
    ensures (b1 % 16 * 4 + b2 / 64) % 4 * 64 + b2 % 64 == b2
  {
  }

  lemma Quad3Decodes(b0: Byte, b1: Byte, b2: Byte)
    ensures DecodeGroup(Quad3(b0, b1, b2)) == Some([b0, b1, b2])
  {
    var v0, v1, v2, v3 := b0 / 4, b0 % 4 * 16 + b1 / 16, b1 % 16 * 4 + b2 / 64, b2 % 64;
    SextetRoundTrip(v0);
    SextetRoundTrip(v1);
    SextetRoundTrip(v2);
    SextetRoundTrip(v3);
    FirstByteBack(b0, b1);
    SecondByteBack(b0, b1, b2);
    ThirdByteBack(b1, b2);
    var g := Quad3(b0, b1, b2);
    assert g == [SextetChar(v0), SextetChar(v1), SextetChar(v2), SextetChar(v3)];
    assert DecodeGroup(g) == Some([v0 * 4 + v1 / 16, v1 % 16 * 16 + v2 / 4, v2 % 4 * 64 + v3]);
  }

  lemma Quad2Decodes(b0: Byte, b1: Byte)
    ensures DecodeGroup(Quad2(b0, b1)) == Some([b0, b1])
  {
    SextetRoundTrip(b0 / 4);
    SextetRoundTrip(b0 % 4 * 16 + b1 / 16);
    SextetRoundTrip(b1 % 16 * 4);
    assert !IsSextetChar('=');
  }

  lemma Quad1Decodes(b0: Byte)
    ensures DecodeGroup(Quad1(b0)) == Some([b0])
  {
    SextetRoundTrip(b0 / 4);
    SextetRoundTrip(b0 % 4 * 16);
    assert !IsSextetChar('=');
  }

  lemma DecodeLastGroup(g: string)
    requires |g| == 4 && DecodeGroup(g).Some?
    ensures Decode(g) == DecodeGroup(g)
  {
    assert g[..4] == g && g[4..] == "";
    assert Decode(g[4..]) == Some([]);
    assert DecodeGroup(g).value + [] == DecodeGroup(g).value;
  }

  lemma DecodeFullGroup(g: string, rest: string, x: seq<Byte>, y: seq<Byte>)
    requires |g| == 4 && DecodeGroup(g) == Some(x) && |x| == 3 && Decode(rest) == Some(y)
    ensures Decode(g + rest) == Some(x + y)
  {
    assert (g + rest)[..4] == g && (g + rest)[4..] == rest;
  }

  lemma DecodeEncodeOne(b0: Byte)
    ensures Decode(Encode([b0])) == Some([b0])
  {
    assert Encode([b0]) == Quad1(b0);
    Quad1Decodes(b0);
    DecodeLastGroup(Quad1(b0));
  }

  lemma DecodeEncodeTwo(b0: Byte, b1: Byte)
    ensures Decode(Encode([b0, b1])) == Some([b0, b1])
  {
    assert Encode([b0, b1]) == Quad2(b0, b1);
    Quad2Decodes(b0, b1);
    DecodeLastGroup(Quad2(b0, b1));
  }

  lemma EncodeFront(b: seq<Byte>)
    requires |b| >= 3
    ensures Encode(b) == Quad3(b[0], b[1], b[2]) + Encode(b[3..])
  {
  }

  lemma SplitFront(b: seq<Byte>)
    requires |b| >= 3
    ensures [b[0], b[1], b[2]] + b[3..] == b
  {
  }

  /** A full group in front of a text that decodes. */
  lemma DecodeEncodeGroup(b: seq<Byte>)
    requires |b| >= 3 && Decode(Encode(b[3..])) == Some(b[3..])
    ensures Decode(Encode(b)) == Some(b)
  {
    Quad3Decodes(b[0], b[1], b[2]);
    EncodeFront(b);
    DecodeFullGroup(Quad3(b[0], b[1], b[2]), Encode(b[3..]), [b[0], b[1], b[2]], b[3..]);
    SplitFront(b);
  }

  /** `atob` undoes `b64encode`: every byte of the value comes back. */
  lemma {:induction false} DecodeEncode(b: seq<Byte>)
    ensures Decode(Encode(b)) == Some(b)
    decreases |b|
  {
    if |b| == 1 {
      DecodeEncodeOne(b[0]);
      assert [b[0]] == b;
    } else if |b| == 2 {
      DecodeEncodeTwo(b[0], b[1]);
      assert [b[0], b[1]] == b;
    } else if |b| >= 3 {
      DecodeEncode(b[3..]);
      DecodeEncodeGroup(b);
    }
  }
}
