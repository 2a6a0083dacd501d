/**
 * The base64 encoding of section 4 of RFC 4648 (alphabet of Table 1, `=`
 * padding), and `btoa`, which encodes a string whose characters are all in
 * Latin-1 and throws for any other string.
 */
module Base64 {
  import opened Wrappers

  type Byte = b: int | 0 <= b < 256
  type Sextet = s: int | 0 <= s < 64

  /** Table 1 of RFC 4648: `A`-`Z`, `a`-`z`, `0`-`9`, `+`, `/`. */
  function Char64(i: Sextet): char {
    if i < 26 then ('A' as int + i) as char
    else if i < 52 then ('a' as int + (i - 26)) as char
    else if i < 62 then ('0' as int + (i - 52)) as char
    else if i == 62 then '+'
    else '/'
  }

  /** The inverse of Table 1; `None` for a character outside the alphabet (including `=`). */
  function Index64(c: char): (r: Option<Sextet>)
    ensures r.Some? ==> Char64(r.value) == c
  {
    if 'A' <= c <= 'Z' then Some(c as int - 'A' as int)
    else if 'a' <= c <= 'z' then Some(c as int - 'a' as int + 26)
    else if '0' <= c <= '9' then Some(c as int - '0' as int + 52)
    else if c == '+' then Some(62)
    else if c == '/' then Some(63)
    else None
  }

  lemma Index64OfChar64(i: Sextet)
    ensures Index64(Char64(i)) == Some(i)
  {
  }

  /** Encodes three, two or one bytes into four characters, padding with `=` (section 4 of RFC 4648). */
  function EncodeGroup(g: seq<Byte>): (s: string)
    requires 1 <= |g| <= 3
    ensures |s| == 4
  {
    var b0 := g[0];
    var b1 := if |g| > 1 then g[1] else 0;
    var b2 := if |g| > 2 then g[2] else 0;
    [Char64(b0 / 4), Char64((b0 % 4) * 16 + b1 / 16)]
    + (if |g| > 1 then [Char64((b1 % 16) * 4 + b2 / 64)] else ['='])
    + (if |g| > 2 then [Char64(b2 % 64)] else ['='])
  }

  function Encode(b: seq<Byte>): (s: string)
    ensures |s| == 4 * ((|b| + 2) / 3)
  {
    if |b| == 0 then ""
    else if |b| <= 3 then EncodeGroup(b)
    else EncodeGroup(b[..3]) + Encode(b[3..])
  }

  /**
   * Decodes four characters of which the last two may be padding. The bits
   * a padded group leaves unused must be zero (section 3.5 of RFC 4648), so
   * only the text `Encode` produces is accepted.
   */
  function DecodeGroup(s: string): Option<seq<Byte>>
    requires |s| == 4
  {
    var c0, c1 := Index64(s[0]), Index64(s[1]);
    if c0.None? || c1.None? then None
    else if s[2] == '=' && s[3] == '=' then
      if c1.value % 16 != 0 then None
      else Some([c0.value * 4 + c1.value / 16])
    else
      var c2 := Index64(s[2]);
      if c2.None? then None
      else if s[3] == '=' then
        if c2.value % 4 != 0 then None
        else Some([c0.value * 4 + c1.value / 16, (c1.value % 16) * 16 + c2.value / 4])
      else
        var c3 := Index64(s[3]);
        if c3.None? then None
        else Some([c0.value * 4 + c1.value / 16, (c1.value % 16) * 16 + c2.value / 4,
                   (c2.value % 4) * 64 + c3.value])
  }

  /** Decodes base64 text; padding is accepted only in the last group. */
  function Decode(s: string): Option<seq<Byte>>
    decreases |s|
  {
    if s == "" then Some([])
    else if |s| < 4 then None
    else if |s| == 4 then DecodeGroup(s)
    else if '=' in s[..4] then None
    else match DecodeGroup(s[..4])
      case None => None
      case Some(g) =>
        match Decode(s[4..])
        case None => None
        case Some(rest) => Some(g + rest)
  }

  lemma SplitByte(b0: Byte, b1: Byte)
    ensures (b0 / 4) * 4 + ((b0 % 4) * 16 + b1 / 16) / 16 == b0
    ensures ((b0 % 4) * 16 + b1 / 16) % 16 == b1 / 16
  {
  }

  lemma SplitMiddle(b1: Byte, b2: Byte)
    ensures (((b1 % 16) * 4 + b2 / 64) / 4) == b1 % 16
    ensures (((b1 % 16) * 4 + b2 / 64) % 4) == b2 / 64
  {
  }

  lemma {:induction false} DecodeEncodeGroup(g: seq<Byte>)
    requires 1 <= |g| <= 3
    ensures DecodeGroup(EncodeGroup(g)) == Some(g)
  {
    var s := EncodeGroup(g);
    var b0 := g[0];
    var b1 := if |g| > 1 then g[1] else 0;
    var b2 := if |g| > 2 then g[2] else 0;
    Index64OfChar64(b0 / 4);
    Index64OfChar64((b0 % 4) * 16 + b1 / 16);
    SplitByte(b0, b1);
    if |g| == 1 {
      assert b1 == 0;
      assert s[2] == '=' && s[3] == '=';
      assert g == [b0];
    } else {
      Index64OfChar64((b1 % 16) * 4 + b2 / 64);
      SplitMiddle(b1, b2);
      assert (b1 / 16) * 16 + b1 % 16 == b1;
      if |g| == 2 {
        assert b2 == 0;
        assert s[2] == Char64((b1 % 16) * 4 + b2 / 64) && s[3] == '=';
        assert g == [b0, b1];
      } else {
        Index64OfChar64(b2 % 64);
        assert (b2 / 64) * 64 + b2 % 64 == b2;
        assert s[2] == Char64((b1 % 16) * 4 + b2 / 64) && s[3] == Char64(b2 % 64);
        assert g == [b0, b1, b2];
      }
    }
  }

  /** Decoding inverts encoding (section 4 of RFC 4648). */
  lemma {:induction false} DecodeEncode(b: seq<Byte>)
    ensures Decode(Encode(b)) == Some(b)
  {
    if |b| == 0 {
    } else if |b| <= 3 {
      DecodeEncodeGroup(b);
    } else {
      var s := Encode(b);
      var head := EncodeGroup(b[..3]);
      assert s[..4] == head;
      assert s[4..] == Encode(b[3..]);
      assert '=' !in head;
      DecodeEncodeGroup(b[..3]);
      DecodeEncode(b[3..]);
      assert b == b[..3] + b[3..];
    }
  }

  lemma EncodeOneByte(c0: Sextet, c1: Sextet)
    requires c1 % 16 == 0
    ensures c0 * 4 + c1 / 16 < 256
    ensures EncodeGroup([c0 * 4 + c1 / 16]) == [Char64(c0), Char64(c1), '=', '=']
  {
    var b0 := c0 * 4 + c1 / 16;
    assert b0 / 4 == c0 && b0 % 4 == c1 / 16;
  }

  lemma EncodeTwoBytes(c0: Sextet, c1: Sextet, c2: Sextet)
    requires c2 % 4 == 0
    ensures c0 * 4 + c1 / 16 < 256 && (c1 % 16) * 16 + c2 / 4 < 256
    ensures EncodeGroup([c0 * 4 + c1 / 16, (c1 % 16) * 16 + c2 / 4]) == [Char64(c0), Char64(c1), Char64(c2), '=']
  {
    var b0, b1 := c0 * 4 + c1 / 16, (c1 % 16) * 16 + c2 / 4;
    assert b0 / 4 == c0 && b0 % 4 == c1 / 16;
    assert b1 / 16 == c1 % 16 && b1 % 16 == c2 / 4;
    assert (b0 % 4) * 16 + b1 / 16 == c1;
    assert (b1 % 16) * 4 == c2;
  }

  lemma EncodeThreeBytes(c0: Sextet, c1: Sextet, c2: Sextet, c3: Sextet)
    ensures c0 * 4 + c1 / 16 < 256 && (c1 % 16) * 16 + c2 / 4 < 256 && (c2 % 4) * 64 + c3 < 256
    ensures EncodeGroup([c0 * 4 + c1 / 16, (c1 % 16) * 16 + c2 / 4, (c2 % 4) * 64 + c3])
            == [Char64(c0), Char64(c1), Char64(c2), Char64(c3)]
  {
    var b0, b1, b2 := c0 * 4 + c1 / 16, (c1 % 16) * 16 + c2 / 4, (c2 % 4) * 64 + c3;
    assert b0 / 4 == c0 && b0 % 4 == c1 / 16;
    assert b1 / 16 == c1 % 16 && b1 % 16 == c2 / 4;
    assert b2 / 64 == c2 % 4 && b2 % 64 == c3;
    assert (b0 % 4) * 16 + b1 / 16 == c1;
    assert (b1 % 16) * 4 + b2 / 64 == c2;
  }

  lemma EncodeDecodeOne(s: string)
    requires |s| == 4 && DecodeGroup(s).Some? && s[2] == '=' && s[3] == '='
    ensures |DecodeGroup(s).value| == 1 && EncodeGroup(DecodeGroup(s).value) == s
  {
    var c0: int, c1: int := Index64(s[0]).value, Index64(s[1]).value;
    EncodeOneByte(c0, c1);
    var g: seq<Byte> := [c0 * 4 + c1 / 16];
    assert DecodeGroup(s) == Some(g);
    assert s == [Char64(c0), Char64(c1), '=', '='];
  }

  lemma EncodeDecodeTwo(s: string)
    requires |s| == 4 && DecodeGroup(s).Some? && s[2] != '=' && s[3] == '='
    ensures |DecodeGroup(s).value| == 2 && EncodeGroup(DecodeGroup(s).value) == s
  {
    var c0: int, c1: int, c2: int := Index64(s[0]).value, Index64(s[1]).value, Index64(s[2]).value;
    EncodeTwoBytes(c0, c1, c2);
    var g: seq<Byte> := [c0 * 4 + c1 / 16, (c1 % 16) * 16 + c2 / 4];
    assert DecodeGroup(s) == Some(g);
    assert s == [Char64(c0), Char64(c1), Char64(c2), '='];
  }

  lemma EncodeDecodeThree(s: string)
    requires |s| == 4 && DecodeGroup(s).Some? && s[3] != '='
    ensures |DecodeGroup(s).value| == 3 && EncodeGroup(DecodeGroup(s).value) == s
  {
    var c0: int, c1: int, c2: int, c3: int := Index64(s[0]).value, Index64(s[1]).value, Index64(s[2]).value, Index64(s[3]).value;
    EncodeThreeBytes(c0, c1, c2, c3);
    var g: seq<Byte> := [c0 * 4 + c1 / 16, (c1 % 16) * 16 + c2 / 4, (c2 % 4) * 64 + c3];
    assert DecodeGroup(s) == Some(g);
    assert s == [Char64(c0), Char64(c1), Char64(c2), Char64(c3)];
  }

  /** A group that decodes is the encoding of what it decodes to. */
  lemma EncodeDecodeGroup(s: string)
    requires |s| == 4 && DecodeGroup(s).Some?
    ensures 1 <= |DecodeGroup(s).value| <= 3
    ensures ('=' !in s) == (|DecodeGroup(s).value| == 3)
    ensures EncodeGroup(DecodeGroup(s).value) == s
  {
    if s[3] != '=' {
      EncodeDecodeThree(s);
    } else if s[2] != '=' {
      EncodeDecodeTwo(s);
    } else {
      EncodeDecodeOne(s);
    }
  }

  /** Decoding accepts only what encoding produces: text that decodes is the encoding of its bytes. */
  lemma {:induction false} EncodeDecode(s: string)
    requires Decode(s).Some?
    ensures Encode(Decode(s).value) == s
  {
    if |s| == 4 {
      EncodeDecodeGroup(s);
    } else if |s| > 4 {
      var g := DecodeGroup(s[..4]).value;
      var rest := Decode(s[4..]).value;
      EncodeDecodeGroup(s[..4]);
      EncodeDecode(s[4..]);
      var b := g + rest;
      assert |b| > 3;
      assert b[..3] == g && b[3..] == rest;
      assert s == s[..4] + s[4..];
    }
  }

  /** Encoding is injective: different byte strings never share an encoding. */
  lemma EncodeInjective(a: seq<Byte>, b: seq<Byte>)
    requires Encode(a) == Encode(b)
    ensures a == b
  {
    DecodeEncode(a);
    DecodeEncode(b);
  }

  predicate IsLatin1(s: string) {
    forall i :: 0 <= i < |s| ==> s[i] as int < 256
  }

  /** The byte string of a Latin-1 string: one byte per character, its code point. */
  function Latin1(s: string): (b: seq<Byte>)
    requires IsLatin1(s)
    ensures |b| == |s| && forall i :: 0 <= i < |s| ==> b[i] == s[i] as int
  {
    seq(|s|, i requires 0 <= i < |s| => s[i] as int as Byte)
  }

  /** `btoa(s)`: `None` stands for the `InvalidCharacterError` thrown for a non-Latin-1 string. */
  function Btoa(s: string): (r: Option<string>)
    ensures r.Some? <==> IsLatin1(s)
    ensures r.Some? ==> Decode(r.value) == Some(Latin1(s))
  {
    if IsLatin1(s) then
      DecodeEncode(Latin1(s));
      Some(Encode(Latin1(s)))
    else None
  }
}
