/**
 * The standard base 64 alphabet and encoding of section 4 of RFC 4648, used by the
 * outbound relay to decode and re-encode every audio delta (main.py:134).
 *
 * Decoding follows the lenient decoder the relay calls: the padding bits left over
 * in the last group are ignored, so "QR==" and "QQ==" decode to the same byte.
 */
module Base64 {
  import opened Wrappers

  type byte = b: int | 0 <= b < 256
  /** A six-bit group, the value of one base 64 digit. */
  type sextet = d: int | 0 <= d < 64

  const Pad: char := '='

  /** The digit of the alphabet of RFC 4648, section 4, table 1. */
  function EncodeDigit(d: sextet): (c: char)
    ensures IsDigit(c)
  {
    if d < 26 then (65 + d) as char
    else if d < 52 then (97 + d - 26) as char
    else if d < 62 then (48 + d - 52) as char
    else if d == 62 then '+'
    else '/'
  }

  predicate IsDigit(c: char) {
    'A' <= c <= 'Z' || 'a' <= c <= 'z' || '0' <= c <= '9' || c == '+' || c == '/'
  }

  /** The value of a digit; it is the inverse of EncodeDigit. */
  function DecodeDigit(c: char): (d: sextet)
    requires IsDigit(c)
    ensures EncodeDigit(d) == c
  {
    if 'A' <= c <= 'Z' then c as int - 65
    else if 'a' <= c <= 'z' then c as int - 97 + 26
    else if '0' <= c <= '9' then c as int - 48 + 52
    else if c == '+' then 62
    else 63
  }

  lemma DigitRoundTrip(d: sextet)
    ensures DecodeDigit(EncodeDigit(d)) == d
  {
  }

  /** Three bytes as four digits, most significant bits first. */
  function EncodeBlock(b0: byte, b1: byte, b2: byte): (q: string)
    ensures |q| == 4 && IsDigit(q[0]) && IsDigit(q[1]) && IsDigit(q[2]) && IsDigit(q[3])
  {
    [EncodeDigit(b0 / 4), EncodeDigit(b0 % 4 * 16 + b1 / 16),
     EncodeDigit(b1 % 16 * 4 + b2 / 64), EncodeDigit(b2 % 64)]
  }

  /** A final single byte: two digits and two pad characters. */
  function EncodeFinal1(b0: byte): (q: string)
    ensures |q| == 4 && IsDigit(q[0]) && IsDigit(q[1]) && q[2] == Pad && q[3] == Pad
  {
    [EncodeDigit(b0 / 4), EncodeDigit(b0 % 4 * 16), Pad, Pad]
  }

  /** A final pair of bytes: three digits and one pad character. */
  function EncodeFinal2(b0: byte, b1: byte): (q: string)
    ensures |q| == 4 && IsDigit(q[0]) && IsDigit(q[1]) && IsDigit(q[2]) && q[3] == Pad
  {
    [EncodeDigit(b0 / 4), EncodeDigit(b0 % 4 * 16 + b1 / 16), EncodeDigit(b1 % 16 * 4), Pad]
  }

  /**
   * The encoding of RFC 4648, section 4: every three bytes become four digits, and a
   * final group of one or two bytes is completed with two or one pad characters.
   */
  function Encode(b: seq<byte>): (s: string)
    decreases |b|
  {
    if |b| == 0 then []
    else if |b| == 1 then EncodeFinal1(b[0])
    else if |b| == 2 then EncodeFinal2(b[0], b[1])
    else EncodeBlock(b[0], b[1], b[2]) + Encode(b[3..])
  }

  /** Four characters for every started group of three bytes. */
  lemma {:induction false} EncodeLength(b: seq<byte>)
    ensures |Encode(b)| == 4 * ((|b| + 2) / 3)
    decreases |b|
  {
    if |b| > 2 {
      EncodeLength(b[3..]);
      assert (|b| + 2) / 3 == (|b[3..]| + 2) / 3 + 1;
    }
  }

  function First(d0: sextet, d1: sextet): byte { d0 * 4 + d1 / 16 }
  function Second(d1: sextet, d2: sextet): byte { d1 % 16 * 16 + d2 / 4 }
  function Third(d2: sextet, d3: sextet): byte { d2 % 4 * 64 + d3 }

  /**
   * One group of four characters: four digits give three bytes, three digits and
   * one pad two bytes, two digits and two pads one byte; anything else is an error.
   */
  function DecodeQuad(q: string): (r: Option<seq<byte>>)
    requires |q| == 4
    ensures r.Some? ==> 1 <= |r.value| <= 3 && IsDigit(q[0]) && IsDigit(q[1])
    ensures r.Some? ==> (|r.value| == 3 <==> q[3] != Pad)
  {
    if IsDigit(q[0]) && IsDigit(q[1]) && IsDigit(q[2]) && IsDigit(q[3]) then
      var d0, d1, d2, d3 := DecodeDigit(q[0]), DecodeDigit(q[1]), DecodeDigit(q[2]), DecodeDigit(q[3]);
      Some([First(d0, d1), Second(d1, d2), Third(d2, d3)])
    else if IsDigit(q[0]) && IsDigit(q[1]) && IsDigit(q[2]) && q[3] == Pad then
      var d0, d1, d2 := DecodeDigit(q[0]), DecodeDigit(q[1]), DecodeDigit(q[2]);
      Some([First(d0, d1), Second(d1, d2)])
    else if IsDigit(q[0]) && IsDigit(q[1]) && q[2] == Pad && q[3] == Pad then
      var d0, d1 := DecodeDigit(q[0]), DecodeDigit(q[1]);
      Some([First(d0, d1)])
    else
      None
  }

  /**
   * Decoding: the text must be whole groups of four characters, and only the last
   * group may carry padding. None stands for the error the decoder raises.
   */
  function Decode(s: string): (r: Option<seq<byte>>)
    ensures r.Some? ==> |s| % 4 == 0
    decreases |s|
  {
    if |s| == 0 then Some([])
    else if |s| < 4 then None
    else
      match DecodeQuad(s[..4])
      case None => None
      case Some(head) =>
        if |head| < 3 && |s| > 4 then None
        else
          match Decode(s[4..])
          case None => None
          case Some(tail) => Some(head + tail)
  }

  /**
   * The relay's pass-through: decode the delta, then encode the bytes again. The result
   * carries exactly the bytes of the received delta, whatever padding bits it had.
   */
  function Reencode(s: string): (r: Option<string>)
    ensures r.Some? ==> Decode(r.value) == Decode(s)
  {
    match Decode(s)
    case None => None
    case Some(b) => RoundTrip(b); Some(Encode(b))
  }

  lemma {:induction false} BlockRoundTrip(b0: byte, b1: byte, b2: byte)
    ensures DecodeQuad(EncodeBlock(b0, b1, b2)) == Some([b0, b1, b2])
  {
    var q := EncodeBlock(b0, b1, b2);
    DigitRoundTrip(b0 / 4);
    DigitRoundTrip(b0 % 4 * 16 + b1 / 16);
    DigitRoundTrip(b1 % 16 * 4 + b2 / 64);
    DigitRoundTrip(b2 % 64);
    assert First(b0 / 4, b0 % 4 * 16 + b1 / 16) == b0;
    assert Second(b0 % 4 * 16 + b1 / 16, b1 % 16 * 4 + b2 / 64) == b1;
    assert Third(b1 % 16 * 4 + b2 / 64, b2 % 64) == b2;
  }

  lemma {:induction false} OneByteRoundTrip(b0: byte)
    ensures Decode(Encode([b0])) == Some([b0])
  {
    var s := Encode([b0]);
    assert s == EncodeFinal1(b0);
    DigitRoundTrip(b0 / 4);
    DigitRoundTrip(b0 % 4 * 16);
    assert s[..4] == s && s[4..] == [];
    assert First(b0 / 4, b0 % 4 * 16) == b0;
    assert DecodeQuad(s[..4]) == Some([b0]);
    assert Decode(s[4..]) == Some([]);
    assert [b0] + [] == [b0];
  }

  lemma {:induction false} TwoByteRoundTrip(b0: byte, b1: byte)
    ensures Decode(Encode([b0, b1])) == Some([b0, b1])
  {
    var s := Encode([b0, b1]);
    assert s == EncodeFinal2(b0, b1);
    DigitRoundTrip(b0 / 4);
    DigitRoundTrip(b0 % 4 * 16 + b1 / 16);
    DigitRoundTrip(b1 % 16 * 4);
    assert s[..4] == s && s[4..] == [];
    assert First(b0 / 4, b0 % 4 * 16 + b1 / 16) == b0;
    assert Second(b0 % 4 * 16 + b1 / 16, b1 % 16 * 4) == b1;
    assert DecodeQuad(s[..4]) == Some([b0, b1]);
    assert Decode(s[4..]) == Some([]);
    assert [b0, b1] + [] == [b0, b1];
  }

  /** A full group in front of a decodable text decodes to its three bytes in front. */
  lemma DecodeFullGroup(b0: byte, b1: byte, b2: byte, rest: string)
    requires Decode(rest).Some?
    ensures Decode(EncodeBlock(b0, b1, b2) + rest) == Some([b0, b1, b2] + Decode(rest).value)
  {
    var s := EncodeBlock(b0, b1, b2) + rest;
    BlockRoundTrip(b0, b1, b2);
    assert s[..4] == EncodeBlock(b0, b1, b2);
    assert s[4..] == rest;
  }

  lemma SplitGroup(b: seq<byte>)
    requires |b| >= 3
    ensures [b[0], b[1], b[2]] + b[3..] == b
  {
    assert b[..3] == [b[0], b[1], b[2]];
    assert b[..3] + b[3..] == b;
  }

  /** The inductive step: a full group of three bytes in front of a text that round-trips. */
  lemma FullGroupRoundTrip(b: seq<byte>)
    requires |b| >= 3 && Decode(Encode(b[3..])) == Some(b[3..])
    ensures Decode(Encode(b)) == Some(b)
  {
    assert Encode(b) == EncodeBlock(b[0], b[1], b[2]) + Encode(b[3..]);
    DecodeFullGroup(b[0], b[1], b[2], Encode(b[3..]));
    SplitGroup(b);
  }

  /** Decoding undoes encoding: the bytes come back unchanged, for every input. */
  lemma {:induction false} RoundTrip(b: seq<byte>)
    ensures Decode(Encode(b)) == Some(b)
    decreases |b|
  {
    if |b| == 0 {
    } else if |b| == 1 {
      assert b == [b[0]];
      OneByteRoundTrip(b[0]);
    } else if |b| == 2 {
      assert b == [b[0], b[1]];
      TwoByteRoundTrip(b[0], b[1]);
    } else {
      RoundTrip(b[3..]);
      FullGroupRoundTrip(b);
    }
  }

  /** A payload already in the encoder's own form passes through the relay unchanged. */
  lemma ReencodeCanonical(b: seq<byte>)
    ensures Reencode(Encode(b)) == Some(Encode(b))
  {
    RoundTrip(b);
  }
}
