/**
 * The base 64 encoding of section 4 of RFC 4648, as `base64.b64encode` writes
 * it: every 3 bytes become 4 characters of the 64-letter alphabet (each the
 * value of 6 bits, most significant first), and a final group of 1 or 2 bytes
 * is padded with "==" or "=". The decoder is the inverse the round trip is
 * proved against.
 */
module Base64 {
  import opened Common

  /** The character of a 6-bit value (table 1 of RFC 4648): A-Z, a-z, 0-9, '+', '/'. */
  function CharOf(v: nat): (c: char)
    requires v < 64
    ensures c != '='
  {
    if v < 26 then ('A' as int + v) as char
    else if v < 52 then ('a' as int + (v - 26)) as char
    else if v < 62 then ('0' as int + (v - 52)) as char
    else if v == 62 then '+'
    else '/'
  }

  /** The 6-bit value of an alphabet character; the padding '=' and every other character have none. */
  function ValueOf(c: char): (r: Option<nat>)
    ensures r.Some? ==> r.value < 64
  {
    if 'A' <= c <= 'Z' then Some(c as int - 'A' as int)
    else if 'a' <= c <= 'z' then Some(c as int - 'a' as int + 26)
    else if '0' <= c <= '9' then Some(c as int - '0' as int + 52)
    else if c == '+' then Some(62)
    else if c == '/' then Some(63)
    else None
  }

  /** Each character of the alphabet stands for exactly its own value. */
  lemma ValueOfCharOf(v: nat)
    requires v < 64
    ensures ValueOf(CharOf(v)) == Some(v)
  {
  }

  /** Three bytes, 24 bits, as four 6-bit characters. */
  function EncodeTriple(b0: byte, b1: byte, b2: byte): string {
    [CharOf(b0 as int / 4), CharOf(b0 as int % 4 * 16 + b1 as int / 16),
     CharOf(b1 as int % 16 * 4 + b2 as int / 64), CharOf(b2 as int % 64)]
  }

  /** A final group of one or two bytes, zero-filled to whole characters and padded with '='. */
  function EncodeTail(b: seq<byte>): string
    requires 1 <= |b| <= 2
  {
    if |b| == 1 then [CharOf(b[0] as int / 4), CharOf(b[0] as int % 4 * 16), '=', '=']
    else [CharOf(b[0] as int / 4), CharOf(b[0] as int % 4 * 16 + b[1] as int / 16), CharOf(b[1] as int % 16 * 4), '=']
  }

  /** `base64.b64encode`: four characters for every started group of three bytes. */
  function Encode(b: seq<byte>): (r: string)
    ensures |r| == 4 * ((|b| + 2) / 3)
    decreases |b|
  {
    if b == [] then []
    else if |b| < 3 then EncodeTail(b)
    else EncodeTriple(b[0], b[1], b[2]) + Encode(b[3..])
  }

  /** Four characters without padding as three bytes. */
  function DecodeQuad(q: string): Option<seq<byte>>
    requires |q| == 4
  {
    match (ValueOf(q[0]), ValueOf(q[1]), ValueOf(q[2]), ValueOf(q[3]))
    case (Some(v0), Some(v1), Some(v2), Some(v3)) =>
      Some([(v0 * 4 + v1 / 16) as byte, (v1 % 16 * 16 + v2 / 4) as byte, (v2 % 4 * 64 + v3) as byte])
    case _ => None
  }

  /** The last four characters, which may end in "==" (one byte) or "=" (two bytes). */
  function DecodeLast(q: string): Option<seq<byte>>
    requires |q| == 4
  {
    if q[2] == '=' && q[3] == '=' then
      match (ValueOf(q[0]), ValueOf(q[1]))
      case (Some(v0), Some(v1)) => Some([(v0 * 4 + v1 / 16) as byte])
      case _ => None
    else if q[3] == '=' then
      match (ValueOf(q[0]), ValueOf(q[1]), ValueOf(q[2]))
      case (Some(v0), Some(v1), Some(v2)) => Some([(v0 * 4 + v1 / 16) as byte, (v1 % 16 * 16 + v2 / 4) as byte])
      case _ => None
    else DecodeQuad(q)
  }

  /** The decoder: groups of four characters, padding allowed only in the last one. */
  function Decode(s: string): Option<seq<byte>>
    decreases |s|
  {
    if s == [] then Some([])
    else if |s| < 4 then None
    else if |s| == 4 then DecodeLast(s)
    else
      match DecodeQuad(s[..4])
      case None => None
      case Some(head) =>
        match Decode(s[4..])
        case None => None
        case Some(rest) => Some(head + rest)
  }

  /** The first byte is its top six bits followed by the two that open the second field. */
  lemma FirstByteBack(b0: nat, b1: nat)
    requires b0 < 256 && b1 < 256
    ensures b0 / 4 * 4 + (b0 % 4 * 16 + b1 / 16) / 16 == b0
  {
    assert (b0 % 4 * 16 + b1 / 16) / 16 == b0 % 4;
  }

  /** The middle byte is the low four bits of the second field and the top four of the third. */
  lemma MiddleByteBack(b1: nat, v1: nat, v2: nat, b2: nat)
    requires b1 < 256 && b2 < 256 && v1 % 16 == b1 / 16 && v2 == b1 % 16 * 4 + b2 / 64
    ensures v1 % 16 * 16 + v2 / 4 == b1
  {
    assert v2 / 4 == b1 % 16;
  }

  /** The last byte is the low two bits of the third field and the whole fourth. */
  lemma LastByteBack(v2: nat, b2: nat)
    requires b2 < 256 && v2 % 4 == b2 / 64
    ensures v2 % 4 * 64 + b2 % 64 == b2
  {
  }

  /** The 6-bit fields of three bytes give the bytes back. */
  lemma TripleRoundTrip(b0: byte, b1: byte, b2: byte)
    ensures DecodeQuad(EncodeTriple(b0, b1, b2)) == Some([b0, b1, b2])
  {
    var v0: nat := b0 as int / 4;
    var v1: nat := b0 as int % 4 * 16 + b1 as int / 16;
    var v2: nat := b1 as int % 16 * 4 + b2 as int / 64;
    var v3: nat := b2 as int % 64;
    ValueOfCharOf(v0);
    ValueOfCharOf(v1);
    ValueOfCharOf(v2);
    ValueOfCharOf(v3);
    FirstByteBack(b0 as int, b1 as int);
    assert v1 % 16 == b1 as int / 16;
    MiddleByteBack(b1 as int, v1, v2, b2 as int);
    assert v2 % 4 == b2 as int / 64;
    LastByteBack(v2, b2 as int);
  }

  /** The padded final group gives its one or two bytes back. */
  lemma TailRoundTrip(b: seq<byte>)
    requires 1 <= |b| <= 2
    ensures DecodeLast(EncodeTail(b)) == Some(b)
  {
    ValueOfCharOf(b[0] as int / 4);
    if |b| == 1 {
      ValueOfCharOf(b[0] as int % 4 * 16);
      assert [b[0]] == b;
    } else {
      ValueOfCharOf(b[0] as int % 4 * 16 + b[1] as int / 16);
      ValueOfCharOf(b[1] as int % 16 * 4);
      assert [b[0], b[1]] == b;
    }
  }

  /** Decoding an encoding gives the bytes back. */
  lemma {:induction false} DecodeEncode(b: seq<byte>)
    ensures Decode(Encode(b)) == Some(b)
    decreases |b|
  {
    if b == [] {
    } else if |b| < 3 {
      TailRoundTrip(b);
    } else {
      var t := EncodeTriple(b[0], b[1], b[2]);
      var rest := Encode(b[3..]);
      TripleRoundTrip(b[0], b[1], b[2]);
      assert b == [b[0], b[1], b[2]] + b[3..];
      if b[3..] == [] {
        assert rest == [] && Encode(b) == t + rest && t + rest == t;
        assert t[3] != '=';
        assert b == [b[0], b[1], b[2]];
      } else {
        DecodeEncode(b[3..]);
        var s := t + rest;
        assert s[..4] == t && s[4..] == rest;
      }
    }
  }
}
