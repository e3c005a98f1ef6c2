/**
 * Base 64 as the mail attachments use it: `base64.b64encode` (section 4 of
 * RFC 4648, standard alphabet with `=` padding) and `base64.urlsafe_b64decode`
 * (section 5 of RFC 4648: `-` and `_` stand for `+` and `/`).
 */
module Base64 {
  import opened Wrappers

  type byte = b: int | 0 <= b < 256
  type sextet = v: int | 0 <= v < 64

  /** The character for a 6-bit value in the standard alphabet (RFC 4648, section 4, table 1). */
  function StdChar(v: sextet): (c: char)
    ensures c != '=' && c != '-' && c != '_'
  {
    if v < 26 then ('A' as int + v) as char
    else if v < 52 then ('a' as int + (v - 26)) as char
    else if v < 62 then ('0' as int + (v - 52)) as char
    else if v == 62 then '+'
    else '/'
  }

  /** The 6-bit value of a character of the standard alphabet, if it is one. */
  function StdValue(c: char): (r: Option<sextet>)
    ensures r.Some? ==> StdChar(r.value) == c
  {
    if 'A' <= c <= 'Z' then Some(c as int - 'A' as int)
    else if 'a' <= c <= 'z' then Some(c as int - 'a' as int + 26)
    else if '0' <= c <= '9' then Some(c as int - '0' as int + 52)
    else if c == '+' then Some(62)
    else if c == '/' then Some(63)
    else None
  }

  /** Every character of the alphabet decodes to the value it encodes. */
  lemma StdValueOfChar(v: sextet)
    ensures StdValue(StdChar(v)) == Some(v)
  {
  }

  /** Three bytes become four characters. */
  function EncodeTriple(a: byte, b: byte, c: byte): string
  {
    [StdChar(a / 4), StdChar((a % 4) * 16 + b / 16), StdChar((b % 16) * 4 + c / 64), StdChar(c % 64)]
  }

  /** A final group of two bytes: three characters and one `=`. */
  function EncodePair(a: byte, b: byte): string
  {
    [StdChar(a / 4), StdChar((a % 4) * 16 + b / 16), StdChar((b % 16) * 4), '=']
  }

  /** A final group of one byte: two characters and `==`. */
  function EncodeSingle(a: byte): string
  {
    [StdChar(a / 4), StdChar((a % 4) * 16), '=', '=']
  }

  /** `base64.b64encode(data)`: the output length is 4 characters per started group of 3 bytes. */
  function B64Encode(data: seq<byte>): (r: string)
    ensures |r| == 4 * ((|data| + 2) / 3)
    decreases |data|
  {
    if |data| == 0 then ""
    else if |data| == 1 then EncodeSingle(data[0])
    else if |data| == 2 then EncodePair(data[0], data[1])
    else EncodeTriple(data[0], data[1], data[2]) + B64Encode(data[3..])
  }

  /** The bytes that a group of 6-bit values carries: first, second and third. */
  function Byte0(v0: sextet, v1: sextet): byte { (v0 as int) * 4 + (v1 as int) / 16 }
  function Byte1(v1: sextet, v2: sextet): byte { ((v1 as int) % 16) * 16 + (v2 as int) / 4 }
  function Byte2(v2: sextet, v3: sextet): byte { ((v2 as int) % 4) * 64 + (v3 as int) }

  /** Four alphabet characters become three bytes. */
  function DecodeQuad(q: string): Option<seq<byte>>
    requires |q| == 4
  {
    match (StdValue(q[0]), StdValue(q[1]), StdValue(q[2]), StdValue(q[3]))
    case (Some(v0), Some(v1), Some(v2), Some(v3)) =>
      Some([Byte0(v0, v1), Byte1(v1, v2), Byte2(v2, v3)])
    case _ => None
  }

  /** The last group of four, which may end in `=` or `==`. */
  function DecodeFinal(q: string): Option<seq<byte>>
    requires |q| == 4
  {
    if q[2] == '=' && q[3] == '=' then
      match (StdValue(q[0]), StdValue(q[1]))
      case (Some(v0), Some(v1)) => Some([Byte0(v0, v1)])
      case _ => None
    else if q[3] == '=' then
      match (StdValue(q[0]), StdValue(q[1]), StdValue(q[2]))
      case (Some(v0), Some(v1), Some(v2)) => Some([Byte0(v0, v1), Byte1(v1, v2)])
      case _ => None
    else DecodeQuad(q)
  }

  /** Decoding text in the standard alphabet; `None` where Python raises `binascii.Error`. */
  function B64DecodeStd(s: string): Option<seq<byte>>
    decreases |s|
  {
    if |s| == 0 then Some([])
    else if |s| < 4 then None
    else if |s| == 4 then DecodeFinal(s)
    else
      match DecodeQuad(s[..4])
      case None => None
      case Some(head) =>
        match B64DecodeStd(s[4..])
        case None => None
        case Some(tail) => Some(head + tail)
  }

  /** The RFC 4648 section 5 alphabet mapped back onto the section 4 one: `-` to `+` and `_` to `/`. */
  function UrlsafeToStd(s: string): (r: string)
    ensures |r| == |s|
    ensures forall i :: 0 <= i < |s| ==>
      r[i] == (if s[i] == '-' then '+' else if s[i] == '_' then '/' else s[i])
  {
    if |s| == 0 then ""
    else [if s[0] == '-' then '+' else if s[0] == '_' then '/' else s[0]] + UrlsafeToStd(s[1..])
  }

  /**
   * `base64.urlsafe_b64decode(s)`: the RFC 4648 section 5 alphabet read as the
   * section 4 one, so on text without `-` or `_` it is the standard decoder.
   */
  function UrlsafeB64Decode(s: string): (r: Option<seq<byte>>)
    ensures (forall i :: 0 <= i < |s| ==> s[i] != '-' && s[i] != '_') ==> r == B64DecodeStd(s)
  {
    assert (forall i :: 0 <= i < |s| ==> s[i] != '-' && s[i] != '_') ==> UrlsafeToStd(s) == s by {
      if forall i :: 0 <= i < |s| ==> s[i] != '-' && s[i] != '_' {
        UrlsafeToStdIdentity(s);
      }
    }
    B64DecodeStd(UrlsafeToStd(s))
  }

  lemma TripleRoundTrip(a: byte, b: byte, c: byte)
    ensures DecodeQuad(EncodeTriple(a, b, c)) == Some([a, b, c])
  {
    var v1: sextet := (a % 4) * 16 + b / 16;
    var v2: sextet := (b % 16) * 4 + c / 64;
    StdValueOfChar(a / 4);
    StdValueOfChar(v1);
    StdValueOfChar(v2);
    StdValueOfChar(c % 64);
    assert v1 / 16 == a % 4 && v1 % 16 == b / 16;
    assert v2 / 4 == b % 16 && v2 % 4 == c / 64;
  }

  lemma PairRoundTrip(a: byte, b: byte)
    ensures DecodeFinal(EncodePair(a, b)) == Some([a, b])
  {
    var v1: sextet := (a % 4) * 16 + b / 16;
    StdValueOfChar(a / 4);
    StdValueOfChar(v1);
    StdValueOfChar((b % 16) * 4);
    assert v1 / 16 == a % 4 && v1 % 16 == b / 16;
    assert ((b % 16) * 4) / 4 == b % 16;
  }

  lemma SingleRoundTrip(a: byte)
    ensures DecodeFinal(EncodeSingle(a)) == Some([a])
  {
    StdValueOfChar(a / 4);
    StdValueOfChar((a % 4) * 16);
    assert ((a % 4) * 16) / 16 == a % 4;
  }

  /** The encoder's output is never anything but alphabet characters and `=`, so it has no `-` or `_`. */
  lemma {:induction false} EncodeIsStd(data: seq<byte>)
    ensures forall i :: 0 <= i < |B64Encode(data)| ==> B64Encode(data)[i] != '-' && B64Encode(data)[i] != '_'
    decreases |data|
  {
    if |data| > 2 {
      EncodeIsStd(data[3..]);
    }
  }

  /** A full group followed by more groups decodes group by group. */
  lemma DecodeStep(q: string, rest: string, head: seq<byte>, tail: seq<byte>)
    requires |q| == 4 && |rest| >= 4
    requires DecodeQuad(q) == Some(head) && B64DecodeStd(rest) == Some(tail)
    ensures B64DecodeStd(q + rest) == Some(head + tail)
  {
    assert |q + rest| > 4;
    assert (q + rest)[..4] == q;
    assert (q + rest)[4..] == rest;
  }

  /** A single three-byte group is also decoded as the last group. */
  lemma LastTripleRoundTrip(a: byte, b: byte, c: byte)
    ensures B64DecodeStd(EncodeTriple(a, b, c)) == Some([a, b, c])
  {
    DecodeOneGroup(EncodeTriple(a, b, c));
    TripleRoundTrip(a, b, c);
  }

  /** A text of one group is decoded as the last group. */
  lemma DecodeOneGroup(s: string)
    requires |s| == 4
    ensures B64DecodeStd(s) == DecodeFinal(s)
  {
  }

  lemma OneByteRoundTrip(data: seq<byte>)
    requires |data| == 1
    ensures B64DecodeStd(B64Encode(data)) == Some(data)
  {
    assert data == [data[0]];
    DecodeOneGroup(EncodeSingle(data[0]));
    SingleRoundTrip(data[0]);
  }

  lemma TwoByteRoundTrip(data: seq<byte>)
    requires |data| == 2
    ensures B64DecodeStd(B64Encode(data)) == Some(data)
  {
    assert data == [data[0], data[1]];
    DecodeOneGroup(EncodePair(data[0], data[1]));
    PairRoundTrip(data[0], data[1]);
  }

  lemma ThreeByteRoundTrip(data: seq<byte>)
    requires |data| == 3
    ensures B64DecodeStd(B64Encode(data)) == Some(data)
  {
    assert data == [data[0], data[1], data[2]];
    assert data[3..] == [];
    assert B64Encode(data) == EncodeTriple(data[0], data[1], data[2]);
    LastTripleRoundTrip(data[0], data[1], data[2]);
  }

  /** Longer inputs are encoded one leading group at a time. */
  lemma EncodeLong(data: seq<byte>)
    requires |data| > 3
    ensures B64Encode(data) == EncodeTriple(data[0], data[1], data[2]) + B64Encode(data[3..])
    ensures |B64Encode(data[3..])| >= 4
  {
  }

  /** A leading group of three followed by a tail that round-trips. */
  lemma {:induction false} LongRoundTrip(data: seq<byte>)
    requires |data| > 3
    requires B64DecodeStd(B64Encode(data[3..])) == Some(data[3..])
    ensures B64DecodeStd(B64Encode(data)) == Some(data)
  {
    var head: seq<byte> := [data[0], data[1], data[2]];
    var tail: seq<byte> := data[3..];
    assert head + tail == data;
    var q, rest := EncodeTriple(data[0], data[1], data[2]), B64Encode(tail);
    EncodeLong(data);
    TripleRoundTrip(data[0], data[1], data[2]);
    DecodeStep(q, rest, head, tail);
  }

  /** Decoding what the encoder produced gives the bytes back (standard alphabet on both sides). */
  lemma {:induction false} StdRoundTrip(data: seq<byte>)
    ensures B64DecodeStd(B64Encode(data)) == Some(data)
    decreases |data|
  {
    if |data| == 1 {
      OneByteRoundTrip(data);
    } else if |data| == 2 {
      TwoByteRoundTrip(data);
    } else if |data| == 3 {
      ThreeByteRoundTrip(data);
    } else if |data| > 3 {
      StdRoundTrip(data[3..]);
      LongRoundTrip(data);
    }
  }

  /** Text without `-` or `_` is left alone by the translation from the RFC 4648 section 5 alphabet. */
  lemma UrlsafeToStdIdentity(s: string)
    requires forall i :: 0 <= i < |s| ==> s[i] != '-' && s[i] != '_'
    ensures UrlsafeToStd(s) == s
  {
  }

  /** `urlsafe_b64decode(b64encode(x)) == x`: attachments carry the raw bytes. */
  lemma UrlsafeRoundTrip(data: seq<byte>)
    ensures UrlsafeB64Decode(B64Encode(data)) == Some(data)
  {
    EncodeIsStd(data);
    UrlsafeToStdIdentity(B64Encode(data));
    StdRoundTrip(data);
  }
}
