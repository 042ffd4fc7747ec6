/** UTF-8 as Python's strict codec reads and writes it (RFC 3629 sections 3 and 4). */
module Utf8 {
  import opened Model

  type Byte = b: int | 0 <= b < 256

  /** A Unicode scalar value: a code point that is not a surrogate. */
  type Scalar = c: int | 0 <= c < 0xD800 || 0xE000 <= c < 0x11_0000

  /** The six payload bits of a continuation byte. */
  function Tail(v: nat): Byte { 0x80 + v % 64 }

  function EncodeScalar(c: Scalar): (b: seq<Byte>)
    ensures 1 <= |b| <= 4
  {
    if c < 0x80 then [c]
    else if c < 0x800 then [0xC0 + c / 64, Tail(c)]
    else if c < 0x1_0000 then [0xE0 + c / 64 / 64, Tail(c / 64), Tail(c)]
    else [0xF0 + c / 64 / 64 / 64, Tail(c / 64 / 64), Tail(c / 64), Tail(c)]
  }

  function Encode(s: seq<Scalar>): seq<Byte> {
    if s == [] then [] else EncodeScalar(s[0]) + Encode(s[1..])
  }

  predicate Continuation(b: Byte) { 0x80 <= b < 0xC0 }

  predicate IsScalar(v: int) { 0 <= v < 0xD800 || 0xE000 <= v < 0x11_0000 }

  /** `high` followed by the payload of a continuation byte. */
  function WithPayload(high: int, b: Byte): int { high * 64 + (b as int - 0x80) }

  /** The first scalar and the number of bytes it takes.  Overlong forms, surrogates and values past
      0x10FFFF are refused. */
  function DecodeFirst(b: seq<Byte>): (r: Option<(Scalar, nat)>)
    ensures r.Some? ==> 1 <= r.value.1 <= |b|
  {
    if b == [] then None
    else if b[0] < 0x80 then Some((b[0], 1))
    else if 0xC0 <= b[0] < 0xE0 && |b| >= 2 && Continuation(b[1]) then
      var v := WithPayload(b[0] as int - 0xC0, b[1]);
      if v >= 0x80 then Some((v, 2)) else None
    else if 0xE0 <= b[0] < 0xF0 && |b| >= 3 && Continuation(b[1]) && Continuation(b[2]) then
      var v := WithPayload(WithPayload(b[0] as int - 0xE0, b[1]), b[2]);
      if v >= 0x800 && IsScalar(v) then Some((v, 3)) else None
    else if 0xF0 <= b[0] < 0xF8 && |b| >= 4 && Continuation(b[1]) && Continuation(b[2]) && Continuation(b[3]) then
      var v := WithPayload(WithPayload(WithPayload(b[0] as int - 0xF0, b[1]), b[2]), b[3]);
      if v >= 0x1_0000 && IsScalar(v) then Some((v, 4)) else None
    else None
  }

  function Decode(b: seq<Byte>): Option<seq<Scalar>> {
    if b == [] then Some([])
    else
      match DecodeFirst(b)
      case None => None
      case Some((c, n)) =>
        match Decode(b[n..])
        case None => None
        case Some(rest) => Some([c] + rest)
  }

  /** The examples of RFC 3629 section 7: one scalar of two bytes, three of three bytes, one of four. */
  lemma Examples()
    ensures EncodeScalar(0x391) == [0xCE, 0x91] && EncodeScalar(0x2262) == [0xE2, 0x89, 0xA2]
    ensures EncodeScalar(0xD55C) == [0xED, 0x95, 0x9C] && EncodeScalar(0xFEFF) == [0xEF, 0xBB, 0xBF]
    ensures EncodeScalar(0x233B4) == [0xF0, 0xA3, 0x8E, 0xB4]
  {
  }

  lemma PayloadOfTail(v: nat)
    ensures WithPayload(v / 64, Tail(v)) == v && Continuation(Tail(v))
  {
  }

  lemma TailOfPayload(high: nat, b: Byte)
    requires Continuation(b)
    ensures WithPayload(high, b) >= 0 && WithPayload(high, b) / 64 == high && Tail(WithPayload(high, b)) == b
  {
  }

  lemma FirstOfEncoded(c: Scalar, rest: seq<Byte>)
    ensures DecodeFirst(EncodeScalar(c) + rest) == Some((c, |EncodeScalar(c)|))
  {
    PayloadOfTail(c);
    PayloadOfTail(c / 64);
    PayloadOfTail(c / 64 / 64);
    hide WithPayload, Tail;
  }

  lemma EncodedFirst(b: seq<Byte>)
    requires DecodeFirst(b).Some?
    ensures EncodeScalar(DecodeFirst(b).value.0) == b[..DecodeFirst(b).value.1]
  {
    var n := DecodeFirst(b).value.1;
    if n == 2 {
      TailOfPayload(b[0] - 0xC0, b[1]);
    } else if n == 3 {
      TailOfPayload(b[0] - 0xE0, b[1]);
      TailOfPayload(WithPayload(b[0] - 0xE0, b[1]), b[2]);
    } else if n == 4 {
      TailOfPayload(b[0] - 0xF0, b[1]);
      TailOfPayload(WithPayload(b[0] - 0xF0, b[1]), b[2]);
      TailOfPayload(WithPayload(WithPayload(b[0] - 0xF0, b[1]), b[2]), b[3]);
    }
  }

  lemma {:induction false} DecodeEncoded(s: seq<Scalar>)
    ensures Decode(Encode(s)) == Some(s)
  {
    hide DecodeFirst, EncodeScalar;
    if s != [] {
      FirstOfEncoded(s[0], Encode(s[1..]));
      DecodeEncoded(s[1..]);
      var n := |EncodeScalar(s[0])|;
      assert Encode(s)[n..] == Encode(s[1..]);
      assert Decode(Encode(s)[n..]) == Some(s[1..]);
      assert [s[0]] + s[1..] == s;
    }
  }

  /** Strict decoding accepts exactly the encodings: no two byte sequences decode alike. */
  lemma {:induction false} EncodedDecoded(b: seq<Byte>)
    requires Decode(b).Some?
    ensures Encode(Decode(b).value) == b
  {
    hide DecodeFirst, EncodeScalar;
    if b != [] {
      EncodedFirst(b);
      var n := DecodeFirst(b).value.1;
      EncodedDecoded(b[n..]);
      assert b == b[..n] + b[n..];
    }
  }
}
