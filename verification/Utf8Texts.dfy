/** Texts in UTF-8 are exactly the encodings of sequences of characters (section 3 of RFC 3629). */
module Utf8Texts {
  import opened Common
  import opened Cbor

  /** A Unicode scalar value: a code point that is no surrogate. */
  type Scalar = c: int | 0 <= c < 0xD800 || 0xE000 <= c < 0x11_0000

  /** One to four octets, the bits of the number spread over them six at a time from the end. */
  function EncodeScalar(c: Scalar): (b: Bytes)
    ensures b != []
  {
    if c < 0x80 then [c]
    else if c < 0x800 then [0xC0 + c / 64, 0x80 + c % 64]
    else if c < 0x1_0000 then [0xE0 + c / 4096, 0x80 + c / 64 % 64, 0x80 + c % 64]
    else [0xF0 + c / 262144, 0x80 + c / 4096 % 64, 0x80 + c / 64 % 64, 0x80 + c % 64]
  }

  function EncodeScalars(cs: seq<Scalar>): Bytes {
    if cs == [] then [] else EncodeScalar(cs[0]) + EncodeScalars(cs[1..])
  }

  lemma {:induction false} EncodedOctets(c: Scalar)
    ensures var b := EncodeScalar(c);
      && (|b| == 1 ==> b[0] < 0x80)
      && (|b| == 2 ==> 0xC2 <= b[0] <= 0xDF)
      && (|b| == 3 ==> 0xE0 <= b[0] <= 0xEF && (b[0] == 0xE0 ==> b[1] >= 0xA0) && (b[0] == 0xED ==> b[1] < 0xA0))
      && (|b| == 4 ==> 0xF0 <= b[0] <= 0xF4 && (b[0] == 0xF0 ==> b[1] >= 0x90) && (b[0] == 0xF4 ==> b[1] < 0x90))
      && |b| <= 4 && forall k :: 0 < k < |b| ==> Continues(b[k])
  {
  }

  lemma {:induction false} ScalarThen(c: Scalar, rest: Bytes)
    ensures Utf8(EncodeScalar(c) + rest) == Utf8(rest)
  {
    EncodedOctets(c);
    hide EncodeScalar;
    var first := EncodeScalar(c);
    var b := first + rest;
    assert b[|first|..] == rest;
    assert forall k :: 0 <= k < |first| ==> b[k] == first[k];
  }

  /** Whatever characters are encoded, the octets are accepted. */
  lemma {:induction false} EncodedIsUtf8(cs: seq<Scalar>)
    ensures Utf8(EncodeScalars(cs))
    decreases |cs|
  {
    hide Utf8, EncodeScalar;
    if cs == [] {
      NothingIsUtf8();
    } else {
      EncodedIsUtf8(cs[1..]);
      ScalarThen(cs[0], EncodeScalars(cs[1..]));
    }
  }

  lemma {:induction false} NothingIsUtf8()
    ensures Utf8([])
  {
  }

  /** Six bits at a time. */
  lemma {:induction false} Sixes(x: nat, y: nat, z: nat, w: nat)
    requires y < 64 && z < 64 && w < 64
    ensures var c := ((x * 64 + y) * 64 + z) * 64 + w;
      c / 262144 == x && c / 4096 % 64 == y && c / 64 % 64 == z && c % 64 == w
  {
    var c := ((x * 64 + y) * 64 + z) * 64 + w;
    assert c == 4096 * (x * 64 + y) + (z * 64 + w) && c == 262144 * x + (y * 4096 + z * 64 + w);
  }

  /** The character that octets accepted begin with. */
  lemma {:induction false} FirstScalar(b: Bytes) returns (c: Scalar, n: nat)
    requires Utf8(b) && b != []
    ensures 0 < n <= |b| && b[..n] == EncodeScalar(c) && Utf8(b[n..])
  {
    if b[0] < 0x80 {
      c, n := b[0], 1;
    } else if b[0] <= 0xDF {
      c, n := TwoOctets(b[0], b[1]), 2;
    } else if b[0] <= 0xEF {
      c, n := ThreeOctets(b[0], b[1], b[2]), 3;
    } else {
      c, n := FourOctets(b[0], b[1], b[2], b[3]), 4;
    }
  }

  function TwoOctets(a: Byte, b: Byte): (c: Scalar)
    requires 0xC2 <= a <= 0xDF && 0x80 <= b < 0xC0
    ensures EncodeScalar(c) == [a, b]
  {
    Sixes(0, 0, a - 0xC0, b - 0x80);
    (a as int - 0xC0) * 64 + (b as int - 0x80)
  }

  function ThreeOctets(a: Byte, b: Byte, d: Byte): (c: Scalar)
    requires 0xE0 <= a <= 0xEF && 0x80 <= b < 0xC0 && 0x80 <= d < 0xC0
    requires (a == 0xE0 ==> b >= 0xA0) && (a == 0xED ==> b < 0xA0)
    ensures EncodeScalar(c) == [a, b, d]
  {
    Sixes(0, a - 0xE0, b - 0x80, d - 0x80);
    var c := ((a as int - 0xE0) * 64 + (b as int - 0x80)) * 64 + (d as int - 0x80);
    assert c / 4096 == a as int - 0xE0;
    c
  }

  function FourOctets(a: Byte, b: Byte, d: Byte, e: Byte): (c: Scalar)
    requires 0xF0 <= a <= 0xF4 && 0x80 <= b < 0xC0 && 0x80 <= d < 0xC0 && 0x80 <= e < 0xC0
    requires (a == 0xF0 ==> b >= 0x90) && (a == 0xF4 ==> b < 0x90)
    ensures EncodeScalar(c) == [a, b, d, e]
  {
    Sixes(a - 0xF0, b - 0x80, d - 0x80, e - 0x80);
    (((a as int - 0xF0) * 64 + (b as int - 0x80)) * 64 + (d as int - 0x80)) * 64 + (e as int - 0x80)
  }

  /** And octets that are accepted are the encoding of characters. */
  lemma {:induction false} Utf8IsEncoded(b: Bytes) returns (cs: seq<Scalar>)
    requires Utf8(b)
    ensures EncodeScalars(cs) == b
    decreases |b|
  {
    hide Utf8, EncodeScalar;
    if b == [] {
      cs := [];
    } else {
      var c, n := FirstScalar(b);
      var rest := Utf8IsEncoded(b[n..]);
      cs := [c] + rest;
      assert cs[1..] == rest && b == b[..n] + b[n..];
    }
  }
}
