/**
 The part of CBOR (section 3 of RFC 8949) that addresses use: definite lengths, integers, byte and text
 strings, arrays, maps, booleans and null. The encoder writes shortest heads; the decoder takes any.
 */
module Cbor {
  import opened Common
  import opened Numbers

  datatype Value =
    | Int(i: int)
    | Octets(b: Bytes)
    | Text(t: Bytes)  // in UTF-8
    | Array(items: seq<Value>)
    | Map(pairs: seq<Pair>)
    | Bool(v: bool)
    | Null

  datatype Pair = Pair(key: Value, value: Value)

  const LIMIT: int := 0x1_0000_0000_0000_0000

  predicate Continues(b: Byte) {
    0x80 <= b < 0xC0
  }

  /** Section 4 of RFC 3629. */
  predicate Utf8(b: Bytes) {
    if b == [] then true
    else if b[0] < 0x80 then Utf8(b[1..])
    else if 0xC2 <= b[0] <= 0xDF then |b| >= 2 && Continues(b[1]) && Utf8(b[2..])
    else if 0xE0 <= b[0] <= 0xEF then
      |b| >= 3 && Continues(b[1]) && Continues(b[2])
      && (b[0] == 0xE0 ==> b[1] >= 0xA0) && (b[0] == 0xED ==> b[1] < 0xA0) && Utf8(b[3..])
    else if 0xF0 <= b[0] <= 0xF4 then
      |b| >= 4 && Continues(b[1]) && Continues(b[2]) && Continues(b[3])
      && (b[0] == 0xF0 ==> b[1] >= 0x90) && (b[0] == 0xF4 ==> b[1] < 0x90) && Utf8(b[4..])
    else false
  }

  /** Integers of 65 bits with sign, and text that is text. */
  predicate Sound(v: Value) {
    match v
    case Int(i) => -LIMIT <= i < LIMIT
    case Text(t) => Utf8(t)
    case Array(items) => forall w :: w in items ==> Sound(w)
    case Map(pairs) => forall p :: p in pairs ==> Sound(p.key) && Sound(p.value)
    case _ => true
  }

  lemma {:induction false} Spans()
    ensures Span(1) == 0x100 && Span(2) == 0x1_0000 && Span(4) == 0x1_0000_0000 && Span(8) == LIMIT
  {
    assert Span(0) == 1;
    assert Span(3) == 0x100_0000 && Span(5) == 0x100_0000_0000;
    assert Span(6) == 0x1_0000_0000_0000 && Span(7) == 0x100_0000_0000_0000;
  }

  // ---- Heads ----

  type Major = m: nat | m < 8

  function Width(n: nat): (r: nat)
    ensures r == 0 || r == 1 || r == 2 || r == 4 || r == 8
  {
    if n < 24 then 0 else if n < 0x100 then 1 else if n < 0x1_0000 then 2 else if n < 0x1_0000_0000 then 4 else 8
  }

  /** Numbers up to 64 bits; the length of anything in memory is one. */
  function Head(major: Major, n: nat): (r: Bytes)
    ensures |r| == 1 + Width(n)
  {
    match Width(n)
    case 0 => [major * 32 + n]
    case 1 => [major * 32 + 24] + BigEndian(n, 1)
    case 2 => [major * 32 + 25] + BigEndian(n, 2)
    case 4 => [major * 32 + 26] + BigEndian(n, 4)
    case _ => [major * 32 + 27] + BigEndian(n, 8)
  }

  function WidthOf(info: nat): Option<nat> {
    match info
    case 24 => Some(1)
    case 25 => Some(2)
    case 26 => Some(4)
    case 27 => Some(8)
    case _ => if info < 24 then Some(0) else None
  }

  datatype Headed = Headed(major: Major, n: nat, rest: Bytes)

  function ReadHead(b: Bytes): (r: Option<Headed>)
    ensures r.Some? ==> |r.value.rest| < |b|
  {
    if b == [] then None
    else
      match WidthOf(b[0] % 32)
      case None => None
      case Some(w) =>
        if |b| < 1 + w then None
        else Some(Headed(b[0] / 32, if w == 0 then b[0] % 32 else Number(b[1..1 + w]), b[1 + w..]))
  }

  lemma {:induction false} FitsItsWidth(n: nat)
    requires n < LIMIT && Width(n) > 0
    ensures Number(BigEndian(n, Width(n))) == n
  {
    hide Number, BigEndian;
    Spans();
    NumberOfBigEndian(n, Width(n));
  }

  lemma {:induction false} HeadRoundTrip(major: Major, n: nat, rest: Bytes)
    requires n < LIMIT
    ensures ReadHead(Head(major, n) + rest) == Some(Headed(major, n, rest))
  {
    hide Number, BigEndian;
    var w := Width(n);
    var b := Head(major, n) + rest;
    if w > 0 {
      FitsItsWidth(n);
      assert b[1..1 + w] == BigEndian(n, w);
    }
    assert b[1 + w..] == rest;
  }

  /** No head of the same number is shorter (section 4.2.1 of RFC 8949). */
  lemma {:induction false} HeadIsShortest(b: Bytes)
    requires ReadHead(b).Some?
    ensures var h := ReadHead(b).value; |Head(h.major, h.n)| + |h.rest| <= |b|
  {
    hide Head;
    var w := WidthOf(b[0] % 32).value;
    Spans();
    hide Number;
    NumberFits(b[1..1 + w]);
  }

  // ---- Values ----

  function Encode(v: Value): (r: Bytes)
    ensures |r| > 0
    decreases v
  {
    match v
    case Int(i) => if i >= 0 then Head(0, i) else Head(1, -1 - i)
    case Octets(b) => Head(2, |b|) + b
    case Text(t) => Head(3, |t|) + t
    case Array(items) => Head(4, |items|) + EncodeItems(items)
    case Map(pairs) => Head(5, |pairs|) + EncodePairs(pairs)
    case Bool(b) => [if b then 0xF5 else 0xF4]
    case Null => [0xF6]
  }

  function EncodeItems(items: seq<Value>): (r: Bytes)
    ensures |r| >= |items|
    decreases items
  {
    if items == [] then [] else Encode(items[0]) + EncodeItems(items[1..])
  }

  function EncodePair(p: Pair): (r: Bytes)
    ensures |r| > 0
    decreases p
  {
    Encode(p.key) + Encode(p.value)
  }

  function EncodePairs(pairs: seq<Pair>): (r: Bytes)
    ensures |r| >= |pairs|
    decreases pairs
  {
    if pairs == [] then [] else EncodePair(pairs[0]) + EncodePairs(pairs[1..])
  }

  datatype Decoded<+T> = Decoded(value: T, rest: Bytes)

  function Decode(b: Bytes): (r: Option<Decoded<Value>>)
    ensures r.Some? ==> |r.value.rest| < |b|
    decreases |b|, 0
  {
    match ReadHead(b)
    case None => None
    case Some(h) => DecodeBody(h, b[0] % 32)
  }

  /** The rest of a value whose head is read; `info` is the head's low five bits. */
  function DecodeBody(h: Headed, info: nat): (r: Option<Decoded<Value>>)
    ensures r.Some? ==> |r.value.rest| <= |h.rest|
    decreases |h.rest|, 2
  {
    match h.major
    case 0 => Some(Decoded(Int(h.n), h.rest))
    case 1 => Some(Decoded(Int(-1 - h.n), h.rest))
    case 2 => if h.n > |h.rest| then None else Some(Decoded(Octets(h.rest[..h.n]), h.rest[h.n..]))
    case 3 =>
      if h.n > |h.rest| || !Utf8(h.rest[..h.n]) then None else Some(Decoded(Text(h.rest[..h.n]), h.rest[h.n..]))
    case 4 =>
      (match DecodeItems(h.rest, h.n)
       case None => None
       case Some(d) => Some(Decoded(Array(d.value), d.rest)))
    case 5 =>
      (match DecodePairs(h.rest, h.n)
       case None => None
       case Some(d) => Some(Decoded(Map(d.value), d.rest)))
    case 7 =>
      if info == 20 || info == 21 then Some(Decoded(Bool(info == 21), h.rest))
      else if info == 22 || info == 23 then Some(Decoded(Null, h.rest))
      else None
    case _ => None
  }

  function DecodeItems(b: Bytes, n: nat): (r: Option<Decoded<seq<Value>>>)
    ensures r.Some? ==> |r.value.rest| <= |b|
    decreases |b|, 1
  {
    if n == 0 then Some(Decoded([], b))
    else
      match Decode(b)
      case None => None
      case Some(first) =>
        match DecodeItems(first.rest, n - 1)
        case None => None
        case Some(others) => Some(Decoded([first.value] + others.value, others.rest))
  }

  function DecodePairs(b: Bytes, n: nat): (r: Option<Decoded<seq<Pair>>>)
    ensures r.Some? ==> |r.value.rest| <= |b|
    decreases |b|, 1
  {
    if n == 0 then Some(Decoded([], b))
    else
      match Decode(b)
      case None => None
      case Some(key) =>
        match Decode(key.rest)
        case None => None
        case Some(value) =>
          match DecodePairs(value.rest, n - 1)
          case None => None
          case Some(others) => Some(Decoded([Pair(key.value, value.value)] + others.value, others.rest))
  }

  lemma {:induction false} RoundTrip(v: Value, rest: Bytes)
    requires Sound(v) && |Encode(v)| < LIMIT
    ensures Decode(Encode(v) + rest) == Some(Decoded(v, rest))
    decreases v
  {
    hide Head, ReadHead, BigEndian, Utf8, Number;
    match v
    case Int(i) =>
      HeadRoundTrip(if i >= 0 then 0 else 1, if i >= 0 then i else -1 - i, rest);
    case Octets(b) =>
      assert Encode(v) + rest == Head(2, |b|) + (b + rest);
      HeadRoundTrip(2, |b|, b + rest);
      assert (b + rest)[..|b|] == b && (b + rest)[|b|..] == rest;
    case Text(t) =>
      assert Encode(v) + rest == Head(3, |t|) + (t + rest);
      HeadRoundTrip(3, |t|, t + rest);
      assert (t + rest)[..|t|] == t && (t + rest)[|t|..] == rest;
    case Array(items) =>
      assert Encode(v) + rest == Head(4, |items|) + (EncodeItems(items) + rest);
      HeadRoundTrip(4, |items|, EncodeItems(items) + rest);
      ItemsRoundTrip(items, rest);
    case Map(pairs) =>
      assert Encode(v) + rest == Head(5, |pairs|) + (EncodePairs(pairs) + rest);
      HeadRoundTrip(5, |pairs|, EncodePairs(pairs) + rest);
      PairsRoundTrip(pairs, rest);
    case Bool(_) => SimpleRoundTrip(v, rest);
    case Null => SimpleRoundTrip(v, rest);
  }

  lemma {:induction false} SimpleRoundTrip(v: Value, rest: Bytes)
    requires v.Bool? || v.Null?
    ensures Decode(Encode(v) + rest) == Some(Decoded(v, rest))
  {
    var b := Encode(v) + rest;
    assert b[1..] == rest;
  }

  lemma {:induction false} ItemsRoundTrip(items: seq<Value>, rest: Bytes)
    requires forall w :: w in items ==> Sound(w)
    requires |EncodeItems(items)| < LIMIT
    ensures DecodeItems(EncodeItems(items) + rest, |items|) == Some(Decoded(items, rest))
    decreases items
  {
    hide Decode, Encode, Sound;
    if items != [] {
      var tail := EncodeItems(items[1..]) + rest;
      assert items[0] in items;
      RoundTrip(items[0], tail);
      ItemsRoundTrip(items[1..], rest);
      assert EncodeItems(items) + rest == Encode(items[0]) + tail;
      assert [items[0]] + items[1..] == items;
    } else {
      assert EncodeItems(items) + rest == rest;
    }
  }

  lemma {:induction false} PairsRoundTrip(pairs: seq<Pair>, rest: Bytes)
    requires forall p :: p in pairs ==> Sound(p.key) && Sound(p.value)
    requires |EncodePairs(pairs)| < LIMIT
    ensures DecodePairs(EncodePairs(pairs) + rest, |pairs|) == Some(Decoded(pairs, rest))
    decreases pairs
  {
    hide Decode, EncodePair, Sound;
    if pairs != [] {
      var p := pairs[0];
      var tail := EncodePairs(pairs[1..]) + rest;
      assert p in pairs;
      PairRoundTrip(p, tail);
      PairsRoundTrip(pairs[1..], rest);
      assert EncodePairs(pairs) + rest == EncodePair(p) + tail;
      assert [p] + pairs[1..] == pairs;
    } else {
      assert EncodePairs(pairs) + rest == rest;
    }
  }

  lemma {:induction false} PairRoundTrip(p: Pair, rest: Bytes)
    requires Sound(p.key) && Sound(p.value) && |EncodePair(p)| < LIMIT
    ensures Decode(EncodePair(p) + rest).Some?
    ensures var key := Decode(EncodePair(p) + rest).value;
            key.value == p.key && Decode(key.rest) == Some(Decoded(p.value, rest))
    decreases p
  {
    hide Decode, Encode, Sound;
    RoundTrip(p.value, rest);
    RoundTrip(p.key, Encode(p.value) + rest);
    assert EncodePair(p) + rest == Encode(p.key) + (Encode(p.value) + rest);
  }

  /** What decoding accepts is sound: text is text and integers fit. */
  lemma {:induction false} DecodedIsSound(b: Bytes)
    ensures Decode(b).Some? ==> Sound(Decode(b).value.value)
    decreases |b|, 0
  {
    hide Utf8;
    var h := ReadHead(b);
    if h.Some? {
      HeadFits(b);
      if h.value.major == 4 {
        ItemsAreSound(h.value.rest, h.value.n);
      } else if h.value.major == 5 {
        PairsAreSound(h.value.rest, h.value.n);
      }
    }
  }

  lemma {:induction false} HeadFits(b: Bytes)
    requires ReadHead(b).Some?
    ensures ReadHead(b).value.n < LIMIT
  {
    var w := WidthOf(b[0] % 32).value;
    NumberFits(b[1..1 + w]);
    Spans();
  }

  lemma {:induction false} ItemsAreSound(b: Bytes, n: nat)
    ensures DecodeItems(b, n).Some? ==> forall w :: w in DecodeItems(b, n).value.value ==> Sound(w)
    decreases |b|, 1
  {
    hide Decode, Sound;
    if n == 0 || Decode(b).None? {
    } else {
      DecodedIsSound(b);
      ItemsAreSound(Decode(b).value.rest, n - 1);
    }
  }

  lemma {:induction false} PairsAreSound(b: Bytes, n: nat)
    ensures DecodePairs(b, n).Some? ==>
              forall p :: p in DecodePairs(b, n).value.value ==> Sound(p.key) && Sound(p.value)
    decreases |b|, 1
  {
    hide Decode, Sound;
    if n == 0 || Decode(b).None? {
    } else {
      var rest := Decode(b).value.rest;
      DecodedIsSound(b);
      if Decode(rest).Some? {
        DecodedIsSound(rest);
        PairsAreSound(Decode(rest).value.rest, n - 1);
      }
    }
  }

  /** Encodings listed in Appendix A of RFC 8949. */
  lemma {:induction false} KnownEncodings()
    ensures Encode(Int(0)) == [0x00] && Encode(Int(23)) == [0x17] && Encode(Int(24)) == [0x18, 0x18]
    ensures Encode(Int(1000)) == [0x19, 0x03, 0xE8] && Encode(Int(-1)) == [0x20]
    ensures Encode(Octets([1, 2, 3, 4])) == [0x44, 0x01, 0x02, 0x03, 0x04]
    ensures Encode(Text([0x61])) == [0x61, 0x61] && Encode(Bool(true)) == [0xF5] && Encode(Null) == [0xF6]
    ensures Encode(Array([])) == [0x80] && Encode(Map([])) == [0xA0]
  {
    assert BigEndian(24, 1) == BigEndian(0, 0) + [24];
    assert BigEndian(1000, 2) == BigEndian(3, 1) + [0xE8] && BigEndian(3, 1) == BigEndian(0, 0) + [3];
  }

  /** Booleans and null, which undefined stands for too; nothing else of their kind is taken. */
  lemma {:induction false} SimpleValues(rest: Bytes, x: Byte)
    ensures Decode([0xF4] + rest) == Some(Decoded(Bool(false), rest))
    ensures Decode([0xF5] + rest) == Some(Decoded(Bool(true), rest))
    ensures Decode([0xF6] + rest) == Decode([0xF7] + rest) == Some(Decoded(Null, rest))
    ensures 0xE0 <= x < 0xF4 || x > 0xF7 ==> Decode([x] + rest) == None
  {
    assert forall y: Byte :: ([y] + rest)[1..] == rest;
  }
}
