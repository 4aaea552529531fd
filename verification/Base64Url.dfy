/** base64url without padding (section 5 of RFC 4648); decoding refuses stray bits in the last character. */
module Base64Url {
  import opened Common

  type Sextet = v: nat | v < 64

  function Char(v: Sextet): char {
    if v < 26 then 'A' + v as char
    else if v < 52 then 'a' + (v - 26) as char
    else if v < 62 then '0' + (v - 52) as char
    else if v == 62 then '-' else '_'
  }

  function Value(c: char): Option<Sextet> {
    if 'A' <= c <= 'Z' then Some((c - 'A') as nat)
    else if 'a' <= c <= 'z' then Some((c - 'a') as nat + 26)
    else if '0' <= c <= '9' then Some((c - '0') as nat + 52)
    else if c == '-' then Some(62)
    else if c == '_' then Some(63)
    else None
  }

  lemma {:induction false} CharValue(v: Sextet, c: char)
    ensures Value(Char(v)) == Some(v)
    ensures Value(c).Some? ==> Char(Value(c).value) == c
  {
  }

  function Encode(b: Bytes): (r: string)
    ensures |r| >= |b|
    decreases |b|
  {
    if b == [] then ""
    else if |b| == 1 then [Char(b[0] / 4), Char(b[0] % 4 * 16)]
    else if |b| == 2 then [Char(b[0] / 4), Char(b[0] % 4 * 16 + b[1] / 16), Char(b[1] % 16 * 4)]
    else
      [Char(b[0] / 4), Char(b[0] % 4 * 16 + b[1] / 16), Char(b[1] % 16 * 4 + b[2] / 64), Char(b[2] % 64)]
      + Encode(b[3..])
  }

  predicate Good(c: char) {
    Value(c).Some?
  }


  function First(p: Sextet, q: Sextet): Byte {
    p * 4 + q / 16
  }

  function Second(q: Sextet, r: Sextet): Byte {
    q % 16 * 16 + r / 4
  }

  function Third(r: Sextet, t: Sextet): Byte {
    r % 4 * 64 + t
  }

  function Decode(s: string): (r: Option<Bytes>)
    decreases |s|
  {
    if s == "" then Some([])
    else if |s| == 1 || !Good(s[0]) || !Good(s[1]) then None
    else
      var p, q := Value(s[0]).value, Value(s[1]).value;
      if |s| == 2 then if q % 16 != 0 then None else Some([First(p, q)])
      else if !Good(s[2]) then None
      else
        var r := Value(s[2]).value;
        if |s| == 3 then if r % 4 != 0 then None else Some([First(p, q), Second(q, r)])
        else if !Good(s[3]) then None
        else
          var t := Value(s[3]).value;
          match Decode(s[4..])
          case None => None
          case Some(rest) => Some([First(p, q), Second(q, r), Third(r, t)] + rest)
  }

  lemma {:induction false} Bits(a: Byte, b: Byte, c: Byte)
    ensures First(a / 4, a % 4 * 16) == a
    ensures First(a / 4, a % 4 * 16 + b / 16) == a
    ensures Second(a % 4 * 16 + b / 16, b % 16 * 4) == b
    ensures Second(a % 4 * 16 + b / 16, b % 16 * 4 + c / 64) == b
    ensures Third(b % 16 * 4 + c / 64, c % 64) == c
    ensures (a % 4 * 16) % 16 == 0 && (b % 16 * 4) % 4 == 0
  {
  }

  lemma {:induction false} RoundTrip(b: Bytes)
    ensures Decode(Encode(b)) == Some(b)
    decreases |b|
  {
    hide Char, Value, First, Second, Third;
    var s := Encode(b);
    if |b| == 1 {
      Bits(b[0], 0, 0);
      CharValue(b[0] / 4, 'A');
      CharValue(b[0] % 4 * 16, 'A');
      assert b == [b[0]];
    } else if |b| == 2 {
      Bits(b[0], b[1], 0);
      CharValue(b[0] / 4, 'A');
      CharValue(b[0] % 4 * 16 + b[1] / 16, 'A');
      CharValue(b[1] % 16 * 4, 'A');
      assert b == [b[0], b[1]];
    } else if |b| > 2 {
      Bits(b[0], b[1], b[2]);
      CharValue(b[0] / 4, 'A');
      CharValue(b[0] % 4 * 16 + b[1] / 16, 'A');
      CharValue(b[1] % 16 * 4 + b[2] / 64, 'A');
      CharValue(b[2] % 64, 'A');
      RoundTrip(b[3..]);
      assert s[4..] == Encode(b[3..]);
      assert [b[0], b[1], b[2]] + b[3..] == b;
    }
  }

  lemma {:induction false} SextetBits(p: Sextet, q: Sextet, r: Sextet, t: Sextet)
    ensures First(p, q) / 4 == p
    ensures First(p, q) % 4 * 16 + Second(q, r) / 16 == q
    ensures Second(q, r) % 16 * 4 + Third(r, t) / 64 == r
    ensures Third(r, t) % 64 == t
    ensures q % 16 == 0 ==> First(p, q) % 4 * 16 == q
    ensures r % 4 == 0 ==> Second(q, r) % 16 * 4 == r
  {
  }

  /** Every accepted text is the encoding of what it decodes to: nothing has two spellings. */
  lemma {:induction false} OneSpelling(s: string)
    ensures Decode(s).Some? ==> Encode(Decode(s).value) == s
    decreases |s|
  {
    hide Char, Value, First, Second, Third;
    if s == "" || Decode(s).None? {
    } else {
      CharValue(0, s[0]);
      CharValue(0, s[1]);
      var p, q := Value(s[0]).value, Value(s[1]).value;
      if |s| == 2 {
        SextetBits(p, q, 0, 0);
      } else {
        CharValue(0, s[2]);
        var r := Value(s[2]).value;
        if |s| == 3 {
          SextetBits(p, q, r, 0);
        } else {
          CharValue(0, s[3]);
          var t := Value(s[3]).value;
          SextetBits(p, q, r, t);
          OneSpelling(s[4..]);
          var rest := Decode(s[4..]).value;
          var b := [First(p, q), Second(q, r), Third(r, t)] + rest;
          assert b[3..] == rest;
          assert s == [s[0], s[1], s[2], s[3]] + s[4..];
        }
      }
    }
  }

  /** Section 10 of RFC 4648, without padding. */
  lemma {:induction false} KnownEncodings()
    ensures Encode([0x66]) == "Zg" && Encode([0x66, 0x6F]) == "Zm8" && Encode([0x66, 0x6F, 0x6F]) == "Zm9v"
    ensures Encode([0xFB, 0xFF]) == "-_8"
  {
    assert [0x66, 0x6F, 0x6F][3..] == [];
  }
}
