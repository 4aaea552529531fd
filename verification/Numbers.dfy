/** Numbers in big-endian octets. */
module Numbers {
  import opened Common

  function BigEndian(n: nat, width: nat): (r: Bytes)
    ensures |r| == width
  {
    if width == 0 then [] else BigEndian(n / 256, width - 1) + [n % 256]
  }

  function Number(b: Bytes): nat {
    if b == [] then 0 else Number(b[..|b| - 1]) * 256 + b[|b| - 1]
  }

  function Span(width: nat): (r: nat)
    ensures r > 0
  {
    if width == 0 then 1 else 256 * Span(width - 1)
  }

  lemma {:induction false} NumberOfBigEndian(n: nat, width: nat)
    requires n < Span(width)
    ensures Number(BigEndian(n, width)) == n
  {
    if width == 0 {
    } else {
      NumberOfBigEndian(n / 256, width - 1);
      var b := BigEndian(n, width);
      assert b[..|b| - 1] == BigEndian(n / 256, width - 1);
    }
  }

  lemma {:induction false} NumberFits(b: Bytes)
    ensures Number(b) < Span(|b|)
  {
    if b == [] {
    } else {
      NumberFits(b[..|b| - 1]);
    }
  }
}
