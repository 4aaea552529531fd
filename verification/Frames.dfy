/** DERP frames: a kind, a 32-bit length and a body, cut out of a byte stream that arrives in any pieces. */
module Frames {
  import opened Common
  import opened Numbers

  const MAX_FRAME: nat := 0x10_0000 + 64
  const MAX_BUFFERED: nat := 8 * 0x10_0000

  datatype Frame = Frame(kind: Byte, body: Bytes)

  function Wire(f: Frame): (r: Bytes)
    ensures |r| == 5 + |f.body|
  {
    [f.kind] + BigEndian(|f.body|, 4) + f.body
  }

  function WireAll(frames: seq<Frame>): Bytes {
    if frames == [] then [] else Wire(frames[0]) + WireAll(frames[1..])
  }

  datatype Next = Need | TooLarge | Got(frame: Frame, rest: Bytes)

  function Cut(bytes: Bytes): (r: Next)
    ensures r.Got? ==> |r.rest| < |bytes| && |r.frame.body| <= MAX_FRAME
  {
    if |bytes| < 5 then Need
    else
      var length := Number(bytes[1..5]);
      if length > MAX_FRAME then TooLarge
      else if |bytes| < 5 + length then Need
      else Got(Frame(bytes[0], bytes[5..5 + length]), bytes[5 + length..])
  }

  /** All the frames a stream holds, what is left over, and whether that begins with an oversized header. */
  datatype Decoded = Decoded(frames: seq<Frame>, rest: Bytes, bad: bool)

  function DecodeAll(bytes: Bytes): Decoded
    decreases |bytes|
  {
    match Cut(bytes)
    case Need => Decoded([], bytes, false)
    case TooLarge => Decoded([], bytes, true)
    case Got(f, rest) => var d := DecodeAll(rest); d.(frames := [f] + d.frames)
  }

  lemma {:induction false} CutLonger(bytes: Bytes, more: Bytes)
    ensures Cut(bytes).TooLarge? ==> Cut(bytes + more).TooLarge?
    ensures Cut(bytes).Got? ==> Cut(bytes + more) == Got(Cut(bytes).frame, Cut(bytes).rest + more)
  {
    if |bytes| >= 5 {
      assert (bytes + more)[1..5] == bytes[1..5];
      var length := Number(bytes[1..5]);
      if length <= MAX_FRAME && |bytes| >= 5 + length {
        assert (bytes + more)[5..5 + length] == bytes[5..5 + length];
        assert (bytes + more)[5 + length..] == bytes[5 + length..] + more;
      }
    }
  }

  /** Decoding may stop anywhere and go on when more octets arrive. */
  lemma {:induction false} DecodeInPieces(bytes: Bytes, more: Bytes)
    ensures var d := DecodeAll(bytes); var e := DecodeAll(d.rest + more);
            DecodeAll(bytes + more) == Decoded(d.frames + e.frames, e.rest, e.bad)
    ensures DecodeAll(bytes).bad ==> DecodeAll(bytes + more).bad
    decreases |bytes|
  {
    hide Cut;
    CutLonger(bytes, more);
    var c := Cut(bytes);
    if c.Got? {
      DecodeInPieces(c.rest, more);
      var d := DecodeAll(c.rest);
      var e := DecodeAll(d.rest + more);
      assert [c.frame] + (d.frames + e.frames) == ([c.frame] + d.frames) + e.frames;
    } else {
      assert DecodeAll(bytes) == Decoded([], bytes, c.TooLarge?);
    }
  }

  lemma {:induction false} CutOfWire(f: Frame, more: Bytes)
    requires |f.body| <= MAX_FRAME
    ensures Cut(Wire(f) + more) == Got(f, more)
  {
    var bytes := Wire(f) + more;
    NumberOfBigEndian(|f.body|, 4) by {
      assert Span(4) == 0x1_0000_0000 by { assert Span(1) == 256 && Span(2) == 0x1_0000 && Span(3) == 0x100_0000; }
    }
    assert bytes[1..5] == BigEndian(|f.body|, 4);
    assert bytes[5..5 + |f.body|] == f.body;
    assert bytes[5 + |f.body|..] == more;
  }

  /** Decoding inverts any sequence of written frames, with whatever follows them. */
  lemma {:induction false} DecodeInvertsWire(frames: seq<Frame>, more: Bytes)
    requires forall f :: f in frames ==> |f.body| <= MAX_FRAME
    ensures DecodeAll(WireAll(frames) + more)
            == var d := DecodeAll(more); d.(frames := frames + d.frames)
    decreases |frames|
  {
    hide Cut, Wire;
    if frames == [] {
      assert WireAll(frames) + more == more;
    } else {
      var f := frames[0];
      assert f in frames;
      DecodeInvertsWire(frames[1..], more);
      assert WireAll(frames) + more == Wire(f) + (WireAll(frames[1..]) + more);
      CutOfWire(f, WireAll(frames[1..]) + more);
      assert [f] + frames[1..] == frames;
    }
  }

  /** Two endpoints that follow the format cannot disagree: equal streams come only from equal frames. */
  lemma {:induction false} WireIsInjective(a: seq<Frame>, b: seq<Frame>)
    requires forall f :: f in a || f in b ==> |f.body| <= MAX_FRAME
    requires WireAll(a) == WireAll(b)
    ensures a == b
  {
    DecodeInvertsWire(a, []);
    DecodeInvertsWire(b, []);
    assert WireAll(a) + [] == WireAll(b) + [];
    assert DecodeAll([]) == Decoded([], [], false);
    assert a + [] == a && b + [] == b;
  }

  /** What was handed out, followed by what the buffer decodes to, is what the whole stream decodes to. */
  ghost predicate Agrees(received: Bytes, returned: seq<Frame>, bytes: Bytes) {
    var d := DecodeAll(bytes);
    DecodeAll(received) == Decoded(returned + d.frames, d.rest, d.bad)
  }

  lemma {:induction false} AgreesOnMore(received: Bytes, returned: seq<Frame>, bytes: Bytes, data: Bytes)
    requires Agrees(received, returned, bytes)
    ensures Agrees(received + data, returned, bytes + data)
  {
    hide DecodeAll;
    DecodeInPieces(received, data);
    DecodeInPieces(bytes, data);
    var d := DecodeAll(bytes);
    var e := DecodeAll(d.rest + data);
    assert returned + (d.frames + e.frames) == (returned + d.frames) + e.frames;
  }

  lemma {:induction false} AgreesOnNext(received: Bytes, returned: seq<Frame>, bytes: Bytes)
    requires Agrees(received, returned, bytes) && Cut(bytes).Got?
    ensures Agrees(received, returned + [Cut(bytes).frame], Cut(bytes).rest)
  {
    hide Cut;
    var c := Cut(bytes);
    var d := DecodeAll(c.rest);
    assert DecodeAll(bytes) == d.(frames := [c.frame] + d.frames);
    assert (returned + [c.frame]) + d.frames == returned + ([c.frame] + d.frames);
  }

  /** The browser's side of a relay connection: messages fill the buffer, `NextFrame` empties it. */
  class Ws {
    var bytes: Bytes
    var closed: bool
    // Everything accepted from messages, and every frame handed out; the program keeps neither.
    var received: Bytes
    var returned: seq<Frame>

    ghost predicate Valid()
      reads this
    {
      |bytes| <= MAX_BUFFERED && Agrees(received, returned, bytes)
    }

    constructor ()
      ensures Valid() && !closed && received == [] && returned == []
    {
      bytes, closed, received, returned := [], false, [], [];
    }

    /** A message that would overfill the buffer closes the connection. */
    method OnMessage(data: Bytes)
      requires Valid()
      modifies this
      ensures Valid() && returned == old(returned)
      ensures closed <==> old(closed) || |old(bytes)| + |data| > MAX_BUFFERED
      ensures closed ==> received == old(received) && bytes == old(bytes)
      ensures !closed ==> received == old(received) + data && bytes == old(bytes) + data
    {
      hide Agrees;
      if closed {
        return;
      }
      if |bytes| + |data| > MAX_BUFFERED {
        closed := true;
        return;
      }
      AgreesOnMore(received, returned, bytes, data);
      bytes := bytes + data;
      received := received + data;
    }

    /** The next whole frame, none yet, or an error that leaves the buffer as it is. */
    method NextFrame() returns (r: Result<Option<Frame>>)
      requires Valid()
      modifies this`bytes, this`returned
      ensures Valid()
      ensures r == match Cut(old(bytes)) case Need => Ok(None) case TooLarge => Err case Got(f, _) => Ok(Some(f))
      ensures r.Ok? && r.value.Some? ==>
                bytes == Cut(old(bytes)).rest && returned == old(returned) + [r.value.value]
      ensures r.Err? || r.value.None? ==> bytes == old(bytes) && returned == old(returned)
    {
      hide Agrees;
      if |bytes| < 5 {
        return Ok(None);
      }
      var length := Number(bytes[1..5]);
      if length > MAX_FRAME {
        return Err;
      }
      if |bytes| < 5 + length {
        return Ok(None);
      }
      ghost var before := bytes;
      var kind := bytes[0];
      bytes := bytes[1..];
      bytes := bytes[4..];
      var body := bytes[..length];
      bytes := bytes[length..];
      var f := Frame(kind, body);
      assert body == before[5..5 + length] && bytes == before[5 + length..];
      AgreesOnNext(received, returned, before);
      returned := returned + [f];
      r := Ok(Some(f));
    }
  }

  /** A native stream, read and written by one side each. */
  class ByteStream {
    var bytes: Bytes

    constructor (bytes: Bytes)
      ensures this.bytes == bytes
    {
      this.bytes := bytes;
    }

    method WriteFrame(kind: Byte, body: Bytes) returns (ok: bool)
      modifies this
      ensures ok <==> |body| <= MAX_FRAME
      ensures bytes == if ok then old(bytes) + Wire(Frame(kind, body)) else old(bytes)
    {
      if |body| > MAX_FRAME {
        return false;
      }
      var header := [kind] + BigEndian(|body|, 4);
      ghost var before := bytes;
      bytes := bytes + header;
      bytes := bytes + body;
      assert (before + header) + body == before + (header + body);
      ok := true;
    }

    /** Fails on an oversized header, and where the stream ends inside a frame. */
    method ReadFrame() returns (r: Result<Frame>)
      modifies this
      ensures r == match Cut(old(bytes)) case Got(f, _) => Ok(f) case _ => Err
      ensures r.Ok? ==> bytes == Cut(old(bytes)).rest
    {
      ghost var before := bytes;
      if |bytes| < 5 {
        return Err;
      }
      var kind := bytes[0];
      var length := Number(bytes[1..5]);
      bytes := bytes[5..];
      if length > MAX_FRAME || |bytes| < length {
        return Err;
      }
      var body := bytes[..length];
      bytes := bytes[length..];
      assert body == before[5..5 + length] && bytes == before[5 + length..];
      r := Ok(Frame(kind, body));
    }
  }

  /** A frame written to an idle stream is the frame read from it. */
  method Echo(kind: Byte, body: Bytes) returns (r: Result<Frame>)
    ensures r == if |body| <= MAX_FRAME then Ok(Frame(kind, body)) else Err
  {
    var stream := new ByteStream([]);
    var ok := stream.WriteFrame(kind, body);
    if ok {
      CutOfWire(Frame(kind, body), []);
      assert stream.bytes == Wire(Frame(kind, body)) + [];
    }
    r := stream.ReadFrame();
  }
}
