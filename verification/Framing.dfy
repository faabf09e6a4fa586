/** Length-delimited frames: four little-endian bytes that count themselves and the body, then the body. */
module Framing {
  import opened Wrappers
  import opened Bytes
  import opened Fcall
  import opened Codec
  import RoundTrips
  import opened Serialize

  /** Bodies whose frame length fits in its four bytes; others are refused before anything is written. */
  predicate Fits(body: seq<u8>) {
    |body| + 4 < U32_SPAN
  }

  function Frame(body: seq<u8>): (frame: seq<u8>)
    ensures |frame| == |body| + 4
  {
    LE(4, (|body| + 4) % U32_SPAN) + body
  }

  function Frames(bodies: seq<seq<u8>>): seq<u8> {
    if bodies == [] then [] else Frames(bodies[..|bodies| - 1]) + Frame(bodies[|bodies| - 1])
  }

  /** The body of the frame at the front of `b`; `None` while it is incomplete, an error when the length does
      not even count itself. */
  function FirstFrame(b: seq<u8>): Result<Option<seq<u8>>, ()> {
    if |b| < 4 then Ok(None)
    else if FromLE(b[..4]) < 4 then Err(())
    else if |b| < FromLE(b[..4]) then Ok(None)
    else Ok(Some(b[4..FromLE(b[..4])]))
  }

  /** All complete frames at the front of `b`, and what remains. */
  function Deframe(b: seq<u8>): (seq<seq<u8>>, seq<u8>)
    decreases |b|
  {
    match FirstFrame(b)
    case Ok(Some(body)) =>
      var (bodies, rest) := Deframe(b[|body| + 4..]);
      ([body] + bodies, rest)
    case _ => ([], b)
  }

  lemma FirstOfFrame(body: seq<u8>, rest: seq<u8>)
    requires Fits(body)
    ensures FirstFrame(Frame(body) + rest) == Ok(Some(body))
    ensures (Frame(body) + rest)[|body| + 4..] == rest
  {
    var b := Frame(body) + rest;
    Spans();
    ReadWritten(4, |body| + 4);
    assert b[..4] == LE(4, |body| + 4);
    assert b[4..|body| + 4] == body;
  }

  /** A frame that is not complete yet yields nothing. */
  lemma PartialFrame(body: seq<u8>, k: nat)
    requires Fits(body) && k < |Frame(body)|
    ensures FirstFrame(Frame(body)[..k]) == Ok(None)
  {
    Spans();
    ReadWritten(4, |body| + 4);
    if k >= 4 {
      assert Frame(body)[..k][..4] == LE(4, |body| + 4);
    }
  }

  /** What a frame is: four bytes that count themselves and the body, and the body; and which bodies fit: those whose
      count survives the cast to 32 bits. */
  lemma FrameCounts(body: seq<u8>)
    ensures var frame := Frame(body);
            && |frame| == |body| + 4 && frame[4..] == body
            && FromLE(frame[..4]) == (|body| + 4) % 0x1_0000_0000
            && (FromLE(frame[..4]) == |frame| <==> Fits(body))
  {
    Spans();
    ReadWritten(4, (|body| + 4) % U32_SPAN);
    assert Frame(body)[..4] == LE(4, (|body| + 4) % U32_SPAN);
  }

  /** A body is read exactly from bytes that start with its frame. Too few bytes give nothing, and a count below four
      is an error. */
  lemma FirstFrameIs(b: seq<u8>, body: seq<u8>)
    ensures FirstFrame(b) == Ok(Some(body)) <==> Fits(body) && Frame(body) <= b
    ensures FirstFrame(b).Err? <==> |b| >= 4 && FromLE(b[..4]) < 4
    ensures FirstFrame(b) == Ok(None) <==> |b| < 4 || (FromLE(b[..4]) >= 4 && |b| < FromLE(b[..4]))
  {
    FrameCounts(body);
    if |b| >= 4 {
      Spans();
      WrittenRead(b[..4]);
    }
    if Fits(body) && Frame(body) <= b {
      assert b == Frame(body) + b[|body| + 4..];
      FirstOfFrame(body, b[|body| + 4..]);
    }
    if FirstFrame(b) == Ok(Some(body)) {
      assert b[..|body| + 4] == b[..4] + body;
    }
  }

  lemma {:induction false} FramesFront(body: seq<u8>, bodies: seq<seq<u8>>)
    ensures Frames([body] + bodies) == Frame(body) + Frames(bodies)
  {
    hide Frame;
    var all := [body] + bodies;
    if bodies == [] {
      assert all[..|all| - 1] == [];
      assert Frames(all) == Frames([]) + Frame(body);
    } else {
      var init, last := bodies[..|bodies| - 1], bodies[|bodies| - 1];
      assert all[..|all| - 1] == [body] + init && all[|all| - 1] == last;
      FramesFront(body, init);
      assert Frames(all) == Frames([body] + init) + Frame(last);
      assert Frame(body) + Frames(init) + Frame(last) == Frame(body) + (Frames(init) + Frame(last));
    }
  }

  /** Splitting a stream of frames by their lengths gives the bodies back, in order, and leaves an unfinished
      frame alone. */
  lemma {:induction false} DeframeFrames(bodies: seq<seq<u8>>, rest: seq<u8>)
    requires forall i :: 0 <= i < |bodies| ==> Fits(bodies[i])
    requires FirstFrame(rest) == Ok(None)
    ensures Deframe(Frames(bodies) + rest) == (bodies, rest)
    decreases |bodies|
  {
    if bodies == [] {
      assert Frames(bodies) + rest == rest;
    } else {
      var tail := bodies[1..];
      assert bodies == [bodies[0]] + tail;
      FramesFront(bodies[0], tail);
      FirstOfFrame(bodies[0], Frames(tail) + rest);
      assert Frames(bodies) + rest == Frame(bodies[0]) + (Frames(tail) + rest);
      DeframeFrames(tail, rest);
    }
  }

  // ---- The request stream

  /** The requests that a connection's input holds: one message from the front of each complete frame, up to
      the first frame or message that cannot be read. */
  function Requests(input: seq<u8>): seq<Msg>
    decreases |input|
  {
    match FirstFrame(input)
    case Ok(Some(body)) =>
      (match DecMsg(body)
       case Ok((m, _)) => [m] + Requests(input[|body| + 4..])
       case Err(_) => [])
    case _ => []
  }

  /** The read loop of a connection. */
  method ReadRequests(input: seq<u8>) returns (msgs: seq<Msg>)
    ensures msgs == Requests(input)
  {
    msgs := [];
    var rest := input;
    while true
      invariant Requests(input) == msgs + Requests(rest)
      decreases |rest|
    {
      var next := FirstFrame(rest);
      if next.Err? || next.value.None? {
        return;
      }
      var reader := new Reader(next.value.value);
      var msg := DecodeMsg(reader);
      if msg.Err? {
        return;
      }
      msgs := msgs + [msg.value];
      rest := rest[|next.value.value| + 4..];
    }
  }

  function Encodings(msgs: seq<Msg>): seq<seq<u8>> {
    seq(|msgs|, i requires 0 <= i < |msgs| => EncMsg(msgs[i]))
  }

  /** A stream that starts with framed faithful messages is read as those messages, and then what the rest is read
      as; nothing, if that starts with a frame that cannot be read or is not complete. */
  lemma {:induction false} RequestsOfEncodings(msgs: seq<Msg>, rest: seq<u8>)
    requires forall i :: 0 <= i < |msgs| ==> RoundTrips.Faithful(msgs[i].body) && Fits(EncMsg(msgs[i]))
    ensures Requests(Frames(Encodings(msgs)) + rest) == msgs + Requests(rest)
    ensures Requests(rest) == [] <==>
            !(FirstFrame(rest).Ok? && FirstFrame(rest).value.Some? && DecMsg(FirstFrame(rest).value.value).Ok?)
    decreases |msgs|
  {
    hide EncMsg, DecMsg, RoundTrips.Faithful, Frame, FirstFrame;
    if msgs == [] {
      assert Frames(Encodings(msgs)) + rest == rest;
    } else {
      var m, tail := msgs[0], msgs[1..];
      assert Encodings(msgs) == [EncMsg(m)] + Encodings(tail);
      FramesFront(EncMsg(m), Encodings(tail));
      FirstOfFrame(EncMsg(m), Frames(Encodings(tail)) + rest);
      assert Frames(Encodings(msgs)) + rest == Frame(EncMsg(m)) + (Frames(Encodings(tail)) + rest);
      RoundTrips.MsgRoundTrip(m, []);
      assert EncMsg(m) + [] == EncMsg(m);
      RequestsOfEncodings(tail, rest);
      assert [m] + (tail + Requests(rest)) == msgs + Requests(rest);
    }
  }

  /** What follows the message in its frame is ignored. */
  lemma {:induction false} RestOfFrameIgnored(m: Msg, more: seq<u8>, rest: seq<u8>)
    requires RoundTrips.Faithful(m.body) && Fits(EncMsg(m) + more)
    ensures Requests(Frame(EncMsg(m) + more) + rest) == [m] + Requests(rest)
  {
    FirstOfFrame(EncMsg(m) + more, rest);
    RoundTrips.MsgRoundTrip(m, more);
    hide EncMsg, DecMsg, RoundTrips.Faithful, Frame;
  }
}
