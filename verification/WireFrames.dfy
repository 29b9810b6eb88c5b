/**
 The incremental framer.  A frame is a type byte, a big-endian length that
 counts itself but not the type, and the body (section 53.2 of the PostgreSQL 14
 documentation).  What the framer delivers must not depend on where TCP cuts
 the stream.
 */
module WireFrames {
  import opened Wrappers
  import opened WireBytes

  datatype Message = Message(kind: Byte, body: seq<Byte>)

  datatype FrameError = BadLength | FrameTooLarge | BufferTooLarge

  datatype Parsed = Parsed(messages: seq<Message>, remainder: seq<Byte>)

  // ---- writing frames ----

  predicate Framable(m: Message) { |m.body| + 4 < 0x8000_0000 }

  function Encoded(m: Message): (b: seq<Byte>)
    requires Framable(m)
    ensures |b| == |m.body| + 5
  {
    [m.kind] + PutI32(|m.body| + 4) + m.body
  }

  /** On the wire: the type, the length of the rest counting itself, most significant byte first, and the payload. */
  lemma EncodedBytes(m: Message)
    requires Framable(m)
    ensures var b := Encoded(m);
      && b[0] == m.kind && b[5..] == m.body
      && b[1] as int * 0x100_0000 + b[2] as int * 0x1_0000 + b[3] as int * 0x100 + b[4] as int == |m.body| + 4
  {
    var length := PutI32(|m.body| + 4);
    assert Encoded(m)[1..5] == length;
    BigEndian(length);
  }

  lemma BigEndian(b: seq<Byte>)
    requires |b| == 4 && I32At(b, 0) >= 0
    ensures I32At(b, 0) == b[0] as int * 0x100_0000 + b[1] as int * 0x1_0000 + b[2] as int * 0x100 + b[3] as int
  {
  }

  function EncodedAll(ms: seq<Message>): seq<Byte>
    requires forall m :: m in ms ==> Framable(m)
  {
    if ms == [] then [] else Encoded(ms[0]) + EncodedAll(ms[1..])
  }

  lemma FrameBytes(bytes: seq<Byte>, kind: Byte, payload: seq<Byte>)
    requires Framable(Message(kind, payload)) && |bytes| == 5 + |payload| && bytes[0] == kind
    requires bytes[1..5] == PutI32(|payload| + 4) && bytes[5..] == payload
    ensures bytes == Encoded(Message(kind, payload))
  {
    hide PutI32, I32At;
    assert bytes == [bytes[0]] + bytes[1..5] + bytes[5..];
  }

  /** frame(): allocate the buffer and fill it in place. */
  method Frame(kind: Byte, payload: seq<Byte>) returns (out: array<Byte>)
    requires Framable(Message(kind, payload))
    ensures fresh(out) && out[..] == Encoded(Message(kind, payload))
  {
    hide PutI32, I32At, Encoded;
    out := new Byte[5 + |payload|](_ => 0);
    out[0] := kind;
    var length := PutI32(|payload| + 4);
    out[1], out[2], out[3], out[4] := length[0], length[1], length[2], length[3];
    var i := 0;
    while i < |payload|
      invariant 0 <= i <= |payload| && out[0] == kind
      invariant out[1] == length[0] && out[2] == length[1] && out[3] == length[2] && out[4] == length[3]
      invariant forall k :: 0 <= k < i ==> out[5 + k] == payload[k]
    {
      out[5 + i] := payload[i];
      i := i + 1;
    }
    assert out[..][1..5] == length && out[..][5..] == payload;
    FrameBytes(out[..], kind, payload);
  }

  // ---- reading frames: the specification ----

  /** All complete frames at the front, what is left, and why reading stopped if not for lack of bytes. */
  datatype Scan = Scan(messages: seq<Message>, rest: seq<Byte>, error: Option<FrameError>)

  function Frames(data: seq<Byte>, limit: int): Scan
    decreases |data|
  {
    if |data| < 5 then Scan([], data, None)
    else
      var length: int := I32At(data, 1);
      if length < 4 then Scan([], data, Some(BadLength))
      else if 1 + length > limit then Scan([], data, Some(FrameTooLarge))
      else if 1 + length > |data| then Scan([], data, None)
      else
        var tail := Frames(data[1 + length..], limit);
        Scan([Message(data[0], data[5..1 + length])] + tail.messages, tail.rest, tail.error)
  }

  function Consume(data: seq<Byte>, limit: int): Result<Parsed, FrameError> {
    var scan := Frames(data, limit);
    if scan.error.Some? then Err(scan.error.value)
    else if |data| > limit && scan.messages == [] then Err(BufferTooLarge)
    else Ok(Parsed(scan.messages, scan.rest))
  }

  /** consumeFrontendMessages: one pass over the buffer with an offset. */
  method ConsumeFrontendMessages(data: seq<Byte>, maxMessageBytes: int) returns (r: Result<Parsed, FrameError>)
    ensures r == Consume(data, maxMessageBytes)
  {
    hide Frames, I32At;
    var messages: seq<Message> := [];
    var offset := 0;
    assert data[0..] == data;
    while offset + 5 <= |data|
      invariant 0 <= offset <= |data|
      invariant offset == 0 <==> messages == []
      invariant var tail := Frames(data[offset..], maxMessageBytes);
        Frames(data, maxMessageBytes) == Scan(messages + tail.messages, tail.rest, tail.error)
      decreases |data| - offset
    {
      var kind := data[offset];
      var length: int := I32At(data, offset + 1);
      FramesFrom(data, offset, maxMessageBytes);
      if length < 4 {
        return Err(BadLength);
      }
      var fullLength := 1 + length;
      if fullLength > maxMessageBytes {
        return Err(FrameTooLarge);
      }
      if offset + fullLength > |data| {
        break;
      }
      messages := messages + [Message(kind, data[offset + 5..offset + fullLength])];
      offset := offset + fullLength;
    }
    if offset + 5 > |data| { NoFrame(data[offset..], maxMessageBytes); }
    assert messages + [] == messages;
    if |data| > maxMessageBytes && offset == 0 {
      return Err(BufferTooLarge);
    }
    return Ok(Parsed(messages, data[offset..]));
  }

  lemma NoFrame(data: seq<Byte>, limit: int)
    requires |data| < 5
    ensures Frames(data, limit) == Scan([], data, None)
  {
  }

  /** One step of reading at an offset. */
  lemma FramesFrom(data: seq<Byte>, offset: nat, limit: int)
    requires offset + 5 <= |data|
    ensures var length: int := I32At(data, offset + 1);
      Frames(data[offset..], limit) ==
        if length < 4 then Scan([], data[offset..], Some(BadLength))
        else if 1 + length > limit then Scan([], data[offset..], Some(FrameTooLarge))
        else if offset + 1 + length > |data| then Scan([], data[offset..], None)
        else
          var tail := Frames(data[offset + 1 + length..], limit);
          Scan([Message(data[offset], data[offset + 5..offset + 1 + length])] + tail.messages, tail.rest, tail.error)
  {
    I32Suffix(data, offset);
    hide I32At;
    var length: int := I32At(data, offset + 1);
    var d := data[offset..];
    assert |d| == |data| - offset && d[0] == data[offset] && I32At(d, 1) == length;
    if length < 4 || 1 + length > limit || offset + 1 + length > |data| { return; }
    if 4 <= length && offset + 1 + length <= |data| {
      assert data[offset..][1 + length..] == data[offset + 1 + length..];
      assert data[offset..][5..1 + length] == data[offset + 5..offset + 1 + length];
    }
  }

  lemma I32Suffix(data: seq<Byte>, offset: nat)
    requires offset + 5 <= |data|
    ensures I32At(data[offset..], 1) == I32At(data, offset + 1)
  {
    I32Window(data, offset + 1);
    I32Window(data[offset..], 1);
    assert data[offset..][1..5] == data[offset + 1..offset + 5];
  }

  // ---- what the framer keeps back ----

  lemma {:induction false} RestBound(data: seq<Byte>, limit: int)
    requires Frames(data, limit).error.None?
    ensures var rest := Frames(data, limit).rest; |rest| < 5 || |rest| < limit
    decreases |data|
  {
    if |data| >= 5 && 4 <= I32At(data, 1) && 1 + I32At(data, 1) <= |data| {
      RestBound(data[1 + I32At(data, 1)..], limit);
    }
  }

  /** What waits for more bytes is less than one header or less than one frame of the allowed size. */
  lemma RemainderBound(data: seq<Byte>, limit: int)
    requires Consume(data, limit).Ok?
    ensures |Consume(data, limit).value.remainder| < if limit > 5 then limit else 5
  {
    RestBound(data, limit);
  }

  /** The last size check fires only for limits below a frame header's own length, and then it can. */
  lemma FinalCheckReachable(limit: int)
    ensures (exists data :: Consume(data, limit) == Err(BufferTooLarge)) <==> limit < 4
  {
    if limit < 4 {
      var data: seq<Byte> := if limit < 0 then [] else seq(limit + 1, _ => 0);
      assert Consume(data, limit) == Err(BufferTooLarge);
    } else {
      forall data ensures Consume(data, limit) != Err(BufferTooLarge) {
        FinalCheckUnreachable(data, limit);
      }
    }
  }

  lemma FinalCheckUnreachable(data: seq<Byte>, limit: int)
    requires limit >= 4
    ensures Consume(data, limit) != Err(BufferTooLarge)
  {
    var scan := Frames(data, limit);
    NoBufferError(data, limit);
    if scan.error.None? && scan.messages == [] {
      RestBound(data, limit);
      assert scan.rest == data;
    }
  }

  lemma {:induction false} NoBufferError(data: seq<Byte>, limit: int)
    ensures Frames(data, limit).error != Some(BufferTooLarge)
    decreases |data|
  {
    if |data| >= 5 && 4 <= I32At(data, 1) && 1 + I32At(data, 1) <= |data| {
      NoBufferError(data[1 + I32At(data, 1)..], limit);
    }
  }

  // ---- more bytes ----

  predicate Whole(data: seq<Byte>, limit: int) {
    |data| >= 5 && 4 <= I32At(data, 1) && 1 + I32At(data, 1) <= limit && 1 + I32At(data, 1) <= |data|
  }

  /** Reading `a + b`: an error in `a` is final, otherwise reading goes on from what `a` left. */
  lemma {:induction false} FramesExtend(a: seq<Byte>, b: seq<Byte>, limit: int)
    ensures var s := Frames(a, limit); var t := Frames(a + b, limit);
      if s.error.Some? then t.messages == s.messages && t.error == s.error && t.rest == s.rest + b
      else
        var u := Frames(s.rest + b, limit);
        t == Scan(s.messages + u.messages, u.rest, u.error)
    decreases |a|
  {
    hide Frames, I32At;
    var s := Frames(a, limit);
    if |a| < 5 {
      NoFrame(a, limit);
      assert [] + Frames(a + b, limit).messages == Frames(a + b, limit).messages;
    } else {
      var n: int := 1 + I32At(a, 1);
      SameLength(a, b);
      FramesFrom(a, 0, limit);
      FramesFrom(a + b, 0, limit);
      assert a[0..] == a && (a + b)[0..] == a + b;
      if 5 <= n <= limit && n <= |a| {
        FramesExtend(a[n..], b, limit);
        assert (a + b)[n..] == a[n..] + b;
        assert (a + b)[5..n] == a[5..n];
        var head := [Message(a[0], a[5..n])];
        var rest := Frames(a[n..], limit);
        var u := Frames(rest.rest + b, limit);
        assert head + (rest.messages + u.messages) == (head + rest.messages) + u.messages;
      } else {
        assert [] + Frames(a + b, limit).messages == Frames(a + b, limit).messages;
      }
    }
  }

  lemma SameLength(a: seq<Byte>, b: seq<Byte>)
    requires |a| >= 5
    ensures I32At(a + b, 1) == I32At(a, 1)
  {
    assert (a + b)[1..5] == a[1..5];
    I32Window(a, 1);
    I32Window(a + b, 1);
  }

  // ---- the accumulator of a session ----

  /** The receive buffer, what has been handed to the session, and how often the framer threw. */
  datatype Stream = Stream(buffer: seq<Byte>, delivered: seq<Message>, throws: nat)

  /** One TCP data event: the buffer grows, and on an error nothing of this event is delivered. */
  function Feed(s: Stream, chunk: seq<Byte>, limit: int): Stream {
    match Consume(s.buffer + chunk, limit)
    case Ok(parsed) => Stream(parsed.remainder, s.delivered + parsed.messages, s.throws)
    case Err(_) => Stream(s.buffer + chunk, s.delivered, s.throws + 1)
  }

  function FeedAll(s: Stream, chunks: seq<seq<Byte>>, limit: int): Stream {
    if chunks == [] then s
    else Feed(FeedAll(s, chunks[..|chunks| - 1], limit), chunks[|chunks| - 1], limit)
  }

  function Join(chunks: seq<seq<Byte>>): seq<Byte> {
    if chunks == [] then [] else Join(chunks[..|chunks| - 1]) + chunks[|chunks| - 1]
  }

  const EMPTY: Stream := Stream([], [], 0)

  class FrontendStream {
    var frontendBuffer: seq<Byte>
    var delivered: seq<Message>
    var throws: nat

    constructor ()
      ensures View() == EMPTY
    {
      frontendBuffer, delivered, throws := [], [], 0;
    }

    function View(): Stream
      reads this
    {
      Stream(frontendBuffer, delivered, throws)
    }

    /** handleRaw, as far as the buffer goes; the messages are handled in the order of `delivered`. */
    method HandleRaw(data: seq<Byte>, maxMessageBytes: int)
      modifies this
      ensures View() == Feed(old(View()), data, maxMessageBytes)
    {
      frontendBuffer := frontendBuffer + data;
      var parsed := ConsumeFrontendMessages(frontendBuffer, maxMessageBytes);
      match parsed {
        case Ok(p) =>
          frontendBuffer := p.remainder;
          var i := 0;
          while i < |p.messages|
            invariant 0 <= i <= |p.messages|
            invariant delivered == old(delivered) + p.messages[..i]
            invariant frontendBuffer == p.remainder && throws == old(throws)
          {
            delivered := delivered + [p.messages[i]];
            i := i + 1;
          }
        case Err(_) =>
          throws := throws + 1;
      }
    }
  }

  /** Where a stream stands after the bytes `data`, however they were cut. */
  ghost predicate Tracks(s: Stream, data: seq<Byte>, limit: int) {
    var all := Frames(data, limit);
    var ahead := Frames(s.buffer, limit);
    && all == Scan(s.delivered + ahead.messages, ahead.rest, ahead.error)
    && (s.throws == 0 ==> ahead == Scan([], s.buffer, None))
    && (s.throws > 0 ==> Consume(s.buffer, limit).Err?)
    && (limit < 4 ==> s.delivered == [] && s.buffer == data)
  }

  /** Below the size of a header the framer never delivers anything. */
  lemma TinyLimit(data: seq<Byte>, limit: int)
    requires limit < 4
    ensures Frames(data, limit).messages == [] && Frames(data, limit).rest == data
  {
  }

  lemma {:induction false} RestStable(data: seq<Byte>, limit: int)
    requires Frames(data, limit).error.None?
    ensures var rest := Frames(data, limit).rest; Frames(rest, limit) == Scan([], rest, None)
    decreases |data|
  {
    if Whole(data, limit) {
      RestStable(data[1 + I32At(data, 1)..], limit);
    }
  }

  lemma ErrorStable(a: seq<Byte>, b: seq<Byte>, limit: int)
    requires Consume(a, limit).Err?
    ensures Consume(a + b, limit).Err?
  {
    FramesExtend(a, b, limit);
    if Frames(a, limit).error.None? {
      if limit >= 4 { FinalCheckUnreachable(a, limit); } else { TinyLimit(a + b, limit); }
    }
  }

  lemma TracksFeed(s: Stream, data: seq<Byte>, chunk: seq<Byte>, limit: int)
    requires Tracks(s, data, limit)
    ensures Tracks(Feed(s, chunk, limit), data + chunk, limit)
  {
    FramesExtend(data, chunk, limit);
    FramesExtend(s.buffer, chunk, limit);
    if s.throws > 0 { ErrorStable(s.buffer, chunk, limit); }
    if limit < 4 { TinyLimit(data + chunk, limit); }
    var after := Frames(s.buffer + chunk, limit);
    if after.error.None? { RestStable(s.buffer + chunk, limit); }
    hide Frames;
    assert forall ms: seq<Message>, ns: seq<Message> :: s.delivered + (ms + ns) == (s.delivered + ms) + ns;
  }

  lemma {:induction false} TracksAll(chunks: seq<seq<Byte>>, limit: int)
    ensures Tracks(FeedAll(EMPTY, chunks, limit), Join(chunks), limit)
  {
    if chunks != [] {
      TracksAll(chunks[..|chunks| - 1], limit);
      TracksFeed(FeedAll(EMPTY, chunks[..|chunks| - 1], limit), Join(chunks[..|chunks| - 1]), chunks[|chunks| - 1], limit);
    }
  }

  /**
   However the stream is cut, the session gets the messages and the remainder of
   reading it at once; if that throws, so does the chunked run, and what it
   delivered before is a prefix of the well-formed frames.
   */
  lemma ChunkingIndependence(chunks: seq<seq<Byte>>, limit: int)
    requires chunks != []
    ensures var data := Join(chunks); var many := FeedAll(EMPTY, chunks, limit);
      match Consume(data, limit)
      case Ok(once) => many == Stream(once.remainder, once.messages, 0)
      case Err(_) => many.throws > 0 && many.delivered <= Frames(data, limit).messages
  {
    var data := Join(chunks);
    var many := FeedAll(EMPTY, chunks, limit);
    var front := chunks[..|chunks| - 1];
    TracksAll(chunks, limit);
    TracksAll(front, limit);
    if limit >= 4 {
      FinalCheckUnreachable(many.buffer, limit);
      FinalCheckUnreachable(data, limit);
    } else {
      assert FeedAll(EMPTY, front, limit).buffer + chunks[|chunks| - 1] == data;
    }
    hide Frames;
  }

  /** Frames written within the limit are read back exactly, in any cut. */
  lemma {:induction false} FramesBack(ms: seq<Message>, limit: int)
    requires forall m :: m in ms ==> Framable(m) && |m.body| + 5 <= limit
    ensures Frames(EncodedAll(ms), limit) == Scan(ms, [], None)
  {
    if ms != [] {
      var m := ms[0];
      var tail := EncodedAll(ms[1..]);
      var data := Encoded(m) + tail;
      FramesBack(ms[1..], limit);
      I32Window(data, 1);
      assert data[1..5] == PutI32(|m.body| + 4);
      assert data[5..|m.body| + 5] == m.body;
      assert data[|m.body| + 5..] == tail;
      assert ms == [m] + ms[1..];
    }
  }

  lemma FrameRoundTrip(ms: seq<Message>, chunks: seq<seq<Byte>>, limit: int)
    requires forall m :: m in ms ==> Framable(m) && |m.body| + 5 <= limit
    requires limit >= 0 && chunks != [] && Join(chunks) == EncodedAll(ms)
    ensures Consume(EncodedAll(ms), limit) == Ok(Parsed(ms, []))
    ensures FeedAll(EMPTY, chunks, limit) == Stream([], ms, 0)
  {
    FramesBack(ms, limit);
    if ms == [] { assert EncodedAll(ms) == []; }
    ChunkingIndependence(chunks, limit);
  }
}
