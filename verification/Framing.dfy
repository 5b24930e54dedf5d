/** Newline-delimited frames over a byte stream that arrives in arbitrary chunks. */
module Framing {
  import opened Basics
  import opened Protocol

  type byte = x: int | 0 <= x < 256

  const NEWLINE: byte := 10
  const CARRIAGE_RETURN: byte := 13

  /** A frame that is not valid JSON for the schema carries the codec's own words. */
  datatype ChannelError =
    | Json(message: string)
    | UnsupportedProtocol(got: string)
    | FrameTooLarge(limit: nat)
    | UnterminatedFrame
    | EmptyFrame

  type Decoder = seq<byte> -> Result<WireFrame, string>
  type Encoder = WireFrame -> seq<byte>

  // ----- the stream as one piece

  function Flat(chunks: seq<seq<byte>>): seq<byte> {
    if chunks == [] then [] else chunks[0] + Flat(chunks[1..])
  }

  /** Bytes before the first newline; all of them when there is none. */
  function LineLength(stream: seq<byte>): (n: nat)
    ensures n <= |stream|
    ensures forall i :: 0 <= i < n ==> stream[i] != NEWLINE
    ensures n < |stream| ==> stream[n] == NEWLINE
  {
    if stream == [] || stream[0] == NEWLINE then 0 else 1 + LineLength(stream[1..])
  }

  function WithoutReturn(line: seq<byte>): seq<byte> {
    if line != [] && line[|line| - 1] == CARRIAGE_RETURN then line[..|line| - 1] else line
  }

  function Parsed(line: seq<byte>, decode: Decoder): Result<WireFrame, ChannelError> {
    if line == [] then Err(EmptyFrame)
    else
      match decode(line)
      case Err(message) => Err(Json(message))
      case Ok(frame) => if frame.protocol != WIRE_PROTOCOL then Err(UnsupportedProtocol(frame.protocol)) else Ok(frame)
  }

  /** What one receive makes of everything still to come. */
  function Next(stream: seq<byte>, max: nat, decode: Decoder): Result<Option<WireFrame>, ChannelError> {
    var n := LineLength(stream);
    if n > max then Err(FrameTooLarge(max))
    else if stream == [] then Ok(None)
    else if n == |stream| then Err(UnterminatedFrame)
    else
      match Parsed(WithoutReturn(stream[..n]), decode)
      case Err(e) => Err(e)
      case Ok(frame) => Ok(Some(frame))
  }

  function AfterLine(stream: seq<byte>): seq<byte> {
    if LineLength(stream) < |stream| then stream[LineLength(stream) + 1..] else []
  }

  /** The frames received, and the error that ended the channel; no error is a clean end. */
  datatype Drained = Drained(frames: seq<WireFrame>, error: Option<ChannelError>)

  function All(stream: seq<byte>, max: nat, decode: Decoder): Drained
    decreases |stream|
  {
    match Next(stream, max, decode)
    case Err(e) => Drained([], Some(e))
    case Ok(None) => Drained([], None)
    case Ok(Some(frame)) =>
      var more := All(AfterLine(stream), max, decode);
      Drained([frame] + more.frames, more.error)
  }

  lemma {:induction false} LineOf(line: seq<byte>, rest: seq<byte>)
    requires NEWLINE !in line
    ensures LineLength(line + [NEWLINE] + rest) == |line|
    ensures (line + [NEWLINE] + rest)[..|line|] == line && AfterLine(line + [NEWLINE] + rest) == rest
  {
    var s := line + [NEWLINE] + rest;
    assert s[|line|] == NEWLINE;
    assert forall i :: 0 <= i < |line| ==> s[i] == line[i] && line[i] in line;
  }

  /** What one line is received as. The bound counts every byte before the line feed; an empty line, one
      that does not decode and one of another protocol version are errors. */
  lemma {:induction false} LineMeans(text: seq<byte>, returned: bool, rest: seq<byte>, max: nat, decode: Decoder)
    requires 10 !in text && (returned || text == [] || text[|text| - 1] != 13)
    ensures var line := if returned then text + [13] else text;
      var got := Next(line + [10] + rest, max, decode);
      && AfterLine(line + [10] + rest) == rest
      && (|line| > max ==> got == Err(FrameTooLarge(max)))
      && (|line| <= max && text == [] ==> got == Err(EmptyFrame))
      && (|line| <= max && text != [] && decode(text).Err? ==> got == Err(Json(decode(text).error)))
      && (|line| <= max && text != [] && decode(text).Ok? ==>
            got == if decode(text).value.protocol == "mcp-loadtest-dist/1" then Ok(Some(decode(text).value))
                   else Err(UnsupportedProtocol(decode(text).value.protocol)))
  {
    var line: seq<byte> := if returned then text + [13] else text;
    LineOf(line, rest);
    hide LineLength;
    assert WithoutReturn(line) == text;
  }

  /** A stream without a line feed ends cleanly when it is empty and in the middle of a line otherwise. */
  lemma {:induction false} NoLineMeans(stream: seq<byte>, max: nat, decode: Decoder)
    requires 10 !in stream
    ensures Next(stream, max, decode) ==
      if |stream| > max then Err(FrameTooLarge(max)) else if stream == [] then Ok(None) else Err(UnterminatedFrame)
    ensures AfterLine(stream) == []
  {
    NoNewline(stream);
  }

  // ----- the receiving half

  class Receiver {
    /** What the reader delivers, piece by piece; the first piece is what is buffered now. */
    var chunks: seq<seq<byte>>
    var readBuffer: seq<byte>
    const max: nat
    const decode: Decoder

    ghost predicate Valid()
      reads this
    {
      |readBuffer| <= max && forall c :: c in chunks ==> c != []
    }

    constructor (chunks: seq<seq<byte>>, maxFrameBytes: nat, decode: Decoder)
      requires forall c :: c in chunks ==> c != []
      ensures Valid() && this.chunks == chunks && this.decode == decode
      ensures max == if maxFrameBytes == 0 then 1 else maxFrameBytes
    {
      this.chunks := chunks;
      readBuffer := [];
      max := if maxFrameBytes == 0 then 1 else maxFrameBytes;
      this.decode := decode;
    }

    /** Drop `take` bytes of the piece that is buffered now. */
    method Consume(take: nat)
      requires Valid() && chunks != [] && 0 < take <= |chunks[0]|
      modifies `chunks
      ensures Valid() && Flat(chunks) == Flat(old(chunks))[take..]
      ensures |Flat(chunks)| < |Flat(old(chunks))|
    {
      ghost var all := Flat(chunks);
      var head, tail := chunks[0], chunks[1..];
      assert all == head + Flat(tail);
      assert forall c :: c in tail ==> c in chunks;
      if take == |head| {
        chunks := tail;
      } else {
        assert all[take..] == head[take..] + Flat(tail);
        chunks := [head[take..]] + tail;
        assert chunks[1..] == tail;
      }
    }

    /** The buffer holds one whole line: drop a carriage return, decode, check the version. */
    method Conclude() returns (r: Result<Option<WireFrame>, ChannelError>)
      requires Valid()
      modifies `readBuffer
      ensures Valid()
      ensures r == match Parsed(WithoutReturn(old(readBuffer)), decode) { case Err(e) => Err(e) case Ok(frame) => Ok(Some(frame)) }
    {
      if readBuffer != [] && readBuffer[|readBuffer| - 1] == CARRIAGE_RETURN {
        readBuffer := readBuffer[..|readBuffer| - 1];
      }
      if readBuffer == [] {
        return Err(EmptyFrame);
      }
      var decoded := decode(readBuffer);
      if decoded.Err? {
        return Err(Json(decoded.error));
      }
      if decoded.value.protocol != WIRE_PROTOCOL {
        return Err(UnsupportedProtocol(decoded.value.protocol));
      }
      return Ok(Some(decoded.value));
    }

    /** However the stream is cut into pieces, the result is the one for the whole stream, the
        buffer never outgrows the bound, and a frame leaves exactly what follows its line. */
    method Receive() returns (r: Result<Option<WireFrame>, ChannelError>)
      requires Valid()
      modifies this
      ensures Valid()
      ensures r == Next(Flat(old(chunks)), max, decode)
      ensures r.Ok? ==> Flat(chunks) == AfterLine(Flat(old(chunks)))
    {
      hide Parsed, LineLength, WithoutReturn;
      ghost var stream := Flat(chunks);
      readBuffer := [];
      while true
        invariant Valid()
        invariant stream == readBuffer + Flat(chunks) && NEWLINE !in readBuffer
        decreases |Flat(chunks)|
      {
        if chunks == [] {
          NoNewline(stream);
          return if readBuffer == [] then Ok(None) else Err(UnterminatedFrame);
        }
        var available := chunks[0];
        assert available != [] by {
          assert available in chunks;
        }
        var newline := Position(available);
        var take := if newline < |available| then newline + 1 else |available|;
        var payload := available[..newline];
        Pieces(readBuffer, chunks, newline, take, stream);
        if |readBuffer| + newline > max {
          LineReaches(stream, readBuffer + payload);
          return Err(FrameTooLarge(max));
        }
        readBuffer := readBuffer + payload;
        hide Flat;
        Consume(take);
        if newline < |available| {
          LineOf(readBuffer, Flat(chunks));
          r := Conclude();
          return;
        }
      }
      r := Ok(None);
    }
  }

  // ----- a receive that is dropped before its line is complete

  lemma {:induction false} FlatConcat(a: seq<seq<byte>>, b: seq<seq<byte>>)
    ensures Flat(a + b) == Flat(a) + Flat(b)
  {
    if a == [] {
      assert a + b == b;
    } else {
      assert (a + b)[1..] == a[1..] + b;
      FlatConcat(a[1..], b);
    }
  }

  /** The controller polls with a timeout. A poll that times out has moved what it read into the
      buffer, and the next one clears the buffer: the stream goes on behind those bytes. */
  method Poll(receiver: Receiver, pieces: nat) returns (r: Result<Option<WireFrame>, ChannelError>)
    requires receiver.Valid() && pieces <= |receiver.chunks|
    requires NEWLINE !in Flat(receiver.chunks[..pieces]) && |Flat(receiver.chunks[..pieces])| <= receiver.max
    modifies receiver
    ensures receiver.Valid()
    ensures r == Next(Flat(old(receiver.chunks[pieces..])), receiver.max, receiver.decode)
  {
    receiver.readBuffer := [];
    ghost var all := receiver.chunks;
    assert all[..0] == [] && all[0..] == all;
    for k := 0 to pieces
      invariant receiver.Valid() && receiver.chunks == all[k..] && receiver.readBuffer == Flat(all[..k])
    {
      assert all[..pieces] == all[..k + 1] + all[k + 1..pieces];
      FlatConcat(all[..k + 1], all[k + 1..pieces]);
      assert all[..k + 1] == all[..k] + [all[k]];
      FlatConcat(all[..k], [all[k]]);
      assert Flat([all[k]]) == all[k] + Flat([]) == all[k];
      assert forall c :: c in receiver.chunks[1..] ==> c in receiver.chunks;
      receiver.readBuffer := receiver.readBuffer + receiver.chunks[0];
      receiver.chunks := receiver.chunks[1..];
    }
    r := receiver.Receive();
  }

  /** Polling again is as good as never having polled, whatever is still to come, exactly when the
      abandoned poll had read nothing; otherwise even a stream cut off in the middle of a frame ends
      cleanly. */
  lemma {:induction false} PollHarmlessIff(read: seq<byte>, max: nat, decode: Decoder)
    requires NEWLINE !in read && |read| <= max
    ensures (forall rest :: Next(rest, max, decode) == Next(read + rest, max, decode)) <==> read == []
    ensures read != [] ==> Next([], max, decode) == Ok(None) && Next(read, max, decode) == Err(UnterminatedFrame)
  {
    if read == [] {
      forall rest: seq<byte> ensures Next(rest, max, decode) == Next(read + rest, max, decode) {
        assert read + rest == rest;
      }
    } else {
      NoNewline(read);
      assert read + [] == read;
      assert Next([], max, decode) == Ok(None);
    }
  }

  /** The line ends inside the piece: buffer, payload and newline come before the rest. */
  lemma {:induction false} CutAtNewline(buffer: seq<byte>, head: seq<byte>, rest: seq<byte>, n: nat)
    requires n < |head| && head[n] == NEWLINE
    ensures (head + rest)[n + 1..] == head[n + 1..] + rest
    ensures buffer + (head + rest) == buffer + head[..n] + [NEWLINE] + (head + rest)[n + 1..]
  {
    assert head == head[..n] + ([NEWLINE] + head[n + 1..]);
  }

  /** Moving a payload from the reader to the buffer leaves the stream in one piece. */
  lemma {:induction false} Pieces(buffer: seq<byte>, chunks: seq<seq<byte>>, newline: nat, take: nat, stream: seq<byte>)
    requires chunks != [] && newline <= |chunks[0]| && stream == buffer + Flat(chunks)
    requires newline < |chunks[0]| ==> chunks[0][newline] == NEWLINE && take == newline + 1
    requires newline == |chunks[0]| ==> take == newline
    ensures take <= |Flat(chunks)| && buffer + chunks[0][..newline] <= stream
    ensures stream == if newline < |chunks[0]|
      then buffer + chunks[0][..newline] + [NEWLINE] + Flat(chunks)[take..]
      else buffer + chunks[0][..newline] + Flat(chunks)[take..]
  {
    var head, rest := chunks[0], Flat(chunks[1..]);
    assert Flat(chunks) == head + rest;
    hide Flat;
    if newline < |head| {
      CutAtNewline(buffer, head, rest, newline);
    } else {
      assert head[..newline] == head && (head + rest)[take..] == rest;
      assert buffer + (head + rest) == buffer + head + rest;
    }
  }

  method Position(available: seq<byte>) returns (n: nat)
    ensures n <= |available| && NEWLINE !in available[..n] && (n < |available| ==> available[n] == NEWLINE)
  {
    n := 0;
    while n < |available| && available[n] != NEWLINE
      invariant n <= |available| && NEWLINE !in available[..n]
    {
      n := n + 1;
    }
  }

  lemma {:induction false} NoNewline(stream: seq<byte>)
    requires NEWLINE !in stream
    ensures LineLength(stream) == |stream|
  {
    assert forall i :: 0 <= i < |stream| ==> stream[i] in stream;
  }

  lemma {:induction false} LineReaches(stream: seq<byte>, start: seq<byte>)
    requires start <= stream && NEWLINE !in start
    ensures LineLength(stream) >= |start|
  {
    assert forall i :: 0 <= i < |start| ==> stream[i] == start[i] && start[i] in start;
  }

  // ----- the sending half

  /** What sending one frame writes; the bound is on the encoded bytes. */
  function Written(frame: WireFrame, max: nat, encode: Encoder): Result<seq<byte>, ChannelError> {
    if frame.protocol != WIRE_PROTOCOL then Err(UnsupportedProtocol(frame.protocol))
    else if |encode(frame)| > max then Err(FrameTooLarge(max))
    else Ok(encode(frame) + [NEWLINE])
  }

  /** Only frames of this wire protocol leave, whole and with one line feed behind them. */
  lemma {:induction false} SentMeans(frame: WireFrame, max: nat, encode: Encoder)
    ensures Written(frame, max, encode).Ok? <==> frame.protocol == "mcp-loadtest-dist/1" && |encode(frame)| <= max
    ensures Written(frame, max, encode).Ok? ==> Written(frame, max, encode).value == encode(frame) + [10]
    ensures frame.protocol != "mcp-loadtest-dist/1" ==>
      Written(frame, max, encode) == Err(UnsupportedProtocol(frame.protocol))
    ensures frame.protocol == "mcp-loadtest-dist/1" && |encode(frame)| > max ==>
      Written(frame, max, encode) == Err(FrameTooLarge(max))
  {
    assert WIRE_PROTOCOL == "mcp-loadtest-dist/1";
  }

  class Sender {
    var written: seq<byte>
    const max: nat
    const encode: Encoder

    constructor (maxFrameBytes: nat, encode: Encoder)
      ensures written == [] && this.encode == encode
      ensures max == if maxFrameBytes == 0 then 1 else maxFrameBytes
    {
      written := [];
      max := if maxFrameBytes == 0 then 1 else maxFrameBytes;
      this.encode := encode;
    }

    method Send(frame: WireFrame) returns (r: Result<(), ChannelError>)
      modifies this
      ensures r.Ok? <==> Written(frame, max, encode).Ok?
      ensures r.Ok? ==> written == old(written) + Written(frame, max, encode).value
      ensures r.Err? ==> written == old(written) && r.error == Written(frame, max, encode).error
    {
      if frame.protocol != WIRE_PROTOCOL {
        return Err(UnsupportedProtocol(frame.protocol));
      }
      var encoded := encode(frame);
      if |encoded| > max {
        return Err(FrameTooLarge(max));
      }
      written := written + encoded;
      written := written + [NEWLINE];
      return Ok(());
    }
  }

  function SentAll(frames: seq<WireFrame>, encode: Encoder): seq<byte> {
    if frames == [] then [] else encode(frames[0]) + [NEWLINE] + SentAll(frames[1..], encode)
  }

  /** What is assumed of the JSON codec: decoding undoes encoding, and an encoded frame is a non-empty
      text without line breaks. */
  ghost predicate RoundTrips(f: WireFrame, encode: Encoder, decode: Decoder) {
    && decode(encode(f)) == Ok(f)
    && encode(f) != [] && NEWLINE !in encode(f) && encode(f)[|encode(f)| - 1] != CARRIAGE_RETURN
  }

  lemma {:induction false} OneIsReceived(f: WireFrame, rest: seq<byte>, max: nat, encode: Encoder, decode: Decoder)
    requires RoundTrips(f, encode, decode) && Written(f, max, encode).Ok?
    ensures var stream := encode(f) + [NEWLINE] + rest;
      Next(stream, max, decode) == Ok(Some(f)) && AfterLine(stream) == rest
  {
    LineOf(encode(f), rest);
    hide LineLength;
    assert WithoutReturn(encode(f)) == encode(f);
  }

  /** A carriage return before the newline is forgiven, but it counts towards the bound. */
  lemma {:induction false} ReturnCounts(f: WireFrame, rest: seq<byte>, max: nat, encode: Encoder, decode: Decoder)
    requires RoundTrips(f, encode, decode) && f.protocol == WIRE_PROTOCOL
    ensures Next(encode(f) + [CARRIAGE_RETURN] + [NEWLINE] + rest, max, decode)
         == if |encode(f)| < max then Ok(Some(f)) else Err(FrameTooLarge(max))
  {
    var line := encode(f) + [CARRIAGE_RETURN];
    LineOf(line, rest);
    hide LineLength;
    assert WithoutReturn(line) == encode(f);
  }

  lemma {:induction false} AllStep(stream: seq<byte>, f: WireFrame, max: nat, decode: Decoder)
    requires Next(stream, max, decode) == Ok(Some(f))
    ensures var more := All(AfterLine(stream), max, decode);
      All(stream, max, decode) == Drained([f] + more.frames, more.error)
  {
    hide Parsed, LineLength;
  }

  /** Round trip: every list of frames the sender accepts is received as exactly those frames in
      order, then a clean end. */
  lemma {:induction false} SentIsReceived(frames: seq<WireFrame>, max: nat, encode: Encoder, decode: Decoder)
    requires forall f :: f in frames ==> RoundTrips(f, encode, decode) && Written(f, max, encode).Ok?
    ensures All(SentAll(frames, encode), max, decode) == Drained(frames, None)
  {
    if frames != [] {
      var rest := SentAll(frames[1..], encode);
      assert frames[0] in frames;
      var stream := encode(frames[0]) + [NEWLINE] + rest;
      assert SentAll(frames, encode) == stream;
      hide Next, AfterLine, RoundTrips, Written, SentAll, All;
      OneIsReceived(frames[0], rest, max, encode, decode);
      SentIsReceived(frames[1..], max, encode, decode);
      AllStep(stream, frames[0], max, decode);
      assert frames == [frames[0]] + frames[1..];
    }
  }

  /** A sender that accepted every frame has written exactly the stream of the round trip. */
  method SendFrames(sender: Sender, frames: seq<WireFrame>) returns (r: Result<(), ChannelError>)
    modifies sender
    ensures r.Ok? <==> forall f :: f in frames ==> Written(f, sender.max, sender.encode).Ok?
    ensures r.Ok? ==> sender.written == old(sender.written) + SentAll(frames, sender.encode)
  {
    assert frames[0..] == frames;
    for i := 0 to |frames|
      invariant old(sender.written) + SentAll(frames, sender.encode) == sender.written + SentAll(frames[i..], sender.encode)
      invariant forall f :: f in frames[..i] ==> Written(f, sender.max, sender.encode).Ok?
    {
      assert frames[i..][1..] == frames[i + 1..];
      assert frames[..i + 1] == frames[..i] + [frames[i]];
      r := sender.Send(frames[i]);
      if r.Err? {
        assert frames[i] in frames;
        return;
      }
    }
    assert frames[..|frames|] == frames;
    r := Ok(());
  }

  /** Receive until the clean end or the first error. */
  method ReceiveAll(receiver: Receiver) returns (frames: seq<WireFrame>, end: Option<ChannelError>)
    requires receiver.Valid()
    modifies receiver
    ensures receiver.Valid()
    ensures Drained(frames, end) == All(Flat(old(receiver.chunks)), receiver.max, receiver.decode)
  {
    hide Next, AfterLine, Flat;
    frames := [];
    ghost var all := All(Flat(receiver.chunks), receiver.max, receiver.decode);
    while true
      invariant receiver.Valid()
      invariant all.frames == frames + All(Flat(receiver.chunks), receiver.max, receiver.decode).frames
      invariant all.error == All(Flat(receiver.chunks), receiver.max, receiver.decode).error
      decreases |Flat(receiver.chunks)|
    {
      ghost var rest := Flat(receiver.chunks);
      var r := receiver.Receive();
      if r.Err? {
        return frames, Some(r.error);
      }
      if r.value.None? {
        return frames, None;
      }
      FrameShortens(rest, receiver.max, receiver.decode);
      frames := frames + [r.value.value];
    }
    end := None;
  }

  lemma {:induction false} FrameShortens(stream: seq<byte>, max: nat, decode: Decoder)
    requires Next(stream, max, decode).Ok? && Next(stream, max, decode).value.Some?
    ensures |AfterLine(stream)| < |stream|
  {
  }
}
