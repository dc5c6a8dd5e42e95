/** Length-prefixed frames of crates/net, their wire encoding, and the incremental splitter. */
module Framing {
  import opened Wrappers
  import opened Codec

  // ------------------------------------------------------------------ one frame

  datatype Packet = Packet(length: nat, opcode: nat, payload: seq<Byte>)

  datatype DecodeError = FrameTooShort | InvalidLength | PayloadTooLarge

  type U16 = n: nat | n < 0x1_0000

  function LittleEndian(n: U16): seq<Byte> {
    [n % 256, n / 256]
  }

  function U16At(s: seq<Byte>, at: nat): U16
    requires at + 2 <= |s|
  {
    s[at] as int + 256 * (s[at + 1] as int)
  }

  /** The length field is truncated to 16 bits, as the cast in the source does. */
  function EncodeFrame(opcode: U16, payload: seq<Byte>): seq<Byte> {
    LittleEndian((2 + |payload|) % 0x1_0000) + LittleEndian(opcode) + payload
  }

  function DecodeFrame(frame: seq<Byte>, maxPayload: nat): Result<Packet, DecodeError> {
    if |frame| < 4 then Err(FrameTooShort)
    else if U16At(frame, 0) + 2 != |frame| then Err(InvalidLength)
    else if |frame| - 4 > maxPayload then Err(PayloadTooLarge)
    else Ok(Packet(U16At(frame, 0), U16At(frame, 2), frame[4..]))
  }

  lemma EncodedFields(opcode: U16, payload: seq<Byte>)
    ensures var f := EncodeFrame(opcode, payload);
            && |f| == 4 + |payload| && U16At(f, 0) == (2 + |payload|) % 0x1_0000
            && U16At(f, 2) == opcode && f[4..] == payload
  {
    var f := EncodeFrame(opcode, payload);
    assert f[0] == (2 + |payload|) % 0x1_0000 % 256 && f[1] == (2 + |payload|) % 0x1_0000 / 256;
    assert f[2] == opcode % 256 && f[3] == opcode / 256;
  }

  /** Exactly the payloads of at most min(65533, max) bytes survive; each other size has its error. */
  lemma FrameRoundTrip(opcode: U16, payload: seq<Byte>, maxPayload: nat)
    ensures DecodeFrame(EncodeFrame(opcode, payload), maxPayload)
         == if |payload| > 65533 then Err(InvalidLength)
            else if |payload| > maxPayload then Err(PayloadTooLarge)
            else Ok(Packet(2 + |payload|, opcode, payload))
  {
    EncodedFields(opcode, payload);
  }

  /** A frame that decodes is the encoding of what it decodes to: no two frames decode alike. */
  lemma DecodedFrameIsCanonical(frame: seq<Byte>, maxPayload: nat)
    requires DecodeFrame(frame, maxPayload).Ok?
    ensures var p := DecodeFrame(frame, maxPayload).value;
            EncodeFrame(p.opcode, p.payload) == frame && p.length == 2 + |p.payload|
  {
    var p := DecodeFrame(frame, maxPayload).value;
    var f := EncodeFrame(p.opcode, p.payload);
    EncodedFields(p.opcode, p.payload);
    U16Injective(f, frame, 0);
    U16Injective(f, frame, 2);
    HeaderAndPayload(f, frame);
  }

  /** A frame by its bytes: length field, opcode and payload in this order, the two numbers with the
      low byte first; each of the three errors by its cause. */
  lemma DecodedByBytes(frame: seq<Byte>, maxPayload: nat)
    ensures |frame| < 4 ==> DecodeFrame(frame, maxPayload) == Err(FrameTooShort)
    ensures |frame| >= 4 ==>
              var length := frame[0] as int + 256 * (frame[1] as int);
              DecodeFrame(frame, maxPayload)
              == if length + 2 != |frame| then Err(InvalidLength)
                 else if length - 2 > maxPayload then Err(PayloadTooLarge)
                 else Ok(Packet(length, frame[2] as int + 256 * (frame[3] as int), frame[4..]))
  {
  }

  lemma HeaderAndPayload(a: seq<Byte>, b: seq<Byte>)
    requires |a| >= 4 && |b| >= 4 && a[4..] == b[4..]
    requires a[0] == b[0] && a[1] == b[1] && a[2] == b[2] && a[3] == b[3]
    ensures a == b
  {
    assert a == [a[0], a[1], a[2], a[3]] + a[4..];
    assert b == [b[0], b[1], b[2], b[3]] + b[4..];
  }

  lemma U16Injective(a: seq<Byte>, b: seq<Byte>, at: nat)
    requires at + 2 <= |a| && at + 2 <= |b| && U16At(a, at) == U16At(b, at)
    ensures a[at] == b[at] && a[at + 1] == b[at + 1]
  {
  }

  // ----------------------------------------------------------------- wire frames

  datatype WireOptions = WireOptions(compression: bool, seed: Option<Byte>)

  datatype WireError = Frame(frameError: DecodeError) | Codec(codecError: CodecError)

  function EncodedPayload(payload: seq<Byte>, o: WireOptions): seq<Byte> {
    var packed := if o.compression then Compressed(payload) else payload;
    if o.seed.Some? then Obfuscated(packed, o.seed.value) else packed
  }

  function EncodeWireFrame(opcode: U16, payload: seq<Byte>, o: WireOptions): seq<Byte> {
    EncodeFrame(opcode, EncodedPayload(payload, o))
  }

  /** The receiving end: undo the stream, undo the compression, check the size. */
  function ClearPayload(data: seq<Byte>, maxPayload: nat, o: WireOptions): Result<seq<Byte>, CodecError> {
    var clear := if o.seed.Some? then Obfuscated(data, o.seed.value) else data;
    var inflated := if o.compression then Inflate(clear, maxPayload) else Ok(clear);
    if inflated.Ok? && |inflated.value| > maxPayload then Err(DecompressedPayloadTooLarge) else inflated
  }

  function DecodeWireFrame(frame: seq<Byte>, maxPayload: nat, o: WireOptions): Result<Packet, WireError> {
    match DecodeFrame(frame, maxPayload)
    case Err(e) => Err(Frame(e))
    case Ok(decoded) =>
      match ClearPayload(decoded.payload, maxPayload, o)
      case Err(e) => Err(Codec(e))
      case Ok(payload) => Ok(Packet((2 + |payload|) % 0x1_0000, decoded.opcode, payload))
  }

  lemma ClearEncodedPayload(payload: seq<Byte>, maxPayload: nat, o: WireOptions)
    ensures ClearPayload(EncodedPayload(payload, o), maxPayload, o)
         == if |payload| <= maxPayload then Ok(payload) else Err(DecompressedPayloadTooLarge)
  {
    if o.seed.Some? {
      ObfuscateTwice(if o.compression then Compressed(payload) else payload, o.seed.value);
    }
    RoundTrip(payload, maxPayload);
  }

  lemma EncodedSize(payload: seq<Byte>, o: WireOptions)
    ensures |EncodedPayload(payload, o)| == if o.compression then |Compressed(payload)| else |payload|
    ensures |EncodedPayload(payload, o)| <= |payload| + 2 * Escapes(payload)
  {
    ExpansionBound(payload);
  }

  /** The wire encoding round-trips exactly within its size limits; outside them the error is fixed. */
  lemma WireRoundTrip(opcode: U16, payload: seq<Byte>, maxPayload: nat, o: WireOptions, sent: seq<Byte>)
    requires sent == EncodedPayload(payload, o)
    ensures DecodeWireFrame(EncodeWireFrame(opcode, payload, o), maxPayload, o)
         == if |sent| > 65533 then Err(Frame(InvalidLength))
            else if |sent| > maxPayload then Err(Frame(PayloadTooLarge))
            else if |payload| > maxPayload then Err(Codec(DecompressedPayloadTooLarge))
            else Ok(Packet((2 + |payload|) % 0x1_0000, opcode, payload))
  {
    FrameRoundTrip(opcode, sent, maxPayload);
    ClearEncodedPayload(payload, maxPayload, o);
  }

  // ------------------------------------------------------------ splitting a stream

  datatype SplitResult = SplitResult(frames: seq<seq<Byte>>, rest: seq<Byte>)

  /** Bytes of the frame announced at the head of the buffer. */
  function FrameSize(s: seq<Byte>): nat
    requires |s| >= 2
  {
    U16At(s, 0) + 2
  }

  predicate HasFrame(s: seq<Byte>) {
    |s| >= 2 && |s| >= FrameSize(s)
  }

  function Split(s: seq<Byte>): SplitResult
    decreases |s|
  {
    if !HasFrame(s) then SplitResult([], s)
    else
      var tail := Split(s[FrameSize(s)..]);
      SplitResult([s[..FrameSize(s)]] + tail.frames, tail.rest)
  }

  /** A whole frame: its first two bytes, the low one first, count the bytes after them. */
  predicate IsFrame(f: seq<Byte>) {
    |f| >= 2 && |f| == 2 + f[0] as int + 256 * (f[1] as int)
  }

  /** A cut of the stream into whole frames that leaves no whole frame behind. */
  ghost predicate IsCut(s: seq<Byte>, cut: SplitResult) {
    && Flatten(cut.frames) + cut.rest == s
    && (forall f :: f in cut.frames ==> IsFrame(f))
    && (|cut.rest| < 2 || |cut.rest| < 2 + cut.rest[0] as int + 256 * (cut.rest[1] as int))
  }

  lemma {:induction false} SplitIsCut(s: seq<Byte>, cut: SplitResult)
    requires cut == Split(s)
    ensures IsCut(s, cut)
    decreases |s|
  {
    if HasFrame(s) {
      var f, t := s[..FrameSize(s)], s[FrameSize(s)..];
      var tail := Split(t);
      SplitIsCut(t, tail);
      ConsCut(f, t, tail);
      assert f + t == s;
    } else {
      assert Flatten(cut.frames) + s == s;
    }
  }

  lemma ConsCut(f: seq<Byte>, s: seq<Byte>, cut: SplitResult)
    requires IsFrame(f) && IsCut(s, cut)
    ensures IsCut(f + s, SplitResult([f] + cut.frames, cut.rest))
  {
    assert ([f] + cut.frames)[1..] == cut.frames;
    Associative(f, Flatten(cut.frames), cut.rest);
  }

  lemma SplitHead(f: seq<Byte>, s: seq<Byte>)
    requires IsFrame(f)
    ensures Split(f + s) == SplitResult([f] + Split(s).frames, Split(s).rest)
  {
    assert (f + s)[..|f|] == f && (f + s)[|f|..] == s;
  }

  /** The splitter's answer is the only cut there is. */
  lemma {:induction false} CutIsUnique(s: seq<Byte>, cut: SplitResult)
    requires IsCut(s, cut)
    ensures cut == Split(s)
    decreases |cut.frames|
  {
    if cut.frames == [] {
      assert [] + cut.rest == cut.rest;
    } else {
      var f, tail := cut.frames[0], SplitResult(cut.frames[1..], cut.rest);
      Associative(f, Flatten(tail.frames), cut.rest);
      CutIsUnique(Flatten(tail.frames) + cut.rest, tail);
      SplitHead(f, Flatten(tail.frames) + cut.rest);
      assert cut.frames == [f] + tail.frames;
    }
  }

  /** Bytes that arrive later never change the frames already cut. */
  lemma {:induction false} SplitAppend(a: seq<Byte>, b: seq<Byte>)
    ensures var later := Split(Split(a).rest + b);
            Split(a + b) == SplitResult(Split(a).frames + later.frames, later.rest)
    decreases |a|
  {
    var later := Split(Split(a).rest + b);
    if HasFrame(a) {
      var n := FrameSize(a);
      var f := a[..n];
      SplitAppend(a[n..], b);
      assert a + b == f + (a[n..] + b);
      SplitHead(f, a[n..] + b);
      Associative([f], Split(a[n..]).frames, later.frames);
    } else {
      assert [] + later.frames == later.frames;
    }
  }

  /** A connection: each read appends a chunk to what is left over and cuts again. */
  function FeedAll(rest: seq<Byte>, chunks: seq<seq<Byte>>): SplitResult
    decreases |chunks|
  {
    if chunks == [] then SplitResult([], rest)
    else
      var now := Split(rest + chunks[0]);
      var later := FeedAll(now.rest, chunks[1..]);
      SplitResult(now.frames + later.frames, later.rest)
  }

  /** However the stream is chopped into reads, the frames and the residue are those of the whole. */
  lemma {:induction false} ChunkingIsIrrelevant(rest: seq<Byte>, chunks: seq<seq<Byte>>)
    requires !HasFrame(rest)
    ensures FeedAll(rest, chunks) == Split(rest + Flatten(chunks))
    decreases |chunks|
  {
    if chunks == [] {
      assert rest + [] == rest;
    } else {
      var now := Split(rest + chunks[0]);
      SplitIsCut(rest + chunks[0], now);
      ChunkingIsIrrelevant(now.rest, chunks[1..]);
      SplitAppend(rest + chunks[0], Flatten(chunks[1..]));
      Associative(rest, chunks[0], Flatten(chunks[1..]));
    }
  }

  /** The receive buffer of a session. */
  class ReadBuffer {
    var bytes: seq<Byte>

    constructor ()
      ensures bytes == []
    {
      bytes := [];
    }

    method Read(chunk: seq<Byte>)
      modifies this
      ensures bytes == old(bytes) + chunk
    {
      bytes := bytes + chunk;
    }

    method SplitFrames() returns (frames: seq<seq<Byte>>)
      modifies this
      ensures SplitResult(frames, bytes) == Split(old(bytes))
    {
      frames := [];
      assert [] + Split(bytes).frames == Split(bytes).frames;
      while true
        invariant Split(old(bytes)) == SplitResult(frames + Split(bytes).frames, Split(bytes).rest)
        decreases |bytes|
      {
        if |bytes| < 2 {
          break;
        }
        var total := U16At(bytes, 0) + 2;
        if |bytes| < total {
          break;
        }
        Associative(frames, [bytes[..total]], Split(bytes[total..]).frames);
        frames := frames + [bytes[..total]];
        bytes := bytes[total..];
      }
      assert frames + [] == frames;
    }
  }

  // --------------------------------------------- the capture tools' own splitters

  /** capture_replay_frames.py: copies every whole frame of the client's stream to a file. */
  class FrameCollector {
    var buffer: seq<Byte>
    var written: seq<Byte>
    var frames: nat
    var bytes: nat

    constructor ()
      ensures buffer == written == [] && frames == bytes == 0
    {
      buffer, written, frames, bytes := [], [], 0, 0;
    }

    method Feed(chunk: seq<Byte>)
      modifies this
      ensures var cut := Split(old(buffer) + chunk);
              && buffer == cut.rest
              && written == old(written) + Flatten(cut.frames)
              && frames == old(frames) + |cut.frames|
              && bytes == old(bytes) + |Flatten(cut.frames)|
    {
      buffer := buffer + chunk;
      ghost var whole := Split(buffer);
      ghost var cut: seq<seq<Byte>> := [];
      assert cut + whole.frames == whole.frames && written + [] == written;
      while true
        invariant whole == SplitResult(cut + Split(buffer).frames, Split(buffer).rest)
        invariant written == old(written) + Flatten(cut)
        invariant frames == old(frames) + |cut| && bytes == old(bytes) + |Flatten(cut)|
        decreases |buffer|
      {
        if |buffer| < 2 {
          break;
        }
        var length: nat := U16At(buffer, 0);
        var total := 2 + length;
        if total > 65537 {
          assert false;  // a 16-bit length never announces more, so no byte is ever skipped
        }
        if |buffer| < total {
          break;
        }
        var frame := buffer[..total];
        CutOneMore(cut, frame, Split(buffer[total..]).frames, old(written));
        buffer := buffer[total..];
        written := written + frame;
        frames := frames + 1;
        bytes := bytes + |frame|;
        cut := cut + [frame];
      }
      assert cut + [] == cut;
    }
  }

  lemma CutOneMore(cut: seq<seq<Byte>>, frame: seq<Byte>, later: seq<seq<Byte>>, before: seq<Byte>)
    ensures cut + ([frame] + later) == cut + [frame] + later
    ensures Flatten(cut + [frame]) == Flatten(cut) + frame
    ensures before + Flatten(cut) + frame == before + Flatten(cut + [frame])
  {
    Associative(cut, [frame], later);
    FlattenAppend(cut, [frame]);
    assert Flatten([frame]) == frame + Flatten([frame][1..]) == frame;
    Associative(before, Flatten(cut), frame);
  }

  /** The frames of a capture, each with the offset it starts at. */
  function Located(frames: seq<seq<Byte>>, offset: nat): seq<(nat, seq<Byte>)> {
    if frames == [] then [] else [(offset, frames[0])] + Located(frames[1..], offset + |frames[0]|)
  }

  lemma {:induction false} LocatedAt(frames: seq<seq<Byte>>, offset: nat, i: nat)
    requires i < |frames|
    ensures |Located(frames, offset)| == |frames|
    ensures Located(frames, offset)[i] == (offset + |Flatten(frames[..i])|, frames[i])
    decreases |frames|
  {
    if i > 0 {
      LocatedAt(frames[1..], offset + |frames[0]|, i - 1);
      assert frames[..i][1..] == frames[1..][..i - 1];
    } else if |frames| > 1 {
      LocatedAt(frames[1..], offset + |frames[0]|, 0);
    }
  }

  /** replay_fixture_from_bin.py: walks a capture and yields each frame with its offset. */
  method IterFrames(blob: seq<Byte>) returns (items: seq<(nat, seq<Byte>)>)
    ensures items == Located(Split(blob).frames, 0)
  {
    var offset := 0;
    items := [];
    assert blob[0..] == blob && [] + Located(Split(blob).frames, 0) == Located(Split(blob).frames, 0);
    while offset + 2 <= |blob|
      invariant 0 <= offset <= |blob|
      invariant Located(Split(blob).frames, 0) == items + Located(Split(blob[offset..]).frames, offset)
      decreases |blob| - offset
    {
      var length: nat := U16At(blob, offset);
      var end := offset + 2 + length;
      if end > |blob| {
        break;
      }
      LocateNext(blob, offset, items);
      items := items + [(offset, blob[offset..end])];
      offset := end;
    }
    assert !HasFrame(blob[offset..]);
    assert items + [] == items;
  }

  lemma {:induction false} LocateNext(blob: seq<Byte>, offset: nat, items: seq<(nat, seq<Byte>)>)
    requires offset + 2 <= |blob| && offset + 2 + U16At(blob, offset) <= |blob|
    ensures var end := offset + 2 + U16At(blob, offset);
            (items + Located(Split(blob[offset..]).frames, offset)
             == items + [(offset, blob[offset..end])] + Located(Split(blob[end..]).frames, end))
  {
    var end := offset + 2 + U16At(blob, offset);
    FrameAhead(blob, offset);
    LocatedHead(items, blob[offset..end], Split(blob[end..]).frames, offset);
  }

  lemma {:induction false} FrameAhead(blob: seq<Byte>, offset: nat)
    requires offset + 2 <= |blob| && offset + 2 + U16At(blob, offset) <= |blob|
    ensures var end := offset + 2 + U16At(blob, offset);
            Split(blob[offset..]).frames == [blob[offset..end]] + Split(blob[end..]).frames
  {
    var here, size := blob[offset..], 2 + U16At(blob, offset);
    assert HasFrame(here) && FrameSize(here) == size;
    assert here[..size] == blob[offset..offset + size];
    assert here[size..] == blob[offset + size..];
  }

  lemma {:induction false} LocatedHead(items: seq<(nat, seq<Byte>)>, frame: seq<Byte>, frames: seq<seq<Byte>>, offset: nat)
    ensures items + Located([frame] + frames, offset) == items + [(offset, frame)] + Located(frames, offset + |frame|)
  {
    assert ([frame] + frames)[1..] == frames;
    Associative(items, [(offset, frame)], Located(frames, offset + |frame|));
  }

  /** The file a collector writes, however the stream was read, holds the stream's own frames. */
  lemma CaptureKeepsFrames(stream: seq<Byte>)
    ensures Split(Flatten(Split(stream).frames)) == SplitResult(Split(stream).frames, [])
  {
    SplitIsCut(stream, Split(stream));
    var cut := SplitResult(Split(stream).frames, []);
    assert Flatten(cut.frames) + [] == Flatten(cut.frames);
    CutIsUnique(Flatten(cut.frames), cut);
  }
}
