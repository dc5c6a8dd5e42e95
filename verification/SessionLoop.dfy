/** handle_session of apps/gateway: bytes in, enqueued commands out. */
module SessionLoop {
  import opened Wrappers
  import opened Framing
  import opened Commands

  datatype ProtocolVersion = LegacyV382 | ModernV400

  function AsciiLower(c: char): char {
    if 'A' <= c <= 'Z' then (c as int + 32) as char else c
  }

  function Lower(s: string): string {
    seq(|s|, i requires 0 <= i < |s| => AsciiLower(s[i]))
  }

  predicate Contains(s: string, token: string) {
    |token| <= |s| && (token <= s || Contains(s[1..], token))
  }

  /** Neither token holds white space, so trimming the version first makes no difference. */
  function DetectVersion(clientVersion: string): ProtocolVersion {
    if Contains(Lower(clientVersion), "modern") || Contains(Lower(clientVersion), "xtreme") then ModernV400
    else LegacyV382
  }

  /** What one connection is configured with: the payload limit, the payload parsers, and the
      limiter's answer for the n-th frame of the connection. */
  datatype Env = Env(
    maxPayload: nat,
    parse: (Packet, ProtocolVersion) -> Option<ClientCommand>,
    grants: nat -> bool)

  datatype Peer = Peer(phase: Phase, version: ProtocolVersion, sent: seq<ClientCommand>, seen: nat)

  const FRESH := Peer(PreAuth, LegacyV382, [], 0)

  function Translate(env: Env, packet: Packet, phase: Phase, version: ProtocolVersion): Option<ClientCommand> {
    match env.parse(packet, version)
    case None => None
    case Some(c) => if Accepts(phase, c) then Some(c) else None
  }

  /** The body of the frame loop. */
  function HandleFrame(env: Env, peer: Peer, frame: seq<Byte>): Peer {
    var next := peer.(seen := peer.seen + 1);
    if !env.grants(peer.seen) then next
    else match DecodeFrame(frame, env.maxPayload)
    case Err(_) => next
    case Ok(packet) =>
      match Translate(env, packet, peer.phase, peer.version)
      case None => next
      case Some(c) =>
        next.(version := if c.Login? then DetectVersion(c.clientVersion) else peer.version,
              phase := NextPhase(peer.phase, c),
              sent := peer.sent + [c])
  }

  function HandleFrames(env: Env, peer: Peer, frames: seq<seq<Byte>>): Peer
    decreases |frames|
  {
    if frames == [] then peer else HandleFrames(env, HandleFrame(env, peer, frames[0]), frames[1..])
  }

  lemma {:induction false} HandleFramesAppend(env: Env, peer: Peer, a: seq<seq<Byte>>, b: seq<seq<Byte>>)
    ensures HandleFrames(env, peer, a + b) == HandleFrames(env, HandleFrames(env, peer, a), b)
    decreases |a|
  {
    if a == [] {
      assert a + b == b;
    } else {
      assert (a + b)[1..] == a[1..] + b;
      HandleFramesAppend(env, HandleFrame(env, peer, a[0]), a[1..], b);
    }
  }

  class Session {
    const env: Env
    const buffer: ReadBuffer
    var phase: Phase
    var version: ProtocolVersion
    var sent: seq<ClientCommand>
    var seen: nat
    // every byte the connection has read
    ghost var received: seq<Byte>

    ghost predicate Valid()
      reads this, buffer
    {
      var cut := Split(received);
      buffer.bytes == cut.rest && State() == HandleFrames(env, FRESH, cut.frames)
    }

    constructor (env: Env)
      ensures Valid() && fresh(buffer) && this.env == env && received == [] && State() == FRESH
    {
      this.env := env;
      buffer := new ReadBuffer();
      phase, version, sent, seen := PreAuth, LegacyV382, [], 0;
      received := [];
    }

    function State(): Peer
      reads this
    {
      Peer(phase, version, sent, seen)
    }

    /** One pass of the read loop: append what arrived, then handle every frame now complete. What is
        enqueued, and the phase and version it leads to, are told from all the bytes read so far. */
    method OnRead(chunk: seq<Byte>)
      requires Valid()
      modifies this, buffer
      ensures Valid() && received == old(received) + chunk
      ensures var cut := Split(received);
              && buffer.bytes == cut.rest && seen == |cut.frames| && sent == Told(env, cut.frames)
              && Run(PreAuth, sent) == Some(phase) && version == VersionIn(sent)
    {
      buffer.Read(chunk);
      var frames := buffer.SplitFrames();
      SplitAppend(received, chunk);
      HandleFramesAppend(env, FRESH, Split(received).frames, frames);
      received := received + chunk;
      HandleAll(frames);
      EnqueuedAreTold(env, Split(received).frames);
    }

    method HandleAll(frames: seq<seq<Byte>>)
      modifies `phase, `version, `sent, `seen
      ensures State() == HandleFrames(env, old(State()), frames)
    {
      ghost var goal := HandleFrames(env, State(), frames);
      var i := 0;
      while i < |frames|
        invariant 0 <= i <= |frames|
        invariant HandleFrames(env, State(), frames[i..]) == goal
      {
        assert frames[i..][1..] == frames[i + 1..];
        TakeFrame(frames[i]);
        i := i + 1;
      }
    }

    /** The body of the frame loop: the frame's command is enqueued exactly if the limiter grants the
        frame, it decodes within the limit, the parser of the present version makes a command of it,
        and the present phase accepts that command. */
    method TakeFrame(frame: seq<Byte>)
      modifies `phase, `version, `sent, `seen
      ensures State() == HandleFrame(env, old(State()), frame)
      ensures seen == old(seen) + 1
      ensures IsEnqueued(env, old(State()), frame) ==> sent == old(sent) + [CarriedBy(env, frame, old(version)).value]
      ensures !IsEnqueued(env, old(State()), frame) ==> sent == old(sent) && phase == old(phase) && version == old(version)
    {
      FrameIsEnqueuedIff(env, State(), frame);
      var allowed := env.grants(seen);
      seen := seen + 1;
      if !allowed {
        return;
      }
      var packet := DecodeFrame(frame, env.maxPayload);
      if packet.Err? {
        return;
      }
      var command := Translate(env, packet.value, phase, version);
      if command.Some? {
        if command.value.Login? {
          version := DetectVersion(command.value.clientVersion);
        }
        phase := NextPhase(phase, command.value);
        sent := sent + [command.value];
      }
    }
  }

  /** A connection's state and unread bytes after a series of reads. */
  function ReadAll(env: Env, peer: Peer, rest: seq<Byte>, chunks: seq<seq<Byte>>): (Peer, seq<Byte>)
    decreases |chunks|
  {
    if chunks == [] then (peer, rest)
    else
      var cut := Split(rest + chunks[0]);
      ReadAll(env, HandleFrames(env, peer, cut.frames), cut.rest, chunks[1..])
  }

  lemma {:induction false} ReadAllIsFeedAll(env: Env, peer: Peer, rest: seq<Byte>, chunks: seq<seq<Byte>>)
    ensures var cut := FeedAll(rest, chunks);
            ReadAll(env, peer, rest, chunks) == (HandleFrames(env, peer, cut.frames), cut.rest)
    decreases |chunks|
  {
    if chunks != [] {
      var now := Split(rest + chunks[0]);
      ReadAllIsFeedAll(env, HandleFrames(env, peer, now.frames), now.rest, chunks[1..]);
      HandleFramesAppend(env, peer, now.frames, FeedAll(now.rest, chunks[1..]).frames);
    }
  }

  /** Commands, phase and protocol version depend on the bytes and the limiter's answers,
      never on how the network cut the bytes into reads. */
  lemma SessionIgnoresChunking(env: Env, chunks: seq<seq<Byte>>, chunks': seq<seq<Byte>>)
    requires Flatten(chunks) == Flatten(chunks')
    ensures ReadAll(env, FRESH, [], chunks) == ReadAll(env, FRESH, [], chunks')
    ensures ReadAll(env, FRESH, [], chunks)
         == (HandleFrames(env, FRESH, Split(Flatten(chunks)).frames), Split(Flatten(chunks)).rest)
  {
    ReadAllIsFeedAll(env, FRESH, [], chunks);
    ReadAllIsFeedAll(env, FRESH, [], chunks');
    ChunkingIsIrrelevant([], chunks);
    ChunkingIsIrrelevant([], chunks');
    assert [] + Flatten(chunks) == Flatten(chunks);
  }

  /** The phase a connection shows is always the one its enqueued commands lead to. */
  lemma {:induction false} SentLeadsToPhase(env: Env, peer: Peer, frames: seq<seq<Byte>>)
    requires Run(PreAuth, peer.sent) == Some(peer.phase)
    ensures var after := HandleFrames(env, peer, frames);
            Run(PreAuth, after.sent) == Some(after.phase)
    decreases |frames|
  {
    if frames != [] {
      var next := HandleFrame(env, peer, frames[0]);
      if next.sent != peer.sent {
        var c := next.sent[|peer.sent|];
        assert next.sent == peer.sent + [c];
        RunSnoc(PreAuth, peer.sent, c);
      }
      SentLeadsToPhase(env, next, frames[1..]);
    }
  }

  /** End to end: whatever bytes arrive, the enqueued commands spell a session's life. */
  lemma AnyStreamYieldsAScript(env: Env, chunks: seq<seq<Byte>>)
    ensures var peer := ReadAll(env, FRESH, [], chunks).0;
            InLanguage(Kinds(peer.sent)) && Run(PreAuth, peer.sent) == Some(peer.phase)
  {
    SessionIgnoresChunking(env, chunks, chunks);
    SentLeadsToPhase(env, FRESH, Split(Flatten(chunks)).frames);
    var s := AcceptedHasScript(ReadAll(env, FRESH, [], chunks).0.sent);
  }

  // -------------------------------------------- what is enqueued, told from the bytes

  /** The command a frame carries for a protocol version, if it decodes and the parser knows it. */
  function CarriedBy(env: Env, frame: seq<Byte>, version: ProtocolVersion): Option<ClientCommand> {
    match DecodeFrame(frame, env.maxPayload)
    case Err(_) => None
    case Ok(packet) => env.parse(packet, version)
  }

  /** The four things a frame needs to be enqueued. */
  predicate IsEnqueued(env: Env, peer: Peer, frame: seq<Byte>) {
    && env.grants(peer.seen)
    && DecodeFrame(frame, env.maxPayload).Ok?
    && env.parse(DecodeFrame(frame, env.maxPayload).value, peer.version).Some?
    && Accepts(peer.phase, env.parse(DecodeFrame(frame, env.maxPayload).value, peer.version).value)
  }

  lemma FrameIsEnqueuedIff(env: Env, peer: Peer, frame: seq<Byte>)
    ensures var next, c := HandleFrame(env, peer, frame), CarriedBy(env, frame, peer.version);
            && next.seen == peer.seen + 1
            && (IsEnqueued(env, peer, frame) ==>
                  && c.Some? && next.sent == peer.sent + [c.value] && next.phase == NextPhase(peer.phase, c.value)
                  && next.version == if c.value.Login? then DetectVersion(c.value.clientVersion) else peer.version)
            && (!IsEnqueued(env, peer, frame) ==> next == peer.(seen := peer.seen + 1))
  {
  }

  /** The protocol version a series of commands leads to: the one its last Login announces. */
  function VersionIn(sent: seq<ClientCommand>): ProtocolVersion
    decreases |sent|
  {
    if sent == [] then LegacyV382
    else
      var last := sent[|sent| - 1];
      if last.Login? then DetectVersion(last.clientVersion) else VersionIn(sent[..|sent| - 1])
  }

  /** In what a connection enqueues there is one Login at most, and it decides the version. */
  lemma {:induction false} VersionOfLogin(sent: seq<ClientCommand>, i: nat)
    requires Run(PreAuth, sent).Some?
    ensures i < |sent| && sent[i].Login? ==> VersionIn(sent) == DetectVersion(sent[i].clientVersion)
    ensures (forall k :: 0 <= k < |sent| ==> !sent[k].Login?) ==> VersionIn(sent) == LegacyV382
    decreases |sent|
  {
    if sent != [] {
      var front, last := sent[..|sent| - 1], sent[|sent| - 1];
      assert sent == front + [last];
      RunSnoc(PreAuth, front, last);
      OneLoginAndLogoutIsLast(sent);
      VersionOfLogin(front, i);
    }
  }

  /** What a connection enqueues of its frames: a frame's command joins those before it exactly if the
      limiter granted the frame, the frame carries a command under the version those before lead to,
      and the whole is still an accepted sequence. */
  function Told(env: Env, frames: seq<seq<Byte>>): seq<ClientCommand>
    decreases |frames|
  {
    if frames == [] then []
    else
      var n := |frames| - 1;
      var before := Told(env, frames[..n]);
      var c := CarriedBy(env, frames[n], VersionIn(before));
      if env.grants(n) && c.Some? && Run(PreAuth, before + [c.value]).Some? then before + [c.value] else before
  }

  lemma {:induction false} EnqueuedAreTold(env: Env, frames: seq<seq<Byte>>)
    ensures var peer := HandleFrames(env, FRESH, frames);
            && peer.sent == Told(env, frames) && peer.seen == |frames|
            && Run(PreAuth, peer.sent) == Some(peer.phase) && peer.version == VersionIn(peer.sent)
    decreases |frames|
  {
    if frames != [] {
      var n := |frames| - 1;
      var peer := HandleFrames(env, FRESH, frames[..n]);
      EnqueuedAreTold(env, frames[..n]);
      assert frames == frames[..n] + [frames[n]];
      HandleFramesAppend(env, FRESH, frames[..n], [frames[n]]);
      FrameIsEnqueuedIff(env, peer, frames[n]);
      var c := CarriedBy(env, frames[n], peer.version);
      if c.Some? {
        RunSnoc(PreAuth, peer.sent, c.value);
      }
    }
  }

  /** The commands of the frames the limiter granted, in order, under one version. */
  function Granted(env: Env, frames: seq<seq<Byte>>): seq<ClientCommand>
    decreases |frames|
  {
    if frames == [] then []
    else
      var n := |frames| - 1;
      var c := CarriedBy(env, frames[n], LegacyV382);
      Granted(env, frames[..n]) + if env.grants(n) && c.Some? then [c.value] else []
  }

  /** Where the parser knows but one version, a connection enqueues what it is offered. */
  lemma {:induction false} ToldIsOffer(env: Env, frames: seq<seq<Byte>>)
    requires forall packet, v :: env.parse(packet, v) == env.parse(packet, LegacyV382)
    ensures Told(env, frames) == Offer(PreAuth, Granted(env, frames))
    decreases |frames|
  {
    if frames != [] {
      var n := |frames| - 1;
      ToldIsOffer(env, frames[..n]);
      var before, c := Told(env, frames[..n]), CarriedBy(env, frames[n], LegacyV382);
      assert CarriedBy(env, frames[n], VersionIn(before)) == c;
      if env.grants(n) && c.Some? {
        OfferSnoc(PreAuth, Granted(env, frames[..n]), c.value);
        assert before + [] == before;
      } else {
        assert Granted(env, frames[..n]) + [] == Granted(env, frames[..n]);
      }
    }
  }

  /** A connection's commands, phase and version, told from the bytes it reads, however they come. */
  lemma EnqueuedFromBytes(env: Env, chunks: seq<seq<Byte>>)
    ensures var peer, frames := ReadAll(env, FRESH, [], chunks).0, Split(Flatten(chunks)).frames;
            && peer.sent == Told(env, frames) && peer.seen == |frames|
            && Run(PreAuth, peer.sent) == Some(peer.phase) && peer.version == VersionIn(peer.sent)
            && ((forall packet, v :: env.parse(packet, v) == env.parse(packet, LegacyV382)) ==>
                  peer.sent == Offer(PreAuth, Granted(env, frames)))
  {
    SessionIgnoresChunking(env, chunks, chunks);
    var frames := Split(Flatten(chunks)).frames;
    EnqueuedAreTold(env, frames);
    if forall packet, v :: env.parse(packet, v) == env.parse(packet, LegacyV382) {
      ToldIsOffer(env, frames);
    }
  }

  // ------------------------------------------------------------- the version announced

  /** The token stands at a place of the text, in small letters or capitals. */
  predicate StandsAt(s: string, token: string, at: nat) {
    at + |token| <= |s| && forall i :: 0 <= i < |token| ==> SameLetter(s[at + i], token[i])
  }

  predicate SameLetter(c: char, small: char) {
    c == small || ('a' <= small <= 'z' && c as int == small as int - 32)
  }

  predicate OccursAt(s: string, token: string, at: nat) {
    at + |token| <= |s| && s[at..at + |token|] == token
  }

  lemma {:induction false} ContainsMeans(s: string, token: string)
    ensures Contains(s, token) <==> exists at :: OccursAt(s, token, at)
    decreases |s|
  {
    if |token| <= |s| {
      if token <= s {
        assert OccursAt(s, token, 0);
      } else if s != [] {
        ContainsMeans(s[1..], token);
        if at: nat :| OccursAt(s[1..], token, at) {
          assert s[1..][at..at + |token|] == s[at + 1..at + 1 + |token|];
          assert OccursAt(s, token, at + 1);
        }
        if at: nat :| OccursAt(s, token, at) {
          assert at > 0;
          assert s[1..][at - 1..at - 1 + |token|] == s[at..at + |token|];
          assert OccursAt(s[1..], token, at - 1);
        }
      }
    }
  }

  lemma LowerStandsAt(s: string, token: string, at: nat)
    requires forall i :: 0 <= i < |token| ==> 'a' <= token[i] <= 'z'
    ensures OccursAt(Lower(s), token, at) <==> StandsAt(s, token, at)
  {
    if at + |token| <= |s| {
      var part := Lower(s)[at..at + |token|];
      assert forall i :: 0 <= i < |token| ==> (part[i] == token[i] <==> SameLetter(s[at + i], token[i]));
    }
  }

  lemma TokenMeans(s: string, token: string)
    requires forall i :: 0 <= i < |token| ==> 'a' <= token[i] <= 'z'
    ensures Contains(Lower(s), token) <==> exists at :: StandsAt(s, token, at)
  {
    ContainsMeans(Lower(s), token);
    forall at: nat
      ensures OccursAt(Lower(s), token, at) <==> StandsAt(s, token, at)
    {
      LowerStandsAt(s, token, at);
    }
  }

  /** The modern protocol is announced by either token, anywhere in the text, in any letter case. */
  lemma ModernIffAnnounced(clientVersion: string)
    ensures DetectVersion(clientVersion) == ModernV400
       <==> (exists at :: StandsAt(clientVersion, "modern", at)) || (exists at :: StandsAt(clientVersion, "xtreme", at))
  {
    TokenMeans(clientVersion, "modern");
    TokenMeans(clientVersion, "xtreme");
  }
}
