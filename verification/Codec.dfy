/** The run-length payload codec of crates/net and its XOR stream. */
module Codec {
  import opened Wrappers

  datatype CodecError = MalformedCompressionStream | DecompressedPayloadTooLarge

  const ESCAPE: Byte := 0xFF

  // ---------------------------------------------------------------- compression

  /** Length of the run of equal bytes that starts at idx, looking at no more than `cap` of them. */
  function RunAt(p: seq<Byte>, idx: nat, cap: nat): (n: nat)
    requires idx <= |p|
    ensures n <= cap && idx + n <= |p| && (n == 0 <==> idx == |p| || cap == 0)
    decreases |p| - idx
  {
    if idx == |p| || cap == 0 then 0
    else if cap > 1 && idx + 1 < |p| && p[idx + 1] == p[idx] then 1 + RunAt(p, idx + 1, cap - 1)
    else 1
  }

  lemma {:induction false} RunAtIsMaximal(p: seq<Byte>, idx: nat, cap: nat)
    requires idx < |p| && cap >= 1
    ensures var n := RunAt(p, idx, cap);
            && (forall i :: idx <= i < idx + n ==> p[i] == p[idx])
            && (n < cap && idx + n < |p| ==> p[idx + n] != p[idx])
    decreases |p| - idx
  {
    if cap > 1 && idx + 1 < |p| && p[idx + 1] == p[idx] {
      RunAtIsMaximal(p, idx + 1, cap - 1);
    }
  }

  lemma RunAtIsUnique(p: seq<Byte>, idx: nat, cap: nat, n: nat)
    requires idx < |p| && 1 <= n <= cap && idx + n <= |p|
    requires forall i :: idx <= i < idx + n ==> p[i] == p[idx]
    requires n < cap && idx + n < |p| ==> p[idx + n] != p[idx]
    ensures RunAt(p, idx, cap) == n
  {
    RunAtIsMaximal(p, idx, cap);
  }

  /** What one run of at most 255 bytes is written as. */
  function Token(value: Byte, run: nat): (t: seq<Byte>)
    requires 1 <= run <= 255
    ensures |t| == TokenLength(value, run)
  {
    if run >= 4 || value == ESCAPE then [ESCAPE, run, value] else Repeat(value, run)
  }

  function TokenLength(value: Byte, run: nat): nat {
    if value == ESCAPE then 3 else Min(run, 3)
  }

  /** What the bytes from idx on are written as. */
  function CompressedFrom(p: seq<Byte>, idx: nat): seq<Byte>
    requires idx <= |p|
    decreases |p| - idx
  {
    if idx == |p| then []
    else
      var run := RunAt(p, idx, 255);
      Token(p[idx], run) + CompressedFrom(p, idx + run)
  }

  function Compressed(p: seq<Byte>): seq<Byte> {
    CompressedFrom(p, 0)
  }

  method Compress(payload: seq<Byte>) returns (out: seq<Byte>)
    ensures out == Compressed(payload)
  {
    if payload == [] {
      return [];
    }
    out := [];
    var idx := 0;
    while idx < |payload|
      invariant 0 <= idx <= |payload|
      invariant Emitted(payload, idx, out)
    {
      var byte := payload[idx];
      var run := 1;
      while idx + run < |payload| && payload[idx + run] == byte && run < 255
        invariant 1 <= run <= 255 && idx + run <= |payload|
        invariant forall i :: idx <= i < idx + run ==> payload[i] == byte
      {
        run := run + 1;
      }
      RunAtIsUnique(payload, idx, 255, run);
      var token := WriteToken(byte, run);
      EmitToken(payload, idx, token, out);
      out := out + token;
      idx := idx + run;
    }
  }

  /** What has been written, followed by what the unread bytes compress to, is the whole output. */
  ghost predicate Emitted(p: seq<Byte>, idx: nat, out: seq<Byte>)
    requires idx <= |p|
  {
    Compressed(p) == out + CompressedFrom(p, idx)
  }

  lemma EmitToken(p: seq<Byte>, idx: nat, token: seq<Byte>, out: seq<Byte>)
    requires idx < |p| && token == Token(p[idx], RunAt(p, idx, 255)) && Emitted(p, idx, out)
    ensures Emitted(p, idx + RunAt(p, idx, 255), out + token)
  {
    Associative(out, token, CompressedFrom(p, idx + RunAt(p, idx, 255)));
  }

  /** The tail of the outer loop's body: an escape triple, or the bytes one by one. */
  method WriteToken(byte: Byte, run: nat) returns (token: seq<Byte>)
    requires 1 <= run <= 255
    ensures token == Token(byte, run)
  {
    if run >= 4 || byte == ESCAPE {
      token := [ESCAPE, run, byte];
    } else {
      token := AppendCopies([], byte, run);
    }
  }

  method AppendCopies(start: seq<Byte>, value: Byte, count: nat) returns (out: seq<Byte>)
    ensures out == start + Repeat(value, count)
    ensures start == [] ==> out == Repeat(value, count)
  {
    out := start;
    for n := 0 to count
      invariant out == start + Repeat(value, n)
    {
      out := out + [value];
    }
  }

  // -------------------------------------------------------------- decompression

  /** The bytes a stream stands for, with room for at most `room` of them. */
  function Inflate(s: seq<Byte>, room: nat): Result<seq<Byte>, CodecError>
    decreases |s|
  {
    if s == [] then Ok([])
    else if s[0] != ESCAPE then
      if room < 1 then Err(DecompressedPayloadTooLarge)
      else Prepend([s[0]], Inflate(s[1..], room - 1))
    else if |s| < 3 || s[1] == 0 then Err(MalformedCompressionStream)
    else if s[1] > room then Err(DecompressedPayloadTooLarge)
    else Prepend(Repeat(s[2], s[1]), Inflate(s[3..], room - s[1]))
  }

  function Prepend(head: seq<Byte>, r: Result<seq<Byte>, CodecError>): Result<seq<Byte>, CodecError> {
    match r
    case Ok(tail) => Ok(head + tail)
    case Err(e) => Err(e)
  }

  lemma PrependTwice(a: seq<Byte>, b: seq<Byte>, r: Result<seq<Byte>, CodecError>)
    ensures Prepend(a, Prepend(b, r)) == Prepend(a + b, r)
  {
    if r.Ok? {
      assert a + (b + r.value) == a + b + r.value;
    }
  }

  lemma PrependNothing(r: Result<seq<Byte>, CodecError>)
    ensures Prepend([], r) == r
  {
    if r.Ok? {
      assert [] + r.value == r.value;
    }
  }

  method Decompress(payload: seq<Byte>, maxOutput: nat) returns (r: Result<seq<Byte>, CodecError>)
    ensures r == Inflate(payload, maxOutput)
  {
    var out: seq<Byte> := [];
    var idx := 0;
    assert payload[0..] == payload;
    PrependNothing(Inflate(payload, maxOutput));
    while idx < |payload|
      invariant 0 <= idx <= |payload| && |out| <= maxOutput
      invariant Inflate(payload, maxOutput) == Prepend(out, Inflate(payload[idx..], maxOutput - |out|))
    {
      ghost var here := payload[idx..];
      ghost var before := out;
      if payload[idx] != ESCAPE {
        out := out + [payload[idx]];
        if |out| > maxOutput {
          return Err(DecompressedPayloadTooLarge);
        }
        assert here[1..] == payload[idx + 1..];
        PrependTwice(before, [payload[idx]], Inflate(here[1..], maxOutput - |out|));
        idx := idx + 1;
        continue;
      }
      if idx + 2 >= |payload| {
        return Err(MalformedCompressionStream);
      }
      var count := payload[idx + 1];
      var value := payload[idx + 2];
      if count == 0 {
        return Err(MalformedCompressionStream);
      }
      if |out| + count > maxOutput {
        return Err(DecompressedPayloadTooLarge);
      }
      out := AppendCopies(out, value, count);
      assert here[3..] == payload[idx + 3..];
      PrependTwice(before, Repeat(value, count), Inflate(here[3..], maxOutput - |out|));
      idx := idx + 3;
    }
    assert payload[idx..] == [];
    r := Ok(out);
    assert out + [] == out;
  }

  // ------------------------------------------------------ streams as pieces

  /** One piece of a stream: a byte other than 0xFF, or 0xFF, a count from 1 to 255 and a value. */
  datatype Piece = Literal(byte: Byte) | Copies(count: nat, value: Byte)

  predicate ValidPiece(x: Piece) {
    match x
    case Literal(b) => b != 0xFF
    case Copies(n, _) => 1 <= n <= 255
  }

  predicate ValidPieces(pieces: seq<Piece>) {
    forall i :: 0 <= i < |pieces| ==> ValidPiece(pieces[i])
  }

  function SpellPiece(x: Piece): seq<Byte>
    requires ValidPiece(x)
  {
    match x
    case Literal(b) => [b]
    case Copies(n, v) => [0xFF, n, v]
  }

  function MeaningOf(x: Piece): seq<Byte> {
    match x
    case Literal(b) => [b]
    case Copies(n, v) => Repeat(v, n)
  }

  function Spelling(pieces: seq<Piece>): seq<Byte>
    requires ValidPieces(pieces)
  {
    if pieces == [] then [] else SpellPiece(pieces[0]) + Spelling(pieces[1..])
  }

  function Meaning(pieces: seq<Piece>): seq<Byte> {
    if pieces == [] then [] else MeaningOf(pieces[0]) + Meaning(pieces[1..])
  }

  /** A stream that begins with 0xFF but not with a piece. */
  predicate IsMalformed(s: seq<Byte>) {
    s != [] && s[0] == 0xFF && (|s| < 3 || s[1] == 0)
  }

  /** A stream that begins with a piece for which there is no room. */
  predicate IsTooLarge(s: seq<Byte>, room: int) {
    s != [] && if s[0] == 0xFF then |s| >= 3 && s[1] > 0 && s[1] > room else room < 1
  }

  lemma InflatePiece(x: Piece, rest: seq<Byte>, room: nat)
    requires ValidPiece(x) && |MeaningOf(x)| <= room
    ensures Inflate(SpellPiece(x) + rest, room) == Prepend(MeaningOf(x), Inflate(rest, room - |MeaningOf(x)|))
  {
    assert (SpellPiece(x) + rest)[|SpellPiece(x)|..] == rest;
  }

  lemma {:induction false} InflatePieces(pieces: seq<Piece>, rest: seq<Byte>, room: nat)
    requires ValidPieces(pieces) && |Meaning(pieces)| <= room
    ensures Inflate(Spelling(pieces) + rest, room) == Prepend(Meaning(pieces), Inflate(rest, room - |Meaning(pieces)|))
    decreases |pieces|
  {
    if pieces == [] {
      assert [] + rest == rest;
      PrependNothing(Inflate(rest, room));
    } else {
      var x, more := pieces[0], pieces[1..];
      var left := room - |MeaningOf(x)|;
      assert Spelling(pieces) + rest == SpellPiece(x) + (Spelling(more) + rest);
      InflatePiece(x, Spelling(more) + rest, room);
      InflatePieces(more, rest, left);
      PrependTwice(MeaningOf(x), Meaning(more), Inflate(rest, left - |Meaning(more)|));
    }
  }

  /** However a stream is cut into pieces that fit the limit and a rest: if the rest is empty it
      decodes to what the pieces mean, if the rest begins with a malformed or an oversized piece the
      decoder fails with that error. */
  lemma DecodedByPieces(pieces: seq<Piece>, rest: seq<Byte>, room: nat)
    requires ValidPieces(pieces) && |Meaning(pieces)| <= room
    ensures rest == [] ==> Inflate(Spelling(pieces) + rest, room) == Ok(Meaning(pieces))
    ensures IsMalformed(rest) ==> Inflate(Spelling(pieces) + rest, room) == Err(MalformedCompressionStream)
    ensures IsTooLarge(rest, room - |Meaning(pieces)|) ==>
              Inflate(Spelling(pieces) + rest, room) == Err(DecompressedPayloadTooLarge)
  {
    InflatePieces(pieces, rest, room);
    assert Meaning(pieces) + [] == Meaning(pieces);
  }

  lemma HeadPiece(s: seq<Byte>, x: Piece)
    requires s != [] && !IsMalformed(s) && x == if s[0] == 0xFF then Copies(s[1], s[2]) else Literal(s[0])
    ensures ValidPiece(x) && |SpellPiece(x)| <= |s| && SpellPiece(x) + s[|SpellPiece(x)|..] == s
  {
  }

  lemma {:induction false} ConsPiece(x: Piece, more: seq<Piece>)
    requires ValidPiece(x) && ValidPieces(more)
    ensures ValidPieces([x] + more) && Spelling([x] + more) == SpellPiece(x) + Spelling(more)
    ensures |Meaning([x] + more)| == |MeaningOf(x)| + |Meaning(more)|
  {
    assert ([x] + more)[1..] == more;
  }

  /** And every stream can be cut in one of these three ways. */
  lemma {:induction false} EveryStreamHasPieces(s: seq<Byte>, room: nat) returns (pieces: seq<Piece>, rest: seq<Byte>)
    ensures ValidPieces(pieces) && Spelling(pieces) + rest == s && |Meaning(pieces)| <= room
    ensures rest == [] || IsMalformed(rest) || IsTooLarge(rest, room - |Meaning(pieces)|)
    decreases |s|
  {
    if s == [] || IsMalformed(s) || IsTooLarge(s, room) {
      pieces, rest := [], s;
      assert [] + s == s;
    } else {
      var x := if s[0] == 0xFF then Copies(s[1], s[2]) else Literal(s[0]);
      var size := |SpellPiece(x)|;
      var more;
      more, rest := EveryStreamHasPieces(s[size..], room - |MeaningOf(x)|);
      pieces := [x] + more;
      ConsPiece(x, more);
      HeadPiece(s, x);
      Associative(SpellPiece(x), Spelling(more), rest);
    }
  }

  // ----------------------------------------------------------------- round trip

  /** A block of literals inflates to itself, one unit of room per byte. */
  lemma {:induction false} InflateLiterals(v: Byte, n: nat, rest: seq<Byte>, room: nat)
    requires v != ESCAPE
    ensures Inflate(Repeat(v, n) + rest, room)
         == if n <= room then Prepend(Repeat(v, n), Inflate(rest, room - n))
            else Err(DecompressedPayloadTooLarge)
    decreases n
  {
    if n == 0 {
      assert Repeat(v, 0) + rest == rest;
      assert Repeat(v, 0) == [];
      PrependNothing(Inflate(rest, room));
    } else {
      PeelLiteral(v, n, rest);
      if room >= 1 {
        InflateLiterals(v, n - 1, rest, room - 1);
        if n <= room {
          PrependTwice([v], Repeat(v, n - 1), Inflate(rest, room - n));
        }
      }
    }
  }

  lemma PeelLiteral(v: Byte, n: nat, rest: seq<Byte>)
    requires n >= 1
    ensures var all := Repeat(v, n) + rest;
            all != [] && all[0] == v && all[1..] == Repeat(v, n - 1) + rest
    ensures [v] + Repeat(v, n - 1) == Repeat(v, n)
  {
  }

  lemma InflateToken(v: Byte, n: nat, rest: seq<Byte>, room: nat)
    requires 1 <= n <= 255
    ensures Inflate(Token(v, n) + rest, room)
         == if n <= room then Prepend(Repeat(v, n), Inflate(rest, room - n))
            else Err(DecompressedPayloadTooLarge)
  {
    if n >= 4 || v == ESCAPE {
      assert ([ESCAPE, n, v] + rest)[3..] == rest;
    } else {
      InflateLiterals(v, n, rest, room);
    }
  }

  lemma HeadRun(p: seq<Byte>, idx: nat, run: nat)
    requires idx < |p| && idx + run <= |p|
    requires forall i :: idx <= i < idx + run ==> p[i] == p[idx]
    ensures Prepend(Repeat(p[idx], run), Ok(p[idx + run..])) == Ok(p[idx..])
  {
    assert Repeat(p[idx], run) + p[idx + run..] == p[idx..];
  }

  lemma {:induction false} RoundTripFrom(p: seq<Byte>, idx: nat, enc: seq<Byte>, room: nat)
    requires idx <= |p| && enc == CompressedFrom(p, idx)
    ensures Inflate(enc, room)
         == if |p| - idx <= room then Ok(p[idx..]) else Err(DecompressedPayloadTooLarge)
    decreases |p| - idx
  {
    if idx == |p| {
      assert p[idx..] == [];
    } else {
      var run := RunAt(p, idx, 255);
      var next := CompressedFrom(p, idx + run);
      InflateToken(p[idx], run, next, room);
      if run <= room {
        RoundTripFrom(p, idx + run, next, room - run);
        RunAtIsMaximal(p, idx, 255);
        HeadRun(p, idx, run);
      }
    }
  }

  /** Decompression undoes compression exactly when the output limit admits the payload. */
  lemma RoundTrip(p: seq<Byte>, room: nat)
    ensures Inflate(Compressed(p), room)
         == if |p| <= room then Ok(p) else Err(DecompressedPayloadTooLarge)
  {
    RoundTripFrom(p, 0, Compressed(p), room);
    assert p[0..] == p;
  }

  // ----------------------------------------------------------------- optimality

  /** The compressed length of the bytes from idx on. */
  function LengthFrom(p: seq<Byte>, idx: nat): nat
    requires idx <= |p|
    decreases |p| - idx
  {
    if idx == |p| then 0
    else
      var run := RunAt(p, idx, 255);
      TokenLength(p[idx], run) + LengthFrom(p, idx + run)
  }

  lemma {:induction false} LengthOfCompressed(p: seq<Byte>, idx: nat)
    requires idx <= |p|
    ensures |CompressedFrom(p, idx)| == LengthFrom(p, idx)
    decreases |p| - idx
  {
    if idx < |p| {
      LengthOfCompressed(p, idx + RunAt(p, idx, 255));
    }
  }

  /** Bytes spent on one maximal run of r equal bytes. */
  function RunCost(v: Byte, r: nat): nat {
    if v == 0xFF then 3 * ((r + 254) / 255) else 3 * (r / 255) + Min(r % 255, 3)
  }

  lemma RunCostOfToken(v: Byte, r: nat)
    requires 1 <= r <= 255
    ensures RunCost(v, r) == TokenLength(v, r)
  {
  }

  lemma RunCostAfterFullToken(v: Byte, r: nat)
    requires r >= 255
    ensures RunCost(v, r) == 3 + RunCost(v, r - 255)
  {
    assert r / 255 == (r - 255) / 255 + 1;
    assert (r + 254) / 255 == (r - 255 + 254) / 255 + 1;
  }

  lemma RunCostBySteps(v: Byte, r: nat, k: nat)
    requires 1 <= k <= r && k <= 255
    ensures RunCost(v, r) <= 3 + RunCost(v, r - k)
    ensures k == 1 && v != ESCAPE ==> RunCost(v, r) <= 1 + RunCost(v, r - 1)
  {
    var a, b := r / 255, (r - k) / 255;
    assert a == b || a == b + 1;
  }

  /** The whole run at idx, however long. */
  function MaximalRun(p: seq<Byte>, idx: nat): nat
    requires idx <= |p|
  {
    RunAt(p, idx, |p|)
  }

  /** A position inside a maximal run starts what is left of that run. */
  lemma RestOfRun(p: seq<Byte>, idx: nat, k: nat)
    requires idx < |p| && k < MaximalRun(p, idx)
    ensures p[idx + k] == p[idx] && MaximalRun(p, idx + k) == MaximalRun(p, idx) - k
  {
    RunAtIsMaximal(p, idx, |p|);
    RunAtIsUnique(p, idx + k, |p|, MaximalRun(p, idx) - k);
  }

  lemma FirstToken(p: seq<Byte>, idx: nat)
    requires idx < |p|
    ensures RunAt(p, idx, 255) == Min(255, MaximalRun(p, idx))
  {
    RunAtIsMaximal(p, idx, |p|);
    RunAtIsUnique(p, idx, 255, Min(255, MaximalRun(p, idx)));
  }

  /** The compressed length is the sum, over the maximal runs, of the cost of each. */
  lemma {:induction false} LengthByMaximalRuns(p: seq<Byte>, idx: nat)
    requires idx < |p|
    ensures LengthFrom(p, idx)
         == RunCost(p[idx], MaximalRun(p, idx)) + LengthFrom(p, idx + MaximalRun(p, idx))
    decreases |p| - idx
  {
    var r := MaximalRun(p, idx);
    FirstToken(p, idx);
    RunCostOfToken(p[idx], Min(255, r));
    if r > 255 {
      RestOfRun(p, idx, 255);
      LengthByMaximalRuns(p, idx + 255);
      RunCostAfterFullToken(p[idx], r);
    }
  }

  lemma CostAfterDrop(p: seq<Byte>, idx: nat, k: nat)
    requires idx < |p| && k <= MaximalRun(p, idx)
    ensures LengthFrom(p, idx + k)
         == RunCost(p[idx], MaximalRun(p, idx) - k) + LengthFrom(p, idx + MaximalRun(p, idx))
  {
    if k < MaximalRun(p, idx) {
      RestOfRun(p, idx, k);
      LengthByMaximalRuns(p, idx + k);
    }
  }

  lemma PrefixWithinRun(p: seq<Byte>, idx: nat, k: nat)
    requires 1 <= k && idx + k <= |p| && forall i :: idx <= i < idx + k ==> p[i] == p[idx]
    ensures k <= MaximalRun(p, idx)
  {
    RunAtIsMaximal(p, idx, |p|);
  }

  /** Skipping k copies of the byte at idx saves at most what one token costs. */
  lemma DropFromRun(p: seq<Byte>, idx: nat, k: nat)
    requires idx < |p| && 1 <= k <= 255 && k <= MaximalRun(p, idx)
    ensures LengthFrom(p, idx) <= 3 + LengthFrom(p, idx + k)
    ensures k == 1 && p[idx] != ESCAPE ==> LengthFrom(p, idx) <= 1 + LengthFrom(p, idx + 1)
  {
    var v, r := p[idx], MaximalRun(p, idx);
    LengthByMaximalRuns(p, idx);
    CostAfterDrop(p, idx, k);
    RunCostBySteps(v, r, k);
  }

  lemma PeelHead(p: seq<Byte>, idx: nat, v: Byte, k: nat, tail: seq<Byte>)
    requires idx <= |p| && k >= 1 && p[idx..] == Repeat(v, k) + tail
    ensures idx + k <= |p| && tail == p[idx + k..]
    ensures forall i :: idx <= i < idx + k ==> p[i] == v
  {
    var rest := p[idx..];
    assert |rest| == k + |tail|;
    assert forall i :: idx <= i < idx + k ==> p[i] == rest[i - idx] == v;
    assert rest[k..] == p[idx + k..];
  }

  lemma {:induction false} OptimalFrom(p: seq<Byte>, idx: nat, e: seq<Byte>, room: nat)
    requires idx <= |p| && Inflate(e, room) == Ok(p[idx..])
    ensures LengthFrom(p, idx) <= |e|
    decreases |e|
  {
    if e == [] {
      assert |p[idx..]| == 0;
    } else if e[0] != ESCAPE {
      var tail := Inflate(e[1..], room - 1).value;
      assert [e[0]] == Repeat(e[0], 1);
      PeelHead(p, idx, e[0], 1, tail);
      OptimalFrom(p, idx + 1, e[1..], room - 1);
      PrefixWithinRun(p, idx, 1);
      DropFromRun(p, idx, 1);
    } else {
      var k := e[1];
      var tail := Inflate(e[3..], room - k).value;
      PeelHead(p, idx, e[2], k, tail);
      OptimalFrom(p, idx + k, e[3..], room - k);
      PrefixWithinRun(p, idx, k);
      DropFromRun(p, idx, k);
    }
  }

  /** No stream that decompresses to p, under any limit, is shorter than the compressor's. */
  lemma Optimal(p: seq<Byte>, e: seq<Byte>, room: nat)
    requires Inflate(e, room) == Ok(p)
    ensures |Compressed(p)| <= |e|
  {
    assert p[0..] == p;
    OptimalFrom(p, 0, e, room);
    LengthOfCompressed(p, 0);
  }

  function Escapes(p: seq<Byte>): nat {
    if p == [] then 0 else (if p[0] == ESCAPE then 1 else 0) + Escapes(p[1..])
  }

  /** Spelling every byte out on its own: one byte each, three for an escape. */
  function Spelled(p: seq<Byte>): seq<Byte> {
    if p == [] then [] else Token(p[0], 1) + Spelled(p[1..])
  }

  lemma {:induction false} SpelledInflates(p: seq<Byte>)
    ensures Inflate(Spelled(p), |p|) == Ok(p)
    ensures |Spelled(p)| == |p| + 2 * Escapes(p)
  {
    if p != [] {
      SpelledInflates(p[1..]);
      InflateToken(p[0], 1, Spelled(p[1..]), |p|);
      assert Repeat(p[0], 1) + p[1..] == p;
    }
  }

  /** Expansion is bounded by two bytes for each 0xFF in the payload. */
  lemma ExpansionBound(p: seq<Byte>)
    ensures |Compressed(p)| <= |p| + 2 * Escapes(p)
  {
    SpelledInflates(p);
    Optimal(p, Spelled(p), |p|);
  }

  // ------------------------------------------------------- what compression leaves alone

  /** No 0xFF from idx on, and no byte four times in a row. */
  ghost predicate IsPlain(p: seq<Byte>, idx: nat) {
    forall i :: idx <= i < |p| ==> IsPlainAt(p, i)
  }

  predicate IsPlainAt(p: seq<Byte>, i: nat)
    requires i < |p|
  {
    p[i] != 0xFF && !(i + 3 < |p| && p[i] == p[i + 1] == p[i + 2] == p[i + 3])
  }

  lemma PlainRun(p: seq<Byte>, idx: nat)
    requires idx < |p|
    ensures IsPlain(p, idx) <==> RunAt(p, idx, 255) < 4 && p[idx] != 0xFF && IsPlain(p, idx + RunAt(p, idx, 255))
  {
    var n := RunAt(p, idx, 255);
    RunAtIsMaximal(p, idx, 255);
    if n >= 4 || p[idx] == 0xFF {
      assert !IsPlainAt(p, idx);
    } else if IsPlain(p, idx + n) {
      forall i | idx <= i < |p|
        ensures IsPlainAt(p, i)
      {
        if i < idx + n && i + 3 < |p| {
          assert p[idx + n] != p[idx];
          assert idx + n == i + 1 || idx + n == i + 2 || idx + n == i + 3;
        }
      }
    }
  }

  lemma TokenIsPlain(v: Byte, n: nat)
    requires 1 <= n <= 255
    ensures if n < 4 && v != 0xFF then Token(v, n) == Repeat(v, n) && 0xFF !in Token(v, n) else 0xFF in Token(v, n)
  {
    assert n >= 4 || v == 0xFF ==> Token(v, n)[0] == 0xFF;
  }

  lemma {:induction false} TokenEscapes(p: seq<Byte>, idx: nat, n: nat)
    requires idx < |p| && n == RunAt(p, idx, 255)
    ensures 0xFF in CompressedFrom(p, idx) <==> n >= 4 || p[idx] == 0xFF || 0xFF in CompressedFrom(p, idx + n)
  {
    var token, later := Token(p[idx], n), CompressedFrom(p, idx + n);
    assert CompressedFrom(p, idx) == token + later;
    assert 0xFF in token + later <==> 0xFF in token || 0xFF in later;
    TokenIsPlain(p[idx], n);
  }

  /** The compressor's output has an escape exactly if the payload has a 0xFF or a byte four times in
      a row. */
  lemma {:induction false} EscapesUnlessPlain(p: seq<Byte>, idx: nat)
    requires idx <= |p|
    ensures 0xFF in CompressedFrom(p, idx) <==> !IsPlain(p, idx)
    decreases |p| - idx
  {
    if idx < |p| {
      var n := RunAt(p, idx, 255);
      PlainRun(p, idx);
      TokenEscapes(p, idx, n);
      EscapesUnlessPlain(p, idx + n);
    }
  }

  lemma {:induction false} RunStays(p: seq<Byte>, idx: nat, n: nat)
    requires idx < |p| && n == RunAt(p, idx, 255) < 4 && p[idx] != 0xFF
    requires CompressedFrom(p, idx + n) == p[idx + n..]
    ensures CompressedFrom(p, idx) == p[idx..]
  {
    TokenIsPlain(p[idx], n);
    RunAtIsMaximal(p, idx, 255);
    HeadRun(p, idx, n);
    assert CompressedFrom(p, idx) == Repeat(p[idx], n) + p[idx + n..];
  }

  /** Every other payload comes out as it is. */
  lemma {:induction false} PlainStays(p: seq<Byte>, idx: nat)
    requires idx <= |p| && IsPlain(p, idx)
    ensures CompressedFrom(p, idx) == p[idx..]
    decreases |p| - idx
  {
    if idx < |p| {
      var n := RunAt(p, idx, 255);
      PlainRun(p, idx);
      PlainStays(p, idx + n);
      RunStays(p, idx, n);
    }
  }

  // ------------------------------------------------------------------ XOR stream

  function Pow2(n: nat): nat {
    if n == 0 then 1 else 2 * Pow2(n - 1)
  }

  /** Bitwise exclusive or of the low `width` bits. */
  function XorBits(a: nat, b: nat, width: nat): (r: nat)
    ensures r < Pow2(width)
    decreases width
  {
    if width == 0 then 0 else (a + b) % 2 + 2 * XorBits(a / 2, b / 2, width - 1)
  }

  function Xor(a: Byte, b: Byte): Byte {
    assert Pow2(8) == 256;
    XorBits(a, b, 8)
  }

  /** seed + idx * 31, both truncated to a byte as the wrapping operations do. */
  function StreamKey(seed: Byte, idx: nat): Byte {
    (seed + (idx % 256) * 31) % 256
  }

  function Obfuscated(p: seq<Byte>, seed: Byte): (r: seq<Byte>)
    ensures |r| == |p|
  {
    seq(|p|, i requires 0 <= i < |p| => Xor(p[i], StreamKey(seed, i)))
  }

  function Bit(n: nat, k: nat): nat
    decreases k
  {
    if k == 0 then n % 2 else Bit(n / 2, k - 1)
  }

  /** A bit of the exclusive or is set exactly where the two arguments differ. */
  lemma {:induction false} XorBit(a: nat, b: nat, width: nat, k: nat)
    requires k < width
    ensures Bit(XorBits(a, b, width), k) == if Bit(a, k) != Bit(b, k) then 1 else 0
    decreases width
  {
    LowBitOfSum(a, b, XorBits(a / 2, b / 2, width - 1));
    if k > 0 {
      XorBit(a / 2, b / 2, width - 1, k - 1);
    }
  }

  lemma LowBitOfSum(a: nat, b: nat, high: nat)
    ensures ((a + b) % 2 + 2 * high) % 2 == (if a % 2 != b % 2 then 1 else 0)
    ensures ((a + b) % 2 + 2 * high) / 2 == high
  {
  }

  lemma NextLowByte(idx: nat)
    ensures (idx + 1) % 256 == if idx % 256 == 255 then 0 else idx % 256 + 1
  {
  }

  lemma SumModulo(a: nat, b: nat)
    ensures (a + b) % 256 == (a % 256 + b) % 256
  {
  }

  /** The key is the seed at first, and 31 more, modulo 256, at each next byte. */
  lemma StreamKeySteps(seed: Byte, idx: nat)
    ensures StreamKey(seed, 0) == seed
    ensures StreamKey(seed, idx + 1) == (StreamKey(seed, idx) + 31) % 256
  {
    var low := idx % 256;
    NextLowByte(idx);
    assert (low + 1) * 31 == low * 31 + 31;
    if low == 255 {
      assert low * 31 == 30 * 256 + 225;
    }
    SumModulo(seed + low * 31, 31);
  }

  /** Bit by bit: what goes out differs from the payload exactly in the bits of the key. */
  lemma ObfuscatedBit(p: seq<Byte>, seed: Byte, i: nat, k: nat)
    requires i < |p| && k < 8
    ensures Bit(Obfuscated(p, seed)[i], k) == if Bit(p[i], k) != Bit(StreamKey(seed, i), k) then 1 else 0
  {
    XorBit(p[i], StreamKey(seed, i), 8, k);
  }

  lemma {:induction false} XorTwice(a: nat, b: nat, width: nat)
    requires a < Pow2(width)
    ensures XorBits(XorBits(a, b, width), b, width) == a
    decreases width
  {
    if width > 0 {
      XorTwice(a / 2, b / 2, width - 1);
      LowBit(a, b, XorBits(a / 2, b / 2, width - 1));
    }
  }

  lemma LowBit(a: nat, b: nat, high: nat)
    ensures ((a + b) % 2 + 2 * high) / 2 == high
    ensures ((a + b) % 2 + 2 * high + b) % 2 == a % 2
  {
  }

  /** The stream is its own inverse under the same seed. */
  lemma ObfuscateTwice(p: seq<Byte>, seed: Byte)
    ensures Obfuscated(Obfuscated(p, seed), seed) == p
  {
    forall i | 0 <= i < |p|
      ensures Obfuscated(Obfuscated(p, seed), seed)[i] == p[i]
    {
      XorTwice(p[i], StreamKey(seed, i), 8);
    }
  }
}
