/**
 Length-prefixed framing: the one-shot parser that says what a byte stream means,
 and the incremental decoder that must agree with it however the bytes are cut.
 */
module Framing {
  import opened Common

  const FRAME_HEADER_LENGTH: nat := 4
  const MAX_UINT32: nat := 0xffff_ffff
  const PAYLOAD_BLOCK_SIZE: nat := 64 * 1024
  const DEFAULT_MAX_FRAME_LENGTH: nat := 16 * 1024 * 1024

  type byte = b: int | 0 <= b < 256

  datatype FrameError =
    | HasEnded
    | HasFailed
    | TooLong(declared: nat)
    | Truncated
    | BadLimit

  // ---------------------------------------------------------------- wire format

  /** The four big-endian bytes of a length; each shift is truncated to a byte. */
  function LengthOf(h: seq<byte>): (length: nat)
    requires |h| == FRAME_HEADER_LENGTH
    ensures length <= MAX_UINT32
  {
    (h[0] as int) * 0x1_000_000 + (h[1] as int) * 0x1_0000 + (h[2] as int) * 0x100 + h[3] as int
  }

  /** Reads back as the length, for every length that fits. */
  function LengthBytes(length: nat): (h: seq<byte>)
    requires length <= MAX_UINT32
    ensures |h| == FRAME_HEADER_LENGTH && LengthOf(h) == length
  {
    Digits(length);
    [length / 0x1_000_000 % 256, length / 0x1_0000 % 256, length / 0x100 % 256, length % 256]
  }

  lemma Digits(length: nat)
    requires length <= MAX_UINT32
    ensures (length / 0x1_000_000 % 256) * 0x1_000_000 + (length / 0x1_0000 % 256) * 0x1_0000
            + (length / 0x100 % 256) * 0x100 + length % 256 == length
  {
    var q1 := length / 0x100;
    var q2 := q1 / 0x100;
    assert length / 0x1_0000 == q2 && length / 0x1_000_000 == q2 / 0x100;
  }

  lemma LengthBytesOfLength(h: seq<byte>)
    requires |h| == FRAME_HEADER_LENGTH
    ensures LengthBytes(LengthOf(h)) == h
  {
    var n := LengthOf(h);
    var h0, h1, h2: int := h[0], h[1], h[2];
    assert n / 0x100 == h0 * 0x1_0000 + h1 * 0x100 + h2;
    assert n / 0x1_0000 == h0 * 0x100 + h1;
    assert n / 0x1_000_000 == h[0];
  }

  /** One frame on the wire. */
  function Frame(payload: seq<byte>): seq<byte>
    requires |payload| <= MAX_UINT32
  {
    LengthBytes(|payload|) + payload
  }

  /** Several frames, back to back. */
  function Wire(payloads: seq<seq<byte>>): seq<byte>
    requires forall p :: p in payloads ==> |p| <= MAX_UINT32
  {
    if payloads == [] then [] else Frame(payloads[0]) + Wire(payloads[1..])
  }

  // ---------------------------------------------------------------- one-shot parser

  /** What a byte stream holds: complete frames and an unfinished rest, or frames and then a refused length. */
  datatype Parsed =
    | Partial(frames: seq<seq<byte>>, rest: seq<byte>)
    | Oversized(frames: seq<seq<byte>>, declared: nat)

  function Prepend(frames: seq<seq<byte>>, p: Parsed): Parsed {
    match p
    case Partial(fs, rest) => Partial(frames + fs, rest)
    case Oversized(fs, n) => Oversized(frames + fs, n)
  }

  function ParseStream(bytes: seq<byte>, limit: nat): Parsed {
    if |bytes| < FRAME_HEADER_LENGTH then Partial([], bytes)
    else
      var n := LengthOf(bytes[..FRAME_HEADER_LENGTH]);
      if n > limit then Oversized([], n)
      else if |bytes| < FRAME_HEADER_LENGTH + n then Partial([], bytes)
      else
        Prepend([bytes[FRAME_HEADER_LENGTH..FRAME_HEADER_LENGTH + n]],
                ParseStream(bytes[FRAME_HEADER_LENGTH + n..], limit))
  }

  /** A rest is a proper prefix of some frame the limit admits. */
  predicate Unfinished(rest: seq<byte>, limit: nat) {
    |rest| < FRAME_HEADER_LENGTH ||
    (var n := LengthOf(rest[..FRAME_HEADER_LENGTH]); n <= limit && |rest| < FRAME_HEADER_LENGTH + n)
  }

  /** Parsing in two pieces: the second piece is parsed behind what the first left over. */
  lemma {:induction false} ParseStreamAppend(a: seq<byte>, b: seq<byte>, limit: nat)
    ensures ParseStream(a + b, limit) ==
            match ParseStream(a, limit)
            case Partial(fs, rest) => Prepend(fs, ParseStream(rest + b, limit))
            case Oversized(_, _) => ParseStream(a, limit)
  {
    if |a| < FRAME_HEADER_LENGTH {
      PrependNothing(ParseStream(a + b, limit));
    } else {
      assert (a + b)[..FRAME_HEADER_LENGTH] == a[..FRAME_HEADER_LENGTH];
      var n := LengthOf(a[..FRAME_HEADER_LENGTH]);
      if n <= limit {
        if |a| < FRAME_HEADER_LENGTH + n {
          PrependNothing(ParseStream(a + b, limit));
        } else {
          var first := a[FRAME_HEADER_LENGTH..FRAME_HEADER_LENGTH + n];
          var tail := a[FRAME_HEADER_LENGTH + n..];
          assert (a + b)[FRAME_HEADER_LENGTH..FRAME_HEADER_LENGTH + n] == first;
          assert (a + b)[FRAME_HEADER_LENGTH + n..] == tail + b;
          ParseStreamAppend(tail, b, limit);
          if ParseStream(tail, limit).Partial? {
            var p := ParseStream(tail, limit);
            PrependPrepend([first], p.frames, ParseStream(p.rest + b, limit));
          }
        }
      }
    }
  }

  lemma PrependNothing(p: Parsed)
    ensures Prepend([], p) == p
  {
    assert [] + p.frames == p.frames;
  }

  lemma PrependPrepend(a: seq<seq<byte>>, b: seq<seq<byte>>, p: Parsed)
    ensures Prepend(a, Prepend(b, p)) == Prepend(a + b, p)
  {
    assert a + (b + p.frames) == (a + b) + p.frames;
  }

  /** Encoding and then parsing returns the payloads, empty ones included. */
  lemma {:induction false} ParseWire(payloads: seq<seq<byte>>, limit: nat)
    requires limit <= MAX_UINT32
    requires forall p :: p in payloads ==> |p| <= limit
    ensures ParseStream(Wire(payloads), limit) == Partial(payloads, [])
  {
    if payloads != [] {
      ParseFrame(payloads[0], Wire(payloads[1..]), limit);
      ParseWire(payloads[1..], limit);
      assert [payloads[0]] + payloads[1..] == payloads;
      hide ParseStream, Frame;
    }
  }

  lemma ParseFrame(p: seq<byte>, rest: seq<byte>, limit: nat)
    requires |p| <= limit <= MAX_UINT32
    ensures ParseStream(Frame(p) + rest, limit) == Prepend([p], ParseStream(rest, limit))
  {
    hide LengthBytes, LengthOf, Prepend;
    var w := Frame(p) + rest;
    assert w[..FRAME_HEADER_LENGTH] == LengthBytes(|p|);
    assert w[FRAME_HEADER_LENGTH..FRAME_HEADER_LENGTH + |p|] == p;
    assert w[FRAME_HEADER_LENGTH + |p|..] == rest;
  }

  /** Parsing loses nothing: the stream is exactly its frames, re-encoded, and an unfinished rest. */
  lemma {:induction false} WireOfParse(bytes: seq<byte>, limit: nat)
    requires limit <= MAX_UINT32
    requires ParseStream(bytes, limit).Partial?
    ensures var p := ParseStream(bytes, limit);
      && (forall f :: f in p.frames ==> |f| <= limit)
      && bytes == Wire(p.frames) + p.rest
      && Unfinished(p.rest, limit)
    decreases |bytes|
  {
    hide LengthBytes, LengthOf, ParseStream, Unfinished;
    if Unfinished(bytes, limit) {
      ParseUnfinished(bytes, limit);
      assert Wire([]) + bytes == bytes;
    } else {
      var first, tail := ParseNext(bytes, limit);
      WireOfParse(tail, limit);
      var q := ParseStream(tail, limit);
      WireCons(first, q.frames);
      assert Frame(first) + (Wire(q.frames) + q.rest) == (Frame(first) + Wire(q.frames)) + q.rest;
    }
  }

  lemma ParseUnfinished(bytes: seq<byte>, limit: nat)
    requires Unfinished(bytes, limit)
    ensures ParseStream(bytes, limit) == Partial([], bytes)
  {
  }

  /** A stream that is neither refused nor unfinished starts with a whole frame. */
  lemma ParseNext(bytes: seq<byte>, limit: nat) returns (first: seq<byte>, tail: seq<byte>)
    requires limit <= MAX_UINT32 && !Unfinished(bytes, limit) && ParseStream(bytes, limit).Partial?
    ensures |first| <= limit && bytes == Frame(first) + tail
    ensures ParseStream(bytes, limit) == Prepend([first], ParseStream(tail, limit))
    ensures |tail| < |bytes|
  {
    var n := LengthOf(bytes[..FRAME_HEADER_LENGTH]);
    first := bytes[FRAME_HEADER_LENGTH..FRAME_HEADER_LENGTH + n];
    tail := bytes[FRAME_HEADER_LENGTH + n..];
    LengthBytesOfLength(bytes[..FRAME_HEADER_LENGTH]);
  }

  lemma WireCons(p: seq<byte>, ps: seq<seq<byte>>)
    requires |p| <= MAX_UINT32 && forall q :: q in ps ==> |q| <= MAX_UINT32
    ensures Wire([p] + ps) == Frame(p) + Wire(ps)
  {
    assert ([p] + ps)[1..] == ps;
  }

  /** Pushing chunks one after another, as a fold: the state between pushes is a parse of what was received. */
  function ParseChunks(before: Parsed, chunks: seq<seq<byte>>, limit: nat): Parsed
    decreases |chunks|
  {
    if chunks == [] || before.Oversized? then before
    else ParseChunks(Prepend(before.frames, ParseStream(before.rest + chunks[0], limit)), chunks[1..], limit)
  }

  /** The verdict on a stream depends only on its bytes, never on where it was cut. */
  lemma {:induction false} ChunkingIrrelevant(received: seq<byte>, chunks: seq<seq<byte>>, limit: nat)
    ensures ParseChunks(ParseStream(received, limit), chunks, limit) == ParseStream(received + Flatten(chunks), limit)
    decreases |chunks|
  {
    hide ParseStream;
    var before := ParseStream(received, limit);
    if chunks == [] {
      assert received + Flatten(chunks) == received;
    } else if before.Oversized? {
      ParseStreamAppend(received, Flatten(chunks), limit);
    } else {
      ParseStreamAppend(received, chunks[0], limit);
      ChunkingIrrelevant(received + chunks[0], chunks[1..], limit);
      assert received + Flatten(chunks) == (received + chunks[0]) + Flatten(chunks[1..]);
    }
  }

  lemma ParseShort(bytes: seq<byte>, limit: nat)
    requires |bytes| < FRAME_HEADER_LENGTH
    ensures ParseStream(bytes, limit) == Partial([], bytes)
  {
  }

  /** A complete header alone: refused at once, a frame at once, or the start of one. */
  lemma ParseHeader(n: nat, limit: nat)
    requires n <= MAX_UINT32
    ensures ParseStream(LengthBytes(n), limit) ==
            if n > limit then Oversized([], n)
            else if n == 0 then Partial([[]], [])
            else Partial([], LengthBytes(n))
  {
    var h := LengthBytes(n);
    assert h[..FRAME_HEADER_LENGTH] == h;
    if n == 0 {
      assert h[FRAME_HEADER_LENGTH..FRAME_HEADER_LENGTH + n] == [] && h[FRAME_HEADER_LENGTH + n..] == [];
    }
  }

  /** A stream that may be ended here: whole frames only, none of them too long. */
  predicate Accepted(bytes: seq<byte>, limit: nat) {
    ParseStream(bytes, limit).Partial? && ParseStream(bytes, limit).rest == []
  }

  /** Exactly the encodings of admissible payload lists are accepted. */
  lemma AcceptedIffWire(bytes: seq<byte>, limit: nat)
    requires limit <= MAX_UINT32
    ensures Accepted(bytes, limit) <==>
            exists ps: seq<seq<byte>> :: (forall p :: p in ps ==> |p| <= limit) && bytes == Wire(ps)
  {
    if Accepted(bytes, limit) {
      WireOfParse(bytes, limit);
      var ps := ParseStream(bytes, limit).frames;
      assert Wire(ps) + [] == Wire(ps);
    }
    forall ps: seq<seq<byte>> | (forall p :: p in ps ==> |p| <= limit) && bytes == Wire(ps)
      ensures Accepted(bytes, limit)
    {
      ParseWire(ps, limit);
    }
  }

  /** One more stretch of a chunk, parsed behind what the stretches before it left over. */
  lemma StepParse(start: seq<byte>, chunk: seq<byte>, from: nat, to: nat, parsed: seq<seq<byte>>, before: seq<byte>,
      limit: nat)
    requires from <= to <= |chunk|
    requires ParseStream(start + chunk[..from], limit) == Partial(parsed, before)
    ensures ParseStream(start + chunk[..to], limit) == Prepend(parsed, ParseStream(before + chunk[from..to], limit))
  {
    hide ParseStream, Prepend;
    ParseStreamAppend(start + chunk[..from], chunk[from..to], limit);
    assert chunk[..to] == chunk[..from] + chunk[from..to];
    assert start + chunk[..to] == (start + chunk[..from]) + chunk[from..to];
  }

  /** Once a length is refused, the rest of the chunk cannot matter. */
  lemma RefusedForGood(start: seq<byte>, chunk: seq<byte>, at: nat, limit: nat)
    requires at <= |chunk|
    requires ParseStream(start + chunk[..at], limit).Oversized?
    ensures ParseStream(start + chunk, limit) == ParseStream(start + chunk[..at], limit)
  {
    hide ParseStream, Prepend;
    ParseStreamAppend(start + chunk[..at], chunk[at..], limit);
    assert start + chunk == (start + chunk[..at]) + chunk[at..];
  }

  // ---------------------------------------------------------------- byte buffers

  /** `dst.set(src.subarray(from, from + n), at)`. */
  method CopyBytes(src: array<byte>, from: nat, n: nat, dst: array<byte>, at: nat)
    requires src != dst
    requires from + n <= src.Length && at + n <= dst.Length
    modifies dst
    ensures dst[..at] == old(dst[..at])
    ensures dst[at..at + n] == src[from..from + n]
    ensures dst[at + n..] == old(dst[at + n..])
  {
    forall i | 0 <= i < n {
      dst[at + i] := src[from + i];
    }
  }

  method EncodeFrame(payload: array<byte>) returns (r: Result<array<byte>, FrameError>)
    ensures payload.Length > MAX_UINT32 ==> r == Err(TooLong(payload.Length))
    ensures payload.Length <= MAX_UINT32 ==> r.Ok? && fresh(r.value) && r.value[..] == Frame(payload[..])
  {
    var length := payload.Length;
    if length > MAX_UINT32 {
      return Err(TooLong(length));
    }
    var frame := new byte[FRAME_HEADER_LENGTH + length](_ => 0);
    frame[0] := length / 0x1_000_000 % 256;
    frame[1] := length / 0x1_0000 % 256;
    frame[2] := length / 0x100 % 256;
    frame[3] := length % 256;
    assert frame[..4] == LengthBytes(length);
    CopyBytes(payload, 0, length, frame, FRAME_HEADER_LENGTH);
    assert frame[..] == frame[..4] + frame[4..4 + length];
    assert payload[0..length] == payload[..];
    return Ok(frame);
  }

  /** The bytes held by a list of blocks. */
  ghost function BlockBytes(blocks: seq<array<byte>>): seq<byte>
    reads blocks
  {
    if blocks == [] then []
    else BlockBytes(blocks[..|blocks| - 1]) + blocks[|blocks| - 1][..]
  }

  /** `frames` are arrays holding exactly the payloads `spec`. */
  ghost predicate Holds(frames: seq<array<byte>>, spec: seq<seq<byte>>)
    reads frames
  {
    |frames| == |spec| && forall i :: 0 <= i < |frames| ==> frames[i][..] == spec[i]
  }

  lemma HoldsNothing()
    ensures Holds([], [])
  {
  }

  lemma HoldsMore(frames: seq<array<byte>>, spec: seq<seq<byte>>, frame: array<byte>)
    requires Holds(frames, spec)
    ensures Holds(frames + [frame], spec + [frame[..]])
  {
  }

  /** All blocks but the last have the full block size. */
  ghost predicate FullBlocks(blocks: seq<array<byte>>) {
    forall i :: 0 <= i < |blocks| - 1 ==> blocks[i].Length == PAYLOAD_BLOCK_SIZE
  }

  ghost predicate DistinctBlocks(blocks: seq<array<byte>>) {
    forall i, j :: 0 <= i < j < |blocks| ==> blocks[i] != blocks[j]
  }

  lemma {:induction false} FullBlocksLength(blocks: seq<array<byte>>)
    requires forall i :: 0 <= i < |blocks| ==> blocks[i].Length == PAYLOAD_BLOCK_SIZE
    ensures |BlockBytes(blocks)| == |blocks| * PAYLOAD_BLOCK_SIZE
  {
    if blocks != [] {
      FullBlocksLength(blocks[..|blocks| - 1]);
    }
  }

  lemma {:induction false} PrefixLength(blocks: seq<array<byte>>, k: nat)
    requires k <= |blocks|
    ensures |BlockBytes(blocks[..k])| <= |BlockBytes(blocks)|
  {
    if k < |blocks| {
      var most := blocks[..|blocks| - 1];
      assert most[..k] == blocks[..k];
      PrefixLength(most, k);
    } else {
      assert blocks[..k] == blocks;
    }
  }

  lemma NextBlock(blocks: seq<array<byte>>, index: nat)
    requires index < |blocks|
    ensures BlockBytes(blocks[..index + 1]) == BlockBytes(blocks[..index]) + blocks[index][..]
  {
    assert blocks[..index + 1][..index] == blocks[..index];
  }

  lemma NoBlocks()
    ensures BlockBytes([]) == []
  {
  }

  /** What is filled so far grows by the bytes copied behind it. */
  method CopyBehind(src: array<byte>, from: nat, n: nat, dst: array<byte>, at: nat)
    requires src != dst
    requires from + n <= src.Length && at + n <= dst.Length
    modifies dst
    ensures dst[..at + n] == old(dst[..at]) + src[from..from + n]
  {
    CopyBytes(src, from, n, dst, at);
    assert dst[..at + n] == dst[..at] + dst[at..at + n];
  }

  /** Copies the blocks, in order, into one new array. */
  method JoinBlocks(blocks: seq<array<byte>>, total: nat) returns (payload: array<byte>)
    requires total == |BlockBytes(blocks)|
    ensures fresh(payload) && payload[..] == BlockBytes(blocks)
  {
    payload := new byte[total](_ => 0);
    var offset, index := 0, 0;
    NoBlocks();
    hide BlockBytes;
    while index < |blocks|
      modifies payload
      invariant 0 <= index <= |blocks|
      invariant payload !in blocks && payload.Length == total == |BlockBytes(blocks)|
      invariant offset == |BlockBytes(blocks[..index])| <= total
      invariant payload[..offset] == BlockBytes(blocks[..index])
    {
      var block := blocks[index];
      NextBlock(blocks, index);
      PrefixLength(blocks, index + 1);
      CopyBehind(block, 0, block.Length, payload, offset);
      assert block[0..block.Length] == block[..];
      offset, index := offset + block.Length, index + 1;
    }
    assert blocks[..index] == blocks && offset == payload.Length;
  }

  datatype DecoderState = Open | Ended | Failed

  /** `maxFrameLength` as given by the options, with its default and its range check. */
  function ResolveMaxFrameLength(option: Option<int>): (r: Result<nat, FrameError>)
    ensures r.Ok? <==> option.None? || 0 <= option.value <= MAX_UINT32
    ensures r.Ok? ==> r.value <= MAX_UINT32 && (option.Some? ==> r.value == option.value)
  {
    var value := if option.Some? then option.value else DEFAULT_MAX_FRAME_LENGTH;
    if value < 0 || value > MAX_UINT32 then Err(BadLimit) else Ok(value)
  }

  class FrameDecoder {
    const header: array<byte>
    var headerLength: nat
    const maxFrameLength: nat
    var payloadBlocks: seq<array<byte>>
    var currentPayloadBlock: array?<byte>
    var currentPayloadBlockLength: nat
    var expectedPayloadLength: Option<nat>
    var payloadLength: nat
    var state: DecoderState

    // Every byte accepted so far, and every payload handed out so far.
    ghost var received: seq<byte>
    ghost var emitted: seq<seq<byte>>

    constructor (limit: nat)
      requires limit <= MAX_UINT32
      ensures Valid() && state == Open && received == [] && emitted == []
      ensures maxFrameLength == limit && fresh(header) && payloadBlocks == []
    {
      header := new byte[FRAME_HEADER_LENGTH](_ => 0);
      headerLength := 0;
      maxFrameLength := limit;
      payloadBlocks := [];
      currentPayloadBlock := null;
      currentPayloadBlockLength := 0;
      expectedPayloadLength := None;
      payloadLength := 0;
      state := Open;
      received := [];
      emitted := [];
    }

    /** Shape of the block buffer: all blocks but the last are full, and the last is the one being filled. */
    ghost predicate BuffersOk()
      reads this`headerLength, this`payloadBlocks, this`currentPayloadBlock, this`currentPayloadBlockLength,
            this`expectedPayloadLength, this`payloadLength
    {
      && header.Length == FRAME_HEADER_LENGTH
      && maxFrameLength <= MAX_UINT32
      && header !in payloadBlocks
      && DistinctBlocks(payloadBlocks)
      && FullBlocks(payloadBlocks)
      && match expectedPayloadLength
         case None =>
           headerLength < FRAME_HEADER_LENGTH && NoBlocks()
         case Some(n) =>
           && headerLength == 0
           && 0 < n <= maxFrameLength
           && payloadLength <= n
           && if payloadBlocks == [] then NoBlocks()
              else
                var filled := (|payloadBlocks| - 1) * PAYLOAD_BLOCK_SIZE;
                && currentPayloadBlock == payloadBlocks[|payloadBlocks| - 1]
                && 0 < currentPayloadBlockLength <= currentPayloadBlock.Length
                && currentPayloadBlock.Length == Min(PAYLOAD_BLOCK_SIZE, n - filled)
                && payloadLength == filled + currentPayloadBlockLength
    }

    ghost predicate NoBlocks()
      reads this`headerLength, this`payloadBlocks, this`currentPayloadBlock, this`currentPayloadBlockLength,
            this`expectedPayloadLength, this`payloadLength
    {
      payloadBlocks == [] && currentPayloadBlock == null && currentPayloadBlockLength == 0 && payloadLength == 0
    }

    ghost function Payload(): seq<byte>
      requires BuffersOk()
      reads this`headerLength, this`payloadBlocks, this`currentPayloadBlock, this`currentPayloadBlockLength,
            this`expectedPayloadLength, this`payloadLength, payloadBlocks
    {
      if payloadBlocks == [] then []
      else BlockBytes(payloadBlocks[..|payloadBlocks| - 1]) + currentPayloadBlock[..currentPayloadBlockLength]
    }

    /** The bytes received but not yet handed out, as they were on the wire. */
    ghost function Buffered(): seq<byte>
      requires BuffersOk()
      reads this`headerLength, this`payloadBlocks, this`currentPayloadBlock, this`currentPayloadBlockLength,
            this`expectedPayloadLength, this`payloadLength, header, payloadBlocks
    {
      match expectedPayloadLength
      case None => header[..headerLength]
      case Some(n) => LengthBytes(n) + Payload()
    }

    /** The decoder's state is a function of the bytes received, whatever the chunks were. */
    ghost predicate Valid()
      reads this, header, payloadBlocks
    {
      && BuffersOk()
      && (expectedPayloadLength.Some? ==> payloadLength < expectedPayloadLength.value)
      && match state
         case Open => ParseStream(received, maxFrameLength) == Partial(emitted, Buffered())
         case Ended => ParseStream(received, maxFrameLength) == Partial(emitted, [])
         case Failed => !Accepted(received, maxFrameLength)
    }

    /** Memory bound: the allocated blocks hold the received payload bytes and less than one block more. */
    lemma AllocationBound()
      requires Valid()
      ensures |BlockBytes(payloadBlocks)| < payloadLength + PAYLOAD_BLOCK_SIZE
      ensures expectedPayloadLength.Some? ==> |BlockBytes(payloadBlocks)| <= expectedPayloadLength.value
      ensures FullBlocks(payloadBlocks)
    {
      if payloadBlocks != [] {
        FullBlocksLength(payloadBlocks[..|payloadBlocks| - 1]);
      }
    }

    lemma BufferedPayload()
      requires BuffersOk() && expectedPayloadLength.Some?
      ensures expectedPayloadLength.value <= MAX_UINT32 && payloadLength <= expectedPayloadLength.value
      ensures Buffered() == LengthBytes(expectedPayloadLength.value) + Payload()
    {
    }

    lemma BufferedIsUnfinished()
      requires Valid() && state == Open
      ensures ParseStream(Buffered(), maxFrameLength) == Partial([], Buffered())
    {
      if expectedPayloadLength.Some? {
        var n := expectedPayloadLength.value;
        PayloadLength();
        assert Buffered()[..FRAME_HEADER_LENGTH] == LengthBytes(n);
      }
    }

    lemma PayloadLength()
      requires BuffersOk()
      ensures |Payload()| == payloadLength
    {
      if payloadBlocks != [] {
        FullBlocksLength(payloadBlocks[..|payloadBlocks| - 1]);
      }
    }

    /** What the buffered header and payload parse to, finished or not. */
    lemma ParseBuffered()
      requires BuffersOk() && expectedPayloadLength.Some?
      ensures ParseStream(Buffered(), maxFrameLength) ==
              if payloadLength == expectedPayloadLength.value then Partial([Payload()], []) else Partial([], Buffered())
    {
      hide LengthBytes, LengthOf;
      var n := expectedPayloadLength.value;
      PayloadLength();
      assert Buffered()[..FRAME_HEADER_LENGTH] == LengthBytes(n);
      if payloadLength == n {
        assert Buffered()[FRAME_HEADER_LENGTH..FRAME_HEADER_LENGTH + n] == Payload();
        assert Buffered()[FRAME_HEADER_LENGTH + n..] == [];
      }
    }

    /** Starts a block when there is none or the last is full. */
    method EnsureBlock()
      requires BuffersOk() && expectedPayloadLength.Some? && payloadLength < expectedPayloadLength.value
      modifies this`payloadBlocks, this`currentPayloadBlock, this`currentPayloadBlockLength
      ensures BlocksReady() && currentPayloadBlock in payloadBlocks && BlockPayload() == old(Payload())
      ensures forall b :: b in payloadBlocks ==> b in old(payloadBlocks) || fresh(b)
    {
      hide LengthBytes, LengthOf;
      var n := expectedPayloadLength.value;
      ghost var blocks := payloadBlocks;
      if currentPayloadBlock == null || currentPayloadBlockLength == currentPayloadBlock.Length {
        var block := new byte[Min(PAYLOAD_BLOCK_SIZE, n - payloadLength)](_ => 0);
        payloadBlocks := payloadBlocks + [block];
        currentPayloadBlock := block;
        currentPayloadBlockLength := 0;
        assert payloadBlocks[..|payloadBlocks| - 1] == blocks;
        assert block[..0] == [];
        if blocks != [] {
          assert blocks[|blocks| - 1][..] == blocks[|blocks| - 1][..blocks[|blocks| - 1].Length];
        }
      }
    }

    /** As `BuffersOk` with a block in place, which may still be empty but has room. */
    ghost predicate BlocksReady()
      reads this
    {
      && header.Length == FRAME_HEADER_LENGTH && headerLength == 0
      && maxFrameLength <= MAX_UINT32
      && payloadBlocks != [] && header !in payloadBlocks
      && DistinctBlocks(payloadBlocks) && FullBlocks(payloadBlocks)
      && expectedPayloadLength.Some? && 0 < expectedPayloadLength.value <= maxFrameLength
      && var filled := (|payloadBlocks| - 1) * PAYLOAD_BLOCK_SIZE;
      && currentPayloadBlock == payloadBlocks[|payloadBlocks| - 1]
      && currentPayloadBlockLength < currentPayloadBlock.Length
      && currentPayloadBlock.Length == Min(PAYLOAD_BLOCK_SIZE, expectedPayloadLength.value - filled)
      && payloadLength == filled + currentPayloadBlockLength
    }

    ghost function BlockPayload(): seq<byte>
      requires BlocksReady()
      reads this, payloadBlocks
    {
      BlockBytes(payloadBlocks[..|payloadBlocks| - 1]) + currentPayloadBlock[..currentPayloadBlockLength]
    }

    /** Copies as much of the chunk as the current block has room for. */
    method FillBlock(chunk: array<byte>, chunkOffset: nat) returns (payloadBytes: nat)
      requires BlocksReady()
      requires chunkOffset < chunk.Length && chunk !in payloadBlocks
      modifies this`currentPayloadBlockLength, this`payloadLength, currentPayloadBlock
      ensures BuffersOk() && 0 < payloadBytes && chunkOffset + payloadBytes <= chunk.Length
      ensures payloadLength == old(payloadLength) + payloadBytes
      ensures Payload() == old(BlockPayload()) + chunk[chunkOffset..chunkOffset + payloadBytes]
    {
      hide FullBlocks, LengthBytes, LengthOf, BlockBytes;
      var block: array<byte> := currentPayloadBlock;
      var at := currentPayloadBlockLength;
      payloadBytes := Min(block.Length - at, chunk.Length - chunkOffset);
      ghost var full := payloadBlocks[..|payloadBlocks| - 1];
      ghost var fullBytes := BlockBytes(full);
      CopyBehind(chunk, chunkOffset, payloadBytes, block, at);
      assert BlockBytes(full) == fullBytes;
      currentPayloadBlockLength := at + payloadBytes;
      payloadLength := payloadLength + payloadBytes;
    }

    /** The inner loop: takes payload bytes until the frame or the chunk is exhausted. */
    method ReadPayload(chunk: array<byte>, start: nat) returns (chunkOffset: nat)
      requires BuffersOk() && expectedPayloadLength.Some?
      requires start <= chunk.Length && chunk != header && chunk !in payloadBlocks
      modifies this`payloadBlocks, this`currentPayloadBlock, this`currentPayloadBlockLength, this`payloadLength,
          payloadBlocks
      ensures BuffersOk() && start <= chunkOffset <= chunk.Length
      ensures chunkOffset == chunk.Length || payloadLength == expectedPayloadLength.value
      ensures payloadLength == old(payloadLength) + chunkOffset - start
      ensures Buffered() == old(Buffered()) + chunk[start..chunkOffset]
      ensures forall b :: b in payloadBlocks ==> b in old(payloadBlocks) || fresh(b)
    {
      hide LengthBytes, LengthOf, BlockBytes, BuffersOk, BlocksReady, Payload, BlockPayload, Buffered;
      BufferedPayload();
      chunkOffset := start;
      ghost var payload := Payload();
      assert chunk[start..start] == [];
      while chunkOffset < chunk.Length && payloadLength < expectedPayloadLength.value
        invariant payloadLength == old(payloadLength) + chunkOffset - start
        invariant start <= chunkOffset <= chunk.Length
        invariant BuffersOk() && chunk !in payloadBlocks
        invariant forall b :: b in payloadBlocks ==> b in old(payloadBlocks) || fresh(b)
        invariant Payload() == payload + chunk[start..chunkOffset]
        invariant chunk[..] == old(chunk[..])
      {
        ghost var at := chunkOffset;
        EnsureBlock();
        var payloadBytes := FillBlock(chunk, chunkOffset);
        chunkOffset := chunkOffset + payloadBytes;
        assert chunk[start..chunkOffset] == chunk[start..at] + chunk[at..chunkOffset];
      }
      BufferedPayload();
      assert LengthBytes(expectedPayloadLength.value) + (payload + chunk[start..chunkOffset]) ==
             (LengthBytes(expectedPayloadLength.value) + payload) + chunk[start..chunkOffset];
    }

    /** The header part of the outer loop; yields the frame length once all four bytes are there. */
    method ReadHeader(chunk: array<byte>, start: nat) returns (chunkOffset: nat, frameLength: Option<nat>)
      requires BuffersOk() && expectedPayloadLength == None
      requires start < chunk.Length && chunk != header
      modifies this`headerLength, header
      ensures BuffersOk() && payloadBlocks == [] && start < chunkOffset <= chunk.Length
      ensures frameLength == None ==> Buffered() == old(Buffered()) + chunk[start..chunkOffset]
      ensures frameLength.Some? ==>
        && frameLength.value <= MAX_UINT32 && headerLength == 0
        && LengthBytes(frameLength.value) == old(Buffered()) + chunk[start..chunkOffset]
    {
      var headerBytes := Min(FRAME_HEADER_LENGTH - headerLength, chunk.Length - start);
      CopyBytes(chunk, start, headerBytes, header, headerLength);
      ghost var at := headerLength;
      headerLength := headerLength + headerBytes;
      chunkOffset := start + headerBytes;
      assert header[..headerLength] == header[..at] + header[at..headerLength];
      if headerLength < FRAME_HEADER_LENGTH { return chunkOffset, None; }
      assert header[..headerLength] == header[..];
      LengthBytesOfLength(header[..]);
      headerLength := 0;
      frameLength := Some(LengthOf(header[..]));
    }

    /** Hands out the finished payload: its only block, or a copy of all of them in order. */
    method TakeFrame() returns (payload: array<byte>)
      requires BuffersOk() && expectedPayloadLength == Some(payloadLength)
      modifies this`payloadBlocks, this`currentPayloadBlock, this`currentPayloadBlockLength, this`payloadLength,
          this`expectedPayloadLength
      ensures BuffersOk() && expectedPayloadLength == None && headerLength == 0
      ensures payload[..] == old(Payload()) && payloadBlocks == []
      ensures payload in old(payloadBlocks) || fresh(payload)
    {
      hide LengthBytes, LengthOf;
      ghost var last := |payloadBlocks| - 1;
      assert payloadBlocks[last][..] == currentPayloadBlock[..currentPayloadBlockLength];
      if |payloadBlocks| == 1 {
        payload := payloadBlocks[0];
        assert BlockBytes(payloadBlocks[..last]) == [];
      } else {
        PayloadLength();
        assert BlockBytes(payloadBlocks) == Payload();
        payload := JoinBlocks(payloadBlocks, payloadLength);
      }
      payloadBlocks := [];
      currentPayloadBlock := null;
      currentPayloadBlockLength := 0;
      expectedPayloadLength := None;
      payloadLength := 0;
    }

    method Fail()
      requires BuffersOk()
      modifies this`headerLength, this`payloadBlocks, this`currentPayloadBlock, this`currentPayloadBlockLength,
               this`expectedPayloadLength, this`payloadLength, this`state
      ensures BuffersOk() && state == Failed && payloadBlocks == [] && expectedPayloadLength == None
    {
      state := Failed;
      headerLength := 0;
      payloadBlocks := [];
      currentPayloadBlock := null;
      currentPayloadBlockLength := 0;
      expectedPayloadLength := None;
      payloadLength := 0;
    }

    /** The stream may end only between frames; which it is depends on the bytes received alone. */
    method End() returns (r: Result<(), FrameError>)
      requires Valid()
      modifies this
      ensures Valid() && received == old(received) && emitted == old(emitted)
      ensures old(state) == Ended ==> r == Err(HasEnded) && state == Ended
      ensures old(state) == Failed ==> r == Err(HasFailed) && state == Failed
      ensures old(state) == Open && Accepted(received, maxFrameLength) ==>
                r.Ok? && state == Ended && emitted == ParseStream(received, maxFrameLength).frames
      ensures old(state) == Open && !Accepted(received, maxFrameLength) ==> r == Err(Truncated) && state == Failed
    {
      if state == Ended { return Err(HasEnded); }
      if state == Failed { return Err(HasFailed); }
      if headerLength != 0 || expectedPayloadLength != None {
        Fail();
        return Err(Truncated);
      }
      state := Ended;
      return Ok(());
    }

    /** A header for a payload that is neither empty nor too long. */
    method BeginPayload(frameLength: nat)
      requires BuffersOk() && expectedPayloadLength == None && headerLength == 0
      requires 0 < frameLength <= maxFrameLength
      modifies this`payloadBlocks, this`currentPayloadBlock, this`currentPayloadBlockLength,
               this`expectedPayloadLength, this`payloadLength
      ensures BuffersOk() && expectedPayloadLength == Some(frameLength) && payloadLength == 0 && payloadBlocks == []
      ensures Buffered() == LengthBytes(frameLength)
    {
      hide LengthBytes, LengthOf;
      expectedPayloadLength := Some(frameLength);
      payloadBlocks := [];
      currentPayloadBlock := null;
      currentPayloadBlockLength := 0;
      payloadLength := 0;
    }

    /** The payload part of the outer loop. */
    method AdvancePayload(chunk: array<byte>, start: nat) returns (chunkOffset: nat, frame: Option<array<byte>>)
      requires BuffersOk() && expectedPayloadLength.Some? && payloadLength < expectedPayloadLength.value
      requires start <= chunk.Length && chunk != header && chunk !in payloadBlocks
      modifies this`payloadBlocks, this`currentPayloadBlock, this`currentPayloadBlockLength,
               this`expectedPayloadLength, this`payloadLength, payloadBlocks
      ensures BuffersOk() && (expectedPayloadLength.Some? ==> payloadLength < expectedPayloadLength.value)
      ensures start <= chunkOffset <= chunk.Length && (start < chunk.Length ==> start < chunkOffset)
      ensures forall b :: b in payloadBlocks ==> b in old(payloadBlocks) || fresh(b)
      ensures frame.Some? ==> payloadBlocks == [] && frame.value != header && frame.value != chunk
      ensures frame.Some? ==> frame.value in old(payloadBlocks) || fresh(frame.value)
      ensures ParseStream(old(Buffered()) + chunk[start..chunkOffset], maxFrameLength) ==
              Partial(if frame.Some? then [frame.value[..]] else [], Buffered())
    {
      hide LengthBytes, LengthOf, ParseStream, BlockBytes, Payload;
      frame := None;
      chunkOffset := ReadPayload(chunk, start);
      ParseBuffered();
      if payloadLength == expectedPayloadLength.value {
        var payload := TakeFrame();
        assert header[..0] == [];
        frame := Some(payload);
      }
    }

    /** One round of the outer loop: at most one frame, or a refusal. */
    method Advance(chunk: array<byte>, start: nat)
      returns (chunkOffset: nat, frame: Option<array<byte>>, refused: Option<nat>)
      requires BuffersOk() && (expectedPayloadLength.Some? ==> payloadLength < expectedPayloadLength.value)
      requires start < chunk.Length && chunk != header && chunk !in payloadBlocks
      modifies this`headerLength, this`payloadBlocks, this`currentPayloadBlock, this`currentPayloadBlockLength,
               this`expectedPayloadLength, this`payloadLength, this`state, header, payloadBlocks
      ensures BuffersOk() && (expectedPayloadLength.Some? ==> payloadLength < expectedPayloadLength.value)
      ensures start < chunkOffset <= chunk.Length
      ensures forall b :: b in payloadBlocks ==> b in old(payloadBlocks) || fresh(b)
      ensures frame.Some? ==> payloadBlocks == [] && frame.value != header && frame.value != chunk
      ensures frame.Some? ==> frame.value in old(payloadBlocks) || fresh(frame.value)
      ensures state == if refused.Some? then Failed else old(state)
      ensures refused.Some? ==> frame == None && payloadBlocks == []
      ensures ParseStream(old(Buffered()) + chunk[start..chunkOffset], maxFrameLength) ==
              if refused.Some? then Oversized([], refused.value)
              else Partial(if frame.Some? then [frame.value[..]] else [], Buffered())
    {
      hide LengthBytes, LengthOf, ParseStream, BlockBytes, Payload, BuffersOk;
      frame, refused := None, None;
      if expectedPayloadLength != None {
        chunkOffset, frame := AdvancePayload(chunk, start);
        return;
      }
      ghost var before := Buffered();
      var frameLength;
      chunkOffset, frameLength := ReadHeader(chunk, start);
      if frameLength == None {
        ParseShort(Buffered(), maxFrameLength);
        return;
      }
      ParseHeader(frameLength.value, maxFrameLength);
      if frameLength.value > maxFrameLength {
        Fail();
        return chunkOffset, None, frameLength;
      }
      if frameLength.value == 0 {
        var empty := new byte[0];
        assert empty[..] == [] && header[..0] == [];
        return chunkOffset, Some(empty), None;
      }
      BeginPayload(frameLength.value);
      ghost var at := chunkOffset;
      chunkOffset, frame := AdvancePayload(chunk, chunkOffset);
      assert before + chunk[start..chunkOffset] == LengthBytes(frameLength.value) + chunk[at..chunkOffset];
    }

    method Push(chunk: array<byte>) returns (r: Result<seq<array<byte>>, FrameError>)
      requires Valid()
      requires chunk != header && chunk !in payloadBlocks
      modifies this, header, payloadBlocks
      ensures Valid()
      ensures forall b :: b in payloadBlocks ==> b in old(payloadBlocks) || fresh(b)
      ensures old(state) == Ended ==>
        r == Err(HasEnded) && state == Ended && received == old(received) && emitted == old(emitted)
      ensures old(state) == Failed ==>
        r == Err(HasFailed) && state == Failed && received == old(received) && emitted == old(emitted)
      ensures old(state) == Open ==> received == old(received) + chunk[..]
      ensures old(state) == Open ==>
        match ParseStream(old(Buffered()) + chunk[..], maxFrameLength)
        case Partial(fs, rest) =>
          && state == Open && r.Ok? && Buffered() == rest
          && emitted == old(emitted) + fs
          && Holds(r.value, fs)
          && (forall f :: f in r.value ==>
              f != chunk && f != header && f !in payloadBlocks && (f in old(payloadBlocks) || fresh(f)))
        case Oversized(_, n) => state == Failed && r == Err(TooLong(n)) && emitted == old(emitted)
    {
      hide LengthBytes, LengthOf, ParseStream, BlockBytes, BuffersOk, Buffered, Payload, Holds;
      if state == Ended { return Err(HasEnded); }
      if state == Failed { return Err(HasFailed); }
      var frames: seq<array<byte>> := [];
      ghost var start, bytes := Buffered(), chunk[..];
      ghost var parsed: seq<seq<byte>> := [];
      var chunkOffset := 0;
      assert start + bytes[..0] == start;
      HoldsNothing();
      BufferedIsUnfinished();
      ParseStreamAppend(received, bytes, maxFrameLength);
      while chunkOffset < chunk.Length
        invariant 0 <= chunkOffset <= chunk.Length && chunk[..] == bytes
        invariant BuffersOk() && state == Open
        invariant expectedPayloadLength.Some? ==> payloadLength < expectedPayloadLength.value
        invariant received == old(received) && emitted == old(emitted)
        invariant chunk !in payloadBlocks
        invariant forall b :: b in payloadBlocks ==> b in old(payloadBlocks) || fresh(b)
        invariant forall i :: 0 <= i < |payloadBlocks| ==>
          payloadBlocks[i] in old(payloadBlocks) || fresh(payloadBlocks[i])
        invariant ParseStream(start + bytes[..chunkOffset], maxFrameLength) == Partial(parsed, Buffered())
        invariant Holds(frames, parsed)
        invariant forall i :: 0 <= i < |frames| ==>
          frames[i] != chunk && frames[i] != header && frames[i] !in payloadBlocks &&
          (frames[i] in old(payloadBlocks) || fresh(frames[i]))
      {
        ghost var before, from := Buffered(), chunkOffset;
        var frame, refused;
        chunkOffset, frame, refused := Advance(chunk, chunkOffset);
        StepParse(start, bytes, from, chunkOffset, parsed, before, maxFrameLength);
        assert bytes[from..chunkOffset] == chunk[from..chunkOffset];
        if refused.Some? {
          RefusedForGood(start, bytes, chunkOffset, maxFrameLength);
          received := received + chunk[..];
          return Err(TooLong(refused.value));
        }
        if frame.Some? {
          HoldsMore(frames, parsed, frame.value);
          frames := frames + [frame.value];
          parsed := parsed + [frame.value[..]];
        }
      }
      assert bytes[..chunkOffset] == bytes;
      received := received + chunk[..];
      emitted := emitted + parsed;
      return Ok(frames);
    }
  }
}
