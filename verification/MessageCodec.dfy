/**
 Protocol messages over frames. CBOR and the schema check are parameters, with the one law the
 protocol relies on: decoding what was encoded gives the value back.
 */
module MessageCodec {
  import opened Common
  import opened Framing

  /** `cbor`/`uncbor` stand for the CBOR codec, `admits` for the schema and JSON check of one message kind. */
  datatype Codec<!V(!new)> = Codec(cbor: V -> seq<byte>, uncbor: seq<byte> -> Option<V>, admits: V -> bool)
  {
    ghost predicate Inverse() {
      forall v :: admits(v) ==> uncbor(cbor(v)) == Some(v)
    }

    /** `parse(decodeCbor(frame))`, with the thrown errors as a missing value. */
    function Decode(frame: seq<byte>): Option<V> {
      match uncbor(frame)
      case None => None
      case Some(v) => if admits(v) then Some(v) else None
    }
  }

  datatype CodecError = Invalid | Unencodable(length: nat) | DecoderFailed | BadFraming(error: FrameError) | BadMessage

  function EncodeMessage<V(!new)>(codec: Codec<V>, value: V, limit: nat): (r: Result<seq<byte>, CodecError>)
    requires limit <= MAX_UINT32
  {
    if !codec.admits(value) then Err(Invalid)
    else
      var payload := codec.cbor(value);
      if |payload| > limit then Err(Unencodable(|payload|)) else Ok(Frame(payload))
  }

  /** Messages that can be sent under the limit. */
  ghost predicate Sendable<V(!new)>(codec: Codec<V>, messages: seq<V>, limit: nat) {
    forall m :: m in messages ==> codec.admits(m) && |codec.cbor(m)| <= limit
  }

  function Payloads<V(!new)>(codec: Codec<V>, messages: seq<V>): seq<seq<byte>> {
    seq(|messages|, i requires 0 <= i < |messages| => codec.cbor(messages[i]))
  }

  /** What the encoder puts on the wire for a list of messages. */
  lemma {:induction false} EncodedWire<V(!new)>(codec: Codec<V>, messages: seq<V>, frames: seq<seq<byte>>, limit: nat)
    requires limit <= MAX_UINT32 && |frames| == |messages|
    requires forall i :: 0 <= i < |messages| ==> EncodeMessage(codec, messages[i], limit) == Ok(frames[i])
    ensures Sendable(codec, messages, limit) && Flatten(frames) == Wire(Payloads(codec, messages))
  {
    if messages != [] {
      EncodedWire(codec, messages[1..], frames[1..], limit);
      assert Payloads(codec, messages)[1..] == Payloads(codec, messages[1..]);
      assert EncodeMessage(codec, messages[0], limit) == Ok(frames[0]);
      assert messages == [messages[0]] + messages[1..];
    }
  }

  /** Decodes frame after frame; one bad message spoils the list. */
  function DecodeFrames<V(!new)>(codec: Codec<V>, frames: seq<seq<byte>>): (r: Option<seq<V>>)
    ensures r.Some? ==> |r.value| == |frames|
  {
    if frames == [] then Some([])
    else
      var last := |frames| - 1;
      match (DecodeFrames(codec, frames[..last]), codec.Decode(frames[last]))
      case (Some(vs), Some(v)) => Some(vs + [v])
      case _ => None
  }

  lemma {:induction false} DecodeFramesAppend<V(!new)>(codec: Codec<V>, a: seq<seq<byte>>, b: seq<seq<byte>>)
    ensures DecodeFrames(codec, a + b) ==
            match (DecodeFrames(codec, a), DecodeFrames(codec, b))
            case (Some(x), Some(y)) => Some(x + y)
            case _ => None
  {
    if b == [] {
      assert a + b == a;
      if DecodeFrames(codec, a).Some? {
        var x := DecodeFrames(codec, a).value;
        assert x + [] == x;
      }
    } else {
      assert (a + b)[..|a + b| - 1] == a + b[..|b| - 1];
      DecodeFramesAppend(codec, a, b[..|b| - 1]);
      var x, y := DecodeFrames(codec, a), DecodeFrames(codec, b[..|b| - 1]);
      var v := codec.Decode(b[|b| - 1]);
      if x.Some? && y.Some? && v.Some? {
        assert x.value + (y.value + [v.value]) == (x.value + y.value) + [v.value];
      }
    }
  }

  lemma {:induction false} DecodePayloads<V(!new)>(codec: Codec<V>, messages: seq<V>, limit: nat)
    requires codec.Inverse() && Sendable(codec, messages, limit)
    ensures DecodeFrames(codec, Payloads(codec, messages)) == Some(messages)
  {
    if messages != [] {
      var last := |messages| - 1;
      DecodePayloads(codec, messages[..last], limit);
      assert Payloads(codec, messages)[..last] == Payloads(codec, messages[..last]);
      assert messages[last] in messages;
      assert messages == messages[..last] + [messages[last]];
    }
  }

  /** The messages completed by a byte stream, unless the stream holds a bad frame or a bad message. */
  function DecodeStream<V(!new)>(codec: Codec<V>, bytes: seq<byte>, limit: nat): Option<seq<V>> {
    match ParseStream(bytes, limit)
    case Partial(frames, _) => DecodeFrames(codec, frames)
    case Oversized(_, _) => None
  }

  /** A sent list of messages decodes to itself, and may be ended there. */
  lemma RoundTrip<V(!new)>(codec: Codec<V>, messages: seq<V>, frames: seq<seq<byte>>, limit: nat)
    requires limit <= MAX_UINT32 && codec.Inverse() && |frames| == |messages|
    requires forall i :: 0 <= i < |messages| ==> EncodeMessage(codec, messages[i], limit) == Ok(frames[i])
    ensures DecodeStream(codec, Flatten(frames), limit) == Some(messages)
    ensures Accepted(Flatten(frames), limit)
  {
    EncodedWire(codec, messages, frames, limit);
    var ps := Payloads(codec, messages);
    forall p | p in ps ensures |p| <= limit {
      var i :| 0 <= i < |ps| && ps[i] == p;
      assert messages[i] in messages;
    }
    ParseWire(ps, limit);
    DecodePayloads(codec, messages, limit);
  }

  /** Cutting a good stream anywhere leaves a good stream, with a prefix of its messages. */
  lemma GoodPrefix<V(!new)>(codec: Codec<V>, a: seq<byte>, b: seq<byte>, limit: nat)
    requires DecodeStream(codec, a + b, limit).Some?
    ensures DecodeStream(codec, a, limit).Some?
    ensures DecodeStream(codec, a, limit).value <= DecodeStream(codec, a + b, limit).value
  {
    ParseStreamAppend(a, b, limit);
    var p := ParseStream(a, limit);
    assert p.Partial?;
    var q := ParseStream(p.rest + b, limit);
    DecodeFramesAppend(codec, p.frames, q.frames);
  }

  /** Badness is for good: no continuation of a bad stream yields messages again. */
  lemma BadForGood<V(!new)>(codec: Codec<V>, a: seq<byte>, b: seq<byte>, limit: nat)
    requires DecodeStream(codec, a, limit).None?
    ensures DecodeStream(codec, a + b, limit).None?
  {
    if DecodeStream(codec, a + b, limit).Some? {
      GoodPrefix(codec, a, b, limit);
    }
  }

  /** The outputs of a run of pushes over `chunks`, each push seeing what was received before it. */
  function Deliveries<V(!new)>(codec: Codec<V>, received: seq<byte>, chunks: seq<seq<byte>>,
      limit: nat): seq<Option<seq<V>>>
    decreases |chunks|
  {
    if chunks == [] then []
    else [PushOutput(codec, received, chunks[0], limit)] + Deliveries(codec, received + chunks[0], chunks[1..], limit)
  }

  /** What one push returns: the messages completed by this chunk, or a failure. */
  function PushOutput<V(!new)>(codec: Codec<V>, received: seq<byte>, chunk: seq<byte>, limit: nat): Option<seq<V>> {
    match (DecodeStream(codec, received, limit), DecodeStream(codec, received + chunk, limit))
    case (Some(x), Some(y)) => if |x| <= |y| then Some(y[|x|..]) else None
    case _ => None
  }

  /** The outputs of pushes that all succeed, back to back. */
  function Joined<V>(outs: seq<Option<seq<V>>>): seq<V>
    requires forall i :: 0 <= i < |outs| ==> outs[i].Some?
  {
    Flatten(seq(|outs|, i requires 0 <= i < |outs| => outs[i].value))
  }

  lemma JoinedFirst<V>(x: seq<V>, y: seq<V>, rest: seq<Option<seq<V>>>)
    requires x <= y && forall i :: 0 <= i < |rest| ==> rest[i].Some?
    ensures x + Joined([Some(y[|x|..])] + rest) == y + Joined(rest)
  {
    var outs := [Some(y[|x|..])] + rest;
    var all := seq(|outs|, i requires 0 <= i < |outs| => outs[i].value);
    var tail := seq(|rest|, i requires 0 <= i < |rest| => rest[i].value);
    assert all == [y[|x|..]] + tail;
    assert all[1..] == tail;
    assert x + y[|x|..] == y;
  }

  /** However sent messages are cut into chunks, every push succeeds and the outputs are the messages in order. */
  lemma {:induction false} AnyChunking<V(!new)>(codec: Codec<V>, received: seq<byte>, chunks: seq<seq<byte>>,
      limit: nat)
    requires DecodeStream(codec, received + Flatten(chunks), limit).Some?
    ensures var outs := Deliveries(codec, received, chunks, limit);
      && |outs| == |chunks|
      && (forall i :: 0 <= i < |outs| ==> outs[i].Some?)
      && DecodeStream(codec, received, limit).Some?
      && DecodeStream(codec, received + Flatten(chunks), limit).value ==
           DecodeStream(codec, received, limit).value + Joined(outs)
    decreases |chunks|
  {
    hide DecodeStream;
    if chunks == [] {
      assert received + Flatten(chunks) == received;
      var x := DecodeStream(codec, received, limit).value;
      assert x + [] == x;
    } else {
      var next := received + chunks[0];
      assert next + Flatten(chunks[1..]) == received + Flatten(chunks);
      AnyChunking(codec, next, chunks[1..], limit);
      GoodPrefix(codec, received, chunks[0], limit);
      var rest := Deliveries(codec, next, chunks[1..], limit);
      var x, y := DecodeStream(codec, received, limit).value, DecodeStream(codec, next, limit).value;
      assert Deliveries(codec, received, chunks, limit) == [Some(y[|x|..])] + rest;
      JoinedFirst(x, y, rest);
      hide Joined, Flatten;
    }
  }

  class MessageDecoder<V(!new)> {
    const codec: Codec<V>
    const frames: FrameDecoder
    var failed: bool

    // Every message handed out so far.
    ghost var delivered: seq<V>

    constructor (codec: Codec<V>, limit: nat)
      requires limit <= MAX_UINT32
      ensures Valid() && !failed && delivered == [] && fresh(frames) && fresh(frames.header)
      ensures this.codec == codec && frames.maxFrameLength == limit
      ensures frames.received == [] && frames.state == Open && frames.payloadBlocks == []
    {
      this.codec := codec;
      frames := new FrameDecoder(limit);
      failed := false;
      delivered := [];
    }

    /** Not failed means that the bytes so far were good and their messages handed out; failed means they were not. */
    ghost predicate Valid()
      reads this, frames, frames.header, frames.payloadBlocks
    {
      && frames.Valid()
      && (!failed ==> frames.state != Failed && DecodeStream(codec, frames.received,
          frames.maxFrameLength) == Some(delivered))
      && (failed ==> frames.state != Open || DecodeStream(codec, frames.received, frames.maxFrameLength) == None)
    }

    method Push(chunk: array<byte>) returns (r: Result<seq<V>, CodecError>)
      requires Valid()
      requires chunk != frames.header && chunk !in frames.payloadBlocks
      modifies this, frames, frames.header, frames.payloadBlocks
      ensures Valid()
      ensures forall b :: b in frames.payloadBlocks ==> b in old(frames.payloadBlocks) || fresh(b)
      ensures old(failed) ==> r == Err(DecoderFailed) && failed && frames.received == old(frames.received)
      ensures !old(failed) && old(frames.state) != Open ==> r == Err(BadFraming(HasEnded)) && failed
      ensures !old(failed) && old(frames.state) == Open ==>
        && frames.received == old(frames.received) + chunk[..]
        && match PushOutput(codec, old(frames.received), chunk[..], frames.maxFrameLength)
           case Some(out) => r == Ok(out) && !failed && delivered == old(delivered) + out
           case None => r.Err? && failed
    {
      hide ParseStream, FrameDecoder.Buffered, FrameDecoder.BuffersOk, DecodeFrames;
      if failed { return Err(DecoderFailed); }
      ghost var before, emitted, buffered := frames.received, frames.emitted, frames.Buffered();
      ghost var bytes, limit := chunk[..], frames.maxFrameLength;
      if frames.state == Open { ParseStreamAppend(before, bytes, limit); }
      var pushed := frames.Push(chunk);
      if pushed.Err? {
        failed := true;
        return Err(BadFraming(pushed.error));
      }
      ghost var fs := ParseStream(buffered + bytes, limit).frames;
      DecodeFramesAppend(codec, emitted, fs);
      var messages := DecodeAll(pushed.value, fs);
      if messages == None {
        failed := true;
        return Err(BadMessage);
      }
      delivered := delivered + messages.value;
      return Ok(messages.value);
    }

    /** The loop over the frames of one push, abandoned at the first bad message. */
    method DecodeAll(pushed: seq<array<byte>>, ghost fs: seq<seq<byte>>) returns (messages: Option<seq<V>>)
      requires Holds(pushed, fs)
      ensures messages == DecodeFrames(codec, fs)
    {
      var vs: seq<V> := [];
      var index := 0;
      while index < |pushed|
        invariant 0 <= index <= |pushed|
        invariant DecodeFrames(codec, fs[..index]) == Some(vs)
      {
        assert fs[..index + 1][..index] == fs[..index];
        var message := codec.Decode(pushed[index][..]);
        if message == None {
          SpoiledList(codec, fs, index);
          return None;
        }
        vs := vs + [message.value];
        index := index + 1;
      }
      assert fs[..index] == fs;
      return Some(vs);
    }

    method End() returns (r: Result<(), CodecError>)
      requires Valid()
      modifies this, frames
      ensures Valid() && delivered == old(delivered)
      ensures old(failed) ==> r == Err(DecoderFailed) && failed
      ensures !old(failed) && old(frames.state) == Open ==>
                (r.Ok? <==> Accepted(frames.received, frames.maxFrameLength)) && (r.Err? <==> failed)
      ensures !old(failed) && old(frames.state) != Open ==> r.Err? && failed
    {
      if failed { return Err(DecoderFailed); }
      var ended := frames.End();
      if ended.Err? {
        failed := true;
        return Err(BadFraming(ended.error));
      }
      return Ok(());
    }
  }

  lemma SpoiledList<V(!new)>(codec: Codec<V>, frames: seq<seq<byte>>, k: nat)
    requires k < |frames| && codec.Decode(frames[k]).None?
    ensures DecodeFrames(codec, frames).None?
  {
    assert frames[..k + 1][..k] == frames[..k];
    assert frames == frames[..k + 1] + frames[k + 1..];
    DecodeFramesAppend(codec, frames[..k + 1], frames[k + 1..]);
  }
}
