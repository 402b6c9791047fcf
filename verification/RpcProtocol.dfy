/** Messages of the RPC protocol and the stateful codec of one service subscription. */
module RpcProtocol {
  import opened Common

  type Snapshot(==, !new)
  type Update(==, !new)
  // Any JSON result or encoded state on the wire.
  type Wire(==, !new)

  /** Everything one subscription has carried so far; the state of an encoder or decoder is a function of it. */
  datatype History = History(snapshot: Snapshot, updates: seq<Update>)

  function Extend(h: History, u: Update): History { h.(updates := h.updates + [u]) }

  /** The state encoder and decoder, as functions of what they have carried before. */
  datatype Codec = Codec(
    encodeSnapshot: Snapshot -> Wire,
    decodeSnapshot: Wire -> Option<Snapshot>,
    encodeUpdate: (History, Update) -> Wire,
    decodeUpdate: (History, Wire) -> Option<Update>)
  {
    /** A decoder that has carried the same history decodes what the encoder encodes; nothing is promised otherwise. */
    ghost predicate Lawful() {
      && (forall s :: decodeSnapshot(encodeSnapshot(s)) == Some(s))
      && (forall h, u :: decodeUpdate(h, encodeUpdate(h, u)) == Some(u))
    }
  }

  datatype Call = Subscribe(sub: nat) | Unsubscribe(sub: nat) | Plain | Malformed

  datatype Reply = Success(result: Option<Wire>) | Failure

  datatype ToServer = Hello | Request(id: nat, call: Call) | Cancel(id: nat)

  datatype ToClient =
    | Greeting
    | Refusal
    | Response(id: nat, reply: Reply)
    | ServiceUpdate(sub: nat, wire: Wire)
    | Attachment

  /** Ids of the requests in a list of messages. */
  function RequestIds(ms: seq<ToServer>): multiset<nat> {
    if ms == [] then multiset{}
    else RequestIds(ms[..|ms| - 1]) + OneRequest(ms[|ms| - 1])
  }

  function OneRequest(m: ToServer): multiset<nat> {
    if m.Request? then multiset{m.id} else multiset{}
  }

  function ResponseIds(ms: seq<ToClient>): multiset<nat> {
    if ms == [] then multiset{}
    else ResponseIds(ms[..|ms| - 1]) + OneResponse(ms[|ms| - 1])
  }

  function OneResponse(m: ToClient): multiset<nat> {
    if m.Response? then multiset{m.id} else multiset{}
  }

  lemma {:induction false} RequestIdsHead(ms: seq<ToServer>)
    requires ms != []
    ensures RequestIds(ms) == OneRequest(ms[0]) + RequestIds(ms[1..])
  {
    var last := |ms| - 1;
    if last == 0 {
      assert ms[..last] == [] && ms[1..] == [];
    } else {
      assert ms[1..][..|ms[1..]| - 1] == ms[..last][1..];
      RequestIdsHead(ms[..last]);
    }
  }

  lemma {:induction false} ResponseIdsHead(ms: seq<ToClient>)
    requires ms != []
    ensures ResponseIds(ms) == OneResponse(ms[0]) + ResponseIds(ms[1..])
  {
    var last := |ms| - 1;
    if last == 0 {
      assert ms[..last] == [] && ms[1..] == [];
    } else {
      assert ms[1..][..|ms[1..]| - 1] == ms[..last][1..];
      ResponseIdsHead(ms[..last]);
    }
  }

  lemma RequestIdsSnoc(ms: seq<ToServer>, m: ToServer)
    ensures RequestIds(ms + [m]) == RequestIds(ms) + OneRequest(m)
  {
    assert (ms + [m])[..|ms|] == ms;
  }

  lemma {:induction false} RequestIdIn(ms: seq<ToServer>, k: nat)
    requires k < |ms| && ms[k].Request?
    ensures ms[k].id in RequestIds(ms)
  {
    if k < |ms| - 1 { RequestIdIn(ms[..|ms| - 1], k); }
  }

  lemma {:induction false} ResponseIdIn(ms: seq<ToClient>, k: nat)
    requires k < |ms| && ms[k].Response?
    ensures ms[k].id in ResponseIds(ms)
  {
    if k < |ms| - 1 { ResponseIdIn(ms[..|ms| - 1], k); }
  }

  // ---------------------------------------------------------------- one subscription's share of the wire

  datatype Piece = SnapshotPiece(wire: Wire) | UpdatePiece(wire: Wire)

  /** What a message carries for subscription `sub`, opened by request `id`. */
  function PieceOf(m: ToClient, id: nat, sub: nat): seq<Piece> {
    match m
    case Response(i, Success(Some(w))) => if i == id then [SnapshotPiece(w)] else []
    case ServiceUpdate(s, w) => if s == sub then [UpdatePiece(w)] else []
    case _ => []
  }

  function Pieces(ms: seq<ToClient>, id: nat, sub: nat): seq<Piece> {
    if ms == [] then []
    else Pieces(ms[..|ms| - 1], id, sub) + PieceOf(ms[|ms| - 1], id, sub)
  }

  lemma PiecesSnoc(ms: seq<ToClient>, m: ToClient, id: nat, sub: nat)
    ensures Pieces(ms + [m], id, sub) == Pieces(ms, id, sub) + PieceOf(m, id, sub)
  {
    assert (ms + [m])[..|ms|] == ms;
  }

  lemma {:induction false} PiecesHead(ms: seq<ToClient>, id: nat, sub: nat)
    requires ms != []
    ensures Pieces(ms, id, sub) == PieceOf(ms[0], id, sub) + Pieces(ms[1..], id, sub)
  {
    hide PieceOf;
    var last := |ms| - 1;
    if last == 0 {
      assert ms[..last] == [] && ms[1..] == [];
    } else {
      assert ms[1..][..|ms[1..]| - 1] == ms[..last][1..];
      PiecesHead(ms[..last], id, sub);
    }
  }

  /** What an encoder puts on the wire for a history, piece by piece. */
  function Encoded(codec: Codec, stream: Option<History>): (ps: seq<Piece>)
    ensures |ps| == Carried(stream)
    decreases if stream.None? then 0 else 1 + |stream.value.updates|
  {
    match stream
    case None => []
    case Some(h) =>
      if h.updates == [] then [SnapshotPiece(codec.encodeSnapshot(h.snapshot))]
      else
        var before := Before(h);
        Encoded(codec, Some(before)) + [UpdatePiece(codec.encodeUpdate(before, h.updates[|h.updates| - 1]))]
  }

  function Before(h: History): History
    requires h.updates != []
  {
    h.(updates := h.updates[..|h.updates| - 1])
  }

  /** The number of pieces in a history. */
  function Carried(stream: Option<History>): nat {
    match stream case None => 0 case Some(h) => 1 + |h.updates|
  }

  /** A decoder's history is a prefix of the encoder's. */
  predicate Follows(decoded: Option<History>, stream: Option<History>) {
    decoded.Some? ==>
      stream.Some? && decoded.value.snapshot == stream.value.snapshot && decoded.value.updates <= stream.value.updates
  }

  lemma EncodedExtend(codec: Codec, h: History, u: Update)
    ensures Encoded(codec, Some(Extend(h, u))) == Encoded(codec, Some(h)) + [UpdatePiece(codec.encodeUpdate(h, u))]
  {
    assert Before(Extend(h, u)) == h;
  }

  /** The piece after those carried by a shorter history is that history's next update, encoded against it. */
  lemma {:induction false} EncodedAt(codec: Codec, stream: History, n: nat)
    requires n <= |stream.updates|
    ensures Encoded(codec, Some(stream))[n] ==
            if n == 0 then SnapshotPiece(codec.encodeSnapshot(stream.snapshot))
            else UpdatePiece(codec.encodeUpdate(stream.(updates := stream.updates[..n - 1]), stream.updates[n - 1]))
    decreases |stream.updates|
  {
    if stream.updates != [] && n < |stream.updates| {
      EncodedAt(codec, Before(stream), n);
      if n > 0 { assert Before(stream).updates[..n - 1] == stream.updates[..n - 1]; }
    }
  }
}
