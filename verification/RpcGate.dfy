/**
 The server's gate, one subscription at a time: what a handler step does to the updates published for
 a subscription and to the pieces its encoder puts on the wire.
 */
module RpcGate {
  import opened Common
  import opened RpcProtocol
  import opened RpcServer

  function UpdatesOf(stream: Option<History>): seq<Update> {
    if stream.Some? then stream.value.updates else []
  }

  /** Published updates are encoded, or lost behind a removed encoder, or held by the gate: in that order. */
  ghost predicate HandlerOk(s: ServerState, h: Handler) {
    h.call.Subscribe? ==>
      var sub := h.call.sub;
      && sub in s.published
      && s.published[sub] == UpdatesOf(h.stream) + h.lost + h.held
      && (sub in s.encoders ==> h.stream == Some(s.encoders[sub]) && h.lost == [])
      && (h.stream.None? ==> h.lost == [])
      && (h.gateOpen ==> h.held == [] && h.stream.Some? && h.phase == Finished)
      && (h.phase == Invoking <==> h.answer.None?)
      && (h.stream.Some? <==> h.answer.Some? && h.answer.value.Success?)
  }

  /** The encoder's stream grows by exactly the pieces sent, and by at most one update. */
  ghost predicate StreamGrows(codec: Codec, h: Handler, g: Handler, sent: seq<ToClient>, canSend: bool) {
    h.call.Subscribe? ==>
      && Follows(h.stream, g.stream)
      && (h.stream.Some? ==> g.stream.Some?)
      && exists added: seq<Piece> {:trigger Encoded(codec, h.stream) + added} ::
           && Encoded(codec, g.stream) == Encoded(codec, h.stream) + added
           && Pieces(sent, h.id, h.call.sub) == if canSend then added else []
  }

  /** The shared maps change for the handler's own subscription only, or lose an encoder. */
  ghost predicate MapsOk(s: ServerState, t: ServerState, h: Handler) {
    && (forall id :: id in t.activeRequests ==> id in s.activeRequests && t.activeRequests[id] == s.activeRequests[id])
    && (forall x :: x in t.encoders && !(h.call == Subscribe(x)) ==> x in s.encoders && t.encoders[x] == s.encoders[x])
    && (forall x :: x in t.published && !(h.call == Subscribe(x)) ==>
        x in s.published && t.published[x] == s.published[x])
    && (forall x :: x in s.published ==> x in t.published && s.published[x] <= t.published[x])
    && t.cancelled == s.cancelled
  }

  ghost predicate Effect(codec: Codec, s: ServerState, k: nat, o: Out) {
    && k < |s.handlers| == |o.state.handlers|
    && var h, g := s.handlers[k], o.state.handlers[k];
    && HandlerOk(o.state, g)
    && StreamGrows(codec, h, g, o.sent, CanSend(s))
    && MapsOk(s, o.state, h)
    && (forall m :: m in o.sent && m.Response? && m.reply.Success? && h.call.Subscribe? ==>
          g.stream.Some? && m.reply == Success(Some(codec.encodeSnapshot(g.stream.value.snapshot))))
  }

  lemma NoPieces(codec: Codec, h: Handler, g: Handler, sent: seq<ToClient>, canSend: bool)
    requires h.call.Subscribe? ==> g.stream == h.stream && Pieces(sent, h.id, h.call.sub) == []
    ensures StreamGrows(codec, h, g, sent, canSend)
  {
    assert Encoded(codec, h.stream) + [] == Encoded(codec, h.stream);
  }

  lemma OnePiece(m: ToClient, id: nat, sub: nat)
    ensures Pieces([m], id, sub) == PieceOf(m, id, sub)
    ensures Pieces([], id, sub) == []
  {
    PiecesSnoc([], m, id, sub);
    assert [] + [m] == [m];
  }

  lemma InvokeEffect(codec: Codec, s: ServerState, k: nat, r: Invoked)
    requires k < |s.handlers| && s.handlers[k].phase == Invoking && HandlerOk(s, s.handlers[k])
    ensures Effect(codec, s, k, AfterInvoke(codec, s, k, r))
  {
    var h := s.handlers[k];
    if h.call.Subscribe? && r.SnapshotResult? {
      SnapshotEffect(codec, s, k, r.snapshot);
    } else if h.call.Unsubscribe? && !r.Threw? {
      OtherEffect(codec, s, s.(encoders := s.encoders - {h.call.sub}), k, r,
          Success(if r.ValueResult? then Some(r.value) else None));
    } else if h.call.Subscribe? || r.Threw? {
      OtherEffect(codec, s, s, k, r, Failure);
    } else {
      OtherEffect(codec, s, s, k, r, Success(if r.ValueResult? then Some(r.value) else None));
    }
    hide Effect, Answer;
  }

  /** A subscription that got its snapshot: the encoder is installed and the snapshot is the first piece. */
  lemma SnapshotEffect(codec: Codec, s: ServerState, k: nat, snapshot: Snapshot)
    requires k < |s.handlers| && s.handlers[k].phase == Invoking && HandlerOk(s, s.handlers[k]) &&
      s.handlers[k].call.Subscribe?
    ensures Effect(codec, s, k, AfterInvoke(codec, s, k, SnapshotResult(snapshot)))
  {
    hide Pieces, Encoded;
    var h := s.handlers[k];
    var o := AfterInvoke(codec, s, k, SnapshotResult(snapshot));
    var g := o.state.handlers[k];
    OnePiece(Response(h.id, g.answer.value), h.id, h.call.sub);
    EncodedStart(codec, snapshot);
    assert Encoded(codec, h.stream) + [SnapshotPiece(codec.encodeSnapshot(snapshot))] == Encoded(codec, g.stream);
  }

  /** An answer that carries no snapshot. */
  lemma OtherEffect(codec: Codec, s: ServerState, t: ServerState, k: nat, r: Invoked, reply: Reply)
    requires k < |s.handlers| && s.handlers[k].phase == Invoking && HandlerOk(s, s.handlers[k])
    requires s.handlers[k].call.Subscribe? ==> reply == Failure && t == s
    requires t == s.(encoders := t.encoders) && t.encoders.Keys <= s.encoders.Keys
    requires forall x :: x in t.encoders ==> t.encoders[x] == s.encoders[x]
    ensures Effect(codec, s, k, Answer(t, k, r, reply))
  {
    hide Pieces, Encoded;
    var h := s.handlers[k];
    var o := Answer(t, k, r, reply);
    OnePiece(Response(h.id, reply), h.id, if h.call.Subscribe? then h.call.sub else 0);
    NoPieces(codec, h, o.state.handlers[k], o.sent, CanSend(s));
  }

  lemma EncodedStart(codec: Codec, snapshot: Snapshot)
    ensures Encoded(codec, None) == []
    ensures Encoded(codec, Some(History(snapshot, []))) == [SnapshotPiece(codec.encodeSnapshot(snapshot))]
  {
  }

  /** Sending the update at the head of what is not yet encoded. */
  lemma SendUpdateEffect(codec: Codec, s: ServerState, k: nat, u: Update, later: seq<Update>)
    requires k < |s.handlers|
    requires var h := s.handlers[k];
      && h.call.Subscribe? && h.stream.Some? && h.call.sub in s.published
      && s.published[h.call.sub] == UpdatesOf(h.stream) + h.lost + ([u] + later)
      && (h.call.sub in s.encoders ==> h.stream == Some(s.encoders[h.call.sub]) && h.lost == [])
    ensures var h := s.handlers[k]; var o := SendUpdate(codec, s, k, h.call.sub, u); var g := o.state.handlers[k];
      && g == h.(stream := g.stream, lost := g.lost) && g.stream.Some?
      && o.state.published[h.call.sub] == UpdatesOf(g.stream) + g.lost + later
      && (h.call.sub in o.state.encoders ==> g.stream == Some(o.state.encoders[h.call.sub]) && g.lost == [])
      && StreamGrows(codec, h, g, o.sent, CanSend(s))
      && MapsOk(s, o.state, h)
      && (forall m :: m in o.sent ==> !m.Response?)
  {
    hide Pieces, Encoded;
    var h := s.handlers[k];
    var sub := h.call.sub;
    var o := SendUpdate(codec, s, k, sub, u);
    var g := o.state.handlers[k];
    if sub in s.encoders {
      var e := s.encoders[sub];
      assert e.updates + [] + ([u] + later) == (e.updates + [u]) + [] + later;
      EncodedExtend(codec, e, u);
      OnePiece(ServiceUpdate(sub, codec.encodeUpdate(e, u)), h.id, sub);
      assert Encoded(codec, h.stream) + [UpdatePiece(codec.encodeUpdate(e, u))] == Encoded(codec, g.stream);
    } else {
      var us := UpdatesOf(h.stream);
      assert us + h.lost + ([u] + later) == us + (h.lost + [u]) + later;
      OnePiece(Attachment, h.id, sub);
      NoPieces(codec, h, g, o.sent, CanSend(s));
    }
  }

  lemma SentEffect(codec: Codec, s: ServerState, k: nat)
    requires k < |s.handlers| && (s.handlers[k].phase == Replying || s.handlers[k].phase == Draining)
    requires HandlerOk(s, s.handlers[k])
    ensures Effect(codec, s, k, AfterSend(codec, s, k))
  {
    hide SendUpdate, Finish, Effect;
    var h := s.handlers[k];
    if !h.call.Subscribe? || h.answer == Some(Failure) {
      EndEffect(codec, s, k, h);
    } else if h.held == [] {
      EndEffect(codec, s, k, h.(gateOpen := true));
    } else {
      DrainEffect(codec, s, k);
    }
  }

  /** The end of a handler, with the gate opened if there is one. */
  lemma EndEffect(codec: Codec, s: ServerState, k: nat, h': Handler)
    requires k < |s.handlers| && s.handlers[k].phase != Invoking && HandlerOk(s, s.handlers[k])
    requires h' == s.handlers[k] ||
             (h' == s.handlers[k].(gateOpen := true) && h'.held == [] && h'.call.Subscribe? && h'.answer.Some? &&
                 h'.answer != Some(Failure))
    ensures Effect(codec, s, k, Out(Finish(WithHandler(s, k, h'), k), []))
    ensures h' == s.handlers[k] ==> Effect(codec, s, k, Out(Finish(s, k), []))
  {
    hide Pieces, Encoded, Finish, StreamGrows;
    var h := s.handlers[k];
    assert h' == h ==> WithHandler(s, k, h') == s;
    FinishEffect(WithHandler(s, k, h'), k);
    OnePiece(Attachment, h.id, if h.call.Subscribe? then h.call.sub else 0);
    NoPieces(codec, h, h'.(phase := Finished), [], CanSend(s));
  }

  /** One round of the drain loop. */
  lemma DrainEffect(codec: Codec, s: ServerState, k: nat)
    requires k < |s.handlers| && (s.handlers[k].phase == Replying || s.handlers[k].phase == Draining)
    requires HandlerOk(s, s.handlers[k])
    requires var h := s.handlers[k]; h.call.Subscribe? && h.answer != Some(Failure) && h.held != []
    ensures var h := s.handlers[k];
      Effect(codec, s, k, SendUpdate(codec, WithHandler(s, k, h.(phase := Draining, held := h.held[1..])), k,
          h.call.sub, h.held[0]))
  {
    hide Pieces, Encoded, SendUpdate, StreamGrows;
    var h := s.handlers[k];
    var h' := h.(phase := Draining, held := h.held[1..]);
    var t := WithHandler(s, k, h');
    assert h.held == [h.held[0]] + h.held[1..];
    SendUpdateEffect(codec, t, k, h.held[0], h.held[1..]);
    SendUpdateStep(codec, t, k, h.call.sub, h.held[0]);
    var o := SendUpdate(codec, t, k, h.call.sub, h.held[0]);
    SameGrowth(codec, h, h', o.state.handlers[k], o.sent, CanSend(s));
  }

  lemma SameGrowth(codec: Codec, h: Handler, h': Handler, g: Handler, sent: seq<ToClient>, canSend: bool)
    requires h'.stream == h.stream && h'.call == h.call && h'.id == h.id && StreamGrows(codec, h', g, sent, canSend)
    ensures StreamGrows(codec, h, g, sent, canSend)
  {
  }

  lemma FinishEffect(s: ServerState, k: nat)
    requires k < |s.handlers|
    ensures var t := Finish(s, k);
      && |t.handlers| == |s.handlers| && t.handlers[k] == s.handlers[k].(phase := Finished)
      && t.encoders == s.encoders && t.published == s.published && t.cancelled == s.cancelled
      && (forall id :: id in t.activeRequests ==>
          id in s.activeRequests && t.activeRequests[id] == s.activeRequests[id])
  {
  }

  lemma PublishEffect(codec: Codec, s: ServerState, k: nat, u: Update)
    requires k < |s.handlers| && s.handlers[k].call.Subscribe? && HandlerOk(s, s.handlers[k])
    ensures Effect(codec, s, k, Publishing(codec, s, k, u))
  {
    hide Pieces, Encoded, SendUpdate, StreamGrows;
    var h := s.handlers[k];
    var sub := h.call.sub;
    var o := Publishing(codec, s, k, u);
    var t := s.(published := s.published[sub := s.published[sub] + [u]]);
    if !h.gateOpen {
      OnePiece(Attachment, h.id, sub);
      NoPieces(codec, h, o.state.handlers[k], [], CanSend(s));
      assert UpdatesOf(h.stream) + h.lost + (h.held + [u]) == (UpdatesOf(h.stream) + h.lost + h.held) + [u];
    } else {
      assert UpdatesOf(h.stream) + h.lost + ([u] + []) == (UpdatesOf(h.stream) + h.lost + []) + [u];
      SendUpdateEffect(codec, t, k, u, []);
      SendUpdateStep(codec, t, k, sub, u);
    }
  }

  lemma HandlerEffect(codec: Codec, s: ServerState, a: ServerAction)
    requires HandlerAction(s, a) && HandlerOk(s, s.handlers[a.handler])
    ensures Effect(codec, s, a.handler, Step(codec, s, a))
  {
    hide AfterInvoke, AfterSend, Publishing, Effect, HandlerOk;
    match a
    case InvokeSettled(k, r) => InvokeEffect(codec, s, k, r);
    case SendSettled(k) => SentEffect(codec, s, k);
    case Publish(k, u) => PublishEffect(codec, s, k, u);
  }
}
