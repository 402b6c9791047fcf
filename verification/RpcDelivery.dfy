/** A message taken off the wire by the client keeps the invariant; no violation is ever detected. */
module RpcDelivery {
  import opened Common
  import opened RpcClientSteps
  import opened RpcGate
  import opened RpcProtocol
  import opened RpcServerSteps
  import opened RpcSystem
  import C = RpcClient
  import S = RpcServer

  function Popped(sys: System, d: C.ClientState): System
    requires sys.toClient != []
  {
    sys.(client := d, toClient := sys.toClient[1..])
  }

  lemma EndsPop(codec: Codec, l: C.Listener, registered: bool, registered': bool, wire: seq<ToClient>, h: S.Handler,
      exact: bool)
    requires h.call.Subscribe? && EndsOk(codec, l, registered, wire, h, exact) && wire != []
    requires registered' ==> registered && PieceOf(wire[0], h.id, h.call.sub) == []
    ensures EndsOk(codec, l, registered', wire[1..], h, exact)
  {
    hide Between, Encoded, Pieces, Carries;
    PiecesHead(wire, h.id, h.call.sub);
    var id, sub := h.id, h.call.sub;
    assert [] + Pieces(wire[1..], id, sub) == Pieces(wire[1..], id, sub);
  }

  /** The piece at the head of the wire is the decoder's next one. */
  lemma BetweenHead(p: Piece, ps: seq<Piece>, all: seq<Piece>, from: nat, exact: bool)
    requires Between([p] + ps, all, from, exact)
    ensures from < |all| && all[from] == p && Between(ps, all, from + 1, exact)
  {
    var rest := all[from..];
    assert ([p] + ps)[0] == rest[0];
    assert ps == ([p] + ps)[1..];
    assert all[from + 1..] == rest[1..];
  }

  // ---------------------------------------------------------------- tokens

  lemma PoppedIds(sys: System, d: C.ClientState)
    requires sys.toClient != []
    ensures ResponseIds(sys.toClient) == OneResponse(sys.toClient[0]) + ResponseIds(sys.toClient[1..])
    ensures Unanswered(sys, None) == Unanswered(Popped(sys, d), None) + OneResponse(sys.toClient[0])
    ensures Entered(sys, None) == Entered(Popped(sys, d), None)
  {
    hide S.Tally, ResponseIds, RequestIds;
    ResponseIdsHead(sys.toClient);
  }

  lemma WithOneLess(a: multiset<nat>, b: map<nat, Call>, id: nat)
    ensures a + multiset{id} <= multiset(b.Keys) ==> id in b && a <= multiset((b - {id}).Keys)
    ensures a + multiset{id} == multiset(b.Keys) ==> a == multiset((b - {id}).Keys)
  {
    if a + multiset{id} <= multiset(b.Keys) {
      assert (a + multiset{id})[id] <= multiset(b.Keys)[id];
      assert multiset((b - {id}).Keys) == multiset(b.Keys) - multiset{id};
    }
  }

  /** Responses leave the table together with the wire; other messages leave it alone. */
  lemma PoppedTokens(sys: System, d: C.ClientState)
    requires TokensOk(sys, None) && sys.toClient != []
    requires sys.client.phase == C.Connecting && d.phase == C.Online ==> d.pending == map[]
    requires d.phase != C.Offline ==> sys.client.phase != C.Offline && d.phase != C.Connecting
    requires sys.client.phase == C.Online && d.phase == C.Online ==>
               d.pending == if sys.toClient[0].Response? then sys.client.pending - {sys.toClient[0].id}
                   else sys.client.pending
    ensures TokensOk(Popped(sys, d), None)
  {
    hide S.Tally, ResponseIds, RequestIds, Entered, Unanswered, InHand;
    PoppedIds(sys, d);
    var t := Popped(sys, d);
    if sys.toClient[0].Response? {
      WithOneLess(Unanswered(t, None), sys.client.pending, sys.toClient[0].id);
    }
    if sys.client.phase == C.Connecting {
      assert Unanswered(t, None) == multiset{};
      assert multiset(d.pending.Keys) == multiset{} || d.phase == C.Offline;
    }
    forall id ensures Entered(t, None)[id] <= 1 { assert Entered(sys, None)[id] <= 1; }
  }

  // ---------------------------------------------------------------- messages that carry nothing for a listener

  /** Everything but a snapshot or an update for a registered listener. */
  ghost predicate CarriesNothing(sys: System, d: C.ClientState)
    requires sys.toClient != []
  {
    forall k :: 0 <= k < |sys.server.handlers| ==>
      var h := sys.server.handlers[k];
      h.call.Subscribe? && h.call.sub in d.registered ==> PieceOf(sys.toClient[0], h.id, h.call.sub) == []
  }

  lemma PoppedStreams(codec: Codec, sys: System, d: C.ClientState)
    requires StreamsOk(codec, sys) && SameListeners(sys.client, d) && sys.toClient != [] && CarriesNothing(sys, d)
    ensures StreamsOk(codec, Popped(sys, d))
  {
    hide EndsOk;
    var t := Popped(sys, d);
    forall k | 0 <= k < |t.server.handlers| ensures LinkOk(codec, t, t.server.handlers[k]) {
      var h := t.server.handlers[k];
      assert LinkOk(codec, sys, h);
      if h.call.Subscribe? {
        var sub := h.call.sub;
        var l, l', exact := sys.client.listeners[sub], d.listeners[sub], S.CanSend(t.server);
        EndsPop(codec, l, sub in sys.client.registered, sub in d.registered, sys.toClient, h, exact);
        EndsSame(codec, l, l', sub in d.registered, sub in d.registered, t.toClient, h, exact);
      }
    }
  }

  lemma PoppedCalls(sys: System, d: C.ClientState)
    requires sys.toClient != [] && CallsAgree(sys, None) && d.calls == sys.client.calls &&
      d.listeners.Keys == sys.client.listeners.Keys
    ensures CallsAgree(Popped(sys, d), None)
  {
  }

  lemma PoppedGreeting(sys: System, d: C.ClientState)
    requires GreetingOk(sys) && sys.toClient != [] && d.faults <= sys.client.faults + {C.UnexpectedHandshake}
    requires d.phase == sys.client.phase || d.phase == C.Offline ||
      (sys.client.phase == C.Connecting && sys.toClient[0] == Greeting)
    requires d.phase != C.Connecting
    ensures GreetingOk(Popped(sys, d))
  {
    hide S.StagesOk;
  }

  lemma PoppedKeeps(codec: Codec, sys: System, d: C.ClientState)
    requires Inv(codec, sys) && C.ClientOk(d) && sys.toClient != []
    requires SameListeners(sys.client, d) && d.calls == sys.client.calls && CarriesNothing(sys, d)
    requires d.faults <= sys.client.faults + {C.UnexpectedHandshake}
    requires d.phase == C.Offline || (d.phase == C.Online
               && (sys.client.phase == C.Online || (sys.client.phase == C.Connecting && sys.toClient[0] == Greeting &&
                   d.pending == map[]))
               && (sys.client.phase == C.Online ==>
                     d.pending == if sys.toClient[0].Response? then sys.client.pending - {sys.toClient[0].id}
                         else sys.client.pending))
    ensures Inv(codec, Popped(sys, d))
  {
    hide TokensOk, CallsAgree, StreamsOk, GreetingOk, C.ClientOk, CarriesNothing;
    PoppedTokens(sys, d);
    PoppedCalls(sys, d);
    PoppedStreams(codec, sys, d);
    PoppedGreeting(sys, d);
  }

  // ---------------------------------------------------------------- the snapshot

  /** The snapshot response: the decoder starts where the encoder started. */
  lemma EndsSnapshot(codec: Codec, l: C.Listener, registered: bool, wire: seq<ToClient>, h: S.Handler, exact: bool,
      result: Option<Wire>)
    requires codec.Lawful() && h.call.Subscribe? && EndsOk(codec, l, registered, wire, h, exact)
    requires wire != [] && wire[0] == Response(h.id, Success(result)) && l.history == None && l.queuedWire == []
    ensures h.stream.Some?
    ensures var (m, ok) := C.Hydrate(codec, l, result);
      && ok && m == l.(history := Some(History(h.stream.value.snapshot, [])))
      && EndsOk(codec, m, registered, wire[1..], h, exact)
  {
    hide Between, Encoded, Pieces, C.Hydrate;
    assert Carries(codec, wire[0], h);
    var w := codec.encodeSnapshot(h.stream.value.snapshot);
    Hydrated(codec, l, h.stream.value.snapshot);
    if registered {
      PiecesHead(wire, h.id, h.call.sub);
      BetweenHead(SnapshotPiece(w), Pieces(wire[1..], h.id, h.call.sub), Encoded(codec, h.stream), 0, exact);
    }
  }

  lemma Hydrated(codec: Codec, l: C.Listener, s: Snapshot)
    requires codec.Lawful() && l.queuedWire == []
    ensures C.Hydrate(codec, l, Some(codec.encodeSnapshot(s))) == (l.(history := Some(History(s, []))), true)
  {
    assert l.queued + [] == l.queued;
  }

  /** The next update: the decoder decodes exactly what the encoder was given. */
  lemma EndsUpdate(codec: Codec, l: C.Listener, wire: seq<ToClient>, h: S.Handler, exact: bool, w: Wire)
      returns (u: Update)
    requires codec.Lawful() && h.call.Subscribe? && EndsOk(codec, l, true, wire, h, exact)
    requires wire != [] && wire[0] == ServiceUpdate(h.call.sub, w)
    ensures l.history.Some? && codec.decodeUpdate(l.history.value, w) == Some(u)
    ensures h.stream.Some? && Extend(l.history.value, u).updates <= h.stream.value.updates
    ensures forall m: C.Listener :: m.request == l.request && m.history == Some(Extend(l.history.value, u)) ==>
              EndsOk(codec, m, true, wire[1..], h, exact)
  {
    hide Between, Encoded, Pieces, Carries;
    PiecesHead(wire, h.id, h.call.sub);
    var from := Carried(l.history);
    BetweenHead(UpdatePiece(w), Pieces(wire[1..], h.id, h.call.sub), Encoded(codec, h.stream), from, exact);
    var stream := h.stream.value;
    EncodedAt(codec, stream, from);
    u := stream.updates[from - 1];
    assert l.history.value == stream.(updates := stream.updates[..from - 1]);
    assert stream.updates[..from - 1] + [u] == stream.updates[..from];
  }

  // ---------------------------------------------------------------- one subscription moves

  /** The client moves subscription `sub`'s decoder and nothing else. */
  ghost predicate OneMoves(c: C.ClientState, d: C.ClientState, sub: nat, l: C.Listener) {
    sub in c.listeners && d.listeners == c.listeners[sub := l] && d.registered == c.registered && d.calls == c.calls
    && d.phase == C.Online && d.faults == c.faults
  }

  lemma MovedStreams(codec: Codec, sys: System, d: C.ClientState, k: nat, l: C.Listener)
    requires CoreOk(codec, sys, None) && sys.toClient != [] && k < |sys.server.handlers|
    requires var h := sys.server.handlers[k];
      && h.call.Subscribe? && OneMoves(sys.client, d, h.call.sub, l)
      && (sys.toClient[0].Response? ==> sys.toClient[0].id == h.id)
      && (sys.toClient[0].ServiceUpdate? ==> sys.toClient[0].sub == h.call.sub)
      && EndsOk(codec, l, h.call.sub in sys.client.registered, sys.toClient[1..], h, S.CanSend(sys.server))
      && l.queuedWire == [] && h.stream.Some? && l.history.Some? && l.history.value.updates <= h.stream.value.updates
    ensures StreamsOk(codec, Popped(sys, d))
  {
    hide EndsOk, TokensOk, CallsAgree, C.ClientOk;
    var t := Popped(sys, d);
    var h := sys.server.handlers[k];
    assert HandlerOk(sys.server, h);
    forall j: nat | j < |t.server.handlers| && j != k ensures LinkOk(codec, t, t.server.handlers[j]) {
      Distinct(codec, sys, None, j, k);
      var g := t.server.handlers[j];
      assert LinkOk(codec, sys, g);
      if g.call.Subscribe? {
        var registered := g.call.sub in d.registered;
        EndsPop(codec, d.listeners[g.call.sub], registered, registered, sys.toClient, g, S.CanSend(t.server));
      }
    }
  }

  lemma MovedKeeps(codec: Codec, sys: System, d: C.ClientState, k: nat, l: C.Listener)
    requires Inv(codec, sys) && sys.client.phase == C.Online && C.ClientOk(d) && sys.toClient != [] &&
      k < |sys.server.handlers|
    requires sys.toClient[0].Response? || sys.toClient[0].ServiceUpdate?
    requires var h := sys.server.handlers[k];
      && h.call.Subscribe? && OneMoves(sys.client, d, h.call.sub, l)
      && (sys.toClient[0].Response? ==> sys.toClient[0].id == h.id)
      && (sys.toClient[0].ServiceUpdate? ==> sys.toClient[0].sub == h.call.sub)
      && EndsOk(codec, l, h.call.sub in sys.client.registered, sys.toClient[1..], h, S.CanSend(sys.server))
      && l.queuedWire == [] && h.stream.Some? && l.history.Some? && l.history.value.updates <= h.stream.value.updates
    requires d.pending == if sys.toClient[0].Response? then sys.client.pending - {sys.toClient[0].id}
      else sys.client.pending
    ensures Inv(codec, Popped(sys, d))
  {
    hide TokensOk, CallsAgree, StreamsOk, GreetingOk, C.ClientOk, EndsOk;
    PoppedTokens(sys, d);
    PoppedCalls(sys, d);
    MovedStreams(codec, sys, d, k, l);
    PoppedGreeting(sys, d);
  }

  // ---------------------------------------------------------------- the cases

  /** Who a response answers: a pending request, whose handler has this very subscription. */
  lemma Answered(codec: Codec, sys: System) returns (k: nat)
    requires Inv(codec, sys) && sys.client.phase == C.Online && sys.toClient != [] && sys.toClient[0].Response?
    ensures var id := sys.toClient[0].id;
      && id in sys.client.pending
      && k < |sys.server.handlers| && sys.server.handlers[k].id == id &&
         sys.server.handlers[k].call == sys.client.pending[id]
  {
    hide S.Tally, RequestIds, C.SettledOk, C.ListenersOk, StreamsOk, InHand;
    var id := sys.toClient[0].id;
    ResponseIdIn(sys.toClient, 0);
    assert id in ResponseIds(sys.toClient);
    hide ResponseIds;
    assert id in Unanswered(sys, None);
    assert id in S.Tally(S.Answered, sys.server.handlers);
    k := S.TallyFrom(S.Answered, sys.server.handlers, id);
  }

  lemma Received(codec: Codec, sys: System)
    requires sys.toClient != []
    ensures Step(codec, sys, ClientReceives) == Popped(sys, C.Received(codec, sys.client, sys.toClient[0]))
  {
    hide C.Received;
    assert sys.toServer + [] == sys.toServer;
  }

  lemma NobodyListens(codec: Codec, sys: System)
    requires Inv(codec, sys) && sys.client.phase != C.Online
    ensures forall k :: 0 <= k < |sys.server.handlers| && sys.server.handlers[k].call.Subscribe? ==>
              sys.server.handlers[k].call.sub !in sys.client.registered
  {
    hide TokensOk, CallsAgree, GreetingOk, C.CallsOk, C.SettledOk, C.ListenerOk, UpdatesKnown, PrefixOk, Follows,
        Between, Carries;
    forall k | 0 <= k < |sys.server.handlers| && sys.server.handlers[k].call.Subscribe?
      ensures sys.server.handlers[k].call.sub !in sys.client.registered
    {
      assert LinkOk(codec, sys, sys.server.handlers[k]);
      var sub := sys.server.handlers[k].call.sub;
      assert C.SubscriptionOk(sys.client, sub, sys.client.listeners[sub]);
    }
  }

  lemma ReceivedFine(codec: Codec, sys: System)
    requires Inv(codec, sys) && sys.toClient != []
    ensures C.ClientOk(C.Received(codec, sys.client, sys.toClient[0]))
  {
    hide C.Received, C.ClientOk, TokensOk, CallsAgree, StreamsOk, GreetingOk;
    C.ReceivedOk(codec, sys.client, sys.toClient[0]);
  }

  lemma LostListeners(c: C.ClientState, why: C.Reason)
    ensures var d := C.Disconnected(c, why);
      SameListeners(c, d) && d.calls == c.calls && d.phase == C.Offline && d.faults == c.faults
  {
  }

  lemma ReceiveOffline(codec: Codec, sys: System)
    requires Inv(codec, sys) && sys.toClient != [] && sys.client.phase != C.Online
    ensures Inv(codec, Popped(sys, C.Received(codec, sys.client, sys.toClient[0])))
  {
    NobodyListens(codec, sys);
    ReceivedFine(codec, sys);
    if sys.client.phase == C.Connecting { HandshakeMessage(codec, sys); }
    hide Inv, C.ClientOk, C.Disconnected, SameListeners;
    LostListeners(sys.client, C.ByServer);
    LostListeners(sys.client, C.Lost);
    NoChange(sys.client);
    PoppedKeeps(codec, sys, C.Received(codec, sys.client, sys.toClient[0]));
  }

  lemma NoChange(c: C.ClientState)
    ensures forall p :: SameListeners(c, c.(phase := p))
    ensures SameListeners(c, c)
  {
  }

  lemma HandshakeMessage(codec: Codec, sys: System)
    requires Inv(codec, sys) && sys.toClient != [] && sys.client.phase == C.Connecting
    ensures sys.toClient[0] == Greeting || sys.toClient[0] == Refusal
    ensures sys.client.pending == map[]
  {
    hide TokensOk, CallsAgree, StreamsOk;
  }

  lemma LinkFacts(codec: Codec, sys: System, k: nat)
    requires Inv(codec, sys) && k < |sys.server.handlers| && sys.server.handlers[k].call.Subscribe?
    ensures var h := sys.server.handlers[k]; var sub := h.call.sub;
      && sub in sys.client.listeners && sys.client.listeners[sub].queuedWire == []
      && sys.client.listeners[sub].request == Some(h.id)
      && EndsOk(codec, sys.client.listeners[sub], sub in sys.client.registered, sys.toClient, h, S.CanSend(sys.server))
  {
    hide TokensOk, CallsAgree, GreetingOk, C.ClientOk, UpdatesKnown, Follows, Between, Carries, HandlerOk;
    assert LinkOk(codec, sys, sys.server.handlers[k]);
  }

  lemma PendingListener(c: C.ClientState, id: nat)
    requires C.ClientOk(c) && id in c.pending && c.pending[id].Subscribe?
    ensures var sub := c.pending[id].sub; sub in c.listeners && c.listeners[sub].history == None
  {
    hide C.ListenerOk, C.SettledOk;
    var sub := c.pending[id].sub;
    assert C.SubscriptionOk(c, sub, c.listeners[sub]);
  }

  lemma RespondedOnly(codec: Codec, sys: System, k: nat, d: C.ClientState)
    requires Inv(codec, sys) && sys.toClient != [] && sys.toClient[0].Response?
    requires k < |sys.server.handlers| && sys.server.handlers[k].id == sys.toClient[0].id
    requires sys.toClient[0].reply.Failure? || !sys.server.handlers[k].call.Subscribe?
    ensures CarriesNothing(sys, d)
  {
    hide TokensOk, CallsAgree, GreetingOk, StreamsOk, C.ClientOk;
    forall j: nat | j < |sys.server.handlers| && sys.server.handlers[j].call.Subscribe?
      ensures PieceOf(sys.toClient[0], sys.server.handlers[j].id, sys.server.handlers[j].call.sub) == []
    {
      if j != k { Distinct(codec, sys, None, j, k); }
    }
  }

  lemma ReceiveResponse(codec: Codec, sys: System)
    requires Inv(codec, sys) && codec.Lawful() && sys.client.phase == C.Online && sys.toClient != [] &&
      sys.toClient[0].Response?
    ensures Inv(codec, Popped(sys, C.Received(codec, sys.client, sys.toClient[0])))
  {
    var k := Answered(codec, sys);
    ReceivedFine(codec, sys);
    hide Inv, C.ClientOk, SameListeners, EndsOk, C.Hydrate, CarriesNothing, C.Received, OneMoves;
    var m := sys.toClient[0];
    var c := sys.client;
    var d := C.Received(codec, c, m);
    var h := sys.server.handlers[k];
    if m.reply.Failure? || !h.call.Subscribe? {
      RespondedOnly(codec, sys, k, d);
      AnsweredShape(codec, c, m.id, m.reply);
      PoppedKeeps(codec, sys, d);
    } else {
      LinkFacts(codec, sys, k);
      ClientFine(codec, sys);
      PendingListener(c, m.id);
      var sub := h.call.sub;
      EndsSnapshot(codec, c.listeners[sub], sub in c.registered, sys.toClient, h, S.CanSend(sys.server),
          m.reply.result);
      var l := C.Hydrate(codec, c.listeners[sub], m.reply.result).0;
      HydratedShape(codec, c, m.id, m.reply.result, l);
      MovedKeeps(codec, sys, d, k, l);
    }
  }

  lemma AnsweredShape(codec: Codec, c: C.ClientState, id: nat, reply: Reply)
    requires c.phase == C.Online && id in c.pending && (reply.Failure? || !c.pending[id].Subscribe?)
    ensures var d := C.Received(codec, c, Response(id, reply));
      && SameListeners(c, d) && d.calls == c.calls && d.faults == c.faults && d.phase == C.Online
      && d.pending == c.pending - {id}
  {
  }

  lemma HydratedShape(codec: Codec, c: C.ClientState, id: nat, result: Option<Wire>, l: C.Listener)
    requires c.phase == C.Online && id in c.pending && c.pending[id].Subscribe? && c.pending[id].sub in c.listeners
    requires C.Hydrate(codec, c.listeners[c.pending[id].sub], result) == (l, true)
    ensures var d := C.Received(codec, c, Response(id, Success(result)));
      OneMoves(c, d, c.pending[id].sub, l) && d.pending == c.pending - {id}
  {
    hide C.Hydrate;
  }

  lemma UpdatedShape(codec: Codec, c: C.ClientState, sub: nat, w: Wire, u: Update) returns (l: C.Listener)
    requires c.phase == C.Online && sub in c.registered && sub in c.listeners && c.listeners[sub].history.Some?
    requires codec.decodeUpdate(c.listeners[sub].history.value, w) == Some(u)
    ensures var d := C.Received(codec, c, ServiceUpdate(sub, w));
      && OneMoves(c, d, sub, l) && d.pending == c.pending
      && l.request == c.listeners[sub].request && l.queuedWire == c.listeners[sub].queuedWire
      && l.history == Some(Extend(c.listeners[sub].history.value, u))
  {
    l := C.Received(codec, c, ServiceUpdate(sub, w)).listeners[sub];
  }

  lemma UnheardShape(codec: Codec, c: C.ClientState, sub: nat, w: Wire)
    requires c.phase == C.Online && sub !in c.registered
    ensures C.Received(codec, c, ServiceUpdate(sub, w)) == c
  {
  }

  /** An update for a registered listener belongs to a handler that opened this very subscription. */
  lemma Updated(codec: Codec, sys: System) returns (k: nat)
    requires Inv(codec, sys) && sys.toClient != [] && sys.toClient[0].ServiceUpdate?
    ensures k < |sys.server.handlers| && sys.server.handlers[k].call == Subscribe(sys.toClient[0].sub)
  {
    hide TokensOk, CallsAgree, GreetingOk, C.ClientOk, PrefixOk, LinkOk, HandlerOk;
    assert HasHandler(sys.server.handlers, sys.toClient[0].sub);
    k :| k < |sys.server.handlers| && sys.server.handlers[k].call == Subscribe(sys.toClient[0].sub);
  }

  lemma UnheardUpdate(codec: Codec, sys: System)
    requires sys.toClient != [] && sys.toClient[0].ServiceUpdate? && sys.toClient[0].sub !in sys.client.registered
    ensures CarriesNothing(sys, sys.client) && SameListeners(sys.client, sys.client)
  {
  }

  lemma ReceiveUpdate(codec: Codec, sys: System)
    requires Inv(codec, sys) && codec.Lawful() && sys.client.phase == C.Online && sys.toClient != [] &&
      sys.toClient[0].ServiceUpdate?
    ensures Inv(codec, Popped(sys, C.Received(codec, sys.client, sys.toClient[0])))
  {
    ReceivedFine(codec, sys);
    hide Inv, C.ClientOk, SameListeners, EndsOk, CarriesNothing, C.Received, OneMoves;
    var m := sys.toClient[0];
    var c := sys.client;
    var d := C.Received(codec, c, m);
    var k := Updated(codec, sys);
    LinkFacts(codec, sys, k);
    ClientFine(codec, sys);
    if m.sub !in c.registered {
      UnheardUpdate(codec, sys);
      UnheardShape(codec, c, m.sub, m.wire);
      PoppedKeeps(codec, sys, d);
    } else {
      var u := EndsUpdate(codec, c.listeners[m.sub], sys.toClient, sys.server.handlers[k], S.CanSend(sys.server),
          m.wire);
      hide Extend;
      var l := UpdatedShape(codec, c, m.sub, m.wire, u);
      MovedKeeps(codec, sys, d, k, l);
    }
  }

  lemma OtherMessage(codec: Codec, sys: System)
    requires Inv(codec, sys) && sys.client.phase == C.Online && sys.toClient != []
    requires sys.toClient[0].Greeting? || sys.toClient[0].Refusal? || sys.toClient[0].Attachment?
    ensures Inv(codec, Popped(sys, C.Received(codec, sys.client, sys.toClient[0])))
  {
    NoSecondGreeting(codec, sys);
    ReceivedFine(codec, sys);
    assert CarriesNothing(sys, C.Received(codec, sys.client, sys.toClient[0]));
    hide Inv, C.ClientOk, SameListeners, C.Disconnected, CarriesNothing;
    NoChange(sys.client);
    LostListeners(sys.client, C.BadStream);
    FaultSame(sys.client, C.Disconnected(sys.client, C.BadStream), C.UnexpectedHandshake);
    PoppedKeeps(codec, sys, C.Received(codec, sys.client, sys.toClient[0]));
  }

  lemma FaultSame(c: C.ClientState, d: C.ClientState, f: C.Fault)
    requires SameListeners(c, d)
    ensures SameListeners(c, d.(faults := d.faults + {f}))
    ensures SameListeners(c, d.(faults := c.faults + {f}))
  {
  }

  lemma NoSecondGreeting(codec: Codec, sys: System)
    requires Inv(codec, sys) && sys.client.phase == C.Online && sys.toClient != []
    ensures !sys.toClient[0].Greeting?
  {
    hide TokensOk, CallsAgree, StreamsOk;
  }

  /** The client takes any message the server has sent it. */
  lemma DeliveryKeeps(codec: Codec, sys: System)
    requires Inv(codec, sys) && codec.Lawful()
    ensures Inv(codec, Step(codec, sys, ClientReceives))
  {
    hide Inv, C.Received;
    if sys.toClient != [] {
      Received(codec, sys);
      if sys.client.phase != C.Online {
        ReceiveOffline(codec, sys);
      } else if sys.toClient[0].Response? {
        ReceiveResponse(codec, sys);
      } else if sys.toClient[0].ServiceUpdate? {
        ReceiveUpdate(codec, sys);
      } else {
        OtherMessage(codec, sys);
      }
    }
  }
}
