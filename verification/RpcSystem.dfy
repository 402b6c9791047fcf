/**
 Client and server over one ordered connection, with reconnects. Every interleaving of application
 calls, publications, send completions, deliveries, refusals and disconnects is a run.
 */
module RpcSystem {
  import opened Common
  import opened RpcGate
  import opened RpcProtocol
  import C = RpcClient
  import S = RpcServer

  /** `past` is history: the handlers of earlier connections. */
  datatype System = System(
    client: C.ClientState,
    toServer: seq<ToServer>,
    server: S.ServerState,
    toClient: seq<ToClient>,
    past: seq<S.Handler>)

  datatype Action =
    | ByClient(c: C.ClientAction)
    | ByServer(s: S.ServerAction)
    | ServerReceives
    | ClientReceives
    | Reconnect

  const INITIAL := System(C.NEW_CLIENT, [], S.NewConnection(map[]), [], [])

  function AfterServer(sys: System, o: S.Out): System {
    sys.(server := o.state, toClient := sys.toClient + o.sent)
  }

  function AfterClient(sys: System, o: C.Out): System {
    sys.(client := o.state, toServer := sys.toServer + o.sent)
  }

  function Step(codec: Codec, sys: System, a: Action): System {
    match a
    case ByClient(c) =>
      if c.Receive? || c.Connect? then sys else AfterClient(sys, C.Step(codec, sys.client, c))
    case ByServer(s) =>
      if s.Receive? then sys else AfterServer(sys, S.Step(codec, sys.server, s))
    case ServerReceives =>
      if sys.toServer == [] then sys
      else AfterServer(sys.(toServer := sys.toServer[1..]), S.Step(codec, sys.server, S.Receive(sys.toServer[0])))
    case ClientReceives =>
      if sys.toClient == [] then sys
      else AfterClient(sys.(toClient := sys.toClient[1..]), C.Step(codec, sys.client, C.Receive(sys.toClient[0])))
    case Reconnect =>
      if sys.client.phase != C.Offline then sys
      else
        var o := C.Step(codec, sys.client, C.Connect);
        System(o.state, o.sent, S.NewConnection(sys.server.published), [], sys.past + sys.server.handlers)
  }

  function Run(codec: Codec, sys: System, actions: seq<Action>): System
    decreases |actions|
  {
    if actions == [] then sys else Run(codec, Step(codec, sys, actions[0]), actions[1..])
  }

  // ---------------------------------------------------------------- the invariant

  predicate Live(s: S.ServerState) { S.CanSend(s) && !S.Terminal(s) }

  /** The request of a message just taken off a queue and not yet dispatched. */
  function InHand(hand: Option<ToServer>): multiset<nat> {
    if hand.Some? then OneRequest(hand.value) else multiset{}
  }

  /** Ids that have entered this connection: on the wire, waiting for the handshake, or handled. */
  function Entered(sys: System, hand: Option<ToServer>): multiset<nat> {
    RequestIds(sys.toServer) + RequestIds(sys.server.deferred) + InHand(hand) + S.Tally(S.All, sys.server.handlers)
  }

  /** Ids whose answer is still on its way: request side, open handlers, responses in flight. */
  function Unanswered(sys: System, hand: Option<ToServer>): multiset<nat> {
    RequestIds(sys.toServer) + RequestIds(sys.server.deferred) + InHand(hand) +
    S.Tally(S.Open, sys.server.handlers) + ResponseIds(sys.toClient)
  }

  predicate Known(m: ToServer, calls: map<nat, Call>, published: map<nat, seq<Update>>) {
    m.Request? ==> m.id in calls && calls[m.id] == m.call && (m.call.Subscribe? ==> m.call.sub !in published)
  }

  predicate AllKnown(ms: seq<ToServer>, calls: map<nat, Call>, published: map<nat, seq<Update>>) {
    forall i :: 0 <= i < |ms| ==> Known(ms[i], calls, published)
  }

  /** Requests are conserved: the pending table holds exactly the ids still to be answered. */
  ghost predicate TokensOk(sys: System, hand: Option<ToServer>) {
    && (forall id :: Entered(sys, hand)[id] <= 1)
    && ResponseIds(sys.toClient) <= S.Tally(S.Answered, sys.server.handlers)
    && (sys.client.phase == C.Connecting ==> Unanswered(sys, hand) == multiset{})
    && (sys.client.phase == C.Online ==> Unanswered(sys, hand) <= multiset(sys.client.pending.Keys))
    && (sys.client.phase == C.Online && Live(sys.server) ==> Unanswered(sys, hand) == multiset(sys.client.pending.Keys))
  }

  ghost predicate CallsAgree(sys: System, hand: Option<ToServer>) {
    && AllKnown(sys.toServer, sys.client.calls, sys.server.published)
    && AllKnown(sys.server.deferred, sys.client.calls, sys.server.published)
    && (hand.Some? ==> Known(hand.value, sys.client.calls, sys.server.published))
    && (forall k :: 0 <= k < |sys.server.handlers| ==>
          var h := sys.server.handlers[k]; h.id in sys.client.calls && sys.client.calls[h.id] == h.call)
    && (forall id :: id in sys.server.activeRequests ==>
          sys.server.activeRequests[id] < |sys.server.handlers| &&
              sys.server.handlers[sys.server.activeRequests[id]].id == id)
    && sys.server.encoders.Keys <= sys.server.published.Keys <= sys.client.listeners.Keys
  }

  ghost predicate GreetingOk(sys: System) {
    && S.StagesOk(sys.server)
    && (!sys.server.greeted ==> sys.toClient == [] || (sys.toClient == [Refusal] && !S.CanSend(sys.server)))
    && (sys.client.phase == C.Connecting && sys.server.greeted ==>
          sys.toClient != [] && sys.toClient[0] == Greeting && Greeting !in sys.toClient[1..])
    && (sys.client.phase == C.Online ==> sys.server.greeted && Greeting !in sys.toClient)
    && (forall f :: f in sys.client.faults ==> f == C.UnexpectedHandshake)
  }

  predicate Carries(codec: Codec, m: ToClient, h: S.Handler) {
    m.Response? && m.id == h.id && m.reply.Success? ==>
      h.stream.Some? && m.reply == Success(Some(codec.encodeSnapshot(h.stream.value.snapshot)))
  }

  /**
   The two ends of one subscription: the decoder follows the encoder, and while the listener is
   registered the wire holds, in order, exactly the pieces between them (a prefix once the server
   can no longer send).
   */
  ghost predicate EndsOk(codec: Codec, l: C.Listener, registered: bool, wire: seq<ToClient>, h: S.Handler, exact: bool)
    requires h.call.Subscribe?
  {
    && l.request == Some(h.id)
    && Follows(l.history, h.stream)
    && (forall i :: 0 <= i < |wire| ==> Carries(codec, wire[i], h))
    && (registered ==> Between(Pieces(wire, h.id, h.call.sub), Encoded(codec, h.stream), Carried(l.history), exact))
  }

  ghost predicate LinkOk(codec: Codec, sys: System, h: S.Handler) {
    h.call.Subscribe? ==>
      var sub := h.call.sub;
      && sub in sys.client.listeners
      && EndsOk(codec, sys.client.listeners[sub], sub in sys.client.registered, sys.toClient, h, S.CanSend(sys.server))
  }

  predicate Between(ps: seq<Piece>, all: seq<Piece>, from: nat, exact: bool) {
    from <= |all| && ps <= all[from..] && (exact ==> ps == all[from..])
  }

  predicate HasHandler(hs: seq<S.Handler>, sub: nat) {
    exists k :: 0 <= k < |hs| && hs[k].call == Subscribe(sub)
  }

  ghost predicate UpdatesKnown(sys: System) {
    forall i :: 0 <= i < |sys.toClient| && sys.toClient[i].ServiceUpdate? ==>
      HasHandler(sys.server.handlers, sys.toClient[i].sub)
  }

  /** No update ever waits undecoded, and what was decoded is a prefix of what was published. */
  ghost predicate PrefixOk(sys: System) {
    forall sub :: sub in sys.client.listeners ==>
      var l := sys.client.listeners[sub];
      && l.queuedWire == []
      && (l.history.Some? ==> sub in sys.server.published && l.history.value.updates <= sys.server.published[sub])
  }

  ghost predicate StreamsOk(codec: Codec, sys: System) {
    && (forall k :: 0 <= k < |sys.server.handlers| ==> HandlerOk(sys.server, sys.server.handlers[k]))
    && (forall k :: 0 <= k < |sys.server.handlers| ==> LinkOk(codec, sys, sys.server.handlers[k]))
    && UpdatesKnown(sys)
    && PrefixOk(sys)
  }

  /** Everything but the handshake. `hand` is a message taken off a queue and not yet dispatched. */
  ghost predicate CoreOk(codec: Codec, sys: System, hand: Option<ToServer>) {
    && C.ClientOk(sys.client)
    && TokensOk(sys, hand)
    && CallsAgree(sys, hand)
    && StreamsOk(codec, sys)
  }

  ghost predicate Inv(codec: Codec, sys: System) { CoreOk(codec, sys, None) && GreetingOk(sys) }

  /** Distinct handlers serve distinct requests, and distinct subscriptions. */
  lemma Distinct(codec: Codec, sys: System, hand: Option<ToServer>, i: nat, j: nat)
    requires C.ClientOk(sys.client) && TokensOk(sys, hand) && CallsAgree(sys, hand)
    requires i < |sys.server.handlers| && j < |sys.server.handlers| && i != j
    ensures var g, h := sys.server.handlers[i], sys.server.handlers[j];
      && g.id != h.id
      && (g.call.Subscribe? && h.call.Subscribe? ==> g.call.sub != h.call.sub)
  {
    var hs := sys.server.handlers;
    forall id ensures S.Tally(S.All, hs)[id] <= 1 {
      assert Entered(sys, hand)[id] <= 1;
    }
    if i < j { S.TallyDistinct(hs, i, j); } else { S.TallyDistinct(hs, j, i); }
    assert C.ListenersOk(sys.client);
  }
}
