/**
 What holds on every run of client and server, whatever the interleaving: requests are answered at
 most once and never unexpectedly, and a listener sees a prefix of what was published for it.
 */
module RpcSafety {
  import opened Common
  import opened RpcClientSteps
  import opened RpcDelivery
  import opened RpcGate
  import opened RpcProtocol
  import opened RpcServerSteps
  import opened RpcSystem
  import C = RpcClient
  import S = RpcServer

  lemma InitialOk(codec: Codec)
    ensures Inv(codec, INITIAL)
  {
    hide S.StagesOk;
    assert S.StagesOk(S.NewConnection(map[])) by { NewStages(map[]); }
    EmptyTokens(INITIAL);
  }

  lemma NewStages(published: map<nat, seq<Update>>)
    ensures S.StagesOk(S.NewConnection(published))
  {
  }

  lemma EmptyTokens(sys: System)
    requires sys.toClient == [] && sys.server.handlers == [] && sys.server.deferred == [] &&
      (sys.toServer == [] || sys.toServer == [Hello])
    requires sys.client.phase != C.Online
    ensures TokensOk(sys, None)
  {
    assert RequestIds([Hello]) == multiset{} by { assert [Hello][..0] == []; }
  }

  lemma ReconnectStreams(codec: Codec, sys: System, t: System)
    requires StreamsOk(codec, sys) && t.server == S.NewConnection(sys.server.published) && t.toClient == []
    requires t.client.listeners == sys.client.listeners
    ensures StreamsOk(codec, t)
  {
    hide LinkOk, HandlerOk;
  }

  lemma ReconnectCalls(sys: System, t: System)
    requires CallsAgree(sys, None) && t.server == S.NewConnection(sys.server.published) && t.toServer == [Hello]
    requires t.client.listeners == sys.client.listeners
    ensures CallsAgree(t, None)
  {
  }

  lemma ReconnectGreeting(sys: System, t: System)
    requires GreetingOk(sys) && t.server == S.NewConnection(sys.server.published) && t.toClient == []
    requires t.client.phase == C.Connecting && t.client.faults == sys.client.faults
    ensures GreetingOk(t)
  {
    hide S.StagesOk;
    NewStages(sys.server.published);
  }

  /** A new connection starts with empty wires; what the listeners have seen stays. */
  lemma ReconnectKeeps(codec: Codec, sys: System)
    requires Inv(codec, sys)
    ensures Inv(codec, Step(codec, sys, Reconnect))
  {
    hide C.ClientOk, CallsAgree, GreetingOk, TokensOk, StreamsOk;
    if sys.client.phase == C.Offline {
      var t := Step(codec, sys, Reconnect);
      C.ConnectOk(sys.client);
      EmptyTokens(t);
      ReconnectStreams(codec, sys, t);
      ReconnectCalls(sys, t);
      ReconnectGreeting(sys, t);
    }
  }

  lemma StepKeeps(codec: Codec, sys: System, a: Action)
    requires codec.Lawful() && Inv(codec, sys)
    ensures Inv(codec, Step(codec, sys, a))
  {
    hide Inv, C.Step, S.Step;
    match a
    case ByClient(c) => if !c.Receive? && !c.Connect? { ClientKeeps(codec, sys, c); }
    case ByServer(s) => if !s.Receive? { ServerKeeps(codec, sys, s); }
    case ServerReceives => ReceiveKeeps(codec, sys);
    case ClientReceives => DeliveryKeeps(codec, sys);
    case Reconnect => ReconnectKeeps(codec, sys);
  }

  lemma {:induction false} RunKeeps(codec: Codec, sys: System, actions: seq<Action>)
    requires codec.Lawful() && Inv(codec, sys)
    ensures Inv(codec, Run(codec, sys, actions))
    decreases |actions|
  {
    hide Inv, Step;
    if actions != [] {
      StepKeeps(codec, sys, actions[0]);
      RunKeeps(codec, Step(codec, sys, actions[0]), actions[1..]);
    }
  }

  // ---------------------------------------------------------------- requests

  /**
   The pending table holds exactly the ids sent and not yet answered, each once: as long as the server
   can still serve, with no exception, and otherwise nothing is on its way that is not in the table.
   */
  lemma PendingIsUnanswered(codec: Codec, actions: seq<Action>)
    requires codec.Lawful()
    ensures var sys := Run(codec, INITIAL, actions);
      && (sys.client.phase == C.Online ==> Unanswered(sys, None) <= multiset(sys.client.pending.Keys))
      && (sys.client.phase == C.Online && Live(sys.server) ==>
          Unanswered(sys, None) == multiset(sys.client.pending.Keys))
      && (sys.client.phase != C.Online ==> sys.client.pending == map[])
  {
    InitialOk(codec);
    RunKeeps(codec, INITIAL, actions);
  }

  /** No response comes unexpected, no stream fails to decode, and the first message is the greeting. */
  lemma NoViolation(codec: Codec, actions: seq<Action>)
    requires codec.Lawful()
    ensures var faults := Run(codec, INITIAL, actions).client.faults;
      C.NoMatchingRequest !in faults && C.UndecodableStream !in faults && C.ExpectedGreeting !in faults
  {
    InitialOk(codec);
    RunKeeps(codec, INITIAL, actions);
    hide TokensOk, CallsAgree, StreamsOk, Run;
  }

  lemma {:induction false} RunAppend(codec: Codec, sys: System, a: seq<Action>, b: seq<Action>)
    ensures Run(codec, sys, a + b) == Run(codec, Run(codec, sys, a), b)
    decreases |a|
  {
    hide Step;
    if a == [] {
      assert a + b == b;
    } else {
      assert (a + b)[1..] == a[1..] + b;
      RunAppend(codec, Step(codec, sys, a[0]), a[1..], b);
    }
  }

  lemma StepRemembers(codec: Codec, sys: System, a: Action)
    requires C.ClientOk(sys.client)
    ensures C.Remembers(sys.client, Step(codec, sys, a).client)
  {
    hide C.Step, C.ClientOk, S.Step;
    match a
    case ByClient(c) => C.NothingIsForgotten(codec, sys.client, c);
    case ClientReceives => if sys.toClient != [] {
      C.NothingIsForgotten(codec, sys.client, C.Receive(sys.toClient[0]));
    }
    case Reconnect => C.NothingIsForgotten(codec, sys.client, C.Connect);
    case ByServer(_) =>
    case ServerReceives =>
  }

  lemma RememberedTwice(c: C.ClientState, d: C.ClientState, e: C.ClientState)
    requires C.Remembers(c, d) && C.Remembers(d, e)
    ensures C.Remembers(c, e)
  {
  }

  lemma {:induction false} RunRemembers(codec: Codec, sys: System, actions: seq<Action>)
    requires codec.Lawful() && Inv(codec, sys)
    ensures C.Remembers(sys.client, Run(codec, sys, actions).client)
    decreases |actions|
  {
    ClientFine(codec, sys);
    hide Inv, Step, C.Remembers, C.ClientOk;
    if actions == [] {
      SameRemembers(sys.client);
    } else {
      StepKeeps(codec, sys, actions[0]);
      StepRemembers(codec, sys, actions[0]);
      RunRemembers(codec, Step(codec, sys, actions[0]), actions[1..]);
      RememberedTwice(sys.client, Step(codec, sys, actions[0]).client, Run(codec, sys, actions).client);
    }
  }

  lemma SameRemembers(c: C.ClientState)
    ensures C.Remembers(c, c)
  {
  }

  /**
   A request promise has settled once its request has left the table, by an answer or with the
   connection, and while it is in the table only an abort settles it. Later steps, on this connection
   or another, neither change an outcome nor take the same id again.
   */
  lemma PromisesSettle(codec: Codec, actions: seq<Action>, more: seq<Action>)
    requires codec.Lawful()
    ensures var c := Run(codec, INITIAL, actions).client; var d := Run(codec, INITIAL, actions + more).client;
      && (forall id :: id in c.calls && id !in c.pending ==> id in c.settled)
      && (forall id :: id in c.pending && id in c.settled ==> c.settled[id] == C.Rejected(C.Aborted))
      && (forall id :: id in c.settled ==> id in d.settled && d.settled[id] == c.settled[id])
      && (forall id :: id in c.calls ==> id in d.calls && d.calls[id] == c.calls[id])
      && (forall id :: id in d.calls && id !in c.calls ==> id > c.requestSequence)
  {
    InitialOk(codec);
    RunKeeps(codec, INITIAL, actions);
    RunAppend(codec, INITIAL, actions, more);
    RunRemembers(codec, Run(codec, INITIAL, actions), more);
    ClientFine(codec, Run(codec, INITIAL, actions));
    hide Inv, Run;
  }

  // ---------------------------------------------------------------- subscriptions

  /** What a listener has been called with is a prefix of what was published, and only after both gates. */
  lemma ListenerSeesPrefix(codec: Codec, actions: seq<Action>, sub: nat)
    requires codec.Lawful() && sub in Run(codec, INITIAL, actions).client.listeners
    ensures var sys := Run(codec, INITIAL, actions); var l := sys.client.listeners[sub];
      && (l.seen != [] ==>
          l.ready && l.history.Some? && sub in sys.server.published && l.seen <= sys.server.published[sub])
      && (l.history.Some? ==> l.seen + l.scheduled <= l.history.value.updates)
      && l.queuedWire == []
  {
    InitialOk(codec);
    RunKeeps(codec, INITIAL, actions);
    var sys := Run(codec, INITIAL, actions);
    hide TokensOk, CallsAgree, GreetingOk, HandlerOk, LinkOk, UpdatesKnown, Run, C.CallsOk, C.SettledOk;
    assert C.SubscriptionOk(sys.client, sub, sys.client.listeners[sub]);
    assert PrefixOk(sys);
  }

  /** Updates encoded but not yet decoded. */
  function InFlight(l: C.Listener, h: S.Handler): seq<Update>
    requires Follows(l.history, h.stream)
  {
    if h.stream.None? then [] else if l.history.None? then h.stream.value.updates
    else h.stream.value.updates[|l.history.value.updates|..]
  }

  /**
   Conservation: both ends carry the same snapshot, the wire holds the encodings of exactly what the
   decoder has not seen of the encoder's stream, and every published update is, in order, either
   delivered, scheduled, waiting for `start()`, on the wire, dropped behind a removed encoder, or held
   by the server's gate.
   */
  lemma NothingIsLost(codec: Codec, actions: seq<Action>, k: nat)
    requires codec.Lawful()
    requires var sys := Run(codec, INITIAL, actions);
      && k < |sys.server.handlers| && sys.server.handlers[k].call.Subscribe?
      && sys.server.handlers[k].call.sub in sys.client.registered && S.CanSend(sys.server)
    ensures var sys := Run(codec, INITIAL, actions); var h := sys.server.handlers[k]; var sub := h.call.sub;
      && sub in sys.client.listeners && sub in sys.server.published
      && var l := sys.client.listeners[sub];
      && Follows(l.history, h.stream)
      && Carried(l.history) <= |Encoded(codec, h.stream)|
      && Pieces(sys.toClient, h.id, sub) == Encoded(codec, h.stream)[Carried(l.history)..]
      && sys.server.published[sub] == l.seen + l.scheduled + l.queued + InFlight(l, h) + h.lost + h.held
      && (sub in sys.server.encoders ==> h.lost == [])
      && (h.gateOpen ==> h.held == [])
  {
    InitialOk(codec);
    RunKeeps(codec, INITIAL, actions);
    var sys := Run(codec, INITIAL, actions);
    LinkFacts(codec, sys, k);
    Accounted(codec, sys, k);
    hide Inv, Run, Carries, Encoded, Pieces;
  }

  lemma Accounted(codec: Codec, sys: System, k: nat)
    requires Inv(codec, sys) && k < |sys.server.handlers| && sys.server.handlers[k].call.Subscribe?
    requires sys.server.handlers[k].call.sub in sys.client.registered
    ensures var h := sys.server.handlers[k]; var sub := h.call.sub;
      && sub in sys.client.listeners && sub in sys.server.published
      && var l := sys.client.listeners[sub];
      && Follows(l.history, h.stream)
      && sys.server.published[sub] == l.seen + l.scheduled + l.queued + InFlight(l, h) + h.lost + h.held
      && (sub in sys.server.encoders ==> h.lost == [])
      && (h.gateOpen ==> h.held == [])
  {
    LinkFacts(codec, sys, k);
    HandlerFacts(codec, sys, k);
    var h := sys.server.handlers[k];
    ListenerFacts(codec, sys, h.call.sub);
    hide Inv, C.ListenerOk, Between, Carries;
    AccountedAt(sys.client.listeners[h.call.sub], h, sys.server.published[h.call.sub]);
  }

  lemma HandlerFacts(codec: Codec, sys: System, k: nat)
    requires Inv(codec, sys) && k < |sys.server.handlers|
    ensures HandlerOk(sys.server, sys.server.handlers[k])
  {
    hide TokensOk, CallsAgree, GreetingOk, LinkOk, UpdatesKnown, PrefixOk, C.ClientOk, HandlerOk;
  }

  lemma ListenerFacts(codec: Codec, sys: System, sub: nat)
    requires Inv(codec, sys) && sub in sys.client.listeners
    ensures C.ListenerOk(sys.client.listeners[sub])
    ensures sub in sys.client.registered ==> !sys.client.listeners[sub].disposed
  {
    hide TokensOk, CallsAgree, GreetingOk, StreamsOk, C.CallsOk, C.SettledOk, C.ListenerOk;
    assert C.SubscriptionOk(sys.client, sub, sys.client.listeners[sub]);
  }

  lemma AccountedAt(l: C.Listener, h: S.Handler, published: seq<Update>)
    requires C.ListenerOk(l) && !l.disposed && Follows(l.history, h.stream)
    requires published == UpdatesOf(h.stream) + h.lost + h.held
    ensures published == l.seen + l.scheduled + l.queued + InFlight(l, h) + h.lost + h.held
  {
    if l.history.Some? {
      assert h.stream.value.updates == l.history.value.updates + InFlight(l, h);
    } else {
      assert l.seen + l.scheduled + l.queued == [];
      assert UpdatesOf(h.stream) == [] + InFlight(l, h);
    }
  }

  /** Once the gate is open, the wire carries nothing more and deliveries have run, the listener has seen everything. */
  lemma DeliveredInFull(codec: Codec, actions: seq<Action>, k: nat)
    requires codec.Lawful()
    requires var sys := Run(codec, INITIAL, actions);
      && k < |sys.server.handlers| && sys.server.handlers[k].call.Subscribe? && sys.server.handlers[k].gateOpen
      && var h := sys.server.handlers[k]; var sub := h.call.sub;
      && sub in sys.client.registered && S.CanSend(sys.server) && sub in sys.server.encoders
      && Pieces(sys.toClient, h.id, sub) == []
      && sub in sys.client.listeners && sys.client.listeners[sub].ready && sys.client.listeners[sub].scheduled == []
    ensures var sys := Run(codec, INITIAL, actions); var sub := sys.server.handlers[k].call.sub;
      sub in sys.server.published && sys.client.listeners[sub].seen == sys.server.published[sub]
  {
    NothingIsLost(codec, actions, k);
    InitialOk(codec);
    RunKeeps(codec, INITIAL, actions);
    var sys := Run(codec, INITIAL, actions);
    var sub := sys.server.handlers[k].call.sub;
    ReadyListener(codec, sys, sub);
    hide Inv, Run, Encoded, Pieces, InFlight, Follows, S.CanSend;
    DeliveredAt(codec, sys.client.listeners[sub], sys.server.handlers[k], sys.server.published[sub]);
  }

  lemma DeliveredAt(codec: Codec, l: C.Listener, h: S.Handler, published: seq<Update>)
    requires Follows(l.history, h.stream) && l.history.Some? && Carried(l.history) <= |Encoded(codec, h.stream)|
    requires Encoded(codec, h.stream)[Carried(l.history)..] == []
    requires published == l.seen + l.scheduled + l.queued + InFlight(l, h) + h.lost + h.held
    requires l.scheduled == [] && l.queued == [] && h.lost == [] && h.held == []
    ensures l.seen == published
  {
    assert InFlight(l, h) == [];
  }

  lemma ReadyListener(codec: Codec, sys: System, sub: nat)
    requires Inv(codec, sys) && sub in sys.client.listeners && sys.client.listeners[sub].ready
    ensures sys.client.listeners[sub].queued == [] && sys.client.listeners[sub].history.Some?
  {
    ListenerFacts(codec, sys, sub);
  }
}
