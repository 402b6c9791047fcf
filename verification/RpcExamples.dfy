/** A run in which everything goes through: a call gets its value, and a listener its update. */
module RpcExamples {
  import opened Common
  import opened RpcProtocol
  import opened RpcSystem
  import R = RpcSafety
  import C = RpcClient
  import S = RpcServer

  ghost predicate Reachable(codec: Codec, sys: System) { exists actions :: Run(codec, INITIAL, actions) == sys }

  lemma Reach(codec: Codec, sys: System, a: Action) returns (t: System)
    requires Reachable(codec, sys)
    ensures t == Step(codec, sys, a) && Reachable(codec, t)
  {
    t := Step(codec, sys, a);
    var actions :| Run(codec, INITIAL, actions) == sys;
    R.RunAppend(codec, INITIAL, actions, [a]);
    assert Run(codec, sys, [a]) == Run(codec, t, []);
    assert Run(codec, INITIAL, actions + [a]) == t;
  }

  /** Hello and greeting. */
  lemma Connected(codec: Codec) returns (sys: System)
    ensures Reachable(codec, sys)
    ensures sys == System(C.NEW_CLIENT.(phase := C.Online), [],
                          S.NewConnection(map[]).(stage := S.Ready, greeted := true), [], [])
  {
    assert Run(codec, INITIAL, []) == INITIAL;
    sys := Reach(codec, INITIAL, Reconnect);
    sys := Reach(codec, sys, ServerReceives);
    sys := Reach(codec, sys, ByServer(S.ClientAttached));
    sys := Reach(codec, sys, ByServer(S.GreetingSent));
    sys := Reach(codec, sys, ClientReceives);
  }

  const ASKING: C.ClientState := C.NEW_CLIENT.(
    phase := C.Online, requestSequence := 2, subscriptionSequence := 1, pending := map[1 := Subscribe(1), 2 := Plain],
    registered := {1}, listeners := map[1 := C.NEW_LISTENER.(request := Some(1))],
    calls := map[1 := Subscribe(1), 2 := Plain])

  const SUBSCRIBING: S.Handler := S.Handler(1, Subscribe(1), S.Invoking, None, None, false, [], None, [])
  const CALLING: S.Handler := S.Handler(2, Plain, S.Invoking, None, None, true, [], None, [])

  const READY: S.ServerState := S.NewConnection(map[]).(stage := S.Ready, greeted := true)

  /** The client subscribes and makes a call. */
  lemma Asked(codec: Codec) returns (sys: System)
    ensures Reachable(codec, sys)
    ensures sys == System(ASKING, [Request(1, Subscribe(1)), Request(2, Plain)], READY, [], [])
  {
    sys := Connected(codec);
    sys := Reach(codec, sys, ByClient(C.Subscribing(true)));
    sys := Reach(codec, sys, ByClient(C.Requesting(Plain, true)));
    assert sys.toServer == [Request(1, Subscribe(1)), Request(2, Plain)];
    assert sys.client == ASKING;
  }

  /** Both requests are handed to the service. */
  lemma HandedOver(codec: Codec) returns (sys: System)
    ensures Reachable(codec, sys)
    ensures sys == System(ASKING, [], READY.(activeRequests := map[1 := 0, 2 := 1],
                          handlers := [SUBSCRIBING, CALLING], published := map[1 := []]), [], [])
  {
    sys := Asked(codec);
    sys := Reach(codec, sys, ServerReceives);
    assert sys.toServer == [Request(2, Plain)];
    sys := Reach(codec, sys, ServerReceives);
    assert sys.server.handlers == [SUBSCRIBING, CALLING];
  }

  /** An update is published early, and then the service settles both calls. */
  lemma Settled(codec: Codec, snapshot: Snapshot, first: Update, value: Wire) returns (sys: System)
    ensures Reachable(codec, sys) && sys.client == ASKING
    ensures sys.toClient ==
      [Response(1, Success(Some(codec.encodeSnapshot(snapshot)))), Response(2, Success(Some(value)))]
    ensures S.CanSend(sys.server) && sys.server.encoders == map[1 := History(snapshot, [])]
    ensures |sys.server.handlers| == 2 && sys.server.handlers[0] ==
      SUBSCRIBING.(phase := S.Replying, answer := Some(Success(Some(codec.encodeSnapshot(snapshot)))),
                   result := Some(S.SnapshotResult(snapshot)), held := [first], stream := Some(History(snapshot, [])))
  {
    sys := HandedOver(codec);
    sys := Reach(codec, sys, ByServer(S.Publish(0, first)));
    assert sys.server.handlers[0] == SUBSCRIBING.(held := [first]);
    sys := Reach(codec, sys, ByServer(S.InvokeSettled(0, S.SnapshotResult(snapshot))));
    sys := Reach(codec, sys, ByServer(S.InvokeSettled(1, S.ValueResult(value))));
  }

  lemma Drained(codec: Codec, snapshot: Snapshot, first: Update, value: Wire) returns (sys: System)
    ensures Reachable(codec, sys) && sys.client == ASKING
    ensures var h := History(snapshot, []);
      && sys.toClient == [Response(1, Success(Some(codec.encodeSnapshot(snapshot)))), Response(2, Success(Some(value))),
                          ServiceUpdate(1, codec.encodeUpdate(h, first))]
      && S.CanSend(sys.server) && sys.server.encoders == map[1 := Extend(h, first)]
    ensures sys.server.handlers != [] && var g := sys.server.handlers[0];
      && g.call == Subscribe(1) && g.phase == S.Draining && g.held == [] && g.answer.Some? && g.answer != Some(Failure)
  {
    sys := Settled(codec, snapshot, first, value);
    hide Reachable;
    sys := Reach(codec, sys, ByServer(S.SendSettled(0)));
  }

  /** The update held back is sent behind the snapshot, and another one once the gate is open. */
  lemma Sent(codec: Codec, snapshot: Snapshot, first: Update, second: Update, value: Wire) returns (sys: System)
    ensures Reachable(codec, sys) && sys.client == ASKING
    ensures var h := History(snapshot, []);
      sys.toClient == [Response(1, Success(Some(codec.encodeSnapshot(snapshot)))), Response(2, Success(Some(value))),
                       ServiceUpdate(1, codec.encodeUpdate(h, first)),
                       ServiceUpdate(1, codec.encodeUpdate(Extend(h, first), second))]
  {
    sys := Drained(codec, snapshot, first, value);
    hide Reachable, S.Finish;
    FinishKeeps(S.WithHandler(sys.server, 0, sys.server.handlers[0].(gateOpen := true)));
    sys := Reach(codec, sys, ByServer(S.SendSettled(0)));
    sys := Reach(codec, sys, ByServer(S.Publish(0, second)));
  }

  lemma FinishKeeps(s: S.ServerState)
    requires s.handlers != []
    ensures var t := S.Finish(s, 0);
      && t.handlers != [] && t.handlers[0] == s.handlers[0].(phase := S.Finished)
      && t.encoders == s.encoders && S.CanSend(t) == S.CanSend(s)
  {
  }

  /** The outcomes of the two promises. */
  predicate BothResolved(c: C.ClientState, codec: Codec, snapshot: Snapshot, value: Wire) {
    && 1 in c.settled && c.settled[1] == C.Resolved(Some(codec.encodeSnapshot(snapshot)))
    && 2 in c.settled && c.settled[2] == C.Resolved(Some(value))
  }

  /** The snapshot arrives. */
  lemma Hydrated(codec: Codec, snapshot: Snapshot, first: Update, second: Update, value: Wire) returns (sys: System)
    requires codec.Lawful()
    ensures Reachable(codec, sys)
    ensures var h := History(snapshot, []);
      && sys.client == ASKING.(pending := map[2 := Plain],
           settled := map[1 := C.Resolved(Some(codec.encodeSnapshot(snapshot)))],
           listeners := map[1 := C.NEW_LISTENER.(request := Some(1), history := Some(h))])
      && sys.toClient == [Response(2, Success(Some(value))), ServiceUpdate(1, codec.encodeUpdate(h, first)),
                          ServiceUpdate(1, codec.encodeUpdate(Extend(h, first), second))]
  {
    sys := Sent(codec, snapshot, first, second, value);
    hide Reachable;
    sys := Reach(codec, sys, ClientReceives);
    var h := History(snapshot, []);
    assert sys.client.pending == map[2 := Plain];
    assert sys.client.listeners[1] == C.NEW_LISTENER.(request := Some(1), history := Some(h));
    assert sys.toClient == [Response(2, Success(Some(value))), ServiceUpdate(1, codec.encodeUpdate(h, first)),
                            ServiceUpdate(1, codec.encodeUpdate(Extend(h, first), second))];
  }

  /** Both responses arrive, and the subscription is handed out. */
  lemma Resolved(codec: Codec, snapshot: Snapshot, first: Update, second: Update, value: Wire) returns (sys: System)
    requires codec.Lawful()
    ensures Reachable(codec, sys) && BothResolved(sys.client, codec, snapshot, value)
    ensures sys.client.phase == C.Online && sys.client.registered == {1} && 1 in sys.client.listeners
    ensures var h := History(snapshot, []);
      && sys.client.listeners[1] == C.NEW_LISTENER.(request := Some(1), history := Some(h), returned := true)
      && sys.toClient == [ServiceUpdate(1, codec.encodeUpdate(h, first)),
                          ServiceUpdate(1, codec.encodeUpdate(Extend(h, first), second))]
  {
    sys := Hydrated(codec, snapshot, first, second, value);
    hide Reachable, C.ReceiveUpdate;
    sys := Reach(codec, sys, ClientReceives);
    sys := Reach(codec, sys, ByClient(C.SubscribeResumed(1)));
  }

  /** One update comes before `start()`, the other after it. */
  lemma Scheduled(codec: Codec, snapshot: Snapshot, first: Update, second: Update, value: Wire) returns (sys: System)
    requires codec.Lawful()
    ensures Reachable(codec, sys) && BothResolved(sys.client, codec, snapshot, value)
    ensures 1 in sys.client.listeners && sys.client.listeners[1].scheduled == [first, second]
    ensures sys.client.listeners[1].seen == []
  {
    sys := Resolved(codec, snapshot, first, second, value);
    var l := sys.client.listeners[1];
    hide Reachable;
    sys := Reach(codec, sys, ClientReceives);
    assert sys.client.listeners[1].queued == [first];
    sys := Reach(codec, sys, ByClient(C.Start(1)));
    assert sys.client.listeners[1].scheduled == [first];
    sys := Reach(codec, sys, ClientReceives);
  }

  /**
   A subscription and a call, an update published before the snapshot is sent, one after it: the call resolves with the
   value the service returned, and the listener is called with both updates in their order.
   */
  lemma Exchange(codec: Codec, snapshot: Snapshot, first: Update, second: Update, value: Wire) returns (sys: System)
    requires codec.Lawful()
    ensures Reachable(codec, sys) && BothResolved(sys.client, codec, snapshot, value)
    ensures 1 in sys.client.listeners && sys.client.listeners[1].seen == [first, second]
  {
    sys := Scheduled(codec, snapshot, first, second, value);
    hide Reachable;
    sys := Reach(codec, sys, ByClient(C.Deliver(1)));
    sys := Reach(codec, sys, ByClient(C.Deliver(1)));
  }
}
