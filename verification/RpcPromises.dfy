/**
 What the promise of a request comes to, over any run of client and server and however often they reconnect: it
 resolves with what the service returned to the one handler of its request, and is rejected by the server exactly if
 the service threw.
 */
module RpcPromises {
  import opened Common
  import opened RpcAnswers
  import opened RpcProtocol
  import opened RpcSafety
  import opened RpcSystem
  import C = RpcClient
  import S = RpcServer

  // ---------------------------------------------------------------- the client against an arbitrary server

  /** Why a step that settles the promise of request `id` may settle it like this. */
  predicate Cause(c: C.ClientState, d: C.ClientState, a: C.ClientAction, id: nat, o: C.Outcome) {
    match o
    case Resolved(result) => a == C.Receive(Response(id, Success(result)))
    case Rejected(ByServer) => a == C.Receive(Response(id, Failure))
    case Rejected(Aborted) => a == C.Aborting(id)
    case Rejected(NotSent) => id !in c.calls && (a == C.Subscribing(false) || (a.Requesting? && !a.encodable))
    case Rejected(_) => c.phase == C.Online && d.phase == C.Offline && id in c.pending
  }

  predicate Causes(c: C.ClientState, d: C.ClientState, a: C.ClientAction) {
    forall id :: id in d.settled && id !in c.settled ==> Cause(c, d, a, id, d.settled[id])
  }

  lemma ResponseCauses(codec: Codec, c: C.ClientState, id: nat, reply: Reply)
    requires C.ClientOk(c) && c.phase == C.Online
    ensures Causes(c, C.ReceiveResponse(codec, c, id, reply), C.Receive(Response(id, reply)))
  {
    hide C.Hydrate, C.ClientOk;
  }

  lemma ReceivedCauses(codec: Codec, c: C.ClientState, m: ToClient)
    requires C.ClientOk(c)
    ensures Causes(c, C.Received(codec, c, m), C.Receive(m))
  {
    hide C.ReceiveResponse, C.ListenersOk, C.SettledOk, Extend;
    if c.phase == C.Online && m.Response? { ResponseCauses(codec, c, m.id, m.reply); }
  }

  lemma IssueCauses(c: C.ClientState, call: Call, encodable: bool)
    requires C.CallsOk(c)
    ensures var d := C.Issue(c, call, encodable).state;
      forall id :: id in d.settled && id !in c.settled ==>
        id !in c.calls && !encodable && d.settled[id] == C.Rejected(C.NotSent)
  {
  }

  lemma StepCauses(codec: Codec, c: C.ClientState, a: C.ClientAction)
    requires C.ClientOk(c)
    ensures Causes(c, C.Step(codec, c, a).state, a)
  {
    hide C.ListenersOk, C.SettledOk, C.Received, C.Issue, C.Started, C.Delivered, C.Disposed, C.Cleared;
    match a
    case Receive(m) => ReceivedCauses(codec, c, m);
    case Requesting(call, encodable) => IssueCauses(c, call, encodable);
    case Subscribing(encodable) =>
      var sub := c.subscriptionSequence + 1;
      var l := if c.phase == C.Online then C.NEW_LISTENER.(request := Some(c.requestSequence + 1)) else C.NEW_LISTENER;
      IssueCauses(c.(subscriptionSequence := sub, registered := c.registered + {sub},
          listeners := c.listeners[sub := l]), Subscribe(sub), encodable);
    case _ =>
  }

  /** The response to a request settles its promise, unless a stream it starts does not decode. */
  lemma ResponseSettles(codec: Codec, c: C.ClientState, id: nat, reply: Reply)
    requires c.phase == C.Online && id in c.pending && id !in c.settled
    ensures var d := C.Received(codec, c, Response(id, reply));
      || C.UndecodableStream in d.faults
      || (id in d.settled &&
          d.settled[id] == if reply.Success? then C.Resolved(reply.result) else C.Rejected(C.ByServer))
  {
    hide C.Hydrate;
  }

  // ---------------------------------------------------------------- where handlers come from

  /** The message a step hands over to the service side, if any. */
  function Taken(s: S.ServerState, a: S.ServerAction): Option<ToServer> {
    if a.Receive? then Some(a.message)
    else if a.RunDeferred? && s.deferred != [] then Some(s.deferred[0])
    else None
  }

  predicate Among(m: ToServer, ms: seq<ToServer>, taken: Option<ToServer>) { m in ms || taken == Some(m) }

  /** At most one handler more, that of the message handed over, refused only where the source refuses. */
  ghost predicate Grows(s: S.ServerState, t: S.ServerState, taken: Option<ToServer>) {
    && |s.handlers| <= |t.handlers| <= |s.handlers| + 1
    && (forall i :: 0 <= i < |t.deferred| ==> Among(t.deferred[i], s.deferred, taken))
    && (|t.handlers| > |s.handlers| ==>
          taken.Some? && taken.value.Request?
          && var m := taken.value; var h := t.handlers[|s.handlers|];
          h.id == m.id && h.call == m.call
          && (m.id !in s.activeRequests && !m.call.Malformed? && !(m.call.Subscribe? && m.call.sub in s.encoders) ==>
                h.answer.None?))
  }

  lemma DispatchGrows(s: S.ServerState, m: ToServer)
    requires !S.Terminal(s)
    ensures Grows(s, S.Dispatch(s, m).state, Some(m))
  {
  }

  lemma StepGrows(codec: Codec, s: S.ServerState, a: S.ServerAction)
    requires S.StagesOk(s)
    ensures Grows(s, S.Step(codec, s, a).state, Taken(s, a))
  {
    hide S.Dispatch, S.AfterInvoke, S.AfterSend, S.Publishing;
    if S.HandlerAction(s, a) {
      S.HandlerStep(codec, s, a);
    } else if a.Receive? && !S.Terminal(s) {
      DispatchGrows(s, a.message);
    } else if a.RunDeferred? && s.deferred != [] && s.stage == S.Ready && !s.disconnected {
      DispatchGrows(s.(deferred := s.deferred[1..]), s.deferred[0]);
    }
  }

  // ---------------------------------------------------------------- the two together

  /** The handlers of this connection and of all earlier ones. */
  function Handled(sys: System): seq<S.Handler> { sys.past + sys.server.handlers }

  predicate NewTo(past: seq<S.Handler>, id: nat) { forall i :: 0 <= i < |past| ==> past[i].id != id }

  predicate AllNew(past: seq<S.Handler>, ms: seq<ToServer>) {
    forall i :: 0 <= i < |ms| && ms[i].Request? ==> NewTo(past, ms[i].id)
  }

  predicate NoneRepeated(hs: seq<S.Handler>) { forall i, j :: 0 <= i < j < |hs| ==> hs[i].id != hs[j].id }

  /** These handlers serve requests of the client's. */
  predicate Called(hs: seq<S.Handler>, calls: map<nat, Call>) {
    forall k :: 0 <= k < |hs| ==> hs[k].id in calls && calls[hs[k].id] == hs[k].call
  }

  /** An earlier connection's requests are over: no later one has the id of any of them. */
  ghost predicate PastOk(sys: System) {
    && Called(sys.past, sys.client.calls)
    && NoneRepeated(sys.past)
    && AllNew(sys.past, sys.toServer) && AllNew(sys.past, sys.server.deferred)
    && (forall k :: 0 <= k < |sys.server.handlers| ==> NewTo(sys.past, sys.server.handlers[k].id))
    && (forall id :: id in sys.client.calls ==> !sys.client.calls[id].Malformed?)
  }

  /** Every answer is what the service made of the call: no well-formed request is refused without asking it. */
  predicate Served(hs: seq<S.Handler>) {
    forall k :: 0 <= k < |hs| && hs[k].answer.Some? ==> hs[k].result.Some?
  }

  /** What the outcome of a promise says about the answer to its request. */
  predicate Echoes(hs: seq<S.Handler>, id: nat, o: C.Outcome) {
    && (o.Resolved? ==> AnsweredIn(hs, id, Success(o.result)))
    && (o == C.Rejected(C.ByServer) ==> AnsweredIn(hs, id, Failure))
  }

  ghost predicate Honest(codec: Codec, sys: System) {
    && AllTruthful(codec, Handled(sys)) && Served(Handled(sys))
    && Backed(sys.toClient, sys.server.handlers)
    && PastOk(sys)
    && forall id :: id in sys.client.settled ==> Echoes(Handled(sys), id, sys.client.settled[id])
  }

  lemma StillEchoes(hs: seq<S.Handler>, gs: seq<S.Handler>, id: nat, o: C.Outcome)
    requires AllKept(hs, gs) && Echoes(hs, id, o)
    ensures Echoes(gs, id, o)
  {
    hide AllKept, AnsweredIn;
    if o.Resolved? { StillAnswered(hs, gs, id, Success(o.result)); }
    if o == C.Rejected(C.ByServer) { StillAnswered(hs, gs, id, Failure); }
  }

  lemma KeptBehind(past: seq<S.Handler>, hs: seq<S.Handler>, gs: seq<S.Handler>)
    requires AllKept(hs, gs)
    ensures AllKept(past + hs, past + gs)
  {
    forall k | 0 <= k < |past + hs| ensures Kept((past + hs)[k], (past + gs)[k]) {
      if k >= |past| { assert Kept(hs[k - |past|], gs[k - |past|]); }
    }
  }

  lemma TruthfulBehind(codec: Codec, past: seq<S.Handler>, hs: seq<S.Handler>)
    ensures AllTruthful(codec, past + hs) <==> AllTruthful(codec, past) && AllTruthful(codec, hs)
    ensures Served(past + hs) <==> Served(past) && Served(hs)
  {
    hide Truthful;
    forall k | 0 <= k < |past| ensures (past + hs)[k] == past[k] { }
    forall k | 0 <= k < |hs| ensures (past + hs)[|past| + k] == hs[k] { }
  }

  /** A request on its way is one the server has no reason to refuse. */
  lemma NotRefused(codec: Codec, sys: System, m: ToServer)
    requires Inv(codec, sys) && Honest(codec, sys) && m.Request?
    requires m in sys.server.deferred || (sys.toServer != [] && m == sys.toServer[0])
    ensures m.id !in sys.server.activeRequests && !m.call.Malformed?
    ensures !(m.call.Subscribe? && m.call.sub in sys.server.encoders)
    ensures m.id in sys.client.calls
  {
    hide S.Tally, RequestIds, StreamsOk, C.ClientOk, GreetingOk;
    assert Known(m, sys.client.calls, sys.server.published);
    assert Entered(sys, None)[m.id] <= 1;
    if m in sys.server.deferred {
      var i :| 0 <= i < |sys.server.deferred| && sys.server.deferred[i] == m;
      RequestIdIn(sys.server.deferred, i);
    } else {
      RequestIdIn(sys.toServer, 0);
    }
    if m.id in sys.server.activeRequests {
      S.TallyIn(S.All, sys.server.handlers, sys.server.activeRequests[m.id]);
    }
  }

  /** One step of the server, `m` being the message it takes off the wire or the deferred list. */
  lemma ServerStepHonest(codec: Codec, sys: System, t: System, a: S.ServerAction)
    requires Inv(codec, sys) && Honest(codec, sys)
    requires a.Receive? ==> sys.toServer != [] && a.message == sys.toServer[0]
    requires var o := S.Step(codec, sys.server, a);
      t == sys.(toServer := t.toServer, server := o.state, toClient := sys.toClient + o.sent)
    requires t.toServer == if a.Receive? then sys.toServer[1..] else sys.toServer
    ensures Honest(codec, t)
  {
    var s, o := sys.server, S.Step(codec, sys.server, a);
    hide Inv, S.Step, AllKept, Truthful, AnsweredIn, PastOk, Grows, Served, AllTruthful;
    TruthfulBehind(codec, sys.past, s.handlers);
    TruthfulBehind(codec, sys.past, o.state.handlers);
    StagesFine(codec, sys);
    StepTells(codec, s, a);
    StepGrows(codec, s, a);
    KeptBehind(sys.past, s.handlers, o.state.handlers);
    StillBacked(sys.toClient, s.handlers, o.state.handlers);
    ServerPast(codec, sys, t, a);
    ServerServed(codec, sys, a);
    forall id | id in t.client.settled ensures Echoes(Handled(t), id, t.client.settled[id]) {
      StillEchoes(Handled(sys), Handled(t), id, t.client.settled[id]);
    }
  }

  lemma StagesFine(codec: Codec, sys: System)
    requires Inv(codec, sys)
    ensures S.StagesOk(sys.server) && C.ClientOk(sys.client)
  {
  }

  lemma ServerServed(codec: Codec, sys: System, a: S.ServerAction)
    requires Inv(codec, sys) && Honest(codec, sys) && Served(sys.server.handlers)
    requires a.Receive? ==> sys.toServer != [] && a.message == sys.toServer[0]
    requires Tells(codec, sys.server, S.Step(codec, sys.server, a))
    requires Grows(sys.server, S.Step(codec, sys.server, a).state, Taken(sys.server, a))
    ensures Served(S.Step(codec, sys.server, a).state.handlers)
  {
    hide Inv, Honest, S.Step, AllTruthful, AllKept, Served, Backed;
    var s, t := sys.server, S.Step(codec, sys.server, a).state;
    var taken := Taken(s, a);
    if taken.Some? && taken.value.Request? { NotRefused(codec, sys, taken.value); }
    StillServed(s.handlers, t.handlers);
  }

  lemma StillServed(hs: seq<S.Handler>, gs: seq<S.Handler>)
    requires AllKept(hs, gs) && Served(hs) && |gs| <= |hs| + 1 && (|gs| > |hs| ==> gs[|hs|].answer.None?)
    ensures Served(gs)
  {
    forall k | 0 <= k < |gs| && gs[k].answer.Some? ensures gs[k].result.Some? {
      if k < |hs| { assert Kept(hs[k], gs[k]); }
    }
  }

  lemma ServerPast(codec: Codec, sys: System, t: System, a: S.ServerAction)
    requires PastOk(sys) && t.past == sys.past && t.client == sys.client
    requires a.Receive? ==> sys.toServer != [] && a.message == sys.toServer[0]
    requires t.toServer == if a.Receive? then sys.toServer[1..] else sys.toServer
    requires AllKept(sys.server.handlers, t.server.handlers) && Grows(sys.server, t.server, Taken(sys.server, a))
    ensures PastOk(t)
  {
    var s := sys.server;
    forall k | 0 <= k < |t.server.handlers| ensures NewTo(sys.past, t.server.handlers[k].id) {
      if k < |s.handlers| { assert Kept(s.handlers[k], t.server.handlers[k]); }
    }
    forall i | 0 <= i < |t.server.deferred| && t.server.deferred[i].Request?
      ensures NewTo(sys.past, t.server.deferred[i].id)
    {
      assert Among(t.server.deferred[i], s.deferred, Taken(s, a));
    }
  }

  /** What a client's step adds: requests with new ids, well formed, and outcomes with a cause. */
  ghost predicate Asks(c: C.ClientState, o: C.Out) {
    && (forall id :: id in c.calls ==> id in o.state.calls && o.state.calls[id] == c.calls[id])
    && (forall id :: id in o.state.calls && id !in c.calls ==> !o.state.calls[id].Malformed?)
    && (forall i :: 0 <= i < |o.sent| && o.sent[i].Request? ==> o.sent[i].id !in c.calls)
    && (forall id :: id in c.settled ==> id in o.state.settled && o.state.settled[id] == c.settled[id])
  }

  lemma StepAsks(codec: Codec, c: C.ClientState, a: C.ClientAction)
    requires C.ClientOk(c)
    ensures Asks(c, C.Step(codec, c, a))
  {
    C.NothingIsForgotten(codec, c, a);
    IssuesOne(codec, c, a);
    hide C.Step, C.ClientOk;
  }

  lemma IssuesOne(codec: Codec, c: C.ClientState, a: C.ClientAction)
    requires C.ClientOk(c)
    ensures var o := C.Step(codec, c, a);
      && (forall id :: id in o.state.calls && id !in c.calls ==> !o.state.calls[id].Malformed?)
      && (forall i :: 0 <= i < |o.sent| && o.sent[i].Request? ==> o.sent[i].id !in c.calls)
  {
    hide C.ListenersOk, C.SettledOk, C.Received, C.Started, C.Delivered, C.Disposed, C.Cleared;
    if a.Receive? { ReceivedAsksNothing(codec, c, a.message); }
  }

  lemma ReceivedAsksNothing(codec: Codec, c: C.ClientState, m: ToClient)
    ensures C.Received(codec, c, m).calls == c.calls
  {
    hide C.Hydrate, Extend;
  }

  /** One step of the client. */
  lemma ClientStepHonest(codec: Codec, sys: System, t: System, a: C.ClientAction)
    requires Inv(codec, sys) && Honest(codec, sys)
    requires var o := C.Step(codec, sys.client, a);
      t == sys.(client := o.state, toServer := sys.toServer + o.sent, toClient := t.toClient)
    requires if a.Receive? then sys.toClient != [] && a.message == sys.toClient[0] && t.toClient == sys.toClient[1..]
      else t.toClient == sys.toClient
    ensures Honest(codec, t)
  {
    hide Inv, C.Step, AnsweredIn, AllTruthful, Served, PastOk, Asks, Causes, Echoes, C.ClientOk;
    StagesFine(codec, sys);
    StepAsks(codec, sys.client, a);
    StepCauses(codec, sys.client, a);
    ClientPast(sys, t, C.Step(codec, sys.client, a));
    AnsweredEver(sys);
    forall id | id in t.client.settled ensures Echoes(Handled(t), id, t.client.settled[id]) {
      OutcomeKept(sys.client, C.Step(codec, sys.client, a), id);
      SettledEchoes(codec, sys, t, a, id);
    }
  }

  lemma OutcomeKept(c: C.ClientState, o: C.Out, id: nat)
    requires Asks(c, o)
    ensures id in c.settled ==> id in o.state.settled && o.state.settled[id] == c.settled[id]
  {
  }

  /** What this connection's handlers have answered is among all answers. */
  lemma AnsweredEver(sys: System)
    ensures forall id, reply :: AnsweredIn(sys.server.handlers, id, reply) ==> AnsweredIn(Handled(sys), id, reply)
  {
    var all := Handled(sys);
    forall k | 0 <= k < |sys.server.handlers| ensures all[|sys.past| + k] == sys.server.handlers[k] { }
  }

  lemma SettledEchoes(codec: Codec, sys: System, t: System, a: C.ClientAction, id: nat)
    requires Honest(codec, sys) && Causes(sys.client, t.client, a) && id in t.client.settled
    requires id in sys.client.settled ==> t.client.settled[id] == sys.client.settled[id]
    requires a.Receive? ==> sys.toClient != [] && a.message == sys.toClient[0]
    requires forall i, reply :: AnsweredIn(sys.server.handlers, i, reply) ==> AnsweredIn(Handled(sys), i, reply)
    ensures Echoes(Handled(sys), id, t.client.settled[id])
  {
    hide AnsweredIn, AllTruthful, Served, PastOk;
    if id !in sys.client.settled { assert Cause(sys.client, t.client, a, id, t.client.settled[id]); }
  }

  lemma ClientPast(sys: System, t: System, o: C.Out)
    requires PastOk(sys) && t.past == sys.past && t.server == sys.server && t.client == o.state
    requires Asks(sys.client, o) && t.toServer == sys.toServer + o.sent
    ensures PastOk(t)
  {
    forall i | 0 <= i < |t.toServer| && t.toServer[i].Request? ensures NewTo(sys.past, t.toServer[i].id) {
      if i >= |sys.toServer| { assert t.toServer[i] == o.sent[i - |sys.toServer|]; }
    }
  }

  /** A reconnect leaves the handlers of the old connection behind. */
  lemma ReconnectHonest(codec: Codec, sys: System)
    requires Inv(codec, sys) && Honest(codec, sys)
    ensures Honest(codec, Step(codec, sys, Reconnect))
  {
    hide Inv, AnsweredIn, AllTruthful, Served, PastOk;
    var t := Step(codec, sys, Reconnect);
    if sys.client.phase == C.Offline {
      assert Handled(t) == Handled(sys);
      ReconnectPast(codec, sys);
    }
  }

  lemma ReconnectPast(codec: Codec, sys: System)
    requires Inv(codec, sys) && PastOk(sys)
    ensures PastOk(Step(codec, sys, Reconnect))
  {
    hide Inv, NoneRepeated;
    NeverTwice(codec, sys);
    HandlersCalled(codec, sys);
    ReconnectShape(codec, sys);
    hide Step;
  }

  lemma ReconnectShape(codec: Codec, sys: System)
    ensures var t := Step(codec, sys, Reconnect);
      || t == sys
      || (t.past == Handled(sys) && t.client.calls == sys.client.calls && t.toServer == [Hello] &&
          t.server.handlers == [] && t.server.deferred == [])
  {
  }

  lemma HandlersCalled(codec: Codec, sys: System)
    requires Inv(codec, sys)
    ensures Called(sys.server.handlers, sys.client.calls)
  {
    hide TokensOk, StreamsOk, C.ClientOk, GreetingOk;
  }

  /** No two handlers, of whatever connection, have the same request id. */
  lemma NeverTwice(codec: Codec, sys: System)
    requires Inv(codec, sys) && PastOk(sys)
    ensures NoneRepeated(Handled(sys))
  {
    var hs, past := Handled(sys), |sys.past|;
    forall i, j | 0 <= i < j < |hs| ensures hs[i].id != hs[j].id {
      if past <= i { Distinct(codec, sys, None, i - past, j - past); }
    }
  }

  lemma StepHonest(codec: Codec, sys: System, a: Action)
    requires Inv(codec, sys) && Honest(codec, sys)
    ensures Honest(codec, Step(codec, sys, a))
  {
    hide Inv, Honest, C.Step, S.Step;
    var t := Step(codec, sys, a);
    match a
    case ByClient(c) => if !c.Receive? && !c.Connect? { ClientStepHonest(codec, sys, t, c); }
    case ByServer(s) => if !s.Receive? { ServerStepHonest(codec, sys, t, s); }
    case ServerReceives => if sys.toServer != [] { ServerStepHonest(codec, sys, t, S.Receive(sys.toServer[0])); }
    case ClientReceives => if sys.toClient != [] {
      var o := C.Step(codec, sys.client, C.Receive(sys.toClient[0]));
      ClientStepHonest(codec, sys, t, C.Receive(sys.toClient[0]));
    }
    case Reconnect => ReconnectHonest(codec, sys);
  }

  lemma {:induction false} RunHonest(codec: Codec, sys: System, actions: seq<Action>)
    requires codec.Lawful() && Inv(codec, sys) && Honest(codec, sys)
    ensures Honest(codec, Run(codec, sys, actions)) && Inv(codec, Run(codec, sys, actions))
    decreases |actions|
  {
    hide Inv, Honest, Step;
    if actions != [] {
      StepKeeps(codec, sys, actions[0]);
      StepHonest(codec, sys, actions[0]);
      RunHonest(codec, Step(codec, sys, actions[0]), actions[1..]);
    }
  }

  lemma HonestRun(codec: Codec, actions: seq<Action>)
    requires codec.Lawful()
    ensures Inv(codec, Run(codec, INITIAL, actions)) && Honest(codec, Run(codec, INITIAL, actions))
  {
    InitialOk(codec);
    hide Inv;
    assert Honest(codec, INITIAL);
    hide Honest;
    RunHonest(codec, INITIAL, actions);
  }

  /**
   A promise that resolves, or is rejected by the server, does so for the one handler of its request, on this connection
   or an earlier one, and as the service made it: it resolves if and only if the service did not throw (or, for a
   subscription, returned a snapshot), with the value the service returned, if any (or the snapshot's encoding).
   */
  lemma PromiseTellsService(codec: Codec, actions: seq<Action>, id: nat) returns (k: nat)
    requires codec.Lawful()
    requires var settled := Run(codec, INITIAL, actions).client.settled;
      id in settled && (settled[id].Resolved? || settled[id] == C.Rejected(C.ByServer))
    ensures var sys := Run(codec, INITIAL, actions); var hs := Handled(sys); var o := sys.client.settled[id];
      && k < |hs| && (forall j :: 0 <= j < |hs| ==> (hs[j].id == id <==> j == k))
      && var h := hs[k]; h.result.Some? && var r := h.result.value;
      && id in sys.client.calls && h.call == sys.client.calls[id]
      && (o.Resolved? <==> if h.call.Subscribe? then r.SnapshotResult? else !r.Threw?)
      && (o.Resolved? && h.call.Subscribe? ==> o.result == Some(codec.encodeSnapshot(r.snapshot)))
      && (o.Resolved? && !h.call.Subscribe? ==> o.result == if r.ValueResult? then Some(r.value) else None)
  {
    HonestRun(codec, actions);
    var sys := Run(codec, INITIAL, actions);
    var hs, o := Handled(sys), sys.client.settled[id];
    hide Run;
    HandlersCalled(codec, sys);
    NeverTwice(codec, sys);
    hide Inv;
    assert Echoes(hs, id, o);
    var reply := if o.Resolved? then Success(o.result) else Failure;
    assert AnsweredIn(hs, id, reply);
    k :| 0 <= k < |hs| && hs[k].id == id && hs[k].answer == Some(reply);
    assert Truthful(codec, hs[k]);
    assert hs[k].id in sys.client.calls && sys.client.calls[hs[k].id] == hs[k].call;
  }

  // ---------------------------------------------------------------- when a promise settles, and how

  /** The step that settles the promise of request `id`, by outcome. */
  predicate Why(b: System, d: System, a: Action, id: nat, o: C.Outcome) {
    match o
    case Resolved(result) => a == ClientReceives && b.toClient != [] && b.toClient[0] == Response(id, Success(result))
    case Rejected(ByServer) => a == ClientReceives && b.toClient != [] && b.toClient[0] == Response(id, Failure)
    case Rejected(Aborted) => a == ByClient(C.Aborting(id))
    case Rejected(NotSent) =>
      && id !in b.client.calls
      && (a == ByClient(C.Subscribing(false)) || (a.ByClient? && a.c.Requesting? && !a.c.encodable))
    case Rejected(_) => b.client.phase == C.Online && d.client.phase == C.Offline && !Answering(b, a, id)
  }

  /** The client takes the response to request `id` off the wire. */
  predicate Answering(b: System, a: Action, id: nat) {
    a == ClientReceives && b.client.phase == C.Online && b.toClient != [] && b.toClient[0].Response? &&
      b.toClient[0].id == id
  }

  /** The client's part in a step. */
  predicate Plays(b: System, a: Action, c: C.ClientAction) {
    match a
    case ByClient(x) => c == x && !c.Receive?
    case ClientReceives => b.toClient != [] && c == C.Receive(b.toClient[0])
    case _ => false
  }

  lemma CauseIsWhy(b: System, d: System, a: Action, c: C.ClientAction, id: nat, o: C.Outcome)
    requires Plays(b, a, c) && Cause(b.client, d.client, c, id, o)
    requires Answering(b, a, id) ==> o.Resolved? || o == C.Rejected(C.ByServer)
    ensures Why(b, d, a, id, o)
  {
  }

  lemma StepWhy(codec: Codec, b: System, a: Action, id: nat)
    requires Inv(codec, b) && Inv(codec, Step(codec, b, a))
    requires id !in b.client.settled && id in Step(codec, b, a).client.settled
    ensures Why(b, Step(codec, b, a), a, id, Step(codec, b, a).client.settled[id])
  {
    hide Inv, Step, C.ClientOk, Cause, Why;
    StagesFine(codec, b);
    StepPlays(codec, b, a);
    if Answering(b, a, id) { AnswerSettles(codec, b, id); }
    var c := if a.ByClient? then a.c else C.Receive(b.toClient[0]);
    StepCauses(codec, b.client, c);
    CauseIsWhy(b, Step(codec, b, a), a, c, id, Step(codec, b, a).client.settled[id]);
  }

  /** Only these steps settle anything. */
  lemma StepPlays(codec: Codec, b: System, a: Action)
    ensures var d := Step(codec, b, a);
      || d.client.settled == b.client.settled
      || (a.ByClient? && Plays(b, a, a.c) && d.client == C.Step(codec, b.client, a.c).state)
      || (a.ClientReceives? && b.toClient != [] && d.client == C.Step(codec, b.client, C.Receive(b.toClient[0])).state)
  {
  }

  lemma AnswerSettles(codec: Codec, b: System, id: nat)
    requires Inv(codec, b) && Inv(codec, Step(codec, b, ClientReceives))
    requires Answering(b, ClientReceives, id) && id !in b.client.settled
    ensures var settled := Step(codec, b, ClientReceives).client.settled; var reply := b.toClient[0].reply;
      id in settled && settled[id] == if reply.Success? then C.Resolved(reply.result) else C.Rejected(C.ByServer)
  {
    hide Inv, C.Received;
    var d := Step(codec, b, ClientReceives);
    NoFaults(codec, d);
    Unexpected(codec, b.client, id, b.toClient[0].reply);
    ResponseSettles(codec, b.client, id, b.toClient[0].reply);
  }

  lemma Unexpected(codec: Codec, c: C.ClientState, id: nat, reply: Reply)
    requires c.phase == C.Online && C.NoMatchingRequest !in C.Received(codec, c, Response(id, reply)).faults
    ensures id in c.pending
  {
  }

  lemma NoFaults(codec: Codec, d: System)
    requires Inv(codec, d)
    ensures C.UndecodableStream !in d.client.faults && C.NoMatchingRequest !in d.client.faults
  {
    hide TokensOk, CallsAgree, StreamsOk, C.ClientOk;
  }

  /** Every promise settles in one step of the run, and for one of these reasons. */
  lemma {:induction false} WhySettled(codec: Codec, actions: seq<Action>, id: nat) returns (n: nat)
    requires codec.Lawful() && id in Run(codec, INITIAL, actions).client.settled
    ensures n < |actions|
    ensures var b, d := Run(codec, INITIAL, actions[..n]), Run(codec, INITIAL, actions[..n + 1]);
      id !in b.client.settled && Why(b, d, actions[n], id, Run(codec, INITIAL, actions).client.settled[id])
    decreases |actions|
  {
    NothingSettled(codec);
    hide Inv, Honest, Run, Step, Why, C.ClientOk, C.Remembers;
    var last := |actions| - 1;
    var before := actions[..last];
    RunLast(codec, INITIAL, actions);
    HonestRun(codec, before);
    HonestRun(codec, actions);
    var b := Run(codec, INITIAL, before);
    StagesFine(codec, b);
    if id in b.client.settled {
      StepRemembers(codec, b, actions[last]);
      OutcomeStays(b.client, Run(codec, INITIAL, actions).client, id);
      n := WhySettled(codec, before, id);
      assert before[..n] == actions[..n] && before[..n + 1] == actions[..n + 1];
    } else {
      n := last;
      StepWhy(codec, b, actions[last], id);
      assert actions[..n + 1] == actions;
    }
  }

  lemma NothingSettled(codec: Codec)
    ensures Run(codec, INITIAL, []).client.settled == map[]
  {
  }

  lemma OutcomeStays(c: C.ClientState, d: C.ClientState, id: nat)
    requires C.Remembers(c, d) && id in c.settled
    ensures id in d.settled && d.settled[id] == c.settled[id]
  {
  }

  lemma RunLast(codec: Codec, sys: System, actions: seq<Action>)
    requires actions != []
    ensures var last := |actions| - 1;
      Run(codec, sys, actions) == Step(codec, Run(codec, sys, actions[..last]), actions[last])
  {
    var last := |actions| - 1;
    assert actions == actions[..last] + [actions[last]];
    RunAppend(codec, sys, actions[..last], [actions[last]]);
    var b := Run(codec, sys, actions[..last]);
    assert Run(codec, b, [actions[last]]) == Run(codec, Step(codec, b, actions[last]), []);
  }

  /** The response to a request settles its promise for good, unless an abort has done so before. */
  lemma ResponseDecides(codec: Codec, actions: seq<Action>, n: nat, id: nat)
    requires codec.Lawful() && n < |actions|
    requires var b := Run(codec, INITIAL, actions[..n]); Answering(b, actions[n], id) && id !in b.client.settled
    ensures var b := Run(codec, INITIAL, actions[..n]); var settled := Run(codec, INITIAL, actions).client.settled;
      var reply := b.toClient[0].reply;
      id in settled && settled[id] == if reply.Success? then C.Resolved(reply.result) else C.Rejected(C.ByServer)
  {
    var b := Run(codec, INITIAL, actions[..n]);
    var rest := actions[n..];
    assert actions == actions[..n] + rest && rest[0] == actions[n] && actions[..n + 1] == actions[..n] + [actions[n]];
    RunAppend(codec, INITIAL, actions[..n], rest);
    RunAppend(codec, INITIAL, actions[..n], [actions[n]]);
    HonestRun(codec, actions[..n]);
    HonestRun(codec, actions[..n + 1]);
    var d := Step(codec, b, actions[n]);
    assert Run(codec, b, [actions[n]]) == d;
    AnswerSettles(codec, b, id);
    RunRemembers(codec, d, rest[1..]);
    hide Inv, Honest, Step;
  }

  /** An abort settles a promise that has not settled, for good. */
  lemma AbortDecides(codec: Codec, actions: seq<Action>, n: nat, id: nat)
    requires codec.Lawful() && n < |actions| && actions[n] == ByClient(C.Aborting(id))
    requires var c := Run(codec, INITIAL, actions[..n]).client; id in c.pending && id !in c.settled
    ensures var settled := Run(codec, INITIAL, actions).client.settled;
      id in settled && settled[id] == C.Rejected(C.Aborted)
  {
    var b := Run(codec, INITIAL, actions[..n]);
    var rest := actions[n..];
    assert actions == actions[..n] + rest && rest[0] == actions[n] && actions[..n + 1] == actions[..n] + [actions[n]];
    RunAppend(codec, INITIAL, actions[..n], rest);
    RunAppend(codec, INITIAL, actions[..n], [actions[n]]);
    HonestRun(codec, actions[..n + 1]);
    var d := Step(codec, b, actions[n]);
    assert Run(codec, b, [actions[n]]) == d;
    RunRemembers(codec, d, rest[1..]);
    hide Inv, Honest;
  }

  // ---------------------------------------------------------------- against an arbitrary server

  /** The update, or the snapshot with the updates that waited for it, does not decode. */
  predicate Garbled(codec: Codec, c: C.ClientState, m: ToClient) {
    match m
    case ServiceUpdate(sub, w) =>
      && sub in c.registered && sub in c.listeners && c.listeners[sub].history.Some?
      && codec.decodeUpdate(c.listeners[sub].history.value, w).None?
    case Response(id, Success(result)) =>
      && id in c.pending && c.pending[id].Subscribe? && c.pending[id].sub in c.listeners
      && (result.None? || codec.decodeSnapshot(result.value).None? || !C.DecodeAll(codec,
          History(codec.decodeSnapshot(result.value).value, []), c.listeners[c.pending[id].sub].queuedWire).1)
    case _ => false
  }

  /** Not what the protocol allows at this point. */
  predicate Unwanted(codec: Codec, c: C.ClientState, m: ToClient) {
    if c.phase == C.Connecting then !m.Greeting?
    else m.Greeting? || m.Refusal? || (m.Response? && m.id !in c.pending) || Garbled(codec, c, m)
  }

  /**
   Whatever the server sends: the connection is given up if and only if a message is not wanted or does not decode. Then
   every promise still pending is rejected and every listener dropped. The greeting, and nothing else, opens it.
   */
  lemma ReceivingDecides(codec: Codec, c: C.ClientState, m: ToClient)
    requires c.phase != C.Offline
    ensures var d := C.Step(codec, c, C.Receive(m)).state;
      if Unwanted(codec, c, m)
      then
        && d.phase == C.Offline && d.pending == map[] && d.registered == {}
        && forall id :: id in c.pending ==> id in d.settled && (id !in c.settled ==> d.settled[id].Rejected?)
      else d.phase == C.Online
  {
    hide C.DecodeAll;
  }
}
