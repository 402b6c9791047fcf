/** The client's steps keep the invariant of the composed system. */
module RpcClientSteps {
  import opened Common
  import opened RpcProtocol
  import opened RpcServerSteps
  import opened RpcSystem
  import C = RpcClient
  import S = RpcServer

  /** No decoder moves and nothing new is listened to. */
  ghost predicate SameListeners(c: C.ClientState, d: C.ClientState) {
    && d.registered <= c.registered
    && d.listeners.Keys == c.listeners.Keys
    && (forall sub :: sub in c.listeners ==>
          && d.listeners[sub].request == c.listeners[sub].request
          && d.listeners[sub].history == c.listeners[sub].history
          && (c.listeners[sub].queuedWire == [] ==> d.listeners[sub].queuedWire == []))
  }

  /** Besides, the requests stay as they are, unless the connection is given up. */
  ghost predicate SameEnds(c: C.ClientState, d: C.ClientState) {
    && SameListeners(c, d)
    && d.calls == c.calls
    && ((d.phase == c.phase && d.pending == c.pending) || d.phase == C.Offline)
    && d.faults <= c.faults + {C.UnexpectedHandshake}
  }

  predicate NoRequests(ms: seq<ToServer>) { |ms| <= 1 && (ms != [] ==> !ms[0].Request?) }

  lemma RequestIdsGrow(ms: seq<ToServer>, sent: seq<ToServer>)
    requires |sent| <= 1
    ensures RequestIds(ms + sent) == RequestIds(ms) + if sent == [] then multiset{} else OneRequest(sent[0])
  {
    if sent == [] {
      assert ms + sent == ms;
    } else {
      assert ms + sent == ms + [sent[0]];
      RequestIdsSnoc(ms, sent[0]);
    }
  }

  lemma LocalTokens(sys: System, o: C.Out)
    requires TokensOk(sys, None) && SameEnds(sys.client, o.state) && NoRequests(o.sent)
    ensures TokensOk(AfterClient(sys, o), None)
  {
    hide S.Tally, ResponseIds, RequestIds;
    RequestIdsGrow(sys.toServer, o.sent);
    assert Unanswered(AfterClient(sys, o), None) == Unanswered(sys, None);
    assert Entered(AfterClient(sys, o), None) == Entered(sys, None);
  }

  lemma EndsSame(codec: Codec, l: C.Listener, l': C.Listener, registered: bool, registered': bool, wire: seq<ToClient>,
      h: S.Handler, exact: bool)
    requires h.call.Subscribe? && EndsOk(codec, l, registered, wire, h, exact)
    requires l'.request == l.request && l'.history == l.history && (registered' ==> registered)
    ensures EndsOk(codec, l', registered', wire, h, exact)
  {
  }

  lemma LocalStreams(codec: Codec, sys: System, t: System)
    requires StreamsOk(codec, sys) && SameListeners(sys.client, t.client)
    requires t.server == sys.server && t.toClient == sys.toClient
    ensures StreamsOk(codec, t)
  {
    hide EndsOk;
    forall k | 0 <= k < |t.server.handlers| ensures LinkOk(codec, t, t.server.handlers[k]) {
      var h := t.server.handlers[k];
      assert LinkOk(codec, sys, h);
      if h.call.Subscribe? {
        var sub := h.call.sub;
        EndsSame(codec, sys.client.listeners[sub], t.client.listeners[sub], sub in sys.client.registered,
            sub in t.client.registered,
                 t.toClient, h, S.CanSend(t.server));
      }
    }
  }

  lemma LocalCalls(sys: System, o: C.Out)
    requires CallsAgree(sys, None) && SameEnds(sys.client, o.state) && NoRequests(o.sent)
    ensures CallsAgree(AfterClient(sys, o), None)
  {
  }

  lemma LocalKeeps(codec: Codec, sys: System, o: C.Out)
    requires Inv(codec, sys) && C.ClientOk(o.state) && SameEnds(sys.client, o.state) && NoRequests(o.sent)
    ensures Inv(codec, AfterClient(sys, o))
  {
    LocalTokens(sys, o);
    LocalCalls(sys, o);
    LocalStreams(codec, sys, AfterClient(sys, o));
    hide TokensOk, CallsAgree, StreamsOk, C.ClientOk, S.StagesOk;
  }

  // ---------------------------------------------------------------- a new request

  lemma NotQueued(ms: seq<ToServer>, calls: map<nat, Call>, published: map<nat, seq<Update>>, id: nat)
    requires AllKnown(ms, calls, published) && id !in calls
    ensures RequestIds(ms)[id] == 0
  {
    if id in RequestIds(ms) {
      var k := RequestIdFrom(ms, id);
      assert false;
    }
  }

  lemma NotHandled(kind: S.Kind, hs: seq<S.Handler>, id: nat)
    requires forall k :: 0 <= k < |hs| ==> hs[k].id != id
    ensures S.Tally(kind, hs)[id] == 0
  {
    if id in S.Tally(kind, hs) {
      var k := S.TallyFrom(kind, hs, id);
      assert false;
    }
  }

  lemma UnusedId(c: C.ClientState, id: nat)
    requires C.ClientOk(c) && id > c.requestSequence
    ensures id !in c.calls && id !in c.pending
  {
  }

  lemma NeverEntered(codec: Codec, sys: System, id: nat)
    requires Inv(codec, sys) && id > sys.client.requestSequence
    ensures Entered(sys, None)[id] == 0 && Unanswered(sys, None)[id] == 0 && id !in sys.client.pending
  {
    hide StreamsOk, S.Tally, ResponseIds, RequestIds, InHand, C.ClientOk, AllKnown, GreetingOk;
    NothingInHand();
    UnusedId(sys.client, id);
    QueuesKnown(sys, None);
    NotQueued(sys.toServer, sys.client.calls, sys.server.published, id);
    NotQueued(sys.server.deferred, sys.client.calls, sys.server.published, id);
    NotHandled(S.All, sys.server.handlers, id);
    NotHandled(S.Open, sys.server.handlers, id);
    NotHandled(S.Answered, sys.server.handlers, id);
    assert ResponseIds(sys.toClient)[id] <= S.Tally(S.Answered, sys.server.handlers)[id];
  }

  lemma WithOneMore(a: multiset<nat>, b: map<nat, Call>, id: nat, call: Call)
    requires a[id] == 0 && id !in b
    ensures a <= multiset(b.Keys) ==> a + multiset{id} <= multiset(b[id := call].Keys)
    ensures a == multiset(b.Keys) ==> a + multiset{id} == multiset(b[id := call].Keys)
  {
    assert multiset(b[id := call].Keys) == multiset(b.Keys) + multiset{id};
  }

  lemma IssueTokens(sys: System, o: C.Out, id: nat, call: Call)
    requires TokensOk(sys, None) && Entered(sys, None)[id] == 0 && Unanswered(sys, None)[id] == 0 &&
      id !in sys.client.pending
    requires sys.client.phase == C.Online && o.state.phase == C.Online
    requires o.sent == [Request(id, call)] && o.state.pending == sys.client.pending[id := call]
    ensures TokensOk(AfterClient(sys, o), None)
  {
    hide S.Tally, ResponseIds, RequestIds, InHand;
    RequestIdsGrow(sys.toServer, o.sent);
    var t := AfterClient(sys, o);
    assert Unanswered(t, None) == Unanswered(sys, None) + multiset{id};
    assert Entered(t, None) == Entered(sys, None) + multiset{id};
    WithOneMore(Unanswered(sys, None), sys.client.pending, id, call);
    hide Unanswered, Entered;
  }

  /** What a new request changes: an unused id, perhaps an unused subscription. */
  ghost predicate Issued(c: C.ClientState, o: C.Out, call: Call) {
    && var d := o.state; var id := c.requestSequence + 1;
    && d.phase == c.phase && d.faults == c.faults
    && (if c.phase == C.Online then d.calls == c.calls[id := call] else d.calls == c.calls)
    && ((o.sent == [] && d.pending == c.pending) ||
        (c.phase == C.Online && o.sent == [Request(id, call)] && d.pending == c.pending[id := call]))
    && (call.Subscribe? ==> call.sub == c.subscriptionSequence + 1)
    && (forall sub :: sub in c.listeners ==> sub in d.listeners && d.listeners[sub] == c.listeners[sub])
    && (forall sub :: sub in d.listeners && sub !in c.listeners ==>
          call == Subscribe(sub) && d.listeners[sub].history == None && d.listeners[sub].queuedWire == [])
    && (forall sub :: sub in d.registered ==> sub in c.registered || call == Subscribe(sub))
  }

  lemma RequestIssues(c: C.ClientState, call: Call, encodable: bool)
    requires !call.Subscribe?
    ensures Issued(c, C.Issue(c, call, encodable), call)
  {
  }

  lemma SubscribeIssues(c: C.ClientState, encodable: bool)
    requires C.ClientOk(c)
    ensures Issued(c, C.BeginSubscribe(c, encodable), Subscribe(c.subscriptionSequence + 1))
  {
    OldListeners(c);
    hide C.ClientOk;
  }

  lemma OldListeners(c: C.ClientState)
    requires C.ClientOk(c)
    ensures forall sub :: sub in c.listeners ==> sub <= c.subscriptionSequence
  {
    hide C.ListenerOk;
    assert forall sub :: sub in c.listeners ==> C.SubscriptionOk(c, sub, c.listeners[sub]);
  }

  lemma KnownLater(m: ToServer, calls: map<nat, Call>, calls': map<nat, Call>, published: map<nat, seq<Update>>)
    requires Known(m, calls, published) && forall id :: id in calls ==> id in calls' && calls'[id] == calls[id]
    ensures Known(m, calls', published)
  {
  }

  lemma IssuedCalls(sys: System, o: C.Out, call: Call)
    requires CallsAgree(sys, None) && C.ClientOk(sys.client) && Issued(sys.client, o, call)
    ensures CallsAgree(AfterClient(sys, o), None)
  {
    OldListeners(sys.client);
    IdUnused(sys.client);
    hide C.ClientOk, Known;
    var t := AfterClient(sys, o);
    forall i | 0 <= i < |t.toServer| ensures Known(t.toServer[i], t.client.calls, t.server.published) {
      if i < |sys.toServer| { KnownLater(sys.toServer[i], sys.client.calls, t.client.calls, t.server.published); }
      else { NewKnown(sys, o, call); }
    }
    forall i | 0 <= i < |t.server.deferred| ensures Known(t.server.deferred[i], t.client.calls, t.server.published) {
      KnownLater(sys.server.deferred[i], sys.client.calls, t.client.calls, t.server.published);
    }
  }

  lemma IdUnused(c: C.ClientState)
    requires C.ClientOk(c)
    ensures c.requestSequence + 1 !in c.calls
  {
  }

  lemma NewKnown(sys: System, o: C.Out, call: Call)
    requires sys.server.published.Keys <= sys.client.listeners.Keys && Issued(sys.client, o, call) && o.sent != []
    requires forall sub :: sub in sys.client.listeners ==> sub <= sys.client.subscriptionSequence
    ensures Known(o.sent[0], o.state.calls, sys.server.published)
  {
  }

  lemma IssuedStreams(codec: Codec, sys: System, o: C.Out, call: Call)
    requires StreamsOk(codec, sys) && C.ClientOk(sys.client) && Issued(sys.client, o, call)
    ensures StreamsOk(codec, AfterClient(sys, o))
  {
    OldListeners(sys.client);
    hide EndsOk, C.ClientOk;
    var t := AfterClient(sys, o);
    forall k | 0 <= k < |t.server.handlers| ensures LinkOk(codec, t, t.server.handlers[k]) {
      var h := t.server.handlers[k];
      assert LinkOk(codec, sys, h);
      if h.call.Subscribe? {
        var sub := h.call.sub;
        EndsSame(codec, sys.client.listeners[sub], t.client.listeners[sub], sub in sys.client.registered,
            sub in t.client.registered,
                 t.toClient, h, S.CanSend(t.server));
      }
    }
  }

  lemma IssuedKeeps(codec: Codec, sys: System, o: C.Out, call: Call)
    requires Inv(codec, sys) && C.ClientOk(o.state) && Issued(sys.client, o, call)
    ensures Inv(codec, AfterClient(sys, o))
  {
    hide CallsAgree, StreamsOk, C.ClientOk, S.StagesOk, TokensOk;
    IssuedCalls(sys, o, call);
    IssuedStreams(codec, sys, o, call);
    var id := sys.client.requestSequence + 1;
    if o.sent == [] {
      SilentTokens(sys, o);
    } else {
      NeverEntered(codec, sys, id);
      IssueTokens(sys, o, id, call);
    }
  }

  lemma SilentTokens(sys: System, o: C.Out)
    requires TokensOk(sys, None) && o.sent == [] && o.state.phase == sys.client.phase &&
      o.state.pending == sys.client.pending
    ensures TokensOk(AfterClient(sys, o), None)
  {
    hide S.Tally, ResponseIds, RequestIds;
    assert sys.toServer + [] == sys.toServer;
  }

  // ---------------------------------------------------------------- what the application does

  lemma LocalStep(codec: Codec, c: C.ClientState, a: C.ClientAction)
    requires !a.Receive? && !a.Connect? && !a.Subscribing? && !a.Requesting?
    ensures SameEnds(c, C.Step(codec, c, a).state) && NoRequests(C.Step(codec, c, a).sent)
  {
    hide SameEnds, C.Resumed, C.Disconnected, C.Started, C.Delivered, C.Disposed, C.Cleared, C.Settle;
    LocalFunctions(c);
    match a
    case Aborting(id) =>
      Unmoved(c, c);
      Unmoved(c, C.Settle(c, id, C.Rejected(C.Aborted)));
    case SubscribeResumed(sub) => ResumedUnmoved(c, sub);
    case Start(sub) => ListenerUnmoved(c, c.registered, sub, C.Started);
    case Deliver(sub) => ListenerUnmoved(c, c.registered, sub, C.Delivered);
    case Dispose(sub) =>
      ListenerUnmoved(c, c.registered - {sub}, sub, C.Disposed);
      Unmoved(c, c);
    case ClearQueues(sub) =>
      ListenerUnmoved(c, c.registered, sub, C.Cleared);
      Unmoved(c, c);
    case ConnectionLost => LostUnmoved(c);
  }

  lemma LocalFunctions(c: C.ClientState)
    ensures forall id, o :: C.Settle(c, id, o) == c.(settled := C.Settle(c, id, o).settled)
    ensures forall l ::
      C.Started(l).request == l.request && C.Started(l).history == l.history && C.Started(l).queuedWire == l.queuedWire
    ensures forall l ::
      C.Delivered(l).request == l.request && C.Delivered(l).history == l.history &&
      C.Delivered(l).queuedWire == l.queuedWire
    ensures forall l ::
      C.Disposed(l).request == l.request && C.Disposed(l).history == l.history &&
      C.Disposed(l).queuedWire == l.queuedWire
    ensures forall l ::
      C.Cleared(l).request == l.request && C.Cleared(l).history == l.history && C.Cleared(l).queuedWire == []
  {
  }

  lemma Unmoved(c: C.ClientState, d: C.ClientState)
    requires d == c.(settled := d.settled)
    ensures SameEnds(c, d)
  {
  }

  lemma ListenerUnmoved(c: C.ClientState, registered: set<nat>, sub: nat, f: C.Listener -> C.Listener)
    requires registered <= c.registered
    requires sub in c.listeners ==> var l := c.listeners[sub];
      f(l).request == l.request && f(l).history == l.history &&
          (f(l).queuedWire == l.queuedWire || f(l).queuedWire == [])
    ensures SameEnds(c, C.OnListener(c, sub, f).(registered := registered))
  {
  }

  lemma ResumedUnmoved(c: C.ClientState, sub: nat)
    ensures SameEnds(c, C.Resumed(c, sub))
  {
  }

  lemma LostUnmoved(c: C.ClientState)
    ensures SameEnds(c, C.Disconnected(c, C.Lost))
  {
  }

  /** Calls, aborts, `start()`, deliveries, disposal and the loss of the connection. */
  lemma ClientKeeps(codec: Codec, sys: System, a: C.ClientAction)
    requires Inv(codec, sys) && !a.Receive? && !a.Connect?
    ensures Inv(codec, Step(codec, sys, ByClient(a)))
  {
    hide Inv, C.Step, C.ClientOk, SameEnds, Issued;
    ClientFine(codec, sys);
    C.ClientStepOk(codec, sys.client, a);
    if a.Requesting? && !a.call.Subscribe? && !a.call.Malformed? {
      RequestIssues(sys.client, a.call, a.encodable);
      IssueStep(codec, sys.client, a);
      IssuedKeeps(codec, sys, C.Step(codec, sys.client, a), a.call);
    } else if a.Subscribing? {
      SubscribeIssues(sys.client, a.encodable);
      IssueStep(codec, sys.client, a);
      IssuedKeeps(codec, sys, C.Step(codec, sys.client, a), Subscribe(sys.client.subscriptionSequence + 1));
    } else {
      if a.Requesting? { RefusedStep(codec, sys.client, a); } else { LocalStep(codec, sys.client, a); }
      LocalKeeps(codec, sys, C.Step(codec, sys.client, a));
    }
  }

  lemma ClientFine(codec: Codec, sys: System)
    requires Inv(codec, sys)
    ensures C.ClientOk(sys.client)
  {
  }

  lemma IssueStep(codec: Codec, c: C.ClientState, a: C.ClientAction)
    ensures a.Subscribing? ==> C.Step(codec, c, a) == C.BeginSubscribe(c, a.encodable)
    ensures a.Requesting? && !a.call.Subscribe? && !a.call.Malformed? ==>
      C.Step(codec, c, a) == C.Issue(c, a.call, a.encodable)
  {
    hide C.BeginSubscribe, C.Issue;
  }

  lemma RefusedStep(codec: Codec, c: C.ClientState, a: C.ClientAction)
    requires a.Requesting? && (a.call.Subscribe? || a.call.Malformed?)
    ensures SameEnds(c, C.Step(codec, c, a).state) && NoRequests(C.Step(codec, c, a).sent)
  {
  }
}
