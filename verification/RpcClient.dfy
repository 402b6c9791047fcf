/**
 The client's side: request promises matched to responses by id, and subscriptions that hold updates
 until the snapshot has been decoded and again until `start()` is called.
 */
module RpcClient {
  import opened Common
  import opened RpcProtocol

  /** The connection as the client sees it; Connection.dfy has its attempts and fencing. */
  datatype Phase = Offline | Connecting | Online

  datatype Reason = Aborted | ByServer | Lost | BadStream | NotSent

  datatype Outcome = Resolved(result: Option<Wire>) | Rejected(why: Reason)

  /** Protocol violations the client can detect. */
  datatype Fault = NoMatchingRequest | UndecodableStream | UnexpectedHandshake | ExpectedGreeting

  /**
   One subscription. `queuedWire` waits for the snapshot, `queued` waits for `start()`, `scheduled` is
   the delivery chain, `seen` is what the listener was called with. `history` is what the decoder has
   decoded; the subscription is hydrated once there is some.
   */
  datatype Listener = Listener(
    request: Option<nat>,
    history: Option<History>,
    queuedWire: seq<Wire>,
    queued: seq<Update>,
    ready: bool,
    scheduled: seq<Update>,
    seen: seq<Update>,
    returned: bool,
    disposed: bool)

  const NEW_LISTENER := Listener(None, None, [], [], false, [], [], false, false)

  /** `registered` is the listener map's key set; `calls` is history: every request ever numbered. */
  datatype ClientState = ClientState(
    phase: Phase,
    requestSequence: nat,
    subscriptionSequence: nat,
    pending: map<nat, Call>,
    settled: map<nat, Outcome>,
    registered: set<nat>,
    listeners: map<nat, Listener>,
    calls: map<nat, Call>,
    faults: set<Fault>)

  const NEW_CLIENT := ClientState(Offline, 0, 0, map[], map[], {}, map[], map[], {})

  datatype Out = Out(state: ClientState, sent: seq<ToServer>)

  datatype ClientAction =
    | Connect
    | Subscribing(encodable: bool)
    | Requesting(call: Call, encodable: bool)
    | Aborting(id: nat)
    | Receive(message: ToClient)
    | SubscribeResumed(sub: nat)
    | Start(sub: nat)
    | Deliver(sub: nat)
    | Dispose(sub: nat)
    | ClearQueues(sub: nat)
    | ConnectionLost

  /** A promise keeps its first outcome. */
  function Settle(c: ClientState, id: nat, o: Outcome): ClientState {
    if id in c.settled then c else c.(settled := c.settled[id := o])
  }

  function RejectAll(c: ClientState, why: Reason): map<nat, Outcome> {
    map id | id in c.pending :: Rejected(why)
  }

  /** The transition to disconnected: every pending promise is rejected and every listener dropped. */
  function Disconnected(c: ClientState, why: Reason): ClientState {
    if c.phase == Offline then c
    else
      c.(phase := Offline,
         pending := map[],
         registered := {},
         settled := RejectAll(c, why) + c.settled)
  }

  function Fail(c: ClientState, f: Fault): ClientState {
    Disconnected(c, BadStream).(faults := c.faults + {f})
  }

  /** `#request`, once connected: the id is taken, the promise registered, the frame sent. */
  function Issue(c: ClientState, call: Call, encodable: bool): Out {
    if c.phase != Online then Out(c, [])
    else
      var id := c.requestSequence + 1;
      var d := c.(requestSequence := id, calls := c.calls[id := call]);
      if !encodable then Out(Settle(d, id, Rejected(NotSent)), [])
      else Out(d.(pending := c.pending[id := call]), [Request(id, call)])
  }

  /** `subscribeService` up to its await. */
  function BeginSubscribe(c: ClientState, encodable: bool): Out {
    var sub := c.subscriptionSequence + 1;
    var l := if c.phase == Online then NEW_LISTENER.(request := Some(c.requestSequence + 1)) else NEW_LISTENER;
    Issue(c.(subscriptionSequence := sub, registered := c.registered + {sub}, listeners := c.listeners[sub := l]),
          Subscribe(sub), encodable)
  }

  /** Decodes wire updates one after another, stopping at the first that does not decode. */
  function DecodeAll(codec: Codec, h: History, ws: seq<Wire>): (r: (History, bool))
    ensures r.0.snapshot == h.snapshot && h.updates <= r.0.updates
    decreases |ws|
  {
    if ws == [] then (h, true)
    else
      match codec.decodeUpdate(h, ws[0])
      case None => (h, false)
      case Some(u) => DecodeAll(codec, Extend(h, u), ws[1..])
  }

  /** The transform a subscribe response goes through: decode the snapshot, then what was queued undecoded. */
  function Hydrate(codec: Codec, l: Listener, result: Option<Wire>): (Listener, bool) {
    if result.None? then (l, false)
    else
      match codec.decodeSnapshot(result.value)
      case None => (l, false)
      case Some(s) =>
        var (h, ok) := DecodeAll(codec, History(s, []), l.queuedWire);
        (l.(history := Some(h), queuedWire := [], queued := l.queued + h.updates), ok)
  }

  function ReceiveResponse(codec: Codec, c: ClientState, id: nat, reply: Reply): ClientState {
    if id !in c.pending then Fail(c, NoMatchingRequest)
    else
      var call := c.pending[id];
      var d := c.(pending := c.pending - {id});
      if reply.Failure? then Settle(d, id, Rejected(ByServer))
      else if call.Subscribe? && call.sub in c.listeners then
        var (l, ok) := Hydrate(codec, c.listeners[call.sub], reply.result);
        var e := d.(listeners := c.listeners[call.sub := l]);
        if ok then Settle(e, id, Resolved(reply.result))
        else Settle(Fail(e, UndecodableStream), id, Rejected(BadStream))
      else Settle(d, id, Resolved(reply.result))
  }

  function ReceiveUpdate(codec: Codec, c: ClientState, sub: nat, w: Wire): ClientState {
    if sub !in c.registered || sub !in c.listeners then c
    else
      var l := c.listeners[sub];
      if l.history.None? then c.(listeners := c.listeners[sub := l.(queuedWire := l.queuedWire + [w])])
      else
        match codec.decodeUpdate(l.history.value, w)
        case None => Fail(c, UndecodableStream)
        case Some(u) =>
          var m := l.(history := Some(Extend(l.history.value, u)));
          c.(listeners := c.listeners[sub := if l.ready then m.(scheduled := l.scheduled + [u])
              else m.(queued := l.queued + [u])])
  }

  function Received(codec: Codec, c: ClientState, m: ToClient): ClientState {
    match c.phase
    case Offline => c
    case Connecting =>
      if m.Greeting? then c.(phase := Online)
      else if m.Refusal? then Disconnected(c, ByServer)
      else Fail(c, ExpectedGreeting)
    case Online =>
      match m
      case Greeting => Fail(c, UnexpectedHandshake)
      case Refusal => Fail(c, UnexpectedHandshake)
      case Attachment => c
      case Response(id, reply) => ReceiveResponse(codec, c, id, reply)
      case ServiceUpdate(sub, w) => ReceiveUpdate(codec, c, sub, w)
  }

  /** `subscribeService` after its await. */
  function Resumed(c: ClientState, sub: nat): ClientState {
    if sub !in c.listeners then c
    else
      var l := c.listeners[sub];
      if l.request.None? || (l.request.value in c.settled && !c.settled[l.request.value].Resolved?) then
        c.(registered := c.registered - {sub})
      else if l.request.value in c.settled && sub in c.registered then
        c.(listeners := c.listeners[sub := l.(returned := true)])
      else c
  }

  function Started(l: Listener): Listener {
    if !l.returned || l.disposed || l.ready then l
    else l.(ready := true, scheduled := l.scheduled + l.queued, queued := [])
  }

  function Delivered(l: Listener): Listener {
    if l.scheduled == [] then l
    else l.(seen := l.seen + [l.scheduled[0]], scheduled := l.scheduled[1..])
  }

  function Disposed(l: Listener): Listener { l.(disposed := true) }

  function Cleared(l: Listener): Listener { l.(queuedWire := [], queued := []) }

  function OnListener(c: ClientState, sub: nat, f: Listener -> Listener): ClientState {
    if sub in c.listeners then c.(listeners := c.listeners[sub := f(c.listeners[sub])]) else c
  }

  function Step(codec: Codec, c: ClientState, a: ClientAction): Out {
    match a
    case Connect => if c.phase == Offline then Out(c.(phase := Connecting), [Hello]) else Out(c, [])
    case Subscribing(encodable) => BeginSubscribe(c, encodable)
    case Requesting(call, encodable) => if call.Subscribe? || call.Malformed? then Out(c, [])
        else Issue(c, call, encodable)
    case Aborting(id) =>
      if id in c.pending && id !in c.settled then
        Out(Settle(c, id, Rejected(Aborted)), if c.phase == Online then [Cancel(id)] else [])
      else Out(c, [])
    case Receive(m) => Out(Received(codec, c, m), [])
    case SubscribeResumed(sub) => Out(Resumed(c, sub), [])
    case Start(sub) => Out(OnListener(c, sub, Started), [])
    case Deliver(sub) => Out(OnListener(c, sub, Delivered), [])
    case Dispose(sub) =>
      if sub in c.listeners && c.listeners[sub].returned then
        Out(OnListener(c, sub, Disposed).(registered := c.registered - {sub}), [])
      else Out(c, [])
    case ClearQueues(sub) =>
      if sub in c.listeners && c.listeners[sub].disposed then
        Out(OnListener(c, sub, Cleared), [])
      else Out(c, [])
    case ConnectionLost => Out(Disconnected(c, Lost), [])
  }

  // ---------------------------------------------------------------- facing an arbitrary server

  /** Nothing decoded is lost or repeated on its way to the listener, and nothing reaches it before both gates. */
  ghost predicate ListenerOk(l: Listener) {
    && (l.history.None? ==> l.queued == [] && l.scheduled == [] && l.seen == [])
    && (l.history.Some? && !l.disposed ==> l.seen + l.scheduled + l.queued == l.history.value.updates)
    && (l.history.Some? ==> l.seen + l.scheduled <= l.history.value.updates)
    && (!l.ready ==> l.seen == [] && l.scheduled == [])
    && (l.ready ==> l.queued == [] && l.returned)
    && (l.returned ==> l.history.Some?)
    && (l.history.Some? ==> l.request.Some?)
    && (l.disposed ==> l.returned)
  }

  ghost predicate CallsOk(c: ClientState) {
    && (forall id :: id in c.pending ==> id in c.calls && c.pending[id] == c.calls[id])
    && (forall id :: id in c.calls ==> 0 < id <= c.requestSequence)
    && (c.phase != Online ==> c.pending == map[])
  }

  /** A promise is settled exactly when its request is no longer pending, or was aborted. */
  ghost predicate SettledOk(c: ClientState) {
    && c.settled.Keys <= c.calls.Keys
    && (forall id :: id in c.calls ==> id in c.pending || id in c.settled)
    && (forall id :: id in c.pending && id in c.settled ==> c.settled[id] == Rejected(Aborted))
  }

  ghost predicate SubscriptionOk(c: ClientState, sub: nat, l: Listener) {
    && sub <= c.subscriptionSequence
    && ListenerOk(l)
    && (l.disposed ==> sub !in c.registered)
    && (l.request.Some? ==>
          var id := l.request.value;
          && id in c.calls && c.calls[id] == Subscribe(sub)
          && (id in c.pending ==> l.history.None?)
          && (id in c.settled && c.settled[id].Resolved? ==> l.history.Some?)
          && (sub in c.registered ==> c.phase == Online))
  }

  ghost predicate ListenersOk(c: ClientState) {
    && c.registered <= c.listeners.Keys
    && (forall sub :: sub in c.listeners ==> SubscriptionOk(c, sub, c.listeners[sub]))
    && (forall id :: id in c.calls && c.calls[id].Subscribe? ==>
          c.calls[id].sub in c.listeners && c.listeners[c.calls[id].sub].request == Some(id))
  }

  ghost predicate ClientOk(c: ClientState) {
    CallsOk(c) && SettledOk(c) && ListenersOk(c)
  }

  lemma DisconnectedOk(c: ClientState, why: Reason)
    requires ClientOk(c)
    ensures ClientOk(Disconnected(c, why))
    requires why != Aborted
  {
    hide ListenerOk;
  }

  lemma IssueOk(c: ClientState, call: Call, encodable: bool)
    requires ClientOk(c) && !call.Subscribe?
    ensures ClientOk(Issue(c, call, encodable).state)
  {
    IssueCalls(c, call, encodable);
    IssueListeners(c, call, encodable);
  }

  lemma IssueCalls(c: ClientState, call: Call, encodable: bool)
    requires ClientOk(c)
    ensures CallsOk(Issue(c, call, encodable).state) && SettledOk(Issue(c, call, encodable).state)
  {
    hide ListenersOk;
  }

  lemma IssueListeners(c: ClientState, call: Call, encodable: bool)
    requires ClientOk(c) && !call.Subscribe?
    ensures ListenersOk(Issue(c, call, encodable).state)
  {
    hide ListenerOk;
  }

  lemma BeginSubscribeOk(c: ClientState, encodable: bool)
    requires ClientOk(c)
    ensures ClientOk(BeginSubscribe(c, encodable).state)
  {
    BeginSubscribeCalls(c, encodable);
    BeginSubscribeListeners(c, encodable);
    hide CallsOk, SettledOk, ListenersOk, BeginSubscribe;
  }

  lemma BeginSubscribeCalls(c: ClientState, encodable: bool)
    requires ClientOk(c)
    ensures CallsOk(BeginSubscribe(c, encodable).state) && SettledOk(BeginSubscribe(c, encodable).state)
  {
    hide ListenersOk;
  }

  lemma BeginSubscribeListeners(c: ClientState, encodable: bool)
    requires ClientOk(c)
    ensures ListenersOk(BeginSubscribe(c, encodable).state)
  {
    hide ListenerOk;
    NewListenerOk(c);
    var d := BeginSubscribe(c, encodable).state;
    forall sub | sub in d.listeners ensures SubscriptionOk(d, sub, d.listeners[sub]) {
      if sub in c.listeners && sub <= c.subscriptionSequence { assert SubscriptionOk(c, sub, c.listeners[sub]); }
    }
  }

  lemma NewListenerOk(c: ClientState)
    ensures ListenerOk(NEW_LISTENER) && ListenerOk(NEW_LISTENER.(request := Some(c.requestSequence + 1)))
  {
  }

  lemma HydrateOk(codec: Codec, l: Listener, result: Option<Wire>)
    requires ListenerOk(l) && l.history.None? && l.request.Some?
    ensures var (m, ok) := Hydrate(codec, l, result);
      && ListenerOk(m) && m.request == l.request && (ok ==> m.history.Some?) && m.disposed == l.disposed
  {
    if result.Some? && codec.decodeSnapshot(result.value).Some? {
      var (h, ok) := DecodeAll(codec, History(codec.decodeSnapshot(result.value).value, []), l.queuedWire);
      assert [] + [] + ([] + h.updates) == h.updates;
    }
  }

  /** Replacing one listener by another that belongs to the same request. */
  lemma WithListenerOk(c: ClientState, sub: nat, l: Listener)
    requires ClientOk(c) && sub in c.listeners && SubscriptionOk(c, sub, l) && l.request == c.listeners[sub].request
    ensures ClientOk(c.(listeners := c.listeners[sub := l]))
  {
    hide ListenerOk;
  }

  /** A request that is answered leaves the table and settles. */
  lemma AnsweredOk(c: ClientState, id: nat, o: Outcome)
    requires ClientOk(c) && id in c.pending && o != Rejected(Aborted)
    requires o.Resolved? && c.pending[id].Subscribe? ==> false
    ensures ClientOk(Settle(c.(pending := c.pending - {id}), id, o))
  {
    hide ListenerOk;
  }

  lemma ReceiveResponseOk(codec: Codec, c: ClientState, id: nat, reply: Reply)
    requires ClientOk(c) && c.phase == Online
    ensures ClientOk(ReceiveResponse(codec, c, id, reply))
  {
    hide ListenerOk, Hydrate, ClientOk;
    if id !in c.pending {
      FailOk(c, NoMatchingRequest);
      return;
    }
    CallKnown(c, id);
    var call := c.pending[id];
    if reply.Failure? {
      AnsweredOk(c, id, Rejected(ByServer));
    } else if call.Subscribe? {
      HydratedOk(codec, c, id, reply.result);
    } else {
      AnsweredOk(c, id, Resolved(reply.result));
    }
  }

  lemma CallKnown(c: ClientState, id: nat)
    requires ClientOk(c) && id in c.pending
    ensures c.pending[id].Subscribe? ==>
      c.pending[id].sub in c.listeners && c.listeners[c.pending[id].sub].request == Some(id)
  {
  }

  lemma FailOk(c: ClientState, f: Fault)
    requires ClientOk(c)
    ensures ClientOk(Fail(c, f))
  {
    hide ClientOk;
    DisconnectedOk(c, BadStream);
    FaultOk(Disconnected(c, BadStream), f);
  }

  lemma FaultOk(c: ClientState, f: Fault)
    requires ClientOk(c)
    ensures ClientOk(c.(faults := c.faults + {f}))
  {
    hide ListenerOk;
  }

  /** Rejecting a request that has left the table, before or after the others. */
  lemma FailThenSettle(c: ClientState, f: Fault, id: nat, o: Outcome)
    requires id !in c.pending
    ensures Settle(Fail(c, f), id, o) == Fail(Settle(c, id, o), f)
  {
    if c.phase != Offline && id !in c.settled {
      Override(RejectAll(c, BadStream), c.settled, id, o);
    }
  }

  lemma Override(a: map<nat, Outcome>, b: map<nat, Outcome>, id: nat, o: Outcome)
    requires id !in a
    ensures (a + b)[id := o] == a + b[id := o]
  {
  }

  lemma HydratedOk(codec: Codec, c: ClientState, id: nat, result: Option<Wire>)
    requires ClientOk(c) && c.phase == Online && id in c.pending && c.pending[id].Subscribe?
    ensures ClientOk(ReceiveResponse(codec, c, id, Success(result)))
  {
    var sub := c.pending[id].sub;
    var l := c.listeners[sub];
    CallKnown(c, id);
    ListenerKnown(c, sub);
    HydrateOk(codec, l, result);
    var (m, ok) := Hydrate(codec, l, result);
    HydratedListenerOk(c, id, m, if ok then Resolved(result) else Rejected(BadStream));
    hide ClientOk, Hydrate, Fail, Settle;
    if !ok {
      var e := c.(pending := c.pending - {id}, listeners := c.listeners[sub := m]);
      FailThenSettle(e, UndecodableStream, id, Rejected(BadStream));
      FailOk(Settle(e, id, Rejected(BadStream)), UndecodableStream);
    }
  }

  lemma HydratedListenerOk(c: ClientState, id: nat, m: Listener, o: Outcome)
    requires ClientOk(c) && c.phase == Online && id in c.pending && c.pending[id].Subscribe?
    requires var sub := c.pending[id].sub;
      && sub in c.listeners && ListenerOk(m)
      && m.request == c.listeners[sub].request == Some(id) && m.disposed == c.listeners[sub].disposed
      && (o.Resolved? ==> m.history.Some?) && o != Rejected(Aborted)
    ensures ClientOk(Settle(c.(pending := c.pending - {id}, listeners := c.listeners[c.pending[id].sub := m]), id, o))
  {
    hide ListenerOk;
  }

  lemma ReceiveUpdateOk(codec: Codec, c: ClientState, sub: nat, w: Wire)
    requires ClientOk(c) && c.phase == Online
    ensures ClientOk(ReceiveUpdate(codec, c, sub, w))
  {
    hide ClientOk;
    if sub in c.registered && sub in c.listeners {
      ListenerKnown(c, sub);
      var l := c.listeners[sub];
      if l.history.None? {
        WithListenerOk(c, sub, l.(queuedWire := l.queuedWire + [w]));
      } else {
        match codec.decodeUpdate(l.history.value, w)
        case None =>
          FailOk(c, UndecodableStream);
        case Some(u) =>
          var m := l.(history := Some(Extend(l.history.value, u)));
          var n := if l.ready then m.(scheduled := l.scheduled + [u]) else m.(queued := l.queued + [u]);
          assert l.seen + (l.scheduled + [u]) + l.queued == (l.seen + l.scheduled + l.queued) + [u] || !l.ready;
          assert l.seen + l.scheduled + (l.queued + [u]) == (l.seen + l.scheduled + l.queued) + [u];
          WithListenerOk(c, sub, n);
      }
    }
  }

  lemma ListenerKnown(c: ClientState, sub: nat)
    requires ClientOk(c) && sub in c.listeners
    ensures SubscriptionOk(c, sub, c.listeners[sub])
  {
  }

  lemma ReceivedOk(codec: Codec, c: ClientState, m: ToClient)
    requires ClientOk(c)
    ensures ClientOk(Received(codec, c, m))
  {
    hide ReceiveResponse, ReceiveUpdate, Disconnected, Fail, ClientOk;
    if c.phase == Connecting && m.Greeting? {
      GreetedOk(c);
    } else if c.phase == Online && m.Response? {
      ReceiveResponseOk(codec, c, m.id, m.reply);
    } else if c.phase == Online && m.ServiceUpdate? {
      ReceiveUpdateOk(codec, c, m.sub, m.wire);
    } else {
      FailOk(c, ExpectedGreeting);
      FailOk(c, UnexpectedHandshake);
      DisconnectedOk(c, ByServer);
    }
  }

  lemma GreetedOk(c: ClientState)
    requires ClientOk(c) && c.phase == Connecting
    ensures ClientOk(c.(phase := Online))
  {
    hide ListenerOk;
  }

  /** What the application does to one subscription. */
  lemma ListenerActionOk(c: ClientState, sub: nat, l: Listener)
    requires ClientOk(c) && sub in c.listeners
    requires l == Started(c.listeners[sub]) || l == Delivered(c.listeners[sub])
             || (l == Cleared(c.listeners[sub]) && c.listeners[sub].disposed)
    ensures ClientOk(c.(listeners := c.listeners[sub := l]))
  {
    hide ClientOk;
    ListenerKnown(c, sub);
    var o := c.listeners[sub];
    if l == Started(o) && o.returned && !o.disposed && !o.ready {
      assert o.seen + (o.scheduled + o.queued) + [] == o.seen + o.scheduled + o.queued;
    } else if l == Delivered(o) && o.scheduled != [] {
      assert (o.seen + [o.scheduled[0]]) + o.scheduled[1..] == o.seen + o.scheduled;
    }
    WithListenerOk(c, sub, l);
  }

  lemma DisposeOk(c: ClientState, sub: nat)
    requires ClientOk(c) && sub in c.listeners && c.listeners[sub].returned
    ensures ClientOk(c.(listeners := c.listeners[sub := Disposed(c.listeners[sub])],
      registered := c.registered - {sub}))
  {
    assert ListenerOk(Disposed(c.listeners[sub]));
    hide ListenerOk;
  }

  lemma ResumedOk(c: ClientState, sub: nat)
    requires ClientOk(c)
    ensures ClientOk(Resumed(c, sub))
  {
    if sub in c.listeners {
      var l := c.listeners[sub];
      assert SubscriptionOk(c, sub, l);
      if l.history.Some? { assert ListenerOk(l.(returned := true)); }
      hide ListenerOk;
    }
  }

  /** The client's own bookkeeping survives any message from any server. */
  lemma ClientStepOk(codec: Codec, c: ClientState, a: ClientAction)
    requires ClientOk(c)
    ensures ClientOk(Step(codec, c, a).state)
  {
    hide ClientOk, Issue, BeginSubscribe, Received, Resumed, Started, Delivered, Disposed, Cleared, Disconnected;
    match a
    case Connect => if c.phase == Offline { ConnectOk(c); }
    case Subscribing(encodable) => BeginSubscribeOk(c, encodable);
    case Requesting(call, encodable) => if !call.Subscribe? { IssueOk(c, call, encodable); }
    case Aborting(id) => if id in c.pending && id !in c.settled { AbortOk(c, id); }
    case Receive(m) => ReceivedOk(codec, c, m);
    case SubscribeResumed(sub) => ResumedOk(c, sub);
    case Start(sub) => if sub in c.listeners { ListenerActionOk(c, sub, Started(c.listeners[sub])); }
    case Deliver(sub) => if sub in c.listeners { ListenerActionOk(c, sub, Delivered(c.listeners[sub])); }
    case Dispose(sub) => if sub in c.listeners && c.listeners[sub].returned { DisposeOk(c, sub); }
    case ClearQueues(sub) =>
      if sub in c.listeners && c.listeners[sub].disposed { ListenerActionOk(c, sub, Cleared(c.listeners[sub])); }
    case ConnectionLost => DisconnectedOk(c, Lost);
  }

  lemma ConnectOk(c: ClientState)
    requires ClientOk(c) && c.phase == Offline
    ensures ClientOk(c.(phase := Connecting))
  {
    hide ListenerOk;
  }

  lemma AbortOk(c: ClientState, id: nat)
    requires ClientOk(c) && id in c.pending && id !in c.settled
    ensures ClientOk(Settle(c, id, Rejected(Aborted)))
  {
    hide ListenerOk;
  }

  /** Request ids are never reused, and a promise never changes its outcome. */
  ghost predicate Remembers(c: ClientState, d: ClientState) {
    && (forall id :: id in c.calls ==> id in d.calls && d.calls[id] == c.calls[id])
    && (forall id :: id in d.calls && id !in c.calls ==> id > c.requestSequence)
    && c.requestSequence <= d.requestSequence
    && (forall id :: id in c.settled ==> id in d.settled && d.settled[id] == c.settled[id])
    && c.faults <= d.faults
  }

  lemma ResponseRemembers(codec: Codec, c: ClientState, id: nat, reply: Reply)
    ensures Remembers(c, ReceiveResponse(codec, c, id, reply))
  {
    hide Hydrate;
  }

  lemma ReceivedRemembers(codec: Codec, c: ClientState, m: ToClient)
    ensures Remembers(c, Received(codec, c, m))
  {
    hide ReceiveResponse, Extend;
    if m.Response? { ResponseRemembers(codec, c, m.id, m.reply); }
  }

  lemma IssueRemembers(c: ClientState, call: Call, encodable: bool)
    requires CallsOk(c)
    ensures Remembers(c, Issue(c, call, encodable).state)
  {
  }

  /** Whatever happens, and however often the client reconnects. */
  lemma NothingIsForgotten(codec: Codec, c: ClientState, a: ClientAction)
    requires ClientOk(c)
    ensures Remembers(c, Step(codec, c, a).state)
  {
    hide ListenersOk, SettledOk, Received, Issue, Started, Delivered, Disposed, Cleared;
    match a
    case Receive(m) => ReceivedRemembers(codec, c, m);
    case Requesting(call, encodable) => IssueRemembers(c, call, encodable);
    case Subscribing(encodable) =>
      var sub := c.subscriptionSequence + 1;
      var l := if c.phase == Online then NEW_LISTENER.(request := Some(c.requestSequence + 1)) else NEW_LISTENER;
      IssueRemembers(c.(subscriptionSequence := sub, registered := c.registered + {sub},
          listeners := c.listeners[sub := l]),
                     Subscribe(sub), encodable);
    case _ =>
  }
}
