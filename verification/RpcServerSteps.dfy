/** The server's steps keep the invariant of the composed system. */
module RpcServerSteps {
  import opened Common
  import opened RpcGate
  import opened RpcProtocol
  import opened RpcSystem
  import C = RpcClient
  import S = RpcServer

  lemma MoreResponses(ms: seq<ToClient>, sent: seq<ToClient>)
    ensures ResponseIds(ms + sent) == ResponseIds(ms) + ResponseIds(sent)
  {
    S.ResponseIdsAppend(ms, sent);
  }

  lemma {:induction false} MorePieces(ms: seq<ToClient>, sent: seq<ToClient>, id: nat, sub: nat)
    ensures Pieces(ms + sent, id, sub) == Pieces(ms, id, sub) + Pieces(sent, id, sub)
  {
    if sent == [] {
      assert ms + sent == ms;
    } else {
      assert (ms + sent)[..|ms + sent| - 1] == ms + sent[..|sent| - 1];
      MorePieces(ms, sent[..|sent| - 1], id, sub);
    }
  }

  /** Handler `k` takes a step, or is new and takes over the request in hand. */
  ghost predicate Answering(sys: System, hand: Option<ToServer>, o: S.Out, k: nat) {
    && var hs := sys.server.handlers; var hs' := o.state.handlers;
    && k <= |hs| && k < |hs'|
    && hs' == (if k < |hs| then hs[k := hs'[k]] else hs + [hs'[k]])
    && S.Answers(if k < |hs| then Some(hs[k]) else None, hs'[k], o.sent, S.CanSend(sys.server))
    && (if k < |hs| then hand == None else hand.Some? && hand.value.Request? && hs'[k].id == hand.value.id)
    && o.state.deferred == sys.server.deferred && o.state.stage == sys.server.stage
    && o.state.closed == sys.server.closed && o.state.disconnected == sys.server.disconnected
  }

  lemma AnswerCounts(sys: System, hand: Option<ToServer>, o: S.Out, k: nat)
    requires Answering(sys, hand, o, k)
    ensures var hs, hs' := sys.server.handlers, o.state.handlers;
      && ResponseIds(sys.toClient + o.sent) == ResponseIds(sys.toClient) + ResponseIds(o.sent)
      && S.Tally(S.Answered, hs) + ResponseIds(o.sent) <= S.Tally(S.Answered, hs')
      && S.Tally(S.All, hs') == S.Tally(S.All, hs) + InHand(hand)
      && S.Tally(S.Open, hs') + ResponseIds(o.sent) <= S.Tally(S.Open, hs) + InHand(hand)
      && (S.CanSend(sys.server) ==> S.Tally(S.Open, hs') + ResponseIds(o.sent) == S.Tally(S.Open, hs) + InHand(hand))
  {
    hide S.Tally, ResponseIds, S.Answers;
    MoreResponses(sys.toClient, o.sent);
    S.AnswersTally(sys.server.handlers, k, o.state.handlers[k], o.sent, S.CanSend(sys.server));
  }

  lemma AnswerUnanswered(sys: System, hand: Option<ToServer>, o: S.Out, k: nat)
    requires Answering(sys, hand, o, k)
    ensures var t := AfterServer(sys, o);
      && Entered(t, None) == Entered(sys, hand)
      && Unanswered(t, None) <= Unanswered(sys, hand)
      && (S.CanSend(sys.server) ==> Unanswered(t, None) == Unanswered(sys, hand))
      && ResponseIds(t.toClient) == ResponseIds(sys.toClient) + ResponseIds(o.sent)
      && S.Tally(S.Answered, sys.server.handlers) + ResponseIds(o.sent) <= S.Tally(S.Answered, t.server.handlers)
  {
    AnswerCounts(sys, hand, o, k);
    hide S.Tally, ResponseIds, RequestIds, S.Answers, InHand;
    var t := AfterServer(sys, o);
    assert InHand(None) == multiset{} by { NothingInHand(); }
    Rearrange(RequestIds(sys.toServer), RequestIds(sys.server.deferred), InHand(hand), ResponseIds(sys.toClient),
              S.Tally(S.Open, sys.server.handlers), S.Tally(S.Open, t.server.handlers), ResponseIds(o.sent));
  }

  lemma NothingInHand()
    ensures InHand(None) == multiset{}
  {
  }

  /** The counts after such a step. */
  lemma AnswerTokens(sys: System, hand: Option<ToServer>, o: S.Out, k: nat)
    requires TokensOk(sys, hand) && Answering(sys, hand, o, k)
    ensures TokensOk(AfterServer(sys, o), None)
  {
    AnswerUnanswered(sys, hand, o, k);
    hide S.Tally, ResponseIds, Entered, Unanswered;
  }

  lemma Rearrange(a: multiset<nat>, b: multiset<nat>, e: multiset<nat>, r: multiset<nat>, d: multiset<nat>,
      d': multiset<nat>, x: multiset<nat>)
    requires d' + x <= d + e
    ensures a + b + multiset{} + d' + (r + x) <= a + b + e + d + r
    ensures d' + x == d + e ==> a + b + multiset{} + d' + (r + x) == a + b + e + d + r
  {
    forall id ensures (a + b + multiset{} + d' + (r + x))[id] <= (a + b + e + d + r)[id] {
      assert (d' + x)[id] <= (d + e)[id];
    }
    if d' + x == d + e {
      forall id ensures (a + b + multiset{} + d' + (r + x))[id] == (a + b + e + d + r)[id] {
        assert (d' + x)[id] == (d + e)[id];
      }
    }
  }

  lemma HandlerTokens(codec: Codec, sys: System, a: S.ServerAction)
    requires Inv(codec, sys) && S.HandlerAction(sys.server, a)
    ensures TokensOk(AfterServer(sys, S.Step(codec, sys.server, a)), None)
  {
    hide TokensOk, CallsAgree, StreamsOk, S.Step, C.ClientOk;
    Parts(codec, sys, None);
    S.HandlerStep(codec, sys.server, a);
    hide S.Answers;
    AnswerTokens(sys, None, S.Step(codec, sys.server, a), a.handler);
  }

  lemma Parts(codec: Codec, sys: System, hand: Option<ToServer>)
    requires CoreOk(codec, sys, hand) && GreetingOk(sys)
    ensures C.ClientOk(sys.client) && C.CallsOk(sys.client) && C.ListenersOk(sys.client) && S.StagesOk(sys.server)
  {
  }

  /** What the other lemmas need to know about a step of handler `k`. */
  ghost predicate HandlerChange(codec: Codec, s: S.ServerState, o: S.Out, k: nat) {
    && S.OneHandler(s, o, k)
    && o.state.handlers[k].id == s.handlers[k].id && o.state.handlers[k].call == s.handlers[k].call
    && MapsOk(s, o.state, s.handlers[k])
    && (forall m :: m in o.sent && m.Response? ==> m.id == s.handlers[k].id)
    && (forall m :: m in o.sent && m.ServiceUpdate? ==> s.handlers[k].call == Subscribe(m.sub))
  }

  lemma HandlerChanges(codec: Codec, sys: System, a: S.ServerAction)
    requires Inv(codec, sys) && S.HandlerAction(sys.server, a)
    ensures HandlerChange(codec, sys.server, S.Step(codec, sys.server, a), a.handler)
    ensures Effect(codec, sys.server, a.handler, S.Step(codec, sys.server, a))
    ensures HandlerOk(sys.server, sys.server.handlers[a.handler])
  {
    hide TokensOk, CallsAgree, S.Step, C.ClientOk, LinkOk, HandlerOk, StreamGrows, MapsOk, PrefixOk, UpdatesKnown;
    S.HandlerStep(codec, sys.server, a);
    HandlerEffect(codec, sys.server, a);
  }

  lemma HandlerCalls(codec: Codec, sys: System, a: S.ServerAction)
    requires Inv(codec, sys) && S.HandlerAction(sys.server, a)
    ensures CallsAgree(AfterServer(sys, S.Step(codec, sys.server, a)), None)
  {
    hide TokensOk, S.Step, LinkOk, Effect, GreetingOk, StreamsOk, C.ClientOk;
    HandlerChanges(codec, sys, a);
    var t := AfterServer(sys, S.Step(codec, sys.server, a));
    assert t.server.published.Keys == sys.server.published.Keys;
  }

  lemma ServerGreeting(codec: Codec, sys: System, hand: Option<ToServer>, s: S.ServerState, a: S.ServerAction)
    requires GreetingOk(sys)
    requires S.StagesOk(s) && s.greeted == sys.server.greeted && S.CanSend(s) == S.CanSend(sys.server)
    ensures GreetingOk(AfterServer(sys, S.Step(codec, s, a)))
  {
    hide S.Step, S.StagesOk, S.AnswersHandlers;
    S.StepAnswers(codec, s, a);
    var o := S.Step(codec, s, a);
    if |sys.toClient| > 0 { assert (sys.toClient + o.sent)[1..] == sys.toClient[1..] + o.sent; }
  }

  // ---------------------------------------------------------------- handler steps: the streams

  /** Messages that carry nothing for this subscription leave its two ends alone. */
  lemma EndsOther(codec: Codec, l: C.Listener, registered: bool, wire: seq<ToClient>, sent: seq<ToClient>, h: S.Handler,
      exact: bool)
    requires h.call.Subscribe? && EndsOk(codec, l, registered, wire, h, exact)
    requires |sent| <= 1
    requires sent != [] ==> PieceOf(sent[0], h.id, h.call.sub) == [] && Carries(codec, sent[0], h)
    ensures EndsOk(codec, l, registered, wire + sent, h, exact)
  {
    hide Carries, Between, Encoded, Pieces;
    if sent == [] {
      assert wire + sent == wire;
    } else {
      PiecesSnoc(wire, sent[0], h.id, h.call.sub);
      assert wire + sent == wire + [sent[0]];
      var id, sub := h.id, h.call.sub;
      assert Pieces(wire, id, sub) + [] == Pieces(wire, id, sub);
    }
  }

  lemma BetweenGrows(ps: seq<Piece>, all: seq<Piece>, from: nat, exact: bool, added: seq<Piece>)
    requires Between(ps, all, from, exact)
    ensures Between(ps + (if exact then added else []), all + added, from, exact)
  {
    assert (all + added)[from..] == all[from..] + added;
    if !exact { assert ps + [] == ps; }
  }

  lemma FollowsThrough(a: Option<History>, b: Option<History>, c: Option<History>)
    requires Follows(a, b) && Follows(b, c)
    ensures Follows(a, c)
  {
  }

  lemma CarriesLater(codec: Codec, m: ToClient, h: S.Handler, g: S.Handler)
    requires Carries(codec, m, h) && g.id == h.id && Follows(h.stream, g.stream)
    ensures Carries(codec, m, g)
  {
  }

  /** What the handler sends for its own subscription goes to the end of both ends. */
  lemma EndsSend(codec: Codec, l: C.Listener, registered: bool, wire: seq<ToClient>, sent: seq<ToClient>, h: S.Handler,
      g: S.Handler, exact: bool)
    requires h.call.Subscribe? && EndsOk(codec, l, registered, wire, h, exact)
    requires g.id == h.id && g.call == h.call && StreamGrows(codec, h, g, sent, exact)
    requires forall m :: m in sent ==> Carries(codec, m, g)
    ensures EndsOk(codec, l, registered, wire + sent, g, exact)
  {
    hide Carries, Between, Encoded, Pieces, Follows;
    var added: seq<Piece> :| Encoded(codec, g.stream) == Encoded(codec, h.stream) + added
                             && Pieces(sent, h.id, h.call.sub) == if exact then added else [];
    MorePieces(wire, sent, h.id, h.call.sub);
    FollowsThrough(l.history, h.stream, g.stream);
    if registered {
      BetweenGrows(Pieces(wire, h.id, h.call.sub), Encoded(codec, h.stream), Carried(l.history), exact, added);
    }
    forall i | 0 <= i < |wire + sent| ensures Carries(codec, (wire + sent)[i], g) {
      if i < |wire| { CarriesLater(codec, wire[i], h, g); } else { assert sent[i - |wire|] in sent; }
    }
  }

  /** The other handlers and their subscriptions. */
  lemma OtherHandler(codec: Codec, sys: System, o: S.Out, k: nat, j: nat)
    requires HandlerChange(codec, sys.server, o, k) && j < |sys.server.handlers| && j != k && |o.sent| <= 1
    requires var h, g := sys.server.handlers[j], sys.server.handlers[k];
      && h.id != g.id && (g.call.Subscribe? && h.call.Subscribe? ==> g.call.sub != h.call.sub)
      && HandlerOk(sys.server, h) && LinkOk(codec, sys, h)
    ensures o.state.handlers[j] == sys.server.handlers[j]
    ensures HandlerOk(o.state, o.state.handlers[j]) && LinkOk(codec, AfterServer(sys, o), o.state.handlers[j])
  {
    hide EndsOk;
    var h := sys.server.handlers[j];
    if h.call.Subscribe? {
      var sub := h.call.sub;
      if o.sent != [] { assert o.sent[0] in o.sent; }
      EndsOther(codec, sys.client.listeners[sub], sub in sys.client.registered, sys.toClient, o.sent, h,
          S.CanSend(sys.server));
    }
  }

  lemma OwnHandler(codec: Codec, sys: System, o: S.Out, k: nat)
    requires HandlerChange(codec, sys.server, o, k) && Effect(codec, sys.server, k, o)
    requires LinkOk(codec, sys, sys.server.handlers[k])
    ensures LinkOk(codec, AfterServer(sys, o), o.state.handlers[k])
  {
    hide EndsOk, MapsOk, HandlerOk, StreamGrows;
    var h, g := sys.server.handlers[k], o.state.handlers[k];
    if h.call.Subscribe? {
      var sub := h.call.sub;
      EndsSend(codec, sys.client.listeners[sub], sub in sys.client.registered, sys.toClient, o.sent, h, g,
          S.CanSend(sys.server));
    }
  }

  lemma HandlerUpdates(codec: Codec, sys: System, o: S.Out, k: nat)
    requires HandlerChange(codec, sys.server, o, k) && UpdatesKnown(sys) && PrefixOk(sys)
    ensures UpdatesKnown(AfterServer(sys, o)) && PrefixOk(AfterServer(sys, o))
  {
    var hs, hs' := sys.server.handlers, o.state.handlers;
    forall i | 0 <= i < |sys.toClient + o.sent| && (sys.toClient + o.sent)[i].ServiceUpdate?
      ensures HasHandler(hs', (sys.toClient + o.sent)[i].sub)
    {
      var m := (sys.toClient + o.sent)[i];
      if i >= |sys.toClient| {
        assert m in o.sent;
        assert hs'[k].call == Subscribe(m.sub);
      } else {
        var j :| 0 <= j < |hs| && hs[j].call == Subscribe(m.sub);
        assert hs'[j].call == Subscribe(m.sub);
      }
    }
  }

  lemma HandlerStreams(codec: Codec, sys: System, a: S.ServerAction)
    requires Inv(codec, sys) && S.HandlerAction(sys.server, a)
    ensures StreamsOk(codec, AfterServer(sys, S.Step(codec, sys.server, a)))
  {
    hide TokensOk, CallsAgree, S.Step, C.ClientOk, LinkOk, HandlerOk, Effect, HandlerChange, PrefixOk, UpdatesKnown,
        GreetingOk;
    var k := a.handler;
    var o := S.Step(codec, sys.server, a);
    HandlerChanges(codec, sys, a);
    OneMessageEach(codec, sys, a);
    HandlerUpdates(codec, sys, o, k);
    OwnHandler(codec, sys, o, k);
    EffectOwn(codec, sys.server, k, o);
    forall j: nat | j < |sys.server.handlers| && j != k
      ensures HandlerOk(o.state, o.state.handlers[j]) && LinkOk(codec, AfterServer(sys, o), o.state.handlers[j])
    {
      Distinct(codec, sys, None, j, k);
      OtherHandler(codec, sys, o, k, j);
    }
  }

  lemma EffectOwn(codec: Codec, s: S.ServerState, k: nat, o: S.Out)
    requires Effect(codec, s, k, o)
    ensures k < |s.handlers| == |o.state.handlers| && HandlerOk(o.state, o.state.handlers[k])
  {
  }

  lemma OneMessageEach(codec: Codec, sys: System, a: S.ServerAction)
    requires GreetingOk(sys) && S.HandlerAction(sys.server, a)
    ensures |S.Step(codec, sys.server, a).sent| <= 1
  {
    hide S.Step;
    S.HandlerStep(codec, sys.server, a);
  }

  lemma HandlerKeeps(codec: Codec, sys: System, a: S.ServerAction)
    requires Inv(codec, sys) && S.HandlerAction(sys.server, a)
    ensures Inv(codec, AfterServer(sys, S.Step(codec, sys.server, a)))
  {
    HandlerTokens(codec, sys, a);
    HandlerCalls(codec, sys, a);
    HandlerStreams(codec, sys, a);
    hide S.Step, TokensOk, CallsAgree, StreamsOk, C.ClientOk, GreetingOk;
    ServerStages(sys);
    ServerGreeting(codec, sys, None, sys.server, a);
  }

  lemma ServerStages(sys: System)
    requires GreetingOk(sys)
    ensures S.StagesOk(sys.server)
  {
  }

  // ---------------------------------------------------------------- steps that touch no handler

  /** Nothing is answered, published or encoded; encoders may go, and sending may become impossible. */
  ghost predicate Quiet(s: S.ServerState, o: S.Out) {
    && var t := o.state;
    && t.handlers == s.handlers && t.deferred == s.deferred && t.published == s.published
    && (forall id :: id in t.activeRequests ==> id in s.activeRequests && t.activeRequests[id] == s.activeRequests[id])
    && (forall x :: x in t.encoders ==> x in s.encoders && t.encoders[x] == s.encoders[x])
    && (S.CanSend(t) ==> S.CanSend(s)) && (Live(t) ==> Live(s))
    && |o.sent| <= 1 && (o.sent != [] ==> !o.sent[0].Response? && !o.sent[0].ServiceUpdate?)
  }

  lemma EndsWeaken(codec: Codec, l: C.Listener, registered: bool, wire: seq<ToClient>, h: S.Handler, exact: bool,
      exact': bool)
    requires h.call.Subscribe? && EndsOk(codec, l, registered, wire, h, exact) && (exact' ==> exact)
    ensures EndsOk(codec, l, registered, wire, h, exact')
  {
  }

  lemma QuietTokens(sys: System, hand: Option<ToServer>, o: S.Out)
    requires TokensOk(sys, hand) && Quiet(sys.server, o)
    ensures TokensOk(AfterServer(sys, o), hand)
  {
    hide S.Tally, ResponseIds, RequestIds, InHand;
    MoreResponses(sys.toClient, o.sent);
    S.OneMessage(o.sent);
    assert Unanswered(AfterServer(sys, o), hand) == Unanswered(sys, hand);
  }

  lemma QuietStreams(codec: Codec, sys: System, o: S.Out)
    requires StreamsOk(codec, sys) && Quiet(sys.server, o)
    ensures StreamsOk(codec, AfterServer(sys, o))
  {
    hide EndsOk;
    var t := AfterServer(sys, o);
    forall k | 0 <= k < |t.server.handlers| ensures LinkOk(codec, t, t.server.handlers[k]) {
      var h := t.server.handlers[k];
      assert LinkOk(codec, sys, h);
      if h.call.Subscribe? {
        var l, registered := sys.client.listeners[h.call.sub], h.call.sub in sys.client.registered;
        EndsOther(codec, l, registered, sys.toClient, o.sent, h, S.CanSend(sys.server));
        EndsWeaken(codec, l, registered, t.toClient, h, S.CanSend(sys.server), S.CanSend(t.server));
      }
    }
  }

  lemma QuietKeeps(codec: Codec, sys: System, hand: Option<ToServer>, o: S.Out)
    requires CoreOk(codec, sys, hand) && Quiet(sys.server, o)
    ensures CoreOk(codec, AfterServer(sys, o), hand)
  {
    hide TokensOk, StreamsOk, C.ClientOk;
    QuietTokens(sys, hand, o);
    QuietStreams(codec, sys, o);
  }

  // ---------------------------------------------------------------- a message on its way to dispatch

  lemma {:induction false} RequestIdFrom(ms: seq<ToServer>, id: nat) returns (k: nat)
    requires id in RequestIds(ms)
    ensures k < |ms| && ms[k].Request? && ms[k].id == id
  {
    var last := |ms| - 1;
    if ms[last].Request? && ms[last].id == id { k := last; } else { k := RequestIdFrom(ms[..last], id); }
  }

  lemma PoppedTokens(sys: System, popped: System, m: ToServer)
    requires TokensOk(sys, None) && popped.client == sys.client && popped.toClient == sys.toClient
    requires popped.server == sys.server.(deferred := popped.server.deferred)
    requires RequestIds(sys.toServer) + RequestIds(sys.server.deferred) ==
             RequestIds(popped.toServer) + RequestIds(popped.server.deferred) + OneRequest(m)
    ensures TokensOk(popped, Some(m))
  {
    hide S.Tally, ResponseIds, RequestIds, OneRequest;
    assert Entered(popped, Some(m)) == Entered(sys, None);
    assert Unanswered(popped, Some(m)) == Unanswered(sys, None);
  }

  /** Moving the queues about does not touch the streams. */
  lemma SameStreams(codec: Codec, sys: System, t: System)
    requires StreamsOk(codec, sys) && t.client == sys.client && t.toClient == sys.toClient
    requires t.server == sys.server.(deferred := t.server.deferred)
    ensures StreamsOk(codec, t)
  {
    hide EndsOk;
    forall k | 0 <= k < |t.server.handlers| ensures LinkOk(codec, t, t.server.handlers[k]) &&
      HandlerOk(t.server, t.server.handlers[k]) {
      assert LinkOk(codec, sys, sys.server.handlers[k]) && HandlerOk(sys.server, sys.server.handlers[k]);
    }
  }

  /** Neither does it touch what the messages are known to be. */
  lemma SameCalls(sys: System, hand: Option<ToServer>, t: System, hand': Option<ToServer>)
    requires CallsAgree(sys, hand) && t.client == sys.client && t.server == sys.server.(deferred := t.server.deferred)
    requires AllKnown(t.toServer, t.client.calls, t.server.published) &&
      AllKnown(t.server.deferred, t.client.calls, t.server.published)
    requires hand'.Some? ==> Known(hand'.value, t.client.calls, t.server.published)
    ensures CallsAgree(t, hand')
  {
    hide AllKnown, Known;
  }

  lemma QueuesKnown(sys: System, hand: Option<ToServer>)
    requires CallsAgree(sys, hand)
    ensures AllKnown(sys.toServer, sys.client.calls, sys.server.published)
    ensures AllKnown(sys.server.deferred, sys.client.calls, sys.server.published)
    ensures hand.Some? ==> Known(hand.value, sys.client.calls, sys.server.published)
  {
  }

  lemma TakeFromWire(codec: Codec, sys: System)
    requires CoreOk(codec, sys, None) && sys.toServer != []
    ensures CoreOk(codec, sys.(toServer := sys.toServer[1..]), Some(sys.toServer[0]))
  {
    hide TokensOk, CallsAgree, StreamsOk, C.ClientOk, RequestIds, Known, OneRequest;
    RequestIdsHead(sys.toServer);
    var t := sys.(toServer := sys.toServer[1..]);
    PoppedTokens(sys, t, sys.toServer[0]);
    SameStreams(codec, sys, t);
    QueuesKnown(sys, None);
    SameCalls(sys, None, t, Some(sys.toServer[0]));
  }

  lemma TakeDeferred(codec: Codec, sys: System)
    requires CoreOk(codec, sys, None) && sys.server.deferred != []
    ensures CoreOk(codec, sys.(server := sys.server.(deferred := sys.server.deferred[1..])),
      Some(sys.server.deferred[0]))
  {
    hide TokensOk, CallsAgree, StreamsOk, C.ClientOk, RequestIds, Known, OneRequest;
    RequestIdsHead(sys.server.deferred);
    var t := sys.(server := sys.server.(deferred := sys.server.deferred[1..]));
    PoppedTokens(sys, t, sys.server.deferred[0]);
    SameStreams(codec, sys, t);
    QueuesKnown(sys, None);
    SameCalls(sys, None, t, Some(sys.server.deferred[0]));
  }

  /** A message is forgotten once the server cannot serve it any more, or when it is no request. */
  lemma DropHand(codec: Codec, sys: System, m: ToServer)
    requires CoreOk(codec, sys, Some(m)) && (!m.Request? || !Live(sys.server))
    ensures CoreOk(codec, sys, None)
  {
    hide S.Tally, ResponseIds, RequestIds, StreamsOk, C.ClientOk;
    assert Entered(sys, None) <= Entered(sys, Some(m));
    assert Unanswered(sys, None) <= Unanswered(sys, Some(m));
    assert !m.Request? ==> Unanswered(sys, None) == Unanswered(sys, Some(m));
    forall id ensures Entered(sys, None)[id] <= 1 { assert Entered(sys, Some(m))[id] <= 1; }
  }

  lemma DeferredTokens(sys: System, m: ToServer)
    requires TokensOk(sys, Some(m))
    ensures TokensOk(sys.(server := sys.server.(deferred := sys.server.deferred + [m])), None)
  {
    hide S.Tally, ResponseIds, OneRequest, RequestIds;
    var t := sys.(server := sys.server.(deferred := sys.server.deferred + [m]));
    RequestIdsSnoc(sys.server.deferred, m);
    assert Entered(t, None) == Entered(sys, Some(m));
    assert Unanswered(t, None) == Unanswered(sys, Some(m));
  }

  lemma DeferHand(codec: Codec, sys: System, m: ToServer)
    requires CoreOk(codec, sys, Some(m))
    ensures CoreOk(codec, sys.(server := sys.server.(deferred := sys.server.deferred + [m])), None)
  {
    hide TokensOk, CallsAgree, StreamsOk, C.ClientOk, Known;
    var t := sys.(server := sys.server.(deferred := sys.server.deferred + [m]));
    DeferredTokens(sys, m);
    SameStreams(codec, sys, t);
    QueuesKnown(sys, Some(m));
    SameCalls(sys, Some(m), t, None);
  }

  // ---------------------------------------------------------------- a request begins

  /** The request in hand has left no other trace on this connection. */
  ghost predicate Fresh(sys: System, id: nat, call: Call) {
    && id !in sys.server.activeRequests
    && (forall k :: 0 <= k < |sys.server.handlers| ==> sys.server.handlers[k].id != id)
    && (forall i :: 0 <= i < |sys.toClient| && sys.toClient[i].Response? ==> sys.toClient[i].id != id)
    && (call.Subscribe? ==>
          && call.sub !in sys.server.published && call.sub !in sys.server.encoders
          && call.sub in sys.client.listeners && sys.client.listeners[call.sub].request == Some(id)
          && sys.client.listeners[call.sub].history == None
          && (forall k :: 0 <= k < |sys.server.handlers| ==> sys.server.handlers[k].call != call)
          && (forall i :: 0 <= i < |sys.toClient| && sys.toClient[i].ServiceUpdate? ==>
              sys.toClient[i].sub != call.sub))
  }

  lemma FreshId(sys: System, hand: Option<ToServer>, id: nat)
    requires TokensOk(sys, hand) && id in InHand(hand)
    ensures id !in S.Tally(S.All, sys.server.handlers)
    ensures forall k :: 0 <= k < |sys.server.handlers| ==> sys.server.handlers[k].id != id
    ensures forall i :: 0 <= i < |sys.toClient| && sys.toClient[i].Response? ==> sys.toClient[i].id != id
  {
    hide S.Tally, ResponseIds, RequestIds, InHand;
    assert Entered(sys, hand)[id] <= 1;
    var hs := sys.server.handlers;
    forall k: nat | k < |hs| ensures hs[k].id != id {
      if hs[k].id == id { S.TallyIn(S.All, hs, k); }
    }
    forall i: nat | i < |sys.toClient| && sys.toClient[i].Response? ensures sys.toClient[i].id != id {
      if sys.toClient[i].id == id {
        ResponseIdIn(sys.toClient, i);
        var k := S.TallyFrom(S.Answered, hs, id);
        S.TallyIn(S.All, hs, k);
      }
    }
  }

  lemma FreshRequest(codec: Codec, sys: System, id: nat, call: Call)
    requires CoreOk(codec, sys, Some(Request(id, call)))
    ensures Fresh(sys, id, call)
  {
    hide TokensOk, EndsOk, HandlerOk;
    FreshId(sys, Some(Request(id, call)), id);
    assert Known(Request(id, call), sys.client.calls, sys.server.published);
    if call.Subscribe? {
      assert C.ListenersOk(sys.client);
      assert PrefixOk(sys);
      forall k | 0 <= k < |sys.server.handlers| ensures sys.server.handlers[k].call != call {
        assert sys.client.calls[sys.server.handlers[k].id] == sys.server.handlers[k].call;
      }
      forall i | 0 <= i < |sys.toClient| && sys.toClient[i].ServiceUpdate? ensures sys.toClient[i].sub != call.sub {
        assert HasHandler(sys.server.handlers, sys.toClient[i].sub);
      }
    }
  }

  lemma {:induction false} NothingYet(ms: seq<ToClient>, id: nat, sub: nat)
    requires forall i :: 0 <= i < |ms| && ms[i].Response? ==> ms[i].id != id
    requires forall i :: 0 <= i < |ms| && ms[i].ServiceUpdate? ==> ms[i].sub != sub
    ensures Pieces(ms, id, sub) == []
  {
    if ms != [] { NothingYet(ms[..|ms| - 1], id, sub); }
  }

  /** The new handler: nothing published, nothing encoded, nothing on the wire but perhaps a refusal. */
  lemma NewHandler(codec: Codec, sys: System, id: nat, call: Call)
    requires Fresh(sys, id, call)
    ensures var o := S.BeginRequest(sys.server, id, call); var g := o.state.handlers[|sys.server.handlers|];
      HandlerOk(o.state, g) && LinkOk(codec, AfterServer(sys, o), g)
  {
    hide Encoded;
    var o := S.BeginRequest(sys.server, id, call);
    var g := o.state.handlers[|sys.server.handlers|];
    if call.Subscribe? {
      var wire := sys.toClient + o.sent;
      NothingAtFirst(codec);
      NoPiecesSent(sys.toClient, o.sent, id, call.sub);
      forall i | 0 <= i < |wire| ensures Carries(codec, wire[i], g) { }
    }
  }

  lemma NothingAtFirst(codec: Codec)
    ensures Encoded(codec, None) == []
  {
  }

  lemma NoPiecesSent(wire: seq<ToClient>, sent: seq<ToClient>, id: nat, sub: nat)
    requires forall i :: 0 <= i < |wire| && wire[i].Response? ==> wire[i].id != id
    requires forall i :: 0 <= i < |wire| && wire[i].ServiceUpdate? ==> wire[i].sub != sub
    requires sent == [] || sent == [Response(id, Failure)]
    ensures Pieces(wire + sent, id, sub) == []
  {
    NothingYet(wire, id, sub);
    if sent == [] { assert wire + sent == wire; } else { PiecesSnoc(wire, sent[0], id, sub); }
  }

  lemma OldHandler(codec: Codec, sys: System, id: nat, call: Call, k: nat)
    requires Fresh(sys, id, call) && k < |sys.server.handlers|
    requires HandlerOk(sys.server, sys.server.handlers[k]) && LinkOk(codec, sys, sys.server.handlers[k])
    ensures var o := S.BeginRequest(sys.server, id, call); var h := o.state.handlers[k];
      h == sys.server.handlers[k] && HandlerOk(o.state, h) && LinkOk(codec, AfterServer(sys, o), h)
  {
    hide EndsOk;
    var o := S.BeginRequest(sys.server, id, call);
    var h := sys.server.handlers[k];
    if h.call.Subscribe? {
      var sub := h.call.sub;
      EndsOther(codec, sys.client.listeners[sub], sub in sys.client.registered, sys.toClient, o.sent, h,
          S.CanSend(sys.server));
    }
  }

  lemma BeginUpdates(sys: System, id: nat, call: Call)
    requires UpdatesKnown(sys) && PrefixOk(sys)
    ensures var t := AfterServer(sys, S.BeginRequest(sys.server, id, call)); UpdatesKnown(t) && PrefixOk(t)
  {
    var o := S.BeginRequest(sys.server, id, call);
    var t := AfterServer(sys, o);
    forall i | 0 <= i < |t.toClient| && t.toClient[i].ServiceUpdate?
      ensures HasHandler(t.server.handlers, t.toClient[i].sub) {
      var sub := sys.toClient[i].sub;
      var k :| 0 <= k < |sys.server.handlers| && sys.server.handlers[k].call == Subscribe(sub);
      assert t.server.handlers[k].call == Subscribe(sub);
    }
  }

  lemma BeginStreams(codec: Codec, sys: System, id: nat, call: Call)
    requires StreamsOk(codec, sys) && Fresh(sys, id, call)
    ensures StreamsOk(codec, AfterServer(sys, S.BeginRequest(sys.server, id, call)))
  {
    hide S.BeginRequest, Fresh, LinkOk, HandlerOk, UpdatesKnown, PrefixOk;
    BeginUpdates(sys, id, call);
    NewHandler(codec, sys, id, call);
    S.BeginStep(sys.server, id, call);
    forall k: nat | k < |sys.server.handlers|
      ensures var o := S.BeginRequest(sys.server, id, call);
        k < |o.state.handlers| && HandlerOk(o.state, o.state.handlers[k]) &&
            LinkOk(codec, AfterServer(sys, o), o.state.handlers[k])
    {
      OldHandler(codec, sys, id, call, k);
    }
  }

  lemma BeginCalls(sys: System, id: nat, call: Call)
    requires CallsAgree(sys, Some(Request(id, call))) && Fresh(sys, id, call) && TokensOk(sys, Some(Request(id, call)))
    requires C.ListenersOk(sys.client)
    ensures CallsAgree(AfterServer(sys, S.BeginRequest(sys.server, id, call)), None)
  {
    hide TokensOk;
    var t := AfterServer(sys, S.BeginRequest(sys.server, id, call));
    OthersKnown(sys, Some(Request(id, call)), sys.toServer, id, call);
    OthersKnown(sys, Some(Request(id, call)), sys.server.deferred, id, call);
    hide C.ListenersOk;
  }

  /** Requests still queued open other subscriptions. */
  lemma OthersKnown(sys: System, hand: Option<ToServer>, queue: seq<ToServer>, id: nat, call: Call)
    requires TokensOk(sys, hand) && id in InHand(hand)
    requires C.ListenersOk(sys.client) && id in sys.client.calls && sys.client.calls[id] == call
    requires queue == sys.toServer || queue == sys.server.deferred
    requires AllKnown(queue, sys.client.calls, sys.server.published)
    ensures call.Subscribe? ==> AllKnown(queue, sys.client.calls, sys.server.published[call.sub := []])
  {
    hide S.Tally, ResponseIds, RequestIds, InHand, Unanswered, C.ListenerOk;
    assert Entered(sys, hand)[id] <= 1;
    forall i: nat | call.Subscribe? && i < |queue|
      ensures Known(queue[i], sys.client.calls, sys.server.published[call.sub := []]) {
      assert Known(queue[i], sys.client.calls, sys.server.published);
      if queue[i].Request? { RequestIdIn(queue, i); }
    }
  }

  lemma BeginKeeps(codec: Codec, sys: System, id: nat, call: Call)
    requires CoreOk(codec, sys, Some(Request(id, call)))
    ensures CoreOk(codec, AfterServer(sys, S.BeginRequest(sys.server, id, call)), None)
  {
    hide S.BeginRequest, TokensOk, CallsAgree, StreamsOk, C.ListenersOk, Fresh;
    var o := S.BeginRequest(sys.server, id, call);
    FreshRequest(codec, sys, id, call);
    BeginCalls(sys, id, call);
    BeginStreams(codec, sys, id, call);
    S.BeginStep(sys.server, id, call);
    hide S.Answers;
    AnswerTokens(sys, Some(Request(id, call)), o, |sys.server.handlers|);
  }

  // ---------------------------------------------------------------- every server step

  lemma DispatchKeeps(codec: Codec, sys: System, m: ToServer)
    requires CoreOk(codec, sys, Some(m)) && !S.Terminal(sys.server)
    ensures CoreOk(codec, AfterServer(sys, S.Dispatch(sys.server, m)), None)
  {
    hide CoreOk, S.BeginRequest;
    var s := sys.server;
    var o := S.Dispatch(s, m);
    if s.stage == S.Ready && m.Request? {
      BeginKeeps(codec, sys, m.id, m.call);
    } else if s.stage == S.Handshaking && !m.Hello? {
      DeferHand(codec, sys, m);
      NothingSent(sys, o);
    } else {
      QuietKeeps(codec, sys, Some(m), o);
      DropHand(codec, AfterServer(sys, o), m);
    }
  }

  lemma NothingSent(sys: System, o: S.Out)
    requires o.sent == []
    ensures AfterServer(sys, o) == sys.(server := o.state)
  {
  }

  lemma ReceiveKeeps(codec: Codec, sys: System)
    requires Inv(codec, sys)
    ensures Inv(codec, Step(codec, sys, ServerReceives))
  {
    hide CoreOk, GreetingOk, S.Dispatch, S.StagesOk;
    if sys.toServer != [] {
      var m := sys.toServer[0];
      var t := sys.(toServer := sys.toServer[1..]);
      TakeFromWire(codec, sys);
      if S.Terminal(sys.server) {
        NothingSent(t, S.Out(sys.server, []));
        DropHand(codec, t, m);
      } else {
        DispatchKeeps(codec, t, m);
      }
      WireOnly(sys, t);
      ServerStages(sys);
      ServerGreeting(codec, t, Some(m), sys.server, S.Receive(m));
    }
  }

  lemma WireOnly(sys: System, t: System)
    requires GreetingOk(sys) && t == sys.(toServer := t.toServer)
    ensures GreetingOk(t)
  {
    hide S.StagesOk;
  }

  lemma RunDeferredKeeps(codec: Codec, sys: System)
    requires CoreOk(codec, sys, None) && S.StagesOk(sys.server)
    ensures CoreOk(codec, AfterServer(sys, S.Step(codec, sys.server, S.RunDeferred)), None)
  {
    hide CoreOk, S.Dispatch;
    var s := sys.server;
    if s.deferred != [] && s.stage != S.Handshaking {
      var m := s.deferred[0];
      var t := sys.(server := s.(deferred := s.deferred[1..]));
      TakeDeferred(codec, sys);
      if s.stage == S.Ready && !s.disconnected {
        DispatchKeeps(codec, t, m);
      } else {
        NothingSent(t, S.Out(t.server, []));
        DropHand(codec, t, m);
      }
    } else {
      NothingSent(sys, S.Out(s, []));
    }
  }

  lemma QuietStep(codec: Codec, s: S.ServerState, a: S.ServerAction)
    requires !S.HandlerAction(s, a) && !a.Receive? && !a.RunDeferred?
    ensures Quiet(s, S.Step(codec, s, a))
  {
  }

  /** Every step the server takes on its own. */
  lemma ServerKeeps(codec: Codec, sys: System, a: S.ServerAction)
    requires Inv(codec, sys) && !a.Receive?
    ensures Inv(codec, Step(codec, sys, ByServer(a)))
  {
    hide CoreOk, GreetingOk, S.Step, S.StagesOk;
    ServerStages(sys);
    if S.HandlerAction(sys.server, a) {
      HandlerKeeps(codec, sys, a);
    } else if a.RunDeferred? {
      RunDeferredKeeps(codec, sys);
      ServerGreeting(codec, sys, None, sys.server, a);
    } else {
      QuietStep(codec, sys.server, a);
      QuietKeeps(codec, sys, None, S.Step(codec, sys.server, a));
      ServerGreeting(codec, sys, None, sys.server, a);
    }
  }
}
