/**
 The server's side of one connection: handshake stages, request handlers that answer once, and the
 gate that holds a subscription's updates back until its snapshot response has been sent.
 A step runs to the next await.
 */
module RpcServer {
  import opened Common
  import opened RpcProtocol

  datatype Stage = AwaitingHello | Handshaking | Ready | Closing | Closed

  /**
   Where a handler is suspended: in the service call, in sending the response, in sending a held-back update, or done.
   */
  datatype Phase = Invoking | Replying | Draining | Finished

  /**
   One request envelope being handled. `held` is the handler's list of updates published before the
   gate opened. `result`, `stream` and `lost` are history: what the service call came to, what its encoder was given,
   and what was published after the encoder was gone.
   */
  datatype Handler = Handler(
    id: nat,
    call: Call,
    phase: Phase,
    answer: Option<Reply>,
    result: Option<Invoked>,
    gateOpen: bool,
    held: seq<Update>,
    stream: Option<History>,
    lost: seq<Update>)

  /** `closed` is the transport's own flag; `published` is history, by subscription. */
  datatype ServerState = ServerState(
    stage: Stage,
    greeted: bool,
    closed: bool,
    disconnected: bool,
    deferred: seq<ToServer>,
    activeRequests: map<nat, nat>,
    cancelled: set<nat>,
    handlers: seq<Handler>,
    encoders: map<nat, History>,
    published: map<nat, seq<Update>>)

  /** A step's new state and the messages it sends. */
  datatype Out = Out(state: ServerState, sent: seq<ToClient>)

  datatype Invoked = Threw | NoResult | SnapshotResult(snapshot: Snapshot) | ValueResult(value: Wire)

  datatype ServerAction =
    | Receive(message: ToServer)
    | ClientAttached
    | GreetingSent
    | RunDeferred
    | InvokeSettled(handler: nat, result: Invoked)
    | SendSettled(handler: nat)
    | Publish(handler: nat, update: Update)
    | PublishAttachment
    | FailProtocol
    | TransportGone
    | Disconnect

  function NewConnection(published: map<nat, seq<Update>>): ServerState {
    ServerState(AwaitingHello, false, false, false, [], map[], {}, [], map[], published)
  }

  predicate Terminal(s: ServerState) { s.disconnected || s.stage == Closing || s.stage == Closed }

  predicate CanSend(s: ServerState) { !s.closed && !s.disconnected }

  function Send(s: ServerState, m: ToClient): Out {
    Out(s, if CanSend(s) then [m] else [])
  }

  function WithHandler(s: ServerState, k: nat, h: Handler): ServerState
    requires k < |s.handlers|
  {
    s.(handlers := s.handlers[k := h])
  }

  /** Refuses the connection: the last frame names the error, and the transport is closed behind it. */
  function Refuse(s: ServerState): Out {
    if Terminal(s) then Out(s, [])
    else
      var o := Send(s, Refusal);
      Out(o.state.(stage := Closing, closed := true), o.sent)
  }

  function Disconnected(s: ServerState): ServerState {
    if s.disconnected then s
    else s.(disconnected := true, stage := Closed, activeRequests := map[], encoders := map[])
  }

  function Cancelled(s: ServerState, id: nat): ServerState {
    if id in s.activeRequests then s.(cancelled := s.cancelled + {s.activeRequests[id]}) else s
  }

  /** The start of `handleRequest`, up to its first await. */
  function BeginRequest(s: ServerState, id: nat, call: Call): Out {
    var k := |s.handlers|;
    if id in s.activeRequests || call.Malformed? then
      Send(s.(handlers := s.handlers + [Handler(id, call, Finished, Some(Failure), None, false, [], None, [])]),
          Response(id, Failure))
    else
      var t := s.(activeRequests := s.activeRequests[id := k],
                  published := if call.Subscribe? && call.sub !in s.published then s.published[call.sub := []]
                      else s.published);
      if call.Subscribe? && call.sub in s.encoders then
        Send(t.(handlers := s.handlers + [Handler(id, call, Replying, Some(Failure), None, false, [], None, [])]),
            Response(id, Failure))
      else
        Out(t.(handlers := s.handlers + [Handler(id, call, Invoking, None, None, !call.Subscribe?, [], None, [])]), [])
  }

  function Dispatch(s: ServerState, m: ToServer): Out {
    if s.stage == AwaitingHello then
      if m.Hello? then Out(s.(stage := Handshaking), []) else Refuse(s)
    else if m.Hello? then Refuse(s)
    else if s.stage == Ready then
      match m
      case Cancel(id) => Out(Cancelled(s, id), [])
      case Request(id, call) => BeginRequest(s, id, call)
    else if s.stage == Handshaking then Out(s.(deferred := s.deferred + [m]), [])
    else Out(s, [])
  }

  function Answer(s: ServerState, k: nat, r: Invoked, reply: Reply): Out
    requires k < |s.handlers|
  {
    var h := s.handlers[k];
    Send(WithHandler(s, k, h.(phase := Replying, answer := Some(reply), result := Some(r))), Response(h.id, reply))
  }

  /** `handleRequest` after the service call has settled. */
  function AfterInvoke(codec: Codec, s: ServerState, k: nat, r: Invoked): Out
    requires k < |s.handlers|
  {
    var h := s.handlers[k];
    match h.call
    case Subscribe(sub) =>
      if r.SnapshotResult? then
        var stream := History(r.snapshot, []);
        Answer(WithHandler(s, k, h.(stream := Some(stream))).(encoders := s.encoders[sub := stream]), k, r,
               Success(Some(codec.encodeSnapshot(r.snapshot))))
      else Answer(s, k, r, Failure)
    case Unsubscribe(sub) =>
      if r.Threw? then Answer(s, k, r, Failure)
      else Answer(s.(encoders := s.encoders - {sub}), k, r, Success(if r.ValueResult? then Some(r.value) else None))
    case _ =>
      if r.Threw? then Answer(s, k, r, Failure)
      else Answer(s, k, r, Success(if r.ValueResult? then Some(r.value) else None))
  }

  /** `sendServiceUpdate` on behalf of handler `k`. */
  function SendUpdate(codec: Codec, s: ServerState, k: nat, sub: nat, u: Update): Out
    requires k < |s.handlers|
  {
    var h := s.handlers[k];
    if sub !in s.encoders then Out(WithHandler(s, k, h.(lost := h.lost + [u])), [])
    else
      var e := s.encoders[sub];
      Send(WithHandler(s, k, h.(stream := Some(Extend(e, u)))).(encoders := s.encoders[sub := Extend(e, u)]),
           ServiceUpdate(sub, codec.encodeUpdate(e, u)))
  }

  function Finish(s: ServerState, k: nat): ServerState
    requires k < |s.handlers|
  {
    var h := s.handlers[k];
    var t := WithHandler(s, k, h.(phase := Finished));
    if h.id in s.activeRequests && s.activeRequests[h.id] == k then t.(activeRequests := s.activeRequests - {h.id})
        else t
  }

  /** `handleRequest` after one of its sends has settled: the drain loop of a subscription, or the end. */
  function AfterSend(codec: Codec, s: ServerState, k: nat): Out
    requires k < |s.handlers|
  {
    var h := s.handlers[k];
    if !h.call.Subscribe? || h.answer == Some(Failure) then Out(Finish(s, k), [])
    else if h.held == [] then Out(Finish(WithHandler(s, k, h.(gateOpen := true)), k), [])
    else
      SendUpdate(codec, WithHandler(s, k, h.(phase := Draining, held := h.held[1..])), k, h.call.sub, h.held[0])
  }

  /** An update published through the handler's `publish` closure. */
  function Publishing(codec: Codec, s: ServerState, k: nat, u: Update): Out
    requires k < |s.handlers| && s.handlers[k].call.Subscribe?
  {
    var h := s.handlers[k];
    var sub := h.call.sub;
    var t := s.(published := s.published[sub := (if sub in s.published then s.published[sub] else []) + [u]]);
    if !h.gateOpen then Out(WithHandler(t, k, h.(held := h.held + [u])), [])
    else SendUpdate(codec, t, k, sub, u)
  }

  function Step(codec: Codec, s: ServerState, a: ServerAction): Out {
    match a
    case Receive(m) => if Terminal(s) then Out(s, []) else Dispatch(s, m)
    case ClientAttached =>
      if s.stage == Handshaking && !s.greeted && !s.disconnected && !s.closed then Send(s.(greeted := true), Greeting)
          else Out(s, [])
    case GreetingSent =>
      Out(if s.greeted && s.stage == Handshaking && !s.disconnected then s.(stage := Ready) else s, [])
    case RunDeferred =>
      if s.deferred == [] || s.stage == Handshaking then Out(s, [])
      else
        var t := s.(deferred := s.deferred[1..]);
        if s.stage == Ready && !s.disconnected then Dispatch(t, s.deferred[0]) else Out(t, [])
    case InvokeSettled(k, r) =>
      if k < |s.handlers| && s.handlers[k].phase == Invoking then AfterInvoke(codec, s, k, r) else Out(s, [])
    case SendSettled(k) =>
      if k < |s.handlers| && (s.handlers[k].phase == Replying || s.handlers[k].phase == Draining) then
          AfterSend(codec, s, k) else Out(s, [])
    case Publish(k, u) =>
      if k < |s.handlers| && s.handlers[k].call.Subscribe? then Publishing(codec, s, k, u) else Out(s, [])
    case PublishAttachment =>
      if s.stage == Ready then Send(s, Attachment) else Out(s, [])
    case FailProtocol => Refuse(s)
    case TransportGone => Out(s.(closed := true), [])
    case Disconnect => Out(Disconnected(s), [])
  }

  function Run(codec: Codec, s: ServerState, actions: seq<ServerAction>): Out
    decreases |actions|
  {
    if actions == [] then Out(s, [])
    else
      var one := Step(codec, s, actions[0]);
      var rest := Run(codec, one.state, actions[1..]);
      Out(rest.state, one.sent + rest.sent)
  }

  // ---------------------------------------------------------------- counting handlers

  datatype Kind = All | Open | Answered

  predicate Counts(kind: Kind, h: Handler) {
    match kind
    case All => true
    case Open => h.answer.None?
    case Answered => h.answer.Some?
  }

  function One(kind: Kind, h: Handler): multiset<nat> {
    if Counts(kind, h) then multiset{h.id} else multiset{}
  }

  /** The ids of the handlers of one kind, each as often as there are such handlers. */
  function Tally(kind: Kind, hs: seq<Handler>): multiset<nat> {
    if hs == [] then multiset{} else Tally(kind, hs[..|hs| - 1]) + One(kind, hs[|hs| - 1])
  }

  lemma TallySnoc(kind: Kind, hs: seq<Handler>, h: Handler)
    ensures Tally(kind, hs + [h]) == Tally(kind, hs) + One(kind, h)
  {
    assert (hs + [h])[..|hs|] == hs;
  }

  /** Replacing one handler: the others' share stays. */
  lemma {:induction false} TallyUpdate(kind: Kind, hs: seq<Handler>, k: nat, h: Handler) returns (rest: multiset<nat>)
    requires k < |hs|
    ensures Tally(kind, hs) == rest + One(kind, hs[k])
    ensures Tally(kind, hs[k := h]) == rest + One(kind, h)
  {
    hide One;
    var last := |hs| - 1;
    var hs' := hs[k := h];
    if k == last {
      assert hs'[..last] == hs[..last];
      rest := Tally(kind, hs[..last]);
    } else {
      rest := TallyUpdate(kind, hs[..last], k, h);
      assert hs'[..last] == hs[..last][k := h];
      assert hs'[last] == hs[last];
      rest := rest + One(kind, hs[last]);
    }
  }

  lemma {:induction false} TallyIn(kind: Kind, hs: seq<Handler>, k: nat)
    requires k < |hs| && Counts(kind, hs[k])
    ensures hs[k].id in Tally(kind, hs)
  {
    if k < |hs| - 1 { TallyIn(kind, hs[..|hs| - 1], k); }
  }

  lemma {:induction false} TallyFrom(kind: Kind, hs: seq<Handler>, id: nat) returns (k: nat)
    requires id in Tally(kind, hs)
    ensures k < |hs| && hs[k].id == id && Counts(kind, hs[k])
  {
    var last := |hs| - 1;
    if Counts(kind, hs[last]) && hs[last].id == id {
      k := last;
    } else {
      k := TallyFrom(kind, hs[..last], id);
    }
  }

  lemma {:induction false} TallyDistinct(hs: seq<Handler>, i: nat, j: nat)
    requires i < j < |hs| && forall id :: Tally(All, hs)[id] <= 1
    ensures hs[i].id != hs[j].id
  {
    var last := |hs| - 1;
    forall id ensures Tally(All, hs[..last])[id] <= Tally(All, hs)[id] { }
    if j < last {
      TallyDistinct(hs[..last], i, j);
    } else {
      TallyIn(All, hs[..last], i);
    }
  }

  // ---------------------------------------------------------------- facing an arbitrary client

  /** Nothing is handled before the greeting, and a suspended handler has answered exactly if it is past its call. */
  ghost predicate StagesOk(s: ServerState) {
    && (!s.greeted ==> s.handlers == [] && s.stage != Ready)
    && (s.stage == AwaitingHello ==> !s.greeted && s.deferred == [])
    && (forall k :: 0 <= k < |s.handlers| ==> (s.handlers[k].phase == Invoking <==> s.handlers[k].answer.None?))
  }

  /** At most one message; a response only when the handler `h` becomes `g` by being answered. */
  ghost predicate Answers(h: Option<Handler>, g: Handler, sent: seq<ToClient>, canSend: bool) {
    && |sent| <= 1
    && (!canSend ==> sent == [])
    && (canSend && (h.None? || h.value.answer.None?) && g.answer.Some? ==> sent == [Response(g.id, g.answer.value)])
    && (sent != [] && !sent[0].Response? ==> g.call.Subscribe? && sent[0].ServiceUpdate? && sent[0].sub == g.call.sub)
    && Greeting !in sent
    && (h.Some? ==> g.id == h.value.id && g.call == h.value.call)
    && (h.Some? && h.value.answer.Some? ==> g.answer == h.value.answer)
    && (sent != [] && sent[0].Response? ==>
          (h.None? || h.value.answer.None?) && g.answer.Some? && sent[0] == Response(g.id, g.answer.value))
  }

  predicate HandlerAction(s: ServerState, a: ServerAction) {
    match a
    case InvokeSettled(k, _) => k < |s.handlers| && s.handlers[k].phase == Invoking
    case SendSettled(k) => k < |s.handlers| && (s.handlers[k].phase == Replying || s.handlers[k].phase == Draining)
    case Publish(k, _) => k < |s.handlers| && s.handlers[k].call.Subscribe?
    case _ => false
  }

  /** What a step of handler `k` leaves alone. */
  ghost predicate OneHandler(s: ServerState, o: Out, k: nat) {
    && k < |s.handlers| == |o.state.handlers|
    && o.state.handlers == s.handlers[k := o.state.handlers[k]]
    && o.state.stage == s.stage && o.state.greeted == s.greeted && o.state.deferred == s.deferred
    && o.state.closed == s.closed && o.state.disconnected == s.disconnected
  }

  lemma UpdateTwice(hs: seq<Handler>, k: nat, g: Handler, h: Handler)
    requires k < |hs|
    ensures hs[k := g][k := h] == hs[k := h]
  {
  }

  lemma AnswerStep(s: ServerState, k: nat, r: Invoked, reply: Reply)
    requires k < |s.handlers| && s.handlers[k].answer.None?
    ensures var o := Answer(s, k, r, reply); var g := o.state.handlers[k];
      && OneHandler(s, o, k)
      && Answers(Some(s.handlers[k]), g, o.sent, CanSend(s))
      && g.phase != Invoking && g.answer == Some(reply) && g.result == Some(r)
  {
  }

  lemma InvokeStep(codec: Codec, s: ServerState, k: nat, r: Invoked)
    requires k < |s.handlers| && s.handlers[k].phase == Invoking && s.handlers[k].answer.None?
    ensures var o := AfterInvoke(codec, s, k, r);
      && OneHandler(s, o, k)
      && Answers(Some(s.handlers[k]), o.state.handlers[k], o.sent, CanSend(s))
      && o.state.handlers[k].phase != Invoking && o.state.handlers[k].answer.Some?
  {
    hide Answer;
    var h := s.handlers[k];
    var value := Success(if r.ValueResult? then Some(r.value) else None);
    AnswerStep(s, k, r, Failure);
    AnswerStep(s, k, r, value);
    if h.call.Unsubscribe? {
      AnswerStep(s.(encoders := s.encoders - {h.call.sub}), k, r, value);
    }
    if h.call.Subscribe? && r.SnapshotResult? {
      var stream := History(r.snapshot, []);
      var t := WithHandler(s, k, h.(stream := Some(stream))).(encoders := s.encoders[h.call.sub := stream]);
      var reply := Success(Some(codec.encodeSnapshot(r.snapshot)));
      AnswerStep(t, k, r, reply);
      UpdateTwice(s.handlers, k, t.handlers[k], Answer(t, k, r, reply).state.handlers[k]);
    }
  }

  lemma SendUpdateStep(codec: Codec, s: ServerState, k: nat, sub: nat, u: Update)
    requires k < |s.handlers|
    ensures var o := SendUpdate(codec, s, k, sub, u); var g := o.state.handlers[k];
      && OneHandler(s, o, k)
      && g.id == s.handlers[k].id && g.call == s.handlers[k].call && g.phase == s.handlers[k].phase
      && g.answer == s.handlers[k].answer
      && |o.sent| <= 1 && (o.sent != [] ==> CanSend(s) && o.sent[0].ServiceUpdate? && o.sent[0].sub == sub)
  {
    hide Extend;
  }

  lemma FinishStep(s: ServerState, k: nat)
    requires k < |s.handlers|
    ensures var t := Finish(s, k);
      && OneHandler(s, Out(t, []), k)
      && t.handlers[k] == s.handlers[k].(phase := Finished)
      && t.encoders == s.encoders && t.published == s.published
  {
  }

  lemma SentStep(codec: Codec, s: ServerState, k: nat)
    requires k < |s.handlers| && s.handlers[k].phase != Invoking && s.handlers[k].answer.Some?
    ensures var o := AfterSend(codec, s, k);
      && OneHandler(s, o, k)
      && Answers(Some(s.handlers[k]), o.state.handlers[k], o.sent, CanSend(s))
      && o.state.handlers[k].phase != Invoking && o.state.handlers[k].answer.Some?
  {
    hide SendUpdate, Finish;
    var h := s.handlers[k];
    FinishStep(s, k);
    if h.call.Subscribe? && h.answer != Some(Failure) {
      if h.held == [] {
        var t := WithHandler(s, k, h.(gateOpen := true));
        FinishStep(t, k);
        UpdateTwice(s.handlers, k, t.handlers[k], Finish(t, k).handlers[k]);
      } else {
        var t := WithHandler(s, k, h.(phase := Draining, held := h.held[1..]));
        SendUpdateStep(codec, t, k, h.call.sub, h.held[0]);
        UpdateTwice(s.handlers, k, t.handlers[k], AfterSend(codec, s, k).state.handlers[k]);
      }
    }
  }

  lemma PublishStep(codec: Codec, s: ServerState, k: nat, u: Update)
    requires k < |s.handlers| && s.handlers[k].call.Subscribe?
    ensures var o := Publishing(codec, s, k, u);
      && OneHandler(s, o, k)
      && Answers(Some(s.handlers[k]), o.state.handlers[k], o.sent, CanSend(s))
      && o.state.handlers[k].phase == s.handlers[k].phase && o.state.handlers[k].answer == s.handlers[k].answer
  {
    hide SendUpdate;
    var h := s.handlers[k];
    if h.gateOpen {
      var t := s.(published := s.published[h.call.sub :=
          (if h.call.sub in s.published then s.published[h.call.sub] else []) + [u]]);
      SendUpdateStep(codec, t, k, h.call.sub, u);
    }
  }

  /** A step of one handler changes that handler only. */
  lemma HandlerStep(codec: Codec, s: ServerState, a: ServerAction)
    requires StagesOk(s) && HandlerAction(s, a)
    ensures var o := Step(codec, s, a); var k := a.handler;
      && OneHandler(s, o, k)
      && Answers(Some(s.handlers[k]), o.state.handlers[k], o.sent, CanSend(s))
      && (o.state.handlers[k].phase == Invoking <==> o.state.handlers[k].answer.None?)
  {
    hide AfterInvoke, AfterSend, Publishing, Answers;
    match a
    case InvokeSettled(k, r) => InvokeStep(codec, s, k, r);
    case SendSettled(k) => SentStep(codec, s, k);
    case Publish(k, u) => PublishStep(codec, s, k, u);
  }

  lemma BeginStep(s: ServerState, id: nat, call: Call)
    ensures var o := BeginRequest(s, id, call); var g := o.state.handlers[|s.handlers|];
      && o.state.handlers == s.handlers + [g]
      && g.id == id && g.call == call
      && Answers(None, g, o.sent, CanSend(s))
      && (g.phase == Invoking <==> g.answer.None?)
      && o.state.stage == s.stage && o.state.greeted == s.greeted && o.state.deferred == s.deferred
      && o.state.closed == s.closed && o.state.disconnected == s.disconnected
  {
  }

  /** What answering does to the counts: an open handler turns into an answered one and, if possible, a response. */
  lemma AnswersTally(hs: seq<Handler>, k: nat, g: Handler, sent: seq<ToClient>, canSend: bool)
    requires k <= |hs| && Answers(if k < |hs| then Some(hs[k]) else None, g, sent, canSend)
    ensures var hs' := if k < |hs| then hs[k := g] else hs + [g];
            var entering := if k < |hs| then multiset{} else multiset{g.id};
      && Tally(Answered, hs) + ResponseIds(sent) <= Tally(Answered, hs')
      && Tally(All, hs') == Tally(All, hs) + entering
      && Tally(Open, hs') + ResponseIds(sent) <= Tally(Open, hs) + entering
      && (canSend ==> Tally(Open, hs') + ResponseIds(sent) == Tally(Open, hs) + entering)
  {
    hide Tally, ResponseIds, Answers, One;
    if k < |hs| {
      AnswersOne(Some(hs[k]), g, sent, canSend);
      var answered := TallyUpdate(Answered, hs, k, g);
      var all := TallyUpdate(All, hs, k, g);
      var open := TallyUpdate(Open, hs, k, g);
    } else {
      AnswersOne(None, g, sent, canSend);
      TallySnoc(Answered, hs, g);
      TallySnoc(All, hs, g);
      TallySnoc(Open, hs, g);
    }
  }

  function OneOf(kind: Kind, h: Option<Handler>): multiset<nat> {
    if h.Some? then One(kind, h.value) else multiset{}
  }

  lemma AnswersOne(h: Option<Handler>, g: Handler, sent: seq<ToClient>, canSend: bool)
    requires Answers(h, g, sent, canSend)
    ensures OneOf(Answered, h) + ResponseIds(sent) <= One(Answered, g)
    ensures One(All, g) == multiset{g.id} && (h.Some? ==> OneOf(All, h) == multiset{g.id})
    ensures One(Open, g) + ResponseIds(sent) <= if h.Some? then OneOf(Open, h) else multiset{g.id}
    ensures canSend ==> One(Open, g) + ResponseIds(sent) == if h.Some? then OneOf(Open, h) else multiset{g.id}
  {
    hide ResponseIds;
    OneMessage(sent);
  }

  lemma OneMessage(sent: seq<ToClient>)
    requires |sent| <= 1
    ensures ResponseIds(sent) == if sent == [] then multiset{} else OneResponse(sent[0])
  {
    if sent != [] { assert sent[..|sent| - 1] == []; }
  }

  lemma DispatchAnswers(s: ServerState, m: ToServer)
    requires StagesOk(s) && !Terminal(s)
    ensures var o := Dispatch(s, m);
      && StagesOk(o.state)
      && Tally(Answered, s.handlers) + ResponseIds(o.sent) <= Tally(Answered, o.state.handlers)
      && o.state.greeted == s.greeted && Greeting !in o.sent
  {
    hide Tally, ResponseIds;
    var o := Dispatch(s, m);
    if s.stage == Ready && m.Request? {
      BeginStep(s, m.id, m.call);
      AnswersTally(s.handlers, |s.handlers|, o.state.handlers[|s.handlers|], o.sent, CanSend(s));
    } else {
      OneMessage(o.sent);
    }
  }

  /** The greeting is sent once, and before anything is handled. */
  ghost predicate GreetsFirst(s: ServerState, o: Out) {
    && StagesOk(o.state)
    && (s.greeted ==> o.state.greeted && Greeting !in o.sent)
    && (!s.greeted && !o.state.greeted ==> o.sent == [] || (o.sent == [Refusal] && !CanSend(o.state)))
    && (!s.greeted && o.state.greeted ==> o.sent == [Greeting])
    && (!CanSend(s) ==> o.sent == [] && !CanSend(o.state))
  }

  /** The responses a step sends belong to handlers it answers. */
  ghost predicate AnswersHandlers(s: ServerState, o: Out) {
    Tally(Answered, s.handlers) + ResponseIds(o.sent) <= Tally(Answered, o.state.handlers)
  }

  lemma HandlerGreets(codec: Codec, s: ServerState, a: ServerAction)
    requires StagesOk(s) && HandlerAction(s, a)
    ensures GreetsFirst(s, Step(codec, s, a))
  {
    HandlerStep(codec, s, a);
    hide Step;
  }

  lemma HandlerTallies(codec: Codec, s: ServerState, a: ServerAction)
    requires StagesOk(s) && HandlerAction(s, a)
    ensures var o := Step(codec, s, a);
      AnswersHandlers(s, o) && Tally(All, o.state.handlers) == Tally(All, s.handlers) && o.state.deferred == s.deferred
  {
    HandlerStep(codec, s, a);
    hide Step, Tally, ResponseIds, Answers;
    var o := Step(codec, s, a);
    AnswersTally(s.handlers, a.handler, o.state.handlers[a.handler], o.sent, CanSend(s));
    PlusNone(Tally(All, s.handlers));
  }

  /** A step that neither concerns a handler nor hands over a message. */
  predicate Plainly(s: ServerState, a: ServerAction) {
    && !HandlerAction(s, a) && (a.Receive? ==> Terminal(s))
    && !(a.RunDeferred? && s.deferred != [] && s.stage == Ready && !s.disconnected)
  }

  lemma PlainAnswers(codec: Codec, s: ServerState, a: ServerAction)
    requires StagesOk(s) && Plainly(s, a)
    ensures GreetsFirst(s, Step(codec, s, a)) && AnswersHandlers(s, Step(codec, s, a))
  {
    hide Tally, ResponseIds, AfterInvoke, AfterSend, Publishing, Dispatch;
    OneMessage(Step(codec, s, a).sent);
    PlusNone(Tally(Answered, s.handlers));
  }

  lemma DispatchGreets(s: ServerState, m: ToServer)
    requires StagesOk(s) && !Terminal(s)
    ensures var o := Dispatch(s, m);
      && (!s.greeted ==> o.sent == [] || (o.sent == [Refusal] && !CanSend(o.state)))
      && (!CanSend(s) ==> o.sent == [] && !CanSend(o.state))
  {
  }

  lemma HandedOver(s: ServerState, t: ServerState, m: ToServer)
    requires StagesOk(s) && !Terminal(s) && t == s.(deferred := t.deferred) && StagesOk(t)
    ensures GreetsFirst(s, Dispatch(t, m)) && AnswersHandlers(s, Dispatch(t, m))
  {
    DispatchAnswers(t, m);
    DispatchGreets(t, m);
    hide Tally, ResponseIds, Dispatch;
  }

  /**
   Whatever the client sends and however the steps interleave: the responses a step sends belong to
   handlers it answers, each for the first time, and the greeting is sent before anything is handled.
   */
  lemma StepAnswers(codec: Codec, s: ServerState, a: ServerAction)
    requires StagesOk(s)
    ensures GreetsFirst(s, Step(codec, s, a)) && AnswersHandlers(s, Step(codec, s, a))
  {
    hide GreetsFirst, AnswersHandlers, StagesOk, Dispatch;
    if HandlerAction(s, a) {
      HandlerGreets(codec, s, a);
      HandlerTallies(codec, s, a);
    } else if a.Receive? && !Terminal(s) {
      HandedOver(s, s, a.message);
    } else if a.RunDeferred? && s.deferred != [] && s.stage == Ready && !s.disconnected {
      FewerDeferred(s);
      HandedOver(s, s.(deferred := s.deferred[1..]), s.deferred[0]);
    } else {
      PlainAnswers(codec, s, a);
    }
  }

  lemma FewerDeferred(s: ServerState)
    requires StagesOk(s) && s.deferred != [] && s.stage == Ready
    ensures StagesOk(s.(deferred := s.deferred[1..]))
  {
  }

  // ---------------------------------------------------------------- responses and request envelopes

  /** The ids of the request envelopes a connection has taken in: handed to a handler, or deferred. */
  function TakenIn(s: ServerState): multiset<nat> {
    Tally(All, s.handlers) + RequestIds(s.deferred)
  }

  lemma DispatchTakesIn(s: ServerState, m: ToServer)
    requires !Terminal(s)
    ensures TakenIn(Dispatch(s, m).state) <= TakenIn(s) + OneRequest(m)
  {
    hide Tally, RequestIds;
    var o := Dispatch(s, m);
    if s.stage == Ready && m.Request? {
      BeginStep(s, m.id, m.call);
      TallySnoc(All, s.handlers, o.state.handlers[|s.handlers|]);
    } else {
      RequestIdsSnoc(s.deferred, m);
    }
  }

  lemma HandlerTakesIn(codec: Codec, s: ServerState, a: ServerAction)
    requires StagesOk(s) && HandlerAction(s, a)
    ensures TakenIn(Step(codec, s, a).state) == TakenIn(s)
  {
    HandlerTallies(codec, s, a);
    hide Step, Tally, RequestIds, AnswersHandlers, StagesOk;
  }

  lemma PlainTakesIn(codec: Codec, s: ServerState, a: ServerAction)
    requires Plainly(s, a)
    ensures TakenIn(Step(codec, s, a).state) <= TakenIn(s)
  {
    hide Tally, RequestIds, AfterInvoke, AfterSend, Publishing, Dispatch;
    if a.RunDeferred? && s.deferred != [] { RequestIdsHead(s.deferred); }
  }

  function Envelope(a: ServerAction): seq<ToServer> { if a.Receive? then [a.message] else [] }

  /** Every message the connection is given, in order. */
  function Envelopes(actions: seq<ServerAction>): seq<ToServer> {
    if actions == [] then [] else Envelope(actions[0]) + Envelopes(actions[1..])
  }

  lemma StepTakesIn(codec: Codec, s: ServerState, a: ServerAction)
    requires StagesOk(s)
    ensures TakenIn(Step(codec, s, a).state) <= TakenIn(s) + RequestIds(Envelope(a))
  {
    EnvelopeIds(a);
    PlusNone(TakenIn(s));
    hide StagesOk, TakenIn, RequestIds, Dispatch, OneRequest, Envelope;
    if HandlerAction(s, a) {
      HandlerTakesIn(codec, s, a);
    } else if a.Receive? && !Terminal(s) {
      DispatchTakesIn(s, a.message);
    } else if a.RunDeferred? && s.deferred != [] && s.stage == Ready && !s.disconnected {
      DispatchTakesIn(s.(deferred := s.deferred[1..]), s.deferred[0]);
      FirstDeferred(s);
    } else {
      PlainTakesIn(codec, s, a);
    }
  }

  lemma EnvelopeIds(a: ServerAction)
    ensures RequestIds(Envelope(a)) == if a.Receive? then OneRequest(a.message) else multiset{}
  {
    if a.Receive? { assert Envelope(a)[..0] == []; }
  }

  lemma FirstDeferred(s: ServerState)
    requires s.deferred != []
    ensures TakenIn(s) == TakenIn(s.(deferred := s.deferred[1..])) + OneRequest(s.deferred[0])
  {
    RequestIdsHead(s.deferred);
    hide Tally, RequestIds;
  }

  lemma {:induction false} AnsweredAreAll(hs: seq<Handler>)
    ensures Tally(Answered, hs) <= Tally(All, hs)
  {
    if hs != [] { AnsweredAreAll(hs[..|hs| - 1]); }
  }

  lemma {:induction false} RequestIdsAppend(a: seq<ToServer>, b: seq<ToServer>)
    ensures RequestIds(a + b) == RequestIds(a) + RequestIds(b)
  {
    if b == [] {
      assert a + b == a;
    } else {
      assert (a + b)[..|a + b| - 1] == a + b[..|b| - 1];
      RequestIdsAppend(a, b[..|b| - 1]);
    }
  }

  /** From any state on: each response sent is the first answer of its handler, each handler is that of one envelope. */
  lemma {:induction false} RunAnswers(codec: Codec, s: ServerState, actions: seq<ServerAction>)
    requires StagesOk(s)
    ensures var o := Run(codec, s, actions);
      StagesOk(o.state) && AnswersHandlers(s, o)
      && TakenIn(o.state) <= TakenIn(s) + RequestIds(Envelopes(actions))
    decreases |actions|
  {
    hide Tally, ResponseIds, RequestIds, Step, TakenIn, StagesOk;
    if actions == [] {
      ResponseIdsNone();
      RequestIdsNone();
      PlusNone(Tally(Answered, s.handlers));
      PlusNone(TakenIn(s));
    } else {
      var one := Step(codec, s, actions[0]);
      StepAnswers(codec, s, actions[0]);
      StepTakesIn(codec, s, actions[0]);
      RunAnswers(codec, one.state, actions[1..]);
      var rest := Run(codec, one.state, actions[1..]);
      ResponseIdsAppend(one.sent, rest.sent);
      RequestIdsAppend(Envelope(actions[0]), Envelopes(actions[1..]));
      AtMostBoth(Tally(Answered, s.handlers), ResponseIds(one.sent), Tally(Answered, one.state.handlers),
                 ResponseIds(rest.sent), Tally(Answered, rest.state.handlers));
      AtMostSum(TakenIn(rest.state), TakenIn(one.state), RequestIds(Envelopes(actions[1..])), TakenIn(s),
          RequestIds(Envelope(actions[0])));
    }
  }

  /**
   On every run of a connection against an arbitrary client: for each id no more responses are sent than
   request envelopes have come in with it, and no request is handled before the greeting is sent.
   */
  lemma AtMostOneResponse(codec: Codec, published: map<nat, seq<Update>>, actions: seq<ServerAction>)
    ensures var o := Run(codec, NewConnection(published), actions);
      && ResponseIds(o.sent) <= RequestIds(Envelopes(actions))
      && (o.state.handlers != [] ==> o.state.greeted)
  {
    var s := NewConnection(published);
    assert StagesOk(s);
    NothingTakenIn(s);
    RunAnswers(codec, s, actions);
    var o := Run(codec, s, actions);
    AnsweredAreAll(o.state.handlers);
    hide Run, Tally, ResponseIds, RequestIds, Envelopes, StagesOk;
    AtMostParts(Tally(Answered, s.handlers), ResponseIds(o.sent), Tally(Answered, o.state.handlers),
                Tally(All, o.state.handlers), RequestIds(o.state.deferred), RequestIds(Envelopes(actions)));
  }

  lemma NothingTakenIn(s: ServerState)
    requires s.handlers == [] && s.deferred == []
    ensures TakenIn(s) == multiset{} && Tally(Answered, s.handlers) == multiset{}
  {
  }

  lemma RequestIdsNone()
    ensures RequestIds([]) == multiset{}
  {
  }

  lemma ResponseIdsNone()
    ensures ResponseIds([]) == multiset{}
  {
  }

  lemma {:induction false} ResponseIdsAppend(a: seq<ToClient>, b: seq<ToClient>)
    ensures ResponseIds(a + b) == ResponseIds(a) + ResponseIds(b)
  {
    if b == [] {
      assert a + b == a;
    } else {
      assert (a + b)[..|a + b| - 1] == a + b[..|b| - 1];
      ResponseIdsAppend(a, b[..|b| - 1]);
    }
  }
}
