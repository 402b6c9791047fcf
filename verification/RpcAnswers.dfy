/**
 What a request comes to: a server's responses say what its service did, a promise settles with the response to its
 own request, and so, over any run with reconnects, it resolves with what the service returned.
 */
module RpcAnswers {
  import opened Common
  import opened RpcProtocol
  import opened RpcSafety
  import opened RpcSystem
  import C = RpcClient
  import S = RpcServer

  // ---------------------------------------------------------------- the server against an arbitrary client

  /** The reply that a service call calls for once it has settled. */
  predicate Fits(codec: Codec, call: Call, r: S.Invoked, reply: Reply) {
    && (reply.Success? <==> if call.Subscribe? then r.SnapshotResult? else !r.Threw?)
    && (reply.Success? && call.Subscribe? ==> reply.result == Some(codec.encodeSnapshot(r.snapshot)))
    && (reply.Success? && !call.Subscribe? ==>
          (reply.result.Some? <==> r.ValueResult?) && (r.ValueResult? ==> reply.result == Some(r.value)))
  }

  /** A handler answers what its service call came to; one that was refused before has failed. */
  predicate Truthful(codec: Codec, h: S.Handler) {
    match h.answer
    case None => h.result.None?
    case Some(reply) => if h.result.None? then reply == Failure else Fits(codec, h.call, h.result.value, reply)
  }

  predicate AllTruthful(codec: Codec, hs: seq<S.Handler>) {
    forall k :: 0 <= k < |hs| ==> Truthful(codec, hs[k])
  }

  /** A handler keeps its request, and its answer once it has one; it is answered when its call has settled. */
  predicate Kept(h: S.Handler, g: S.Handler) {
    && g.id == h.id && g.call == h.call
    && (h.answer.Some? ==> g.answer == h.answer && g.result == h.result)
    && (h.answer.None? && g.answer.Some? ==> g.result.Some?)
  }

  predicate AllKept(hs: seq<S.Handler>, gs: seq<S.Handler>) {
    |hs| <= |gs| && forall k :: 0 <= k < |hs| ==> Kept(hs[k], gs[k])
  }

  predicate AnsweredIn(hs: seq<S.Handler>, id: nat, reply: Reply) {
    exists k :: 0 <= k < |hs| && hs[k].id == id && hs[k].answer == Some(reply)
  }

  /** Every response among these messages is the answer of a handler. */
  predicate Backed(ms: seq<ToClient>, hs: seq<S.Handler>) {
    forall i :: 0 <= i < |ms| && ms[i].Response? ==> AnsweredIn(hs, ms[i].id, ms[i].reply)
  }

  lemma StillAnswered(hs: seq<S.Handler>, gs: seq<S.Handler>, id: nat, reply: Reply)
    requires AllKept(hs, gs) && AnsweredIn(hs, id, reply)
    ensures AnsweredIn(gs, id, reply)
  {
    var k :| 0 <= k < |hs| && hs[k].id == id && hs[k].answer == Some(reply);
    assert Kept(hs[k], gs[k]);
  }

  lemma StillBacked(ms: seq<ToClient>, hs: seq<S.Handler>, gs: seq<S.Handler>)
    requires AllKept(hs, gs) && Backed(ms, hs)
    ensures Backed(ms, gs)
  {
    hide AllKept, AnsweredIn;
    forall i | 0 <= i < |ms| && ms[i].Response? ensures AnsweredIn(gs, ms[i].id, ms[i].reply) {
      StillAnswered(hs, gs, ms[i].id, ms[i].reply);
    }
  }

  lemma KeptTwice(a: seq<S.Handler>, b: seq<S.Handler>, c: seq<S.Handler>)
    requires AllKept(a, b) && AllKept(b, c)
    ensures AllKept(a, c)
  {
    forall k | 0 <= k < |a| ensures Kept(a[k], c[k]) {
      assert Kept(a[k], b[k]) && Kept(b[k], c[k]);
    }
  }

  lemma KeptSame(hs: seq<S.Handler>)
    ensures AllKept(hs, hs)
  {
  }

  lemma AnswerIs(s: S.ServerState, k: nat, r: S.Invoked, reply: Reply)
    requires k < |s.handlers|
    ensures var t := S.Answer(s, k, r, reply).state;
      && k < |t.handlers| == |s.handlers| && var g := t.handlers[k];
      && g.call == s.handlers[k].call && g.result == Some(r) && g.answer == Some(reply)
  {
  }

  lemma InvokeFits(codec: Codec, s: S.ServerState, k: nat, r: S.Invoked)
    requires k < |s.handlers| && s.handlers[k].phase == S.Invoking
    ensures var t := S.AfterInvoke(codec, s, k, r).state; k < |t.handlers| && var g := t.handlers[k];
      g.call == s.handlers[k].call && g.result == Some(r) && g.answer.Some? && Fits(codec, g.call, r, g.answer.value)
  {
    hide S.Answer;
    var h := s.handlers[k];
    var value := Success(if r.ValueResult? then Some(r.value) else None);
    AnswerIs(s, k, r, Failure);
    AnswerIs(s, k, r, value);
    if h.call.Unsubscribe? { AnswerIs(s.(encoders := s.encoders - {h.call.sub}), k, r, value); }
    if h.call.Subscribe? && r.SnapshotResult? {
      var stream := History(r.snapshot, []);
      AnswerIs(S.WithHandler(s, k, h.(stream := Some(stream))).(encoders := s.encoders[h.call.sub := stream]), k, r,
               Success(Some(codec.encodeSnapshot(r.snapshot))));
    }
  }

  predicate SameAnswer(s: S.ServerState, t: S.ServerState, k: nat) {
    && k < |s.handlers| == |t.handlers|
    && t.handlers[k].result == s.handlers[k].result && t.handlers[k].answer == s.handlers[k].answer
  }

  lemma UpdateStays(codec: Codec, s: S.ServerState, k: nat, sub: nat, u: Update)
    requires k < |s.handlers|
    ensures SameAnswer(s, S.SendUpdate(codec, s, k, sub, u).state, k)
  {
    hide Extend;
  }

  lemma FinishStays(s: S.ServerState, k: nat)
    requires k < |s.handlers|
    ensures SameAnswer(s, S.Finish(s, k), k)
  {
  }

  lemma SentStays(codec: Codec, s: S.ServerState, k: nat)
    requires k < |s.handlers|
    ensures SameAnswer(s, S.AfterSend(codec, s, k).state, k)
  {
    var h := s.handlers[k];
    hide S.SendUpdate, S.Finish;
    FinishStays(s, k);
    FinishStays(S.WithHandler(s, k, h.(gateOpen := true)), k);
    if h.call.Subscribe? && h.answer != Some(Failure) && h.held != [] {
      UpdateStays(codec, S.WithHandler(s, k, h.(phase := S.Draining, held := h.held[1..])), k, h.call.sub, h.held[0]);
    }
  }

  lemma PublishStays(codec: Codec, s: S.ServerState, k: nat, u: Update)
    requires k < |s.handlers| && s.handlers[k].call.Subscribe?
    ensures SameAnswer(s, S.Publishing(codec, s, k, u).state, k)
  {
    var sub := s.handlers[k].call.sub;
    hide S.SendUpdate;
    UpdateStays(codec, s.(published := s.published[sub :=
        (if sub in s.published then s.published[sub] else []) + [u]]), k, sub, u);
  }

  /** Only the end of its service call changes a handler's answer. */
  lemma ResultStays(codec: Codec, s: S.ServerState, a: S.ServerAction)
    requires S.HandlerAction(s, a) && !a.InvokeSettled?
    ensures SameAnswer(s, S.Step(codec, s, a).state, a.handler)
  {
    hide S.AfterSend, S.Publishing;
    if a.SendSettled? { SentStays(codec, s, a.handler); } else { PublishStays(codec, s, a.handler, a.update); }
  }

  /** What a step does to the handlers, and whose answers it sends. */
  ghost predicate Tells(codec: Codec, s: S.ServerState, o: S.Out) {
    AllKept(s.handlers, o.state.handlers) && AllTruthful(codec, o.state.handlers) && Backed(o.sent, o.state.handlers)
  }

  lemma HandlerTells(codec: Codec, s: S.ServerState, a: S.ServerAction)
    requires S.StagesOk(s) && AllTruthful(codec, s.handlers) && S.HandlerAction(s, a)
    ensures Tells(codec, s, S.Step(codec, s, a))
  {
    S.HandlerStep(codec, s, a);
    var o, k := S.Step(codec, s, a), a.handler;
    var h, g := s.handlers[k], o.state.handlers[k];
    assert Truthful(codec, h);
    if a.InvokeSettled? { InvokeFits(codec, s, k, a.result); } else { ResultStays(codec, s, a); }
    hide S.Step, Fits;
    forall j | 0 <= j < |s.handlers| ensures Kept(s.handlers[j], o.state.handlers[j]) {
      if j != k { assert o.state.handlers[j] == s.handlers[j]; }
    }
    forall j | 0 <= j < |o.state.handlers| ensures Truthful(codec, o.state.handlers[j]) {
      if j != k { assert o.state.handlers[j] == s.handlers[j] && Truthful(codec, s.handlers[j]); }
    }
  }

  /** A request handed over: one more handler, refused with an error or not yet answered. */
  lemma DispatchTells(codec: Codec, s: S.ServerState, m: ToServer)
    requires S.StagesOk(s) && AllTruthful(codec, s.handlers) && !S.Terminal(s)
    ensures Tells(codec, s, S.Dispatch(s, m))
  {
    var o := S.Dispatch(s, m);
    if s.stage == S.Ready && m.Request? {
      S.BeginStep(s, m.id, m.call);
      assert Truthful(codec, o.state.handlers[|s.handlers|]);
      forall j | 0 <= j < |s.handlers| ensures o.state.handlers[j] == s.handlers[j] { }
      hide S.Dispatch;
    }
  }

  lemma StepTells(codec: Codec, s: S.ServerState, a: S.ServerAction)
    requires S.StagesOk(s) && AllTruthful(codec, s.handlers)
    ensures Tells(codec, s, S.Step(codec, s, a))
  {
    if S.HandlerAction(s, a) {
      HandlerTells(codec, s, a);
    } else if a.Receive? && !S.Terminal(s) {
      DispatchTells(codec, s, a.message);
    } else if a.RunDeferred? && s.deferred != [] && s.stage == S.Ready && !s.disconnected {
      S.FewerDeferred(s);
      DispatchTells(codec, s.(deferred := s.deferred[1..]), s.deferred[0]);
    } else {
      KeptSame(s.handlers);
      hide AllKept, AllTruthful;
    }
  }

  lemma {:induction false} RunTells(codec: Codec, s: S.ServerState, actions: seq<S.ServerAction>)
    requires S.StagesOk(s) && AllTruthful(codec, s.handlers)
    ensures Tells(codec, s, S.Run(codec, s, actions)) && S.StagesOk(S.Run(codec, s, actions).state)
    decreases |actions|
  {
    hide S.StagesOk, AllTruthful, S.Step;
    if actions == [] {
      KeptSame(s.handlers);
    } else {
      var one := S.Step(codec, s, actions[0]);
      StepTells(codec, s, actions[0]);
      S.StepAnswers(codec, s, actions[0]);
      RunTells(codec, one.state, actions[1..]);
      var rest := S.Run(codec, one.state, actions[1..]);
      KeptTwice(s.handlers, one.state.handlers, rest.state.handlers);
      StillBacked(one.sent, one.state.handlers, rest.state.handlers);
    }
  }

  lemma {:induction false} RunSplit(codec: Codec, s: S.ServerState, actions: seq<S.ServerAction>, n: nat)
    requires n <= |actions|
    ensures var one := S.Run(codec, s, actions[..n]); var rest := S.Run(codec, one.state, actions[n..]);
      S.Run(codec, s, actions) == S.Out(rest.state, one.sent + rest.sent)
    decreases |actions|
  {
    hide S.Step;
    if n == 0 {
      assert actions[..0] == [] && actions[0..] == actions;
      assert [] + S.Run(codec, s, actions).sent == S.Run(codec, s, actions).sent;
    } else {
      var one := S.Step(codec, s, actions[0]);
      assert actions[1..][..n - 1] == actions[..n][1..] && actions[1..][n - 1..] == actions[n..];
      RunSplit(codec, one.state, actions[1..], n - 1);
      var a, b := S.Run(codec, one.state, actions[1..][..n - 1]), S.Run(codec, s, actions[..n]);
      var rest := S.Run(codec, a.state, actions[n..]);
      assert one.sent + (a.sent + rest.sent) == one.sent + a.sent + rest.sent;
    }
  }

  /**
   Whenever the service settles a call that a handler has made, the handler answers what the call calls for, for good,
   and while the transport can send, that is the response to its request.
   */
  lemma AnsweredAsServed(codec: Codec, published: map<nat, seq<Update>>, actions: seq<S.ServerAction>, n: nat, k: nat,
                         r: S.Invoked)
    returns (reply: Reply)
    requires n < |actions| && actions[n] == S.InvokeSettled(k, r)
    requires var s := S.Run(codec, S.NewConnection(published), actions[..n]).state;
      k < |s.handlers| && s.handlers[k].phase == S.Invoking
    ensures var s := S.Run(codec, S.NewConnection(published), actions[..n]).state; var h := s.handlers[k];
      var o := S.Run(codec, S.NewConnection(published), actions);
      && Fits(codec, h.call, r, reply)
      && k < |o.state.handlers| && o.state.handlers[k].id == h.id && o.state.handlers[k].answer == Some(reply)
      && (S.CanSend(s) ==> Response(h.id, reply) in o.sent)
  {
    var first := S.NewConnection(published);
    RunTells(codec, first, actions[..n]);
    var before := S.Run(codec, first, actions[..n]);
    var s := before.state;
    RunSplit(codec, first, actions, n);
    var one := S.Step(codec, s, actions[n]);
    InvokeFits(codec, s, k, r);
    S.HandlerStep(codec, s, actions[n]);
    StepTells(codec, s, actions[n]);
    S.StepAnswers(codec, s, actions[n]);
    RunTells(codec, one.state, actions[n..][1..]);
    reply := one.state.handlers[k].answer.value;
    hide S.Run, S.StagesOk, Fits, S.Answer;
    var rest := S.Run(codec, one.state, actions[n..][1..]);
    assert Kept(one.state.handlers[k], rest.state.handlers[k]);
    if S.CanSend(s) { assert one.sent[0] == Response(s.handlers[k].id, reply); }
  }

  /** And nothing else is ever sent as a response. */
  lemma ResponsesAreAnswers(codec: Codec, published: map<nat, seq<Update>>, actions: seq<S.ServerAction>, i: nat)
    returns (k: nat)
    requires var o := S.Run(codec, S.NewConnection(published), actions); i < |o.sent| && o.sent[i].Response?
    ensures var o := S.Run(codec, S.NewConnection(published), actions); var m := o.sent[i];
      && k < |o.state.handlers| && var h := o.state.handlers[k];
      && h.id == m.id && h.answer == Some(m.reply)
      && if h.result.None? then m.reply == Failure else Fits(codec, h.call, h.result.value, m.reply)
  {
    RunTells(codec, S.NewConnection(published), actions);
    var o := S.Run(codec, S.NewConnection(published), actions);
    var m := o.sent[i];
    assert AnsweredIn(o.state.handlers, m.id, m.reply);
    k :| 0 <= k < |o.state.handlers| && o.state.handlers[k].id == m.id && o.state.handlers[k].answer == Some(m.reply);
    assert Truthful(codec, o.state.handlers[k]);
  }

  // ---------------------------------------------------------------- the request table

  /** The table holds exactly the handlers that are not finished, until the connection goes. */
  ghost predicate ActiveOk(s: S.ServerState) {
    && (forall id :: id in s.activeRequests ==>
          s.activeRequests[id] < |s.handlers| && s.handlers[s.activeRequests[id]].id == id)
    && (!s.disconnected ==> forall k :: 0 <= k < |s.handlers| ==>
          (s.handlers[k].phase != S.Finished <==> Listed(s, k)))
    && (s.disconnected ==> s.activeRequests == map[])
  }

  predicate Listed(s: S.ServerState, k: nat)
    requires k < |s.handlers|
  {
    s.handlers[k].id in s.activeRequests && s.activeRequests[s.handlers[k].id] == k
  }

  /** What a handler's step does to the table. */
  lemma HandlerTable(codec: Codec, s: S.ServerState, a: S.ServerAction)
    requires S.HandlerAction(s, a)
    ensures var t := S.Step(codec, s, a).state; var k := a.handler;
      && |t.handlers| == |s.handlers| && t.disconnected == s.disconnected && t.cancelled == s.cancelled
      && (forall j :: 0 <= j < |s.handlers| && j != k ==> t.handlers[j] == s.handlers[j])
      && t.handlers[k].id == s.handlers[k].id
      && (if t.handlers[k].phase == S.Finished && s.handlers[k].phase != S.Finished && Listed(s, k)
          then t.activeRequests == s.activeRequests - {s.handlers[k].id}
          else t.activeRequests == s.activeRequests)
      && (s.handlers[k].phase == S.Finished ==> t.handlers[k].phase == S.Finished)
  {
    hide S.AfterInvoke, S.AfterSend, S.Publishing;
    match a
    case InvokeSettled(k, r) => InvokeTable(codec, s, k, r);
    case SendSettled(k) => SentTable(codec, s, k);
    case Publish(k, u) => PublishTable(codec, s, k, u);
  }

  /** A handler's own state changes, and nothing of the table. */
  predicate OwnChange(s: S.ServerState, t: S.ServerState, k: nat) {
    && k < |s.handlers| == |t.handlers| && t.disconnected == s.disconnected && t.cancelled == s.cancelled
    && t.activeRequests == s.activeRequests && t.handlers == s.handlers[k := t.handlers[k]]
    && t.handlers[k].id == s.handlers[k].id
  }

  lemma AnswerTable(s: S.ServerState, t: S.ServerState, k: nat, r: S.Invoked, reply: Reply)
    requires OwnChange(s, t, k)
    ensures var u := S.Answer(t, k, r, reply).state; OwnChange(s, u, k) && u.handlers[k].phase == S.Replying
  {
  }

  lemma InvokeTable(codec: Codec, s: S.ServerState, k: nat, r: S.Invoked)
    requires k < |s.handlers|
    ensures var t := S.AfterInvoke(codec, s, k, r).state; OwnChange(s, t, k) && t.handlers[k].phase == S.Replying
  {
    hide S.Answer, OwnChange;
    var h := s.handlers[k];
    var value := Success(if r.ValueResult? then Some(r.value) else None);
    NoChange(s, s, k);
    AnswerTable(s, s, k, r, Failure);
    AnswerTable(s, s, k, r, value);
    if h.call.Unsubscribe? {
      NoChange(s, s.(encoders := s.encoders - {h.call.sub}), k);
      AnswerTable(s, s.(encoders := s.encoders - {h.call.sub}), k, r, value);
    }
    if h.call.Subscribe? && r.SnapshotResult? {
      var stream := History(r.snapshot, []);
      var u := S.WithHandler(s, k, h.(stream := Some(stream))).(encoders := s.encoders[h.call.sub := stream]);
      NoChange(s, u, k);
      AnswerTable(s, u, k, r, Success(Some(codec.encodeSnapshot(r.snapshot))));
    }
  }

  lemma NoChange(s: S.ServerState, t: S.ServerState, k: nat)
    requires k < |s.handlers| && t.disconnected == s.disconnected && t.cancelled == s.cancelled &&
      t.activeRequests == s.activeRequests
    requires |t.handlers| == |s.handlers| && t.handlers == s.handlers[k := t.handlers[k]] &&
      t.handlers[k].id == s.handlers[k].id
    ensures OwnChange(s, t, k)
  {
  }

  lemma UpdateTable(codec: Codec, s: S.ServerState, k: nat, sub: nat, u: Update)
    requires k < |s.handlers|
    ensures var t := S.SendUpdate(codec, s, k, sub, u).state;
      OwnChange(s, t, k) && t.handlers[k].phase == s.handlers[k].phase
  {
    hide Extend;
  }

  lemma PublishTable(codec: Codec, s: S.ServerState, k: nat, u: Update)
    requires k < |s.handlers| && s.handlers[k].call.Subscribe?
    ensures var t := S.Publishing(codec, s, k, u).state;
      OwnChange(s, t, k) && t.handlers[k].phase == s.handlers[k].phase
  {
    var sub := s.handlers[k].call.sub;
    hide S.SendUpdate;
    UpdateTable(codec, s.(published := s.published[sub :=
        (if sub in s.published then s.published[sub] else []) + [u]]), k, sub, u);
  }

  /** A handler that is done leaves the table if it is listed there. */
  predicate Leaves(s: S.ServerState, t: S.ServerState, k: nat) {
    && OwnChange(s, t.(activeRequests := s.activeRequests), k) && t.handlers[k].phase == S.Finished
    && t.activeRequests == if Listed(s, k) then s.activeRequests - {s.handlers[k].id} else s.activeRequests
  }

  lemma FinishTable(s: S.ServerState, t: S.ServerState, k: nat)
    requires OwnChange(s, t, k)
    ensures Leaves(s, S.Finish(t, k), k)
  {
  }

  lemma SentTable(codec: Codec, s: S.ServerState, k: nat)
    requires k < |s.handlers| && (s.handlers[k].phase == S.Replying || s.handlers[k].phase == S.Draining)
    ensures var t := S.AfterSend(codec, s, k).state;
      Leaves(s, t, k) || (OwnChange(s, t, k) && t.handlers[k].phase == S.Draining)
  {
    var h := s.handlers[k];
    hide S.SendUpdate, S.Finish, Leaves;
    NoChange(s, s, k);
    FinishTable(s, s, k);
    var u := S.WithHandler(s, k, h.(gateOpen := true));
    NoChange(s, u, k);
    FinishTable(s, u, k);
    if h.call.Subscribe? && h.answer != Some(Failure) && h.held != [] {
      UpdateTable(codec, S.WithHandler(s, k, h.(phase := S.Draining, held := h.held[1..])), k, h.call.sub, h.held[0]);
    }
  }

  /** One handler more, which is listed unless it is finished at once. */
  lemma OneMoreActive(s: S.ServerState, t: S.ServerState, h: S.Handler)
    requires ActiveOk(s) && !s.disconnected && !t.disconnected && t.handlers == s.handlers + [h]
    requires if h.phase == S.Finished then t.activeRequests == s.activeRequests
      else h.id !in s.activeRequests && t.activeRequests == s.activeRequests[h.id := |s.handlers|]
    ensures ActiveOk(t)
  {
    forall k | 0 <= k < |t.handlers| ensures t.handlers[k].phase != S.Finished <==> Listed(t, k) {
      if k < |s.handlers| { assert t.handlers[k] == s.handlers[k]; }
    }
  }

  lemma BeginActive(s: S.ServerState, id: nat, call: Call)
    requires ActiveOk(s) && !s.disconnected
    ensures ActiveOk(S.BeginRequest(s, id, call).state) && S.BeginRequest(s, id, call).state.cancelled == s.cancelled
  {
    hide ActiveOk;
    var t := S.BeginRequest(s, id, call).state;
    OneMoreActive(s, t, t.handlers[|s.handlers|]);
  }

  lemma DispatchActive(s: S.ServerState, m: ToServer)
    requires ActiveOk(s) && !S.Terminal(s)
    ensures ActiveOk(S.Dispatch(s, m).state) && s.cancelled <= S.Dispatch(s, m).state.cancelled
  {
    if s.stage == S.Ready && m.Request? { BeginActive(s, m.id, m.call); }
    hide S.BeginRequest;
  }

  lemma HandlerActive(codec: Codec, s: S.ServerState, a: S.ServerAction)
    requires ActiveOk(s) && S.HandlerAction(s, a)
    ensures ActiveOk(S.Step(codec, s, a).state) && s.cancelled <= S.Step(codec, s, a).state.cancelled
  {
    HandlerTable(codec, s, a);
    hide S.Step;
    var t := S.Step(codec, s, a).state;
    if !t.disconnected {
      forall k | 0 <= k < |t.handlers| ensures t.handlers[k].phase != S.Finished <==> Listed(t, k) {
        assert s.handlers[k].phase != S.Finished <==> Listed(s, k);
      }
    }
  }

  lemma StepActive(codec: Codec, s: S.ServerState, a: S.ServerAction)
    requires ActiveOk(s)
    ensures ActiveOk(S.Step(codec, s, a).state) && s.cancelled <= S.Step(codec, s, a).state.cancelled
  {
    hide S.Dispatch, S.AfterInvoke, S.AfterSend, S.Publishing;
    if S.HandlerAction(s, a) {
      HandlerActive(codec, s, a);
    } else if a.Receive? && !S.Terminal(s) {
      DispatchActive(s, a.message);
    } else if a.RunDeferred? && s.deferred != [] && s.stage == S.Ready && !s.disconnected {
      DispatchActive(s.(deferred := s.deferred[1..]), s.deferred[0]);
    }
  }

  lemma {:induction false} RunActive(codec: Codec, s: S.ServerState, actions: seq<S.ServerAction>)
    requires ActiveOk(s)
    ensures ActiveOk(S.Run(codec, s, actions).state) && s.cancelled <= S.Run(codec, s, actions).state.cancelled
    decreases |actions|
  {
    hide ActiveOk, S.Step;
    if actions != [] {
      StepActive(codec, s, actions[0]);
      RunActive(codec, S.Step(codec, s, actions[0]).state, actions[1..]);
    }
  }

  /** A cancel that is handled while the handler of its request is not finished marks that handler, for good. */
  lemma CancelMarks(codec: Codec, published: map<nat, seq<Update>>, actions: seq<S.ServerAction>, n: nat, k: nat)
    requires n < |actions|
    requires var s := S.Run(codec, S.NewConnection(published), actions[..n]).state;
      && s.stage == S.Ready && !s.disconnected && k < |s.handlers| && s.handlers[k].phase != S.Finished
      && actions[n] == S.Receive(Cancel(s.handlers[k].id))
    ensures k in S.Run(codec, S.NewConnection(published), actions).state.cancelled
  {
    var first := S.NewConnection(published);
    var s := S.Run(codec, first, actions[..n]).state;
    RunActive(codec, first, actions[..n]);
    assert Listed(s, k);
    RunSplit(codec, first, actions, n);
    StepActive(codec, s, actions[n]);
    RunActive(codec, S.Step(codec, s, actions[n]).state, actions[n..][1..]);
    hide ActiveOk;
  }

  // ---------------------------------------------------------------- after unsubscribing

  /** The step hands a new snapshot to subscription `sub`. */
  predicate Subscribes(s: S.ServerState, a: S.ServerAction, sub: nat) {
    a.InvokeSettled? && a.handler < |s.handlers| && s.handlers[a.handler].call == Subscribe(sub) &&
      a.result.SnapshotResult?
  }

  predicate SubscribesIn(codec: Codec, s: S.ServerState, actions: seq<S.ServerAction>, sub: nat)
    decreases |actions|
  {
    actions != [] &&
      (Subscribes(s, actions[0], sub) || SubscribesIn(codec, S.Step(codec, s, actions[0]).state, actions[1..], sub))
  }

  predicate Silent(ms: seq<ToClient>, sub: nat) {
    forall i :: 0 <= i < |ms| ==> !(ms[i].ServiceUpdate? && ms[i].sub == sub)
  }

  lemma InvokeSilent(codec: Codec, s: S.ServerState, k: nat, r: S.Invoked, sub: nat)
    requires k < |s.handlers| && sub !in s.encoders && !(s.handlers[k].call == Subscribe(sub) && r.SnapshotResult?)
    ensures var o := S.AfterInvoke(codec, s, k, r); sub !in o.state.encoders && Silent(o.sent, sub)
  {
  }

  lemma UpdateSilent(codec: Codec, s: S.ServerState, k: nat, x: nat, u: Update, sub: nat)
    requires k < |s.handlers| && sub !in s.encoders
    ensures var o := S.SendUpdate(codec, s, k, x, u); sub !in o.state.encoders && Silent(o.sent, sub)
  {
    hide Extend;
  }

  lemma SentSilent(codec: Codec, s: S.ServerState, k: nat, sub: nat)
    requires k < |s.handlers| && sub !in s.encoders
    ensures var o := S.AfterSend(codec, s, k); sub !in o.state.encoders && Silent(o.sent, sub)
  {
    var h := s.handlers[k];
    hide S.SendUpdate;
    if h.held != [] && h.call.Subscribe? {
      UpdateSilent(codec, S.WithHandler(s, k, h.(phase := S.Draining, held := h.held[1..])), k, h.call.sub, h.held[0],
                   sub);
    }
  }

  lemma PublishSilent(codec: Codec, s: S.ServerState, k: nat, u: Update, sub: nat)
    requires k < |s.handlers| && s.handlers[k].call.Subscribe? && sub !in s.encoders
    ensures var o := S.Publishing(codec, s, k, u); sub !in o.state.encoders && Silent(o.sent, sub)
  {
    var x := s.handlers[k].call.sub;
    hide S.SendUpdate;
    UpdateSilent(codec, s.(published := s.published[x := (if x in s.published then s.published[x] else []) + [u]]), k,
                 x, u, sub);
  }

  lemma StepSilent(codec: Codec, s: S.ServerState, a: S.ServerAction, sub: nat)
    requires sub !in s.encoders && !Subscribes(s, a, sub)
    ensures var o := S.Step(codec, s, a); sub !in o.state.encoders && Silent(o.sent, sub)
  {
    hide S.AfterInvoke, S.AfterSend, S.Publishing, S.Dispatch;
    if S.HandlerAction(s, a) {
      match a
      case InvokeSettled(k, r) => InvokeSilent(codec, s, k, r, sub);
      case SendSettled(k) => SentSilent(codec, s, k, sub);
      case Publish(k, u) => PublishSilent(codec, s, k, u, sub);
    } else if a.Receive? {
      DispatchSilent(s, a.message, sub);
    } else if a.RunDeferred? && s.deferred != [] {
      DispatchSilent(s.(deferred := s.deferred[1..]), s.deferred[0], sub);
    }
  }

  lemma DispatchSilent(s: S.ServerState, m: ToServer, sub: nat)
    requires sub !in s.encoders
    ensures var o := S.Dispatch(s, m); sub !in o.state.encoders && Silent(o.sent, sub)
  {
  }

  lemma {:induction false} RunSilent(codec: Codec, s: S.ServerState, actions: seq<S.ServerAction>, sub: nat)
    requires sub !in s.encoders && !SubscribesIn(codec, s, actions, sub)
    ensures Silent(S.Run(codec, s, actions).sent, sub)
    decreases |actions|
  {
    hide S.Step;
    if actions != [] {
      StepSilent(codec, s, actions[0], sub);
      RunSilent(codec, S.Step(codec, s, actions[0]).state, actions[1..], sub);
    }
  }

  /** Once an unsubscribe call has succeeded nothing more is sent for its subscription, unless it is opened again. */
  lemma UnsubscribedIsSilent(codec: Codec, s: S.ServerState, actions: seq<S.ServerAction>, k: nat, sub: nat,
                             r: S.Invoked)
    requires actions != [] && actions[0] == S.InvokeSettled(k, r) && !r.Threw?
    requires k < |s.handlers| && s.handlers[k].phase == S.Invoking && s.handlers[k].call == Unsubscribe(sub)
    requires !SubscribesIn(codec, s, actions, sub)
    ensures Silent(S.Run(codec, s, actions).sent, sub)
  {
    var o := S.Step(codec, s, actions[0]);
    assert sub !in o.state.encoders && Silent(o.sent, sub);
    RunSilent(codec, o.state, actions[1..], sub);
    hide S.Step;
  }

  // ---------------------------------------------------------------- what is refused

  /** A handler of that id has not finished. */
  predicate Busy(s: S.ServerState, id: nat) {
    exists k :: 0 <= k < |s.handlers| && s.handlers[k].id == id && s.handlers[k].phase != S.Finished
  }

  lemma BusyIsListed(s: S.ServerState, id: nat)
    requires ActiveOk(s) && !s.disconnected
    ensures Busy(s, id) <==> id in s.activeRequests
  {
    if id in s.activeRequests {
      assert Listed(s, s.activeRequests[id]);
    }
    if Busy(s, id) {
      var k :| 0 <= k < |s.handlers| && s.handlers[k].id == id && s.handlers[k].phase != S.Finished;
      assert Listed(s, k);
    }
  }

  /**
   A request is handed to the service if and only if it can be parsed, no other request of its id is being handled, and
   it does not subscribe to a stream that is open. Any other is answered with a failure at once.
   */
  lemma RefusedIff(codec: Codec, published: map<nat, seq<Update>>, actions: seq<S.ServerAction>, id: nat, call: Call)
    requires var s := S.Run(codec, S.NewConnection(published), actions).state; s.stage == S.Ready && !s.disconnected
    ensures var s := S.Run(codec, S.NewConnection(published), actions).state;
      var o := S.Step(codec, s, S.Receive(Request(id, call)));
      && |o.state.handlers| == |s.handlers| + 1 && o.state.handlers[..|s.handlers|] == s.handlers
      && var h := o.state.handlers[|s.handlers|];
      && h.id == id && h.call == call && h.result.None?
      && if call.Malformed? || Busy(s, id) || (call.Subscribe? && call.sub in s.encoders)
         then h.answer == Some(Failure) && o.sent == if S.CanSend(s) then [Response(id, Failure)] else []
         else h.answer.None? && h.phase == S.Invoking && o.sent == []
  {
    var s := S.Run(codec, S.NewConnection(published), actions).state;
    RunActive(codec, S.NewConnection(published), actions);
    BusyIsListed(s, id);
    hide S.Run, ActiveOk, Busy;
  }

  /**
   The first message must be a hello and no later one may be: a connection ends with the first message that breaks this
   rule, refused while it can still be told. What comes before the handshake has finished waits, in order.
   */
  lemma HelloDecides(codec: Codec, s: S.ServerState, m: ToServer)
    requires !S.Terminal(s)
    ensures var o := S.Step(codec, s, S.Receive(m));
      && (if m.Hello? <==> s.stage == S.AwaitingHello then o.state.stage != S.Closing
          else o.state.stage == S.Closing && o.state.closed && o.sent == if S.CanSend(s) then [Refusal] else [])
      && (m.Hello? && s.stage == S.AwaitingHello ==> o.state == s.(stage := S.Handshaking) && o.sent == [])
      && (!m.Hello? && s.stage == S.Handshaking ==> o.state == s.(deferred := s.deferred + [m]) && o.sent == [])
  {
  }
}
