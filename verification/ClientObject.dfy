/**
 The client as the object it is: fields updated in place, loops over the pending table and the queues.
 Each method is one step of RpcClient's state machine, so everything proved there holds of the object.
 */
module ClientObject {
  import opened Common
  import opened RpcProtocol
  import C = RpcClient

  class Client {
    const codec: Codec
    var phase: C.Phase
    var requestSequence: nat
    var subscriptionSequence: nat
    var pendingRequests: map<nat, Call>
    var serviceListeners: set<nat>
    var subscriptions: map<nat, C.Listener>
    var settled: map<nat, C.Outcome>
    ghost var calls: map<nat, Call>
    ghost var faults: set<C.Fault>

    ghost function View(): C.ClientState
      reads this
    {
      C.ClientState(phase, requestSequence, subscriptionSequence, pendingRequests, settled, serviceListeners,
          subscriptions, calls, faults)
    }

    ghost predicate Valid()
      reads this
    {
      C.ClientOk(View())
    }

    constructor (codec: Codec)
      ensures Valid() && View() == C.NEW_CLIENT && this.codec == codec
    {
      this.codec := codec;
      phase, requestSequence, subscriptionSequence := C.Offline, 0, 0;
      pendingRequests, serviceListeners, subscriptions := map[], {}, map[];
      settled, calls, faults := map[], map[], {};
    }

    /** Resolves or rejects a promise; only the first outcome counts. */
    method Settle(id: nat, o: C.Outcome)
      modifies this`settled
      ensures View() == C.Settle(old(View()), id, o)
    {
      if id !in settled { settled := settled[id := o]; }
    }

    method TakePendingRequest(id: nat) returns (call: Option<Call>)
      modifies this`pendingRequests
      ensures call == if id in old(pendingRequests) then Some(old(pendingRequests)[id]) else None
      ensures pendingRequests == old(pendingRequests) - {id}
    {
      call := None;
      if id in pendingRequests {
        call := Some(pendingRequests[id]);
        pendingRequests := pendingRequests - {id};
      }
    }

    method RejectPendingRequests(why: C.Reason)
      modifies this`pendingRequests, this`settled
      ensures pendingRequests == map[]
      ensures settled == C.RejectAll(old(View()), why) + old(settled)
    {
      var requests := pendingRequests;
      pendingRequests := map[];
      var left := requests.Keys;
      while left != {}
        invariant left <= requests.Keys && pendingRequests == map[]
        invariant settled == (map id | id in requests.Keys - left :: C.Rejected(why)) + old(settled)
      {
        var id :| id in left;
        left := left - {id};
        Settle(id, C.Rejected(why));
      }
    }

    method HandleDisconnected(why: C.Reason)
      modifies this
      ensures View() == C.Disconnected(old(View()), why)
    {
      if phase != C.Offline {
        phase := C.Offline;
        RejectPendingRequests(why);
        serviceListeners := {};
      }
    }

    method Fail(f: C.Fault)
      modifies this
      ensures View() == C.Fail(old(View()), f)
    {
      HandleDisconnected(C.BadStream);
      faults := faults + {f};
    }

    /** The request enters the table first and leaves it again when its frame cannot be encoded. */
    method Request(call: Call, encodable: bool) returns (sent: seq<ToServer>)
      requires requestSequence + 1 !in pendingRequests
      modifies this
      ensures C.Out(View(), sent) == C.Issue(old(View()), call, encodable)
    {
      sent := [];
      if phase != C.Online { return; }
      requestSequence := requestSequence + 1;
      var id := requestSequence;
      calls := calls[id := call];
      pendingRequests := pendingRequests[id := call];
      if !encodable {
        var _ := TakePendingRequest(id);
        assert pendingRequests == old(pendingRequests);
        Settle(id, C.Rejected(C.NotSent));
      } else {
        sent := [ToServer.Request(id, call)];
      }
    }

    method Register() returns (sub: nat)
      modifies this
      ensures sub == old(subscriptionSequence) + 1
      ensures View() == old(View()).(
                subscriptionSequence := sub,
                registered := old(serviceListeners) + {sub},
                listeners := old(subscriptions)[sub :=
                  if old(phase) == C.Online then C.NEW_LISTENER.(request := Some(old(requestSequence) + 1))
                      else C.NEW_LISTENER])
    {
      subscriptionSequence := subscriptionSequence + 1;
      sub := subscriptionSequence;
      var active := if phase == C.Online then C.NEW_LISTENER.(request := Some(requestSequence + 1)) else C.NEW_LISTENER;
      subscriptions := subscriptions[sub := active];
      serviceListeners := serviceListeners + {sub};
    }

    /** Up to the await. */
    method SubscribeService(encodable: bool) returns (sent: seq<ToServer>)
      requires Valid()
      modifies this
      ensures C.Out(View(), sent) == C.Step(codec, old(View()), C.Subscribing(encodable)) && Valid()
    {
      NextIdUnused();
      C.ClientStepOk(codec, View(), C.Subscribing(encodable));
      hide C.ClientOk, C.Issue;
      var sub := Register();
      sent := Request(Subscribe(sub), encodable);
    }

    lemma NextIdUnused()
      requires Valid()
      ensures requestSequence + 1 !in pendingRequests
    {
    }

    /** `request`, for calls other than the subscription's own. */
    method PlainRequest(call: Call, encodable: bool) returns (sent: seq<ToServer>)
      requires Valid() && !call.Subscribe? && !call.Malformed?
      modifies this
      ensures C.Out(View(), sent) == C.Step(codec, old(View()), C.Requesting(call, encodable)) && Valid()
    {
      NextIdUnused();
      C.ClientStepOk(codec, View(), C.Requesting(call, encodable));
      hide C.ClientOk, C.Issue;
      sent := Request(call, encodable);
    }

    /** Decodes what was queued on the wire before the snapshot came; stops at the first failure. */
    method DecodeQueued(snapshot: Snapshot, queue: seq<Wire>) returns (history: History, ok: bool)
      ensures (history, ok) == C.DecodeAll(codec, History(snapshot, []), queue)
    {
      history, ok := History(snapshot, []), true;
      var i := 0;
      while i < |queue|
        invariant 0 <= i <= |queue| && ok
        invariant C.DecodeAll(codec, History(snapshot, []), queue) == C.DecodeAll(codec, history, queue[i..])
      {
        assert queue[i..][0] == queue[i] && queue[i..][1..] == queue[i + 1..];
        match codec.decodeUpdate(history, queue[i]) {
          case None =>
            ok := false;
            return;
          case Some(u) =>
            history := Extend(history, u);
        }
        i := i + 1;
      }
    }

    /** The transform of a subscribe response. */
    method HydrateListener(sub: nat, result: Option<Wire>) returns (ok: bool)
      requires sub in subscriptions
      modifies this`subscriptions
      ensures sub in subscriptions && (subscriptions[sub], ok) == C.Hydrate(codec, old(subscriptions)[sub], result)
      ensures subscriptions == old(subscriptions)[sub := subscriptions[sub]]
    {
      ok := false;
      if result.Some? {
        var decoded := codec.decodeSnapshot(result.value);
        if decoded.Some? {
          var active := subscriptions[sub];
          var history;
          history, ok := DecodeQueued(decoded.value, active.queuedWire);
          active := active.(history := Some(history), queuedWire := [], queued := active.queued + history.updates);
          subscriptions := subscriptions[sub := active];
        }
      }
    }

    method HandleResponse(id: nat, reply: Reply)
      modifies this
      ensures View() == C.ReceiveResponse(codec, old(View()), id, reply)
    {
      var pending := TakePendingRequest(id);
      if pending.None? {
        assert pendingRequests == old(pendingRequests);
        Fail(C.NoMatchingRequest);
        return;
      }
      if reply.Failure? {
        Settle(id, C.Rejected(C.ByServer));
      } else if pending.value.Subscribe? && pending.value.sub in subscriptions {
        var ok := HydrateListener(pending.value.sub, reply.result);
        if ok {
          Settle(id, C.Resolved(reply.result));
        } else {
          Fail(C.UndecodableStream);
          Settle(id, C.Rejected(C.BadStream));
        }
      } else {
        Settle(id, C.Resolved(reply.result));
      }
    }

    method HandleServiceUpdate(sub: nat, wire: Wire)
      modifies this
      ensures View() == C.ReceiveUpdate(codec, old(View()), sub, wire)
    {
      if sub !in serviceListeners || sub !in subscriptions { return; }
      var active := subscriptions[sub];
      if active.history.None? {
        subscriptions := subscriptions[sub := active.(queuedWire := active.queuedWire + [wire])];
        return;
      }
      match codec.decodeUpdate(active.history.value, wire)
      case None =>
        Fail(C.UndecodableStream);
      case Some(u) =>
        active := active.(history := Some(Extend(active.history.value, u)));
        if active.ready {
          active := active.(scheduled := active.scheduled + [u]);
        } else {
          active := active.(queued := active.queued + [u]);
        }
        subscriptions := subscriptions[sub := active];
    }

    method HandleMessage(m: ToClient)
      requires Valid()
      modifies this
      ensures View() == C.Step(codec, old(View()), C.Receive(m)).state && Valid()
    {
      ghost var before := View();
      match phase {
        case Offline =>
        case Connecting =>
          if m.Greeting? {
            phase := C.Online;
          } else if m.Refusal? {
            HandleDisconnected(C.ByServer);
          } else {
            Fail(C.ExpectedGreeting);
          }
        case Online =>
          match m {
            case Greeting => Fail(C.UnexpectedHandshake);
            case Refusal => Fail(C.UnexpectedHandshake);
            case Attachment =>
            case Response(id, reply) => HandleResponse(id, reply);
            case ServiceUpdate(sub, wire) => HandleServiceUpdate(sub, wire);
          }
      }
      C.ClientStepOk(codec, before, C.Receive(m));
      hide C.ClientOk, C.ReceiveResponse, C.ReceiveUpdate, C.Disconnected, C.Fail;
    }

    /** The application lets updates through: what has waited is scheduled, one by one, in order. */
    method Start(sub: nat)
      requires Valid()
      modifies this
      ensures View() == C.Step(codec, old(View()), C.Start(sub)).state && Valid()
    {
      ghost var before := View();
      if sub in subscriptions {
        var active := subscriptions[sub];
        if active.returned && !active.disposed && !active.ready {
          var waiting := active.queued;
          active := active.(ready := true, queued := []);
          var i := 0;
          while i < |waiting|
            invariant 0 <= i <= |waiting|
            invariant active == before.listeners[sub].(ready := true, queued := [],
              scheduled := before.listeners[sub].scheduled + waiting[..i])
          {
            active := active.(scheduled := active.scheduled + [waiting[i]]);
            i := i + 1;
          }
          assert waiting[..i] == waiting;
          subscriptions := subscriptions[sub := active];
        } else {
          assert subscriptions == subscriptions[sub := subscriptions[sub]];
        }
      }
      C.ClientStepOk(codec, before, C.Start(sub));
      hide C.ClientOk;
    }

    /** Only a client that is offline begins an attempt. */
    method Connect() returns (sent: seq<ToServer>)
      requires Valid()
      modifies this`phase
      ensures C.Out(View(), sent) == C.Step(codec, old(View()), C.Connect) && Valid()
    {
      C.ClientStepOk(codec, View(), C.Connect);
      hide C.ClientOk;
      sent := [];
      if phase == C.Offline {
        phase := C.Connecting;
        sent := [Hello];
      }
    }

    /** `onAbort` and `sendCancel`: the promise is rejected at once, the entry stays until the response comes. */
    method Abort(id: nat) returns (sent: seq<ToServer>)
      requires Valid()
      modifies this`settled
      ensures C.Out(View(), sent) == C.Step(codec, old(View()), C.Aborting(id)) && Valid()
    {
      ghost var before := View();
      sent := [];
      if id in pendingRequests && id !in settled {
        Settle(id, C.Rejected(C.Aborted));
        if phase == C.Online { sent := [Cancel(id)]; }
      }
      C.ClientStepOk(codec, before, C.Aborting(id));
      hide C.ClientOk;
    }

    /** `subscribeService` after its await. */
    method Resume(sub: nat)
      requires Valid()
      modifies this`serviceListeners, this`subscriptions
      ensures View() == C.Step(codec, old(View()), C.SubscribeResumed(sub)).state && Valid()
    {
      ghost var before := View();
      if sub in subscriptions {
        var active := subscriptions[sub];
        var settledYet := active.request.Some? && active.request.value in settled;
        if active.request.None? || (settledYet && !settled[active.request.value].Resolved?) {
          serviceListeners := serviceListeners - {sub};
        } else if settledYet && sub in serviceListeners {
          subscriptions := subscriptions[sub := active.(returned := true)];
        }
      }
      C.ClientStepOk(codec, before, C.SubscribeResumed(sub));
      hide C.ClientOk;
    }

    /** One link of the delivery chain: the listener is called with the oldest scheduled update. */
    method Deliver(sub: nat)
      requires Valid() && sub in subscriptions && subscriptions[sub].scheduled != []
      modifies this`subscriptions
      ensures View() == C.Step(codec, old(View()), C.Deliver(sub)).state && Valid()
      ensures subscriptions[sub].seen == old(subscriptions)[sub].seen + [old(subscriptions)[sub].scheduled[0]]
    {
      C.ClientStepOk(codec, View(), C.Deliver(sub));
      hide C.ClientOk;
      var active := subscriptions[sub];
      subscriptions := subscriptions[sub := active.(seen := active.seen + [active.scheduled[0]],
          scheduled := active.scheduled[1..])];
    }

    /** `dispose` up to its first await. */
    method Dispose(sub: nat)
      requires Valid() && sub in subscriptions && subscriptions[sub].returned
      modifies this`subscriptions, this`serviceListeners
      ensures View() == C.Step(codec, old(View()), C.Dispose(sub)).state && Valid()
    {
      C.ClientStepOk(codec, View(), C.Dispose(sub));
      hide C.ClientOk;
      subscriptions := subscriptions[sub := subscriptions[sub].(disposed := true)];
      serviceListeners := serviceListeners - {sub};
    }

    /** Its `finally` block. */
    method ClearQueues(sub: nat)
      requires Valid() && sub in subscriptions && subscriptions[sub].disposed
      modifies this`subscriptions
      ensures View() == C.Step(codec, old(View()), C.ClearQueues(sub)).state && Valid()
    {
      C.ClientStepOk(codec, View(), C.ClearQueues(sub));
      hide C.ClientOk;
      subscriptions := subscriptions[sub := subscriptions[sub].(queuedWire := [], queued := [])];
    }

    method LoseConnection()
      requires Valid()
      modifies this
      ensures View() == C.Step(codec, old(View()), C.ConnectionLost).state && Valid()
    {
      C.ClientStepOk(codec, View(), C.ConnectionLost);
      hide C.ClientOk, C.Disconnected;
      HandleDisconnected(C.Lost);
    }
  }
}
