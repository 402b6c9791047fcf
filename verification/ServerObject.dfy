/**
 The server's connection state as the object it is, its fields assigned where the code assigns them.
 Each method runs to its next await and is one step of RpcServer's state machine.
 */
module ServerObject {
  import opened Common
  import opened RpcProtocol
  import S = RpcServer

  class ServerConnection {
    const codec: Codec
    var stage: S.Stage
    var greeted: bool
    var closed: bool
    var disconnected: bool
    var deferred: seq<ToServer>
    var activeRequests: map<nat, nat>
    var cancelled: set<nat>
    var handlers: seq<S.Handler>
    var serviceStateEncoders: map<nat, History>
    ghost var published: map<nat, seq<Update>>

    ghost function View(): S.ServerState
      reads this
    {
      S.ServerState(stage, greeted, closed, disconnected, deferred, activeRequests, cancelled, handlers,
          serviceStateEncoders, published)
    }

    constructor (codec: Codec, ghost published: map<nat, seq<Update>>)
      ensures View() == S.NewConnection(published) && this.codec == codec
    {
      this.codec := codec;
      stage, greeted, closed, disconnected := S.AwaitingHello, false, false, false;
      deferred, activeRequests, cancelled, handlers, serviceStateEncoders := [], map[], {}, [], map[];
      this.published := published;
    }

    method IsTerminal() returns (r: bool)
      ensures r == S.Terminal(View())
    {
      r := disconnected || stage == S.Closing || stage == S.Closed;
    }

    method SendMessage(m: ToClient) returns (sent: seq<ToClient>)
      ensures S.Out(View(), sent) == S.Send(View(), m)
    {
      sent := if disconnected || closed then [] else [m];
    }

    method FailProtocol() returns (sent: seq<ToClient>)
      modifies this
      ensures S.Out(View(), sent) == S.Step(codec, old(View()), S.FailProtocol)
    {
      sent := [];
      var terminal := IsTerminal();
      if !terminal {
        sent := SendMessage(Refusal);
        stage := S.Closing;
        closed := true;
      }
    }

    /** Runs once: later calls find the connection already disconnected. */
    method Disconnect()
      modifies this
      ensures S.Out(View(), []) == S.Step(codec, old(View()), S.Disconnect)
    {
      if disconnected { return; }
      disconnected := true;
      stage := S.Closed;
      activeRequests := map[];
      serviceStateEncoders := map[];
    }

    method HandleCancel(id: nat)
      modifies this`cancelled
      ensures View() == S.Cancelled(old(View()), id)
    {
      if id in activeRequests { cancelled := cancelled + {activeRequests[id]}; }
    }

    /** The start of a request: it is refused at once, or entered in the table and handed to the service. */
    method HandleRequest(id: nat, call: Call) returns (sent: seq<ToClient>)
      modifies this
      ensures S.Out(View(), sent) == S.BeginRequest(old(View()), id, call)
    {
      var handler := S.Handler(id, call, S.Finished, Some(Failure), None, false, [], None, []);
      if id in activeRequests || call.Malformed? {
        handlers := handlers + [handler];
        sent := SendMessage(Response(id, Failure));
        return;
      }
      activeRequests := activeRequests[id := |handlers|];
      if call.Subscribe? && call.sub !in published { published := published[call.sub := []]; }
      if call.Subscribe? && call.sub in serviceStateEncoders {
        handlers := handlers + [handler.(phase := S.Replying)];
        sent := SendMessage(Response(id, Failure));
      } else {
        handlers := handlers + [handler.(phase := S.Invoking, answer := None, gateOpen := !call.Subscribe?)];
        sent := [];
      }
    }

    method DispatchMessage(m: ToServer) returns (sent: seq<ToClient>)
      requires !S.Terminal(View())
      modifies this
      ensures S.Out(View(), sent) == S.Step(codec, old(View()), S.Receive(m))
    {
      hide S.BeginRequest;
      sent := [];
      if stage == S.AwaitingHello {
        if m.Hello? { stage := S.Handshaking; } else { sent := FailProtocol(); }
      } else if m.Hello? {
        sent := FailProtocol();
      } else if stage == S.Ready {
        match m
        case Cancel(id) => HandleCancel(id);
        case Request(id, call) => sent := HandleRequest(id, call);
      } else if stage == S.Handshaking {
        deferred := deferred + [m];
      }
    }

    /**
     `finishHandshake` once the host has attached its services: the greeting, unless the connection has gone by now.
     */
    method Greet() returns (sent: seq<ToClient>)
      modifies this`greeted
      ensures S.Out(View(), sent) == S.Step(codec, old(View()), S.ClientAttached)
    {
      sent := [];
      if disconnected || stage != S.Handshaking || closed || greeted { return; }
      greeted := true;
      sent := SendMessage(Greeting);
    }

    /** And once the greeting has been sent. */
    method FinishHandshake()
      modifies this`stage
      ensures S.Out(View(), []) == S.Step(codec, old(View()), S.GreetingSent)
    {
      if greeted && !disconnected && stage == S.Handshaking { stage := S.Ready; }
    }

    /** A message that waited for the handshake. */
    method RunDeferred() returns (sent: seq<ToClient>)
      requires deferred != [] && stage != S.Handshaking
      modifies this
      ensures S.Out(View(), sent) == S.Step(codec, old(View()), S.RunDeferred)
    {
      hide S.Dispatch;
      var message := deferred[0];
      deferred := deferred[1..];
      sent := [];
      if stage == S.Ready && !disconnected { sent := DispatchMessage(message); }
    }

    /** The session router tells the client about its attachment. */
    method PublishAttachment() returns (sent: seq<ToClient>)
      ensures S.Out(View(), sent) == S.Step(codec, View(), S.PublishAttachment)
    {
      sent := [];
      if stage == S.Ready { sent := SendMessage(Attachment); }
    }

    /** Records the answer, sends it, and suspends until the send has completed. */
    method Respond(k: nat, r: S.Invoked, reply: Reply) returns (sent: seq<ToClient>)
      requires k < |handlers|
      modifies this`handlers
      ensures S.Out(View(), sent) == S.Answer(old(View()), k, r, reply)
    {
      handlers := handlers[k := handlers[k].(phase := S.Replying, answer := Some(reply), result := Some(r))];
      sent := SendMessage(Response(handlers[k].id, reply));
    }

    /** After the service call: a subscription's encoder is installed before its snapshot is sent. */
    method InvokeSettled(k: nat, r: S.Invoked) returns (sent: seq<ToClient>)
      requires k < |handlers| && handlers[k].phase == S.Invoking
      modifies this
      ensures S.Out(View(), sent) == S.Step(codec, old(View()), S.InvokeSettled(k, r))
    {
      hide S.Answer;
      var call := handlers[k].call;
      var failed := if call.Subscribe? then !r.SnapshotResult? else r.Threw?;
      if failed {
        sent := Respond(k, r, Failure);
      } else if call.Subscribe? {
        var stream := History(r.snapshot, []);
        var encoded := codec.encodeSnapshot(r.snapshot);
        serviceStateEncoders := serviceStateEncoders[call.sub := stream];
        handlers := handlers[k := handlers[k].(stream := Some(stream))];
        sent := Respond(k, r, Success(Some(encoded)));
      } else {
        if call.Unsubscribe? { serviceStateEncoders := serviceStateEncoders - {call.sub}; }
        sent := Respond(k, r, Success(if r.ValueResult? then Some(r.value) else None));
      }
    }

    method SendServiceUpdate(k: nat, sub: nat, u: Update) returns (sent: seq<ToClient>)
      requires k < |handlers|
      modifies this`handlers, this`serviceStateEncoders
      ensures S.Out(View(), sent) == S.SendUpdate(codec, old(View()), k, sub, u)
    {
      sent := [];
      if sub !in serviceStateEncoders {
        handlers := handlers[k := handlers[k].(lost := handlers[k].lost + [u])];
      } else {
        var encoder := serviceStateEncoders[sub];
        var wire := codec.encodeUpdate(encoder, u);
        encoder := Extend(encoder, u);
        serviceStateEncoders := serviceStateEncoders[sub := encoder];
        handlers := handlers[k := handlers[k].(stream := Some(encoder))];
        sent := SendMessage(ServiceUpdate(sub, wire));
      }
    }

    /** The `publish` closure of a subscription's handler. */
    method Publish(k: nat, u: Update) returns (sent: seq<ToClient>)
      requires k < |handlers| && handlers[k].call.Subscribe?
      modifies this
      ensures S.Out(View(), sent) == S.Step(codec, old(View()), S.Publish(k, u))
    {
      hide S.SendUpdate;
      var sub := handlers[k].call.sub;
      published := published[sub := (if sub in published then published[sub] else []) + [u]];
      if !handlers[k].gateOpen {
        handlers := handlers[k := handlers[k].(held := handlers[k].held + [u])];
        sent := [];
      } else {
        sent := SendServiceUpdate(k, sub, u);
      }
    }

    /** The `finally` block: the request leaves the table, unless its id has been taken over. */
    method Leave(k: nat)
      requires k < |handlers|
      modifies this
      ensures View() == S.Finish(old(View()), k)
    {
      var id := handlers[k].id;
      handlers := handlers[k := handlers[k].(phase := S.Finished)];
      if id in activeRequests && activeRequests[id] == k { activeRequests := activeRequests - {id}; }
    }

    /** After a send: one round of the loop that drains what was held back, and the gate opens when nothing is. */
    method SendSettled(k: nat) returns (sent: seq<ToClient>)
      requires k < |handlers| && (handlers[k].phase == S.Replying || handlers[k].phase == S.Draining)
      modifies this
      ensures S.Out(View(), sent) == S.Step(codec, old(View()), S.SendSettled(k))
    {
      hide S.SendUpdate, S.Finish;
      var handler := handlers[k];
      sent := [];
      if !handler.call.Subscribe? || handler.answer == Some(Failure) {
        Leave(k);
      } else if handler.held == [] {
        handlers := handlers[k := handler.(gateOpen := true)];
        Leave(k);
      } else {
        handlers := handlers[k := handler.(phase := S.Draining, held := handler.held[1..])];
        sent := SendServiceUpdate(k, handler.call.sub, handler.held[0]);
      }
    }
  }
}
