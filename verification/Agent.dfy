/**
 The agent and its loop: a nested-loop turn machine with streaming and tool batches, two queues, and
 the state its events are reduced to. The environment (listeners that enqueue or abort, models, tools,
 hooks) is an arbitrary function of time, so a statement about every environment is one about every run.
 */
module Agent {
  import opened Common
  import opened AgentEvents
  import opened AgentLedger
  import opened AgentTools

  datatype QueueMode = All | OneAtATime

  /** How the inner loop ends. */
  datatype Ending = RanOut | Over | CutOff

  /** A queue; `enqueued` and `drained` are its history, `wide` records a drain of several messages. */
  class PendingMessageQueue {
    var messages: seq<Message>
    const mode: QueueMode
    ghost var enqueued: seq<Message>
    ghost var drained: seq<Message>
    ghost var wide: bool

    /** First in, first out, nothing lost. */
    ghost predicate Valid()
      reads this
    {
      enqueued == drained + messages && (mode.OneAtATime? ==> !wide)
    }

    constructor (mode: QueueMode)
      ensures Valid() && messages == [] && this.mode == mode && drained == [] && !wide
    {
      messages, this.mode := [], mode;
      enqueued, drained, wide := [], [], false;
    }

    method Enqueue(ms: seq<Message>)
      requires Valid()
      modifies this`messages, this`enqueued
      ensures Valid() && messages == old(messages) + ms && enqueued == old(enqueued) + ms
    {
      messages := messages + ms;
      enqueued := enqueued + ms;
    }

    method Drain() returns (ms: seq<Message>)
      requires Valid()
      modifies this`messages, this`drained, this`wide
      ensures Valid() && drained == old(drained) + ms && old(messages) == ms + messages
      ensures mode.All? ==> ms == old(messages)
      ensures mode.OneAtATime? ==> |ms| <= 1
      ensures ms == [] <==> old(messages) == []
      ensures wide == (old(wide) || |ms| > 1)
    {
      if mode.All? {
        ms := messages;
        messages := [];
      } else if |messages| == 0 {
        ms := [];
      } else {
        ms := [messages[0]];
        messages := messages[1..];
      }
      drained := drained + ms;
      wide := wide || |ms| > 1;
    }
  }

  // ---------------------------------------------------------------- the agent

  class Agent {
    const env: Environment
    const steering: PendingMessageQueue
    const followUps: PendingMessageQueue
    var clock: nat
    var turn: nat
    var messages: seq<Message>
    var streamingMessage: Option<Message>
    var pendingToolCalls: set<nat>
    var aborted: bool
    /** The run's events, and the transcript before the run; then what earlier runs told from the queues. */
    ghost var trace: seq<Event>
    ghost var base: seq<Message>
    ghost var steered: seq<Message>
    ghost var followed: seq<Message>
    /** The run's decisions, and what had been drained before it. */
    ghost var ledger: seq<Moment>
    ghost var steeringBefore: seq<Message>
    ghost var followUpsBefore: seq<Message>

    constructor (env: Environment, steeringMode: QueueMode, followUpMode: QueueMode, messages: seq<Message>)
      ensures Idle() && fresh(steering) && fresh(followUps) && this.env == env && this.messages == messages
      ensures clock == 0 && turn == 0
      ensures steering.mode == steeringMode && steering.messages == [] && steering.drained == [] && !steering.wide
      ensures followUps.mode == followUpMode && followUps.messages == [] && followUps.drained == [] && !followUps.wide
    {
      this.env := env;
      steering := new PendingMessageQueue(steeringMode);
      followUps := new PendingMessageQueue(followUpMode);
      clock, turn, this.messages, streamingMessage, pendingToolCalls, aborted := 0, 0, messages, None, {}, false;
      trace, base, steered, followed := [], messages, [], [];
      ledger, steeringBefore, followUpsBefore := [], [], [];
    }

    ghost predicate QueuesOk()
      reads steering, followUps
    {
      steering != followUps && steering.Valid() && followUps.Valid()
    }

    ghost predicate Idle()
      reads this, steering, followUps
    {
      QueuesOk() && pendingToolCalls == {} && streamingMessage == None
      && steering.drained == steered && followUps.drained == followed
    }

    ghost predicate Reduced()
      reads this`trace, this`base, this`messages, this`streamingMessage, this`pendingToolCalls
    {
      StateOk(trace, base, messages, streamingMessage, pendingToolCalls)
    }

    /** The ledger tells of the run's marks, of every drain in it, and of the context at each turn's end. */
    ghost predicate Booked()
      reads this`trace, this`base, this`ledger, this`steeringBefore, this`followUpsBefore, steering, followUps
    {
      && steeringBefore <= steering.drained && followUpsBefore <= followUps.drained
      && Books(ledger, trace, steering.drained[|steeringBefore|..], followUps.drained[|followUpsBefore|..])
      && Carries(ledger, trace, base, env.prepare)
    }

    ghost predicate Running()
      reads this`trace, this`base, this`messages, this`streamingMessage, this`pendingToolCalls
      reads this`ledger, this`steeringBefore, this`followUpsBefore, steering, followUps
    {
      QueuesOk() && Reduced() && Booked()
    }

    /** Time passes: listeners and other tasks may enqueue messages, and may abort. */
    method Await()
      requires QueuesOk()
      modifies this`clock, this`aborted, steering, followUps
      ensures QueuesOk() && clock == old(clock) + 1
      ensures aborted == (old(aborted) || env.abort(old(clock)))
      ensures steering.messages == old(steering.messages) + env.steer(old(clock))
      ensures followUps.messages == old(followUps.messages) + env.followUp(old(clock))
      ensures SameDrains() && (old(Booked()) ==> Booked())
    {
      hide Books, Carries;
      steering.Enqueue(env.steer(clock));
      followUps.Enqueue(env.followUp(clock));
      aborted := aborted || env.abort(clock);
      clock := clock + 1;
    }

    twostate predicate SameDrains()
      reads this, steering, followUps
    {
      && steering.drained == old(steering.drained) && followUps.drained == old(followUps.drained)
      && steering.wide == old(steering.wide) && followUps.wide == old(followUps.wide)
      && old(steering.enqueued) <= steering.enqueued && old(followUps.enqueued) <= followUps.enqueued
      && (old(aborted) ==> aborted) && old(clock) <= clock
    }

    /** `processEvents`: reduces the event, then awaits the listeners. */
    method Emit(e: Event)
      requires QueuesOk() && Booked() && Ready(ledger, trace, e)
      requires !Read(ReadAll(trace), e).Broken?
      requires e.AgentStart? ==> trace == [] && messages == base && pendingToolCalls == {} && streamingMessage == None
      requires !e.AgentStart? ==> Reduced()
      modifies this`clock, this`aborted, this`messages, this`streamingMessage, this`pendingToolCalls, this`trace,
          this`ledger, steering, followUps
      ensures Running() && trace == old(trace) + [e] && ledger == LedgerAfter(old(ledger), e)
      ensures ReadAll(trace) == Read(old(ReadAll(trace)), e)
      ensures Told(trace) == MessagesAfter(old(Told(trace)), e)
      ensures forall o :: ToldFrom(trace, o) ==
                            if e.MessageEnd? && e.origin == o then old(ToldFrom(trace, o)) + [e.message]
                                else old(ToldFrom(trace, o))
      ensures Crowded(trace) == (old(Crowded(trace)) || (ReadAll(trace).InTurn? && ReadAll(trace).queued > 1))
      ensures SameDrains() && clock == old(clock) + 1
      ensures steering.messages == old(steering.messages) + env.steer(old(clock))
      ensures followUps.messages == old(followUps.messages) + env.followUp(old(clock))
    {
      ghost var was := trace;
      ToldOn(was, e);
      CrowdedOn(was, e);
      hide Books, Carries, Ready, Read, StateOk, Told, ToldFrom, Crowded;
      if e.AgentStart? {
        StartOk(base);
      } else {
        ReduceOk(trace, e, base, messages, streamingMessage, pendingToolCalls);
      }
      ReadOn(trace, e);
      BooksEvent(ledger, trace, steering.drained[|steeringBefore|..], followUps.drained[|followUpsBefore|..], e);
      CarriesEvent(ledger, trace, base, env.prepare, e);
      Reduce(e);
      trace, ledger := trace + [e], LedgerAfter(ledger, e);
      assert e.AgentStart? ==> was + [e] == [AgentStart];
      Await();
    }

    /** The event switch. */
    method Reduce(e: Event)
      modifies this`messages, this`streamingMessage, this`pendingToolCalls
      ensures messages == MessagesAfter(old(messages), e)
      ensures streamingMessage == StreamingAfter(old(streamingMessage), e)
      ensures pendingToolCalls == PendingAfter(old(pendingToolCalls), e)
    {
      match e
      case MessageStart(m) => streamingMessage := Some(m);
      case MessageUpdate(m) => streamingMessage := Some(m);
      case MessageEnd(m, _) =>
        streamingMessage := None;
        messages := messages + [m];
      case ToolStart(_, id) => pendingToolCalls := pendingToolCalls + {id};
      case ToolEnd(_, id) => pendingToolCalls := pendingToolCalls - {id};
      case AgentEnd(_) => streamingMessage := None;
      case AgentStart =>
      case TurnStart =>
      case TurnEnd(_, _) =>
      case ToolUpdate(_, _) =>
    }

    // -------------------------------------------------------------- telling messages

    /** The reader inside a turn, with no message open and no tool running. */
    ghost predicate Between()
      reads this
    {
      var r := ReadAll(trace);
      r.InTurn? && !r.open && r.running == map[]
    }

    /** Events were added; the queues were not drained. */
    twostate predicate Went()
      reads this, steering, followUps
    {
      && SameDrains() && old(trace) <= trace && base == old(base) && steered == old(steered) &&
         followed == old(followed) && turn == old(turn)
      && ledger == old(ledger) && steeringBefore == old(steeringBefore) && followUpsBefore == old(followUpsBefore)
    }

    /** What the events have told grew by `ms`, all from one origin. */
    twostate predicate Telling(ms: seq<Message>, origin: Origin)
      reads this
    {
      && Told(trace) == old(Told(trace)) + ms
      && (forall o :: ToldFrom(trace, o) == old(ToldFrom(trace, o)) + if o == origin then ms else [])
    }

    method Tell(m: Message, origin: Origin)
      requires Running() && Between()
      modifies this, steering, followUps
      ensures Running() && Between() && Went() && Telling([m], origin)
      ensures trace == old(trace) + [MessageStart(m), MessageEnd(m, origin)]
      ensures ReadAll(trace) == Read(Read(old(ReadAll(trace)), MessageStart(m)), MessageEnd(m, origin))
      ensures Crowded(trace) == (old(Crowded(trace)) || ReadAll(trace).queued > 1)
      ensures clock == old(clock) + 2
      ensures steering.messages == old(steering.messages) + env.steer(old(clock)) + env.steer(old(clock) + 1)
    {
      ghost var was := trace;
      hide Booked, StateOk, ReadAll, Told, ToldFrom, Crowded;
      Emit(MessageStart(m));
      Emit(MessageEnd(m, origin));
      InTurnUncrowded(was);
    }

    // -------------------------------------------------------------- streaming

    /** The reader inside a turn whose response is being streamed, or has been. */
    ghost predicate Streaming(r: Reader, open: bool)
      reads this
    {
      r.InTurn? && ReadAll(trace) == r.(open := open)
    }

    /** Events other than finished messages: nothing told, and no turn more crowded than before. */
    twostate predicate Silent()
      reads this
    {
      && Told(trace) == old(Told(trace))
      && (forall o :: ToldFrom(trace, o) == old(ToldFrom(trace, o)))
      && Crowded(trace) == old(Crowded(trace))
    }

    /**
     The partial message sits at the end of the context while it grows, and the result takes its place;
     without a start event the result is announced when it is complete.
     */
    method StreamAssistantResponse(context: seq<Message>, stream: Stream)
        returns (context': seq<Message>, message: Message)
      requires Running() && Between() && OneStart(stream.events)
      modifies this, steering, followUps
      ensures Running() && Went()
      ensures message == stream.result && context' == context + [message]
      ensures ReadAll(trace) == old(ReadAll(trace)).(responses := old(ReadAll(trace)).responses + [message])
      ensures Telling([message], Response) && Crowded(trace) == old(Crowded(trace))
    {
      ghost var r := ReadAll(trace);
      InTurnUncrowded(trace);
      hide Booked, StateOk, ReadAll, Told, ToldFrom, Crowded;
      var partial: Option<Message> := None;
      var messages := context;
      var i := 0;
      while i < |stream.events| && !stream.events[i].Finished?
        invariant 0 <= i <= |stream.events|
        invariant Running() && Went() && Silent() && Streaming(r, partial.Some?)
        invariant partial.Some? <==> exists j :: 0 <= j < i && stream.events[j].Started?
        invariant messages == context + if partial.Some? then [partial.value] else []
      {
        match stream.events[i] {
          case Started(p) =>
            assert partial.None?;
            partial := Some(p);
            messages := messages + [p];
            Emit(MessageStart(p));
          case Delta(p) =>
            if partial.Some? {
              partial := Some(p);
              messages := messages[|messages| - 1 := p];
              Emit(MessageUpdate(p));
            }
          case Finished =>
        }
        i := i + 1;
      }
      message := stream.result;
      if partial.Some? {
        messages := messages[|messages| - 1 := message];
      } else {
        messages := messages + [message];
      }
      CompleteResponse(r, partial.Some?, message);
      context' := messages;
    }

    method CompleteResponse(ghost r: Reader, announced: bool, message: Message)
      requires Running() && Streaming(r, announced) && !r.open && r.running == map[]
      modifies this, steering, followUps
      ensures Running() && Went() && ReadAll(trace) == r.(responses := r.responses + [message])
      ensures Telling([message], Response) && Crowded(trace) == old(Crowded(trace))
    {
      InTurnUncrowded(trace);
      hide Booked, StateOk, ReadAll, Told, ToldFrom, Crowded;
      if !announced { Emit(MessageStart(message)); }
      Emit(MessageEnd(message, Response));
    }

    // -------------------------------------------------------------- tool batches

    /** The reader in the middle of a batch that began at `r`. */
    ghost predicate Batch(r: Reader, results: seq<Message>, running: map<nat, nat>, done: set<nat>)
      reads this
    {
      && r.InTurn? && ReadAll(trace).InTurn?
      && ReadAll(trace) ==
         r.(results := r.results + results, running := running, done := done, reports := ReadAll(trace).reports)
    }

    /** The reader before a batch: the response has been told, no tool has run. */
    ghost predicate BeforeBatch()
      reads this
    {
      && Between() && ReadAll(trace).done == {} && ReadAll(trace).reports == multiset{}
      && |ReadAll(trace).responses| == 1
    }

    /** What a batch of calls leaves behind: results told in the calls' order, a prefix of the calls answered. */
    twostate predicate BatchTold(calls: seq<Call>, results: seq<Message>, outcomes: seq<Outcome>)
      reads this, steering, followUps
    {
      && Went() && Telling(results, FromTool) && Crowded(trace) == old(Crowded(trace))
      && |outcomes| <= |calls| && results == Results(calls, outcomes)
      && old(ReadAll(trace)).InTurn?
      && Batch(old(ReadAll(trace)), results, map[], Places(|outcomes|))
    }

    /** A tool event inside a turn tells nothing. */
    method EmitTool(e: Event)
      requires Running() && ReadAll(trace).InTurn? && (e.ToolStart? || e.ToolUpdate? || e.ToolEnd?)
      requires !Read(ReadAll(trace), e).Broken?
      modifies this, steering, followUps
      ensures Running() && Went() && Silent() && ReadAll(trace) == Read(old(ReadAll(trace)), e)
    {
      ToolsUncrowded(ReadAll(trace), e);
      InTurnUncrowded(trace);
      hide Booked, StateOk, Read, ReadAll, Told, ToldFrom, Crowded, LedgerAfter, MessagesAfter;
      ToolsTellNothing(ledger, Told(trace), e);
      Emit(e);
      assert Crowded(trace) == old(Crowded(trace));
      assert Silent();
    }

    lemma ToolsTellNothing(l: seq<Moment>, told: seq<Message>, e: Event)
      requires e.ToolStart? || e.ToolUpdate? || e.ToolEnd?
      ensures LedgerAfter(l, e) == l && MessagesAfter(told, e) == told
    {
    }

    lemma ToolsUncrowded(r: Reader, e: Event)
      requires r.InTurn? && (e.ToolStart? || e.ToolUpdate? || e.ToolEnd?) && !Read(r, e).Broken?
      ensures Read(r, e).InTurn? && Read(r, e).queued == r.queued
    {
    }

    /** The reader as it was at `r`, but for reports of the call at place `k`. */
    ghost predicate Heard(r: Reader, k: nat, times: nat)
      reads this`trace
    {
      r.InTurn? && ReadAll(trace) == r.(reports := r.reports[k := r.reports[k] + times])
    }

    method ReportProgress(k: nat, id: nat, updates: nat)
      requires Running() && ReadAll(trace).InTurn? && !ReadAll(trace).open
      requires k in ReadAll(trace).running && ReadAll(trace).running[k] == id
      modifies this, steering, followUps
      ensures Running() && Went() && Silent() && Heard(old(ReadAll(trace)), k, updates)
    {
      hide Booked, StateOk, ReadAll, Told, ToldFrom, Crowded;
      var i := 0;
      while i < updates
        invariant 0 <= i <= updates
        invariant Running() && Went() && Silent() && Heard(old(ReadAll(trace)), k, i)
      {
        EmitTool(ToolUpdate(k, id));
        i := i + 1;
      }
    }

    /** One call in sequential mode, from its start event to its end event. */
    method ExecuteCall(k: nat, call: Call, script: ToolScript) returns (outcome: Outcome, ghost ran: bool)
      requires Running() && Between() && |ReadAll(trace).responses| == 1 && k !in ReadAll(trace).done
      modifies this, steering, followUps
      ensures Running() && Went() && Silent()
      ensures var r := old(ReadAll(trace)); var reported := if ran then script.updates else 0;
        ReadAll(trace) == r.(done := r.done + {k}, reports := r.reports[k := r.reports[k] + reported])
      ensures (ran ==> !Forbidden(script)) && (!aborted ==> ran == !Forbidden(script))
      ensures !aborted ==> outcome == Undisturbed(script) && Honours(script, outcome)
    {
      hide Booked, StateOk, ReadAll, Told, ToldFrom, Crowded, Undisturbed, Honours;
      UndisturbedHonours(script);
      EmitTool(ToolStart(k, call.id));
      outcome, ran := PrepareAndRun(k, call, script);
      assert map[k := call.id] - {k} == map[];
      EmitTool(ToolEnd(k, call.id));
    }

    method PrepareAndRun(k: nat, call: Call, script: ToolScript) returns (outcome: Outcome, ghost ran: bool)
      requires Running() && ReadAll(trace).InTurn? && !ReadAll(trace).open
      requires k in ReadAll(trace).running && ReadAll(trace).running[k] == call.id
      modifies this, steering, followUps
      ensures Running() && Went() && Silent()
      ensures Heard(old(ReadAll(trace)), k, if ran then script.updates else 0)
      ensures (ran ==> !Forbidden(script)) && (!aborted ==> ran == !Forbidden(script))
      ensures !aborted ==> outcome == Undisturbed(script)
    {
      UndisturbedIs(script);
      UndisturbedHonours(script);
      hide Booked, StateOk, ReadAll, Told, ToldFrom, Crowded, Prepare, Finalized, Undisturbed, Forbidden;
      Await();
      var preparation := Prepare(script, aborted);
      ran := preparation.Prepared?;
      if preparation.Immediate? {
        outcome := preparation.outcome;
      } else {
        ReportProgress(k, call.id, script.updates);
        outcome := Finalized(script);
      }
    }

    /** And its result message. */
    method RunCall(k: nat, call: Call, script: ToolScript) returns (outcome: Outcome, ghost ran: bool)
      requires Running() && Between() && |ReadAll(trace).responses| == 1 && k !in ReadAll(trace).done
      modifies this, steering, followUps
      ensures Running() && Went() && Telling([ResultMessage(call, outcome)], FromTool) &&
        Crowded(trace) == old(Crowded(trace))
      ensures var r := old(ReadAll(trace)); var reported := if ran then script.updates else 0;
        ReadAll(trace) == r.(results := r.results + [ResultMessage(call, outcome)], done := r.done + {k},
                             reports := r.reports[k := r.reports[k] + reported])
      ensures (ran ==> !Forbidden(script)) && (!aborted ==> ran == !Forbidden(script))
      ensures !aborted ==> outcome == Undisturbed(script)
    {
      InTurnUncrowded(trace);
      hide Booked, StateOk, ReadAll, Told, ToldFrom, Crowded, Undisturbed, ResultMessage;
      outcome, ran := ExecuteCall(k, call, script);
      Tell(ResultMessage(call, outcome), FromTool);
    }

    /** One call after the other; an abort ends the batch after the call it interrupted. */
    method ExecuteSequential(calls: seq<Call>, scripts: seq<ToolScript>)
        returns (results: seq<Message>, terminate: bool, ghost outcomes: seq<Outcome>)
      requires Running() && BeforeBatch() && |scripts| == |calls|
      modifies this, steering, followUps
      ensures Running() && BatchTold(calls, results, outcomes)
      ensures terminate == TerminatesBatch(outcomes)
      ensures !aborted ==> outcomes == AllUndisturbed(scripts) && AllHonoured(scripts, outcomes)
      ensures Reported(ReadAll(trace).reports, scripts, !aborted)
    {
      hide Booked, StateOk, ReadAll, Told, ToldFrom, Crowded, Undisturbed, ResultMessage, Results, Places,
          ReportedFirst, Forbidden, AllHonoured;
      ReportedNone(scripts);
      ghost var r := ReadAll(trace);
      results, outcomes := [], [];
      var finalized: seq<Outcome> := [];
      var k := 0;
      while k < |calls|
        invariant 0 <= k <= |calls| && |finalized| == k && outcomes == finalized
        invariant Running() && Went() && Telling(results, FromTool) && Crowded(trace) == old(Crowded(trace))
        invariant results == Results(calls, finalized)
        invariant Batch(r, results, map[], Places(k))
        invariant !aborted ==> forall i :: 0 <= i < k ==> finalized[i] == Undisturbed(scripts[i])
        invariant ReportedFirst(ReadAll(trace).reports, scripts, k, !aborted)
      {
        ghost var before, undisturbed, ran := ReadAll(trace).reports, !aborted, false;
        var outcome;
        outcome, ran := RunCall(k, calls[k], scripts[k]);
        ReportedNext(before, scripts, k, if ran then scripts[k].updates else 0, undisturbed, !aborted);
        PlacesNext(k);
        ResultsNext(calls, finalized, outcome);
        assert r.results + (results + [ResultMessage(calls[k], outcome)]) ==
          r.results + results + [ResultMessage(calls[k], outcome)];
        results := results + [ResultMessage(calls[k], outcome)];
        finalized := finalized + [outcome];
        outcomes := finalized;
        k := k + 1;
        if aborted { break; }
      }
      terminate := TerminatesBatch(finalized);
      ReportedSoFar(ReadAll(trace).reports, scripts, k, !aborted);
      AllUndisturbedHonour(scripts);
    }

    /** Calls of a response cut off by the token limit: none is run, each is answered by an error. */
    method FailTruncated(calls: seq<Call>) returns (results: seq<Message>, ghost outcomes: seq<Outcome>)
      requires Running() && BeforeBatch()
      modifies this, steering, followUps
      ensures Running() && BatchTold(calls, results, outcomes)
      ensures outcomes == seq(|calls|, _ => TRUNCATED) && ReadAll(trace).reports == old(ReadAll(trace)).reports
    {
      hide Booked, StateOk, ReadAll, Told, ToldFrom, Crowded;
      ghost var r := ReadAll(trace);
      results, outcomes := [], [];
      var k := 0;
      while k < |calls|
        invariant 0 <= k <= |calls| && outcomes == seq(k, _ => TRUNCATED)
        invariant Running() && Went() && Telling(results, FromTool) && Crowded(trace) == old(Crowded(trace))
        invariant results == Results(calls, outcomes)
        invariant Batch(r, results, map[], Places(k)) && ReadAll(trace).reports == r.reports
      {
        FailCall(k, calls[k]);
        PlacesNext(k);
        ResultsNext(calls, outcomes, TRUNCATED);
        assert r.results + (results + [ResultMessage(calls[k], TRUNCATED)]) ==
          r.results + results + [ResultMessage(calls[k], TRUNCATED)];
        results := results + [ResultMessage(calls[k], TRUNCATED)];
        outcomes := outcomes + [TRUNCATED];
        k := k + 1;
      }
    }

    method FailCall(k: nat, call: Call)
      requires Running() && Between() && |ReadAll(trace).responses| == 1 && k !in ReadAll(trace).done
      modifies this, steering, followUps
      ensures Running() && Went() && Telling([ResultMessage(call, TRUNCATED)], FromTool) &&
        Crowded(trace) == old(Crowded(trace))
      ensures var r := old(ReadAll(trace));
        ReadAll(trace) == r.(results := r.results + [ResultMessage(call, TRUNCATED)], done := r.done + {k})
    {
      InTurnUncrowded(trace);
      hide Booked, StateOk, ReadAll, Told, ToldFrom, Crowded, ResultMessage;
      EmitTool(ToolStart(k, call.id));
      assert map[k := call.id] - {k} == map[];
      EmitTool(ToolEnd(k, call.id));
      Tell(ResultMessage(call, TRUNCATED), FromTool);
    }

    // -------------------------------------------------------------- parallel mode

    /**
     The reader agrees with the entries: what is unfinished is running, what is finished is done, and every call has
     reported as often as it should by now.
     */
    ghost predicate Flying(r: Reader, calls: seq<Call>, scripts: seq<ToolScript>, entries: seq<Entry>)
      reads this`trace
    {
      && |entries| <= |calls| == |scripts| && r.InTurn?
      && var now := ReadAll(trace);
      && now.InTurn? && AllEntitled(now.reports, scripts, entries)
      && now == r.(running := Airborne(calls, entries), done := Landed(entries), reports := now.reports)
    }

    /** Starts every call in order; calls that fail at once end at once, and an abort starts no further call. */
    method StartAll(calls: seq<Call>, scripts: seq<ToolScript>) returns (entries: seq<Entry>)
      requires Running() && BeforeBatch() && |scripts| == |calls|
      modifies this, steering, followUps
      ensures Running() && Went() && Silent()
      ensures |entries| <= |calls| && Flying(old(ReadAll(trace)), calls, scripts, entries)
      ensures forall i :: 0 <= i < |entries| ==> entries[i].Waiting? || entries[i].Ended?
      ensures !aborted ==> |entries| == |calls| && forall i :: 0 <= i < |calls| ==> Faithful(scripts[i], entries[i])
    {
      hide Booked, StateOk, ReadAll, Told, ToldFrom, Crowded, Airborne, Landed, Faithful;
      ghost var r := ReadAll(trace);
      entries := [];
      NothingFlies(calls);
      assert forall i :: 0 <= i < |scripts| ==> ReadAll(trace).reports[i] == 0;
      var k := 0;
      while k < |calls|
        invariant 0 <= k <= |calls| && |entries| == k
        invariant Running() && Went() && Silent() && Flying(r, calls, scripts, entries)
        invariant forall i :: 0 <= i < k ==> entries[i].Waiting? || entries[i].Ended?
        invariant !aborted ==> forall i :: 0 <= i < k ==> Faithful(scripts[i], entries[i])
      {
        var entry := StartCall(r, calls, scripts, entries);
        entries := entries + [entry];
        k := k + 1;
        if aborted { break; }
      }
    }

    method StartCall(ghost r: Reader, calls: seq<Call>, scripts: seq<ToolScript>, entries: seq<Entry>)
        returns (entry: Entry)
      requires Running() && |entries| < |calls| && Flying(r, calls, scripts, entries) && !r.open && |r.responses| == 1
      modifies this, steering, followUps
      ensures Running() && Went() && Silent() && Flying(r, calls, scripts, entries + [entry])
      ensures entry.Waiting? || entry.Ended?
      ensures !aborted ==> Faithful(scripts[|entries|], entry)
    {
      hide Booked, StateOk, ReadAll, Told, ToldFrom, Crowded, Airborne, Landed, Faithful, Prepare, Forbidden,
          FirstEntry;
      AnnounceCall(r, calls, scripts, entries);
      Await();
      entry := FirstEntry(Prepare(scripts[|entries|], aborted));
      StartIs(scripts[|entries|], aborted);
      EndAtOnce(r, calls, scripts, entries, entry);
    }

    /** The reader between a call's start event and its preparation. */
    ghost predicate Announced(r: Reader, calls: seq<Call>, scripts: seq<ToolScript>, entries: seq<Entry>)
      reads this`trace
    {
      && |entries| < |calls| == |scripts| && r.InTurn?
      && var now := ReadAll(trace);
      && now.InTurn? && AllEntitled(now.reports, scripts, entries)
      && now == r.(running := Airborne(calls, entries + [Waiting]), done := Landed(entries + [Waiting]),
                   reports := now.reports)
    }

    method AnnounceCall(ghost r: Reader, calls: seq<Call>, ghost scripts: seq<ToolScript>, entries: seq<Entry>)
      requires Running() && |entries| < |calls| && Flying(r, calls, scripts, entries) && !r.open && |r.responses| == 1
      modifies this, steering, followUps
      ensures Running() && Went() && Silent() && Announced(r, calls, scripts, entries)
    {
      NextPlace(calls, entries, Waiting);
      hide Booked, StateOk, ReadAll, Told, ToldFrom, Crowded, Airborne, Landed, AllEntitled;
      EmitTool(ToolStart(|entries|, calls[|entries|].id));
    }

    /** A call that may not run ends at once; any other waits for its turn to begin. */
    method EndAtOnce(ghost r: Reader, calls: seq<Call>, ghost scripts: seq<ToolScript>, entries: seq<Entry>,
                     entry: Entry)
      requires Running() && Announced(r, calls, scripts, entries) && !r.open
      requires entry.Waiting? || (entry.Ended? && !entry.ran)
      requires Forbidden(scripts[|entries|]) ==> entry.Ended?
      modifies this, steering, followUps
      ensures Running() && Went() && Silent() && Flying(r, calls, scripts, entries + [entry])
    {
      var k := |entries|;
      EntitledNext(ReadAll(trace).reports, scripts, entries, entry);
      NextPlace(calls, entries, Waiting);
      NextPlace(calls, entries, entry);
      hide Booked, StateOk, ReadAll, Told, ToldFrom, Crowded, Airborne, Landed, AllEntitled, Forbidden;
      if entry.Ended? { EmitTool(ToolEnd(k, calls[k].id)); }
    }

    /**
     Every call that is not ended begins to run, in order, and runs to its first await before the next begins; after
     an abort, by a call begun before too, it ends instead.
     */
    method BeginAll(calls: seq<Call>, scripts: seq<ToolScript>, started: seq<Entry>)
        returns (entries: seq<Entry>, ghost begun: nat)
      requires Running() && Flying(ReadAll(trace), calls, scripts, started) && !ReadAll(trace).open
      modifies this, steering, followUps
      ensures Running() && Went() && Silent() && |entries| == |started|
      ensures Flying(old(ReadAll(trace)), calls, scripts, entries)
      ensures NoneWaiting(entries) && begun <= |started| && (begun < |started| ==> aborted)
      ensures forall i :: 0 <= i < |started| ==> SweptTo(started[i], entries[i], i < begun)
      ensures !aborted && AllFaithful(scripts, started) ==> AllFaithful(scripts, entries)
    {
      hide Booked, StateOk, ReadAll, Told, ToldFrom, Crowded, Airborne, Landed, Faithful, Prepare;
      ghost var r := ReadAll(trace);
      entries, begun := started, 0;
      var k := 0;
      while k < |started|
        invariant 0 <= k <= |started| == |entries|
        invariant Running() && Went() && Silent()
        invariant Flying(r, calls, scripts, entries)
        invariant begun <= k && (begun < k ==> aborted)
        invariant forall i :: 0 <= i < k ==> SweptTo(started[i], entries[i], i < begun)
        invariant forall i :: k <= i < |started| ==> entries[i] == started[i]
        invariant !aborted && AllFaithful(scripts, started) ==> AllFaithful(scripts, entries)
      {
        if !aborted { begun := k + 1; }
        if entries[k].Waiting? {
          entries := BeginCall(r, calls, scripts, entries, k);
        }
        k := k + 1;
      }
    }

    method BeginCall(ghost r: Reader, calls: seq<Call>, scripts: seq<ToolScript>, entries: seq<Entry>, k: nat)
        returns (after: seq<Entry>)
      requires Running() && Flying(r, calls, scripts, entries) && k < |entries| && entries[k].Waiting? && !r.open
      modifies this, steering, followUps
      ensures Running() && Went() && Silent()
      ensures |after| == |entries| && after == entries[k := after[k]]
      ensures if old(aborted) then after[k] == Ended(ABORTED, false) else after[k].Executing?
      ensures Flying(r, calls, scripts, after)
      ensures !aborted && Faithful(scripts[k], entries[k]) ==> Faithful(scripts[k], after[k])
    {
      hide Booked, StateOk, ReadAll, Told, ToldFrom, Crowded, Airborne, Landed, Faithful, Prepare, AllEntitled;
      var script := scripts[k];
      FaithfulTo(script);
      var entry := if aborted then Ended(ABORTED, false) else Executing(script.updates);
      EntryMoves(calls, entries, k, entry);
      BeginEntitled(ReadAll(trace).reports, scripts, entries, k, entry);
      after := entries[k := entry];
      if aborted {
        EmitTool(ToolEnd(k, calls[k].id));
      } else {
        Await();
        after := RunToFirstAwait(r, calls, scripts, after, k);
      }
    }

    /** Before its first await a tool may report, as often as the environment picks, and do anything a listener may. */
    method RunToFirstAwait(ghost r: Reader, calls: seq<Call>, scripts: seq<ToolScript>, entries: seq<Entry>, k: nat)
        returns (after: seq<Entry>)
      requires Running() && Flying(r, calls, scripts, entries) && k < |entries| && entries[k].Executing? && !r.open
      modifies this, steering, followUps
      ensures Running() && Went() && Silent()
      ensures |after| == |entries| && after == entries[k := after[k]] && after[k].Executing?
      ensures Flying(r, calls, scripts, after)
      ensures Faithful(scripts[k], entries[k]) ==> Faithful(scripts[k], after[k])
    {
      hide Booked, StateOk, ReadAll, Told, ToldFrom, Crowded, Airborne, Landed, Faithful, StepsLeft;
      after := entries;
      while after[k].updates > 0 && env.reports(clock)
        invariant |after| == |entries| && after == entries[k := after[k]] && after[k].Executing?
        invariant Running() && Went() && Silent()
        invariant Flying(r, calls, scripts, after)
        invariant Faithful(scripts[k], entries[k]) ==> Faithful(scripts[k], after[k])
        decreases StepsLeft(after[k], scripts[k])
      {
        after := Fly(r, calls, scripts, after, k);
      }
    }

    /** One call in flight goes one step further; a report after its run has returned goes nowhere. */
    method Fly(ghost r: Reader, calls: seq<Call>, scripts: seq<ToolScript>, entries: seq<Entry>, k: nat)
        returns (after: seq<Entry>)
      requires Running() && Flying(r, calls, scripts, entries) && k < |entries| && !r.open
      requires entries[k].Executing? || entries[k].Finishing?
      modifies this, steering, followUps
      ensures Running() && Went() && Silent()
      ensures |after| == |entries| && after == entries[k := after[k]] && !after[k].Waiting?
      ensures Flying(r, calls, scripts, after)
      ensures Faithful(scripts[k], entries[k]) ==> Faithful(scripts[k], after[k])
      ensures after[k] == Moved(entries[k], scripts[k])
      ensures StepsLeft(after[k], scripts[k]) < StepsLeft(entries[k], scripts[k])
    {
      var script := scripts[k];
      MovesOn(entries[k], script);
      var entry := Moved(entries[k], script);
      hide Booked, StateOk, ReadAll, Told, ToldFrom, Crowded, Airborne, Landed, Faithful, StepsLeft, Moved;
      after := entries[k := entry];
      TellMove(r, calls, scripts, entries, k, entry);
    }

    method TellMove(ghost r: Reader, calls: seq<Call>, ghost scripts: seq<ToolScript>, ghost entries: seq<Entry>,
                    k: nat, entry: Entry)
      requires Running() && Flying(r, calls, scripts, entries) && k < |entries| && !r.open
      requires (entries[k].Executing? || entries[k].Finishing?) && entry == Moved(entries[k], scripts[k])
      modifies this, steering, followUps
      ensures Running() && Went() && Silent() && Flying(r, calls, scripts, entries[k := entry])
    {
      ghost var reports := ReadAll(trace).reports;
      ReadMove(r.(reports := reports), calls, entries, k, entry);
      StillEntitled(reports, scripts, entries, k);
      hide Booked, StateOk, Read, ReadAll, Told, ToldFrom, Crowded, Airborne, Landed, AllEntitled, Moved;
      if entry.Finishing? {
        Await();
      } else {
        EmitTool(if entry.Executing? then ToolUpdate(k, calls[k].id) else ToolEnd(k, calls[k].id));
      }
    }

    /** Runs the calls in flight, interleaved as the environment picks, until all have ended. */
    method LandAll(calls: seq<Call>, scripts: seq<ToolScript>, begun: seq<Entry>) returns (outcomes: seq<Outcome>)
      requires Running() && Flying(ReadAll(trace), calls, scripts, begun) && !ReadAll(trace).open && NoneWaiting(begun)
      modifies this, steering, followUps
      ensures Running() && Went() && Silent() && |outcomes| == |begun|
      ensures Batch(old(ReadAll(trace)), [], map[], Places(|outcomes|))
      ensures Reported(ReadAll(trace).reports, scripts, |begun| == |scripts| && AllFaithful(scripts, begun))
      ensures AllFaithful(scripts, begun) ==> forall i :: 0 <= i < |outcomes| ==> outcomes[i] == Undisturbed(scripts[i])
    {
      hide Booked, StateOk, ReadAll, Told, ToldFrom, Crowded, Airborne, Landed, Faithful, Prepare, Undisturbed,
          Finalized;
      hide AllFaithful, AllEntitled, NoneWaiting, TotalLeft, StepsLeft, Unfinished, Reported;
      ghost var r := ReadAll(trace);
      var entries := begun;
      var flying := Unfinished(entries);
      while flying != []
        invariant |entries| == |begun| && flying == Unfinished(entries)
        invariant Running() && Went() && Silent()
        invariant Flying(r, calls, scripts, entries)
        invariant NoneWaiting(entries) && (AllFaithful(scripts, begun) ==> AllFaithful(scripts, entries))
        decreases TotalLeft(entries, scripts)
      {
        var k := flying[env.pick(clock) % |flying|];
        UnfinishedAt(entries, env.pick(clock) % |flying|);
        NotWaiting(entries, k);
        ghost var before := entries;
        entries := Fly(r, calls, scripts, entries, k);
        LessLeft(before, scripts, k, entries[k]);
        EntryKeeps(scripts, before, k, entries[k]);
        flying := Unfinished(entries);
      }
      AllEnded(calls, entries);
      EntitledAtEnd(ReadAll(trace).reports, scripts, entries);
      assert r.results + [] == r.results;
      outcomes := seq(|entries|, i requires 0 <= i < |entries| => entries[i].outcome);
      EndedFaithful(scripts, entries);
    }

    /** The result messages, in the order of the calls. */
    method TellResults(calls: seq<Call>, outcomes: seq<Outcome>) returns (results: seq<Message>)
      requires Running() && Between() && |outcomes| <= |calls|
      modifies this, steering, followUps
      ensures Running() && Went() && results == Results(calls, outcomes)
      ensures Telling(results, FromTool) && Crowded(trace) == old(Crowded(trace))
      ensures ReadAll(trace) == old(ReadAll(trace)).(results := old(ReadAll(trace)).results + results)
    {
      InTurnUncrowded(trace);
      hide Booked, StateOk, ReadAll, Told, ToldFrom, Crowded, ResultMessage;
      ghost var r := ReadAll(trace);
      results := [];
      var i := 0;
      while i < |outcomes|
        invariant 0 <= i <= |outcomes| && results == Results(calls, outcomes[..i])
        invariant Running() && Went() && Telling(results, FromTool) && Crowded(trace) == old(Crowded(trace))
        invariant ReadAll(trace) == r.(results := r.results + results)
      {
        var m := ResultMessage(calls[i], outcomes[i]);
        Tell(m, FromTool);
        ResultsNext(calls, outcomes[..i], outcomes[i]);
        assert outcomes[..i + 1] == outcomes[..i] + [outcomes[i]];
        assert r.results + (results + [m]) == r.results + results + [m];
        results := results + [m];
        i := i + 1;
      }
      assert outcomes[..i] == outcomes;
    }

    /** All calls at once; whatever the interleaving, the results come in the calls' order. */
    method ExecuteParallel(calls: seq<Call>, scripts: seq<ToolScript>)
        returns (results: seq<Message>, terminate: bool, ghost outcomes: seq<Outcome>)
      requires Running() && BeforeBatch() && |scripts| == |calls|
      modifies this, steering, followUps
      ensures Running() && BatchTold(calls, results, outcomes)
      ensures terminate == TerminatesBatch(outcomes)
      ensures !aborted ==> outcomes == AllUndisturbed(scripts) && AllHonoured(scripts, outcomes)
      ensures Reported(ReadAll(trace).reports, scripts, !aborted)
    {
      hide Booked, StateOk, ReadAll, Told, ToldFrom, Crowded, Airborne, Landed, Faithful, Prepare, Undisturbed, Results,
          Places;
      ghost var r := ReadAll(trace);
      var entries := StartAll(calls, scripts);
      assert r.results + [] == r.results;
      ghost var begun;
      entries, begun := BeginAll(calls, scripts, entries);
      var finalized := LandAll(calls, scripts, entries);
      outcomes := finalized;
      AllUndisturbedHonour(scripts);
      results := TellResults(calls, finalized);
      terminate := TerminatesBatch(finalized);
    }

    /** The batch of one response: failed when the response was cut off, sequential or parallel otherwise. */
    method ExecuteToolCalls(message: Message) returns (results: seq<Message>, terminate: bool,
        ghost outcomes: seq<Outcome>)
      requires Running() && BeforeBatch()
      modifies this, steering, followUps
      ensures Running() && BatchTold(message.calls, results, outcomes)
      ensures message.stopReason.Length? ==> !terminate && |outcomes| == |message.calls|
      ensures !message.stopReason.Length? ==> terminate == TerminatesBatch(outcomes)
      ensures var scripts := BatchScripts(env, turn, |message.calls|);
        if message.stopReason.Length? then
          outcomes == seq(|message.calls|, _ => TRUNCATED) && ReadAll(trace).reports == multiset{}
        else
          && (!aborted ==> outcomes == AllUndisturbed(scripts) && AllHonoured(scripts, outcomes))
          && Reported(ReadAll(trace).reports, scripts, !aborted)
    {
      hide Booked, StateOk, ReadAll, Told, ToldFrom, Crowded, Undisturbed, Results, Places, Running, TerminatesBatch,
          Batch, AllHonoured, Reported;
      var calls := message.calls;
      if message.stopReason.Length? {
        results, outcomes := FailTruncated(calls);
        terminate := false;
      } else {
        var scripts := BatchScripts(env, turn, |calls|);
        if env.sequential(turn) {
          results, terminate, outcomes := ExecuteSequential(calls, scripts);
        } else {
          results, terminate, outcomes := ExecuteParallel(calls, scripts);
        }
      }
    }

    // -------------------------------------------------------------- the loop

    /**
     Between the steps of a turn: the three transcripts agree, the context up to its last replacement, and what was
     drained from the queues is what has been told of it, followed by `waiting`, drained from `origin` and about to be
     told.
     */
    ghost predicate Agrees(context: seq<Message>, newMessages: seq<Message>, waiting: seq<Message>, origin: Origin)
      reads this`trace, this`base, this`messages, this`streamingMessage, this`pendingToolCalls, this`steered,
          this`followed
      reads this`ledger, this`steeringBefore, this`followUpsBefore, steering, followUps
    {
      && Running()
      && newMessages == Told(trace)
      && context == ContextAfter(ledger, base, Told(trace))
      && steering.drained == steered + ToldFrom(trace, Steering) + (if origin.Steering? then waiting else [])
      && followUps.drained == followed + ToldFrom(trace, FollowUp) + (if origin.FollowUp? then waiting else [])
    }

    ghost predicate NoneWide()
      reads steering, followUps
    {
      !steering.wide && !followUps.wide
    }

    lemma ContextBound()
      requires Running()
      ensures ContextFrom(ledger) <= |Told(trace)|
    {
      hide Told, ContextFrom;
      FromBound(ledger, base, Told(trace), env.prepare);
    }

    lemma AllTold(before: seq<Message>, told: seq<Message>, waiting: seq<Message>)
      ensures before + told + waiting == before + (told + waiting) + []
    {
    }

    /** Injects what waits before the next response. */
    method InjectPending(context: seq<Message>, newMessages: seq<Message>, waiting: seq<Message>, origin: Origin)
      returns (context': seq<Message>, newMessages': seq<Message>)
      requires Agrees(context, newMessages, waiting, origin) && Between() && FromOutside(origin)
      modifies this, steering, followUps
      ensures Agrees(context', newMessages', [], origin) && Went()
      ensures context' == context + waiting && newMessages' == newMessages + waiting
      ensures ReadAll(trace) == old(ReadAll(trace)).(queued :=
        old(ReadAll(trace)).queued + QueuedAmong(|waiting|, origin))
      ensures Crowded(trace) == (old(Crowded(trace)) || ReadAll(trace).queued > 1)
      ensures Since(old(clock), old(steering.messages), |waiting|)
    {
      ContextBound();
      hide Running, Between, StateOk, ReadAll, Told, ToldFrom, Crowded, Since, QueuedAmong, ContextAfter, ContextFrom;
      ContextGrows(ledger, base, Told(trace), waiting);
      AllTold(steered, ToldFrom(trace, Steering), if origin.Steering? then waiting else []);
      AllTold(followed, ToldFrom(trace, FollowUp), if origin.FollowUp? then waiting else []);
      TellAll(waiting, origin);
      context', newMessages' := context + waiting, newMessages + waiting;
    }

    /** Messages from outside: prompts, or what a queue gave. */
    method TellAll(waiting: seq<Message>, origin: Origin)
      requires Running() && Between() && FromOutside(origin)
      modifies this, steering, followUps
      ensures Running() && Went() && Telling(waiting, origin)
      ensures ReadAll(trace) == old(ReadAll(trace)).(queued :=
        old(ReadAll(trace)).queued + QueuedAmong(|waiting|, origin))
      ensures Crowded(trace) == (old(Crowded(trace)) || ReadAll(trace).queued > 1)
      ensures Since(old(clock), old(steering.messages), |waiting|)
    {
      ghost var from, queue, was := clock, steering.messages, trace;
      ProgressStarts(origin);
      hide Running, Between, Booked, StateOk, ReadAll, Told, ToldFrom, Crowded, Since, QueuedAmong, FromOutside,
          Progress;
      TellEach(waiting, origin, was, from, queue);
      ProgressMeans(was, waiting, origin, from, queue);
    }

    method TellEach(waiting: seq<Message>, origin: Origin, ghost was: seq<Event>, ghost from: nat,
        ghost queue: seq<Message>)
      requires Progress(was, [], origin, from, queue) && FromOutside(origin)
      modifies this, steering, followUps
      ensures Progress(was, waiting, origin, from, queue) && Went()
    {
      hide Booked, StateOk, ReadAll, Told, ToldFrom, Crowded, Since, QueuedAmong, FromOutside, Progress;
      var i := 0;
      while i < |waiting|
        invariant 0 <= i <= |waiting| && Went() && Progress(was, waiting[..i], origin, from, queue)
      {
        TellNext(was, waiting[..i], origin, from, queue, waiting[i]);
        assert waiting[..i + 1] == waiting[..i] + [waiting[i]];
        i := i + 1;
      }
      assert waiting[..i] == waiting;
    }

    /** What telling `ms` has done since the trace was `was`. */
    ghost predicate Progress(was: seq<Event>, ms: seq<Message>, origin: Origin, from: nat, queue: seq<Message>)
      reads this, steering, followUps
    {
      var r := ReadAll(was);
      && Running() && r.InTurn? && !r.open && r.running == map[]
      && Told(trace) == Told(was) + ms
      && (forall o :: ToldFrom(trace, o) == ToldFrom(was, o) + if o == origin then ms else [])
      && ReadAll(trace) == r.(queued := r.queued + QueuedAmong(|ms|, origin))
      && Crowded(trace) == (Crowded(was) || ReadAll(trace).queued > 1)
      && Since(from, queue, |ms|)
    }

    lemma ProgressStarts(origin: Origin)
      requires Running() && Between()
      ensures Progress(trace, [], origin, clock, steering.messages)
    {
      InTurnUncrowded(trace);
      SinceNow(clock);
      QueuedNext(0, origin);
      hide Booked, StateOk, ReadAll, Told, ToldFrom, Crowded, Since;
      assert Told(trace) + [] == Told(trace);
    }

    lemma ProgressMeans(was: seq<Event>, ms: seq<Message>, origin: Origin, from: nat, queue: seq<Message>)
      requires Progress(was, ms, origin, from, queue)
      ensures Running() && ReadAll(was).InTurn? && !ReadAll(was).open && ReadAll(was).running == map[]
      ensures Told(trace) == Told(was) + ms
      ensures forall o :: ToldFrom(trace, o) == ToldFrom(was, o) + if o == origin then ms else []
      ensures ReadAll(trace) == ReadAll(was).(queued := ReadAll(was).queued + QueuedAmong(|ms|, origin))
      ensures Crowded(trace) == (Crowded(was) || ReadAll(trace).queued > 1)
      ensures Since(from, queue, |ms|)
    {
      hide Booked, StateOk, ReadAll, Told, ToldFrom, Crowded, Since;
    }

    /** Two awaits have passed for each of `n` messages, and the steering queue has taken in what arrived. */
    ghost predicate Since(from: nat, queue: seq<Message>, n: nat)
      reads this`clock, steering
    {
      clock == from + 2 * n && steering.messages == queue + Arrivals(env.steer, from, clock)
    }

    lemma SinceNow(from: nat)
      requires clock == from
      ensures Since(from, steering.messages, 0)
    {
      ArrivalsTwo(env.steer, from, from);
      assert steering.messages + [] == steering.messages;
    }

    method TellNext(ghost was: seq<Event>, ghost told: seq<Message>, origin: Origin, ghost from: nat,
        ghost queue: seq<Message>, m: Message)
      requires Progress(was, told, origin, from, queue) && FromOutside(origin)
      modifies this, steering, followUps
      ensures Progress(was, told + [m], origin, from, queue) && Went()
    {
      ProgressMeans(was, told, origin, from, queue);
      ProgressEdge(was, told, origin, from, queue);
      hide Booked, StateOk, ReadAll, Told, ToldFrom, Crowded, Since, QueuedAmong, Progress, FromOutside;
      TellOutside(from, queue, |told|, m, origin);
      ProgressGoesOn(was, told, origin, from, queue, m);
    }

    lemma ProgressEdge(was: seq<Event>, told: seq<Message>, origin: Origin, from: nat, queue: seq<Message>)
      requires Progress(was, told, origin, from, queue)
      ensures Between()
    {
      hide Booked, StateOk, ReadAll, Told, ToldFrom, Crowded, Since, QueuedAmong;
    }

    lemma ProgressGoesOn(was: seq<Event>, told: seq<Message>, origin: Origin, from: nat, queue: seq<Message>,
        m: Message)
      requires Running() && ReadAll(was).InTurn? && !ReadAll(was).open && ReadAll(was).running == map[]
      requires Told(trace) == Told(was) + told + [m]
      requires forall o :: ToldFrom(trace, o) == ToldFrom(was, o) + (if o == origin then told
        else []) + if o == origin then [m] else []
      requires ReadAll(trace) == ReadAll(was).(queued :=
        ReadAll(was).queued + QueuedAmong(|told|, origin) + QueuedAmong(1, origin))
      requires Crowded(trace) == (Crowded(was) || ReadAll(was).queued + QueuedAmong(|told|, origin) > 1 ||
        ReadAll(trace).queued > 1)
      requires Since(from, queue, |told| + 1)
      ensures Progress(was, told + [m], origin, from, queue)
    {
      QueuedNext(|told|, origin);
      hide Booked, StateOk, Read, ReadAll, Told, ToldFrom, Crowded, Since, QueuedAmong;
      Associates(Told(was), told, [m]);
      forall o ensures ToldFrom(trace, o) == ToldFrom(was, o) + if o == origin then told + [m] else [] {
        if o == origin {
          Associates(ToldFrom(was, o), told, [m]);
        } else {
          Associates(ToldFrom(was, o), [], []);
        }
      }
    }

    method TellOutside(ghost from: nat, ghost queue: seq<Message>, ghost n: nat, m: Message, origin: Origin)
      requires Running() && Between() && Since(from, queue, n) && FromOutside(origin)
      modifies this, steering, followUps
      ensures Running() && Between() && Went() && Telling([m], origin) && Since(from, queue, n + 1)
      ensures ReadAll(trace) == old(ReadAll(trace)).(queued := old(ReadAll(trace)).queued + QueuedAmong(1, origin))
      ensures Crowded(trace) == (old(Crowded(trace)) || ReadAll(trace).queued > 1)
    {
      ReadMessage(ReadAll(trace), m, origin);
      SinceIs(from, queue, n);
      hide Running, Between, Booked, StateOk, ReadAll, Told, ToldFrom, Crowded, Read, Arrivals, FromOutside,
          QueuedAmong, Since;
      ghost var now := steering.messages;
      Tell(m, origin);
      SinceNext(from, queue, n, now);
    }

    lemma SinceNext(from: nat, queue: seq<Message>, n: nat, now: seq<Message>)
      requires var c := from + 2 * n;
        && clock == c + 2 && now == queue + Arrivals(env.steer, from, c)
        && steering.messages == now + env.steer(c) + env.steer(c + 1)
      ensures Since(from, queue, n + 1)
    {
      hide Arrivals;
      ArrivalsNext(env.steer, from, from + 2 * n, queue, now, steering.messages);
    }

    /** What the caller of the loop's parts may rely on. */
    twostate predicate Kept()
      reads this, steering, followUps
    {
      && old(trace) <= trace && base == old(base) && steered == old(steered) && followed == old(followed) &&
         turn == old(turn)
      && steeringBefore == old(steeringBefore) && followUpsBefore == old(followUpsBefore)
      && old(steering.drained) <= steering.drained && old(followUps.drained) <= followUps.drained
      && (old(steering.wide) ==> steering.wide) && (old(followUps.wide) ==> followUps.wide)
      && (old(aborted) ==> aborted)
    }

    /** One more moment, which leaves the context alone unless it replaces it. */
    lemma RecordNext(x: Moment)
      requires Carries(ledger, trace, base, env.prepare) && !x.Mark?
      requires x.TurnPrepared? ==> x.told == |Told(trace)| && x.answer == env.prepare(x.asked)
      requires x.InHand? ==> x.told == |Told(trace)| && x.context == ContextAfter(ledger, base, Told(trace))
      ensures Carries(ledger + [x], trace, base, env.prepare)
      ensures ContextAfter(ledger + [x], base, Told(trace)) ==
        if Replaces(x) then x.answer.value else ContextAfter(ledger, base, Told(trace))
    {
      ContextOn(ledger, x, base, Told(trace));
      hide Carries, Told, ContextAfter;
      CarriesNext(ledger, trace, base, env.prepare, x);
      assert Replaces(x) ==> x.answer.value + Told(trace)[x.told..] == x.answer.value;
    }

    /** Between turns nothing has been told since the last turn ended. */
    lemma NothingSince(context: seq<Message>, newMessages: seq<Message>, waiting: seq<Message>, origin: Origin)
      requires Agrees(context, newMessages, waiting, origin) && ReadAll(trace) == BetweenTurns
      ensures LastTold(ledger) == |newMessages|
    {
      hide ReadAll, Told, ToldFrom, LastTold, ContextAfter, Books, Handed, CountsIn, CountsOf, StateOk;
    }

    /** A hook's answer, or the context a turn ends with, goes on record. */
    ghost method Record(context: seq<Message>, newMessages: seq<Message>, waiting: seq<Message>, origin: Origin,
                        x: Moment)
      requires Agrees(context, newMessages, waiting, origin) && (x.TurnPrepared? || x.InHand? || x.StopAsked?)
      requires x.TurnPrepared? ==> x.told == |newMessages| && x.answer == env.prepare(x.asked)
      requires x.InHand? ==> x == InHand(context, |newMessages|)
      modifies this`ledger
      ensures Agrees(if Replaces(x) then x.answer.value else context, newMessages, waiting, origin)
      ensures ledger == old(ledger) + [x] && (x.InHand? ==> forall e :: Ready(ledger, trace, e))
    {
      hide Books, Carries, StateOk, ReadAll, Told, ToldFrom, ContextAfter;
      BooksOther(ledger, trace, steering.drained[|steeringBefore|..], followUps.drained[|followUpsBefore|..], x);
      RecordNext(x);
      ledger := ledger + [x];
    }

    /** Nothing has been taken from the queues. */
    twostate predicate Undrained()
      reads steering, followUps
    {
      steering.drained == old(steering.drained) && followUps.drained == old(followUps.drained)
    }

    /** Nothing is waiting, and the steering queue is asked. */
    method PollSteering(ghost context: seq<Message>, ghost newMessages: seq<Message>, ghost origin: Origin)
      returns (waiting: seq<Message>)
      requires Agrees(context, newMessages, [], origin)
      modifies this`clock, this`aborted, this`ledger, steering, followUps
      ensures Agrees(context, newMessages, waiting, Steering) && Kept() && trace == old(trace)
      ensures ledger == old(ledger) + [SteeringPolled(waiting)]
      ensures old(steering.messages) == [] <==> waiting == []
      ensures NoneWide() ==> old(NoneWide()) && |waiting| <= 1
    {
      hide Books, Carries, StateOk, ReadAll, Told, ToldFrom, Crowded, ContextAfter;
      waiting := steering.Drain();
      BooksPoll(ledger, trace, old(steering.drained[|steeringBefore|..]), followUps.drained[|followUpsBefore|..],
          SteeringPolled(waiting));
      assert followUps.drained[|followUpsBefore|..] + [] == followUps.drained[|followUpsBefore|..];
      RecordNext(SteeringPolled(waiting));
      ledger := ledger + [SteeringPolled(waiting)];
      MoreDrained(old(steering.drained), waiting, steeringBefore);
      Await();
    }

    lemma MoreDrained(drained: seq<Message>, more: seq<Message>, before: seq<Message>)
      requires before <= drained
      ensures before <= drained + more && (drained + more)[|before|..] == drained[|before|..] + more
    {
    }

    /** The follow-up queue is asked only when no tool call is left and the steering poll came back empty. */
    method PollFollowUps(ghost context: seq<Message>, ghost newMessages: seq<Message>, ghost origin: Origin)
      returns (followUpMessages: seq<Message>)
      requires Polled(ledger, |ledger|, [], false)
      requires Agrees(context, newMessages, [], origin)
      modifies this`clock, this`aborted, this`ledger, steering, followUps
      ensures Agrees(context, newMessages, followUpMessages, FollowUp) && Kept() && trace == old(trace)
      ensures ledger == old(ledger) + [FollowUpsPolled(followUpMessages)]
      ensures NoneWide() ==> old(NoneWide()) && |followUpMessages| <= 1
    {
      hide Books, Carries, StateOk, ReadAll, Told, ToldFrom, Crowded, ContextAfter;
      followUpMessages := followUps.Drain();
      BooksPoll(ledger, trace, steering.drained[|steeringBefore|..], old(followUps.drained[|followUpsBefore|..]),
                FollowUpsPolled(followUpMessages));
      assert steering.drained[|steeringBefore|..] + [] == steering.drained[|steeringBefore|..];
      RecordNext(FollowUpsPolled(followUpMessages));
      ledger := ledger + [FollowUpsPolled(followUpMessages)];
      MoreDrained(old(followUps.drained), followUpMessages, followUpsBefore);
      Await();
    }

    /** `shouldStopAfterTurn`. */
    method AskStop(ghost context: seq<Message>, ghost newMessages: seq<Message>, ghost origin: Origin)
      returns (stop: bool)
      requires Agrees(context, newMessages, [], origin)
      modifies this`clock, this`aborted, this`ledger, steering, followUps
      ensures Agrees(context, newMessages, [], origin) && Kept() && trace == old(trace)
      ensures ledger == old(ledger) + [StopAsked(stop)] && stop == env.stopAfter(old(clock))
      ensures NoneWide() == old(NoneWide())
    {
      hide Agrees, NoneWide;
      stop := env.stopAfter(clock);
      Record(context, newMessages, [], origin, StopAsked(stop));
      Pause(context, newMessages, [], origin);
    }

    /** Time passes in a hook. */
    method Pause(ghost context: seq<Message>, ghost newMessages: seq<Message>, ghost waiting: seq<Message>,
                 ghost origin: Origin)
      requires Agrees(context, newMessages, waiting, origin)
      modifies this`clock, this`aborted, steering, followUps
      ensures Agrees(context, newMessages, waiting, origin) && Kept() && Undrained() && NoneWide() == old(NoneWide())
    {
      hide Booked, StateOk, ReadAll, Told, ToldFrom, Crowded, ContextAfter;
      Await();
    }

    /** `prepareNextTurn`: an answer replaces the context. */
    method AskPrepare(context: seq<Message>, ghost newMessages: seq<Message>, ghost waiting: seq<Message>,
                      ghost origin: Origin)
      returns (context': seq<Message>)
      requires Agrees(context, newMessages, waiting, origin) && ReadAll(trace) == BetweenTurns
      requires Sound(ledger) && TurnWanted(ledger, |ledger|)
      modifies this`clock, this`aborted, this`ledger, steering, followUps
      ensures Agrees(context', newMessages, waiting, origin) && Kept() && trace == old(trace)
      ensures Sound(ledger) && PreparedFor(ledger, |ledger|)
      ensures Polled(ledger, |ledger| - 1, [], true) == old(Polled(ledger, |ledger|, [], true))
      ensures var answer := env.prepare(old(clock));
        && ledger == old(ledger) + [TurnPrepared(old(clock), answer, |newMessages|)]
        && context' == if answer.Some? then answer.value else context
      ensures Undrained() && NoneWide() == old(NoneWide())
    {
      hide Agrees, NoneWide, ReadAll, LastTold, Sound, TurnWanted, PreparedFor, Polled;
      NothingSince(context, newMessages, waiting, origin);
      var snapshot := env.prepare(clock);
      context' := if snapshot.Some? then snapshot.value else context;
      ghost var x := TurnPrepared(clock, snapshot, |newMessages|);
      PrepareNext(ledger, x);
      Record(context, newMessages, waiting, origin, x);
      Pause(context', newMessages, waiting, origin);
    }

    lemma MarkKeeps(e: Event)
      ensures ContextAfter(LedgerAfter(ledger, e), base, Told(trace)) == ContextAfter(ledger, base, Told(trace))
    {
      ContextOn(ledger, Mark(e), base, Told(trace));
    }

    /** An event that tells no message. */
    method Announce(e: Event, ghost context: seq<Message>, ghost newMessages: seq<Message>,
                    ghost waiting: seq<Message>, ghost origin: Origin)
      requires Agrees(context, newMessages, waiting, origin) && Ready(ledger, trace, e)
      requires !e.MessageEnd? && !e.AgentStart? && !Read(ReadAll(trace), e).Broken?
      modifies this, steering, followUps
      ensures Agrees(context, newMessages, waiting, origin) && Kept() && trace == old(trace) + [e]
      ensures ledger == LedgerAfter(old(ledger), e)
      ensures ReadAll(trace) == Read(old(ReadAll(trace)), e) && Crowded(trace) == old(Crowded(trace))
      ensures Undrained() && NoneWide() == old(NoneWide())
    {
      QueuedGrows(trace, e);
      MarkKeeps(e);
      hide Booked, Ready, StateOk, Read, ReadAll, Told, ToldFrom, Crowded, ContextAfter, LedgerAfter;
      Emit(e);
    }

    /**
     The start of every turn but the first: the hook may replace the context, and what was queued meanwhile is picked
     up.
     */
    method PrepareTurn(context: seq<Message>, newMessages: seq<Message>, waiting: seq<Message>, origin: Origin,
                       ghost owes: bool)
      returns (context': seq<Message>, waiting': seq<Message>, origin': Origin)
      requires Agrees(context, newMessages, waiting, origin) && FromQueue(origin) && ReadAll(trace) == BetweenTurns
      requires Sound(ledger) && Standing(ledger, owes, waiting, origin) && (waiting != [] || (owes && origin.Steering?))
      modifies this, steering, followUps
      ensures Agrees(context', newMessages, waiting', origin') && FromQueue(origin')
      ensures waiting != [] ==> waiting' == waiting && origin' == origin
      ensures ReadAll(trace) == FRESH_TURN && Crowded(trace) == old(Crowded(trace))
      ensures var answer := env.prepare(old(clock));
        && context' == (if answer.Some? then answer.value else context)
        && ledger == old(ledger) + [TurnPrepared(old(clock), answer, |newMessages|)] +
          (if waiting == [] then [SteeringPolled(waiting')] else []) + [Mark(TurnStart)]
      ensures Sound(ledger) && TurnOpen(ledger)
      ensures Kept() && (NoneWide() ==> old(NoneWide()) && (|waiting| <= 1 ==> |waiting'| <= 1))
    {
      StandingMeans(ledger, owes, waiting, origin);
      hide Agrees, Booked, StateOk, ReadAll, Told, ToldFrom, Crowded, NoneWide, Sound, Standing, TurnDue, TurnOpen,
          TurnWanted, PreparedFor, Polled, LastTold;
      context' := AskPrepare(context, newMessages, waiting, origin);
      waiting', origin' := PickUp(context', newMessages, waiting, origin);
      BeginTurn(ledger);
      Announce(TurnStart, context', newMessages, waiting', origin');
    }

    /** Steering is polled again only if the earlier poll returned nothing. */
    method PickUp(ghost context: seq<Message>, ghost newMessages: seq<Message>, waiting: seq<Message>, origin: Origin)
      returns (waiting': seq<Message>, origin': Origin)
      requires Agrees(context, newMessages, waiting, origin) && FromQueue(origin)
      requires waiting == [] ==> origin.Steering?
      requires Sound(ledger) && PreparedFor(ledger, |ledger|)
      requires waiting == [] <==> Polled(ledger, |ledger| - 1, [], true)
      modifies this`clock, this`aborted, this`ledger, steering, followUps
      ensures Agrees(context, newMessages, waiting', origin') && FromQueue(origin')
      ensures waiting != [] ==> waiting' == waiting && origin' == origin
      ensures ledger == old(ledger) + if waiting == [] then [SteeringPolled(waiting')] else []
      ensures Sound(ledger) && TurnDue(ledger, |ledger|) && trace == old(trace)
      ensures Kept() && (NoneWide() ==> old(NoneWide()) && (|waiting| <= 1 ==> |waiting'| <= 1))
    {
      waiting', origin' := waiting, origin;
      assert waiting != [] ==> TurnDue(ledger, |ledger|);
      hide Agrees, Booked, StateOk, ReadAll, Told, ToldFrom, Crowded, NoneWide, Sound, PreparedFor, TurnDue, Polled;
      if waiting == [] {
        waiting' := PollSteering(context, newMessages, origin);
        origin' := Steering;
        PollAgain(old(ledger), waiting');
      }
    }

    // -------------------------------------------------------------- one turn

    method Respond(context: seq<Message>, newMessages: seq<Message>, ghost origin: Origin)
      returns (context': seq<Message>, newMessages': seq<Message>, message: Message)
      requires Agrees(context, newMessages, [], origin) && Between() && OneStart(env.responses(turn).events)
      modifies this, steering, followUps
      ensures Agrees(context', newMessages', [], origin) && Went() && message == env.responses(turn).result
      ensures ReadAll(trace) == old(ReadAll(trace)).(responses := old(ReadAll(trace)).responses + [message])
      ensures Crowded(trace) == old(Crowded(trace))
    {
      ContextBound();
      hide Booked, StateOk, ReadAll, Told, ToldFrom, Crowded, ContextAfter, ContextFrom;
      ContextGrows(ledger, base, Told(trace), [env.responses(turn).result]);
      context', message := StreamAssistantResponse(context, env.responses(turn));
      newMessages' := newMessages + [message];
    }

    method AnswerCalls(context: seq<Message>, newMessages: seq<Message>, ghost origin: Origin, message: Message)
      returns (context': seq<Message>, newMessages': seq<Message>, toolResults: seq<Message>, hasMoreToolCalls: bool)
      requires Agrees(context, newMessages, [], origin) && BeforeBatch() && ReadAll(trace).results == []
      requires !Failed(message) && message.calls != []
      modifies this, steering, followUps
      ensures Agrees(context', newMessages', [], origin) && Went() && Between()
      ensures ReadAll(trace).responses == old(ReadAll(trace)).responses && ReadAll(trace).results == toolResults
      ensures Crowded(trace) == old(Crowded(trace)) && Answers(message, toolResults)
      ensures hasMoreToolCalls == Owes(message, toolResults)
      ensures !aborted ==> AllAnswered(message, toolResults, turn)
    {
      ContextBound();
      hide Booked, StateOk, ReadAll, Told, ToldFrom, Crowded, ContextAfter, ContextFrom;
      ghost var before := Told(trace);
      var terminate;
      toolResults, terminate := RunBatch(message);
      hasMoreToolCalls := !terminate;
      context', newMessages' := context + toolResults, newMessages + toolResults;
      ContextGrows(ledger, base, before, toolResults);
    }

    /** The body of a turn, from injection to its end event. */
    method TakeTurn(context: seq<Message>, newMessages: seq<Message>, waiting: seq<Message>, origin: Origin)
      returns (context': seq<Message>, newMessages': seq<Message>, failed: bool, hasMoreToolCalls: bool,
          toolResults: seq<Message>)
      requires Agrees(context, newMessages, waiting, origin) && FromQueue(origin)
      requires ReadAll(trace).InTurn? && ReadAll(trace) == FRESH_TURN.(queued := ReadAll(trace).queued)
      requires OneStart(env.responses(turn).events)
      modifies this, steering, followUps
      ensures Agrees(context', newMessages', [], origin) && ReadAll(trace) == BetweenTurns && Kept()
      ensures Crowded(trace) == (old(Crowded(trace)) || old(ReadAll(trace)).queued + |waiting| > 1)
      ensures ledger ==
        old(ledger) + [InHand(context', |newMessages'|)] + [Mark(TurnEnd(env.responses(turn).result, toolResults))]
      ensures failed == Failed(env.responses(turn).result) && Answers(env.responses(turn).result, toolResults)
      ensures hasMoreToolCalls == Owes(env.responses(turn).result, toolResults)
      ensures !aborted ==> AllAnswered(env.responses(turn).result, toolResults, turn)
      ensures NoneWide() == old(NoneWide())
    {
      hide Booked, Agrees, StateOk, ReadAll, Told, ToldFrom, Crowded, AllStop, AllAnswered, OneStart;
      NoneToAnswer(env.responses(turn).result);
      var message;
      context', newMessages' := InjectPending(context, newMessages, waiting, origin);
      context', newMessages', message := Respond(context', newMessages', origin);
      failed := message.stopReason.Error? || message.stopReason.Aborted?;
      hasMoreToolCalls := false;
      toolResults := [];
      if !failed && message.calls != [] {
        context', newMessages', toolResults, hasMoreToolCalls := AnswerCalls(context', newMessages', origin, message);
      }
      Record(context', newMessages', [], origin, InHand(context', |newMessages'|));
      Announce(TurnEnd(message, toolResults), context', newMessages', [], origin);
    }

    /** Results for a prefix of the calls, in their order. */
    ghost predicate Answers(message: Message, results: seq<Message>) {
      |results| <= |message.calls| && forall i :: 0 <= i < |results| ==> results[i].id == message.calls[i].id
    }

    /**
     A response that has not failed gets for every call the result its script asks for, and an error if it was cut off.
     */
    ghost predicate AllAnswered(message: Message, results: seq<Message>, turn: nat) {
      !Failed(message) ==>
        && |results| == |message.calls|
        && forall i :: 0 <= i < |results| ==>
          && results[i].answers.Some? && results[i].answers.value.0 == message.calls[i]
          && var o := results[i].answers.value.1;
          if message.stopReason.Length? then o.isError && !o.terminate else Honours(env.tools(turn, i), o)
    }

    lemma NoneToAnswer(message: Message)
      ensures Failed(message) || message.calls == [] ==> AllAnswered(message, [], turn)
    {
    }

    lemma ScriptsAnswered(message: Message, outcomes: seq<Outcome>)
      requires |outcomes| <= |message.calls|
      requires if message.stopReason.Length? then outcomes == seq(|message.calls|, _ => TRUNCATED)
        else AllHonoured(BatchScripts(env, turn, |message.calls|), outcomes)
      ensures AllAnswered(message, Results(message.calls, outcomes), turn)
    {
      hide Honours;
      var results := Results(message.calls, outcomes);
      if !message.stopReason.Length? {
        var scripts := BatchScripts(env, turn, |message.calls|);
        forall i | 0 <= i < |results| ensures Honours(env.tools(turn, i), results[i].answers.value.1) {
          assert Honours(scripts[i], outcomes[i]);
        }
      }
    }

    lemma StopsIff(calls: seq<Call>, outcomes: seq<Outcome>)
      requires |outcomes| <= |calls|
      ensures AllStop(Results(calls, outcomes)) == TerminatesBatch(outcomes)
    {
      var results := Results(calls, outcomes);
      assert forall i :: 0 <= i < |outcomes| ==> results[i].answers == Some((calls[i], outcomes[i]));
    }

    method RunBatch(message: Message) returns (results: seq<Message>, terminate: bool)
      requires Running() && BeforeBatch() && ReadAll(trace).results == []
      modifies this, steering, followUps
      ensures Running() && Went() && Telling(results, FromTool) && Crowded(trace) == old(Crowded(trace))
      ensures Between() && ReadAll(trace).results == results &&
        ReadAll(trace).responses == old(ReadAll(trace)).responses
      ensures Answers(message, results) && (!aborted ==> AllAnswered(message, results, turn))
      ensures terminate == (!message.stopReason.Length? && AllStop(results))
    {
      hide Booked, StateOk, ReadAll, Told, ToldFrom, Crowded, TerminatesBatch, Places, AllStop, AllHonoured, Reported,
          AllAnswered, AllUndisturbed, BatchScripts;
      ghost var outcomes;
      results, terminate, outcomes := ExecuteToolCalls(message);
      StopsIff(message.calls, outcomes);
      if !aborted { ScriptsAnswered(message, outcomes); }
    }

    // -------------------------------------------------------------- the run

    /** Between turns, or in the first turn before anything but the prompts has been told. */
    ghost predicate AtTurnEdge(started: bool, q: nat)
      reads this`trace
    {
      if started then ReadAll(trace) == BetweenTurns else ReadAll(trace) == FRESH_TURN.(queued := q)
    }

    /** When no drain took several messages, a turn is crowded only if the first one got a queued prompt and a poll. */
    ghost predicate CrowdOk(started: bool, q: nat, initial: nat, waiting: seq<Message>)
      reads this`trace, steering, followUps
    {
      NoneWide() ==> |waiting| <= 1 && Crowded(trace) == (q + (if started then initial else 0) > 1)
    }

    /** How a completed run ends: one last event, which carries the transcript all the events have told. */
    ghost predicate RunOver(newMessages: seq<Message>)
      reads this`trace, this`base, this`messages, this`streamingMessage, this`pendingToolCalls, this`steered,
          this`followed
      reads this`ledger, this`steeringBefore, this`followUpsBefore, steering, followUps
    {
      && Running() && ReadAll(trace).AfterRun? && Complete(ledger)
      && trace != [] && trace[|trace| - 1] == AgentEnd(newMessages)
      && newMessages == Told(trace)
      && steering.drained == steered + ToldFrom(trace, Steering)
      && followUps.drained == followed + ToldFrom(trace, FollowUp)
    }

    method EndRun(ghost context: seq<Message>, newMessages: seq<Message>,
        ghost origin: Origin)
      requires Agrees(context, newMessages, [], origin) && ReadAll(trace) == BetweenTurns
      requires Sound(ledger) && EndDue(ledger, |ledger|)
      modifies this, steering, followUps
      ensures RunOver(newMessages) && Kept() && Crowded(trace) == old(Crowded(trace)) && NoneWide() == old(NoneWide())
    {
      hide StateOk, ReadAll, Told, ToldFrom, Crowded, Complete, Sound, EndDue;
      QueuedGrows(trace, AgentEnd(newMessages));
      FinishLedger(ledger, newMessages);
      hide Booked;
      Emit(AgentEnd(newMessages));
    }

    twostate predicate SinceStart()
      reads this, steering, followUps
    {
      old(trace) <= trace && base == old(base) && steered == old(steered) && followed == old(followed) &&
          (NoneWide() ==> old(NoneWide()))
    }

    /** The loop at a turn's edge, with `waiting` to be injected next. */
    ghost predicate LoopOk(context: seq<Message>, newMessages: seq<Message>, waiting: seq<Message>, origin: Origin,
                           started: bool, owes: bool, q: nat, initial: seq<Message>)
      reads this`trace, this`base, this`messages, this`streamingMessage, this`pendingToolCalls, this`steered,
          this`followed
      reads this`ledger, this`steeringBefore, this`followUpsBefore, steering, followUps
    {
      && Agrees(context, newMessages, waiting, origin) && FromQueue(origin)
      && AtTurnEdge(started, q) && CrowdOk(started, q, |initial|, waiting)
      && (!started ==> waiting == initial)
      && Sound(ledger) && if started then Standing(ledger, owes, waiting, origin) else TurnOpen(ledger)
    }

    ghost predicate CrowdedBy(n: nat)
      reads this`trace, steering, followUps
    {
      NoneWide() ==> Crowded(trace) == (n > 1)
    }

    /** The first part of a round: the turn itself. */
    method RunTurn(context: seq<Message>, newMessages: seq<Message>, waiting: seq<Message>, origin: Origin,
                   started: bool, ghost owes: bool, ghost q: nat, ghost initial: seq<Message>)
      returns (context': seq<Message>, newMessages': seq<Message>, failed: bool, hasMoreToolCalls: bool,
               ghost origin': Origin, toolResults: seq<Message>)
      requires LoopOk(context, newMessages, waiting, origin, started, owes, q, initial)
      requires started && waiting == [] ==> owes && origin.Steering?
      requires OneStart(env.responses(turn).events)
      modifies this, steering, followUps
      ensures Agrees(context', newMessages', [], origin') && ReadAll(trace) == BetweenTurns
      ensures CrowdedBy(q + |initial|) && SinceStart() && turn == old(turn) + 1
      ensures Sound(ledger) && TurnEndAt(ledger, |ledger| - 1)
      ensures ledger[|ledger| - 1] == Mark(TurnEnd(env.responses(old(turn)).result, toolResults))
      ensures failed == Failed(env.responses(old(turn)).result) && Answers(env.responses(old(turn)).result, toolResults)
      ensures hasMoreToolCalls == Owes(env.responses(old(turn)).result, toolResults)
      ensures !aborted ==> AllAnswered(env.responses(old(turn)).result, toolResults, old(turn))
    {
      hide Agrees, StateOk, ReadAll, Told, ToldFrom, Crowded, NoneWide, Sound, Standing, TurnOpen, Owes;
      context' := context;
      var waiting', from := waiting, origin;
      if started {
        context', waiting', from := PrepareTurn(context, newMessages, waiting, origin, owes);
      }
      ghost var begun := ledger;
      context', newMessages', failed, hasMoreToolCalls, toolResults := TakeTurn(context', newMessages, waiting', from);
      EndTurn(begun, context', |newMessages'|, env.responses(turn).result, toolResults);
      origin' := from;
      turn := turn + 1;
    }

    /**
     One round of the inner loop: a turn, the ways a run can end after it, and the steering poll. The loop
     goes on for tool calls exactly if the turn has not failed, made calls, and not all of them ask to stop.
     */
    method Round(context: seq<Message>, newMessages: seq<Message>, waiting: seq<Message>, origin: Origin,
                 started: bool, ghost owes: bool, ghost q: nat, ghost initial: seq<Message>)
      returns (context': seq<Message>, newMessages': seq<Message>, waiting': seq<Message>,
               hasMoreToolCalls: bool, over: bool, ghost toolResults: seq<Message>)
      requires LoopOk(context, newMessages, waiting, origin, started, owes, q, initial)
      requires started && waiting == [] ==> owes && origin.Steering?
      requires OneStart(env.responses(turn).events)
      modifies this, steering, followUps
      ensures over ==> RunOver(newMessages') && CrowdedBy(q + |initial|)
      ensures !over ==> LoopOk(context', newMessages', waiting', Steering, true, hasMoreToolCalls, q, initial)
      ensures hasMoreToolCalls == Owes(env.responses(old(turn)).result, toolResults) &&
        Answers(env.responses(old(turn)).result, toolResults)
      ensures !aborted ==> AllAnswered(env.responses(old(turn)).result, toolResults, old(turn))
      ensures Failed(env.responses(old(turn)).result) ==> over
      ensures SinceStart() && turn == old(turn) + 1
    {
      hide Agrees, StateOk, ReadAll, Told, ToldFrom, Crowded, LoopOk, RunOver, NoneWide, Sound, Owes, EndDue, Polled,
          Asked, Answers, OneStart;
      var failed;
      ghost var from;
      context', newMessages', failed, hasMoreToolCalls, from, toolResults :=
        RunTurn(context, newMessages, waiting, origin, started, owes, q, initial);
      waiting', over := [], failed;
      ghost var ended := ledger;
      if !failed {
        over := AskStop(context', newMessages', from);
        Ask(ended, over);
      }
      if over {
        EndOfRound(ended, ledger);
        EndRun(context', newMessages', from);
      } else {
        waiting' := PollSteering(context', newMessages', from);
        Poll(ended, waiting');
        LoopAgain(context', newMessages', waiting', Steering, hasMoreToolCalls, q, initial);
      }
    }

    lemma LoopAgain(context: seq<Message>, newMessages: seq<Message>, waiting: seq<Message>,
                    origin: Origin, owes: bool, q: nat, initial: seq<Message>)
      requires Agrees(context, newMessages, waiting, origin) && FromQueue(origin) &&
        ReadAll(trace) == BetweenTurns
      requires CrowdedBy(q + |initial|) && (NoneWide() ==> |waiting| <= 1)
      requires Sound(ledger) && Standing(ledger, owes, waiting, origin)
      ensures LoopOk(context, newMessages, waiting, origin, true, owes, q, initial)
    {
    }

    /** The inner loop has run out: ask for follow-ups. */
    method AfterInnerLoop(ghost context: seq<Message>, ghost newMessages: seq<Message>,
                          ghost origin: Origin, ghost q: nat, ghost initial: seq<Message>)
      returns (followUpMessages: seq<Message>)
      requires LoopOk(context, newMessages, [], origin, true, false, q, initial) && origin.Steering?
      modifies this`clock, this`aborted, this`ledger, steering, followUps
      ensures LoopOk(context, newMessages, followUpMessages, FollowUp, true, true, q, initial) &&
        SinceStart()
      ensures old(CrowdedBy(q + |initial|)) ==> CrowdedBy(q + |initial|)
    {
      hide Agrees, StateOk, ReadAll, Told, ToldFrom, Crowded, NoneWide, Sound, Polled;
      followUpMessages := PollFollowUps(context, newMessages, origin);
      PollLast(old(ledger), followUpMessages);
      LoopAgain(context, newMessages, followUpMessages, FollowUp, true, q, initial);
    }

    method FinishLoop(ghost context: seq<Message>, newMessages: seq<Message>,
                      ghost origin: Origin, ghost owes: bool, ghost q: nat, ghost initial: seq<Message>)
      requires LoopOk(context, newMessages, [], origin, true, owes, q, initial) && origin.FollowUp?
      modifies this, steering, followUps
      ensures RunOver(newMessages) && CrowdedBy(q + |initial|) && SinceStart()
    {
      hide Agrees, StateOk, ReadAll, Told, ToldFrom, Crowded, RunOver, NoneWide, Sound;
      EndRun(context, newMessages, origin);
    }

    /** What the initial poll finds; skipped when a queued steering message is itself the prompt. */
    method FirstPoll(ghost context: seq<Message>, ghost newMessages: seq<Message>, skip: bool, ghost q: nat)
      returns (waiting: seq<Message>)
      requires Agrees(context, newMessages, [], Steering)
      requires ReadAll(trace) == FRESH_TURN.(queued := q) && CrowdedBy(q) &&
        ledger == [Mark(AgentStart), Mark(TurnStart)]
      modifies this`clock, this`aborted, this`ledger, steering, followUps
      ensures LoopOk(context, newMessages, waiting, Steering, false, true, q, waiting)
      ensures SinceStart() && trace == old(trace) && (NoneWide() ==> |waiting| <= 1)
      ensures waiting == [] <==> skip || old(steering.messages) == []
    {
      FirstLedger();
      hide Agrees, StateOk, ReadAll, Told, ToldFrom, Crowded, NoneWide, Sound;
      waiting := [];
      if !skip {
        waiting := PollSteering(context, newMessages, Steering);
        PollFirst(waiting);
      }
    }

    /** A run that was cut off: the transcripts agree, and at most one drained batch has still to be told. */
    ghost predicate Interrupted(newMessages: seq<Message>)
      reads this`trace, this`base, this`messages, this`streamingMessage, this`pendingToolCalls, this`steered,
          this`followed
      reads this`ledger, this`steeringBefore, this`followUpsBefore, steering, followUps
    {
      && Running() && !ReadAll(trace).Broken? && newMessages == Told(trace) && messages == base + newMessages &&
         Sound(ledger)
      && exists context, waiting, origin :: Agrees(context, newMessages, waiting, origin)
    }

    /**
     The body of the outer loop: turns, as long as tool calls or waiting messages want them, and then the
     follow-ups. `fuel` bounds the turns; the ending says whether the run is over or was cut off among them.
     */
    method RunTurns(context0: seq<Message>, newMessages0: seq<Message>, waiting0: seq<Message>, origin0: Origin,
                    started0: bool, ghost q: nat, ghost initial: seq<Message>, fuel: nat)
      returns (context: seq<Message>, newMessages: seq<Message>, waiting: seq<Message>, left: nat, ending: Ending)
      requires LoopOk(context0, newMessages0, waiting0, origin0, started0, true, q, initial)
      requires started0 ==> waiting0 != []
      requires forall n :: OneStart(env.responses(n).events)
      modifies this, steering, followUps
      ensures left <= fuel && (!ending.CutOff? ==> left < fuel)
      ensures ending.RanOut? ==> LoopOk(context, newMessages, waiting, FollowUp, true, true, q, initial)
      ensures ending.Over? ==> RunOver(newMessages)
      ensures ending.CutOff? ==> Interrupted(newMessages)
      ensures started0 || fuel > 0 ==> CrowdedBy(q + |initial|)
      ensures SinceStart()
    {
      hide Agrees, StateOk, ReadAll, Told, ToldFrom, Crowded, RunOver, Interrupted, LoopOk, CrowdedBy, NoneWide,
          OneStart, Owes, Answers;
      context, newMessages, waiting, left := context0, newMessages0, waiting0, fuel;
      var origin, started, hasMoreToolCalls := origin0, started0, true;
      while hasMoreToolCalls || waiting != []
        invariant LoopOk(context, newMessages, waiting, origin, started, hasMoreToolCalls, q, initial) && SinceStart()
        invariant left <= fuel && (left == fuel ==> started == started0 && waiting == waiting0 && hasMoreToolCalls)
        invariant left < fuel ==> started && origin.Steering?
        decreases left
      {
        if left == 0 {
          LoopCut(context, newMessages, waiting, origin, started, hasMoreToolCalls, q, initial);
          ending := CutOff;
          return;
        }
        left := left - 1;
        var over;
        ghost var toolResults;
        context, newMessages, waiting, hasMoreToolCalls, over, toolResults :=
          Round(context, newMessages, waiting, origin, started, hasMoreToolCalls, q, initial);
        started, origin := true, Steering;
        if over {
          ending := Over;
          return;
        }
      }
      LoopCrowd(context, newMessages, waiting, origin, started, hasMoreToolCalls, q, initial);
      waiting := AfterInnerLoop(context, newMessages, origin, q, initial);
      ending := RanOut;
    }

    /**
     The nested loops. `fuel` bounds the turns: a run that needs more is cut off and reported incomplete.
     `initial` is what the first steering poll returned.
     */
    method RunLoop(context0: seq<Message>, newMessages0: seq<Message>, skipInitialPoll: bool,
                   ghost q: nat, fuel: nat)
      returns (newMessages: seq<Message>, completed: bool, ghost initial: seq<Message>)
      requires Agrees(context0, newMessages0, [], Steering)
      requires ReadAll(trace) == FRESH_TURN.(queued := q) && CrowdedBy(q) &&
        ledger == [Mark(AgentStart), Mark(TurnStart)]
      requires forall n :: OneStart(env.responses(n).events)
      modifies this, steering, followUps
      ensures if completed then RunOver(newMessages) else Interrupted(newMessages)
      ensures completed || fuel > 0 ==> CrowdedBy(q + |initial|)
      ensures NoneWide() ==> |initial| <= 1
      ensures initial == [] <==> skipInitialPoll || old(steering.messages) == []
      ensures SinceStart()
    {
      hide Agrees, StateOk, ReadAll, Told, ToldFrom, Crowded, RunOver, Interrupted, LoopOk, CrowdedBy, NoneWide,
          OneStart;
      var waiting := FirstPoll(context0, newMessages0, skipInitialPoll, q);
      initial := waiting;
      assert SinceStart();
      newMessages, completed := RunOuter(context0, newMessages0, waiting, q, fuel);
    }

    /** The outer loop, from the first poll's result on. */
    method RunOuter(context0: seq<Message>, newMessages0: seq<Message>, initial: seq<Message>, ghost q: nat, fuel: nat)
      returns (newMessages: seq<Message>, completed: bool)
      requires LoopOk(context0, newMessages0, initial, Steering, false, true, q, initial)
      requires forall n :: OneStart(env.responses(n).events)
      modifies this, steering, followUps
      ensures if completed then RunOver(newMessages) else Interrupted(newMessages)
      ensures completed || fuel > 0 ==> CrowdedBy(q + |initial|)
      ensures SinceStart()
    {
      hide Agrees, StateOk, ReadAll, Told, ToldFrom, Crowded, RunOver, Interrupted, LoopOk, CrowdedBy, NoneWide,
          OneStart;
      var context := context0;
      newMessages := newMessages0;
      var waiting := initial;
      var left, started := fuel, false;
      while true
        invariant LoopOk(context, newMessages, waiting, if started then FollowUp else Steering, started, true, q,
                         initial)
        invariant SinceStart()
        invariant started ==> waiting != []
        invariant !started ==> left == fuel
        decreases left
      {
        var ending;
        context, newMessages, waiting, left, ending :=
          RunTurns(context, newMessages, waiting, if started then FollowUp else Steering, started, q, initial, left);
        if !ending.RanOut? {
          completed := ending.Over?;
          return;
        }
        started := true;
        if waiting == [] { break; }
      }
      FinishLoop(context, newMessages, FollowUp, true, q, initial);
      completed := true;
    }

    lemma LoopCut(context: seq<Message>, newMessages: seq<Message>, waiting: seq<Message>,
                  origin: Origin, started: bool, owes: bool, q: nat, initial: seq<Message>)
      requires LoopOk(context, newMessages, waiting, origin, started, owes, q, initial)
      ensures Interrupted(newMessages)
      ensures started ==> CrowdedBy(q + |initial|)
    {
      StateTold();
      LoopCrowd(context, newMessages, waiting, origin, started, owes, q, initial);
      hide StateOk, Booked, Told, ToldFrom, Crowded, ReadAll, Sound, Standing, ContextAfter;
      assert Agrees(context, newMessages, waiting, origin);
    }

    lemma LoopCrowd(context: seq<Message>, newMessages: seq<Message>, waiting: seq<Message>,
                    origin: Origin, started: bool, owes: bool, q: nat, initial: seq<Message>)
      requires LoopOk(context, newMessages, waiting, origin, started, owes, q, initial)
      ensures started ==> CrowdedBy(q + |initial|)
    {
      hide Agrees, Crowded, ReadAll, Sound, Standing;
    }

    lemma StateTold()
      requires Running()
      ensures !ReadAll(trace).Broken? && messages == base + Told(trace)
    {
      hide Booked;
    }

    /** A run's ledger is empty before its first event. */
    ghost predicate NewLedger()
      reads this`ledger, this`steeringBefore, this`followUpsBefore, steering, followUps
    {
      ledger == [] && steeringBefore == steering.drained && followUpsBefore == followUps.drained
    }

    lemma NothingBooked()
      requires NewLedger() && trace == []
      ensures Booked() && ledger == []
    {
      BooksNothing();
      CarriesNothing(base, env.prepare);
    }

    /** The first two events of every run. */
    method Open(context: seq<Message>)
      requires QueuesOk() && NewLedger() && pendingToolCalls == {} && streamingMessage == None
      requires trace == [] && messages == base == context
      modifies this, steering, followUps
      ensures Running() && SameDrains() && Between() && ReadAll(trace) == FRESH_TURN && !Crowded(trace)
      ensures base == old(base) && steered == old(steered) && followed == old(followed) && turn == old(turn)
      ensures ledger == [Mark(AgentStart), Mark(TurnStart)]
      ensures Told(trace) == [] && forall o :: ToldFrom(trace, o) == []
      ensures Since(old(clock), old(steering.messages), 1)
    {
      NothingTold();
      NothingBooked();
      SinceNow(clock);
      SinceIs(clock, steering.messages, 0);
      hide NewLedger, Booked, StateOk, Read, ReadAll, Told, ToldFrom, Crowded, Arrivals, Since;
      ghost var now, c := steering.messages, clock;
      Emit(AgentStart);
      Emit(TurnStart);
      ArrivalsNext(env.steer, c, c, now, now, steering.messages);
      SinceHolds(c, now, 1);
    }

    /** The events before the loop: start, turn, prompts. */
    method OpenWith(prompts: seq<Message>, origin: Origin, context: seq<Message>)
      requires QueuesOk() && NewLedger() && pendingToolCalls == {} && streamingMessage == None
      requires trace == [] && messages == base == context && FromOutside(origin)
      requires steering.drained == steered + (if origin.Steering? then prompts else [])
      requires followUps.drained == followed + (if origin.FollowUp? then prompts else [])
      modifies this, steering, followUps
      ensures Agrees(context + prompts, prompts, [], Steering) && SinceStart()
      ensures ledger == [Mark(AgentStart), Mark(TurnStart)]
      ensures ReadAll(trace) == FRESH_TURN.(queued := QueuedAmong(|prompts|, origin)) &&
        CrowdedBy(QueuedAmong(|prompts|, origin))
      ensures (steering.messages == []) == (old(steering.messages) == [] &&
        Arrivals(env.steer, old(clock), old(clock) + 2 + 2 * |prompts|) == [])
    {
      hide NewLedger, Booked, StateOk, ReadAll, Told, ToldFrom, Crowded, Arrivals, Agrees, FromOutside, QueuedAmong,
          CrowdedBy, Since;
      ghost var from, queue := clock, steering.messages;
      Open(context);
      FreshAgrees(prompts, origin, context);
      ghost var middle := steering.messages;
      SinceIs(from, queue, 1);
      Inject(prompts, origin, context);
      SinceBefore(from, queue, middle, |prompts|);
    }

    lemma SinceIs(from: nat, queue: seq<Message>, n: nat)
      requires Since(from, queue, n)
      ensures clock == from + 2 * n && steering.messages == queue + Arrivals(env.steer, from, clock)
    {
    }

    lemma SinceHolds(from: nat, queue: seq<Message>, n: nat)
      requires clock == from + 2 * n && steering.messages == queue + Arrivals(env.steer, from, clock)
      ensures Since(from, queue, n)
    {
    }

    lemma SinceBefore(from: nat, queue: seq<Message>, middle: seq<Message>, n: nat)
      requires middle == queue + Arrivals(env.steer, from, from + 2) && Since(from + 2, middle, n)
      ensures (steering.messages == []) == (queue == [] && Arrivals(env.steer, from, from + 2 + 2 * n) == [])
    {
      ArrivalsJoin(env.steer, from, from + 2, from + 2 + 2 * n);
      hide Arrivals;
      var a, b := Arrivals(env.steer, from, from + 2), Arrivals(env.steer, from + 2, from + 2 + 2 * n);
      assert |steering.messages| == |queue| + |a| + |b|;
    }

    lemma FreshAgrees(prompts: seq<Message>, origin: Origin, context: seq<Message>)
      requires Running() && Told(trace) == [] && (forall o :: ToldFrom(trace, o) == [])
      requires steering.drained == steered + (if origin.Steering? then prompts else [])
      requires followUps.drained == followed + (if origin.FollowUp? then prompts else [])
      requires ledger == [Mark(AgentStart), Mark(TurnStart)] && base == context
      ensures Agrees(context, [], prompts, origin)
    {
      NeverReplaced(ledger, base, []);
      hide Booked, StateOk, ReadAll, Told, ToldFrom, ContextAfter;
      assert context + [] == context;
      assert steered + [] == steered && followed + [] == followed;
    }

    method Inject(prompts: seq<Message>, origin: Origin, context: seq<Message>)
      requires Agrees(context, [], prompts, origin) && FromOutside(origin)
      requires ReadAll(trace) == FRESH_TURN && !Crowded(trace)
      modifies this, steering, followUps
      ensures Agrees(context + prompts, prompts, [], Steering) && Went()
      ensures ReadAll(trace) == FRESH_TURN.(queued := QueuedAmong(|prompts|, origin)) &&
        CrowdedBy(QueuedAmong(|prompts|, origin))
      ensures Since(old(clock), old(steering.messages), |prompts|)
    {
      hide Booked, StateOk, ReadAll, Told, ToldFrom, Crowded, Agrees, Since;
      var context', newMessages' := InjectPending(context, [], prompts, origin);
      assert [] + prompts == prompts;
      NoneWaits(context', newMessages', origin);
    }

    lemma NoneWaits(context: seq<Message>, newMessages: seq<Message>, origin: Origin)
      requires Agrees(context, newMessages, [], origin)
      ensures Agrees(context, newMessages, [], Steering)
    {
    }

    /** `runAgentLoop` and, without prompts, `runAgentLoopContinue`. */
    method RunAgentLoop(prompts: seq<Message>, origin: Origin, context: seq<Message>, skipInitialPoll: bool, fuel: nat)
      returns (newMessages: seq<Message>, completed: bool, ghost initial: seq<Message>)
      requires QueuesOk() && NewLedger() && pendingToolCalls == {} && streamingMessage == None
      requires trace == [] && messages == base == context && FromOutside(origin)
      requires steering.drained == steered + (if origin.Steering? then prompts else [])
      requires followUps.drained == followed + (if origin.FollowUp? then prompts else [])
      requires forall n :: OneStart(env.responses(n).events)
      modifies this, steering, followUps
      ensures if completed then RunOver(newMessages) else Interrupted(newMessages)
      ensures completed || fuel > 0 ==> CrowdedBy(QueuedAmong(|prompts|, origin) + |initial|)
      ensures NoneWide() ==> old(NoneWide()) && |initial| <= 1
      ensures initial == [] <==>
        skipInitialPoll || (old(steering.messages) == [] &&
            Arrivals(env.steer, old(clock), old(clock) + 2 + 2 * |prompts|) == [])
      ensures base == old(base) && steered == old(steered) && followed == old(followed)
    {
      hide NewLedger, Booked, Agrees, StateOk, ReadAll, Told, ToldFrom, Crowded, RunOver, Interrupted, Arrivals,
          CrowdedBy, NoneWide, OneStart;
      OpenWith(prompts, origin, context);
      newMessages, completed, initial := RunLoop(context + prompts, prompts, skipInitialPoll,
          QueuedAmong(|prompts|, origin), fuel);
    }

    // -------------------------------------------------------------- the agent's own methods

    /**
     A finished run: exactly one `agent_start` and `agent_end` around well-formed turns; the returned
     messages, the told ones and the growth of the state agree; and each queue's history is what all
     runs have told from it followed by what is still queued.
     */
    ghost predicate Finished(newMessages: seq<Message>)
      reads this, steering, followUps
    {
      && Idle() && ReadAll(trace).AfterRun? && trace != [] && trace[|trace| - 1] == AgentEnd(newMessages)
      && Complete(ledger) && Booked()
      && newMessages == Told(trace) && messages == base + newMessages
      && steering.enqueued == steered + steering.messages
      && followUps.enqueued == followed + followUps.messages
    }

    /**
     At every turn's end of a run, finished or interrupted: the context is the transcript before the run followed by
     everything told so far, if no answer of the hook has replaced it; otherwise the last replacement followed by what
     has been told since the hook was asked.
     */
    lemma TurnEndContext(newMessages: seq<Message>, q: nat) returns (p: nat)
      requires Finished(newMessages) || Interrupted(newMessages)
      requires q < |trace| && trace[q].TurnEnd?
      ensures p + 1 < |ledger| && ledger[p].InHand? && ledger[p + 1] == Mark(trace[q])
      ensures (forall i :: 0 <= i < p ==> !Replaces(ledger[i])) ==> ledger[p].context == base + Told(trace[..q])
      ensures forall i :: 0 <= i < p && Replaces(ledger[i]) && (forall j :: i < j < p ==> !Replaces(ledger[j])) ==>
                && ledger[i].answer == env.prepare(ledger[i].asked) && ledger[i].told <= |Told(trace[..q])|
                && ledger[p].context == ledger[i].answer.value + Told(trace[..q])[ledger[i].told..]
    {
      hide Carries, Agrees, MarksIn, MarksOf, SteeringIn, FollowUpsIn, ReadAll, StateOk, Follows;
      p := ContextAtTurnEnd(ledger, trace, base, env.prepare, q);
    }

    /** What a finished run has told from each queue follows what earlier runs have; any other run adds nothing yet. */
    ghost predicate QueuesTold(steered0: seq<Message>, followed0: seq<Message>, finished: bool)
      reads this`trace, this`steered, this`followed
    {
      && steered == (if finished then steered0 + ToldFrom(trace, Steering) else steered0)
      && followed == (if finished then followed0 + ToldFrom(trace, FollowUp) else followed0)
    }

    method FinishRun(ghost newMessages: seq<Message>)
      requires RunOver(newMessages)
      modifies this`pendingToolCalls, this`streamingMessage, this`steered, this`followed
      ensures Finished(newMessages) && trace == old(trace) && NoneWide() == old(NoneWide())
      ensures QueuesTold(old(steered), old(followed), true)
    {
      hide ReadAll, Told, ToldFrom;
      streamingMessage := None;
      pendingToolCalls := {};
      steered := steered + ToldFrom(trace, Steering);
      followed := followed + ToldFrom(trace, FollowUp);
    }

    method RunWithLifecycle(prompts: seq<Message>, origin: Origin, skipInitialPoll: bool, fuel: nat)
      returns (newMessages: seq<Message>, completed: bool, ghost initial: seq<Message>)
      requires QueuesOk() && pendingToolCalls == {} && streamingMessage == None && FromOutside(origin)
      requires steering.drained == steered + (if origin.Steering? then prompts else [])
      requires followUps.drained == followed + (if origin.FollowUp? then prompts else [])
      requires forall n :: OneStart(env.responses(n).events)
      modifies this, steering, followUps
      ensures if completed then Finished(newMessages) else Interrupted(newMessages)
      ensures QueuesTold(old(steered), old(followed), completed)
      ensures messages == old(messages) + newMessages && QueuesOk()
      ensures completed || fuel > 0 ==> CrowdedBy(QueuedAmong(|prompts|, origin) + |initial|)
      ensures NoneWide() ==> old(NoneWide()) && |initial| <= 1
      ensures initial == [] <==>
        skipInitialPoll || (old(steering.messages) == [] &&
            Arrivals(env.steer, old(clock), old(clock) + 2 + 2 * |prompts|) == [])
    {
      hide Booked, StateOk, ReadAll, Told, ToldFrom, Crowded, RunOver, Arrivals, CrowdedBy, NoneWide, OneStart,
          FromOutside, QueuedAmong;
      trace, base := [], messages;
      ledger, steeringBefore, followUpsBefore := [], steering.drained, followUps.drained;
      newMessages, completed, initial := RunAgentLoop(prompts, origin, messages, skipInitialPoll, fuel);
      if completed {
        FinishRun(newMessages);
      }
    }

    ghost predicate OneAtATime() {
      steering.mode.OneAtATime? && followUps.mode.OneAtATime?
    }

    lemma NarrowQueues()
      requires QueuesOk() && OneAtATime()
      ensures NoneWide()
    {
    }

    method Prompt(prompts: seq<Message>, fuel: nat) returns (newMessages: seq<Message>, completed: bool)
      requires Idle() && forall n :: OneStart(env.responses(n).events)
      modifies this, steering, followUps
      ensures if completed then Finished(newMessages) else Interrupted(newMessages)
      ensures QueuesTold(old(steered), old(followed), completed)
      ensures messages == old(messages) + newMessages
      ensures (completed || fuel > 0) && OneAtATime() ==> !Crowded(trace)
    {
      hide ReadAll, Told, ToldFrom, Crowded, Arrivals, OneStart, Finished, Interrupted, QueuesTold;
      ghost var initial;
      newMessages, completed, initial := RunWithLifecycle(prompts, Prompted, false, fuel);
      if OneAtATime() { NarrowQueues(); }
    }

    /**
     Continues from the transcript, from the queues if its last message is the assistant's. With queues
     drained one at a time no turn takes in two queued messages, except that a queued follow-up used as
     the prompt shares its turn with a steering message exactly if one arrives before the first poll.
     */
    method Continue(fuel: nat) returns (result: Continuation)
      requires Idle() && forall n :: OneStart(env.responses(n).events)
      modifies this, steering, followUps
      ensures result.Refused? <==>
        old(messages) == [] || (old(messages)[|old(messages)| - 1].role.Assistant? && old(steering.messages) == [] &&
            old(followUps.messages) == [])
      ensures result.Refused? ==> Idle() && messages == old(messages)
      ensures result.Refused? ==> steered == old(steered) && followed == old(followed)
      ensures result.Ran? ==> if result.completed then Finished(result.newMessages) else Interrupted(result.newMessages)
      ensures result.Ran? ==> QueuesTold(old(steered), old(followed), result.completed)
      ensures result.Ran? ==> messages == old(messages) + result.newMessages
      ensures result.Ran? && (result.completed || fuel > 0) && OneAtATime() ==>
        (Crowded(trace) <==> result.origin.FollowUp? && Arrivals(env.steer, old(clock), old(clock) + 4) != [])
      ensures result.Ran? ==> (result.origin.FollowUp? <==>
        old(messages)[|old(messages)| - 1].role.Assistant? && old(steering.messages) == [])
    {
      hide ReadAll, Told, ToldFrom, Crowded, Arrivals, OneStart, Finished, Interrupted, Read, QueuesTold;
      if messages == [] { return Refused; }
      if !messages[|messages| - 1].role.Assistant? {
        result := RunFrom([], Prompted, false, fuel);
        return;
      }
      var queuedSteering := steering.Drain();
      if queuedSteering != [] {
        result := RunFrom(queuedSteering, Steering, true, fuel);
        return;
      }
      var queuedFollowUps := followUps.Drain();
      if queuedFollowUps != [] {
        assert followUps.mode.OneAtATime? ==> |queuedFollowUps| == 1;
        result := RunFrom(queuedFollowUps, FollowUp, false, fuel);
        return;
      }
      result := Refused;
    }

    /** A run from these prompts, and how crowded its first turn can get. */
    method RunFrom(prompts: seq<Message>, origin: Origin, skipInitialPoll: bool, fuel: nat)
        returns (result: Continuation)
      requires QueuesOk() && pendingToolCalls == {} && streamingMessage == None && FromOutside(origin)
      requires steering.drained == steered + (if origin.Steering? then prompts else [])
      requires followUps.drained == followed + (if origin.FollowUp? then prompts else [])
      requires FromQueue(origin) && OneAtATime() ==> |prompts| == 1
      requires origin.Steering? ==> skipInitialPoll
      requires forall n :: OneStart(env.responses(n).events)
      modifies this, steering, followUps
      ensures result.Ran? && result.origin == origin
      ensures if result.completed then Finished(result.newMessages) else Interrupted(result.newMessages)
      ensures QueuesTold(old(steered), old(followed), result.completed)
      ensures messages == old(messages) + result.newMessages
      ensures (result.completed || fuel > 0) && OneAtATime() ==>
        (Crowded(trace) <==> FromQueue(origin) && !skipInitialPoll
                             && !(old(steering.messages) == [] && Arrivals(env.steer, old(clock), old(clock) + 4) ==
                                []))
    {
      hide ReadAll, Told, ToldFrom, Crowded, Arrivals, OneStart, Finished, Interrupted, QueuesTold;
      var newMessages, completed;
      ghost var initial;
      newMessages, completed, initial := RunWithLifecycle(prompts, origin, skipInitialPoll, fuel);
      result := Ran(origin, newMessages, completed);
      if OneAtATime() { NarrowQueues(); }
    }
  }

  datatype Continuation = Refused | Ran(origin: Origin, newMessages: seq<Message>, completed: bool)

  /**
   Outcomes that depend only on the call: both modes return the same messages and the same flag when nothing aborts.
   */
  method ModesAgree(a: Agent, b: Agent, calls: seq<Call>, scripts: seq<ToolScript>)
    returns (one: seq<Message>, stopOne: bool, other: seq<Message>, stopOther: bool)
    requires a.Running() && a.BeforeBatch() && b.Running() && b.BeforeBatch() && |scripts| == |calls|
    requires {a, a.steering, a.followUps} !! {b, b.steering, b.followUps}
    modifies a, a.steering, a.followUps, b, b.steering, b.followUps
    ensures !a.aborted && !b.aborted ==> one == other && stopOne == stopOther && |one| == |calls|
    ensures !a.aborted && !b.aborted ==>
      forall i :: 0 <= i < |calls| ==> one[i].answers.Some? && Honours(scripts[i], one[i].answers.value.1)
    ensures |one| <= |calls| && |other| <= |calls|
    ensures forall i :: 0 <= i < |one| ==> one[i].id == calls[i].id
    ensures forall i :: 0 <= i < |other| ==> other[i].id == calls[i].id
  {
    hide StateOk, ReadAll, Told, ToldFrom, Crowded, Places, Undisturbed, Honours, Reported, Books;
    ghost var outcomes, otherOutcomes;
    one, stopOne, outcomes := a.ExecuteSequential(calls, scripts);
    other, stopOther, otherOutcomes := b.ExecuteParallel(calls, scripts);
  }

  const REPLY: Message := Message(1, Assistant, Stop, [], None)
  const LATER: Message := Message(2, User, Stop, [], None)
  const HINT: Message := Message(3, User, Stop, [], None)

  /** A listener steers at the very first event; nothing else happens. */
  function SteeredEarly(): Environment {
    Environment(
      t => if t == 0 then [HINT] else [], _ => [], _ => false, _ => Stream([], REPLY),
      (_, _) => ToolScript(false, false, Allow, NOT_FOUND, false, 0, 0, None),
      _ => false, _ => None, _ => 0, _ => false, _ => false)
  }

  lemma EarlyArrival()
    ensures Arrivals(SteeredEarly().steer, 0, 4) != []
    ensures forall n :: OneStart(SteeredEarly().responses(n).events)
  {
    ArrivalsJoin(SteeredEarly().steer, 0, 1, 4);
  }

  /** A `continue` in which one turn takes in two queued messages though both queues are drained one at a time. */
  method CrowdedTurn() returns (agent: Agent, result: Continuation)
    ensures agent.OneAtATime() && agent.env == SteeredEarly() && result.Ran? && result.origin.FollowUp?
    ensures agent.messages == [REPLY] + result.newMessages
    ensures if result.completed then agent.Finished(result.newMessages) else agent.Interrupted(result.newMessages)
    ensures Crowded(agent.trace)
  {
    EarlyArrival();
    agent := Replied(SteeredEarly());
    hide Crowded, ReadAll, ToldFrom, SteeredEarly, Arrivals, OneStart;
    hide Agent.Idle, Agent.Finished, Agent.Interrupted, Agent.QueuesTold;
    result := agent.Continue(1);
  }

  /** An agent whose last message is the assistant's, with one follow-up queued. */
  method Replied(env: Environment) returns (agent: Agent)
    ensures fresh(agent) && fresh(agent.steering) && fresh(agent.followUps)
    ensures agent.Idle() && agent.OneAtATime() && agent.env == env && agent.clock == 0
    ensures agent.messages == [REPLY] && agent.steering.messages == [] && agent.followUps.messages == [LATER]
  {
    agent := new Agent(env, QueueMode.OneAtATime, QueueMode.OneAtATime, [REPLY]);
    agent.followUps.Enqueue([LATER]);
  }
}
