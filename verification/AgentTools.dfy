/** The agent's environment, the fate of one tool call, and the bookkeeping of a batch of calls. */
module AgentTools {
  import opened Common
  import opened AgentEvents

  // ---------------------------------------------------------------- the environment

  datatype StreamEvent = Started(partial: Message) | Delta(partial: Message) | Finished

  datatype Stream = Stream(events: seq<StreamEvent>, result: Message)

  /** The event protocol of a provider stream, as far as the loop depends on it. */
  predicate OneStart(events: seq<StreamEvent>) {
    forall i, j :: 0 <= i < j < |events| ==> !(events[i].Started? && events[j].Started?)
  }

  datatype BeforeHook = Allow | Block(content: nat, terminate: bool)

  /** What `afterToolCall` replaces. */
  datatype AfterHook = AfterHook(content: Option<nat>, isError: Option<bool>, terminate: Option<bool>)

  /** One call's script: no such tool, arguments that do not validate, the hooks, the run with its progress reports. */
  datatype ToolScript = ToolScript(
    found: bool, valid: bool, before: BeforeHook, run: Outcome, threw: bool, updates: nat, lateUpdates: nat,
    after: Option<AfterHook>)

  /**
   Everything the agent does not decide itself. `pick` chooses the call in flight that goes on, `reports` whether a
   tool that has just begun reports before its first await.
   */
  datatype Environment = Environment(
    steer: nat -> seq<Message>,
    followUp: nat -> seq<Message>,
    abort: nat -> bool,
    responses: nat -> Stream,
    tools: (nat, nat) -> ToolScript,
    stopAfter: nat -> bool,
    prepare: nat -> Option<seq<Message>>,
    pick: nat -> nat,
    reports: nat -> bool,
    sequential: nat -> bool)

  const NOT_FOUND: Outcome := Outcome(1, true, false)
  const INVALID: Outcome := Outcome(2, true, false)
  const ABORTED: Outcome := Outcome(3, true, false)
  const TRUNCATED: Outcome := Outcome(4, true, false)

  datatype Preparation = Immediate(outcome: Outcome) | Prepared

  /** `prepareToolCall`; `aborted` is the signal as the last hook returns. */
  function Prepare(script: ToolScript, aborted: bool): Preparation {
    if !script.found then Immediate(NOT_FOUND)
    else if !script.valid then Immediate(INVALID)
    else if aborted then Immediate(ABORTED)
    else if script.before.Block? then Immediate(Outcome(script.before.content, true, script.before.terminate))
    else Prepared
  }

  /** `executePreparedToolCall` and `finalizeExecutedToolCall`. */
  function Finalized(script: ToolScript): Outcome {
    var executed := if script.threw then Outcome(script.run.content, true, false)
        else Outcome(script.run.content, false, script.run.terminate);
    match script.after
    case None => executed
    case Some(a) =>
      Outcome(if a.content.Some? then a.content.value else executed.content,
              if a.isError.Some? then a.isError.value else executed.isError,
              if a.terminate.Some? then a.terminate.value else executed.terminate)
  }

  /** What a call comes to when nothing is aborted. */
  function Undisturbed(script: ToolScript): Outcome {
    match Prepare(script, false)
    case Immediate(o) => o
    case Prepared => Finalized(script)
  }

  lemma UndisturbedIs(script: ToolScript)
    ensures Undisturbed(script) == if Prepare(script, false).Immediate? then Prepare(script, false).outcome
      else Finalized(script)
  {
  }

  /** Calls that must not run: there is no such tool, its arguments are not valid, or the hook before it says no. */
  predicate Forbidden(script: ToolScript) { !script.found || !script.valid || script.before.Block? }

  /** An executed call: what the run came to, as far as the hook after it does not replace it. */
  predicate RunsTo(script: ToolScript, o: Outcome) {
    var a := if script.after.Some? then script.after.value else AfterHook(None, None, None);
    && (a.isError == Some(o.isError) || (a.isError.None? && (o.isError <==> script.threw)))
    && (a.content == Some(o.content) || (a.content.None? && o.content == script.run.content))
    && (a.terminate == Some(o.terminate) ||
        (a.terminate.None? && (o.terminate <==> !script.threw && script.run.terminate)))
  }

  /** The outcome of a call that no abort disturbs: an error without a run if it is refused, else what its run gives. */
  predicate Honours(script: ToolScript, o: Outcome) {
    && (Forbidden(script) ==> o.isError)
    && (!script.found ==> o.content == NOT_FOUND.content && !o.terminate)
    && (script.found && !script.valid ==> o.content == INVALID.content && !o.terminate)
    && (script.found && script.valid && script.before.Block? ==>
          o.content == script.before.content && o.terminate == script.before.terminate)
    && (!Forbidden(script) ==> RunsTo(script, o))
  }

  lemma UndisturbedHonours(script: ToolScript)
    ensures Honours(script, Undisturbed(script))
    ensures Prepare(script, false).Prepared? <==> !Forbidden(script)
    ensures Prepare(script, true).Prepared? ==> !Forbidden(script)
  {
  }

  /** Every call of a batch has the outcome its script asks for. */
  predicate AllHonoured(scripts: seq<ToolScript>, outcomes: seq<Outcome>) {
    |outcomes| == |scripts| && forall i :: 0 <= i < |scripts| ==> Honours(scripts[i], outcomes[i])
  }

  lemma AllUndisturbedHonour(scripts: seq<ToolScript>)
    ensures AllHonoured(scripts, AllUndisturbed(scripts))
  {
    hide Honours, Undisturbed;
    forall i | 0 <= i < |scripts| ensures Honours(scripts[i], AllUndisturbed(scripts)[i]) {
      UndisturbedHonours(scripts[i]);
    }
  }

  /**
   How often the calls of a batch have reported: a call reports as often as its script says or, refused or aborted
   before its run, never; `all`: none has been aborted.
   */
  predicate Reported(reports: multiset<nat>, scripts: seq<ToolScript>, all: bool) {
    forall i :: 0 <= i < |scripts| ==>
      && (reports[i] == 0 || (!Forbidden(scripts[i]) && reports[i] == scripts[i].updates))
      && (all && !Forbidden(scripts[i]) ==> reports[i] == scripts[i].updates)
  }

  function AllUndisturbed(scripts: seq<ToolScript>): seq<Outcome> {
    seq(|scripts|, i requires 0 <= i < |scripts| => Undisturbed(scripts[i]))
  }

  /** The scripts of the calls made in one turn. */
  function BatchScripts(env: Environment, turn: nat, calls: nat): seq<ToolScript> {
    seq(calls, i requires 0 <= i < calls => env.tools(turn, i))
  }

  predicate TerminatesBatch(outcomes: seq<Outcome>) {
    |outcomes| > 0 && forall i :: 0 <= i < |outcomes| ==> outcomes[i].terminate
  }

  function Results(calls: seq<Call>, outcomes: seq<Outcome>): (ms: seq<Message>)
    requires |outcomes| <= |calls|
    ensures |ms| == |outcomes|
    ensures forall i :: 0 <= i < |ms| ==>
      ms[i].role.ToolResult? && ms[i].id == calls[i].id && ms[i].answers == Some((calls[i], outcomes[i]))
  {
    seq(|outcomes|, i requires 0 <= i < |outcomes| => ResultMessage(calls[i], outcomes[i]))
  }

  /** The set of pending tool calls is a set of ids: two running calls of one id count once. */
  function PendingAfter(pending: set<nat>, e: Event): set<nat> {
    match e
    case ToolStart(_, id) => pending + {id}
    case ToolEnd(_, id) => pending - {id}
    case _ => pending
  }

  lemma PendingStep(r: Reader, e: Event, pending: set<nat>)
    requires r.InTurn? && !Read(r, e).Broken? && pending <= r.running.Values
    ensures var t := Read(r, e); var after := PendingAfter(pending, e);
      (t.InTurn? ==> after <= t.running.Values) && (!t.InTurn? ==> after == {})
  {
    var t := Read(r, e);
    match e
    case ToolStart(k, id) =>
      assert k in t.running && t.running[k] == id;
      forall x | x in pending ensures x in t.running.Values {
        var j :| j in r.running && r.running[j] == x;
        assert j in t.running && t.running[j] == x;
      }
    case ToolEnd(k, id) =>
      forall x | x in pending - {id} ensures x in t.running.Values {
        var j :| j in r.running && r.running[j] == x;
        assert j in t.running && t.running[j] == x;
      }
    case TurnEnd(_, _) => assert r.running.Values == {};
    case AgentStart =>
    case AgentEnd(_) =>
    case TurnStart =>
    case MessageStart(_) =>
    case MessageUpdate(_) =>
    case MessageEnd(_, _) =>
    case ToolUpdate(_, _) =>
  }

  /** The agent's state agrees with the events so far. */
  ghost predicate StateOk(trace: seq<Event>, base: seq<Message>, messages: seq<Message>, streaming: Option<Message>,
      pending: set<nat>) {
    var r := ReadAll(trace);
    && !r.Broken? && !r.BeforeRun?
    && messages == base + Told(trace)
    && (r.InTurn? ==> pending <= r.running.Values && (streaming.Some? <==> r.open))
    && (!r.InTurn? ==> pending == {} && streaming == None)
  }

  function MessagesAfter(messages: seq<Message>, e: Event): seq<Message> {
    if e.MessageEnd? then messages + [e.message] else messages
  }

  function StreamingAfter(streaming: Option<Message>, e: Event): Option<Message> {
    match e
    case MessageStart(m) => Some(m)
    case MessageUpdate(m) => Some(m)
    case MessageEnd(_, _) => None
    case AgentEnd(_) => None
    case _ => streaming
  }

  /** Reducing one more event keeps them in agreement. */
  lemma ReduceOk(trace: seq<Event>, e: Event, base: seq<Message>, messages: seq<Message>, streaming: Option<Message>,
      pending: set<nat>)
    requires StateOk(trace, base, messages, streaming, pending) && !Read(ReadAll(trace), e).Broken?
    ensures StateOk(trace + [e], base, MessagesAfter(messages, e), StreamingAfter(streaming, e),
      PendingAfter(pending, e))
  {
    ReadOn(trace, e);
    ToldOn(trace, e);
    if ReadAll(trace).InTurn? { PendingStep(ReadAll(trace), e, pending); }
    if e.MessageEnd? {
      assert base + Told(trace) + [e.message] == base + (Told(trace) + [e.message]);
    } else {
      assert Told(trace) + [] == Told(trace);
    }
    hide ReadAll, Told;
  }

  lemma StartOk(base: seq<Message>)
    ensures StateOk([AgentStart], base, base, None, {}) && ReadAll([AgentStart]) == Read(ReadAll([]), AgentStart)
  {
    assert [AgentStart][..0] == [];
    assert Told([AgentStart]) == [];
    assert base + [] == base;
  }

  /**
   A started call in parallel mode: not yet run, running with reports to come, finishing while late reports are
   ignored, ended; `ran` says whether it has been run at all.
   */
  datatype Entry = Waiting | Executing(updates: nat) | Finishing(lateUpdates: nat) | Ended(outcome: Outcome, ran: bool)

  function Airborne(calls: seq<Call>, entries: seq<Entry>): map<nat, nat>
    requires |entries| <= |calls|
  {
    map k: nat | k < |entries| && !entries[k].Ended? :: calls[k].id
  }

  function Landed(entries: seq<Entry>): set<nat> {
    set k: nat | k < |entries| && entries[k].Ended?
  }

  /** If nothing is aborted, the entry leads to what the script alone would lead to. */
  predicate Faithful(script: ToolScript, e: Entry) {
    match e
    case Ended(o, ran) => o == Undisturbed(script) && (ran <==> Prepare(script, false).Prepared?)
    case _ => Prepare(script, false).Prepared?
  }

  lemma NothingFlies(calls: seq<Call>)
    ensures Airborne(calls, []) == map[] && Landed([]) == {}
  {
  }

  function FirstEntry(p: Preparation): (e: Entry)
    ensures e.Waiting? || e.Ended?
  {
    if p.Immediate? then Ended(p.outcome, false) else Waiting
  }

  lemma StartFaithful(script: ToolScript)
    ensures Faithful(script, FirstEntry(Prepare(script, false)))
  {
  }

  /** A call that may not run has ended; one that may waits for its turn, unless aborted. */
  lemma StartIs(script: ToolScript, aborted: bool)
    ensures var e := FirstEntry(Prepare(script, aborted));
      (e.Waiting? || (e.Ended? && !e.ran)) && (Forbidden(script) ==> e.Ended?) && (!aborted ==> Faithful(script, e))
  {
    StartFaithful(script);
    UndisturbedHonours(script);
  }

  lemma FaithfulTo(script: ToolScript)
    ensures forall u: nat :: Faithful(script, Waiting) == Faithful(script, Executing(u)) == Faithful(script,
      Finishing(u))
    ensures Faithful(script, Waiting) ==> Faithful(script, Ended(Finalized(script), true))
  {
  }

  /** An entry that has not ended moves on, or ends. */
  lemma EntryMoves(calls: seq<Call>, entries: seq<Entry>, k: nat, e: Entry)
    requires k < |entries| <= |calls| && !entries[k].Ended?
    ensures var after := entries[k := e];
      && (!e.Ended? ==> Airborne(calls, after) == Airborne(calls, entries) && Landed(after) == Landed(entries))
      && (e.Ended? ==>
            Airborne(calls, after) == Airborne(calls, entries) - {k} && Landed(after) == Landed(entries) + {k})
      && k in Airborne(calls, entries) && Airborne(calls, entries)[k] == calls[k].id
  {
  }

  /** What a reader makes of the event that goes with the move. */
  lemma ReadMove(r: Reader, calls: seq<Call>, entries: seq<Entry>, k: nat, e: Entry)
    requires k < |entries| <= |calls| && !entries[k].Ended? && r.InTurn? && !r.open
    ensures var before := r.(running := Airborne(calls, entries), done := Landed(entries));
      var after := r.(running := Airborne(calls, entries[k := e]), done := Landed(entries[k := e]));
      && (!e.Ended? ==>
            && after == before
            && Read(before, ToolUpdate(k, calls[k].id)) == after.(reports := r.reports + multiset{k}))
      && (e.Ended? ==> Read(before, ToolEnd(k, calls[k].id)) == after)
  {
    EntryMoves(calls, entries, k, e);
    hide Airborne, Landed;
  }

  /** Steps an entry has before it ends. */
  function StepsLeft(e: Entry, script: ToolScript): nat {
    match e
    case Waiting => 3 + script.updates + script.lateUpdates
    case Executing(u) => 2 + u + script.lateUpdates
    case Finishing(u) => 1 + u
    case Ended(_, _) => 0
  }

  /** One step of a call in flight: a report, the return of its run, a report too late, its end. */
  function Moved(e: Entry, script: ToolScript): (after: Entry)
    requires e.Executing? || e.Finishing?
    ensures !after.Waiting?
  {
    match e
    case Executing(updates) => if updates > 0 then Executing(updates - 1) else Finishing(script.lateUpdates)
    case Finishing(late) => if late > 0 then Finishing(late - 1) else Ended(Finalized(script), true)
  }

  lemma MovesOn(e: Entry, script: ToolScript)
    requires e.Executing? || e.Finishing?
    ensures StepsLeft(Moved(e, script), script) < StepsLeft(e, script)
    ensures Faithful(script, e) ==> Faithful(script, Moved(e, script))
  {
    hide Prepare, Finalized;
  }

  /** How often a call has reported so far. */
  function Made(script: ToolScript, e: Entry): nat {
    match e
    case Waiting => 0
    case Executing(u) => if u <= script.updates then script.updates - u else 0
    case Finishing(_) => script.updates
    case Ended(_, ran) => if ran then script.updates else 0
  }

  /** A refused call ends without ever being about to run, and every call has reported as often as it should by now. */
  predicate Entitled(reports: multiset<nat>, k: nat, script: ToolScript, e: Entry) {
    && (Forbidden(script) ==> e.Ended? && !e.ran)
    && (e.Executing? ==> e.updates <= script.updates)
    && reports[k] == Made(script, e)
  }

  /** And a call that has not been started yet has not reported. */
  predicate AllEntitled(reports: multiset<nat>, scripts: seq<ToolScript>, entries: seq<Entry>) {
    && |entries| <= |scripts|
    && (forall k :: 0 <= k < |entries| ==> Entitled(reports, k, scripts[k], entries[k]))
    && (forall k :: |entries| <= k < |scripts| ==> reports[k] == 0)
  }

  /** One entry changes, and one call may have reported. */
  lemma EntitledStill(reports: multiset<nat>, scripts: seq<ToolScript>, entries: seq<Entry>, k: nat, e: Entry,
                      more: multiset<nat>)
    requires AllEntitled(reports, scripts, entries) && k < |entries|
    requires forall i: nat :: i != k ==> more[i] == 0
    requires Entitled(reports + more, k, scripts[k], e)
    ensures AllEntitled(reports + more, scripts, entries[k := e])
  {
    forall i | 0 <= i < |entries| ensures Entitled(reports + more, i, scripts[i], entries[k := e][i]) {
      if i != k { assert Entitled(reports, i, scripts[i], entries[i]); }
    }
  }

  lemma EntitledNext(reports: multiset<nat>, scripts: seq<ToolScript>, entries: seq<Entry>, e: Entry)
    requires AllEntitled(reports, scripts, entries) && |entries| < |scripts|
    requires Made(scripts[|entries|], e) == 0 && !e.Executing?
    requires Forbidden(scripts[|entries|]) ==> e.Ended? && !e.ran
    ensures AllEntitled(reports, scripts, entries + [e])
  {
    forall i | 0 <= i < |entries| + 1 ensures Entitled(reports, i, scripts[i], (entries + [e])[i]) {
      if i < |entries| { assert Entitled(reports, i, scripts[i], entries[i]); }
    }
  }

  /** What the move of a call in flight adds to its reports. */
  lemma MoveEntitled(reports: multiset<nat>, k: nat, script: ToolScript, e: Entry)
    requires (e.Executing? || e.Finishing?) && Entitled(reports, k, script, e)
    ensures var after := Moved(e, script);
      Entitled(if after.Executing? then reports + multiset{k} else reports, k, script, after)
  {
  }

  lemma StillEntitled(reports: multiset<nat>, scripts: seq<ToolScript>, entries: seq<Entry>, k: nat)
    requires AllEntitled(reports, scripts, entries) && k < |entries| && (entries[k].Executing? || entries[k].Finishing?)
    ensures var e := Moved(entries[k], scripts[k]);
      AllEntitled(if e.Executing? then reports + multiset{k} else reports, scripts, entries[k := e])
  {
    var e := Moved(entries[k], scripts[k]);
    assert Entitled(reports, k, scripts[k], entries[k]);
    MoveEntitled(reports, k, scripts[k], entries[k]);
    hide Moved, Entitled;
    assert reports + multiset{} == reports;
    EntitledStill(reports, scripts, entries, k, e, if e.Executing? then multiset{k} else multiset{});
  }

  /** A waiting call begins, or ends unrun. */
  lemma BeginEntitled(reports: multiset<nat>, scripts: seq<ToolScript>, entries: seq<Entry>, k: nat, e: Entry)
    requires AllEntitled(reports, scripts, entries) && k < |entries| && entries[k].Waiting?
    requires e == Executing(scripts[k].updates) || (e.Ended? && !e.ran)
    ensures AllEntitled(reports, scripts, entries[k := e])
  {
    assert Entitled(reports, k, scripts[k], entries[k]);
    assert reports + multiset{} == reports;
    EntitledStill(reports, scripts, entries, k, e, multiset{});
  }

  lemma EntitledAtEnd(reports: multiset<nat>, scripts: seq<ToolScript>, entries: seq<Entry>)
    requires AllEntitled(reports, scripts, entries) && forall i :: 0 <= i < |entries| ==> entries[i].Ended?
    ensures Reported(reports, scripts, false)
    ensures |entries| == |scripts| && AllFaithful(scripts, entries) ==> Reported(reports, scripts, true)
  {
    forall i | 0 <= i < |scripts|
      ensures reports[i] == 0 || (!Forbidden(scripts[i]) && reports[i] == scripts[i].updates) {
      if i < |entries| { assert Entitled(reports, i, scripts[i], entries[i]); }
    }
    if |entries| == |scripts| && AllFaithful(scripts, entries) {
      forall i | 0 <= i < |scripts| && !Forbidden(scripts[i]) ensures reports[i] == scripts[i].updates {
        assert Entitled(reports, i, scripts[i], entries[i]) && Faithful(scripts[i], entries[i]);
        UndisturbedHonours(scripts[i]);
      }
    }
  }

  /** The first `k` calls have been made, one after the other. */
  predicate ReportedFirst(reports: multiset<nat>, scripts: seq<ToolScript>, k: nat, all: bool) {
    && k <= |scripts| && Reported(reports, scripts[..k], false) && (all ==> Reported(reports, scripts[..k], true))
    && forall i :: k <= i < |scripts| ==> reports[i] == 0
  }

  lemma ReportedNone(scripts: seq<ToolScript>)
    ensures forall all :: ReportedFirst(multiset{}, scripts, 0, all)
  {
  }

  /** The next call of a batch has reported `n` times. */
  lemma ReportedNext(reports: multiset<nat>, scripts: seq<ToolScript>, k: nat, n: nat, before: bool, all: bool)
    requires k < |scripts| && ReportedFirst(reports, scripts, k, before) && (all ==> before)
    requires n == 0 || (!Forbidden(scripts[k]) && n == scripts[k].updates)
    requires all && !Forbidden(scripts[k]) ==> n == scripts[k].updates
    ensures ReportedFirst(reports[k := reports[k] + n], scripts, k + 1, all)
  {
    hide Forbidden;
    forall i | 0 <= i < k ensures scripts[..k + 1][i] == scripts[..k][i] { }
  }

  /** Calls that were never reached have not reported. */
  lemma ReportedSoFar(reports: multiset<nat>, scripts: seq<ToolScript>, k: nat, all: bool)
    requires ReportedFirst(reports, scripts, k, all) && (all ==> k == |scripts|)
    ensures Reported(reports, scripts, all)
  {
    hide Forbidden;
    forall i | 0 <= i < k ensures scripts[i] == scripts[..k][i] { }
  }

  /** What the sweep that starts all runs makes of an entry; `begins`: no abort so far. */
  predicate SweptTo(was: Entry, now: Entry, begins: bool) {
    if !was.Waiting? then now == was else if begins then now.Executing? else now == Ended(ABORTED, false)
  }

  function TotalLeft(entries: seq<Entry>, scripts: seq<ToolScript>): nat
    requires |entries| <= |scripts|
  {
    if entries == [] then 0
    else TotalLeft(entries[..|entries| - 1], scripts) + StepsLeft(entries[|entries| - 1], scripts[|entries| - 1])
  }

  lemma {:induction false} LessLeft(entries: seq<Entry>, scripts: seq<ToolScript>, k: nat, e: Entry)
    requires k < |entries| <= |scripts| && StepsLeft(e, scripts[k]) < StepsLeft(entries[k], scripts[k])
    ensures TotalLeft(entries[k := e], scripts) < TotalLeft(entries, scripts)
  {
    hide StepsLeft;
    var last := |entries| - 1;
    if k < last {
      LessLeft(entries[..last], scripts, k, e);
      assert entries[k := e][..last] == entries[..last][k := e];
    } else {
      assert entries[k := e][..last] == entries[..last];
    }
  }

  /** The places of the calls still in flight, in order. */
  function Unfinished(entries: seq<Entry>): (r: seq<nat>)
    ensures forall i :: 0 <= i < |r| ==> r[i] < |entries| && !entries[r[i]].Ended?
    ensures forall k: nat :: k < |entries| && !entries[k].Ended? ==> k in r
  {
    if entries == [] then []
    else
      var last := |entries| - 1;
      Unfinished(entries[..last]) + if entries[last].Ended? then [] else [last]
  }

  lemma UnfinishedAt(entries: seq<Entry>, i: nat)
    requires i < |Unfinished(entries)|
    ensures var k := Unfinished(entries)[i]; k < |entries| && !entries[k].Ended?
  {
  }

  lemma AllEnded(calls: seq<Call>, entries: seq<Entry>)
    requires |entries| <= |calls| && Unfinished(entries) == []
    ensures forall i :: 0 <= i < |entries| ==> entries[i].Ended?
    ensures Airborne(calls, entries) == map[] && Landed(entries) == Places(|entries|)
  {
    assert forall k: nat :: k < |entries| && !entries[k].Ended? ==> k in Unfinished(entries);
  }

  predicate AllFaithful(scripts: seq<ToolScript>, entries: seq<Entry>)
    requires |entries| <= |scripts|
  {
    forall i :: 0 <= i < |entries| ==> Faithful(scripts[i], entries[i])
  }

  predicate NoneWaiting(entries: seq<Entry>) { forall i :: 0 <= i < |entries| ==> !entries[i].Waiting? }

  lemma NotWaiting(entries: seq<Entry>, k: nat)
    requires NoneWaiting(entries) && k < |entries|
    ensures !entries[k].Waiting?
  {
  }

  lemma EntryKeeps(scripts: seq<ToolScript>, entries: seq<Entry>, k: nat, e: Entry)
    requires k < |entries| <= |scripts| && (Faithful(scripts[k], entries[k]) ==> Faithful(scripts[k], e)) && !e.Waiting?
    ensures NoneWaiting(entries) ==> NoneWaiting(entries[k := e])
    ensures AllFaithful(scripts, entries) ==> AllFaithful(scripts, entries[k := e])
  {
    hide Faithful;
  }

  lemma EndedFaithful(scripts: seq<ToolScript>, entries: seq<Entry>)
    requires |entries| <= |scripts| && forall i :: 0 <= i < |entries| ==> entries[i].Ended?
    ensures AllFaithful(scripts, entries) ==> forall i :: 0 <= i < |entries| ==>
      entries[i].outcome == Undisturbed(scripts[i])
  {
  }

  lemma NextPlace(calls: seq<Call>, entries: seq<Entry>, e: Entry)
    requires |entries| < |calls|
    ensures var k := |entries|; var id := calls[k].id;
      && k !in Airborne(calls, entries) && k !in Landed(entries)
      && (!e.Ended? ==>
            && Airborne(calls, entries + [e]) == Airborne(calls, entries)[k := id]
            && Landed(entries + [e]) == Landed(entries))
      && (e.Ended? ==>
            && Airborne(calls, entries + [e]) == Airborne(calls, entries)[k := id] - {k}
            && Landed(entries + [e]) == Landed(entries) + {k})
  {
  }

  /** The first `n` places of a batch. */
  function Places(n: nat): (r: set<nat>)
    ensures forall i :: i in r <==> 0 <= i < n
  {
    if n == 0 then {} else Places(n - 1) + {n - 1}
  }

  lemma PlacesNext(n: nat)
    ensures n !in Places(n) && Places(n + 1) == Places(n) + {n} && Places(0) == {}
  {
  }

  lemma ResultsNext(calls: seq<Call>, outcomes: seq<Outcome>, o: Outcome)
    requires |outcomes| < |calls|
    ensures Results(calls, outcomes + [o]) == Results(calls, outcomes) + [ResultMessage(calls[|outcomes|], o)]
  {
  }

  /** What arrives in a stretch of time. */
  function Arrivals(f: nat -> seq<Message>, from: nat, to: nat): seq<Message>
    decreases to
  {
    if to <= from then [] else Arrivals(f, from, to - 1) + f(to - 1)
  }

  lemma ArrivalsTwo(f: nat -> seq<Message>, from: nat, to: nat)
    requires from <= to
    ensures Arrivals(f, from, from) == [] && Arrivals(f, from, to + 2) == Arrivals(f, from, to) + f(to) + f(to + 1)
  {
    assert Arrivals(f, from, to + 2) == Arrivals(f, from, to + 1) + f(to + 1);
  }

  lemma {:induction false} ArrivalsJoin(f: nat -> seq<Message>, a: nat, b: nat, c: nat)
    requires a <= b <= c
    ensures Arrivals(f, a, c) == Arrivals(f, a, b) + Arrivals(f, b, c)
    decreases c
  {
    if b < c { ArrivalsJoin(f, a, b, c - 1); }
  }

  lemma ArrivalsNext(f: nat -> seq<Message>, from: nat, to: nat, queue: seq<Message>, now: seq<Message>,
      next: seq<Message>)
    requires from <= to && now == queue + Arrivals(f, from, to) && next == now + f(to) + f(to + 1)
    ensures next == queue + Arrivals(f, from, to + 2)
  {
    ArrivalsTwo(f, from, to);
    hide Arrivals;
    assert queue + Arrivals(f, from, to) + f(to) + f(to + 1) == queue + (Arrivals(f, from, to) + f(to) + f(to + 1));
  }
}
