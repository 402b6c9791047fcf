/** Messages and lifecycle events of an agent run, and the grammar every run's events follow. */
module AgentEvents {
  import opened Common

  datatype Role = User | Assistant | ToolResult

  datatype StopReason = Stop | Length | ToolUse | Error | Aborted

  /** A call the model asks for. */
  datatype Call = Call(id: nat, name: nat)

  datatype Outcome = Outcome(content: nat, isError: bool, terminate: bool)

  /** `calls` are an assistant message's tool calls; `answers` names the call a tool result answers. */
  datatype Message = Message(id: nat, role: Role, stopReason: StopReason, calls: seq<Call>,
      answers: Option<(Call, Outcome)>)

  function ResultMessage(call: Call, outcome: Outcome): Message {
    Message(call.id, ToolResult, Stop, [], Some((call, outcome)))
  }

  /** Where a finished message came from; history. */
  datatype Origin = Prompted | Steering | FollowUp | Response | FromTool

  /** Tool events carry the call's place in its batch besides its id, which the model may repeat. */
  datatype Event =
    | AgentStart
    | AgentEnd(messages: seq<Message>)
    | TurnStart
    | TurnEnd(message: Message, toolResults: seq<Message>)
    | MessageStart(message: Message)
    | MessageUpdate(message: Message)
    | MessageEnd(message: Message, origin: Origin)
    | ToolStart(place: nat, id: nat)
    | ToolUpdate(place: nat, id: nat)
    | ToolEnd(place: nat, id: nat)

  /**
   A reader of the events. Inside a turn it knows the response and tool results told so far, how many
   queued messages came in, whether a message is open, which tool calls are running and done, and how often each has
   reported.
   */
  datatype Reader =
    | BeforeRun
    | BetweenTurns
    | InTurn(responses: seq<Message>, results: seq<Message>, queued: nat, open: bool, running: map<nat, nat>,
        done: set<nat>, reports: multiset<nat>)
    | AfterRun
    | Broken

  const FRESH_TURN := InTurn([], [], 0, false, map[], {}, multiset{})

  predicate FromQueue(o: Origin) { o.Steering? || o.FollowUp? }

  predicate FromOutside(o: Origin) { FromQueue(o) || o.Prompted? }

  /** How many of `n` messages from one origin came from a queue. */
  function QueuedAmong(n: nat, o: Origin): nat { if FromQueue(o) then n else 0 }

  function Read(r: Reader, e: Event): Reader {
    match r
    case BeforeRun => if e.AgentStart? then BetweenTurns else Broken
    case BetweenTurns =>
      if e.TurnStart? then InTurn([], [], 0, false, map[], {}, multiset{})
      else if e.AgentEnd? then AfterRun
      else Broken
    case InTurn(responses, results, queued, open, running, done, reports) => (
      match e
      case MessageStart(_) => if open || running != map[] then Broken else r.(open := true)
      case MessageUpdate(_) => if open then r else Broken
      case MessageEnd(m, origin) =>
        if !open then Broken
        else r.(open := false,
                responses := responses + (if origin.Response? then [m] else []),
                results := results + (if origin.FromTool? then [m] else []),
                queued := queued + (if FromQueue(origin) then 1 else 0))
      case ToolStart(k, id) =>
        if open || k in running || k in done || |responses| != 1 then Broken else r.(running := running[k := id])
      case ToolUpdate(k, id) =>
        if !open && k in running && running[k] == id then r.(reports := reports + multiset{k}) else Broken
      case ToolEnd(k, id) =>
        if !open && k in running && running[k] == id then r.(running := running - {k}, done := done + {k}) else Broken
      case TurnEnd(m, told) => if !open && running == map[] && responses == [m] && results == told then BetweenTurns
          else Broken
      case AgentStart => Broken
      case AgentEnd(_) => Broken
      case TurnStart => Broken
    )
    case AfterRun => Broken
    case Broken => Broken
  }

  function ReadAll(trace: seq<Event>): Reader {
    if trace == [] then BeforeRun else Read(ReadAll(trace[..|trace| - 1]), trace[|trace| - 1])
  }

  lemma ReadOn(trace: seq<Event>, e: Event)
    ensures ReadAll(trace + [e]) == Read(ReadAll(trace), e)
  {
    assert (trace + [e])[..|trace|] == trace;
  }

  /** The transcript the events tell. */
  function Told(trace: seq<Event>): seq<Message> {
    if trace == [] then []
    else
      var e := trace[|trace| - 1];
      Told(trace[..|trace| - 1]) + if e.MessageEnd? then [e.message] else []
  }

  /** The part of it that came from one origin. */
  function ToldFrom(trace: seq<Event>, o: Origin): seq<Message> {
    if trace == [] then []
    else
      var e := trace[|trace| - 1];
      ToldFrom(trace[..|trace| - 1], o) + if e.MessageEnd? && e.origin == o then [e.message] else []
  }

  lemma ToldOn(trace: seq<Event>, e: Event)
    ensures Told(trace + [e]) == if e.MessageEnd? then Told(trace) + [e.message] else Told(trace)
    ensures forall o :: ToldFrom(trace + [e], o) ==
                          if e.MessageEnd? && e.origin == o then ToldFrom(trace, o) + [e.message]
                              else ToldFrom(trace, o)
  {
    assert (trace + [e])[..|trace|] == trace;
  }

  /** Some turn took in more than one queued message. */
  predicate Crowded(trace: seq<Event>) {
    trace != [] &&
    (Crowded(trace[..|trace| - 1]) || (var r := ReadAll(trace); r.InTurn? && r.queued > 1))
  }

  lemma CrowdedOn(trace: seq<Event>, e: Event)
    ensures Crowded(trace + [e]) == (Crowded(trace) || (var r := Read(ReadAll(trace), e); r.InTurn? && r.queued > 1))
  {
    assert (trace + [e])[..|trace|] == trace;
    ReadOn(trace, e);
  }

  /** Only a finished message makes a turn more crowded. */
  lemma QueuedGrows(trace: seq<Event>, e: Event)
    requires !e.MessageEnd?
    ensures Crowded(trace + [e]) == Crowded(trace)
    ensures Read(ReadAll(trace), e).InTurn? && Read(ReadAll(trace), e).queued > 1 ==> Crowded(trace)
  {
    CrowdedOn(trace, e);
    InTurnUncrowded(trace);
  }

  /** Whatever queued messages the current turn has are in the record. */
  lemma InTurnUncrowded(trace: seq<Event>)
    ensures ReadAll(trace).InTurn? && ReadAll(trace).queued > 1 ==> Crowded(trace)
  {
  }

  /** The start of every run. */
  lemma NothingTold()
    ensures ReadAll([]) == BeforeRun && Told([]) == [] && (forall o :: ToldFrom([], o) == []) && !Crowded([])
    ensures Read(BeforeRun, AgentStart) == BetweenTurns && Read(BetweenTurns, TurnStart) == FRESH_TURN
  {
  }

  lemma QueuedNext(n: nat, o: Origin)
    ensures QueuedAmong(0, o) == 0 && QueuedAmong(n + 1, o) == QueuedAmong(n, o) + QueuedAmong(1, o)
  {
  }

  /** A message from outside, read. */
  lemma ReadMessage(r: Reader, m: Message, o: Origin)
    requires r.InTurn? && !r.open && r.running == map[] && FromOutside(o)
    ensures Read(Read(r, MessageStart(m)), MessageEnd(m, o)) == r.(queued := r.queued + QueuedAmong(1, o))
  {
  }

  // ---------------------------------------------------------------- what an unbroken reading means

  datatype Sort = Starts | Ends | TurnStarts | TurnEnds | MessageStarts | MessageEnds | Responses

  predicate IsSort(e: Event, s: Sort) {
    match s
    case Starts => e.AgentStart?
    case Ends => e.AgentEnd?
    case TurnStarts => e.TurnStart?
    case TurnEnds => e.TurnEnd?
    case MessageStarts => e.MessageStart?
    case MessageEnds => e.MessageEnd?
    case Responses => e.MessageEnd? && e.origin.Response?
  }

  function Count(trace: seq<Event>, s: Sort): nat {
    if trace == [] then 0
    else Count(trace[..|trace| - 1], s) + if IsSort(trace[|trace| - 1], s) then 1 else 0
  }

  lemma {:induction false} PrefixUnbroken(trace: seq<Event>, n: nat)
    requires n <= |trace| && !ReadAll(trace).Broken?
    ensures !ReadAll(trace[..n]).Broken?
    decreases |trace|
  {
    if n < |trace| {
      assert trace[..|trace| - 1][..n] == trace[..n];
      PrefixUnbroken(trace[..|trace| - 1], n);
    } else {
      assert trace[..n] == trace;
    }
  }

  /**
   In every prefix of an unbroken run: the run starts once and ends at most once, turns never nest and
   alternate with their ends, messages never nest, and each finished turn held exactly one response.
   */
  lemma {:induction false} Balanced(trace: seq<Event>)
    requires !ReadAll(trace).Broken?
    ensures var r := ReadAll(trace);
      && Count(trace, Starts) == (if r.BeforeRun? then 0 else 1)
      && Count(trace, Ends) == (if r.AfterRun? then 1 else 0)
      && Count(trace, TurnStarts) - Count(trace, TurnEnds) == (if r.InTurn? then 1 else 0)
      && Count(trace, MessageStarts) - Count(trace, MessageEnds) == (if r.InTurn? && r.open then 1 else 0)
      && Count(trace, Responses) == Count(trace, TurnEnds) + if r.InTurn? then |r.responses| else 0
    decreases |trace|
  {
    if trace != [] {
      var before, e := trace[..|trace| - 1], trace[|trace| - 1];
      Balanced(before);
      ReadBalance(ReadAll(before), e);
      hide Read;
    }
  }

  /** What one event changes about it. */
  lemma ReadBalance(r: Reader, e: Event)
    requires !Read(r, e).Broken?
    ensures var t := Read(r, e);
      && t.BeforeRun? == false && (r.BeforeRun? <==> e.AgentStart?)
      && !r.AfterRun? && (t.AfterRun? <==> e.AgentEnd?) && (e.AgentEnd? ==> r.BetweenTurns?)
      && (e.TurnStart? ==> r.BetweenTurns? && t.InTurn? && !t.open && |t.responses| == 0)
      && (e.TurnEnd? ==> r.InTurn? && !r.open && |r.responses| == 1 && t.BetweenTurns?)
      && (!e.TurnStart? && !e.TurnEnd? ==> r.InTurn? == t.InTurn?)
      && (e.MessageStart? ==> r.InTurn? && !r.open && t.open)
      && (e.MessageEnd? ==> r.InTurn? && r.open && !t.open)
      && (r.InTurn? && t.InTurn? && !e.MessageStart? && !e.MessageEnd? ==> r.open == t.open)
      && (r.InTurn? && t.InTurn? ==> |t.responses| == |r.responses| + if IsSort(e, Responses) then 1 else 0)
  {
  }

  /** How often the call at place `k` has reported since its turn began. */
  function ReportsOf(trace: seq<Event>, k: nat): nat {
    if trace == [] || trace[|trace| - 1].TurnStart? then 0
    else
      var e := trace[|trace| - 1];
      ReportsOf(trace[..|trace| - 1], k) + if e.ToolUpdate? && e.place == k then 1 else 0
  }

  /** The reader counts the reports. */
  lemma {:induction false} ReportsCounted(trace: seq<Event>, k: nat)
    requires ReadAll(trace).InTurn?
    ensures ReadAll(trace).reports[k] == ReportsOf(trace, k)
  {
    var before, e := trace[..|trace| - 1], trace[|trace| - 1];
    if !e.TurnStart? { ReportsCounted(before, k); }
    hide ReadAll;
  }

  /** So in a run that is over, in every stretch of events from its start. */
  lemma RunIsWellFormed(trace: seq<Event>, n: nat)
    requires ReadAll(trace).AfterRun? && n <= |trace|
    ensures var seen := trace[..n];
      && Count(seen, Starts) <= 1 && Count(seen, Ends) <= 1
      && 0 <= Count(seen, TurnStarts) - Count(seen, TurnEnds) <= 1
      && 0 <= Count(seen, MessageStarts) - Count(seen, MessageEnds) <= 1
      && Count(seen, MessageStarts) - Count(seen, MessageEnds) <= Count(seen, TurnStarts) - Count(seen, TurnEnds)
    ensures Count(trace, Starts) == 1 && Count(trace, Ends) == 1 && trace[|trace| - 1].AgentEnd?
    ensures Count(trace, TurnStarts) == Count(trace, TurnEnds) == Count(trace, Responses)
    ensures Count(trace, MessageStarts) == Count(trace, MessageEnds)
  {
    PrefixUnbroken(trace, n);
    Balanced(trace[..n]);
    Balanced(trace);
    hide Count;
  }

  // ---------------------------------------------------------------- each tool call, from start to end

  /** An event of the call at place `k` of the current batch. */
  predicate Concerns(e: Event, k: nat) { (e.ToolStart? || e.ToolUpdate? || e.ToolEnd?) && e.place == k }

  /** From its start at `i` to its end at `j` a call only reports; from there to `t` nothing more is heard of it. */
  predicate Bracket(trace: seq<Event>, i: nat, j: nat, t: nat)
    requires i < j <= t <= |trace| && trace[i].ToolStart?
  {
    var k, id := trace[i].place, trace[i].id;
    && (forall m :: i < m < j && Concerns(trace[m], k) ==> trace[m] == ToolUpdate(k, id))
    && (j < t ==> trace[j] == ToolEnd(k, id))
    && (forall m :: j < m < t ==> !Concerns(trace[m], k))
    && (forall m :: i < m < t ==> !trace[m].TurnEnd?)
  }

  /** Up to `n`: the call still runs (`j == t == n`), has ended in this turn (`j < t == n`), or in an earlier one. */
  predicate Bracketing(trace: seq<Event>, i: nat, n: nat, j: nat, t: nat)
    requires i < n <= |trace| && trace[i].ToolStart?
  {
    var r := ReadAll(trace[..n]);
    && i < j <= t <= n && Bracket(trace, i, j, t)
    && if t < n then j < t && trace[t].TurnEnd?
       else if j < n then DoneIn(r, trace[i].place)
       else RunsIn(r, trace[i].place, trace[i].id)
  }

  predicate RunsIn(r: Reader, k: nat, id: nat) { r.InTurn? && k in r.running && r.running[k] == id }

  predicate DoneIn(r: Reader, k: nat) { r.InTurn? && k in r.done && k !in r.running }

  /** One event seen from a call that runs or is done. */
  lemma CallReads(r: Reader, e: Event, k: nat, id: nat)
    requires !Read(r, e).Broken?
    ensures e == ToolStart(k, id) ==> RunsIn(Read(r, e), k, id)
    ensures RunsIn(r, k, id) && e == ToolEnd(k, id) ==> DoneIn(Read(r, e), k)
    ensures RunsIn(r, k, id) && e != ToolEnd(k, id) ==>
              RunsIn(Read(r, e), k, id) && !e.TurnEnd? && (Concerns(e, k) ==> e == ToolUpdate(k, id))
    ensures DoneIn(r, k) && !e.TurnEnd? ==> DoneIn(Read(r, e), k) && !Concerns(e, k)
  {
  }

  lemma {:induction false} ToolBracketing(trace: seq<Event>, i: nat, n: nat) returns (j: nat, t: nat)
    requires i < n <= |trace| && trace[i].ToolStart? && !ReadAll(trace).Broken?
    ensures Bracketing(trace, i, n, j, t)
    decreases n
  {
    hide ReadAll, Read, RunsIn, DoneIn;
    PrefixUnbroken(trace, n);
    PrefixUnbroken(trace, n - 1);
    assert trace[..n] == trace[..n - 1] + [trace[n - 1]];
    ReadOn(trace[..n - 1], trace[n - 1]);
    CallReads(ReadAll(trace[..n - 1]), trace[n - 1], trace[i].place, trace[i].id);
    if n == i + 1 {
      j, t := n, n;
    } else {
      j, t := ToolBracketing(trace, i, n - 1);
      if t == n - 1 {
        var e := trace[n - 1];
        if j == t && e != ToolEnd(trace[i].place, trace[i].id) {
          j, t := n, n;
        } else if !e.TurnEnd? {
          t := n;
        }
      }
    }
  }

  /**
   In a finished run every start event has its end event in the same turn, exactly one, with only the
   call's own updates before it, and no update after it.
   */
  lemma ToolEndsOnce(trace: seq<Event>, i: nat) returns (j: nat, t: nat)
    requires ReadAll(trace).AfterRun? && i < |trace| && trace[i].ToolStart?
    ensures i < j < t < |trace| && trace[t].TurnEnd? && Bracket(trace, i, j, t)
  {
    j, t := ToolBracketing(trace, i, |trace|);
    assert trace[..|trace|] == trace;
  }

  lemma RunningSince(r: Reader, e: Event, k: nat)
    requires Read(r, e).InTurn? && k in Read(r, e).running
    ensures var id := Read(r, e).running[k];
      || e == ToolStart(k, id)
      || (r.InTurn? && k in r.running && r.running[k] == id && !e.TurnEnd? && e != ToolEnd(k, id))
  {
  }

  /** And nothing is heard of a call that has not started in the same turn. */
  lemma {:induction false} ToolStarted(trace: seq<Event>, k: nat, id: nat) returns (i: nat)
    requires ReadAll(trace).InTurn? && k in ReadAll(trace).running && ReadAll(trace).running[k] == id
    ensures i < |trace| && trace[i] == ToolStart(k, id)
    ensures forall m :: i < m < |trace| ==> !trace[m].TurnEnd? && trace[m] != ToolEnd(k, id)
  {
    TurnsAreLater(trace);
    var last := |trace| - 1;
    RunningSince(ReadAll(trace[..last]), trace[last], k);
    i := last;
    if trace[last] != ToolStart(k, id) { i := ToolStarted(trace[..last], k, id); }
  }

  lemma TurnsAreLater(trace: seq<Event>)
    requires ReadAll(trace).InTurn?
    ensures trace != []
  {
  }

  lemma ToolHeardAfterStart(trace: seq<Event>, m: nat) returns (i: nat)
    requires m < |trace| && !ReadAll(trace).Broken? && (trace[m].ToolUpdate? || trace[m].ToolEnd?)
    ensures i < m && trace[i] == ToolStart(trace[m].place, trace[m].id)
    ensures forall l :: i < l < m ==> !trace[l].TurnEnd? && trace[l] != ToolEnd(trace[m].place, trace[m].id)
  {
    PrefixUnbroken(trace, m + 1);
    PrefixUnbroken(trace, m);
    assert trace[..m + 1] == trace[..m] + [trace[m]];
    ReadOn(trace[..m], trace[m]);
    i := ToolStarted(trace[..m], trace[m].place, trace[m].id);
  }
}
