/**
 The history of an agent run's decisions: what the hooks answered that may replace its context or stop it,
 what each poll of a queue found, and the context each turn ended with, in order with the events that
 bound the run and its turns; and the rules every such history follows.
 */
module AgentLedger {
  import opened AgentEvents
  import opened Common

  /**
   `asked` is when the hook before a later turn was asked, `told` how many messages the run had told by then, or by
   the turn's end.
   */
  datatype Moment =
    | Mark(event: Event)
    | TurnPrepared(asked: nat, answer: Option<seq<Message>>, told: nat)
    | InHand(context: seq<Message>, told: nat)
    | StopAsked(stop: bool)
    | SteeringPolled(found: seq<Message>)
    | FollowUpsPolled(found: seq<Message>)

  // ---------------------------------------------------------------- what a history records

  predicate IsMark(e: Event) { e.AgentStart? || e.AgentEnd? || e.TurnStart? || e.TurnEnd? }

  function LedgerAfter(l: seq<Moment>, e: Event): seq<Moment> { if IsMark(e) then l + [Mark(e)] else l }

  /** The events that bound the run and its turns. */
  function MarksOf(trace: seq<Event>): seq<Event> {
    if trace == [] then []
    else
      var e := trace[|trace| - 1];
      MarksOf(trace[..|trace| - 1]) + if IsMark(e) then [e] else []
  }

  function MarksIn(l: seq<Moment>): seq<Event> {
    if l == [] then []
    else
      var x := l[|l| - 1];
      MarksIn(l[..|l| - 1]) + if x.Mark? then [x.event] else []
  }

  /** What all polls of one queue found. */
  function SteeringIn(l: seq<Moment>): seq<Message> {
    if l == [] then []
    else
      var x := l[|l| - 1];
      SteeringIn(l[..|l| - 1]) + if x.SteeringPolled? then x.found else []
  }

  function FollowUpsIn(l: seq<Moment>): seq<Message> {
    if l == [] then []
    else
      var x := l[|l| - 1];
      FollowUpsIn(l[..|l| - 1]) + if x.FollowUpsPolled? then x.found else []
  }

  /** The history tells of exactly these events and these drains. */
  predicate Books(l: seq<Moment>, trace: seq<Event>, steered: seq<Message>, followed: seq<Message>) {
    MarksIn(l) == MarksOf(trace) && steered == SteeringIn(l) && followed == FollowUpsIn(l)
  }

  lemma BooksNothing()
    ensures Books([], [], [], [])
  {
  }

  lemma LedgerOn(l: seq<Moment>, x: Moment)
    ensures MarksIn(l + [x]) == MarksIn(l) + if x.Mark? then [x.event] else []
    ensures SteeringIn(l + [x]) == SteeringIn(l) + if x.SteeringPolled? then x.found else []
    ensures FollowUpsIn(l + [x]) == FollowUpsIn(l) + if x.FollowUpsPolled? then x.found else []
  {
    assert (l + [x])[..|l|] == l;
  }

  lemma MarksOn(trace: seq<Event>, e: Event)
    ensures MarksOf(trace + [e]) == MarksOf(trace) + if IsMark(e) then [e] else []
  {
    assert (trace + [e])[..|trace|] == trace;
  }

  lemma BooksEvent(l: seq<Moment>, trace: seq<Event>, steered: seq<Message>, followed: seq<Message>, e: Event)
    requires Books(l, trace, steered, followed)
    ensures Books(LedgerAfter(l, e), trace + [e], steered, followed)
  {
    MarksOn(trace, e);
    LedgerOn(l, Mark(e));
    hide MarksOf, MarksIn, SteeringIn, FollowUpsIn;
    assert MarksIn(l) + [] == MarksIn(l) && SteeringIn(l) + [] == SteeringIn(l) &&
      FollowUpsIn(l) + [] == FollowUpsIn(l);
  }

  lemma BooksPoll(l: seq<Moment>, trace: seq<Event>, steered: seq<Message>, followed: seq<Message>, x: Moment)
    requires Books(l, trace, steered, followed) && !x.Mark?
    ensures Books(l + [x], trace, steered + (if x.SteeringPolled? then x.found else []),
      followed + if x.FollowUpsPolled? then x.found else [])
  {
    LedgerOn(l, x);
    hide MarksOf, MarksIn, SteeringIn, FollowUpsIn;
    assert MarksIn(l) + [] == MarksIn(l);
  }

  /** A moment that is no event and no poll. */
  lemma BooksOther(l: seq<Moment>, trace: seq<Event>, steered: seq<Message>, followed: seq<Message>, x: Moment)
    requires Books(l, trace, steered, followed) && (x.TurnPrepared? || x.InHand? || x.StopAsked?)
    ensures Books(l + [x], trace, steered, followed)
  {
    BooksPoll(l, trace, steered, followed, x);
    assert steered + [] == steered && followed + [] == followed;
  }

  // ---------------------------------------------------------------- the context

  predicate Replaces(x: Moment) { x.TurnPrepared? && x.answer.Some? }

  /**
   The loop's context after these moments, `told` being all the run has told: what it began with followed by
   that, or the last replacement followed by what has been told since.
   */
  function ContextAfter(l: seq<Moment>, base: seq<Message>, told: seq<Message>): seq<Message> {
    if l == [] then base + told
    else
      match l[|l| - 1]
      case TurnPrepared(_, Some(c), n) => if n <= |told| then c + told[n..] else c
      case _ => ContextAfter(l[..|l| - 1], base, told)
  }

  /** How much had been told when the context was last replaced. */
  function ContextFrom(l: seq<Moment>): nat {
    if l == [] then 0
    else if Replaces(l[|l| - 1]) then l[|l| - 1].told
    else ContextFrom(l[..|l| - 1])
  }

  /** How much had been told when the last turn ended. */
  function LastTold(l: seq<Moment>): nat {
    if l == [] then 0
    else if l[|l| - 1].InHand? then l[|l| - 1].told
    else LastTold(l[..|l| - 1])
  }

  lemma ContextOn(l: seq<Moment>, x: Moment, base: seq<Message>, told: seq<Message>)
    ensures !Replaces(x) ==> ContextAfter(l + [x], base, told) == ContextAfter(l, base, told)
    ensures !Replaces(x) ==> ContextFrom(l + [x]) == ContextFrom(l)
    ensures Replaces(x) && x.told <= |told| ==> ContextAfter(l + [x], base, told) == x.answer.value + told[x.told..]
    ensures LastTold(l + [x]) == if x.InHand? then x.told else LastTold(l)
  {
    assert (l + [x])[..|l|] == l;
  }

  lemma {:induction false} ContextGrows(l: seq<Moment>, base: seq<Message>, told: seq<Message>, more: seq<Message>)
    requires ContextFrom(l) <= |told|
    ensures ContextAfter(l, base, told + more) == ContextAfter(l, base, told) + more
  {
    if l == [] {
      assert base + (told + more) == base + told + more;
    } else if Replaces(l[|l| - 1]) {
      var c, n := l[|l| - 1].answer.value, l[|l| - 1].told;
      assert (told + more)[n..] == told[n..] + more;
      assert c + (told[n..] + more) == c + told[n..] + more;
    } else {
      ContextGrows(l[..|l| - 1], base, told, more);
    }
  }

  /** Answers are the hook's; a turn ends with the context that the moments before it give. */
  predicate HandedAt(l: seq<Moment>, p: nat, base: seq<Message>, told: seq<Message>, hook: nat -> Option<seq<Message>>)
    requires p < |l|
  {
    match l[p]
    case InHand(context, n) =>
      ContextFrom(l[..p]) <= n <= |told| && context == ContextAfter(l[..p], base, told[..n])
    case TurnPrepared(asked, answer, n) => n <= |told| && answer == hook(asked)
    case _ => true
  }

  predicate Handed(l: seq<Moment>, base: seq<Message>, told: seq<Message>, hook: nat -> Option<seq<Message>>) {
    forall p :: 0 <= p < |l| ==> HandedAt(l, p, base, told, hook)
  }

  lemma {:induction false} FromBound(l: seq<Moment>, base: seq<Message>, told: seq<Message>,
                                     hook: nat -> Option<seq<Message>>)
    requires Handed(l, base, told, hook)
    ensures ContextFrom(l) <= |told|
  {
    if l != [] {
      var last := |l| - 1;
      assert HandedAt(l, last, base, told, hook);
      if !Replaces(l[last]) {
        HandedPrefix(l, last, base, told, hook);
        FromBound(l[..last], base, told, hook);
      }
    }
  }

  lemma HandedPrefix(l: seq<Moment>, n: nat, base: seq<Message>, told: seq<Message>, hook: nat -> Option<seq<Message>>)
    requires Handed(l, base, told, hook) && n <= |l|
    ensures Handed(l[..n], base, told, hook)
  {
    hide ContextAfter, ContextFrom;
    forall p | 0 <= p < n ensures HandedAt(l[..n], p, base, told, hook) {
      assert HandedAt(l, p, base, told, hook) && l[..n][..p] == l[..p];
    }
  }

  lemma HandedMore(l: seq<Moment>, base: seq<Message>, told: seq<Message>, more: seq<Message>,
                   hook: nat -> Option<seq<Message>>)
    requires Handed(l, base, told, hook)
    ensures Handed(l, base, told + more, hook)
  {
    hide ContextAfter, ContextFrom;
    forall p | 0 <= p < |l| ensures HandedAt(l, p, base, told + more, hook) {
      assert HandedAt(l, p, base, told, hook);
      if l[p].InHand? { assert (told + more)[..l[p].told] == told[..l[p].told]; }
    }
  }

  lemma HandedNext(l: seq<Moment>, x: Moment, base: seq<Message>, told: seq<Message>,
                   hook: nat -> Option<seq<Message>>)
    requires Handed(l, base, told, hook)
    requires x.TurnPrepared? ==> x.told == |told| && x.answer == hook(x.asked)
    requires x.InHand? ==> x.told == |told| && x.context == ContextAfter(l, base, told)
    ensures Handed(l + [x], base, told, hook)
  {
    FromBound(l, base, told, hook);
    hide ContextAfter, ContextFrom;
    var m := l + [x];
    assert told[..|told|] == told && m[..|l|] == l;
    forall p | 0 <= p < |m| ensures HandedAt(m, p, base, told, hook) {
      if p < |l| { assert HandedAt(l, p, base, told, hook) && m[..p] == l[..p]; }
    }
  }

  /** How much had been told at each turn's end. */
  function CountsOf(trace: seq<Event>): seq<nat> {
    if trace == [] then []
    else
      var before := trace[..|trace| - 1];
      CountsOf(before) + if trace[|trace| - 1].TurnEnd? then [|Told(before)|] else []
  }

  /** What the moment before this one says of it. */
  function CountAt(l: seq<Moment>, n: nat): nat
    requires n < |l|
  {
    if n > 0 && l[n - 1].InHand? then l[n - 1].told else 0
  }

  function CountsIn(l: seq<Moment>): seq<nat> {
    if l == [] then []
    else
      var n := |l| - 1;
      CountsIn(l[..n]) + if TurnEndAt(l, n) then [CountAt(l, n)] else []
  }

  lemma CountsOn(l: seq<Moment>, x: Moment)
    ensures CountsIn(l + [x]) == CountsIn(l) + if TurnEndAt(l + [x], |l|) then [CountAt(l + [x], |l|)] else []
  {
    assert (l + [x])[..|l|] == l;
  }

  lemma CountsAfter(trace: seq<Event>, e: Event)
    ensures CountsOf(trace + [e]) == CountsOf(trace) + if e.TurnEnd? then [|Told(trace)|] else []
  {
    assert (trace + [e])[..|trace|] == trace;
  }

  predicate OutsideTurns(r: Reader) { r.BeforeRun? || r.BetweenTurns? }

  /** The history tells with which context each turn ended, and of every answer of the hook. */
  predicate Carries(l: seq<Moment>, trace: seq<Event>, base: seq<Message>, hook: nat -> Option<seq<Message>>) {
    && CountsIn(l) == CountsOf(trace) && Handed(l, base, Told(trace), hook)
    && (OutsideTurns(ReadAll(trace)) ==> LastTold(l) == |Told(trace)|)
  }

  lemma CarriesNothing(base: seq<Message>, hook: nat -> Option<seq<Message>>)
    ensures Carries([], [], base, hook)
  {
  }

  /** What the moment before a turn's end event has to be. */
  predicate Ready(l: seq<Moment>, trace: seq<Event>, e: Event) {
    e.TurnEnd? ==> l != [] && l[|l| - 1].InHand? && l[|l| - 1].told == |Told(trace)|
  }

  lemma CarriesEvent(l: seq<Moment>, trace: seq<Event>, base: seq<Message>, hook: nat -> Option<seq<Message>>, e: Event)
    requires Carries(l, trace, base, hook) && Ready(l, trace, e) && (e.AgentStart? ==> trace == [])
    requires !Read(ReadAll(trace), e).Broken?
    ensures Carries(LedgerAfter(l, e), trace + [e], base, hook)
  {
    ReadOn(trace, e);
    ToldOn(trace, e);
    CountsAfter(trace, e);
    CountsOn(l, Mark(e));
    EdgeAfter(ReadAll(trace), e);
    ContextOn(l, Mark(e), base, Told(trace));
    if e.TurnEnd? { LastInHand(l); }
    hide ReadAll, Read, Told, CountsOf, CountsIn, Handed, LastTold, ContextAfter, ContextFrom;
    assert CountsIn(l) + [] == CountsIn(l) && CountsOf(trace) + [] == CountsOf(trace);
    if e.MessageEnd? { HandedMore(l, base, Told(trace), [e.message], hook); }
    HandedNext(l, Mark(e), base, Told(trace), hook);
  }

  lemma EdgeAfter(r: Reader, e: Event)
    ensures OutsideTurns(Read(r, e)) ==> e.AgentStart? || e.TurnEnd?
  {
  }

  lemma LastInHand(l: seq<Moment>)
    requires l != [] && l[|l| - 1].InHand?
    ensures LastTold(l) == l[|l| - 1].told
  {
  }

  lemma CarriesNext(l: seq<Moment>, trace: seq<Event>, base: seq<Message>, hook: nat -> Option<seq<Message>>, x: Moment)
    requires Carries(l, trace, base, hook) && !x.Mark?
    requires x.TurnPrepared? ==> x.told == |Told(trace)| && x.answer == hook(x.asked)
    requires x.InHand? ==> x.told == |Told(trace)| && x.context == ContextAfter(l, base, Told(trace))
    ensures Carries(l + [x], trace, base, hook)
  {
    CountsOn(l, x);
    ContextOn(l, x, base, Told(trace));
    HandedNext(l, x, base, Told(trace), hook);
    hide ReadAll, Told, CountsOf, CountsIn, Handed, LastTold, ContextAfter, ContextFrom;
    assert CountsIn(l) + [] == CountsIn(l);
  }

  // ---------------------------------------------------------------- the rules

  predicate Failed(m: Message) { m.stopReason.Error? || m.stopReason.Aborted? }

  /** Every result asks to stop. */
  predicate AllStop(results: seq<Message>) {
    results != [] && forall i :: 0 <= i < |results| ==> results[i].answers.Some? && results[i].answers.value.1.terminate
  }

  /** The calls of a finished turn that want the model to see their results. */
  predicate Owes(m: Message, results: seq<Message>) {
    !Failed(m) && m.calls != [] && (m.stopReason.Length? || !AllStop(results))
  }

  predicate TurnEndAt(l: seq<Moment>, k: int) { 0 <= k < |l| && l[k].Mark? && l[k].event.TurnEnd? }

  predicate OwesAt(l: seq<Moment>, k: int) {
    TurnEndAt(l, k) && Owes(l[k].event.message, l[k].event.toolResults)
  }

  predicate FailedAt(l: seq<Moment>, k: int) { TurnEndAt(l, k) && Failed(l[k].event.message) }

  /** After `n` moments: the last turn has not failed, and the hook asked about it has answered `stop`. */
  predicate Asked(l: seq<Moment>, n: int, stop: bool) {
    2 <= n <= |l| && TurnEndAt(l, n - 2) && !FailedAt(l, n - 2) && l[n - 1] == StopAsked(stop)
  }

  /** It has let the run go on, and steering has just been polled. */
  predicate Polled(l: seq<Moment>, n: int, found: seq<Message>, owes: bool) {
    3 <= n <= |l| && Asked(l, n - 1, false) && l[n - 1] == SteeringPolled(found) && OwesAt(l, n - 3) == owes
  }

  predicate FoundFollowUps(l: seq<Moment>, n: int, found: seq<Message>) {
    4 <= n <= |l| && l[n - 1] == FollowUpsPolled(found) && Polled(l, n - 1, [], false)
  }

  /** Something wants another turn: calls, steering, or follow-ups. */
  predicate TurnWanted(l: seq<Moment>, n: int) {
    1 <= n <= |l| && match l[n - 1]
      case SteeringPolled(found) => Polled(l, n, found, true) || (found != [] && Polled(l, n, found, false))
      case FollowUpsPolled(found) => found != [] && FoundFollowUps(l, n, found)
      case _ => false
  }

  predicate PreparedFor(l: seq<Moment>, n: int) { 2 <= n <= |l| && l[n - 1].TurnPrepared? && TurnWanted(l, n - 1) }

  /** The turn has been prepared; when calls alone want it, steering has been polled once more. */
  predicate TurnDue(l: seq<Moment>, n: int) {
    if 1 <= n <= |l| && l[n - 1].SteeringPolled? then PreparedFor(l, n - 1) && Polled(l, n - 2, [], true)
    else PreparedFor(l, n) && !Polled(l, n - 1, [], true)
  }

  /** Nothing does, or the run must not go on. */
  predicate EndDue(l: seq<Moment>, n: int) {
    1 <= n <= |l| && (FailedAt(l, n - 1) || Asked(l, n, true) || FoundFollowUps(l, n, []))
  }

  /** A turn has begun and has not ended. */
  predicate TurnOpenAt(l: seq<Moment>, n: int) {
    2 <= n <= |l| && (l[n - 1] == Mark(TurnStart) || (n == 3 && l[2].SteeringPolled?))
  }

  /**
   Whether `l[n]` may follow what is before it: each decision is taken where the rules ask for it, and nowhere else.
   */
  predicate Follows(l: seq<Moment>, n: nat)
    requires n < |l|
  {
    match l[n]
    case Mark(AgentStart) => n == 0
    case Mark(TurnStart) => (n == 1 && l[0] == Mark(AgentStart)) || TurnDue(l, n)
    case Mark(TurnEnd(_, _)) => n >= 1 && l[n - 1].InHand?
    case Mark(AgentEnd(_)) => EndDue(l, n)
    case Mark(_) => false
    case InHand(_, _) => TurnOpenAt(l, n)
    case StopAsked(_) => TurnEndAt(l, n - 1) && !FailedAt(l, n - 1)
    case TurnPrepared(_, _, told) => TurnWanted(l, n) && told == LastTold(l[..n])
    case SteeringPolled(_) =>
      || (n == 2 && l[1] == Mark(TurnStart)) || Asked(l, n, false)
      || (PreparedFor(l, n) && Polled(l, n - 1, [], true))
    case FollowUpsPolled(_) => Polled(l, n, [], false)
  }

  predicate Sound(l: seq<Moment>) { forall k :: 0 <= k < |l| ==> Follows(l, k) }

  /** The rules look back only. */
  lemma FollowsStill(l: seq<Moment>, x: Moment, k: nat)
    requires k < |l|
    ensures Follows(l + [x], k) == Follows(l, k)
  {
    hide Failed, Owes, LastTold;
    forall i | 0 <= i <= k ensures (l + [x])[i] == l[i] { }
    assert (l + [x])[..k] == l[..k];
  }

  lemma SoundNext(l: seq<Moment>, x: Moment)
    requires Sound(l) && Follows(l + [x], |l|)
    ensures Sound(l + [x])
  {
    forall k | 0 <= k < |l + [x]| ensures Follows(l + [x], k) {
      if k < |l| { FollowsStill(l, x, k); }
    }
  }

  predicate TurnOpen(l: seq<Moment>) { TurnOpenAt(l, |l|) }

  /** How the loop stands at a turn's edge: what the last poll found, and whether calls want another turn. */
  predicate Standing(l: seq<Moment>, owes: bool, waiting: seq<Message>, origin: Origin) {
    if origin.FollowUp? then FoundFollowUps(l, |l|, waiting) else Polled(l, |l|, waiting, owes)
  }

  // ---------------------------------------------------------------- one more moment

  lemma FirstLedger()
    ensures Sound([Mark(AgentStart), Mark(TurnStart)]) && TurnOpen([Mark(AgentStart), Mark(TurnStart)])
  {
  }

  lemma PollFirst(found: seq<Message>)
    ensures var l := [Mark(AgentStart), Mark(TurnStart)] + [SteeringPolled(found)]; Sound(l) && TurnOpen(l)
  {
    FirstLedger();
    SoundNext([Mark(AgentStart), Mark(TurnStart)], SteeringPolled(found));
  }

  /** A turn ends. */
  lemma EndTurn(l: seq<Moment>, context: seq<Message>, told: nat, m: Message, results: seq<Message>)
    requires Sound(l) && TurnOpen(l)
    ensures Sound(l + [InHand(context, told)] + [Mark(TurnEnd(m, results))])
  {
    SoundNext(l, InHand(context, told));
    SoundNext(l + [InHand(context, told)], Mark(TurnEnd(m, results)));
  }

  lemma Ask(l: seq<Moment>, stop: bool)
    requires Sound(l) && TurnEndAt(l, |l| - 1) && !FailedAt(l, |l| - 1)
    ensures Sound(l + [StopAsked(stop)]) && Asked(l + [StopAsked(stop)], |l| + 1, stop)
  {
    SoundNext(l, StopAsked(stop));
  }

  lemma Poll(l: seq<Moment>, found: seq<Message>)
    requires Sound(l) && TurnEndAt(l, |l| - 1) && !FailedAt(l, |l| - 1)
    ensures var m := l + [StopAsked(false)] + [SteeringPolled(found)];
      Sound(m) && Polled(m, |m|, found, OwesAt(l, |l| - 1)) && Standing(m, OwesAt(l, |l| - 1), found, Steering)
  {
    Ask(l, false);
    SoundNext(l + [StopAsked(false)], SteeringPolled(found));
  }

  /** The hook has been asked before a turn that something wants. */
  lemma PrepareNext(l: seq<Moment>, x: Moment)
    requires Sound(l) && TurnWanted(l, |l|) && x.TurnPrepared? && x.told == LastTold(l)
    ensures Sound(l + [x]) && PreparedFor(l + [x], |l| + 1)
    ensures Polled(l + [x], |l|, [], true) == Polled(l, |l|, [], true)
  {
    var m := l + [x];
    forall i | 0 <= i < |l| ensures m[i] == l[i] { }
    assert m[..|l|] == l;
    SoundNext(l, x);
  }

  lemma PollAgain(l: seq<Moment>, found: seq<Message>)
    requires Sound(l) && PreparedFor(l, |l|) && Polled(l, |l| - 1, [], true)
    ensures Sound(l + [SteeringPolled(found)]) && TurnDue(l + [SteeringPolled(found)], |l| + 1)
  {
    var m := l + [SteeringPolled(found)];
    forall i | 0 <= i < |l| ensures m[i] == l[i] { }
    SoundNext(l, SteeringPolled(found));
  }

  lemma PollLast(l: seq<Moment>, found: seq<Message>)
    requires Sound(l) && Polled(l, |l|, [], false)
    ensures Sound(l + [FollowUpsPolled(found)]) && FoundFollowUps(l + [FollowUpsPolled(found)], |l| + 1, found)
  {
    StillPolled(l, FollowUpsPolled(found), [], false);
    SoundNext(l, FollowUpsPolled(found));
  }

  lemma StillPolled(l: seq<Moment>, x: Moment, found: seq<Message>, owes: bool)
    requires Polled(l, |l|, found, owes)
    ensures Polled(l + [x], |l|, found, owes)
  {
    var m := l + [x];
    assert m[|l| - 1] == l[|l| - 1] && m[|l| - 2] == l[|l| - 2] && m[|l| - 3] == l[|l| - 3];
  }

  lemma StandingMeans(l: seq<Moment>, owes: bool, waiting: seq<Message>, origin: Origin)
    requires Standing(l, owes, waiting, origin) && (waiting != [] || (owes && !origin.FollowUp?))
    ensures TurnWanted(l, |l|) && (waiting == [] <==> Polled(l, |l|, [], true))
  {
  }

  lemma BeginTurn(l: seq<Moment>)
    requires Sound(l) && TurnDue(l, |l|)
    ensures Sound(l + [Mark(TurnStart)]) && TurnOpen(l + [Mark(TurnStart)])
  {
    var m := l + [Mark(TurnStart)];
    forall i | 0 <= i < |l| ensures m[i] == l[i] { }
    SoundNext(l, Mark(TurnStart));
  }

  /** A round that ends the run: its turn has failed, or the hook stops it. */
  lemma EndOfRound(ended: seq<Moment>, l: seq<Moment>)
    requires Sound(l) && TurnEndAt(ended, |ended| - 1)
    requires (l == ended && FailedAt(l, |l| - 1)) || Asked(l, |l|, true)
    ensures EndDue(l, |l|)
  {
  }

  lemma FinishLedger(l: seq<Moment>, newMessages: seq<Message>)
    requires Sound(l) && EndDue(l, |l|)
    ensures Complete(l + [Mark(AgentEnd(newMessages))])
  {
    var m := l + [Mark(AgentEnd(newMessages))];
    forall i | 0 <= i < |l| ensures m[i] == l[i] { }
    SoundNext(l, Mark(AgentEnd(newMessages)));
  }

  // ---------------------------------------------------------------- what the rules mean

  predicate Complete(l: seq<Moment>) { Sound(l) && l != [] && l[|l| - 1].Mark? && l[|l| - 1].event.AgentEnd? }

  /** Follow-ups are asked for only when no tool call is left and the steering poll just before was empty. */
  lemma FollowUpsComeLast(l: seq<Moment>, k: nat)
    requires Sound(l) && k < |l| && l[k].FollowUpsPolled?
    ensures k >= 3 && l[k - 1] == SteeringPolled([]) && l[k - 2] == StopAsked(false)
    ensures TurnEndAt(l, k - 3) && !OwesAt(l, k - 3) && !FailedAt(l, k - 3)
  {
    assert Follows(l, k);
  }

  /** A run ends because its last turn failed, because the hook stops it, or because nothing is left to do. */
  lemma EndsForAReason(l: seq<Moment>)
    requires Complete(l)
    ensures var n := |l| - 1;
      || FailedAt(l, n - 1)
      || (TurnEndAt(l, n - 2) && l[n - 1] == StopAsked(true))
      || (TurnEndAt(l, n - 4) && !OwesAt(l, n - 4) && l[n - 3] == StopAsked(false)
          && l[n - 2] == SteeringPolled([]) && l[n - 1] == FollowUpsPolled([]))
  {
    assert Follows(l, |l| - 1);
  }

  predicate Found(x: Moment) { (x.SteeringPolled? || x.FollowUpsPolled?) && x.found != [] }

  /**
   Every turn but the first has its reason: calls that want it, or a poll since the last turn that found something.
   Before it the hook has been asked, once, with nothing told since that turn ended.
   */
  lemma TurnsHaveReasons(l: seq<Moment>, k: nat) returns (e: nat, asked: nat)
    requires Sound(l) && 1 < k < |l| && l[k] == Mark(TurnStart)
    ensures 0 < e && e + 1 < asked < k && TurnEndAt(l, e) && !FailedAt(l, e) && l[e + 1] == StopAsked(false)
    ensures forall i :: e < i < k ==> !l[i].Mark? && !l[i].InHand?
    ensures OwesAt(l, e) || exists i :: e < i < k && Found(l[i])
    ensures forall i :: e < i < k ==> (l[i].TurnPrepared? <==> i == asked)
    ensures l[e - 1].InHand? && l[asked].told == l[e - 1].told
  {
    assert Follows(l, k);
    asked := if l[k - 1].SteeringPolled? then k - 2 else k - 1;
    assert Follows(l, asked);
    e := if l[asked - 1].FollowUpsPolled? then asked - 4 else asked - 3;
    assert Follows(l, e);
    LastToldIs(l, e, asked);
    if !OwesAt(l, e) { assert Found(l[asked - 1]); }
  }

  lemma {:induction false} LastToldIs(l: seq<Moment>, e: nat, n: nat)
    requires 0 < e <= n <= |l| && l[e - 1].InHand? && forall i :: e <= i < n ==> !l[i].InHand?
    ensures LastTold(l[..n]) == l[e - 1].told
  {
    if n > e {
      assert l[..n][..n - 1] == l[..n - 1];
      LastToldIs(l, e, n - 1);
    }
  }

  /** In a run that is over, every moment but the last has its successor, which its rule allows. */
  lemma HasNext(l: seq<Moment>, k: nat)
    requires Complete(l) && k < |l| && !(l[k].Mark? && l[k].event.AgentEnd?)
    ensures k + 1 < |l| && Follows(l, k + 1)
  {
  }

  /**
   Calls that want another turn get one: unless the hook stops the run, the next event is a turn's start,
   with nothing but its preparation and polls of steering before it. Follow-ups are not asked for.
   */
  lemma OwedTurnFollows(l: seq<Moment>, k: nat) returns (next: nat)
    requires Complete(l) && OwesAt(l, k)
    ensures k + 1 < next < |l| && l[next].Mark? && l[k + 1].StopAsked?
    ensures if l[k + 1].stop then next == k + 2 && l[next].event.AgentEnd? else l[next].event.TurnStart?
    ensures forall i :: k + 1 < i < next ==> l[i].SteeringPolled? || l[i].TurnPrepared?
  {
    assert k >= 2 by { OwingIsLate(l, k); }
    hide Complete, Owes, LastTold;
    HasNext(l, k);
    assert !FailedAt(l, k) by { OwingIsNoFailure(l, k); }
    HasNext(l, k + 1);
    if l[k + 1].stop {
      next := k + 2;
    } else {
      HasNext(l, k + 2);
      HasNext(l, k + 3);
      if l[k + 4].Mark? {
        next := k + 4;
      } else {
        HasNext(l, k + 4);
        next := k + 5;
      }
    }
  }

  lemma OwingIsLate(l: seq<Moment>, k: nat)
    requires Sound(l) && OwesAt(l, k)
    ensures k >= 3
  {
    assert Follows(l, k);
    assert Follows(l, k - 1);
  }

  lemma OwingIsNoFailure(l: seq<Moment>, k: nat)
    requires OwesAt(l, k)
    ensures !FailedAt(l, k)
  {
  }

  // ---------------------------------------------------------------- the context at each turn's end

  lemma {:induction false} ToldPrefix(trace: seq<Event>, q: nat)
    requires q <= |trace|
    ensures Told(trace[..q]) <= Told(trace)
  {
    if q == |trace| {
      assert trace[..q] == trace;
    } else {
      var last := |trace| - 1;
      assert trace[..last][..q] == trace[..q];
      ToldPrefix(trace[..last], q);
    }
  }

  /** Where the history tells of a turn's end event. */
  lemma {:induction false} TurnEndIn(l: seq<Moment>, trace: seq<Event>, q: nat) returns (n: nat)
    requires MarksIn(l) == MarksOf(trace) && CountsIn(l) == CountsOf(trace) && q < |trace| && trace[q].TurnEnd?
    ensures n < |l| && l[n] == Mark(trace[q]) && CountAt(l, n) == |Told(trace[..q])|
    decreases |l| + |trace|
  {
    var t := |trace| - 1;
    if !IsMark(trace[t]) {
      assert trace[..t][..q] == trace[..q];
      n := TurnEndIn(l, trace[..t], q);
      return;
    }
    assert l != [];
    var p := |l| - 1;
    if !l[p].Mark? {
      n := TurnEndIn(l[..p], trace, q);
      assert CountAt(l, n) == CountAt(l[..p], n);
      return;
    }
    SameLast(MarksIn(l[..p]), l[p].event, MarksOf(trace[..t]), trace[t]);
    if trace[t].TurnEnd? {
      SameLast(CountsIn(l[..p]), CountAt(l, p), CountsOf(trace[..t]), |Told(trace[..t])|);
    } else {
      assert CountsIn(l[..p]) + [] == CountsIn(l[..p]) && CountsOf(trace[..t]) + [] == CountsOf(trace[..t]);
    }
    if q == t {
      n := p;
    } else {
      assert trace[..t][..q] == trace[..q];
      n := TurnEndIn(l[..p], trace[..t], q);
      assert CountAt(l, n) == CountAt(l[..p], n);
    }
  }

  lemma SameLast<T>(a: seq<T>, x: T, b: seq<T>, y: T)
    requires a + [x] == b + [y]
    ensures a == b && x == y
  {
    assert |a| == |b| && (a + [x])[|a|] == x && (b + [y])[|b|] == y;
    assert a == (a + [x])[..|a|] && b == (b + [y])[..|b|];
  }

  lemma {:induction false} NeverReplaced(l: seq<Moment>, base: seq<Message>, told: seq<Message>)
    requires forall i :: 0 <= i < |l| ==> !Replaces(l[i])
    ensures ContextAfter(l, base, told) == base + told
  {
    if l != [] { NeverReplaced(l[..|l| - 1], base, told); }
  }

  lemma {:induction false} LastReplaced(l: seq<Moment>, i: nat, base: seq<Message>, told: seq<Message>)
    requires i < |l| && Replaces(l[i]) && forall j :: i < j < |l| ==> !Replaces(l[j])
    ensures ContextFrom(l) == l[i].told
    ensures l[i].told <= |told| ==> ContextAfter(l, base, told) == l[i].answer.value + told[l[i].told..]
  {
    if i < |l| - 1 { LastReplaced(l[..|l| - 1], i, base, told); }
  }

  /**
   At every turn's end, of a run cut off too: the context is what the run began with followed by everything
   told so far, if no answer of the hook has replaced it; otherwise the last replacement followed by
   what has been told since.
   */
  lemma ContextAtTurnEnd(l: seq<Moment>, trace: seq<Event>, base: seq<Message>, hook: nat -> Option<seq<Message>>,
                         q: nat)
    returns (p: nat)
    requires Sound(l) && MarksIn(l) == MarksOf(trace) && Carries(l, trace, base, hook)
    requires q < |trace| && trace[q].TurnEnd?
    ensures p + 1 < |l| && l[p].InHand? && l[p + 1] == Mark(trace[q])
    ensures (forall i :: 0 <= i < p ==> !Replaces(l[i])) ==> l[p].context == base + Told(trace[..q])
    ensures forall i :: 0 <= i < p && Replaces(l[i]) && (forall j :: i < j < p ==> !Replaces(l[j])) ==>
              && l[i].answer == hook(l[i].asked) && l[i].told <= |Told(trace[..q])|
              && l[p].context == l[i].answer.value + Told(trace[..q])[l[i].told..]
  {
    var n := TurnEndIn(l, trace, q);
    assert Follows(l, n);
    p := n - 1;
    var told := Told(trace[..q]);
    assert HandedAt(l, p, base, Told(trace), hook);
    ToldPrefix(trace, q);
    assert Told(trace)[..l[p].told] == told;
    hide Follows, Told, ContextAfter, ContextFrom, MarksIn, MarksOf, CountsIn, CountsOf, LastTold, ReadAll;
    if forall i :: 0 <= i < p ==> !Replaces(l[i]) { NeverReplaced(l[..p], base, told); }
    forall i | 0 <= i < p && Replaces(l[i]) && (forall j :: i < j < p ==> !Replaces(l[j]))
      ensures && l[i].answer == hook(l[i].asked) && l[i].told <= |told|
              && l[p].context == l[i].answer.value + told[l[i].told..]
    {
      assert HandedAt(l, i, base, Told(trace), hook);
      LastReplaced(l[..p], i, base, told);
    }
  }
}
