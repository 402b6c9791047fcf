/**
 What the router does go on to do: an attach operation gives up only for a reason, an operation resumes
 as soon as what it waits for has settled, an open hosts its session, and shutdown moves on.
 */
module RouterProgress {
  import opened Common
  import P = PromiseChain
  import opened SessionRouter
  import opened RouterSafety
  import opened RouterFlow
  import opened RouterSteps
  import opened RouterTheorems
  import opened RouterReleases
  import Outcomes = RouterOutcomes
  import Shutdown = RouterShutdown
  import O = RouterOrder

  // ---------------------------------------------------------------- why an attach operation settles

  /** Refused because the client is leaving or the router closing, or there is nothing to do. */
  predicate NotNeeded(s: Router, c: nat, id: nat) {
    || s.closing || c in s.leaving
    || (c in s.byClient && SessionIdOf(s, s.byClient[c]) == Some(id))
  }

  /** Done, or one of the things it waited for has failed. */
  predicate DoneOrFailed(s: Router, c: nat, at: Suspended, ok: bool) {
    match at
    case AwaitingNotice(a) => WasCurrent(s, a, c)
    case AwaitingOpen(o, _) => Barred(s, c) || (o < |s.opens| && s.opens[o].status.NotOpened?)
    case AwaitingHosted(_, _) => Barred(s, c)
    case AwaitingSwitch(_, previous) => IsOver(s, previous) && !ok
    case AwaitingLease(a) => a < |s.attachments| && s.attachments[a].lease.Refused?
    case AwaitingUndo(a) => IsOver(s, a)
    case AwaitingRelease(_) => false
  }

  /**
   An attach operation settles when its turn comes, if it is refused or already attached; or because its attachment has
   become the client's own and its notice has settled; or because the open, the release of the previous attachment, or
   the lease failed, or the attachment it could not use has been undone; or because it is refused by then.
   */
  lemma AttachSettlesForAReason(actions: seq<Action>, n: nat, c: nat, j: nat, id: nat)
    requires n < |actions|
    requires var s, d := Run(INITIAL, actions[..n]), Run(INITIAL, actions[..n + 1]);
      JobAt(s, (c, j)) == Some(Attach(id)) && !HasSettled(s, c, j) && HasSettled(d, c, j)
    ensures var s := Run(INITIAL, actions[..n]);
      || (actions[n] == Start(c, j) && NotNeeded(s, c, id))
      || (actions[n].Continue? && actions[n].client == c && actions[n].job == j && (c, j) in s.suspended &&
          DoneOrFailed(s, c, s.suspended[(c, j)], actions[n].ok))
  {
    var s, a := Run(INITIAL, actions[..n]), actions[n];
    InitialOk();
    RunKeeps(INITIAL, actions[..n]);
    Outcomes.RunNext(INITIAL, actions, n);
    StepKeeps(s, a);
    hide Run, FlowOk, Step, DoneOrFailed, NotNeeded;
    SettledRuns(Step(s, a), c, j);
    SettlesByMoving(s, a, c, j);
    if a.Start? { StartReason(s, c, j, id); } else { ContinueReason(s, c, j, a.ok); }
  }

  /** An operation settles only in a step of its own. */
  lemma SettlesByMoving(s: Router, a: Action, c: nat, j: nat)
    requires FlowOk(s) && FlowOk(Step(s, a)) && JobAt(s, (c, j)).Some?
    requires !HasSettled(s, c, j) && HasSettled(Step(s, a), c, j)
    ensures (a == Start(c, j) && P.CanStart(ChainOf(s, c), j)) ||
      (a.Continue? && a.client == c && a.job == j && (c, j) in s.suspended)
  {
    O.ChainStep(s, a, c);
    SettledRuns(Step(s, a), c, j);
    Running(s, (c, j));
    if !Moved(a, (c, j)) { StepElsewhere(s, a, (c, j)); }
    if Moved(a, (c, j)) { CannotMove(s, a, (c, j)); }
    hide FlowOk, P.CanStart, Step, P.Submit;
  }

  lemma CannotMove(s: Router, a: Action, k: (nat, nat))
    requires Moved(a, k)
    ensures a.Start? && !P.CanStart(ChainOf(s, k.0), k.1) ==> Step(s, a) == s
    ensures a.Continue? && k !in s.suspended ==> Step(s, a) == s
  {
    hide Begun, Turn, Continued, ChainOf, P.CanStart;
  }

  lemma Running(s: Router, k: (nat, nat))
    requires FlowOk(s)
    ensures RunningAt(s, k) <==> k in s.suspended
  {
    hide HoldingOk, IndexOk, FenceOk, QuietOk, ChainsOk, SuspendedOk;
  }

  lemma StartReason(s: Router, c: nat, j: nat, id: nat)
    requires P.CanStart(ChainOf(s, c), j) && ChainOf(s, c).jobs[j].payload == Attach(id)
    requires (c, j) !in Step(s, Start(c, j)).suspended
    ensures NotNeeded(s, c, id)
  {
    TurnShape(s, c, j);
    hide Turn, Settle, EnsureOpen, ChainOf;
  }

  lemma ContinueReason(s: Router, c: nat, j: nat, ok: bool)
    requires FlowOk(s) && (c, j) in s.suspended && JobAt(s, (c, j)).Some? && JobAt(s, (c, j)).value.Attach?
    requires (c, j) !in Step(s, Continue(c, j, ok)).suspended
    ensures DoneOrFailed(s, c, s.suspended[(c, j)], ok)
  {
    SuspendedJob(s, (c, j));
    Suspension(s, (c, j));
    RootedNow(s, (c, j));
    hide FlowOk, Acquired, Leased, CreateAttachment, Settle, ChainOf, JobAt, IsOver, Barred;
    match s.suspended[(c, j)]
    case AwaitingOpen(o, current) =>
      if s.opens[o].status.Opened? { AcquiredReason(s, c, j, s.opens[o].status.session, current); }
    case AwaitingHosted(h, current) => AcquiredReason(s, c, j, h, current);
    case AwaitingSwitch(h, _) => CreateGoesOn(s, c, j, h);
    case AwaitingLease(a) => LeasedReason(s, c, j, a);
    case _ =>
  }

  lemma AcquiredReason(s: Router, c: nat, j: nat, h: nat, current: Option<nat>)
    requires h < |s.sessions| && j < |ChainOf(s, c).jobs|
    ensures (c, j) !in Acquired(s, c, j, h, current).suspended ==> Barred(s, c)
  {
    hide Settle, BeginAll, Created, ChainOf;
  }

  lemma LeasedReason(s: Router, c: nat, j: nat, a: nat)
    requires a < |s.attachments| && j < |ChainOf(s, c).jobs| && (c, j) in s.suspended
    ensures (c, j) !in Leased(s, c, j, a).suspended ==> s.attachments[a].lease.Refused?
  {
    LeavesChains(s, s.attachments[a].session, a);
    SameJobs(s, Leaves(s, s.attachments[a].session, a), c);
    hide Settle, BeginAll, Leaves, Usable, ChainOf;
  }

  lemma Suspension(s: Router, k: (nat, nat))
    requires FlowOk(s) && k in s.suspended
    ensures SuspendedOk(s, k, s.suspended[k])
  {
    hide HoldingOk, IndexOk, FenceOk, QuietOk, ChainsOk, SuspendedOk;
  }

  // ---------------------------------------------------------------- going on

  /** What a suspended operation refers to exists. */
  predicate Rooted(s: Router, at: Suspended) {
    match at
    case AwaitingOpen(o, _) =>
      o < |s.opens| && (s.opens[o].status.Opened? ==> s.opens[o].status.session < |s.sessions|)
    case AwaitingHosted(h, _) => h < |s.sessions|
    case AwaitingSwitch(h, previous) => h < |s.sessions| && previous < |s.attachments|
    case AwaitingLease(a) => a < |s.attachments|
    case _ => true
  }

  lemma RootedNow(s: Router, k: (nat, nat))
    requires FlowOk(s) && k in s.suspended
    ensures Rooted(s, s.suspended[k])
  {
    Suspension(s, k);
    hide HoldingOk, JobsOk, FenceOk, QuietOk, JobAt;
  }

  /** What a suspended operation waits for has settled. */
  predicate Ready(s: Router, at: Suspended) {
    match at
    case AwaitingOpen(o, _) => o < |s.opens| && !s.opens[o].status.InProgress?
    case AwaitingHosted(_, _) => true
    case AwaitingSwitch(_, previous) => IsOver(s, previous)
    case AwaitingLease(a) => a < |s.attachments| && !s.attachments[a].lease.Pending?
    case AwaitingUndo(a) => IsOver(s, a)
    case AwaitingNotice(_) => true
    case AwaitingRelease(a) => IsOver(s, a)
  }

  /** How far an operation has come. */
  function Progress(at: Suspended): nat {
    match at
    case AwaitingOpen(_, _) => 0
    case AwaitingHosted(_, _) => 0
    case AwaitingSwitch(_, _) => 1
    case AwaitingLease(_) => 2
    case _ => 3
  }

  /** It goes on if and only if that has settled, and then settles or comes further; so it never waits in a circle. */
  lemma GoesOnWhenReady(actions: seq<Action>, n: nat, c: nat, j: nat, ok: bool)
    requires n < |actions| && actions[n] == Continue(c, j, ok)
    requires (c, j) in Run(INITIAL, actions[..n]).suspended
    ensures var s, d := Run(INITIAL, actions[..n]), Run(INITIAL, actions[..n + 1]);
      if Ready(s, s.suspended[(c, j)])
      then (c, j) in d.suspended ==> Progress(d.suspended[(c, j)]) > Progress(s.suspended[(c, j)])
      else d == s
  {
    var s := Run(INITIAL, actions[..n]);
    InitialOk();
    RunKeeps(INITIAL, actions[..n]);
    Outcomes.RunNext(INITIAL, actions, n);
    hide Run;
    GoesOn(s, c, j, ok);
  }

  /** The operation has settled, or come at least that far. */
  predicate Past(d: Router, k: (nat, nat), n: nat) { k in d.suspended ==> Progress(d.suspended[k]) >= n }

  lemma GoesOn(s: Router, c: nat, j: nat, ok: bool)
    requires FlowOk(s) && (c, j) in s.suspended
    ensures var d := Step(s, Continue(c, j, ok)); var at := s.suspended[(c, j)];
      if Ready(s, at) then Past(d, (c, j), Progress(at) + 1) else d == s
  {
    SuspendedJob(s, (c, j));
    RootedNow(s, (c, j));
    hide FlowOk, Step, Rooted, ChainOf;
    if s.suspended[(c, j)].AwaitingOpen? || s.suspended[(c, j)].AwaitingHosted? {
      EarlyGoesOn(s, c, j, ok);
    } else {
      LateGoesOn(s, c, j, ok);
    }
  }

  lemma EarlyGoesOn(s: Router, c: nat, j: nat, ok: bool)
    requires (c, j) in s.suspended && j < |ChainOf(s, c).jobs| && Rooted(s, s.suspended[(c, j)])
    requires s.suspended[(c, j)].AwaitingOpen? || s.suspended[(c, j)].AwaitingHosted?
    ensures var d := Step(s, Continue(c, j, ok)); var at := s.suspended[(c, j)];
      if Ready(s, at) then Past(d, (c, j), 1) else d == s
  {
    SettleSettles(s, c, j);
    hide Settle, Acquired, ChainOf, HasSettled, IsOver;
    match s.suspended[(c, j)]
    case AwaitingOpen(o, current) =>
      if s.opens[o].status.Opened? { AcquiredGoesOn(s, c, j, s.opens[o].status.session, current); }
    case AwaitingHosted(h, current) => AcquiredGoesOn(s, c, j, h, current);
  }

  lemma LateGoesOn(s: Router, c: nat, j: nat, ok: bool)
    requires (c, j) in s.suspended && j < |ChainOf(s, c).jobs| && Rooted(s, s.suspended[(c, j)])
    requires !s.suspended[(c, j)].AwaitingOpen? && !s.suspended[(c, j)].AwaitingHosted?
    ensures var d := Step(s, Continue(c, j, ok)); var at := s.suspended[(c, j)];
      if Ready(s, at) then Past(d, (c, j), Progress(at) + 1) else d == s
  {
    SettleSettles(s, c, j);
    hide Settle, Leased, CreateAttachment, ChainOf, HasSettled, IsOver;
    match s.suspended[(c, j)]
    case AwaitingSwitch(h, previous) => CreateGoesOn(s, c, j, h);
    case AwaitingLease(a) => LeasedGoesOn(s, c, j, a);
    case _ =>
  }

  lemma AcquiredGoesOn(s: Router, c: nat, j: nat, h: nat, current: Option<nat>)
    requires j < |ChainOf(s, c).jobs|
    ensures Past(Acquired(s, c, j, h, current), (c, j), 1)
  {
    SettleSettles(s, c, j);
    if h < |s.sessions| { CreateGoesOn(s, c, j, h); }
    hide Settle, BeginAll, CreateAttachment, ChainOf;
  }

  lemma CreateGoesOn(s: Router, c: nat, j: nat, h: nat)
    requires h < |s.sessions|
    ensures var d := CreateAttachment(s, c, j, h); (c, j) in d.suspended && Progress(d.suspended[(c, j)]) == 2
  {
  }

  lemma LeasedGoesOn(s: Router, c: nat, j: nat, a: nat)
    requires a < |s.attachments| && j < |ChainOf(s, c).jobs|
    ensures var d := Leased(s, c, j, a);
      if s.attachments[a].lease.Pending? then d == s
      else Past(d, (c, j), 3)
  {
    LeavesChains(s, s.attachments[a].session, a);
    SameJobs(s, Leaves(s, s.attachments[a].session, a), c);
    SettleSettles(Leaves(s, s.attachments[a].session, a), c, j);
    hide Settle, BeginAll, Leaves, Usable, ChainOf;
  }

  /**
   A release that waits for the calls it found goes on if and only if they have settled and the host has answered: to
   releasing the lease, once, or, if there is none, to its end.
   */
  lemma ReleaseGoesOn(actions: seq<Action>, n: nat, a: nat)
    requires n < |actions| && actions[n] == ReleaseLease(a)
    requires var s := Run(INITIAL, actions[..n]); a < |s.attachments| && s.attachments[a].stage.WaitingForCalls?
    ensures var s, d := Run(INITIAL, actions[..n]), Run(INITIAL, actions[..n + 1]);
      var x := s.attachments[a];
      && a < |d.attachments|
      && if x.lease.Pending? || exists call :: call in x.operations && call in x.stage.calls then d == s
         else if x.lease.Held? then d.attachments[a] == x.(stage := ReleasingLease, releases := x.releases + 1)
         else d.attachments[a].stage.Announcing? || d.attachments[a].stage.Over?
  {
    Outcomes.RunNext(INITIAL, actions, n);
    hide Run, Step;
    ReleaseMoves(Run(INITIAL, actions[..n]), a);
  }

  lemma ReleaseMoves(s: Router, a: nat)
    requires a < |s.attachments| && s.attachments[a].stage.WaitingForCalls?
    ensures var d := Step(s, ReleaseLease(a)); var x := s.attachments[a];
      && a < |d.attachments|
      && if x.lease.Pending? || exists call :: call in x.operations && call in x.stage.calls then d == s
         else if x.lease.Held? then d.attachments[a] == x.(stage := ReleasingLease, releases := x.releases + 1)
         else d.attachments[a].stage.Announcing? || d.attachments[a].stage.Over?
  {
    var x := s.attachments[a];
    ClearShape(s, a);
    hide Clear;
    Apart(x.operations, x.stage.calls);
  }

  lemma Apart(x: set<nat>, y: set<nat>)
    ensures x * y == {} <==> !exists n :: n in x && n in y
  {
    if n :| n in x && n in y { assert n in x * y; }
  }

  // ---------------------------------------------------------------- opens

  /** A session opened is hosted under the id it resolves to, unless the router is closing; a failed open hosts none. */
  lemma OpenHostsIff(actions: seq<Action>, n: nat, o: nat, resolved: Option<nat>)
    requires n < |actions| && actions[n] == OpenSettled(o, resolved)
    requires var s := Run(INITIAL, actions[..n]); o < |s.opens| && s.opens[o].status.InProgress?
    ensures var s, d := Run(INITIAL, actions[..n]), Run(INITIAL, actions[..n + 1]);
      && o < |d.opens| && !d.opens[o].status.InProgress?
      && (d.opens[o].status.Opened? <==> resolved.Some? && !s.closing)
      && (if d.opens[o].status.Opened?
          then var h := d.opens[o].status.session;
            h == |s.sessions| && IsHosted(d, h) && d.sessions[h] == HostedSession(resolved.value, {})
          else d.hosted == s.hosted && d.sessions == s.sessions)
      && forall id :: id in s.hosted && Some(id) != resolved ==> id in d.hosted && d.hosted[id] == s.hosted[id]
  {
    Outcomes.RunNext(INITIAL, actions, n);
    hide Run;
  }

  // ---------------------------------------------------------------- shutdown

  /** Every operation that was the last of its client when close() was called has settled, and every open as well. */
  predicate DrainDone(s: Router) {
    s.close.Draining? && AllSettled(s, s.close.tails) && AllOpened(s, s.close.opens)
  }

  /**
   close() goes from one stage to the next when it may, and only then: it begins once no attach is accepted any more,
   empties what is hosted once the operations and opens it found have settled, closes the handles once all attachments
   in hosted sessions are over, and then keeps hosted exactly the sessions whose handle failed.
   */
  lemma CloseMovesOn(actions: seq<Action>, n: nat)
    requires n < |actions|
    ensures var s, d := Run(INITIAL, actions[..n]), Run(INITIAL, actions[..n + 1]); var a := actions[n];
      && (s.close.NotBegun? ==> (!d.close.NotBegun? <==> a.BeginClose? && s.closing))
      && (s.close.Draining? ==> if a.Drained? && DrainDone(s) then d.close.Emptying? else d.close == s.close)
      && (s.close.Emptying? ==>
            if a.Emptied? && AllOver(s, s.close.waiting) then d.close.ClosingHandles? else d.close == s.close)
      && (s.close.ClosingHandles? ==> if a.HandlesClosed? then d.close.Finished? else d.close == s.close)
      && (s.close.ClosingHandles? && a.HandlesClosed? ==>
            d.byClient == map[] && forall id :: id in d.hosted <==> id in s.hosted && s.hosted[id] in a.failed)
  {
    var s, a := Run(INITIAL, actions[..n]), actions[n];
    Outcomes.RunNext(INITIAL, actions, n);
    hide Run;
    if !(a.BeginClose? || a.Drained? || a.Emptied? || a.HandlesClosed?) {
      InitialOk();
      RunKeeps(INITIAL, actions[..n]);
      hide FlowOk, Step;
      CloseStays(s, a);
    } else {
      hide CloseStep, Tails, AttachmentsOf, AllSettled, AllOpened, AllOver;
      CloseMoves(s, a);
    }
  }

  lemma CloseStays(s: Router, a: Action)
    requires FlowOk(s) && !a.BeginClose? && !a.Drained? && !a.Emptied? && !a.HandlesClosed?
    ensures Step(s, a).close == s.close
  {
    hide FlowOk, Step;
    Shutdown.StepWinds(s, a);
  }

  lemma CloseMoves(s: Router, a: Action)
    requires a.BeginClose? || a.Drained? || a.Emptied? || a.HandlesClosed?
    ensures var d := CloseStep(s, a);
      && (s.close.NotBegun? ==> (!d.close.NotBegun? <==> a.BeginClose? && s.closing))
      && (s.close.Draining? ==> if a.Drained? && DrainDone(s) then d.close.Emptying? else d.close == s.close)
      && (s.close.Emptying? ==>
            if a.Emptied? && AllOver(s, s.close.waiting) then d.close.ClosingHandles? else d.close == s.close)
      && (s.close.ClosingHandles? ==> if a.HandlesClosed? then d.close.Finished? else d.close == s.close)
      && (s.close.ClosingHandles? && a.HandlesClosed? ==>
            d.byClient == map[] && forall id :: id in d.hosted <==> id in s.hosted && s.hosted[id] in a.failed)
  {
    hide BeginAll, Tails, AttachmentsOf, WithoutTails, AllSettled, AllOpened, AllOver;
  }
}
