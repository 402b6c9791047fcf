/** Shutdown: when `close()` has settled, every lease of a session it found hosted has been released. */
module RouterShutdown {
  import opened Common
  import P = PromiseChain
  import opened SessionRouter
  import opened RouterSafety
  import opened RouterFlow
  import opened RouterSteps
  import opened RouterTheorems

  /** An attach operation that has not settled. */
  predicate OpenAttach(s: Router, k: (nat, nat)) {
    k.0 in s.chains && k.1 < |s.chains[k.0].jobs| && s.chains[k.0].jobs[k.1].payload.Attach? &&
        !s.chains[k.0].jobs[k.1].status.Settled?
  }

  ghost predicate NoAttach(s: Router) { forall k :: !OpenAttach(s, k) }

  predicate IsIn(s: Router, a: nat, sessions: set<nat>) {
    a < |s.attachments| && s.attachments[a].session in sessions && InSet(s, a)
  }

  /** What the drain has waited for stays true: no attach is left, so no attachment is added any more. */
  ghost predicate CloseOk(s: Router) {
    match s.close
    case NotBegun => true
    case Draining(tails, _) => s.closing && forall k :: OpenAttach(s, k) ==> k.0 in tails && k.1 <= tails[k.0]
    case Emptying(sessions, waiting) => s.closing && NoAttach(s) && forall a :: IsIn(s, a, sessions) ==> a in waiting
    case ClosingHandles(sessions) => s.closing && NoAttach(s) && forall a :: !IsIn(s, a, sessions)
    case Finished(sessions) => s.closing && NoAttach(s) && forall a :: !IsIn(s, a, sessions)
  }

  /** Once closing, operations only finish, and without an attach among them the sets only shrink. */
  ghost predicate Winding(s: Router, t: Router) {
    && (s.closing ==> t.closing) && t.close == s.close
    && (s.closing ==> forall k :: OpenAttach(t, k) ==> OpenAttach(s, k))
    && (s.closing && NoAttach(s) ==> forall a, sessions :: IsIn(t, a, sessions) ==> IsIn(s, a, sessions))
  }

  lemma WindingKeeps(s: Router, t: Router)
    requires CloseOk(s) && Winding(s, t)
    ensures CloseOk(t)
  {
    hide OpenAttach, IsIn;
  }

  lemma Same(s: Router, t: Router)
    requires (s.closing ==> t.closing) && t.close == s.close && t.chains == s.chains &&
      t.attachments == s.attachments && t.sessions == s.sessions
    ensures Winding(s, t)
  {
    forall a, sessions ensures IsIn(t, a, sessions) == IsIn(s, a, sessions) { }
    forall k ensures OpenAttach(t, k) == OpenAttach(s, k) { }
    hide OpenAttach, IsIn;
  }

  lemma Then(s: Router, u: Router, t: Router)
    requires Winding(s, u) && Winding(u, t)
    ensures Winding(s, t)
  {
    hide OpenAttach, IsIn;
  }

  /** Attachments change in place, sets shrink. */
  lemma InPlace(s: Router, t: Router)
    requires t.chains == s.chains && t.closing == s.closing && t.close == s.close
    requires |t.attachments| == |s.attachments| && |t.sessions| == |s.sessions|
    requires forall a :: 0 <= a < |s.attachments| ==> t.attachments[a].session == s.attachments[a].session
    requires forall h :: 0 <= h < |s.sessions| ==> t.sessions[h].attachments <= s.sessions[h].attachments
    ensures Winding(s, t)
  {
    forall a, sessions | IsIn(t, a, sessions) ensures IsIn(s, a, sessions) { }
    forall k ensures OpenAttach(t, k) == OpenAttach(s, k) { }
    hide OpenAttach, IsIn;
  }

  /** Only the operations move. */
  lemma OnlyChains(s: Router, t: Router)
    requires t.closing == s.closing && t.close == s.close && t.attachments == s.attachments && t.sessions == s.sessions
    requires forall k :: OpenAttach(t, k) ==> OpenAttach(s, k)
    ensures Winding(s, t)
  {
    forall a, sessions ensures IsIn(t, a, sessions) == IsIn(s, a, sessions) { }
    hide OpenAttach, IsIn;
  }

  lemma SettleWinds(u: Router, c: nat, j: nat)
    requires j < |ChainOf(u, c).jobs|
    ensures Winding(u, Settle(u, c, j))
  {
    var t := Settle(u, c, j);
    forall k | OpenAttach(t, k) ensures OpenAttach(u, k) { }
    hide OpenAttach;
    OnlyChains(u, t);
  }

  lemma TurnWinds(s: Router, c: nat, j: nat)
    requires P.CanStart(ChainOf(s, c), j)
    ensures Winding(s, Turn(s, c, j))
  {
    var t := Turn(s, c, j);
    forall k | OpenAttach(t, k) ensures OpenAttach(s, k) { }
    hide OpenAttach;
    OnlyChains(s, t);
  }

  lemma BeginWinds(u: Router, which: set<nat>, publish: bool)
    ensures Winding(u, BeginAll(u, which, publish))
  {
    InPlace(u, BeginAll(u, which, publish));
    hide Winding;
  }

  lemma LeavesWinds(u: Router, h: nat, a: nat)
    ensures Winding(u, Leaves(u, h, a))
  {
    InPlace(u, Leaves(u, h, a));
    hide Winding;
  }

  lemma AdmitWinds(u: Router, c: nat, target: Target)
    ensures Winding(u, Admit(u, c, target))
  {
    InPlace(u, Admit(u, c, target));
    hide Winding;
  }

  lemma ClearWinds(u: Router, a: nat)
    requires a < |u.attachments|
    ensures Winding(u, Clear(u, a))
  {
    var v := Leaves(u, u.attachments[a].session, a);
    LeavesWinds(u, u.attachments[a].session, a);
    hide Winding, Leaves;
    InPlace(v, Clear(u, a));
    Then(u, v, Clear(u, a));
  }

  lemma ChangeWinds(u: Router, a: nat, x: Attachment, byClient: map<nat, nat>)
    requires a < |u.attachments| && x.session == u.attachments[a].session
    ensures Winding(u, WithAttachment(u, a, x)) && Winding(u, WithAttachment(u, a, x).(byClient := byClient))
  {
    InPlace(u, WithAttachment(u, a, x));
    InPlace(u, WithAttachment(u, a, x).(byClient := byClient));
    hide Winding;
  }

  lemma SuspendWinds(u: Router, c: nat, j: nat, at: Suspended)
    ensures Winding(u, Suspend(u, c, j, at))
  {
    Same(u, Suspend(u, c, j, at));
    hide Winding;
  }

  /** Adding an attachment takes an attach that has not settled. */
  lemma CreateWinds(s: Router, c: nat, j: nat, h: nat)
    requires h < |s.sessions| && OpenAttach(s, (c, j))
    ensures Winding(s, CreateAttachment(s, c, j, h))
  {
    assert !NoAttach(s);
    forall k ensures OpenAttach(CreateAttachment(s, c, j, h), k) == OpenAttach(s, k) { }
    hide OpenAttach, IsIn;
  }

  lemma AttachRuns(s: Router, c: nat, j: nat)
    requires FlowOk(s) && (c, j) in s.suspended && !s.suspended[(c, j)].AwaitingRelease?
    ensures OpenAttach(s, (c, j))
  {
    CarryRunning(s, c, j);
    hide FlowOk, Carrying;
    RunningStatus(s, c, j);
  }

  lemma RunningStatus(s: Router, c: nat, j: nat)
    requires FlowOk(s) && (c, j) in s.suspended
    ensures c in s.chains && P.IsRunning(s.chains[c], j)
  {
    hide HoldingOk, ChainsOk, IndexOk, FenceOk, QuietOk, SuspendedOk;
    assert RunningAt(s, (c, j));
  }

  lemma ReleasingWinds(u: Router, c: nat, j: nat, a: nat, publish: bool, at: Suspended)
    ensures Winding(u, Suspend(BeginAll(u, {a}, publish), c, j, at))
  {
    var v := BeginAll(u, {a}, publish);
    BeginWinds(u, {a}, publish);
    SuspendWinds(v, c, j, at);
    hide Winding, Suspend, BeginAll;
    Then(u, v, Suspend(v, c, j, at));
  }

  lemma AcquireWinds(u: Router, c: nat, j: nat, id: nat)
    ensures Winding(u, Acquire(u, c, j, id))
  {
    var v := EnsureOpen(u, id);
    EnsureOpenShape(u, id);
    Same(u, v);
    hide Winding, Suspend, EnsureOpen;
    var at := if id in u.hosted then AwaitingHosted(u.hosted[id], CurrentOf(u, c))
        else AwaitingOpen(v.opening[id], CurrentOf(u, c));
    SuspendWinds(v, c, j, at);
    Then(u, v, Suspend(v, c, j, at));
  }

  lemma CallWinds(u: Router, c: nat, j: nat, target: Target)
    requires j < |ChainOf(u, c).jobs|
    ensures j < |ChainOf(Admit(u, c, target), c).jobs| && Winding(u, Settle(Admit(u, c, target), c, j))
  {
    AdmitMoves(u, c);
    AdmitWinds(u, c, target);
    hide Winding, Settle, Admit;
    SettleWinds(Admit(u, c, target), c, j);
    Then(u, Admit(u, c, target), Settle(Admit(u, c, target), c, j));
  }

  lemma BegunWinds(s: Router, c: nat, j: nat)
    requires P.CanStart(ChainOf(s, c), j)
    ensures Winding(s, Step(s, Start(c, j)))
  {
    var u := Turn(s, c, j);
    TurnShape(s, c, j);
    TurnWinds(s, c, j);
    hide Winding, Turn, Settle, Suspend, BeginAll, Admit, Acquire, ChainOf;
    SettleWinds(u, c, j);
    match ChainOf(u, c).jobs[j].payload {
      case Call(target) => CallWinds(u, c, j, target);
      case Attach(id) => AcquireWinds(u, c, j, id);
      case Detach => if c in u.byClient {
        ReleasingWinds(u, c, j, u.byClient[c], true, AwaitingRelease(u.byClient[c]));
      }
      case Leave => if c in u.byClient {
        ReleasingWinds(u, c, j, u.byClient[c], false, AwaitingRelease(u.byClient[c]));
      }
    }
    Then(s, u, Begun(u, c, j));
  }

  lemma AcquiredWinds(s: Router, c: nat, j: nat, h: nat, current: Option<nat>)
    requires j < |ChainOf(s, c).jobs| && OpenAttach(s, (c, j))
    ensures Winding(s, Acquired(s, c, j, h, current))
  {
    hide Winding, OpenAttach, Suspend, Settle, BeginAll, CreateAttachment, ChainOf;
    SettleWinds(s, c, j);
    if h < |s.sessions| { CreateWinds(s, c, j, h); }
    if current.Some? { ReleasingWinds(s, c, j, current.value, false, AwaitingSwitch(h, current.value)); }
  }

  lemma RefusedWinds(s: Router, c: nat, j: nat, a: nat)
    requires a < |s.attachments| && j < |ChainOf(s, c).jobs|
    ensures var u := Leaves(s, s.attachments[a].session, a);
      j < |ChainOf(u, c).jobs| && Winding(s, Settle(u, c, j))
  {
    var u := Leaves(s, s.attachments[a].session, a);
    LeavesWinds(s, s.attachments[a].session, a);
    LeavesChains(s, s.attachments[a].session, a);
    SameJobs(s, u, c);
    hide Winding, Leaves, Settle, ChainOf;
    SettleWinds(u, c, j);
    Then(s, u, Settle(u, c, j));
  }

  lemma InstalledWinds(s: Router, c: nat, j: nat, a: nat)
    requires a < |s.attachments|
    ensures Winding(s, Suspend(WithAttachment(s, a, s.attachments[a].(installed := true)).(byClient :=
      s.byClient[c := a]), c, j, AwaitingNotice(a)))
  {
    var x := s.attachments[a].(installed := true);
    ChangeWinds(s, a, x, s.byClient[c := a]);
    hide Winding, WithAttachment, Suspend;
    var u := WithAttachment(s, a, x).(byClient := s.byClient[c := a]);
    SuspendWinds(u, c, j, AwaitingNotice(a));
    Then(s, u, Suspend(u, c, j, AwaitingNotice(a)));
  }

  lemma LeasedWinds(s: Router, c: nat, j: nat, a: nat)
    requires a < |s.attachments| && j < |ChainOf(s, c).jobs|
    ensures Winding(s, Leased(s, c, j, a))
  {
    Same(s, s);
    hide Winding, Suspend, Settle, BeginAll, Leaves, WithAttachment, Usable, ChainOf;
    match s.attachments[a].lease
    case Pending =>
    case Refused => RefusedWinds(s, c, j, a);
    case Held =>
      ReleasingWinds(s, c, j, a, true, AwaitingUndo(a));
      InstalledWinds(s, c, j, a);
  }

  lemma EnteredWinds(s: Router, c: nat, j: nat, ok: bool)
    requires FlowOk(s) && j < |ChainOf(s, c).jobs| && (c, j) in s.suspended
    requires s.suspended[(c, j)].AwaitingOpen? || s.suspended[(c, j)].AwaitingHosted?
    ensures Winding(s, Continued(s, c, j, ok))
  {
    Same(s, s);
    SettleWinds(s, c, j);
    AttachRuns(s, c, j);
    hide FlowOk, Winding, OpenAttach, Settle, Acquired;
    match s.suspended[(c, j)]
    case AwaitingOpen(o, current) =>
      if o < |s.opens| && s.opens[o].status.Opened? { AcquiredWinds(s, c, j, s.opens[o].status.session, current); }
    case AwaitingHosted(h, current) => AcquiredWinds(s, c, j, h, current);
  }

  lemma ResumedWinds(s: Router, c: nat, j: nat, ok: bool)
    requires FlowOk(s) && j < |ChainOf(s, c).jobs| && (c, j) in s.suspended
    requires !s.suspended[(c, j)].AwaitingOpen? && !s.suspended[(c, j)].AwaitingHosted?
    ensures Winding(s, Continued(s, c, j, ok))
  {
    Same(s, s);
    SettleWinds(s, c, j);
    if !s.suspended[(c, j)].AwaitingRelease? { AttachRuns(s, c, j); }
    hide FlowOk, Winding, OpenAttach, Settle, Leased, CreateAttachment, IsOver;
    match s.suspended[(c, j)]
    case AwaitingSwitch(h, _) => if h < |s.sessions| { CreateWinds(s, c, j, h); }
    case AwaitingLease(a) => if a < |s.attachments| { LeasedWinds(s, c, j, a); }
    case _ =>
  }

  lemma ContinuedWinds(s: Router, c: nat, j: nat, ok: bool)
    requires FlowOk(s) && j < |ChainOf(s, c).jobs| && (c, j) in s.suspended
    ensures Winding(s, Continued(s, c, j, ok))
  {
    hide FlowOk, Winding, Continued;
    var at := s.suspended[(c, j)];
    if at.AwaitingOpen? || at.AwaitingHosted? { EnteredWinds(s, c, j, ok); } else { ResumedWinds(s, c, j, ok); }
  }

  // ---------------------------------------------------------------- other steps

  lemma SubmitWinds(s: Router, c: nat, op: Op)
    ensures Winding(s, Submitted(s, c, op))
  {
    var t := Submitted(s, c, op);
    if s.closing { forall k | OpenAttach(t, k) ensures OpenAttach(s, k) { } }
    forall a, sessions ensures IsIn(t, a, sessions) == IsIn(s, a, sessions) { }
    hide OpenAttach, IsIn;
  }

  lemma CleanUpWinds(s: Router, c: nat, j: nat)
    ensures Winding(s, Step(s, CleanUp(c, j)))
  {
    var t := Step(s, CleanUp(c, j));
    forall k | OpenAttach(t, k) ensures OpenAttach(s, k) { }
    hide OpenAttach;
    OnlyChains(s, t);
  }

  lemma AttachmentWinds(s: Router, a: Action)
    requires a.CallSettled? || a.LeaseAnswered? || a.NoticeSent?
    ensures Winding(s, Step(s, a))
  {
    var x := a.attachment;
    Same(s, s);
    if x < |s.attachments| {
      var y := s.attachments[x];
      hide Winding, Clear, WithAttachment;
      match a
      case CallSettled(_, call) => ChangeWinds(s, x, y.(operations := y.operations - {call}), s.byClient);
      case LeaseAnswered(_, granted) => ChangeWinds(s, x, y.(lease := if granted then Held else Refused), s.byClient);
      case NoticeSent(_) => ChangeWinds(s, x, y.(stage := Over), s.byClient);
    }
  }

  lemma ReleaseWinds(s: Router, a: Action)
    requires a.ReleaseLease? || a.LeaseReleased?
    ensures Winding(s, Step(s, a))
  {
    var x := a.attachment;
    Same(s, s);
    if x < |s.attachments| {
      ClearWinds(s, x);
      var y := s.attachments[x];
      hide Winding, Clear, WithAttachment;
      ChangeWinds(s, x, y.(stage := ReleasingLease, releases := y.releases + 1), s.byClient);
    }
  }

  lemma OpenWinds(s: Router, o: nat, id: Option<nat>)
    requires o < |s.opens|
    ensures Winding(s, OpenEnds(s, o, id))
  {
    var t := OpenEnds(s, o, id);
    if id.None? || s.closing { Same(s, t); }
    hide OpenAttach, IsIn;
  }

  lemma InvalidateWinds(s: Router, h: nat)
    ensures Winding(s, Invalidate(s, h))
  {
    Same(s, s);
    if IsHosted(s, h) {
      BeginFrame(Unhost(s, h), s.sessions[h].attachments, true);
      InPlace(s, Invalidate(s, h));
    }
    hide Winding;
  }

  lemma RemovalWinds(s: Router, id: nat)
    ensures Winding(s, BeginRemoval(s, id))
  {
    Same(s, s);
    if !s.closing && id in s.hosted && s.hosted[id] < |s.sessions| {
      BeginFrame(s, s.sessions[s.hosted[id]].attachments, true);
      InPlace(s, BeginRemoval(s, id));
    }
    hide Winding;
  }

  lemma SessionWinds(s: Router, a: Action)
    requires a.Terminated? || a.RemoveSession? || a.FinishRemoval? || a.StopAccepting? || a.ForgetOpen? ||
      a.ForgetLeaving?
    ensures Winding(s, Step(s, a))
  {
    Same(s, s);
    hide Winding, AllOver, Invalidate, BeginRemoval, Unhost;
    match a
    case Terminated(h) => InvalidateWinds(s, h);
    case RemoveSession(id) => RemovalWinds(s, id);
    case FinishRemoval(r) => if r < |s.removals| { UnhostWinds(s, s.removals[r].0); }
    case StopAccepting => Same(s, s.(closing := true));
    case ForgetOpen(_) => Same(s, Step(s, a));
    case ForgetLeaving(_, _) => Same(s, Step(s, a));
  }

  lemma UnhostWinds(s: Router, h: nat)
    ensures Winding(s, Unhost(s, h))
  {
    Same(s, Unhost(s, h));
    hide Winding;
  }

  lemma StepWinds(s: Router, a: Action)
    requires FlowOk(s) && !a.BeginClose? && !a.Drained? && !a.Emptied? && !a.HandlesClosed?
    ensures Winding(s, Step(s, a))
  {
    Same(s, s);
    hide FlowOk, Winding, Begun, Continued, OpenEnds, Submitted, BeginRemoval, Invalidate, Unhost, WithAttachment,
        WithChain, Clear, ChainOf;
    if a.Start? {
      if P.CanStart(ChainOf(s, a.client), a.job) { BegunWinds(s, a.client, a.job); }
    } else if a.Continue? {
      if a.job < |ChainOf(s, a.client).jobs| && (a.client, a.job) in s.suspended {
        ContinuedWinds(s, a.client, a.job, a.ok);
      }
    } else if a.Submit? {
      SubmitWinds(s, a.client, a.op);
    } else if a.CleanUp? {
      CleanUpWinds(s, a.client, a.job);
    } else if a.OpenSettled? {
      if a.open < |s.opens| { OpenWinds(s, a.open, a.resolved); }
    } else if a.CallSettled? || a.LeaseAnswered? || a.NoticeSent? {
      AttachmentWinds(s, a);
    } else if a.ReleaseLease? || a.LeaseReleased? {
      ReleaseWinds(s, a);
    } else {
      SessionWinds(s, a);
    }
  }

  // ---------------------------------------------------------------- the shutdown itself

  lemma BeginCloseOk(s: Router)
    requires FlowOk(s) && CloseOk(s)
    ensures CloseOk(CloseStep(s, BeginClose))
  {
    hide HoldingOk, IndexOk, FenceOk, QuietOk, RunsOk;
    if s.closing && s.close.NotBegun? {
      var t := CloseStep(s, BeginClose);
      forall k | OpenAttach(t, k) ensures k.0 in Tails(s) && k.1 <= Tails(s)[k.0] {
        assert P.Serial(s.chains[k.0]);
      }
    }
  }

  /** The tails the drain waited for were the last attaches could be: all have settled. */
  lemma DrainedAttaches(s: Router)
    requires FlowOk(s) && CloseOk(s) && s.close.Draining? && AllSettled(s, s.close.tails)
    ensures NoAttach(s)
  {
    hide HoldingOk, IndexOk, FenceOk, QuietOk, RunsOk;
    forall k ensures !OpenAttach(s, k) {
      if k.0 in s.chains { assert P.Serial(s.chains[k.0]); }
    }
  }

  lemma DrainedOk(s: Router)
    requires FlowOk(s) && CloseOk(s)
    ensures CloseOk(CloseStep(s, Drained))
  {
    if s.close.Draining? && AllSettled(s, s.close.tails) && AllOpened(s, s.close.opens) {
      var t := CloseStep(s, Drained);
      DrainedAttaches(s);
      hide FlowOk, AllSettled, AllOpened;
      var which := AttachmentsOf(s, s.hosted.Values);
      BeginFrame(s, which, true);
      assert NoAttach(t) by { forall k ensures OpenAttach(t, k) == OpenAttach(s, k) { } }
      forall a | IsIn(t, a, s.hosted.Values) ensures a in which { }
    }
  }

  lemma EmptiedOk(s: Router)
    requires FlowOk(s) && CloseOk(s)
    ensures CloseOk(CloseStep(s, Emptied))
  {
    if s.close.Emptying? && AllOver(s, s.close.waiting) {
      var t := CloseStep(s, Emptied);
      hide JobsOk, IndexOk, FenceOk, QuietOk, CurrentOk;
      forall k ensures OpenAttach(t, k) == OpenAttach(s, k) { }
      forall a: nat ensures !IsIn(t, a, s.close.sessions) {
        if a < |s.attachments| {
          assert IsIn(t, a, s.close.sessions) == IsIn(s, a, s.close.sessions);
          assert LeaseOk(s.attachments[a], InSet(s, a));
          assert a in s.close.waiting ==> IsOver(s, a);
        }
      }
    }
  }

  lemma FinishedOk(s: Router, failed: set<nat>)
    requires CloseOk(s)
    ensures CloseOk(CloseStep(s, HandlesClosed(failed)))
  {
    if s.close.ClosingHandles? {
      var t := CloseStep(s, HandlesClosed(failed));
      forall k ensures OpenAttach(t, k) == OpenAttach(s, k) { }
      forall a ensures IsIn(t, a, s.close.sessions) == IsIn(s, a, s.close.sessions) { }
    }
  }

  lemma StepClose(s: Router, a: Action)
    requires FlowOk(s) && CloseOk(s)
    ensures CloseOk(Step(s, a))
  {
    hide FlowOk, CloseOk, CloseStep;
    if a.BeginClose? { BeginCloseOk(s); }
    else if a.Drained? { DrainedOk(s); }
    else if a.Emptied? { EmptiedOk(s); }
    else if a.HandlesClosed? { FinishedOk(s, a.failed); }
    else { OtherClose(s, a); }
  }

  lemma OtherClose(s: Router, a: Action)
    requires FlowOk(s) && CloseOk(s) && !a.BeginClose? && !a.Drained? && !a.Emptied? && !a.HandlesClosed?
    ensures CloseOk(Step(s, a))
  {
    hide FlowOk, CloseOk, Step, Winding;
    StepWinds(s, a);
    WindingKeeps(s, Step(s, a));
  }

  lemma {:induction false} CloseAlways(s: Router, actions: seq<Action>)
    requires FlowOk(s) && CloseOk(s)
    ensures FlowOk(Run(s, actions)) && CloseOk(Run(s, actions))
    decreases |actions|
  {
    hide FlowOk, CloseOk, Step;
    if actions != [] {
      StepKeeps(s, actions[0]);
      StepClose(s, actions[0]);
      CloseAlways(Step(s, actions[0]), actions[1..]);
    }
  }

  /**
   When shutdown has finished, each lease granted in a session hosted after the drain has been released, exactly once.
   */
  lemma ShutdownReleasesAll(actions: seq<Action>, a: nat)
    requires var s := Run(INITIAL, actions);
      && s.close.Finished? && a < |s.attachments| && s.attachments[a].session in s.close.sessions &&
         s.attachments[a].lease.Held?
    ensures var x := Run(INITIAL, actions).attachments[a]; x.releases == 1 && Clearing(x)
  {
    InitialOk();
    CloseAlways(INITIAL, actions);
    var s := Run(INITIAL, actions);
    hide JobsOk, IndexOk, FenceOk, QuietOk, CurrentOk, Run;
    assert !IsIn(s, a, s.close.sessions);
    assert LeaseOk(s.attachments[a], InSet(s, a));
  }
}
