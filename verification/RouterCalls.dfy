/** Calls still running when a lease is released: on every run, exactly which ones they can be. */
module RouterCalls {
  import opened Common
  import P = PromiseChain
  import opened SessionRouter
  import opened RouterSafety
  import opened RouterFlow
  import opened RouterSteps
  import opened RouterTheorems

  // ---------------------------------------------------------------- what a release knows

  /** Whether a call running at this stage of the release was admitted after it had begun. */
  predicate LateBy(stage: Stage, n: nat) {
    match stage
    case Active => false
    case WaitingForCalls(calls) => n !in calls
    case _ => true
  }

  predicate LateAt(x: Attachment, a: nat, admitted: seq<Admission>) {
    && (forall n :: n in x.operations ==>
        n < |admitted| && admitted[n].attachment == a && admitted[n].late == LateBy(x.stage, n))
    && (x.stage.WaitingForCalls? ==> forall n :: n in x.stage.calls ==> n < |admitted|)
  }

  ghost predicate LateOk(s: Router) {
    && (forall a :: 0 <= a < |s.attachments| ==> LateAt(s.attachments[a], a, s.admitted))
    && (forall n :: 0 <= n < |s.admitted| && s.admitted[n].late ==>
          s.admitted[n].attachment < |s.attachments| && s.attachments[s.admitted[n].attachment].session in s.disturbed)
  }

  predicate After(stage: Stage) { !stage.Active? && !stage.WaitingForCalls? }

  /** An attachment keeps what it is, and its release never goes back. */
  predicate Onward(x: Attachment, y: Attachment) {
    && y.client == x.client && y.job == x.job && y.session == x.session
    && (x.installed ==> y.installed) && (!x.lease.Pending? ==> y.lease == x.lease)
    && (!x.stage.Active? ==> !y.stage.Active? && y.publish == x.publish) && (x.stage.Over? ==> y.stage.Over?)
  }

  /** What happens to an attachment that takes in no call. */
  predicate Moves(x: Attachment, y: Attachment) {
    && Onward(x, y) && y.operations <= x.operations
    && (|| y.stage == x.stage
        || (x.stage.Active? && y.stage == WaitingForCalls(x.operations))
        || (x.stage.WaitingForCalls? && After(y.stage) && x.operations * x.stage.calls == {})
        || (After(x.stage) && After(y.stage)))
  }

  ghost predicate Moving(s: Router, t: Router) {
    && |s.attachments| <= |t.attachments| && t.admitted == s.admitted && s.disturbed <= t.disturbed
    && (forall a :: 0 <= a < |s.attachments| ==> Moves(s.attachments[a], t.attachments[a]))
    && (forall a :: |s.attachments| <= a < |t.attachments| ==>
        t.attachments[a].operations == {} && t.attachments[a].stage.Active?)
  }

  lemma MovesLate(x: Attachment, y: Attachment, a: nat, admitted: seq<Admission>)
    requires LateAt(x, a, admitted) && Moves(x, y)
    ensures LateAt(y, a, admitted)
  {
    if x.stage.WaitingForCalls? && After(y.stage) {
      forall n | n in y.operations ensures n !in x.stage.calls {
        assert n in x.operations && n !in x.operations * x.stage.calls;
      }
    }
  }

  lemma MovingKeeps(s: Router, t: Router)
    requires LateOk(s) && Moving(s, t)
    ensures LateOk(t)
  {
    hide LateAt;
    forall a | 0 <= a < |t.attachments| ensures LateAt(t.attachments[a], a, t.admitted) {
      if a < |s.attachments| {
        MovesLate(s.attachments[a], t.attachments[a], a, s.admitted);
      } else {
        NothingLate(t.attachments[a], a, t.admitted);
      }
    }
  }

  lemma NothingLate(x: Attachment, a: nat, admitted: seq<Admission>)
    requires x.operations == {} && x.stage.Active?
    ensures LateAt(x, a, admitted)
  {
  }

  // ---------------------------------------------------------------- the steps

  lemma SameMoving(s: Router, t: Router)
    requires t.attachments == s.attachments && t.admitted == s.admitted && s.disturbed <= t.disturbed
    ensures Moving(s, t)
  {
  }

  lemma BeginMoving(s: Router, which: set<nat>, publish: bool, t: Router)
    requires t.attachments == BeginAll(s, which, publish).attachments && t.admitted == s.admitted &&
      s.disturbed <= t.disturbed
    ensures Moving(s, t)
  {
  }

  lemma OneMoving(s: Router, a: nat, x: Attachment, t: Router)
    requires a < |s.attachments| && Moves(s.attachments[a], x)
    requires t.attachments == s.attachments[a := x] && t.admitted == s.admitted && s.disturbed <= t.disturbed
    ensures Moving(s, t)
  {
  }

  lemma CreateMoving(s: Router, c: nat, j: nat, h: nat)
    requires h < |s.sessions|
    ensures Moving(s, CreateAttachment(s, c, j, h))
  {
  }

  lemma SettleMoving(s: Router, c: nat, j: nat)
    requires j < |ChainOf(s, c).jobs|
    ensures Moving(s, Settle(s, c, j))
  {
  }

  lemma LeavesSame(s: Router, h: nat, a: nat)
    ensures Leaves(s, h, a) == s.(sessions := Leaves(s, h, a).sessions)
  {
  }

  predicate CallAccepted(s: Router, c: nat, j: nat)
    requires P.CanStart(ChainOf(s, c), j)
  {
    ChainOf(s, c).jobs[j].payload.Call? && Accepted(Turn(s, c, j), c, ChainOf(s, c).jobs[j].payload.target).Some?
  }

  /** An operation's turn, unless it is a call that is accepted. */
  lemma StartMoving(s: Router, c: nat, j: nat)
    requires P.CanStart(ChainOf(s, c), j) && !CallAccepted(s, c, j)
    ensures Moving(s, Step(s, Start(c, j)))
  {
    var u := Turn(s, c, j);
    TurnShape(s, c, j);
    BegunMoving(u, c, j);
    hide Turn, Begun;
    MovingFrom(s, u, Begun(u, c, j));
  }

  lemma MovingFrom(s: Router, u: Router, t: Router)
    requires u.attachments == s.attachments && u.admitted == s.admitted && u.disturbed == s.disturbed && Moving(u, t)
    ensures Moving(s, t)
  {
    hide Moves;
  }

  lemma BegunMoving(u: Router, c: nat, j: nat)
    requires j < |ChainOf(u, c).jobs|
    requires ChainOf(u, c).jobs[j].payload.Call? ==> Accepted(u, c, ChainOf(u, c).jobs[j].payload.target).None?
    ensures Moving(u, Begun(u, c, j))
  {
    SettleMoving(u, c, j);
    hide Moving, Settle, Accepted;
    match ChainOf(u, c).jobs[j].payload
    case Call(_) =>
    case Attach(id) => SameMoving(u, Begun(u, c, j));
    case Detach => if c in u.byClient { BeginMoving(u, {u.byClient[c]}, true, Begun(u, c, j)); }
    case Leave => if c in u.byClient { BeginMoving(u, {u.byClient[c]}, false, Begun(u, c, j)); }
  }

  lemma AcquiredMoving(s: Router, c: nat, j: nat, h: nat, current: Option<nat>)
    requires j < |ChainOf(s, c).jobs|
    ensures Moving(s, Acquired(s, c, j, h, current))
  {
    if !Barred(s, c) && h < |s.sessions| {
      if current.Some? {
        BeginMoving(s, {current.value}, false, Acquired(s, c, j, h, current));
      } else {
        CreateMoving(s, c, j, h);
      }
    } else {
      SettleMoving(s, c, j);
    }
  }

  lemma LeasedMoving(s: Router, c: nat, j: nat, a: nat)
    requires a < |s.attachments| && j < |ChainOf(s, c).jobs|
    ensures Moving(s, Leased(s, c, j, a))
  {
    var x := s.attachments[a];
    var t := Leased(s, c, j, a);
    LeavesSame(s, x.session, a);
    hide Leaves;
    match x.lease
    case Pending => SameMoving(s, t);
    case Refused => SameMoving(s, t);
    case Held =>
      if Usable(s, c, a) { OneMoving(s, a, x.(installed := true), t); } else { BeginMoving(s, {a}, true, t); }
  }

  lemma ContinueMoving(s: Router, c: nat, j: nat, ok: bool)
    ensures Moving(s, Step(s, Continue(c, j, ok)))
  {
    SameMoving(s, s);
    if j < |ChainOf(s, c).jobs| && (c, j) in s.suspended {
      hide Acquired, Leased, Settle, CreateAttachment, Moving;
      SettleMoving(s, c, j);
      match s.suspended[(c, j)]
      case AwaitingOpen(o, current) =>
        if o < |s.opens| && s.opens[o].status.Opened? { AcquiredMoving(s, c, j, s.opens[o].status.session, current); }
      case AwaitingHosted(session, current) => AcquiredMoving(s, c, j, session, current);
      case AwaitingSwitch(session, previous) => if session < |s.sessions| { CreateMoving(s, c, j, session); }
      case AwaitingLease(a) => if a < |s.attachments| { LeasedMoving(s, c, j, a); }
      case _ =>
    }
  }

  lemma ClearMoving(s: Router, a: nat)
    requires a < |s.attachments|
    requires s.attachments[a].stage.ReleasingLease?
          || (s.attachments[a].stage.WaitingForCalls? &&
              s.attachments[a].operations * s.attachments[a].stage.calls == {})
    ensures Moving(s, Clear(s, a))
  {
    LeavesSame(s, s.attachments[a].session, a);
    hide Leaves;
    OneMoving(s, a, Clear(s, a).attachments[a], Clear(s, a));
  }

  lemma ChangeMoving(s: Router, a: nat, x: Attachment)
    requires a < |s.attachments| && Moves(s.attachments[a], x)
    ensures Moving(s, WithAttachment(s, a, x))
  {
  }

  lemma CallMoving(s: Router, a: nat, call: nat)
    ensures Moving(s, Step(s, CallSettled(a, call)))
  {
    hide Moving;
    SameMoving(s, s);
    if a < |s.attachments| {
      ChangeMoving(s, a, s.attachments[a].(operations := s.attachments[a].operations - {call}));
    }
  }

  lemma AnswerMoving(s: Router, a: nat, granted: bool)
    ensures Moving(s, Step(s, LeaseAnswered(a, granted)))
  {
    hide Moving;
    SameMoving(s, s);
    if a < |s.attachments| && s.attachments[a].lease.Pending? {
      ChangeMoving(s, a, s.attachments[a].(lease := if granted then Held else Refused));
    }
  }

  lemma NoticeMoving(s: Router, a: nat)
    ensures Moving(s, Step(s, NoticeSent(a)))
  {
    hide Moving;
    SameMoving(s, s);
    if a < |s.attachments| && s.attachments[a].stage.Announcing? {
      ChangeMoving(s, a, s.attachments[a].(stage := Over));
    }
  }

  lemma ReleaseMoving(s: Router, a: nat)
    ensures Moving(s, Step(s, ReleaseLease(a)))
  {
    hide Moving, Clear, WithAttachment;
    SameMoving(s, s);
    if a < |s.attachments| && s.attachments[a].stage.WaitingForCalls? &&
        s.attachments[a].operations * s.attachments[a].stage.calls == {} {
      ClearMoving(s, a);
      ChangeMoving(s, a, s.attachments[a].(stage := ReleasingLease, releases := s.attachments[a].releases + 1));
    }
  }

  lemma ReleasedMoving(s: Router, a: nat)
    ensures Moving(s, Step(s, LeaseReleased(a)))
  {
    hide Moving, Clear;
    SameMoving(s, s);
    if a < |s.attachments| && s.attachments[a].stage.ReleasingLease? { ClearMoving(s, a); }
  }

  lemma TerminatedMoving(s: Router, h: nat)
    ensures Moving(s, Invalidate(s, h))
  {
    hide Moving, BeginAll;
    if IsHosted(s, h) {
      UnhostFirst(s, h);
      BeginFrame(Unhost(s, h), s.sessions[h].attachments, true);
      BeginMoving(s, s.sessions[h].attachments, true, Invalidate(s, h));
    } else {
      SameMoving(s, Invalidate(s, h));
    }
  }

  lemma RemovalMoving(s: Router, id: nat)
    ensures Moving(s, BeginRemoval(s, id))
  {
    hide Moving, BeginAll;
    if !s.closing && id in s.hosted && s.hosted[id] < |s.sessions| {
      BeginFrame(s, s.sessions[s.hosted[id]].attachments, true);
      BeginMoving(s, s.sessions[s.hosted[id]].attachments, true, BeginRemoval(s, id));
    } else {
      SameMoving(s, BeginRemoval(s, id));
    }
  }

  lemma OpenMoving(s: Router, o: nat, id: Option<nat>)
    ensures Moving(s, Step(s, OpenSettled(o, id)))
  {
    hide Moving;
    SameMoving(s, Step(s, OpenSettled(o, id)));
  }

  lemma CloseMoving(s: Router, a: Action)
    requires a.BeginClose? || a.Drained? || a.Emptied? || a.HandlesClosed?
    ensures Moving(s, CloseStep(s, a))
  {
    hide Tails, AllSettled, AllOpened, AttachmentsOf, AllOver, WithoutTails, Moving, BeginAll;
    var t := CloseStep(s, a);
    if a.Drained? && s.close.Draining? && AllSettled(s, s.close.tails) && AllOpened(s, s.close.opens) {
      BeginFrame(s, AttachmentsOf(s, s.hosted.Values), true);
      BeginMoving(s, AttachmentsOf(s, s.hosted.Values), true, t);
    } else {
      SameMoving(s, t);
    }
  }

  /** Steps that do not touch the attachments. */
  lemma QuietMoving(s: Router, a: Action)
    requires a.Submit? || a.CleanUp? || a.ForgetLeaving? || a.StopAccepting? || a.ForgetOpen? || a.FinishRemoval?
    ensures Moving(s, Step(s, a))
  {
    hide Moving, AllOver;
    SameMoving(s, Step(s, a));
  }

  /**
   A call that is accepted: late exactly if the release of its attachment has begun, which takes a disturbed session.
   */
  lemma AdmitKeeps(s: Router, c: nat, j: nat)
    requires FlowOk(s) && LateOk(s) && P.CanStart(ChainOf(s, c), j) && CallAccepted(s, c, j)
    ensures LateOk(Step(s, Start(c, j)))
  {
    var u := Turn(s, c, j);
    TurnShape(s, c, j);
    var target := ChainOf(s, c).jobs[j].payload.target;
    AdmitShape(u, c, target);
    CurrentCall(s, c, j);
    hide FlowOk, Turn, LateOk;
    AdmittedLate(s, u, c, target);
    var t := Admit(u, c, target);
    assert Step(s, Start(c, j)) == Settle(t, c, j);
    SettleLate(t, c, j);
  }

  /** A call of a session that has not been disturbed finds its attachment in use. */
  lemma CurrentCall(s: Router, c: nat, j: nat)
    requires FlowOk(s) && P.CanStart(ChainOf(s, c), j) && CallAccepted(s, c, j)
    ensures c in s.byClient && s.byClient[c] < |s.attachments|
    ensures s.attachments[s.byClient[c]].session in s.disturbed || s.attachments[s.byClient[c]].stage.Active?
  {
    TurnShape(s, c, j);
    hide Turn;
    if s.attachments[s.byClient[c]].session !in s.disturbed { CurrentIsActive(s, c, j); }
  }

  lemma AdmittedLate(s: Router, u: Router, c: nat, target: Target)
    requires LateOk(s) && u == s.(chains := u.chains) && Accepted(u, c, target).Some?
    requires c in s.byClient && s.byClient[c] < |s.attachments|
    requires s.attachments[s.byClient[c]].session in s.disturbed || s.attachments[s.byClient[c]].stage.Active?
    ensures LateOk(Admit(u, c, target))
  {
    AdmitShape(u, c, target);
    var t := Admit(u, c, target);
    hide Admit, Accepted;
    forall b | 0 <= b < |t.attachments| ensures LateAt(t.attachments[b], b, t.admitted) {
      assert LateAt(s.attachments[b], b, s.admitted);
    }
  }

  lemma AdmitShape(u: Router, c: nat, target: Target)
    requires Accepted(u, c, target).Some?
    ensures c in u.byClient && u.byClient[c] < |u.attachments|
    ensures var t := Admit(u, c, target); var a := u.byClient[c]; var x := u.attachments[a];
      && t.attachments == u.attachments[a := x.(operations := x.operations + {|u.admitted|})]
      && t.admitted == u.admitted + [Admission(c, target, a, !x.stage.Active?)]
      && t.disturbed == u.disturbed && t.chains == u.chains
  {
  }

  lemma SettleLate(t: Router, c: nat, j: nat)
    requires LateOk(t) && j < |ChainOf(t, c).jobs|
    ensures LateOk(Settle(t, c, j))
  {
    hide LateAt;
  }

  lemma StepLate(s: Router, a: Action)
    requires FlowOk(s) && LateOk(s)
    ensures LateOk(Step(s, a))
  {
    hide FlowOk, LateOk, Step, Moving, Accepted, Turn, ChainOf, P.CanStart;
    match a
    case Start(c, j) =>
      if !P.CanStart(ChainOf(s, c), j) {
        IdleStart(s, c, j);
      } else if CallAccepted(s, c, j) {
        AdmitKeeps(s, c, j);
      } else {
        StartMoving(s, c, j);
        MovingKeeps(s, Step(s, a));
      }
    case Continue(c, j, ok) =>
      ContinueMoving(s, c, j, ok);
      MovingKeeps(s, Step(s, a));
    case _ =>
      PlainMoving(s, a);
      MovingKeeps(s, Step(s, a));
  }

  lemma IdleStart(s: Router, c: nat, j: nat)
    requires !P.CanStart(ChainOf(s, c), j)
    ensures Step(s, Start(c, j)) == s
  {
  }

  lemma PlainMoving(s: Router, a: Action)
    requires !a.Start? && !a.Continue?
    ensures Moving(s, Step(s, a))
  {
    match a
    case CallSettled(x, call) => CallMoving(s, x, call);
    case LeaseAnswered(x, granted) => AnswerMoving(s, x, granted);
    case ReleaseLease(x) => ReleaseMoving(s, x);
    case LeaseReleased(x) => ReleasedMoving(s, x);
    case NoticeSent(x) => NoticeMoving(s, x);
    case OpenSettled(o, id) => OpenMoving(s, o, id);
    case Terminated(h) => SessionStepMoving(s, a);
    case RemoveSession(id) => SessionStepMoving(s, a);
    case BeginClose => CloseStepMoving(s, a);
    case Drained => CloseStepMoving(s, a);
    case Emptied => CloseStepMoving(s, a);
    case HandlesClosed(_) => CloseStepMoving(s, a);
    case Submit(_, _) => QuietMoving(s, a);
    case CleanUp(_, _) => QuietMoving(s, a);
    case ForgetLeaving(_, _) => QuietMoving(s, a);
    case StopAccepting => QuietMoving(s, a);
    case ForgetOpen(_) => QuietMoving(s, a);
    case FinishRemoval(_) => QuietMoving(s, a);
  }

  lemma SessionStepMoving(s: Router, a: Action)
    requires a.Terminated? || a.RemoveSession?
    ensures Moving(s, Step(s, a))
  {
    hide Moving, Invalidate, BeginRemoval;
    if a.Terminated? { TerminatedMoving(s, a.hosted); } else { RemovalMoving(s, a.session); }
  }

  lemma CloseStepMoving(s: Router, a: Action)
    requires a.BeginClose? || a.Drained? || a.Emptied? || a.HandlesClosed?
    ensures Moving(s, Step(s, a))
  {
    hide Moving, CloseStep;
    CloseMoving(s, a);
  }

  lemma {:induction false} RunLate(s: Router, actions: seq<Action>)
    requires FlowOk(s) && LateOk(s)
    ensures FlowOk(Run(s, actions)) && LateOk(Run(s, actions))
    decreases |actions|
  {
    hide FlowOk, LateOk, Step;
    if actions != [] {
      StepKeeps(s, actions[0]);
      StepLate(s, actions[0]);
      RunLate(Step(s, actions[0]), actions[1..]);
    }
  }

  lemma Reached(actions: seq<Action>)
    ensures FlowOk(Run(INITIAL, actions)) && LateOk(Run(INITIAL, actions))
  {
    InitialOk();
    hide FlowOk, Run;
    RunLate(INITIAL, actions);
  }

  // ---------------------------------------------------------------- every run

  /**
   On every run, disturbed ones included: once a lease is being released, a call admitted through it is
   still running if and only if one is that was admitted after the release had begun.
   */
  lemma ReleasedUnderLateCalls(actions: seq<Action>, a: nat)
    requires a < |Run(INITIAL, actions).attachments|
    ensures var s := Run(INITIAL, actions); var x := s.attachments[a];
      x.releases == 1 ==> (x.operations != {} <==> exists n ::
          n in x.operations && n < |s.admitted| && s.admitted[n].late)
  {
    Reached(actions);
    var s := Run(INITIAL, actions);
    hide JobsOk, IndexOk, FenceOk, QuietOk, Run, CurrentOk;
    assert LeaseOk(s.attachments[a], InSet(s, a));
    var x := s.attachments[a];
    assert LateAt(x, a, s.admitted);
    if x.releases == 1 && x.operations != {} {
      var n :| n in x.operations;
      assert s.admitted[n].late;
    }
  }

  /**
   And that moment: a lease about to be released goes with a call running if and only if a call admitted
   since the release began is unsettled.
   */
  lemma ReleasedWithCalls(actions: seq<Action>, a: nat)
    requires var s := Run(INITIAL, actions); a < |s.attachments| && s.attachments[a].releases == 0
    requires var t := Run(INITIAL, actions + [ReleaseLease(a)]); a < |t.attachments| && t.attachments[a].releases == 1
    ensures var s := Run(INITIAL, actions); var t := Run(INITIAL, actions + [ReleaseLease(a)]);
      && t.attachments[a].operations == s.attachments[a].operations
      && (t.attachments[a].operations != {} <==>
            exists n :: n in s.attachments[a].operations && n < |s.admitted| && s.admitted[n].late)
  {
    RunAppend(INITIAL, actions, [ReleaseLease(a)]);
    var s := Run(INITIAL, actions);
    RunLast(s, ReleaseLease(a));
    ReleasedUnderLateCalls(actions + [ReleaseLease(a)], a);
    hide Run;
    ReleaseMoves(s, a);
  }

  lemma ClearReleases(s: Router, a: nat)
    requires a < |s.attachments|
    ensures var t := Clear(s, a);
      t.admitted == s.admitted && |t.attachments| == |s.attachments| &&
      t.attachments[a].releases == s.attachments[a].releases
  {
    LeavesSame(s, s.attachments[a].session, a);
    hide Leaves;
  }

  lemma ReleaseMoves(s: Router, a: nat)
    requires a < |s.attachments| && s.attachments[a].releases == 0
    ensures Step(s, ReleaseLease(a)).admitted == s.admitted && a < |Step(s, ReleaseLease(a)).attachments|
    ensures Step(s, ReleaseLease(a)).attachments[a].releases == 1 ==>
              Step(s, ReleaseLease(a)).attachments[a].operations == s.attachments[a].operations
  {
    ClearReleases(s, a);
    hide Clear;
  }

  /** Calls come late only to sessions that have been removed or have ended by themselves. */
  lemma LateCallsAreDisturbed(actions: seq<Action>, n: nat)
    requires var s := Run(INITIAL, actions); n < |s.admitted| && s.admitted[n].late
    ensures var s := Run(INITIAL, actions); var a := s.admitted[n].attachment;
      a < |s.attachments| && s.attachments[a].session in s.disturbed
  {
    Reached(actions);
    hide FlowOk, LateAt, Run;
  }
}
