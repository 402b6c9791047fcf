/**
 What a client's operations achieve: when leaving, detaching or switching sessions has settled, the old attachment is
 gone and its lease has been released, exactly once.
 */
module RouterReleases {
  import opened Common
  import P = PromiseChain
  import opened SessionRouter
  import opened RouterSafety
  import opened RouterFlow
  import opened RouterSteps
  import opened RouterTheorems
  import opened RouterCalls
  import O = RouterOrder

  // ---------------------------------------------------------------- what steps leave alone

  ghost predicate AllOnward(s: Router, t: Router) {
    |s.attachments| <= |t.attachments| &&
    forall a :: 0 <= a < |s.attachments| ==> Onward(s.attachments[a], t.attachments[a])
  }

  lemma CallOnward(s: Router, c: nat, j: nat)
    requires P.CanStart(ChainOf(s, c), j) && CallAccepted(s, c, j)
    ensures AllOnward(s, Step(s, Start(c, j)))
  {
    var u := Turn(s, c, j);
    TurnShape(s, c, j);
    var target := ChainOf(s, c).jobs[j].payload.target;
    AdmitShape(u, c, target);
    hide Turn, Accepted, ChainOf, Admit;
    assert Step(s, Start(c, j)).attachments == Admit(u, c, target).attachments;
  }

  lemma MovingOnward(s: Router, t: Router)
    requires Moving(s, t)
    ensures AllOnward(s, t)
  {
    hide Onward;
  }

  lemma StepOnward(s: Router, a: Action)
    ensures AllOnward(s, Step(s, a))
  {
    hide Step, Moving, AllOnward, ChainOf, P.CanStart, CallAccepted;
    match a
    case Start(c, j) =>
      if !P.CanStart(ChainOf(s, c), j) {
        IdleStart(s, c, j);
        SameOnward(s);
      } else if CallAccepted(s, c, j) {
        CallOnward(s, c, j);
      } else {
        StartMoving(s, c, j);
        MovingOnward(s, Step(s, a));
      }
    case Continue(c, j, ok) =>
      ContinueMoving(s, c, j, ok);
      MovingOnward(s, Step(s, a));
    case _ =>
      PlainMoving(s, a);
      MovingOnward(s, Step(s, a));
  }

  lemma SameOnward(s: Router)
    ensures AllOnward(s, s)
  {
  }

  lemma OnwardTwice(s: Router, t: Router, u: Router)
    requires AllOnward(s, t) && AllOnward(t, u)
    ensures AllOnward(s, u)
  {
    forall a | 0 <= a < |s.attachments| ensures Onward(s.attachments[a], u.attachments[a]) {
      assert Onward(s.attachments[a], t.attachments[a]) && Onward(t.attachments[a], u.attachments[a]);
    }
  }

  lemma {:induction false} RunOnward(s: Router, actions: seq<Action>)
    ensures AllOnward(s, Run(s, actions))
    decreases |actions|
  {
    hide AllOnward, Step;
    if actions == [] {
      SameOnward(s);
    } else {
      StepOnward(s, actions[0]);
      RunOnward(Step(s, actions[0]), actions[1..]);
      OnwardTwice(s, Step(s, actions[0]), Run(s, actions));
    }
  }

  /** An operation that does not move stays where it is suspended. */
  predicate SameAt(s: Router, t: Router, k: (nat, nat)) {
    (k in t.suspended <==> k in s.suspended) && (k in s.suspended ==> t.suspended[k] == s.suspended[k])
  }

  predicate Moved(a: Action, k: (nat, nat)) {
    (a.Start? && (a.client, a.job) == k) || (a.Continue? && (a.client, a.job) == k)
  }

  lemma SettleElsewhere(s: Router, u: Router, c: nat, j: nat, k: (nat, nat))
    requires SameAt(s, u, k) && j < |ChainOf(u, c).jobs| && k != (c, j)
    ensures SameAt(s, Settle(u, c, j), k)
  {
  }

  lemma SuspendElsewhere(s: Router, u: Router, c: nat, j: nat, at: Suspended, k: (nat, nat))
    requires SameAt(s, u, k) && k != (c, j)
    ensures SameAt(s, Suspend(u, c, j, at), k)
  {
  }

  /** Parts of an operation that suspend nothing. */
  lemma PartsElsewhere(u: Router, c: nat)
    ensures forall which, publish :: BeginAll(u, which, publish).suspended == u.suspended
    ensures forall which, publish :: |BeginAll(u, which, publish).attachments| == |u.attachments|
    ensures forall target :: Admit(u, c, target).suspended == u.suspended
    ensures forall target :: |Admit(u, c, target).attachments| == |u.attachments|
    ensures forall h, a :: Leaves(u, h, a) == u.(sessions := Leaves(u, h, a).sessions)
  {
    hide BeginAll, Admit, Leaves;
    forall which, publish ensures BeginAll(u, which, publish).suspended == u.suspended &&
      |BeginAll(u, which, publish).attachments| == |u.attachments| { BeginKeepsOwner(u, which, publish); }
    forall target ensures Admit(u, c, target).suspended == u.suspended &&
      |Admit(u, c, target).attachments| == |u.attachments| { AdmitElsewhere(u, c, target); }
    forall h, a ensures Leaves(u, h, a) == u.(sessions := Leaves(u, h, a).sessions) { LeavesSame(u, h, a); }
  }

  lemma AdmitElsewhere(u: Router, c: nat, target: Target)
    ensures Admit(u, c, target).suspended == u.suspended
    ensures |Admit(u, c, target).attachments| == |u.attachments|
  {
    hide Barred;
  }

  lemma BegunElsewhere(u: Router, c: nat, j: nat, k: (nat, nat))
    requires j < |ChainOf(u, c).jobs| && k != (c, j)
    ensures SameAt(u, Begun(u, c, j), k)
  {
    PartsElsewhere(u, c);
    AdmitMoves(u, c);
    hide Barred, SessionIdOf, CurrentOf, Settle, Suspend, BeginAll, Admit, EnsureOpen, ChainOf;
    SettleElsewhere(u, u, c, j, k);
    match ChainOf(u, c).jobs[j].payload
    case Call(target) => SettleElsewhere(u, Admit(u, c, target), c, j, k);
    case Attach(id) => AcquireElsewhere(u, c, j, id, k);
    case Detach => if c in u.byClient {
      SuspendElsewhere(u, BeginAll(u, {u.byClient[c]}, true), c, j, AwaitingRelease(u.byClient[c]), k);
    }
    case Leave => if c in u.byClient {
      SuspendElsewhere(u, BeginAll(u, {u.byClient[c]}, false), c, j, AwaitingRelease(u.byClient[c]), k);
    }
  }

  lemma AcquireElsewhere(u: Router, c: nat, j: nat, id: nat, k: (nat, nat))
    requires k != (c, j)
    ensures SameAt(u, Acquire(u, c, j, id), k)
  {
    EnsureOpenShape(u, id);
    hide EnsureOpen, CurrentOf;
  }

  lemma CreateElsewhere(s: Router, c: nat, j: nat, h: nat, k: (nat, nat))
    requires h < |s.sessions| && k != (c, j)
    ensures SameAt(s, CreateAttachment(s, c, j, h), k)
  {
    CreatedElsewhere(s, c, j, h);
    hide Created;
  }

  lemma CreatedElsewhere(s: Router, c: nat, j: nat, h: nat)
    requires h < |s.sessions|
    ensures Created(s, c, j, h).suspended == s.suspended
  {
  }

  lemma AcquiredElsewhere(s: Router, c: nat, j: nat, h: nat, current: Option<nat>, k: (nat, nat))
    requires j < |ChainOf(s, c).jobs| && k != (c, j)
    ensures SameAt(s, Acquired(s, c, j, h, current), k)
  {
    PartsElsewhere(s, c);
    hide Barred, Settle, Suspend, BeginAll, CreateAttachment, ChainOf;
    SettleElsewhere(s, s, c, j, k);
    if h < |s.sessions| { CreateElsewhere(s, c, j, h, k); }
    if current.Some? {
      SuspendElsewhere(s, BeginAll(s, {current.value}, false), c, j, AwaitingSwitch(h, current.value), k);
    }
  }

  lemma LeasedElsewhere(s: Router, c: nat, j: nat, a: nat, k: (nat, nat))
    requires a < |s.attachments| && j < |ChainOf(s, c).jobs| && k != (c, j)
    ensures SameAt(s, Leased(s, c, j, a), k)
  {
    var x := s.attachments[a];
    PartsElsewhere(s, c);
    LeavesChains(s, x.session, a);
    SameJobs(s, Leaves(s, x.session, a), c);
    hide Usable, Settle, Suspend, BeginAll, Leaves, ChainOf;
    SettleElsewhere(s, Leaves(s, x.session, a), c, j, k);
    SuspendElsewhere(s, BeginAll(s, {a}, true), c, j, AwaitingUndo(a), k);
    SuspendElsewhere(s, WithAttachment(s, a, x.(installed := true)).(byClient := s.byClient[c := a]), c, j,
                     AwaitingNotice(a), k);
  }

  lemma ContinuedElsewhere(s: Router, c: nat, j: nat, ok: bool, k: (nat, nat))
    requires j < |ChainOf(s, c).jobs| && (c, j) in s.suspended && k != (c, j)
    ensures SameAt(s, Continued(s, c, j, ok), k)
  {
    hide IsOver, Acquired, Leased, Settle, CreateAttachment, ChainOf;
    SettleElsewhere(s, s, c, j, k);
    match s.suspended[(c, j)]
    case AwaitingOpen(o, current) =>
      if o < |s.opens| && s.opens[o].status.Opened? {
        AcquiredElsewhere(s, c, j, s.opens[o].status.session, current, k);
      }
    case AwaitingHosted(h, current) => AcquiredElsewhere(s, c, j, h, current, k);
    case AwaitingSwitch(h, _) => if h < |s.sessions| { CreateElsewhere(s, c, j, h, k); }
    case AwaitingLease(a) => if a < |s.attachments| { LeasedElsewhere(s, c, j, a, k); }
    case _ =>
  }

  lemma StartElsewhere(s: Router, c: nat, j: nat, k: (nat, nat))
    requires k != (c, j)
    ensures SameAt(s, Step(s, Start(c, j)), k)
  {
    if P.CanStart(ChainOf(s, c), j) {
      TurnShape(s, c, j);
      hide Begun, Turn;
      BegunElsewhere(Turn(s, c, j), c, j, k);
    }
  }

  lemma StepElsewhere(s: Router, a: Action, k: (nat, nat))
    requires !Moved(a, k)
    ensures SameAt(s, Step(s, a), k)
  {
    match a
    case Start(c, j) => StartElsewhere(s, c, j, k);
    case Continue(c, j, ok) =>
      hide Continued;
      if j < |ChainOf(s, c).jobs| && (c, j) in s.suspended { ContinuedElsewhere(s, c, j, ok, k); }
    case _ => PlainElsewhere(s, a, k);
  }

  /** No operation moves, and no attachment is made. */
  predicate Passes(s: Router, t: Router) { t.suspended == s.suspended && |t.attachments| == |s.attachments| }

  lemma PlainElsewhere(s: Router, a: Action, k: (nat, nat))
    requires !a.Start? && !a.Continue?
    ensures SameAt(s, Step(s, a), k)
  {
    PlainPasses(s, a);
    hide Step;
  }

  lemma PlainPasses(s: Router, a: Action)
    requires !a.Start? && !a.Continue?
    ensures Passes(s, Step(s, a))
  {
    hide Submitted, WithChain, WithAttachment, Clear, OpenEnds, Invalidate, BeginRemoval, Unhost, CloseStep, ChainOf,
        IsHosted, AllOver, P.Cleanup;
    if a.ReleaseLease? || a.LeaseReleased? { ReleasePasses(s, a); }
    else if a.Submit? { SubmitPasses(s, a.client, a.op); }
    else if a.CleanUp? { CleanUpPasses(s, a.client, a.job); }
    else if a.CallSettled? || a.LeaseAnswered? || a.NoticeSent? { ChangePasses(s, a); }
    else if a.BeginClose? || a.Drained? || a.Emptied? || a.HandlesClosed? { ClosePasses(s, a); }
    else { SessionPasses(s, a); }
  }

  lemma SubmitPasses(s: Router, c: nat, op: Op)
    ensures Passes(s, Submitted(s, c, op))
  {
    hide ChainOf, P.Submit;
  }

  lemma CleanUpPasses(s: Router, c: nat, j: nat)
    ensures Passes(s, Step(s, CleanUp(c, j)))
  {
    hide P.Cleanup;
  }

  lemma ChangePasses(s: Router, a: Action)
    requires a.CallSettled? || a.LeaseAnswered? || a.NoticeSent?
    ensures Passes(s, Step(s, a))
  {
  }

  lemma ClearPasses(s: Router, a: nat)
    requires a < |s.attachments|
    ensures Passes(s, Clear(s, a))
  {
    PartsElsewhere(s, 0);
    hide Leaves;
  }

  lemma ReleasePasses(s: Router, a: Action)
    requires a.ReleaseLease? || a.LeaseReleased?
    ensures Passes(s, Step(s, a))
  {
    if a.attachment < |s.attachments| { ClearPasses(s, a.attachment); }
    hide Clear;
  }

  lemma ClosePasses(s: Router, a: Action)
    requires a.BeginClose? || a.Drained? || a.Emptied? || a.HandlesClosed?
    ensures Passes(s, Step(s, a))
  {
    PartsElsewhere(s, 0);
    hide BeginAll, Tails, AllSettled, AllOpened, AttachmentsOf, AllOver, WithoutTails;
  }

  lemma SessionPasses(s: Router, a: Action)
    requires a.OpenSettled? || a.ForgetOpen? || a.Terminated? || a.RemoveSession? || a.FinishRemoval? ||
      a.StopAccepting? || a.ForgetLeaving?
    ensures Passes(s, Step(s, a))
  {
    hide BeginAll, AllOver, Invalidate, BeginRemoval;
    if a.Terminated? { InvalidatePasses(s, a.hosted); }
    if a.RemoveSession? { RemovalPasses(s, a.session); }
  }

  lemma InvalidatePasses(s: Router, h: nat)
    ensures Passes(s, Invalidate(s, h))
  {
    if IsHosted(s, h) { PartsElsewhere(Unhost(s, h), 0); }
    hide BeginAll;
  }

  lemma RemovalPasses(s: Router, id: nat)
    ensures Passes(s, BeginRemoval(s, id))
  {
    PartsElsewhere(s, 0);
    hide BeginAll;
  }

  // ---------------------------------------------------------------- leaving and detaching

  /** The operation waits for the release of attachment `a`, or that is over. */
  predicate Awaits(s: Router, k: (nat, nat), a: nat) {
    IsOver(s, a) || (k in s.suspended && s.suspended[k] == AwaitingRelease(a))
  }

  lemma OverStays(s: Router, t: Router, a: nat)
    requires AllOnward(s, t) && IsOver(s, a)
    ensures IsOver(t, a)
  {
  }

  lemma CannotRestart(s: Router, k: (nat, nat), a: Action)
    requires FlowOk(s) && k in s.suspended && a == Start(k.0, k.1)
    ensures Step(s, a) == s
  {
    hide HoldingOk, IndexOk, FenceOk, QuietOk, ChainsOk, SuspendedOk, Begun;
    assert RunningAt(s, k);
  }

  lemma SuspendedJob(s: Router, k: (nat, nat))
    requires FlowOk(s) && k in s.suspended
    ensures k.1 < |ChainOf(s, k.0).jobs|
  {
    hide HoldingOk, IndexOk, FenceOk, QuietOk, ChainsOk, SuspendedOk;
    assert RunningAt(s, k);
  }

  lemma AwaitsStep(s: Router, a: Action, k: (nat, nat), x: nat)
    requires FlowOk(s) && Awaits(s, k, x)
    ensures Awaits(Step(s, a), k, x)
  {
    hide FlowOk, Step, AllOnward;
    StepOnward(s, a);
    if IsOver(s, x) {
      OverStays(s, Step(s, a), x);
    } else if !Moved(a, k) {
      StepElsewhere(s, a, k);
    } else if a.Start? {
      CannotRestart(s, k, a);
    } else {
      ReleaseAwaited(s, k, x, a.ok);
    }
  }

  lemma ReleaseAwaited(s: Router, k: (nat, nat), x: nat, ok: bool)
    requires FlowOk(s) && k in s.suspended && s.suspended[k] == AwaitingRelease(x) && !IsOver(s, x)
    ensures Step(s, Continue(k.0, k.1, ok)) == s
  {
    SuspendedJob(s, k);
  }

  lemma {:induction false} RunAwaits(s: Router, actions: seq<Action>, k: (nat, nat), x: nat)
    requires FlowOk(s) && Awaits(s, k, x)
    ensures Awaits(Run(s, actions), k, x) && FlowOk(Run(s, actions))
    decreases |actions|
  {
    hide FlowOk, Step, Awaits;
    if actions != [] {
      AwaitsStep(s, actions[0], k, x);
      StepKeeps(s, actions[0]);
      RunAwaits(Step(s, actions[0]), actions[1..], k, x);
    }
  }

  predicate HasSettled(s: Router, c: nat, j: nat) {
    j < |ChainOf(s, c).jobs| && ChainOf(s, c).jobs[j].status == P.Settled
  }

  /** The attachment is out of use: it is nobody's current one, in no session's set, and its lease has been returned. */
  predicate Gone(s: Router, a: nat) {
    && IsOver(s, a) && (forall c :: c in s.byClient ==> s.byClient[c] != a) && !InSet(s, a)
    && !s.attachments[a].lease.Pending? && s.attachments[a].releases == if s.attachments[a].lease.Held? then 1 else 0
  }

  lemma OverIsGone(s: Router, a: nat)
    requires FlowOk(s) && IsOver(s, a)
    ensures Gone(s, a)
  {
    hide JobsOk, IndexOk, FenceOk, QuietOk;
    assert LeaseOk(s.attachments[a], InSet(s, a));
    forall c | c in s.byClient ensures s.byClient[c] != a { assert CurrentAt(s, c, s.byClient[c]); }
  }

  lemma SettledRuns(s: Router, c: nat, j: nat)
    requires FlowOk(s) && HasSettled(s, c, j)
    ensures (c, j) !in s.suspended
  {
    if (c, j) in s.suspended { RunsNow(s, (c, j)); }
  }

  lemma RunsNow(s: Router, k: (nat, nat))
    requires FlowOk(s) && k in s.suspended
    ensures RunningAt(s, k)
  {
    hide HoldingOk, IndexOk, FenceOk, QuietOk, ChainsOk, SuspendedOk;
  }

  /** An operation that leaves or detaches waits for the release of the client's attachment. */
  lemma LeavingAwaits(s: Router, c: nat, j: nat)
    requires FlowOk(s) && P.CanStart(ChainOf(s, c), j) && c in s.byClient
    requires ChainOf(s, c).jobs[j].payload.Leave? || ChainOf(s, c).jobs[j].payload.Detach?
    ensures Awaits(Step(s, Start(c, j)), (c, j), s.byClient[c])
  {
    TurnShape(s, c, j);
    hide FlowOk, BeginAll, ChainOf;
  }

  /**
   When leaving (`disconnect`) or detaching has settled, the attachment its client had when its turn came is gone, and
   its lease, if it was granted, has been released exactly once.
   */
  lemma LeavingReleases(actions: seq<Action>, n: nat, c: nat, j: nat)
    requires n < |actions| && actions[n] == Start(c, j)
    requires var s := Run(INITIAL, actions[..n]);
      && P.CanStart(ChainOf(s, c), j) && c in s.byClient
      && (ChainOf(s, c).jobs[j].payload.Leave? || ChainOf(s, c).jobs[j].payload.Detach?)
    requires HasSettled(Run(INITIAL, actions), c, j)
    ensures Gone(Run(INITIAL, actions), Run(INITIAL, actions[..n]).byClient[c])
  {
    var s, d := Run(INITIAL, actions[..n]), Run(INITIAL, actions);
    InitialOk();
    RunKeeps(INITIAL, actions[..n]);
    RunAt(INITIAL, actions, n);
    LeavingAwaits(s, c, j);
    StepKeeps(s, actions[n]);
    hide FlowOk, Run, Step, ChainOf, P.CanStart, Gone;
    RunAwaits(Step(s, actions[n]), actions[n + 1..], (c, j), s.byClient[c]);
    SettledRuns(d, c, j);
    OverIsGone(d, s.byClient[c]);
  }

  lemma RunAt(s: Router, actions: seq<Action>, n: nat)
    requires n < |actions|
    ensures Run(s, actions) == Run(Step(Run(s, actions[..n]), actions[n]), actions[n + 1..])
  {
    var rest := actions[n..];
    assert actions == actions[..n] + rest && rest[0] == actions[n] && rest[1..] == actions[n + 1..];
    RunAppend(s, actions[..n], rest);
    hide Step;
  }

  // ---------------------------------------------------------------- switching sessions

  /** None of the attachments from `from` on is the operation's. */
  predicate NoneMade(s: Router, k: (nat, nat), from: nat) {
    forall x :: from <= x < |s.attachments| ==> (s.attachments[x].client, s.attachments[x].job) != k
  }

  /** An operation that has found `a` to be the client's attachment, and has not yet released it. */
  predicate Holds(at: Suspended, a: nat) {
    match at
    case AwaitingOpen(_, current) => current == Some(a)
    case AwaitingHosted(_, current) => current == Some(a)
    case AwaitingSwitch(_, previous) => previous == a
    case _ => false
  }

  predicate Switching(s: Router, k: (nat, nat), a: nat, from: nat) {
    || IsOver(s, a)
    || (from <= |s.attachments| && NoneMade(s, k, from) &&
        if k in s.suspended then Holds(s.suspended[k], a) else HasSettled(s, k.0, k.1))
  }

  lemma SettledStays(s: Router, a: Action, c: nat, j: nat)
    requires FlowOk(s) && HasSettled(s, c, j)
    ensures HasSettled(Step(s, a), c, j)
  {
    O.ChainStep(s, a, c);
    hide FlowOk, Step, ChainOf;
  }

  /** New attachments are the operation's own. */
  predicate OwnMade(s: Router, t: Router, c: nat, j: nat) {
    |s.attachments| <= |t.attachments| && forall x :: |s.attachments| <= x < |t.attachments| ==>
      (t.attachments[x].client, t.attachments[x].job) == (c, j)
  }

  lemma NoneNew(s: Router, t: Router, c: nat, j: nat)
    requires |t.attachments| == |s.attachments|
    ensures OwnMade(s, t, c, j)
  {
  }

  lemma StartMakes(s: Router, c: nat, j: nat)
    ensures OwnMade(s, Step(s, Start(c, j)), c, j)
  {
    if P.CanStart(ChainOf(s, c), j) {
      var u := Turn(s, c, j);
      TurnShape(s, c, j);
      BegunMakesNone(u, c, j);
      hide Turn, Begun, ChainOf;
    }
  }

  lemma BegunMakesNone(u: Router, c: nat, j: nat)
    requires j < |ChainOf(u, c).jobs|
    ensures |Begun(u, c, j).attachments| == |u.attachments|
  {
    PartsElsewhere(u, c);
    AdmitMoves(u, c);
    hide BeginAll, Admit, Barred, SessionIdOf, CurrentOf, ChainOf, EnsureOpen;
    match ChainOf(u, c).jobs[j].payload
    case Attach(id) => EnsureOpenShape(u, id);
    case _ =>
  }

  lemma CreateMakes(s: Router, c: nat, j: nat, h: nat)
    requires h < |s.sessions|
    ensures OwnMade(s, CreateAttachment(s, c, j, h), c, j)
  {
  }

  lemma AcquiredMakes(s: Router, c: nat, j: nat, h: nat, current: Option<nat>)
    requires j < |ChainOf(s, c).jobs|
    ensures OwnMade(s, Acquired(s, c, j, h, current), c, j)
  {
    PartsElsewhere(s, c);
    if h < |s.sessions| { CreateMakes(s, c, j, h); }
    hide Barred, BeginAll, CreateAttachment, ChainOf;
  }

  lemma LeasedMakes(s: Router, c: nat, j: nat, a: nat)
    requires a < |s.attachments| && j < |ChainOf(s, c).jobs|
    ensures OwnMade(s, Leased(s, c, j, a), c, j)
  {
    PartsElsewhere(s, c);
    LeavesChains(s, s.attachments[a].session, a);
    SameJobs(s, Leaves(s, s.attachments[a].session, a), c);
    hide Usable, BeginAll, Leaves, ChainOf;
  }

  lemma ContinueMakes(s: Router, c: nat, j: nat, ok: bool)
    ensures OwnMade(s, Step(s, Continue(c, j, ok)), c, j)
  {
    NoneNew(s, s, c, j);
    if j < |ChainOf(s, c).jobs| && (c, j) in s.suspended {
      SettleSettles(s, c, j);
      NoneNew(s, Settle(s, c, j), c, j);
      hide IsOver, Acquired, Leased, Settle, CreateAttachment, ChainOf, OwnMade;
      match s.suspended[(c, j)]
      case AwaitingOpen(o, current) =>
        if o < |s.opens| && s.opens[o].status.Opened? { AcquiredMakes(s, c, j, s.opens[o].status.session, current); }
      case AwaitingHosted(h, current) => AcquiredMakes(s, c, j, h, current);
      case AwaitingSwitch(h, _) => if h < |s.sessions| { CreateMakes(s, c, j, h); }
      case AwaitingLease(a) => if a < |s.attachments| { LeasedMakes(s, c, j, a); }
      case _ =>
    }
  }

  /** An attachment is made by the operation that moves. */
  lemma MakesOwn(s: Router, a: Action)
    ensures |s.attachments| <= |Step(s, a).attachments|
    ensures forall x :: |s.attachments| <= x < |Step(s, a).attachments| ==>
      var y := Step(s, a).attachments[x]; Moved(a, (y.client, y.job))
  {
    hide Step;
    match a
    case Start(c, j) => StartMakes(s, c, j);
    case Continue(c, j, ok) => ContinueMakes(s, c, j, ok);
    case _ => PlainPasses(s, a);
  }

  lemma ContinueIs(s: Router, c: nat, j: nat, ok: bool)
    requires j < |ChainOf(s, c).jobs| && (c, j) in s.suspended
    ensures Step(s, Continue(c, j, ok)) == Continued(s, c, j, ok)
  {
    hide Continued, ChainOf;
  }

  lemma SwitchMoves(s: Router, k: (nat, nat), a: nat, from: nat, ok: bool)
    requires FlowOk(s) && k in s.suspended && Holds(s.suspended[k], a) && !IsOver(s, a)
    requires from <= |s.attachments| && NoneMade(s, k, from)
    ensures Switching(Step(s, Continue(k.0, k.1, ok)), k, a, from)
  {
    SuspendedJob(s, k);
    ContinueIs(s, k.0, k.1, ok);
    SettleSettles(s, k.0, k.1);
    hide Step, FlowOk, Settle, Acquired, Switching, ChainOf, HasSettled, NoneMade;
    SwitchStays(s, Settle(s, k.0, k.1), k, a, from);
    SwitchStays(s, s, k, a, from);
    match s.suspended[k]
    case AwaitingOpen(o, _) =>
      if o < |s.opens| && s.opens[o].status.Opened? { AcquiredSwitches(s, k, a, from, s.opens[o].status.session); }
    case AwaitingHosted(h, _) => AcquiredSwitches(s, k, a, from, h);
    case AwaitingSwitch(_, _) =>
  }

  lemma SwitchStays(s: Router, t: Router, k: (nat, nat), a: nat, from: nat)
    requires from <= |s.attachments| && NoneMade(s, k, from) && |t.attachments| == |s.attachments|
    requires forall x :: 0 <= x < |s.attachments| ==>
      t.attachments[x].client == s.attachments[x].client && t.attachments[x].job == s.attachments[x].job
    requires if k in t.suspended then Holds(t.suspended[k], a) else HasSettled(t, k.0, k.1)
    ensures Switching(t, k, a, from)
  {
    hide HasSettled, Holds, IsOver;
  }

  lemma AcquiredSwitches(s: Router, k: (nat, nat), a: nat, from: nat, h: nat)
    requires k.1 < |ChainOf(s, k.0).jobs| && from <= |s.attachments| && NoneMade(s, k, from)
    ensures Switching(Acquired(s, k.0, k.1, h, Some(a)), k, a, from)
  {
    SettleSettles(s, k.0, k.1);
    BeginKeepsOwner(s, {a}, false);
    hide Settle, BeginAll, Barred, Switching, ChainOf, HasSettled, NoneMade;
    SwitchStays(s, Acquired(s, k.0, k.1, h, Some(a)), k, a, from);
  }

  lemma BeginKeepsOwner(s: Router, which: set<nat>, publish: bool)
    ensures var t := BeginAll(s, which, publish);
      && |t.attachments| == |s.attachments| && t.suspended == s.suspended
      && forall x :: 0 <= x < |s.attachments| ==>
        t.attachments[x].client == s.attachments[x].client && t.attachments[x].job == s.attachments[x].job
  {
  }

  lemma SwitchingStep(s: Router, act: Action, k: (nat, nat), a: nat, from: nat)
    requires FlowOk(s) && Switching(s, k, a, from)
    ensures Switching(Step(s, act), k, a, from)
  {
    var t := Step(s, act);
    StepOnward(s, act);
    if IsOver(s, a) {
      OverStays(s, t, a);
    } else if act.Continue? && (act.client, act.job) == k && k in s.suspended {
      SwitchMoves(s, k, a, from, act.ok);
    } else {
      if k !in s.suspended { SettledStays(s, act, k.0, k.1); }
      NotMoved(s, act, k);
      hide FlowOk, Step, HasSettled, Holds, IsOver;
      assert forall x :: 0 <= x < |s.attachments| ==> Onward(s.attachments[x], t.attachments[x]);
    }
  }

  /** An operation that cannot move, or is not meant, stays as it is and makes nothing. */
  lemma NotMoved(s: Router, act: Action, k: (nat, nat))
    requires FlowOk(s) && (k in s.suspended || HasSettled(s, k.0, k.1))
    requires act.Continue? && (act.client, act.job) == k ==> k !in s.suspended
    ensures SameAt(s, Step(s, act), k) && NoneMade(Step(s, act), k, |s.attachments|)
  {
    MakesOwn(s, act);
    if !Moved(act, k) {
      StepElsewhere(s, act, k);
    } else if act.Start? && k in s.suspended {
      CannotRestart(s, k, act);
    }
    hide FlowOk, Begun, Continued;
  }

  lemma {:induction false} RunSwitching(s: Router, actions: seq<Action>, k: (nat, nat), a: nat, from: nat)
    requires FlowOk(s) && Switching(s, k, a, from)
    ensures Switching(Run(s, actions), k, a, from) && FlowOk(Run(s, actions))
    decreases |actions|
  {
    hide FlowOk, Step, Switching;
    if actions != [] {
      SwitchingStep(s, actions[0], k, a, from);
      StepKeeps(s, actions[0]);
      RunSwitching(Step(s, actions[0]), actions[1..], k, a, from);
    }
  }

  lemma AttachHolds(s: Router, c: nat, j: nat)
    requires P.CanStart(ChainOf(s, c), j) && c in s.byClient && ChainOf(s, c).jobs[j].payload.Attach?
    ensures Switching(Step(s, Start(c, j)), (c, j), s.byClient[c], |s.attachments|)
  {
    var u := Turn(s, c, j);
    var id := ChainOf(s, c).jobs[j].payload.id;
    TurnShape(s, c, j);
    EnsureOpenShape(u, id);
    SettleSettles(u, c, j);
    hide Turn, Settle, EnsureOpen, ChainOf, HasSettled, IsOver;
  }

  /**
   An attach operation makes an attachment only when the one its client had when its turn came is gone, that
   attachment's lease having been released exactly once if it was granted.
   */
  lemma SwitchingReleases(actions: seq<Action>, n: nat, c: nat, j: nat, x: nat)
    requires n < |actions| && actions[n] == Start(c, j)
    requires var s := Run(INITIAL, actions[..n]);
      P.CanStart(ChainOf(s, c), j) && c in s.byClient && ChainOf(s, c).jobs[j].payload.Attach? && |s.attachments| <= x
    requires var d := Run(INITIAL, actions);
      x < |d.attachments| && d.attachments[x].client == c && d.attachments[x].job == j
    ensures Gone(Run(INITIAL, actions), Run(INITIAL, actions[..n]).byClient[c])
  {
    var s, d := Run(INITIAL, actions[..n]), Run(INITIAL, actions);
    InitialOk();
    RunKeeps(INITIAL, actions[..n]);
    RunAt(INITIAL, actions, n);
    AttachHolds(s, c, j);
    StepKeeps(s, actions[n]);
    hide FlowOk, Run, Step, ChainOf, P.CanStart, Gone, HasSettled;
    RunSwitching(Step(s, actions[n]), actions[n + 1..], (c, j), s.byClient[c], |s.attachments|);
    OverIsGone(d, s.byClient[c]);
  }

  lemma SettleSettles(s: Router, c: nat, j: nat)
    requires j < |ChainOf(s, c).jobs|
    ensures var t := Settle(s, c, j);
      HasSettled(t, c, j) && (c, j) !in t.suspended && t.attachments == s.attachments
  {
  }
}
