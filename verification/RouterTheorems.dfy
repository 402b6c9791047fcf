/** The router's promises, on every run from the empty router. */
module RouterTheorems {
  import opened Common
  import P = PromiseChain
  import opened SessionRouter
  import opened RouterSafety
  import opened RouterFlow
  import opened RouterSteps

  lemma InitialOk()
    ensures FlowOk(INITIAL)
  {
  }

  lemma {:induction false} RunKeeps(s: Router, actions: seq<Action>)
    requires FlowOk(s)
    ensures FlowOk(Run(s, actions))
    decreases |actions|
  {
    hide FlowOk, Step;
    if actions != [] {
      StepKeeps(s, actions[0]);
      RunKeeps(Step(s, actions[0]), actions[1..]);
    }
  }

  // ---------------------------------------------------------------- leases

  /** Each lease is released at most once, and one not yet released belongs to an attachment in its session's set. */
  lemma LeasesReleasedOnce(actions: seq<Action>, a: nat)
    requires a < |Run(INITIAL, actions).attachments|
    ensures var s := Run(INITIAL, actions); var x := s.attachments[a];
      && x.releases <= 1
      && (x.lease.Held? && x.releases == 0 ==> InSet(s, a))
      && (x.releases == 1 ==> x.lease.Held?)
  {
    InitialOk();
    RunKeeps(INITIAL, actions);
    hide JobsOk, IndexOk, FenceOk, QuietOk, Run;
    assert LeaseOk(Run(INITIAL, actions).attachments[a], InSet(Run(INITIAL, actions), a));
  }

  /**
   Unless its own session has been removed or has ended by itself, no call admitted through an attachment
   is still running once its lease is being released, or later.
   */
  lemma NoReleaseUnderACall(actions: seq<Action>, a: nat)
    requires a < |Run(INITIAL, actions).attachments|
    requires Run(INITIAL, actions).attachments[a].session !in Run(INITIAL, actions).disturbed
    ensures var x := Run(INITIAL, actions).attachments[a]; x.releases == 1 ==> x.operations == {}
  {
    InitialOk();
    RunKeeps(INITIAL, actions);
    var s := Run(INITIAL, actions);
    hide JobsOk, IndexOk, FenceOk, Run, CurrentOk;
    assert LeaseOk(s.attachments[a], InSet(s, a));
    assert QuietAt(s, a);
  }

  // ---------------------------------------------------------------- fences

  /** What a step may do to current attachments and admissions. */
  ghost predicate Fenced(s: Router, t: Router) {
    && |s.attachments| <= |t.attachments| && |s.sessions| <= |t.sessions|
    && (forall a :: 0 <= a < |s.attachments| ==>
          && t.attachments[a].client == s.attachments[a].client && t.attachments[a].session == s.attachments[a].session
          && (s.attachments[a].installed ==> t.attachments[a].installed))
    && (forall h :: 0 <= h < |s.sessions| ==> t.sessions[h].id == s.sessions[h].id)
    && (forall c :: c in t.byClient ==>
          (c in s.byClient && t.byClient[c] == s.byClient[c])
          || (t.byClient[c] < |s.attachments| && !s.attachments[t.byClient[c]].installed &&
              s.attachments[t.byClient[c]].client == c))
    && s.admitted <= t.admitted
    && (forall i :: |s.admitted| <= i < |t.admitted| ==> AdmittedBy(s, t.admitted[i]))
  }

  /** The call came in through the client's current attachment, and named its session and its id. */
  predicate AdmittedBy(s: Router, m: Admission) {
    && m.client in s.byClient && s.byClient[m.client] == m.attachment
    && m.attachment < |s.attachments| && s.attachments[m.attachment].session < |s.sessions|
    && m.target == SessionTarget(s.sessions[s.attachments[m.attachment].session].id, m.attachment)
    && !Barred(s, m.client)
  }

  lemma SettleFenced(s: Router, u: Router, c: nat, j: nat)
    requires Fenced(s, u) && j < |ChainOf(u, c).jobs|
    ensures Fenced(s, Settle(u, c, j))
  {
  }

  lemma SuspendFenced(s: Router, u: Router, c: nat, j: nat, at: Suspended)
    requires Fenced(s, u)
    ensures Fenced(s, Suspend(u, c, j, at))
  {
  }

  lemma BeginFenced(s: Router, u: Router, which: set<nat>, publish: bool)
    requires Fenced(s, u)
    ensures Fenced(s, BeginAll(u, which, publish))
  {
  }

  lemma LeavesFenced(s: Router, u: Router, h: nat, a: nat)
    requires Fenced(s, u)
    ensures Fenced(s, Leaves(u, h, a))
  {
  }

  lemma CreateFenced(s: Router, c: nat, j: nat, h: nat)
    requires h < |s.sessions|
    ensures Fenced(s, CreateAttachment(s, c, j, h))
  {
  }

  lemma AdmitFenced(s: Router, u: Router, c: nat, target: Target)
    requires u == s.(chains := u.chains)
    ensures Fenced(s, Admit(u, c, target))
  {
  }

  lemma NoChange(s: Router, t: Router)
    requires t.attachments == s.attachments && t.sessions == s.sessions && t.byClient == s.byClient &&
      t.admitted == s.admitted
    ensures Fenced(s, t)
  {
  }

  lemma BegunFenced(s: Router, c: nat, j: nat)
    requires P.CanStart(ChainOf(s, c), j)
    ensures Fenced(s, Step(s, Start(c, j)))
  {
    var u := Turn(s, c, j);
    TurnShape(s, c, j);
    NoChange(s, u);
    hide Fenced, Turn, Settle, Suspend, BeginAll, Admit, ChainOf;
    AdmitMoves(u, c);
    match ChainOf(u, c).jobs[j].payload
    case Call(target) =>
      AdmitFenced(s, u, c, target);
      SettleFenced(s, Admit(u, c, target), c, j);
    case Attach(id) =>
      SettleFenced(s, u, c, j);
      AcquireFenced(s, u, c, j, id);
    case Detach =>
      SettleFenced(s, u, c, j);
      if c in u.byClient {
        BeginFenced(s, u, {u.byClient[c]}, true);
        SuspendFenced(s, BeginAll(u, {u.byClient[c]}, true), c, j, AwaitingRelease(u.byClient[c]));
      }
    case Leave =>
      SettleFenced(s, u, c, j);
      if c in u.byClient {
        BeginFenced(s, u, {u.byClient[c]}, false);
        SuspendFenced(s, BeginAll(u, {u.byClient[c]}, false), c, j, AwaitingRelease(u.byClient[c]));
      }
  }

  lemma AdmitMoves(u: Router, c: nat)
    ensures forall target :: Admit(u, c, target).chains == u.chains
    ensures forall target :: ChainOf(Admit(u, c, target), c) == ChainOf(u, c)
  {
  }

  lemma AcquireFenced(s: Router, u: Router, c: nat, j: nat, id: nat)
    requires Fenced(s, u)
    ensures Fenced(s, Acquire(u, c, j, id))
  {
    var v := EnsureOpen(u, id);
    EnsureOpenShape(u, id);
    FencedSame(s, u, v);
    hide Fenced, EnsureOpen;
    SuspendFenced(s, v, c, j, if id in u.hosted then AwaitingHosted(u.hosted[id], CurrentOf(u, c))
        else AwaitingOpen(v.opening[id], CurrentOf(u, c)));
  }

  lemma FencedSame(s: Router, u: Router, v: Router)
    requires Fenced(s, u)
    ensures (v.attachments == u.attachments && v.sessions == u.sessions && v.byClient == u.byClient
             && v.admitted == u.admitted) ==> Fenced(s, v)
  {
  }

  lemma AcquiredFenced(s: Router, c: nat, j: nat, h: nat, current: Option<nat>)
    requires j < |ChainOf(s, c).jobs|
    ensures Fenced(s, Acquired(s, c, j, h, current))
  {
    NoChange(s, s);
    hide Fenced, Settle, Suspend, BeginAll, CreateAttachment, ChainOf;
    SettleFenced(s, s, c, j);
    if h < |s.sessions| { CreateFenced(s, c, j, h); }
    if current.Some? {
      BeginFenced(s, s, {current.value}, false);
      SuspendFenced(s, BeginAll(s, {current.value}, false), c, j, AwaitingSwitch(h, current.value));
    }
  }

  lemma RefusedFenced(s: Router, c: nat, j: nat, a: nat)
    requires a < |s.attachments| && j < |ChainOf(s, c).jobs|
    ensures j < |ChainOf(Leaves(s, s.attachments[a].session, a), c).jobs|
    ensures Fenced(s, Settle(Leaves(s, s.attachments[a].session, a), c, j))
  {
    NoChange(s, s);
    LeavesFenced(s, s, s.attachments[a].session, a);
    LeavesChains(s, s.attachments[a].session, a);
    SameJobs(s, Leaves(s, s.attachments[a].session, a), c);
    hide Fenced, Settle, Leaves, ChainOf;
    SettleFenced(s, Leaves(s, s.attachments[a].session, a), c, j);
  }

  lemma GrantedFenced(s: Router, c: nat, j: nat, a: nat)
    requires a < |s.attachments| && !s.attachments[a].installed && s.attachments[a].client == c
    ensures Fenced(s, Suspend(WithAttachment(s, a, s.attachments[a].(installed := true)).(byClient :=
      s.byClient[c := a]), c, j, AwaitingNotice(a)))
    ensures Fenced(s, Suspend(BeginAll(s, {a}, true), c, j, AwaitingUndo(a)))
  {
    NoChange(s, s);
    InstallFenced(s, c, a);
    BeginFenced(s, s, {a}, true);
    hide Fenced, Suspend, BeginAll, WithAttachment;
    SuspendFenced(s, BeginAll(s, {a}, true), c, j, AwaitingUndo(a));
    SuspendFenced(s, WithAttachment(s, a, s.attachments[a].(installed := true)).(byClient := s.byClient[c := a]), c, j,
        AwaitingNotice(a));
  }

  lemma LeasedFenced(s: Router, c: nat, j: nat, a: nat)
    requires FlowOk(s) && (c, j) in s.suspended && s.suspended[(c, j)] == AwaitingLease(a) && a < |s.attachments| &&
      j < |ChainOf(s, c).jobs|
    ensures Fenced(s, Leased(s, c, j, a))
  {
    NeverCurrent(s, c, j);
    NoChange(s, s);
    hide Fenced, FlowOk, Settle, Suspend, BeginAll, Leaves, WithAttachment, Usable, IsCurrent, ChainOf;
    match s.attachments[a].lease
    case Pending =>
    case Refused => RefusedFenced(s, c, j, a);
    case Held => GrantedFenced(s, c, j, a);
  }

  lemma SameJobs(s: Router, t: Router, c: nat)
    requires t.chains == s.chains
    ensures ChainOf(t, c) == ChainOf(s, c)
  {
  }

  lemma LeavesChains(s: Router, h: nat, a: nat)
    ensures Leaves(s, h, a).chains == s.chains
  {
  }

  lemma InstallFenced(s: Router, c: nat, a: nat)
    requires a < |s.attachments| && !s.attachments[a].installed && s.attachments[a].client == c
    ensures Fenced(s, WithAttachment(s, a, s.attachments[a].(installed := true)).(byClient := s.byClient[c := a]))
  {
  }

  /** An operation that has waited for its session. */
  lemma EnteredFenced(s: Router, c: nat, j: nat, ok: bool)
    requires FlowOk(s) && j < |ChainOf(s, c).jobs| && (c, j) in s.suspended
    requires s.suspended[(c, j)].AwaitingOpen? || s.suspended[(c, j)].AwaitingHosted?
    ensures Fenced(s, Continued(s, c, j, ok))
  {
    NoChange(s, s);
    SettleFenced(s, s, c, j);
    hide Fenced, FlowOk, Settle, Acquired;
    match s.suspended[(c, j)]
    case AwaitingOpen(o, current) =>
      if o < |s.opens| && s.opens[o].status.Opened? { AcquiredFenced(s, c, j, s.opens[o].status.session, current); }
    case AwaitingHosted(h, current) => AcquiredFenced(s, c, j, h, current);
  }

  lemma ContinuedFenced(s: Router, c: nat, j: nat, ok: bool)
    requires FlowOk(s) && j < |ChainOf(s, c).jobs| && (c, j) in s.suspended
    ensures Fenced(s, Continued(s, c, j, ok))
  {
    var at := s.suspended[(c, j)];
    if at.AwaitingOpen? || at.AwaitingHosted? {
      EnteredFenced(s, c, j, ok);
    } else {
      ResumedFenced(s, c, j, ok);
    }
    hide Fenced, FlowOk, Continued;
  }

  lemma ResumedFenced(s: Router, c: nat, j: nat, ok: bool)
    requires FlowOk(s) && j < |ChainOf(s, c).jobs| && (c, j) in s.suspended
    requires !s.suspended[(c, j)].AwaitingOpen? && !s.suspended[(c, j)].AwaitingHosted?
    ensures Fenced(s, Continued(s, c, j, ok))
  {
    hide Fenced, FlowOk, Continued;
    match s.suspended[(c, j)]
    case AwaitingSwitch(_, _) => SwitchedFenced(s, c, j, ok);
    case AwaitingLease(_) => AnsweredFenced(s, c, j, ok);
    case _ => SettledFenced(s, c, j, ok);
  }

  lemma SwitchedFenced(s: Router, c: nat, j: nat, ok: bool)
    requires j < |ChainOf(s, c).jobs| && (c, j) in s.suspended && s.suspended[(c, j)].AwaitingSwitch?
    ensures Fenced(s, Continued(s, c, j, ok))
  {
    NoChange(s, s);
    SettleFenced(s, s, c, j);
    var h := s.suspended[(c, j)].session;
    if h < |s.sessions| { CreateFenced(s, c, j, h); }
    hide Fenced, Settle, CreateAttachment, IsOver;
  }

  lemma AnsweredFenced(s: Router, c: nat, j: nat, ok: bool)
    requires FlowOk(s) && j < |ChainOf(s, c).jobs| && (c, j) in s.suspended && s.suspended[(c, j)].AwaitingLease?
    ensures Fenced(s, Continued(s, c, j, ok))
  {
    NoChange(s, s);
    hide Fenced, FlowOk, Leased;
    var a := s.suspended[(c, j)].attachment;
    if a < |s.attachments| { LeasedFenced(s, c, j, a); }
  }

  lemma SettledFenced(s: Router, c: nat, j: nat, ok: bool)
    requires j < |ChainOf(s, c).jobs| && (c, j) in s.suspended
    requires var at := s.suspended[(c, j)]; at.AwaitingUndo? || at.AwaitingNotice? || at.AwaitingRelease?
    ensures Fenced(s, Continued(s, c, j, ok))
  {
    NoChange(s, s);
    SettleFenced(s, s, c, j);
    hide Fenced, Settle, IsOver;
  }

  lemma ClearFenced(s: Router, a: nat)
    requires a < |s.attachments|
    ensures Fenced(s, Clear(s, a))
  {
    ClearShape(s, a);
    NoChange(s, s);
    LeavesFenced(s, s, s.attachments[a].session, a);
    ClearAdmits(s, a);
    hide Clear, Leaves;
  }

  lemma ClearAdmits(s: Router, a: nat)
    requires a < |s.attachments|
    ensures Clear(s, a).admitted == s.admitted
  {
  }

  lemma PlainFenced(s: Router, a: Action)
    requires a.Submit? || a.CleanUp? || a.ForgetLeaving? || a.ForgetOpen? || a.FinishRemoval? || a.StopAccepting? ||
      a.BeginClose? || a.Emptied?
    ensures Fenced(s, Step(s, a))
  {
    NoChange(s, s);
    FencedSame(s, s, Step(s, a));
    hide Fenced, ChainOf, Tails, AllSettled, AllOpened, AttachmentsOf, AllOver, P.Submit, P.Cleanup;
  }

  lemma ChangeFenced(s: Router, a: nat, x: Attachment)
    requires a < |s.attachments|
    requires var y := s.attachments[a]; x.client == y.client && x.session == y.session && x.installed == y.installed
    ensures Fenced(s, WithAttachment(s, a, x))
  {
  }

  lemma AttachmentFenced(s: Router, a: Action)
    requires a.CallSettled? || a.LeaseAnswered? || a.NoticeSent?
    ensures Fenced(s, Step(s, a))
  {
    var x := a.attachment;
    NoChange(s, s);
    if x < |s.attachments| {
      var y := s.attachments[x];
      hide Clear, Fenced, WithAttachment;
      match a
      case CallSettled(_, call) => ChangeFenced(s, x, y.(operations := y.operations - {call}));
      case LeaseAnswered(_, granted) => ChangeFenced(s, x, y.(lease := if granted then Held else Refused));
      case NoticeSent(_) => ChangeFenced(s, x, y.(stage := Over));
    }
  }

  lemma ReleaseFenced(s: Router, a: Action)
    requires a.ReleaseLease? || a.LeaseReleased?
    ensures Fenced(s, Step(s, a))
  {
    var x := a.attachment;
    NoChange(s, s);
    if x < |s.attachments| {
      ClearFenced(s, x);
      var y := s.attachments[x];
      hide Clear, Fenced, WithAttachment;
      ChangeFenced(s, x, y.(stage := ReleasingLease, releases := y.releases + 1));
    }
  }

  lemma SessionAdded(s: Router, t: Router, h: HostedSession)
    requires t.attachments == s.attachments && t.byClient == s.byClient && t.admitted == s.admitted &&
      t.sessions == s.sessions + [h]
    ensures Fenced(s, t)
  {
  }

  lemma OpenFenced(s: Router, o: nat, id: Option<nat>)
    requires o < |s.opens|
    ensures Fenced(s, OpenEnds(s, o, id))
  {
    NoChange(s, s);
    FencedSame(s, s, OpenEnds(s, o, id));
    if id.Some? && !s.closing { SessionAdded(s, OpenEnds(s, o, id), HostedSession(id.value, {})); }
    hide Fenced;
  }

  lemma SessionFenced(s: Router, a: Action)
    requires a.Terminated? || a.RemoveSession? || a.Drained? || a.HandlesClosed? || a.OpenSettled?
    ensures Fenced(s, Step(s, a))
  {
    NoChange(s, s);
    FencedMore(s, s, Step(s, a));
    hide BeginAll, OpenEnds, Fenced, AllSettled, AllOpened, AttachmentsOf, WithoutTails;
    match a
    case Terminated(h) =>
      if IsHosted(s, h) {
        BeginFenced(s, s, s.sessions[h].attachments, true);
        UnhostFirst(s, h);
        BeginFrame(s, s.sessions[h].attachments, true);
        BeginFrame(Unhost(s, h), s.sessions[h].attachments, true);
        FencedSame(s, BeginAll(s, s.sessions[h].attachments, true), Step(s, a));
      }
    case RemoveSession(id) =>
      if id in s.hosted && s.hosted[id] < |s.sessions| {
        var which := s.sessions[s.hosted[id]].attachments;
        BeginFenced(s, s, which, true);
        FencedSame(s, BeginAll(s, which, true), Step(s, a));
      }
    case Drained =>
      var which := AttachmentsOf(s, s.hosted.Values);
      BeginFenced(s, s, which, true);
      FencedSame(s, BeginAll(s, which, true), Step(s, a));
    case HandlesClosed(_) =>
    case OpenSettled(o, id) => if o < |s.opens| { OpenFenced(s, o, id); }
  }

  /** Dropping current attachments is always allowed. */
  lemma FencedMore(s: Router, u: Router, v: Router)
    requires Fenced(s, u)
    ensures (v.attachments == u.attachments && v.sessions == u.sessions && v.byClient == map[]
             && v.admitted == u.admitted) ==> Fenced(s, v)
  {
  }

  lemma StepFenced(s: Router, a: Action)
    requires FlowOk(s)
    ensures Fenced(s, Step(s, a))
  {
    NoChange(s, s);
    if a.Start? {
      if P.CanStart(ChainOf(s, a.client), a.job) { BegunFenced(s, a.client, a.job); }
    } else if a.Continue? {
      ContinueFenced(s, a.client, a.job, a.ok);
    } else if a.CallSettled? || a.LeaseAnswered? || a.NoticeSent? {
      AttachmentFenced(s, a);
    } else if a.ReleaseLease? || a.LeaseReleased? {
      ReleaseFenced(s, a);
    } else if a.Terminated? || a.RemoveSession? || a.Drained? || a.HandlesClosed? || a.OpenSettled? {
      SessionFenced(s, a);
    } else {
      PlainFenced(s, a);
    }
    hide Begun, Continued, Fenced, FlowOk, CloseStep, Submitted, OpenEnds, BeginRemoval, Invalidate, Unhost,
        WithAttachment, WithChain, Clear, ChainOf;
  }

  lemma ContinueFenced(s: Router, c: nat, j: nat, ok: bool)
    requires FlowOk(s)
    ensures Fenced(s, Step(s, Continue(c, j, ok)))
  {
    hide Continued, Fenced, FlowOk;
    if j < |ChainOf(s, c).jobs| && (c, j) in s.suspended { ContinuedFenced(s, c, j, ok); } else { NoChange(s, s); }
  }

  /** An attachment that has been current and is no more. */
  predicate Retired(s: Router, a: nat) {
    a < |s.attachments| && s.attachments[a].installed && !IsCurrent(s, a)
  }

  lemma RetiredStays(s: Router, t: Router, a: nat)
    requires Fenced(s, t) && HoldingOk(s) && Retired(s, a)
    ensures Retired(t, a)
    ensures |s.admitted| <= |t.admitted|
    ensures forall i :: 0 <= i < |s.admitted| ==> t.admitted[i] == s.admitted[i]
    ensures forall i :: |s.admitted| <= i < |t.admitted| ==> t.admitted[i].attachment != a
  {
    forall c | c in s.byClient ensures s.byClient[c] != a { assert CurrentAt(s, c, s.byClient[c]); }
  }

  /**
   A call is forwarded only through its client's current attachment, naming that attachment's session
   and id; an attachment id that has been replaced or cleared is never accepted again.
   */
  lemma {:induction false} RetiredForever(s: Router, actions: seq<Action>, a: nat)
    requires FlowOk(s) && Retired(s, a)
    ensures var t := Run(s, actions);
      && Retired(t, a) && |s.admitted| <= |t.admitted|
      && (forall i :: 0 <= i < |s.admitted| ==> t.admitted[i] == s.admitted[i])
      && (forall i :: |s.admitted| <= i < |t.admitted| ==> t.admitted[i].attachment != a)
    decreases |actions|
  {
    if actions != [] {
      var u := Step(s, actions[0]);
      StepKeeps(s, actions[0]);
      StepFenced(s, actions[0]);
      HoldingPart(s);
      hide FlowOk, Step, Retired, Fenced, HoldingOk;
      RetiredStays(s, u, a);
      RetiredForever(u, actions[1..], a);
    }
  }

  lemma HoldingPart(s: Router)
    requires FlowOk(s)
    ensures HoldingOk(s)
  {
    hide HoldingOk;
  }

  lemma CallsThroughCurrent(actions: seq<Action>, a: Action)
    ensures var s := Run(INITIAL, actions); var t := Step(s, a);
      && s.admitted <= t.admitted
      && forall i :: |s.admitted| <= i < |t.admitted| ==> AdmittedBy(s, t.admitted[i])
  {
    InitialOk();
    RunKeeps(INITIAL, actions);
    hide FlowOk, Step, Run, AdmittedBy;
    StepFenced(Run(INITIAL, actions), a);
  }

  /** Until shutdown has finished, each client's operations run one at a time, in the order they were submitted. */
  lemma OperationsInOrder(actions: seq<Action>, c: nat, i: nat, j: nat)
    requires var s := Run(INITIAL, actions); !s.close.Finished? && c in s.chains && i < j < |s.chains[c].jobs|
    ensures var jobs := Run(INITIAL, actions).chains[c].jobs; !jobs[j].status.Waiting? ==> jobs[i].status.Settled?
  {
    InitialOk();
    RunKeeps(INITIAL, actions);
    hide HoldingOk, IndexOk, FenceOk, QuietOk, RunsOk, Run;
    assert P.Serial(Run(INITIAL, actions).chains[c]);
  }

  // ---------------------------------------------------------------- single flight

  /**
   While every resolution has been honest, an open in progress is the only one for its id, and nothing is hosted under
   it.
   */
  ghost predicate OpensOk(s: Router) {
    s.honest ==>
      && (forall o :: 0 <= o < |s.opens| && s.opens[o].status.InProgress? ==> SoleOpen(s, o))
      && (forall id :: id in s.opening ==> s.opening[id] < |s.opens| && s.opens[s.opening[id]].asked == id)
  }

  predicate SoleOpen(s: Router, o: nat)
    requires o < |s.opens|
  {
    s.opens[o].asked in s.opening && s.opening[s.opens[o].asked] == o && s.opens[o].asked !in s.hosted
  }

  lemma OpensSame(s: Router, t: Router)
    requires OpensOk(s) && t.honest == s.honest && t.opens == s.opens
    requires t.opening == s.opening && t.hosted.Keys <= s.hosted.Keys
    ensures OpensOk(t)
  {
    if t.honest {
      forall o: nat | o < |t.opens| && t.opens[o].status.InProgress? ensures SoleOpen(t, o) { assert SoleOpen(s, o); }
    }
  }

  lemma EnsureOpens(s: Router, id: nat)
    requires OpensOk(s)
    ensures OpensOk(EnsureOpen(s, id))
  {
    var t := EnsureOpen(s, id);
    if t.honest {
      forall o: nat | o < |t.opens| && t.opens[o].status.InProgress? ensures SoleOpen(t, o) {
        if o < |s.opens| { assert SoleOpen(s, o); }
      }
    }
  }

  lemma OpenEndsOpens(s: Router, o: nat, id: Option<nat>)
    requires OpensOk(s) && o < |s.opens| && s.opens[o].status.InProgress?
    ensures OpensOk(OpenEnds(s, o, id))
  {
    var t := OpenEnds(s, o, id);
    if t.honest {
      assert SoleOpen(s, o);
      forall p: nat | p < |t.opens| && t.opens[p].status.InProgress? ensures SoleOpen(t, p) { assert SoleOpen(s, p); }
    }
  }

  lemma ForgetOpens(s: Router, o: nat)
    requires OpensOk(s)
    ensures OpensOk(Step(s, ForgetOpen(o)))
  {
    var t := Step(s, ForgetOpen(o));
    if t.honest {
      forall p: nat | p < |t.opens| && t.opens[p].status.InProgress? ensures SoleOpen(t, p) { assert SoleOpen(s, p); }
    }
  }

  lemma SettleOpens(u: Router, c: nat, j: nat)
    requires OpensOk(u) && j < |ChainOf(u, c).jobs|
    ensures OpensOk(Settle(u, c, j))
  {
    OpensSame(u, Settle(u, c, j));
  }

  lemma SuspendOpens(u: Router, c: nat, j: nat, at: Suspended)
    requires OpensOk(u)
    ensures OpensOk(Suspend(u, c, j, at))
  {
    OpensSame(u, Suspend(u, c, j, at));
  }

  lemma BeginOpens(u: Router, which: set<nat>, publish: bool)
    requires OpensOk(u)
    ensures OpensOk(BeginAll(u, which, publish))
  {
    OpensSame(u, BeginAll(u, which, publish));
  }

  lemma AdmitOpens(u: Router, c: nat, target: Target)
    requires OpensOk(u)
    ensures OpensOk(Admit(u, c, target))
  {
    OpensSame(u, Admit(u, c, target));
  }

  lemma AttachmentOpens(u: Router, a: nat, x: Attachment)
    requires OpensOk(u) && a < |u.attachments|
    ensures OpensOk(WithAttachment(u, a, x)) && OpensOk(Clear(u, a)) && OpensOk(Leaves(u, u.attachments[a].session, a))
    ensures forall byClient :: OpensOk(WithAttachment(u, a, x).(byClient := byClient))
  {
    OpensSame(u, WithAttachment(u, a, x));
    OpensSame(u, Clear(u, a));
    OpensSame(u, Leaves(u, u.attachments[a].session, a));
    forall byClient ensures OpensOk(WithAttachment(u, a, x).(byClient := byClient)) {
      OpensSame(u, WithAttachment(u, a, x).(byClient := byClient));
    }
  }

  lemma CreateOpens(u: Router, c: nat, j: nat, h: nat)
    requires OpensOk(u) && h < |u.sessions|
    ensures OpensOk(CreateAttachment(u, c, j, h))
  {
    OpensSame(u, Created(u, c, j, h));
    hide Created, OpensOk, Suspend;
    SuspendOpens(Created(u, c, j, h), c, j, AwaitingLease(|u.attachments|));
  }

  lemma TurnOpens(s: Router, c: nat, j: nat)
    requires OpensOk(s) && P.CanStart(ChainOf(s, c), j)
    ensures OpensOk(Turn(s, c, j))
  {
    OpensSame(s, Turn(s, c, j));
  }

  lemma ReleasingOpens(u: Router, c: nat, j: nat, a: nat, publish: bool, at: Suspended)
    requires OpensOk(u)
    ensures OpensOk(Suspend(BeginAll(u, {a}, publish), c, j, at))
  {
    hide OpensOk, Suspend, BeginAll;
    BeginOpens(u, {a}, publish);
    SuspendOpens(BeginAll(u, {a}, publish), c, j, at);
  }

  lemma BegunOpens(s: Router, c: nat, j: nat)
    requires OpensOk(s) && P.CanStart(ChainOf(s, c), j)
    ensures OpensOk(Step(s, Start(c, j)))
  {
    var u := Turn(s, c, j);
    TurnShape(s, c, j);
    TurnOpens(s, c, j);
    hide OpensOk, Turn, P.SetStatus, EnsureOpen, Suspend, Settle, BeginAll, Admit, ChainOf;
    SettleOpens(u, c, j);
    AdmitMoves(u, c);
    match ChainOf(u, c).jobs[j].payload
    case Call(target) =>
      AdmitOpens(u, c, target);
      SettleOpens(Admit(u, c, target), c, j);
    case Attach(id) =>
      EnsureOpens(u, id);
      EnsureOpenShape(u, id);
      SuspendOpens(EnsureOpen(u, id), c, j, if id in u.hosted then AwaitingHosted(u.hosted[id], CurrentOf(u, c))
          else AwaitingOpen(EnsureOpen(u, id).opening[id], CurrentOf(u, c)));
    case Detach => if c in u.byClient { ReleasingOpens(u, c, j, u.byClient[c], true, AwaitingRelease(u.byClient[c])); }
    case Leave => if c in u.byClient { ReleasingOpens(u, c, j, u.byClient[c], false, AwaitingRelease(u.byClient[c])); }
  }

  lemma AcquiredOpens(s: Router, c: nat, j: nat, h: nat, current: Option<nat>)
    requires OpensOk(s) && j < |ChainOf(s, c).jobs|
    ensures OpensOk(Acquired(s, c, j, h, current))
  {
    hide OpensOk, Suspend, Settle, BeginAll, CreateAttachment, ChainOf;
    SettleOpens(s, c, j);
    if h < |s.sessions| { CreateOpens(s, c, j, h); }
    if current.Some? { ReleasingOpens(s, c, j, current.value, false, AwaitingSwitch(h, current.value)); }
  }

  lemma LeasedOpens(s: Router, c: nat, j: nat, a: nat)
    requires OpensOk(s) && a < |s.attachments| && j < |ChainOf(s, c).jobs|
    ensures OpensOk(Leased(s, c, j, a))
  {
    LeavesChains(s, s.attachments[a].session, a);
    SameJobs(s, Leaves(s, s.attachments[a].session, a), c);
    hide OpensOk, Suspend, Settle, BeginAll, Leaves, WithAttachment, Usable, Clear, ChainOf;
    var x := s.attachments[a].(installed := true);
    AttachmentOpens(s, a, x);
    match s.attachments[a].lease
    case Pending =>
    case Refused => SettleOpens(Leaves(s, s.attachments[a].session, a), c, j);
    case Held =>
      ReleasingOpens(s, c, j, a, true, AwaitingUndo(a));
      SuspendOpens(WithAttachment(s, a, x).(byClient := s.byClient[c := a]), c, j, AwaitingNotice(a));
  }

  lemma ContinuedOpens(s: Router, c: nat, j: nat, ok: bool)
    requires OpensOk(s) && j < |ChainOf(s, c).jobs| && (c, j) in s.suspended
    ensures OpensOk(Continued(s, c, j, ok))
  {
    hide OpensOk, Acquired, Leased, ChainOf, Settle, CreateAttachment;
    SettleOpens(s, c, j);
    match s.suspended[(c, j)]
    case AwaitingOpen(o, current) =>
      if o < |s.opens| && s.opens[o].status.Opened? { AcquiredOpens(s, c, j, s.opens[o].status.session, current); }
    case AwaitingHosted(h, current) => AcquiredOpens(s, c, j, h, current);
    case AwaitingSwitch(h, _) => if h < |s.sessions| { CreateOpens(s, c, j, h); }
    case AwaitingLease(a) => if a < |s.attachments| { LeasedOpens(s, c, j, a); }
    case AwaitingUndo(_) =>
    case AwaitingNotice(_) =>
    case AwaitingRelease(_) =>
  }

  lemma AttachmentStepOpens(s: Router, a: Action)
    requires OpensOk(s) && (a.CallSettled? || a.LeaseAnswered? || a.NoticeSent? || a.ReleaseLease? || a.LeaseReleased?)
    ensures OpensOk(Step(s, a))
  {
    if a.attachment < |s.attachments| {
      var t := Step(s, a);
      AttachmentOpens(s, a.attachment, if a.attachment < |t.attachments| then t.attachments[a.attachment]
          else s.attachments[a.attachment]);
    }
    hide OpensOk, Clear;
  }

  lemma SessionStepOpens(s: Router, a: Action)
    requires OpensOk(s) && (a.Terminated? || a.RemoveSession? || a.Drained?)
    ensures OpensOk(Step(s, a))
  {
    OpensSame(s, s);
    var t := Step(s, a);
    OpensSameIf(s, t);
    hide OpensOk, BeginAll, AllSettled, AllOpened, AttachmentsOf;
    match a
    case Terminated(h) => if IsHosted(s, h) { BeginFrame(Unhost(s, h), s.sessions[h].attachments, true); }
    case RemoveSession(id) => if id in s.hosted && s.hosted[id] < |s.sessions| {
      BeginFrame(s, s.sessions[s.hosted[id]].attachments, true);
    }
    case Drained => BeginFrame(s, AttachmentsOf(s, s.hosted.Values), true);
  }

  lemma OpensSameIf(s: Router, t: Router)
    requires OpensOk(s)
    ensures t.honest == s.honest && t.opens == s.opens && t.opening == s.opening && t.hosted.Keys <= s.hosted.Keys ==>
      OpensOk(t)
  {
    if t.honest == s.honest && t.opens == s.opens && t.opening == s.opening && t.hosted.Keys <= s.hosted.Keys {
      OpensSame(s, t);
    }
  }

  lemma PlainOpens(s: Router, a: Action)
    requires OpensOk(s)
    requires a.Submit? || a.CleanUp? || a.ForgetLeaving? || a.FinishRemoval? || a.StopAccepting? || a.BeginClose? ||
      a.Emptied? || a.HandlesClosed?
    ensures OpensOk(Step(s, a))
  {
    OpensSameIf(s, Step(s, a));
    hide OpensOk, ChainOf, P.Submit, P.Cleanup, Tails, AllOver, WithoutTails;
  }

  lemma StepOpens(s: Router, a: Action)
    requires OpensOk(s)
    ensures OpensOk(Step(s, a))
  {
    hide OpensOk, Begun, Continued, OpenEnds, CloseStep, Submitted, BeginRemoval, Invalidate, Unhost, WithAttachment,
        WithChain, Clear, ChainOf;
    if a.Start? {
      if P.CanStart(ChainOf(s, a.client), a.job) { BegunOpens(s, a.client, a.job); }
    } else if a.Continue? {
      ContinueOpens(s, a);
    } else if a.OpenSettled? {
      if a.open < |s.opens| && s.opens[a.open].status.InProgress? { OpenEndsOpens(s, a.open, a.resolved); }
    } else if a.ForgetOpen? {
      ForgetOpens(s, a.open);
    } else if a.CallSettled? || a.LeaseAnswered? || a.NoticeSent? || a.ReleaseLease? || a.LeaseReleased? {
      AttachmentStepOpens(s, a);
    } else if a.Terminated? || a.RemoveSession? || a.Drained? {
      SessionStepOpens(s, a);
    } else {
      PlainOpens(s, a);
    }
  }

  lemma ContinueOpens(s: Router, a: Action)
    requires OpensOk(s) && a.Continue?
    ensures OpensOk(Step(s, a))
  {
    hide OpensOk, Continued;
    if a.job < |ChainOf(s, a.client).jobs| && (a.client, a.job) in s.suspended {
      ContinuedOpens(s, a.client, a.job, a.ok);
    }
  }

  lemma {:induction false} OpensAlways(s: Router, actions: seq<Action>)
    requires OpensOk(s)
    ensures OpensOk(Run(s, actions))
    decreases |actions|
  {
    hide OpensOk, Step;
    if actions != [] {
      StepOpens(s, actions[0]);
      OpensAlways(Step(s, actions[0]), actions[1..]);
    }
  }

  /**
   If every session id is resolved to itself, at most one open per id runs, and none while a session is hosted under
   it.
   */
  lemma SingleFlight(actions: seq<Action>, o: nat)
    requires var s := Run(INITIAL, actions); s.honest && o < |s.opens| && s.opens[o].status.InProgress?
    ensures var s := Run(INITIAL, actions);
      && s.opens[o].asked !in s.hosted
      && forall p :: 0 <= p < |s.opens| && p != o && s.opens[p].status.InProgress? ==>
         s.opens[p].asked != s.opens[o].asked
  {
    assert OpensOk(INITIAL);
    OpensAlways(INITIAL, actions);
    var s := Run(INITIAL, actions);
    hide Run;
    assert SoleOpen(s, o);
    forall p: nat | p < |s.opens| && p != o && s.opens[p].status.InProgress?
      ensures s.opens[p].asked != s.opens[o].asked {
      assert SoleOpen(s, p);
    }
  }

  /**
   Settling an open keeps every hosted session hosted exactly if none is hosted under the id it
   resolves to; so a dishonest resolution can displace a session whose attachments shutdown then misses.
   */
  lemma HostingOver(s: Router, o: nat, id: nat)
    requires o < |s.opens| && s.opens[o].status.InProgress? && !s.closing
    ensures (forall h :: IsHosted(s, h) ==> IsHosted(OpenEnds(s, o, Some(id)), h)) <==>
            !(id in s.hosted && s.hosted[id] < |s.sessions| && s.sessions[s.hosted[id]].id == id)
  {
    var t := OpenEnds(s, o, Some(id));
    if id in s.hosted && s.hosted[id] < |s.sessions| && s.sessions[s.hosted[id]].id == id {
      assert IsHosted(s, s.hosted[id]) && !IsHosted(t, s.hosted[id]);
    }
  }
}
