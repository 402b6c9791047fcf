/**
 What the router's single steps achieve, over whole runs: which calls are admitted, where an attachment lands and
 whether it becomes its client's own, what the host's answers come to, and that a session that ends lets go of its
 attachments.
 */
module RouterOutcomes {
  import opened Common
  import P = PromiseChain
  import opened SessionRouter
  import opened RouterSafety
  import opened RouterFlow
  import opened RouterSteps
  import opened RouterTheorems
  import opened RouterCalls
  import opened RouterReleases
  import O = RouterOrder

  // ---------------------------------------------------------------- leases

  /** The host's first answer to the request for a lease stands. */
  lemma LeaseAsAnswered(actions: seq<Action>, n: nat, a: nat, granted: bool)
    requires n < |actions| && actions[n] == LeaseAnswered(a, granted)
    requires var s := Run(INITIAL, actions[..n]); a < |s.attachments| && s.attachments[a].lease.Pending?
    ensures var d := Run(INITIAL, actions);
      && a < |d.attachments|
      && (d.attachments[a].lease.Held? <==> granted) && (d.attachments[a].lease.Refused? <==> !granted)
  {
    var s := Run(INITIAL, actions[..n]);
    RunAt(INITIAL, actions, n);
    RunOnward(Step(s, actions[n]), actions[n + 1..]);
    hide Run;
    assert Onward(Step(s, actions[n]).attachments[a], Run(INITIAL, actions).attachments[a]);
  }

  // ---------------------------------------------------------------- calls

  /**
   A call whose turn comes is admitted, and counted among the running calls of its client's attachment, if and only if
   it names that attachment and its session, the client is not leaving, and the router is not closing.
   */
  lemma CallAdmittedIff(actions: seq<Action>, n: nat, c: nat, j: nat, target: Target)
    requires n < |actions| && actions[n] == Start(c, j)
    requires var s := Run(INITIAL, actions[..n]);
      P.CanStart(ChainOf(s, c), j) && ChainOf(s, c).jobs[j].payload == Call(target)
    ensures var s, d := Run(INITIAL, actions[..n]), Run(INITIAL, actions[..n + 1]);
      if c in s.byClient && CurrentIs(s, s.byClient[c], target) && !s.closing && c !in s.leaving
      then
        && |d.admitted| == |s.admitted| + 1 && d.admitted[..|s.admitted|] == s.admitted
        && d.admitted[|s.admitted|].attachment == s.byClient[c] && s.byClient[c] < |d.attachments|
        && |s.admitted| in d.attachments[s.byClient[c]].operations
      else d.admitted == s.admitted && d.attachments == s.attachments
  {
    var s := Run(INITIAL, actions[..n]);
    RunNext(INITIAL, actions, n);
    TurnShape(s, c, j);
    hide Run, ChainOf, P.CanStart, P.SetStatus;
  }

  /** The target of a call through attachment `a`. */
  predicate CurrentIs(s: Router, a: nat, target: Target) {
    a < |s.attachments| && s.attachments[a].session < |s.sessions| &&
      target == SessionTarget(s.sessions[s.attachments[a].session].id, a)
  }

  lemma RunNext(s: Router, actions: seq<Action>, n: nat)
    requires n < |actions|
    ensures Run(s, actions[..n + 1]) == Step(Run(s, actions[..n]), actions[n])
  {
    assert actions[..n + 1] == actions[..n] + [actions[n]];
    RunAppend(s, actions[..n], [actions[n]]);
    RunLast(Run(s, actions[..n]), actions[n]);
  }

  // ---------------------------------------------------------------- sessions that end

  /** A session that ends by itself is hosted no more, and from then on all its attachments are being released. */
  lemma TerminatedReleases(actions: seq<Action>, n: nat, h: nat, a: nat)
    requires n < |actions| && actions[n] == Terminated(h)
    requires var s := Run(INITIAL, actions[..n]); IsHosted(s, h) && a in s.sessions[h].attachments
    ensures var d := Run(INITIAL, actions); a < |d.attachments| && !d.attachments[a].stage.Active?
    ensures !IsHosted(Run(INITIAL, actions[..n + 1]), h)
  {
    var s := Run(INITIAL, actions[..n]);
    InitialOk();
    RunKeeps(INITIAL, actions[..n]);
    RunAt(INITIAL, actions, n);
    RunNext(INITIAL, actions, n);
    MemberExists(s, h, a);
    RunOnward(Step(s, actions[n]), actions[n + 1..]);
    hide Run, FlowOk;
    assert Onward(Step(s, actions[n]).attachments[a], Run(INITIAL, actions).attachments[a]);
  }

  lemma MemberExists(s: Router, h: nat, a: nat)
    requires FlowOk(s) && h < |s.sessions| && a in s.sessions[h].attachments
    ensures a < |s.attachments| && s.attachments[a].session == h
  {
    hide JobsOk, IndexOk, FenceOk, QuietOk, CurrentOk;
    assert MembersOk(s.attachments, s.sessions[h].attachments, h);
  }

  /** So for a session that is removed, which stays hosted until all of these releases are over. */
  lemma RemovalReleases(actions: seq<Action>, n: nat, id: nat, a: nat)
    requires n < |actions| && actions[n] == RemoveSession(id)
    requires var s := Run(INITIAL, actions[..n]);
      !s.closing && id in s.hosted && s.hosted[id] < |s.sessions| && a in s.sessions[s.hosted[id]].attachments
    ensures var d := Run(INITIAL, actions); a < |d.attachments| && !d.attachments[a].stage.Active?
    ensures var s, d := Run(INITIAL, actions[..n]), Run(INITIAL, actions[..n + 1]);
      d.removals == s.removals + [(s.hosted[id], s.sessions[s.hosted[id]].attachments)] && d.hosted == s.hosted
  {
    var s := Run(INITIAL, actions[..n]);
    InitialOk();
    RunKeeps(INITIAL, actions[..n]);
    RunAt(INITIAL, actions, n);
    RunNext(INITIAL, actions, n);
    MemberExists(s, s.hosted[id], a);
    RunOnward(Step(s, actions[n]), actions[n + 1..]);
    hide Run, FlowOk;
    assert Onward(Step(s, actions[n]).attachments[a], Run(INITIAL, actions).attachments[a]);
  }

  /** A removal unhosts its session if and only if all the attachments it found are gone, and not before. */
  lemma RemovalEnds(actions: seq<Action>, n: nat, r: nat)
    requires n < |actions| && actions[n] == FinishRemoval(r)
    requires var s := Run(INITIAL, actions[..n]); r < |s.removals| && IsHosted(s, s.removals[r].0)
    ensures var s, d := Run(INITIAL, actions[..n]), Run(INITIAL, actions[..n + 1]);
      !IsHosted(d, s.removals[r].0) <==> forall a :: a in s.removals[r].1 ==> Gone(s, a)
  {
    var s := Run(INITIAL, actions[..n]);
    InitialOk();
    RunKeeps(INITIAL, actions[..n]);
    RunNext(INITIAL, actions, n);
    forall a | IsOver(s, a) ensures Gone(s, a) { OverIsGone(s, a); }
    hide Run, FlowOk;
  }

  // ---------------------------------------------------------------- where an attachment lands

  predicate Attaches(s: Router, k: (nat, nat), h: nat) {
    h < |s.sessions| && JobAt(s, k) == Some(Attach(s.sessions[h].id))
  }

  /** A suspended attach operation waits for the session it was asked for. */
  predicate Seeks(s: Router, k: (nat, nat), at: Suspended) {
    match at
    case AwaitingOpen(o, _) => o < |s.opens| && JobAt(s, k) == Some(Attach(s.opens[o].asked))
    case AwaitingHosted(h, _) => Attaches(s, k, h)
    case AwaitingSwitch(h, _) => Attaches(s, k, h)
    case _ => true
  }

  /** Sessions are found under the ids they are hosted under, and opens lead to the sessions they were asked for. */
  ghost predicate FoundOk(s: Router) {
    && (forall id :: id in s.hosted ==> s.hosted[id] < |s.sessions| && s.sessions[s.hosted[id]].id == id)
    && (s.honest ==>
          && (forall id :: id in s.opening ==> s.opening[id] < |s.opens| && s.opens[s.opening[id]].asked == id)
          && (forall o :: 0 <= o < |s.opens| && s.opens[o].status.Opened? ==>
                s.opens[o].status.session < |s.sessions| &&
                    s.sessions[s.opens[o].status.session].id == s.opens[o].asked))
  }

  /** Attach operations wait for the session they were asked for, and every attachment is in that session. */
  ghost predicate LandsOk(s: Router) {
    s.honest ==>
      && (forall k :: k in s.suspended ==> Seeks(s, k, s.suspended[k]))
      && (forall a :: 0 <= a < |s.attachments| ==>
            Attaches(s, (s.attachments[a].client, s.attachments[a].job), s.attachments[a].session))
  }

  /** What was found stays found. */
  ghost predicate Lasts(s: Router, t: Router) {
    && (t.honest ==> s.honest)
    && |s.sessions| <= |t.sessions| && |s.opens| <= |t.opens|
    && (forall h :: 0 <= h < |s.sessions| ==> t.sessions[h].id == s.sessions[h].id)
    && (forall o :: 0 <= o < |s.opens| ==> t.opens[o].asked == s.opens[o].asked)
    && (forall k :: JobAt(s, k).Some? ==> JobAt(t, k) == JobAt(s, k))
  }

  lemma SeeksStill(s: Router, t: Router, k: (nat, nat), at: Suspended)
    requires Lasts(s, t) && Seeks(s, k, at)
    ensures Seeks(t, k, at)
  {
  }

  lemma AttachesStill(s: Router, t: Router, k: (nat, nat), h: nat)
    requires Lasts(s, t) && Attaches(s, k, h)
    ensures Attaches(t, k, h)
  {
  }

  lemma StepLasts(s: Router, a: Action)
    requires FlowOk(s)
    ensures Lasts(s, Step(s, a))
  {
    var t := Step(s, a);
    StepFenced(s, a);
    StepOpensLast(s, a);
    forall k | JobAt(s, k).Some? ensures JobAt(t, k) == JobAt(s, k) { JobLasts(s, a, k); }
    hide FlowOk, Step, JobAt;
  }

  lemma JobLasts(s: Router, a: Action, k: (nat, nat))
    requires FlowOk(s) && JobAt(s, k).Some?
    ensures JobAt(Step(s, a), k) == JobAt(s, k)
  {
    O.ChainStep(s, a, k.0);
    StartKeepsPayload(s, a, k);
    hide FlowOk, Step;
  }

  lemma StartIs(s: Router, c: nat, j: nat)
    requires P.CanStart(ChainOf(s, c), j)
    ensures Step(s, Start(c, j)) == Begun(Turn(s, c, j), c, j)
  {
    hide Begun, Turn, ChainOf, P.CanStart;
  }

  lemma StartKeepsPayload(s: Router, a: Action, k: (nat, nat))
    requires JobAt(s, k).Some?
    ensures a.Start? && a.client == k.0 && P.CanStart(ChainOf(s, k.0), a.job) ==>
      JobAt(Step(s, a), k) == JobAt(s, k)
  {
    hide Step, Begun, Turn;
    if a.Start? && a.client == k.0 && P.CanStart(ChainOf(s, k.0), a.job) {
      StartIs(s, a.client, a.job);
      TurnShape(s, a.client, a.job);
      TurnJobs(s, k, a.job);
      O.BegunSettles(Turn(s, a.client, a.job), a.client, a.job);
    }
  }

  lemma TurnJobs(s: Router, k: (nat, nat), j: nat)
    requires j < |ChainOf(s, k.0).jobs|
    ensures JobAt(Turn(s, k.0, j), k) == JobAt(s, k)
  {
  }

  predicate Within(m: map<nat, nat>, n: map<nat, nat>) { forall id :: id in m ==> id in n && m[id] == n[id] }

  /** Nothing is opened or hosted. */
  predicate Shrinks(s: Router, t: Router) {
    t.honest == s.honest && t.opens == s.opens && Within(t.opening, s.opening) && Within(t.hosted, s.hosted)
  }

  lemma PartsShrink(u: Router)
    ensures forall which, publish :: Shrinks(u, BeginAll(u, which, publish))
    ensures forall c, target :: Shrinks(u, Admit(u, c, target))
    ensures forall h, a :: Shrinks(u, Leaves(u, h, a))
  {
    hide Begin, Accepted;
    forall h, a ensures Shrinks(u, Leaves(u, h, a)) { LeavesSame(u, h, a); }
  }

  lemma CreateShrinks(s: Router, c: nat, j: nat, h: nat)
    requires h < |s.sessions|
    ensures Shrinks(s, CreateAttachment(s, c, j, h))
  {
  }

  lemma SettleShrinks(s: Router, u: Router, c: nat, j: nat)
    requires Shrinks(s, u) && j < |ChainOf(u, c).jobs|
    ensures Shrinks(s, Settle(u, c, j))
  {
  }

  lemma SuspendShrinks(s: Router, u: Router, c: nat, j: nat, at: Suspended)
    requires Shrinks(s, u)
    ensures Shrinks(s, Suspend(u, c, j, at))
  {
  }

  lemma AcquiredShrinks(s: Router, c: nat, j: nat, h: nat, current: Option<nat>)
    requires j < |ChainOf(s, c).jobs|
    ensures Shrinks(s, Acquired(s, c, j, h, current))
  {
    PartsShrink(s);
    hide Barred, BeginAll, Settle, Suspend, CreateAttachment, ChainOf, Within;
    SettleShrinks(s, s, c, j);
    if h < |s.sessions| { CreateShrinks(s, c, j, h); }
    if current.Some? { SuspendShrinks(s, BeginAll(s, {current.value}, false), c, j, AwaitingSwitch(h, current.value)); }
  }

  lemma LeasedShrinks(s: Router, c: nat, j: nat, a: nat)
    requires a < |s.attachments| && j < |ChainOf(s, c).jobs|
    ensures Shrinks(s, Leased(s, c, j, a))
  {
    var x := s.attachments[a];
    var u := WithAttachment(s, a, x.(installed := true)).(byClient := s.byClient[c := a]);
    PartsShrink(s);
    assert Shrinks(s, u);
    LeavesChains(s, x.session, a);
    SameJobs(s, Leaves(s, x.session, a), c);
    hide Usable, BeginAll, Leaves, ChainOf, Settle, Suspend, Within;
    SettleShrinks(s, Leaves(s, x.session, a), c, j);
    SuspendShrinks(s, BeginAll(s, {a}, true), c, j, AwaitingUndo(a));
    SuspendShrinks(s, u, c, j, AwaitingNotice(a));
  }

  lemma ContinueShrinks(s: Router, c: nat, j: nat, ok: bool)
    ensures Shrinks(s, Step(s, Continue(c, j, ok)))
  {
    if j < |ChainOf(s, c).jobs| && (c, j) in s.suspended {
      hide IsOver, Acquired, Leased, Settle, CreateAttachment, ChainOf;
      SettleShrinks(s, s, c, j);
      match s.suspended[(c, j)]
      case AwaitingOpen(o, current) =>
        if o < |s.opens| && s.opens[o].status.Opened? { AcquiredShrinks(s, c, j, s.opens[o].status.session, current); }
      case AwaitingHosted(h, current) => AcquiredShrinks(s, c, j, h, current);
      case AwaitingSwitch(h, _) => if h < |s.sessions| { CreateShrinks(s, c, j, h); }
      case AwaitingLease(a) => if a < |s.attachments| { LeasedShrinks(s, c, j, a); }
      case _ =>
    }
  }

  lemma PlainShrinks(s: Router, a: Action)
    requires !a.Start? && !a.Continue? && !a.OpenSettled?
    ensures Shrinks(s, Step(s, a))
  {
    hide Submitted, WithChain, WithAttachment, Clear, OpenEnds, Invalidate, BeginRemoval, Unhost, CloseStep, ChainOf,
        IsHosted, AllOver, P.Cleanup, Within;
    SameShrinks(s);
    if a.ReleaseLease? || a.LeaseReleased? { ReleaseShrinks(s, a); }
    else if a.Submit? { SubmitShrinks(s, a.client, a.op); }
    else if a.CleanUp? { CleanUpShrinks(s, a.client, a.job); }
    else if a.CallSettled? || a.LeaseAnswered? || a.NoticeSent? { ChangeShrinks(s, a); }
    else if a.BeginClose? || a.Drained? || a.Emptied? || a.HandlesClosed? { CloseShrinks(s, a); }
    else { SessionShrinks(s, a); }
  }

  lemma SameShrinks(s: Router)
    ensures Shrinks(s, s)
  {
  }

  lemma SubmitShrinks(s: Router, c: nat, op: Op)
    ensures Shrinks(s, Submitted(s, c, op))
  {
    hide ChainOf, P.Submit;
  }

  lemma CleanUpShrinks(s: Router, c: nat, j: nat)
    ensures Shrinks(s, Step(s, CleanUp(c, j)))
  {
    hide P.Cleanup;
  }

  lemma WithShrinks(s: Router, a: nat, x: Attachment)
    requires a < |s.attachments|
    ensures Shrinks(s, WithAttachment(s, a, x))
  {
  }

  lemma ChangeShrinks(s: Router, a: Action)
    requires a.CallSettled? || a.LeaseAnswered? || a.NoticeSent?
    ensures Shrinks(s, Step(s, a))
  {
    hide WithAttachment, Shrinks;
    SameShrinks(s);
    if a.attachment < |s.attachments| {
      var x := s.attachments[a.attachment];
      match a
      case CallSettled(y, call) => WithShrinks(s, y, x.(operations := x.operations - {call}));
      case LeaseAnswered(y, granted) => WithShrinks(s, y, x.(lease := if granted then Held else Refused));
      case NoticeSent(y) => WithShrinks(s, y, x.(stage := Over));
    }
  }

  lemma ClearShrinks(s: Router, a: nat)
    requires a < |s.attachments|
    ensures Shrinks(s, Clear(s, a))
  {
    LeavesSame(s, s.attachments[a].session, a);
    hide Leaves;
  }

  lemma ReleaseShrinks(s: Router, a: Action)
    requires a.ReleaseLease? || a.LeaseReleased?
    ensures Shrinks(s, Step(s, a))
  {
    hide WithAttachment, Clear, Shrinks;
    SameShrinks(s);
    if a.attachment < |s.attachments| {
      var x := s.attachments[a.attachment];
      ClearShrinks(s, a.attachment);
      WithShrinks(s, a.attachment, x.(stage := ReleasingLease, releases := x.releases + 1));
    }
  }

  lemma CloseShrinks(s: Router, a: Action)
    requires a.BeginClose? || a.Drained? || a.Emptied? || a.HandlesClosed?
    ensures Shrinks(s, Step(s, a))
  {
    hide CloseStep, Shrinks;
    CloseStepShrinks(s, a);
  }

  lemma CloseStepShrinks(s: Router, a: Action)
    requires a.BeginClose? || a.Drained? || a.Emptied? || a.HandlesClosed?
    ensures Shrinks(s, CloseStep(s, a))
  {
    hide BeginAll, Tails, AllSettled, AllOpened, AttachmentsOf, AllOver, WithoutTails;
    if a.Drained? { BeginAllShrinks(s, AttachmentsOf(s, s.hosted.Values)); }
  }

  lemma BeginAllShrinks(s: Router, which: set<nat>)
    ensures Shrinks(s, BeginAll(s, which, true))
  {
    PartsShrink(s);
  }

  lemma UnhostShrinks(s: Router, h: nat)
    ensures Shrinks(s, Unhost(s, h))
  {
  }

  lemma SessionShrinks(s: Router, a: Action)
    requires a.ForgetOpen? || a.Terminated? || a.RemoveSession? || a.FinishRemoval? || a.StopAccepting? ||
      a.ForgetLeaving?
    ensures Shrinks(s, Step(s, a))
  {
    hide Unhost, Invalidate, BeginRemoval, AllOver, ChainOf, Shrinks;
    SameShrinks(s);
    match a
    case Terminated(h) => InvalidateShrinks(s, h);
    case RemoveSession(id) => RemovalShrinks(s, id);
    case FinishRemoval(r) => if r < |s.removals| { UnhostShrinks(s, s.removals[r].0); }
    case _ => FlagShrinks(s, a);
  }

  lemma FlagShrinks(s: Router, a: Action)
    requires a.ForgetOpen? || a.StopAccepting? || a.ForgetLeaving?
    ensures Shrinks(s, Step(s, a))
  {
  }

  lemma InvalidateShrinks(s: Router, h: nat)
    ensures Shrinks(s, Invalidate(s, h))
  {
    UnhostShrinks(s, h);
    PartsShrink(Unhost(s, h));
    hide BeginAll, Unhost;
  }

  lemma RemovalShrinks(s: Router, id: nat)
    ensures Shrinks(s, BeginRemoval(s, id))
  {
    PartsShrink(s);
    hide BeginAll;
  }

  lemma BegunOpens(u: Router, c: nat, j: nat)
    requires j < |ChainOf(u, c).jobs|
    ensures var t := Begun(u, c, j);
      || Shrinks(u, t)
      || (ChainOf(u, c).jobs[j].payload.Attach? && t == Acquire(u, c, j, ChainOf(u, c).jobs[j].payload.id))
  {
    PartsShrink(u);
    AdmitMoves(u, c);
    hide BeginAll, Admit, Barred, SessionIdOf, Acquire, Settle, Suspend, ChainOf, Within;
    SettleShrinks(u, u, c, j);
    match ChainOf(u, c).jobs[j].payload
    case Call(target) => SettleShrinks(u, Admit(u, c, target), c, j);
    case Attach(_) =>
    case Detach => if c in u.byClient {
      SuspendShrinks(u, BeginAll(u, {u.byClient[c]}, true), c, j, AwaitingRelease(u.byClient[c]));
    }
    case Leave => if c in u.byClient {
      SuspendShrinks(u, BeginAll(u, {u.byClient[c]}, false), c, j, AwaitingRelease(u.byClient[c]));
    }
  }

  /** What a step does to the opens and to what is hosted. */
  lemma StepOpensLast(s: Router, a: Action)
    ensures var t := Step(s, a);
      && (t.honest ==> s.honest) && |s.opens| <= |t.opens|
      && forall o :: 0 <= o < |s.opens| ==> t.opens[o].asked == s.opens[o].asked
  {
    match a
    case Start(c, j) => StartOpensLast(s, c, j);
    case Continue(c, j, ok) =>
      ContinueShrinks(s, c, j, ok);
      hide Step;
    case OpenSettled(_, _) =>
    case _ =>
      PlainShrinks(s, a);
      hide Step;
  }

  lemma StartOpensLast(s: Router, c: nat, j: nat)
    ensures var t := Step(s, Start(c, j));
      && t.honest == s.honest && |s.opens| <= |t.opens|
      && forall o :: 0 <= o < |s.opens| ==> t.opens[o].asked == s.opens[o].asked
  {
    if P.CanStart(ChainOf(s, c), j) {
      TurnShape(s, c, j);
      BegunOpens(Turn(s, c, j), c, j);
      hide Begun, Turn, ChainOf;
    }
  }

  // ---------------------------------------------------------------- each step keeps it

  lemma FoundStill(s: Router, t: Router)
    requires FoundOk(s) && Lasts(s, t) && Shrinks(s, t)
    ensures FoundOk(t)
  {
    hide JobAt;
  }

  lemma LandsStill(s: Router, t: Router)
    requires LandsOk(s) && Lasts(s, t) && AllOnward(s, t)
    requires forall k :: k in t.suspended ==> SameAt(s, t, k) || (t.honest ==> Seeks(t, k, t.suspended[k]))
    requires forall a :: |s.attachments| <= a < |t.attachments| && t.honest ==>
      Attaches(t, (t.attachments[a].client, t.attachments[a].job), t.attachments[a].session)
    ensures LandsOk(t)
  {
    hide Seeks, Attaches, JobAt;
    if t.honest {
      forall k | k in t.suspended ensures Seeks(t, k, t.suspended[k]) {
        if SameAt(s, t, k) { SeeksStill(s, t, k, s.suspended[k]); }
      }
      forall a | 0 <= a < |t.attachments|
        ensures Attaches(t, (t.attachments[a].client, t.attachments[a].job), t.attachments[a].session)
      {
        if a < |s.attachments| {
          assert Onward(s.attachments[a], t.attachments[a]);
          AttachesStill(s, t, (s.attachments[a].client, s.attachments[a].job), s.attachments[a].session);
        }
      }
    }
  }

  lemma PlainLands(s: Router, a: Action)
    requires FlowOk(s) && FoundOk(s) && LandsOk(s) && !a.Start? && !a.Continue? && !a.OpenSettled?
    ensures FoundOk(Step(s, a)) && LandsOk(Step(s, a))
  {
    StepLasts(s, a);
    StepOnward(s, a);
    PlainShrinks(s, a);
    PlainPasses(s, a);
    hide FlowOk, FoundOk, LandsOk, Step, Lasts, AllOnward, Shrinks;
    FoundStill(s, Step(s, a));
    LandsStill(s, Step(s, a));
  }

  lemma OpenLands(s: Router, o: nat, id: Option<nat>)
    requires FlowOk(s) && FoundOk(s) && LandsOk(s)
    ensures FoundOk(Step(s, OpenSettled(o, id))) && LandsOk(Step(s, OpenSettled(o, id)))
  {
    OpenFound(s, o, id);
    StepLasts(s, OpenSettled(o, id));
    StepOnward(s, OpenSettled(o, id));
    PlainPasses(s, OpenSettled(o, id));
    hide FlowOk, FoundOk, LandsOk, Step, Lasts, AllOnward;
    LandsStill(s, Step(s, OpenSettled(o, id)));
  }

  lemma OpenFound(s: Router, o: nat, id: Option<nat>)
    requires FoundOk(s)
    ensures FoundOk(Step(s, OpenSettled(o, id)))
  {
  }

  /** The session is hosted, being opened, or an open for it begins. */
  lemma EnsureFound(s: Router, id: nat)
    requires FoundOk(s)
    ensures FoundOk(EnsureOpen(s, id))
  {
  }

  lemma FoundElsewhere(s: Router, t: Router)
    requires FoundOk(s) && t.sessions == s.sessions && t.opens == s.opens && t.opening == s.opening &&
      t.hosted == s.hosted && t.honest == s.honest
    ensures FoundOk(t)
  {
  }

  lemma StartFound(s: Router, c: nat, j: nat)
    requires FlowOk(s) && FoundOk(s) && P.CanStart(ChainOf(s, c), j)
    ensures FoundOk(Step(s, Start(c, j)))
  {
    var u, t := Turn(s, c, j), Step(s, Start(c, j));
    TurnShape(s, c, j);
    StepLasts(s, Start(c, j));
    BegunOpens(u, c, j);
    FoundElsewhere(s, u);
    hide FlowOk, FoundOk, Begun, Turn, Lasts, ChainOf, P.CanStart, Within, EnsureOpen;
    if Shrinks(u, t) {
      FoundStill(s, t);
    } else {
      var id := ChainOf(u, c).jobs[j].payload.id;
      EnsureFound(u, id);
      FoundElsewhere(EnsureOpen(u, id), t);
    }
  }

  lemma StartLands(s: Router, c: nat, j: nat)
    requires FlowOk(s) && FoundOk(s) && LandsOk(s) && P.CanStart(ChainOf(s, c), j)
    ensures FoundOk(Step(s, Start(c, j))) && LandsOk(Step(s, Start(c, j)))
  {
    var t := Step(s, Start(c, j));
    StartFound(s, c, j);
    StepLasts(s, Start(c, j));
    StepOnward(s, Start(c, j));
    BegunMakesNone(Turn(s, c, j), c, j);
    StartSeeks(s, c, j);
    forall k | k != (c, j) ensures SameAt(s, t, k) { StartElsewhere(s, c, j, k); }
    hide FlowOk, FoundOk, LandsOk, Begun, Lasts, AllOnward, Seeks, Attaches, P.CanStart;
    LandsStill(s, t);
  }

  /** The new suspension of an operation whose turn has come. */
  lemma StartSeeks(s: Router, c: nat, j: nat)
    requires FlowOk(s) && FoundOk(s) && P.CanStart(ChainOf(s, c), j)
    ensures var t := Step(s, Start(c, j)); (c, j) in t.suspended && t.honest ==> Seeks(t, (c, j), t.suspended[(c, j)])
  {
    hide Step, FlowOk, FoundOk, Turn, Begun, ChainOf, JobAt, Acquire, Seeks;
    var u, t := Turn(s, c, j), Step(s, Start(c, j));
    StartIs(s, c, j);
    TurnShape(s, c, j);
    FoundElsewhere(s, u);
    NotYetSuspended(s, c, j);
    BegunJob(s, c, j);
    BegunSuspends(u, c, j);
    if (c, j) in t.suspended && t.honest {
      if t.suspended[(c, j)].AwaitingRelease? {
        ReleaseSeeks(t, (c, j));
      } else {
        AcquireSeeks(u, t, c, j, ChainOf(u, c).jobs[j].payload.id);
      }
    }
  }

  lemma ReleaseSeeks(t: Router, k: (nat, nat))
    requires k in t.suspended && t.suspended[k].AwaitingRelease?
    ensures Seeks(t, k, t.suspended[k])
  {
  }

  /** What an operation is suspended for when its turn has come. */
  lemma BegunSuspends(u: Router, c: nat, j: nat)
    requires j < |ChainOf(u, c).jobs| && (c, j) !in u.suspended
    ensures var t := Begun(u, c, j); var op := ChainOf(u, c).jobs[j].payload;
      || (c, j) !in t.suspended || t.suspended[(c, j)].AwaitingRelease?
      || (op.Attach? && t == Acquire(u, c, j, op.id))
  {
    SettleSettles(u, c, j);
    AdmitMoves(u, c);
    hide Settle, Admit, BeginAll, Acquire, Barred, SessionIdOf, ChainOf;
    match ChainOf(u, c).jobs[j].payload
    case Call(target) => SettleSettles(Admit(u, c, target), c, j);
    case _ =>
  }

  lemma NotYetSuspended(s: Router, c: nat, j: nat)
    requires FlowOk(s) && P.CanStart(ChainOf(s, c), j)
    ensures (c, j) !in s.suspended
  {
    if (c, j) in s.suspended { RunsNow(s, (c, j)); }
  }

  lemma BegunJob(s: Router, c: nat, j: nat)
    requires FlowOk(s) && P.CanStart(ChainOf(s, c), j)
    ensures JobAt(Step(s, Start(c, j)), (c, j)) == Some(ChainOf(s, c).jobs[j].payload)
  {
    assert JobAt(s, (c, j)) == Some(ChainOf(s, c).jobs[j].payload);
    JobLasts(s, Start(c, j), (c, j));
  }

  lemma AcquireSeeks(u: Router, t: Router, c: nat, j: nat, id: nat)
    requires FoundOk(u) && t == Acquire(u, c, j, id) && JobAt(t, (c, j)) == Some(Attach(id)) && t.honest
    ensures (c, j) in t.suspended && Seeks(t, (c, j), t.suspended[(c, j)])
  {
    hide JobAt, CurrentOf;
    EnsureFound(u, id);
    EnsureOpenShape(u, id);
  }

  /** The operation still waits for its session, and what it has made is in it. */
  predicate SeeksOn(s: Router, t: Router, k: (nat, nat)) {
    && (k in t.suspended ==> Seeks(t, k, t.suspended[k]))
    && forall a :: |s.attachments| <= a < |t.attachments| ==>
      Attaches(t, (t.attachments[a].client, t.attachments[a].job), t.attachments[a].session)
  }

  lemma AcquiredSeeks(s: Router, t: Router, c: nat, j: nat, h: nat, current: Option<nat>)
    requires j < |ChainOf(s, c).jobs| && t == Acquired(s, c, j, h, current)
    requires JobAt(t, (c, j)) == JobAt(s, (c, j)) && Attaches(s, (c, j), h) && Lasts(s, t)
    ensures SeeksOn(s, t, (c, j))
  {
    SettleSettles(s, c, j);
    PartsElsewhere(s, c);
    AttachesStill(s, t, (c, j), h);
    hide Settle, BeginAll, Barred, JobAt, ChainOf, Lasts, Attaches;
    if h < |s.sessions| { CreateSeeks(s, c, j, h); }
    hide CreateAttachment;
  }

  lemma CreateSeeks(s: Router, c: nat, j: nat, h: nat)
    requires h < |s.sessions|
    ensures var t := CreateAttachment(s, c, j, h);
      && |t.attachments| == |s.attachments| + 1 && t.suspended == s.suspended[(c, j) := AwaitingLease(|s.attachments|)]
      && var x := t.attachments[|s.attachments|]; x.client == c && x.job == j && x.session == h
  {
  }

  lemma LeasedSeeks(s: Router, c: nat, j: nat, a: nat)
    requires a < |s.attachments| && j < |ChainOf(s, c).jobs| && (c, j) in s.suspended
    requires s.suspended[(c, j)] == AwaitingLease(a)
    ensures SeeksOn(s, Leased(s, c, j, a), (c, j))
  {
    var x := s.attachments[a];
    PartsElsewhere(s, c);
    LeavesChains(s, x.session, a);
    SameJobs(s, Leaves(s, x.session, a), c);
    SettleSettles(Leaves(s, x.session, a), c, j);
    hide Usable, BeginAll, Leaves, Settle, ChainOf;
  }

  lemma SeeksItself(s: Router, t: Router, k: (nat, nat))
    requires k in s.suspended && Seeks(s, k, s.suspended[k])
    ensures t == s ==> SeeksOn(s, t, k)
  {
  }

  lemma SettleSeeks(s: Router, c: nat, j: nat)
    requires j < |ChainOf(s, c).jobs|
    ensures SeeksOn(s, Settle(s, c, j), (c, j))
  {
    SettleSettles(s, c, j);
    hide Settle, ChainOf;
  }

  /** A suspended operation that goes on seeks the same session, and makes its attachment there. */
  lemma ContinueSeeks(s: Router, c: nat, j: nat, ok: bool)
    requires FlowOk(s) && FoundOk(s) && LandsOk(s) && (c, j) in s.suspended && s.honest
    ensures SeeksOn(s, Step(s, Continue(c, j, ok)), (c, j))
  {
    var t := Step(s, Continue(c, j, ok));
    assert Seeks(s, (c, j), s.suspended[(c, j)]);
    SuspendedJob(s, (c, j));
    StepLasts(s, Continue(c, j, ok));
    hide FlowOk, FoundOk, LandsOk, Lasts, Acquired, Leased, CreateAttachment, Settle, IsOver, ChainOf, JobAt, Attaches,
        SeeksOn;
    SettleSeeks(s, c, j);
    SeeksItself(s, t, (c, j));
    match s.suspended[(c, j)]
    case AwaitingOpen(o, current) => OpenSeeks(s, t, c, j, o, current);
    case AwaitingHosted(h, current) => HostedSeeks(s, t, c, j, h, current);
    case AwaitingSwitch(h, previous) => SwitchSeeks(s, t, c, j, h, previous);
    case AwaitingLease(a) => if a < |s.attachments| { LeasedSeeks(s, c, j, a); }
    case _ =>
  }

  lemma HostedSeeks(s: Router, t: Router, c: nat, j: nat, h: nat, current: Option<nat>)
    requires j < |ChainOf(s, c).jobs| && Lasts(s, t) && Attaches(s, (c, j), h) && t == Acquired(s, c, j, h, current)
    ensures SeeksOn(s, t, (c, j))
  {
    JobStays(s, t, (c, j));
    hide Lasts, Acquired, ChainOf, JobAt;
    AcquiredSeeks(s, t, c, j, h, current);
  }

  lemma SwitchSeeks(s: Router, t: Router, c: nat, j: nat, h: nat, previous: nat)
    requires j < |ChainOf(s, c).jobs| && (c, j) in s.suspended && s.suspended[(c, j)] == AwaitingSwitch(h, previous)
    requires Lasts(s, t) && Attaches(s, (c, j), h)
    requires t == s || t == Settle(s, c, j) || t == CreateAttachment(s, c, j, h)
    ensures SeeksOn(s, t, (c, j))
  {
    SettleSettles(s, c, j);
    CreateSeeks(s, c, j, h);
    AttachesStill(s, t, (c, j), h);
    hide Lasts, CreateAttachment, Settle, ChainOf, JobAt, Attaches;
  }

  lemma JobStays(s: Router, t: Router, k: (nat, nat))
    requires Lasts(s, t) && JobAt(s, k).Some?
    ensures JobAt(t, k) == JobAt(s, k)
  {
  }

  lemma OpenSeeks(s: Router, t: Router, c: nat, j: nat, o: nat, current: Option<nat>)
    requires FoundOk(s) && j < |ChainOf(s, c).jobs| && (c, j) in s.suspended && s.honest && Lasts(s, t)
    requires s.suspended[(c, j)] == AwaitingOpen(o, current) && Seeks(s, (c, j), AwaitingOpen(o, current))
    requires t == s || t == Settle(s, c, j) ||
      (s.opens[o].status.Opened? && t == Acquired(s, c, j, s.opens[o].status.session, current))
    ensures SeeksOn(s, t, (c, j))
  {
    SettleSettles(s, c, j);
    JobStays(s, t, (c, j));
    hide Lasts, Acquired, Settle, ChainOf, JobAt;
    if s.opens[o].status.Opened? && t == Acquired(s, c, j, s.opens[o].status.session, current) {
      AcquiredSeeks(s, t, c, j, s.opens[o].status.session, current);
    }
  }

  lemma ContinueLands(s: Router, c: nat, j: nat, ok: bool)
    requires FlowOk(s) && FoundOk(s) && LandsOk(s)
    ensures FoundOk(Step(s, Continue(c, j, ok))) && LandsOk(Step(s, Continue(c, j, ok)))
  {
    var act := Continue(c, j, ok);
    var t := Step(s, act);
    StepLasts(s, act);
    StepOnward(s, act);
    ContinueShrinks(s, c, j, ok);
    if s.honest && (c, j) in s.suspended { ContinueSeeks(s, c, j, ok); }
    forall k | k != (c, j) ensures SameAt(s, t, k) { StepElsewhere(s, act, k); }
    if (c, j) !in s.suspended { ContinueIdle(s, c, j, ok); }
    hide FlowOk, FoundOk, LandsOk, Step, Lasts, AllOnward, Seeks, Attaches, Within;
    FoundStill(s, t);
    LandsStill(s, t);
  }

  lemma ContinueIdle(s: Router, c: nat, j: nat, ok: bool)
    requires (c, j) !in s.suspended
    ensures Step(s, Continue(c, j, ok)) == s
  {
  }

  lemma {:induction false} RunLands(s: Router, actions: seq<Action>)
    requires FlowOk(s) && FoundOk(s) && LandsOk(s)
    ensures FoundOk(Run(s, actions)) && LandsOk(Run(s, actions))
    decreases |actions|
  {
    hide FlowOk, FoundOk, LandsOk, Step;
    if actions != [] {
      var a := actions[0];
      StepKeeps(s, a);
      StepLands(s, a);
      RunLands(Step(s, a), actions[1..]);
    }
  }

  lemma StepLands(s: Router, a: Action)
    requires FlowOk(s) && FoundOk(s) && LandsOk(s)
    ensures FoundOk(Step(s, a)) && LandsOk(Step(s, a))
  {
    hide FlowOk, FoundOk, LandsOk, Step, ChainOf, P.CanStart;
    match a
    case Start(c, j) => if P.CanStart(ChainOf(s, c), j) { StartLands(s, c, j); } else { IdleStart(s, c, j); }
    case Continue(c, j, ok) => ContinueLands(s, c, j, ok);
    case OpenSettled(o, id) => OpenLands(s, o, id);
    case _ => PlainLands(s, a);
  }

  /** If every id is resolved to itself, an attachment is in the session that its attach operation was asked for. */
  lemma AttachesToTheSession(actions: seq<Action>, a: nat)
    requires var s := Run(INITIAL, actions); s.honest && a < |s.attachments|
    ensures var s := Run(INITIAL, actions); var x := s.attachments[a];
      && x.session < |s.sessions| && x.job < |ChainOf(s, x.client).jobs|
      && ChainOf(s, x.client).jobs[x.job].payload == Attach(s.sessions[x.session].id)
  {
    InitialOk();
    RunLands(INITIAL, actions);
    var s := Run(INITIAL, actions);
    hide Run;
    assert Attaches(s, (s.attachments[a].client, s.attachments[a].job), s.attachments[a].session);
  }

  // ---------------------------------------------------------------- what becomes of a lease

  /**
   When the lease of an attach operation has been granted, its attachment becomes the client's own if and only if its
   session is still hosted, it is still in the session's set, the client is not leaving and the router not closing;
   otherwise its release has begun. A refused attachment is dropped.
   */
  lemma InstalledIff(actions: seq<Action>, n: nat, c: nat, j: nat, ok: bool, a: nat)
    requires n < |actions| && actions[n] == Continue(c, j, ok)
    requires var s := Run(INITIAL, actions[..n]);
      (c, j) in s.suspended && s.suspended[(c, j)] == AwaitingLease(a) && a < |s.attachments|
    ensures var s, d := Run(INITIAL, actions[..n]), Run(INITIAL, actions[..n + 1]);
      var x := s.attachments[a];
      && a < |d.attachments|
      && (x.lease.Pending? ==> d == s)
      && (x.lease.Refused? ==> !InSet(d, a) && (c, j) !in d.suspended)
      && (x.lease.Held? ==>
            if IsHosted(s, x.session) && InSet(s, a) && !s.closing && c !in s.leaving
            then c in d.byClient && d.byClient[c] == a && d.attachments[a].installed
            else d.byClient == s.byClient && !d.attachments[a].stage.Active?)
  {
    var s := Run(INITIAL, actions[..n]);
    InitialOk();
    RunKeeps(INITIAL, actions[..n]);
    RunNext(INITIAL, actions, n);
    hide Run, Step, FlowOk;
    SuspendedJob(s, (c, j));
    ContinueIs(s, c, j, ok);
    LeaseSettles(s, c, j, a);
    hide Leased, ChainOf;
  }

  lemma LeaseSettles(s: Router, c: nat, j: nat, a: nat)
    requires a < |s.attachments| && j < |ChainOf(s, c).jobs|
    ensures var d := Leased(s, c, j, a); var x := s.attachments[a];
      && a < |d.attachments|
      && (x.lease.Pending? ==> d == s)
      && (x.lease.Refused? ==> !InSet(d, a) && (c, j) !in d.suspended)
      && (x.lease.Held? ==>
            if IsHosted(s, x.session) && InSet(s, a) && !s.closing && c !in s.leaving
            then c in d.byClient && d.byClient[c] == a && d.attachments[a].installed
            else d.byClient == s.byClient && !d.attachments[a].stage.Active?)
  {
    var session := s.attachments[a].session;
    LeavesSame(s, session, a);
    DropsOut(s, a);
    BeginsNow(s, a, true);
    SameJobs(s, Leaves(s, session, a), c);
    SettleSettles(Leaves(s, session, a), c, j);
    SettleElsewhereToo(Leaves(s, session, a), c, j);
    hide Leaves, Settle, BeginAll, ChainOf;
  }

  lemma DropsOut(s: Router, a: nat)
    requires a < |s.attachments|
    ensures var t := Leaves(s, s.attachments[a].session, a); t.attachments == s.attachments && !InSet(t, a)
  {
  }

  lemma BeginsNow(s: Router, a: nat, publish: bool)
    requires a < |s.attachments|
    ensures var t := BeginAll(s, {a}, publish);
      |t.attachments| == |s.attachments| && !t.attachments[a].stage.Active? && t.byClient == s.byClient
  {
  }

  lemma SettleElsewhereToo(s: Router, c: nat, j: nat)
    requires j < |ChainOf(s, c).jobs|
    ensures Settle(s, c, j).sessions == s.sessions
  {
  }

  // ---------------------------------------------------------------- who is told

  /** The step begins the release of attachment `a`. */
  predicate Begins(s: Router, d: Router, a: nat) {
    a < |s.attachments| && a < |d.attachments| && s.attachments[a].stage.Active? && !d.attachments[a].stage.Active?
  }

  /** A client that leaves or switches is not told that its attachment has ended; it is in all other cases. */
  predicate Silently(s: Router, act: Action) {
    || (act.Start? && act.job < |ChainOf(s, act.client).jobs| && ChainOf(s, act.client).jobs[act.job].payload.Leave?)
    || (act.Continue? && (act.client, act.job) in s.suspended && !s.suspended[(act.client, act.job)].AwaitingLease?)
  }

  /** Releases that the step begins are begun with this flag. */
  ghost predicate BeginsWith(s: Router, d: Router, publish: bool) {
    forall a: nat :: Begins(s, d, a) ==> d.attachments[a].publish == publish
  }

  lemma BeginAllWith(s: Router, which: set<nat>, publish: bool)
    ensures BeginsWith(s, BeginAll(s, which, publish), publish)
  {
  }

  lemma BegunWith(s: Router, d: Router, t: Router, publish: bool)
    requires BeginsWith(s, d, publish) && t.attachments == d.attachments
    ensures BeginsWith(s, t, publish)
  {
    forall a: nat | Begins(s, t, a) ensures t.attachments[a].publish == publish { assert Begins(s, d, a); }
  }

  lemma NoneBegun(s: Router, d: Router)
    requires forall a :: 0 <= a < |s.attachments| && a < |d.attachments| && s.attachments[a].stage.Active? ==>
      d.attachments[a].stage.Active?
    ensures forall publish :: BeginsWith(s, d, publish)
  {
  }

  lemma StartWith(s: Router, c: nat, j: nat)
    ensures BeginsWith(s, Step(s, Start(c, j)), !Silently(s, Start(c, j)))
  {
    NoneBegun(s, s);
    if P.CanStart(ChainOf(s, c), j) {
      var u, t := Turn(s, c, j), Step(s, Start(c, j));
      TurnShape(s, c, j);
      BegunFlag(u, c, j);
      hide Turn, Begun, BeginsWith, ChainOf, P.CanStart;
      SameBefore(s, u, t, !ChainOf(s, c).jobs[j].payload.Leave?);
    }
  }

  lemma SameBefore(s: Router, u: Router, t: Router, publish: bool)
    requires BeginsWith(u, t, publish) && u.attachments == s.attachments
    ensures BeginsWith(s, t, publish)
  {
    forall a: nat | Begins(s, t, a) ensures t.attachments[a].publish == publish { assert Begins(u, t, a); }
  }

  lemma BegunFlag(u: Router, c: nat, j: nat)
    requires j < |ChainOf(u, c).jobs|
    ensures BeginsWith(u, Begun(u, c, j), !ChainOf(u, c).jobs[j].payload.Leave?)
  {
    SettleSettles(u, c, j);
    hide Settle, Admit, BeginAll, Barred, SessionIdOf, CurrentOf, EnsureOpen, BeginsWith, ChainOf;
    NoneBegun(u, Settle(u, c, j));
    AdmitMoves(u, c);
    match ChainOf(u, c).jobs[j].payload
    case Call(target) =>
      AdmitBegins(u, c, target);
      SettleSettles(Admit(u, c, target), c, j);
      BegunWith(u, Admit(u, c, target), Begun(u, c, j), true);
    case Attach(id) =>
      EnsureOpenShape(u, id);
      NoneBegun(u, Begun(u, c, j));
    case Detach => if c in u.byClient {
      BeginAllWith(u, {u.byClient[c]}, true);
      BegunWith(u, BeginAll(u, {u.byClient[c]}, true), Begun(u, c, j), true);
    }
    case Leave => if c in u.byClient {
      BeginAllWith(u, {u.byClient[c]}, false);
      BegunWith(u, BeginAll(u, {u.byClient[c]}, false), Begun(u, c, j), false);
    }
  }

  lemma AdmitBegins(u: Router, c: nat, target: Target)
    ensures BeginsWith(u, Admit(u, c, target), true)
  {
    if Accepted(u, c, target).Some? { AdmitShape(u, c, target); }
  }

  lemma ContinueWith(s: Router, c: nat, j: nat, ok: bool)
    requires FlowOk(s)
    ensures BeginsWith(s, Step(s, Continue(c, j, ok)), !Silently(s, Continue(c, j, ok)))
  {
    hide FlowOk, Acquired, Leased, CreateAttachment, Settle, IsOver, ChainOf, BeginsWith;
    NoneBegun(s, s);
    if (c, j) in s.suspended {
      SuspendedJob(s, (c, j));
      SettleSettles(s, c, j);
      NoneBegun(s, Settle(s, c, j));
      match s.suspended[(c, j)]
      case AwaitingOpen(o, current) =>
        if o < |s.opens| && s.opens[o].status.Opened? { AcquiredWith(s, c, j, s.opens[o].status.session, current); }
      case AwaitingHosted(h, current) => AcquiredWith(s, c, j, h, current);
      case AwaitingSwitch(h, _) => if h < |s.sessions| { CreateWith(s, c, j, h); }
      case AwaitingLease(a) => if a < |s.attachments| { LeasedWith(s, c, j, a); }
      case _ =>
    } else {
      ContinueIdle(s, c, j, ok);
    }
  }

  lemma CreateWith(s: Router, c: nat, j: nat, h: nat)
    requires h < |s.sessions|
    ensures BeginsWith(s, CreateAttachment(s, c, j, h), false)
  {
  }

  lemma AcquiredWith(s: Router, c: nat, j: nat, h: nat, current: Option<nat>)
    requires j < |ChainOf(s, c).jobs|
    ensures BeginsWith(s, Acquired(s, c, j, h, current), false)
  {
    SettleSettles(s, c, j);
    hide Settle, Barred, BeginAll, CreateAttachment, ChainOf, BeginsWith;
    NoneBegun(s, Settle(s, c, j));
    if h < |s.sessions| { CreateWith(s, c, j, h); }
    if current.Some? {
      BeginAllWith(s, {current.value}, false);
      BegunWith(s, BeginAll(s, {current.value}, false),
                Suspend(BeginAll(s, {current.value}, false), c, j, AwaitingSwitch(h, current.value)), false);
    }
  }

  lemma LeasedWith(s: Router, c: nat, j: nat, a: nat)
    requires a < |s.attachments| && j < |ChainOf(s, c).jobs|
    ensures BeginsWith(s, Leased(s, c, j, a), true)
  {
    var x, t := s.attachments[a], Leased(s, c, j, a);
    LeavesSame(s, x.session, a);
    LeavesChains(s, x.session, a);
    SameJobs(s, Leaves(s, x.session, a), c);
    SettleSettles(Leaves(s, x.session, a), c, j);
    BeginAllWith(s, {a}, true);
    hide Usable, Leaves, Settle, BeginAll, ChainOf, BeginsWith;
    if t.attachments == BeginAll(s, {a}, true).attachments {
      BegunWith(s, BeginAll(s, {a}, true), t, true);
    } else {
      NoneBegun(s, t);
    }
  }

  lemma PlainWith(s: Router, act: Action)
    requires !act.Start? && !act.Continue?
    ensures BeginsWith(s, Step(s, act), true)
  {
    NoneBegun(s, s);
    if act.Terminated? || act.RemoveSession? || act.Drained? {
      SessionWith(s, act);
    } else {
      OtherStages(s, act);
      hide Step;
      NoneBegun(s, Step(s, act));
    }
  }

  lemma SessionWith(s: Router, act: Action)
    requires act.Terminated? || act.RemoveSession? || act.Drained?
    ensures BeginsWith(s, Step(s, act), true)
  {
    NoneBegun(s, s);
    hide BeginAll, AllSettled, AllOpened, AttachmentsOf, BeginsWith;
    var t := Step(s, act);
    match act
    case Terminated(h) => if IsHosted(s, h) {
      BeginAllWith(Unhost(s, h), s.sessions[h].attachments, true);
      SameBefore(s, Unhost(s, h), BeginAll(Unhost(s, h), s.sessions[h].attachments, true), true);
      BegunWith(s, BeginAll(Unhost(s, h), s.sessions[h].attachments, true), t, true);
    }
    case RemoveSession(id) => if id in s.hosted && s.hosted[id] < |s.sessions| {
      BeginAllWith(s, s.sessions[s.hosted[id]].attachments, true);
      if t != s { BegunWith(s, BeginAll(s, s.sessions[s.hosted[id]].attachments, true), t, true); }
    }
    case Drained =>
      BeginAllWith(s, AttachmentsOf(s, s.hosted.Values), true);
      if t != s { BegunWith(s, BeginAll(s, AttachmentsOf(s, s.hosted.Values), true), t, true); }
  }

  /** No release begins. */
  predicate StayActive(s: Router, t: Router) {
    && |t.attachments| == |s.attachments|
    && forall a :: 0 <= a < |s.attachments| && s.attachments[a].stage.Active? ==> t.attachments[a].stage.Active?
  }

  lemma OtherStages(s: Router, act: Action)
    requires !act.Start? && !act.Continue? && !act.Terminated? && !act.RemoveSession? && !act.Drained?
    ensures StayActive(s, Step(s, act))
  {
    SameActive(s, s);
    hide ChainOf, CloseStep, AllOver, P.Submit, P.Cleanup, OpenEnds, Submitted, Unhost, StayActive, Step;
    if act.CallSettled? || act.LeaseAnswered? || act.NoticeSent? {
      ChangeStages(s, act);
    } else if act.ReleaseLease? || act.LeaseReleased? {
      ReleaseStages(s, act);
    } else {
      SessionStages(s, act);
    }
  }

  lemma SameActive(s: Router, t: Router)
    requires t.attachments == s.attachments
    ensures StayActive(s, t)
  {
  }

  lemma ChangeStages(s: Router, act: Action)
    requires act.CallSettled? || act.LeaseAnswered? || act.NoticeSent?
    ensures StayActive(s, Step(s, act))
  {
    hide StayActive;
    SameActive(s, s);
    var a := act.attachment;
    if a < |s.attachments| {
      var x := s.attachments[a];
      match act
      case CallSettled(_, call) => OneActive(s, WithAttachment(s, a, x.(operations := x.operations - {call})), a);
      case LeaseAnswered(_, ok) => OneActive(s, WithAttachment(s, a, x.(lease := if ok then Held else Refused)), a);
      case NoticeSent(_) => OneActive(s, WithAttachment(s, a, x.(stage := Over)), a);
    }
  }

  lemma ReleaseStages(s: Router, act: Action)
    requires act.ReleaseLease? || act.LeaseReleased?
    ensures StayActive(s, Step(s, act))
  {
    hide Clear, StayActive;
    SameActive(s, s);
    if act.attachment < |s.attachments| {
      ClearStages(s, act.attachment);
      var x := s.attachments[act.attachment];
      OneActive(s, WithAttachment(s, act.attachment, x.(stage := ReleasingLease, releases := x.releases + 1)),
        act.attachment);
    }
  }

  lemma OneActive(s: Router, t: Router, a: nat)
    requires a < |s.attachments| == |t.attachments| && t.attachments == s.attachments[a := t.attachments[a]]
    ensures (s.attachments[a].stage.Active? ==> t.attachments[a].stage.Active?) ==> StayActive(s, t)
  {
  }

  lemma ClearStages(s: Router, a: nat)
    requires a < |s.attachments|
    ensures !s.attachments[a].stage.Active? ==> StayActive(s, Clear(s, a))
  {
    LeavesSame(s, s.attachments[a].session, a);
    hide Leaves;
  }

  lemma SessionStages(s: Router, act: Action)
    requires !act.Start? && !act.Continue? && !act.Terminated? && !act.RemoveSession? && !act.Drained?
    requires !act.CallSettled? && !act.LeaseAnswered? && !act.NoticeSent? && !act.ReleaseLease? && !act.LeaseReleased?
    ensures StayActive(s, Step(s, act))
  {
    hide ChainOf, CloseStep, AllOver, P.Cleanup, OpenEnds, Submitted, Unhost, StayActive;
    if act.BeginClose? || act.Emptied? || act.HandlesClosed? { CloseSame(s, act); }
    if act.Submit? { SubmitStages(s, act.client, act.op); }
    if act.OpenSettled? && act.open < |s.opens| { OpenStages(s, act.open, act.resolved); }
    if act.FinishRemoval? && act.removal < |s.removals| { UnhostStages(s, s.removals[act.removal].0); }
    SameActive(s, Step(s, act));
  }

  lemma CloseSame(s: Router, a: Action)
    requires a.BeginClose? || a.Emptied? || a.HandlesClosed?
    ensures CloseStep(s, a).attachments == s.attachments
  {
    hide Tails, AllOver, WithoutTails;
  }

  lemma SubmitStages(s: Router, c: nat, op: Op)
    ensures Submitted(s, c, op).attachments == s.attachments
  {
    hide ChainOf, P.Submit;
  }

  lemma OpenStages(s: Router, o: nat, id: Option<nat>)
    requires o < |s.opens|
    ensures OpenEnds(s, o, id).attachments == s.attachments
  {
  }

  lemma UnhostStages(s: Router, h: nat)
    ensures Unhost(s, h).attachments == s.attachments
  {
  }

  /** What happens when the lease has been released, or there is none: the client may be told that it is over. */
  predicate EndsAt(s: Router, act: Action, a: nat) {
    && a < |s.attachments|
    && ((act == LeaseReleased(a) && s.attachments[a].stage.ReleasingLease?)
        || (act == ReleaseLease(a) && s.attachments[a].stage.WaitingForCalls? && s.attachments[a].lease.Refused?
            && s.attachments[a].operations * s.attachments[a].stage.calls == {}))
  }

  /**
   When a release ends, the client is told if and only if the attachment is still its current one and the release was
   not begun by its leaving or switching.
   */
  lemma ToldIff(actions: seq<Action>, n: nat, m: nat, a: nat)
    requires n < m < |actions|
    requires Begins(Run(INITIAL, actions[..n]), Run(INITIAL, actions[..n + 1]), a)
    requires EndsAt(Run(INITIAL, actions[..m]), actions[m], a)
    ensures var b, s, d := Run(INITIAL, actions[..n]), Run(INITIAL, actions[..m]), Run(INITIAL, actions[..m + 1]);
      && a < |d.attachments|
      && (d.attachments[a].stage.Announcing? || d.attachments[a].stage.Over?)
      && (d.attachments[a].stage.Announcing? <==> IsCurrent(s, a) && !Silently(b, actions[n]))
  {
    hide Run, FlowOk, Silently, Step, AllOnward, Begins, EndsAt;
    var b, c, s := Run(INITIAL, actions[..n]), Run(INITIAL, actions[..n + 1]), Run(INITIAL, actions[..m]);
    InitialOk();
    RunKeeps(INITIAL, actions[..n]);
    RunNext(INITIAL, actions, n);
    RunNext(INITIAL, actions, m);
    StepWith(b, actions[n], a);
    assert actions[..m] == actions[..n + 1] + actions[n + 1..m];
    RunAppend(INITIAL, actions[..n + 1], actions[n + 1..m]);
    RunOnward(c, actions[n + 1..m]);
    PublishStays(b, c, s, a);
    EndTells(s, actions[m], a);
  }

  lemma PublishStays(b: Router, c: Router, s: Router, a: nat)
    requires Begins(b, c, a) && AllOnward(c, s)
    ensures a < |s.attachments| && s.attachments[a].publish == c.attachments[a].publish
  {
    assert Onward(c.attachments[a], s.attachments[a]);
  }

  lemma StepWith(b: Router, act: Action, a: nat)
    requires FlowOk(b) && Begins(b, Step(b, act), a)
    ensures a < |Step(b, act).attachments| && Step(b, act).attachments[a].publish == !Silently(b, act)
  {
    assert a < |Step(b, act).attachments|;
    hide FlowOk, Step, Begins;
    match act
    case Start(c, j) => StartWith(b, c, j);
    case Continue(c, j, ok) => ContinueWith(b, c, j, ok);
    case _ => PlainWith(b, act);
  }

  lemma EndTells(s: Router, act: Action, a: nat)
    requires EndsAt(s, act, a)
    ensures var d := Step(s, act); a < |d.attachments| && d.attachments[a].stage == if IsCurrent(s, a) &&
      s.attachments[a].publish then Announcing else Over
  {
    LeavesSame(s, s.attachments[a].session, a);
    hide Leaves;
  }
}
