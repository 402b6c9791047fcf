/** Every other step, and with them every run. */
module RouterSteps {
  import opened Common
  import opened SessionRouter
  import opened RouterSafety
  import opened RouterFlow

  /** No operation moves, nothing becomes current, and nothing fresh is released unless disturbed or closing. */
  ghost predicate Passive(s: Router, t: Router) {
    && t.chains == s.chains && t.suspended == s.suspended && Grows(s, t)
    && s.disturbed <= t.disturbed && (s.closing ==> t.closing)
    && (t.close.NotBegun? || t.closing)
    && (forall b :: 0 <= b < |s.attachments| ==>
          && t.attachments[b].installed == s.attachments[b].installed
          && t.attachments[b].session == s.attachments[b].session
          && (t.attachments[b].session !in t.disturbed && !t.closing ==>
                s.attachments[b].stage.Active? && !s.attachments[b].installed ==> t.attachments[b].stage.Active?))
  }

  lemma PassiveFence(s: Router, t: Router)
    requires FenceOk(s) && Passive(s, t)
    ensures FenceOk(t)
  {
    hide Grows;
    assert |s.attachments| <= |t.attachments| by { GrowsSize(s, t); }
    forall k | k in t.suspended ensures NotInstalled(t, t.suspended[k]) { assert NotInstalled(s, s.suspended[k]); }
  }

  lemma GrowsSize(s: Router, t: Router)
    requires Grows(s, t)
    ensures |s.attachments| <= |t.attachments|
  {
  }

  lemma PassiveKeeps(s: Router, t: Router, special: set<nat>)
    requires FlowOk(s) && Passive(s, t) && HoldingOk(t) && IndexOk(t)
    requires OnlyAt(s, t, special) && QuietAmong(t, special)
    ensures FlowOk(t)
  {
    PassiveFence(s, t);
    hide HoldingOk, IndexOk, FenceOk, JobsOk, QuietOk, Grows, QuietAt;
    JobsSame(s, t);
    QuietKept(s, t, special);
  }

  // ---------------------------------------------------------------- one attachment

  lemma ChangeKeeps(s: Router, a: nat, x: Attachment)
    requires FlowOk(s) && a < |s.attachments|
    requires var y := s.attachments[a];
      && x.client == y.client && x.session == y.session && x.job == y.job && x.installed == y.installed
      && (y.stage.Active? ==> x.stage.Active?)
    requires HoldingOk(WithAttachment(s, a, x))
    requires x.session !in s.disturbed ==> QuietAt(WithAttachment(s, a, x), a)
    ensures FlowOk(WithAttachment(s, a, x))
  {
    var t := WithAttachment(s, a, x);
    hide HoldingOk, JobsOk, QuietOk, QuietAt;
    assert Passive(s, t);
    assert OnlyAt(s, t, {a});
    PassiveKeeps(s, t, {a});
  }

  lemma Facts(s: Router, a: nat)
    requires FlowOk(s) && a < |s.attachments|
    ensures LeaseOk(s.attachments[a], InSet(s, a)) && (s.attachments[a].session !in s.disturbed ==> QuietAt(s, a))
    ensures CurrentAt(s, s.attachments[a].client, a) ==> s.attachments[a].lease.Held?
    ensures HoldingOk(s)
  {
    hide JobsOk, IndexOk, FenceOk;
  }

  lemma OneKeeps(s: Router, a: nat, x: Attachment)
    requires FlowOk(s) && HoldingOk(s) && a < |s.attachments|
    requires var y := s.attachments[a];
      && x.client == y.client && x.session == y.session && x.job == y.job && x.installed == y.installed
      && (y.stage.Active? ==> x.stage.Active?)
    requires LeaseOk(x, InSet(s, a))
    requires CurrentAt(s, s.attachments[a].client, a) ==> x.lease.Held? && x.installed && !Clearing(x)
    requires x.session !in s.disturbed ==> QuietAt(WithAttachment(s, a, x), a)
    ensures FlowOk(WithAttachment(s, a, x))
  {
    hide FlowOk, HoldingOk, InSet, LeaseOk, CurrentAt, QuietAt, Clearing;
    ChangeHolding(s, a, x);
    ChangeKeeps(s, a, x);
  }

  lemma CallSettledKeeps(s: Router, a: nat, call: nat)
    requires FlowOk(s)
    ensures FlowOk(Step(s, CallSettled(a, call)))
  {
    if a < |s.attachments| {
      var x := s.attachments[a].(operations := s.attachments[a].operations - {call});
      assert Step(s, CallSettled(a, call)) == WithAttachment(s, a, x);
      hide Step;
      Facts(s, a);
      hide FlowOk, HoldingOk, InSet;
      OneKeeps(s, a, x);
    }
  }

  /** Nothing has been released that the host has not yet granted. */
  lemma Answered(s: Router, a: nat, x: Attachment)
    requires a < |s.attachments| && s.attachments[a].lease.Pending? && x == s.attachments[a].(lease := x.lease) &&
      !x.lease.Pending?
    requires LeaseOk(s.attachments[a], InSet(s, a))
    ensures LeaseOk(x, InSet(s, a))
    ensures QuietAt(s, a) ==> QuietAt(WithAttachment(s, a, x), a)
  {
    hide InSet, CurrentAt;
  }

  lemma LeaseAnsweredKeeps(s: Router, a: nat, granted: bool)
    requires FlowOk(s)
    ensures FlowOk(Step(s, LeaseAnswered(a, granted)))
  {
    if a < |s.attachments| && s.attachments[a].lease.Pending? {
      var x := s.attachments[a].(lease := if granted then Held else Refused);
      assert Step(s, LeaseAnswered(a, granted)) == WithAttachment(s, a, x);
      hide Step;
      Facts(s, a);
      hide FlowOk, HoldingOk, InSet, CurrentAt;
      Answered(s, a, x);
      hide QuietAt, LeaseOk;
      OneKeeps(s, a, x);
    }
  }

  lemma NoticeSentKeeps(s: Router, a: nat)
    requires FlowOk(s)
    ensures FlowOk(Step(s, NoticeSent(a)))
  {
    if a < |s.attachments| && s.attachments[a].stage.Announcing? {
      var x := s.attachments[a].(stage := Over);
      assert Step(s, NoticeSent(a)) == WithAttachment(s, a, x);
      hide Step;
      Facts(s, a);
      hide FlowOk, HoldingOk, InSet;
      OneKeeps(s, a, x);
    }
  }

  lemma ClearKeeps(s: Router, a: nat)
    requires FlowOk(s) && a < |s.attachments|
    requires s.attachments[a].stage.ReleasingLease? ||
      (s.attachments[a].stage.WaitingForCalls? && s.attachments[a].lease.Refused?)
    ensures FlowOk(Clear(s, a))
  {
    Facts(s, a);
    ClearHolding(s, a);
    ClearShape(s, a);
    ClearFrame(s, a);
    hide Clear, HoldingOk, JobsOk, QuietOk, IndexOk, FenceOk, LeaseOk;
    var t := Clear(s, a);
    assert Passive(s, t);
    assert OnlyAt(s, t, {a}) by {
      forall b | 0 <= b < |t.attachments| && b != a ensures IsCurrent(t, b) ==> IsCurrent(s, b) { }
    }
    PassiveKeeps(s, t, {a});
  }

  lemma ClearFrame(s: Router, a: nat)
    requires a < |s.attachments| && IndexOk(s)
    ensures var t := Clear(s, a);
      && t.chains == s.chains && t.suspended == s.suspended && t.disturbed == s.disturbed && t.closing == s.closing
      && t.close == s.close && t.opens == s.opens && |t.sessions| == |s.sessions| && IndexOk(t)
  {
    RefusedShape(s, a);
    hide Leaves;
  }

  lemma ReleaseLeaseKeeps(s: Router, a: nat)
    requires FlowOk(s)
    ensures FlowOk(Step(s, ReleaseLease(a)))
  {
    if a < |s.attachments| && s.attachments[a].stage.WaitingForCalls? &&
        s.attachments[a].operations * s.attachments[a].stage.calls == {} {
      Facts(s, a);
      hide FlowOk, Clear;
      match s.attachments[a].lease
      case Pending =>
      case Refused => ClearKeeps(s, a);
      case Held => LeaseBegins(s, a);
    }
  }

  /** No call the release waits for is left, so none is when the lease is being released. */
  lemma LeaseBegins(s: Router, a: nat)
    requires FlowOk(s) && a < |s.attachments| && s.attachments[a].stage.WaitingForCalls? && s.attachments[a].lease.Held?
    requires s.attachments[a].operations * s.attachments[a].stage.calls == {}
    ensures FlowOk(WithAttachment(s, a, s.attachments[a].(stage := ReleasingLease,
      releases := s.attachments[a].releases + 1)))
  {
    Facts(s, a);
    FlowHolding(s);
    hide FlowOk;
    var x := s.attachments[a].(stage := ReleasingLease, releases := s.attachments[a].releases + 1);
    ChangeHolding(s, a, x);
    hide HoldingOk, LeasesOk, CurrentOk;
    if x.session !in s.disturbed { assert x.operations == {}; }
    ChangeKeeps(s, a, x);
  }

  lemma FlowHolding(s: Router)
    requires FlowOk(s)
    ensures HoldingOk(s)
  {
    hide HoldingOk, JobsOk, IndexOk, FenceOk, QuietOk;
  }

  // ---------------------------------------------------------------- sessions, shutdown

  lemma SessionOpens(s: Router, o: nat, id: Option<nat>)
    requires FlowOk(s) && o < |s.opens| && s.opens[o].status.InProgress?
    ensures FlowOk(OpenEnds(s, o, id))
  {
    var t := OpenEnds(s, o, id);
    OpenEndsFrame(s, o, id);
    var u := s.(sessions := t.sessions);
    if t.sessions != s.sessions {
      NewSessionHolding(s, HostedSession(id.value, {}));
    } else {
      assert u == s;
    }
    hide LeasesOk, CurrentOk, JobsOk, QuietOk, FenceOk, OpenEnds, IndexOk;
    SameHolding(u, t);
    assert Passive(s, t) && OnlyAt(s, t, {});
    PassiveKeeps(s, t, {});
  }

  lemma OpenEndsFrame(s: Router, o: nat, id: Option<nat>)
    requires IndexOk(s) && o < |s.opens| && s.opens[o].status.InProgress?
    ensures var t := OpenEnds(s, o, id);
      && t == s.(opens := t.opens, sessions := t.sessions, hosted := t.hosted, honest := t.honest)
      && |t.opens| == |s.opens| && IndexOk(t)
      && (t.sessions == s.sessions || (id.Some? && t.sessions == s.sessions + [HostedSession(id.value, {})]))
  {
  }

  /** Releases begin for a whole session: by termination or removal, or by the shutdown. */
  lemma BegunQuiet(s: Router, which: set<nat>, publish: bool, t: Router)
    requires QuietOk(s)
    requires var u := BeginAll(s, which, publish);
      t == u.(hosted := t.hosted, disturbed := t.disturbed, removals := t.removals, close := t.close)
    requires s.disturbed <= t.disturbed
    requires t.closing || forall b :: b in which && b < |s.attachments| ==> s.attachments[b].session in t.disturbed
    ensures QuietAmong(t, which)
  {
    forall b | b in which && b < |t.attachments| && t.attachments[b].session !in t.disturbed ensures QuietAt(t, b) {
      assert QuietAt(s, b);
    }
  }

  lemma BeginKeeps(s: Router, which: set<nat>, publish: bool, t: Router)
    requires FlowOk(s)
    requires var u := BeginAll(s, which, publish);
      t == u.(hosted := t.hosted, disturbed := t.disturbed, removals := t.removals, close := t.close)
    requires t.hosted.Keys <= s.hosted.Keys && forall id :: id in t.hosted ==> t.hosted[id] == s.hosted[id]
    requires s.disturbed <= t.disturbed
    requires t.closing || forall b :: b in which && b < |s.attachments| ==> s.attachments[b].session in t.disturbed
    requires t.close == s.close || (s.closing && !s.close.Finished? && !t.close.Finished?)
    ensures FlowOk(t)
  {
    var u := BeginAll(s, which, publish);
    BeginHolding(s, which, publish);
    hide LeasesOk, CurrentOk, JobsOk, FenceOk;
    SameHolding(u, t);
    assert Passive(s, t) && IndexOk(t);
    assert OnlyAt(s, t, which) by {
      forall b | 0 <= b < |t.attachments| ensures IsCurrent(t, b) ==> IsCurrent(s, b) { }
    }
    BegunQuiet(s, which, publish, t);
    hide QuietOk, BeginAll, QuietAmong, Passive, HoldingOk, IndexOk, OnlyAt;
    PassiveKeeps(s, t, which);
  }

  lemma SmallKeeps(s: Router, t: Router)
    requires FlowOk(s)
    requires t == s.(hosted := t.hosted, opening := t.opening, leaving := t.leaving, closing := t.closing,
      close := t.close)
    requires t.hosted.Keys <= s.hosted.Keys && forall id :: id in t.hosted ==> t.hosted[id] == s.hosted[id]
    requires t.opening.Keys <= s.opening.Keys && forall id :: id in t.opening ==> t.opening[id] == s.opening[id]
    requires s.closing ==> t.closing
    requires t.close == s.close || (s.closing && !s.close.Finished? && !t.close.Finished?)
    ensures FlowOk(t)
  {
    hide LeasesOk, CurrentOk, JobsOk, FenceOk, QuietOk;
    SameHolding(s, t);
    assert Passive(s, t) && IndexOk(t) && OnlyAt(s, t, {});
    PassiveKeeps(s, t, {});
  }

  // ---------------------------------------------------------------- the end of the shutdown

  lemma ForgottenRuns(s: Router, t: Router)
    requires RunsOk(s) && Grows(s.(close := t.close), t) && t.suspended == s.suspended &&
      t.chains == WithoutTails(s.chains) && t.close.Finished?
    ensures JobsOk(t)
  {
    hide SuspendedOk;
    forall k ensures RunningAt(t, k) == RunningAt(s, k) && JobAt(t, k) == JobAt(s, k) { }
    forall k | k in t.suspended ensures SuspendedOk(t, k, t.suspended[k]) {
      SuspendedLater(s.(close := t.close), t, k, t.suspended[k]) by { SameSuspended(s, t.close, k); }
    }
  }

  lemma SameSuspended(s: Router, close: Closing, k: (nat, nat))
    requires k in s.suspended && SuspendedOk(s, k, s.suspended[k])
    ensures SuspendedOk(s.(close := close), k, s.suspended[k])
  {
  }

  lemma HandlesClosedKeeps(s: Router, failed: set<nat>)
    requires FlowOk(s)
    ensures FlowOk(Step(s, HandlesClosed(failed)))
  {
    if s.close.ClosingHandles? {
      var t := Step(s, HandlesClosed(failed));
      hide SuspendedOk, QuietOk, FenceOk, LeaseOk, PromiseChain.Serial, WithoutTails;
      ForgottenRuns(s, t);
      forall a | 0 <= a < |t.attachments| ensures InSet(t, a) == InSet(s, a) { }
      assert HoldingOk(t) && IndexOk(t);
      ForgottenQuiet(s, t);
    }
  }

  lemma ForgottenQuiet(s: Router, t: Router)
    requires QuietOk(s) && FenceOk(s) && s.closing
    requires t.closing && t.attachments == s.attachments && t.suspended == s.suspended && t.disturbed == s.disturbed
    ensures QuietOk(t) && FenceOk(t)
  {
    forall a: nat | a < |t.attachments| && t.attachments[a].session !in t.disturbed ensures QuietAt(t, a) {
      assert QuietAt(s, a);
    }
    forall k | k in t.suspended ensures NotInstalled(t, t.suspended[k]) { assert NotInstalled(s, s.suspended[k]); }
  }

  // ---------------------------------------------------------------- every step, every run

  lemma SubmitKeeps(s: Router, c: nat, op: Op)
    requires FlowOk(s)
    ensures FlowOk(Step(s, Action.Submit(c, op)))
  {
    var t := Submitted(s, c, op);
    SubmitJobs(s, c, op);
    hide LeasesOk, CurrentOk, JobsOk, ChainOf, QuietOk, FenceOk, IndexOk, PromiseChain.Submit;
    SameHolding(s, t);
    Unaffected(s, t);
    assert IndexOk(t) by { SameIndex(s, t); }
  }

  lemma SameIndex(s: Router, t: Router)
    requires IndexOk(s) && t.hosted == s.hosted && t.opening == s.opening && t.opens == s.opens &&
      t.sessions == s.sessions
    ensures IndexOk(t)
  {
  }

  lemma Unaffected(s: Router, t: Router)
    requires QuietOk(s) && FenceOk(s) && t == s.(chains := t.chains, leaving := t.leaving)
    ensures QuietOk(t) && FenceOk(t)
  {
    forall a: nat | a < |t.attachments| && t.attachments[a].session !in t.disturbed ensures QuietAt(t, a) {
      assert QuietAt(s, a);
    }
    forall k | k in t.suspended ensures NotInstalled(t, t.suspended[k]) { assert NotInstalled(s, s.suspended[k]); }
  }

  lemma CleanUpKeeps(s: Router, c: nat, j: nat)
    requires FlowOk(s)
    ensures FlowOk(Step(s, CleanUp(c, j)))
  {
    if c in s.chains && j < |s.chains[c].jobs| && s.chains[c].jobs[j].status.Settled? {
      CleanUpJobs(s, c, j);
      var t := Step(s, CleanUp(c, j));
      hide LeasesOk, CurrentOk, JobsOk;
      SameHolding(s, t);
      Unaffected(s, t);
    }
  }

  lemma CloseKeeps(s: Router, a: Action)
    requires FlowOk(s) && (a.BeginClose? || a.Drained? || a.Emptied? || a.HandlesClosed?)
    ensures FlowOk(CloseStep(s, a))
  {
    hide FlowOk, Tails, AllSettled, AllOpened, AttachmentsOf, BeginAll, AllOver, WithoutTails;
    match a
    case BeginClose => if s.closing && s.close.NotBegun? { SmallKeeps(s, CloseStep(s, a)); }
    case Drained =>
      if s.close.Draining? && AllSettled(s, s.close.tails) && AllOpened(s, s.close.opens) {
        ClosingFlag(s);
        BeginFrame(s, AttachmentsOf(s, s.hosted.Values), true);
        BeginKeeps(s, AttachmentsOf(s, s.hosted.Values), true, CloseStep(s, a));
      }
    case Emptied =>
      if s.close.Emptying? && AllOver(s, s.close.waiting) {
        ClosingFlag(s);
        SmallKeeps(s, CloseStep(s, a));
      }
    case HandlesClosed(failed) => HandlesClosedKeeps(s, failed);
  }

  lemma ClosingFlag(s: Router)
    requires FlowOk(s)
    ensures s.close.NotBegun? || s.closing
  {
  }

  lemma BeginFrame(s: Router, which: set<nat>, publish: bool)
    ensures var u := BeginAll(s, which, publish);
      u == s.(attachments := u.attachments) && |u.attachments| == |s.attachments|
  {
  }

  lemma MembersOf(s: Router, h: nat)
    requires FlowOk(s) && h < |s.sessions|
    ensures forall a :: a in s.sessions[h].attachments ==> a < |s.attachments| && s.attachments[a].session == h
  {
    FlowHolding(s);
    hide FlowOk;
    assert MembersOk(s.attachments, s.sessions[h].attachments, h);
  }

  lemma TerminatedKeeps(s: Router, h: nat)
    requires FlowOk(s)
    ensures FlowOk(Invalidate(s, h))
  {
    hide FlowOk, BeginAll;
    if IsHosted(s, h) {
      BeginFrame(Unhost(s, h), s.sessions[h].attachments, true);
      BeginFrame(s, s.sessions[h].attachments, true);
      UnhostFirst(s, h);
      MembersOf(s, h);
      BeginKeeps(s, s.sessions[h].attachments, true, Invalidate(s, h));
    } else {
      assert Invalidate(s, h) == s;
    }
  }

  lemma RemovalKeeps(s: Router, id: nat)
    requires FlowOk(s)
    ensures FlowOk(BeginRemoval(s, id))
  {
    hide FlowOk, BeginAll;
    if !s.closing && id in s.hosted && s.hosted[id] < |s.sessions| {
      BeginFrame(s, s.sessions[s.hosted[id]].attachments, true);
      MembersOf(s, s.hosted[id]);
      BeginKeeps(s, s.sessions[s.hosted[id]].attachments, true, BeginRemoval(s, id));
    }
  }

  lemma UnhostKeeps(s: Router, h: nat)
    requires FlowOk(s)
    ensures FlowOk(Unhost(s, h))
  {
    hide FlowOk;
    SmallKeeps(s, Unhost(s, h));
  }

  lemma DisturbKeeps(s: Router, a: Action)
    requires FlowOk(s) && (a.Terminated? || a.RemoveSession? || a.FinishRemoval? || a.StopAccepting? || a.ForgetOpen? ||
      a.ForgetLeaving?)
    ensures FlowOk(Step(s, a))
  {
    hide FlowOk, Invalidate, BeginRemoval, Unhost, AllOver;
    match a
    case Terminated(h) => TerminatedKeeps(s, h);
    case RemoveSession(id) => RemovalKeeps(s, id);
    case FinishRemoval(r) => if r < |s.removals| { UnhostKeeps(s, s.removals[r].0); }
    case StopAccepting => SmallKeeps(s, s.(closing := true));
    case ForgetOpen(o) => if o < |s.opens| { SmallKeeps(s, s.(opening := s.opening - {s.opens[o].asked})); }
    case ForgetLeaving(c, _) => SmallKeeps(s, s.(leaving := s.leaving - {c}));
  }

  lemma UnhostFirst(s: Router, h: nat)
    ensures BeginAll(Unhost(s, h), if h < |s.sessions| then s.sessions[h].attachments else {}, true).attachments
         == BeginAll(s, if h < |s.sessions| then s.sessions[h].attachments else {}, true).attachments
  {
  }

  lemma StepKeeps(s: Router, a: Action)
    requires FlowOk(s)
    ensures FlowOk(Step(s, a))
  {
    hide FlowOk, Step;
    match a
    case Submit(c, op) => SubmitKeeps(s, c, op);
    case Start(c, j) => StartKeeps(s, c, j);
    case Continue(c, j, ok) => ContinueKeeps(s, c, j, ok);
    case CleanUp(c, j) => CleanUpKeeps(s, c, j);
    case ForgetLeaving(_, _) => DisturbKeeps(s, a);
    case CallSettled(x, call) => CallSettledKeeps(s, x, call);
    case LeaseAnswered(x, granted) => LeaseAnsweredKeeps(s, x, granted);
    case ReleaseLease(x) => ReleaseLeaseKeeps(s, x);
    case LeaseReleased(x) => LeaseReleasedKeeps(s, x);
    case NoticeSent(x) => NoticeSentKeeps(s, x);
    case OpenSettled(o, id) => OpenSettledKeeps(s, o, id);
    case ForgetOpen(_) => DisturbKeeps(s, a);
    case Terminated(_) => DisturbKeeps(s, a);
    case RemoveSession(_) => DisturbKeeps(s, a);
    case FinishRemoval(_) => DisturbKeeps(s, a);
    case StopAccepting => DisturbKeeps(s, a);
    case BeginClose => CloseStepKeeps(s, a);
    case Drained => CloseStepKeeps(s, a);
    case Emptied => CloseStepKeeps(s, a);
    case HandlesClosed(_) => CloseStepKeeps(s, a);
  }

  lemma CloseStepKeeps(s: Router, a: Action)
    requires FlowOk(s) && (a.BeginClose? || a.Drained? || a.Emptied? || a.HandlesClosed?)
    ensures FlowOk(Step(s, a))
  {
    hide FlowOk, CloseStep;
    CloseKeeps(s, a);
  }

  lemma LeaseReleasedKeeps(s: Router, a: nat)
    requires FlowOk(s)
    ensures FlowOk(Step(s, LeaseReleased(a)))
  {
    hide FlowOk, Clear;
    if a < |s.attachments| && s.attachments[a].stage.ReleasingLease? { ClearKeeps(s, a); }
  }

  lemma OpenSettledKeeps(s: Router, o: nat, id: Option<nat>)
    requires FlowOk(s)
    ensures FlowOk(Step(s, OpenSettled(o, id)))
  {
    hide FlowOk, OpenEnds;
    if o < |s.opens| && s.opens[o].status.InProgress? { SessionOpens(s, o, id); }
  }
}
