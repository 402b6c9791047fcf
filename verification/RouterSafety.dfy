/** What holds of the session router on every run. */
module RouterSafety {
  import opened Common
  import PromiseChain
  import opened SessionRouter

  // ---------------------------------------------------------------- leases

  predicate Clearing(x: Attachment) { x.stage.Announcing? || x.stage.Over? }

  /** One release at most; and until it has been called and has settled, a lease stays in its session's set. */
  predicate LeaseOk(x: Attachment, inSet: bool) {
    && (x.stage.Active? || x.stage.WaitingForCalls? ==> x.releases == 0)
    && (x.stage.ReleasingLease? ==> x.lease.Held? && x.releases == 1)
    && (Clearing(x) ==> !x.lease.Pending? && !inSet && x.releases == if x.lease.Held? then 1 else 0)
    && (!Clearing(x) && !x.lease.Refused? ==> inSet)
  }

  predicate InSet(s: Router, a: nat)
    requires a < |s.attachments|
  {
    s.attachments[a].session < |s.sessions| && a in s.sessions[s.attachments[a].session].attachments
  }

  ghost predicate LeasesOk(s: Router) {
    && (forall a :: 0 <= a < |s.attachments| ==> s.attachments[a].session < |s.sessions| && LeaseOk(s.attachments[a],
        InSet(s, a)))
    && (forall h :: 0 <= h < |s.sessions| ==> MembersOk(s.attachments, s.sessions[h].attachments, h))
  }

  predicate MembersOk(attachments: seq<Attachment>, members: set<nat>, h: nat) {
    forall a :: a in members ==> a < |attachments| && attachments[a].session == h
  }

  predicate CurrentAt(s: Router, c: nat, a: nat) {
    a < |s.attachments| && s.attachments[a].client == c && s.attachments[a].lease.Held? && s.attachments[a].installed
    && !Clearing(s.attachments[a])
  }

  ghost predicate CurrentOk(s: Router) {
    forall c :: c in s.byClient ==> CurrentAt(s, c, s.byClient[c])
  }

  /** Everything about leases and current attachments. */
  ghost predicate HoldingOk(s: Router) { LeasesOk(s) && CurrentOk(s) }

  lemma SameHolding(s: Router, t: Router)
    requires HoldingOk(s) && t.attachments == s.attachments && t.sessions == s.sessions && t.byClient == s.byClient
    ensures HoldingOk(t)
  {
    hide LeaseOk, Clearing;
    forall a | 0 <= a < |t.attachments| ensures InSet(t, a) == InSet(s, a) { }
  }

  lemma BeginHolding(s: Router, which: set<nat>, publish: bool)
    requires HoldingOk(s)
    ensures HoldingOk(BeginAll(s, which, publish))
  {
    var t := BeginAll(s, which, publish);
    forall a | 0 <= a < |t.attachments| ensures LeaseOk(t.attachments[a], InSet(t, a)) {
      assert LeaseOk(s.attachments[a], InSet(s, a));
    }
  }

  /** An attachment changes by itself. */
  lemma ChangeHolding(s: Router, a: nat, x: Attachment)
    requires HoldingOk(s) && a < |s.attachments|
    requires var y := s.attachments[a]; x.client == y.client && x.session == y.session
    requires LeaseOk(x, InSet(s, a))
    requires CurrentAt(s, s.attachments[a].client, a) ==> x.lease.Held? && x.installed && !Clearing(x)
    ensures HoldingOk(WithAttachment(s, a, x))
  {
    var t := WithAttachment(s, a, x);
    hide LeaseOk, Clearing;
    forall b | 0 <= b < |t.attachments| ensures LeaseOk(t.attachments[b], InSet(t, b)) {
      assert LeaseOk(s.attachments[b], InSet(s, b));
      assert InSet(t, b) == InSet(s, b);
    }
  }

  lemma LeavesHolding(s: Router, a: nat)
    requires HoldingOk(s) && a < |s.attachments|
    ensures var t := Leaves(s, s.attachments[a].session, a);
      && t.attachments == s.attachments && t.byClient == s.byClient && !InSet(t, a) && |t.sessions| == |s.sessions|
      && (forall b :: 0 <= b < |s.attachments| && b != a ==> InSet(t, b) == InSet(s, b))
      && (forall h :: 0 <= h < |t.sessions| ==> MembersOk(t.attachments, t.sessions[h].attachments, h))
  {
  }

  /** A refused lease leaves the set again. */
  lemma RefusedHolding(s: Router, a: nat)
    requires HoldingOk(s) && a < |s.attachments| && s.attachments[a].lease.Refused?
    ensures HoldingOk(Leaves(s, s.attachments[a].session, a))
  {
    var t := Leaves(s, s.attachments[a].session, a);
    LeavesHolding(s, a);
    hide Leaves;
    forall b | 0 <= b < |t.attachments| ensures LeaseOk(t.attachments[b], InSet(t, b)) {
      assert LeaseOk(s.attachments[b], InSet(s, b));
    }
  }

  lemma ClearShape(s: Router, a: nat)
    requires a < |s.attachments|
    ensures var t := Clear(s, a); var x := s.attachments[a];
      && (t.attachments == s.attachments[a := x.(stage := Announcing)] ||
          t.attachments == s.attachments[a := x.(stage := Over)])
      && t.sessions == Leaves(s, x.session, a).sessions
      && (forall c :: c in t.byClient ==> c in s.byClient && t.byClient[c] == s.byClient[c])
      && (x.client in t.byClient ==> t.byClient[x.client] != a)
      && (forall c :: c in s.byClient && s.byClient[c] != a ==> c in t.byClient)
  {
    hide Leaves;
  }

  lemma ClearHolding(s: Router, a: nat)
    requires HoldingOk(s) && a < |s.attachments|
    requires s.attachments[a].stage.ReleasingLease? ||
      (s.attachments[a].stage.WaitingForCalls? && s.attachments[a].lease.Refused?)
    ensures HoldingOk(Clear(s, a))
  {
    ClearLeases(s, a);
    ClearShape(s, a);
    hide Clear, LeasesOk;
    var t := Clear(s, a);
    forall c | c in t.byClient ensures CurrentAt(t, c, t.byClient[c]) {
      assert CurrentAt(s, c, s.byClient[c]);
    }
  }

  lemma ClearLeases(s: Router, a: nat)
    requires HoldingOk(s) && a < |s.attachments|
    requires s.attachments[a].stage.ReleasingLease? ||
      (s.attachments[a].stage.WaitingForCalls? && s.attachments[a].lease.Refused?)
    ensures LeasesOk(Clear(s, a))
  {
    var u := Leaves(s, s.attachments[a].session, a);
    LeavesHolding(s, a);
    ClearShape(s, a);
    hide Leaves, Clear, CurrentOk;
    var t := Clear(s, a);
    forall b | 0 <= b < |t.attachments| ensures LeaseOk(t.attachments[b], InSet(t, b)) &&
      t.attachments[b].session < |t.sessions| {
      assert LeaseOk(s.attachments[b], InSet(s, b));
      assert InSet(t, b) == InSet(u, b);
    }
  }

  lemma CreateHolding(s: Router, client: nat, job: nat, session: nat)
    requires HoldingOk(s) && session < |s.sessions|
    ensures HoldingOk(Created(s, client, job, session))
  {
    var t := Created(s, client, job, session);
    forall a | 0 <= a < |t.attachments| ensures LeaseOk(t.attachments[a], InSet(t, a)) {
      if a < |s.attachments| { assert LeaseOk(s.attachments[a], InSet(s, a)); }
    }
    hide LeaseOk;
    forall c | c in t.byClient ensures CurrentAt(t, c, t.byClient[c]) { assert CurrentAt(s, c, s.byClient[c]); }
  }

  lemma InstallHolding(s: Router, client: nat, a: nat)
    requires HoldingOk(s) && a < |s.attachments| && s.attachments[a].client == client && s.attachments[a].lease.Held? &&
      !Clearing(s.attachments[a])
    ensures HoldingOk(WithAttachment(s, a, s.attachments[a].(installed := true)).(byClient := s.byClient[client := a]))
  {
    var t := WithAttachment(s, a, s.attachments[a].(installed := true));
    assert LeaseOk(s.attachments[a], InSet(s, a));
    ChangeHolding(s, a, s.attachments[a].(installed := true));
    var u := t.(byClient := s.byClient[client := a]);
    hide LeaseOk, WithAttachment;
    assert LeasesOk(u) by { forall b | 0 <= b < |u.attachments| ensures InSet(u, b) == InSet(t, b) { } }
  }

  lemma NewSessionHolding(s: Router, h: HostedSession)
    requires HoldingOk(s) && h.attachments == {}
    ensures HoldingOk(s.(sessions := s.sessions + [h]))
  {
    var t := s.(sessions := s.sessions + [h]);
    hide LeaseOk, Clearing;
    forall a | 0 <= a < |t.attachments| ensures InSet(t, a) == InSet(s, a) { }
  }

  // ---------------------------------------------------------------- running operations

  function JobAt(s: Router, k: (nat, nat)): Option<Op> {
    if k.0 in s.chains && k.1 < |s.chains[k.0].jobs| then Some(s.chains[k.0].jobs[k.1].payload) else None
  }

  predicate OwnedBy(s: Router, a: nat, client: nat) { a < |s.attachments| && s.attachments[a].client == client }

  predicate WasCurrent(s: Router, a: nat, client: nat) { OwnedBy(s, a, client) && s.attachments[a].installed }

  /** What a suspended operation refers to exists, and belongs to it. */
  predicate SuspendedOk(s: Router, k: (nat, nat), at: Suspended) {
    && JobAt(s, k).Some?
    && (at.AwaitingRelease? <==> !JobAt(s, k).value.Attach?)
    && match at
       case AwaitingOpen(o, current) => o < |s.opens| && (current.Some? ==> WasCurrent(s, current.value, k.0))
       case AwaitingHosted(h, current) => h < |s.sessions| && (current.Some? ==> WasCurrent(s, current.value, k.0))
       case AwaitingSwitch(h, previous) => h < |s.sessions| && WasCurrent(s, previous, k.0)
       case AwaitingLease(a) => OwnedBy(s, a, k.0) && s.attachments[a].job == k.1
       case AwaitingUndo(a) => OwnedBy(s, a, k.0)
       case AwaitingNotice(a) => WasCurrent(s, a, k.0)
       case AwaitingRelease(a) => WasCurrent(s, a, k.0)
  }

  /** Each client's operations run one at a time, until shutdown forgets the chains. */
  ghost predicate ChainsOk(s: Router) {
    !s.close.Finished? ==> forall c :: c in s.chains ==> PromiseChain.Serial(s.chains[c])
  }

  predicate RunningAt(s: Router, k: (nat, nat)) {
    k.0 in s.chains && PromiseChain.IsRunning(s.chains[k.0], k.1)
  }

  /** Running operations are exactly the suspended ones. */
  ghost predicate RunsOk(s: Router) {
    && (forall k :: k in s.suspended ==> RunningAt(s, k) && SuspendedOk(s, k, s.suspended[k]))
    && (forall k :: RunningAt(s, k) ==> k in s.suspended)
  }

  ghost predicate JobsOk(s: Router) { ChainsOk(s) && RunsOk(s) }

  /** Nothing that a suspended operation refers to goes away. */
  ghost predicate Grows(s: Router, t: Router) {
    && |s.attachments| <= |t.attachments| && |s.sessions| <= |t.sessions| && |s.opens| <= |t.opens|
    && (forall a :: 0 <= a < |s.attachments| ==>
          && t.attachments[a].client == s.attachments[a].client && t.attachments[a].job == s.attachments[a].job
          && (s.attachments[a].installed ==> t.attachments[a].installed))
    && (t.close.Finished? == s.close.Finished?)
  }

  lemma SuspendedLater(s: Router, t: Router, k: (nat, nat), at: Suspended)
    requires SuspendedOk(s, k, at) && Grows(s, t) && JobAt(t, k) == JobAt(s, k)
    ensures SuspendedOk(t, k, at)
  {
  }

  lemma JobsSame(s: Router, t: Router)
    requires JobsOk(s) && Grows(s, t) && t.chains == s.chains && t.suspended == s.suspended
    ensures JobsOk(t)
  {
    hide SuspendedOk, Grows, PromiseChain.Serial;
    forall k | k in t.suspended ensures SuspendedOk(t, k, t.suspended[k]) { SuspendedLater(s, t, k, t.suspended[k]); }
    assert t.close.Finished? == s.close.Finished? by { GrowsClose(s, t); }
  }

  lemma GrowsClose(s: Router, t: Router)
    requires Grows(s, t)
    ensures t.close.Finished? == s.close.Finished?
  {
  }

  predicate MayRun(s: Router, c: nat, j: nat) {
    j < |ChainOf(s, c).jobs| && c in s.chains && (PromiseChain.CanStart(s.chains[c], j) ||
        PromiseChain.IsRunning(s.chains[c], j))
  }

  lemma StatusSerial(s: Router, c: nat, j: nat, status: PromiseChain.Status)
    requires JobsOk(s) && MayRun(s, c, j) && !s.close.Finished? && !status.Waiting?
    ensures PromiseChain.Serial(PromiseChain.SetStatus(s.chains[c], j, status))
  {
    var chain := s.chains[c];
    hide SuspendedOk;
    assert PromiseChain.Serial(chain);
    if PromiseChain.CanStart(chain, j) { PromiseChain.StartSerial(chain, j); }
    else if status.Settled? { PromiseChain.SettleSerial(chain, j); }
    else { assert PromiseChain.SetStatus(chain, j, status) == chain; }
  }

  /** The chains after one operation's status has changed. */
  lemma StatusChains(s: Router, t: Router, c: nat, j: nat, status: PromiseChain.Status)
    requires JobsOk(s) && MayRun(s, c, j) && Grows(s, t) && !status.Waiting?
    requires t.chains == s.chains[c := PromiseChain.SetStatus(s.chains[c], j, status)]
    ensures ChainsOk(t)
    ensures forall k :: k != (c, j) ==> RunningAt(t, k) == RunningAt(s, k) && JobAt(t, k) == JobAt(s, k)
    ensures RunningAt(t, (c, j)) == status.Running? && JobAt(t, (c, j)) == JobAt(s, (c, j))
  {
    if !s.close.Finished? { StatusSerial(s, c, j, status); }
    GrowsClose(s, t);
    hide RunsOk, Grows, PromiseChain.Serial;
  }

  /** One operation starts or goes on, and suspends (again). */
  lemma JobSuspends(s: Router, t: Router, c: nat, j: nat, at: Suspended)
    requires JobsOk(s) && MayRun(s, c, j) && Grows(s, t)
    requires t.chains == s.chains[c := PromiseChain.SetStatus(s.chains[c], j, PromiseChain.Running)]
    requires t.suspended == s.suspended[(c, j) := at] && SuspendedOk(t, (c, j), at)
    ensures JobsOk(t)
  {
    hide SuspendedOk, Grows, ChainsOk, JobAt, RunningAt, MayRun;
    StatusChains(s, t, c, j, PromiseChain.Running);
    forall k | k in t.suspended ensures SuspendedOk(t, k, t.suspended[k]) {
      if k != (c, j) { SuspendedLater(s, t, k, t.suspended[k]); }
    }
  }

  lemma JobSettles(s: Router, t: Router, c: nat, j: nat)
    requires JobsOk(s) && MayRun(s, c, j) && Grows(s, t)
    requires t.chains == s.chains[c := PromiseChain.SetStatus(s.chains[c], j, PromiseChain.Settled)]
    requires t.suspended == s.suspended - {(c, j)}
    ensures JobsOk(t)
  {
    hide SuspendedOk, Grows, ChainsOk, JobAt, RunningAt, MayRun;
    StatusChains(s, t, c, j, PromiseChain.Settled);
    forall k | k in t.suspended ensures SuspendedOk(t, k, t.suspended[k]) { SuspendedLater(s, t, k, t.suspended[k]); }
  }

  /** The same operations run in both chains. */
  ghost predicate SameRuns(c: PromiseChain.Chain<Op>, d: PromiseChain.Chain<Op>) {
    && |c.jobs| <= |d.jobs|
    && (forall j :: 0 <= j < |c.jobs| ==>
        d.jobs[j].payload == c.jobs[j].payload && d.jobs[j].status == c.jobs[j].status)
    && (forall j :: |c.jobs| <= j < |d.jobs| ==> d.jobs[j].status.Waiting?)
  }

  lemma RunsElsewhere(s: Router, t: Router, c: nat, k: (nat, nat))
    requires SameRuns(ChainOf(s, c), ChainOf(t, c)) && t.chains == s.chains[c := ChainOf(t, c)]
    ensures RunningAt(t, k) == RunningAt(s, k)
    ensures RunningAt(s, k) ==> JobAt(t, k) == JobAt(s, k)
  {
  }

  /** A chain changes without any operation starting or settling. */
  lemma ChainKeeps(s: Router, t: Router, c: nat)
    requires JobsOk(s) && Grows(s, t) && t.suspended == s.suspended
    requires t.chains == s.chains[c := ChainOf(t, c)] && SameRuns(ChainOf(s, c), ChainOf(t, c))
    requires !t.close.Finished? ==> PromiseChain.Serial(ChainOf(t, c))
    ensures JobsOk(t)
  {
    GrowsClose(s, t);
    hide SuspendedOk, Grows, PromiseChain.Serial, SameRuns, JobAt, RunningAt;
    forall k ensures RunningAt(t, k) == RunningAt(s, k) { RunsElsewhere(s, t, c, k); }
    forall k | k in t.suspended ensures SuspendedOk(t, k, t.suspended[k]) {
      RunsElsewhere(s, t, c, k);
      SuspendedLater(s, t, k, t.suspended[k]);
    }
  }

  lemma SerialChain(s: Router, c: nat)
    requires JobsOk(s) && !s.close.Finished?
    ensures PromiseChain.Serial(ChainOf(s, c))
  {
    hide RunsOk;
    PromiseChain.EmptySerial<Op>();
  }

  lemma SubmitJobs(s: Router, c: nat, op: Op)
    requires JobsOk(s)
    ensures JobsOk(Submitted(s, c, op))
  {
    if !(op.Attach? && s.closing) {
      var t := Submitted(s, c, op);
      assert Grows(s, t);
      assert ChainOf(t, c) == PromiseChain.Submit(ChainOf(s, c), op) && t.chains == s.chains[c := ChainOf(t, c)];
      if !s.close.Finished? {
        SerialChain(s, c);
        PromiseChain.SubmitSerial(ChainOf(s, c), op);
      }
      assert SameRuns(ChainOf(s, c), ChainOf(t, c));
      assert t.suspended == s.suspended && t.close == s.close;
      hide *;
      ChainKeeps(s, t, c);
    }
  }

  lemma CleanUpJobs(s: Router, c: nat, j: nat)
    requires JobsOk(s) && c in s.chains && j < |s.chains[c].jobs| && s.chains[c].jobs[j].status.Settled?
    ensures JobsOk(WithChain(s, c, PromiseChain.Cleanup(s.chains[c], j)))
  {
    if !s.close.Finished? {
      SerialChain(s, c);
      PromiseChain.CleanupSerial(s.chains[c], j);
    }
    hide JobsOk, PromiseChain.Serial;
    ChainKeeps(s, WithChain(s, c, PromiseChain.Cleanup(s.chains[c], j)), c);
  }

  ghost predicate IndexOk(s: Router) {
    && (forall id :: id in s.hosted ==> s.hosted[id] < |s.sessions|)
    && (forall id :: id in s.opening ==> s.opening[id] < |s.opens|)
    && (forall o :: 0 <= o < |s.opens| && s.opens[o].status.Opened? ==> s.opens[o].status.session < |s.sessions|)
  }

  predicate NotInstalled(s: Router, at: Suspended) {
    at.AwaitingLease? ==>
      && at.attachment < |s.attachments| && !s.attachments[at.attachment].installed
      && (s.attachments[at.attachment].session !in s.disturbed && !s.closing ==>
          s.attachments[at.attachment].stage.Active?)
  }

  /**
   An attachment whose lease its creator still awaits has never been current; nor is it being released, unless its
   session is disturbed.
   */
  ghost predicate FenceOk(s: Router) {
    forall k :: k in s.suspended ==> NotInstalled(s, s.suspended[k])
  }

  // ---------------------------------------------------------------- no release under a running call

  predicate WaitsFor(at: Suspended, a: nat) {
    at == AwaitingRelease(a) || (at.AwaitingSwitch? && at.previous == a)
  }

  predicate Waits(suspended: map<(nat, nat), Suspended>, c: nat, a: nat) {
    exists k :: k in suspended && k.0 == c && WaitsFor(suspended[k], a)
  }

  predicate IsCurrent(s: Router, a: nat)
    requires a < |s.attachments|
  {
    s.attachments[a].client in s.byClient && s.byClient[s.attachments[a].client] == a
  }

  /**
   A release that has begun knows every call still running, and there is none once the lease is being
   released; while it is under way an operation of the client itself waits for it.
   */
  ghost predicate QuietAt(s: Router, a: nat)
    requires a < |s.attachments|
  {
    var x := s.attachments[a];
    && (x.stage.WaitingForCalls? ==> x.operations <= x.stage.calls)
    && ((x.stage.ReleasingLease? || Clearing(x)) && x.lease.Held? ==> x.operations == {})
    && (!s.closing && IsCurrent(s, a) && !x.stage.Active? ==> Waits(s.suspended, x.client, a))
  }

  ghost predicate QuietOk(s: Router) {
    forall a :: 0 <= a < |s.attachments| && s.attachments[a].session !in s.disturbed ==> QuietAt(s, a)
  }

  predicate WaitKept(s: Router, suspended: map<(nat, nat), Suspended>, k: (nat, nat))
    requires k in s.suspended
  {
    (k in suspended && suspended[k] == s.suspended[k])
    || !(s.suspended[k].AwaitingRelease? || s.suspended[k].AwaitingSwitch?)
    || IsOver(s, if s.suspended[k].AwaitingRelease? then s.suspended[k].attachment else s.suspended[k].previous)
  }

  lemma QuietKept(s: Router, t: Router, special: set<nat>)
    requires HoldingOk(s) && QuietOk(s) && s.disturbed <= t.disturbed && (s.closing ==> t.closing)
    requires |s.attachments| <= |t.attachments|
    requires forall b :: 0 <= b < |t.attachments| && b !in special ==>
               b < |s.attachments| && t.attachments[b] == s.attachments[b] && (IsCurrent(t, b) ==> IsCurrent(s, b))
    requires forall k :: k in s.suspended ==> WaitKept(s, t.suspended, k)
    requires forall b :: b in special && b < |t.attachments| && t.attachments[b].session !in t.disturbed ==>
      QuietAt(t, b)
    ensures QuietOk(t)
  {
    forall b: nat | b < |t.attachments| && t.attachments[b].session !in t.disturbed ensures QuietAt(t, b) {
      if b !in special {
        assert QuietAt(s, b);
        var x := s.attachments[b];
        if !t.closing && IsCurrent(t, b) && !x.stage.Active? {
          assert CurrentAt(s, x.client, b);
          var k :| k in s.suspended && k.0 == x.client && WaitsFor(s.suspended[k], b);
          assert WaitKept(s, t.suspended, k);
          assert k in t.suspended && WaitsFor(t.suspended[k], b);
        }
      }
    }
  }

  /** While the chain runs no other operation, the client's attachment is not being released. */
  lemma CurrentIsActive(s: Router, c: nat, j: nat)
    requires HoldingOk(s) && JobsOk(s) && QuietOk(s) && !s.closing && !s.close.Finished?
    requires c in s.chains && PromiseChain.CanStart(s.chains[c], j) && c in s.byClient
    requires s.byClient[c] < |s.attachments| && s.attachments[s.byClient[c]].session !in s.disturbed
    ensures s.attachments[s.byClient[c]].stage.Active?
  {
    var a := s.byClient[c];
    assert CurrentAt(s, c, a);
    assert QuietAt(s, a);
    if !s.attachments[a].stage.Active? {
      var k :| k in s.suspended && k.0 == c && WaitsFor(s.suspended[k], a);
      PromiseChain.OneAtATime(s.chains[c], k.1, j);
      assert false;
    }
  }
}
