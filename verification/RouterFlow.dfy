/** The operations of a client keep the router's invariant. */
module RouterFlow {
  import opened Common
  import P = PromiseChain
  import opened SessionRouter
  import opened RouterSafety

  ghost predicate FlowOk(s: Router) {
    && HoldingOk(s) && JobsOk(s) && IndexOk(s) && FenceOk(s) && QuietOk(s)
    && (s.close.NotBegun? || s.closing)
  }

  /** State `u` is `s` with operation `j` running and some of its work done, before it settles or suspends. */
  ghost predicate Carrying(s: Router, u: Router, c: nat, j: nat) {
    && MayRun(s, c, j)
    && u.chains == s.chains[c := P.SetStatus(s.chains[c], j, P.Running)]
    && u.suspended == s.suspended && Grows(s, u)
    && u.closing == s.closing && u.close == s.close && u.disturbed == s.disturbed
    && HoldingOk(u) && IndexOk(u)
  }

  /** Attachments outside `special` are as they were. */
  ghost predicate OnlyAt(s: Router, u: Router, special: set<nat>) {
    && |s.attachments| <= |u.attachments|
    && (forall b :: 0 <= b < |u.attachments| && b !in special ==>
          b < |s.attachments| && u.attachments[b] == s.attachments[b] && (IsCurrent(u, b) ==> IsCurrent(s, b)))
  }

  /** Only the operation's own attachment may become current for the first time, or be released before. */
  ghost predicate InstallsOwn(s: Router, u: Router, k: (nat, nat)) {
    && |s.attachments| <= |u.attachments|
    && (forall b :: 0 <= b < |s.attachments| ==>
          || (s.attachments[b].client, s.attachments[b].job) == k
          || (u.attachments[b].installed == s.attachments[b].installed &&
              u.attachments[b].session == s.attachments[b].session
              && (s.attachments[b].stage.Active? && !s.attachments[b].installed ==> u.attachments[b].stage.Active?)))
  }

  ghost predicate QuietAmong(t: Router, special: set<nat>) {
    forall b :: b in special && b < |t.attachments| && t.attachments[b].session !in t.disturbed ==> QuietAt(t, b)
  }

  /** The operation was waiting for nothing, or for what is over. */
  ghost predicate WaitOver(s: Router, k: (nat, nat)) {
    k in s.suspended ==> WaitKept(s, map[], k)
  }

  lemma SetTwice<T>(c: P.Chain<T>, j: nat, a: P.Status, b: P.Status)
    requires j < |c.jobs|
    ensures P.SetStatus(P.SetStatus(c, j, a), j, b) == P.SetStatus(c, j, b)
  {
    assert c.jobs[j := c.jobs[j].(status := a)][j := c.jobs[j].(status := b)] == c.jobs[j := c.jobs[j].(status := b)];
  }

  lemma MapTwice<K, V>(m: map<K, V>, k: K, a: V, b: V)
    ensures m[k := a][k := b] == m[k := b]
  {
  }

  lemma SettledShape(s: Router, u: Router, c: nat, j: nat)
    requires Carrying(s, u, c, j)
    ensures j < |ChainOf(u, c).jobs|
    ensures var t := Settle(u, c, j);
      && t.chains == s.chains[c := P.SetStatus(s.chains[c], j, P.Settled)]
      && t.suspended == s.suspended - {(c, j)}
      && t == u.(chains := t.chains, suspended := t.suspended)
  {
    hide HoldingOk, IndexOk, Grows;
    SetTwice(s.chains[c], j, P.Running, P.Settled);
    MapTwice(s.chains, c, P.SetStatus(s.chains[c], j, P.Running), P.SetStatus(s.chains[c], j, P.Settled));
  }

  lemma HoldingElsewhere(u: Router, t: Router)
    requires HoldingOk(u) && IndexOk(u)
    requires t == u.(chains := t.chains, suspended := t.suspended)
    ensures HoldingOk(t) && IndexOk(t)
  {
    SameHolding(u, t);
  }

  lemma GrowsElsewhere(s: Router, u: Router, t: Router)
    requires Grows(s, u) && t == u.(chains := t.chains, suspended := t.suspended)
    ensures Grows(s, t)
  {
  }

  lemma FenceKept(s: Router, t: Router, k: (nat, nat))
    requires FenceOk(s) && JobsOk(s) && InstallsOwn(s, t, k) && s.disturbed <= t.disturbed && (s.closing ==> t.closing)
    requires forall l :: l in t.suspended && l != k ==> l in s.suspended && t.suspended[l] == s.suspended[l]
    requires k in t.suspended ==> NotInstalled(t, t.suspended[k])
    ensures FenceOk(t)
  {
    hide PromiseChain.Serial;
    forall l | l in t.suspended && l != k ensures NotInstalled(t, t.suspended[l]) {
      assert NotInstalled(s, s.suspended[l]) && SuspendedOk(s, l, s.suspended[l]);
    }
  }

  lemma WaitsKept(s: Router, t: Router, k: (nat, nat))
    requires WaitOver(s, k) && forall l :: l in s.suspended && l != k ==>
      l in t.suspended && t.suspended[l] == s.suspended[l]
    ensures forall l :: l in s.suspended ==> WaitKept(s, t.suspended, l)
  {
  }

  lemma InstallsElsewhere(s: Router, u: Router, t: Router, k: (nat, nat))
    requires InstallsOwn(s, u, k) && t.attachments == u.attachments
    ensures InstallsOwn(s, t, k)
  {
  }

  lemma OnlyAtElsewhere(s: Router, u: Router, t: Router, special: set<nat>)
    requires OnlyAt(s, u, special) && t == u.(chains := t.chains, suspended := t.suspended)
    ensures OnlyAt(s, t, special)
  {
  }

  /** The operation settles. */
  lemma SettleKeeps(s: Router, u: Router, c: nat, j: nat, special: set<nat>)
    requires FlowOk(s) && Carrying(s, u, c, j) && OnlyAt(s, u, special)
    requires WaitOver(s, (c, j)) && InstallsOwn(s, u, (c, j))
    requires j < |ChainOf(u, c).jobs| && QuietAmong(Settle(u, c, j), special)
    ensures FlowOk(Settle(u, c, j))
  {
    var t := Settle(u, c, j);
    SettledShape(s, u, c, j);
    hide Settle, HoldingOk, IndexOk, QuietOk, JobsOk, FenceOk, QuietAt, MayRun, Grows;
    WaitsKept(s, t, (c, j));
    InstallsElsewhere(s, u, t, (c, j));
    OnlyAtElsewhere(s, u, t, special);
    HoldingElsewhere(u, t);
    GrowsElsewhere(s, u, t);
    JobSettles(s, t, c, j);
    FenceKept(s, t, (c, j));
    QuietKept(s, t, special);
  }

  /** The operation suspends, for the first time or again. */
  lemma SuspendKeeps(s: Router, u: Router, c: nat, j: nat, at: Suspended, special: set<nat>)
    requires FlowOk(s) && Carrying(s, u, c, j) && OnlyAt(s, u, special)
    requires WaitOver(s, (c, j)) && InstallsOwn(s, u, (c, j))
    requires SuspendedOk(u, (c, j), at) && NotInstalled(u, at)
    requires QuietAmong(Suspend(u, c, j, at), special)
    ensures FlowOk(Suspend(u, c, j, at))
  {
    var t := Suspend(u, c, j, at);
    hide HoldingOk, IndexOk, QuietOk, JobsOk, FenceOk, QuietAt, MayRun, Grows;
    WaitsKept(s, t, (c, j));
    InstallsElsewhere(s, u, t, (c, j));
    OnlyAtElsewhere(s, u, t, special);
    HoldingElsewhere(u, t);
    GrowsElsewhere(s, u, t);
    SuspendedElsewhere(u, t, (c, j), at);
    JobSuspends(s, t, c, j, at);
    NotInstalledElsewhere(u, t, at);
    FenceKept(s, t, (c, j));
    QuietKept(s, t, special);
  }

  lemma SuspendedElsewhere(u: Router, t: Router, k: (nat, nat), at: Suspended)
    requires SuspendedOk(u, k, at) && t == u.(suspended := t.suspended)
    ensures SuspendedOk(t, k, at)
  {
  }

  lemma NotInstalledElsewhere(u: Router, t: Router, at: Suspended)
    requires NotInstalled(u, at) && t == u.(suspended := t.suspended)
    ensures NotInstalled(t, at)
  {
  }

  // ---------------------------------------------------------------- parts of an operation

  lemma CarryStart(s: Router, c: nat, j: nat)
    requires FlowOk(s) && P.CanStart(ChainOf(s, c), j)
    ensures c in s.chains && Carrying(s, Turn(s, c, j), c, j) && WaitOver(s, (c, j))
  {
    hide PromiseChain.Serial, SuspendedOk, LeasesOk, CurrentOk;
    SameHolding(s, Turn(s, c, j));
  }

  lemma CarryRunning(s: Router, c: nat, j: nat)
    requires FlowOk(s) && (c, j) in s.suspended
    ensures c in s.chains && Carrying(s, s, c, j) && SuspendedOk(s, (c, j), s.suspended[(c, j)])
  {
    hide PromiseChain.Serial, SuspendedOk, LeasesOk, CurrentOk;
    assert P.SetStatus(s.chains[c], j, P.Running) == s.chains[c];
  }

  lemma CarryOn(s: Router, u: Router, v: Router, c: nat, j: nat)
    requires Carrying(s, u, c, j) && HoldingOk(v) && IndexOk(v) && Grows(u, v)
    requires v.chains == u.chains && v.suspended == u.suspended
    requires v.closing == u.closing && v.close == u.close && v.disturbed == u.disturbed
    ensures Carrying(s, v, c, j)
  {
    hide HoldingOk, IndexOk, MayRun;
  }

  /** Attachments an operation may release: former current ones, and its own. */
  predicate AllMine(u: Router, which: set<nat>, k: (nat, nat)) {
    forall a :: a in which && a < |u.attachments| ==>
      u.attachments[a].installed || (u.attachments[a].client, u.attachments[a].job) == k
  }

  lemma BeginOnly(s: Router, u: Router, which: set<nat>, publish: bool)
    requires OnlyAt(s, u, {})
    ensures OnlyAt(s, BeginAll(u, which, publish), which)
  {
    var v := BeginAll(u, which, publish);
    forall b: nat | b < |u.attachments| ensures b < |v.attachments| && IsCurrent(v, b) == IsCurrent(u, b) { }
    forall b | 0 <= b < |u.attachments| && b !in which ensures v.attachments[b] == u.attachments[b] { }
    hide BeginAll;
  }

  lemma CarryBegin(s: Router, u: Router, c: nat, j: nat, which: set<nat>, publish: bool)
    requires Carrying(s, u, c, j)
    ensures Carrying(s, BeginAll(u, which, publish), c, j)
    ensures InstallsOwn(s, u, (c, j)) && AllMine(u, which, (c, j)) ==>
      InstallsOwn(s, BeginAll(u, which, publish), (c, j))
    ensures OnlyAt(s, u, {}) ==> OnlyAt(s, BeginAll(u, which, publish), which)
  {
    if OnlyAt(s, u, {}) { BeginOnly(s, u, which, publish); }
    var v := BeginAll(u, which, publish);
    BeginHolding(u, which, publish);
    CarryOn(s, u, v, c, j);
    hide HoldingOk, IndexOk, Grows, MayRun;
  }

  /** Nothing done yet. */
  lemma Untouched(s: Router, u: Router, k: (nat, nat))
    requires u.attachments == s.attachments && u.byClient == s.byClient
    ensures OnlyAt(s, u, {}) && InstallsOwn(s, u, k)
  {
  }

  /** The operation begins a release and waits for it. */
  lemma BeginQuiet(s: Router, u: Router, c: nat, j: nat, a: nat, publish: bool, at: Suspended)
    requires HoldingOk(s) && QuietOk(s) && u.attachments == s.attachments && u.byClient == s.byClient
    requires u.closing == s.closing && u.disturbed == s.disturbed && u.suspended == s.suspended
    requires a < |s.attachments|
    requires (WaitsFor(at, a) && s.attachments[a].client == c) || !IsCurrent(s, a)
    ensures QuietAmong(Suspend(BeginAll(u, {a}, publish), c, j, at), {a})
  {
    hide HoldingOk;
    var t := Suspend(BeginAll(u, {a}, publish), c, j, at);
    if s.attachments[a].session !in s.disturbed {
      assert QuietAt(s, a);
      assert (c, j) in t.suspended && t.suspended[(c, j)] == at;
    }
  }

  // ---------------------------------------------------------------- a turn begins

  lemma CurrentOwned(s: Router, c: nat)
    requires HoldingOk(s) && c in s.byClient
    ensures WasCurrent(s, s.byClient[c], c)
  {
    assert CurrentAt(s, c, s.byClient[c]);
  }

  lemma CallKeeps(s: Router, c: nat, j: nat, target: Target)
    requires FlowOk(s) && P.CanStart(ChainOf(s, c), j)
    ensures j < |ChainOf(Admit(Turn(s, c, j), c, target), c).jobs|
    ensures FlowOk(Settle(Admit(Turn(s, c, j), c, target), c, j))
  {
    hide FlowOk, Settle, Carrying;
    var u := Turn(s, c, j);
    CarryStart(s, c, j);
    AdmitCarries(s, u, c, j, target);
    var v := Admit(u, c, target);
    if Accepted(u, c, target).None? {
      Untouched(s, u, (c, j));
      SettleKeeps(s, v, c, j, {});
    } else {
      AdmitQuiet(s, c, j, target);
      SettleKeeps(s, v, c, j, {s.byClient[c]});
    }
  }

  lemma AdmitCarries(s: Router, u: Router, c: nat, j: nat, target: Target)
    requires Carrying(s, u, c, j)
    ensures Carrying(s, Admit(u, c, target), c, j)
    ensures j < |ChainOf(Admit(u, c, target), c).jobs|
  {
    hide LeaseOk;
    if Accepted(u, c, target).Some? {
      var a := u.byClient[c];
      var x := u.attachments[a];
      var y := x.(operations := x.operations + {|u.admitted|});
      LeaseElsewhere(x, y, InSet(u, a));
      ChangeHolding(u, a, y);
      SameHolding(WithAttachment(u, a, y), Admit(u, c, target));
      CarryOn(s, u, Admit(u, c, target), c, j);
    }
  }

  lemma LeaseElsewhere(x: Attachment, y: Attachment, inSet: bool)
    requires y == x.(operations := y.operations)
    ensures LeaseOk(x, inSet) == LeaseOk(y, inSet)
  {
  }

  lemma AdmitQuiet(s: Router, c: nat, j: nat, target: Target)
    requires FlowOk(s) && P.CanStart(ChainOf(s, c), j) && c in s.chains
    requires Accepted(Turn(s, c, j), c, target).Some?
    ensures var v := Admit(Turn(s, c, j), c, target);
      && OnlyAt(s, v, {s.byClient[c]}) && InstallsOwn(s, v, (c, j))
      && j < |ChainOf(v, c).jobs| && QuietAmong(Settle(v, c, j), {s.byClient[c]})
  {
    var a := s.byClient[c];
    if s.attachments[a].session !in s.disturbed { CurrentIsActive(s, c, j); }
    hide HoldingOk, JobsOk, QuietOk, IndexOk, FenceOk;
  }

  lemma TurnShape(s: Router, c: nat, j: nat)
    requires P.CanStart(ChainOf(s, c), j)
    ensures var u := Turn(s, c, j);
      && u == s.(chains := u.chains) && j < |ChainOf(u, c).jobs|
      && JobAt(u, (c, j)) == Some(ChainOf(s, c).jobs[j].payload)
      && ChainOf(u, c).jobs[j].payload == ChainOf(s, c).jobs[j].payload
  {
  }

  lemma StartSuspended(s: Router, u: Router, c: nat, j: nat, op: Op)
    requires HoldingOk(s) && JobAt(u, (c, j)) == Some(op) && u.attachments == s.attachments && u.sessions == s.sessions
    ensures forall h: nat :: h < |u.sessions| && op.Attach? ==>
      SuspendedOk(u, (c, j), AwaitingHosted(h, CurrentOf(s, c)))
    ensures forall o: nat :: o < |u.opens| && op.Attach? ==> SuspendedOk(u, (c, j), AwaitingOpen(o, CurrentOf(s, c)))
    ensures c in s.byClient && !op.Attach? ==> SuspendedOk(u, (c, j), AwaitingRelease(s.byClient[c]))
  {
    hide HoldingOk;
    if c in s.byClient { CurrentOwned(s, c); }
  }

  lemma OpeningCarries(s: Router, u: Router, c: nat, j: nat, id: nat)
    requires Carrying(s, u, c, j)
    ensures Carrying(s, EnsureOpen(u, id), c, j)
  {
    hide LeasesOk, CurrentOk;
    var v := EnsureOpen(u, id);
    SameHolding(u, v);
    CarryOn(s, u, v, c, j);
  }

  lemma EnsureOpenShape(u: Router, id: nat)
    ensures var v := EnsureOpen(u, id);
      && v == u.(opens := v.opens, opening := v.opening)
      && (id in u.hosted || id in v.opening)
  {
  }

  lemma AttachKeeps(s: Router, c: nat, j: nat, id: nat)
    requires FlowOk(s) && P.CanStart(ChainOf(s, c), j) && ChainOf(s, c).jobs[j].payload == Attach(id)
    ensures FlowOk(Acquire(Turn(s, c, j), c, j, id))
  {
    var u := Turn(s, c, j);
    var v := EnsureOpen(u, id);
    CarryStart(s, c, j);
    TurnShape(s, c, j);
    OpeningCarries(s, u, c, j, id);
    EnsureOpenShape(u, id);
    Untouched(s, v, (c, j));
    StartSuspended(s, v, c, j, Attach(id));
    CarriedIndex(s, v, c, j);
    hide FlowOk, Carrying, InstallsOwn, OnlyAt, SuspendedOk, Turn, WaitOver, IndexOk, EnsureOpen;
    if id in u.hosted {
      SuspendKeeps(s, v, c, j, AwaitingHosted(v.hosted[id], CurrentOf(s, c)), {});
    } else {
      SuspendKeeps(s, v, c, j, AwaitingOpen(v.opening[id], CurrentOf(s, c)), {});
    }
  }

  lemma CarriedIndex(s: Router, v: Router, c: nat, j: nat)
    requires Carrying(s, v, c, j)
    ensures forall id :: id in v.hosted ==> v.hosted[id] < |v.sessions|
    ensures forall id :: id in v.opening ==> v.opening[id] < |v.opens|
  {
    hide HoldingOk, Grows;
  }

  lemma EndKeeps(s: Router, c: nat, j: nat, publish: bool)
    requires FlowOk(s) && P.CanStart(ChainOf(s, c), j) && !ChainOf(s, c).jobs[j].payload.Attach? && c in s.byClient
    ensures FlowOk(Suspend(BeginAll(Turn(s, c, j), {s.byClient[c]}, publish), c, j, AwaitingRelease(s.byClient[c])))
  {
    var u := Turn(s, c, j);
    var a := s.byClient[c];
    CarryStart(s, c, j);
    TurnShape(s, c, j);
    CurrentOwned(s, c);
    Untouched(s, u, (c, j));
    StartSuspended(s, u, c, j, ChainOf(s, c).jobs[j].payload);
    CarryBegin(s, u, c, j, {a}, publish);
    BeginQuiet(s, u, c, j, a, publish, AwaitingRelease(a));
    BegunSuspended(u, {a}, publish, (c, j), AwaitingRelease(a));
    hide FlowOk, Carrying, InstallsOwn, OnlyAt, SuspendedOk, Turn, WaitOver, BeginAll, QuietAmong;
    SuspendKeeps(s, BeginAll(u, {a}, publish), c, j, AwaitingRelease(a), {a});
  }

  lemma BegunSuspended(u: Router, which: set<nat>, publish: bool, k: (nat, nat), at: Suspended)
    requires SuspendedOk(u, k, at)
    ensures SuspendedOk(BeginAll(u, which, publish), k, at)
  {
  }

  lemma BegunKeeps(s: Router, c: nat, j: nat)
    requires FlowOk(s) && P.CanStart(ChainOf(s, c), j)
    ensures j < |ChainOf(Turn(s, c, j), c).jobs|
    ensures FlowOk(Begun(Turn(s, c, j), c, j))
  {
    var u := Turn(s, c, j);
    CarryStart(s, c, j);
    TurnShape(s, c, j);
    Untouched(s, u, (c, j));
    hide FlowOk, Carrying, Settle, Acquire, Admit, InstallsOwn, OnlyAt, WaitOver, BeginAll, Turn, ChainOf, Suspend,
        P.SetStatus, P.CanStart;
    match ChainOf(u, c).jobs[j].payload
    case Call(target) => CallKeeps(s, c, j, target);
    case Attach(id) =>
      AttachKeeps(s, c, j, id);
      SettleKeeps(s, u, c, j, {});
    case Detach => if c in s.byClient { EndKeeps(s, c, j, true); } else { SettleKeeps(s, u, c, j, {}); }
    case Leave => if c in s.byClient { EndKeeps(s, c, j, false); } else { SettleKeeps(s, u, c, j, {}); }
  }

  /** An operation whose turn has come. */
  lemma StartKeeps(s: Router, c: nat, j: nat)
    requires FlowOk(s)
    ensures FlowOk(Step(s, Start(c, j)))
  {
    hide FlowOk, Begun, Turn;
    if P.CanStart(ChainOf(s, c), j) { BegunKeeps(s, c, j); }
  }

  // ---------------------------------------------------------------- an operation goes on

  lemma NewAttachment(s: Router, c: nat, j: nat, session: nat)
    requires FlowOk(s) && (c, j) in s.suspended && session < |s.sessions| &&
      s.suspended[(c, j)].AwaitingRelease? == false
    ensures var u := Created(s, c, j, session); var at := AwaitingLease(|s.attachments|);
      && Carrying(s, u, c, j) && OnlyAt(s, u, {|s.attachments|}) && InstallsOwn(s, u, (c, j))
      && SuspendedOk(u, (c, j), at) && NotInstalled(u, at)
      && QuietAmong(Suspend(u, c, j, at), {|s.attachments|})
  {
    CarryRunning(s, c, j);
    CreateHolding(s, c, j, session);
    hide JobsOk, QuietOk, FenceOk, LeasesOk, PromiseChain.Serial;
    var u := Created(s, c, j, session);
    assert IndexOk(u);
    CarryOn(s, s, u, c, j);
    hide Carrying;
    forall x | x in s.byClient ensures s.byClient[x] < |s.attachments| { assert CurrentAt(s, x, s.byClient[x]); }
  }

  lemma CreateKeeps(s: Router, c: nat, j: nat, session: nat)
    requires FlowOk(s) && (c, j) in s.suspended && session < |s.sessions| &&
      s.suspended[(c, j)].AwaitingRelease? == false
    requires WaitOver(s, (c, j))
    ensures FlowOk(CreateAttachment(s, c, j, session))
  {
    NewAttachment(s, c, j, session);
    hide FlowOk, Carrying, OnlyAt, InstallsOwn, SuspendedOk, WaitOver, QuietAmong, Created, NotInstalled;
    SuspendKeeps(s, Created(s, c, j, session), c, j, AwaitingLease(|s.attachments|), {|s.attachments|});
  }

  lemma EndsNow(s: Router, c: nat, j: nat)
    requires FlowOk(s) && (c, j) in s.suspended && WaitOver(s, (c, j))
    ensures j < |ChainOf(s, c).jobs| && FlowOk(Settle(s, c, j))
  {
    CarryRunning(s, c, j);
    Untouched(s, s, (c, j));
    RunningJob(s, c, j);
    hide FlowOk, Carrying, InstallsOwn, OnlyAt, Settle, WaitOver, ChainOf;
    SettleKeeps(s, s, c, j, {});
  }

  lemma RunningJob(s: Router, c: nat, j: nat)
    requires FlowOk(s) && (c, j) in s.suspended
    ensures j < |ChainOf(s, c).jobs|
  {
    hide HoldingOk, IndexOk, FenceOk, QuietOk, SuspendedOk, PromiseChain.Serial;
  }

  /** The operation begins to release `a` and waits for it. */
  lemma ReleaseKeeps(s: Router, c: nat, j: nat, a: nat, publish: bool, at: Suspended)
    requires FlowOk(s) && (c, j) in s.suspended && WaitOver(s, (c, j)) && a < |s.attachments|
    requires SuspendedOk(s, (c, j), at) && !at.AwaitingLease? && AllMine(s, {a}, (c, j))
    requires (WaitsFor(at, a) && s.attachments[a].client == c) || !IsCurrent(s, a)
    ensures FlowOk(Suspend(BeginAll(s, {a}, publish), c, j, at))
  {
    CarryRunning(s, c, j);
    Untouched(s, s, (c, j));
    CarryBegin(s, s, c, j, {a}, publish);
    BeginQuiet(s, s, c, j, a, publish, at);
    BegunSuspended(s, {a}, publish, (c, j), at);
    hide FlowOk, Carrying, InstallsOwn, OnlyAt, WaitOver, QuietAmong, BeginAll, SuspendedOk;
    SuspendKeeps(s, BeginAll(s, {a}, publish), c, j, at, {a});
  }

  lemma AcquiredKeeps(s: Router, c: nat, j: nat, session: nat, current: Option<nat>)
    requires FlowOk(s) && (c, j) in s.suspended && j < |ChainOf(s, c).jobs|
    requires s.suspended[(c, j)].AwaitingOpen? || s.suspended[(c, j)] == AwaitingHosted(session, current)
    requires s.suspended[(c, j)].AwaitingOpen? ==> s.suspended[(c, j)].current == current
    ensures FlowOk(Acquired(s, c, j, session, current))
  {
    CarryRunning(s, c, j);
    hide FlowOk, Carrying, Settle, CreateAttachment, BeginAll;
    if Barred(s, c) || session >= |s.sessions| {
      EndsNow(s, c, j);
    } else if current.Some? {
      ReleaseKeeps(s, c, j, current.value, false, AwaitingSwitch(session, current.value));
    } else {
      CreateKeeps(s, c, j, session);
    }
  }

  lemma NeverCurrent(s: Router, c: nat, j: nat)
    requires FlowOk(s) && (c, j) in s.suspended && s.suspended[(c, j)].AwaitingLease?
    ensures var a := s.suspended[(c, j)].attachment;
      && a < |s.attachments| && !s.attachments[a].installed && !IsCurrent(s, a)
      && s.attachments[a].client == c && s.attachments[a].job == j
  {
    CarryRunning(s, c, j);
    hide HoldingOk, JobsOk, IndexOk, QuietOk, Carrying;
    var a := s.suspended[(c, j)].attachment;
    assert NotInstalled(s, s.suspended[(c, j)]);
    CurrentInstalled(s, a);
  }

  lemma CurrentInstalled(s: Router, a: nat)
    requires HoldingOk(s) && a < |s.attachments|
    ensures IsCurrent(s, a) ==> s.attachments[a].installed
  {
  }

  /** A refused lease: the attachment leaves the set, and the operation fails. */
  lemma RefusedKeeps(s: Router, c: nat, j: nat, a: nat)
    requires FlowOk(s) && s.suspended == s.suspended[(c, j) := AwaitingLease(a)] && a < |s.attachments| &&
      s.attachments[a].lease.Refused?
    ensures j < |ChainOf(Leaves(s, s.attachments[a].session, a), c).jobs|
    ensures FlowOk(Settle(Leaves(s, s.attachments[a].session, a), c, j))
  {
    var u := Leaves(s, s.attachments[a].session, a);
    assert (c, j) in s.suspended;
    CarryRunning(s, c, j);
    RunningJob(s, c, j);
    RefusedHolding(s, a);
    RefusedShape(s, a);
    hide Leaves, HoldingOk, JobsOk, QuietOk, FenceOk;
    CarryOn(s, s, u, c, j);
    Untouched(s, u, (c, j));
    hide FlowOk, Carrying, IndexOk, InstallsOwn, OnlyAt, Settle;
    SettleKeeps(s, u, c, j, {});
  }

  lemma RefusedShape(s: Router, a: nat)
    requires IndexOk(s) && a < |s.attachments|
    ensures var u := Leaves(s, s.attachments[a].session, a);
      u == s.(sessions := u.sessions) && |u.sessions| == |s.sessions| && IndexOk(u)
  {
  }

  lemma InstallKeeps(s: Router, c: nat, j: nat, a: nat)
    requires FlowOk(s) && s.suspended == s.suspended[(c, j) := AwaitingLease(a)] && a < |s.attachments| &&
      s.attachments[a].lease.Held?
    requires Usable(s, c, a)
    ensures FlowOk(Suspend(WithAttachment(s, a, s.attachments[a].(installed := true)).(byClient := s.byClient[c := a]),
      c, j, AwaitingNotice(a)))
  {
    assert (c, j) in s.suspended;
    NeverCurrent(s, c, j);
    CarryRunning(s, c, j);
    UsableNotClearing(s, c, a);
    InstallHolding(s, c, a);
    InstallShape(s, c, j, a);
    var u := WithAttachment(s, a, s.attachments[a].(installed := true)).(byClient := s.byClient[c := a]);
    CarryOn(s, s, u, c, j);
    hide FlowOk, Carrying, InstallsOwn, OnlyAt, SuspendedOk, QuietAmong, WithAttachment, Usable;
    SuspendKeeps(s, u, c, j, AwaitingNotice(a), {a});
  }

  lemma UsableNotClearing(s: Router, c: nat, a: nat)
    requires HoldingOk(s) && a < |s.attachments| && Usable(s, c, a)
    ensures !Clearing(s.attachments[a])
  {
    assert LeaseOk(s.attachments[a], InSet(s, a));
  }

  lemma InstallShape(s: Router, c: nat, j: nat, a: nat)
    requires FlowOk(s) && s.suspended == s.suspended[(c, j) := AwaitingLease(a)] && a < |s.attachments| &&
      Usable(s, c, a)
    requires !s.attachments[a].installed && s.attachments[a].client == c && s.attachments[a].job == j
    ensures var u := WithAttachment(s, a, s.attachments[a].(installed := true)).(byClient := s.byClient[c := a]);
      var at := AwaitingNotice(a);
      && OnlyAt(s, u, {a}) && InstallsOwn(s, u, (c, j)) && SuspendedOk(u, (c, j), at)
      && Grows(s, u) && IndexOk(u) && QuietAmong(Suspend(u, c, j, at), {a})
  {
    assert (c, j) in s.suspended;
    CarryRunning(s, c, j);
    assert NotInstalled(s, s.suspended[(c, j)]);
    hide HoldingOk, JobsOk, QuietOk, FenceOk, Carrying;
  }

  lemma UndoKeeps(s: Router, c: nat, j: nat, a: nat)
    requires FlowOk(s) && s.suspended == s.suspended[(c, j) := AwaitingLease(a)] && a < |s.attachments|
    ensures FlowOk(Suspend(BeginAll(s, {a}, true), c, j, AwaitingUndo(a)))
  {
    assert (c, j) in s.suspended;
    NeverCurrent(s, c, j);
    CarryRunning(s, c, j);
    hide FlowOk, Carrying, BeginAll;
    ReleaseKeeps(s, c, j, a, true, AwaitingUndo(a));
  }

  lemma SamePlace(s: Router, k: (nat, nat))
    requires k in s.suspended
    ensures s.suspended == s.suspended[k := s.suspended[k]]
  {
  }

  lemma LeasedKeeps(s: Router, c: nat, j: nat, a: nat)
    requires FlowOk(s) && (c, j) in s.suspended && s.suspended[(c, j)] == AwaitingLease(a) && a < |s.attachments| &&
      j < |ChainOf(s, c).jobs|
    ensures FlowOk(Leased(s, c, j, a))
  {
    SamePlace(s, (c, j));
    hide FlowOk, Settle, Leaves, BeginAll, Suspend, WithAttachment, Usable, ChainOf;
    match s.attachments[a].lease
    case Pending =>
    case Refused => RefusedKeeps(s, c, j, a);
    case Held => if Usable(s, c, a) { InstallKeeps(s, c, j, a); } else { UndoKeeps(s, c, j, a); }
  }

  lemma ContinuedKeeps(s: Router, c: nat, j: nat, ok: bool)
    requires FlowOk(s) && j < |ChainOf(s, c).jobs| && (c, j) in s.suspended
    ensures FlowOk(Continued(s, c, j, ok))
  {
    hide FlowOk, Settle, Acquired, CreateAttachment, Leased, ChainOf;
    match s.suspended[(c, j)]
    case AwaitingOpen(o, current) =>
      EndsNow(s, c, j);
      if o < |s.opens| && s.opens[o].status.Opened? { AcquiredKeeps(s, c, j, s.opens[o].status.session, current); }
    case AwaitingHosted(session, current) => AcquiredKeeps(s, c, j, session, current);
    case AwaitingSwitch(session, previous) =>
      if IsOver(s, previous) {
        EndsNow(s, c, j);
        if session < |s.sessions| { CreateKeeps(s, c, j, session); }
      }
    case AwaitingLease(a) => if a < |s.attachments| { LeasedKeeps(s, c, j, a); }
    case AwaitingUndo(a) => if IsOver(s, a) { EndsNow(s, c, j); }
    case AwaitingNotice(_) => EndsNow(s, c, j);
    case AwaitingRelease(a) => if IsOver(s, a) { EndsNow(s, c, j); }
  }

  /** A suspended operation. */
  lemma ContinueKeeps(s: Router, c: nat, j: nat, ok: bool)
    requires FlowOk(s)
    ensures FlowOk(Step(s, Continue(c, j, ok)))
  {
    hide FlowOk, Continued, ChainOf;
    if j < |ChainOf(s, c).jobs| && (c, j) in s.suspended { ContinuedKeeps(s, c, j, ok); }
  }
}
