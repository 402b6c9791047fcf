/** The order of a client's operations over whole runs, shutdown and what comes after it included. */
module RouterOrder {
  import opened Common
  import P = PromiseChain
  import opened SessionRouter
  import opened RouterSafety
  import opened RouterFlow
  import opened RouterSteps
  import opened RouterTheorems

  predicate SettledBefore(c: P.Chain<Op>, j: nat) {
    forall i :: 0 <= i < j && i < |c.jobs| ==> c.jobs[i].status == P.Settled
  }

  /** No operation has begun before all earlier ones had settled. */
  predicate InOrder(c: P.Chain<Op>) {
    forall j :: 0 <= j < |c.jobs| && c.jobs[j].status != P.Waiting ==> SettledBefore(c, j)
  }

  /** An operation waits for the one before it or for none. */
  predicate Linked(c: P.Chain<Op>) {
    && (c.tail.Some? ==> c.tail.value + 1 == |c.jobs|)
    && (forall j :: 0 <= j < |c.jobs| && c.jobs[j].previous.Some? ==> c.jobs[j].previous.value + 1 == j)
  }

  // ---------------------------------------------------------------- what a step does to a chain

  /** Running operations settle, and the tail may be forgotten. */
  predicate Settles(c: P.Chain<Op>, d: P.Chain<Op>) {
    && |d.jobs| == |c.jobs| && (d.tail == c.tail || d.tail.None?)
    && forall i :: 0 <= i < |c.jobs| ==>
         && d.jobs[i].previous == c.jobs[i].previous && d.jobs[i].payload == c.jobs[i].payload
         && (d.jobs[i].status == c.jobs[i].status || (c.jobs[i].status == P.Running && d.jobs[i].status == P.Settled))
  }

  /** Operation `j` begins. */
  predicate Begins(c: P.Chain<Op>, d: P.Chain<Op>, j: nat) {
    && j < |c.jobs| == |d.jobs| && d.tail == c.tail
    && (forall i :: 0 <= i < |c.jobs| && i != j ==> d.jobs[i] == c.jobs[i])
    && d.jobs[j].previous == c.jobs[j].previous && d.jobs[j].status != P.Waiting
  }

  lemma SettlesItself(c: P.Chain<Op>)
    ensures Settles(c, c)
  {
  }

  lemma SameChain(s: Router, t: Router, c: nat)
    requires t.chains == s.chains
    ensures Settles(ChainOf(s, c), ChainOf(t, c))
  {
  }

  /** Nothing but, perhaps, the settling of one operation. */
  predicate AtMostSettles(s: Router, t: Router, c: nat, j: nat) {
    t.chains == s.chains || (j < |ChainOf(s, c).jobs| && t.chains == Settle(s, c, j).chains)
  }

  lemma BeginSame(s: Router)
    ensures forall which, publish :: BeginAll(s, which, publish).chains == s.chains
  {
  }

  lemma AdmitSame(s: Router, c: nat, target: Target)
    ensures Admit(s, c, target).chains == s.chains
  {
  }

  lemma LeavesSame(s: Router, h: nat, a: nat)
    ensures Leaves(s, h, a).chains == s.chains
  {
  }

  lemma CreateSame(s: Router, c: nat, j: nat, h: nat)
    requires h < |s.sessions|
    ensures CreateAttachment(s, c, j, h).chains == s.chains
  {
  }

  lemma SettleSame(s: Router, t: Router, c: nat, j: nat)
    requires t.chains == s.chains && j < |ChainOf(s, c).jobs|
    ensures j < |ChainOf(t, c).jobs| && Settle(t, c, j).chains == Settle(s, c, j).chains
  {
  }

  lemma CallSettles(s: Router, c: nat, j: nat)
    requires j < |ChainOf(s, c).jobs| && ChainOf(s, c).jobs[j].payload.Call?
    ensures AtMostSettles(s, Begun(s, c, j), c, j)
  {
    var target := ChainOf(s, c).jobs[j].payload.target;
    AdmitSame(s, c, target);
    SettleSame(s, Admit(s, c, target), c, j);
    hide Admit, Settle;
  }

  lemma AttachSettles(s: Router, c: nat, j: nat)
    requires j < |ChainOf(s, c).jobs| && ChainOf(s, c).jobs[j].payload.Attach?
    ensures AtMostSettles(s, Begun(s, c, j), c, j)
  {
    hide Settle, Barred, SessionIdOf, CurrentOf;
  }

  lemma BegunSettles(s: Router, c: nat, j: nat)
    requires j < |ChainOf(s, c).jobs|
    ensures AtMostSettles(s, Begun(s, c, j), c, j)
  {
    match ChainOf(s, c).jobs[j].payload
    case Call(_) => CallSettles(s, c, j);
    case Attach(_) => AttachSettles(s, c, j);
    case _ =>
      BeginSame(s);
      hide BeginAll, Admit, Settle, Acquire;
  }

  lemma AcquiredSettles(s: Router, c: nat, j: nat, h: nat, current: Option<nat>)
    requires j < |ChainOf(s, c).jobs|
    ensures AtMostSettles(s, Acquired(s, c, j, h, current), c, j)
  {
    BeginSame(s);
    if h < |s.sessions| { CreateSame(s, c, j, h); }
    hide BeginAll, Settle, CreateAttachment, Barred;
  }

  lemma LeasedSettles(s: Router, c: nat, j: nat, a: nat)
    requires a < |s.attachments| && j < |ChainOf(s, c).jobs|
    ensures AtMostSettles(s, Leased(s, c, j, a), c, j)
  {
    BeginSame(s);
    LeavesSame(s, s.attachments[a].session, a);
    SettleSame(s, Leaves(s, s.attachments[a].session, a), c, j);
    hide BeginAll, Settle, Leaves, Usable;
  }

  lemma ContinuedSettles(s: Router, c: nat, j: nat, ok: bool)
    requires j < |ChainOf(s, c).jobs| && (c, j) in s.suspended
    ensures AtMostSettles(s, Continued(s, c, j, ok), c, j)
  {
    match s.suspended[(c, j)]
    case AwaitingOpen(o, current) =>
      if o < |s.opens| && s.opens[o].status.Opened? { AcquiredSettles(s, c, j, s.opens[o].status.session, current); }
      hide Settle, Acquired;
    case AwaitingHosted(session, current) =>
      AcquiredSettles(s, c, j, session, current);
      hide Settle, Acquired;
    case AwaitingSwitch(session, _) =>
      if session < |s.sessions| { CreateSame(s, c, j, session); }
      hide Settle, CreateAttachment;
    case AwaitingLease(a) =>
      if a < |s.attachments| { LeasedSettles(s, c, j, a); }
      hide Settle, Leased;
    case _ =>
      hide Settle;
  }

  /** Settling a running operation, seen from any client's chain. */
  lemma SettledChain(s: Router, t: Router, c: nat, j: nat, other: nat)
    requires AtMostSettles(s, t, c, j) && (j < |ChainOf(s, c).jobs| ==> ChainOf(s, c).jobs[j].status == P.Running)
    ensures Settles(ChainOf(s, other), ChainOf(t, other))
  {
    if t.chains == s.chains { SameChain(s, t, other); } else { SettledOther(s, t, c, j, other); }
  }

  lemma SettledOther(s: Router, t: Router, c: nat, j: nat, other: nat)
    requires j < |ChainOf(s, c).jobs| && t.chains == Settle(s, c, j).chains && ChainOf(s, c).jobs[j].status == P.Running
    ensures Settles(ChainOf(s, other), ChainOf(t, other))
  {
    assert Settle(s, c, j).chains == s.chains[c := P.SetStatus(ChainOf(s, c), j, P.Settled)];
  }

  lemma StartBegins(s: Router, c: nat, j: nat)
    requires P.CanStart(ChainOf(s, c), j)
    ensures Begins(ChainOf(s, c), ChainOf(Step(s, Start(c, j)), c), j)
    ensures forall other :: other != c ==> ChainOf(Step(s, Start(c, j)), other) == ChainOf(s, other)
  {
    var u := Turn(s, c, j);
    assert u.chains == s.chains[c := P.SetStatus(ChainOf(s, c), j, P.Running)];
    BegunSettles(u, c, j);
    var t := Begun(u, c, j);
    hide Begun, Turn;
    if t.chains != u.chains { assert t.chains == u.chains[c := P.SetStatus(ChainOf(u, c), j, P.Settled)]; }
  }

  lemma ContinueChains(s: Router, c: nat, j: nat, ok: bool, other: nat)
    requires FlowOk(s)
    ensures Settles(ChainOf(s, other), ChainOf(Step(s, Continue(c, j, ok)), other))
  {
    SettlesItself(ChainOf(s, other));
    if j < |ChainOf(s, c).jobs| && (c, j) in s.suspended {
      SuspendedRuns(s, c, j);
      ContinuedSettles(s, c, j, ok);
      hide FlowOk, Continued;
      SettledChain(s, Continued(s, c, j, ok), c, j, other);
    }
  }

  lemma SuspendedRuns(s: Router, c: nat, j: nat)
    requires FlowOk(s) && (c, j) in s.suspended && j < |ChainOf(s, c).jobs|
    ensures ChainOf(s, c).jobs[j].status == P.Running
  {
    hide HoldingOk, IndexOk, FenceOk, QuietOk, ChainsOk, SuspendedOk;
    assert RunningAt(s, (c, j));
  }

  lemma SubmitChains(s: Router, c: nat, op: Op, other: nat)
    ensures var d := ChainOf(Step(s, Action.Submit(c, op)), other);
      d == ChainOf(s, other) || (other == c && d == P.Submit(ChainOf(s, c), op))
  {
    hide P.Submit;
  }

  lemma CleanUpChains(s: Router, c: nat, j: nat, other: nat)
    ensures Settles(ChainOf(s, other), ChainOf(Step(s, CleanUp(c, j)), other))
  {
    SettlesItself(ChainOf(s, other));
  }

  lemma ClearSame(s: Router, a: nat)
    requires a < |s.attachments|
    ensures Clear(s, a).chains == s.chains
  {
    LeavesSame(s, s.attachments[a].session, a);
    hide Leaves;
  }

  /** Steps of one attachment or one session leave all chains alone. */
  lemma OthersSame(s: Router, a: Action)
    requires a.CallSettled? || a.LeaseAnswered? || a.ReleaseLease? || a.LeaseReleased? || a.NoticeSent?
    ensures Step(s, a).chains == s.chains
  {
    if a.ReleaseLease? && a.attachment < |s.attachments| { ClearSame(s, a.attachment); }
    if a.LeaseReleased? && a.attachment < |s.attachments| { ClearSame(s, a.attachment); }
    hide Clear;
  }

  lemma OpenSame(s: Router, o: nat, id: Option<nat>)
    requires o < |s.opens|
    ensures OpenEnds(s, o, id).chains == s.chains
  {
  }

  lemma UnhostSame(s: Router, h: nat)
    ensures Unhost(s, h).chains == s.chains
  {
  }

  lemma EndedSame(s: Router, h: nat)
    ensures Invalidate(s, h).chains == s.chains
  {
    BeginSame(Unhost(s, h));
    hide BeginAll;
  }

  lemma RemovalSame(s: Router, id: nat)
    ensures BeginRemoval(s, id).chains == s.chains
  {
    BeginSame(s);
    hide BeginAll;
  }

  lemma SessionsSame(s: Router, a: Action)
    requires a.OpenSettled? || a.ForgetOpen? || a.Terminated? || a.RemoveSession? || a.FinishRemoval? ||
      a.ForgetLeaving? || a.StopAccepting?
    ensures Step(s, a).chains == s.chains
  {
    if a.Terminated? { EndedSame(s, a.hosted); }
    if a.RemoveSession? { RemovalSame(s, a.session); }
    if a.OpenSettled? && a.open < |s.opens| { OpenSame(s, a.open, a.resolved); }
    if a.FinishRemoval? && a.removal < |s.removals| { UnhostSame(s, s.removals[a.removal].0); }
    hide Invalidate, BeginRemoval, OpenEnds, Unhost, AllOver;
  }

  lemma ClosesSettle(s: Router, a: Action, c: nat)
    requires a.BeginClose? || a.Drained? || a.Emptied? || a.HandlesClosed?
    ensures Settles(ChainOf(s, c), ChainOf(CloseStep(s, a), c))
  {
    BeginSame(s);
    SettlesItself(ChainOf(s, c));
    hide Tails, AllSettled, AllOpened, AttachmentsOf, AllOver, BeginAll;
  }

  lemma CloseChains(s: Router, a: Action, c: nat)
    requires a.BeginClose? || a.Drained? || a.Emptied? || a.HandlesClosed?
    ensures Settles(ChainOf(s, c), ChainOf(Step(s, a), c))
  {
    ClosesSettle(s, a, c);
    hide CloseStep;
  }

  /** A chain changes by a submission, by an operation beginning, or by running operations settling. */
  lemma ChainStep(s: Router, a: Action, c: nat)
    requires FlowOk(s)
    ensures var was, now := ChainOf(s, c), ChainOf(Step(s, a), c);
      || Settles(was, now)
      || (a.Start? && a.client == c && P.CanStart(was, a.job) && Begins(was, now, a.job))
      || (a.Submit? && a.client == c && now == P.Submit(was, a.op))
    ensures a.Start? && a.client == c && P.CanStart(ChainOf(s, c), a.job) ==>
      Begins(ChainOf(s, c), ChainOf(Step(s, a), c), a.job)
  {
    SettlesItself(ChainOf(s, c));
    hide FlowOk, Step, ChainOf, P.CanStart, P.Submit, Begins, Settles;
    match a
    case Start(client, j) => StartChains(s, client, j, c);
    case Submit(client, op) => SubmitChains(s, client, op, c);
    case Continue(client, j, ok) => ContinueChains(s, client, j, ok, c);
    case CleanUp(client, j) => CleanUpChains(s, client, j, c);
    case BeginClose => CloseChains(s, a, c);
    case Drained => CloseChains(s, a, c);
    case Emptied => CloseChains(s, a, c);
    case HandlesClosed(_) => CloseChains(s, a, c);
    case CallSettled(_, _) => AttachmentChains(s, a, c);
    case LeaseAnswered(_, _) => AttachmentChains(s, a, c);
    case ReleaseLease(_) => AttachmentChains(s, a, c);
    case LeaseReleased(_) => AttachmentChains(s, a, c);
    case NoticeSent(_) => AttachmentChains(s, a, c);
    case _ => SessionChains(s, a, c);
  }

  lemma AttachmentChains(s: Router, a: Action, c: nat)
    requires a.CallSettled? || a.LeaseAnswered? || a.ReleaseLease? || a.LeaseReleased? || a.NoticeSent?
    ensures Settles(ChainOf(s, c), ChainOf(Step(s, a), c))
  {
    OthersSame(s, a);
    hide Step;
    SameChain(s, Step(s, a), c);
  }

  lemma SessionChains(s: Router, a: Action, c: nat)
    requires a.OpenSettled? || a.ForgetOpen? || a.Terminated? || a.RemoveSession? || a.FinishRemoval? ||
      a.ForgetLeaving? || a.StopAccepting?
    ensures Settles(ChainOf(s, c), ChainOf(Step(s, a), c))
  {
    SessionsSame(s, a);
    hide Step;
    SameChain(s, Step(s, a), c);
  }

  lemma StartChains(s: Router, client: nat, j: nat, c: nat)
    ensures var was, now := ChainOf(s, c), ChainOf(Step(s, Start(client, j)), c);
      if client == c && P.CanStart(was, j) then Begins(was, now, j) else Settles(was, now)
  {
    SettlesItself(ChainOf(s, c));
    if P.CanStart(ChainOf(s, client), j) { StartBegins(s, client, j); }
    hide Begun, Turn, Begins, Settles, ChainOf;
  }

  // ---------------------------------------------------------------- whole runs

  /** Every operation of the client begins after all earlier ones have settled. */
  predicate OrderKept(s: Router, actions: seq<Action>, c: nat)
    decreases |actions|
  {
    actions == []
    || (BeginsInOrder(s, actions[0], c) && OrderKept(Step(s, actions[0]), actions[1..], c))
  }

  predicate BeginsInOrder(s: Router, a: Action, c: nat) {
    a.Start? && a.client == c && P.CanStart(ChainOf(s, c), a.job) ==> SettledBefore(ChainOf(s, c), a.job)
  }

  /** Every operation that found no tail in the map when it was submitted does. */
  predicate TaillessKept(s: Router, actions: seq<Action>, c: nat)
    decreases |actions|
  {
    actions == []
    || (TaillessInOrder(s, actions[0], c) && TaillessKept(Step(s, actions[0]), actions[1..], c))
  }

  predicate BeginsTailless(s: Router, a: Action, c: nat) {
    a.Start? && a.client == c && P.CanStart(ChainOf(s, c), a.job) && ChainOf(s, c).jobs[a.job].previous.None?
  }

  predicate TaillessInOrder(s: Router, a: Action, c: nat) {
    BeginsTailless(s, a, c) ==> SettledBefore(ChainOf(s, c), a.job)
  }

  lemma SettlesOrder(c: P.Chain<Op>, d: P.Chain<Op>)
    requires InOrder(c) && Linked(c) && Settles(c, d)
    ensures InOrder(d) && Linked(d)
  {
    forall j | 0 <= j < |d.jobs| && d.jobs[j].status != P.Waiting ensures SettledBefore(d, j) {
      assert c.jobs[j].status != P.Waiting;
      assert SettledBefore(c, j);
    }
  }

  lemma SubmitOrder(c: P.Chain<Op>, op: Op)
    requires InOrder(c) && Linked(c)
    ensures InOrder(P.Submit(c, op)) && Linked(P.Submit(c, op))
  {
    var d := P.Submit(c, op);
    forall j | 0 <= j < |c.jobs| ensures d.jobs[j] == c.jobs[j] { }
    forall j | 0 <= j < |d.jobs| && d.jobs[j].status != P.Waiting ensures SettledBefore(d, j) {
      assert SettledBefore(c, j);
    }
  }

  lemma BeginOrder(c: P.Chain<Op>, d: P.Chain<Op>, j: nat)
    requires InOrder(c) && Linked(c) && P.CanStart(c, j) && Begins(c, d, j) && SettledBefore(c, j)
    ensures InOrder(d) && Linked(d)
  {
    forall k | 0 <= k < |d.jobs| && d.jobs[k].status != P.Waiting ensures SettledBefore(d, k) {
      if k != j { assert SettledBefore(c, k); }
    }
  }

  /** Behind the operation it waits for, an operation begins in order if that one did. */
  lemma BehindTail(c: P.Chain<Op>, j: nat)
    requires InOrder(c) && Linked(c) && P.CanStart(c, j) && c.jobs[j].previous.Some?
    ensures SettledBefore(c, j)
  {
    assert c.jobs[j - 1].status == P.Settled;
    assert SettledBefore(c, j - 1);
  }

  lemma {:induction false} OrderFrom(s: Router, actions: seq<Action>, c: nat)
    requires FlowOk(s) && InOrder(ChainOf(s, c)) && Linked(ChainOf(s, c))
    ensures OrderKept(s, actions, c) <==> TaillessKept(s, actions, c)
    decreases |actions|
  {
    if actions != [] {
      var a := actions[0];
      hide FlowOk, Step, ChainOf;
      StepKeeps(s, a);
      ChainStep(s, a, c);
      if TaillessInOrder(s, a, c) {
        OrderNext(s, a, c);
        OrderFrom(Step(s, a), actions[1..], c);
      }
    }
  }

  lemma OrderNext(s: Router, a: Action, c: nat)
    requires FlowOk(s) && InOrder(ChainOf(s, c)) && Linked(ChainOf(s, c)) && TaillessInOrder(s, a, c)
    ensures BeginsInOrder(s, a, c) && InOrder(ChainOf(Step(s, a), c)) && Linked(ChainOf(Step(s, a), c))
  {
    ChainStep(s, a, c);
    var was, now := ChainOf(s, c), ChainOf(Step(s, a), c);
    hide FlowOk, Step, ChainOf, InOrder, Linked, Settles, Begins, P.Submit;
    if a.Start? && a.client == c && P.CanStart(was, a.job) {
      if was.jobs[a.job].previous.Some? { BehindTail(was, a.job); }
      BeginOrder(was, now, a.job);
    } else if Settles(was, now) {
      SettlesOrder(was, now);
    } else {
      SubmitOrder(was, a.op);
    }
  }

  /**
   On every run, whatever its shutdown does: a client's operations begin one at a time in the order they
   were submitted if and only if those that found no tail in the map begin after all earlier ones have settled.
   */
  lemma OrderKeptIff(actions: seq<Action>, c: nat)
    ensures OrderKept(INITIAL, actions, c) <==> TaillessKept(INITIAL, actions, c)
  {
    InitialOk();
    OrderFrom(INITIAL, actions, c);
  }

  /** A later operation never begins before shutdown has finished unless all earlier ones have settled. */
  lemma {:induction false} OrderBeforeClose(s: Router, actions: seq<Action>, c: nat)
    requires FlowOk(s) && forall n :: 0 <= n <= |actions| ==> !Run(s, actions[..n]).close.Finished?
    ensures OrderKept(s, actions, c)
    decreases |actions|
  {
    if actions != [] {
      var a := actions[0];
      assert Run(s, actions[..0]) == s;
      SerialNow(s, c, a);
      StepKeeps(s, a);
      forall n | 0 <= n <= |actions[1..]| ensures !Run(Step(s, a), actions[1..][..n]).close.Finished? {
        assert actions[..n + 1][0] == a && actions[..n + 1][1..] == actions[1..][..n];
        assert Run(s, actions[..n + 1]) == Run(Step(s, a), actions[1..][..n]);
      }
      hide FlowOk, Step, Run;
      OrderBeforeClose(Step(s, a), actions[1..], c);
    }
  }

  lemma SerialNow(s: Router, c: nat, a: Action)
    requires FlowOk(s) && !s.close.Finished?
    ensures BeginsInOrder(s, a, c)
  {
    hide HoldingOk, IndexOk, FenceOk, QuietOk, RunsOk;
    if a.Start? && a.client == c && P.CanStart(ChainOf(s, c), a.job) {
      assert P.Serial(ChainOf(s, c));
      P.StartSerial(ChainOf(s, c), a.job);
    }
  }

  /** What an operation waits for is the tail found when it is submitted. */
  lemma SubmittedBehindTail(s: Router, c: nat, op: Op)
    requires !(op.Attach? && s.closing)
    ensures var d := ChainOf(Step(s, Action.Submit(c, op)), c);
      |d.jobs| == |ChainOf(s, c).jobs| + 1 && d.jobs[|d.jobs| - 1] == P.Job(op, ChainOf(s, c).tail, P.Waiting)
      && d.jobs[..|ChainOf(s, c).jobs|] == ChainOf(s, c).jobs
  {
  }

  /**
   An operation that finds no tail may begin at once, and then keeps the order if and only if none of its
   client's earlier operations is unsettled.
   */
  lemma SubmittedWithoutTail(s: Router, c: nat, op: Op)
    requires ChainOf(s, c).tail.None? && !(op.Attach? && s.closing)
    ensures var j := |ChainOf(s, c).jobs|;
      InOrder(ChainOf(Step(Step(s, Action.Submit(c, op)), Start(c, j)), c)) <==> SettledBefore(ChainOf(s, c), j)
  {
    var t := Step(s, Action.Submit(c, op));
    SubmittedBehindTail(s, c, op);
    hide Step, ChainOf;
    BeginsLast(t, c, ChainOf(s, c).jobs);
  }

  lemma BeginsLast(t: Router, c: nat, jobs: seq<P.Job<Op>>)
    requires var now := ChainOf(t, c);
      |now.jobs| == |jobs| + 1 && now.jobs[..|jobs|] == jobs && now.jobs[|jobs|].previous.None? &&
          now.jobs[|jobs|].status == P.Waiting
    ensures InOrder(ChainOf(Step(t, Start(c, |jobs|)), c)) <==> forall i :: 0 <= i < |jobs| ==>
      jobs[i].status == P.Settled
  {
    var j := |jobs|;
    StartBegins(t, c, j);
    hide Step, ChainOf;
    var now, d := ChainOf(t, c), ChainOf(Step(t, Start(c, j)), c);
    assert forall i :: 0 <= i < j ==> d.jobs[i] == now.jobs[i] == now.jobs[..j][i];
    if InOrder(d) { assert SettledBefore(d, j); }
  }

  // ---------------------------------------------------------------- a condition on submissions alone

  /** Every submission of the client that finds no tail finds all its earlier operations settled. */
  predicate ClearSubmissions(s: Router, actions: seq<Action>, c: nat)
    decreases |actions|
  {
    actions == []
    || (SubmitsClear(s, actions[0], c) && ClearSubmissions(Step(s, actions[0]), actions[1..], c))
  }

  predicate SubmitsClear(s: Router, a: Action, c: nat) {
    a.Submit? && a.client == c && ChainOf(s, c).tail.None? ==> SettledBefore(ChainOf(s, c), |ChainOf(s, c).jobs|)
  }

  /** Operations that wait for none have nothing unsettled before them. */
  predicate Cleared(c: P.Chain<Op>) {
    forall j :: 0 <= j < |c.jobs| && c.jobs[j].previous.None? ==> SettledBefore(c, j)
  }

  lemma SettlesCleared(c: P.Chain<Op>, d: P.Chain<Op>)
    requires Cleared(c) && Settles(c, d)
    ensures Cleared(d)
  {
    forall j | 0 <= j < |d.jobs| && d.jobs[j].previous.None? ensures SettledBefore(d, j) { assert SettledBefore(c, j); }
  }

  lemma BeginCleared(c: P.Chain<Op>, d: P.Chain<Op>, j: nat)
    requires Cleared(c) && Begins(c, d, j) && c.jobs[j].status == P.Waiting
    ensures Cleared(d)
  {
    forall k | 0 <= k < |d.jobs| && d.jobs[k].previous.None? ensures SettledBefore(d, k) { assert SettledBefore(c, k); }
  }

  lemma SubmitCleared(c: P.Chain<Op>, op: Op)
    requires Cleared(c) && (c.tail.None? ==> SettledBefore(c, |c.jobs|))
    ensures Cleared(P.Submit(c, op))
  {
    var d := P.Submit(c, op);
    forall j | 0 <= j < |c.jobs| ensures d.jobs[j] == c.jobs[j] { }
    forall j | 0 <= j < |d.jobs| && d.jobs[j].previous.None? ensures SettledBefore(d, j) { assert SettledBefore(c, j); }
  }

  lemma ClearNext(s: Router, a: Action, c: nat)
    requires FlowOk(s) && Cleared(ChainOf(s, c)) && SubmitsClear(s, a, c)
    ensures TaillessInOrder(s, a, c) && Cleared(ChainOf(Step(s, a), c))
  {
    ChainStep(s, a, c);
    var was, now := ChainOf(s, c), ChainOf(Step(s, a), c);
    hide FlowOk, Step, ChainOf, Settles, Begins, P.Submit;
    if a.Start? && a.client == c && P.CanStart(was, a.job) {
      BeginCleared(was, now, a.job);
    } else if Settles(was, now) {
      hide Cleared;
      SettlesCleared(was, now);
    } else {
      SubmitCleared(was, a.op);
    }
  }

  lemma {:induction false} ClearFrom(s: Router, actions: seq<Action>, c: nat)
    requires FlowOk(s) && Cleared(ChainOf(s, c)) && ClearSubmissions(s, actions, c)
    ensures TaillessKept(s, actions, c)
    decreases |actions|
  {
    if actions != [] {
      hide FlowOk, Step, ChainOf, Cleared;
      StepKeeps(s, actions[0]);
      ClearNext(s, actions[0], c);
      ClearFrom(Step(s, actions[0]), actions[1..], c);
    }
  }

  /**
   A client that submits nothing without a tail while an operation of its own is unsettled sees its order kept, after
   shutdown too.
   */
  lemma ClearSubmissionsKeepOrder(actions: seq<Action>, c: nat)
    requires ClearSubmissions(INITIAL, actions, c)
    ensures OrderKept(INITIAL, actions, c)
  {
    InitialOk();
    ClearFrom(INITIAL, actions, c);
    OrderKeptIff(actions, c);
  }
}
