/** Where the router's promises end: runs in which they fail, and exactly when they hold. */
module RouterExamples {
  import opened Common
  import P = PromiseChain
  import opened RouterOrder
  import opened SessionRouter

  // ---------------------------------------------------------------- an operation overtaken after shutdown

  const ATTACHING := P.Job(Attach(7), None, P.Waiting)
  const DETACHING := P.Job(Detach, Some(0), P.Waiting)

  const SEVEN := Attachment(0, 0, 0, {}, Pending, Active, false, 0, false)

  /** A client whose first operation is at `at`. */
  function First(status: P.Status): map<nat, P.Chain<Op>> {
    map[0 := P.Chain([ATTACHING.(status := status)], Some(0))]
  }

  function Second(status: P.Status, tail: Option<nat>): map<nat, P.Chain<Op>> {
    map[0 := P.Chain([ATTACHING.(status := P.Settled), DETACHING.(status := status)], tail)]
  }

  function Opening(): Router {
    INITIAL.(opens := [Open(7, InProgress)], opening := map[7 := 0], chains := First(P.Running),
             suspended := map[(0, 0) := AwaitingOpen(0, None)])
  }

  function Leasing(): Router {
    Opening().(opens := [Open(7, Opened(0))], sessions := [HostedSession(7, {0})], hosted := map[7 := 0],
               attachments := [SEVEN], suspended := map[(0, 0) := AwaitingLease(0)])
  }

  function Attached(): Router {
    Leasing().(attachments := [SEVEN.(lease := Held, installed := true)], byClient := map[0 := 0],
        chains := First(P.Settled), suspended := map[])
  }

  /** The session has ended by itself and its attachment's release is under way; shutdown begins. */
  function Draining(): Router {
    Attached().(attachments := [SEVEN.(lease := Held, installed := true, stage := WaitingForCalls({}),
        publish := true)],
                hosted := map[], disturbed := {0}, closing := true, close := Closing.Draining(map[0 := 0], {0}))
  }

  /** The client detaches, and waits for that release. */
  function Detaching(): Router {
    Draining().(chains := Second(P.Running, Some(1)), suspended := map[(0, 1) := AwaitingRelease(0)])
  }

  /** Shutdown has finished meanwhile. */
  function Forgotten(): Router {
    Detaching().(byClient := map[], close := Finished({}), chains := Second(P.Running, None))
  }

  lemma ToOpening()
    ensures Step(Step(INITIAL, Action.Submit(0, Attach(7))), Start(0, 0)) == Opening()
  {
    var s1 := Step(INITIAL, Action.Submit(0, Attach(7)));
    assert s1.chains[0].jobs == [ATTACHING];
    assert s1.chains == First(P.Waiting);
    assert s1 == INITIAL.(chains := First(P.Waiting));
    var t := Turn(s1, 0, 0);
    assert t.chains[0].jobs == [ATTACHING.(status := P.Running)];
    assert t.chains == First(P.Running);
    var u := EnsureOpen(t, 7);
    assert u.opens == [Open(7, InProgress)];
    assert u.opening == map[7 := 0];
    var s2 := Step(s1, Start(0, 0));
    assert s2.suspended == map[(0, 0) := AwaitingOpen(0, None)];
  }

  lemma ToLeasing()
    ensures Step(Step(Opening(), OpenSettled(0, Some(7))), Continue(0, 0, true)) == Leasing()
  {
    var s1 := Step(Opening(), OpenSettled(0, Some(7)));
    assert s1.opens == [Open(7, Opened(0))];
    assert s1.sessions == [HostedSession(7, {})];
    assert s1.hosted == map[7 := 0];
    assert s1 == Opening().(opens := [Open(7, Opened(0))], sessions := [HostedSession(7, {})], hosted := map[7 := 0]);
    var s2 := Step(s1, Continue(0, 0, true));
    assert s2.attachments == [SEVEN];
    assert {} + {0} == {0};
    assert s2.sessions[0] == HostedSession(7, {0});
    assert s2.sessions == [HostedSession(7, {0})];
    assert s2.suspended == map[(0, 0) := AwaitingLease(0)];
  }

  lemma ToAttached()
    ensures Step(Step(Step(Leasing(), LeaseAnswered(0, true)), Continue(0, 0, true)), Continue(0, 0, true)) ==
      Attached()
  {
    var s1 := Step(Leasing(), LeaseAnswered(0, true));
    assert s1.attachments == [SEVEN.(lease := Held)];
    var s2 := Step(s1, Continue(0, 0, true));
    assert Usable(s1, 0, 0);
    assert s2.attachments == [SEVEN.(lease := Held, installed := true)];
    assert s2.byClient == map[0 := 0];
    assert s2.suspended == map[(0, 0) := AwaitingNotice(0)];
    var s3 := Step(s2, Continue(0, 0, true));
    assert s3.chains[0].jobs == [ATTACHING.(status := P.Settled)];
    assert s3.chains == First(P.Settled);
    assert s3.suspended == map[];
  }

  lemma ToDraining()
    ensures Step(Step(Step(Attached(), Terminated(0)), StopAccepting), BeginClose) == Draining()
  {
    Ends();
    hide Step, Ended, Attached, Draining;
    Closes();
  }

  lemma Closes()
    ensures Step(Step(Ended(), StopAccepting), BeginClose) == Draining()
  {
    var s := Step(Ended(), StopAccepting);
    assert s.chains == First(P.Settled) && s.opening == map[7 := 0];
    OneTail(s);
    assert s == Ended().(closing := true);
  }

  lemma OneTail(s: Router)
    requires s.chains == First(P.Settled) && s.opening == map[7 := 0]
    ensures Tails(s) == map[0 := 0] && s.opening.Values == {0}
  {
    assert 0 in s.chains && s.chains[0].tail == Some(0);
    assert s.opening[7] == 0;
  }

  function Ended(): Router {
    Attached().(attachments := [SEVEN.(lease := Held, installed := true, stage := WaitingForCalls({}),
        publish := true)],
                hosted := map[], disturbed := {0})
  }

  lemma Ends()
    ensures Step(Attached(), Terminated(0)) == Ended()
  {
    assert IsHosted(Attached(), 0);
    var s := Step(Attached(), Terminated(0));
    assert s.hosted == map[];
    assert s.attachments == Ended().attachments;
  }

  lemma ToDetaching()
    ensures Step(Step(Draining(), Action.Submit(0, Detach)), Start(0, 1)) == Detaching()
  {
    var s1 := Step(Draining(), Action.Submit(0, Detach));
    assert s1.chains[0].jobs == [ATTACHING.(status := P.Settled), DETACHING];
    assert s1.chains == Second(P.Waiting, Some(1));
    var t := Turn(s1, 0, 1);
    assert t.chains[0].jobs == [ATTACHING.(status := P.Settled), DETACHING.(status := P.Running)];
    assert t.chains == Second(P.Running, Some(1));
    var s2 := Step(s1, Start(0, 1));
    assert s2.attachments == t.attachments;
    assert s2.suspended == map[(0, 1) := AwaitingRelease(0)];
  }

  lemma ToForgotten()
    ensures Step(Step(Step(Detaching(), Drained), Emptied), HandlesClosed({})) == Forgotten()
  {
    NothingHosted();
    Forgets();
    hide Detaching, Forgotten;
    var s2 := Step(Detaching().(close := Emptying({}, {})), Emptied);
    assert s2 == Detaching().(close := ClosingHandles({}));
  }

  lemma NothingHosted()
    ensures Step(Detaching(), Drained) == Detaching().(close := Emptying({}, {}))
  {
    var s := Detaching();
    assert AllSettled(s, map[0 := 0]) && AllOpened(s, {0});
    assert s.hosted.Values == {};
    hide AllSettled, AllOpened;
    NobodyThere(s);
    hide AttachmentsOf, BeginAll;
  }

  lemma NobodyThere(s: Router)
    ensures AttachmentsOf(s, {}) == {} && BeginAll(s, {}, true) == s
  {
    assert BeginAll(s, {}, true).attachments == s.attachments;
  }

  lemma Forgets()
    ensures Step(Detaching().(close := ClosingHandles({})), HandlesClosed({})) == Forgotten()
  {
    var t := Step(Detaching().(close := ClosingHandles({})), HandlesClosed({}));
    assert t.hosted == map[];
    assert t.chains == Second(P.Running, None);
  }

  lemma RunTwo(s: Router, a: Action, b: Action)
    ensures Run(s, [a, b]) == Step(Step(s, a), b)
  {
    hide Step;
    assert [a, b][1..] == [b];
    RunLast(Step(s, a), b);
  }

  lemma RunThree(s: Router, a: Action, b: Action, c: Action)
    ensures Run(s, [a, b, c]) == Step(Step(Step(s, a), b), c)
  {
    hide Step;
    assert [a, b, c][1..] == [b, c];
    RunTwo(Step(s, a), b, c);
  }

  const OPEN_SEVEN: seq<Action> := [Action.Submit(0, Attach(7)), Start(0, 0)]
  const GET_LEASE: seq<Action> := [OpenSettled(0, Some(7)), Continue(0, 0, true)]
  const FINISH_ATTACH: seq<Action> := [LeaseAnswered(0, true), Continue(0, 0, true), Continue(0, 0, true)]
  const END_SESSION: seq<Action> := [Terminated(0), StopAccepting, BeginClose]
  const DETACH_ONE: seq<Action> := [Action.Submit(0, Detach), Start(0, 1)]
  const FINISH_CLOSE: seq<Action> := [Drained, Emptied, HandlesClosed({})]
  const DETACH_TWO: seq<Action> := [Action.Submit(0, Detach), Start(0, 2)]

  /**
   The session of an attached client ends by itself; while its lease is still to be released, shutdown
   begins, the client detaches, shutdown finishes, and the client detaches again.
   */
  const DETACHED_TWICE: seq<Action> :=
    OPEN_SEVEN + GET_LEASE + FINISH_ATTACH + END_SESSION + DETACH_ONE + FINISH_CLOSE + DETACH_TWO

  lemma ToClosed()
    ensures Run(INITIAL, OPEN_SEVEN + GET_LEASE + FINISH_ATTACH + END_SESSION + DETACH_ONE + FINISH_CLOSE) ==
      Forgotten()
  {
    hide Step, Run, Opening, Leasing, Attached, Draining, Detaching, Forgotten;
    RunTwo(INITIAL, Action.Submit(0, Attach(7)), Start(0, 0));
    RunTwo(Opening(), OpenSettled(0, Some(7)), Continue(0, 0, true));
    RunThree(Leasing(), LeaseAnswered(0, true), Continue(0, 0, true), Continue(0, 0, true));
    RunThree(Attached(), Terminated(0), StopAccepting, BeginClose);
    RunTwo(Draining(), Action.Submit(0, Detach), Start(0, 1));
    RunThree(Detaching(), Drained, Emptied, HandlesClosed({}));
    ToOpening();
    ToLeasing();
    ToAttached();
    ToDraining();
    ToDetaching();
    ToForgotten();
    RunAppend(INITIAL, OPEN_SEVEN, GET_LEASE);
    RunAppend(INITIAL, OPEN_SEVEN + GET_LEASE, FINISH_ATTACH);
    RunAppend(INITIAL, OPEN_SEVEN + GET_LEASE + FINISH_ATTACH, END_SESSION);
    RunAppend(INITIAL, OPEN_SEVEN + GET_LEASE + FINISH_ATTACH + END_SESSION, DETACH_ONE);
    RunAppend(INITIAL, OPEN_SEVEN + GET_LEASE + FINISH_ATTACH + END_SESSION + DETACH_ONE, FINISH_CLOSE);
  }

  /** The second detach overtakes the first. */
  lemma OvertakenAfterClose()
    ensures !InOrder(ChainOf(Run(INITIAL, DETACHED_TWICE), 0))
  {
    ToClosed();
    RunAppend(INITIAL, OPEN_SEVEN + GET_LEASE + FINISH_ATTACH + END_SESSION + DETACH_ONE + FINISH_CLOSE, DETACH_TWO);
    RunTwo(Forgotten(), Action.Submit(0, Detach), Start(0, 2));
    hide Step, Run;
    assert ChainOf(Forgotten(), 0).jobs[1].status == P.Running;
    SubmittedWithoutTail(Forgotten(), 0, Detach);
  }

  // ---------------------------------------------------------------- a lease released under a call

  const CALL: Op := Call(SessionTarget(7, 0))
  const CALL_LATE: seq<Action> := [Action.Submit(0, CALL), Start(0, 1)]

  /** A call comes in after its session has ended by itself, while the attachment is still the client's current one. */
  const CALLED_LATE: seq<Action> :=
    OPEN_SEVEN + GET_LEASE + FINISH_ATTACH + [Terminated(0)] + CALL_LATE + [ReleaseLease(0)]

  /** The release knows the calls it found only: the lease goes while the late call runs. */
  lemma ReleasedUnderACall()
    ensures var s := Run(INITIAL, CALLED_LATE);
      |s.attachments| == 1 && s.attachments[0].stage.ReleasingLease? && s.attachments[0].operations == {0} &&
          |s.admitted| == 1
  {
    ToEnded();
    RunAppend(INITIAL, OPEN_SEVEN + GET_LEASE + FINISH_ATTACH + [Terminated(0)], CALL_LATE);
    RunAppend(INITIAL, OPEN_SEVEN + GET_LEASE + FINISH_ATTACH + [Terminated(0)] + CALL_LATE, [ReleaseLease(0)]);
    RunTwo(Ended(), Action.Submit(0, CALL), Start(0, 1));
    var s := Step(Step(Ended(), Action.Submit(0, CALL)), Start(0, 1));
    RunLast(s, ReleaseLease(0));
    CallAdmitted();
    hide Ended, Run;
    GoesNow(s);
  }

  lemma GoesNow(s: Router)
    requires s.attachments == [Ended().attachments[0].(operations := {0})]
    ensures Step(s, ReleaseLease(0)).attachments == [s.attachments[0].(stage := ReleasingLease, releases := 1)]
    ensures Step(s, ReleaseLease(0)).admitted == s.admitted
  {
  }

  lemma CallAdmitted()
    ensures var s := Step(Step(Ended(), Action.Submit(0, CALL)), Start(0, 1));
      s.attachments == [Ended().attachments[0].(operations := {0})] && |s.admitted| == 1
  {
    var s1 := Step(Ended(), Action.Submit(0, CALL));
    assert ChainOf(s1, 0).jobs == [ATTACHING.(status := P.Settled), P.Job(CALL, Some(0), P.Waiting)];
    assert P.CanStart(ChainOf(s1, 0), 1);
    var t := Turn(s1, 0, 1);
    assert ChainOf(t, 0).jobs[1].payload == CALL;
    assert t.attachments == Ended().attachments && t.sessions == Ended().sessions && t.byClient == map[0 := 0] &&
      t.admitted == [];
    assert Accepted(t, 0, CALL.target) == Some(0);
    assert {} + {0} == {0};
    assert Admit(t, 0, CALL.target).attachments == [Ended().attachments[0].(operations := {0})];
  }

  lemma ToEnded()
    ensures Run(INITIAL, OPEN_SEVEN + GET_LEASE + FINISH_ATTACH + [Terminated(0)]) == Ended()
  {
    hide Step, Run, Opening, Leasing, Attached, Ended;
    RunTwo(INITIAL, Action.Submit(0, Attach(7)), Start(0, 0));
    RunTwo(Opening(), OpenSettled(0, Some(7)), Continue(0, 0, true));
    RunThree(Leasing(), LeaseAnswered(0, true), Continue(0, 0, true), Continue(0, 0, true));
    RunLast(Attached(), Terminated(0));
    ToOpening();
    ToLeasing();
    ToAttached();
    Ends();
    RunAppend(INITIAL, OPEN_SEVEN, GET_LEASE);
    RunAppend(INITIAL, OPEN_SEVEN + GET_LEASE, FINISH_ATTACH);
    RunAppend(INITIAL, OPEN_SEVEN + GET_LEASE + FINISH_ATTACH, [Terminated(0)]);
  }

  // ---------------------------------------------------------------- a session displaced by another resolved to its id

  const TWO_ATTACHES: seq<Action> := [Action.Submit(1, Attach(5)), Start(1, 0)]
  const BOTH_SEVEN: seq<Action> := [OpenSettled(1, Some(7)), OpenSettled(0, Some(7))]

  /** Clients ask for 7 and for 5, the host resolves both to 7, and nothing else happens. */
  const RESOLVED_TWICE: seq<Action> := OPEN_SEVEN + TWO_ATTACHES + BOTH_SEVEN

  /** The session opened first is hosted no more, although it has neither ended nor been removed. */
  lemma DisplacedSession()
    ensures var s := Run(INITIAL, RESOLVED_TWICE);
      |s.sessions| == 2 && s.disturbed == {} && !s.closing && !IsHosted(s, 0) && s.sessions[0].id == 7
  {
    RunTwo(INITIAL, Action.Submit(0, Attach(7)), Start(0, 0));
    ToOpening();
    RunAppend(INITIAL, OPEN_SEVEN, TWO_ATTACHES);
    RunTwo(Opening(), Action.Submit(1, Attach(5)), Start(1, 0));
    SecondOpen();
    RunAppend(INITIAL, OPEN_SEVEN + TWO_ATTACHES, BOTH_SEVEN);
    var s := Step(Step(Opening(), Action.Submit(1, Attach(5))), Start(1, 0));
    RunTwo(s, OpenSettled(1, Some(7)), OpenSettled(0, Some(7)));
    BothResolved(s);
  }

  lemma SecondOpen()
    ensures var s := Step(Step(Opening(), Action.Submit(1, Attach(5))), Start(1, 0));
      s.opens == [Open(7, InProgress), Open(5, InProgress)] && s.sessions == [] && s.disturbed == {} && !s.closing &&
          s.hosted == map[]
  {
    var s := Step(Opening(), Action.Submit(1, Attach(5)));
    assert ChainOf(s, 1).jobs == [P.Job(Attach(5), None, P.Waiting)];
    AttachOpens(s);
    hide Step;
  }

  lemma AttachOpens(s: Router)
    requires ChainOf(s, 1).jobs == [P.Job(Attach(5), None, P.Waiting)] && s.byClient == map[] && s.leaving == {} &&
      !s.closing
    requires s.hosted == map[] && 5 !in s.opening
    ensures var t := Step(s, Start(1, 0));
      t.opens == s.opens + [Open(5, InProgress)] && t.sessions == s.sessions && t.disturbed == s.disturbed &&
          !t.closing && t.hosted == map[]
  {
  }

  lemma BothResolved(s: Router)
    requires s.opens == [Open(7, InProgress), Open(5, InProgress)] && s.sessions == [] && s.disturbed == {} &&
      !s.closing
    ensures var t := Step(Step(s, OpenSettled(1, Some(7))), OpenSettled(0, Some(7)));
      |t.sessions| == 2 && t.disturbed == {} && !t.closing && !IsHosted(t, 0) && t.sessions[0].id == 7
  {
  }
}
