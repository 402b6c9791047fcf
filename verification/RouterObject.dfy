/**
 The session router as the object it is: maps and attachment records updated in place, loops over the
 attachments of a session. The methods under "steps" are the steps of SessionRouter's machine, each from
 one await to the next, and keep its invariant; those before them are the functions they are made of.
 */
module RouterObject {
  import opened Common
  import P = PromiseChain
  import S = SessionRouter
  import F = RouterFlow
  import RouterSafety
  import RouterSteps

  /** Everything the maps refer to exists. */
  ghost predicate Indexed(s: S.Router) {
    && (forall c :: c in s.byClient ==> s.byClient[c] < |s.attachments|)
    && (forall a :: 0 <= a < |s.attachments| ==> s.attachments[a].session < |s.sessions|)
    && (forall h, a :: 0 <= h < |s.sessions| && a in s.sessions[h].attachments ==> a < |s.attachments|)
  }

  /** What a suspended operation refers to exists. */
  predicate Reachable(s: S.Router, at: S.Suspended) {
    match at
    case AwaitingOpen(o, current) => o < |s.opens| && (current.Some? ==> current.value < |s.attachments|)
    case AwaitingHosted(h, current) => h < |s.sessions| && (current.Some? ==> current.value < |s.attachments|)
    case AwaitingSwitch(h, previous) => h < |s.sessions| && previous < |s.attachments|
    case AwaitingLease(a) => a < |s.attachments|
    case AwaitingUndo(a) => a < |s.attachments|
    case AwaitingNotice(_) => true
    case AwaitingRelease(a) => a < |s.attachments|
  }

  lemma FlowIndexed(s: S.Router)
    requires F.FlowOk(s)
    ensures Indexed(s)
  {
    hide RouterSafety.JobsOk, RouterSafety.IndexOk, RouterSafety.FenceOk, RouterSafety.QuietOk, RouterSafety.LeaseOk;
    forall c | c in s.byClient ensures s.byClient[c] < |s.attachments| {
      assert RouterSafety.CurrentAt(s, c, s.byClient[c]);
    }
    forall h, a | 0 <= h < |s.sessions| && a in s.sessions[h].attachments ensures a < |s.attachments| {
      assert RouterSafety.MembersOk(s.attachments, s.sessions[h].attachments, h);
    }
  }

  class SessionRouter {
    var sessions: seq<S.HostedSession>
    var attachments: seq<S.Attachment>
    var hostedSessions: map<nat, nat>
    var opens: seq<S.Open>
    var openingSessions: map<nat, nat>
    var attachmentsByClient: map<nat, nat>
    var disconnectedClients: set<nat>
    var clientOperations: map<nat, P.Chain<S.Op>>
    var suspended: map<(nat, nat), S.Suspended>
    var isClosing: bool
    var closing: S.Closing
    var removals: seq<(nat, set<nat>)>
    var admitted: seq<S.Admission>
    ghost var disturbed: set<nat>
    ghost var honest: bool

    ghost function View(): S.Router
      reads this
    {
      S.Router(sessions, attachments, hostedSessions, opens, openingSessions, attachmentsByClient, disconnectedClients,
               clientOperations, suspended, admitted, removals, isClosing, closing, disturbed, honest)
    }

    ghost predicate Valid()
      reads this
    {
      F.FlowOk(View())
    }

    constructor ()
      ensures View() == S.INITIAL && Valid()
    {
      sessions, attachments, hostedSessions, opens, openingSessions := [], [], map[], [], map[];
      attachmentsByClient, disconnectedClients, clientOperations, suspended := map[], {}, map[], map[];
      isClosing, closing, removals := false, S.NotBegun, [];
      admitted, disturbed, honest := [], {}, true;
    }

    /** Only the first call begins the release. */
    method ReleaseAttachment(a: nat, publish: bool)
      requires a < |attachments|
      modifies this`attachments
      ensures attachments == old(attachments)[a := S.Begin(old(attachments)[a], publish)]
    {
      var attachment := attachments[a];
      if attachment.stage.Active? {
        attachment := attachment.(stage := S.WaitingForCalls(attachment.operations), publish := publish);
        attachments := attachments[a := attachment];
      } else {
        assert attachments == attachments[a := attachments[a]];
      }
    }

    method ReleaseAll(which: set<nat>, publish: bool)
      requires forall a :: a in which ==> a < |attachments|
      modifies this`attachments
      ensures View() == S.BeginAll(old(View()), which, publish)
    {
      var left := which;
      while left != {}
        invariant left <= which && |attachments| == |old(attachments)|
        invariant forall a :: 0 <= a < |attachments| ==>
                    attachments[a] == if a in which && a !in left then S.Begin(old(attachments)[a], publish)
                        else old(attachments)[a]
      {
        var a :| a in left;
        left := left - {a};
        ReleaseAttachment(a, publish);
      }
      assert attachments == S.BeginAll(old(View()), which, publish).attachments;
    }

    method LeaveSession(session: nat, a: nat)
      modifies this`sessions
      ensures View() == S.Leaves(old(View()), session, a)
    {
      if session < |sessions| {
        sessions := sessions[session := sessions[session].(attachments := sessions[session].attachments - {a})];
      }
    }

    method ClearAttachment(a: nat)
      requires a < |attachments|
      modifies this`attachments, this`sessions, this`attachmentsByClient
      ensures View() == S.Clear(old(View()), a)
    {
      var x := attachments[a];
      var notify := false;
      LeaveSession(x.session, a);
      if x.client in attachmentsByClient && attachmentsByClient[x.client] == a {
        attachmentsByClient := attachmentsByClient - {x.client};
        notify := x.publish;
      }
      attachments := attachments[a := x.(stage := if notify then S.Announcing else S.Over)];
    }

    /** Any mismatch of client, session or attachment id refuses the call. */
    method RequireAttachment(client: nat, target: S.Target) returns (attachment: Option<nat>)
      ensures attachment == S.Accepted(View(), client, target)
    {
      attachment := None;
      if isClosing || client in disconnectedClients { return; }
      if target.ServerOnly? { return; }
      if client !in attachmentsByClient { return; }
      var a := attachmentsByClient[client];
      if a >= |attachments| || attachments[a].session >= |sessions| { return; }
      if sessions[attachments[a].session].id != target.session || a != target.attachment { return; }
      attachment := Some(a);
    }

    /** The call is numbered by its place in the log of admitted calls. */
    method TrackOperation(a: nat, client: nat, target: S.Target)
      requires a < |attachments|
      modifies this`attachments, this`admitted
      ensures attachments == old(attachments)[a := old(attachments)[a].(operations :=
        old(attachments)[a].operations + {|old(admitted)|})]
      ensures admitted == old(admitted) + [S.Admission(client, target, a, !old(attachments)[a].stage.Active?)]
    {
      attachments := attachments[a := attachments[a].(operations := attachments[a].operations + {|admitted|})];
      admitted := admitted + [S.Admission(client, target, a, !attachments[a].stage.Active?)];
    }

    method StartServiceCall(client: nat, target: S.Target)
      modifies this`attachments, this`admitted
      ensures View() == S.Admit(old(View()), client, target)
    {
      var attachment := RequireAttachment(client, target);
      if attachment.Some? { TrackOperation(attachment.value, client, target); }
    }

    /** Joins an open in progress rather than beginning another. */
    method Acquire(client: nat, job: nat, id: nat)
      modifies this`opens, this`openingSessions, this`suspended
      ensures View() == S.Acquire(old(View()), client, job, id)
    {
      var current := if client in attachmentsByClient then Some(attachmentsByClient[client]) else None;
      if id in hostedSessions {
        suspended := suspended[(client, job) := S.AwaitingHosted(hostedSessions[id], current)];
        return;
      }
      if id !in openingSessions {
        openingSessions := openingSessions[id := |opens|];
        opens := opens + [S.Open(id, S.InProgress)];
      }
      suspended := suspended[(client, job) := S.AwaitingOpen(openingSessions[id], current)];
    }

    /** The attachment enters its session's set before the host is asked for the lease. */
    method CreateAttachment(client: nat, job: nat, session: nat)
      requires session < |sessions|
      modifies this`attachments, this`sessions, this`suspended
      ensures View() == S.CreateAttachment(old(View()), client, job, session)
    {
      var a := |attachments|;
      attachments := attachments + [S.Attachment(client, job, session, {}, S.Pending, S.Active, false, 0, false)];
      sessions := sessions[session := sessions[session].(attachments := sessions[session].attachments + {a})];
      suspended := suspended[(client, job) := S.AwaitingLease(a)];
    }

    /** The turn of an operation comes. */
    method Begin(client: nat, job: nat)
      requires client in clientOperations && job < |clientOperations[client].jobs|
      modifies this`clientOperations
      ensures View() == S.Turn(old(View()), client, job) && client in clientOperations
      ensures |clientOperations[client].jobs| == |old(clientOperations)[client].jobs|
      ensures clientOperations[client].jobs[job].payload == old(clientOperations)[client].jobs[job].payload
      ensures Indexed(old(View())) ==> Indexed(View())
    {
      clientOperations := clientOperations[client := P.SetStatus(clientOperations[client], job, P.Running)];
    }

    /** `executeServiceCall`: the operation ends when the call has been admitted or refused. */
    method AdmitCall(client: nat, job: nat, target: S.Target)
      requires client in clientOperations && job < |clientOperations[client].jobs|
      requires clientOperations[client].jobs[job].payload == S.Call(target)
      modifies this`attachments, this`admitted, this`clientOperations, this`suspended
      ensures View() == S.Begun(old(View()), client, job)
    {
      hide S.Accepted;
      StartServiceCall(client, target);
      hide S.Admit, S.Settle;
      Settle(client, job);
    }

    method AttachmentsOf(which: set<nat>) returns (found: set<nat>)
      requires RouterSafety.LeasesOk(View())
      ensures found == S.AttachmentsOf(View(), which)
      ensures forall a :: a in found ==> a < |attachments|
    {
      MembersBelong(View());
      hide RouterSafety.LeasesOk;
      found := {};
      var left := which;
      while left != {}
        invariant left <= which
        invariant forall a: nat :: a in found <==>
          a < |attachments| && attachments[a].session in which - left && RouterSafety.InSet(View(), a)
      {
        var h :| h in left;
        left := left - {h};
        if h < |sessions| { found := found + sessions[h].attachments; }
      }
    }

    /** The operation's promise settles, and nothing of it is left suspended. */
    method Settle(client: nat, job: nat)
      requires client in clientOperations && job < |clientOperations[client].jobs|
      modifies this`clientOperations, this`suspended
      ensures View() == S.Settle(old(View()), client, job)
    {
      clientOperations := clientOperations[client := P.SetStatus(clientOperations[client], job, P.Settled)];
      suspended := suspended - {(client, job)};
    }

    /** `detachClient` and `disconnect`: the client's attachment, if it has one, is released and waited for. */
    method EndAttachment(client: nat, job: nat, publish: bool)
      requires client in clientOperations && job < |clientOperations[client].jobs|
      requires clientOperations[client].jobs[job].payload == if publish then S.Detach else S.Leave
      requires Indexed(View())
      modifies this`attachments, this`clientOperations, this`suspended
      ensures View() == S.Begun(old(View()), client, job)
    {
      if client in attachmentsByClient {
        var attachment := attachmentsByClient[client];
        ReleaseAll({attachment}, publish);
        suspended := suspended[(client, job) := S.AwaitingRelease(attachment)];
      } else {
        Settle(client, job);
      }
    }

    /** `attachClientNow` up to its first await. */
    method AttachClientNow(client: nat, job: nat, id: nat)
      requires client in clientOperations && job < |clientOperations[client].jobs|
      requires clientOperations[client].jobs[job].payload == S.Attach(id) && Indexed(View())
      modifies this`opens, this`openingSessions, this`clientOperations, this`suspended
      ensures View() == S.Begun(old(View()), client, job)
    {
      if isClosing || client in disconnectedClients {
        Settle(client, job);
        return;
      }
      if client in attachmentsByClient {
        var current := attachments[attachmentsByClient[client]];
        if sessions[current.session].id == id {
          Settle(client, job);
          return;
        }
      }
      Acquire(client, job, id);
    }

    /** Once it has a session: refused by now, or the old attachment goes first, or a new one is made. */
    method AfterAcquire(client: nat, job: nat, session: nat, current: Option<nat>)
      requires client in clientOperations && job < |clientOperations[client].jobs|
      requires current.Some? ==> current.value < |attachments|
      modifies this`attachments, this`sessions, this`clientOperations, this`suspended
      ensures View() == S.Acquired(old(View()), client, job, session, current)
    {
      if isClosing || client in disconnectedClients || session >= |sessions| {
        Settle(client, job);
      } else if current.Some? {
        ReleaseAll({current.value}, false);
        suspended := suspended[(client, job) := S.AwaitingSwitch(session, current.value)];
      } else {
        CreateAttachment(client, job, session);
      }
    }

    /** Once the host has answered: give the attachment up, undo it, or make it the client's own. */
    method AfterLease(client: nat, job: nat, a: nat)
      requires client in clientOperations && job < |clientOperations[client].jobs|
      requires a < |attachments| && !attachments[a].lease.Pending?
      modifies this`attachments, this`sessions, this`attachmentsByClient, this`clientOperations, this`suspended
      ensures View() == S.Leased(old(View()), client, job, a)
    {
      hide S.BeginAll, S.Settle, S.Leaves;
      var attachment := attachments[a];
      var h := attachment.session;
      if attachment.lease.Refused? {
        LeaveSession(h, a);
        Settle(client, job);
        return;
      }
      if h >= |sessions| || sessions[h].id !in hostedSessions || hostedSessions[sessions[h].id] != h
         || a !in sessions[h].attachments || client in disconnectedClients || isClosing {
        ReleaseAll({a}, true);
        suspended := suspended[(client, job) := S.AwaitingUndo(a)];
        return;
      }
      Install(client, job, a);
    }

    /** The attachment becomes the client's current one. */
    method Install(client: nat, job: nat, a: nat)
      requires a < |attachments|
      modifies this`attachments, this`attachmentsByClient, this`suspended
      ensures View() == S.Suspend(
        S.WithAttachment(old(View()), a, old(attachments)[a].(installed := true)).(
          byClient := old(attachmentsByClient)[client := a]), client, job, S.AwaitingNotice(a))
    {
      attachments := attachments[a := attachments[a].(installed := true)];
      attachmentsByClient := attachmentsByClient[client := a];
      suspended := suspended[(client, job) := S.AwaitingNotice(a)];
    }

    /** Where a suspended operation goes on, if what it waits for has settled. */
    method CarryOn(client: nat, job: nat, ok: bool)
      requires client in clientOperations && job < |clientOperations[client].jobs| && (client, job) in suspended
      requires Reachable(View(), suspended[(client, job)])
      modifies this
      ensures View() == S.Continued(old(View()), client, job, ok)
    {
      hide S.Acquired, S.Leased, S.Settle, S.CreateAttachment;
      match suspended[(client, job)] {
        case AwaitingOpen(o, current) =>
          match opens[o].status {
            case InProgress =>
            case NotOpened => Settle(client, job);
            case Opened(session) => AfterAcquire(client, job, session, current);
          }
        case AwaitingHosted(session, current) => AfterAcquire(client, job, session, current);
        case AwaitingSwitch(session, previous) =>
          if attachments[previous].stage.Over? {
            if ok { CreateAttachment(client, job, session); } else { Settle(client, job); }
          }
        case AwaitingLease(a) =>
          if !attachments[a].lease.Pending? { AfterLease(client, job, a); } else { NotYet(View(), client, job, a); }
        case AwaitingUndo(a) =>
          if attachments[a].stage.Over? { Settle(client, job); }
        case AwaitingNotice(_) => Settle(client, job);
        case AwaitingRelease(a) =>
          if attachments[a].stage.Over? { Settle(client, job); }
      }
    }

    method ForgetAll(failed: set<nat>)
      requires closing.ClosingHandles?
      modifies this`hostedSessions, this`attachmentsByClient, this`clientOperations, this`closing
      ensures View() == S.CloseStep(old(View()), S.HandlesClosed(failed))
    {
      hostedSessions := map id | id in hostedSessions && hostedSessions[id] in failed :: hostedSessions[id];
      attachmentsByClient := map[];
      clientOperations := map c | c in clientOperations :: clientOperations[c].(tail := None);
      closing := S.Finished(closing.sessions);
    }

    // ---------------------------------------------------------------- steps

    /** Queues an operation behind the client's tail; attaching is refused while closing. */
    method RunForClient(client: nat, op: S.Op) returns (accepted: bool)
      requires Valid()
      modifies this`clientOperations, this`disconnectedClients
      ensures View() == S.Step(old(View()), S.Submit(client, op)) && Valid()
      ensures accepted == !(op.Attach? && isClosing)
    {
      accepted := !(op.Attach? && isClosing);
      if accepted {
        if op.Leave? { disconnectedClients := disconnectedClients + {client}; }
        var previous := if client in clientOperations then clientOperations[client] else P.Empty();
        clientOperations := clientOperations[client := P.Submit(previous, op)];
      }
      RouterSteps.StepKeeps(old(View()), S.Submit(client, op));
    }

    /** The operation whose turn has come runs to its first await. */
    method TakeTurn(client: nat, job: nat)
      requires Valid() && client in clientOperations && P.CanStart(clientOperations[client], job)
      modifies this
      ensures View() == S.Step(old(View()), S.Start(client, job)) && Valid()
    {
      FlowIndexed(View());
      hide F.FlowOk, S.Begun, Indexed, P.CanStart;
      var op := clientOperations[client].jobs[job].payload;
      Begin(client, job);
      match op {
        case Call(target) => AdmitCall(client, job, target);
        case Attach(id) => AttachClientNow(client, job, id);
        case Detach => EndAttachment(client, job, true);
        case Leave => EndAttachment(client, job, false);
      }
      RouterSteps.StepKeeps(old(View()), S.Start(client, job));
    }

    /** What the suspended operation waits for has settled; `ok` tells a success from an error. */
    method Resume(client: nat, job: nat, ok: bool)
      requires Valid() && client in clientOperations && job < |clientOperations[client].jobs| &&
        (client, job) in suspended
      modifies this
      ensures View() == S.Step(old(View()), S.Continue(client, job, ok)) && Valid()
    {
      SuspendedIndexed(View(), client, job);
      hide F.FlowOk, S.Continued;
      CarryOn(client, job, ok);
      RouterSteps.StepKeeps(old(View()), S.Continue(client, job, ok));
    }

    /** The callback that forgets a settled tail. */
    method ForgetTail(client: nat, job: nat)
      requires Valid() && client in clientOperations && job < |clientOperations[client].jobs|
      requires clientOperations[client].jobs[job].status == P.Settled
      modifies this`clientOperations
      ensures View() == S.Step(old(View()), S.CleanUp(client, job)) && Valid()
    {
      clientOperations := clientOperations[client := P.Cleanup(clientOperations[client], job)];
      RouterSteps.StepKeeps(old(View()), S.CleanUp(client, job));
    }

    /** The `finally` of `disconnect`. */
    method ForgetLeaving(client: nat, job: nat)
      requires Valid() && client in clientOperations && job < |clientOperations[client].jobs|
      requires clientOperations[client].jobs[job].status == P.Settled &&
        clientOperations[client].jobs[job].payload.Leave?
      modifies this`disconnectedClients
      ensures View() == S.Step(old(View()), S.ForgetLeaving(client, job)) && Valid()
    {
      disconnectedClients := disconnectedClients - {client};
      RouterSteps.StepKeeps(old(View()), S.ForgetLeaving(client, job));
    }

    /** A call's promise settles and leaves its attachment's set. */
    method RemoveOperation(a: nat, call: nat)
      requires Valid() && a < |attachments|
      modifies this`attachments
      ensures View() == S.Step(old(View()), S.CallSettled(a, call)) && Valid()
    {
      attachments := attachments[a := attachments[a].(operations := attachments[a].operations - {call})];
      RouterSteps.StepKeeps(old(View()), S.CallSettled(a, call));
    }

    method LeaseAnswered(a: nat, granted: bool)
      requires Valid() && a < |attachments| && attachments[a].lease.Pending?
      modifies this`attachments
      ensures View() == S.Step(old(View()), S.LeaseAnswered(a, granted)) && Valid()
    {
      attachments := attachments[a := attachments[a].(lease := if granted then S.Held else S.Refused)];
      RouterSteps.StepKeeps(old(View()), S.LeaseAnswered(a, granted));
    }

    /** The release goes on once the calls it found have settled and its lease is known. */
    method ReleaseLease(a: nat)
      requires Valid() && a < |attachments| && attachments[a].stage.WaitingForCalls? && !attachments[a].lease.Pending?
      requires attachments[a].operations * attachments[a].stage.calls == {}
      modifies this`attachments, this`sessions, this`attachmentsByClient
      ensures View() == S.Step(old(View()), S.ReleaseLease(a)) && Valid()
    {
      hide F.FlowOk;
      if attachments[a].lease.Held? {
        attachments := attachments[a := attachments[a].(stage := S.ReleasingLease,
            releases := attachments[a].releases + 1)];
      } else {
        ClearAttachment(a);
      }
      RouterSteps.StepKeeps(old(View()), S.ReleaseLease(a));
    }

    /** `lease.release` has settled, either way. */
    method LeaseReleased(a: nat)
      requires Valid() && a < |attachments| && attachments[a].stage.ReleasingLease?
      modifies this`attachments, this`sessions, this`attachmentsByClient
      ensures View() == S.Step(old(View()), S.LeaseReleased(a)) && Valid()
    {
      hide F.FlowOk;
      ClearAttachment(a);
      RouterSteps.StepKeeps(old(View()), S.LeaseReleased(a));
    }

    method NoticeSent(a: nat)
      requires Valid() && a < |attachments| && attachments[a].stage.Announcing?
      modifies this`attachments
      ensures View() == S.Step(old(View()), S.NoticeSent(a)) && Valid()
    {
      attachments := attachments[a := attachments[a].(stage := S.Over)];
      RouterSteps.StepKeeps(old(View()), S.NoticeSent(a));
    }

    /** What `open` does once the host has answered. */
    method OpenSettled(o: nat, resolved: Option<nat>)
      requires Valid() && o < |opens| && opens[o].status.InProgress?
      modifies this`opens, this`sessions, this`hostedSessions, this`honest
      ensures View() == S.Step(old(View()), S.OpenSettled(o, resolved)) && Valid()
    {
      hide F.FlowOk;
      honest := honest && (resolved.Some? ==> resolved.value == opens[o].asked);
      if resolved.None? || isClosing {
        opens := opens[o := opens[o].(status := S.NotOpened)];
      } else {
        var hosted := S.HostedSession(resolved.value, {});
        opens := opens[o := opens[o].(status := S.Opened(|sessions|))];
        hostedSessions := hostedSessions[hosted.id := |sessions|];
        sessions := sessions + [hosted];
      }
      RouterSteps.StepKeeps(old(View()), S.OpenSettled(o, resolved));
    }

    /** The `finally` of `acquire`. */
    method ForgetOpening(o: nat)
      requires Valid() && o < |opens| && !opens[o].status.InProgress?
      modifies this`openingSessions
      ensures View() == S.Step(old(View()), S.ForgetOpen(o)) && Valid()
    {
      if opens[o].asked in openingSessions && openingSessions[opens[o].asked] == o {
        openingSessions := openingSessions - {opens[o].asked};
      }
      RouterSteps.StepKeeps(old(View()), S.ForgetOpen(o));
    }

    /** A session that has ended by itself is unhosted, and all its attachments are released. */
    method Invalidate(session: nat)
      requires Valid() && session < |sessions|
      modifies this`hostedSessions, this`attachments, this`disturbed
      ensures View() == S.Step(old(View()), S.Terminated(session)) && Valid()
    {
      FlowIndexed(View());
      hide F.FlowOk;
      var hosted := sessions[session];
      if hosted.id in hostedSessions && hostedSessions[hosted.id] == session {
        hostedSessions := hostedSessions - {hosted.id};
        ReleaseAll(hosted.attachments, true);
        disturbed := disturbed + {session};
      }
      RouterSteps.StepKeeps(old(View()), S.Terminated(session));
    }

    /** `removeSession` up to its await: the attachments it finds are released. */
    method RemoveSession(id: nat)
      requires Valid() && !isClosing
      modifies this`attachments, this`removals, this`disturbed
      ensures View() == S.Step(old(View()), S.RemoveSession(id)) && Valid()
    {
      FlowIndexed(View());
      hide F.FlowOk;
      if id in hostedSessions && hostedSessions[id] < |sessions| {
        var which := sessions[hostedSessions[id]].attachments;
        ReleaseAll(which, true);
        disturbed, removals := disturbed + {hostedSessions[id]}, removals + [(hostedSessions[id], which)];
      }
      RouterSteps.StepKeeps(old(View()), S.RemoveSession(id));
    }

    /** And its end, once they are all released and the handle is closed. */
    method FinishRemoval(r: nat)
      requires Valid() && r < |removals| && S.AllOver(View(), removals[r].1)
      modifies this`hostedSessions
      ensures View() == S.Step(old(View()), S.FinishRemoval(r)) && Valid()
    {
      var session := removals[r].0;
      if session < |sessions| && sessions[session].id in hostedSessions &&
          hostedSessions[sessions[session].id] == session {
        hostedSessions := hostedSessions - {sessions[session].id};
      }
      RouterSteps.StepKeeps(old(View()), S.FinishRemoval(r));
    }

    /** The server drains: `isClosing` answers true from now on. */
    method StopAccepting()
      requires Valid()
      modifies this`isClosing
      ensures View() == S.Step(old(View()), S.StopAccepting) && Valid()
    {
      isClosing := true;
      RouterSteps.StepKeeps(old(View()), S.StopAccepting);
    }

    /** `closeInternal` up to its first await: only what is there now is waited for. */
    method BeginClose()
      requires Valid() && isClosing && closing.NotBegun?
      modifies this`closing
      ensures View() == S.Step(old(View()), S.BeginClose) && Valid()
    {
      var operations := map c | c in clientOperations && clientOperations[c].tail.Some? ::
          clientOperations[c].tail.value;
      closing := S.Draining(operations, openingSessions.Values);
      RouterSteps.StepKeeps(old(View()), S.BeginClose);
    }

    /** After the drain every attachment of every hosted session is released. */
    method ReleaseHosted()
      requires Valid() && closing.Draining? && S.AllSettled(View(), closing.tails) && S.AllOpened(View(), closing.opens)
      modifies this`attachments, this`closing
      ensures View() == S.Step(old(View()), S.Drained) && Valid()
    {
      hide F.FlowOk, S.BeginAll, S.AttachmentsOf, S.AllSettled, S.AllOpened;
      var hosted := hostedSessions.Values;
      FlowLeases(View());
      var which := AttachmentsOf(hosted);
      ReleaseAll(which, true);
      closing := S.Emptying(hosted, which);
      RouterSteps.StepKeeps(old(View()), S.Drained);
    }

    /** They have all been released: the handles are closed. */
    method CloseHandles()
      requires Valid() && closing.Emptying? && S.AllOver(View(), closing.waiting)
      modifies this`closing
      ensures View() == S.Step(old(View()), S.Emptied) && Valid()
    {
      closing := S.ClosingHandles(closing.sessions);
      RouterSteps.StepKeeps(old(View()), S.Emptied);
    }

    /** The sessions whose handle failed to close stay hosted; everything else is forgotten. */
    method FinishClose(failed: set<nat>)
      requires Valid() && closing.ClosingHandles?
      modifies this`hostedSessions, this`attachmentsByClient, this`clientOperations, this`closing
      ensures View() == S.Step(old(View()), S.HandlesClosed(failed)) && Valid()
    {
      hide F.FlowOk, S.CloseStep;
      ForgetAll(failed);
      RouterSteps.StepKeeps(old(View()), S.HandlesClosed(failed));
    }
  }

  lemma FlowLeases(s: S.Router)
    requires F.FlowOk(s)
    ensures RouterSafety.LeasesOk(s)
  {
    hide RouterSafety.LeasesOk, RouterSafety.CurrentOk;
  }

  lemma MembersBelong(s: S.Router)
    requires RouterSafety.LeasesOk(s)
    ensures forall h, a :: 0 <= h < |s.sessions| && a in s.sessions[h].attachments ==>
      a < |s.attachments| && s.attachments[a].session == h
  {
    forall h | 0 <= h < |s.sessions| ensures RouterSafety.MembersOk(s.attachments, s.sessions[h].attachments, h) { }
  }

  lemma NotYet(s: S.Router, client: nat, job: nat, a: nat)
    requires a < |s.attachments| && s.attachments[a].lease.Pending? && job < |S.ChainOf(s, client).jobs|
    ensures S.Leased(s, client, job, a) == s
  {
  }

  lemma SuspendedIndexed(s: S.Router, client: nat, job: nat)
    requires F.FlowOk(s) && (client, job) in s.suspended
    ensures Reachable(s, s.suspended[(client, job)])
  {
    assert RouterSafety.SuspendedOk(s, (client, job), s.suspended[(client, job)]);
  }
}
