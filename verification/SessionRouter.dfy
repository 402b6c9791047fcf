/**
 The session router: per-client chains of operations, single-flight session opening, leases with
 memoised release, and attachment ids as fences. A step runs to the next await; hosts settle in any
 order, with either outcome.
 */
module SessionRouter {
  import opened Common
  import opened PromiseChain

  datatype Target = ServerOnly | SessionTarget(session: nat, attachment: nat)

  datatype Op = Call(target: Target) | Attach(id: nat) | Detach | Leave

  /** What the host has answered to the request for a lease. */
  datatype Lease = Pending | Refused | Held

  /** The memoised release: not begun, waiting for the calls it found, in `lease.release`, telling the client, over. */
  datatype Stage = Active | WaitingForCalls(calls: set<nat>) | ReleasingLease | Announcing | Over

  /**
   `job` is the operation that created it; `releases` counts calls of `lease.release`; `installed`: has been current.
   */
  datatype Attachment = Attachment(
    client: nat,
    job: nat,
    session: nat,
    operations: set<nat>,
    lease: Lease,
    stage: Stage,
    publish: bool,
    releases: nat,
    installed: bool)

  datatype HostedSession = HostedSession(id: nat, attachments: set<nat>)

  datatype OpenStatus = InProgress | Opened(session: nat) | NotOpened

  datatype Open = Open(asked: nat, status: OpenStatus)

  /** Where a running operation is suspended. */
  datatype Suspended =
    | AwaitingOpen(open: nat, current: Option<nat>)
    | AwaitingHosted(session: nat, current: Option<nat>)
    | AwaitingSwitch(session: nat, previous: nat)
    | AwaitingLease(attachment: nat)
    | AwaitingUndo(attachment: nat)
    | AwaitingNotice(attachment: nat)
    | AwaitingRelease(attachment: nat)

  /** A call handed to a session; `late`: after the release of its attachment had begun. */
  datatype Admission = Admission(client: nat, target: Target, attachment: nat, late: bool)

  datatype Closing =
    | NotBegun
    | Draining(tails: map<nat, nat>, opens: set<nat>)
    | Emptying(sessions: set<nat>, waiting: set<nat>)
    | ClosingHandles(sessions: set<nat>)
    | Finished(sessions: set<nat>)

  /** Attachments, sessions, opens and admissions are numbered as they are made. `disturbed` are the sessions
   removed or ended by themselves; it, `admitted`, and `honest` are history. */
  datatype Router = Router(
    sessions: seq<HostedSession>,
    attachments: seq<Attachment>,
    hosted: map<nat, nat>,
    opens: seq<Open>,
    opening: map<nat, nat>,
    byClient: map<nat, nat>,
    leaving: set<nat>,
    chains: map<nat, Chain<Op>>,
    suspended: map<(nat, nat), Suspended>,
    admitted: seq<Admission>,
    removals: seq<(nat, set<nat>)>,
    closing: bool,
    close: Closing,
    disturbed: set<nat>,
    honest: bool)

  const INITIAL := Router([], [], map[], [], map[], map[], {}, map[], map[], [], [], false, NotBegun, {}, true)

  datatype Action =
    | Submit(client: nat, op: Op)
    | Start(client: nat, job: nat)
    | Continue(client: nat, job: nat, ok: bool)
    | CleanUp(client: nat, job: nat)
    | ForgetLeaving(client: nat, job: nat)
    | CallSettled(attachment: nat, call: nat)
    | LeaseAnswered(attachment: nat, granted: bool)
    | ReleaseLease(attachment: nat)
    | LeaseReleased(attachment: nat)
    | NoticeSent(attachment: nat)
    | OpenSettled(open: nat, resolved: Option<nat>)
    | ForgetOpen(open: nat)
    | Terminated(hosted: nat)
    | RemoveSession(session: nat)
    | FinishRemoval(removal: nat)
    | StopAccepting
    | BeginClose
    | Drained
    | Emptied
    | HandlesClosed(failed: set<nat>)

  // ---------------------------------------------------------------- attachments

  function Begin(a: Attachment, publish: bool): Attachment {
    if a.stage.Active? then a.(stage := WaitingForCalls(a.operations), publish := publish) else a
  }

  /** `releaseAttachment` on each of `which`. */
  function BeginAll(s: Router, which: set<nat>, publish: bool): Router {
    s.(attachments := seq(|s.attachments|, i requires 0 <= i < |s.attachments| =>
         if i in which then Begin(s.attachments[i], publish) else s.attachments[i]))
  }

  function WithAttachment(s: Router, a: nat, x: Attachment): Router
    requires a < |s.attachments|
  {
    s.(attachments := s.attachments[a := x])
  }

  function Leaves(s: Router, session: nat, a: nat): Router {
    if session < |s.sessions| then
      s.(sessions := s.sessions[session := s.sessions[session].(attachments := s.sessions[session].attachments - {a})])
    else s
  }

  /** `clearAttachment`, up to its notice. */
  function Clear(s: Router, a: nat): Router
    requires a < |s.attachments|
  {
    var x := s.attachments[a];
    var current := x.client in s.byClient && s.byClient[x.client] == a;
    Leaves(s, x.session, a).(
      byClient := if current then s.byClient - {x.client} else s.byClient,
      attachments := s.attachments[a := x.(stage := if current && x.publish then Announcing else Over)])
  }

  function Created(s: Router, client: nat, job: nat, session: nat): Router
    requires session < |s.sessions|
  {
    var a := |s.attachments|;
    s.(attachments := s.attachments + [Attachment(client, job, session, {}, Pending, Active, false, 0, false)],
       sessions := s.sessions[session := s.sessions[session].(attachments := s.sessions[session].attachments + {a})])
  }

  // ---------------------------------------------------------------- operations of a client

  function ChainOf(s: Router, client: nat): Chain<Op> {
    if client in s.chains then s.chains[client] else Empty()
  }

  function WithChain(s: Router, client: nat, c: Chain<Op>): Router { s.(chains := s.chains[client := c]) }

  function Suspend(s: Router, client: nat, job: nat, at: Suspended): Router {
    s.(suspended := s.suspended[(client, job) := at])
  }

  /** Adds an attachment to the session and asks the host for its lease. */
  function CreateAttachment(s: Router, client: nat, job: nat, session: nat): Router
    requires session < |s.sessions|
  {
    Suspend(Created(s, client, job, session), client, job, AwaitingLease(|s.attachments|))
  }

  /** The operation's promise settles, either way. */
  function Settle(s: Router, client: nat, job: nat): Router
    requires job < |ChainOf(s, client).jobs|
  {
    WithChain(s, client, SetStatus(ChainOf(s, client), job, Settled)).(suspended := s.suspended - {(client, job)})
  }

  predicate Barred(s: Router, client: nat) { s.closing || client in s.leaving }

  /** `requireAttachment`. */
  function Accepted(s: Router, client: nat, target: Target): Option<nat> {
    if Barred(s, client) || target.ServerOnly? || client !in s.byClient then None
    else
      var a := s.byClient[client];
      if a < |s.attachments| && s.attachments[a].session < |s.sessions|
         && s.sessions[s.attachments[a].session].id == target.session && a == target.attachment
      then Some(a) else None
  }

  function Admit(s: Router, client: nat, target: Target): Router {
    match Accepted(s, client, target)
    case None => s
    case Some(a) =>
      var x := s.attachments[a];
      WithAttachment(s, a, x.(operations := x.operations + {|s.admitted|}))
        .(admitted := s.admitted + [Admission(client, target, a, !x.stage.Active?)])
  }

  function SessionIdOf(s: Router, a: nat): Option<nat> {
    if a < |s.attachments| && s.attachments[a].session < |s.sessions| then Some(s.sessions[s.attachments[a].session].id)
        else None
  }

  /** Opens the session unless it is hosted or being opened. */
  function EnsureOpen(s: Router, id: nat): Router {
    if id in s.hosted || id in s.opening then s
    else s.(opens := s.opens + [Open(id, InProgress)], opening := s.opening[id := |s.opens|])
  }

  /** The client's attachment when its operation begins. */
  function CurrentOf(s: Router, client: nat): Option<nat> {
    if client in s.byClient then Some(s.byClient[client]) else None
  }

  /** `acquire`: the hosted session, or the one open in progress for it. */
  function Acquire(s: Router, client: nat, job: nat, id: nat): Router {
    var t := EnsureOpen(s, id);
    Suspend(t, client, job,
            if id in s.hosted then AwaitingHosted(s.hosted[id], CurrentOf(s, client))
                else AwaitingOpen(t.opening[id], CurrentOf(s, client)))
  }

  /** An operation whose turn has come runs to its first await. */
  function Begun(s: Router, client: nat, job: nat): Router
    requires job < |ChainOf(s, client).jobs|
  {
    match ChainOf(s, client).jobs[job].payload
    case Call(target) => Settle(Admit(s, client, target), client, job)
    case Attach(id) =>
      if Barred(s, client) then Settle(s, client, job)
      else if client in s.byClient && SessionIdOf(s, s.byClient[client]) == Some(id) then Settle(s, client, job)
      else Acquire(s, client, job, id)
    case Detach =>
      if client in s.byClient then Suspend(BeginAll(s, {s.byClient[client]}, true), client, job,
          AwaitingRelease(s.byClient[client]))
      else Settle(s, client, job)
    case Leave =>
      if client in s.byClient then Suspend(BeginAll(s, {s.byClient[client]}, false), client, job,
          AwaitingRelease(s.byClient[client]))
      else Settle(s, client, job)
  }

  /** `attachClientNow` once it has a session. */
  function Acquired(s: Router, client: nat, job: nat, session: nat, current: Option<nat>): Router
    requires job < |ChainOf(s, client).jobs|
  {
    if Barred(s, client) || session >= |s.sessions| then Settle(s, client, job)
    else if current.Some? then
      Suspend(BeginAll(s, {current.value}, false), client, job, AwaitingSwitch(session, current.value))
    else CreateAttachment(s, client, job, session)
  }

  predicate IsOver(s: Router, a: nat) { a < |s.attachments| && s.attachments[a].stage.Over? }

  /** The checks after the lease has been granted. */
  predicate Usable(s: Router, client: nat, a: nat)
    requires a < |s.attachments|
  {
    var session := s.attachments[a].session;
    && session < |s.sessions|
    && s.sessions[session].id in s.hosted && s.hosted[s.sessions[session].id] == session
    && a in s.sessions[session].attachments
    && !Barred(s, client)
  }

  function Leased(s: Router, client: nat, job: nat, a: nat): Router
    requires a < |s.attachments| && job < |ChainOf(s, client).jobs|
  {
    var x := s.attachments[a];
    match x.lease
    case Pending => s
    case Refused => Settle(Leaves(s, x.session, a), client, job)
    case Held =>
      if !Usable(s, client, a) then Suspend(BeginAll(s, {a}, true), client, job, AwaitingUndo(a))
      else
        Suspend(WithAttachment(s, a, x.(installed := true)).(byClient := s.byClient[client := a]), client, job,
            AwaitingNotice(a))
  }

  /** A suspended operation goes on when what it waits for has settled; `ok` tells a success from an error. */
  function Continued(s: Router, client: nat, job: nat, ok: bool): Router
    requires job < |ChainOf(s, client).jobs| && (client, job) in s.suspended
  {
    match s.suspended[(client, job)]
    case AwaitingOpen(o, current) =>
      if o >= |s.opens| || s.opens[o].status.InProgress? then s
      else if s.opens[o].status.NotOpened? then Settle(s, client, job)
      else Acquired(s, client, job, s.opens[o].status.session, current)
    case AwaitingHosted(session, current) => Acquired(s, client, job, session, current)
    case AwaitingSwitch(session, previous) =>
      if !IsOver(s, previous) then s
      else if !ok || session >= |s.sessions| then Settle(s, client, job)
      else CreateAttachment(s, client, job, session)
    case AwaitingLease(a) => if a < |s.attachments| then Leased(s, client, job, a) else s
    case AwaitingUndo(a) => if IsOver(s, a) then Settle(s, client, job) else s
    case AwaitingNotice(_) => Settle(s, client, job)
    case AwaitingRelease(a) => if IsOver(s, a) then Settle(s, client, job) else s
  }

  /** An operation's turn comes. */
  function Turn(s: Router, client: nat, job: nat): Router
    requires job < |ChainOf(s, client).jobs|
  {
    WithChain(s, client, SetStatus(ChainOf(s, client), job, Running))
  }

  function Submitted(s: Router, client: nat, op: Op): Router {
    if op.Attach? && s.closing then s
    else
      WithChain(s, client, PromiseChain.Submit(ChainOf(s, client), op))
        .(leaving := if op.Leave? then s.leaving + {client} else s.leaving)
  }

  // ---------------------------------------------------------------- sessions

  function OpenEnds(s: Router, o: nat, id: Option<nat>): Router
    requires o < |s.opens|
  {
    var open := s.opens[o];
    var t := s.(honest := s.honest && (id.Some? ==> id.value == open.asked));
    if id.None? || s.closing then t.(opens := s.opens[o := open.(status := NotOpened)])
    else
      t.(opens := s.opens[o := open.(status := Opened(|s.sessions|))],
         sessions := s.sessions + [HostedSession(id.value, {})],
         hosted := s.hosted[id.value := |s.sessions|])
  }

  predicate IsHosted(s: Router, session: nat) {
    session < |s.sessions| && s.sessions[session].id in s.hosted && s.hosted[s.sessions[session].id] == session
  }

  function Unhost(s: Router, session: nat): Router {
    if IsHosted(s, session) then s.(hosted := s.hosted - {s.sessions[session].id}) else s
  }

  /** `invalidate`: the session ended by itself. */
  function Invalidate(s: Router, session: nat): Router {
    if IsHosted(s, session) then BeginAll(Unhost(s, session), s.sessions[session].attachments, true).(disturbed :=
        s.disturbed + {session}) else s
  }

  function BeginRemoval(s: Router, id: nat): Router {
    if s.closing || id !in s.hosted || s.hosted[id] >= |s.sessions| then s
    else
      var session := s.hosted[id];
      var which := s.sessions[session].attachments;
      BeginAll(s, which, true).(disturbed := s.disturbed + {session}, removals := s.removals + [(session, which)])
  }

  predicate AllOver(s: Router, which: set<nat>) { forall a :: a in which ==> IsOver(s, a) }

  // ---------------------------------------------------------------- shutdown

  function Tails(s: Router): map<nat, nat> {
    map c | c in s.chains && s.chains[c].tail.Some? :: s.chains[c].tail.value
  }

  predicate AllSettled(s: Router, tails: map<nat, nat>) {
    forall c :: c in tails ==>
      c in s.chains && tails[c] < |s.chains[c].jobs| && s.chains[c].jobs[tails[c]].status == PromiseChain.Settled
  }

  predicate AllOpened(s: Router, opens: set<nat>) {
    forall o :: o in opens ==> o < |s.opens| && !s.opens[o].status.InProgress?
  }

  function AttachmentsOf(s: Router, sessions: set<nat>): set<nat> {
    set a | 0 <= a < |s.attachments| && s.attachments[a].session in sessions && s.attachments[a].session < |s.sessions|
            && a in s.sessions[s.attachments[a].session].attachments
  }

  function WithoutTails(chains: map<nat, Chain<Op>>): map<nat, Chain<Op>> {
    map c | c in chains :: chains[c].(tail := None)
  }

  function CloseStep(s: Router, a: Action): Router
    requires a.BeginClose? || a.Drained? || a.Emptied? || a.HandlesClosed?
  {
    match a
    case BeginClose =>
      if s.closing && s.close.NotBegun? then s.(close := Draining(Tails(s), s.opening.Values)) else s
    case Drained =>
      if s.close.Draining? && AllSettled(s, s.close.tails) && AllOpened(s, s.close.opens) then
        var sessions := s.hosted.Values;
        var which := AttachmentsOf(s, sessions);
        BeginAll(s, which, true).(close := Emptying(sessions, which))
      else s
    case Emptied =>
      if s.close.Emptying? && AllOver(s, s.close.waiting) then s.(close := ClosingHandles(s.close.sessions)) else s
    case HandlesClosed(failed) =>
      if s.close.ClosingHandles? then
        s.(close := Finished(s.close.sessions),
           hosted := map id | id in s.hosted && s.hosted[id] in failed :: s.hosted[id],
           byClient := map[],
           chains := WithoutTails(s.chains))
      else s
  }

  function Step(s: Router, a: Action): Router {
    match a
    case Submit(c, op) => Submitted(s, c, op)
    case Start(c, j) =>
      if CanStart(ChainOf(s, c), j) then Begun(Turn(s, c, j), c, j) else s
    case Continue(c, j, ok) =>
      if j < |ChainOf(s, c).jobs| && (c, j) in s.suspended then Continued(s, c, j, ok) else s
    case CleanUp(c, j) =>
      if c in s.chains && j < |s.chains[c].jobs| && s.chains[c].jobs[j].status == PromiseChain.Settled
      then WithChain(s, c, Cleanup(s.chains[c], j)) else s
    case ForgetLeaving(c, j) =>
      if c in s.chains && j < |s.chains[c].jobs| && s.chains[c].jobs[j].status == PromiseChain.Settled &&
          s.chains[c].jobs[j].payload.Leave?
      then s.(leaving := s.leaving - {c}) else s
    case CallSettled(x, call) =>
      if x < |s.attachments| then WithAttachment(s, x,
          s.attachments[x].(operations := s.attachments[x].operations - {call})) else s
    case LeaseAnswered(x, granted) =>
      if x < |s.attachments| && s.attachments[x].lease.Pending?
      then WithAttachment(s, x, s.attachments[x].(lease := if granted then Held else Refused)) else s
    case ReleaseLease(x) =>
      if x < |s.attachments| && s.attachments[x].stage.WaitingForCalls?
         && s.attachments[x].operations * s.attachments[x].stage.calls == {} then
        match s.attachments[x].lease
        case Pending => s
        case Refused => Clear(s, x)
        case Held => WithAttachment(s, x, s.attachments[x].(stage := ReleasingLease,
            releases := s.attachments[x].releases + 1))
      else s
    case LeaseReleased(x) => if x < |s.attachments| && s.attachments[x].stage.ReleasingLease? then Clear(s, x) else s
    case NoticeSent(x) =>
      if x < |s.attachments| && s.attachments[x].stage.Announcing? then
          WithAttachment(s, x, s.attachments[x].(stage := Over)) else s
    case OpenSettled(o, id) => if o < |s.opens| && s.opens[o].status.InProgress? then OpenEnds(s, o, id) else s
    case ForgetOpen(o) =>
      if o < |s.opens| && !s.opens[o].status.InProgress? && s.opens[o].asked in s.opening &&
          s.opening[s.opens[o].asked] == o
      then s.(opening := s.opening - {s.opens[o].asked}) else s
    case Terminated(session) => Invalidate(s, session)
    case RemoveSession(id) => BeginRemoval(s, id)
    case FinishRemoval(r) =>
      if r < |s.removals| && AllOver(s, s.removals[r].1) then Unhost(s, s.removals[r].0) else s
    case StopAccepting => s.(closing := true)
    case BeginClose => CloseStep(s, a)
    case Drained => CloseStep(s, a)
    case Emptied => CloseStep(s, a)
    case HandlesClosed(_) => CloseStep(s, a)
  }

  function Run(s: Router, actions: seq<Action>): Router
    decreases |actions|
  {
    if actions == [] then s else Run(Step(s, actions[0]), actions[1..])
  }

  lemma RunLast(s: Router, a: Action)
    ensures Run(s, [a]) == Step(s, a)
  {
    hide Step;
    assert [a][1..] == [];
    assert Run(Step(s, a), []) == Step(s, a);
  }

  lemma {:induction false} RunAppend(s: Router, a: seq<Action>, b: seq<Action>)
    ensures Run(s, a + b) == Run(Run(s, a), b)
    decreases |a|
  {
    hide Step;
    if a == [] {
      assert a + b == b;
    } else {
      assert (a + b)[1..] == a[1..] + b;
      RunAppend(Step(s, a[0]), a[1..], b);
    }
  }
}
