/**
 The promise chain used per client by the session router and per provider by the model catalog:
 each job waits for the tail it found in a map, becomes the new tail, and removes itself from the
 map after settling if it is still the tail. Removal must not let two jobs run at once.
 */
module PromiseChain {
  import opened Common

  datatype Status = Waiting | Running | Settled

  /** `previous` is the tail found at submission; none stands for an already resolved promise. */
  datatype Job<P> = Job(payload: P, previous: Option<nat>, status: Status)

  /** Jobs are numbered in submission order; `tail` is the map entry, if there is one. */
  datatype Chain<P> = Chain(jobs: seq<Job<P>>, tail: Option<nat>)

  function Empty<P>(): Chain<P> { Chain([], None) }

  function Submit<P>(c: Chain<P>, p: P): Chain<P> {
    Chain(c.jobs + [Job(p, c.tail, Waiting)], Some(|c.jobs|))
  }

  /** A waiting job may start when the promise it waits for has settled. */
  predicate CanStart<P>(c: Chain<P>, j: nat) {
    j < |c.jobs| && c.jobs[j].status == Waiting &&
    match c.jobs[j].previous
    case None => true
    case Some(p) => p < |c.jobs| && c.jobs[p].status == Settled
  }

  predicate IsRunning<P>(c: Chain<P>, j: nat) {
    j < |c.jobs| && c.jobs[j].status == Running
  }

  function SetStatus<P>(c: Chain<P>, j: nat, s: Status): Chain<P>
    requires j < |c.jobs|
  {
    c.(jobs := c.jobs[j := c.jobs[j].(status := s)])
  }

  /** The clean-up callback of a settled job. */
  function Cleanup<P>(c: Chain<P>, j: nat): Chain<P> {
    if c.tail == Some(j) then c.(tail := None) else c
  }

  /**
   * What holds in every reachable chain. Jobs settle in submission order: a settled stretch, then at
   * most one running job, then waiting ones; and the map entry, when missing, leaves nothing behind.
   */
  ghost predicate Serial<P>(c: Chain<P>) {
    && (c.tail.Some? ==> c.tail.value + 1 == |c.jobs|)
    && (c.tail.None? ==> forall i :: 0 <= i < |c.jobs| ==> c.jobs[i].status == Settled)
    && (forall i, j :: 0 <= i < j < |c.jobs| && c.jobs[j].status != Waiting ==> c.jobs[i].status == Settled)
    && (forall j :: 0 <= j < |c.jobs| && c.jobs[j].previous.Some? ==> c.jobs[j].previous.value + 1 == j)
    && (forall i, j :: 0 <= i < j < |c.jobs| && c.jobs[j].previous.None? ==> c.jobs[i].status == Settled)
  }

  lemma EmptySerial<P>()
    ensures Serial(Empty<P>())
  {
  }

  lemma SubmitSerial<P>(c: Chain<P>, p: P)
    requires Serial(c)
    ensures Serial(Submit(c, p))
  {
    var d := Submit(c, p);
    forall i | 0 <= i < |c.jobs| ensures d.jobs[i] == c.jobs[i] { }
  }

  /** A job can start only when every earlier job has settled and every later one still waits. */
  lemma StartSerial<P>(c: Chain<P>, j: nat)
    requires Serial(c) && CanStart(c, j)
    ensures forall i :: 0 <= i < j ==> c.jobs[i].status == Settled
    ensures forall i :: j <= i < |c.jobs| ==> c.jobs[i].status == Waiting
    ensures Serial(SetStatus(c, j, Running))
    ensures Serial(SetStatus(c, j, Settled))
  {
    if c.jobs[j].previous.Some? {
      assert c.jobs[j].previous.value == j - 1;
      assert c.jobs[j - 1].status == Settled;
    }
  }

  lemma SettleSerial<P>(c: Chain<P>, j: nat)
    requires Serial(c) && IsRunning(c, j)
    ensures Serial(SetStatus(c, j, Settled))
  {
  }

  lemma CleanupSerial<P>(c: Chain<P>, j: nat)
    requires Serial(c) && j < |c.jobs| && c.jobs[j].status == Settled
    ensures Serial(Cleanup(c, j))
  {
  }

  /** The chain never gets stuck: the first job that has not settled is running, or may start. */
  lemma NextCanStart<P>(c: Chain<P>, j: nat)
    requires Serial(c) && j < |c.jobs| && c.jobs[j].status != Settled
    requires forall i :: 0 <= i < j ==> c.jobs[i].status == Settled
    ensures IsRunning(c, j) || CanStart(c, j)
  {
    if c.jobs[j].previous.Some? { assert c.jobs[j - 1].status == Settled; }
  }

  /** Mutual exclusion: while one job runs, no other job runs or may start. */
  lemma OneAtATime<P>(c: Chain<P>, i: nat, j: nat)
    requires Serial(c) && IsRunning(c, i) && (IsRunning(c, j) || CanStart(c, j))
    ensures i == j && !CanStart(c, j)
  {
    if CanStart(c, j) { StartSerial(c, j); }
  }
}
