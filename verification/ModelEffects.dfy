/**
 What a publication does when nothing stands in its way: whether it writes and updates memory is decided by the
 generation and the signals at its turn and at the end of its write, and store and memory hold what the last
 writes and updates asked for.
 */
module ModelEffects {
  import opened Common
  import opened ModelCatalog
  import opened PromiseChain

  /** The store as the writes that ended well leave it. */
  function Stored(jobs: seq<Job<Publication>>, log: seq<Event>): Option<Entry> {
    if log == [] then None
    else
      match log[|log| - 1]
      case WriteEnd(j, true) =>
        if j < |jobs| && jobs[j].payload.persist.Write? then Some(jobs[j].payload.persist.entry) else None
      case _ => Stored(jobs, log[..|log| - 1])
  }

  /** The models as the updates leave them. */
  function Remembered(jobs: seq<Job<Publication>>, log: seq<Event>): Option<Models> {
    if log == [] then None
    else
      match log[|log| - 1]
      case Applied(j) => if j < |jobs| then jobs[j].payload.update else None
      case _ => Remembered(jobs, log[..|log| - 1])
  }

  ghost predicate Reflects(c: Catalog) {
    && c.store == Stored(c.chain.jobs, c.log) && c.memory == Remembered(c.chain.jobs, c.log)
    && forall k :: 0 <= k < |c.log| ==> c.log[k].job < |c.chain.jobs|
  }

  /** Of the jobs only the publications matter, and later jobs do not. */
  lemma {:induction false} SamePayloads(a: seq<Job<Publication>>, b: seq<Job<Publication>>, log: seq<Event>)
    requires |a| <= |b| && forall i :: 0 <= i < |a| ==> a[i].payload == b[i].payload
    requires forall k :: 0 <= k < |log| ==> log[k].job < |a|
    ensures Stored(a, log) == Stored(b, log) && Remembered(a, log) == Remembered(b, log)
  {
    if log != [] {
      assert log[|log| - 1].job < |a|;
      SamePayloads(a, b, log[..|log| - 1]);
    }
  }

  lemma OneMore(jobs: seq<Job<Publication>>, log: seq<Event>, e: Event)
    requires e.job < |jobs|
    ensures Stored(jobs, log + [e]) ==
      if e.WriteEnd? && e.ok then
        (if jobs[e.job].payload.persist.Write? then Some(jobs[e.job].payload.persist.entry) else None)
      else Stored(jobs, log)
    ensures Remembered(jobs, log + [e]) == if e.Applied? then jobs[e.job].payload.update else Remembered(jobs, log)
  {
    assert (log + [e])[..|log|] == log;
  }

  /** One more event, and store and memory as it leaves them. */
  lemma LogReflects(c: Catalog, d: Catalog, e: Event)
    requires Reflects(c) && d.log == c.log + [e] && e.job < |c.chain.jobs| && d.chain.jobs == c.chain.jobs
    requires d.store == if e.WriteEnd? && e.ok then
      (if c.chain.jobs[e.job].payload.persist.Write? then Some(c.chain.jobs[e.job].payload.persist.entry) else None)
      else c.store
    requires d.memory == if e.Applied? then c.chain.jobs[e.job].payload.update else c.memory
    ensures Reflects(d)
  {
    OneMore(c.chain.jobs, c.log, e);
  }

  lemma ChainReflects(c: Catalog, d: Catalog)
    requires Reflects(c) && d.log == c.log && d.store == c.store && d.memory == c.memory
    requires |c.chain.jobs| <= |d.chain.jobs|
    requires forall i :: 0 <= i < |c.chain.jobs| ==> d.chain.jobs[i].payload == c.chain.jobs[i].payload
    ensures Reflects(d)
  {
    SamePayloads(c.chain.jobs, d.chain.jobs, c.log);
  }

  lemma ApplyReflects(c: Catalog, j: nat)
    requires Reflects(c) && j < |c.chain.jobs|
    ensures Reflects(Apply(c, j))
  {
    hide Reflects;
    if c.chain.jobs[j].payload.update.Some? { LogReflects(c, Apply(c, j), Applied(j)); }
  }

  lemma TurnReflects(c: Catalog, j: nat)
    requires Reflects(c) && CanStart(c.chain, j)
    ensures Reflects(Step(c, Turn(j)))
  {
    hide Reflects, Apply;
    var settled, running := c.(chain := SetStatus(c.chain, j, Settled)), c.(chain := SetStatus(c.chain, j, Running));
    ChainReflects(c, settled);
    ApplyReflects(settled, j);
    ChainReflects(c, running);
    LogReflects(running, running.(log := c.log + [WriteStart(j)]), WriteStart(j));
  }

  lemma WriteDoneReflects(c: Catalog, j: nat, ok: bool)
    requires Reflects(c) && IsRunning(c.chain, j)
    ensures Reflects(Step(c, WriteDone(j, ok)))
  {
    hide Reflects, Apply;
    var settled := c.(chain := SetStatus(c.chain, j, Settled));
    var p := c.chain.jobs[j].payload;
    ChainReflects(c, settled);
    var ended := settled.(log := c.log + [WriteEnd(j, ok)]);
    if ok {
      var written := ended.(store := if p.persist.Write? then Some(p.persist.entry) else None);
      LogReflects(settled, written, WriteEnd(j, ok));
      ApplyReflects(written, j);
    } else {
      LogReflects(settled, ended, WriteEnd(j, ok));
    }
  }

  lemma StepReflects(c: Catalog, a: Action)
    requires Reflects(c)
    ensures Reflects(Step(c, a))
  {
    hide Reflects;
    match a
    case Turn(j) => if CanStart(c.chain, j) { TurnReflects(c, j); }
    case WriteDone(j, ok) => if IsRunning(c.chain, j) { WriteDoneReflects(c, j, ok); }
    case _ => ChainReflects(c, Step(c, a));
  }

  lemma {:induction false} RunReflects(c: Catalog, actions: seq<Action>)
    requires Reflects(c)
    ensures Reflects(Run(c, actions))
    decreases |actions|
  {
    hide Reflects, Step;
    if actions != [] {
      StepReflects(c, actions[0]);
      RunReflects(Step(c, actions[0]), actions[1..]);
    }
  }

  /** On every run the store is what the last successful write left, and memory what the last update brought. */
  lemma StoreAndMemory(actions: seq<Action>)
    ensures var c := Run(INITIAL, actions);
      c.store == Stored(c.chain.jobs, c.log) && c.memory == Remembered(c.chain.jobs, c.log)
  {
    RunReflects(INITIAL, actions);
  }

  // ---------------------------------------------------------------- what a turn and the end of a write decide

  /** Nothing has superseded the publication's refresh or aborted it. */
  predicate Current(c: Catalog, p: Publication) { p.generation == c.generation && p.generation !in c.aborted }

  /** How often the provider's refreshes have been superseded. */
  function Begun(actions: seq<Action>): nat {
    if actions == [] then 0
    else
      var a := actions[|actions| - 1];
      Begun(actions[..|actions| - 1]) + if a == Supersede || a == BeginRefresh then 1 else 0
  }

  /** The caller has aborted the refresh of generation `g`. */
  predicate Called(actions: seq<Action>, g: nat) {
    if actions == [] then false
    else
      var before := actions[..|actions| - 1];
      Called(before, g) || (actions[|actions| - 1] == CallerAbort(g) && g <= Begun(before))
  }

  lemma {:induction false} RunLast(c: Catalog, actions: seq<Action>)
    requires actions != []
    ensures Run(c, actions) == Step(Run(c, actions[..|actions| - 1]), actions[|actions| - 1])
  {
    RunAt(c, actions, |actions| - 1);
    assert actions[|actions|..] == [];
  }

  lemma {:induction false} Signals(actions: seq<Action>)
    ensures var c := Run(INITIAL, actions);
      && c.generation == Begun(actions) && (c.controller.Some? ==> c.controller.value == c.generation)
      && forall g: nat :: Called(actions, g) || g < c.generation || g !in c.aborted
    ensures forall g: nat :: Called(actions, g) ==> g in Run(INITIAL, actions).aborted
  {
    if actions != [] {
      Signals(actions[..|actions| - 1]);
      RunLast(INITIAL, actions);
      hide Run;
    }
  }

  /** Current is exactly the latest refresh, unless the caller has aborted it. */
  lemma CurrentMeans(actions: seq<Action>, p: Publication)
    ensures Current(Run(INITIAL, actions), p) <==> p.generation == Begun(actions) && !Called(actions, p.generation)
  {
    Signals(actions);
  }

  predicate Writes(log: seq<Event>, j: nat) { exists k :: 0 <= k < |log| && log[k] == WriteStart(j) }

  lemma SettledStep(c: Catalog, a: Action, j: nat)
    requires j < |c.chain.jobs| && c.chain.jobs[j].status == Settled
    ensures var d := Step(c, a);
      && c.log <= d.log && j < |d.chain.jobs| && d.chain.jobs[j].status == Settled
      && !Mentions(d.log[|c.log|..], j)
  {
  }

  /** A settled publication is over. */
  lemma {:induction false} SettledForGood(c: Catalog, j: nat, actions: seq<Action>)
    requires j < |c.chain.jobs| && c.chain.jobs[j].status == Settled
    ensures var d := Run(c, actions); c.log <= d.log && !Mentions(d.log[|c.log|..], j)
    decreases |actions|
  {
    if actions == [] {
      assert c.log[|c.log|..] == [];
    } else {
      SettledStep(c, actions[0], j);
      var m := Step(c, actions[0]);
      hide Step, Mentions;
      SettledForGood(m, j, actions[1..]);
      var d := Run(c, actions);
      assert d.log[|c.log|..] == m.log[|c.log|..] + d.log[|m.log|..];
      SplitLog(m.log[|c.log|..], d.log[|m.log|..], j);
    }
  }

  lemma {:induction false} RunAt(c: Catalog, actions: seq<Action>, n: nat)
    requires n < |actions|
    ensures Run(c, actions) == Run(Step(Run(c, actions[..n]), actions[n]), actions[n + 1..])
    decreases |actions|
  {
    hide Step;
    if n == 0 {
      assert actions[..0] == [];
    } else {
      assert actions[1..][..n - 1] == actions[..n][1..] && actions[1..][n..] == actions[n + 1..];
      RunAt(Step(c, actions[0]), actions[1..], n - 1);
    }
  }

  /** What a log says of one job: `first` in the step that decides, nothing later. */
  lemma Decided(first: seq<Event>, rest: seq<Event>, j: nat)
    requires !Mentions(rest, j)
    ensures Updates(first + rest, j) <==> Updates(first, j)
    ensures Writes(first + rest, j) <==> Writes(first, j)
  {
    SplitLog(first, rest, j);
    forall k | 0 <= k < |first| ensures (first + rest)[k] == first[k] { }
    forall k | 0 <= k < |rest| ensures (first + rest)[|first| + k] == rest[k] { }
  }

  /**
   The turn of a publication decides: it writes if it has something to store, and otherwise updates memory, if and only
   if its refresh has been neither superseded nor aborted by then.
   */
  lemma TurnDecides(actions: seq<Action>, n: nat, j: nat)
    requires n < |actions| && actions[n] == Turn(j) && CanStart(Run(INITIAL, actions[..n]).chain, j)
    ensures var c := Run(INITIAL, actions[..n]); var d := Run(INITIAL, actions); var p := c.chain.jobs[j].payload;
      && c.log <= d.log
      && (Writes(d.log[|c.log|..], j) <==> p.persist != Keep && Current(c, p))
      && (p.persist == Keep ==> (Updates(d.log[|c.log|..], j) <==> p.update.Some? && Current(c, p)))
  {
    var c := Run(INITIAL, actions[..n]);
    var d := Run(INITIAL, actions);
    var p := c.chain.jobs[j].payload;
    var m := Step(c, actions[n]);
    RunAt(INITIAL, actions, n);
    var rest := actions[n + 1..];
    hide Run;
    if m.chain.jobs[j].status == Settled {
      SettledForGood(m, j, rest);
      var first := m.log[|c.log|..];
      assert d.log[|c.log|..] == first + d.log[|m.log|..];
      Decided(first, d.log[|m.log|..], j);
      assert Current(c, p) && p.update.Some? ==> first[0] == Applied(j);
    } else {
      LogGrows(m, rest);
      assert d.log[|c.log|..][0] == WriteStart(j);
    }
  }

  lemma {:induction false} LogGrows(c: Catalog, actions: seq<Action>)
    ensures c.log <= Run(c, actions).log
    decreases |actions|
  {
    if actions != [] { LogGrows(Step(c, actions[0]), actions[1..]); }
  }

  /**
   The end of a write decides again: memory is updated if and only if the write succeeded and the refresh is still
   neither superseded nor aborted.
   */
  lemma WriteDecides(actions: seq<Action>, n: nat, j: nat, ok: bool)
    requires n < |actions| && actions[n] == WriteDone(j, ok) && IsRunning(Run(INITIAL, actions[..n]).chain, j)
    ensures var c := Run(INITIAL, actions[..n]); var d := Run(INITIAL, actions); var p := c.chain.jobs[j].payload;
      && c.log + [WriteEnd(j, ok)] <= d.log
      && (Updates(d.log[|c.log|..], j) <==> ok && p.update.Some? && Current(c, p))
  {
    var c := Run(INITIAL, actions[..n]);
    var d := Run(INITIAL, actions);
    var p := c.chain.jobs[j].payload;
    var m := Step(c, actions[n]);
    RunAt(INITIAL, actions, n);
    SettledForGood(m, j, actions[n + 1..]);
    hide Run;
    var first := m.log[|c.log|..];
    assert d.log[|c.log|..] == first + d.log[|m.log|..];
    Decided(first, d.log[|m.log|..], j);
    assert first[0] == WriteEnd(j, ok);
    assert ok && Current(c, p) && p.update.Some? ==> first[1] == Applied(j);
  }

  /** No publication is stuck: the first one that has not settled is writing, or its turn has come. */
  lemma SomeoneGoesOn(actions: seq<Action>, j: nat)
    requires var c := Run(INITIAL, actions).chain;
      && j < |c.jobs| && c.jobs[j].status != Settled && forall i :: 0 <= i < j ==> c.jobs[i].status == Settled
    ensures var c := Run(INITIAL, actions).chain; IsRunning(c, j) || CanStart(c, j)
  {
    EmptySerial<Publication>();
    RunKeeps(INITIAL, actions);
    NextCanStart(Run(INITIAL, actions).chain, j);
  }
}
