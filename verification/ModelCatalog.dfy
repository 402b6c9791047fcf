/**
 Generation-checked publication of a provider's model catalog: a persisted store and an in-memory
 list, updated by refreshes that may be superseded or aborted at any moment.
 One step is the stretch of code up to the next await; a run is any sequence of steps.
 */
module ModelCatalog {
  import opened Common
  import opened PromiseChain

  type Entry(==, !new)
  type Models(==, !new)

  datatype Persist = Keep | Delete | Write(entry: Entry)

  datatype Publication = Publication(generation: nat, persist: Persist, update: Option<Models>)

  /** What an observer of the store and of the provider's memory sees. */
  datatype Event = WriteStart(job: nat) | WriteEnd(job: nat, ok: bool) | Applied(job: nat)

  /** One provider: its refresh generation, the controller of its current refresh, its publication chain. */
  datatype Catalog = Catalog(
    generation: nat,
    controller: Option<nat>,
    aborted: set<nat>,
    chain: Chain<Publication>,
    store: Option<Entry>,
    memory: Option<Models>,
    log: seq<Event>)

  datatype Action =
    | Supersede
    | BeginRefresh
    | FinishRefresh(generation: nat)
    | CallerAbort(generation: nat)
    | Publish(publication: Publication)
    | Turn(job: nat)
    | WriteDone(job: nat, ok: bool)
    | CleanUp(job: nat)

  const INITIAL := Catalog(0, None, {}, Empty(), None, None, [])

  function Superseded(c: Catalog): Catalog {
    c.(generation := c.generation + 1,
       controller := None,
       aborted := c.aborted + match c.controller case Some(g) => {g} case None => {})
  }

  /** The check made before the write and again before the in-memory update. */
  predicate Live(c: Catalog, p: Publication) {
    p.generation !in c.aborted && p.generation == c.generation
  }

  function Apply(c: Catalog, j: nat): Catalog
    requires j < |c.chain.jobs|
  {
    match c.chain.jobs[j].payload.update
    case None => c
    case Some(m) => c.(memory := Some(m), log := c.log + [Applied(j)])
  }

  function Step(c: Catalog, a: Action): Catalog {
    match a
    case Supersede => Superseded(c)
    case BeginRefresh => Superseded(c).(controller := Some(c.generation + 1))
    case FinishRefresh(g) => if c.controller == Some(g) then c.(controller := None) else c
    case CallerAbort(g) => if g <= c.generation then c.(aborted := c.aborted + {g}) else c
    case Publish(p) => if p.generation <= c.generation then c.(chain := Submit(c.chain, p)) else c
    case Turn(j) =>
      if !CanStart(c.chain, j) then c
      else
        var p := c.chain.jobs[j].payload;
        var settled := c.(chain := SetStatus(c.chain, j, Settled));
        if !Live(c, p) then settled
        else if p.persist == Keep then Apply(settled, j)
        else c.(chain := SetStatus(c.chain, j, Running), log := c.log + [WriteStart(j)])
    case WriteDone(j, ok) =>
      if !IsRunning(c.chain, j) then c
      else
        var p := c.chain.jobs[j].payload;
        var settled := c.(chain := SetStatus(c.chain, j, Settled), log := c.log + [WriteEnd(j, ok)]);
        if !ok then settled
        else
          var written := settled.(store := if p.persist.Write? then Some(p.persist.entry) else None);
          if Live(c, p) then Apply(written, j) else written
    case CleanUp(j) =>
      if j < |c.chain.jobs| && c.chain.jobs[j].status == Settled then c.(chain := Cleanup(c.chain, j)) else c
  }

  function Run(c: Catalog, actions: seq<Action>): Catalog
    decreases |actions|
  {
    if actions == [] then c else Run(Step(c, actions[0]), actions[1..])
  }

  // ---------------------------------------------------------------- what a log may look like

  /** The write in progress at the end of a log. */
  function OpenWrite(log: seq<Event>): Option<nat> {
    if log == [] then None
    else
      match log[|log| - 1]
      case WriteStart(j) => Some(j)
      case WriteEnd(_, _) => None
      case Applied(_) => OpenWrite(log[..|log| - 1])
  }

  /** Writes never overlap, and memory is only updated between writes. */
  ghost predicate Disjoint(log: seq<Event>) {
    forall k :: 0 <= k < |log| ==>
      match log[k]
      case WriteStart(_) => OpenWrite(log[..k]) == None
      case WriteEnd(j, _) => OpenWrite(log[..k]) == Some(j)
      case Applied(_) => OpenWrite(log[..k]) == None
  }

  predicate Effective(e: Event) { e.WriteStart? || e.Applied? }

  /** Starting a write and updating memory happen in non-decreasing generations. */
  ghost predicate GenerationsRise(c: Catalog) {
    forall i, k :: 0 <= i <= k < |c.log| && Effective(c.log[i]) && Effective(c.log[k]) ==>
      GenerationOf(c, c.log[i].job) <= GenerationOf(c, c.log[k].job)
  }

  function GenerationOf(c: Catalog, j: nat): nat {
    if j < |c.chain.jobs| then c.chain.jobs[j].payload.generation else 0
  }

  ghost predicate Inv(c: Catalog) {
    && Serial(c.chain)
    && Disjoint(c.log)
    && GenerationsRise(c)
    && (forall k :: 0 <= k < |c.log| ==> c.log[k].job < |c.chain.jobs| && c.chain.jobs[c.log[k].job].status != Waiting)
    && (forall k :: 0 <= k < |c.log| && Effective(c.log[k]) ==> GenerationOf(c, c.log[k].job) <= c.generation)
    && (forall j: nat :: IsRunning(c.chain, j) ==>
        OpenWrite(c.log) == Some(j) && c.chain.jobs[j].payload.persist != Keep)
    && (OpenWrite(c.log).Some? ==> IsRunning(c.chain, OpenWrite(c.log).value))
    && (c.controller.Some? ==> c.controller.value == c.generation)
  }

  // ---------------------------------------------------------------- every step keeps it

  lemma DisjointSnoc(log: seq<Event>, e: Event)
    requires Disjoint(log)
    requires match e case WriteEnd(j, _) => OpenWrite(log) == Some(j) case _ => OpenWrite(log) == None
    ensures Disjoint(log + [e])
    ensures OpenWrite(log + [e]) == match e case WriteStart(j) => Some(j) case _ => None
  {
    var l := log + [e];
    assert l[..|log|] == log;
    forall k | 0 <= k < |log| ensures l[k] == log[k] && l[..k] == log[..k] { }
  }

  /** Appending to the log an event of job `j`, whose generation is the current one if it is effective. */
  lemma LogEvent(c: Catalog, d: Catalog, j: nat, e: Event)
    requires Inv(c) && d.log == c.log + [e] && e.job == j < |c.chain.jobs|
    requires |d.chain.jobs| == |c.chain.jobs|
    requires forall i :: 0 <= i < |c.chain.jobs| ==> d.chain.jobs[i].payload == c.chain.jobs[i].payload
    requires Effective(e) ==> GenerationOf(c, j) == c.generation
    ensures GenerationsRise(d)
  {
    forall i, k | 0 <= i <= k < |d.log| && Effective(d.log[i]) && Effective(d.log[k])
      ensures GenerationOf(d, d.log[i].job) <= GenerationOf(d, d.log[k].job)
    {
      if k < |c.log| {
        assert d.log[i] == c.log[i] && d.log[k] == c.log[k];
      }
    }
  }

  lemma ApplyKeeps(c: Catalog, j: nat)
    requires Inv(c) && j < |c.chain.jobs| && c.chain.jobs[j].status == Settled
    requires OpenWrite(c.log) == None && GenerationOf(c, j) == c.generation
    ensures Inv(Apply(c, j))
  {
    hide GenerationsRise, Serial, OpenWrite, Disjoint;
    if c.chain.jobs[j].payload.update.Some? {
      DisjointSnoc(c.log, Applied(j));
      LogEvent(c, Apply(c, j), j, Applied(j));
    }
  }

  /** A turn that ends at once leaves the log alone. */
  lemma SettleAtOnceKeeps(c: Catalog, j: nat)
    requires Inv(c) && CanStart(c.chain, j)
    ensures Inv(c.(chain := SetStatus(c.chain, j, Settled))) && OpenWrite(c.log) == None
  {
    hide OpenWrite, Disjoint, Serial;
    StartSerial(c.chain, j);
  }

  lemma StartWriteKeeps(c: Catalog, j: nat)
    requires Inv(c) && CanStart(c.chain, j) && OpenWrite(c.log) == None
    requires c.chain.jobs[j].payload.persist != Keep && GenerationOf(c, j) == c.generation
    ensures Inv(c.(chain := SetStatus(c.chain, j, Running), log := c.log + [WriteStart(j)]))
  {
    hide OpenWrite, Disjoint, Serial, GenerationsRise;
    var d := c.(chain := SetStatus(c.chain, j, Running), log := c.log + [WriteStart(j)]);
    StartSerial(c.chain, j);
    DisjointSnoc(c.log, WriteStart(j));
    LogEvent(c, d, j, WriteStart(j));
  }

  lemma TurnKeeps(c: Catalog, j: nat)
    requires Inv(c) && CanStart(c.chain, j)
    ensures Inv(Step(c, Turn(j)))
  {
    hide Inv, OpenWrite, Apply;
    var p := c.chain.jobs[j].payload;
    SettleAtOnceKeeps(c, j);
    if Live(c, p) {
      if p.persist == Keep {
        ApplyKeeps(c.(chain := SetStatus(c.chain, j, Settled)), j);
      } else {
        StartWriteKeeps(c, j);
      }
    }
  }

  lemma WriteDoneKeeps(c: Catalog, j: nat, ok: bool)
    requires Inv(c) && IsRunning(c.chain, j)
    ensures Inv(Step(c, WriteDone(j, ok)))
  {
    hide OpenWrite, Disjoint;
    var p := c.chain.jobs[j].payload;
    SettleSerial(c.chain, j);
    DisjointSnoc(c.log, WriteEnd(j, ok));
    var settled := c.(chain := SetStatus(c.chain, j, Settled), log := c.log + [WriteEnd(j, ok)]);
    LogEvent(c, settled, j, WriteEnd(j, ok));
    forall i: nat | IsRunning(c.chain, i) ensures i == j { OneAtATime(c.chain, i, j); }
    assert forall i: nat :: !IsRunning(settled.chain, i);
    assert Inv(settled);
    if ok {
      var written := settled.(store := if p.persist.Write? then Some(p.persist.entry) else None);
      StoredKeeps(settled, written);
      hide Inv;
      if Live(c, p) { ApplyKeeps(written, j); }
    }
  }

  lemma StoredKeeps(c: Catalog, d: Catalog)
    requires Inv(c) && d == c.(store := d.store)
    ensures Inv(d)
  {
    hide OpenWrite, Disjoint, Serial;
    assert GenerationsRise(d);
  }

  lemma PublishKeeps(c: Catalog, p: Publication)
    requires Inv(c)
    ensures Inv(Step(c, Publish(p)))
  {
    hide OpenWrite, Disjoint;
    if p.generation <= c.generation {
      SubmitSerial(c.chain, p);
      var d := Step(c, Publish(p));
      forall i | 0 <= i < |c.chain.jobs| ensures d.chain.jobs[i] == c.chain.jobs[i] { }
      forall k | 0 <= k < |c.log| ensures GenerationOf(d, c.log[k].job) == GenerationOf(c, c.log[k].job) { }
    }
  }

  /** Steps that touch neither the chain's jobs nor the log. */
  lemma QuietKeeps(c: Catalog, a: Action)
    requires Inv(c) && !a.Turn? && !a.WriteDone? && !a.Publish?
    ensures Inv(Step(c, a))
  {
    hide OpenWrite, Disjoint;
    if a.CleanUp? && a.job < |c.chain.jobs| && c.chain.jobs[a.job].status == Settled {
      CleanupSerial(c.chain, a.job);
    }
    hide Serial;
  }

  lemma StepKeeps(c: Catalog, a: Action)
    requires Inv(c)
    ensures Inv(Step(c, a))
  {
    hide Inv;
    match a
    case Turn(j) => if CanStart(c.chain, j) { TurnKeeps(c, j); }
    case WriteDone(j, ok) => if IsRunning(c.chain, j) { WriteDoneKeeps(c, j, ok); }
    case Publish(p) => PublishKeeps(c, p);
    case _ => QuietKeeps(c, a);
  }

  lemma {:induction false} RunKeeps(c: Catalog, actions: seq<Action>)
    requires Inv(c)
    ensures Inv(Run(c, actions))
    decreases |actions|
  {
    if actions != [] {
      StepKeeps(c, actions[0]);
      RunKeeps(Step(c, actions[0]), actions[1..]);
    }
  }

  // ---------------------------------------------------------------- whole runs

  /** On every run: writes never overlap, and effects come in non-decreasing generations. */
  lemma EveryRun(actions: seq<Action>)
    ensures var c := Run(INITIAL, actions);
      && Disjoint(c.log)
      && (forall i, k :: 0 <= i <= k < |c.log| && Effective(c.log[i]) && Effective(c.log[k]) ==>
            GenerationOf(c, c.log[i].job) <= GenerationOf(c, c.log[k].job))
  {
    EmptySerial<Publication>();
    RunKeeps(INITIAL, actions);
  }

  /** The events of one job. */
  predicate Mentions(log: seq<Event>, j: nat) {
    exists k :: 0 <= k < |log| && log[k].job == j
  }

  predicate Updates(log: seq<Event>, j: nat) {
    exists k :: 0 <= k < |log| && log[k] == Applied(j)
  }

  /** Job `j` belongs to a refresh that can no longer have an effect. */
  predicate Stale(c: Catalog, j: nat) {
    j < |c.chain.jobs| && !Live(c, c.chain.jobs[j].payload) && c.chain.jobs[j].payload.generation <= c.generation
  }

  lemma StepFacts(c: Catalog, a: Action, j: nat)
    requires Inv(c) && Stale(c, j)
    ensures var d := Step(c, a);
      && c.log <= d.log
      && Stale(d, j)
      && !Updates(d.log[|c.log|..], j)
      && (c.chain.jobs[j].status == Waiting ==> d.chain.jobs[j].status != Running)
      && (c.chain.jobs[j].status == Settled ==> d.chain.jobs[j].status == Settled)
      && (c.chain.jobs[j].status != Running ==> !Mentions(d.log[|c.log|..], j))
  {
    hide OpenWrite, Disjoint, GenerationsRise;
    if a.Turn? && CanStart(c.chain, a.job) { StartSerial(c.chain, a.job); }
  }

  lemma SplitLog(a: seq<Event>, b: seq<Event>, j: nat)
    ensures Mentions(a + b, j) <==> Mentions(a, j) || Mentions(b, j)
    ensures Updates(a + b, j) <==> Updates(a, j) || Updates(b, j)
  {
    forall k | 0 <= k < |a| ensures (a + b)[k] == a[k] { }
    forall k | 0 <= k < |b| ensures (a + b)[|a| + k] == b[k] { }
  }

  lemma EmptyLog(j: nat)
    ensures !Mentions([], j) && !Updates([], j)
  {
  }

  /**
   A publication superseded (or aborted) before its turn does nothing on any continuation of the run,
   and one superseded in mid-write never updates memory.
   */
  lemma {:induction false} StaleForGood(c: Catalog, j: nat, actions: seq<Action>)
    requires Inv(c) && Stale(c, j)
    ensures var d := Run(c, actions);
      && c.log <= d.log
      && !Updates(d.log[|c.log|..], j)
      && (c.chain.jobs[j].status != Running ==> !Mentions(d.log[|c.log|..], j))
    decreases |actions|
  {
    hide Step, Inv, Live, Mentions, Updates;
    if actions == [] {
      assert c.log[|c.log|..] == [];
      EmptyLog(j);
    } else {
      var m := Step(c, actions[0]);
      StepKeeps(c, actions[0]);
      StepFacts(c, actions[0], j);
      StaleForGood(m, j, actions[1..]);
      var d := Run(c, actions);
      assert d.log[|c.log|..] == m.log[|c.log|..] + d.log[|m.log|..];
      SplitLog(m.log[|c.log|..], d.log[|m.log|..], j);
    }
  }

  /** Superseding makes every earlier publication stale, and aborting those of its refresh. */
  lemma SupersedeMakesStale(c: Catalog, a: Action, j: nat)
    requires j < |c.chain.jobs|
    requires a == Supersede || a == BeginRefresh || a == CallerAbort(c.chain.jobs[j].payload.generation)
    requires c.chain.jobs[j].payload.generation <= c.generation
    ensures Stale(Step(c, a), j)
  {
  }

  /**
   Once superseded or aborted, no publication of that time updates memory any more, however the run goes on, and one
   whose turn had not come does nothing at all.
   */
  lemma SupersededForGood(c: Catalog, a: Action, j: nat, more: seq<Action>)
    requires Inv(c) && j < |c.chain.jobs| && c.chain.jobs[j].payload.generation <= c.generation
    requires a == Supersede || a == BeginRefresh || a == CallerAbort(c.chain.jobs[j].payload.generation)
    ensures var d := Run(Step(c, a), more);
      && c.log == Step(c, a).log <= d.log
      && !Updates(d.log[|c.log|..], j)
      && (c.chain.jobs[j].status != Running ==> !Mentions(d.log[|c.log|..], j))
  {
    StepKeeps(c, a);
    SupersedeMakesStale(c, a, j);
    assert Step(c, a).chain == c.chain && Step(c, a).log == c.log;
    hide Inv, Stale, Step, Mentions, Updates;
    StaleForGood(Step(c, a), j, more);
  }

  /** A memory update that came with a write leaves store and memory agreeing. */
  lemma UpdateAgreesWithStore(c: Catalog, a: Action, j: nat)
    requires Inv(c) && Updates(Step(c, a).log[|c.log|..], j)
    ensures var d := Step(c, a); var p := c.chain.jobs[j].payload;
      && Live(c, p) && d.memory == p.update
      && (p.persist.Write? ==> d.store == Some(p.persist.entry))
      && (p.persist.Delete? ==> d.store == None)
      && (p.persist.Keep? ==> d.store == c.store)
  {
    hide Disjoint, GenerationsRise, OpenWrite;
    var d := Step(c, a);
    var k :| 0 <= k < |d.log[|c.log|..]| && d.log[|c.log|..][k] == Applied(j);
    assert d.log[|c.log| + k] == Applied(j);
  }

  // ---------------------------------------------------------------- the collection of providers

  function Get<T>(m: map<string, T>, id: string, default: T): T {
    if id in m then m[id] else default
  }

  function Lookup<T>(m: map<string, T>, id: string): Option<T> {
    if id in m then Some(m[id]) else None
  }

  /** The maps kept for all providers; each provider takes the steps above, untouched by the others. */
  class ModelsImpl {
    var providers: set<string>
    var refreshGenerations: map<string, nat>
    var refreshControllers: map<string, nat>
    var abortedSignals: map<string, set<nat>>
    var publicationChains: map<string, nat>
    var queued: map<string, seq<Job<Publication>>>
    var modelsStore: map<string, Entry>
    var dynamicModels: map<string, Models>
    ghost var logs: map<string, seq<Event>>

    constructor ()
      ensures forall id :: View(id) == INITIAL
    {
      providers, refreshGenerations, refreshControllers, abortedSignals := {}, map[], map[], map[];
      publicationChains, queued, modelsStore, dynamicModels, logs := map[], map[], map[], map[], map[];
    }

    ghost function View(id: string): Catalog
      reads this`refreshGenerations, this`refreshControllers, this`abortedSignals, this`publicationChains
      reads this`queued, this`modelsStore, this`dynamicModels, this`logs
    {
      Catalog(Get(refreshGenerations, id, 0), Lookup(refreshControllers, id), Get(abortedSignals, id, {}),
              Chain(Get(queued, id, []), Lookup(publicationChains, id)),
              Lookup(modelsStore, id), Lookup(dynamicModels, id), Get(logs, id, []))
    }

    method SupersedeProviderRefresh(id: string) returns (generation: nat)
      modifies this`refreshGenerations, this`refreshControllers, this`abortedSignals
      ensures View(id) == Step(old(View(id)), Supersede) && generation == View(id).generation
      ensures forall other :: other != id ==> View(other) == old(View(other))
    {
      generation := Get(refreshGenerations, id, 0) + 1;
      refreshGenerations := refreshGenerations[id := generation];
      if id in refreshControllers {
        var previous := refreshControllers[id];
        refreshControllers := refreshControllers - {id};
        abortedSignals := abortedSignals[id := Get(abortedSignals, id, {}) + {previous}];
      }
    }

    method BeginProviderRefresh(id: string) returns (generation: nat)
      modifies this`refreshGenerations, this`refreshControllers, this`abortedSignals
      ensures View(id) == Step(old(View(id)), BeginRefresh) && generation == View(id).generation
      ensures forall other :: other != id ==> View(other) == old(View(other))
    {
      generation := SupersedeProviderRefresh(id);
      refreshControllers := refreshControllers[id := generation];
    }

    /** The end of a refresh: it gives up its controller unless a newer refresh has replaced it. */
    method FinishProviderRefresh(id: string, generation: nat)
      modifies this`refreshControllers
      ensures View(id) == Step(old(View(id)), FinishRefresh(generation))
      ensures forall other :: other != id ==> View(other) == old(View(other))
    {
      if id in refreshControllers && refreshControllers[id] == generation {
        refreshControllers := refreshControllers - {id};
      }
    }

    /** The caller of `refresh` aborts: the combined signal of its refreshes is aborted. */
    method AbortRefresh(id: string, generation: nat)
      requires generation <= Get(refreshGenerations, id, 0)
      modifies this`abortedSignals
      ensures View(id) == Step(old(View(id)), CallerAbort(generation))
      ensures forall other :: other != id ==> View(other) == old(View(other))
    {
      abortedSignals := abortedSignals[id := Get(abortedSignals, id, {}) + {generation}];
    }

    /** Every provider known or being refreshed is superseded. */
    method ClearProviders()
      modifies this`providers, this`refreshGenerations, this`refreshControllers, this`abortedSignals
      ensures providers == {}
      ensures forall id :: View(id) ==
                if id in old(providers) || id in old(refreshControllers) then Step(old(View(id)), Supersede)
                    else old(View(id))
    {
      hide Step, View;
      var all := providers + refreshControllers.Keys;
      var ids := all;
      while ids != {}
        modifies this`refreshGenerations, this`refreshControllers, this`abortedSignals
        invariant ids <= all
        invariant forall id :: View(id) == if id in all - ids then Step(old(View(id)), Supersede) else old(View(id))
        decreases ids
      {
        var id :| id in ids;
        var _ := SupersedeProviderRefresh(id);
        ids := ids - {id};
      }
      providers := {};
    }

    /** The synchronous part of publishing: behind the tail found in the map, and the new tail. */
    method PublishProviderModels(id: string, publication: Publication)
      requires publication.generation <= Get(refreshGenerations, id, 0)
      modifies this`publicationChains, this`queued
      ensures View(id) == Step(old(View(id)), Publish(publication))
      ensures forall other :: other != id ==> View(other) == old(View(other))
    {
      var previous := Lookup(publicationChains, id);
      var jobs := Get(queued, id, []);
      queued := queued[id := jobs + [Job(publication, previous, Waiting)]];
      publicationChains := publicationChains[id := |jobs|];
    }

    /** `publication.update?.()` */
    method ApplyUpdate(id: string, j: nat)
      requires j < |View(id).chain.jobs|
      modifies this`dynamicModels, this`logs
      ensures View(id) == Apply(old(View(id)), j)
      ensures forall other :: other != id ==> View(other) == old(View(other))
    {
      var update := queued[id][j].payload.update;
      if update.Some? {
        dynamicModels := dynamicModels[id := update.value];
        logs := logs[id := Get(logs, id, []) + [Applied(j)]];
      }
    }

    /** The queued closure, from the settling of its predecessor to its first await or its end. */
    method TakeTurn(id: string, j: nat)
      requires CanStart(View(id).chain, j)
      modifies this`queued, this`dynamicModels, this`logs
      ensures View(id) == Step(old(View(id)), Turn(j))
      ensures forall other :: other != id ==> View(other) == old(View(other))
    {
      var jobs := queued[id];
      var publication := jobs[j].payload;
      var aborted := publication.generation in Get(abortedSignals, id, {});
      if aborted || Get(refreshGenerations, id, 0) != publication.generation {
        queued := queued[id := jobs[j := jobs[j].(status := Settled)]];
        return;
      }
      if publication.persist != Keep {
        queued := queued[id := jobs[j := jobs[j].(status := Running)]];
        logs := logs[id := Get(logs, id, []) + [WriteStart(j)]];
        return;
      }
      queued := queued[id := jobs[j := jobs[j].(status := Settled)]];
      ApplyUpdate(id, j);
    }

    /** The queued closure, from the settling of the store operation to its end. */
    method ResumeAfterWrite(id: string, j: nat, ok: bool)
      requires IsRunning(View(id).chain, j)
      modifies this`queued, this`modelsStore, this`dynamicModels, this`logs
      ensures View(id) == Step(old(View(id)), WriteDone(j, ok))
      ensures forall other :: other != id ==> View(other) == old(View(other))
    {
      hide Apply;
      var jobs := queued[id];
      var publication := jobs[j].payload;
      logs := logs[id := Get(logs, id, []) + [WriteEnd(j, ok)]];
      queued := queued[id := jobs[j := jobs[j].(status := Settled)]];
      if !ok { return; }
      if publication.persist.Write? {
        modelsStore := modelsStore[id := publication.persist.entry];
      } else {
        modelsStore := modelsStore - {id};
      }
      var aborted := publication.generation in Get(abortedSignals, id, {});
      if aborted || Get(refreshGenerations, id, 0) != publication.generation { return; }
      ApplyUpdate(id, j);
    }

    /** The callback that forgets a settled tail. */
    method ForgetTail(id: string, j: nat)
      requires j < |View(id).chain.jobs| && View(id).chain.jobs[j].status == Settled
      modifies this`publicationChains
      ensures View(id) == Step(old(View(id)), CleanUp(j))
      ensures forall other :: other != id ==> View(other) == old(View(other))
    {
      if id in publicationChains && publicationChains[id] == j {
        publicationChains := publicationChains - {id};
      }
    }
  }
}
