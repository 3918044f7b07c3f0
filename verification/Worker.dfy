/** worker.Worker: a consumer that takes jobs from the queue and runs them, or drops those it cannot load. */
module Worker {
  import opened Domain
  import opened Effects
  import opened Queue
  import opened Runs
  import opened Sequences
  import Actors
  import Dispatch
  import DispatchLaws
  import DispatchProofs
  import E = Engine
  import Oracle
  import Progress
  import RunLaws
  import Scripts
  import Site

  datatype Pass = Quit | Missed(cause: Error) | Dropped(job: Job) | Ran(job: Job, x: Execution, err: Option<Error>)

  /** The executions whose jobs passes took, in order. */
  function Taken(ps: seq<Pass>): seq<Id> {
    if ps == [] then [] else Taken(ps[..|ps| - 1]) + TakenBy(ps[|ps| - 1])
  }

  function TakenBy(p: Pass): seq<Id> {
    match p
    case Dropped(job) => [job.executionId]
    case Ran(job, _, _) => [job.executionId]
    case _ => []
  }

  /** Between s and t the jobs of l have been taken, in this order, and perhaps others. */
  ghost predicate Took(s: Dispatch.State, t: Dispatch.State, l: seq<Id>) {
    s.taken <= t.taken && Within(l, t.taken[|s.taken|..])
  }

  /** What became of the job that a pass took, for good. */
  ghost predicate Stands(s: Dispatch.State, p: Pass) {
    match p
    case Dropped(job) => DispatchLaws.IsAt(s, job.executionId, Dispatch.Dropped)
    case Ran(job, x, _) =>
      && DispatchLaws.Rests(s, job.executionId) && s.place[job.executionId].Settled?
      && job.executionId in s.world.store.executions && s.world.store.executions[job.executionId] == x
      && Terminal(x.status)
    case _ => true
  }

  /** One consumer of the site, with everybody else moving between any two of its steps. */
  class Worker {
    const site: Site.Site
    const engine: E.Engine

    constructor (engine: E.Engine)
      ensures this.engine == engine && this.site == engine.site
    {
      this.site, this.engine := engine.site, engine;
    }

    /** Other callers and consumers, and other runs, move by the protocol; this one shares the site with its engine. */
    ghost predicate Valid()
      reads site, site.store, site.queue, site.ids, site.sink, engine.breaker
    {
      site.Valid() && site.lawful && engine.site == site && engine.ids != site.ids && engine.breaker.Valid()
    }

    method Take(w: nat, ended: Error) returns (r: Result<Job>)
      requires site.Valid() && site.system.ConsumerOf(w).Idle?
      modifies site, site.store, site.queue, site.ids, site.sink
      ensures site.Valid() && old(site.moves) <= site.moves
      ensures site.system.ConsumerOf(w) == if r.Ok? then Dispatch.Loading(r.value) else Dispatch.Idle
      ensures Took(old(site.system), site.system, if r.Ok? then [r.value.executionId] else [])
      ensures r.Err? ==> r.error == ended
    {
      hide Dispatch.Behaviour, Dispatch.After, Dispatch.Apply, Within;
      site.Others(Actors.Worker(w));
      DispatchLaws.TakenSince(site.Setup(), old(site.moves), site.moves);
      ghost var s := site.system;
      r := site.queue.Dequeue(Some(ended));
      if r.Ok? {
        Dispatch.DequeueIs(site.Setup(), site.system, w);
        site.Moved(Dispatch.Dequeue(w));
        TookOne(old(site.system), s, site.system, r.value.executionId);
      } else {
        TookNone(old(site.system), s);
      }
    }

    /** The execution of a job is always found. */
    method Load(w: nat, job: Job) returns (r: Result<Execution>)
      requires site.Valid() && site.system.ConsumerOf(w) == Dispatch.Loading(job)
      modifies site, site.store, site.queue, site.ids, site.sink
      ensures site.Valid() && old(site.moves) <= site.moves
      ensures r.Ok? && site.system.ConsumerOf(w) == Dispatch.Checking(job, r.value)
    {
      hide Dispatch.Behaviour, Dispatch.After, Dispatch.Apply;
      site.Others(Actors.Worker(w));
      DispatchProofs.AlwaysSound(site.Setup(), site.moves);
      DispatchLaws.DropStep(site.Setup(), site.system, Dispatch.Load(w), job.executionId);
      r := site.store.GetExecution(job.ownerId, job.executionId);
      Dispatch.LoadIs(site.Setup(), site.system, w);
      site.Moved(Dispatch.Load(w));
    }

    /** Looks for the agent; without it the job is dropped. */
    method Check(w: nat, job: Job, x: Execution) returns (agent: Result<Agent>)
      requires site.Valid() && site.system.ConsumerOf(w) == Dispatch.Checking(job, x)
      modifies site, site.store, site.queue, site.ids, site.sink
      ensures site.Valid() && old(site.moves) <= site.moves
      ensures agent.Ok? ==>
                && site.system.ConsumerOf(w) == Dispatch.Checking(job, x)
                && job.agentId in site.store.agents && site.store.agents[job.agentId].ownerId == job.ownerId
      ensures agent.Err? ==>
                && site.system.ConsumerOf(w).Idle? && DispatchLaws.IsAt(site.system, x.id, Dispatch.Dropped)
                && !(job.agentId in site.store.agents && site.store.agents[job.agentId].ownerId == job.ownerId)
    {
      hide Dispatch.Behaviour, Dispatch.After, Dispatch.Apply, RunOk;
      site.Others(Actors.Worker(w));
      agent := site.store.GetAgent(job.ownerId, job.agentId);
      if agent.Err? {
        DispatchProofs.AlwaysSound(site.Setup(), site.moves);
        CheckedIsStored(site.system, w);
        var ignored := Run(x, 0, 0, [], [], [], None, Done, 0);
        Dispatch.CheckIs(site.Setup(), site.system, w, ignored);
        site.Moved(Dispatch.Check(w, ignored));
      }
    }

    /** Takes a job and loads what it names; x is None if there is nothing to run. */
    method Fetch(w: nat, ended: Error) returns (pass: Pass, job: Job, x: Option<Execution>)
      requires site.Valid() && site.system.ConsumerOf(w).Idle?
      modifies site, site.store, site.queue, site.ids, site.sink
      ensures site.Valid() && old(site.moves) <= site.moves
      ensures Took(old(site.system), site.system, if x.Some? then [job.executionId] else TakenBy(pass))
      ensures x.Some? ==> Ready(w, job, x.value)
      ensures x.None? ==> site.system.ConsumerOf(w).Idle? && NothingRun(pass, ended)
    {
      hide Dispatch.Behaviour, Dispatch.After, Dispatch.Apply, Dispatch.Sound, DispatchLaws.IsAt,
        Took;
      var taken := Take(w, ended);
      if taken.Err? {
        return if IsCanceled(ended) then Quit else Missed(ended), Job(0, 0, ""), None;
      }
      job := taken.value;
      ghost var s, ms := site.system, site.moves;
      var loaded := Load(w, job);
      DispatchProofs.AlwaysSound(site.Setup(), site.moves);
      CheckedIsStored(site.system, w);
      var agent := Check(w, job, loaded.value);
      DispatchProofs.AlwaysSound(site.Setup(), site.moves);
      CheckedIsStored(site.system, w);
      DispatchLaws.TakenSince(site.Setup(), ms, site.moves);
      TookSince(old(site.system), s, site.system, [job.executionId]);
      pass, x := Dropped(job), if agent.Ok? then Some(loaded.value) else None;
    }

    /** The consumer has loaded the execution of its job, and the agent is still there. */
    predicate Ready(w: nat, job: Job, x: Execution)
      reads site, site.store
    {
      && site.system.ConsumerOf(w) == Dispatch.Checking(job, x) && x.id == job.executionId
      && job.agentId in site.store.agents && site.store.agents[job.agentId].ownerId == job.ownerId
      && x.id in site.store.executions
    }

    /** There was no job, or the job was dropped. */
    ghost predicate NothingRun(pass: Pass, ended: Error)
      reads site
    {
      match pass
      case Quit => IsCanceled(ended)
      case Missed(cause) => cause == ended && !IsCanceled(ended)
      case Dropped(job) => DispatchLaws.IsAt(site.system, job.executionId, Dispatch.Dropped)
      case Ran(_, _, _) => false
    }

    /**
     * One pass of the loop, with everybody else moving between any two of its steps: the system goes through a
     * behaviour of the dispatch protocol in which this is consumer w, up to and including every single action of the
     * run.
     */
    method Consume(w: nat, ended: Error, o: Oracle.Outside, alone: bool)
      returns (pass: Pass, ghost run: Option<Run>, ghost at: nat)
      requires Valid() && site.system.ConsumerOf(w).Idle?
      modifies site, site.store, site.queue, site.ids, site.sink, engine, engine.ids, engine.provider, engine.breaker
      ensures Valid() && old(site.moves) <= site.moves && site.system.ConsumerOf(w).Idle?
      ensures Took(old(site.system), site.system, TakenBy(pass)) && Stands(site.system, pass)
      ensures !pass.Ran? ==> NothingRun(pass, ended)
      ensures pass.Ran? ==>
                && run.Some? && run.value.start.id == pass.job.executionId && pass.x == FinalOf(run.value)
                && |old(site.moves)| <= at < |site.moves| && site.moves[at] == Dispatch.Check(w, run.value)
                && ActionsOf(engine.journal) == Log(run.value)
                && Oracle.Justified(o, run.value.opening, run.value.rounds, run.value.knock, run.value.ending)
                && pass.err == match run.value.ending case Done => None case Stopped(c) => Some(c)
    {
      hide Dispatch.Behaviour, Dispatch.After, Dispatch.Apply, RunOk, Oracle.Justified, Took, Stands, FinalOf, Log,
        engine.breaker.Valid;
      var job, x;
      pass, job, x := Fetch(w, ended);
      run, at := None, 0;
      if x.Some? {
        ghost var s, ms := site.system, site.moves;
        pass, run, at := Perform(w, job, x.value, o, alone);
        DispatchLaws.TakenSince(site.Setup(), ms, site.moves);
        TookSince(old(site.system), s, site.system, [job.executionId]);
      } else {
        NothingStands(site.system, pass, ended);
      }
    }

    /** Runs an execution that has been fetched. */
    method Perform(w: nat, job: Job, x: Execution, o: Oracle.Outside, alone: bool)
      returns (pass: Pass, ghost run: Option<Run>, ghost at: nat)
      requires Valid() && Ready(w, job, x)
      modifies site, site.store, site.queue, site.ids, site.sink, engine, engine.ids, engine.provider, engine.breaker
      ensures Valid() && old(site.moves) <= site.moves && site.system.ConsumerOf(w).Idle?
      ensures Stands(site.system, pass) && pass.Ran? && pass.job == job
      ensures run.Some? && run.value.start == x && pass.x == FinalOf(run.value)
      ensures |old(site.moves)| == at < |site.moves| && site.moves[at] == Dispatch.Check(w, run.value)
      ensures ActionsOf(engine.journal) == Log(run.value)
      ensures Oracle.Justified(o, run.value.opening, run.value.rounds, run.value.knock, run.value.ending)
      ensures pass.err == match run.value.ending case Done => None case Stopped(c) => Some(c)
    {
      hide Dispatch.Behaviour, Dispatch.After, Dispatch.Apply, RunOk, Progress.Performed, Oracle.Justified, Stands,
        FinalOf, Log, engine.Look, engine.breaker.Valid, Dispatch.Sound;
      site.Enter(w, x);
      var y, err;
      y, err, run := engine.Execute(x, o, alone, w);
      at := |old(site.moves)|;
      DispatchProofs.AlwaysSound(site.Setup(), site.moves);
      PerformedOk(E.Me(x, alone, w), E.Start(old(engine.Look(E.Me(x, alone, w)))), engine.Look(E.Me(x, alone, w)),
          run.value);
      RanStands(site.system, job, y, err, run.value);
      pass := Ran(job, y, err);
    }

    /**
     * As many passes of the loop as ends has entries, or fewer if it is stopped: each entry is how a wait would end.
     */
    method Loop(w: nat, ends: seq<Error>, o: nat -> Oracle.Outside, alone: nat -> bool) returns (passes: seq<Pass>)
      requires Valid() && site.system.ConsumerOf(w).Idle?
      modifies site, site.store, site.queue, site.ids, site.sink, engine, engine.ids, engine.provider, engine.breaker
      ensures Valid() && old(site.moves) <= site.moves && site.system.ConsumerOf(w).Idle?
      ensures Took(old(site.system), site.system, Taken(passes))
      ensures forall i :: 0 <= i < |passes| ==> Stands(site.system, passes[i])
      ensures |passes| <= |ends| && forall i :: 0 <= i < |passes| - 1 ==> !passes[i].Quit?
      ensures |passes| < |ends| ==> passes != [] && passes[|passes| - 1].Quit? && IsCanceled(ends[|passes| - 1])
    {
      hide Dispatch.Behaviour, Dispatch.After, Dispatch.Apply, Took, Stands;
      passes := [];
      TookNone(site.system, site.system);
      while |passes| < |ends|
        invariant Valid() && old(site.moves) <= site.moves && site.system.ConsumerOf(w).Idle?
        invariant Took(old(site.system), site.system, Taken(passes))
        invariant forall i :: 0 <= i < |passes| ==> Stands(site.system, passes[i])
        invariant |passes| <= |ends| && forall i :: 0 <= i < |passes| ==> !passes[i].Quit?
      {
        ghost var s, ms, before := site.system, site.moves, passes;
        var pass, run, at := Consume(w, ends[|passes|], o(|passes|), alone(|passes|));
        AllStandLater(site.Setup(), ms, site.moves, passes);
        TookThen(old(site.system), s, site.system, Taken(passes), TakenBy(pass));
        assert (passes + [pass])[..|passes|] == passes;
        passes := passes + [pass];
        if pass.Quit? {
          return;
        }
      }
    }
  }

  // ---------- What passes leave behind ----------

  lemma PerformedOk(r: Ident, v: Scene, w: Scene, run: Run)
    requires Progress.Performed(r, v, w, run)
    ensures RunOk(run)
  {
    hide RunOk;
  }

  lemma TookNone(s: Dispatch.State, t: Dispatch.State)
    requires s.taken <= t.taken
    ensures Took(s, t, [])
  {
  }

  lemma TookThen(s: Dispatch.State, t: Dispatch.State, u: Dispatch.State, l: seq<Id>, m: seq<Id>)
    requires Took(s, t, l) && Took(t, u, m)
    ensures Took(s, u, l + m)
  {
    hide Within;
    WithinConcat(l, t.taken[|s.taken|..], m, u.taken[|t.taken|..]);
    assert u.taken[|s.taken|..] == t.taken[|s.taken|..] + u.taken[|t.taken|..];
  }

  lemma TookSince(s: Dispatch.State, t: Dispatch.State, u: Dispatch.State, l: seq<Id>)
    requires Took(s, t, l) && t.taken <= u.taken
    ensures Took(s, u, l)
  {
    hide Took;
    TookNone(t, u);
    TookThen(s, t, u, l, []);
    assert l + [] == l;
  }

  lemma TookOne(s: Dispatch.State, t: Dispatch.State, u: Dispatch.State, e: Id)
    requires s.taken <= t.taken && u.taken == t.taken + [e]
    ensures Took(s, u, [e])
  {
    TookNone(s, t);
    assert u.taken[|t.taken|..] == [e];
    WithinSelf([e]);
    TookThen(s, t, u, [], [e]);
    assert [] + [e] == [e];
  }

  lemma RanStands(s: Dispatch.State, job: Job, x: Execution, err: Option<Error>, run: Run)
    requires Dispatch.Sound(s) && run.start.id == job.executionId && x == FinalOf(run) && RunOk(run)
    requires DispatchLaws.IsAt(s, job.executionId, Dispatch.Settled(Scripts.ScriptOf(run)))
    ensures Stands(s, Ran(job, x, err))
  {
    hide RunOk, Log, FinalOf;
    RunLaws.Outcome(run);
    assert Dispatch.ExecutionOk(s, job.executionId);
  }

  lemma NothingStands(s: Dispatch.State, p: Pass, ended: Error)
    requires p.Dropped? ==> DispatchLaws.IsAt(s, p.job.executionId, Dispatch.Dropped)
    requires !p.Ran?
    ensures Stands(s, p)
  {
  }

  lemma StandsLater(cfg: Dispatch.Config, ms: seq<Dispatch.Move>, ms': seq<Dispatch.Move>, p: Pass)
    requires Dispatch.Behaviour(cfg, ms') && ms <= ms' && Stands(Dispatch.After(cfg, ms), p)
    ensures Stands(Dispatch.After(cfg, ms'), p)
  {
    hide Dispatch.Behaviour, Dispatch.After;
    if p.Dropped? || p.Ran? {
      DispatchLaws.StatusOnlyAdvances(cfg, ms', |ms|, p.job.executionId);
      assert ms'[..|ms|] == ms;
      DispatchProofs.AlwaysSound(cfg, ms');
      DispatchLaws.BehaviourPrefix(cfg, ms', |ms|);
      DispatchProofs.AlwaysSound(cfg, ms);
      Placed(Dispatch.After(cfg, ms), p.job.executionId);
    }
  }

  lemma Placed(s: Dispatch.State, e: Id)
    requires Dispatch.Sound(s)
    ensures e in s.place ==> e in s.world.store.executions
  {
  }

  lemma AllStandLater(cfg: Dispatch.Config, ms: seq<Dispatch.Move>, ms': seq<Dispatch.Move>, ps: seq<Pass>)
    requires Dispatch.Behaviour(cfg, ms') && ms <= ms'
    requires forall i :: 0 <= i < |ps| ==> Stands(Dispatch.After(cfg, ms), ps[i])
    ensures forall i :: 0 <= i < |ps| ==> Stands(Dispatch.After(cfg, ms'), ps[i])
  {
    hide Dispatch.Behaviour, Dispatch.After, Stands;
    forall i | 0 <= i < |ps| ensures Stands(Dispatch.After(cfg, ms'), ps[i]) {
      StandsLater(cfg, ms, ms', ps[i]);
    }
  }

  lemma CheckedIsStored(s: Dispatch.State, w: nat)
    requires Dispatch.Sound(s)
    ensures s.ConsumerOf(w).Checking? ==>
              s.ConsumerOf(w).x.id in s.world.store.executions
                  && s.ConsumerOf(w).job.executionId == s.ConsumerOf(w).x.id
  {
    assert Dispatch.ConsumerOk(s, w);
  }
}
