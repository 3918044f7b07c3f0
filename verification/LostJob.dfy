/** A behaviour in which a job is lost: its agent is deleted while it waits in the queue. */
module LostJob {
  import opened Dispatch
  import opened DispatchLaws
  import opened Domain
  import opened Effects
  import opened Idempotency
  import opened Runs
  import Drafts
  import S = Store

  const LOST := NewExecution(1, TWICE, "model", 0)

  const LOSING: seq<Move> := [PutAgent(HELPER),
    Arrive(0, TWICE), Lookup(0, None), Authorize(0), Converse(0),
    Create(0), Enqueue(0), RemoveAgent("alice", 0), Dequeue(0), Load(0), Check(0, Drafts.Shortest(LOST))]

  /** The execution is created, and its job is sent. */
  lemma Sends(cfg: Config, s: State)
    requires cfg.capacity >= 1 && s == AboutToCreate(AgentPut(START, HELPER), 0)
    ensures var t := Apply(cfg, Apply(cfg, s, Create(0)), Enqueue(0));
            && t.queue == [JobOf(LOST)] && t.consumers == map[]
            && t.world.store.executions == map[1 := LOST] && t.world.store.agents == map[0 := HELPER]
  {
    hide Apply;
    CreateIs(cfg, s, 0);
    assert !KeyTaken(s.world.store, TWICE.ownerId, TWICE.key);
    var t := Created(cfg, s, 0);
    assert t.CallerOf(0) == Sending(TWICE, LOST);
    EnqueueIs(cfg, t, 0);
    assert [] + [JobOf(LOST)] == [JobOf(LOST)];
  }

  /** The agent is deleted, and a consumer takes the job. */
  lemma Takes(cfg: Config, s: State)
    requires s.queue == [JobOf(LOST)] && s.consumers == map[]
    requires s.world.store.executions == map[1 := LOST] && s.world.store.agents == map[0 := HELPER]
    ensures var t := Apply(cfg, Apply(cfg, s, RemoveAgent("alice", 0)), Dequeue(0));
            && t.ConsumerOf(0) == Loading(JobOf(LOST)) && t.queue == []
            && t.world.store.executions == map[1 := LOST] && t.world.store.agents == map[]
  {
    hide Apply;
    RemoveAgentIs(cfg, s, "alice", 0);
    var t := AgentRemoved(s, "alice", 0);
    assert t.world.store.agents == map[];
    DequeueIs(cfg, t, 0);
  }

  /** It finds the execution, but not the agent. */
  lemma Drops(cfg: Config, s: State, run: Run)
    requires s.ConsumerOf(0) == Loading(JobOf(LOST))
    requires s.world.store.executions == map[1 := LOST] && s.world.store.agents == map[]
    ensures var t := Apply(cfg, Apply(cfg, s, Load(0)), Check(0, run));
            && IsAt(t, 1, Dropped) && t.ConsumerOf(0).Idle? && t.world.store.executions == map[1 := LOST]
            && t.queue == s.queue && Allowed(Apply(cfg, s, Load(0)), Check(0, run))
  {
    hide Apply;
    LoadIs(cfg, s, 0);
    var t := Loaded(s, 0);
    assert t.ConsumerOf(0) == Checking(JobOf(LOST), LOST);
    CheckIs(cfg, t, 0, run);
  }

  lemma {:induction false} Prefixes(cfg: Config, n: nat)
    requires n < |LOSING|
    ensures Behaviour(cfg, LOSING[..n])
  {
    hide Apply, After, RunOk;
    if n > 0 {
      Prefixes(cfg, n - 1);
      assert LOSING[..n][..n - 1] == LOSING[..n - 1];
    }
  }

  lemma FirstOf(cfg: Config)
    ensures After(cfg, LOSING[..1]) == AgentPut(START, HELPER)
  {
    hide Apply;
    PutAgentIs(cfg, START, HELPER);
    assert LOSING[..1][..0] == [];
  }

  lemma {:induction false} TwoMore(cfg: Config, ms: seq<Move>, k: nat)
    requires k + 2 <= |ms|
    ensures After(cfg, ms[..k + 2]) == Apply(cfg, Apply(cfg, After(cfg, ms[..k]), ms[k]), ms[k + 1])
  {
    hide Apply, After;
    OneMore(cfg, ms, k);
    OneMore(cfg, ms, k + 1);
  }

  lemma Taken(cfg: Config)
    requires cfg.capacity >= 1
    ensures var s := After(cfg, LOSING[..9]);
            && s.ConsumerOf(0) == Loading(JobOf(LOST)) && s.queue == []
            && s.world.store.executions == map[1 := LOST] && s.world.store.agents == map[]
  {
    hide Apply, After;
    FirstOf(cfg);
    FourMore(cfg, LOSING, 1);
    LooksAndConverses(cfg, AgentPut(START, HELPER), 0);
    TwoMore(cfg, LOSING, 5);
    Sends(cfg, After(cfg, LOSING[..5]));
    TwoMore(cfg, LOSING, 7);
    Takes(cfg, After(cfg, LOSING[..7]));
  }

  /** The execution stays queued, and nobody will ever run it. */
  lemma JobsCanBeLost(cfg: Config)
    requires cfg.capacity >= 1
    ensures Behaviour(cfg, LOSING)
    ensures var s := After(cfg, LOSING);
            && IsAt(s, 1, Dropped) && s.queue == [] && s.ConsumerOf(0).Idle?
            && 1 in s.world.store.executions && s.world.store.executions[1].status == Queued
  {
    hide Apply, After, Allowed;
    Taken(cfg);
    Drops(cfg, After(cfg, LOSING[..9]), LOSING[10].run);
    TwoMore(cfg, LOSING, 9);
    assert LOSING[..11] == LOSING;
    OneMore(cfg, LOSING, 9);
    Prefixes(cfg, 10);
    assert Behaviour(cfg, LOSING) by {
      assert LOSING[..|LOSING| - 1] == LOSING[..10];
    }
  }
}
