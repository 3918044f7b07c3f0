/** Trace reads the record of an execution and its steps in two lock sections; what a reader can still conclude. */
module Traces {
  import opened Domain
  import opened Runs
  import opened Effects
  import opened Scripts
  import opened Dispatch
  import opened DispatchLaws
  import opened RunLaws
  import DispatchProofs

  /** The steps account for the retries of the record; exactly, once it is terminal. */
  predicate Accounts(x: Execution, steps: seq<Step>) {
    x.retryCount <= RetriesOf(steps) && (Terminal(x.status) ==> x.retryCount == RetriesOf(steps))
  }

  /** What a reader has read so far fits what is stored now, and is all there is if the record it read was terminal. */
  predicate ReaderOk(s: State, t: nat) {
    match s.ReaderOf(t)
    case Unread => true
    case Half(x) => StillFits(s, x) && Accounts(x, s.world.store.StepsOf(x.id))
    case Read(x, steps) =>
      StillFits(s, x) && Accounts(x, steps) && steps <= s.world.store.StepsOf(x.id)
      && (Terminal(x.status) ==> steps == s.world.store.StepsOf(x.id))
  }

  predicate StillFits(s: State, x: Execution) {
    && x.id in s.world.store.executions
    && SameIdentity(x, s.world.store.executions[x.id])
    && Reaches(x.status, s.world.store.executions[x.id].status)
    && (Terminal(x.status) ==> s.world.store.executions[x.id] == x)
  }

  lemma RetriesGrow(a: seq<Step>, b: seq<Step>)
    requires a <= b
    ensures RetriesOf(a) <= RetriesOf(b)
  {
    CountsConcat(a, b[|a|..]);
    assert b == a + b[|a|..];
  }

  /** After the last rewrite of its record a run stores no more steps. */
  lemma NoStepsAfterFinal(p: Script, n: nat)
    requires Lawful(p) && |p.log| - 1 <= n <= |p.log|
    ensures StepsIn(p.log[..n]) == StepsIn(p.log)
  {
    assert LawfulAt(p, |p.log| - 1);
    assert p.log[..|p.log|] == p.log;
    assert StepsIn(p.log) == StepsIn(p.log[..|p.log| - 1]);
  }

  /** In every sound state the stored steps account for the stored record. */
  lemma StoredAccounts(s: State, e: Id)
    requires Sound(s) && e in s.world.store.executions
    ensures Accounts(s.world.store.executions[e], s.world.store.StepsOf(e))
  {
    assert ExecutionOk(s, e);
    var x := s.world.store.executions[e];
    match s.place[e] {
      case AtWorker(w) =>
        if s.ConsumerOf(w).Executing? {
          ScriptAccounts(s.world, s.ConsumerOf(w).script, s.ConsumerOf(w).done);
        }
      case Settled(p) => ScriptAccounts(s.world, p, |p.log|);
      case _ =>
    }
  }

  lemma ScriptAccounts(w: World, p: Script, n: nat)
    requires Lawful(p) && Untouched(p.start) && n <= |p.log| && DoneSoFar(w, p, n)
    ensures p.start.id in w.store.executions
    ensures Accounts(w.store.executions[p.start.id], w.store.StepsOf(p.start.id))
  {
    if n >= |p.log| - 1 {
      NoStepsAfterFinal(p, n);
    }
  }

  lemma StepReader(cfg: Config, s: State, m: Move, t: nat)
    requires Sound(s) && ReaderOk(s, t)
    ensures ReaderOk(Apply(cfg, s, m), t)
  {
    hide Sound, Apply, Later;
    var k := s.ReaderOf(t);
    ReadersFrame(cfg, s, m, t);
    if !k.Unread? {
      EachMoveAdvances(cfg, s, m, k.x.id);
      ReaderKeeps(s, Apply(cfg, s, m), t);
      StepsReadOk(s, t);
    } else if m.ReadRecord? && m.t == t {
      RecordReadOk(s, t, m.ownerId, m.e);
    }
  }

  lemma ReadersFrame(cfg: Config, s: State, m: Move, t: nat)
    ensures var k := Apply(cfg, s, m).ReaderOf(t);
            k == s.ReaderOf(t)
            || (m == ReadSteps(t) && Apply(cfg, s, m) == StepsRead(s, t))
            || (m.ReadRecord? && m.t == t && Apply(cfg, s, m) == RecordRead(s, t, m.ownerId, m.e))
  {
    if m.ReadRecord? || m.ReadSteps? {
      hide Arrived, LookedUp, Authorized, Conversed, Created, Unidentified, Enqueued, SendCancelled, WithdrawnBy,
        Dequeued,
        Loaded, Checked, Acted, AgentPut, AgentRemoved;
    } else {
      hide Apply;
      OthersDoNotRead(cfg, s, m);
    }
  }

  lemma OthersDoNotRead(cfg: Config, s: State, m: Move)
    requires !m.ReadRecord? && !m.ReadSteps?
    ensures Apply(cfg, s, m) == Apply(cfg, s, m).(readers := s.readers)
  {
    hide Apply;
    if Handling(m) {
      HandlingMoves(cfg, s, m);
    } else if Writing(m) {
      WritersDoNotRead(cfg, s, m);
    } else {
      TalkingMoves(cfg, s, m);
    }
  }

  predicate Writing(m: Move) {
    m.Converse? || m.Create? || m.Withdraw? || m.Act? || m.PutAgent? || m.RemoveAgent?
  }

  lemma WritersDoNotRead(cfg: Config, s: State, m: Move)
    requires Writing(m)
    ensures Apply(cfg, s, m) == Apply(cfg, s, m).(readers := s.readers)
  {
    hide Arrived, LookedUp, Authorized, Unidentified, Enqueued, SendCancelled, Dequeued, Loaded, Checked, RecordRead,
      StepsRead, KeyTaken, Effect, ScriptOf, NewExecution, Withdrawn, Joining;
  }

  /** What the reader holds goes on fitting as the state moves on. */
  lemma ReaderKeeps(s: State, t: State, r: nat)
    requires ReaderOk(s, r) && !s.ReaderOf(r).Unread? && Later(s, t, s.ReaderOf(r).x.id)
    ensures t.ReaderOf(r) == s.ReaderOf(r) ==> ReaderOk(t, r)
  {
    var k := s.ReaderOf(r);
    RetriesGrow(s.world.store.StepsOf(k.x.id), t.world.store.StepsOf(k.x.id));
  }

  lemma StepsReadOk(s: State, t: nat)
    requires ReaderOk(s, t) && !s.ReaderOf(t).Unread?
    ensures ReaderOk(StepsRead(s, t), t)
    ensures forall o, e :: RecordRead(s, t, o, e) == s
  {
  }

  lemma RecordReadOk(s: State, t: nat, o: string, e: Id)
    requires Sound(s) && s.ReaderOf(t).Unread?
    ensures ReaderOk(RecordRead(s, t, o, e), t)
  {
    assert ExecutionOk(s, e);
    if RecordRead(s, t, o, e) != s {
      StoredAccounts(s, e);
    }
  }

  lemma {:induction false} ReadersAlwaysOk(cfg: Config, ms: seq<Move>, t: nat)
    requires Behaviour(cfg, ms)
    ensures ReaderOk(After(cfg, ms), t)
  {
    hide Sound, Apply, Allowed, ReaderOk;
    if ms != [] {
      ReadersAlwaysOk(cfg, ms[..|ms| - 1], t);
      DispatchProofs.AlwaysSound(cfg, ms[..|ms| - 1]);
      StepReader(cfg, After(cfg, ms[..|ms| - 1]), ms[|ms| - 1], t);
    } else {
      NothingRead(t);
    }
  }

  lemma NothingRead(t: nat)
    ensures ReaderOk(START, t)
  {
  }

  /**
   * Whatever happens between and after the two reads: the steps account for at least the retries of the record, and if
   * the record is terminal then exactly, and they are all the steps that will ever be stored for it.
   */
  lemma {:induction false} TornReadsAreSafe(cfg: Config, ms: seq<Move>, k: nat, t: nat)
    requires Behaviour(cfg, ms) && k <= |ms| && After(cfg, ms[..k]).ReaderOf(t).Read?
    ensures var r, last := After(cfg, ms[..k]).ReaderOf(t), After(cfg, ms).world.store;
            && Accounts(r.x, r.steps)
            && r.steps <= last.StepsOf(r.x.id)
            && (Terminal(r.x.status) ==> last.StepsOf(r.x.id) == r.steps && r.x.id in last.executions
                                         && last.executions[r.x.id] == r.x)
  {
    hide Behaviour, After, Sound, Apply;
    BehaviourPrefix(cfg, ms, k);
    ReadersAlwaysOk(cfg, ms[..k], t);
    StatusOnlyAdvances(cfg, ms, k, After(cfg, ms[..k]).ReaderOf(t).x.id);
  }
}
