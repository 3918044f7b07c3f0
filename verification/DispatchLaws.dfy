/** What holds in every state that callers, consumers, runs and readers can reach together. */
module DispatchLaws {
  import opened Domain
  import opened Runs
  import opened Effects
  import opened Scripts
  import opened Dispatch
  import opened Text
  import DispatchProofs
  import Progress
  import S = Store

  // ---------- Moves that only talk or look ----------

  predicate Quiet(m: Move) {
    m.Arrive? || m.Lookup? || m.Authorize? || m.NoIdentifier? || m.CancelSend?
    || m.PutAgent? || m.RemoveAgent? || m.ReadRecord? || m.ReadSteps?
  }

  /** A quiet move changes callers, agents, readers and perhaps the next identifier only. */
  lemma QuietMoves(cfg: Config, s: State, m: Move)
    requires Quiet(m)
    ensures var t := Apply(cfg, s, m);
            t == s.(callers := t.callers, readers := t.readers, nextId := t.nextId,
                    world := s.world.(store := s.world.store.(agents := t.world.store.agents)))
  {
    hide Apply;
    if m.PutAgent? || m.RemoveAgent? || m.ReadRecord? || m.ReadSteps? {
      LookingMoves(cfg, s, m);
    } else {
      TalkingMoves(cfg, s, m);
    }
  }

  lemma LookingMoves(cfg: Config, s: State, m: Move)
    requires m.PutAgent? || m.RemoveAgent? || m.ReadRecord? || m.ReadSteps?
    ensures var t := Apply(cfg, s, m);
            t == s.(readers := t.readers, world := s.world.(store := s.world.store.(agents := t.world.store.agents)))
  {
    hide Conversed, Created, Enqueued, WithdrawnBy, Dequeued, Loaded, Checked, Acted, Arrived, LookedUp, Authorized,
      Unidentified, SendCancelled;
  }

  lemma TalkingMoves(cfg: Config, s: State, m: Move)
    requires m.Arrive? || m.Lookup? || m.Authorize? || m.NoIdentifier? || m.CancelSend?
    ensures Apply(cfg, s, m) == s.(callers := Apply(cfg, s, m).callers, nextId := Apply(cfg, s, m).nextId)
  {
    hide Conversed, Created, Enqueued, WithdrawnBy, Dequeued, Loaded, Checked, Acted, KeyTaken, AgentPut, AgentRemoved,
      RecordRead, StepsRead, Blank;
  }

  predicate Handling(m: Move) {
    m.Enqueue? || m.Dequeue? || m.Load? || m.Check?
  }

  /** Handing a job on does not touch the shared state. */
  lemma HandlingMoves(cfg: Config, s: State, m: Move)
    requires Handling(m)
    ensures var t := Apply(cfg, s, m);
            t == s.(callers := t.callers, consumers := t.consumers, queue := t.queue,
                    place := t.place, sent := t.sent, taken := t.taken, begun := t.begun)
  {
    hide Arrived, LookedUp, Authorized, Conversed, Created, Unidentified, SendCancelled, WithdrawnBy, Acted, AgentPut,
      AgentRemoved, RecordRead, StepsRead, ScriptOf, JobOf;
  }

  // ---------- Who holds what ----------

  /** Caller c has created e and has neither sent nor withdrawn it yet. */
  predicate Sends(s: State, c: nat, e: Id) {
    var k := s.CallerOf(c);
    (k.Sending? || k.Withdrawing?) && k.x.id == e
  }

  /** Entry i of the queue is a job for e. */
  predicate Waits(s: State, i: nat, e: Id) {
    i < |s.queue| && s.queue[i].executionId == e
  }

  /** Consumer w has taken a job for e and is not done with it. */
  predicate WorksOn(s: State, w: nat, e: Id) {
    match s.ConsumerOf(w)
    case Idle => false
    case Loading(job) => job.executionId == e
    case Checking(_, x) => x.id == e
    case Executing(p, _) => p.start.id == e
  }

  ghost predicate IsAt(s: State, e: Id, p: Place) {
    e in s.place && s.place[e] == p
  }

  /**
   * In every reachable state each stored execution has one place, and a caller, a queue entry or a consumer holds it
   * exactly if that is its place: two of them never hold the same execution.
   */
  lemma {:induction false} OnePlace(cfg: Config, ms: seq<Move>, e: Id)
    requires Behaviour(cfg, ms)
    ensures var s := After(cfg, ms);
            && (e in s.world.store.executions <==> e in s.place)
            && (forall c: nat :: Sends(s, c, e) <==> IsAt(s, e, AtCaller(c)))
            && ((exists i: nat :: Waits(s, i, e)) <==> IsAt(s, e, AtQueue))
            && (forall i: nat, j: nat :: Waits(s, i, e) && Waits(s, j, e) ==> i == j)
            && (forall w: nat :: WorksOn(s, w, e) <==> IsAt(s, e, AtWorker(w)))
  {
    var s := After(cfg, ms);
    DispatchProofs.AlwaysSound(cfg, ms);
    assert ExecutionOk(s, e);
    forall c: nat ensures Sends(s, c, e) <==> IsAt(s, e, AtCaller(c)) { assert CallerOk(s, c); }
    forall w: nat ensures WorksOn(s, w, e) <==> IsAt(s, e, AtWorker(w)) { assert ConsumerOk(s, w); }
    QueuedOnce(s, e);
    WaitsIffQueued(s, e);
  }

  lemma QueuedOnce(s: State, e: Id)
    requires HistoryOk(s)
    ensures forall i: nat, j: nat :: Waits(s, i, e) && Waits(s, j, e) ==> i == j
  {
    forall i: nat, j: nat | Waits(s, i, e) && Waits(s, j, e) ensures i == j {
      var n := |s.taken|;
      assert s.sent[n + i] == e && s.sent[n + j] == e;
    }
  }

  lemma WaitsIffQueued(s: State, e: Id)
    requires DispatchProofs.QueueOk(s) && ExecutionOk(s, e) && s.place.Keys == s.world.store.executions.Keys
    ensures (exists i: nat :: Waits(s, i, e)) <==> IsAt(s, e, AtQueue)
  {
    if i: nat :| Waits(s, i, e) {
      assert QueuedOk(s, i);
    }
    if IsAt(s, e, AtQueue) {
      var i: nat :| i < |s.queue| && s.queue[i] == JobOf(s.world.store.executions[e]);
      assert Waits(s, i, e);
    }
  }

  /** Jobs leave the queue in the order in which they were sent, and no execution is sent or taken twice. */
  lemma {:induction false} FirstInFirstOut(cfg: Config, ms: seq<Move>)
    requires Behaviour(cfg, ms)
    ensures var s := After(cfg, ms);
            s.sent == s.taken + Ids(s.queue) && Distinct(s.sent) && |s.queue| <= cfg.capacity
  {
    DispatchProofs.AlwaysSound(cfg, ms);
    QueueIsBounded(cfg, ms);
  }

  lemma {:induction false} QueueIsBounded(cfg: Config, ms: seq<Move>)
    ensures |After(cfg, ms).queue| <= cfg.capacity
  {
    hide Apply;
    if ms != [] {
      QueueIsBounded(cfg, ms[..|ms| - 1]);
      QueueStep(cfg, After(cfg, ms[..|ms| - 1]), ms[|ms| - 1]);
    }
  }

  lemma QueueStep(cfg: Config, s: State, m: Move)
    requires |s.queue| <= cfg.capacity
    ensures |Apply(cfg, s, m).queue| <= cfg.capacity
  {
    hide Arrived, LookedUp, Authorized, Unidentified, SendCancelled, AgentPut, AgentRemoved, RecordRead, StepsRead;
    if Quiet(m) {
      QuietMoves(cfg, s, m);
    }
  }

  // ---------- At most one run ----------

  /** Move k lets a consumer start running e. */
  predicate BeginsAt(cfg: Config, ms: seq<Move>, k: nat, e: Id)
    requires k < |ms|
  {
    var s := After(cfg, ms[..k]);
    ms[k].Check? && s.ConsumerOf(ms[k].w).Checking? && s.ConsumerOf(ms[k].w).x.id == e
    && Apply(cfg, s, ms[k]).ConsumerOf(ms[k].w).Executing?
  }

  /** Of all the moves there ever are, at most one starts a run of an execution. */
  lemma {:induction false} RunsAtMostOnce(cfg: Config, ms: seq<Move>, j: nat, k: nat, e: Id)
    requires Behaviour(cfg, ms) && j < |ms| && k < |ms|
    requires BeginsAt(cfg, ms, j, e) && BeginsAt(cfg, ms, k, e)
    ensures j == k
  {
    hide Behaviour, After, BeginsAt, Distinct;
    if j < k {
      BegunBefore(cfg, ms, j, k, e);
      BeginsFresh(cfg, ms, k, e);
      assert false;
    } else if k < j {
      BegunBefore(cfg, ms, k, j, e);
      BeginsFresh(cfg, ms, j, e);
      assert false;
    }
  }

  lemma {:induction false} BegunBefore(cfg: Config, ms: seq<Move>, j: nat, k: nat, e: Id)
    requires j < k <= |ms| && BeginsAt(cfg, ms, j, e)
    ensures e in After(cfg, ms[..k]).begun
  {
    hide After, Apply;
    OneMore(cfg, ms, j);
    BegunGrows(cfg, ms[..k], j + 1);
    assert ms[..k][..j + 1] == ms[..j + 1];
    BeginningRecords(cfg, After(cfg, ms[..j]), ms[j], e);
  }

  lemma BeginningRecords(cfg: Config, s: State, m: Move, e: Id)
    requires m.Check? && s.ConsumerOf(m.w).Checking? && s.ConsumerOf(m.w).x.id == e
    requires Apply(cfg, s, m).ConsumerOf(m.w).Executing?
    ensures e in Apply(cfg, s, m).begun
  {
  }

  lemma {:induction false} BeginsFresh(cfg: Config, ms: seq<Move>, k: nat, e: Id)
    requires Behaviour(cfg, ms) && k < |ms| && BeginsAt(cfg, ms, k, e)
    ensures e !in After(cfg, ms[..k]).begun
  {
    hide Behaviour, After;
    BehaviourPrefix(cfg, ms, k);
    DispatchProofs.AlwaysSound(cfg, ms[..k]);
    CheckedIsFresh(After(cfg, ms[..k]), ms[k].w);
  }

  lemma CheckedIsFresh(s: State, w: nat)
    requires Sound(s) && s.ConsumerOf(w).Checking?
    ensures s.ConsumerOf(w).x.id !in s.begun
  {
    assert ConsumerOk(s, w);
  }

  lemma {:induction false} OneMore(cfg: Config, ms: seq<Move>, k: nat)
    requires k < |ms|
    ensures After(cfg, ms[..k + 1]) == Apply(cfg, After(cfg, ms[..k]), ms[k])
  {
    hide Apply;
    assert ms[..k + 1][..k] == ms[..k];
  }

  lemma {:induction false} BehaviourPrefix(cfg: Config, ms: seq<Move>, k: nat)
    requires Behaviour(cfg, ms) && k <= |ms|
    ensures Behaviour(cfg, ms[..k])
    ensures k < |ms| ==> Allowed(After(cfg, ms[..k]), ms[k])
    decreases |ms|
  {
    hide Allowed, Apply;
    if k == |ms| {
      assert ms[..k] == ms;
    } else {
      BehaviourPrefix(cfg, ms[..|ms| - 1], k);
      assert ms[..|ms| - 1][..k] == ms[..k];
    }
  }

  lemma {:induction false} BegunGrows(cfg: Config, ms: seq<Move>, k: nat)
    requires k <= |ms|
    ensures After(cfg, ms[..k]).begun <= After(cfg, ms).begun
    decreases |ms|
  {
    hide Apply;
    if k == |ms| {
      assert ms[..k] == ms;
    } else {
      BegunGrows(cfg, ms[..|ms| - 1], k);
      assert ms[..|ms| - 1][..k] == ms[..k];
      BegunStep(cfg, After(cfg, ms[..|ms| - 1]), ms[|ms| - 1]);
    }
  }

  lemma BegunStep(cfg: Config, s: State, m: Move)
    ensures s.begun <= Apply(cfg, s, m).begun
  {
    hide Arrived, LookedUp, Authorized, Unidentified, SendCancelled, AgentPut, AgentRemoved, RecordRead, StepsRead;
    if Quiet(m) {
      QuietMoves(cfg, s, m);
    }
  }

  lemma {:induction false} TakenSince(cfg: Config, ms: seq<Move>, ms': seq<Move>)
    requires ms <= ms'
    ensures After(cfg, ms).taken <= After(cfg, ms').taken
    decreases |ms'|
  {
    hide Apply;
    if ms != ms' {
      assert ms <= ms'[..|ms'| - 1];
      TakenSince(cfg, ms, ms'[..|ms'| - 1]);
      TakenStep(cfg, After(cfg, ms'[..|ms'| - 1]), ms'[|ms'| - 1]);
    }
  }

  lemma TakenStep(cfg: Config, s: State, m: Move)
    ensures s.taken <= Apply(cfg, s, m).taken
  {
    hide Arrived, LookedUp, Authorized, Unidentified, SendCancelled, AgentPut, AgentRemoved, RecordRead, StepsRead;
    if Quiet(m) {
      QuietMoves(cfg, s, m);
    }
  }

  // ---------- The life of an execution ----------

  /** One write of a status: queued to running, running to terminal, or queued to failed. */
  predicate Advances(a: Status, b: Status) {
    a == b || (a.Queued? && (b.Running? || b.Failed?)) || (a.Running? && Terminal(b))
  }

  /** What any number of such writes can do. */
  predicate Reaches(a: Status, b: Status) {
    a == b || a.Queued? || (a.Running? && Terminal(b))
  }

  /** Execution e has come to a place that it never leaves. */
  ghost predicate Rests(s: State, e: Id) {
    e in s.place && (s.place[e].Settled? || s.place[e].Undispatched? || s.place[e].Dropped?)
  }

  /**
   * Execution e from s on: stored for good, never another's, its steps only added to, frozen once terminal or at rest.
   */
  ghost predicate Later(s: State, t: State, e: Id) {
    var x, y := s.world.store.executions, t.world.store.executions;
    e in x ==>
      && e in y && SameIdentity(x[e], y[e]) && Reaches(x[e].status, y[e].status)
      && s.world.store.StepsOf(e) <= t.world.store.StepsOf(e)
      && (Terminal(x[e].status) ==> x[e] == y[e] && s.world.store.StepsOf(e) == t.world.store.StepsOf(e))
      && (Rests(s, e) ==> IsAt(t, e, s.place[e]))
  }

  /**
   * In every reachable state and from every earlier one: the status has only moved forward, and terminal means final.
   */
  lemma {:induction false} StatusOnlyAdvances(cfg: Config, ms: seq<Move>, k: nat, e: Id)
    requires Behaviour(cfg, ms) && k <= |ms|
    ensures Later(After(cfg, ms[..k]), After(cfg, ms), e)
    decreases |ms|
  {
    hide Apply, Sound, Allowed, Later;
    if k == |ms| {
      assert ms[..k] == ms;
      LaterSelf(After(cfg, ms), e);
    } else {
      var ms' := ms[..|ms| - 1];
      StatusOnlyAdvances(cfg, ms', k, e);
      assert ms'[..k] == ms[..k];
      DispatchProofs.AlwaysSound(cfg, ms');
      EachMoveAdvances(cfg, After(cfg, ms'), ms[|ms| - 1], e);
      LaterThen(After(cfg, ms[..k]), After(cfg, ms'), After(cfg, ms), e);
    }
  }

  lemma LaterSelf(s: State, e: Id)
    ensures Later(s, s, e)
  {
  }

  lemma LaterThen(s: State, t: State, u: State, e: Id)
    requires Later(s, t, e) && Later(t, u, e)
    ensures Later(s, u, e)
  {
  }

  /** A single move writes the status of an execution at most one step forward. */
  lemma EachMoveAdvances(cfg: Config, s: State, m: Move, e: Id)
    requires Sound(s)
    ensures Later(s, Apply(cfg, s, m), e)
    ensures e in s.world.store.executions ==>
              e in Apply(cfg, s, m).world.store.executions
              && Advances(s.world.store.executions[e].status, Apply(cfg, s, m).world.store.executions[e].status)
  {
    hide Apply, Sound, ExecutionOk;
    if e in s.world.store.executions {
      SoundAt(s, e);
      if m.Act? {
        ActIs(cfg, s, m.w);
        ActAdvances(s, m.w, e);
      } else if m.Withdraw? {
        WithdrawIs(cfg, s, m.c, m.at);
        WithdrawAdvances(s, m.c, m.at, e);
      } else {
        RecordsFrame(cfg, s, m, e);
        LogsFrame(cfg, s, m);
        PlacesFrame(cfg, s, m, e);
      }
    }
  }

  lemma SoundAt(s: State, e: Id)
    requires Sound(s) && e in s.world.store.executions
    ensures ExecutionOk(s, e) && e < s.nextId
  {
    assert ExecutionOk(s, e);
  }

  lemma WithdrawAdvances(s: State, c: nat, at: Time, e: Id)
    requires Sound(s) && e in s.world.store.executions && ExecutionOk(s, e)
    ensures var t := WithdrawnBy(s, c, at);
            && Later(s, t, e)
            && Advances(s.world.store.executions[e].status, t.world.store.executions[e].status)
  {
    assert CallerOk(s, c);
  }

  /** Only three moves write an execution, and only the actions of a run write its steps, events and messages. */
  lemma RecordsFrame(cfg: Config, s: State, m: Move, e: Id)
    requires e < s.nextId && !m.Act? && !m.Withdraw?
    ensures Apply(cfg, s, m).world.RecordOf(e) == s.world.RecordOf(e)
  {
    hide Enqueued, Dequeued, Loaded, Checked, Arrived, LookedUp, Authorized, Unidentified, SendCancelled, AgentPut,
      AgentRemoved, RecordRead, StepsRead;
    if Quiet(m) {
      QuietMoves(cfg, s, m);
    } else if Handling(m) {
      HandlingMoves(cfg, s, m);
    }
    if !m.Create? && !m.Converse? {
      assert Apply(cfg, s, m).world.store.executions == s.world.store.executions;
    }
  }

  lemma LogsFrame(cfg: Config, s: State, m: Move)
    requires !m.Act?
    ensures SameLogs(s, Apply(cfg, s, m))
  {
    hide Apply, Conversed, Created, WithdrawnBy;
    if Quiet(m) {
      QuietMoves(cfg, s, m);
    } else if Handling(m) {
      HandlingMoves(cfg, s, m);
    } else {
      match m
      case Converse(c) => ConverseIs(cfg, s, c); ConverseLogsNothing(s, c);
      case Create(c) => CreateIs(cfg, s, c); CreateLogsNothing(cfg, s, c);
      case Withdraw(c, at) => WithdrawIs(cfg, s, c, at); WithdrawLogsNothing(s, c, at);
    }
  }

  ghost predicate SameLogs(s: State, t: State) {
    && t.authors == s.authors && t.world.events == s.world.events
    && t.world.store.steps == s.world.store.steps && t.world.store.messages == s.world.store.messages
  }

  lemma ConverseLogsNothing(s: State, c: nat)
    ensures SameLogs(s, Conversed(s, c))
  {
    hide Joining, Title;
  }

  lemma CreateLogsNothing(cfg: Config, s: State, c: nat)
    ensures SameLogs(s, Created(cfg, s, c))
  {
    hide KeyTaken, NewExecution;
  }

  lemma WithdrawLogsNothing(s: State, c: nat, at: Time)
    ensures SameLogs(s, WithdrawnBy(s, c, at))
  {
    hide Withdrawn;
  }

  lemma PlacesFrame(cfg: Config, s: State, m: Move, e: Id)
    requires Sound(s) && !m.Act? && !m.Withdraw?
    ensures Rests(s, e) ==> IsAt(Apply(cfg, s, m), e, s.place[e])
  {
    hide Apply, Sound, Enqueued, Created, Conversed, Dequeued, Loaded, Checked;
    if Quiet(m) {
      QuietMoves(cfg, s, m);
    }
    match m
    case Converse(c) => ConverseIs(cfg, s, c); ConverseRests(s, c, e);
    case Create(c) => CreateIs(cfg, s, c); CreateRests(cfg, s, c, e);
    case Enqueue(c) => EnqueueIs(cfg, s, c); EnqueueRests(cfg, s, c, e);
    case Dequeue(w) => DequeueIs(cfg, s, w); DequeueRests(s, w, e);
    case Load(w) => LoadIs(cfg, s, w); LoadRests(s, w, e);
    case Check(w, run) => CheckIs(cfg, s, w, run); CheckRests(s, w, run, e);
    case _ =>
  }

  lemma ConverseRests(s: State, c: nat, e: Id)
    ensures Rests(s, e) ==> IsAt(Conversed(s, c), e, s.place[e])
  {
    hide Title, Joining;
  }

  lemma CreateRests(cfg: Config, s: State, c: nat, e: Id)
    requires Sound(s)
    ensures Rests(s, e) ==> IsAt(Created(cfg, s, c), e, s.place[e])
  {
    hide KeyTaken, ExecutionOk, CallerOk, ConsumerOk, QueuedOk;
    assert e in s.place ==> e < s.nextId;
  }

  lemma EnqueueRests(cfg: Config, s: State, c: nat, e: Id)
    requires Sound(s)
    ensures Rests(s, e) ==> IsAt(Enqueued(cfg, s, c), e, s.place[e])
  {
    hide HistoryOk, IdsOk, ExecutionOk, JobOf;
    assert CallerOk(s, c);
  }

  lemma DequeueRests(s: State, w: nat, e: Id)
    requires Sound(s)
    ensures Rests(s, e) ==> IsAt(Dequeued(s, w), e, s.place[e])
  {
    hide HistoryOk, IdsOk, ExecutionOk, JobOf;
    assert QueuedOk(s, 0);
  }

  lemma LoadRests(s: State, w: nat, e: Id)
    requires Sound(s)
    ensures Rests(s, e) ==> IsAt(Loaded(s, w), e, s.place[e])
  {
    hide HistoryOk, IdsOk, ExecutionOk, JobOf;
    assert ConsumerOk(s, w);
  }

  lemma CheckRests(s: State, w: nat, run: Run, e: Id)
    requires Sound(s)
    ensures Rests(s, e) ==> IsAt(Checked(s, w, run), e, s.place[e])
  {
    hide HistoryOk, IdsOk, ExecutionOk, ScriptOf;
    assert ConsumerOk(s, w);
  }

  lemma ActAdvances(s: State, w: nat, e: Id)
    requires Sound(s) && e in s.world.store.executions && ExecutionOk(s, e)
    ensures var t := Acted(s, w);
            && Later(s, t, e)
            && Advances(s.world.store.executions[e].status, t.world.store.executions[e].status)
  {
    hide Effect, StepsIn, EventsIn, Lawful, HistoryOk, IdsOk;
    assert ConsumerOk(s, w);
    var k := s.ConsumerOf(w);
    if Acted(s, w) != s {
      if e == k.script.start.id {
        ActDoes(s.world, k.script, k.done);
        RecordAdvances(k.script, k.done);
        StepsAdvance(k.script, k.done);
      } else {
        assert ExecutionOk(s, k.script.start.id);
        ActSpares(s.world, k.script, k.done, e);
      }
    }
  }

  lemma RecordAdvances(p: Script, n: nat)
    requires Lawful(p) && Untouched(p.start) && n < |p.log|
    ensures var x, y := RecordAt(p, n), RecordAt(p, n + 1);
            SameIdentity(x, y) && Advances(x.status, y.status) && (Terminal(x.status) ==> x == y)
  {
    RecordKeeps(p, n);
    RecordKeeps(p, n + 1);
  }

  lemma StepsAdvance(p: Script, n: nat)
    requires Lawful(p) && Untouched(p.start) && n < |p.log|
    ensures StepsIn(p.log[..n]) <= StepsIn(p.log[..n + 1])
    ensures Terminal(RecordAt(p, n).status) ==> StepsIn(p.log[..n]) == StepsIn(p.log[..n + 1])
  {
    assert LawfulAt(p, n);
    assert p.log[..n + 1] == p.log[..n] + [p.log[n]];
    FiltersConcat(p.log[..n], [p.log[n]]);
    OneFilters(p.log[n]);
  }

  // ---------- Whose execution, whose conversation ----------

  /**
   * AppendMessage and UpdateExecution check no owner, yet every stored execution names a stored conversation of the
   * same owner and the same agent.
   */
  lemma {:induction false} ConversationsFit(cfg: Config, ms: seq<Move>, e: Id)
    requires Behaviour(cfg, ms) && e in After(cfg, ms).world.store.executions
    ensures var st := After(cfg, ms).world.store;
            var x := st.executions[e];
            && x.id == e && x.conversationId in st.conversations
            && st.conversations[x.conversationId].ownerId == x.ownerId
            && st.conversations[x.conversationId].agentId == x.agentId
  {
    DispatchProofs.AlwaysSound(cfg, ms);
    assert ExecutionOk(After(cfg, ms), e);
  }

  /** A run that starts in a reachable state never fails to load its conversation: at worst it finds no identifier. */
  lemma {:induction false} HistoryAlwaysLoads(cfg: Config, ms: seq<Move>, w: nat, run: Run, v: Scene, v': Scene)
    requires Behaviour(cfg, ms) && CanBegin(After(cfg, ms), w, run)
    requires v.now.world == After(cfg, ms).world
    requires Progress.Performed(Ident(run.start.id, run.start.conversationId, false, w), v, v', run)
    ensures run.opening != [] || run.ending == Stopped(NoEntropy)
  {
    hide Sound;
    ConversationOfJob(cfg, ms, w);
  }

  lemma {:induction false} ConversationOfJob(cfg: Config, ms: seq<Move>, w: nat)
    requires Behaviour(cfg, ms) && After(cfg, ms).ConsumerOf(w).Checking?
    ensures var x := After(cfg, ms).ConsumerOf(w).x;
            After(cfg, ms).world.store.OwnsConversation(x.ownerId, x.conversationId)
  {
    DispatchProofs.AlwaysSound(cfg, ms);
    assert ConsumerOk(After(cfg, ms), w);
    assert ExecutionOk(After(cfg, ms), After(cfg, ms).ConsumerOf(w).x.id);
  }

  // ---------- Dropped jobs ----------

  /** The agent of x is stored, and has the same owner. */
  predicate AgentOf(s: State, x: Execution) {
    x.agentId in s.world.store.agents && s.world.store.agents[x.agentId].ownerId == x.ownerId
  }

  /** A run begins only with an agent of the same owner. */
  lemma {:induction false} BeginsWithAgent(cfg: Config, ms: seq<Move>, k: nat, e: Id)
    requires Behaviour(cfg, ms) && k < |ms| && BeginsAt(cfg, ms, k, e)
    ensures var x := After(cfg, ms[..k]).world.store.executions;
            e in x && x[e].status == Queued && AgentOf(After(cfg, ms[..k]), x[e])
  {
    hide Behaviour, After, Sound;
    BehaviourPrefix(cfg, ms, k);
    DispatchProofs.AlwaysSound(cfg, ms[..k]);
    BeginsOnAgent(cfg, After(cfg, ms[..k]), ms[k].w, ms[k].run, e);
  }

  lemma BeginsOnAgent(cfg: Config, s: State, w: nat, run: Run, e: Id)
    requires Sound(s) && s.ConsumerOf(w).Checking? && s.ConsumerOf(w).x.id == e
    requires Apply(cfg, s, Check(w, run)).ConsumerOf(w).Executing?
    ensures e in s.world.store.executions && s.world.store.executions[e].status == Queued
    ensures AgentOf(s, s.world.store.executions[e])
  {
    hide Apply, HistoryOk, IdsOk, ScriptOf;
    CheckIs(cfg, s, w, run);
    assert ConsumerOk(s, w) && ExecutionOk(s, e);
  }

  /** A trace is read only by the owner of its execution, and an agent is removed only by its owner. */
  lemma OnlyOwners(cfg: Config, s: State, t: nat, owner: string, id: Id)
    requires s.ReaderOf(t).Unread?
    ensures var x, r := s.world.store.executions, Apply(cfg, s, ReadRecord(t, owner, id)).ReaderOf(t);
            if id in x && x[id].ownerId == owner then r == Half(x[id]) else r.Unread?
    ensures var a := s.world.store.agents;
            Apply(cfg, s, RemoveAgent(owner, id)).world.store.agents ==
            if id in a && a[id].ownerId == owner then a - {id} else a
  {
    hide Apply;
    ReadRecordIs(cfg, s, t, owner, id);
    RemoveAgentIs(cfg, s, owner, id);
  }

  /**
   * A consumer always finds the execution its job names, so a job is dropped only when the agent is gone or not the
   * owner's; the execution then stays queued.
   */
  lemma {:induction false} DroppedOnlyWithoutAgent(cfg: Config, ms: seq<Move>, m: Move, e: Id)
    requires Behaviour(cfg, ms + [m])
    ensures var s, t := After(cfg, ms), After(cfg, ms + [m]);
            && (m.Load? && s.ConsumerOf(m.w).Loading? ==> t.ConsumerOf(m.w).Checking?)
            && (IsAt(t, e, Dropped) ==>
                  && e in t.world.store.executions && t.world.store.executions[e].status == Queued)
            && (IsAt(t, e, Dropped) && !IsAt(s, e, Dropped) <==>
                  && m.Check? && s.ConsumerOf(m.w).Checking? && s.ConsumerOf(m.w).x.id == e
                  && !AgentOf(s, s.ConsumerOf(m.w).x))
  {
    hide Sound, Apply, Allowed;
    assert (ms + [m])[..|ms + [m]| - 1] == ms;
    DispatchProofs.AlwaysSound(cfg, ms);
    DispatchProofs.AlwaysSound(cfg, ms + [m]);
    DroppedIsQueued(After(cfg, ms + [m]), e);
    DropStep(cfg, After(cfg, ms), m, e);
  }

  lemma DroppedIsQueued(s: State, e: Id)
    requires Sound(s)
    ensures IsAt(s, e, Dropped) ==> e in s.world.store.executions && s.world.store.executions[e].status == Queued
  {
    assert ExecutionOk(s, e);
  }

  lemma DropStep(cfg: Config, s: State, m: Move, e: Id)
    requires Sound(s)
    ensures var t := Apply(cfg, s, m);
            && (m.Load? && s.ConsumerOf(m.w).Loading? ==> t.ConsumerOf(m.w).Checking?)
            && (IsAt(t, e, Dropped) && !IsAt(s, e, Dropped) <==>
                  && m.Check? && s.ConsumerOf(m.w).Checking? && s.ConsumerOf(m.w).x.id == e
                  && !s.world.store.OwnsAgent(s.ConsumerOf(m.w).x.ownerId, s.ConsumerOf(m.w).x.agentId))
  {
    hide Arrived, LookedUp, Authorized, Unidentified, SendCancelled, AgentPut, AgentRemoved, RecordRead, StepsRead;
    if Quiet(m) {
      QuietMoves(cfg, s, m);
    }
    match m
    case Load(w) => assert ConsumerOk(s, w);
    case Check(w, _) => assert ConsumerOk(s, w);
    case _ =>
  }

  // ---------- What events tell ----------

  lemma {:induction false} EventIsEmitted(l: seq<Action>, v: Event) returns (k: nat)
    requires v in EventsIn(l)
    ensures k < |l| && l[k] == Emit(v)
  {
    if v in EventsIn(l[..|l| - 1]) {
      k := EventIsEmitted(l[..|l| - 1], v);
    } else {
      k := |l| - 1;
    }
  }

  /** A script announces its end with its last action only. */
  lemma FinalIsLast(p: Script, n: nat, v: Event)
    requires Lawful(p) && n <= |p.log| && v in EventsIn(p.log[..n]) && IsFinal(v)
    ensures n == |p.log| && (v.kind.AgentCompleted? <==> p.final.status.Succeeded?)
  {
    var k := EventIsEmitted(p.log[..n], v);
    assert LawfulAt(p, k) && p.log[k] == Emit(v);
  }

  /**
   * In every reachable state, whoever has seen a final event of an execution finds the matching terminal record, and by
   * StatusOnlyAdvances will always find it: the record is stored before the event is published.
   */
  lemma {:induction false} FinalEventsAreTrue(cfg: Config, ms: seq<Move>, e: Id, v: Event)
    requires Behaviour(cfg, ms) && v in After(cfg, ms).world.EventsOf(e) && IsFinal(v)
    ensures var x := After(cfg, ms).world.store.executions;
            e in x && Terminal(x[e].status) && (v.kind.AgentCompleted? <==> x[e].status.Succeeded?)
  {
    hide Sound;
    DispatchProofs.AlwaysSound(cfg, ms);
    FinalIsTrue(After(cfg, ms), e, v);
  }

  lemma FinalIsTrue(s: State, e: Id, v: Event)
    requires Sound(s) && v in s.world.EventsOf(e) && IsFinal(v)
    ensures var x := s.world.store.executions;
            e in x && Terminal(x[e].status) && (v.kind.AgentCompleted? <==> x[e].status.Succeeded?)
  {
    hide EventsIn, HistoryOk;
    assert ExecutionOk(s, e);
    match s.place[e]
    case AtWorker(w) =>
      match s.ConsumerOf(w) {
        case Executing(p, n) => FinalIsLast(p, n, v);
        case _ =>
      }
    case Settled(p) => FinalIsLast(p, |p.log|, v);
    case _ =>
  }

  // ---------- What a run may rely on ----------

  /** No other run is under way on conversation c. */
  ghost predicate AloneOn(s: State, w: nat, c: Id) {
    forall v: nat :: v != w && s.ConsumerOf(v).Executing? ==> s.ConsumerOf(v).script.start.conversationId != c
  }

  /**
   * While a consumer executes, every move of anybody else leaves that run's record, steps and events alone and only
   * adds to its conversation, and not even that if no other run is under way on it: just what a run assumes of the
   * others.
   */
  lemma {:induction false} OthersLeaveRunsAlone(cfg: Config, ms: seq<Move>, m: Move, w: nat)
    requires Behaviour(cfg, ms + [m]) && After(cfg, ms).ConsumerOf(w).Executing? && m != Act(w)
    ensures var s, t := After(cfg, ms), After(cfg, ms + [m]);
            var x := s.ConsumerOf(w).script.start;
            Leaves(Ident(x.id, x.conversationId, AloneOn(s, w, x.conversationId), w), s.world, t.world)
  {
    hide Sound, Apply, Allowed, Leaves, AloneOn;
    assert (ms + [m])[..|ms + [m]| - 1] == ms;
    DispatchProofs.AlwaysSound(cfg, ms);
    LeavesStep(cfg, After(cfg, ms), m, w);
  }

  lemma LeavesStep(cfg: Config, s: State, m: Move, w: nat)
    requires Sound(s) && s.ConsumerOf(w).Executing? && m != Act(w)
    ensures var x := s.ConsumerOf(w).script.start;
            Leaves(Ident(x.id, x.conversationId, AloneOn(s, w, x.conversationId), w), s.world, Apply(cfg, s, m).world)
  {
    hide Apply, Acted, Leaves, AloneOn, HistoryOk, PlaceOk;
    assert ConsumerOk(s, w);
    var x := s.ConsumerOf(w).script.start;
    if m.Act? {
      ActIs(cfg, s, m.w);
      ActLeaves(s, w, m.w);
    } else {
      WithdrawLeaves(cfg, s, m, x.id);
      LogsFrame(cfg, s, m);
      ConversationsFrame(cfg, s, m);
      LogsLeave(s, Apply(cfg, s, m), x, AloneOn(s, w, x.conversationId), w);
    }
  }

  lemma LogsLeave(s: State, t: State, x: Execution, alone: bool, w: nat)
    requires SameLogs(s, t)
    requires Keeps(s.world.store.conversations, t.world.store.conversations)
    requires t.world.RecordOf(x.id) == s.world.RecordOf(x.id)
    ensures Leaves(Ident(x.id, x.conversationId, alone, w), s.world, t.world)
  {
  }

  lemma ActLeaves(s: State, w: nat, v: nat)
    requires Sound(s) && s.ConsumerOf(w).Executing? && v != w && Holds(s, w, s.ConsumerOf(w).script.start.id)
    ensures var x := s.ConsumerOf(w).script.start;
            Leaves(Ident(x.id, x.conversationId, AloneOn(s, w, x.conversationId), w), s.world, Acted(s, v).world)
  {
    assert ConsumerOk(s, v);
    var x, k := s.ConsumerOf(w).script.start, s.ConsumerOf(v);
    if Acted(s, v) != s {
      assert ExecutionOk(s, k.script.start.id);
      ActSpares(s.world, k.script, k.done, x.id);
      ActAdds(s.world, k.script, k.done, x.conversationId);
    }
  }

  /** What a caller withdraws is not what a consumer holds. */
  lemma WithdrawLeaves(cfg: Config, s: State, m: Move, e: Id)
    requires Sound(s) && !m.Act? && e in s.place && s.place[e].AtWorker? && e in s.world.store.executions
    ensures Apply(cfg, s, m).world.RecordOf(e) == s.world.RecordOf(e)
  {
    if m.Withdraw? {
      assert CallerOk(s, m.c);
    } else {
      RecordsFrame(cfg, s, m, e);
    }
  }

  lemma ConversationsFrame(cfg: Config, s: State, m: Move)
    requires IdsOk(s) && !m.Act?
    ensures Keeps(s.world.store.conversations, Apply(cfg, s, m).world.store.conversations)
  {
    hide Enqueued, Dequeued, Loaded, Checked, Arrived, LookedUp, Authorized, Unidentified, SendCancelled, AgentPut,
      AgentRemoved, RecordRead, StepsRead;
    if Quiet(m) {
      QuietMoves(cfg, s, m);
    } else if Handling(m) {
      HandlingMoves(cfg, s, m);
    }
  }
}
