/** Every move of the dispatch protocol keeps its invariant. */
module DispatchProofs {
  import opened Domain
  import opened Runs
  import opened Effects
  import opened Scripts
  import opened Dispatch
  import S = Store

  lemma {:induction false} AlwaysSound(cfg: Config, ms: seq<Move>)
    requires Behaviour(cfg, ms)
    ensures Sound(After(cfg, ms))
  {
    if ms != [] {
      AlwaysSound(cfg, ms[..|ms| - 1]);
      StepSound(cfg, After(cfg, ms[..|ms| - 1]), ms[|ms| - 1]);
    } else {
      StartSound();
    }
  }

  lemma StartSound()
    ensures Sound(START)
  {
  }

  lemma StepSound(cfg: Config, s: State, m: Move)
    requires Sound(s) && Allowed(s, m)
    ensures Sound(Apply(cfg, s, m))
  {
    hide *;
    match m {
      case Arrive(c, req) => ArriveIs(cfg, s, c, req); ArriveSound(s, c, req);
      case Lookup(c, hit) => LookupIs(cfg, s, c, hit); LookupSound(s, c, hit);
      case Authorize(c) => AuthorizeIs(cfg, s, c); AuthorizeSound(s, c);
      case Converse(c) => ConverseIs(cfg, s, c); ConverseSound(s, c);
      case Create(c) => CreateIs(cfg, s, c); CreateSound(cfg, s, c);
      case NoIdentifier(c, drawn) => NoIdentifierIs(cfg, s, c, drawn); NoIdentifierSound(s, c, drawn);
      case Enqueue(c) => EnqueueIs(cfg, s, c); EnqueueSound(cfg, s, c);
      case CancelSend(c, cause) => CancelSendIs(cfg, s, c, cause); CancelSound(s, c, cause);
      case Withdraw(c, at) => WithdrawIs(cfg, s, c, at); WithdrawSound(s, c, at);
      case Dequeue(w) => DequeueIs(cfg, s, w); DequeueSound(s, w);
      case Load(w) => LoadIs(cfg, s, w); LoadSound(s, w);
      case Check(w, run) => CheckIs(cfg, s, w, run); CheckSound(s, w, run);
      case Act(w) => ActIs(cfg, s, w); ActSound(s, w);
      case _ => LookingSound(cfg, s, m);
    }
  }

  lemma LookingSound(cfg: Config, s: State, m: Move)
    requires Sound(s) && (m.PutAgent? || m.RemoveAgent? || m.ReadRecord? || m.ReadSteps?)
    ensures Sound(Apply(cfg, s, m))
  {
    hide Sound, Arrived, LookedUp, Authorized, Conversed, Created, Unidentified, Enqueued, SendCancelled, WithdrawnBy,
      Dequeued, Loaded, Checked, Acted;
    CoreSound(s, Apply(cfg, s, m));
  }

  // ---------- What a move leaves alone ----------

  /** Nothing that the place of e speaks of has changed for e. */
  ghost predicate SameFor(s: State, t: State, e: Id) {
    && e in s.world.store.executions && e in t.world.store.executions
    && t.world.store.executions[e] == s.world.store.executions[e]
    && t.world.store.StepsOf(e) == s.world.store.StepsOf(e)
    && t.world.EventsOf(e) == s.world.EventsOf(e)
    && e in s.place && e in t.place && t.place[e] == s.place[e]
    && match s.place[e]
       case AtCaller(c) => t.CallerOf(c) == s.CallerOf(c)
       case AtQueue => JobOf(s.world.store.executions[e]) in s.queue ==> JobOf(s.world.store.executions[e]) in t.queue
       case AtWorker(w) => t.ConsumerOf(w) == s.ConsumerOf(w)
       case _ => true
  }

  lemma KeepsExecution(s: State, t: State, e: Id)
    requires ExecutionOk(s, e) && SameFor(s, t, e) && s.nextId <= t.nextId
    requires Keeps(s.world.store.conversations, t.world.store.conversations)
    ensures ExecutionOk(t, e)
  {
  }

  /** All executions but e0 are as before. */
  ghost predicate OthersSame(s: State, t: State, e0: Id) {
    && s.nextId <= t.nextId
    && Keeps(s.world.store.conversations, t.world.store.conversations)
    && (forall e :: e in t.world.store.executions ==> e == e0 || e in s.world.store.executions)
    && (forall e: Id {:trigger SameFor(s, t, e)} :: e in s.world.store.executions && e != e0 ==> SameFor(s, t, e))
  }

  lemma ExecutionsKeep(s: State, t: State, e0: Id)
    requires Sound(s) && OthersSame(s, t, e0) && ExecutionOk(t, e0)
    ensures forall e: Id {:trigger ExecutionOk(t, e)} :: ExecutionOk(t, e)
  {
    forall e: Id ensures ExecutionOk(t, e) {
      assert ExecutionOk(s, e);
      if e in s.world.store.executions && e != e0 {
        assert SameFor(s, t, e);
        KeepsExecution(s, t, e);
      }
    }
  }

  /** All callers but c0 are as before; no other one holds e0. */
  ghost predicate CallersFrame(s: State, t: State, c0: nat, e0: Id) {
    && (forall c: nat :: c != c0 ==> t.CallerOf(c) == s.CallerOf(c))
    && (e0 in s.place ==> !s.place[e0].AtCaller? || s.place[e0] == AtCaller(c0))
  }

  lemma CallersKeep(s: State, t: State, c0: nat, e0: Id)
    requires Sound(s) && OthersSame(s, t, e0) && CallerOk(t, c0) && CallersFrame(s, t, c0, e0)
    ensures forall c: nat {:trigger CallerOk(t, c)} :: CallerOk(t, c)
  {
    forall c: nat ensures CallerOk(t, c) {
      assert CallerOk(s, c);
      var k := s.CallerOf(c);
      if c != c0 && (k.Sending? || k.Withdrawing?) {
        assert SameFor(s, t, k.x.id);
      }
    }
  }

  /** All consumers but w0 are as before; no other one holds e0. */
  ghost predicate ConsumersFrame(s: State, t: State, w0: nat, e0: Id) {
    && (forall w: nat :: w != w0 ==> t.ConsumerOf(w) == s.ConsumerOf(w))
    && (e0 in s.place ==> !s.place[e0].AtWorker? || s.place[e0] == AtWorker(w0))
  }

  lemma ConsumersKeep(s: State, t: State, w0: nat, e0: Id)
    requires Sound(s) && OthersSame(s, t, e0) && ConsumerOk(t, w0) && ConsumersFrame(s, t, w0, e0)
    ensures forall w: nat {:trigger ConsumerOk(t, w)} :: ConsumerOk(t, w)
  {
    forall w: nat ensures ConsumerOk(t, w) {
      assert ConsumerOk(s, w);
      if w != w0 {
        match s.ConsumerOf(w)
        case Idle =>
        case Loading(job) => assert SameFor(s, t, job.executionId);
        case Checking(_, x) => assert SameFor(s, t, x.id);
        case Executing(p, _) => assert SameFor(s, t, p.start.id);
      }
    }
  }

  ghost predicate QueueOk(s: State) {
    forall i: nat {:trigger QueuedOk(s, i)} :: QueuedOk(s, i)
  }

  /** A move that concerns one execution, one caller and one consumer. */
  lemma Gather(s: State, t: State, e0: Id, c0: nat, w0: nat)
    requires Sound(s) && OthersSame(s, t, e0) && ExecutionOk(t, e0)
    requires CallersFrame(s, t, c0, e0) && CallerOk(t, c0)
    requires ConsumersFrame(s, t, w0, e0) && ConsumerOk(t, w0)
    requires QueueOk(t) && HistoryOk(t) && IdsOk(t)
    ensures Sound(t)
  {
    ExecutionsKeep(s, t, e0);
    CallersKeep(s, t, c0, e0);
    ConsumersKeep(s, t, w0, e0);
  }

  /** The queue is as before, and e0 is not in it. */
  lemma QueueKeeps(s: State, t: State, e0: Id)
    requires Sound(s) && OthersSame(s, t, e0) && t.queue == s.queue
    requires e0 in s.place ==> s.place[e0] != AtQueue
    ensures QueueOk(t)
  {
    forall i: nat ensures QueuedOk(t, i) {
      assert QueuedOk(s, i);
      if i < |s.queue| {
        assert SameFor(s, t, s.queue[i].executionId);
      }
    }
  }

  lemma HistorySame(s: State, t: State)
    requires HistoryOk(s)
    requires t.queue == s.queue && t.place == s.place && t.consumers == s.consumers
    requires t.sent == s.sent && t.taken == s.taken && t.begun == s.begun
    requires t.world.store.executions.Keys == s.world.store.executions.Keys
    ensures HistoryOk(t)
  {
    forall e | e in t.begun ensures HasBegun(t, e) { assert HasBegun(s, e); }
  }

  lemma IdsSame(s: State, t: State)
    requires IdsOk(s) && s.nextId <= t.nextId
    requires t.world.store.executions.Keys == s.world.store.executions.Keys
    requires t.world.store.conversations == s.world.store.conversations
    requires t.world.store.messages == s.world.store.messages
    requires t.world.store.steps == s.world.store.steps && t.world.events == s.world.events && t.authors == s.authors
    ensures IdsOk(t)
  {
  }

  /** t differs from s in agents and readers only, which do not occur in the invariant. */
  ghost predicate SameCore(s: State, t: State) {
    t == s.(world := s.world.(store := s.world.store.(agents := t.world.store.agents)), readers := t.readers)
  }

  lemma CoreSound(s: State, t: State)
    requires Sound(s) && SameCore(s, t)
    ensures Sound(t)
  {
    CoreFrames(s, t);
    CoreHistory(s, t);
    hide *;
    Gather(s, t, s.nextId, 0, 0);
  }

  lemma CoreFrames(s: State, t: State)
    requires Sound(s) && SameCore(s, t)
    ensures OthersSame(s, t, s.nextId) && ExecutionOk(t, s.nextId) && CallersFrame(s, t, 0, s.nextId) && CallerOk(t, 0)
    ensures ConsumersFrame(s, t, 0, s.nextId) && ConsumerOk(t, 0)
  {
    hide PlaceOk, QueueOk;
    forall e | e in s.world.store.executions ensures SameFor(s, t, e) { assert ExecutionOk(s, e); }
    assert ExecutionOk(s, s.nextId) && CallerOk(s, 0) && ConsumerOk(s, 0);
  }

  lemma CoreHistory(s: State, t: State)
    requires Sound(s) && SameCore(s, t) && OthersSame(s, t, s.nextId)
    ensures QueueOk(t) && HistoryOk(t) && IdsOk(t)
  {
    hide PlaceOk, OthersSame, QueueOk, HasBegun;
    QueueKeeps(s, t, s.nextId);
    HistorySame(s, t);
    IdsSame(s, t);
  }

  // ---------- Moves of callers ----------

  /** A caller that holds no execution moves to a state that holds none. */
  lemma CallerMoves(s: State, c: nat, to: Caller)
    requires Sound(s) && !s.CallerOf(c).Sending? && !s.CallerOf(c).Withdrawing?
    requires CallerOk(WithCaller(s, c, to), c)
    ensures Sound(WithCaller(s, c, to))
  {
    hide IdsOk;
    var t := WithCaller(s, c, to);
    var none := s.nextId;
    forall e | e in s.world.store.executions ensures SameFor(s, t, e) { assert ExecutionOk(s, e); }
    assert ExecutionOk(s, none) && ConsumerOk(s, 0);
    QueueKeeps(s, t, none);
    HistorySame(s, t);
    IdsSame(s, t);
    Gather(s, t, none, c, 0);
  }

  lemma ArriveSound(s: State, c: nat, req: Request)
    requires Sound(s)
    ensures Sound(Arrived(s, c, req))
  {
    if s.CallerOf(c).Absent? {
      CallerMoves(s, c, Arrived(s, c, req).CallerOf(c));
    }
  }

  lemma LookupSound(s: State, c: nat, hit: Option<Id>)
    requires Sound(s)
    ensures Sound(LookedUp(s, c, hit))
  {
    if LookedUp(s, c, hit) != s {
      CallerMoves(s, c, LookedUp(s, c, hit).CallerOf(c));
    }
  }

  lemma AuthorizeSound(s: State, c: nat)
    requires Sound(s)
    ensures Sound(Authorized(s, c))
  {
    hide IdsOk, HistoryOk, PlaceOk;
    if Authorized(s, c) != s {
      CallerMoves(s, c, Authorized(s, c).CallerOf(c));
    }
  }

  lemma NoIdentifierSound(s: State, c: nat, drawn: nat)
    requires Sound(s)
    ensures Sound(Unidentified(s, c, drawn))
  {
    var k := s.CallerOf(c);
    if k.Conversing? || k.Creating? {
      CallerMoves(s, c, Returned(k.req, Rejected(NoEntropy)));
      LaterIdsSound(WithCaller(s, c, Returned(k.req, Rejected(NoEntropy))), Unidentified(s, c, drawn));
    }
  }

  lemma ConverseSound(s: State, c: nat)
    requires Sound(s)
    ensures Sound(Conversed(s, c))
  {
    var k := s.CallerOf(c);
    if k.Conversing? {
      if k.req.conversation.Some? {
        CallerMoves(s, c, Joining(s.world.store, k.req, k.model, k.req.conversation.value));
      } else {
        NewConversationSound(s, c);
      }
    }
  }

  lemma NewConversationSound(s: State, c: nat)
    requires Sound(s) && s.CallerOf(c).Conversing? && s.CallerOf(c).req.conversation.None?
    ensures Sound(Conversed(s, c))
  {
    var none := s.nextId + 1;
    NewConversationFrames(s, c);
    QueueKeeps(s, Conversed(s, c), none);
    HistorySame(s, Conversed(s, c));
    Gather(s, Conversed(s, c), none, c, 0);
  }

  lemma NewConversationFrames(s: State, c: nat)
    requires Sound(s) && s.CallerOf(c).Conversing? && s.CallerOf(c).req.conversation.None?
    ensures var t, none := Conversed(s, c), s.nextId + 1;
            && OthersSame(s, t, none) && CallersFrame(s, t, c, none) && ConsumersFrame(s, t, 0, none)
            && CallerOk(t, c) && ConsumerOk(t, 0) && ExecutionOk(t, none) && IdsOk(t)
            && t.queue == s.queue && none !in s.place
  {
    hide PlaceOk, SameFor;
    NewConversationOthers(s, c);
    assert ConsumerOk(s, 0) && s.nextId + 1 !in s.world.store.executions;
  }

  lemma NewConversationOthers(s: State, c: nat)
    requires Sound(s) && s.CallerOf(c).Conversing? && s.CallerOf(c).req.conversation.None?
    ensures OthersSame(s, Conversed(s, c), s.nextId + 1)
  {
    hide HistoryOk, DoneSoFar, Lawful, Untouched;
    forall e: Id | e in s.world.store.executions ensures SameFor(s, Conversed(s, c), e) { assert ExecutionOk(s, e); }
  }

  lemma CreateSound(cfg: Config, s: State, c: nat)
    requires Sound(s)
    ensures Sound(Created(cfg, s, c))
  {
    var k := s.CallerOf(c);
    if k.Creating? {
      assert CallerOk(s, c);
      if cfg.unique && k.req.key != "" && KeyTaken(s.world.store, k.req.ownerId, k.req.key) {
        CallerMoves(s, c, Returned(k.req, Rejected(Conflict)));
        LaterIdsSound(WithCaller(s, c, Returned(k.req, Rejected(Conflict))), Created(cfg, s, c));
      } else {
        NewExecutionSound(cfg, s, c);
      }
    }
  }

  /** Skipping identifiers is harmless. */
  lemma LaterIdsSound(s: State, t: State)
    requires Sound(s) && t == s.(nextId := t.nextId) && s.nextId <= t.nextId
    ensures Sound(t)
  {
    hide PlaceOk, Untouched;
    var none := t.nextId;
    forall e | e in s.world.store.executions ensures SameFor(s, t, e) { assert ExecutionOk(s, e); }
    assert none !in s.world.store.executions && ExecutionOk(t, none) && ConsumerOk(s, 0) && CallerOk(s, 0);
    QueueKeeps(s, t, none);
    HistorySame(s, t);
    IdsSame(s, t);
    Gather(s, t, none, 0, 0);
  }

  lemma NewExecutionSound(cfg: Config, s: State, c: nat)
    requires Sound(s) && CallerOk(s, c) && s.CallerOf(c).Creating?
    requires !(cfg.unique && s.CallerOf(c).req.key != ""
             && KeyTaken(s.world.store, s.CallerOf(c).req.ownerId, s.CallerOf(c).req.key))
    ensures Sound(Created(cfg, s, c))
  {
    CreatedFrames(cfg, s, c);
    CreatedOk(cfg, s, c);
    QueueKeeps(s, Created(cfg, s, c), s.nextId);
    Gather(s, Created(cfg, s, c), s.nextId, c, 0);
  }

  lemma CreatedFrames(cfg: Config, s: State, c: nat)
    requires Sound(s) && CallerOk(s, c) && s.CallerOf(c).Creating?
    requires !(cfg.unique && s.CallerOf(c).req.key != ""
             && KeyTaken(s.world.store, s.CallerOf(c).req.ownerId, s.CallerOf(c).req.key))
    ensures var t, e0 := Created(cfg, s, c), s.nextId;
            && OthersSame(s, t, e0) && CallersFrame(s, t, c, e0) && ConsumersFrame(s, t, 0, e0)
            && ConsumerOk(t, 0) && t.queue == s.queue && e0 !in s.place
  {
    hide PlaceOk, SameFor, KeyTaken, DoneSoFar;
    CreatedOthers(cfg, s, c);
    assert ConsumerOk(s, 0);
  }

  lemma CreatedOthers(cfg: Config, s: State, c: nat)
    requires Sound(s) && CallerOk(s, c) && s.CallerOf(c).Creating?
    requires !(cfg.unique && s.CallerOf(c).req.key != ""
             && KeyTaken(s.world.store, s.CallerOf(c).req.ownerId, s.CallerOf(c).req.key))
    ensures OthersSame(s, Created(cfg, s, c), s.nextId) && s.nextId !in s.world.store.executions && s.nextId !in s.place
  {
    hide KeyTaken, DoneSoFar, Lawful, Untouched, NewExecution, IdsOk, HistoryOk;
    NewIdUnplaced(s);
    assert NewExecution(s.nextId, s.CallerOf(c).req, s.CallerOf(c).model, s.CallerOf(c).conversation).id ==
           s.nextId by {
      NewExecutionId(s.nextId, s.CallerOf(c).req, s.CallerOf(c).model, s.CallerOf(c).conversation);
    }
    forall e: Id | e in s.world.store.executions ensures SameFor(s, Created(cfg, s, c), e) { assert ExecutionOk(s, e); }
  }

  lemma NewIdUnplaced(s: State)
    requires IdsOk(s) && HistoryOk(s)
    ensures s.nextId !in s.world.store.executions && s.nextId !in s.place
  {
  }

  lemma NewExecutionId(id: Id, req: Request, model: string, conversation: Id)
    ensures NewExecution(id, req, model, conversation).id == id
  {
  }

  lemma CreatedOk(cfg: Config, s: State, c: nat)
    requires Sound(s) && CallerOk(s, c) && s.CallerOf(c).Creating?
    requires !(cfg.unique && s.CallerOf(c).req.key != ""
             && KeyTaken(s.world.store, s.CallerOf(c).req.ownerId, s.CallerOf(c).req.key))
    ensures ExecutionOk(Created(cfg, s, c), s.nextId) && CallerOk(Created(cfg, s, c), c)
    ensures HistoryOk(Created(cfg, s, c)) && IdsOk(Created(cfg, s, c))
  {
    var t := Created(cfg, s, c);
    assert s.nextId !in s.world.store.steps && s.nextId !in s.world.events && s.nextId !in s.place;
    forall e | e in t.begun ensures HasBegun(t, e) { assert HasBegun(s, e); }
  }

  lemma CancelSound(s: State, c: nat, cause: Error)
    requires Sound(s)
    ensures Sound(SendCancelled(s, c, cause))
  {
    if SendCancelled(s, c, cause) != s {
      CancelFrames(s, c, cause);
      CancelHistory(s, c, cause);
      hide Sound, HistoryOk, IdsOk, ExecutionOk, OthersSame, CallersFrame, ConsumersFrame, QueueOk;
      Gather(s, SendCancelled(s, c, cause), s.CallerOf(c).x.id, c, 0);
    }
  }

  lemma CancelFrames(s: State, c: nat, cause: Error)
    requires Sound(s) && SendCancelled(s, c, cause) != s
    ensures s.CallerOf(c).Sending?
    ensures var t, e0 := SendCancelled(s, c, cause), s.CallerOf(c).x.id;
            && OthersSame(s, t, e0) && ExecutionOk(t, e0) && CallersFrame(s, t, c, e0) && CallerOk(t, c)
            && ConsumersFrame(s, t, 0, e0) && ConsumerOk(t, 0) && IsPlaced(s, e0) && s.place[e0] != AtQueue
  {
    hide HistoryOk, DoneSoFar, Lawful, QueueOk;
    assert CallerOk(s, c);
    var t, e0 := SendCancelled(s, c, cause), s.CallerOf(c).x.id;
    forall e | e in s.world.store.executions && e != e0 ensures SameFor(s, t, e) { OtherCaller(s, c, e); }
    assert ExecutionOk(s, e0) && ConsumerOk(s, 0);
  }

  ghost predicate IsPlaced(s: State, e: Id) {
    e in s.place
  }

  lemma CancelHistory(s: State, c: nat, cause: Error)
    requires Sound(s) && s.CallerOf(c).Sending? && IsPlaced(s, s.CallerOf(c).x.id)
    requires s.place[s.CallerOf(c).x.id] != AtQueue
    requires OthersSame(s, SendCancelled(s, c, cause), s.CallerOf(c).x.id)
    ensures var t := SendCancelled(s, c, cause);
            QueueOk(t) && HistoryOk(t) && IdsOk(t)
  {
    hide PlaceOk, OthersSame, QueueOk, HasBegun;
    QueueKeeps(s, SendCancelled(s, c, cause), s.CallerOf(c).x.id);
    HistorySame(s, SendCancelled(s, c, cause));
    IdsSame(s, SendCancelled(s, c, cause));
  }

  /** A caller holds one execution only. */
  lemma OtherCaller(s: State, c: nat, e: Id)
    requires Sound(s) && e in s.world.store.executions
    requires (s.CallerOf(c).Sending? || s.CallerOf(c).Withdrawing?) && e != s.CallerOf(c).x.id
    ensures e in s.place && s.place[e] != AtCaller(c)
  {
    assert ExecutionOk(s, e);
  }

  lemma WithdrawSound(s: State, c: nat, at: Time)
    requires Sound(s)
    ensures Sound(WithdrawnBy(s, c, at))
  {
    assert CallerOk(s, c);
    if s.CallerOf(c).Withdrawing? {
      WithdrawnFrames(s, c, at);
      WithdrawnOk(s, c, at);
      QueueKeeps(s, WithdrawnBy(s, c, at), s.CallerOf(c).x.id);
      Gather(s, WithdrawnBy(s, c, at), s.CallerOf(c).x.id, c, 0);
    }
  }

  lemma WithdrawnFrames(s: State, c: nat, at: Time)
    requires Sound(s) && CallerOk(s, c) && s.CallerOf(c).Withdrawing?
    ensures var t, e0 := WithdrawnBy(s, c, at), s.CallerOf(c).x.id;
            && OthersSame(s, t, e0) && CallersFrame(s, t, c, e0) && ConsumersFrame(s, t, 0, e0)
            && ConsumerOk(t, 0) && CallerOk(t, c) && t.queue == s.queue && e0 in s.place && s.place[e0] != AtQueue
  {
    hide HistoryOk, IdsOk, Untouched, PlaceOk;
    var t, e0 := WithdrawnBy(s, c, at), s.CallerOf(c).x.id;
    assert ConsumerOk(s, 0);
    forall e: Id | e in s.world.store.executions && e != e0 ensures SameFor(s, t, e) { OtherCaller(s, c, e); }
  }

  lemma WithdrawnOk(s: State, c: nat, at: Time)
    requires Sound(s) && CallerOk(s, c) && s.CallerOf(c).Withdrawing?
    ensures var t := WithdrawnBy(s, c, at);
            && ExecutionOk(t, s.CallerOf(c).x.id) && HistoryOk(t) && IdsOk(t)
            && t.world.store.executions.Keys == s.world.store.executions.Keys
  {
    var t, e0 := WithdrawnBy(s, c, at), s.CallerOf(c).x.id;
    assert ExecutionOk(s, e0);
    forall e | e in t.begun ensures HasBegun(t, e) { assert HasBegun(s, e); }
    IdsSame(s, t);
  }

  lemma EnqueueSound(cfg: Config, s: State, c: nat)
    requires Sound(s)
    ensures Sound(Enqueued(cfg, s, c))
  {
    if Enqueued(cfg, s, c) != s {
      EnqueuedFrames(cfg, s, c);
      SentOk(cfg, s, c);
      hide Sound, HistoryOk, IdsOk, ExecutionOk, OthersSame, CallersFrame, ConsumersFrame, QueueOk;
      Gather(s, Enqueued(cfg, s, c), s.CallerOf(c).x.id, c, 0);
    }
  }

  lemma EnqueuedFrames(cfg: Config, s: State, c: nat)
    requires Sound(s) && Enqueued(cfg, s, c) != s
    ensures s.CallerOf(c).Sending? && CallerOk(s, c)
    ensures var t, e0 := Enqueued(cfg, s, c), s.CallerOf(c).x.id;
            && OthersSame(s, t, e0) && ExecutionOk(t, e0) && CallersFrame(s, t, c, e0) && CallerOk(t, c)
            && ConsumersFrame(s, t, 0, e0) && ConsumerOk(t, 0) && IdsOk(t)
  {
    hide HistoryOk, DoneSoFar, Lawful, QueueOk;
    assert CallerOk(s, c);
    var t, x := Enqueued(cfg, s, c), s.CallerOf(c).x;
    assert t.queue[|s.queue|] == JobOf(x);
    forall e | e in s.world.store.executions && e != x.id ensures SameFor(s, t, e) {
      OtherCaller(s, c, e);
      assert forall j :: j in s.queue ==> j in t.queue;
    }
    assert ExecutionOk(s, x.id) && ConsumerOk(s, 0);
  }

  lemma SentOk(cfg: Config, s: State, c: nat)
    requires Sound(s) && CallerOk(s, c) && Enqueued(cfg, s, c) != s
    ensures HistoryOk(Enqueued(cfg, s, c))
    ensures QueueOk(Enqueued(cfg, s, c))
  {
    var t, x := Enqueued(cfg, s, c), s.CallerOf(c).x;
    assert Ids(t.queue) == Ids(s.queue) + [x.id];
    assert x.id !in s.sent;
    forall e | e in t.begun ensures HasBegun(t, e) { assert HasBegun(s, e); }
    forall i: nat ensures QueuedOk(t, i) { assert QueuedOk(s, i); }
  }

  // ---------- Moves of consumers ----------

  lemma DequeueSound(s: State, w: nat)
    requires Sound(s)
    ensures Sound(Dequeued(s, w))
  {
    if Dequeued(s, w) != s {
      assert QueuedOk(s, 0);
      DequeuedFrames(s, w);
      TakenOk(s, w);
      hide Sound, HistoryOk, ExecutionOk, OthersSame;
      Gather(s, Dequeued(s, w), s.queue[0].executionId, 0, w);
    }
  }

  lemma DequeuedFrames(s: State, w: nat)
    requires Sound(s) && Dequeued(s, w) != s && QueuedOk(s, 0)
    ensures var t, e0 := Dequeued(s, w), s.queue[0].executionId;
            && OthersSame(s, t, e0) && ExecutionOk(t, e0) && CallersFrame(s, t, 0, e0) && CallerOk(t, 0)
            && ConsumersFrame(s, t, w, e0) && ConsumerOk(t, w) && IdsOk(t)
  {
    hide HistoryOk, DoneSoFar, Lawful;
    var t, e0 := Dequeued(s, w), s.queue[0].executionId;
    assert ConsumerOk(s, w) && ExecutionOk(s, e0) && CallerOk(s, 0);
    forall e | e in s.world.store.executions && e != e0 ensures SameFor(s, t, e) {
      assert ExecutionOk(s, e);
      StillQueued(s, e);
    }
  }

  /** A job other than the first stays when the first is taken. */
  lemma StillQueued(s: State, e: Id)
    requires s.queue != [] && e in s.world.store.executions && s.queue[0].executionId != s.world.store.executions[e].id
    ensures JobOf(s.world.store.executions[e]) in s.queue ==> JobOf(s.world.store.executions[e]) in s.queue[1..]
  {
  }

  lemma TakenOk(s: State, w: nat)
    requires Sound(s) && Dequeued(s, w) != s && QueuedOk(s, 0)
    ensures HistoryOk(Dequeued(s, w))
    ensures QueueOk(Dequeued(s, w))
  {
    var t := Dequeued(s, w);
    assert Ids(s.queue) == [s.queue[0].executionId] + Ids(t.queue);
    forall e | e in t.begun ensures HasBegun(t, e) { assert HasBegun(s, e); }
    forall i: nat ensures QueuedOk(t, i) { LaterJob(s, i); }
  }

  lemma LaterJob(s: State, i: nat)
    requires Sound(s) && s.queue != []
    ensures i + 1 < |s.queue| ==> QueuedOk(s, i + 1) && s.queue[i + 1].executionId != s.queue[0].executionId
  {
    assert QueuedOk(s, i + 1);
    if i + 1 < |s.queue| {
      var n := |s.taken|;
      assert s.sent[n] == s.queue[0].executionId && s.sent[n + i + 1] == s.queue[i + 1].executionId;
    }
  }

  /** A consumer holds one execution only. */
  lemma OtherConsumer(s: State, w: nat, e: Id, e0: Id)
    requires Sound(s) && e in s.world.store.executions && e != e0
    requires match s.ConsumerOf(w)
             case Idle => true
             case Loading(job) => job.executionId == e0
             case Checking(_, x) => x.id == e0
             case Executing(p, _) => p.start.id == e0
    ensures e in s.place && s.place[e] != AtWorker(w)
  {
    assert ExecutionOk(s, e);
  }

  lemma LoadSound(s: State, w: nat)
    requires Sound(s)
    ensures Sound(Loaded(s, w))
  {
    hide HistoryOk, IdsOk, Untouched;
    var t := Loaded(s, w);
    assert ConsumerOk(s, w);
    if t != s {
      var e0 := s.ConsumerOf(w).job.executionId;
      assert ExecutionOk(s, e0) && CallerOk(s, 0);
      forall e | e in s.world.store.executions && e != e0 ensures SameFor(s, t, e) { OtherConsumer(s, w, e, e0); }
      QueueKeeps(s, t, e0);
      NotBegun(s, t, w, e0);
      IdsSame(s, t);
      Gather(s, t, e0, 0, w);
    }
  }

  /** A consumer that was not executing has begun nothing. */
  lemma NotBegun(s: State, t: State, w: nat, e0: Id)
    requires Sound(s) && Holds(s, w, e0) && !s.ConsumerOf(w).Executing?
    requires t == s.(consumers := t.consumers, place := t.place, begun := t.begun)
    requires forall v: nat :: v != w ==> t.ConsumerOf(v) == s.ConsumerOf(v)
    requires forall e :: e != e0 && e in s.place ==> e in t.place && t.place[e] == s.place[e]
    requires t.place.Keys == s.place.Keys && !t.place[e0].AtCaller? && !t.place[e0].Undispatched?
    requires t.begun == s.begun
             || (t.begun == s.begun + [e0] && t.place[e0] == AtWorker(w) && t.ConsumerOf(w).Executing?)
    requires forall e :: e in s.world.store.executions && e != e0 ==> s.place[e] != AtWorker(w)
    ensures HistoryOk(t)
  {
    assert e0 in s.begun ==> HasBegun(s, e0);
    forall e | e in t.begun ensures HasBegun(t, e) {
      if e != e0 { assert HasBegun(s, e); }
    }
  }

  lemma CheckSound(s: State, w: nat, run: Run)
    requires Sound(s) && Allowed(s, Check(w, run))
    ensures Sound(Checked(s, w, run))
  {
    assert ConsumerOk(s, w);
    if s.ConsumerOf(w).Checking? {
      var e0 := s.ConsumerOf(w).x.id;
      assert ExecutionOk(s, e0);
      CheckedFrames(s, Checked(s, w, run), w, ScriptOf(run));
      CheckedHistory(s, Checked(s, w, run), w, ScriptOf(run));
      CheckedOk(s, w, run);
      QueueKeeps(s, Checked(s, w, run), e0);
      IdsSame(s, Checked(s, w, run));
      Gather(s, Checked(s, w, run), e0, 0, w);
    }
  }

  lemma CheckedFrames(s: State, t: State, w: nat, p: Script)
    requires Sound(s) && ConsumerOk(s, w) && s.ConsumerOf(w).Checking?
    requires t == Beginning(s, w, s.ConsumerOf(w).x.id, p) || t == Dropping(s, w, s.ConsumerOf(w).x.id)
    ensures var e0 := s.ConsumerOf(w).x.id;
            && OthersSame(s, t, e0) && CallersFrame(s, t, 0, e0) && ConsumersFrame(s, t, w, e0)
            && CallerOk(t, 0) && t.queue == s.queue && e0 in s.place && s.place[e0] != AtQueue
  {
    hide IdsOk, HistoryOk, PlaceOk;
    var e0 := s.ConsumerOf(w).x.id;
    assert CallerOk(s, 0);
    forall e: Id | e in s.world.store.executions && e != e0 ensures SameFor(s, t, e) { OtherConsumer(s, w, e, e0); }
  }

  lemma CheckedHistory(s: State, t: State, w: nat, p: Script)
    requires Sound(s) && ConsumerOk(s, w) && s.ConsumerOf(w).Checking?
    requires t == Beginning(s, w, s.ConsumerOf(w).x.id, p) || t == Dropping(s, w, s.ConsumerOf(w).x.id)
    ensures HistoryOk(t)
  {
    var e0 := s.ConsumerOf(w).x.id;
    forall e: Id | e in s.world.store.executions && e != e0 ensures s.place[e] != AtWorker(w) {
      OtherConsumer(s, w, e, e0);
    }
    NotBegun(s, t, w, e0);
  }

  lemma CheckedOk(s: State, w: nat, run: Run)
    requires Sound(s) && Allowed(s, Check(w, run)) && s.ConsumerOf(w).Checking? && ConsumerOk(s, w)
    requires ExecutionOk(s, s.ConsumerOf(w).x.id)
    ensures ExecutionOk(Checked(s, w, run), s.ConsumerOf(w).x.id) && ConsumerOk(Checked(s, w, run), w)
  {
    if s.world.store.OwnsAgent(s.ConsumerOf(w).job.ownerId, s.ConsumerOf(w).job.agentId) {
      BeginOk(s, w, run, ScriptOf(run));
    }
  }

  lemma BeginOk(s: State, w: nat, run: Run, p: Script)
    requires RunOk(run) && p == ScriptOf(run)
    requires s.ConsumerOf(w).Checking? && p.start == s.ConsumerOf(w).x && s.world.RecordOf(p.start.id) == Some(p.start)
    requires Unrun(s.world, p.start)
    ensures |p.log| > 0 && Lawful(p) && Untouched(p.start) && DoneSoFar(s.world, p, 0)
  {
    RunsAreLawful(run);
    assert p.log[..0] == [];
  }

  lemma ActSound(s: State, w: nat)
    requires Sound(s)
    ensures Sound(Acted(s, w))
  {
    assert ConsumerOk(s, w);
    if Acted(s, w) != s {
      var e0 := s.ConsumerOf(w).script.start.id;
      assert ExecutionOk(s, e0);
      ActedOthers(s, w);
      ActedFrames(s, w);
      ActedOk(s, w);
      QueueKeeps(s, Acted(s, w), e0);
      ActedHistory(s, w);
      ActedIds(s, w);
      Gather(s, Acted(s, w), e0, 0, w);
    }
  }

  lemma ActedFrames(s: State, w: nat)
    requires Sound(s) && ConsumerOk(s, w) && s.ConsumerOf(w).Executing?
    requires ExecutionOk(s, s.ConsumerOf(w).script.start.id)
    requires OthersSame(s, Acted(s, w), s.ConsumerOf(w).script.start.id)
    ensures var t, e0 := Acted(s, w), s.ConsumerOf(w).script.start.id;
            && CallersFrame(s, t, 0, e0) && ConsumersFrame(s, t, w, e0)
            && CallerOk(t, 0) && t.queue == s.queue && e0 in s.place && s.place[e0] != AtQueue
  {
    hide IdsOk, HistoryOk, PlaceOk;
    assert CallerOk(s, 0);
    var k := s.CallerOf(0);
    if k.Sending? || k.Withdrawing? {
      assert SameFor(s, Acted(s, w), k.x.id);
    }
  }

  lemma ActedOthers(s: State, w: nat)
    requires Sound(s) && ConsumerOk(s, w) && s.ConsumerOf(w).Executing?
    requires ExecutionOk(s, s.ConsumerOf(w).script.start.id)
    ensures OthersSame(s, Acted(s, w), s.ConsumerOf(w).script.start.id)
  {
    hide IdsOk;
    var t, p, n := Acted(s, w), s.ConsumerOf(w).script, s.ConsumerOf(w).done;
    forall e: Id | e in s.world.store.executions && e != p.start.id ensures SameFor(s, t, e) {
      OtherConsumer(s, w, e, p.start.id);
      ActSpares(s.world, p, n, e);
    }
    ActAdds(s.world, p, n, p.start.conversationId);
  }

  lemma ActedOk(s: State, w: nat)
    requires Sound(s) && ConsumerOk(s, w) && s.ConsumerOf(w).Executing?
    requires ExecutionOk(s, s.ConsumerOf(w).script.start.id)
    ensures ExecutionOk(Acted(s, w), s.ConsumerOf(w).script.start.id) && ConsumerOk(Acted(s, w), w)
  {
    hide Sound, ExecutionOk, ConsumerOk, Acted;
    ActedExecution(s, w);
    ActedConsumer(s, w);
  }

  /** The run's execution is still where it was, or settled, with one action more. */
  lemma ActedExecution(s: State, w: nat)
    requires Sound(s) && ConsumerOk(s, w) && s.ConsumerOf(w).Executing?
    requires ExecutionOk(s, s.ConsumerOf(w).script.start.id)
    ensures ExecutionOk(Acted(s, w), s.ConsumerOf(w).script.start.id)
  {
    hide HistoryOk, IdsOk, Effect, StepsIn, EventsIn, Lawful, DoneSoFar;
    var p, n := s.ConsumerOf(w).script, s.ConsumerOf(w).done;
    ActedRecord(s.world, p, n);
    ActAdds(s.world, p, n, p.start.conversationId);
  }

  lemma ActedRecord(v: World, p: Script, n: nat)
    requires Lawful(p) && n < |p.log| && DoneSoFar(v, p, n)
    ensures DoneSoFar(Effect(v, p.log[n]), p, n + 1)
    ensures v.RecordOf(p.start.id).Some? && Effect(v, p.log[n]).RecordOf(p.start.id).Some?
    ensures SameIdentity(v.RecordOf(p.start.id).value, p.start)
    ensures SameIdentity(Effect(v, p.log[n]).RecordOf(p.start.id).value, p.start)
  {
    hide Effect, StepsIn, EventsIn, Lawful;
    RecordKeeps(p, n);
    RecordKeeps(p, n + 1);
    ActDoes(v, p, n);
  }

  lemma ActedConsumer(s: State, w: nat)
    requires Sound(s) && ConsumerOk(s, w) && s.ConsumerOf(w).Executing?
    requires ExecutionOk(s, s.ConsumerOf(w).script.start.id)
    ensures ConsumerOk(Acted(s, w), w)
  {
    hide HistoryOk, IdsOk, Effect, DoneSoFar;
    var p, n := s.ConsumerOf(w).script, s.ConsumerOf(w).done;
    ActAdds(s.world, p, n, p.start.conversationId);
  }

  lemma ActedHistory(s: State, w: nat)
    requires Sound(s) && ConsumerOk(s, w) && s.ConsumerOf(w).Executing?
    requires ExecutionOk(s, s.ConsumerOf(w).script.start.id)
    ensures HistoryOk(Acted(s, w))
  {
    hide DoneSoFar, Untouched, StepsIn, EventsIn, CallerOk, QueuedOk, IdsOk;
    var t, p, n := Acted(s, w), s.ConsumerOf(w).script, s.ConsumerOf(w).done;
    ActAdds(s.world, p, n, p.start.conversationId);
    forall e | e in t.begun ensures HasBegun(t, e) {
      assert HasBegun(s, e);
      if e != p.start.id {
        OtherConsumer(s, w, e, p.start.id);
      }
    }
  }

  lemma ActedIds(s: State, w: nat)
    requires Sound(s) && ConsumerOk(s, w) && s.ConsumerOf(w).Executing?
    requires ExecutionOk(s, s.ConsumerOf(w).script.start.id)
    ensures IdsOk(Acted(s, w))
  {
    var p, n := s.ConsumerOf(w).script, s.ConsumerOf(w).done;
    ActAdds(s.world, p, n, p.start.conversationId);
    assert LawfulAt(p, n);
  }
}
