/**
 * The dispatch protocol as a transition system: any number of StartExecution calls, consumers, runs and trace readers
 * over one Memory store and one Immediate queue. Every lock section and every channel operation is one move.
 */
module Dispatch {
  import opened Domain
  import opened Runs
  import opened Effects
  import opened Scripts
  import opened Text
  import S = Store

  /**
   * unique says whether the store enforces UNIQUE (owner_id, idempotency_key); Memory does not, the SQL schema does.
   */
  datatype Config = Config(capacity: nat, unique: bool)

  /** An empty key, or an empty request identifier, stands for none. */
  datatype Request = Request(
    ownerId: string,
    agentId: Id,
    input: string,
    conversation: Option<Id>,
    key: string,
    requestId: string)
  {
    /** How many identifiers the execution takes: its own, and the request's if that brings none. */
    function Draws(): nat {
      if requestId == "" then 2 else 1
    }
  }

  datatype Reply = Replayed(x: Execution) | Accepted(x: Execution) | Undelivered(x: Execution) | Rejected(error: Error)

  /** A StartExecution call, by the operation it does next. */
  datatype Caller =
    | Absent
    | Looking(req: Request)
    | Authorizing(req: Request)
    | Conversing(req: Request, model: string)
    | Creating(req: Request, model: string, conversation: Id)
    | Sending(req: Request, x: Execution)
    | Withdrawing(req: Request, x: Execution, cause: Error)
    | Returned(req: Request, reply: Reply)

  /** A consumer, by the operation it does next; an executing one has done the first actions of its run's log. */
  datatype Consumer = Idle | Loading(job: Job) | Checking(job: Job, x: Execution) | Executing(script: Script, done: nat)

  /** A reader of a trace: the record first, the steps in a second lock section. */
  datatype Reader = Unread | Half(x: Execution) | Read(x: Execution, steps: seq<Step>)

  /** Where an execution is. */
  datatype Place = AtCaller(c: nat) | AtQueue | AtWorker(w: nat) | Settled(script: Script) | Undispatched | Dropped

  /** authors, place, sent, taken and begun only record what happened; no move looks at them. */
  datatype State = State(
    world: World,
    queue: seq<Job>,
    callers: map<nat, Caller>,
    consumers: map<nat, Consumer>,
    readers: map<nat, Reader>,
    nextId: Id,
    ghost place: map<Id, Place>,
    ghost authors: map<Id, seq<Id>>,
    ghost sent: seq<Id>,
    ghost taken: seq<Id>,
    ghost begun: seq<Id>)
  {
    function CallerOf(c: nat): Caller {
      if c in callers then callers[c] else Absent
    }

    function ConsumerOf(w: nat): Consumer {
      if w in consumers then consumers[w] else Idle
    }

    function ReaderOf(t: nat): Reader {
      if t in readers then readers[t] else Unread
    }

    ghost function AuthorsOf(c: Id): seq<Id> {
      if c in authors then authors[c] else []
    }
  }

  const START := State(World(S.EMPTY, map[]), [], map[], map[], map[], 0, map[], map[], [], [], [])

  datatype Move =
    | Arrive(c: nat, req: Request)
    | Lookup(c: nat, hit: Option<Id>)
    | Authorize(c: nat)
    | Converse(c: nat)
    | Create(c: nat)
    | NoIdentifier(c: nat, drawn: nat)
    | Enqueue(c: nat)
    | CancelSend(c: nat, cause: Error)
    | Withdraw(c: nat, at: Time)
    | Dequeue(w: nat)
    | Load(w: nat)
    | Check(w: nat, run: Run)
    | Act(w: nat)
    | PutAgent(agent: Agent)
    | RemoveAgent(ownerId: string, agentId: Id)
    | ReadRecord(t: nat, ownerId: string, e: Id)
    | ReadSteps(t: nat)

  /** Some stored execution has this owner and key. */
  predicate KeyTaken(s: S.Store, owner: string, key: string) {
    exists e :: e in s.executions && S.HasKey(s.executions[e], owner, key)
  }

  /** The execution that StartExecution builds. */
  function NewExecution(id: Id, req: Request, model: string, conversation: Id): Execution {
    Execution(id, if req.requestId == "" then Drawn(id + 1) else Given(req.requestId),
              req.key, req.agentId, req.ownerId, conversation, req.input, "", Queued, model, 0, 0, None, 0, None, None)
  }

  /** The record that compensates for a job that could not be sent. */
  function Withdrawn(x: Execution, cause: Error, at: Time): Execution {
    x.(status := Failed, error := Some(Wrapped("dispatch execution", cause)), completedAt := Some(at))
  }

  function WithCaller(s: State, c: nat, to: Caller): State {
    s.(callers := s.callers[c := to])
  }

  function WithStore(s: State, t: S.Store): State {
    s.(world := s.world.(store := t))
  }

  /** A move that is not possible changes nothing. */
  function Apply(cfg: Config, s: State, m: Move): State {
    match m
    case Arrive(c, req) => Arrived(s, c, req)
    case Lookup(c, hit) => LookedUp(s, c, hit)
    case Authorize(c) => Authorized(s, c)
    case Converse(c) => Conversed(s, c)
    case Create(c) => Created(cfg, s, c)
    case NoIdentifier(c, drawn) => Unidentified(s, c, drawn)
    case Enqueue(c) => Enqueued(cfg, s, c)
    case CancelSend(c, cause) => SendCancelled(s, c, cause)
    case Withdraw(c, at) => WithdrawnBy(s, c, at)
    case Dequeue(w) => Dequeued(s, w)
    case Load(w) => Loaded(s, w)
    case Check(w, run) => Checked(s, w, run)
    case Act(w) => Acted(s, w)
    case PutAgent(a) => AgentPut(s, a)
    case RemoveAgent(owner, a) => AgentRemoved(s, owner, a)
    case ReadRecord(t, owner, e) => RecordRead(s, t, owner, e)
    case ReadSteps(t) => StepsRead(s, t)
  }

  // ---------- StartExecution ----------

  function Arrived(s: State, c: nat, req: Request): State {
    if !s.CallerOf(c).Absent? then s else
    WithCaller(s, c, if Blank(req.input) then Returned(req, Rejected(InputRequired))
                     else if req.key == "" then Authorizing(req) else Looking(req))
  }

  /** The scan may hit any execution with the key, and misses only if there is none. */
  function LookedUp(s: State, c: nat, hit: Option<Id>): State {
    var k := s.CallerOf(c);
    var st := s.world.store;
    if !k.Looking? then s
    else if hit.Some? && hit.value in st.executions && S.HasKey(st.executions[hit.value], k.req.ownerId, k.req.key) then
      WithCaller(s, c, Returned(k.req, Replayed(st.executions[hit.value])))
    else if hit.None? && !KeyTaken(st, k.req.ownerId, k.req.key) then WithCaller(s, c, Authorizing(k.req))
    else s
  }

  function Authorized(s: State, c: nat): State {
    var k := s.CallerOf(c);
    if !k.Authorizing? then s
    else if s.world.store.OwnsAgent(k.req.ownerId, k.req.agentId) then
      WithCaller(s, c, Conversing(k.req, s.world.store.agents[k.req.agentId].model))
    else WithCaller(s, c, Returned(k.req, Rejected(NotFound)))
  }

  function Conversed(s: State, c: nat): State {
    var k := s.CallerOf(c);
    var st := s.world.store;
    if !k.Conversing? then s else
    match k.req.conversation
    case None =>
      var v := Conversation(s.nextId, k.req.ownerId, k.req.agentId, Title(k.req.input));
      WithCaller(WithStore(s, S.PutConversation(st, v)), c, Creating(k.req, k.model, v.id)).(nextId := s.nextId + 1)
    case Some(v) => WithCaller(s, c, Joining(st, k.req, k.model, v))
  }

  /** A given conversation must be the owner's and the agent's. */
  function Joining(st: S.Store, req: Request, model: string, v: Id): Caller {
    if !st.OwnsConversation(req.ownerId, v) then Returned(req, Rejected(NotFound))
    else if st.conversations[v].agentId != req.agentId then Returned(req, Rejected(ForeignConversation))
    else Creating(req, model, v)
  }

  function Created(cfg: Config, s: State, c: nat): State {
    var k := s.CallerOf(c);
    var st := s.world.store;
    if !k.Creating? then s
    else if cfg.unique && k.req.key != "" && KeyTaken(st, k.req.ownerId, k.req.key) then
      WithCaller(s, c, Returned(k.req, Rejected(Conflict))).(nextId := s.nextId + k.req.Draws())
    else
      var x := NewExecution(s.nextId, k.req, k.model, k.conversation);
      WithCaller(WithStore(s, S.PutExecution(st, x)), c, Sending(k.req, x))
      .(nextId := s.nextId + k.req.Draws(), place := s.place[x.id := AtCaller(c)])
  }

  /** No identifier is found, perhaps after others were drawn. */
  function Unidentified(s: State, c: nat, drawn: nat): State {
    var k := s.CallerOf(c);
    if k.Conversing? || k.Creating? then
      WithCaller(s, c, Returned(k.req, Rejected(NoEntropy))).(nextId := s.nextId + drawn)
    else s
  }

  /** The channel send succeeds as soon as there is room. */
  function Enqueued(cfg: Config, s: State, c: nat): State {
    var k := s.CallerOf(c);
    if !k.Sending? || |s.queue| >= cfg.capacity then s else
    WithCaller(s, c, Returned(k.req, Accepted(k.x)))
    .(queue := s.queue + [JobOf(k.x)], place := s.place[k.x.id := AtQueue], sent := s.sent + [k.x.id])
  }

  /** The caller's context ends first. */
  function SendCancelled(s: State, c: nat, cause: Error): State {
    var k := s.CallerOf(c);
    if !k.Sending? then s else WithCaller(s, c, Withdrawing(k.req, k.x, cause))
  }

  function WithdrawnBy(s: State, c: nat, at: Time): State {
    var k := s.CallerOf(c);
    if !k.Withdrawing? then s else
    var x := Withdrawn(k.x, k.cause, at);
    WithCaller(WithStore(s, S.PutExecution(s.world.store, x)), c, Returned(k.req, Undelivered(x)))
    .(place := s.place[x.id := Undispatched])
  }

  // ---------- Consumers ----------

  function WithConsumer(s: State, w: nat, to: Consumer): State {
    s.(consumers := s.consumers[w := to])
  }

  function Dequeued(s: State, w: nat): State {
    if !s.ConsumerOf(w).Idle? || s.queue == [] then s else
    var job := s.queue[0];
    WithConsumer(s, w, Loading(job))
    .(queue := s.queue[1..], place := s.place[job.executionId := AtWorker(w)], taken := s.taken + [job.executionId])
  }

  /** A consumer that cannot load what its job names drops the job and goes back to the queue. */
  function Loaded(s: State, w: nat): State {
    var k := s.ConsumerOf(w);
    if !k.Loading? then s
    else if s.world.store.OwnsExecution(k.job.ownerId, k.job.executionId) then
      WithConsumer(s, w, Checking(k.job, s.world.store.executions[k.job.executionId]))
    else Dropping(s, w, k.job.executionId)
  }

  /** With the agent loaded the run starts: any run of this execution that the engine can do. */
  predicate CanBegin(s: State, w: nat, run: Run) {
    var k := s.ConsumerOf(w);
    k.Checking? && s.world.store.OwnsAgent(k.job.ownerId, k.job.agentId) && RunOk(run) && run.start == k.x
  }

  function Checked(s: State, w: nat, run: Run): State {
    var k := s.ConsumerOf(w);
    if !k.Checking? then s
    else if s.world.store.OwnsAgent(k.job.ownerId, k.job.agentId) then
      Beginning(s, w, k.x.id, ScriptOf(run))
    else Dropping(s, w, k.job.executionId)
  }

  function Beginning(s: State, w: nat, e: Id, p: Script): State {
    WithConsumer(s, w, Executing(p, 0)).(begun := s.begun + [e])
  }

  function Dropping(s: State, w: nat, e: Id): State {
    WithConsumer(s, w, Idle).(place := s.place[e := Dropped])
  }

  /** The next action of the run; after the last one the consumer is free again. */
  function Acted(s: State, w: nat): State {
    var k := s.ConsumerOf(w);
    if !k.Executing? || k.done >= |k.script.log| then s else
    var a := k.script.log[k.done];
    var e := k.script.start.id;
    var over := k.done + 1 == |k.script.log|;
    WithConsumer(s, w, if over then Idle else Executing(k.script, k.done + 1))
    .(world := Effect(s.world, a),
      place := if over then s.place[e := Settled(k.script)] else s.place,
      authors := if a.AddMessage? then s.authors[a.msg.conversationId := s.AuthorsOf(a.msg.conversationId) + [e]]
                 else s.authors)
  }

  // ---------- Agents and traces ----------

  function AgentPut(s: State, a: Agent): State {
    WithStore(s, S.PutAgent(s.world.store, a))
  }

  function AgentRemoved(s: State, owner: string, a: Id): State {
    if s.world.store.OwnsAgent(owner, a) then WithStore(s, S.RemoveAgent(s.world.store, a)) else s
  }

  function RecordRead(s: State, t: nat, owner: string, e: Id): State {
    if s.ReaderOf(t).Unread? && s.world.store.OwnsExecution(owner, e) then
      s.(readers := s.readers[t := Half(s.world.store.executions[e])])
    else s
  }

  function StepsRead(s: State, t: nat): State {
    var k := s.ReaderOf(t);
    if k.Half? then s.(readers := s.readers[t := Read(k.x, s.world.store.StepsOf(k.x.id))]) else s
  }

  // ---------- Behaviours ----------

  function After(cfg: Config, ms: seq<Move>): State {
    if ms == [] then START else Apply(cfg, After(cfg, ms[..|ms| - 1]), ms[|ms| - 1])
  }

  /** Runs begin only as the engine can begin them. */
  predicate Behaviour(cfg: Config, ms: seq<Move>) {
    ms == [] ||
    (Behaviour(cfg, ms[..|ms| - 1]) && Allowed(After(cfg, ms[..|ms| - 1]), ms[|ms| - 1]))
  }

  predicate Allowed(s: State, m: Move) {
    m.Check? && s.ConsumerOf(m.w).Checking?
    && s.world.store.OwnsAgent(s.ConsumerOf(m.w).job.ownerId, s.ConsumerOf(m.w).job.agentId)
    ==> CanBegin(s, m.w, m.run)
  }

  // ---------- One case at a time ----------

  lemma ArriveIs(cfg: Config, s: State, c: nat, req: Request)
    ensures Apply(cfg, s, Arrive(c, req)) == Arrived(s, c, req)
  {
    hide Arrived, LookedUp, Authorized, Conversed, Created, Unidentified, Enqueued, SendCancelled, WithdrawnBy,
      Dequeued, Loaded, Checked, Acted, AgentPut, AgentRemoved, RecordRead, StepsRead;
  }

  lemma LookupIs(cfg: Config, s: State, c: nat, hit: Option<Id>)
    ensures Apply(cfg, s, Lookup(c, hit)) == LookedUp(s, c, hit)
  {
    hide Arrived, LookedUp, Authorized, Conversed, Created, Unidentified, Enqueued, SendCancelled, WithdrawnBy,
      Dequeued, Loaded, Checked, Acted, AgentPut, AgentRemoved, RecordRead, StepsRead;
  }

  lemma AuthorizeIs(cfg: Config, s: State, c: nat)
    ensures Apply(cfg, s, Authorize(c)) == Authorized(s, c)
  {
    hide Arrived, LookedUp, Authorized, Conversed, Created, Unidentified, Enqueued, SendCancelled, WithdrawnBy,
      Dequeued, Loaded, Checked, Acted, AgentPut, AgentRemoved, RecordRead, StepsRead;
  }

  lemma ConverseIs(cfg: Config, s: State, c: nat)
    ensures Apply(cfg, s, Converse(c)) == Conversed(s, c)
  {
    hide Arrived, LookedUp, Authorized, Conversed, Created, Unidentified, Enqueued, SendCancelled, WithdrawnBy,
      Dequeued, Loaded, Checked, Acted, AgentPut, AgentRemoved, RecordRead, StepsRead;
  }

  lemma CreateIs(cfg: Config, s: State, c: nat)
    ensures Apply(cfg, s, Create(c)) == Created(cfg, s, c)
  {
    hide Arrived, LookedUp, Authorized, Conversed, Created, Unidentified, Enqueued, SendCancelled, WithdrawnBy,
      Dequeued, Loaded, Checked, Acted, AgentPut, AgentRemoved, RecordRead, StepsRead;
  }

  lemma NoIdentifierIs(cfg: Config, s: State, c: nat, drawn: nat)
    ensures Apply(cfg, s, NoIdentifier(c, drawn)) == Unidentified(s, c, drawn)
  {
    hide Arrived, LookedUp, Authorized, Conversed, Created, Unidentified, Enqueued, SendCancelled, WithdrawnBy,
      Dequeued, Loaded, Checked, Acted, AgentPut, AgentRemoved, RecordRead, StepsRead;
  }

  lemma EnqueueIs(cfg: Config, s: State, c: nat)
    ensures Apply(cfg, s, Enqueue(c)) == Enqueued(cfg, s, c)
  {
    hide Arrived, LookedUp, Authorized, Conversed, Created, Unidentified, Enqueued, SendCancelled, WithdrawnBy,
      Dequeued, Loaded, Checked, Acted, AgentPut, AgentRemoved, RecordRead, StepsRead;
  }

  lemma CancelSendIs(cfg: Config, s: State, c: nat, cause: Error)
    ensures Apply(cfg, s, CancelSend(c, cause)) == SendCancelled(s, c, cause)
  {
    hide Arrived, LookedUp, Authorized, Conversed, Created, Unidentified, Enqueued, SendCancelled, WithdrawnBy,
      Dequeued, Loaded, Checked, Acted, AgentPut, AgentRemoved, RecordRead, StepsRead;
  }

  lemma WithdrawIs(cfg: Config, s: State, c: nat, at: Time)
    ensures Apply(cfg, s, Withdraw(c, at)) == WithdrawnBy(s, c, at)
  {
    hide Arrived, LookedUp, Authorized, Conversed, Created, Unidentified, Enqueued, SendCancelled, WithdrawnBy,
      Dequeued, Loaded, Checked, Acted, AgentPut, AgentRemoved, RecordRead, StepsRead;
  }

  lemma DequeueIs(cfg: Config, s: State, w: nat)
    ensures Apply(cfg, s, Dequeue(w)) == Dequeued(s, w)
  {
    hide Arrived, LookedUp, Authorized, Conversed, Created, Unidentified, Enqueued, SendCancelled, WithdrawnBy,
      Dequeued, Loaded, Checked, Acted, AgentPut, AgentRemoved, RecordRead, StepsRead;
  }

  lemma LoadIs(cfg: Config, s: State, w: nat)
    ensures Apply(cfg, s, Load(w)) == Loaded(s, w)
  {
    hide Arrived, LookedUp, Authorized, Conversed, Created, Unidentified, Enqueued, SendCancelled, WithdrawnBy,
      Dequeued, Loaded, Checked, Acted, AgentPut, AgentRemoved, RecordRead, StepsRead;
  }

  lemma CheckIs(cfg: Config, s: State, w: nat, run: Run)
    ensures Apply(cfg, s, Check(w, run)) == Checked(s, w, run)
  {
    hide Arrived, LookedUp, Authorized, Conversed, Created, Unidentified, Enqueued, SendCancelled, WithdrawnBy,
      Dequeued, Loaded, Checked, Acted, AgentPut, AgentRemoved, RecordRead, StepsRead;
  }

  lemma PutAgentIs(cfg: Config, s: State, a: Agent)
    ensures Apply(cfg, s, PutAgent(a)) == AgentPut(s, a)
  {
    hide Arrived, LookedUp, Authorized, Conversed, Created, Unidentified, Enqueued, SendCancelled, WithdrawnBy,
      Dequeued, Loaded, Checked, Acted, AgentPut, AgentRemoved, RecordRead, StepsRead;
  }

  lemma RemoveAgentIs(cfg: Config, s: State, owner: string, a: Id)
    ensures Apply(cfg, s, RemoveAgent(owner, a)) == AgentRemoved(s, owner, a)
  {
    hide Arrived, LookedUp, Authorized, Conversed, Created, Unidentified, Enqueued, SendCancelled, WithdrawnBy,
      Dequeued, Loaded, Checked, Acted, AgentPut, AgentRemoved, RecordRead, StepsRead;
  }

  lemma ReadRecordIs(cfg: Config, s: State, t: nat, owner: string, e: Id)
    ensures Apply(cfg, s, ReadRecord(t, owner, e)) == RecordRead(s, t, owner, e)
  {
    hide Arrived, LookedUp, Authorized, Conversed, Created, Unidentified, Enqueued, SendCancelled, WithdrawnBy,
      Dequeued, Loaded, Checked, Acted, AgentPut, AgentRemoved, RecordRead, StepsRead;
  }

  lemma ActIs(cfg: Config, s: State, w: nat)
    ensures Apply(cfg, s, Act(w)) == Acted(s, w)
  {
    hide Arrived, LookedUp, Authorized, Conversed, Created, Unidentified, Enqueued, SendCancelled, WithdrawnBy,
      Dequeued, Loaded, Checked, Acted, AgentPut, AgentRemoved, RecordRead, StepsRead;
  }

  // ---------- The invariant ----------

  /** An execution that has not been run yet. */
  predicate Untouched(x: Execution) {
    x.status == Queued && x.retryCount == 0 && x.promptTokens == 0 && x.outputTokens == 0 && x.error.None?
    && x.startedAt.None? && x.completedAt.None?
  }

  predicate Unrun(w: World, x: Execution) {
    Untouched(x) && w.store.StepsOf(x.id) == [] && w.EventsOf(x.id) == []
  }

  /** What an execution's place says about it. */
  ghost predicate PlaceOk(s: State, x: Execution, p: Place) {
    match p
    case AtCaller(c) =>
      var k := s.CallerOf(c);
      (k.Sending? || k.Withdrawing?) && k.x == x && Unrun(s.world, x)
    case AtQueue => JobOf(x) in s.queue && Unrun(s.world, x)
    case AtWorker(w) =>
      (match s.ConsumerOf(w)
       case Idle => false
       case Loading(job) => job == JobOf(x) && Unrun(s.world, x)
       case Checking(job, y) => job == JobOf(x) && y == x && Unrun(s.world, x)
       case Executing(p, n) => p.start.id == x.id && n < |p.log| && BegunOk(s, p, n))
    case Settled(p) => p.start.id == x.id && BegunOk(s, p, |p.log|)
    case Undispatched =>
      x.status == Failed && x.retryCount == 0 && s.world.store.StepsOf(x.id) == [] && s.world.EventsOf(x.id) == []
    case Dropped => Unrun(s.world, x)
  }

  ghost predicate BegunOk(s: State, p: Script, n: nat)
    requires n <= |p.log|
  {
    Lawful(p) && Untouched(p.start) && DoneSoFar(s.world, p, n)
  }

  /** An execution names a stored conversation of its owner and agent, and is in one place. */
  ghost predicate ExecutionOk(s: State, e: Id) {
    e in s.world.store.executions ==>
      var x := s.world.store.executions[e];
      && x.id == e && e < s.nextId
      && ConversationFits(s, x.conversationId, x.ownerId, x.agentId)
      && e in s.place && PlaceOk(s, x, s.place[e])
  }

  predicate ConversationFits(s: State, c: Id, owner: string, agent: Id) {
    s.world.store.OwnsConversation(owner, c) && s.world.store.conversations[c].agentId == agent
  }

  ghost predicate CallerOk(s: State, c: nat) {
    match s.CallerOf(c)
    case Creating(req, _, v) => ConversationFits(s, v, req.ownerId, req.agentId)
    case Sending(req, x) => CallerHolds(s, c, req, x)
    case Withdrawing(req, x, _) => CallerHolds(s, c, req, x)
    case _ => true
  }

  ghost predicate CallerHolds(s: State, c: nat, req: Request, x: Execution) {
    && x.id in s.world.store.executions && s.world.store.executions[x.id] == x
    && x.id in s.place && s.place[x.id] == AtCaller(c)
    && x.ownerId == req.ownerId && x.agentId == req.agentId && x.idempotencyKey == req.key
  }

  /** A busy consumer holds the execution of its job. */
  ghost predicate ConsumerOk(s: State, w: nat) {
    match s.ConsumerOf(w)
    case Idle => true
    case Loading(job) => Holds(s, w, job.executionId) && JobOf(s.world.store.executions[job.executionId]) == job
    case Checking(job, x) => Holds(s, w, x.id) && s.world.store.executions[x.id] == x && JobOf(x) == job
    case Executing(p, _) => Holds(s, w, p.start.id)
  }

  ghost predicate Holds(s: State, w: nat, e: Id) {
    e in s.world.store.executions && e in s.place && s.place[e] == AtWorker(w)
  }

  ghost predicate QueuedOk(s: State, i: nat) {
    i < |s.queue| ==>
      var e := s.queue[i].executionId;
      && e in s.world.store.executions && JobOf(s.world.store.executions[e]) == s.queue[i]
      && e in s.place && s.place[e] == AtQueue
  }

  function Ids(q: seq<Job>): (r: seq<Id>)
    ensures |r| == |q|
  {
    seq(|q|, i requires 0 <= i < |q| => q[i].executionId)
  }

  predicate Distinct(s: seq<Id>) {
    forall i, j :: 0 <= i < j < |s| ==> s[i] != s[j]
  }

  /** Jobs leave in the order they came, each execution is sent, taken and begun at most once, as its place says. */
  ghost predicate HistoryOk(s: State) {
    && s.sent == s.taken + Ids(s.queue)
    && Distinct(s.sent) && Distinct(s.begun)
    && (forall e :: e in s.sent ==> e in s.place && !s.place[e].AtCaller? && !s.place[e].Undispatched?)
    && (forall e :: e in s.begun ==> HasBegun(s, e))
    && s.place.Keys == s.world.store.executions.Keys
  }

  /** A run of e is under way or over. */
  ghost predicate HasBegun(s: State, e: Id) {
    e in s.place && (s.place[e].Settled? || (s.place[e].AtWorker? && s.ConsumerOf(s.place[e].w).Executing?))
  }

  /** Identifiers in use are old. */
  ghost predicate IdsOk(s: State) {
    && (forall e :: e in s.world.store.executions ==> e < s.nextId)
    && (forall c :: c in s.world.store.conversations ==> c < s.nextId && s.world.store.conversations[c].id == c)
    && (forall e :: e in s.world.store.steps ==> e in s.world.store.executions)
    && (forall e :: e in s.world.events ==> e in s.world.store.executions)
    && (forall c :: c in s.world.store.messages ==> c in s.world.store.conversations)
    && (forall c :: c in s.authors ==> c in s.world.store.conversations)
  }

  ghost predicate Sound(s: State) {
    && (forall e: Id {:trigger ExecutionOk(s, e)} :: ExecutionOk(s, e))
    && (forall c: nat {:trigger CallerOk(s, c)} :: CallerOk(s, c))
    && (forall w: nat {:trigger ConsumerOk(s, w)} :: ConsumerOk(s, w))
    && (forall i: nat {:trigger QueuedOk(s, i)} :: QueuedOk(s, i))
    && HistoryOk(s)
    && IdsOk(s)
  }
}
