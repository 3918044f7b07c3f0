/** What one run of the workflow engine does to the shared state, in order, and the shape every run has. */
module Runs {
  import opened Domain
  import opened Int64
  import opened Sequences
  import B = Breaker
  import Retry

  const MAX_STEPS: nat := 8
  const HISTORY: nat := 50

  // ---------- Actions ----------

  /** One call of the provider. */
  type Exchange = Retry.Exchange<seq<Prompt>, Response>

  /**
   * The actions of a run that others can see; its calls of the circuit breaker; and its questions to the provider, each
   * asked until it has the replies, when the stored conversation was seen messages long.
   */
  datatype Action =
    | Update(x: Execution)
    | AddStep(step: Step)
    | AddMessage(msg: Message)
    | Emit(event: Event)
    | Gate(entry: B.Entry)
    | Ask(prompt: seq<Prompt>, seen: nat, replies: seq<Result<Response>>)

  function StepsIn(l: seq<Action>): seq<Step> {
    if l == [] then [] else
    StepsIn(l[..|l| - 1]) + match l[|l| - 1] case AddStep(p) => [p] case _ => []
  }

  function MessagesIn(l: seq<Action>): seq<Message> {
    if l == [] then [] else
    MessagesIn(l[..|l| - 1]) + match l[|l| - 1] case AddMessage(m) => [m] case _ => []
  }

  function EventsIn(l: seq<Action>): seq<Event> {
    if l == [] then [] else
    EventsIn(l[..|l| - 1]) + match l[|l| - 1] case Emit(e) => [e] case _ => []
  }

  function UpdatesIn(l: seq<Action>): seq<Execution> {
    if l == [] then [] else
    UpdatesIn(l[..|l| - 1]) + match l[|l| - 1] case Update(x) => [x] case _ => []
  }

  lemma {:induction false} FiltersConcat(a: seq<Action>, b: seq<Action>)
    ensures StepsIn(a + b) == StepsIn(a) + StepsIn(b)
    ensures MessagesIn(a + b) == MessagesIn(a) + MessagesIn(b)
    ensures EventsIn(a + b) == EventsIn(a) + EventsIn(b)
    ensures UpdatesIn(a + b) == UpdatesIn(a) + UpdatesIn(b)
  {
    if b == [] {
      assert a + b == a;
    } else {
      hide StepsIn, MessagesIn, EventsIn, UpdatesIn;
      var l, x := b[..|b| - 1], b[|b| - 1];
      FiltersConcat(a, l);
      assert b == l + [x] && a + b == a + l + [x];
      FiltersSnoc(l, x);
      FiltersSnoc(a + l, x);
      Associate(StepsIn(a), StepsIn(l), StepsIn([x]));
      Associate(MessagesIn(a), MessagesIn(l), MessagesIn([x]));
      Associate(EventsIn(a), EventsIn(l), EventsIn([x]));
      Associate(UpdatesIn(a), UpdatesIn(l), UpdatesIn([x]));
    }
  }

  lemma FiltersSnoc(l: seq<Action>, x: Action)
    ensures StepsIn(l + [x]) == StepsIn(l) + StepsIn([x])
    ensures MessagesIn(l + [x]) == MessagesIn(l) + MessagesIn([x])
    ensures EventsIn(l + [x]) == EventsIn(l) + EventsIn([x])
    ensures UpdatesIn(l + [x]) == UpdatesIn(l) + UpdatesIn([x])
  {
    assert (l + [x])[..|l|] == l && [x][..0] == [];
  }

  /** The calls of the provider among the actions. */
  function ExchangesIn(l: seq<Action>): seq<Exchange> {
    if l == [] then [] else
    ExchangesIn(l[..|l| - 1]) + match l[|l| - 1] case Ask(p, _, rs) => Retry.Asked(p, rs) case _ => []
  }

  /** The calls of the circuit breaker among the actions. */
  function GatesIn(l: seq<Action>): seq<B.Entry> {
    if l == [] then [] else
    GatesIn(l[..|l| - 1]) + match l[|l| - 1] case Gate(e) => [e] case _ => []
  }

  lemma {:induction false} CallsConcat(a: seq<Action>, b: seq<Action>)
    ensures ExchangesIn(a + b) == ExchangesIn(a) + ExchangesIn(b)
    ensures GatesIn(a + b) == GatesIn(a) + GatesIn(b)
  {
    if b == [] {
      assert a + b == a;
    } else {
      hide ExchangesIn, GatesIn;
      var l, x := b[..|b| - 1], b[|b| - 1];
      CallsConcat(a, l);
      assert b == l + [x] && a + b == a + l + [x];
      CallsSnoc(l, x);
      CallsSnoc(a + l, x);
      Associate(ExchangesIn(a), ExchangesIn(l), ExchangesIn([x]));
      Associate(GatesIn(a), GatesIn(l), GatesIn([x]));
    }
  }

  lemma CallsSnoc(l: seq<Action>, x: Action)
    ensures ExchangesIn(l + [x]) == ExchangesIn(l) + ExchangesIn([x])
    ensures GatesIn(l + [x]) == GatesIn(l) + GatesIn([x])
  {
    assert (l + [x])[..|l|] == l && [x][..0] == [];
  }

  // ---------- Tool calls ----------

  /** What becomes of one tool call: the registry, the identifier source and the tool decide it. */
  datatype Fate =
    | Missing
    | NoId
    | Raises(error: Error)
    | Unencodable(error: Error)
    | Returns(value: string)
  {
    predicate Drawn() {
      Raises? || Unencodable? || Returns?
    }

    predicate Stored() {
      Raises? || Returns?
    }
  }

  /** The outcome that the goroutine of one call leaves at its index. */
  function Outcome(call: ToolCall, fate: Fate): Result<Prompt> {
    match fate
    case Missing => Err(Unregistered(call.name))
    case NoId => Err(NoEntropy)
    case Raises(e) => Err(Wrapped("execute tool " + call.name, e))
    case Unencodable(e) => Err(Wrapped("encode tool " + call.name + " output", e))
    case Returns(v) => Ok(Prompt(ToolRole, v, call.name, call.id))
  }

  function StepOfCall(e: Id, call: ToolCall, fate: Fate, id: Id): Step {
    Step(id, e, ToolStep, call.name, call.arguments,
         if fate.Returns? then ToolResult(fate.value) else NoOutput,
         if fate.Raises? then Some(fate.error) else None, 0)
  }

  /** The actions of one call, in their order. */
  function Part(e: Id, call: ToolCall, fate: Fate, id: Id): seq<Action> {
    match fate
    case Missing => []
    case NoId => []
    case Unencodable(_) => [Emit(Event(e, ToolStarted, Some(id)))]
    case _ => [
      Emit(Event(e, ToolStarted, Some(id))),
      AddStep(StepOfCall(e, call, fate, id)),
      Emit(Event(e, if fate.Returns? then ToolCompleted else ToolFailed, Some(id)))]
  }

  /** acts is an interleaving of the parts: who[k] is the part that action k comes from. */
  predicate Shuffle(acts: seq<Action>, who: seq<nat>, parts: seq<seq<Action>>)
    decreases |acts|
  {
    && |who| == |acts|
    && if acts == [] then forall i :: 0 <= i < |parts| ==> parts[i] == [] else
       var n := |acts| - 1;
       && who[n] < |parts|
       && var p := parts[who[n]];
          && p != []
          && p[|p| - 1] == acts[n]
          && Shuffle(acts[..n], who[..n], parts[who[n] := p[..|p| - 1]])
  }

  /** One concurrent round of tool calls. */
  datatype Fan = Fan(calls: seq<ToolCall>, fates: seq<Fate>, ids: seq<Id>, acts: seq<Action>, who: seq<nat>)

  const NO_FAN := Fan([], [], [], [], [])

  function Parts(e: Id, f: Fan): (r: seq<seq<Action>>)
    requires |f.fates| == |f.ids| == |f.calls|
    ensures |r| == |f.calls|
  {
    seq(|f.calls|, i requires 0 <= i < |f.calls| => Part(e, f.calls[i], f.fates[i], f.ids[i]))
  }

  /** Running the calls from left to right: all messages, or the error of the first call that fails. */
  function Sequential(calls: seq<ToolCall>, fates: seq<Fate>): Result<seq<Prompt>>
    requires |fates| == |calls|
  {
    if calls == [] then Ok([]) else
    var before := Sequential(calls[..|calls| - 1], fates[..|calls| - 1]);
    if before.Err? then before else
    match Outcome(calls[|calls| - 1], fates[|calls| - 1])
    case Ok(m) => Ok(before.value + [m])
    case Err(e) => Err(e)
  }

  predicate FanOk(e: Id, f: Fan) {
    && |f.fates| == |f.ids| == |f.calls|
    && Shuffle(f.acts, f.who, Parts(e, f))
    && forall i, j :: 0 <= i < j < |f.calls| && f.fates[i].Drawn() && f.fates[j].Drawn() ==> f.ids[i] != f.ids[j]
  }

  predicate AllReturn(f: Fan) {
    forall i :: 0 <= i < |f.fates| ==> f.fates[i].Returns?
  }

  // ---------- Rounds ----------

  /** One pass through the engine's loop that the circuit breaker permits. */
  datatype Round = Round(
    ask: B.Entry,
    stepId: Id,
    prompt: seq<Prompt>,
    seen: nat,
    replies: seq<Result<Response>>,
    report: B.Entry,
    retries: nat,
    reply: Result<Response>,
    spoken: seq<Message>,
    fan: Fan,
    heard: seq<Message>)

  /** The record of a completion. */
  function CompletionStep(id: Id, e: Id, reply: Result<Response>, retries: nat): Step {
    Step(id, e, LlmStep, "completion", "",
         match reply case Ok(a) => Completion(a.content, |a.toolCalls|) case Err(_) => NoOutput,
         match reply case Ok(_) => None case Err(e) => Some(e),
         retries)
  }

  function LlmStepOf(e: Id, r: Round): Step {
    CompletionStep(r.stepId, e, r.reply, r.retries)
  }

  function Says(ms: seq<Message>): (l: seq<Action>)
    ensures |l| == |ms|
  {
    seq(|ms|, i requires 0 <= i < |ms| => AddMessage(ms[i]))
  }

  /** Permission, thinking, asking, reporting how it went, and recording the completion. */
  function Head(e: Id, r: Round): seq<Action> {
    [Gate(r.ask), Emit(Event(e, AgentThinking, Some(r.stepId))), Ask(r.prompt, r.seen, r.replies), Gate(r.report),
     AddStep(LlmStepOf(e, r))]
  }

  function RoundLog(e: Id, r: Round): seq<Action>
  {
    Head(e, r) + Says(r.spoken) + r.fan.acts + Says(r.heard)
  }

  /** The stored form of a prompt, up to its identifier. */
  predicate Stores(m: Message, c: Id, p: Prompt) {
    && m.conversationId == c && m.role == p.role && m.content == p.content
    && m.toolCallId == p.toolCallId && m.name == p.name
  }

  function Spoken(a: Response): Prompt {
    Prompt(Assistant, a.content, "", "")
  }

  predicate Permitted(ask: B.Entry) {
    ask.call.Allow? && ask.allowed
  }

  predicate Reports(report: B.Entry, reply: Result<Response>) {
    if reply.Ok? then report.call.Success? else report.call.Failure?
  }

  /** What a single round may have done, whatever the provider, the tools and the scheduler did. */
  predicate RoundOk(e: Id, c: Id, r: Round) {
    && Permitted(r.ask) && Reports(r.report, r.reply)
    && |r.replies| <= Retry.ENGINE_POLICY.maxAttempts && r.retries == |r.replies| - 1
    && |r.spoken| <= 1
    && FanOk(e, r.fan)
    && (r.reply.Err? ==> r.spoken == [])
    && (r.spoken == [] ==> r.fan == NO_FAN && r.heard == [])
    && (r.spoken != [] ==>
          && Stores(r.spoken[0], c, Spoken(r.reply.value))
          && r.fan.calls == r.reply.value.toolCalls
          && match Sequential(r.fan.calls, r.fan.fates)
             case Err(_) => r.heard == []
             case Ok(ps) => |r.heard| <= |ps| && forall i :: 0 <= i < |r.heard| ==> Stores(r.heard[i], c, ps[i]))
    && (forall i :: 0 <= i < |r.fan.calls| && r.fan.fates[i].Drawn() ==> r.fan.ids[i] > r.stepId)
  }

  /** The provider asked for tools, all of them answered, and every message was stored: the loop goes on. */
  predicate GoesOn(r: Round) {
    && r.spoken != []
    && r.reply.Ok?
    && r.reply.value.toolCalls != []
    && |r.fan.fates| == |r.fan.calls|
    && Sequential(r.fan.calls, r.fan.fates).Ok?
    && |r.heard| == |r.reply.value.toolCalls|
  }

  /** The provider asked for no tool and its message was stored: the run succeeds. */
  predicate Answers(r: Round) {
    r.spoken != [] && r.reply.Ok? && r.reply.value.toolCalls == []
  }

  /** Why a round that neither goes on nor answers ended the run. */
  predicate Broke(r: Round, cause: Error) {
    if r.reply.Err? then cause == r.reply.error
    else if r.spoken == [] then cause == NoEntropy
    else if |r.fan.fates| == |r.fan.calls| && Sequential(r.fan.calls, r.fan.fates).Err? then
      cause == Sequential(r.fan.calls, r.fan.fates).error
    else cause == NoEntropy
  }

  /** What a round that goes on adds to the prompt. */
  function Adds(r: Round): seq<Prompt> {
    if r.reply.Ok? && |r.fan.fates| == |r.fan.calls| && Sequential(r.fan.calls, r.fan.fates).Ok? then
      [Spoken(r.reply.value)] + Sequential(r.fan.calls, r.fan.fates).value
    else []
  }

  // ---------- Runs ----------

  datatype Ending = Done | Stopped(cause: Error)

  /**
   * loaded is the length that the conversation's log had when the history was read from its end, and knock the last
   * call of the circuit breaker if no round followed it.
   */
  datatype Run = Run(
    start: Execution,
    startedAt: Time,
    loaded: nat,
    history: seq<Message>,
    opening: seq<Message>,
    rounds: seq<Round>,
    knock: Option<B.Entry>,
    ending: Ending,
    completedAt: Time)

  function Recall(m: Message): Prompt {
    Prompt(m.role, m.content, "", m.toolCallId)
  }

  function Recalls(ms: seq<Message>): (r: seq<Prompt>)
    ensures |r| == |ms|
  {
    seq(|ms|, i requires 0 <= i < |ms| => Recall(ms[i]))
  }

  /** The prompt of a round that comes after rounds rs. */
  function PromptAfter(history: seq<Message>, input: string, rs: seq<Round>): seq<Prompt> {
    if rs == [] then Recalls(history) + [Prompt(User, input, "", "")]
    else PromptAfter(history, input, rs[..|rs| - 1]) + Adds(rs[|rs| - 1])
  }

  function MarkedRunning(x: Execution, at: Time): Execution {
    x.(status := Running, startedAt := Some(at))
  }

  /** The counters after a completion. */
  function Tallied(y: Execution, reply: Result<Response>, retries: nat): Execution {
    var z := y.(retryCount := y.retryCount + retries);
    match reply
    case Err(_) => z
    case Ok(a) => z.(
      model := a.model,
      promptTokens := Wrap(z.promptTokens + a.promptTokens),
      outputTokens := Wrap(z.outputTokens + a.outputTokens))
  }

  /** What one round changes in the execution record that the loop carries. */
  function Carry(y: Execution, r: Round): Execution {
    var z := Tallied(y, r.reply, r.retries);
    if r.reply.Ok? && r.reply.value.toolCalls == [] then z.(output := r.reply.value.content) else z
  }

  /** The execution record as the loop carries it after rounds rs. */
  function Carried(x: Execution, rs: seq<Round>): Execution {
    if rs == [] then x else Carry(Carried(x, rs[..|rs| - 1]), rs[|rs| - 1])
  }

  function Finished(x: Execution, ending: Ending, at: Time): Execution {
    match ending
    case Done => x.(status := Succeeded, completedAt := Some(at))
    case Stopped(e) => x.(
      status := if IsCanceled(e) then Cancelled else Failed,
      error := Some(e),
      completedAt := Some(at))
  }

  function FinalOf(run: Run): Execution {
    Finished(Carried(MarkedRunning(run.start, run.startedAt), run.rounds), run.ending, run.completedAt)
  }

  function Flatten(e: Id, rs: seq<Round>): seq<Action> {
    if rs == [] then [] else Flatten(e, rs[..|rs| - 1]) + RoundLog(e, rs[|rs| - 1])
  }

  function FinalEvent(run: Run): Event {
    Event(run.start.id, if run.ending.Done? then AgentCompleted else AgentFailed, None)
  }

  /** Everything a run did, in order. */
  function Log(run: Run): seq<Action> {
    Opening(run) + Flatten(run.start.id, run.rounds) + Knocking(run) + Closing(run)
  }

  function Knocking(run: Run): seq<Action> {
    if run.knock.Some? then [Gate(run.knock.value)] else []
  }

  function Closing(run: Run): seq<Action> {
    [Update(FinalOf(run)), Emit(FinalEvent(run))]
  }

  function Opening(run: Run): seq<Action> {
    Marking(run) + Says(run.opening)
  }

  function Marking(run: Run): seq<Action> {
    [Update(MarkedRunning(run.start, run.startedAt)), Emit(Event(run.start.id, AgentStarted, None))]
  }

  /** Identifiers of later rounds are newer than those of earlier ones. */
  predicate NewerThan(r: Round, older: Round) {
    && older.stepId < r.stepId
    && forall i :: 0 <= i < |older.fan.ids| && i < |older.fan.fates| && older.fan.fates[i].Drawn() ==>
         older.fan.ids[i] < r.stepId
  }

  predicate RoundsOk(e: Id, c: Id, history: seq<Message>, input: string, rs: seq<Round>) {
    && (forall i :: 0 <= i < |rs| ==> RoundOk(e, c, rs[i]))
    && (forall i :: 0 <= i < |rs| - 1 ==> GoesOn(rs[i]))
    && (forall i, j :: 0 <= i < j < |rs| ==> NewerThan(rs[j], rs[i]))
    && (forall i :: 0 <= i < |rs| ==> rs[i].prompt == PromptAfter(history, input, rs[..i]))
  }

  predicate OpeningOk(run: Run) {
    && |run.history| <= HISTORY
    && |run.opening| <= 1
    && (run.opening != [] ==> Stores(run.opening[0], run.start.conversationId, Prompt(User, run.start.input, "", "")))
  }

  const UNLOADED := Wrapped("load conversation memory", NotFound)

  /**
   * What may end a run between two rounds: the end of its context, before it asked the breaker; or a refusal of the
   * breaker; or its permission, when then no identifier was found.
   */
  predicate StopsBetween(knock: Option<B.Entry>, cause: Error) {
    match knock
    case None => cause.Canceled? || cause.DeadlineExceeded?
    case Some(e) => e.call.Allow? && cause == if e.allowed then NoEntropy else CircuitOpen
  }

  /** Without its user's message stored a run does not look for a round; otherwise the last round decides the ending. */
  predicate EndingOk(opening: seq<Message>, rs: seq<Round>, knock: Option<B.Entry>, ending: Ending) {
    if opening == [] then
      rs == [] && knock.None? && (ending == Stopped(NoEntropy) || ending == Stopped(UNLOADED))
    else match ending
    case Done => knock.None? && rs != [] && Answers(rs[|rs| - 1])
    case Stopped(cause) =>
      if rs != [] && !GoesOn(rs[|rs| - 1]) then knock.None? && !Answers(rs[|rs| - 1]) && Broke(rs[|rs| - 1], cause)
      else if |rs| == MAX_STEPS then knock.None? && cause == StepsExhausted
      else StopsBetween(knock, cause)
  }

  /** The shape of every run that got as far as being marked running. */
  predicate RunOk(run: Run) {
    && RoundsOk(run.start.id, run.start.conversationId, run.history, run.start.input, run.rounds)
    && |run.rounds| <= MAX_STEPS
    && OpeningOk(run)
    && EndingOk(run.opening, run.rounds, run.knock, run.ending)
  }
}
