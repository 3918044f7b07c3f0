/** The entities that AgentFlow's adapters share, and the errors that travel between them. */
module Domain {

  // Identifiers are random UUIDs in the program; here they come from a counter, so that "new" means fresh.
  type Id = nat

  type Time = int

  datatype Option<+T> = None | Some(value: T)

  datatype Result<+T> = Ok(value: T) | Err(error: Error)

  /** Errors, with the wrapping that errors.Is looks through. */
  datatype Error =
    | Canceled
    | DeadlineExceeded
    | CircuitOpen
    | NotFound
    | Conflict
    | NoEntropy
    | StepsExhausted
    | InvalidPolicy
    | InputRequired
    | Invalid(field: string)
    | ForeignConversation
    | Unregistered(tool: string)
    | External(code: int)
    | Wrapped(context: string, cause: Error)

  /** errors.Is(e, context.Canceled) */
  predicate IsCanceled(e: Error) {
    match e
    case Canceled => true
    case Wrapped(_, cause) => IsCanceled(cause)
    case _ => false
  }

  /** What an error says once all context is taken off. */
  function Root(e: Error): Error {
    if e.Wrapped? then Root(e.cause) else e
  }

  /** Wrapping hides no cancellation, and nothing else is taken for one. */
  lemma {:induction false} CanceledIff(e: Error)
    ensures IsCanceled(e) <==> Root(e) == Canceled
  {
    if e.Wrapped? {
      CanceledIff(e.cause);
    }
  }

  datatype Agent = Agent(
    id: Id,
    ownerId: string,
    name: string,
    description: string,
    systemPrompt: string,
    model: string,
    temperature: real,
    maxTokens: int,
    tools: seq<string>,
    version: int)

  datatype Conversation = Conversation(id: Id, ownerId: string, agentId: Id, title: string)

  datatype Role = User | Assistant | ToolRole

  datatype Message = Message(
    id: Id,
    conversationId: Id,
    role: Role,
    content: string,
    toolCallId: string,
    name: string)

  datatype Status = Queued | Running | Succeeded | Failed | Cancelled

  predicate Terminal(s: Status) {
    s.Succeeded? || s.Failed? || s.Cancelled?
  }

  /** The identifier of a request comes with it or is drawn for it. */
  datatype RequestId = Given(value: string) | Drawn(id: Id)

  datatype Execution = Execution(
    id: Id,
    requestId: RequestId,
    idempotencyKey: string,
    agentId: Id,
    ownerId: string,
    conversationId: Id,
    input: string,
    output: string,
    status: Status,
    model: string,
    promptTokens: int,
    outputTokens: int,
    error: Option<Error>,
    retryCount: int,
    startedAt: Option<Time>,
    completedAt: Option<Time>)

  /** The fields of an execution that no write after its creation changes. */
  predicate SameIdentity(x: Execution, y: Execution) {
    && x.id == y.id
    && x.requestId == y.requestId
    && x.idempotencyKey == y.idempotencyKey
    && x.agentId == y.agentId
    && x.ownerId == y.ownerId
    && x.conversationId == y.conversationId
    && x.input == y.input
  }

  datatype StepKind = LlmStep | ToolStep

  datatype StepOutput =
    | NoOutput
    | Completion(content: string, toolCallCount: nat)
    | ToolResult(value: string)

  datatype Step = Step(
    id: Id,
    executionId: Id,
    kind: StepKind,
    name: string,
    input: string,
    output: StepOutput,
    error: Option<Error>,
    retryCount: nat)

  datatype ToolCall = ToolCall(id: string, name: string, arguments: string)

  /** A message as the language model sees it. */
  datatype Prompt = Prompt(role: Role, content: string, name: string, toolCallId: string)

  datatype Response = Response(
    content: string,
    toolCalls: seq<ToolCall>,
    promptTokens: int,
    outputTokens: int,
    model: string)

  datatype EventKind =
    | AgentStarted
    | AgentThinking
    | ToolStarted
    | ToolCompleted
    | ToolFailed
    | AgentCompleted
    | AgentFailed

  datatype Event = Event(executionId: Id, kind: EventKind, stepId: Option<Id>)

  /** The event tells that its execution is over. */
  predicate IsFinal(v: Event) {
    v.kind.AgentCompleted? || v.kind.AgentFailed?
  }

  datatype Job = Job(executionId: Id, agentId: Id, ownerId: string)

  function JobOf(x: Execution): Job {
    Job(x.id, x.agentId, x.ownerId)
  }
}
