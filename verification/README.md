# AgentFlow: a verified model of the execution pipeline

AgentFlow accepts executions of LLM agents over HTTP, queues them, and lets a pool of workers run each one through a
bounded loop of completions and concurrent tool calls. Callers, workers, runs and readers share a store, a queue, an
event sink and a circuit breaker without any transaction around them; what keeps the system right is the order of its
writes. This project models that pipeline in Dafny and proves what the order of writes buys.

## How the model is built

- **Components.** `Store` (the in-memory store), `Queue`, `Ids`, `Retry`, `Breaker`, `Limiter`, `Broker`, `Versions`
  (the SQL transactions on agents), `Engine`, `Service` and `Worker` hold the stateful parts as classes with the
  program's fields, loops and branches. Each method is specified by a function on the abstract state.
  `MemoryVersions` has the same agent updates over the in-memory store.
- **One run.** `Runs` says what a run of the engine is: a log of actions (rewrites of the record, steps, messages,
  events, calls of the circuit breaker, questions to the provider) in rounds. The engine keeps a journal of its actions,
  each with the moment at which it was done, and `Effects.Did` says of two scenes that the journal between them is a chain:
  every action was done to the state that its entry names, and from one to the next only others have moved.
  `Engine.Engine.Execute` is proved to do exactly the actions of such a run in exactly that order, for any provider, tools,
  identifier failures, cancellations and tool schedule, while other actors change everything they may change between any
  two of them (`Effects.Leaves`). `Oracle` says what the provider, the tools and the circuit breaker had to do with each of
  its rounds, and `Execute` is proved to obey it. `ToolLaws`, `RunLaws`, `EventLaws` and `PromptLaws` are theorems about
  all runs, and `Contents` says field by field what a run stores, publishes and ends with.
- **All runs together.** `Dispatch` is a transition system in which any number of callers, consumers, runs and trace
  readers interleave; every lock section and every channel operation is one move. `Scripts` shows runs to this system as
  sequences of actions on their own execution and conversation; which one it will be is chosen, among all
  that a run of the engine can be, when the run begins. `DispatchProofs` proves an inductive invariant, and
  `DispatchLaws`, `Traces`, `Merges` and `Idempotency` prove what holds after every sequence of moves.
- **Back to the code.** `Site` puts a store, a queue, an event sink and an identifier source into the hands of everybody
  who moves in `Dispatch`. `Service.Service.StartExecution` and `Worker.Worker.Consume` perform the program's lock sections
  there, with anybody else moving in between, and are proved to yield behaviours of `Dispatch`; so the laws apply to them.
  That goes down to the single actions of a run: each write of `Engine.Engine.Execute` is one `Act` move. Which run it will
  have been is not known before it is over, so `Drafts` keeps, while it lasts, a state that is right for every run which
  goes on from the actions done so far. The same `Execute` also runs where the others do not keep to the protocol.
  In the same way `Broker.Broker.Publish` is proved to make the moves of the broker's schedules, and the calls that
  `Execute` makes of a shared breaker are those of a disciplined caller, whose histories `Breaker.HistoryIsSchedule` turns
  into schedules of a pool of workers.

Identifiers come from a counter (they are random in the program), times are integers given to each step, the provider may
answer anything and logs what it is asked, and the tools are arbitrary functions.

## Where the code is weaker than its documentation

- `Memory` does not enforce unique idempotency keys. `Idempotency.IdempotentIff` gives the exact condition,
  `Idempotency.OverlapDuplicates` two overlapping calls that break it.
- `Memory` lets two overlapping agent updates reuse a version number and lose an update.
  `MemoryVersions.VersionsDistinctIff` and `MemoryVersions.NoUpdateLostIff` give the exact condition,
  `MemoryVersions.RaceReusesVersions` a schedule that breaks it.
- The backoff shift wraps: 200 ms defeats the clamp at attempt 37 (`Retry.EnginePolicyOverflowsAt37`).
- Publishes that overlap can reach two readers in opposite orders (`Broker.OverlapReorders`); those that do not, cannot
  (`Broker.OneOrder`).
- A second call of an unsubscribe function panics if the execution still has a subscriber
  (`Broker.SecondUnsubscribePanicsIff`, and `Broker.SecondUnsubscribePanics` for three calls that lead there).
- A tool output that cannot be encoded leaves its `tool.started` event without a matching end
  (`EventLaws.EventLanguage`, and `EventLaws.UnencodableRun` for such a run).
- A worker drops a job silently if the agent is gone (internal/worker/worker.go:59-63); the execution stays queued for
  good (`DispatchLaws.DroppedOnlyWithoutAgent`, `DispatchLaws.StatusOnlyAdvances`, and `LostJob.JobsCanBeLost` for a
  behaviour that loses one).
- docs/architecture.md:41 speaks of an immutable agent version; the worker loads the current agent, so the model does.

## Model

| member | source | states |
|---|---|---|
| DispatchLaws.OnePlace | internal/app/service.go:150-173 | In every interleaving of callers, consumers, runs and readers each stored execution has exactly one place, and a caller, a queue entry or a consumer holds it exactly if that is its place; no two hold the same one |
| DispatchLaws.FirstInFirstOut | internal/queue/queue.go:24-44 | Jobs are taken in the order in which they were sent, none is sent twice, and the queue never exceeds its size |
| DispatchLaws.RunsAtMostOnce | internal/worker/worker.go:44-66 | Of all moves in any behaviour at most one starts a run of a given execution |
| DispatchLaws.StatusOnlyAdvances | internal/workflow/engine.go:265-296 | From any reachable state on, a stored execution keeps its identity, its status only moves forward, its steps are only added to, and once it is terminal its record and steps never change; once settled, undispatched or dropped it stays so |
| DispatchLaws.EachMoveAdvances | internal/workflow/engine.go:64-69 | A single lock section writes a status at most one step forward: queued to running, running to terminal, or queued to failed |
| DispatchLaws.FinalEventsAreTrue | internal/workflow/engine.go:265-296 | In every reachable state, whoever has seen a final event of an execution finds its record terminal, and succeeded exactly if the event says completed |
| DispatchLaws.ConversationsFit | internal/app/service.go:119-161 | Although appending messages and updating executions check no owner, every stored execution names a stored conversation of the same owner and agent |
| DispatchLaws.HistoryAlwaysLoads | internal/workflow/engine.go:72-83 | Hence a run begun in a reachable state never fails to load its conversation; at worst it finds no identifier for its first message |
| DispatchLaws.DroppedOnlyWithoutAgent | internal/worker/worker.go:54-63 | A consumer always finds the execution of its job; a job is dropped exactly when the owner's agent is gone, and its execution is then still queued |
| DispatchLaws.BeginsWithAgent | internal/worker/worker.go:54-66 | A run begins only for a queued execution whose agent is stored under the same owner |
| DispatchLaws.OnlyOwners | internal/store/memory.go:60-69 | A trace is read only by the owner of its execution, and an agent is removed only by its owner |
| LostJob.JobsCanBeLost | internal/worker/worker.go:59-63 | A behaviour in which the agent is deleted while the job waits, and the execution stays queued for good |
| DispatchLaws.OthersLeaveRunsAlone | internal/store/memory.go:146-164 | While a run is under way, every move of anybody else leaves its record, steps and events alone and only appends to its conversation, and not even that if no other run is on it |
| DispatchProofs.AlwaysSound | internal/app/service.go:102-174 | The invariant behind these laws holds after every behaviour of the protocol |
| Traces.TornReadsAreSafe | internal/store/memory.go:166-175 | Whatever happens between and after the two lock sections of a trace, its steps account for at least the retries of its record, and if that record is terminal, for exactly those, and they are all the steps there will ever be |
| Traces.StoredAccounts | internal/workflow/engine.go:127-149 | In every reachable state the stored steps account for the stored retry count, exactly once terminal |
| Merges.ConversationIsMerge | internal/workflow/engine.go:245-263 | Each message of a conversation was said by a run on that conversation and of its owner, and what each run has said appears in it whole and in order: the log is a merge of the runs' contributions |
| Idempotency.IdempotentIff | migrations/000001_init.up.sql:74 | One execution, one job and one answer for each owner and key, in every reachable state exactly when the store enforces unique keys or no call has created an execution for a key taken since it looked |
| Idempotency.ApartCallsAreIdempotent | internal/store/memory.go:135-144 | With Memory the same holds whenever no two calls for a key overlap between lookup and creation |
| Idempotency.OverlapDuplicates | internal/app/service.go:106-114 | Two overlapping calls leave two executions and two jobs for one key with Memory; a unique key refuses the second |
| Idempotency.UniqueIffNeverOvertaken | internal/store/memory.go:115-123 | Keys are unique after a behaviour exactly when no creation in it was overtaken, or the store refuses duplicates |
| Idempotency.TakenStaysTaken | internal/app/service.go:106-110 | A key that was taken stays taken, so a later lookup always hits |
| Service.Service.StartExecution | internal/app/service.go:102-174 | A call, with everybody else moving between its lock sections, is a behaviour of the protocol that ends with the reply it returns: exactly a blank input is rejected as such, a key already taken is replayed with a stored execution of the same owner and key, and an accepted or undelivered execution is new, has the fields of the request, and at some moment of the call its agent was stored under the same owner with the model that it names; an accepted one waits and its job is the last in the queue, an undelivered one is stored as failed; any other rejection names what was missing |
| Service.Service.Find | internal/app/service.go:106-114 | The key lookup as one move: a hit is replayed, a miss goes on, and a key that was taken when the call came is hit |
| Service.Service.Converse | internal/app/service.go:119-138 | Opens a conversation titled by the trimmed input, or joins the one named, which is then the owner's and the agent's; fails only without an identifier, or if the one named is not the owner's or not the agent's |
| Service.Service.Create | internal/app/service.go:139-164 | Stores the queued execution with each field as the request, its agent and its conversation have it, with the request's identifier or one drawn for it, under an identifier never stored before; or finds no identifier for one of the two |
| Service.Service.Send | internal/app/service.go:165-173 | The job is sent, or the execution is marked failed when the caller's context ends first |
| Service.Service.UpdateAgent | internal/app/service.go:68-89 | What is written is the agent read earlier in the call under the same owner, one version on, with each setting of the input and its texts trimmed, whatever has been stored since; a rejected input touches nothing |
| Service.Service.DeleteAgent | internal/app/service.go:91-93 | Deletes the agent exactly if it is stored under this owner, and no other |
| Versions.ComplaintMeans | internal/app/service.go:199-213 | An input is accepted exactly if its name and model are not blank and its temperature and token limit are in range; otherwise the first of these is named |
| Queue.Immediate.Enqueue | internal/queue/queue.go:28-35 | A send appends to a queue with room, or returns the context's error and changes nothing |
| Queue.Immediate.Dequeue | internal/queue/queue.go:37-44 | A receive takes the first job, or returns the context's error and changes nothing |
| Worker.Worker.Take | internal/worker/worker.go:45-52 | Among other consumers, takes the first job as one move of the protocol, or returns the context's error |
| Worker.Worker.Load | internal/worker/worker.go:54-58 | Whatever the others do in between, the execution of a job taken is found |
| Worker.Worker.Check | internal/worker/worker.go:59-63 | The agent is found, or the job is dropped as the protocol drops it |
| Worker.Worker.Consume | internal/worker/worker.go:44-69 | One pass among others is a behaviour of the protocol, down to every single action of its run; its job ends up dropped, or settled with a well-formed run of its execution, whose final record is returned and stored |
| Worker.Worker.Loop | internal/worker/worker.go:42-70 | Any finite stretch of the endless loop among others takes its jobs in queue order, and what a pass has made of its job still stands at the end; it ends early only on cancellation |
| Site.Site.Interlude | internal/worker/worker.go:44-69 | While a consumer is in the middle of a run, any moves of the others extend the behaviour, whichever run it will be, and leave the run alone |
| Site.Site.Acts | internal/workflow/engine.go:64-174 | An action just done on the shared state extends the behaviour by one move of its consumer, whichever run it will be |
| Actors.WorkerUnseen | internal/worker/worker.go:44-69 | No move of anybody else depends on where a consumer is, so what the others did before a run was known fits the run it was |
| Engine.Engine.Execute | internal/workflow/engine.go:54-175 | Terminates, for any provider, tools and interference, having done exactly the actions of a well-formed run of the given execution in exactly its order, each on the state of its moment; each round with the replies the provider gave to that prompt and the tool outcomes of the outside; returns its final record and its cause, which is justified by the context, the breaker or the identifiers; among actors of the protocol it is a behaviour of it; does nothing if the execution is not stored |
| Engine.Engine.Loop | internal/workflow/engine.go:86-174 | At most eight rounds; between two rounds it stops exactly if its context has ended, the breaker refuses or no identifier is found, with that cause; otherwise with the last round's failure or answer, or when rounds are exhausted |
| Engine.Engine.Knock | internal/workflow/engine.go:90-92 | After whatever the others did to the breaker, one Allow of this worker is added to its history and to the journal, with its answer |
| Engine.Engine.PlayRound | internal/workflow/engine.go:98-172 | One permitted round does exactly its log of actions, in order, asks with the prompt it was given and extends that by what it stored |
| Engine.Engine.ExecuteTools | internal/workflow/engine.go:177-198 | For every schedule of the goroutines the result is that of running the calls from left to right |
| Engine.Engine.Schedule | internal/workflow/engine.go:182-190 | The goroutines' shared actions are done in the order of some interleaving of their own sequences, and every slot of the two arrays holds its call's outcome when all have left |
| Engine.Engine.StepCall | internal/workflow/engine.go:200-243 | A goroutine moves by at most one shared action along what its call prescribes: start event, then the step with the call's name and arguments and its result or error, then the completed event for a result or the failed event for an error, with the message or the wrapped error left in its slot |
| Engine.Engine.Join | internal/workflow/engine.go:192-197 | All messages in call order, or the error of the lowest failing index |
| Engine.Engine.Complete | internal/workflow/engine.go:106-140 | Asks the provider with the prompt until the reply at which Retry stops, counts one retry fewer than replies, then reports exactly one success or failure to the breaker as the reply says; adds the retries to the record, and on success the response's model and tokens, and changes nothing else in it |
| Engine.Engine.Ask | internal/workflow/engine.go:106-116 | Every call of the provider is a logged exchange with this prompt, and the journal has just these |
| Engine.Engine.Open | internal/workflow/engine.go:72-84 | The prompt is the last fifty stored messages and the user's own, and is tied to the stored log |
| Engine.Engine.Say | internal/workflow/engine.go:245-263 | Stores one message with the prompt's role, content, tool call and name, unless no identifier is found |
| Engine.Engine.Hear | internal/workflow/engine.go:167-171 | Stores the tool messages in call order up to the first that finds no identifier |
| Engine.Engine.Close | internal/workflow/engine.go:265-296 | Stores the terminal record and only then publishes the matching final event, the last action of the run |
| Oracle.RoundMeans | internal/workflow/engine.go:106-133 | A round asks at most three times; each reply but the last is an error after which the wait was not interrupted; its outcome is the last reply, or why the wait after it was interrupted, and an error ends the run with just that cause |
| Oracle.InterruptionEndsRun | internal/reliability/retry.go:37-41 | A round whose context ends while it waits for its next attempt is the last of its run, which ends for that cause: cancelled if it is a cancellation, failed otherwise |
| Oracle.CancellationEndsRun | internal/workflow/engine.go:87-89 | A context that has ended before a round ends the run, cancelled for a cancellation and failed for a deadline, without asking the breaker |
| Domain.CanceledIff | internal/workflow/engine.go:286 | However often an error is wrapped, it counts as a cancellation exactly if a cancellation is at its root |
| ToolLaws.SequentialMeaning | internal/workflow/engine.go:192-197 | On success message i carries the identifier and output of call i; on failure the error is that of the lowest failing index |
| ToolLaws.ToolStepsPermute | internal/workflow/engine.go:200-243 | For every schedule the stored tool steps are a permutation of those of a left-to-right run |
| ToolLaws.ShuffleProjects | internal/workflow/engine.go:182-190 | An interleaving keeps the order of each call's own actions and adds nothing |
| Contents.OpeningInOrder | internal/workflow/engine.go:64-83 | A run first marks its record as running, then announces itself, then stores the user's input as its message |
| Contents.RoundInOrder | internal/workflow/engine.go:90-172 | Each round is permitted by the breaker, announced, asked, reported to the breaker as it went, and recorded with its identifier, content, call count, error and retries; then come what the provider said, the tool actions, and what the tools returned |
| Contents.RoundMessages | internal/workflow/engine.go:150-172 | The messages of a round are the provider's content as the assistant's, and for each call, in order, the value it returned under its identifier and name |
| Contents.CallInLog | internal/workflow/engine.go:200-243 | For every schedule each tool call does in its run just what its fate prescribes, in order: nothing, a start without an end if its output is unencodable, or start, step and end, with the call's name and arguments and its result or error |
| Contents.ToolEventsTell | internal/workflow/engine.go:222-242 | Every tool event belongs to a call; a completed event comes after the stored step of that call without error and with the value it returned, a failed event after the one with the error it raised |
| Contents.PromptStarts | internal/workflow/engine.go:72-84 | The first prompt is the history message by message and the user's input |
| Contents.PromptGrows | internal/workflow/engine.go:157-172 | Each further prompt is the one before with what the assistant said and what each tool returned |
| Contents.FinalReplies | internal/workflow/engine.go:137-151 | The final record names the model of the last successful reply and carries the content of the last reply without tool calls; without such a reply it keeps what the execution started with |
| Contents.FinalRest | internal/workflow/engine.go:265-296 | Besides status, error, times, counters, model and output the final record is the one the run started with; its times are those of the run's start and end, and a successful run adds no error |
| Contents.Causes | internal/workflow/engine.go:86-174 | Why a run stopped: its last round's provider error, first failing tool or missing identifier; or, if that round continued, eight rounds, the end of the context, the breaker's refusal or a missing identifier; or before the first round a missing identifier or an unreadable conversation |
| Contents.Limits | internal/workflow/engine.go:41-50 | At most eight rounds, three calls of the provider in each, and fifty messages of history |
| RunLaws.StepsFormRounds | internal/workflow/engine.go:86-173 | For every schedule the stored steps are rounds of an LLM step reporting k calls and at most k tool steps, another round following only k > 0 error-free ones; a succeeded run has exactly k in each round and ends with k = 0 |
| RunLaws.Accounting | internal/workflow/engine.go:127-149 | From a fresh execution the stored retries are those of the steps, the provider's logged exchanges are retries plus LLM steps and at most 24, and the token counts are the 64-bit sums over successful responses |
| Oracle.RunsAreDisciplined | internal/workflow/engine.go:90-137 | A run keeps its worker's calls of the breaker disciplined: the outcome of each call it was permitted to start is reported exactly once, and of no other |
| RunLaws.Outcome | internal/workflow/engine.go:150-174 | Every run ends terminal: succeeded exactly if the last response asked for no tools and its message was stored, cancelled exactly if the cause is a cancellation, failed otherwise |
| RunLaws.OutputIsLastMessage | internal/workflow/engine.go:150-155 | The output of a succeeded run is the last message it appended |
| RunLaws.ExampleRun | internal/workflow/engine.go:86-172 | A run that calls a tool, retries once and answers satisfies everything that is required of runs |
| RunLaws.TwoUpdates | internal/workflow/engine.go:64-69 | The record is rewritten exactly twice, first as running and last, before the final event, as terminal |
| EventLaws.EventLanguage | internal/workflow/engine.go:70-100 | For every schedule the events are a start, rounds of one thinking event with every tool start ended exactly once before the next, and one final event, exactly if no tool output was unencodable |
| EventLaws.UnencodableRun | internal/workflow/engine.go:231-234 | A run in which a tool output is unencodable, and whose events are not in the language |
| EventLaws.FinalEventFollowsStatus | internal/workflow/engine.go:269-294 | A final event is the last action, follows the matching terminal record at once, and says completed exactly if that record says succeeded |
| PromptLaws.PromptsFollowLog | internal/workflow/engine.go:72-172 | Whatever others do, each prompt is an in-order selection of the stored conversation, made of the history window and all this run has stored; for a run alone on its conversation it is exactly the end of the log |
| PromptLaws.AloneAppends | internal/workflow/engine.go:158-172 | A run alone on its conversation leaves what was there followed by its own messages and nothing else |
| Scripts.RunsAreLawful | internal/workflow/engine.go:64-174 | Every run acts on its own execution and conversation only, first marks it running, last makes it terminal with a retry count its steps account for, and then only publishes |
| Scripts.EveryMoment | internal/workflow/engine.go:64-296 | At the moment of each action of a run exactly the actions before it have reached the record, the steps and the events of its execution, whatever the others do |
| Store.Memory.GetByIdempotencyKey | internal/store/memory.go:135-144 | The scan in map order finds some execution of the owner with the key, or says that there is none |
| Store.Memory.GetAgent | internal/store/memory.go:39-47 | Finds an agent exactly if it is stored under this owner |
| Store.Memory.UpdateAgent | internal/store/memory.go:49-58 | Replaces an agent exactly if the stored one has the same owner, and no other agent |
| Store.Memory.DeleteAgent | internal/store/memory.go:60-69 | Removes an agent exactly if the stored one has this owner, and no other agent |
| Store.Memory.GetConversation | internal/store/memory.go:81-89 | Finds a conversation exactly if it is stored under this owner |
| Store.Memory.GetExecution | internal/store/memory.go:125-133 | Finds an execution exactly if it is stored under this owner |
| Store.Memory.ListMessages | internal/store/memory.go:101-113 | The owner's conversation, cut to its last limit messages |
| Store.Memory.AppendMessage | internal/store/memory.go:91-99 | Appends to an existing conversation, whoever owns it |
| Store.Memory.UpdateExecution | internal/store/memory.go:146-154 | Replaces the record of an existing execution, whoever owns it |
| Store.Memory.AppendStep | internal/store/memory.go:156-164 | Appends to the steps of an existing execution |
| Store.Memory.CreateExecution | internal/store/memory.go:115-123 | Refuses a taken identifier, but not a taken key |
| Store.Memory.ListAgentExecutions | internal/store/memory.go:177-190 | Distinct executions of this owner and agent, as many as a positive limit allows and otherwise all of them, in no particular order |
| Breaker.CircuitBreaker.Allow | internal/reliability/breaker.go:23-35 | Refuses exactly while open and cooling; an elapsed cooldown resets the breaker |
| Breaker.CircuitBreaker.Success | internal/reliability/breaker.go:37-42 | Closes the breaker and forgets all failures |
| Breaker.CircuitBreaker.Failure | internal/reliability/breaker.go:44-51 | Counts, and opens at the threshold with the time of this failure |
| Breaker.SummarizesHistory | internal/reliability/breaker.go:23-51 | After any sequence of calls, failures is the length of the streak since the last success or elapsed cooldown, and the breaker is open since its last failure exactly if that reaches the threshold |
| Breaker.RefusesIff | internal/reliability/breaker.go:23-35 | Allow refuses exactly if the streak has reached the threshold and its last failure is younger than the timeout |
| Breaker.CooldownHolds | internal/reliability/breaker.go:23-51 | Without a success nothing shortens a cooldown |
| Breaker.ConsecutiveFailuresTrip | internal/reliability/breaker.go:44-51 | A threshold's worth of failures in a row trips the breaker from any state |
| Breaker.PoolBound | internal/workflow/engine.go:90-137 | In every schedule of W workers, failures plus rounds in flight never exceed threshold + W - 1 |
| Breaker.PoolBoundIsTight | internal/workflow/engine.go:90-137 | The bound is reached for every threshold and W |
| Breaker.NoStartWhileCooling | internal/workflow/engine.go:90-92 | In every schedule, once the breaker has opened at some time, no start before that time plus the timeout puts a worker in flight, whatever the others do, unless a round that was in flight completes first |
| Breaker.LateSuccessReopens | internal/reliability/breaker.go:37-42 | The exception is real: a late completion lets the next worker start at once |
| Breaker.HistoryIsSchedule | internal/worker/worker.go:30-36 | The calls of any number of disciplined workers, in whatever order they reach the breaker, are a schedule of the pool with the breaker's own state |
| Breaker.HistoryBound | internal/workflow/engine.go:90-137 | In every history of W disciplined workers, failures plus calls in flight never exceed threshold + W - 1 |
| Breaker.RefusedWhileCooling | internal/reliability/breaker.go:23-35 | In every history of the breaker, once tripped it refuses every caller until the timeout unless somebody succeeds first |
| Retry.Retry | internal/reliability/retry.go:16-45 | Calls the operation with the argument until the first attempt that succeeds, is the last allowed or whose wait is interrupted, and logs just these calls; returns the error of an interrupted wait, and otherwise the last reply, with the number of retries and the waits of the policy; the last return is dead code |
| Retry.ClampIsExactIff | internal/reliability/retry.go:31-34 | Up to attempt k the 64-bit shift and clamp compute min(base * 2^(j-1), max) for every j exactly if the exact delay of attempt k still fits in 64 bits |
| Retry.DelaysAreOrderedIff | internal/reliability/retry.go:31-34 | The delays up to attempt k never decrease exactly under the same condition |
| Retry.DelaysNeverDecrease | internal/reliability/retry.go:31-34 | Without overflow the base delays are positive, never decrease and stay within the maximum |
| Retry.WaitRangeIff | internal/reliability/retry.go:35-36 | For every policy and positive delay d, every draw of the jitter keeps the wait in [d, 1.5 d) exactly if the largest draw does not overflow |
| Retry.WaitsAreDelayAndJitter | internal/reliability/retry.go:35-36 | For a positive delay d far from overflow the possible waits are exactly d and every tick from there to below d + d/2 |
| Retry.NoJitter | internal/reliability/retry.go:35 | A delay that is not positive is waited as it is |
| Retry.Unclamped | internal/reliability/retry.go:31-34 | A maximum that is not positive does not limit the delays |
| Retry.TotalWaitBound | internal/reliability/retry.go:22-43 | For every policy with a positive maximum the waits of n + 1 attempts sum to less than 1.5 * n * max, even when delays or jitter overflow |
| Retry.ShiftsOut | internal/reliability/retry.go:31 | For every policy all delays from attempt 65 on are zero |
| Retry.EnginePolicyOverflowsAt37 | internal/workflow/engine.go:43-47 | 200 ms is clamped correctly at attempt 36 and turns negative at attempt 37 |
| Limiter.Limiter.Admit | internal/auth/auth.go:119-128 | Counts the request in its window, opening a new one if the old has elapsed, and admits up to the limit |
| Limiter.WindowBound | internal/auth/auth.go:119-128 | For all request sequences with non-decreasing times, any half-open interval of one window's length admits at most 2 * limit - 1 requests of one key |
| Limiter.WindowBoundIsTight | internal/auth/auth.go:119-128 | That many do get through for every limit and every window longer than one tick |
| Limiter.DeniedIff | internal/auth/auth.go:122-129 | For a positive limit a request is denied exactly when its window is open and has admitted the whole limit |
| Limiter.KeysAreIndependent | internal/auth/auth.go:115-126 | Requests under other keys never change a decision |
| Broker.Broker.Publish | internal/realtime/broker.go:24-34 | With other publishes and the readers moving between any two of its steps, a publish never meets a closed channel and makes one offer to each channel that listens when it takes the read lock, and to no other |
| Broker.Broker.Subscribe | internal/realtime/broker.go:36-43 | Adds an empty open channel to the execution's subscribers, with no publish under way |
| Broker.Broker.Unsubscribe | internal/realtime/broker.go:45-55 | Removes and closes the channel and drops an empty subscriber set; panics exactly on a second close |
| Broker.NeverPanics | internal/realtime/broker.go:24-57 | If each unsubscribe is called at most once, no schedule of overlapping publishes, subscriptions and reads sends on or closes a closed channel, and no empty subscriber set is kept |
| Broker.SecondUnsubscribePanicsIff | internal/realtime/broker.go:45-55 | A repeated unsubscribe panics exactly if the execution still has a subscriber |
| Broker.SecondUnsubscribePanics | internal/realtime/broker.go:45-55 | Three calls after which a repeated unsubscribe panics |
| Broker.DeliveredInOrder | internal/realtime/broker.go:24-43 | In every such schedule each reader receives an in-order selection of the offers made to it, and no publish is offered to it twice |
| Broker.EveryListenerIsOffered | internal/realtime/broker.go:25-32 | A publish that is over has been offered to exactly the channels that listened when it began |
| Broker.OneOrder | internal/realtime/broker.go:24-34 | Two publishes that do not overlap reach all readers in one order |
| Broker.OverlapReorders | internal/realtime/broker.go:24-34 | Two that overlap can be received by two readers in opposite orders |
| Broker.LostIffFull | internal/realtime/broker.go:27-32 | An offered event is lost exactly if 32 are buffered, and touches no other channel |
| Versions.Database.CreateAgent | internal/store/postgres/postgres.go:33-56 | Inserts agent and version rows, each with its columns of the agent, together or neither, exactly if no unique key is violated |
| Versions.Database.UpdateAgent | internal/store/postgres/postgres.go:77-100 | Updates the agent and inserts the next version together, or rolls back on a violated unique key |
| Versions.Database.GetAgent | internal/store/postgres/postgres.go:58-75 | The join of an agent of this owner with its current version, column by column |
| Versions.Database.DeleteAgent | internal/store/postgres/postgres.go:102-111 | Deletes the agent with all its versions exactly if it is this owner's |
| Versions.NoLostUpdate | internal/store/postgres/postgres.go:77-100 | In every interleaving an update commits exactly if what it was computed from is still current and the name is free; then a read returns it, and otherwise nothing changes |
| Versions.WrittenIsRead | internal/store/postgres/postgres.go:58-100 | What is read right after an update that committed has the settings of its input, one version on |
| Versions.CreatedIsRead | internal/app/service.go:35-62 | What is read right after a creation has the settings of its input, a new identifier and version one |
| Versions.VersionsAreContiguous | migrations/000001_init.up.sql:23-34 | An existing agent has exactly the versions 1 to current, so the join always finds its row |
| MemoryVersions.VersionsDistinctIff | internal/store/memory.go:49-58 | Over Memory, after any schedule of creates, reads, writes and deletes, the versions committed for an agent are pairwise distinct exactly if they are 1 to n, and exactly if no write followed another commit to it since its own read |
| MemoryVersions.NoUpdateLostIff | internal/app/service.go:72-88 | Over Memory no write ever replaces a configuration that its client had not read exactly if no write followed another commit since its own read |
| MemoryVersions.RaceReusesVersions | internal/app/service.go:68-89 | A schedule of three overlapping updates that commits versions 1, 2, 2, 3 and overwrites an update unseen |
| Text.Trim | internal/app/service.go:103 | What is left has no white space at its ends, and is empty exactly if the text is blank |
| Text.TrimCutsSpaces | internal/app/service.go:191-197 | Trimming takes away white space at the two ends and nothing else |
| Text.SpacesAre | internal/app/service.go:103 | Which characters count as white space |
| Text.TitleIs | internal/app/service.go:191-197 | A title is the trimmed input, cut at eighty characters |

## Left out

- HTTP routing, WebSockets, JWT and API keys, role checks: framework and crypto calls.
- The Redis queue and broker, the OpenAI client, JSON encoding: network and library behaviour; an encoding failure is one of the outcomes a tool call may have.
- Tracing spans, metrics, logging, configuration and startup.
- Postgres beyond the agent transactions and the unique keys: connection and encoding errors, and context cancellation making a write fail; the laws about terminal states are for Memory, whose writes ignore the context. Violated unique keys are one error value.
- The foreign keys of agents and conversations, and the cascades of a delete beyond agent versions.
- Time: timestamps other than the start and completion of an execution; the limiter's clock is read before its lock is taken, and the model assumes the times are ordered as the lock is.
- Identifiers drawn for messages and steps do not advance the counter of the dispatch protocol; there, creating an execution draws its identifiers in the same move.
- Agent settings that the engine only passes on to the provider (system prompt, temperature, token limit, tool definitions): the provider may answer anything to any prompt. The registry is part of the tools' outcomes.
- Step inputs and outputs other than tool arguments, tool results, content and call count; event payloads.
- Integer widths other than those of delays and token counts: retry counts, versions and breaker failures are unbounded.
- Creating, deleting and listing agents in the service: single store calls after the validation that Versions.Complaint states.
- A conversation title is cut at 80 characters; the program cuts at 80 bytes.
- Worker.Worker.Loop: the endless loop as any finite number of its passes.
- Worker.Worker.Consume: one consumer at a time performs the code; the other consumers, with their runs, are moves of the protocol.
- Worker.Run: spawning the consumers and waiting for them; Dispatch has any number of consumers, Breaker.PoolBound any positive width.
- Queue.Immediate.Enqueue: a call that finds neither room nor an ended context does not return, so it is not a call of the method; a queue of size zero, a rendezvous in Go, accepts nothing here.
- The circuit breaker inside Dispatch: its laws are about any pool of workers (Breaker), and Execute assumes nothing about what others do to it.
- Engine.Engine.Execute: panics in tools and provider calls that never return; the deadline of a step appears as an error of the provider, the tools or the wait between attempts.
- Engine.Engine.ExecuteTools: a goroutine's steps between two shared actions are one step, and a tool's outcome is fixed before it is scheduled, so tools that influence each other are not covered.
- Store.Memory.ListAgentExecutions: map order is not newest first, the order of the SQL query, so no order is stated.
- Service.Service.UpdateAgent: whether an update is lost is not decided there; that is MemoryVersions.NoUpdateLostIff.
