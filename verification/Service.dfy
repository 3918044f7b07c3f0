/**
 * app.Service over Memory and Immediate, among all the other callers, consumers, runs and readers of the system: each
 * call is shown to be a behaviour of the dispatch protocol, so every law of that protocol speaks about it.
 */
module Service {
  import opened Domain
  import opened Dispatch
  import opened Effects
  import opened Text
  import Actors
  import DispatchLaws
  import DispatchProofs
  import Idempotency
  import S = Store
  import Site
  import Versions

  class Service {
    const site: Site.Site

    constructor (site: Site.Site)
      ensures this.site == site
    {
      this.site := site;
    }

    method Enter(c: nat, req: Request)
      requires site.Valid() && site.system.CallerOf(c).Absent?
      modifies site
      ensures site.Valid() && old(site.moves) <= site.moves && site.system.world == old(site.system).world
      ensures site.system.CallerOf(c) == if Blank(req.input) then Returned(req, Rejected(InputRequired))
                                    else if req.key == "" then Authorizing(req) else Looking(req)
    {
      hide Behaviour, After, Apply;
      ArriveIs(site.Setup(), site.system, c, req);
      site.Moved(Arrive(c, req));
    }

    method Find(c: nat, req: Request) returns (r: Result<Execution>)
      requires site.Valid() && site.system.CallerOf(c) == Looking(req)
      modifies site, site.store, site.queue, site.ids, site.sink
      ensures site.Valid() && old(site.moves) <= site.moves
      ensures site.system.CallerOf(c) == if r.Ok? then Returned(req, Replayed(r.value)) else Authorizing(req)
      ensures KeyTaken(old(site.system).world.store, req.ownerId, req.key) ==> r.Ok?
      ensures r.Ok? ==> site.Stored(r.value) && r.value.ownerId == req.ownerId && r.value.idempotencyKey == req.key
    {
      hide Behaviour, After, Apply;
      site.Others(Actors.Call(c));
      Idempotency.TakenStaysTaken(site.Setup(), old(site.moves), site.moves, req.ownerId, req.key);
      DispatchProofs.AlwaysSound(site.Setup(), site.moves);
      r := site.store.GetByIdempotencyKey(req.ownerId, req.key);
      if r.Ok? {
        StoredUnderItsId(site.system, r.value);
      }
      var hit := if r.Ok? then Some(r.value.id) else None;
      LookupIs(site.Setup(), site.system, c, hit);
      site.Moved(Lookup(c, hit));
    }

    method FindAgent(c: nat, req: Request) returns (r: Result<Agent>)
      requires site.Valid() && site.system.CallerOf(c) == Authorizing(req)
      modifies site, site.store, site.queue, site.ids, site.sink
      ensures site.Valid() && old(site.moves) <= site.moves
      ensures if r.Ok? then HadAgent(|site.moves|, req, r.value.model) && r.value.id == req.agentId
              else LackedAgent(|site.moves|, req) && r.error == NotFound
      ensures |site.moves| > |old(site.moves)|
      ensures site.system.CallerOf(c) ==
              if r.Ok? then Conversing(req, r.value.model) else Returned(req, Rejected(r.error))
    {
      hide Behaviour, After, Apply;
      site.Others(Actors.Call(c));
      AgentsUnderTheirIds(site.Setup(), site.moves);
      r := site.store.GetAgent(req.ownerId, req.agentId);
      AuthorizeIs(site.Setup(), site.system, c);
      site.Moved(Authorize(c));
      assert site.moves[..|site.moves|] == site.moves;
    }

    /**
     * After the first `at` moves the request's agent was stored, its owner was the request's, and this was its model.
     */
    ghost predicate HadAgent(at: nat, req: Request, model: string)
      reads site
    {
      && at <= |site.moves|
      && var agents := After(site.Setup(), site.moves[..at]).world.store.agents;
         && req.agentId in agents && agents[req.agentId].id == req.agentId
         && agents[req.agentId].ownerId == req.ownerId && agents[req.agentId].model == model
    }

    ghost predicate LackedAgent(at: nat, req: Request)
      reads site
    {
      && at <= |site.moves|
      && var agents := After(site.Setup(), site.moves[..at]).world.store.agents;
         !(req.agentId in agents && agents[req.agentId].ownerId == req.ownerId)
    }

    /** The request's conversation is not stored, or not its owner's. */
    predicate LacksConversation(req: Request)
      reads site.store
    {
      && req.conversation.Some?
      && !(req.conversation.value in site.store.conversations
           && site.store.conversations[req.conversation.value].ownerId == req.ownerId)
    }

    /** It is its owner's, but another agent's. */
    predicate ConversesElsewhere(req: Request)
      reads site.store
    {
      && req.conversation.Some? && req.conversation.value in site.store.conversations
      && site.store.conversations[req.conversation.value].ownerId == req.ownerId
      && site.store.conversations[req.conversation.value].agentId != req.agentId
    }

    /** Opens a conversation, or joins the one that the request names. */
    method Converse(c: nat, req: Request, model: string) returns (r: Result<Id>)
      requires site.Valid() && site.system.CallerOf(c) == Conversing(req, model)
      modifies site, site.store, site.queue, site.ids, site.sink
      ensures site.Valid() && old(site.moves) <= site.moves
      ensures site.system.CallerOf(c) ==
              if r.Ok? then Creating(req, model, r.value) else Returned(req, Rejected(r.error))
      ensures r.Ok? ==>
                && Suits(req, r.value)
                && (req.conversation.Some? ==> r.value == req.conversation.value)
      ensures r.Ok? && req.conversation.None? ==> Titled(req, r.value)
      ensures r.Err? ==> Unconversed(req, r.error)
    {
      hide Behaviour, After, Apply;
      if req.conversation.None? {
        r := OpenNew(c, req, model);
      } else {
        r := Join(c, req, model, req.conversation.value);
      }
    }

    /** Why there is no conversation for the request. */
    predicate Unconversed(req: Request, e: Error)
      reads site.store
    {
      || (e == NoEntropy && req.conversation.None?)
      || (e == NotFound && LacksConversation(req))
      || (e == ForeignConversation && ConversesElsewhere(req))
    }

    /** The title of a conversation that a request opens is its trimmed input, as far as eighty characters go. */
    predicate Titled(req: Request, v: Id)
      reads site.store
    {
      && v in site.store.conversations
      && var title, input := site.store.conversations[v].title, Trim(req.input);
         title <= input && |title| == if |input| < 80 then |input| else 80
    }

    method OpenNew(c: nat, req: Request, model: string) returns (r: Result<Id>)
      requires site.Valid() && site.system.CallerOf(c) == Conversing(req, model) && req.conversation.None?
      modifies site, site.store, site.queue, site.ids, site.sink
      ensures site.Valid() && old(site.moves) <= site.moves
      ensures site.system.CallerOf(c) ==
              if r.Ok? then Creating(req, model, r.value) else Returned(req, Rejected(r.error))
      ensures r.Ok? ==> Suits(req, r.value) && Titled(req, r.value)
      ensures r.Err? ==> r.error == NoEntropy
    {
      hide Behaviour, After, Apply, Conversed, Sound, Title;
      site.Others(Actors.Call(c));
      r := site.ids.New();
      if r.Err? {
        NoIdentifierIs(site.Setup(), site.system, c, 0);
        site.Moved(NoIdentifier(c, 0));
        return;
      }
      DispatchProofs.AlwaysSound(site.Setup(), site.moves);
      NewIdIsFree(site.system);
      var v := Conversation(r.value, req.ownerId, req.agentId, Title(req.input));
      var err := site.store.CreateConversation(v);
      ConverseIs(site.Setup(), site.system, c);
      Opens(site.system, c, req, model, v);
      TitleIs(req.input);
      site.Moved(Move.Converse(c));
    }

    method Join(c: nat, req: Request, model: string, v: Id) returns (r: Result<Id>)
      requires site.Valid() && site.system.CallerOf(c) == Conversing(req, model) && req.conversation == Some(v)
      modifies site, site.store, site.queue, site.ids, site.sink
      ensures site.Valid() && old(site.moves) <= site.moves
      ensures site.system.CallerOf(c) ==
              if r.Ok? then Creating(req, model, r.value) else Returned(req, Rejected(r.error))
      ensures r.Ok? ==> r.value == v && Suits(req, v)
      ensures r.Err? ==> Unconversed(req, r.error)
    {
      hide Behaviour, After, Apply;
      site.Others(Actors.Call(c));
      var conversation := site.store.GetConversation(req.ownerId, v);
      ConverseIs(site.Setup(), site.system, c);
      site.Moved(Move.Converse(c));
      if conversation.Err? {
        return Err(conversation.error);
      }
      if conversation.value.agentId != req.agentId {
        return Err(ForeignConversation);
      }
      r := Ok(v);
    }

    /** Conversation v is the owner's and the agent's. */
    predicate Suits(req: Request, v: Id)
      reads site.store
    {
      && v in site.store.conversations && site.store.conversations[v].ownerId == req.ownerId
      && site.store.conversations[v].agentId == req.agentId
    }

    /** An identifier for the execution, and one for the request if that brings none. */
    method DrawIds(req: Request) returns (id: Result<Id>, drawn: nat)
      modifies site.ids
      ensures site.ids.next == old(site.ids.next) + drawn
      ensures if id.Ok? then id.value == old(site.ids.next) && drawn == req.Draws() else id.error == NoEntropy
    {
      id := site.ids.New();
      drawn := if id.Ok? then 1 else 0;
      if id.Ok? && req.requestId == "" {
        var requestId := site.ids.New();
        if requestId.Err? {
          return Err(requestId.error), 1;
        }
        drawn := 2;
      }
    }

    method Create(c: nat, req: Request, model: string, conversation: Id) returns (r: Result<Execution>)
      requires site.Valid() && site.system.CallerOf(c) == Creating(req, model, conversation)
      modifies site, site.store, site.queue, site.ids, site.sink
      ensures site.Valid() && old(site.moves) <= site.moves
      ensures site.system.CallerOf(c) == if r.Ok? then Sending(req, r.value) else Returned(req, Rejected(r.error))
      ensures r.Ok? ==>
                && Requested(r.value, req, model, conversation) && Waiting(r.value)
                && r.value.id !in old(site.store.executions)
                && r.value.id in site.store.executions && site.store.executions[r.value.id] == r.value
      ensures r.Err? ==> r.error == NoEntropy
    {
      hide Behaviour, After, Apply;
      site.Others(Actors.Call(c));
      var id, drawn := DrawIds(req);
      if id.Err? {
        NoIdentifierIs(site.Setup(), site.system, c, drawn);
        site.Moved(NoIdentifier(c, drawn));
        return Err(id.error);
      }
      DispatchProofs.AlwaysSound(site.Setup(), site.moves);
      NewIdIsFree(site.system);
      NewIdIsNew(site.Setup(), old(site.moves), site.moves);
      var x := NewExecution(id.value, req, model, conversation);
      var err := site.store.CreateExecution(x);
      CreateIs(site.Setup(), site.system, c);
      site.Moved(Move.Create(c));
      return Ok(x);
    }

    /** Sends the job; if the caller's context ends first, the execution is marked as failed instead. */
    method Send(c: nat, req: Request, x: Execution, ended: Error) returns (reply: Reply)
      requires site.Valid() && site.system.CallerOf(c) == Sending(req, x)
      modifies site, site.store, site.queue, site.ids, site.sink
      ensures site.Valid() && old(site.moves) <= site.moves && site.system.CallerOf(c) == Returned(req, reply)
      ensures reply == Accepted(x) || reply.Undelivered?
      ensures reply.Accepted? ==>
                && site.queue.jobs != []
                && site.queue.jobs[|site.queue.jobs| - 1] == Job(x.id, x.agentId, x.ownerId)
      ensures reply.Undelivered? ==> FailedBefore(reply.x, x, ended) && site.Stored(reply.x)
    {
      hide Behaviour, After, Apply;
      site.Others(Actors.Call(c));
      var err := site.queue.Enqueue(JobOf(x), Some(ended));
      if err.None? {
        EnqueueIs(site.Setup(), site.system, c);
        site.Moved(Enqueue(c));
        return Accepted(x);
      }
      CancelSendIs(site.Setup(), site.system, c, ended);
      site.Moved(CancelSend(c, ended));
      reply := Withdraw(c, req, x, ended);
    }

    /** Compensates for a job that was not sent. */
    method Withdraw(c: nat, req: Request, x: Execution, cause: Error) returns (reply: Reply)
      requires site.Valid() && site.system.CallerOf(c) == Withdrawing(req, x, cause)
      modifies site, site.store, site.queue, site.ids, site.sink
      ensures site.Valid() && old(site.moves) <= site.moves && site.system.CallerOf(c) == Returned(req, reply)
      ensures reply.Undelivered? && FailedBefore(reply.x, x, cause) && site.Stored(reply.x)
    {
      hide Behaviour, After, Apply;
      site.Others(Actors.Call(c));
      DispatchProofs.AlwaysSound(site.Setup(), site.moves);
      WithdrawingIsStored(site.system, c);
      var at: Time := *;
      var y := Withdrawn(x, cause, at);
      var err := site.store.UpdateExecution(y);
      WithdrawIs(site.Setup(), site.system, c, at);
      site.Moved(Move.Withdraw(c, at));
      reply := Undelivered(y);
    }

    /** The last job in the queue is that of x, which waits. */
    predicate QueuedLast(x: Execution)
      reads site.queue
    {
      && Waiting(x)
      && site.queue.jobs != [] && site.queue.jobs[|site.queue.jobs| - 1] == Job(x.id, x.agentId, x.ownerId)
    }

    method Deliver(c: nat, req: Request, model: string, conversation: Id, ended: Error) returns (reply: Reply)
      requires site.Valid() && site.system.CallerOf(c) == Creating(req, model, conversation)
      modifies site, site.store, site.queue, site.ids, site.sink
      ensures site.Valid() && old(site.moves) <= site.moves && site.system.CallerOf(c) == Returned(req, reply)
      ensures !reply.Replayed?
      ensures !reply.Rejected? ==> reply.x.id !in old(site.store.executions)
      ensures reply.Rejected? ==> reply.error == NoEntropy
      ensures !reply.Rejected? ==> Requested(reply.x, req, model, conversation)
      ensures reply.Accepted? ==> QueuedLast(reply.x)
      ensures reply.Undelivered? ==> site.Stored(reply.x) && Undispatchable(reply.x, ended)
    {
      hide Behaviour, After, Apply;
      var x := Create(c, req, model, conversation);
      if x.Err? {
        return Rejected(x.error);
      }
      reply := Send(c, req, x.value, ended);
    }

    /** The call once it is known not to be a replay. */
    method Launch(c: nat, req: Request, ended: Error) returns (reply: Reply, ghost at: nat)
      requires site.Valid() && site.system.CallerOf(c) == Authorizing(req)
      modifies site, site.store, site.queue, site.ids, site.sink
      ensures site.Valid() && old(site.moves) <= site.moves && site.system.CallerOf(c) == Returned(req, reply)
      ensures !reply.Replayed? && |old(site.moves)| < at <= |site.moves|
      ensures reply.Rejected? ==> Refusal(at, req, reply.error)
      ensures !reply.Rejected? ==>
                && reply.x.id !in old(site.store.executions)
                && HadAgent(at, req, reply.x.model) && Asked(reply.x, req)
      ensures reply.Accepted? ==> QueuedLast(reply.x)
      ensures reply.Undelivered? ==> site.Stored(reply.x) && Undispatchable(reply.x, ended)
    {
      hide Behaviour, After, Apply, QueuedLast, Requested, Undispatchable, Waiting;
      var agent := FindAgent(c, req);
      at := |site.moves|;
      ghost var found := site.moves;
      if agent.Err? {
        return Rejected(agent.error), at;
      }
      var conversation := Converse(c, req, agent.value.model);
      assert site.moves[..at] == found[..at];
      if conversation.Err? {
        return Rejected(conversation.error), at;
      }
      ghost var before := site.moves;
      reply := Deliver(c, req, agent.value.model, conversation.value, ended);
      assert site.moves[..at] == found[..at];
      if !reply.Rejected? {
        StoredSinceThen(site.Setup(), old(site.moves), before, reply.x.id);
        AskedFor(reply.x, req, agent.value.model, conversation.value);
      }
    }

    /** Why a call is turned away: the agent was not there at move `at`, or what is needed then is not there now. */
    ghost predicate Refusal(at: nat, req: Request, e: Error)
      reads site, site.store
    {
      e == NoEntropy || (e == NotFound && LackedAgent(at, req)) || Unconversed(req, e)
    }

    /**
     * The whole call, with everybody else moving between its steps. Whatever happens, the system goes through a
     * behaviour of the dispatch protocol in which this call is the caller c, and c ends with the reply that is
     * returned.
     */
    method StartExecution(c: nat, req: Request, ended: Error) returns (reply: Reply, ghost at: nat)
      requires site.Valid() && site.system.CallerOf(c).Absent?
      modifies site, site.store, site.queue, site.ids, site.sink
      ensures site.Valid() && old(site.moves) <= site.moves && site.system.CallerOf(c) == Returned(req, reply)
      ensures Blank(req.input) <==> reply == Rejected(InputRequired)
      ensures reply.Rejected? && reply.error != InputRequired ==>
                |old(site.moves)| <= at <= |site.moves| && Refusal(at, req, reply.error)
      ensures reply.Accepted? || reply.Undelivered? ==>
                && |old(site.moves)| <= at <= |site.moves| && HadAgent(at, req, reply.x.model)
                && Asked(reply.x, req) && reply.x.id !in old(site.store.executions)
      ensures reply.Accepted? ==> QueuedLast(reply.x)
      ensures reply.Undelivered? ==> site.Stored(reply.x) && Undispatchable(reply.x, ended)
      ensures reply.Replayed? ==>
                site.Stored(reply.x) && reply.x.ownerId == req.ownerId && reply.x.idempotencyKey == req.key != ""
      ensures !Blank(req.input) && req.key != ""
              && (exists e :: e in old(site.store.executions) && Replays(old(site.store.executions[e]), req)) ==>
                reply.Replayed?
    {
      hide Behaviour, After, Apply, Blank, QueuedLast, Asked, Undispatchable;
      at := |site.moves|;
      Enter(c, req);
      if Blank(req.input) {
        return Rejected(InputRequired), at;
      }
      if req.key != "" {
        TakenIff(site.store.View(), req);
        var existing := Find(c, req);
        if existing.Ok? {
          return Replayed(existing.value), at;
        }
      }
      ghost var before := site.moves;
      reply, at := Launch(c, req, ended);
      if !reply.Rejected? {
        StoredSinceThen(site.Setup(), old(site.moves), before, reply.x.id);
      }
    }

    /**
     * Reads the agent, and later writes it back edited with the next version number. Others may have moved in between:
     * what is written is an edit of what was read at move `at`, and not of what is stored by then.
     */
    method UpdateAgent(ownerId: string, agentId: Id, input: Versions.Input)
      returns (r: Result<Agent>, ghost at: nat)
      requires site.Valid()
      modifies site, site.store, site.queue, site.ids, site.sink
      ensures site.Valid() && |old(site.moves)| <= at <= |site.moves| && old(site.moves) <= site.moves
      ensures Versions.Complaint(input).Some? ==>
                r == Err(Versions.Complaint(input).value) && site.moves == old(site.moves)
      ensures r.Ok? ==>
                && !Blank(input.name) && !Blank(input.model)
                && 0.0 <= input.temperature <= 2.0 && 1 <= input.maxTokens <= 1000000
      ensures r.Ok? ==>
                var agents := After(site.Setup(), site.moves[..at]).world.store.agents;
                && agentId in agents && agents[agentId].ownerId == ownerId
                && r.value == Agent(agentId, ownerId, Trim(input.name), Trim(input.description), input.systemPrompt,
                                    input.model, input.temperature, input.maxTokens, input.tools,
                                    agents[agentId].version + 1)
                && agentId in site.store.agents && site.store.agents[agentId] == r.value
      ensures r.Err? && Versions.Complaint(input).None? ==>
                && r.error == NotFound
                && !(agentId in site.store.agents && site.store.agents[agentId].ownerId == ownerId)
    {
      hide Behaviour, After, Apply;
      at := |site.moves|;
      var complaint := Versions.Complaint(input);
      if complaint.Some? {
        return Err(complaint.value), at;
      }
      AgentsUnderTheirIds(site.Setup(), site.moves);
      r := site.store.GetAgent(ownerId, agentId);
      assert site.moves[..at] == site.moves;
      if r.Err? {
        return;
      }
      ghost var read := site.moves;
      site.Others(Actors.Nobody);
      assert site.moves[..at] == read;
      r := Ok(Versions.Edited(r.value, input));
      var err := site.store.UpdateAgent(r.value);
      if err.Some? {
        return Err(err.value), at;
      }
      ghost var before := site.moves;
      PutAgentIs(site.Setup(), site.system, r.value);
      site.Moved(PutAgent(r.value));
      assert site.moves[..at] == before[..at];
      Versions.ComplaintMeans(input);
    }

    /** Deletes the owner's agent, and nobody else's. */
    method DeleteAgent(ownerId: string, agentId: Id) returns (err: Option<Error>, ghost at: nat)
      requires site.Valid()
      modifies site, site.store, site.queue, site.ids, site.sink
      ensures site.Valid() && old(site.moves) <= site.moves && |old(site.moves)| <= at <= |site.moves|
      ensures var agents := After(site.Setup(), site.moves[..at]).world.store.agents;
              && (err.None? <==> agentId in agents && agents[agentId].ownerId == ownerId)
              && site.store.agents == if err.None? then agents - {agentId} else agents
      ensures err.Some? ==> err == Some(NotFound)
    {
      hide Behaviour, After, Apply;
      site.Others(Actors.Nobody);
      at := |site.moves|;
      ghost var before := site.moves;
      assert before[..at] == before;
      err := site.store.DeleteAgent(ownerId, agentId);
      RemoveAgentIs(site.Setup(), site.system, ownerId, agentId);
      site.Moved(RemoveAgent(ownerId, agentId));
      assert site.moves[..at] == before;
    }
  }

  lemma Opens(s: State, c: nat, req: Request, model: string, v: Conversation)
    requires s.CallerOf(c) == Conversing(req, model) && req.conversation.None?
    requires v == Conversation(s.nextId, req.ownerId, req.agentId, Title(req.input))
    ensures Conversed(s, c) ==
            WithCaller(WithStore(s, S.PutConversation(s.world.store, v)), c, Creating(req, model, v.id))
            .(nextId := v.id + 1)
  {
    hide Title;
  }

  /** y is x, failed because it could not be dispatched, and otherwise unchanged. */
  predicate FailedBefore(y: Execution, x: Execution, cause: Error) {
    && y == x.(status := Failed, error := Some(Wrapped("dispatch execution", cause)), completedAt := y.completedAt)
    && y.completedAt.Some?
  }

  /** x is what the request asks for, of its owner, on its agent with this model, in conversation v. */
  predicate Requested(x: Execution, req: Request, model: string, v: Id) {
    && x.ownerId == req.ownerId && x.agentId == req.agentId && x.conversationId == v
    && x.input == req.input && x.idempotencyKey == req.key && x.model == model && x.output == ""
    && x.retryCount == 0 && x.promptTokens == 0 && x.outputTokens == 0 && x.startedAt.None?
    && (if req.requestId == "" then x.requestId.Drawn? else x.requestId == Given(req.requestId))
  }

  /** ... and in the conversation that it names. */
  predicate Asked(x: Execution, req: Request) {
    && Requested(x, req, x.model, x.conversationId)
    && (req.conversation.Some? ==> x.conversationId == req.conversation.value)
  }

  lemma AskedFor(x: Execution, req: Request, model: string, v: Id)
    requires Requested(x, req, model, v) && (req.conversation.Some? ==> v == req.conversation.value)
    ensures Asked(x, req) && x.model == model
  {
  }

  /** x has not been run, and has not failed. */
  predicate Waiting(x: Execution) {
    x.status == Queued && x.error.None? && x.startedAt.None? && x.completedAt.None?
  }

  /** x has failed for want of a place in the queue. */
  predicate Undispatchable(x: Execution, cause: Error) {
    x.status == Failed && x.error == Some(Wrapped("dispatch execution", cause)) && x.completedAt.Some?
  }

  /** x answers another request of the same owner with the same key. */
  predicate Replays(x: Execution, req: Request) {
    x.ownerId == req.ownerId && x.idempotencyKey == req.key
  }

  lemma TakenIff(s: S.Store, req: Request)
    ensures KeyTaken(s, req.ownerId, req.key) <==> exists e :: e in s.executions && Replays(s.executions[e], req)
  {
    if e :| e in s.executions && Replays(s.executions[e], req) {
      assert S.HasKey(s.executions[e], req.ownerId, req.key);
    }
  }

  lemma NewIdIsNew(cfg: Config, before: seq<Move>, after: seq<Move>)
    requires Behaviour(cfg, after) && before <= after
    ensures After(cfg, after).nextId !in After(cfg, before).world.store.executions
  {
    hide Behaviour, After;
    DispatchProofs.AlwaysSound(cfg, after);
    NewIdIsFree(After(cfg, after));
    StoredSinceThen(cfg, before, after, After(cfg, after).nextId);
  }

  /** What is not stored now was not stored earlier. */
  lemma StoredSinceThen(cfg: Config, before: seq<Move>, after: seq<Move>, e: Id)
    requires Behaviour(cfg, after) && before <= after && e !in After(cfg, after).world.store.executions
    ensures e !in After(cfg, before).world.store.executions
  {
    hide Behaviour, After;
    assert after[..|before|] == before;
    DispatchLaws.StatusOnlyAdvances(cfg, after, |before|, e);
  }

  lemma StoredUnderItsId(s: State, x: Execution)
    requires Sound(s) && x in s.world.store.executions.Values
    ensures x.id in s.world.store.executions && s.world.store.executions[x.id] == x
  {
    var e :| e in s.world.store.executions && s.world.store.executions[e] == x;
    assert ExecutionOk(s, e);
  }

  lemma NewIdIsFree(s: State)
    requires Sound(s)
    ensures s.nextId !in s.world.store.executions && s.nextId !in s.world.store.conversations
  {
    assert IdsOk(s);
  }

  lemma WithdrawingIsStored(s: State, c: nat)
    requires Sound(s)
    ensures s.CallerOf(c).Withdrawing? ==> s.CallerOf(c).x.id in s.world.store.executions
  {
    assert CallerOk(s, c);
  }

  lemma {:induction false} AgentsUnderTheirIds(cfg: Config, ms: seq<Move>)
    ensures forall a :: a in After(cfg, ms).world.store.agents ==> After(cfg, ms).world.store.agents[a].id == a
  {
    hide Apply;
    if ms != [] {
      AgentsUnderTheirIds(cfg, ms[..|ms| - 1]);
      AgentsStep(cfg, After(cfg, ms[..|ms| - 1]), ms[|ms| - 1]);
    }
  }

  lemma AgentsStep(cfg: Config, s: State, m: Move)
    requires forall a :: a in s.world.store.agents ==> s.world.store.agents[a].id == a
    ensures forall a :: a in Apply(cfg, s, m).world.store.agents ==> Apply(cfg, s, m).world.store.agents[a].id == a
  {
    hide Apply;
    if m.PutAgent? || m.RemoveAgent? {
      AgentMoves(cfg, s, m);
    } else {
      AgentsFrame(cfg, s, m);
    }
  }

  lemma AgentMoves(cfg: Config, s: State, m: Move)
    requires m.PutAgent? || m.RemoveAgent?
    ensures var before, after := s.world.store.agents, Apply(cfg, s, m).world.store.agents;
            if m.PutAgent? then after == before[m.agent.id := m.agent]
            else (after == before || after == before - {m.agentId})
  {
    hide Arrived, LookedUp, Authorized, Conversed, Created, Unidentified, Enqueued, SendCancelled, WithdrawnBy,
      Dequeued,
      Loaded, Checked, Acted, RecordRead, StepsRead;
  }

  lemma AgentsFrame(cfg: Config, s: State, m: Move)
    requires !m.PutAgent? && !m.RemoveAgent?
    ensures var st := Apply(cfg, s, m).world.store;
            st == st.(agents := s.world.store.agents)
  {
    hide Apply;
    if DispatchLaws.Handling(m) {
      DispatchLaws.HandlingMoves(cfg, s, m);
    } else if m.Act? {
      ActSparesAgents(cfg, s, m);
    } else if m.Converse? || m.Create? || m.Withdraw? {
      WritesSpareAgents(cfg, s, m);
    } else if m.ReadRecord? || m.ReadSteps? {
      ReadsSpareAgents(cfg, s, m);
    } else {
      DispatchLaws.TalkingMoves(cfg, s, m);
    }
  }

  lemma ActSparesAgents(cfg: Config, s: State, m: Move)
    requires m.Act?
    ensures var st := Apply(cfg, s, m).world.store;
            st == st.(agents := s.world.store.agents)
  {
    hide Arrived, LookedUp, Authorized, Conversed, Created, Unidentified, SendCancelled, WithdrawnBy, RecordRead,
      StepsRead, AgentPut, AgentRemoved, Enqueued, Dequeued, Loaded, Checked;
  }

  lemma WritesSpareAgents(cfg: Config, s: State, m: Move)
    requires m.Converse? || m.Create? || m.Withdraw?
    ensures var st := Apply(cfg, s, m).world.store;
            st == st.(agents := s.world.store.agents)
  {
    hide Apply, KeyTaken, NewExecution, Withdrawn, Joining, Title;
    match m
    case Converse(c) => ConverseIs(cfg, s, c);
    case Create(c) => CreateIs(cfg, s, c);
    case Withdraw(c, at) => WithdrawIs(cfg, s, c, at);
  }

  lemma ReadsSpareAgents(cfg: Config, s: State, m: Move)
    requires m.ReadRecord? || m.ReadSteps?
    ensures Apply(cfg, s, m).world == s.world
  {
    hide Arrived, LookedUp, Authorized, Conversed, Created, Unidentified, Enqueued, SendCancelled, WithdrawnBy,
      Dequeued, Loaded, Checked, Acted, AgentPut, AgentRemoved;
  }
}
