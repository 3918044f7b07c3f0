/** What the in-memory store holds, and each of its operations as one atomic change of that value. */
module Store {
  import opened Domain

  datatype Store = Store(
    agents: map<Id, Agent>,
    executions: map<Id, Execution>,
    steps: map<Id, seq<Step>>,
    conversations: map<Id, Conversation>,
    messages: map<Id, seq<Message>>)
  {
    function StepsOf(e: Id): seq<Step> {
      if e in steps then steps[e] else []
    }

    function MessagesOf(c: Id): seq<Message> {
      if c in messages then messages[c] else []
    }

    predicate OwnsConversation(owner: string, c: Id) {
      c in conversations && conversations[c].ownerId == owner
    }

    predicate OwnsExecution(owner: string, e: Id) {
      e in executions && executions[e].ownerId == owner
    }

    predicate OwnsAgent(owner: string, a: Id) {
      a in agents && agents[a].ownerId == owner
    }
  }

  const EMPTY := Store(map[], map[], map[], map[], map[])

  function PutAgent(s: Store, a: Agent): Store {
    s.(agents := s.agents[a.id := a])
  }

  function RemoveAgent(s: Store, a: Id): Store {
    s.(agents := s.agents - {a})
  }

  function PutConversation(s: Store, c: Conversation): Store {
    s.(conversations := s.conversations[c.id := c])
  }

  function PutMessage(s: Store, m: Message): Store {
    s.(messages := s.messages[m.conversationId := s.MessagesOf(m.conversationId) + [m]])
  }

  function PutExecution(s: Store, x: Execution): Store {
    s.(executions := s.executions[x.id := x])
  }

  function PutStep(s: Store, p: Step): Store {
    s.(steps := s.steps[p.executionId := s.StepsOf(p.executionId) + [p]])
  }

  /** The suffix that a listing limited to n messages returns. */
  function Recent(ms: seq<Message>, n: nat): (r: seq<Message>)
    ensures |r| == if |ms| > n then n else |ms|
    ensures r == ms[|ms| - |r|..]
  {
    if |ms| > n then ms[|ms| - n..] else ms
  }

  predicate HasKey(x: Execution, owner: string, key: string) {
    x.ownerId == owner && x.idempotencyKey == key
  }

  /** The executions an owner started on an agent. */
  function Matching(s: Store, owner: string, agent: Id): set<Id> {
    set e | e in s.executions && s.executions[e].ownerId == owner && s.executions[e].agentId == agent
  }

  class Memory {
    var agents: map<Id, Agent>
    var executions: map<Id, Execution>
    var steps: map<Id, seq<Step>>
    var conversations: map<Id, Conversation>
    var messages: map<Id, seq<Message>>

    function View(): Store
      reads this
    {
      Store(agents, executions, steps, conversations, messages)
    }

    constructor ()
      ensures View() == EMPTY
    {
      agents, executions, steps, conversations, messages := map[], map[], map[], map[], map[];
    }

    method CreateAgent(agent: Agent) returns (err: Option<Error>)
      modifies this
      ensures err == if agent.id in old(agents) then Some(Conflict) else None
      ensures View() == old(View()).(agents := if err.None? then old(agents)[agent.id := agent] else old(agents))
    {
      if agent.id in agents {
        return Some(Conflict);
      }
      agents := agents[agent.id := agent];
      return None;
    }

    method GetAgent(owner: string, agent: Id) returns (r: Result<Agent>)
      ensures r == if agent in agents && agents[agent].ownerId == owner then Ok(agents[agent]) else Err(NotFound)
      ensures r.Ok? ==> r.value.ownerId == owner
    {
      if agent !in agents || agents[agent].ownerId != owner {
        return Err(NotFound);
      }
      return Ok(agents[agent]);
    }

    method UpdateAgent(agent: Agent) returns (err: Option<Error>)
      modifies this
      ensures err.None? <==> agent.id in old(agents) && old(agents)[agent.id].ownerId == agent.ownerId
      ensures err.Some? ==> err == Some(NotFound)
      ensures View() == old(View()).(agents := if err.None? then old(agents)[agent.id := agent] else old(agents))
    {
      if agent.id !in agents || agents[agent.id].ownerId != agent.ownerId {
        return Some(NotFound);
      }
      agents := agents[agent.id := agent];
      return None;
    }

    method DeleteAgent(owner: string, agent: Id) returns (err: Option<Error>)
      modifies this
      ensures err.None? <==> agent in old(agents) && old(agents)[agent].ownerId == owner
      ensures err.Some? ==> err == Some(NotFound)
      ensures View() == old(View()).(agents := if err.None? then old(agents) - {agent} else old(agents))
    {
      if agent !in agents || agents[agent].ownerId != owner {
        return Some(NotFound);
      }
      agents := agents - {agent};
      return None;
    }

    method CreateConversation(c: Conversation) returns (err: Option<Error>)
      modifies this
      ensures err == if c.id in old(conversations) then Some(Conflict) else None
      ensures View() == old(View()).(conversations := if err.None? then old(conversations)[c.id := c]
                                                      else old(conversations))
    {
      if c.id in conversations {
        return Some(Conflict);
      }
      conversations := conversations[c.id := c];
      return None;
    }

    method GetConversation(owner: string, c: Id) returns (r: Result<Conversation>)
      ensures r == if c in conversations && conversations[c].ownerId == owner then Ok(conversations[c])
                   else Err(NotFound)
      ensures r.Ok? ==> r.value.ownerId == owner
    {
      if c !in conversations || conversations[c].ownerId != owner {
        return Err(NotFound);
      }
      return Ok(conversations[c]);
    }

    /** Checks that the conversation exists, but not whose it is. */
    method AppendMessage(m: Message) returns (err: Option<Error>)
      modifies this
      ensures err == if m.conversationId in old(conversations) then None else Some(NotFound)
      ensures err.Some? ==> View() == old(View())
      ensures err.None? ==>
                View() == old(View()).(
                  messages := old(messages)[m.conversationId := old(View().MessagesOf(m.conversationId)) + [m]])
    {
      if m.conversationId !in conversations {
        return Some(NotFound);
      }
      var log := if m.conversationId in messages then messages[m.conversationId] else [];
      messages := messages[m.conversationId := log + [m]];
      return None;
    }

    method ListMessages(owner: string, c: Id, limit: nat) returns (r: Result<seq<Message>>)
      ensures r.Ok? <==> c in conversations && conversations[c].ownerId == owner
      ensures r.Err? ==> r.error == NotFound
      ensures r.Ok? ==>
                var log := if c in messages then messages[c] else [];
                r.value == if |log| > limit then log[|log| - limit..] else log
    {
      if c !in conversations || conversations[c].ownerId != owner {
        return Err(NotFound);
      }
      var log := if c in messages then messages[c] else [];
      if |log| > limit {
        log := log[|log| - limit..];
      }
      return Ok(log);
    }

    method CreateExecution(x: Execution) returns (err: Option<Error>)
      modifies this
      ensures err == if x.id in old(executions) then Some(Conflict) else None
      ensures View() == old(View()).(executions := if err.None? then old(executions)[x.id := x] else old(executions))
    {
      if x.id in executions {
        return Some(Conflict);
      }
      executions := executions[x.id := x];
      return None;
    }

    method GetExecution(owner: string, e: Id) returns (r: Result<Execution>)
      ensures r == if e in executions && executions[e].ownerId == owner then Ok(executions[e]) else Err(NotFound)
      ensures r.Ok? ==> r.value.ownerId == owner
    {
      if e !in executions || executions[e].ownerId != owner {
        return Err(NotFound);
      }
      return Ok(executions[e]);
    }

    /** Scans the executions in whatever order the map yields them. */
    method GetByIdempotencyKey(owner: string, key: string) returns (r: Result<Execution>)
      ensures r.Ok? ==> r.value in executions.Values && r.value.ownerId == owner && r.value.idempotencyKey == key
      ensures r.Err? ==>
                && r.error == NotFound
                && forall e :: e in executions ==>
                     !(executions[e].ownerId == owner && executions[e].idempotencyKey == key)
    {
      var left := executions.Keys;
      while left != {}
        invariant left <= executions.Keys
        invariant forall e :: e in executions && e !in left ==> !HasKey(executions[e], owner, key)
        decreases left
      {
        var e :| e in left;
        if HasKey(executions[e], owner, key) {
          return Ok(executions[e]);
        }
        left := left - {e};
      }
      return Err(NotFound);
    }

    /** Checks that the execution exists, but not whose it is. */
    method UpdateExecution(x: Execution) returns (err: Option<Error>)
      modifies this
      ensures err == if x.id in old(executions) then None else Some(NotFound)
      ensures View() == old(View()).(executions := if err.None? then old(executions)[x.id := x] else old(executions))
    {
      if x.id !in executions {
        return Some(NotFound);
      }
      executions := executions[x.id := x];
      return None;
    }

    method AppendStep(p: Step) returns (err: Option<Error>)
      modifies this
      ensures err == if p.executionId in old(executions) then None else Some(NotFound)
      ensures err.Some? ==> View() == old(View())
      ensures err.None? ==>
                View() == old(View()).(
                  steps := old(steps)[p.executionId := old(View().StepsOf(p.executionId)) + [p]])
    {
      if p.executionId !in executions {
        return Some(NotFound);
      }
      var log := if p.executionId in steps then steps[p.executionId] else [];
      steps := steps[p.executionId := log + [p]];
      return None;
    }

    /** The second lock section of Trace; the first is GetExecution. */
    method ListSteps(e: Id) returns (r: seq<Step>)
      ensures r == if e in steps then steps[e] else []
    {
      r := if e in steps then steps[e] else [];
    }

    /** Some executions of this owner and agent, each once, in map order, as many as a positive limit allows. */
    method ListAgentExecutions(owner: string, agent: Id, limit: int)
      returns (r: seq<Execution>, ghost from: seq<Id>)
      ensures |from| == |r|
      ensures forall i :: 0 <= i < |r| ==>
                && from[i] in executions && r[i] == executions[from[i]]
                && r[i].ownerId == owner && r[i].agentId == agent
      ensures forall i, j :: 0 <= i < j < |r| ==> from[i] != from[j]
      ensures |r| == if 1 <= limit <= |Matching(View(), owner, agent)| then limit else |Matching(View(), owner, agent)|
      ensures !(|r| == limit >= 1) ==>
                forall e :: e in executions && executions[e].ownerId == owner && executions[e].agentId == agent ==>
                  e in from
    {
      hide Matching, Listed;
      ghost var all := Matching(View(), owner, agent);
      MatchingIff(View(), owner, agent);
      r, from := [], [];
      var left := executions.Keys;
      NothingListed(View(), all);
      while left != {}
        invariant left <= executions.Keys
        invariant limit >= 1 ==> |r| < limit
        invariant Listed(View(), all, left, r, from)
        decreases left
      {
        var e :| e in left;
        ListedNext(View(), all, left, r, from, e);
        left := left - {e};
        if executions[e].ownerId == owner && executions[e].agentId == agent {
          r, from := r + [executions[e]], from + [e];
          if |r| == limit {
            ListingOf(View(), all, left, r, from);
            return;
          }
        }
      }
      ListingOf(View(), all, left, r, from);
    }
  }

  /** r lists what from names, distinct members of all, and all that is missing is left. */
  ghost predicate Listed(s: Store, all: set<Id>, left: set<Id>, r: seq<Execution>, from: seq<Id>) {
    && |from| == |r|
    && (forall i :: 0 <= i < |r| ==>
          from[i] in all && from[i] !in left && from[i] in s.executions && r[i] == s.executions[from[i]])
    && (forall i, j :: 0 <= i < j < |r| ==> from[i] != from[j])
    && (forall e :: e in all ==> e in left || e in from)
    && |all * left| + |r| == |all|
  }

  lemma NothingListed(s: Store, all: set<Id>)
    requires all <= s.executions.Keys
    ensures Listed(s, all, s.executions.Keys, [], [])
  {
    assert all * s.executions.Keys == all;
  }

  lemma ListedNext(s: Store, all: set<Id>, left: set<Id>, r: seq<Execution>, from: seq<Id>, e: Id)
    requires Listed(s, all, left, r, from) && e in left && e in s.executions
    ensures if e in all then Listed(s, all, left - {e}, r + [s.executions[e]], from + [e])
            else Listed(s, all, left - {e}, r, from)
  {
    TakeOne(all, left, e);
  }

  lemma ListingOf(s: Store, all: set<Id>, left: set<Id>, r: seq<Execution>, from: seq<Id>)
    requires Listed(s, all, left, r, from)
    ensures |from| == |r| <= |all|
    ensures forall i :: 0 <= i < |r| ==> from[i] in all && from[i] in s.executions && r[i] == s.executions[from[i]]
    ensures forall i, j :: 0 <= i < j < |r| ==> from[i] != from[j]
    ensures left == {} ==> |r| == |all| && forall e :: e in all ==> e in from
  {
  }

  lemma MatchingIff(s: Store, owner: string, agent: Id)
    ensures Matching(s, owner, agent) <= s.executions.Keys
    ensures forall e :: e in s.executions ==>
              (e in Matching(s, owner, agent) <==> s.executions[e].ownerId == owner && s.executions[e].agentId == agent)
  {
  }

  lemma TakeOne(all: set<Id>, left: set<Id>, e: Id)
    requires e in left
    ensures |all * left| == |all * (left - {e})| + if e in all then 1 else 0
  {
    if e in all {
      assert all * left == all * (left - {e}) + {e};
    } else {
      assert all * left == all * (left - {e});
    }
  }
}
