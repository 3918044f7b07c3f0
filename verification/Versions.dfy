/** Agent versions: the read-modify-write of Service.UpdateAgent over the SQL schema's constraints. */
module Versions {
  import opened Domain
  import opened Text

  datatype AgentRow = AgentRow(ownerId: string, name: string, description: string, currentVersion: int)

  datatype VersionRow = VersionRow(
    systemPrompt: string,
    model: string,
    temperature: real,
    maxTokens: int,
    tools: seq<string>)

  /** The tables agents and agent_versions; the second has its unique key (agent_id, version) as map key. */
  datatype Tables = Tables(agents: map<Id, AgentRow>, versions: map<(Id, int), VersionRow>)

  function RowOf(a: Agent): AgentRow {
    AgentRow(a.ownerId, a.name, a.description, a.version)
  }

  function VersionOf(a: Agent): VersionRow {
    VersionRow(a.systemPrompt, a.model, a.temperature, a.maxTokens, a.tools)
  }

  /** Another agent of this owner already has this name. */
  predicate NameTaken(db: Tables, a: Agent) {
    exists other :: other in db.agents && other != a.id &&
                    db.agents[other].ownerId == a.ownerId && db.agents[other].name == a.name
  }

  predicate Owned(db: Tables, owner: string, id: Id) {
    id in db.agents && db.agents[id].ownerId == owner
  }

  function Inserted(db: Tables, a: Agent): Tables {
    Tables(db.agents[a.id := RowOf(a)], db.versions[(a.id, a.version) := VersionOf(a)])
  }

  /** The delete cascades to the agent's versions. */
  function Deleted(db: Tables, id: Id): Tables {
    Tables(db.agents - {id}, map k | k in db.versions && k.0 != id :: db.versions[k])
  }

  /** The join of an agent with the row of its current version; an agent without that row is not found. */
  function Joined(db: Tables, owner: string, id: Id): Result<Agent> {
    if Owned(db, owner, id) && (id, db.agents[id].currentVersion) in db.versions then
      var r, v := db.agents[id], db.versions[(id, db.agents[id].currentVersion)];
      Ok(Agent(id, r.ownerId, r.name, r.description, v.systemPrompt, v.model, v.temperature, v.maxTokens, v.tools,
          r.currentVersion))
    else Err(NotFound)
  }

  /** The database reports a violated unique key by its SQLSTATE. */
  const UNIQUE_VIOLATION := External(23505)

  /** Each transaction runs its statements in order and rolls back at the first that fails. */
  class Database {
    var agents: map<Id, AgentRow>
    var versions: map<(Id, int), VersionRow>

    function View(): Tables
      reads this
    {
      Tables(agents, versions)
    }

    constructor ()
      ensures View() == Tables(map[], map[])
    {
      agents, versions := map[], map[];
    }

    method CreateAgent(a: Agent) returns (err: Option<Error>)
      modifies this
      ensures err.None? <==>
                && a.id !in old(agents) && (a.id, a.version) !in old(versions)
                && forall o :: o in old(agents) ==>
                     !(old(agents)[o].ownerId == a.ownerId && old(agents)[o].name == a.name)
      ensures err.Some? ==> View() == old(View())
      ensures err.None? ==>
                && agents == old(agents)[a.id := AgentRow(a.ownerId, a.name, a.description, a.version)]
                && versions == old(versions)[(a.id, a.version) :=
                                 VersionRow(a.systemPrompt, a.model, a.temperature, a.maxTokens, a.tools)]
    {
      var savedAgents := agents;
      if a.id in agents || NameTaken(View(), a) {
        return Some(UNIQUE_VIOLATION);
      }
      agents := agents[a.id := RowOf(a)];
      if (a.id, a.version) in versions {
        agents := savedAgents;
        return Some(UNIQUE_VIOLATION);
      }
      versions := versions[(a.id, a.version) := VersionOf(a)];
      return None;
    }

    method GetAgent(owner: string, id: Id) returns (r: Result<Agent>)
      ensures r == Joined(View(), owner, id)
      ensures r.Ok? <==>
                && id in agents && agents[id].ownerId == owner && (id, agents[id].currentVersion) in versions
      ensures r.Err? ==> r.error == NotFound
      ensures r.Ok? ==>
                var row, v := agents[id], versions[(id, agents[id].currentVersion)];
                r.value == Agent(id, owner, row.name, row.description, v.systemPrompt, v.model, v.temperature,
                                 v.maxTokens, v.tools, row.currentVersion)
    {
      if id !in agents || agents[id].ownerId != owner || (id, agents[id].currentVersion) !in versions {
        return Err(NotFound);
      }
      var row, v := agents[id], versions[(id, agents[id].currentVersion)];
      return Ok(Agent(id, row.ownerId, row.name, row.description,
                      v.systemPrompt, v.model, v.temperature, v.maxTokens, v.tools, row.currentVersion));
    }

    method UpdateAgent(a: Agent) returns (err: Option<Error>)
      modifies this
      ensures err == Some(NotFound) <==> !(a.id in old(agents) && old(agents)[a.id].ownerId == a.ownerId)
      ensures err.None? <==>
                && a.id in old(agents) && old(agents)[a.id].ownerId == a.ownerId
                && (a.id, a.version) !in old(versions)
                && forall o :: o in old(agents) && o != a.id ==>
                     !(old(agents)[o].ownerId == a.ownerId && old(agents)[o].name == a.name)
      ensures err.Some? ==> View() == old(View()) && err.value in {NotFound, UNIQUE_VIOLATION}
      ensures err.None? ==>
                && agents == old(agents)[a.id := AgentRow(a.ownerId, a.name, a.description, a.version)]
                && versions == old(versions)[(a.id, a.version) :=
                                 VersionRow(a.systemPrompt, a.model, a.temperature, a.maxTokens, a.tools)]
    {
      var savedAgents := agents;
      if !Owned(View(), a.ownerId, a.id) {
        return Some(NotFound);
      }
      if NameTaken(View(), a) {
        return Some(UNIQUE_VIOLATION);
      }
      agents := agents[a.id := RowOf(a)];
      if (a.id, a.version) in versions {
        agents := savedAgents;
        return Some(UNIQUE_VIOLATION);
      }
      versions := versions[(a.id, a.version) := VersionOf(a)];
      return None;
    }

    method DeleteAgent(owner: string, id: Id) returns (err: Option<Error>)
      modifies this
      ensures err.None? <==> id in old(agents) && old(agents)[id].ownerId == owner
      ensures err.Some? ==> err == Some(NotFound) && View() == old(View())
      ensures err.None? ==>
                && agents == old(agents) - {id}
                && forall k :: k in versions <==> k in old(versions) && k.0 != id
      ensures forall k :: k in versions ==> k in old(versions) && versions[k] == old(versions)[k]
    {
      if !Owned(View(), owner, id) {
        return Some(NotFound);
      }
      agents := agents - {id};
      versions := map k | k in versions && k.0 != id :: versions[k];
      return None;
    }
  }

  datatype Input = Input(
    name: string,
    description: string,
    systemPrompt: string,
    model: string,
    temperature: real,
    maxTokens: int,
    tools: seq<string>)

  /** validateAgent: the first complaint about an input. */
  function Complaint(i: Input): Option<Error> {
    if Blank(i.name) then Some(Invalid("name"))
    else if Blank(i.model) then Some(Invalid("model"))
    else if i.temperature < 0.0 || i.temperature > 2.0 then Some(Invalid("temperature"))
    else if i.maxTokens < 1 || i.maxTokens > 1_000_000 then Some(Invalid("max_tokens"))
    else None
  }

  /** What Service.UpdateAgent writes back after reading a. */
  function Edited(a: Agent, i: Input): Agent {
    Agent(a.id, a.ownerId, Trim(i.name), Trim(i.description), i.systemPrompt, i.model, i.temperature, i.maxTokens,
        i.tools, a.version + 1)
  }

  /** Which inputs are accepted, and what is said of the others. */
  lemma ComplaintMeans(i: Input)
    ensures Complaint(i).None? <==>
            && !Blank(i.name) && !Blank(i.model) && 0.0 <= i.temperature <= 2.0 && 1 <= i.maxTokens <= 1000000
    ensures Complaint(i) == Some(Invalid("name")) <==> Blank(i.name)
    ensures Complaint(i) == Some(Invalid("model")) <==> !Blank(i.name) && Blank(i.model)
    ensures Complaint(i) == Some(Invalid("temperature")) <==>
            !Blank(i.name) && !Blank(i.model) && !(0.0 <= i.temperature <= 2.0)
    ensures Complaint(i) == Some(Invalid("max_tokens")) <==>
            !Blank(i.name) && !Blank(i.model) && 0.0 <= i.temperature <= 2.0 && !(1 <= i.maxTokens <= 1000000)
  {
    hide Blank;
    FieldsDiffer();
  }

  lemma FieldsDiffer()
    ensures "name" != "model" && "name" != "temperature" && "name" != "max_tokens"
    ensures "model" != "temperature" && "model" != "max_tokens" && "temperature" != "max_tokens"
  {
    assert |"name"| == 4 && |"model"| == 5 && |"temperature"| == 11 && |"max_tokens"| == 10;
  }

  // ---------- Interleaved create, read, write and delete transactions ----------

  /** A client between the read and the write of an update. */
  datatype Client = Idle | Editing(read: Agent, input: Input)

  datatype State = State(db: Tables, clients: map<nat, Client>, history: map<Id, seq<Agent>>, nextId: Id)

  const START := State(Tables(map[], map[]), map[], map[], 0)

  datatype Move =
    | Create(owner: string, input: Input)
    | Read(client: nat, owner: string, id: Id, change: Input)
    | Write(client: nat)
    | Delete(owner: string, id: Id)

  function ClientOf(s: State, c: nat): Client {
    if c in s.clients then s.clients[c] else Idle
  }

  function HistoryOf(s: State, id: Id): seq<Agent> {
    if id in s.history then s.history[id] else []
  }

  function Created(owner: string, i: Input, id: Id): Agent {
    Agent(id, owner, Trim(i.name), Trim(i.description), i.systemPrompt, i.model, i.temperature, i.maxTokens, i.tools, 1)
  }

  /** The write of this client would commit. */
  predicate Commits(db: Tables, a: Agent) {
    Owned(db, a.ownerId, a.id) && !NameTaken(db, a) && (a.id, a.version) !in db.versions
  }

  /** history keeps, for each agent ever created, the configurations committed for it in order. */
  function Apply(s: State, m: Move): State {
    match m
    case Create(owner, i) =>
      var a := Created(owner, i, s.nextId);
      if Complaint(i).Some? then s else
      if a.id in s.db.agents || NameTaken(s.db, a) || (a.id, 1) in s.db.versions then s.(nextId := s.nextId + 1) else
      State(Inserted(s.db, a), s.clients, s.history[a.id := [a]], s.nextId + 1)
    case Read(c, owner, id, i) =>
      var r := Joined(s.db, owner, id);
      if ClientOf(s, c).Editing? || Complaint(i).Some? || r.Err? then s
          else s.(clients := s.clients[c := Editing(r.value, i)])
    case Write(c) =>
      if ClientOf(s, c).Idle? then s else
      var e := s.clients[c];
      var a := Edited(e.read, e.input);
      if !Commits(s.db, a) then s.(clients := s.clients[c := Idle]) else
      s.(db := Inserted(s.db, a), clients := s.clients[c := Idle],
         history := s.history[a.id := HistoryOf(s, a.id) + [a]])
    case Delete(owner, id) =>
      if Owned(s.db, owner, id) then s.(db := Deleted(s.db, id)) else s
  }

  function After(ms: seq<Move>): State {
    if ms == [] then START else Apply(After(ms[..|ms| - 1]), ms[|ms| - 1])
  }

  /** An existing agent has exactly the versions 1..current, and its history ends in what a read returns. */
  ghost predicate Chained(s: State, id: Id) {
    id in s.db.agents ==>
      && var h := HistoryOf(s, id);
         && |h| >= 1
         && s.db.agents[id] == RowOf(h[|h| - 1])
         && h[|h| - 1].id == id
         && h[|h| - 1].version == |h|
         && (id, |h|) in s.db.versions
         && s.db.versions[(id, |h|)] == VersionOf(h[|h| - 1])
         && forall v :: (id, v) in s.db.versions <==> 1 <= v <= |h|
  }

  /** A client edits a configuration that was current at some time; if the agent has not moved on, it still is. */
  ghost predicate Grounded(s: State, c: Client) {
    c.Editing? ==>
      && c.read.id < s.nextId
      && (c.read.id in s.db.agents ==>
            && 1 <= c.read.version <= |HistoryOf(s, c.read.id)|
            && HistoryOf(s, c.read.id)[c.read.version - 1] == c.read)
  }

  ghost predicate Sound(s: State) {
    && (forall id :: id in s.db.agents ==> id < s.nextId)
    && (forall k :: k in s.db.versions ==> k.0 in s.db.agents)
    && (forall id {:trigger Chained(s, id)} :: Chained(s, id))
    && (forall c {:trigger ClientOf(s, c)} :: Grounded(s, ClientOf(s, c)))
  }

  lemma {:induction false} AlwaysSound(ms: seq<Move>)
    ensures Sound(After(ms))
  {
    if ms != [] {
      AlwaysSound(ms[..|ms| - 1]);
      StepSound(After(ms[..|ms| - 1]), ms[|ms| - 1]);
    }
  }

  lemma StepSound(s: State, m: Move)
    requires Sound(s)
    ensures Sound(Apply(s, m))
  {
    match m
    case Create(_, _) => CreateSound(s, m);
    case Read(_, _, _, _) => ReadSound(s, m);
    case Write(_) => WriteSound(s, m);
    case Delete(_, _) => DeleteSound(s, m);
  }

  lemma CreateSound(s: State, m: Move)
    requires Sound(s) && m.Create?
    ensures Sound(Apply(s, m))
  {
    hide Grounded, Chained;
    CreateChained(s, m);
    CreateGrounded(s, m);
  }

  lemma CreateChained(s: State, m: Move)
    requires Sound(s) && m.Create?
    ensures forall id :: Chained(Apply(s, m), id)
  {
    hide Grounded;
    var t := Apply(s, m);
    forall id ensures Chained(t, id) { assert Chained(s, id); }
  }

  lemma CreateGrounded(s: State, m: Move)
    requires Sound(s) && m.Create?
    ensures forall c :: Grounded(Apply(s, m), ClientOf(Apply(s, m), c))
  {
    hide Chained;
    var t := Apply(s, m);
    forall c ensures Grounded(t, ClientOf(t, c)) { assert Grounded(s, ClientOf(s, c)); }
  }

  lemma ReadSound(s: State, m: Move)
    requires Sound(s) && m.Read?
    ensures Sound(Apply(s, m))
  {
    var t := Apply(s, m);
    forall id ensures Chained(t, id) { assert Chained(s, id); }
    forall c ensures Grounded(t, ClientOf(t, c)) {
      assert Grounded(s, ClientOf(s, c));
      assert Chained(s, m.id);
    }
  }

  lemma WriteSound(s: State, m: Move)
    requires Sound(s) && m.Write?
    ensures Sound(Apply(s, m))
  {
    var t := Apply(s, m);
    if ClientOf(s, m.client).Editing? {
      WriteIsCurrent(s, m.client);
    }
    forall id ensures Chained(t, id) { assert Chained(s, id); }
    forall c ensures Grounded(t, ClientOf(t, c)) { assert Grounded(s, ClientOf(s, c)); }
  }

  lemma DeleteSound(s: State, m: Move)
    requires Sound(s) && m.Delete?
    ensures Sound(Apply(s, m))
  {
    var t := Apply(s, m);
    forall id ensures Chained(t, id) { assert Chained(s, id); }
    forall c ensures Grounded(t, ClientOf(t, c)) { assert Grounded(s, ClientOf(s, c)); }
  }

  /** The unique key lets a write through exactly when nothing was committed since its read. */
  lemma WriteIsCurrent(s: State, c: nat)
    requires Sound(s) && ClientOf(s, c).Editing?
    ensures var e := ClientOf(s, c); var a := Edited(e.read, e.input);
            Commits(s.db, a) <==> Joined(s.db, e.read.ownerId, e.read.id) == Ok(e.read) && !NameTaken(s.db, a)
  {
    var e := ClientOf(s, c);
    assert Grounded(s, e);
    assert Chained(s, e.read.id);
  }

  // ---------- What holds after every schedule ----------

  /** A stale write rolls back: every committed update was computed from the configuration current at its commit. */
  lemma {:induction false} NoLostUpdate(ms: seq<Move>, c: nat)
    requires ClientOf(After(ms), c).Editing?
    ensures var s, e := After(ms), ClientOf(After(ms), c);
            var a := Edited(e.read, e.input);
            && (Commits(s.db, a) <==> Joined(s.db, e.read.ownerId, e.read.id) == Ok(e.read) && !NameTaken(s.db, a))
            && (Commits(s.db, a) ==> Joined(Apply(s, Write(c)).db, a.ownerId, a.id) == Ok(a))
            && (!Commits(s.db, a) ==> Apply(s, Write(c)).db == s.db)
  {
    AlwaysSound(ms);
    var s, e := After(ms), ClientOf(After(ms), c);
    WriteIsCurrent(s, c);
    assert Chained(s, e.read.id);
  }

  /** The agent has just these settings of an input, and its texts trimmed. */
  predicate Configured(a: Agent, i: Input) {
    && a.name == Trim(i.name) && a.description == Trim(i.description) && a.systemPrompt == i.systemPrompt
    && a.model == i.model && a.temperature == i.temperature && a.maxTokens == i.maxTokens && a.tools == i.tools
  }

  /** What is read right after a write that committed is the agent of the input, one version on. */
  lemma {:induction false} WrittenIsRead(ms: seq<Move>, c: nat)
    requires ClientOf(After(ms), c).Editing?
    requires Apply(After(ms), Write(c)).db != After(ms).db
    ensures var e, db := ClientOf(After(ms), c), Apply(After(ms), Write(c)).db;
            var r := Joined(db, e.read.ownerId, e.read.id);
            && r.Ok? && Configured(r.value, e.input)
            && r.value.id == e.read.id && r.value.ownerId == e.read.ownerId && r.value.version == e.read.version + 1
  {
    hide Commits, Joined, Inserted, Trim;
    NoLostUpdate(ms, c);
  }

  /** What is read right after an agent was created is the agent of the input, under a new identifier at version one. */
  lemma {:induction false} CreatedIsRead(ms: seq<Move>, owner: string, i: Input)
    requires Apply(After(ms), Create(owner, i)).db != After(ms).db
    ensures var s := After(ms);
            var r := Joined(Apply(s, Create(owner, i)).db, owner, s.nextId);
            && s.nextId !in s.db.agents
            && r.Ok? && Configured(r.value, i)
            && r.value.id == s.nextId && r.value.ownerId == owner && r.value.version == 1
  {
    hide Trim, NameTaken, Complaint;
  }

  /** An existing agent's version rows are exactly 1..current, so the join of a read always finds its row. */
  lemma {:induction false} VersionsAreContiguous(ms: seq<Move>, id: Id)
    requires id in After(ms).db.agents
    ensures var db := After(ms).db;
            && (forall v :: (id, v) in db.versions <==> 1 <= v <= db.agents[id].currentVersion)
            && Joined(db, db.agents[id].ownerId, id).Ok?
  {
    AlwaysSound(ms);
    assert Chained(After(ms), id);
  }
}
