/** The same updates over Memory, which has no unique key: exactly when they number versions and lose nothing. */
module MemoryVersions {
  import opened Domain
  import opened Text
  import S = Store
  import opened Versions

  /** A client between the read and the write of an update; seen counts what had been committed for the agent. */
  datatype Editor = Resting | Busy(read: Agent, input: Input, seen: nat)

  /** history keeps, for each agent ever created, the configurations committed for it in order. */
  datatype Memory = Memory(store: S.Store, editors: map<nat, Editor>, history: map<Id, seq<Agent>>, nextId: Id) {
    function EditorOf(c: nat): Editor {
      if c in editors then editors[c] else Resting
    }

    function Committed(id: Id): seq<Agent> {
      if id in history then history[id] else []
    }
  }

  const EMPTY := Memory(S.EMPTY, map[], map[], 0)

  /** The configuration that a busy client is about to write. */
  function Draft(e: Editor): Agent
    requires e.Busy?
  {
    Edited(e.read, e.input)
  }

  /** Each move is one call of the service on the store: the same calls as over SQL. */
  function Step(s: Memory, m: Move): Memory {
    match m
    case Create(owner, i) =>
      var a := Created(owner, i, s.nextId);
      if Complaint(i).Some? then s
      else if a.id in s.store.agents then s.(nextId := s.nextId + 1)
      else Memory(S.PutAgent(s.store, a), s.editors, s.history[a.id := [a]], s.nextId + 1)
    case Read(c, owner, id, i) =>
      if s.EditorOf(c).Busy? || Complaint(i).Some? || !s.store.OwnsAgent(owner, id) then s
      else s.(editors := s.editors[c := Busy(s.store.agents[id], i, |s.Committed(id)|)])
    case Write(c) => Written(s, c)
    case Delete(owner, id) =>
      if s.store.OwnsAgent(owner, id) then s.(store := S.RemoveAgent(s.store, id)) else s
  }

  function Written(s: Memory, c: nat): Memory {
    var e := s.EditorOf(c);
    if e.Resting? then s
    else if !Commits(s, c) then s.(editors := s.editors[c := Resting])
    else
      var a := Draft(e);
      s.(store := S.PutAgent(s.store, a), editors := s.editors[c := Resting],
         history := s.history[a.id := s.Committed(a.id) + [a]])
  }

  /** The write of client c will be accepted: the agent is still there and its owner's. */
  predicate Commits(s: Memory, c: nat) {
    var e := s.EditorOf(c);
    e.Busy? && s.store.OwnsAgent(e.read.ownerId, e.read.id)
  }

  function After(ms: seq<Move>): Memory {
    if ms == [] then EMPTY else Step(After(ms[..|ms| - 1]), ms[|ms| - 1])
  }

  /** The write commits for agent id although another commit for it came after this client's read. */
  predicate Stale(s: Memory, m: Move, id: Id) {
    m.Write? && Commits(s, m.client) && s.EditorOf(m.client).read.id == id
    && s.EditorOf(m.client).seen < |s.Committed(id)|
  }

  predicate NeverStale(ms: seq<Move>, id: Id) {
    forall k :: 0 <= k < |ms| ==> !Stale(After(ms[..k]), ms[k], id)
  }

  /** The versions committed for an agent are 1, 2, 3 and so on. */
  predicate Numbered(h: seq<Agent>) {
    forall i :: 0 <= i < |h| ==> h[i].version == i + 1
  }

  predicate DistinctVersions(h: seq<Agent>) {
    forall i, j :: 0 <= i < j < |h| ==> h[i].version != h[j].version
  }

  /** The write of client c replaces a configuration of agent id that c has never read. */
  predicate Overwrites(s: Memory, m: Move, id: Id) {
    m.Write? && Commits(s, m.client) && s.EditorOf(m.client).read.id == id
    && s.store.agents[id] != s.EditorOf(m.client).read
  }

  predicate NeverOverwrites(ms: seq<Move>, id: Id) {
    forall k :: 0 <= k < |ms| ==> !Overwrites(After(ms[..k]), ms[k], id)
  }

  // ---------- What every schedule keeps ----------

  /** A stored agent is the last one committed under its identifier. */
  predicate AgentOk(s: Memory, id: Id) {
    && (id in s.store.agents ==>
          && id < s.nextId && s.Committed(id) != []
          && s.store.agents[id] == s.Committed(id)[|s.Committed(id)| - 1] && s.store.agents[id].id == id)
    && (id in s.history ==> id < s.nextId)
  }

  /** A client edits the seen-th configuration committed for its agent. */
  predicate EditorOk(s: Memory, c: nat) {
    var e := s.EditorOf(c);
    e.Busy? ==> 1 <= e.seen <= |s.Committed(e.read.id)| && s.Committed(e.read.id)[e.seen - 1] == e.read
  }

  ghost predicate Sound(s: Memory) {
    && (forall id: Id {:trigger AgentOk(s, id)} :: AgentOk(s, id))
    && (forall c: nat {:trigger EditorOk(s, c)} :: EditorOk(s, c))
  }

  lemma {:induction false} AlwaysSound(ms: seq<Move>)
    ensures Sound(After(ms))
  {
    hide Step, Sound;
    if ms != [] {
      AlwaysSound(ms[..|ms| - 1]);
      StepSound(After(ms[..|ms| - 1]), ms[|ms| - 1]);
    } else {
      EmptySound();
    }
  }

  lemma EmptySound()
    ensures Sound(EMPTY)
  {
  }

  lemma StepSound(s: Memory, m: Move)
    requires Sound(s)
    ensures Sound(Step(s, m))
  {
    hide Step, AgentOk, EditorOk;
    forall id: Id ensures AgentOk(Step(s, m), id) { StepAgent(s, m, id); }
    forall c: nat ensures EditorOk(Step(s, m), c) { StepEditor(s, m, c); }
  }

  lemma StepAgent(s: Memory, m: Move, id: Id)
    requires Sound(s)
    ensures AgentOk(Step(s, m), id)
  {
    assert AgentOk(s, id);
    if m.Write? && s.EditorOf(m.client).Busy? {
      assert EditorOk(s, m.client) && AgentOk(s, s.EditorOf(m.client).read.id);
    }
  }

  lemma StepEditor(s: Memory, m: Move, c: nat)
    requires Sound(s)
    ensures EditorOk(Step(s, m), c)
  {
    assert EditorOk(s, c);
    if s.EditorOf(c).Busy? {
      assert AgentOk(s, s.EditorOf(c).read.id);
    } else if m.Read? {
      assert AgentOk(s, m.id);
    }
  }

  // ---------- Stale writes, versions and lost updates ----------

  /** A move commits at most the draft of a write or a new agent. */
  lemma StepCommits(s: Memory, m: Move, id: Id)
    requires Sound(s)
    ensures var h, h' := s.Committed(id), Step(s, m).Committed(id);
            if m.Write? && Commits(s, m.client) && s.EditorOf(m.client).read.id == id then
              h' == h + [Draft(s.EditorOf(m.client))]
            else h' == h || (h == [] && |h'| == 1 && h'[0].version == 1)
  {
    assert AgentOk(s, id) && AgentOk(s, s.nextId);
    if m.Write? {
      assert EditorOk(s, m.client);
    }
  }

  /** A write over numbered versions takes the next number exactly if it is not stale, and a used one if it is. */
  lemma WriteNumbers(s: Memory, c: nat, id: Id)
    requires Sound(s) && Commits(s, c) && s.EditorOf(c).read.id == id && Numbered(s.Committed(id))
    ensures var h, a := s.Committed(id), Draft(s.EditorOf(c));
            if Stale(s, Write(c), id) then exists i :: 0 <= i < |h| && h[i].version == a.version
            else a.version == |h| + 1
  {
    assert EditorOk(s, c);
    var e := s.EditorOf(c);
    if Stale(s, Write(c), id) {
      assert s.Committed(id)[e.seen].version == e.seen + 1;
    }
  }

  lemma NeverSnoc(ms: seq<Move>, id: Id)
    requires ms != []
    ensures var n := |ms| - 1;
            && (NeverStale(ms, id) <==> NeverStale(ms[..n], id) && !Stale(After(ms[..n]), ms[n], id))
            && (NeverOverwrites(ms, id) <==> NeverOverwrites(ms[..n], id) && !Overwrites(After(ms[..n]), ms[n], id))
  {
    hide After, Stale, Overwrites;
    var n := |ms| - 1;
    assert forall k :: 0 <= k < n ==> ms[..n][..k] == ms[..k] && ms[..n][k] == ms[k];
  }

  lemma NumberedSnoc(h: seq<Agent>, a: Agent)
    ensures Numbered(h + [a]) <==> Numbered(h) && a.version == |h| + 1
  {
    if Numbered(h + [a]) {
      assert forall i :: 0 <= i < |h| ==> h[i] == (h + [a])[i];
      assert (h + [a])[|h|] == a;
    }
  }

  lemma DistinctSnoc(h: seq<Agent>, a: Agent)
    ensures DistinctVersions(h + [a]) ==> DistinctVersions(h) && forall i :: 0 <= i < |h| ==> h[i].version != a.version
  {
    if DistinctVersions(h + [a]) {
      assert forall i :: 0 <= i < |h| ==> h[i] == (h + [a])[i];
      assert (h + [a])[|h|] == a;
    }
  }

  lemma NumberedIsDistinct(h: seq<Agent>)
    requires Numbered(h)
    ensures DistinctVersions(h)
  {
  }

  /** One move, for the equivalences below. */
  lemma StepVersions(s: Memory, m: Move, id: Id)
    requires Sound(s)
    ensures Numbered(Step(s, m).Committed(id)) ==> Numbered(s.Committed(id))
    ensures DistinctVersions(Step(s, m).Committed(id)) ==> DistinctVersions(s.Committed(id))
    ensures Numbered(s.Committed(id)) && !Stale(s, m, id) ==> Numbered(Step(s, m).Committed(id))
    ensures Numbered(s.Committed(id)) && Stale(s, m, id) ==> !DistinctVersions(Step(s, m).Committed(id))
  {
    hide Step, Sound;
    StepCommits(s, m, id);
    if m.Write? && Commits(s, m.client) && s.EditorOf(m.client).read.id == id {
      NumberedSnoc(s.Committed(id), Draft(s.EditorOf(m.client)));
      DistinctSnoc(s.Committed(id), Draft(s.EditorOf(m.client)));
      if Numbered(s.Committed(id)) {
        WriteNumbers(s, m.client, id);
      }
    }
  }

  /**
   * Under Memory, after any schedule of calls, the versions committed for an agent are pairwise distinct exactly if
   * they are 1..n, and exactly if no write ever followed another commit to that agent since its own read.
   */
  lemma {:induction false} VersionsDistinctIff(ms: seq<Move>, id: Id)
    ensures DistinctVersions(After(ms).Committed(id)) <==> NeverStale(ms, id)
    ensures Numbered(After(ms).Committed(id)) <==> NeverStale(ms, id)
  {
    hide Step, Sound, Stale, NeverStale, NeverOverwrites, Numbered, DistinctVersions;
    if ms != [] {
      var n := |ms| - 1;
      VersionsDistinctIff(ms[..n], id);
      AlwaysSound(ms[..n]);
      StepVersions(After(ms[..n]), ms[n], id);
      NeverSnoc(ms, id);
      if Numbered(After(ms).Committed(id)) {
        NumberedIsDistinct(After(ms).Committed(id));
      }
    } else {
      NothingCommitted(id);
    }
  }

  lemma NothingCommitted(id: Id)
    ensures Numbered(EMPTY.Committed(id)) && DistinctVersions(EMPTY.Committed(id))
    ensures NeverStale([], id) && NeverOverwrites([], id)
  {
  }

  /** As long as versions are numbered, a write replaces something unread exactly if it is stale. */
  lemma OverwritesIffStale(s: Memory, m: Move, id: Id)
    requires Sound(s) && Numbered(s.Committed(id))
    ensures Overwrites(s, m, id) <==> Stale(s, m, id)
  {
    if m.Write? && Commits(s, m.client) && s.EditorOf(m.client).read.id == id {
      assert EditorOk(s, m.client) && AgentOk(s, id);
      var e, h := s.EditorOf(m.client), s.Committed(id);
      assert h[e.seen - 1].version == e.seen && h[|h| - 1].version == |h|;
    }
  }

  /**
   * Under Memory no update of an agent is ever lost exactly if no write ever followed another commit to that agent
   * since its own read: then, and only then, each committed configuration was computed from the one it replaced.
   */
  lemma {:induction false} NoUpdateLostIff(ms: seq<Move>, id: Id)
    ensures NeverOverwrites(ms, id) <==> NeverStale(ms, id)
  {
    hide Step, Sound, Stale, Overwrites, NeverStale, NeverOverwrites, Numbered;
    if ms != [] {
      var n := |ms| - 1;
      NoUpdateLostIff(ms[..n], id);
      NeverSnoc(ms, id);
      VersionsDistinctIff(ms[..n], id);
      AlwaysSound(ms[..n]);
      if NeverStale(ms[..n], id) {
        OverwritesIffStale(After(ms[..n]), ms[n], id);
      }
    } else {
      NothingCommitted(id);
    }
  }

  // ---------- A schedule with a stale write ----------

  const DRAFT := Input("helper", "", "", "model", 0.0, 1, [])

  const OTHER := DRAFT.(model := "other")

  /** Two clients read version 1 and write; between their writes a third one reads, to write last. */
  const RACE: seq<Move> := [
    Create("alice", DRAFT),
    Read(0, "alice", 0, DRAFT), Read(1, "alice", 0, OTHER), Write(0),
    Read(2, "alice", 0, DRAFT), Write(1), Write(2)]

  const FIRST := Created("alice", DRAFT, 0)
  const BY_0 := Edited(FIRST, DRAFT)
  const BY_1 := Edited(FIRST, OTHER)
  const BY_2 := Edited(BY_0, DRAFT)

  predicate Reached(s: Memory, h: seq<Agent>, e0: Editor, e1: Editor, e2: Editor) {
    && h != [] && s.Committed(0) == h && s.store.OwnsAgent("alice", 0) && s.store.agents[0] == h[|h| - 1]
    && s.EditorOf(0) == e0 && s.EditorOf(1) == e1 && s.EditorOf(2) == e2
  }

  lemma OneMore(ms: seq<Move>, k: nat)
    requires k < |ms|
    ensures After(ms[..k + 1]) == Step(After(ms[..k]), ms[k])
  {
    hide Step;
    assert ms[..k + 1][..k] == ms[..k];
  }

  lemma RaceReads()
    ensures Reached(After(RACE[..3]), [FIRST], Busy(FIRST, DRAFT, 1), Busy(FIRST, OTHER, 1), Resting)
  {
    hide After, Step, Reached;
    OneMore(RACE, 0);
    OneMore(RACE, 1);
    OneMore(RACE, 2);
    Nothing();
    ReadsFirst(Step(EMPTY, RACE[0]));
  }

  lemma ReadsFirst(s: Memory)
    requires Reached(s, [FIRST], Resting, Resting, Resting)
    ensures Reached(Step(Step(s, RACE[1]), RACE[2]), [FIRST], Busy(FIRST, DRAFT, 1), Busy(FIRST, OTHER, 1), Resting)
  {
    hide Blank;
    Texts();
    assert Reached(Step(s, RACE[1]), [FIRST], Busy(FIRST, DRAFT, 1), Resting, Resting);
  }

  lemma Nothing()
    ensures After(RACE[..0]) == EMPTY
    ensures Reached(Step(EMPTY, RACE[0]), [FIRST], Resting, Resting, Resting)
  {
    hide Blank;
    Texts();
  }

  lemma Texts()
    ensures !Blank(DRAFT.name) && !Blank(DRAFT.model) && !Blank(OTHER.model)
  {
    assert !IsSpace(DRAFT.name[0]) && !IsSpace(DRAFT.model[0]) && !IsSpace(OTHER.model[0]);
  }

  lemma RaceWrites(s: Memory)
    requires Reached(s, [FIRST], Busy(FIRST, DRAFT, 1), Busy(FIRST, OTHER, 1), Resting)
    ensures var s1 := Step(s, Write(0));
            var s2 := Step(s1, Read(2, "alice", 0, DRAFT));
            && Reached(s2, [FIRST, BY_0], Resting, Busy(FIRST, OTHER, 1), Busy(BY_0, DRAFT, 2))
            && Stale(s2, Write(1), 0)
            && Reached(Step(s2, Write(1)), [FIRST, BY_0, BY_1], Resting, Resting, Busy(BY_0, DRAFT, 2))
            && Overwrites(Step(s2, Write(1)), Write(2), 0)
            && Reached(Step(Step(s2, Write(1)), Write(2)), [FIRST, BY_0, BY_1, BY_2], Resting, Resting, Resting)
  {
    hide Blank;
    Texts();
    var s1 := Step(s, Write(0));
    assert Reached(s1, [FIRST, BY_0], Resting, Busy(FIRST, OTHER, 1), Resting);
    var s2 := Step(s1, Read(2, "alice", 0, DRAFT));
    assert Reached(s2, [FIRST, BY_0], Resting, Busy(FIRST, OTHER, 1), Busy(BY_0, DRAFT, 2));
    var s3 := Step(s2, Write(1));
    assert BY_0.model != BY_1.model;
    assert Reached(s3, [FIRST, BY_0, BY_1], Resting, Resting, Busy(BY_0, DRAFT, 2));
  }

  /**
   * Versions 1, 2, 2, 3: client 1 reuses a number, and client 2 replaces what client 1 wrote without having seen it.
   */
  lemma RaceReusesVersions()
    ensures After(RACE).Committed(0) == [FIRST, BY_0, BY_1, BY_2]
    ensures BY_0.version == BY_1.version == 2 && BY_0 != BY_1
    ensures Stale(After(RACE[..5]), RACE[5], 0) && Overwrites(After(RACE[..6]), RACE[6], 0)
  {
    hide After, Step;
    RaceReads();
    RaceWrites(After(RACE[..3]));
    OneMore(RACE, 3);
    OneMore(RACE, 4);
    OneMore(RACE, 5);
    OneMore(RACE, 6);
    assert RACE[..7] == RACE;
    assert BY_0.model != BY_1.model;
  }
}
