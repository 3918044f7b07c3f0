/** The language of the events a run publishes, for every schedule of its tools. */
module EventLaws {
  import opened Domain
  import opened Runs
  import opened ToolLaws
  import RunLaws

  /** Where a reader of one execution's events stands: which tool steps are open, and which identifiers were seen. */
  datatype Phase =
    | Unstarted
    | Ready
    | Busy(open: set<Id>, used: set<Id>)
    | Over(kind: EventKind)
    | Wrong

  function Feed(p: Phase, v: Event): Phase {
    match (v.kind, v.stepId)
    case (AgentStarted, None) => if p.Unstarted? then Ready else Wrong
    case (AgentThinking, Some(id)) =>
      if p.Ready? then Busy({}, {id})
      else if p.Busy? && p.open == {} && id !in p.used then Busy({}, p.used + {id})
      else Wrong
    case (ToolStarted, Some(id)) =>
      if p.Busy? && id !in p.used then Busy(p.open + {id}, p.used + {id}) else Wrong
    case (ToolCompleted, Some(id)) => if p.Busy? && id in p.open then p.(open := p.open - {id}) else Wrong
    case (ToolFailed, Some(id)) => if p.Busy? && id in p.open then p.(open := p.open - {id}) else Wrong
    case (AgentCompleted, None) => if p.Busy? && p.open == {} then Over(AgentCompleted) else Wrong
    case (AgentFailed, None) => if p.Ready? || (p.Busy? && p.open == {}) then Over(AgentFailed) else Wrong
    case _ => Wrong
  }

  function FeedAll(p: Phase, vs: seq<Event>): Phase {
    if vs == [] then p else Feed(FeedAll(p, vs[..|vs| - 1]), vs[|vs| - 1])
  }

  lemma {:induction false} FeedConcat(p: Phase, a: seq<Event>, b: seq<Event>)
    ensures FeedAll(p, a + b) == FeedAll(FeedAll(p, a), b)
  {
    if b == [] {
      assert a + b == a;
    } else {
      FeedConcat(p, a, b[..|b| - 1]);
      assert (a + b)[..|a + b| - 1] == a + b[..|b| - 1];
    }
  }

  // ---------- One fan-out ----------

  /** parts are beginnings of what each call does. */
  predicate Beginnings(e: Id, f: Fan, parts: seq<seq<Action>>)
    requires |f.fates| == |f.ids| == |f.calls|
  {
    |parts| == |f.calls| && forall i :: 0 <= i < |parts| ==> parts[i] <= Part(e, f.calls[i], f.fates[i], f.ids[i])
  }

  /** The steps that have started and not ended after these beginnings. */
  function Open(f: Fan, parts: seq<seq<Action>>): set<Id>
    requires |f.ids| == |parts|
  {
    set i | 0 <= i < |parts| && 1 <= |parts[i]| <= 2 :: f.ids[i]
  }

  function Began(f: Fan, parts: seq<seq<Action>>): set<Id>
    requires |f.ids| == |parts|
  {
    set i | 0 <= i < |parts| && |parts[i]| >= 1 :: f.ids[i]
  }

  predicate DistinctIds(f: Fan)
    requires |f.fates| == |f.ids|
  {
    forall i, j :: 0 <= i < j < |f.ids| && f.fates[i].Drawn() && f.fates[j].Drawn() ==> f.ids[i] != f.ids[j]
  }

  /** No other part that has begun uses the identifier of part i. */
  predicate OwnId(f: Fan, parts: seq<seq<Action>>, i: nat)
    requires |f.ids| == |parts| && i < |parts|
  {
    forall j :: 0 <= j < |parts| && j != i && parts[j] != [] ==> f.ids[j] != f.ids[i]
  }

  /** Replacing part i by q changes the membership of its own identifier only. */
  lemma OpenMoves(f: Fan, parts: seq<seq<Action>>, i: nat, q: seq<Action>)
    requires |f.ids| == |parts| && i < |parts| && OwnId(f, parts, i)
    ensures Open(f, parts[i := q]) == Open(f, parts) - {f.ids[i]} + if 1 <= |q| <= 2 then {f.ids[i]} else {}
  {
    var more := parts[i := q];
    var own := if 1 <= |q| <= 2 then {f.ids[i]} else {};
    forall x ensures x in Open(f, more) <==> x in Open(f, parts) - {f.ids[i]} + own {
      if x in Open(f, more) {
        var j :| 0 <= j < |more| && 1 <= |more[j]| <= 2 && f.ids[j] == x;
        assert j != i ==> parts[j] == more[j];
      }
    }
  }

  lemma BeganMoves(f: Fan, parts: seq<seq<Action>>, i: nat, q: seq<Action>)
    requires |f.ids| == |parts| && i < |parts| && OwnId(f, parts, i)
    ensures Began(f, parts[i := q]) == Began(f, parts) - {f.ids[i]} + if q != [] then {f.ids[i]} else {}
  {
    var more := parts[i := q];
    forall x ensures x in Began(f, more) <==> x in Began(f, parts) - {f.ids[i]} + if q != [] then {f.ids[i]} else {} {
      if x in Began(f, more) {
        var j :| 0 <= j < |more| && |more[j]| >= 1 && f.ids[j] == x;
        assert j != i ==> parts[j] == more[j];
      }
    }
  }

  /** How the last action of part i, which was p before it, moves the sets of open and begun steps. */
  lemma SetsMove(e: Id, f: Fan, parts: seq<seq<Action>>, i: nat, p: seq<Action>, a: Action)
    requires |f.fates| == |f.ids| == |f.calls| && DistinctIds(f) && Beginnings(e, f, parts)
    requires i < |parts| && parts[i] == p + [a]
    ensures Beginnings(e, f, parts[i := p]) && |p| <= 2 && f.fates[i].Drawn()
    ensures var less := parts[i := p];
            && Open(f, parts) == Open(f, less) - {f.ids[i]} + (if |p| <= 1 then {f.ids[i]} else {})
            && Began(f, parts) == Began(f, less) + {f.ids[i]}
            && (f.ids[i] in Open(f, less) <==> 1 <= |p|)
            && (f.ids[i] in Began(f, less) <==> 1 <= |p|)
  {
    var less := parts[i := p];
    assert OwnId(f, parts, i) by {
      assert forall j :: 0 <= j < |parts| && parts[j] != [] ==> f.fates[j].Drawn();
    }
    OpenMoves(f, parts, i, p);
    BeganMoves(f, parts, i, p);
    assert OwnId(f, less, i);
    OpenMoves(f, less, i, parts[i]);
    BeganMoves(f, less, i, parts[i]);
    assert less[i := parts[i]] == parts;
  }

  lemma {:induction false} FanPhase(e: Id, f: Fan, acts: seq<Action>, who: seq<nat>, parts: seq<seq<Action>>,
                                    used: set<Id>)
    requires |f.fates| == |f.ids| == |f.calls| && DistinctIds(f)
    requires Shuffle(acts, who, parts) && Beginnings(e, f, parts)
    requires forall i :: 0 <= i < |f.ids| && f.fates[i].Drawn() ==> f.ids[i] !in used
    ensures FeedAll(Busy({}, used), EventsIn(acts)) == Busy(Open(f, parts), used + Began(f, parts))
    decreases |acts|
  {
    if acts == [] {
      assert Open(f, parts) == {} && Began(f, parts) == {};
    } else {
      var n := |acts| - 1;
      var i, p := ShuffleLast(acts, who, parts);
      SetsMove(e, f, parts, i, p, acts[n]);
      FanPhase(e, f, acts[..n], who[..n], parts[i := p], used);
      FanStep(e, f, parts, i, p, acts[n], used);
      LastFed(Busy({}, used), acts);
    }
  }

  lemma LastFed(p: Phase, acts: seq<Action>)
    requires acts != []
    ensures FeedAll(p, EventsIn(acts)) ==
            FeedAll(FeedAll(p, EventsIn(acts[..|acts| - 1])), EventsIn([acts[|acts| - 1]]))
  {
    var n := |acts| - 1;
    assert acts == acts[..n] + [acts[n]];
    FiltersConcat(acts[..n], [acts[n]]);
    FeedConcat(p, EventsIn(acts[..n]), EventsIn([acts[n]]));
  }

  lemma FanStep(e: Id, f: Fan, parts: seq<seq<Action>>, i: nat, p: seq<Action>, a: Action, used: set<Id>)
    requires |f.fates| == |f.ids| == |f.calls| && DistinctIds(f) && Beginnings(e, f, parts)
    requires i < |parts| && parts[i] == p + [a]
    requires forall i :: 0 <= i < |f.ids| && f.fates[i].Drawn() ==> f.ids[i] !in used
    ensures FeedAll(Busy(Open(f, parts[i := p]), used + Began(f, parts[i := p])), EventsIn([a]))
            == Busy(Open(f, parts), used + Began(f, parts))
  {
    hide Open, Began, DistinctIds, Beginnings, FeedAll, EventsIn, Part;
    LastOfPart(e, f, parts, i, p, a);
    SetsMove(e, f, parts, i, p, a);
    var id := f.ids[i];
    PartAt(e, f.calls[i], f.fates[i], id, |p|);
    var open, began := Open(f, parts[i := p]), Began(f, parts[i := p]);
    FeedTool(Busy(open, used + began), e, id, a, |p|);
    AddAgain(open, id);
    AddAgain(began, id);
    assert used + (began + {id}) == used + began + {id};
    assert open - {id} + {} == open - {id};
  }

  lemma AddAgain(s: set<Id>, id: Id)
    ensures s - {id} + {id} == s + {id}
    ensures id in s ==> s + {id} == s
  {
  }

  lemma LastOfPart(e: Id, f: Fan, parts: seq<seq<Action>>, i: nat, p: seq<Action>, a: Action)
    requires |f.fates| == |f.ids| == |f.calls| && Beginnings(e, f, parts) && i < |parts| && parts[i] == p + [a]
    ensures |parts| == |f.calls|
    ensures |p| < |Part(e, f.calls[i], f.fates[i], f.ids[i])| && Part(e, f.calls[i], f.fates[i], f.ids[i])[|p|] == a
  {
    hide Part;
    assert parts[i][|p|] == a;
  }

  /** The k-th action of a call: started, recorded, ended. */
  lemma PartAt(e: Id, call: ToolCall, fate: Fate, id: Id, k: nat)
    requires k < |Part(e, call, fate, id)|
    ensures var a := Part(e, call, fate, id)[k];
            && k <= 2
            && (k == 0 ==> a == Emit(Event(e, ToolStarted, Some(id))))
            && (k == 1 ==> a.AddStep?)
            && (k == 2 ==> a.Emit? && a.event.kind in {ToolCompleted, ToolFailed} && a.event.stepId == Some(id))
  {
  }

  lemma FeedTool(p: Phase, e: Id, id: Id, a: Action, k: nat)
    requires p.Busy? && k <= 2
    requires k == 0 ==> a == Emit(Event(e, ToolStarted, Some(id))) && id !in p.used
    requires k == 1 ==> a.AddStep?
    requires k == 2 ==>
               a.Emit? && a.event.kind in {ToolCompleted, ToolFailed} && a.event.stepId == Some(id) && id in p.open
    ensures FeedAll(p, EventsIn([a])) ==
            match k
            case 0 => Busy(p.open + {id}, p.used + {id})
            case 1 => p
            case _ => Busy(p.open - {id}, p.used)
  {
    assert [a][..0] == [];
    if a.Emit? {
      assert EventsIn([a]) == [a.event];
      FeedOne(p, a.event);
    }
  }

  /** The calls whose output cannot be encoded: they start a step that never ends. */
  function Unended(f: Fan): set<Id>
    requires |f.fates| == |f.ids|
  {
    set i | 0 <= i < |f.ids| && f.fates[i].Unencodable? :: f.ids[i]
  }

  function DrawnIds(f: Fan): set<Id>
    requires |f.fates| == |f.ids|
  {
    set i | 0 <= i < |f.ids| && f.fates[i].Drawn() :: f.ids[i]
  }

  lemma WholeFan(e: Id, f: Fan, used: set<Id>)
    requires FanOk(e, f)
    requires forall i :: 0 <= i < |f.ids| && f.fates[i].Drawn() ==> f.ids[i] !in used
    ensures FeedAll(Busy({}, used), EventsIn(f.acts)) == Busy(Unended(f), used + DrawnIds(f))
  {
    var parts := Parts(e, f);
    FanPhase(e, f, f.acts, f.who, parts, used);
    WholeOpen(e, f);
    WholeBegan(e, f);
  }

  lemma WholeOpen(e: Id, f: Fan)
    requires |f.fates| == |f.ids| == |f.calls|
    ensures Open(f, Parts(e, f)) == Unended(f)
  {
    var parts := Parts(e, f);
    assert forall i :: 0 <= i < |parts| ==> (1 <= |parts[i]| <= 2 <==> f.fates[i].Unencodable?);
    forall x ensures x in Open(f, parts) <==> x in Unended(f) {
      if x in Open(f, parts) {
        var i :| 0 <= i < |parts| && 1 <= |parts[i]| <= 2 && f.ids[i] == x;
      }
      if x in Unended(f) {
        var i :| 0 <= i < |f.ids| && f.fates[i].Unencodable? && f.ids[i] == x;
        assert 1 <= |parts[i]| <= 2;
      }
    }
  }

  lemma WholeBegan(e: Id, f: Fan)
    requires |f.fates| == |f.ids| == |f.calls|
    ensures Began(f, Parts(e, f)) == DrawnIds(f)
  {
    var parts := Parts(e, f);
    assert forall i :: 0 <= i < |parts| ==> (|parts[i]| >= 1 <==> f.fates[i].Drawn());
    forall x ensures x in Began(f, parts) <==> x in DrawnIds(f) {
      if x in Began(f, parts) {
        var i :| 0 <= i < |parts| && |parts[i]| >= 1 && f.ids[i] == x;
      }
      if x in DrawnIds(f) {
        var i :| 0 <= i < |f.ids| && f.fates[i].Drawn() && f.ids[i] == x;
        assert |parts[i]| >= 1;
      }
    }
  }

  // ---------- Rounds ----------

  function RoundIds(r: Round): set<Id> {
    {r.stepId} + if |r.fan.fates| == |r.fan.ids| then DrawnIds(r.fan) else {}
  }

  function UsedBy(rs: seq<Round>): set<Id> {
    if rs == [] then {} else UsedBy(rs[..|rs| - 1]) + RoundIds(rs[|rs| - 1])
  }

  ghost predicate Growing(e: Id, c: Id, rs: seq<Round>) {
    && RunLaws.Sequenced(e, c, rs)
    && forall i, j :: 0 <= i < j < |rs| ==> NewerThan(rs[j], rs[i])
  }

  lemma {:induction false} AllOlder(e: Id, c: Id, rs: seq<Round>, r: Round)
    requires forall i :: 0 <= i < |rs| ==> RoundOk(e, c, rs[i]) && NewerThan(r, rs[i])
    ensures forall x :: x in UsedBy(rs) ==> x < r.stepId
  {
    if rs != [] {
      AllOlder(e, c, rs[..|rs| - 1], r);
    }
  }

  lemma {:induction false} RoundsPhase(e: Id, c: Id, rs: seq<Round>)
    requires Growing(e, c, rs)
    ensures rs == [] ==> FeedAll(Ready, EventsIn(Flatten(e, rs))) == Ready
    ensures rs != [] ==>
              var f := rs[|rs| - 1].fan;
              |f.fates| == |f.ids| && FeedAll(Ready, EventsIn(Flatten(e, rs))) == Busy(Unended(f), UsedBy(rs))
  {
    if rs != [] {
      var rs', r := rs[..|rs| - 1], rs[|rs| - 1];
      RoundsPhase(e, c, rs');
      AllOlder(e, c, rs', r);
      if rs' != [] {
        GoesOnCloses(e, rs'[|rs'| - 1]);
      }
      RoundPhase(e, c, r, FeedAll(Ready, EventsIn(Flatten(e, rs'))), UsedBy(rs'));
      FiltersConcat(Flatten(e, rs'), RoundLog(e, r));
      FeedConcat(Ready, EventsIn(Flatten(e, rs')), EventsIn(RoundLog(e, r)));
    }
  }

  lemma GoesOnCloses(e: Id, r: Round)
    requires GoesOn(r) && FanOk(e, r.fan)
    ensures Unended(r.fan) == {}
  {
    SequentialOkIff(r.fan.calls, r.fan.fates);
  }

  lemma RoundPhase(e: Id, c: Id, r: Round, before: Phase, used: set<Id>)
    requires RoundOk(e, c, r)
    requires forall x :: x in used ==> x < r.stepId
    requires before == Busy({}, used) || (before == Ready && used == {})
    ensures FeedAll(before, EventsIn(RoundLog(e, r))) == Busy(Unended(r.fan), used + RoundIds(r))
  {
    hide Shuffle, RoundLog, Stores, Sequential, Unended;
    var thinking := Event(e, AgentThinking, Some(r.stepId));
    RunLaws.RoundFilters(e, r);
    FeedConcat(before, [thinking], EventsIn(r.fan.acts));
    assert [thinking][..0] == [];
    assert FeedAll(before, [thinking]) == Busy({}, used + {r.stepId});
    WholeFan(e, r.fan, used + {r.stepId});
    assert used + {r.stepId} + DrawnIds(r.fan) == used + RoundIds(r);
  }

  // ---------- Whole runs ----------

  /** Some call of the run returned an output that could not be encoded. */
  ghost predicate HasUnencodable(run: Run) {
    exists i, j :: 0 <= i < |run.rounds| && 0 <= j < |run.rounds[i].fan.fates|
        && run.rounds[i].fan.fates[j].Unencodable?
  }

  /** In a well-formed run only the last round can hold an unencodable output. */
  lemma UnencodableIsLast(run: Run)
    requires RunLaws.Sequenced(run.start.id, run.start.conversationId, run.rounds)
    ensures HasUnencodable(run) <==> run.rounds != [] && Unended(run.rounds[|run.rounds| - 1].fan) != {}
  {
    var rs := run.rounds;
    if HasUnencodable(run) {
      var i, j :| 0 <= i < |rs| && 0 <= j < |rs[i].fan.fates| && rs[i].fan.fates[j].Unencodable?;
      if i < |rs| - 1 {
        SequentialOkIff(rs[i].fan.calls, rs[i].fan.fates);
        assert false;
      }
      assert rs[i].fan.ids[j] in Unended(rs[i].fan);
    }
    if rs != [] && Unended(rs[|rs| - 1].fan) != {} {
      var x :| x in Unended(rs[|rs| - 1].fan);
      var j :| 0 <= j < |rs[|rs| - 1].fan.ids| && rs[|rs| - 1].fan.fates[j].Unencodable?
          && rs[|rs| - 1].fan.ids[j] == x;
    }
  }

  /**
   * The events of a run are: started, then rounds of one thinking event and tool events in which every started step
   * ends exactly once before the next thinking event, then one final event. It holds for every tool schedule, exactly
   * when no tool output was unencodable.
   */
  lemma EventLanguage(run: Run)
    requires RunOk(run)
    ensures FeedAll(Unstarted, EventsIn(Log(run))) ==
            if HasUnencodable(run) then Wrong
            else Over(if FinalOf(run).status.Succeeded? then AgentCompleted else AgentFailed)
  {
    UnencodableIsLast(run);
    BeforeFinal(run);
    LastEvent(run);
    Verdict(run, FeedAll(Unstarted, BeforeLast(run)), HasUnencodable(run));
  }

  const FAILURE := External(400)

  const UNSENT := Wrapped("encode tool " + RunLaws.CALL.name + " output", FAILURE)

  /** The calculator answers something that cannot be encoded. */
  const UNENCODED := RunLaws.ASKING.(
    fan := Fan([RunLaws.CALL], [Unencodable(FAILURE)], [11], [Emit(Event(0, ToolStarted, Some(11)))], [0]), heard := [])

  const UNENDED := Run(RunLaws.QUESTION, 0, 0, [], RunLaws.EXAMPLE.opening, [UNENCODED], None,
                       Stopped(UNSENT), 1)

  /** There are such runs, and their events are not in the language. */
  lemma UnencodableRun()
    ensures RunOk(UNENDED) && HasUnencodable(UNENDED)
    ensures FeedAll(Unstarted, EventsIn(Log(UNENDED))) == Wrong
  {
    hide RoundOk, PromptAfter, FeedAll, Log;
    UnencodedRound();
    assert UNENDED.rounds[0].fan.fates[0].Unencodable?;
    assert [UNENCODED][..0] == [];
    EventLanguage(UNENDED);
  }

  lemma UnencodedRound()
    ensures RoundOk(0, 0, UNENCODED) && !GoesOn(UNENCODED) && !Answers(UNENCODED)
    ensures Broke(UNENCODED, UNSENT)
  {
    var f, part := UNENCODED.fan, Part(0, RunLaws.CALL, Unencodable(FAILURE), 11);
    assert Parts(0, f) == [part];
    assert part[..0] == [] && f.acts[..0] == [] && f.who[..0] == [] && [part][0 := []] == [[]];
    assert Shuffle([], [], [[]]);
    assert f.calls[..0] == [] && f.fates[..0] == [];
    assert Outcome(RunLaws.CALL, Unencodable(FAILURE)) == Err(UNSENT);
  }

  function BeforeLast(run: Run): seq<Event> {
    [Event(run.start.id, AgentStarted, None)] + EventsIn(Flatten(run.start.id, run.rounds))
  }

  lemma Verdict(run: Run, p: Phase, unended: bool)
    requires EndingOk(run.opening, run.rounds, run.knock, run.ending)
    requires if run.rounds == [] then p == Ready && !unended else p.Busy? && (unended <==> p.open != {})
    ensures Feed(p, FinalEvent(run)) ==
            if unended then Wrong else Over(if FinalOf(run).status.Succeeded? then AgentCompleted else AgentFailed)
  {
    FinalEventKind(run);
  }

  lemma FinalEventKind(run: Run)
    requires EndingOk(run.opening, run.rounds, run.knock, run.ending)
    ensures FinalEvent(run) ==
            Event(run.start.id, if FinalOf(run).status.Succeeded? then AgentCompleted else AgentFailed, None)
    ensures FinalOf(run).status.Succeeded? ==> run.rounds != []
  {
  }

  lemma LastEvent(run: Run)
    ensures FeedAll(Unstarted, EventsIn(Log(run))) ==
            Feed(FeedAll(Unstarted, BeforeLast(run)), FinalEvent(run))
  {
    var mid := BeforeLast(run);
    RunLaws.LogFilters(run);
    FeedConcat(Unstarted, mid, [FinalEvent(run)]);
    FeedOne(FeedAll(Unstarted, mid), FinalEvent(run));
  }

  lemma FeedOne(p: Phase, v: Event)
    ensures FeedAll(p, [v]) == Feed(p, v)
  {
    assert [v][..0] == [];
  }

  /** Where the events stand when only the final one is missing. */
  lemma BeforeFinal(run: Run)
    requires RunOk(run)
    ensures var p := FeedAll(Unstarted, BeforeLast(run));
            if run.rounds == [] then p == Ready
            else p == Busy(Unended(run.rounds[|run.rounds| - 1].fan), UsedBy(run.rounds))
  {
    var started := Event(run.start.id, AgentStarted, None);
    FeedConcat(Unstarted, [started], EventsIn(Flatten(run.start.id, run.rounds)));
    FeedOne(Unstarted, started);
    RoundsPhase(run.start.id, run.start.conversationId, run.rounds);
  }

  /** An action of a run between its first and its last two: no rewrite of the record, no final event, nobody else's. */
  predicate Inner(e: Id, c: Id, a: Action) {
    match a
    case Update(_) => false
    case AddStep(p) => p.executionId == e
    case AddMessage(m) => m.conversationId == c
    case Emit(v) => v.executionId == e && !IsFinal(v)
    case Gate(_) => true
    case Ask(_, _, _) => true
  }

  lemma {:induction false} MidActions(e: Id, c: Id, rs: seq<Round>, k: nat)
    requires forall i :: 0 <= i < |rs| ==> RoundOk(e, c, rs[i])
    requires k < |Flatten(e, rs)|
    ensures Inner(e, c, Flatten(e, rs)[k])
  {
    var rs', r := rs[..|rs| - 1], rs[|rs| - 1];
    var n := |Flatten(e, rs')|;
    if k < n {
      MidActions(e, c, rs', k);
    } else {
      RoundActions(e, c, r, k - n);
    }
  }

  lemma RoundActions(e: Id, c: Id, r: Round, k: nat)
    requires RoundOk(e, c, r) && k < |RoundLog(e, r)|
    ensures Inner(e, c, RoundLog(e, r)[k])
  {
    var h := 5 + |r.spoken|;
    if h <= k < h + |r.fan.acts| {
      assert RoundLog(e, r)[k] == r.fan.acts[k - h];
      FanActions(e, r.fan, k - h);
    } else if k >= h + |r.fan.acts| {
      assert RoundLog(e, r)[k] == AddMessage(r.heard[k - h - |r.fan.acts|]);
    } else if k >= 5 {
      assert RoundLog(e, r)[k] == AddMessage(r.spoken[k - 5]);
    } else {
      assert RoundLog(e, r)[k] == Head(e, r)[k];
    }
  }

  /** A final event is published once, last, and only after the matching terminal record is stored. */
  lemma FinalEventFollowsStatus(run: Run, k: nat)
    requires RunOk(run) && k < |Log(run)|
    requires Log(run)[k].Emit? && IsFinal(Log(run)[k].event)
    ensures k == |Log(run)| - 1 && Log(run)[k - 1] == Update(FinalOf(run)) && Terminal(FinalOf(run).status)
    ensures Log(run)[k].event.kind == AgentCompleted <==> FinalOf(run).status == Succeeded
  {
    RunLaws.Outcome(run);
    LogIndex(run, k);
  }

  /** Only the last action of a run is a final event, and only its first and last but one are rewrites of the record. */
  lemma LogIndex(run: Run, k: nat)
    requires OpeningOk(run) && k < |Log(run)|
    requires forall i :: 0 <= i < |run.rounds| ==> RoundOk(run.start.id, run.start.conversationId, run.rounds[i])
    ensures |Log(run)| >= 4
    ensures k == |Log(run)| - 1 ==> Log(run)[k] == Emit(FinalEvent(run))
    ensures k == |Log(run)| - 2 ==> Log(run)[k] == Update(FinalOf(run))
    ensures k == 0 ==> Log(run)[k] == Update(MarkedRunning(run.start, run.startedAt))
    ensures 0 < k < |Log(run)| - 2 ==> Inner(run.start.id, run.start.conversationId, Log(run)[k])
  {
    hide Log, Flatten, Closing, RoundOk, EventsIn, FinalOf, MarkedRunning, OpeningOk, Says;
    LogParts(run, k);
    var n := |Opening(run)| + |Flatten(run.start.id, run.rounds)|;
    if k < |Opening(run)| {
      OpeningIndex(run, k);
    } else if k < n {
      MidActions(run.start.id, run.start.conversationId, run.rounds, k - |Opening(run)|);
    } else if k >= |Log(run)| - 2 {
      ClosingIndex(run);
    }
  }

  lemma ClosingIndex(run: Run)
    ensures Closing(run)[0] == Update(FinalOf(run)) && Closing(run)[1] == Emit(FinalEvent(run))
  {
  }

  lemma LogParts(run: Run, k: nat)
    requires k < |Log(run)|
    ensures var n := |Opening(run)| + |Flatten(run.start.id, run.rounds)|;
            && |Log(run)| == n + |Knocking(run)| + 2
            && Log(run)[k] ==
               if k < |Opening(run)| then Opening(run)[k]
               else if k < n then Flatten(run.start.id, run.rounds)[k - |Opening(run)|]
               else if k < |Log(run)| - 2 then Knocking(run)[k - n]
               else Closing(run)[k - |Log(run)| + 2]
  {
  }

  lemma OpeningIndex(run: Run, k: nat)
    requires OpeningOk(run) && k < |Opening(run)|
    ensures k == 0 ==> Opening(run)[k] == Update(MarkedRunning(run.start, run.startedAt))
    ensures k > 0 ==> Inner(run.start.id, run.start.conversationId, Opening(run)[k])
  {
    if k >= 2 {
      assert Opening(run)[k] == AddMessage(run.opening[k - 2]);
    } else {
      assert Opening(run)[k] == Marking(run)[k];
    }
  }
}
