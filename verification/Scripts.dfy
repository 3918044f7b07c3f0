/** A run as the rest of the system sees it: a script of actions on its own execution and conversation. */
module Scripts {
  import opened Domain
  import opened Runs
  import opened Effects
  import RunLaws
  import EventLaws

  datatype Script = Script(start: Execution, marked: Execution, final: Execution, log: seq<Action>)

  function ScriptOf(run: Run): Script {
    Script(run.start, MarkedRunning(run.start, run.startedAt), FinalOf(run), Log(run))
  }

  /** Action k is the run's own, and rewrites the record or announces the end only where a script may. */
  predicate LawfulAt(p: Script, k: nat)
    requires k < |p.log|
  {
    && Own(p.start.id, p.start.conversationId, p.log[k])
    && (k == 0 ==> p.log[k] == Update(p.marked))
    && (k == |p.log| - 2 ==> p.log[k] == Update(p.final))
    && (k == |p.log| - 1 ==> p.log[k].Emit? && (p.log[k].event.kind.AgentCompleted? <==> p.final.status.Succeeded?))
    && (p.log[k].Update? ==> k == 0 || k == |p.log| - 2)
    && (p.log[k].Emit? && IsFinal(p.log[k].event) ==> k == |p.log| - 1)
  }

  /** First marked running, last made terminal, with a retry count that its steps account for. */
  ghost predicate Lawful(p: Script) {
    && |p.log| >= 4
    && (forall k :: 0 <= k < |p.log| ==> LawfulAt(p, k))
    && SameIdentity(p.marked, p.start) && SameIdentity(p.final, p.start)
    && p.marked.status == Running && p.marked.retryCount == p.start.retryCount
    && Terminal(p.final.status)
    && (p.start.retryCount == 0 ==> p.final.retryCount == RunLaws.RetriesOf(StepsIn(p.log)))
  }

  /** Whatever the engine does in a run is lawful. */
  lemma RunsAreLawful(run: Run)
    requires RunOk(run)
    ensures Lawful(ScriptOf(run))
  {
    RunIsOwn(run);
    RunIsCounted(run);
    RunLaws.Outcome(run);
    EventLaws.LogIndex(run, 0);
  }

  lemma RunIsOwn(run: Run)
    requires OpeningOk(run) && EndingOk(run.opening, run.rounds, run.knock, run.ending)
    requires forall i :: 0 <= i < |run.rounds| ==> RoundOk(run.start.id, run.start.conversationId, run.rounds[i])
    ensures forall k :: 0 <= k < |Log(run)| ==> LawfulAt(ScriptOf(run), k)
  {
    forall k | 0 <= k < |Log(run)| ensures LawfulAt(ScriptOf(run), k) {
      EventLaws.LogIndex(run, k);
      FinalIdentity(run);
      EventLaws.FinalEventKind(run);
    }
  }

  lemma FinalIdentity(run: Run)
    ensures SameIdentity(FinalOf(run), run.start)
  {
    RunLaws.CarriedKeeps(MarkedRunning(run.start, run.startedAt), run.rounds);
  }

  lemma RunIsCounted(run: Run)
    requires forall i :: 0 <= i < |run.rounds| ==> RoundOk(run.start.id, run.start.conversationId, run.rounds[i])
    ensures FinalOf(run).retryCount == run.start.retryCount + RunLaws.RetriesOf(StepsIn(Log(run)))
  {
    RunLaws.LogFilters(run);
    RunLaws.RoundsRetries(run.start.id, run.start.conversationId, MarkedRunning(run.start, run.startedAt), run.rounds);
  }

  /** What the record looks like after the first n actions. */
  function RecordAt(p: Script, n: nat): Execution {
    if n == 0 then p.start else if n < |p.log| - 1 then p.marked else p.final
  }

  lemma RecordKeeps(p: Script, n: nat)
    requires Lawful(p)
    ensures SameIdentity(RecordAt(p, n), p.start)
  {
  }

  /** The first n actions, and nothing else, have reached the record, the steps and the events of the execution. */
  predicate DoneSoFar(w: World, p: Script, n: nat)
    requires n <= |p.log|
  {
    && w.RecordOf(p.start.id) == Some(RecordAt(p, n))
    && w.store.StepsOf(p.start.id) == StepsIn(p.log[..n])
    && w.EventsOf(p.start.id) == EventsIn(p.log[..n])
  }

  lemma ActDoes(w: World, p: Script, n: nat)
    requires Lawful(p) && n < |p.log| && DoneSoFar(w, p, n)
    ensures DoneSoFar(Effect(w, p.log[n]), p, n + 1)
  {
    hide StepsIn, EventsIn;
    var a := p.log[n];
    assert LawfulAt(p, n);
    assert p.log[..n + 1] == p.log[..n] + [a];
    FiltersConcat(p.log[..n], [a]);
    OneFilters(a);
  }

  lemma WaitKeeps(r: Ident, m: Moment, n: Moment, p: Script, k: nat)
    requires Waits(r, m, n) && r.execution == p.start.id && k <= |p.log| && DoneSoFar(m.world, p, k)
    ensures DoneSoFar(n.world, p, k)
  {
  }

  lemma PerformDoes(m: Moment, p: Script, k: nat)
    requires Lawful(p) && k < |p.log| && DoneSoFar(m.world, p, k)
    ensures DoneSoFar(Perform(m, p.log[k]).world, p, k + 1)
  {
    hide DoneSoFar;
    ActDoes(m.world, p, k);
  }

  lemma {:induction false} ChainDoes(r: Ident, m: Moment, es: seq<Entry>, n: Moment, p: Script)
    requires Lawful(p) && r.execution == p.start.id && DoneSoFar(m.world, p, 0)
    requires Chain(r, m, es, n) && |es| <= |p.log| && ActionsOf(es) == p.log[..|es|]
    ensures DoneSoFar(n.world, p, |es|)
    ensures forall k :: 0 <= k < |es| ==> DoneSoFar(es[k].at.world, p, k)
    decreases |es|
  {
    hide DoneSoFar, Lawful, Waits, Perform;
    if es == [] {
      WaitKeeps(r, m, n, p, 0);
    } else {
      var k := |es| - 1;
      assert ActionsOf(es)[k] == p.log[k] && ActionsOf(es[..k]) == p.log[..k];
      ChainDoes(r, m, es[..k], es[k].at, p);
      PerformDoes(es[k].at, p, k);
      WaitKeeps(r, Perform(es[k].at, p.log[k]), n, p, k + 1);
      forall i | 0 <= i < |es| ensures DoneSoFar(es[i].at.world, p, i) {
        assert i < k ==> es[..k][i] == es[i];
      }
    }
  }

  /**
   * Whatever the others do, at the moment at which a run does its action k just the actions before that have reached
   * its record, its steps and its events: nobody ever sees them in another order.
   */
  lemma EveryMoment(r: Ident, v: Scene, w: Scene, run: Run)
    requires RunOk(run) && r.execution == run.start.id && v.journal == [] && Did(r, v, w, Log(run))
    requires DoneSoFar(v.now.world, ScriptOf(run), 0)
    ensures |w.journal| == |Log(run)|
    ensures forall k :: 0 <= k < |w.journal| ==>
              w.journal[k].action == Log(run)[k] && DoneSoFar(w.journal[k].at.world, ScriptOf(run), k)
    ensures DoneSoFar(w.now.world, ScriptOf(run), |Log(run)|)
  {
    hide RunOk, Log, Lawful, DoneSoFar, Chain;
    var es := w.journal;
    assert es[|v.journal|..] == es;
    assert forall k :: 0 <= k < |es| ==> es[k].action == ActionsOf(es)[k];
    assert ActionsOf(es) == Log(run)[..|es|];
    RunsAreLawful(run);
    ChainDoes(r, v.now, es, w.now, ScriptOf(run));
  }

  /** An action of another run changes nothing for execution e, and no conversation. */
  lemma ActSpares(w: World, p: Script, n: nat, e: Id)
    requires Lawful(p) && n < |p.log| && e != p.start.id
    ensures var v := Effect(w, p.log[n]);
            && v.RecordOf(e) == w.RecordOf(e)
            && v.store.StepsOf(e) == w.store.StepsOf(e)
            && v.EventsOf(e) == w.EventsOf(e)
  {
    assert LawfulAt(p, n);
  }

  /** An action adds to no conversation but its own, and there at most itself. */
  lemma ActAdds(w: World, p: Script, n: nat, c: Id)
    requires Lawful(p) && n < |p.log|
    ensures var v := Effect(w, p.log[n]);
            && v.store.conversations == w.store.conversations
            && v.store.agents == w.store.agents
            && v.store.MessagesOf(c) == w.store.MessagesOf(c) +
               (if c == p.start.conversationId && p.log[n].AddMessage? then [p.log[n].msg] else [])
            && v.store.messages.Keys ==
               w.store.messages.Keys + (if p.log[n].AddMessage? then {p.start.conversationId} else {})
            && v.store.steps.Keys <= w.store.steps.Keys + {p.start.id}
            && v.events.Keys <= w.events.Keys + {p.start.id}
            && v.store.executions.Keys <= w.store.executions.Keys + {p.start.id}
            && w.store.executions.Keys <= v.store.executions.Keys
  {
    assert LawfulAt(p, n);
  }
}
