/**
 * A run under way, before anybody can tell which run it will have been: a state of the dispatch protocol in which one
 * consumer has done the first actions of some script, and which is right for every run that goes on from there.
 */
module Drafts {
  import opened Actors
  import opened Dispatch
  import opened Domain
  import opened Effects
  import opened EventLaws
  import opened Runs
  import opened Scripts
  import DispatchLaws
  import DispatchProofs
  import RunLaws

  // ---------- Beginnings of scripts ----------

  predicate MarkedAs(x: Execution, y: Execution) {
    SameIdentity(y, x) && y.status == Running && y.retryCount == x.retryCount
  }

  /** Actions of a run of x that has marked it as running, and has not ended. */
  predicate Midway(x: Execution, l: seq<Action>) {
    && l != [] && l[0].Update? && MarkedAs(x, l[0].x)
    && forall k :: 1 <= k < |l| ==> Inner(x.id, x.conversationId, l[k])
  }

  lemma MidwaySnoc(x: Execution, l: seq<Action>, a: Action)
    requires Midway(x, l) && Inner(x.id, x.conversationId, a)
    ensures Midway(x, l + [a])
  {
  }

  /** p is a lawful script of x that begins with l and goes on. */
  ghost predicate GoesOnWith(p: Script, x: Execution, l: seq<Action>) {
    Lawful(p) && p.start == x && |l| < |p.log| && p.log[..|l|] == l
  }

  ghost predicate Promising(x: Execution, l: seq<Action>) {
    exists p :: GoesOnWith(p, x, l)
  }

  /** What a run does that fails at once. */
  function Failing(x: Execution, marked: Execution, retries: int): (r: seq<Action>)
    ensures |r| == 3
  {
    [Emit(Event(x.id, AgentThinking, None)), Update(marked.(status := Failed, retryCount := retries)),
     Emit(Event(x.id, AgentFailed, None))]
  }

  lemma FailingSteps(x: Execution, marked: Execution, retries: int)
    ensures StepsIn(Failing(x, marked, retries)) == []
  {
    var rest := Failing(x, marked, retries);
    assert rest == [rest[0], rest[1]] + [rest[2]];
    FiltersConcat([rest[0], rest[1]], [rest[2]]);
    RunLaws.PairFilters(rest[0], rest[1]);
  }

  lemma MidwayIsPromising(x: Execution, l: seq<Action>)
    requires Midway(x, l)
    ensures Promising(x, l)
  {
    hide StepsIn, LawfulAt;
    var retries := RunLaws.RetriesOf(StepsIn(l));
    var rest := Failing(x, l[0].x, retries);
    var p := Script(x, l[0].x, l[0].x.(status := Failed, retryCount := retries), l + rest);
    FiltersConcat(l, rest);
    FailingSteps(x, l[0].x, retries);
    assert StepsIn(l) + [] == StepsIn(l);
    forall k | 0 <= k < |p.log| ensures LawfulAt(p, k) {
      FailingIsLawful(x, l, p, k);
    }
    assert GoesOnWith(p, x, l);
  }

  lemma FailingIsLawful(x: Execution, l: seq<Action>, p: Script, k: nat)
    requires Midway(x, l) && p.start == x && p.marked == l[0].x && k < |p.log|
    requires p.log == l + Failing(x, l[0].x, p.final.retryCount)
    requires p.final == l[0].x.(status := Failed, retryCount := p.final.retryCount)
    ensures LawfulAt(p, k)
  {
    assert k >= |l| ==> p.log[k] == Failing(x, l[0].x, p.final.retryCount)[k - |l|];
  }

  /** A well-formed run of x that begins with l and goes on. */
  ghost predicate Begins(run: Run, x: Execution, l: seq<Action>) {
    RunOk(run) && run.start == x && |l| < |Log(run)| && Log(run)[..|l|] == l
  }

  lemma BeginsIsPromising(run: Run, x: Execution, l: seq<Action>)
    requires Begins(run, x, l)
    ensures Promising(x, l)
  {
    ScriptGoesOn(run, x, l);
  }

  // ---------- The state of the others ----------

  /** With consumer w there, having done l of the script p, the state is sound. */
  ghost predicate Drafted(s: State, w: nat, x: Execution, l: seq<Action>, p: Script) {
    GoesOnWith(p, x, l) && Sound(With(s, w, Executing(p, |l|)))
  }

  /** Move tail after ms and the beginning of the run lead to s, but for where consumer w is. */
  ghost predicate Realizes(cfg: Config, ms: seq<Move>, w: nat, tail: seq<Move>, s: State, run: Run, n: nat) {
    var all := ms + [Check(w, run)] + tail;
    Behaviour(cfg, all) && After(cfg, all) == With(s, w, Executing(ScriptOf(run), n))
  }

  /** They do so whichever run it will be. */
  ghost predicate Whichever(cfg: Config, ms: seq<Move>, w: nat, tail: seq<Move>, s: State, x: Execution,
                            l: seq<Action>) {
    forall run :: Begins(run, x, l) ==> Realizes(cfg, ms, w, tail, s, run, |l|)
  }

  /** A run that ends before its first message. */
  function Shortest(x: Execution): Run {
    Run(x, 0, 0, [], [], [], None, Stopped(NoEntropy), 0)
  }

  lemma ShortestBegins(x: Execution)
    ensures Begins(Shortest(x), x, [])
  {
    assert Log(Shortest(x))[..0] == [];
  }

  /** Consumer w has checked its job, and begins. */
  lemma Starting(cfg: Config, ms: seq<Move>, w: nat, s: State, x: Execution) returns (p: Script)
    requires Behaviour(cfg, ms) && After(cfg, ms).ConsumerOf(w).Checking?
    requires var k := After(cfg, ms).ConsumerOf(w);
             && After(cfg, ms).world.store.OwnsAgent(k.job.ownerId, k.job.agentId)
             && x == k.x && s == After(cfg, ms).(begun := After(cfg, ms).begun + [x.id])
    ensures Drafted(s, w, x, [], p) && Whichever(cfg, ms, w, [], s, x, [])
  {
    hide Behaviour, After, Apply, Sound, RunOk, Lawful, ScriptOf;
    var before := After(cfg, ms);
    forall run | Begins(run, x, [])
      ensures Realizes(cfg, ms, w, [], s, run, 0) && Sound(With(s, w, Executing(ScriptOf(run), 0)))
    {
      OneMove(cfg, ms, Check(w, run));
      CheckIs(cfg, before, w, run);
      assert ms + [Check(w, run)] + [] == ms + [Check(w, run)];
      DispatchProofs.AlwaysSound(cfg, ms + [Check(w, run)]);
    }
    ShortestBegins(x);
    p := ScriptOf(Shortest(x));
    ScriptGoesOn(Shortest(x), x, []);
  }

  lemma ScriptGoesOn(run: Run, x: Execution, l: seq<Action>)
    requires Begins(run, x, l)
    ensures GoesOnWith(ScriptOf(run), x, l)
  {
    RunsAreLawful(run);
  }

  /** Somebody else moves. */
  lemma OthersDraft(cfg: Config, s: State, m: Move, w: nat, x: Execution, l: seq<Action>, p: Script)
    requires Drafted(s, w, x, l, p) && ActorOf(m) != Worker(w) && Allowed(s, m)
    ensures Drafted(Apply(cfg, s, m), w, x, l, p)
    ensures Leaves(Ident(x.id, x.conversationId, false, w), s.world, Apply(cfg, s, m).world)
  {
    hide Apply, Sound, Lawful, Allowed;
    var there := With(s, w, Executing(p, |l|));
    WorkerUnseen(cfg, s, m, w, Executing(p, |l|));
    DispatchProofs.StepSound(cfg, there, m);
    DispatchLaws.LeavesStep(cfg, there, m, w);
  }

  lemma OthersWhichever(cfg: Config, ms: seq<Move>, w: nat, tail: seq<Move>, s: State, x: Execution, l: seq<Action>,
                        m: Move)
    requires Whichever(cfg, ms, w, tail, s, x, l) && ActorOf(m) != Worker(w) && Allowed(s, m)
    ensures Whichever(cfg, ms, w, tail + [m], Apply(cfg, s, m), x, l)
  {
    hide Behaviour, After, Apply, Allowed, RunOk, Log, ScriptOf;
    forall run | Begins(run, x, l) ensures Realizes(cfg, ms, w, tail + [m], Apply(cfg, s, m), run, |l|) {
      assert Realizes(cfg, ms, w, tail, s, run, |l|);
      var all := ms + [Check(w, run)] + tail;
      WorkerUnseen(cfg, s, m, w, Executing(ScriptOf(run), |l|));
      OneMove(cfg, all, m);
      assert ms + [Check(w, run)] + (tail + [m]) == all + [m];
    }
  }

  // ---------- The run's own actions ----------

  /** The script that consumer w follows may be replaced by any other with the same beginning. */
  lemma Redraft(s: State, w: nat, x: Execution, l: seq<Action>, p: Script, q: Script, a: Action)
    requires Drafted(s, w, x, l, p) && GoesOnWith(q, x, l + [a])
    ensures Drafted(s, w, x, l, q) && q.log[|l|] == a
  {
    assert q.log[..|l|] == q.log[..|l| + 1][..|l|] && q.log[|l|] == q.log[..|l| + 1][|l|];
    Rescript(With(s, w, Executing(p, |l|)), w, p, q, |l|);
    assert s.consumers[w := Executing(p, |l|)][w := Executing(q, |l|)] == s.consumers[w := Executing(q, |l|)];
  }

  lemma Rescript(s: State, w: nat, p: Script, q: Script, n: nat)
    requires Sound(s) && s.ConsumerOf(w) == Executing(p, n) && n < |p.log|
    requires Lawful(q) && q.start == p.start && n + 1 < |q.log| && q.log[..n] == p.log[..n]
    ensures Sound(With(s, w, Executing(q, n)))
  {
    var t, e := With(s, w, Executing(q, n)), p.start.id;
    assert ConsumerOk(s, w);
    RescriptOthers(s, w, q, n);
    RescriptOwn(s, w, p, q, n);
    RescriptHistory(s, w, q, n);
    hide *;
    DispatchProofs.Gather(s, t, e, 0, w);
  }

  lemma RescriptOthers(s: State, w: nat, q: Script, n: nat)
    requires Sound(s) && s.ConsumerOf(w).Executing? && ConsumerOk(s, w) && q.start == s.ConsumerOf(w).script.start
    ensures var t, e := With(s, w, Executing(q, n)), q.start.id;
            && DispatchProofs.OthersSame(s, t, e) && DispatchProofs.CallersFrame(s, t, 0, e) && CallerOk(t, 0)
            && DispatchProofs.ConsumersFrame(s, t, w, e) && ConsumerOk(t, w)
  {
    hide HistoryOk, DoneSoFar, Lawful, IdsOk;
    var t, e := With(s, w, Executing(q, n)), q.start.id;
    assert CallerOk(s, 0);
    forall o: Id | o in s.world.store.executions && o != e ensures DispatchProofs.SameFor(s, t, o) {
      DispatchProofs.OtherConsumer(s, w, o, e);
    }
  }

  lemma RescriptOwn(s: State, w: nat, p: Script, q: Script, n: nat)
    requires Sound(s) && s.ConsumerOf(w) == Executing(p, n) && n < |p.log| && ConsumerOk(s, w)
    requires Lawful(q) && q.start == p.start && n + 1 < |q.log| && q.log[..n] == p.log[..n]
    ensures ExecutionOk(With(s, w, Executing(q, n)), p.start.id)
  {
    hide HistoryOk, IdsOk;
    assert ExecutionOk(s, p.start.id);
    SameRecord(p, q, n);
  }

  /** Which record is stored after n actions can be told from these. */
  lemma SameRecord(p: Script, q: Script, n: nat)
    requires Lawful(p) && Lawful(q) && q.start == p.start
    requires n < |p.log| && n + 1 < |q.log| && q.log[..n] == p.log[..n]
    ensures RecordAt(q, n) == RecordAt(p, n)
  {
    if n > 0 {
      assert LawfulAt(p, 0) && LawfulAt(q, 0) && p.log[..n][0] == q.log[..n][0];
      assert LawfulAt(p, n - 1) && LawfulAt(q, n - 1) && p.log[..n][n - 1] == q.log[..n][n - 1];
    }
  }

  lemma RescriptHistory(s: State, w: nat, q: Script, n: nat)
    requires Sound(s) && s.ConsumerOf(w).Executing? && ConsumerOk(s, w) && q.start == s.ConsumerOf(w).script.start
    requires DispatchProofs.OthersSame(s, With(s, w, Executing(q, n)), q.start.id)
    ensures var t := With(s, w, Executing(q, n));
            DispatchProofs.QueueOk(t) && HistoryOk(t) && IdsOk(t)
  {
    hide PlaceOk, DispatchProofs.OthersSame, DispatchProofs.QueueOk;
    var t := With(s, w, Executing(q, n));
    DispatchProofs.QueueKeeps(s, t, q.start.id);
    DispatchProofs.IdsSame(s, t);
    forall e | e in t.begun ensures HasBegun(t, e) { assert HasBegun(s, e); }
  }

  /** The state after action a of a run of execution e, but for where its consumer is. */
  function Acting(s: State, e: Id, a: Action): State {
    s.(world := Effect(s.world, a),
       authors := if a.AddMessage? then s.authors[a.msg.conversationId := s.AuthorsOf(a.msg.conversationId) + [e]]
                  else s.authors)
  }

  lemma ActDraft(cfg: Config, s: State, w: nat, x: Execution, l: seq<Action>, p: Script, a: Action)
    requires Drafted(s, w, x, l, p) && GoesOnWith(p, x, l + [a]) && p.log[|l|] == a
    ensures Drafted(Acting(s, x.id, a), w, x, l + [a], p)
  {
    hide Sound, Lawful, Effect;
    var there := With(s, w, Executing(p, |l|));
    DispatchProofs.ActSound(there, w);
    assert s.consumers[w := Executing(p, |l|)][w := Executing(p, |l| + 1)] == s.consumers[w := Executing(p, |l| + 1)];
    assert Acted(there, w) == With(Acting(s, x.id, a), w, Executing(p, |l| + 1));
  }

  lemma ActWhichever(cfg: Config, ms: seq<Move>, w: nat, tail: seq<Move>, s: State, x: Execution, l: seq<Action>,
                     a: Action)
    requires Whichever(cfg, ms, w, tail, s, x, l)
    ensures Whichever(cfg, ms, w, tail + [Act(w)], Acting(s, x.id, a), x, l + [a])
  {
    hide Behaviour, After, Apply, RunOk, Log, Effect;
    forall run | Begins(run, x, l + [a])
      ensures Realizes(cfg, ms, w, tail + [Act(w)], Acting(s, x.id, a), run, |l + [a]|)
    {
      assert Log(run)[..|l|] == Log(run)[..|l| + 1][..|l|] && Log(run)[|l|] == Log(run)[..|l| + 1][|l|];
      assert Begins(run, x, l) && Realizes(cfg, ms, w, tail, s, run, |l|);
      var all, k := ms + [Check(w, run)] + tail, Executing(ScriptOf(run), |l| + 1);
      OneMove(cfg, all, Act(w));
      ActIs(cfg, After(cfg, all), w);
      assert s.consumers[w := Executing(ScriptOf(run), |l|)][w := k] == s.consumers[w := k];
      assert ms + [Check(w, run)] + (tail + [Act(w)]) == all + [Act(w)];
    }
  }

  /** The state after the last action a of the run. */
  ghost function Settling(s: State, w: nat, a: Action, run: Run): State {
    With(Acting(s, run.start.id, a), w, Idle).(place := s.place[run.start.id := Settled(ScriptOf(run))])
  }

  lemma Settles(cfg: Config, ms: seq<Move>, w: nat, tail: seq<Move>, s: State, x: Execution, l: seq<Action>, a: Action,
                run: Run)
    requires Whichever(cfg, ms, w, tail, s, x, l) && Begins(run, x, l) && Log(run) == l + [a]
    ensures var all := ms + [Check(w, run)] + tail + [Act(w)];
            Behaviour(cfg, all) && After(cfg, all) == Settling(s, w, a, run)
  {
    hide Behaviour, After, Apply, RunOk, Log, Effect;
    assert Realizes(cfg, ms, w, tail, s, run, |l|);
    var all := ms + [Check(w, run)] + tail;
    OneMove(cfg, all, Act(w));
    ActIs(cfg, After(cfg, all), w);
    assert s.consumers[w := Executing(ScriptOf(run), |l|)][w := Idle] == s.consumers[w := Idle];
  }
}
