/** workflow.Engine: the bounded loop of completions and concurrent tool calls, run among other actors. */
module Engine {
  import opened Domain
  import opened Int64
  import opened Runs
  import opened Effects
  import EventLaws
  import opened Drafts
  import opened Progress
  import opened Ids
  import opened Oracle
  import opened Scripts
  import B = Breaker
  import Dispatch
  import Retry
  import RunLaws
  import S = Store
  import Site
  import ToolLaws

  // ---------- Tool calls ----------

  /** How many shared actions a call has done by stage 0 (not begun), 1 (started), 2 (recorded) or 3 (left). */
  function Emitted(fate: Fate, stage: nat): nat {
    if stage <= 2 then stage
    else if fate.Stored() then 3
    else if fate.Unencodable? then 1
    else 0
  }

  /** The state of the goroutine of one tool call. */
  ghost predicate ThreadOk(e: Id, call: ToolCall, fate: Fate, id: Id, stage: nat, part: seq<Action>, m: Prompt,
                           err: Option<Error>) {
    && stage <= 3
    && (stage == 1 ==> fate.Drawn())
    && (stage == 2 ==> fate.Stored())
    && part == Part(e, call, fate, id)[..Emitted(fate, stage)]
    && (stage < 3 ==> err.None?)
    && (stage == 3 ==> match Outcome(call, fate) case Ok(p) => m == p && err.None? case Err(x) => err == Some(x))
  }

  /** Shared actions and returns still to come. */
  function Remaining(stages: seq<nat>): nat
    requires forall i :: 0 <= i < |stages| ==> stages[i] <= 3
  {
    if stages == [] then 0 else Remaining(stages[..|stages| - 1]) + 3 - stages[|stages| - 1]
  }

  lemma {:induction false} RemainingDrops(stages: seq<nat>, i: nat, s: nat)
    requires forall j :: 0 <= j < |stages| ==> stages[j] <= 3
    requires i < |stages| && stages[i] < s <= 3
    ensures Remaining(stages[i := s]) < Remaining(stages)
  {
    var n := |stages| - 1;
    if i == n {
      assert stages[i := s][..n] == stages[..n];
    } else {
      RemainingDrops(stages[..n], i, s);
      assert stages[i := s][..n] == stages[..n][i := s];
    }
  }

  /** The actions of a fan-out so far, and the part each belongs to. */
  datatype Interleaving = Interleaving(acts: seq<Action>, who: seq<nat>, parts: seq<seq<Action>>) {
    predicate Valid() {
      Shuffle(acts, who, parts)
    }

    /** The at most one action of a scheduling step is added. */
    ghost function Extended(i: nat, more: seq<Action>): (r: Interleaving)
      requires Valid() && i < |parts| && |more| <= 1
      ensures r.Valid() && r.acts == acts + more && r.parts == parts[i := parts[i] + more]
    {
      if more == [] then
        assert parts[i] + more == parts[i];
        this
      else
        ToolLaws.ShuffleStep(acts, who, parts, i, more[0]);
        Interleaving(acts + [more[0]], who + [i], parts[i := parts[i] + [more[0]]])
    }
  }

  ghost predicate Decreased(before: seq<nat>, after: seq<nat>) {
    && (forall i :: 0 <= i < |before| ==> before[i] <= 3)
    && (forall i :: 0 <= i < |after| ==> after[i] <= 3)
    && Remaining(after) < Remaining(before)
  }

  /** The goroutines of all calls, with what they left in the two shared arrays. */
  ghost predicate FanState(e: Id, calls: seq<ToolCall>, fates: seq<Fate>, drawn: seq<Id>, stages: seq<nat>,
                           parts: seq<seq<Action>>, ms: seq<Prompt>, es: seq<Option<Error>>) {
    && |fates| == |drawn| == |stages| == |parts| == |ms| == |es| == |calls|
    && forall i :: 0 <= i < |calls| ==> ThreadOk(e, calls[i], fates[i], drawn[i], stages[i], parts[i], ms[i], es[i])
  }

  /** Slot i of the two arrays holds the outcome of call i. */
  predicate Outcomes(calls: seq<ToolCall>, fates: seq<Fate>, ms: seq<Prompt>, es: seq<Option<Error>>) {
    && |fates| == |ms| == |es| == |calls|
    && forall i :: 0 <= i < |calls| ==>
         match Outcome(calls[i], fates[i]) case Ok(p) => ms[i] == p && es[i].None? case Err(x) => es[i] == Some(x)
  }

  /** Goroutine i has drawn its identifier. */
  predicate DrawnBy(fates: seq<Fate>, stages: seq<nat>, i: nat)
    requires |fates| == |stages| && i < |stages|
  {
    stages[i] > 0 && fates[i].Drawn()
  }

  predicate IdsFresh(fates: seq<Fate>, drawn: seq<Id>, stages: seq<nat>, lo: Id, hi: Id) {
    && |fates| == |drawn| == |stages|
    && (forall i :: 0 <= i < |stages| && DrawnBy(fates, stages, i) ==> lo <= drawn[i] < hi)
    && forall i, j :: 0 <= i < j < |stages| && DrawnBy(fates, stages, i) && DrawnBy(fates, stages, j) ==>
         drawn[i] != drawn[j]
  }

  lemma FanStep(e: Id, calls: seq<ToolCall>, fates: seq<Fate>, drawn: seq<Id>, stages: seq<nat>,
                parts: seq<seq<Action>>, ms: seq<Prompt>, es: seq<Option<Error>>,
                i: nat, id: Id, stage: nat, more: seq<Action>, m: Prompt, err: Option<Error>)
    requires FanState(e, calls, fates, drawn, stages, parts, ms, es) && i < |calls|
    requires ThreadOk(e, calls[i], fates[i], id, stage, parts[i] + more, m, err)
    ensures FanState(e, calls, fates, drawn[i := id], stages[i := stage], parts[i := parts[i] + more], ms[i := m],
            es[i := err])
    ensures forall j :: 0 <= j < |stages| ==> stages[j] <= 3
  {
  }

  lemma IdsStep(fates: seq<Fate>, drawn: seq<Id>, stages: seq<nat>, lo: Id, hi: Id, i: nat, id: Id, stage: nat, hi': Id)
    requires IdsFresh(fates, drawn, stages, lo, hi) && i < |stages| && stage > 0 && lo <= hi <= hi'
    requires if stages[i] == 0 && fates[i].Drawn() then hi <= id < hi' else id == drawn[i]
    ensures IdsFresh(fates, drawn[i := id], stages[i := stage], lo, hi')
  {
  }

  /** When every goroutine has left, the parts are whole and the arrays hold the outcomes. */
  lemma AllLeft(e: Id, f: Fan, stages: seq<nat>, parts: seq<seq<Action>>, ms: seq<Prompt>, es: seq<Option<Error>>,
                lo: Id, hi: Id)
    requires FanState(e, f.calls, f.fates, f.ids, stages, parts, ms, es)
    requires Shuffle(f.acts, f.who, parts) && IdsFresh(f.fates, f.ids, stages, lo, hi)
    requires forall i :: 0 <= i < |stages| ==> stages[i] >= 3
    ensures FanOk(e, f)
    ensures Outcomes(f.calls, f.fates, ms, es)
    ensures IdsWithin(f, lo, hi)
  {
    forall i | 0 <= i < |parts| ensures parts[i] == Parts(e, f)[i] {
      assert ThreadOk(e, f.calls[i], f.fates[i], f.ids[i], stages[i], parts[i], ms[i], es[i]);
      assert Emitted(f.fates[i], 3) == |Part(e, f.calls[i], f.fates[i], f.ids[i])|;
    }
    assert parts == Parts(e, f);
  }

  class Engine {
    const site: Site.Site
    const breaker: B.CircuitBreaker
    const provider: Retry.Operation<seq<Prompt>, Response>
    const ids: IdSource
    // What the run under way has done so far.
    ghost var journal: seq<Entry>

    constructor (site: Site.Site, breaker: B.CircuitBreaker, provider: Retry.Operation<seq<Prompt>, Response>,
        ids: IdSource)
      ensures this.site == site && this.breaker == breaker && this.provider == provider && this.ids == ids
    {
      this.site, this.breaker, this.provider, this.ids := site, breaker, provider, ids;
      journal := [];
    }

    ghost function Look(r: Ident): Scene
      reads this, site.store, site.sink, provider, breaker
    {
      Scene(Moment(site.Shared(), provider.log, B.Mine(breaker.log, r.worker)), journal)
    }

    /** Where the others keep to the protocol, r is the run under way there, and the journal is what it has done. */
    ghost predicate Present(r: Ident)
      reads this, site, site.store, site.queue, site.ids, site.sink
    {
      ids != site.ids && (site.lawful ==> site.Running(ActionsOf(journal)) && site.Runs(r))
    }

    /** It is marked as running, and not over. */
    ghost predicate Live(r: Ident)
      reads this, site, site.store, site.queue, site.ids, site.sink
    {
      Present(r) && (site.lawful ==> Midway(site.subject, ActionsOf(journal)))
    }

    twostate predicate SameRun()
      reads site
    {
      site.subject == old(site.subject) && site.moves == old(site.moves)
    }

    method Now() returns (t: Time) {
      t := *;
    }

    /** Other actors move on. */
    method Yield(r: Ident)
      requires Present(r)
      modifies this, site, site.store, site.queue, site.ids, site.sink, ids
      ensures Present(r) && SameRun() && journal == old(journal)
      ensures Did(r, old(Look(r)), Look(r), [])
      ensures ids.next >= old(ids.next)
    {
      hide Leaves, Chain, B.Mine;
      ghost var w := Look(r);
      site.Yield(r, ActionsOf(journal));
      Waited(r, w, Look(r));
      var taken: int := *;
      if taken > 0 {
        ids.next := ids.next + taken;
      }
    }

    /** Identifiers for what the run stores. */
    method NewId(r: Ident) returns (id: Result<Id>)
      requires Live(r)
      modifies ids
      ensures Live(r)
      ensures id == Ok(old(ids.next)) || id == Err(NoEntropy)
      ensures ids.next == if id.Ok? then old(ids.next) + 1 else old(ids.next)
    {
      hide Midway, site.Under;
      id := ids.New();
    }

    method DrawId(r: Ident) returns (id: Id)
      requires Live(r)
      modifies ids
      ensures Live(r) && id == old(ids.next) && ids.next == old(ids.next) + 1
    {
      hide Midway, site.Under;
      id := ids.Draw();
    }

    /** ... in the middle of the run. */
    method Pause(r: Ident)
      requires Live(r)
      modifies this, site, site.store, site.queue, site.ids, site.sink, ids
      ensures Live(r) && SameRun() && journal == old(journal)
      ensures Did(r, old(Look(r)), Look(r), [])
      ensures ids.next >= old(ids.next)
    {
      hide Did, Midway, B.Mine, Look, site.Running;
      Yield(r);
    }

    /** The run has just done a, at this moment. */
    method Note(r: Ident, ghost at: Moment, ghost a: Action)
      requires ids != site.ids
      requires site.lawful ==>
                 && site.Under(ActionsOf(journal)) && site.Runs(r) && site.system.world == at.world
                 && Promising(site.subject, ActionsOf(journal) + [a])
                 && site.Fits(site.system.(world := Effect(at.world, a)))
      modifies this, site
      ensures Present(r) && SameRun() && journal == old(journal) + [Entry(a, at)]
    {
      hide Promising, Effect, site.Under;
      assert ActionsOf(journal + [Entry(a, at)]) == ActionsOf(journal) + [a];
      if site.lawful {
        site.Acts(ActionsOf(journal), a);
      }
      journal := journal + [Entry(a, at)];
    }

    /** ... in the middle of the run. */
    method NoteMidway(r: Ident, ghost at: Moment, ghost a: Action)
      requires ids != site.ids && EventLaws.Inner(r.execution, r.conversation, a)
      requires site.lawful ==>
                 && site.Under(ActionsOf(journal)) && site.Runs(r) && site.system.world == at.world
                 && Midway(site.subject, ActionsOf(journal))
                 && site.Fits(site.system.(world := Effect(at.world, a)))
      modifies this, site
      ensures Live(r) && SameRun() && journal == old(journal) + [Entry(a, at)]
    {
      hide Promising, Effect, Midway, EventLaws.Inner, site.Under;
      if site.lawful {
        MidwaySnoc(site.subject, ActionsOf(journal), a);
        MidwayIsPromising(site.subject, ActionsOf(journal) + [a]);
      }
      assert ActionsOf(journal + [Entry(a, at)]) == ActionsOf(journal) + [a];
      Note(r, at, a);
    }

    /** ... calling the breaker or the provider, which nobody else can see. */
    method NoteCall(r: Ident, ghost at: Moment, ghost a: Action)
      requires Live(r) && (a.Gate? || a.Ask?) && at.world == site.Shared()
      modifies this, site
      ensures Live(r) && SameRun() && journal == old(journal) + [Entry(a, at)]
    {
      hide Midway, site.Under, Drafted, Whichever;
      NoteMidway(r, at, a);
    }

    /** Other workers have called the breaker any number of times. */
    method Crowd(w: nat)
      requires breaker.Valid()
      modifies breaker
      ensures breaker.Valid() && old(breaker.log) <= breaker.log
      ensures B.Mine(breaker.log, w) == old(B.Mine(breaker.log, w))
    {
      var n: int := *;
      while n > 0
        invariant breaker.Valid() && old(breaker.log) <= breaker.log
        invariant B.Mine(breaker.log, w) == old(B.Mine(breaker.log, w))
      {
        n := n - 1;
        ghost var other: nat, before := *, breaker.log;
        if other == w {
          other := w + 1;
        }
        var kind: int := *;
        var now := Now();
        if kind == 0 {
          var allowed := breaker.Allow(now, other);
        } else if kind == 1 {
          breaker.Success(other);
        } else {
          breaker.Failure(now, other);
        }
        B.MineSnoc(before, breaker.log[|before|], w);
      }
    }

    method Tell(r: Ident, kind: EventKind, id: Option<Id>)
      requires Live(r) && !IsFinal(Event(r.execution, kind, id))
      modifies this, site, site.store, site.queue, site.ids, site.sink, ids
      ensures Live(r) && SameRun()
      ensures Did(r, old(Look(r)), Look(r), [Emit(Event(r.execution, kind, id))])
      ensures ids.next >= old(ids.next)
    {
      hide Did, Midway, B.Mine;
      ghost var w0 := Look(r);
      Yield(r);
      ghost var w1 := Look(r);
      site.sink.Publish(Event(r.execution, kind, id));
      NoteMidway(r, w1.now, Emit(Event(r.execution, kind, id)));
      OwnThen(r, w0, w1, Look(r), Emit(Event(r.execution, kind, id)));
    }

    /** AppendStep for the run's own execution, which is stored and so cannot be missed. */
    method Record(r: Ident, p: Step)
      requires Live(r) && p.executionId == r.execution && r.execution in Look(r).Store().executions
      modifies this, site, site.store, site.queue, site.ids, site.sink, ids
      ensures Live(r) && SameRun()
      ensures Did(r, old(Look(r)), Look(r), [AddStep(p)])
      ensures ids.next >= old(ids.next)
    {
      hide Did, Midway, B.Mine;
      ghost var w0 := Look(r);
      Yield(r);
      ghost var w1 := Look(r);
      DidGrows(r, w0, w1, []);
      var err := site.store.AppendStep(p);
      NoteMidway(r, w1.now, AddStep(p));
      OwnThen(r, w0, w1, Look(r), AddStep(p));
    }

    method Rewrite(r: Ident, x: Execution) returns (err: Option<Error>)
      requires Present(r) && x.id == r.execution
      requires site.lawful ==> Promising(site.subject, ActionsOf(journal) + [Update(x)])
      modifies this, site, site.store, site.queue, site.ids, site.sink, ids
      ensures Present(r) && SameRun()
      ensures err.None? <==> r.execution in old(Look(r)).Store().executions
      ensures err.Some? ==> err == Some(NotFound) && Did(r, old(Look(r)), Look(r), [])
      ensures err.None? ==> Did(r, old(Look(r)), Look(r), [Update(x)])
    {
      hide Did, Promising, B.Mine, site.Under;
      ghost var w0 := Look(r);
      Yield(r);
      ghost var w1 := Look(r);
      SameStored(r, w0, w1);
      err := site.store.UpdateExecution(x);
      if err.None? {
        Note(r, w1.now, Update(x));
        OwnThen(r, w0, w1, Look(r), Update(x));
      }
    }

    /** appendMessage: only a missing identifier can keep a message out of a conversation that exists. */
    method Say(r: Ident, p: Prompt) returns (err: Option<Error>, ghost said: seq<Message>)
      requires Live(r) && r.conversation in Look(r).Store().conversations
      modifies this, site, site.store, site.queue, site.ids, site.sink, ids
      ensures Live(r) && SameRun()
      ensures Did(r, old(Look(r)), Look(r), Says(said))
      ensures if err.None? then AllStored(said, r.conversation, [p]) else said == [] && err == Some(NoEntropy)
      ensures ids.next >= old(ids.next)
    {
      hide Did, Midway, B.Mine;
      ghost var w0 := Look(r);
      said := [];
      var id := NewId(r);
      Nothing(r, w0);
      if id.Err? {
        assert Says([]) == [];
        return Some(id.error), [];
      }
      Yield(r);
      ghost var w1 := Look(r);
      DidGrows(r, w0, w1, []);
      var m := Message(id.value, r.conversation, p.role, p.content, p.toolCallId, p.name);
      err := site.store.AppendMessage(m);
      NoteMidway(r, w1.now, AddMessage(m));
      OwnThen(r, w0, w1, Look(r), AddMessage(m));
      said := [m];
      assert Says(said) == [AddMessage(m)];
    }

    // ---------- Tool calls ----------

    /** Runs the goroutine of one call up to and including its next shared action, or to its end if there is none. */
    method StepCall(r: Ident, call: ToolCall, fate: Fate, stage: nat, id: Id,
                    messages: array<Prompt>, errors: array<Option<Error>>, index: nat, ghost part: seq<Action>)
      returns (next: nat, drawn: Id, ghost new': seq<Action>)
      requires Live(r)
      requires r.execution in Look(r).Store().executions
      requires index < messages.Length == errors.Length && stage < 3
      requires ThreadOk(r.execution, call, fate, id, stage, part, messages[index], errors[index])
      modifies this, site, site.store, site.queue, site.ids, site.sink, ids, messages, errors
      ensures Live(r) && SameRun()
      ensures Did(r, old(Look(r)), Look(r), new') && |new'| <= 1
      ensures stage < next
      ensures ThreadOk(r.execution, call, fate, drawn, next, part + new', messages[index], errors[index])
      ensures stage == 0 && fate.Drawn() ==> next == 1 && new' == [Emit(Event(r.execution, ToolStarted, Some(drawn)))]
      ensures stage == 1 && fate.Returns? ==>
                && next == 2
                && new' == [AddStep(Step(id, r.execution, ToolStep, call.name, call.arguments, ToolResult(fate.value),
                                         None, 0))]
      ensures stage == 1 && fate.Raises? ==>
                && next == 2
                && new' == [AddStep(Step(id, r.execution, ToolStep, call.name, call.arguments, NoOutput,
                                         Some(fate.error), 0))]
      ensures stage == 2 && fate.Returns? ==>
                && new' == [Emit(Event(r.execution, ToolCompleted, Some(id)))]
                && messages[index] == Prompt(ToolRole, fate.value, call.name, call.id)
      ensures stage == 2 && fate.Raises? ==>
                && new' == [Emit(Event(r.execution, ToolFailed, Some(id)))]
                && errors[index] == Some(Wrapped("execute tool " + call.name, fate.error))
      ensures messages[..] == old(messages[..])[index := messages[index]]
      ensures errors[..] == old(errors[..])[index := errors[index]]
      ensures ids.next >= old(ids.next)
      ensures if stage == 0 && fate.Drawn() then old(ids.next) <= drawn < ids.next else drawn == id
    {
      hide Did, Live, B.Mine, Look;
      ghost var w0 := Look(r);
      Nothing(r, w0);
      next, drawn, new' := 3, id, [];
      match stage {
        case 0 =>
          if fate.Missing? {
            errors[index] := Some(Unregistered(call.name));
          } else if fate.NoId? {
            errors[index] := Some(NoEntropy);
          } else {
            drawn := DrawId(r);
            Tell(r, ToolStarted, Some(drawn));
            next, new' := 1, [Emit(Event(r.execution, ToolStarted, Some(drawn)))];
          }
        case 1 =>
          if fate.Unencodable? {
            errors[index] := Some(Wrapped("encode tool " + call.name + " output", fate.error));
          } else {
            var p := StepOfCall(r.execution, call, fate, id);
            Record(r, p);
            next, new' := 2, [AddStep(p)];
          }
        case _ =>
          if fate.Raises? {
            Tell(r, ToolFailed, Some(id));
            new' := [Emit(Event(r.execution, ToolFailed, Some(id)))];
            errors[index] := Some(Wrapped("execute tool " + call.name, fate.error));
          } else {
            Tell(r, ToolCompleted, Some(id));
            new' := [Emit(Event(r.execution, ToolCompleted, Some(id)))];
            messages[index] := Prompt(ToolRole, fate.value, call.name, call.id);
          }
      }
    }

    /** Moves goroutine i of a fan-out by one action. */
    method Advance(r: Ident, calls: seq<ToolCall>, fates: seq<Fate>, messages: array<Prompt>,
                   errors: array<Option<Error>>,
                   stages: seq<nat>, drawn: seq<Id>, i: nat, ghost log: Interleaving, ghost first: Id)
      returns (stages': seq<nat>, drawn': seq<Id>, ghost log': Interleaving)
      requires Live(r)
      requires r.execution in Look(r).Store().executions
      requires FanState(r.execution, calls, fates, drawn, stages, log.parts, messages[..], errors[..])
      requires IdsFresh(fates, drawn, stages, first, ids.next) && first <= ids.next && log.Valid()
      requires i < |calls| && stages[i] < 3
      modifies this, site, site.store, site.queue, site.ids, site.sink, ids, messages, errors
      ensures Live(r) && SameRun()
      ensures exists more :: log'.acts == log.acts + more && Did(r, old(Look(r)), Look(r), more)
      ensures FanState(r.execution, calls, fates, drawn', stages', log'.parts, messages[..], errors[..])
      ensures IdsFresh(fates, drawn', stages', first, ids.next) && ids.next >= old(ids.next) && log'.Valid()
      ensures Decreased(stages, stages')
    {
      hide Live, B.Mine, Did, Look, Remaining;
      ghost var ms, es, next := messages[..], errors[..], ids.next;
      var stage, id, more := StepCall(r, calls[i], fates[i], stages[i], drawn[i], messages, errors, i, log.parts[i]);
      FanStep(r.execution, calls, fates, drawn, stages, log.parts, ms, es, i, id, stage, more, messages[i], errors[i]);
      IdsStep(fates, drawn, stages, first, next, i, id, stage, ids.next);
      RemainingDrops(stages, i, stage);
      stages', drawn', log' := stages[i := stage], drawn[i := id], log.Extended(i, more);
    }

    /** The scheduler moves any unfinished goroutine by one action at a time until all have left. */
    method Schedule(r: Ident, calls: seq<ToolCall>, fates: seq<Fate>, messages: array<Prompt>,
                    errors: array<Option<Error>>)
      returns (ghost f: Fan)
      requires Live(r)
      requires |fates| == |calls| == messages.Length == errors.Length && r.execution in Look(r).Store().executions
      requires forall i :: 0 <= i < errors.Length ==> errors[i].None?
      modifies this, site, site.store, site.queue, site.ids, site.sink, ids, messages, errors
      ensures Live(r) && SameRun()
      ensures FanOk(r.execution, f) && f.calls == calls && f.fates == fates
      ensures Did(r, old(Look(r)), Look(r), f.acts)
      ensures Outcomes(calls, fates, messages[..], errors[..])
      ensures ids.next >= old(ids.next)
      ensures IdsWithin(f, old(ids.next), ids.next)
    {
      hide Did, Live, B.Mine;
      var n := |calls|;
      var stages: seq<nat>, drawn: seq<Id> := seq(n, _ => 0), seq(n, _ => 0);
      ghost var log := Interleaving([], [], seq(n, _ => []));
      ghost var w0, first := Look(r), ids.next;
      Nothing(r, w0);
      while exists i :: 0 <= i < |stages| && stages[i] < 3
        invariant Live(r) && SameRun() && r.execution in Look(r).Store().executions
        invariant Did(r, w0, Look(r), log.acts)
        invariant log.Valid() && ids.next >= first
        invariant FanState(r.execution, calls, fates, drawn, stages, log.parts, messages[..], errors[..])
        invariant IdsFresh(fates, drawn, stages, first, ids.next)
        decreases if forall i :: 0 <= i < |stages| ==> stages[i] <= 3 then Remaining(stages) else 0
      {
        var i :| 0 <= i < |stages| && stages[i] < 3;
        ghost var w1, acts := Look(r), log.acts;
        stages, drawn, log := Advance(r, calls, fates, messages, errors, stages, drawn, i, log, first);
        ghost var more :| log.acts == acts + more && Did(r, w1, Look(r), more);
        DidGrows(r, w1, Look(r), more);
        Then(r, w0, w1, Look(r), acts, more);
      }
      f := Fan(calls, fates, drawn, log.acts, log.who);
      AllLeft(r.execution, f, stages, log.parts, messages[..], errors[..], first, ids.next);
    }

    /** Starts a goroutine per call, waits for all of them, and joins what they left. */
    method ExecuteTools(r: Ident, calls: seq<ToolCall>, fates: seq<Fate>)
      returns (result: Result<seq<Prompt>>, ghost f: Fan)
      requires Live(r)
      requires |fates| == |calls| && r.execution in Look(r).Store().executions
      modifies this, site, site.store, site.queue, site.ids, site.sink, ids
      ensures Live(r) && SameRun()
      ensures FanOk(r.execution, f) && f.calls == calls && f.fates == fates
      ensures Did(r, old(Look(r)), Look(r), f.acts)
      ensures result == Sequential(calls, fates)
      ensures ids.next >= old(ids.next)
      ensures IdsWithin(f, old(ids.next), ids.next)
    {
      hide Live, B.Mine;
      var messages := new Prompt[|calls|];
      var errors := new Option<Error>[|calls|](_ => None);
      f := Schedule(r, calls, fates, messages, errors);
      result := Join(calls, fates, messages, errors);
    }

    /** The scan over the error slots after the join. */
    static method Join(calls: seq<ToolCall>, fates: seq<Fate>, messages: array<Prompt>, errors: array<Option<Error>>)
      returns (result: Result<seq<Prompt>>)
      requires messages.Length == errors.Length == |calls| == |fates|
      requires Outcomes(calls, fates, messages[..], errors[..])
      ensures result == Sequential(calls, fates)
    {
      for i := 0 to |calls|
        invariant Sequential(calls[..i], fates[..i]) == Ok(messages[..i])
      {
        assert calls[..i + 1][..i] == calls[..i] && fates[..i + 1][..i] == fates[..i];
        if errors[i].Some? {
          FirstError(calls, fates, i);
          return Err(errors[i].value);
        }
        assert messages[..i + 1] == messages[..i] + [messages[i]];
      }
      assert calls[..|calls|] == calls && fates[..|calls|] == fates && messages[..|calls|] == messages[..];
      return Ok(messages[..]);
    }

    // ---------- Rounds ----------

    /** Asks the breaker for permission, after whatever the others have done to it. */
    method Knock(r: Ident) returns (allowed: bool, ghost ask: B.Entry)
      requires Live(r) && breaker.Valid()
      modifies this, site, breaker
      ensures Live(r) && SameRun()
      ensures Did(r, old(Look(r)), Look(r), [Gate(ask)])
      ensures ask.call.Allow? && ask.allowed == allowed
      ensures breaker.Valid() && old(breaker.log) <= breaker.log
    {
      hide Did, Live, breaker.Valid, B.Mine;
      Crowd(r.worker);
      ghost var w, before := Look(r), breaker.log;
      Nothing(r, w);
      var now := Now();
      allowed := breaker.Allow(now, r.worker);
      ask := breaker.log[|before|];
      B.MineSnoc(before, ask, r.worker);
      NoteCall(r, w.now, Gate(ask));
      OwnThen(r, w, w, Look(r), Gate(ask));
    }

    /** Tells the breaker how the call went. */
    method Report(r: Ident, failed: bool) returns (ghost report: B.Entry)
      requires Live(r) && breaker.Valid()
      modifies this, site, breaker
      ensures Live(r) && SameRun()
      ensures Did(r, old(Look(r)), Look(r), [Gate(report)])
      ensures if failed then report.call.Failure? else report.call.Success?
      ensures breaker.Valid() && old(breaker.log) <= breaker.log
    {
      hide Did, Live, breaker.Valid, B.Mine;
      Crowd(r.worker);
      ghost var w, before := Look(r), breaker.log;
      Nothing(r, w);
      if failed {
        var now := Now();
        breaker.Failure(now, r.worker);
      } else {
        breaker.Success(r.worker);
      }
      report := breaker.log[|before|];
      B.MineSnoc(before, report, r.worker);
      NoteCall(r, w.now, Gate(report));
      OwnThen(r, w, w, Look(r), Gate(report));
    }

    /** Asks the provider, with retries. */
    method Ask(r: Ident, messages: seq<Prompt>, round: nat, o: Outside)
      returns (reply: Result<Response>, retries: nat, ghost seen: nat, ghost replies: seq<Result<Response>>)
      requires Live(r)
      modifies this, site, site.store, site.queue, site.ids, site.sink, ids, provider
      ensures Live(r) && SameRun()
      ensures Did(r, old(Look(r)), Look(r), [Action.Ask(messages, seen, replies)])
      ensures |old(Look(r)).LogOf(r.conversation)| <= seen == |Look(r).LogOf(r.conversation)|
      ensures r.alone ==> seen == |old(Look(r)).LogOf(r.conversation)|
      ensures Replied(o, round, replies, reply) && retries == |replies| - 1
      ensures ids.next >= old(ids.next)
    {
      hide Did, Midway, B.Mine, Live, Replied;
      ghost var w0 := Look(r);
      Pause(r);
      ghost var w1 := Look(r);
      DidGrows(r, w0, w1, []);
      seen := |w1.LogOf(r.conversation)|;
      var n, waits;
      var interrupts, jitter := Interrupts(o, round), (k: nat) => o.jitter(round, k);
      reply, n, waits, replies := Retry.Retry(Retry.ENGINE_POLICY, provider, messages, interrupts, jitter);
      retries := n;
      RepliedBy(o, round, replies, reply);
      NoteCall(r, w1.now, Action.Ask(messages, seen, replies));
      OwnThen(r, w0, w1, Look(r), Action.Ask(messages, seen, replies));
    }

    /** The provider call with its retries, and what it means for the breaker and the counters. */
    method Complete(r: Ident, x: Execution, messages: seq<Prompt>, round: nat, o: Outside)
      returns (y: Execution, reply: Result<Response>, retries: nat,
               ghost seen: nat, ghost replies: seq<Result<Response>>, ghost report: B.Entry)
      requires Live(r) && breaker.Valid()
      modifies this, site, site.store, site.queue, site.ids, site.sink, ids, provider, breaker
      ensures Live(r) && SameRun()
      ensures Did(r, old(Look(r)), Look(r), [Action.Ask(messages, seen, replies), Gate(report)])
      ensures |old(Look(r)).LogOf(r.conversation)| <= seen <= |Look(r).LogOf(r.conversation)|
      ensures r.alone ==> seen == |old(Look(r)).LogOf(r.conversation)|
      ensures Replied(o, round, replies, reply) && retries == |replies| - 1 && Reports(report, reply)
      ensures y == Tallied(x, reply, retries)
      ensures reply.Err? ==> y == x.(retryCount := x.retryCount + retries)
      ensures reply.Ok? ==>
                y == x.(retryCount := x.retryCount + retries, model := reply.value.model,
                        promptTokens := Wrap(x.promptTokens + reply.value.promptTokens),
                        outputTokens := Wrap(x.outputTokens + reply.value.outputTokens))
      ensures breaker.Valid() && old(breaker.log) <= breaker.log
      ensures ids.next >= old(ids.next)
    {
      hide Did, Replied, Live, breaker.Valid, B.Mine;
      ghost var w0 := Look(r);
      reply, retries, seen, replies := Ask(r, messages, round, o);
      ghost var w1 := Look(r);
      y := x.(retryCount := x.retryCount + retries);
      report := Report(r, reply.Err?);
      if reply.Ok? {
        y := y.(model := reply.value.model,
                promptTokens := Wrap(y.promptTokens + reply.value.promptTokens),
                outputTokens := Wrap(y.outputTokens + reply.value.outputTokens));
      }
      Then(r, w0, w1, Look(r), [Action.Ask(messages, seen, replies)], [Gate(report)]);
      assert [Action.Ask(messages, seen, replies)] + [Gate(report)] ==
             [Action.Ask(messages, seen, replies), Gate(report)];
      DidGrows(r, w1, Look(r), [Gate(report)]);
    }

    /** The completion of a permitted round: announce it, ask with retries, tell the breaker, and record the step. */
    method Consult(r: Ident, x: Execution, messages: seq<Prompt>, stepId: Id, round: nat, o: Outside,
                   ghost ask: B.Entry, ghost w0: Scene)
      returns (y: Execution, reply: Result<Response>, ghost q: Round)
      requires Live(r) && breaker.Valid()
      requires x.id == r.execution && r.execution in Look(r).Store().executions
      requires Permitted(ask) && Did(r, w0, Look(r), [Gate(ask)])
      modifies this, site, site.store, site.queue, site.ids, site.sink, ids, provider, breaker
      ensures Live(r) && SameRun()
      ensures q == Round(ask, stepId, messages, q.seen, q.replies, q.report, q.retries, reply, [], NO_FAN, [])
      ensures Counted(q)
      ensures Replied(o, round, q.replies, reply)
      ensures Did(r, w0, Look(r), Head(r.execution, q)) && SeenWell(r, w0, Look(r), q)
      ensures y == Tallied(x, reply, q.retries)
      ensures breaker.Valid() && old(breaker.log) <= breaker.log
      ensures ids.next >= old(ids.next)
    {
      hide Did, Replied, Live, breaker.Valid, B.Mine;
      ghost var w1 := Look(r);
      OneFilters(Gate(ask));
      OneFilters(Emit(Event(r.execution, AgentThinking, Some(stepId))));
      DidGrows(r, w0, w1, [Gate(ask)]);
      Tell(r, AgentThinking, Some(stepId));
      ghost var w2 := Look(r);
      DidGrows(r, w1, w2, [Emit(Event(r.execution, AgentThinking, Some(stepId)))]);
      var retries: nat;
      ghost var seen, replies, report;
      y, reply, retries, seen, replies, report := Complete(r, x, messages, round, o);
      ghost var w3 := Look(r);
      DidGrows(r, w2, w3, [Action.Ask(messages, seen, replies), Gate(report)]);
      Record(r, CompletionStep(stepId, r.execution, reply, retries));
      q := Round(ask, stepId, messages, seen, replies, report, retries, reply, [], NO_FAN, []);
      DidGrows(r, w3, Look(r), [AddStep(LlmStepOf(r.execution, q))]);
      HeadDid(r, w0, w1, w2, w3, Look(r), q);
      Bounded(o, round, replies, reply);
    }

    /** Appends the tool messages in call order until one finds no identifier. */
    method Hear(r: Ident, ps: seq<Prompt>) returns (err: Option<Error>, ghost heard: seq<Message>)
      requires Live(r) && r.conversation in Look(r).Store().conversations
      modifies this, site, site.store, site.queue, site.ids, site.sink, ids
      ensures Live(r) && SameRun()
      ensures Did(r, old(Look(r)), Look(r), Says(heard))
      ensures |heard| <= |ps| && AllStored(heard, r.conversation, ps[..|heard|])
      ensures if err.None? then |heard| == |ps| else |heard| < |ps| && err == Some(NoEntropy)
      ensures ids.next >= old(ids.next)
    {
      hide Did, Live, B.Mine;
      ghost var w0 := Look(r);
      Nothing(r, w0);
      heard := [];
      err := None;
      for i := 0 to |ps|
        invariant Live(r) && SameRun() && r.conversation in Look(r).Store().conversations
        invariant |heard| == i && AllStored(heard, r.conversation, ps[..i])
        invariant Did(r, w0, Look(r), Says(heard))
        invariant ids.next >= old(ids.next)
        invariant err.None?
      {
        ghost var w1, said := Look(r), [];
        err, said := Say(r, ps[i]);
        DidGrows(r, w1, Look(r), Says(said));
        Then(r, w0, w1, Look(r), Says(heard), Says(said));
        assert Says(heard) + Says(said) == Says(heard + said);
        if err.Some? {
          assert Says(heard) + Says(said) == Says(heard);
          return;
        }
        heard := heard + said;
      }
    }

    /** A completion without tool calls: its message ends the run. */
    method Answer(r: Ident, a: Response, ghost q0: Round, ghost w0: Scene) returns (verdict: Verdict, ghost q: Round)
      requires Live(r) && Consulted(r, q0, w0, Look(r), a) && a.toolCalls == []
      requires r.execution in Look(r).Store().executions && r.conversation in Look(r).Store().conversations
      modifies this, site, site.store, site.queue, site.ids, site.sink, ids
      ensures Live(r) && SameRun()
      ensures Played(r, q0, q, w0, Look(r), verdict) && q.fan == NO_FAN
      ensures |old(Look(r)).LogOf(r.conversation)| <= |Look(r).LogOf(r.conversation)|
      ensures !verdict.Continue?
      ensures ids.next >= old(ids.next)
    {
      hide Did, Live, B.Mine;
      ghost var w1 := Look(r);
      var err, said := Say(r, Spoken(a));
      DidGrows(r, w1, Look(r), Says(said));
      q := q0.(spoken := said);
      verdict := if err.Some? then Abort(err.value) else Finish;
      Answered(r, a, q0, w0, w1, Look(r), said, verdict);
    }

    /** A completion with tool calls: store its message, run the tools, store what they returned. */
    method UseTools(r: Ident, a: Response, fates: seq<Fate>, messages: seq<Prompt>, ghost q0: Round, ghost w0: Scene)
      returns (verdict: Verdict, more: seq<Prompt>, ghost q: Round)
      requires Live(r) && Consulted(r, q0, w0, Look(r), a) && a.toolCalls != [] && |fates| == |a.toolCalls|
      requires r.execution in Look(r).Store().executions && r.conversation in Look(r).Store().conversations
      requires q0.stepId < ids.next
      modifies this, site, site.store, site.queue, site.ids, site.sink, ids
      ensures Live(r) && SameRun()
      ensures Played(r, q0, q, w0, Look(r), verdict) && (q.fan == NO_FAN || q.fan.fates == fates)
      ensures !verdict.Finish? && (verdict.Continue? ==> Grows(messages, more, q))
      ensures |old(Look(r)).LogOf(r.conversation)| <= |Look(r).LogOf(r.conversation)|
      ensures ids.next >= old(ids.next) && IdsWithin(q.fan, old(ids.next), ids.next)
    {
      hide Did, Consulted, Played, Live, B.Mine, Look, Sequential, AllStored, FanOk, Grows;
      ghost var w1 := Look(r);
      ReplyOf(r, q0, w0, w1, a);
      more := messages;
      var err, said := Say(r, Spoken(a));
      ghost var w2 := Look(r);
      DidGrows(r, w1, w2, Says(said));
      if err.Some? {
        verdict, q := Abort(err.value), q0;
        Unspoken(r, a, q0, w0, w1, w2);
      } else {
        var result, f := ExecuteTools(r, a.toolCalls, fates);
        ghost var w3 := Look(r);
        DidGrows(r, w2, w3, f.acts);
        if result.Err? {
          verdict, q := Abort(result.error), q0.(spoken := said, fan := f);
          ToolFailure(r, a, q0, w0, w1, w2, w3, said, f);
        } else {
          var err', heard := Hear(r, result.value);
          DidGrows(r, w3, Look(r), Says(heard));
          verdict := if err'.Some? then Abort(err'.value) else Continue;
          q := q0.(spoken := said, fan := f, heard := heard);
          ToolsReturned(r, a, q0, w0, w1, w2, w3, Look(r), said, f, heard, verdict);
          more := messages + [Spoken(a)] + result.value;
          AddsIs(messages, a, f, q);
        }
      }
    }

    /** One pass through the loop once it is permitted, from the thinking event to the decision whether to go on. */
    method PlayRound(r: Ident, x: Execution, messages: seq<Prompt>, stepId: Id, round: nat, o: Outside,
                     ghost ask: B.Entry, ghost w0: Scene)
      returns (y: Execution, more: seq<Prompt>, verdict: Verdict, ghost q: Round)
      requires Live(r) && breaker.Valid() && x.id == r.execution && stepId < ids.next
      requires r.execution in w0.Store().executions && r.conversation in w0.Store().conversations
      requires Permitted(ask) && Did(r, w0, Look(r), [Gate(ask)])
      modifies this, site, site.store, site.queue, site.ids, site.sink, ids, provider, breaker
      ensures Live(r) && SameRun()
      ensures Passed(r, w0, Look(r), q, messages, stepId, verdict)
      ensures Obeys(o, round, q) && q.stepId == stepId
      ensures y == Carry(x, q)
      ensures verdict.Continue? ==> Grows(messages, more, q)
      ensures ids.next >= old(ids.next) && IdsWithin(q.fan, old(ids.next), ids.next)
      ensures breaker.Valid() && old(breaker.log) <= breaker.log
    {
      hide Did, Replied, Live, breaker.Valid, B.Mine, Look, Played, RoundOk, FanOk;
      ghost var before, q0: Round := Look(r), *;
      DidGrows(r, w0, before, [Gate(ask)]);
      var reply;
      y, reply, q0 := Consult(r, x, messages, stepId, round, o, ask, w0);
      ghost var w1 := Look(r);
      DidGrows(r, w0, w1, Head(r.execution, q0));
      more := messages;
      if reply.Err? {
        verdict, q := Abort(reply.error), q0;
        Refused(r, q0, w0, w1, messages, stepId);
      } else if reply.value.toolCalls == [] {
        y := y.(output := reply.value.content);
        verdict, q := Answer(r, reply.value, q0, w0);
        FromPlayed(r, w0, w1, Look(r), q0, q, messages, stepId, verdict);
      } else {
        var fates := seq(|reply.value.toolCalls|, (i: nat) => o.fate(round, i));
        verdict, more, q := UseTools(r, reply.value, fates, messages, q0, w0);
        FromPlayed(r, w0, w1, Look(r), q0, q, messages, stepId, verdict);
      }
    }

    // ---------- The whole run ----------

    /** Where the others keep to the protocol, the run that consumer w has performed there is a behaviour of it. */
    ghost predicate Settled(r: Ident, run: Run, before: seq<Dispatch.Move>)
      reads this, site, site.store, site.queue, site.ids, site.sink
    {
      site.lawful ==>
        && site.Valid() && site.system.ConsumerOf(r.worker).Idle?
        && before + [Dispatch.Check(r.worker, run)] <= site.moves
        && run.start.id in site.system.place && site.system.place[run.start.id] == Dispatch.Settled(ScriptOf(run))
    }

    /** succeed and fail: store the terminal record, and only then publish the final event. */
    method Close(r: Ident, ghost run: Run, x: Execution, ending: Ending, at: Time) returns (y: Execution)
      requires Live(r) && x.id == r.execution == run.start.id && r.execution in Look(r).Store().executions
      requires RunOk(run) && run.ending == ending && FinalOf(run) == Finished(x, ending, at)
      requires site.lawful ==> run.start == site.subject && Log(run) == ActionsOf(Look(r).journal) + Closing(run)
      modifies this, site, site.store, site.queue, site.ids, site.sink, ids
      ensures Settled(r, run, old(site.moves))
      ensures y == FinalOf(run)
      ensures Did(r, old(Look(r)), Look(r), Closing(run))
    {
      hide Did, Midway, RunOk, FinalOf, Log, B.Mine;
      ghost var w0, l := Look(r), ActionsOf(journal);
      y := Finished(x, ending, at);
      if site.lawful {
        AlmostOver(run, l);
      }
      var err := Rewrite(r, y);
      ghost var w1 := Look(r);
      JournalGrows(r, w0, w1, [Update(y)]);
      Publish(r, run, l + [Update(y)], Event(r.execution, if ending.Done? then AgentCompleted else AgentFailed, None));
      Then(r, w0, w1, Look(r), [Update(y)], [Emit(FinalEvent(run))]);
      assert [Update(y)] + [Emit(FinalEvent(run))] == Closing(run);
    }

    /** The last action of a run. */
    method Publish(r: Ident, ghost run: Run, ghost l: seq<Action>, v: Event)
      requires Present(r) && v == FinalEvent(run) && r.execution == run.start.id
      requires site.lawful ==> ActionsOf(journal) == l && Begins(run, site.subject, l) && Log(run) == l + [Emit(v)]
      modifies this, site, site.store, site.queue, site.ids, site.sink, ids
      ensures Settled(r, run, old(site.moves))
      ensures Did(r, old(Look(r)), Look(r), [Emit(v)])
    {
      hide Did, Begins, Log, Effect, B.Mine, Closing, ScriptOf, site.Under;
      ghost var w0 := Look(r);
      Yield(r);
      ghost var w1 := Look(r);
      site.sink.Publish(v);
      EmitIs(w1.now.world, v, site.Shared());
      if site.lawful {
        site.Leave(l, Emit(v), run);
      }
      journal := journal + [Entry(Emit(v), w1.now)];
      OwnThen(r, w0, w1, Look(r), Emit(v));
    }

    /** Marks the run as running and announces it; only an execution that is not stored stops it here. */
    method Begin(r: Ident, x0: Execution) returns (x: Execution, at: Time, err: Option<Error>)
      requires Present(r) && x0.id == r.execution && (site.lawful ==> journal == [] && site.subject == x0)
      modifies this, site, site.store, site.queue, site.ids, site.sink, ids
      ensures Present(r) && SameRun() && (err.None? ==> Live(r))
      ensures err.None? <==> r.execution in old(site.store.executions)
      ensures err.Some? ==>
                && err == Some(Wrapped("mark execution running", NotFound))
                && Did(r, old(Look(r)), Look(r), [])
      ensures err.None? ==>
                && x == MarkedRunning(x0, at)
                && Did(r, old(Look(r)), Look(r), [Update(x), Emit(Event(r.execution, AgentStarted, None))])
    {
      hide Did, B.Mine;
      ghost var w0 := Look(r);
      at := Now();
      x := MarkedRunning(x0, at);
      if site.lawful {
        assert Midway(x0, ActionsOf(journal) + [Update(x)]);
        MidwayIsPromising(x0, ActionsOf(journal) + [Update(x)]);
      }
      err := Rewrite(r, x);
      if err.Some? {
        err := Some(Wrapped("mark execution running", err.value));
      } else {
        ghost var w1 := Look(r);
        JournalGrows(r, w0, w1, [Update(x)]);
        Tell(r, AgentStarted, None);
        Then(r, w0, w1, Look(r), [Update(x)], [Emit(Event(r.execution, AgentStarted, None))]);
        assert [Update(x)] + [Emit(Event(r.execution, AgentStarted, None))]
            == [Update(x), Emit(Event(r.execution, AgentStarted, None))];
      }
    }

    /** Loads the conversation's recent messages and appends the user's own. */
    method Open(r: Ident, x: Execution)
      returns (messages: seq<Prompt>, err: Option<Error>, ghost loaded: nat, ghost history: seq<Message>,
          ghost said: seq<Message>)
      requires Live(r) && x.conversationId == r.conversation
      modifies this, site, site.store, site.queue, site.ids, site.sink, ids
      ensures Live(r) && SameRun()
      ensures Did(r, old(Look(r)), Look(r), Says(said))
      ensures |history| <= HISTORY && |said| <= 1
      ensures err.None? ==>
                && r.conversation in Look(r).Store().conversations
                && messages == PromptAfter(history, x.input, [])
                && AllStored(said, r.conversation, [Prompt(User, x.input, "", "")])
                && Tied(r, messages, Look(r).LogOf(r.conversation))
                && Window(r, loaded, history, old(Look(r)), Look(r))
      ensures err.Some? ==> said == [] && (err == Some(NoEntropy) || err == Some(UNLOADED))
      ensures old(Look(r)).Store().OwnsConversation(x.ownerId, r.conversation) ==> err.None? || err == Some(NoEntropy)
      ensures ids.next >= old(ids.next)
    {
      hide Did, Tied, Effect, MessagesIn, Window, Grew, Midway, B.Mine, Live;
      ghost var w0 := Look(r);
      messages, loaded, history, said := [], 0, [], [];
      Pause(r);
      ghost var w1 := Look(r);
      DidGrows(r, w0, w1, []);
      assert Says(said) == [];
      var read := site.store.ListMessages(x.ownerId, r.conversation, HISTORY);
      if read.Err? {
        err := Some(Wrapped("load conversation memory", read.error));
      } else {
        history, loaded := read.value, |w1.LogOf(r.conversation)|;
        var user := Prompt(User, x.input, "", "");
        err, said := Say(r, user);
        messages := Recalls(read.value) + [user];
        Then(r, w0, w1, Look(r), [], Says(said));
        assert [] + Says(said) == Says(said);
        DidGrows(r, w1, Look(r), Says(said));
        WindowLater(r, loaded, history, w0, w1, Look(r));
        if err.None? {
          RecentTied(r, w1.LogOf(r.conversation));
          MessagesOfSays(said);
          Shown(r, w1, Look(r), Says(said));
          TiedGrows(r, Recalls(history), w1.LogOf(r.conversation), Look(r).LogOf(r.conversation), said, [user]);
        }
      }
    }

    /**
     * Worker w runs one execution to its end; run is what it did, or None if the execution is not stored. The journal
     * says that it did just that, in that order, and the others' moves came in between.
     */
    method Execute(x0: Execution, o: Outside, alone: bool, w: nat)
      returns (x: Execution, err: Option<Error>, ghost run: Option<Run>)
      requires breaker.Valid() && ids != site.ids
      requires site.lawful ==> site.Running([]) && site.runner == w && site.subject == x0
      modifies this, site, site.store, site.queue, site.ids, site.sink, ids, provider, breaker
      ensures run.None? <==> x0.id !in old(site.store.executions)
      ensures run.None? ==>
                && err == Some(Wrapped("mark execution running", NotFound))
                && ActionsOf(journal) == []
                && Did(Me(x0, alone, w), Start(old(Look(Me(x0, alone, w)))), Look(Me(x0, alone, w)), [])
      ensures run.Some? ==>
                && run.value.start == x0
                && ActionsOf(journal) == Log(run.value)
                && Performed(Me(x0, alone, w), Start(old(Look(Me(x0, alone, w)))), Look(Me(x0, alone, w)), run.value)
                && Justified(o, run.value.opening, run.value.rounds, run.value.knock, run.value.ending)
                && x == FinalOf(run.value)
                && err == match run.value.ending case Done => None case Stopped(c) => Some(c)
      ensures site.lawful ==> run.Some? && Settled(Me(x0, alone, w), run.value, old(site.moves))
      ensures breaker.Valid() && old(breaker.log) <= breaker.log
    {
      hide Did, Performed, Justified, Log, breaker.Valid, B.Mine;
      var r := Me(x0, alone, w);
      journal := [];
      ghost var w0 := Look(r);
      if site.lawful {
        site.SubjectIsStored([]);
      }
      assert ActionsOf(journal) == [];
      var at;
      x, at, err := Begin(r, x0);
      if err.Some? {
        JournalIs(r, w0, Look(r), []);
        return x, err, None;
      }
      BegunStays(r, w0, Look(r), x);
      ghost var performed;
      x, err, performed := Proceed(r, x0, at, x, o, w0);
      run := Some(performed);
      PerformedJournal(r, w0, Look(r), performed);
    }

    /** What follows once the run is marked running. */
    method Proceed(r: Ident, ghost x0: Execution, ghost startedAt: Time, x1: Execution, o: Outside, ghost w0: Scene)
      returns (x: Execution, err: Option<Error>, ghost run: Run)
      requires Live(r) && (site.lawful ==> site.subject == x0)
      requires x1 == MarkedRunning(x0, startedAt) && r.execution == x0.id && r.conversation == x0.conversationId
      requires r.execution in Look(r).Store().executions && breaker.Valid()
      requires w0.journal == []
      requires Did(r, w0, Look(r), Marking(Run(x0, startedAt, 0, [], [], [], None, Done, 0)))
      modifies this, site, site.store, site.queue, site.ids, site.sink, ids, provider, breaker
      ensures run.start == x0 && Performed(r, w0, Look(r), run) && x == FinalOf(run)
      ensures Justified(o, run.opening, run.rounds, run.knock, run.ending)
      ensures err == match run.ending case Done => None case Stopped(c) => Some(c)
      ensures Settled(r, run, old(site.moves))
      ensures breaker.Valid() && old(breaker.log) <= breaker.log
    {
      hide Did, Tied, Window, EndingOk, RunOk, Log, Live, breaker.Valid, B.Mine, Look, Settled;
      ghost var w1 := Look(r);
      x := x1;
      var messages, problem;
      ghost var loaded, history, said;
      messages, problem, loaded, history, said := Open(r, x);
      ghost var base := Run(x0, startedAt, loaded, history, said, [], None, Stopped(NoEntropy), 0);
      ghost var w2 := Look(r);
      DidGrows(r, w1, w2, Says(said));
      Opened(r, base, w0, w1, w2);
      if problem.Some? {
        NeverAsked(r, base, problem.value, w0, w1, w2);
        x, run := Abandon(r, x, problem.value, base, w0);
        NeverLooked(o, run);
        err := problem;
      } else {
        RememberedSince(r, base, w0, w1, w2);
        Starts(r, base, w0, w2, x, messages, ids.next);
        x, err, run := Pursue(r, x, messages, o, base, w0);
      }
    }

    /** The run fails before its first question. */
    method Abandon(r: Ident, x1: Execution, cause: Error, ghost base: Run, ghost w0: Scene)
      returns (x: Execution, ghost run: Run)
      requires Live(r) && (site.lawful ==> site.subject == base.start) && r.execution in Look(r).Store().executions
      requires x1 == MarkedRunning(base.start, base.startedAt) && Fruitless(r, base, cause, w0, Look(r))
      modifies this, site, site.store, site.queue, site.ids, site.sink, ids
      ensures run == base.(ending := Stopped(cause), completedAt := run.completedAt)
      ensures Performed(r, w0, Look(r), run) && x == FinalOf(run)
      ensures Settled(r, run, old(site.moves))
    {
      hide Did, Live, Look, Settled, Midway, RunOk, Log, B.Mine;
      ghost var w2 := Look(r);
      var at := Now();
      run := base.(ending := Stopped(cause), completedAt := at);
      Abandoning(r, base, run, cause, w0, w2);
      x := Close(r, run, x1, Stopped(cause), at);
      Abandoned(r, base, run, cause, w0, w2, Look(r));
    }

    /** The loop, and what ends the run after it. */
    method Pursue(r: Ident, x1: Execution, messages: seq<Prompt>, o: Outside, ghost base: Run, ghost w0: Scene)
      returns (x: Execution, err: Option<Error>, ghost run: Run)
      requires Live(r) && (site.lawful ==> site.subject == base.start) && breaker.Valid()
      requires Underway(r, base, [], w0, Look(r), x1, messages, ids.next) && w0.journal == []
      modifies this, site, site.store, site.queue, site.ids, site.sink, ids, provider, breaker
      ensures run.start == base.start && Performed(r, w0, Look(r), run) && x == FinalOf(run)
      ensures Justified(o, run.opening, run.rounds, run.knock, run.ending)
      ensures err == match run.ending case Done => None case Stopped(c) => Some(c)
      ensures Settled(r, run, old(site.moves))
      ensures breaker.Valid() && old(breaker.log) <= breaker.log
    {
      hide Did, Live, Look, Settled, Midway, Underway, Performed, Justified, RunOk, Log, breaker.Valid, B.Mine,
        Ended;
      var ending;
      ghost var rs, knock;
      x, ending, rs, knock := Loop(r, x1, messages, o, base, w0);
      ghost var w3, y := Look(r), x;
      var at := Now();
      run := base.(rounds := rs, knock := knock, ending := ending, completedAt := at);
      Concluding(r, base, run, w0, w3, y);
      IsEnded(r, base, run.rounds, w0, w3, y, knock, ending);
      x := Close(r, run, x, ending, at);
      Concluded(r, base, run, w0, w3, Look(r), y);
      err := match ending case Done => None case Stopped(c) => Some(c);
    }

    /** At most MAX_STEPS rounds; the loop ends early on a closed gate, on a failure, or with an answer. */
    method Loop(r: Ident, x0: Execution, messages0: seq<Prompt>, o: Outside, ghost base: Run, ghost w0: Scene)
      returns (x: Execution, ending: Ending, ghost rs: seq<Round>, ghost knock: Option<B.Entry>)
      requires Live(r) && breaker.Valid()
      requires Underway(r, base, [], w0, Look(r), x0, messages0, ids.next)
      modifies this, site, site.store, site.queue, site.ids, site.sink, ids, provider, breaker
      ensures Live(r) && SameRun()
      ensures Ended(r, base, rs, w0, Look(r), x, knock, ending)
      ensures Justified(o, base.opening, rs, knock, ending)
      ensures breaker.Valid() && old(breaker.log) <= breaker.log
    {
      hide Did, RoundsOk, Faithful, Tied, Carried, PromptAfter, Remembered, OpeningOk, EndingOk, Grows, Obeys,
        Justified, Live, breaker.Valid, B.Mine, Look, Underway, Passed, Ended;
      x, rs, knock := x0, [], None;
      var messages := messages0;
      for round := 0 to MAX_STEPS
        invariant Live(r) && SameRun()
        invariant |rs| == round && knock.None?
        invariant Underway(r, base, rs, w0, Look(r), x, messages, ids.next)
        invariant AllObey(o, rs)
        invariant breaker.Valid() && old(breaker.log) <= breaker.log
      {
        var shut := o.cancelled(round);
        if shut.Some? {
          Gated(r, base, rs, w0, Look(r), x, messages, ids.next, ErrorOf(shut.value));
          WasCancelled(o, base.opening, rs);
          return x, Stopped(ErrorOf(shut.value)), rs, None;
        }
        ghost var w1, next := Look(r), ids.next;
        var allowed, ask := Knock(r);
        if !allowed {
          Knocked(r, base, rs, w0, w1, Look(r), x, messages, next, ask);
          HasKnocked(o, base.opening, rs, ask, CircuitOpen);
          return x, Stopped(CircuitOpen), rs, Some(ask);
        }
        var id := NewId(r);
        if id.Err? {
          Knocked(r, base, rs, w0, w1, Look(r), x, messages, next, ask);
          HasKnocked(o, base.opening, rs, ask, NoEntropy);
          return x, Stopped(NoEntropy), rs, Some(ask);
        }
        var verdict;
        ghost var y, prompt, hi, q: Round := x, messages, ids.next, *;
        IsUnderway(r, base, rs, w0, w1, x, messages, next);
        x, messages, verdict, q := PlayRound(r, x, messages, id.value, round, o, ask, w1);
        ObeySnoc(o, rs, q);
        match verdict {
          case Continue =>
            WentOn(r, base, rs, w0, w1, Look(r), y, prompt, q, next, hi, ids.next, messages);
            rs := rs + [q];
          case Finish =>
            WasLast(r, base, rs, w0, w1, Look(r), y, prompt, q, next, verdict);
            WasDecided(r, o, base.opening, rs, q, w1, Look(r), prompt, verdict, Done);
            return x, Done, rs + [q], None;
          case Abort(c) =>
            WasLast(r, base, rs, w0, w1, Look(r), y, prompt, q, next, verdict);
            WasDecided(r, o, base.opening, rs, q, w1, Look(r), prompt, verdict, Stopped(c));
            return x, Stopped(c), rs + [q], None;
        }
      }
      Gated(r, base, rs, w0, Look(r), x, messages, ids.next, StepsExhausted);
      WasExhausted(o, base.opening, rs);
      return x, Stopped(StepsExhausted), rs, None;
    }
  }

  /** The run of an execution by worker w. */
  function Me(x: Execution, alone: bool, w: nat): Ident {
    Ident(x.id, x.conversationId, alone, w)
  }

  /** A scene with nothing done yet. */
  function Start(s: Scene): Scene {
    s.(journal := [])
  }

  // ---------- The journal ----------

  lemma JournalIs(r: Ident, v: Scene, w: Scene, l: seq<Action>)
    requires Did(r, v, w, l) && v.journal == []
    ensures ActionsOf(w.journal) == l
  {
    hide Chain;
    assert w.journal[0..] == w.journal;
  }

  lemma JournalGrows(r: Ident, v: Scene, w: Scene, l: seq<Action>)
    requires Did(r, v, w, l)
    ensures ActionsOf(w.journal) == ActionsOf(v.journal) + l
  {
    hide Chain;
    assert w.journal == v.journal + w.journal[|v.journal|..];
  }

  lemma PerformedJournal(r: Ident, v: Scene, w: Scene, run: Run)
    requires Performed(r, v, w, run) && v.journal == []
    ensures ActionsOf(w.journal) == Log(run)
  {
    hide Did, RunOk, Log;
    JournalIs(r, v, w, Log(run));
  }

  /** Before its terminal record is stored a run goes on, and after that only its final event is missing. */
  lemma AlmostOver(run: Run, l: seq<Action>)
    requires RunOk(run) && Log(run) == l + Closing(run)
    ensures Begins(run, run.start, l + [Update(FinalOf(run))])
    ensures Promising(run.start, l + [Update(FinalOf(run))])
    ensures Log(run) == l + [Update(FinalOf(run))] + [Emit(FinalEvent(run))]
  {
    hide RunOk, Log, FinalOf;
    var l' := l + [Update(FinalOf(run))];
    assert Log(run) == l' + [Emit(FinalEvent(run))];
    assert Log(run)[..|l'|] == l';
    BeginsIsPromising(run, run.start, l');
  }

  lemma EmitIs(w: World, v: Event, t: World)
    requires t == w.(events := w.events[v.executionId := w.EventsOf(v.executionId) + [v]])
    ensures t == Effect(w, Emit(v))
  {
  }

  lemma SameStored(r: Ident, v: Scene, w: Scene)
    requires Did(r, v, w, [])
    ensures r.execution in v.Store().executions <==> r.execution in w.Store().executions
  {
    Shown(r, v, w, []);
  }

  lemma BegunStays(r: Ident, w0: Scene, w1: Scene, x: Execution)
    requires Did(r, w0, w1, [Update(x), Emit(Event(r.execution, AgentStarted, None))])
    ensures r.execution in w1.Store().executions
  {
    Shown(r, w0, w1, [Update(x), Emit(Event(r.execution, AgentStarted, None))]);
    RunLaws.PairFilters(Update(x), Emit(Event(r.execution, AgentStarted, None)));
    OneFilters(Update(x));
    OneFilters(Emit(Event(r.execution, AgentStarted, None)));
  }

  // ---------- Why a run ended ----------

  lemma NeverLooked(o: Outside, run: Run)
    requires run.opening == [] && run.rounds == []
    ensures Justified(o, run.opening, run.rounds, run.knock, run.ending)
  {
  }

  lemma WasCancelled(o: Outside, opening: seq<Message>, rs: seq<Round>)
    requires AllObey(o, rs) && o.cancelled(|rs|).Some?
    ensures Justified(o, opening, rs, None, Stopped(ErrorOf(o.cancelled(|rs|).value)))
  {
    hide AllObey;
  }

  lemma HasKnocked(o: Outside, opening: seq<Message>, rs: seq<Round>, ask: B.Entry, cause: Error)
    requires AllObey(o, rs) && o.cancelled(|rs|).None?
    ensures Justified(o, opening, rs, Some(ask), Stopped(cause))
  {
    hide AllObey;
  }

  lemma WasDecided(r: Ident, o: Outside, opening: seq<Message>, rs: seq<Round>, q: Round, w1: Scene, w2: Scene,
                   messages: seq<Prompt>, verdict: Verdict, ending: Ending)
    requires AllObey(o, rs + [q])
    requires Passed(r, w1, w2, q, messages, q.stepId, verdict) && !verdict.Continue?
    ensures Justified(o, opening, rs + [q], None, ending)
  {
    hide AllObey, Did, RoundOk;
  }

  lemma WasExhausted(o: Outside, opening: seq<Message>, rs: seq<Round>)
    requires AllObey(o, rs) && |rs| == MAX_STEPS
    ensures Justified(o, opening, rs, None, Stopped(StepsExhausted))
  {
    hide AllObey;
  }

  /** What Retry returns is what the provider replied to the round. */
  lemma RepliedBy(o: Outside, i: nat, replies: seq<Result<Response>>, reply: Result<Response>)
    requires 1 <= |replies| <= Retry.ENGINE_POLICY.maxAttempts
    requires forall k :: 0 <= k < |replies| - 1 ==> replies[k].Err? && Interrupts(o, i)(k + 1).None?
    requires var last, n := replies[|replies| - 1], |replies|;
             if last.Err? && n < Retry.ENGINE_POLICY.maxAttempts then
               Interrupts(o, i)(n).Some? && reply == Err(Interrupts(o, i)(n).value)
             else reply == last
    ensures Replied(o, i, replies, reply)
  {
    Retry.ResultingIs(Retry.ENGINE_POLICY, replies, Interrupts(o, i));
  }

  lemma Bounded(o: Outside, i: nat, replies: seq<Result<Response>>, reply: Result<Response>)
    requires Replied(o, i, replies, reply)
    ensures 1 <= |replies| <= Retry.ENGINE_POLICY.maxAttempts
  {
  }

  // ---------- What the phases of a round come to ----------

  lemma IsUnderway(r: Ident, base: Run, rs: seq<Round>, w0: Scene, w: Scene, x: Execution, messages: seq<Prompt>,
                   next: Id)
    requires Underway(r, base, rs, w0, w, x, messages, next)
    ensures x.id == r.execution && r.execution in w.Store().executions && r.conversation in w.Store().conversations
  {
    hide Did, RoundsOk, Faithful, Tied;
    RunLaws.CarriedKeeps(MarkedRunning(base.start, base.startedAt), rs);
  }

  lemma FromPlayed(r: Ident, w0: Scene, w1: Scene, w2: Scene, q0: Round, q: Round,
                   messages: seq<Prompt>, stepId: Id, verdict: Verdict)
    requires Played(r, q0, q, w0, w2, verdict) && SeenWell(r, w0, w1, q0)
    requires q0.prompt == messages && q0.stepId == stepId
    requires |w1.LogOf(r.conversation)| <= |w2.LogOf(r.conversation)|
    ensures q == q0.(spoken := q.spoken, fan := q.fan, heard := q.heard)
    ensures Passed(r, w0, w2, q, messages, stepId, verdict)
  {
    hide Did;
  }

  lemma MessagesOfSays(ms: seq<Message>)
    requires |ms| <= 1
    ensures MessagesIn(Says(ms)) == ms
  {
    if ms != [] {
      assert Says(ms) == [AddMessage(ms[0])];
      OneFilters(AddMessage(ms[0]));
    }
  }

  lemma Refused(r: Ident, q0: Round, w0: Scene, w1: Scene, messages: seq<Prompt>, stepId: Id)
    requires q0.reply.Err? && q0.spoken == [] && q0.fan == NO_FAN && q0.heard == []
    requires Counted(q0) && q0.prompt == messages && q0.stepId == stepId
    requires Did(r, w0, w1, Head(r.execution, q0)) && SeenWell(r, w0, w1, q0)
    ensures Passed(r, w0, w1, q0, messages, stepId, Abort(q0.reply.error))
  {
    hide Did;
    NoFanOk(r.execution);
    BareDid(r, q0, w0, w1);
  }

  lemma BareDid(r: Ident, q0: Round, w0: Scene, w1: Scene)
    requires q0.spoken == [] && q0.fan.acts == [] && q0.heard == [] && Did(r, w0, w1, Head(r.execution, q0))
    ensures Did(r, w0, w1, RoundLog(r.execution, q0))
  {
    hide Did;
    Nothing(r, w1);
    assert Says([]) == [];
    RoundDid(r, w0, w1, w1, w1, w1, q0, q0);
  }

  lemma AddsIs(messages: seq<Prompt>, a: Response, f: Fan, q: Round)
    requires q.reply == Ok(a) && q.fan == f && |f.fates| == |f.calls| && Sequential(f.calls, f.fates).Ok?
    ensures Grows(messages, messages + [Spoken(a)] + Sequential(f.calls, f.fates).value, q)
  {
  }

  predicate Counted(q: Round) {
    && Permitted(q.ask) && Reports(q.report, q.reply)
    && |q.replies| <= Retry.ENGINE_POLICY.maxAttempts && q.retries == |q.replies| - 1
  }

  /** A completion was permitted, announced, asked for, answered and recorded since w0. */
  ghost predicate Consulted(r: Ident, q: Round, w0: Scene, w1: Scene, a: Response) {
    && q == Round(q.ask, q.stepId, q.prompt, q.seen, q.replies, q.report, q.retries, Ok(a), [], NO_FAN, [])
    && Counted(q)
    && Did(r, w0, w1, Head(r.execution, q))
  }

  lemma ReplyOf(r: Ident, q: Round, w0: Scene, w1: Scene, a: Response)
    requires Consulted(r, q, w0, w1, a)
    ensures q.reply == Ok(a) && q.spoken == [] && q.fan == NO_FAN && q.heard == []
  {
  }

  /** Round q extends the consultation q0, is well formed, and ends as the verdict says. */
  ghost predicate Played(r: Ident, q0: Round, q: Round, w0: Scene, w1: Scene, verdict: Verdict) {
    && q == q0.(spoken := q.spoken, fan := q.fan, heard := q.heard)
    && RoundOk(r.execution, r.conversation, q)
    && Did(r, w0, w1, RoundLog(r.execution, q))
    && Ends(q, verdict)
  }

  lemma NoFanOk(e: Id)
    ensures FanOk(e, NO_FAN)
  {
  }

  /** The phases of a round, one after the other. */
  lemma RoundDid(r: Ident, w0: Scene, w1: Scene, w2: Scene, w3: Scene, w4: Scene, q0: Round, q: Round)
    requires q == q0.(spoken := q.spoken, fan := q.fan, heard := q.heard)
    requires Did(r, w0, w1, Head(r.execution, q0)) && Did(r, w1, w2, Says(q.spoken))
    requires Did(r, w2, w3, q.fan.acts) && Did(r, w3, w4, Says(q.heard))
    ensures Did(r, w0, w4, RoundLog(r.execution, q))
  {
    hide Did;
    Then(r, w0, w1, w2, Head(r.execution, q0), Says(q.spoken));
    Then(r, w0, w2, w3, Head(r.execution, q0) + Says(q.spoken), q.fan.acts);
    Then(r, w0, w3, w4, Head(r.execution, q0) + Says(q.spoken) + q.fan.acts, Says(q.heard));
  }

  lemma Answered(r: Ident, a: Response, q0: Round, w0: Scene, w1: Scene, w2: Scene, said: seq<Message>,
                 verdict: Verdict)
    requires Consulted(r, q0, w0, w1, a) && a.toolCalls == [] && Did(r, w1, w2, Says(said))
    requires match verdict
             case Finish => AllStored(said, r.conversation, [Spoken(a)])
             case Abort(c) => said == [] && c == NoEntropy
             case Continue => false
    ensures Played(r, q0, q0.(spoken := said), w0, w2, verdict)
  {
    hide Did;
    var q := q0.(spoken := said);
    Nothing(r, w2);
    RoundDid(r, w0, w1, w2, w2, w2, q0, q);
    NoFanOk(r.execution);
  }

  lemma Unspoken(r: Ident, a: Response, q0: Round, w0: Scene, w1: Scene, w2: Scene)
    requires Consulted(r, q0, w0, w1, a) && Did(r, w1, w2, [])
    ensures Played(r, q0, q0, w0, w2, Abort(NoEntropy))
  {
    hide Did;
    Nothing(r, w2);
    assert Says([]) == [];
    RoundDid(r, w0, w1, w2, w2, w2, q0, q0);
    NoFanOk(r.execution);
  }

  lemma ToolFailure(r: Ident, a: Response, q0: Round, w0: Scene, w1: Scene, w2: Scene, w3: Scene,
                    said: seq<Message>, f: Fan)
    requires Consulted(r, q0, w0, w1, a) && Did(r, w1, w2, Says(said)) && Did(r, w2, w3, f.acts)
    requires AllStored(said, r.conversation, [Spoken(a)])
    requires FanOk(r.execution, f) && f.calls == a.toolCalls != [] && Sequential(f.calls, f.fates).Err?
    requires forall i :: 0 <= i < |f.calls| && f.fates[i].Drawn() ==> f.ids[i] > q0.stepId
    ensures Played(r, q0, q0.(spoken := said, fan := f), w0, w3, Abort(Sequential(f.calls, f.fates).error))
  {
    hide Did;
    var q := q0.(spoken := said, fan := f);
    Nothing(r, w3);
    assert Says([]) == [];
    RoundDid(r, w0, w1, w2, w3, w3, q0, q);
  }

  lemma ToolsReturned(r: Ident, a: Response, q0: Round, w0: Scene, w1: Scene, w2: Scene, w3: Scene, w4: Scene,
                      said: seq<Message>, f: Fan, heard: seq<Message>, verdict: Verdict)
    requires Consulted(r, q0, w0, w1, a) && Did(r, w1, w2, Says(said)) && Did(r, w2, w3, f.acts)
    requires Did(r, w3, w4, Says(heard))
    requires AllStored(said, r.conversation, [Spoken(a)])
    requires FanOk(r.execution, f) && f.calls == a.toolCalls != [] && Sequential(f.calls, f.fates).Ok?
    requires forall i :: 0 <= i < |f.calls| && f.fates[i].Drawn() ==> f.ids[i] > q0.stepId
    requires var ps := Sequential(f.calls, f.fates).value;
             && |heard| <= |ps| && AllStored(heard, r.conversation, ps[..|heard|])
             && match verdict
                case Continue => |heard| == |ps|
                case Abort(c) => |heard| < |ps| && c == NoEntropy
                case Finish => false
    ensures Played(r, q0, q0.(spoken := said, fan := f, heard := heard), w0, w4, verdict)
  {
    hide Did;
    var q := q0.(spoken := said, fan := f, heard := heard);
    RoundDid(r, w0, w1, w2, w3, w4, q0, q);
    ToolLaws.SequentialMeaning(f.calls, f.fates);
  }

  /** The actions of a consultation. */
  lemma HeadDid(r: Ident, w0: Scene, w1: Scene, w2: Scene, w3: Scene, w4: Scene, q: Round)
    requires Did(r, w0, w1, [Gate(q.ask)])
    requires Did(r, w1, w2, [Emit(Event(r.execution, AgentThinking, Some(q.stepId)))])
    requires Did(r, w2, w3, [Action.Ask(q.prompt, q.seen, q.replies), Gate(q.report)])
    requires Did(r, w3, w4, [AddStep(LlmStepOf(r.execution, q))])
    ensures Did(r, w0, w4, Head(r.execution, q))
  {
    hide Did;
    var h := Head(r.execution, q);
    assert h == [h[0]] + [h[1]] + [h[2], h[3]] + [h[4]];
    Then(r, w0, w1, w2, [h[0]], [h[1]]);
    Then(r, w0, w2, w3, [h[0]] + [h[1]], [h[2], h[3]]);
    Then(r, w0, w3, w4, [h[0]] + [h[1]] + [h[2], h[3]], [h[4]]);
  }

  lemma {:induction false} FirstError(calls: seq<ToolCall>, fates: seq<Fate>, i: nat)
    requires |fates| == |calls| && i < |calls|
    requires Sequential(calls[..i], fates[..i]).Ok? && Outcome(calls[i], fates[i]).Err?
    ensures Sequential(calls, fates) == Err(Outcome(calls[i], fates[i]).error)
    decreases |calls|
  {
    var n := |calls| - 1;
    if i < n {
      assert calls[..n][..i] == calls[..i] && fates[..n][..i] == fates[..i];
      FirstError(calls[..n], fates[..n], i);
    }
  }

  /** After the opening: either the loop can start, or the run ends without a round. */
  lemma Opened(r: Ident, base: Run, w0: Scene, w1: Scene, w2: Scene)
    requires Did(r, w0, w1, Marking(base)) && Did(r, w1, w2, Says(base.opening))
    ensures Did(r, w0, w2, Opening(base) + Flatten(r.execution, []))
  {
    hide Did;
    Then(r, w0, w1, w2, Marking(base), Says(base.opening));
    assert Opening(base) + [] == Opening(base);
  }

  lemma Starts(r: Ident, base: Run, w0: Scene, w: Scene, x: Execution, messages: seq<Prompt>, next: Id)
    requires Placed(r, base, w) && OpeningOk(base) && |base.opening| == 1
    requires x == MarkedRunning(base.start, base.startedAt)
    requires messages == PromptAfter(base.history, base.start.input, [])
    requires Did(r, w0, w, Opening(base) + Flatten(r.execution, []))
    requires Tied(r, messages, w.LogOf(r.conversation)) && Remembered(r, base, w0, w)
    ensures Underway(r, base, [], w0, w, x, messages, next)
  {
    hide Did;
  }

  /** Nothing that a run finds stored goes away while it acts. */
  lemma DidGrows(r: Ident, w0: Scene, w1: Scene, l: seq<Action>)
    requires Did(r, w0, w1, l)
    ensures w0.LogOf(r.conversation) <= w1.LogOf(r.conversation)
    ensures r.alone && (l == [] || MessagesIn(l) == []) ==> w0.LogOf(r.conversation) == w1.LogOf(r.conversation)
    ensures r.conversation in w0.Store().conversations ==>
              r.conversation in w1.Store().conversations
              && w1.Store().conversations[r.conversation] == w0.Store().conversations[r.conversation]
    ensures r.execution in w0.Store().executions ==> r.execution in w1.Store().executions
  {
    hide Did;
    Shown(r, w0, w1, l);
  }

  /** Only its marking and the announcement have been done, and the run has this cause to end. */
  ghost predicate Fruitless(r: Ident, base: Run, cause: Error, w0: Scene, w: Scene) {
    && base.start.id == r.execution && base.start.conversationId == r.conversation
    && base.rounds == [] && base.opening == [] && |base.history| <= HISTORY && base.knock.None?
    && w0.journal == [] && Did(r, w0, w, Opening(base) + Flatten(r.execution, []))
    && (cause == NoEntropy || cause == UNLOADED)
    && (w0.Store().OwnsConversation(base.start.ownerId, r.conversation) ==> cause == NoEntropy)
  }

  /** The run ends before its first question: the conversation could not be read, or no identifier was found. */
  lemma NeverAsked(r: Ident, base: Run, cause: Error, w0: Scene, w1: Scene, w2: Scene)
    requires base.start.id == r.execution && base.start.conversationId == r.conversation
    requires base.rounds == [] && base.opening == [] && |base.history| <= HISTORY && base.knock.None?
    requires cause == NoEntropy || cause == UNLOADED
    requires Did(r, w0, w1, Marking(base)) && Did(r, w0, w2, Opening(base) + Flatten(r.execution, []))
    requires w0.journal == []
    requires w1.Store().OwnsConversation(base.start.ownerId, r.conversation) ==> cause == NoEntropy
    ensures Fruitless(r, base, cause, w0, w2)
  {
    hide Did;
    DidGrows(r, w0, w1, Marking(base));
  }

  lemma Abandoning(r: Ident, base: Run, run: Run, cause: Error, w0: Scene, w: Scene)
    requires Fruitless(r, base, cause, w0, w) && run == base.(ending := Stopped(cause), completedAt := run.completedAt)
    ensures RunOk(run) && Log(run) == ActionsOf(w.journal) + Closing(run)
    ensures FinalOf(run) == Finished(MarkedRunning(base.start, base.startedAt), Stopped(cause), run.completedAt)
  {
    hide Did;
    JournalIs(r, w0, w, Opening(base) + Flatten(r.execution, []));
    assert Opening(run) + [] + [] == Opening(run);
  }

  lemma Abandoned(r: Ident, base: Run, run: Run, cause: Error, w0: Scene, w: Scene, w': Scene)
    requires Fruitless(r, base, cause, w0, w) && run == base.(ending := Stopped(cause), completedAt := run.completedAt)
    requires Did(r, w, w', Closing(run))
    ensures Performed(r, w0, w', run)
  {
    hide Did;
    Abandoning(r, base, run, cause, w0, w);
    JournalIs(r, w0, w, Opening(base) + Flatten(r.execution, []));
    Then(r, w0, w, w', Opening(base) + Flatten(r.execution, []), Closing(run));
  }

  /** The run is about to end after the loop. */
  lemma Concluding(r: Ident, base: Run, run: Run, w0: Scene, w2: Scene, x: Execution)
    requires Ended(r, base, run.rounds, w0, w2, x, run.knock, run.ending) && w0.journal == []
    requires run == base.(rounds := run.rounds, knock := run.knock, ending := run.ending,
                         completedAt := run.completedAt)
    ensures RunOk(run) && Log(run) == ActionsOf(w2.journal) + Closing(run)
    ensures FinalOf(run) == Finished(x, run.ending, run.completedAt)
  {
    hide Did, RoundsOk, Faithful, EndingOk, Remembered, Carried, Flatten, Closing;
    JournalIs(r, w0, w2, Opening(base) + Flatten(r.execution, run.rounds) + Knocking(base.(knock := run.knock)));
  }

  lemma IsEnded(r: Ident, base: Run, rs: seq<Round>, w0: Scene, w: Scene, x: Execution, knock: Option<B.Entry>,
                ending: Ending)
    requires Ended(r, base, rs, w0, w, x, knock, ending)
    ensures x.id == r.execution == base.start.id && r.execution in w.Store().executions
  {
    hide Did, RoundsOk, Faithful, EndingOk;
    RunLaws.CarriedKeeps(MarkedRunning(base.start, base.startedAt), rs);
  }

  /** It has ended. */
  lemma Concluded(r: Ident, base: Run, run: Run, w0: Scene, w2: Scene, w3: Scene, x: Execution)
    requires Ended(r, base, run.rounds, w0, w2, x, run.knock, run.ending) && w0.journal == [] && RunOk(run)
    requires run == base.(rounds := run.rounds, knock := run.knock, ending := run.ending,
                         completedAt := run.completedAt)
    requires Did(r, w2, w3, Closing(run))
    ensures Performed(r, w0, w3, run)
  {
    hide Did, RunOk, RoundsOk, Faithful, EndingOk, Window, FinalOf, Carried, Flatten, Closing;
    Then(r, w0, w2, w3, Opening(base) + Flatten(r.execution, run.rounds) + Knocking(base.(knock := run.knock)),
        Closing(run));
    DidGrows(r, w2, w3, Closing(run));
    FaithfulLater(r, |w0.LogOf(r.conversation)|, |base.opening|, run.rounds,
                  w2.LogOf(r.conversation), w3.LogOf(r.conversation));
    StaysRemembered(r, base, w0, w2, w3, Closing(run));
  }

  lemma WindowLater(r: Ident, loaded: nat, history: seq<Message>, w0: Scene, w1: Scene, w2: Scene)
    requires w0.LogOf(r.conversation) <= w1.LogOf(r.conversation) <= w2.LogOf(r.conversation)
    requires r.alone ==> w0.LogOf(r.conversation) == w1.LogOf(r.conversation)
    requires loaded == |w1.LogOf(r.conversation)| && history == S.Recent(w1.LogOf(r.conversation), HISTORY)
    ensures Window(r, loaded, history, w0, w2)
  {
    assert w2.LogOf(r.conversation)[..loaded] == w1.LogOf(r.conversation);
  }

  lemma RememberedSince(r: Ident, base: Run, w0: Scene, w1: Scene, w2: Scene)
    requires Window(r, base.loaded, base.history, w1, w2) && Did(r, w0, w1, Marking(base))
    ensures Remembered(r, base, w0, w2)
  {
    Shown(r, w0, w1, Marking(base));
    RunLaws.PairFilters(Marking(base)[0], Marking(base)[1]);
  }
}
