/**
 * The store, the queue, the events and the identifiers in the hands of everybody who moves in the dispatch protocol.
 */
module Site {
  import opened Actors
  import opened Dispatch
  import opened Domain
  import opened Drafts
  import opened Effects
  import opened Ids
  import opened Queue
  import opened Runs
  import opened Scripts
  import opened Sink
  import S = Store

  class Site {
    const store: S.Memory
    const queue: Immediate
    const ids: IdSource
    const sink: EventLog
    // Whether everybody moves here by the protocol, or may do anything that leaves a run alone.
    const lawful: bool
    // The whole system, whose store, queue, events and identifiers are the ones above, and all the moves it has made.
    var system: State
    ghost var moves: seq<Move>
    // While a run is under way: which consumer performs it, of which execution, and the moves since it began.
    var runner: nat
    ghost var subject: Execution
    ghost var tail: seq<Move>

    constructor (store: S.Memory, queue: Immediate, ids: IdSource, sink: EventLog, lawful: bool)
      requires store.View() == S.EMPTY && queue.jobs == [] && ids.next == 0 && sink.published == map[]
      ensures Valid() && this.store == store && this.queue == queue && this.ids == ids && this.sink == sink
      ensures this.lawful == lawful && moves == []
    {
      this.store, this.queue, this.ids, this.sink, this.lawful := store, queue, ids, sink, lawful;
      system, moves := START, [];
    }

    /** Memory does not enforce unique keys. */
    function Setup(): Config {
      Config(queue.size, false)
    }

    function Shared(): World
      reads store, sink
    {
      World(store.View(), sink.published)
    }

    ghost predicate Fits(s: State)
      reads store, queue, ids, sink
    {
      s.world == Shared() && s.queue == queue.jobs && s.nextId == ids.next
    }

    ghost predicate Reached()
      reads this
    {
      Behaviour(Setup(), moves) && system == After(Setup(), moves)
    }

    ghost predicate Valid()
      reads this, store, queue, ids, sink
    {
      Reached() && Fits(system)
    }

    predicate Stored(x: Execution)
      reads store
    {
      x.id in store.executions && store.executions[x.id] == x
    }

    method Adopt()
      modifies store, queue, ids, sink
      ensures Fits(system)
    {
      var st := system.world.store;
      store.agents, store.executions, store.steps := st.agents, st.executions, st.steps;
      store.conversations, store.messages := st.conversations, st.messages;
      sink.published, queue.jobs, ids.next := system.world.events, system.queue, system.nextId;
    }

    /** Somebody else moves. */
    method Elsewhere(m: Move)
      requires Valid() && Allowed(system, m)
      modifies this, store, queue, ids, sink
      ensures Valid() && moves == old(moves) + [m] && system == Apply(Setup(), old(system), m)
    {
      hide Apply, Behaviour, After, Allowed;
      OneMove(Setup(), moves, m);
      system, moves := Apply(Setup(), system, m), moves + [m];
      Adopt();
    }

    /** Anybody but actor a may have moved any number of times. */
    method Others(a: Actor)
      requires Valid()
      modifies this, store, queue, ids, sink
      ensures Valid() && old(moves) <= moves && Still(a, old(system), system)
    {
      hide Apply, Behaviour, After, Allowed;
      var n: int := *;
      while n > 0
        invariant Valid() && old(moves) <= moves && Still(a, old(system), system)
      {
        n := n - 1;
        var m: Move := *;
        if (ActorOf(m) != a || a.Nobody?) && Allowed(system, m) {
          OthersStandStill(Setup(), system, m, a);
          Elsewhere(m);
        }
      }
    }

    /** Move m has just been made on the store, the queue or the identifiers. */
    method Moved(m: Move)
      requires Reached() && Allowed(system, m) && Fits(Apply(Setup(), system, m))
      modifies this
      ensures Valid() && moves == old(moves) + [m] && system == Apply(Setup(), old(system), m)
    {
      hide Apply, Behaviour, After, Allowed;
      OneMove(Setup(), moves, m);
      system, moves := Apply(Setup(), system, m), moves + [m];
    }

    // ---------- While a run is under way ----------

    /**
     * The runner has done l, and whichever run it turns out to be, the moves so far were a behaviour that leads here.
     */
    ghost predicate Under(l: seq<Action>)
      reads this
    {
      && (exists p :: Drafted(system, runner, subject, l, p))
      && Whichever(Setup(), moves, runner, tail, system, subject, l)
    }

    ghost predicate Running(l: seq<Action>)
      reads this, store, queue, ids, sink
    {
      Under(l) && Fits(system)
    }

    /** r is the run under way. */
    ghost predicate Runs(r: Ident)
      reads this
    {
      subject.id == r.execution && subject.conversationId == r.conversation && runner == r.worker
    }

    /** Consumer w begins a run of the execution that it has checked. */
    method Enter(w: nat, ghost x: Execution)
      requires Valid() && system.ConsumerOf(w).Checking? && system.ConsumerOf(w).x == x
      requires system.world.store.OwnsAgent(system.ConsumerOf(w).job.ownerId, system.ConsumerOf(w).job.agentId)
      modifies this
      ensures Running([]) && runner == w && subject == x && moves == old(moves) && tail == []
      ensures system.world == old(system.world)
    {
      hide Behaviour, After, Drafted, Whichever;
      ghost var before := system;
      runner, subject, tail := w, x, [];
      system := system.(begun := system.begun + [x.id]);
      ghost var p := Starting(Setup(), moves, w, system, x);
    }

    /** Anybody but the runner may have moved; if it is alone, nobody else has said anything in its conversation. */
    method Interlude(r: Ident, ghost l: seq<Action>)
      requires Running(l) && Runs(r)
      modifies this, store, queue, ids, sink
      ensures Running(l) && Runs(r) && subject == old(subject) && moves == old(moves)
      ensures Leaves(r, old(Shared()), Shared())
    {
      hide Apply, Allowed, Drafted, Whichever, Leaves;
      LeavesSelf(r, system.world);
      var n: int := *;
      while n > 0
        invariant Running(l) && Runs(r) && subject == old(subject) && moves == old(moves)
        invariant Leaves(r, old(Shared()), Shared())
      {
        n := n - 1;
        var m: Move := *;
        if ActorOf(m) != Worker(runner) && Allowed(system, m) {
          var next := Apply(Setup(), system, m).world;
          var log := system.world.store.MessagesOf(r.conversation);
          if r.alone ==> next.store.MessagesOf(r.conversation) == log {
            ghost var p :| Drafted(system, runner, subject, l, p);
            ghost var before := system.world;
            OthersDraft(Setup(), system, m, runner, subject, l, p);
            OthersWhichever(Setup(), moves, runner, tail, system, subject, l, m);
            StillAlone(r, before, next);
            LeavesThen(r, old(Shared()), before, next);
            system, tail := Apply(Setup(), system, m), tail + [m];
            Adopt();
          }
        }
      }
    }

    /** What a run works on is stored. */
    lemma SubjectIsStored(l: seq<Action>)
      requires Running(l)
      ensures subject.id in store.executions
    {
      hide Whichever;
      ghost var p :| Drafted(system, runner, subject, l, p);
      assert ConsumerOk(With(system, runner, Executing(p, |l|)), runner);
    }

    /** The runner has just done a. */
    method Acts(ghost l: seq<Action>, ghost a: Action)
      requires Under(l) && Promising(subject, l + [a])
      requires Fits(system.(world := Effect(system.world, a)))
      modifies this
      ensures Running(l + [a]) && runner == old(runner) && subject == old(subject) && moves == old(moves)
    {
      hide Drafted, Whichever, Effect, GoesOnWith;
      ghost var p :| Drafted(system, runner, subject, l, p);
      ghost var q :| GoesOnWith(q, subject, l + [a]);
      Redraft(system, runner, subject, l, p, q, a);
      ActDraft(Setup(), system, runner, subject, l, q, a);
      ActWhichever(Setup(), moves, runner, tail, system, subject, l, a);
      ghost var next := Acting(system, subject.id, a);
      system := system.(world := Shared(), authors := next.authors);
      tail := tail + [Act(runner)];
      assert system == next;
    }

    /** The runner has just done a, the last action of the run, and is free again. */
    method Leave(ghost l: seq<Action>, ghost a: Action, ghost run: Run)
      requires Under(l) && Begins(run, subject, l) && Log(run) == l + [a]
      requires Fits(system.(world := Effect(system.world, a)))
      modifies this
      ensures Valid() && system.ConsumerOf(old(runner)).Idle?
      ensures old(moves) + [Check(old(runner), run)] <= moves
      ensures run.start.id in system.place && system.place[run.start.id] == Settled(ScriptOf(run))
    {
      hide Behaviour, After, Whichever, Effect, Log, RunOk;
      Settles(Setup(), moves, runner, tail, system, subject, l, a, run);
      ghost var next := Settling(system, runner, a, run);
      moves := moves + [Check(runner, run)] + tail + [Act(runner)];
      system := system.(world := Shared(), consumers := system.consumers[runner := Idle],
                        authors := next.authors, place := next.place);
      assert system == next;
    }

    /** Other actors have moved, by the protocol or otherwise. */
    method Yield(r: Ident, ghost l: seq<Action>)
      requires lawful ==> Running(l) && Runs(r)
      modifies this, store, queue, ids, sink
      ensures Leaves(r, old(Shared()), Shared())
      ensures subject == old(subject) && moves == old(moves) && (lawful ==> Running(l) && Runs(r))
    {
      hide Leaves;
      LeavesSelf(r, Shared());
      if lawful {
        Interlude(r, l);
      } else {
        var env: World := *;
        if Leaves(r, Shared(), env) {
          store.agents, store.executions, store.steps := env.store.agents, env.store.executions, env.store.steps;
          store.conversations, store.messages := env.store.conversations, env.store.messages;
          sink.published := env.events;
        }
      }
    }
  }

  lemma StillAlone(r: Ident, v: World, w: World)
    requires Leaves(r.(alone := false), v, w)
    requires r.alone ==> w.store.MessagesOf(r.conversation) == v.store.MessagesOf(r.conversation)
    ensures Leaves(r, v, w)
  {
  }

  lemma LeavesThen(r: Ident, u: World, v: World, w: World)
    requires Leaves(r, u, v) && Leaves(r, v, w)
    ensures Leaves(r, u, w)
  {
  }
}
