/** Whose move each move of the dispatch protocol is, and what it does not depend on. */
module Actors {
  import opened Domain
  import opened Dispatch
  import opened Effects
  import opened Runs
  import opened Text
  import Idempotency
  import Scripts

  /** Who makes a move. */
  datatype Actor = Call(c: nat) | Worker(w: nat) | Nobody

  function ActorOf(m: Move): Actor {
    match m
    case Arrive(c, _) => Call(c)
    case Lookup(c, _) => Call(c)
    case Authorize(c) => Call(c)
    case Converse(c) => Call(c)
    case Create(c) => Call(c)
    case NoIdentifier(c, _) => Call(c)
    case Enqueue(c) => Call(c)
    case CancelSend(c, _) => Call(c)
    case Withdraw(c, _) => Call(c)
    case Dequeue(w) => Worker(w)
    case Load(w) => Worker(w)
    case Check(w, _) => Worker(w)
    case Act(w) => Worker(w)
    case _ => Nobody
  }

  /** The actor is where it was. */
  predicate Still(a: Actor, s: State, t: State) {
    match a
    case Call(c) => t.CallerOf(c) == s.CallerOf(c)
    case Worker(w) => t.ConsumerOf(w) == s.ConsumerOf(w)
    case Nobody => true
  }

  /** Nobody moves for another. */
  lemma OthersStandStill(cfg: Config, s: State, m: Move, a: Actor)
    requires ActorOf(m) != a || a.Nobody?
    ensures Still(a, s, Apply(cfg, s, m))
  {
    hide Apply;
    match a
    case Call(c) => OthersSpareCall(cfg, s, m, c);
    case Worker(w) => OthersSpareWorker(cfg, s, m, w);
    case Nobody =>
  }

  lemma OthersSpareCall(cfg: Config, s: State, m: Move, c: nat)
    requires ActorOf(m) != Call(c)
    ensures Apply(cfg, s, m).CallerOf(c) == s.CallerOf(c)
  {
    hide Apply;
    if !ActorOf(m).Call? {
      Idempotency.OthersSpareCallers(cfg, s, m);
    } else if m.Arrive? || m.Lookup? {
      AskingSparesCall(cfg, s, m, c);
    } else if m.Authorize? || m.Converse? {
      EarlyMovesSpareCall(cfg, s, m, c);
    } else {
      LateMovesSpareCall(cfg, s, m, c);
    }
  }

  lemma AskingSparesCall(cfg: Config, s: State, m: Move, c: nat)
    requires (m.Arrive? || m.Lookup?) && m.c != c
    ensures Apply(cfg, s, m).CallerOf(c) == s.CallerOf(c)
  {
    hide KeyTaken, Blank, Authorized, Conversed, Created, Unidentified, Enqueued, SendCancelled, WithdrawnBy, Dequeued,
      Loaded, Checked, Acted, AgentPut, AgentRemoved, RecordRead, StepsRead;
  }

  lemma EarlyMovesSpareCall(cfg: Config, s: State, m: Move, c: nat)
    requires (m.Authorize? || m.Converse?) && m.c != c
    ensures Apply(cfg, s, m).CallerOf(c) == s.CallerOf(c)
  {
    hide Title, Joining, Arrived, LookedUp, Created, Unidentified, Enqueued, SendCancelled, WithdrawnBy, Dequeued,
      Loaded, Checked, Acted, AgentPut, AgentRemoved, RecordRead, StepsRead;
  }

  lemma LateMovesSpareCall(cfg: Config, s: State, m: Move, c: nat)
    requires (m.Create? || m.NoIdentifier? || m.Enqueue? || m.CancelSend? || m.Withdraw?) && m.c != c
    ensures Apply(cfg, s, m).CallerOf(c) == s.CallerOf(c)
  {
    hide KeyTaken, NewExecution, Withdrawn, JobOf, Arrived, LookedUp, Authorized, Conversed, Dequeued, Loaded, Checked,
      Acted, AgentPut, AgentRemoved, RecordRead, StepsRead;
  }

  lemma OthersSpareWorker(cfg: Config, s: State, m: Move, w: nat)
    requires ActorOf(m) != Worker(w)
    ensures Apply(cfg, s, m).ConsumerOf(w) == s.ConsumerOf(w)
  {
    hide Apply;
    if ActorOf(m).Worker? {
      WorkersSpareWorker(cfg, s, m, w);
    } else {
      CallsSpareWorkers(cfg, s, m);
    }
  }

  lemma WorkersSpareWorker(cfg: Config, s: State, m: Move, w: nat)
    requires ActorOf(m).Worker? && m.w != w
    ensures Apply(cfg, s, m).ConsumerOf(w) == s.ConsumerOf(w)
  {
    hide Arrived, LookedUp, Authorized, Conversed, Created, Unidentified, Enqueued, SendCancelled, WithdrawnBy,
      AgentPut, AgentRemoved, RecordRead, StepsRead, Effect, JobOf, Scripts.ScriptOf;
    if m.Dequeue? || m.Load? {
      hide Checked, Acted;
    } else {
      hide Dequeued, Loaded;
    }
  }

  lemma CallsSpareWorkers(cfg: Config, s: State, m: Move)
    requires !ActorOf(m).Worker?
    ensures Apply(cfg, s, m) == Apply(cfg, s, m).(consumers := s.consumers)
  {
    hide Dequeued, Loaded, Checked, Acted, KeyTaken, NewExecution, Withdrawn, Joining, Title, Blank, JobOf;
  }

  lemma {:induction false} OneMove(cfg: Config, ms: seq<Move>, m: Move)
    requires Behaviour(cfg, ms) && Allowed(After(cfg, ms), m)
    ensures Behaviour(cfg, ms + [m]) && After(cfg, ms + [m]) == Apply(cfg, After(cfg, ms), m)
  {
    hide Apply, Allowed;
    assert (ms + [m])[..|ms + [m]| - 1] == ms;
  }

  // ---------- Where another consumer is ----------

  /** The state with consumer w somewhere else. */
  function With(s: State, w: nat, k: Consumer): State {
    s.(consumers := s.consumers[w := k])
  }

  /** Where consumer w is makes no difference to anybody else. */
  lemma WorkerUnseen(cfg: Config, s: State, m: Move, w: nat, k: Consumer)
    requires ActorOf(m) != Worker(w)
    ensures Apply(cfg, With(s, w, k), m) == With(Apply(cfg, s, m), w, k)
    ensures Allowed(With(s, w, k), m) <==> Allowed(s, m)
  {
    hide Apply;
    if ActorOf(m).Worker? {
      UnseenByWorkers(cfg, s, m, w, k);
    } else if ActorOf(m).Nobody? {
      UnseenByNobody(cfg, s, m, w, k);
    } else if m.Arrive? {
      ArriveIs(cfg, s, m.c, m.req);
      ArriveIs(cfg, With(s, w, k), m.c, m.req);
      UnseenArriving(s, m.c, m.req, w, k);
    } else if m.Lookup? {
      LookupIs(cfg, s, m.c, m.hit);
      LookupIs(cfg, With(s, w, k), m.c, m.hit);
      UnseenLooking(s, m.c, m.hit, w, k);
    } else if m.Authorize? {
      AuthorizeIs(cfg, s, m.c);
      AuthorizeIs(cfg, With(s, w, k), m.c);
      UnseenAuthorizing(s, m.c, w, k);
    } else if m.Converse? {
      ConverseIs(cfg, s, m.c);
      ConverseIs(cfg, With(s, w, k), m.c);
      UnseenConversing(s, m.c, w, k);
    } else if m.Create? {
      CreateIs(cfg, s, m.c);
      CreateIs(cfg, With(s, w, k), m.c);
      UnseenCreating(cfg, s, m.c, w, k);
    } else {
      UnseenLate(cfg, s, m, w, k);
    }
  }

  lemma UnseenByNobody(cfg: Config, s: State, m: Move, w: nat, k: Consumer)
    requires ActorOf(m).Nobody?
    ensures Apply(cfg, With(s, w, k), m) == With(Apply(cfg, s, m), w, k)
  {
    hide Arrived, LookedUp, Authorized, Conversed, Created, Unidentified, Enqueued, SendCancelled, WithdrawnBy,
      Dequeued, Loaded, Checked, Acted;
  }

  lemma UnseenArriving(s: State, c: nat, req: Request, w: nat, k: Consumer)
    ensures Arrived(With(s, w, k), c, req) == With(Arrived(s, c, req), w, k)
  {
    hide Blank;
    assert With(s, w, k).CallerOf(c) == s.CallerOf(c);
  }

  lemma UnseenLooking(s: State, c: nat, hit: Option<Id>, w: nat, k: Consumer)
    ensures LookedUp(With(s, w, k), c, hit) == With(LookedUp(s, c, hit), w, k)
  {
    hide KeyTaken;
    assert With(s, w, k).CallerOf(c) == s.CallerOf(c);
  }

  lemma UnseenAuthorizing(s: State, c: nat, w: nat, k: Consumer)
    ensures Authorized(With(s, w, k), c) == With(Authorized(s, c), w, k)
  {
    assert With(s, w, k).CallerOf(c) == s.CallerOf(c);
  }

  lemma UnseenConversing(s: State, c: nat, w: nat, k: Consumer)
    ensures Conversed(With(s, w, k), c) == With(Conversed(s, c), w, k)
  {
    hide Title, Joining;
    assert With(s, w, k).CallerOf(c) == s.CallerOf(c);
  }

  lemma UnseenCreating(cfg: Config, s: State, c: nat, w: nat, k: Consumer)
    ensures Created(cfg, With(s, w, k), c) == With(Created(cfg, s, c), w, k)
  {
    hide KeyTaken, NewExecution;
    assert With(s, w, k).CallerOf(c) == s.CallerOf(c);
  }

  lemma UnseenLate(cfg: Config, s: State, m: Move, w: nat, k: Consumer)
    requires m.NoIdentifier? || m.Enqueue? || m.CancelSend? || m.Withdraw?
    ensures Apply(cfg, With(s, w, k), m) == With(Apply(cfg, s, m), w, k)
  {
    if m.NoIdentifier? || m.CancelSend? {
      hide Arrived, LookedUp, Authorized, Conversed, Created, Dequeued, Loaded, Checked, Acted, AgentPut,
        AgentRemoved, RecordRead, StepsRead, Withdrawn, JobOf, Enqueued, WithdrawnBy;
    } else {
      hide Arrived, LookedUp, Authorized, Conversed, Created, Dequeued, Loaded, Checked, Acted, AgentPut,
        AgentRemoved, RecordRead, StepsRead, Withdrawn, JobOf, Unidentified, SendCancelled;
    }
  }

  lemma UnseenByWorkers(cfg: Config, s: State, m: Move, w: nat, k: Consumer)
    requires ActorOf(m).Worker? && m.w != w
    ensures Apply(cfg, With(s, w, k), m) == With(Apply(cfg, s, m), w, k)
  {
    hide Apply, Dequeued, Loaded, Checked, Acted;
    match m
    case Dequeue(v) => DequeueIs(cfg, s, v); DequeueIs(cfg, With(s, w, k), v); UnseenDequeue(s, v, w, k);
    case Load(v) => LoadIs(cfg, s, v); LoadIs(cfg, With(s, w, k), v); UnseenLoad(s, v, w, k);
    case Check(v, run) => CheckIs(cfg, s, v, run); CheckIs(cfg, With(s, w, k), v, run); UnseenCheck(s, v, run, w, k);
    case Act(v) => ActIs(cfg, s, v); ActIs(cfg, With(s, w, k), v); UnseenAct(s, v, w, k);
  }

  lemma Elsewhere(s: State, w: nat, k: Consumer, v: nat, k': Consumer)
    requires v != w
    ensures With(s, w, k).ConsumerOf(v) == s.ConsumerOf(v)
    ensures WithConsumer(With(s, w, k), v, k') == With(WithConsumer(s, v, k'), w, k)
  {
    assert s.consumers[w := k][v := k'] == s.consumers[v := k'][w := k];
  }

  lemma UnseenDequeue(s: State, v: nat, w: nat, k: Consumer)
    requires v != w
    ensures Dequeued(With(s, w, k), v) == With(Dequeued(s, v), w, k)
  {
    if s.queue != [] {
      Elsewhere(s, w, k, v, Loading(s.queue[0]));
    } else {
      Elsewhere(s, w, k, v, Idle);
    }
  }

  lemma UnseenLoad(s: State, v: nat, w: nat, k: Consumer)
    requires v != w
    ensures Loaded(With(s, w, k), v) == With(Loaded(s, v), w, k)
  {
    Elsewhere(s, w, k, v, Idle);
    Elsewhere(s, w, k, v, Loaded(s, v).ConsumerOf(v));
  }

  lemma UnseenCheck(s: State, v: nat, run: Run, w: nat, k: Consumer)
    requires v != w
    ensures Checked(With(s, w, k), v, run) == With(Checked(s, v, run), w, k)
  {
    hide Scripts.ScriptOf;
    Elsewhere(s, w, k, v, Idle);
    Elsewhere(s, w, k, v, Executing(Scripts.ScriptOf(run), 0));
  }

  lemma UnseenAct(s: State, v: nat, w: nat, k: Consumer)
    requires v != w
    ensures Acted(With(s, w, k), v) == With(Acted(s, v), w, k)
  {
    hide Effect;
    Elsewhere(s, w, k, v, Idle);
    Elsewhere(s, w, k, v, Acted(s, v).ConsumerOf(v));
  }
}
