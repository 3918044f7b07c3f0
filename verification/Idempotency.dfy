/**
 * Idempotency keys: at most one execution and one job for a key, exactly when no call creates behind another's back.
 */
module Idempotency {
  import opened Domain
  import opened Effects
  import opened Dispatch
  import opened Text
  import opened DispatchLaws
  import DispatchProofs
  import Scripts
  import S = Store

  /** No two executions of one owner share a key; the empty key stands for none. */
  predicate OnePerKey(st: S.Store) {
    forall e, f :: e in st.executions && f in st.executions && SameKey(st.executions[e], st.executions[f]) ==> e == f
  }

  predicate SameKey(x: Execution, y: Execution) {
    x.ownerId == y.ownerId && x.idempotencyKey == y.idempotencyKey != ""
  }

  /** The execution that a call answered with. */
  function Answer(k: Caller): Option<Id> {
    if !k.Returned? || k.reply.Rejected? then None else Some(k.reply.x.id)
  }

  /** One execution and one job for each key, and every call with the key is answered with that execution. */
  ghost predicate Idempotent(s: State) {
    OnePerKey(s.world.store) && OneJobPerKey(s) && OneAnswerPerKey(s)
  }

  ghost predicate OneJobPerKey(s: State) {
    forall i, j :: 0 <= i < j < |s.sent| ==>
      && s.sent[i] in s.world.store.executions && s.sent[j] in s.world.store.executions
      && !SameKey(s.world.store.executions[s.sent[i]], s.world.store.executions[s.sent[j]])
  }

  ghost predicate OneAnswerPerKey(s: State) {
    forall c: nat, d: nat :: Agree(s.CallerOf(c), s.CallerOf(d))
  }

  predicate Agree(k: Caller, l: Caller) {
    Answer(k).Some? && Answer(l).Some? && k.req.ownerId == l.req.ownerId && k.req.key == l.req.key != "" ==>
      Answer(k) == Answer(l)
  }

  /** A call is about to create an execution for a key that somebody has taken since it looked. */
  predicate Overtaken(s: State, m: Move) {
    m.Create? && s.CallerOf(m.c).Creating? && s.CallerOf(m.c).req.key != ""
    && KeyTaken(s.world.store, s.CallerOf(m.c).req.ownerId, s.CallerOf(m.c).req.key)
  }

  predicate NeverOvertaken(cfg: Config, ms: seq<Move>) {
    forall k :: 0 <= k < |ms| ==> !Overtaken(After(cfg, ms[..k]), ms[k])
  }

  lemma {:induction false} NeverSnoc(cfg: Config, ms: seq<Move>, n: nat)
    requires n + 1 == |ms|
    ensures NeverOvertaken(cfg, ms) <==> NeverOvertaken(cfg, ms[..n]) && !Overtaken(After(cfg, ms[..n]), ms[n])
  {
    hide Overtaken, After;
    assert forall k :: 0 <= k < n ==> ms[..n][..k] == ms[..k] && ms[..n][k] == ms[k];
  }

  // ---------- What a call is answered with ----------

  predicate AnswerOk(s: State, c: nat) {
    var k := s.CallerOf(c);
    Answer(k).Some? ==>
      && Answer(k).value in s.world.store.executions
      && S.HasKey(s.world.store.executions[Answer(k).value], k.req.ownerId, k.req.key)
  }

  lemma StepAnswer(cfg: Config, s: State, m: Move, c: nat)
    requires Sound(s) && AnswerOk(s, c)
    ensures AnswerOk(Apply(cfg, s, m), c)
  {
    var k, t := s.CallerOf(c), Apply(cfg, s, m);
    if t.CallerOf(c) == k {
      hide Apply, Sound;
      if Answer(k).Some? {
        EachMoveAdvances(cfg, s, m, Answer(k).value);
      }
    } else {
      NewAnswer(cfg, s, m, c);
    }
  }

  lemma NewAnswer(cfg: Config, s: State, m: Move, c: nat)
    requires Sound(s) && Apply(cfg, s, m).CallerOf(c) != s.CallerOf(c)
    ensures AnswerOk(Apply(cfg, s, m), c)
  {
    hide Sound, Apply;
    if m.Lookup? {
      AnswerFound(cfg, s, m, c);
    } else if m.Enqueue? || m.Withdraw? {
      AnswerHeld(cfg, s, m, c);
    } else if Asking(m) {
      NoAnswerYet(cfg, s, m, c);
    } else {
      OthersSpareCallers(cfg, s, m);
    }
  }

  predicate Asking(m: Move) {
    m.Arrive? || m.Authorize? || m.Converse? || m.Create? || m.NoIdentifier? || m.CancelSend?
  }

  lemma AnswerFound(cfg: Config, s: State, m: Move, c: nat)
    requires Sound(s) && Apply(cfg, s, m).CallerOf(c) != s.CallerOf(c) && m.Lookup?
    ensures AnswerOk(Apply(cfg, s, m), c)
  {
    hide Arrived, Authorized, Conversed, Created, Unidentified, Enqueued, SendCancelled, WithdrawnBy, Dequeued, Loaded,
      Checked, Acted, AgentPut, AgentRemoved, RecordRead, StepsRead, KeyTaken, HistoryOk, PlaceOk;
    if m.hit.Some? {
      assert ExecutionOk(s, m.hit.value);
    }
  }

  lemma AnswerHeld(cfg: Config, s: State, m: Move, c: nat)
    requires Sound(s) && Apply(cfg, s, m).CallerOf(c) != s.CallerOf(c) && (m.Enqueue? || m.Withdraw?)
    ensures AnswerOk(Apply(cfg, s, m), c)
  {
    hide Arrived, LookedUp, Authorized, Conversed, Created, Unidentified, SendCancelled, Dequeued, Loaded, Checked,
      Acted,
      AgentPut, AgentRemoved, RecordRead, StepsRead, HistoryOk, ExecutionOk;
    assert CallerOk(s, c);
  }

  lemma NoAnswerYet(cfg: Config, s: State, m: Move, c: nat)
    requires Apply(cfg, s, m).CallerOf(c) != s.CallerOf(c) && Asking(m)
    ensures Answer(Apply(cfg, s, m).CallerOf(c)).None?
  {
    hide LookedUp, Enqueued, WithdrawnBy, Dequeued, Loaded, Checked, Acted, AgentPut, AgentRemoved, RecordRead,
      StepsRead,
      KeyTaken, NewExecution, Blank;
  }

  lemma OthersSpareCallers(cfg: Config, s: State, m: Move)
    requires !Asking(m) && !m.Lookup? && !m.Enqueue? && !m.Withdraw?
    ensures Apply(cfg, s, m) == Apply(cfg, s, m).(callers := s.callers)
  {
    hide Arrived, LookedUp, Authorized, Conversed, Created, Unidentified, Enqueued, SendCancelled, WithdrawnBy,
      JobOf, Scripts.ScriptOf;
    hide Effect;
  }

  lemma {:induction false} AnswersAlwaysOk(cfg: Config, ms: seq<Move>, c: nat)
    requires Behaviour(cfg, ms)
    ensures AnswerOk(After(cfg, ms), c)
  {
    hide Sound, Apply, Allowed;
    if ms != [] {
      AnswersAlwaysOk(cfg, ms[..|ms| - 1], c);
      DispatchProofs.AlwaysSound(cfg, ms[..|ms| - 1]);
      StepAnswer(cfg, After(cfg, ms[..|ms| - 1]), ms[|ms| - 1], c);
    }
  }

  // ---------- When keys stay unique ----------

  /** A move keeps keys unique unless it creates for a taken key; once broken, uniqueness stays broken. */
  lemma StepKeys(cfg: Config, s: State, m: Move)
    requires Sound(s)
    ensures OnePerKey(Apply(cfg, s, m).world.store) <==>
            OnePerKey(s.world.store) && (cfg.unique || !Overtaken(s, m))
  {
    hide Sound, Apply;
    var t := Apply(cfg, s, m);
    forall e | e in s.world.store.executions
      ensures e in t.world.store.executions && SameIdentity(s.world.store.executions[e], t.world.store.executions[e])
    {
      EachMoveAdvances(cfg, s, m, e);
    }
    if Creates(cfg, s, m) {
      FreshId(s);
      CreateKeys(cfg, s, m.c);
    } else {
      NothingNew(cfg, s, m);
      OldKeys(s.world.store, t.world.store);
    }
  }

  lemma FreshId(s: State)
    requires Sound(s)
    ensures s.nextId !in s.world.store.executions
  {
    assert IdsOk(s);
  }

  predicate Creates(cfg: Config, s: State, m: Move) {
    m.Create? && s.CallerOf(m.c).Creating? && !(cfg.unique && Overtaken(s, m))
  }

  lemma NothingNew(cfg: Config, s: State, m: Move)
    requires Sound(s) && !Creates(cfg, s, m)
    ensures Apply(cfg, s, m).world.store.executions.Keys == s.world.store.executions.Keys
    ensures cfg.unique || !Overtaken(s, m)
  {
    hide Apply, Sound, KeyTaken, Title, Joining;
    if Quiet(m) {
      QuietMoves(cfg, s, m);
    } else if Handling(m) {
      HandlingMoves(cfg, s, m);
    } else if m.Withdraw? {
      WithdrawCreatesNothing(cfg, s, m.c, m.at);
    } else if m.Act? {
      ActIs(cfg, s, m.w);
      ActCreatesNothing(s, m.w);
    } else if m.Converse? {
      ConverseIs(cfg, s, m.c);
    } else {
      CreateIs(cfg, s, m.c);
    }
  }

  lemma WithdrawCreatesNothing(cfg: Config, s: State, c: nat, at: Time)
    requires Sound(s)
    ensures Apply(cfg, s, Withdraw(c, at)).world.store.executions.Keys == s.world.store.executions.Keys
  {
    hide Apply, HistoryOk, IdsOk, ExecutionOk;
    WithdrawIs(cfg, s, c, at);
    assert CallerOk(s, c);
  }

  lemma ActCreatesNothing(s: State, w: nat)
    requires Sound(s)
    ensures Acted(s, w).world.store.executions.Keys == s.world.store.executions.Keys
  {
    assert ConsumerOk(s, w);
    var k := s.ConsumerOf(w);
    if Acted(s, w) != s {
      assert ExecutionOk(s, k.script.start.id);
      Scripts.ActAdds(s.world, k.script, k.done, k.script.start.conversationId);
    }
  }

  lemma OldKeys(s: S.Store, t: S.Store)
    requires s.executions.Keys == t.executions.Keys
    requires forall e :: e in s.executions ==> e in t.executions && SameIdentity(s.executions[e], t.executions[e])
    ensures OnePerKey(s) <==> OnePerKey(t)
  {
    if OnePerKey(s) {
      forall e, f | e in t.executions && f in t.executions && SameKey(t.executions[e], t.executions[f]) ensures e == f {
        assert SameKey(s.executions[e], s.executions[f]);
      }
    }
    if OnePerKey(t) {
      forall e, f | e in s.executions && f in s.executions && SameKey(s.executions[e], s.executions[f]) ensures e == f {
        assert SameKey(t.executions[e], t.executions[f]);
      }
    }
  }

  lemma CreateKeys(cfg: Config, s: State, c: nat)
    requires s.nextId !in s.world.store.executions && Creates(cfg, s, Create(c))
    ensures OnePerKey(Apply(cfg, s, Create(c)).world.store) <==> OnePerKey(s.world.store) && !Overtaken(s, Create(c))
  {
    var k, t := s.CallerOf(c), Created(cfg, s, c);
    var x := NewExecution(s.nextId, k.req, k.model, k.conversation);
    assert t.world.store == S.PutExecution(s.world.store, x);
    AddedKey(s.world.store, x);
  }

  lemma AddedKey(st: S.Store, x: Execution)
    requires x.id !in st.executions
    ensures OnePerKey(S.PutExecution(st, x)) <==>
            OnePerKey(st) && (x.idempotencyKey == "" || !KeyTaken(st, x.ownerId, x.idempotencyKey))
  {
    var t := S.PutExecution(st, x);
    assert t.executions[x.id] == x;
    if OnePerKey(t) {
      forall e, f | e in st.executions && f in st.executions && SameKey(st.executions[e], st.executions[f])
        ensures e == f
      {
        assert SameKey(t.executions[e], t.executions[f]);
      }
      if x.idempotencyKey != "" && KeyTaken(st, x.ownerId, x.idempotencyKey) {
        var e :| e in st.executions && S.HasKey(st.executions[e], x.ownerId, x.idempotencyKey);
        assert SameKey(t.executions[e], t.executions[x.id]);
      }
    }
    if OnePerKey(st) && (x.idempotencyKey == "" || !KeyTaken(st, x.ownerId, x.idempotencyKey)) {
      assert forall e :: e in st.executions && x.idempotencyKey != "" ==>
               !S.HasKey(st.executions[e], x.ownerId, x.idempotencyKey);
      forall e, f | e in t.executions && f in t.executions && SameKey(t.executions[e], t.executions[f]) ensures e == f {
        if e in st.executions && f in st.executions {
          assert SameKey(st.executions[e], st.executions[f]);
        }
      }
    }
  }

  lemma {:induction false} UniqueIffNeverOvertaken(cfg: Config, ms: seq<Move>)
    requires Behaviour(cfg, ms)
    ensures OnePerKey(After(cfg, ms).world.store) <==>
            cfg.unique || NeverOvertaken(cfg, ms)
  {
    hide Sound, Apply, Allowed, Overtaken, OnePerKey, NeverOvertaken;
    if ms != [] {
      var n := |ms| - 1;
      UniqueIffNeverOvertaken(cfg, ms[..n]);
      DispatchProofs.AlwaysSound(cfg, ms[..n]);
      StepKeys(cfg, After(cfg, ms[..n]), ms[n]);
      NeverSnoc(cfg, ms, n);
    } else {
      NoKeys(cfg);
    }
  }

  lemma NoKeys(cfg: Config)
    ensures OnePerKey(START.world.store) && NeverOvertaken(cfg, [])
  {
  }

  /**
   * Idempotency in every reachable state: it holds exactly when the store enforces unique keys or no call so far has
   * created an execution for a key taken since it looked the key up.
   */
  lemma {:induction false} IdempotentIff(cfg: Config, ms: seq<Move>)
    requires Behaviour(cfg, ms)
    ensures Idempotent(After(cfg, ms)) <==>
            cfg.unique || NeverOvertaken(cfg, ms)
  {
    hide Behaviour, After, Apply, Sound, NeverOvertaken, OnePerKey, AnswerOk;
    UniqueIffNeverOvertaken(cfg, ms);
    var s := After(cfg, ms);
    DispatchProofs.AlwaysSound(cfg, ms);
    forall c: nat ensures AnswerOk(s, c) { AnswersAlwaysOk(cfg, ms, c); }
    UniqueIsIdempotent(s);
  }

  lemma UniqueIsIdempotent(s: State)
    requires Sound(s) && forall c: nat :: AnswerOk(s, c)
    ensures Idempotent(s) <==> OnePerKey(s.world.store)
  {
    hide Sound, OnePerKey, OneJobPerKey, AnswerOk;
    if OnePerKey(s.world.store) {
      JobsUnique(s);
      forall c: nat, d: nat ensures Agree(s.CallerOf(c), s.CallerOf(d)) {
        assert AnswerOk(s, c) && AnswerOk(s, d);
        AnswersAgree(s, c, d);
      }
    }
  }

  lemma AnswersAgree(s: State, c: nat, d: nat)
    requires OnePerKey(s.world.store) && AnswerOk(s, c) && AnswerOk(s, d)
    ensures Agree(s.CallerOf(c), s.CallerOf(d))
  {
    var k, l, xs := s.CallerOf(c), s.CallerOf(d), s.world.store.executions;
    if Answer(k).Some? && Answer(l).Some? && k.req.ownerId == l.req.ownerId && k.req.key == l.req.key != "" {
      assert SameKey(xs[Answer(k).value], xs[Answer(l).value]);
    }
  }

  lemma JobsUnique(s: State)
    requires Sound(s) && OnePerKey(s.world.store)
    ensures OneJobPerKey(s)
  {
    assert HistoryOk(s);
    forall i, j | 0 <= i < j < |s.sent|
      ensures s.sent[i] in s.world.store.executions && s.sent[j] in s.world.store.executions
              && !SameKey(s.world.store.executions[s.sent[i]], s.world.store.executions[s.sent[j]])
    {
      assert s.sent[i] in s.sent && s.sent[j] in s.sent;
    }
  }

  // ---------- Calls that do not overlap ----------

  /** The call has looked for its key in vain and has not created its execution yet. */
  predicate Between(k: Caller, owner: string, key: string) {
    (k.Authorizing? || k.Conversing? || k.Creating?) && k.req.ownerId == owner && k.req.key == key != ""
  }

  /** At most one call for each key is between its lookup and its creation. */
  ghost predicate Apart(s: State) {
    forall c: nat, d: nat, owner, key :: Between(s.CallerOf(c), owner, key) && Between(s.CallerOf(d), owner, key) ==>
      c == d
  }

  /** While a call is between lookup and creation, nobody has its key. */
  ghost predicate StillFree(s: State) {
    forall c: nat, owner, key :: Between(s.CallerOf(c), owner, key) ==> !KeyTaken(s.world.store, owner, key)
  }

  lemma StepFree(cfg: Config, s: State, m: Move)
    requires Sound(s) && Apart(s) && StillFree(s)
    ensures StillFree(Apply(cfg, s, m))
  {
    hide Sound, Apply, KeyTaken;
    var t := Apply(cfg, s, m);
    forall c: nat, owner, key | Between(t.CallerOf(c), owner, key) ensures !KeyTaken(t.world.store, owner, key) {
      StaysBetween(cfg, s, m, c, owner, key);
      if Creates(cfg, s, m) {
        CreatorIsAnother(s, m.c, c, owner, key);
      }
      StaysFree(cfg, s, m, owner, key);
    }
  }

  lemma StaysBetween(cfg: Config, s: State, m: Move, c: nat, owner: string, key: string)
    requires Between(Apply(cfg, s, m).CallerOf(c), owner, key)
    ensures Between(s.CallerOf(c), owner, key) || !KeyTaken(s.world.store, owner, key)
    ensures m.Create? && s.CallerOf(m.c).Creating? ==> m.c != c && Between(s.CallerOf(c), owner, key)
  {
    hide Apply, KeyTaken;
    if m.Arrive? || m.Lookup? || m.Authorize? || m.Converse? {
      ComesBetween(cfg, s, m, c, owner, key);
    } else if Asking(m) || m.Enqueue? || m.Withdraw? {
      WasBetween(cfg, s, m, c, owner, key);
    } else {
      OthersSpareCallers(cfg, s, m);
    }
  }

  lemma ComesBetween(cfg: Config, s: State, m: Move, c: nat, owner: string, key: string)
    requires Between(Apply(cfg, s, m).CallerOf(c), owner, key)
    requires (m.Arrive? || m.Lookup? || m.Authorize? || m.Converse?)
    ensures Between(s.CallerOf(c), owner, key) || !KeyTaken(s.world.store, owner, key)
  {
    hide *;
    match m {
      case Arrive(d, req) =>
        ArriveIs(cfg, s, d, req);
        ArriveBetween(s, d, req, c, owner, key);
      case Lookup(d, hit) =>
        LookupIs(cfg, s, d, hit);
        LookupBetween(s, d, hit, c, owner, key);
      case Authorize(d) =>
        AuthorizeIs(cfg, s, d);
        AuthorizeBetween(s, d, c, owner, key);
      case Converse(d) =>
        ConverseIs(cfg, s, d);
        ConverseBetween(s, d, c, owner, key);
    }
  }

  lemma ArriveBetween(s: State, d: nat, req: Request, c: nat, owner: string, key: string)
    requires Between(Arrived(s, d, req).CallerOf(c), owner, key)
    ensures Between(s.CallerOf(c), owner, key)
  {
    hide Blank;
  }

  lemma LookupBetween(s: State, d: nat, hit: Option<Id>, c: nat, owner: string, key: string)
    requires Between(LookedUp(s, d, hit).CallerOf(c), owner, key)
    ensures Between(s.CallerOf(c), owner, key) || !KeyTaken(s.world.store, owner, key)
  {
    hide KeyTaken;
  }

  lemma AuthorizeBetween(s: State, d: nat, c: nat, owner: string, key: string)
    requires Between(Authorized(s, d).CallerOf(c), owner, key)
    ensures Between(s.CallerOf(c), owner, key)
  {
  }

  lemma ConverseBetween(s: State, d: nat, c: nat, owner: string, key: string)
    requires Between(Conversed(s, d).CallerOf(c), owner, key)
    ensures Between(s.CallerOf(c), owner, key)
  {
    hide Title;
  }

  lemma WasBetween(cfg: Config, s: State, m: Move, c: nat, owner: string, key: string)
    requires Between(Apply(cfg, s, m).CallerOf(c), owner, key)
    requires m.Create? || m.NoIdentifier? || m.CancelSend? || m.Enqueue? || m.Withdraw?
    ensures Between(s.CallerOf(c), owner, key)
    ensures m.Create? && s.CallerOf(m.c).Creating? ==> m.c != c
  {
    hide Arrived, LookedUp, Authorized, Conversed, Dequeued, Loaded, Checked, Acted, AgentPut, AgentRemoved, RecordRead,
      StepsRead, KeyTaken, NewExecution, Withdrawn;
  }

  lemma CreatorIsAnother(s: State, d: nat, c: nat, owner: string, key: string)
    requires Apart(s) && d != c && Between(s.CallerOf(c), owner, key)
    ensures !Between(s.CallerOf(d), owner, key)
  {
  }

  lemma StaysFree(cfg: Config, s: State, m: Move, owner: string, key: string)
    requires Sound(s) && !KeyTaken(s.world.store, owner, key) && key != ""
    requires Creates(cfg, s, m) ==> !Between(s.CallerOf(m.c), owner, key)
    ensures !KeyTaken(Apply(cfg, s, m).world.store, owner, key)
  {
    hide Sound, Apply;
    var t := Apply(cfg, s, m);
    forall e | e in t.world.store.executions ensures !S.HasKey(t.world.store.executions[e], owner, key) {
      if e in s.world.store.executions {
        EachMoveAdvances(cfg, s, m, e);
      } else {
        OnlyCreated(cfg, s, m, e);
      }
    }
  }

  lemma OnlyCreated(cfg: Config, s: State, m: Move, e: Id)
    requires Sound(s) && e !in s.world.store.executions && e in Apply(cfg, s, m).world.store.executions
    ensures Creates(cfg, s, m)
    ensures var k := s.CallerOf(m.c);
            Apply(cfg, s, m).world.store.executions[e] == NewExecution(s.nextId, k.req, k.model, k.conversation)
  {
    if !Creates(cfg, s, m) {
      hide Apply, Sound;
      NothingNew(cfg, s, m);
      assert false;
    }
  }

  lemma {:induction false} ApartStaysFree(cfg: Config, ms: seq<Move>)
    requires Behaviour(cfg, ms) && forall k :: 0 <= k <= |ms| ==> Apart(After(cfg, ms[..k]))
    ensures StillFree(After(cfg, ms))
  {
    hide Sound, Apply, Allowed, Apart, StillFree;
    if ms != [] {
      var n := |ms| - 1;
      assert forall k :: 0 <= k <= n ==> ms[..n][..k] == ms[..k];
      ApartStaysFree(cfg, ms[..n]);
      DispatchProofs.AlwaysSound(cfg, ms[..n]);
      StepFree(cfg, After(cfg, ms[..n]), ms[n]);
    } else {
      NobodyBetween();
    }
  }

  lemma NobodyBetween()
    ensures StillFree(START)
  {
  }

  /** With Memory, too, calls are idempotent as long as no two calls for a key overlap between lookup and creation. */
  lemma {:induction false} ApartCallsAreIdempotent(cfg: Config, ms: seq<Move>)
    requires Behaviour(cfg, ms) && forall k :: 0 <= k <= |ms| ==> Apart(After(cfg, ms[..k]))
    ensures Idempotent(After(cfg, ms))
  {
    hide Behaviour, After, Apply, Sound, Idempotent, Apart;
    forall k | 0 <= k < |ms| ensures !Overtaken(After(cfg, ms[..k]), ms[k]) {
      BehaviourPrefix(cfg, ms, k);
      assert forall j :: 0 <= j <= k ==> ms[..k][..j] == ms[..j];
      ApartStaysFree(cfg, ms[..k]);
      FreeIsNotOvertaken(After(cfg, ms[..k]), ms[k]);
    }
    IdempotentIff(cfg, ms);
  }

  lemma FreeIsNotOvertaken(s: State, m: Move)
    requires StillFree(s)
    ensures !Overtaken(s, m)
  {
    hide KeyTaken;
    if m.Create? && s.CallerOf(m.c).Creating? && s.CallerOf(m.c).req.key != "" {
      assert Between(s.CallerOf(m.c), s.CallerOf(m.c).req.ownerId, s.CallerOf(m.c).req.key);
    }
  }

  // ---------- Retries ----------

  lemma TakenStaysTaken(cfg: Config, before: seq<Move>, after: seq<Move>, owner: string, key: string)
    requires Behaviour(cfg, after) && before <= after
    ensures KeyTaken(After(cfg, before).world.store, owner, key) ==> KeyTaken(After(cfg, after).world.store, owner, key)
  {
    hide Behaviour, After;
    var s, t := After(cfg, before).world.store, After(cfg, after).world.store;
    assert after[..|before|] == before;
    if KeyTaken(s, owner, key) {
      var e :| e in s.executions && S.HasKey(s.executions[e], owner, key);
      StatusOnlyAdvances(cfg, after, |before|, e);
      assert S.HasKey(t.executions[e], owner, key);
    }
  }

  // ---------- Two calls that do overlap ----------

  const TWICE := Request("alice", 0, "hello", None, "key", "request")

  const HELPER := Agent(0, "alice", "helper", "", "", "model", 0.0, 1, [], 1)

  /** Both calls look the key up before either of them creates. */
  const OVERLAP: seq<Move> := [PutAgent(HELPER),
    Arrive(0, TWICE), Lookup(0, None), Authorize(0), Converse(0),
    Arrive(1, TWICE), Lookup(1, None), Authorize(1), Converse(1),
    Create(0), Create(1), Enqueue(0), Enqueue(1)]

  /** After call c has looked up its key in vain and got a conversation. */
  function AboutToCreate(s: State, c: nat): State {
    s.(callers := s.callers[c := Creating(TWICE, "model", s.nextId)],
       world := s.world.(
         store := S.PutConversation(s.world.store, Conversation(s.nextId, "alice", 0, Title(TWICE.input)))),
       nextId := s.nextId + 1)
  }

  lemma LooksInVain(cfg: Config, s: State, c: nat)
    requires s.CallerOf(c).Absent? && !KeyTaken(s.world.store, "alice", "key")
    ensures Apply(cfg, Apply(cfg, s, Arrive(c, TWICE)), Lookup(c, None)) == WithCaller(s, c, Authorizing(TWICE))
  {
    hide KeyTaken;
    assert !IsSpace(TWICE.input[0]);
    var s1 := WithCaller(s, c, Looking(TWICE));
    assert Arrived(s, c, TWICE) == s1;
    assert s1.callers[c := Authorizing(TWICE)] == s.callers[c := Authorizing(TWICE)];
  }

  lemma Converses(cfg: Config, s: State, c: nat)
    requires s.CallerOf(c) == Authorizing(TWICE) && 0 in s.world.store.agents && s.world.store.agents[0] == HELPER
    ensures Apply(cfg, Apply(cfg, s, Authorize(c)), Converse(c)) == AboutToCreate(s, c)
  {
    hide Title;
    var s1 := WithCaller(s, c, Conversing(TWICE, "model"));
    assert Authorized(s, c) == s1;
    assert s1.callers[c := Creating(TWICE, "model", s.nextId)] == s.callers[c := Creating(TWICE, "model", s.nextId)];
  }

  lemma LooksAndConverses(cfg: Config, s: State, c: nat)
    requires s.CallerOf(c).Absent? && 0 in s.world.store.agents && s.world.store.agents[0] == HELPER
    requires !KeyTaken(s.world.store, "alice", "key")
    ensures Apply(cfg, Apply(cfg, Apply(cfg, Apply(cfg, s, Arrive(c, TWICE)), Lookup(c, None)), Authorize(c)),
            Converse(c))
            == AboutToCreate(s, c)
  {
    hide Apply, KeyTaken;
    LooksInVain(cfg, s, c);
    Converses(cfg, WithCaller(s, c, Authorizing(TWICE)), c);
    var k := Creating(TWICE, "model", s.nextId);
    assert s.callers[c := Authorizing(TWICE)][c := k] == s.callers[c := k];
  }

  lemma {:induction false} FourMore(cfg: Config, ms: seq<Move>, k: nat)
    requires k + 4 <= |ms|
    ensures After(cfg, ms[..k + 4]) ==
            Apply(cfg, Apply(cfg, Apply(cfg, Apply(cfg, After(cfg, ms[..k]), ms[k]), ms[k + 1]), ms[k + 2]), ms[k + 3])
  {
    hide Apply, After;
    OneMore(cfg, ms, k);
    OneMore(cfg, ms, k + 1);
    OneMore(cfg, ms, k + 2);
    OneMore(cfg, ms, k + 3);
  }

  lemma FirstMoves(cfg: Config)
    ensures After(cfg, OVERLAP[..9]) == AboutToCreate(AboutToCreate(AgentPut(START, HELPER), 0), 1)
  {
    hide Apply, After;
    AgentFirst(cfg);
    OneMore(cfg, OVERLAP, 0);
    FourMore(cfg, OVERLAP, 1);
    LooksAndConverses(cfg, AgentPut(START, HELPER), 0);
    FourMore(cfg, OVERLAP, 5);
    LooksAndConverses(cfg, AboutToCreate(AgentPut(START, HELPER), 0), 1);
  }

  lemma AgentFirst(cfg: Config)
    ensures After(cfg, OVERLAP[..0]) == START && Apply(cfg, START, OVERLAP[0]) == AgentPut(START, HELPER)
  {
  }

  lemma {:induction false} NoRuns(cfg: Config, n: nat)
    requires n <= |OVERLAP|
    ensures Behaviour(cfg, OVERLAP[..n])
  {
    hide Apply, After;
    if n > 0 {
      NoRuns(cfg, n - 1);
      assert OVERLAP[..n][..n - 1] == OVERLAP[..n - 1];
    }
  }

  /** With Memory the overlap leaves two executions and two jobs for one key; a unique key refuses the second call. */
  lemma OverlapDuplicates(cfg: Config)
    requires cfg.capacity >= 2
    ensures Behaviour(cfg, OVERLAP)
    ensures var s := After(cfg, OVERLAP);
            if cfg.unique then s.sent == [2] && s.CallerOf(1) == Returned(TWICE, Rejected(Conflict))
            else s.sent == [2, 3] && !Idempotent(s)
  {
    hide Apply, After;
    FirstMoves(cfg);
    NoRuns(cfg, |OVERLAP|);
    FourMore(cfg, OVERLAP, 9);
    assert OVERLAP[..|OVERLAP|] == OVERLAP;
    LastMoves(cfg, AboutToCreate(AboutToCreate(AgentPut(START, HELPER), 0), 1));
  }

  /** The two creations, and the two executions or the one refusal that they come to. */
  lemma BothCreate(cfg: Config, s: State)
    requires s == AboutToCreate(AboutToCreate(AgentPut(START, HELPER), 0), 1)
    ensures var t := Apply(cfg, Apply(cfg, s, Create(0)), Create(1));
            var x, y := NewExecution(2, TWICE, "model", 0), NewExecution(3, TWICE, "model", 1);
            && t.queue == [] && t.sent == [] && t.CallerOf(0) == Sending(TWICE, x)
            && if cfg.unique then t.CallerOf(1) == Returned(TWICE, Rejected(Conflict))
               else t.CallerOf(1) == Sending(TWICE, y) && t.world.store.executions == map[2 := x, 3 := y]
  {
    hide Apply;
    CreateIs(cfg, s, 0);
    CreateIs(cfg, Created(cfg, s, 0), 1);
    assert Created(cfg, s, 0).world.store.executions == map[2 := NewExecution(2, TWICE, "model", 0)];
    assert S.HasKey(Created(cfg, s, 0).world.store.executions[2], "alice", "key");
  }

  lemma LastMoves(cfg: Config, s: State)
    requires s == AboutToCreate(AboutToCreate(AgentPut(START, HELPER), 0), 1) && cfg.capacity >= 2
    ensures var t := Apply(cfg, Apply(cfg, Apply(cfg, Apply(cfg, s, Create(0)), Create(1)), Enqueue(0)), Enqueue(1));
            if cfg.unique then t.sent == [2] && t.CallerOf(1) == Returned(TWICE, Rejected(Conflict))
            else t.sent == [2, 3] && !Idempotent(t)
  {
    hide Apply, AboutToCreate, NewExecution;
    BothCreate(cfg, s);
    BothEnqueue(cfg, Apply(cfg, Apply(cfg, s, Create(0)), Create(1)));
  }

  lemma BothEnqueue(cfg: Config, s: State)
    requires cfg.capacity >= 2 && s.queue == [] && s.sent == []
    requires s.CallerOf(0) == Sending(TWICE, NewExecution(2, TWICE, "model", 0))
    requires if cfg.unique then s.CallerOf(1) == Returned(TWICE, Rejected(Conflict))
             else s.CallerOf(1) == Sending(TWICE, NewExecution(3, TWICE, "model", 1))
                  && s.world.store.executions ==
                     map[2 := NewExecution(2, TWICE, "model", 0), 3 := NewExecution(3, TWICE, "model", 1)]
    ensures var t := Apply(cfg, Apply(cfg, s, Enqueue(0)), Enqueue(1));
            if cfg.unique then t.sent == [2] && t.CallerOf(1) == Returned(TWICE, Rejected(Conflict))
            else t.sent == [2, 3] && !Idempotent(t)
  {
    hide Apply;
    EnqueueIs(cfg, s, 0);
    EnqueueIs(cfg, Enqueued(cfg, s, 0), 1);
    var t := Enqueued(cfg, Enqueued(cfg, s, 0), 1);
    if !cfg.unique {
      assert SameKey(t.world.store.executions[2], t.world.store.executions[3]);
    }
  }
}
