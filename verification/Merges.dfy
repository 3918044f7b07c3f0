/** The stored conversation, among any number of concurrent runs on it: a merge of what the runs said. */
module Merges {
  import opened Domain
  import opened Runs
  import opened Effects
  import opened Scripts
  import opened Dispatch
  import opened DispatchLaws
  import DispatchProofs

  /** Of messages ms, with authors who, those of execution e, in order. */
  function By(ms: seq<Message>, who: seq<Id>, e: Id): seq<Message>
    requires |who| == |ms|
  {
    if ms == [] then [] else
    var n := |ms| - 1;
    By(ms[..n], who[..n], e) + if who[n] == e then [ms[n]] else []
  }

  /** What the run of e has said so far. */
  ghost function Said(s: State, e: Id): seq<Message> {
    if e !in s.place then [] else
    match s.place[e]
    case AtWorker(w) => SaidBy(s.ConsumerOf(w))
    case Settled(p) => MessagesIn(p.log)
    case _ => []
  }

  function SaidBy(k: Consumer): seq<Message> {
    if k.Executing? && k.done <= |k.script.log| then MessagesIn(k.script.log[..k.done]) else []
  }

  predicate AuthorFits(s: State, e: Id, c: Id) {
    e in s.world.store.executions && s.world.store.executions[e].conversationId == c
  }

  ghost predicate MergeOk(s: State, c: Id) {
    && |s.AuthorsOf(c)| == |s.world.store.MessagesOf(c)|
    && (forall i :: 0 <= i < |s.AuthorsOf(c)| ==> AuthorFits(s, s.AuthorsOf(c)[i], c))
    && (forall e :: AuthorFits(s, e, c) ==> By(s.world.store.MessagesOf(c), s.AuthorsOf(c), e) == Said(s, e))
  }

  lemma {:induction false} BySnoc(ms: seq<Message>, who: seq<Id>, m: Message, w: Id, e: Id)
    requires |who| == |ms|
    ensures By(ms + [m], who + [w], e) == By(ms, who, e) + if w == e then [m] else []
  {
    assert (ms + [m])[..|ms|] == ms && (who + [w])[..|ms|] == who;
  }

  lemma {:induction false} ByStranger(ms: seq<Message>, who: seq<Id>, e: Id)
    requires |who| == |ms| && e !in who
    ensures By(ms, who, e) == []
  {
    if ms != [] {
      ByStranger(ms[..|ms| - 1], who[..|ms| - 1], e);
    }
  }

  // ---------- Moves that say nothing ----------

  lemma SaidFrame(cfg: Config, s: State, m: Move, e: Id)
    requires Sound(s) && !m.Act? && e in s.world.store.executions
    ensures Said(Apply(cfg, s, m), e) == Said(s, e)
  {
    hide Sound, ExecutionOk, MessagesIn, Arrived, LookedUp, Authorized, Unidentified, SendCancelled, AgentPut,
      AgentRemoved, RecordRead, StepsRead;
    if Quiet(m) {
      QuietMoves(cfg, s, m);
    } else if m.Converse? || m.Create? || m.Enqueue? || m.Withdraw? {
      CallersSayNothing(cfg, s, m, e);
    } else {
      ConsumersSayNothing(cfg, s, m, e);
    }
  }

  lemma CallersSayNothing(cfg: Config, s: State, m: Move, e: Id)
    requires Sound(s) && e in s.world.store.executions && (m.Converse? || m.Create? || m.Enqueue? || m.Withdraw?)
    ensures Said(Apply(cfg, s, m), e) == Said(s, e)
  {
    hide Apply, Sound, Said, Conversed, Created, Enqueued, WithdrawnBy;
    CallerMovesPlace(s, m.c, e);
    match m {
      case Converse(c) => ConverseIs(cfg, s, c); ConverseSaysNothing(s, c, e);
      case Create(c) => CreateIs(cfg, s, c); CreateSaysNothing(cfg, s, c, e);
      case Enqueue(c) => EnqueueIs(cfg, s, c); EnqueueSaysNothing(cfg, s, c, e);
      case Withdraw(c, at) => WithdrawIs(cfg, s, c, at); WithdrawSaysNothing(s, c, at, e);
    }
  }

  /** What a caller holds has said nothing, and is not new. */
  lemma CallerMovesPlace(s: State, c: nat, e: Id)
    requires Sound(s) && e in s.world.store.executions
    ensures e in s.place && e < s.nextId
    ensures (s.CallerOf(c).Sending? || s.CallerOf(c).Withdrawing?) && s.CallerOf(c).x.id == e ==> s.place[e].AtCaller?
  {
    hide PlaceOk, HistoryOk, IdsOk, ConversationFits;
    assert CallerOk(s, c) && ExecutionOk(s, e);
  }

  lemma ConverseSaysNothing(s: State, c: nat, e: Id)
    ensures Said(Conversed(s, c), e) == Said(s, e)
  {
    hide MessagesIn, Joining;
  }

  lemma CreateSaysNothing(cfg: Config, s: State, c: nat, e: Id)
    requires e in s.place && e < s.nextId
    ensures Said(Created(cfg, s, c), e) == Said(s, e)
  {
    hide MessagesIn, KeyTaken;
  }

  lemma EnqueueSaysNothing(cfg: Config, s: State, c: nat, e: Id)
    requires e in s.place && (s.CallerOf(c).Sending? && s.CallerOf(c).x.id == e ==> s.place[e].AtCaller?)
    ensures Said(Enqueued(cfg, s, c), e) == Said(s, e)
  {
    hide MessagesIn;
  }

  lemma WithdrawSaysNothing(s: State, c: nat, at: Time, e: Id)
    requires e in s.place && (s.CallerOf(c).Withdrawing? && s.CallerOf(c).x.id == e ==> s.place[e].AtCaller?)
    ensures Said(WithdrawnBy(s, c, at), e) == Said(s, e)
  {
    hide MessagesIn;
  }

  lemma ConsumersSayNothing(cfg: Config, s: State, m: Move, e: Id)
    requires Sound(s) && e in s.world.store.executions && (m.Dequeue? || m.Load? || m.Check?)
    ensures Said(Apply(cfg, s, m), e) == Said(s, e)
  {
    hide Apply, Sound, Said, Dequeued, Loaded, Checked;
    ConsumerMovesPlace(s, m.w, e);
    match m {
      case Dequeue(w) => DequeueIs(cfg, s, w); DequeueSaysNothing(s, w, e);
      case Load(w) => LoadIs(cfg, s, w); LoadSaysNothing(s, w, e);
      case Check(w, run) => CheckIs(cfg, s, w, run); CheckSaysNothing(s, w, run, e);
    }
  }

  /** What is about to be taken is queued, and a consumer that has not begun holds its execution. */
  lemma ConsumerMovesPlace(s: State, w: nat, e: Id)
    requires Sound(s) && e in s.world.store.executions
    ensures e in s.place
    ensures s.queue != [] && s.queue[0].executionId == e ==> s.place[e].AtQueue?
    ensures s.ConsumerOf(w).Loading? || s.ConsumerOf(w).Checking? ==>
              (s.ConsumerOf(w).job.executionId == e ==> s.place[e] == AtWorker(w))
    ensures s.ConsumerOf(w).Checking? ==> s.ConsumerOf(w).x.id == s.ConsumerOf(w).job.executionId
  {
    hide PlaceOk, HistoryOk, IdsOk, ConversationFits;
    assert QueuedOk(s, 0) && ConsumerOk(s, w) && ExecutionOk(s, e);
  }

  lemma DequeueSaysNothing(s: State, w: nat, e: Id)
    requires e in s.place && (s.queue != [] && s.queue[0].executionId == e ==> s.place[e].AtQueue?)
    ensures Said(Dequeued(s, w), e) == Said(s, e)
  {
    hide MessagesIn;
  }

  lemma LoadSaysNothing(s: State, w: nat, e: Id)
    requires e in s.place
    requires s.ConsumerOf(w).Loading? && s.ConsumerOf(w).job.executionId == e ==> s.place[e] == AtWorker(w)
    ensures Said(Loaded(s, w), e) == Said(s, e)
  {
    hide MessagesIn;
  }

  lemma CheckSaysNothing(s: State, w: nat, run: Run, e: Id)
    requires e in s.place
    requires s.ConsumerOf(w).Checking? && s.ConsumerOf(w).job.executionId == e ==> s.place[e] == AtWorker(w)
    ensures Said(Checked(s, w, run), e) == Said(s, e)
  {
    hide MessagesIn, ScriptOf;
    NothingSaidYet(ScriptOf(run));
  }

  lemma NothingSaidYet(p: Script)
    ensures SaidBy(Executing(p, 0)) == []
  {
    assert p.log[..0] == [];
  }

  lemma SilentKeepsMerge(cfg: Config, s: State, m: Move, c: Id)
    requires Sound(s) && !m.Act? && MergeOk(s, c)
    ensures MergeOk(Apply(cfg, s, m), c)
  {
    hide Sound, Apply, Said, By;
    var t := Apply(cfg, s, m);
    LogsFrame(cfg, s, m);
    forall i | 0 <= i < |s.AuthorsOf(c)| ensures AuthorFits(t, t.AuthorsOf(c)[i], c) {
      EachMoveAdvances(cfg, s, m, s.AuthorsOf(c)[i]);
    }
    forall e | AuthorFits(t, e, c) ensures By(t.world.store.MessagesOf(c), t.AuthorsOf(c), e) == Said(t, e) {
      if e in s.world.store.executions {
        EachMoveAdvances(cfg, s, m, e);
        SaidFrame(cfg, s, m, e);
      } else {
        NewcomerSaysNothing(cfg, s, m, e);
        assert e !in s.AuthorsOf(c);
        ByStranger(s.world.store.MessagesOf(c), s.AuthorsOf(c), e);
      }
    }
  }

  lemma NewcomerSaysNothing(cfg: Config, s: State, m: Move, e: Id)
    requires !m.Act? && Sound(s)
    requires e !in s.world.store.executions && e in Apply(cfg, s, m).world.store.executions
    ensures Said(Apply(cfg, s, m), e) == []
  {
    hide Arrived, LookedUp, Authorized, Unidentified, SendCancelled, AgentPut, AgentRemoved, RecordRead, StepsRead;
    hide Enqueued, Dequeued, Loaded, Checked, Acted;
    if Quiet(m) {
      QuietMoves(cfg, s, m);
    } else if Handling(m) {
      HandlingMoves(cfg, s, m);
    } else if m.Withdraw? {
      assert CallerOk(s, m.c);
    }
  }

  // ---------- Moves that may say something ----------

  lemma ActKeepsMerge(s: State, w: nat, c: Id)
    requires Sound(s) && MergeOk(s, c) && Acted(s, w) != s
    ensures MergeOk(Acted(s, w), c)
  {
    hide Sound, Said, By, Acted;
    var t := Acted(s, w);
    ActedLog(s, w, c);
    forall i | 0 <= i < |t.AuthorsOf(c)| ensures AuthorFits(t, t.AuthorsOf(c)[i], c) {
      ActedSame(s, w, t.AuthorsOf(c)[i]);
    }
    forall e | AuthorFits(t, e, c) ensures By(t.world.store.MessagesOf(c), t.AuthorsOf(c), e) == Said(t, e) {
      ActedSame(s, w, e);
      ActedSaid(s, w, e);
      var k := s.ConsumerOf(w);
      if c == k.script.start.conversationId && k.script.log[k.done].AddMessage? {
        BySnoc(s.world.store.MessagesOf(c), s.AuthorsOf(c), k.script.log[k.done].msg, k.script.start.id, e);
      }
    }
  }

  /** The conversation's log and its authors grow together. */
  lemma ActedLog(s: State, w: nat, c: Id)
    requires Sound(s) && Acted(s, w) != s
    ensures var t, k := Acted(s, w), s.ConsumerOf(w);
            && k.Executing? && k.done < |k.script.log|
            && AuthorFits(s, k.script.start.id, k.script.start.conversationId)
            && if c == k.script.start.conversationId && k.script.log[k.done].AddMessage? then
                 t.world.store.MessagesOf(c) == s.world.store.MessagesOf(c) + [k.script.log[k.done].msg]
                 && t.AuthorsOf(c) == s.AuthorsOf(c) + [k.script.start.id]
               else
                 t.world.store.MessagesOf(c) == s.world.store.MessagesOf(c) && t.AuthorsOf(c) == s.AuthorsOf(c)
  {
    hide Effect, StepsIn, EventsIn, HistoryOk, IdsOk;
    assert ConsumerOk(s, w);
    var k := s.ConsumerOf(w);
    assert ExecutionOk(s, k.script.start.id);
    ActAdds(s.world, k.script, k.done, c);
    assert LawfulAt(k.script, k.done);
    RecordKeeps(k.script, k.done);
  }

  lemma ActedSame(s: State, w: nat, e: Id)
    requires Sound(s) && Acted(s, w) != s
    ensures e in Acted(s, w).world.store.executions <==> e in s.world.store.executions
    ensures e in s.world.store.executions ==>
              Acted(s, w).world.store.executions[e].conversationId == s.world.store.executions[e].conversationId
  {
    hide Effect, StepsIn, EventsIn, HistoryOk, IdsOk;
    assert ConsumerOk(s, w) && ExecutionOk(s, e);
    var k := s.ConsumerOf(w);
    assert ExecutionOk(s, k.script.start.id);
    ActAdds(s.world, k.script, k.done, k.script.start.conversationId);
    if e in s.world.store.executions {
      ActAdvances(s, w, e);
    }
  }

  lemma ActedSaid(s: State, w: nat, e: Id)
    requires Sound(s) && Acted(s, w) != s && e in s.world.store.executions
    ensures var k := s.ConsumerOf(w);
            && k.Executing? && k.done < |k.script.log|
            && Said(Acted(s, w), e) == Said(s, e) +
               if e == k.script.start.id && k.script.log[k.done].AddMessage? then [k.script.log[k.done].msg] else []
  {
    hide Effect, StepsIn, EventsIn, MessagesIn, HistoryOk, IdsOk;
    assert ConsumerOk(s, w) && ExecutionOk(s, e);
    var k := s.ConsumerOf(w);
    if e == k.script.start.id {
      SaidSnoc(k.script.log, k.done);
    }
  }

  lemma SaidSnoc(l: seq<Action>, n: nat)
    requires n < |l|
    ensures MessagesIn(l[..n + 1]) == MessagesIn(l[..n]) + if l[n].AddMessage? then [l[n].msg] else []
    ensures l[..|l|] == l
  {
    assert l[..n + 1][..n] == l[..n];
  }

  // ---------- Every reachable state ----------

  lemma {:induction false} AlwaysMerged(cfg: Config, ms: seq<Move>, c: Id)
    requires Behaviour(cfg, ms)
    ensures MergeOk(After(cfg, ms), c)
  {
    hide Sound, Apply, Allowed, MergeOk;
    if ms != [] {
      var s, m := After(cfg, ms[..|ms| - 1]), ms[|ms| - 1];
      AlwaysMerged(cfg, ms[..|ms| - 1], c);
      DispatchProofs.AlwaysSound(cfg, ms[..|ms| - 1]);
      MoveKeepsMerge(cfg, s, m, c);
    } else {
      NothingSaid(c);
    }
  }

  lemma MoveKeepsMerge(cfg: Config, s: State, m: Move, c: Id)
    requires Sound(s) && MergeOk(s, c)
    ensures MergeOk(Apply(cfg, s, m), c)
  {
    hide Sound, MergeOk, Acted;
    if !m.Act? {
      SilentKeepsMerge(cfg, s, m, c);
    } else if Acted(s, m.w) != s {
      ActKeepsMerge(s, m.w, c);
    }
  }

  lemma NothingSaid(c: Id)
    ensures MergeOk(START, c)
  {
  }

  /**
   * Every message of a conversation was said by the run of an execution on that conversation and of its owner, and what
   * each run has said so far appears whole and in order: the log is a merge of its runs' contributions.
   */
  lemma {:induction false} ConversationIsMerge(cfg: Config, ms: seq<Move>, c: Id)
    requires Behaviour(cfg, ms)
    ensures var s := After(cfg, ms);
            var st, who := s.world.store, s.AuthorsOf(c);
            && |who| == |st.MessagesOf(c)|
            && (forall i :: 0 <= i < |who| ==>
                  && who[i] in st.executions && st.executions[who[i]].conversationId == c && c in st.conversations
                  && st.conversations[c].ownerId == st.executions[who[i]].ownerId)
            && (forall e :: e in st.executions && st.executions[e].conversationId == c ==>
                  By(st.MessagesOf(c), who, e) == Said(s, e))
  {
    hide Sound, Apply, Behaviour, After, By, Said;
    var s := After(cfg, ms);
    AlwaysMerged(cfg, ms, c);
    forall i | 0 <= i < |s.AuthorsOf(c)|
      ensures var e, st := s.AuthorsOf(c)[i], s.world.store;
              && e in st.executions && st.executions[e].conversationId == c && c in st.conversations
              && st.conversations[c].ownerId == st.executions[e].ownerId
    {
      assert AuthorFits(s, s.AuthorsOf(c)[i], c);
      ConversationsFit(cfg, ms, s.AuthorsOf(c)[i]);
    }
    forall e | e in s.world.store.executions && s.world.store.executions[e].conversationId == c
      ensures By(s.world.store.MessagesOf(c), s.AuthorsOf(c), e) == Said(s, e)
    {
      assert AuthorFits(s, e, c);
    }
  }
}
