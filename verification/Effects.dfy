/** What one run changes in the shared state, and what it may rely on all the others to leave alone. */
module Effects {
  import opened Domain
  import opened Runs
  import opened Sequences
  import B = Breaker
  import Retry
  import S = Store

  /** The shared state: the store, and the events published so far for each execution. */
  datatype World = World(store: S.Store, events: map<Id, seq<Event>>) {
    function EventsOf(e: Id): seq<Event> {
      if e in events then events[e] else []
    }

    function RecordOf(e: Id): Option<Execution> {
      if e in store.executions then Some(store.executions[e]) else None
    }
  }

  /**
   * Whose run it is, and which worker runs it; alone means that no other run writes to the same conversation meanwhile.
   */
  datatype Ident = Ident(execution: Id, conversation: Id, alone: bool, worker: nat)

  /** The shared state, with what the run has asked the provider and how its worker has called the breaker so far. */
  datatype Moment = Moment(world: World, asked: seq<Exchange>, called: seq<B.Entry>)

  // ---------- What an action does ----------

  function Effect(w: World, a: Action): World {
    match a
    case Update(x) => w.(store := S.PutExecution(w.store, x))
    case AddStep(p) => w.(store := S.PutStep(w.store, p))
    case AddMessage(m) => w.(store := S.PutMessage(w.store, m))
    case Emit(v) => w.(events := w.events[v.executionId := w.EventsOf(v.executionId) + [v]])
    case Gate(_) => w
    case Ask(_, _, _) => w
  }

  function Perform(m: Moment, a: Action): Moment {
    match a
    case Gate(e) => m.(called := m.called + [e])
    case Ask(p, _, replies) => m.(asked := m.asked + Retry.Asked(p, replies))
    case _ => m.(world := Effect(m.world, a))
  }

  /** The action concerns execution e and conversation c only. */
  predicate Own(e: Id, c: Id, a: Action) {
    match a
    case Update(x) => x.id == e
    case AddStep(p) => p.executionId == e
    case AddMessage(m) => m.conversationId == c
    case Emit(v) => v.executionId == e
    case Gate(_) => true
    case Ask(_, _, _) => true
  }

  predicate Keeps(before: map<Id, Conversation>, after: map<Id, Conversation>) {
    forall c :: c in before ==> c in after && after[c] == before[c]
  }

  /** A step that some other actor takes leaves this run's record, steps and events alone, and only adds messages. */
  predicate Leaves(r: Ident, v: World, w: World) {
    && w.RecordOf(r.execution) == v.RecordOf(r.execution)
    && w.store.StepsOf(r.execution) == v.store.StepsOf(r.execution)
    && w.EventsOf(r.execution) == v.EventsOf(r.execution)
    && Keeps(v.store.conversations, w.store.conversations)
    && v.store.MessagesOf(r.conversation) <= w.store.MessagesOf(r.conversation)
    && (r.alone ==> v.store.MessagesOf(r.conversation) == w.store.MessagesOf(r.conversation))
  }

  /** Only others have moved from m to n. */
  predicate Waits(r: Ident, m: Moment, n: Moment) {
    Leaves(r, m.world, n.world) && n.asked == m.asked && n.called == m.called
  }

  // ---------- What a run does, in order ----------

  /** An action, and the moment at which it was done. */
  datatype Entry = Entry(action: Action, at: Moment)

  function ActionsOf(es: seq<Entry>): (l: seq<Action>)
    ensures |l| == |es|
  {
    seq(|es|, i requires 0 <= i < |es| => es[i].action)
  }

  /**
   * From m to n the run has done these actions, each at its moment, and between any two of them only others have moved.
   */
  predicate Chain(r: Ident, m: Moment, es: seq<Entry>, n: Moment)
    decreases |es|
  {
    if es == [] then Waits(r, m, n) else
    var last := es[|es| - 1];
    && Chain(r, m, es[..|es| - 1], last.at)
    && Own(r.execution, r.conversation, last.action)
    && Waits(r, Perform(last.at, last.action), n)
  }

  /** A moment, with all that the run has done so far. */
  datatype Scene = Scene(now: Moment, journal: seq<Entry>) {
    function Store(): S.Store {
      now.world.store
    }

    function LogOf(c: Id): seq<Message> {
      now.world.store.MessagesOf(c)
    }

    function Act(a: Action): Scene {
      Scene(Perform(now, a), journal + [Entry(a, now)])
    }
  }

  /** Between v and w, run r did exactly the actions l, in this order, whatever the others did in between. */
  predicate Did(r: Ident, v: Scene, w: Scene, l: seq<Action>) {
    && v.journal <= w.journal
    && ActionsOf(w.journal[|v.journal|..]) == l
    && Chain(r, v.now, w.journal[|v.journal|..], w.now)
  }

  lemma LeavesSelf(r: Ident, w: World)
    ensures Leaves(r, w, w)
  {
  }

  lemma WaitsThen(r: Ident, a: Moment, b: Moment, c: Moment)
    requires Waits(r, a, b) && Waits(r, b, c)
    ensures Waits(r, a, c)
  {
  }

  lemma {:induction false} ChainThen(r: Ident, m: Moment, es: seq<Entry>, n: Moment, fs: seq<Entry>, o: Moment)
    requires Chain(r, m, es, n) && Chain(r, n, fs, o)
    ensures Chain(r, m, es + fs, o)
    decreases |fs|
  {
    hide Waits, Perform, Own;
    if fs != [] {
      var k := |fs| - 1;
      ChainThen(r, m, es, n, fs[..k], fs[k].at);
      assert (es + fs)[..|es + fs| - 1] == es + fs[..k];
    } else {
      assert es + fs == es;
      if es == [] {
        WaitsThen(r, m, n, o);
      } else {
        WaitsThen(r, Perform(es[|es| - 1].at, es[|es| - 1].action), n, o);
      }
    }
  }

  /** Actions done one after the other. */
  lemma Then(r: Ident, u: Scene, v: Scene, w: Scene, l: seq<Action>, m: seq<Action>)
    requires Did(r, u, v, l) && Did(r, v, w, m)
    ensures Did(r, u, w, l + m)
  {
    hide Chain;
    var es, fs := v.journal[|u.journal|..], w.journal[|v.journal|..];
    assert w.journal[|u.journal|..] == es + fs;
    ChainThen(r, u.now, es, v.now, fs, w.now);
  }

  /** Nothing but the others' moves. */
  lemma Waited(r: Ident, v: Scene, w: Scene)
    requires Waits(r, v.now, w.now) && w.journal == v.journal
    ensures Did(r, v, w, [])
  {
    assert w.journal[|v.journal|..] == [];
  }

  lemma Nothing(r: Ident, w: Scene)
    ensures Did(r, w, w, [])
  {
    Waited(r, w, w);
  }

  lemma OwnThen(r: Ident, w0: Scene, w1: Scene, w2: Scene, a: Action)
    requires Did(r, w0, w1, []) && Own(r.execution, r.conversation, a) && w2 == w1.Act(a)
    ensures Did(r, w0, w2, [a])
  {
    hide Did, Perform, Own;
    assert Did(r, w1, w2, [a]) by {
      OwnDid(r, w1, a);
    }
    Then(r, w0, w1, w2, [], [a]);
    assert [] + [a] == [a];
  }

  lemma OwnDid(r: Ident, w: Scene, a: Action)
    requires Own(r.execution, r.conversation, a)
    ensures Did(r, w, w.Act(a), [a])
  {
    hide Perform, Leaves;
    LeavesSelf(r, w.now.world);
    LeavesSelf(r, Perform(w.now, a).world);
    var es := w.Act(a).journal[|w.journal|..];
    assert es == [Entry(a, w.now)];
    assert es[..|es| - 1] == [];
    assert Chain(r, w.now, [], w.now);
  }

  // ---------- What it amounts to ----------

  /** The log of the conversation has grown by own, in order, possibly with messages of others in between. */
  predicate Grew(r: Ident, before: seq<Message>, after: seq<Message>, own: seq<Message>) {
    before <= after && Within(own, after[|before|..]) && (r.alone ==> after == before + own)
  }

  function RecordAfter(x: Option<Execution>, l: seq<Action>): Option<Execution> {
    if UpdatesIn(l) == [] then x else Some(UpdatesIn(l)[|UpdatesIn(l)| - 1])
  }

  /** What the actions l of run r leave behind between m and n. */
  predicate Amounts(r: Ident, m: Moment, n: Moment, l: seq<Action>) {
    && n.world.RecordOf(r.execution) == RecordAfter(m.world.RecordOf(r.execution), l)
    && n.world.store.StepsOf(r.execution) == m.world.store.StepsOf(r.execution) + StepsIn(l)
    && n.world.EventsOf(r.execution) == m.world.EventsOf(r.execution) + EventsIn(l)
    && n.asked == m.asked + ExchangesIn(l)
    && n.called == m.called + GatesIn(l)
    && Keeps(m.world.store.conversations, n.world.store.conversations)
    && Grew(r, m.world.store.MessagesOf(r.conversation), n.world.store.MessagesOf(r.conversation), MessagesIn(l))
  }

  /** Doing these actions in this order amounts to just that. */
  lemma Shown(r: Ident, v: Scene, w: Scene, l: seq<Action>)
    requires Did(r, v, w, l)
    ensures Amounts(r, v.now, w.now, l)
  {
    ChainAmounts(r, v.now, w.journal[|v.journal|..], w.now);
  }

  lemma {:induction false} ChainAmounts(r: Ident, m: Moment, es: seq<Entry>, n: Moment)
    requires Chain(r, m, es, n)
    ensures Amounts(r, m, n, ActionsOf(es))
    decreases |es|
  {
    hide Amounts, Waits, Perform, Own;
    if es == [] {
      WaitsAmounts(r, m, n);
    } else {
      var k := |es| - 1;
      var last := es[k];
      ChainAmounts(r, m, es[..k], last.at);
      PerformAmounts(r, last.at, last.action);
      WaitsAmounts(r, Perform(last.at, last.action), n);
      AmountsThen(r, last.at, Perform(last.at, last.action), n, [last.action], []);
      AmountsThen(r, m, last.at, n, ActionsOf(es[..k]), [last.action] + []);
      assert ActionsOf(es) == ActionsOf(es[..k]) + ([last.action] + []);
    }
  }

  lemma WaitsAmounts(r: Ident, m: Moment, n: Moment)
    requires Waits(r, m, n)
    ensures Amounts(r, m, n, [])
  {
  }

  lemma GrewThen(r: Ident, a: seq<Message>, b: seq<Message>, c: seq<Message>, first: seq<Message>, second: seq<Message>)
    requires Grew(r, a, b, first) && Grew(r, b, c, second)
    ensures Grew(r, a, c, first + second)
  {
    WithinConcat(first, b[|a|..], second, c[|b|..]);
    assert b[|a|..] + c[|b|..] == c[|a|..];
    if r.alone {
      assert c == a + (first + second);
    }
  }

  lemma AmountsThen(r: Ident, a: Moment, b: Moment, c: Moment, l: seq<Action>, m: seq<Action>)
    requires Amounts(r, a, b, l) && Amounts(r, b, c, m)
    ensures Amounts(r, a, c, l + m)
  {
    hide Grew, StepsIn, EventsIn, MessagesIn, UpdatesIn, ExchangesIn, GatesIn;
    FiltersConcat(l, m);
    CallsConcat(l, m);
    var e, v := r.execution, r.conversation;
    GrewThen(r, a.world.store.MessagesOf(v), b.world.store.MessagesOf(v), c.world.store.MessagesOf(v), MessagesIn(l),
        MessagesIn(m));
    Associate(a.world.store.StepsOf(e), StepsIn(l), StepsIn(m));
    Associate(a.world.EventsOf(e), EventsIn(l), EventsIn(m));
    Associate(a.asked, ExchangesIn(l), ExchangesIn(m));
    Associate(a.called, GatesIn(l), GatesIn(m));
  }

  lemma OneFilters(a: Action)
    ensures StepsIn([a]) == if a.AddStep? then [a.step] else []
    ensures MessagesIn([a]) == if a.AddMessage? then [a.msg] else []
    ensures EventsIn([a]) == if a.Emit? then [a.event] else []
    ensures UpdatesIn([a]) == if a.Update? then [a.x] else []
  {
    assert [a][..0] == [];
  }

  lemma OneCalls(a: Action)
    ensures ExchangesIn([a]) == if a.Ask? then Retry.Asked(a.prompt, a.replies) else []
    ensures GatesIn([a]) == if a.Gate? then [a.entry] else []
  {
    assert [a][..0] == [];
  }

  lemma GrewBy(r: Ident, log: seq<Message>, own: seq<Message>)
    ensures Grew(r, log, log + own, own)
  {
    hide Within;
    assert (log + own)[|log|..] == own;
    WithinSelf(own);
  }

  lemma PerformAmounts(r: Ident, m: Moment, a: Action)
    requires Own(r.execution, r.conversation, a)
    ensures Amounts(r, m, Perform(m, a), [a])
  {
    hide StepsIn, MessagesIn, EventsIn, UpdatesIn, ExchangesIn, GatesIn, Grew;
    OneFilters(a);
    OneCalls(a);
    var before, after := m.world.store.MessagesOf(r.conversation), Perform(m, a).world.store.MessagesOf(r.conversation);
    assert after == before + if a.AddMessage? then [a.msg] else [];
    GrewBy(r, before, MessagesIn([a]));
  }

  // ---------- Prompts against the stored conversation ----------

  /** A message as both the prompt and the store know it. */
  datatype Line = Line(role: Role, content: string, toolCallId: string)

  function LinesOf(ps: seq<Prompt>): (r: seq<Line>)
    ensures |r| == |ps|
  {
    seq(|ps|, i requires 0 <= i < |ps| => Line(ps[i].role, ps[i].content, ps[i].toolCallId))
  }

  function LogLines(ms: seq<Message>): (r: seq<Line>)
    ensures |r| == |ms|
  {
    seq(|ms|, i requires 0 <= i < |ms| => Line(ms[i].role, ms[i].content, ms[i].toolCallId))
  }

  /** The prompt is made of lines of the log in their order; alone, it is exactly the end of the log. */
  predicate Tied(r: Ident, prompt: seq<Prompt>, log: seq<Message>) {
    && Within(LinesOf(prompt), LogLines(log))
    && (r.alone ==> |prompt| <= |log| && LinesOf(prompt) == LogLines(log[|log| - |prompt|..]))
  }

  lemma LinesConcat(a: seq<Message>, b: seq<Message>)
    ensures LogLines(a + b) == LogLines(a) + LogLines(b)
  {
  }

  lemma SpokenConcat(a: seq<Prompt>, b: seq<Prompt>)
    ensures LinesOf(a + b) == LinesOf(a) + LinesOf(b)
  {
  }

  predicate AllStored(ms: seq<Message>, c: Id, ps: seq<Prompt>) {
    |ms| == |ps| && forall i :: 0 <= i < |ms| ==> Stores(ms[i], c, ps[i])
  }

  lemma {:induction false} StoredWithin(a: seq<Message>, b: seq<Message>)
    requires Within(a, b)
    ensures Within(LogLines(a), LogLines(b))
    decreases |b|
  {
    if a != [] {
      var a', b' := a[..|a| - 1], b[..|b| - 1];
      assert LogLines(b)[..|b| - 1] == LogLines(b');
      assert LogLines(a)[..|a| - 1] == LogLines(a');
      if a[|a| - 1] == b[|b| - 1] && Within(a', b') {
        StoredWithin(a', b');
      } else {
        StoredWithin(a, b');
      }
    }
  }

  /** Appending to the prompt what was stored keeps it tied to the grown log. */
  lemma TiedGrows(r: Ident, prompt: seq<Prompt>, before: seq<Message>, after: seq<Message>, own: seq<Message>,
                  more: seq<Prompt>)
    requires Tied(r, prompt, before) && Grew(r, before, after, own) && AllStored(own, r.conversation, more)
    ensures Tied(r, prompt + more, after)
  {
    assert LinesOf(more) == LogLines(own);
    SpokenConcat(prompt, more);
    WithinGrows(LinesOf(prompt), before, after, own);
    if r.alone {
      EndGrows(before, own, |before| - |prompt|);
    }
  }

  lemma WithinGrows(lines: seq<Line>, before: seq<Message>, after: seq<Message>, own: seq<Message>)
    requires Within(lines, LogLines(before)) && before <= after && Within(own, after[|before|..])
    ensures Within(lines + LogLines(own), LogLines(after))
  {
    var new' := after[|before|..];
    StoredWithin(own, new');
    WithinConcat(lines, LogLines(before), LogLines(own), LogLines(new'));
    assert after == before + new';
    LinesConcat(before, new');
  }

  lemma EndGrows(before: seq<Message>, own: seq<Message>, k: nat)
    requires k <= |before|
    ensures LogLines((before + own)[k..]) == LogLines(before[k..]) + LogLines(own)
  {
    assert (before + own)[k..] == before[k..] + own;
    LinesConcat(before[k..], own);
  }

  /** The history window a run starts from is tied to the log it is taken from. */
  lemma RecentTied(r: Ident, log: seq<Message>)
    ensures Tied(r, Recalls(S.Recent(log, HISTORY)), log)
  {
    var h := S.Recent(log, HISTORY);
    var k := |log| - |h|;
    assert LinesOf(Recalls(h)) == LogLines(h);
    assert log == log[..k] + h;
    LinesConcat(log[..k], h);
    WithinSelf(LogLines(h));
    WithinConcat([], LogLines(log[..k]), LogLines(h), LogLines(h));
    assert [] + LogLines(h) == LogLines(h);
  }
}
