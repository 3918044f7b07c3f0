/** The loop invariant of a run, as a statement about values. */
module Progress {
  import opened Domain
  import opened Runs
  import opened Effects
  import opened Sequences
  import B = Breaker
  import RunLaws
  import S = Store
  import ToolLaws

  // ---------- One round ----------

  datatype Verdict = Continue | Finish | Abort(cause: Error)

  predicate Ends(q: Round, verdict: Verdict) {
    match verdict
    case Continue => GoesOn(q)
    case Finish => Answers(q)
    case Abort(c) => !GoesOn(q) && !Answers(q) && Broke(q, c)
  }

  /** The log the provider saw was at least what was stored when the round began; alone, exactly that. */
  ghost predicate SeenWell(r: Ident, w0: Scene, w1: Scene, q: Round) {
    && |w0.LogOf(r.conversation)| <= q.seen <= |w1.LogOf(r.conversation)|
    && (r.alone ==> q.seen == |w0.LogOf(r.conversation)|)
  }

  /** A round went from w0 to w1 with prompt messages under identifier stepId. */
  ghost predicate Passed(r: Ident, w0: Scene, w1: Scene, q: Round, messages: seq<Prompt>, stepId: Id,
                         verdict: Verdict) {
    && RoundOk(r.execution, r.conversation, q) && Ends(q, verdict)
    && q.prompt == messages && q.stepId == stepId
    && Did(r, w0, w1, RoundLog(r.execution, q))
    && SeenWell(r, w0, w1, q)
  }

  /** The prompt has grown by what the round adds. */
  predicate Grows(before: seq<Prompt>, after: seq<Prompt>, q: Round) {
    after == before + Adds(q)
  }

  predicate IdsWithin(f: Fan, lo: Id, hi: Id) {
    && |f.fates| == |f.ids|
    && forall i :: 0 <= i < |f.ids| && f.fates[i].Drawn() ==> lo <= f.ids[i] < hi
  }

  // ---------- The loop ----------

  /** Every question was asked about the stored conversation: base messages, then what this run had said by then. */
  ghost predicate Faithful(r: Ident, base: nat, own: nat, rs: seq<Round>, log: seq<Message>) {
    forall i :: 0 <= i < |rs| ==> Asked(r, base + own + |MessagesIn(Flatten(r.execution, rs[..i]))|, rs[i], log)
  }

  ghost predicate Asked(r: Ident, atLeast: nat, q: Round, log: seq<Message>) {
    && atLeast <= q.seen <= |log|
    && (r.alone ==> q.seen == atLeast)
    && Tied(r, q.prompt, log[..q.seen])
  }

  ghost predicate Fresh(rs: seq<Round>, next: Id) {
    forall i :: 0 <= i < |rs| ==> Older(rs[i], next)
  }

  predicate Older(q: Round, next: Id) {
    && q.stepId < next
    && forall i :: 0 <= i < |q.fan.ids| && i < |q.fan.fates| && q.fan.fates[i].Drawn() ==> q.fan.ids[i] < next
  }

  /** history was read from the end of the log when it was loaded messages long. */
  predicate Window(r: Ident, loaded: nat, history: seq<Message>, w0: Scene, w: Scene) {
    var before, log := w0.LogOf(r.conversation), w.LogOf(r.conversation);
    |before| <= loaded <= |log| && (r.alone ==> loaded == |before|) && history == S.Recent(log[..loaded], HISTORY)
  }

  predicate Remembered(r: Ident, base: Run, w0: Scene, w: Scene) {
    Window(r, base.loaded, base.history, w0, w)
  }

  lemma StaysRemembered(r: Ident, base: Run, w0: Scene, w1: Scene, w2: Scene, l: seq<Action>)
    requires Remembered(r, base, w0, w1) && Did(r, w1, w2, l)
    ensures Remembered(r, base, w0, w2)
  {
    Shown(r, w1, w2, l);
    assert w2.LogOf(r.conversation)[..base.loaded] == w1.LogOf(r.conversation)[..base.loaded];
  }

  /** After rounds rs, all of which went on. */
  ghost predicate Underway(r: Ident, base: Run, rs: seq<Round>, w0: Scene, w: Scene, x: Execution,
                           messages: seq<Prompt>, next: Id) {
    && Placed(r, base, w)
    && OpeningOk(base) && |base.opening| == 1 && Remembered(r, base, w0, w)
    && RoundsOk(r.execution, r.conversation, base.history, base.start.input, rs)
    && (rs != [] ==> GoesOn(rs[|rs| - 1]))
    && Fresh(rs, next)
    && x == Carried(MarkedRunning(base.start, base.startedAt), rs)
    && messages == PromptAfter(base.history, base.start.input, rs)
    && Did(r, w0, w, Opening(base) + Flatten(r.execution, rs))
    && Tied(r, messages, w.LogOf(r.conversation))
    && Faithful(r, |w0.LogOf(r.conversation)|, |base.opening|, rs, w.LogOf(r.conversation))
  }

  /** The run's execution and conversation are stored. */
  predicate Placed(r: Ident, base: Run, w: Scene) {
    && base.start.id == r.execution && base.start.conversationId == r.conversation
    && r.execution in w.Store().executions && r.conversation in w.Store().conversations
  }

  /** The loop is left after rounds rs and perhaps a last call of the breaker, to end as ending says. */
  ghost predicate Ended(r: Ident, base: Run, rs: seq<Round>, w0: Scene, w: Scene, x: Execution,
                        knock: Option<B.Entry>, ending: Ending) {
    && base.start.id == r.execution && base.start.conversationId == r.conversation
    && r.execution in w.Store().executions
    && OpeningOk(base) && |base.opening| == 1 && Remembered(r, base, w0, w)
    && RoundsOk(r.execution, r.conversation, base.history, base.start.input, rs)
    && |rs| <= MAX_STEPS
    && EndingOk(base.opening, rs, knock, ending)
    && x == Carried(MarkedRunning(base.start, base.startedAt), rs)
    && Did(r, w0, w, Opening(base) + Flatten(r.execution, rs) + Knocking(base.(knock := knock)))
    && Faithful(r, |w0.LogOf(r.conversation)|, |base.opening|, rs, w.LogOf(r.conversation))
  }

  /** What a whole run comes to. */
  ghost predicate Performed(r: Ident, w0: Scene, w1: Scene, run: Run) {
    && RunOk(run)
    && Did(r, w0, w1, Log(run))
    && Faithful(r, |w0.LogOf(r.conversation)|, |run.opening|, run.rounds, w1.LogOf(r.conversation))
    && (run.opening != [] ==> Remembered(r, run, w0, w1))
    && (w0.Store().OwnsConversation(run.start.ownerId, r.conversation) && run.opening == [] ==>
          run.ending == Stopped(NoEntropy))
  }

  // ---------- Steps of the loop ----------

  lemma GrewLength(r: Ident, before: seq<Message>, after: seq<Message>, own: seq<Message>)
    requires Grew(r, before, after, own)
    ensures |after| >= |before| + |own|
    ensures r.alone ==> |after| == |before| + |own|
  {
    WithinLength(own, after[|before|..]);
  }

  lemma TiedSkips(r: Ident, prompt: seq<Prompt>, a: seq<Message>, b: seq<Message>)
    requires Tied(r, prompt, a) && a <= b && (r.alone ==> a == b)
    ensures Tied(r, prompt, b)
  {
    WithinSkips(LinesOf(prompt), LogLines(a), LogLines(b[|a|..]));
    assert b == a + b[|a|..];
    LinesConcat(a, b[|a|..]);
  }

  lemma FlattenSnoc(e: Id, rs: seq<Round>, q: Round)
    ensures Flatten(e, rs + [q]) == Flatten(e, rs) + RoundLog(e, q)
  {
    assert (rs + [q])[..|rs + [q]| - 1] == rs;
  }

  lemma SnocAt<T>(s: seq<T>, x: T, i: nat)
    requires i <= |s|
    ensures (s + [x])[i] == if i < |s| then s[i] else x
    ensures (s + [x])[..i] == s[..i]
  {
  }

  lemma ShapesSnoc(e: Id, c: Id, rs: seq<Round>, q: Round)
    requires RunLaws.Sequenced(e, c, rs) && (rs != [] ==> GoesOn(rs[|rs| - 1])) && RoundOk(e, c, q)
    ensures RunLaws.Sequenced(e, c, rs + [q])
  {
    forall i | 0 <= i < |rs| + 1 ensures RoundOk(e, c, (rs + [q])[i]) {
      SnocAt(rs, q, i);
    }
    forall i | 0 <= i < |rs| ensures GoesOn((rs + [q])[i]) {
      SnocAt(rs, q, i);
    }
  }

  lemma NewerSnoc(rs: seq<Round>, q: Round, next: Id)
    requires forall i, j :: 0 <= i < j < |rs| ==> NewerThan(rs[j], rs[i])
    requires Fresh(rs, next) && next <= q.stepId
    ensures forall i, j :: 0 <= i < j < |rs + [q]| ==> NewerThan((rs + [q])[j], (rs + [q])[i])
  {
    forall i, j | 0 <= i < j < |rs + [q]| ensures NewerThan((rs + [q])[j], (rs + [q])[i]) {
      SnocAt(rs, q, i);
      SnocAt(rs, q, j);
      assert Older(rs[i], next);
    }
  }

  lemma PromptsSnoc(history: seq<Message>, input: string, rs: seq<Round>, q: Round)
    requires forall i :: 0 <= i < |rs| ==> rs[i].prompt == PromptAfter(history, input, rs[..i])
    requires q.prompt == PromptAfter(history, input, rs)
    ensures forall i :: 0 <= i < |rs + [q]| ==> (rs + [q])[i].prompt == PromptAfter(history, input, (rs + [q])[..i])
  {
    forall i | 0 <= i < |rs + [q]| ensures (rs + [q])[i].prompt == PromptAfter(history, input, (rs + [q])[..i]) {
      SnocAt(rs, q, i);
      assert rs[..|rs|] == rs;
    }
  }

  lemma RoundsSnoc(r: Ident, base: Run, rs: seq<Round>, q: Round, next: Id)
    requires RoundsOk(r.execution, r.conversation, base.history, base.start.input, rs)
    requires rs != [] ==> GoesOn(rs[|rs| - 1])
    requires RoundOk(r.execution, r.conversation, q) && q.prompt == PromptAfter(base.history, base.start.input, rs)
    requires Fresh(rs, next) && next <= q.stepId
    ensures RoundsOk(r.execution, r.conversation, base.history, base.start.input, rs + [q])
  {
    ShapesSnoc(r.execution, r.conversation, rs, q);
    NewerSnoc(rs, q, next);
    PromptsSnoc(base.history, base.start.input, rs, q);
  }

  lemma FoldsSnoc(base: Run, rs: seq<Round>, q: Round)
    ensures Carried(MarkedRunning(base.start, base.startedAt), rs + [q])
            == Carry(Carried(MarkedRunning(base.start, base.startedAt), rs), q)
    ensures PromptAfter(base.history, base.start.input, rs + [q]) ==
            PromptAfter(base.history, base.start.input, rs) + Adds(q)
  {
    assert (rs + [q])[..|rs + [q]| - 1] == rs;
  }

  lemma FreshSnoc(rs: seq<Round>, q: Round, lo: Id, hi: Id, next: Id)
    requires Fresh(rs, lo) && lo <= hi <= next && q.stepId < hi && IdsWithin(q.fan, hi, next)
    ensures Fresh(rs + [q], next)
  {
    forall i | 0 <= i < |rs| ensures Older(rs[i], next) {
      assert Older(rs[i], lo);
    }
    assert Older(q, next);
  }

  lemma OpeningLength(r: Ident, base: Run, rs: seq<Round>, before: seq<Message>, log: seq<Message>)
    requires Grew(r, before, log, MessagesIn(Opening(base) + Flatten(r.execution, rs)))
    ensures |log| >= |before| + |base.opening| + |MessagesIn(Flatten(r.execution, rs))|
    ensures r.alone ==> |log| == |before| + |base.opening| + |MessagesIn(Flatten(r.execution, rs))|
  {
    FiltersConcat(Opening(base), Flatten(r.execution, rs));
    RunLaws.OpeningFilters(base);
    GrewLength(r, before, log, MessagesIn(Opening(base) + Flatten(r.execution, rs)));
  }

  lemma AskedLater(r: Ident, atLeast: nat, q: Round, log: seq<Message>, after: seq<Message>)
    requires Asked(r, atLeast, q, log) && log <= after
    ensures Asked(r, atLeast, q, after)
  {
    hide Tied;
    assert after[..q.seen] == log[..q.seen];
  }

  lemma FaithfulSnoc(r: Ident, base: nat, own: nat, rs: seq<Round>, q: Round, log: seq<Message>, after: seq<Message>)
    requires Faithful(r, base, own, rs, log) && log <= after
    requires base + own + |MessagesIn(Flatten(r.execution, rs))| <= |log| <= q.seen <= |after|
    requires r.alone ==> base + own + |MessagesIn(Flatten(r.execution, rs))| == |log| == q.seen
    requires Tied(r, q.prompt, log)
    ensures Faithful(r, base, own, rs + [q], after)
  {
    hide Tied, Flatten, MessagesIn, Asked, Faithful;
    AskedNow(r, base + own + |MessagesIn(Flatten(r.execution, rs))|, q, log, after);
    assert (rs + [q])[..|rs|] == rs;
    FaithfulLater(r, base, own, rs, log, after);
    FaithfulOneMore(r, base, own, rs + [q], after);
  }

  lemma FaithfulLater(r: Ident, base: nat, own: nat, rs: seq<Round>, log: seq<Message>, after: seq<Message>)
    requires Faithful(r, base, own, rs, log) && log <= after
    ensures Faithful(r, base, own, rs, after)
  {
    hide Asked, Flatten, MessagesIn;
    forall i | 0 <= i < |rs|
      ensures Asked(r, base + own + |MessagesIn(Flatten(r.execution, rs[..i]))|, rs[i], after)
    {
      AskedLater(r, base + own + |MessagesIn(Flatten(r.execution, rs[..i]))|, rs[i], log, after);
    }
  }

  lemma FaithfulOneMore(r: Ident, base: nat, own: nat, rs: seq<Round>, log: seq<Message>)
    requires rs != [] && Faithful(r, base, own, rs[..|rs| - 1], log)
    requires Asked(r, base + own + |MessagesIn(Flatten(r.execution, rs[..|rs| - 1]))|, rs[|rs| - 1], log)
    ensures Faithful(r, base, own, rs, log)
  {
    hide Asked, Flatten, MessagesIn;
    forall i | 0 <= i < |rs|
      ensures Asked(r, base + own + |MessagesIn(Flatten(r.execution, rs[..i]))|, rs[i], log)
    {
      assert i < |rs| - 1 ==> rs[..|rs| - 1][..i] == rs[..i] && rs[..|rs| - 1][i] == rs[i];
    }
  }

  lemma AskedNow(r: Ident, atLeast: nat, q: Round, log: seq<Message>, after: seq<Message>)
    requires atLeast <= |log| <= q.seen <= |after| && log <= after && Tied(r, q.prompt, log)
    requires r.alone ==> atLeast == |log| == q.seen
    ensures Asked(r, atLeast, q, after)
  {
    hide Tied;
    TiedSkips(r, q.prompt, log, after[..q.seen]);
  }

  lemma DidSnoc(r: Ident, base: Run, rs: seq<Round>, q: Round, w0: Scene, w1: Scene, w2: Scene)
    requires Did(r, w0, w1, Opening(base) + Flatten(r.execution, rs))
    requires Did(r, w1, w2, RoundLog(r.execution, q))
    ensures Did(r, w0, w2, Opening(base) + Flatten(r.execution, rs + [q]))
  {
    Then(r, w0, w1, w2, Opening(base) + Flatten(r.execution, rs), RoundLog(r.execution, q));
    FlattenSnoc(r.execution, rs, q);
    Associate(Opening(base), Flatten(r.execution, rs), RoundLog(r.execution, q));
  }

  lemma AskedSnoc(r: Ident, base: Run, rs: seq<Round>, q: Round, w0: Scene, w1: Scene, w2: Scene)
    requires Did(r, w0, w1, Opening(base) + Flatten(r.execution, rs))
    requires Did(r, w1, w2, RoundLog(r.execution, q)) && SeenWell(r, w1, w2, q)
    requires Tied(r, q.prompt, w1.LogOf(r.conversation))
    requires Faithful(r, |w0.LogOf(r.conversation)|, |base.opening|, rs, w1.LogOf(r.conversation))
    ensures Faithful(r, |w0.LogOf(r.conversation)|, |base.opening|, rs + [q], w2.LogOf(r.conversation))
  {
    Shown(r, w0, w1, Opening(base) + Flatten(r.execution, rs));
    Shown(r, w1, w2, RoundLog(r.execution, q));
    OpeningLength(r, base, rs, w0.LogOf(r.conversation), w1.LogOf(r.conversation));
    FaithfulSnoc(r, |w0.LogOf(r.conversation)|, |base.opening|, rs, q,
                 w1.LogOf(r.conversation), w2.LogOf(r.conversation));
  }

  /** A round that goes on has stored exactly what it adds to the prompt. */
  lemma AddsStored(e: Id, c: Id, q: Round)
    requires RoundOk(e, c, q) && GoesOn(q)
    ensures AllStored(q.spoken + q.heard, c, Adds(q))
  {
    ToolLaws.SequentialMeaning(q.fan.calls, q.fan.fates);
    var ps := Sequential(q.fan.calls, q.fan.fates).value;
    forall i | 0 <= i < |q.spoken + q.heard| ensures Stores((q.spoken + q.heard)[i], c, Adds(q)[i]) {
      if i > 0 {
        assert (q.spoken + q.heard)[i] == q.heard[i - 1] && Adds(q)[i] == ps[i - 1];
      }
    }
  }

  lemma TiedSnoc(r: Ident, messages: seq<Prompt>, q: Round, w1: Scene, w2: Scene)
    requires RoundOk(r.execution, r.conversation, q) && GoesOn(q)
    requires Did(r, w1, w2, RoundLog(r.execution, q)) && Tied(r, messages, w1.LogOf(r.conversation))
    ensures Tied(r, messages + Adds(q), w2.LogOf(r.conversation))
  {
    Shown(r, w1, w2, RoundLog(r.execution, q));
    RunLaws.RoundFilters(r.execution, q);
    AddsStored(r.execution, r.conversation, q);
    TiedGrows(r, messages, w1.LogOf(r.conversation), w2.LogOf(r.conversation), q.spoken + q.heard, Adds(q));
  }

  /** A round that goes on keeps the loop underway. */
  lemma WentOn(r: Ident, base: Run, rs: seq<Round>, w0: Scene, w1: Scene, w2: Scene, x: Execution,
               messages: seq<Prompt>,
               q: Round, lo: Id, hi: Id, next: Id, more: seq<Prompt>)
    requires Underway(r, base, rs, w0, w1, x, messages, lo)
    requires Passed(r, w1, w2, q, messages, q.stepId, Continue) && Grows(messages, more, q)
    requires lo <= q.stepId < hi <= next && IdsWithin(q.fan, hi, next)
    ensures Underway(r, base, rs + [q], w0, w2, Carry(x, q), more, next)
  {
    hide Did, RoundsOk, Faithful, Carried, PromptAfter, Tied;
    RoundsSnoc(r, base, rs, q, lo);
    FoldsSnoc(base, rs, q);
    FreshSnoc(rs, q, lo, hi, next);
    DidSnoc(r, base, rs, q, w0, w1, w2);
    AskedSnoc(r, base, rs, q, w0, w1, w2);
    TiedSnoc(r, messages, q, w1, w2);
    StaysPlaced(r, base, w1, w2, RoundLog(r.execution, q));
    StaysRemembered(r, base, w0, w1, w2, RoundLog(r.execution, q));
  }

  lemma StaysPlaced(r: Ident, base: Run, w1: Scene, w2: Scene, l: seq<Action>)
    requires Placed(r, base, w1) && Did(r, w1, w2, l)
    ensures Placed(r, base, w2)
  {
    Shown(r, w1, w2, l);
  }

  /** A round that does not go on ends the loop. */
  lemma WasLast(r: Ident, base: Run, rs: seq<Round>, w0: Scene, w1: Scene, w2: Scene, x: Execution,
                messages: seq<Prompt>, q: Round, lo: Id, verdict: Verdict)
    requires Underway(r, base, rs, w0, w1, x, messages, lo) && |rs| < MAX_STEPS
    requires Passed(r, w1, w2, q, messages, q.stepId, verdict) && !verdict.Continue? && lo <= q.stepId
    ensures Ended(r, base, rs + [q], w0, w2, Carry(x, q), None,
                  if verdict.Finish? then Done else Stopped(verdict.cause))
  {
    hide Did, RoundsOk, RoundOk, Faithful, Fresh, Carried, Carry, PromptAfter, Tied, OpeningOk, Remembered, SeenWell;
    RoundsSnoc(r, base, rs, q, lo);
    FoldsSnoc(base, rs, q);
    DidSnoc(r, base, rs, q, w0, w1, w2);
    NoKnock(r, base, rs + [q], w0, w2);
    AskedSnoc(r, base, rs, q, w0, w1, w2);
    StaysPlaced(r, base, w1, w2, RoundLog(r.execution, q));
    StaysRemembered(r, base, w0, w1, w2, RoundLog(r.execution, q));
  }

  lemma NoKnock(r: Ident, base: Run, rs: seq<Round>, w0: Scene, w: Scene)
    requires Did(r, w0, w, Opening(base) + Flatten(r.execution, rs))
    ensures Did(r, w0, w, Opening(base) + Flatten(r.execution, rs) + Knocking(base.(knock := None)))
  {
    hide Did;
    var l := Opening(base) + Flatten(r.execution, rs);
    assert l + [] == l;
  }

  /**
   * Without calling the breaker the loop may be left before a round for the end of the context, and after the last one.
   */
  lemma Gated(r: Ident, base: Run, rs: seq<Round>, w0: Scene, w: Scene, x: Execution, messages: seq<Prompt>, next: Id,
              cause: Error)
    requires Underway(r, base, rs, w0, w, x, messages, next)
    requires (|rs| < MAX_STEPS && StopsBetween(None, cause)) || (|rs| == MAX_STEPS && cause == StepsExhausted)
    ensures Ended(r, base, rs, w0, w, x, None, Stopped(cause))
  {
    hide Did, RoundsOk, Faithful, Carried, PromptAfter, Tied;
    NoKnock(r, base, rs, w0, w);
  }

  /** After calling the breaker it may be left because of the answer, or for want of an identifier. */
  lemma Knocked(r: Ident, base: Run, rs: seq<Round>, w0: Scene, w1: Scene, w2: Scene, x: Execution,
                messages: seq<Prompt>,
                next: Id, ask: B.Entry)
    requires Underway(r, base, rs, w0, w1, x, messages, next) && |rs| < MAX_STEPS && ask.call.Allow?
    requires Did(r, w1, w2, [Gate(ask)])
    ensures Ended(r, base, rs, w0, w2, x, Some(ask), Stopped(if ask.allowed then NoEntropy else CircuitOpen))
  {
    hide Did, RoundsOk, Faithful, Carried, PromptAfter, Tied, Remembered;
    Then(r, w0, w1, w2, Opening(base) + Flatten(r.execution, rs), [Gate(ask)]);
    StaysPlaced(r, base, w1, w2, [Gate(ask)]);
    StaysRemembered(r, base, w0, w1, w2, [Gate(ask)]);
    Shown(r, w1, w2, [Gate(ask)]);
    FaithfulLater(r, |w0.LogOf(r.conversation)|, |base.opening|, rs, w1.LogOf(r.conversation),
        w2.LogOf(r.conversation));
  }
}
