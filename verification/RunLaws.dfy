/** Properties of the stored steps, counters and outcome of every run. */
module RunLaws {
  import opened Domain
  import opened Int64
  import opened Runs
  import opened Sequences
  import opened ToolLaws
  import B = Breaker
  import Retry

  // ---------- The stored steps ----------

  function LeadingTools(steps: seq<Step>): (n: nat)
    ensures n <= |steps|
  {
    if steps == [] || steps[0].kind.LlmStep? then 0 else 1 + LeadingTools(steps[1..])
  }

  predicate NoErrors(steps: seq<Step>) {
    forall i :: 0 <= i < |steps| ==> steps[i].error.None?
  }

  /**
   * Rounds: an LLM step reporting k calls, then at most k tool steps; a further round only after k > 0 error-free ones.
   */
  predicate StepRounds(steps: seq<Step>) {
    if steps == [] then true else
    && steps[0].kind.LlmStep?
    && match steps[0].output
       case Completion(_, k) =>
         var m := LeadingTools(steps[1..]);
         && m <= k
         && (m + 1 == |steps| || (m == k > 0 && NoErrors(steps[1..m + 1]) && StepRounds(steps[m + 1..])))
       case _ => |steps| == 1 && steps[0].error.Some?
  }

  /** ... of a run that succeeded: exactly k error-free tool steps in every round, and k == 0 only in the last. */
  predicate SucceededRounds(steps: seq<Step>) {
    && steps != []
    && steps[0].kind.LlmStep?
    && steps[0].output.Completion?
    && var k := steps[0].output.toolCallCount;
       && LeadingTools(steps[1..]) == k
       && NoErrors(steps[..k + 1])
       && if k == 0 then |steps| == 1 else SucceededRounds(steps[k + 1..])
  }

  /** The part of RunsOk that tails inherit. */
  ghost predicate Sequenced(e: Id, c: Id, rs: seq<Round>) {
    && (forall i :: 0 <= i < |rs| ==> RoundOk(e, c, rs[i]))
    && (forall i :: 0 <= i < |rs| - 1 ==> GoesOn(rs[i]))
  }

  lemma {:induction false} FlattenFront(e: Id, rs: seq<Round>)
    requires rs != []
    ensures Flatten(e, rs) == RoundLog(e, rs[0]) + Flatten(e, rs[1..])
  {
    var n := |rs| - 1;
    if n == 0 {
      assert rs[..0] == [];
    } else {
      var tail := rs[1..];
      assert tail[..n - 1] == rs[..n][1..] && tail[n - 1] == rs[n] && rs[..n][0] == rs[0];
      FlattenFront(e, rs[..n]);
      Associate(RoundLog(e, rs[0]), Flatten(e, rs[..n][1..]), RoundLog(e, rs[n]));
    }
  }

  lemma Pad<T>(a: seq<T>, b: seq<T>)
    ensures a + [] + b + [] == a + b
    ensures [] + a + [] + b == a + b
  {
  }

  lemma {:induction false} SaysSteps(ms: seq<Message>)
    ensures StepsIn(Says(ms)) == [] && EventsIn(Says(ms)) == [] && UpdatesIn(Says(ms)) == []
    ensures MessagesIn(Says(ms)) == ms
  {
    if ms != [] {
      var n := |ms| - 1;
      SaysSteps(ms[..n]);
      assert Says(ms)[..n] == Says(ms[..n]);
    }
  }

  lemma HeadFilters(e: Id, r: Round)
    ensures StepsIn(Head(e, r)) == [LlmStepOf(e, r)]
    ensures EventsIn(Head(e, r)) == [Event(e, AgentThinking, Some(r.stepId))]
    ensures MessagesIn(Head(e, r)) == [] && UpdatesIn(Head(e, r)) == []
  {
    var h := Head(e, r);
    assert h == [h[0], h[1]] + [h[2], h[3]] + [h[4]];
    FiltersConcat([h[0], h[1]] + [h[2], h[3]], [h[4]]);
    FiltersConcat([h[0], h[1]], [h[2], h[3]]);
    PairFilters(h[0], h[1]);
    PairFilters(h[2], h[3]);
  }

  lemma RoundFilters(e: Id, r: Round)
    requires FanOk(e, r.fan)
    ensures StepsIn(RoundLog(e, r)) == [LlmStepOf(e, r)] + StepsIn(r.fan.acts)
    ensures EventsIn(RoundLog(e, r)) == [Event(e, AgentThinking, Some(r.stepId))] + EventsIn(r.fan.acts)
    ensures MessagesIn(RoundLog(e, r)) == r.spoken + r.heard
    ensures UpdatesIn(RoundLog(e, r)) == []
  {
    HeadFilters(e, r);
    SaysSteps(r.spoken);
    SaysSteps(r.heard);
    FanSteps(e, r.fan);
    FourFilters(Head(e, r), Says(r.spoken), r.fan.acts, Says(r.heard));
    Pad([LlmStepOf(e, r)], StepsIn(r.fan.acts));
    Pad([Event(e, AgentThinking, Some(r.stepId))], EventsIn(r.fan.acts));
    Pad(r.spoken, r.heard);
    Pad<Execution>([], []);
  }

  lemma FourFilters(a: seq<Action>, b: seq<Action>, c: seq<Action>, d: seq<Action>)
    ensures StepsIn(a + b + c + d) == StepsIn(a) + StepsIn(b) + StepsIn(c) + StepsIn(d)
    ensures EventsIn(a + b + c + d) == EventsIn(a) + EventsIn(b) + EventsIn(c) + EventsIn(d)
    ensures MessagesIn(a + b + c + d) == MessagesIn(a) + MessagesIn(b) + MessagesIn(c) + MessagesIn(d)
    ensures UpdatesIn(a + b + c + d) == UpdatesIn(a) + UpdatesIn(b) + UpdatesIn(c) + UpdatesIn(d)
  {
    FiltersConcat(a + b + c, d);
    FiltersConcat(a + b, c);
    FiltersConcat(a, b);
  }

  lemma {:induction false} AllTools(steps: seq<Step>, rest: seq<Step>)
    requires forall i :: 0 <= i < |steps| ==> steps[i].kind.ToolStep?
    requires rest != [] ==> rest[0].kind.LlmStep?
    ensures LeadingTools(steps + rest) == |steps|
  {
    if steps == [] {
      assert steps + rest == rest;
    } else {
      AllTools(steps[1..], rest);
      assert (steps + rest)[1..] == steps[1..] + rest;
    }
  }

  /** A round's tool steps, against the number of calls its LLM step reports. */
  lemma RoundTools(e: Id, c: Id, r: Round)
    requires RoundOk(e, c, r)
    ensures var ts := StepsIn(r.fan.acts);
            && (forall j :: 0 <= j < |ts| ==> IsToolStep(e, ts[j]))
            && (r.reply.Err? ==> ts == [])
            && (r.reply.Ok? ==> |ts| <= |r.reply.value.toolCalls|)
            && (GoesOn(r) ==> |ts| == |r.reply.value.toolCalls| > 0 && NoErrors(ts))
  {
    FanSteps(e, r.fan);
    StoredAtMost(r.fan.fates);
    if GoesOn(r) {
      SequentialOkIff(r.fan.calls, r.fan.fates);
    }
  }

  lemma {:induction false} RoundsParse(e: Id, c: Id, rs: seq<Round>)
    requires Sequenced(e, c, rs)
    ensures StepRounds(StepsIn(Flatten(e, rs)))
    ensures rs != [] && Answers(rs[|rs| - 1]) ==> SucceededRounds(StepsIn(Flatten(e, rs)))
    decreases |rs|
  {
    hide *;
    if rs != [] {
      SequencedTail(e, c, rs);
      RoundsParse(e, c, rs[1..]);
      FrontSteps(e, c, rs);
      ParseRound(e, c, rs[0], StepsIn(Flatten(e, rs[1..])));
      if |rs| > 1 {
        assert rs[1..][|rs[1..]| - 1] == rs[|rs| - 1];
      } else {
        assert rs[1..] == [];
        NoSteps(e);
      }
    } else {
      NoSteps(e);
    }
  }

  lemma SequencedTail(e: Id, c: Id, rs: seq<Round>)
    requires Sequenced(e, c, rs) && rs != []
    ensures Sequenced(e, c, rs[1..]) && RoundOk(e, c, rs[0]) && (|rs| > 1 ==> GoesOn(rs[0]))
  {
    hide RoundOk, GoesOn;
  }

  lemma NoSteps(e: Id)
    ensures StepsIn(Flatten(e, [])) == [] && StepRounds([])
  {
  }

  lemma FrontSteps(e: Id, c: Id, rs: seq<Round>)
    requires rs != [] && RoundOk(e, c, rs[0])
    ensures StepsIn(Flatten(e, rs)) == [LlmStepOf(e, rs[0])] + StepsIn(rs[0].fan.acts) + StepsIn(Flatten(e, rs[1..]))
  {
    FlattenFront(e, rs);
    FiltersConcat(RoundLog(e, rs[0]), Flatten(e, rs[1..]));
    RoundFilters(e, rs[0]);
  }

  lemma ParseRound(e: Id, c: Id, r: Round, rest: seq<Step>)
    requires RoundOk(e, c, r) && StepRounds(rest)
    ensures var steps := [LlmStepOf(e, r)] + StepsIn(r.fan.acts) + rest;
            && (rest == [] || GoesOn(r) ==> StepRounds(steps))
            && (GoesOn(r) && SucceededRounds(rest) ==> SucceededRounds(steps))
            && (Answers(r) && rest == [] ==> SucceededRounds(steps))
  {
    RoundTools(e, c, r);
    ParseStep(LlmStepOf(e, r), StepsIn(r.fan.acts), rest);
  }

  /** Prepending one round to a parsed sequence of rounds. */
  lemma ParseStep(head: Step, tools: seq<Step>, rest: seq<Step>)
    requires head.kind.LlmStep?
    requires forall j :: 0 <= j < |tools| ==> tools[j].kind.ToolStep?
    requires StepRounds(rest)
    ensures head.output.NoOutput? && head.error.Some? && tools == [] && rest == [] ==> StepRounds([head] + tools + rest)
    ensures head.output.Completion? && |tools| <= head.output.toolCallCount && rest == [] ==>
              StepRounds([head] + tools + rest)
    ensures head.output.Completion? && |tools| == head.output.toolCallCount > 0 && NoErrors(tools) ==>
              StepRounds([head] + tools + rest)
    ensures head.output.Completion? && |tools| == head.output.toolCallCount > 0 && NoErrors([head] + tools)
              && SucceededRounds(rest)
            ==> SucceededRounds([head] + tools + rest)
    ensures head.output.Completion? && head.output.toolCallCount == 0 && tools == rest == [] && head.error.None? ==>
              SucceededRounds([head] + tools + rest)
  {
    var all := [head] + tools + rest;
    AllTools(tools, rest);
    assert all[1..] == tools + rest;
    assert all[1..|tools| + 1] == tools;
    assert all[|tools| + 1..] == rest;
    assert all[..|tools| + 1] == [head] + tools;
  }

  lemma LogFilters(run: Run)
    ensures StepsIn(Log(run)) == StepsIn(Flatten(run.start.id, run.rounds))
    ensures MessagesIn(Log(run)) == run.opening + MessagesIn(Flatten(run.start.id, run.rounds))
    ensures EventsIn(Log(run)) == [Event(run.start.id, AgentStarted, None)]
                                  + EventsIn(Flatten(run.start.id, run.rounds)) + [FinalEvent(run)]
    ensures UpdatesIn(Log(run)) == [MarkedRunning(run.start, run.startedAt)]
                                   + UpdatesIn(Flatten(run.start.id, run.rounds)) + [FinalOf(run)]
  {
    var rounds := Flatten(run.start.id, run.rounds);
    FourFilters(Opening(run), rounds, Knocking(run), Closing(run));
    OpeningFilters(run);
    KnockingFilters(run);
    ClosingFilters(run);
    assert StepsIn(rounds) + [] + [] == StepsIn(rounds);
    assert [] + StepsIn(rounds) == StepsIn(rounds);
  }

  lemma KnockingFilters(run: Run)
    ensures StepsIn(Knocking(run)) == [] && MessagesIn(Knocking(run)) == []
    ensures EventsIn(Knocking(run)) == [] && UpdatesIn(Knocking(run)) == []
  {
  }

  lemma OpeningFilters(run: Run)
    ensures StepsIn(Opening(run)) == []
    ensures MessagesIn(Opening(run)) == run.opening
    ensures EventsIn(Opening(run)) == [Event(run.start.id, AgentStarted, None)]
    ensures UpdatesIn(Opening(run)) == [MarkedRunning(run.start, run.startedAt)]
  {
    PairFilters(Marking(run)[0], Marking(run)[1]);
    SaysSteps(run.opening);
    FiltersConcat(Marking(run), Says(run.opening));
  }

  lemma ClosingFilters(run: Run)
    ensures StepsIn(Closing(run)) == [] && MessagesIn(Closing(run)) == []
    ensures EventsIn(Closing(run)) == [FinalEvent(run)]
    ensures UpdatesIn(Closing(run)) == [FinalOf(run)]
  {
    PairFilters(Closing(run)[0], Closing(run)[1]);
  }

  lemma PairFilters(a: Action, b: Action)
    ensures StepsIn([a, b]) == StepsIn([a]) + StepsIn([b])
    ensures EventsIn([a, b]) == EventsIn([a]) + EventsIn([b])
    ensures MessagesIn([a, b]) == MessagesIn([a]) + MessagesIn([b])
    ensures UpdatesIn([a, b]) == UpdatesIn([a]) + UpdatesIn([b])
  {
    assert [a, b] == [a] + [b];
    FiltersConcat([a], [b]);
  }

  /** The stored steps of every run form rounds, whatever the tool schedule; in a succeeded run they are complete. */
  lemma StepsFormRounds(run: Run)
    requires RunOk(run)
    ensures StepRounds(StepsIn(Log(run)))
    ensures run.ending.Done? ==> SucceededRounds(StepsIn(Log(run)))
  {
    hide RoundOk, StepRounds, SucceededRounds, StepsIn, Log, Flatten;
    LogFilters(run);
    RoundsParse(run.start.id, run.start.conversationId, run.rounds);
  }

  // ---------- Accounting ----------

  function RetriesOf(steps: seq<Step>): nat {
    if steps == [] then 0 else RetriesOf(steps[..|steps| - 1]) + steps[|steps| - 1].retryCount
  }

  function LlmSteps(steps: seq<Step>): nat {
    if steps == [] then 0 else LlmSteps(steps[..|steps| - 1]) + if steps[|steps| - 1].kind.LlmStep? then 1 else 0
  }

  lemma {:induction false} NoCalls(l: seq<Action>)
    requires forall k :: 0 <= k < |l| ==> !l[k].Ask?
    ensures ExchangesIn(l) == []
  {
    if l != [] {
      NoCalls(l[..|l| - 1]);
    }
  }

  lemma {:induction false} CountsConcat(a: seq<Step>, b: seq<Step>)
    ensures RetriesOf(a + b) == RetriesOf(a) + RetriesOf(b)
    ensures LlmSteps(a + b) == LlmSteps(a) + LlmSteps(b)
  {
    if b == [] {
      assert a + b == a;
    } else {
      assert (a + b)[..|a + b| - 1] == a + b[..|b| - 1];
      CountsConcat(a, b[..|b| - 1]);
    }
  }

  lemma {:induction false} ToolsCountNothing(e: Id, steps: seq<Step>)
    requires forall j :: 0 <= j < |steps| ==> IsToolStep(e, steps[j])
    ensures RetriesOf(steps) == 0 && LlmSteps(steps) == 0
  {
    if steps != [] {
      ToolsCountNothing(e, steps[..|steps| - 1]);
    }
  }

  function PromptTokens(rs: seq<Round>): int {
    if rs == [] then 0 else
    PromptTokens(rs[..|rs| - 1]) + match rs[|rs| - 1].reply case Ok(a) => a.promptTokens case Err(_) => 0
  }

  function OutputTokens(rs: seq<Round>): int {
    if rs == [] then 0 else
    OutputTokens(rs[..|rs| - 1]) + match rs[|rs| - 1].reply case Ok(a) => a.outputTokens case Err(_) => 0
  }

  lemma RoundCounts(e: Id, c: Id, r: Round)
    requires RoundOk(e, c, r)
    ensures RetriesOf(StepsIn(RoundLog(e, r))) == r.retries
    ensures LlmSteps(StepsIn(RoundLog(e, r))) == 1
  {
    RoundFilters(e, r);
    RoundTools(e, c, r);
    ToolsCountNothing(e, StepsIn(r.fan.acts));
    CountsConcat([LlmStepOf(e, r)], StepsIn(r.fan.acts));
    assert RetriesOf([LlmStepOf(e, r)]) == r.retries && LlmSteps([LlmStepOf(e, r)]) == 1;
  }

  lemma RoundCalls(e: Id, c: Id, r: Round)
    requires RoundOk(e, c, r)
    ensures ExchangesIn(RoundLog(e, r)) == Retry.Asked(r.prompt, r.replies)
  {
    HeadCalls(e, r);
    NoCalls(Says(r.spoken));
    NoCalls(Says(r.heard));
    forall k | 0 <= k < |r.fan.acts| ensures !r.fan.acts[k].Ask? {
      FanActions(e, r.fan, k);
    }
    NoCalls(r.fan.acts);
    CallsConcat(Head(e, r) + Says(r.spoken) + r.fan.acts, Says(r.heard));
    CallsConcat(Head(e, r) + Says(r.spoken), r.fan.acts);
    CallsConcat(Head(e, r), Says(r.spoken));
  }

  lemma HeadCalls(e: Id, r: Round)
    ensures ExchangesIn(Head(e, r)) == Retry.Asked(r.prompt, r.replies)
  {
    var h := Head(e, r);
    assert h == [h[0], h[1]] + [h[2]] + [h[3], h[4]];
    CallsConcat([h[0], h[1]] + [h[2]], [h[3], h[4]]);
    CallsConcat([h[0], h[1]], [h[2]]);
    NoCalls([h[0], h[1]]);
    NoCalls([h[3], h[4]]);
    assert [h[2]][..0] == [];
  }

  lemma {:induction false} RoundsRetries(e: Id, c: Id, x: Execution, rs: seq<Round>)
    requires forall i :: 0 <= i < |rs| ==> RoundOk(e, c, rs[i])
    ensures Carried(x, rs).retryCount == x.retryCount + RetriesOf(StepsIn(Flatten(e, rs)))
    ensures LlmSteps(StepsIn(Flatten(e, rs))) == |rs|
  {
    if rs != [] {
      var rs', r := rs[..|rs| - 1], rs[|rs| - 1];
      RoundsRetries(e, c, x, rs');
      RoundCounts(e, c, r);
      FiltersConcat(Flatten(e, rs'), RoundLog(e, r));
      CountsConcat(StepsIn(Flatten(e, rs')), StepsIn(RoundLog(e, r)));
    }
  }

  lemma {:induction false} RoundsCalls(e: Id, c: Id, x: Execution, rs: seq<Round>)
    requires forall i :: 0 <= i < |rs| ==> RoundOk(e, c, rs[i])
    ensures |ExchangesIn(Flatten(e, rs))| == Carried(x, rs).retryCount - x.retryCount + |rs|
    ensures |ExchangesIn(Flatten(e, rs))| <= |rs| * Retry.ENGINE_POLICY.maxAttempts
  {
    if rs != [] {
      RoundsCalls(e, c, x, rs[..|rs| - 1]);
      RoundCalls(e, c, rs[|rs| - 1]);
      CallsConcat(Flatten(e, rs[..|rs| - 1]), RoundLog(e, rs[|rs| - 1]));
    }
  }

  lemma {:induction false} RoundsTokens(x: Execution, rs: seq<Round>)
    requires Fits(x.promptTokens) && Fits(x.outputTokens)
    ensures Carried(x, rs).promptTokens == Wrap(x.promptTokens + PromptTokens(rs))
    ensures Carried(x, rs).outputTokens == Wrap(x.outputTokens + OutputTokens(rs))
  {
    if rs != [] {
      var rs', r := rs[..|rs| - 1], rs[|rs| - 1];
      RoundsTokens(x, rs');
      if r.reply.Ok? {
        WrapAdd(x.promptTokens + PromptTokens(rs'), r.reply.value.promptTokens);
        WrapAdd(x.outputTokens + OutputTokens(rs'), r.reply.value.outputTokens);
      }
    }
  }

  /** The stored counters of a run, starting from a fresh execution, account for exactly what it stored and called. */
  lemma Accounting(run: Run)
    requires RunOk(run)
    requires run.start.retryCount == 0 && run.start.promptTokens == 0 && run.start.outputTokens == 0
    ensures var steps := StepsIn(Log(run));
            && FinalOf(run).retryCount == RetriesOf(steps)
            && |ExchangesIn(Log(run))| == FinalOf(run).retryCount + LlmSteps(steps)
            && |ExchangesIn(Log(run))| <= 24
            && FinalOf(run).promptTokens == Wrap(PromptTokens(run.rounds))
            && FinalOf(run).outputTokens == Wrap(OutputTokens(run.rounds))
  {
    var e, c := run.start.id, run.start.conversationId;
    var x := MarkedRunning(run.start, run.startedAt);
    LogFilters(run);
    RoundsRetries(e, c, x, run.rounds);
    RoundsCalls(e, c, x, run.rounds);
    RoundsTokens(x, run.rounds);
    LogCalls(run);
  }

  lemma LogCalls(run: Run)
    ensures ExchangesIn(Log(run)) == ExchangesIn(Flatten(run.start.id, run.rounds))
  {
    var rounds := Flatten(run.start.id, run.rounds);
    NoCalls(Opening(run));
    NoCalls(Knocking(run));
    NoCalls(Closing(run));
    CallsConcat(Opening(run), rounds);
    CallsConcat(Opening(run) + rounds, Knocking(run));
    CallsConcat(Opening(run) + rounds + Knocking(run), Closing(run));
  }

  // ---------- Outcome ----------

  lemma {:induction false} CarriedKeeps(x: Execution, rs: seq<Round>)
    ensures var y := Carried(x, rs);
            && SameIdentity(y, x) && y.status == x.status && y.error == x.error
            && y.startedAt == x.startedAt && y.completedAt == x.completedAt
  {
    if rs != [] {
      CarriedKeeps(x, rs[..|rs| - 1]);
    }
  }

  lemma {:induction false} NoUpdates(e: Id, c: Id, rs: seq<Round>)
    requires forall i :: 0 <= i < |rs| ==> RoundOk(e, c, rs[i])
    ensures UpdatesIn(Flatten(e, rs)) == []
  {
    if rs != [] {
      NoUpdates(e, c, rs[..|rs| - 1]);
      FiltersConcat(Flatten(e, rs[..|rs| - 1]), RoundLog(e, rs[|rs| - 1]));
      RoundFilters(e, rs[|rs| - 1]);
    }
  }

  lemma LastMessage(run: Run)
    requires run.rounds != []
    requires RoundOk(run.start.id, run.start.conversationId, run.rounds[|run.rounds| - 1])
    requires Answers(run.rounds[|run.rounds| - 1])
    ensures var ms := MessagesIn(Log(run));
            ms != [] && Stores(ms[|ms| - 1], run.start.conversationId, Spoken(run.rounds[|run.rounds| - 1].reply.value))
  {
    var e, c, rs := run.start.id, run.start.conversationId, run.rounds;
    var n := |rs| - 1;
    LogFilters(run);
    FiltersConcat(Flatten(e, rs[..n]), RoundLog(e, rs[n]));
    AnswerMessages(e, c, rs[n]);
  }

  lemma AnswerMessages(e: Id, c: Id, r: Round)
    requires RoundOk(e, c, r) && Answers(r)
    ensures MessagesIn(RoundLog(e, r)) == [r.spoken[0]]
  {
    RoundFilters(e, r);
    SequentialMeaning(r.fan.calls, r.fan.fates);
  }

  /**
   * A run succeeds exactly when its last response asked for no tools and could be stored; that response is its output.
   */
  lemma Outcome(run: Run)
    requires RunOk(run)
    ensures var x, rs := FinalOf(run), run.rounds;
            && Terminal(x.status) && x.startedAt.Some? && x.completedAt.Some? && SameIdentity(x, run.start)
            && (x.status.Succeeded? <==>
                  && rs != [] && rs[|rs| - 1].reply.Ok? && rs[|rs| - 1].reply.value.toolCalls == []
                  && rs[|rs| - 1].spoken != [])
            && (x.status.Cancelled? <==> run.ending.Stopped? && IsCanceled(run.ending.cause))
            && (run.ending.Stopped? ==> x.error == Some(run.ending.cause))
            && (x.status.Succeeded? ==> x.output == rs[|rs| - 1].reply.value.content)
  {
    CarriedKeeps(MarkedRunning(run.start, run.startedAt), run.rounds);
  }

  /** The output of a succeeded run is the last message it appended to its conversation. */
  lemma OutputIsLastMessage(run: Run)
    requires RunOk(run) && FinalOf(run).status.Succeeded?
    ensures var ms := MessagesIn(Log(run));
            && ms != []
            && ms[|ms| - 1].conversationId == run.start.conversationId
            && ms[|ms| - 1].role == Assistant
            && ms[|ms| - 1].content == FinalOf(run).output
  {
    Outcome(run);
    LastMessage(run);
  }

  /**
   * The record is rewritten exactly twice: as running, before anything else, and as terminal, before the final event.
   */
  lemma TwoUpdates(run: Run)
    requires RunOk(run)
    ensures UpdatesIn(Log(run)) == [MarkedRunning(run.start, run.startedAt), FinalOf(run)]
    ensures Log(run)[0] == Update(MarkedRunning(run.start, run.startedAt))
    ensures Log(run)[|Log(run)| - 2..] == [Update(FinalOf(run)), Emit(FinalEvent(run))]
  {
    LogFilters(run);
    NoUpdates(run.start.id, run.start.conversationId, run.rounds);
  }

  // ---------- An example ----------

  const CALL := ToolCall("call", "calculator", "2+2")

  const QUESTION := Execution(0, Given("request"), "", 0, "alice", 0, "2+2", "", Queued, "", 0, 0, None, 0, None, None)

  const ALLOWED := B.Entry(0, B.Allow(0), true)

  const SUCCESS := B.Entry(0, B.Call.Success, true)

  const REQUEST := Response("", [CALL], 5, 1, "model")

  const ANSWER := Response("four", [], 7, 1, "model")

  /** The provider asks for the calculator, */
  const ASKING := Round(ALLOWED, 10, PromptAfter([], "2+2", []), 1, [Ok(REQUEST)], SUCCESS, 0, Ok(REQUEST),
                        [Message(2, 0, Assistant, "", "", "")],
                        Fan([CALL], [Returns("4")], [11], Part(0, CALL, Returns("4"), 11), [0, 0, 0]),
                        [Message(3, 0, ToolRole, "4", "call", "calculator")])

  /** and then, at the second attempt, answers. */
  const ANSWERING := Round(ALLOWED, 12, PromptAfter([], "2+2", [ASKING]), 3, [Err(External(500)), Ok(ANSWER)],
                           SUCCESS, 1, Ok(ANSWER), [Message(4, 0, Assistant, "four", "", "")], NO_FAN, [])

  const EXAMPLE := Run(QUESTION, 0, 0, [], [Message(1, 0, User, "2+2", "", "")], [ASKING, ANSWERING], None, Done, 1)

  /** There are runs with tools and retries. */
  lemma ExampleRun()
    ensures RunOk(EXAMPLE)
    ensures FinalOf(EXAMPLE).status == Succeeded && FinalOf(EXAMPLE).output == "four"
    ensures FinalOf(EXAMPLE).retryCount == 1
  {
    hide RoundsOk, RoundOk, GoesOn, Answers, FinalOf, PromptAfter;
    ExampleRounds();
    ExampleSequence();
    ExampleFinal();
  }

  lemma ExampleSequence()
    requires RoundOk(0, 0, ASKING) && GoesOn(ASKING) && RoundOk(0, 0, ANSWERING)
    ensures RoundsOk(0, 0, [], "2+2", [ASKING, ANSWERING])
  {
    hide RoundOk, GoesOn, PromptAfter;
    assert [ASKING, ANSWERING][..1] == [ASKING] && [ASKING, ANSWERING][..0] == [];
  }

  lemma ExampleFinal()
    ensures FinalOf(EXAMPLE).status == Succeeded && FinalOf(EXAMPLE).output == "four"
    ensures FinalOf(EXAMPLE).retryCount == 1
  {
    hide PromptAfter;
    assert [ASKING, ANSWERING][..1] == [ASKING] && [ASKING][..0] == [];
    var x := MarkedRunning(QUESTION, 0);
    assert Carried(x, [ASKING]) == Carry(x, ASKING);
    assert Carried(x, [ASKING, ANSWERING]) == Carry(Carry(x, ASKING), ANSWERING);
  }

  lemma ExampleRounds()
    ensures RoundOk(0, 0, ASKING) && GoesOn(ASKING) && RoundOk(0, 0, ANSWERING) && Answers(ANSWERING)
  {
    var f, part := ASKING.fan, Part(0, CALL, Returns("4"), 11);
    assert Parts(0, f) == [part];
    OnePart(part);
    SequentialMeaning(f.calls, f.fates);
    assert f.calls[..0] == [] && f.fates[..0] == [];
  }

  lemma OnePart(part: seq<Action>)
    requires |part| == 3
    ensures Shuffle(part, [0, 0, 0], [part])
  {
    assert part[..3] == part && part[..2][..1] == part[..1] && part[..1][..0] == [];
    assert Shuffle(part[..1], [0], [part[..1]]);
    assert [part[..2]][0 := part[..1]] == [part[..1]];
    assert [0, 0][..1] == [0] && [0, 0, 0][..2] == [0, 0];
    assert Shuffle(part[..2], [0, 0], [part[..2]]);
    assert [part][0 := part[..2]] == [part[..2]];
  }
}
