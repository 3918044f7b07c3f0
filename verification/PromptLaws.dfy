/** What the provider is shown, against what the conversation's log says. */
module PromptLaws {
  import opened Domain
  import opened Runs
  import opened Effects
  import opened Sequences
  import opened Progress
  import S = Store
  import RunLaws

  /** The messages that a run has stored before its round i. */
  function OwnBefore(run: Run, i: nat): seq<Message>
    requires i <= |run.rounds|
  {
    run.opening + MessagesIn(Flatten(run.start.id, run.rounds[..i]))
  }

  lemma {:induction false} PromptLength(e: Id, c: Id, history: seq<Message>, input: string, rs: seq<Round>)
    requires forall i :: 0 <= i < |rs| ==> RoundOk(e, c, rs[i]) && GoesOn(rs[i])
    ensures |PromptAfter(history, input, rs)| == |history| + 1 + |MessagesIn(Flatten(e, rs))|
  {
    if rs != [] {
      var rs', q := rs[..|rs| - 1], rs[|rs| - 1];
      PromptLength(e, c, history, input, rs');
      FiltersConcat(Flatten(e, rs'), RoundLog(e, q));
      RunLaws.RoundFilters(e, q);
      AddsStored(e, c, q);
    }
  }

  /**
   * Whatever other runs do, the prompt of every round is made of lines of the stored conversation in their order: the
   * history window and all this run has stored so far. A run alone on its conversation shows exactly the end of the
   * log.
   */
  lemma PromptsFollowLog(r: Ident, w0: Scene, w1: Scene, run: Run, i: nat)
    requires Performed(r, w0, w1, run) && r.execution == run.start.id && r.conversation == run.start.conversationId
    requires i < |run.rounds|
    ensures var before, log, q := w0.LogOf(r.conversation), w1.LogOf(r.conversation), run.rounds[i];
            && |before| + |OwnBefore(run, i)| <= q.seen <= |log|
            && Within(LinesOf(q.prompt), LogLines(log[..q.seen]))
            && |q.prompt| == |run.history| + |OwnBefore(run, i)|
            && (r.alone ==>
                  && run.history == (if |before| > 50 then before[|before| - 50..] else before)
                  && q.seen == |before| + |OwnBefore(run, i)|
                  && LinesOf(q.prompt) == LogLines(log[|before| - |run.history|..q.seen]))
  {
    hide Did, RunOk, Log, Flatten, PromptAfter, MessagesIn;
    var before, log, rs := w0.LogOf(r.conversation), w1.LogOf(r.conversation), run.rounds;
    assert Asked(r, |before| + |run.opening| + |MessagesIn(Flatten(r.execution, rs[..i]))|, rs[i], log);
    PromptOfRound(run, i);
    if r.alone {
      Shown(r, w0, w1, Log(run));
      AloneSuffix(r, before, log, run, rs[i], |OwnBefore(run, i)|);
    }
  }

  lemma PromptOfRound(run: Run, i: nat)
    requires RunOk(run) && i < |run.rounds|
    ensures |run.rounds[i].prompt| == |run.history| + |OwnBefore(run, i)| && run.opening != []
  {
    PromptLength(run.start.id, run.start.conversationId, run.history, run.start.input, run.rounds[..i]);
  }

  lemma AloneSuffix(r: Ident, before: seq<Message>, log: seq<Message>, run: Run, q: Round, own: nat)
    requires before <= log && run.history == S.Recent(log[..|before|], HISTORY)
    requires q.seen == |before| + own <= |log| && |q.prompt| == |run.history| + own
    requires Tied(r, q.prompt, log[..q.seen]) && r.alone
    ensures run.history == S.Recent(before, HISTORY)
    ensures LinesOf(q.prompt) == LogLines(log[|before| - |run.history|..q.seen])
  {
    assert log[..|before|] == before;
    assert log[..q.seen][q.seen - |q.prompt|..] == log[|before| - |run.history|..q.seen];
  }

  /** A run alone on its conversation leaves in it what was there, followed by its own messages and nothing else. */
  lemma AloneAppends(r: Ident, w0: Scene, w1: Scene, run: Run)
    requires Performed(r, w0, w1, run) && r.alone && r.execution == run.start.id
    ensures w1.LogOf(r.conversation) == w0.LogOf(r.conversation) + OwnBefore(run, |run.rounds|)
  {
    hide Did, RunOk, Log, Flatten, Faithful, Remembered, EventsIn, StepsIn, UpdatesIn, ExchangesIn, GatesIn,
      MessagesIn;
    Shown(r, w0, w1, Log(run));
    RunLaws.LogFilters(run);
    assert run.rounds[..|run.rounds|] == run.rounds;
  }
}
