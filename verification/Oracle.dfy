/** The world outside a run: the provider's, the context's and the breaker's part in every round. */
module Oracle {
  import opened Domain
  import opened Runs
  import B = Breaker
  import Retry
  import RunLaws
  import ToolLaws

  /** How a context ends. */
  datatype ContextEnd = Cancellation | Deadline

  function ErrorOf(e: ContextEnd): Error {
    if e.Cancellation? then Canceled else DeadlineExceeded
  }

  /** What happens outside the engine, as arbitrary functions of the round and the attempt or call within it. */
  datatype Outside = Outside(
    cancelled: nat -> Option<ContextEnd>,
    interrupted: (nat, nat) -> Option<Error>,
    jitter: (nat, nat) -> nat,
    fate: (nat, nat) -> Fate)

  /** When the context of round i ends a wait between two attempts. */
  function Interrupts(o: Outside, i: nat): nat -> Option<Error> {
    (k: nat) => o.interrupted(i, k)
  }

  /** The provider was asked until the replies said to stop, and the round's reply is what came of them. */
  ghost predicate Replied(o: Outside, i: nat, replies: seq<Result<Response>>, reply: Result<Response>) {
    && Retry.Tried(Retry.ENGINE_POLICY, replies, Interrupts(o, i))
    && reply == Retry.Resulting(Retry.ENGINE_POLICY, replies, Interrupts(o, i))
  }

  /** Round q went as the provider and the tools would have it. */
  ghost predicate Obeys(o: Outside, i: nat, q: Round) {
    && Replied(o, i, q.replies, q.reply)
    && forall j :: 0 <= j < |q.fan.fates| ==> q.fan.fates[j] == o.fate(i, j)
  }

  ghost predicate AllObey(o: Outside, rs: seq<Round>) {
    forall i :: 0 <= i < |rs| ==> Obeys(o, i, rs[i]) && o.cancelled(i).None?
  }

  /** The run looks for a further round after rs. */
  predicate Looks(opening: seq<Message>, rs: seq<Round>) {
    opening != [] && |rs| < MAX_STEPS && (rs != [] ==> GoesOn(rs[|rs| - 1]))
  }

  /** A run that looked for a further round either found its context ended, or asked the breaker. */
  ghost predicate Justified(o: Outside, opening: seq<Message>, rs: seq<Round>, knock: Option<B.Entry>, ending: Ending) {
    && AllObey(o, rs)
    && (Looks(opening, rs) ==>
          match o.cancelled(|rs|)
          case Some(end) => knock.None? && ending == Stopped(ErrorOf(end))
          case None => knock.Some?)
  }

  lemma ObeySnoc(o: Outside, rs: seq<Round>, q: Round)
    requires AllObey(o, rs) && Obeys(o, |rs|, q) && o.cancelled(|rs|).None?
    ensures AllObey(o, rs + [q])
  {
    hide Obeys;
  }

  // ---------- Why a run ended, in terms of the outside ----------

  /** A round whose context ended while it waited for its next attempt is the last, and ends the run for that cause. */
  lemma InterruptionEndsRun(o: Outside, run: Run, i: nat, e: Error)
    requires RunOk(run) && Justified(o, run.opening, run.rounds, run.knock, run.ending) && i < |run.rounds|
    requires var replies := run.rounds[i].replies;
             replies[|replies| - 1].Err? && |replies| < 3 && o.interrupted(i, |replies|) == Some(e)
    ensures i == |run.rounds| - 1 && run.ending == Stopped(e) && FinalOf(run).error == Some(e)
    ensures FinalOf(run).status == if IsCanceled(e) then Cancelled else Failed
  {
    hide Retry.Resulting;
    RoundMeans(o, run, i);
    RunLaws.Outcome(run);
  }

  /** What the provider answered a round with, and what the run made of it. */
  lemma RoundMeans(o: Outside, run: Run, i: nat)
    requires RunOk(run) && Justified(o, run.opening, run.rounds, run.knock, run.ending) && i < |run.rounds|
    ensures var q := run.rounds[i];
            && 1 <= |q.replies| <= 3
            && (forall k :: 0 <= k < |q.replies| - 1 ==> q.replies[k].Err? && o.interrupted(i, k + 1).None?)
            && var last := q.replies[|q.replies| - 1];
               if last.Err? && |q.replies| < 3 then
                 o.interrupted(i, |q.replies|).Some? && q.reply == Err(o.interrupted(i, |q.replies|).value)
               else q.reply == last
    ensures run.rounds[i].reply.Err? ==> i == |run.rounds| - 1 && run.ending == Stopped(run.rounds[i].reply.error)
  {
    hide RunOk, Obeys, Looks;
    var q := run.rounds[i];
    assert Obeys(o, i, q);
    AttemptsMean(o, i, q);
    if q.reply.Err? {
      ErrorIsLast(run, i);
    }
  }

  lemma AttemptsMean(o: Outside, i: nat, q: Round)
    requires Obeys(o, i, q)
    ensures 1 <= |q.replies| <= 3
    ensures forall k :: 0 <= k < |q.replies| - 1 ==> q.replies[k].Err? && o.interrupted(i, k + 1).None?
    ensures var last := q.replies[|q.replies| - 1];
            if last.Err? && |q.replies| < 3 then
              o.interrupted(i, |q.replies|).Some? && q.reply == Err(o.interrupted(i, |q.replies|).value)
            else q.reply == last
  {
    hide Retry.Resulting, Retry.Tried;
    Retry.ResultingIs(Retry.ENGINE_POLICY, q.replies, Interrupts(o, i));
    InterruptsAt(o, i, |q.replies|);
    LastAttempt(o, i, q.replies);
    forall k | 0 <= k < |q.replies| - 1 ensures q.replies[k].Err? && o.interrupted(i, k + 1).None? {
      AttemptFailed(o, i, q.replies, k);
    }
  }

  lemma LastAttempt(o: Outside, i: nat, replies: seq<Result<Response>>)
    requires Retry.Tried(Retry.ENGINE_POLICY, replies, Interrupts(o, i))
    ensures 1 <= |replies| <= 3
    ensures replies[|replies| - 1].Err? && |replies| < 3 ==> o.interrupted(i, |replies|).Some?
  {
    InterruptsAt(o, i, |replies|);
  }

  lemma AttemptFailed(o: Outside, i: nat, replies: seq<Result<Response>>, k: nat)
    requires Retry.Tried(Retry.ENGINE_POLICY, replies, Interrupts(o, i)) && k < |replies| - 1
    ensures replies[k].Err? && o.interrupted(i, k + 1).None?
  {
    assert replies[k].Err? && Interrupts(o, i)(k + 1).None?;
    InterruptsAt(o, i, k + 1);
  }

  lemma InterruptsAt(o: Outside, i: nat, k: nat)
    ensures Interrupts(o, i)(k) == o.interrupted(i, k)
  {
  }

  lemma ErrorIsLast(run: Run, i: nat)
    requires RunOk(run) && i < |run.rounds| && run.rounds[i].reply.Err?
    ensures i == |run.rounds| - 1 && run.ending == Stopped(run.rounds[i].reply.error)
  {
    assert RoundOk(run.start.id, run.start.conversationId, run.rounds[i]);
    assert !GoesOn(run.rounds[i]);
  }

  /** A run whose context has ended before a round, or between two, ends with the error of that context. */
  lemma CancellationEndsRun(o: Outside, run: Run)
    requires RunOk(run) && Justified(o, run.opening, run.rounds, run.knock, run.ending)
    requires run.opening != [] && |run.rounds| < 8 && o.cancelled(|run.rounds|).Some?
    requires run.rounds != [] ==> GoesOn(run.rounds[|run.rounds| - 1])
    ensures o.cancelled(|run.rounds|) == Some(Cancellation) ==>
              FinalOf(run).error == Some(Canceled) && FinalOf(run).status == Cancelled
    ensures o.cancelled(|run.rounds|) == Some(Deadline) ==>
              FinalOf(run).error == Some(DeadlineExceeded) && FinalOf(run).status == Failed
    ensures run.knock.None?
  {
    RunLaws.Outcome(run);
  }

  // ---------- The run's own calls of the breaker ----------

  lemma {:induction false} NoGates(l: seq<Action>)
    requires forall k :: 0 <= k < |l| ==> !l[k].Gate?
    ensures GatesIn(l) == []
  {
    if l != [] {
      NoGates(l[..|l| - 1]);
    }
  }

  lemma RoundGates(e: Id, c: Id, q: Round)
    requires RoundOk(e, c, q)
    ensures GatesIn(RoundLog(e, q)) == [q.ask, q.report]
  {
    var h := Head(e, q);
    var rest := Says(q.spoken) + q.fan.acts + Says(q.heard);
    forall k | 0 <= k < |rest| ensures !rest[k].Gate? {
      if |q.spoken| <= k < |q.spoken| + |q.fan.acts| {
        ToolLaws.FanActions(e, q.fan, k - |q.spoken|);
      }
    }
    NoGates(rest);
    assert RoundLog(e, q) == h + rest;
    CallsConcat(h, rest);
    HeadGates(e, q);
  }

  lemma HeadGates(e: Id, q: Round)
    ensures GatesIn(Head(e, q)) == [q.ask, q.report]
  {
    var h := Head(e, q);
    assert h == [h[0]] + [h[1], h[2]] + [h[3]] + [h[4]];
    CallsConcat([h[0]] + [h[1], h[2]] + [h[3]], [h[4]]);
    CallsConcat([h[0]] + [h[1], h[2]], [h[3]]);
    CallsConcat([h[0]], [h[1], h[2]]);
    NoGates([h[1], h[2]]);
    NoGates([h[4]]);
    assert [h[0]][..0] == [] && [h[3]][..0] == [];
  }

  lemma OpenAndClose(run: Run)
    ensures GatesIn(Opening(run)) == [] && GatesIn(Closing(run)) == []
    ensures GatesIn(Knocking(run)) == if run.knock.Some? then [run.knock.value] else []
  {
    NoGates(Opening(run));
    NoGates(Closing(run));
    if run.knock.Some? {
      assert Knocking(run)[..0] == [];
    }
  }

  lemma Strip<T>(a: seq<T>, b: seq<T>)
    ensures [] + a + b + [] == a + b
  {
  }

  lemma LogGates(run: Run)
    ensures GatesIn(Log(run)) ==
            GatesIn(Flatten(run.start.id, run.rounds)) + if run.knock.Some? then [run.knock.value] else []
  {
    hide Flatten, GatesIn, Opening, Knocking, Closing;
    var rounds := Flatten(run.start.id, run.rounds);
    OpenAndClose(run);
    CallsConcat(Opening(run) + rounds + Knocking(run), Closing(run));
    CallsConcat(Opening(run) + rounds, Knocking(run));
    CallsConcat(Opening(run), rounds);
    Strip(GatesIn(rounds), GatesIn(Knocking(run)));
  }

  lemma {:induction false} RoundsFollow(l: B.Line, e: Id, c: Id, rs: seq<Round>)
    requires forall i :: 0 <= i < |rs| ==> RoundOk(e, c, rs[i])
    requires !l.Broken?
    ensures !B.Follow(l, GatesIn(Flatten(e, rs))).Broken?
  {
    if rs != [] {
      var rs', q := rs[..|rs| - 1], rs[|rs| - 1];
      RoundsFollow(l, e, c, rs');
      CallsConcat(Flatten(e, rs'), RoundLog(e, q));
      RoundGates(e, c, q);
      B.FollowConcat(l, GatesIn(Flatten(e, rs')), [q.ask, q.report]);
      PairFollows(B.Follow(l, GatesIn(Flatten(e, rs'))), q);
    }
  }

  lemma PairFollows(l: B.Line, q: Round)
    requires Permitted(q.ask) && Reports(q.report, q.reply) && !l.Broken?
    ensures !B.Follow(l, [q.ask, q.report]).Broken?
  {
    assert [q.ask, q.report][..1] == [q.ask] && [q.ask][..0] == [];
    assert B.Follow(l, [q.ask]).Calling?;
  }

  /** A run keeps its worker disciplined: it reports exactly once the outcome of each call it was permitted to start. */
  lemma RunsAreDisciplined(run: Run, before: seq<B.Entry>)
    requires RunOk(run) && !B.Follow(B.Free, before).Broken?
    ensures !B.Follow(B.Free, before + GatesIn(Log(run))).Broken?
  {
    hide GoesOn, RoundOk;
    var gates := GatesIn(Flatten(run.start.id, run.rounds));
    LogGates(run);
    B.FollowConcat(B.Free, before, GatesIn(Log(run)));
    RoundsFollow(B.Follow(B.Free, before), run.start.id, run.start.conversationId, run.rounds);
    if run.knock.Some? {
      assert (gates + [run.knock.value])[..|gates|] == gates;
    } else {
      assert gates + [] == gates;
    }
  }
}
