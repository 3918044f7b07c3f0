/** What a run stores, publishes and ends with, field by field, in terms of what its provider and its tools answered. */
module Contents {
  import opened Domain
  import opened Runs
  import opened ToolLaws
  import RunLaws
  import EventLaws

  // ---------- One call of a tool ----------

  /** The actions at ks, in this order, are all that call i of a fan-out has done. */
  ghost predicate CallTells(e: Id, f: Fan, i: nat, acts: seq<Action>, ks: seq<nat>)
    requires |f.fates| == |f.ids| == |f.calls| && i < |f.calls|
    requires forall n :: 0 <= n < |ks| ==> ks[n] < |acts|
  {
    var call, id := f.calls[i], Some(f.ids[i]);
    match f.fates[i]
    case Missing => ks == []
    case NoId => ks == []
    case Unencodable(_) => |ks| == 1 && acts[ks[0]] == Emit(Event(e, ToolStarted, id))
    case Returns(v) =>
      && |ks| == 3
      && acts[ks[0]] == Emit(Event(e, ToolStarted, id))
      && acts[ks[1]] == AddStep(Step(f.ids[i], e, ToolStep, call.name, call.arguments, ToolResult(v), None, 0))
      && acts[ks[2]] == Emit(Event(e, ToolCompleted, id))
    case Raises(x) =>
      && |ks| == 3
      && acts[ks[0]] == Emit(Event(e, ToolStarted, id))
      && acts[ks[1]] == AddStep(Step(f.ids[i], e, ToolStep, call.name, call.arguments, NoOutput, Some(x), 0))
      && acts[ks[2]] == Emit(Event(e, ToolFailed, id))
  }

  predicate Increasing(ks: seq<nat>, bound: nat) {
    (forall m, n :: 0 <= m < n < |ks| ==> ks[m] < ks[n]) && forall n :: 0 <= n < |ks| ==> ks[n] < bound
  }

  lemma {:induction false} PlacesOf(acts: seq<Action>, who: seq<nat>, i: nat, n: nat) returns (ks: seq<nat>)
    requires |who| == |acts| && n <= |Project(acts, who, i)|
    ensures |ks| == n && Increasing(ks, |acts|)
    ensures forall m :: 0 <= m < n ==>
              who[ks[m]] == i && Earlier(acts, who, i, ks[m]) == m && acts[ks[m]] == Project(acts, who, i)[m]
  {
    if n == 0 {
      ks := [];
    } else {
      var before := PlacesOf(acts, who, i, n - 1);
      var k := PlaceOf(acts, who, i, n - 1);
      forall m | 0 <= m < n - 1 ensures before[m] < k {
        if k <= before[m] {
          EarlierGrows(acts, who, i, k, before[m]);
        }
      }
      ks := before + [k];
    }
  }

  /** Whatever the schedule, each call does just what its fate prescribes, in this order. */
  lemma CallInFan(e: Id, f: Fan, i: nat) returns (ks: seq<nat>)
    requires FanOk(e, f) && i < |f.calls|
    ensures Increasing(ks, |f.acts|) && CallTells(e, f, i, f.acts, ks)
    ensures forall n :: 0 <= n < |ks| ==> f.who[ks[n]] == i
    ensures forall k :: 0 <= k < |f.acts| && f.who[k] == i ==> k in ks
  {
    ShuffleProjects(f.acts, f.who, Parts(e, f), i);
    var part := Project(f.acts, f.who, i);
    ks := PlacesOf(f.acts, f.who, i, |part|);
    assert part == Part(e, f.calls[i], f.fates[i], f.ids[i]);
    forall k | 0 <= k < |f.acts| && f.who[k] == i ensures k in ks {
      OnlyPlace(f.acts, f.who, i, k, ks);
    }
  }

  lemma OnlyPlace(acts: seq<Action>, who: seq<nat>, i: nat, k: nat, ks: seq<nat>)
    requires |who| == |acts| && k < |acts| && who[k] == i && |ks| == |Project(acts, who, i)| && Increasing(ks, |acts|)
    requires forall m :: 0 <= m < |ks| ==> who[ks[m]] == i && Earlier(acts, who, i, ks[m]) == m
    ensures k in ks
  {
    FoundInPart(acts, who, i, k);
    var m := Earlier(acts, who, i, k);
    SamePlace(acts, who, i, k, ks[m]);
  }

  lemma SamePlace(acts: seq<Action>, who: seq<nat>, i: nat, j: nat, k: nat)
    requires |who| == |acts| && j < |acts| && k < |acts| && who[j] == i && who[k] == i
    requires Earlier(acts, who, i, j) == Earlier(acts, who, i, k)
    ensures j == k
  {
    if j < k {
      OneMore(acts, who, i, j);
      EarlierGrows(acts, who, i, j + 1, k);
    } else if k < j {
      OneMore(acts, who, i, k);
      EarlierGrows(acts, who, i, k + 1, j);
    }
  }

  lemma OneMore(acts: seq<Action>, who: seq<nat>, i: nat, k: nat)
    requires |who| == |acts| && k < |acts| && who[k] == i
    ensures Earlier(acts, who, i, k + 1) == Earlier(acts, who, i, k) + 1
  {
    assert acts[..k + 1][..k] == acts[..k] && who[..k + 1][..k] == who[..k];
  }

  /** A tool event belongs to a call, whose fate it tells, and follows the step that says the same. */
  lemma ToolEventInFan(e: Id, f: Fan, k: nat) returns (i: nat, j: nat)
    requires FanOk(e, f) && k < |f.acts| && f.acts[k].Emit?
    ensures i < |f.calls| && EventTells(e, f, i, f.acts, j, k)
  {
    ShuffleOrigin(f.acts, f.who, Parts(e, f), k);
    i := f.who[k];
    var ks := CallInFan(e, f, i);
    assert k in ks;
    j := if |ks| == 3 then ks[1] else 0;
  }

  /** Event k is one of call i; if it ends the call, step j before it records the same end. */
  ghost predicate EventTells(e: Id, f: Fan, i: nat, acts: seq<Action>, j: nat, k: nat)
    requires k < |acts| && acts[k].Emit?
  {
    && |f.fates| == |f.ids| == |f.calls| && i < |f.calls|
    && var v, call := acts[k].event, f.calls[i];
       && v.executionId == e && v.stepId == Some(f.ids[i])
       && v.kind in {ToolStarted, ToolCompleted, ToolFailed}
       && (v.kind.ToolCompleted? ==>
             && f.fates[i].Returns? && j < k
             && acts[j] == AddStep(Step(f.ids[i], e, ToolStep, call.name, call.arguments,
                                        ToolResult(f.fates[i].value), None, 0)))
       && (v.kind.ToolFailed? ==>
             && f.fates[i].Raises? && j < k
             && acts[j] == AddStep(Step(f.ids[i], e, ToolStep, call.name, call.arguments,
                                        NoOutput, Some(f.fates[i].error), 0)))
  }

  // ---------- The order of a round ----------

  /** Where the actions of round i begin. */
  function Begins(run: Run, i: nat): nat
    requires i <= |run.rounds|
  {
    2 + |run.opening| + |Flatten(run.start.id, run.rounds[..i])|
  }

  lemma {:induction false} RoundInFlatten(e: Id, rs: seq<Round>, i: nat)
    requires i < |rs|
    ensures |Flatten(e, rs[..i])| + |RoundLog(e, rs[i])| <= |Flatten(e, rs)|
    ensures Flatten(e, rs)[|Flatten(e, rs[..i])|..|Flatten(e, rs[..i])| + |RoundLog(e, rs[i])|] == RoundLog(e, rs[i])
  {
    hide RoundLog;
    var n := |rs| - 1;
    if i < n {
      RoundInFlatten(e, rs[..n], i);
      assert rs[..n][..i] == rs[..i];
      var a, b := |Flatten(e, rs[..i])|, |Flatten(e, rs[..i])| + |RoundLog(e, rs[i])|;
      assert Flatten(e, rs)[a..b] == Flatten(e, rs[..n])[a..b];
    }
  }

  lemma RoundInLog(run: Run, i: nat)
    requires i < |run.rounds|
    ensures var n, l := Begins(run, i), RoundLog(run.start.id, run.rounds[i]);
            n + |l| <= |Log(run)| && Log(run)[n..n + |l|] == l
  {
    hide RoundLog, Flatten;
    var e := run.start.id;
    RoundInFlatten(e, run.rounds, i);
    var mid, l := Flatten(e, run.rounds), RoundLog(e, run.rounds[i]);
    var m := |Flatten(e, run.rounds[..i])|;
    var rest := Knocking(run) + Closing(run);
    assert Log(run) == Opening(run) + mid + rest;
    Middle(Opening(run), mid, rest, m, m + |l|);
  }

  lemma Middle<T>(a: seq<T>, b: seq<T>, c: seq<T>, m: nat, n: nat)
    requires m <= n <= |b|
    ensures (a + b + c)[|a| + m..|a| + n] == b[m..n]
  {
  }

  /** A run begins by marking its record as running, announcing itself, and storing its user's message. */
  lemma OpeningInOrder(run: Run)
    requires RunOk(run)
    ensures |Log(run)| >= 2 + |run.opening| && |run.opening| <= 1
    ensures Log(run)[0] == Update(run.start.(status := Running, startedAt := Some(run.startedAt)))
    ensures Log(run)[1] == Emit(Event(run.start.id, AgentStarted, None))
    ensures run.opening != [] ==>
              && Log(run)[2] == AddMessage(run.opening[0])
              && run.opening[0].conversationId == run.start.conversationId && run.opening[0].role == User
              && run.opening[0].content == run.start.input
              && run.opening[0].toolCallId == "" && run.opening[0].name == ""
  {
    hide Flatten, RoundsOk, EndingOk;
    if run.opening != [] {
      assert Opening(run)[2] == AddMessage(run.opening[0]);
    }
  }

  /**
   * Each round asks the breaker, is permitted, announces itself, asks the provider, reports to the breaker how that
   * went, and records it; then stores what the provider said, runs the tools, and stores what they returned.
   */
  lemma RoundInOrder(run: Run, i: nat)
    requires RunOk(run) && i < |run.rounds|
    ensures var n, e, q, l := Begins(run, i), run.start.id, run.rounds[i], Log(run);
            && n + 5 + |q.spoken| + |q.fan.acts| + |q.heard| <= |l|
            && l[n] == Gate(q.ask) && q.ask.call.Allow? && q.ask.allowed
            && l[n + 1] == Emit(Event(e, AgentThinking, Some(q.stepId)))
            && l[n + 2] == Action.Ask(q.prompt, q.seen, q.replies)
            && l[n + 3] == Gate(q.report)
            && (if q.reply.Ok? then q.report.call.Success? else q.report.call.Failure?)
            && l[n + 4] == AddStep(
                 match q.reply
                 case Ok(a) => Step(q.stepId, e, LlmStep, "completion", "", Completion(a.content, |a.toolCalls|), None,
                                    |q.replies| - 1)
                 case Err(x) => Step(q.stepId, e, LlmStep, "completion", "", NoOutput, Some(x), |q.replies| - 1))
            && (forall j :: 0 <= j < |q.spoken| ==> l[n + 5 + j] == AddMessage(q.spoken[j]))
            && (forall j :: 0 <= j < |q.fan.acts| ==> l[n + 5 + |q.spoken| + j] == q.fan.acts[j])
            && (forall j :: 0 <= j < |q.heard| ==>
                  l[n + 5 + |q.spoken| + |q.fan.acts| + j] == AddMessage(q.heard[j]))
  {
    hide *;
    var e, q := run.start.id, run.rounds[i];
    RoundInLog(run, i);
    RoundIsOk(run, i);
    RoundLogInOrder(e, q, Log(run), Begins(run, i));
    HeadInOrder(e, run.start.conversationId, q, Log(run), Begins(run, i));
  }

  lemma RoundIsOk(run: Run, i: nat)
    requires RunOk(run) && i < |run.rounds|
    ensures RoundOk(run.start.id, run.start.conversationId, run.rounds[i]) && FanOk(run.start.id, run.rounds[i].fan)
  {
    hide FanOk, GoesOn, Stores;
  }

  lemma HeadInOrder(e: Id, c: Id, q: Round, l: seq<Action>, n: nat)
    requires RoundOk(e, c, q) && n + 5 <= |l| && forall j :: 0 <= j < 5 ==> l[n + j] == Head(e, q)[j]
    ensures l[n] == Gate(q.ask) && q.ask.call.Allow? && q.ask.allowed
    ensures l[n + 1] == Emit(Event(e, AgentThinking, Some(q.stepId)))
    ensures l[n + 2] == Action.Ask(q.prompt, q.seen, q.replies)
    ensures l[n + 3] == Gate(q.report)
    ensures if q.reply.Ok? then q.report.call.Success? else q.report.call.Failure?
    ensures l[n + 4] == AddStep(
              match q.reply
              case Ok(a) => Step(q.stepId, e, LlmStep, "completion", "", Completion(a.content, |a.toolCalls|), None,
                                 |q.replies| - 1)
              case Err(x) => Step(q.stepId, e, LlmStep, "completion", "", NoOutput, Some(x), |q.replies| - 1))
    ensures |q.replies| >= 1
  {
    hide FanOk, Stores, Sequential;
    var h := Head(e, q);
    assert l[n + 0] == h[0] && l[n + 1] == h[1] && l[n + 2] == h[2] && l[n + 3] == h[3] && l[n + 4] == h[4];
  }

  lemma RoundLogInOrder(e: Id, q: Round, l: seq<Action>, n: nat)
    requires n + |RoundLog(e, q)| <= |l| && l[n..n + |RoundLog(e, q)|] == RoundLog(e, q)
    ensures |RoundLog(e, q)| == 5 + |q.spoken| + |q.fan.acts| + |q.heard|
    ensures forall j :: 0 <= j < 5 ==> l[n + j] == Head(e, q)[j]
    ensures forall j :: 0 <= j < |q.spoken| ==> l[n + 5 + j] == AddMessage(q.spoken[j])
    ensures forall j :: 0 <= j < |q.fan.acts| ==> l[n + 5 + |q.spoken| + j] == q.fan.acts[j]
    ensures forall j :: 0 <= j < |q.heard| ==> l[n + 5 + |q.spoken| + |q.fan.acts| + j] == AddMessage(q.heard[j])
  {
    var r := RoundLog(e, q);
    var a, b := 5 + |q.spoken|, 5 + |q.spoken| + |q.fan.acts|;
    assert forall j :: 0 <= j < |r| ==> l[n + j] == r[j];
    forall j | 0 <= j < 5 ensures l[n + j] == Head(e, q)[j] { assert l[n + j] == r[j]; }
    forall j | 0 <= j < |q.spoken| ensures l[n + 5 + j] == AddMessage(q.spoken[j]) {
      assert l[n + (5 + j)] == r[5 + j];
    }
    forall j | 0 <= j < |q.fan.acts| ensures l[n + a + j] == q.fan.acts[j] { assert l[n + (a + j)] == r[a + j]; }
    forall j | 0 <= j < |q.heard| ensures l[n + b + j] == AddMessage(q.heard[j]) {
      assert l[n + (b + j)] == r[b + j];
    }
  }

  /** The messages of a round are what the provider said, and what the tools returned to its calls, in their order. */
  lemma RoundMessages(run: Run, i: nat)
    requires RunOk(run) && i < |run.rounds|
    ensures var q := run.rounds[i];
            && |q.spoken| <= 1 && (q.reply.Err? ==> q.spoken == [])
            && (q.spoken == [] ==> q.fan.calls == [] && q.fan.acts == [] && q.heard == [])
            && (q.spoken != [] ==>
                  && q.spoken[0].conversationId == run.start.conversationId && q.spoken[0].role == Assistant
                  && q.spoken[0].content == q.reply.value.content
                  && q.spoken[0].toolCallId == "" && q.spoken[0].name == ""
                  && q.fan.calls == q.reply.value.toolCalls && |q.fan.fates| == |q.fan.calls|)
    ensures var q := run.rounds[i];
            && |q.heard| <= |q.fan.calls| == |q.fan.fates|
            && (q.heard != [] ==> forall j :: 0 <= j < |q.fan.fates| ==> q.fan.fates[j].Returns?)
            && forall j :: 0 <= j < |q.heard| ==>
                 && q.heard[j].conversationId == run.start.conversationId && q.heard[j].role == ToolRole
                 && q.heard[j].content == q.fan.fates[j].value
                 && q.heard[j].toolCallId == q.fan.calls[j].id && q.heard[j].name == q.fan.calls[j].name
  {
    hide GoesOn, EndingOk, Shuffle;
    var q := run.rounds[i];
    RoundIsOk(run, i);
    SequentialMeaning(q.fan.calls, q.fan.fates);
  }

  // ---------- What the provider is asked with ----------

  /** The first round asks with the history, as it was stored, and the user's input. */
  lemma PromptStarts(run: Run)
    requires RunOk(run) && run.rounds != []
    ensures var p, h := run.rounds[0].prompt, run.history;
            && |p| == |h| + 1 && p[|h|] == Prompt(User, run.start.input, "", "")
            && forall j :: 0 <= j < |h| ==> p[j] == Prompt(h[j].role, h[j].content, "", h[j].toolCallId)
  {
    hide RoundOk, GoesOn, EndingOk;
    assert run.rounds[..0] == [];
  }

  /** Each further round asks with what was said in the round before in addition. */
  lemma PromptGrows(run: Run, i: nat)
    requires RunOk(run) && i + 1 < |run.rounds|
    ensures var q, p, r := run.rounds[i], run.rounds[i].prompt, run.rounds[i + 1].prompt;
            && q.reply.Ok? && |q.fan.calls| == |q.fan.fates| && |r| == |p| + 1 + |q.fan.calls| && r[..|p|] == p
            && r[|p|] == Prompt(Assistant, q.reply.value.content, "", "")
            && forall j :: 0 <= j < |q.fan.calls| ==>
                 && q.fan.fates[j].Returns?
                 && r[|p| + 1 + j] == Prompt(ToolRole, q.fan.fates[j].value, q.fan.calls[j].name, q.fan.calls[j].id)
  {
    hide RoundOk, EndingOk;
    var q := run.rounds[i];
    RoundIsOk(run, i);
    assert GoesOn(q) && run.rounds[..i + 1][..i] == run.rounds[..i];
    SequentialMeaning(q.fan.calls, q.fan.fates);
    NextPrompt(run, i, Sequential(q.fan.calls, q.fan.fates).value);
  }

  lemma NextPrompt(run: Run, i: nat, ps: seq<Prompt>)
    requires RoundsOk(run.start.id, run.start.conversationId, run.history, run.start.input, run.rounds)
    requires i + 1 < |run.rounds| && GoesOn(run.rounds[i])
    requires Sequential(run.rounds[i].fan.calls, run.rounds[i].fan.fates) == Ok(ps)
    ensures run.rounds[i + 1].prompt == run.rounds[i].prompt + [Spoken(run.rounds[i].reply.value)] + ps
  {
    hide RoundOk, NewerThan, PromptAfter;
    OneRoundMore(run.history, run.start.input, run.rounds, i);
    assert run.rounds[i + 1].prompt == PromptAfter(run.history, run.start.input, run.rounds[..i + 1]);
    assert run.rounds[i].prompt == PromptAfter(run.history, run.start.input, run.rounds[..i]);
  }

  lemma OneRoundMore(history: seq<Message>, input: string, rs: seq<Round>, i: nat)
    requires i < |rs|
    ensures PromptAfter(history, input, rs[..i + 1]) == PromptAfter(history, input, rs[..i]) + Adds(rs[i])
  {
    hide Adds;
    assert rs[..i + 1][..i] == rs[..i];
  }

  // ---------- Tool events and steps in the log of a run ----------

  /** Where the tool actions of round i begin. */
  function FanBegins(run: Run, i: nat): nat
    requires i < |run.rounds|
  {
    Begins(run, i) + 5 + |run.rounds[i].spoken|
  }

  predicate FanIn(run: Run, i: nat) {
    && i < |run.rounds|
    && FanBegins(run, i) + |run.rounds[i].fan.acts| <= |Log(run)|
    && Log(run)[FanBegins(run, i)..FanBegins(run, i) + |run.rounds[i].fan.acts|] == run.rounds[i].fan.acts
  }

  lemma FanInLog(run: Run, i: nat)
    requires RunOk(run) && i < |run.rounds|
    ensures FanIn(run, i) && FanOk(run.start.id, run.rounds[i].fan)
  {
    hide Log, Flatten, FanOk, RunOk, RoundOk, Begins;
    RoundInOrder(run, i);
    RoundIsOk(run, i);
    var l, n, acts := Log(run), FanBegins(run, i), run.rounds[i].fan.acts;
    assert l[n..n + |acts|] == acts;
  }

  /**
   * In every run each tool call is recorded and announced just as it went, in the part of the log that is its round's.
   */
  lemma CallInLog(run: Run, i: nat, j: nat) returns (ks: seq<nat>)
    requires RunOk(run) && i < |run.rounds| && j < |run.rounds[i].fan.calls|
    ensures Increasing(ks, |Log(run)|) && FanOk(run.start.id, run.rounds[i].fan)
    ensures CallTells(run.start.id, run.rounds[i].fan, j, Log(run), ks)
  {
    hide Log, RunOk, FanOk, Begins;
    FanInLog(run, i);
    var n, f := FanBegins(run, i), run.rounds[i].fan;
    var at := CallInFan(run.start.id, f, j);
    ks := seq(|at|, m requires 0 <= m < |at| => n + at[m]);
    forall m | 0 <= m < |at| ensures ks[m] < |Log(run)| && Log(run)[ks[m]] == f.acts[at[m]] {
      InFan(run, i, at[m]);
    }
  }

  lemma InFan(run: Run, i: nat, m: nat)
    requires FanIn(run, i) && m < |run.rounds[i].fan.acts|
    ensures FanBegins(run, i) + m < |Log(run)| && Log(run)[FanBegins(run, i) + m] == run.rounds[i].fan.acts[m]
  {
    var l, n, acts := Log(run), FanBegins(run, i), run.rounds[i].fan.acts;
    assert l[n..n + |acts|][m] == l[n + m];
  }

  predicate OfTool(v: Event) {
    v.kind in {ToolStarted, ToolCompleted, ToolFailed}
  }

  /** The tool events in a round's actions are in its fan-out. */
  lemma RoundActionAt(e: Id, q: Round, k: nat)
    requires k < |RoundLog(e, q)|
    ensures |RoundLog(e, q)| == 5 + |q.spoken| + |q.fan.acts| + |q.heard|
    ensures if 5 + |q.spoken| <= k < 5 + |q.spoken| + |q.fan.acts| then
              RoundLog(e, q)[k] == q.fan.acts[k - 5 - |q.spoken|]
            else !(RoundLog(e, q)[k].Emit? && OfTool(RoundLog(e, q)[k].event))
  {
    var r := RoundLog(e, q);
    var a := 5 + |q.spoken|;
    var b := a + |q.fan.acts|;
    if k < 5 {
      assert r[k] == Head(e, q)[k];
    } else if k < a {
      assert r[k] == AddMessage(q.spoken[k - 5]);
    } else if k >= b {
      assert r[k] == AddMessage(q.heard[k - b]);
    }
  }

  lemma ToolEventInRound(e: Id, q: Round, k: nat) returns (m: nat)
    requires k < |RoundLog(e, q)| && RoundLog(e, q)[k].Emit? && OfTool(RoundLog(e, q)[k].event)
    ensures m < |q.fan.acts| && k == 5 + |q.spoken| + m && RoundLog(e, q)[k] == q.fan.acts[m]
  {
    hide RoundLog;
    RoundActionAt(e, q, k);
    m := k - 5 - |q.spoken|;
  }

  lemma {:induction false} ToolEventInRounds(e: Id, rs: seq<Round>, k: nat) returns (i: nat, m: nat)
    requires k < |Flatten(e, rs)| && Flatten(e, rs)[k].Emit? && OfTool(Flatten(e, rs)[k].event)
    ensures i < |rs| && m < |rs[i].fan.acts| && k == |Flatten(e, rs[..i])| + 5 + |rs[i].spoken| + m
    ensures Flatten(e, rs)[k] == rs[i].fan.acts[m]
  {
    var n := |rs| - 1;
    var before := |Flatten(e, rs[..n])|;
    if k < before {
      i, m := ToolEventInRounds(e, rs[..n], k);
      assert rs[..n][..i] == rs[..i];
    } else {
      i := n;
      m := ToolEventInRound(e, rs[n], k - before);
    }
  }

  lemma ToolEventInLog(run: Run, k: nat) returns (i: nat, m: nat)
    requires RunOk(run) && k < |Log(run)| && Log(run)[k].Emit? && OfTool(Log(run)[k].event)
    ensures i < |run.rounds| && m < |run.rounds[i].fan.acts| && k == FanBegins(run, i) + m
    ensures Log(run)[k] == run.rounds[i].fan.acts[m]
  {
    hide Log, Flatten, RunOk;
    EventLaws.LogParts(run, k);
    OpeningActionAt(run, k);
    i, m := ToolEventInRounds(run.start.id, run.rounds, k - 2 - |run.opening|);
  }

  lemma OpeningActionAt(run: Run, k: nat)
    ensures |Opening(run)| == 2 + |run.opening|
    ensures k < |Opening(run)| ==> !(Opening(run)[k].Emit? && OfTool(Opening(run)[k].event))
  {
    if 2 <= k < |Opening(run)| {
      assert Opening(run)[k] == AddMessage(run.opening[k - 2]);
    }
  }

  /**
   * In every run, whatever the schedule: a completed event comes after a stored step with the same identifier, without
   * an error, and with the result that its call returned; a failed event comes after one with the error that its call
   * raised.
   */
  lemma ToolEventsTell(run: Run, k: nat) returns (i: nat, j: nat, m: nat)
    requires RunOk(run) && k < |Log(run)| && Log(run)[k].Emit? && OfTool(Log(run)[k].event)
    ensures i < |run.rounds| && EventTells(run.start.id, run.rounds[i].fan, j, Log(run), m, k)
  {
    hide Log, RunOk, FanOk, Begins;
    var at;
    i, at := ToolEventInLog(run, k);
    FanInLog(run, i);
    var step;
    j, step := ToolEventInFan(run.start.id, run.rounds[i].fan, at);
    m := FanBegins(run, i) + step;
    if step < at {
      InFan(run, i, step);
    }
  }

  // ---------- The final record ----------

  /** The model of the last successful reply. */
  function LastModel(rs: seq<Round>, before: string): string {
    if rs == [] then before
    else match rs[|rs| - 1].reply
         case Ok(a) => a.model
         case Err(_) => LastModel(rs[..|rs| - 1], before)
  }

  /** The content of the last reply without tool calls. */
  function LastAnswer(rs: seq<Round>, before: string): string {
    if rs == [] then before
    else match rs[|rs| - 1].reply
         case Ok(a) => if a.toolCalls == [] then a.content else LastAnswer(rs[..|rs| - 1], before)
         case Err(_) => LastAnswer(rs[..|rs| - 1], before)
  }

  lemma {:induction false} CarriedReplies(x: Execution, rs: seq<Round>)
    ensures Carried(x, rs).model == LastModel(rs, x.model)
    ensures Carried(x, rs).output == LastAnswer(rs, x.output)
  {
    if rs != [] {
      CarriedReplies(x, rs[..|rs| - 1]);
    }
  }

  /**
   * The final record names the model of the last successful reply, and carries the content of the last reply without
   * tool calls; if there was none, it keeps what the execution started with.
   */
  lemma FinalReplies(run: Run)
    ensures FinalOf(run).model == LastModel(run.rounds, run.start.model)
    ensures FinalOf(run).output == LastAnswer(run.rounds, run.start.output)
  {
    CarriedReplies(MarkedRunning(run.start, run.startedAt), run.rounds);
  }

  lemma {:induction false} CarriedRest(x: Execution, rs: seq<Round>)
    ensures var y := Carried(x, rs);
            y == x.(retryCount := y.retryCount, model := y.model, output := y.output,
                    promptTokens := y.promptTokens, outputTokens := y.outputTokens)
  {
    if rs != [] {
      CarriedRest(x, rs[..|rs| - 1]);
    }
  }

  /** Besides status, error, times, counters, model and output the final record is the one the run started with. */
  lemma FinalRest(run: Run)
    requires RunOk(run)
    ensures var y := FinalOf(run);
            && y == run.start.(status := y.status, error := y.error, startedAt := y.startedAt,
                               completedAt := y.completedAt, retryCount := y.retryCount, model := y.model,
                               output := y.output, promptTokens := y.promptTokens, outputTokens := y.outputTokens)
            && y.startedAt == Some(run.startedAt) && y.completedAt == Some(run.completedAt)
            && (run.ending.Done? ==> y.error == run.start.error)
  {
    CarriedRest(MarkedRunning(run.start, run.startedAt), run.rounds);
  }

  // ---------- The cause ----------

  /** Tool call j is the first of its round that failed, with this error. */
  predicate FirstFailure(q: Round, j: nat, e: Error) {
    && j < |q.fan.calls| == |q.fan.fates| && Fails(q.fan.calls[j], q.fan.fates[j], e)
    && forall i :: 0 <= i < j ==> q.fan.fates[i].Returns?
  }

  /** All messages of the round have been stored, and it asked for tools. */
  predicate Continued(q: Round) {
    && q.reply.Ok? && q.reply.value.toolCalls != [] && q.spoken != []
    && |q.fan.fates| == |q.fan.calls| && (forall i :: 0 <= i < |q.fan.fates| ==> q.fan.fates[i].Returns?)
    && |q.heard| == |q.reply.value.toolCalls|
  }

  lemma ContinuedIff(e: Id, c: Id, q: Round)
    requires RoundOk(e, c, q)
    ensures GoesOn(q) <==> Continued(q)
  {
    hide Shuffle, Stores;
    SequentialOkIff(q.fan.calls, q.fan.fates);
  }

  /**
   * The cause of a run that stopped: the provider's error, the first failing tool's, or a missing identifier for a
   * message if its last round did not continue; otherwise that there are no more than eight rounds, the end of its
   * context, the breaker's refusal, a missing identifier, or a conversation that could not be read.
   */
  lemma Causes(run: Run)
    requires RunOk(run) && run.ending.Stopped?
    ensures forall i :: 0 <= i < |run.rounds| - 1 ==> Continued(run.rounds[i])
    ensures var rs, cause := run.rounds, run.ending.cause;
            if rs != [] && !Continued(rs[|rs| - 1]) then
              var q := rs[|rs| - 1];
              if q.reply.Err? then cause == q.reply.error
              else if q.spoken == [] then cause == NoEntropy
              else if forall i :: 0 <= i < |q.fan.fates| ==> q.fan.fates[i].Returns? then
                cause == NoEntropy && |q.heard| < |q.fan.calls|
              else exists j :: FirstFailure(q, j, cause)
            else if run.opening == [] then
              rs == [] && (cause == NoEntropy || cause == Wrapped("load conversation memory", NotFound))
            else if |rs| == 8 then cause == StepsExhausted
            else match run.knock
                 case None => cause == Canceled || cause == DeadlineExceeded
                 case Some(k) => k.call.Allow? && cause == if k.allowed then NoEntropy else CircuitOpen
  {
    hide RoundOk, GoesOn;
    var e, c, rs := run.start.id, run.start.conversationId, run.rounds;
    forall i | 0 <= i < |rs| - 1 ensures Continued(rs[i]) {
      ContinuedIff(e, c, rs[i]);
    }
    if rs != [] {
      var q := rs[|rs| - 1];
      ContinuedIff(e, c, q);
      if !Continued(q) {
        CauseOfRound(e, c, q, run.ending.cause);
      }
    }
  }

  lemma CauseOfRound(e: Id, c: Id, q: Round, cause: Error)
    requires RoundOk(e, c, q) && !GoesOn(q) && !Answers(q) && Broke(q, cause)
    ensures q.reply.Err? ==> cause == q.reply.error
    ensures q.reply.Ok? && q.spoken == [] ==> cause == NoEntropy
    ensures q.reply.Ok? && q.spoken != [] ==>
              if forall i :: 0 <= i < |q.fan.fates| ==> q.fan.fates[i].Returns? then
                cause == NoEntropy && |q.heard| < |q.fan.calls|
              else exists j :: FirstFailure(q, j, cause)
  {
    hide Shuffle, Stores;
    SequentialMeaning(q.fan.calls, q.fan.fates);
    SequentialOkIff(q.fan.calls, q.fan.fates);
    if q.reply.Ok? && q.spoken != [] && Sequential(q.fan.calls, q.fan.fates).Err? {
      var j :| 0 <= j < |q.fan.calls| && Fails(q.fan.calls[j], q.fan.fates[j], cause) &&
               forall i :: 0 <= i < j ==> q.fan.fates[i].Returns?;
      assert FirstFailure(q, j, cause);
    }
  }

  /**
   * No run has more than eight rounds or asks more than three times in one, and its history window is fifty messages.
   */
  lemma Limits(run: Run)
    requires RunOk(run)
    ensures |run.rounds| <= 8 && |run.history| <= 50
    ensures forall i :: 0 <= i < |run.rounds| ==> 1 <= |run.rounds[i].replies| <= 3
  {
    forall i | 0 <= i < |run.rounds| ensures 1 <= |run.rounds[i].replies| <= 3 {
      assert RoundOk(run.start.id, run.start.conversationId, run.rounds[i]);
    }
  }
}
