/** What concurrent tool calls leave behind does not depend on how they were scheduled. */
module ToolLaws {
  import opened Domain
  import opened Runs

  /** The sequential log: the parts one after another. */
  function Concat(parts: seq<seq<Action>>): seq<Action> {
    if parts == [] then [] else Concat(parts[..|parts| - 1]) + parts[|parts| - 1]
  }

  /** The actions of part i in an interleaving, in order. */
  function Project(acts: seq<Action>, who: seq<nat>, i: nat): seq<Action>
    requires |who| == |acts|
  {
    if acts == [] then [] else
    var n := |acts| - 1;
    Project(acts[..n], who[..n], i) + if who[n] == i then [acts[n]] else []
  }

  /** An interleaving keeps every part's own order, and adds nothing. */
  lemma {:induction false} ShuffleProjects(acts: seq<Action>, who: seq<nat>, parts: seq<seq<Action>>, i: nat)
    requires Shuffle(acts, who, parts) && i < |parts|
    ensures Project(acts, who, i) == parts[i]
    decreases |acts|
  {
    if acts != [] {
      var n := |acts| - 1;
      var p := parts[who[n]];
      ShuffleProjects(acts[..n], who[..n], parts[who[n] := p[..|p| - 1]], i);
    }
  }

  lemma ShuffleStep(acts: seq<Action>, who: seq<nat>, parts: seq<seq<Action>>, i: nat, a: Action)
    requires Shuffle(acts, who, parts) && i < |parts|
    ensures Shuffle(acts + [a], who + [i], parts[i := parts[i] + [a]])
  {
    var more := parts[i := parts[i] + [a]];
    assert (acts + [a])[..|acts|] == acts;
    assert (who + [i])[..|acts|] == who;
    assert more[i][..|more[i]| - 1] == parts[i];
    assert more[i := parts[i]] == parts;
  }

  lemma ShuffleLast(acts: seq<Action>, who: seq<nat>, parts: seq<seq<Action>>) returns (i: nat, p: seq<Action>)
    requires Shuffle(acts, who, parts) && acts != []
    ensures i < |parts| && i == who[|acts| - 1]
    ensures parts[i] == p + [acts[|acts| - 1]]
    ensures Shuffle(acts[..|acts| - 1], who[..|acts| - 1], parts[i := p])
  {
    i := who[|acts| - 1];
    p := parts[i][..|parts[i]| - 1];
  }

  /** How many actions of part i come before action k. */
  function Earlier(acts: seq<Action>, who: seq<nat>, i: nat, k: nat): nat
    requires |who| == |acts| && k <= |acts|
  {
    |Project(acts[..k], who[..k], i)|
  }

  /** Action k of part i is found in the part behind those that come before it. */
  lemma {:induction false} FoundInPart(acts: seq<Action>, who: seq<nat>, i: nat, k: nat)
    requires |who| == |acts| && k < |acts| && who[k] == i
    ensures Earlier(acts, who, i, k) < |Project(acts, who, i)|
    ensures Project(acts, who, i)[Earlier(acts, who, i, k)] == acts[k]
    decreases |acts|
  {
    var n := |acts| - 1;
    if k < n {
      FoundInPart(acts[..n], who[..n], i, k);
      assert acts[..n][..k] == acts[..k] && who[..n][..k] == who[..k];
    }
  }

  /** Every action of a part has its place. */
  lemma {:induction false} PlaceOf(acts: seq<Action>, who: seq<nat>, i: nat, n: nat) returns (k: nat)
    requires |who| == |acts| && n < |Project(acts, who, i)|
    ensures k < |acts| && who[k] == i && Earlier(acts, who, i, k) == n && acts[k] == Project(acts, who, i)[n]
    decreases |acts|
  {
    var m := |acts| - 1;
    if n < |Project(acts[..m], who[..m], i)| {
      k := PlaceOf(acts[..m], who[..m], i, n);
      assert acts[..m][..k] == acts[..k] && who[..m][..k] == who[..k];
    } else {
      k := m;
    }
  }

  lemma {:induction false} EarlierGrows(acts: seq<Action>, who: seq<nat>, i: nat, j: nat, k: nat)
    requires |who| == |acts| && j <= k <= |acts|
    ensures Earlier(acts, who, i, j) <= Earlier(acts, who, i, k)
    decreases k - j
  {
    if j < k {
      EarlierGrows(acts, who, i, j, k - 1);
      assert acts[..k][..k - 1] == acts[..k - 1] && who[..k][..k - 1] == who[..k - 1];
    }
  }

  function StepBag(l: seq<Action>): multiset<Step> {
    multiset(StepsIn(l))
  }

  lemma BagConcat(a: seq<Action>, b: seq<Action>)
    ensures StepBag(a + b) == StepBag(a) + StepBag(b)
  {
    FiltersConcat(a, b);
  }

  /** The steps of all parts together. */
  function PartsBag(parts: seq<seq<Action>>): multiset<Step> {
    if parts == [] then multiset{} else PartsBag(parts[..|parts| - 1]) + StepBag(parts[|parts| - 1])
  }

  lemma {:induction false} ConcatBag(parts: seq<seq<Action>>)
    ensures StepBag(Concat(parts)) == PartsBag(parts)
  {
    if parts != [] {
      ConcatBag(parts[..|parts| - 1]);
      BagConcat(Concat(parts[..|parts| - 1]), parts[|parts| - 1]);
    }
  }

  lemma BagShift<T>(a: multiset<T>, b: multiset<T>, c: multiset<T>)
    ensures a + (b + c) == (a + b) + c
    ensures (a + b) + c == (a + c) + b
  {
  }

  lemma {:induction false} BagUpdate(parts: seq<seq<Action>>, i: nat, p: seq<Action>, a: Action)
    requires i < |parts| && parts[i] == p + [a]
    ensures PartsBag(parts) == PartsBag(parts[i := p]) + StepBag([a])
  {
    hide StepBag;
    var n := |parts| - 1;
    var less := parts[i := p];
    if i == n {
      assert less[..n] == parts[..n];
      BagConcat(p, [a]);
      BagShift(PartsBag(parts[..n]), StepBag(p), StepBag([a]));
    } else {
      BagUpdate(parts[..n], i, p, a);
      assert less[..n] == parts[..n][i := p];
      BagShift(PartsBag(less[..n]), StepBag([a]), StepBag(parts[n]));
    }
  }

  lemma {:induction false} BagEmpty(parts: seq<seq<Action>>)
    requires forall i :: 0 <= i < |parts| ==> parts[i] == []
    ensures PartsBag(parts) == multiset{}
  {
    if parts != [] {
      BagEmpty(parts[..|parts| - 1]);
    }
  }

  lemma {:induction false} ShuffleBag(acts: seq<Action>, who: seq<nat>, parts: seq<seq<Action>>)
    requires Shuffle(acts, who, parts)
    ensures StepBag(acts) == PartsBag(parts)
    decreases |acts|
  {
    if acts == [] {
      BagEmpty(parts);
    } else {
      var i, p := ShuffleLast(acts, who, parts);
      var before, a := acts[..|acts| - 1], acts[|acts| - 1];
      ShuffleBag(before, who[..|acts| - 1], parts[i := p]);
      BagUpdate(parts, i, p, a);
      LastBag(acts);
    }
  }

  lemma LastBag(acts: seq<Action>)
    requires acts != []
    ensures StepBag(acts) == StepBag(acts[..|acts| - 1]) + StepBag([acts[|acts| - 1]])
  {
    assert acts == acts[..|acts| - 1] + [acts[|acts| - 1]];
    BagConcat(acts[..|acts| - 1], [acts[|acts| - 1]]);
  }

  /** For every schedule, the stored tool steps are a permutation of the ones a left-to-right run stores. */
  lemma ToolStepsPermute(e: Id, f: Fan)
    requires FanOk(e, f)
    ensures multiset(StepsIn(f.acts)) == multiset(StepsIn(Concat(Parts(e, f))))
  {
    ShuffleBag(f.acts, f.who, Parts(e, f));
    ConcatBag(Parts(e, f));
  }

  /** Why a call fails. */
  predicate Fails(call: ToolCall, fate: Fate, e: Error) {
    match fate
    case Missing => e == Unregistered(call.name)
    case NoId => e == NoEntropy
    case Raises(x) => e == Wrapped("execute tool " + call.name, x)
    case Unencodable(x) => e == Wrapped("encode tool " + call.name + " output", x)
    case Returns(_) => false
  }

  lemma FailsIff(call: ToolCall, fate: Fate, e: Error)
    ensures Outcome(call, fate) == Err(e) <==> Fails(call, fate, e)
  {
  }

  /** The joined result is all messages in call order, or the error of the lowest failing index. */
  lemma {:induction false} SequentialMeaning(calls: seq<ToolCall>, fates: seq<Fate>)
    requires |fates| == |calls|
    ensures var r := Sequential(calls, fates);
            match r
            case Ok(ms) =>
              && |ms| == |calls|
              && (forall i :: 0 <= i < |calls| ==>
                    fates[i].Returns? && ms[i] == Prompt(ToolRole, fates[i].value, calls[i].name, calls[i].id))
            case Err(e) =>
              exists i :: 0 <= i < |calls| && Fails(calls[i], fates[i], e) &&
                          forall j :: 0 <= j < i ==> fates[j].Returns?
  {
    if calls != [] {
      var n := |calls| - 1;
      SequentialMeaning(calls[..n], fates[..n]);
      var before := Sequential(calls[..n], fates[..n]);
      if before.Err? {
        var i :| 0 <= i < n && Fails(calls[..n][i], fates[..n][i], before.error) &&
                 forall j :: 0 <= j < i ==> fates[..n][j].Returns?;
        assert Fails(calls[i], fates[i], before.error);
        assert forall j :: 0 <= j < i ==> fates[j] == fates[..n][j];
      } else {
        assert forall j :: 0 <= j < n ==> fates[j] == fates[..n][j];
        if !fates[n].Returns? {
          FailsIff(calls[n], fates[n], Outcome(calls[n], fates[n]).error);
        }
      }
    }
  }

  lemma SequentialOkIff(calls: seq<ToolCall>, fates: seq<Fate>)
    requires |fates| == |calls|
    ensures Sequential(calls, fates).Ok? <==> forall i :: 0 <= i < |fates| ==> fates[i].Returns?
  {
    SequentialMeaning(calls, fates);
  }

  // ---------- Counting the tool steps of a round ----------

  /** How many of the calls leave a step. */
  function StoredCount(fates: seq<Fate>): nat {
    if fates == [] then 0 else StoredCount(fates[..|fates| - 1]) + if fates[|fates| - 1].Stored() then 1 else 0
  }

  lemma {:induction false} StoredAtMost(fates: seq<Fate>)
    ensures StoredCount(fates) <= |fates|
    ensures (forall i :: 0 <= i < |fates| ==> fates[i].Returns?) ==> StoredCount(fates) == |fates|
  {
    if fates != [] {
      StoredAtMost(fates[..|fates| - 1]);
    }
  }

  lemma PartSteps(e: Id, call: ToolCall, fate: Fate, id: Id)
    ensures StepsIn(Part(e, call, fate, id)) == if fate.Stored() then [StepOfCall(e, call, fate, id)] else []
    ensures MessagesIn(Part(e, call, fate, id)) == []
    ensures UpdatesIn(Part(e, call, fate, id)) == []
  {
    if fate.Stored() {
      var p := Part(e, call, fate, id);
      assert p == [p[0]] + [p[1]] + [p[2]];
      FiltersConcat([p[0]] + [p[1]], [p[2]]);
      FiltersConcat([p[0]], [p[1]]);
    }
  }

  /** An action of an interleaving is an action of one of the parts. */
  lemma {:induction false} ShuffleOrigin(acts: seq<Action>, who: seq<nat>, parts: seq<seq<Action>>, k: nat)
    requires Shuffle(acts, who, parts) && k < |acts|
    ensures who[k] < |parts| && acts[k] in parts[who[k]]
    decreases |acts|
  {
    var n := |acts| - 1;
    if k < n {
      var p := parts[who[n]];
      ShuffleOrigin(acts[..n], who[..n], parts[who[n] := p[..|p| - 1]], k);
    }
  }

  /** A tool step of execution e without retries. */
  predicate IsToolStep(e: Id, p: Step) {
    p.kind == ToolStep && p.executionId == e && p.retryCount == 0
  }

  /** Only tool steps and tool events occur in a fan-out. */
  lemma FanActions(e: Id, f: Fan, k: nat)
    requires FanOk(e, f) && k < |f.acts|
    ensures match f.acts[k]
            case AddStep(p) => IsToolStep(e, p) && (AllReturn(f) ==> p.error.None?)
            case Emit(v) => v.executionId == e && v.kind in {ToolStarted, ToolCompleted, ToolFailed}
            case _ => false
  {
    ShuffleOrigin(f.acts, f.who, Parts(e, f), k);
  }

  lemma {:induction false} StepsOfActions(l: seq<Action>, j: nat) returns (k: nat)
    requires j < |StepsIn(l)|
    ensures k < |l| && l[k] == AddStep(StepsIn(l)[j])
  {
    var n := |l| - 1;
    if j < |StepsIn(l[..n])| {
      k := StepsOfActions(l[..n], j);
    } else {
      k := n;
    }
  }

  /**
   * The tool steps of a round: one for each call that ran and could be stored, all error-free if all calls returned.
   */
  lemma FanSteps(e: Id, f: Fan)
    requires FanOk(e, f)
    ensures |StepsIn(f.acts)| == StoredCount(f.fates)
    ensures forall j :: 0 <= j < |StepsIn(f.acts)| ==>
              IsToolStep(e, StepsIn(f.acts)[j]) && (AllReturn(f) ==> StepsIn(f.acts)[j].error.None?)
    ensures MessagesIn(f.acts) == [] && UpdatesIn(f.acts) == []
  {
    ToolStepsPermute(e, f);
    CountConcat(e, f, |f.calls|);
    assert Parts(e, f)[..|f.calls|] == Parts(e, f);
    assert f.fates[..|f.calls|] == f.fates;
    assert |StepsIn(f.acts)| == |multiset(StepsIn(f.acts))|;
    assert |StepsIn(Concat(Parts(e, f)))| == |multiset(StepsIn(Concat(Parts(e, f))))|;
    forall j | 0 <= j < |StepsIn(f.acts)|
      ensures IsToolStep(e, StepsIn(f.acts)[j]) && (AllReturn(f) ==> StepsIn(f.acts)[j].error.None?)
    {
      var k := StepsOfActions(f.acts, j);
      FanActions(e, f, k);
    }
    forall k | 0 <= k < |f.acts| ensures !f.acts[k].AddMessage? && !f.acts[k].Update? {
      FanActions(e, f, k);
    }
    NothingToFilter(f.acts);
  }

  lemma {:induction false} NothingToFilter(l: seq<Action>)
    requires forall k :: 0 <= k < |l| ==> !l[k].AddMessage? && !l[k].Update?
    ensures MessagesIn(l) == [] && UpdatesIn(l) == []
  {
    if l != [] {
      NothingToFilter(l[..|l| - 1]);
    }
  }

  lemma {:induction false} CountConcat(e: Id, f: Fan, n: nat)
    requires |f.fates| == |f.ids| == |f.calls| && n <= |f.calls|
    ensures |StepsIn(Concat(Parts(e, f)[..n]))| == StoredCount(f.fates[..n])
  {
    if n > 0 {
      CountConcat(e, f, n - 1);
      assert Parts(e, f)[..n][..n - 1] == Parts(e, f)[..n - 1];
      assert f.fates[..n][..n - 1] == f.fates[..n - 1];
      FiltersConcat(Concat(Parts(e, f)[..n - 1]), Parts(e, f)[n - 1]);
      PartSteps(e, f.calls[n - 1], f.fates[n - 1], f.ids[n - 1]);
    }
  }
}
