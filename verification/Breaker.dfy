/** reliability.CircuitBreaker and the pool of workers that shares one. */
module Breaker {
  import opened Domain

  datatype Config = Config(failureThreshold: int, resetTimeout: int) {
    /** A threshold below one acts as one: the first failure already reaches it. */
    function Effective(): (r: int)
      ensures r >= 1
    {
      if failureThreshold >= 1 then failureThreshold else 1
    }
  }

  datatype State = State(failures: int, openedAt: Option<Time>) {
    predicate Cooling(c: Config, now: Time) {
      openedAt.Some? && now - openedAt.value < c.resetTimeout
    }
  }

  const FRESH := State(0, None)

  function AfterAllow(c: Config, s: State, now: Time): State {
    if s.openedAt.Some? && !s.Cooling(c, now) then FRESH else s
  }

  function AfterFailure(c: Config, s: State, now: Time): State {
    var failures := s.failures + 1;
    State(failures, if failures >= c.failureThreshold then Some(now) else s.openedAt)
  }

  // ---------- What a breaker remembers of its history ----------

  datatype Call = Allow(at: Time) | Success | Failure(at: Time)

  function AfterCall(c: Config, s: State, call: Call): State {
    match call
    case Allow(t) => AfterAllow(c, s, t)
    case Success => FRESH
    case Failure(t) => AfterFailure(c, s, t)
  }

  function Replay(c: Config, h: seq<Call>): State {
    if h == [] then FRESH else AfterCall(c, Replay(c, h[..|h| - 1]), h[|h| - 1])
  }

  /** The times of the failures since the last success or elapsed cooldown, read off the history alone. */
  function Streak(c: Config, h: seq<Call>): seq<Time> {
    if h == [] then [] else
    var run := Streak(c, h[..|h| - 1]);
    match h[|h| - 1]
    case Success => []
    case Failure(t) => run + [t]
    case Allow(t) => if Tripped(c, run) && t - run[|run| - 1] >= c.resetTimeout then [] else run
  }

  predicate Tripped(c: Config, run: seq<Time>) {
    |run| >= c.Effective()
  }

  /** The two fields are a summary of the streak. */
  lemma {:induction false} SummarizesHistory(c: Config, h: seq<Call>)
    ensures var s, run := Replay(c, h), Streak(c, h);
            && s.failures == |run|
            && s.openedAt == if Tripped(c, run) then Some(run[|run| - 1]) else None
  {
    if h != [] {
      SummarizesHistory(c, h[..|h| - 1]);
    }
  }

  /** Allow refuses at time t exactly when the streak has reached the threshold and its last failure is too recent. */
  lemma RefusesIff(c: Config, h: seq<Call>, t: Time)
    ensures var run := Streak(c, h);
            Replay(c, h).Cooling(c, t) <==>
            |run| >= 1 && |run| >= c.failureThreshold && t - run[|run| - 1] < c.resetTimeout
  {
    SummarizesHistory(c, h);
  }

  /** Nothing but a success can shorten a cooldown: with no success, a tripped breaker refuses until it has elapsed. */
  lemma {:induction false} CooldownHolds(c: Config, h: seq<Call>, mid: seq<Call>, since: Time, t: Time)
    requires Replay(c, h).openedAt == Some(since)
    requires forall i :: 0 <= i < |mid| ==> !mid[i].Success? && since <= mid[i].at <= t
    requires since <= t < since + c.resetTimeout
    ensures Replay(c, h + mid).Cooling(c, t)
    ensures Replay(c, h + mid).openedAt.value >= since
  {
    SummarizesHistory(c, h);
    if mid == [] {
      assert h + mid == h;
    } else {
      var n := |mid| - 1;
      CooldownHolds(c, h, mid[..n], since, t);
      assert (h + mid)[..|h + mid| - 1] == h + mid[..n];
      SummarizesHistory(c, h + mid[..n]);
    }
  }

  /** As many failures as the threshold, or one if that is below one, trip the breaker from any history. */
  lemma {:induction false} ConsecutiveFailuresTrip(c: Config, h: seq<Call>, fails: seq<Call>)
    requires |fails| >= 1 && |fails| >= c.failureThreshold
    requires forall i :: 0 <= i < |fails| ==> fails[i].Failure?
    ensures Replay(c, h + fails).openedAt == Some(fails[|fails| - 1].at)
  {
    StreakOfFailures(c, h, fails);
    SummarizesHistory(c, h + fails);
  }

  lemma {:induction false} StreakOfFailures(c: Config, h: seq<Call>, fails: seq<Call>)
    requires forall i :: 0 <= i < |fails| ==> fails[i].Failure?
    ensures |Streak(c, h + fails)| == |Streak(c, h)| + |fails|
    ensures fails != [] ==> Streak(c, h + fails)[|Streak(c, h)| + |fails| - 1] == fails[|fails| - 1].at
  {
    if fails == [] {
      assert h + fails == h;
    } else {
      var n := |fails| - 1;
      StreakOfFailures(c, h, fails[..n]);
      assert (h + fails)[..|h + fails| - 1] == h + fails[..n];
    }
  }

  // ---------- The breaker itself, with the calls of all its callers ----------

  /** A call, who made it, and what Allow answered. */
  datatype Entry = Entry(who: nat, call: Call, allowed: bool)

  function Calls(h: seq<Entry>): (r: seq<Call>)
    ensures |r| == |h|
  {
    seq(|h|, i requires 0 <= i < |h| => h[i].call)
  }

  /** Every Allow was answered as the history before it demands. */
  predicate Truthful(c: Config, h: seq<Entry>) {
    forall i :: 0 <= i < |h| && h[i].call.Allow? ==> AnswerOk(c, h[..i], h[i])
  }

  predicate AnswerOk(c: Config, before: seq<Entry>, e: Entry)
    requires e.call.Allow?
  {
    e.allowed == !Replay(c, Calls(before)).Cooling(c, e.call.at)
  }

  lemma ReplaySnoc(c: Config, h: seq<Call>, call: Call)
    ensures Replay(c, h + [call]) == AfterCall(c, Replay(c, h), call)
  {
    assert (h + [call])[..|h|] == h;
  }

  lemma CallsSnoc(h: seq<Entry>, e: Entry)
    ensures Calls(h + [e]) == Calls(h) + [e.call]
    ensures Calls(h + [e])[..|h|] == Calls(h)
  {
  }

  lemma TruthfulSnoc(c: Config, h: seq<Entry>, e: Entry)
    ensures Truthful(c, h + [e]) <==> Truthful(c, h) && (e.call.Allow? ==> AnswerOk(c, h, e))
  {
    hide AnswerOk;
    assert forall i :: 0 <= i < |h| ==> (h + [e])[..i] == h[..i] && (h + [e])[i] == h[i];
    assert (h + [e])[..|h|] == h && (h + [e])[|h|] == e;
  }

  class CircuitBreaker {
    const config: Config
    var failures: int
    var openedAt: Option<Time>
    ghost var log: seq<Entry>

    ghost function View(): State
      reads this
    {
      State(failures, openedAt)
    }

    /** The fields are what the calls so far have made of them. */
    ghost predicate Valid()
      reads this
    {
      View() == Replay(config, Calls(log)) && Truthful(config, log)
    }

    constructor (failureThreshold: int, resetTimeout: int)
      ensures Valid() && log == [] && View() == FRESH && config == Config(failureThreshold, resetTimeout)
    {
      config := Config(failureThreshold, resetTimeout);
      failures, openedAt, log := 0, None, [];
    }

    method Allow(now: Time, ghost who: nat) returns (allowed: bool)
      requires Valid()
      modifies this
      ensures Valid() && log == old(log) + [Entry(who, Call.Allow(now), allowed)]
      ensures allowed <==> old(openedAt).None? || now - old(openedAt).value >= config.resetTimeout
      ensures if old(openedAt).Some? && allowed then failures == 0 && openedAt.None?
              else failures == old(failures) && openedAt == old(openedAt)
    {
      hide Replay, Truthful;
      ReplaySnoc(config, Calls(log), Call.Allow(now));
      allowed := true;
      if openedAt.Some? {
        if now - openedAt.value >= config.resetTimeout {
          openedAt := None;
          failures := 0;
        } else {
          allowed := false;
        }
      }
      Note(Entry(who, Call.Allow(now), allowed));
    }

    method Success(ghost who: nat)
      requires Valid()
      modifies this
      ensures Valid() && log == old(log) + [Entry(who, Call.Success, true)]
      ensures failures == 0 && openedAt.None?
    {
      hide Replay, Truthful;
      ReplaySnoc(config, Calls(log), Call.Success);
      failures := 0;
      openedAt := None;
      Note(Entry(who, Call.Success, true));
    }

    method Failure(now: Time, ghost who: nat)
      requires Valid()
      modifies this
      ensures Valid() && log == old(log) + [Entry(who, Call.Failure(now), true)]
      ensures failures == old(failures) + 1
      ensures openedAt == if failures >= config.failureThreshold then Some(now) else old(openedAt)
    {
      hide Replay, Truthful;
      ReplaySnoc(config, Calls(log), Call.Failure(now));
      failures := failures + 1;
      if failures >= config.failureThreshold {
        openedAt := Some(now);
      }
      Note(Entry(who, Call.Failure(now), true));
    }

    ghost method Note(e: Entry)
      requires Truthful(config, log) && (e.call.Allow? ==> AnswerOk(config, log, e))
      requires View() == Replay(config, Calls(log) + [e.call])
      modifies this`log
      ensures Valid() && log == old(log) + [e]
    {
      hide Replay, Truthful, AnswerOk;
      CallsSnoc(log, e);
      TruthfulSnoc(config, log, e);
      log := log + [e];
    }
  }

  // ---------- A pool of workers over one breaker ----------

  /** A worker is in flight from a true Allow until its Success or Failure, or until it gives up before calling. */
  datatype Pool = Pool(breaker: State, inFlight: set<nat>)

  datatype Move =
    | Start(worker: nat, at: Time)
    | Complete(worker: nat)
    | Break(worker: nat, at: Time)
    | Abandon(worker: nat)

  predicate Possible(width: nat, p: Pool, m: Move) {
    match m
    case Start(w, _) => w < width && w !in p.inFlight
    case _ => m.worker in p.inFlight
  }

  function Apply(c: Config, p: Pool, m: Move): Pool {
    match m
    case Start(w, t) =>
      Pool(AfterAllow(c, p.breaker, t), if p.breaker.Cooling(c, t) then p.inFlight else p.inFlight + {w})
    case Complete(w) => Pool(FRESH, p.inFlight - {w})
    case Break(w, t) => Pool(AfterFailure(c, p.breaker, t), p.inFlight - {w})
    case Abandon(w) => p.(inFlight := p.inFlight - {w})
  }

  function After(c: Config, ms: seq<Move>): Pool {
    if ms == [] then Pool(FRESH, {}) else Apply(c, After(c, ms[..|ms| - 1]), ms[|ms| - 1])
  }

  /** Every move was possible when it was made, by a pool of the given width. */
  predicate Schedule(c: Config, width: nat, ms: seq<Move>) {
    ms == [] ||
    (Schedule(c, width, ms[..|ms| - 1]) && Possible(width, After(c, ms[..|ms| - 1]), ms[|ms| - 1]))
  }

  function Numbers(n: nat): (r: set<nat>)
    ensures forall i: nat :: i in r <==> i < n
    ensures |r| == n
  {
    if n == 0 then {} else Numbers(n - 1) + {n - 1}
  }

  lemma SubsetSize(a: set<nat>, b: set<nat>)
    requires a <= b
    ensures |a| <= |b|
  {
    assert b == a + (b - a);
  }

  /** Failures and calls in flight together never exceed threshold + width - 1. */
  lemma {:induction false} PoolBound(c: Config, width: nat, ms: seq<Move>)
    requires width >= 1 && Schedule(c, width, ms)
    ensures var p := After(c, ms);
            && p.inFlight <= Numbers(width)
            && 0 <= p.breaker.failures
            && (p.breaker.openedAt.Some? <==> p.breaker.failures >= c.Effective())
            && p.breaker.failures + |p.inFlight| <= c.Effective() + width - 1
  {
    if ms != [] {
      var before := After(c, ms[..|ms| - 1]);
      PoolBound(c, width, ms[..|ms| - 1]);
      SubsetSize(After(c, ms).inFlight, Numbers(width));
      match ms[|ms| - 1]
      case Start(w, t) =>
        SubsetSize(before.inFlight + {w}, Numbers(width));
      case _ =>
        assert |before.inFlight - {ms[|ms| - 1].worker}| == |before.inFlight| - 1;
    }
  }

  /** Moves that open one round per worker 0..n-1 at time t. */
  function Starts(n: nat, t: Time): (r: seq<Move>)
    ensures |r| == n
  {
    if n == 0 then [] else Starts(n - 1, t) + [Start(n - 1, t)]
  }

  /** n failing rounds, one after another, by worker 0. */
  function FailingRounds(n: nat, t: Time): (r: seq<Move>)
  {
    if n == 0 then [] else FailingRounds(n - 1, t) + [Start(0, t), Break(0, t)]
  }

  lemma {:induction false} Extend(c: Config, width: nat, ms: seq<Move>, m: Move)
    requires Schedule(c, width, ms) && Possible(width, After(c, ms), m)
    ensures Schedule(c, width, ms + [m])
    ensures After(c, ms + [m]) == Apply(c, After(c, ms), m)
  {
    assert (ms + [m])[..|ms + [m]| - 1] == ms;
  }

  lemma {:induction false} FailingRoundsReach(c: Config, width: nat, n: nat, t: Time)
    requires width >= 1 && n < c.Effective()
    ensures Schedule(c, width, FailingRounds(n, t))
    ensures After(c, FailingRounds(n, t)) == Pool(State(n, None), {})
  {
    hide Schedule, After;
    if n > 0 {
      FailingRoundsReach(c, width, n - 1, t);
      var ms := FailingRounds(n - 1, t);
      Extend(c, width, ms, Start(0, t));
      Extend(c, width, ms + [Start(0, t)], Break(0, t));
      assert FailingRounds(n, t) == ms + [Start(0, t)] + [Break(0, t)];
    } else {
      NoMoves(c, width);
    }
  }

  lemma NoMoves(c: Config, width: nat)
    ensures Schedule(c, width, []) && After(c, []) == Pool(FRESH, {})
  {
  }

  lemma {:induction false} ExtendClosed(c: Config, width: nat, ms: seq<Move>, n: nat, k: nat, t: Time)
    requires Schedule(c, width, ms) && k < width && After(c, ms) == Pool(State(n, None), Numbers(k))
    ensures Schedule(c, width, ms + [Start(k, t)])
    ensures After(c, ms + [Start(k, t)]) == Pool(State(n, None), Numbers(k + 1))
  {
    Extend(c, width, ms, Start(k, t));
  }

  lemma {:induction false} StartsReach(c: Config, width: nat, n: nat, k: nat, t: Time)
    requires n < c.Effective() && k <= width && width >= 1
    ensures Schedule(c, width, FailingRounds(n, t) + Starts(k, t))
    ensures After(c, FailingRounds(n, t) + Starts(k, t)) == Pool(State(n, None), Numbers(k))
  {
    hide Schedule, After;
    var ms := FailingRounds(n, t);
    if k == 0 {
      FailingRoundsReach(c, width, n, t);
      assert ms + Starts(0, t) == ms;
    } else {
      StartsReach(c, width, n, k - 1, t);
      var before := ms + Starts(k - 1, t);
      ExtendClosed(c, width, before, n, k - 1, t);
      assert ms + Starts(k, t) == before + [Start(k - 1, t)];
    }
  }

  /** The bound is reached for every threshold and width. */
  lemma PoolBoundIsTight(c: Config, width: nat, t: Time)
    requires width >= 1
    ensures var ms := FailingRounds(c.Effective() - 1, t) + Starts(width, t);
            && Schedule(c, width, ms)
            && After(c, ms).breaker.failures + |After(c, ms).inFlight| == c.Effective() + width - 1
  {
    StartsReach(c, width, c.Effective() - 1, width, t);
  }

  /** The move is made in [since, until), or has no time. */
  predicate During(m: Move, since: Time, until: Time) {
    m.Start? || m.Break? ==> since <= m.at < until
  }

  /** Move i of mid, after ms, puts nobody in flight. */
  predicate Refused(c: Config, ms: seq<Move>, mid: seq<Move>, i: nat)
    requires i < |mid|
  {
    After(c, ms + mid[..i + 1]).inFlight == After(c, ms + mid[..i]).inFlight
  }

  /**
   * Once the breaker has opened at `since`, no move before since + resetTimeout puts a worker in flight, whatever the
   * others do, unless a round that was in flight completes first.
   */
  lemma {:induction false} NoStartWhileCooling(c: Config, width: nat, ms: seq<Move>, mid: seq<Move>, since: Time)
    requires width >= 1 && Schedule(c, width, ms + mid) && After(c, ms).breaker.openedAt == Some(since)
    requires forall i :: 0 <= i < |mid| ==> !mid[i].Complete? && During(mid[i], since, since + c.resetTimeout)
    ensures Schedule(c, width, ms)
    ensures forall i :: 0 <= i < |mid| && mid[i].Start? ==> Refused(c, ms, mid, i)
    ensures After(c, ms + mid).inFlight <= After(c, ms).inFlight
    ensures After(c, ms + mid).breaker.openedAt.Some? && After(c, ms + mid).breaker.openedAt.value >= since
    decreases |mid|
  {
    hide Apply, Possible;
    if mid == [] {
      assert ms + mid == ms;
    } else {
      var n := |mid| - 1;
      assert (ms + mid)[..|ms + mid| - 1] == ms + mid[..n];
      NoStartWhileCooling(c, width, ms, mid[..n], since);
      PoolBound(c, width, ms + mid[..n]);
      StaysOpen(c, After(c, ms + mid[..n]), mid[n], since);
      forall i | 0 <= i < |mid| && mid[i].Start? ensures Refused(c, ms, mid, i) {
        if i < n {
          assert mid[..n][i].Start? && Refused(c, ms, mid[..n], i);
          assert mid[..n][..i + 1] == mid[..i + 1] && mid[..n][..i] == mid[..i];
        } else {
          assert mid[..n + 1] == mid;
        }
      }
    }
  }

  lemma StaysOpen(c: Config, p: Pool, m: Move, since: Time)
    requires p.breaker.openedAt.Some? && p.breaker.openedAt.value >= since && p.breaker.failures >= c.Effective()
    requires !m.Complete? && During(m, since, since + c.resetTimeout)
    ensures Apply(c, p, m).inFlight <= p.inFlight && (m.Start? ==> Apply(c, p, m).inFlight == p.inFlight)
    ensures Apply(c, p, m).breaker.openedAt.Some? && Apply(c, p, m).breaker.openedAt.value >= since
  {
  }

  /**
   * The exception is real: a round that completes late reopens the way at once, however much of the cooldown is left.
   */
  lemma {:induction false} LateSuccessReopens(c: Config, width: nat, ms: seq<Move>, w: nat, v: nat, t: Time)
    requires Schedule(c, width, ms) && w in After(c, ms).inFlight
    requires v < width && (v == w || v !in After(c, ms).inFlight)
    ensures Schedule(c, width, ms + [Complete(w)] + [Start(v, t)])
    ensures v in After(c, ms + [Complete(w)] + [Start(v, t)]).inFlight
  {
    Extend(c, width, ms, Complete(w));
    Extend(c, width, ms + [Complete(w)], Start(v, t));
  }

  // ---------- From the calls of disciplined callers to schedules of the pool ----------

  /** The entries of caller w, in order. */
  function Mine(h: seq<Entry>, w: nat): seq<Entry> {
    if h == [] then [] else
    Mine(h[..|h| - 1], w) + if h[|h| - 1].who == w then [h[|h| - 1]] else []
  }

  lemma {:induction false} MineConcat(a: seq<Entry>, b: seq<Entry>, w: nat)
    ensures Mine(a + b, w) == Mine(a, w) + Mine(b, w)
    decreases |b|
  {
    if b == [] {
      assert a + b == a;
    } else {
      assert (a + b)[..|a + b| - 1] == a + b[..|b| - 1];
      MineConcat(a, b[..|b| - 1], w);
    }
  }

  /** Where a caller stands: a permitted Allow starts a call, which one Success or Failure ends. */
  datatype Line = Free | Calling | Broken

  function Next(l: Line, e: Entry): Line {
    if l.Broken? then Broken
    else match e.call
         case Allow(_) => if e.allowed then Calling else Free
         case _ => if l.Calling? then Free else Broken
  }

  function Follow(l: Line, es: seq<Entry>): Line {
    if es == [] then l else Next(Follow(l, es[..|es| - 1]), es[|es| - 1])
  }

  lemma {:induction false} FollowConcat(l: Line, a: seq<Entry>, b: seq<Entry>)
    ensures Follow(l, a + b) == Follow(Follow(l, a), b)
    decreases |b|
  {
    if b == [] {
      assert a + b == a;
    } else {
      assert (a + b)[..|a + b| - 1] == a + b[..|b| - 1];
      FollowConcat(l, a, b[..|b| - 1]);
    }
  }

  /** Every caller is one of width workers and reports the end only of a call that it was permitted to start. */
  ghost predicate Disciplined(width: nat, h: seq<Entry>) {
    && (forall i :: 0 <= i < |h| ==> h[i].who < width)
    && forall w: nat :: !Follow(Free, Mine(h, w)).Broken?
  }

  /** The moves of the pool that a history comes to; a worker that asks again has given up the call it had started. */
  function MovesOf(c: Config, h: seq<Entry>): seq<Move> {
    if h == [] then [] else
    var before, e := MovesOf(c, h[..|h| - 1]), h[|h| - 1];
    match e.call
    case Allow(t) => before + (if e.who in After(c, before).inFlight then [Abandon(e.who)] else []) + [Start(e.who, t)]
    case Success => before + [Complete(e.who)]
    case Failure(t) => before + [Break(e.who, t)]
  }

  /** The pool after the history is where the callers stand. */
  ghost predicate Mirrors(c: Config, h: seq<Entry>, p: Pool) {
    && p.breaker == Replay(c, Calls(h))
    && forall w: nat :: w in p.inFlight <==> Follow(Free, Mine(h, w)).Calling?
  }

  lemma {:induction false} HistoryIsSchedule(c: Config, width: nat, h: seq<Entry>)
    requires Truthful(c, h) && Disciplined(width, h)
    ensures Schedule(c, width, MovesOf(c, h)) && Mirrors(c, h, After(c, MovesOf(c, h)))
  {
    if h != [] {
      var h', e := h[..|h| - 1], h[|h| - 1];
      assert h == h' + [e];
      TruthfulSnoc(c, h', e);
      DisciplinedPrefix(width, h', e);
      HistoryIsSchedule(c, width, h');
      HistoryStep(c, width, h', e);
    }
  }

  lemma MineSnoc(h: seq<Entry>, e: Entry, w: nat)
    ensures Mine(h + [e], w) == if e.who == w then Mine(h, w) + [e] else Mine(h, w)
    ensures Follow(Free, Mine(h + [e], w)) ==
            if e.who == w then Next(Follow(Free, Mine(h, w)), e) else Follow(Free, Mine(h, w))
  {
    assert (h + [e])[..|h|] == h;
    assert (Mine(h, w) + [e])[..|Mine(h, w)|] == Mine(h, w);
  }

  lemma DisciplinedPrefix(width: nat, h: seq<Entry>, e: Entry)
    requires Disciplined(width, h + [e])
    ensures Disciplined(width, h) && e.who < width
    ensures !Next(Follow(Free, Mine(h, e.who)), e).Broken?
  {
    forall w: nat ensures !Follow(Free, Mine(h, w)).Broken? { MineSnoc(h, e, w); }
    MineSnoc(h, e, e.who);
    assert forall i :: 0 <= i < |h| ==> h[i] == (h + [e])[i];
    assert (h + [e])[|h|] == e;
  }

  lemma HistoryStep(c: Config, width: nat, h: seq<Entry>, e: Entry)
    requires Schedule(c, width, MovesOf(c, h)) && Mirrors(c, h, After(c, MovesOf(c, h))) && e.who < width
    requires (e.call.Allow? ==> AnswerOk(c, h, e)) && !Next(Follow(Free, Mine(h, e.who)), e).Broken?
    ensures Schedule(c, width, MovesOf(c, h + [e])) && Mirrors(c, h + [e], After(c, MovesOf(c, h + [e])))
  {
    hide Schedule;
    var before := MovesOf(c, h);
    assert (h + [e])[..|h|] == h;
    CallsSnoc(h, e);
    var p := After(c, before);
    var asking := if e.call.Allow? && e.who in p.inFlight then before + [Abandon(e.who)] else before;
    if asking != before {
      Extend(c, width, before, Abandon(e.who));
    } else {
      assert before + [] == before;
    }
    var m := match e.call case Allow(t) => Start(e.who, t) case Success => Complete(e.who)
        case Failure(t) => Break(e.who, t);
    Extend(c, width, asking, m);
    assert MovesOf(c, h + [e]) == asking + [m];
    forall w: nat ensures w in After(c, asking + [m]).inFlight <==> Follow(Free, Mine(h + [e], w)).Calling? {
      MineSnoc(h, e, w);
    }
  }

  /** In every history of W disciplined callers, failures and calls in flight never exceed threshold + W - 1. */
  lemma {:induction false} HistoryBound(c: Config, width: nat, h: seq<Entry>)
    requires width >= 1 && Truthful(c, h) && Disciplined(width, h)
    ensures Replay(c, Calls(h)).failures + |After(c, MovesOf(c, h)).inFlight| <= c.Effective() + width - 1
    ensures forall w: nat :: w in After(c, MovesOf(c, h)).inFlight <==> Follow(Free, Mine(h, w)).Calling?
  {
    hide Schedule, After;
    HistoryIsSchedule(c, width, h);
    PoolBound(c, width, MovesOf(c, h));
  }

  /** Once tripped at `since`, every caller is refused until since + resetTimeout unless somebody succeeds first. */
  lemma {:induction false} RefusedWhileCooling(c: Config, h: seq<Entry>, mid: seq<Entry>, since: Time, e: Entry)
    requires Truthful(c, h + mid + [e]) && e.call.Allow? && since <= e.call.at < since + c.resetTimeout
    requires Replay(c, Calls(h)).openedAt == Some(since)
    requires forall i :: 0 <= i < |mid| ==> !mid[i].call.Success? && since <= mid[i].call.at <= e.call.at
    ensures !e.allowed
  {
    TruthfulSnoc(c, h + mid, e);
    CooldownHolds(c, Calls(h), Calls(mid), since, e.call.at);
    assert Calls(h + mid) == Calls(h) + Calls(mid);
  }
}
