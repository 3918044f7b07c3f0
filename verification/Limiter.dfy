/** auth.Limiter: a fixed-window request counter per caller. */
module Limiter {
  import opened Domain

  datatype Config = Config(limit: int, window: int) {
    /** A negative limit admits as little as zero does. */
    function Quota(): nat {
      if limit > 0 then limit else 0
    }
  }

  datatype Visitor = Visitor(windowStart: Time, count: int)

  type Visitors = map<string, Visitor>

  /** A key never seen has the zero time as its window start, which lies more than any window in the past. */
  predicate InWindow(c: Config, vs: Visitors, key: string, now: Time) {
    key in vs && now - vs[key].windowStart < c.window
  }

  function Visit(c: Config, vs: Visitors, key: string, now: Time): Visitors {
    vs[key := if InWindow(c, vs, key, now) then Visitor(vs[key].windowStart, vs[key].count + 1) else Visitor(now, 1)]
  }

  class Limiter {
    const config: Config
    var visitors: Visitors

    constructor (limit: int, window: int)
      ensures visitors == map[] && config == Config(limit, window)
    {
      config := Config(limit, window);
      visitors := map[];
    }

    /** The locked part of the middleware: count the request and decide. */
    method Admit(key: string, now: Time) returns (allowed: bool)
      modifies this
      ensures visitors == Visit(config, old(visitors), key, now)
      ensures key in visitors && visitors == old(visitors)[key := visitors[key]]
      ensures if key in old(visitors) && now - old(visitors)[key].windowStart < config.window then
                visitors[key] == old(visitors)[key].(count := old(visitors)[key].count + 1)
              else visitors[key] == Visitor(now, 1)
      ensures allowed <==> visitors[key].count <= config.limit
    {
      var entry := Visitor(now, 0);
      if key in visitors && now - visitors[key].windowStart < config.window {
        entry := visitors[key];
      }
      entry := entry.(count := entry.count + 1);
      visitors := visitors[key := entry];
      allowed := entry.count <= config.limit;
    }
  }

  // ---------- Request sequences ----------

  datatype Request = Request(key: string, at: Time)

  predicate Ordered(h: seq<Request>) {
    forall i, j :: 0 <= i < j < |h| ==> h[i].at <= h[j].at
  }

  function Replay(c: Config, h: seq<Request>): Visitors {
    if h == [] then map[] else
    var r := h[|h| - 1];
    Visit(c, Replay(c, h[..|h| - 1]), r.key, r.at)
  }

  /** Whether the last request of h is let through. */
  predicate Admitted(c: Config, h: seq<Request>)
    requires h != []
  {
    Replay(c, h)[h[|h| - 1].key].count <= c.limit
  }

  /** How many requests under key were let through at a time in [lo, hi). */
  function Count(c: Config, h: seq<Request>, key: string, lo: Time, hi: Time): nat {
    if h == [] then 0 else
    var r := h[|h| - 1];
    Count(c, h[..|h| - 1], key, lo, hi) + if r.key == key && lo <= r.at < hi && Admitted(c, h) then 1 else 0
  }

  /** ... at lo or later. */
  function Since(c: Config, h: seq<Request>, key: string, lo: Time): nat {
    if h == [] then 0 else
    var r := h[|h| - 1];
    Since(c, h[..|h| - 1], key, lo) + if r.key == key && lo <= r.at && Admitted(c, h) then 1 else 0
  }

  function Min(a: int, b: int): int {
    if a < b then a else b
  }

  lemma {:induction false} NoneSince(c: Config, h: seq<Request>, key: string, lo: Time)
    requires forall i :: 0 <= i < |h| ==> h[i].at < lo
    ensures Since(c, h, key, lo) == 0
  {
    if h != [] {
      NoneSince(c, h[..|h| - 1], key, lo);
    }
  }

  lemma {:induction false} CountIsSince(c: Config, h: seq<Request>, key: string, lo: Time, hi: Time)
    requires forall i :: 0 <= i < |h| ==> h[i].at < hi
    ensures Count(c, h, key, lo, hi) == Since(c, h, key, lo)
  {
    if h != [] {
      CountIsSince(c, h[..|h| - 1], key, lo, hi);
    }
  }

  /** What the entry of a key says about the requests admitted since lo. */
  ghost predicate Summary(c: Config, v: Visitor, last: Time, since: nat, lo: Time) {
    && v.count >= 1
    && v.windowStart <= last
    && (c.Quota() == 0 ==> since == 0)
    && (lo == v.windowStart ==> since >= Min(v.count, c.Quota()))
    && (c.Quota() >= 1 && lo > v.windowStart ==> since <= Min(v.count, c.Quota()) - 1)
    && (c.Quota() >= 1 && v.windowStart - c.window < lo <= v.windowStart
        ==> since <= c.Quota() - 1 + Min(v.count, c.Quota()))
  }

  lemma {:induction false} EntrySummarizes(c: Config, h: seq<Request>, key: string, lo: Time)
    requires Ordered(h)
    ensures key !in Replay(c, h) ==> Since(c, h, key, lo) == 0
    ensures key in Replay(c, h) ==>
              h != [] && Summary(c, Replay(c, h)[key], h[|h| - 1].at, Since(c, h, key, lo), lo)
  {
    if h != [] {
      var h', r := h[..|h| - 1], h[|h| - 1];
      EntrySummarizes(c, h', key, lo);
      if r.key == key && lo > r.at {
        NoneSince(c, h, key, lo);
      }
    }
  }

  /** Every half-open interval of one window's length admits at most 2 * limit - 1 requests of one caller. */
  lemma {:induction false} WindowBound(c: Config, h: seq<Request>, key: string, lo: Time)
    requires Ordered(h)
    ensures c.limit <= 0 ==> Count(c, h, key, lo, lo + c.window) == 0
    ensures c.limit >= 1 ==> Count(c, h, key, lo, lo + c.window) <= 2 * c.limit - 1
  {
    if h != [] {
      var r := h[|h| - 1];
      if r.at >= lo + c.window {
        WindowBound(c, h[..|h| - 1], key, lo);
      } else {
        CountIsSince(c, h, key, lo, lo + c.window);
        EntrySummarizes(c, h, key, lo);
      }
    }
  }

  /** A request is turned away exactly when its window is open and has admitted the whole limit already. */
  lemma DeniedIff(c: Config, h: seq<Request>, r: Request)
    requires Ordered(h + [r]) && c.limit >= 1
    ensures Admitted(c, h + [r]) <==>
            !(InWindow(c, Replay(c, h), r.key, r.at)
              && Since(c, h, r.key, Replay(c, h)[r.key].windowStart) >= c.limit)
  {
    assert (h + [r])[..|h + [r]| - 1] == h;
    assert Ordered(h) by {
      assert forall i :: 0 <= i < |h| ==> h[i] == (h + [r])[i];
    }
    if InWindow(c, Replay(c, h), r.key, r.at) {
      var start := Replay(c, h)[r.key].windowStart;
      EntrySummarizes(c, h, r.key, start);
      assert start <= r.at by {
        assert (h + [r])[|h| - 1].at <= (h + [r])[|h|].at;
      }
      SinceWindowStart(c, h, r.key);
    }
  }

  /** All requests admitted under a key came before its current window ends. */
  lemma {:induction false} NoneBeyondWindow(c: Config, h: seq<Request>, key: string, t: Time)
    requires Ordered(h) && key in Replay(c, h) && c.window > 0 && t >= Replay(c, h)[key].windowStart + c.window
    ensures Since(c, h, key, t) == 0
  {
    var h', r := h[..|h| - 1], h[|h| - 1];
    if r.key != key || InWindow(c, Replay(c, h'), key, r.at) {
      NoneBeyondWindow(c, h', key, t);
    } else {
      NoneSince(c, h, key, t);
    }
  }

  lemma {:induction false} SinceWindowStart(c: Config, h: seq<Request>, key: string)
    requires Ordered(h) && key in Replay(c, h) && c.window > 0
    ensures Since(c, h, key, Replay(c, h)[key].windowStart) <= Min(Replay(c, h)[key].count, c.Quota())
  {
    var h', r := h[..|h| - 1], h[|h| - 1];
    if r.key != key || InWindow(c, Replay(c, h'), key, r.at) {
      SinceWindowStart(c, h', key);
    } else if key in Replay(c, h') {
      NoneBeyondWindow(c, h', key, r.at);
    } else {
      EntrySummarizes(c, h', key, r.at);
    }
  }

  function Filter(h: seq<Request>, key: string): seq<Request> {
    if h == [] then [] else
    var rest := Filter(h[..|h| - 1], key);
    if h[|h| - 1].key == key then rest + [h[|h| - 1]] else rest
  }

  /** Traffic under other keys never changes what happens under this one. */
  lemma {:induction false} KeysAreIndependent(c: Config, h: seq<Request>, key: string)
    ensures key in Replay(c, h) <==> key in Replay(c, Filter(h, key))
    ensures key in Replay(c, h) ==> Replay(c, h)[key] == Replay(c, Filter(h, key))[key]
    ensures h != [] && h[|h| - 1].key == key ==> (Admitted(c, h) <==> Admitted(c, Filter(h, key)))
  {
    if h != [] {
      var h' := h[..|h| - 1];
      KeysAreIndependent(c, h', key);
      if h[|h| - 1].key == key {
        assert Filter(h, key)[..|Filter(h, key)| - 1] == Filter(h', key);
      }
    }
  }

  // ---------- The bound is reached ----------

  function Burst(key: string, n: nat, t: Time): (r: seq<Request>)
    ensures |r| == n && forall i :: 0 <= i < n ==> r[i] == Request(key, t)
  {
    seq(n, _ => Request(key, t))
  }

  /** One request opens a window; the rest of the quota follows at its end, and a whole quota just after it. */
  function Worst(c: Config, key: string): seq<Request>
    requires c.limit >= 1
  {
    [Request(key, 0)] + Burst(key, c.limit - 1, c.window - 1) + Burst(key, c.limit, c.window)
  }

  /** n further requests in an open window with room for them are all admitted. */
  lemma {:induction false} BurstAdmitted(c: Config, h: seq<Request>, key: string, n: nat, t: Time, v: Visitor, lo: Time,
                                         hi: Time)
    requires key in Replay(c, h) && Replay(c, h)[key] == v
    requires t - v.windowStart < c.window && v.count + n <= c.limit && lo <= t < hi
    ensures key in Replay(c, h + Burst(key, n, t))
    ensures Replay(c, h + Burst(key, n, t))[key] == Visitor(v.windowStart, v.count + n)
    ensures Count(c, h + Burst(key, n, t), key, lo, hi) == Count(c, h, key, lo, hi) + n
  {
    var all := h + Burst(key, n, t);
    if n == 0 {
      assert all == h;
    } else {
      BurstAdmitted(c, h, key, n - 1, t, v, lo, hi);
      assert all[..|all| - 1] == h + Burst(key, n - 1, t);
      assert all[|all| - 1] == Request(key, t);
    }
  }

  /** The first window, with its quota used up in its last tick but for the request that opened it. */
  lemma FirstWindow(c: Config, key: string)
    requires c.limit >= 1 && c.window >= 2
    ensures var h := [Request(key, 0)] + Burst(key, c.limit - 1, c.window - 1);
            && key in Replay(c, h) && Replay(c, h)[key] == Visitor(0, c.limit)
            && Count(c, h, key, 1, 1 + c.window) == c.limit - 1
  {
    var h := [Request(key, 0)];
    assert h[..0] == [];
    BurstAdmitted(c, h, key, c.limit - 1, c.window - 1, Visitor(0, 1), 1, 1 + c.window);
  }

  /** A request at the end of an open window opens the next one. */
  lemma NextWindow(c: Config, h: seq<Request>, key: string, lo: Time, hi: Time)
    requires c.limit >= 1 && key in Replay(c, h) && Replay(c, h)[key].windowStart == 0 && lo <= c.window < hi
    ensures var more := h + [Request(key, c.window)];
            && key in Replay(c, more) && Replay(c, more)[key] == Visitor(c.window, 1)
            && Count(c, more, key, lo, hi) == Count(c, h, key, lo, hi) + 1
  {
    assert (h + [Request(key, c.window)])[..|h|] == h;
  }

  /** For every limit and every window longer than one tick, 2 * limit - 1 requests do get through within one window. */
  lemma WindowBoundIsTight(c: Config, key: string)
    requires c.limit >= 1 && c.window >= 2
    ensures Ordered(Worst(c, key))
    ensures Count(c, Worst(c, key), key, 1, 1 + c.window) == 2 * c.limit - 1
  {
    hide Replay, Count;
    var h := [Request(key, 0)] + Burst(key, c.limit - 1, c.window - 1);
    FirstWindow(c, key);
    NextWindow(c, h, key, 1, 1 + c.window);
    var more := h + [Request(key, c.window)];
    BurstAdmitted(c, more, key, c.limit - 1, c.window, Visitor(c.window, 1), 1, 1 + c.window);
    assert more + Burst(key, c.limit - 1, c.window) == Worst(c, key);
  }
}
