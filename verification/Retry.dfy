/** reliability.Retry: a bounded attempt loop with exponential, clamped, jittered waits in 64-bit arithmetic. */
module Retry {
  import opened Domain
  import opened Int64

  datatype Policy = Policy(maxAttempts: int, baseDelay: int, maxDelay: int) {
    /** Both delays are 64-bit values. */
    predicate Representable() {
      Fits(baseDelay) && Fits(maxDelay)
    }
  }

  /** The exact, unbounded exponential delay before attempt k + 1. */
  function Exact(p: Policy, k: nat): int
    requires k >= 1
  {
    p.baseDelay * Pow2(k - 1)
  }

  function Min(a: int, b: int): int {
    if a < b then a else b
  }

  /** The delay as the program computes it: shift in 64 bits, then clamp. */
  function Delay(p: Policy, k: nat): int
    requires k >= 1
  {
    var shifted := Wrap(Exact(p, k));
    if p.maxDelay > 0 && shifted > p.maxDelay then p.maxDelay else shifted
  }

  /** Go's delay/2 truncates towards zero; a bound below one becomes one. */
  function JitterBound(delay: int): (b: int)
    ensures b >= 1
  {
    if delay / 2 > 1 then delay / 2 else 1
  }

  function Wait(p: Policy, k: nat, random: nat): int
    requires k >= 1
  {
    var d := Delay(p, k);
    Wrap(d + random % JitterBound(d))
  }

  /** One call, with what it was called with and what came of it. */
  datatype Exchange<A, T> = Exchange(argument: A, reply: Result<T>)

  /** Something that can be called and may answer anything; the log says what was asked of it. */
  class Operation<A, T(0)> {
    ghost var log: seq<Exchange<A, T>>

    constructor ()
      ensures log == []
    {
      log := [];
    }

    method Call(argument: A) returns (reply: Result<T>)
      modifies this
      ensures log == old(log) + [Exchange(argument, reply)]
    {
      reply := *;
      log := log + [Exchange(argument, reply)];
    }
  }

  /** What attempts are: all but the last have failed without an interruption, and the last one stops. */
  predicate Tried<T>(p: Policy, replies: seq<Result<T>>, interrupted: nat -> Option<Error>) {
    && 1 <= |replies| <= p.maxAttempts
    && (forall i :: 0 <= i < |replies| - 1 ==> replies[i].Err? && interrupted(i + 1).None?)
    && (replies[|replies| - 1].Err? && |replies| < p.maxAttempts ==> interrupted(|replies|).Some?)
  }

  /** What the caller gets: the last reply, or why the wait after it ended. */
  function Resulting<T>(p: Policy, replies: seq<Result<T>>, interrupted: nat -> Option<Error>): Result<T>
    requires replies != []
  {
    var last := replies[|replies| - 1];
    if last.Ok? || |replies| == p.maxAttempts || interrupted(|replies|).None? then last
    else Err(interrupted(|replies|).value)
  }

  function Asked<A, T>(argument: A, replies: seq<Result<T>>): (r: seq<Exchange<A, T>>)
    ensures |r| == |replies|
  {
    seq(|replies|, i requires 0 <= i < |replies| => Exchange(argument, replies[i]))
  }

  /** The operation is called with the argument, and the context is an arbitrary function of the attempt number. */
  method Retry<A, T(0)>(p: Policy, operation: Operation<A, T>, argument: A, interrupted: nat -> Option<Error>,
                    random: nat -> nat)
    returns (result: Result<T>, retries: int, waits: seq<int>, ghost replies: seq<Result<T>>)
    modifies operation
    ensures operation.log == old(operation.log) + Asked(argument, replies)
    ensures forall i :: 0 <= i < |replies| ==>
              operation.log[|old(operation.log)| + i] == Exchange(argument, replies[i])
    ensures p.maxAttempts < 1 ==> result == Err(InvalidPolicy) && retries == 0 && replies == []
    ensures p.maxAttempts >= 1 ==>
              && 1 <= |replies| <= p.maxAttempts && retries == |replies| - 1
              && (forall i :: 0 <= i < |replies| - 1 ==> replies[i].Err? && interrupted(i + 1).None?)
              && var last := replies[|replies| - 1];
                 if last.Err? && |replies| < p.maxAttempts then
                   interrupted(|replies|).Some? && result == Err(interrupted(|replies|).value)
                 else result == last
    ensures |waits| == if result.Ok? || |replies| == p.maxAttempts then retries else |replies|
    ensures forall i :: 0 <= i < |waits| ==> waits[i] == Wait(p, i + 1, random(i + 1))
  {
    result, retries, waits, replies := Err(InvalidPolicy), 0, [], [];
    if p.maxAttempts < 1 {
      return;
    }
    var attempt := 1;
    while attempt <= p.maxAttempts
      invariant 1 <= attempt <= p.maxAttempts
      invariant |replies| == attempt - 1 == |waits|
      invariant operation.log == old(operation.log) + Asked(argument, replies)
      invariant forall i :: 0 <= i < attempt - 1 ==> replies[i].Err? && interrupted(i + 1).None?
      invariant forall i :: 0 <= i < |waits| ==> waits[i] == Wait(p, i + 1, random(i + 1))
      decreases p.maxAttempts - attempt
    {
      result := operation.Call(argument);
      assert Asked(argument, replies) + [Exchange(argument, result)] == Asked(argument, replies + [result]);
      replies := replies + [result];
      if result.Ok? {
        retries := attempt - 1;
        return;
      }
      if attempt == p.maxAttempts {
        retries := attempt - 1;
        return;
      }
      waits := waits + [Wait(p, attempt, random(attempt))];
      if interrupted(attempt).Some? {
        result := Err(interrupted(attempt).value);
        retries := attempt - 1;
        return;
      }
      attempt := attempt + 1;
    }
    // The "retry exhausted" return of the program is dead code.
    assert false;
  }

  lemma ResultingIs<T>(p: Policy, replies: seq<Result<T>>, interrupted: nat -> Option<Error>)
    requires Tried(p, replies, interrupted)
    ensures Resulting(p, replies, interrupted) ==
            if replies[|replies| - 1].Err? && |replies| < p.maxAttempts then Err(interrupted(|replies|).value)
            else replies[|replies| - 1]
  {
  }

  lemma ExactGrows(p: Policy, i: nat, j: nat)
    requires 1 <= i <= j && p.baseDelay >= 0
    ensures Exact(p, i) <= Exact(p, j)
    decreases j - i
  {
    if i < j {
      ExactGrows(p, i, j - 1);
      assert Exact(p, j) == 2 * Exact(p, j - 1);
      assert Exact(p, j - 1) >= 0;
    }
  }

  /** The first attempt whose exact delay no longer fits in 64 bits. */
  lemma FirstOverflow(p: Policy, k: nat) returns (j: nat)
    requires k >= 1 && p.Representable() && p.baseDelay > 0 && Exact(p, k) >= TWO_63
    ensures 2 <= j <= k && Exact(p, j - 1) < TWO_63 <= Exact(p, j) < TWO_64
  {
    j := k;
    while Exact(p, j - 1) >= TWO_63
      invariant 2 <= j <= k && Exact(p, j) >= TWO_63
    {
      j := j - 1;
    }
    assert Exact(p, j) == 2 * Exact(p, j - 1);
  }

  /** At the first overflow the delay turns negative, and the clamp does not notice. */
  lemma OverflowIsNegative(p: Policy, j: nat)
    requires j >= 2 && p.baseDelay > 0 && p.maxDelay > 0 && TWO_63 <= Exact(p, j) < TWO_64
    ensures Delay(p, j) < 0
  {
    WrapPeriod(Exact(p, j) - TWO_64, 1);
  }

  /**
   * Up to attempt k the shift and clamp compute min(base * 2^(j-1), max) exactly as long as the last shift still fits.
   */
  lemma ClampIsExactIff(p: Policy, k: nat)
    requires k >= 1 && p.Representable() && p.baseDelay > 0 && p.maxDelay > 0
    ensures (forall j: nat :: 1 <= j <= k ==> Delay(p, j) == Min(Exact(p, j), p.maxDelay)) <==> Exact(p, k) < TWO_63
  {
    if Exact(p, k) < TWO_63 {
      forall j: nat | 1 <= j <= k ensures Delay(p, j) == Min(Exact(p, j), p.maxDelay) {
        ExactGrows(p, j, k);
        ExactGrows(p, 1, j);
      }
    } else {
      var j := FirstOverflow(p, k);
      OverflowIsNegative(p, j);
    }
  }

  /** The same condition decides whether the delays up to attempt k never decrease. */
  lemma DelaysAreOrderedIff(p: Policy, k: nat)
    requires k >= 1 && p.Representable() && p.baseDelay > 0 && p.maxDelay > 0
    ensures (forall i: nat, j: nat :: 1 <= i <= j <= k ==> Delay(p, i) <= Delay(p, j)) <==> Exact(p, k) < TWO_63
  {
    if Exact(p, k) < TWO_63 {
      forall i: nat, j: nat | 1 <= i <= j <= k ensures Delay(p, i) <= Delay(p, j) {
        ExactGrows(p, j, k);
        DelaysNeverDecrease(p, i, j);
      }
    } else {
      var j := FirstOverflow(p, k);
      OverflowIsNegative(p, j);
      DelaysNeverDecrease(p, j - 1, j - 1);
    }
  }

  /** Base delays never decrease while the shift has not overflowed. */
  lemma DelaysNeverDecrease(p: Policy, i: nat, j: nat)
    requires 1 <= i <= j && p.Representable() && p.baseDelay > 0 && p.maxDelay > 0 && Exact(p, j) < TWO_63
    ensures 0 < Delay(p, i) <= Delay(p, j) <= p.maxDelay
  {
    ExactGrows(p, i, j);
    ExactGrows(p, 1, i);
  }

  /** From attempt 65 on, every policy waits zero: all bits of the base have been shifted out. */
  lemma ShiftsOut(p: Policy, k: nat)
    requires k >= 65 && p.Representable()
    ensures Delay(p, k) == 0
  {
    Pow2SixtyFour();
    Pow2Adds(64, k - 65);
    var rest := p.baseDelay * Pow2(k - 65);
    assert Exact(p, k) == 0 + rest * TWO_64 by {
      assert Pow2(k - 1) == TWO_64 * Pow2(k - 65);
      MulAssoc(p.baseDelay, TWO_64, Pow2(k - 65));
    }
    WrapPeriod(0, rest);
  }

  lemma MulAssoc(a: int, b: int, c: int)
    ensures a * (b * c) == (a * c) * b
  {
  }

  lemma JitterRange(d: int, r: nat)
    requires d > 0
    ensures d <= d + r % JitterBound(d) <= d + JitterBound(d) - 1
    ensures 2 * (d + JitterBound(d) - 1) < 3 * d
  {
  }

  /** Jitter keeps a wait within [d, 1.5 d) for every draw exactly when the largest draw does not overflow. */
  lemma WaitRangeIff(p: Policy, k: nat)
    requires k >= 1 && p.Representable() && Delay(p, k) > 0
    ensures (forall r: nat :: Delay(p, k) <= Wait(p, k, r) && 2 * Wait(p, k, r) < 3 * Delay(p, k))
            <==> Delay(p, k) + JitterBound(Delay(p, k)) - 1 < TWO_63
  {
    var d := Delay(p, k);
    if d + JitterBound(d) - 1 < TWO_63 {
      forall r: nat ensures d <= Wait(p, k, r) && 2 * Wait(p, k, r) < 3 * d {
        WaitInRange(p, k, r);
      }
    } else {
      LargestDrawOverflows(p, k);
    }
  }

  lemma WaitInRange(p: Policy, k: nat, r: nat)
    requires k >= 1 && p.Representable() && Delay(p, k) > 0
    requires Delay(p, k) + JitterBound(Delay(p, k)) - 1 < TWO_63
    ensures Delay(p, k) <= Wait(p, k, r) && 2 * Wait(p, k, r) < 3 * Delay(p, k)
  {
    JitterRange(Delay(p, k), r);
  }

  /** Without overflow the waits after attempt k are exactly the delay and up to half of it, less one tick, more. */
  lemma WaitsAreDelayAndJitter(p: Policy, k: nat, wait: int)
    requires k >= 1 && p.Representable() && Delay(p, k) > 0 && 3 * Delay(p, k) < TWO_64
    ensures var d := Delay(p, k);
            (exists r: nat :: Wait(p, k, r) == wait) <==> wait == d || d <= wait < d + d / 2
  {
    var d := Delay(p, k);
    if r: nat :| Wait(p, k, r) == wait {
      JitterRange(d, r);
    }
    if wait == d || d <= wait < d + d / 2 {
      var r: nat := wait - d;
      SmallMod(r, JitterBound(d));
      assert Wait(p, k, r) == wait;
    }
  }

  /** A delay that is not positive gets no jitter. */
  lemma NoJitter(p: Policy, k: nat, r: nat)
    requires k >= 1 && p.Representable() && Delay(p, k) <= 0
    ensures Wait(p, k, r) == Delay(p, k)
  {
  }

  /** A maximum that is not positive does not clamp. */
  lemma Unclamped(p: Policy, k: nat)
    requires k >= 1 && p.Representable() && p.maxDelay <= 0 && Fits(p.baseDelay * Pow2(k - 1))
    ensures Delay(p, k) == p.baseDelay * Pow2(k - 1)
  {
  }

  lemma LargestDrawOverflows(p: Policy, k: nat)
    requires k >= 1 && p.Representable() && Delay(p, k) > 0
    requires Delay(p, k) + JitterBound(Delay(p, k)) - 1 >= TWO_63
    ensures Wait(p, k, JitterBound(Delay(p, k)) - 1) < 0
  {
    var d := Delay(p, k);
    var r: nat := JitterBound(d) - 1;
    SmallMod(r, JitterBound(d));
    JitterRange(d, r);
    WrapPeriod(d + r - TWO_64, 1);
  }

  lemma SmallMod(r: nat, b: nat)
    requires r < b
    ensures r % b == r
  {
  }

  function Total(waits: seq<int>): int {
    if waits == [] then 0 else Total(waits[..|waits| - 1]) + waits[|waits| - 1]
  }

  /** Every wait stays below 1.5 * max: a delay or jitter that overflows only makes it negative. */
  lemma WaitBelow(p: Policy, k: nat, r: nat)
    requires k >= 1 && p.Representable() && p.maxDelay > 0
    ensures 2 * Wait(p, k, r) < 3 * p.maxDelay
  {
    var d := Delay(p, k);
    if d > 0 {
      JitterRange(d, r);
      var sum := d + r % JitterBound(d);
      if sum >= TWO_63 {
        WrapPeriod(sum - TWO_64, 1);
      }
    } else {
      assert JitterBound(d) == 1;
    }
  }

  /** The waits planned by n + 1 attempts add up to less than 1.5 * n * max, whatever the base delay. */
  lemma {:induction false} TotalWaitBound(p: Policy, waits: seq<int>, random: nat -> nat)
    requires p.Representable() && p.maxDelay > 0 && waits != []
    requires forall i :: 0 <= i < |waits| ==> waits[i] == Wait(p, i + 1, random(i + 1))
    ensures 2 * Total(waits) < |waits| * (3 * p.maxDelay)
  {
    var n := |waits|;
    WaitBelow(p, n, random(n));
    StepProduct(n, 3 * p.maxDelay);
    if n == 1 {
      assert waits[..0] == [];
    } else {
      TotalWaitBound(p, waits[..n - 1], random);
    }
  }

  lemma StepProduct(n: int, m: int)
    ensures n * m == (n - 1) * m + m
  {
  }

  const MILLISECOND: int := 1_000_000

  /** The policy the engine is built with. */
  const ENGINE_POLICY := Policy(3, 200 * MILLISECOND, 2000 * MILLISECOND)

  lemma Pow2After32()
    ensures Pow2(35) == 8 * Pow2(32) && Pow2(36) == 16 * Pow2(32)
  {
    assert Pow2(33) == 2 * Pow2(32) && Pow2(34) == 2 * Pow2(33);
  }

  /** 200ms doubles safely up to attempt 36; at attempt 37 the shift goes negative and the clamp is defeated. */
  lemma EnginePolicyOverflowsAt37()
    ensures Exact(ENGINE_POLICY, 36) < TWO_63
    ensures Delay(ENGINE_POLICY, 36) == ENGINE_POLICY.maxDelay
    ensures Delay(ENGINE_POLICY, 37) < 0
  {
    hide Pow2;
    Pow2Powers();
    Pow2After32();
    assert Exact(ENGINE_POLICY, 36) == 200_000_000 * 0x8_0000_0000;
    assert Exact(ENGINE_POLICY, 37) == 200_000_000 * 0x10_0000_0000;
  }
}
