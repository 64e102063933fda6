/**
 The retry engine (internal/retry/retry.go) and the target helpers that share or clone one retrier
 (internal/remoteflight/target.go). The operation is an oracle: `run(i)` is the outcome of its
 i-th call within one Retry.
 */
module Retry {
  import opened Wrappers
  import opened Contexts
  import opened Intervals

  /** An error and the sentinel errors that errors.Is finds in it. */
  datatype GoError = GoError(text: string, matches: set<string>)

  datatype Attempt<+T> = Attempt(value: T, err: Option<GoError>)

  /** The parts that errors.Join has collected, in order. */
  datatype Part = Failed(attempt: nat, err: GoError) | ContextDone

  const MAX_RETRIES_UNLIMITED := -1

  function Max(a: int, b: int): int {
    if a < b then b else a
  }

  /** The errors of the first n calls, each with its number. */
  function Failures<T>(run: nat -> Attempt<T>, n: nat): seq<Part>
    requires forall i :: 0 <= i < n ==> run(i).err.Some?
  {
    seq(n, i requires 0 <= i < n => Failed(i + 1, run(i).err.value))
  }

  class Retrier {
    var attempts: nat
    const maxRetries: int
    const onlyRetryErrors: seq<string>
    const interval: nat -> int
    var lastErr: Option<GoError>

    constructor (maxRetries: int, onlyRetryErrors: seq<string>, interval: nat -> int)
      ensures attempts == 0 && this.maxRetries == maxRetries
      ensures this.onlyRetryErrors == onlyRetryErrors && this.interval == interval
    {
      attempts, lastErr := 0, None;
      this.maxRetries, this.onlyRetryErrors, this.interval := maxRetries, onlyRetryErrors, interval;
    }

    constructor Clone(r: Retrier)
      ensures attempts == r.attempts && maxRetries == r.maxRetries && lastErr == r.lastErr
      ensures onlyRetryErrors == r.onlyRetryErrors && interval == r.interval
    {
      attempts, maxRetries, lastErr := r.attempts, r.maxRetries, r.lastErr;
      onlyRetryErrors, interval := r.onlyRetryErrors, r.interval;
    }

    method Run<T>(a: Attempt<T>)
      modifies this
      ensures attempts == old(attempts) + 1 && lastErr == a.err
    {
      attempts := attempts + 1;
      lastErr := a.err;
    }

    /** Whether an attempt that made the counter `count` and ended with `err` may be followed by another. */
    predicate MayRetry(count: nat, err: Option<GoError>) {
      && (maxRetries > MAX_RETRIES_UNLIMITED ==> count < maxRetries)
      && (onlyRetryErrors == [] ||
          exists i :: 0 <= i < |onlyRetryErrors| && err.Some? && onlyRetryErrors[i] in err.value.matches)
    }

    method ShouldRetry() returns (b: bool)
      ensures b == MayRetry(attempts, lastErr)
      ensures b <==>
              && (maxRetries < 0 || attempts < maxRetries)
              && (onlyRetryErrors == [] ||
                  (lastErr.Some? && exists e :: e in onlyRetryErrors && e in lastErr.value.matches))
    {
      if maxRetries > MAX_RETRIES_UNLIMITED && attempts >= maxRetries { return false; }
      if |onlyRetryErrors| > 0 {
        for i := 0 to |onlyRetryErrors|
          invariant forall j :: 0 <= j < i ==> lastErr.None? || onlyRetryErrors[j] !in lastErr.value.matches
        {
          if lastErr.Some? && onlyRetryErrors[i] in lastErr.value.matches { return true; }
        }
        return false;
      }
      return true;
    }

    /** The i-th call of a Retry that started at counter `a` is its last one. */
    predicate LastCall<T>(a: nat, run: nat -> Attempt<T>, i: nat) {
      run(i).err.None? || !MayRetry(a + i + 1, run(i).err)
    }

    /** The last call is one that succeeds, reaches the limit, or fails for another reason than those listed. */
    lemma LastCallIff<T>(a: nat, run: nat -> Attempt<T>, i: nat)
      ensures LastCall(a, run, i) <==>
              || run(i).err.None?
              || (maxRetries >= 0 && a + i + 1 >= maxRetries)
              || (onlyRetryErrors != [] && forall e :: e in onlyRetryErrors ==> e !in run(i).err.value.matches)
    {
      assert forall i :: 0 <= i < |onlyRetryErrors| ==> onlyRetryErrors[i] in onlyRetryErrors;
    }

    /**
     Retry with this retrier. It makes n calls: none but the last is one to stop after, and the
     last one is, unless the context was found done first. `sleeps` are the waits between them.
     */
    method Retry<T>(ctx: Context, run: nat -> Attempt<T>)
      returns (res: Option<T>, err: seq<Part>, n: nat, sleeps: seq<int>)
      modifies this, ctx
      ensures attempts == old(attempts) + n && (n > 0 ==> lastErr == run(n - 1).err)
      ensures forall i :: 0 <= i < n - 1 ==> !LastCall(old(attempts), run, i)
      ensures ctx.left == 0 || (n > 0 && LastCall(old(attempts), run, n - 1))
      ensures res == if n > 0 then Some(run(n - 1).value) else None
      ensures err == [] <==> n > 0 && run(n - 1).err.None?
      ensures err != [] ==>
              && (forall i :: 0 <= i < n ==> run(i).err.Some?)
              && (err == Failures(run, n) || (err == Failures(run, n) + [ContextDone] && ctx.left == 0))
      ensures err != [] ==> |err| >= n && forall i :: 0 <= i < n ==> err[i] == Failed(i + 1, run(i).err.value)
      ensures |sleeps| == if err != [] && err[|err| - 1] == ContextDone then n else n - 1
      ensures forall i :: 0 <= i < |sleeps| ==> sleeps[i] == interval(old(attempts) + i + 1)
      ensures old(ctx.left) > 0 ==> 1 <= n
      ensures maxRetries >= 0 ==> n <= Max(1, maxRetries - old(attempts))
      ensures n + ctx.left == old(ctx.left)
    {
      res, err, n, sleeps := None, [], 0, [];
      while true
        invariant attempts == old(attempts) + n && (n > 0 ==> lastErr == run(n - 1).err)
        invariant |sleeps| == n && n + ctx.left == old(ctx.left)
        invariant forall i :: 0 <= i < n ==>
                    !LastCall(old(attempts), run, i) && sleeps[i] == interval(old(attempts) + i + 1)
        invariant forall i :: 0 <= i < n ==> run(i).err.Some?
        invariant n > 0 && maxRetries >= 0 ==> old(attempts) + n < maxRetries
        invariant err == Failures(run, n)
        invariant res == if n > 0 then Some(run(n - 1).value) else None
        decreases ctx.left
      {
        var over := ctx.Poll();
        if over { return res, err + [ContextDone], n, sleeps; }
        var a := run(n);
        Run(a);
        n, res := n + 1, Some(a.value);
        if a.err.None? { return res, [], n, sleeps; }
        err := err + [Failed(n, a.err.value)];
        assert err == Failures(run, n);
        var again := ShouldRetry();
        if !again { return res, err, n, sleeps; }
        sleeps := sleeps + [interval(attempts)];
      }
    }
  }

  function Sum(s: seq<nat>): nat {
    if s == [] then 0 else Sum(s[..|s| - 1]) + s[|s| - 1]
  }

  lemma SumNone()
    ensures Sum([]) == 0
  {
  }

  lemma SumSnoc(s: seq<nat>, n: nat)
    ensures Sum(s + [n]) == Sum(s) + n
  {
    assert (s + [n])[..|s|] == s;
  }

  /**
   Helpers one after the other on one shared retrier, as InstallFlightControl asks for platform and
   architecture; the first error ends it. The budget is shared: each further call adds at most one
   attempt to it.
   */
  method OnShared<T>(ctx: Context, r: Retrier, ops: seq<nat -> Attempt<T>>) returns (counts: seq<nat>, ok: bool)
    requires r.attempts == 0
    modifies r, ctx
    ensures |counts| <= |ops| && r.attempts == Sum(counts)
    ensures r.maxRetries >= 0 && counts != [] ==> Sum(counts) <= Max(1, r.maxRetries) + |counts| - 1
    ensures ok ==> |counts| == |ops| && forall k :: 0 <= k < |ops| ==> counts[k] > 0 && ops[k](counts[k] - 1).err.None?
    ensures !ok ==> counts != []
    ensures !ok && ctx.left > 0 ==> counts[|counts| - 1] > 0 && ops[|counts| - 1](counts[|counts| - 1] - 1).err.Some?
  {
    hide Retrier.LastCall, Failures, Sum;
    counts, ok := [], true;
    SumNone();
    while |counts| < |ops|
      invariant |counts| <= |ops| && r.attempts == Sum(counts)
      invariant r.maxRetries >= 0 && counts != [] ==> Sum(counts) <= Max(1, r.maxRetries) + |counts| - 1
      invariant forall k :: 0 <= k < |counts| ==> counts[k] > 0 && ops[k](counts[k] - 1).err.None?
      decreases |ops| - |counts|
    {
      var _, err, n, _ := r.Retry(ctx, ops[|counts|]);
      SumSnoc(counts, n);
      counts := counts + [n];
      if err != [] { return counts, false; }
    }
  }

  /** The calls that a Retry still makes after i of them, when the context lasts for `left` more. */
  function Calls<T>(r: Retrier, a: nat, run: nat -> Attempt<T>, i: nat, left: nat): nat
    decreases left
  {
    if left == 0 then 0 else if r.LastCall(a, run, i) then 1 else 1 + Calls(r, a, run, i + 1, left - 1)
  }

  /** How long the context still lasts before the helper k, when each helper has the counter at `a`. */
  function LeftAt<T>(r: Retrier, a: nat, ops: seq<nat -> Attempt<T>>, k: nat, left: nat): (l: nat)
    requires k <= |ops|
    ensures l <= left
  {
    if k == 0 then left else
    var before := LeftAt(r, a, ops, k - 1, left);
    CallsInTime(r, a, ops[k - 1], 0, before);
    before - Calls(r, a, ops[k - 1], 0, before)
  }

  lemma {:induction false} CallsInTime<T>(r: Retrier, a: nat, run: nat -> Attempt<T>, i: nat, left: nat)
    ensures Calls(r, a, run, i, left) <= left
    decreases left
  {
    if left > 0 { CallsInTime(r, a, run, i + 1, left - 1); }
  }

  /** What Retry ensures of the number of its calls determines it. */
  lemma {:induction false} CountsCalls<T>(r: Retrier, a: nat, run: nat -> Attempt<T>, i: nat, left: nat, n: nat)
    requires n <= left && forall j :: i <= j < i + n - 1 ==> !r.LastCall(a, run, j)
    requires n == left || (n > 0 && r.LastCall(a, run, i + n - 1))
    ensures Calls(r, a, run, i, left) == n
    decreases n
  {
    hide Retrier.LastCall;
    if n > 1 { CountsCalls(r, a, run, i + 1, left - 1, n - 1); }
  }

  /** The context is done before a helper that converts its result without a check. */
  predicate Panics<T>(r: Retrier, a: nat, ops: seq<nat -> Attempt<T>>, bare: nat -> bool, left: nat) {
    exists k :: 0 <= k < |ops| && bare(k) && LeftAt(r, a, ops, k, left) == 0
  }

  /**
   Helpers that each work on a clone, as TargetHostInfo calls them: none of them spends another
   one's budget, and an error does not keep the others from being called. A helper of which `bare`
   holds converts its result without a check, as TargetDistro and TargetDistroVersion do; it panics
   when the context was done before its first attempt, and then the others are not called.
   */
  method OnClones<T>(ctx: Context, r: Retrier, ops: seq<nat -> Attempt<T>>, bare: nat -> bool)
    returns (counts: seq<nat>, panicked: bool)
    modifies ctx
    ensures panicked <==> Panics(r, r.attempts, ops, bare, old(ctx.left))
    ensures |counts| <= |ops| && (!panicked ==> |counts| == |ops|)
    ensures forall k :: 0 <= k < |counts| ==>
              counts[k] == Calls(r, r.attempts, ops[k], 0, LeftAt(r, r.attempts, ops, k, old(ctx.left)))
    ensures ctx.left == LeftAt(r, r.attempts, ops, |counts|, old(ctx.left))
    ensures panicked <==> exists k :: 0 <= k < |counts| && counts[k] == 0 && bare(k)
    ensures panicked ==> ctx.left == 0 && counts != [] && counts[|counts| - 1] == 0 && bare(|counts| - 1)
    ensures r.maxRetries >= 0 ==>
            forall k :: 0 <= k < |counts| ==> counts[k] <= Max(1, r.maxRetries - r.attempts)
    ensures ctx.left > 0 ==> !panicked && forall k :: 0 <= k < |ops| ==>
            && counts[k] > 0 && r.LastCall(r.attempts, ops[k], counts[k] - 1)
            && forall i :: 0 <= i < counts[k] - 1 ==> !r.LastCall(r.attempts, ops[k], i)
  {
    hide Retrier.LastCall, Failures, Calls, LeftAt, Panics;
    ghost var total := ctx.left;
    assert LeftAt(r, r.attempts, ops, 0, total) == total by { LeftFirst(r, r.attempts, ops, total); }
    counts, panicked := [], false;
    while |counts| < |ops|
      invariant |counts| <= |ops| && forall k :: 0 <= k < |counts| ==> !(counts[k] == 0 && bare(k))
      invariant ctx.left == LeftAt(r, r.attempts, ops, |counts|, old(ctx.left))
      invariant forall k :: 0 <= k < |counts| ==>
                  counts[k] == Calls(r, r.attempts, ops[k], 0, LeftAt(r, r.attempts, ops, k, old(ctx.left)))
      invariant r.maxRetries >= 0 ==>
                forall k :: 0 <= k < |counts| ==> counts[k] <= Max(1, r.maxRetries - r.attempts)
      invariant ctx.left > 0 ==> forall k :: 0 <= k < |counts| ==>
                && counts[k] > 0 && r.LastCall(r.attempts, ops[k], counts[k] - 1)
                && forall i :: 0 <= i < counts[k] - 1 ==> !r.LastCall(r.attempts, ops[k], i)
      decreases |ops| - |counts|
    {
      var c := new Retrier.Clone(r);
      ghost var left, run := ctx.left, ops[|counts|];
      var res, _, n, _ := c.Retry(ctx, ops[|counts|]);
      SameLimits(c, r, run);
      CountsCalls(r, r.attempts, run, 0, left, n);
      LeftNext(r, r.attempts, ops, |counts|, total);
      counts := counts + [n];
      if res.None? && bare(|counts| - 1) {
        PanicsIff(r, r.attempts, ops, bare, total, counts);
        return counts, true;
      }
    }
    PanicsIff(r, r.attempts, ops, bare, total, counts);
  }

  /** It panics exactly when some helper that converts without a check has made no call. */
  lemma PanicsIff<T>(r: Retrier, a: nat, ops: seq<nat -> Attempt<T>>, bare: nat -> bool, left: nat, counts: seq<nat>)
    requires |counts| <= |ops|
    requires forall k :: 0 <= k < |counts| ==> counts[k] == Calls(r, a, ops[k], 0, LeftAt(r, a, ops, k, left))
    ensures (exists k :: 0 <= k < |counts| && counts[k] == 0 && bare(k)) ==> Panics(r, a, ops, bare, left)
    ensures |counts| == |ops| && Panics(r, a, ops, bare, left) ==>
              exists k :: 0 <= k < |counts| && counts[k] == 0 && bare(k)
  {
    hide LeftAt, Retrier.LastCall;
  }

  lemma LeftFirst<T>(r: Retrier, a: nat, ops: seq<nat -> Attempt<T>>, left: nat)
    ensures LeftAt(r, a, ops, 0, left) == left
  {
  }

  lemma LeftNext<T>(r: Retrier, a: nat, ops: seq<nat -> Attempt<T>>, k: nat, left: nat)
    requires k < |ops|
    ensures LeftAt(r, a, ops, k + 1, left) ==
            LeftAt(r, a, ops, k, left) - Calls(r, a, ops[k], 0, LeftAt(r, a, ops, k, left))
  {
  }

  /** The helpers of TargetHostInfo, by position, that convert without a check: the distribution and its version. */
  predicate Unchecked(k: nat) {
    k == 1 || k == 2
  }

  /** TargetHostInfo panics exactly when its context does not outlast the calls for the first two helpers. */
  lemma HostInfoPanicsIff<T>(r: Retrier, a: nat, ops: seq<nat -> Attempt<T>>, left: nat)
    requires |ops| > 2
    ensures Panics(r, a, ops, Unchecked, left) <==>
            var first := Calls(r, a, ops[0], 0, left);
            first <= left && first + Calls(r, a, ops[1], 0, left - first) == left
  {
    hide Calls, Retrier.LastCall, LeftAt;
    LeftFirst(r, a, ops, left);
    LeftNext(r, a, ops, 0, left);
    LeftNext(r, a, ops, 1, left);
  }

  /** Helpers that succeed at once use one call of the context each. */
  lemma {:induction false} QuickHelpers<T>(r: Retrier, a: nat, ops: seq<nat -> Attempt<T>>, k: nat, left: nat)
    requires k <= |ops| && forall j :: 0 <= j < k ==> ops[j](0).err.None?
    ensures LeftAt(r, a, ops, k, left) == Max(0, left - k)
  {
    if k > 0 { QuickHelpers(r, a, ops, k - 1, left); }
  }

  /** For instance: every helper works at once, and the context is done after the first two. */
  lemma DoneBetweenHelpers(r: Retrier, a: nat)
    ensures var works: nat -> Attempt<string> := _ => Attempt("", None);
            var ops := [works, works, works];
            Panics(r, a, ops, Unchecked, 2) && !Panics(r, a, ops, Unchecked, 3)
  {
    var works: nat -> Attempt<string> := _ => Attempt("", None);
    var ops := [works, works, works];
    QuickHelpers(r, a, ops, 1, 3);
    QuickHelpers(r, a, ops, 2, 2);
    QuickHelpers(r, a, ops, 2, 3);
  }

  lemma SameLimits<T>(c: Retrier, r: Retrier, run: nat -> Attempt<T>)
    requires c.maxRetries == r.maxRetries && c.onlyRetryErrors == r.onlyRetryErrors
    ensures forall a: nat, i: nat :: c.LastCall(a, run, i) == r.LastCall(a, run, i)
  {
    forall a: nat, i: nat ensures c.LastCall(a, run, i) == r.LastCall(a, run, i) {
      assert c.MayRetry(a + i + 1, run(i).err) == r.MayRetry(a + i + 1, run(i).err);
    }
  }

  /** The shared budget is used up to the last attempt when every call but the last fails. */
  lemma {:induction false} FailingCallsUseTheBudget<T>(r: Retrier, a: nat, run: nat -> Attempt<T>, n: nat)
    requires r.maxRetries >= 0 && r.onlyRetryErrors == [] && n > 0
    requires forall i :: 0 <= i < n ==> run(i).err.Some?
    requires r.LastCall(a, run, n - 1) && forall i :: 0 <= i < n - 1 ==> !r.LastCall(a, run, i)
    ensures n == Max(1, r.maxRetries - a)
  {
    if n > 1 { assert !r.LastCall(a, run, n - 2); }
  }

  // ---------------------------------------------------------------------------------------------
  // How long a Retry waits

  function TotalWait(sleeps: seq<int>): int {
    if sleeps == [] then 0 else TotalWait(sleeps[..|sleeps| - 1]) + sleeps[|sleeps| - 1]
  }

  lemma FirstFib()
    ensures Fib(2) == 1
  {
  }

  /** The waits before attempt n of a fresh Fibonacci retrier, while no interval overflows. */
  lemma {:induction false} FibonacciWaits(base: nat, sleeps: seq<int>)
    requires forall i :: 0 <= i < |sleeps| ==> sleeps[i] == FibonacciInterval(base, i + 1) == Fib(i + 1) * base
    ensures TotalWait(sleeps) == (Fib(|sleeps| + 2) - 1) * base
  {
    hide Fib, FibonacciInterval;
    if sleeps == [] {
      FirstFib();
    } else {
      var n := |sleeps| - 1;
      assert forall i :: 0 <= i < n ==> sleeps[..n][i] == sleeps[i];
      FibonacciWaits(base, sleeps[..n]);
      FibNext(n + 3);
      calc {
        TotalWait(sleeps);
        (Fib(n + 2) - 1) * base + Fib(n + 1) * base;
        (Fib(n + 2) - 1 + Fib(n + 1)) * base;
      }
    }
  }
}
