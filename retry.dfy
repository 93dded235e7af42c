/**
 * `with_retryable_back_off`: call a fallible operation until it succeeds, fails
 * with an error that is not retryable, or has been retried too often, sleeping
 * with an exponentially growing delay after each retryable failure.
 *
 * The operation is given as a script: `calls[k]` is what its (k+1)-th
 * invocation returns. A run that exhausts the script without stopping reports
 * no outcome (`out == None`); what happens after that is not determined by the
 * script. The sleeps are recorded, in order, instead of being waited for.
 */
module RetryBackOff {
  import opened Wrappers
  import opened ModelErrors

  /** An `anyhow::Error`: either a `ModelError` or any other error, known by its text. */
  datatype AnyError = Model(err: ModelError) | AdHoc(text: string)

  /**
   * The observable result of a run: the final outcome (`None` if the script ran
   * out first), the delays slept, how many times the operation was invoked and
   * the final value of the attempt counter.
   */
  datatype Run<V> = Run(out: Option<Result<V, AnyError>>, sleeps: seq<nat>, calls: nat, attempts: nat)

  /** A failure that the loop retries: a `ModelError` carrying retry options. */
  predicate IsRetryable<V>(c: Result<V, AnyError>) {
    c.Err? && c.error.Model? && c.error.err.retryable.Some?
  }

  function OptionsOf<V>(c: Result<V, AnyError>): RetryOptions
    requires IsRetryable(c)
  {
    c.error.err.retryable.value
  }

  /** The delay before the next retry: the error's `sleep` the first time, then the previous delay times its `factor`. */
  function NextDelay(previous: Option<nat>, retry: RetryOptions): (d: nat)
    ensures previous.None? ==> d == retry.sleep
    ensures previous.Some? && retry.factor >= 1 ==> d >= previous.value
    ensures previous.Some? && retry.factor == 0 ==> d == 0
  {
    match previous
    case None => retry.sleep
    case Some(b) => b * retry.factor
  }

  function DigitChar(d: nat): char
    requires d < 10
  {
    ('0' as int + d) as char
  }

  /** Decimal rendering of a `usize`. */
  function NatToString(n: nat): string
    decreases n
  {
    if n < 10 then [DigitChar(n)] else NatToString(n / 10) + [DigitChar(n % 10)]
  }

  /** The error reported once the retry budget is spent. */
  function TooManyRetries(retries: nat, e: ModelError): (s: string)
    ensures |s| > 18 + |Render(e)| && s[..18] == "Too many retries ("
    ensures s[|s| - |Render(e)|..] == Render(e)
  {
    "Too many retries (" + NatToString(retries) + "): " + Render(e)
  }

  /** What the loop breaks with when the operation returns something that is not retried. */
  function Terminal<V>(c: Result<V, AnyError>): (r: Result<V, AnyError>)
    requires !IsRetryable(c)
    ensures c.Ok? || c.error.AdHoc? ==> r == c
    ensures c.Err? && c.error.Model? ==>
      r.Err? && r.error.AdHoc? && ParseRendered(r.error.text) == Some((false, c.error.err.message))
  {
    match c
    case Ok(v) => Ok(v)
    case Err(AdHoc(t)) => Err(AdHoc(t))
    case Err(Model(e)) =>
      RenderRoundTrip(e);
      Err(AdHoc(Render(e)))
  }

  /**
   * The loop from invocation `i` on, with the counter at `attempts` and the
   * last delay `sleep`. Positions in the result are absolute.
   */
  ghost function Loop<V>(calls: seq<Result<V, AnyError>>, i: nat, attempts: nat, sleep: Option<nat>): (r: Run<V>)
    requires i <= |calls|
    ensures i <= r.calls <= |calls|
    ensures r.attempts == attempts + |r.sleeps|
    ensures r.out.None? <==> r.calls == |calls| && forall j :: i <= j < |calls| ==> IsRetryable(calls[j]) && attempts + j - i < OptionsOf(calls[j]).retries
    ensures r.out.Some? ==> i < r.calls
    decreases |calls| - i
  {
    if i == |calls| then Run(None, [], i, attempts)
    else
      var c := calls[i];
      if IsRetryable(c) then
        var retry := OptionsOf(c);
        var a := attempts + 1;
        var d := NextDelay(sleep, retry);
        if a > retry.retries then
          Run(Some(Err(AdHoc(TooManyRetries(retry.retries, c.error.err)))), [d], i + 1, a)
        else
          var r := Loop(calls, i + 1, a, Some(d));
          r.(sleeps := [d] + r.sleeps)
      else
        Run(Some(Terminal(c)), [], i + 1, attempts)
  }

  /** A whole run: from the first invocation, no attempts and no delay yet. */
  ghost function BackOff<V>(calls: seq<Result<V, AnyError>>): (r: Run<V>)
    ensures r.calls <= |calls| && r.attempts == |r.sleeps|
    ensures r.out.None? ==> r.calls == |calls|
  {
    Loop(calls, 0, 0, None)
  }

  /** `with_retryable_back_off`, run against the script `calls`. */
  method WithRetryableBackOff<V>(calls: seq<Result<V, AnyError>>)
    returns (out: Option<Result<V, AnyError>>, sleeps: seq<nat>, invoked: nat, attempts: nat)
    ensures Run(out, sleeps, invoked, attempts) == BackOff(calls)
  {
    out, sleeps, invoked, attempts := None, [], 0, 0;
    var sleep: Option<nat> := None;
    while invoked < |calls|
      invariant invoked <= |calls| && out.None?
      invariant var r := Loop(calls, invoked, attempts, sleep); r.(sleeps := sleeps + r.sleeps) == BackOff(calls)
      decreases |calls| - invoked
    {
      var c := calls[invoked];
      invoked := invoked + 1;
      match c {
        case Err(e) =>
          match e {
            case Model(err) =>
              match err.retryable {
                case Some(retry) =>
                  attempts := attempts + 1;
                  sleep := match sleep {
                    case None => Some(retry.sleep)
                    case Some(b) => Some(b * retry.factor)
                  };
                  sleeps := sleeps + [sleep.value];
                  if attempts > retry.retries {
                    out := Some(Err(AdHoc(TooManyRetries(retry.retries, err))));
                    break;
                  }
                case None =>
                  out := Some(Err(AdHoc(Render(err))));
                  break;
              }
            case AdHoc(_) =>
              out := Some(Err(e));
              break;
          }
        case Ok(v) =>
          out := Some(Ok(v));
          break;
      }
    }
  }

  // ---------------------------------------------------------------------------
  // Delays

  function Pow(k: nat, n: nat): nat {
    if n == 0 then 1 else k * Pow(k, n - 1)
  }

  /** Each delay of a run follows a retryable failure, and grows from the previous one by that failure's factor. */
  lemma {:induction false} LoopSleeps<V>(calls: seq<Result<V, AnyError>>, i: nat, attempts: nat, sleep: Option<nat>, k: nat)
    requires i <= |calls| && k < |Loop(calls, i, attempts, sleep).sleeps|
    ensures i + k < |calls| && IsRetryable(calls[i + k])
    ensures var r := Loop(calls, i, attempts, sleep);
      r.sleeps[k] == NextDelay(if k == 0 then sleep else Some(r.sleeps[k - 1]), OptionsOf(calls[i + k]))
    decreases k
  {
    var r := Loop(calls, i, attempts, sleep);
    assert i < |calls| && IsRetryable(calls[i]);
    var retry := OptionsOf(calls[i]);
    var d := NextDelay(sleep, retry);
    if attempts + 1 > retry.retries {
      assert r.sleeps == [d];
    } else {
      var rest := Loop(calls, i + 1, attempts + 1, Some(d));
      assert r.sleeps == [d] + rest.sleeps;
      if k > 0 {
        LoopSleeps(calls, i + 1, attempts + 1, Some(d), k - 1);
        assert r.sleeps[k] == rest.sleeps[k - 1];
        assert r.sleeps[k - 1] == if k == 1 then d else rest.sleeps[k - 2];
      }
    }
  }

  /**
   * The first delay is the first error's `sleep`; each later one is the
   * previous delay times the current error's `factor`.
   */
  lemma SleepSchedule<V>(calls: seq<Result<V, AnyError>>, k: nat)
    requires k < |BackOff(calls).sleeps|
    ensures k < |calls| && IsRetryable(calls[k])
    ensures var s := BackOff(calls).sleeps;
      s[k] == if k == 0 then OptionsOf(calls[0]).sleep else s[k - 1] * OptionsOf(calls[k]).factor
  {
    LoopSleeps(calls, 0, 0, None, k);
  }

  /** With one factor `f` throughout, the (k+1)-th delay is the first error's `sleep` times `f` to the k. */
  lemma {:induction false} GeometricSleeps<V>(calls: seq<Result<V, AnyError>>, f: nat, k: nat)
    requires forall j :: 0 <= j < |calls| && IsRetryable(calls[j]) ==> OptionsOf(calls[j]).factor == f
    requires k < |BackOff(calls).sleeps|
    ensures IsRetryable(calls[0]) && BackOff(calls).sleeps[k] == OptionsOf(calls[0]).sleep * Pow(f, k)
  {
    SleepSchedule(calls, k);
    if k > 0 {
      GeometricSleeps(calls, f, k - 1);
      calc {
        BackOff(calls).sleeps[k];
        BackOff(calls).sleeps[k - 1] * f;
        OptionsOf(calls[0]).sleep * Pow(f, k - 1) * f;
        OptionsOf(calls[0]).sleep * Pow(f, k);
      }
    }
  }

  // ---------------------------------------------------------------------------
  // Attempts

  function CountRetryable<V>(cs: seq<Result<V, AnyError>>): nat {
    if cs == [] then 0 else (if IsRetryable(cs[0]) then 1 else 0) + CountRetryable(cs[1..])
  }

  /** The counter goes up by exactly one per retryable failure met, and one delay is slept per such failure. */
  lemma {:induction false} LoopCountsRetries<V>(calls: seq<Result<V, AnyError>>, i: nat, attempts: nat, sleep: Option<nat>)
    requires i <= |calls|
    ensures var r := Loop(calls, i, attempts, sleep);
      |r.sleeps| == CountRetryable(calls[i..r.calls]) && r.attempts == attempts + |r.sleeps|
    decreases |calls| - i
  {
    var r := Loop(calls, i, attempts, sleep);
    if i < |calls| {
      assert calls[i..r.calls][0] == calls[i];
      assert calls[i..r.calls][1..] == calls[i + 1..r.calls];
      if IsRetryable(calls[i]) && attempts + 1 <= OptionsOf(calls[i]).retries {
        LoopCountsRetries(calls, i + 1, attempts + 1, Some(NextDelay(sleep, OptionsOf(calls[i]))));
      } else {
        assert calls[i + 1..r.calls] == [];
      }
    }
  }

  lemma AttemptsCountRetries<V>(calls: seq<Result<V, AnyError>>)
    ensures var r := BackOff(calls);
      r.attempts == |r.sleeps| == CountRetryable(calls[..r.calls])
  {
    LoopCountsRetries(calls, 0, 0, None);
    assert calls[0..BackOff(calls).calls] == calls[..BackOff(calls).calls];
  }

  // ---------------------------------------------------------------------------
  // Stopping

  /** Retried failures within budget all the way up to `limit`: a retryable error carrying `limit` stops the run. */
  lemma {:induction false} LoopRetryLimit<V>(calls: seq<Result<V, AnyError>>, limit: nat, i: nat, sleep: Option<nat>)
    requires limit < |calls| && i <= limit
    requires forall j :: 0 <= j < |calls| ==> IsRetryable(calls[j]) && OptionsOf(calls[j]).retries == limit
    ensures var r := Loop(calls, i, i, sleep);
      r.calls == limit + 1 && r.attempts == limit + 1 && |r.sleeps| == limit + 1 - i &&
      IsRetryable(calls[limit]) && r.out == Some(Err(AdHoc(TooManyRetries(limit, calls[limit].error.err))))
    decreases limit - i
  {
    if i < limit {
      LoopRetryLimit(calls, limit, i + 1, Some(NextDelay(sleep, OptionsOf(calls[i]))));
    }
  }

  /**
   * When every failure is retryable with the same `retries` R, the operation
   * is invoked R+1 times, a delay is slept after each invocation (the last
   * one included), and the run ends with the "Too many retries (R)" error.
   */
  lemma RetryLimit<V>(calls: seq<Result<V, AnyError>>, limit: nat)
    requires limit < |calls|
    requires forall j :: 0 <= j < |calls| ==> IsRetryable(calls[j]) && OptionsOf(calls[j]).retries == limit
    ensures var r := BackOff(calls);
      r.calls == limit + 1 && r.attempts == limit + 1 && |r.sleeps| == limit + 1 &&
      IsRetryable(calls[limit]) && r.out == Some(Err(AdHoc(TooManyRetries(limit, calls[limit].error.err))))
  {
    LoopRetryLimit(calls, limit, 0, None);
  }

  lemma {:induction false} LoopStopsAtTerminal<V>(calls: seq<Result<V, AnyError>>, j: nat, i: nat, sleep: Option<nat>)
    requires i <= j < |calls| && !IsRetryable(calls[j])
    requires forall k :: 0 <= k < j ==> IsRetryable(calls[k]) && k < OptionsOf(calls[k]).retries
    ensures var r := Loop(calls, i, i, sleep);
      r.out == Some(Terminal(calls[j])) && r.calls == j + 1 && r.attempts == j && |r.sleeps| == j - i
    decreases j - i
  {
    if i < j {
      LoopStopsAtTerminal(calls, j, i + 1, Some(NextDelay(sleep, OptionsOf(calls[i]))));
    }
  }

  /**
   * The first failure that is not retried, reached within budget, ends the
   * run at once: a success is returned as is, a model error without retry
   * options as an error carrying its rendering, and any other error unchanged.
   */
  lemma StopsAtFirstTerminal<V>(calls: seq<Result<V, AnyError>>, j: nat)
    requires j < |calls| && !IsRetryable(calls[j])
    requires forall k :: 0 <= k < j ==> IsRetryable(calls[k]) && k < OptionsOf(calls[k]).retries
    ensures var r := BackOff(calls);
      r.calls == j + 1 && r.attempts == j && |r.sleeps| == j
    ensures calls[j].Ok? ==> BackOff(calls).out == Some(calls[j])
    ensures calls[j].Err? && calls[j].error.AdHoc? ==> BackOff(calls).out == Some(calls[j])
    ensures calls[j].Err? && calls[j].error.Model? ==>
      BackOff(calls).out == Some(Err(AdHoc(Render(calls[j].error.err))))
  {
    LoopStopsAtTerminal(calls, j, 0, None);
  }

  /** A first call that succeeds is the whole run: one invocation, no delay. */
  lemma FirstSuccess<V>(calls: seq<Result<V, AnyError>>, v: V)
    requires |calls| > 0 && calls[0] == Ok(v)
    ensures BackOff(calls) == Run(Some(Ok(v)), [], 1, 0)
  {
  }

  /**
   * Every invocation before the last of a run was a retryable failure within
   * budget, and a successful outcome is the value the last invocation returned.
   */
  lemma {:induction false} LoopOnlyRetriesBeforeStop<V>(calls: seq<Result<V, AnyError>>, i: nat, sleep: Option<nat>)
    requires i <= |calls|
    ensures var r := Loop(calls, i, i, sleep);
      forall k :: i <= k < r.calls - 1 ==> IsRetryable(calls[k]) && k < OptionsOf(calls[k]).retries
    ensures var r := Loop(calls, i, i, sleep);
      r.out.Some? && r.out.value.Ok? ==> r.out.value == calls[r.calls - 1]
    decreases |calls| - i
  {
    if i < |calls| && IsRetryable(calls[i]) && i < OptionsOf(calls[i]).retries {
      LoopOnlyRetriesBeforeStop(calls, i + 1, Some(NextDelay(sleep, OptionsOf(calls[i]))));
    }
  }

  lemma OnlyRetriesBeforeStop<V>(calls: seq<Result<V, AnyError>>)
    ensures var r := BackOff(calls);
      forall k :: 0 <= k < r.calls - 1 ==> IsRetryable(calls[k]) && k < OptionsOf(calls[k]).retries
    ensures var r := BackOff(calls);
      r.out.Some? && r.out.value.Ok? ==> r.out.value == calls[r.calls - 1]
  {
    LoopOnlyRetriesBeforeStop(calls, 0, None);
  }
}
