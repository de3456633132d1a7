/** The bounded retry envelope around one order submission. */
module RetryEnvelope {
  import opened Authority
  import opened Text
  import opened OperationErrors

  const U32_MAX: nat := 0xFFFF_FFFF
  const NANOS: nat := 1_000_000_000
  /** The longest duration the host represents, in nanoseconds. */
  const DURATION_MAX: nat := U64_MAX * NANOS + (NANOS - 1)

  /** Durations are nanoseconds; attempt counts are 32-bit. */
  datatype RetryPolicy = RetryPolicy(maxAttempts: nat, baseBackoff: nat, maxBackoff: nat) {
    predicate Valid() {
      maxAttempts <= U32_MAX && baseBackoff <= DURATION_MAX && maxBackoff <= DURATION_MAX
    }
  }

  predicate ShouldRetry(policy: RetryPolicy, attempt: nat) {
    attempt < policy.maxAttempts
  }

  function Pow2(n: nat): (p: nat)
    ensures p >= 1
  {
    if n == 0 then 1 else 2 * Pow2(n - 1)
  }

  function SaturatingPow2(exponent: nat): nat {
    Min(Pow2(exponent), U32_MAX)
  }

  function SaturatingMul(duration: nat, factor: nat): nat {
    Min(duration * factor, DURATION_MAX)
  }

  /** The delay after failed attempt number `attempt`, a hint given in whole seconds. */
  function BackoffFor(policy: RetryPolicy, attempt: nat, retryAfter: Option<nat>): nat {
    if retryAfter.Some? then Min(retryAfter.value * NANOS, policy.maxBackoff)
    else
      var exponent := if attempt > 0 then attempt - 1 else 0;
      Min(SaturatingMul(policy.baseBackoff, SaturatingPow2(exponent)), policy.maxBackoff)
  }

  lemma {:induction false} Pow2Monotone(m: nat, n: nat)
    requires m <= n
    ensures Pow2(m) <= Pow2(n)
    decreases n
  {
    if m < n { Pow2Monotone(m, n - 1); }
  }

  /** Without a hint the saturation of the product never shows: the delay is the doubled
      base, its factor capped at 32 bits, cut off at the ceiling; and it never shrinks
      from one attempt to the next. */
  lemma BackoffDoublesUpToCeiling(policy: RetryPolicy, attempt: nat)
    requires policy.Valid() && attempt >= 1
    ensures BackoffFor(policy, attempt, None)
         == Min(policy.baseBackoff * Min(Pow2(attempt - 1), U32_MAX), policy.maxBackoff)
    ensures BackoffFor(policy, attempt, None) <= BackoffFor(policy, attempt + 1, None)
  {
    Pow2Monotone(attempt - 1, attempt);
    var f, f' := SaturatingPow2(attempt - 1), SaturatingPow2(attempt);
    MulMonotone(policy.baseBackoff, f, f');
  }

  lemma MulMonotone(b: nat, f: nat, f': nat)
    requires f <= f'
    ensures b * f <= b * f'
  {
  }

  // ---- the envelope ----------------------------------------------------------------------------

  /** What the environment answers at each attempt, counted from one. */
  datatype Environment = Environment(
    authorize: nat -> Option<nat>,
    post: nat -> PostOutcome,
    authorityActive: nat -> bool)

  datatype Event =
    | Authorized(permit: nat)
    | Refused
    | Posted(permit: nat, outcome: PostOutcome)
    | Released(permit: nat)
    | Slept(delay: nat)

  predicate IsRateLimited(outcome: PostOutcome) {
    outcome.Failed? && outcome.error.RateLimited?
  }

  /** Attempt `n` ends in another attempt. */
  predicate Retried(policy: RetryPolicy, env: Environment, n: nat) {
    && env.authorize(n).Some? && IsRateLimited(env.post(n))
    && env.authorityActive(n) && ShouldRetry(policy, n)
  }

  function Delay(policy: RetryPolicy, env: Environment, n: nat): nat
    requires IsRateLimited(env.post(n))
  {
    BackoffFor(policy, n, env.post(n).error.retryAfter)
  }

  function Round(policy: RetryPolicy, env: Environment, n: nat): seq<Event>
    requires Retried(policy, env, n)
  {
    var permit := env.authorize(n).value;
    [Authorized(permit), Posted(permit, env.post(n)), Released(permit), Slept(Delay(policy, env, n))]
  }

  function LastRound(env: Environment, n: nat): seq<Event> {
    if env.authorize(n).None? then [Refused]
    else
      var permit := env.authorize(n).value;
      [Authorized(permit), Posted(permit, env.post(n)), Released(permit)]
  }

  /** How attempt `n`, not retried, is reported. */
  function Verdict(env: Environment, n: nat): PostOutcome {
    if env.authorize(n).None? || (IsRateLimited(env.post(n)) && !env.authorityActive(n))
    then Failed(SubmissionRevoked) else env.post(n)
  }

  /** The number of the attempt that is not retried, from attempt `n` on. */
  function LastAttempt(policy: RetryPolicy, env: Environment, n: nat): (last: nat)
    ensures n <= last && !Retried(policy, env, last)
    ensures forall k :: n <= k < last ==> Retried(policy, env, k)
    ensures last <= if n < policy.maxAttempts then policy.maxAttempts else n
    decreases policy.maxAttempts - n
  {
    if Retried(policy, env, n) then LastAttempt(policy, env, n + 1) else n
  }

  /** The retried rounds from attempt `n` up to but not including `last`. */
  function Rounds(policy: RetryPolicy, env: Environment, n: nat, last: nat): seq<Event>
    requires n <= last && forall k :: n <= k < last ==> Retried(policy, env, k)
    decreases last - n
  {
    if n == last then [] else Rounds(policy, env, n, last - 1) + Round(policy, env, last - 1)
  }

  function EnvelopeTrace(policy: RetryPolicy, env: Environment): seq<Event> {
    var last := LastAttempt(policy, env, 1);
    Rounds(policy, env, 1, last) + LastRound(env, last)
  }

  method RetryPostOrder(policy: RetryPolicy, env: Environment)
    returns (verdict: PostOutcome, trace: seq<Event>)
    ensures verdict == Verdict(env, LastAttempt(policy, env, 1)) && trace == EnvelopeTrace(policy, env)
  {
    var attempt := 1;
    trace := [];
    while true
      invariant 1 <= attempt && (attempt == 1 || attempt <= policy.maxAttempts)
      invariant forall k :: 1 <= k < attempt ==> Retried(policy, env, k)
      invariant LastAttempt(policy, env, 1) == LastAttempt(policy, env, attempt)
      invariant trace == Rounds(policy, env, 1, attempt)
      decreases policy.maxAttempts - attempt
    {
      var permit := env.authorize(attempt);
      if permit.None? {
        trace := trace + [Refused];
        return Failed(SubmissionRevoked), trace;
      }
      var outcome := env.post(attempt);
      var held := [Authorized(permit.value), Posted(permit.value, outcome), Released(permit.value)];
      if !IsRateLimited(outcome) {
        return outcome, trace + held;
      }
      if !env.authorityActive(attempt) {
        return Failed(SubmissionRevoked), trace + held;
      }
      if !ShouldRetry(policy, attempt) {
        return outcome, trace + held;
      }
      var delay := BackoffFor(policy, attempt, outcome.error.retryAfter);
      assert Retried(policy, env, attempt);
      assert Round(policy, env, attempt) == held + [Slept(delay)];
      assert trace + held + [Slept(delay)] == trace + Round(policy, env, attempt);
      trace := trace + held + [Slept(delay)];
      attempt := attempt + 1;
    }
  }

  // ---- what the trace says --------------------------------------------------------------------

  function CountPosts(trace: seq<Event>): nat {
    if trace == [] then 0
    else CountPosts(trace[..|trace| - 1]) + (if trace[|trace| - 1].Posted? then 1 else 0)
  }

  function TotalSleep(trace: seq<Event>): nat {
    if trace == [] then 0
    else TotalSleep(trace[..|trace| - 1]) + (if trace[|trace| - 1].Slept? then trace[|trace| - 1].delay else 0)
  }

  lemma {:induction false} TotalsAdd(a: seq<Event>, b: seq<Event>)
    ensures CountPosts(a + b) == CountPosts(a) + CountPosts(b)
    ensures TotalSleep(a + b) == TotalSleep(a) + TotalSleep(b)
    decreases |b|
  {
    if b == [] {
      assert a + b == a;
    } else {
      assert (a + b)[..|a + b| - 1] == a + b[..|b| - 1];
      TotalsAdd(a, b[..|b| - 1]);
    }
  }

  lemma TotalsOfOne(e: Event)
    ensures CountPosts([e]) == (if e.Posted? then 1 else 0)
    ensures TotalSleep([e]) == (if e.Slept? then e.delay else 0)
  {
    assert [e][..0] == [];
  }

  lemma TotalsOfThree(a: Event, b: Event, c: Event)
    ensures CountPosts([a, b, c]) == CountPosts([a]) + CountPosts([b]) + CountPosts([c])
    ensures TotalSleep([a, b, c]) == TotalSleep([a]) + TotalSleep([b]) + TotalSleep([c])
  {
    assert [a, b, c] == [a] + [b] + [c];
    TotalsAdd([a] + [b], [c]);
    TotalsAdd([a], [b]);
  }

  lemma RoundTotals(policy: RetryPolicy, env: Environment, n: nat)
    requires Retried(policy, env, n)
    ensures CountPosts(Round(policy, env, n)) == 1
    ensures TotalSleep(Round(policy, env, n)) <= policy.maxBackoff
  {
    var r := Round(policy, env, n);
    assert r == [r[0], r[1], r[2]] + [r[3]];
    TotalsAdd([r[0], r[1], r[2]], [r[3]]);
    TotalsOfThree(r[0], r[1], r[2]);
    TotalsOfOne(r[0]);
    TotalsOfOne(r[1]);
    TotalsOfOne(r[2]);
    TotalsOfOne(r[3]);
  }

  lemma LastRoundTotals(env: Environment, n: nat)
    ensures CountPosts(LastRound(env, n)) <= 1 && TotalSleep(LastRound(env, n)) == 0
  {
    var r := LastRound(env, n);
    TotalsOfOne(r[0]);
    if |r| == 3 {
      assert r == [r[0], r[1], r[2]];
      TotalsOfThree(r[0], r[1], r[2]);
      TotalsOfOne(r[1]);
      TotalsOfOne(r[2]);
    }
  }

  lemma OneMoreTimes(k: nat, b: nat)
    ensures (k + 1) * b == k * b + b
  {
  }

  lemma {:induction false} RoundsTotals(policy: RetryPolicy, env: Environment, n: nat, last: nat)
    requires n <= last && forall k :: n <= k < last ==> Retried(policy, env, k)
    ensures CountPosts(Rounds(policy, env, n, last)) == last - n
    ensures TotalSleep(Rounds(policy, env, n, last)) <= (last - n) * policy.maxBackoff
    decreases last - n
  {
    hide CountPosts, TotalSleep, Round;
    if n < last {
      RoundsTotals(policy, env, n, last - 1);
      RoundTotals(policy, env, last - 1);
      TotalsAdd(Rounds(policy, env, n, last - 1), Round(policy, env, last - 1));
      OneMoreTimes(last - 1 - n, policy.maxBackoff);
    } else {
      TotalsOfNone();
    }
  }

  lemma TotalsOfNone()
    ensures CountPosts([]) == 0 && TotalSleep([]) == 0
  {
  }

  /** At most `max(1, maxAttempts)` POSTs, and at most one ceiling of sleep between each
      two of them. */
  lemma EnvelopeIsBounded(policy: RetryPolicy, env: Environment)
    ensures CountPosts(EnvelopeTrace(policy, env)) <= (if policy.maxAttempts > 1 then policy.maxAttempts else 1)
    ensures TotalSleep(EnvelopeTrace(policy, env)) <=
            (if policy.maxAttempts > 1 then policy.maxAttempts - 1 else 0) * policy.maxBackoff
  {
    hide CountPosts, TotalSleep, Rounds, LastRound, Retried;
    var last := LastAttempt(policy, env, 1);
    RoundsTotals(policy, env, 1, last);
    LastRoundTotals(env, last);
    TotalsAdd(Rounds(policy, env, 1, last), LastRound(env, last));
    var retries := if policy.maxAttempts > 1 then policy.maxAttempts - 1 else 0;
    MulMonotone(policy.maxBackoff, last - 1, retries);
  }

  /** Event `i` sits where the envelope puts it: a POST right after its own authorization,
      a sleep only after a rate limit whose permit has already been released. */
  predicate InPlace(trace: seq<Event>, i: nat)
    requires i < |trace|
  {
    match trace[i]
    case Posted(permit, _) => i >= 1 && trace[i - 1] == Authorized(permit)
    case Released(permit) => i >= 1 && trace[i - 1].Posted? && trace[i - 1].permit == permit
    case Slept(_) => i >= 2 && trace[i - 1].Released? && trace[i - 2].Posted? && IsRateLimited(trace[i - 2].outcome)
    case Authorized(_) => i == 0 || trace[i - 1].Slept?
    case Refused => i == |trace| - 1 && (i == 0 || trace[i - 1].Slept?)
  }

  lemma {:induction false} RoundsInPlace(policy: RetryPolicy, env: Environment, n: nat, last: nat)
    requires n <= last && forall k :: n <= k < last ==> Retried(policy, env, k)
    ensures var trace := Rounds(policy, env, n, last);
            && |trace| == 4 * (last - n)
            && (trace != [] ==> trace[|trace| - 1].Slept?)
            && (forall i :: 0 <= i < |trace| ==> !trace[i].Refused? && InPlace(trace, i))
            && (forall i :: 0 <= i < |trace| && trace[i].Posted? ==> IsRateLimited(trace[i].outcome))
    decreases last - n
  {
    if n < last {
      RoundsInPlace(policy, env, n, last - 1);
      var before, round := Rounds(policy, env, n, last - 1), Round(policy, env, last - 1);
      var trace := before + round;
      forall i | 0 <= i < |trace| ensures !trace[i].Refused? && InPlace(trace, i) {
        if i < |before| { assert InPlace(before, i); }
      }
    }
  }

  /** Every permit is held for exactly one POST and released before any backoff; every
      POST but the last was rate limited, so at most one attempt of an envelope can have
      been accepted, left indeterminate, or rejected otherwise. */
  lemma OnePermitPerPost(policy: RetryPolicy, env: Environment)
    ensures var trace := EnvelopeTrace(policy, env);
            && (forall i :: 0 <= i < |trace| ==> InPlace(trace, i))
            && (forall i, j :: 0 <= i < j < |trace| && trace[i].Posted? && trace[j].Posted? ==>
                                 IsRateLimited(trace[i].outcome))
  {
    var last := LastAttempt(policy, env, 1);
    RoundsInPlace(policy, env, 1, last);
    var before, final := Rounds(policy, env, 1, last), LastRound(env, last);
    var trace := before + final;
    forall i | 0 <= i < |trace| ensures InPlace(trace, i) {
      if i < |before| { assert InPlace(before, i); }
    }
  }

  // ---- the trace and the verdict, event by event ------------------------------------------------

  /** The attempt an event belongs to; each takes four events but the last. */
  function AttemptAt(i: nat): (n: nat)
    ensures n >= 1
  {
    i / 4 + 1
  }

  /** The delay the policy calls for: the venue's hint if there is one, otherwise the base
      doubled for each earlier attempt with its factor capped at 32 bits; at most the ceiling. */
  predicate IsCalledFor(policy: RetryPolicy, delay: nat, n: nat, hint: Option<nat>)
    requires n >= 1
  {
    delay == Min(policy.maxBackoff,
                 if hint.Some? then hint.value * 1_000_000_000
                 else policy.baseBackoff * Min(Pow2(n - 1), 4_294_967_295))
  }

  predicate EventIs(policy: RetryPolicy, env: Environment, e: Event, n: nat, place: nat)
    requires n >= 1
  {
    match place
    case 0 => if env.authorize(n).Some? then e == Authorized(env.authorize(n).value) else e == Refused
    case 1 => env.authorize(n).Some? && e == Posted(env.authorize(n).value, env.post(n))
    case 2 => env.authorize(n).Some? && e == Released(env.authorize(n).value)
    case _ => e.Slept? && IsRateLimited(env.post(n)) && IsCalledFor(policy, e.delay, n, env.post(n).error.retryAfter)
  }

  /** Another attempt follows attempt `n`. */
  predicate GoesOn(policy: RetryPolicy, env: Environment, n: nat) {
    && env.authorize(n).Some? && env.post(n).Failed? && env.post(n).error.RateLimited?
    && env.authorityActive(n) && n < policy.maxAttempts
  }

  lemma DelayIsCalledFor(policy: RetryPolicy, env: Environment, n: nat)
    requires policy.Valid() && n >= 1 && IsRateLimited(env.post(n))
    ensures IsCalledFor(policy, Delay(policy, env, n), n, env.post(n).error.retryAfter)
  {
    if env.post(n).error.retryAfter.None? { BackoffDoublesUpToCeiling(policy, n); }
  }

  lemma {:induction false} RoundsAreExact(policy: RetryPolicy, env: Environment, last: nat)
    requires policy.Valid() && 1 <= last && forall k :: 1 <= k < last ==> Retried(policy, env, k)
    ensures |Rounds(policy, env, 1, last)| == 4 * (last - 1)
    ensures forall i :: 0 <= i < |Rounds(policy, env, 1, last)| ==>
                          EventIs(policy, env, Rounds(policy, env, 1, last)[i], AttemptAt(i), i % 4)
    decreases last
  {
    hide IsCalledFor, Delay;
    if last > 1 {
      RoundsAreExact(policy, env, last - 1);
      var before, round := Rounds(policy, env, 1, last - 1), Round(policy, env, last - 1);
      DelayIsCalledFor(policy, env, last - 1);
      assert Rounds(policy, env, 1, last) == before + round;
      forall i | 0 <= i < |before + round| ensures EventIs(policy, env, (before + round)[i], AttemptAt(i), i % 4) {
        if i >= |before| {
          assert AttemptAt(i) == last - 1 && i % 4 == i - |before|;
        }
      }
    }
  }

  /** The trace, event by event: attempt `n` authorizes, posts and releases, and sleeps exactly
      what its own answer calls for; another attempt follows exactly when this one was
      authorized, ended rate limited, authority is still active, and attempts remain. */
  lemma TraceIsExact(policy: RetryPolicy, env: Environment)
    requires policy.Valid()
    ensures var trace := EnvelopeTrace(policy, env);
            && (|trace| % 4 == 1 || |trace| % 4 == 3)
            && (forall i :: 0 <= i < |trace| ==> EventIs(policy, env, trace[i], AttemptAt(i), i % 4))
            && (forall n :: 1 <= n < AttemptAt(|trace|) ==> GoesOn(policy, env, n))
            && !GoesOn(policy, env, AttemptAt(|trace|))
            && (|trace| % 4 == 1 <==> env.authorize(AttemptAt(|trace|)).None?)
  {
    hide IsCalledFor;
    var last := LastAttempt(policy, env, 1);
    RoundsAreExact(policy, env, last);
    var before, final := Rounds(policy, env, 1, last), LastRound(env, last);
    var trace := before + final;
    assert AttemptAt(|trace|) == last;
    forall i | 0 <= i < |trace| ensures EventIs(policy, env, trace[i], AttemptAt(i), i % 4) {
      if i >= |before| { assert AttemptAt(i) == last && i % 4 == i - |before|; }
    }
    assert !Retried(policy, env, last);
    forall n | 1 <= n < last ensures GoesOn(policy, env, n) {
      assert Retried(policy, env, n);
    }
  }

  /** The verdict, read off the trace: the outcome of its last POST, except that a trace ending
      in a refusal, or in a rate limit without authority, is reported as revoked. */
  lemma VerdictIsLastAnswer(policy: RetryPolicy, env: Environment)
    ensures var trace := EnvelopeTrace(policy, env);
            var n := AttemptAt(|trace|);
            var verdict := Verdict(env, LastAttempt(policy, env, 1));
            && trace != []
            && (trace[|trace| - 1].Refused? ==> verdict == Failed(SubmissionRevoked))
            && (!trace[|trace| - 1].Refused? ==>
                  && |trace| >= 3 && trace[|trace| - 2].Posted?
                  && var outcome := trace[|trace| - 2].outcome;
                     && (outcome.Failed? && outcome.error.RateLimited? && !env.authorityActive(n) ==>
                           verdict == Failed(SubmissionRevoked))
                     && (!(outcome.Failed? && outcome.error.RateLimited? && !env.authorityActive(n)) ==>
                           verdict == outcome))
            && (IsRateLimited(verdict) ==> n >= policy.maxAttempts && env.authorityActive(n))
  {
    var last := LastAttempt(policy, env, 1);
    RoundsInPlace(policy, env, 1, last);
    assert AttemptAt(|EnvelopeTrace(policy, env)|) == last;
    assert !Retried(policy, env, last);
  }

  /** What the venue answered to attempt `n`, for the attempts that reached their POST. */
  type Answers = nat -> Option<Result<PostResponse, SdkError>>

  ghost predicate Reports(env: Environment, answers: Answers) {
    forall n: nat :: answers(n).Some? ==> env.post(n) == ClassifyPost(answers(n).value)
  }

  /** Only the last attempt of an envelope can have been accepted or left in doubt: every
      earlier answer was the venue's own definite 429. */
  lemma EarlierAttemptsWereDefinitelyRefused(policy: RetryPolicy, env: Environment, answers: Answers, n: nat)
    requires Reports(env, answers) && 1 <= n < LastAttempt(policy, env, 1) && answers(n).Some?
    ensures var answer := answers(n).value;
            answer.Err? && !IsAmbiguous(answer.error)
            && answer.error.source.StatusSource? && answer.error.source.code == 429
  {
    assert Retried(policy, env, n);
    RateLimitedIffDefinite429(answers(n).value);
  }

  /** No two authorizations hand out the same permit, as with freshly minted capabilities. */
  ghost predicate FreshPermits(env: Environment) {
    forall m: nat, n: nat :: m != n && env.authorize(m).Some? ==> env.authorize(m) != env.authorize(n)
  }

  lemma {:induction false} RoundPermits(policy: RetryPolicy, env: Environment, last: nat)
    requires 1 <= last && forall k :: 1 <= k < last ==> Retried(policy, env, k)
    ensures var trace := Rounds(policy, env, 1, last);
            && |trace| == 4 * (last - 1)
            && forall i :: 0 <= i < |trace| && trace[i].Posted? ==>
                             i % 4 == 1 && Some(trace[i].permit) == env.authorize(1 + i / 4)
    decreases last
  {
    if last > 1 {
      RoundPermits(policy, env, last - 1);
      var before, round := Rounds(policy, env, 1, last - 1), Round(policy, env, last - 1);
      assert Rounds(policy, env, 1, last) == before + round;
    }
  }

  /** With fresh permits, no permit pays for two POSTs of an envelope. */
  lemma PermitsPostOnce(policy: RetryPolicy, env: Environment, i: nat, j: nat)
    requires FreshPermits(env)
    requires var trace := EnvelopeTrace(policy, env);
             i < j < |trace| && trace[i].Posted? && trace[j].Posted?
    ensures EnvelopeTrace(policy, env)[i].permit != EnvelopeTrace(policy, env)[j].permit
  {
    var last := LastAttempt(policy, env, 1);
    RoundPermits(policy, env, last);
    var before := Rounds(policy, env, 1, last);
    if j >= |before| {
      assert j == |before| + 1 && Some(EnvelopeTrace(policy, env)[j].permit) == env.authorize(last);
    }
  }
}
