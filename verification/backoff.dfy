/** Exponential back-off with jitter and a cap (jsonrpc/util.go:60-81), over exact reals. */
module Backoff {
  /** Delays are time.Duration values, in nanoseconds. */
  datatype Backoff = Backoff(minDelay: int, maxDelay: int)

  /** 2^63: the first float64 value that does not fit in a time.Duration. */
  const LIMIT: real := 9223372036854775808.0

  function Pow15(n: nat): (p: real)
    ensures p >= 1.0
  {
    if n == 0 then 1.0 else 1.5 * Pow15(n - 1)
  }

  function Envelope(b: Backoff, attempt: nat): real {
    b.minDelay as real * Pow15(attempt)
  }

  function Jitter(b: Backoff, jitter: real): real {
    jitter * b.minDelay as real
  }

  /** The delay before conversion: grown minDelay plus a jitter of less than minDelay. */
  function Grown(b: Backoff, attempt: nat, jitter: real): real {
    Envelope(b, attempt) + Jitter(b, jitter)
  }

  /** Conversion to int64 truncates; outside the range the result is whatever the platform gives. */
  function Convert(x: real, overflow: int): int {
    if !(-LIMIT <= x < LIMIT) then overflow
    else if x >= 0.0 then x.Floor
    else -((-x).Floor)
  }

  function Next(b: Backoff, attempt: int, jitter: real, overflow: int): int {
    if attempt < 0 then b.minDelay
    else
      var delay := Convert(Grown(b, attempt, jitter), overflow);
      if delay > b.maxDelay then b.maxDelay else delay
  }

  predicate Usable(b: Backoff) {
    0 < b.minDelay <= b.maxDelay
  }

  predicate Within(b: Backoff, delay: int) {
    b.minDelay <= delay <= b.maxDelay
  }

  lemma {:induction false} PowGrows(m: nat, n: nat)
    requires m <= n
    ensures Pow15(m) <= Pow15(n)
  {
    if m < n { PowGrows(m, n - 1); }
  }

  lemma Scale(x: real, y: real, m: real)
    requires x <= y && 0.0 <= m
    ensures m * x <= m * y
  {
  }

  lemma EnvelopeGrowsWith(b: Backoff, m: nat, n: nat)
    requires Usable(b) && m <= n
    ensures b.minDelay as real <= Envelope(b, m) <= Envelope(b, n)
  {
    PowGrows(m, n);
    Scale(1.0, Pow15(m), b.minDelay as real);
    Scale(Pow15(m), Pow15(n), b.minDelay as real);
  }

  lemma JitterBounds(b: Backoff, jitter: real)
    requires Usable(b) && 0.0 <= jitter < 1.0
    ensures 0.0 <= Jitter(b, jitter) <= b.minDelay as real
  {
    Scale(0.0, jitter, b.minDelay as real);
    Scale(jitter, 1.0, b.minDelay as real);
  }

  /**
   The delay lies between minDelay and maxDelay, whatever the platform makes of an
   overflowing conversion, exactly when the attempt is negative or the grown delay fits
   in a Duration.
   */
  lemma NextWithinIff(b: Backoff, attempt: int, jitter: real)
    requires Usable(b) && 0.0 <= jitter < 1.0
    ensures (forall overflow :: Within(b, Next(b, attempt, jitter, overflow)))
       <==> attempt < 0 || Grown(b, attempt, jitter) < LIMIT
  {
    if attempt >= 0 {
      EnvelopeGrowsWith(b, attempt, attempt);
      JitterBounds(b, jitter);
      if Grown(b, attempt, jitter) >= LIMIT {
        assert Next(b, attempt, jitter, -1) == -1;
        assert !Within(b, Next(b, attempt, jitter, -1));
      }
    }
  }

  /**
   Below the cap the delay is minDelay times 1.5 for each attempt, plus the jitter's share of
   minDelay, cut to whole nanoseconds; at the cap and above it is maxDelay.
   */
  lemma NextIs(b: Backoff, attempt: nat, jitter: real, overflow: int)
    requires Usable(b) && 0.0 <= jitter < 1.0
    ensures var grown := b.minDelay as real * Pow15(attempt) + jitter * b.minDelay as real;
            var next := Next(b, attempt, jitter, overflow);
            && (grown < b.maxDelay as real && grown < LIMIT ==> next as real <= grown < next as real + 1.0)
            && (b.maxDelay as real <= grown < LIMIT ==> next == b.maxDelay)
    ensures Pow15(0) == 1.0 && Pow15(attempt + 1) == 1.5 * Pow15(attempt)
    ensures forall a :: a < 0 ==> Next(b, a, jitter, overflow) == b.minDelay
  {
    EnvelopeGrowsWith(b, attempt, attempt);
    JitterBounds(b, jitter);
  }

  /** Without jitter the delay never shrinks from one attempt to a later one that still fits. */
  lemma EnvelopeGrows(b: Backoff, a1: int, a2: int, overflow: int)
    requires Usable(b) && a1 <= a2 && (a2 >= 0 ==> Grown(b, a2, 0.0) < LIMIT)
    ensures Next(b, a1, 0.0, overflow) <= Next(b, a2, 0.0, overflow)
  {
    if a2 >= 0 {
      JitterBounds(b, 0.0);
      if a1 >= 0 {
        EnvelopeGrowsWith(b, a1, a2);
        ConvertGrows(Grown(b, a1, 0.0), Grown(b, a2, 0.0), overflow);
      } else {
        EnvelopeGrowsWith(b, a2, a2);
        ConvertGrows(b.minDelay as real, Grown(b, a2, 0.0), overflow);
      }
    }
  }

  lemma ConvertGrows(x: real, y: real, overflow: int)
    requires 0.0 <= x <= y < LIMIT
    ensures Convert(x, overflow) <= Convert(y, overflow)
    ensures x == x.Floor as real ==> x.Floor <= Convert(y, overflow)
  {
  }

  /** The first attempt whose grown delay reaches the cap. */
  predicate CapAt(b: Backoff, n: nat) {
    && Envelope(b, n) >= b.maxDelay as real
    && (n > 0 ==> Envelope(b, n - 1) < b.maxDelay as real)
  }

  lemma EnvelopeStep(b: Backoff, n: nat)
    ensures Envelope(b, n + 1) == 1.5 * Envelope(b, n)
    ensures Envelope(b, 0) == b.minDelay as real
  {
    assert Pow15(n + 1) == 1.5 * Pow15(n);
  }

  method FirstCapped(b: Backoff) returns (n: nat)
    requires Usable(b)
    ensures CapAt(b, n)
  {
    n := 0;
    EnvelopeStep(b, 0);
    var d := b.minDelay as real;
    while d < b.maxDelay as real
      invariant d == Envelope(b, n) && d >= 1.0
      invariant n > 0 ==> Envelope(b, n - 1) < b.maxDelay as real
      decreases (2.0 * (b.maxDelay as real - d)).Floor
    {
      EnvelopeStep(b, n);
      d := 1.5 * d;
      n := n + 1;
    }
  }

  /**
   From the first capped attempt on, every delay that fits is maxDelay; and that attempt
   itself fits whenever 1.5 * maxDelay + minDelay does.
   */
  lemma CappedForGood(b: Backoff, n: nat, attempt: nat, jitter: real, overflow: int)
    requires Usable(b) && 0.0 <= jitter < 1.0 && CapAt(b, n) && n <= attempt
    ensures Grown(b, attempt, jitter) < LIMIT ==> Next(b, attempt, jitter, overflow) == b.maxDelay
    ensures 1.5 * b.maxDelay as real + b.minDelay as real < LIMIT ==> Grown(b, n, jitter) < LIMIT
  {
    EnvelopeGrowsWith(b, n, attempt);
    JitterBounds(b, jitter);
    if Grown(b, attempt, jitter) < LIMIT {
      ConvertGrows(b.maxDelay as real, Grown(b, attempt, jitter), overflow);
    }
    EnvelopeStep(b, if n > 0 then n - 1 else 0);
  }

  // ---- the back-off of retried calls: 100 ms to 10 minutes (jsonrpc/client.go:24-27) ----

  const METHOD_RETRY := Backoff(100000000, 600000000000)

  lemma {:induction false} PowAdd(m: nat, n: nat)
    ensures Pow15(m + n) == Pow15(m) * Pow15(n)
  {
    if m > 0 {
      PowAdd(m - 1, n);
      assert Pow15(m + n) == 1.5 * (Pow15(m - 1) * Pow15(n));
    }
  }

  lemma Powers()
    ensures Pow15(21) < 6000.0 <= Pow15(22)
    ensures Pow15(62) < 92233720367.0 && Pow15(63) > 92233720369.0
  {
    var p := Pow15(7);
    assert p == 17.0859375;
    PowAdd(7, 7);
    PowAdd(14, 7);
    PowAdd(21, 1);
    PowAdd(21, 21);
    PowAdd(42, 21);
    assert Pow15(1) == 1.5;
    assert Pow15(63) == 1.5 * Pow15(62);
  }

  /**
   The delays between retries stay between 100 ms and 10 minutes for the first 63 attempts
   and for no later one: from attempt 63 on the conversion overflows. From attempt 22 to
   attempt 62 the delay is always 10 minutes.
   */
  lemma MethodRetryExact(attempt: nat)
    ensures (forall jitter, overflow :: 0.0 <= jitter < 1.0 ==> Within(METHOD_RETRY, Next(METHOD_RETRY, attempt, jitter, overflow)))
       <==> attempt <= 62
    ensures 22 <= attempt <= 62 ==> forall jitter, overflow :: 0.0 <= jitter < 1.0 ==>
      Next(METHOD_RETRY, attempt, jitter, overflow) == METHOD_RETRY.maxDelay
  {
    Powers();
    if attempt <= 62 {
      PowGrows(attempt, 62);
      forall jitter, overflow | 0.0 <= jitter < 1.0
        ensures Within(METHOD_RETRY, Next(METHOD_RETRY, attempt, jitter, overflow))
        ensures attempt >= 22 ==> Next(METHOD_RETRY, attempt, jitter, overflow) == METHOD_RETRY.maxDelay
      {
        NextWithinIff(METHOD_RETRY, attempt, jitter);
        if attempt >= 22 { CappedForGood(METHOD_RETRY, 22, attempt, jitter, overflow); }
      }
    } else {
      PowGrows(63, attempt);
      assert Next(METHOD_RETRY, attempt, 0.0, -1) == -1;
      assert !Within(METHOD_RETRY, Next(METHOD_RETRY, attempt, 0.0, -1));
    }
  }
}
