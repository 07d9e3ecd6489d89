/** The averaging ADC read of the calibration tool's ADC driver. The hardware
    read `adc_oneshot_read` is an input: the outcome of the i-th attempt. */
module AdcDriver {

  datatype AdcRead = Sample(raw: int) | ReadFailed

  /** The outcome of each successive read attempt, by attempt number. */
  type Sampler = nat -> AdcRead

  /** The sample count used when the caller passes a non-positive one. */
  const DefaultSamples: nat := 10

  function EffectiveSamples(samples: int): (n: nat)
    ensures n > 0
    ensures samples > 0 ==> n == samples
    ensures samples <= 0 ==> n == DefaultSamples
  {
    if samples <= 0 then DefaultSamples else samples
  }

  /** The sum of the successful readings among attempts 0 .. n-1. */
  function SumOk(adc: Sampler, n: nat): (s: int)
    ensures (forall i :: 0 <= i < n && adc(i).Sample? ==> adc(i).raw >= 0) ==> s >= 0
  {
    if n == 0 then 0
    else SumOk(adc, n - 1) + (match adc(n - 1) case Sample(v) => v case ReadFailed => 0)
  }

  /** The number of failed attempts among attempts 0 .. n-1. */
  function Failures(adc: Sampler, n: nat): (f: nat)
    ensures f <= n
  {
    if n == 0 then 0
    else Failures(adc, n - 1) + (if adc(n - 1).ReadFailed? then 1 else 0)
  }

  /** C integer division, which truncates toward zero. */
  function CDiv(a: int, b: int): (q: int)
    requires b > 0
    ensures a >= 0 ==> q * b <= a < q * b + b
    ensures a < 0 ==> q * b - b < a <= q * b
  {
    if a >= 0 then a / b else -((-a) / b)
  }

  /** What `adc_read_raw(samples)` returns. */
  function Average(samples: int, adc: Sampler): int
  {
    var n := EffectiveSamples(samples);
    CDiv(SumOk(adc, n), n)
  }

  /** The result is the sum of the successful readings divided by the effective
      sample count, failures included, truncated toward zero. */
  lemma AverageTruncates(samples: int, adc: Sampler)
    ensures var n := EffectiveSamples(samples);
            var s := SumOk(adc, n);
            var a := Average(samples, adc);
            (s >= 0 ==> a * n <= s < a * n + n) && (s < 0 ==> a * n - n < s <= a * n)
  {
  }

  /** adc_read_raw: exactly n attempts, failed ones skipped in the sum but still
      counted in the divisor. */
  method ReadRaw(samples: int, adc: Sampler) returns (avg: int)
    ensures avg == Average(samples, adc)
  {
    var n := if samples <= 0 then 10 else samples;
    var sum := 0;
    for i := 0 to n
      invariant sum == SumOk(adc, i)
    {
      match adc(i)
      case ReadFailed =>
        continue;
      case Sample(raw) =>
        sum := sum + raw;
    }
    avg := if sum >= 0 then sum / n else -((-sum) / n);
  }

  /** The result depends on exactly the first n attempts: two hardware histories
      that agree on them give the same average. */
  lemma {:induction false} SumOkUsesFirstAttempts(a1: Sampler, a2: Sampler, n: nat)
    requires forall i :: 0 <= i < n ==> a1(i) == a2(i)
    ensures SumOk(a1, n) == SumOk(a2, n)
  {
    if n > 0 {
      SumOkUsesFirstAttempts(a1, a2, n - 1);
    }
  }

  lemma AverageUsesExactlyTheAttempts(samples: int, a1: Sampler, a2: Sampler)
    requires forall i :: 0 <= i < EffectiveSamples(samples) ==> a1(i) == a2(i)
    ensures Average(samples, a1) == Average(samples, a2)
  {
    SumOkUsesFirstAttempts(a1, a2, EffectiveSamples(samples));
  }

  lemma {:induction false} SumOkOfFailures(adc: Sampler, n: nat)
    requires forall i :: 0 <= i < n ==> adc(i).ReadFailed?
    ensures SumOk(adc, n) == 0 && Failures(adc, n) == n
  {
    if n > 0 {
      SumOkOfFailures(adc, n - 1);
    }
  }

  /** When every attempt fails the result is 0. */
  lemma AllFailuresGiveZero(samples: int, adc: Sampler)
    requires forall i :: 0 <= i < EffectiveSamples(samples) ==> adc(i).ReadFailed?
    ensures Average(samples, adc) == 0
  {
    SumOkOfFailures(adc, EffectiveSamples(samples));
  }

  lemma {:induction false} SumOkBounded(adc: Sampler, n: nat, m: int)
    requires forall i :: 0 <= i < n && adc(i).Sample? ==> 0 <= adc(i).raw <= m
    ensures 0 <= SumOk(adc, n) <= (n - Failures(adc, n)) * m
  {
    if n > 0 {
      SumOkBounded(adc, n - 1, m);
      var k := n - 1 - Failures(adc, n - 1);
      if adc(n - 1).ReadFailed? {
        assert SumOk(adc, n) == SumOk(adc, n - 1) && n - Failures(adc, n) == k;
      } else {
        var x := adc(n - 1).raw;
        assert 0 <= x <= m;
        assert SumOk(adc, n) == SumOk(adc, n - 1) + x && n - Failures(adc, n) == k + 1;
        MulSucc(k, m);
        assert SumOk(adc, n) <= k * m + m;
      }
    }
  }

  /** Readings within [0, m] average to a value within [0, m]. */
  lemma AverageBounded(samples: int, adc: Sampler, m: int)
    requires m >= 0
    requires forall i :: 0 <= i < EffectiveSamples(samples) && adc(i).Sample? ==> 0 <= adc(i).raw <= m
    ensures 0 <= Average(samples, adc) <= m
  {
    var n := EffectiveSamples(samples);
    var s := SumOk(adc, n);
    SumOkBounded(adc, n, m);
    assert (n - Failures(adc, n)) * m <= n * m by {
      MulMonotone(n - Failures(adc, n), n, m);
    }
    DivBounded(s, n, m);
    assert Average(samples, adc) == CDiv(s, n) == s / n;
  }

  lemma MulSucc(k: int, v: int)
    ensures (k + 1) * v == k * v + v
  {
  }

  lemma MulMonotone(a: nat, b: nat, m: nat)
    requires a <= b
    ensures a * m <= b * m
  {
  }

  lemma DivBounded(s: int, n: nat, m: int)
    requires n > 0 && 0 <= s <= n * m
    ensures 0 <= s / n <= m
  {
    assert (s / n) * n + s % n == s;
  }

  lemma {:induction false} SumOkOfConstant(adc: Sampler, n: nat, v: int)
    requires forall i :: 0 <= i < n ==> adc(i) == ReadFailed || adc(i) == Sample(v)
    ensures SumOk(adc, n) == (n - Failures(adc, n)) * v
  {
    if n > 0 {
      SumOkOfConstant(adc, n - 1, v);
      if adc(n - 1) == ReadFailed {
        assert SumOk(adc, n) == SumOk(adc, n - 1) && Failures(adc, n) == Failures(adc, n - 1) + 1;
      } else {
        assert adc(n - 1) == Sample(v);
        assert SumOk(adc, n) == SumOk(adc, n - 1) + v && Failures(adc, n) == Failures(adc, n - 1);
        MulSucc(n - 1 - Failures(adc, n - 1), v);
      }
    }
  }

  /** Failed reads dilute the average: with every successful reading equal to v,
      the result is (successes * v) div samples, not v. */
  lemma FailuresDiluteAverage(samples: int, adc: Sampler, v: nat)
    requires forall i :: 0 <= i < EffectiveSamples(samples) ==> adc(i) == ReadFailed || adc(i) == Sample(v)
    ensures var n := EffectiveSamples(samples);
            Average(samples, adc) == ((n - Failures(adc, n)) * v) / n
  {
    var n := EffectiveSamples(samples);
    var successes: nat := n - Failures(adc, n);
    SumOkOfConstant(adc, n, v);
    MulMonotone(0, successes, v);
    var s := SumOk(adc, n);
    assert s == successes * v && s >= 0;
    assert Average(samples, adc) == CDiv(s, n) == s / n;
  }
}
