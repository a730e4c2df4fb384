/** `readAveragedPotValue`: the integer mean of a number of potentiometer
    samples. The samples themselves (`analogRead`) are hardware input and are
    passed in. */
module Pot {

  /** Full-scale value of one 10-bit `analogRead` sample. */
  const SampleMax: int := 1023

  /** Largest sample count a `uint8_t` can hold. */
  const MaxSamples: int := 255

  function Sum(s: seq<int>): int
    decreases |s|
  {
    if |s| == 0 then 0 else Sum(s[..|s| - 1]) + s[|s| - 1]
  }

  function SeqMin(s: seq<int>): (m: int)
    requires |s| > 0
    decreases |s|
    ensures forall i :: 0 <= i < |s| ==> m <= s[i]
    ensures exists i :: 0 <= i < |s| && m == s[i]
  {
    if |s| == 1 then s[0]
    else
      var rest := SeqMin(s[..|s| - 1]);
      if s[|s| - 1] < rest then s[|s| - 1] else rest
  }

  function SeqMax(s: seq<int>): (m: int)
    requires |s| > 0
    decreases |s|
    ensures forall i :: 0 <= i < |s| ==> s[i] <= m
    ensures exists i :: 0 <= i < |s| && m == s[i]
  {
    if |s| == 1 then s[0]
    else
      var rest := SeqMax(s[..|s| - 1]);
      if s[|s| - 1] > rest then s[|s| - 1] else rest
  }

  /** A sum of samples that all lie in [lo, hi] lies between |s| lo and |s| hi. */
  lemma {:induction false} SumBounds(s: seq<int>, lo: int, hi: int)
    requires forall i :: 0 <= i < |s| ==> lo <= s[i] <= hi
    decreases |s|
    ensures |s| * lo <= Sum(s) <= |s| * hi
  {
    if |s| > 0 {
      SumBounds(s[..|s| - 1], lo, hi);
    }
  }

  /** If n lo <= total <= n hi then lo <= total / n <= hi. */
  lemma MeanBounds(total: int, n: int, lo: int, hi: int)
    requires n > 0 && n * lo <= total <= n * hi
    ensures lo <= total / n <= hi
  {
    var q, r := total / n, total % n;
    assert total == q * n + r && 0 <= r < n;
    MulMonotone(q, lo - 1, n);
    MulMonotone(hi + 1, q, n);
  }

  lemma MulMonotone(a: int, b: int, n: int)
    requires n >= 0
    ensures a <= b ==> a * n <= b * n
  {
    if a <= b {
      assert b * n == a * n + (b - a) * n;
    }
  }

  /** Sums the samples in a `uint32_t` (255 samples of at most 1023 cannot wrap
      it) and returns the truncated mean, which lies between the smallest and
      the largest sample. */
  method ReadAveragedPotValue(samples: seq<int>) returns (avg: int)
    requires 0 < |samples| <= MaxSamples
    requires forall i :: 0 <= i < |samples| ==> 0 <= samples[i] <= SampleMax
    ensures avg == Sum(samples) / |samples|
    ensures SeqMin(samples) <= avg <= SeqMax(samples)
    ensures 0 <= avg <= SampleMax
  {
    var sum := 0;
    var i := 0;
    while i < |samples|
      invariant 0 <= i <= |samples|
      invariant sum == Sum(samples[..i])
    {
      assert samples[..i + 1][..i] == samples[..i];
      sum := sum + samples[i];
      i := i + 1;
    }
    assert samples[..|samples|] == samples;
    avg := sum / |samples|;
    SumBounds(samples, SeqMin(samples), SeqMax(samples));
    MeanBounds(sum, |samples|, SeqMin(samples), SeqMax(samples));
  }
}
