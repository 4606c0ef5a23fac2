/**
 The studio's sample-rate conversion and chunking. The conversion interpolates
 between neighbouring samples; here the positions and values are exact
 fractions, where the program computes them in floating point.
 */
module Studio {
  import opened Bytes

  // ----- rounding -----

  /** Nearest integer to num / den, halves away from zero. */
  function Round(num: int, den: int): int
    requires den > 0
  {
    if num >= 0 then (2 * num + den) / (2 * den) else -((-2 * num + den) / (2 * den))
  }

  lemma MulMonotone(x: int, y: int, d: int)
    requires x <= y && d >= 0
    ensures x * d <= y * d
  {
  }

  lemma MulCancel(a: int, b: int, d: int)
    requires a * d < b * d && d > 0
    ensures a < b
  {
    if b <= a {
      MulMonotone(b, a, d);
    }
  }

  lemma DivMonotone(x: int, y: int, d: int)
    requires x <= y && d > 0
    ensures x / d <= y / d
  {
    assert (x / d) * d <= x && y < (y / d) * d + d;
    assert (y / d + 1) * d == (y / d) * d + d;
    MulCancel(x / d, y / d + 1, d);
  }

  lemma RoundMonotone(x: int, y: int, den: int)
    requires x <= y && den > 0
    ensures Round(x, den) <= Round(y, den)
  {
    if x >= 0 {
      DivMonotone(2 * x + den, 2 * y + den, 2 * den);
    } else if y < 0 {
      DivMonotone(-2 * y + den, -2 * x + den, 2 * den);
    } else {
      DivMonotone(0, 2 * y + den, 2 * den);
      DivMonotone(0, -2 * x + den, 2 * den);
    }
  }

  lemma DivExact(q: int, d: int, r: int)
    requires d > 0 && 0 <= r < d
    ensures (q * d + r) / d == q
  {
    var x := q * d + r;
    assert (x / d) * d <= x < (x / d) * d + d;
    assert (x / d + 1) * d == (x / d) * d + d && (q + 1) * d == q * d + d;
    MulCancel(x / d, q + 1, d);
    MulCancel(q, x / d + 1, d);
  }

  lemma RoundExact(k: int, den: int)
    requires den > 0
    ensures Round(k * den, den) == k
  {
    if k >= 0 {
      MulMonotone(0, k, den);
      assert 2 * (k * den) + den == k * (2 * den) + den;
      DivExact(k, 2 * den, den);
    } else {
      MulMonotone(k, -1, den);
      assert -2 * (k * den) + den == (-k) * (2 * den) + den;
      DivExact(-k, 2 * den, den);
    }
  }

  /** Rounding a fraction that lies between two integers stays between them. */
  lemma RoundBetween(num: int, den: int, lo: int, hi: int)
    requires den > 0 && lo * den <= num <= hi * den
    ensures lo <= Round(num, den) <= hi
  {
    RoundMonotone(lo * den, num, den);
    RoundMonotone(num, hi * den, den);
    RoundExact(lo, den);
    RoundExact(hi, den);
  }

  /** x is the integer nearest to num / den; of two equally near ones, the one farther from zero. */
  predicate Nearest(x: int, num: int, den: int) {
    && -den <= 2 * (den * x - num) <= den
    && (2 * (den * x - num) == den ==> num > 0)
    && (2 * (den * x - num) == -den ==> num < 0)
  }

  lemma RoundIsNearest(num: int, den: int)
    requires den > 0
    ensures Nearest(Round(num, den), num, den)
  {
    if num >= 0 {
      HalfUp(num, den);
    } else {
      HalfUp(-num, den);
      NegatedIsNearest((2 * -num + den) / (2 * den), -num, den);
    }
  }

  lemma HalfUp(num: nat, den: nat)
    requires den > 0
    ensures Nearest((2 * num + den) / (2 * den), num, den)
  {
    var y, n := 2 * num + den, 2 * den;
    assert y == n * (y / n) + y % n;
    assert n * (y / n) == 2 * (den * (y / n));
  }

  lemma NegatedIsNearest(x: int, num: int, den: int)
    requires num > 0 && Nearest(x, num, den)
    ensures Nearest(-x, -num, den)
  {
    assert den * -x == -(den * x);
  }

  // ----- interpolation -----

  function Max(a: nat, b: nat): nat {
    if a >= b then a else b
  }

  function TargetCount(samples: nat, sourceRate: nat, targetRate: nat): nat
    requires sourceRate > 0
  {
    var n := Round(samples * targetRate, sourceRate);
    if n < 1 then 1 else n
  }

  /** Output index i of m lies at i * steps / gaps of the source. */
  function Gaps(m: nat): (d: nat)
    ensures d > 0
  {
    Max(m, 2) - 1
  }

  function Left(samples: nat, m: nat, i: nat): nat
    requires samples > 0
  {
    i * (samples - 1) / Gaps(m)
  }

  /** The mean of two numbers with weights d - f and f, times d. */
  function Weighted(a: int, b: int, f: int, d: int): int {
    a * (d - f) + b * f
  }

  /** The interpolated value, times `Gaps(m)`. */
  function Mixed(source: seq<Sample>, m: nat, i: nat): int
    requires |source| > 0 && Left(|source|, m, i) < |source|
  {
    var l := Left(|source|, m, i);
    var r := if l + 1 < |source| then l + 1 else |source| - 1;
    var f := i * (|source| - 1) - l * Gaps(m);
    Weighted(source[l], source[r], f, Gaps(m))
  }

  function Clamp(x: int): Sample {
    if x < -0x8000 then -0x8000 else if x > 0x7FFF then 0x7FFF else x
  }

  lemma LeftFits(samples: nat, m: nat, i: nat)
    requires samples > 0 && i < m
    ensures Left(samples, m, i) < samples
    ensures var f := i * (samples - 1) - Left(samples, m, i) * Gaps(m); 0 <= f < Gaps(m)
    ensures samples >= 2 && Left(samples, m, i) == samples - 1 ==> i * (samples - 1) == Left(samples, m, i) * Gaps(m)
  {
    var d := Gaps(m);
    var x := i * (samples - 1);
    assert i <= d;
    MulMonotone(i, d, samples - 1);
    assert d * (samples - 1) == (samples - 1) * d + 0;
    DivMonotone(x, (samples - 1) * d, d);
    DivExact(samples - 1, d, 0);
    assert x == (x / d) * d + x % d;
  }

  function ResampledAt(source: seq<Sample>, m: nat, i: nat): Sample
    requires |source| > 0 && i < m
  {
    LeftFits(|source|, m, i);
    Clamp(Round(Mixed(source, m, i), Gaps(m)))
  }

  function Resampled(source: seq<Sample>, m: nat): (r: seq<Sample>)
    requires |source| > 0
    ensures |r| == m
  {
    seq(m, i requires 0 <= i < m => ResampledAt(source, m, i))
  }

  function SamplesToBytes(samples: seq<Sample>): (r: seq<Byte>)
    ensures |r| == 2 * |samples|
  {
    if samples == [] then [] else SamplesToBytes(samples[..|samples| - 1]) + SampleBytes(samples[|samples| - 1])
  }

  /** `resample_pcm16`: an odd last byte is dropped, and fewer than two samples are returned as they are. */
  function Resample(data: seq<Byte>, sourceRate: nat, targetRate: nat): seq<Byte>
    requires sourceRate > 0
  {
    var even := data[..|data| - |data| % 2];
    var source := Samples(even);
    if sourceRate == targetRate || |source| < 2 then even
    else SamplesToBytes(Resampled(source, TargetCount(|source|, sourceRate, targetRate)))
  }

  /** One output sample: the position, its neighbours, and the mean weighted by the distance to them. */
  method Interpolate(source: seq<Sample>, m: nat, i: nat) returns (sample: Sample)
    requires |source| >= 2 && i < m
    ensures sample == ResampledAt(source, m, i)
  {
    hide Round, Weighted;
    LeftFits(|source|, m, i);
    var left := i * (|source| - 1) / Gaps(m);
    var right := if left + 1 < |source| - 1 then left + 1 else |source| - 1;
    var fraction := i * (|source| - 1) - left * Gaps(m);
    sample := Clamp(Round(Weighted(source[left], source[right], fraction, Gaps(m)), Gaps(m)));
  }

  method InterpolateAll(source: seq<Sample>, count: nat) returns (out: seq<Byte>)
    requires |source| >= 2
    ensures out == SamplesToBytes(Resampled(source, count))
  {
    hide ResampledAt, SamplesToBytes, SampleBytes;
    out := [];
    ghost var done: seq<Sample> := [];
    NoSamplesNoBytes();
    for i := 0 to count
      invariant done == Resampled(source, count)[..i]
      invariant out == SamplesToBytes(done)
    {
      var sample := Interpolate(source, count, i);
      out := out + SampleBytes(sample);
      BytesAppend(done, sample);
      done := done + [sample];
    }
    assert done == Resampled(source, count);
  }

  lemma NoSamplesNoBytes()
    ensures SamplesToBytes([]) == []
  {
  }

  method ResamplePcm16(data: seq<Byte>, sourceRate: nat, targetRate: nat) returns (out: seq<Byte>)
    requires sourceRate > 0
    ensures out == Resample(data, sourceRate, targetRate)
  {
    var even := data[..|data| - |data| % 2];
    if sourceRate == targetRate || |even| == 0 {
      return even;
    }
    var source := Samples(even);
    if |source| < 2 {
      return even;
    }
    var count := TargetCount(|source|, sourceRate, targetRate);
    out := InterpolateAll(source, count);
  }

  lemma BytesAppend(samples: seq<Sample>, s: Sample)
    ensures SamplesToBytes(samples + [s]) == SamplesToBytes(samples) + SampleBytes(s)
  {
    assert (samples + [s])[..|samples|] == samples;
  }

  // ----- what the conversion computes -----

  lemma WeightedIsOnTheLine(a: int, b: int, f: int, d: int)
    ensures Weighted(a, b, f, d) == d * a + f * (b - a)
  {
  }

  /**
   Output sample i lies at i * (n - 1) / d of the source. When that is sample l
   and f / d of the gap after it, the output is as far between the two, to the
   nearest integer.
   */
  lemma Interpolates(source: seq<Sample>, m: nat, i: nat, l: nat, f: nat)
    requires |source| > 0 && i < m
    requires var d := if m < 2 then 1 else m - 1; i * (|source| - 1) == l * d + f && f < d
    ensures l < |source| && (f > 0 ==> l + 1 < |source|)
    ensures var d := if m < 2 then 1 else m - 1;
            var here: int, next: int := source[l], if f > 0 then source[l + 1] else source[l];
            Nearest(Resampled(source, m)[i], d * here + f * (next - here), d)
  {
    hide Round, Nearest, Weighted, Left, ResampledAt;
    var d := Gaps(m);
    LeftIs(|source|, m, i, l, f);
    LeftFits(|source|, m, i);
    LiesBetweenNeighbours(source, m, i);
    RoundIsNearest(Mixed(source, m, i), d);
    var here: int, next: int := source[l], source[Right(|source|, m, i)];
    assert i * (|source| - 1) - l * d == f;
    WeightedIsOnTheLine(here, next, f, d);
    if l + 1 == |source| {
      LastHasNoFraction(|source|, m, i);
    }
  }

  lemma LeftIs(samples: nat, m: nat, i: nat, l: nat, f: nat)
    requires samples > 0 && i * (samples - 1) == l * Gaps(m) + f && f < Gaps(m)
    ensures Left(samples, m, i) == l
  {
    DivExact(l, Gaps(m), f);
  }

  /** Only whole positions fall on the last source sample. */
  lemma LastHasNoFraction(samples: nat, m: nat, i: nat)
    requires samples > 0 && i < m && Left(samples, m, i) == samples - 1
    ensures i * (samples - 1) == Left(samples, m, i) * Gaps(m)
  {
    hide Left;
    LeftFits(samples, m, i);
    if samples == 1 {
      assert i * (samples - 1) == 0 && Left(samples, m, i) * Gaps(m) == 0;
    }
  }

  /** A source on a straight line gives an output on the same line, to the nearest integer. */
  lemma LinesStayLines(source: seq<Sample>, m: nat, i: nat, a: int, b: int)
    requires |source| > 0 && i < m
    requires forall k :: 0 <= k < |source| ==> source[k] == a + b * k
    ensures var d := if m < 2 then 1 else m - 1;
            Nearest(Resampled(source, m)[i], d * a + b * (i * (|source| - 1)), d)
  {
    hide Nearest, Resampled, Left;
    var d := Gaps(m);
    LeftFits(|source|, m, i);
    var l := Left(|source|, m, i);
    var f := i * (|source| - 1) - l * d;
    Interpolates(source, m, i, l, f);
    var here: int, next: int := source[l], if f > 0 then source[l + 1] else source[l];
    assert f * (next - here) == f * b by {
      assert b * (l + 1) == b * l + b;
    }
    OnTheLine(a, b, d, l, f, i * (|source| - 1));
  }

  lemma OnTheLine(a: int, b: int, d: int, l: int, f: int, x: int)
    requires x == l * d + f
    ensures d * (a + b * l) + f * b == d * a + b * x
  {
    assert d * (a + b * l) == d * a + d * (b * l) && d * (b * l) == b * (l * d);
    assert b * x == b * (l * d) + b * f;
  }

  /** As many samples out as in are the same samples. */
  lemma SameCountIsIdentity(source: seq<Sample>)
    requires |source| > 0
    ensures Resampled(source, |source|) == source
  {
    hide Resampled, Gaps;
    forall i | 0 <= i < |source|
      ensures ResampledAt(source, |source|, i) == source[i]
    {
      OneGapPerStep(|source|, i);
      LandsOnSource(source, |source|, i, i);
    }
    ResampledIsPointwise(source, |source|);
  }

  lemma OneGapPerStep(samples: nat, i: nat)
    requires i < samples
    ensures i * (samples - 1) == i * Gaps(samples)
  {
  }

  lemma ResampledIsPointwise(source: seq<Sample>, m: nat)
    requires |source| > 0
    ensures forall i :: 0 <= i < m ==> Resampled(source, m)[i] == ResampledAt(source, m, i)
  {
  }

  // ----- what the conversion preserves -----

  /** A weighted mean of two numbers, times the total weight, lies between their multiples. */
  lemma MixBetween(a: int, b: int, f: int, d: int, lo: int, hi: int)
    requires 0 <= f <= d && lo <= a <= hi && lo <= b <= hi
    ensures lo * d <= Weighted(a, b, f, d) <= hi * d
  {
    MulMonotone(lo, a, d - f);
    MulMonotone(lo, b, f);
    MulMonotone(a, hi, d - f);
    MulMonotone(b, hi, f);
    assert lo * (d - f) + lo * f == lo * d && hi * (d - f) + hi * f == hi * d;
  }

  function Right(samples: nat, m: nat, i: nat): nat
    requires samples > 0
  {
    var l := Left(samples, m, i);
    if l + 1 < samples then l + 1 else samples - 1
  }

  /** Every output sample lies between its two neighbours in the source, so nothing is ever clipped. */
  lemma LiesBetweenNeighbours(source: seq<Sample>, m: nat, i: nat)
    requires |source| > 0 && i < m
    ensures var l, r := Left(|source|, m, i), Right(|source|, m, i);
            && l < |source| && r < |source|
            && (source[l] <= ResampledAt(source, m, i) <= source[r] || source[r] <= ResampledAt(source, m, i) <= source[l])
            && ResampledAt(source, m, i) == Round(Mixed(source, m, i), Gaps(m))
  {
    hide Round, Left, Weighted;
    LeftFits(|source|, m, i);
    var l, r := Left(|source|, m, i), Right(|source|, m, i);
    var f := i * (|source| - 1) - l * Gaps(m);
    var lo, hi := if source[l] <= source[r] then source[l] else source[r], if source[l] <= source[r] then source[r] else source[l];
    MixBetween(source[l], source[r], f, Gaps(m), lo, hi);
    RoundBetween(Mixed(source, m, i), Gaps(m), lo, hi);
  }

  /** The first sample stays first, and of two or more output samples the last stays last. */
  lemma EndsArePreserved(source: seq<Sample>, m: nat)
    requires |source| > 0 && m > 0
    ensures Resampled(source, m)[0] == source[0]
    ensures m >= 2 ==> Resampled(source, m)[m - 1] == source[|source| - 1]
  {
    LandsOnSource(source, m, 0, 0);
    if m >= 2 {
      LandsOnSource(source, m, m - 1, |source| - 1);
    }
  }

  lemma LandsOnSource(source: seq<Sample>, m: nat, i: nat, k: nat)
    requires |source| > 0 && i < m && k < |source| && i * (|source| - 1) == k * Gaps(m)
    ensures ResampledAt(source, m, i) == source[k]
  {
    hide Round;
    LeftFits(|source|, m, i);
    DivExact(k, Gaps(m), 0);
    assert Left(|source|, m, i) == k;
    assert Mixed(source, m, i) == source[k] * Gaps(m);
    RoundExact(source[k], Gaps(m));
  }

  ghost predicate NonDecreasing(s: seq<Sample>) {
    forall i, j :: 0 <= i <= j < |s| ==> s[i] <= s[j]
  }

  /** Within one gap, moving right on a rising segment does not go down. */
  lemma MixMonotone(a: int, b: int, f: int, g: int, d: int)
    requires f <= g <= d && a <= b
    ensures Weighted(a, b, f, d) <= Weighted(a, b, g, d)
  {
    MulMonotone(a, b, g - f);
    assert a * (d - f) == a * (d - g) + a * (g - f);
    assert b * g == b * f + b * (g - f);
  }

  lemma MixedMonotone(source: seq<Sample>, m: nat, i: nat, j: nat)
    requires |source| > 0 && NonDecreasing(source) && i <= j < m
    requires Left(|source|, m, i) < |source| && Left(|source|, m, j) < |source|
    ensures Mixed(source, m, i) <= Mixed(source, m, j)
  {
    hide Left, Weighted;
    LeftFits(|source|, m, i);
    LeftFits(|source|, m, j);
    LeftMonotone(|source|, m, i, j);
    var l, k := Left(|source|, m, i), Left(|source|, m, j);
    var f, g := i * (|source| - 1) - l * Gaps(m), j * (|source| - 1) - k * Gaps(m);
    var ri, rj := Right(|source|, m, i), Right(|source|, m, j);
    MulMonotone(i, j, |source| - 1);
    if l == k {
      MixMonotone(source[l], source[ri], f, g, Gaps(m));
    } else {
      MixRises(source[l], source[ri], f, source[k], source[rj], g, Gaps(m));
    }
  }

  /** From one gap to a later one of a rising source. */
  lemma MixRises(a: int, b: int, f: int, a': int, b': int, f': int, d: int)
    requires 0 <= f <= d && 0 <= f' <= d && a <= b <= a' <= b'
    ensures Weighted(a, b, f, d) <= Weighted(a', b', f', d)
  {
    hide Weighted;
    MixBetween(a, b, f, d, a, b);
    MixBetween(a', b', f', d, a', b');
    MulMonotone(b, a', d);
  }

  lemma LeftMonotone(samples: nat, m: nat, i: nat, j: nat)
    requires samples > 0 && i <= j
    ensures Left(samples, m, i) <= Left(samples, m, j)
  {
    MulMonotone(i, j, samples - 1);
    DivMonotone(i * (samples - 1), j * (samples - 1), Gaps(m));
  }

  /** A rising source gives a rising output. */
  lemma MonotonicityIsPreserved(source: seq<Sample>, m: nat)
    requires |source| > 0 && NonDecreasing(source)
    ensures NonDecreasing(Resampled(source, m))
  {
    hide Round, Mixed, Left;
    forall i, j | 0 <= i <= j < m
      ensures Resampled(source, m)[i] <= Resampled(source, m)[j]
    {
      LeftFits(|source|, m, i);
      LeftFits(|source|, m, j);
      MixedMonotone(source, m, i, j);
      RoundMonotone(Mixed(source, m, i), Mixed(source, m, j), Gaps(m));
    }
  }

  lemma {:induction false} BytesOfSamples(samples: seq<Sample>)
    ensures Samples(SamplesToBytes(samples)) == samples
  {
    if samples != [] {
      var front, last := samples[..|samples| - 1], samples[|samples| - 1];
      BytesOfSamples(front);
      SampleRoundTrip(last);
      var bytes := SamplesToBytes(samples);
      assert forall i :: 0 <= i < |samples| - 1 ==> Samples(bytes)[i] == Samples(SamplesToBytes(front))[i];
    }
  }

  /** The number of output samples keeps the duration, to the nearest sample, and is at least 1. */
  lemma CountKeepsDuration(samples: nat, sourceRate: nat, targetRate: nat)
    requires sourceRate > 0
    ensures var m := TargetCount(samples, sourceRate, targetRate);
            || (m >= 1 && Nearest(m, samples * targetRate, sourceRate))
            || (m == 1 && Nearest(0, samples * targetRate, sourceRate))
  {
    hide Round, Nearest;
    var num := samples * targetRate;
    RoundIsNearest(num, sourceRate);
    NearestToPositive(Round(num, sourceRate), num, sourceRate);
  }

  lemma NearestToPositive(x: int, num: nat, den: nat)
    requires den > 0 && Nearest(x, num, den)
    ensures x >= 0
  {
    if x < 0 {
      MulMonotone(x, -1, den);
    }
  }

  /** The output has max(1, round(n * target / source)) samples, always whole ones, and they are the interpolated ones. */
  lemma OutputSamples(data: seq<Byte>, sourceRate: nat, targetRate: nat)
    requires sourceRate > 0 && sourceRate != targetRate && |data| >= 4
    ensures var source := Samples(data[..|data| - |data| % 2]);
            var m := TargetCount(|source|, sourceRate, targetRate);
            && |Resample(data, sourceRate, targetRate)| == 2 * m
            && Samples(Resample(data, sourceRate, targetRate)) == Resampled(source, m)
  {
    hide TargetCount, Resampled;
    var source := Samples(data[..|data| - |data| % 2]);
    BytesOfSamples(Resampled(source, TargetCount(|source|, sourceRate, targetRate)));
  }

  // ----- chunks -----

  /** `chunked`: pieces of at most `maxBytes` bytes, made even and at least 2. */
  function Chunked(pcm16: seq<Byte>, maxBytes: nat): seq<seq<Byte>> {
    Pieces(pcm16, Max(maxBytes, 2) / 2 * 2)
  }

  function Pieces(bytes: seq<Byte>, n: nat): seq<seq<Byte>>
    requires n > 0
    decreases |bytes|
  {
    if bytes == [] then []
    else if |bytes| <= n then [bytes]
    else [bytes[..n]] + Pieces(bytes[n..], n)
  }

  function Join(pieces: seq<seq<Byte>>): seq<Byte> {
    if pieces == [] then [] else pieces[0] + Join(pieces[1..])
  }

  /** No byte is lost or moved, no sample is cut, and no piece is empty or too long. */
  lemma {:induction false} PiecesJoin(bytes: seq<Byte>, n: nat)
    requires n > 0 && n % 2 == 0 && |bytes| % 2 == 0
    ensures Join(Pieces(bytes, n)) == bytes
    ensures forall k :: 0 <= k < |Pieces(bytes, n)| ==> 0 < |Pieces(bytes, n)[k]| <= n && |Pieces(bytes, n)[k]| % 2 == 0
    ensures forall k :: 0 <= k < |Pieces(bytes, n)| - 1 ==> |Pieces(bytes, n)[k]| == n
    decreases |bytes|
  {
    if |bytes| > n {
      PiecesJoin(bytes[n..], n);
      assert Pieces(bytes, n)[1..] == Pieces(bytes[n..], n);
      assert bytes == bytes[..n] + bytes[n..];
    } else if bytes != [] {
      assert [bytes][1..] == [];
      assert bytes + [] == bytes;
    }
  }

  lemma ChunksJoin(pcm16: seq<Byte>, maxBytes: nat)
    requires |pcm16| % 2 == 0
    ensures Join(Chunked(pcm16, maxBytes)) == pcm16
    ensures forall k :: 0 <= k < |Chunked(pcm16, maxBytes)| ==>
              0 < |Chunked(pcm16, maxBytes)[k]| <= Max(maxBytes, 2) && |Chunked(pcm16, maxBytes)[k]| % 2 == 0
    ensures forall k :: 0 <= k < |Chunked(pcm16, maxBytes)| - 1 ==>
              |Chunked(pcm16, maxBytes)[k]| > maxBytes - 2
  {
    PiecesJoin(pcm16, Max(maxBytes, 2) / 2 * 2);
  }
}
