/** The autocorrelation pitch estimator (`autoCorrelate` in app.js).

    The functions of this module are the specification: `Estimate` says what
    the estimator returns for a frame and a sample rate, built from the RMS
    gate `TooQuiet`, the clip filter `Clipped`, the normalised
    autocorrelation `Corr`, the lag scan `ScanPeak` and the parabolic
    refinement `Refine`. The methods at the end are the step-by-step
    algorithm over arrays, each proved to compute its specification
    function. Samples are reals: Float32 rounding is not modelled. */
module PitchDetection {
  import opened Base

  /** RMS below this is "too quiet". */
  const SilenceRms: real := 0.008
  /** Samples of smaller magnitude are zeroed before correlating. */
  const ClipLevel: real := 0.01
  /** A correlation above this that is still rising stops the scan. */
  const EarlyExitCorr: real := 0.95
  /** The best correlation must reach this for a pitch to be reported. */
  const MinAcceptedCorr: real := 0.01
  /** The "no pitch" result, -1. */
  const Sentinel: Number := Finite(-1.0)

  // ---------------------------------------------------------------------
  // Silence gate

  /** Sum of the squares of the samples. */
  function SumSquares(s: seq<real>): (r: real)
    ensures r >= 0.0
  {
    if |s| == 0 then 0.0 else SumSquares(s[..|s| - 1]) + s[|s| - 1] * s[|s| - 1]
  }

  /** `sqrt(sumSq / SIZE) < 0.008`, stated without the square root: for a
      non-negative mean m, sqrt(m) < 0.008 exactly when m < 0.008 * 0.008.
      On an empty frame the source computes sqrt(0 / 0), which is NaN and
      does not compare below anything, so an empty frame is not quiet. */
  predicate TooQuiet(s: seq<real>)
  {
    |s| > 0 && SumSquares(s) / (|s| as real) < SilenceRms * SilenceRms
  }

  lemma {:induction false} SumSquaresBelow(s: seq<real>, bound: real)
    requires |s| > 0
    requires forall i :: 0 <= i < |s| ==> s[i] * s[i] < bound
    ensures SumSquares(s) < (|s| as real) * bound
  {
    if |s| > 1 {
      var init := s[..|s| - 1];
      assert forall i :: 0 <= i < |init| ==> init[i] == s[i];
      SumSquaresBelow(init, bound);
    }
  }

  lemma SquareMono(a: real, t: real)
    requires 0.0 <= a < t
    ensures a * a < t * t
  {
    var p, q, r := a * a, a * t, t * t;
    assert p <= q;
    assert q < r;
  }

  lemma SquareBelow(v: real, t: real)
    requires 0.0 < t && Abs(v) < t
    ensures v * v < t * t
  {
    SquareMono(Abs(v), t);
    assert v * v == Abs(v) * Abs(v);
  }

  lemma DivCancel(k: real, d: real)
    requires d != 0.0
    ensures (k * d) / d == k
  {
    var s := (k * d) / d;
    assert s * d == k * d;
    assert (s - k) * d == 0.0;
  }

  /** a / n < b follows from a < n * b for a positive n. */
  lemma DivBelow(a: real, n: real, b: real)
    requires n > 0.0 && a < n * b
    ensures a / n < b
  {
    var m := a / n;
    assert m * n == a;
    assert (b - m) * n > 0.0;
  }

  /** A non-empty frame whose every sample is smaller in magnitude than the
      RMS threshold is too quiet, and the estimator reports no pitch. */
  lemma QuietFrameHasNoPitch(buf: seq<real>, sampleRate: int)
    requires sampleRate > 0 && |buf| > 0
    requires forall i :: 0 <= i < |buf| ==> Abs(buf[i]) < SilenceRms
    ensures TooQuiet(buf)
    ensures Estimate(buf, sampleRate) == Sentinel
  {
    var t2 := SilenceRms * SilenceRms;
    forall i | 0 <= i < |buf| ensures buf[i] * buf[i] < t2 {
      SquareBelow(buf[i], SilenceRms);
    }
    SumSquaresBelow(buf, t2);
    DivBelow(SumSquares(buf), |buf| as real, t2);
  }

  // ---------------------------------------------------------------------
  // Clipping

  function ClipSample(v: real): real
  {
    if Abs(v) >= ClipLevel then v else 0.0
  }

  /** The filtered copy: same length, a sample kept when its magnitude
      reaches the clip level (0.01 itself is kept), zero otherwise. */
  function Clipped(s: seq<real>): (c: seq<real>)
    ensures |c| == |s|
    ensures forall i :: 0 <= i < |s| ==> Abs(s[i]) >= ClipLevel ==> c[i] == s[i]
    ensures forall i :: 0 <= i < |s| ==> Abs(s[i]) < ClipLevel ==> c[i] == 0.0
  {
    seq(|s|, i requires 0 <= i < |s| => ClipSample(s[i]))
  }

  /** Clipping removes only small samples: every kept sample is as large as
      the clip level, no sample grows, and clipping twice changes nothing. */
  lemma ClippedProperties(s: seq<real>)
    ensures forall i :: 0 <= i < |s| ==> Clipped(s)[i] == 0.0 || Abs(Clipped(s)[i]) >= ClipLevel
    ensures forall i :: 0 <= i < |s| ==> Abs(Clipped(s)[i]) <= Abs(s[i])
    ensures Clipped(Clipped(s)) == Clipped(s)
  {
  }

  // ---------------------------------------------------------------------
  // Correlation

  /** sum of c[i] * c[i + lag] for i < n */
  function LagSum(c: seq<real>, lag: nat, n: nat): real
    requires n + lag <= |c|
  {
    if n == 0 then 0.0 else LagSum(c, lag, n - 1) + c[n - 1] * c[n - 1 + lag]
  }

  /** The normalised autocorrelation at a lag: the lagged sum divided by the
      number of products. At a lag of at least the frame length there are
      no products; the source then divides 0 by a zero or negative count
      (NaN or -0), and this model uses 0, which gives every comparison the
      scan makes the same outcome. */
  function Corr(c: seq<real>, lag: nat): real
  {
    if lag < |c| then LagSum(c, lag, |c| - lag) / ((|c| - lag) as real) else 0.0
  }

  lemma ProductBounded(a: real, b: real)
    requires Abs(a) <= 1.0 && Abs(b) <= 1.0
    ensures -1.0 <= a * b <= 1.0
  {
    var x, y := Abs(a), Abs(b);
    UnitProduct(x, y);
    if (a < 0.0) == (b < 0.0) {
      assert a * b == x * y;
    } else {
      assert a * b == -(x * y);
    }
  }

  lemma UnitProduct(x: real, y: real)
    requires 0.0 <= x <= 1.0 && 0.0 <= y <= 1.0
    ensures 0.0 <= x * y <= 1.0
  {
    NonNegProduct(x, y);
    NonNegProduct(1.0 - x, y);
    assert (1.0 - x) * y == y - x * y;
  }

  lemma NonNegProduct(a: real, b: real)
    requires a >= 0.0 && b >= 0.0
    ensures a * b >= 0.0
  {
  }

  /** a / m lies in [lo, hi] when a lies in [lo * m, hi * m] for a positive m. */
  lemma QuotientWithin(a: real, m: real, lo: real, hi: real)
    requires m > 0.0 && lo * m <= a <= hi * m
    ensures lo <= a / m <= hi
  {
    var q := a / m;
    assert q * m == a;
    assert (hi - q) * m >= 0.0;
    assert (q - lo) * m >= 0.0;
  }

  lemma {:induction false} LagSumBounded(c: seq<real>, lag: nat, n: nat)
    requires n + lag <= |c|
    requires forall i :: 0 <= i < |c| ==> Abs(c[i]) <= 1.0
    ensures -(n as real) <= LagSum(c, lag, n) <= n as real
  {
    if n > 0 {
      LagSumBounded(c, lag, n - 1);
      var p := c[n - 1] * c[n - 1 + lag];
      ProductBounded(c[n - 1], c[n - 1 + lag]);
      var prev, m := LagSum(c, lag, n - 1), (n - 1) as real;
      assert -m <= prev <= m && -1.0 <= p <= 1.0;
      assert LagSum(c, lag, n) == prev + p;
      assert m + 1.0 == n as real;
    }
  }

  /** For samples in [-1, 1] every correlation lies in [-1, 1]. */
  lemma CorrBounded(c: seq<real>, lag: nat)
    requires forall i :: 0 <= i < |c| ==> Abs(c[i]) <= 1.0
    ensures -1.0 <= Corr(c, lag) <= 1.0
  {
    if lag < |c| {
      var n := |c| - lag;
      LagSumBounded(c, lag, n);
      var s := LagSum(c, lag, n);
      var m := n as real;
      QuotientWithin(s, m, -1.0, 1.0);
    }
  }

  // ---------------------------------------------------------------------
  // Lag scan

  /** The scanned lags: from sampleRate/1000 (1000 Hz) up to sampleRate/50
      (50 Hz), both rounded down. */
  function MinLag(sampleRate: int): (r: nat)
    requires sampleRate > 0
    ensures 1000 * r <= sampleRate < 1000 * (r + 1)
  {
    sampleRate / 1000
  }

  function MaxLag(sampleRate: int): (r: nat)
    requires sampleRate > 0
    ensures 50 * r <= sampleRate < 50 * (r + 1)
  {
    sampleRate / 50
  }

  /** The range is never empty, and it starts at lag 0 exactly when the
      sample rate is below 1000. */
  lemma LagRange(sampleRate: int)
    requires sampleRate > 0
    ensures MinLag(sampleRate) <= MaxLag(sampleRate)
    ensures MinLag(sampleRate) == 0 <==> sampleRate < 1000
  {
  }

  /** The correlation of the previous scanned lag; before the first lag the
      source starts from 1. */
  function PrevCorr(c: seq<real>, minLag: nat, lag: nat): real
    requires minLag <= lag
  {
    if lag == minLag then 1.0 else Corr(c, lag - 1)
  }

  /** The early-exit test: above 0.95 and higher than the previous lag. */
  predicate IsExitLag(c: seq<real>, minLag: nat, lag: nat)
    requires minLag <= lag
  {
    Corr(c, lag) > EarlyExitCorr && Corr(c, lag) > PrevCorr(c, minLag, lag)
  }

  /** The first exit lag in lag..maxLag, if any. */
  function FirstExitFrom(c: seq<real>, minLag: nat, lag: nat, maxLag: int): (r: Option<nat>)
    requires minLag <= lag
    ensures r.Some? ==> lag <= r.value <= maxLag && IsExitLag(c, minLag, r.value)
    decreases maxLag + 1 - lag
  {
    if lag > maxLag then None
    else if IsExitLag(c, minLag, lag) then Some(lag)
    else FirstExitFrom(c, minLag, lag + 1, maxLag)
  }

  /** No lag before the one found exits, and when none is found no lag in
      the range exits at all. */
  lemma {:induction false} FirstExitIsFirst(c: seq<real>, minLag: nat, lag: nat, maxLag: int)
    requires minLag <= lag
    ensures FirstExitFrom(c, minLag, lag, maxLag).Some? ==>
      forall k :: lag <= k < FirstExitFrom(c, minLag, lag, maxLag).value ==> !IsExitLag(c, minLag, k)
    ensures FirstExitFrom(c, minLag, lag, maxLag).None? ==>
      forall k :: lag <= k <= maxLag ==> !IsExitLag(c, minLag, k)
    decreases maxLag + 1 - lag
  {
    if lag <= maxLag && !IsExitLag(c, minLag, lag) {
      FirstExitIsFirst(c, minLag, lag + 1, maxLag);
    }
  }

  /** The converse: an exit lag with no exit lag before it is the one found. */
  lemma {:induction false} FirstExitFinds(c: seq<real>, minLag: nat, lag: nat, maxLag: int, l: nat)
    requires minLag <= lag <= l <= maxLag
    requires IsExitLag(c, minLag, l)
    requires forall k :: lag <= k < l ==> !IsExitLag(c, minLag, k)
    ensures FirstExitFrom(c, minLag, lag, maxLag) == Some(l)
    decreases l - lag
  {
    if lag < l {
      FirstExitFinds(c, minLag, lag + 1, maxLag, l);
    }
  }

  /** The lag recorded by the scan and its correlation; offset -1 when none. */
  datatype Peak = Peak(offset: int, corr: real)

  /** The running best over lags lo..hi without early exit: it starts at
      (-1, 0) and a lag replaces it only with a strictly larger correlation. */
  function BestUpTo(c: seq<real>, lo: nat, hi: int): (p: Peak)
    ensures p.corr >= 0.0
    ensures p.offset == -1 || (lo <= p.offset <= hi && p.corr == Corr(c, p.offset) && p.corr > 0.0)
    decreases hi + 1 - lo
  {
    if hi < lo then Peak(-1, 0.0)
    else
      var p := BestUpTo(c, lo, hi - 1);
      if Corr(c, hi) > p.corr then Peak(hi, Corr(c, hi)) else p
  }

  /** BestUpTo is the maximum correlation over the range, or 0 when no
      correlation is positive; its lag is the first one attaining it. */
  lemma {:induction false} BestUpToIsFirstMaximum(c: seq<real>, lo: nat, hi: int)
    ensures forall k :: lo <= k <= hi ==> Corr(c, k) <= BestUpTo(c, lo, hi).corr
    ensures BestUpTo(c, lo, hi).offset == -1 ==>
      BestUpTo(c, lo, hi).corr == 0.0
    ensures BestUpTo(c, lo, hi).offset != -1 ==>
      forall k :: lo <= k < BestUpTo(c, lo, hi).offset ==> Corr(c, k) < BestUpTo(c, lo, hi).corr
    decreases hi + 1 - lo
  {
    if hi >= lo {
      BestUpToIsFirstMaximum(c, lo, hi - 1);
    }
  }

  /** The outcome of the lag scan: the first exit lag with its correlation,
      or, when no lag exits, the running best over the whole range. */
  function ScanPeak(c: seq<real>, minLag: nat, maxLag: int): (p: Peak)
    ensures p.corr >= 0.0
    ensures p.offset == -1 || (minLag <= p.offset <= maxLag && p.corr == Corr(c, p.offset) && p.corr > 0.0)
  {
    match FirstExitFrom(c, minLag, minLag, maxLag)
    case Some(l) => Peak(l, Corr(c, l))
    case None => BestUpTo(c, minLag, maxLag)
  }

  /** Early exit: the first lag whose correlation is above 0.95 and above
      the previous lag's becomes the result, whatever later lags give. */
  lemma EarlyExitWins(c: seq<real>, minLag: nat, maxLag: int, l: nat)
    requires minLag <= l <= maxLag
    requires IsExitLag(c, minLag, l)
    requires forall k :: minLag <= k < l ==> !IsExitLag(c, minLag, k)
    ensures ScanPeak(c, minLag, maxLag) == Peak(l, Corr(c, l))
  {
    FirstExitFinds(c, minLag, minLag, maxLag, l);
  }

  /** Without an early exit the scan returns the maximum positive
      correlation over the range and the first lag attaining it, or (-1, 0)
      when no correlation is positive. */
  lemma NoExitGivesFirstMaximum(c: seq<real>, minLag: nat, maxLag: int)
    requires forall k :: minLag <= k <= maxLag ==> !IsExitLag(c, minLag, k)
    ensures var p := ScanPeak(c, minLag, maxLag);
      && (forall k :: minLag <= k <= maxLag ==> Corr(c, k) <= p.corr)
      && (p.offset == -1 <==> forall k :: minLag <= k <= maxLag ==> Corr(c, k) <= 0.0)
      && (p.offset != -1 ==> forall k :: minLag <= k < p.offset ==> Corr(c, k) < p.corr)
  {
    assert FirstExitFrom(c, minLag, minLag, maxLag).None?;
    BestUpToIsFirstMaximum(c, minLag, maxLag);
  }

  /** For samples in [-1, 1] the first scanned lag never exits early: the
      previous correlation starts at 1, which no correlation exceeds. */
  lemma FirstLagNeverExits(buf: seq<real>, sampleRate: int)
    requires sampleRate > 0
    requires forall i :: 0 <= i < |buf| ==> Abs(buf[i]) <= 1.0
    ensures !IsExitLag(Clipped(buf), MinLag(sampleRate), MinLag(sampleRate))
  {
    var c := Clipped(buf);
    ClippedProperties(buf);
    CorrBounded(c, MinLag(sampleRate));
  }

  // ---------------------------------------------------------------------
  // Refinement

  /** The sub-sample shift of the parabola through (-1, y1), (0, y2) and
      (1, y3); none when the three points are collinear. */
  function ParabolicShift(y1: real, y2: real, y3: real): real
  {
    var denom := y1 - 2.0 * y2 + y3;
    if denom != 0.0 then 0.5 * (y1 - y3) / denom else 0.0
  }

  /** The shift is where the interpolating parabola is stationary, and
      around a local maximum it moves the lag by at most half a sample. */
  lemma ParabolicShiftIsVertex(y1: real, y2: real, y3: real)
    ensures var d := y1 - 2.0 * y2 + y3;
      d != 0.0 ==> (y3 - y1) / 2.0 + d * ParabolicShift(y1, y2, y3) == 0.0
    ensures y2 >= y1 && y2 >= y3 ==> -0.5 <= ParabolicShift(y1, y2, y3) <= 0.5
  {
    var d := y1 - 2.0 * y2 + y3;
    if d != 0.0 {
      var q := 0.5 * (y1 - y3);
      assert d * (q / d) == q;
      if y2 >= y1 && y2 >= y3 {
        // d = -(a + b) with a, b >= 0 and y1 - y3 = b - a
        var a, b := y2 - y1, y2 - y3;
        assert d == -(a + b) && a + b > 0.0;
        assert -(a + b) <= b - a <= a + b;
        var s := q / d;
        assert s * d == q;
        assert s * (a + b) == 0.5 * (a - b);
        assert -0.5 * (a + b) <= s * (a + b) <= 0.5 * (a + b);
      }
    }
  }

  /** The lower neighbour used for refinement: one lag less, except that
      lags 0 and 1 use themselves. */
  function LowerNeighbour(best: nat): nat
  {
    if best > 1 then best - 1 else best
  }

  /** The refined (fractional) lag around an accepted integer lag. */
  function RefinedLag(c: seq<real>, best: nat): real
  {
    best as real + ParabolicShift(Corr(c, LowerNeighbour(best)), Corr(c, best), Corr(c, best + 1))
  }

  /** At lags 0 and 1 the lower neighbour is the lag itself, so y1 == y2 and
      the refinement is exactly half a lag down unless y3 == y2 too. */
  lemma LowLagShiftsByHalf(c: seq<real>, best: nat)
    requires best <= 1
    requires Corr(c, best + 1) != Corr(c, best)
    ensures RefinedLag(c, best) == best as real - 0.5
  {
    var y2, y3 := Corr(c, best), Corr(c, best + 1);
    var d := y3 - y2;
    assert y2 - 2.0 * y2 + y3 == d;
    assert 0.5 * (y2 - y3) == -0.5 * d;
    DivCancel(-0.5, d);
  }

  /** The frequency for an accepted lag: sampleRate / refined lag. The
      source also evaluates the correlation one lag past the best; when that
      lag equals the frame length it divides 0 by 0 and the result is NaN,
      and a refined lag of 0 gives +Infinity. */
  function Refine(c: seq<real>, best: nat, sampleRate: int): (r: Number)
    requires best < |c| && sampleRate > 0
    ensures r.NaN? <==> best + 1 == |c|
    ensures r.PosInfinity? ==> RefinedLag(c, best) == 0.0
    ensures r.Finite? ==> r.value * RefinedLag(c, best) == sampleRate as real
  {
    if best + 1 == |c| then NaN
    else
      var refined := RefinedLag(c, best);
      if refined == 0.0 then PosInfinity else Finite(sampleRate as real / refined)
  }

  // ---------------------------------------------------------------------
  // The estimator

  /** What `autoCorrelate(buf, sampleRate)` returns. */
  function Estimate(buf: seq<real>, sampleRate: int): Number
    requires sampleRate > 0
  {
    if TooQuiet(buf) then Sentinel
    else
      var c := Clipped(buf);
      var p := ScanPeak(c, MinLag(sampleRate), MaxLag(sampleRate));
      if p.corr < MinAcceptedCorr || p.offset == -1 then Sentinel
      else Refine(c, p.offset, sampleRate)
  }

  /** A frame that passes the silence gate and has an early-exit lag l in
      the scanned range, with no exit lag before it, is reported at the
      refinement of l, whatever the correlations at the other lags. */
  lemma EstimateOnEarlyExit(buf: seq<real>, sampleRate: int, l: nat)
    requires sampleRate > 0 && !TooQuiet(buf)
    requires MinLag(sampleRate) <= l <= MaxLag(sampleRate)
    requires IsExitLag(Clipped(buf), MinLag(sampleRate), l)
    requires forall k :: MinLag(sampleRate) <= k < l ==> !IsExitLag(Clipped(buf), MinLag(sampleRate), k)
    ensures l < |buf|
    ensures Estimate(buf, sampleRate) == Refine(Clipped(buf), l, sampleRate)
  {
    EarlyExitWins(Clipped(buf), MinLag(sampleRate), MaxLag(sampleRate), l);
  }

  /** A frame that passes the silence gate and has no early-exit lag is
      judged at the first lag l of maximum correlation over the scanned
      range: it is reported at the refinement of l when that correlation
      reaches 0.01, and as no pitch otherwise. */
  lemma EstimateWithoutEarlyExit(buf: seq<real>, sampleRate: int, l: nat)
    requires sampleRate > 0 && !TooQuiet(buf)
    requires MinLag(sampleRate) <= l <= MaxLag(sampleRate)
    requires forall k :: MinLag(sampleRate) <= k <= MaxLag(sampleRate) ==> !IsExitLag(Clipped(buf), MinLag(sampleRate), k)
    requires forall k :: MinLag(sampleRate) <= k <= MaxLag(sampleRate) ==> Corr(Clipped(buf), k) <= Corr(Clipped(buf), l)
    requires forall k :: MinLag(sampleRate) <= k < l ==> Corr(Clipped(buf), k) < Corr(Clipped(buf), l)
    ensures Corr(Clipped(buf), l) >= MinAcceptedCorr ==> l < |buf|
    ensures Estimate(buf, sampleRate) ==
      if Corr(Clipped(buf), l) >= MinAcceptedCorr then Refine(Clipped(buf), l, sampleRate) else Sentinel
  {
    var c := Clipped(buf);
    var lo, hi := MinLag(sampleRate), MaxLag(sampleRate);
    NoExitGivesFirstMaximum(c, lo, hi);
    var p := ScanPeak(c, lo, hi);
    if Corr(c, l) > 0.0 {
      assert p.offset != -1;
      assert p.corr == Corr(c, l);
      assert !(p.offset < l) && !(p.offset > l);
    } else {
      assert p.offset == -1 || p.corr <= 0.0;
    }
  }

  lemma {:induction false} LagSumOfZeros(c: seq<real>, lag: nat, n: nat)
    requires n + lag <= |c|
    requires forall i :: 0 <= i < |c| ==> c[i] == 0.0
    ensures LagSum(c, lag, n) == 0.0
  {
    if n > 0 {
      LagSumOfZeros(c, lag, n - 1);
    }
  }

  /** A frame that is empty or silent after clipping gives no pitch: no
      correlation is positive, so no lag is ever recorded. */
  lemma NoSignalAfterClippingHasNoPitch(buf: seq<real>, sampleRate: int)
    requires sampleRate > 0
    requires forall i :: 0 <= i < |buf| ==> Abs(buf[i]) < ClipLevel
    ensures Estimate(buf, sampleRate) == Sentinel
  {
    var c := Clipped(buf);
    var lo, hi := MinLag(sampleRate), MaxLag(sampleRate);
    forall k: nat ensures Corr(c, k) == 0.0 {
      if k < |c| {
        LagSumOfZeros(c, k, |c| - k);
      }
    }
    forall k | lo <= k <= hi ensures !IsExitLag(c, lo, k) {
      assert Corr(c, k) == 0.0;
    }
    NoExitGivesFirstMaximum(c, lo, hi);
  }

  // ---------------------------------------------------------------------
  // The algorithm, step by step over arrays

  /** The first loop: the sum of squared samples. */
  method SumOfSquares(buf: array<real>) returns (sum: real)
    ensures sum == SumSquares(buf[..])
  {
    sum := 0.0;
    var i := 0;
    while i < buf.Length
      invariant 0 <= i <= buf.Length
      invariant sum == SumSquares(buf[..i])
    {
      var v := buf[i];
      assert buf[..i + 1][..i] == buf[..i];
      sum := sum + v * v;
      i := i + 1;
    }
    assert buf[..buf.Length] == buf[..];
  }

  /** The second loop: a new array holding the clipped copy. */
  method ClipCopy(buf: array<real>) returns (clipped: array<real>)
    ensures fresh(clipped)
    ensures clipped[..] == Clipped(buf[..])
  {
    clipped := new real[buf.Length];
    var i := 0;
    while i < buf.Length
      invariant 0 <= i <= buf.Length
      invariant forall k :: 0 <= k < i ==> clipped[k] == ClipSample(buf[k])
    {
      var v := buf[i];
      clipped[i] := if Abs(v) >= ClipLevel then v else 0.0;
      i := i + 1;
    }
  }

  /** The inner loop of the scan, and `acfAt`: the correlation at one lag. */
  method Correlation(c: array<real>, lag: nat) returns (r: real)
    ensures r == Corr(c[..], lag)
  {
    var sum := 0.0;
    var i := 0;
    while i < c.Length - lag
      invariant 0 <= i && (i <= c.Length - lag || i == 0)
      invariant i + lag <= c.Length || i == 0
      invariant sum == (if lag < c.Length then LagSum(c[..], lag, i) else 0.0)
    {
      sum := sum + c[i] * c[i + lag];
      i := i + 1;
    }
    r := if lag < c.Length then sum / ((c.Length - lag) as real) else 0.0;
  }

  /** The lag loop: scans minLag..maxLag upwards, tracking the best
      correlation and the previous one, and stops at the first exit lag. */
  method ScanLags(c: array<real>, minLag: nat, maxLag: int) returns (bestOffset: int, bestCorr: real)
    ensures Peak(bestOffset, bestCorr) == ScanPeak(c[..], minLag, maxLag)
  {
    bestOffset := -1;
    bestCorr := 0.0;
    var lastCorr := 1.0;
    var lag: nat := minLag;
    while lag <= maxLag
      invariant minLag <= lag && (lag == minLag || lag <= maxLag + 1)
      invariant FirstExitFrom(c[..], minLag, minLag, maxLag) == FirstExitFrom(c[..], minLag, lag, maxLag)
      invariant Peak(bestOffset, bestCorr) == BestUpTo(c[..], minLag, lag - 1)
      invariant lastCorr == PrevCorr(c[..], minLag, lag)
      decreases maxLag - lag
    {
      var corr := Correlation(c, lag);
      if corr > EarlyExitCorr && corr > lastCorr {
        bestOffset, bestCorr := lag, corr;
        break;
      }
      if corr > bestCorr {
        bestCorr, bestOffset := corr, lag;
      }
      lastCorr := corr;
      lag := lag + 1;
    }
  }

  /** The refinement step: correlations at the neighbours of the accepted
      lag, the parabolic shift when their second difference is non-zero,
      and the division of the sample rate by the refined lag. */
  method Interpolate(clipped: array<real>, bestOffset: nat, sampleRate: int) returns (r: Number)
    requires bestOffset < clipped.Length && sampleRate > 0
    ensures r == Refine(clipped[..], bestOffset, sampleRate)
  {
    var x1 := LowerNeighbour(bestOffset);
    var x2 := bestOffset;
    var x3 := bestOffset + 1;
    if x3 == clipped.Length {
      // acfAt(x3) divides 0 by 0
      return NaN;
    }
    var y1 := Correlation(clipped, x1);
    var y2 := Correlation(clipped, x2);
    var y3 := Correlation(clipped, x3);
    var denom := y1 - 2.0 * y2 + y3;
    var refined := bestOffset as real;
    if denom != 0.0 {
      var delta := 0.5 * (y1 - y3) / denom;
      refined := bestOffset as real + delta;
    }
    assert refined == RefinedLag(clipped[..], bestOffset);
    if refined == 0.0 {
      return PosInfinity;
    }
    return Finite(sampleRate as real / refined);
  }

  /** `autoCorrelate(buf, sampleRate)`. */
  method AutoCorrelate(buf: array<real>, sampleRate: int) returns (r: Number)
    requires sampleRate > 0
    ensures r == Estimate(buf[..], sampleRate)
    ensures TooQuiet(buf[..]) ==> r == Sentinel
  {
    var size := buf.Length;
    var sum := SumOfSquares(buf);
    if size > 0 && sum / (size as real) < SilenceRms * SilenceRms {
      return Sentinel;
    }
    assert !TooQuiet(buf[..]);
    var clipped := ClipCopy(buf);
    var bestOffset, bestCorr := ScanLags(clipped, MinLag(sampleRate), MaxLag(sampleRate));
    if bestCorr < MinAcceptedCorr || bestOffset == -1 {
      return Sentinel;
    }
    assert bestOffset < clipped.Length;
    r := Interpolate(clipped, bestOffset, sampleRate);
  }
}
