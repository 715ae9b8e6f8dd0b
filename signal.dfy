/** Vector arithmetic on sample sequences, shared by every stage of the audio pipeline.
    Samples are mathematical reals; the numeric library the pipeline calls into is
    represented by the `Numerics` bundle of function values and its `Lawful` contract. */
module Signal {

  datatype Option<+T> = None | Some(value: T)

  datatype Result<+T> = Ok(value: T) | Err(error: string)

  /** A value in decibels: either a literal written by the code, or 10·log10(ratio).
      Keeping the ratio symbolic avoids axiomatising log10; 10·log10 is strictly increasing,
      so bounds on the ratio are bounds on the decibel value. */
  datatype Decibels = Db(value: real) | TenLog10(ratio: real)

  /** The library calls the pipeline makes, cut at their seams. */
  datatype Numerics = Numerics(
    resample: (seq<real>, nat) -> seq<real>,  // scipy.signal.resample(x, num)
    lowPass: seq<real> -> seq<real>,          // filtfilt with the order-4 Butterworth at 0.2 Nyquist
    boxSmooth: (seq<real>, nat) -> seq<real>, // np.convolve(x, ones(L)/L, mode='same')
    hanning: nat -> seq<real>,                // np.hanning(M)
    sqrt: real -> real)                       // np.sqrt / math.sqrt

  /** The square-root law: a non-negative root whose square is the radicand, and root 0 is 0. */
  ghost predicate IsSqrt(sqrt: real -> real) {
    && sqrt(0.0) == 0.0
    && forall x :: 0.0 <= x ==> 0.0 <= sqrt(x) && sqrt(x) * sqrt(x) == x
  }

  /** What the model relies on about the library: output lengths and the square-root law. */
  ghost predicate Lawful(lib: Numerics) {
    && (forall s: seq<real>, n: nat :: |lib.resample(s, n)| == n)
    && (forall s :: |lib.lowPass(s)| == |s|)
    && (forall s: seq<real>, n: nat :: n <= |s| ==> |lib.boxSmooth(s, n)| == |s|)
    && (forall m: nat :: |lib.hanning(m)| == m)
    && IsSqrt(lib.sqrt)
  }

  lemma ProductNonNegative(a: real, b: real)
    requires a >= 0.0 && b >= 0.0
    ensures a * b >= 0.0
  {
  }

  lemma ProductMonotone(a: real, b: real, g: real)
    requires a <= b && g >= 0.0
    ensures a * g <= b * g
  {
  }

  lemma QuotientNonNegative(a: real, b: real)
    requires a >= 0.0 && b > 0.0
    ensures a / b >= 0.0
  {
  }

  lemma ProductMonotoneNat(a: int, b: int, h: nat)
    requires a <= b
    ensures a * h <= b * h
  {
  }

  lemma ZeroOver(d: real, avg: real)
    requires d == 0.0 && avg > 0.0
    ensures d / avg == 0.0
  {
  }

  /** The mean of non-negative values is non-negative. */
  lemma MeanNonNegative(s: seq<real>)
    requires |s| > 0
    requires forall i :: 0 <= i < |s| ==> s[i] >= 0.0
    ensures Mean(s) >= 0.0
  {
    SumNonNegative(s);
    QuotientNonNegative(Sum(s), |s| as real);
  }

  /** The mean square, the radicand of every RMS value, is non-negative. */
  lemma MeanSquareNonNegative(y: seq<real>)
    requires |y| > 0
    ensures Mean(Squares(y)) >= 0.0
  {
    var sq := Squares(y);
    forall i | 0 <= i < |sq| ensures sq[i] >= 0.0 {
      assert sq[i] == y[i] * y[i];
    }
    MeanNonNegative(sq);
  }

  lemma AbsOfScaled(x: real, g: real)
    requires g > 0.0
    ensures Abs(x * g) == g * Abs(x)
  {
    if x < 0.0 {
      assert x * g < 0.0;
    } else {
      ProductNonNegative(x, g);
    }
  }

  function Abs(x: real): (r: real)
    ensures r >= 0.0 && (r == x || r == -x)
  {
    if x < 0.0 then -x else x
  }

  /** Left-to-right sum, as Python's sum() and numpy's reductions compute it (exactly, here). */
  function Sum(s: seq<real>): real
  {
    if |s| == 0 then 0.0 else Sum(s[..|s| - 1]) + s[|s| - 1]
  }

  function Mean(s: seq<real>): real
    requires |s| > 0
  {
    Sum(s) / |s| as real
  }

  function Squares(s: seq<real>): (r: seq<real>)
    ensures |r| == |s| && forall i :: 0 <= i < |s| ==> r[i] == s[i] * s[i]
  {
    seq(|s|, i requires 0 <= i < |s| => s[i] * s[i])
  }

  function Zeros(n: nat): (r: seq<real>)
    ensures |r| == n && forall i :: 0 <= i < n ==> r[i] == 0.0
  {
    seq(n, i => 0.0)
  }

  /** Elementwise product by a gain: `y * g` (and `y / m` as `y * (1/m)`). */
  function Scale(s: seq<real>, g: real): (r: seq<real>)
    ensures |r| == |s| && forall i :: 0 <= i < |s| ==> r[i] == s[i] * g
  {
    seq(|s|, i requires 0 <= i < |s| => s[i] * g)
  }

  /** Elementwise product of two equally long vectors. */
  function Times(s: seq<real>, w: seq<real>): (r: seq<real>)
    requires |s| == |w|
    ensures |r| == |s| && forall i :: 0 <= i < |s| ==> r[i] == s[i] * w[i]
  {
    seq(|s|, i requires 0 <= i < |s| => s[i] * w[i])
  }

  /** np.max(np.abs(s)): the peak magnitude. */
  function MaxAbs(s: seq<real>): (m: real)
    requires |s| > 0
    ensures m >= 0.0
    ensures forall i :: 0 <= i < |s| ==> Abs(s[i]) <= m
    ensures exists i :: 0 <= i < |s| && Abs(s[i]) == m
  {
    if |s| == 1 then Abs(s[0])
    else
      var p := MaxAbs(s[..|s| - 1]);
      assert forall i :: 0 <= i < |s| - 1 ==> s[..|s| - 1][i] == s[i];
      if Abs(s[|s| - 1]) > p then Abs(s[|s| - 1]) else p
  }

  /** np.max(s). */
  function Max(s: seq<real>): (m: real)
    requires |s| > 0
    ensures forall i :: 0 <= i < |s| ==> s[i] <= m
    ensures exists i :: 0 <= i < |s| && s[i] == m
  {
    if |s| == 1 then s[0]
    else
      var p := Max(s[..|s| - 1]);
      assert forall i :: 0 <= i < |s| - 1 ==> s[..|s| - 1][i] == s[i];
      if s[|s| - 1] > p then s[|s| - 1] else p
  }

  /** A bound that every element respects and one element reaches is the peak. */
  lemma MaxAbsIsUnique(s: seq<real>, m: real)
    requires |s| > 0
    requires forall i :: 0 <= i < |s| ==> Abs(s[i]) <= m
    requires exists i :: 0 <= i < |s| && Abs(s[i]) == m
    ensures MaxAbs(s) == m
  {
    var k :| 0 <= k < |s| && Abs(s[k]) == m;
    var j :| 0 <= j < |s| && Abs(s[j]) == MaxAbs(s);
    assert Abs(s[k]) <= MaxAbs(s);
    assert Abs(s[j]) <= m;
  }

  /** Scaling by a positive gain scales the peak `m` by that gain. */
  lemma MaxAbsScale(s: seq<real>, g: real, m: real)
    requires |s| > 0 && g > 0.0 && m == MaxAbs(s)
    ensures MaxAbs(Scale(s, g)) == g * m
  {
    ScaledBounded(s, g, m);
    var k :| 0 <= k < |s| && Abs(s[k]) == m;
    ScaledReaches(s, g, k, m);
    MaxAbsIsUnique(Scale(s, g), g * m);
  }

  lemma ScaledBounded(s: seq<real>, g: real, m: real)
    requires g > 0.0
    requires forall i :: 0 <= i < |s| ==> Abs(s[i]) <= m
    ensures forall i :: 0 <= i < |s| ==> Abs(Scale(s, g)[i]) <= g * m
  {
    var t := Scale(s, g);
    forall i | 0 <= i < |s| ensures Abs(t[i]) <= g * m {
      var x := s[i];
      assert t[i] == x * g;
      ScaledBelow(x, g, m);
    }
  }

  lemma ScaledReaches(s: seq<real>, g: real, k: nat, m: real)
    requires g > 0.0 && k < |s| && Abs(s[k]) == m
    ensures Abs(Scale(s, g)[k]) == g * m
  {
    AbsOfScaled(s[k], g);
  }

  lemma ScaledBelow(x: real, g: real, m: real)
    requires g > 0.0 && Abs(x) <= m
    ensures Abs(x * g) <= g * m
  {
    AbsOfScaled(x, g);
    ProductMonotone(Abs(x), m, g);
  }

  /** Dividing by the peak (a positive number) brings the peak to exactly one. */
  lemma MaxAbsNormalised(s: seq<real>, m: real)
    requires |s| > 0 && m == MaxAbs(s) && m > 0.0
    ensures MaxAbs(Scale(s, 1.0 / m)) == 1.0
  {
    MaxAbsToTarget(s, 1.0, m);
  }

  /** Multiplying by target/peak brings a positive peak to exactly the target. */
  lemma MaxAbsToTarget(s: seq<real>, target: real, m: real)
    requires |s| > 0 && m == MaxAbs(s) && m > 0.0 && target > 0.0
    ensures MaxAbs(Scale(s, target / m)) == target
  {
    var g := target / m;
    QuotientTimes(target, m, g);
    MaxAbsScale(s, g, m);
  }

  lemma QuotientTimes(a: real, m: real, q: real)
    requires m > 0.0 && q == a / m
    ensures q * m == a
  {
  }

  /** A zero peak means an all-zero vector. */
  lemma ZeroPeakIsSilence(s: seq<real>)
    requires |s| > 0 && MaxAbs(s) == 0.0
    ensures s == Zeros(|s|)
  {
    forall i | 0 <= i < |s| ensures s[i] == 0.0 {
      assert Abs(s[i]) <= 0.0;
    }
  }

  lemma {:induction false} SumNonNegative(s: seq<real>)
    requires forall i :: 0 <= i < |s| ==> s[i] >= 0.0
    ensures Sum(s) >= 0.0
  {
    if |s| > 0 {
      SumNonNegative(s[..|s| - 1]);
    }
  }

  lemma {:induction false} SumBounds(s: seq<real>, lo: real, hi: real)
    requires forall i :: 0 <= i < |s| ==> lo <= s[i] <= hi
    ensures |s| as real * lo <= Sum(s) <= |s| as real * hi
  {
    if |s| > 0 {
      SumBounds(s[..|s| - 1], lo, hi);
    }
  }

  lemma {:induction false} SumOfConstant(s: seq<real>, c: real)
    requires forall i :: 0 <= i < |s| ==> s[i] == c
    ensures Sum(s) == |s| as real * c
  {
    if |s| > 0 {
      SumOfConstant(s[..|s| - 1], c);
    }
  }

  /** The mean lies between any lower and upper bound of the elements. */
  lemma MeanBounds(s: seq<real>, lo: real, hi: real)
    requires |s| > 0
    requires forall i :: 0 <= i < |s| ==> lo <= s[i] <= hi
    ensures lo <= Mean(s) <= hi
  {
    SumBounds(s, lo, hi);
    var n := |s| as real;
    assert Sum(s) / n >= lo by {
      assert Sum(s) >= n * lo;
    }
    assert Sum(s) / n <= hi by {
      assert Sum(s) <= n * hi;
    }
  }

  /** np.abs(np.diff(s)): magnitudes of consecutive differences. */
  function AbsDiffs(s: seq<real>): (r: seq<real>)
    requires |s| > 0
    ensures |r| == |s| - 1
    ensures forall i :: 0 <= i < |r| ==> r[i] == Abs(s[i + 1] - s[i]) && r[i] >= 0.0
  {
    seq(|s| - 1, i requires 0 <= i < |s| - 1 => Abs(s[i + 1] - s[i]))
  }

  /** np.mean(np.abs(np.diff(s))). */
  function MeanAbsDiff(s: seq<real>): (r: real)
    requires |s| > 1
    ensures r >= 0.0
  {
    var d := AbsDiffs(s);
    SumNonNegative(d);
    QuotientNonNegative(Sum(d), |d| as real);
    Mean(d)
  }

  /** A constant sequence has no cycle-to-cycle variation. */
  lemma MeanAbsDiffOfConstant(s: seq<real>)
    requires |s| > 1
    requires forall i :: 0 <= i < |s| ==> s[i] == s[0]
    ensures MeanAbsDiff(s) == 0.0
  {
    var d := AbsDiffs(s);
    forall i | 0 <= i < |d| ensures d[i] == 0.0 {
      assert s[i + 1] == s[0] && s[i] == s[0];
    }
    SumOfZeros(d);
    ZeroOver(Sum(d), |d| as real);
  }

  lemma {:induction false} SumOfZeros(s: seq<real>)
    requires forall i :: 0 <= i < |s| ==> s[i] == 0.0
    ensures Sum(s) == 0.0
  {
    if |s| > 0 {
      SumOfZeros(s[..|s| - 1]);
    }
  }

  /** Σ_{i < n-k} y[i]·y[i+k]: the lag-k product sum of y with itself. */
  function LagProduct(y: seq<real>, k: nat): real
    requires k <= |y|
    decreases |y| - k
  {
    if k == |y| then 0.0
    else LagProduct(y[..|y| - 1], k) + y[|y| - 1 - k] * y[|y| - 1]
  }

  /** The one-sided autocorrelation, lags 0..n-1. Both the FFT route (zero-padding to 2n so
      that the circular correlation does not wrap) and np.correlate(.., 'full')[n-1:]
      compute exactly these values. */
  function Autocorrelation(y: seq<real>): (acf: seq<real>)
    ensures |acf| == |y|
    ensures forall k :: 0 <= k < |y| ==> acf[k] == LagProduct(y, k)
  {
    seq(|y|, k requires 0 <= k < |y| => LagProduct(y, k))
  }

  /** Lag zero is the energy Σ y[i]². */
  lemma {:induction false} LagZeroIsEnergy(y: seq<real>)
    ensures LagProduct(y, 0) == Sum(Squares(y))
  {
    if |y| > 0 {
      LagZeroIsEnergy(y[..|y| - 1]);
      var sq, pre := Squares(y), Squares(y[..|y| - 1]);
      assert |sq[..|y| - 1]| == |pre|;
      assert forall i :: 0 <= i < |pre| ==> sq[..|y| - 1][i] == pre[i];
      assert sq[..|y| - 1] == pre;
    }
  }

  lemma AutocorrelationEnergyNonNegative(y: seq<real>)
    requires |y| > 0
    ensures Autocorrelation(y)[0] == Sum(Squares(y)) >= 0.0
  {
    LagZeroIsEnergy(y);
    SumNonNegative(Squares(y));
  }
}
