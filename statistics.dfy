/** The summary statistics used to compare Parkinson's and healthy-control voice features:
    mean and population standard deviation, a bucketed Welch-style p-value, and the
    significance label printed beside it. */
module Statistics {
  import opened Signal

  /** The (mean, std) pair of a list of values. */
  datatype Summary = Summary(mean: real, std: real)

  /** x**2. */
  function Square(x: real): (r: real)
    ensures r >= 0.0
  {
    x * x
  }

  lemma ProductZero(a: real, b: real)
    requires a * b == 0.0
    ensures a == 0.0 || b == 0.0
  {
  }

  /** Only zero squares to zero. */
  lemma SquareZero(x: real)
    requires Square(x) == 0.0
    ensures x == 0.0
  {
    ProductZero(x, x);
  }

  /** (x - mean)**2 for every value. */
  function SquaredDeviations(values: seq<real>, mean: real): (r: seq<real>)
    ensures |r| == |values|
    ensures forall i :: 0 <= i < |values| ==> r[i] == Square(values[i] - mean)
  {
    seq(|values|, i requires 0 <= i < |values| => Square(values[i] - mean))
  }

  /** The population variance: the mean squared deviation, dividing by n. */
  function Variance(values: seq<real>): (v: real)
    requires |values| > 0
    ensures v >= 0.0
  {
    var d := SquaredDeviations(values, Mean(values));
    MeanNonNegative(d);
    Mean(d)
  }

  /** Mean and population standard deviation; an empty list summarises as (0.0, 0.0). */
  function MeanStd(lib: Numerics, values: seq<real>): (r: Summary)
    requires Lawful(lib)
    ensures |values| == 0 ==> r == Summary(0.0, 0.0)
    ensures r.std >= 0.0
    ensures |values| > 0 ==> Square(r.std) == Variance(values)
  {
    if |values| == 0 then Summary(0.0, 0.0)
    else Summary(Mean(values), lib.sqrt(Variance(values)))
  }

  /** The mean of a non-empty list lies between any bounds of its values. */
  lemma MeanWithinBounds(lib: Numerics, values: seq<real>, lo: real, hi: real)
    requires Lawful(lib) && |values| > 0
    requires forall i :: 0 <= i < |values| ==> lo <= values[i] <= hi
    ensures lo <= MeanStd(lib, values).mean <= hi
  {
    MeanBounds(values, lo, hi);
  }

  lemma {:induction false} ZeroSumOfNonNegative(s: seq<real>)
    requires forall i :: 0 <= i < |s| ==> s[i] >= 0.0
    requires Sum(s) == 0.0
    ensures forall i :: 0 <= i < |s| ==> s[i] == 0.0
  {
    if |s| > 0 {
      var front := s[..|s| - 1];
      SumNonNegative(front);
      ZeroSumOfNonNegative(front);
      assert forall i :: 0 <= i < |s| - 1 ==> s[i] == front[i];
    }
  }

  lemma MeanOfConstant(values: seq<real>, c: real)
    requires |values| > 0
    requires forall i :: 0 <= i < |values| ==> values[i] == c
    ensures Mean(values) == c
  {
    SumOfConstant(values, c);
    var n := |values| as real;
    assert Sum(values) == n * c;
  }

  /** The population variance is zero exactly when every value is the same. */
  lemma VarianceZeroIffConstant(values: seq<real>)
    requires |values| > 0
    ensures Variance(values) == 0.0 <==> forall i :: 0 <= i < |values| ==> values[i] == values[0]
  {
    if forall i :: 0 <= i < |values| ==> values[i] == values[0] {
      ConstantHasNoVariance(values);
    }
    if Variance(values) == 0.0 {
      NoVarianceIsConstant(values);
    }
  }

  lemma ConstantHasNoVariance(values: seq<real>)
    requires |values| > 0
    requires forall i :: 0 <= i < |values| ==> values[i] == values[0]
    ensures Variance(values) == 0.0
  {
    MeanOfConstant(values, values[0]);
    SumOfConstant(SquaredDeviations(values, Mean(values)), 0.0);
  }

  lemma NoVarianceIsConstant(values: seq<real>)
    requires |values| > 0 && Variance(values) == 0.0
    ensures forall i :: 0 <= i < |values| ==> values[i] == Mean(values)
  {
    var m := Mean(values);
    var d := SquaredDeviations(values, m);
    var n := |values| as real;
    assert Sum(d) == 0.0 by {
      assert Sum(d) / n == 0.0;
      QuotientTimes(Sum(d), n, 0.0);
    }
    ZeroSumOfNonNegative(d);
    forall i | 0 <= i < |values| ensures values[i] == m {
      SquareZero(values[i] - m);
    }
  }

  /** The standard deviation is zero exactly when every value is the same. */
  lemma StdZeroIffConstant(lib: Numerics, values: seq<real>)
    requires Lawful(lib) && |values| > 0
    ensures MeanStd(lib, values).std == 0.0 <==> forall i :: 0 <= i < |values| ==> values[i] == values[0]
  {
    VarianceZeroIffConstant(values);
  }

  lemma QuotientPositive(x: real, y: real)
    requires x > 0.0 && y > 0.0
    ensures x / y > 0.0
  {
  }

  /** The p-value buckets for a t statistic, each threshold strict. */
  function PValue(t: real): (p: real)
    ensures p in {0.001, 0.01, 0.05, 0.5}
  {
    if t > 3.29 then 0.001
    else if t > 2.58 then 0.01
    else if t > 1.96 then 0.05
    else 0.5
  }

  /** A larger t statistic never gives a larger p-value. */
  lemma PValueAntitone(t1: real, t2: real)
    requires t1 <= t2
    ensures PValue(t2) <= PValue(t1)
  {
  }

  /** The approximate Welch test: 0.99 when either group has fewer than two values; with a
      zero standard error, 0.0 for differing means and 1.0 for equal ones; otherwise the
      bucket of |m1 - m2| / sqrt(s1²/n1 + s2²/n2). */
  function ManualTTest(lib: Numerics, group1: seq<real>, group2: seq<real>): (p: real)
    requires Lawful(lib)
    ensures p in {0.99, 0.0, 1.0, 0.001, 0.01, 0.05, 0.5}
    ensures p == 0.99 <==> |group1| < 2 || |group2| < 2
  {
    if |group1| < 2 || |group2| < 2 then 0.99
    else
      var a, b := MeanStd(lib, group1), MeanStd(lib, group2);
      var numerator := Abs(a.mean - b.mean);
      var denominator := lib.sqrt(Square(a.std) / |group1| as real + Square(b.std) / |group2| as real);
      if denominator == 0.0 then (if a.mean != b.mean then 0.0 else 1.0)
      else PValue(numerator / denominator)
  }

  /** Swapping the two groups does not change the p-value. */
  lemma TTestSymmetric(lib: Numerics, group1: seq<real>, group2: seq<real>)
    requires Lawful(lib)
    ensures ManualTTest(lib, group1, group2) == ManualTTest(lib, group2, group1)
  {
    if |group1| >= 2 && |group2| >= 2 {
      var a, b := MeanStd(lib, group1), MeanStd(lib, group2);
      assert Abs(a.mean - b.mean) == Abs(b.mean - a.mean);
    }
  }

  /** The standard error is zero exactly when both groups are constant; then the test
      reports 0.0 when their values differ and 1.0 when they agree. */
  lemma ConstantGroups(lib: Numerics, group1: seq<real>, group2: seq<real>)
    requires Lawful(lib) && |group1| >= 2 && |group2| >= 2
    requires forall i :: 0 <= i < |group1| ==> group1[i] == group1[0]
    requires forall i :: 0 <= i < |group2| ==> group2[i] == group2[0]
    ensures ManualTTest(lib, group1, group2) == if group1[0] != group2[0] then 0.0 else 1.0
  {
    StdZeroIffConstant(lib, group1);
    StdZeroIffConstant(lib, group2);
    MeanOfConstant(group1, group1[0]);
    MeanOfConstant(group2, group2[0]);
    var a, b := MeanStd(lib, group1), MeanStd(lib, group2);
    assert Square(a.std) / |group1| as real + Square(b.std) / |group2| as real == 0.0;
  }

  /** A group with spread never meets the zero-standard-error branch: the result is a
      bucket of the t statistic. */
  lemma SpreadGivesBucket(lib: Numerics, group1: seq<real>, group2: seq<real>, k: nat)
    requires Lawful(lib) && |group1| >= 2 && |group2| >= 2
    requires k < |group1| && group1[k] != group1[0]
    ensures ManualTTest(lib, group1, group2) in {0.001, 0.01, 0.05, 0.5}
  {
    var v1, v2 := Variance(group1), Variance(group2);
    var n1, n2 := |group1| as real, |group2| as real;
    VarianceZeroIffConstant(group1);
    assert v1 != 0.0 by {
      assert group1[k] != group1[0];
    }
    QuotientPositive(v1, n1);
    QuotientNonNegative(v2, n2);
    var a, b := MeanStd(lib, group1), MeanStd(lib, group2);
    assert Square(a.std) / n1 + Square(b.std) / n2 == v1 / n1 + v2 / n2;
  }

  /** The significance label printed beside a p-value. */
  datatype Significance = Significant | High | Moderate | NotSignificant

  function SignificanceLabel(s: Significance): string {
    match s
    case Significant => "(Significant)"
    case High => "(High)"
    case Moderate => "(Mod)"
    case NotSignificant => "(Not Significant)"
  }

  /** Labels use strict thresholds 0.001, 0.01 and 0.05. */
  function Label(p: real): Significance {
    if p < 0.001 then Significant
    else if p < 0.01 then High
    else if p < 0.05 then Moderate
    else NotSignificant
  }

  function Strength(s: Significance): nat {
    match s
    case Significant => 3
    case High => 2
    case Moderate => 1
    case NotSignificant => 0
  }

  /** A smaller p-value never earns a weaker label. */
  lemma LabelAntitone(p1: real, p2: real)
    requires p1 <= p2
    ensures Strength(Label(p2)) <= Strength(Label(p1))
  {
  }

  /** Because both the buckets and the labels are strict, each bucket value lands one label
      below its own threshold: 0.001 reads "(High)", 0.01 "(Mod)", 0.05 "(Not Significant)";
      only the zero-standard-error result 0.0 reads "(Significant)". */
  lemma BucketLabels(lib: Numerics, group1: seq<real>, group2: seq<real>)
    requires Lawful(lib)
    ensures var p := ManualTTest(lib, group1, group2);
      && (Label(p) == Significant <==> p == 0.0)
      && (p == 0.001 ==> Label(p) == High)
      && (p == 0.01 ==> Label(p) == Moderate)
      && (p == 0.05 ==> Label(p) == NotSignificant)
  {
  }
}
