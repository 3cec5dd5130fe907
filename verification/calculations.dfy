/** The six severity bands every calculator in the application reports,
    in increasing order of hearing loss. */
module Bands {

  datatype Band = Normal | Mild | Moderate | ModerateSevere | Severe | Profound

  /** Position of a band in the severity order, 0 (Normal) to 5 (Profound). */
  function Rank(b: Band): (k: nat)
    ensures k <= 5
    ensures b == Normal <==> k == 0
    ensures b == Profound <==> k == 5
  {
    match b
    case Normal => 0
    case Mild => 1
    case Moderate => 2
    case ModerateSevere => 3
    case Severe => 4
    case Profound => 5
  }

  /** The rank identifies the band. */
  lemma RankInjective(a: Band, b: Band)
    requires Rank(a) == Rank(b)
    ensures a == b
  {
  }
}

/** The stand-alone calculator `AudiometryCalculations`: pure functions from
    per-frequency hearing levels (dB HL, Swift `Double`, modelled as `real`)
    to a value and a classification. Short inputs yield the sentinel value
    0.0 with the label "No data" or "Insufficient data". */
module Calculations {
  import opened Bands

  /** The classification string of a result: one of the six band names, or
      one of the two sentinels. */
  datatype Label = Graded(band: Band) | NoData | InsufficientData

  /** The `(average, classification)` / `(value, classification)` tuples. */
  datatype IndexResult = IndexResult(value: real, classification: Label)

  /** The ELI weights for 500, 1000, 2000, 4000 and 8000 Hz. */
  const Weights: seq<real> := [0.15, 0.25, 0.25, 0.25, 0.10]

  /** `reduce(0, +)`: a left fold of `+` starting at 0. */
  function Sum(xs: seq<real>): real
  {
    if |xs| == 0 then 0.0 else Sum(xs[..|xs| - 1]) + xs[|xs| - 1]
  }

  /** Every element of `xs` lies in `[lo, hi]`. */
  ghost predicate AllWithin(xs: seq<real>, lo: real, hi: real)
  {
    forall i :: 0 <= i < |xs| ==> lo <= xs[i] <= hi
  }

  /** A sum of `n` values in `[lo, hi]` lies in `[n*lo, n*hi]`. */
  lemma {:induction false} SumWithin(xs: seq<real>, lo: real, hi: real)
    requires AllWithin(xs, lo, hi)
    ensures |xs| as real * lo <= Sum(xs) <= |xs| as real * hi
  {
    if |xs| > 0 {
      var init := xs[..|xs| - 1];
      assert AllWithin(init, lo, hi) by {
        forall i | 0 <= i < |init| ensures lo <= init[i] <= hi {
          assert init[i] == xs[i];
        }
      }
      SumWithin(init, lo, hi);
      var k := |init| as real;
      assert Sum(init) >= k * lo && Sum(init) <= k * hi;
      assert |xs| as real == k + 1.0;
      assert Sum(xs) == Sum(init) + xs[|xs| - 1];
      assert lo <= xs[|xs| - 1] <= hi;
      assert (k + 1.0) * lo == k * lo + lo;
      assert (k + 1.0) * hi == k * hi + hi;
    }
  }

  /** `Sum` unfolded for the three speech frequencies. */
  lemma SumOfThree(xs: seq<real>)
    requires |xs| == 3
    ensures Sum(xs) == xs[0] + xs[1] + xs[2]
  {
    assert Sum(xs[..1]) == xs[0] by {
      assert xs[..1][..0] == [];
    }
    assert xs[..2][..1] == xs[..1];
  }

  /** `Sum` unfolded for a five-frequency profile. */
  lemma SumOfFive(xs: seq<real>)
    requires |xs| == 5
    ensures Sum(xs) == xs[0] + xs[1] + xs[2] + xs[3] + xs[4]
  {
    SumOfThree(xs[..3]);
    assert xs[..4][..3] == xs[..3];
  }

  /** The sum of `n` copies of `c` is `n*c`. */
  lemma {:induction false} SumConstant(xs: seq<real>, c: real)
    requires forall i :: 0 <= i < |xs| ==> xs[i] == c
    ensures Sum(xs) == |xs| as real * c
  {
    if |xs| > 0 {
      SumConstant(xs[..|xs| - 1], c);
    }
  }

  /** True when `v` lies strictly inside one of the four one-decibel gaps
      left between the closed `Double` ranges of `ClassifyHearingLoss`. */
  predicate InGap(v: real)
  {
    (25.0 < v < 26.0) || (40.0 < v < 41.0) || (55.0 < v < 56.0) || (70.0 < v < 71.0)
  }

  /** `classifyHearingLoss(average:)`: a `switch` over the ranges `...25`,
      `26...40`, `41...55`, `56...70`, `71...90`, with `default` giving
      "Profound". Values in the gaps between the ranges match no case. */
  function ClassifyHearingLoss(average: real): (b: Band)
    ensures b == Normal <==> average <= 25.0
    ensures b == Mild <==> 26.0 <= average <= 40.0
    ensures b == Moderate <==> 41.0 <= average <= 55.0
    ensures b == ModerateSevere <==> 56.0 <= average <= 70.0
    ensures b == Severe <==> 71.0 <= average <= 90.0
    ensures b == Profound <==> average > 90.0 || InGap(average)
  {
    if average <= 25.0 then Normal
    else if 26.0 <= average <= 40.0 then Mild
    else if 41.0 <= average <= 55.0 then Moderate
    else if 56.0 <= average <= 70.0 then ModerateSevere
    else if 71.0 <= average <= 90.0 then Severe
    else Profound
  }

  /** Values inside the gaps are reported as Profound, although a neighbour
      one decibel lower is Normal, Mild, Moderate or Moderate-Severe: the
      classification is not monotone in the value. */
  lemma GapValuesAreProfound()
    ensures ClassifyHearingLoss(25.5) == Profound && ClassifyHearingLoss(25.0) == Normal
    ensures ClassifyHearingLoss(40.5) == Profound && ClassifyHearingLoss(40.0) == Mild
    ensures ClassifyHearingLoss(55.5) == Profound && ClassifyHearingLoss(55.0) == Moderate
    ensures ClassifyHearingLoss(70.5) == Profound && ClassifyHearingLoss(70.0) == ModerateSevere
    ensures Rank(ClassifyHearingLoss(25.5)) > Rank(ClassifyHearingLoss(90.0))
  {
  }

  /** `calculateHearingLoss(frequencies:)`: the arithmetic mean with its
      classification, or `(0.0, "No data")` for an empty array. */
  function CalculateHearingLoss(frequencies: seq<real>): (r: IndexResult)
    ensures |frequencies| == 0 <==> r.classification == NoData
    ensures |frequencies| == 0 ==> r.value == 0.0
    ensures |frequencies| > 0 ==> r.value * |frequencies| as real == Sum(frequencies)
    ensures |frequencies| > 0 ==> r.classification == Graded(ClassifyHearingLoss(r.value))
  {
    if |frequencies| == 0 then IndexResult(0.0, NoData)
    else
      var average := Sum(frequencies) / |frequencies| as real;
      IndexResult(average, Graded(ClassifyHearingLoss(average)))
  }

  /** The mean of a non-empty profile lies between its least and greatest
      values; in particular a constant profile averages to that constant. */
  lemma MeanWithin(frequencies: seq<real>, lo: real, hi: real)
    requires |frequencies| > 0
    requires AllWithin(frequencies, lo, hi)
    ensures lo <= CalculateHearingLoss(frequencies).value <= hi
  {
    SumWithin(frequencies, lo, hi);
    var n := |frequencies| as real;
    var m := CalculateHearingLoss(frequencies).value;
    assert m * n == Sum(frequencies);
    assert n * lo <= m * n <= n * hi;
  }

  /** A profile whose entries all equal `c` has mean `c`. */
  lemma MeanOfConstant(frequencies: seq<real>, c: real)
    requires |frequencies| > 0
    requires forall i :: 0 <= i < |frequencies| ==> frequencies[i] == c
    ensures CalculateHearingLoss(frequencies) == IndexResult(c, Graded(ClassifyHearingLoss(c)))
  {
    MeanWithin(frequencies, c, c);
  }

  /** `calculateSAL(frequencies:)`: the mean of the first three values (500,
      1000 and 2000 Hz) with its classification, or `(0.0, "Insufficient
      data")` when fewer than three values are given. */
  function CalculateSAL(frequencies: seq<real>): (r: IndexResult)
    ensures |frequencies| < 3 <==> r.classification == InsufficientData
    ensures |frequencies| < 3 ==> r.value == 0.0
    ensures |frequencies| >= 3 ==>
              r.value * 3.0 == frequencies[0] + frequencies[1] + frequencies[2]
    ensures |frequencies| >= 3 ==> r.classification == Graded(ClassifyHearingLoss(r.value))
  {
    if |frequencies| < 3 then IndexResult(0.0, InsufficientData)
    else
      var speech := frequencies[..3];
      SumOfThree(speech);
      var sal := Sum(speech) / |speech| as real;
      IndexResult(sal, Graded(ClassifyHearingLoss(sal)))
  }

  /** SAL reads the speech frequencies only: two profiles that agree on
      their first three values have the same SAL, whatever follows. */
  lemma SalIgnoresHighFrequencies(xs: seq<real>, ys: seq<real>)
    requires |xs| >= 3 && |ys| >= 3
    requires xs[..3] == ys[..3]
    ensures CalculateSAL(xs) == CalculateSAL(ys)
  {
    assert xs[0] == ys[0] && xs[1] == ys[1] && xs[2] == ys[2] by {
      assert xs[0] == xs[..3][0] && ys[0] == ys[..3][0];
      assert xs[1] == xs[..3][1] && ys[1] == ys[..3][1];
      assert xs[2] == xs[..3][2] && ys[2] == ys[..3][2];
    }
  }

  /** SAL is the hearing-loss mean of the three speech frequencies. */
  lemma SalIsSpeechMean(frequencies: seq<real>)
    requires |frequencies| >= 3
    ensures CalculateSAL(frequencies) == CalculateHearingLoss(frequencies[..3])
  {
  }

  /** The weighted sum accumulated by the `for (index, frequency) in
      frequencies.enumerated()` loop after its first `n` iterations: only
      positions below `weights.count` contribute. */
  function PartialWeightedSum(frequencies: seq<real>, n: nat): real
    requires n <= |frequencies|
  {
    if n == 0 then 0.0
    else
      PartialWeightedSum(frequencies, n - 1)
      + (if n - 1 < |Weights| then frequencies[n - 1] * Weights[n - 1] else 0.0)
  }

  /** The loop's final value. */
  function WeightedSum(frequencies: seq<real>): real
  {
    PartialWeightedSum(frequencies, |frequencies|)
  }

  /** The ELI loop itself, statement by statement: it computes
      `WeightedSum`, and for five or more values that is the fixed
      five-term weighted average. */
  method AccumulateWeightedSum(frequencies: seq<real>) returns (weightedSum: real)
    ensures weightedSum == WeightedSum(frequencies)
    ensures |frequencies| >= 5 ==>
              weightedSum == 0.15 * frequencies[0] + 0.25 * frequencies[1] + 0.25 * frequencies[2]
                             + 0.25 * frequencies[3] + 0.10 * frequencies[4]
  {
    weightedSum := 0.0;
    var index := 0;
    while index < |frequencies|
      invariant 0 <= index <= |frequencies|
      invariant weightedSum == PartialWeightedSum(frequencies, index)
    {
      if index < |Weights| {
        weightedSum := weightedSum + frequencies[index] * Weights[index];
      }
      index := index + 1;
    }
    WeightedSumOfFive(frequencies);
  }

  /** Positions from 5 on add nothing to the weighted sum. */
  lemma {:induction false} WeightedSumStopsAtFive(frequencies: seq<real>, n: nat)
    requires 5 <= n <= |frequencies|
    ensures PartialWeightedSum(frequencies, n) == PartialWeightedSum(frequencies, 5)
  {
    if n > 5 {
      WeightedSumStopsAtFive(frequencies, n - 1);
    }
  }

  /** For five or more values the weighted sum is the closed-form ELI. */
  lemma WeightedSumOfFive(frequencies: seq<real>)
    ensures |frequencies| >= 5 ==>
              WeightedSum(frequencies)
              == 0.15 * frequencies[0] + 0.25 * frequencies[1] + 0.25 * frequencies[2]
                 + 0.25 * frequencies[3] + 0.10 * frequencies[4]
  {
    if |frequencies| >= 5 {
      WeightedSumStopsAtFive(frequencies, |frequencies|);
      assert PartialWeightedSum(frequencies, 1) == 0.15 * frequencies[0];
      assert PartialWeightedSum(frequencies, 3)
             == 0.15 * frequencies[0] + 0.25 * frequencies[1] + 0.25 * frequencies[2];
    }
  }

  /** `calculateELI(frequencies:)`: the weighted sum with weights
      0.15, 0.25, 0.25, 0.25, 0.10 over the first five values, with its
      classification, or `(0.0, "Insufficient data")` for fewer than five. */
  function CalculateELI(frequencies: seq<real>): (r: IndexResult)
    ensures |frequencies| < 5 <==> r.classification == InsufficientData
    ensures |frequencies| < 5 ==> r.value == 0.0
    ensures |frequencies| >= 5 ==>
              r.value == 0.15 * frequencies[0] + 0.25 * frequencies[1] + 0.25 * frequencies[2]
                         + 0.25 * frequencies[3] + 0.10 * frequencies[4]
    ensures |frequencies| >= 5 ==> r.classification == Graded(ClassifyHearingLoss(r.value))
  {
    if |frequencies| < 5 then IndexResult(0.0, InsufficientData)
    else
      WeightedSumOfFive(frequencies);
      var weightedSum := WeightedSum(frequencies);
      IndexResult(weightedSum, Graded(ClassifyHearingLoss(weightedSum)))
  }

  /** The weights sum to one, so ELI is a true weighted average: it lies
      between the least and greatest of the first five values, and a
      constant profile has that constant as its ELI. */
  lemma EliWithin(frequencies: seq<real>, lo: real, hi: real)
    requires |frequencies| >= 5
    requires AllWithin(frequencies[..5], lo, hi)
    ensures lo <= CalculateELI(frequencies).value <= hi
  {
    assert forall i :: 0 <= i < 5 ==> frequencies[i] == frequencies[..5][i];
  }

  /** The fixed weights add up to exactly one. */
  lemma WeightsSumToOne()
    ensures Sum(Weights) == 1.0
    ensures |Weights| == 5
  {
    SumOfFive(Weights);
  }

  /** `calculateBilateralHearingLoss(rightEar:leftEar:)`: the mean of the two
      per-ear results, classified once. An empty ear contributes the 0.0 of
      its "No data" sentinel. */
  function CalculateBilateralHearingLoss(rightEar: seq<real>, leftEar: seq<real>): (r: IndexResult)
    ensures r.value * 2.0 == CalculateHearingLoss(rightEar).value + CalculateHearingLoss(leftEar).value
    ensures r.classification == Graded(ClassifyHearingLoss(r.value))
  {
    var rightResult := CalculateHearingLoss(rightEar);
    var leftResult := CalculateHearingLoss(leftEar);
    var bilateralAverage := (rightResult.value + leftResult.value) / 2.0;
    IndexResult(bilateralAverage, Graded(ClassifyHearingLoss(bilateralAverage)))
  }

  /** The bilateral figure is a mean of means, not the mean of all values
      pooled together: with ears of different lengths the two differ. */
  lemma BilateralIsNotPooledMean()
    ensures CalculateBilateralHearingLoss([0.0], [60.0, 60.0, 60.0]).value == 30.0
    ensures CalculateHearingLoss([0.0, 60.0, 60.0, 60.0]).value == 45.0
  {
    assert [0.0, 60.0, 60.0, 60.0][..3] == [0.0, 60.0, 60.0];
    assert [0.0, 60.0, 60.0][..2] == [0.0, 60.0];
    assert [0.0, 60.0][..1] == [0.0];
    assert [60.0, 60.0, 60.0][..2] == [60.0, 60.0];
    assert [60.0, 60.0][..1] == [60.0];
  }

  /** With one ear missing, the bilateral value is half the other ear's mean. */
  lemma BilateralWithMissingEar(ear: seq<real>)
    ensures CalculateBilateralHearingLoss(ear, []).value * 2.0 == CalculateHearingLoss(ear).value
    ensures CalculateBilateralHearingLoss([], ear).value * 2.0 == CalculateHearingLoss(ear).value
  {
  }

  /** `isValidHearingLevel(_:)`: the physiological range 0 to 120 dB HL,
      both ends included. */
  function IsValidHearingLevel(value: real): (valid: bool)
    ensures valid <==> 0.0 <= value <= 120.0
  {
    value >= 0.0 && value <= 120.0
  }

  /** Averaging preserves validity: when every measured value is a valid
      hearing level, so are the hearing-loss mean, SAL and ELI. */
  lemma ValidInputsGiveValidIndices(frequencies: seq<real>)
    requires forall i :: 0 <= i < |frequencies| ==> IsValidHearingLevel(frequencies[i])
    ensures IsValidHearingLevel(CalculateHearingLoss(frequencies).value)
    ensures IsValidHearingLevel(CalculateSAL(frequencies).value)
    ensures IsValidHearingLevel(CalculateELI(frequencies).value)
  {
    if |frequencies| > 0 {
      MeanWithin(frequencies, 0.0, 120.0);
    }
    if |frequencies| >= 5 {
      EliWithin(frequencies, 0.0, 120.0);
    }
  }

  /** The vectors exercised by `runTests()`. */
  lemma DebugVectors()
    ensures CalculateHearingLoss([10.0, 15.0, 20.0, 25.0, 20.0]) == IndexResult(18.0, Graded(Normal))
    ensures CalculateHearingLoss([30.0, 35.0, 40.0, 45.0, 50.0]) == IndexResult(40.0, Graded(Mild))
    ensures CalculateSAL([10.0, 15.0, 20.0, 25.0, 20.0]) == IndexResult(15.0, Graded(Normal))
    ensures CalculateELI([30.0, 35.0, 40.0, 45.0, 50.0]) == IndexResult(39.5, Graded(Mild))
    ensures CalculateBilateralHearingLoss([10.0, 15.0, 20.0, 25.0, 20.0], [30.0, 35.0, 40.0, 45.0, 50.0])
            == IndexResult(29.0, Graded(Mild))
  {
    SumOfFive([10.0, 15.0, 20.0, 25.0, 20.0]);
    SumOfFive([30.0, 35.0, 40.0, 45.0, 50.0]);
  }
}
