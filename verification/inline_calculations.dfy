/** The calculator as it is duplicated inside the two views that display
    results (the form view and the printable report; the two copies are
    identical apart from the bilateral function's signature: the form's
    takes no arguments and reads its own fields, the report's takes the
    two ear vectors). Unlike `Calculations` these copies classify with
    a gap-free chain of `<=` tests and have no length guards: an empty
    array gives `0.0 / 0.0`, which is NaN in IEEE arithmetic, and NaN
    fails every `<=` test, so it lands in the last ("profound") branch. */
module InlineCalculations {
  import opened Bands
  import C = Calculations

  /** A Swift `Double` as these copies can produce it: a finite value, or
      the NaN of `0.0 / 0.0`. Rounding and infinities are not modelled. */
  datatype Dbl = Finite(v: real) | NaN

  /** `xs.reduce(0, +) / Double(xs.count)`. */
  function MeanOf(xs: seq<real>): (d: Dbl)
    ensures d.NaN? <==> |xs| == 0
    ensures d.Finite? ==> d.v * |xs| as real == C.Sum(xs)
  {
    if |xs| == 0 then NaN else Finite(C.Sum(xs) / |xs| as real)
  }

  /** `(a + b) / 2` with NaN propagation. */
  function MidPoint(a: Dbl, b: Dbl): (d: Dbl)
    ensures d.NaN? <==> a.NaN? || b.NaN?
    ensures d.Finite? ==> d.v * 2.0 == a.v + b.v
  {
    if a.NaN? || b.NaN? then NaN else Finite((a.v + b.v) / 2.0)
  }

  /** The `if v <= 25 … else if v <= 90 … else` chain shared by every
      inline classifier (hearing loss, bilateral, `getSALDegree`,
      `getELIDegree`). */
  function Ladder(v: real): (b: Band)
    ensures b == Normal <==> v <= 25.0
    ensures b == Mild <==> 25.0 < v <= 40.0
    ensures b == Moderate <==> 40.0 < v <= 55.0
    ensures b == ModerateSevere <==> 55.0 < v <= 70.0
    ensures b == Severe <==> 70.0 < v <= 90.0
    ensures b == Profound <==> v > 90.0
  {
    if v <= 25.0 then Normal
    else if v <= 40.0 then Mild
    else if v <= 55.0 then Moderate
    else if v <= 70.0 then ModerateSevere
    else if v <= 90.0 then Severe
    else Profound
  }

  /** The ladder applied to a `Double`: NaN fails every test and lands in
      Profound; a finite value gets the stand-alone classifier's band
      exactly when it lies outside the gaps. */
  function LadderOf(d: Dbl): (b: Band)
    ensures d.NaN? ==> b == Profound
    ensures d.Finite? ==> (b == C.ClassifyHearingLoss(d.v) <==> !C.InGap(d.v))
    ensures d.Finite? ==> b == Ladder(d.v)
  {
    match d
    case NaN => Profound
    case Finite(v) =>
      LadderAgreesOutsideGaps(v);
      Ladder(v)
  }

  /** The ladder is monotone: more hearing loss never gives a milder band. */
  lemma LadderMonotone(v: real, w: real)
    requires v <= w
    ensures Rank(Ladder(v)) <= Rank(Ladder(w))
  {
  }

  /** Every band is reached by the ladder, each on a non-empty interval. */
  lemma LadderCoversEveryBand(b: Band)
    ensures exists v: real :: Ladder(v) == b
  {
    match b
    case Normal => assert Ladder(0.0) == b;
    case Mild => assert Ladder(30.0) == b;
    case Moderate => assert Ladder(50.0) == b;
    case ModerateSevere => assert Ladder(60.0) == b;
    case Severe => assert Ladder(80.0) == b;
    case Profound => assert Ladder(100.0) == b;
  }

  /** The ladder and the stand-alone classifier agree exactly outside the
      four gaps and disagree everywhere inside them. */
  lemma LadderAgreesOutsideGaps(v: real)
    ensures Ladder(v) == C.ClassifyHearingLoss(v) <==> !C.InGap(v)
  {
  }

  /** Inside a gap the ladder picks the band above the lower boundary,
      where the stand-alone classifier says Profound; e.g. 25.5 dB is Mild
      here and Profound there. */
  lemma GapDisagreement()
    ensures Ladder(25.5) == Mild && C.ClassifyHearingLoss(25.5) == Profound
    ensures Ladder(40.5) == Moderate && C.ClassifyHearingLoss(40.5) == Profound
    ensures Ladder(55.5) == ModerateSevere && C.ClassifyHearingLoss(55.5) == Profound
    ensures Ladder(70.5) == Severe && C.ClassifyHearingLoss(70.5) == Profound
  {
  }

  /** A displayed figure: the value printed with `%.1f dB` and the band
      word after it (formatting and localisation are not modelled). */
  datatype Reading = Reading(value: Dbl, band: Band)

  /** `calculateHearingLoss(frequencies:)` of the views: the mean and its
      ladder band. It agrees with the stand-alone mean on non-empty input;
      an empty array gives NaN and "profound" instead of "No data". */
  function HearingLoss(frequencies: seq<real>): (r: Reading)
    ensures |frequencies| == 0 ==> r == Reading(NaN, Profound)
    ensures |frequencies| > 0 ==>
              r == Reading(Finite(C.CalculateHearingLoss(frequencies).value),
                           Ladder(C.CalculateHearingLoss(frequencies).value))
  {
    var average := MeanOf(frequencies);
    Reading(average, LadderOf(average))
  }

  /** `calculateBilateralHearingLoss(right:left:)` of the report (and the
      body of the form view's zero-argument version): the mean of the two
      per-ear means, classified once. It agrees with the stand-alone value
      when both ears have data; an empty ear makes the whole figure NaN. */
  function BilateralHearingLoss(right: seq<real>, left: seq<real>): (r: Reading)
    ensures |right| > 0 && |left| > 0 ==>
              r.value == Finite(C.CalculateBilateralHearingLoss(right, left).value)
    ensures |right| == 0 || |left| == 0 ==> r == Reading(NaN, Profound)
    ensures r.band == LadderOf(r.value)
  {
    var bilateralAverage := MidPoint(MeanOf(right), MeanOf(left));
    Reading(bilateralAverage, LadderOf(bilateralAverage))
  }

  /** `calculateSALValue(frequencies:)`: the mean of `prefix(3)`. From three
      values on it equals the stand-alone SAL; with one or two values it
      averages what there is (the stand-alone version reports
      "Insufficient data"); with none it is NaN. */
  function SalValue(frequencies: seq<real>): (d: Dbl)
    ensures |frequencies| >= 3 ==> d == Finite(C.CalculateSAL(frequencies).value)
    ensures 0 < |frequencies| < 3 ==> d == Finite(C.CalculateHearingLoss(frequencies).value)
    ensures |frequencies| == 0 ==> d == NaN
  {
    var speech := if |frequencies| <= 3 then frequencies else frequencies[..3];
    if |frequencies| >= 3 then
      C.SalIsSpeechMean(frequencies);
      assert frequencies[..3] == speech;
      MeanOf(speech)
    else
      MeanOf(speech)
  }

  /** The SAL line: `calculateSAL` prints the value and `getSALDegree`
      classifies the same value with the ladder. From three values on it
      shows the stand-alone SAL, with the stand-alone band outside the
      gaps; where the stand-alone calculator reports "Insufficient data"
      it shows the plain mean, or NaN graded Profound for no values. */
  function SalReading(frequencies: seq<real>): (r: Reading)
    ensures |frequencies| >= 3 ==>
              Agrees(r, C.CalculateSAL(frequencies))
    ensures 0 < |frequencies| < 3 ==>
              r.value == Finite(C.CalculateHearingLoss(frequencies).value)
              && C.CalculateSAL(frequencies).classification == C.InsufficientData
    ensures |frequencies| == 0 ==> r == Reading(NaN, Profound)
    ensures r.band == LadderOf(r.value)
  {
    var sal := SalValue(frequencies);
    Reading(sal, LadderOf(sal))
  }

  /** A run of `n` zeros. */
  function Zeros(n: nat): (z: seq<real>)
    ensures |z| == n
    ensures forall i :: 0 <= i < n ==> z[i] == 0.0
  {
    seq(n, _ => 0.0)
  }

  /** `calculateELIValue(frequencies:)`: the same enumerated loop as the
      stand-alone ELI without its length guard. From five values on it is
      the stand-alone ELI; a shorter array is weighed as if the missing
      high frequencies had been measured at 0 dB. */
  function EliValue(frequencies: seq<real>): (v: real)
    ensures |frequencies| >= 5 ==> v == C.CalculateELI(frequencies).value
    ensures |frequencies| < 5 ==>
              v == C.CalculateELI(frequencies + Zeros(5 - |frequencies|)).value
  {
    C.WeightedSumOfFive(frequencies);
    ShortProfileIsPadded(frequencies);
    C.WeightedSum(frequencies)
  }

  /** A short profile is weighed as its zero-padded five-value version. */
  lemma ShortProfileIsPadded(frequencies: seq<real>)
    ensures |frequencies| < 5 ==>
              C.WeightedSum(frequencies) == C.CalculateELI(frequencies + Zeros(5 - |frequencies|)).value
  {
    if |frequencies| < 5 {
      WeightedSumOfPadding(frequencies, Zeros(5 - |frequencies|));
      C.WeightedSumOfFive(frequencies + Zeros(5 - |frequencies|));
    }
  }

  /** Appending zeros does not change the weighted sum. */
  lemma WeightedSumOfPadding(xs: seq<real>, zs: seq<real>)
    requires forall i :: 0 <= i < |zs| ==> zs[i] == 0.0
    ensures C.WeightedSum(xs + zs) == C.WeightedSum(xs)
  {
    PrefixWeightedSum(xs, zs, |xs|);
    PaddingAddsNothing(xs, zs, |xs + zs|);
  }

  /** On the first `n <= |xs|` positions `xs + zs` and `xs` are weighed alike. */
  lemma {:induction false} PrefixWeightedSum(xs: seq<real>, zs: seq<real>, n: nat)
    requires n <= |xs|
    ensures C.PartialWeightedSum(xs + zs, n) == C.PartialWeightedSum(xs, n)
  {
    if n > 0 {
      PrefixWeightedSum(xs, zs, n - 1);
      assert (xs + zs)[n - 1] == xs[n - 1];
    }
  }

  /** Positions holding a padding zero add nothing. */
  lemma {:induction false} PaddingAddsNothing(xs: seq<real>, zs: seq<real>, n: nat)
    requires |xs| <= n <= |xs + zs|
    requires forall i :: 0 <= i < |zs| ==> zs[i] == 0.0
    ensures C.PartialWeightedSum(xs + zs, n) == C.PartialWeightedSum(xs + zs, |xs|)
  {
    if n > |xs| {
      PaddingAddsNothing(xs, zs, n - 1);
      assert (xs + zs)[n - 1] == zs[n - 1 - |xs|];
    }
  }

  /** The ELI line: `calculateELI` prints the value and `getELIDegree`
      classifies it with the ladder. The weighted sum starts at 0.0, so it
      is never NaN. */
  function EliReading(frequencies: seq<real>): (r: Reading)
    ensures |frequencies| >= 5 ==>
              Agrees(r, C.CalculateELI(frequencies))
    ensures |frequencies| < 5 ==>
              r.value == Finite(C.CalculateELI(frequencies + Zeros(5 - |frequencies|)).value)
              && C.CalculateELI(frequencies).classification == C.InsufficientData
    ensures r.value.Finite? && r.band == LadderOf(r.value)
  {
    var eli := EliValue(frequencies);
    Reading(Finite(eli), LadderOf(Finite(eli)))
  }

  /** A displayed figure agrees with a stand-alone result: it shows the
      same value, and its band is the stand-alone label exactly when that
      value is outside the gaps. */
  predicate Agrees(r: Reading, expected: C.IndexResult)
  {
    && r.value == Finite(expected.value)
    && (expected.classification == C.Graded(r.band) <==> !C.InGap(expected.value))
  }

  /** On five-frequency profiles (what the record getters always produce)
      the inline copies show the stand-alone values, and the same band
      unless the value falls inside a gap. */
  lemma InlineMatchesCalculator(frequencies: seq<real>)
    requires |frequencies| == 5
    ensures Agrees(HearingLoss(frequencies), C.CalculateHearingLoss(frequencies))
    ensures Agrees(SalReading(frequencies), C.CalculateSAL(frequencies))
    ensures Agrees(EliReading(frequencies), C.CalculateELI(frequencies))
  {
    LadderAgreesOutsideGaps(C.CalculateHearingLoss(frequencies).value);
    LadderAgreesOutsideGaps(C.CalculateSAL(frequencies).value);
    LadderAgreesOutsideGaps(C.CalculateELI(frequencies).value);
  }

  /** The same for the bilateral figure, for any two non-empty ears. */
  lemma InlineBilateralMatchesCalculator(right: seq<real>, left: seq<real>)
    requires |right| > 0 && |left| > 0
    ensures Agrees(BilateralHearingLoss(right, left), C.CalculateBilateralHearingLoss(right, left))
  {
    LadderAgreesOutsideGaps(C.CalculateBilateralHearingLoss(right, left).value);
  }

  /** The seven figures both views display for a pair of ear vectors:
      hearing loss per ear and bilateral, SAL per ear, ELI per ear. */
  datatype Assessment = Assessment(
    rightLoss: Reading, leftLoss: Reading, bilateral: Reading,
    rightSal: Reading, leftSal: Reading,
    rightEli: Reading, leftEli: Reading)

  function Assess(right: seq<real>, left: seq<real>): Assessment
  {
    Assessment(
      HearingLoss(right), HearingLoss(left), BilateralHearingLoss(right, left),
      SalReading(right), SalReading(left),
      EliReading(right), EliReading(left))
  }

  /** Each of the seven figures shows the stand-alone calculator's value,
      and its label exactly when that value lies outside the gaps. */
  predicate MatchesCalculator(a: Assessment, right: seq<real>, left: seq<real>)
  {
            && Agrees(a.rightLoss, C.CalculateHearingLoss(right))
            && Agrees(a.leftLoss, C.CalculateHearingLoss(left))
            && Agrees(a.bilateral, C.CalculateBilateralHearingLoss(right, left))
            && Agrees(a.rightSal, C.CalculateSAL(right))
            && Agrees(a.leftSal, C.CalculateSAL(left))
            && Agrees(a.rightEli, C.CalculateELI(right))
            && Agrees(a.leftEli, C.CalculateELI(left))
  }

  /** For two five-frequency ears every displayed value is the stand-alone
      calculator's value, never NaN, and every displayed band is the
      stand-alone band unless that value lies in a gap. */
  lemma AssessmentMatchesCalculator(right: seq<real>, left: seq<real>)
    requires |right| == 5 && |left| == 5
    ensures MatchesCalculator(Assess(right, left), right, left)
  {
    InlineMatchesCalculator(right);
    InlineMatchesCalculator(left);
    InlineBilateralMatchesCalculator(right, left);
  }
}
