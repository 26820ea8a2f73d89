/** Synthetic training data (`generate_synthetic_data` in
    ml/scripts/train_models.py).

    The seeded random draws are inputs: `draw(i)` holds the values NumPy
    draws for sample i. What remains is the deterministic labelling:
    clipping, an additive risk score, four ordinal risk levels and a
    weighted final grade. */
module SyntheticData {
  import opened Util
  import opened Features

  /** The random values drawn for one sample: the two latent traits
      (normal), the five noise terms (normal), the assignment count
      (`randint(5, 20)`) and the days since last submission
      (`exponential(5)`). */
  datatype Draws = Draws(
    ability: real,
    motivation: real,
    avgNoise: real,
    submissionNoise: real,
    onTimeNoise: real,
    participationNoise: real,
    gradeNoise: real,
    assignmentCount: int,
    daysSinceLast: real)

  /** One training row: the six features and the two labels. */
  datatype TrainingSample = TrainingSample(features: FeatureVector, riskLevel: int, finalGrade: real)

  /** Points the average score adds to the risk score. */
  function AvgPoints(avgScore: real): int
  {
    if avgScore < 40.0 then 3 else if avgScore < 60.0 then 2 else if avgScore < 70.0 then 1 else 0
  }

  /** Points a submission or on-time rate adds to the risk score. */
  function RatePoints(rate: real): int
  {
    if rate < 50.0 then 2 else if rate < 70.0 then 1 else 0
  }

  function RiskScore(avgScore: real, submissionRate: real, onTimeRate: real): int
  {
    AvgPoints(avgScore) + RatePoints(submissionRate) + RatePoints(onTimeRate)
  }

  /** 0 -> Low, 1-2 -> Medium, 3-4 -> High, 5 and above -> Critical. */
  function RiskLevelOf(riskScore: int): int
  {
    if riskScore == 0 then 0 else if riskScore <= 2 then 1 else if riskScore <= 4 then 2 else 3
  }

  /** The weighted final grade before noise. */
  function WeightedGrade(avgScore: real, submissionRate: real, onTimeRate: real, participation: real): real
  {
    avgScore * 0.4 + submissionRate * 0.2 + onTimeRate * 0.2 + participation * 0.2
  }

  /** The sample the generator builds from one set of draws. */
  function Sample(d: Draws): TrainingSample
  {
    var ability := Clip(d.ability, 0.1, 1.0);
    var motivation := Clip(d.motivation, 0.2, 1.0);
    var avgScore := Clip(ability * 90.0 + d.avgNoise, 0.0, 100.0);
    var submissionRate := Clip(motivation * 95.0 + d.submissionNoise, 0.0, 100.0);
    var onTimeRate := Clip((ability + motivation) / 2.0 * 90.0 + d.onTimeNoise, 0.0, 100.0);
    var participation := Clip(motivation * 80.0 + d.participationNoise, 0.0, 100.0);
    TrainingSample(
      FeatureVector(avgScore, submissionRate, onTimeRate, participation, d.assignmentCount, d.daysSinceLast),
      RiskLevelOf(RiskScore(avgScore, submissionRate, onTimeRate)),
      Clip(WeightedGrade(avgScore, submissionRate, onTimeRate, participation) + d.gradeNoise, 0.0, 100.0))
  }

  /** The risk score always lies in [0, 7]. */
  lemma RiskScoreBounds(avg: real, sub: real, onTime: real)
    ensures 0 <= RiskScore(avg, sub, onTime) <= 7
    ensures RiskScore(avg, sub, onTime) == 7 <==> avg < 40.0 && sub < 50.0 && onTime < 50.0
  {
  }

  /** The level is one of 0..3; it is 0 exactly when all three rated
      features are at least 70, and 3 when all three are in their lowest
      bucket. */
  lemma RiskLevelSpec(avg: real, sub: real, onTime: real)
    ensures 0 <= RiskLevelOf(RiskScore(avg, sub, onTime)) <= 3
    ensures RiskLevelOf(RiskScore(avg, sub, onTime)) == 0 <==> avg >= 70.0 && sub >= 70.0 && onTime >= 70.0
    ensures avg < 40.0 && sub < 50.0 && onTime < 50.0 ==> RiskLevelOf(RiskScore(avg, sub, onTime)) == 3
  {
  }

  /** The score-to-level map is monotone. */
  lemma RiskLevelMonotone(s: int, t: int)
    requires 0 <= s <= t
    ensures RiskLevelOf(s) <= RiskLevelOf(t)
  {
  }

  /** Raising any of the three rated features never increases the risk
      score or the risk level. */
  lemma RiskMonotone(avg: real, sub: real, onTime: real, avg': real, sub': real, onTime': real)
    requires avg <= avg' && sub <= sub' && onTime <= onTime'
    ensures RiskScore(avg', sub', onTime') <= RiskScore(avg, sub, onTime)
    ensures RiskLevelOf(RiskScore(avg', sub', onTime')) <= RiskLevelOf(RiskScore(avg, sub, onTime))
  {
    RiskScoreBounds(avg', sub', onTime');
    RiskLevelMonotone(RiskScore(avg', sub', onTime'), RiskScore(avg, sub, onTime));
  }

  /** The weights sum to 1, so the weighted grade of percentages is a
      percentage, and it lies between the smallest and largest input. */
  lemma WeightedGradeBounds(avg: real, sub: real, onTime: real, part: real, lo: real, hi: real)
    requires lo <= avg <= hi && lo <= sub <= hi && lo <= onTime <= hi && lo <= part <= hi
    ensures lo <= WeightedGrade(avg, sub, onTime, part) <= hi
    ensures WeightedGrade(lo, lo, lo, lo) == lo
  {
  }

  /** Every generated sample: the four rated features are percentages, the
      level is in 0..3 and agrees with the features, the final grade is a
      percentage, and the two copied draws are passed through unchanged (the
      days since last submission are not capped at 30). */
  lemma SampleSpec(d: Draws)
    ensures var s := Sample(d); var f := s.features;
      && 0.0 <= f.avgScore <= 100.0 && 0.0 <= f.submissionRate <= 100.0
      && 0.0 <= f.onTimeRate <= 100.0 && 0.0 <= f.participation <= 100.0
      && 0 <= s.riskLevel <= 3
      && (s.riskLevel == 0 <==> f.avgScore >= 70.0 && f.submissionRate >= 70.0 && f.onTimeRate >= 70.0)
      && 0.0 <= s.finalGrade <= 100.0
      && f.assignmentCount == d.assignmentCount && f.daysSinceLast == d.daysSinceLast
  {
    var f := Sample(d).features;
    RiskLevelSpec(f.avgScore, f.submissionRate, f.onTimeRate);
  }

  /** The latent traits are clipped to [0.1, 1.0] and [0.2, 1.0]; without
      noise, the average score is the clipped ability times 90 and the
      submission rate the clipped motivation times 95, so the outer clip to
      [0, 100] leaves them alone. */
  lemma TraitClipping(d: Draws)
    ensures 0.1 <= Clip(d.ability, 0.1, 1.0) <= 1.0
    ensures 0.2 <= Clip(d.motivation, 0.2, 1.0) <= 1.0
    ensures d.avgNoise == 0.0 ==> Sample(d).features.avgScore == Clip(d.ability, 0.1, 1.0) * 90.0
    ensures d.submissionNoise == 0.0 ==> Sample(d).features.submissionRate == Clip(d.motivation, 0.2, 1.0) * 95.0
  {
  }

  /** `generate_synthetic_data(n_samples)`: one sample per index, appended in
      order; `range(n)` is empty for n <= 0. */
  method GenerateSyntheticData(nSamples: int, draw: nat -> Draws) returns (data: seq<TrainingSample>)
    ensures |data| == if nSamples > 0 then nSamples else 0
    ensures forall i :: 0 <= i < |data| ==> data[i] == Sample(draw(i))
  {
    data := [];
    var n := if nSamples > 0 then nSamples else 0;
    var i := 0;
    while i < nSamples
      invariant 0 <= i <= n
      invariant |data| == i
      invariant forall j :: 0 <= j < i ==> data[j] == Sample(draw(j))
    {
      var d := draw(i);
      var ability := Clip(d.ability, 0.1, 1.0);
      var motivation := Clip(d.motivation, 0.2, 1.0);

      var avgScore := ability * 90.0 + d.avgNoise;
      var submissionRate := motivation * 95.0 + d.submissionNoise;
      var onTimeRate := (ability + motivation) / 2.0 * 90.0 + d.onTimeNoise;
      var participation := motivation * 80.0 + d.participationNoise;

      avgScore := Clip(avgScore, 0.0, 100.0);
      submissionRate := Clip(submissionRate, 0.0, 100.0);
      onTimeRate := Clip(onTimeRate, 0.0, 100.0);
      participation := Clip(participation, 0.0, 100.0);

      var riskScore := 0;
      if avgScore < 40.0 { riskScore := riskScore + 3; }
      else if avgScore < 60.0 { riskScore := riskScore + 2; }
      else if avgScore < 70.0 { riskScore := riskScore + 1; }

      if submissionRate < 50.0 { riskScore := riskScore + 2; }
      else if submissionRate < 70.0 { riskScore := riskScore + 1; }

      if onTimeRate < 50.0 { riskScore := riskScore + 2; }
      else if onTimeRate < 70.0 { riskScore := riskScore + 1; }

      var riskLevel;
      if riskScore == 0 { riskLevel := 0; }
      else if riskScore <= 2 { riskLevel := 1; }
      else if riskScore <= 4 { riskLevel := 2; }
      else { riskLevel := 3; }

      var finalGrade := avgScore * 0.4 + submissionRate * 0.2 + onTimeRate * 0.2 + participation * 0.2;
      finalGrade := Clip(finalGrade + d.gradeNoise, 0.0, 100.0);

      data := data + [TrainingSample(
        FeatureVector(avgScore, submissionRate, onTimeRate, participation, d.assignmentCount, d.daysSinceLast),
        riskLevel, finalGrade)];
      i := i + 1;
    }
  }
}
