/** Risk assessment, grade prediction and the combined analytics summary
    (`predict_student_risk`, `predict_student_grade` and
    `get_student_analytics` in ml/predictions.py).

    `load_models` is reduced to an `Option<Models>`. The fitted scalers and
    models are opaque: each of `transform`, `predict` and `predict_proba` is
    a function-valued field, and `None` from one of them stands for an
    exception raised by that library call. */
module Predictions {
  import opened Util
  import opened Features

  /** The risk scaler and classifier. `predict` gives the first predicted
      class and `predictProba` the first row of class probabilities. */
  datatype RiskModel = RiskModel(
    transform: seq<real> -> Option<seq<real>>,
    predict: seq<real> -> Option<int>,
    predictProba: seq<real> -> Option<seq<real>>)

  /** The grade scaler and regressor. */
  datatype GradeModel = GradeModel(
    transform: seq<real> -> Option<seq<real>>,
    predict: seq<real> -> Option<real>)

  /** The four artifacts `load_models` returns when all of them load. */
  datatype Models = Models(risk: RiskModel, grade: GradeModel)

  datatype RiskLevel = Low | Medium | High | Critical

  /** The lookup table `risk_levels`, indexed by predicted class. */
  const RiskLevels: seq<RiskLevel> := [Low, Medium, High, Critical]

  /** The 'features' entry of a result dict: missing, an empty dict, or the
      extracted record. */
  datatype FeaturesEntry = NoEntry | EmptyEntry | Entry(vector: FeatureVector)

  datatype RiskResult = RiskResult(
    level: RiskLevel,
    score: real,
    recommendations: seq<string>,
    features: FeaturesEntry)

  /** Result when the models are unavailable: no 'features' key at all. */
  const RiskUnavailable: RiskResult := RiskResult(Medium, 0.5, ["ML models not available"], NoEntry)
  /** Result when anything raises: 'features' is an empty dict. */
  const RiskError: RiskResult := RiskResult(Medium, 0.5, ["Error calculating risk assessment"], EmptyEntry)

  // ---------------------------------------------------------------------
  // Risk level and risk score
  // ---------------------------------------------------------------------

  /** `risk_levels[min(risk_pred, len(risk_levels) - 1)]`. Any class of 3 or
      more is Critical; a negative class indexes from the end of the list, as
      Python does, and one below -4 raises IndexError (`None`). */
  function LevelOf(pred: int): (r: Option<RiskLevel>)
    ensures pred >= 3 ==> r == Some(Critical)
    ensures 0 <= pred < 3 ==> r == Some(RiskLevels[pred])
    ensures -4 <= pred < 0 ==> r == Some(RiskLevels[4 + pred])
    ensures r.None? <==> pred < -4
  {
    PyIndex(RiskLevels, Min(pred, |RiskLevels| - 1))
  }

  /** `risk_proba[min(risk_pred, len(risk_proba) - 1)]`: the probability of
      the predicted class, clamped to the last one; an empty row raises. */
  function ScoreOf(proba: seq<real>, pred: int): (r: Option<real>)
    ensures proba == [] ==> r.None?
    ensures 0 <= pred < |proba| ==> r == Some(proba[pred])
    ensures 0 < |proba| <= pred ==> r == Some(proba[|proba| - 1])
    ensures -|proba| <= pred < 0 ==> r == Some(proba[|proba| + pred])
    ensures r.None? <==> proba == [] || pred < -|proba|
  {
    PyIndex(proba, Min(pred, |proba| - 1))
  }

  /** Scale, predict, look up the level and the score; `None` when any of
      these steps raises. */
  function ClassifyRisk(m: RiskModel, f: FeatureVector): Option<(RiskLevel, real)>
  {
    match m.transform(AsRow(f))
    case None => None
    case Some(x) =>
      match m.predict(x)
      case None => None
      case Some(pred) =>
        match m.predictProba(x)
        case None => None
        case Some(proba) =>
          match LevelOf(pred)
          case None => None
          case Some(level) =>
            match ScoreOf(proba, pred)
            case None => None
            case Some(score) => Some((level, score))
  }

  /** With a well-formed classifier output (a class that is a valid index of
      the probability row), the level is the class's entry of the table,
      clamped to Critical, and the score is that class's probability. */
  lemma ClassifyRiskWellFormed(m: RiskModel, f: FeatureVector, x: seq<real>, pred: int, proba: seq<real>)
    requires m.transform(AsRow(f)) == Some(x)
    requires m.predict(x) == Some(pred) && m.predictProba(x) == Some(proba)
    requires 0 <= pred < |proba|
    ensures ClassifyRisk(m, f) == Some((if pred >= 3 then Critical else RiskLevels[pred], proba[pred]))
  {
  }

  // ---------------------------------------------------------------------
  // Recommendations
  // ---------------------------------------------------------------------

  /** The four rule messages, in the order the rules are tested. */
  const RuleMessages: seq<string> := [
    "Focus on improving assignment quality",
    "Submit assignments more consistently",
    "Improve time management for deadlines",
    "Stay more engaged with recent assignments"]

  const KeepUp: string := "Keep up the good work!"

  /** Rule k of the recommendation table. */
  predicate RuleFires(f: FeatureVector, k: nat)
    requires k < 4
  {
    if k == 0 then f.avgScore < 60.0
    else if k == 1 then f.submissionRate < 70.0
    else if k == 2 then f.onTimeRate < 70.0
    else f.daysSinceLast > 7.0
  }

  /** The messages of the rules k, k+1, .. 3 that fire, in table order. */
  function FiredFrom(f: FeatureVector, k: nat): seq<string>
    requires k <= 4
    decreases 4 - k
  {
    if k == 4 then []
    else (if RuleFires(f, k) then [RuleMessages[k]] else []) + FiredFrom(f, k + 1)
  }

  /** The recommendation list: the fired rules' messages, or the single
      encouragement when no rule fires. */
  function Recommendations(f: FeatureVector): seq<string>
  {
    var fired := FiredFrom(f, 0);
    if fired == [] then [KeepUp] else fired
  }

  /** `a` is obtained from `b` by deleting elements. */
  predicate IsSubsequence(a: seq<string>, b: seq<string>)
    decreases |b|
  {
    a == [] ||
    (b != [] && ((a[0] == b[0] && IsSubsequence(a[1..], b[1..])) || IsSubsequence(a, b[1..])))
  }

  lemma {:induction false} FiredFromFacts(f: FeatureVector, k: nat)
    requires k <= 4
    decreases 4 - k
    ensures IsSubsequence(FiredFrom(f, k), RuleMessages[k..])
    ensures forall j :: 0 <= j < 4 ==> (RuleMessages[j] in FiredFrom(f, k) <==> k <= j && RuleFires(f, j))
    ensures KeepUp !in FiredFrom(f, k)
    ensures FiredFrom(f, k) == [] <==> forall j :: k <= j < 4 ==> !RuleFires(f, j)
  {
    if k < 4 {
      FiredFromFacts(f, k + 1);
      assert RuleMessages[k..][1..] == RuleMessages[k + 1..];
      var rest := FiredFrom(f, k + 1);
      if RuleFires(f, k) {
        assert FiredFrom(f, k) == [RuleMessages[k]] + rest;
        assert FiredFrom(f, k)[1..] == rest;
      } else {
        assert FiredFrom(f, k) == rest;
      }
    }
  }

  /** The recommendation list is never empty; it is exactly the
      encouragement when no rule fires; otherwise it holds exactly the
      messages of the rules that fire, in table order. */
  lemma RecommendationsSpec(f: FeatureVector)
    ensures Recommendations(f) != []
    ensures Recommendations(f) == [KeepUp] <==> forall k :: 0 <= k < 4 ==> !RuleFires(f, k)
    ensures forall k :: 0 <= k < 4 ==> (RuleMessages[k] in Recommendations(f) <==> RuleFires(f, k))
    ensures Recommendations(f) != [KeepUp] ==> IsSubsequence(Recommendations(f), RuleMessages)
  {
    FiredFromFacts(f, 0);
    assert RuleMessages[0..] == RuleMessages;
    forall k | 0 <= k < 4
      ensures RuleMessages[k] in Recommendations(f) <==> RuleFires(f, k)
    {
      if FiredFrom(f, 0) == [] {
        assert RuleMessages[k] != KeepUp;
      }
    }
  }

  /** `predict_student_risk`, given the loaded models and the student's
      records. */
  function RiskAssessment(models: Option<Models>, extracted: Result<FeatureVector, FeatureError>): RiskResult
  {
    match models
    case None => RiskUnavailable
    case Some(m) =>
      match extracted
      case Err(_) => RiskError
      case Ok(f) =>
        match ClassifyRisk(m.risk, f)
        case None => RiskError
        case Some((level, score)) => RiskResult(level, score, Recommendations(f), Entry(f))
  }

  method PredictStudentRisk(models: Option<Models>, grades: seq<GradeRecord>,
                            submissions: seq<SubmissionRecord>, assignmentCount: nat, now: int)
    returns (r: RiskResult)
    ensures r == RiskAssessment(models, Extract(grades, submissions, assignmentCount, now))
    ensures models.None? ==> r == RiskUnavailable
    ensures r.recommendations != []
  {
    if models.None? {
      return RiskUnavailable;
    }
    var m := models.value.risk;
    var extracted := CollectStudentFeatures(grades, submissions, assignmentCount, now);
    if extracted.Err? {
      return RiskError;
    }
    var features := extracted.value;
    var scaled := m.transform(AsRow(features));
    if scaled.None? { return RiskError; }
    var pred := m.predict(scaled.value);
    if pred.None? { return RiskError; }
    var proba := m.predictProba(scaled.value);
    if proba.None? { return RiskError; }
    var level := LevelOf(pred.value);
    if level.None? { return RiskError; }
    var score := ScoreOf(proba.value, pred.value);
    if score.None? { return RiskError; }

    var recommendations: seq<string> := [];
    if features.avgScore < 60.0 {
      recommendations := recommendations + [RuleMessages[0]];
    }
    if features.submissionRate < 70.0 {
      recommendations := recommendations + [RuleMessages[1]];
    }
    if features.onTimeRate < 70.0 {
      recommendations := recommendations + [RuleMessages[2]];
    }
    if features.daysSinceLast > 7.0 {
      recommendations := recommendations + [RuleMessages[3]];
    }
    if recommendations == [] {
      recommendations := recommendations + [KeepUp];
    }
    assert recommendations == Recommendations(features);
    r := RiskResult(level.value, score.value, recommendations, Entry(features));
  }

  // ---------------------------------------------------------------------
  // Grade prediction
  // ---------------------------------------------------------------------

  /** The eight-bucket letter scale of the predictor. */
  datatype Letter = APlus | A | BPlus | B | CPlus | C | D | F

  datatype GradeResult = GradeResult(
    letter: Letter,
    score: real,
    confidence: real,
    features: FeaturesEntry)

  const GradeUnavailable: GradeResult := GradeResult(B, 75.0, 0.5, NoEntry)
  const GradeError: GradeResult := GradeResult(B, 75.0, 0.5, EmptyEntry)

  function LetterOf(score: real): Letter
  {
    if score >= 90.0 then APlus
    else if score >= 80.0 then A
    else if score >= 70.0 then BPlus
    else if score >= 60.0 then B
    else if score >= 50.0 then CPlus
    else if score >= 40.0 then C
    else if score >= 30.0 then D
    else F
  }

  /** The band of scores each letter stands for, lower bound included. */
  predicate InBand(l: Letter, score: real)
  {
    match l
    case APlus => 90.0 <= score
    case A => 80.0 <= score < 90.0
    case BPlus => 70.0 <= score < 80.0
    case B => 60.0 <= score < 70.0
    case CPlus => 50.0 <= score < 60.0
    case C => 40.0 <= score < 50.0
    case D => 30.0 <= score < 40.0
    case F => score < 30.0
  }

  /** Position on the scale, F lowest. */
  function LetterRank(l: Letter): nat
  {
    match l
    case F => 0 case D => 1 case C => 2 case CPlus => 3
    case B => 4 case BPlus => 5 case A => 6 case APlus => 7
  }

  /** The bands partition the number line: every score lies in the band of
      the letter it is given, and in no other. */
  lemma LetterPartition(score: real)
    ensures forall l: Letter :: InBand(l, score) <==> l == LetterOf(score)
  {
  }

  /** A higher score never gets a lower letter. */
  lemma LetterMonotone(s: real, t: real)
    requires s <= t
    ensures LetterRank(LetterOf(s)) <= LetterRank(LetterOf(t))
  {
  }

  /** The boundary scores: each band includes its lower bound, so 90.0 is
      A+ and 89.9 is A; 40.0 is C, and 39.9 falls in the D band [30, 40). */
  lemma LetterBoundaries()
    ensures LetterOf(90.0) == APlus && LetterOf(89.9) == A
    ensures LetterOf(40.0) == C && LetterOf(39.9) == D && LetterOf(29.9) == F
  {
  }

  /** `0.7 + 0.3 * (submission_rate / 100)`. */
  function Confidence(submissionRate: real): real
  {
    0.7 + 0.3 * (submissionRate / 100.0)
  }

  /** For a submission rate in [0, 100] the confidence lies in [0.7, 1.0], and
      it grows with the rate. */
  lemma ConfidenceBounds(rate: real, rate': real)
    requires 0.0 <= rate <= rate' <= 100.0
    ensures 0.7 <= Confidence(rate) <= Confidence(rate') <= 1.0
  {
  }

  /** Nothing bounds the rate, so the confidence exceeds 1.0 when the
      submission rate exceeds 100. */
  lemma ConfidenceAboveOne(rate: real)
    requires rate > 100.0
    ensures Confidence(rate) > 1.0
    ensures Confidence(200.0) == 1.3
  {
  }

  /** Scale, predict and clip the score to [0, 100]; `None` when a call
      raises. */
  function PredictScore(m: GradeModel, f: FeatureVector): (r: Option<real>)
    ensures r.Some? ==> 0.0 <= r.value <= 100.0
  {
    match m.transform(AsRow(f))
    case None => None
    case Some(x) =>
      match m.predict(x)
      case None => None
      case Some(raw) => Some(Clip(raw, 0.0, 100.0))
  }

  /** `predict_student_grade`, given the loaded models and the student's
      records. */
  function GradePrediction(models: Option<Models>, extracted: Result<FeatureVector, FeatureError>): GradeResult
  {
    match models
    case None => GradeUnavailable
    case Some(m) =>
      match extracted
      case Err(_) => GradeError
      case Ok(f) =>
        match PredictScore(m.grade, f)
        case None => GradeError
        case Some(score) => GradeResult(LetterOf(score), score, Confidence(f.submissionRate), Entry(f))
  }

  /** Every grade result carries a score in [0, 100]; unless it is one of the
      two fallbacks, its letter is the scale's letter for that score. */
  lemma GradePredictionSpec(models: Option<Models>, extracted: Result<FeatureVector, FeatureError>)
    ensures var g := GradePrediction(models, extracted);
      && 0.0 <= g.score <= 100.0
      && (g.features.Entry? ==> InBand(g.letter, g.score) && g.confidence == Confidence(g.features.vector.submissionRate))
      && (!g.features.Entry? ==> g.letter == B && g.score == 75.0 && g.confidence == 0.5)
      && (g.features.Entry? <==> models.Some? && extracted.Ok? && PredictScore(models.value.grade, extracted.value).Some?)
  {
    var g := GradePrediction(models, extracted);
    LetterPartition(g.score);
  }

  /** The fallbacks' letter B is not the letter the scale gives their
      score 75.0. */
  lemma FallbackLetterOffScale()
    ensures LetterOf(GradeUnavailable.score) == BPlus != GradeUnavailable.letter
    ensures GradeError.letter == GradeUnavailable.letter && GradeError.score == GradeUnavailable.score
  {
  }

  method PredictStudentGrade(models: Option<Models>, grades: seq<GradeRecord>,
                             submissions: seq<SubmissionRecord>, assignmentCount: nat, now: int)
    returns (r: GradeResult)
    ensures r == GradePrediction(models, Extract(grades, submissions, assignmentCount, now))
    ensures 0.0 <= r.score <= 100.0
  {
    if models.None? {
      return GradeUnavailable;
    }
    var m := models.value.grade;
    var extracted := CollectStudentFeatures(grades, submissions, assignmentCount, now);
    if extracted.Err? {
      return GradeError;
    }
    var features := extracted.value;
    var scaled := m.transform(AsRow(features));
    if scaled.None? { return GradeError; }
    var predicted := m.predict(scaled.value);
    if predicted.None? { return GradeError; }
    var predictedScore := Clip(predicted.value, 0.0, 100.0);
    var predictedGrade := LetterOf(predictedScore);
    var confidence := Confidence(features.submissionRate);
    r := GradeResult(predictedGrade, predictedScore, confidence, Entry(features));
  }

  // ---------------------------------------------------------------------
  // Analytics
  // ---------------------------------------------------------------------

  datatype Trend = Excellent | Good | Average | NeedsImprovement

  /** The first-match trend rule on average score and submission rate. */
  function TrendOf(avgScore: real, submissionRate: real): Trend
  {
    if avgScore >= 75.0 && submissionRate >= 80.0 then Excellent
    else if avgScore >= 60.0 && submissionRate >= 70.0 then Good
    else if avgScore >= 50.0 then Average
    else NeedsImprovement
  }

  function TrendRank(t: Trend): nat
  {
    match t
    case NeedsImprovement => 0 case Average => 1 case Good => 2 case Excellent => 3
  }

  /** Raising the average score or the submission rate never lowers the
      trend. */
  lemma TrendMonotone(avg: real, rate: real, avg': real, rate': real)
    requires avg <= avg' && rate <= rate'
    ensures TrendRank(TrendOf(avg, rate)) <= TrendRank(TrendOf(avg', rate'))
  {
  }

  /** The trend classifies by average score alone below the Good thresholds:
      a student with an average of at least 50 is at least Average whatever
      the submission rate, and one below 50 always Needs Improvement. */
  lemma TrendByAverage(avg: real, rate: real)
    ensures avg >= 50.0 <==> TrendRank(TrendOf(avg, rate)) >= 1
    ensures TrendOf(avg, rate) == Excellent ==> avg >= 75.0 && rate >= 80.0
    ensures TrendOf(avg, rate) == Good ==> avg >= 60.0 && rate >= 70.0 && !(avg >= 75.0 && rate >= 80.0)
  {
  }

  lemma TrendExamples()
    ensures TrendOf(80.0, 85.0) == Excellent && TrendOf(65.0, 75.0) == Good
    ensures TrendOf(55.0, 10.0) == Average && TrendOf(30.0, 10.0) == NeedsImprovement
  {
  }

  function LevelName(l: RiskLevel): string
  {
    match l
    case Low => "Low" case Medium => "Medium" case High => "High" case Critical => "Critical"
  }

  function LetterName(l: Letter): string
  {
    match l
    case APlus => "A+" case A => "A" case BPlus => "B+" case B => "B"
    case CPlus => "C+" case C => "C" case D => "D" case F => "F"
  }

  function TrendName(t: Trend): string
  {
    match t
    case Excellent => "Excellent" case Good => "Good"
    case Average => "Average" case NeedsImprovement => "Needs Improvement"
  }

  /** The one-line summary of the analytics. */
  function Summary(level: RiskLevel, letter: Letter, trend: Trend): string
  {
    "Risk: " + LevelName(level) + ", Predicted: " + LetterName(letter) + ", Trend: " + TrendName(trend)
  }

  function LevelFromInitial(c: char): Option<RiskLevel>
  {
    if c == 'L' then Some(Low) else if c == 'M' then Some(Medium)
    else if c == 'H' then Some(High) else if c == 'C' then Some(Critical) else None
  }

  function LetterFromChars(c: char, next: char): Option<Letter>
  {
    if c == 'A' then Some(if next == '+' then APlus else A)
    else if c == 'B' then Some(if next == '+' then BPlus else B)
    else if c == 'C' then Some(if next == '+' then CPlus else C)
    else if c == 'D' then Some(D)
    else if c == 'F' then Some(F)
    else None
  }

  function TrendFromInitial(c: char): Option<Trend>
  {
    if c == 'E' then Some(Excellent) else if c == 'G' then Some(Good)
    else if c == 'A' then Some(Average) else if c == 'N' then Some(NeedsImprovement) else None
  }

  /** Reads the level, letter and trend back from a summary line. */
  function ParseSummary(s: string): Option<(RiskLevel, Letter, Trend)>
  {
    if |s| < 7 then None
    else
      match LevelFromInitial(s[6])
      case None => None
      case Some(level) =>
        var p := 6 + |LevelName(level)| + 13;
        if |s| < p + 2 then None
        else
          match LetterFromChars(s[p], s[p + 1])
          case None => None
          case Some(letter) =>
            var q := p + |LetterName(letter)| + 9;
            if |s| <= q then None
            else
              match TrendFromInitial(s[q])
              case None => None
              case Some(trend) => Some((level, letter, trend))
  }

  /** Where the three names sit in a summary line. */
  lemma SummaryPositions(s: string, ln: string, gn: string, tn: string)
    requires s == "Risk: " + ln + ", Predicted: " + gn + ", Trend: " + tn
    requires |ln| >= 1 && 1 <= |gn| <= 2 && |tn| >= 1
    ensures var p := 6 + |ln| + 13; var q := p + |gn| + 9;
      && q < |s|
      && s[6] == ln[0] && s[p] == gn[0]
      && s[p + 1] == (if |gn| == 2 then gn[1] else ',')
      && s[q] == tn[0]
  {
  }

  /** The summary names level, letter and trend unambiguously: they can be
      read back from it. */
  lemma SummaryRoundTrip(level: RiskLevel, letter: Letter, trend: Trend)
    ensures ParseSummary(Summary(level, letter, trend)) == Some((level, letter, trend))
  {
    var ln, gn, tn := LevelName(level), LetterName(letter), TrendName(trend);
    NamesDecode(level, letter, trend);
    var s := Summary(level, letter, trend);
    SummaryPositions(s, ln, gn, tn);
    var p := 6 + |ln| + 13;
    var q := p + |gn| + 9;
    assert LevelFromInitial(s[6]) == Some(level);
    assert LetterFromChars(s[p], s[p + 1]) == Some(letter);
    assert TrendFromInitial(s[q]) == Some(trend);
  }

  lemma NamesDecode(level: RiskLevel, letter: Letter, trend: Trend)
    ensures |LevelName(level)| >= 1 && LevelFromInitial(LevelName(level)[0]) == Some(level)
    ensures 1 <= |LetterName(letter)| <= 2
    ensures var gn := LetterName(letter); LetterFromChars(gn[0], if |gn| == 2 then gn[1] else ',') == Some(letter)
    ensures |TrendName(trend)| >= 1 && TrendFromInitial(TrendName(trend)[0]) == Some(trend)
  {
  }

  datatype Analytics = Analytics(
    risk: RiskResult,
    grade: GradeResult,
    trend: Trend,
    summary: string)

  /** The two KeyErrors of the trend lookup: `risk_analysis['features']` on
      the models-unavailable result, which has no 'features' key, and
      `features['avg_score']` on the error result, whose 'features' is an
      empty dict. */
  datatype AnalyticsError = MissingFeatures | MissingAvgScore

  /** `get_student_analytics`. Each prediction loads the models and reads
      the clock on its own, so each gets its own `Option<Models>` and its
      own "now". The analytics succeed exactly when the risk assessment
      produced a feature record; they then take the trend from that record.
      Each risk fallback raises its own KeyError. */
  method GetStudentAnalytics(riskModels: Option<Models>, gradeModels: Option<Models>,
                             grades: seq<GradeRecord>, submissions: seq<SubmissionRecord>,
                             assignmentCount: nat, riskNow: int, gradeNow: int)
    returns (r: Result<Analytics, AnalyticsError>)
    ensures var risk := RiskAssessment(riskModels, Extract(grades, submissions, assignmentCount, riskNow));
      && (r.Ok? <==> risk.features.Entry?)
      && (risk.features.NoEntry? ==> r == Err(MissingFeatures))
      && (risk.features.EmptyEntry? ==> r == Err(MissingAvgScore))
      && (r.Ok? ==>
            && r.value.risk == risk
            && r.value.grade == GradePrediction(gradeModels, Extract(grades, submissions, assignmentCount, gradeNow))
            && r.value.trend == TrendOf(risk.features.vector.avgScore, risk.features.vector.submissionRate)
            && r.value.summary == Summary(risk.level, r.value.grade.letter, r.value.trend))
    ensures riskModels.None? ==> r == Err(MissingFeatures)
  {
    var riskAnalysis := PredictStudentRisk(riskModels, grades, submissions, assignmentCount, riskNow);
    var gradeAnalysis := PredictStudentGrade(gradeModels, grades, submissions, assignmentCount, gradeNow);
    match riskAnalysis.features
    case NoEntry =>
      return Err(MissingFeatures);
    case EmptyEntry =>
      return Err(MissingAvgScore);
    case Entry(features) =>
      var trend := TrendOf(features.avgScore, features.submissionRate);
      r := Ok(Analytics(riskAnalysis, gradeAnalysis, trend,
                        Summary(riskAnalysis.level, gradeAnalysis.letter, trend)));
  }

  /** Analytics succeed exactly when the models are loaded, the features can
      be extracted and the classifier runs; the grade part then has the
      feature record as well. */
  lemma AnalyticsAvailableIff(models: Option<Models>, extracted: Result<FeatureVector, FeatureError>)
    ensures RiskAssessment(models, extracted).features.Entry?
            <==> models.Some? && extracted.Ok? && ClassifyRisk(models.value.risk, extracted.value).Some?
    ensures RiskAssessment(models, extracted).features.Entry? ==> RiskAssessment(models, extracted).features.vector == extracted.value
  {
  }

  /** The worked example: ten grades of 55 %, six of ten assignments
      submitted, all on time, the latest ten days ago. */
  lemma WorkedExample(grades: seq<GradeRecord>, submissions: seq<SubmissionRecord>, now: int)
    requires |grades| == 10 && forall i :: 0 <= i < 10 ==> grades[i] == GradeRecord(55.0, 100.0)
    requires |submissions| == 6
    requires forall i :: 0 <= i < 6 ==>
               submissions[i] == SubmissionRecord(now - 10 * MicrosPerDay, Some(now))
    ensures Extract(grades, submissions, 10, now) == Ok(FeatureVector(55.0, 60.0, 100.0, 100.0, 10, 10.0))
    ensures TrendOf(55.0, 60.0) == Average
    ensures Recommendations(FeatureVector(55.0, 60.0, 100.0, 100.0, 10, 10.0))
            == [RuleMessages[0], RuleMessages[1], RuleMessages[3]]
  {
    UniformGradesAverage(grades, 55.0);
    OnTimeCountBounds(submissions);
    DaysSinceLatest(submissions, now, now - 10 * MicrosPerDay);
    assert OnTimeCount(submissions) == 6;
  }
}
