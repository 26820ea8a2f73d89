/** Feature derivation for one student in one classroom
    (`collect_student_features` in ml/predictions.py).

    The three ORM query results are passed in as sequences and "now" as a
    parameter. Timestamps are integer microseconds since a fixed epoch, so
    `timedelta.days` is the floor of a difference divided by one day. */
module Features {
  import opened Util

  /** A Grade row: marks obtained out of total marks. */
  datatype GradeRecord = GradeRecord(marksObtained: real, totalMarks: real)

  /** A Submission row: when it was made, and the deadline of its assignment
      (the code tests the deadline for truthiness, so it may be missing). */
  datatype SubmissionRecord = SubmissionRecord(submittedAt: int, deadline: Option<int>)

  /** The six-field feature record shared by live extraction and the
      synthetic training data. */
  datatype FeatureVector = FeatureVector(
    avgScore: real,
    submissionRate: real,
    onTimeRate: real,
    participation: real,
    assignmentCount: int,
    daysSinceLast: real)

  /** The six features in the column order both models were trained on. */
  function AsRow(f: FeatureVector): seq<real>
  {
    [f.avgScore, f.submissionRate, f.onTimeRate, f.participation,
     f.assignmentCount as real, f.daysSinceLast]
  }

  /** The training script's feature list, in its order. */
  const TrainingColumns: seq<string> := ["avg_score", "submission_rate", "on_time_rate",
                                         "participation", "assignment_count", "days_since_last"]

  /** The value of the named column of a feature record (0 for an unknown
      name). */
  function Column(f: FeatureVector, name: string): real
  {
    if name == "avg_score" then f.avgScore
    else if name == "submission_rate" then f.submissionRate
    else if name == "on_time_rate" then f.onTimeRate
    else if name == "participation" then f.participation
    else if name == "assignment_count" then f.assignmentCount as real
    else if name == "days_since_last" then f.daysSinceLast
    else 0.0
  }

  /** The prediction row agrees, position by position, with the columns the
      models were trained on. */
  lemma RowMatchesTrainingColumns(f: FeatureVector)
    ensures |AsRow(f)| == |TrainingColumns|
    ensures forall i :: 0 <= i < |TrainingColumns| ==> AsRow(f)[i] == Column(f, TrainingColumns[i])
  {
  }

  /** `float(g.marks_obtained) / float(g.total_marks)` raises
      ZeroDivisionError when a total is zero. */
  datatype FeatureError = ZeroTotalMarks

  const MicrosPerDay: int := 86_400_000_000
  /** Default and cap for the days since the last submission. */
  const DaysCap: int := 30

  predicate HasZeroTotal(grades: seq<GradeRecord>)
  {
    exists i :: 0 <= i < |grades| && grades[i].totalMarks == 0.0
  }

  function Percentage(g: GradeRecord): real
    requires g.totalMarks != 0.0
  {
    g.marksObtained / g.totalMarks * 100.0
  }

  /** Sum of the grade percentages, accumulated from the first record on. */
  function SumOfPercentages(grades: seq<GradeRecord>): real
    requires !HasZeroTotal(grades)
  {
    if grades == [] then 0.0
    else
      assert forall i :: 0 <= i < |grades| - 1 ==> grades[..|grades| - 1][i] == grades[i];
      SumOfPercentages(grades[..|grades| - 1]) + Percentage(grades[|grades| - 1])
  }

  /** Mean percentage over the graded records, 0 when there are none. */
  function AverageScore(grades: seq<GradeRecord>): real
    requires !HasZeroTotal(grades)
  {
    if |grades| > 0 then SumOfPercentages(grades) / |grades| as real else 0.0
  }

  /** A submission is on time iff its assignment has a deadline that is not
      before the submission. */
  predicate OnTime(s: SubmissionRecord)
  {
    s.deadline.Some? && s.deadline.value >= s.submittedAt
  }

  function OnTimeCount(subs: seq<SubmissionRecord>): nat
  {
    if subs == [] then 0
    else OnTimeCount(subs[..|subs| - 1]) + (if OnTime(subs[|subs| - 1]) then 1 else 0)
  }

  /** The timestamp of the most recent submission
      (`order_by('-submitted_at').first()`). */
  function LatestSubmittedAt(subs: seq<SubmissionRecord>): (t: int)
    requires |subs| > 0
    ensures exists i :: 0 <= i < |subs| && subs[i].submittedAt == t
    ensures forall i :: 0 <= i < |subs| ==> subs[i].submittedAt <= t
  {
    if |subs| == 1 then subs[0].submittedAt
    else
      var rest := LatestSubmittedAt(subs[1..]);
      assert forall i :: 1 <= i < |subs| ==> subs[1..][i - 1] == subs[i];
      if subs[0].submittedAt >= rest then subs[0].submittedAt else rest
  }

  /** `part / whole * 100`, or 0 when `whole` is 0. */
  function Rate(part: nat, whole: nat): real
  {
    if whole > 0 then part as real / whole as real * 100.0 else 0.0
  }

  function Participation(submissionRate: real, onTimeRate: real): real
  {
    MinReal(100.0, submissionRate + onTimeRate * 0.5)
  }

  /** Whole days since the latest submission (floor, as `timedelta.days`),
      30 without submissions, and never above 30. A latest submission in
      the future gives a negative count: only the upper bound is enforced. */
  function DaysSinceLast(subs: seq<SubmissionRecord>, now: int): int
  {
    var days := if |subs| > 0 then (now - LatestSubmittedAt(subs)) / MicrosPerDay else DaysCap;
    Min(days, DaysCap)
  }

  /** The feature record for the given records, or the error the code raises. */
  function Extract(grades: seq<GradeRecord>, submissions: seq<SubmissionRecord>,
                   assignmentCount: nat, now: int): Result<FeatureVector, FeatureError>
  {
    if HasZeroTotal(grades) then Err(ZeroTotalMarks)
    else
      var submissionRate := Rate(|submissions|, assignmentCount);
      var onTimeRate := Rate(OnTimeCount(submissions), |submissions|);
      Ok(FeatureVector(
        AverageScore(grades),
        submissionRate,
        onTimeRate,
        Participation(submissionRate, onTimeRate),
        assignmentCount,
        DaysSinceLast(submissions, now) as real))
  }

  /** `collect_student_features`: one pass that sums the grade percentages
      and one that counts on-time submissions. */
  method CollectStudentFeatures(grades: seq<GradeRecord>, submissions: seq<SubmissionRecord>,
                                assignmentCount: nat, now: int)
    returns (r: Result<FeatureVector, FeatureError>)
    ensures r == Extract(grades, submissions, assignmentCount, now)
  {
    var totalAssignments := assignmentCount;
    var submittedCount := |submissions|;
    var gradedCount := |grades|;

    var avgScore := 0.0;
    if gradedCount > 0 {
      var sum := 0.0;
      var i := 0;
      while i < gradedCount
        invariant 0 <= i <= gradedCount
        invariant !HasZeroTotal(grades[..i])
        invariant sum == SumOfPercentages(grades[..i])
      {
        if grades[i].totalMarks == 0.0 {
          return Err(ZeroTotalMarks);
        }
        assert grades[..i + 1][..i] == grades[..i];
        sum := sum + grades[i].marksObtained / grades[i].totalMarks * 100.0;
        i := i + 1;
      }
      assert grades[..i] == grades;
      avgScore := sum / gradedCount as real;
    } else {
      assert grades == [];
    }

    var submissionRate := if totalAssignments > 0 then submittedCount as real / totalAssignments as real * 100.0 else 0.0;

    var onTimeCount := 0;
    for j := 0 to submittedCount
      invariant onTimeCount == OnTimeCount(submissions[..j])
    {
      assert submissions[..j + 1][..j] == submissions[..j];
      var s := submissions[j];
      if s.deadline.Some? && s.deadline.value >= s.submittedAt {
        onTimeCount := onTimeCount + 1;
      }
    }
    assert submissions[..submittedCount] == submissions;

    var onTimeRate := if submittedCount > 0 then onTimeCount as real / submittedCount as real * 100.0 else 0.0;
    var participation := MinReal(100.0, submissionRate + onTimeRate * 0.5);

    var daysSinceLast := DaysCap;
    if submittedCount > 0 {
      daysSinceLast := (now - LatestSubmittedAt(submissions)) / MicrosPerDay;
    }

    r := Ok(FeatureVector(avgScore, submissionRate, onTimeRate, participation,
                          totalAssignments, Min(daysSinceLast, DaysCap) as real));
  }

  /** Extraction fails exactly when some grade has zero total marks. */
  lemma ExtractFailsIff(grades: seq<GradeRecord>, submissions: seq<SubmissionRecord>,
                        assignmentCount: nat, now: int)
    ensures Extract(grades, submissions, assignmentCount, now).Err?
            <==> exists i :: 0 <= i < |grades| && grades[i].totalMarks == 0.0
  {
  }

  lemma {:induction false} PercentageSumBounds(grades: seq<GradeRecord>)
    requires forall i :: 0 <= i < |grades| ==>
               0.0 < grades[i].totalMarks && 0.0 <= grades[i].marksObtained <= grades[i].totalMarks
    ensures !HasZeroTotal(grades)
    ensures 0.0 <= SumOfPercentages(grades) <= 100.0 * |grades| as real
  {
    if grades != [] {
      var init := grades[..|grades| - 1];
      var g := grades[|grades| - 1];
      assert forall i :: 0 <= i < |init| ==> init[i] == grades[i];
      PercentageSumBounds(init);
      QuotientBounds(g.marksObtained, g.totalMarks);
    }
  }

  lemma QuotientBounds(m: real, t: real)
    requires 0.0 < t && 0.0 <= m <= t
    ensures 0.0 <= m / t <= 1.0
  {
    var q := m / t;
    assert q * t == m;
  }

  /** When every mark lies between 0 and its (positive) total, the average
      score is a percentage between 0 and 100. */
  lemma AverageScoreBounds(grades: seq<GradeRecord>)
    requires forall i :: 0 <= i < |grades| ==>
               0.0 < grades[i].totalMarks && 0.0 <= grades[i].marksObtained <= grades[i].totalMarks
    ensures !HasZeroTotal(grades)
    ensures 0.0 <= AverageScore(grades) <= 100.0
  {
    PercentageSumBounds(grades);
    if |grades| > 0 {
      var n := |grades| as real;
      var avg := SumOfPercentages(grades) / n;
      assert avg * n == SumOfPercentages(grades);
    }
  }

  /** The average of records that all score the same percentage is that
      percentage. */
  lemma {:induction false} UniformGradesAverage(grades: seq<GradeRecord>, p: real)
    requires forall i :: 0 <= i < |grades| ==> grades[i].totalMarks != 0.0 && Percentage(grades[i]) == p
    ensures !HasZeroTotal(grades)
    ensures SumOfPercentages(grades) == |grades| as real * p
    ensures |grades| > 0 ==> AverageScore(grades) == p
  {
    if grades != [] {
      var init := grades[..|grades| - 1];
      assert forall i :: 0 <= i < |init| ==> init[i] == grades[i];
      UniformGradesAverage(init, p);
    }
  }

  /** The on-time count lies between 0 and the number of submissions; it is
      the number of submissions exactly when all are on time and 0 exactly
      when none is. */
  lemma {:induction false} OnTimeCountBounds(subs: seq<SubmissionRecord>)
    ensures OnTimeCount(subs) <= |subs|
    ensures OnTimeCount(subs) == |subs| <==> forall i :: 0 <= i < |subs| ==> OnTime(subs[i])
    ensures OnTimeCount(subs) == 0 <==> forall i :: 0 <= i < |subs| ==> !OnTime(subs[i])
  {
    if subs != [] {
      var init := subs[..|subs| - 1];
      assert forall i :: 0 <= i < |init| ==> init[i] == subs[i];
      OnTimeCountBounds(init);
    }
  }

  /** A rate of a part that does not exceed its whole lies in [0, 100]. */
  lemma RateBounds(part: nat, whole: nat)
    requires part <= whole
    ensures 0.0 <= Rate(part, whole) <= 100.0
  {
    if whole > 0 {
      var q := part as real / whole as real;
      assert q * whole as real == part as real;
    }
  }

  /** What every extracted feature record satisfies: the on-time rate is a
      percentage, participation never exceeds 100, days since last never
      exceed 30, and the stated defaults apply without assignments or
      submissions. */
  lemma ExtractBounds(grades: seq<GradeRecord>, submissions: seq<SubmissionRecord>,
                      assignmentCount: nat, now: int)
    requires !HasZeroTotal(grades)
    ensures var f := Extract(grades, submissions, assignmentCount, now).value;
      && 0.0 <= f.onTimeRate <= 100.0
      && 0.0 <= f.submissionRate
      && 0.0 <= f.participation <= 100.0
      && f.daysSinceLast <= DaysCap as real
      && f.assignmentCount == assignmentCount
      && (|grades| == 0 ==> f.avgScore == 0.0)
      && (assignmentCount == 0 ==> f.submissionRate == 0.0)
      && (|submissions| <= assignmentCount ==> f.submissionRate <= 100.0)
      && (|submissions| == 0 ==> f.onTimeRate == 0.0 && f.daysSinceLast == DaysCap as real)
  {
    OnTimeCountBounds(submissions);
    RateBounds(OnTimeCount(submissions), |submissions|);
    if |submissions| <= assignmentCount {
      RateBounds(|submissions|, assignmentCount);
    }
  }

  /** With at least one submission, days since last is the whole-day age of
      the latest one (rounded down, as `timedelta.days`), capped at 30. */
  lemma DaysSinceLatest(submissions: seq<SubmissionRecord>, now: int, latest: int)
    requires exists i :: 0 <= i < |submissions| && submissions[i].submittedAt == latest
    requires forall i :: 0 <= i < |submissions| ==> submissions[i].submittedAt <= latest
    ensures DaysSinceLast(submissions, now) == Min((now - latest) / MicrosPerDay, DaysCap)
    ensures var d := DaysSinceLast(submissions, now);
      d < DaysCap ==> d * MicrosPerDay <= now - latest < (d + 1) * MicrosPerDay
  {
    var t := LatestSubmittedAt(submissions);
    var i :| 0 <= i < |submissions| && submissions[i].submittedAt == latest;
    var j :| 0 <= j < |submissions| && submissions[j].submittedAt == t;
    assert t == latest;
  }

  /** Nothing bounds the submission rate by 100: two submissions against a
      classroom with a single assignment give 200. A latest submission one
      day in the future gives -1 days. */
  lemma UnclampedFeatures(s: SubmissionRecord, now: int)
    requires s.submittedAt == now + MicrosPerDay
    ensures Extract([], [s, s], 1, now).value.submissionRate == 200.0
    ensures Extract([], [s], 1, now).value.daysSinceLast == -1.0
  {
    assert LatestSubmittedAt([s]) == now + MicrosPerDay;
  }
}
