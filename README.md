# Student analytics engine and grade/assignment page logic, in Dafny

This project models the analytics core of a classroom-management web application and proves properties of the model.

On the server side, for one student in one classroom, the engine:

- derives a six-field feature record from the student's grades and submissions;
- feeds that record to a pre-trained risk classifier and a pre-trained grade regressor;
- turns their outputs into a risk level and score, a list of recommendations, a predicted letter grade and a confidence;
- combines both results with a qualitative performance trend into a one-line summary.

The models are trained on synthetic data. The generator draws latent traits and noise, and then labels each sample by fixed rules.

On the client side, the model covers:

- the grade page's letter preview, pass rule and colour scale, and the alert class of its notifications;
- the assignment page's upload checks, form checks and local-storage drafts.

Modules:

| file | module | models |
|---|---|---|
| `util.dfy` | `Util` | `Option`, `Result`, Python list indexing, `min`, NumPy `clip` |
| `features.dfy` | `Features` | `collect_student_features` |
| `predictions.dfy` | `Predictions` | `predict_student_risk`, `predict_student_grade`, `get_student_analytics` |
| `synthetic.dfy` | `SyntheticData` | `generate_synthetic_data` |
| `grade_preview.dfy` | `GradePreview` | `updateGradePreview`, `getGradeColor`, `showNotification`'s class |
| `assignment_upload.dfy` | `AssignmentUpload` | `validateAssignmentFile`, `validateAssignmentForm` |
| `assignment_drafts.dfy` | `AssignmentDrafts` | `saveDraft`, `loadDraft`, `clearDraft` |

How the model represents things:

- **Database queries.** The query results are sequences of records, and "now" is a parameter.
- **Timestamps.** Timestamps are integer microseconds. `timedelta.days` is therefore a floor division by one day.
- **Fitted models.** The scalers and models are opaque functions carried as datatype fields. A call that raises is `None`. `load_models` is an `Option<Models>`.
- **Loops.** Each loop in the source becomes a `method` with a loop, proved equal to a specification function. The lemmas are then proved about those functions.
- **Mutable browser objects.** The file input, the form and local storage become classes whose methods change their fields.
- **JavaScript numbers.** A number produced by `parseFloat` is a `JsNumber` that can be NaN or infinite. Every comparison with NaN is false.

Where the code and the documented behaviour of the system differ, the model follows the code:

- **Grade scale.** A predicted score of 39.9 is D on the predictor's scale, not F. The D band is [30, 40). See `Predictions.LetterBoundaries`.
- **Feature bounds.** Live feature extraction clamps only participation and days-since-last, and days-since-last only from above.
  - The submission rate exceeds 100 when there are more submissions than assignments.
  - A latest submission in the future gives a negative day count.
  - See `Features.UnclampedFeatures`.
- **Synthetic data.** The days-since-last feature is the raw exponential draw. It is not capped at 30.
- **Deadline check.** A deadline that does not parse as a date passes the form's deadline check, because `new Date` gives NaN, and NaN compared with "now" is never `<=`. Only a set, parseable deadline at or before now is refused.
- **Analytics fallbacks.** `get_student_analytics` has no fallback of its own, so both risk fallbacks make it raise KeyError, at different lookups:
  - The models-unavailable result has no 'features' key, so `risk_analysis['features']` raises. In the model this is `Err(MissingFeatures)`.
  - The error result has an empty 'features' dict, so `features['avg_score']` raises. In the model this is `Err(MissingAvgScore)`.
- **Confidence.** The confidence is in [0.7, 1.0] only for submission rates up to 100. A higher rate gives more than 1.0, for example 1.3 at a rate of 200. See `Predictions.ConfidenceAboveOne`.
- **Risk class index.** The predicted class is clamped from above only. A class below -4 is never clamped: it raises IndexError and gives the error result. See `Predictions.LevelOf`.

## Model

| member | source | states |
|---|---|---|
| Util.PyIndex | ml/predictions.py:130-131 | Python list indexing: fails exactly outside [-len, len); a non-negative index reads that element, a negative one counts from the end |
| Util.Clip | ml/scripts/train_models.py:27 | NumPy `clip`: the result lies in [lo, hi]; it is lo below lo, hi above hi, and x itself inside |
| Features.RowMatchesTrainingColumns | ml/predictions.py:112-119 | the prediction row has six entries, and position by position each holds the column of the training script's feature list (ml/scripts/train_models.py:87-88) |
| Features.LatestSubmittedAt | ml/predictions.py:81 | the latest submission's timestamp belongs to one of the submissions and is at least every submission's timestamp |
| Features.CollectStudentFeatures | ml/predictions.py:41-94 | the loops over grades and submissions compute exactly `Extract`; a zero total marks gives the ZeroDivisionError outcome |
| Features.ExtractFailsIff | ml/predictions.py:61 | extraction fails exactly when some grade has zero total marks |
| Features.PercentageSumBounds | ml/predictions.py:61 | with marks between 0 and a positive total, the summed percentages lie in [0, 100·n] |
| Features.QuotientBounds | ml/predictions.py:61 | a mark not above its positive total gives a fraction in [0, 1] |
| Features.AverageScoreBounds | ml/predictions.py:59-64 | with marks between 0 and a positive total, the average score is a percentage |
| Features.UniformGradesAverage | ml/predictions.py:59-64 | records that all score p have p as their average |
| Features.OnTimeCountBounds | ml/predictions.py:70-73 | the on-time count is at most the number of submissions; it equals it iff every submission is on time and is 0 iff none is |
| Features.RateBounds | ml/predictions.py:67 | a part not exceeding its whole gives a rate in [0, 100] |
| Features.ExtractBounds | ml/predictions.py:67-93 | on-time rate and participation are percentages, days since last are at most 30, the submission rate is at most 100 when submissions do not outnumber assignments, and the defaults (0 average, 0 rates, 30 days) apply to empty inputs |
| Features.DaysSinceLatest | ml/predictions.py:81-93 | days since last is the whole number of days since the latest submission, rounded down and capped at 30 |
| Features.UnclampedFeatures | ml/predictions.py:67 | two submissions for one assignment give a 200 % submission rate, and a future latest submission gives -1 days |
| Predictions.LevelOf | ml/predictions.py:129-130 | class 3 or more is Critical, 0..2 index the table, -4..-1 index from its end, and a class below -4 raises |
| Predictions.ScoreOf | ml/predictions.py:131 | the probability of the predicted class, clamped to the last class; an empty row or too negative a class raises |
| Predictions.ClassifyRiskWellFormed | ml/predictions.py:121-131 | for a class that is a valid index of the probability row, the level is its table entry (Critical for 3 and above) and the score is its probability |
| Predictions.FiredFromFacts | ml/predictions.py:134-142 | the fired messages from rule k on are a subsequence of the rule table, contain rule j's message iff j ≥ k and rule j fires, and never contain the encouragement |
| Predictions.RecommendationsSpec | ml/predictions.py:134-145 | the list is never empty; it is just "Keep up the good work!" iff no rule fires; otherwise each rule's message is in it iff that rule fires, in table order |
| Predictions.PredictStudentRisk | ml/predictions.py:97-160 | the result is `RiskAssessment` of the extraction: "ML models not available" without models, the error result when extraction or a model call raises, the level, score, recommendations and features otherwise; the recommendations are never empty |
| Predictions.LetterPartition | ml/predictions.py:195-210 | the eight letter bands partition the scores: each score lies in the band of its letter and in no other |
| Predictions.LetterMonotone | ml/predictions.py:195-210 | a higher score never gets a lower letter |
| Predictions.LetterBoundaries | ml/predictions.py:195-210 | the bands include their lower bounds: 90.0 is A+, 89.9 is A, 40.0 is C, 39.9 is D and 29.9 is F |
| Predictions.ConfidenceBounds | ml/predictions.py:214 | for a submission rate in [0, 100] the confidence lies in [0.7, 1.0] and grows with the rate |
| Predictions.ConfidenceAboveOne | ml/predictions.py:214 | a submission rate above 100 gives a confidence above 1.0, and 200 gives 1.3 |
| Predictions.PredictScore | ml/predictions.py:188-192 | a predicted score always lies in [0, 100] |
| Predictions.GradePredictionSpec | ml/predictions.py:163-229 | every score lies in [0, 100]; a result with features has the letter of its score and the confidence of its rate; a result without features is B, 75.0, 0.5; features are present iff models load, extraction succeeds and the regressor runs |
| Predictions.FallbackLetterOffScale | ml/predictions.py:168-171 | the fallback letter B is not the scale's letter for the fallback score 75.0 (B+) |
| Predictions.PredictStudentGrade | ml/predictions.py:163-229 | the result is `GradePrediction` of the extraction, and its score lies in [0, 100] |
| Predictions.TrendMonotone | ml/predictions.py:239-246 | raising the average score or the submission rate never lowers the trend |
| Predictions.TrendByAverage | ml/predictions.py:239-246 | an average of at least 50 is exactly what makes the trend at least Average; Excellent and Good imply their thresholds |
| Predictions.TrendExamples | ml/predictions.py:239-246 | (80, 85) is Excellent, (65, 75) is Good, (55, 10) is Average, (30, 10) is Needs Improvement |
| Predictions.SummaryPositions | ml/predictions.py:252 | where the level, letter and trend names sit in the summary line |
| Predictions.NamesDecode | ml/predictions.py:252 | each name of a level, letter and trend is recognised from its leading characters |
| Predictions.SummaryRoundTrip | ml/predictions.py:252 | level, letter and trend can be read back from the summary line, so the summary is unambiguous |
| Predictions.GetStudentAnalytics | ml/predictions.py:232-253 | the analytics succeed iff the risk result has a feature record; then they hold both predictions (each from its own model load and clock reading), the trend of that record and the summary of the level, letter and trend; the unavailable fallback raises on the 'features' key and the error fallback on 'avg_score' |
| Predictions.AnalyticsAvailableIff | ml/predictions.py:97-160 | the risk result has a feature record iff models load, extraction succeeds and the classifier runs, and that record is the extracted one |
| Predictions.WorkedExample | ml/predictions.py:41-145 | ten grades of 55 %, six of ten assignments submitted on time, the latest ten days ago: features (55, 60, 100, 100, 10, 10), trend Average, and the first, second and fourth recommendation in that order |
| SyntheticData.RiskScoreBounds | ml/scripts/train_models.py:46-55 | the risk score lies in [0, 7] and is 7 iff all three features are in their lowest bucket |
| SyntheticData.RiskLevelSpec | ml/scripts/train_models.py:46-61 | the risk level is in 0..3; it is 0 iff all three rated features are at least 70, and 3 when all are in their lowest bucket |
| SyntheticData.RiskLevelMonotone | ml/scripts/train_models.py:58-61 | a higher non-negative risk score never gives a lower level |
| SyntheticData.RiskMonotone | ml/scripts/train_models.py:46-61 | raising any rated feature never raises the risk score or the level |
| SyntheticData.WeightedGradeBounds | ml/scripts/train_models.py:64-65 | the weights sum to one: the weighted grade lies between the smallest and largest input |
| SyntheticData.SampleSpec | ml/scripts/train_models.py:24-77 | every sample has its rated features and final grade in [0, 100], a level in 0..3 that is 0 iff all rated features are at least 70, and its count and days copied from the draws |
| SyntheticData.TraitClipping | ml/scripts/train_models.py:26-40 | the traits lie in [0.1, 1] and [0.2, 1]; without noise the average score is 90·ability and the submission rate 95·motivation |
| SyntheticData.GenerateSyntheticData | ml/scripts/train_models.py:19-79 | the loop yields max(0, n) samples, sample i being the labelled sample of draw i |
| GradePreview.NextUp | static/js/grades.js:26-37 | the next letter up is one rank higher |
| GradePreview.LetterPartition | static/js/grades.js:26-37 | the twelve letter bands partition all numbers, lower bounds included |
| GradePreview.LetterMonotone | static/js/grades.js:26-37 | a higher percentage never gets a lower letter |
| GradePreview.PassIffNotF | static/js/grades.js:36-39 | a percentage passes iff its letter is not F |
| GradePreview.UpdateGradePreview | static/js/grades.js:19-46 | nothing is shown iff the input is NaN; otherwise the letter of the scale is shown, with "Pass" and "text-success" when the letter is not F and "Fail" and "text-danger" when it is F |
| GradePreview.FirstMetFrom | static/js/grades.js:115-122 | the index, between the start and 5, of the first threshold from the start that the number meets; 5 when it meets none |
| GradePreview.GradeColorBands | static/js/grades.js:115-122 | the colour is that of the first threshold met, each colour is exactly its band, and red is exactly below 40, that is, the F letter |
| GradePreview.AlertVariant | static/js/grades.js:90 | "error" becomes "danger", every other type is kept, and the variant is never "error" |
| GradePreview.AlertClassName | static/js/grades.js:90 | the class starts with "alert alert-" followed by the variant |
| AssignmentUpload.ToLower | static/js/assignments.js:28 | lower-casing keeps the length, leaves no letter A to Z, maps each of them to its lower-case letter and keeps every other character |
| AssignmentUpload.AfterLastDotSpec | static/js/assignments.js:28 | the extension text is the longest suffix without a '.': preceded by a '.' unless it is the whole name, which happens iff the name has no '.' |
| AssignmentUpload.LowerAfterLastDot | static/js/assignments.js:28 | lower-casing commutes with taking the text after the last '.' |
| AssignmentUpload.LowerIdempotent | static/js/assignments.js:28 | lower-casing twice is lower-casing once |
| AssignmentUpload.ExtensionIgnoresCase | static/js/assignments.js:28-29 | names that agree once lower-cased have the same extension |
| AssignmentUpload.CheckFileSpec | static/js/assignments.js:20-33 | a file is accepted iff it is at most 10 MB (the limit itself passes) and its extension is allowed; the verdict ignores the letter case of the name; an oversized file is refused for its size |
| AssignmentUpload.DotlessExtension | static/js/assignments.js:28 | a name without '.' has the whole lower-cased name as its extension |
| AssignmentUpload.ValidateAssignmentFile | static/js/assignments.js:14-48 | true iff the verdict is accepted; an oversized or disallowed file gives its message and clears the input; otherwise the input is unchanged and nothing is shown |
| AssignmentUpload.TrimEmptyIff | static/js/assignments.js:59-68 | a value trims to empty iff it consists of white space only |
| AssignmentUpload.ValidateAssignmentForm | static/js/assignments.js:51-87 | every check runs; the invalid fields are exactly the failing ones; the form is valid iff title and description have a non-white-space character, the deadline is set and is not a valid date at or before now; the deadline message appears iff a set deadline is in the past |
| AssignmentDrafts.DraftKeySpec | static/js/assignments.js:133 | every key has the prefix; a missing id, an empty id and the id "new" share one key; distinct non-empty ids have distinct keys |
| AssignmentDrafts.CollectedKeys | static/js/assignments.js:128-130 | the draft's keys are exactly the entry names |
| AssignmentDrafts.CollectedLast | static/js/assignments.js:128-130 | each name holds the value of its last entry |
| AssignmentDrafts.FirstNamed | static/js/assignments.js:157 | the control found has the name and no earlier control has it; none is found iff no control has it |
| AssignmentDrafts.RestoredSpec | static/js/assignments.js:156-161 | loading keeps names and kinds, never changes a file input, a field the draft does not name or a shadowed field, and sets the first control of each draft key to the stored value |
| AssignmentDrafts.RestoreStep | static/js/assignments.js:156-161 | processing one more key writes its first control unless it is a file input, and changes nothing else |
| AssignmentDrafts.DraftStorage.SaveDraft | static/js/assignments.js:121-133 | the form's key now holds the collected entries, other keys are unchanged |
| AssignmentDrafts.DraftStorage.LoadDraft | static/js/assignments.js:146-165 | with a stored draft the form becomes the restored form, as in any key order, and "Draft loaded" is shown; without one nothing changes |
| AssignmentDrafts.DraftStorage.ClearDraft | static/js/assignments.js:167-173 | the form's key is removed, nothing else changes |

## Left out

- Model loading (`load_models`), training, persistence and the command-line entry points: these are file I/O and library calls. Loading is an `Option<Models>`, and the fitted models are opaque functions.
- The random number generator: the draws of `generate_synthetic_data` are a parameter, one `Draws` per sample. The distributions and the seed are not modelled. NumPy's `randint(5, 20)` range is not enforced on the draws.
- The ORM queries and the clock: the query results are sequences, and "now" is a parameter.
- Floating point: every quantity is a `real`. Rounding error, NaN propagation through `np.clip`, and non-finite model outputs are not modelled.
- Predictions.PredictStudentGrade: the returned score and confidence are not rounded to 1 and 2 decimals. Python's `round` on floats is display formatting and is left out.
- Predictions.GetStudentAnalytics: both predictions receive the same grade and submission records. The source queries the database once per prediction, so a change between the two queries is not modelled. The two model loads and the two clock readings are separate parameters.
- Printing of exceptions, logging, Django views and templates, and all DOM presentation: the file preview, modal dialogs, the draft indicator, notification timing, auto-save timers and the minimum-date helper.
- AssignmentUpload.ToLower: lower-cases the ASCII letters A to Z only, so full Unicode case mapping is not modelled.
- AssignmentUpload.ValidateAssignmentForm: takes the parsed deadline as a parameter (`None` for an invalid date). JavaScript date parsing is not modelled.
- AssignmentUpload.ValidateAssignmentFile: clearing the input sets both its value and its file list to empty, as a browser does for a file input.
- AssignmentDrafts.DraftStorage: holds drafts as the maps that the JSON round trip returns. Serialisation is not modelled.
- A `FileValue` restores as "[object Object]". Setting a `select` or checkbox value is treated like setting text.
- A name containing quotes breaks the attribute selector of `querySelector`. This is not modelled.
- The `if (!form) return;` guards: the form always exists in the model.
- There is no concurrency in the modelled code.
