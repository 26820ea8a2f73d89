/** The client-side grade preview and colour scale (static/js/grades.js):
    the twelve-letter scale and pass rule of `updateGradePreview`,
    `getGradeColor`, and the alert class chosen by `showNotification`.
    This scale is distinct from the predictor's eight-letter scale. */
module GradePreview {
  import opened Util

  /** A JavaScript number as `parseFloat` can return it. */
  datatype JsNumber = NaN | NegInfinity | PosInfinity | Finite(x: real)

  /** JavaScript's `p >= c` against a finite constant: false for NaN. */
  predicate AtLeast(p: JsNumber, c: real)
  {
    match p
    case NaN => false
    case NegInfinity => false
    case PosInfinity => true
    case Finite(x) => x >= c
  }

  /** JavaScript's `p <= q`. */
  predicate NotAbove(p: JsNumber, q: JsNumber)
  {
    match (p, q)
    case (NaN, _) => false
    case (_, NaN) => false
    case (NegInfinity, _) => true
    case (_, PosInfinity) => true
    case (PosInfinity, _) => false
    case (_, NegInfinity) => false
    case (Finite(x), Finite(y)) => x <= y
  }

  datatype Letter = APlus | A | AMinus | BPlus | B | BMinus | CPlus | C | CMinus | DPlus | D | F

  /** Position on the scale, F lowest. */
  function LetterRank(l: Letter): nat
  {
    match l
    case F => 0 case D => 1 case DPlus => 2 case CMinus => 3 case C => 4 case CPlus => 5
    case BMinus => 6 case B => 7 case BPlus => 8 case AMinus => 9 case A => 10 case APlus => 11
  }

  /** The lowest percentage of each letter's band (F has none). */
  function LowerBound(l: Letter): real
    requires l != F
  {
    match l
    case APlus => 90.0 case A => 85.0 case AMinus => 80.0 case BPlus => 75.0
    case B => 70.0 case BMinus => 65.0 case CPlus => 60.0 case C => 55.0
    case CMinus => 50.0 case DPlus => 45.0 case D => 40.0
  }

  /** The next letter up the scale (A+ has none). */
  function NextUp(l: Letter): (u: Letter)
    requires l != APlus
    ensures u != F && LetterRank(u) == LetterRank(l) + 1
  {
    match l
    case A => APlus case AMinus => A case BPlus => AMinus case B => BPlus
    case BMinus => B case CPlus => BMinus case C => CPlus case CMinus => C
    case DPlus => CMinus case D => DPlus case F => D
  }

  /** A letter's band: at least its own lower bound, below the next one's. */
  predicate InBand(l: Letter, p: JsNumber)
  {
    (l == F || AtLeast(p, LowerBound(l))) && (l == APlus || !AtLeast(p, LowerBound(NextUp(l))))
  }

  /** The letter chain of `updateGradePreview`. */
  function LetterGrade(p: JsNumber): Letter
  {
    if AtLeast(p, 90.0) then APlus
    else if AtLeast(p, 85.0) then A
    else if AtLeast(p, 80.0) then AMinus
    else if AtLeast(p, 75.0) then BPlus
    else if AtLeast(p, 70.0) then B
    else if AtLeast(p, 65.0) then BMinus
    else if AtLeast(p, 60.0) then CPlus
    else if AtLeast(p, 55.0) then C
    else if AtLeast(p, 50.0) then CMinus
    else if AtLeast(p, 45.0) then DPlus
    else if AtLeast(p, 40.0) then D
    else F
  }

  function LetterName(l: Letter): string
  {
    match l
    case APlus => "A+" case A => "A" case AMinus => "A-" case BPlus => "B+"
    case B => "B" case BMinus => "B-" case CPlus => "C+" case C => "C"
    case CMinus => "C-" case DPlus => "D+" case D => "D" case F => "F"
  }

  /** The bands partition all numbers: each lies in the band of the letter
      it gets, lower bound included, and in no other band. */
  lemma LetterPartition(p: JsNumber)
    ensures forall l: Letter :: InBand(l, p) <==> l == LetterGrade(p)
  {
    forall l: Letter
      ensures InBand(l, p) <==> l == LetterGrade(p)
    {
      if l != APlus && l != F {
        assert LowerBound(NextUp(l)) > LowerBound(l);
      }
    }
  }

  /** A higher percentage never gets a lower letter. */
  lemma LetterMonotone(p: JsNumber, q: JsNumber)
    requires NotAbove(p, q)
    ensures LetterRank(LetterGrade(p)) <= LetterRank(LetterGrade(q))
  {
  }

  /** Passing (at least 40) coincides with a letter other than F. */
  lemma PassIffNotF(p: JsNumber)
    ensures AtLeast(p, 40.0) <==> LetterGrade(p) != F
  {
  }

  /** What the preview shows: the letter, "Pass" or "Fail", and the status
      class. */
  datatype Preview = Preview(letter: string, passStatus: string, statusClass: string)

  /** `updateGradePreview` for a parsed percentage: nothing for NaN. */
  function UpdateGradePreview(p: JsNumber): (r: Option<Preview>)
    ensures r.None? <==> p.NaN?
    ensures r.Some? ==>
      && r.value.letter == LetterName(LetterGrade(p))
      && r.value.passStatus == (if LetterGrade(p) != F then "Pass" else "Fail")
      && r.value.statusClass == (if LetterGrade(p) != F then "text-success" else "text-danger")
  {
    PassIffNotF(p);
    if p.NaN? then None
    else
      var passStatus := if AtLeast(p, 40.0) then "Pass" else "Fail";
      Some(Preview(LetterName(LetterGrade(p)), passStatus,
                   if AtLeast(p, 40.0) then "text-success" else "text-danger"))
  }

  /** The six colours, best first, and the five thresholds between them. */
  const Colors: seq<string> := ["#10b981", "#06b6d4", "#8b5cf6", "#f59e0b", "#f97316", "#dc2626"]
  const ColorThresholds: seq<real> := [90.0, 80.0, 70.0, 60.0, 40.0]

  function GradeColor(p: JsNumber): string
  {
    if AtLeast(p, 90.0) then "#10b981"
    else if AtLeast(p, 80.0) then "#06b6d4"
    else if AtLeast(p, 70.0) then "#8b5cf6"
    else if AtLeast(p, 60.0) then "#f59e0b"
    else if AtLeast(p, 40.0) then "#f97316"
    else "#dc2626"
  }

  /** The index of the first threshold from k on that the number meets, or
      5 when it meets none. */
  function FirstMetFrom(p: JsNumber, k: nat): (i: nat)
    requires k <= 5
    ensures k <= i <= 5
    ensures i < 5 ==> AtLeast(p, ColorThresholds[i])
    ensures forall j :: k <= j < i ==> !AtLeast(p, ColorThresholds[j])
    decreases 5 - k
  {
    if k == 5 then 5 else if AtLeast(p, ColorThresholds[k]) then k else FirstMetFrom(p, k + 1)
  }

  /** The colour is that of the first threshold met, so the six colours
      partition the numbers into lower-inclusive bands at 90/80/70/60/40;
      red is exactly the failing band and the F letter. */
  lemma GradeColorBands(p: JsNumber)
    ensures GradeColor(p) == Colors[FirstMetFrom(p, 0)]
    ensures forall k :: 0 <= k < 5 ==>
      (GradeColor(p) == Colors[k] <==> AtLeast(p, ColorThresholds[k]) && (k == 0 || !AtLeast(p, ColorThresholds[k - 1])))
    ensures GradeColor(p) == Colors[5] <==> !AtLeast(p, 40.0)
    ensures GradeColor(p) == Colors[5] <==> LetterGrade(p) == F
  {
  }

  /** The Bootstrap variant `showNotification` uses for a message type. */
  function AlertVariant(messageType: string): (v: string)
    ensures v != "error"
    ensures v == messageType <==> messageType != "error"
    ensures messageType == "error" ==> v == "danger"
  {
    if messageType == "error" then "danger" else messageType
  }

  function AlertClassName(messageType: string): (c: string)
    ensures |c| > 12 + |AlertVariant(messageType)|
    ensures c[..12] == "alert alert-"
    ensures c[12..12 + |AlertVariant(messageType)|] == AlertVariant(messageType)
  {
    "alert alert-" + AlertVariant(messageType) + " alert-dismissible fade show position-fixed"
  }
}
