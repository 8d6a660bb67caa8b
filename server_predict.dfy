/** The server-side scorer: the body of the `POST /api/predict` handler
    (HealthGuardAI/Silent-Sentinel/server/routes.ts), from the parsed input to the score and text. */
module ServerPredict {
  import opened Common

  datatype LabTrends = LabTrends(glucose: real, bp: real, cholesterol: real)

  datatype MentalHealth = MentalHealth(anxiety: real, depression: real)

  /** The parsed request body; `personal_info` is not read by the scorer and is not modelled. */
  datatype PredictionInput = PredictionInput(
    labTrends: LabTrends,
    sleepHours: real,
    activityLevel: real,
    stressLevel: real,
    familyHistory: seq<string>,
    mentalHealth: MentalHealth)

  /** The bounds the request schema enforces before the handler runs. */
  predicate SchemaValid(input: PredictionInput)
  {
    0.0 <= input.sleepHours <= 24.0 && 1.0 <= input.activityLevel <= 5.0 && 1.0 <= input.stressLevel <= 5.0
  }

  const GlucoseReason := "High glucose levels"
  const BloodPressureReason := "Elevated blood pressure"
  const CholesterolReason := "High cholesterol"
  const SleepReason := "Insufficient sleep"
  const ActivityReason := "Low physical activity"
  const StressReason := "High stress levels"
  const FamilyHistoryReason := "Family history of disease"
  const MentalHealthReason := "Mental health indicators"

  /** Every reason the handler can push, in the order of its rules. */
  const ReasonOrder := [GlucoseReason, BloodPressureReason, CholesterolReason, SleepReason,
                        ActivityReason, StressReason, FamilyHistoryReason, MentalHealthReason]

  /** A two-tier lab rule: above `high` 20 points and the reason; above `raised` 10 points silently. */
  function LabRule(value: real, high: real, raised: real, reason: string): (r: RuleOutcome)
    requires raised < high
    ensures r.factor.Some? <==> value > high
    ensures r.factor.Some? ==> r == RuleOutcome(20, Some(reason))
    ensures raised < value <= high ==> r == RuleOutcome(10, None)
    ensures value <= raised ==> r == RuleOutcome(0, None)
  {
    if value > high then RuleOutcome(20, Some(reason))
    else if value > raised then RuleOutcome(10, None)
    else RuleOutcome(0, None)
  }

  function GlucoseRule(glucose: real): (r: RuleOutcome)
    ensures r.factor.Some? <==> glucose > 140.0
    ensures r.delta == if glucose > 140.0 then 20 else if glucose > 100.0 then 10 else 0
    ensures r.factor.Some? ==> r.factor.value == GlucoseReason
  {
    LabRule(glucose, 140.0, 100.0, GlucoseReason)
  }

  function BloodPressureRule(bp: real): (r: RuleOutcome)
    ensures r.factor.Some? <==> bp > 130.0
    ensures r.delta == if bp > 130.0 then 20 else if bp > 120.0 then 10 else 0
    ensures r.factor.Some? ==> r.factor.value == BloodPressureReason
  {
    LabRule(bp, 130.0, 120.0, BloodPressureReason)
  }

  function CholesterolRule(cholesterol: real): (r: RuleOutcome)
    ensures r.factor.Some? <==> cholesterol > 240.0
    ensures r.delta == if cholesterol > 240.0 then 20 else if cholesterol > 200.0 then 10 else 0
    ensures r.factor.Some? ==> r.factor.value == CholesterolReason
  {
    LabRule(cholesterol, 240.0, 200.0, CholesterolReason)
  }

  /** A one-tier rule: 10 points and the reason exactly when `fires`. */
  function FlagRule(fires: bool, reason: string): (r: RuleOutcome)
    ensures r.factor.Some? <==> fires
    ensures r.delta == if r.factor.Some? then 10 else 0
    ensures r.factor.Some? ==> r.factor.value == reason
  {
    if fires then RuleOutcome(10, Some(reason)) else RuleOutcome(0, None)
  }

  function SleepRule(hours: real): (r: RuleOutcome)
    ensures r.factor.Some? <==> hours < 6.0
    ensures r.delta == if hours < 6.0 then 10 else 0
    ensures r.factor.Some? ==> r.factor.value == SleepReason
  {
    FlagRule(hours < 6.0, SleepReason)
  }

  function ActivityRule(level: real): (r: RuleOutcome)
    ensures r.factor.Some? <==> level < 3.0
    ensures r.delta == if level < 3.0 then 10 else 0
    ensures r.factor.Some? ==> r.factor.value == ActivityReason
  {
    FlagRule(level < 3.0, ActivityReason)
  }

  function StressRule(level: real): (r: RuleOutcome)
    ensures r.factor.Some? <==> level > 3.0
    ensures r.delta == if level > 3.0 then 10 else 0
    ensures r.factor.Some? ==> r.factor.value == StressReason
  {
    FlagRule(level > 3.0, StressReason)
  }

  function MentalHealthRule(m: MentalHealth): (r: RuleOutcome)
    ensures r.factor.Some? <==> m.anxiety > 5.0 || m.depression > 5.0
    ensures r.delta == if m.anxiety > 5.0 || m.depression > 5.0 then 10 else 0
    ensures r.factor.Some? ==> r.factor.value == MentalHealthReason
  {
    FlagRule(m.anxiety > 5.0 || m.depression > 5.0, MentalHealthReason)
  }

  /** Ten points per listed condition, but one reason however many are listed. */
  function FamilyHistoryRule(history: seq<string>): (r: RuleOutcome)
    ensures r.delta == 10 * |history|
    ensures |Labels(r)| == if |history| > 0 then 1 else 0
    ensures r.factor.Some? ==> r.factor.value == FamilyHistoryReason
  {
    if |history| > 0 then RuleOutcome(10 * |history|, Some(FamilyHistoryReason)) else RuleOutcome(0, None)
  }

  /** The sum of the eight rules before the cap; every rule adds a non-negative amount. */
  function RawScore(input: PredictionInput): (r: int)
    ensures r >= 10 * |input.familyHistory|
  {
    var score := 0;
    var score := score + GlucoseRule(input.labTrends.glucose).delta;
    var score := score + BloodPressureRule(input.labTrends.bp).delta;
    var score := score + CholesterolRule(input.labTrends.cholesterol).delta;
    var score := score + SleepRule(input.sleepHours).delta;
    var score := score + ActivityRule(input.activityLevel).delta;
    var score := score + StressRule(input.stressLevel).delta;
    var score := score + FamilyHistoryRule(input.familyHistory).delta;
    score + MentalHealthRule(input.mentalHealth).delta
  }

  /** The reasons, pushed rule by rule. */
  function Reasons(input: PredictionInput): (r: seq<string>)
    ensures |r| <= |ReasonOrder|
  {
    var reasons := [];
    var reasons := reasons + Labels(GlucoseRule(input.labTrends.glucose));
    var reasons := reasons + Labels(BloodPressureRule(input.labTrends.bp));
    var reasons := reasons + Labels(CholesterolRule(input.labTrends.cholesterol));
    var reasons := reasons + Labels(SleepRule(input.sleepHours));
    var reasons := reasons + Labels(ActivityRule(input.activityLevel));
    var reasons := reasons + Labels(StressRule(input.stressLevel));
    var reasons := reasons + Labels(FamilyHistoryRule(input.familyHistory));
    reasons + Labels(MentalHealthRule(input.mentalHealth))
  }

  /** The reasons keep the order of the rules. */
  lemma ReasonsInRuleOrder(input: PredictionInput)
    ensures IsSubsequence(Reasons(input), ReasonOrder)
  {
    var o1, o2, o3 := GlucoseRule(input.labTrends.glucose), BloodPressureRule(input.labTrends.bp), CholesterolRule(input.labTrends.cholesterol);
    var o4, o5, o6 := SleepRule(input.sleepHours), ActivityRule(input.activityLevel), StressRule(input.stressLevel);
    var o7, o8 := FamilyHistoryRule(input.familyHistory), MentalHealthRule(input.mentalHealth);
    var emptyReasons: seq<string> := [];
    assert emptyReasons + Labels(o1) == Labels(o1);
    var l, t := Labels(o1), [GlucoseReason];
    LabelsSubsequence(o1, t);
    LabelsSubsequence(o2, [BloodPressureReason]);
    SubsequenceConcat(l, t, Labels(o2), [BloodPressureReason]);
    l, t := l + Labels(o2), t + [BloodPressureReason];
    LabelsSubsequence(o3, [CholesterolReason]);
    SubsequenceConcat(l, t, Labels(o3), [CholesterolReason]);
    l, t := l + Labels(o3), t + [CholesterolReason];
    LabelsSubsequence(o4, [SleepReason]);
    SubsequenceConcat(l, t, Labels(o4), [SleepReason]);
    l, t := l + Labels(o4), t + [SleepReason];
    LabelsSubsequence(o5, [ActivityReason]);
    SubsequenceConcat(l, t, Labels(o5), [ActivityReason]);
    l, t := l + Labels(o5), t + [ActivityReason];
    LabelsSubsequence(o6, [StressReason]);
    SubsequenceConcat(l, t, Labels(o6), [StressReason]);
    l, t := l + Labels(o6), t + [StressReason];
    LabelsSubsequence(o7, [FamilyHistoryReason]);
    SubsequenceConcat(l, t, Labels(o7), [FamilyHistoryReason]);
    l, t := l + Labels(o7), t + [FamilyHistoryReason];
    LabelsSubsequence(o8, [MentalHealthReason]);
    SubsequenceConcat(l, t, Labels(o8), [MentalHealthReason]);
    assert t + [MentalHealthReason] == ReasonOrder;
  }

  /** The eight rules of the handler, so that one lemma can speak of each. */
  datatype Rule =
    | GlucoseCheck | BloodPressureCheck | CholesterolCheck | SleepCheck
    | ActivityCheck | StressCheck | FamilyHistoryCheck | MentalHealthCheck

  function RuleReason(k: Rule): string
  {
    match k
    case GlucoseCheck => GlucoseReason
    case BloodPressureCheck => BloodPressureReason
    case CholesterolCheck => CholesterolReason
    case SleepCheck => SleepReason
    case ActivityCheck => ActivityReason
    case StressCheck => StressReason
    case FamilyHistoryCheck => FamilyHistoryReason
    case MentalHealthCheck => MentalHealthReason
  }

  /** Reads a reason back to its rule; it inverts `RuleReason`, so no two rules share a reason. */
  function ReasonRule(reason: string): (r: Option<Rule>)
    ensures r.Some? ==> RuleReason(r.value) == reason
  {
    if reason == GlucoseReason then Some(GlucoseCheck)
    else if reason == BloodPressureReason then Some(BloodPressureCheck)
    else if reason == CholesterolReason then Some(CholesterolCheck)
    else if reason == SleepReason then Some(SleepCheck)
    else if reason == ActivityReason then Some(ActivityCheck)
    else if reason == StressReason then Some(StressCheck)
    else if reason == FamilyHistoryReason then Some(FamilyHistoryCheck)
    else if reason == MentalHealthReason then Some(MentalHealthCheck)
    else None
  }

  lemma ReasonRuleRoundTrip(k: Rule)
    ensures ReasonRule(RuleReason(k)) == Some(k)
  {
  }

  /** What rule `k` contributes for this input. */
  function RuleOutcomeOf(input: PredictionInput, k: Rule): (r: RuleOutcome)
    ensures r.factor.Some? ==> r.factor.value == RuleReason(k)
  {
    match k
    case GlucoseCheck => GlucoseRule(input.labTrends.glucose)
    case BloodPressureCheck => BloodPressureRule(input.labTrends.bp)
    case CholesterolCheck => CholesterolRule(input.labTrends.cholesterol)
    case SleepCheck => SleepRule(input.sleepHours)
    case ActivityCheck => ActivityRule(input.activityLevel)
    case StressCheck => StressRule(input.stressLevel)
    case FamilyHistoryCheck => FamilyHistoryRule(input.familyHistory)
    case MentalHealthCheck => MentalHealthRule(input.mentalHealth)
  }

  /** The condition under which each rule pushes its reason, as the handler writes it; it holds
      exactly when the rule's outcome carries a reason. */
  predicate Fires(input: PredictionInput, k: Rule)
    ensures Fires(input, k) <==> RuleOutcomeOf(input, k).factor.Some?
  {
    match k
    case GlucoseCheck => input.labTrends.glucose > 140.0
    case BloodPressureCheck => input.labTrends.bp > 130.0
    case CholesterolCheck => input.labTrends.cholesterol > 240.0
    case SleepCheck => input.sleepHours < 6.0
    case ActivityCheck => input.activityLevel < 3.0
    case StressCheck => input.stressLevel > 3.0
    case FamilyHistoryCheck => |input.familyHistory| > 0
    case MentalHealthCheck => input.mentalHealth.anxiety > 5.0 || input.mentalHealth.depression > 5.0
  }

  /** Pushing one rule's labels adds the reason of rule `k` only if that rule is `k` and it fired. */
  lemma PushedReason(reasons: seq<string>, o: RuleOutcome, owner: Rule, k: Rule)
    requires o.factor.Some? ==> o.factor.value == RuleReason(owner)
    ensures RuleReason(k) in reasons + Labels(o) <==> RuleReason(k) in reasons || (o.factor.Some? && k == owner)
  {
    if o.factor.Some? && RuleReason(k) == RuleReason(owner) {
      ReasonRuleRoundTrip(k);
      ReasonRuleRoundTrip(owner);
    }
  }

  lemma FiresCases(input: PredictionInput, k: Rule)
    ensures Fires(input, k) <==>
      || (input.labTrends.glucose > 140.0 && k == GlucoseCheck)
      || (input.labTrends.bp > 130.0 && k == BloodPressureCheck)
      || (input.labTrends.cholesterol > 240.0 && k == CholesterolCheck)
      || (input.sleepHours < 6.0 && k == SleepCheck)
      || (input.activityLevel < 3.0 && k == ActivityCheck)
      || (input.stressLevel > 3.0 && k == StressCheck)
      || (|input.familyHistory| > 0 && k == FamilyHistoryCheck)
      || ((input.mentalHealth.anxiety > 5.0 || input.mentalHealth.depression > 5.0) && k == MentalHealthCheck)
  {
    match k
    case GlucoseCheck =>
    case BloodPressureCheck =>
    case CholesterolCheck =>
    case SleepCheck =>
    case ActivityCheck =>
    case StressCheck =>
    case FamilyHistoryCheck =>
    case MentalHealthCheck =>
  }

  /** Each reason appears in the list exactly when its rule's condition holds; in particular the
      mental-health reason appears iff anxiety or depression exceeds 5. */
  lemma ReasonIffFires(input: PredictionInput, k: Rule)
    ensures RuleReason(k) in Reasons(input) <==> Fires(input, k)
  {
    EightPushes(GlucoseRule(input.labTrends.glucose), BloodPressureRule(input.labTrends.bp),
                CholesterolRule(input.labTrends.cholesterol), SleepRule(input.sleepHours),
                ActivityRule(input.activityLevel), StressRule(input.stressLevel),
                FamilyHistoryRule(input.familyHistory), MentalHealthRule(input.mentalHealth), k);
    FiresCases(input, k);
  }

  /** Eight rules pushed in the handler's order: the reason of `k` is among their labels exactly
      when the rule `k` recorded one. */
  lemma EightPushes(o1: RuleOutcome, o2: RuleOutcome, o3: RuleOutcome, o4: RuleOutcome,
                    o5: RuleOutcome, o6: RuleOutcome, o7: RuleOutcome, o8: RuleOutcome, k: Rule)
    requires (o1.factor.Some? ==> o1.factor.value == GlucoseReason) && (o2.factor.Some? ==> o2.factor.value == BloodPressureReason)
      && (o3.factor.Some? ==> o3.factor.value == CholesterolReason) && (o4.factor.Some? ==> o4.factor.value == SleepReason)
      && (o5.factor.Some? ==> o5.factor.value == ActivityReason) && (o6.factor.Some? ==> o6.factor.value == StressReason)
      && (o7.factor.Some? ==> o7.factor.value == FamilyHistoryReason) && (o8.factor.Some? ==> o8.factor.value == MentalHealthReason)
    ensures RuleReason(k) in [] + Labels(o1) + Labels(o2) + Labels(o3) + Labels(o4) + Labels(o5) + Labels(o6) + Labels(o7) + Labels(o8)
      <==> || (o1.factor.Some? && k == GlucoseCheck) || (o2.factor.Some? && k == BloodPressureCheck)
           || (o3.factor.Some? && k == CholesterolCheck) || (o4.factor.Some? && k == SleepCheck)
           || (o5.factor.Some? && k == ActivityCheck) || (o6.factor.Some? && k == StressCheck)
           || (o7.factor.Some? && k == FamilyHistoryCheck) || (o8.factor.Some? && k == MentalHealthCheck)
  {
    var l: seq<string> := [];
    PushedReason(l, o1, GlucoseCheck, k);
    l := l + Labels(o1);
    PushedReason(l, o2, BloodPressureCheck, k);
    l := l + Labels(o2);
    PushedReason(l, o3, CholesterolCheck, k);
    l := l + Labels(o3);
    PushedReason(l, o4, SleepCheck, k);
    l := l + Labels(o4);
    PushedReason(l, o5, ActivityCheck, k);
    l := l + Labels(o5);
    PushedReason(l, o6, StressCheck, k);
    l := l + Labels(o6);
    PushedReason(l, o7, FamilyHistoryCheck, k);
    l := l + Labels(o7);
    PushedReason(l, o8, MentalHealthCheck, k);
  }

  /** `Math.min(100, riskScore)`: a cap at the top only. */
  function Cap(x: int): (r: int)
    ensures r <= 100
    ensures r == x || r == 100
    ensures x <= 100 ==> r == x
  {
    if x < 100 then x else 100
  }

  const LowText := "Low risk. Maintain your healthy lifestyle."
  const ModerateText := "Moderate risk. Consider lifestyle improvements (diet, exercise, stress management) and regular checkups."
  const HighText := "High risk. Strongly recommend consulting a doctor for a comprehensive evaluation."

  /** The 30/70 split of the recommendation's first sentence. */
  function LevelText(score: int): (t: string)
    ensures t == LowText <==> score < 30
    ensures t == ModerateText <==> 30 <= score < 70
    ensures t == HighText <==> score >= 70
  {
    if score < 30 then LowText else if score < 70 then ModerateText else HighText
  }

  /** The recommendation: the level sentence, then the key factors when there are any. */
  function Recommendation(score: int, reasons: seq<string>): (r: string)
    ensures LevelText(score) <= r
    ensures r == LevelText(score) <==> reasons == []
  {
    if |reasons| > 0 then
      var r := LevelText(score) + " Key factors: " + Join(reasons, ", ") + ".";
      PrefixOfConcat(LevelText(score), r[|LevelText(score)|..]);
      assert r[|LevelText(score)|..][0] == ' ';
      r
    else LevelText(score)
  }

  /** Every reason is named in the recommendation. */
  lemma RecommendationNamesReasons(score: int, reasons: seq<string>, i: nat)
    requires i < |reasons|
    ensures IsInfix(reasons[i], Recommendation(score, reasons))
  {
    JoinContainsItem(reasons, ", ", i);
    InfixWithin(reasons[i], LevelText(score) + " Key factors: ", Join(reasons, ", "), ".");
  }

  /** With reasons, the level sentence is followed by " Key factors: ", the reasons joined by ", ",
      and a closing full stop. */
  lemma RecommendationFormat(score: int, reasons: seq<string>)
    requires reasons != []
    ensures var r := Recommendation(score, reasons);
      |LevelText(score)| < |r| && r[|LevelText(score)|..] == " Key factors: " + Join(reasons, ", ") + "."
    ensures IsInfix(" Key factors: " + Join(reasons, ", "), Recommendation(score, reasons))
    ensures var r := Recommendation(score, reasons); r[|r| - 1] == '.'
  {
    var level, key, joined := LevelText(score), " Key factors: ", Join(reasons, ", ");
    var r := Recommendation(score, reasons);
    assert r == level + key + joined + ".";
    assert r[|level|..] == key + joined + ".";
    assert OccursAt(key + joined, r, |level|);
  }

  /** Consecutive reasons appear in the message side by side, in list order, separated by ", ". */
  lemma RecommendationOrdersReasons(score: int, reasons: seq<string>, i: nat)
    requires i + 1 < |reasons|
    ensures IsInfix(reasons[i] + ", " + reasons[i + 1], Recommendation(score, reasons))
  {
    JoinAdjacent(reasons, ", ", i);
    InfixWithin(reasons[i] + ", " + reasons[i + 1], LevelText(score) + " Key factors: ", Join(reasons, ", "), ".");
  }

  /** The message ends with the last reason and the full stop. */
  lemma RecommendationEndsWithLastReason(score: int, reasons: seq<string>)
    requires reasons != []
    ensures var r, last := Recommendation(score, reasons), reasons[|reasons| - 1] + ".";
      |last| <= |r| && r[|r| - |last|..] == last
  {
    var n := |reasons|;
    var level, key, joined := LevelText(score), " Key factors: ", Join(reasons, ", ");
    var last := reasons[n - 1];
    var front: string;
    if n == 1 {
      front := level + key;
      assert joined == last;
    } else {
      assert reasons[..n - 1] + [last] == reasons;
      JoinSnoc(reasons[..n - 1], last, ", ");
      front := level + key + Join(reasons[..n - 1], ", ") + ", ";
    }
    assert Recommendation(score, reasons) == front + (last + ".");
  }

  /** The eight rules applied in order to a score starting at 0 and an empty reason list. */
  method ScoreRules(input: PredictionInput) returns (riskScore: int, reasons: seq<string>)
    ensures riskScore == RawScore(input)
    ensures reasons == Reasons(input)
  {
    riskScore := 0;
    reasons := [];
    riskScore, reasons := ApplyRule(riskScore, reasons, GlucoseRule(input.labTrends.glucose));
    riskScore, reasons := ApplyRule(riskScore, reasons, BloodPressureRule(input.labTrends.bp));
    riskScore, reasons := ApplyRule(riskScore, reasons, CholesterolRule(input.labTrends.cholesterol));
    riskScore, reasons := ApplyRule(riskScore, reasons, SleepRule(input.sleepHours));
    riskScore, reasons := ApplyRule(riskScore, reasons, ActivityRule(input.activityLevel));
    riskScore, reasons := ApplyRule(riskScore, reasons, StressRule(input.stressLevel));
    riskScore, reasons := ApplyRule(riskScore, reasons, FamilyHistoryRule(input.familyHistory));
    riskScore, reasons := ApplyRule(riskScore, reasons, MentalHealthRule(input.mentalHealth));
  }

  /** Builds the recommendation: the level sentence, extended by `+=` when there are reasons. */
  method Recommend(riskScore: int, reasons: seq<string>) returns (recommendation: string)
    ensures recommendation == Recommendation(riskScore, reasons)
  {
    if riskScore < 30 {
      recommendation := LowText;
    } else if riskScore < 70 {
      recommendation := ModerateText;
    } else {
      recommendation := HighText;
    }
    assert recommendation == LevelText(riskScore);

    if |reasons| > 0 {
      recommendation := recommendation + " Key factors: " + Join(reasons, ", ") + ".";
    }
  }

  /** The predict handler's computation, from the validated input to `(risk_score, recommendation)`. */
  method Predict(input: PredictionInput) returns (riskScore: int, recommendation: string)
    requires SchemaValid(input)
    ensures 0 <= riskScore <= 100
    ensures riskScore == Cap(RawScore(input))
    ensures recommendation == Recommendation(riskScore, Reasons(input))
    ensures Reasons(input) != [] ==>
      recommendation[|LevelText(riskScore)|..] == " Key factors: " + Join(Reasons(input), ", ") + "."
    ensures forall i | 0 <= i < |Reasons(input)| - 1 ::
      IsInfix(Reasons(input)[i] + ", " + Reasons(input)[i + 1], recommendation)
  {
    var reasons;
    riskScore, reasons := ScoreRules(input);
    riskScore := Cap(riskScore);
    recommendation := Recommend(riskScore, reasons);
    if reasons != [] {
      RecommendationFormat(riskScore, reasons);
    }
    forall i | 0 <= i < |reasons| - 1
      ensures IsInfix(reasons[i] + ", " + reasons[i + 1], recommendation)
    {
      RecommendationOrdersReasons(riskScore, reasons, i);
    }
  }

  /** An input inside every healthy band scores 0 and gets the bare low-risk sentence. */
  lemma HealthyInputScoresZero(input: PredictionInput)
    requires input.labTrends.glucose <= 100.0 && input.labTrends.bp <= 120.0 && input.labTrends.cholesterol <= 200.0
    requires input.sleepHours >= 6.0 && input.activityLevel >= 3.0 && input.stressLevel <= 3.0
    requires input.familyHistory == []
    requires input.mentalHealth.anxiety <= 5.0 && input.mentalHealth.depression <= 5.0
    ensures Cap(RawScore(input)) == 0
    ensures Reasons(input) == []
    ensures Recommendation(Cap(RawScore(input)), Reasons(input)) == LowText
  {
  }
}
