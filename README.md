# Silent-disease risk scoring, modelled in Dafny

The repository ships two independent rule-based health-risk scorers, plus a few small helpers around them.
This project models each in Dafny and proves what their code promises.

- **Client engine** (`early-warn-ai-main/src/utils/riskAnalysis.ts`), in module `RiskAnalysis`.
  - Two validators each collect every field-level error into a list.
  - `analyzeRisk` adds up a signed score over ten ordered if/else-if tiers and records a factor label for the tiers that carry one.
  - It clamps the score to [0,100] and classifies it as low (< 30), moderate (< 60) or high.
  - It builds an explanation from the first two or three factors and a fixed, category-specific list of recommendations.
  - The records, enumerations and `VALIDATION_RANGES` it uses are in `HealthTypes` (`HealthGuardAI/src/types/health.ts`).
- **Server engine** (the body of the `POST /api/predict` handler), in module `ServerPredict`.
  - A second rule table covers glucose, blood pressure, cholesterol, sleep, activity, stress, family history and mental health.
  - The score is capped only at 100.
  - The recommendation text is chosen with a 30/70 split and gets " Key factors: …" appended when any reason fired.
- **Score badge** (`RiskIndicator.tsx`), in module `RiskIndicator`.
  - Bands the server score at 40/70 into a label, a colour class and a gradient.
  - Picks the ring colour at line 46 and computes the ring's dash offset `440 - 440*score/100`.
- **`buildUrl`** (`shared/routes.ts`), in module `SharedRoutes`.
  - Replaces the first occurrence of each `:key` placeholder, in order, using JavaScript `String.prototype.replace` semantics for a string pattern.
  - This includes the `$$`, `$&`, `` $` `` and `$'` patterns a replacement string may contain.
- **`Disagreements`** states where the variants contradict each other:
  - a server score of 30-39 reads "Moderate risk." but shows a "Low Risk" badge;
  - a score of 60-69 is high for the client but moderate for the server;
  - the two engines weight glucose 150 differently.
- **`Common`** holds the shared pieces:
  - the rule-outcome type and `Option`;
  - `Array.prototype.join` and `slice`;
  - substring and subsequence predicates;
  - decimal rendering of naturals.

How the model is built:
- The code that works step by step in the source (pushing into `errors`, `riskScore +=`, `recommendation +=`, `url = url.replace` in a loop) is written as Dafny methods.
- Each such method is proved equal to a specification function.
- The properties the source promises are then proved as lemmas about those functions.

Some facts about the code that the proofs make concrete:
- Take the server profile {glucose 150, bp 135, cholesterol 210, sleep 5, activity 2, stress 4, one family-history entry, anxiety 3, depression 2}:
  - glucose > 140 and bp > 130 hit their upper tiers (+20 each);
  - cholesterol 210 is in the lower band (+10, no reason);
  - sleep, activity, stress and family history add 10 each;
  - so the raw score is 90 and the text is the high one (`Disagreements.ExampleProfile`).
- The client checklists have exactly 4 items for low, 5 for moderate, and 5 or 6 for high (`RiskAnalysis.Advice`).
- Client confidence comes from `Math.random`. The model takes the draw as a parameter (`RiskAnalysis.Confidence`).

How inputs are represented:
- **Client numbers.** The numeric inputs are `real`. The form uses `Number(...)`, so values can be fractional.
- **BMI.** BMI is an input given in integer tenths, so the thresholds 18.5/25/30 are 185/250/300. `calculateBMI` is not modelled.
- **BMI in the text.** The low explanation renders BMI as JavaScript renders a one-decimal number: `TenthsText`, so 22.0 prints as "22" and 22.5 as "22.5".
- **Missing properties.** `Partial<…>` records are datatypes of `Option`s: a missing property is `None`.
- **Server input.** The server input is a record of `real`s. The zod bounds sleep 0-24, activity 1-5 and stress 1-5 (`HealthGuardAI/Silent-Sentinel/shared/schema.ts:43-45`) are the precondition `SchemaValid` of `ServerPredict.Predict`.

## Model

| member | source | states |
|---|---|---|
| Common.Labels | early-warn-ai-main/src/utils/riskAnalysis.ts:69-71 | an outcome contributes at most one label, and none exactly when it carries no factor |
| Common.ApplyRule | early-warn-ai-main/src/utils/riskAnalysis.ts:69-71 | one `riskScore += d; factors.push(l)` step adds exactly the outcome's delta and appends exactly its label, if any |
| Common.Take | early-warn-ai-main/src/utils/riskAnalysis.ts:186-189 | `slice(0, n)` has length min(n, length) and is a prefix of the list |
| Common.Join | early-warn-ai-main/src/utils/riskAnalysis.ts:186-189 | `join` of a non-empty list starts with its first item |
| Common.JoinContainsItem | HealthGuardAI/Silent-Sentinel/server/routes.ts:90 | every item of a list occurs as a substring of its `join` |
| Common.JoinSnoc | HealthGuardAI/Silent-Sentinel/server/routes.ts:90 | joining one more item appends the separator and that item to the join of the others |
| Common.JoinAdjacent | HealthGuardAI/Silent-Sentinel/server/routes.ts:90 | neighbouring items appear side by side in the join, in list order, with the separator between them |
| Common.IsInfix | HealthGuardAI/Silent-Sentinel/shared/routes.ts:42 | a substring is no longer than the string, and every prefix is a substring |
| Common.InfixHead | HealthGuardAI/Silent-Sentinel/shared/routes.ts:42 | a non-empty substring's first character occurs in the string |
| Common.InfixWithin | early-warn-ai-main/src/utils/riskAnalysis.ts:186-190 | a substring stays a substring when text is put before and after the string, as a template literal does |
| Common.SubsequenceDistinct | early-warn-ai-main/src/utils/riskAnalysis.ts:3-57 | a subsequence of a list without duplicates has no duplicates |
| Common.NatText | early-warn-ai-main/src/utils/riskAnalysis.ts:11 | a natural renders as at least one decimal digit, with no leading zero unless it is 0 |
| Common.NatTextValue | early-warn-ai-main/src/utils/riskAnalysis.ts:11 | reading the digits back gives the number |
| Common.NatTextInjective | early-warn-ai-main/src/utils/riskAnalysis.ts:11 | distinct naturals render differently |
| HealthTypes.ParseRiskLevel | HealthGuardAI/src/types/health.ts:22-28 | exactly the strings "low", "moderate", "high" name a risk level, and parsing returns the level with that name |
| HealthTypes.ParseActivity | HealthGuardAI/src/types/health.ts:17 | exactly "low", "moderate", "high" name a physical-activity level |
| HealthTypes.ParseStress | HealthGuardAI/src/types/health.ts:19 | exactly "low", "medium", "high" name a stress level (medium, not moderate) |
| HealthTypes.EnumNamesRoundTrip | HealthGuardAI/src/types/health.ts:17-28 | rendering any level as its source string and parsing it back gives the level back |
| HealthTypes.ParseField | HealthGuardAI/src/types/health.ts:1-20 | a parsed property name renders back to the same name |
| HealthTypes.FieldNameRoundTrip | HealthGuardAI/src/types/health.ts:30-33 | distinct validated properties carry distinct `field` names in a `ValidationError` |
| HealthTypes.ValidationRange | HealthGuardAI/src/types/health.ts:35-43 | the seven numeric properties have a range and the other four none; every range has 0 < min < max |
| RiskAnalysis.TrimStart | early-warn-ai-main/src/utils/riskAnalysis.ts:6 | the result is a suffix of the input that starts with a non-whitespace character or is empty |
| RiskAnalysis.TrimStartDropsBlank | early-warn-ai-main/src/utils/riskAnalysis.ts:6 | everything trimStart removes is whitespace |
| RiskAnalysis.TrimEnd | early-warn-ai-main/src/utils/riskAnalysis.ts:6 | the result is a prefix of the input that ends with a non-whitespace character or is empty |
| RiskAnalysis.TrimEndDropsBlank | early-warn-ai-main/src/utils/riskAnalysis.ts:6 | everything trimEnd removes is whitespace |
| RiskAnalysis.BlankSuffix | early-warn-ai-main/src/utils/riskAnalysis.ts:6 | any suffix of an all-whitespace string is all whitespace |
| RiskAnalysis.TrimEmptyIffBlank | early-warn-ai-main/src/utils/riskAnalysis.ts:6 | `trim()` is empty exactly when the name is empty or whitespace only, so a whitespace-only name fails |
| RiskAnalysis.Trim | early-warn-ai-main/src/utils/riskAnalysis.ts:6 | `trim()` is no longer than the input, and neither starts nor ends with whitespace |
| RiskAnalysis.NumberFailsIffOutside | early-warn-ai-main/src/utils/riskAnalysis.ts:10 | with min > 0, the check "falsy, below min or above max" fails exactly when the value is missing or outside the closed range (zero is below every min) |
| RiskAnalysis.FieldErrorInjective | early-warn-ai-main/src/utils/riskAnalysis.ts:3-57 | different properties produce different error records |
| RiskAnalysis.RangeMessageQuotesBounds | early-warn-ai-main/src/utils/riskAnalysis.ts:11 | a range message contains both bounds in decimal |
| RiskAnalysis.FieldMessageQuotesRange | early-warn-ai-main/src/utils/riskAnalysis.ts:11-45 | every ranged field's message quotes the min and max of its `VALIDATION_RANGES` entry |
| RiskAnalysis.ErrorsForDistinct | early-warn-ai-main/src/utils/riskAnalysis.ts:3-57 | the error records for distinct fields are distinct |
| RiskAnalysis.PushedNames | early-warn-ai-main/src/utils/riskAnalysis.ts:6-8 | a guarded push adds the field's error iff its check failed and keeps the errors already there |
| RiskAnalysis.PushedInOrder | early-warn-ai-main/src/utils/riskAnalysis.ts:3-27 | a guarded push keeps the errors a subsequence of the checks made so far, in check order |
| RiskAnalysis.PushIfFailed | early-warn-ai-main/src/utils/riskAnalysis.ts:6-8 | one `if (…) errors.push(…)` step equals `Pushed` |
| RiskAnalysis.FiveChecksName | early-warn-ai-main/src/utils/riskAnalysis.ts:3-27 | after the five guarded pushes, a field's error is present iff that field's check failed |
| RiskAnalysis.PatientErrorNamesField | early-warn-ai-main/src/utils/riskAnalysis.ts:3-27 | a field's error is reported iff that field fails: every failing field is reported, not only the first |
| RiskAnalysis.PatientErrors | early-warn-ai-main/src/utils/riskAnalysis.ts:3-27 | at most five errors are reported |
| RiskAnalysis.PatientErrorsInOrder | early-warn-ai-main/src/utils/riskAnalysis.ts:3-27 | errors come in the order fullName, age, gender, height, weight: a subsequence of the per-field errors in check order |
| RiskAnalysis.PatientErrorsDistinct | early-warn-ai-main/src/utils/riskAnalysis.ts:3-27 | no error is reported twice |
| RiskAnalysis.PatientErrorsEmptyIffValid | early-warn-ai-main/src/utils/riskAnalysis.ts:3-27 | the error list is empty iff all five checks pass |
| RiskAnalysis.ValidatePatientDetails | early-warn-ai-main/src/utils/riskAnalysis.ts:3-27 | the method returns the specified list, which names exactly the failing fields, in order, without duplicates, and is empty iff the details are valid |
| RiskAnalysis.SixChecksName | early-warn-ai-main/src/utils/riskAnalysis.ts:29-57 | after the six guarded pushes, a field's error is present iff that field's check failed |
| RiskAnalysis.MetricsErrorNamesField | early-warn-ai-main/src/utils/riskAnalysis.ts:29-57 | a metric's error is reported iff that metric fails |
| RiskAnalysis.MetricsErrors | early-warn-ai-main/src/utils/riskAnalysis.ts:29-57 | at most six errors are reported |
| RiskAnalysis.MetricsErrorsInOrder | early-warn-ai-main/src/utils/riskAnalysis.ts:29-57 | errors come in the order systolicBP, diastolicBP, bloodSugar, heartRate, physicalActivity, stressLevel: a subsequence of the per-field errors in check order |
| RiskAnalysis.MetricsErrorsDistinct | early-warn-ai-main/src/utils/riskAnalysis.ts:29-57 | no error is reported twice |
| RiskAnalysis.MetricsErrorsEmptyIffValid | early-warn-ai-main/src/utils/riskAnalysis.ts:29-57 | the error list is empty iff all six checks pass |
| RiskAnalysis.ValidateHealthMetrics | early-warn-ai-main/src/utils/riskAnalysis.ts:29-57 | the method returns the specified list, which names exactly the failing metrics, in order, without duplicates, and is empty iff the metrics are valid |
| RiskAnalysis.AgeRule | early-warn-ai-main/src/utils/riskAnalysis.ts:69-74 | the age tier adds 0-10; a label only with a positive delta; without a label at most +5 (36-45) |
| RiskAnalysis.BmiRule | early-warn-ai-main/src/utils/riskAnalysis.ts:78-87 | the BMI tier adds 0-15 and pushes at most one BMI label; an unlabelled outcome adds nothing |
| RiskAnalysis.BloodPressureRule | early-warn-ai-main/src/utils/riskAnalysis.ts:90-96 | the blood-pressure tier adds 0-20 and pushes at most one blood-pressure label |
| RiskAnalysis.BloodSugarRule | early-warn-ai-main/src/utils/riskAnalysis.ts:99-108 | the blood-sugar tier adds 0-20 and pushes at most one blood-sugar label |
| RiskAnalysis.HeartRateRule | early-warn-ai-main/src/utils/riskAnalysis.ts:111-117 | the heart-rate tier adds 0-10 and pushes at most one heart-rate label |
| RiskAnalysis.SmokingRule | early-warn-ai-main/src/utils/riskAnalysis.ts:120-123 | smoking adds 0 or 12, and labels exactly when it adds |
| RiskAnalysis.AlcoholRule | early-warn-ai-main/src/utils/riskAnalysis.ts:125-128 | alcohol adds 0 or 5, and labels exactly when it adds |
| RiskAnalysis.ActivityRule | early-warn-ai-main/src/utils/riskAnalysis.ts:130-135 | the activity tier adds between -5 and 8; an unlabelled outcome never adds points |
| RiskAnalysis.FamilyHistoryRule | early-warn-ai-main/src/utils/riskAnalysis.ts:137-140 | family history adds 0 or 10, and labels exactly when it adds |
| RiskAnalysis.StressRule | early-warn-ai-main/src/utils/riskAnalysis.ts:142-147 | the stress tier adds 0-8; without a label at most +4 (medium stress) |
| RiskAnalysis.RawScore | early-warn-ai-main/src/utils/riskAnalysis.ts:65-147 | the unclamped sum of the ten tiers lies in [-5, 118] |
| RiskAnalysis.Factors | early-warn-ai-main/src/utils/riskAnalysis.ts:66-147 | at most ten factor labels are pushed |
| RiskAnalysis.FactorsInRuleOrder | early-warn-ai-main/src/utils/riskAnalysis.ts:68-147 | the factors are a subsequence of the tier labels in evaluation order: age, BMI, blood pressure, blood sugar, heart rate, smoking, alcohol, activity, family history, stress |
| RiskAnalysis.LabelCount | early-warn-ai-main/src/utils/riskAnalysis.ts:68-147 | one tier contributes one label of a group iff it pushes a label of that group |
| RiskAnalysis.FactorsCount | early-warn-ai-main/src/utils/riskAnalysis.ts:68-147 | the count of a group's labels among the factors is the sum of the tiers' contributions |
| RiskAnalysis.BmiLabelsOnlyInBmiTier | early-warn-ai-main/src/utils/riskAnalysis.ts:78-87 | no other tier can push a BMI label |
| RiskAnalysis.BmiLabelAtMostOnce | early-warn-ai-main/src/utils/riskAnalysis.ts:78-87 | at most one BMI label is ever pushed |
| RiskAnalysis.BloodPressureLabelsOnlyInBloodPressureTier | early-warn-ai-main/src/utils/riskAnalysis.ts:90-96 | no other tier can push a blood-pressure label |
| RiskAnalysis.BloodPressureLabelAtMostOnce | early-warn-ai-main/src/utils/riskAnalysis.ts:90-96 | at most one blood-pressure label is ever pushed |
| RiskAnalysis.BloodSugarLabelsOnlyInBloodSugarTier | early-warn-ai-main/src/utils/riskAnalysis.ts:99-108 | no other tier can push a blood-sugar label |
| RiskAnalysis.BloodSugarLabelAtMostOnce | early-warn-ai-main/src/utils/riskAnalysis.ts:99-108 | at most one blood-sugar label is ever pushed |
| RiskAnalysis.HeartRateLabelsOnlyInHeartRateTier | early-warn-ai-main/src/utils/riskAnalysis.ts:111-117 | no other tier can push a heart-rate label |
| RiskAnalysis.HeartRateLabelAtMostOnce | early-warn-ai-main/src/utils/riskAnalysis.ts:111-117 | at most one heart-rate label is ever pushed |
| RiskAnalysis.OutcomesWithinLabels | early-warn-ai-main/src/utils/riskAnalysis.ts:68-147 | ten outcomes that each add at most 20 per label (+5 and +4 slack for age and stress) sum to at most 9 + 20 × their label count |
| RiskAnalysis.ScoreNeedsFactors | early-warn-ai-main/src/utils/riskAnalysis.ts:68-147 | the raw score is at most 9 + 20 × the number of factors |
| RiskAnalysis.SilentTiers | early-warn-ai-main/src/utils/riskAnalysis.ts:72-74 | age 36-45 adds +5, high activity −5 and medium stress +4, none of them with a label |
| RiskAnalysis.RawScoreExtremes | early-warn-ai-main/src/utils/riskAnalysis.ts:68-147 | the bounds are reached: one profile scores 118 raw, another −5 |
| RiskAnalysis.Clamp | early-warn-ai-main/src/utils/riskAnalysis.ts:150 | `max(0, min(100, x))` lies in [0,100], is x inside it, 0 below and 100 above |
| RiskAnalysis.ClientLevel | early-warn-ai-main/src/utils/riskAnalysis.ts:153-160 | low iff score < 30, moderate iff 30 ≤ score < 60, high iff score ≥ 60 |
| RiskAnalysis.ClassifyScore | early-warn-ai-main/src/utils/riskAnalysis.ts:153-160 | the if/else-if assignment of `riskLevel` computes the specified level |
| RiskAnalysis.ClientLevelMonotone | early-warn-ai-main/src/utils/riskAnalysis.ts:153-160 | a higher score never yields a lower level |
| RiskAnalysis.LevelNeedsFactors | early-warn-ai-main/src/utils/riskAnalysis.ts:150-160 | a moderate result has at least two factors and a high one at least three, so the explanation always has factors to name |
| RiskAnalysis.FirstName | early-warn-ai-main/src/utils/riskAnalysis.ts:181 | `name.split(' ')[0]` is the prefix of the name up to, not including, the first space |
| RiskAnalysis.TenthsText | early-warn-ai-main/src/utils/riskAnalysis.ts:184 | a one-decimal BMI prints with a decimal point iff its tenths digit is non-zero |
| RiskAnalysis.TenthsTextInjective | early-warn-ai-main/src/utils/riskAnalysis.ts:184 | distinct BMI values print differently |
| RiskAnalysis.TopFactors | early-warn-ai-main/src/utils/riskAnalysis.ts:186-189 | for moderate with two factors it is the first two joined by " and "; otherwise, with three factors, the first three joined by ", " |
| RiskAnalysis.GenerateExplanation | early-warn-ai-main/src/utils/riskAnalysis.ts:180-192 | the low text starts "Great news, " and the first name; the other texts start with the first name and ", " |
| RiskAnalysis.ExplanationNamesTopFactors | early-warn-ai-main/src/utils/riskAnalysis.ts:183-191 | the low text contains the BMI; the moderate text contains each of the first two factors; the high text each of the first three |
| RiskAnalysis.ExplanationJoinsTopFactors | early-warn-ai-main/src/utils/riskAnalysis.ts:185-190 | the moderate text contains `f0 and f1`, the high text `f0, f1, f2`: the top factors in order with their separators |
| RiskAnalysis.Advice | early-warn-ai-main/src/utils/riskAnalysis.ts:194-221 | 4 items for low, 5 for moderate, 5 for high or 6 when smoking; the cessation item is present iff high and smoking |
| RiskAnalysis.GenerateRecommendations | early-warn-ai-main/src/utils/riskAnalysis.ts:194-221 | the pushes produce exactly the specified checklist for the level |
| RiskAnalysis.Confidence | early-warn-ai-main/src/utils/riskAnalysis.ts:169 | `85 + floor(random × 10)` for a draw in [0,1) lies in [85, 94] |
| RiskAnalysis.ScoreTiers | early-warn-ai-main/src/utils/riskAnalysis.ts:65-147 | the `+=`/`-=`/`push` sequence computes the specified raw score and factor list |
| RiskAnalysis.AnalyzeRisk | early-warn-ai-main/src/utils/riskAnalysis.ts:64-178 | the result's score is the clamped raw score, its level the classification of that score, its confidence from the draw, its explanation and recommendations those of that level and the factors |
| RiskAnalysis.AnalysisNamesTopFactors | early-warn-ai-main/src/utils/riskAnalysis.ts:163-191 | for a moderate (high) result the first two (three) factors exist, each appears in the explanation, and the explanation contains them in order joined by " and " (", ") |
| ServerPredict.LabRule | HealthGuardAI/Silent-Sentinel/server/routes.ts:22-43 | a lab tier pushes its reason iff over the upper threshold (+20), adds 10 silently in the lower band and 0 otherwise |
| ServerPredict.FlagRule | HealthGuardAI/Silent-Sentinel/server/routes.ts:46-73 | a single-threshold outcome carries its own reason exactly when the rule fires, and adds 10 exactly when it carries a reason |
| ServerPredict.GlucoseRule | HealthGuardAI/Silent-Sentinel/server/routes.ts:22-27 | glucose > 140 adds 20 with "High glucose levels", > 100 adds 10 with no reason, otherwise 0 |
| ServerPredict.BloodPressureRule | HealthGuardAI/Silent-Sentinel/server/routes.ts:30-35 | bp > 130 adds 20 with "Elevated blood pressure", > 120 adds 10 with no reason, otherwise 0 |
| ServerPredict.CholesterolRule | HealthGuardAI/Silent-Sentinel/server/routes.ts:38-43 | cholesterol > 240 adds 20 with "High cholesterol", > 200 adds 10 with no reason, otherwise 0 |
| ServerPredict.SleepRule | HealthGuardAI/Silent-Sentinel/server/routes.ts:46-49 | sleep < 6 adds 10 with "Insufficient sleep", otherwise nothing |
| ServerPredict.ActivityRule | HealthGuardAI/Silent-Sentinel/server/routes.ts:52-55 | activity < 3 adds 10 with "Low physical activity", otherwise nothing |
| ServerPredict.StressRule | HealthGuardAI/Silent-Sentinel/server/routes.ts:58-61 | stress > 3 adds 10 with "High stress levels", otherwise nothing |
| ServerPredict.MentalHealthRule | HealthGuardAI/Silent-Sentinel/server/routes.ts:70-73 | anxiety > 5 or depression > 5 adds 10 with "Mental health indicators", otherwise nothing |
| ServerPredict.FamilyHistoryRule | HealthGuardAI/Silent-Sentinel/server/routes.ts:64-67 | family history adds exactly 10 per entry and pushes one reason whatever the count |
| ServerPredict.RawScore | HealthGuardAI/Silent-Sentinel/server/routes.ts:17-73 | the uncapped score is at least 10 × the family-history length, so never negative |
| ServerPredict.Reasons | HealthGuardAI/Silent-Sentinel/server/routes.ts:18-73 | at most eight reasons are pushed |
| ServerPredict.ReasonsInRuleOrder | HealthGuardAI/Silent-Sentinel/server/routes.ts:18-73 | reasons are a subsequence of the rules' reasons in evaluation order |
| ServerPredict.ReasonRule | HealthGuardAI/Silent-Sentinel/server/routes.ts:24-72 | a reason read back names the rule that pushes it |
| ServerPredict.ReasonRuleRoundTrip | HealthGuardAI/Silent-Sentinel/server/routes.ts:24-72 | the eight rules push eight distinct reasons |
| ServerPredict.PushedReason | HealthGuardAI/Silent-Sentinel/server/routes.ts:24 | one guarded push adds a rule's reason iff that rule fired |
| ServerPredict.EightPushes | HealthGuardAI/Silent-Sentinel/server/routes.ts:22-73 | after the eight guarded pushes, a rule's reason is present iff that rule's outcome carried it |
| ServerPredict.RuleOutcomeOf | HealthGuardAI/Silent-Sentinel/server/routes.ts:22-73 | a rule's outcome can only carry that rule's own reason |
| ServerPredict.Fires | HealthGuardAI/Silent-Sentinel/server/routes.ts:22-73 | a rule fires exactly when its outcome carries a reason |
| ServerPredict.ReasonIffFires | HealthGuardAI/Silent-Sentinel/server/routes.ts:22-73 | a rule's reason is in the list iff the rule fired |
| ServerPredict.Cap | HealthGuardAI/Silent-Sentinel/server/routes.ts:76 | `min(100, x)` is at most 100, and x whenever x ≤ 100 |
| ServerPredict.LevelText | HealthGuardAI/Silent-Sentinel/server/routes.ts:79-86 | the low text iff score < 30, the moderate text iff 30 ≤ score < 70, the high text iff score ≥ 70 |
| ServerPredict.Recommendation | HealthGuardAI/Silent-Sentinel/server/routes.ts:79-91 | the message starts with the level text and is longer exactly when some reason fired |
| ServerPredict.RecommendationNamesReasons | HealthGuardAI/Silent-Sentinel/server/routes.ts:89-91 | every reason appears in the message |
| ServerPredict.RecommendationFormat | HealthGuardAI/Silent-Sentinel/server/routes.ts:89-91 | with reasons, the text after the level sentence is exactly " Key factors: ", the reasons joined by ", ", and "."; the message ends with "." |
| ServerPredict.RecommendationOrdersReasons | HealthGuardAI/Silent-Sentinel/server/routes.ts:90 | consecutive reasons appear side by side in the message, in list order, as `a, b` |
| ServerPredict.RecommendationEndsWithLastReason | HealthGuardAI/Silent-Sentinel/server/routes.ts:90 | the message ends with the last reason followed by "." |
| ServerPredict.ScoreRules | HealthGuardAI/Silent-Sentinel/server/routes.ts:17-73 | the `+=`/`push` sequence computes the specified score and reasons |
| ServerPredict.Recommend | HealthGuardAI/Silent-Sentinel/server/routes.ts:79-91 | the assignment and `+=` build the specified message |
| ServerPredict.Predict | HealthGuardAI/Silent-Sentinel/server/routes.ts:17-91 | for schema-valid input the score lies in [0,100] and is the capped raw score; the message is that of the score and the reasons: with reasons, " Key factors: " and the reasons joined by ", " and ".", with each pair of consecutive reasons side by side in rule order |
| ServerPredict.HealthyInputScoresZero | HealthGuardAI/Silent-Sentinel/server/routes.ts:22-91 | an input under every threshold scores 0, has no reasons and gets the bare low message |
| RiskIndicator.BandOf | HealthGuardAI/Silent-Sentinel/client/src/components/RiskIndicator.tsx:15-23 | low iff score < 40, moderate iff 40 ≤ score < 70, high iff score ≥ 70 |
| RiskIndicator.BandBadge | HealthGuardAI/Silent-Sentinel/client/src/components/RiskIndicator.tsx:11-23 | the label is "Low Risk", "Moderate Risk" or "High Risk" exactly for the low, moderate or high band |
| RiskIndicator.LabelIffBand | HealthGuardAI/Silent-Sentinel/client/src/components/RiskIndicator.tsx:11-23 | the label is "Low Risk" iff score < 40, "Moderate Risk" iff 40 ≤ score < 70, "High Risk" iff score ≥ 70 |
| RiskIndicator.ChooseBadge | HealthGuardAI/Silent-Sentinel/client/src/components/RiskIndicator.tsx:11-23 | the defaults overwritten by the if/else-if give the badge of the score's band |
| RiskIndicator.RingColor | HealthGuardAI/Silent-Sentinel/client/src/components/RiskIndicator.tsx:46 | the ring colour is the text colour of the score's band, the band the badge label names |
| RiskIndicator.DashOffset | HealthGuardAI/Silent-Sentinel/client/src/components/RiskIndicator.tsx:50 | for a score in [0,100] the offset lies in [0,440] |
| RiskIndicator.DashOffsetShape | HealthGuardAI/Silent-Sentinel/client/src/components/RiskIndicator.tsx:48-50 | the offset is 440 at score 0, 0 at score 100, and non-increasing in the score |
| SharedRoutes.FindFrom | HealthGuardAI/Silent-Sentinel/shared/routes.ts:43 | the search from an index finds the first occurrence at or after it, or reports none exists |
| SharedRoutes.IndexOf | HealthGuardAI/Silent-Sentinel/shared/routes.ts:42-43 | an occurrence is found iff `includes` holds, and it is the first one |
| SharedRoutes.Substitution | HealthGuardAI/Silent-Sentinel/shared/routes.ts:43 | a replacement with no `$` is inserted literally |
| SharedRoutes.ReplaceFirst | HealthGuardAI/Silent-Sentinel/shared/routes.ts:42-43 | without an occurrence the string is unchanged; with one, the text before the first occurrence is kept |
| SharedRoutes.ReplaceFirstPlain | HealthGuardAI/Silent-Sentinel/shared/routes.ts:43 | `replace` with a plain value swaps only the first occurrence and keeps the text before and after |
| SharedRoutes.ApplyParam | HealthGuardAI/Silent-Sentinel/shared/routes.ts:42-43 | when `:key` does not occur in the url, and in particular when the url has no `:`, the url is unchanged |
| SharedRoutes.ApplyParams | HealthGuardAI/Silent-Sentinel/shared/routes.ts:41-46 | a url without a `:` is unchanged by any list of entries |
| SharedRoutes.ApplyParamsConcat | HealthGuardAI/Silent-Sentinel/shared/routes.ts:41-46 | entries apply in order, each to the previous result |
| SharedRoutes.BuildUrl | HealthGuardAI/Silent-Sentinel/shared/routes.ts:38-48 | the loop computes the in-order application of the entries; with no params or an empty list the path is returned unchanged |
| SharedRoutes.FirstPlaceholder | HealthGuardAI/Silent-Sentinel/shared/routes.ts:42-43 | the first `:key` after colon-free text is found right after that text |
| SharedRoutes.FillFirstPlaceholder | HealthGuardAI/Silent-Sentinel/shared/routes.ts:42-43 | a key fills its first placeholder with the plain value, keeping the rest; `:id` also matches inside `:idx` |
| SharedRoutes.ValueCanIntroducePlaceholder | HealthGuardAI/Silent-Sentinel/shared/routes.ts:41-46 | a later key matches a placeholder introduced by an earlier value |
| SharedRoutes.MatchedPattern | HealthGuardAI/Silent-Sentinel/shared/routes.ts:43 | the replacement `$&` stands for the matched text |
| SharedRoutes.DollarValueKeepsPlaceholder | HealthGuardAI/Silent-Sentinel/shared/routes.ts:43 | a value of `$&` puts the placeholder back, so the url is unchanged |
| Disagreements.ModerateTextLowBadge | HealthGuardAI/Silent-Sentinel/client/src/components/RiskIndicator.tsx:11-23 | a server score in [30,40) gets the moderate text but the "Low Risk" badge |
| Disagreements.ScoreThirtyFive | HealthGuardAI/Silent-Sentinel/server/routes.ts:82-83 | score 35 reads "Moderate risk." while the badge says "Low Risk" |
| Disagreements.HighClientModerateServer | early-warn-ai-main/src/utils/riskAnalysis.ts:154-160 | a score in [60,70) is high for the client engine and moderate for the server text and badge |
| Disagreements.GlucoseWeightsDiffer | HealthGuardAI/Silent-Sentinel/server/routes.ts:22-24 | glucose 150 adds 12 in the client engine and 20 on the server |
| Disagreements.ExampleProfile | HealthGuardAI/Silent-Sentinel/server/routes.ts:22-86 | the profile {150, 135, 210, sleep 5, activity 2, stress 4, one history entry} scores 90 raw and gets the high text |

## Left out

- `calculateBMI` (`early-warn-ai-main/src/utils/riskAnalysis.ts:59-62`) uses floating-point division and `toFixed(1)`. BMI is therefore an input in integer tenths, and the float computation is not modelled.
- `Math.random` (`riskAnalysis.ts:169`) is a parameter `random` in [0,1).
- `RiskAnalysis.Confidence`: floors the exact real product `random × 10`, while JavaScript floors the product rounded to a double. The two can differ by one: for 0.3 the double product is 3, so confidence is 88, while the exact product 2.99… gives 87. The range [85, 94] holds either way.
- Number-to-text formatting: only two renderings are modelled.
  - The validators' messages print the integer range bounds in decimal (`NatText`).
  - The low explanation prints BMI in tenths (`TenthsText`).
  - No other number is printed by the modelled code.
- `RiskIndicator.DashOffset`: computes `440 - (440 * score) / 100` (`RiskIndicator.tsx:50`) in exact reals, while the component computes it in doubles. For a score such as 33, the exact value 145.2 has no double representation, so the component's offset differs from the modelled one in the last bit. The bounds [0, 440] and the monotonicity hold for the exact value only.
- The server `request` plumbing is not modelled:
  - zod parsing;
  - the 400/500 error mapping;
  - the fire-and-forget `storage.createPrediction` call;
  - the status route;
  - the optional `personal_info` object, which no rule reads.
- `HealthGuardAI/Silent-Sentinel/shared/schema.ts` contributes only its three bounds, as a precondition. The drizzle and zod declarations are not part of this model.
- React rendering, animation, `fetch` hooks, storage and the wizard pages are UI or I/O and are not part of this model.
- `RiskIndicator.BandBadge`: that the badge's colour class begins with the ring's text colour (for example "text-green-500 …" and "text-green-500") is not proved. The ring is related to the band instead (`RingColor`).
- `SharedRoutes.BuildUrl`:
  - `params` is an ordered list of (key, text) pairs;
  - the list order is taken to be the order `Object.entries` yields;
  - duplicate keys, which a JavaScript object cannot hold, are not excluded;
  - `String(value)` for numbers is taken as already rendered text.
- JavaScript `replace` patterns for capture groups (`$1`, `$<name>`) are treated as literal text. A string pattern has no groups, so they never expand.
