/**
 * The client-side risk engine (early-warn-ai-main/src/utils/riskAnalysis.ts): two validators that
 * collect every failing field, the ordered tier rules that accumulate a score and its factor labels,
 * the clamp and the 30/60 classification, the explanation text and the recommendation checklist.
 */
module RiskAnalysis {
  import opened Common
  import opened HealthTypes

  // ---------------------------------------------------------------- validation

  /** The characters `String.prototype.trim` removes: ECMAScript WhiteSpace and LineTerminator. */
  predicate IsJsWhitespace(c: char)
  {
    c == '\t' || c == '\n' || c == '\U{000B}' || c == '\U{000C}' || c == '\r' || c == ' '
    || c == '\U{00A0}' || c == '\U{1680}' || ('\U{2000}' <= c <= '\U{200A}')
    || c == '\U{2028}' || c == '\U{2029}' || c == '\U{202F}' || c == '\U{205F}'
    || c == '\U{3000}' || c == '\U{FEFF}'
  }

  predicate IsBlank(s: string)
  {
    forall i :: 0 <= i < |s| ==> IsJsWhitespace(s[i])
  }

  /** Drops leading whitespace: what is left is a suffix that does not start with whitespace. */
  function TrimStart(s: string): (r: string)
    ensures |r| <= |s| && r == s[|s| - |r|..]
    ensures r == [] || !IsJsWhitespace(r[0])
  {
    if s != [] && IsJsWhitespace(s[0]) then TrimStart(s[1..]) else s
  }

  /** What `TrimStart` drops is whitespace. */
  lemma {:induction false} TrimStartDropsBlank(s: string)
    ensures IsBlank(s[..|s| - |TrimStart(s)|])
  {
    if s != [] && IsJsWhitespace(s[0]) {
      var r := TrimStart(s[1..]);
      TrimStartDropsBlank(s[1..]);
      assert s[..|s| - |r|] == [s[0]] + s[1..][..|s| - 1 - |r|];
    }
  }

  /** Drops trailing whitespace: what is left is a prefix that does not end with whitespace. */
  function TrimEnd(s: string): (r: string)
    ensures r <= s
    ensures r == [] || !IsJsWhitespace(r[|r| - 1])
  {
    if s != [] && IsJsWhitespace(s[|s| - 1]) then TrimEnd(s[..|s| - 1]) else s
  }

  /** What `TrimEnd` drops is whitespace. */
  lemma {:induction false} TrimEndDropsBlank(s: string)
    ensures IsBlank(s[|TrimEnd(s)|..])
  {
    if s != [] && IsJsWhitespace(s[|s| - 1]) {
      var r := TrimEnd(s[..|s| - 1]);
      TrimEndDropsBlank(s[..|s| - 1]);
      assert s[|r|..] == s[..|s| - 1][|r|..] + [s[|s| - 1]];
    }
  }

  /** `String.prototype.trim`. */
  function Trim(s: string): (r: string)
    ensures |r| <= |s|
    ensures r == [] || (!IsJsWhitespace(r[0]) && !IsJsWhitespace(r[|r| - 1]))
  {
    TrimEnd(TrimStart(s))
  }

  lemma BlankSuffix(s: string, k: nat)
    requires IsBlank(s) && k <= |s|
    ensures IsBlank(s[k..])
  {
    assert forall i :: 0 <= i < |s| - k ==> s[k..][i] == s[k + i];
  }

  /** A name trims to the empty string exactly when every character of it is whitespace. */
  lemma TrimEmptyIffBlank(s: string)
    ensures Trim(s) == [] <==> IsBlank(s)
  {
    var t := TrimStart(s);
    TrimStartDropsBlank(s);
    TrimEndDropsBlank(t);
    if IsBlank(s) {
      BlankSuffix(s, |s| - |t|);
    }
    if Trim(s) == [] {
      assert t[0..] == t;
      assert s[..|s| - |t|] == s;
    }
  }

  /** `!v || v < min || v > max` for an optional number: missing, zero or outside the interval. */
  predicate NumberFails(v: Option<real>, r: ValueRange)
  {
    v.None? || v.value == 0.0 || v.value < r.min as real || v.value > r.max as real
  }

  /** The value is present and inside the closed interval. */
  predicate Within(v: Option<real>, r: ValueRange)
  {
    v.Some? && r.min as real <= v.value <= r.max as real
  }

  /** Because every interval starts above zero, the zero test never decides anything. */
  lemma NumberFailsIffOutside(v: Option<real>, r: ValueRange)
    requires 0 < r.min
    ensures NumberFails(v, r) <==> !Within(v, r)
  {
  }

  function RangeMessage(subject: string, r: ValueRange, unit: string): string
  {
    subject + " must be between " + NatText(r.min) + " and " + NatText(r.max) + unit
  }

  /** A range message quotes both ends of its interval. */
  lemma RangeMessageQuotesBounds(subject: string, r: ValueRange, unit: string)
    ensures IsInfix(NatText(r.min), RangeMessage(subject, r, unit))
    ensures IsInfix(NatText(r.max), RangeMessage(subject, r, unit))
  {
    var lo, hi := NatText(r.min), NatText(r.max);
    assert IsInfix(lo, lo) && IsInfix(hi, hi);
    InfixWithin(lo, subject + " must be between ", lo, " and " + hi + unit);
    assert subject + " must be between " + lo + (" and " + hi + unit) == RangeMessage(subject, r, unit);
    InfixWithin(hi, subject + " must be between " + lo + " and ", hi, unit);
  }

  function FieldMessage(f: Field): string
  {
    match f
    case FullNameField => "Full name is required"
    case AgeField => RangeMessage("Age", AgeRange, "")
    case GenderField => "Please select a gender"
    case HeightField => RangeMessage("Height", HeightRange, " cm")
    case WeightField => RangeMessage("Weight", WeightRange, " kg")
    case SystolicField => RangeMessage("Systolic BP", SystolicRange, " mmHg")
    case DiastolicField => RangeMessage("Diastolic BP", DiastolicRange, " mmHg")
    case BloodSugarField => RangeMessage("Blood sugar", BloodSugarRange, " mg/dL")
    case HeartRateField => RangeMessage("Heart rate", HeartRateRange, " bpm")
    case ActivityField => "Please select physical activity level"
    case StressField => "Please select stress level"
  }

  /** The message of every numeric field quotes the bounds its `VALIDATION_RANGES` entry gives. */
  lemma FieldMessageQuotesRange(f: Field)
    ensures ValidationRange(f).Some? ==> IsInfix(NatText(ValidationRange(f).value.min), FieldMessage(f))
    ensures ValidationRange(f).Some? ==> IsInfix(NatText(ValidationRange(f).value.max), FieldMessage(f))
  {
    match f
    case AgeField => RangeMessageQuotesBounds("Age", AgeRange, "");
    case HeightField => RangeMessageQuotesBounds("Height", HeightRange, " cm");
    case WeightField => RangeMessageQuotesBounds("Weight", WeightRange, " kg");
    case SystolicField => RangeMessageQuotesBounds("Systolic BP", SystolicRange, " mmHg");
    case DiastolicField => RangeMessageQuotesBounds("Diastolic BP", DiastolicRange, " mmHg");
    case BloodSugarField => RangeMessageQuotesBounds("Blood sugar", BloodSugarRange, " mg/dL");
    case HeartRateField => RangeMessageQuotesBounds("Heart rate", HeartRateRange, " bpm");
    case _ =>
  }

  /** The one error the validators push for a failing field. */
  function FieldError(f: Field): ValidationError
  {
    ValidationError(FieldName(f), FieldMessage(f))
  }

  lemma FieldErrorInjective()
    ensures forall f, g :: FieldError(f) == FieldError(g) ==> f == g
  {
    forall f, g | FieldError(f) == FieldError(g) ensures f == g {
      FieldNameRoundTrip(f);
      FieldNameRoundTrip(g);
    }
  }

  /** The error of every listed field, in list order. */
  function ErrorsFor(fields: seq<Field>): (errors: seq<ValidationError>)
    ensures |errors| == |fields|
    ensures forall i :: 0 <= i < |fields| ==> errors[i] == FieldError(fields[i])
  {
    seq(|fields|, i requires 0 <= i < |fields| => FieldError(fields[i]))
  }

  /** Distinct fields have distinct errors, so their error lists repeat nothing. */
  lemma ErrorsForDistinct(fields: seq<Field>)
    requires Distinct(fields)
    ensures Distinct(ErrorsFor(fields))
  {
    FieldErrorInjective();
  }

  /** The error list after one more check: this field's error is appended when the check fails. */
  function Pushed(errors: seq<ValidationError>, failed: bool, f: Field): seq<ValidationError>
  {
    if failed then errors + [FieldError(f)] else errors
  }

  /** One more check adds this field's error exactly when the check fails, and no other field's. */
  lemma PushedNames(errors: seq<ValidationError>, failed: bool, f: Field, g: Field)
    ensures FieldError(g) in Pushed(errors, failed, f) <==> FieldError(g) in errors || (failed && g == f)
  {
    if FieldError(g) == FieldError(f) {
      FieldNameRoundTrip(f);
      FieldNameRoundTrip(g);
    }
  }

  /** One more check keeps the errors in checking order. */
  lemma PushedInOrder(errors: seq<ValidationError>, done: seq<Field>, failed: bool, f: Field)
    requires IsSubsequence(errors, ErrorsFor(done))
    ensures IsSubsequence(Pushed(errors, failed, f), ErrorsFor(done + [f]))
  {
    var tail := [FieldError(f)];
    assert ErrorsFor(done + [f]) == ErrorsFor(done) + tail;
    if failed {
      assert IsSubsequence(tail, tail);
      SubsequenceConcat(errors, ErrorsFor(done), tail, tail);
    } else {
      SubsequenceConcat(errors, ErrorsFor(done), [], tail);
      assert errors + [] == errors;
    }
  }

  /** One `if (<check fails>) errors.push({ field, message })` step of a validator. */
  method PushIfFailed(errors: seq<ValidationError>, failed: bool, f: Field) returns (r: seq<ValidationError>)
    ensures r == Pushed(errors, failed, f)
  {
    r := errors;
    if failed {
      r := r + [FieldError(f)];
    }
  }

  const PatientFields := [FullNameField, AgeField, GenderField, HeightField, WeightField]

  /** The check `validatePatientDetails` makes for each of its fields. */
  predicate PatientFieldFails(data: PartialPatientDetails, f: Field)
  {
    match f
    case FullNameField => data.fullName.None? || Trim(data.fullName.value) == []
    case AgeField => NumberFails(data.age, AgeRange)
    case GenderField => data.gender.None?
    case HeightField => NumberFails(data.height, HeightRange)
    case WeightField => NumberFails(data.weight, WeightRange)
    case _ => false
  }

  /** The patient details the form may submit: a name with a visible character, a gender, and
      age, height and weight inside their intervals. */
  predicate PatientDetailsValid(data: PartialPatientDetails)
  {
    && data.fullName.Some? && !IsBlank(data.fullName.value)
    && Within(data.age, AgeRange)
    && data.gender.Some?
    && Within(data.height, HeightRange)
    && Within(data.weight, WeightRange)
  }

  /** The errors `validatePatientDetails` returns: one per failed check, in the order of PatientFields. */
  function PatientErrors(data: PartialPatientDetails): (r: seq<ValidationError>)
    ensures |r| <= |PatientFields|
  {
    var errors := [];
    var errors := Pushed(errors, data.fullName.None? || Trim(data.fullName.value) == [], FullNameField);
    var errors := Pushed(errors, NumberFails(data.age, AgeRange), AgeField);
    var errors := Pushed(errors, data.gender.None?, GenderField);
    var errors := Pushed(errors, NumberFails(data.height, HeightRange), HeightField);
    Pushed(errors, NumberFails(data.weight, WeightRange), WeightField)
  }

  lemma FiveChecksName(c1: bool, c2: bool, c3: bool, c4: bool, c5: bool, f: Field)
    ensures var e := Pushed(Pushed(Pushed(Pushed(Pushed([], c1, FullNameField), c2, AgeField), c3, GenderField), c4, HeightField), c5, WeightField);
      FieldError(f) in e <==> (c1 && f == FullNameField) || (c2 && f == AgeField) || (c3 && f == GenderField) || (c4 && f == HeightField) || (c5 && f == WeightField)
  {
    var e0: seq<ValidationError> := [];
    PushedNames(e0, c1, FullNameField, f);
    var e1 := Pushed(e0, c1, FullNameField);
    PushedNames(e1, c2, AgeField, f);
    var e2 := Pushed(e1, c2, AgeField);
    PushedNames(e2, c3, GenderField, f);
    var e3 := Pushed(e2, c3, GenderField);
    PushedNames(e3, c4, HeightField, f);
    var e4 := Pushed(e3, c4, HeightField);
    PushedNames(e4, c5, WeightField, f);
  }

  /** A field fails exactly when it is one of the checked fields and its own check fails. */
  lemma PatientFieldFailsCases(data: PartialPatientDetails, f: Field)
    ensures PatientFieldFails(data, f) <==>
      || ((data.fullName.None? || Trim(data.fullName.value) == []) && f == FullNameField)
      || (NumberFails(data.age, AgeRange) && f == AgeField)
      || (data.gender.None? && f == GenderField)
      || (NumberFails(data.height, HeightRange) && f == HeightField)
      || (NumberFails(data.weight, WeightRange) && f == WeightField)
  {
    match f
    case FullNameField =>
    case AgeField =>
    case GenderField =>
    case HeightField =>
    case WeightField =>
    case _ =>
  }

  /** A field's error is among the errors exactly when that field is checked and its check fails. */
  lemma PatientErrorNamesField(data: PartialPatientDetails, f: Field)
    ensures FieldError(f) in PatientErrors(data) <==> PatientFieldFails(data, f)
  {
    FiveChecksName(data.fullName.None? || Trim(data.fullName.value) == [], NumberFails(data.age, AgeRange),
      data.gender.None?, NumberFails(data.height, HeightRange), NumberFails(data.weight, WeightRange), f);
    PatientFieldFailsCases(data, f);
  }

  /** The errors keep the checking order, so no field is reported twice. */
  lemma PatientErrorsInOrder(data: PartialPatientDetails)
    ensures IsSubsequence(PatientErrors(data), ErrorsFor(PatientFields))
  {
    var e0: seq<ValidationError>, d0: seq<Field> := [], [];
    PushedInOrder(e0, d0, data.fullName.None? || Trim(data.fullName.value) == [], FullNameField);
    var e1, d1 := Pushed(e0, data.fullName.None? || Trim(data.fullName.value) == [], FullNameField), d0 + [FullNameField];
    PushedInOrder(e1, d1, NumberFails(data.age, AgeRange), AgeField);
    var e2, d2 := Pushed(e1, NumberFails(data.age, AgeRange), AgeField), d1 + [AgeField];
    PushedInOrder(e2, d2, data.gender.None?, GenderField);
    var e3, d3 := Pushed(e2, data.gender.None?, GenderField), d2 + [GenderField];
    PushedInOrder(e3, d3, NumberFails(data.height, HeightRange), HeightField);
    var e4, d4 := Pushed(e3, NumberFails(data.height, HeightRange), HeightField), d3 + [HeightField];
    PushedInOrder(e4, d4, NumberFails(data.weight, WeightRange), WeightField);
    var e5, d5 := Pushed(e4, NumberFails(data.weight, WeightRange), WeightField), d4 + [WeightField];
    assert d5 == PatientFields;
  }

  /** No error is reported twice; as every field has one error, no field is reported twice. */
  lemma PatientErrorsDistinct(data: PartialPatientDetails)
    ensures Distinct(PatientErrors(data))
  {
    PatientErrorsInOrder(data);
    ErrorsForDistinct(PatientFields);
    SubsequenceDistinct(PatientErrors(data), ErrorsFor(PatientFields));
  }

  /** There are no errors exactly when the data is valid. */
  lemma PatientErrorsEmptyIffValid(data: PartialPatientDetails)
    ensures PatientErrors(data) == [] <==> PatientDetailsValid(data)
  {
    PatientErrorNamesField(data, FullNameField);
    PatientErrorNamesField(data, AgeField);
    PatientErrorNamesField(data, GenderField);
    PatientErrorNamesField(data, HeightField);
    PatientErrorNamesField(data, WeightField);
    if data.fullName.Some? {
      TrimEmptyIffBlank(data.fullName.value);
    }
  }

  method ValidatePatientDetails(data: PartialPatientDetails) returns (errors: seq<ValidationError>)
    ensures errors == PatientErrors(data)
    ensures forall f :: FieldError(f) in errors <==> PatientFieldFails(data, f)
    ensures IsSubsequence(errors, ErrorsFor(PatientFields)) && Distinct(errors)
    ensures errors == [] <==> PatientDetailsValid(data)
  {
    errors := [];
    errors := PushIfFailed(errors, data.fullName.None? || Trim(data.fullName.value) == [], FullNameField);
    errors := PushIfFailed(errors, NumberFails(data.age, AgeRange), AgeField);
    errors := PushIfFailed(errors, data.gender.None?, GenderField);
    errors := PushIfFailed(errors, NumberFails(data.height, HeightRange), HeightField);
    errors := PushIfFailed(errors, NumberFails(data.weight, WeightRange), WeightField);
    forall f | true
      ensures FieldError(f) in errors <==> PatientFieldFails(data, f)
    {
      PatientErrorNamesField(data, f);
    }
    PatientErrorsInOrder(data);
    PatientErrorsDistinct(data);
    PatientErrorsEmptyIffValid(data);
  }

  const MetricsFields := [SystolicField, DiastolicField, BloodSugarField, HeartRateField, ActivityField, StressField]

  /** The check `validateHealthMetrics` makes for each of its fields. */
  predicate MetricsFieldFails(data: PartialHealthMetrics, f: Field)
  {
    match f
    case SystolicField => NumberFails(data.systolicBP, SystolicRange)
    case DiastolicField => NumberFails(data.diastolicBP, DiastolicRange)
    case BloodSugarField => NumberFails(data.bloodSugar, BloodSugarRange)
    case HeartRateField => NumberFails(data.heartRate, HeartRateRange)
    case ActivityField => data.physicalActivity.None?
    case StressField => data.stressLevel.None?
    case _ => false
  }

  /** The metrics the form may submit: four readings inside their intervals, an activity level
      and a stress level. The three yes/no answers are never checked. */
  predicate HealthMetricsValid(data: PartialHealthMetrics)
  {
    && Within(data.systolicBP, SystolicRange)
    && Within(data.diastolicBP, DiastolicRange)
    && Within(data.bloodSugar, BloodSugarRange)
    && Within(data.heartRate, HeartRateRange)
    && data.physicalActivity.Some?
    && data.stressLevel.Some?
  }

  /** The errors `validateHealthMetrics` returns: one per failed check, in the order of MetricsFields. */
  function MetricsErrors(data: PartialHealthMetrics): (r: seq<ValidationError>)
    ensures |r| <= |MetricsFields|
  {
    var errors := [];
    var errors := Pushed(errors, NumberFails(data.systolicBP, SystolicRange), SystolicField);
    var errors := Pushed(errors, NumberFails(data.diastolicBP, DiastolicRange), DiastolicField);
    var errors := Pushed(errors, NumberFails(data.bloodSugar, BloodSugarRange), BloodSugarField);
    var errors := Pushed(errors, NumberFails(data.heartRate, HeartRateRange), HeartRateField);
    var errors := Pushed(errors, data.physicalActivity.None?, ActivityField);
    Pushed(errors, data.stressLevel.None?, StressField)
  }

  lemma SixChecksName(c1: bool, c2: bool, c3: bool, c4: bool, c5: bool, c6: bool, f: Field)
    ensures var e := Pushed(Pushed(Pushed(Pushed(Pushed(Pushed([], c1, SystolicField), c2, DiastolicField), c3, BloodSugarField), c4, HeartRateField), c5, ActivityField), c6, StressField);
      FieldError(f) in e <==> (c1 && f == SystolicField) || (c2 && f == DiastolicField) || (c3 && f == BloodSugarField) || (c4 && f == HeartRateField) || (c5 && f == ActivityField) || (c6 && f == StressField)
  {
    var e0: seq<ValidationError> := [];
    PushedNames(e0, c1, SystolicField, f);
    var e1 := Pushed(e0, c1, SystolicField);
    PushedNames(e1, c2, DiastolicField, f);
    var e2 := Pushed(e1, c2, DiastolicField);
    PushedNames(e2, c3, BloodSugarField, f);
    var e3 := Pushed(e2, c3, BloodSugarField);
    PushedNames(e3, c4, HeartRateField, f);
    var e4 := Pushed(e3, c4, HeartRateField);
    PushedNames(e4, c5, ActivityField, f);
    var e5 := Pushed(e4, c5, ActivityField);
    PushedNames(e5, c6, StressField, f);
  }

  /** A field fails exactly when it is one of the checked fields and its own check fails. */
  lemma MetricsFieldFailsCases(data: PartialHealthMetrics, f: Field)
    ensures MetricsFieldFails(data, f) <==>
      || (NumberFails(data.systolicBP, SystolicRange) && f == SystolicField)
      || (NumberFails(data.diastolicBP, DiastolicRange) && f == DiastolicField)
      || (NumberFails(data.bloodSugar, BloodSugarRange) && f == BloodSugarField)
      || (NumberFails(data.heartRate, HeartRateRange) && f == HeartRateField)
      || (data.physicalActivity.None? && f == ActivityField)
      || (data.stressLevel.None? && f == StressField)
  {
    match f
    case SystolicField =>
    case DiastolicField =>
    case BloodSugarField =>
    case HeartRateField =>
    case ActivityField =>
    case StressField =>
    case _ =>
  }

  /** A field's error is among the errors exactly when that field is checked and its check fails. */
  lemma MetricsErrorNamesField(data: PartialHealthMetrics, f: Field)
    ensures FieldError(f) in MetricsErrors(data) <==> MetricsFieldFails(data, f)
  {
    SixChecksName(NumberFails(data.systolicBP, SystolicRange), NumberFails(data.diastolicBP, DiastolicRange),
      NumberFails(data.bloodSugar, BloodSugarRange), NumberFails(data.heartRate, HeartRateRange),
      data.physicalActivity.None?, data.stressLevel.None?, f);
    MetricsFieldFailsCases(data, f);
  }

  /** The errors keep the checking order, so no field is reported twice. */
  lemma MetricsErrorsInOrder(data: PartialHealthMetrics)
    ensures IsSubsequence(MetricsErrors(data), ErrorsFor(MetricsFields))
  {
    var e0: seq<ValidationError>, d0: seq<Field> := [], [];
    PushedInOrder(e0, d0, NumberFails(data.systolicBP, SystolicRange), SystolicField);
    var e1, d1 := Pushed(e0, NumberFails(data.systolicBP, SystolicRange), SystolicField), d0 + [SystolicField];
    PushedInOrder(e1, d1, NumberFails(data.diastolicBP, DiastolicRange), DiastolicField);
    var e2, d2 := Pushed(e1, NumberFails(data.diastolicBP, DiastolicRange), DiastolicField), d1 + [DiastolicField];
    PushedInOrder(e2, d2, NumberFails(data.bloodSugar, BloodSugarRange), BloodSugarField);
    var e3, d3 := Pushed(e2, NumberFails(data.bloodSugar, BloodSugarRange), BloodSugarField), d2 + [BloodSugarField];
    PushedInOrder(e3, d3, NumberFails(data.heartRate, HeartRateRange), HeartRateField);
    var e4, d4 := Pushed(e3, NumberFails(data.heartRate, HeartRateRange), HeartRateField), d3 + [HeartRateField];
    PushedInOrder(e4, d4, data.physicalActivity.None?, ActivityField);
    var e5, d5 := Pushed(e4, data.physicalActivity.None?, ActivityField), d4 + [ActivityField];
    PushedInOrder(e5, d5, data.stressLevel.None?, StressField);
    var e6, d6 := Pushed(e5, data.stressLevel.None?, StressField), d5 + [StressField];
    assert d6 == MetricsFields;
  }

  /** No error is reported twice; as every field has one error, no field is reported twice. */
  lemma MetricsErrorsDistinct(data: PartialHealthMetrics)
    ensures Distinct(MetricsErrors(data))
  {
    MetricsErrorsInOrder(data);
    ErrorsForDistinct(MetricsFields);
    SubsequenceDistinct(MetricsErrors(data), ErrorsFor(MetricsFields));
  }

  /** There are no errors exactly when the data is valid. */
  lemma MetricsErrorsEmptyIffValid(data: PartialHealthMetrics)
    ensures MetricsErrors(data) == [] <==> HealthMetricsValid(data)
  {
    MetricsErrorNamesField(data, SystolicField);
    MetricsErrorNamesField(data, DiastolicField);
    MetricsErrorNamesField(data, BloodSugarField);
    MetricsErrorNamesField(data, HeartRateField);
    MetricsErrorNamesField(data, ActivityField);
    MetricsErrorNamesField(data, StressField);
  }

  method ValidateHealthMetrics(data: PartialHealthMetrics) returns (errors: seq<ValidationError>)
    ensures errors == MetricsErrors(data)
    ensures forall f :: FieldError(f) in errors <==> MetricsFieldFails(data, f)
    ensures IsSubsequence(errors, ErrorsFor(MetricsFields)) && Distinct(errors)
    ensures errors == [] <==> HealthMetricsValid(data)
  {
    errors := [];
    errors := PushIfFailed(errors, NumberFails(data.systolicBP, SystolicRange), SystolicField);
    errors := PushIfFailed(errors, NumberFails(data.diastolicBP, DiastolicRange), DiastolicField);
    errors := PushIfFailed(errors, NumberFails(data.bloodSugar, BloodSugarRange), BloodSugarField);
    errors := PushIfFailed(errors, NumberFails(data.heartRate, HeartRateRange), HeartRateField);
    errors := PushIfFailed(errors, data.physicalActivity.None?, ActivityField);
    errors := PushIfFailed(errors, data.stressLevel.None?, StressField);
    forall f | true
      ensures FieldError(f) in errors <==> MetricsFieldFails(data, f)
    {
      MetricsErrorNamesField(data, f);
    }
    MetricsErrorsInOrder(data);
    MetricsErrorsDistinct(data);
    MetricsErrorsEmptyIffValid(data);
  }

  // ---------------------------------------------------------------- scoring

  /** The labels each tier can push, tier by tier in the order `analyzeRisk` evaluates them. */
  const AgeTier := ["age above 45"]
  const BmiTier := ["obesity (BMI > 30)", "overweight", "underweight"]
  const BloodPressureTier := ["elevated blood pressure", "slightly elevated blood pressure"]
  const BloodSugarTier := ["high blood sugar levels", "elevated blood sugar", "pre-diabetic blood sugar range"]
  const HeartRateTier := ["elevated resting heart rate", "low resting heart rate"]
  const SmokingTier := ["smoking"]
  const AlcoholTier := ["alcohol consumption"]
  const ActivityTier := ["sedentary lifestyle"]
  const FamilyHistoryTier := ["family history of chronic diseases"]
  const StressTier := ["high stress levels"]

  /** The labels of the four measurement tiers that have more than one. */
  const BmiLabels := {"obesity (BMI > 30)", "overweight", "underweight"}
  const BloodPressureLabels := {"elevated blood pressure", "slightly elevated blood pressure"}
  const BloodSugarLabels := {"high blood sugar levels", "elevated blood sugar", "pre-diabetic blood sugar range"}
  const HeartRateLabels := {"elevated resting heart rate", "low resting heart rate"}

  /** Every label there is, in rule-evaluation order. */
  const FactorOrder := AgeTier + BmiTier + BloodPressureTier + BloodSugarTier + HeartRateTier
    + SmokingTier + AlcoholTier + ActivityTier + FamilyHistoryTier + StressTier

  /** Over 45: +10, labelled; over 35: +5 with no label. */
  function AgeRule(age: real): (r: RuleOutcome)
    ensures 0 <= r.delta <= 10
    ensures r.factor.Some? ==> r.factor.value in AgeTier && r.delta > 0
    ensures r.factor.None? ==> r.delta <= 5
    ensures r.delta <= 5 + 20 * |Labels(r)|
  {
    if age > 45.0 then RuleOutcome(10, Some("age above 45"))
    else if age > 35.0 then RuleOutcome(5, None)
    else RuleOutcome(0, None)
  }

  /** BMI in tenths (`bmi > 30` is `tenths > 300` on the one-decimal grid `calculateBMI` rounds to). */
  function BmiRule(tenths: nat): (r: RuleOutcome)
    ensures 0 <= r.delta <= 15
    ensures r.factor.Some? ==> r.factor.value in BmiTier && r.delta > 0
    ensures r.factor.None? ==> r.delta == 0
    ensures r.delta <= 20 * |Labels(r)|
  {
    if tenths > 300 then RuleOutcome(15, Some("obesity (BMI > 30)"))
    else if tenths > 250 then RuleOutcome(8, Some("overweight"))
    else if tenths < 185 then RuleOutcome(5, Some("underweight"))
    else RuleOutcome(0, None)
  }

  function BloodPressureRule(systolic: real, diastolic: real): (r: RuleOutcome)
    ensures 0 <= r.delta <= 20
    ensures r.factor.Some? ==> r.factor.value in BloodPressureTier && r.delta > 0
    ensures r.factor.None? ==> r.delta == 0
    ensures r.delta <= 20 * |Labels(r)|
  {
    if systolic > 140.0 || diastolic > 90.0 then RuleOutcome(20, Some("elevated blood pressure"))
    else if systolic > 130.0 || diastolic > 85.0 then RuleOutcome(10, Some("slightly elevated blood pressure"))
    else RuleOutcome(0, None)
  }

  function BloodSugarRule(sugar: real): (r: RuleOutcome)
    ensures 0 <= r.delta <= 20
    ensures r.factor.Some? ==> r.factor.value in BloodSugarTier && r.delta > 0
    ensures r.factor.None? ==> r.delta == 0
    ensures r.delta <= 20 * |Labels(r)|
  {
    if sugar > 200.0 then RuleOutcome(20, Some("high blood sugar levels"))
    else if sugar > 140.0 then RuleOutcome(12, Some("elevated blood sugar"))
    else if sugar > 100.0 then RuleOutcome(5, Some("pre-diabetic blood sugar range"))
    else RuleOutcome(0, None)
  }

  function HeartRateRule(rate: real): (r: RuleOutcome)
    ensures 0 <= r.delta <= 10
    ensures r.factor.Some? ==> r.factor.value in HeartRateTier && r.delta > 0
    ensures r.factor.None? ==> r.delta == 0
    ensures r.delta <= 20 * |Labels(r)|
  {
    if rate > 100.0 then RuleOutcome(10, Some("elevated resting heart rate"))
    else if rate < 50.0 then RuleOutcome(5, Some("low resting heart rate"))
    else RuleOutcome(0, None)
  }

  function SmokingRule(smoking: bool): (r: RuleOutcome)
    ensures 0 <= r.delta <= 12
    ensures r.factor.Some? ==> r.factor.value in SmokingTier && r.delta > 0
    ensures r.factor.None? ==> r.delta == 0
    ensures r.delta <= 20 * |Labels(r)|
  {
    if smoking then RuleOutcome(12, Some("smoking")) else RuleOutcome(0, None)
  }

  function AlcoholRule(alcohol: bool): (r: RuleOutcome)
    ensures 0 <= r.delta <= 5
    ensures r.factor.Some? ==> r.factor.value in AlcoholTier && r.delta > 0
    ensures r.factor.None? ==> r.delta == 0
    ensures r.delta <= 20 * |Labels(r)|
  {
    if alcohol then RuleOutcome(5, Some("alcohol consumption")) else RuleOutcome(0, None)
  }

  /** Low activity: +8, labelled; high activity: -5 with no label. */
  function ActivityRule(activity: PhysicalActivity): (r: RuleOutcome)
    ensures -5 <= r.delta <= 8
    ensures r.factor.Some? ==> r.factor.value in ActivityTier && r.delta > 0
    ensures r.factor.None? ==> r.delta <= 0
    ensures r.delta <= 20 * |Labels(r)|
  {
    if activity == LowActivity then RuleOutcome(8, Some("sedentary lifestyle"))
    else if activity == HighActivity then RuleOutcome(-5, None)
    else RuleOutcome(0, None)
  }

  function FamilyHistoryRule(history: bool): (r: RuleOutcome)
    ensures 0 <= r.delta <= 10
    ensures r.factor.Some? ==> r.factor.value in FamilyHistoryTier && r.delta > 0
    ensures r.factor.None? ==> r.delta == 0
    ensures r.delta <= 20 * |Labels(r)|
  {
    if history then RuleOutcome(10, Some("family history of chronic diseases")) else RuleOutcome(0, None)
  }

  /** High stress: +8, labelled; medium stress: +4 with no label. */
  function StressRule(stress: StressLevel): (r: RuleOutcome)
    ensures 0 <= r.delta <= 8
    ensures r.factor.Some? ==> r.factor.value in StressTier && r.delta > 0
    ensures r.factor.None? ==> r.delta <= 4
    ensures r.delta <= 4 + 20 * |Labels(r)|
  {
    if stress == HighStress then RuleOutcome(8, Some("high stress levels"))
    else if stress == MediumStress then RuleOutcome(4, None)
    else RuleOutcome(0, None)
  }

  /** The score before the clamp: the ten tier deltas added in order. It can leave [0,100] on both sides. */
  function RawScore(patient: PatientDetails, metrics: HealthMetrics, bmi: nat): (r: int)
    ensures -5 <= r <= 118
  {
    var score := 0;
    var score := score + AgeRule(patient.age).delta;
    var score := score + BmiRule(bmi).delta;
    var score := score + BloodPressureRule(metrics.systolicBP, metrics.diastolicBP).delta;
    var score := score + BloodSugarRule(metrics.bloodSugar).delta;
    var score := score + HeartRateRule(metrics.heartRate).delta;
    var score := score + SmokingRule(metrics.smokingStatus).delta;
    var score := score + AlcoholRule(metrics.alcoholConsumption).delta;
    var score := score + ActivityRule(metrics.physicalActivity).delta;
    var score := score + FamilyHistoryRule(metrics.familyHistory).delta;
    score + StressRule(metrics.stressLevel).delta
  }

  /** The factor labels, pushed tier by tier in evaluation order. */
  function Factors(patient: PatientDetails, metrics: HealthMetrics, bmi: nat): (f: seq<string>)
    ensures |f| <= 10
  {
    var factors := [];
    var factors := factors + Labels(AgeRule(patient.age));
    var factors := factors + Labels(BmiRule(bmi));
    var factors := factors + Labels(BloodPressureRule(metrics.systolicBP, metrics.diastolicBP));
    var factors := factors + Labels(BloodSugarRule(metrics.bloodSugar));
    var factors := factors + Labels(HeartRateRule(metrics.heartRate));
    var factors := factors + Labels(SmokingRule(metrics.smokingStatus));
    var factors := factors + Labels(AlcoholRule(metrics.alcoholConsumption));
    var factors := factors + Labels(ActivityRule(metrics.physicalActivity));
    var factors := factors + Labels(FamilyHistoryRule(metrics.familyHistory));
    factors + Labels(StressRule(metrics.stressLevel))
  }

  /** The factors keep rule-evaluation order: they are a subsequence of FactorOrder. */
  lemma FactorsInRuleOrder(patient: PatientDetails, metrics: HealthMetrics, bmi: nat)
    ensures IsSubsequence(Factors(patient, metrics, bmi), FactorOrder)
  {
    var o1, o2, o3 := AgeRule(patient.age), BmiRule(bmi), BloodPressureRule(metrics.systolicBP, metrics.diastolicBP);
    var o4, o5, o6 := BloodSugarRule(metrics.bloodSugar), HeartRateRule(metrics.heartRate), SmokingRule(metrics.smokingStatus);
    var o7, o8 := AlcoholRule(metrics.alcoholConsumption), ActivityRule(metrics.physicalActivity);
    var o9, o10 := FamilyHistoryRule(metrics.familyHistory), StressRule(metrics.stressLevel);
    LabelsSubsequence(o1, AgeTier);
    LabelsSubsequence(o2, BmiTier);
    LabelsSubsequence(o3, BloodPressureTier);
    LabelsSubsequence(o4, BloodSugarTier);
    LabelsSubsequence(o5, HeartRateTier);
    LabelsSubsequence(o6, SmokingTier);
    LabelsSubsequence(o7, AlcoholTier);
    LabelsSubsequence(o8, ActivityTier);
    LabelsSubsequence(o9, FamilyHistoryTier);
    LabelsSubsequence(o10, StressTier);
    var emptyLabels: seq<string> := [];
    var l, t := emptyLabels + Labels(o1), AgeTier;
    assert emptyLabels + Labels(o1) == Labels(o1);
    SubsequenceConcat(l, t, Labels(o2), BmiTier);
    l, t := l + Labels(o2), t + BmiTier;
    SubsequenceConcat(l, t, Labels(o3), BloodPressureTier);
    l, t := l + Labels(o3), t + BloodPressureTier;
    SubsequenceConcat(l, t, Labels(o4), BloodSugarTier);
    l, t := l + Labels(o4), t + BloodSugarTier;
    SubsequenceConcat(l, t, Labels(o5), HeartRateTier);
    l, t := l + Labels(o5), t + HeartRateTier;
    SubsequenceConcat(l, t, Labels(o6), SmokingTier);
    l, t := l + Labels(o6), t + SmokingTier;
    SubsequenceConcat(l, t, Labels(o7), AlcoholTier);
    l, t := l + Labels(o7), t + AlcoholTier;
    SubsequenceConcat(l, t, Labels(o8), ActivityTier);
    l, t := l + Labels(o8), t + ActivityTier;
    SubsequenceConcat(l, t, Labels(o9), FamilyHistoryTier);
    l, t := l + Labels(o9), t + FamilyHistoryTier;
    SubsequenceConcat(l, t, Labels(o10), StressTier);
  }

  /** A rule pushes one label of `group` when its label is in `group`, and none otherwise. */
  lemma LabelCount(o: RuleOutcome, group: set<string>)
    ensures CountIn(Labels(o), group) == if o.factor.Some? && o.factor.value in group then 1 else 0
  {
    if o.factor.Some? {
      assert Labels(o)[1..] == [];
    }
  }

  /** How many labels of `group` the factors hold, counted tier by tier. */
  lemma FactorsCount(patient: PatientDetails, metrics: HealthMetrics, bmi: nat, group: set<string>)
    ensures CountIn(Factors(patient, metrics, bmi), group)
         == CountIn(Labels(AgeRule(patient.age)), group) + CountIn(Labels(BmiRule(bmi)), group)
          + CountIn(Labels(BloodPressureRule(metrics.systolicBP, metrics.diastolicBP)), group)
          + CountIn(Labels(BloodSugarRule(metrics.bloodSugar)), group)
          + CountIn(Labels(HeartRateRule(metrics.heartRate)), group)
          + CountIn(Labels(SmokingRule(metrics.smokingStatus)), group)
          + CountIn(Labels(AlcoholRule(metrics.alcoholConsumption)), group)
          + CountIn(Labels(ActivityRule(metrics.physicalActivity)), group)
          + CountIn(Labels(FamilyHistoryRule(metrics.familyHistory)), group)
          + CountIn(Labels(StressRule(metrics.stressLevel)), group)
  {
    var o1, o2, o3 := AgeRule(patient.age), BmiRule(bmi), BloodPressureRule(metrics.systolicBP, metrics.diastolicBP);
    var o4, o5, o6 := BloodSugarRule(metrics.bloodSugar), HeartRateRule(metrics.heartRate), SmokingRule(metrics.smokingStatus);
    var o7, o8 := AlcoholRule(metrics.alcoholConsumption), ActivityRule(metrics.physicalActivity);
    var o9, o10 := FamilyHistoryRule(metrics.familyHistory), StressRule(metrics.stressLevel);
    var emptyLabels: seq<string> := [];
    assert emptyLabels + Labels(o1) == Labels(o1);
    var l := Labels(o1);
    CountInConcat(l, Labels(o2), group);
    l := l + Labels(o2);
    CountInConcat(l, Labels(o3), group);
    l := l + Labels(o3);
    CountInConcat(l, Labels(o4), group);
    l := l + Labels(o4);
    CountInConcat(l, Labels(o5), group);
    l := l + Labels(o5);
    CountInConcat(l, Labels(o6), group);
    l := l + Labels(o6);
    CountInConcat(l, Labels(o7), group);
    l := l + Labels(o7);
    CountInConcat(l, Labels(o8), group);
    l := l + Labels(o8);
    CountInConcat(l, Labels(o9), group);
    l := l + Labels(o9);
    CountInConcat(l, Labels(o10), group);
  }

  /** No other tier can push a BMI label. */
  lemma BmiLabelsOnlyInBmiTier()
    ensures forall x :: x in AgeTier ==> x !in BmiLabels
    ensures forall x :: x in BloodPressureTier ==> x !in BmiLabels
    ensures forall x :: x in BloodSugarTier ==> x !in BmiLabels
    ensures forall x :: x in HeartRateTier ==> x !in BmiLabels
    ensures forall x :: x in SmokingTier ==> x !in BmiLabels
    ensures forall x :: x in AlcoholTier ==> x !in BmiLabels
    ensures forall x :: x in ActivityTier ==> x !in BmiLabels
    ensures forall x :: x in FamilyHistoryTier ==> x !in BmiLabels
    ensures forall x :: x in StressTier ==> x !in BmiLabels
  {
  }

  /** The BMI tier is an if/else-if chain, so at most one of its labels is ever pushed. */
  lemma BmiLabelAtMostOnce(patient: PatientDetails, metrics: HealthMetrics, bmi: nat)
    ensures CountIn(Factors(patient, metrics, bmi), BmiLabels) <= 1
  {
    var o1, o2, o3 := AgeRule(patient.age), BmiRule(bmi), BloodPressureRule(metrics.systolicBP, metrics.diastolicBP);
    var o4, o5, o6 := BloodSugarRule(metrics.bloodSugar), HeartRateRule(metrics.heartRate), SmokingRule(metrics.smokingStatus);
    var o7, o8 := AlcoholRule(metrics.alcoholConsumption), ActivityRule(metrics.physicalActivity);
    var o9, o10 := FamilyHistoryRule(metrics.familyHistory), StressRule(metrics.stressLevel);
    var group := BmiLabels;
    FactorsCount(patient, metrics, bmi, group);
    BmiLabelsOnlyInBmiTier();
    LabelCount(o1, group);
    assert CountIn(Labels(o1), group) == 0;
    LabelCount(o2, group);
    LabelCount(o3, group);
    assert CountIn(Labels(o3), group) == 0;
    LabelCount(o4, group);
    assert CountIn(Labels(o4), group) == 0;
    LabelCount(o5, group);
    assert CountIn(Labels(o5), group) == 0;
    LabelCount(o6, group);
    assert CountIn(Labels(o6), group) == 0;
    LabelCount(o7, group);
    assert CountIn(Labels(o7), group) == 0;
    LabelCount(o8, group);
    assert CountIn(Labels(o8), group) == 0;
    LabelCount(o9, group);
    assert CountIn(Labels(o9), group) == 0;
    LabelCount(o10, group);
    assert CountIn(Labels(o10), group) == 0;
  }

  /** No other tier can push a blood-pressure label. */
  lemma BloodPressureLabelsOnlyInBloodPressureTier()
    ensures forall x :: x in AgeTier ==> x !in BloodPressureLabels
    ensures forall x :: x in BmiTier ==> x !in BloodPressureLabels
    ensures forall x :: x in BloodSugarTier ==> x !in BloodPressureLabels
    ensures forall x :: x in HeartRateTier ==> x !in BloodPressureLabels
    ensures forall x :: x in SmokingTier ==> x !in BloodPressureLabels
    ensures forall x :: x in AlcoholTier ==> x !in BloodPressureLabels
    ensures forall x :: x in ActivityTier ==> x !in BloodPressureLabels
    ensures forall x :: x in FamilyHistoryTier ==> x !in BloodPressureLabels
    ensures forall x :: x in StressTier ==> x !in BloodPressureLabels
  {
  }

  /** The blood-pressure tier is an if/else-if chain, so at most one of its labels is ever pushed. */
  lemma BloodPressureLabelAtMostOnce(patient: PatientDetails, metrics: HealthMetrics, bmi: nat)
    ensures CountIn(Factors(patient, metrics, bmi), BloodPressureLabels) <= 1
  {
    var o1, o2, o3 := AgeRule(patient.age), BmiRule(bmi), BloodPressureRule(metrics.systolicBP, metrics.diastolicBP);
    var o4, o5, o6 := BloodSugarRule(metrics.bloodSugar), HeartRateRule(metrics.heartRate), SmokingRule(metrics.smokingStatus);
    var o7, o8 := AlcoholRule(metrics.alcoholConsumption), ActivityRule(metrics.physicalActivity);
    var o9, o10 := FamilyHistoryRule(metrics.familyHistory), StressRule(metrics.stressLevel);
    var group := BloodPressureLabels;
    FactorsCount(patient, metrics, bmi, group);
    BloodPressureLabelsOnlyInBloodPressureTier();
    LabelCount(o1, group);
    assert CountIn(Labels(o1), group) == 0;
    LabelCount(o2, group);
    assert CountIn(Labels(o2), group) == 0;
    LabelCount(o3, group);
    LabelCount(o4, group);
    assert CountIn(Labels(o4), group) == 0;
    LabelCount(o5, group);
    assert CountIn(Labels(o5), group) == 0;
    LabelCount(o6, group);
    assert CountIn(Labels(o6), group) == 0;
    LabelCount(o7, group);
    assert CountIn(Labels(o7), group) == 0;
    LabelCount(o8, group);
    assert CountIn(Labels(o8), group) == 0;
    LabelCount(o9, group);
    assert CountIn(Labels(o9), group) == 0;
    LabelCount(o10, group);
    assert CountIn(Labels(o10), group) == 0;
  }

  /** No other tier can push a blood-sugar label. */
  lemma BloodSugarLabelsOnlyInBloodSugarTier()
    ensures forall x :: x in AgeTier ==> x !in BloodSugarLabels
    ensures forall x :: x in BmiTier ==> x !in BloodSugarLabels
    ensures forall x :: x in BloodPressureTier ==> x !in BloodSugarLabels
    ensures forall x :: x in HeartRateTier ==> x !in BloodSugarLabels
    ensures forall x :: x in SmokingTier ==> x !in BloodSugarLabels
    ensures forall x :: x in AlcoholTier ==> x !in BloodSugarLabels
    ensures forall x :: x in ActivityTier ==> x !in BloodSugarLabels
    ensures forall x :: x in FamilyHistoryTier ==> x !in BloodSugarLabels
    ensures forall x :: x in StressTier ==> x !in BloodSugarLabels
  {
  }

  /** The blood-sugar tier is an if/else-if chain, so at most one of its labels is ever pushed. */
  lemma BloodSugarLabelAtMostOnce(patient: PatientDetails, metrics: HealthMetrics, bmi: nat)
    ensures CountIn(Factors(patient, metrics, bmi), BloodSugarLabels) <= 1
  {
    var o1, o2, o3 := AgeRule(patient.age), BmiRule(bmi), BloodPressureRule(metrics.systolicBP, metrics.diastolicBP);
    var o4, o5, o6 := BloodSugarRule(metrics.bloodSugar), HeartRateRule(metrics.heartRate), SmokingRule(metrics.smokingStatus);
    var o7, o8 := AlcoholRule(metrics.alcoholConsumption), ActivityRule(metrics.physicalActivity);
    var o9, o10 := FamilyHistoryRule(metrics.familyHistory), StressRule(metrics.stressLevel);
    var group := BloodSugarLabels;
    FactorsCount(patient, metrics, bmi, group);
    BloodSugarLabelsOnlyInBloodSugarTier();
    LabelCount(o1, group);
    assert CountIn(Labels(o1), group) == 0;
    LabelCount(o2, group);
    assert CountIn(Labels(o2), group) == 0;
    LabelCount(o3, group);
    assert CountIn(Labels(o3), group) == 0;
    LabelCount(o4, group);
    LabelCount(o5, group);
    assert CountIn(Labels(o5), group) == 0;
    LabelCount(o6, group);
    assert CountIn(Labels(o6), group) == 0;
    LabelCount(o7, group);
    assert CountIn(Labels(o7), group) == 0;
    LabelCount(o8, group);
    assert CountIn(Labels(o8), group) == 0;
    LabelCount(o9, group);
    assert CountIn(Labels(o9), group) == 0;
    LabelCount(o10, group);
    assert CountIn(Labels(o10), group) == 0;
  }

  /** No other tier can push a heart-rate label. */
  lemma HeartRateLabelsOnlyInHeartRateTier()
    ensures forall x :: x in AgeTier ==> x !in HeartRateLabels
    ensures forall x :: x in BmiTier ==> x !in HeartRateLabels
    ensures forall x :: x in BloodPressureTier ==> x !in HeartRateLabels
    ensures forall x :: x in BloodSugarTier ==> x !in HeartRateLabels
    ensures forall x :: x in SmokingTier ==> x !in HeartRateLabels
    ensures forall x :: x in AlcoholTier ==> x !in HeartRateLabels
    ensures forall x :: x in ActivityTier ==> x !in HeartRateLabels
    ensures forall x :: x in FamilyHistoryTier ==> x !in HeartRateLabels
    ensures forall x :: x in StressTier ==> x !in HeartRateLabels
  {
  }

  /** The heart-rate tier is an if/else-if chain, so at most one of its labels is ever pushed. */
  lemma HeartRateLabelAtMostOnce(patient: PatientDetails, metrics: HealthMetrics, bmi: nat)
    ensures CountIn(Factors(patient, metrics, bmi), HeartRateLabels) <= 1
  {
    var o1, o2, o3 := AgeRule(patient.age), BmiRule(bmi), BloodPressureRule(metrics.systolicBP, metrics.diastolicBP);
    var o4, o5, o6 := BloodSugarRule(metrics.bloodSugar), HeartRateRule(metrics.heartRate), SmokingRule(metrics.smokingStatus);
    var o7, o8 := AlcoholRule(metrics.alcoholConsumption), ActivityRule(metrics.physicalActivity);
    var o9, o10 := FamilyHistoryRule(metrics.familyHistory), StressRule(metrics.stressLevel);
    var group := HeartRateLabels;
    FactorsCount(patient, metrics, bmi, group);
    HeartRateLabelsOnlyInHeartRateTier();
    LabelCount(o1, group);
    assert CountIn(Labels(o1), group) == 0;
    LabelCount(o2, group);
    assert CountIn(Labels(o2), group) == 0;
    LabelCount(o3, group);
    assert CountIn(Labels(o3), group) == 0;
    LabelCount(o4, group);
    assert CountIn(Labels(o4), group) == 0;
    LabelCount(o5, group);
    LabelCount(o6, group);
    assert CountIn(Labels(o6), group) == 0;
    LabelCount(o7, group);
    assert CountIn(Labels(o7), group) == 0;
    LabelCount(o8, group);
    assert CountIn(Labels(o8), group) == 0;
    LabelCount(o9, group);
    assert CountIn(Labels(o9), group) == 0;
    LabelCount(o10, group);
    assert CountIn(Labels(o10), group) == 0;
  }

  /** Ten outcomes of which only the first adds up to 5 and the last up to 4 points silently. */
  lemma OutcomesWithinLabels(o1: RuleOutcome, o2: RuleOutcome, o3: RuleOutcome, o4: RuleOutcome, o5: RuleOutcome,
                             o6: RuleOutcome, o7: RuleOutcome, o8: RuleOutcome, o9: RuleOutcome, o10: RuleOutcome)
    requires o1.delta <= 5 + 20 * |Labels(o1)| && o10.delta <= 4 + 20 * |Labels(o10)|
    requires o2.delta <= 20 * |Labels(o2)| && o3.delta <= 20 * |Labels(o3)| && o4.delta <= 20 * |Labels(o4)|
    requires o5.delta <= 20 * |Labels(o5)| && o6.delta <= 20 * |Labels(o6)| && o7.delta <= 20 * |Labels(o7)|
    requires o8.delta <= 20 * |Labels(o8)| && o9.delta <= 20 * |Labels(o9)|
    ensures 0 + o1.delta + o2.delta + o3.delta + o4.delta + o5.delta + o6.delta + o7.delta + o8.delta + o9.delta + o10.delta
         <= 9 + 20 * |[] + Labels(o1) + Labels(o2) + Labels(o3) + Labels(o4) + Labels(o5)
                     + Labels(o6) + Labels(o7) + Labels(o8) + Labels(o9) + Labels(o10)|
  {
  }

  /** Only the age (+5) and stress (+4) tiers add points without a label, and no tier adds more
      than 20; so the raw score is at most 9 plus 20 per factor. */
  lemma ScoreNeedsFactors(patient: PatientDetails, metrics: HealthMetrics, bmi: nat)
    ensures RawScore(patient, metrics, bmi) <= 9 + 20 * |Factors(patient, metrics, bmi)|
  {
    var o1, o2, o3 := AgeRule(patient.age), BmiRule(bmi), BloodPressureRule(metrics.systolicBP, metrics.diastolicBP);
    var o4, o5, o6 := BloodSugarRule(metrics.bloodSugar), HeartRateRule(metrics.heartRate), SmokingRule(metrics.smokingStatus);
    var o7, o8 := AlcoholRule(metrics.alcoholConsumption), ActivityRule(metrics.physicalActivity);
    var o9, o10 := FamilyHistoryRule(metrics.familyHistory), StressRule(metrics.stressLevel);
    OutcomesWithinLabels(o1, o2, o3, o4, o5, o6, o7, o8, o9, o10);
  }

  /** Three tiers move the score without recording why. */
  lemma SilentTiers(patient: PatientDetails, metrics: HealthMetrics)
    ensures 35.0 < patient.age <= 45.0 ==> AgeRule(patient.age) == RuleOutcome(5, None)
    ensures metrics.physicalActivity == HighActivity ==> ActivityRule(metrics.physicalActivity) == RuleOutcome(-5, None)
    ensures metrics.stressLevel == MediumStress ==> StressRule(metrics.stressLevel) == RuleOutcome(4, None)
  {
  }

  /** Both ends of the raw range are reached, so the clamp acts on both sides. */
  lemma RawScoreExtremes()
    ensures RawScore(PatientDetails("A", 50.0, Male, 170.0, 100.0, ""),
                     HealthMetrics(150.0, 95.0, 250.0, 110.0, true, true, LowActivity, true, HighStress), 346) == 118
    ensures RawScore(PatientDetails("A", 30.0, Female, 170.0, 65.0, ""),
                     HealthMetrics(120.0, 80.0, 90.0, 70.0, false, false, HighActivity, false, LowStress), 225) == -5
  {
  }

  /** `Math.max(0, Math.min(100, x))`. */
  function Clamp(x: int): (r: int)
    ensures 0 <= r <= 100
    ensures 0 <= x <= 100 ==> r == x
    ensures x < 0 ==> r == 0
    ensures x > 100 ==> r == 100
  {
    if x > 100 then 100 else if x < 0 then 0 else x
  }

  /** The 30/60 classification. */
  function ClientLevel(score: int): (level: RiskLevel)
    ensures level == LowRisk <==> score < 30
    ensures level == ModerateRisk <==> 30 <= score < 60
    ensures level == HighRisk <==> score >= 60
  {
    if score < 30 then LowRisk else if score < 60 then ModerateRisk else HighRisk
  }

  function LevelRank(level: RiskLevel): nat
  {
    match level
    case LowRisk => 0
    case ModerateRisk => 1
    case HighRisk => 2
  }

  /** A higher score never gives a lower level. */
  lemma ClientLevelMonotone(a: int, b: int)
    requires a <= b
    ensures LevelRank(ClientLevel(a)) <= LevelRank(ClientLevel(b))
  {
  }

  /** A moderate result rests on at least two factors and a high one on at least three, so the
      explanation's slice of two or three factors is always full. */
  lemma LevelNeedsFactors(patient: PatientDetails, metrics: HealthMetrics, bmi: nat)
    ensures ClientLevel(Clamp(RawScore(patient, metrics, bmi))) == ModerateRisk ==> |Factors(patient, metrics, bmi)| >= 2
    ensures ClientLevel(Clamp(RawScore(patient, metrics, bmi))) == HighRisk ==> |Factors(patient, metrics, bmi)| >= 3
  {
    ScoreNeedsFactors(patient, metrics, bmi);
  }

  // ---------------------------------------------------------------------------------------------
  // generateExplanation

  /** `name.split(' ')[0]`: everything before the first space, or the whole name when it has none. */
  function FirstName(name: string): (r: string)
    ensures r <= name
    ensures ' ' !in r
    ensures |r| < |name| ==> name[|r|] == ' '
  {
    if name == [] || name[0] == ' ' then [] else [name[0]] + FirstName(name[1..])
  }

  /** How `${bmi}` renders a value on the one-decimal grid: `24.5`, but `25` rather than `25.0`. */
  function TenthsText(tenths: nat): (r: string)
    ensures tenths % 10 == 0 <==> '.' !in r
  {
    var whole := NatText(tenths / 10);
    if tenths % 10 == 0 then whole else whole + "." + [DigitChar(tenths % 10)]
  }

  /** Distinct BMI values are rendered as distinct texts. */
  lemma TenthsTextInjective(t: nat, u: nat)
    requires TenthsText(t) == TenthsText(u)
    ensures t == u
  {
    var a, b := NatText(t / 10), NatText(u / 10);
    if t % 10 == 0 && u % 10 == 0 {
      NatTextInjective(t / 10, u / 10);
    } else if t % 10 != 0 && u % 10 != 0 {
      var s := TenthsText(t);
      assert |a| == |b|;
      assert a == s[..|a|] == b;
      NatTextInjective(t / 10, u / 10);
      assert s[|s| - 1] == DigitChar(t % 10) == DigitChar(u % 10);
    }
  }

  const LowOpening := "Great news, "
  const LowMiddle := "! Based on our AI-powered analysis, your overall health indicators suggest a low risk for silent diseases. Your BMI of "
  const LowClosing := " and current lifestyle factors are within healthy ranges. Continue maintaining your healthy habits!"
  const ModerateMiddle := "our analysis indicates a moderate risk level that warrants attention. Key contributing factors include "
  const ModerateClosing := ". With some lifestyle modifications and regular monitoring, you can significantly reduce your risk."
  const HighMiddle := "our AI analysis has identified several risk factors that require attention: "
  const HighClosing := ". We strongly recommend consulting with a healthcare professional for a comprehensive evaluation and personalized guidance."

  /** The first two factors joined by " and " (moderate) or the first three joined by ", " (high). */
  function TopFactors(level: RiskLevel, factors: seq<string>): (r: string)
    ensures level == ModerateRisk && |factors| >= 2 ==> r == factors[0] + " and " + factors[1]
    ensures level != ModerateRisk && |factors| >= 3 ==> r == factors[0] + ", " + factors[1] + ", " + factors[2]
  {
    if level == ModerateRisk then
      var top := Take(factors, 2);
      assert |factors| >= 2 ==> Join(top[1..], " and ") == factors[1];
      Join(top, " and ")
    else
      var top := Take(factors, 3);
      assert |factors| >= 3 ==> Join(top[1..], ", ") == factors[1] + ", " + factors[2] by {
        if |factors| >= 3 {
          assert Join(top[1..][1..], ", ") == factors[2];
        }
      }
      Join(top, ", ")
  }

  /** How the explanation opens: "Great news, <first name>" when low, "<first name>, " otherwise. */
  function Greeting(level: RiskLevel, firstName: string): string
  {
    if level == LowRisk then LowOpening + firstName else firstName + ", "
  }

  /** The rest of the template: the BMI sentence when low, the top factors otherwise. */
  function ExplanationBody(level: RiskLevel, factors: seq<string>, bmi: nat): string
  {
    match level
    case LowRisk => LowMiddle + TenthsText(bmi) + LowClosing
    case ModerateRisk => ModerateMiddle + TopFactors(level, factors) + ModerateClosing
    case HighRisk => HighMiddle + TopFactors(level, factors) + HighClosing
  }

  /** The explanation text: one template per level, addressed to the first word of the name. */
  function GenerateExplanation(name: string, level: RiskLevel, factors: seq<string>, bmi: nat): (r: string)
    ensures level == LowRisk ==> LowOpening + FirstName(name) <= r
    ensures level != LowRisk ==> FirstName(name) + ", " <= r
  {
    var greeting := Greeting(level, FirstName(name));
    PrefixOfConcat(greeting, ExplanationBody(level, factors, bmi));
    greeting + ExplanationBody(level, factors, bmi)
  }

  /** The low explanation quotes the BMI; the others name each of their two or three top factors. */
  lemma {:induction false} ExplanationNamesTopFactors(name: string, level: RiskLevel, factors: seq<string>, bmi: nat, i: nat)
    ensures level == LowRisk ==> IsInfix(TenthsText(bmi), GenerateExplanation(name, level, factors, bmi))
    ensures level == ModerateRisk && i < 2 && i < |factors| ==> IsInfix(factors[i], GenerateExplanation(name, level, factors, bmi))
    ensures level == HighRisk && i < 3 && i < |factors| ==> IsInfix(factors[i], GenerateExplanation(name, level, factors, bmi))
  {
    var greeting, body := Greeting(level, FirstName(name)), ExplanationBody(level, factors, bmi);
    var item: Option<string> := None;
    if level == LowRisk {
      var t := TenthsText(bmi);
      assert OccursAt(t, t, 0);
      InfixWithin(t, LowMiddle, t, LowClosing);
      item := Some(t);
    } else if i < |factors| && ((level == ModerateRisk && i < 2) || (level == HighRisk && i < 3)) {
      var top := Take(factors, if level == ModerateRisk then 2 else 3);
      JoinContainsItem(top, if level == ModerateRisk then " and " else ", ", i);
      assert top[i] == factors[i];
      if level == ModerateRisk {
        InfixWithin(factors[i], ModerateMiddle, TopFactors(level, factors), ModerateClosing);
      } else {
        InfixWithin(factors[i], HighMiddle, TopFactors(level, factors), HighClosing);
      }
      item := Some(factors[i]);
    }
    if item.Some? {
      InfixWithin(item.value, greeting, body, []);
      assert greeting + body + [] == greeting + body;
    }
  }

  /** The moderate text lists its two top factors joined by " and ", the high text its three joined
      by ", ", in factor order. */
  lemma ExplanationJoinsTopFactors(name: string, level: RiskLevel, factors: seq<string>, bmi: nat)
    ensures level == ModerateRisk && |factors| >= 2
      ==> IsInfix(factors[0] + " and " + factors[1], GenerateExplanation(name, level, factors, bmi))
    ensures level == HighRisk && |factors| >= 3
      ==> IsInfix(factors[0] + ", " + factors[1] + ", " + factors[2], GenerateExplanation(name, level, factors, bmi))
  {
    var greeting, body := Greeting(level, FirstName(name)), ExplanationBody(level, factors, bmi);
    var top := TopFactors(level, factors);
    assert IsInfix(top, top);
    if level == ModerateRisk {
      InfixWithin(top, ModerateMiddle, top, ModerateClosing);
    } else if level == HighRisk {
      InfixWithin(top, HighMiddle, top, HighClosing);
    }
    if level != LowRisk {
      InfixWithin(top, greeting, body, []);
      assert greeting + body + [] == greeting + body;
    }
  }

  // ---------------------------------------------------------------------------------------------
  // generateRecommendations

  const LowAdvice := [
    "Maintain your current healthy lifestyle habits",
    "Continue regular physical activity (30 min/day recommended)",
    "Schedule routine health check-ups annually",
    "Stay hydrated and maintain a balanced diet"]
  const ModerateAdvice := [
    "Consider increasing physical activity to at least 150 min/week",
    "Monitor your blood pressure and blood sugar regularly",
    "Adopt a heart-healthy diet rich in fruits, vegetables, and whole grains",
    "Practice stress management techniques like meditation or yoga",
    "Schedule a health screening within the next 3 months"]
  const HighAdvice := [
    "Consult a healthcare professional as soon as possible",
    "Request comprehensive blood work and cardiac evaluation",
    "Implement immediate lifestyle changes under medical supervision",
    "Monitor vital signs daily and keep a health journal",
    "Consider working with a nutritionist for dietary planning"]
  const CessationAdvice := "Seek support for smoking cessation programs"

  /** The checklist for a level: four items when low, five when moderate, and five when high plus a
      sixth, the smoking-cessation item, exactly for smokers. */
  function Advice(level: RiskLevel, smoking: bool): (r: seq<string>)
    ensures |r| == match level
      case LowRisk => 4
      case ModerateRisk => 5
      case HighRisk => if smoking then 6 else 5
    ensures CessationAdvice in r <==> level == HighRisk && smoking
  {
    match level
    case LowRisk => LowAdvice
    case ModerateRisk => ModerateAdvice
    case HighRisk => if smoking then HighAdvice + [CessationAdvice] else HighAdvice
  }

  /** Pushes the level's fixed checklist; the factor list is accepted but, as in the source, unused. */
  method GenerateRecommendations(level: RiskLevel, factors: seq<string>, metrics: HealthMetrics)
    returns (recommendations: seq<string>)
    ensures recommendations == Advice(level, metrics.smokingStatus)
  {
    recommendations := [];
    if level == LowRisk {
      recommendations := recommendations + [LowAdvice[0]];
      recommendations := recommendations + [LowAdvice[1]];
      recommendations := recommendations + [LowAdvice[2]];
      recommendations := recommendations + [LowAdvice[3]];
    } else if level == ModerateRisk {
      recommendations := recommendations + [ModerateAdvice[0]];
      recommendations := recommendations + [ModerateAdvice[1]];
      recommendations := recommendations + [ModerateAdvice[2]];
      recommendations := recommendations + [ModerateAdvice[3]];
      recommendations := recommendations + [ModerateAdvice[4]];
    } else {
      recommendations := recommendations + [HighAdvice[0]];
      recommendations := recommendations + [HighAdvice[1]];
      recommendations := recommendations + [HighAdvice[2]];
      recommendations := recommendations + [HighAdvice[3]];
      recommendations := recommendations + [HighAdvice[4]];
      if metrics.smokingStatus {
        recommendations := recommendations + [CessationAdvice];
      }
    }
  }

  // ---------------------------------------------------------------------------------------------
  // analyzeRisk

  /** `85 + Math.floor(Math.random() * 10)` for a draw `random` of `Math.random()`. */
  function Confidence(random: real): (c: int)
    requires 0.0 <= random < 1.0
    ensures 85 <= c <= 94
  {
    85 + (random * 10.0).Floor
  }

  /** The scoring half of `analyzeRisk`: the ten tiers applied in order to a score starting at 0
      and an empty factor list. */
  method ScoreTiers(patient: PatientDetails, metrics: HealthMetrics, bmi: nat) returns (riskScore: int, factors: seq<string>)
    ensures riskScore == RawScore(patient, metrics, bmi)
    ensures factors == Factors(patient, metrics, bmi)
  {
    riskScore := 0;
    factors := [];
    riskScore, factors := ApplyRule(riskScore, factors, AgeRule(patient.age));
    riskScore, factors := ApplyRule(riskScore, factors, BmiRule(bmi));
    riskScore, factors := ApplyRule(riskScore, factors, BloodPressureRule(metrics.systolicBP, metrics.diastolicBP));
    riskScore, factors := ApplyRule(riskScore, factors, BloodSugarRule(metrics.bloodSugar));
    riskScore, factors := ApplyRule(riskScore, factors, HeartRateRule(metrics.heartRate));
    riskScore, factors := ApplyRule(riskScore, factors, SmokingRule(metrics.smokingStatus));
    riskScore, factors := ApplyRule(riskScore, factors, AlcoholRule(metrics.alcoholConsumption));
    riskScore, factors := ApplyRule(riskScore, factors, ActivityRule(metrics.physicalActivity));
    riskScore, factors := ApplyRule(riskScore, factors, FamilyHistoryRule(metrics.familyHistory));
    riskScore, factors := ApplyRule(riskScore, factors, StressRule(metrics.stressLevel));
  }

  /** The if/else-if chain that assigns `riskLevel`. */
  method ClassifyScore(riskScore: int) returns (riskLevel: RiskLevel)
    ensures riskLevel == ClientLevel(riskScore)
  {
    if riskScore < 30 {
      riskLevel := LowRisk;
    } else if riskScore < 60 {
      riskLevel := ModerateRisk;
    } else {
      riskLevel := HighRisk;
    }
  }

  /** `analyzeRisk`: the tiers, the clamp, the 30/60 classification, then the text.
      `bmi` is `calculateBMI(height, weight)` in tenths and `random` the draw of `Math.random()`. */
  method AnalyzeRisk(patient: PatientDetails, metrics: HealthMetrics, bmi: nat, random: real) returns (result: RiskResult)
    requires 0.0 <= random < 1.0
    ensures result.riskScore == Clamp(RawScore(patient, metrics, bmi))
    ensures result.riskLevel == ClientLevel(result.riskScore)
    ensures result.confidence == Confidence(random)
    ensures result.explanation == GenerateExplanation(patient.fullName, result.riskLevel, Factors(patient, metrics, bmi), bmi)
    ensures result.recommendations == Advice(result.riskLevel, metrics.smokingStatus)
  {
    var riskScore, factors := ScoreTiers(patient, metrics, bmi);
    riskScore := Clamp(riskScore);
    var riskLevel := ClassifyScore(riskScore);
    var explanation := GenerateExplanation(patient.fullName, riskLevel, factors, bmi);
    var recommendations := GenerateRecommendations(riskLevel, factors, metrics);
    var confidence := 85 + (random * 10.0).Floor;
    result := RiskResult(riskScore, riskLevel, confidence, explanation, recommendations);
  }

  /** The explanation of a moderate or high result names every one of its two or three top factors,
      which are the first tiers that fired. */
  lemma AnalysisNamesTopFactors(patient: PatientDetails, metrics: HealthMetrics, bmi: nat, i: nat)
    ensures var level, factors := ClientLevel(Clamp(RawScore(patient, metrics, bmi))), Factors(patient, metrics, bmi);
      ((level == ModerateRisk && i < 2) || (level == HighRisk && i < 3))
      ==> i < |factors| && IsInfix(factors[i], GenerateExplanation(patient.fullName, level, factors, bmi))
    ensures var level, factors := ClientLevel(Clamp(RawScore(patient, metrics, bmi))), Factors(patient, metrics, bmi);
      level == ModerateRisk
      ==> |factors| >= 2 && IsInfix(factors[0] + " and " + factors[1], GenerateExplanation(patient.fullName, level, factors, bmi))
    ensures var level, factors := ClientLevel(Clamp(RawScore(patient, metrics, bmi))), Factors(patient, metrics, bmi);
      level == HighRisk
      ==> |factors| >= 3 && IsInfix(factors[0] + ", " + factors[1] + ", " + factors[2], GenerateExplanation(patient.fullName, level, factors, bmi))
  {
    LevelNeedsFactors(patient, metrics, bmi);
    ExplanationJoinsTopFactors(patient.fullName, ClientLevel(Clamp(RawScore(patient, metrics, bmi))), Factors(patient, metrics, bmi), bmi);
    ExplanationNamesTopFactors(patient.fullName, ClientLevel(Clamp(RawScore(patient, metrics, bmi))), Factors(patient, metrics, bmi), bmi, i);
  }
}
