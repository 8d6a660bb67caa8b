/** The records, enumerations and validation ranges shared by the client engine (HealthGuardAI/src/types/health.ts). */
module HealthTypes {
  import opened Common

  datatype Gender = Male | Female | OtherGender

  datatype PhysicalActivity = LowActivity | ModerateActivity | HighActivity

  datatype StressLevel = LowStress | MediumStress | HighStress

  datatype RiskLevel = LowRisk | ModerateRisk | HighRisk

  /** The string each category has in the source (`'low' | 'moderate' | 'high'`). */
  function RiskLevelName(level: RiskLevel): string
  {
    match level
    case LowRisk => "low"
    case ModerateRisk => "moderate"
    case HighRisk => "high"
  }

  /** Reads a category back from its string; exactly the three names are accepted. */
  function ParseRiskLevel(s: string): (r: Option<RiskLevel>)
    ensures r.Some? <==> s == "low" || s == "moderate" || s == "high"
    ensures r.Some? ==> RiskLevelName(r.value) == s
  {
    if s == "low" then Some(LowRisk)
    else if s == "moderate" then Some(ModerateRisk)
    else if s == "high" then Some(HighRisk)
    else None
  }

  function ActivityName(a: PhysicalActivity): string
  {
    match a
    case LowActivity => "low"
    case ModerateActivity => "moderate"
    case HighActivity => "high"
  }

  /** Reads an activity level back from its string; exactly the three names are accepted. */
  function ParseActivity(s: string): (r: Option<PhysicalActivity>)
    ensures r.Some? <==> s == "low" || s == "moderate" || s == "high"
    ensures r.Some? ==> ActivityName(r.value) == s
  {
    if s == "low" then Some(LowActivity)
    else if s == "moderate" then Some(ModerateActivity)
    else if s == "high" then Some(HighActivity)
    else None
  }

  function StressName(s: StressLevel): string
  {
    match s
    case LowStress => "low"
    case MediumStress => "medium"
    case HighStress => "high"
  }

  /** Reads a stress level back from its string; exactly the three names are accepted. */
  function ParseStress(s: string): (r: Option<StressLevel>)
    ensures r.Some? <==> s == "low" || s == "medium" || s == "high"
    ensures r.Some? ==> StressName(r.value) == s
  {
    if s == "low" then Some(LowStress)
    else if s == "medium" then Some(MediumStress)
    else if s == "high" then Some(HighStress)
    else None
  }

  lemma EnumNamesRoundTrip(level: RiskLevel, a: PhysicalActivity, s: StressLevel)
    ensures ParseRiskLevel(RiskLevelName(level)) == Some(level)
    ensures ParseActivity(ActivityName(a)) == Some(a)
    ensures ParseStress(StressName(s)) == Some(s)
  {
  }

  datatype PatientDetails = PatientDetails(
    fullName: string,
    age: real,
    gender: Gender,
    height: real,
    weight: real,
    city: string)

  datatype HealthMetrics = HealthMetrics(
    systolicBP: real,
    diastolicBP: real,
    bloodSugar: real,
    heartRate: real,
    smokingStatus: bool,
    alcoholConsumption: bool,
    physicalActivity: PhysicalActivity,
    familyHistory: bool,
    stressLevel: StressLevel)

  /** `Partial<PatientDetails>`: every property may be missing (`None`). */
  datatype PartialPatientDetails = PartialPatientDetails(
    fullName: Option<string>,
    age: Option<real>,
    gender: Option<Gender>,
    height: Option<real>,
    weight: Option<real>,
    city: Option<string>)

  /** `Partial<HealthMetrics>`: every property may be missing (`None`). */
  datatype PartialHealthMetrics = PartialHealthMetrics(
    systolicBP: Option<real>,
    diastolicBP: Option<real>,
    bloodSugar: Option<real>,
    heartRate: Option<real>,
    smokingStatus: Option<bool>,
    alcoholConsumption: Option<bool>,
    physicalActivity: Option<PhysicalActivity>,
    familyHistory: Option<bool>,
    stressLevel: Option<StressLevel>)

  datatype RiskResult = RiskResult(
    riskScore: int,
    riskLevel: RiskLevel,
    confidence: int,
    explanation: string,
    recommendations: seq<string>)

  datatype ValidationError = ValidationError(field: string, message: string)

  /** The properties the two validators report on, in the order the validators check them. */
  datatype Field =
    | FullNameField | AgeField | GenderField | HeightField | WeightField
    | SystolicField | DiastolicField | BloodSugarField | HeartRateField | ActivityField | StressField

  /** The property name a validation error carries in its `field`. */
  function FieldName(f: Field): string
  {
    match f
    case FullNameField => "fullName"
    case AgeField => "age"
    case GenderField => "gender"
    case HeightField => "height"
    case WeightField => "weight"
    case SystolicField => "systolicBP"
    case DiastolicField => "diastolicBP"
    case BloodSugarField => "bloodSugar"
    case HeartRateField => "heartRate"
    case ActivityField => "physicalActivity"
    case StressField => "stressLevel"
  }

  /** Reads a property name back; it inverts `FieldName`, so distinct fields have distinct names. */
  function ParseField(name: string): (r: Option<Field>)
    ensures r.Some? ==> FieldName(r.value) == name
  {
    if name == "fullName" then Some(FullNameField)
    else if name == "age" then Some(AgeField)
    else if name == "gender" then Some(GenderField)
    else if name == "height" then Some(HeightField)
    else if name == "weight" then Some(WeightField)
    else if name == "systolicBP" then Some(SystolicField)
    else if name == "diastolicBP" then Some(DiastolicField)
    else if name == "bloodSugar" then Some(BloodSugarField)
    else if name == "heartRate" then Some(HeartRateField)
    else if name == "physicalActivity" then Some(ActivityField)
    else if name == "stressLevel" then Some(StressField)
    else None
  }

  lemma FieldNameRoundTrip(f: Field)
    ensures ParseField(FieldName(f)) == Some(f)
  {
  }

  /** One entry of `VALIDATION_RANGES`: a closed interval. */
  datatype ValueRange = ValueRange(min: nat, max: nat)

  const AgeRange := ValueRange(1, 120)
  const HeightRange := ValueRange(50, 300)
  const WeightRange := ValueRange(10, 500)
  const SystolicRange := ValueRange(70, 250)
  const DiastolicRange := ValueRange(40, 150)
  const BloodSugarRange := ValueRange(30, 600)
  const HeartRateRange := ValueRange(30, 220)

  /** `VALIDATION_RANGES` as a lookup: the numeric properties have an interval, the others none. */
  function ValidationRange(f: Field): (r: Option<ValueRange>)
    ensures r.Some? <==> !(f.FullNameField? || f.GenderField? || f.ActivityField? || f.StressField?)
    ensures r.Some? ==> 0 < r.value.min < r.value.max
  {
    match f
    case AgeField => Some(AgeRange)
    case HeightField => Some(HeightRange)
    case WeightField => Some(WeightRange)
    case SystolicField => Some(SystolicRange)
    case DiastolicField => Some(DiastolicRange)
    case BloodSugarField => Some(BloodSugarRange)
    case HeartRateField => Some(HeartRateRange)
    case _ => None
  }
}
