/** The score badge and ring of the results screen
    (HealthGuardAI/Silent-Sentinel/client/src/components/RiskIndicator.tsx). */
module RiskIndicator {
  import opened Common

  /** The three bands the component distinguishes. */
  datatype Band = LowBand | ModerateBand | HighBand

  /** The three values the component derives from the band: classes, label and gradient. */
  datatype Badge = Badge(colorClass: string, labelText: string, gradient: string)

  /** The 40/70 banding: low below 40, moderate from 40 up to 70, high from 70. */
  function BandOf(score: real): (b: Band)
    ensures b == LowBand <==> score < 40.0
    ensures b == ModerateBand <==> 40.0 <= score < 70.0
    ensures b == HighBand <==> score >= 70.0
  {
    if score >= 40.0 && score < 70.0 then ModerateBand else if score >= 70.0 then HighBand else LowBand
  }

  /** The text colour class of each band, the first class of the badge's class list. */
  function TextColor(b: Band): string
  {
    match b
    case LowBand => "text-green-500"
    case ModerateBand => "text-orange-500"
    case HighBand => "text-red-500"
  }

  /** The three values of each band; the label names the band and no other. */
  function BandBadge(b: Band): (r: Badge)
    ensures r.labelText == "Low Risk" <==> b == LowBand
    ensures r.labelText == "Moderate Risk" <==> b == ModerateBand
    ensures r.labelText == "High Risk" <==> b == HighBand
  {
    match b
    case LowBand => Badge("text-green-500 bg-green-50 border-green-200", "Low Risk", "from-green-500 to-emerald-400")
    case ModerateBand => Badge("text-orange-500 bg-orange-50 border-orange-200", "Moderate Risk", "from-orange-500 to-amber-400")
    case HighBand => Badge("text-red-500 bg-red-50 border-red-200", "High Risk", "from-red-500 to-rose-400")
  }

  /** The label names the band: "Low Risk" exactly below 40, "Moderate Risk" exactly on [40,70),
      "High Risk" exactly from 70. */
  lemma LabelIffBand(score: real)
    ensures BandBadge(BandOf(score)).labelText == "Low Risk" <==> score < 40.0
    ensures BandBadge(BandOf(score)).labelText == "Moderate Risk" <==> 40.0 <= score < 70.0
    ensures BandBadge(BandOf(score)).labelText == "High Risk" <==> score >= 70.0
  {
  }

  /** The component body: low defaults, overwritten by the if/else-if chain. */
  method ChooseBadge(score: real) returns (badge: Badge)
    ensures badge == BandBadge(BandOf(score))
  {
    var colorClass := "text-green-500 bg-green-50 border-green-200";
    var labelText := "Low Risk";
    var gradient := "from-green-500 to-emerald-400";
    if score >= 40.0 && score < 70.0 {
      colorClass := "text-orange-500 bg-orange-50 border-orange-200";
      labelText := "Moderate Risk";
      gradient := "from-orange-500 to-amber-400";
    } else if score >= 70.0 {
      colorClass := "text-red-500 bg-red-50 border-red-200";
      labelText := "High Risk";
      gradient := "from-red-500 to-rose-400";
    }
    badge := Badge(colorClass, labelText, gradient);
  }

  /** The ring's colour class, chosen by its own nested conditional: the colour of the same band
      the badge shows. */
  function RingColor(score: real): (r: string)
    ensures r == TextColor(BandOf(score))
  {
    if score >= 70.0 then "text-red-500" else if score >= 40.0 then "text-orange-500" else "text-green-500"
  }

  /** `440 - (440 * score) / 100`: the undrawn length of a ring of circumference 440. */
  function DashOffset(score: real): (offset: real)
    ensures 0.0 <= score <= 100.0 ==> 0.0 <= offset <= 440.0
  {
    440.0 - (440.0 * score) / 100.0
  }

  /** An empty ring at 0, a full ring at 100, and more score never undraws the ring. */
  lemma DashOffsetShape(a: real, b: real)
    requires a <= b
    ensures DashOffset(0.0) == 440.0 && DashOffset(100.0) == 0.0
    ensures DashOffset(b) <= DashOffset(a)
  {
  }
}
