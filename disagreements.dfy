/** Where the repository's classifiers disagree: the server's 30/70 text, the badge's 40/70 bands
    and the client engine's 30/60 levels are applied to the same kind of 0-100 score. */
module Disagreements {
  import HealthTypes
  import RiskAnalysis
  import ServerPredict
  import RiskIndicator

  /** A server score in [30,40) is described as moderate risk, while the badge shows "Low Risk". */
  lemma ModerateTextLowBadge(score: int)
    requires 30 <= score < 40
    ensures ServerPredict.LevelText(score) == ServerPredict.ModerateText
    ensures RiskIndicator.BandOf(score as real) == RiskIndicator.LowBand
    ensures RiskIndicator.BandBadge(RiskIndicator.BandOf(score as real)).labelText == "Low Risk"
  {
    RiskIndicator.LabelIffBand(score as real);
  }

  /** The case 35: "Moderate risk." in the text next to a "Low Risk" badge. */
  lemma ScoreThirtyFive()
    ensures ServerPredict.LevelText(35) == ServerPredict.ModerateText
    ensures RiskIndicator.BandBadge(RiskIndicator.BandOf(35.0)).labelText == "Low Risk"
  {
    ModerateTextLowBadge(35);
  }

  /** A score in [60,70) is high for the client engine but moderate for the server text and badge. */
  lemma HighClientModerateServer(score: int)
    requires 60 <= score < 70
    ensures RiskAnalysis.ClientLevel(score) == HealthTypes.HighRisk
    ensures ServerPredict.LevelText(score) == ServerPredict.ModerateText
    ensures RiskIndicator.BandOf(score as real) == RiskIndicator.ModerateBand
  {
  }

  /** The same glucose reading, 150, scores 12 points on the client and 20 on the server. */
  lemma GlucoseWeightsDiffer()
    ensures RiskAnalysis.BloodSugarRule(150.0).delta == 12
    ensures ServerPredict.GlucoseRule(150.0).delta == 20
  {
  }

  /** Server inputs with glucose 150, bp 135, cholesterol 210, 5 hours of sleep, activity 2, stress 4,
      one family condition and calm mental health: glucose and bp are in their upper tiers (+20 each),
      cholesterol in its lower band (+10, no reason), and sleep, activity, stress and family history
      add 10 each, so the raw score is 90 and the text is the high-risk one. */
  lemma ExampleProfile()
    ensures var input := ServerPredict.PredictionInput(ServerPredict.LabTrends(150.0, 135.0, 210.0), 5.0, 2.0, 4.0,
                                                       ["diabetes"], ServerPredict.MentalHealth(3.0, 2.0));
      && ServerPredict.RawScore(input) == 90
      && ServerPredict.LevelText(ServerPredict.Cap(ServerPredict.RawScore(input))) == ServerPredict.HighText
  {
  }
}
