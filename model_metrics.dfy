/**
 * The model-performance panel's presentation rules: the colour tier a score falls in, the
 * style classes and badge label derived from it, and the rounded percentage shown.
 */
module ModelMetrics {
  import opened Health
  import opened JsMath

  /**
   * The tier a score in [0, 1] is shown in: 0.9 and above as normal, 0.8 and above as a
   * warning, anything lower as critical. The bounds are inclusive.
   */
  function ScoreTier(score: real): (t: PatientStatus)
    ensures t == Normal <==> score >= 0.9
    ensures t == Warning <==> 0.8 <= score < 0.9
    ensures t == Critical <==> score < 0.8
  {
    if score >= 0.9 then Normal
    else if score >= 0.8 then Warning
    else Critical
  }

  /** `getScoreColor`: the text colour class of the score's tier. */
  function ScoreColor(score: real): (c: string)
    ensures c == "text-status-" + StatusName(ScoreTier(score))
  {
    if score >= 0.9 then "text-status-normal"
    else if score >= 0.8 then "text-status-warning"
    else "text-status-critical"
  }

  /** `getScoreBg`: the background class of the score's tier. */
  function ScoreBg(score: real): (c: string)
    ensures c == "bg-status-" + StatusName(ScoreTier(score)) + "-bg"
  {
    if score >= 0.9 then "bg-status-normal-bg"
    else if score >= 0.8 then "bg-status-warning-bg"
    else "bg-status-critical-bg"
  }

  /** The label of each tier on the ROC AUC badge. */
  function TierLabel(t: PatientStatus): string {
    match t
    case Normal => "Excellent"
    case Warning => "Good"
    case Critical => "Needs Improvement"
  }

  /** The ROC AUC badge text, written with the panel's own thresholds. */
  function RocAucLabel(rocAuc: real): (l: string)
    ensures l == TierLabel(ScoreTier(rocAuc))
  {
    if rocAuc >= 0.9 then "Excellent" else if rocAuc >= 0.8 then "Good" else "Needs Improvement"
  }

  /** A higher score never lands in a more severe tier. */
  lemma TierMonotone(a: real, b: real)
    requires a <= b
    ensures Severity(ScoreTier(b)) <= Severity(ScoreTier(a))
  {
  }

  /**
   * The colour, the background and the badge label each tell the tiers apart: two scores
   * get the same class, or the same label, exactly when they are in the same tier, so the
   * badge's label always matches its colours.
   */
  lemma {:induction false} PresentationDeterminedByTier(a: real, b: real)
    ensures ScoreColor(a) == ScoreColor(b) <==> ScoreTier(a) == ScoreTier(b)
    ensures ScoreBg(a) == ScoreBg(b) <==> ScoreTier(a) == ScoreTier(b)
    ensures RocAucLabel(a) == RocAucLabel(b) <==> ScoreTier(a) == ScoreTier(b)
  {
    var ca, cb := ScoreColor(a), ScoreColor(b);
    if ca == cb {
      assert ca[12] == cb[12];
    }
    var ga, gb := ScoreBg(a), ScoreBg(b);
    if ga == gb {
      assert ga[10] == gb[10];
    }
    var la, lb := RocAucLabel(a), RocAucLabel(b);
    if la == lb {
      assert la[0] == lb[0];
    }
  }

  /** The percentage shown for a metric: `Math.round(value * 100)`. */
  function Percentage(value: real): (p: int)
    ensures value * 100.0 - 0.5 < p as real <= value * 100.0 + 0.5
  {
    Round(value * 100.0)
  }

  /** Rounding keeps order, and a score in [0, 1] shows as a percentage in [0, 100]. */
  lemma PercentageMonotone(a: real, b: real)
    requires a <= b
    ensures Percentage(a) <= Percentage(b)
    ensures 0.0 <= a <= 1.0 ==> 0 <= Percentage(a) <= 100
  {
    RoundMonotone(a * 100.0, b * 100.0);
  }
}
