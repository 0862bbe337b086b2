/** The conclusion screen (front/src/components/views/ConcludeView.jsx): the
    gauge needle's angle and colour, the colour of the score number and the
    description under it. */
module ConcludeView {
  import opened Common
  import opened JsValues
  import opened TrustScore

  /** `(score / 100) * 180 - 90`, in degrees. */
  function GaugeRotation(score: real): real
  {
    (score / 100.0) * 180.0 - 90.0
  }

  /** The needle sweeps a half circle: 0 points left, 50 straight up, 100
      right; the angle grows with the score and stays within ±90 for scores
      in [0, 100]. */
  lemma GaugeRotationLaws(s: real, t: real)
    ensures GaugeRotation(0.0) == -90.0 && GaugeRotation(50.0) == 0.0 && GaugeRotation(100.0) == 90.0
    ensures s < t ==> GaugeRotation(s) < GaugeRotation(t)
    ensures 0.0 <= s <= 100.0 ==> -90.0 <= GaugeRotation(s) <= 90.0
  {
  }

  /** The gauge is fed `conclusion.trustScore || 0`. */
  function GaugeScore(conclusion: JsValue): (r: Option<real>)
    ensures !Truthy(Get(conclusion, "trustScore")) ==> r == Some(0.0)
    ensures Truthy(Get(conclusion, "trustScore")) ==> r == ToNumber(Get(conclusion, "trustScore"))
  {
    ScoreOrZero(Get(conclusion, "trustScore"))
  }

  /** The needle, drawn from the gauge's own (already defaulted) score. */
  function NeedleColor(score: Option<real>): ColorBand
  {
    if AtLeast(score, 75.0) then High else if AtLeast(score, 50.0) then Medium else Low
  }

  /** The big number: `props.score || 0`, banded at the same 75 and 50. */
  function NumberColor(score: JsValue): ColorBand
  {
    var s := ScoreOrZero(score);
    if AtLeast(s, 75.0) then High else if AtLeast(s, 50.0) then Medium else Low
  }

  /** Needle and number agree for every conclusion, and both band at 75 and
      50, not at the 70 and 40 of the shared colour helper. */
  lemma NeedleAndNumberAgree(conclusion: JsValue)
    ensures NeedleColor(GaugeScore(conclusion)) == NumberColor(Get(conclusion, "trustScore"))
    ensures var s := GaugeScore(conclusion);
      (NeedleColor(s) == High <==> AtLeast(s, 75.0))
      && (NeedleColor(s) == Medium <==> AtLeast(s, 50.0) && !AtLeast(s, 75.0))
      && (NeedleColor(s) == Low <==> !AtLeast(s, 50.0))
    ensures NeedleColor(Some(72.0)) == Medium && TrustScoreColor(Some(72.0)) == High
  {
  }

  /** The description is computed from the raw `trustScore`, without the
      `|| 0` default; a missing score still reads as the lowest band. */
  function Description(conclusion: JsValue): (d: string)
    ensures d == TrustScoreDescription(ToNumber(Get(conclusion, "trustScore")))
    ensures Get(conclusion, "trustScore").JsUndefined? ==> d == INACCURATE_DESCRIPTION
  {
    TrustScoreDescription(ToNumber(Get(conclusion, "trustScore")))
  }
}
