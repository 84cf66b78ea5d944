/**
 * The display classifiers of frontend/src/lib/utils.ts: the air-quality band
 * of an AQI value and the reliability band of a reliability score, each a
 * status with its fixed text and background colours.
 */
module Indicators {

  datatype Indicator = Indicator(status: string, color: string, bgColor: string)

  const Good := Indicator("Good", "#22c55e", "#dcfce7")
  const Moderate := Indicator("Moderate", "#eab308", "#fef9c3")
  const SensitiveGroups := Indicator("Unhealthy for Sensitive Groups", "#f97316", "#ffedd5")
  const Unhealthy := Indicator("Unhealthy", "#ef4444", "#fee2e2")
  const VeryUnhealthy := Indicator("Very Unhealthy", "#8b5cf6", "#f3e8ff")
  const Hazardous := Indicator("Hazardous", "#7e22ce", "#fae8ff")

  const Inconsistent := Indicator("Inconsistent", "#f97316", "#ffedd5")
  const CannotBeDetermined := Indicator("Cannot Be Determined", "#7e22ce", "#fae8ff")

  /** The air-quality bands, best first. */
  const AqiBands := [Good, Moderate, SensitiveGroups, Unhealthy, VeryUnhealthy, Hazardous]

  /** `getAQIStatus`: inclusive upper bounds 50, 100, 150, 200 and 300; above that, hazardous. */
  function GetAQIStatus(aqi: int): (r: Indicator)
    ensures r.status == "Good" <==> aqi <= 50
    ensures r.status == "Moderate" <==> 50 < aqi <= 100
    ensures r.status == "Unhealthy for Sensitive Groups" <==> 100 < aqi <= 150
    ensures r.status == "Unhealthy" <==> 150 < aqi <= 200
    ensures r.status == "Very Unhealthy" <==> 200 < aqi <= 300
    ensures r.status == "Hazardous" <==> 300 < aqi
    ensures r in AqiBands
  {
    if aqi <= 50 then Good
    else if aqi <= 100 then Moderate
    else if aqi <= 150 then SensitiveGroups
    else if aqi <= 200 then Unhealthy
    else if aqi <= 300 then VeryUnhealthy
    else Hazardous
  }

  /** The position of an indicator among the air-quality bands, 0 for the best. */
  function AqiLevel(ind: Indicator): nat {
    if ind == Good then 0
    else if ind == Moderate then 1
    else if ind == SensitiveGroups then 2
    else if ind == Unhealthy then 3
    else if ind == VeryUnhealthy then 4
    else 5
  }

  /** A higher AQI never lands in a better band. */
  lemma AqiMonotone(a: int, b: int)
    requires a <= b
    ensures AqiLevel(GetAQIStatus(a)) <= AqiLevel(GetAQIStatus(b))
  {
  }

  /** Within the air-quality bands the status alone fixes both colours. */
  lemma AqiColoursFollowStatus(a: int, b: int)
    requires GetAQIStatus(a).status == GetAQIStatus(b).status
    ensures GetAQIStatus(a) == GetAQIStatus(b)
  {
  }

  /**
   * `reliabilityIndicator`: the score is scaled by 100, then banded with
   * inclusive upper bounds 39, 79 and 100; anything above 100 cannot be
   * determined. A negative score falls in the lowest band.
   */
  function ReliabilityIndicator(score: real): (r: Indicator)
    ensures r.status == "Inconsistent" <==> 100.0 * score <= 39.0
    ensures r.status == "Moderate" <==> 39.0 < 100.0 * score <= 79.0
    ensures r.status == "Good" <==> 79.0 < 100.0 * score <= 100.0
    ensures r.status == "Cannot Be Determined" <==> score > 1.0
    ensures r in [Inconsistent, Moderate, Good, CannotBeDetermined]
  {
    var percent := score * 100.0;
    if percent <= 39.0 then Inconsistent
    else if percent <= 79.0 then Moderate
    else if percent <= 100.0 then Good
    else CannotBeDetermined
  }

  /** A higher score never lands in a lower band, up to the undetermined one. */
  lemma ReliabilityMonotone(a: real, b: real)
    requires a <= b
    ensures ReliabilityLevel(ReliabilityIndicator(a)) <= ReliabilityLevel(ReliabilityIndicator(b))
  {
  }

  function ReliabilityLevel(ind: Indicator): nat {
    if ind == Inconsistent then 0
    else if ind == Moderate then 1
    else if ind == Good then 2
    else 3
  }

  /**
   * The two classifiers agree on colours: a status word they share
   * ("Good", "Moderate") carries the same colours in both.
   */
  lemma SharedStatusSharedColours(aqi: int, score: real)
    requires GetAQIStatus(aqi).status == ReliabilityIndicator(score).status
    ensures GetAQIStatus(aqi) == ReliabilityIndicator(score)
  {
  }
}
