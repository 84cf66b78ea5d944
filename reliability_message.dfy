/**
 * The reliability text of frontend/src/components/reliability-message.tsx:
 * a score outside [0, 1] means the sensor is still calibrating; any other is
 * shown through the value formatter, which is a parameter here.
 */
module ReliabilityText {

  /** The message shown while a score is out of range (spelling as in the source). */
  const CalibrationMessage := "Initial data, it may take few minutes to callibrate"

  /**
   * The range check on the score scaled by 100; over exact numbers it is the
   * dashboard's own `r > 1 || r < 0` test, so the two never disagree.
   */
  predicate OutOfRange(score: real)
    ensures OutOfRange(score) <==> score > 1.0 || score < 0.0
  {
    var percent := score * 100.0;
    percent > 100.0 || percent < 0.0
  }

  /**
   * `getReliabilityMessage`, with `formatValue(r, "reliability_score")` as
   * `format`: the calibration message exactly when the score is out of
   * range, the formatted score otherwise, the ends 0 and 1 included.
   */
  function ReliabilityMessage(score: real, format: real -> string): (r: string)
    ensures score < 0.0 || score > 1.0 ==> r == CalibrationMessage
    ensures 0.0 <= score <= 1.0 ==> r == format(score)
  {
    if OutOfRange(score) then CalibrationMessage else format(score)
  }

  /**
   * The dashboard's stat card tests `r > 1 || r < 0` itself before calling
   * `getReliabilityMessage` and otherwise formats the score directly; the
   * card therefore shows exactly what the message function alone would.
   */
  lemma StatCardAgreesWithMessage(score: real, format: real -> string)
    ensures (if score > 1.0 || score < 0.0 then ReliabilityMessage(score, format) else format(score))
         == ReliabilityMessage(score, format)
  {
  }
}
