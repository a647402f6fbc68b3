/** The three decision thresholds of the process-wide settings (config.py:25-33). */
module Config {

  /** Detector confidence floor `AI_CONF_THRESHOLD`. */
  const ConfThreshold: real := 0.25

  /** Lower cut point `AI_THRESH_LOW`: below it a probability reads as not detected. */
  const ThreshLow: real := 0.4

  /** Upper cut point `AI_THRESH_HIGH`: at or above it a probability reads as detected. */
  const ThreshHigh: real := 0.75

  /** The cut points are ordered the way the dual-threshold rule needs. */
  lemma ThresholdsOrdered()
    ensures 0.0 <= ConfThreshold < ThreshLow < ThreshHigh <= 1.0
  {
  }
}
