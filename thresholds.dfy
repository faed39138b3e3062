/**
 * Threshold evaluation: the alert `check_thresholds` raises for a reading,
 * and the SAFE/WARNING/DANGER tier `get_system_status` reports for a
 * location's latest reading.
 */
module Thresholds {
  import opened Types

  /** The status tier of a concentration level. */
  datatype Tier = Safe | Warning | Danger

  /** The tier `get_system_status` reports for the latest level of a location. */
  function Classify(level: real): (t: Tier)
    ensures t == Danger <==> DANGER_THRESHOLD <= level
    ensures t == Warning <==> WARNING_THRESHOLD <= level < DANGER_THRESHOLD
    ensures t == Safe <==> level < WARNING_THRESHOLD
  {
    if level >= DANGER_THRESHOLD then Danger
    else if level >= WARNING_THRESHOLD then Warning
    else Safe
  }

  /** The alert `check_thresholds` raises for a stored reading, if any. */
  function ThresholdAlert(r: Reading): (a: Option<Alert>)
    ensures a.None? <==> r.level < WARNING_THRESHOLD
    ensures a.Some? ==> a.value.severity == (if DANGER_THRESHOLD <= r.level then DangerAlert else WarningAlert)
    ensures a.Some? ==> a.value.sensorId == r.sensorId && a.value.location == r.location
                        && a.value.timestamp == r.timestamp && a.value.level == r.level
  {
    if r.level >= DANGER_THRESHOLD then
      Some(Alert(r.sensorId, r.location, r.timestamp, r.level, DangerAlert))
    else if r.level >= WARNING_THRESHOLD then
      Some(Alert(r.sensorId, r.location, r.timestamp, r.level, WarningAlert))
    else
      None
  }

  /** Tiers ordered by how severe they are. */
  function Rank(t: Tier): nat {
    match t
    case Safe => 0
    case Warning => 1
    case Danger => 2
  }

  /** A higher level never gets a milder tier. */
  lemma ClassifyMonotone(a: real, b: real)
    requires a <= b
    ensures Rank(Classify(a)) <= Rank(Classify(b))
  {
  }

  /**
   * The alert log and the status page agree: a reading raises no alert
   * exactly when its tier is SAFE, a WARNING alert exactly when its tier is
   * WARNING, and a DANGER alert exactly when its tier is DANGER.
   */
  lemma AlertAgreesWithTier(r: Reading)
    ensures ThresholdAlert(r).None? <==> Classify(r.level) == Safe
    ensures ThresholdAlert(r) == Some(Alert(r.sensorId, r.location, r.timestamp, r.level, WarningAlert))
            <==> Classify(r.level) == Warning
    ensures ThresholdAlert(r) == Some(Alert(r.sensorId, r.location, r.timestamp, r.level, DangerAlert))
            <==> Classify(r.level) == Danger
  {
  }

  /**
   * The ramp 0.05 + 0.01 * i: no alert while i < 45, WARNING for
   * 45 <= i < 95, DANGER from 95 on.
   */
  lemma RampAlerts(r: Reading, i: nat)
    requires r.level == 0.05 + 0.01 * i as real
    ensures ThresholdAlert(r).None? <==> i < 45
    ensures ThresholdAlert(r).Some? && ThresholdAlert(r).value.severity == WarningAlert <==> 45 <= i < 95
    ensures ThresholdAlert(r).Some? && ThresholdAlert(r).value.severity == DangerAlert <==> 95 <= i
  {
  }
}
