/**
 * The engine driven end to end as the pipeline is meant to run: each
 * reading is ingested and then analysed, as if the message consumer saw
 * every reading the service publishes.
 */
module Scenario {
  import opened Types
  import opened Seqs
  import opened Store
  import opened Thresholds
  import opened Engine
  import opened Queries

  /** The level of the i-th reading of the ramp. */
  function RampLevel(i: nat): real {
    0.05 + 0.01 * i as real
  }

  /** How many of the first n ramp readings raise a WARNING alert (those with 45 <= i < 95). */
  function RampWarnings(n: nat): nat {
    if n <= 45 then 0 else if n <= 95 then n - 45 else 50
  }

  /** ANOMALY alerts never show up under another severity filter. */
  lemma AnomalyAlertsHidden(xs: seq<Alert>, data: Reading, score: real, now: Timestamp, tag: string)
    requires tag != "ANOMALY"
    ensures Filter(xs + AnomalyAlerts(data, score, now), WithSeverity(tag)) == Filter(xs, WithSeverity(tag))
  {
    FilterConcat(xs, AnomalyAlerts(data, score, now), WithSeverity(tag));
  }

  /** The threshold alert of the i-th ramp reading, as the WARNING and DANGER filters see it. */
  lemma RampThresholdAlert(xs: seq<Alert>, r: Reading, i: nat)
    requires r.level == RampLevel(i) && i < 95
    ensures |Filter(xs + AlertList(ThresholdAlert(r)), WithSeverity("WARNING"))|
            == |Filter(xs, WithSeverity("WARNING"))| + (if 45 <= i then 1 else 0)
    ensures Filter(xs + AlertList(ThresholdAlert(r)), WithSeverity("DANGER")) == Filter(xs, WithSeverity("DANGER"))
  {
    RampAlerts(r, i);
    FilterConcat(xs, AlertList(ThresholdAlert(r)), WithSeverity("WARNING"));
    FilterConcat(xs, AlertList(ThresholdAlert(r)), WithSeverity("DANGER"));
  }

  /** What the ramp guarantees after its first i readings. */
  ghost predicate RampState(m: Monitor, location: string, i: nat)
    reads m
  {
    && m.Valid()
    && |m.readings| == i
    && ReadingsAt(m.readings, location) == m.readings
    && |m.analysis| == (if i < WARM_UP then 0 else i - WARM_UP + 1)
    && |Filter(m.alerts, WithSeverity("WARNING"))| == RampWarnings(i)
    && Filter(m.alerts, WithSeverity("DANGER")) == []
  }

  /** The i-th reading of the ramp, as it arrives. */
  function RampReading(location: string, i: nat): SensorReading {
    SensorReading("sensor-1", location, Some(i), RampLevel(i), 25.0, 60.0, 1013.0)
  }

  /** Ingest the i-th ramp reading. */
  method RampIngest(m: Monitor, location: string, i: nat)
    requires i < 60 && RampState(m, location, i)
    modifies m
    ensures m.Valid() && |m.readings| == i + 1 && ReadingsAt(m.readings, location) == m.readings
    ensures m.analysis == old(m.analysis)
    ensures |Filter(m.alerts, WithSeverity("WARNING"))| == RampWarnings(i + 1)
    ensures Filter(m.alerts, WithSeverity("DANGER")) == []
  {
    var reading := Stamp(RampReading(location, i), i);
    ghost var readings0, alerts0 := m.readings, m.alerts;
    var _ := m.ProcessSensorData(RampReading(location, i), i);
    ReadingsAtAppend(readings0, reading, location);
    RampThresholdAlert(alerts0, reading, i);
  }

  /** Analyse the i-th ramp reading once it is stored. */
  method RampAnalyse(m: Monitor, location: string, score: Scorer, i: nat)
    requires i < 60
    requires m.Valid() && |m.readings| == i + 1 && ReadingsAt(m.readings, location) == m.readings
    requires |m.analysis| == (if i < WARM_UP then 0 else i - WARM_UP + 1)
    requires |Filter(m.alerts, WithSeverity("WARNING"))| == RampWarnings(i + 1)
    requires Filter(m.alerts, WithSeverity("DANGER")) == []
    modifies m
    ensures RampState(m, location, i + 1)
  {
    var reading := Stamp(RampReading(location, i), i);
    ghost var alerts1 := m.alerts;
    m.PerformAnalysis(reading, score, i, i);
    if WARM_UP <= |m.readings| {
      var s := score(m.trainedOn, FeaturesOf(reading));
      AnomalyAlertsHidden(alerts1, reading, s, i, "WARNING");
      AnomalyAlertsHidden(alerts1, reading, s, i, "DANGER");
    }
  }

  /**
   * Sixty readings from one sensor at one location, levels 0.05 + 0.01 * i:
   * no alert until i = 45, then one WARNING alert per reading and no DANGER
   * alert; an analysis result for the 50th reading and every one after it
   * (eleven in all), whatever the anomaly scores.
   */
  method Ramp(location: string, score: Scorer) returns (analysed: nat, warnings: nat, dangers: nat)
    ensures analysed == 11 && warnings == 15 && dangers == 0
  {
    var m := new Monitor();
    var i := 0;
    while i < 60
      invariant 0 <= i <= 60
      invariant RampState(m, location, i)
    {
      RampIngest(m, location, i);
      RampAnalyse(m, location, score, i);
      i := i + 1;
    }
    analysed := |m.analysis|;
    TagIsUpperCase(WarningAlert);
    TagIsUpperCase(DangerAlert);
    warnings := |GetAlerts(m.alerts, Some("WARNING"), Some(0))|;
    dangers := |GetAlerts(m.alerts, Some("DANGER"), Some(0))|;
  }
}
