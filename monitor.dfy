/**
 * The monitoring engine's state and the three operations that change it:
 * ingesting a reading, checking it against the thresholds, and the
 * analysis step the message consumer is meant to run on every published
 * reading.
 */
module Engine {
  import opened Types
  import opened Seqs
  import opened Store
  import opened Thresholds
  import opened Analysis

  /**
   * The fitted anomaly model's `decision_function`. The isolation forest is
   * built with a fixed random seed, so its score is a function of the
   * training rows and the scored feature vector; the forest itself is not
   * modelled.
   */
  type Scorer = (seq<Features>, Features) -> real

  /** An optional alert as the list of alerts it adds to the log. */
  function AlertList(a: Option<Alert>): (l: seq<Alert>)
    ensures a.None? <==> l == []
    ensures a.Some? ==> l == [a.value]
  {
    if a.Some? then [a.value] else []
  }

  /**
   * The rows the anomaly model is fitted on: the features of the last
   * min(100, n) readings of the location.
   */
  function TrainingSet(locationReadings: seq<Reading>): (t: seq<Features>)
    ensures |t| == (if |locationReadings| < TRAINING_WINDOW then |locationReadings| else TRAINING_WINDOW)
    ensures forall i :: 0 <= i < |t| ==>
              t[i] == FeaturesOf(locationReadings[|locationReadings| - |t| + i])
  {
    var recent := TakeLast(locationReadings, TRAINING_WINDOW);
    seq(|recent|, i requires 0 <= i < |recent| => FeaturesOf(recent[i]))
  }

  /** The ANOMALY alert raised for a score, if any: at most one, and only below the cutoff. */
  function AnomalyAlerts(data: Reading, score: real, now: Timestamp): (l: seq<Alert>)
    ensures |l| <= 1
    ensures |l| == 1 <==> score < ANOMALY_CUTOFF
    ensures forall a :: a in l ==> a.severity == AnomalyAlert && a.sensorId == data.sensorId
                                   && a.location == data.location && a.level == data.level
                                   && a.timestamp == now
  {
    if score < ANOMALY_CUTOFF then [Alert(data.sensorId, data.location, now, data.level, AnomalyAlert)]
    else []
  }

  /** The engine: the module-level lists of the service and its one anomaly model. */
  class Monitor {
    var readings: seq<Reading>
    var alerts: seq<Alert>
    var analysis: seq<AnalysisResult>
    /** One flag for the whole process, not one per location. */
    var modelTrained: bool
    /** The rows the model was fitted on; empty while it is untrained. */
    var trainedOn: seq<Features>

    /**
     * The model is fitted on 50 to 100 rows once trained and on none before;
     * it can only have been trained once the store held 50 readings; and no
     * location has an analysis result before it has 50 readings.
     */
    ghost predicate Valid()
      reads this
    {
      && (!modelTrained ==> trainedOn == [])
      && (modelTrained ==> WARM_UP <= |trainedOn| <= TRAINING_WINDOW && WARM_UP <= |readings|)
      && (forall a :: a in analysis ==> WARM_UP <= |ReadingsAt(readings, a.location)|)
    }

    constructor ()
      ensures Valid()
      ensures readings == [] && alerts == [] && analysis == []
      ensures !modelTrained && trainedOn == []
    {
      readings, alerts, analysis := [], [], [];
      modelTrained, trainedOn := false, [];
    }

    /**
     * Ingest a reading: fill in a missing timestamp, append the reading to
     * the store (no deduplication) and check it against the thresholds.
     * The timestamp is written into the caller's reading; `stamped` is that
     * reading afterwards.
     */
    method ProcessSensorData(data: SensorReading, now: Timestamp) returns (stamped: SensorReading)
      requires Valid()
      modifies this
      ensures Valid()
      ensures stamped == data.(timestamp := Some(Stamp(data, now).timestamp))
      ensures readings == old(readings) + [Stamp(data, now)]
      ensures alerts == old(alerts) + AlertList(ThresholdAlert(Stamp(data, now)))
      ensures analysis == old(analysis)
      ensures modelTrained == old(modelTrained) && trainedOn == old(trainedOn)
    {
      stamped := data;
      if stamped.timestamp.None? {
        stamped := stamped.(timestamp := Some(now));
      }
      var reading := Stamp(data, now);
      readings := readings + [reading];
      forall a | a in analysis
        ensures WARM_UP <= |ReadingsAt(readings, a.location)|
      {
        ReadingsAtAppend(old(readings), reading, a.location);
      }
      CheckThresholds(reading);
    }

    /** Append the DANGER or WARNING alert a reading calls for, if any. */
    method CheckThresholds(reading: Reading)
      modifies this`alerts
      ensures alerts == old(alerts) + AlertList(ThresholdAlert(reading))
    {
      var alert: Option<Alert> := None;
      if reading.level >= DANGER_THRESHOLD {
        alert := Some(Alert(reading.sensorId, reading.location, reading.timestamp, reading.level, DangerAlert));
      } else if reading.level >= WARNING_THRESHOLD {
        alert := Some(Alert(reading.sensorId, reading.location, reading.timestamp, reading.level, WarningAlert));
      }
      if alert.Some? {
        alerts := alerts + [alert.value];
      }
    }

    /**
     * The analysis step for one reading. Nothing happens until the reading's
     * location has 50 stored readings. From then on: the first such call of
     * the process, whatever its location, fits the model on that location's
     * last 100 readings; every call scores the reading with the fitted
     * model, appends one analysis result for the location, and appends an
     * ANOMALY alert when the score is below -0.5. `analysisTime` and
     * `alertTime` are the two clock reads of the step.
     */
    method PerformAnalysis(data: Reading, score: Scorer, analysisTime: Timestamp, alertTime: Timestamp)
      requires Valid()
      modifies this
      ensures Valid()
      ensures readings == old(readings)
      ensures |ReadingsAt(readings, data.location)| < WARM_UP ==>
                && alerts == old(alerts) && analysis == old(analysis)
                && modelTrained == old(modelTrained) && trainedOn == old(trainedOn)
      ensures WARM_UP <= |ReadingsAt(readings, data.location)| ==>
                && modelTrained
                && trainedOn == (if old(modelTrained) then old(trainedOn) else TrainingSet(ReadingsAt(readings, data.location)))
                && var s := score(trainedOn, FeaturesOf(data));
                   var summary := Summarize(TakeLast(ReadingsAt(readings, data.location), TREND_WINDOW), data, s, analysisTime);
                   && summary.Some?
                   && analysis == old(analysis) + [summary.value]
                   && alerts == old(alerts) + AnomalyAlerts(data, s, alertTime)
    {
      var features := FeaturesOf(data);
      var locationReadings := ReadingsAt(readings, data.location);
      if |locationReadings| >= WARM_UP {
        if !modelTrained {
          trainedOn := TrainingSet(locationReadings);
          modelTrained := true;
        }
        var anomalyScore := score(trainedOn, features);
        var recent := TakeLast(locationReadings, TREND_WINDOW);
        WarmWindowIsSummarized(locationReadings, data, anomalyScore, analysisTime);
        var result := Summarize(recent, data, anomalyScore, analysisTime).value;
        analysis := analysis + [result];
        if anomalyScore < ANOMALY_CUTOFF {
          alerts := alerts + [Alert(data.sensorId, data.location, alertTime, data.level, AnomalyAlert)];
        }
      }
    }
  }

  /**
   * Submitting the same reading object twice, at two clock times, stores it
   * twice and, when it breaches a threshold, raises two alerts: the engine
   * does not deduplicate. Both stored readings carry the first call's time,
   * because the first call wrote its timestamp into the object.
   */
  method SubmitTwice(data: SensorReading, now: Timestamp, later: Timestamp)
    returns (stored: nat, raised: nat, first: Timestamp, second: Timestamp)
    ensures stored == 2
    ensures raised == (if data.level >= WARNING_THRESHOLD then 2 else 0)
    ensures first == second == (if data.timestamp.Some? then data.timestamp.value else now)
  {
    var m := new Monitor();
    var stamped := m.ProcessSensorData(data, now);
    stamped := m.ProcessSensorData(stamped, later);
    stored, raised := |m.readings|, |m.alerts|;
    first, second := m.readings[0].timestamp, m.readings[1].timestamp;
  }
}
