/**
 * Records of the asbestos monitoring engine: readings as they arrive and as
 * they are stored, alerts, analysis results, and the engine's fixed constants.
 */
module Types {

  datatype Option<T> = None | Some(value: T)

  /** Asbestos thresholds, in fibres per cubic centimetre. */
  const SAFE_THRESHOLD: real := 0.1   // informational: no branch of the engine uses it
  const WARNING_THRESHOLD: real := 0.5
  const DANGER_THRESHOLD: real := 1.0

  /** Readings a location needs before it is analysed. */
  const WARM_UP: nat := 50
  /** Readings of a location the anomaly model is fitted on. */
  const TRAINING_WINDOW: nat := 100
  /** Readings of a location the trend, average and prediction look at. */
  const TREND_WINDOW: nat := 10
  /** Anomaly scores strictly below this raise an ANOMALY alert. */
  const ANOMALY_CUTOFF: real := -0.5

  /** A point in time; only its order matters to the engine. */
  type Timestamp = int

  /** A sensor reading as it reaches the engine: the timestamp may be missing. */
  datatype SensorReading = SensorReading(
    sensorId: string,
    location: string,
    timestamp: Option<Timestamp>,
    level: real,
    temperature: real,
    humidity: real,
    pressure: real)

  /** A reading as the engine stores it: its timestamp is always present. */
  datatype Reading = Reading(
    sensorId: string,
    location: string,
    timestamp: Timestamp,
    level: real,
    temperature: real,
    humidity: real,
    pressure: real)

  /** The four channels the anomaly model scores. */
  datatype Features = Features(level: real, temperature: real, humidity: real, pressure: real)

  /** The severity tag of an alert. */
  datatype AlertKind = WarningAlert | DangerAlert | AnomalyAlert {
    /** The tag as the alert log spells it. */
    function Tag(): string {
      match this
      case WarningAlert => "WARNING"
      case DangerAlert => "DANGER"
      case AnomalyAlert => "ANOMALY"
    }
  }

  /** An alert; its human-readable message is not modelled. */
  datatype Alert = Alert(
    sensorId: string,
    location: string,
    timestamp: Timestamp,
    level: real,
    severity: AlertKind)

  datatype Trend = Increasing | Decreasing | Stable | InsufficientData

  datatype AnalysisResult = AnalysisResult(
    timestamp: Timestamp,
    location: string,
    averageLevel: real,
    trend: Trend,
    anomalyScore: real,
    prediction: real)

  /** The stored form of an incoming reading: a missing timestamp becomes `now`. */
  function Stamp(d: SensorReading, now: Timestamp): (r: Reading)
    ensures d.timestamp.Some? ==> r.timestamp == d.timestamp.value
    ensures d.timestamp.None? ==> r.timestamp == now
    ensures r.sensorId == d.sensorId && r.location == d.location && r.level == d.level
    ensures r.temperature == d.temperature && r.humidity == d.humidity && r.pressure == d.pressure
  {
    var t := if d.timestamp.Some? then d.timestamp.value else now;
    Reading(d.sensorId, d.location, t, d.level, d.temperature, d.humidity, d.pressure)
  }

  /** The feature vector the anomaly model sees for a reading. */
  function FeaturesOf(r: Reading): Features {
    Features(r.level, r.temperature, r.humidity, r.pressure)
  }
}
