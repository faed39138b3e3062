/**
 * The read side of the service: the readings, alerts and analysis queries
 * (filter, then keep the most recent `limit` entries as `xs[-limit:]`
 * does) and the per-location status summary.
 */
module Queries {
  import opened Types
  import opened Seqs
  import opened Store
  import opened Thresholds

  /** The handlers' default `limit` parameters. */
  const READINGS_LIMIT: int := 100
  const ALERTS_LIMIT: int := 50
  const ANALYSIS_LIMIT: int := 20

  /** The `limit` a handler uses: the one given, or its default when the parameter is absent. */
  function OrDefault(limit: Option<int>, default: int): (n: int)
    ensures limit.Some? ==> n == limit.value
    ensures limit.None? ==> n == default
  {
    if limit.Some? then limit.value else default
  }

  /** A query parameter takes effect only when it is present and not empty (Python truthiness). */
  predicate Given(filter: Option<string>) {
    filter.Some? && filter.value != ""
  }

  /** `s.upper()` for ASCII letters; other characters are kept. */
  function Upper(s: string): (u: string)
    ensures |u| == |s|
    ensures forall i :: 0 <= i < |s| ==> u[i] == if 'a' <= s[i] <= 'z' then (s[i] as int - 32) as char else s[i]
  {
    seq(|s|, i requires 0 <= i < |s| => if 'a' <= s[i] <= 'z' then (s[i] as int - 32) as char else s[i])
  }

  lemma UpperIdempotent(s: string)
    ensures Upper(Upper(s)) == Upper(s)
  {
  }

  /** The severity tags are upper case already, so a query spelled with them matches them. */
  lemma TagIsUpperCase(k: AlertKind)
    ensures Upper(k.Tag()) == k.Tag()
  {
    var t := k.Tag();
    assert forall i :: 0 <= i < |t| ==> !('a' <= t[i] <= 'z');
  }

  /** The filter condition `a['severity'] == tag`. */
  function WithSeverity(tag: string): Alert -> bool {
    (a: Alert) => a.severity.Tag() == tag
  }

  /** The filter condition `a['location'] == location` on analysis results. */
  function ForLocation(location: string): AnalysisResult -> bool {
    (a: AnalysisResult) => a.location == location
  }

  /**
   * The shape shared by the three list queries: `xs` filtered by `keep`
   * when `filtering`, then `[-limit:]`.
   */
  function LatestMatches<T>(xs: seq<T>, filtering: bool, keep: T -> bool, limit: int): (r: seq<T>)
    ensures filtering ==> forall i :: 0 <= i < |r| ==> keep(r[i])
    ensures IsLatest(r, if filtering then Filter(xs, keep) else xs, limit)
  {
    TakeLast(if filtering then Filter(xs, keep) else xs, limit)
  }

  /** Every list query returns entries of its list, in the list's order. */
  lemma LatestMatchesIsSubsequence<T>(xs: seq<T>, filtering: bool, keep: T -> bool, limit: int)
    ensures IsSubsequence(LatestMatches(xs, filtering, keep, limit), xs)
  {
    var matches := if filtering then Filter(xs, keep) else xs;
    if filtering {
      FilterIsSubsequence(xs, keep);
    } else {
      SelfSubsequence(xs);
    }
    var r := LatestMatches(xs, filtering, keep, limit);
    SuffixIsSubsequence(matches, xs, |matches| - |r|);
  }

  /** `/readings/`: the latest readings, optionally of one location. */
  function GetReadings(rs: seq<Reading>, location: Option<string>, limit: Option<int>): (r: seq<Reading>)
    ensures IsSubsequence(r, rs)
    ensures Given(location) ==> forall i :: 0 <= i < |r| ==> r[i].location == location.value
    ensures IsLatest(r, if Given(location) then ReadingsAt(rs, location.value) else rs,
                     OrDefault(limit, READINGS_LIMIT))
  {
    var keep := AtLocation(if location.Some? then location.value else "");
    var n := OrDefault(limit, READINGS_LIMIT);
    LatestMatchesIsSubsequence(rs, Given(location), keep, n);
    LatestMatches(rs, Given(location), keep, n)
  }

  /** `/alerts/`: the latest alerts, optionally of one severity, matched case-insensitively. */
  function GetAlerts(alerts: seq<Alert>, severity: Option<string>, limit: Option<int>): (r: seq<Alert>)
    ensures IsSubsequence(r, alerts)
    ensures Given(severity) ==> forall i :: 0 <= i < |r| ==> r[i].severity.Tag() == Upper(severity.value)
    ensures IsLatest(r, if Given(severity) then Filter(alerts, WithSeverity(Upper(severity.value))) else alerts,
                     OrDefault(limit, ALERTS_LIMIT))
  {
    var keep := WithSeverity(Upper(if severity.Some? then severity.value else ""));
    var n := OrDefault(limit, ALERTS_LIMIT);
    LatestMatchesIsSubsequence(alerts, Given(severity), keep, n);
    LatestMatches(alerts, Given(severity), keep, n)
  }

  /** `/analysis/`: the latest analysis results, optionally of one location. */
  function GetAnalysis(results: seq<AnalysisResult>, location: Option<string>, limit: Option<int>): (r: seq<AnalysisResult>)
    ensures IsSubsequence(r, results)
    ensures Given(location) ==> forall i :: 0 <= i < |r| ==> r[i].location == location.value
    ensures IsLatest(r, if Given(location) then Filter(results, ForLocation(location.value)) else results,
                     OrDefault(limit, ANALYSIS_LIMIT))
  {
    var keep := ForLocation(if location.Some? then location.value else "");
    var n := OrDefault(limit, ANALYSIS_LIMIT);
    LatestMatchesIsSubsequence(results, Given(location), keep, n);
    LatestMatches(results, Given(location), keep, n)
  }

  lemma {:induction false} SelfSubsequence<T>(xs: seq<T>)
    ensures IsSubsequence(xs, xs)
  {
    if xs != [] {
      SelfSubsequence(xs[1..]);
    }
  }

  /** The severity filter ignores the case of its argument. */
  lemma SeverityIgnoresCase(alerts: seq<Alert>, severity: string, limit: Option<int>)
    ensures GetAlerts(alerts, Some(severity), limit) == GetAlerts(alerts, Some(Upper(severity)), limit)
  {
    UpperIdempotent(severity);
  }

  /**
   * A reading just stored is the newest entry its location's query
   * returns, for every non-negative limit (an empty location means no filter,
   * and the reading is then the newest of the whole store).
   */
  lemma StoredReadingIsNewest(rs: seq<Reading>, x: Reading, limit: int)
    requires limit >= 0
    ensures var r := GetReadings(rs + [x], Some(x.location), Some(limit));
            |r| > 0 && r[|r| - 1] == x
  {
    ReadingsAtAppend(rs, x, x.location);
  }

  /**
   * Without a `limit` parameter the three queries return at most the last
   * 100 readings, 50 alerts and 20 analysis results.
   */
  lemma DefaultLimits(rs: seq<Reading>, alerts: seq<Alert>, results: seq<AnalysisResult>)
    ensures GetReadings(rs, None, None) == rs[(if |rs| < 100 then 0 else |rs| - 100)..]
    ensures GetAlerts(alerts, None, None) == alerts[(if |alerts| < 50 then 0 else |alerts| - 50)..]
    ensures GetAnalysis(results, None, None) == results[(if |results| < 20 then 0 else |results| - 20)..]
  {
  }

  /** What `/status/` reports for one location: its latest reading's tier, level and time. */
  datatype LocationStatus = LocationStatus(status: Tier, latestReading: real, lastUpdated: Timestamp)

  datatype SystemStatus = SystemStatus(
    systemStatus: string,
    locations: map<string, LocationStatus>,
    totalSensors: nat,
    totalReadings: nat,
    totalAlerts: nat)

  /**
   * The index of the reading `max(rs, key=timestamp)` returns: a greatest
   * timestamp, and the first reading that has it.
   */
  function LatestIndex(rs: seq<Reading>): (i: nat)
    requires |rs| > 0
    ensures i < |rs|
    ensures forall j :: 0 <= j < |rs| ==> rs[j].timestamp <= rs[i].timestamp
    ensures forall j :: 0 <= j < i ==> rs[j].timestamp < rs[i].timestamp
    decreases |rs|
  {
    if |rs| == 1 then 0
    else
      var m := LatestIndex(rs[..|rs| - 1]);
      if rs[|rs| - 1].timestamp > rs[m].timestamp then |rs| - 1 else m
  }

  /** The two properties of LatestIndex single it out. */
  lemma LatestIndexIsUnique(rs: seq<Reading>, i: nat)
    requires |rs| > 0 && i < |rs|
    requires forall j :: 0 <= j < |rs| ==> rs[j].timestamp <= rs[i].timestamp
    requires forall j :: 0 <= j < i ==> rs[j].timestamp < rs[i].timestamp
    ensures i == LatestIndex(rs)
  {
  }

  /**
   * The status entry of a location, from its readings: the tier and level
   * of the first reading, in storage order, that has the greatest timestamp.
   */
  function LocationStatusOf(locationReadings: seq<Reading>): (s: LocationStatus)
    requires |locationReadings| > 0
    ensures s.status == Classify(s.latestReading)
    ensures forall r :: r in locationReadings ==> r.timestamp <= s.lastUpdated
    ensures exists i :: 0 <= i < |locationReadings|
                        && locationReadings[i].timestamp == s.lastUpdated
                        && locationReadings[i].level == s.latestReading
                        && forall j :: 0 <= j < i ==> locationReadings[j].timestamp < s.lastUpdated
  {
    var latest := locationReadings[LatestIndex(locationReadings)];
    LocationStatus(Classify(latest.level), latest.level, latest.timestamp)
  }

  /**
   * The `locations` part of `/status/`: one entry per location that has a
   * reading (the loop's `continue` for a location without readings).
   */
  function StatusMap(rs: seq<Reading>): map<string, LocationStatus> {
    MapOf(Locations(rs), StatusEntry(rs))
  }

  /** The status entry of a location, or none when it has no reading. */
  function StatusEntry(rs: seq<Reading>): string -> Option<LocationStatus> {
    (location: string) =>
      var at := ReadingsAt(rs, location);
      if |at| > 0 then Some(LocationStatusOf(at)) else None
  }

  /**
   * Every location with a reading has a status entry, and no other: its
   * time is the greatest timestamp among the location's readings, its level
   * is that of the first of the location's readings (in storage order) with
   * that time, and its tier is the tier of that level.
   */
  lemma StatusMapCoversLocations(rs: seq<Reading>)
    ensures StatusMap(rs).Keys == Locations(rs)
    ensures forall location :: location in StatusMap(rs) ==>
              var s := StatusMap(rs)[location];
              && s.status == Classify(s.latestReading)
              && (forall r :: r in rs && r.location == location ==> r.timestamp <= s.lastUpdated)
              && (exists r :: r in rs && r.location == location
                              && r.timestamp == s.lastUpdated && r.level == s.latestReading)
    ensures forall location :: location in StatusMap(rs) ==>
              var s := StatusMap(rs)[location];
              var at := ReadingsAt(rs, location);
              exists i :: 0 <= i < |at| && at[i].timestamp == s.lastUpdated && at[i].level == s.latestReading
                          && forall j :: 0 <= j < i ==> at[j].timestamp < s.lastUpdated
  {
    forall location | location in Locations(rs)
      ensures |ReadingsAt(rs, location)| > 0
    {
      LocationHasReadings(rs, location);
    }
    forall location | location in StatusMap(rs)
      ensures var s := StatusMap(rs)[location];
              exists r :: r in rs && r.location == location
                          && r.timestamp == s.lastUpdated && r.level == s.latestReading
    {
      var at := ReadingsAt(rs, location);
      var s := LocationStatusOf(at);
      var i :| 0 <= i < |at| && at[i].timestamp == s.lastUpdated && at[i].level == s.latestReading;
      assert at[i] in rs && at[i].location == location;
    }
  }

  /** The set of sensor ids that have sent a reading. */
  function SensorIds(rs: seq<Reading>): set<string> {
    set r | r in rs :: r.sensorId
  }

  /** There are never more distinct sensors than stored readings. */
  lemma {:induction false} SensorsAtMostReadings(rs: seq<Reading>)
    ensures |SensorIds(rs)| <= |rs|
  {
    if rs != [] {
      var init := rs[..|rs| - 1];
      SensorsAtMostReadings(init);
      assert rs == init + [rs[|rs| - 1]];
      assert SensorIds(rs) == SensorIds(init) + {rs[|rs| - 1].sensorId};
    }
  }

  /**
   * `/status/`: the loop over the set of locations fills in one entry per
   * location, in whatever order the set yields them.
   */
  method GetSystemStatus(rs: seq<Reading>, alerts: seq<Alert>) returns (s: SystemStatus)
    ensures s.locations == StatusMap(rs)
    ensures s.systemStatus == "operational"
    ensures s.totalReadings == |rs| && s.totalAlerts == |alerts|
    ensures s.totalSensors == |SensorIds(rs)| && s.totalSensors <= s.totalReadings
  {
    var locations := Locations(rs);
    var entry := StatusEntry(rs);
    var status: map<string, LocationStatus> := map[];
    var remaining, done := locations, {};
    while remaining != {}
      invariant remaining + done == locations
      invariant status == MapOf(done, entry)
      decreases remaining
    {
      var location :| location in remaining;
      MapOfInsert(done, entry, location);
      var e := entry(location);
      if e.Some? {
        status := status[location := e.value];
      }
      remaining, done := remaining - {location}, done + {location};
    }
    SensorsAtMostReadings(rs);
    s := SystemStatus("operational", status, |SensorIds(rs)|, |rs|, |alerts|);
  }
}
