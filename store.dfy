/**
 * The reading store seen per location: `[r for r in sensor_readings if
 * r['location'] == location]`, which both the analysis step and the
 * queries use.
 */
module Store {
  import opened Types
  import opened Seqs

  /** The filter condition `r['location'] == location`. */
  function AtLocation(location: string): Reading -> bool {
    (r: Reading) => r.location == location
  }

  /** The readings recorded at `location`, oldest first. */
  function ReadingsAt(rs: seq<Reading>, location: string): (r: seq<Reading>)
    ensures |r| <= |rs|
    ensures forall i :: 0 <= i < |r| ==> r[i].location == location && r[i] in rs
    ensures forall x :: x in rs && x.location == location ==> x in r
  {
    Filter(rs, AtLocation(location))
  }

  /**
   * Storing a reading adds it at the end of its own location's view and
   * leaves every other location's view as it was.
   */
  lemma ReadingsAtAppend(rs: seq<Reading>, x: Reading, location: string)
    ensures ReadingsAt(rs + [x], location)
         == ReadingsAt(rs, location) + (if x.location == location then [x] else [])
  {
    FilterAppend(rs, x, AtLocation(location));
  }

  /** The set of locations that have at least one reading. */
  function Locations(rs: seq<Reading>): set<string> {
    set r | r in rs :: r.location
  }

  lemma LocationHasReadings(rs: seq<Reading>, location: string)
    requires location in Locations(rs)
    ensures |ReadingsAt(rs, location)| > 0
  {
    var r :| r in rs && r.location == location;
    assert r in ReadingsAt(rs, location);
  }
}
