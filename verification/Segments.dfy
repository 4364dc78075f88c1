/** Segment and route rows: ingest, registration, deletion, and the route aggregate. */
module Segments {
  import opened Wrappers
  import opened Text
  import opened Names
  import opened FileTypes
  import opened Folds
  import opened Storage

  // ---- rows ----------------------------------------------------------------------

  /** What a parsed qlog puts on its segment row; times in unix millis, speeds in mph. */
  datatype Stats = Stats(
    startLat: real, startLng: real, endLat: real, endLng: real, miles: real,
    startMillis: int, endMillis: int,
    engagedMeters: real, telemMeters: real, engagedSeconds: real, driveSeconds: real, maxSpeed: real,
    disengage: int, hardBrake: int, hardAccel: int,
    maxTemp: real, minFree: real, maxMem: int)

  /** A segment row no qlog has been parsed for. */
  const NO_STATS: Stats :=
    Stats(0.0, 0.0, 0.0, 0.0, 0.0, 0, 0, 0.0, 0.0, 0.0, 0.0, 0.0, 0, 0, 0, 0.0, -1.0, 0)

  /** A segment row: the filled URL columns, and the stats. */
  datatype SegRow = SegRow(urls: map<FileType, string>, stats: Stats)

  type SegTable = map<(string, int), SegRow>

  // ---- the aggregate ---------------------------------------------------------------

  function Numbers(segments: SegTable, route: string): set<int> {
    set k | k in segments && k.0 == route :: k.1
  }

  /** A route's rows, by ascending segment number. */
  function RouteRows(segments: SegTable, route: string): (r: seq<SegRow>)
    ensures |r| == |Ascending(Numbers(segments, route))|
    ensures forall i | 0 <= i < |r| :: (route, Ascending(Numbers(segments, route))[i]) in segments
                                       && r[i] == segments[(route, Ascending(Numbers(segments, route))[i])]
  {
    var ns := Ascending(Numbers(segments, route));
    assert forall i | 0 <= i < |ns| :: (route, ns[i]) in segments by {
      forall i | 0 <= i < |ns| ensures (route, ns[i]) in segments {
        assert ns[i] in Numbers(segments, route);
        var k :| k in segments && k.0 == route && k.1 == ns[i];
      }
    }
    seq(|ns|, i requires 0 <= i < |ns| && (route, ns[i]) in segments => segments[(route, ns[i])])
  }

  /** The first row with a start fix, the last with an end fix. */
  function FirstFix(rows: seq<SegRow>): (real, real, int) {
    if rows == [] then (0.0, 0.0, 0)
    else if rows[0].stats.startMillis != 0 then
      (rows[0].stats.startLat, rows[0].stats.startLng, rows[0].stats.startMillis)
    else FirstFix(rows[1..])
  }

  function LastFix(rows: seq<SegRow>): (real, real, int) {
    if rows == [] then (0.0, 0.0, 0)
    else
      var r := rows[|rows| - 1];
      if r.stats.endMillis != 0 then (r.stats.endLat, r.stats.endLng, r.stats.endMillis)
      else LastFix(rows[..|rows| - 1])
  }

  function Column<T>(rows: seq<SegRow>, f: Stats -> T): (r: seq<T>)
    ensures |r| == |rows| && forall i | 0 <= i < |r| :: r[i] == f(rows[i].stats)
  {
    seq(|rows|, i requires 0 <= i < |rows| => f(rows[i].stats))
  }

  /** The segment numbers whose row has the URL column filled. */
  function With(numbers: seq<int>, rows: seq<SegRow>, t: FileType): seq<int>
    requires |numbers| == |rows|
  {
    if rows == [] then []
    else (if t in rows[0].urls then [numbers[0]] else []) + With(numbers[1..], rows[1..], t)
  }

  /** The route columns derived from the segment rows. */
  datatype Aggregate = Aggregate(
    numbers: seq<int>, starts: seq<int>, ends: seq<int>, length: real,
    first: (real, real, int), last: (real, real, int), maxSegment: map<FileType, int>,
    engagedMeters: real, telemMeters: real, engagedSeconds: real, driveSeconds: real, maxSpeed: real,
    disengage: int, hardBrake: int, hardAccel: int, maxTemp: real, minFree: real, maxMem: int)

  function Aggregated(segments: SegTable, route: string): Aggregate {
    var numbers, rows := Ascending(Numbers(segments, route)), RouteRows(segments, route);
    Aggregate(
      numbers, Column(rows, (s: Stats) => s.startMillis), Column(rows, (s: Stats) => s.endMillis),
      Sum(Column(rows, (s: Stats) => s.miles)), FirstFix(rows), LastFix(rows),
      map t: FileType | t in CAMERAS + [Qlog, Rlog] :: MaxIntOr(-1, With(numbers, rows, t)),
      Sum(Column(rows, (s: Stats) => s.engagedMeters)), Sum(Column(rows, (s: Stats) => s.telemMeters)),
      Sum(Column(rows, (s: Stats) => s.engagedSeconds)), Sum(Column(rows, (s: Stats) => s.driveSeconds)),
      MaxFrom(0.0, Column(rows, (s: Stats) => s.maxSpeed)),
      SumInt(Column(rows, (s: Stats) => s.disengage)), SumInt(Column(rows, (s: Stats) => s.hardBrake)),
      SumInt(Column(rows, (s: Stats) => s.hardAccel)), MaxFrom(0.0, Column(rows, (s: Stats) => s.maxTemp)),
      MinFree(Column(rows, (s: Stats) => s.minFree)), MaxIntOr(0, Column(rows, (s: Stats) => s.maxMem)))
  }

  /** The aggregate depends on the route's own rows only. */
  lemma AggregatedFrame(a: SegTable, b: SegTable, route: string)
    requires forall n: int :: (route, n) in a <==> (route, n) in b
    requires forall n: int | (route, n) in a :: a[(route, n)] == b[(route, n)]
    ensures Numbers(a, route) == Numbers(b, route) && Aggregated(a, route) == Aggregated(b, route)
  {
    forall n: int ensures n in Numbers(a, route) <==> n in Numbers(b, route) {
      assert n in Numbers(a, route) <==> (route, n) in a;
      assert n in Numbers(b, route) <==> (route, n) in b;
    }
    assert Numbers(a, route) == Numbers(b, route);
    assert RouteRows(a, route) == RouteRows(b, route);
  }
}
