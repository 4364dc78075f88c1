/** Derived drive stats, from the telemetry loop through segment sums to the all-time totals. */
module DriveStats {
  import opened Wrappers
  import opened Names
  import opened FileTypes
  import opened Folds
  import opened Segments
  import opened Ingest
  import opened Confluence
  import opened Telemetry
  import Events

  const MPH_PER_MS: real := 1.0 / 0.44704

  /** The driven and engaged amounts fit together: engaged is a part, and no distance outruns the top speed. */
  predicate Sane(engagedM: real, telemM: real, engagedS: real, driveS: real, maxSpeed: real) {
    0.0 <= engagedM <= telemM && 0.0 <= engagedS <= driveS && maxSpeed >= 0.0
    && telemM <= Reach(driveS, maxSpeed)
  }

  /** The distance covered in a time at a speed in mph. */
  function Reach(seconds: real, speed: real): real {
    seconds * (speed * MPH_TO_MS)
  }

  // ---- one segment ---------------------------------------------------------------

  lemma {:induction false} PrefixSane(t: seq<Sample>, n: nat, top: real)
    requires n <= |t| && forall i | 0 <= i < |t| :: 0.0 <= t[i].speed <= top
    ensures 0.0 <= Distance(t, n, true) <= Distance(t, n, false)
    ensures 0.0 <= Duration(t, n, true) <= Duration(t, n, false)
    ensures Distance(t, n, false) <= Duration(t, n, false) * (top * MPH_TO_MS)
  {
    if n > 0 {
      PrefixSane(t, n - 1, top);
      if Usable(t, n - 1) {
        var v, dt, c := Metres(t[n - 1]), t[n - 1].t - t[n - 2].t, top * MPH_TO_MS;
        Product(v, c, dt);
        assert (Duration(t, n - 1, false) + dt) * c == Duration(t, n - 1, false) * c + dt * c;
      }
    }
  }

  lemma Product(v: real, c: real, dt: real)
    requires 0.0 <= v <= c && dt > 0.0
    ensures 0.0 <= v * dt <= dt * c
  {
  }

  // ---- one route --------------------------------------------------------------------

  predicate SaneStats(s: Stats) {
    Sane(s.engagedMeters, s.telemMeters, s.engagedSeconds, s.driveSeconds, s.maxSpeed)
  }

  /** Every parsed log has sane stats, if the car reported no negative speed. */
  lemma ParsedIsSane(p: Parse)
    requires Events.NeverBackwards(p.log)
    ensures SaneStats(StatsOf(p))
  {
    hide Sane, Events.Parsed, Distance, Duration, FallingEdges, HardEvents, TopSpeed, Events.NeverBackwards;
    var acc := Events.Parsed(p.log);
    var t := SamplesOf(acc);
    Events.SpeedsNotNegative(p.log);
    forall i | 0 <= i < |t| ensures t[i].speed >= 0.0 {
      assert acc.telemetry[i] in acc.telemetry;
    }
    SamplesSane(t);
  }

  lemma SamplesSane(t: seq<Sample>)
    requires forall i | 0 <= i < |t| :: t[i].speed >= 0.0
    ensures var s := SegStatsOf(t); Sane(s.engagedM, s.telemM, s.engagedS, s.driveS, s.maxSpeed)
  {
    hide FallingEdges, HardEvents, TopSpeed, Distance, Duration;
    TopSpeedIsMax(t, |t|);
    PrefixSane(t, |t|, TopSpeed(t, |t|));
  }

  predicate SaneAggregate(a: Aggregate) {
    Sane(a.engagedMeters, a.telemMeters, a.engagedSeconds, a.driveSeconds, a.maxSpeed)
  }

  /** What a route or an all-time total sums. */
  datatype Amounts = Amounts(engagedM: real, telemM: real, engagedS: real, driveS: real)

  lemma {:induction false} SumsSane(rows: seq<SegRow>, top: real)
    requires forall i | 0 <= i < |rows| :: SaneStats(rows[i].stats) && rows[i].stats.maxSpeed <= top
    requires top >= 0.0
    ensures Sane(Sum(Column(rows, (s: Stats) => s.engagedMeters)), Sum(Column(rows, (s: Stats) => s.telemMeters)),
                 Sum(Column(rows, (s: Stats) => s.engagedSeconds)), Sum(Column(rows, (s: Stats) => s.driveSeconds)),
                 top)
    decreases |rows|
  {
    if rows != [] {
      SumsSane(rows[1..], top);
      ColumnTail(rows, (s: Stats) => s.engagedMeters);
      ColumnTail(rows, (s: Stats) => s.telemMeters);
      ColumnTail(rows, (s: Stats) => s.engagedSeconds);
      ColumnTail(rows, (s: Stats) => s.driveSeconds);
      var s := rows[0].stats;
      AddSane(s.engagedMeters, s.telemMeters, s.engagedSeconds, s.driveSeconds, s.maxSpeed,
              Sum(Column(rows[1..], (s: Stats) => s.engagedMeters)),
              Sum(Column(rows[1..], (s: Stats) => s.telemMeters)),
              Sum(Column(rows[1..], (s: Stats) => s.engagedSeconds)),
              Sum(Column(rows[1..], (s: Stats) => s.driveSeconds)),
              top, top);
    }
  }

  lemma ColumnTail(rows: seq<SegRow>, f: Stats -> real)
    requires rows != []
    ensures Sum(Column(rows, f)) == f(rows[0].stats) + Sum(Column(rows[1..], f))
  {
    assert Column(rows, f)[1..] == Column(rows[1..], f);
  }

  /** Sane amounts add up to sane amounts under any speed at or above both maxima. */
  lemma AddSane(e1: real, t1: real, es1: real, d1: real, m1: real,
                e2: real, t2: real, es2: real, d2: real, m2: real, top: real)
    requires Sane(e1, t1, es1, d1, m1) && Sane(e2, t2, es2, d2, m2) && m1 <= top && m2 <= top
    ensures Sane(e1 + e2, t1 + t2, es1 + es2, d1 + d2, top)
  {
    hide Reach;
    ReachAdds(d1, m1, d2, m2, top);
  }

  lemma ReachAdds(d1: real, m1: real, d2: real, m2: real, top: real)
    requires d1 >= 0.0 && d2 >= 0.0 && m1 <= top && m2 <= top
    ensures Reach(d1, m1) + Reach(d2, m2) <= Reach(d1 + d2, top)
  {
    Scale(d1, m1 * MPH_TO_MS, top * MPH_TO_MS);
    Scale(d2, m2 * MPH_TO_MS, top * MPH_TO_MS);
    Distribute(d1, d2, top * MPH_TO_MS);
  }

  lemma Distribute(a: real, b: real, c: real)
    ensures (a + b) * c == a * c + b * c
  {
  }

  lemma Scale(d: real, a: real, b: real)
    requires d >= 0.0 && a <= b
    ensures d * a <= d * b
  {
  }

  /** Sane segment rows give a sane route aggregate. */
  lemma AggregateSane(segments: SegTable, route: string)
    requires forall k | k in segments :: SaneStats(segments[k].stats)
    ensures SaneAggregate(Aggregated(segments, route))
  {
    hide SaneStats;
    var rows := RouteRows(segments, route);
    var speeds := Column(rows, (s: Stats) => s.maxSpeed);
    forall i | 0 <= i < |rows| ensures SaneStats(rows[i].stats) && rows[i].stats.maxSpeed <= MaxFrom(0.0, speeds) {
      assert speeds[i] in speeds;
    }
    SumsSane(rows, MaxFrom(0.0, speeds));
  }

  /** All segment rows carry sane stats. */
  predicate SaneDb(db: Db) {
    forall k | k in db.segments :: SaneStats(db.segments[k].stats)
  }

  /** No log that is ingested reports a negative speed. */
  predicate Forwards(body: Body) {
    body.parsed.Some? ==> Events.NeverBackwards(body.parsed.value.log)
  }

  /** Ingesting logs keeps the rows sane; so does a deletion. */
  lemma IngestKeepsSane(db: Db, dongle: string, ts: string, seg: int, file: string, body: Body)
    requires SaneDb(db) && Forwards(body)
    ensures SaneDb(Ingested(db, dongle, ts, seg, file, body).0)
  {
    hide BlobKey, RouteName, FileKind, CamUrls, OwnUrl, Aggregated, Numbers, StatsOf, Sane, Events.NeverBackwards;
    if body.parsed.Some? {
      ParsedIsSane(body.parsed.value);
    }
    NoStatsAreSane();
  }

  lemma NoStatsAreSane()
    ensures SaneStats(NO_STATS)
  {
  }

  lemma DeleteKeepsSane(db: Db, dongle: string, ts: string, types: set<FileType>)
    requires SaneDb(db)
    ensures SaneDb(Deleted(db, dongle, ts, types))
  {
    hide BlobKey, RouteName, DeletedKeys, Aggregated, Numbers, SaneStats;
  }

  // ---- what is shown ------------------------------------------------------------------

  function Autonomy(engagedM: real, telemM: real): real {
    if telemM > 0.0 then 100.0 * engagedM / telemM else 0.0
  }

  function AvgSpeed(telemM: real, driveS: real): real {
    if driveS > 0.0 then (telemM / driveS) * MPH_PER_MS else 0.0
  }

  /** Sane amounts show an autonomy between 0 and 100 percent and an average at most the maximum. */
  lemma ShownBounds(engagedM: real, telemM: real, engagedS: real, driveS: real, maxSpeed: real)
    requires Sane(engagedM, telemM, engagedS, driveS, maxSpeed)
    ensures 0.0 <= Autonomy(engagedM, telemM) <= 100.0
    ensures 0.0 <= AvgSpeed(telemM, driveS) <= maxSpeed
  {
    if telemM > 0.0 {
      Quotient(100.0 * engagedM, telemM, 100.0);
    }
    if driveS > 0.0 {
      Quotient(telemM, driveS, maxSpeed * MPH_TO_MS);
      var q := telemM / driveS;
      assert 0.0 <= q <= maxSpeed * MPH_TO_MS;
      assert q * MPH_PER_MS <= maxSpeed * MPH_TO_MS * MPH_PER_MS == maxSpeed;
    }
  }

  lemma Quotient(a: real, b: real, bound: real)
    requires b > 0.0 && 0.0 <= a <= b * bound
    ensures 0.0 <= a / b <= bound
  {
    var q := a / b;
    assert q * b == a;
    Distribute(bound, -q, b);
    NotNegative(bound - q, b);
    NotNegative(q, b);
  }

  lemma NotNegative(x: real, b: real)
    requires b > 0.0 && x * b >= 0.0
    ensures x >= 0.0
  {
  }

  /** Every route of a consistent database shows sane figures. */
  lemma RouteShowsSane(db: Db, route: string)
    requires RouteConsistent(db) && SaneDb(db) && route in db.routes
    ensures var a := db.routes[route].derived;
            0.0 <= Autonomy(a.engagedMeters, a.telemMeters) <= 100.0
            && 0.0 <= AvgSpeed(a.telemMeters, a.driveSeconds) <= a.maxSpeed
  {
    hide Aggregated, SaneStats, Autonomy, AvgSpeed;
    AggregateSane(db.segments, route);
    var a := db.routes[route].derived;
    ShownBounds(a.engagedMeters, a.telemMeters, a.engagedSeconds, a.driveSeconds, a.maxSpeed);
  }

  // ---- all-time totals ------------------------------------------------------------------

  /** The route columns the totals read. */
  datatype RouteStats = RouteStats(
    length: real, driveS: real, engagedM: real, telemM: real, maxSpeed: real,
    disengage: int, hardBrake: int, hardAccel: int)

  datatype Totals = Totals(
    routes: nat, miles: real, driveS: real, engagedM: real, telemM: real, maxSpeed: real,
    disengage: int, hardBrake: int, hardAccel: int, autonomy: real, avgSpeed: real)

  predicate SaneRoute(r: RouteStats) {
    Sane(r.engagedM, r.telemM, 0.0, r.driveS, r.maxSpeed)
  }

  predicate Drops(ignored: (real, real) -> bool, r: RouteStats) {
    ignored(r.length, r.driveS / 60.0)
  }

  function Kept(rows: seq<RouteStats>, ignored: (real, real) -> bool): seq<RouteStats>
    decreases |rows|
  {
    if rows == [] then []
    else
      Kept(rows[..|rows| - 1], ignored) + if Drops(ignored, rows[|rows| - 1]) then [] else [rows[|rows| - 1]]
  }

  lemma KeptNone(ignored: (real, real) -> bool)
    ensures Kept([], ignored) == []
  {
  }

  lemma KeptNext(rows: seq<RouteStats>, i: nat, ignored: (real, real) -> bool)
    requires i < |rows|
    ensures Kept(rows[..i + 1], ignored)
         == if Drops(ignored, rows[i]) then Kept(rows[..i], ignored) else Kept(rows[..i], ignored) + [rows[i]]
  {
    assert rows[..i + 1][..i] == rows[..i];
  }

  function SumOf(rows: seq<RouteStats>, f: RouteStats -> real): real
    decreases |rows|
  {
    if rows == [] then 0.0 else SumOf(rows[..|rows| - 1], f) + f(rows[|rows| - 1])
  }

  function SumOfInt(rows: seq<RouteStats>, f: RouteStats -> int): int
    decreases |rows|
  {
    if rows == [] then 0 else SumOfInt(rows[..|rows| - 1], f) + f(rows[|rows| - 1])
  }

  /** The totals are those of exactly these routes. */
  predicate TotalsOf(r: Totals, rows: seq<RouteStats>) {
    && r.routes == |rows|
    && r.miles == SumOf(rows, (x: RouteStats) => x.length) && r.driveS == SumOf(rows, (x: RouteStats) => x.driveS)
    && r.engagedM == SumOf(rows, (x: RouteStats) => x.engagedM) && r.telemM == SumOf(rows, (x: RouteStats) => x.telemM)
    && r.disengage == SumOfInt(rows, (x: RouteStats) => x.disengage)
    && r.hardBrake == SumOfInt(rows, (x: RouteStats) => x.hardBrake)
    && r.hardAccel == SumOfInt(rows, (x: RouteStats) => x.hardAccel)
    && (forall x | x in rows :: x.maxSpeed <= r.maxSpeed)
    && (r.maxSpeed == 0.0 || exists x | x in rows :: x.maxSpeed == r.maxSpeed)
  }

  /** One route more in the totals. */
  function Added(r: Totals, x: RouteStats): Totals {
    Totals(r.routes + 1, r.miles + x.length, r.driveS + x.driveS, r.engagedM + x.engagedM, r.telemM + x.telemM,
           if x.maxSpeed > r.maxSpeed then x.maxSpeed else r.maxSpeed,
           r.disengage + x.disengage, r.hardBrake + x.hardBrake, r.hardAccel + x.hardAccel, 0.0, 0.0)
  }

  lemma SumSnoc(rows: seq<RouteStats>, x: RouteStats, f: RouteStats -> real, g: RouteStats -> int)
    ensures SumOf(rows + [x], f) == SumOf(rows, f) + f(x) && SumOfInt(rows + [x], g) == SumOfInt(rows, g) + g(x)
  {
    assert (rows + [x])[..|rows|] == rows;
  }

  lemma AddedTotals(r: Totals, rows: seq<RouteStats>, x: RouteStats)
    requires TotalsOf(r, rows)
    ensures TotalsOf(Added(r, x), rows + [x])
  {
    hide SumOf, SumOfInt;
    SumSnoc(rows, x, (y: RouteStats) => y.length, (y: RouteStats) => y.disengage);
    SumSnoc(rows, x, (y: RouteStats) => y.driveS, (y: RouteStats) => y.hardBrake);
    SumSnoc(rows, x, (y: RouteStats) => y.engagedM, (y: RouteStats) => y.hardAccel);
    SumSnoc(rows, x, (y: RouteStats) => y.telemM, (y: RouteStats) => y.disengage);
    assert x in rows + [x] && forall y :: y in rows + [x] <==> y in rows || y == x;
  }

  lemma AddedIsSane(r: Totals, x: RouteStats)
    requires SaneTotals(r) && SaneRoute(x)
    ensures SaneTotals(Added(r, x))
  {
    hide Reach;
    AddSane(r.engagedM, r.telemM, 0.0, r.driveS, r.maxSpeed,
            x.engagedM, x.telemM, 0.0, x.driveS, x.maxSpeed, Added(r, x).maxSpeed);
  }

  predicate AllSane(rows: seq<RouteStats>) {
    forall i | 0 <= i < |rows| :: SaneRoute(rows[i])
  }

  predicate SaneTotals(r: Totals) {
    Sane(r.engagedM, r.telemM, 0.0, r.driveS, r.maxSpeed)
  }

  /** The accumulation loop of `my_stats`. */
  method Accumulate(rows: seq<RouteStats>, ignored: (real, real) -> bool) returns (sum: Totals)
    ensures TotalsOf(sum, Kept(rows, ignored))
    ensures AllSane(rows) ==> SaneTotals(sum)
  {
    hide SaneTotals, SaneRoute, TotalsOf, Added, Kept, Drops, Nothing;
    sum := Nothing();
    NothingIsSane();
    assert Kept(rows[..0], ignored) == [] by { KeptNone(ignored); }
    for i := 0 to |rows|
      invariant TotalsOf(sum, Kept(rows[..i], ignored))
      invariant AllSane(rows) ==> SaneTotals(sum)
    {
      var x := rows[i];
      KeptNext(rows, i, ignored);
      if Drops(ignored, x) {
        continue;
      }
      AddedTotals(sum, Kept(rows[..i], ignored), x);
      if AllSane(rows) {
        AddedIsSane(sum, x);
      }
      sum := Added(sum, x);
    }
    assert rows[..|rows|] == rows;
  }

  /** `my_stats`: totals over the routes that no ignore rule drops, and the figures derived from them. */
  method MyStats(rows: seq<RouteStats>, ignored: (real, real) -> bool) returns (r: Totals)
    ensures TotalsOf(r, Kept(rows, ignored))
    ensures r.autonomy == Autonomy(r.engagedM, r.telemM) && r.avgSpeed == AvgSpeed(r.telemM, r.driveS)
    ensures AllSane(rows) ==> 0.0 <= r.autonomy <= 100.0 && 0.0 <= r.avgSpeed <= r.maxSpeed
  {
    hide Sane, AllSane, Autonomy, AvgSpeed, TotalsOf, Kept;
    var sum := Accumulate(rows, ignored);
    if AllSane(rows) {
      ShownBounds(sum.engagedM, sum.telemM, 0.0, sum.driveS, sum.maxSpeed);
    }
    r := sum.(autonomy := Autonomy(sum.engagedM, sum.telemM), avgSpeed := AvgSpeed(sum.telemM, sum.driveS));
    SameTotals(sum, r, Kept(rows, ignored));
  }

  // ---- from the logs to the all-time figures ---------------------------------------------------

  /** The route columns the totals read. */
  function StatsRow(r: RouteRow): RouteStats {
    var a := r.derived;
    RouteStats(a.length, a.driveSeconds, a.engagedMeters, a.telemMeters, a.maxSpeed,
               a.disengage, a.hardBrake, a.hardAccel)
  }

  /** Every route row of a consistent and sane database is sane. */
  lemma RoutesAreSane(db: Db, route: string)
    requires RouteConsistent(db) && SaneDb(db) && route in db.routes
    ensures SaneRoute(StatsRow(db.routes[route]))
  {
    hide Aggregated, SaneStats;
    AggregateSane(db.segments, route);
  }

  /** The selected routes' rows, in the order of the query. */
  function Selected(db: Db, names: seq<string>): (r: seq<RouteStats>)
    requires forall n | n in names :: n in db.routes
    ensures |r| == |names| && forall i | 0 <= i < |r| :: r[i] == StatsRow(db.routes[names[i]])
  {
    if names == [] then []
    else
      assert names == [names[0]] + names[1..];
      [StatsRow(db.routes[names[0]])] + Selected(db, names[1..])
  }

  /** All-time figures over any selection of routes of a consistent and sane database, under any ignore rule. */
  method AllTime(db: Db, names: seq<string>, ignored: (real, real) -> bool) returns (r: Totals)
    requires RouteConsistent(db) && SaneDb(db) && forall n | n in names :: n in db.routes
    ensures TotalsOf(r, Kept(Selected(db, names), ignored))
    ensures 0.0 <= r.autonomy <= 100.0 && 0.0 <= r.avgSpeed <= r.maxSpeed
  {
    hide RouteConsistent, SaneDb, SaneRoute, StatsRow, TotalsOf, Kept;
    var rows := Selected(db, names);
    forall i | 0 <= i < |rows| ensures SaneRoute(rows[i]) {
      RoutesAreSane(db, names[i]);
    }
    r := MyStats(rows, ignored);
  }

  /** An ingest or a deletion by the user. */
  datatype Change =
    | Put(dongle: string, ts: string, seg: int, file: string, body: Body)
    | Remove(dongle: string, ts: string, types: set<FileType>)

  function Make(db: Db, c: Change): Db {
    match c
    case Put(dongle, ts, seg, file, body) => Ingested(db, dongle, ts, seg, file, body).0
    case Remove(dongle, ts, types) => Deleted(db, dongle, ts, types)
  }

  function After(db: Db, changes: seq<Change>): Db
    decreases |changes|
  {
    if changes == [] then db else Make(After(db, changes[..|changes| - 1]), changes[|changes| - 1])
  }

  /** Whatever is ingested and deleted, one after the other, from an empty server: all rows stay consistent and sane. */
  lemma {:induction false} ServerStaysSane(changes: seq<Change>)
    requires forall c | c in changes :: c.Put? ==> Forwards(c.body)
    ensures var db := After(Db(map[], map[], map[]), changes); RouteConsistent(db) && SaneDb(db)
    decreases |changes|
  {
    hide Ingested, Deleted, RouteConsistent, SaneDb, Forwards;
    if changes == [] {
      EmptyIsSane();
    } else {
      var init, last := changes[..|changes| - 1], changes[|changes| - 1];
      assert last in changes && forall c | c in init :: c in changes;
      ServerStaysSane(init);
      var before := After(Db(map[], map[], map[]), init);
      match last
      case Put(dongle, ts, seg, file, body) =>
        IngestKeepsRoutes(before, dongle, ts, seg, file, body);
        IngestKeepsSane(before, dongle, ts, seg, file, body);
      case Remove(dongle, ts, types) =>
        DeleteKeepsRoutes(before, dongle, ts, types);
        DeleteKeepsSane(before, dongle, ts, types);
    }
  }

  lemma EmptyIsSane()
    ensures RouteConsistent(Db(map[], map[], map[])) && SaneDb(Db(map[], map[], map[]))
  {
  }

  lemma SameTotals(a: Totals, b: Totals, rows: seq<RouteStats>)
    requires TotalsOf(a, rows) && b == a.(autonomy := b.autonomy, avgSpeed := b.avgSpeed)
    ensures TotalsOf(b, rows)
  {
  }

  function Nothing(): Totals {
    Totals(0, 0.0, 0.0, 0.0, 0.0, 0.0, 0, 0, 0, 0.0, 0.0)
  }

  lemma NothingIsSane()
    ensures SaneTotals(Nothing())
    ensures TotalsOf(Nothing(), [])
  {
  }
}
