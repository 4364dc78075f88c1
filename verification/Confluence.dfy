/** Route rows follow their segment rows, and serial ingest does not depend on the order. */
module Confluence {
  import opened Wrappers
  import opened Text
  import opened Decimal
  import opened Names
  import opened FileTypes
  import opened Folds
  import opened Segments
  import opened Ingest

  // ---- the route row is the aggregate of its segment rows -----------------------------

  /** Every segment row has its route row, and that row is the aggregate. */
  predicate RouteConsistent(db: Db) {
    && (forall k | k in db.segments :: k.0 in db.routes)
    && (forall r | r in db.routes :: db.routes[r].derived == Aggregated(db.segments, r))
  }

  lemma NoRows(segments: SegTable, r: string)
    requires Numbers(segments, r) == {}
    ensures Aggregated(segments, r) == Aggregated(map[], r)
  {
    assert Numbers(map[], r) == {};
    assert RouteRows(segments, r) == RouteRows(map[], r);
  }

  /** Changing rows of one route and recomputing it keeps the invariant. */
  lemma RecomputeRestores(was: Db, db: Db, route: string)
    requires RouteConsistent(was)
    requires db.routes == EnsureRoute(was.routes, route)
             || (db.routes == was.routes && db.segments.Keys == was.segments.Keys)
    requires was.segments.Keys <= db.segments.Keys
    requires forall k: (string, int) | k in db.segments && k.0 != route ::
               k in was.segments && db.segments[k] == was.segments[k]
    ensures RouteConsistent(Recomputed(db, route))
  {
    hide Aggregated, Numbers;
    var after := Recomputed(db, route);
    assert db.segments.Keys == was.segments.Keys ==> Numbers(db.segments, route) == Numbers(was.segments, route) by {
      SameNumbers(db.segments, was.segments, route);
    }
    forall r | r in after.routes ensures after.routes[r].derived == Aggregated(after.segments, r) {
      if r != route {
        AggregatedFrame(was.segments, db.segments, r);
      } else if Numbers(db.segments, route) == {} {
        FewerNumbers(was.segments, db.segments, route);
        NoRows(db.segments, r);
        NoRows(was.segments, r);
      }
    }
    assert forall k | k in after.segments && k.0 == route :: k.0 in after.routes;
  }

  lemma SameNumbers(a: SegTable, b: SegTable, route: string)
    ensures a.Keys == b.Keys ==> Numbers(a, route) == Numbers(b, route)
  {
  }

  lemma FewerNumbers(a: SegTable, b: SegTable, route: string)
    requires a.Keys <= b.Keys
    ensures Numbers(a, route) <= Numbers(b, route)
  {
  }

  /** Every ingest and every user deletion leaves each route row equal to its aggregate. */
  lemma IngestKeepsRoutes(db: Db, dongle: string, ts: string, seg: int, file: string, body: Body)
    requires RouteConsistent(db)
    ensures RouteConsistent(Ingested(db, dongle, ts, seg, file, body).0)
  {
    hide Aggregated, Numbers, FileKind, BlobKey, RouteName, CamUrls, ConnectdataUrl, Recomputed;
    var route := RouteName(dongle, ts);
    var stored := db.(blobs := db.blobs[BlobKey(dongle, ts, seg, file) := body.size]);
    if Has(file, Qlog) {
      if body.parsed.Some? {
        RecomputeRestores(db, Upserted(stored, dongle, ts, seg, file, StatsOf(body.parsed.value)), route);
      }
    } else {
      RecomputeRestores(db, SetFile(stored, dongle, ts, seg, file), route);
    }
  }

  lemma DeleteKeepsRoutes(db: Db, dongle: string, ts: string, types: set<FileType>)
    requires RouteConsistent(db)
    ensures RouteConsistent(Deleted(db, dongle, ts, types))
  {
    hide Aggregated, Numbers, DeletedKeys, RouteName, Recomputed;
    var route := RouteName(dongle, ts);
    RecomputeRestores(db, Purged(db, dongle, ts, Numbers(db.segments, route), types), route);
  }

  // ---- serial ingest is confluent ---------------------------------------------------------

  /** One uploaded segment file of a fixed device. */
  datatype Op = Op(ts: string, seg: int, file: string, body: Body)

  /** A file as a device names it: one type, a key that can be read back, and the stored camera names. */
  predicate DeviceNamed(dongle: string, op: Op) {
    && WellNamed(dongle, op.seg, op.file) && WellTyped(op.file) && FileKind(op.file).Some?
    && (IsCamera(FileKind(op.file).value) ==> op.file == CamFile(FileKind(op.file).value))
  }

  /** Not two files of one type of one segment. */
  predicate Compatible(a: Op, b: Op) {
    (a.ts, a.seg) != (b.ts, b.seg) || FileKind(a.file) != FileKind(b.file)
  }

  function Apply(dongle: string, db: Db, op: Op): Db {
    Ingested(db, dongle, op.ts, op.seg, op.file, op.body).0
  }

  function KeyOf(dongle: string, op: Op): string {
    BlobKey(dongle, op.ts, op.seg, op.file)
  }

  function RowKey(dongle: string, op: Op): (string, int) {
    (RouteName(dongle, op.ts), op.seg)
  }

  /** The updated segment row. */
  function RowAfter(dongle: string, blobs: set<string>, row: SegRow, op: Op): SegRow
    requires Has(op.file, Qlog) ==> op.body.parsed.Some?
  {
    var own := OwnUrl(dongle, op.ts, op.seg, op.file);
    if Has(op.file, Qlog) then
      SegRow(row.urls + own + CamUrls(CAMERAS, blobs, dongle, op.ts, op.seg), StatsOf(op.body.parsed.value))
    else row.(urls := row.urls + own)
  }

  /** The route row after a recompute; an override that was there stays. */
  function Refreshed(routes: map<string, RouteRow>, segments: SegTable, route: string): map<string, RouteRow> {
    routes[route := RouteRow(Aggregated(segments, route), if route in routes then routes[route].syncTypes else None)]
  }

  predicate Fails(op: Op) {
    Has(op.file, Qlog) && op.body.parsed == None
  }

  /** The effect of one ingest, part by part. */
  lemma IngestEffect(dongle: string, db: Db, op: Op)
    requires FileKind(op.file).Some?
    ensures Apply(dongle, db, op) ==
            if KeyOf(dongle, op) in db.blobs then db
            else
              var blobs := db.blobs[KeyOf(dongle, op) := op.body.size];
              if Fails(op) then db.(blobs := blobs)
              else
                var k := RowKey(dongle, op);
                var segments := db.segments[k := RowAfter(dongle, blobs.Keys, RowAt(db.segments, k), op)];
                Db(blobs, segments, Refreshed(db.routes, segments, k.0))
  {
    hide Aggregated, FileKind, BlobKey, RouteName, ConnectdataUrl, CamUrls;
    var k := RowKey(dongle, op);
    var stored := db.(blobs := db.blobs[KeyOf(dongle, op) := op.body.size]);
    if KeyOf(dongle, op) !in db.blobs && !Fails(op) {
      var segments := db.segments[k := RowAfter(dongle, stored.blobs.Keys, RowAt(db.segments, k), op)];
      NumberedRow(segments, k.0, k.1);
      var routes := EnsureRoute(db.routes, k.0);
      assert Refreshed(routes, segments, k.0) == Refreshed(db.routes, segments, k.0);
    }
  }

  /** Storing a file that is not one of the segment's cameras does not change their URLs. */
  lemma CamUrlsIgnore(blobs: set<string>, key: string, dongle: string, ts: string, seg: int)
    requires forall t: FileType | IsCamera(t) :: key != BlobKey(dongle, ts, seg, CamFile(t))
    ensures CamUrls(CAMERAS, blobs + {key}, dongle, ts, seg) == CamUrls(CAMERAS, blobs, dongle, ts, seg)
  {
    hide BlobKey, ConnectdataUrl, CamFile;
    CamUrlsExact(CAMERAS, blobs, dongle, ts, seg);
    CamUrlsExact(CAMERAS, blobs + {key}, dongle, ts, seg);
  }

  /** Storing one of the segment's cameras adds its own URL. */
  lemma CamUrlsGrow(blobs: set<string>, dongle: string, ts: string, seg: int, cam: FileType)
    requires IsCamera(cam) && '_' !in dongle && seg >= 0
    ensures CamUrls(CAMERAS, blobs + {BlobKey(dongle, ts, seg, CamFile(cam))}, dongle, ts, seg)
         == CamUrls(CAMERAS, blobs, dongle, ts, seg) + OwnUrl(dongle, ts, seg, CamFile(cam))
  {
    hide BlobKey, ConnectdataUrl, FileKind, CamFile, CamUrls;
    var key := BlobKey(dongle, ts, seg, CamFile(cam));
    CamUrlsExact(CAMERAS, blobs, dongle, ts, seg);
    CamUrlsExact(CAMERAS, blobs + {key}, dongle, ts, seg);
    CamFileKind(cam);
    forall t: FileType | IsCamera(t) && t != cam ensures key != BlobKey(dongle, ts, seg, CamFile(t)) {
      CamKeysDiffer(dongle, ts, seg, cam, t);
    }
  }

  lemma CamKeysDiffer(dongle: string, ts: string, seg: int, s: FileType, t: FileType)
    requires IsCamera(s) && IsCamera(t) && s != t && '_' !in dongle && seg >= 0
    ensures BlobKey(dongle, ts, seg, CamFile(s)) != BlobKey(dongle, ts, seg, CamFile(t))
  {
    hide BlobKey, FileKind, CamFile, Contains;
    CamFileKind(s);
    CamFileKind(t);
    CamFileDashTail(s);
    CamFileDashTail(t);
    if BlobKey(dongle, ts, seg, CamFile(s)) == BlobKey(dongle, ts, seg, CamFile(t)) {
      BlobKeyInjective(dongle, ts, seg, CamFile(s), dongle, ts, seg, CamFile(t));
    }
  }

  lemma CamFileDashTail(t: FileType)
    requires IsCamera(t)
    ensures DashTail(CamFile(t))
  {
    forall i: nat ensures !OccursAt(CamFile(t), "--", i) {
      DashOccurs(CamFile(t), i);
    }
  }

  lemma KeysDiffer(dongle: string, a: Op, b: Op)
    requires DeviceNamed(dongle, a) && DeviceNamed(dongle, b) && Compatible(a, b)
    ensures KeyOf(dongle, a) != KeyOf(dongle, b)
  {
    if KeyOf(dongle, a) == KeyOf(dongle, b) {
      BlobKeyInjective(dongle, a.ts, a.seg, a.file, dongle, b.ts, b.seg, b.file);
    }
  }

  /** Another file's blob reaches a qlog's row only as a camera of the same segment. */
  lemma ForeignBlob(dongle: string, blobs: set<string>, a: Op, b: Op)
    requires DeviceNamed(dongle, a) && DeviceNamed(dongle, b) && Compatible(a, b)
    requires (a.ts, a.seg) != (b.ts, b.seg) || !IsCamera(FileKind(b.file).value)
    ensures CamUrls(CAMERAS, blobs + {KeyOf(dongle, b)}, dongle, a.ts, a.seg)
         == CamUrls(CAMERAS, blobs, dongle, a.ts, a.seg)
  {
    hide BlobKey, CamUrls, FileKind, Contains;
    forall t: FileType | IsCamera(t) ensures KeyOf(dongle, b) != BlobKey(dongle, a.ts, a.seg, CamFile(t)) {
      CamFileKind(t);
      CamFileDashTail(t);
      if KeyOf(dongle, b) == BlobKey(dongle, a.ts, a.seg, CamFile(t)) {
        BlobKeyInjective(dongle, b.ts, b.seg, b.file, dongle, a.ts, a.seg, CamFile(t));
      }
    }
    CamUrlsIgnore(blobs, KeyOf(dongle, b), dongle, a.ts, a.seg);
  }

  /** A qlog's kind is qlog, any other well-typed file's is not. */
  lemma QlogKind(dongle: string, op: Op)
    requires DeviceNamed(dongle, op)
    ensures Has(op.file, Qlog) <==> FileKind(op.file) == Some(Qlog)
  {
    ColumnsAgree(op.file);
    assert ([Qlog] + CAMERAS + [Rlog])[0] == Qlog;
  }

  /** A segment row after two ingests, `a` first. */
  function RowAfterTwo(dongle: string, blobs: set<string>, row: SegRow, a: Op, b: Op): SegRow
    requires !Fails(a) && !Fails(b)
  {
    var one := blobs + {KeyOf(dongle, a)};
    RowAfter(dongle, one + {KeyOf(dongle, b)}, RowAfter(dongle, one, row, a), b)
  }

  /** Row updates of two compatible files of one segment commute. */
  lemma RowsCommute(dongle: string, blobs: set<string>, row: SegRow, a: Op, b: Op)
    requires DeviceNamed(dongle, a) && DeviceNamed(dongle, b) && Compatible(a, b)
    requires (a.ts, a.seg) == (b.ts, b.seg) && !Fails(a) && !Fails(b)
    ensures RowAfterTwo(dongle, blobs, row, a, b) == RowAfterTwo(dongle, blobs, row, b, a)
  {
    hide BlobKey, CamUrls, ConnectdataUrl, FileKind, Contains, Has;
    QlogKind(dongle, a);
    QlogKind(dongle, b);
    if Has(a.file, Qlog) {
      QlogCommutes(dongle, blobs, row, a, b);
    } else if Has(b.file, Qlog) {
      QlogCommutes(dongle, blobs, row, b, a);
    } else {
      DisjointUrls(row.urls, OwnUrl(dongle, a.ts, a.seg, a.file), OwnUrl(dongle, b.ts, b.seg, b.file));
    }
  }

  lemma DisjointUrls<K, V>(u: map<K, V>, a: map<K, V>, b: map<K, V>)
    requires a.Keys !! b.Keys
    ensures u + a + b == u + b + a
  {
  }

  lemma QlogCommutes(dongle: string, blobs: set<string>, row: SegRow, q: Op, c: Op)
    requires DeviceNamed(dongle, q) && DeviceNamed(dongle, c) && Compatible(q, c)
    requires (q.ts, q.seg) == (c.ts, c.seg) && !Fails(q) && Has(q.file, Qlog) && !Has(c.file, Qlog)
    ensures RowAfterTwo(dongle, blobs, row, q, c) == RowAfterTwo(dongle, blobs, row, c, q)
  {
    hide BlobKey, CamUrls, ConnectdataUrl, FileKind, Contains, Has, CamFile;
    var ownQ, ownC := OwnUrl(dongle, q.ts, q.seg, q.file), OwnUrl(dongle, c.ts, c.seg, c.file);
    var before := blobs + {KeyOf(dongle, q)};
    assert blobs + {KeyOf(dongle, c)} + {KeyOf(dongle, q)} == before + {KeyOf(dongle, c)};
    var urls := CamUrls(CAMERAS, before, dongle, q.ts, q.seg);
    var urls' := CamUrls(CAMERAS, before + {KeyOf(dongle, c)}, dongle, q.ts, q.seg);
    if IsCamera(FileKind(c.file).value) {
      CamUrlsGrow(before, dongle, c.ts, c.seg, FileKind(c.file).value);
      assert row.urls + ownQ + urls + ownC == row.urls + ownC + ownQ + (urls + ownC);
    } else {
      ForeignBlob(dongle, before, q, c);
      CamUrlsExact(CAMERAS, before, dongle, q.ts, q.seg);
      assert row.urls + ownQ + urls + ownC == row.urls + ownC + ownQ + urls;
    }
  }

  /** Ingesting two compatible files commutes, from any state. */
  lemma IngestsCommute(dongle: string, db: Db, a: Op, b: Op)
    requires DeviceNamed(dongle, a) && DeviceNamed(dongle, b) && Compatible(a, b)
    ensures Apply(dongle, Apply(dongle, db, a), b) == Apply(dongle, Apply(dongle, db, b), a)
  {
    hide Apply, KeyOf, RowAfter, RouteName, FileKind, Has, Aggregated, DeviceNamed;
    KeysDiffer(dongle, a, b);
    Known(dongle, a);
    Known(dongle, b);
    IngestEffect(dongle, db, a);
    IngestEffect(dongle, db, b);
    IngestEffect(dongle, Apply(dongle, db, a), b);
    IngestEffect(dongle, Apply(dongle, db, b), a);
    var ka, kb := KeyOf(dongle, a), KeyOf(dongle, b);
    if ka !in db.blobs && kb !in db.blobs {
      BothNewCommute(dongle, db, a, b);
    }
  }

  lemma Known(dongle: string, op: Op)
    requires DeviceNamed(dongle, op)
    ensures FileKind(op.file).Some?
  {
  }

  /** A row update does not see the blob of another segment's file, nor of a file that is no camera. */
  lemma RowIgnores(dongle: string, blobs: set<string>, row: SegRow, a: Op, b: Op)
    requires DeviceNamed(dongle, a) && DeviceNamed(dongle, b) && Compatible(a, b) && !Fails(a)
    requires (a.ts, a.seg) != (b.ts, b.seg) || !IsCamera(FileKind(b.file).value)
    ensures RowAfter(dongle, blobs + {KeyOf(dongle, b)}, row, a) == RowAfter(dongle, blobs, row, a)
  {
    hide BlobKey, CamUrls, ConnectdataUrl, FileKind, Contains, Has;
    ForeignBlob(dongle, blobs, a, b);
  }

  lemma FailingIsNoCamera(dongle: string, op: Op)
    requires DeviceNamed(dongle, op) && Fails(op)
    ensures !IsCamera(FileKind(op.file).value)
  {
  }

  /** The segment rows after two new files, `a` first. */
  function RowsAfterTwo(dongle: string, db: Db, a: Op, b: Op): SegTable {
    var one := db.blobs.Keys + {KeyOf(dongle, a)};
    var segments := if Fails(a) then db.segments
      else db.segments[RowKey(dongle, a) := RowAfter(dongle, one, RowAt(db.segments, RowKey(dongle, a)), a)];
    if Fails(b) then segments
    else segments[RowKey(dongle, b) :=
      RowAfter(dongle, one + {KeyOf(dongle, b)}, RowAt(segments, RowKey(dongle, b)), b)]
  }

  lemma RowKeysDiffer(dongle: string, a: Op, b: Op)
    ensures RowKey(dongle, a) == RowKey(dongle, b) <==> (a.ts, a.seg) == (b.ts, b.seg)
  {
    assert RouteName(dongle, a.ts)[|dongle| + 1..] == a.ts && RouteName(dongle, b.ts)[|dongle| + 1..] == b.ts;
  }

  lemma SegmentsCommute(dongle: string, db: Db, a: Op, b: Op)
    requires DeviceNamed(dongle, a) && DeviceNamed(dongle, b) && Compatible(a, b)
    ensures RowsAfterTwo(dongle, db, a, b) == RowsAfterTwo(dongle, db, b, a)
  {
    hide KeyOf, RowAfter, RowKey, FileKind, Has, DeviceNamed, Compatible;
    var keys, ka, kb := db.blobs.Keys, KeyOf(dongle, a), KeyOf(dongle, b);
    RowKeysDiffer(dongle, a, b);
    assert keys + {ka} + {kb} == keys + {kb} + {ka};
    if Fails(a) && Fails(b) {
    } else if Fails(a) {
      FailingIsNoCamera(dongle, a);
      RowIgnores(dongle, keys + {kb}, RowAt(db.segments, RowKey(dongle, b)), b, a) by { Symmetric(a, b); }
    } else if Fails(b) {
      FailingIsNoCamera(dongle, b);
      RowIgnores(dongle, keys + {ka}, RowAt(db.segments, RowKey(dongle, a)), a, b);
    } else if (a.ts, a.seg) == (b.ts, b.seg) {
      RowsCommute(dongle, keys, RowAt(db.segments, RowKey(dongle, a)), a, b);
    } else {
      RowIgnores(dongle, keys + {kb}, RowAt(db.segments, RowKey(dongle, b)), b, a) by { Symmetric(a, b); }
      RowIgnores(dongle, keys + {ka}, RowAt(db.segments, RowKey(dongle, a)), a, b);
    }
  }

  lemma Symmetric(a: Op, b: Op)
    ensures Compatible(a, b) <==> Compatible(b, a)
  {
  }

  lemma BothNewCommute(dongle: string, db: Db, a: Op, b: Op)
    requires DeviceNamed(dongle, a) && DeviceNamed(dongle, b) && Compatible(a, b)
    requires KeyOf(dongle, a) !in db.blobs && KeyOf(dongle, b) !in db.blobs && KeyOf(dongle, a) != KeyOf(dongle, b)
    ensures Apply(dongle, Apply(dongle, db, a), b) == Apply(dongle, Apply(dongle, db, b), a)
  {
    hide Apply, KeyOf, RowAfter, RouteName, FileKind, Has, Aggregated, DeviceNamed;
    Known(dongle, a);
    Known(dongle, b);
    TwoEffects(dongle, db, a, b);
    TwoEffects(dongle, db, b, a) by { Symmetric(a, b); }
    SegmentsCommute(dongle, db, a, b);
    RoutesCommute(dongle, db, a, b);
    var ka, kb := KeyOf(dongle, a), KeyOf(dongle, b);
    assert db.blobs[ka := a.body.size][kb := b.body.size] == db.blobs[kb := b.body.size][ka := a.body.size];
  }

  /** The route rows after two new files, `a` first. */
  function RoutesAfterTwo(dongle: string, db: Db, a: Op, b: Op): map<string, RouteRow> {
    var one := db.blobs.Keys + {KeyOf(dongle, a)};
    var segments := if Fails(a) then db.segments
      else db.segments[RowKey(dongle, a) := RowAfter(dongle, one, RowAt(db.segments, RowKey(dongle, a)), a)];
    var routes := if Fails(a) then db.routes else Refreshed(db.routes, segments, RowKey(dongle, a).0);
    if Fails(b) then routes
    else Refreshed(routes, RowsAfterTwo(dongle, db, a, b), RowKey(dongle, b).0)
  }

  lemma TwoEffects(dongle: string, db: Db, a: Op, b: Op)
    requires FileKind(a.file).Some? && FileKind(b.file).Some?
    requires KeyOf(dongle, a) !in db.blobs && KeyOf(dongle, b) !in db.blobs && KeyOf(dongle, a) != KeyOf(dongle, b)
    ensures Apply(dongle, Apply(dongle, db, a), b)
         == Db(db.blobs[KeyOf(dongle, a) := a.body.size][KeyOf(dongle, b) := b.body.size],
               RowsAfterTwo(dongle, db, a, b), RoutesAfterTwo(dongle, db, a, b))
  {
    hide Apply, KeyOf, RowAfter, RowKey, FileKind, Has, Aggregated;
    IngestEffect(dongle, db, a);
    IngestEffect(dongle, Apply(dongle, db, a), b);
    assert db.blobs[KeyOf(dongle, a) := a.body.size].Keys == db.blobs.Keys + {KeyOf(dongle, a)};
    assert db.blobs[KeyOf(dongle, a) := a.body.size][KeyOf(dongle, b) := b.body.size].Keys
        == db.blobs.Keys + {KeyOf(dongle, a)} + {KeyOf(dongle, b)};
  }

  /** Each route row ends as the aggregate of the same final rows. */
  lemma RoutesCommute(dongle: string, db: Db, a: Op, b: Op)
    requires DeviceNamed(dongle, a) && DeviceNamed(dongle, b) && Compatible(a, b)
    ensures RoutesAfterTwo(dongle, db, a, b) == RoutesAfterTwo(dongle, db, b, a)
  {
    hide KeyOf, RowAfter, RowKey, FileKind, Has, DeviceNamed, Compatible, Aggregated;
    SegmentsCommute(dongle, db, a, b);
    var ra, rb := RowKey(dongle, a).0, RowKey(dongle, b).0;
    if !Fails(a) && !Fails(b) && ra != rb {
      FirstRowSettled(dongle, db, a, b);
      FirstRowSettled(dongle, db, b, a);
    }
  }

  /** The first file's route does not see the second file of another route. */
  lemma FirstRowSettled(dongle: string, db: Db, a: Op, b: Op)
    requires !Fails(a) && !Fails(b) && RowKey(dongle, a).0 != RowKey(dongle, b).0
    ensures var one := db.blobs.Keys + {KeyOf(dongle, a)};
            var row := RowAfter(dongle, one, RowAt(db.segments, RowKey(dongle, a)), a);
            var segments := db.segments[RowKey(dongle, a) := row];
            Aggregated(segments, RowKey(dongle, a).0) == Aggregated(RowsAfterTwo(dongle, db, a, b), RowKey(dongle, a).0)
  {
    hide KeyOf, RowAfter, RowKey, Aggregated, Numbers;
    var one := db.blobs.Keys + {KeyOf(dongle, a)};
    var segments := db.segments[RowKey(dongle, a) := RowAfter(dongle, one, RowAt(db.segments, RowKey(dongle, a)), a)];
    AggregatedFrame(segments, RowsAfterTwo(dongle, db, a, b), RowKey(dongle, a).0);
  }

  // ---- any order -----------------------------------------------------------------------------

  function Play(dongle: string, db: Db, ops: seq<Op>): Db
    decreases |ops|
  {
    if ops == [] then db else Play(dongle, Apply(dongle, db, ops[0]), ops[1..])
  }

  predicate AllDeviceNamed(dongle: string, ops: seq<Op>) {
    forall op | op in ops :: DeviceNamed(dongle, op)
  }

  /** At most one file per type per segment. */
  predicate PairwiseCompatible(ops: seq<Op>) {
    forall i, j | 0 <= i < j < |ops| :: Compatible(ops[i], ops[j])
  }

  /** A file can be ingested before all the files compatible with it. */
  lemma {:induction false} MoveToFront(dongle: string, db: Db, before: seq<Op>, op: Op, after: seq<Op>)
    requires AllDeviceNamed(dongle, before) && DeviceNamed(dongle, op)
    requires forall i | 0 <= i < |before| :: Compatible(before[i], op)
    ensures Play(dongle, db, before + [op] + after) == Play(dongle, Apply(dongle, db, op), before + after)
    decreases |before|
  {
    hide Apply, DeviceNamed, Compatible;
    if before == [] {
      assert before + [op] + after == [op] + after && before + after == after;
    } else {
      var rest := before[1..];
      assert (before + [op] + after)[1..] == rest + [op] + after && (before + after)[1..] == rest + after;
      MoveToFront(dongle, Apply(dongle, db, before[0]), rest, op, after);
      IngestsCommute(dongle, db, before[0], op);
    }
  }

  /** Taking one file out of a batch. */
  lemma TakeOut(dongle: string, a: seq<Op>, i: nat)
    requires i < |a| && AllDeviceNamed(dongle, a) && PairwiseCompatible(a)
    ensures var rest := a[..i] + a[i + 1..];
            AllDeviceNamed(dongle, rest) && PairwiseCompatible(rest) && multiset(rest) == multiset(a) - multiset{a[i]}
  {
    hide DeviceNamed, Compatible;
    var rest := a[..i] + a[i + 1..];
    assert forall j | 0 <= j < |rest| :: rest[j] == a[if j < i then j else j + 1];
    assert a == a[..i] + [a[i]] + a[i + 1..];
  }

  /** Serial ingest of the same files in any order ends in the same blobs, segment rows and route rows. */
  lemma {:induction false} IngestIsConfluent(dongle: string, db: Db, a: seq<Op>, b: seq<Op>)
    requires multiset(a) == multiset(b)
    requires AllDeviceNamed(dongle, a) && PairwiseCompatible(a)
    ensures Play(dongle, db, a) == Play(dongle, db, b)
    decreases |b|
  {
    hide Apply, DeviceNamed, Compatible, AllDeviceNamed, PairwiseCompatible;
    if b == [] {
      assert |multiset(a)| == 0;
    } else {
      var op := b[0];
      assert b == [op] + b[1..];
      assert op in multiset(a);
      var i :| 0 <= i < |a| && a[i] == op;
      var before, after := a[..i], a[i + 1..];
      assert a == before + [op] + after;
      TakeOut(dongle, a, i);
      assert multiset(b[1..]) == multiset(b) - multiset{op};
      EarlierCompatible(dongle, a, i);
      MoveToFront(dongle, db, before, op, after);
      IngestIsConfluent(dongle, Apply(dongle, db, op), before + after, b[1..]);
    }
  }

  lemma EarlierCompatible(dongle: string, a: seq<Op>, i: nat)
    requires i < |a| && AllDeviceNamed(dongle, a) && PairwiseCompatible(a)
    ensures AllDeviceNamed(dongle, a[..i]) && DeviceNamed(dongle, a[i])
    ensures forall j | 0 <= j < |a[..i]| :: Compatible(a[..i][j], a[i])
  {
  }
}
