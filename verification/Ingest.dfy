/** Ingest: store a segment file, register it, and keep the route row up to date. */
module Ingest {
  import opened Wrappers
  import opened Names
  import opened FileTypes
  import opened Folds
  import opened Segments
  import opened Storage
  import opened Telemetry
  import Events

  /** What a log says about place and health. */
  datatype Fixes = Fixes(
    startLat: real, startLng: real, endLat: real, endLng: real, miles: real, startMillis: int, endMillis: int,
    maxTemp: real, minFree: real, maxMem: int)

  /** A decoded qlog: its fixes, and its engagement and speed messages. */
  datatype Parse = Parse(fixes: Fixes, log: Events.Log)

  /** An uploaded body: its size, and what decoding it as a qlog yields (none if it cannot be opened). */
  datatype Body = Body(size: nat, parsed: Option<Parse>)

  /** The telemetry of a log, on the clock of the route. */
  function SamplesOf(acc: Events.Acc): (r: seq<Sample>)
    ensures |r| == |acc.telemetry|
    ensures forall i | 0 <= i < |r| ::
              r[i].speed == acc.telemetry[i].speed && r[i].engaged == acc.telemetry[i].engaged
  {
    var base := acc.base.GetOr(0);
    seq(|acc.telemetry|, i requires 0 <= i < |acc.telemetry| =>
      var s := acc.telemetry[i];
      Sample(if s.time < base then 0.0 else (s.time - base) as real / 1_000_000_000.0, s.speed, s.engaged))
  }

  /** What a parsed qlog puts on its segment row. */
  function StatsOf(p: Parse): Stats {
    var f, s := p.fixes, SegStatsOf(SamplesOf(Events.Parsed(p.log)));
    Stats(f.startLat, f.startLng, f.endLat, f.endLng, f.miles, f.startMillis, f.endMillis,
          s.engagedM, s.telemM, s.engagedS, s.driveS, s.maxSpeed, s.disengage, s.hardBrake, s.hardAccel,
          f.maxTemp, f.minFree, f.maxMem)
  }

  datatype Error = AlreadyUploaded | BadLog

  /** A route row: the derived columns, and the per-drive sync override as stored. */
  datatype RouteRow = RouteRow(derived: Aggregate, syncTypes: Option<string>)

  datatype Db = Db(blobs: map<string, nat>, segments: SegTable, routes: map<string, RouteRow>)

  function ConnectdataUrl(t: FileType, dongle: string, ts: string, seg: int, file: string): string {
    var kind := if IsCamera(t) then Token(t)[..1] + "cam" else Token(t);
    DownloadUrl(kind, dongle, ts, seg, file)
  }

  // ---- the row updates ------------------------------------------------------------

  function RowAt(segments: SegTable, k: (string, int)): SegRow {
    if k in segments then segments[k] else SegRow(map[], NO_STATS)
  }

  function EnsureRoute(routes: map<string, RouteRow>, name: string): map<string, RouteRow> {
    if name in routes then routes
    else routes[name := RouteRow(Aggregated(map[], name), None)]
  }

  function OwnUrl(dongle: string, ts: string, seg: int, file: string): map<FileType, string> {
    match FileKind(file)
    case None => map[]
    case Some(t) => map[t := ConnectdataUrl(t, dongle, ts, seg, file)]
  }

  /** The URLs of those of these cameras whose blobs are already stored for a segment. */
  function CamUrls(cams: seq<FileType>, blobs: set<string>, dongle: string, ts: string, seg: int)
    : map<FileType, string>
    requires forall t | t in cams :: IsCamera(t)
    decreases |cams|
  {
    if cams == [] then map[]
    else
      var rest, t := cams[..|cams| - 1], cams[|cams| - 1];
      assert cams == rest + [t];
      var urls := CamUrls(rest, blobs, dongle, ts, seg);
      if BlobKey(dongle, ts, seg, CamFile(t)) in blobs then
        urls[t := ConnectdataUrl(t, dongle, ts, seg, CamFile(t))]
      else urls
  }

  /** Exactly the stored cameras get a URL, that of their stored file. */
  lemma {:induction false} CamUrlsExact(cams: seq<FileType>, blobs: set<string>, dongle: string, ts: string, seg: int)
    requires forall t | t in cams :: IsCamera(t)
    ensures var r := CamUrls(cams, blobs, dongle, ts, seg);
            && (forall t :: t in r <==> t in cams && BlobKey(dongle, ts, seg, CamFile(t)) in blobs)
            && (forall t | t in r :: r[t] == ConnectdataUrl(t, dongle, ts, seg, CamFile(t)))
    decreases |cams|
  {
    hide BlobKey, ConnectdataUrl, CamFile;
    if cams != [] {
      assert cams == cams[..|cams| - 1] + [cams[|cams| - 1]];
      CamUrlsExact(cams[..|cams| - 1], blobs, dongle, ts, seg);
    }
  }

  /** `set_segment_file`: fill the column of the file's kind, creating the rows if absent. */
  function SetFile(db: Db, dongle: string, ts: string, seg: int, file: string): Db {
    if FileKind(file) == None then db
    else
      var route := RouteName(dongle, ts);
      var row := RowAt(db.segments, (route, seg));
      db.(routes := EnsureRoute(db.routes, route),
          segments := db.segments[(route, seg) := row.(urls := row.urls + OwnUrl(dongle, ts, seg, file))])
  }

  /** `upsert_segment`: the parsed stats, the file's own URL and those of stored cameras. */
  function Upserted(db: Db, dongle: string, ts: string, seg: int, file: string, stats: Stats): Db {
    var route := RouteName(dongle, ts);
    var row := RowAt(db.segments, (route, seg));
    var urls := row.urls + OwnUrl(dongle, ts, seg, file) + CamUrls(CAMERAS, db.blobs.Keys, dongle, ts, seg);
    db.(routes := EnsureRoute(db.routes, route), segments := db.segments[(route, seg) := SegRow(urls, stats)])
  }

  /** The sibling columns of `upsert_segment`: the URLs of the given cameras whose blobs are stored. */
  function CamsRegistered(db: Db, dongle: string, ts: string, seg: int, cams: seq<FileType>): Db
    requires forall t | t in cams :: IsCamera(t)
  {
    var k := (RouteName(dongle, ts), seg);
    var row := RowAt(db.segments, k);
    db.(segments := db.segments[k := row.(urls := row.urls + CamUrls(cams, db.blobs.Keys, dongle, ts, seg))])
  }

  /** `recompute_route`: nothing without segment rows, and an UPDATE needs the route row. */
  function Recomputed(db: Db, route: string): Db {
    if Numbers(db.segments, route) == {} || route !in db.routes then db
    else db.(routes := db.routes[route := db.routes[route].(derived := Aggregated(db.segments, route))])
  }

  /** `register_segment_file`. */
  function AfterRegister(db: Db, dongle: string, ts: string, seg: int, file: string, body: Body): Result<Db, Error> {
    if Has(file, Qlog) then
      match body.parsed
      case None => Err(BadLog)
      case Some(p) => Ok(Recomputed(Upserted(db, dongle, ts, seg, file, StatsOf(p)), RouteName(dongle, ts)))
    else Ok(Recomputed(SetFile(db, dongle, ts, seg, file), RouteName(dongle, ts)))
  }

  /** `ingest_segment_file`: never overwrite, store, register; the blob stays if registering fails. */
  function Ingested(db: Db, dongle: string, ts: string, seg: int, file: string, body: Body): (Db, Option<Error>) {
    var key := BlobKey(dongle, ts, seg, file);
    if key in db.blobs then (db, Some(AlreadyUploaded))
    else
      var stored := db.(blobs := db.blobs[key := body.size]);
      match AfterRegister(stored, dongle, ts, seg, file, body)
      case Err(e) => (stored, Some(e))
      case Ok(db') => (db', None)
  }

  // ---- deletion by the user -------------------------------------------------------------

  /** The stored names of a selectable type. */
  function TypeFiles(t: FileType): seq<string> {
    match t
    case Qlog => ["qlog.zst", "qlog.bz2"]
    case Rlog => ["rlog.zst", "rlog.bz2"]
    case _ => [CamFile(t)]
  }

  function TypeSpec(token: string): (r: Option<FileType>)
    ensures r.Some? ==> Token(r.value) == token
    ensures r.None? ==> forall t: FileType :: Token(t) != token
  {
    if token == "qcamera" then Some(Qcamera)
    else if token == "fcamera" then Some(Fcamera)
    else if token == "dcamera" then Some(Dcamera)
    else if token == "ecamera" then Some(Ecamera)
    else if token == "qlog" then Some(Qlog)
    else if token == "rlog" then Some(Rlog)
    else None
  }

  /** The files of a type are the ones registered in its column. */
  lemma TypeFilesHaveKind(t: FileType)
    ensures forall f | f in TypeFiles(t) :: FileKind(f) == Some(t)
  {
    hide FileKind;
    if IsCamera(t) {
      CamFileKind(t);
    } else {
      assert Token(Qlog) + ".zst" == "qlog.zst" && Token(Qlog) + ".bz2" == "qlog.bz2";
      assert Token(Rlog) + ".zst" == "rlog.zst" && Token(Rlog) + ".bz2" == "rlog.bz2";
      LogKind(t, Token(t) + ".zst");
      LogKind(t, Token(t) + ".bz2");
    }
  }

  function SpecOf(types: seq<string>): set<FileType> {
    set i | 0 <= i < |types| && TypeSpec(types[i]).Some? :: TypeSpec(types[i]).value
  }

  function NamedKeys(dongle: string, ts: string, seg: int, names: seq<string>): set<string> {
    set i | 0 <= i < |names| :: BlobKey(dongle, ts, seg, names[i])
  }

  /** The blobs of these types of one segment. */
  function SegmentKeys(dongle: string, ts: string, seg: int, types: set<FileType>): set<string> {
    set t, key | t in types && key in NamedKeys(dongle, ts, seg, TypeFiles(t)) :: key
  }

  /** The blobs of these types of these segments. */
  function DeletedKeys(segs: set<int>, dongle: string, ts: string, types: set<FileType>): set<string> {
    set seg, key | seg in segs && key in SegmentKeys(dongle, ts, seg, types) :: key
  }

  /** The URL columns cleared on these rows of the route. */
  function ClearedColumns(segments: SegTable, route: string, segs: set<int>, types: set<FileType>): SegTable {
    map k | k in segments ::
      if k.0 == route && k.1 in segs then segments[k].(urls := segments[k].urls - types) else segments[k]
  }

  /** Blobs and columns of these types gone from these segments of the drive. */
  function Purged(db: Db, dongle: string, ts: string, segs: set<int>, types: set<FileType>): Db {
    db.(blobs := db.blobs - DeletedKeys(segs, dongle, ts, types),
        segments := ClearedColumns(db.segments, RouteName(dongle, ts), segs, types))
  }

  /** The server side of `delete`: purge the route's segments, then recompute its aggregate. */
  function Deleted(db: Db, dongle: string, ts: string, types: set<FileType>): Db {
    var route := RouteName(dongle, ts);
    Recomputed(Purged(db, dongle, ts, Numbers(db.segments, route), types), route)
  }

  /** The statistics of a decoded log: the accumulator's loop, then the telemetry loop. */
  method ParseStats(p: Parse) returns (stats: Stats)
    ensures stats == StatsOf(p)
  {
    var acc := Events.ParseLog(p.log);
    var s := TelemetryStats(SamplesOf(acc.Abstract()));
    var f := p.fixes;
    stats := Stats(f.startLat, f.startLng, f.endLat, f.endLng, f.miles, f.startMillis, f.endMillis,
                   s.engagedM, s.telemM, s.engagedS, s.driveS, s.maxSpeed, s.disengage, s.hardBrake, s.hardAccel,
                   f.maxTemp, f.minFree, f.maxMem);
  }

  // ---- the server ----------------------------------------------------------------------

  /** The blob store and the two tables. */
  class Library {
    var blobs: map<string, nat>
    var segments: SegTable
    var routes: map<string, RouteRow>

    ghost function Abstract(): Db
      reads this
    {
      Db(blobs, segments, routes)
    }

    constructor ()
      ensures Abstract() == Db(map[], map[], map[])
    {
      blobs, segments, routes := map[], map[], map[];
    }

    method Store(key: string, size: nat) returns (stored: bool)
      modifies this
      ensures stored <==> key !in old(blobs)
      ensures Abstract() == old(Abstract()).(blobs := if stored then old(blobs)[key := size] else old(blobs))
    {
      if key in blobs {
        return false;
      }
      blobs := blobs[key := size];
      return true;
    }

    method SetSegmentFile(dongle: string, ts: string, seg: int, file: string)
      modifies this
      ensures Abstract() == SetFile(old(Abstract()), dongle, ts, seg, file)
    {
      hide FileKind, RouteName, ConnectdataUrl, Aggregated;
      var kind := FileKind(file);
      if kind == None {
        return;
      }
      var route := RouteName(dongle, ts);
      routes := EnsureRoute(routes, route);
      if (route, seg) !in segments {
        segments := segments[(route, seg) := SegRow(map[], NO_STATS)];
      }
      var row := segments[(route, seg)];
      var url := ConnectdataUrl(kind.value, dongle, ts, seg, file);
      assert row.urls[kind.value := url] == row.urls + OwnUrl(dongle, ts, seg, file);
      segments := segments[(route, seg) := row.(urls := row.urls[kind.value := url])];
    }

    /** Register the camera blobs that are already stored for an existing segment row. */
    method RegisterStoredCams(dongle: string, ts: string, seg: int)
      requires RouteName(dongle, ts) in routes && (RouteName(dongle, ts), seg) in segments
      modifies this
      ensures Abstract() == CamsRegistered(old(Abstract()), dongle, ts, seg, CAMERAS)
    {
      hide FileKind, BlobKey, RouteName, CamsRegistered, SetFile;
      NoCams(Abstract(), dongle, ts, seg);
      for i := 0 to |CAMERAS|
        invariant Abstract() == CamsRegistered(old(Abstract()), dongle, ts, seg, CAMERAS[..i])
      {
        var cam := CAMERAS[i];
        NextCam(old(Abstract()), dongle, ts, seg, CAMERAS, i);
        if BlobKey(dongle, ts, seg, CamFile(cam)) in blobs {
          SetSegmentFile(dongle, ts, seg, CamFile(cam));
        }
      }
      assert CAMERAS[..|CAMERAS|] == CAMERAS;
    }

    method UpsertSegment(dongle: string, ts: string, seg: int, file: string, stats: Stats)
      requires FileKind(file).Some?
      modifies this
      ensures Abstract() == Upserted(old(Abstract()), dongle, ts, seg, file, stats)
    {
      hide FileKind, BlobKey, RouteName, ConnectdataUrl, Aggregated, CamUrls;
      var route := RouteName(dongle, ts);
      routes := EnsureRoute(routes, route);
      segments := segments[(route, seg) := RowAt(segments, (route, seg)).(stats := stats)];
      SetSegmentFile(dongle, ts, seg, file);
      RegisterStoredCams(dongle, ts, seg);
    }

    method RecomputeRoute(route: string)
      modifies this
      ensures Abstract() == Recomputed(old(Abstract()), route)
    {
      hide Numbers, Aggregated;
      if Numbers(segments, route) == {} {
        return;
      }
      var derived := Aggregated(segments, route);
      if route in routes {
        routes := routes[route := routes[route].(derived := derived)];
      }
    }

    method RegisterSegmentFile(dongle: string, ts: string, seg: int, file: string, body: Body)
      returns (r: Option<Error>)
      modifies this
      ensures match AfterRegister(old(Abstract()), dongle, ts, seg, file, body)
              case Ok(db) => r == None && Abstract() == db
              case Err(e) => r == Some(e) && Abstract() == old(Abstract())
    {
      if Has(file, Qlog) {
        match body.parsed
        case None => return Some(BadLog);
        case Some(p) =>
          QlogHasKind(file);
          var stats := ParseStats(p);
          UpsertSegment(dongle, ts, seg, file, stats);
      } else {
        SetSegmentFile(dongle, ts, seg, file);
      }
      RecomputeRoute(RouteName(dongle, ts));
      return None;
    }

    method IngestSegmentFile(dongle: string, ts: string, seg: int, file: string, body: Body)
      returns (r: Option<Error>)
      modifies this
      ensures (Abstract(), r) == Ingested(old(Abstract()), dongle, ts, seg, file, body)
    {
      var stored := Store(BlobKey(dongle, ts, seg, file), body.size);
      if !stored {
        return Some(AlreadyUploaded);
      }
      r := RegisterSegmentFile(dongle, ts, seg, file, body);
    }

    method DeleteFiles(dongle: string, ts: string, seg: int, names: seq<string>) returns (removed: nat, freed: nat)
      modifies this
      ensures Abstract() == old(Abstract()).(blobs := old(blobs) - NamedKeys(dongle, ts, seg, names))
      ensures removed + |blobs| == |old(blobs)| && freed + Total(blobs) == Total(old(blobs))
    {
      hide BlobKey, Total, NamedKeys;
      removed, freed := 0, 0;
      NoNamedKeys(dongle, ts, seg, names);
      for i := 0 to |names|
        invariant segments == old(segments) && routes == old(routes)
        invariant blobs == old(blobs) - NamedKeys(dongle, ts, seg, names[..i])
        invariant removed + |blobs| == |old(blobs)| && freed + Total(blobs) == Total(old(blobs))
      {
        var key := BlobKey(dongle, ts, seg, names[i]);
        NextNamedKey(dongle, ts, seg, names, i);
        assert old(blobs) - NamedKeys(dongle, ts, seg, names[..i + 1]) == blobs - {key};
        if key in blobs {
          DropKey(blobs, key);
          freed, removed := freed + blobs[key], removed + 1;
          blobs := blobs - {key};
        }
      }
      assert names[..|names|] == names;
    }

    method DeleteType(dongle: string, ts: string, seg: int, t: FileType) returns (removed: nat, freed: nat)
      requires (RouteName(dongle, ts), seg) in segments
      modifies this
      ensures Abstract() == Purged(old(Abstract()), dongle, ts, {seg}, {t})
      ensures removed + |blobs| == |old(blobs)| && freed + Total(blobs) == Total(old(blobs))
    {
      hide NamedKeys, RouteName, Total;
      removed, freed := DeleteFiles(dongle, ts, seg, TypeFiles(t));
      OneSegmentKeys(dongle, ts, seg, t);
      var k := (RouteName(dongle, ts), seg);
      segments := segments[k := segments[k].(urls := segments[k].urls - {t})];
      assert segments == ClearedColumns(old(segments), RouteName(dongle, ts), {seg}, {t});
    }

    method DeleteTypes(dongle: string, ts: string, seg: int, types: seq<string>) returns (removed: nat, freed: nat)
      requires (RouteName(dongle, ts), seg) in segments
      modifies this
      ensures Abstract() == Purged(old(Abstract()), dongle, ts, {seg}, SpecOf(types))
      ensures removed + |blobs| == |old(blobs)| && freed + Total(blobs) == Total(old(blobs))
    {
      hide RouteName, Total, TypeSpec, Purged;
      removed, freed := 0, 0;
      PurgedNothing(Abstract(), dongle, ts, {seg}, SpecOf(types[..0]));
      for i := 0 to |types|
        invariant Abstract() == Purged(old(Abstract()), dongle, ts, {seg}, SpecOf(types[..i]))
        invariant segments.Keys == old(segments).Keys
        invariant removed + |blobs| == |old(blobs)| && freed + Total(blobs) == Total(old(blobs))
      {
        var spec := TypeSpec(types[i]);
        if spec == None {
          assert SpecOf(types[..i + 1]) == SpecOf(types[..i]);
          continue;
        }
        assert SpecOf(types[..i + 1]) == SpecOf(types[..i]) + {spec.value};
        PurgedTypes(old(Abstract()), dongle, ts, {seg}, SpecOf(types[..i]), {spec.value});
        PurgedKeepsRows(Abstract(), dongle, ts, {seg}, {spec.value});
        var r, f := DeleteType(dongle, ts, seg, spec.value);
        removed, freed := removed + r, freed + f;
      }
      assert types[..|types|] == types;
    }

    /** The server side of the manage-data delete: `(removed, freed)` files and bytes. */
    method Delete(dongle: string, ts: string, types: seq<string>) returns (removed: nat, freed: nat)
      modifies this
      ensures Abstract() == Deleted(old(Abstract()), dongle, ts, SpecOf(types))
      ensures removed == |old(blobs)| - |blobs| && freed == Total(old(blobs)) - Total(blobs)
    {
      hide RouteName, Total, SpecOf, Aggregated, Purged, First, Recomputed;
      removed, freed := 0, 0;
      var route := RouteName(dongle, ts);
      var segs := Ascending(Numbers(segments, route));
      FirstAll(segs);
      PurgedNothing(Abstract(), dongle, ts, First(segs, 0), SpecOf(types));
      for i := 0 to |segs|
        invariant Abstract() == Purged(old(Abstract()), dongle, ts, First(segs, i), SpecOf(types))
        invariant segments.Keys == old(segments).Keys
        invariant removed + |blobs| == |old(blobs)| && freed + Total(blobs) == Total(old(blobs))
      {
        NumberedRow(old(segments), route, segs[i]);
        FirstMore(segs, i);
        PurgedSegments(old(Abstract()), dongle, ts, First(segs, i), {segs[i]}, SpecOf(types));
        PurgedKeepsRows(Abstract(), dongle, ts, {segs[i]}, SpecOf(types));
        var r, f := DeleteTypes(dongle, ts, segs[i], types);
        removed, freed := removed + r, freed + f;
      }
      assert (set x | x in segs) == Numbers(old(segments), route);
      RecomputedKeepsBlobs(Abstract(), route);
      RecomputeRoute(route);
    }
  }

  lemma NoCams(db: Db, dongle: string, ts: string, seg: int)
    requires (RouteName(dongle, ts), seg) in db.segments
    ensures CamsRegistered(db, dongle, ts, seg, CAMERAS[..0]) == db
  {
    var urls := db.segments[(RouteName(dongle, ts), seg)].urls;
    assert urls + CamUrls(CAMERAS[..0], db.blobs.Keys, dongle, ts, seg) == urls;
  }

  lemma NextCam(db: Db, dongle: string, ts: string, seg: int, cams: seq<FileType>, i: nat)
    requires i < |cams| && forall t | t in cams :: IsCamera(t)
    requires RouteName(dongle, ts) in db.routes && (RouteName(dongle, ts), seg) in db.segments
    ensures var was := CamsRegistered(db, dongle, ts, seg, cams[..i]);
            was.blobs == db.blobs
            && CamsRegistered(db, dongle, ts, seg, cams[..i + 1])
            == if BlobKey(dongle, ts, seg, CamFile(cams[i])) in db.blobs
               then SetFile(was, dongle, ts, seg, CamFile(cams[i]))
               else was
  {
    hide BlobKey, ConnectdataUrl, RouteName, CamUrls, CamFile, SetFile, FileKind;
    var k := (RouteName(dongle, ts), seg);
    var was := CamsRegistered(db, dongle, ts, seg, cams[..i]);
    SetCamFile(was, dongle, ts, seg, cams[i]);
    NextCamUrl(cams, i, db.blobs.Keys, dongle, ts, seg);
    var urls := db.segments[k].urls;
    var own := OwnUrl(dongle, ts, seg, CamFile(cams[i]));
    var cam := CamUrls(cams[..i], db.blobs.Keys, dongle, ts, seg);
    assert urls + cam + own == urls + (cam + own);
    assert was.segments[k] == db.segments[k].(urls := urls + cam);
  }

  lemma SetCamFile(db: Db, dongle: string, ts: string, seg: int, cam: FileType)
    requires IsCamera(cam) && RouteName(dongle, ts) in db.routes && (RouteName(dongle, ts), seg) in db.segments
    ensures var k := (RouteName(dongle, ts), seg);
            SetFile(db, dongle, ts, seg, CamFile(cam))
            == db.(segments := db.segments[k := db.segments[k].(urls :=
                 db.segments[k].urls + OwnUrl(dongle, ts, seg, CamFile(cam)))])
  {
    hide FileKind, RouteName, ConnectdataUrl, CamFile;
    CamFileKind(cam);
  }

  lemma NextCamUrl(cams: seq<FileType>, i: nat, blobs: set<string>, dongle: string, ts: string, seg: int)
    requires i < |cams| && forall t | t in cams :: IsCamera(t)
    ensures var was := CamUrls(cams[..i], blobs, dongle, ts, seg);
            CamUrls(cams[..i + 1], blobs, dongle, ts, seg)
            == if BlobKey(dongle, ts, seg, CamFile(cams[i])) in blobs
               then was + OwnUrl(dongle, ts, seg, CamFile(cams[i]))
               else was
  {
    hide BlobKey, ConnectdataUrl, FileKind, CamFile;
    CamFileKind(cams[i]);
    assert cams[..i + 1][..i] == cams[..i];
  }

  lemma NoNamedKeys(dongle: string, ts: string, seg: int, names: seq<string>)
    ensures NamedKeys(dongle, ts, seg, names[..0]) == {}
  {
  }

  lemma NextNamedKey(dongle: string, ts: string, seg: int, names: seq<string>, i: nat)
    requires i < |names|
    ensures NamedKeys(dongle, ts, seg, names[..i + 1])
         == NamedKeys(dongle, ts, seg, names[..i]) + {BlobKey(dongle, ts, seg, names[i])}
  {
    hide BlobKey;
    var more := names[..i + 1];
    assert more[i] == names[i] && forall j | 0 <= j < i :: more[j] == names[..i][j];
  }

  lemma DropKey(blobs: map<string, nat>, key: string)
    requires key in blobs
    ensures |blobs - {key}| == |blobs| - 1 && Total(blobs - {key}) == Total(blobs) - blobs[key]
  {
    TotalRemove(blobs, key);
    assert (blobs - {key}).Keys == blobs.Keys - {key};
    assert |blobs - {key}| == |(blobs - {key}).Keys| && |blobs| == |blobs.Keys|;
  }

  lemma OneSegmentKeys(dongle: string, ts: string, seg: int, t: FileType)
    ensures DeletedKeys({seg}, dongle, ts, {t}) == NamedKeys(dongle, ts, seg, TypeFiles(t))
  {
    hide NamedKeys;
    assert SegmentKeys(dongle, ts, seg, {t}) == NamedKeys(dongle, ts, seg, TypeFiles(t));
  }

  lemma PurgedNothing(db: Db, dongle: string, ts: string, segs: set<int>, types: set<FileType>)
    requires segs == {} || types == {}
    ensures Purged(db, dongle, ts, segs, types) == db
  {
    hide NamedKeys, RouteName;
    assert DeletedKeys(segs, dongle, ts, types) == {};
    assert forall u: map<FileType, string> :: u - {} == u;
    assert ClearedColumns(db.segments, RouteName(dongle, ts), segs, types) == db.segments;
  }

  lemma PurgedTypes(db: Db, dongle: string, ts: string, segs: set<int>, a: set<FileType>, b: set<FileType>)
    ensures Purged(Purged(db, dongle, ts, segs, a), dongle, ts, segs, b) == Purged(db, dongle, ts, segs, a + b)
  {
    hide NamedKeys, RouteName;
    assert forall seg :: SegmentKeys(dongle, ts, seg, a + b)
                      == SegmentKeys(dongle, ts, seg, a) + SegmentKeys(dongle, ts, seg, b);
    assert DeletedKeys(segs, dongle, ts, a + b) == DeletedKeys(segs, dongle, ts, a) + DeletedKeys(segs, dongle, ts, b);
    assert forall u: map<FileType, string> :: u - a - b == u - (a + b);
  }

  lemma PurgedSegments(db: Db, dongle: string, ts: string, a: set<int>, b: set<int>, types: set<FileType>)
    ensures Purged(Purged(db, dongle, ts, a, types), dongle, ts, b, types) == Purged(db, dongle, ts, a + b, types)
  {
    hide SegmentKeys, RouteName;
    assert DeletedKeys(a + b, dongle, ts, types)
        == DeletedKeys(a, dongle, ts, types) + DeletedKeys(b, dongle, ts, types);
    assert forall u: map<FileType, string> :: u - types - types == u - types;
  }

  lemma PurgedKeepsRows(db: Db, dongle: string, ts: string, segs: set<int>, types: set<FileType>)
    ensures Purged(db, dongle, ts, segs, types).segments.Keys == db.segments.Keys
  {
  }

  lemma NumberedRow(segments: SegTable, route: string, seg: int)
    ensures seg in Numbers(segments, route) <==> (route, seg) in segments
  {
  }

  ghost function First(segs: seq<int>, n: nat): set<int>
    requires n <= |segs|
  {
    set j | 0 <= j < n :: segs[j]
  }

  lemma FirstMore(segs: seq<int>, n: nat)
    requires n < |segs|
    ensures First(segs, n + 1) == First(segs, n) + {segs[n]}
  {
  }

  lemma FirstAll(segs: seq<int>)
    ensures First(segs, 0) == {} && First(segs, |segs|) == set x | x in segs
  {
  }

  lemma RecomputedKeepsBlobs(db: Db, route: string)
    ensures Recomputed(db, route).blobs == db.blobs
  {
    hide Aggregated, Numbers;
  }
}
