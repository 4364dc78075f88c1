/** No link dangles: every URL in the segment table serves a stored blob. */
module Links {
  import opened Wrappers
  import opened Text
  import opened Decimal
  import opened Names
  import opened FileTypes
  import opened Segments
  import opened Ingest
  import opened DriveStats

  /** A segment file whose key can be read back, and whose parts the upload and download routes take apart. */
  predicate Routable(dongle: string, ts: string, seg: int, file: string) {
    WellNamed(dongle, seg, file) && Component(dongle) && Component(ts) && Component(file) && seg <= I64_MAX
  }

  /** The column of this row links to a stored file of its type. */
  ghost predicate Live(blobs: set<string>, k: (string, int), t: FileType, url: string) {
    exists dongle, ts, file :: LinksTo(blobs, k, t, url, dongle, ts, file)
  }

  predicate LinksTo(blobs: set<string>, k: (string, int), t: FileType, url: string,
                    dongle: string, ts: string, file: string)
  {
    && k.0 == RouteName(dongle, ts) && Routable(dongle, ts, k.1, file) && FileKind(file) == Some(t)
    && url == ConnectdataUrl(t, dongle, ts, k.1, file) && BlobKey(dongle, ts, k.1, file) in blobs
  }

  ghost predicate RowLive(blobs: set<string>, k: (string, int), urls: map<FileType, string>) {
    forall t | t in urls :: Live(blobs, k, t, urls[t])
  }

  ghost predicate AllLive(db: Db) {
    forall k | k in db.segments :: k.1 >= 0 && RowLive(db.blobs.Keys, k, db.segments[k].urls)
  }

  // ---- ingest --------------------------------------------------------------------------------------

  lemma MoreBlobs(a: set<string>, b: set<string>, k: (string, int), urls: map<FileType, string>)
    requires RowLive(a, k, urls) && a <= b
    ensures RowLive(b, k, urls)
  {
    hide BlobKey, RouteName, ConnectdataUrl, FileKind, Routable;
    forall t | t in urls ensures Live(b, k, t, urls[t]) {
      var dongle, ts, file :| LinksTo(a, k, t, urls[t], dongle, ts, file);
      assert LinksTo(b, k, t, urls[t], dongle, ts, file);
    }
  }

  lemma OwnIsLive(blobs: set<string>, dongle: string, ts: string, seg: int, file: string)
    requires Routable(dongle, ts, seg, file) && BlobKey(dongle, ts, seg, file) in blobs
    ensures RowLive(blobs, (RouteName(dongle, ts), seg), OwnUrl(dongle, ts, seg, file))
  {
    hide BlobKey, RouteName, ConnectdataUrl, FileKind, Routable;
    var own := OwnUrl(dongle, ts, seg, file);
    forall t | t in own ensures Live(blobs, (RouteName(dongle, ts), seg), t, own[t]) {
      assert LinksTo(blobs, (RouteName(dongle, ts), seg), t, own[t], dongle, ts, file);
    }
  }

  /** The stored file names are routable wherever one file is. */
  lemma NamedIsRoutable(dongle: string, ts: string, seg: int, file: string, t: FileType, name: string)
    requires Routable(dongle, ts, seg, file) && name in TypeFiles(t)
    ensures Routable(dongle, ts, seg, name)
  {
    NamedIsTail(t, name);
  }

  lemma NamedIsTail(t: FileType, name: string)
    requires name in TypeFiles(t)
    ensures DashTail(name) && Component(name)
  {
    assert '-' !in name;
    forall i: nat ensures !OccursAt(name, "--", i) {
      DashOccurs(name, i);
    }
  }

  lemma CamsAreLive(blobs: set<string>, dongle: string, ts: string, seg: int, file: string)
    requires Routable(dongle, ts, seg, file)
    ensures RowLive(blobs, (RouteName(dongle, ts), seg), CamUrls(CAMERAS, blobs, dongle, ts, seg))
  {
    hide BlobKey, RouteName, ConnectdataUrl, FileKind, Routable, CamFile, CamUrls;
    CamUrlsExact(CAMERAS, blobs, dongle, ts, seg);
    var urls := CamUrls(CAMERAS, blobs, dongle, ts, seg);
    forall t | t in urls ensures Live(blobs, (RouteName(dongle, ts), seg), t, urls[t]) {
      CamFileKind(t);
      NamedIsRoutable(dongle, ts, seg, file, t, CamFile(t));
      assert LinksTo(blobs, (RouteName(dongle, ts), seg), t, urls[t], dongle, ts, CamFile(t));
    }
  }

  lemma MergedIsLive(blobs: set<string>, k: (string, int), a: map<FileType, string>, b: map<FileType, string>)
    requires RowLive(blobs, k, a) && RowLive(blobs, k, b)
    ensures RowLive(blobs, k, a + b)
  {
    hide Live;
  }

  lemma IngestKeepsLive(db: Db, dongle: string, ts: string, seg: int, file: string, body: Body)
    requires AllLive(db) && Routable(dongle, ts, seg, file)
    ensures AllLive(Ingested(db, dongle, ts, seg, file, body).0)
  {
    hide BlobKey, RouteName, ConnectdataUrl, FileKind, Routable, CamUrls, OwnUrl, RowLive, Has, Aggregated;
    var db' := Ingested(db, dongle, ts, seg, file, body).0;
    var k := (RouteName(dongle, ts), seg);
    var key := BlobKey(dongle, ts, seg, file);
    if key !in db.blobs {
      var blobs := db.blobs[key := body.size].Keys;
      var was := RowAt(db.segments, k).urls;
      OldRowIsLive(db, blobs, k);
      OwnIsLive(blobs, dongle, ts, seg, file);
      CamsAreLive(blobs, dongle, ts, seg, file);
      MergedIsLive(blobs, k, was, OwnUrl(dongle, ts, seg, file));
      MergedIsLive(blobs, k, was + OwnUrl(dongle, ts, seg, file), CamUrls(CAMERAS, blobs, dongle, ts, seg));
      assert seg >= 0 by { RoutableIsNat(dongle, ts, seg, file); }
      forall j | j in db'.segments ensures j.1 >= 0 && RowLive(db'.blobs.Keys, j, db'.segments[j].urls) {
        if j in db.segments {
          MoreBlobs(db.blobs.Keys, blobs, j, db.segments[j].urls);
        }
      }
    }
  }

  lemma OldRowIsLive(db: Db, blobs: set<string>, k: (string, int))
    requires AllLive(db) && db.blobs.Keys <= blobs
    ensures RowLive(blobs, k, RowAt(db.segments, k).urls)
  {
    hide Live;
    if k in db.segments {
      MoreBlobs(db.blobs.Keys, blobs, k, db.segments[k].urls);
    }
  }

  lemma RoutableIsNat(dongle: string, ts: string, seg: int, file: string)
    requires Routable(dongle, ts, seg, file)
    ensures seg >= 0
  {
  }

  // ---- deletion --------------------------------------------------------------------------------------

  /** A link that survives the deletion is to a blob that does. */
  lemma SurvivorIsLive(db: Db, dongle: string, ts: string, types: set<FileType>, k: (string, int), t: FileType)
    requires AllLive(db) && '_' !in dongle && k in db.segments
    requires t in Purged(db, dongle, ts, Numbers(db.segments, RouteName(dongle, ts)), types).segments[k].urls
    ensures Live(db.blobs.Keys - DeletedKeys(Numbers(db.segments, RouteName(dongle, ts)), dongle, ts, types),
                 k, t, db.segments[k].urls[t])
  {
    hide BlobKey, RouteName, ConnectdataUrl, FileKind, Routable, TypeFiles;
    var segs := Numbers(db.segments, RouteName(dongle, ts));
    var left := db.blobs.Keys - DeletedKeys(segs, dongle, ts, types);
    var d, s, file :| LinksTo(db.blobs.Keys, k, t, db.segments[k].urls[t], d, s, file);
    var key := BlobKey(d, s, k.1, file);
    if key in DeletedKeys(segs, dongle, ts, types) {
      var seg :| seg in segs && key in SegmentKeys(dongle, ts, seg, types);
      assert exists j :: j in db.segments && j.1 == seg;
      var u :| u in types && key in NamedKeys(dongle, ts, seg, TypeFiles(u));
      var i :| 0 <= i < |TypeFiles(u)| && key == BlobKey(dongle, ts, seg, TypeFiles(u)[i]);
      SameFile(d, s, k.1, file, dongle, ts, seg, u, TypeFiles(u)[i]);
      assert false;
    }
    assert LinksTo(left, k, t, db.segments[k].urls[t], d, s, file);
  }

  lemma SameFile(d: string, s: string, n: int, file: string, dongle: string, ts: string, seg: int, u: FileType,
                 name: string)
    requires Routable(d, s, n, file) && '_' !in dongle && seg >= 0 && name in TypeFiles(u)
    requires BlobKey(d, s, n, file) == BlobKey(dongle, ts, seg, name)
    ensures d == dongle && s == ts && n == seg && FileKind(file) == Some(u)
  {
    hide BlobKey, FileKind;
    NamedIsTail(u, name);
    TypeFilesHaveKind(u);
    BlobKeyInjective(d, s, n, file, dongle, ts, seg, name);
  }

  lemma DeleteKeepsLive(db: Db, dongle: string, ts: string, types: set<FileType>)
    requires AllLive(db) && '_' !in dongle
    ensures AllLive(Deleted(db, dongle, ts, types))
  {
    hide Live, DeletedKeys, Aggregated, RouteName;
    var db' := Deleted(db, dongle, ts, types);
    forall k, t | k in db'.segments && t in db'.segments[k].urls
      ensures Live(db'.blobs.Keys, k, t, db'.segments[k].urls[t])
    {
      SurvivorIsLive(db, dongle, ts, types, k, t);
    }
  }

  // ---- every run ---------------------------------------------------------------------------------------

  ghost predicate AllRoutable(changes: seq<Change>) {
    forall c | c in changes ::
      if c.Put? then Routable(c.dongle, c.ts, c.seg, c.file) else '_' !in c.dongle
  }

  lemma {:induction false} RunsKeepLive(changes: seq<Change>)
    requires AllRoutable(changes)
    ensures AllLive(After(Db(map[], map[], map[]), changes))
    decreases |changes|
  {
    hide Ingested, Deleted, AllLive, Routable;
    if changes == [] {
      EmptyIsLive();
    } else {
      var init, last := changes[..|changes| - 1], changes[|changes| - 1];
      assert last in changes && forall c | c in init :: c in changes;
      RunsKeepLive(init);
      var before := After(Db(map[], map[], map[]), init);
      match last
      case Put(dongle, ts, seg, file, body) => IngestKeepsLive(before, dongle, ts, seg, file, body);
      case Remove(dongle, ts, types) => DeleteKeepsLive(before, dongle, ts, types);
    }
  }

  lemma EmptyIsLive()
    ensures AllLive(Db(map[], map[], map[]))
  {
  }

  /** Whatever is ingested and deleted, one after the other, every URL in the table serves a stored blob. */
  lemma NoLinkDangles(changes: seq<Change>, k: (string, int), t: FileType)
    requires AllRoutable(changes)
    requires var db := After(Db(map[], map[], map[]), changes); k in db.segments && t in db.segments[k].urls
    ensures var db := After(Db(map[], map[], map[]), changes);
            ServedKey(db.segments[k].urls[t]).Some? && ServedKey(db.segments[k].urls[t]).value in db.blobs
  {
    hide After, BlobKey, RouteName, FileKind, DownloadUrl, ServedKey;
    RunsKeepLive(changes);
    var db := After(Db(map[], map[], map[]), changes);
    var url := db.segments[k].urls[t];
    var dongle, ts, file :| LinksTo(db.blobs.Keys, k, t, url, dongle, ts, file);
    var kind := if IsCamera(t) then Token(t)[..1] + "cam" else Token(t);
    UrlServesIff(kind, dongle, ts, k.1, file);
  }

  // ---- and names that cannot be read back ------------------------------------------------------------

  const CLASHING: string := "2--qcamera.ts"

  /** The file `2--qcamera.ts` of segment 1 of a route has the key of a camera file of another route. */
  lemma ClashingKey(dongle: string)
    ensures BlobKey(dongle, "a", 1, CLASHING) == BlobKey(dongle, "a--1", 2, CamFile(Qcamera))
  {
    assert Show(1) == "1" && Show(2) == "2";
    var head := dongle + "_" + "a";
    assert head + "--" + "1" + "--" + "2--qcamera.ts" == head + "--1" + "--" + "2" + "--" + "qcamera.ts";
    assert dongle + "_" + "a--1" == head + "--1";
  }

  lemma ClashingKind()
    ensures FileKind(CLASHING) == Some(Qcamera) && !Has(CLASHING, Qlog)
  {
    assert CLASHING[3..3 + |"qcamera"|] == "qcamera";
    assert OccursAt(CLASHING, "qcamera", 3);
    forall i: nat ensures !OccursAt(CLASHING, "qlog", i) {
      if i + 4 <= |CLASHING| {
        assert CLASHING[i..i + 4][1] == CLASHING[i + 1];
      }
    }
  }

  lemma OneFile(db: Db, dongle: string, ts: string, seg: int, file: string, body: Body)
    requires !Has(file, Qlog) && FileKind(file).Some? && BlobKey(dongle, ts, seg, file) !in db.blobs
    ensures var db' := Ingested(db, dongle, ts, seg, file, body).0;
            var k := (RouteName(dongle, ts), seg);
            && db'.blobs == db.blobs[BlobKey(dongle, ts, seg, file) := body.size]
            && db'.segments == db.segments[k := RowAt(db.segments, k).(urls :=
                 RowAt(db.segments, k).urls + OwnUrl(dongle, ts, seg, file))]
  {
    hide BlobKey, RouteName, ConnectdataUrl, FileKind, Has, Aggregated;
  }

  /** Purging the camera of a segment takes its key, and leaves the rows of other routes alone. */
  lemma PurgeTakes(db: Db, dongle: string, ts: string, seg: int, k: (string, int))
    requires (RouteName(dongle, ts), seg) in db.segments && k in db.segments && k.0 != RouteName(dongle, ts)
    ensures var db' := Deleted(db, dongle, ts, {Qcamera});
            && k in db'.segments && db'.segments[k] == db.segments[k]
            && BlobKey(dongle, ts, seg, CamFile(Qcamera)) !in db'.blobs
  {
    hide BlobKey, RouteName, Aggregated, CamFile;
    var segs := Numbers(db.segments, RouteName(dongle, ts));
    assert (RouteName(dongle, ts), seg).1 in segs;
    var names := TypeFiles(Qcamera);
    assert names[0] == CamFile(Qcamera);
    assert BlobKey(dongle, ts, seg, CamFile(Qcamera)) in NamedKeys(dongle, ts, seg, names);
    assert BlobKey(dongle, ts, seg, CamFile(Qcamera)) in SegmentKeys(dongle, ts, seg, {Qcamera});
  }

  lemma OtherFile(dongle: string)
    ensures BlobKey(dongle, "a", 1, CLASHING) != BlobKey(dongle, "a--1", 2, "rlog.zst")
    ensures RouteName(dongle, "a") != RouteName(dongle, "a--1")
  {
    var x, y := BlobKey(dongle, "a", 1, CLASHING), BlobKey(dongle, "a--1", 2, "rlog.zst");
    assert x[|x| - 1] == CLASHING[|CLASHING| - 1] && y[|y| - 1] == "rlog.zst"[7];
    assert |RouteName(dongle, "a")| != |RouteName(dongle, "a--1")|;
  }

  lemma AfterOne(db: Db, changes: seq<Change>, c: Change)
    ensures After(db, []) == db
    ensures After(db, changes + [c]) == Make(After(db, changes), c)
  {
    hide Make;
    assert (changes + [c])[..|changes|] == changes;
  }

  /** The two routes after their uploads. */
  function TwoRoutes(dongle: string, body: Body): Db {
    var db := Ingested(Db(map[], map[], map[]), dongle, "a", 1, CLASHING, body).0;
    Ingested(db, dongle, "a--1", 2, "rlog.zst", body).0
  }

  lemma TwoRoutesRows(dongle: string, body: Body)
    ensures var db, k := TwoRoutes(dongle, body), (RouteName(dongle, "a"), 1);
            && (RouteName(dongle, "a--1"), 2) in db.segments && k in db.segments
            && Qcamera in db.segments[k].urls
            && db.segments[k].urls[Qcamera] == ConnectdataUrl(Qcamera, dongle, "a", 1, CLASHING)
  {
    hide BlobKey, RouteName, FileKind, Has, Ingested, ConnectdataUrl, OccursAt;
    ClashingKind();
    OtherFile(dongle);
    LogKind(Rlog, "rlog.zst");
    LogTokens(Rlog, "rlog.zst", Qlog);
    var empty := Db(map[], map[], map[]);
    OneFile(empty, dongle, "a", 1, CLASHING, body);
    OneFile(Ingested(empty, dongle, "a", 1, CLASHING, body).0, dongle, "a--1", 2, "rlog.zst", body);
  }

  /** Deleting the camera of the one route leaves the other one's link dangling. */
  lemma LinkCanDangle(dongle: string, body: Body) returns (changes: seq<Change>, k: (string, int))
    requires Component(dongle)
    ensures var db := After(Db(map[], map[], map[]), changes);
            && k in db.segments && Qcamera in db.segments[k].urls
            && ServedKey(db.segments[k].urls[Qcamera]).Some?
            && ServedKey(db.segments[k].urls[Qcamera]).value !in db.blobs
  {
    hide BlobKey, RouteName, Ingested, Deleted, DownloadUrl, ServedKey, CamFile, After, OccursAt;
    var empty := Db(map[], map[], map[]);
    var a, b, c := Put(dongle, "a", 1, CLASHING, body), Put(dongle, "a--1", 2, "rlog.zst", body),
                   Remove(dongle, "a--1", {Qcamera});
    changes := [a, b, c];
    k := (RouteName(dongle, "a"), 1);
    assert [] + [a] == [a] && [a] + [b] == [a, b] && [a, b] + [c] == changes;
    AfterOne(empty, [], a);
    AfterOne(empty, [a], b);
    AfterOne(empty, [a, b], c);
    TwoRoutesRows(dongle, body);
    OtherFile(dongle);
    PurgeTakes(TwoRoutes(dongle, body), dongle, "a--1", 2, k);
    ClashingKey(dongle);
    assert Component(CLASHING) && Component("a") && Token(Qcamera)[..1] + "cam" == "qcam";
    UrlServesIff("qcam", dongle, "a", 1, CLASHING);
  }
}
