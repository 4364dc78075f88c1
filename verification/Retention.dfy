/** Retention: age cutoff, per-device cap, and a storage cap, over the tables and files of a server. */
module Retention {
  import opened Wrappers
  import opened Text
  import opened Decimal
  import opened Names
  import opened Folds
  import opened Storage

  // ---- the tables and files -----------------------------------------------------------

  datatype RouteInfo = RouteInfo(device: string, start: int, created: int)

  type Routes = map<string, RouteInfo>

  datatype Store = Store(
    routes: Routes,                    // by fullname
    segments: set<(string, int)>,      // (route, number)
    blobs: map<string, nat>,           // sizes by key
    caches: map<string, nat>,          // the transcode directory, sizes by file name
    movies: set<(string, string)>,     // (fullname, camera) rows
    subs: set<string>)                 // fullname rows

  const SEGMENT_FILES: seq<string> := [
    "qcamera.ts", "fcamera.hevc", "dcamera.hevc", "ecamera.hevc",
    "qlog.bz2", "qlog.zst", "rlog.bz2", "rlog.zst",
    "coords.json", "events.json", "telemetry.json", "model.json", "sprite.jpg"]
  const CACHED_CAMS: seq<string> := ["fcamera", "dcamera", "ecamera"]
  const MOVIE_CAMS: seq<string> := ["qcamera", "fcamera", "dcamera", "ecamera"]

  function CacheName(dongle: string, ts: string, seg: int, cam: string): string {
    Key(dongle, ts, Show(seg), cam + ".ts")
  }

  function SegmentNumbers(segments: set<(string, int)>, route: string): set<int> {
    set k | k in segments && k.0 == route :: k.1
  }

  function SegmentBlobs(dongle: string, ts: string, segs: set<int>): set<string> {
    set n, f | n in segs && f in SEGMENT_FILES :: BlobKey(dongle, ts, n, f)
  }

  ghost function FirstBlobs(dongle: string, ts: string, n: int, i: nat): set<string>
    requires i <= |SEGMENT_FILES|
  {
    set j | 0 <= j < i :: BlobKey(dongle, ts, n, SEGMENT_FILES[j])
  }

  ghost function FirstCaches(dongle: string, ts: string, n: int, i: nat): set<string>
    requires i <= |CACHED_CAMS|
  {
    set j | 0 <= j < i :: CacheName(dongle, ts, n, CACHED_CAMS[j])
  }

  lemma FirstFiles(dongle: string, ts: string, n: int, i: nat)
    ensures i < |SEGMENT_FILES| ==>
              FirstBlobs(dongle, ts, n, i + 1) ==
              FirstBlobs(dongle, ts, n, i) + {BlobKey(dongle, ts, n, SEGMENT_FILES[i])}
    ensures i < |CACHED_CAMS| ==>
              FirstCaches(dongle, ts, n, i + 1) ==
              FirstCaches(dongle, ts, n, i) + {CacheName(dongle, ts, n, CACHED_CAMS[i])}
  {
    hide BlobKey, CacheName;
  }

  lemma OneSegment(dongle: string, ts: string, n: int)
    ensures FirstBlobs(dongle, ts, n, 0) == {} && FirstCaches(dongle, ts, n, 0) == {}
    ensures FirstBlobs(dongle, ts, n, |SEGMENT_FILES|) == SegmentBlobs(dongle, ts, {n})
    ensures FirstCaches(dongle, ts, n, |CACHED_CAMS|) == CacheFiles(dongle, ts, {n})
  {
  }

  function RouteBlobs(dongle: string, ts: string): set<string> {
    (set cam | cam in MOVIE_CAMS :: MovieKey(dongle, ts, cam)) + {SubsKey(dongle, ts)}
  }

  function CacheFiles(dongle: string, ts: string, segs: set<int>): set<string> {
    set n, cam | n in segs && cam in CACHED_CAMS :: CacheName(dongle, ts, n, cam)
  }

  /** `delete_route`; files in `stuck` cannot be unlinked, which the server ignores. */
  function DeletedRoute(s: Store, fullname: string, stuck: set<string>): Store {
    match SplitOnce(fullname, "|")
    case None => s
    case Some((dongle, ts)) =>
      var segs := SegmentNumbers(s.segments, fullname);
      Store(s.routes - {fullname},
            (set k | k in s.segments && k.0 != fullname),
            s.blobs - (SegmentBlobs(dongle, ts, segs) + RouteBlobs(dongle, ts) - stuck),
            s.caches - (CacheFiles(dongle, ts, segs) - stuck),
            (set m | m in s.movies && !(m.0 == fullname && m.1 in MOVIE_CAMS)),
            s.subs - {fullname})
  }

  ghost function Bytes(s: Store): nat { Total(s.blobs) + Total(s.caches) }

  /** Every name in the table is `{dongle}|{ts}`-shaped, and movie rows are of known cameras. */
  predicate Named(s: Store) {
    && (forall n | n in s.routes :: SplitOnce(n, "|").Some?)
    && (forall m | m in s.movies :: SplitOnce(m.0, "|").Some? && m.1 in MOVIE_CAMS)
  }

  // ---- delete_route is exact ---------------------------------------------------------------

  /** A key of a route: any segment file, movie or transcript of it, and any other such name. */
  predicate KeyOfRoute(key: string, dongle: string, ts: string, mid: string, file: string) {
    key == Key(dongle, ts, mid, file) && '_' !in dongle && DashTail(mid) && DashTail(file)
  }

  lemma LiteralIsDashTail(s: string)
    requires s != "" && forall i | 0 <= i < |s| - 1 :: s[i] != '-'
    requires s[0] != '-'
    ensures DashTail(s)
  {
    forall i: nat ensures !OccursAt(s, "--", i) {
      DashOccurs(s, i);
    }
  }

  lemma SegmentFileTails(f: string)
    requires f in SEGMENT_FILES
    ensures DashTail(f)
  {
    LiteralIsDashTail(f);
  }

  lemma CamTails(cam: string)
    requires cam in MOVIE_CAMS
    ensures DashTail(cam + ".mp4") && DashTail(cam + ".ts")
  {
    LiteralIsDashTail(cam + ".mp4");
    LiteralIsDashTail(cam + ".ts");
  }

  lemma MidTails()
    ensures DashTail("movie") && DashTail("subs") && DashTail("en.vtt") && DashTail("audio.ts")
  {
    LiteralIsDashTail("movie");
    LiteralIsDashTail("subs");
    LiteralIsDashTail("en.vtt");
    LiteralIsDashTail("audio.ts");
  }

  lemma SegmentBlobIsOfRoute(dongle: string, ts: string, n: nat, f: string)
    requires '_' !in dongle && f in SEGMENT_FILES
    ensures KeyOfRoute(BlobKey(dongle, ts, n, f), dongle, ts, Show(n), f)
  {
    hide Key, DashTail;
    DigitsAreDashTail(n);
    SegmentFileTails(f);
  }

  lemma CacheFileIsOfRoute(dongle: string, ts: string, n: nat, cam: string)
    requires '_' !in dongle && cam in CACHED_CAMS
    ensures KeyOfRoute(CacheName(dongle, ts, n, cam), dongle, ts, Show(n), cam + ".ts")
  {
    hide Key, DashTail;
    DigitsAreDashTail(n);
    CamTails(cam);
  }

  lemma RouteBlobIsOfRoute(dongle: string, ts: string, key: string)
    requires '_' !in dongle && key in RouteBlobs(dongle, ts)
    ensures exists mid, file :: KeyOfRoute(key, dongle, ts, mid, file)
  {
    hide Key, DashTail, MovieKey, SubsKey;
    MidTails();
    if key == SubsKey(dongle, ts) {
      RouteKeysAreKeys(dongle, ts, "");
      assert KeyOfRoute(key, dongle, ts, "subs", "en.vtt");
    } else {
      var cam :| cam in MOVIE_CAMS && key == MovieKey(dongle, ts, cam);
      RouteKeysAreKeys(dongle, ts, cam);
      CamTails(cam);
      assert KeyOfRoute(key, dongle, ts, "movie", cam + ".mp4");
    }
  }

  /** Everything `delete_route` unlinks is a key of that route. */
  lemma UnlinkedKeysAreOfRoute(dongle: string, ts: string, segs: set<int>, key: string)
    requires '_' !in dongle && forall n | n in segs :: n >= 0
    requires key in SegmentBlobs(dongle, ts, segs) + RouteBlobs(dongle, ts) + CacheFiles(dongle, ts, segs)
    ensures exists mid, file :: KeyOfRoute(key, dongle, ts, mid, file)
  {
    hide KeyOfRoute, BlobKey, CacheName, RouteBlobs;
    if key in RouteBlobs(dongle, ts) {
      RouteBlobIsOfRoute(dongle, ts, key);
    } else if key in SegmentBlobs(dongle, ts, segs) {
      var n, f :| n in segs && f in SEGMENT_FILES && key == BlobKey(dongle, ts, n, f);
      SegmentBlobIsOfRoute(dongle, ts, n, f);
    } else {
      var n, cam :| n in segs && cam in CACHED_CAMS && key == CacheName(dongle, ts, n, cam);
      CacheFileIsOfRoute(dongle, ts, n, cam);
    }
  }

  /** Files and rows of every other route stay as they are. */
  lemma OtherRoutesUntouched(s: Store, dongle: string, ts: string, stuck: set<string>,
                             other: string, otherTs: string, mid: string, file: string)
    requires '_' !in dongle && '|' !in dongle && (dongle, ts) != (other, otherTs) && '|' !in other
    requires forall k | k in s.segments && k.0 == RouteName(dongle, ts) :: k.1 >= 0
    requires KeyOfRoute(Key(other, otherTs, mid, file), other, otherTs, mid, file)
    ensures var after := DeletedRoute(s, RouteName(dongle, ts), stuck);
            var key, route := Key(other, otherTs, mid, file), RouteName(other, otherTs);
            && (key in after.blobs <==> key in s.blobs) && (key in s.blobs ==> after.blobs[key] == s.blobs[key])
            && (key in after.caches <==> key in s.caches) && (key in s.caches ==> after.caches[key] == s.caches[key])
            && (route in after.routes <==> route in s.routes)
            && (route in s.routes ==> after.routes[route] == s.routes[route])
            && (forall n :: (route, n) in after.segments <==> (route, n) in s.segments)
            && (forall cam :: (route, cam) in after.movies <==> (route, cam) in s.movies)
            && (route in after.subs <==> route in s.subs)
  {
    hide Key, DashTail, SegmentBlobs, RouteBlobs, CacheFiles, RouteName;
    var fullname, key := RouteName(dongle, ts), Key(other, otherTs, mid, file);
    var segs := SegmentNumbers(s.segments, fullname);
    RouteNameSplits(dongle, ts);
    RouteNameSplits(other, otherTs);
    assert forall n | n in segs :: n >= 0;
    if key in SegmentBlobs(dongle, ts, segs) + RouteBlobs(dongle, ts) + CacheFiles(dongle, ts, segs) {
      UnlinkedKeysAreOfRoute(dongle, ts, segs, key);
      var m, f :| KeyOfRoute(key, dongle, ts, m, f);
      KeyInjective(dongle, ts, m, f, other, otherTs, mid, file);
    }
  }

  /** Of the route itself nothing listed is left, apart from files that could not be unlinked. */
  lemma RouteIsGone(s: Store, dongle: string, ts: string, stuck: set<string>)
    requires '|' !in dongle
    ensures var route := RouteName(dongle, ts);
            var after := DeletedRoute(s, route, stuck);
            && route !in after.routes && route !in after.subs
            && (forall n :: (route, n) !in after.segments)
            && (forall cam | cam in MOVIE_CAMS ::
                  (route, cam) !in after.movies
                  && (MovieKey(dongle, ts, cam) in after.blobs ==> MovieKey(dongle, ts, cam) in stuck))
            && (SubsKey(dongle, ts) in after.blobs ==> SubsKey(dongle, ts) in stuck)
            && (forall n, f | (route, n) in s.segments && f in SEGMENT_FILES ::
                  BlobKey(dongle, ts, n, f) in after.blobs ==> BlobKey(dongle, ts, n, f) in stuck)
            && (forall n, cam | (route, n) in s.segments && cam in CACHED_CAMS ::
                  CacheName(dongle, ts, n, cam) in after.caches ==> CacheName(dongle, ts, n, cam) in stuck)
  {
    hide Key, MovieKey, SubsKey, RouteName, BlobKey, CacheName;
    var route := RouteName(dongle, ts);
    var segs := SegmentNumbers(s.segments, route);
    RouteNameSplits(dongle, ts);
    forall n | (route, n) in s.segments ensures n in segs {
      assert (route, n).1 in segs;
    }
  }

  /** The extracted-audio cache of a segment is not among the files removed. */
  lemma AudioCacheStays(s: Store, dongle: string, ts: string, n: nat, stuck: set<string>)
    requires '_' !in dongle && '|' !in dongle
    requires forall k | k in s.segments && k.0 == RouteName(dongle, ts) :: k.1 >= 0
    requires CacheName(dongle, ts, n, "audio") in s.caches
    ensures CacheName(dongle, ts, n, "audio") in DeletedRoute(s, RouteName(dongle, ts), stuck).caches
  {
    hide Key, DashTail, RouteName, SegmentBlobs, RouteBlobs;
    var segs := SegmentNumbers(s.segments, RouteName(dongle, ts));
    RouteNameSplits(dongle, ts);
    MidTails();
    DigitsAreDashTail(n);
    assert "audio" + ".ts" == "audio.ts";
    forall k, cam | k in segs && cam in CACHED_CAMS
      ensures CacheName(dongle, ts, n, "audio") != CacheName(dongle, ts, k, cam)
    {
      DigitsAreDashTail(k);
      CamTails(cam);
      assert cam + ".ts" != "audio.ts" by { assert (cam + ".ts")[0] != 'a'; }
      if CacheName(dongle, ts, n, "audio") == CacheName(dongle, ts, k, cam) {
        KeyInjective(dongle, ts, Show(n), "audio.ts", dongle, ts, Show(k), cam + ".ts");
      }
    }
  }

  // ---- the pass ------------------------------------------------------------------------

  /** Limits; zero or none means unlimited. The storage cap is in bytes. */
  datatype Policy = Policy(days: int, maxDrives: int, cap: Option<nat>)

  /** Past the age cutoff: by start time, or by creation for a route without a fix. */
  predicate Aged(r: RouteInfo, cutoff: int) {
    (r.start > 0 && r.start < cutoff) || (r.start == 0 && r.created < cutoff)
  }

  /** The retention order: by start, then by creation. */
  predicate Older(a: RouteInfo, b: RouteInfo) {
    a.start < b.start || (a.start == b.start && a.created < b.created)
  }

  function OfDevice(routes: Routes, device: string): set<string> {
    set n | n in routes && routes[n].device == device
  }

  /** No name of the set is older. */
  predicate Oldest(routes: Routes, names: set<string>, n: string) {
    names <= routes.Keys && n in names && forall m | m in names :: !Older(routes[m], routes[n])
  }

  lemma {:induction false} OldestExists(routes: Routes, names: set<string>, a: string)
    requires names <= routes.Keys && a in names
    ensures exists n :: Oldest(routes, names, n)
    decreases |names|
  {
    if b :| b in names && Older(routes[b], routes[a]) {
      OldestExists(routes, names - {a}, b);
      var n :| Oldest(routes, names - {a}, n);
      assert forall m | m in names :: m == a || m in names - {a};
      assert Oldest(routes, names, n);
    } else {
      assert Oldest(routes, names, a);
    }
  }

  predicate Newest(routes: Routes, names: set<string>, n: string) {
    names <= routes.Keys && n in names && forall m | m in names :: !Older(routes[n], routes[m])
  }

  lemma {:induction false} NewestExists(routes: Routes, names: set<string>, a: string)
    requires names <= routes.Keys && a in names
    ensures exists n :: Newest(routes, names, n)
    decreases |names|
  {
    if b :| b in names && Older(routes[a], routes[b]) {
      NewestExists(routes, names - {a}, b);
      var n :| Newest(routes, names - {a}, n);
      assert forall m | m in names :: m == a || m in names - {a};
      assert Newest(routes, names, n);
    } else {
      assert Newest(routes, names, a);
    }
  }

  /** What the count query may answer for one device: all but max of the newest, ties broken anyhow. */
  predicate Surplus(routes: Routes, device: string, max: nat, over: set<string>) {
    var all := OfDevice(routes, device);
    && over <= all && |all - over| == (if |all| <= max then |all| else max)
    && (forall k, o | k in all - over && o in over :: !Older(routes[k], routes[o]))
  }

  /** The kept routes are no older than the rest. */
  predicate KeptNewest(routes: Routes, all: set<string>, kept: set<string>, rest: set<string>)
    requires all <= routes.Keys
  {
    kept + rest == all && kept !! rest && forall k, o | k in kept && o in rest :: !Older(routes[k], routes[o])
  }

  lemma KeepOneMore(routes: Routes, all: set<string>, kept: set<string>, rest: set<string>, n: string)
    requires all <= routes.Keys && KeptNewest(routes, all, kept, rest) && Newest(routes, rest, n)
    ensures KeptNewest(routes, all, kept + {n}, rest - {n}) && |kept + {n}| == |kept| + 1
  {
    hide Older;
  }

  lemma KeptIsEnough(routes: Routes, device: string, max: nat, kept: set<string>, rest: set<string>)
    requires KeptNewest(routes, OfDevice(routes, device), kept, rest)
    requires |kept| <= max && (|kept| == max || rest == {})
    ensures Surplus(routes, device, max, rest)
  {
  }

  /** `SELECT .. ORDER BY start DESC, created DESC LIMIT -1 OFFSET max`. */
  method SurplusRoutes(routes: Routes, device: string, max: nat) returns (over: set<string>)
    ensures Surplus(routes, device, max, over)
  {
    hide Older, Surplus, KeptNewest;
    over := OfDevice(routes, device);
    var kept: set<string> := {};
    KeptNone(routes, over);
    while |kept| < max && over != {}
      invariant over <= OfDevice(routes, device) && |kept| <= max
      invariant KeptNewest(routes, OfDevice(routes, device), kept, over)
    {
      ghost var a :| a in over;
      NewestExists(routes, over, a);
      var n :| Newest(routes, over, n);
      KeepOneMore(routes, OfDevice(routes, device), kept, over, n);
      over, kept := over - {n}, kept + {n};
    }
    KeptIsEnough(routes, device, max, kept, over);
  }

  lemma KeptNone(routes: Routes, all: set<string>)
    requires all <= routes.Keys
    ensures KeptNewest(routes, all, {}, all)
  {
  }

  // ---- what a pass does -----------------------------------------------------------------

  function UnlinkedBlobs(s: Store, fullname: string): set<string> {
    match SplitOnce(fullname, "|")
    case None => {}
    case Some((dongle, ts)) =>
      SegmentBlobs(dongle, ts, SegmentNumbers(s.segments, fullname)) + RouteBlobs(dongle, ts)
  }

  function UnlinkedCaches(s: Store, fullname: string): set<string> {
    match SplitOnce(fullname, "|")
    case None => {}
    case Some((dongle, ts)) => CacheFiles(dongle, ts, SegmentNumbers(s.segments, fullname))
  }

  /** A set of routes deleted, whatever the order. */
  function DeletedSet(s: Store, names: set<string>, stuck: set<string>): Store {
    Store(s.routes - names,
          (set k | k in s.segments && k.0 !in names),
          s.blobs - ((set n, key | n in names && key in UnlinkedBlobs(s, n) :: key) - stuck),
          s.caches - ((set n, key | n in names && key in UnlinkedCaches(s, n) :: key) - stuck),
          (set m | m in s.movies && !(m.0 in names && m.1 in MOVIE_CAMS)),
          s.subs - names)
  }

  lemma DeleteOneMore(s: Store, names: set<string>, n: string, stuck: set<string>)
    requires n !in names && SplitOnce(n, "|").Some?
    ensures DeletedRoute(DeletedSet(s, names, stuck), n, stuck) == DeletedSet(s, names + {n}, stuck)
  {
    hide SegmentBlobs, RouteBlobs, CacheFiles, SplitOnce;
    var part := DeletedSet(s, names, stuck);
    assert SegmentNumbers(part.segments, n) == SegmentNumbers(s.segments, n);
    var gone := set m, key | m in names && key in UnlinkedBlobs(s, m) :: key;
    var gone' := set m, key | m in names && key in UnlinkedCaches(s, m) :: key;
    assert (set m, key | m in names + {n} && key in UnlinkedBlobs(s, m) :: key) == gone + UnlinkedBlobs(s, n);
    assert (set m, key | m in names + {n} && key in UnlinkedCaches(s, m) :: key) == gone' + UnlinkedCaches(s, n);
  }

  /** Routes deleted one after the other. */
  function DeletedAll(s: Store, names: seq<string>, stuck: set<string>): Store
    decreases |names|
  {
    if names == [] then s else DeletedAll(DeletedRoute(s, names[0], stuck), names[1..], stuck)
  }

  /** Movie rows whose route is gone. */
  function Orphans(s: Store): set<(string, string)> {
    set m | m in s.movies && m.0 !in s.routes
  }

  function OrphanKey(m: (string, string)): string
    requires SplitOnce(m.0, "|").Some?
  {
    var (dongle, ts) := SplitOnce(m.0, "|").value;
    MovieKey(dongle, ts, m.1)
  }

  function OrphanKeys(orphans: set<(string, string)>): set<string> {
    set m | m in orphans && SplitOnce(m.0, "|").Some? :: OrphanKey(m)
  }

  function Reclaimed(s: Store, stuck: set<string>): Store {
    s.(blobs := s.blobs - (OrphanKeys(Orphans(s)) - stuck), movies := s.movies - Orphans(s))
  }

  /** The size phase: each deletion takes a then oldest route while the storage is over the cap. */
  ghost predicate SizeTrace(s: Store, names: seq<string>, cap: nat, stuck: set<string>)
    decreases |names|
  {
    names != [] ==>
      && Bytes(s) > cap && Oldest(s.routes, s.routes.Keys, names[0])
      && SizeTrace(DeletedRoute(s, names[0], stuck), names[1..], cap, stuck)
  }

  lemma {:induction false} SizeTraceSnoc(s: Store, names: seq<string>, n: string, cap: nat, stuck: set<string>)
    requires SizeTrace(s, names, cap, stuck)
    requires var t := DeletedAll(s, names, stuck); Bytes(t) > cap && Oldest(t.routes, t.routes.Keys, n)
    ensures SizeTrace(s, names + [n], cap, stuck)
    ensures DeletedAll(s, names + [n], stuck) == DeletedRoute(DeletedAll(s, names, stuck), n, stuck)
    decreases |names|
  {
    hide DeletedRoute, Bytes, Oldest;
    if names == [] {
      assert [n][1..] == [];
      assert names + [n] == [n];
    } else {
      assert (names + [n])[1..] == names[1..] + [n];
      SizeTraceSnoc(DeletedRoute(s, names[0], stuck), names[1..], n, cap, stuck);
    }
  }

  /** The first phase's choice: everything aged, and each known device's surplus. */
  datatype Choice = Choice(aged: set<string>, over: map<string, set<string>>) {
    function All(): set<string> {
      aged + set d, n | d in over && n in over[d] :: n
    }
  }

  function AgedRoutes(routes: Routes, policy: Policy, now: int): set<string> {
    if policy.days > 0 then set n | n in routes && Aged(routes[n], now - policy.days * 86_400_000) else {}
  }

  predicate Chosen(routes: Routes, devices: set<string>, policy: Policy, now: int, c: Choice) {
    && c.aged == AgedRoutes(routes, policy, now)
    && c.over.Keys == (if policy.maxDrives > 0 then devices else {})
    && forall d | d in c.over :: policy.maxDrives > 0 && Surplus(routes, d, policy.maxDrives, c.over[d])
  }

  /** The server's tables and directories, and the files it cannot unlink. */
  class Server {
    const devices: set<string>
    var routes: Routes
    var segments: set<(string, int)>
    var blobs: map<string, nat>
    var caches: map<string, nat>
    var movies: set<(string, string)>
    var subs: set<string>
    const stuck: set<string>

    /** The current rows and files as a value. */
    function Abstract(): Store
      reads this
    {
      Store(routes, segments, blobs, caches, movies, subs)
    }

    constructor (s: Store, devices: set<string>, stuck: set<string>)
      ensures Abstract() == s && this.devices == devices && this.stuck == stuck
    {
      this.devices := devices;
      routes, segments, blobs, caches, movies, subs := s.routes, s.segments, s.blobs, s.caches, s.movies, s.subs;
      this.stuck := stuck;
    }

    method Unlink(key: string)
      modifies this`blobs
      ensures blobs == old(blobs) - ({key} - stuck)
    {
      if key !in stuck {
        blobs := blobs - {key};
      }
    }

    method UnlinkSegment(dongle: string, ts: string, n: int)
      modifies this`blobs, this`caches
      ensures blobs == old(blobs) - (SegmentBlobs(dongle, ts, {n}) - stuck)
      ensures caches == old(caches) - (CacheFiles(dongle, ts, {n}) - stuck)
    {
      hide SegmentBlobs, CacheFiles, FirstBlobs, FirstCaches, BlobKey, CacheName;
      OneSegment(dongle, ts, n);
      for i := 0 to |SEGMENT_FILES|
        invariant caches == old(caches)
        invariant blobs == old(blobs) - (FirstBlobs(dongle, ts, n, i) - stuck)
      {
        FirstFiles(dongle, ts, n, i);
        Unlink(BlobKey(dongle, ts, n, SEGMENT_FILES[i]));
      }
      UnlinkCaches(dongle, ts, n);
    }

    method UnlinkCaches(dongle: string, ts: string, n: int)
      modifies this`caches
      ensures caches == old(caches) - (CacheFiles(dongle, ts, {n}) - stuck)
    {
      hide SegmentBlobs, CacheFiles, FirstBlobs, FirstCaches, BlobKey, CacheName;
      OneSegment(dongle, ts, n);
      for i := 0 to |CACHED_CAMS|
        invariant caches == old(caches) - (FirstCaches(dongle, ts, n, i) - stuck)
      {
        FirstFiles(dongle, ts, n, i);
        var name := CacheName(dongle, ts, n, CACHED_CAMS[i]);
        if name !in stuck {
          caches := caches - {name};
        }
      }
    }

    /** `movie::delete`: the blob, then the row. */
    method DeleteMovie(dongle: string, ts: string, cam: string)
      modifies this`blobs, this`movies
      ensures blobs == old(blobs) - ({MovieKey(dongle, ts, cam)} - stuck)
      ensures movies == old(movies) - {(RouteName(dongle, ts), cam)}
    {
      Unlink(MovieKey(dongle, ts, cam));
      movies := movies - {(RouteName(dongle, ts), cam)};
    }

    method UnlinkRouteBlobs(dongle: string, ts: string)
      modifies this`blobs, this`movies, this`subs
      ensures blobs == old(blobs) - (RouteBlobs(dongle, ts) - stuck)
      ensures movies == set m | m in old(movies) && !(m.0 == RouteName(dongle, ts) && m.1 in MOVIE_CAMS)
      ensures subs == old(subs) - {RouteName(dongle, ts)}
    {
      hide MovieKey, SubsKey, RouteName;
      for i := 0 to |MOVIE_CAMS|
        invariant subs == old(subs)
        invariant blobs == old(blobs) - ((set j | 0 <= j < i :: MovieKey(dongle, ts, MOVIE_CAMS[j])) - stuck)
        invariant movies == set m | m in old(movies) && !(m.0 == RouteName(dongle, ts) && m.1 in MOVIE_CAMS[..i])
      {
        assert MOVIE_CAMS[..i + 1] == MOVIE_CAMS[..i] + [MOVIE_CAMS[i]];
        DeleteMovie(dongle, ts, MOVIE_CAMS[i]);
      }
      assert MOVIE_CAMS[..|MOVIE_CAMS|] == MOVIE_CAMS;
      assert (set cam | cam in MOVIE_CAMS :: MovieKey(dongle, ts, cam))
          == set j | 0 <= j < |MOVIE_CAMS| :: MovieKey(dongle, ts, MOVIE_CAMS[j]);
      Unlink(SubsKey(dongle, ts));
      subs := subs - {RouteName(dongle, ts)};
    }

    /** `delete_route`, artifact by artifact. */
    method DeleteRoute(fullname: string)
      modifies this
      ensures Abstract() == DeletedRoute(old(Abstract()), fullname, stuck)
    {
      hide SegmentBlobs, CacheFiles, RouteBlobs;
      var parts := SplitOnce(fullname, "|");
      if parts == None {
        return;
      }
      var (dongle, ts) := parts.value;
      assert RouteName(dongle, ts) == fullname;
      var segs := SegmentNumbers(segments, fullname);
      var left := segs;
      NoSegments(dongle, ts);
      assert segs - left == {};
      while left != {}
        invariant left <= segs
        invariant Abstract() == old(Abstract()).(blobs := blobs, caches := caches)
        invariant blobs == old(blobs) - (SegmentBlobs(dongle, ts, segs - left) - stuck)
        invariant caches == old(caches) - (CacheFiles(dongle, ts, segs - left) - stuck)
      {
        var n := Least(left);
        MoreSegments(dongle, ts, segs - left, n);
        assert segs - (left - {n}) == (segs - left) + {n};
        UnlinkSegment(dongle, ts, n);
        left := left - {n};
      }
      assert segs - left == segs;
      UnlinkRouteBlobs(dongle, ts);
      segments := set k | k in segments && k.0 != fullname;
      routes := routes - {fullname};
    }

    method DeleteRoutes(names: set<string>)
      requires Named(Abstract()) && names <= routes.Keys
      modifies this
      ensures Abstract() == DeletedSet(old(Abstract()), names, stuck)
    {
      hide DeletedSet, DeletedRoute, SplitOnce;
      NothingDeleted(Abstract(), stuck);
      var left := names;
      assert names - left == {};
      while left != {}
        invariant left <= names && Abstract() == DeletedSet(old(Abstract()), names - left, stuck)
      {
        var n :| n in left;
        DeleteOneMore(old(Abstract()), names - left, n, stuck);
        assert names - (left - {n}) == (names - left) + {n};
        DeleteRoute(n);
        left := left - {n};
      }
      assert names - left == names;
    }

    method ChooseRoutes(policy: Policy, now: int) returns (names: set<string>, c: Choice)
      ensures Chosen(routes, devices, policy, now, c) && names == c.All()
    {
      hide Surplus, Aged;
      names := AgedRoutes(routes, policy, now);
      c := Choice(names, map[]);
      assert c.All() == names;
      if policy.maxDrives > 0 {
        var left := devices;
        while left != {}
          invariant left <= devices && c.aged == AgedRoutes(routes, policy, now) && c.over.Keys == devices - left
          invariant forall d | d in c.over :: Surplus(routes, d, policy.maxDrives, c.over[d])
          invariant names == c.All()
        {
          var d :| d in left;
          var over := SurplusRoutes(routes, d, policy.maxDrives);
          MoreChosen(c, d, over);
          c := c.(over := c.over[d := over]);
          names, left := names + over, left - {d};
        }
      }
    }

    method ReclaimOrphan(m: (string, string))
      requires SplitOnce(m.0, "|").Some?
      modifies this`blobs, this`movies
      ensures movies == old(movies) - {m} && blobs == old(blobs) - ({OrphanKey(m)} - stuck)
    {
      hide MovieKey;
      var (dongle, ts) := SplitOnce(m.0, "|").value;
      assert RouteName(dongle, ts) == m.0;
      DeleteMovie(dongle, ts, m.1);
    }

    method ReclaimOrphans()
      requires Named(Abstract())
      modifies this`blobs, this`movies
      ensures Abstract() == Reclaimed(old(Abstract()), stuck)
    {
      hide OrphanKey, SplitOnce, OrphanKeys;
      var orphans := Orphans(Abstract());
      var left := orphans;
      NoOrphanKeys();
      assert orphans - left == {};
      while left != {}
        invariant left <= orphans && movies == old(movies) - (orphans - left)
        invariant blobs == old(blobs) - (OrphanKeys(orphans - left) - stuck)
      {
        var m :| m in left;
        assert orphans - (left - {m}) == (orphans - left) + {m};
        MoreOrphanKeys(orphans - left, m);
        ReclaimOrphan(m);
        left := left - {m};
      }
      assert orphans - left == orphans;
    }

    /** The storage cap loop. */
    method ShrinkTo(cap: nat) returns (deleted: nat, ghost pruned: seq<string>)
      requires Named(Abstract())
      modifies this
      ensures Abstract() == DeletedAll(old(Abstract()), pruned, stuck)
      ensures SizeTrace(old(Abstract()), pruned, cap, stuck)
      ensures Bytes(Abstract()) <= cap || routes == map[]
      ensures deleted == |pruned| == |old(routes)| - |routes|
    {
      hide DeletedRoute, SizeTrace, DeletedAll;
      deleted, pruned := 0, [];
      NoTrace(Abstract(), cap, stuck);
      while true
        invariant Named(Abstract()) && Abstract() == DeletedAll(old(Abstract()), pruned, stuck)
        invariant SizeTrace(old(Abstract()), pruned, cap, stuck)
        invariant deleted == |pruned| == |old(routes)| - |routes|
        decreases |routes|
      {
        var bytes := StorageBytes();
        if bytes <= cap || routes == map[] {
          return;
        }
        ghost var a :| a in routes;
        OldestExists(routes, routes.Keys, a);
        var n :| n in routes && Oldest(routes, routes.Keys, n);
        SizeTraceSnoc(old(Abstract()), pruned, n, cap, stuck);
        DeletedIsNamed(Abstract(), n, stuck);
        DeleteRoute(n);
        deleted, pruned := deleted + 1, pruned + [n];
      }
    }

    method StorageBytes() returns (n: nat)
      ensures n == Bytes(Abstract())
    {
      var a := SumOfSizes(blobs);
      var b := SumOfSizes(caches);
      n := a + b;
    }

    /** One retention pass: choose, delete, reclaim orphans, then shrink to the cap. */
    method RunOnce(policy: Policy, now: int) returns (deleted: nat, ghost c: Choice, ghost pruned: seq<string>)
      requires Named(Abstract())
      modifies this
      ensures Pass(old(Abstract()), devices, policy, now, stuck, c, pruned, Abstract())
      ensures deleted == |old(routes)| - |routes|
    {
      hide DeletedSet, Reclaimed, DeletedAll, SizeTrace, Bytes;
      var names;
      names, c := ChooseRoutes(policy, now);
      ChosenExist(routes, devices, policy, now, c);
      DeletedSetIsNamed(Abstract(), names, stuck);
      DeleteRoutes(names);
      deleted := |names|;
      ReclaimedIsNamed(Abstract(), stuck);
      ReclaimOrphans();
      pruned := [];
      NothingPruned(Abstract(), stuck);
      if policy.cap.Some? {
        var more;
        more, pruned := ShrinkTo(policy.cap.value);
        deleted := deleted + more;
      }
    }
  }

  /** A finished pass, step by step. */
  ghost predicate Pass(s: Store, devices: set<string>, policy: Policy, now: int, stuck: set<string>,
                       c: Choice, pruned: seq<string>, t: Store)
  {
    var before := Reclaimed(DeletedSet(s, c.All(), stuck), stuck);
    && Chosen(s.routes, devices, policy, now, c)
    && t == DeletedAll(before, pruned, stuck)
    && (policy.cap == None ==> pruned == [])
    && (policy.cap.Some? ==>
          SizeTrace(before, pruned, policy.cap.value, stuck) && (Bytes(t) <= policy.cap.value || t.routes == map[]))
  }

  method SumOfSizes(files: map<string, nat>) returns (total: nat)
    ensures total == Total(files)
  {
    total := 0;
    var left := files;
    while left != map[]
      invariant total + Total(left) == Total(files)
      decreases |left|
    {
      var k :| k in left;
      TotalRemove(left, k);
      total, left := total + left[k], left - {k};
    }
  }

  lemma NothingDeleted(s: Store, stuck: set<string>)
    ensures DeletedSet(s, {}, stuck) == s
  {
  }

  lemma MoreChosen(c: Choice, d: string, over: set<string>)
    requires d !in c.over
    ensures c.(over := c.over[d := over]).All() == c.All() + over
  {
    var c' := c.(over := c.over[d := over]);
    forall n ensures n in c'.All() <==> n in c.All() || n in over {
      if n in over {
        assert d in c'.over && n in c'.over[d];
      } else if n in c.All() && n !in c.aged {
        var e :| e in c.over && n in c.over[e];
        assert e in c'.over && n in c'.over[e];
      }
    }
  }

  lemma MoreOrphanKeys(orphans: set<(string, string)>, m: (string, string))
    requires SplitOnce(m.0, "|").Some?
    ensures OrphanKeys(orphans + {m}) == OrphanKeys(orphans) + {OrphanKey(m)}
  {
  }

  lemma NoOrphanKeys()
    ensures OrphanKeys({}) == {}
  {
  }

  lemma NoTrace(s: Store, cap: nat, stuck: set<string>)
    ensures DeletedAll(s, [], stuck) == s && SizeTrace(s, [], cap, stuck)
  {
  }

  lemma NothingPruned(s: Store, stuck: set<string>)
    ensures DeletedAll(s, [], stuck) == s
  {
  }

  lemma DeletedIsNamed(s: Store, n: string, stuck: set<string>)
    requires Named(s) && n in s.routes
    ensures Named(DeletedRoute(s, n, stuck)) && DeletedRoute(s, n, stuck).routes == s.routes - {n}
    ensures |DeletedRoute(s, n, stuck).routes| == |s.routes| - 1
  {
    hide SplitOnce;
    assert (s.routes - {n}).Keys == s.routes.Keys - {n};
    assert |s.routes - {n}| == |(s.routes - {n}).Keys| && |s.routes| == |s.routes.Keys|;
  }

  lemma DeletedSetIsNamed(s: Store, names: set<string>, stuck: set<string>)
    requires Named(s) && names <= s.routes.Keys
    ensures Named(DeletedSet(s, names, stuck)) && |DeletedSet(s, names, stuck).routes| == |s.routes| - |names|
  {
  }

  lemma ReclaimedIsNamed(s: Store, stuck: set<string>)
    requires Named(s)
    ensures Named(Reclaimed(s, stuck)) && Reclaimed(s, stuck).routes == s.routes
  {
  }

  lemma ChosenExist(routes: Routes, devices: set<string>, policy: Policy, now: int, c: Choice)
    requires Chosen(routes, devices, policy, now, c)
    ensures c.All() <= routes.Keys
  {
  }

  lemma NoSegments(dongle: string, ts: string)
    ensures SegmentBlobs(dongle, ts, {}) == {} && CacheFiles(dongle, ts, {}) == {}
  {
  }

  lemma MoreSegments(dongle: string, ts: string, segs: set<int>, n: int)
    ensures SegmentBlobs(dongle, ts, segs + {n}) == SegmentBlobs(dongle, ts, segs) + SegmentBlobs(dongle, ts, {n})
    ensures CacheFiles(dongle, ts, segs + {n}) == CacheFiles(dongle, ts, segs) + CacheFiles(dongle, ts, {n})
  {
    hide BlobKey, CacheName;
  }

  // ---- main result: a pass ends within its limits --------------------------------------------

  /** What the store looks like after a pass, in terms of the routes before it. */
  predicate WithinLimits(was: Routes, now': Routes, devices: set<string>, policy: Policy, now: int) {
    && now'.Keys <= was.Keys && (forall n | n in now' :: now'[n] == was[n])
    // no route is past the age cutoff
    && (policy.days > 0 ==> forall n | n in now' :: !Aged(now'[n], now - policy.days * 86_400_000))
    // each known device has at most the allowed number of drives
    && (policy.maxDrives > 0 ==> forall d | d in devices :: |OfDevice(now', d)| <= policy.maxDrives)
    // of a known device's drives that are not aged, a newer one never goes before an older one
    && (forall n, m | n in now' && m in was && was[m].device == was[n].device && was[n].device in devices
                    && Older(was[n], was[m]) ::
          m in now' || (policy.days > 0 && Aged(was[m], now - policy.days * 86_400_000)))
  }

  /** A deleted route was aged, or surplus of its device, or deleted while over the storage cap. */
  predicate Justified(was: Routes, policy: Policy, now: int, c: Choice, pruned: seq<string>, n: string)
    requires n in was
  {
    || (policy.days > 0 && Aged(was[n], now - policy.days * 86_400_000))
    || (policy.maxDrives > 0 && was[n].device in c.over && n in c.over[was[n].device]
        && |OfDevice(was, was[n].device)| > policy.maxDrives)
    || (policy.cap.Some? && n in pruned)
  }

  lemma {:induction false} PrunedRoutes(s: Store, names: seq<string>, cap: nat, stuck: set<string>)
    requires Named(s) && SizeTrace(s, names, cap, stuck)
    ensures var t := DeletedAll(s, names, stuck);
            && Named(t) && t.routes == s.routes - (set n | n in names)
            && (forall n, p | n in t.routes && p in names :: p in s.routes && !Older(s.routes[n], s.routes[p]))
    decreases |names|
  {
    hide DeletedRoute, Bytes, Older, Named;
    if names != [] {
      var first, rest := names[0], names[1..];
      assert names == [first] + rest;
      var next := DeletedRoute(s, first, stuck);
      DeletedIsNamed(s, first, stuck);
      PrunedRoutes(next, rest, cap, stuck);
      PrunedStep(s.routes, first, rest);
      var t := DeletedAll(s, names, stuck);
      assert t.routes == next.routes - set n | n in rest;
      forall n, p | n in t.routes && p in names ensures p in s.routes && !Older(s.routes[n], s.routes[p]) {
        if p in rest {
          assert p in next.routes && !Older(next.routes[n], next.routes[p]);
        }
      }
    }
  }

  lemma PrunedStep(routes: Routes, first: string, rest: seq<string>)
    ensures routes - {first} - (set n | n in rest) == routes - (set n | n in [first] + rest)
  {
  }

  predicate NoOrphans(s: Store) {
    forall m | m in s.movies :: m.0 in s.routes
  }

  lemma {:induction false} PrunedNoOrphans(s: Store, names: seq<string>, stuck: set<string>)
    requires Named(s) && NoOrphans(s)
    ensures NoOrphans(DeletedAll(s, names, stuck))
    decreases |names|
  {
    if names != [] {
      DeleteKeepsNoOrphans(s, names[0], stuck);
      PrunedNoOrphans(DeletedRoute(s, names[0], stuck), names[1..], stuck);
    }
  }

  lemma DeleteKeepsNoOrphans(s: Store, n: string, stuck: set<string>)
    requires Named(s) && NoOrphans(s)
    ensures Named(DeletedRoute(s, n, stuck)) && NoOrphans(DeletedRoute(s, n, stuck))
  {
    hide SplitOnce;
  }

  /** The order of the size phase: oldest first. */
  lemma {:induction false} PrunedInOrder(s: Store, names: seq<string>, cap: nat, stuck: set<string>, i: nat, j: nat)
    requires Named(s) && SizeTrace(s, names, cap, stuck) && i < j < |names|
    ensures names[i] in s.routes && names[j] in s.routes && !Older(s.routes[names[j]], s.routes[names[i]])
    decreases |names|
  {
    hide DeletedRoute, Bytes, Older, Named;
    var rest := names[1..];
    DeletedIsNamed(s, names[0], stuck);
    PrunedArePresent(DeletedRoute(s, names[0], stuck), rest, cap, stuck, j - 1);
    if i > 0 {
      PrunedInOrder(DeletedRoute(s, names[0], stuck), rest, cap, stuck, i - 1, j - 1);
    }
  }

  lemma {:induction false} PrunedArePresent(s: Store, names: seq<string>, cap: nat, stuck: set<string>, i: nat)
    requires Named(s) && SizeTrace(s, names, cap, stuck) && i < |names|
    ensures names[i] in s.routes
    decreases |names|
  {
    hide DeletedRoute, Bytes;
    if i > 0 {
      DeletedIsNamed(s, names[0], stuck);
      PrunedArePresent(DeletedRoute(s, names[0], stuck), names[1..], cap, stuck, i - 1);
    }
  }

  /** The routes left by the first phase are limited by age and count. */
  lemma FirstPhaseLimits(was: Routes, devices: set<string>, policy: Policy, now: int, c: Choice, left: Routes)
    requires Chosen(was, devices, policy, now, c) && left == was - c.All()
    ensures WithinLimits(was, left, devices, policy, now)
    ensures forall n | n in was && n !in left :: Justified(was, policy, now, c, [], n)
  {
    hide Aged, Older, Justified, Surplus, OfDevice;
    CountLimited(was, devices, policy, now, c, left);
    NewestKept(was, devices, policy, now, c, left);
    DeletionsJustified(was, devices, policy, now, c, left);
  }

  lemma CountLimited(was: Routes, devices: set<string>, policy: Policy, now: int, c: Choice, left: Routes)
    requires Chosen(was, devices, policy, now, c) && left == was - c.All()
    ensures policy.maxDrives > 0 ==> forall d | d in devices :: |OfDevice(left, d)| <= policy.maxDrives
  {
    hide Aged, Older;
    if policy.maxDrives > 0 {
      forall d | d in devices ensures |OfDevice(left, d)| <= policy.maxDrives {
        var kept := OfDevice(was, d) - c.over[d];
        assert OfDevice(left, d) <= kept;
        SubsetSize(OfDevice(left, d), kept);
      }
    }
  }

  lemma DeviceOfSurplus(was: Routes, devices: set<string>, policy: Policy, now: int, c: Choice, n: string)
    requires Chosen(was, devices, policy, now, c) && n in c.All() && n !in c.aged
    ensures n in was && was[n].device in c.over && n in c.over[was[n].device]
    ensures Surplus(was, was[n].device, policy.maxDrives, c.over[was[n].device])
  {
    hide Aged, Older;
    var d :| d in c.over && n in c.over[d];
    assert n in OfDevice(was, d);
  }

  lemma NewestKept(was: Routes, devices: set<string>, policy: Policy, now: int, c: Choice, left: Routes)
    requires Chosen(was, devices, policy, now, c) && left == was - c.All()
    ensures forall n, m | n in left && m in was && was[m].device == was[n].device && was[n].device in devices
                          && Older(was[n], was[m]) ::
              m in left || (policy.days > 0 && Aged(was[m], now - policy.days * 86_400_000))
  {
    hide Aged, Older;
    forall n, m | n in left && m in was && m in c.All() && m !in c.aged && was[m].device == was[n].device
      ensures !Older(was[n], was[m])
    {
      DeviceOfSurplus(was, devices, policy, now, c, m);
      KeptIsNoOlder(was, was[m].device, policy.maxDrives, c.over[was[m].device], n, m);
    }
  }

  lemma KeptIsNoOlder(routes: Routes, d: string, max: nat, over: set<string>, k: string, o: string)
    requires Surplus(routes, d, max, over) && k in OfDevice(routes, d) && k !in over && o in over
    ensures !Older(routes[k], routes[o])
  {
  }

  lemma DeletionsJustified(was: Routes, devices: set<string>, policy: Policy, now: int, c: Choice, left: Routes)
    requires Chosen(was, devices, policy, now, c) && left == was - c.All()
    ensures forall n | n in was && n !in left :: Justified(was, policy, now, c, [], n)
  {
  }

  lemma SubsetSize<T>(a: set<T>, b: set<T>)
    requires a <= b
    ensures |a| <= |b|
  {
    assert b == a + (b - a) && |a + (b - a)| == |a| + |b - a|;
  }

  /** Deleting a prefix of the oldest keeps the limits. */
  lemma PruningKeepsLimits(was: Routes, left: Routes, final: Routes, devices: set<string>, policy: Policy, now: int)
    requires WithinLimits(was, left, devices, policy, now) && final.Keys <= left.Keys
    requires forall n | n in final :: final[n] == left[n]
    requires forall n, p | n in final && p in left && p !in final :: !Older(left[n], left[p])
    ensures WithinLimits(was, final, devices, policy, now)
  {
    hide Aged, Older;
    if policy.maxDrives > 0 {
      forall d | d in devices ensures |OfDevice(final, d)| <= policy.maxDrives {
        SubsetSize(OfDevice(final, d), OfDevice(left, d));
      }
    }
  }

  /** Every route in the list is no newer than those after it. */
  predicate OldestFirst(routes: Routes, names: seq<string>) {
    forall i, j | 0 <= i < j < |names| :: NoNewer(routes, names[i], names[j])
  }

  predicate NoNewer(routes: Routes, a: string, b: string) {
    a in routes && b in routes && !Older(routes[b], routes[a])
  }

  lemma AllPrunedInOrder(routes: Routes, s: Store, pruned: seq<string>, cap: nat, stuck: set<string>)
    requires Named(s) && SizeTrace(s, pruned, cap, stuck)
    requires s.routes.Keys <= routes.Keys && forall n | n in s.routes :: s.routes[n] == routes[n]
    ensures OldestFirst(routes, pruned)
  {
    hide Named, SizeTrace;
    forall i, j | 0 <= i < j < |pruned| ensures NoNewer(routes, pruned[i], pruned[j]) {
      PrunedInOrder(s, pruned, cap, stuck, i, j);
    }
  }

  /** What the age and count limits leave behind. */
  lemma FirstPhaseEnds(s: Store, devices: set<string>, policy: Policy, now: int, stuck: set<string>, c: Choice)
    requires Named(s) && Chosen(s.routes, devices, policy, now, c)
    ensures var before := Reclaimed(DeletedSet(s, c.All(), stuck), stuck);
            && Named(before) && NoOrphans(before) && before.routes == s.routes - c.All()
            && WithinLimits(s.routes, before.routes, devices, policy, now)
            && forall n | n in s.routes && n !in before.routes :: Justified(s.routes, policy, now, c, [], n)
  {
    hide WithinLimits, Chosen, UnlinkedBlobs, UnlinkedCaches, OrphanKeys, Named, Justified;
    var first := DeletedSet(s, c.All(), stuck);
    ChosenExist(s.routes, devices, policy, now, c);
    DeletedSetIsNamed(s, c.All(), stuck);
    ReclaimedIsNamed(first, stuck);
    FirstPhaseLimits(s.routes, devices, policy, now, c, Reclaimed(first, stuck).routes);
  }

  /** Every pass ends within its limits, deletes nothing without reason, and leaves no orphaned movie. */
  lemma PassEndsWithinLimits(s: Store, devices: set<string>, policy: Policy, now: int, stuck: set<string>,
                             c: Choice, pruned: seq<string>, t: Store)
    requires Named(s) && Pass(s, devices, policy, now, stuck, c, pruned, t)
    ensures WithinLimits(s.routes, t.routes, devices, policy, now)
    ensures policy.cap.Some? ==> Bytes(t) <= policy.cap.value || t.routes == map[]
    ensures forall n | n in s.routes && n !in t.routes :: Justified(s.routes, policy, now, c, pruned, n)
    ensures OldestFirst(s.routes, pruned)
    ensures NoOrphans(t)
  {
    hide Bytes, SizeTrace, WithinLimits, DeletedAll, Chosen, DeletedSet, Reclaimed, Older, Aged, Named, NoOrphans,
         OldestFirst;
    var before := Reclaimed(DeletedSet(s, c.All(), stuck), stuck);
    FirstPhaseEnds(s, devices, policy, now, stuck, c);
    PrunedNoOrphans(before, pruned, stuck);
    var cap := policy.cap.GetOr(0);
    if policy.cap == None {
      NoTrace(before, cap, stuck);
    }
    PrunedRoutes(before, pruned, cap, stuck);
    PruningKeepsLimits(s.routes, before.routes, t.routes, devices, policy, now);
    AllPrunedInOrder(s.routes, before, pruned, cap, stuck);
  }
}
