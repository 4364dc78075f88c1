/** How the server names things: blob keys, route and segment names, device paths, upload URLs. */
module Names {
  import opened Wrappers
  import opened Text
  import opened Decimal

  const REALDATA_DIR: string := "/data/media/0/realdata"

  // ---- blob keys -------------------------------------------------------------

  /** The common shape of every blob key of a route: `{dongle}_{ts}--{mid}--{file}`. */
  function Key(dongle: string, ts: string, mid: string, file: string): string {
    dongle + "_" + ts + "--" + mid + "--" + file
  }

  /** A segment file's key. */
  function BlobKey(dongle: string, ts: string, seg: int, file: string): string {
    Key(dongle, ts, Show(seg), file)
  }

  function MovieKey(dongle: string, ts: string, cam: string): string {
    dongle + "_" + ts + "--movie--" + cam + ".mp4"
  }

  function SubsKey(dongle: string, ts: string): string {
    dongle + "_" + ts + "--subs--en.vtt"
  }

  lemma RouteKeysAreKeys(dongle: string, ts: string, cam: string)
    ensures MovieKey(dongle, ts, cam) == Key(dongle, ts, "movie", cam + ".mp4")
    ensures SubsKey(dongle, ts) == Key(dongle, ts, "subs", "en.vtt")
  {
    var head := dongle + "_" + ts;
    assert head + "--movie--" + cam + ".mp4" == head + "--" + "movie" + "--" + (cam + ".mp4");
    assert head + "--subs--en.vtt" == head + "--" + "subs" + "--" + "en.vtt";
  }

  lemma DigitsAreDashTail(n: nat)
    ensures DashTail(Show(n)) && '/' !in Show(n)
  {
    var s := ShowNat(n);
    forall i: nat ensures !OccursAt(s, "--", i) {
      DashOccurs(s, i);
      assert i < |s| ==> IsDigit(s[i]);
    }
    assert IsDigit(s[0]);
  }

  /** The whole of a key can be read back: keys with equal text have equal parts. */
  lemma KeyInjective(d1: string, ts1: string, mid1: string, f1: string,
                     d2: string, ts2: string, mid2: string, f2: string)
    requires '_' !in d1 && '_' !in d2
    requires DashTail(mid1) && DashTail(mid2) && DashTail(f1) && DashTail(f2)
    requires Key(d1, ts1, mid1, f1) == Key(d2, ts2, mid2, f2)
    ensures d1 == d2 && ts1 == ts2 && mid1 == mid2 && f1 == f2
  {
    RSplitDashes(d1 + "_" + ts1 + "--" + mid1, f1);
    RSplitDashes(d2 + "_" + ts2 + "--" + mid2, f2);
    RSplitDashes(d1 + "_" + ts1, mid1);
    RSplitDashes(d2 + "_" + ts2, mid2);
    SplitOnceChar(d1, '_', ts1);
    SplitOnceChar(d2, '_', ts2);
  }

  lemma ShowInjective(m: int, n: int)
    requires Show(m) == Show(n)
    ensures m == n
  {
    if m < 0 {
      assert Show(m)[1..] == ShowNat(-m);
      assert n >= 0 ==> IsDigit(Show(n)[0]);
      assert Show(n)[1..] == ShowNat(-n);
    } else {
      assert IsDigit(Show(m)[0]);
    }
  }

  /** A segment file whose key can be read back. */
  predicate WellNamed(dongle: string, seg: int, file: string) {
    '_' !in dongle && seg >= 0 && DashTail(file)
  }

  /** Two well-named segment files share a blob key only if they are the same file. */
  lemma BlobKeyInjective(d1: string, ts1: string, s1: int, f1: string,
                         d2: string, ts2: string, s2: int, f2: string)
    requires WellNamed(d1, s1, f1) && WellNamed(d2, s2, f2)
    requires BlobKey(d1, ts1, s1, f1) == BlobKey(d2, ts2, s2, f2)
    ensures d1 == d2 && ts1 == ts2 && s1 == s2 && f1 == f2
  {
    DigitsAreDashTail(s1);
    DigitsAreDashTail(s2);
    KeyInjective(d1, ts1, Show(s1), f1, d2, ts2, Show(s2), f2);
    ShowInjective(s1, s2);
  }

  // ---- route and segment names -------------------------------------------------

  function RouteName(dongle: string, ts: string): string {
    dongle + "|" + ts
  }

  /** The primary key of a segment row. */
  function RowName(route: string, seg: int): string {
    route + "--" + Show(seg)
  }

  function SegmentName(dongle: string, ts: string, seg: int): string {
    RowName(RouteName(dongle, ts), seg)
  }

  lemma RouteNameSplits(dongle: string, ts: string)
    requires '|' !in dongle
    ensures SplitOnce(RouteName(dongle, ts), "|") == Some((dongle, ts))
  {
    SplitOnceChar(dongle, '|', ts);
  }

  /** On non-negative segments the primary key of the segment table identifies route and segment. */
  lemma RowNameInjective(route1: string, seg1: int, route2: string, seg2: int)
    requires seg1 >= 0 && seg2 >= 0
    requires RowName(route1, seg1) == RowName(route2, seg2)
    ensures route1 == route2 && seg1 == seg2
  {
    DigitsAreDashTail(seg1);
    DigitsAreDashTail(seg2);
    RSplitDashes(route1, Show(seg1));
    RSplitDashes(route2, Show(seg2));
    ShowInjective(seg1, seg2);
  }

  /** A negative segment of a route shares its row name with a segment of the route whose name has a dash more. */
  lemma NegativeRowName(route: string, n: int)
    requires n > 0
    ensures RowName(route, -n) == RowName(route + "-", n)
  {
    assert Show(-n) == "-" + Show(n);
    assert route + "--" + ("-" + Show(n)) == (route + "-") + "--" + Show(n);
  }

  /** And this is the only way in which two segments share a row name. */
  lemma RowNameSharedIff(route1: string, seg1: int, route2: string, seg2: int)
    ensures RowName(route1, seg1) == RowName(route2, seg2) <==>
            || (route1 == route2 && seg1 == seg2)
            || (seg1 < 0 && route2 == route1 + "-" && seg2 == -seg1)
            || (seg2 < 0 && route1 == route2 + "-" && seg1 == -seg2)
  {
    hide RowName;
    var r1, s1 := if seg1 < 0 then route1 + "-" else route1, if seg1 < 0 then -seg1 else seg1;
    var r2, s2 := if seg2 < 0 then route2 + "-" else route2, if seg2 < 0 then -seg2 else seg2;
    if seg1 < 0 {
      NegativeRowName(route1, -seg1);
    }
    if seg2 < 0 {
      NegativeRowName(route2, -seg2);
    }
    if RowName(r1, s1) == RowName(r2, s2) {
      RowNameInjective(r1, s1, r2, s2);
    }
    assert seg1 < 0 && seg2 < 0 && r1 == r2 ==> route1 == r1[..|r1| - 1] == route2;
  }

  // ---- device paths --------------------------------------------------------------

  /** The path the puller and the pruner address on the device. */
  function RemotePath(ts: string, seg: int, file: string): string {
    REALDATA_DIR + "/" + BelowRoot(ts, seg, file)
  }

  function BelowRoot(ts: string, seg: int, file: string): string {
    ts + "--" + Show(seg) + "/" + file
  }

  function TrimSlashes(s: string): (r: string)
    ensures r == "" || r[0] != '/'
    ensures s != "" && s[0] != '/' ==> r == s
  {
    if s != "" && s[0] == '/' then TrimSlashes(s[1..]) else s
  }

  /** Read a listed realdata path as (ts, segment, file). */
  function ParseRemotePath(path: string): Option<(string, int, string)> {
    if OccursAt(path, REALDATA_DIR, 0) then ParseBelow(TrimSlashes(path[|REALDATA_DIR|..])) else None
  }

  /** The part below the realdata directory: `{ts}--{seg}/{file}`. */
  function ParseBelow(rest: string): Option<(string, int, string)> {
    match SplitOnce(rest, "/")
    case None => None
    case Some((dir, file)) =>
      match RSplitOnce(dir, "--")
      case None => None
      case Some((ts, digits)) =>
        match ParseI64(digits)
        case None => None
        case Some(seg) => if ts == "" || file == "" then None else Some((ts, seg, file))
  }

  /** A (ts, segment, file) that names a file of a drive on the device. */
  predicate Addressable(ts: string, seg: int, file: string) {
    ts != "" && '/' !in ts && 0 <= seg <= I64_MAX && file != ""
  }

  /** Whatever the lister accepts is addressable: the segment is never negative. */
  lemma ParsedIsAddressable(path: string)
    requires ParseRemotePath(path).Some?
    ensures var (ts, seg, file) := ParseRemotePath(path).value; Addressable(ts, seg, file)
  {
    hide SplitOnce, RSplitOnce, ParseI64, DashTail, Contains;
    var rest := TrimSlashes(path[|REALDATA_DIR|..]);
    var (dir, file) := SplitOnce(rest, "/").value;
    FirstPiece(rest, '/', dir, file);
    var (ts, digits) := RSplitOnce(dir, "--").value;
    ParsedDir(dir, ts, digits);
  }

  lemma ParsedDir(dir: string, ts: string, digits: string)
    requires RSplitOnce(dir, "--") == Some((ts, digits)) && ParseI64(digits).Some? && '/' !in dir
    ensures '/' !in ts && 0 <= ParseI64(digits).value <= I64_MAX
  {
    hide RSplitOnce, OccursAt;
    RSplitDashes(ts, digits);
    assert forall i | 0 <= i < |ts| :: dir[i] == ts[i];
  }

  lemma ParseBelowShown(ts: string, seg: int, file: string)
    requires Addressable(ts, seg, file)
    ensures ParseBelow(BelowRoot(ts, seg, file)) == Some((ts, seg, file))
  {
    var dir := ts + "--" + Show(seg);
    DigitsAreDashTail(seg);
    SplitOnceChar(dir, '/', file);
    RSplitDashes(ts, Show(seg));
    ParseShow(seg);
  }

  lemma StripRoot(rest: string)
    requires rest != "" && rest[0] != '/'
    ensures ParseRemotePath(REALDATA_DIR + "/" + rest) == ParseBelow(rest)
  {
    var path := REALDATA_DIR + "/" + rest;
    assert path[|REALDATA_DIR|..] == "/" + rest;
    assert ("/" + rest)[1..] == rest;
  }

  /** The lister inverts the path printer on exactly the addressable files. */
  lemma RemotePathRoundTrip(ts: string, seg: int, file: string)
    ensures ParseRemotePath(RemotePath(ts, seg, file)) == Some((ts, seg, file))
       <==> Addressable(ts, seg, file)
  {
    var path := RemotePath(ts, seg, file);
    if ParseRemotePath(path) == Some((ts, seg, file)) {
      ParsedIsAddressable(path);
    }
    if Addressable(ts, seg, file) {
      StripRoot(BelowRoot(ts, seg, file));
      ParseBelowShown(ts, seg, file);
    }
  }

  // ---- uploads ---------------------------------------------------------------------

  /** Replace the first `n` occurrences of `c`. */
  function ReplaceFirst(s: string, c: char, sub: char, n: nat): string {
    if s == "" || n == 0 then s
    else if s[0] == c then [sub] + ReplaceFirst(s[1..], c, sub, n - 1)
    else [s[0]] + ReplaceFirst(s[1..], c, sub, n)
  }

  /** The slash-separated URL tail handed back for a device path. */
  function TransformRouteString(path: string): string {
    if OccursAt(path, "boot/", 0) then "boot/" + path[5..]
    else if OccursAt(path, "crash/", 0) then "crash/" + ReplaceFirst(path[6..], '_', '/', 2)
    else DrivingTail(path)
  }

  /** The driving-segment case: `{ts}--{seg}--{file}` split from the right. */
  function DrivingTail(path: string): string {
    match RSplitOnce(path, "--")
    case None => path
    case Some((head, file)) =>
      match RSplitOnce(head, "--")
      case None => path
      case Some((ts, seg)) => ts + "/" + seg + "/" + file
  }

  /** The driving-log route: three non-empty components, the middle one an i64. */
  function UploadDrivingKey(dongle: string, tail: string): Option<string> {
    var parts := Split(tail, '/');
    if |parts| == 3 && "" !in parts then
      match ParseI64(parts[1])
      case None => None
      case Some(seg) => Some(BlobKey(dongle, parts[0], seg, parts[2]))
    else None
  }

  lemma SplitThree(a: string, b: string, c: string)
    requires '/' !in a && '/' !in b && '/' !in c
    ensures Split(a + "/" + b + "/" + c, '/') == [a, b, c]
  {
    var parts := [a, b, c];
    assert parts[1..] == [b, c] && parts[1..][1..] == [c];
    assert Join(parts[1..], '/') == b + ['/'] + c;
    assert Join(parts, '/') == a + "/" + b + "/" + c;
    SplitJoin(parts, '/');
  }

  /** The uploader's name for a segment file. */
  function UploadPath(ts: string, seg: int, file: string): string {
    ts + "--" + Show(seg) + "--" + file
  }

  function UploadTail(ts: string, seg: int, file: string): string {
    ts + "/" + Show(seg) + "/" + file
  }

  /** The URL tail has the right three parts exactly when the file name is a dash tail. */
  lemma UploadPathSplits(ts: string, seg: int, file: string)
    requires Addressable(ts, seg, file) && '/' !in file
    ensures TransformRouteString(UploadPath(ts, seg, file)) == UploadTail(ts, seg, file)
       <==> DashTail(file)
  {
    DigitsAreDashTail(seg);
    assert '/' !in UploadPath(ts, seg, file);
    SlashFreeIsDriving(UploadPath(ts, seg, file));
    if DashTail(file) {
      StraightSplit(ts, Show(seg), file);
    } else {
      ForeignSplit(ts, Show(seg), file);
    }
  }

  /** The upload route stores a file under its blob key, `{dongle}_{path}`. */
  lemma UploadLandsAtPath(dongle: string, ts: string, seg: int, file: string)
    requires Addressable(ts, seg, file) && '/' !in file && DashTail(file)
    ensures UploadDrivingKey(dongle, TransformRouteString(UploadPath(ts, seg, file)))
         == Some(dongle + "_" + UploadPath(ts, seg, file))
  {
    UploadPathSplits(ts, seg, file);
    UploadTailRoutes(dongle, ts, seg, file);
    KeyIsDongleAndPath(dongle, ts, seg, file);
  }

  lemma UploadTailRoutes(dongle: string, ts: string, seg: int, file: string)
    requires Addressable(ts, seg, file) && '/' !in file
    ensures UploadDrivingKey(dongle, UploadTail(ts, seg, file)) == Some(BlobKey(dongle, ts, seg, file))
  {
    hide Split, BlobKey, DashTail, ParseI64;
    DigitsAreDashTail(seg);
    SplitThree(ts, Show(seg), file);
    ParseShow(seg);
    assert Show(seg) != "";
  }

  lemma KeyIsDongleAndPath(dongle: string, ts: string, seg: int, file: string)
    ensures BlobKey(dongle, ts, seg, file) == dongle + "_" + UploadPath(ts, seg, file)
  {
  }

  lemma SlashFreeIsDriving(path: string)
    requires '/' !in path
    ensures TransformRouteString(path) == DrivingTail(path)
  {
    NoSlashPrefix(path, "boot/");
    NoSlashPrefix(path, "crash/");
  }

  lemma StraightSplit(ts: string, digits: string, file: string)
    requires DashTail(digits) && DashTail(file)
    ensures DrivingTail(ts + "--" + digits + "--" + file) == ts + "/" + digits + "/" + file
  {
    RSplitDashes(ts + "--" + digits, file);
    RSplitDashes(ts, digits);
  }

  lemma NoSlashPrefix(path: string, p: string)
    requires '/' !in path && p != "" && p[|p| - 1] == '/'
    ensures !OccursAt(path, p, 0)
  {
  }

  /** If the last `--` is not the structural one, the URL tail is a different one. */
  lemma ForeignSplit(ts: string, digits: string, file: string)
    requires !DashTail(file) && '/' !in ts + "--" + digits + "--" + file
    ensures DrivingTail(ts + "--" + digits + "--" + file) != ts + "/" + digits + "/" + file
  {
    var head := ts + "--" + digits;
    var path := head + "--" + file;
    RSplitDashes(head, file);
    SplitFromRight(head, "--", file);
    var (h2, f2) := RSplitOnce(path, "--").value;
    assert forall i | 0 <= i < |file| :: path[|head| + 2 + i] == file[i];
    assert forall i | 0 <= i < |f2| :: path[|h2| + 2 + i] == f2[i];
    LastSlash(ts + "/" + digits, file);
    match RSplitOnce(h2, "--")
    case None =>
      assert (ts + "/" + digits + "/" + file)[|ts|] == '/';
    case Some((t2, s2)) =>
      LastSlash(t2 + "/" + s2, f2);
  }

  /** Splitting from the right never goes left of a known separator. */
  lemma SplitFromRight(a: string, p: string, b: string)
    ensures var r := RSplitOnce(a + p + b, p);
            r.Some? && (r == Some((a, b)) || |r.value.1| < |b|)
  {
    var s := a + p + b;
    assert OccursAt(s, p, |a|);
    var (x, y) := RSplitOnce(s, p).value;
    if |x| == |a| {
      assert x == s[..|a|] == a;
      assert y == s[|a| + |p|..] == b;
    }
  }

  lemma LastSlash(a: string, b: string)
    requires '/' !in b
    ensures RSplitOnce(a + "/" + b, "/") == Some((a, b))
  {
    var s := a + "/" + b;
    forall j: nat | |a| < j ensures !OccursAt(s, "/", j) {
      if j + 1 <= |s| {
        assert s[j..j + 1][0] == b[j - |a| - 1];
      }
    }
    RSplitOnceAt(a, "/", b);
  }

  // ---- downloads -------------------------------------------------------------------

  /** The URL under which a segment file is served; the kind is cosmetic. */
  function DownloadUrl(kind: string, dongle: string, ts: string, seg: int, file: string): string {
    "/connectdata/" + Join([kind, dongle, ts, Show(seg), file], '/')
  }

  /** The blob that the download route serves: five non-empty components, the fourth an i64. */
  function ServedKey(url: string): Option<string> {
    if !OccursAt(url, "/connectdata/", 0) then None
    else
      var parts := Split(url[13..], '/');
      if |parts| != 5 || "" in parts then None
      else
        match ParseI64(parts[3])
        case None => None
        case Some(seg) => Some(BlobKey(parts[1], parts[2], seg, parts[4]))
  }

  predicate Component(s: string) { s != "" && '/' !in s }

  /** A registered URL serves a blob exactly when its parts are plain components and the segment fits; then its own. */
  lemma UrlServesIff(kind: string, dongle: string, ts: string, seg: int, file: string)
    requires Component(kind)
    ensures var served := ServedKey(DownloadUrl(kind, dongle, ts, seg, file));
            && (served.Some? <==> Component(dongle) && Component(ts) && Component(file) && I64_MIN <= seg <= I64_MAX)
            && (served.Some? ==> served == Some(BlobKey(dongle, ts, seg, file)))
  {
    hide Split, Join, BlobKey, ParseI64, Show;
    var parts := [kind, dongle, ts, Show(seg), file];
    assert DownloadUrl(kind, dongle, ts, seg, file)[13..] == Join(parts, '/');
    ParseShow(seg);
    ShownIsComponent(seg);
    JoinedPieces(parts, '/');
    assert (forall p | p in parts :: '/' !in p) <==> '/' !in dongle && '/' !in ts && '/' !in file;
    if forall p | p in parts :: '/' !in p {
      SplitJoin(parts, '/');
    }
  }

  lemma ShownIsComponent(n: int)
    ensures Component(Show(n))
  {
    var s := ShowNat(if n < 0 then -n else n);
    assert forall i | 0 <= i < |s| :: IsDigit(s[i]);
  }
}
