/** When the storage cap loop ends: route names without a separator can hold it up for ever. */
module CapLoop {
  import opened Wrappers
  import opened Text
  import opened Folds
  import opened Storage
  import opened Retention

  /** `delete_route` does nothing for any other name. */
  predicate Deletable(n: string) { SplitOnce(n, "|").Some? }

  /** The routes strictly older than this one. */
  function OlderThan(routes: Routes, m: string): set<string>
    requires m in routes
  {
    set n | n in routes && Older(routes[n], routes[m])
  }

  /** An undeletable route, with no other older one, is all that is left to take once everything older is gone. */
  ghost predicate HoldsUp(s: Store, m: string, cap: nat, stuck: set<string>) {
    && m in s.routes && !Deletable(m)
    && (forall n | n in OlderThan(s.routes, m) :: Deletable(n))
    && Bytes(DeletedSet(s, OlderThan(s.routes, m), stuck)) > cap
  }

  ghost predicate HeldUp(s: Store, cap: nat, stuck: set<string>) {
    exists m :: HoldsUp(s, m, cap, stuck)
  }

  // ---- deleting more leaves less --------------------------------------------------------------

  lemma {:induction false} TotalShrinks(blobs: map<string, nat>, keys: set<string>)
    ensures Total(blobs - keys) <= Total(blobs)
    decreases |blobs|
  {
    hide Total;
    if blobs.Keys * keys == {} {
      assert blobs - keys == blobs;
    } else {
      var k := Member(blobs.Keys * keys);
      TotalRemove(blobs, k);
      var rest := blobs - {k};
      TotalShrinks(rest, keys);
      assert rest - keys == blobs - keys;
    }
  }

  lemma FewerBytes(s: Store, some: set<string>, more: set<string>, stuck: set<string>)
    requires some <= more
    ensures Bytes(DeletedSet(s, more, stuck)) <= Bytes(DeletedSet(s, some, stuck))
  {
    hide UnlinkedBlobs, UnlinkedCaches;
    var a, b := DeletedSet(s, some, stuck), DeletedSet(s, more, stuck);
    assert b.blobs == a.blobs - (s.blobs.Keys - b.blobs.Keys);
    assert b.caches == a.caches - (s.caches.Keys - b.caches.Keys);
    TotalShrinks(a.blobs, s.blobs.Keys - b.blobs.Keys);
    TotalShrinks(a.caches, s.caches.Keys - b.caches.Keys);
  }

  function GoneBlobs(s: Store, names: set<string>): set<string> {
    set m, key | m in names && key in UnlinkedBlobs(s, m) :: key
  }

  function GoneCaches(s: Store, names: set<string>): set<string> {
    set m, key | m in names && key in UnlinkedCaches(s, m) :: key
  }

  lemma DeletedFiles(s: Store, names: set<string>, stuck: set<string>)
    ensures DeletedSet(s, names, stuck).blobs == s.blobs - (GoneBlobs(s, names) - stuck)
    ensures DeletedSet(s, names, stuck).caches == s.caches - (GoneCaches(s, names) - stuck)
  {
    hide UnlinkedBlobs, UnlinkedCaches;
  }

  lemma DeletedRows(s: Store, n: string, names: set<string>, stuck: set<string>)
    requires n !in names && Deletable(n)
    ensures var a, b := DeletedSet(DeletedRoute(s, n, stuck), names, stuck), DeletedSet(s, names + {n}, stuck);
            a.routes == b.routes && a.segments == b.segments && a.movies == b.movies && a.subs == b.subs
  {
    hide UnlinkedBlobs, UnlinkedCaches, SegmentBlobs, RouteBlobs, CacheFiles;
  }

  lemma GoneMore(s: Store, t: Store, n: string, names: set<string>)
    requires forall m | m in names ::
               UnlinkedBlobs(t, m) == UnlinkedBlobs(s, m) && UnlinkedCaches(t, m) == UnlinkedCaches(s, m)
    ensures GoneBlobs(s, names + {n}) == GoneBlobs(t, names) + UnlinkedBlobs(s, n)
    ensures GoneCaches(s, names + {n}) == GoneCaches(t, names) + UnlinkedCaches(s, n)
  {
    hide UnlinkedBlobs, UnlinkedCaches;
  }

  /** A route deleted first, then others. */
  lemma DeleteFirst(s: Store, n: string, names: set<string>, stuck: set<string>)
    requires n !in names && Deletable(n)
    ensures DeletedSet(DeletedRoute(s, n, stuck), names, stuck) == DeletedSet(s, names + {n}, stuck)
  {
    hide GoneBlobs, GoneCaches, DeletedSet, DeletedRoute, UnlinkedBlobs, UnlinkedCaches;
    var part := DeletedRoute(s, n, stuck);
    OthersFilesStay(s, n, names, stuck);
    GoneMore(s, part, n, names);
    DeletedFiles(part, names, stuck);
    DeletedFiles(s, names + {n}, stuck);
    DeletedRows(s, n, names, stuck);
    RouteFiles(s, n, stuck);
  }

  lemma OthersFilesStay(s: Store, n: string, names: set<string>, stuck: set<string>)
    requires n !in names && Deletable(n)
    ensures var t := DeletedRoute(s, n, stuck);
            forall m | m in names ::
              UnlinkedBlobs(t, m) == UnlinkedBlobs(s, m) && UnlinkedCaches(t, m) == UnlinkedCaches(s, m)
  {
    hide SegmentBlobs, RouteBlobs, CacheFiles, SplitOnce;
    var t := DeletedRoute(s, n, stuck);
    forall m | m in names
      ensures UnlinkedBlobs(t, m) == UnlinkedBlobs(s, m) && UnlinkedCaches(t, m) == UnlinkedCaches(s, m)
    {
      assert SegmentNumbers(t.segments, m) == SegmentNumbers(s.segments, m);
    }
  }

  lemma RouteFiles(s: Store, n: string, stuck: set<string>)
    requires Deletable(n)
    ensures DeletedRoute(s, n, stuck).blobs == s.blobs - (UnlinkedBlobs(s, n) - stuck)
    ensures DeletedRoute(s, n, stuck).caches == s.caches - (UnlinkedCaches(s, n) - stuck)
  {
    hide SegmentBlobs, RouteBlobs, CacheFiles;
  }

  // ---- the loop can be held up exactly in such states ---------------------------------------------

  /** One turn of the loop with a deletable oldest route leaves the question whether it is held up as it was. */
  lemma OneTurn(s: Store, n: string, m: string, cap: nat, stuck: set<string>)
    requires Deletable(n) && n in s.routes && m in s.routes && !Deletable(m)
    ensures m in DeletedRoute(s, n, stuck).routes
    ensures OlderThan(DeletedRoute(s, n, stuck).routes, m) == OlderThan(s.routes, m) - {n}
    ensures n in OlderThan(s.routes, m) ==>
              (HoldsUp(DeletedRoute(s, n, stuck), m, cap, stuck) <==> HoldsUp(s, m, cap, stuck))
    ensures HoldsUp(DeletedRoute(s, n, stuck), m, cap, stuck) ==> HoldsUp(s, m, cap, stuck)
  {
    hide DeletedSet, Bytes, SplitOnce, Older;
    var t := DeletedRoute(s, n, stuck);
    DeletedKeepsOthers(s, n, stuck);
    var older := OlderThan(s.routes, m);
    assert OlderThan(t.routes, m) == older - {n};
    DeleteFirst(s, n, older - {n}, stuck);
    if n in older {
      assert older - {n} + {n} == older;
    } else {
      assert older - {n} == older;
      FewerBytes(s, older, older + {n}, stuck);
    }
  }

  lemma DeletedKeepsOthers(s: Store, n: string, stuck: set<string>)
    requires Deletable(n)
    ensures DeletedRoute(s, n, stuck).routes == s.routes - {n}
  {
    hide SegmentBlobs, RouteBlobs, CacheFiles;
  }

  /** The loop picks an undeletable route: nothing changes, and it is held up. */
  lemma PickedIsHeldUp(s: Store, m: string, cap: nat, stuck: set<string>)
    requires !Deletable(m) && Oldest(s.routes, s.routes.Keys, m) && Bytes(s) > cap
    ensures HoldsUp(s, m, cap, stuck) && DeletedRoute(s, m, stuck) == s
  {
    hide Bytes;
    assert OlderThan(s.routes, m) == {};
    NothingDeleted(s, stuck);
  }

  /** No order of choices, among routes equally old, makes the loop run longer than the table. */
  lemma {:induction false} NotHeldUpEnds(s: Store, names: seq<string>, cap: nat, stuck: set<string>)
    requires !HeldUp(s, cap, stuck) && SizeTrace(s, names, cap, stuck)
    ensures |names| <= |s.routes|
    decreases |names|
  {
    hide DeletedRoute, Bytes, HoldsUp, Older;
    if names != [] {
      var n := names[0];
      assert Deletable(n) by {
        if !Deletable(n) {
          PickedIsHeldUp(s, n, cap, stuck);
        }
      }
      var t := DeletedRoute(s, n, stuck);
      DeletedKeepsOthers(s, n, stuck);
      OneRouteFewer(s.routes, n);
      forall m ensures !HoldsUp(t, m, cap, stuck) {
        NotHeldAfter(s, n, m, cap, stuck);
      }
      NotHeldUpEnds(t, names[1..], cap, stuck);
    }
  }

  lemma OneRouteFewer(routes: Routes, n: string)
    requires n in routes
    ensures |routes - {n}| == |routes| - 1
  {
    assert (routes - {n}).Keys == routes.Keys - {n};
    assert |routes - {n}| == |(routes - {n}).Keys| && |routes| == |routes.Keys|;
  }

  lemma NotHeldAfter(s: Store, n: string, m: string, cap: nat, stuck: set<string>)
    requires Deletable(n) && n in s.routes && !HoldsUp(s, m, cap, stuck)
    ensures !HoldsUp(DeletedRoute(s, n, stuck), m, cap, stuck)
  {
    hide DeletedRoute, DeletedSet, Bytes, OlderThan;
    DeletedKeepsOthers(s, n, stuck);
    if m in s.routes && !Deletable(m) {
      OneTurn(s, n, m, cap, stuck);
    }
  }

  /** A held-up loop can take any number of turns: first everything older, then the same route again and again. */
  lemma {:induction false} HeldUpGoesOn(s: Store, m: string, cap: nat, stuck: set<string>, turns: nat)
    returns (names: seq<string>)
    requires HoldsUp(s, m, cap, stuck)
    ensures SizeTrace(s, names, cap, stuck) && |names| >= turns
    decreases |OlderThan(s.routes, m)|, turns
  {
    hide DeletedRoute, Bytes, DeletedSet;
    var older := OlderThan(s.routes, m);
    FewerBytes(s, {}, older, stuck);
    NothingDeleted(s, stuck);
    if turns == 0 {
      names := [];
    } else if older == {} {
      forall n | n in s.routes ensures !Older(s.routes[n], s.routes[m]) {
        assert n !in older;
      }
      assert Oldest(s.routes, s.routes.Keys, m);
      PickedIsHeldUp(s, m, cap, stuck);
      var rest := HeldUpGoesOn(s, m, cap, stuck, turns - 1);
      names := [m] + rest;
      assert names[1..] == rest;
    } else {
      var a := Member(older);
      OldestExists(s.routes, older, a);
      var n :| Oldest(s.routes, older, n);
      assert Oldest(s.routes, s.routes.Keys, n);
      OneTurn(s, n, m, cap, stuck);
      var rest := HeldUpGoesOn(DeletedRoute(s, n, stuck), m, cap, stuck, turns - 1);
      names := [n] + rest;
      assert names[1..] == rest;
    }
  }

  ghost predicate AlwaysEnds(s: Store, cap: nat, stuck: set<string>) {
    forall names | SizeTrace(s, names, cap, stuck) :: |names| <= |s.routes|
  }

  /**
   * Whatever routes the table holds: the cap loop always ends, within one turn for each route, exactly if no route
   * with a malformed name is left over the cap when everything older than it has been deleted.
   */
  lemma CapLoopEndsIff(s: Store, cap: nat, stuck: set<string>)
    ensures AlwaysEnds(s, cap, stuck) <==> !HeldUp(s, cap, stuck)
  {
    hide HoldsUp, SizeTrace;
    if HeldUp(s, cap, stuck) {
      var m :| HoldsUp(s, m, cap, stuck);
      var names := HeldUpGoesOn(s, m, cap, stuck, |s.routes| + 1);
    } else {
      forall names | SizeTrace(s, names, cap, stuck) ensures |names| <= |s.routes| {
        NotHeldUpEnds(s, names, cap, stuck);
      }
    }
  }

  /** So it always ends on a table of well-formed names. */
  lemma NamedNeverHeldUp(s: Store, cap: nat, stuck: set<string>)
    requires Named(s)
    ensures AlwaysEnds(s, cap, stuck)
  {
    CapLoopEndsIff(s, cap, stuck);
  }
}
