/** Per-route sync overrides: how they are stored, and why a user's deletion sticks. */
module Overrides {
  import opened Wrappers
  import opened Text
  import opened Names
  import opened FileTypes
  import opened Segments
  import opened SyncQueue
  import opened DevSync
  import opened Ingest

  // ---- the stored form -----------------------------------------------------------

  /** Keep the known optional types, in their fixed order. */
  function CleanTypes(types: seq<string>, known: seq<FileType> := OPTIONAL_TYPES): (r: seq<string>)
    ensures forall x :: x in r <==> x in types && exists t | t in known :: Token(t) == x
  {
    if known == [] then []
    else
      var rest := CleanTypes(types, known[1..]);
      assert known == [known[0]] + known[1..];
      if Token(known[0]) in types then [Token(known[0])] + rest else rest
  }

  function PlaceOf(x: string, known: seq<FileType>): nat {
    if known == [] || Token(known[0]) == x then 0 else 1 + PlaceOf(x, known[1..])
  }

  predicate Increasing(xs: seq<string>, known: seq<FileType>) {
    forall i, j | 0 <= i < j < |xs| :: PlaceOf(xs[i], known) < PlaceOf(xs[j], known)
  }

  /** The kept types stand in the fixed order of the known ones, none twice. */
  lemma {:induction false} CleanTypesInOrder(types: seq<string>, known: seq<FileType>)
    requires forall i, j | 0 <= i < j < |known| :: Token(known[i]) != Token(known[j])
    ensures Increasing(CleanTypes(types, known), known)
    decreases |known|
  {
    if known != [] {
      var rest := CleanTypes(types, known[1..]);
      CleanTypesInOrder(types, known[1..]);
      forall x | x in rest ensures x != Token(known[0]) {
        var t :| t in known[1..] && Token(t) == x;
        var k :| 0 <= k < |known[1..]| && known[1..][k] == t;
        assert known[k + 1] == t;
      }
      PlacesShift(rest, known);
    }
  }

  lemma PlacesShift(rest: seq<string>, known: seq<FileType>)
    requires known != [] && Increasing(rest, known[1..]) && Token(known[0]) !in rest
    ensures Increasing(rest, known) && Increasing([Token(known[0])] + rest, known)
  {
    forall i | 0 <= i < |rest| ensures PlaceOf(rest[i], known) == 1 + PlaceOf(rest[i], known[1..]) {
      assert rest[i] in rest;
    }
  }

  function Encode(types: seq<string>): string {
    Join(CleanTypes(types), ',')
  }

  function NonEmpty(parts: seq<string>): seq<string> {
    if parts == [] then []
    else (if parts[0] == "" then [] else [parts[0]]) + NonEmpty(parts[1..])
  }

  function Decode(stored: string): seq<string> {
    NonEmpty(Split(stored, ','))
  }

  lemma {:induction false} NonEmptyAll(parts: seq<string>)
    requires "" !in parts
    ensures NonEmpty(parts) == parts
  {
    if parts != [] {
      assert parts == [parts[0]] + parts[1..];
      NonEmptyAll(parts[1..]);
    }
  }

  lemma TokensAreFields(t: FileType)
    ensures Token(t) != "" && ',' !in Token(t)
  {
  }

  /** A stored choice reads back as the cleaned choice; the empty choice stays a choice. */
  lemma OverrideRoundTrip(types: seq<string>)
    ensures Decode(Encode(types)) == CleanTypes(types)
  {
    var clean := CleanTypes(types);
    forall x | x in clean ensures x != "" && ',' !in x {
      var t :| t in OPTIONAL_TYPES && Token(t) == x;
      TokensAreFields(t);
    }
    if clean == [] {
      NoCharNoSplit("", ',');
    } else {
      SplitJoin(clean, ',');
      NonEmptyAll(clean);
    }
  }

  // ---- resolution ------------------------------------------------------------------

  /** `get_route_override`: no row or NULL inherits; a value, even empty, is a choice. */
  function RouteOverride(db: Db, route: string): Option<seq<string>> {
    if route in db.routes && db.routes[route].syncTypes.Some? then Some(Decode(db.routes[route].syncTypes.value))
    else None
  }

  function EffectiveTypes(db: Db, route: string, global: seq<string>): seq<string> {
    RouteOverride(db, route).GetOr(global)
  }

  /** `set_route_override`: an UPDATE, so it needs the row. */
  function WithOverride(db: Db, route: string, types: Option<seq<string>>): Db {
    if route !in db.routes then db
    else
      var stored := if types.Some? then Some(Encode(types.value)) else None;
      db.(routes := db.routes[route := db.routes[route].(syncTypes := stored)])
  }

  /** The part of a route name after the dongle id, for the routes of that device. */
  function TsOf(name: string, dongle: string): Option<string> {
    match SplitOnce(name, "|")
    case None => None
    case Some((d, ts)) => if d == dongle then Some(ts) else None
  }

  /** `load_route_overrides`: every route row of the device, by `ts`. */
  function LoadOverrides(db: Db, dongle: string): map<string, Option<seq<string>>> {
    map name | name in db.routes && TsOf(name, dongle).Some? :: TsOf(name, dongle).value := RouteOverride(db, name)
  }

  lemma LoadedOverride(db: Db, dongle: string, ts: string)
    requires '|' !in dongle
    ensures ts in LoadOverrides(db, dongle) <==> RouteName(dongle, ts) in db.routes
    ensures ts in LoadOverrides(db, dongle) ==>
              LoadOverrides(db, dongle)[ts] == RouteOverride(db, RouteName(dongle, ts))
  {
    RouteNameSplits(dongle, ts);
    assert TsOf(RouteName(dongle, ts), dongle) == Some(ts);
  }

  function Without(types: seq<string>, gone: seq<string>): (r: seq<string>)
    ensures forall x :: x in r <==> x in types && x !in gone
  {
    if types == [] then []
    else
      assert types == [types[0]] + types[1..];
      (if types[0] in gone then [] else [types[0]]) + Without(types[1..], gone)
  }

  /** The server side of a user's deletion: purge, then pin the remaining types for this drive. */
  function DeletedAndPinned(db: Db, dongle: string, ts: string, types: seq<string>, global: seq<string>): Db {
    var route := RouteName(dongle, ts);
    var purged := Deleted(db, dongle, ts, SpecOf(types));
    WithOverride(purged, route, Some(Without(EffectiveTypes(purged, route, global), types)))
  }

  // ---- a deletion sticks -------------------------------------------------------------

  /** After a deletion, exactly the still-effective optional types that were not deleted are selected. */
  lemma PinnedTypes(db: Db, dongle: string, ts: string, types: seq<string>, global: seq<string>,
                    later: Db, default: seq<string>, opts: SyncOpts)
    requires opts.types == None
    requires '|' !in dongle && RouteName(dongle, ts) in db.routes && RouteName(dongle, ts) in later.routes
    requires later.routes[RouteName(dongle, ts)].syncTypes
          == DeletedAndPinned(db, dongle, ts, types, global).routes[RouteName(dongle, ts)].syncTypes
    ensures var selected := TypesFor(opts, TypeRules(default, LoadOverrides(later, dongle)), ts);
            forall t | t in OPTIONAL_TYPES ::
              Token(t) in selected <==>
                Token(t) in EffectiveTypes(db, RouteName(dongle, ts), global) && Token(t) !in types
  {
    hide Deleted, Encode, Decode;
    var route := RouteName(dongle, ts);
    var kept := Without(EffectiveTypes(db, route, global), types);
    DeleteKeepsOverrides(db, dongle, ts, SpecOf(types));
    LoadedOverride(later, dongle, ts);
    OverrideRoundTrip(kept);
    assert RouteOverride(later, route) == Some(CleanTypes(kept));
  }

  lemma DeleteKeepsOverrides(db: Db, dongle: string, ts: string, types: set<FileType>)
    ensures var after := Deleted(db, dongle, ts, types);
            after.routes.Keys == db.routes.Keys
            && forall r | r in db.routes :: after.routes[r].syncTypes == db.routes[r].syncTypes
  {
    hide Aggregated, Numbers;
  }

  /** While the override is untouched, no later type-resolving scan enqueues a file of a deleted type, qlogs apart. */
  lemma DeletionSticks(db: Db, dongle: string, ts: string, types: seq<string>, global: seq<string>,
                       later: Db, default: seq<string>, opts: SyncOpts, reg: Registry, path: string)
    requires opts.types == None
    requires '|' !in dongle && RouteName(dongle, ts) in db.routes && RouteName(dongle, ts) in later.routes
    requires later.routes[RouteName(dongle, ts)].syncTypes
          == DeletedAndPinned(db, dongle, ts, types, global).routes[RouteName(dongle, ts)].syncTypes
    requires ParseRemotePath(path).Some? && ParseRemotePath(path).value.0 == ts
    requires DeletedType(ParseRemotePath(path).value.2, types)
    ensures Needed(dongle, opts, reg, TypeRules(default, LoadOverrides(later, dongle)), path) == None
  {
    hide ParseRemotePath, LoadOverrides, DeletedAndPinned, FirstOf;
    PinnedTypes(db, dongle, ts, types, global, later, default, opts);
  }

  /** A file of one of these types that is not pulled as a qlog. */
  predicate DeletedType(file: string, types: seq<string>) {
    !Has(file, Qlog) && OptionalType(file).Some? && Token(OptionalType(file).value) in types
  }

  /** For a drive that still has unregistered files of the type, the pin holds exactly if the route row exists. */
  lemma DeletionSticksIff(db: Db, dongle: string, ts: string, types: seq<string>, global: seq<string>,
                          reg: Registry, seg: int, file: string)
    requires '|' !in dongle && Addressable(ts, seg, file) && DeletedType(file, types)
    requires !FileTypes.Registered(RowOf(reg, SegmentName(dongle, ts, seg)), file)
    ensures RouteName(dongle, ts) in db.routes
       <==> forall default: seq<string>, opts: SyncOpts | opts.types == None ::
              Needed(dongle, opts, reg,
                     TypeRules(default, LoadOverrides(DeletedAndPinned(db, dongle, ts, types, global), dongle)),
                     RemotePath(ts, seg, file)) == None
  {
    hide LoadOverrides, FirstOf, Deleted, RemotePath, ParseRemotePath;
    var path := RemotePath(ts, seg, file);
    var after := DeletedAndPinned(db, dongle, ts, types, global);
    RemotePathRoundTrip(ts, seg, file);
    DeleteKeepsOverrides(db, dongle, ts, SpecOf(types));
    if RouteName(dongle, ts) in db.routes {
      forall default: seq<string>, opts: SyncOpts | opts.types == None
        ensures Needed(dongle, opts, reg, TypeRules(default, LoadOverrides(after, dongle)), path) == None
      {
        DeletionSticks(db, dongle, ts, types, global, after, default, opts, reg, path);
      }
    } else {
      var default := [Token(OptionalType(file).value)];
      LoadedOverride(after, dongle, ts);
      assert Needed(dongle, SyncOpts(None, None), reg, TypeRules(default, LoadOverrides(after, dongle)), path).Some?;
    }
  }

  // ---- which runs leave the override alone ----------------------------------------------

  /** What the server does to the tables, other than dropping rows. */
  datatype Action =
    | IngestFile(dongle: string, ts: string, seg: int, file: string, body: Body)
    | Recompute(route: string)
    | UserDelete(dongle: string, ts: string, types: seq<string>, global: seq<string>)
    | SetOverride(route: string, choice: Option<seq<string>>)

  function Act(db: Db, a: Action): Db {
    match a
    case IngestFile(dongle, ts, seg, file, body) => Ingested(db, dongle, ts, seg, file, body).0
    case Recompute(route) => Recomputed(db, route)
    case UserDelete(dongle, ts, types, global) => DeletedAndPinned(db, dongle, ts, types, global)
    case SetOverride(route, choice) => WithOverride(db, route, choice)
  }

  /** Only an explicit choice or another deletion for the drive touches its override. */
  predicate Touches(a: Action, route: string) {
    match a
    case UserDelete(dongle, ts, _, _) => RouteName(dongle, ts) == route
    case SetOverride(r, _) => r == route
    case _ => false
  }

  function ActAll(db: Db, actions: seq<Action>): Db
    decreases |actions|
  {
    if actions == [] then db else ActAll(Act(db, actions[0]), actions[1..])
  }

  lemma ActKeepsOverride(db: Db, a: Action, route: string)
    requires route in db.routes && !Touches(a, route)
    ensures route in Act(db, a).routes && Act(db, a).routes[route].syncTypes == db.routes[route].syncTypes
  {
    hide Aggregated, FileKind, BlobKey, RouteName, Encode, Without, SpecOf, Numbers, EffectiveTypes;
    match a
    case IngestFile(dongle, ts, seg, file, body) => IngestKeepsOverride(db, dongle, ts, seg, file, body, route);
    case Recompute(_) =>
    case UserDelete(dongle, ts, types, global) => DeleteKeepsOverrides(db, dongle, ts, SpecOf(types));
    case SetOverride(_, _) =>
  }

  lemma IngestKeepsOverride(db: Db, dongle: string, ts: string, seg: int, file: string, body: Body, route: string)
    requires route in db.routes
    ensures var after := Ingested(db, dongle, ts, seg, file, body).0;
            route in after.routes && after.routes[route].syncTypes == db.routes[route].syncTypes
  {
    hide Aggregated, FileKind, BlobKey, RouteName, OwnUrl, CamUrls, Numbers;
  }

  /** On every run that leaves the drive's own override alone, a deletion keeps sticking. */
  lemma {:induction false} RunsKeepOverride(db: Db, actions: seq<Action>, route: string)
    requires route in db.routes && forall a | a in actions :: !Touches(a, route)
    ensures route in ActAll(db, actions).routes
    ensures ActAll(db, actions).routes[route].syncTypes == db.routes[route].syncTypes
    decreases |actions|
  {
    hide Act, Touches;
    if actions != [] {
      ActKeepsOverride(db, actions[0], route);
      RunsKeepOverride(Act(db, actions[0]), actions[1..], route);
    }
  }

  lemma DeletionSticksOnRuns(db: Db, dongle: string, ts: string, types: seq<string>, global: seq<string>,
                             actions: seq<Action>, default: seq<string>, opts: SyncOpts, reg: Registry, path: string)
    requires opts.types == None
    requires '|' !in dongle && RouteName(dongle, ts) in db.routes
    requires forall a | a in actions :: !Touches(a, RouteName(dongle, ts))
    requires ParseRemotePath(path).Some? && ParseRemotePath(path).value.0 == ts
    requires DeletedType(ParseRemotePath(path).value.2, types)
    ensures var later := ActAll(DeletedAndPinned(db, dongle, ts, types, global), actions);
            Needed(dongle, opts, reg, TypeRules(default, LoadOverrides(later, dongle)), path) == None
  {
    hide ParseRemotePath, LoadOverrides, Act, Touches, RouteName, DeletedType, Needed;
    var after := DeletedAndPinned(db, dongle, ts, types, global);
    var route := RouteName(dongle, ts);
    DeleteKeepsOverrides(db, dongle, ts, SpecOf(types));
    RunsKeepOverride(after, actions, route);
    DeletionSticks(db, dongle, ts, types, global, ActAll(after, actions), default, opts, reg, path);
  }
}
