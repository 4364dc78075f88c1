/** Sweeps, builds, user actions and restarts interleaved: a disabled movie stays disabled. */
module MovieRaces {
  import opened Folds
  import opened Wrappers
  import opened Text
  import opened Names
  import opened Retention
  import opened Movies

  /** A build in progress: encoding, about to move the file into place, or about to record. */
  datatype Stage =
    | Ready
    | Encoding(slot: Slot, segCount: nat)
    | Storing(slot: Slot, segCount: nat, bytes: nat)
    | Recording(slot: Slot, segCount: nat, bytes: nat)

  /** The one sweeper: its row snapshot, then its to-do list. */
  datatype Sweeper = Idle | Gathering(built: map<Slot, Row>) | Building(todo: seq<Slot>, stage: Stage)

  datatype Sys = Sys(segments: Coverage, rows: map<Slot, Row>, blobs: set<string>, sweeper: Sweeper)

  datatype Event =
    | SetSegments(segments: Coverage)
    | ReadRows
    | MakeTodo(routes: set<string>, todo: seq<Slot>)
    | StartBuild
    | EndEncode(outcome: Outcome)
    | StoreBlob
    | Record
    | EndSweep
    | UnlinkBlob(slot: Slot)     // the first half of disable, delete and re-encode
    | DisableRow(slot: Slot)     // the second half of disable
    | DeleteRow(slot: Slot)      // the second half of movie::delete
    | DropEnabledRows            // the end of re-encode all
    | PurgeFailed                // at startup
    | Restart

  /** A slot of a route as the tables name it. */
  predicate WellSlot(k: Slot) {
    k.1 in MOVIE_CAMS && SplitOnce(k.0, "|").Some? && '_' !in SplitOnce(k.0, "|").value.0
  }

  function BlobOf(k: Slot): string
    requires WellSlot(k)
  {
    var (dongle, ts) := SplitOnce(k.0, "|").value;
    MovieKey(dongle, ts, k.1)
  }

  /** Different slots have different blobs. */
  lemma BlobsDiffer(a: Slot, b: Slot)
    requires WellSlot(a) && WellSlot(b) && BlobOf(a) == BlobOf(b)
    ensures a == b
  {
    hide Key, DashTail, MovieKey;
    var (d1, t1) := SplitOnce(a.0, "|").value;
    var (d2, t2) := SplitOnce(b.0, "|").value;
    RouteKeysAreKeys(d1, t1, a.1);
    RouteKeysAreKeys(d2, t2, b.1);
    MidTails();
    CamTails(a.1);
    CamTails(b.1);
    KeyInjective(d1, t1, "movie", a.1 + ".mp4", d2, t2, "movie", b.1 + ".mp4");
    assert (a.1 + ".mp4")[..|a.1|] == a.1 && (b.1 + ".mp4")[..|b.1|] == b.1;
  }

  // ---- steps -------------------------------------------------------------------------

  predicate DueAt(s: Sys, built: map<Slot, Row>, k: Slot)
    requires WellSlot(k)
  {
    Due(RowOf(built, k), |Segments(s.segments, k.0)|, |Covered(s.segments, k.0, k.1)|, BlobOf(k) in s.blobs)
  }

  /** The to-do list of a sweep that has read these routes and rows, by the coverage and files of the moment. */
  ghost predicate Made(s: Sys, built: map<Slot, Row>, routes: set<string>, todo: seq<Slot>) {
    Distinct(todo) && forall k :: k in todo <==> k.0 in routes && WellSlot(k) && DueAt(s, built, k)
  }

  ghost predicate Enabled(s: Sys, e: Event) {
    match e
    case ReadRows => s.sweeper.Idle?
    case MakeTodo(routes, todo) => s.sweeper.Gathering? && Made(s, s.sweeper.built, routes, todo)
    case StartBuild => s.sweeper.Building? && s.sweeper.stage.Ready? && s.sweeper.todo != []
    case EndEncode(_) => s.sweeper.Building? && s.sweeper.stage.Encoding?
    case StoreBlob => s.sweeper.Building? && s.sweeper.stage.Storing? && WellSlot(s.sweeper.stage.slot)
    case Record => s.sweeper.Building? && s.sweeper.stage.Recording?
    case EndSweep => s.sweeper.Building? && s.sweeper.stage.Ready?
    case UnlinkBlob(k) => WellSlot(k)
    case _ => true
  }

  function Step(s: Sys, e: Event): Sys
    requires Enabled(s, e)
  {
    match e
    case SetSegments(segments) => s.(segments := segments)
    case ReadRows => s.(sweeper := Gathering(s.rows))
    case MakeTodo(_, todo) => s.(sweeper := Building(todo, Ready))
    case StartBuild =>
      var k, n := s.sweeper.todo[0], |Covered(s.segments, s.sweeper.todo[0].0, s.sweeper.todo[0].1)|;
      s.(sweeper := Building(s.sweeper.todo[1..], if n == 0 then Ready else Encoding(k, n)))
    case EndEncode(outcome) =>
      var Encoding(k, n) := s.sweeper.stage;
      var stage := match outcome
        case Encoded(bytes) => Storing(k, n, bytes)
        case Aborted => Ready
        case _ => Recording(k, n, 0);
      s.(sweeper := Building(s.sweeper.todo, stage))
    case StoreBlob =>
      var Storing(k, n, bytes) := s.sweeper.stage;
      s.(blobs := s.blobs + {BlobOf(k)}, sweeper := Building(s.sweeper.todo, Recording(k, n, bytes)))
    case Record =>
      var Recording(k, n, bytes) := s.sweeper.stage;
      s.(rows := WithRecord(s.rows, k, n, bytes), sweeper := Building(s.sweeper.todo, Ready))
    case EndSweep => s.(sweeper := Idle)
    case UnlinkBlob(k) => s.(blobs := s.blobs - {BlobOf(k)})
    case DisableRow(k) =>
      s.(rows := s.rows[k := Row(if k in s.rows then s.rows[k].segCount else 0, 0, true)])
    case DeleteRow(k) => s.(rows := s.rows - {k})
    case DropEnabledRows => s.(rows := map k | k in s.rows && s.rows[k].disabled :: s.rows[k])
    case PurgeFailed => s.(rows := map k | k in s.rows && (s.rows[k].disabled || s.rows[k].bytes != 0) :: s.rows[k])
    case Restart => s.(sweeper := Idle)
  }

  ghost predicate Runs(s: Sys, es: seq<Event>, t: Sys)
    decreases |es|
  {
    if es == [] then s == t else Enabled(s, es[0]) && Runs(Step(s, es[0]), es[1..], t)
  }

  predicate Vetoed(s: Sys, k: Slot) { k in s.rows && s.rows[k].disabled }

  /** What the user is shown. */
  predicate ShownReady(s: Sys, k: Slot)
    requires WellSlot(k)
  {
    k in s.rows && !s.rows[k].disabled && BlobOf(k) in s.blobs
  }

  /** No event of the run deletes the row of the slot. */
  predicate NotRebuilt(es: seq<Event>, k: Slot) {
    DeleteRow(k) !in es
  }

  // ---- disabled stays disabled --------------------------------------------------------

  lemma StepKeepsVeto(s: Sys, e: Event, k: Slot)
    requires Enabled(s, e) && Vetoed(s, k) && e != DeleteRow(k)
    ensures Vetoed(Step(s, e), k)
  {
    hide BlobOf, WellSlot, Covered, Made;
  }

  /** On every run without a delete of the row, a disabled movie stays disabled and is never shown ready. */
  lemma DisabledStays(s: Sys, es: seq<Event>, t: Sys, k: Slot)
    requires Runs(s, es, t) && Vetoed(s, k) && NotRebuilt(es, k) && WellSlot(k)
    ensures Vetoed(t, k) && !ShownReady(t, k)
  {
    RunKeepsVeto(s, es, t, k);
    VetoHides(t, k);
  }

  lemma VetoHides(s: Sys, k: Slot)
    requires Vetoed(s, k) && WellSlot(k)
    ensures !ShownReady(s, k)
  {
  }

  /** A sweep has read the rows before the veto, and has still to make its to-do list. */
  predicate StaleSnapshot(s: Sys, k: Slot) {
    s.sweeper.Gathering? && !(k in s.sweeper.built && s.sweeper.built[k].disabled)
  }

  /** A sweep may still build the slot: its snapshot or its to-do list is older than the veto. */
  predicate InFlight(s: Sys, k: Slot) {
    match s.sweeper
    case Idle => false
    case Gathering(built) => StaleSnapshot(s, k)
    case Building(todo, stage) => k in todo || ((stage.Encoding? || stage.Storing?) && stage.slot == k)
  }

  lemma StepKeepsOut(s: Sys, e: Event, k: Slot)
    requires Enabled(s, e) && Vetoed(s, k) && !InFlight(s, k)
    ensures !InFlight(Step(s, e), k)
  {
    hide BlobOf, WellSlot, Covered;
  }

  lemma StepKeepsGone(s: Sys, e: Event, k: Slot)
    requires Enabled(s, e) && !InFlight(s, k) && WellSlot(k) && BlobOf(k) !in s.blobs
    ensures BlobOf(k) !in Step(s, e).blobs
  {
    hide BlobOf, WellSlot, Covered, Made;
    if e.StoreBlob? && BlobOf(s.sweeper.stage.slot) == BlobOf(k) {
      BlobsDiffer(s.sweeper.stage.slot, k);
    }
  }

  /** No to-do list that the run computes holds the slot. */
  predicate NeverListed(es: seq<Event>, k: Slot) {
    forall e | e in es :: !(e.MakeTodo? && k in e.todo)
  }

  /** Once out of flight a disabled slot stays out of it: it is in no later to-do list, and no build of it runs. */
  lemma {:induction false} OutOfFlightStays(s: Sys, es: seq<Event>, t: Sys, k: Slot)
    requires Runs(s, es, t) && Vetoed(s, k) && NotRebuilt(es, k) && !InFlight(s, k)
    ensures !InFlight(t, k) && NeverListed(es, k)
    decreases |es|
  {
    hide Step, Enabled, WellSlot;
    if es != [] {
      assert es == [es[0]] + es[1..];
      StepKeepsVeto(s, es[0], k);
      StepKeepsOut(s, es[0], k);
      OutOfFlightStays(Step(s, es[0]), es[1..], t, k);
      if es[0].MakeTodo? {
        ListedIsInFlight(s, es[0], k);
      }
    }
  }

  lemma ListedIsInFlight(s: Sys, e: Event, k: Slot)
    requires Enabled(s, e) && e.MakeTodo?
    ensures k in e.todo <==> InFlight(Step(s, e), k)
  {
    hide Made;
  }

  /** And its blob, once gone, stays gone. */
  lemma {:induction false} OutOfFlightStaysGone(s: Sys, es: seq<Event>, t: Sys, k: Slot)
    requires Runs(s, es, t) && Vetoed(s, k) && NotRebuilt(es, k) && !InFlight(s, k)
    requires WellSlot(k) && BlobOf(k) !in s.blobs
    ensures BlobOf(k) !in t.blobs
    decreases |es|
  {
    hide Step, Enabled, BlobOf, WellSlot;
    if es != [] {
      assert es == [es[0]] + es[1..];
      StepKeepsVeto(s, es[0], k);
      StepKeepsOut(s, es[0], k);
      StepKeepsGone(s, es[0], k);
      OutOfFlightStaysGone(Step(s, es[0]), es[1..], t, k);
    }
  }

  /** Whatever was in flight when the veto was set, the end of that sweep or a restart puts the slot out of flight. */
  lemma SweepEndsFlight(s: Sys, es: seq<Event>, e: Event, fs: seq<Event>, t: Sys, k: Slot)
    requires Runs(s, es + [e] + fs, t) && Vetoed(s, k) && NotRebuilt(es + [e] + fs, k)
    requires e.EndSweep? || e.Restart?
    ensures !InFlight(t, k) && NeverListed(fs, k)
  {
    hide Step, Enabled, Vetoed, WellSlot, InFlight;
    assert es + [e] + fs == es + ([e] + fs);
    var m := RunSplits(s, es, [e] + fs, t);
    assert forall x | x in es :: x in es + [e] + fs;
    assert ([e] + fs)[0] == e && ([e] + fs)[1..] == fs;
    RunKeepsVeto(s, es, m, k);
    StepKeepsVeto(m, e, k);
    assert !InFlight(Step(m, e), k) by { RestingIsOut(m, e, k); }
    OutOfFlightStays(Step(m, e), fs, t, k);
  }

  lemma RestingIsOut(s: Sys, e: Event, k: Slot)
    requires Enabled(s, e) && (e.EndSweep? || e.Restart?)
    ensures !InFlight(Step(s, e), k)
  {
  }

  lemma {:induction false} RunKeepsVeto(s: Sys, es: seq<Event>, t: Sys, k: Slot)
    requires Runs(s, es, t) && Vetoed(s, k) && NotRebuilt(es, k)
    ensures Vetoed(t, k)
    decreases |es|
  {
    hide Step, Enabled, Vetoed;
    if es != [] {
      assert es == [es[0]] + es[1..];
      StepKeepsVeto(s, es[0], k);
      RunKeepsVeto(Step(s, es[0]), es[1..], t, k);
    }
  }

  lemma {:induction false} RunSplits(s: Sys, es: seq<Event>, fs: seq<Event>, t: Sys) returns (m: Sys)
    requires Runs(s, es + fs, t)
    ensures Runs(s, es, m) && Runs(m, fs, t)
    decreases |es|
  {
    hide Step, Enabled;
    if es == [] {
      assert es + fs == fs;
      m := s;
    } else {
      assert (es + fs)[0] == es[0] && (es + fs)[1..] == es[1..] + fs;
      m := RunSplits(Step(s, es[0]), es[1..], fs, t);
    }
  }

  // ---- and exactly when a build can still leave a blob behind ------------------------------------

  lemma Prepend(s: Sys, e: Event, es: seq<Event>, t: Sys)
    requires Enabled(s, e) && Runs(Step(s, e), es, t)
    ensures Runs(s, [e] + es, t)
  {
    assert ([e] + es)[0] == e && ([e] + es)[1..] == es;
  }

  /** The camera's file has arrived for segment n, and for all others of the drive; nothing is taken away. */
  function Filled(c: Coverage, k: Slot, n: nat): Coverage {
    map x | x in c.Keys + {(k.0, n)} ::
      if x.0 == k.0 then (if x in c then c[x] else {}) + {k.1} else c[x]
  }

  lemma FilledCovers(c: Coverage, k: Slot, n: nat)
    ensures var d := Filled(c, k, n);
            && Segments(d, k.0) == Covered(d, k.0, k.1) == Segments(c, k.0) + {(k.0, n)}
            && (forall x | x in c :: x in d && c[x] <= d[x] && (x.0 != k.0 ==> d[x] == c[x]))
  {
  }

  lemma NewSegment(c: Coverage, route: string) returns (n: nat)
    ensures (route, n) !in c
  {
    var numbers := set x | x in c :: x.1;
    n := MaxIntOr(-1, [-1] + Ascending(numbers)) + 1;
    assert -1 in [-1] + Ascending(numbers);
    assert (route, n) in c ==> (route, n).1 in numbers;
  }

  /** More files of the camera can always make a movie due that was never vetoed. */
  lemma CanFallDue(c: Coverage, k: Slot, row: Option<Row>, stored: bool) returns (d: Coverage)
    requires row.Some? ==> !row.value.disabled
    ensures Due(row, |Segments(d, k.0)|, |Covered(d, k.0, k.1)|, stored)
    ensures forall x | x in c :: x in d && c[x] <= d[x] && (x.0 != k.0 ==> d[x] == c[x])
  {
    d := Filled(c, k, 0);
    FilledCovers(c, k, 0);
    if row.Some? && row.value.segCount == |Segments(d, k.0)| {
      var n := NewSegment(d, k.0);
      FilledCovers(d, k, n);
      assert Segments(Filled(d, k, n), k.0) == Segments(d, k.0) + {(k.0, n)} && (k.0, n) !in Segments(d, k.0);
      d := Filled(d, k, n);
    }
  }

  lemma LeakFromStoring(s: Sys, k: Slot) returns (es: seq<Event>, t: Sys)
    requires s.sweeper.Building? && s.sweeper.stage.Storing? && s.sweeper.stage.slot == k && WellSlot(k)
    ensures Runs(s, es, t) && NotRebuilt(es, k) && BlobOf(k) in t.blobs
  {
    hide BlobOf, WellSlot;
    t := Step(s, StoreBlob);
    es := [StoreBlob];
    Prepend(s, StoreBlob, [], t);
    assert [StoreBlob] + [] == es;
  }

  lemma LeakFromEncoding(s: Sys, k: Slot) returns (es: seq<Event>, t: Sys)
    requires s.sweeper.Building? && s.sweeper.stage.Encoding? && s.sweeper.stage.slot == k && WellSlot(k)
    ensures Runs(s, es, t) && NotRebuilt(es, k) && BlobOf(k) in t.blobs
  {
    hide BlobOf, WellSlot;
    var e := EndEncode(Encoded(1));
    var rest;
    rest, t := LeakFromStoring(Step(s, e), k);
    Prepend(s, e, rest, t);
    es := [e] + rest;
  }

  /** From a ready builder: abort whatever comes before the slot, and build it. */
  lemma {:induction false} LeakFromTodo(s: Sys, k: Slot, i: nat) returns (es: seq<Event>, t: Sys)
    requires s.sweeper.Building? && s.sweeper.stage.Ready? && WellSlot(k) && Covered(s.segments, k.0, k.1) != {}
    requires i < |s.sweeper.todo| && s.sweeper.todo[i] == k && k !in s.sweeper.todo[..i]
    ensures Runs(s, es, t) && NotRebuilt(es, k) && BlobOf(k) in t.blobs
    decreases i
  {
    hide BlobOf, WellSlot, Covered, Runs;
    var s1 := Step(s, StartBuild);
    var rest;
    if i == 0 {
      rest, t := LeakFromEncoding(s1, k);
    } else {
      assert s.sweeper.todo[0] in s.sweeper.todo[..i];
      assert s.sweeper.todo[1..][..i - 1] == s.sweeper.todo[..i][1..];
      if s1.sweeper.stage.Ready? {
        rest, t := LeakFromTodo(s1, k, i - 1);
      } else {
        rest, t := LeakFromTodo(Step(s1, EndEncode(Aborted)), k, i - 1);
        Prepend(s1, EndEncode(Aborted), rest, t);
        rest := [EndEncode(Aborted)] + rest;
      }
    }
    Prepend(s, StartBuild, rest, t);
    es := [StartBuild] + rest;
  }

  /** The slots a builder works on are well-formed. */
  predicate WellFormed(s: Sys) {
    s.sweeper.Building? && !s.sweeper.stage.Ready? ==> WellSlot(s.sweeper.stage.slot)
  }

  lemma FirstIndex(todo: seq<Slot>, k: Slot) returns (i: nat)
    requires k in todo
    ensures i < |todo| && todo[i] == k && k !in todo[..i]
  {
    i := 0;
    while todo[i] != k
      invariant i < |todo| && k !in todo[..i] && k in todo[i..]
      decreases |todo| - i
    {
      i := i + 1;
    }
  }

  lemma LeakFromReady(s: Sys, k: Slot) returns (es: seq<Event>, t: Sys)
    requires s.sweeper.Building? && s.sweeper.stage.Ready? && WellSlot(k) && k in s.sweeper.todo
    ensures Runs(s, es, t) && NotRebuilt(es, k) && BlobOf(k) in t.blobs
  {
    hide BlobOf, WellSlot, Filled, Runs;
    FilledCovers(s.segments, k, 0);
    var e := SetSegments(Filled(s.segments, k, 0));
    var i := FirstIndex(s.sweeper.todo, k);
    var rest;
    rest, t := LeakFromTodo(Step(s, e), k, i);
    Prepend(s, e, rest, t);
    es := [e] + rest;
  }

  lemma LeakFromStage(s: Sys, k: Slot) returns (es: seq<Event>, t: Sys)
    requires s.sweeper.Building? && WellSlot(k) && k in s.sweeper.todo && WellFormed(s)
    ensures Runs(s, es, t) && NotRebuilt(es, k) && BlobOf(k) in t.blobs
    decreases match s.sweeper.stage
              case Ready => 0
              case Recording(_, _, _) => 1
              case Storing(_, _, _) => 2
              case Encoding(_, _) => 1
  {
    hide BlobOf, WellSlot, Runs;
    if s.sweeper.stage.Ready? {
      es, t := LeakFromReady(s, k);
    } else {
      var e := match s.sweeper.stage
        case Recording(_, _, _) => Record
        case Storing(_, _, _) => StoreBlob
        case _ => EndEncode(Aborted);
      var rest;
      rest, t := LeakFromStage(Step(s, e), k);
      Prepend(s, e, rest, t);
      es := [e] + rest;
    }
  }

  /** There is a to-do list to make. */
  lemma CanMake(s: Sys, built: map<Slot, Row>, routes: set<string>) returns (todo: seq<Slot>)
    ensures Made(s, built, routes, todo)
  {
    hide BlobOf, WellSlot, Due;
    var due := set x, cam | x in s.segments && cam in MOVIE_CAMS && x.0 in routes && WellSlot((x.0, cam))
                            && DueAt(s, built, (x.0, cam)) :: (x.0, cam);
    todo := Listing(due);
    forall k: Slot | WellSlot(k) && DueAt(s, built, k)
      ensures k.1 in MOVIE_CAMS && exists x :: x in s.segments && x.0 == k.0
    {
      DueIsCovered(s, built, k);
    }
  }

  lemma DueIsCovered(s: Sys, built: map<Slot, Row>, k: Slot)
    requires WellSlot(k) && DueAt(s, built, k)
    ensures k.1 in MOVIE_CAMS && exists x :: x in s.segments && x.0 == k.0
  {
    var x := Member(Covered(s.segments, k.0, k.1));
  }

  /** Files that arrive before the sweep reads the coverage put the slot on its list. */
  lemma ListFromGathering(s: Sys, k: Slot) returns (es: seq<Event>, t: Sys)
    requires StaleSnapshot(s, k) && WellSlot(k)
    ensures Runs(s, es, t) && NotRebuilt(es, k) && !NeverListed(es, k)
    ensures t.sweeper.Building? && t.sweeper.stage.Ready? && k in t.sweeper.todo
  {
    hide BlobOf, WellSlot, Segments, Covered, Due;
    var built := s.sweeper.built;
    var d := CanFallDue(s.segments, k, RowOf(built, k), BlobOf(k) in s.blobs);
    var s1 := Step(s, SetSegments(d));
    assert DueAt(s1, built, k);
    var routes := {k.0} + set x | x in d :: x.0;
    var todo := CanMake(s1, built, routes);
    var e, f := SetSegments(d), MakeTodo(routes, todo);
    t := Step(s1, f);
    es := [e, f];
    assert es[1..] == [f] && es[1] == f && Runs(t, [], t) && Runs(s1, [f], t);
  }

  lemma LeakFromGathering(s: Sys, k: Slot) returns (es: seq<Event>, t: Sys)
    requires s.sweeper.Gathering? && InFlight(s, k) && WellSlot(k)
    ensures Runs(s, es, t) && NotRebuilt(es, k) && BlobOf(k) in t.blobs
  {
    hide BlobOf, WellSlot, Runs;
    var first, m := ListFromGathering(s, k);
    var rest;
    rest, t := LeakFromReady(m, k);
    RunsJoin(s, first, m, rest, t);
    es := first + rest;
  }

  lemma {:induction false} RunsJoin(s: Sys, es: seq<Event>, m: Sys, fs: seq<Event>, t: Sys)
    requires Runs(s, es, m) && Runs(m, fs, t)
    ensures Runs(s, es + fs, t)
    decreases |es|
  {
    hide Step, Enabled;
    if es == [] {
      assert es + fs == fs;
    } else {
      assert (es + fs)[0] == es[0] && (es + fs)[1..] == es[1..] + fs;
      RunsJoin(Step(s, es[0]), es[1..], m, fs, t);
    }
  }

  lemma StepKeepsFresh(s: Sys, e: Event, k: Slot)
    requires Enabled(s, e) && Vetoed(s, k) && !StaleSnapshot(s, k)
    ensures !StaleSnapshot(Step(s, e), k) && !(e.MakeTodo? && k in e.todo)
  {
    hide BlobOf, WellSlot, Covered;
  }

  lemma {:induction false} NeverListedAgain(s: Sys, es: seq<Event>, t: Sys, k: Slot)
    requires Runs(s, es, t) && Vetoed(s, k) && NotRebuilt(es, k) && !StaleSnapshot(s, k)
    ensures NeverListed(es, k)
    decreases |es|
  {
    hide Step, Enabled, Vetoed, StaleSnapshot;
    if es != [] {
      assert es == [es[0]] + es[1..];
      StepKeepsVeto(s, es[0], k);
      StepKeepsFresh(s, es[0], k);
      NeverListedAgain(Step(s, es[0]), es[1..], t, k);
    }
  }

  /** No later to-do list holds a disabled slot exactly when no sweep has read the rows before the veto. */
  lemma NeverListedIff(s: Sys, k: Slot)
    requires Vetoed(s, k) && WellSlot(k)
    ensures (forall es, t | Runs(s, es, t) && NotRebuilt(es, k) :: NeverListed(es, k)) <==> !StaleSnapshot(s, k)
  {
    hide BlobOf, WellSlot, Runs, Vetoed, NotRebuilt, NeverListed;
    if !StaleSnapshot(s, k) {
      forall es, t | Runs(s, es, t) && NotRebuilt(es, k) ensures NeverListed(es, k) {
        NeverListedAgain(s, es, t, k);
      }
    } else {
      var es, t := ListFromGathering(s, k);
    }
  }

  /** With its blob gone, a disabled movie's blob stays gone on every run exactly when no sweep has it in flight. */
  lemma BlobStaysGoneIff(s: Sys, k: Slot)
    requires Vetoed(s, k) && WellSlot(k) && WellFormed(s) && BlobOf(k) !in s.blobs
    ensures (forall es, t | Runs(s, es, t) && NotRebuilt(es, k) :: BlobOf(k) !in t.blobs) <==> !InFlight(s, k)
  {
    hide BlobOf, WellSlot, Runs, Vetoed, NotRebuilt;
    if !InFlight(s, k) {
      forall es, t | Runs(s, es, t) && NotRebuilt(es, k) ensures BlobOf(k) !in t.blobs {
        OutOfFlightStaysGone(s, es, t, k);
      }
    } else {
      var es, t := Leak(s, k);
    }
  }

  lemma Leak(s: Sys, k: Slot) returns (es: seq<Event>, t: Sys)
    requires InFlight(s, k) && WellSlot(k) && WellFormed(s)
    ensures Runs(s, es, t) && NotRebuilt(es, k) && BlobOf(k) in t.blobs
  {
    hide BlobOf, WellSlot, Runs, NotRebuilt;
    match s.sweeper
    case Gathering(_) => es, t := LeakFromGathering(s, k);
    case Building(todo, stage) =>
      if stage.Storing? && stage.slot == k {
        es, t := LeakFromStoring(s, k);
      } else if stage.Encoding? && stage.slot == k {
        es, t := LeakFromEncoding(s, k);
      } else {
        es, t := LeakFromStage(s, k);
      }
  }
}
