/** Several tasks change segment rows and recompute route rows at once: when the route rows end up right. */
module Recomputes {
  import opened Wrappers
  import opened FileTypes
  import opened Folds
  import opened Segments
  import opened Ingest

  /** A task that ingests or deletes: it changes rows of one route, then reads them all, then writes the aggregate. */
  datatype Task = Idle | Changed(route: string) | Read(route: string, snapshot: Aggregate)

  datatype Sys = Sys(segments: SegTable, routes: map<string, RouteRow>, tasks: seq<Task>)

  datatype Event =
    | ChangeRow(task: nat, route: string, number: int, row: SegRow)
    | ReadRows(task: nat)
    | WriteRoute(task: nat, route: string, snapshot: Aggregate)

  predicate Enabled(s: Sys, e: Event) {
    e.task < |s.tasks| &&
    match e
    case ChangeRow(w, route, _, _) => s.tasks[w].Idle? || s.tasks[w] == Changed(route)
    case ReadRows(w) => s.tasks[w].Changed?
    case WriteRoute(w, route, snapshot) => s.tasks[w] == Read(route, snapshot)
  }

  function Step(s: Sys, e: Event): Sys
    requires Enabled(s, e)
  {
    match e
    case ChangeRow(w, route, n, row) =>
      Sys(s.segments[(route, n) := row], EnsureRoute(s.routes, route), s.tasks[w := Changed(route)])
    case ReadRows(w) =>
      var route := s.tasks[w].route;
      s.(tasks := s.tasks[w := Read(route, Aggregated(s.segments, route))])
    case WriteRoute(w, route, snapshot) =>
      s.(routes := if route in s.routes then s.routes[route := s.routes[route].(derived := snapshot)] else s.routes,
         tasks := s.tasks[w := Idle])
  }

  predicate Runs(s: Sys, es: seq<Event>, t: Sys)
    decreases |es|
  {
    if es == [] then s == t else Enabled(s, es[0]) && Runs(Step(s, es[0]), es[1..], t)
  }

  /** The route row is the aggregate of its segment rows. */
  predicate Agrees(s: Sys, route: string) {
    route in s.routes && s.routes[route].derived == Aggregated(s.segments, route)
  }

  // ---- the last writer decides ----------------------------------------------------------

  /** The last snapshot written to the route, if any. */
  function LastWritten(es: seq<Event>, route: string): Option<Aggregate>
    decreases |es|
  {
    if es == [] then None
    else if LastWritten(es[1..], route).Some? then LastWritten(es[1..], route)
    else if es[0].WriteRoute? && es[0].route == route then Some(es[0].snapshot)
    else None
  }

  lemma {:induction false} WrittenStands(s: Sys, es: seq<Event>, t: Sys, route: string)
    requires Runs(s, es, t) && route in s.routes
    ensures route in t.routes && t.routes[route].derived == LastWritten(es, route).GetOr(s.routes[route].derived)
    decreases |es|
  {
    hide Aggregated;
    if es != [] {
      WrittenStands(Step(s, es[0]), es[1..], t, route);
    }
  }

  /** On every run, however the tasks overlap: the row agrees exactly if the last writer's snapshot is up to date. */
  lemma LastWriterDecides(s: Sys, es: seq<Event>, t: Sys, route: string)
    requires Runs(s, es, t) && route in s.routes
    ensures Agrees(t, route) <==>
            LastWritten(es, route).GetOr(s.routes[route].derived) == Aggregated(t.segments, route)
  {
    WrittenStands(s, es, t, route);
  }

  // ---- when outstanding work settles the row ------------------------------------------------

  /** The task still has to write this route. */
  predicate Outstanding(w: Task, route: string) {
    !w.Idle? && w.route == route
  }

  predicate SomeOutstanding(s: Sys, route: string) {
    exists w | 0 <= w < |s.tasks| :: Outstanding(s.tasks[w], route)
  }

  /** A snapshot that a row change has overtaken. */
  predicate Stale(s: Sys, w: Task, route: string) {
    w.Read? && w.route == route && w.snapshot != Aggregated(s.segments, route)
  }

  /** Nobody holds an overtaken snapshot, and the row is right or somebody will still write it. */
  predicate WillSettle(s: Sys, route: string) {
    && (forall w | 0 <= w < |s.tasks| :: !Stale(s, s.tasks[w], route))
    && (SomeOutstanding(s, route) || Agrees(s, route))
  }

  predicate Unchanging(es: seq<Event>, route: string) {
    forall e | e in es :: !(e.ChangeRow? && e.route == route)
  }

  lemma StepKeepsSettling(s: Sys, e: Event, route: string)
    requires Enabled(s, e) && !(e.ChangeRow? && e.route == route) && route in s.routes && WillSettle(s, route)
    ensures route in Step(s, e).routes && WillSettle(Step(s, e), route)
  {
    hide Aggregated;
    var t := Step(s, e);
    assert Aggregated(t.segments, route) == Aggregated(s.segments, route) by {
      if e.ChangeRow? {
        AggregatedFrame(s.segments, t.segments, route);
      }
    }
    forall w | 0 <= w < |t.tasks| ensures !Stale(t, t.tasks[w], route) {
      assert !Stale(s, s.tasks[w], route);
    }
    if e.WriteRoute? && e.route == route {
      assert !Stale(s, s.tasks[e.task], route);
      assert Agrees(t, route);
    } else if SomeOutstanding(s, route) {
      var w :| 0 <= w < |s.tasks| && Outstanding(s.tasks[w], route);
      assert Outstanding(t.tasks[w], route);
    }
  }

  lemma {:induction false} RunsKeepSettling(s: Sys, es: seq<Event>, t: Sys, route: string)
    requires Runs(s, es, t) && Unchanging(es, route) && route in s.routes && WillSettle(s, route)
    ensures route in t.routes && WillSettle(t, route)
    decreases |es|
  {
    hide Step, Enabled, WillSettle;
    if es != [] {
      StepKeepsSettling(s, es[0], route);
      RunsKeepSettling(Step(s, es[0]), es[1..], t, route);
    }
  }

  lemma {:induction false} Join(s: Sys, es: seq<Event>, m: Sys, fs: seq<Event>, t: Sys)
    requires Runs(s, es, m) && Runs(m, fs, t)
    ensures Runs(s, es + fs, t)
    decreases |es|
  {
    hide Step, Enabled;
    if es == [] {
      assert es + fs == fs;
    } else {
      assert (es + fs)[1..] == es[1..] + fs;
      Join(Step(s, es[0]), es[1..], m, fs, t);
    }
  }

  /** Task w reads if it has to, and writes. */
  lemma FinishOne(s: Sys, w: nat, route: string) returns (es: seq<Event>, t: Sys)
    requires w < |s.tasks| && Outstanding(s.tasks[w], route)
    ensures Runs(s, es, t) && Unchanging(es, route)
    ensures t.segments == s.segments && t.tasks == s.tasks[w := Idle] && t.routes.Keys == s.routes.Keys
    ensures s.tasks[w].Read? && route in s.routes ==> t.routes[route].derived == s.tasks[w].snapshot
  {
    hide Aggregated;
    if s.tasks[w].Changed? {
      var e := ReadRows(w);
      var m := Step(s, e);
      var f := WriteRoute(w, route, m.tasks[w].snapshot);
      t := Step(m, f);
      es := [e, f];
      assert es[1..] == [f] && [f][1..] == [];
      assert Runs(t, [], t) && Runs(m, [f], t);
    } else {
      var f := WriteRoute(w, route, s.tasks[w].snapshot);
      t := Step(s, f);
      es := [f];
      assert es[1..] == [] && Runs(t, [], t);
    }
  }

  function OthersAt(s: Sys, route: string, w: nat): set<nat> {
    set v: nat | v < |s.tasks| && v != w && Outstanding(s.tasks[v], route)
  }

  /** All tasks at work on the route but one finish. */
  lemma {:induction false} FinishOthers(s: Sys, w: nat, route: string) returns (es: seq<Event>, t: Sys)
    requires w < |s.tasks|
    ensures Runs(s, es, t) && Unchanging(es, route) && t.segments == s.segments && t.routes.Keys == s.routes.Keys
    ensures |t.tasks| == |s.tasks| && t.tasks[w] == s.tasks[w] && OthersAt(t, route, w) == {}
    decreases |OthersAt(s, route, w)|
  {
    hide Aggregated, Enabled;
    if OthersAt(s, route, w) == {} {
      es, t := [], s;
    } else {
      var v: nat := AnyOther(s, w, route);
      var first, m := FinishOne(s, v, route);
      assert OthersAt(m, route, w) == OthersAt(s, route, w) - {v};
      var rest;
      rest, t := FinishOthers(m, w, route);
      Join(s, first, m, rest, t);
      es := first + rest;
    }
  }

  lemma AnyOther(s: Sys, w: nat, route: string) returns (v: nat)
    requires OthersAt(s, route, w) != {}
    ensures v in OthersAt(s, route, w)
  {
    v := Member(OthersAt(s, route, w));
  }

  ghost predicate AlwaysSettles(s: Sys, route: string) {
    forall es, t | Runs(s, es, t) && Unchanging(es, route) && !SomeOutstanding(t, route) :: Agrees(t, route)
  }

  /**
   * From any state: every way in which the tasks can finish, with no further change to the route's rows, ends with
   * the row right exactly if nobody holds an overtaken snapshot and somebody will write or the row is right already.
   */
  lemma RecomputesSettleIff(s: Sys, route: string)
    requires route in s.routes
    ensures AlwaysSettles(s, route) <==> WillSettle(s, route)
  {
    hide Aggregated, Step, Enabled, Runs;
    if WillSettle(s, route) {
      forall es, t | Runs(s, es, t) && Unchanging(es, route) && !SomeOutstanding(t, route) ensures Agrees(t, route) {
        RunsKeepSettling(s, es, t, route);
      }
    } else {
      var es, t := EndsWrong(s, route);
    }
  }

  /** From every other state some run ends with the row wrong and nobody left to repair it. */
  lemma EndsWrong(s: Sys, route: string) returns (es: seq<Event>, t: Sys)
    requires route in s.routes && !WillSettle(s, route)
    ensures Runs(s, es, t) && Unchanging(es, route) && !SomeOutstanding(t, route) && !Agrees(t, route)
  {
    hide Aggregated, Step, Enabled, Runs;
    if w: nat :| w < |s.tasks| && Stale(s, s.tasks[w], route) {
      es, t := StaleWritesLast(s, w, route);
    } else {
      RunsNowhere(s);
      es, t := [], s;
    }
  }

  lemma RunsNowhere(s: Sys)
    ensures Runs(s, [], s)
  {
  }

  /** The task with the overtaken snapshot writes last. */
  lemma StaleWritesLast(s: Sys, w: nat, route: string) returns (es: seq<Event>, t: Sys)
    requires route in s.routes && w < |s.tasks| && Stale(s, s.tasks[w], route)
    ensures Runs(s, es, t) && Unchanging(es, route) && !SomeOutstanding(t, route)
    ensures route in t.routes && !Agrees(t, route)
  {
    hide Aggregated, Enabled, Step, Runs;
    var first, m := FinishOthers(s, w, route);
    var last;
    last, t := FinishOne(m, w, route);
    Join(s, first, m, last, t);
    es := first + last;
    forall v: nat | v < |t.tasks| ensures !Outstanding(t.tasks[v], route) {
      assert v !in OthersAt(m, route, w);
    }
  }

  // ---- one recompute of a route at a time -----------------------------------------------------

  predicate ReadsAt(s: Sys, w: nat, route: string) {
    w < |s.tasks| && s.tasks[w].Read? && s.tasks[w].route == route
  }

  /** A run on which no recompute of the route reads while another one is between its read and its write. */
  ghost predicate SerialRun(s: Sys, es: seq<Event>, t: Sys, route: string)
    decreases |es|
  {
    if es == [] then s == t
    else
      && Enabled(s, es[0])
      && (es[0].ReadRows? && s.tasks[es[0].task].route == route ==> forall w: nat :: !ReadsAt(s, w, route))
      && SerialRun(Step(s, es[0]), es[1..], t, route)
  }

  predicate Dirty(s: Sys, route: string) {
    exists w | 0 <= w < |s.tasks| :: s.tasks[w] == Changed(route)
  }

  ghost predicate SerialInv(s: Sys, route: string) {
    && (forall v: nat, w: nat :: ReadsAt(s, v, route) && ReadsAt(s, w, route) ==> v == w)
    && (SomeOutstanding(s, route) ==> route in s.routes)
    && (route in s.routes ==> Dirty(s, route) || WillSettle(s, route))
  }

  lemma SerialStep(s: Sys, e: Event, route: string)
    requires Enabled(s, e) && SerialInv(s, route)
    requires e.ReadRows? && s.tasks[e.task].route == route ==> forall w: nat :: !ReadsAt(s, w, route)
    ensures SerialInv(Step(s, e), route)
  {
    hide Aggregated, WillSettle;
    var t := Step(s, e);
    if e.ChangeRow? && e.route == route {
      assert t.tasks[e.task] == Changed(route);
    } else if e.ReadRows? && s.tasks[e.task].route == route {
      OnlyReader(s, e.task, route);
    } else {
      if route in s.routes && WillSettle(s, route) {
        StepKeepsSettling(s, e, route);
      }
      if Dirty(s, route) {
        var w :| 0 <= w < |s.tasks| && s.tasks[w] == Changed(route);
        assert t.tasks[w] == Changed(route);
      }
    }
    forall v: nat, w: nat | ReadsAt(t, v, route) && ReadsAt(t, w, route) ensures v == w {
      assert ReadsAt(s, v, route) || (e.ReadRows? && v == e.task);
      assert ReadsAt(s, w, route) || (e.ReadRows? && w == e.task);
    }
  }

  lemma OnlyReader(s: Sys, w: nat, route: string)
    requires w < |s.tasks| && s.tasks[w] == Changed(route) && forall v: nat :: !ReadsAt(s, v, route)
    ensures WillSettle(Step(s, ReadRows(w)), route)
  {
    hide Aggregated;
    var t := Step(s, ReadRows(w));
    assert Outstanding(t.tasks[w], route);
    forall v: nat | v < |t.tasks| ensures !Stale(t, t.tasks[v], route) {
      assert !ReadsAt(s, v, route);
    }
  }

  lemma {:induction false} SerialKeeps(s: Sys, es: seq<Event>, t: Sys, route: string)
    requires SerialRun(s, es, t, route) && SerialInv(s, route)
    ensures SerialInv(t, route)
    decreases |es|
  {
    hide Step, Enabled, SerialInv;
    if es != [] {
      SerialStep(s, es[0], route);
      SerialKeeps(Step(s, es[0]), es[1..], t, route);
    }
  }

  /** Whatever rows change meanwhile: if recomputes of the route do not overlap, the row is right once all are done. */
  lemma SerialRecomputesAgree(s: Sys, es: seq<Event>, t: Sys, route: string)
    requires !SomeOutstanding(s, route) && (route in s.routes ==> Agrees(s, route))
    requires SerialRun(s, es, t, route) && !SomeOutstanding(t, route) && route in t.routes
    ensures Agrees(t, route)
  {
    hide Aggregated, Step, Enabled;
    forall w: nat ensures !ReadsAt(s, w, route) {
      assert w < |s.tasks| ==> !Outstanding(s.tasks[w], route);
    }
    forall w | 0 <= w < |s.tasks| ensures !Stale(s, s.tasks[w], route) {
      assert !Outstanding(s.tasks[w], route);
    }
    SerialKeeps(s, es, t, route);
    forall w | 0 <= w < |t.tasks| ensures t.tasks[w] != Changed(route) {
      assert !Outstanding(t.tasks[w], route);
    }
  }

  // ---- and a run on which they overlap -----------------------------------------------------------

  /** From any state at rest, two tasks that change rows to different aggregates can leave the route row wrong. */
  lemma OverlapGoesStale(s: Sys, v: nat, w: nat, route: string, m: int, a: SegRow, n: int, b: SegRow)
    returns (es: seq<Event>, t: Sys)
    requires v < |s.tasks| && w < |s.tasks| && v != w && forall i | 0 <= i < |s.tasks| :: s.tasks[i].Idle?
    requires var one := s.segments[(route, m) := a];
             Aggregated(one, route) != Aggregated(one[(route, n) := b], route)
    ensures Runs(s, es, t) && !SomeOutstanding(t, route) && route in t.routes && !Agrees(t, route)
  {
    hide Aggregated;
    var e1, e2, e3 := ChangeRow(v, route, m, a), ReadRows(v), ChangeRow(w, route, n, b);
    var s1 := Step(s, e1);
    var s2 := Step(s1, e2);
    var s3 := Step(s2, e3);
    var head := [e1, e2, e3];
    assert head[1..] == [e2, e3] && [e2, e3][1..] == [e3] && [e3][1..] == [];
    assert Runs(s3, [], s3) && Runs(s2, [e3], s3) && Runs(s1, [e2, e3], s3) && Runs(s, head, s3);
    assert Stale(s3, s3.tasks[v], route);
    var rest;
    rest, t := StaleWritesLast(s3, v, route);
    Join(s, head, s3, rest, t);
    es := head + rest;
  }

  /** A row that was not there before always shows in the aggregate. */
  lemma NewRowShows(segments: SegTable, route: string, n: int, row: SegRow)
    requires (route, n) !in segments
    ensures Aggregated(segments[(route, n) := row], route) != Aggregated(segments, route)
  {
    var after := segments[(route, n) := row];
    assert (route, n) in after && (route, n).1 in Numbers(after, route);
    assert n !in Numbers(segments, route);
    assert n in Aggregated(after, route).numbers && n !in Aggregated(segments, route).numbers;
  }

  /** A task that is not interrupted does what a serial ingest does: change the row, then recompute. */
  lemma AloneIsSerial(s: Sys, w: nat, route: string, n: int, row: SegRow, blobs: map<string, nat>)
    requires w < |s.tasks| && s.tasks[w].Idle?
    ensures var changed := Db(blobs, s.segments[(route, n) := row], EnsureRoute(s.routes, route));
            var done := Recomputed(changed, route);
            var snapshot := Aggregated(changed.segments, route);
            Runs(s, [ChangeRow(w, route, n, row), ReadRows(w), WriteRoute(w, route, snapshot)],
                 Sys(done.segments, done.routes, s.tasks))
  {
    hide Aggregated;
    var changed := Db(blobs, s.segments[(route, n) := row], EnsureRoute(s.routes, route));
    var done := Recomputed(changed, route);
    assert (route, n) in changed.segments && (route, n).1 in Numbers(changed.segments, route);
    var e1, e2 := ChangeRow(w, route, n, row), ReadRows(w);
    var e3 := WriteRoute(w, route, Aggregated(changed.segments, route));
    var s1 := Step(s, e1);
    var s2 := Step(s1, e2);
    var s3 := Step(s2, e3);
    assert s3.tasks == s.tasks && s3 == Sys(done.segments, done.routes, s.tasks);
    var all := [e1, e2, e3];
    assert all[1..] == [e2, e3] && [e2, e3][1..] == [e3] && [e3][1..] == [];
    assert Runs(s3, [], s3) && Runs(s2, [e3], s3) && Runs(s1, [e2, e3], s3);
  }
}
