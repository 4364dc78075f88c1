/** The background movie builder: when a movie is due, what a build records, and what disabling means. */
module Movies {
  import opened Wrappers
  import opened Text
  import opened Names
  import opened Retention

  /** A freshness row: the coverage it was built at, its size (0: failed or empty), and the user's veto. */
  datatype Row = Row(segCount: nat, bytes: nat, disabled: bool)

  /** A route and a camera. */
  type Slot = (string, string)

  /** The segment rows, with the cameras whose URL is set. */
  type Coverage = map<(string, int), set<string>>

  datatype State = State(routes: map<string, string>, segments: Coverage, rows: map<Slot, Row>, blobs: set<string>)

  // ---- when a movie is due -------------------------------------------------------------

  /** Due: the camera covers the whole drive, and no row excuses it. Shared by movies and subtitles. */
  predicate Due(row: Option<Row>, total: nat, withCam: nat, stored: bool) {
    && withCam != 0 && withCam == total
    && match row
       case None => true
       case Some(r) => !r.disabled && (r.segCount == total ==> r.bytes != 0 && !stored)
  }

  function Segments(segments: Coverage, fullname: string): set<(string, int)> {
    set k | k in segments && k.0 == fullname
  }

  function Covered(segments: Coverage, fullname: string, cam: string): set<(string, int)> {
    set k | k in segments && k.0 == fullname && cam in segments[k]
  }

  function RowOf(rows: map<Slot, Row>, k: Slot): Option<Row> {
    if k in rows then Some(rows[k]) else None
  }

  /** The blob key of a slot of a route in the table; the dongle comes from the route row. */
  function KeyOfSlot(routes: map<string, string>, k: Slot): Option<string> {
    if k.0 in routes && SplitOnce(k.0, "|").Some? && k.1 in MOVIE_CAMS then
      Some(MovieKey(routes[k.0], SplitOnce(k.0, "|").value.1, k.1))
    else None
  }

  /** Should a sweep that sees these tables and files build this movie? */
  predicate ToDo(s: State, k: Slot) {
    KeyOfSlot(s.routes, k).Some?
    && Due(RowOf(s.rows, k), |Segments(s.segments, k.0)|, |Covered(s.segments, k.0, k.1)|,
           KeyOfSlot(s.routes, k).value in s.blobs)
  }

  /** Route rows are named after their device. */
  predicate RoutesNamed(routes: map<string, string>) {
    forall n | n in routes :: SplitOnce(n, "|").Some? && SplitOnce(n, "|").value.0 == routes[n]
  }

  // ---- a sweep on its own ------------------------------------------------------------------

  /** How a build of one slot ends, given that it has segments. */
  datatype Outcome = Encoded(bytes: nat) | NoUsableSource | EncodeFailed | Aborted

  predicate Recorded(o: Outcome) { !o.Aborted? }

  /** `record`: upsert that leaves the veto alone. */
  function WithRecord(rows: map<Slot, Row>, k: Slot, segCount: nat, bytes: nat): map<Slot, Row> {
    rows[k := Row(segCount, bytes, k in rows && rows[k].disabled)]
  }

  /** `build` of a slot. */
  function Built(s: State, k: Slot, key: string, o: Outcome): State {
    var n := |Covered(s.segments, k.0, k.1)|;
    if n == 0 then s
    else
      match o
      case Encoded(bytes) => s.(blobs := s.blobs + {key}, rows := WithRecord(s.rows, k, n, bytes))
      case NoUsableSource => s.(rows := WithRecord(s.rows, k, n, 0))
      case EncodeFailed => s.(rows := WithRecord(s.rows, k, n, 0))
      case Aborted => s
  }

  /** A recorded build settles its slot. */
  lemma BuiltIsSettled(s: State, k: Slot, o: Outcome)
    requires ToDo(s, k) && Recorded(o)
    ensures !ToDo(Built(s, k, KeyOfSlot(s.routes, k).value, o), k)
  {
  }

  /** A build never makes another slot due. */
  lemma BuiltRaisesNothing(s: State, k: Slot, key: string, o: Outcome, other: Slot)
    requires other != k && !ToDo(s, other)
    ensures !ToDo(Built(s, k, key, o), other)
  {
    hide KeyOfSlot;
  }

  /** Distinct slots, in the order they will be built. */
  predicate Distinct(todo: seq<Slot>) {
    forall i, j | 0 <= i < j < |todo| :: todo[i] != todo[j]
  }

  function BuiltAll(s: State, todo: seq<Slot>, outcome: Slot -> Outcome): State
    decreases |todo|
  {
    if todo == [] then s
    else
      var before := BuiltAll(s, todo[..|todo| - 1], outcome);
      var k := todo[|todo| - 1];
      if KeyOfSlot(s.routes, k) == None then before
      else Built(before, k, KeyOfSlot(s.routes, k).value, outcome(k))
  }

  lemma {:induction false} BuiltAllFrame(s: State, todo: seq<Slot>, outcome: Slot -> Outcome)
    ensures var t := BuiltAll(s, todo, outcome);
            t.routes == s.routes && t.segments == s.segments && s.blobs <= t.blobs
            && forall k | k !in todo :: RowOf(t.rows, k) == RowOf(s.rows, k)
    decreases |todo|
  {
    hide KeyOfSlot, Covered;
    if todo != [] {
      BuiltAllFrame(s, todo[..|todo| - 1], outcome);
      assert todo == todo[..|todo| - 1] + [todo[|todo| - 1]];
    }
  }

  /** After recorded builds of a to-do list, only slots outside it can still be due. */
  lemma {:induction false} BuiltAllSettles(s: State, todo: seq<Slot>, outcome: Slot -> Outcome, k: Slot)
    requires Distinct(todo) && forall j | j in todo :: ToDo(s, j) && Recorded(outcome(j))
    requires k in todo || !ToDo(s, k)
    ensures !ToDo(BuiltAll(s, todo, outcome), k)
    decreases |todo|
  {
    hide KeyOfSlot, Covered, Segments, Due, Built;
    if todo != [] {
      var init, last := todo[..|todo| - 1], todo[|todo| - 1];
      assert todo == init + [last] && last in todo;
      var before := BuiltAll(s, init, outcome);
      BuiltAllFrame(s, init, outcome);
      if k == last {
        if ToDo(before, k) {
          BuiltIsSettled(before, k, outcome(k));
        } else {
          SettledStays(before, k, KeyOfSlot(s.routes, k).value, outcome(k));
        }
      } else {
        BuiltAllSettles(s, init, outcome, k);
        var key := KeyOfSlot(s.routes, last).value;
        BuiltRaisesNothing(before, last, key, outcome(last), k);
      }
    }
  }

  lemma SettledStays(s: State, k: Slot, key: string, o: Outcome)
    requires !ToDo(s, k) && KeyOfSlot(s.routes, k) == Some(key)
    ensures !ToDo(Built(s, k, key, o), k)
  {
    hide KeyOfSlot;
  }

  /** If every build of a sweep was recorded and nothing else changed, the next sweep has nothing to do. */
  lemma SweepQuiesces(s: State, todo: seq<Slot>, outcome: Slot -> Outcome)
    requires Distinct(todo) && forall k :: k in todo <==> ToDo(s, k)
    requires forall k | k in todo :: Recorded(outcome(k))
    ensures forall k :: !ToDo(BuiltAll(s, todo, outcome), k)
  {
    forall k ensures !ToDo(BuiltAll(s, todo, outcome), k) {
      BuiltAllSettles(s, todo, outcome, k);
    }
  }

  // ---- the sweep as the server runs it ---------------------------------------------------------

  class Builder {
    var routes: map<string, string>
    var segments: Coverage
    var rows: map<Slot, Row>
    var blobs: set<string>

    function Abstract(): State
      reads this
    {
      State(routes, segments, rows, blobs)
    }

    constructor (s: State)
      ensures Abstract() == s
    {
      routes, segments, rows, blobs := s.routes, s.segments, s.rows, s.blobs;
    }

    /** Fully covered, and neither disabled, nor failed, nor built at this segment count. */
    method NeedsBuild(k: Slot, total: nat) returns (r: bool)
      requires KeyOfSlot(routes, k).Some? && total == |Segments(segments, k.0)|
      ensures r <==> ToDo(Abstract(), k)
    {
      var with := |Covered(segments, k.0, k.1)|;
      if with == 0 || with != total {
        return false;
      }
      if k in rows {
        if rows[k].disabled {
          return false;
        }
        if rows[k].segCount == total {
          return rows[k].bytes != 0 && KeyOfSlot(routes, k).value !in blobs;
        }
      }
      return true;
    }

    /** The first pass: gather every movie that needs building. */
    method Gather() returns (todo: seq<Slot>)
      ensures Distinct(todo) && forall k :: k in todo <==> ToDo(Abstract(), k)
    {
      todo := [];
      var left := routes.Keys;
      while left != {}
        invariant left <= routes.Keys && Distinct(todo)
        invariant forall k :: k in todo <==> k.0 !in left && ToDo(Abstract(), k)
      {
        var fullname :| fullname in left;
        left := left - {fullname};
        var total := |Segments(segments, fullname)|;
        if SplitOnce(fullname, "|") == None || total == 0 {
          continue;
        }
        ghost var before := todo;
        for i := 0 to |MOVIE_CAMS|
          invariant Distinct(todo)
          invariant forall k :: k in todo <==>
                      k in before || (k.0 == fullname && k.1 in MOVIE_CAMS[..i] && ToDo(Abstract(), k))
        {
          var k := (fullname, MOVIE_CAMS[i]);
          assert MOVIE_CAMS[..i + 1] == MOVIE_CAMS[..i] + [MOVIE_CAMS[i]];
          var wanted := NeedsBuild(k, total);
          if wanted {
            todo := todo + [k];
          }
        }
      }
    }

    /** `build`, with its recorded outcome; the route name is put together again from its parts. */
    method Build(dongle: string, ts: string, cam: string, o: Outcome)
      modifies this
      ensures Abstract() == Built(old(Abstract()), (RouteName(dongle, ts), cam), MovieKey(dongle, ts, cam), o)
    {
      hide RouteName, MovieKey;
      var k, key := (RouteName(dongle, ts), cam), MovieKey(dongle, ts, cam);
      var n := |Covered(segments, k.0, k.1)|;
      if n == 0 {
        return;
      }
      match o {
        case Encoded(bytes) =>
          blobs := blobs + {key};
          rows := WithRecord(rows, k, n, bytes);
        case NoUsableSource => rows := WithRecord(rows, k, n, 0);
        case EncodeFailed => rows := WithRecord(rows, k, n, 0);
        case Aborted =>
      }
    }

    /** `sweep`: gather, then build in order until encoding is switched off. */
    method Sweep(outcome: Slot -> Outcome, enabled: Slot -> bool) returns (ghost todo: seq<Slot>, ghost built: nat)
      requires RoutesNamed(routes)
      modifies this
      ensures Distinct(todo) && forall k :: k in todo <==> ToDo(old(Abstract()), k)
      ensures built <= |todo| && (built < |todo| ==> !enabled(todo[built]))
      ensures Abstract() == BuiltAll(old(Abstract()), todo[..built], outcome)
      ensures built == |todo| && (forall k | k in todo :: Recorded(outcome(k))) ==> forall k :: !ToDo(Abstract(), k)
    {
      hide ToDo, Built, Distinct;
      ghost var s := Abstract();
      var list := Gather();
      todo, built := list, 0;
      var i := 0;
      while i < |list|
        invariant built == i <= |list| && todo == list
        invariant Abstract() == BuiltAll(s, list[..i], outcome)
      {
        if !enabled(list[i]) {
          return;
        }
        assert list[..i + 1][..i] == list[..i] && list[i] in list;
        ToDoHasKey(s, list[i]);
        BuiltAllFrame(s, list[..i], outcome);
        var (dongle, ts, cam) := (routes[list[i].0], SplitOnce(list[i].0, "|").value.1, list[i].1);
        Build(dongle, ts, cam, outcome(list[i]));
        i, built := i + 1, built + 1;
      }
      assert list[..|list|] == list;
      if forall k | k in todo :: Recorded(outcome(k)) {
        SweepQuiesces(s, todo, outcome);
      }
    }
  }

  lemma ToDoHasKey(s: State, k: Slot)
    requires ToDo(s, k)
    ensures KeyOfSlot(s.routes, k).Some?
  {
  }
}
