/** Several flushes and refreshes of one device at once: which rows settle, and when the user's word is kept. */
module ParamTasks {
  import opened Wrappers
  import opened Text
  import opened DeviceParams

  type Rows = seq<(string, string)>

  /** A task works through the rows it has read; `wrote` says that the first one has reached the device. */
  datatype Task = Idle | Flushing(rows: Rows, wrote: bool) | Refreshing(rows: Rows)

  datatype Sys = Sys(s: State, tasks: seq<Task>)

  datatype Event =
    | Edit(key: string, value: string)
    | ReadPending(task: nat, rows: Rows)
    | WriteRow(task: nat, key: string, value: string, ok: bool)
    | DropRow(task: nat, key: string, value: string)
    | ClearRow(task: nat, key: string, value: string)
    | ReadDevice(task: nat, rows: Rows)
    | UpsertRow(task: nat, key: string, value: string)

  // ---- steps --------------------------------------------------------------------------------

  predicate Free(t: Task) { t.Idle? || t.rows == [] }

  predicate DistinctKeys(rows: Rows) {
    forall i, j | 0 <= i < j < |rows| :: rows[i].0 != rows[j].0
  }

  /** The pending rows of the cache, each once. */
  ghost predicate ListsPending(rows: Rows, s: State) {
    DistinctKeys(rows) && forall k, v :: (k, v) in rows <==> Pending(s, k) && s.cache[k].value == v
  }

  predicate Heads(t: Task, key: string, value: string) {
    !t.Idle? && t.rows != [] && t.rows[0] == (key, value)
  }

  ghost predicate Enabled(keys: seq<string>, specs: Specs, x: Sys, e: Event) {
    match e
    case Edit(k, v) => IsWritable(specs, k, v)
    case ReadPending(t, rows) => t < |x.tasks| && Free(x.tasks[t]) && ListsPending(rows, x.s)
    case WriteRow(t, k, v, _) =>
      t < |x.tasks| && x.tasks[t].Flushing? && Heads(x.tasks[t], k, v) && !x.tasks[t].wrote && IsWritable(specs, k, v)
    case DropRow(t, k, v) =>
      t < |x.tasks| && x.tasks[t].Flushing? && Heads(x.tasks[t], k, v) && !x.tasks[t].wrote && !IsWritable(specs, k, v)
    case ClearRow(t, k, v) => t < |x.tasks| && x.tasks[t].Flushing? && Heads(x.tasks[t], k, v) && x.tasks[t].wrote
    case ReadDevice(t, rows) =>
      t < |x.tasks| && Free(x.tasks[t]) && rows == ParseReport(Lines(Report(keys, x.s.device)))
    case UpsertRow(t, k, v) => t < |x.tasks| && x.tasks[t].Refreshing? && Heads(x.tasks[t], k, v)
  }

  function Step(x: Sys, e: Event): Sys
    requires e.Edit? || e.task < |x.tasks|
    requires !e.Edit? && !e.ReadPending? && !e.ReadDevice? ==> Heads(x.tasks[e.task], e.key, e.value)
  {
    match e
    case Edit(k, v) => x.(s := Edited(x.s, k, v))
    case ReadPending(t, rows) => x.(tasks := x.tasks[t := Flushing(rows, false)])
    case WriteRow(t, k, v, ok) =>
      if ok then Sys(Stored(x.s, k, v), x.tasks[t := Flushing(x.tasks[t].rows, true)])
      else x.(tasks := x.tasks[t := Flushing(x.tasks[t].rows[1..], false)])
    case DropRow(t, k, _) => Sys(Cleared(x.s, k), x.tasks[t := Flushing(x.tasks[t].rows[1..], false)])
    case ClearRow(t, k, _) => Sys(Cleared(x.s, k), x.tasks[t := Flushing(x.tasks[t].rows[1..], false)])
    case ReadDevice(t, rows) => x.(tasks := x.tasks[t := Refreshing(rows)])
    case UpsertRow(t, k, v) => Sys(Upserted(x.s, k, v), x.tasks[t := Refreshing(x.tasks[t].rows[1..])])
  }

  ghost predicate Runs(keys: seq<string>, specs: Specs, x: Sys, es: seq<Event>, y: Sys)
    decreases |es|
  {
    if es == [] then x == y
    else Enabled(keys, specs, x, es[0]) && Runs(keys, specs, Step(x, es[0]), es[1..], y)
  }

  // ---- what a run has edited and written --------------------------------------------------------

  /** The last value that the user chose for the key. */
  function LastEdit(es: seq<Event>, key: string): Option<string>
    decreases |es|
  {
    if es == [] then None
    else if LastEdit(es[1..], key).Some? then LastEdit(es[1..], key)
    else if es[0].Edit? && es[0].key == key then Some(es[0].value)
    else None
  }

  /** The last value that any task wrote to the device for the key. */
  function LastWrite(es: seq<Event>, key: string): Option<string>
    decreases |es|
  {
    if es == [] then None
    else if LastWrite(es[1..], key).Some? then LastWrite(es[1..], key)
    else if es[0].WriteRow? && es[0].ok && es[0].key == key then Some(es[0].value)
    else None
  }

  lemma {:induction false} EditsStand(keys: seq<string>, specs: Specs, x: Sys, es: seq<Event>, y: Sys, k: string)
    requires Runs(keys, specs, x, es, y)
    ensures LastEdit(es, k).Some? ==> k in y.s.latest && y.s.latest[k] == LastEdit(es, k).value
    ensures LastEdit(es, k).None? && k in x.s.latest ==> k in y.s.latest && y.s.latest[k] == x.s.latest[k]
    decreases |es|
  {
    hide IsWritable, ListsPending, Report, Lines, ParseReport;
    if es != [] {
      EditsStand(keys, specs, Step(x, es[0]), es[1..], y, k);
    }
  }

  lemma {:induction false} WritesStand(keys: seq<string>, specs: Specs, x: Sys, es: seq<Event>, y: Sys, k: string)
    requires Runs(keys, specs, x, es, y)
    ensures LastWrite(es, k).Some? ==> k in y.s.device && y.s.device[k] == LastWrite(es, k).value
    ensures LastWrite(es, k).None? ==>
              (k in y.s.device <==> k in x.s.device) && ValueOn(y.s.device, k) == ValueOn(x.s.device, k)
    decreases |es|
  {
    hide IsWritable, ListsPending, Report, Lines, ParseReport;
    if es != [] {
      WritesStand(keys, specs, Step(x, es[0]), es[1..], y, k);
    }
  }

  lemma {:induction false} RunsKeepLatest(keys: seq<string>, specs: Specs, x: Sys, es: seq<Event>, y: Sys)
    requires Runs(keys, specs, x, es, y) && PendingIsLatest(x.s)
    ensures PendingIsLatest(y.s)
    decreases |es|
  {
    hide IsWritable, ListsPending, Report, Lines, ParseReport;
    if es != [] {
      RunsKeepLatest(keys, specs, Step(x, es[0]), es[1..], y);
    }
  }

  // ---- a refresh --------------------------------------------------------------------------------

  /** The task starts nothing new in this run. */
  predicate KeepsReading(es: seq<Event>, t: nat) {
    forall e | e in es :: !((e.ReadDevice? || e.ReadPending?) && e.task == t)
  }

  /** What a task still has to do is among what it has read. */
  lemma {:induction false} RowsWereRead(keys: seq<string>, specs: Specs, x: Sys, es: seq<Event>, y: Sys, t: nat)
    requires Runs(keys, specs, x, es, y) && KeepsReading(es, t) && t < |x.tasks|
    ensures t < |y.tasks| && (y.tasks[t].Refreshing? <==> x.tasks[t].Refreshing?)
    ensures (y.tasks[t].Flushing? <==> x.tasks[t].Flushing?)
    ensures !x.tasks[t].Idle? ==> forall r | r in y.tasks[t].rows :: r in x.tasks[t].rows
    decreases |es|
  {
    hide IsWritable, ListsPending, Report, Lines, ParseReport, Stored, Cleared, Upserted, Edited;
    if es != [] {
      RowsWereRead(keys, specs, Step(x, es[0]), es[1..], y, t);
    }
  }

  /**
   * On every run, with any number of tasks: when a refresh stores a row, the row is settled exactly if an edit of it
   * is waiting, or no task has written the device since the refresh read it, or the last one wrote what it had read.
   */
  lemma RefreshSettlesIff(keys: seq<string>, specs: Specs, x: Sys, t: nat, rows: Rows, es: seq<Event>, y: Sys,
                          k: string, v: string)
    requires PlainReport(keys, x.s.device)
    requires Runs(keys, specs, x, [ReadDevice(t, rows)] + es, y) && KeepsReading(es, t)
    requires Enabled(keys, specs, y, UpsertRow(t, k, v))
    ensures v == ValueOn(x.s.device, k)
    ensures Settled(Step(y, UpsertRow(t, k, v)).s, k) <==>
            Pending(y.s, k) || LastWrite(es, k).GetOr(v) == v
  {
    hide IsWritable, ListsPending, Report, Lines, ParseReport, PlainReport;
    var e := ReadDevice(t, rows);
    assert ([e] + es)[0] == e && ([e] + es)[1..] == es;
    var x1 := Step(x, e);
    PlainReportReadsBack(keys, x.s.device);
    RowsWereRead(keys, specs, x1, es, y, t);
    assert (k, v) in y.tasks[t].rows;
    assert (k, v) in rows;
    WritesStand(keys, specs, x1, es, y, k);
    UpsertSettlesIff(y.s, k, v);
  }

  // ---- a flush ------------------------------------------------------------------------------------

  predicate WroteHead(x: Sys, t: nat, k: string) {
    t < |x.tasks| && x.tasks[t].Flushing? && x.tasks[t].wrote && x.tasks[t].rows != [] && x.tasks[t].rows[0].0 == k
  }

  /** A flush that is about to clear a key has written it. */
  lemma {:induction false} WroteBefore(keys: seq<string>, specs: Specs, x: Sys, es: seq<Event>, y: Sys,
                                       t: nat, k: string)
    requires Runs(keys, specs, x, es, y) && WroteHead(y, t, k)
    ensures WroteHead(x, t, k) || LastWrite(es, k).Some?
    decreases |es|
  {
    hide IsWritable, ListsPending, Report, Lines, ParseReport, Stored, Cleared, Upserted, Edited;
    if es != [] {
      WroteBefore(keys, specs, Step(x, es[0]), es[1..], y, t, k);
    }
  }

  /**
   * On every run, with any number of tasks: when a flush clears a key, the user's last word on it is kept exactly if
   * the last value he chose since the flush read it (else the one it read) is the last that any task has written.
   */
  lemma FlushKeepsIff(keys: seq<string>, specs: Specs, x: Sys, t: nat, rows: Rows, es: seq<Event>, y: Sys,
                      k: string, v: string)
    requires PendingIsLatest(x.s)
    requires Runs(keys, specs, x, [ReadPending(t, rows)] + es, y) && KeepsReading(es, t)
    requires Enabled(keys, specs, y, ClearRow(t, k, v))
    ensures LastWrite(es, k).Some?
    ensures Kept(Step(y, ClearRow(t, k, v)).s, k) <==> LastEdit(es, k).GetOr(v) == LastWrite(es, k).value
  {
    hide IsWritable, Report, Lines, ParseReport;
    var e := ReadPending(t, rows);
    assert ([e] + es)[0] == e && ([e] + es)[1..] == es;
    var x1 := Step(x, e);
    RowsWereRead(keys, specs, x1, es, y, t);
    assert (k, v) in y.tasks[t].rows;
    assert (k, v) in rows;
    assert k in x1.s.latest && x1.s.latest[k] == v;
    EditsStand(keys, specs, x1, es, y, k);
    WroteBefore(keys, specs, x1, es, y, t, k);
    WritesStand(keys, specs, x1, es, y, k);
  }

  // ---- from any state: is the user's word safe? -------------------------------------------------------

  /** The task has this row still to deal with. */
  predicate HoldsRow(t: Task, k: string, v: string) {
    t.Flushing? && (k, v) in t.rows
  }

  predicate HasWritten(t: Task, k: string) {
    t.Flushing? && t.wrote && t.rows != [] && t.rows[0].0 == k
  }

  /** Only valid settings are chosen, held and pending, and no flush holds a key twice. */
  ghost predicate WellFormed(specs: Specs, x: Sys) {
    && PendingIsLatest(x.s)
    && (forall k | k in x.s.latest :: IsWritable(specs, k, x.s.latest[k]))
    && (forall t | 0 <= t < |x.tasks| && x.tasks[t].Flushing? :: DistinctKeys(x.tasks[t].rows))
    && (forall t, k, v | 0 <= t < |x.tasks| && HoldsRow(x.tasks[t], k, v) :: IsWritable(specs, k, v))
  }

  /** What a task holds of this key is the user's last word, or, if it is written already, so is what the device has. */
  predicate TaskSafe(x: Sys, t: Task, k: string, v: string)
    requires k in x.s.latest
  {
    if HasWritten(t, k) then k in x.s.device && x.s.device[k] == x.s.latest[k] else v == x.s.latest[k]
  }

  ghost predicate Safe(x: Sys, k: string)
    requires k in x.s.latest
  {
    Kept(x.s, k) && forall t, v | 0 <= t < |x.tasks| && HoldsRow(x.tasks[t], k, v) :: TaskSafe(x, x.tasks[t], k, v)
  }

  lemma StepKeepsWellFormed(keys: seq<string>, specs: Specs, x: Sys, e: Event)
    requires WellFormed(specs, x) && Enabled(keys, specs, x, e)
    ensures WellFormed(specs, Step(x, e))
  {
    hide IsWritable, Report, Lines, ParseReport;
    var y := Step(x, e);
    forall t, k, v | 0 <= t < |y.tasks| && HoldsRow(y.tasks[t], k, v) ensures IsWritable(specs, k, v) {
      if !HoldsRow(x.tasks[t], k, v) {
        assert Pending(x.s, k) && x.s.cache[k].value == v;
      }
    }
  }

  lemma StepKeepsSafe(keys: seq<string>, specs: Specs, x: Sys, e: Event, k: string)
    requires WellFormed(specs, x) && Enabled(keys, specs, x, e) && k in x.s.latest && Safe(x, k)
    requires !(e.Edit? && e.key == k)
    ensures k in Step(x, e).s.latest && Safe(Step(x, e), k)
  {
    hide IsWritable, Report, Lines, ParseReport;
    var y := Step(x, e);
    assert e.DropRow? ==> HoldsRow(x.tasks[e.task], e.key, e.value);
    assert e.WriteRow? || e.ClearRow? ==> HoldsRow(x.tasks[e.task], e.key, e.value);
    forall t, v | 0 <= t < |y.tasks| && HoldsRow(y.tasks[t], k, v) ensures TaskSafe(y, y.tasks[t], k, v) {
      if !HoldsRow(x.tasks[t], k, v) {
        assert Pending(x.s, k) && x.s.cache[k].value == v;
      } else {
        assert TaskSafe(x, x.tasks[t], k, v);
      }
    }
  }

  /** The user leaves the key alone in this run. */
  predicate NoEditOf(es: seq<Event>, k: string) {
    forall e | e in es :: !(e.Edit? && e.key == k)
  }

  lemma {:induction false} RunsKeepSafe(keys: seq<string>, specs: Specs, x: Sys, es: seq<Event>, y: Sys, k: string)
    requires Runs(keys, specs, x, es, y) && NoEditOf(es, k) && WellFormed(specs, x) && k in x.s.latest && Safe(x, k)
    ensures k in y.s.latest && Safe(y, k)
    decreases |es|
  {
    hide Step, WellFormed, Safe, IsWritable, ListsPending, Report, Lines, ParseReport;
    if es != [] {
      StepKeepsWellFormed(keys, specs, x, es[0]);
      StepKeepsSafe(keys, specs, x, es[0], k);
      RunsKeepSafe(keys, specs, Step(x, es[0]), es[1..], y, k);
    }
  }

  ghost predicate AlwaysKept(keys: seq<string>, specs: Specs, x: Sys, k: string) {
    forall es, y | Runs(keys, specs, x, es, y) && NoEditOf(es, k) :: Kept(y.s, k)
  }

  /**
   * From any state: the user's last word on a key survives every run of any number of flushes and refreshes, whatever
   * writes fail, exactly if it is kept now and no flush holds an older value of it or has written over it.
   */
  lemma KeptForGoodIff(keys: seq<string>, specs: Specs, x: Sys, k: string)
    requires WellFormed(specs, x) && k in x.s.latest
    ensures AlwaysKept(keys, specs, x, k) <==> Safe(x, k)
  {
    hide Runs, WellFormed, Kept, TaskSafe;
    if Safe(x, k) {
      forall es, y | Runs(keys, specs, x, es, y) && NoEditOf(es, k) ensures Kept(y.s, k) {
        RunsKeepSafe(keys, specs, x, es, y, k);
      }
    } else {
      var es, y := LosesWord(keys, specs, x, k);
    }
  }

  /** From every other state some run loses the user's word. */
  lemma LosesWord(keys: seq<string>, specs: Specs, x: Sys, k: string) returns (es: seq<Event>, y: Sys)
    requires WellFormed(specs, x) && k in x.s.latest && !Safe(x, k)
    ensures Runs(keys, specs, x, es, y) && NoEditOf(es, k) && !Kept(y.s, k)
  {
    hide WellFormed, Kept, TaskSafe, Step, Enabled;
    if !Kept(x.s, k) {
      es, y := [], x;
    } else {
      var t: nat, v :| t < |x.tasks| && HoldsRow(x.tasks[t], k, v) && !TaskSafe(x, x.tasks[t], k, v);
      es, y := UnsafeTaskLoses(keys, specs, x, t, k, v);
    }
  }

  lemma Chain(keys: seq<string>, specs: Specs, x: Sys, e: Event, es: seq<Event>, y: Sys)
    requires Enabled(keys, specs, x, e) && Runs(keys, specs, Step(x, e), es, y)
    ensures Runs(keys, specs, x, [e] + es, y)
  {
    assert ([e] + es)[0] == e && ([e] + es)[1..] == es;
  }

  /** The task works its way to the row without touching the key; then it writes the old value and clears. */
  lemma {:induction false} UnsafeTaskLoses(keys: seq<string>, specs: Specs, x: Sys, t: nat, k: string, v: string)
    returns (es: seq<Event>, y: Sys)
    requires WellFormed(specs, x) && k in x.s.latest
    requires t < |x.tasks| && HoldsRow(x.tasks[t], k, v) && !TaskSafe(x, x.tasks[t], k, v)
    ensures Runs(keys, specs, x, es, y) && NoEditOf(es, k) && !Kept(y.s, k)
    decreases |x.tasks[t].rows|, !x.tasks[t].wrote
  {
    hide IsWritable, ListsPending, Report, Lines, ParseReport, Runs;
    var head := x.tasks[t].rows[0];
    assert HoldsRow(x.tasks[t], head.0, head.1);
    if head.0 == k && x.tasks[t].wrote {
      assert head == (k, v);
      var e := ClearRow(t, k, v);
      y := Step(x, e);
      es := [e];
      OneStep(keys, specs, x, e);
    } else {
      var e := if x.tasks[t].wrote then ClearRow(t, head.0, head.1) else WriteRow(t, head.0, head.1, head.0 == k);
      var m := Step(x, e);
      StepKeepsWellFormed(keys, specs, x, e);
      assert head.0 != k ==> (k, v) in x.tasks[t].rows[1..];
      assert head.0 == k ==> head == (k, v);
      assert HoldsRow(m.tasks[t], k, v) && !TaskSafe(m, m.tasks[t], k, v);
      var rest;
      rest, y := UnsafeTaskLoses(keys, specs, m, t, k, v);
      Chain(keys, specs, x, e, rest, y);
      es := [e] + rest;
    }
  }

  lemma OneStep(keys: seq<string>, specs: Specs, x: Sys, e: Event)
    requires Enabled(keys, specs, x, e)
    ensures Runs(keys, specs, x, [e], Step(x, e))
  {
    assert [e][1..] == [];
  }

  // ---- runs on which tasks overlap ---------------------------------------------------------------------

  /** A refresh that reads the device before a flush writes it, and stores the row after, leaves the row stale. */
  lemma StaleRefreshRun(k: string, specs: Specs) returns (es: seq<Event>, y: Sys)
    requires PlainKey(k) && k in specs && specs[k].BoolSpec?
    ensures Runs([k], specs, Sys(State(map[], map[k := "0"], map[]), [Idle, Idle]), es, y)
    ensures Kept(y.s, k) && !Settled(y.s, k)
  {
    hide Runs, Report, Lines, ParseReport;
    var x := Sys(State(map[], map[k := "0"], map[]), [Idle, Idle]);
    ReportReadsBackIff([k], x.s.device);
    assert Pairs([k], x.s.device) == [(k, "0")];
    var e1, e2, e3 := Edit(k, "1"), ReadPending(0, [(k, "1")]), ReadDevice(1, [(k, "0")]);
    var e4, e5, e6 := WriteRow(0, k, "1", true), ClearRow(0, k, "1"), UpsertRow(1, k, "0");
    var x1 := Step(x, e1);
    var x2 := Step(x1, e2);
    var x3 := Step(x2, e3);
    var x4 := Step(x3, e4);
    var x5 := Step(x4, e5);
    y := Step(x5, e6);
    OneStep([k], specs, x5, e6);
    Chain([k], specs, x4, e5, [e6], y);
    Chain([k], specs, x3, e4, [e5] + [e6], y);
    Chain([k], specs, x2, e3, [e4] + ([e5] + [e6]), y);
    Chain([k], specs, x1, e2, [e3] + ([e4] + ([e5] + [e6])), y);
    Chain([k], specs, x, e1, [e2] + ([e3] + ([e4] + ([e5] + [e6]))), y);
    es := [e1] + ([e2] + ([e3] + ([e4] + ([e5] + [e6]))));
  }

  lemma {:induction false} RunsJoin(keys: seq<string>, specs: Specs, x: Sys, es: seq<Event>, m: Sys,
                                    fs: seq<Event>, y: Sys)
    requires Runs(keys, specs, x, es, m) && Runs(keys, specs, m, fs, y)
    ensures Runs(keys, specs, x, es + fs, y)
    decreases |es|
  {
    hide IsWritable, ListsPending, Report, Lines, ParseReport, Stored, Cleared, Upserted, Edited;
    if es == [] {
      assert es + fs == fs;
    } else {
      assert (es + fs)[1..] == es[1..] + fs;
      RunsJoin(keys, specs, Step(x, es[0]), es[1..], m, fs, y);
    }
  }

  /** Task 0 still holds the old value "0" of a key that the user has set to "1". */
  function Overtaken(k: string): Sys {
    Sys(State(map[k := Entry("1", true)], map[], map[k := "1"]), [Flushing([(k, "0")], false), Idle])
  }

  /** Another flush has meanwhile brought "1" to the device. */
  function Delivered(k: string): Sys {
    Sys(State(map[k := Entry("1", false)], map[k := "1"], map[k := "1"]),
        [Flushing([(k, "0")], false), Flushing([], false)])
  }

  lemma OvertakenRun(k: string, specs: Specs) returns (es: seq<Event>)
    requires k in specs && specs[k].BoolSpec?
    ensures Runs([k], specs, Sys(State(map[], map[], map[]), [Idle, Idle]), es, Overtaken(k))
  {
    hide Runs, Report, Lines, ParseReport;
    var x := Sys(State(map[], map[], map[]), [Idle, Idle]);
    var e1, e2, e3 := Edit(k, "0"), ReadPending(0, [(k, "0")]), Edit(k, "1");
    var x1 := Step(x, e1);
    var x2 := Step(x1, e2);
    assert Step(x2, e3) == Overtaken(k);
    OneStep([k], specs, x2, e3);
    Chain([k], specs, x1, e2, [e3], Overtaken(k));
    Chain([k], specs, x, e1, [e2] + [e3], Overtaken(k));
    es := [e1] + ([e2] + [e3]);
  }

  lemma DeliveredRun(k: string, specs: Specs) returns (es: seq<Event>)
    requires k in specs && specs[k].BoolSpec?
    ensures Runs([k], specs, Overtaken(k), es, Delivered(k))
  {
    hide Runs, Report, Lines, ParseReport;
    var x := Overtaken(k);
    var e1, e2, e3 := ReadPending(1, [(k, "1")]), WriteRow(1, k, "1", true), ClearRow(1, k, "1");
    var x1 := Step(x, e1);
    var x2 := Step(x1, e2);
    assert [(k, "1")][1..] == [];
    assert Step(x2, e3) == Delivered(k);
    OneStep([k], specs, x2, e3);
    Chain([k], specs, x1, e2, [e3], Delivered(k));
    Chain([k], specs, x, e1, [e2] + [e3], Delivered(k));
    es := [e1] + ([e2] + [e3]);
  }

  /** An edit that falls while a flush holds an older value can be lost, although its own flush has written it. */
  lemma LostEditRun(k: string, specs: Specs) returns (es: seq<Event>, y: Sys)
    requires k in specs && specs[k].BoolSpec?
    ensures Runs([k], specs, Sys(State(map[], map[], map[]), [Idle, Idle]), es, y)
    ensures k in y.s.latest && y.s.latest[k] == "1" && !Kept(y.s, k)
  {
    hide Runs;
    var start := Sys(State(map[], map[], map[]), [Idle, Idle]);
    var first := OvertakenRun(k, specs);
    var second := DeliveredRun(k, specs);
    assert HoldsRow(Delivered(k).tasks[0], k, "0");
    var rest;
    rest, y := UnsafeTaskLoses([k], specs, Delivered(k), 0, k, "0");
    LastWordStays([k], specs, Delivered(k), rest, y, k);
    RunsJoin([k], specs, start, first, Overtaken(k), second, Delivered(k));
    RunsJoin([k], specs, start, first + second, Delivered(k), rest, y);
    es := first + second + rest;
  }

  lemma {:induction false} LastWordStays(keys: seq<string>, specs: Specs, x: Sys, es: seq<Event>, y: Sys, k: string)
    requires Runs(keys, specs, x, es, y) && NoEditOf(es, k) && k in x.s.latest
    ensures k in y.s.latest && y.s.latest[k] == x.s.latest[k]
  {
    NoEdits(es, k);
    EditsStand(keys, specs, x, es, y, k);
  }

  lemma {:induction false} NoEdits(es: seq<Event>, k: string)
    requires NoEditOf(es, k)
    ensures LastEdit(es, k) == None
    decreases |es|
  {
    if es != [] {
      NoEdits(es[1..], k);
    }
  }
}
