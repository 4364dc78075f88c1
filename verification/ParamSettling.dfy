/** When a row of the parameter cache is settled for good, whatever flushes and refreshes are under way. */
module ParamSettling {
  import opened Wrappers
  import opened Text
  import opened Folds
  import opened DeviceParams
  import opened ParamTasks

  /** Every value that may be written fits on one line of the report. */
  ghost predicate PlainSpecs(specs: Specs) {
    forall k, v | IsWritable(specs, k, v) :: OneLine(v)
  }

  /** The task has this value of the key still to write to the device, or to store in the cache. */
  predicate Brings(t: Task, k: string, v: string) {
    !t.Idle? && (k, v) in t.rows && !HasWritten(t, k)
  }

  /** Cache, device and every task under way agree on the value of the key. */
  ghost predicate Unanimous(x: Sys, k: string) {
    && k in x.s.cache && x.s.cache[k].value == ValueOn(x.s.device, k)
    && forall t, v | 0 <= t < |x.tasks| && Brings(x.tasks[t], k, v) :: v == x.s.cache[k].value
  }

  ghost predicate Orderly(keys: seq<string>, specs: Specs, x: Sys) {
    WellFormed(specs, x) && PlainReport(keys, x.s.device)
  }

  // ---- agreement lasts ---------------------------------------------------------------------------

  lemma StepKeepsOrderly(keys: seq<string>, specs: Specs, x: Sys, e: Event)
    requires PlainSpecs(specs) && Orderly(keys, specs, x) && Enabled(keys, specs, x, e)
    ensures Orderly(keys, specs, Step(x, e))
  {
    hide IsWritable, Report, Lines, ParseReport, WellFormed, OneLine;
    StepKeepsWellFormed(keys, specs, x, e);
  }

  lemma StepKeepsUnanimous(keys: seq<string>, specs: Specs, x: Sys, e: Event, k: string)
    requires Orderly(keys, specs, x) && Enabled(keys, specs, x, e) && Unanimous(x, k) && !(e.Edit? && e.key == k)
    ensures Unanimous(Step(x, e), k)
  {
    hide IsWritable, Report, Lines, ParseReport, PlainReport;
    var y := Step(x, e);
    if e.ReadDevice? {
      PlainReportReadsBack(keys, x.s.device);
    }
    assert e.WriteRow? || e.UpsertRow? ==> Brings(x.tasks[e.task], e.key, e.value);
    forall t, v | 0 <= t < |y.tasks| && Brings(y.tasks[t], k, v) ensures v == y.s.cache[k].value {
      if !Brings(x.tasks[t], k, v) {
        assert e.ReadPending? ==> Pending(x.s, k) && x.s.cache[k].value == v;
        assert e.ReadDevice? ==> (k, v) in e.rows;
      }
    }
  }

  lemma {:induction false} RunsKeepUnanimous(keys: seq<string>, specs: Specs, x: Sys, es: seq<Event>, y: Sys, k: string)
    requires PlainSpecs(specs) && Orderly(keys, specs, x) && Unanimous(x, k)
    requires Runs(keys, specs, x, es, y) && NoEditOf(es, k)
    ensures Unanimous(y, k)
    decreases |es|
  {
    hide Step, Orderly, Unanimous, PlainSpecs, IsWritable, ListsPending, Report, Lines, ParseReport;
    if es != [] {
      StepKeepsOrderly(keys, specs, x, es[0]);
      StepKeepsUnanimous(keys, specs, x, es[0], k);
      RunsKeepUnanimous(keys, specs, Step(x, es[0]), es[1..], y, k);
    }
  }

  // ---- disagreement can come out ---------------------------------------------------------------------

  predicate SameKey(a: State, b: State, k: string) {
    SameEntry(a, b, k) && ValueOn(a.device, k) == ValueOn(b.device, k)
  }

  /** A flush works its way to a row, all writes before it failing, without touching its key. */
  lemma {:induction false} SkipTo(keys: seq<string>, specs: Specs, x: Sys, t: nat, k: string, v: string)
    returns (es: seq<Event>, y: Sys)
    requires WellFormed(specs, x) && t < |x.tasks| && HoldsRow(x.tasks[t], k, v)
    ensures Runs(keys, specs, x, es, y) && NoEditOf(es, k) && WellFormed(specs, y) && SameKey(x.s, y.s, k)
    ensures |y.tasks| == |x.tasks| && y.tasks[t].Flushing? && Heads(y.tasks[t], k, v)
    ensures HasWritten(y.tasks[t], k) <==> HasWritten(x.tasks[t], k)
    ensures forall i | 0 <= i < |x.tasks| && i != t :: y.tasks[i] == x.tasks[i]
    decreases |x.tasks[t].rows|
  {
    hide IsWritable, ListsPending, Report, Lines, ParseReport, Runs;
    var head := x.tasks[t].rows[0];
    assert HoldsRow(x.tasks[t], head.0, head.1);
    if head.0 == k {
      es, y := [], x;
      RunsNowhere(keys, specs, x);
    } else {
      var e := if x.tasks[t].wrote then ClearRow(t, head.0, head.1) else WriteRow(t, head.0, head.1, false);
      var m := Step(x, e);
      StepKeepsWellFormed(keys, specs, x, e);
      assert (k, v) in x.tasks[t].rows[1..];
      var rest;
      rest, y := SkipTo(keys, specs, m, t, k, v);
      Chain(keys, specs, x, e, rest, y);
      es := [e] + rest;
    }
  }

  lemma RunsNowhere(keys: seq<string>, specs: Specs, x: Sys)
    ensures Runs(keys, specs, x, [], x)
  {
  }

  /** A flush that holds another value writes it, and clears the mark that an edit may have left. */
  lemma UnsettledByFlush(keys: seq<string>, specs: Specs, x: Sys, t: nat, k: string, v: string)
    returns (es: seq<Event>, y: Sys)
    requires WellFormed(specs, x) && t < |x.tasks| && HoldsRow(x.tasks[t], k, v) && !HasWritten(x.tasks[t], k)
    requires k in x.s.cache && v != x.s.cache[k].value
    ensures Runs(keys, specs, x, es, y) && NoEditOf(es, k) && !Settled(y.s, k)
  {
    hide IsWritable, ListsPending, Report, Lines, ParseReport, Runs;
    var first, m := SkipTo(keys, specs, x, t, k, v);
    assert HoldsRow(m.tasks[t], k, v);
    var e, f := WriteRow(t, k, v, true), ClearRow(t, k, v);
    var m1 := Step(m, e);
    y := Step(m1, f);
    OneStep(keys, specs, m1, f);
    Chain(keys, specs, m, e, [f], y);
    RunsJoin(keys, specs, x, first, m, [e] + [f], y);
    es := first + ([e] + [f]);
  }

  /** A refresh that has read another value stores it, if no edit is waiting. */
  lemma {:induction false} UnsettledByRefresh(keys: seq<string>, specs: Specs, x: Sys, t: nat, k: string, v: string)
    returns (es: seq<Event>, y: Sys)
    requires t < |x.tasks| && x.tasks[t].Refreshing? && (k, v) in x.tasks[t].rows
    requires k in x.s.cache && !Pending(x.s, k) && v != x.s.cache[k].value == ValueOn(x.s.device, k)
    ensures Runs(keys, specs, x, es, y) && NoEditOf(es, k) && !Settled(y.s, k)
    decreases |x.tasks[t].rows|
  {
    hide IsWritable, ListsPending, Report, Lines, ParseReport, Runs;
    var (j, u) := x.tasks[t].rows[0];
    var e := UpsertRow(t, j, u);
    if j == k && u != x.s.cache[k].value {
      y := Step(x, e);
      es := [e];
      OneStep(keys, specs, x, e);
    } else {
      assert (k, v) in x.tasks[t].rows[1..];
      var rest;
      rest, y := UnsettledByRefresh(keys, specs, Step(x, e), t, k, v);
      Chain(keys, specs, x, e, rest, y);
      es := [e] + rest;
    }
  }

  lemma PendingRows(s: State) returns (rows: Rows)
    ensures ListsPending(rows, s)
  {
    var pending := set k | k in s.cache && Pending(s, k) :: (k, s.cache[k].value);
    rows := Listing(pending);
    assert forall k, v :: (k, v) in pending <==> Pending(s, k) && s.cache[k].value == v;
    forall i, j | 0 <= i < j < |rows| ensures rows[i].0 != rows[j].0 {
      assert rows[i] in pending && rows[j] in pending;
    }
  }

  /** An idle task flushes one pending key. */
  lemma FlushKey(keys: seq<string>, specs: Specs, x: Sys, w: nat, k: string) returns (es: seq<Event>, y: Sys)
    requires WellFormed(specs, x) && w < |x.tasks| && x.tasks[w].Idle? && Pending(x.s, k)
    ensures Runs(keys, specs, x, es, y) && NoEditOf(es, k)
    ensures k in y.s.cache && y.s.cache[k] == Entry(x.s.cache[k].value, false)
    ensures ValueOn(y.s.device, k) == x.s.cache[k].value
    ensures |y.tasks| == |x.tasks| && forall i | 0 <= i < |x.tasks| && i != w :: y.tasks[i] == x.tasks[i]
  {
    hide IsWritable, Report, Lines, ParseReport, Runs;
    var v := x.s.cache[k].value;
    var rows := PendingRows(x.s);
    var r, e, f := ReadPending(w, rows), WriteRow(w, k, v, true), ClearRow(w, k, v);
    var x1 := Step(x, r);
    StepKeepsWellFormed(keys, specs, x, r);
    assert (k, v) in rows && HoldsRow(x1.tasks[w], k, v);
    var skip, m := SkipTo(keys, specs, x1, w, k, v);
    assert HoldsRow(m.tasks[w], k, v);
    var m1 := Step(m, e);
    y := Step(m1, f);
    OneStep(keys, specs, m1, f);
    Chain(keys, specs, m, e, [f], y);
    RunsJoin(keys, specs, x1, skip, m, [e] + [f], y);
    Chain(keys, specs, x, r, skip + ([e] + [f]), y);
    es := [r] + (skip + ([e] + [f]));
  }

  /** With another value read and a spare task, an edit that is waiting is flushed first. */
  lemma UnsettledByRead(keys: seq<string>, specs: Specs, x: Sys, t: nat, w: nat, k: string, v: string)
    returns (es: seq<Event>, y: Sys)
    requires WellFormed(specs, x) && t < |x.tasks| && x.tasks[t].Refreshing? && (k, v) in x.tasks[t].rows
    requires w < |x.tasks| && x.tasks[w].Idle? && Settled(x.s, k) && v != x.s.cache[k].value
    ensures Runs(keys, specs, x, es, y) && NoEditOf(es, k) && !Settled(y.s, k)
  {
    hide WellFormed, Runs;
    if Pending(x.s, k) {
      var first, m := FlushKey(keys, specs, x, w, k);
      var rest;
      rest, y := UnsettledByRefresh(keys, specs, m, t, k, v);
      RunsJoin(keys, specs, x, first, m, rest, y);
      es := first + rest;
    } else {
      es, y := UnsettledByRefresh(keys, specs, x, t, k, v);
    }
  }

  predicate Spare(x: Sys, v: nat, w: nat) {
    v < |x.tasks| && w < |x.tasks| && v != w && x.tasks[v].Idle? && x.tasks[w].Idle?
  }

  /** A row that awaits its flush is read back as the device still has it. */
  lemma UnsettledByPending(keys: seq<string>, specs: Specs, x: Sys, v: nat, w: nat, k: string)
    returns (es: seq<Event>, y: Sys)
    requires Orderly(keys, specs, x) && k in keys && Spare(x, v, w)
    requires Pending(x.s, k) && x.s.cache[k].value != ValueOn(x.s.device, k)
    ensures Runs(keys, specs, x, es, y) && NoEditOf(es, k) && !Settled(y.s, k)
  {
    hide WellFormed, PlainReport, Runs, Report, Lines, ParseReport;
    PlainReportReadsBack(keys, x.s.device);
    var rows := ParseReport(Lines(Report(keys, x.s.device)));
    var e := ReadDevice(v, rows);
    StepKeepsWellFormed(keys, specs, x, e);
    var rest;
    rest, y := UnsettledByRead(keys, specs, Step(x, e), v, w, k, ValueOn(x.s.device, k));
    Chain(keys, specs, x, e, rest, y);
    es := [e] + rest;
  }

  /** Unless all agree, some run without another edit of the key leaves the row showing a value the device has not. */
  lemma Unsettles(keys: seq<string>, specs: Specs, x: Sys, v: nat, w: nat, k: string) returns (es: seq<Event>, y: Sys)
    requires Orderly(keys, specs, x) && k in keys && Spare(x, v, w) && !Unanimous(x, k)
    ensures Runs(keys, specs, x, es, y) && NoEditOf(es, k) && !Settled(y.s, k)
  {
    hide WellFormed, PlainReport, Runs;
    if !Settled(x.s, k) {
      es, y := [], x;
      RunsNowhere(keys, specs, x);
    } else if t: nat, u :| t < |x.tasks| && Brings(x.tasks[t], k, u) && u != x.s.cache[k].value {
      if x.tasks[t].Flushing? {
        es, y := UnsettledByFlush(keys, specs, x, t, k, u);
      } else {
        es, y := UnsettledByRead(keys, specs, x, t, w, k, u);
      }
    } else {
      es, y := UnsettledByPending(keys, specs, x, v, w, k);
    }
  }

  ghost predicate AlwaysSettled(keys: seq<string>, specs: Specs, x: Sys, k: string) {
    forall es, y | Runs(keys, specs, x, es, y) && NoEditOf(es, k) :: Settled(y.s, k)
  }

  /**
   * From any state with two tasks yet to start: a row stays settled on every run without another edit of its key,
   * whatever flushes and refreshes do and whatever writes fail, exactly if the cache, the device and all tasks under
   * way already agree on its value. A pending row that the device does not have yet is never settled for good.
   */
  lemma SettledForGoodIff(keys: seq<string>, specs: Specs, x: Sys, v: nat, w: nat, k: string)
    requires PlainSpecs(specs) && Orderly(keys, specs, x) && k in keys && Spare(x, v, w)
    ensures AlwaysSettled(keys, specs, x, k) <==> Unanimous(x, k)
  {
    hide Runs, Orderly, Unanimous, PlainSpecs;
    if Unanimous(x, k) {
      forall es, y | Runs(keys, specs, x, es, y) && NoEditOf(es, k) ensures Settled(y.s, k) {
        RunsKeepUnanimous(keys, specs, x, es, y, k);
        UnanimousIsSettled(y, k);
      }
    } else {
      var es, y := Unsettles(keys, specs, x, v, w, k);
    }
  }

  lemma UnanimousIsSettled(x: Sys, k: string)
    requires Unanimous(x, k)
    ensures Settled(x.s, k)
  {
  }
}
