/** The device-parameter cache: edits, flushing them over SSH, and reading the device back. */
module DeviceParams {
  import opened Wrappers
  import opened Text
  import opened Decimal

  // ---- the allowlist ---------------------------------------------------------------

  datatype Spec = BoolSpec | IntSpec(min: int, max: int) | EnumSpec(options: set<string>) | InfoSpec

  type Specs = map<string, Spec>

  /** The single guard of every write path. */
  predicate IsWritable(specs: Specs, key: string, value: string) {
    key in specs &&
    match specs[key]
    case BoolSpec => value == "0" || value == "1"
    case IntSpec(min, max) => ParseI64(value).Some? && min <= ParseI64(value).value <= max
    case EnumSpec(options) => value in options
    case InfoSpec => false
  }

  // ---- the read-back report ------------------------------------------------------------

  function ValueOn(device: map<string, string>, key: string): string {
    if key in device then device[key] else ""
  }

  /** What the device prints: each allowlisted key, a tab, its value, a newline. */
  function Report(keys: seq<string>, device: map<string, string>): string {
    if keys == [] then ""
    else keys[0] + "\t" + ValueOn(device, keys[0]) + "\n" + Report(keys[1..], device)
  }

  function ParseReport(lines: seq<string>): seq<(string, string)> {
    if lines == [] then []
    else
      match SplitOnce(lines[0], "\t")
      case None => ParseReport(lines[1..])
      case Some(pair) => [pair] + ParseReport(lines[1..])
  }

  /** A value that one line of the report can carry. */
  predicate OneLine(v: string) {
    '\n' !in v && (v == "" || v[|v| - 1] != '\r')
  }

  predicate PlainKey(k: string) {
    '\t' !in k && '\n' !in k
  }

  function Pairs(keys: seq<string>, device: map<string, string>): seq<(string, string)> {
    if keys == [] then [] else [(keys[0], ValueOn(device, keys[0]))] + Pairs(keys[1..], device)
  }

  /** Without line breaks every value is read back, short of a final carriage return. */
  lemma {:induction false} ReportReadsTrimmed(keys: seq<string>, device: map<string, string>)
    requires forall k | k in keys :: PlainKey(k) && '\n' !in ValueOn(device, k)
    ensures ParseReport(Lines(Report(keys, device))) == Trimmed(keys, device)
    decreases |keys|
  {
    hide Lines, SplitOnce;
    if keys != [] {
      var k, v := keys[0], ValueOn(device, keys[0]);
      assert PlainKey(k) && '\n' !in v;
      ReportLine(k, v, Report(keys[1..], device));
      ReportReadsTrimmed(keys[1..], device);
      var lines := Lines(Report(keys, device));
      assert lines[0] == k + "\t" + DropReturn(v) && lines[1..] == Lines(Report(keys[1..], device));
      assert ParseReport(lines) == [(k, DropReturn(v))] + ParseReport(lines[1..]);
    }
  }

  function Trimmed(keys: seq<string>, device: map<string, string>): seq<(string, string)> {
    if keys == [] then [] else [(keys[0], DropReturn(ValueOn(device, keys[0])))] + Trimmed(keys[1..], device)
  }

  lemma ReportLine(k: string, v: string, rest: string)
    requires PlainKey(k) && '\n' !in v
    ensures Lines(k + "\t" + v + "\n" + rest) == [k + "\t" + DropReturn(v)] + Lines(rest)
    ensures SplitOnce(k + "\t" + DropReturn(v), "\t") == Some((k, DropReturn(v)))
  {
    hide Lines;
    var line := k + "\t" + v;
    assert DropReturn(line) == k + "\t" + DropReturn(v) by {
      if v == "" {
        assert line[|line| - 1] == '\t';
      } else {
        assert line[|line| - 1] == v[|v| - 1];
      }
    }
    FirstLine(line, rest);
    SplitOnceChar(k, '\t', DropReturn(v));
  }

  lemma {:induction false} ParsedHasNoBreak(lines: seq<string>)
    requires forall l | l in lines :: '\n' !in l
    ensures forall p | p in ParseReport(lines) :: '\n' !in p.1
    decreases |lines|
  {
    if lines != [] {
      ParsedHasNoBreak(lines[1..]);
      assert '\n' !in lines[0];
    }
  }

  /** The report reads back what the device holds exactly if every value is a single line. */
  lemma ReportReadsBackIff(keys: seq<string>, device: map<string, string>)
    requires forall k | k in keys :: PlainKey(k)
    ensures ParseReport(Lines(Report(keys, device))) == Pairs(keys, device)
            <==> forall k | k in keys :: OneLine(ValueOn(device, k))
  {
    hide Lines, Report, ParseReport;
    PairsHold(keys, device);
    ParsedHasNoBreak(Lines(Report(keys, device)));
    if ParseReport(Lines(Report(keys, device))) == Pairs(keys, device) {
      forall k | k in keys ensures '\n' !in ValueOn(device, k) {
        assert (k, ValueOn(device, k)) in Pairs(keys, device);
      }
    }
    if forall k | k in keys :: '\n' !in ValueOn(device, k) {
      ReportReadsTrimmed(keys, device);
      TrimmedIsPairsIff(keys, device);
    }
  }

  lemma {:induction false} TrimmedIsPairsIff(keys: seq<string>, device: map<string, string>)
    ensures Trimmed(keys, device) == Pairs(keys, device)
            <==> forall k | k in keys :: DropReturn(ValueOn(device, k)) == ValueOn(device, k)
    ensures |Trimmed(keys, device)| == |Pairs(keys, device)| == |keys|
    decreases |keys|
  {
    if keys != [] {
      TrimmedIsPairsIff(keys[1..], device);
      var t, p := Trimmed(keys, device), Pairs(keys, device);
      assert t[1..] == Trimmed(keys[1..], device) && p[1..] == Pairs(keys[1..], device);
      assert t == p <==> t[0] == p[0] && t[1..] == p[1..];
    }
  }

  predicate PlainReport(keys: seq<string>, device: map<string, string>) {
    forall k | k in keys :: PlainKey(k) && OneLine(ValueOn(device, k))
  }

  predicate AllReadAs(device: map<string, string>, pairs: seq<(string, string)>) {
    forall p | p in pairs :: p.1 == ValueOn(device, p.0)
  }

  lemma PairsHold(keys: seq<string>, device: map<string, string>)
    ensures AllReadAs(device, Pairs(keys, device))
    ensures forall k | k in keys :: (k, ValueOn(device, k)) in Pairs(keys, device)
  {
  }

  lemma PlainReportReadsBack(keys: seq<string>, device: map<string, string>)
    requires PlainReport(keys, device)
    ensures AllReadAs(device, ParseReport(Lines(Report(keys, device))))
    ensures forall k | k in keys ::
              exists i :: 0 <= i < |ParseReport(Lines(Report(keys, device)))|
                && ParseReport(Lines(Report(keys, device)))[i] == (k, ValueOn(device, k))
  {
    hide ParseReport, Lines, Report, Pairs;
    ReportReadsBackIff(keys, device);
    PairsHold(keys, device);
  }

  // ---- cache, device and the user's word ---------------------------------------------------

  datatype Entry = Entry(value: string, pending: bool)

  /** `latest` is the last value the user chose for each key. */
  datatype State = State(cache: map<string, Entry>, device: map<string, string>, latest: map<string, string>)

  predicate Pending(s: State, k: string) { k in s.cache && s.cache[k].pending }

  /** A pending value is the user's last word. */
  ghost predicate PendingIsLatest(s: State) {
    forall k | Pending(s, k) :: k in s.latest && s.latest[k] == s.cache[k].value
  }

  /** The user's last word on a key is still on its way or has reached the device. */
  predicate Kept(s: State, k: string) {
    k in s.latest ==> Pending(s, k) || (k in s.device && s.device[k] == s.latest[k])
  }

  /** `cache_set`. */
  function Edited(s: State, k: string, v: string): State {
    s.(cache := s.cache[k := Entry(v, true)], latest := s.latest[k := v])
  }

  function Cleared(s: State, k: string): State {
    if k in s.cache then s.(cache := s.cache[k := s.cache[k].(pending := false)]) else s
  }

  /** The device after a successful `write`. */
  function Stored(s: State, k: string, v: string): State {
    s.(device := s.device[k := v])
  }

  /** The upsert of one value that was read back: it never touches a pending row. */
  function Upserted(s: State, k: string, v: string): State {
    if Pending(s, k) then s else s.(cache := s.cache[k := Entry(v, false)])
  }

  /** The row is on its way to the device, or shows what the device holds. */
  predicate Settled(s: State, k: string) {
    k in s.cache && (s.cache[k].pending || s.cache[k].value == ValueOn(s.device, k))
  }

  /** An upsert settles its row exactly if an edit is waiting or the value read is still the device's. */
  lemma UpsertSettlesIff(s: State, k: string, v: string)
    ensures Settled(Upserted(s, k, v), k) <==> Pending(s, k) || v == ValueOn(s.device, k)
    ensures forall j | Pending(s, j) :: Pending(Upserted(s, k, v), j) && Upserted(s, k, v).cache[j] == s.cache[j]
    ensures forall j :: Kept(Upserted(s, k, v), j) <==> Kept(s, j)
    ensures PendingIsLatest(s) ==> PendingIsLatest(Upserted(s, k, v))
    ensures forall j | j != k && Settled(s, j) :: Settled(Upserted(s, k, v), j)
  {
  }

  lemma OthersUntouched(s: State, k: string, v: string)
    requires PendingIsLatest(s)
    ensures PendingIsLatest(Stored(s, k, v)) && PendingIsLatest(Cleared(s, k))
    ensures forall j | Pending(s, j) :: Pending(Stored(s, k, v), j) && (j != k ==> Pending(Cleared(s, k), j))
    ensures forall j | j != k && Kept(s, j) :: Kept(Stored(s, k, v), j) && Kept(Cleared(s, k), j)
  {
  }

  /** With the flushed value on the device, clearing its key keeps the user's word exactly if it was not overtaken. */
  lemma ClearKeepsIff(s: State, k: string, v: string)
    requires PendingIsLatest(s) && Pending(s, k) && k in s.device && s.device[k] == v
    ensures Kept(Cleared(s, k), k) <==> s.cache[k].value == v
  {
  }

  /** Nothing about the key has changed, apart from the device. */
  predicate SameEntry(a: State, b: State, k: string) {
    && (k in a.cache <==> k in b.cache) && (k in a.cache ==> a.cache[k] == b.cache[k])
    && (k in a.latest <==> k in b.latest) && (k in a.latest ==> a.latest[k] == b.latest[k])
  }

  /** The key was edited last: pending, with the user's last word. */
  predicate JustEdited(b: State, k: string) {
    Pending(b, k) && k in b.latest && b.latest[k] == b.cache[k].value
  }

  /** From a to b only the user has edited, and only these keys. */
  ghost predicate OnlyEdits(a: State, b: State, touched: set<string>) {
    b.device == a.device && forall k: string :: SameEntry(a, b, k) || (k in touched && JustEdited(b, k))
  }

  lemma OnlyEditsTrans(a: State, b: State, c: State, t: set<string>, u: set<string>)
    requires OnlyEdits(a, b, t) && OnlyEdits(b, c, u)
    ensures OnlyEdits(a, c, t + u)
  {
    forall k: string ensures SameEntry(a, c, k) || (k in t + u && JustEdited(c, k)) {
      assert SameEntry(a, b, k) || (k in t && JustEdited(b, k));
      assert SameEntry(b, c, k) || (k in u && JustEdited(c, k));
    }
  }

  /** Edits keep both invariants, whatever they touch. */
  lemma EditsKeep(a: State, b: State, touched: set<string>, k: string)
    requires OnlyEdits(a, b, touched)
    ensures Kept(a, k) ==> Kept(b, k)
    ensures PendingIsLatest(a) ==> PendingIsLatest(b)
    ensures Pending(a, k) ==> Pending(b, k) && (b.cache[k] == a.cache[k] || k in touched)
    ensures Settled(a, k) ==> Settled(b, k)
  {
    assert SameEntry(a, b, k) || JustEdited(b, k);
    forall j | Pending(b, j) && PendingIsLatest(a) ensures j in b.latest && b.latest[j] == b.cache[j].value {
      assert SameEntry(a, b, j) || JustEdited(b, j);
    }
  }

  function KeysOf(batch: seq<(string, string)>): set<string> {
    set e | e in batch :: e.0
  }

  /** The keys edited at the given times. */
  ghost function Touched(edits: nat -> seq<(string, string)>, from: nat, until: nat): set<string>
    decreases until
  {
    if from >= until then {}
    else Touched(edits, from, until - 1) + KeysOf(edits(until - 1))
  }

  lemma {:induction false} TouchedMore(edits: nat -> seq<(string, string)>, from: nat, mid: nat, until: nat)
    requires from <= mid <= until
    ensures Touched(edits, from, until) == Touched(edits, from, mid) + Touched(edits, mid, until)
    decreases until
  {
    if mid < until {
      TouchedMore(edits, from, mid, until - 1);
    }
  }

  // ---- the reconcile, with edits landing before any of its operations -----------------------------

  class ParamSync {
    const keys: seq<string>
    const specs: Specs
    const edits: nat -> seq<(string, string)>   // the edits that arrive before each awaited operation
    var clock: nat
    var cache: map<string, Entry>
    var device: map<string, string>
    ghost var latest: map<string, string>

    ghost function Abstract(): State
      reads this
    {
      State(cache, device, latest)
    }

    constructor (keys: seq<string>, specs: Specs, edits: nat -> seq<(string, string)>, device: map<string, string>)
      ensures Abstract() == State(map[], device, map[]) && PendingIsLatest(Abstract())
      ensures this.keys == keys && this.specs == specs && this.edits == edits
    {
      this.keys, this.specs, this.edits, this.device := keys, specs, edits, device;
      clock, cache, latest := 0, map[], map[];
    }

    /** An edit that the guard admits. */
    method CacheSet(k: string, v: string)
      modifies this`cache, this`latest
      ensures Abstract() == Edited(old(Abstract()), k, v)
    {
      cache := cache[k := Entry(v, true)];
      latest := latest[k := v];
    }

    /** The user's edits that arrive before the next awaited operation. */
    method Others()
      modifies this`cache, this`latest, this`clock
      ensures clock == old(clock) + 1
      ensures OnlyEdits(old(Abstract()), Abstract(), Touched(edits, old(clock), clock))
    {
      hide Edited;
      var batch := edits(clock);
      for i := 0 to |batch|
        invariant clock == old(clock)
        invariant OnlyEdits(old(Abstract()), Abstract(), KeysOf(batch[..i]))
      {
        if IsWritable(specs, batch[i].0, batch[i].1) {
          EditIsEdit(Abstract(), batch[i].0, batch[i].1);
          OnlyEditsTrans(old(Abstract()), Abstract(), Edited(Abstract(), batch[i].0, batch[i].1),
                         KeysOf(batch[..i]), {batch[i].0});
          CacheSet(batch[i].0, batch[i].1);
        }
        assert batch[..i + 1] == batch[..i] + [batch[i]];
        assert KeysOf(batch[..i + 1]) == KeysOf(batch[..i]) + {batch[i].0};
      }
      clock := clock + 1;
      assert batch[..|batch|] == batch;
      assert Touched(edits, old(clock), old(clock)) == {};
    }

    method ClearPending(k: string)
      modifies this`cache
      ensures Abstract() == Cleared(old(Abstract()), k)
    {
      if k in cache {
        cache := cache[k := cache[k].(pending := false)];
      }
    }

    /** `write`: guarded; the SSH command may fail. */
    method WriteParam(k: string, v: string, ok: bool) returns (done: bool)
      modifies this`device
      ensures done <==> ok && IsWritable(specs, k, v)
      ensures Abstract() == if done then Stored(old(Abstract()), k, v) else old(Abstract())
    {
      done := ok && IsWritable(specs, k, v);
      if done {
        device := device[k := v];
      }
    }

    /** One pending row of a flush: write it, and clear it if that succeeded. */
    method FlushOne(k: string, v: string, ok: bool) returns (wrote: bool, ghost overtaken: bool)
      requires PendingIsLatest(Abstract()) && Pending(Abstract(), k)
      modifies this
      ensures clock >= old(clock) && PendingIsLatest(Abstract())
      ensures forall j | j != k :: Kept(old(Abstract()), j) ==> Kept(Abstract(), j)
      ensures forall j | j != k && Pending(old(Abstract()), j) ::
                Pending(Abstract(), j) && (cache[j] == old(cache)[j] || j in Touched(edits, old(clock), clock))
      ensures IsWritable(specs, k, v) && !overtaken ==> Kept(Abstract(), k)
      ensures overtaken ==> wrote && !Kept(Abstract(), k)
                            && (old(cache)[k].value != v || k in Touched(edits, old(clock), clock))
      ensures wrote ==> ok && IsWritable(specs, k, v)
      ensures ok && IsWritable(specs, k, v) ==> wrote
      ensures IsWritable(specs, k, v) && !wrote ==> Pending(Abstract(), k)
      ensures device == if wrote then old(device)[k := v] else old(device)
    {
      hide OnlyEdits;
      ghost var s0 := Abstract();
      Others();
      ghost var s1 := Abstract();
      AllEditsKeep(s0, s1, Touched(edits, old(clock), clock));
      overtaken := false;
      OthersUntouched(s1, k, v);
      if !IsWritable(specs, k, v) {
        ClearPending(k);
        return false, false;
      }
      wrote := WriteParam(k, v, ok);
      if !wrote {
        return;
      }
      ghost var s2 := Abstract();
      label Written:
      Others();
      ghost var s3 := Abstract();
      AllEditsKeep(s2, s3, Touched(edits, old@Written(clock), clock));
      TouchedMore(edits, old(clock), old@Written(clock), clock);
      ClearKeepsIff(s3, k, v);
      OthersUntouched(s3, k, v);
      overtaken := cache[k].value != v;
      ClearPending(k);
    }

    /**
     * `flush`: the pending rows are read once, then written one by one. A key is overtaken if it was edited between
     * that read and its clear, and dropped if its row never was a valid setting; every other key stays kept.
     */
    method Flush(ok: nat -> bool) returns (n: nat, ghost pend: map<string, string>, ghost fate: map<string, Fate>)
      requires PendingIsLatest(Abstract())
      modifies this
      ensures PendingIsLatest(Abstract()) && clock > old(clock)
      ensures forall k | Pending(old(Abstract()), k) :: k in pend
      ensures fate.Keys == pend.Keys && n == |WrittenIn(fate)|
      ensures device == old(device) + (map k | k in WrittenIn(fate) :: pend[k])
      ensures FatesFit(Abstract(), specs, pend, fate)
      ensures (forall i :: ok(i)) ==> forall k | k in pend :: !fate[k].Failed?
      ensures forall k | Overtaken(fate, k) :: k in Touched(edits, old(clock) + 1, clock)
      ensures forall k | Kept(old(Abstract()), k) && !Lost(fate, k) :: Kept(Abstract(), k)
    {
      hide OnlyEdits, Touched, KeysOf, IsWritable, Kept, PendingIsLatest, WrittenIn, Flushed, FatesFit, SameEntry,
           JustEdited, Overtaken, Lost, Stored, Cleared, KeptBut;
      ghost var s0 := Abstract();
      Others();
      ghost var s1, start := Abstract(), clock;
      AllEditsKeep(s0, s1, Touched(edits, old(clock), clock));
      var rows := map k | k in cache && cache[k].pending :: cache[k].value;
      var left, i := rows.Keys, 0;
      pend, fate, n := rows, map[], 0;
      FlushedNone(s1, specs, pend);
      NothingLost();
      KeptStart(s0, s1);
      ghost var noFailure := forall i :: ok(i);
      while left != {}
        invariant pend == rows
        invariant forall k :: k in left <==> k in rows && k !in fate
        invariant forall k | k in fate :: k in rows
        invariant clock >= start && PendingIsLatest(Abstract())
        invariant forall k | k in left ::
            Pending(Abstract(), k) && (cache[k].value == rows[k] || k in Touched(edits, start, clock))
        invariant n == |WrittenIn(fate)| && device == Flushed(s1.device, pend, fate)
        invariant FatesFit(Abstract(), specs, pend, fate)
        invariant noFailure ==> forall k | k in fate :: !fate[k].Failed?
        invariant forall k | Overtaken(fate, k) :: k in Touched(edits, start, clock)
        invariant KeptBut(s0, Abstract(), fate)
        decreases left
      {
        var k :| k in left;
        ghost var before, was := clock, Abstract();
        var wrote;
        ghost var late;
        wrote, late := FlushOne(k, rows[k], ok(i));
        TouchedMore(edits, start, before, clock);
        ghost var f :=
          if wrote then Written(late) else if IsWritable(specs, k, rows[k]) then Failed else Dropped;
        assert f.Failed? ==> !noFailure;
        FlushedMore(s1.device, pend, fate, k, f);
        LostMore(fate, k, f);
        KeptStep(s0, was, Abstract(), fate, k, f);
        FatesStep(was, Abstract(), specs, pend, fate, k, f);
        left, i := left - {k}, i + 1;
        n := if wrote then n + 1 else n;
        fate := fate[k := f];
      }
      FlushedAll(s1.device, pend, fate);
      KeptEnd(s0, Abstract(), fate);
    }

    /**
     * `refresh`: one report is read, then stored row by row. Pending rows keep their values; once the read has
     * succeeded, every allowlisted row is pending or shows the device's value.
     */
    method Refresh(readOk: bool)
      requires PendingIsLatest(Abstract())
      modifies this`cache, this`latest, this`clock
      ensures PendingIsLatest(Abstract())
      ensures forall k | Pending(old(Abstract()), k) ::
                Pending(Abstract(), k) && (cache[k] == old(cache)[k] || k in Touched(edits, old(clock), clock))
      ensures forall k | Kept(old(Abstract()), k) :: Kept(Abstract(), k)
      ensures readOk && PlainReport(keys, device) ==> forall k | k in keys :: Settled(Abstract(), k)
    {
      hide OnlyEdits, Touched, KeysOf, Kept, PendingIsLatest, Settled, Upserted, Pairs, PlainReport, Report, Lines,
           ParseReport;
      ghost var s0 := Abstract();
      Others();
      AllEditsKeep(s0, Abstract(), Touched(edits, old(clock), clock));
      if !readOk {
        return;
      }
      var actual := ParseReport(Lines(Report(keys, device)));
      for i := 0 to |actual|
        invariant clock >= old(clock) && PendingIsLatest(Abstract())
        invariant forall k | Pending(s0, k) ::
            Pending(Abstract(), k) && (cache[k] == s0.cache[k] || k in Touched(edits, old(clock), clock))
        invariant forall k | Kept(s0, k) :: Kept(Abstract(), k)
        invariant AllReadAs(device, actual) ==> forall j | 0 <= j < i :: Settled(Abstract(), actual[j].0)
      {
        ghost var s1, before := Abstract(), clock;
        Others();
        AllEditsKeep(s1, Abstract(), Touched(edits, before, clock));
        TouchedMore(edits, old(clock), before, clock);
        UpsertSettlesIff(Abstract(), actual[i].0, actual[i].1);
        Upsert(actual[i].0, actual[i].1);
      }
      if PlainReport(keys, device) {
        PlainReportReadsBack(keys, device);
      }
    }

    method Upsert(k: string, v: string)
      modifies this`cache
      ensures Abstract() == Upserted(old(Abstract()), k, v)
    {
      if !(k in cache && cache[k].pending) {
        cache := cache[k := Entry(v, false)];
      }
    }

    /**
     * `reconcile`: whatever writes fail and whatever the user edits meanwhile, his last word on a key survives unless
     * he edited that key between the flush's read and its clear, or an invalid row was dropped.
     */
    method Reconcile(addr: string, ok: nat -> bool, readOk: bool)
      returns (ghost pend: map<string, string>, ghost fate: map<string, Fate>, ghost flushed: nat)
      requires PendingIsLatest(Abstract())
      modifies this
      ensures PendingIsLatest(Abstract())
      ensures forall k | Kept(old(Abstract()), k) && !Lost(fate, k) :: Kept(Abstract(), k)
      ensures forall k | Overtaken(fate, k) :: k in Touched(edits, old(clock) + 1, flushed)
      ensures forall k | k in fate && fate[k].Dropped? :: k in pend && !IsWritable(specs, k, pend[k])
      ensures addr != "" && readOk && PlainReport(keys, device) ==> forall k | k in keys :: Settled(Abstract(), k)
      ensures addr == "" ==> Abstract() == old(Abstract())
    {
      hide OnlyEdits, Touched, KeysOf, Kept, PendingIsLatest, Settled, IsWritable, PlainReport, Lost, WrittenIn;
      pend, fate, flushed := map[], map[], clock;
      if addr == "" {
        return;
      }
      var n;
      n, pend, fate := Flush(ok);
      flushed := clock;
      Refresh(readOk);
    }
  }

  /** What became of a row that a flush read. */
  datatype Fate = Failed | Dropped | Written(overtaken: bool)

  predicate Overtaken(fate: map<string, Fate>, k: string) {
    k in fate && fate[k] == Written(true)
  }

  predicate Lost(fate: map<string, Fate>, k: string) {
    k in fate && (fate[k] == Written(true) || fate[k].Dropped?)
  }

  lemma LostMore(fate: map<string, Fate>, k: string, f: Fate)
    requires k !in fate
    ensures forall j :: Lost(fate[k := f], j) <==> if j == k then f == Written(true) || f.Dropped? else Lost(fate, j)
    ensures forall j :: Overtaken(fate[k := f], j) <==> if j == k then f == Written(true) else Overtaken(fate, j)
  {
    forall j
      ensures Lost(fate[k := f], j) <==> if j == k then f == Written(true) || f.Dropped? else Lost(fate, j)
      ensures Overtaken(fate[k := f], j) <==> if j == k then f == Written(true) else Overtaken(fate, j)
    {
      if j != k {
        assert Lost(fate[k := f], j) <==> Lost(fate, j);
      }
    }
  }

  /** What was kept still is, apart from the keys lost on the way. */
  ghost predicate KeptBut(s: State, t: State, fate: map<string, Fate>) {
    forall j | Kept(s, j) && !Lost(fate, j) :: Kept(t, j)
  }

  lemma KeptStart(s: State, t: State)
    requires forall k :: Kept(s, k) ==> Kept(t, k)
    ensures KeptBut(s, t, map[])
  {
    hide Kept;
  }

  lemma KeptStep(s0: State, s: State, t: State, fate: map<string, Fate>, k: string, f: Fate)
    requires k !in fate && KeptBut(s0, s, fate)
    requires forall j | j != k :: Kept(s, j) ==> Kept(t, j)
    requires Kept(t, k) || f == Written(true) || f.Dropped?
    ensures KeptBut(s0, t, fate[k := f])
  {
    hide Kept, Lost;
    LostMore(fate, k, f);
    forall j | Kept(s0, j) && !Lost(fate[k := f], j) ensures Kept(t, j) {
      if j != k {
        assert !Lost(fate, j);
      }
    }
  }

  lemma KeptEnd(s: State, t: State, fate: map<string, Fate>)
    requires KeptBut(s, t, fate)
    ensures forall k | Kept(s, k) && !Lost(fate, k) :: Kept(t, k)
  {
    hide Kept, Lost;
  }

  lemma NothingLost()
    ensures forall j :: !Lost(map[], j) && !Overtaken(map[], j)
  {
  }

  /** A failed write leaves its row pending; only an invalid row is dropped. */
  predicate FateFits(s: State, f: Fate, k: string, writable: bool) {
    match f
    case Failed => writable && Pending(s, k)
    case Dropped => !writable
    case Written(_) => writable
  }

  predicate FatesFit(s: State, specs: Specs, pend: map<string, string>, fate: map<string, Fate>) {
    forall k | k in fate :: k in pend && FateFits(s, fate[k], k, IsWritable(specs, k, pend[k]))
  }

  lemma FatesStep(s: State, t: State, specs: Specs, pend: map<string, string>, fate: map<string, Fate>,
                  k: string, f: Fate)
    requires FatesFit(s, specs, pend, fate)
    requires forall j | j != k && Pending(s, j) :: Pending(t, j)
    requires k in pend && k !in fate && FateFits(t, f, k, IsWritable(specs, k, pend[k]))
    ensures FatesFit(t, specs, pend, fate[k := f])
  {
  }

  function WrittenIn(fate: map<string, Fate>): set<string> {
    set k | k in fate && fate[k].Written?
  }

  function Flushed(base: map<string, string>, pend: map<string, string>, fate: map<string, Fate>): map<string, string>
    requires forall k | k in fate :: k in pend
  {
    base + map k | k in WrittenIn(fate) :: pend[k]
  }

  lemma FlushedNone(s: State, specs: Specs, pend: map<string, string>)
    ensures Flushed(s.device, pend, map[]) == s.device && WrittenIn(map[]) == {}
    ensures FatesFit(s, specs, pend, map[])
  {
  }

  lemma WrittenHasFate(fate: map<string, Fate>)
    ensures forall k | k in WrittenIn(fate) :: k in fate
  {
  }

  lemma FateAdds(fate: map<string, Fate>, k: string, f: Fate)
    requires k !in fate
    ensures WrittenIn(fate[k := f]) == WrittenIn(fate) + if f.Written? then {k} else {}
  {
  }

  lemma SumUpdate(base: map<string, string>, m: map<string, string>, k: string, v: string)
    ensures base + m[k := v] == (base + m)[k := v]
  {
  }

  lemma FlushedMore(base: map<string, string>, pend: map<string, string>, fate: map<string, Fate>, k: string, f: Fate)
    requires forall j | j in fate :: j in pend
    requires k in pend && k !in fate
    ensures Flushed(base, pend, fate[k := f]) ==
            if f.Written? then Flushed(base, pend, fate)[k := pend[k]] else Flushed(base, pend, fate)
    ensures |WrittenIn(fate[k := f])| == |WrittenIn(fate)| + if f.Written? then 1 else 0
  {
    hide WrittenIn;
    var was, now := WrittenIn(fate), WrittenIn(fate[k := f]);
    WrittenHasFate(fate);
    WrittenHasFate(fate[k := f]);
    if f.Written? {
      FateAdds(fate, k, f);
      assert (map j | j in now :: pend[j]) == (map j | j in was :: pend[j])[k := pend[k]];
      SumUpdate(base, map j | j in was :: pend[j], k, pend[k]);
    } else {
      FateAdds(fate, k, f);
    }
  }

  lemma FlushedAll(base: map<string, string>, pend: map<string, string>, fate: map<string, Fate>)
    requires forall j | j in fate :: j in pend
    ensures Flushed(base, pend, fate) == base + map k | k in WrittenIn(fate) :: pend[k]
    ensures forall k | k in WrittenIn(fate) :: k in pend
  {
  }

  lemma EditIsEdit(s: State, k: string, v: string)
    ensures OnlyEdits(s, Edited(s, k, v), {k})
  {
    forall j: string ensures SameEntry(s, Edited(s, k, v), j) || (j in {k} && JustEdited(Edited(s, k, v), j)) {
    }
  }

  lemma AllEditsKeep(a: State, b: State, touched: set<string>)
    requires OnlyEdits(a, b, touched)
    ensures b.device == a.device
    ensures forall k :: (Kept(a, k) ==> Kept(b, k)) && (Settled(a, k) ==> Settled(b, k))
    ensures PendingIsLatest(a) ==> PendingIsLatest(b)
    ensures forall k | Pending(a, k) :: Pending(b, k) && (b.cache[k] == a.cache[k] || k in touched)
  {
    hide OnlyEdits;
    forall k ensures (Kept(a, k) ==> Kept(b, k)) && (Settled(a, k) ==> Settled(b, k)) {
      EditsKeep(a, b, touched, k);
    }
    forall k | Pending(a, k) ensures Pending(b, k) && (b.cache[k] == a.cache[k] || k in touched) {
      EditsKeep(a, b, touched, k);
    }
    EditsKeep(a, b, touched, "");
    assert b.device == a.device by { EditsKeepDevice(a, b, touched); }
  }

  lemma EditsKeepDevice(a: State, b: State, touched: set<string>)
    requires OnlyEdits(a, b, touched)
    ensures b.device == a.device
  {
  }
}
