/** Sync converges: registering wanted files uses up the work, and a drained scan leaves none. */
module Convergence {
  import opened Wrappers
  import opened Names
  import opened FileTypes
  import opened SyncQueue
  import opened DevSync

  /** The files of a device that a scan with these options would enqueue now. */
  function Outstanding(s: State, opts: SyncOpts, dongle: string): set<File> {
    set f | f in s.device && f.0 == dongle && Needed(dongle, opts, s.reg, Rules(s, dongle), f.1).Some?
  }

  function Work(s: State, opts: SyncOpts, dongle: string, f: File): QueueItem
    requires f in Outstanding(s, opts, dongle)
  {
    Needed(dongle, opts, s.reg, Rules(s, dongle), f.1).value
  }

  // ---- the work only shrinks -------------------------------------------------------------

  /** Only new files on the device and changed type settings can make more work for it. */
  predicate RaisesNothing(e: Event, dongle: string) {
    match e
    case Appear(f) => f.0 != dongle
    case SetTypes(_) => false
    case SetOverrides(d, _) => d != dongle
    case _ => true
  }

  /** Rows only gain columns. */
  predicate Grows(a: Registry, b: Registry) {
    forall name | name in a :: name in b && a[name] <= b[name]
  }

  lemma RegisteringGrows(reg: Registry, blobs: set<string>, it: QueueItem)
    ensures Grows(reg, RegisterFile(reg, blobs, it))
  {
    hide SegmentName, FileKind, StoredCams, Has;
  }

  /** What is needed by a later registry was needed, as the same item, by an earlier one. */
  lemma NeededShrinks(dongle: string, opts: SyncOpts, a: Registry, b: Registry, rules: TypeRules, path: string)
    requires Grows(a, b) && Needed(dongle, opts, b, rules, path).Some?
    ensures Needed(dongle, opts, a, rules, path) == Needed(dongle, opts, b, rules, path)
  {
    hide ParseRemotePath, BlobKey, Wanted, RegisteredColumn, SegmentName, TypesFor;
  }

  /** What a step can do to the device, its settings and the registrations. */
  lemma StepShrinks(origin: map<File, Content>, s: State, e: Event, dongle: string)
    requires Consistent(s.queue) && Enabled(origin, s, e) && RaisesNothing(e, dongle)
    ensures var s' := Step(origin, s, e);
            && Grows(s.reg, s'.reg) && Rules(s', dongle) == Rules(s, dongle)
            && (forall f | f in s'.device && f.0 == dongle :: f in s.device)
  {
    hide Needed, RegisterFile, RemotePath, Uploads, NextPhase, ScanItems, AfterEnqueue, AfterNext, AfterDone, ItemOf;
    if e.Advance? {
      RegisteringGrows(s.reg, s.blobs.Keys, s.workers[e.w].item);
    }
  }

  /** No other event adds to the outstanding work, or changes what an outstanding file needs. */
  lemma NothingRaises(origin: map<File, Content>, s: State, e: Event, opts: SyncOpts, dongle: string)
    requires Consistent(s.queue) && Enabled(origin, s, e) && RaisesNothing(e, dongle)
    ensures Outstanding(Step(origin, s, e), opts, dongle) <= Outstanding(s, opts, dongle)
    ensures forall f | f in Outstanding(Step(origin, s, e), opts, dongle) ::
              Work(Step(origin, s, e), opts, dongle, f) == Work(s, opts, dongle, f)
  {
    hide Needed, Step, Enabled, Grows;
    var s' := Step(origin, s, e);
    StepShrinks(origin, s, e, dongle);
    forall f | f in Outstanding(s', opts, dongle)
      ensures Needed(dongle, opts, s.reg, Rules(s, dongle), f.1) == Needed(dongle, opts, s'.reg, Rules(s', dongle), f.1)
    {
      NeededShrinks(dongle, opts, s.reg, s'.reg, Rules(s, dongle), f.1);
    }
  }

  // ---- a registration settles its file ------------------------------------------------------

  /** Worker `w` has just registered `it`. */
  predicate Registers(s: State, e: Event, it: QueueItem) {
    e.Advance? && e.ok && BusyAt(s, e.w) && s.workers[e.w] == Busy(it, Register)
  }

  /** Does the registry hold the item's file, as a scan sees it? */
  predicate InRegistry(reg: Registry, it: QueueItem) {
    Registered(RowOf(reg, SegmentName(it.dongle, it.ts, it.seg)), it.file)
  }

  /** Registering an outstanding file settles it exactly when its name is well-typed. */
  lemma RegisterSettles(origin: map<File, Content>, s: State, e: Event, opts: SyncOpts, dongle: string, f: File)
    requires Consistent(s.queue) && f in Outstanding(s, opts, dongle) && Registers(s, e, Work(s, opts, dongle, f))
    requires Enabled(origin, s, e)
    ensures f !in Outstanding(Step(origin, s, e), opts, dongle) <==> WellTyped(Work(s, opts, dongle, f).file)
    ensures WellTyped(Work(s, opts, dongle, f).file) ==>
              |Outstanding(Step(origin, s, e), opts, dongle)| < |Outstanding(s, opts, dongle)|
  {
    hide NextPhase, RegisterFile, WellTyped, Wanted, InRegistry, Step, Enabled;
    var it := Work(s, opts, dongle, f);
    var s' := Step(origin, s, e);
    NothingRaises(origin, s, e, opts, dongle);
    RegisterStep(origin, s, e, it, dongle);
    NeededIs(dongle, opts, s.reg, Rules(s, dongle), f.1);
    SettledRow(s.reg, s.blobs.Keys, it, TypesFor(opts, Rules(s, dongle), it.ts));
    NeededAfter(dongle, opts, s.reg, s'.reg, Rules(s, dongle), f.1);
    if WellTyped(it.file) {
      SmallerSet(Outstanding(s', opts, dongle), Outstanding(s, opts, dongle), f);
    }
  }

  lemma RegisterStep(origin: map<File, Content>, s: State, e: Event, it: QueueItem, dongle: string)
    requires Consistent(s.queue) && Enabled(origin, s, e) && Registers(s, e, it)
    ensures var s' := Step(origin, s, e);
            && s'.reg == RegisterFile(s.reg, s.blobs.Keys, it)
            && s'.device == s.device && Rules(s', dongle) == Rules(s, dongle)
  {
    hide RegisterFile;
  }

  /** The item of a listed path. */
  lemma NeededIs(dongle: string, opts: SyncOpts, reg: Registry, rules: TypeRules, path: string)
    requires Needed(dongle, opts, reg, rules, path).Some?
    ensures var it := Needed(dongle, opts, reg, rules, path).value;
            it.dongle == dongle && Wanted(it.file, TypesFor(opts, rules, it.ts)) && !InRegistry(reg, it)
            && it.key == BlobKey(it.dongle, it.ts, it.seg, it.file) && ItemOf((dongle, path)) == Some(it)
  {
    hide ParseRemotePath, BlobKey, Wanted, SegmentName, TypesFor;
  }

  /** With the same rules, a path stays needed exactly as long as its item is not in the registry. */
  lemma NeededAfter(dongle: string, opts: SyncOpts, a: Registry, b: Registry, rules: TypeRules, path: string)
    requires Needed(dongle, opts, a, rules, path).Some?
    ensures Needed(dongle, opts, b, rules, path).Some? <==> !InRegistry(b, Needed(dongle, opts, a, rules, path).value)
  {
    hide ParseRemotePath, BlobKey, Wanted, SegmentName, TypesFor;
  }

  lemma SmallerSet<T>(a: set<T>, b: set<T>, x: T)
    requires a <= b && x in b && x !in a
    ensures |a| < |b|
  {
    assert b == a + (b - a) && x in b - a;
    assert |a + (b - a)| == |a| + |b - a|;
  }

  /** The column a scan reads after a registration. */
  lemma SettledRow(reg: Registry, blobs: set<string>, it: QueueItem, types: seq<string>)
    requires Wanted(it.file, types) && !InRegistry(reg, it)
    ensures InRegistry(RegisterFile(reg, blobs, it), it) <==> WellTyped(it.file)
  {
    hide SegmentName, BlobKey, FileKind, RegisteredColumn, Wanted, Has, WellTyped;
    ColumnsAgree(it.file);
    WantedHasColumn(it.file, types);
    var name := SegmentName(it.dongle, it.ts, it.seg);
    var column := RegisteredColumn(it.file).value;
    var row := RowOf(reg, name).GetOr({});
    var row' := RegisterFile(reg, blobs, it)[name];
    assert column !in row;
    if Has(it.file, Qlog) {
      QlogColumn(it.file);
      assert row' == row + {FileKind(it.file).value} + StoredCams(blobs, it.dongle, it.ts, it.seg);
      assert Qlog !in StoredCams(blobs, it.dongle, it.ts, it.seg);
    } else {
      assert row' == row + {FileKind(it.file).value};
    }
  }

  lemma QlogColumn(file: string)
    requires Has(file, Qlog)
    ensures RegisteredColumn(file) == Some(Qlog)
  {
  }

  /** A well-typed file of a known type is in the registry once it has been registered, whatever was there. */
  lemma WellTypedRegisters(reg: Registry, blobs: set<string>, it: QueueItem)
    requires WellTyped(it.file) && FileKind(it.file).Some?
    ensures InRegistry(RegisterFile(reg, blobs, it), it)
  {
    hide SegmentName, BlobKey, FileKind, RegisteredColumn, Has, WellTyped, StoredCams;
    ColumnsAgree(it.file);
  }

  lemma InRegistryGrows(a: Registry, b: Registry, it: QueueItem)
    requires Grows(a, b) && InRegistry(a, it)
    ensures InRegistry(b, it)
  {
    hide SegmentName, RegisteredColumn;
  }

  // ---- runs without failures ----------------------------------------------------------------

  /** No pull, store or registration for this device fails; a failed removal on the device does no harm. */
  predicate Succeeds(s: State, e: Event, dongle: string) {
    e.Advance? && BusyAt(s, e.w) && s.workers[e.w].item.dongle == dongle ==>
      e.ok || !(s.workers[e.w].phase.Pull? || s.workers[e.w].phase.Put? || s.workers[e.w].phase.Register?)
  }

  /** Only other devices upload directly. */
  predicate UploadsElsewhere(e: Event, dongle: string) {
    e.Upload? ==> e.f.0 != dongle && (ItemOf(e.f).Some? ==> ItemNamed(ItemOf(e.f).value))
  }

  /** Whatever else happens: other scans, the pruning toggle, failures and uploads of other devices. */
  predicate Smooth(s: State, e: Event, dongle: string) {
    && Succeeds(s, e, dongle) && RaisesNothing(e, dongle) && UploadsElsewhere(e, dongle)
    && (e.BeginScan? ==> ListingNamed(e.dongle, e.listing))
  }

  predicate SmoothRun(origin: map<File, Content>, s: State, es: seq<Event>, t: State, dongle: string)
    decreases |es|
  {
    if es == [] then s == t
    else
      && Consistent(s.queue) && Enabled(origin, s, es[0]) && Smooth(s, es[0], dongle)
      && SmoothRun(origin, Step(origin, s, es[0]), es[1..], t, dongle)
  }

  /** A name that can be read back from its key. */
  predicate ItemNamed(it: QueueItem) {
    WellNamed(it.dongle, it.seg, it.file)
  }

  predicate ListingNamed(dongle: string, listing: seq<string>) {
    forall p | p in listing && ItemOf((dongle, p)).Some? :: ItemNamed(ItemOf((dongle, p)).value)
  }

  /** Every name in the queue, with the workers and in the scans can be read back from its key. */
  predicate AllNamed(s: State) {
    && (forall it | it in s.queue.pending :: ItemNamed(it))
    && (forall w | 0 <= w < |s.workers| && s.workers[w].Busy? :: ItemNamed(s.workers[w].item))
    && (forall i | 0 <= i < |s.scans| && !s.scans[i].Finished? :: ListingNamed(s.scans[i].dongle, s.scans[i].listing))
  }

  predicate WorksFor(w: Worker, dongle: string) {
    w.Busy? && w.item.dongle == dongle
  }

  /** Between the two existence checks. */
  predicate Fetching(w: Worker) {
    w.Busy? && (w.phase.Pull? || w.phase.Store? || w.phase.Put?)
  }

  predicate PastRegister(w: Worker) {
    w.Busy? && (w.phase.Prune? || w.phase.Remove? || w.phase.Finish?)
  }

  /** What a worker fetches for the device is still missing. */
  predicate FetchesMissing(s: State, dongle: string) {
    forall w | 0 <= w < |s.workers| && WorksFor(s.workers[w], dongle) && Fetching(s.workers[w]) ::
      s.workers[w].item.key !in s.blobs
  }

  /** What a worker is done with for the device is registered. */
  predicate DoneIsRegistered(s: State, dongle: string) {
    forall w | 0 <= w < |s.workers| && WorksFor(s.workers[w], dongle) && PastRegister(s.workers[w])
               && WellTyped(s.workers[w].item.file) :: InRegistry(s.reg, s.workers[w].item)
  }

  /** No worker is dealing with a failure for the device. */
  predicate Tidy(s: State, dongle: string) {
    FetchesMissing(s, dongle) && DoneIsRegistered(s, dongle)
  }

  predicate Drained(s: State) {
    s.queue.pending == [] && forall w | 0 <= w < |s.workers| :: s.workers[w].Idle?
  }

  /** What every smooth run keeps. */
  ghost predicate InOrder(s: State, dongle: string) {
    QueueInv(s.queue, s.workers) && ItemInv(s.queue, s.workers) && AllNamed(s) && Tidy(s, dongle)
  }

  /** A server that has just started is in order, and so is one whose queue has drained and whose scans are done. */
  lemma RestingIsInOrder(s: State, dongle: string)
    requires Initial(s) || (QueueInv(s.queue, s.workers) && Drained(s) && forall c | c in s.scans :: c.Finished?)
    ensures InOrder(s, dongle)
  {
    if Initial(s) {
      InitialInv(map[], s);
    }
  }

  lemma SmoothKeepsFetches(origin: map<File, Content>, s: State, e: Event, dongle: string)
    requires InOrder(s, dongle) && Enabled(origin, s, e) && Smooth(s, e, dongle)
    ensures FetchesMissing(Step(origin, s, e), dongle)
  {
    hide RegisterFile, RemoteFile, ItemOf, SafeComponent, InRegistry, WellTyped, ScanItems, ListingNamed, AfterEnqueue,
         AfterNext, AfterDone, Uploads, ItemNamed, Sound, FileKind,
         DoneIsRegistered, RaisesNothing, Rules;
    var s' := Step(origin, s, e);
    forall v: nat | v < |s'.workers| && WorksFor(s'.workers[v], dongle) && Fetching(s'.workers[v])
      ensures s'.workers[v].item.key !in s'.blobs
    {
      if e.Advance? {
        assert Holds(s.workers, v, s'.workers[v].item.key);
        assert Holds(s.workers, e.w, s.workers[e.w].item.key);
      } else if e.Upload? {
        OtherKey(s.blobs, e.f, s.workers[v].item);
      }
    }
  }

  /** An upload of another device leaves this device's keys alone. */
  lemma OtherKey(blobs: map<string, Content>, f: File, it: QueueItem)
    requires Uploads(blobs, f) && (ItemOf(f).Some? ==> ItemNamed(ItemOf(f).value)) && f.0 != it.dongle
    requires ItemNamed(it) && Sound(it)
    ensures ItemOf(f).Some? && ItemOf(f).value.key != it.key
  {
    hide ParseRemotePath, BlobKey, ItemNamed, Addressable, RemoteFile;
    ParsedIsAddressable(f.1);
    if ItemOf(f).value.key == it.key {
      SameItem(ItemOf(f).value, it);
    }
  }

  lemma SmoothKeepsRegistered(origin: map<File, Content>, s: State, e: Event, dongle: string)
    requires Consistent(s.queue) && ItemInv(s.queue, s.workers) && Tidy(s, dongle)
    requires Enabled(origin, s, e) && Smooth(s, e, dongle)
    ensures DoneIsRegistered(Step(origin, s, e), dongle)
  {
    hide RegisterFile, RemoteFile, ItemOf, SafeComponent, InRegistry, WellTyped, ScanItems, ListingNamed, AfterEnqueue,
         AfterNext, AfterDone, Uploads, Sound, FileKind, Grows;
    var s' := Step(origin, s, e);
    StepShrinks(origin, s, e, dongle);
    forall v: nat | v < |s'.workers| && WorksFor(s'.workers[v], dongle) && PastRegister(s'.workers[v])
                    && WellTyped(s'.workers[v].item.file)
      ensures InRegistry(s'.reg, s'.workers[v].item)
    {
      var it := s'.workers[v].item;
      if Registers(s, e, it) && e.w == v {
        WellTypedRegisters(s.reg, s.blobs.Keys, it);
      } else {
        assert s.workers[v].item == it && PastRegister(s.workers[v]);
        InRegistryGrows(s.reg, s'.reg, it);
      }
    }
  }

  lemma SmoothKeepsNames(origin: map<File, Content>, s: State, e: Event, dongle: string)
    requires Consistent(s.queue) && AllNamed(s) && Enabled(origin, s, e) && Smooth(s, e, dongle)
    ensures AllNamed(Step(origin, s, e))
  {
    hide RegisterFile, RemoteFile, ItemOf, SafeComponent, ScanItems, ItemNamed, ListingNamed, NextPhase, Uploads,
         Succeeds, RaisesNothing, UploadsElsewhere, Rules;
    if e.EnqueueScan? {
      var c := s.scans[e.scan];
      ScannedAreNamed(c.dongle, c.opts, c.reg, c.rules, c.listing);
    }
  }

  lemma ScannedAreNamed(dongle: string, opts: SyncOpts, reg: Registry, rules: TypeRules, listing: seq<string>)
    requires ListingNamed(dongle, listing)
    ensures forall it | it in ScanItems(dongle, opts, reg, rules, listing) :: ItemNamed(it)
  {
    hide ItemOf, ItemNamed, Needed;
    forall it | it in ScanItems(dongle, opts, reg, rules, listing) ensures ItemNamed(it) {
      var p :| p in listing && Needed(dongle, opts, reg, rules, p) == Some(it);
      NeededIs(dongle, opts, reg, rules, p);
    }
  }

  lemma SmoothKeepsOrder(origin: map<File, Content>, s: State, e: Event, dongle: string)
    requires InOrder(s, dongle) && Enabled(origin, s, e) && Smooth(s, e, dongle)
    ensures InOrder(Step(origin, s, e), dongle)
  {
    hide QueueInv, ItemInv, AllNamed, Step, Enabled, Smooth, InRegistry, WellTyped;
    assert Consistent(s.queue) by { QueueIsConsistent(s); }
    StepKeepsQueue(origin, s, e);
    StepKeepsItems(origin, s, e);
    SmoothKeepsNames(origin, s, e, dongle);
    SmoothKeepsFetches(origin, s, e, dongle);
    SmoothKeepsRegistered(origin, s, e, dongle);
  }

  lemma QueueIsConsistent(s: State)
    requires QueueInv(s.queue, s.workers)
    ensures Consistent(s.queue)
  {
  }

  // ---- the scan's work stays ahead -----------------------------------------------------------

  /** The item still has its registration ahead of it. */
  predicate Ahead(s: State, it: QueueItem) {
    it in s.queue.pending || exists w | 0 <= w < |s.workers| :: Carrying(s.workers[w], it)
  }

  predicate Carrying(w: Worker, it: QueueItem) {
    w.Busy? && w.item == it && !PastRegister(w)
  }

  /** Every outstanding file of the device is well-typed. */
  predicate WellTypedWork(s: State, opts: SyncOpts, dongle: string) {
    forall f | f in Outstanding(s, opts, dongle) :: WellTyped(Work(s, opts, dongle, f).file)
  }

  predicate AllAhead(s: State, opts: SyncOpts, dongle: string) {
    forall f | f in Outstanding(s, opts, dongle) :: Ahead(s, Work(s, opts, dongle, f))
  }

  /** Where a scan of the device stands: each of its reads still covers what is outstanding now. */
  predicate Covered(s: State, i: nat, opts: SyncOpts, dongle: string) {
    i < |s.scans| &&
    match s.scans[i]
    case Listed(d, o, listing) => d == dongle && o == opts && ListsAll(listing, s.device, dongle)
    case Diffed(d, o, listing, reg) =>
      d == dongle && o == opts && ListsAll(listing, s.device, dongle) && Grows(reg, s.reg)
    case Resolved(d, o, listing, reg, rules) =>
      d == dongle && o == opts && ListsAll(listing, s.device, dongle) && Grows(reg, s.reg) && rules == Rules(s, dongle)
    case Finished => AllAhead(s, opts, dongle)
  }

  predicate ListsAll(listing: seq<string>, device: set<File>, dongle: string) {
    forall f | f in device && f.0 == dongle :: f.1 in listing
  }

  /** A smooth step leaves an item ahead, unless it is the item's registration. */
  lemma SmoothKeepsAhead(origin: map<File, Content>, s: State, e: Event, dongle: string, it: QueueItem)
    requires QueueInv(s.queue, s.workers) && Tidy(s, dongle) && Enabled(origin, s, e) && Smooth(s, e, dongle)
    requires Ahead(s, it) && !Registers(s, e, it) && it.dongle == dongle
    ensures Ahead(Step(origin, s, e), it)
  {
    hide RegisterFile, RemoteFile, ItemOf, SafeComponent, InRegistry, WellTyped, ScanItems, ListingNamed, Uploads,
         DoneIsRegistered, UploadsElsewhere, RaisesNothing, Rules,
         NextPhase, FetchesMissing, Succeeds;
    var s' := Step(origin, s, e);
    if it in s.queue.pending {
      if e.Take? {
        assert s.queue.pending == [s.queue.pending[0]] + s'.queue.pending;
        assert it in s'.queue.pending || Carrying(s'.workers[e.w], it);
      }
    } else {
      var w: nat :| w < |s.workers| && Carrying(s.workers[w], it);
      if e.Advance? && e.w == w {
        AdvanceCarries(origin, s, e, dongle, it);
      }
      assert Carrying(s'.workers[w], it);
    }
  }

  lemma AdvanceCarries(origin: map<File, Content>, s: State, e: Event, dongle: string, it: QueueItem)
    requires Consistent(s.queue) && FetchesMissing(s, dongle) && Enabled(origin, s, e) && Succeeds(s, e, dongle)
    requires e.Advance? && Carrying(s.workers[e.w], it) && !Registers(s, e, it) && it.dongle == dongle
    ensures Carrying(Step(origin, s, e).workers[e.w], it)
  {
    hide RegisterFile, RemoteFile, ItemOf, SafeComponent;
  }

  lemma SmoothKeepsAllAhead(origin: map<File, Content>, s: State, e: Event, opts: SyncOpts, dongle: string)
    requires QueueInv(s.queue, s.workers) && Tidy(s, dongle) && Enabled(origin, s, e) && Smooth(s, e, dongle)
    requires AllAhead(s, opts, dongle) && WellTypedWork(s, opts, dongle)
    ensures AllAhead(Step(origin, s, e), opts, dongle)
  {
    hide Needed, QueueInv, Tidy, Step, Enabled, Ahead, WellTyped, Registers, Wanted, InRegistry, BlobKey, ItemOf;
    QueueIsConsistent(s);
    var s' := Step(origin, s, e);
    NothingRaises(origin, s, e, opts, dongle);
    forall f | f in Outstanding(s', opts, dongle) ensures Ahead(s', Work(s', opts, dongle, f)) {
      var it := Work(s, opts, dongle, f);
      if Registers(s, e, it) {
        RegisterSettles(origin, s, e, opts, dongle, f);
      } else {
        NeededIs(dongle, opts, s.reg, Rules(s, dongle), f.1);
        SmoothKeepsAhead(origin, s, e, dongle, it);
      }
    }
  }

  /** Two named items with one key are one item. */
  lemma SameItem(a: QueueItem, b: QueueItem)
    requires a.key == b.key && ItemNamed(a) && ItemNamed(b) && Sound(a) && Sound(b)
    ensures a == b
  {
    hide BlobKey, Addressable;
    BlobKeyInjective(a.dongle, a.ts, a.seg, a.file, b.dongle, b.ts, b.seg, b.file);
  }

  /** An item whose key is already waiting or in flight is itself there, and not yet past its registration. */
  lemma AlreadyAhead(s: State, it: QueueItem, dongle: string)
    requires InOrder(s, dongle) && Sound(it) && ItemNamed(it) && WellTyped(it.file) && !InRegistry(s.reg, it)
    requires it.dongle == dongle && it.key in Keys(s.queue.pending) + s.queue.active.Keys
    ensures Ahead(s, it)
  {
    hide Sound, ItemNamed, WellTyped, InRegistry, FileKind, ListingNamed;
    if it.key in Keys(s.queue.pending) {
      var j :| 0 <= j < |s.queue.pending| && s.queue.pending[j].key == it.key;
      assert s.queue.pending[j] in s.queue.pending;
      SameItem(it, s.queue.pending[j]);
    } else {
      var w: nat :| Holds(s.workers, w, it.key);
      SameItem(it, s.workers[w].item);
      assert Carrying(s.workers[w], it);
    }
  }

  /** The enqueue of a covering scan puts every outstanding file ahead. */
  lemma EnqueueCovers(origin: map<File, Content>, s: State, i: nat, opts: SyncOpts, dongle: string)
    requires InOrder(s, dongle) && WellTypedWork(s, opts, dongle) && Covered(s, i, opts, dongle) && s.scans[i].Resolved?
    ensures AllAhead(Step(origin, s, EnqueueScan(i)), opts, dongle)
  {
    hide Needed, InOrder, Ahead, WellTyped, ItemNamed, Sound, InRegistry, Accepted, ScanItems, Grows, Tidy;
    assert Consistent(s.queue) by { OrderIsConsistent(s, dongle); }
    var s' := Step(origin, s, EnqueueScan(i));
    var c := s.scans[i];
    var items := ScanItems(dongle, opts, c.reg, c.rules, c.listing);
    forall f | f in Outstanding(s', opts, dongle) ensures Ahead(s', Work(s', opts, dongle, f)) {
      assert f in Outstanding(s, opts, dongle);
      var it := Work(s, opts, dongle, f);
      NeededShrinks(dongle, opts, c.reg, s.reg, c.rules, f.1);
      NeededIs(dongle, opts, s.reg, Rules(s, dongle), f.1);
      assert it in items;
      EnqueuedIsAhead(s, c, items, it, dongle);
      AheadInQueue(s, s', it);
    }
  }

  lemma OrderIsConsistent(s: State, dongle: string)
    requires InOrder(s, dongle)
    ensures Consistent(s.queue)
  {
  }

  lemma AheadInQueue(s: State, s': State, it: QueueItem)
    requires Ahead(s, it) || it in s'.queue.pending
    requires s'.workers == s.workers && forall x | x in s.queue.pending :: x in s'.queue.pending
    ensures Ahead(s', it)
  {
  }

  /** One item of the scan's batch: it is accepted, or it is already ahead. */
  lemma EnqueuedIsAhead(s: State, c: Scan, items: seq<QueueItem>, it: QueueItem, dongle: string)
    requires InOrder(s, dongle) && c in s.scans && c.Resolved? && Grows(c.reg, s.reg)
    requires items == ScanItems(c.dongle, c.opts, c.reg, c.rules, c.listing) && it in items
    requires it.dongle == dongle && WellTyped(it.file) && !InRegistry(s.reg, it)
    ensures Ahead(s, it) || it in AfterEnqueue(s.queue, items).pending
  {
    hide InOrder, WellTyped, ItemNamed, Sound, InRegistry, Accepted, ScanItems, Grows, FileKind, Ahead;
    OrderIsConsistent(s, dongle);
    ScannedIsSound(c.dongle, c.opts, c.reg, c.rules, c.listing);
    assert ListingNamed(c.dongle, c.listing) by { OrderHasNames(s, c, dongle); }
    ScannedAreNamed(c.dongle, c.opts, c.reg, c.rules, c.listing);
    var got := Accepted(s.queue, items);
    KeyOfMember(items, it);
    if it.key in Keys(s.queue.pending) + s.queue.active.Keys {
      AlreadyAhead(s, it, dongle);
    } else {
      assert it.key in Keys(got);
      var j :| 0 <= j < |got| && got[j].key == it.key;
      assert got[j] in got;
      SameItem(it, got[j]);
    }
  }

  lemma OrderHasNames(s: State, c: Scan, dongle: string)
    requires InOrder(s, dongle) && c in s.scans && !c.Finished?
    ensures ListingNamed(c.dongle, c.listing)
  {
  }

  lemma KeyOfMember(items: seq<QueueItem>, it: QueueItem)
    requires it in items
    ensures it.key in Keys(items)
  {
  }

  lemma SmoothKeepsCovered(origin: map<File, Content>, s: State, e: Event, i: nat, opts: SyncOpts, dongle: string)
    requires InOrder(s, dongle) && Enabled(origin, s, e) && Smooth(s, e, dongle)
    requires WellTypedWork(s, opts, dongle) && Covered(s, i, opts, dongle)
    ensures Covered(Step(origin, s, e), i, opts, dongle)
  {
    hide InOrder, AllAhead, WellTypedWork, Grows, Enabled, Smooth, RegisterFile, ScanItems, AfterEnqueue, AfterNext,
         AfterDone, NextPhase, RemoteFile, ItemOf;
    OrderIsConsistent(s, dongle);
    var s' := Step(origin, s, e);
    SmoothIsQuiet(s, e, dongle);
    StepShrinks(origin, s, e, dongle);
    ScanSteps(origin, s, e, i);
    if e == EnqueueScan(i) {
      EnqueueCovers(origin, s, i, opts, dongle);
    } else if s.scans[i].Finished? {
      OrderParts(s, dongle);
      SmoothKeepsAllAhead(origin, s, e, opts, dongle);
    } else {
      GrowsAlong(s, s', s.scans[i]);
    }
  }

  lemma SmoothIsQuiet(s: State, e: Event, dongle: string)
    requires Smooth(s, e, dongle)
    ensures RaisesNothing(e, dongle)
  {
  }

  lemma OrderParts(s: State, dongle: string)
    requires InOrder(s, dongle)
    ensures QueueInv(s.queue, s.workers) && Tidy(s, dongle)
  {
  }

  lemma GrowsAlong(s: State, s': State, c: Scan)
    requires Grows(s.reg, s'.reg)
    ensures Grows(s.reg, s.reg)
    ensures (c.Diffed? || c.Resolved?) && Grows(c.reg, s.reg) ==> Grows(c.reg, s'.reg)
  {
  }

  /** Only its own events move a scan. */
  lemma ScanSteps(origin: map<File, Content>, s: State, e: Event, i: nat)
    requires Consistent(s.queue) && Enabled(origin, s, e) && i < |s.scans|
    ensures var s', c := Step(origin, s, e), s.scans[i];
            && i < |s'.scans|
            && (e == ReadRegistry(i) ==> c.Listed? && s'.scans[i] == Diffed(c.dongle, c.opts, c.listing, s.reg))
            && (e == ReadRules(i) ==>
                  c.Diffed? && s'.scans[i] == Resolved(c.dongle, c.opts, c.listing, c.reg, Rules(s, c.dongle)))
            && (e == EnqueueScan(i) ==> c.Resolved? && s'.scans[i] == Finished)
            && (e != ReadRegistry(i) && e != ReadRules(i) && e != EnqueueScan(i) ==> s'.scans[i] == c)
            && (e == ReadRegistry(i) || e == ReadRules(i) ==> s'.reg == s.reg)
  {
    hide RegisterFile, ScanItems, AfterEnqueue, AfterNext, AfterDone, NextPhase, RemoteFile, ItemOf, Uploads, Rules;
  }

  lemma {:induction false} SmoothRunCovers(origin: map<File, Content>, s: State, es: seq<Event>, t: State, i: nat,
                                           opts: SyncOpts, dongle: string)
    requires SmoothRun(origin, s, es, t, dongle) && InOrder(s, dongle)
    requires WellTypedWork(s, opts, dongle) && Covered(s, i, opts, dongle)
    ensures Covered(t, i, opts, dongle) && InOrder(t, dongle)
    decreases |es|
  {
    hide InOrder, Covered, Enabled, Smooth, Step, Outstanding;
    if es != [] {
      var s' := Step(origin, s, es[0]);
      SmoothKeepsOrder(origin, s, es[0], dongle);
      SmoothKeepsCovered(origin, s, es[0], i, opts, dongle);
      SmoothIsQuiet(s, es[0], dongle);
      NothingRaises(origin, s, es[0], opts, dongle);
      SmoothRunCovers(origin, s', es[1..], t, i, opts, dongle);
    }
  }

  /**
   * A scan begins in any orderly state and its steps fall between anything else that does not fail. Once it has
   * enqueued its batch and the queue has drained, nothing is outstanding on the device.
   */
  lemma SyncConverges(origin: map<File, Content>, s: State, opts: SyncOpts, dongle: string, listing: seq<string>,
                      es: seq<Event>, t: State)
    requires InOrder(s, dongle) && WellTypedWork(s, opts, dongle) && ListsAll(listing, s.device, dongle)
    requires SmoothRun(origin, s, [BeginScan(dongle, opts, listing)] + es, t, dongle)
    requires |s.scans| < |t.scans| && t.scans[|s.scans|].Finished? && Drained(t)
    ensures Outstanding(t, opts, dongle) == {}
  {
    hide InOrder, Needed;
    var e := BeginScan(dongle, opts, listing);
    assert ([e] + es)[1..] == es;
    var s1 := Step(origin, s, e);
    SmoothKeepsOrder(origin, s, e, dongle);
    assert Outstanding(s1, opts, dongle) == Outstanding(s, opts, dongle);
    SmoothRunCovers(origin, s1, es, t, |s.scans|, opts, dongle);
  }

  // ---- and the next scan finds nothing ----------------------------------------------------------

  /** Where a later scan stands: whatever it has read already rules out every path it listed. */
  predicate FindsNothing(s: State, i: nat, opts: SyncOpts, dongle: string) {
    i < |s.scans| &&
    match s.scans[i]
    case Listed(d, o, listing) =>
      d == dongle && o == opts && forall p | p in listing :: Needed(dongle, opts, s.reg, Rules(s, dongle), p) == None
    case Diffed(d, o, listing, reg) =>
      d == dongle && o == opts && forall p | p in listing :: Needed(dongle, opts, reg, Rules(s, dongle), p) == None
    case Resolved(d, o, listing, reg, rules) =>
      d == dongle && o == opts && forall p | p in listing :: Needed(dongle, opts, reg, rules, p) == None
    case Finished => true
  }

  lemma StepKeepsFinding(origin: map<File, Content>, s: State, e: Event, i: nat, opts: SyncOpts, dongle: string)
    requires Consistent(s.queue) && Enabled(origin, s, e) && RaisesNothing(e, dongle)
    requires FindsNothing(s, i, opts, dongle)
    ensures FindsNothing(Step(origin, s, e), i, opts, dongle)
  {
    hide Needed, Step, Enabled, Grows, Rules;
    var s' := Step(origin, s, e);
    StepShrinks(origin, s, e, dongle);
    ScanSteps(origin, s, e, i);
    if s.scans[i].Listed? {
      forall p | p in s.scans[i].listing ensures Needed(dongle, opts, s'.reg, Rules(s, dongle), p) == None {
        if Needed(dongle, opts, s'.reg, Rules(s, dongle), p).Some? {
          NeededShrinks(dongle, opts, s.reg, s'.reg, Rules(s, dongle), p);
        }
      }
    }
  }

  predicate QuietRun(origin: map<File, Content>, s: State, es: seq<Event>, t: State, dongle: string) {
    Runs(origin, s, es, t) && forall e | e in es :: RaisesNothing(e, dongle)
  }

  lemma {:induction false} QuietRunFindsNothing(origin: map<File, Content>, s: State, es: seq<Event>, t: State, i: nat,
                                                opts: SyncOpts, dongle: string)
    requires QuietRun(origin, s, es, t, dongle) && FindsNothing(s, i, opts, dongle)
    ensures FindsNothing(t, i, opts, dongle)
    decreases |es|
  {
    hide FindsNothing, Step, Enabled, RaisesNothing;
    if es != [] {
      StepKeepsFinding(origin, s, es[0], i, opts, dongle);
      QuietRunFindsNothing(origin, Step(origin, s, es[0]), es[1..], t, i, opts, dongle);
    }
  }

  /**
   * With nothing outstanding, any later scan of the device enqueues nothing, whenever its reads happen and whatever
   * fails meanwhile, as long as no new file or changed setting makes new work.
   */
  lemma NextScanFindsNothing(origin: map<File, Content>, s: State, opts: SyncOpts, dongle: string, listing: seq<string>,
                             es: seq<Event>, t: State)
    requires Outstanding(s, opts, dongle) == {} && forall p | p in listing :: (dongle, p) in s.device
    requires QuietRun(origin, s, [BeginScan(dongle, opts, listing)] + es, t, dongle)
    requires |s.scans| < |t.scans| && t.scans[|s.scans|].Resolved?
    ensures var c := t.scans[|s.scans|];
            c.dongle == dongle && c.opts == opts && ScanItems(c.dongle, c.opts, c.reg, c.rules, c.listing) == []
  {
    hide Needed;
    var e := BeginScan(dongle, opts, listing);
    assert ([e] + es)[0] == e && ([e] + es)[1..] == es && forall x | x in es :: x in [e] + es;
    forall p | p in listing ensures Needed(dongle, opts, s.reg, Rules(s, dongle), p) == None {
      assert (dongle, p) !in Outstanding(s, opts, dongle);
    }
    QuietRunFindsNothing(origin, Step(origin, s, e), es, t, |s.scans|, opts, dongle);
  }

  // ---- the workers run out of steps ---------------------------------------------------------

  function Rank(w: Worker): nat {
    if w.Idle? then 0
    else match w.phase
      case Check => 8
      case Pull => 7
      case Store(_) => 6
      case Put(_) => 5
      case Register => 4
      case Prune => 3
      case Remove => 2
      case Finish => 1
  }

  function Ranks(workers: seq<Worker>): nat {
    if workers == [] then 0 else Rank(workers[0]) + Ranks(workers[1..])
  }

  lemma {:induction false} RanksUpdate(workers: seq<Worker>, w: nat, to: Worker)
    requires w < |workers|
    ensures Ranks(workers[w := to]) == Ranks(workers) - Rank(workers[w]) + Rank(to)
  {
    if w > 0 {
      assert workers[w := to][1..] == workers[1..][w - 1 := to];
      RanksUpdate(workers[1..], w - 1, to);
    } else {
      assert workers[w := to][1..] == workers[1..];
    }
  }

  /** An upper bound on the worker steps still to come: nine for each item waiting. */
  function StepsLeft(s: State): nat {
    9 * |s.queue.pending| + Ranks(s.workers)
  }

  lemma NextPhaseRanksLower(origin: map<File, Content>, s: State, it: QueueItem, phase: Phase, ok: bool)
    requires phase != Finish && (phase == Pull && ok ==> RemoteFile(it) in origin)
    ensures Rank(Busy(it, NextPhase(origin, s, it, phase, ok))) < Rank(Busy(it, phase))
  {
  }

  lemma StepUsesRank(origin: map<File, Content>, s: State, e: Event)
    requires Consistent(s.queue) && Enabled(origin, s, e) && (e.Take? || e.Advance? || e.Done?)
    ensures StepsLeft(Step(origin, s, e)) < StepsLeft(s)
  {
    hide RegisterFile, RemoteFile, ItemOf, NextPhase, Ranks, Consistent;
    var s' := Step(origin, s, e);
    var w := s.workers[e.w];
    if e.Advance? {
      NextPhaseRanksLower(origin, s, w.item, w.phase, e.ok);
    }
    RanksUpdate(s.workers, e.w, s'.workers[e.w]);
    assert s'.workers == s.workers[e.w := s'.workers[e.w]];
    assert |s'.queue.pending| == |s.queue.pending| - if e.Take? then 1 else 0;
  }

  /** Whatever succeeds or fails, the workers take at most so many steps between two scans. */
  lemma {:induction false} WorkersTerminate(origin: map<File, Content>, s: State, es: seq<Event>, t: State)
    requires Runs(origin, s, es, t) && forall e | e in es :: e.Take? || e.Advance? || e.Done?
    ensures |es| + StepsLeft(t) <= StepsLeft(s)
    decreases |es|
  {
    hide Step, Enabled, StepsLeft;
    if es != [] {
      StepUsesRank(origin, s, es[0]);
      WorkersTerminate(origin, Step(origin, s, es[0]), es[1..], t);
    }
  }
}
