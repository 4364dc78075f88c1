/** SSH pull sync as a step system: scans, the shared queue, four workers, and pruning. */
module DevSync {
  import opened Wrappers
  import opened Text
  import opened Decimal
  import opened Names
  import opened FileTypes
  import opened SyncQueue

  type Content = seq<nat>

  /** A file on a device: the device's dongle id and the absolute path. */
  type File = (string, string)

  /** Plain `[A-Za-z0-9._-]` tokens, the only names the pruner embeds in a shell command. */
  predicate SafeComponent(s: string) {
    s != "" && forall c | c in s ::
      'a' <= c <= 'z' || 'A' <= c <= 'Z' || '0' <= c <= '9' || c in ['.', '_', '-']
  }

  // ---- scanning ------------------------------------------------------------------

  /** What to scan: forced types (else resolved per route), and one route or all. */
  datatype SyncOpts = SyncOpts(types: Option<seq<string>>, route: Option<string>)

  /** Type settings as a scan reads them: the default and the per-route overrides, by `ts`. */
  datatype TypeRules = TypeRules(global: seq<string>, overrides: map<string, Option<seq<string>>>)

  function TypesFor(opts: SyncOpts, rules: TypeRules, ts: string): seq<string> {
    match opts.types
    case Some(forced) => forced
    case None =>
      if ts in rules.overrides && rules.overrides[ts].Some? then rules.overrides[ts].value else rules.global
  }

  type Registry = map<string, set<FileType>>

  function RowOf(reg: Registry, name: string): Option<set<FileType>> {
    if name in reg then Some(reg[name]) else None
  }

  /** The work a scan finds for one listed path, if any. */
  function Needed(dongle: string, opts: SyncOpts, reg: Registry, rules: TypeRules, path: string): Option<QueueItem> {
    match ParseRemotePath(path)
    case None => None
    case Some((ts, seg, file)) =>
      if opts.route.Some? && opts.route.value != ts then None
      else if !Wanted(file, TypesFor(opts, rules, ts)) then None
      else if Registered(RowOf(reg, SegmentName(dongle, ts, seg)), file) then None
      else Some(QueueItem(dongle, ts, seg, file, BlobKey(dongle, ts, seg, file)))
  }

  /** The batch a scan enqueues, in listing order. */
  function ScanItems(dongle: string, opts: SyncOpts, reg: Registry, rules: TypeRules, listing: seq<string>)
    : (r: seq<QueueItem>)
    ensures forall it :: it in r <==> exists p | p in listing :: Needed(dongle, opts, reg, rules, p) == Some(it)
    ensures (forall p | p in listing :: Needed(dongle, opts, reg, rules, p) == None) ==> r == []
  {
    if listing == [] then []
    else
      var rest := ScanItems(dongle, opts, reg, rules, listing[1..]);
      assert listing == [listing[0]] + listing[1..];
      match Needed(dongle, opts, reg, rules, listing[0])
      case None => rest
      case Some(it) => [it] + rest
  }

  /** A scan in progress: each awaited read happens at its own time. */
  datatype Scan =
    | Listed(dongle: string, opts: SyncOpts, listing: seq<string>)
    | Diffed(dongle: string, opts: SyncOpts, listing: seq<string>, reg: Registry)
    | Resolved(dongle: string, opts: SyncOpts, listing: seq<string>, reg: Registry, rules: TypeRules)
    | Finished

  // ---- registration ----------------------------------------------------------------

  /** The camera columns a parsed qlog fills in because their blobs are already stored. */
  function StoredCams(blobs: set<string>, dongle: string, ts: string, seg: int): set<FileType> {
    set t | t in CAMERAS && BlobKey(dongle, ts, seg, CamFile(t)) in blobs
  }

  /** The registry after `register_segment_file` succeeds on one stored file. */
  function RegisterFile(reg: Registry, blobs: set<string>, it: QueueItem): Registry {
    var name := SegmentName(it.dongle, it.ts, it.seg);
    var row := RowOf(reg, name).GetOr({});
    var own: set<FileType> := if FileKind(it.file).Some? then {FileKind(it.file).value} else {};
    if Has(it.file, Qlog) then
      reg[name := row + own + StoredCams(blobs, it.dongle, it.ts, it.seg)]
    else if own == {} then reg
    else reg[name := row + own]
  }

  // ---- the system --------------------------------------------------------------------

  datatype Phase = Check | Pull | Store(bytes: Content) | Put(bytes: Content) | Register | Prune | Remove | Finish

  datatype Worker = Idle | Busy(item: QueueItem, phase: Phase)

  const SYNC_CONCURRENCY: nat := 4

  datatype State = State(
    device: set<File>,                            // what is on the devices now
    ever: set<File>,                              // what has ever been there
    blobs: map<string, Content>,                  // the blob store
    reg: Registry,                                // filled URL columns, by segment name
    queue: Queue,
    workers: seq<Worker>,
    scans: seq<Scan>,
    autoprune: bool,
    global: seq<string>,                          // default sync types
    overrides: map<string, map<string, Option<seq<string>>>>)  // by dongle, then ts

  datatype Event =
    | Appear(f: File)
    | SetAutoprune(on: bool)
    | SetTypes(global: seq<string>)
    | SetOverrides(dongle: string, overrides: map<string, Option<seq<string>>>)
    | BeginScan(dongle: string, opts: SyncOpts, listing: seq<string>)
    | ReadRegistry(scan: nat)
    | ReadRules(scan: nat)
    | EnqueueScan(scan: nat)
    | Upload(f: File)
    | Take(w: nat)
    | Advance(w: nat, ok: bool)
    | Done(w: nat)

  function RemoteFile(it: QueueItem): File {
    (it.dongle, RemotePath(it.ts, it.seg, it.file))
  }

  function ItemOf(f: File): Option<QueueItem> {
    match ParseRemotePath(f.1)
    case None => None
    case Some((ts, seg, file)) => Some(QueueItem(f.0, ts, seg, file, BlobKey(f.0, ts, seg, file)))
  }

  function Rules(s: State, dongle: string): TypeRules {
    TypeRules(s.global, if dongle in s.overrides then s.overrides[dongle] else map[])
  }

  predicate BusyAt(s: State, w: nat) {
    w < |s.workers| && s.workers[w].Busy?
  }

  /** Which events can happen. `origin` is the content every device file has, for good. */
  predicate Enabled(origin: map<File, Content>, s: State, e: Event) {
    match e
    case Appear(f) => f in origin
    case SetAutoprune(_) => true
    case SetTypes(_) => true
    case SetOverrides(_, _) => true
    case BeginScan(_, _, _) => true
    case ReadRegistry(i) => i < |s.scans| && s.scans[i].Listed?
    case ReadRules(i) => i < |s.scans| && s.scans[i].Diffed?
    case EnqueueScan(i) => i < |s.scans| && s.scans[i].Resolved?
    case Upload(f) => f in s.device && f in origin && Uploads(s.blobs, f)
    case Take(w) => w < |s.workers| && s.workers[w].Idle? && s.queue.pending != []
    case Advance(w, ok) =>
      && BusyAt(s, w) && s.workers[w].phase != Finish
      && (s.workers[w].phase == Pull && ok ==>
            RemoteFile(s.workers[w].item) in s.device && RemoteFile(s.workers[w].item) in origin)
    case Done(w) => BusyAt(s, w) && s.workers[w].phase == Finish
  }

  /** The upload handler takes a new file under its own key. */
  predicate Uploads(blobs: map<string, Content>, f: File) {
    ItemOf(f).Some? && RemoteFile(ItemOf(f).value) == f && ItemOf(f).value.key !in blobs
  }

  /** Where `process_item` goes next; `ok` is the outcome of the awaited operation. */
  function NextPhase(origin: map<File, Content>, s: State, it: QueueItem, phase: Phase, ok: bool): Phase
    requires phase == Pull && ok ==> RemoteFile(it) in origin
  {
    match phase
    case Check => if it.key in s.blobs then Register else Pull
    case Pull => if ok then Store(origin[RemoteFile(it)]) else Finish
    case Store(bytes) => if it.key in s.blobs then Finish else Put(bytes)
    case Put(_) => if ok then Register else Finish
    case Register => if ok then Prune else Finish
    case Prune => if s.autoprune && it.key in s.blobs && SafeComponent(it.file) then Remove else Finish
    case Remove => Finish
    case Finish => Finish
  }

  /** What the operation does: `put` stores, `register` fills columns, `rm` removes. */
  function Effect(s: State, it: QueueItem, phase: Phase, ok: bool): State {
    match phase
    case Put(bytes) => if ok then s.(blobs := s.blobs[it.key := bytes]) else s
    case Register => if ok then s.(reg := RegisterFile(s.reg, s.blobs.Keys, it)) else s
    case Remove => if ok then s.(device := s.device - {RemoteFile(it)}) else s
    case _ => s
  }

  /** One atomic step. */
  function Step(origin: map<File, Content>, s: State, e: Event): State
    requires Consistent(s.queue) && Enabled(origin, s, e)
  {
    match e
    case Appear(f) => s.(device := s.device + {f}, ever := s.ever + {f})
    case SetAutoprune(on) => s.(autoprune := on)
    case SetTypes(global) => s.(global := global)
    case SetOverrides(dongle, overrides) => s.(overrides := s.overrides[dongle := overrides])
    case BeginScan(dongle, opts, listing) => s.(scans := s.scans + [Listed(dongle, opts, listing)])
    case ReadRegistry(i) =>
      var c := s.scans[i];
      s.(scans := s.scans[i := Diffed(c.dongle, c.opts, c.listing, s.reg)])
    case ReadRules(i) =>
      var c := s.scans[i];
      s.(scans := s.scans[i := Resolved(c.dongle, c.opts, c.listing, c.reg, Rules(s, c.dongle))])
    case EnqueueScan(i) =>
      var c := s.scans[i];
      s.(queue := AfterEnqueue(s.queue, ScanItems(c.dongle, c.opts, c.reg, c.rules, c.listing)),
         scans := s.scans[i := Finished])
    case Upload(f) => s.(blobs := s.blobs[ItemOf(f).value.key := origin[f]])
    case Take(w) =>
      s.(queue := AfterNext(s.queue), workers := s.workers[w := Busy(s.queue.pending[0], Check)])
    case Advance(w, ok) =>
      var Busy(it, phase) := s.workers[w];
      Effect(s, it, phase, ok).(workers := s.workers[w := Busy(it, NextPhase(origin, s, it, phase, ok))])
    case Done(w) =>
      s.(queue := AfterDone(s.queue, s.workers[w].item.key), workers := s.workers[w := Idle])
  }

  predicate Initial(s: State) {
    && s.device == s.ever == {} && s.blobs == map[] && s.reg == map[]
    && s.queue == Queue([], map[])
    && s.workers == seq(SYNC_CONCURRENCY, _ => Idle) && s.scans == []
  }

  /** `s` reaches `t` by the events `es`, in order. */
  predicate Runs(origin: map<File, Content>, s: State, es: seq<Event>, t: State)
    decreases |es|
  {
    if es == [] then s == t
    else
      && Consistent(s.queue) && Enabled(origin, s, es[0])
      && Runs(origin, Step(origin, s, es[0]), es[1..], t)
  }

  // ---- invariants ------------------------------------------------------------------------

  predicate Holds(workers: seq<Worker>, w: nat, key: string) {
    w < |workers| && workers[w].Busy? && workers[w].item.key == key
  }

  /** The in-flight keys are exactly the ones the workers hold, each held by one worker. */
  ghost predicate QueueInv(q: Queue, workers: seq<Worker>) {
    && Consistent(q) && |workers| == SYNC_CONCURRENCY
    && (forall k :: k in q.active <==> exists w: nat :: Holds(workers, w, k))
    && (forall v: nat, w: nat, k :: Holds(workers, v, k) && Holds(workers, w, k) ==> v == w)
  }

  lemma MoveKeepsQueue(q: Queue, workers: seq<Worker>, w: nat, phase: Phase)
    requires QueueInv(q, workers) && w < |workers| && workers[w].Busy?
    ensures QueueInv(q, workers[w := Busy(workers[w].item, phase)])
  {
    var after := workers[w := Busy(workers[w].item, phase)];
    assert forall v: nat, k :: Holds(after, v, k) <==> Holds(workers, v, k);
  }

  lemma TakeKeepsQueue(q: Queue, workers: seq<Worker>, w: nat)
    requires QueueInv(q, workers) && w < |workers| && workers[w].Idle? && q.pending != []
    ensures QueueInv(AfterNext(q), workers[w := Busy(q.pending[0], Check)])
  {
    var key := q.pending[0].key;
    var after := workers[w := Busy(q.pending[0], Check)];
    assert AfterNext(q).active.Keys == q.active.Keys + {key};
    assert forall v: nat, k :: Holds(after, v, k) <==> (if v == w then k == key else Holds(workers, v, k));
    assert Holds(after, w, key);
  }

  lemma DoneKeepsQueue(q: Queue, workers: seq<Worker>, w: nat)
    requires QueueInv(q, workers) && w < |workers| && workers[w].Busy?
    ensures QueueInv(AfterDone(q, workers[w].item.key), workers[w := Idle])
  {
    var key := workers[w].item.key;
    var after := workers[w := Idle];
    assert Holds(workers, w, key);
    assert forall v: nat, k :: Holds(after, v, k) <==> v != w && Holds(workers, v, k);
  }

  lemma StepKeepsQueue(origin: map<File, Content>, s: State, e: Event)
    requires QueueInv(s.queue, s.workers) && Enabled(origin, s, e)
    ensures QueueInv(Step(origin, s, e).queue, Step(origin, s, e).workers)
  {
    match e
    case Take(w) => TakeKeepsQueue(s.queue, s.workers, w);
    case Done(w) => DoneKeepsQueue(s.queue, s.workers, w);
    case Advance(w, ok) =>
      var Busy(it, phase) := s.workers[w];
      MoveKeepsQueue(s.queue, s.workers, w, NextPhase(origin, s, it, phase, ok));
    case _ =>
  }

  /** An item carries the key of an addressable file. */
  predicate Sound(it: QueueItem) {
    it.key == BlobKey(it.dongle, it.ts, it.seg, it.file) && Addressable(it.ts, it.seg, it.file)
  }

  /** Every item waiting or in flight is sound and of a known type. */
  ghost predicate ItemInv(q: Queue, workers: seq<Worker>) {
    && (forall it | it in q.pending :: Sound(it) && FileKind(it.file).Some?)
    && (forall w | 0 <= w < |workers| && workers[w].Busy? ::
          Sound(workers[w].item) && FileKind(workers[w].item.file).Some?)
  }

  lemma ScannedIsSound(dongle: string, opts: SyncOpts, reg: Registry, rules: TypeRules, listing: seq<string>)
    ensures forall it | it in ScanItems(dongle, opts, reg, rules, listing) :: Sound(it) && FileKind(it.file).Some?
  {
    forall it | it in ScanItems(dongle, opts, reg, rules, listing) ensures Sound(it) && FileKind(it.file).Some? {
      var p :| p in listing && Needed(dongle, opts, reg, rules, p) == Some(it);
      ParsedIsAddressable(p);
      WantedHasColumn(it.file, TypesFor(opts, rules, it.ts));
    }
  }

  lemma StepKeepsItems(origin: map<File, Content>, s: State, e: Event)
    requires QueueInv(s.queue, s.workers) && ItemInv(s.queue, s.workers) && Enabled(origin, s, e)
    ensures ItemInv(Step(origin, s, e).queue, Step(origin, s, e).workers)
  {
    hide Sound, FileKind, ScanItems, NextPhase;
    match e
    case EnqueueScan(i) =>
      var c := s.scans[i];
      ScannedIsSound(c.dongle, c.opts, c.reg, c.rules, c.listing);
    case _ =>
  }

  /** `bytes` is the content of the device file that `it` names, and `key` its key. */
  predicate CameFrom(origin: map<File, Content>, key: string, bytes: Content, it: QueueItem) {
    Sound(it) && it.key == key && RemoteFile(it) in origin && origin[RemoteFile(it)] == bytes
  }

  /** Everything stored came from a device file with that key. */
  ghost predicate Sourced(origin: map<File, Content>, blobs: map<string, Content>) {
    forall k | k in blobs :: exists it :: CameFrom(origin, k, blobs[k], it)
  }

  /** So did everything a worker is about to store. */
  predicate Carries(origin: map<File, Content>, w: Worker) {
    w.Busy? && (w.phase.Store? || w.phase.Put?) ==> CameFrom(origin, w.item.key, w.phase.bytes, w.item)
  }

  ghost predicate BlobInv(origin: map<File, Content>, blobs: map<string, Content>, workers: seq<Worker>) {
    Sourced(origin, blobs) && forall w | w in workers :: Carries(origin, w)
  }

  lemma StoringKeepsSourced(origin: map<File, Content>, blobs: map<string, Content>, it: QueueItem, bytes: Content)
    requires Sourced(origin, blobs) && CameFrom(origin, it.key, bytes, it)
    ensures Sourced(origin, blobs[it.key := bytes])
  {
  }

  lemma NextCarries(origin: map<File, Content>, s: State, it: QueueItem, phase: Phase, ok: bool)
    requires Sound(it) && Carries(origin, Busy(it, phase)) && (phase == Pull && ok ==> RemoteFile(it) in origin)
    ensures Carries(origin, Busy(it, NextPhase(origin, s, it, phase, ok)))
  {
  }

  lemma StepKeepsBlobs(origin: map<File, Content>, s: State, e: Event)
    requires QueueInv(s.queue, s.workers) && ItemInv(s.queue, s.workers) && Enabled(origin, s, e)
    requires BlobInv(origin, s.blobs, s.workers)
    ensures BlobInv(origin, Step(origin, s, e).blobs, Step(origin, s, e).workers)
  {
    hide ParseRemotePath, RemotePath, BlobKey, SafeComponent, FileKind, Addressable;
    match e
    case Upload(f) =>
      ParsedIsAddressable(f.1);
      StoringKeepsSourced(origin, s.blobs, ItemOf(f).value, origin[f]);
    case Advance(w, ok) =>
      var Busy(it, phase) := s.workers[w];
      assert Carries(origin, s.workers[w]);
      NextCarries(origin, s, it, phase, ok);
      if phase.Put? && ok {
        StoringKeepsSourced(origin, s.blobs, it, phase.bytes);
      }
      assert Effect(s, it, phase, ok).blobs == if phase.Put? && ok then s.blobs[it.key := phase.bytes] else s.blobs;
    case _ =>
  }

  /** The file is addressed by its own path, and has a key. */
  predicate Canonical(f: File) {
    ItemOf(f).Some? && RemoteFile(ItemOf(f).value) == f
  }

  /** A file that a sync would pull and prune. */
  predicate Prunable(f: File) {
    Canonical(f) && SafeComponent(ItemOf(f).value.file) && FileKind(ItemOf(f).value.file).Some?
  }

  lemma SoundIsCanonical(it: QueueItem)
    requires Sound(it)
    ensures ItemOf(RemoteFile(it)) == Some(it)
  {
    RemotePathRoundTrip(it.ts, it.seg, it.file);
  }

  /** The key of `f` is held in the blob store. */
  predicate Held(blobs: map<string, Content>, f: File) {
    ItemOf(f).Some? && ItemOf(f).value.key in blobs
  }

  /** Whatever left a device was pruned, and its key is held. */
  ghost predicate KeptInv(origin: map<File, Content>, s: State) {
    && (forall f | f in s.ever :: f in origin)
    && (forall w | 0 <= w < |s.workers| && s.workers[w].Busy? && s.workers[w].phase == Remove ::
          s.workers[w].item.key in s.blobs && SafeComponent(s.workers[w].item.file))
    && (forall f | f in s.ever :: f in s.device || (Held(s.blobs, f) && Prunable(f)))
  }

  lemma StepKeepsFiles(origin: map<File, Content>, s: State, e: Event)
    requires QueueInv(s.queue, s.workers) && ItemInv(s.queue, s.workers) && Enabled(origin, s, e)
    requires KeptInv(origin, s)
    ensures KeptInv(origin, Step(origin, s, e))
  {
    match e
    case Advance(w, ok) => AdvanceKeepsFiles(origin, s, w, ok);
    case _ =>
  }

  lemma AdvanceKeepsFiles(origin: map<File, Content>, s: State, w: nat, ok: bool)
    requires Consistent(s.queue) && ItemInv(s.queue, s.workers) && Enabled(origin, s, Advance(w, ok))
    requires KeptInv(origin, s)
    ensures KeptInv(origin, Step(origin, s, Advance(w, ok)))
  {
    hide ParseRemotePath, RemotePath, BlobKey, SafeComponent, FileKind, Addressable;
    var Busy(it, phase) := s.workers[w];
    var s' := Step(origin, s, Advance(w, ok));
    SoundIsCanonical(it);
    assert s.blobs.Keys <= s'.blobs.Keys;
    assert s'.device == if phase == Remove && ok then s.device - {RemoteFile(it)} else s.device;
    assert s'.ever == s.ever;
  }

  ghost predicate Inv(origin: map<File, Content>, s: State) {
    && QueueInv(s.queue, s.workers) && ItemInv(s.queue, s.workers)
    && BlobInv(origin, s.blobs, s.workers) && KeptInv(origin, s)
  }

  lemma InitialInv(origin: map<File, Content>, s: State)
    requires Initial(s)
    ensures Inv(origin, s)
  {
    assert forall w: nat, k :: !Holds(s.workers, w, k);
  }

  /** Every run keeps the invariants. */
  lemma {:induction false} RunsKeepInv(origin: map<File, Content>, s: State, es: seq<Event>, t: State)
    requires Inv(origin, s) && Runs(origin, s, es, t)
    ensures Inv(origin, t)
    decreases |es|
  {
    if es != [] {
      StepKeepsQueue(origin, s, es[0]);
      StepKeepsItems(origin, s, es[0]);
      StepKeepsBlobs(origin, s, es[0]);
      StepKeepsFiles(origin, s, es[0]);
      RunsKeepInv(origin, Step(origin, s, es[0]), es[1..], t);
    }
  }

  // ---- main results: the queue, and no loss --------------------------------------------------

  /** On every run at most four items are in flight, and each in-flight key has exactly one worker. */
  lemma AtMostFourActive(origin: map<File, Content>, s: State, es: seq<Event>, t: State)
    requires Initial(s) && Runs(origin, s, es, t)
    ensures |t.queue.active| <= SYNC_CONCURRENCY
    ensures forall k | k in t.queue.active :: exists w: nat :: Holds(t.workers, w, k)
    ensures forall v: nat, w: nat, k :: Holds(t.workers, v, k) && Holds(t.workers, w, k) ==> v == w
    ensures Consistent(t.queue)
  {
    InitialInv(origin, s);
    RunsKeepInv(origin, s, es, t);
    HeldKeysBound(t.queue.active.Keys, t.workers);
    assert |t.queue.active| == |t.queue.active.Keys|;
  }

  lemma {:induction false} HeldKeysBound(keys: set<string>, workers: seq<Worker>)
    requires forall k | k in keys :: exists w: nat :: Holds(workers, w, k)
    ensures |keys| <= |workers|
    decreases |workers|
  {
    if workers == [] {
      assert keys == {};
    } else {
      var n := |workers| - 1;
      var last := if workers[n].Busy? then {workers[n].item.key} else {};
      forall k | k in keys - last ensures exists w: nat :: Holds(workers[..n], w, k) {
        var w: nat :| Holds(workers, w, k);
        assert Holds(workers[..n], w, k);
      }
      HeldKeysBound(keys - last, workers[..n]);
      assert keys <= (keys - last) + last;
      assert |keys| <= |(keys - last) + last| <= |keys - last| + |last|;
    }
  }

  /** No run ever prunes a file whose key is not held: each file is on its device or in the store. */
  lemma NoFileLost(origin: map<File, Content>, s: State, es: seq<Event>, t: State)
    requires Initial(s) && Runs(origin, s, es, t)
    ensures forall f | f in t.ever :: f in t.device || Held(t.blobs, f)
  {
    InitialInv(origin, s);
    RunsKeepInv(origin, s, es, t);
  }

  /** The store holds the content of every file that is gone from its device. */
  predicate ContentKept(origin: map<File, Content>, s: State) {
    forall f | f in s.ever && f !in s.device ::
      Held(s.blobs, f) && f in origin && s.blobs[ItemOf(f).value.key] == origin[f]
  }

  /** No prunable file shares its key with a file of different content. */
  predicate KeySafe(origin: map<File, Content>) {
    forall f, g | f in origin && g in origin && Prunable(f) && Canonical(g) ::
      ItemOf(f).value.key == ItemOf(g).value.key ==> origin[f] == origin[g]
  }

  ghost predicate NeverLosesContent(origin: map<File, Content>) {
    forall s, es, t :: Initial(s) && Runs(origin, s, es, t) ==> ContentKept(origin, t)
  }

  /** Auto-prune loses no content on any run exactly when prunable files do not share keys. */
  lemma ContentKeptIffKeySafe(origin: map<File, Content>)
    ensures NeverLosesContent(origin) <==> KeySafe(origin)
  {
    if KeySafe(origin) {
      forall s, es, t | Initial(s) && Runs(origin, s, es, t) ensures ContentKept(origin, t) {
        InitialInv(origin, s);
        RunsKeepInv(origin, s, es, t);
        SafeKeysKeepContent(origin, t);
      }
    } else {
      var f, g :| f in origin && g in origin && Prunable(f) && Canonical(g)
                  && ItemOf(f).value.key == ItemOf(g).value.key && origin[f] != origin[g];
      var s, es, t := LosingRun(origin, f, g);
    }
  }

  lemma SafeKeysKeepContent(origin: map<File, Content>, s: State)
    requires KeySafe(origin) && Inv(origin, s)
    ensures ContentKept(origin, s)
  {
    forall f | f in s.ever && f !in s.device
      ensures Held(s.blobs, f) && f in origin && s.blobs[ItemOf(f).value.key] == origin[f]
    {
      var key := ItemOf(f).value.key;
      var it :| CameFrom(origin, key, s.blobs[key], it);
      SoundIsCanonical(it);
      assert Canonical(RemoteFile(it));
    }
  }

  /** Files whose names can be read back from their keys are key-safe. */
  lemma WellNamedIsKeySafe(origin: map<File, Content>)
    requires forall f | f in origin && ItemOf(f).Some? ::
               WellNamed(f.0, ItemOf(f).value.seg, ItemOf(f).value.file)
    ensures KeySafe(origin)
  {
    forall f, g | f in origin && g in origin && Prunable(f) && Canonical(g)
                  && ItemOf(f).value.key == ItemOf(g).value.key
      ensures f == g
    {
      var a, b := ItemOf(f).value, ItemOf(g).value;
      BlobKeyInjective(a.dongle, a.ts, a.seg, a.file, b.dongle, b.ts, b.seg, b.file);
    }
  }

  /** A run extended by one event. */
  lemma {:induction false} Extend(origin: map<File, Content>, s: State, es: seq<Event>, t: State, e: Event)
    requires Runs(origin, s, es, t) && Consistent(t.queue) && Enabled(origin, t, e)
    ensures Runs(origin, s, es + [e], Step(origin, t, e))
    decreases |es|
  {
    if es == [] {
      assert es + [e] == [e];
    } else {
      assert (es + [e])[1..] == es[1..] + [e];
      Extend(origin, Step(origin, s, es[0]), es[1..], t, e);
    }
  }

  /** One step of worker 0, appended to a run. */
  lemma Go(origin: map<File, Content>, s0: State, es: seq<Event>, s: State, it: QueueItem, phase: Phase)
    returns (es': seq<Event>, t: State)
    requires Runs(origin, s0, es, s) && Consistent(s.queue)
    requires |s.workers| > 0 && s.workers[0] == Busy(it, phase) && phase != Finish && phase != Pull
    ensures Runs(origin, s0, es', t)
    ensures t == Effect(s, it, phase, true).(workers := s.workers[0 := Busy(it, NextPhase(origin, s, it, phase, true))])
  {
    Extend(origin, s0, es, s, Advance(0, true));
    es', t := es + [Advance(0, true)], Step(origin, s, Advance(0, true));
  }

  /** From a queued item whose key is held, one worker prunes the device copy. */
  lemma PruneHeld(origin: map<File, Content>, s0: State, es: seq<Event>, s: State, f: File)
    returns (es': seq<Event>, t: State)
    requires Runs(origin, s0, es, s) && Prunable(f) && Held(s.blobs, f) && s.autoprune
    requires s.queue == Queue([ItemOf(f).value], map[]) && s.workers == seq(SYNC_CONCURRENCY, _ => Idle)
    ensures Runs(origin, s0, es', t)
    ensures t.blobs == s.blobs && t.ever == s.ever && t.device == s.device - {f}
  {
    hide ParseRemotePath, RemotePath, BlobKey, FileKind, Addressable;
    hide Runs, RegisterFile;
    var it := ItemOf(f).value;
    Extend(origin, s0, es, s, Take(0));
    var s1 := Step(origin, s, Take(0));
    var e2, s2 := Go(origin, s0, es + [Take(0)], s1, it, Check);
    var e3, s3 := Go(origin, s0, e2, s2, it, Register);
    var e4, s4 := Go(origin, s0, e3, s3, it, Prune);
    es', t := Go(origin, s0, e4, s4, it, Remove);
  }

  const EMPTY: State :=
    State({}, {}, map[], map[], Queue([], map[]), seq(SYNC_CONCURRENCY, _ => Idle), [], false, [], map[])

  const ALL_TYPES: seq<string> := ["qcamera", "fcamera", "dcamera", "ecamera", "rlog"]

  /** A run that stores the upload of `g`, then queues `f` under the same key. */
  lemma QueueBehind(origin: map<File, Content>, f: File, g: File) returns (es: seq<Event>, t: State)
    requires f in origin && g in origin && Prunable(f) && Canonical(g) && f != g
    requires ItemOf(f).value.key == ItemOf(g).value.key
    ensures Runs(origin, EMPTY, es, t)
    ensures t.queue == Queue([ItemOf(f).value], map[]) && t.workers == EMPTY.workers && t.autoprune
    ensures t.blobs == map[ItemOf(g).value.key := origin[g]] && t.ever == t.device == {f, g}
  {
    Extend(origin, EMPTY, [], EMPTY, Appear(g));
    var s1, e1 := Step(origin, EMPTY, Appear(g)), [Appear(g)];
    Extend(origin, EMPTY, e1, s1, Upload(g));
    var s2, e2 := Step(origin, s1, Upload(g)), e1 + [Upload(g)];
    Extend(origin, EMPTY, e2, s2, Appear(f));
    var s3, e3 := Step(origin, s2, Appear(f)), e2 + [Appear(f)];
    Extend(origin, EMPTY, e3, s3, SetAutoprune(true));
    var s4, e4 := Step(origin, s3, SetAutoprune(true)), e3 + [SetAutoprune(true)];
    es, t := ScanOne(origin, EMPTY, e4, s4, f);
  }

  /** A forced scan that lists one unregistered file queues exactly that file. */
  lemma ScanOne(origin: map<File, Content>, s0: State, es: seq<Event>, s: State, f: File)
    returns (es': seq<Event>, t: State)
    requires Runs(origin, s0, es, s) && Prunable(f)
    requires s.queue == Queue([], map[]) && s.scans == [] && s.reg == map[]
    ensures Runs(origin, s0, es', t)
    ensures t == s.(queue := Queue([ItemOf(f).value], map[]), scans := [Finished])
  {
    hide ParseRemotePath, RemotePath, BlobKey, SafeComponent, FileKind, Addressable, AfterEnqueue, ScanItems, Runs,
         Rules;
    var opts := SyncOpts(Some(ALL_TYPES), None);
    var scan := Resolved(f.0, opts, [f.1], map[], Rules(s, f.0));
    var e3 := ScanReads(origin, s0, es, s, f.0, opts, [f.1]);
    var s3 := s.(scans := [scan]);
    Extend(origin, s0, e3, s3, EnqueueScan(0));
    t, es' := Step(origin, s3, EnqueueScan(0)), e3 + [EnqueueScan(0)];
    NeededAlone(f, opts, Rules(s, f.0));
    QueueOne(ItemOf(f).value);
  }

  lemma ScanReads(origin: map<File, Content>, s0: State, es: seq<Event>, s: State,
                  dongle: string, opts: SyncOpts, listing: seq<string>)
    returns (es': seq<Event>)
    requires Runs(origin, s0, es, s) && Consistent(s.queue) && s.scans == []
    ensures Runs(origin, s0, es', s.(scans := [Resolved(dongle, opts, listing, s.reg, Rules(s, dongle))]))
  {
    var e := BeginScan(dongle, opts, listing);
    Extend(origin, s0, es, s, e);
    var s1 := s.(scans := [Listed(dongle, opts, listing)]);
    assert Step(origin, s, e) == s1;
    Extend(origin, s0, es + [e], s1, ReadRegistry(0));
    assert s1.scans[0 := Diffed(dongle, opts, listing, s.reg)] == [Diffed(dongle, opts, listing, s.reg)];
    var s2 := s.(scans := [Diffed(dongle, opts, listing, s.reg)]);
    Extend(origin, s0, es + [e] + [ReadRegistry(0)], s2, ReadRules(0));
    var resolved := Resolved(dongle, opts, listing, s.reg, Rules(s, dongle));
    assert s2.scans[0 := resolved] == [resolved];
    es' := es + [e] + [ReadRegistry(0)] + [ReadRules(0)];
  }

  lemma NeededAlone(f: File, opts: SyncOpts, rules: TypeRules)
    requires Prunable(f) && opts == SyncOpts(Some(ALL_TYPES), None)
    ensures ScanItems(f.0, opts, map[], rules, [f.1]) == [ItemOf(f).value]
  {
    KnownIsWanted(ItemOf(f).value.file);
    assert Needed(f.0, opts, map[], rules, f.1) == Some(ItemOf(f).value);
    assert [f.1][1..] == [];
    assert ScanItems(f.0, opts, map[], rules, [f.1][1..]) == [];
  }

  lemma QueueOne(it: QueueItem)
    ensures AfterEnqueue(Queue([], map[]), [it]) == Queue([it], map[])
  {
    assert [it][..0] == [];
    assert Accepted(Queue([], map[]), [it][..0]) == [];
  }

  lemma KnownIsWanted(file: string)
    requires FileKind(file).Some?
    ensures Wanted(file, ALL_TYPES)
  {
    var t := FileKind(file).value;
    if !Has(file, Qlog) {
      assert t in OPTIONAL_TYPES;
      var o := OptionalType(file).value;
      assert Token(o) in ALL_TYPES by {
        assert ALL_TYPES[0] == Token(Qcamera) && ALL_TYPES[1] == Token(Fcamera) && ALL_TYPES[2] == Token(Dcamera)
            && ALL_TYPES[3] == Token(Ecamera) && ALL_TYPES[4] == Token(Rlog);
      }
    }
  }

  /** With a shared key and different contents, auto-prune can delete the only copy. */
  lemma LosingRun(origin: map<File, Content>, f: File, g: File) returns (s: State, es: seq<Event>, t: State)
    requires f in origin && g in origin && Prunable(f) && Canonical(g)
    requires ItemOf(f).value.key == ItemOf(g).value.key && origin[f] != origin[g]
    ensures Initial(s) && Runs(origin, s, es, t) && !ContentKept(origin, t)
  {
    s := EMPTY;
    var e1, s1 := QueueBehind(origin, f, g);
    es, t := PruneHeld(origin, s, e1, s1, f);
    assert f in t.ever && f !in t.device;
  }

  // ---- a pair of device files with one key ---------------------------------------------------

  function NestedFile(dongle: string): File {
    (dongle, RemotePath("x", 0, "1--qlog.zst"))
  }

  function PlainFile(dongle: string): File {
    (dongle, RemotePath("x--0", 1, "qlog.zst"))
  }

  /** The log `1--qlog.zst` of drive x and the log of segment 1 of drive `x--0` share their key. */
  lemma CollidingPair(dongle: string)
    ensures var f, g := NestedFile(dongle), PlainFile(dongle);
            f != g && Prunable(f) && Prunable(g) && ItemOf(f).value.key == ItemOf(g).value.key
  {
    hide ParseRemotePath, RemotePath, FileKind;
    RemotePathRoundTrip("x", 0, "1--qlog.zst");
    RemotePathRoundTrip("x--0", 1, "qlog.zst");
    assert Show(0) == "0" && Show(1) == "1";
    assert BlobKey(dongle, "x", 0, "1--qlog.zst") == BlobKey(dongle, "x--0", 1, "qlog.zst") by {
      assert dongle + "_" + "x" + "--" + "0" + "--" + "1--qlog.zst"
          == dongle + "_" + "x--0" + "--" + "1" + "--" + "qlog.zst";
    }
    QlogNamed("1--qlog.zst", 3);
    QlogNamed("qlog.zst", 0);
  }

  lemma QlogNamed(file: string, i: nat)
    requires OccursAt(file, "qlog", i)
    ensures FileKind(file).Some?
  {
    QlogHasKind(file);
  }

  /** With that pair on a device and different contents, some run loses one of them. */
  lemma CollidingPairIsLost(origin: map<File, Content>, dongle: string)
    requires NestedFile(dongle) in origin && PlainFile(dongle) in origin
    requires origin[NestedFile(dongle)] != origin[PlainFile(dongle)]
    ensures !NeverLosesContent(origin)
    ensures exists s, es, t :: Initial(s) && Runs(origin, s, es, t) && !ContentKept(origin, t)
  {
    hide Prunable, Canonical, Runs, ContentKept, ItemOf, NestedFile, PlainFile;
    CollidingPair(dongle);
    assert Canonical(PlainFile(dongle)) by { PrunableIsCanonical(PlainFile(dongle)); }
    var s, es, t := LosingRun(origin, NestedFile(dongle), PlainFile(dongle));
  }

  lemma PrunableIsCanonical(f: File)
    requires Prunable(f)
    ensures Canonical(f)
  {
  }
}
