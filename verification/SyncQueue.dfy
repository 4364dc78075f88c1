/** The in-memory work queue between scans and the pull workers. */
module SyncQueue {
  import opened Wrappers

  /** One file to pull or reconcile for a segment. */
  datatype QueueItem = QueueItem(dongle: string, ts: string, seg: int, file: string, key: string)

  /** The abstract queue: what is waiting, in order, and what is in flight. */
  datatype Queue = Queue(pending: seq<QueueItem>, active: map<string, (string, string)>)

  function Keys(items: seq<QueueItem>): set<string> {
    set i | 0 <= i < |items| :: items[i].key
  }

  predicate DistinctKeys(items: seq<QueueItem>) {
    forall i, j | 0 <= i < j < |items| :: items[i].key != items[j].key
  }

  /** No key is waiting twice, and none is both waiting and in flight. */
  predicate Consistent(q: Queue) {
    DistinctKeys(q.pending) && Keys(q.pending) !! q.active.Keys
  }

  /** The items of a batch that get in, in order: first of their key, and not already there. */
  function Accepted(q: Queue, items: seq<QueueItem>): (r: seq<QueueItem>)
    requires Consistent(q)
    ensures Consistent(q.(pending := q.pending + r))
    ensures Keys(r) == Keys(items) - Keys(q.pending) - q.active.Keys
    ensures forall it | it in r :: it in items
    decreases |items|
  {
    if items == [] then
      assert q.pending + [] == q.pending;
      []
    else
      var rest := Accepted(q, items[..|items| - 1]);
      var it := items[|items| - 1];
      var q' := q.pending + rest;
      assert Keys(q') == Keys(q.pending) + Keys(rest) by { KeysAppend(q.pending, rest); }
      assert Keys(items) == Keys(items[..|items| - 1]) + {it.key} by {
        KeysAppend(items[..|items| - 1], [it]);
        assert items == items[..|items| - 1] + [it];
      }
      if it.key in Keys(q') || it.key in q.active then rest
      else
        assert q.pending + (rest + [it]) == q' + [it];
        KeysAppend(q', [it]);
        KeysAppend(rest, [it]);
        rest + [it]
  }

  lemma KeysAppend(a: seq<QueueItem>, b: seq<QueueItem>)
    ensures Keys(a + b) == Keys(a) + Keys(b)
  {
    forall k | k in Keys(a) + Keys(b) ensures k in Keys(a + b) {
      if k in Keys(a) {
        var i :| 0 <= i < |a| && a[i].key == k;
        assert (a + b)[i].key == k;
      } else {
        var i :| 0 <= i < |b| && b[i].key == k;
        assert (a + b)[|a| + i].key == k;
      }
    }
  }

  function AfterEnqueue(q: Queue, items: seq<QueueItem>): (q': Queue)
    requires Consistent(q)
    ensures Consistent(q')
  {
    q.(pending := q.pending + Accepted(q, items))
  }

  /** The front item moves from waiting to in flight. */
  function AfterNext(q: Queue): (q': Queue)
    requires Consistent(q) && q.pending != []
    ensures Consistent(q')
    ensures q'.active.Keys == q.active.Keys + {q.pending[0].key} && q.pending[0].key !in q.active
  {
    var it := q.pending[0];
    assert q.pending == [it] + q.pending[1..];
    KeysAppend([it], q.pending[1..]);
    assert it.key in Keys(q.pending);
    Queue(q.pending[1..], q.active[it.key := (it.ts, it.file)])
  }

  function AfterDone(q: Queue, key: string): (q': Queue)
    requires Consistent(q)
    ensures Consistent(q')
  {
    q.(active := q.active - {key})
  }

  /** The drives with work waiting or in flight. */
  function Drives(q: Queue): set<string> {
    (set i | 0 <= i < |q.pending| :: q.pending[i].ts) + (set k | k in q.active :: q.active[k].0)
  }

  /** The shared queue: a deque, the set of its keys, and the in-flight map. */
  class SyncQueue {
    var pending: seq<QueueItem>
    var pendingKeys: set<string>
    var active: map<string, (string, string)>

    ghost predicate Valid()
      reads this
    {
      Consistent(Abstract()) && pendingKeys == Keys(pending)
    }

    ghost function Abstract(): Queue
      reads this
    {
      Queue(pending, active)
    }

    constructor ()
      ensures Valid() && Abstract() == Queue([], map[])
    {
      pending, pendingKeys, active := [], {}, map[];
    }

    method Enqueue(items: seq<QueueItem>) returns (added: nat)
      requires Valid()
      modifies this
      ensures Valid() && Abstract() == AfterEnqueue(old(Abstract()), items)
      ensures added == |Accepted(old(Abstract()), items)|
    {
      ghost var q := Abstract();
      added := 0;
      assert pending == pending + Accepted(q, items[..0]);
      for i := 0 to |items|
        invariant Valid() && active == q.active
        invariant pending == q.pending + Accepted(q, items[..i])
        invariant added == |Accepted(q, items[..i])|
      {
        assert items[..i + 1][..i] == items[..i];
        KeysAppend(q.pending, Accepted(q, items[..i]));
        var it := items[i];
        if it.key in pendingKeys || it.key in active {
          continue;
        }
        KeysAppend(pending, [it]);
        assert [it][0].key in Keys([it]) && Keys([it]) == {it.key};
        assert Accepted(q, items[..i + 1]) == Accepted(q, items[..i]) + [it];
        pendingKeys := pendingKeys + {it.key};
        pending := pending + [it];
        added := added + 1;
      }
      assert items[..|items|] == items;
    }

    /** One attempt of the worker's wait loop: take the front item if there is one. */
    method Next() returns (r: Option<QueueItem>)
      requires Valid()
      modifies this
      ensures Valid()
      ensures old(pending) == [] ==> r == None && Abstract() == old(Abstract())
      ensures old(pending) != [] ==> r == Some(old(pending)[0]) && Abstract() == AfterNext(old(Abstract()))
    {
      if pending == [] {
        return None;
      }
      var it := pending[0];
      ghost var was := pending;
      KeysAppend([it], pending[1..]);
      assert pending == [it] + pending[1..];
      assert it.key !in Keys(pending[1..]);
      pending := pending[1..];
      pendingKeys := pendingKeys - {it.key};
      active := active[it.key := (it.ts, it.file)];
      r := Some(it);
    }

    method Done(key: string)
      requires Valid()
      modifies this
      ensures Valid() && Abstract() == AfterDone(old(Abstract()), key)
    {
      active := active - {key};
    }

    /** `(drives, files)` waiting or in flight. */
    method Stats() returns (drives: nat, files: nat)
      requires Valid()
      ensures drives == |Drives(Abstract())| && files == |pending| + |active|
    {
      var seen := {};
      for i := 0 to |pending|
        invariant seen == set j | 0 <= j < i :: pending[j].ts
      {
        seen := seen + {pending[i].ts};
      }
      var left := active.Keys;
      while left != {}
        invariant left <= active.Keys
        invariant seen == (set j | 0 <= j < |pending| :: pending[j].ts)
                          + (set k | k in active.Keys - left :: active[k].0)
      {
        var k :| k in left;
        seen, left := seen + {active[k].0}, left - {k};
      }
      assert active.Keys - left == active.Keys;
      assert seen == Drives(Abstract());
      drives, files := |seen|, |pending| + |active|;
    }
  }

  // ---- whole runs --------------------------------------------------------------

  datatype QueueEvent = Arrive(items: seq<QueueItem>) | Start | Leave(key: string)

  /** A queue with its history: what ever got in, what was started, how many finished. */
  datatype History = History(q: Queue, accepted: seq<QueueItem>, started: seq<QueueItem>, finished: nat, added: nat)

  function Play(h: History, e: QueueEvent): History
    requires Consistent(h.q)
  {
    match e
    case Arrive(items) =>
      var got := Accepted(h.q, items);
      h.(q := AfterEnqueue(h.q, items), accepted := h.accepted + got, added := h.added + |got|)
    case Start =>
      if h.q.pending == [] then h
      else h.(q := AfterNext(h.q), started := h.started + [h.q.pending[0]])
    case Leave(key) =>
      h.(q := AfterDone(h.q, key), finished := h.finished + if key in h.q.active then 1 else 0)
  }

  function Replay(events: seq<QueueEvent>): (h: History)
    ensures Consistent(h.q)
    decreases |events|
  {
    if events == [] then History(Queue([], map[]), [], [], 0, 0)
    else Play(Replay(events[..|events| - 1]), events[|events| - 1])
  }

  /** Items start in the order they got in, and none is lost or counted twice. */
  predicate Accounted(h: History) {
    && h.accepted == h.started + h.q.pending
    && h.added == |h.q.pending| + |h.q.active| + h.finished
  }

  lemma PlayAccounted(h: History, e: QueueEvent)
    requires Consistent(h.q) && Accounted(h)
    ensures Accounted(Play(h, e))
  {
    match e
    case Arrive(items) => GrowAccounted(h, items);
    case Start => if h.q.pending != [] { StartAccounted(h); }
    case Leave(key) => FinishAccounted(h, key);
  }

  lemma GrowAccounted(h: History, items: seq<QueueItem>)
    requires Consistent(h.q) && Accounted(h)
    ensures Accounted(Play(h, Arrive(items)))
  {
  }

  lemma FinishAccounted(h: History, key: string)
    requires Consistent(h.q) && Accounted(h)
    ensures Accounted(Play(h, Leave(key)))
  {
  }

  lemma StartAccounted(h: History)
    requires Consistent(h.q) && Accounted(h) && h.q.pending != []
    ensures Accounted(Play(h, Start))
  {
  }

  /** On every run the queue is first-in first-out and every accepted item is accounted for. */
  lemma {:induction false} QueueRuns(events: seq<QueueEvent>)
    ensures Accounted(Replay(events))
    decreases |events|
  {
    if events != [] {
      QueueRuns(events[..|events| - 1]);
      PlayAccounted(Replay(events[..|events| - 1]), events[|events| - 1]);
    }
  }
}
