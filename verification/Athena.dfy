/** Liveness of the device sockets: frames, pings, the stale reaper, and what `online` then means. Times are in ms. */
module Athena {
  const TICK: nat := 10_000             // between two pings of a socket, and between two reaper passes
  const OFFLINE_AFTER_SECS: nat := 30

  function Secs(ms: nat): nat { ms / 1000 }

  datatype Row = Row(online: bool, lastPing: nat)
  datatype Socket = Socket(dongle: string, seen: nat, pinged: nat, closing: bool)

  /** An `UPDATE devices` that a socket task has issued at some time and that has not landed yet. */
  datatype Write = Write(dongle: string, online: bool, at: nat)

  /** `heard` remembers when each device last connected or sent a frame. */
  datatype Sys = Sys(
    now: nat,
    rows: map<string, Row>,
    sockets: map<nat, Socket>,
    connected: set<string>,
    writes: seq<Write>,
    reaped: nat,
    heard: map<string, nat>)

  datatype Event =
    | Connect(id: nat, dongle: string)
    | Frame(id: nat)
    | Ping(id: nat, sent: bool)
    | Teardown(id: nat)
    | Land(i: nat)      // an issued update reaches its row
    | Drop(i: nat)      // its task was aborted first
    | Reap
    | Tick(ms: nat)

  predicate HasSocket(s: Sys, dongle: string) {
    exists id | id in s.sockets :: s.sockets[id].dongle == dongle
  }

  /** Time passes no ping, no reaper pass and no landing that is due; updates land within `lag`. */
  predicate MayPass(s: Sys, ms: nat, lag: nat) {
    && s.now + ms <= s.reaped + TICK
    && (forall id | id in s.sockets && !s.sockets[id].closing :: s.now + ms <= s.sockets[id].pinged + TICK)
    && (forall w | w in s.writes :: s.now + ms <= w.at + lag)
  }

  predicate Enabled(s: Sys, e: Event, lag: nat) {
    match e
    case Connect(id, _) => id !in s.sockets
    case Frame(id) => id in s.sockets
    case Ping(id, _) => id in s.sockets && !s.sockets[id].closing
    case Teardown(id) => id in s.sockets
    case Land(i) => i < |s.writes|
    case Drop(i) => i < |s.writes|
    case Reap => true
    case Tick(ms) => MayPass(s, ms, lag)
  }

  /** The socket's ping fails, or nothing has come back for too long. */
  predicate HangsUp(s: Sys, sock: Socket, sent: bool) {
    !sent || Secs(s.now) - Secs(sock.seen) > OFFLINE_AFTER_SECS
  }

  function Updated(rows: map<string, Row>, w: Write): map<string, Row> {
    if w.dongle in rows then rows[w.dongle := Row(w.online, Secs(w.at))] else rows
  }

  predicate Stale(r: Row, now: nat) {
    r.online && r.lastPing < Secs(now) - OFFLINE_AFTER_SECS
  }

  function Reaped(rows: map<string, Row>, now: nat): map<string, Row> {
    map d | d in rows :: if Stale(rows[d], now) then rows[d].(online := false) else rows[d]
  }

  function Without(ws: seq<Write>, i: nat): seq<Write>
    requires i < |ws|
  {
    ws[..i] + ws[i + 1..]
  }

  function Step(s: Sys, e: Event, lag: nat): Sys
    requires Enabled(s, e, lag)
  {
    match e
    case Connect(id, d) =>
      s.(sockets := s.sockets[id := Socket(d, s.now, s.now, false)], connected := s.connected + {d},
         writes := s.writes + [Write(d, true, s.now)], heard := s.heard[d := s.now])
    case Frame(id) =>
      var sock := s.sockets[id];
      s.(sockets := s.sockets[id := sock.(seen := s.now)],
         writes := s.writes + [Write(sock.dongle, true, s.now)], heard := s.heard[sock.dongle := s.now])
    case Ping(id, sent) =>
      var sock := s.sockets[id];
      s.(sockets := s.sockets[id := sock.(pinged := s.now, closing := HangsUp(s, sock, sent))])
    case Teardown(id) =>
      var d := s.sockets[id].dongle;
      s.(sockets := s.sockets - {id}, connected := s.connected - {d}, writes := s.writes + [Write(d, false, s.now)])
    case Land(i) => s.(rows := Updated(s.rows, s.writes[i]), writes := Without(s.writes, i))
    case Drop(i) => s.(writes := Without(s.writes, i))
    case Reap => s.(rows := Reaped(s.rows, s.now), reaped := s.now)
    case Tick(ms) => s.(now := s.now + ms)
  }

  predicate Runs(s: Sys, es: seq<Event>, t: Sys, lag: nat)
    decreases |es|
  {
    if es == [] then s == t else Enabled(s, es[0], lag) && Runs(Step(s, es[0], lag), es[1..], t, lag)
  }

  /** Each event can happen when its turn comes. */
  predicate Admits(s: Sys, es: seq<Event>, lag: nat)
    decreases |es|
  {
    es == [] || (Enabled(s, es[0], lag) && Admits(Step(s, es[0], lag), es[1..], lag))
  }

  /** Everyone is offline, no socket is open. */
  predicate Starts(s: Sys) {
    && (forall d | d in s.rows :: !s.rows[d].online)
    && s.sockets == map[] && s.connected == {} && s.writes == [] && s.heard == map[] && s.reaped == s.now
  }

  // ---- the invariant -------------------------------------------------------------------------

  predicate WriteInv(s: Sys, w: Write, lag: nat) {
    && w.at <= s.now <= w.at + lag
    && (w.online ==> w.dongle in s.heard && w.at <= s.heard[w.dongle])
  }

  /** An online row is no older than the last frame, and it survived the last reaper pass or has landed since. */
  predicate RowInv(s: Sys, d: string, lag: nat)
    requires d in s.rows
  {
    s.rows[d].online ==>
      && d in s.heard
      && s.rows[d].lastPing <= Secs(s.heard[d])
      && (Secs(s.reaped) <= s.rows[d].lastPing + OFFLINE_AFTER_SECS || s.reaped <= s.heard[d] + lag)
  }

  predicate SocketInv(s: Sys, sock: Socket) {
    && sock.seen <= s.now && sock.pinged <= s.now
    && (!sock.closing ==> s.now <= sock.pinged + TICK && Secs(sock.pinged) <= Secs(sock.seen) + OFFLINE_AFTER_SECS)
  }

  predicate ConnInv(s: Sys) {
    forall d | d in s.connected :: HasSocket(s, d)
  }

  predicate Inv(s: Sys, lag: nat) {
    && s.reaped <= s.now <= s.reaped + TICK
    && (forall d | d in s.heard :: s.heard[d] <= s.now)
    && (forall w | w in s.writes :: WriteInv(s, w, lag))
    && (forall d | d in s.rows :: RowInv(s, d, lag))
    && (forall id | id in s.sockets :: SocketInv(s, s.sockets[id]))
    && ConnInv(s)
  }

  lemma StepKeepsInv(s: Sys, e: Event, lag: nat)
    requires Inv(s, lag) && Enabled(s, e, lag)
    ensures Inv(Step(s, e, lag), lag)
  {
    var t := Step(s, e, lag);
    StepKeepsConn(s, e, lag);
    match e {
      case Land(i) =>
        assert WriteInv(s, s.writes[i], lag);
        assert forall w | w in t.writes :: w in s.writes;
      case Drop(i) =>
        assert forall w | w in t.writes :: w in s.writes;
      case Connect(_, d) =>
        assert forall w | w in t.writes :: w in s.writes || w == Write(d, true, s.now);
      case Frame(id) =>
        assert forall w | w in t.writes :: w in s.writes || w == Write(s.sockets[id].dongle, true, s.now);
      case Teardown(id) =>
        assert forall w | w in t.writes :: w in s.writes || w == Write(s.sockets[id].dongle, false, s.now);
      case _ =>
    }
  }

  lemma StepKeepsConn(s: Sys, e: Event, lag: nat)
    requires ConnInv(s) && Enabled(s, e, lag)
    ensures ConnInv(Step(s, e, lag))
  {
    var t := Step(s, e, lag);
    forall d | d in t.connected ensures HasSocket(t, d) {
      if e.Connect? && d == e.dongle {
        assert t.sockets[e.id].dongle == d;
      } else {
        var id :| id in s.sockets && s.sockets[id].dongle == d;
        assert id in t.sockets && t.sockets[id].dongle == d;
      }
    }
  }

  lemma {:induction false} RunsKeepInv(s: Sys, es: seq<Event>, t: Sys, lag: nat)
    requires Inv(s, lag) && Runs(s, es, t, lag)
    ensures Inv(t, lag)
    decreases |es|
  {
    hide Inv, Enabled;
    if es != [] {
      StepKeepsInv(s, es[0], lag);
      RunsKeepInv(Step(s, es[0], lag), es[1..], t, lag);
    }
  }

  // ---- what `online` means ------------------------------------------------------------------------

  function Max(a: nat, b: nat): nat { if a < b then b else a }

  /**
   * On every run, whatever sockets overlap and however updates are delayed within `lag`, a device shown online has
   * connected or sent a frame less than 41 seconds ago; on the clock of whole seconds that is at most 40.
   */
  lemma OnlineWasHeard(s: Sys, es: seq<Event>, t: Sys, lag: nat, d: string)
    requires Starts(s) && Runs(s, es, t, lag)
    requires d in t.rows && t.rows[d].online
    ensures d in t.heard && t.now - t.heard[d] <= Max(40_999, TICK + lag)
    ensures lag <= 30_000 ==> Secs(t.now) - Secs(t.heard[d]) <= 40
  {
    hide Runs;
    assert Inv(s, lag);
    RunsKeepInv(s, es, t, lag);
    assert RowInv(t, d, lag);
  }

  predicate OnlineAndHeard(s: Sys, d: string, ago: nat) {
    d in s.rows && s.rows[d].online && d in s.heard && s.now - s.heard[d] == ago
  }

  function Start(d: string): Sys {
    Sys(999, map[d := Row(false, 0)], map[], {}, [], 999, map[])
  }

  /** The device sent its last frame at 10 s; its socket's pings still go through and the reaper comes on time. */
  function Quiet(d: string, now: nat): Sys {
    Sys(now, map[d := Row(true, 10)], map[0 := Socket(d, 10_000, now, false)], {d}, [], now, map[d := 10_000])
  }

  lemma {:induction false} RunsJoin(s: Sys, es: seq<Event>, m: Sys, fs: seq<Event>, t: Sys, lag: nat)
    requires Runs(s, es, m, lag) && Runs(m, fs, t, lag)
    ensures Runs(s, es + fs, t, lag)
    decreases |es|
  {
    hide Enabled;
    if es == [] {
      assert es + fs == fs;
    } else {
      RunsJoin(Step(s, es[0], lag), es[1..], m, fs, t, lag);
      assert (es + fs)[1..] == es[1..] + fs;
    }
  }

  lemma Snoc(s: Sys, es: seq<Event>, m: Sys, e: Event, lag: nat)
    requires Runs(s, es, m, lag) && Enabled(m, e, lag)
    ensures Runs(s, es + [e], Step(m, e, lag), lag)
  {
    hide Enabled;
    var t := Step(m, e, lag);
    assert Runs(t, [], t, lag);
    assert Runs(m, [e], t, lag);
    RunsJoin(s, es, m, [e], t, lag);
  }

  lemma QuietRound(d: string, now: nat)
    requires now <= 30_999
    ensures Runs(Quiet(d, now), [Tick(10_000), Ping(0, true), Reap], Quiet(d, now + 10_000), 0)
  {
    var s := Quiet(d, now);
    var s1 := Step(s, Tick(10_000), 0);
    var s2 := Step(s1, Ping(0, true), 0);
    var s3 := Step(s2, Reap, 0);
    assert s3 == Quiet(d, now + 10_000);
    assert Runs(s3, [], s3, 0) && Runs(s2, [Reap], s3, 0) && Runs(s1, [Ping(0, true), Reap], s3, 0);
  }

  /** Connect at 0.999 s, last frame at 10 s, first ping and reaper pass after it at 10.999 s. */
  lemma QuietStart(d: string) returns (es: seq<Event>)
    ensures Runs(Start(d), es, Quiet(d, 10_999), 0)
  {
    hide Runs;
    var s := Start(d);
    RunsNowhere(s, 0);
    Snoc(s, [], s, Connect(0, d), 0);
    var t1 := Step(s, Connect(0, d), 0);
    var e1 := [Connect(0, d)];
    assert [] + e1 == e1;
    Snoc(s, e1, t1, Land(0), 0);
    var t2 := Step(t1, Land(0), 0);
    var e2 := e1 + [Land(0)];
    Snoc(s, e2, t2, Tick(9_001), 0);
    var t3 := Step(t2, Tick(9_001), 0);
    var e3 := e2 + [Tick(9_001)];
    Snoc(s, e3, t3, Frame(0), 0);
    var t4 := Step(t3, Frame(0), 0);
    var e4 := e3 + [Frame(0)];
    assert t4 == Heard(d) && e4 == [Connect(0, d), Land(0), Tick(9_001), Frame(0)];
    var more := QuietAfterFrame(d);
    es := e4 + more;
    RunsJoin(s, e4, t4, more, Quiet(d, 10_999), 0);
  }

  /** The moment of the last frame. */
  function Heard(d: string): Sys {
    Sys(10_000, map[d := Row(true, 0)], map[0 := Socket(d, 10_000, 999, false)], {d}, [Write(d, true, 10_000)], 999,
        map[d := 10_000])
  }

  lemma QuietAfterFrame(d: string) returns (es: seq<Event>)
    ensures Runs(Heard(d), es, Quiet(d, 10_999), 0)
  {
    hide Runs;
    var t4 := Heard(d);
    RunsNowhere(t4, 0);
    Snoc(t4, [], t4, Land(0), 0);
    var t5 := Step(t4, Land(0), 0);
    var e5 := [Land(0)];
    assert [] + e5 == e5;
    Snoc(t4, e5, t5, Tick(999), 0);
    var t6 := Step(t5, Tick(999), 0);
    var e6 := e5 + [Tick(999)];
    Snoc(t4, e6, t6, Ping(0, true), 0);
    var t7 := Step(t6, Ping(0, true), 0);
    var e7 := e6 + [Ping(0, true)];
    Snoc(t4, e7, t7, Reap, 0);
    es := e7 + [Reap];
    assert Step(t7, Reap, 0) == Quiet(d, 10_999);
  }

  lemma RunsNowhere(s: Sys, lag: nat)
    ensures Runs(s, [], s, lag)
  {
  }

  /** The bound is met: on some run a device is still shown online 40.999 seconds after its last frame. */
  lemma BoundIsMet(d: string)
    ensures exists es, t :: Starts(Start(d)) && Runs(Start(d), es, t, 0) && OnlineAndHeard(t, d, 40_999)
  {
    var s := Start(d);
    var es := QuietStart(d);
    var round := [Tick(10_000), Ping(0, true), Reap];
    for i := 0 to 3
      invariant Runs(s, es, Quiet(d, 10_999 + 10_000 * i), 0)
    {
      QuietRound(d, 10_999 + 10_000 * i);
      RunsJoin(s, es, Quiet(d, 10_999 + 10_000 * i), round, Quiet(d, 20_999 + 10_000 * i), 0);
      es := es + round;
    }
    Snoc(s, es, Quiet(d, 40_999), Tick(10_000), 0);
    var t := Step(Quiet(d, 40_999), Tick(10_000), 0);
    assert OnlineAndHeard(t, d, 40_999);
  }

  /** No frame and no connect of the device. */
  predicate Silent(s: Sys, e: Event, d: string) {
    match e
    case Connect(_, x) => x != d
    case Frame(id) => id in s.sockets && s.sockets[id].dongle != d
    case _ => true
  }

  predicate SilentRun(s: Sys, es: seq<Event>, t: Sys, d: string, lag: nat)
    decreases |es|
  {
    if es == [] then s == t
    else Enabled(s, es[0], lag) && Silent(s, es[0], d) && SilentRun(Step(s, es[0], lag), es[1..], t, d, lag)
  }

  lemma {:induction false} SilenceIsNotHeard(s: Sys, es: seq<Event>, t: Sys, d: string, lag: nat)
    requires SilentRun(s, es, t, d, lag)
    ensures Runs(s, es, t, lag) && (d in t.heard <==> d in s.heard) && (d in s.heard ==> t.heard[d] == s.heard[d])
    decreases |es|
  {
    if es != [] {
      SilenceIsNotHeard(Step(s, es[0], lag), es[1..], t, d, lag);
    }
  }

  /** However many pings go through meanwhile, a device that falls silent is shown offline in time. */
  lemma SilentGoesOffline(s: Sys, es: seq<Event>, m: Sys, fs: seq<Event>, t: Sys, lag: nat, d: string)
    requires Starts(s) && Runs(s, es, m, lag) && SilentRun(m, fs, t, d, lag)
    requires t.now - m.now > Max(40_999, TICK + lag)
    ensures d in t.rows ==> !t.rows[d].online
  {
    hide Runs, SilentRun;
    SilenceIsNotHeard(m, fs, t, d, lag);
    RunsJoin(s, es, m, fs, t, lag);
    assert Inv(s, lag);
    RunsKeepInv(s, es, m, lag);
    if d in t.rows && t.rows[d].online {
      OnlineWasHeard(s, es + fs, t, lag, d);
    }
  }

  /** A socket that is not hanging up has brought a frame in the same time. */
  lemma OpenSocketWasHeard(s: Sys, es: seq<Event>, t: Sys, lag: nat, id: nat)
    requires Starts(s) && Runs(s, es, t, lag)
    requires id in t.sockets && !t.sockets[id].closing
    ensures t.now - t.sockets[id].seen <= 40_999
  {
    hide Runs;
    assert Inv(s, lag);
    RunsKeepInv(s, es, t, lag);
    assert SocketInv(t, t.sockets[id]);
  }

  // ---- the connection map ------------------------------------------------------------------------------

  /** A device listed as connected has an open socket. */
  lemma ConnectedHasSocket(s: Sys, es: seq<Event>, t: Sys, lag: nat, d: string)
    requires Starts(s) && Runs(s, es, t, lag) && d in t.connected
    ensures HasSocket(t, d)
  {
    hide Runs;
    assert Inv(s, lag);
    RunsKeepInv(s, es, t, lag);
  }

  /** The map holds one entry per device: closing one of two overlapping sockets makes it forget the other. */
  lemma TeardownAgreesIff(s: Sys, id: nat, lag: nat)
    requires id in s.sockets
    ensures var d := s.sockets[id].dongle;
            var t := Step(s, Teardown(id), lag);
            (d in t.connected <==> HasSocket(t, d)) <==>
              forall other | other in s.sockets && other != id :: s.sockets[other].dongle != d
  {
    var t := Step(s, Teardown(id), lag);
    forall other | other in s.sockets && other != id
      ensures other in t.sockets && t.sockets[other] == s.sockets[other]
    {
    }
  }

  // ---- the socket handlers and the reaper ---------------------------------------------------

  /** The state that the socket tasks and the reaper share. */
  class Server {
    var now: nat
    var rows: map<string, Row>
    var sockets: map<nat, Socket>
    var connected: set<string>
    var writes: seq<Write>
    var reaped: nat
    ghost var heard: map<string, nat>

    ghost function Abstract(): Sys
      reads this
    {
      Sys(now, rows, sockets, connected, writes, reaped, heard)
    }

    constructor (rows: map<string, Row>, now: nat)
      requires forall d | d in rows :: !rows[d].online
      ensures Starts(Abstract()) && this.rows == rows && this.now == now
    {
      this.rows, this.now, reaped := rows, now, now;
      sockets, connected, writes, heard := map[], {}, [], map[];
    }

    method OnConnect(id: nat, dongle: string)
      requires id !in sockets
      modifies this
      ensures Abstract() == Step(old(Abstract()), Connect(id, dongle), 0)
    {
      connected := connected + {dongle};
      MarkOnline(dongle, true);
      sockets := sockets[id := Socket(dongle, now, now, false)];
      heard := heard[dongle := now];
    }

    method MarkOnline(dongle: string, online: bool)
      modifies this`writes
      ensures writes == old(writes) + [Write(dongle, online, now)]
    {
      writes := writes + [Write(dongle, online, now)];
    }

    /** Any frame refreshes the socket's clock and issues `touch_ping`. */
    method OnFrame(id: nat)
      requires id in sockets
      modifies this
      ensures Abstract() == Step(old(Abstract()), Frame(id), 0)
    {
      var dongle := sockets[id].dongle;
      sockets := sockets[id := sockets[id].(seen := now)];
      MarkOnline(dongle, true);
      heard := heard[dongle := now];
    }

    /** A ping that goes through changes no row: sending proves nothing. */
    method OnPing(id: nat, sent: bool)
      requires id in sockets && !sockets[id].closing
      modifies this`sockets
      ensures Abstract() == Step(old(Abstract()), Ping(id, sent), 0)
    {
      var sock := sockets[id].(pinged := now);
      if !sent {
        sock := sock.(closing := true);
      } else if Secs(now) - Secs(sock.seen) > OFFLINE_AFTER_SECS {
        sock := sock.(closing := true);
      }
      sockets := sockets[id := sock];
    }

    method OnTeardown(id: nat)
      requires id in sockets
      modifies this
      ensures Abstract() == Step(old(Abstract()), Teardown(id), 0)
    {
      var dongle := sockets[id].dongle;
      sockets := sockets - {id};
      connected := connected - {dongle};
      MarkOnline(dongle, false);
    }

    method ReapStale()
      modifies this`rows, this`reaped
      ensures Abstract() == Step(old(Abstract()), Reap, 0)
    {
      rows := map d | d in rows ::
        if rows[d].online && rows[d].lastPing < Secs(now) - OFFLINE_AFTER_SECS then rows[d].(online := false)
        else rows[d];
      reaped := now;
    }

    /** Whichever task runs next, or the clock. */
    method Handle(e: Event, lag: nat)
      requires Enabled(Abstract(), e, lag)
      modifies this
      ensures Abstract() == Step(old(Abstract()), e, lag)
    {
      match e {
        case Connect(id, dongle) => OnConnect(id, dongle);
        case Frame(id) => OnFrame(id);
        case Ping(id, sent) => OnPing(id, sent);
        case Teardown(id) => OnTeardown(id);
        case Land(i) => rows, writes := Updated(rows, writes[i]), Without(writes, i);
        case Drop(i) => writes := Without(writes, i);
        case Reap => ReapStale();
        case Tick(ms) => now := now + ms;
      }
    }

    /** The tasks together, in any order that the clock admits: whoever is shown online was heard in time. */
    method Serve(es: seq<Event>, lag: nat)
      requires Starts(Abstract()) && Admits(Abstract(), es, lag)
      modifies this
      ensures Runs(old(Abstract()), es, Abstract(), lag)
      ensures forall d | d in rows && rows[d].online :: d in heard && now - heard[d] <= Max(40_999, TICK + lag)
      ensures lag <= 30_000 ==> forall d | d in rows && rows[d].online :: Secs(now) - Secs(heard[d]) <= 40
    {
      hide Enabled, Step, Starts;
      ghost var start := Abstract();
      RunsNowhere(start, lag);
      assert es[0..] == es;
      for i := 0 to |es|
        invariant Runs(start, es[..i], Abstract(), lag) && Admits(Abstract(), es[i..], lag)
      {
        Snoc(start, es[..i], Abstract(), es[i], lag);
        assert es[..i + 1] == es[..i] + [es[i]] && es[i..][1..] == es[i + 1..];
        Handle(es[i], lag);
      }
      assert es[..|es|] == es;
      forall d | d in rows && rows[d].online
        ensures d in heard && now - heard[d] <= Max(40_999, TICK + lag)
        ensures lag <= 30_000 ==> Secs(now) - Secs(heard[d]) <= 40
      {
        OnlineWasHeard(start, es, Abstract(), lag, d);
      }
    }
  }
}
