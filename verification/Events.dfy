/** The state timeline of a segment: log messages in, a run-length encoded event list out. */
module Events {
  import opened Wrappers

  /** The log messages that bear on engagement and telemetry; everything else is `Other`. */
  datatype Message =
    | Selfdrive(enabled: bool, alertStatus: nat, alertShown: bool, engageable: bool)
    | Mads(active: Option<bool>)
    | CarState(vEgo: real)   // metres per second
    | Other

  /** A state event: log time, route-relative start and end, the combined state, and its two parts. */
  datatype Event = Event(time: nat, offset: nat, end: Option<nat>, enabled: bool, alert: nat, lat: bool, long: bool)

  datatype Telem = Telem(time: nat, speed: real, engaged: bool)

  const TELEM_GAP: nat := 250_000_000
  const MS_TO_MPH: real := 2.236936

  datatype Acc = Acc(
    base: Option<nat>, engaged: bool, lat: bool, alert: nat, seen: bool,
    lastState: Option<(bool, nat)>, events: seq<Event>, telemetry: seq<Telem>, lastTelem: nat)

  const START: Acc := Acc(None, false, false, 0, false, None, [], [], 0)

  /** Milliseconds since the route start; earlier words count as the start. */
  function Offset(base: nat, mono: nat): nat {
    if mono < base then 0 else (mono - base) / 1_000_000
  }

  /** A shown alert while openpilot is not engageable counts as a prompt at least. */
  function AlertLevel(m: Message): nat
    requires m.Selfdrive?
  {
    if m.alertShown && !m.engageable && m.alertStatus < 1 then 1 else m.alertStatus
  }

  function CloseLast(events: seq<Event>, offset: nat): seq<Event> {
    if events == [] then []
    else events[|events| - 1 := events[|events| - 1].(end := Some(offset))]
  }

  /** `emit_state_change`. */
  function Emitted(acc: Acc, base: nat, mono: nat): Acc {
    var cur := (acc.engaged || acc.lat, acc.alert);
    if acc.lastState == Some(cur) then acc
    else
      var offset := Offset(base, mono);
      acc.(events := CloseLast(acc.events, offset)
             + [Event(mono, offset, None, cur.0, cur.1, acc.lat, acc.engaged)],
           lastState := Some(cur))
  }

  /** `accumulate`, for the arms that matter here. */
  function Accumulated(a: Acc, m: Message, mono: nat): Acc {
    var base := a.base.GetOr(mono);
    var acc := a.(base := Some(base));
    match m
    case Selfdrive(enabled, _, _, _) =>
      Emitted(acc.(engaged := enabled, seen := true, alert := AlertLevel(m)), base, mono)
    case Mads(active) =>
      if active == None then acc else Emitted(acc.(lat := active.value, seen := true), base, mono)
    case CarState(vEgo) =>
      if acc.seen && mono >= acc.lastTelem + TELEM_GAP then
        acc.(lastTelem := mono, telemetry := acc.telemetry + [Telem(mono, vEgo * MS_TO_MPH, acc.engaged || acc.lat)])
      else acc
    case Other => acc
  }

  /** The accumulator the parser updates in place. */
  class Accum {
    var base: Option<nat>
    var curEngaged: bool
    var curLat: bool
    var curAlert: nat
    var seenSelfdrive: bool
    var lastState: Option<(bool, nat)>
    var events: seq<Event>
    var telemetry: seq<Telem>
    var lastTelemMono: nat

    function Abstract(): Acc
      reads this
    {
      Acc(base, curEngaged, curLat, curAlert, seenSelfdrive, lastState, events, telemetry, lastTelemMono)
    }

    constructor ()
      ensures Abstract() == START
    {
      base, curEngaged, curLat, curAlert, seenSelfdrive := None, false, false, 0, false;
      lastState, events, telemetry, lastTelemMono := None, [], [], 0;
    }

    method EmitStateChange(start: nat, mono: nat)
      modifies this
      ensures Abstract() == Emitted(old(Abstract()), start, mono)
    {
      var engaged := curEngaged || curLat;
      var cur := (engaged, curAlert);
      if lastState == Some(cur) {
        return;
      }
      var offset := Offset(start, mono);
      if events != [] {
        var n := |events| - 1;
        events := events[n := events[n].(end := Some(offset))];
      }
      events := events + [Event(mono, offset, None, engaged, curAlert, curLat, curEngaged)];
      lastState := Some(cur);
    }

    method Accumulate(m: Message, mono: nat)
      modifies this
      ensures Abstract() == Accumulated(old(Abstract()), m, mono)
    {
      if base == None {
        base := Some(mono);
      }
      match m {
        case Selfdrive(enabled, alertStatus, alertShown, engageable) =>
          curEngaged := enabled;
          seenSelfdrive := true;
          var alert := alertStatus;
          if alertShown && !engageable && alert < 1 {
            alert := 1;
          }
          curAlert := alert;
          EmitStateChange(base.value, mono);
        case Mads(active) =>
          if active.Some? {
            curLat := active.value;
            seenSelfdrive := true;
            EmitStateChange(base.value, mono);
          }
        case CarState(vEgo) =>
          if seenSelfdrive && mono >= lastTelemMono + TELEM_GAP {
            lastTelemMono := mono;
            telemetry := telemetry + [Telem(mono, vEgo * MS_TO_MPH, curEngaged || curLat)];
          }
        case Other =>
      }
    }
  }

  // ---- a whole log --------------------------------------------------------------------

  type Log = seq<(Message, nat)>

  function Parsed(log: Log): Acc
    decreases |log|
  {
    if log == [] then START
    else Accumulated(Parsed(log[..|log| - 1]), log[|log| - 1].0, log[|log| - 1].1)
  }

  method ParseLog(log: Log) returns (acc: Accum)
    ensures fresh(acc) && acc.Abstract() == Parsed(log)
  {
    acc := new Accum();
    for i := 0 to |log|
      invariant fresh(acc) && acc.Abstract() == Parsed(log[..i])
    {
      assert log[..i + 1][..i] == log[..i];
      acc.Accumulate(log[i].0, log[i].1);
    }
    assert log[..|log|] == log;
  }

  // ---- what the log says ------------------------------------------------------------------

  /** Longitudinal engagement: the last word of SelfdriveState. */
  function Engaged(log: Log): bool {
    if log == [] then false
    else if log[|log| - 1].0.Selfdrive? then log[|log| - 1].0.enabled
    else Engaged(log[..|log| - 1])
  }

  /** Lateral engagement: the last word of MADS. */
  function Lateral(log: Log): bool {
    if log == [] then false
    else if log[|log| - 1].0.Mads? && log[|log| - 1].0.active.Some? then log[|log| - 1].0.active.value
    else Lateral(log[..|log| - 1])
  }

  function Alert(log: Log): nat {
    if log == [] then 0
    else if log[|log| - 1].0.Selfdrive? then AlertLevel(log[|log| - 1].0)
    else Alert(log[..|log| - 1])
  }

  predicate Speaks(m: Message) {
    m.Selfdrive? || (m.Mads? && m.active.Some?)
  }

  /** The combined state after each engagement message. */
  function States(log: Log): seq<(bool, nat)> {
    if log == [] then []
    else
      States(log[..|log| - 1]) +
      if Speaks(log[|log| - 1].0) then [(Engaged(log) || Lateral(log), Alert(log))] else []
  }

  /** An engagement message: its log time, and lateral and longitudinal engagement as they stand after it. */
  datatype Word = Word(time: nat, lat: bool, long: bool)

  function Words(log: Log): (r: seq<Word>)
    ensures |r| == |States(log)| && forall j | 0 <= j < |r| :: States(log)[j].0 == (r[j].lat || r[j].long)
  {
    if log == [] then []
    else
      Words(log[..|log| - 1]) +
      if Speaks(log[|log| - 1].0) then [Word(log[|log| - 1].1, Lateral(log), Engaged(log))] else []
  }

  /** The current fields are the last word of the log. */
  predicate Current(acc: Acc, log: Log) {
    && acc.engaged == Engaged(log) && acc.lat == Lateral(log) && acc.alert == Alert(log)
    && acc.lastState == (if States(log) == [] then None else Some(States(log)[|States(log)| - 1]))
    && (acc.seen <==> States(log) != [])
  }

  lemma CurrentStep(acc: Acc, before: Log, m: Message, mono: nat)
    requires Current(acc, before)
    ensures Current(Accumulated(acc, m, mono), before + [(m, mono)])
  {
  }

  lemma StatesStep(before: Log, m: Message, mono: nat)
    ensures var log := before + [(m, mono)];
            && States(log) == (if Speaks(m) then States(before) + [(Engaged(log) || Lateral(log), Alert(log))]
                               else States(before))
            && Words(log) == (if Speaks(m) then Words(before) + [Word(mono, Lateral(log), Engaged(log))]
                              else Words(before))
  {
  }

  lemma {:induction false} CurrentState(log: Log)
    ensures Current(Parsed(log), log)
    decreases |log|
  {
    hide Current, Accumulated;
    if log != [] {
      var before := log[..|log| - 1];
      assert log == before + [log[|log| - 1]];
      CurrentState(before);
      CurrentStep(Parsed(before), before, log[|log| - 1].0, log[|log| - 1].1);
    } else {
      NothingSaid();
    }
  }

  lemma NothingSaid()
    ensures Current(START, [])
  {
  }

  // ---- runs ----------------------------------------------------------------------------------

  /** How often the state has changed up to message j. */
  function Changes(states: seq<(bool, nat)>, j: nat): nat
    requires j < |states|
  {
    if j == 0 then 0 else Changes(states, j - 1) + if states[j] != states[j - 1] then 1 else 0
  }

  /** The message that opened the run of equal states that message j is in. */
  function RunStart(states: seq<(bool, nat)>, j: nat): (s: nat)
    requires j < |states|
    ensures s <= j && forall i | s <= i <= j :: states[i] == states[j]
    ensures s > 0 ==> states[s - 1] != states[s]
  {
    if j == 0 || states[j] != states[j - 1] then j else RunStart(states, j - 1)
  }

  predicate Shows(e: Event, state: (bool, nat)) {
    e.enabled == state.0 && e.alert == state.1
  }

  /** Event k is the k-th run of equal states: its state, and the time of its first message. */
  predicate RunLength(events: seq<Event>, states: seq<(bool, nat)>, words: seq<Word>) {
    && |words| == |states|
    && |events| == (if states == [] then 0 else Changes(states, |states| - 1) + 1)
    && (forall j: nat | j < |states| :: InRun(events, states, words, j))
  }

  /** The event has the time and the parts of the message that opened it. */
  predicate Opens(w: Word, e: Event) {
    e.time == w.time && e.lat == w.lat && e.long == w.long
  }

  /** Message j is in the run that the event shows. */
  predicate InRun(events: seq<Event>, states: seq<(bool, nat)>, words: seq<Word>, j: nat)
    requires j < |states| == |words|
  {
    Changes(states, j) < |events| && Shows(events[Changes(states, j)], states[j])
    && Opens(words[RunStart(states, j)], events[Changes(states, j)])
  }

  /** Adjacent events differ, each ends where the next starts, and only the last is open. */
  predicate Chained(events: seq<Event>) {
    && (forall k | 0 <= k < |events| - 1 ::
          (events[k].enabled, events[k].alert) != (events[k + 1].enabled, events[k + 1].alert)
          && events[k].end == Some(events[k + 1].offset))
    && (events != [] ==> events[|events| - 1].end == None)
  }

  lemma {:induction false} PrefixRuns(states: seq<(bool, nat)>, x: (bool, nat), j: nat)
    requires j < |states|
    ensures Changes(states + [x], j) == Changes(states, j) && RunStart(states + [x], j) == RunStart(states, j)
  {
    if j > 0 {
      PrefixRuns(states, x, j - 1);
    }
  }

  lemma {:induction false} ChangesMonotone(states: seq<(bool, nat)>, i: nat, j: nat)
    requires i <= j < |states|
    ensures Changes(states, i) <= Changes(states, j)
  {
    if i < j {
      ChangesMonotone(states, i, j - 1);
    }
  }

  lemma RunGoesOn(states: seq<(bool, nat)>, x: (bool, nat))
    requires states != [] && states[|states| - 1] == x
    ensures RunStart(states + [x], |states|) == RunStart(states, |states| - 1)
    ensures Changes(states + [x], |states|) == Changes(states, |states| - 1)
  {
    PrefixRuns(states, x, |states| - 1);
  }

  /** A repeated state adds nothing to the encoding. */
  lemma RepeatKeeps(events: seq<Event>, states: seq<(bool, nat)>, words: seq<Word>, x: (bool, nat), w: Word)
    requires RunLength(events, states, words) && states != [] && states[|states| - 1] == x
    ensures RunLength(events, states + [x], words + [w])
  {
    hide Changes, RunStart, InRun;
    RunGoesOn(states, x);
    forall j: nat | j < |states| + 1 ensures InRun(events, states + [x], words + [w], j) {
      if j < |states| {
        assert InRun(events, states, words, j);
        EarlierRun(events, states, words, x, w, j);
      } else {
        assert InRun(events, states, words, j - 1);
        LastRunGoesOn(events, states, words, x, w);
      }
    }
  }

  lemma EarlierRun(events: seq<Event>, states: seq<(bool, nat)>, words: seq<Word>, x: (bool, nat), w: Word, j: nat)
    requires j < |states| == |words| && InRun(events, states, words, j)
    ensures InRun(events, states + [x], words + [w], j)
  {
    hide Changes, RunStart;
    PrefixRuns(states, x, j);
  }

  lemma LastRunGoesOn(events: seq<Event>, states: seq<(bool, nat)>, words: seq<Word>, x: (bool, nat), w: Word)
    requires 0 < |states| == |words| && states[|states| - 1] == x && InRun(events, states, words, |states| - 1)
    ensures InRun(events, states + [x], words + [w], |states|)
  {
    hide Changes, RunStart;
    RunGoesOn(states, x);
  }

  lemma ClosedLast(events: seq<Event>, e: Event)
    requires Chained(events) && e.end == None
    requires events != [] ==> !Shows(events[|events| - 1], (e.enabled, e.alert))
    ensures Chained(CloseLast(events, e.offset) + [e])
    ensures |CloseLast(events, e.offset)| == |events|
    ensures forall k | 0 <= k < |events| ::
              CloseLast(events, e.offset)[k] == events[k].(end := CloseLast(events, e.offset)[k].end)
  {
  }

  function WordOf(e: Event): Word {
    Word(e.time, e.lat, e.long)
  }

  /** A new state closes the last event and opens one of its own. */
  lemma ChangeKeeps(events: seq<Event>, states: seq<(bool, nat)>, words: seq<Word>, e: Event)
    requires RunLength(events, states, words) && Chained(events) && e.end == None
    requires states != [] ==> states[|states| - 1] != (e.enabled, e.alert)
    ensures RunLength(CloseLast(events, e.offset) + [e], states + [(e.enabled, e.alert)], words + [WordOf(e)])
    ensures Chained(CloseLast(events, e.offset) + [e])
  {
    hide CloseLast, RunStart, Chained, Changes, InRun;
    var x := (e.enabled, e.alert);
    var n := |states|;
    if n > 0 {
      assert InRun(events, states, words, n - 1);
      LastShown(events, states, words);
    }
    ClosedLast(events, e);
    NewRun(states, x);
    forall j: nat | j < n + 1 ensures InRun(CloseLast(events, e.offset) + [e], states + [x], words + [WordOf(e)], j) {
      if j < n {
        assert InRun(events, states, words, j);
        EarlierRun(events, states, words, x, WordOf(e), j);
        ClosedRun(events, states + [x], words + [WordOf(e)], e, j);
      } else {
        NewRunShown(events, states, words, e);
      }
    }
  }

  lemma LastShown(events: seq<Event>, states: seq<(bool, nat)>, words: seq<Word>)
    requires 0 < |states| == |words| && InRun(events, states, words, |states| - 1)
    requires |events| == Changes(states, |states| - 1) + 1
    ensures Shows(events[|events| - 1], states[|states| - 1])
  {
  }

  lemma ClosedRun(events: seq<Event>, states: seq<(bool, nat)>, words: seq<Word>, e: Event, j: nat)
    requires j < |states| == |words| && InRun(events, states, words, j)
    ensures InRun(CloseLast(events, e.offset) + [e], states, words, j)
  {
  }

  lemma NewRunShown(events: seq<Event>, states: seq<(bool, nat)>, words: seq<Word>, e: Event)
    requires |states| == |words| && |events| == if states == [] then 0 else Changes(states, |states| - 1) + 1
    requires states != [] ==> states[|states| - 1] != (e.enabled, e.alert)
    ensures InRun(CloseLast(events, e.offset) + [e], states + [(e.enabled, e.alert)], words + [WordOf(e)], |states|)
  {
    hide Changes, RunStart;
    NewRun(states, (e.enabled, e.alert));
  }

  lemma NewRun(states: seq<(bool, nat)>, x: (bool, nat))
    requires states != [] ==> states[|states| - 1] != x
    ensures RunStart(states + [x], |states|) == |states|
    ensures Changes(states + [x], |states|) == if states == [] then 0 else Changes(states, |states| - 1) + 1
  {
    if states != [] {
      PrefixRuns(states, x, |states| - 1);
    }
  }

  /** The events after one more message. */
  lemma EventsStep(acc: Acc, before: Log, m: Message, mono: nat)
    requires Current(acc, before)
    ensures var acc' := Accumulated(acc, m, mono);
            var log := before + [(m, mono)];
            var x := (Engaged(log) || Lateral(log), Alert(log));
            var offset := Offset(acc.base.GetOr(mono), mono);
            acc'.events == (if !Speaks(m) || acc.lastState == Some(x) then acc.events
              else CloseLast(acc.events, offset) + [Event(mono, offset, None, x.0, x.1, Lateral(log), Engaged(log))])
  {
  }

  /** For every log the events are the exact run-length encoding of the combined state. */
  lemma {:induction false} EventsAreRunLength(log: Log)
    ensures RunLength(Parsed(log).events, States(log), Words(log))
    ensures Chained(Parsed(log).events)
    decreases |log|
  {
    hide RunLength, Chained, Accumulated, CloseLast, Engaged, Lateral, Alert, Speaks, Offset, States, Words;
    if log == [] {
      NothingEncoded();
    } else {
      var before := log[..|log| - 1];
      var (m, mono) := log[|log| - 1];
      var acc := Parsed(before);
      assert log == before + [(m, mono)];
      EventsAreRunLength(before);
      CurrentState(before);
      EventsStep(acc, before, m, mono);
      StatesStep(before, m, mono);
      if Speaks(m) {
        var x := (Engaged(log) || Lateral(log), Alert(log));
        if acc.lastState == Some(x) {
          RepeatKeeps(acc.events, States(before), Words(before), x, Word(mono, Lateral(log), Engaged(log)));
        } else {
          var offset := Offset(acc.base.GetOr(mono), mono);
          ChangeKeeps(acc.events, States(before), Words(before),
                      Event(mono, offset, None, x.0, x.1, Lateral(log), Engaged(log)));
        }
      }
    }
  }

  lemma NothingEncoded()
    ensures RunLength([], [], []) && Chained([]) && States([]) == [] && Words([]) == []
  {
  }

  // ---- reading the timeline back -----------------------------------------------------------------

  /** The last event that has started by the given log time. */
  function InForce(events: seq<Event>, mono: nat): Option<Event> {
    if events == [] then None
    else if events[|events| - 1].time <= mono then Some(events[|events| - 1])
    else InForce(events[..|events| - 1], mono)
  }

  lemma {:induction false} InForceAt(events: seq<Event>, mono: nat, k: nat)
    requires k < |events| && events[k].time <= mono
    requires forall i | k < i < |events| :: events[i].time > mono
    ensures InForce(events, mono) == Some(events[k])
    decreases |events|
  {
    if k < |events| - 1 {
      InForceAt(events[..|events| - 1], mono, k);
    }
  }

  predicate NonDecreasing(words: seq<Word>) {
    forall i, j | 0 <= i <= j < |words| :: words[i].time <= words[j].time
  }

  lemma {:induction false} MessageOfRun(states: seq<(bool, nat)>, k: nat, j: nat)
    requires j < |states| && k <= Changes(states, j)
    ensures exists i :: 0 <= i <= j && Changes(states, i) == k
  {
    if k == Changes(states, j) {
      assert 0 <= j <= j;
    } else {
      MessageOfRun(states, k, j - 1);
    }
  }

  /** At the time of the last of any simultaneous engagement messages, the event in force shows its state. */
  lemma TimelineDecodes(log: Log, j: nat)
    requires j < |States(log)| && NonDecreasing(Words(log))
    requires j + 1 < |States(log)| ==> Words(log)[j + 1].time > Words(log)[j].time
    ensures var e := InForce(Parsed(log).events, Words(log)[j].time);
            e.Some? && Shows(e.value, States(log)[j])
  {
    hide Parsed, States, Words;
    EventsAreRunLength(log);
    RunsDecode(Parsed(log).events, States(log), Words(log), j);
  }

  lemma RunsDecode(events: seq<Event>, states: seq<(bool, nat)>, words: seq<Word>, j: nat)
    requires RunLength(events, states, words) && j < |states| && NonDecreasing(words)
    requires j + 1 < |states| ==> words[j + 1].time > words[j].time
    ensures var e := InForce(events, words[j].time); e.Some? && Shows(e.value, states[j])
  {
    hide RunStart, Changes;
    var k := Changes(states, j);
    assert InRun(events, states, words, j);
    assert RunStart(states, j) <= j;
    forall i | k < i < |events| ensures events[i].time > words[j].time {
      LaterRun(events, states, words, j, i);
    }
    InForceAt(events, words[j].time, k);
  }

  /** An event after the run of message j starts after message j. */
  lemma LaterRun(events: seq<Event>, states: seq<(bool, nat)>, words: seq<Word>, j: nat, i: nat)
    requires RunLength(events, states, words) && j < |states| && NonDecreasing(words)
    requires j + 1 < |states| ==> words[j + 1].time > words[j].time
    requires Changes(states, j) < i < |events|
    ensures events[i].time > words[j].time
  {
    hide RunStart, Changes;
    MessageOfRun(states, i, |states| - 1);
    var l :| 0 <= l < |states| && Changes(states, l) == i;
    assert InRun(events, states, words, l);
    var s := RunStart(states, l);
    SameRun(states, s, l);
    if s <= j {
      ChangesMonotone(states, s, j);
    }
    assert words[s].time >= words[j + 1].time;
  }

  lemma {:induction false} SameRun(states: seq<(bool, nat)>, s: nat, l: nat)
    requires l < |states| && s == RunStart(states, l)
    ensures Changes(states, s) == Changes(states, l)
  {
    if s < l {
      SameRun(states, s, l - 1);
    }
  }

  /** The event that shows message j. */
  function EventOf(log: Log, j: nat): (e: Event)
    requires j < |States(log)|
  {
    EventsAreRunLength(log);
    assert InRun(Parsed(log).events, States(log), Words(log), j);
    Parsed(log).events[Changes(States(log), j)]
  }

  /**
   * For every log and message, the event's parts are those of the message that opened its run. So they are right for
   * the message exactly if they stand as they did when the run opened, which is always so while disengaged.
   */
  lemma PartsShownIff(log: Log, j: nat)
    requires j < |States(log)|
    ensures var e, first, now := EventOf(log, j), Words(log)[RunStart(States(log), j)], Words(log)[j];
            && (e.lat, e.long) == (first.lat, first.long)
            && ((e.lat, e.long) == (now.lat, now.long) <==> (first.lat, first.long) == (now.lat, now.long))
            && (!e.enabled ==> (e.lat, e.long) == (now.lat, now.long) == (false, false))
  {
    hide Parsed, States, Words, Changes;
    EventsAreRunLength(log);
    assert InRun(Parsed(log).events, States(log), Words(log), j);
    assert States(log)[RunStart(States(log), j)] == States(log)[j];
  }

  /** An event shows the parts of all its messages exactly if they do not change during its run. */
  lemma RunShownIff(log: Log, j: nat)
    requires j < |States(log)|
    ensures var s, words := RunStart(States(log), j), Words(log);
            (forall i | s <= i <= j :: Opens(Word(EventOf(log, j).time, words[i].lat, words[i].long), EventOf(log, j)))
            <==> forall i | s < i <= j :: (words[i].lat, words[i].long) == (words[i - 1].lat, words[i - 1].long)
  {
    hide Parsed, States, Words, Changes;
    PartsShownIff(log, j);
    var s, words := RunStart(States(log), j), Words(log);
    if forall i | s < i <= j :: (words[i].lat, words[i].long) == (words[i - 1].lat, words[i - 1].long) {
      Unchanging(words, s, j);
    }
  }

  lemma {:induction false} Unchanging(words: seq<Word>, s: nat, j: nat)
    requires s <= j < |words|
    requires forall i | s < i <= j :: (words[i].lat, words[i].long) == (words[i - 1].lat, words[i - 1].long)
    ensures forall i | s <= i <= j :: (words[i].lat, words[i].long) == (words[s].lat, words[s].long)
  {
    if s < j {
      Unchanging(words, s, j - 1);
      assert (words[j].lat, words[j].long) == (words[j - 1].lat, words[j - 1].long);
    }
  }

  /** The parts of the combined state are not encoded: a run's `long` flag can differ from the log's. */
  lemma PartsGoStale()
    ensures var log := [(Mads(Some(true)), 0), (Selfdrive(true, 0, false, true), 1)];
            var e := Parsed(log).events;
            |e| == 1 && !e[0].long && Engaged(log)
  {
  }

  /** Some prefix of the log that has spoken has this combined state. */
  predicate FromLog(engaged: bool, log: Log) {
    exists n: nat | n <= |log| :: Combined(log[..n], engaged)
  }

  predicate Combined(log: Log, engaged: bool) {
    States(log) != [] && engaged == (Engaged(log) || Lateral(log))
  }

  lemma FromPrefix(engaged: bool, before: Log, entry: (Message, nat))
    requires FromLog(engaged, before)
    ensures FromLog(engaged, before + [entry])
  {
    hide Combined;
    var n: nat :| n <= |before| && Combined(before[..n], engaged);
    assert (before + [entry])[..n] == before[..n];
  }

  /** At least a quarter second between samples. */
  predicate Spaced(acc: Acc) {
    && (forall i | 0 <= i < |acc.telemetry| - 1 :: acc.telemetry[i].time + TELEM_GAP <= acc.telemetry[i + 1].time)
    && (acc.telemetry != [] ==> acc.telemetry[|acc.telemetry| - 1].time == acc.lastTelem)
  }

  lemma TelemetryStep(acc: Acc, m: Message, mono: nat)
    ensures var acc' := Accumulated(acc, m, mono);
            if m.CarState? && acc.seen && mono >= acc.lastTelem + TELEM_GAP
            then acc'.lastTelem == mono
                 && acc'.telemetry == acc.telemetry + [Telem(mono, m.vEgo * MS_TO_MPH, acc.engaged || acc.lat)]
            else acc'.lastTelem == acc.lastTelem && acc'.telemetry == acc.telemetry
  {
  }

  /** Telemetry samples are spaced, and each shows a combined state that the log has really reached. */
  lemma {:induction false} TelemetryFaithful(log: Log)
    ensures Spaced(Parsed(log)) && forall s | s in Parsed(log).telemetry :: FromLog(s.engaged, log)
    decreases |log|
  {
    hide Accumulated, FromLog;
    if log != [] {
      var before, entry := log[..|log| - 1], log[|log| - 1];
      assert log == before + [entry];
      TelemetryFaithful(before);
      CurrentState(before);
      TelemetryStep(Parsed(before), entry.0, entry.1);
      forall s | s in Parsed(log).telemetry ensures FromLog(s.engaged, log) {
        if s !in Parsed(before).telemetry {
          NowCombined(before);
        }
        FromPrefix(s.engaged, before, entry);
      }
    }
  }

  lemma NowCombined(log: Log)
    requires States(log) != []
    ensures FromLog(Engaged(log) || Lateral(log), log)
  {
    assert log[..|log|] == log;
    assert Combined(log[..|log|], Engaged(log) || Lateral(log));
  }

  /** The car never reports a negative speed. */
  predicate NeverBackwards(log: Log) {
    forall e | e in log :: e.0.CarState? ==> e.0.vEgo >= 0.0
  }

  /** Then no telemetry sample has one. */
  lemma {:induction false} SpeedsNotNegative(log: Log)
    requires NeverBackwards(log)
    ensures forall s | s in Parsed(log).telemetry :: s.speed >= 0.0
    decreases |log|
  {
    hide Emitted, AlertLevel;
    if log != [] {
      var before, entry := log[..|log| - 1], log[|log| - 1];
      assert entry in log && forall e | e in before :: e in log;
      SpeedsNotNegative(before);
      TelemetryStep(Parsed(before), entry.0, entry.1);
    }
  }
}
