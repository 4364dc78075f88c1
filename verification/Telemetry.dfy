/** Driving stats from the telemetry samples, and the same hard events found again by the graph. */
module Telemetry {
  import opened Wrappers

  /** A telemetry sample: seconds since route start, mph, openpilot engaged. */
  datatype Sample = Sample(t: real, speed: real, engaged: bool)

  datatype SegStats = SegStats(
    engagedM: real, telemM: real, engagedS: real, driveS: real, maxSpeed: real,
    disengage: nat, hardBrake: nat, hardAccel: nat)

  const MPH_TO_MS: real := 0.44704
  const HARD_BRAKE_MS2: real := -3.0
  const HARD_ACCEL_MS2: real := 2.5

  // ---- what is counted -------------------------------------------------------------

  function Metres(s: Sample): real { s.speed * MPH_TO_MS }

  /** The interval from sample i-1 to sample i counts: forward in time, and not a gap. */
  predicate Usable(t: seq<Sample>, i: nat)
    requires i < |t|
  {
    i > 0 && 0.0 < t[i].t - t[i - 1].t < 2.0
  }

  function Accel(t: seq<Sample>, i: nat): real
    requires i < |t| && Usable(t, i)
  {
    (Metres(t[i]) - Metres(t[i - 1])) / (t[i].t - t[i - 1].t)
  }

  datatype Kind = Brake | Throttle

  predicate Over(a: real, kind: Kind) {
    if kind == Brake then a <= HARD_BRAKE_MS2 else a >= HARD_ACCEL_MS2
  }

  /** Over the usable intervals among the first n samples, in order: is the acceleration over the threshold? */
  function Flags(t: seq<Sample>, n: nat, kind: Kind): seq<bool>
    requires n <= |t|
  {
    if n == 0 then []
    else if Usable(t, n - 1) then Flags(t, n - 1, kind) + [Over(Accel(t, n - 1), kind)]
    else Flags(t, n - 1, kind)
  }

  /** A run of true flags that cannot be made longer. */
  predicate MaximalRun(b: seq<bool>, lo: nat, hi: nat) {
    && lo < hi <= |b| && (forall k | lo <= k < hi :: b[k])
    && (lo == 0 || !b[lo - 1]) && (hi == |b| || !b[hi])
  }

  function MaximalRuns(b: seq<bool>): set<(nat, nat)> {
    set lo: nat, hi: nat | lo < |b| && hi <= |b| && MaximalRun(b, lo, hi) :: (lo, hi)
  }

  /** The hard events of one kind: the maximal runs of over-threshold acceleration. */
  function HardEvents(t: seq<Sample>, kind: Kind): nat {
    |MaximalRuns(Flags(t, |t|, kind))|
  }

  predicate Disengages(t: seq<Sample>, i: int) {
    1 <= i < |t| && t[i - 1].engaged && !t[i].engaged
  }

  /** The samples, among the first n, at which openpilot has just disengaged. */
  function FallingEdges(t: seq<Sample>, n: nat): set<int>
    requires n <= |t|
  {
    set i | 1 <= i < n && Disengages(t, i)
  }

  /** Speed-integrated distance over the usable intervals, of all or only the engaged ones. */
  function Distance(t: seq<Sample>, n: nat, onlyEngaged: bool): real
    requires n <= |t|
  {
    if n == 0 then 0.0
    else
      Distance(t, n - 1, onlyEngaged) +
      if Usable(t, n - 1) && (onlyEngaged ==> t[n - 1].engaged) then Metres(t[n - 1]) * (t[n - 1].t - t[n - 2].t)
      else 0.0
  }

  function Duration(t: seq<Sample>, n: nat, onlyEngaged: bool): real
    requires n <= |t|
  {
    if n == 0 then 0.0
    else
      Duration(t, n - 1, onlyEngaged) +
      if Usable(t, n - 1) && (onlyEngaged ==> t[n - 1].engaged) then t[n - 1].t - t[n - 2].t else 0.0
  }

  function TopSpeed(t: seq<Sample>, n: nat): real
    requires n <= |t|
  {
    if n == 0 then 0.0
    else if t[n - 1].speed > TopSpeed(t, n - 1) then t[n - 1].speed
    else TopSpeed(t, n - 1)
  }

  /** The statistics of a segment, by what they count. */
  function SegStatsOf(t: seq<Sample>): SegStats {
    SegStats(
      Distance(t, |t|, true), Distance(t, |t|, false), Duration(t, |t|, true), Duration(t, |t|, false),
      TopSpeed(t, |t|), |FallingEdges(t, |t|)|, HardEvents(t, Brake), HardEvents(t, Throttle))
  }

  /** The top speed is the largest speed, or zero. */
  lemma {:induction false} TopSpeedIsMax(t: seq<Sample>, n: nat)
    requires n <= |t|
    ensures TopSpeed(t, n) >= 0.0 && forall i | 0 <= i < n :: t[i].speed <= TopSpeed(t, n)
    ensures TopSpeed(t, n) == 0.0 || exists i :: 0 <= i < n && t[i].speed == TopSpeed(t, n)
  {
    if n > 0 {
      TopSpeedIsMax(t, n - 1);
    }
  }

  // ---- counting runs by their rising edges --------------------------------------------

  predicate Last(b: seq<bool>) { b != [] && b[|b| - 1] }

  /** Where the run at the end of the flags begins. */
  function TailStart(b: seq<bool>): (lo: nat)
    requires Last(b)
    ensures MaximalRun(b, lo, |b|)
    ensures forall l: nat | MaximalRun(b, l, |b|) :: l == lo
    decreases |b|
  {
    var rest := b[..|b| - 1];
    if Last(rest) then
      var lo := TailStart(rest);
      assert forall k | lo <= k < |rest| :: rest[k] == b[k];
      assert MaximalRun(b, lo, |b|);
      lo
    else |b| - 1
  }

  lemma EarlierRuns(b: seq<bool>, x: bool)
    ensures var c := b + [x];
            c[|b|] == x && forall lo: nat, hi: nat | hi < |b| :: MaximalRun(b, lo, hi) <==> MaximalRun(c, lo, hi)
  {
    var c := b + [x];
    assert forall k | 0 <= k < |b| :: b[k] == c[k];
  }

  lemma RunsAfterFalse(b: seq<bool>)
    ensures MaximalRuns(b + [false]) == MaximalRuns(b)
  {
    var c := b + [false];
    EarlierRuns(b, false);
    forall lo: nat ensures !MaximalRun(c, lo, |c|) && (MaximalRun(b, lo, |b|) <==> MaximalRun(c, lo, |b|)) {
      assert forall k | 0 <= k < |b| :: b[k] == c[k];
    }
  }

  lemma RunsAfterRise(b: seq<bool>)
    requires !Last(b)
    ensures MaximalRuns(b + [true]) == MaximalRuns(b) + {(|b|, |b| + 1)}
  {
    var c := b + [true];
    EarlierRuns(b, true);
    forall lo: nat
      ensures !MaximalRun(b, lo, |b|) && !MaximalRun(c, lo, |b|) && (MaximalRun(c, lo, |c|) <==> lo == |b|)
    {
      assert b != [] ==> !b[|b| - 1] && !c[|b| - 1];
    }
  }

  lemma RunsAfterMore(b: seq<bool>)
    requires Last(b)
    ensures MaximalRuns(b + [true]) == MaximalRuns(b) - {(TailStart(b), |b|)} + {(TailStart(b), |b| + 1)}
  {
    var c := b + [true];
    EarlierRuns(b, true);
    assert c[..|c| - 1] == b;
    TailGrows(b);
    forall lo: nat, hi: nat
      ensures MaximalRun(c, lo, hi) <==> (hi < |b| && MaximalRun(b, lo, hi)) || (lo, hi) == (TailStart(b), |c|)
    {
      if hi == |b| {
        assert c[|b|] && c[|b| - 1];
      }
    }
    forall lo: nat ensures MaximalRun(b, lo, |b|) <==> lo == TailStart(b) {
    }
  }

  lemma TailGrows(b: seq<bool>)
    requires Last(b)
    ensures Last(b + [true]) && TailStart(b + [true]) == TailStart(b)
  {
  }

  lemma RunsStayInside(b: seq<bool>)
    ensures forall r | r in MaximalRuns(b) :: r.1 <= |b|
    ensures Last(b) ==> (TailStart(b), |b|) in MaximalRuns(b)
  {
  }

  /** One more flag opens a new run exactly when it rises. */
  lemma RunsSnoc(b: seq<bool>, x: bool)
    ensures |MaximalRuns(b + [x])| == |MaximalRuns(b)| + if x && !Last(b) then 1 else 0
  {
    hide MaximalRun, MaximalRuns, TailStart, Last;
    RunsStayInside(b);
    if !x {
      RunsAfterFalse(b);
    } else if !Last(b) {
      RunsAfterRise(b);
      assert (|b|, |b| + 1) !in MaximalRuns(b);
    } else {
      RunsAfterMore(b);
      assert (TailStart(b), |b| + 1) !in MaximalRuns(b);
    }
  }

  lemma EdgesSnoc(t: seq<Sample>, n: nat)
    requires 0 < n < |t|
    ensures |FallingEdges(t, n + 1)| == |FallingEdges(t, n)| + if t[n - 1].engaged && !t[n].engaged then 1 else 0
  {
    if t[n - 1].engaged && !t[n].engaged {
      assert FallingEdges(t, n + 1) == FallingEdges(t, n) + {n};
    } else {
      assert FallingEdges(t, n + 1) == FallingEdges(t, n);
    }
  }

  // ---- the server's loop ------------------------------------------------------------------

  /** `telemetry_stats`: sums over the usable intervals, rising-edge counts, and falling edges. */
  method TelemetryStats(t: seq<Sample>) returns (s: SegStats)
    ensures s == SegStatsOf(t)
    ensures s.hardBrake == HardEvents(t, Brake) && s.hardAccel == HardEvents(t, Throttle)
    ensures s.disengage == |FallingEdges(t, |t|)|
    ensures s.telemM == Distance(t, |t|, false) && s.engagedM == Distance(t, |t|, true)
    ensures s.driveS == Duration(t, |t|, false) && s.engagedS == Duration(t, |t|, true)
    ensures s.maxSpeed >= 0.0 && forall i | 0 <= i < |t| :: t[i].speed <= s.maxSpeed
    ensures s.maxSpeed == 0.0 || exists i :: 0 <= i < |t| && t[i].speed == s.maxSpeed
  {
    hide MaximalRuns, FallingEdges, Accel, Over, Distance, Duration, Flags;
    s := SegStats(0.0, 0.0, 0.0, 0.0, 0.0, 0, 0, 0);
    var prev, inBrake, inAccel := None, false, false;
    NothingCounted(t);
    for i := 0 to |t|
      invariant prev == if i == 0 then None else Some(Metres(t[i - 1]))
      invariant inBrake == Last(Flags(t, i, Brake)) && inAccel == Last(Flags(t, i, Throttle))
      invariant s.hardBrake == |MaximalRuns(Flags(t, i, Brake))|
      invariant s.hardAccel == |MaximalRuns(Flags(t, i, Throttle))|
      invariant s.disengage == |FallingEdges(t, i)|
      invariant s.telemM == Distance(t, i, false) && s.engagedM == Distance(t, i, true)
      invariant s.driveS == Duration(t, i, false) && s.engagedS == Duration(t, i, true)
      invariant s.maxSpeed == TopSpeed(t, i)
    {
      var v := t[i].speed * MPH_TO_MS;
      NextSums(t, i);
      if t[i].speed > s.maxSpeed {
        s := s.(maxSpeed := t[i].speed);
      }
      if i > 0 {
        var dt := t[i].t - t[i - 1].t;
        if 0.0 < dt < 2.0 {
          s := s.(telemM := s.telemM + v * dt, driveS := s.driveS + dt);
          if t[i].engaged {
            s := s.(engagedM := s.engagedM + v * dt, engagedS := s.engagedS + dt);
          }
          if prev.Some? {
            var a := (v - prev.value) / dt;
            NextFlag(t, i, a);
            if a <= HARD_BRAKE_MS2 {
              if !inBrake {
                s := s.(hardBrake := s.hardBrake + 1);
              }
              inBrake := true;
            } else {
              inBrake := false;
            }
            if a >= HARD_ACCEL_MS2 {
              if !inAccel {
                s := s.(hardAccel := s.hardAccel + 1);
              }
              inAccel := true;
            } else {
              inAccel := false;
            }
          }
        }
        EdgesSnoc(t, i);
        if t[i - 1].engaged && !t[i].engaged {
          s := s.(disengage := s.disengage + 1);
        }
      }
      prev := Some(v);
      if i == 0 {
        NoEdges(t);
      }
    }
    TopSpeedIsMax(t, |t|);
  }

  lemma NextSums(t: seq<Sample>, i: nat)
    requires i < |t|
    ensures Usable(t, i) ==> forall only ::
              var counts := only ==> t[i].engaged;
              var dt := t[i].t - t[i - 1].t;
              && Distance(t, i + 1, only) == Distance(t, i, only) + (if counts then Metres(t[i]) * dt else 0.0)
              && Duration(t, i + 1, only) == Duration(t, i, only) + (if counts then dt else 0.0)
    ensures !Usable(t, i) ==> forall only ::
              Distance(t, i + 1, only) == Distance(t, i, only) && Duration(t, i + 1, only) == Duration(t, i, only)
    ensures !Usable(t, i) ==> forall kind :: Flags(t, i + 1, kind) == Flags(t, i, kind)
  {
  }

  lemma NothingCounted(t: seq<Sample>)
    ensures MaximalRuns([]) == {} && FallingEdges(t, 0) == {} && forall kind :: Flags(t, 0, kind) == []
    ensures forall only :: Distance(t, 0, only) == Duration(t, 0, only) == 0.0
  {
  }

  lemma NoEdges(t: seq<Sample>)
    requires t != []
    ensures FallingEdges(t, 1) == {}
  {
  }

  /** The flags grow by the acceleration of a usable interval, and the runs by its rising edges. */
  lemma NextFlag(t: seq<Sample>, i: nat, a: real)
    requires 0 < i < |t| && Usable(t, i)
    requires a == (Metres(t[i]) - Metres(t[i - 1])) / (t[i].t - t[i - 1].t)
    ensures forall kind :: Flags(t, i + 1, kind) == Flags(t, i, kind) + [Over(a, kind)]
    ensures forall kind :: |MaximalRuns(Flags(t, i + 1, kind))|
              == |MaximalRuns(Flags(t, i, kind))| + if Over(a, kind) && !Last(Flags(t, i, kind)) then 1 else 0
    ensures Over(a, Brake) == (a <= HARD_BRAKE_MS2) && Over(a, Throttle) == (a >= HARD_ACCEL_MS2)
  {
    hide MaximalRuns;
    forall kind
      ensures |MaximalRuns(Flags(t, i + 1, kind))|
           == |MaximalRuns(Flags(t, i, kind))| + if Over(a, kind) && !Last(Flags(t, i, kind)) then 1 else 0
    {
      RunsSnoc(Flags(t, i, kind), Over(a, kind));
    }
  }

  // ---- the graph's loop --------------------------------------------------------------------

  const W: real := 1000.0

  /** A mark on the graph: its x position and what it marks. */
  datatype Mark = Mark(x: real, kind: Kind)

  function Count(marks: seq<Mark>, kind: Kind): nat {
    if marks == [] then 0
    else Count(marks[..|marks| - 1], kind) + if marks[|marks| - 1].kind == kind then 1 else 0
  }

  lemma CountSnoc(marks: seq<Mark>, m: Mark, kind: Kind)
    ensures Count(marks + [m], kind) == Count(marks, kind) + if m.kind == kind then 1 else 0
  {
  }

  function MaxT(t: seq<Sample>): real {
    if t == [] || t[|t| - 1].t == 0.0 then 1.0 else t[|t| - 1].t
  }

  /** The mark stands at a sample whose acceleration is over the threshold of its kind. */
  predicate MarksSample(m: Mark, t: seq<Sample>, i: nat) {
    i < |t| && Usable(t, i) && Over(Accel(t, i), m.kind) && m.x == t[i].t / MaxT(t) * W
  }

  /** `marks`: the user interface's own detection finds exactly the server's hard events. */
  method Marks(t: seq<Sample>) returns (out: seq<Mark>)
    ensures Count(out, Brake) == HardEvents(t, Brake) && Count(out, Throttle) == HardEvents(t, Throttle)
    ensures forall m | m in out :: exists i: nat :: MarksSample(m, t, i)
  {
    hide MaximalRuns, Over, Accel, Count;
    out := [];
    var pv, inB, inA := None, false, false;
    NothingCounted(t);
    NoMarks();
    for i := 0 to |t|
      invariant pv == if i == 0 then None else Some(Metres(t[i - 1]))
      invariant inB == Last(Flags(t, i, Brake)) && inA == Last(Flags(t, i, Throttle))
      invariant Count(out, Brake) == |MaximalRuns(Flags(t, i, Brake))|
      invariant Count(out, Throttle) == |MaximalRuns(Flags(t, i, Throttle))|
      invariant forall m | m in out :: exists j: nat :: MarksSample(m, t, j)
    {
      var v := t[i].speed * MPH_TO_MS;
      if i > 0 && pv.Some? {
        var dt := t[i].t - t[i - 1].t;
        if 0.0 < dt < 2.0 {
          var a := (v - pv.value) / dt;
          NextFlag(t, i, a);
          AccelIs(t, i, a);
          if a <= HARD_BRAKE_MS2 {
            if !inB {
              var m := Mark(t[i].t / MaxT(t) * W, Brake);
              assert MarksSample(m, t, i);
              CountSnoc(out, m, Brake);
              CountSnoc(out, m, Throttle);
              out := out + [m];
              inB := true;
            }
          } else {
            inB := false;
          }
          if a >= HARD_ACCEL_MS2 {
            if !inA {
              var m := Mark(t[i].t / MaxT(t) * W, Throttle);
              assert MarksSample(m, t, i);
              CountSnoc(out, m, Brake);
              CountSnoc(out, m, Throttle);
              out := out + [m];
              inA := true;
            }
          } else {
            inA := false;
          }
        }
      }
      pv := Some(v);
    }
  }

  lemma NoMarks()
    ensures Count([], Brake) == Count([], Throttle) == 0
  {
  }

  lemma AccelIs(t: seq<Sample>, i: nat, a: real)
    requires 0 < i < |t| && Usable(t, i)
    requires a == (Metres(t[i]) - Metres(t[i - 1])) / (t[i].t - t[i - 1].t)
    ensures Accel(t, i) == a
  {
  }
}
