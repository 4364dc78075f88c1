/** Subtitles: transcribing a drive in chunks, and the sweep that decides which drives to transcribe. */
module Subtitles {
  import opened Wrappers
  import opened Text
  import opened Names
  import opened WebVtt
  import Movies

  // ---- transcribing in chunks ----------------------------------------------------------

  const CHUNK_SECS: real := 300.0

  /** The audio that the chunk loop walks through. */
  function Walked(total: real): real {
    if total < 0.001 then 0.001 else total
  }

  function Offset(n: nat): (r: real)
    ensures r >= 0.0
  {
    n as real * CHUNK_SECS
  }

  /** How many chunks begin before the end of the audio. */
  function ChunkCount(total: real): (n: nat)
    ensures n > 0 && Offset(n - 1) < Walked(total) <= Offset(n)
  {
    var q := (Walked(total) / CHUNK_SECS).Floor;
    assert q as real <= Walked(total) / CHUNK_SECS < q as real + 1.0;
    assert q as real * CHUNK_SECS <= Walked(total) < (q as real + 1.0) * CHUNK_SECS;
    if q as real * CHUNK_SECS == Walked(total) then q else q + 1
  }

  lemma BeginsBefore(n: nat, total: real)
    ensures Offset(n) < Walked(total) <==> n < ChunkCount(total)
  {
  }

  /** `shift`. */
  function Shift(cues: seq<Cue>, offset: real): (r: seq<Cue>)
    ensures |r| == |cues|
    ensures forall i | 0 <= i < |r| :: r[i] == Cue(cues[i].start + offset, cues[i].end + offset, cues[i].text)
  {
    seq(|cues|, i requires 0 <= i < |cues| => Cue(cues[i].start + offset, cues[i].end + offset, cues[i].text))
  }

  /** The cues that the server's answers to the first n chunks make up. */
  function Transcript(answers: nat -> Option<string>, n: nat): seq<Cue>
    requires forall i | 0 <= i < n :: answers(i).Some?
  {
    if n == 0 then []
    else Transcript(answers, n - 1) + Shift(ParseLines(Lines(answers(n - 1).value)), Offset(n - 1))
  }

  datatype Ending = Finished(cues: seq<Cue>) | SwitchedOff | ServerFailed

  /** The chunk loop of `build`; a chunk that cannot be cut ends the audio. */
  method Transcribe(total: real, enabled: nat -> bool, cut: nat -> bool, answers: nat -> Option<string>)
    returns (r: Ending, n: nat)
    ensures n <= ChunkCount(total) && forall i | 0 <= i < n :: enabled(i) && cut(i) && answers(i).Some?
    ensures n < ChunkCount(total) ==>
              r == (if !enabled(n) then SwitchedOff
                    else if cut(n) then ServerFailed
                    else Finished(Transcript(answers, n)))
    ensures n < ChunkCount(total) ==> !enabled(n) || !cut(n) || answers(n) == None
    ensures n == ChunkCount(total) ==> r == Finished(Transcript(answers, n))
  {
    hide Offset, Walked, ChunkCount, Lines, ParseLines, Shift, Transcript;
    var cues: seq<Cue> := [];
    NothingHeard(answers);
    var offset := 0.0;
    n := 0;
    OffsetSteps(0);
    while offset < Walked(total)
      invariant n <= ChunkCount(total) && offset == Offset(n)
      invariant forall i | 0 <= i < n :: enabled(i) && cut(i) && answers(i).Some?
      invariant cues == Transcript(answers, n)
      decreases ChunkCount(total) - n
    {
      BeginsBefore(n, total);
      if !enabled(n) {
        return SwitchedOff, n;
      }
      if !cut(n) {
        return Finished(cues), n;
      }
      match answers(n) {
        case None => return ServerFailed, n;
        case Some(vtt) =>
          var parsed := ParseVtt(vtt);
          MoreHeard(answers, n);
          cues := cues + Shift(parsed, offset);
      }
      OffsetSteps(n);
      n, offset := n + 1, offset + CHUNK_SECS;
    }
    BeginsBefore(n, total);
    return Finished(cues), n;
  }

  lemma NothingHeard(answers: nat -> Option<string>)
    ensures Transcript(answers, 0) == []
  {
  }

  lemma MoreHeard(answers: nat -> Option<string>, n: nat)
    requires forall i | 0 <= i <= n :: answers(i).Some?
    ensures Transcript(answers, n + 1)
         == Transcript(answers, n) + Shift(ParseLines(Lines(answers(n).value)), Offset(n))
  {
  }

  lemma OffsetSteps(n: nat)
    ensures Offset(0) == 0.0 && Offset(n + 1) == Offset(n) + CHUNK_SECS
  {
  }

  // ---- what the transcript is worth -------------------------------------------------------------

  /** Cues that begin in this span of time, in order. */
  predicate Between(cues: seq<Cue>, from: real, until: real) {
    && (forall i | 0 <= i < |cues| :: from <= cues[i].start <= until)
    && (forall i, j | 0 <= i < j < |cues| :: cues[i].start <= cues[j].start)
  }

  /** An answer's cues begin inside their chunk, in order. */
  predicate InChunk(cues: seq<Cue>) {
    Between(cues, 0.0, CHUNK_SECS)
  }

  /** The whole drive's cues are then in order, each inside its own chunk of the time line. */
  lemma {:induction false} TranscriptInOrder(answers: nat -> Option<string>, n: nat)
    requires forall i | 0 <= i < n :: answers(i).Some? && InChunk(ParseLines(Lines(answers(i).value)))
    ensures Between(Transcript(answers, n), 0.0, Offset(n))
  {
    hide Lines, ParseLines, Offset, InChunk, Between, Shift;
    NothingBetween();
    if n > 0 {
      TranscriptInOrder(answers, n - 1);
      OffsetSteps(n - 1);
      assert Offset(n) == Offset(n - 1) + CHUNK_SECS;
      var last := ParseLines(Lines(answers(n - 1).value));
      assert InChunk(last);
      ShiftInChunk(last, Offset(n - 1));
      InOrderAppend(Transcript(answers, n - 1), Shift(last, Offset(n - 1)), Offset(n - 1), Offset(n));
    }
  }

  lemma NothingBetween()
    ensures forall until :: Between([], 0.0, until)
  {
  }

  lemma InOrderAppend(a: seq<Cue>, b: seq<Cue>, mid: real, until: real)
    requires Between(a, 0.0, mid) && Between(b, mid, until) && 0.0 <= mid <= until
    ensures Between(a + b, 0.0, until)
  {
  }

  lemma ShiftInChunk(cues: seq<Cue>, offset: real)
    requires InChunk(cues)
    ensures Between(Shift(cues, offset), offset, offset + CHUNK_SECS)
  {
  }

  predicate MillisOnly(cues: seq<Cue>) {
    forall c | c in cues :: WholeMillis(c.start) && WholeMillis(c.end)
  }

  /** Answers in whole milliseconds are stored without loss: the document reads back as the shifted cues. */
  lemma StoredTranscriptReadsBack(answers: nat -> Option<string>, n: nat)
    requires forall i | 0 <= i < n :: answers(i).Some? && MillisOnly(ParseLines(Lines(answers(i).value)))
    ensures ParseLines(Lines(Rendered(Transcript(answers, n)))) == Transcript(answers, n)
  {
    hide Lines, ParseLines, WholeMillis, TextOk;
    TranscriptIsClean(answers, n);
    VttRoundTrip(Transcript(answers, n));
  }

  lemma {:induction false} TranscriptIsClean(answers: nat -> Option<string>, n: nat)
    requires forall i | 0 <= i < n :: answers(i).Some? && MillisOnly(ParseLines(Lines(answers(i).value)))
    ensures MillisOnly(Transcript(answers, n)) && forall c | c in Transcript(answers, n) :: TextOk(c.text)
  {
    hide Lines, ParseLines, WholeMillis, TextOk, Offset, Shift;
    if n > 0 {
      TranscriptIsClean(answers, n - 1);
      var last := ParseLines(Lines(answers(n - 1).value));
      assert MillisOnly(last);
      ParsedTextIsOk(Lines(answers(n - 1).value));
      ShiftIsClean(last, n - 1);
    }
  }

  lemma ShiftIsClean(cues: seq<Cue>, n: nat)
    requires MillisOnly(cues) && forall c | c in cues :: TextOk(c.text)
    ensures MillisOnly(Shift(cues, Offset(n))) && forall c | c in Shift(cues, Offset(n)) :: TextOk(c.text)
  {
    hide WholeMillis, TextOk, Offset;
    var moved := Shift(cues, Offset(n));
    forall c | c in moved ensures WholeMillis(c.start) && WholeMillis(c.end) && TextOk(c.text) {
      var i :| 0 <= i < |moved| && moved[i] == c;
      assert cues[i] in cues;
      MillisShift(cues[i].start, n);
      MillisShift(cues[i].end, n);
    }
  }

  lemma ShiftedMillis(t: real, m: int, n: nat)
    requires 1000.0 * t == m as real
    ensures 1000.0 * (t + Offset(n)) == (m + 300_000 * n) as real
  {
  }

  lemma MillisShift(t: real, n: nat)
    requires WholeMillis(t)
    ensures WholeMillis(t + Offset(n))
  {
    var m := (1000.0 * t).Floor;
    assert 1000.0 * t == m as real;
    hide WholeMillis;
    ShiftedMillis(t, m, n);
    WholeIf(t + Offset(n), m + 300_000 * n);
  }

  // ---- the sweep ----------------------------------------------------------------------------------------

  /** Routes with their device, segment rows with whether they carry audio, freshness rows, and stored transcripts. */
  datatype State = State(
    routes: map<string, string>,
    segments: map<(string, int), bool>,
    rows: map<string, Movies.Row>,
    blobs: map<string, string>)

  function Segments(segments: map<(string, int), bool>, fullname: string): set<(string, int)> {
    set k | k in segments && k.0 == fullname
  }

  function Audible(segments: map<(string, int), bool>, fullname: string): set<(string, int)> {
    set k | k in segments && k.0 == fullname && segments[k]
  }

  function KeyOf(routes: map<string, string>, fullname: string): Option<string> {
    if fullname in routes && SplitOnce(fullname, "|").Some? then
      Some(SubsKey(routes[fullname], SplitOnce(fullname, "|").value.1))
    else None
  }

  /** Should a sweep that sees these tables and files transcribe this drive? The rule is the movies' rule. */
  predicate ToDo(s: State, f: string) {
    KeyOf(s.routes, f).Some?
    && Movies.Due(if f in s.rows then Some(s.rows[f]) else None, |Segments(s.segments, f)|, |Audible(s.segments, f)|,
                  KeyOf(s.routes, f).value in s.blobs)
  }

  /** How a build ends: with a document, with a recorded failure, or given up without a record. */
  datatype Outcome = Written(vtt: string) | Failed | Aborted

  /** `build`: a failure is recorded with no bytes, a veto stays. */
  function Built(s: State, f: string, key: string, o: Outcome): State {
    var veto := f in s.rows && s.rows[f].disabled;
    var n := |Audible(s.segments, f)|;
    match o
    case Written(vtt) => s.(blobs := s.blobs[key := vtt], rows := s.rows[f := Movies.Row(n, |vtt|, veto)])
    case Failed => s.(rows := s.rows[f := Movies.Row(n, 0, veto)])
    case Aborted => s
  }

  /** A recorded build settles its drive. */
  lemma BuiltIsSettled(s: State, f: string, o: Outcome)
    requires KeyOf(s.routes, f).Some? && !o.Aborted?
    ensures !ToDo(Built(s, f, KeyOf(s.routes, f).value, o), f)
  {
  }

  predicate AllSettled(s: State, done: set<string>) {
    forall f | f in done :: !ToDo(s, f)
  }

  predicate NoneAborted(outcome: string -> Outcome, built: set<string>) {
    forall f | f in built :: !outcome(f).Aborted?
  }

  lemma AbortedMore(outcome: string -> Outcome, built: set<string>, f: string)
    ensures NoneAborted(outcome, built + {f}) <==> NoneAborted(outcome, built) && !outcome(f).Aborted?
  {
  }

  /** What one build of a sweep does to the rest of the tables. */
  lemma BuiltSettles(s: State, done: set<string>, f: string, o: Outcome)
    requires KeyOf(s.routes, f).Some? && f !in done
    ensures var t := Built(s, f, KeyOf(s.routes, f).value, o);
            && t.routes == s.routes && t.segments == s.segments && s.blobs.Keys <= t.blobs.Keys
            && (forall g | g != f :: RowIn(t.rows, g) == RowIn(s.rows, g))
            && (AllSettled(s, done) && !o.Aborted? ==> AllSettled(t, done + {f}))
  {
  }

  class Transcriber {
    var routes: map<string, string>
    var segments: map<(string, int), bool>
    var rows: map<string, Movies.Row>
    var blobs: map<string, string>

    function Abstract(): State
      reads this
    {
      State(routes, segments, rows, blobs)
    }

    constructor (s: State)
      ensures Abstract() == s
    {
      routes, segments, rows, blobs := s.routes, s.segments, s.rows, s.blobs;
    }

    method Build(dongle: string, ts: string, o: Outcome)
      modifies this
      ensures Abstract() == Built(old(Abstract()), RouteName(dongle, ts), SubsKey(dongle, ts), o)
    {
      hide RouteName, SubsKey, Audible;
      var f, n := RouteName(dongle, ts), |Audible(segments, RouteName(dongle, ts))|;
      var veto := f in rows && rows[f].disabled;
      match o {
        case Written(vtt) =>
          blobs := blobs[SubsKey(dongle, ts) := vtt];
          rows := rows[f := Movies.Row(n, |vtt|, veto)];
        case Failed => rows := rows[f := Movies.Row(n, 0, veto)];
        case Aborted =>
      }
    }

    /**
     * `sweep`: each drive in turn is judged by the rows read at the start and the files of the moment, and built if
     * due. Only drives that were due at the start are built, and if no build gave up, none is due at the end.
     */
    method Sweep(outcome: string -> Outcome, enabled: string -> bool) returns (ghost built: set<string>)
      requires Movies.RoutesNamed(routes)
      modifies this
      ensures forall f | f in built :: ToDo(old(Abstract()), f) && enabled(f)
      ensures (forall f | f in routes :: enabled(f)) && NoneAborted(outcome, built) ==> forall f :: !ToDo(Abstract(), f)
      ensures routes == old(routes) && segments == old(segments)
      ensures forall f :: RowIn(rows, f) == RowAfter(old(Abstract()), f, f in built, outcome(f))
      ensures blobs.Keys == old(blobs).Keys + WrittenKeys(routes, built, outcome)
    {
      hide KeyOf, Segments, Audible, Movies.Due, Built, ToDo, Swept, RowIn, RowAfter, WrittenKeys, NoneAborted,
           Movies.RoutesNamed, RouteName, SubsKey;
      var snapshot := rows;
      ghost var s := Abstract();
      var left := routes.Keys;
      built := {};
      assert routes.Keys - left == {};
      SweptStart(s, outcome, enabled);
      while left != {}
        invariant routes == s.routes && left <= routes.Keys
        invariant Swept(s, Abstract(), routes.Keys - left, built, outcome, enabled)
        decreases left
      {
        var f :| f in left;
        if !enabled(f) {
          SweptEnd(s, Abstract(), routes.Keys - left, built, outcome, enabled);
          return;
        }
        ghost var before, done := Abstract(), routes.Keys - left;
        left := left - {f};
        assert routes.Keys - left == done + {f};
        SweptJudge(s, before, done, built, outcome, enabled, f);
        var due := Judge(f, snapshot);
        if due {
          SweptBuild(s, before, done, built, outcome, enabled, f);
          Build(routes[f], SplitOnce(f, "|").value.1, outcome(f));
          built := built + {f};
        } else {
          SweptSkip(s, before, done, built, outcome, enabled, f);
        }
      }
      assert routes.Keys - left == routes.Keys;
      SweptEnd(s, Abstract(), routes.Keys, built, outcome, enabled);
    }

    /** The checks of the sweep for one drive. */
    method Judge(f: string, snapshot: map<string, Movies.Row>) returns (due: bool)
      requires f in routes
      ensures due <==> ToDo(Abstract().(rows := snapshot), f)
    {
      if SplitOnce(f, "|") == None {
        return false;
      }
      var total, withAudio := |Segments(segments, f)|, |Audible(segments, f)|;
      if total == 0 || withAudio != total {
        return false;
      }
      if f in snapshot {
        if snapshot[f].disabled {
          return false;
        }
        if snapshot[f].segCount == total {
          return snapshot[f].bytes != 0 && SubsKey(routes[f], SplitOnce(f, "|").value.1) !in blobs;
        }
      }
      return true;
    }
  }

  function RowIn(rows: map<string, Movies.Row>, f: string): Option<Movies.Row> {
    if f in rows then Some(rows[f]) else None
  }

  /** The row of a drive after a sweep that built it, or did not. */
  function RowAfter(s: State, f: string, built: bool, o: Outcome): Option<Movies.Row> {
    RowIn(if built then Built(s, f, "", o).rows else s.rows, f)
  }

  /** The transcripts that a sweep wrote. */
  ghost function WrittenKeys(routes: map<string, string>, built: set<string>, outcome: string -> Outcome): set<string> {
    set f | f in built && KeyOf(routes, f).Some? && outcome(f).Written? :: KeyOf(routes, f).value
  }

  lemma NotBuiltYet(s: State, f: string, o: Outcome)
    ensures RowAfter(s, f, false, o) == RowIn(s.rows, f)
  {
  }

  /** A build writes the row that it would have written at the start of the sweep, and at most its own transcript. */
  lemma WrittenMore(s: State, t: State, built: set<string>, f: string, outcome: string -> Outcome)
    requires t.routes == s.routes && t.segments == s.segments
    requires RowIn(t.rows, f) == RowIn(s.rows, f) && KeyOf(s.routes, f).Some?
    ensures var u := Built(t, f, KeyOf(s.routes, f).value, outcome(f));
            var own := if outcome(f).Written? then {KeyOf(s.routes, f).value} else {};
            && RowIn(u.rows, f) == RowAfter(s, f, true, outcome(f))
            && u.blobs.Keys == t.blobs.Keys + own
            && WrittenKeys(s.routes, built + {f}, outcome) == WrittenKeys(s.routes, built, outcome) + own
  {
    hide KeyOf, Audible, WrittenKeys;
    OwnKey(s.routes, built, f, outcome);
  }

  lemma OwnKey(routes: map<string, string>, built: set<string>, f: string, outcome: string -> Outcome)
    requires KeyOf(routes, f).Some?
    ensures WrittenKeys(routes, built + {f}, outcome)
         == WrittenKeys(routes, built, outcome) + if outcome(f).Written? then {KeyOf(routes, f).value} else {}
  {
    hide KeyOf;
  }

  /** How far a sweep that began in s has come when it has dealt with these drives and built some of them. */
  ghost predicate Swept(s: State, t: State, done: set<string>, built: set<string>,
                        outcome: string -> Outcome, enabled: string -> bool)
  {
    && t.routes == s.routes && t.segments == s.segments && built <= done <= s.routes.Keys
    && t.blobs.Keys == s.blobs.Keys + WrittenKeys(s.routes, built, outcome)
    && (forall f :: RowIn(t.rows, f) == RowAfter(s, f, f in built, outcome(f)))
    && (forall f | f in built :: ToDo(s, f) && enabled(f))
    && (NoneAborted(outcome, built) ==> AllSettled(t, done))
  }

  lemma SweptStart(s: State, outcome: string -> Outcome, enabled: string -> bool)
    ensures Swept(s, s, {}, {}, outcome, enabled)
  {
  }

  lemma SweptJudge(s: State, t: State, done: set<string>, built: set<string>,
                   outcome: string -> Outcome, enabled: string -> bool, f: string)
    requires Swept(s, t, done, built, outcome, enabled) && f in s.routes && f !in done
    requires Movies.RoutesNamed(s.routes)
    ensures f in t.routes && t.routes == s.routes && t.segments == s.segments
    ensures ToDo(t.(rows := s.rows), f) <==> ToDo(t, f)
    ensures ToDo(t, f) ==> ToDo(s, f) && SplitOnce(f, "|").Some?
                           && RouteName(t.routes[f], SplitOnce(f, "|").value.1) == f
                           && KeyOf(t.routes, f) == Some(SubsKey(t.routes[f], SplitOnce(f, "|").value.1))
  {
  }

  lemma SweptSkip(s: State, t: State, done: set<string>, built: set<string>,
                  outcome: string -> Outcome, enabled: string -> bool, f: string)
    requires Swept(s, t, done, built, outcome, enabled) && f in s.routes && !ToDo(t, f)
    ensures Swept(s, t, done + {f}, built, outcome, enabled)
  {
    hide ToDo, WrittenKeys, RowAfter, RowIn;
  }

  lemma SweptBuild(s: State, t: State, done: set<string>, built: set<string>,
                   outcome: string -> Outcome, enabled: string -> bool, f: string)
    requires Swept(s, t, done, built, outcome, enabled) && f in s.routes && f !in done
    requires ToDo(s, f) && enabled(f) && KeyOf(s.routes, f).Some?
    ensures var u := Built(t, f, KeyOf(s.routes, f).value, outcome(f));
            u.routes == s.routes && Swept(s, u, done + {f}, built + {f}, outcome, enabled)
  {
    hide ToDo, KeyOf, WrittenKeys, RowAfter, RowIn, Built, AllSettled, NoneAborted;
    NotBuiltYet(s, f, outcome(f));
    assert RowIn(t.rows, f) == RowAfter(s, f, f in built, outcome(f));
    BuiltSettles(t, done, f, outcome(f));
    AbortedMore(outcome, built, f);
    WrittenMore(s, t, built, f, outcome);
    forall g ensures RowIn(Built(t, f, KeyOf(s.routes, f).value, outcome(f)).rows, g)
                  == RowAfter(s, g, g in built + {f}, outcome(g))
    {
      assert RowIn(t.rows, g) == RowAfter(s, g, g in built, outcome(g));
    }
  }

  lemma SweptEnd(s: State, t: State, done: set<string>, built: set<string>,
                 outcome: string -> Outcome, enabled: string -> bool)
    requires Swept(s, t, done, built, outcome, enabled)
    ensures t.routes == s.routes && t.segments == s.segments
    ensures t.blobs.Keys == s.blobs.Keys + WrittenKeys(s.routes, built, outcome)
    ensures forall f :: RowIn(t.rows, f) == RowAfter(s, f, f in built, outcome(f))
    ensures forall f | f in built :: ToDo(s, f) && enabled(f)
    ensures done == s.routes.Keys && NoneAborted(outcome, built) ==> forall f :: !ToDo(t, f)
  {
  }
}
