/** The WebVTT reader and writer of the subtitle builder; times are exact reals in seconds. */
module WebVtt {
  import opened Wrappers
  import opened Text
  import opened Decimal

  datatype Cue = Cue(start: real, end: real, text: string)

  // ---- lines and whitespace ----------------------------------------------------------

  /** The Unicode white-space characters. */
  predicate IsSpace(c: char) {
    var n := c as int;
    9 <= n <= 13 || n == 0x20 || n == 0x85 || n == 0xA0 || n == 0x1680 || 0x2000 <= n <= 0x200A
    || n == 0x2028 || n == 0x2029 || n == 0x202F || n == 0x205F || n == 0x3000
  }

  /** No white space at either end. */
  predicate Trimmed(s: string) {
    s == "" || (!IsSpace(s[0]) && !IsSpace(s[|s| - 1]))
  }

  function TrimStart(s: string): (r: string)
    ensures r == "" || !IsSpace(r[0])
    ensures s != "" && !IsSpace(s[0]) ==> r == s
    ensures forall c | c in r :: c in s
  {
    if s != "" && IsSpace(s[0]) then TrimStart(s[1..]) else s
  }

  function Trim(s: string): (r: string)
    ensures Trimmed(r)
    ensures Trimmed(s) ==> r == s
    ensures forall c | c in r :: c in s
    decreases |s|
  {
    var t := TrimStart(s);
    if t == "" then ""
    else if IsSpace(t[|t| - 1]) then
      assert forall c | c in t[..|t| - 1] :: c in t;
      assert |t| <= |s| by { TrimStartShorter(s); }
      Trim(t[..|t| - 1])
    else t
  }

  lemma TrimStartShorter(s: string)
    ensures |TrimStart(s)| <= |s|
  {
  }

  lemma TrimmedHasNoReturn(s: string)
    requires Trimmed(s)
    ensures DropReturn(s) == s
  {
  }

  lemma FirstTrimmedLine(a: string, rest: string)
    requires '\n' !in a && Trimmed(a)
    ensures Lines(a + "\n" + rest) == [a] + Lines(rest)
  {
    TrimmedHasNoReturn(a);
    FirstLine(a, rest);
  }

  // ---- timestamps -----------------------------------------------------------------------

  function Pow10(n: nat): (p: real)
    ensures p > 0.0
  {
    if n == 0 then 1.0 else 10.0 * Pow10(n - 1)
  }

  /** A plain decimal number: optional sign, digits, optional fraction, at least one digit. */
  function ParseDecimal(s: string): Option<real> {
    if s != "" && s[0] == '-' then
      match ParseUnsigned(s[1..]) case None => None case Some(v) => Some(-v)
    else ParseUnsigned(if s != "" && s[0] == '+' then s[1..] else s)
  }

  /** The value of the digits after the point. */
  function Fraction(digits: string): real
    requires AllDigits(digits)
  {
    Value(digits) as real / Pow10(|digits|)
  }

  function ParseUnsigned(s: string): Option<real> {
    match SplitOnce(s, ".")
    case None => if s == "" || !AllDigits(s) then None else Some(Value(s) as real)
    case Some((whole, fraction)) =>
      if (whole == "" && fraction == "") || !AllDigits(whole) || !AllDigits(fraction) then None
      else Some(Value(whole) as real + Fraction(fraction))
  }

  function ReplaceAll(s: string, c: char, sub: char): (r: string)
    ensures c !in s ==> r == s
  {
    if s == "" then "" else [if s[0] == c then sub else s[0]] + ReplaceAll(s[1..], c, sub)
  }

  /** The first white-space separated word, if any. */
  function FirstWord(s: string): Option<string> {
    var t := TrimStart(s);
    if t == "" then None else Some(Word(t))
  }

  function Word(s: string): (r: string)
    ensures (forall c | c in s :: !IsSpace(c)) ==> r == s
  {
    if s == "" || IsSpace(s[0]) then "" else [s[0]] + Word(s[1..])
  }

  /** Base-60 fields, most significant first. */
  function FoldFields(parts: seq<string>, secs: real): Option<real> {
    if parts == [] then Some(secs)
    else
      match ParseDecimal(parts[0])
      case None => None
      case Some(v) => FoldFields(parts[1..], secs * 60.0 + v)
  }

  /** `HH:MM:SS.mmm`, `MM:SS.mmm` or `SS.mmm`, comma or dot, cue settings ignored. */
  function ParseTs(s: string): Option<real> {
    match FirstWord(ReplaceAll(Trim(s), ',', '.'))
    case None => None
    case Some(word) =>
      var parts := Split(word, ':');
      if |parts| > 3 then None else FoldFields(parts, 0.0)
  }

  function Pad(n: nat, width: nat): (r: string)
    ensures AllDigits(r) && Value(r) == n && r != ""
  {
    PadTo(ShowNat(n), width)
  }

  function PadTo(s: string, width: nat): (r: string)
    requires s != "" && AllDigits(s)
    ensures AllDigits(r) && Value(r) == Value(s) && |r| == (if |s| < width then width else |s|)
    decreases width - |s|
  {
    if |s| >= width then s
    else
      LeadingZero(s);
      PadTo("0" + s, width)
  }

  /** The nearest integer, ties to even. */
  function Nearest(x: real): (k: int)
    ensures k as real - 0.5 <= x <= k as real + 0.5
    ensures x.Floor as real == x ==> k as real == x
  {
    var low := x.Floor;
    var rest := x - low as real;
    if rest < 0.5 || (rest == 0.5 && low % 2 == 0) then low else low + 1
  }

  function Hours(t: real): int { (t / 3600.0).Floor }
  function Minutes(t: real): int { ((t - 3600.0 * Hours(t) as real) / 60.0).Floor }
  function Seconds(t: real): real { t - 60.0 * (t / 60.0).Floor as real }
  function Millis(t: real): int { Nearest(1000.0 * Seconds(t)) }

  lemma FieldRanges(t: real)
    requires t >= 0.0
    ensures Hours(t) >= 0 && 0 <= Minutes(t) < 60
    ensures 0.0 <= Seconds(t) < 60.0 && 0 <= Millis(t) <= 60000
    ensures t == 3600.0 * Hours(t) as real + 60.0 * Minutes(t) as real + Seconds(t)
  {
    var h, m := Hours(t), Minutes(t);
    assert (t / 60.0).Floor == 60 * h + m by {
      assert 60.0 * (60 * h + m) as real <= t < 60.0 * (60 * h + m + 1) as real;
    }
  }

  /** `{h:02}:{m:02}:{s:06.3}`; the seconds may print as 60.000. */
  function FmtTs(time: real): string {
    var t := if time < 0.0 then 0.0 else time;
    FieldRanges(t);
    Stamp(Pad(Hours(t), 2), Pad(Minutes(t), 2), Pad(Millis(t) / 1000, 2), Pad(Millis(t) % 1000, 3))
  }

  function Stamp(h: string, m: string, sec: string, ms: string): string {
    h + ":" + m + ":" + sec + "." + ms
  }

  /** The time a printed timestamp denotes. */
  function Printed(time: real): real {
    var t := if time < 0.0 then 0.0 else time;
    3600.0 * Hours(t) as real + 60.0 * Minutes(t) as real + Millis(t) as real / 1000.0
  }

  /** A time the format can carry: not negative, whole milliseconds. */
  predicate WholeMillis(t: real) {
    t >= 0.0 && (1000.0 * t).Floor as real == 1000.0 * t
  }

  lemma PrintedIsWhole(t: real)
    ensures WholeMillis(Printed(t))
    ensures t >= 0.0 ==> -0.0005 <= Printed(t) - t <= 0.0005
  {
    hide Hours, Minutes, Seconds, Nearest, WholeMillis;
    var u := if t < 0.0 then 0.0 else t;
    FieldRanges(u);
    MillisAddUp(Hours(u), Minutes(u), Millis(u));
    WholeIf(Printed(t), 3600000 * Hours(u) + 60000 * Minutes(u) + Millis(u));
  }

  lemma MillisAddUp(h: int, m: int, k: int)
    ensures 1000.0 * (3600.0 * h as real + 60.0 * m as real + k as real / 1000.0)
         == (3600000 * h + 60000 * m + k) as real
  {
  }

  lemma WholeIf(t: real, n: int)
    requires t >= 0.0 && 1000.0 * t == n as real
    ensures WholeMillis(t)
  {
  }

  lemma WholePrintsExactly(t: real)
    requires WholeMillis(t)
    ensures Printed(t) == t
  {
    hide Hours, Minutes, Seconds, Nearest;
    FieldRanges(t);
    var n, h, m := (1000.0 * t).Floor, Hours(t), Minutes(t);
    NearestWhole(1000.0 * Seconds(t), n - 3600000 * h - 60000 * m);
  }

  lemma NearestWhole(x: real, n: int)
    requires x == n as real
    ensures Nearest(x) == n
  {
  }

  /** Printing moves a time by at most half a millisecond, and not at all exactly for whole milliseconds. */
  lemma PrintedClose(t: real)
    ensures t >= 0.0 ==> -0.0005 <= Printed(t) - t <= 0.0005
    ensures Printed(t) == t <==> WholeMillis(t)
  {
    hide Printed;
    PrintedIsWhole(t);
    if WholeMillis(t) {
      WholePrintsExactly(t);
    }
  }

  // ---- reading a printed timestamp --------------------------------------------------------

  lemma ParseWhole(a: string)
    requires AllDigits(a) && a != ""
    ensures ParseDecimal(a) == Some(Value(a) as real)
  {
    assert IsDigit(a[0]) && '.' !in a;
    NoCharNoSplit(a, '.');
  }

  lemma ParseFraction(a: string, b: string)
    requires AllDigits(a) && a != "" && AllDigits(b)
    ensures ParseDecimal(a + "." + b) == Some(Value(a) as real + Fraction(b))
  {
    hide Value, Fraction, ParseUnsigned;
    UnsignedFraction(a, b);
    assert (a + "." + b)[0] == a[0] && IsDigit(a[0]);
  }

  lemma UnsignedFraction(a: string, b: string)
    requires AllDigits(a) && a != "" && AllDigits(b)
    ensures ParseUnsigned(a + "." + b) == Some(Value(a) as real + Fraction(b))
  {
    hide Value, Fraction, SplitOnce, AllDigits;
    DigitsHaveNoDot(a);
    SplitOnceChar(a, '.', b);
    assert SplitOnce(a + "." + b, ".") == Some((a, b));
  }

  lemma DigitsHaveNoDot(a: string)
    requires AllDigits(a)
    ensures '.' !in a
  {
  }

  lemma TrimSpaces(s: string)
    requires s != "" && Trimmed(s)
    ensures Trim(s + " ") == s && Trim(" " + s) == s
  {
    assert TrimStart(s + " ") == s + " ";
    assert (s + " ")[..|s|] == s;
    assert (" " + s)[1..] == s;
    assert IsSpace(' ');
  }

  /** A printed timestamp's characters. */
  predicate TimeChars(s: string) {
    forall c | c in s :: IsDigit(c) || c == ':' || c == '.'
  }

  predicate FieldTexts(h: string, m: string, sec: string, ms: string) {
    AllDigits(h) && AllDigits(m) && AllDigits(sec) && AllDigits(ms) && h != "" && m != "" && sec != "" && |ms| == 3
  }

  lemma StampChars(h: string, m: string, sec: string, ms: string)
    requires FieldTexts(h, m, sec, ms)
    ensures var s := Stamp(h, m, sec, ms);
            s != "" && TimeChars(s) && Trimmed(s) && '-' !in s && ',' !in s && '\n' !in s
  {
    var s := Stamp(h, m, sec, ms);
    assert s[0] == h[0] && IsDigit(h[0]);
    assert s[|s| - 1] == ms[2] && IsDigit(ms[2]);
  }

  lemma StampFields(h: string, m: string, sec: string, ms: string)
    requires FieldTexts(h, m, sec, ms)
    ensures Split(Stamp(h, m, sec, ms), ':') == [h, m, sec + "." + ms]
  {
    var last := sec + "." + ms;
    var parts := [h, m, last];
    assert parts[1..] == [m, last] && parts[1..][1..] == [last];
    assert Join([m, last], ':') == m + ":" + last;
    assert Join(parts, ':') == Stamp(h, m, sec, ms);
    assert ':' !in h && ':' !in m && ':' !in last;
    SplitJoin(parts, ':');
  }

  lemma FoldThree(h: string, m: string, sec: string, ms: string)
    requires FieldTexts(h, m, sec, ms)
    ensures FoldFields([h, m, sec + "." + ms], 0.0)
         == Some(3600.0 * Value(h) as real + 60.0 * Value(m) as real + Value(sec) as real + Value(ms) as real / 1000.0)
  {
    hide ParseDecimal, Value;
    var last := sec + "." + ms;
    var parts := [h, m, last];
    assert parts[1..] == [m, last] && [m, last][1..] == [last] && [last][1..] == [];
    ParseWhole(h);
    ParseWhole(m);
    ParseFraction(sec, ms);
    assert Pow10(3) == 1000.0 by { assert Pow10(1) == 10.0 && Pow10(2) == 100.0; }
    assert FoldFields([last], (0.0 * 60.0 + Value(h) as real) * 60.0 + Value(m) as real)
        == Some(((0.0 * 60.0 + Value(h) as real) * 60.0 + Value(m) as real) * 60.0
                + (Value(sec) as real + Value(ms) as real / 1000.0));
  }

  lemma ParseClean(s: string)
    requires s != "" && TimeChars(s) && |Split(s, ':')| == 3
    ensures ParseTs(s + " ") == ParseTs(" " + s) == FoldFields(Split(s, ':'), 0.0)
  {
    hide FoldFields, Split;
    assert forall c | c in s :: !IsSpace(c) && c != ',';
    TrimSpaces(s);
  }

  /** Reading a printed timestamp gives the time it denotes, with a blank on either side. */
  lemma ParseFmt(t: real)
    ensures ParseTs(FmtTs(t) + " ") == ParseTs(" " + FmtTs(t)) == Some(Printed(t))
  {
    hide Hours, Minutes, Millis, FoldFields, ParseTs, Stamp, Split, Pad, Value, IsDigit, TimeChars, Trimmed, AllDigits;
    var u := if t < 0.0 then 0.0 else t;
    FieldRanges(u);
    var ms := Millis(u);
    var h, m, sec, rest := Pad(Hours(u), 2), Pad(Minutes(u), 2), Pad(ms / 1000, 2), Pad(ms % 1000, 3);
    PadThree(ms % 1000);
    StampChars(h, m, sec, rest);
    StampFields(h, m, sec, rest);
    FoldThree(h, m, sec, rest);
    ParseClean(FmtTs(t));
    assert (ms / 1000) as real + (ms % 1000) as real / 1000.0 == ms as real / 1000.0;
  }

  lemma PadThree(n: nat)
    requires n < 1000
    ensures |Pad(n, 3)| == 3
  {
    assert |ShowNat(n / 10 / 10)| == 1;
    assert |ShowNat(n / 10)| <= 2;
  }

  // ---- documents ----------------------------------------------------------------------------

  function Blank(s: string): bool { Trim(s) == "" }

  /** The leading non-blank lines, trimmed. */
  function TextLines(ls: seq<string>): (r: seq<string>)
    ensures |r| <= |ls|
  {
    if ls == [] || Blank(ls[0]) then [] else [Trim(ls[0])] + TextLines(ls[1..])
  }

  /** A timing line's two times, if it is one. */
  function Timing(line: string): Option<(real, real)> {
    match SplitOnce(line, "-->")
    case None => None
    case Some((a, b)) =>
      if ParseTs(a).Some? && ParseTs(b).Some? then Some((ParseTs(a).value, ParseTs(b).value)) else None
  }

  function ParseLines(ls: seq<string>): seq<Cue>
    decreases |ls|
  {
    if ls == [] then []
    else
      match Timing(ls[0])
      case None => ParseLines(ls[1..])
      case Some((start, end)) =>
        var text := TextLines(ls[1..]);
        var rest := ParseLines(ls[1 + |text|..]);
        if Join(text, '\n') == "" then rest else [Cue(start, end, Join(text, '\n'))] + rest
  }

  lemma CueAhead(ls: seq<string>, text: seq<string>, rest: seq<string>)
    requires ls != [] && Timing(ls[0]).Some? && text == TextLines(ls[1..]) && rest == ls[1 + |text|..]
    ensures ParseLines(ls) ==
            (if Join(text, '\n') == "" then []
             else [Cue(Timing(ls[0]).value.0, Timing(ls[0]).value.1, Join(text, '\n'))]) + ParseLines(rest)
  {
    hide Timing, TextLines, Join;
  }

  lemma NoLinesLeft(ls: seq<string>)
    ensures ParseLines(ls[|ls|..]) == []
  {
  }

  lemma NoCueAhead(ls: seq<string>)
    requires ls != [] && Timing(ls[0]).None?
    ensures ParseLines(ls) == ParseLines(ls[1..])
  {
  }

  lemma TextAhead(ls: seq<string>)
    ensures TextLines(ls) == if ls == [] || Blank(ls[0]) then [] else [Trim(ls[0])] + TextLines(ls[1..])
  {
  }

  /** `parse_vtt`: scan the lines, gathering each timing line's text. */
  method ParseVtt(body: string) returns (out: seq<Cue>)
    ensures out == ParseLines(Lines(body))
  {
    hide Timing, Lines, ParseLines, TextLines, Blank, Trim, Join;
    out := [];
    var lines := Lines(body);
    var i := 0;
    while i < |lines|
      invariant i <= |lines|
      invariant ParseLines(lines) == out + ParseLines(lines[i..])
    {
      var timing := Timing(lines[i]);
      ghost var from := i;
      assert lines[from..][1..] == lines[from + 1..];
      i := i + 1;
      if timing == None {
        NoCueAhead(lines[from..]);
        continue;
      }
      var text := [];
      while i < |lines| && !Blank(lines[i])
        invariant from < i <= |lines|
        invariant TextLines(lines[from + 1..]) == text + TextLines(lines[i..])
        invariant |text| == i - from - 1
      {
        assert lines[i..][1..] == lines[i + 1..];
        TextAhead(lines[i..]);
        text := text + [Trim(lines[i])];
        i := i + 1;
      }
      TextAhead(lines[i..]);
      assert TextLines(lines[from + 1..]) == text;
      assert lines[from..][1 + |text|..] == lines[i..];
      CueAhead(lines[from..], text, lines[i..]);
      var joined := Join(text, '\n');
      if joined != "" {
        out := out + [Cue(timing.value.0, timing.value.1, joined)];
      }
    }
    NoLinesLeft(lines);
  }

  function RenderCue(c: Cue): string {
    TimingLine(c) + "\n" + c.text + "\n\n"
  }

  function TimingLine(c: Cue): string {
    FmtTs(c.start) + " --> " + FmtTs(c.end)
  }

  function RenderCues(cs: seq<Cue>): string {
    if cs == [] then "" else RenderCue(cs[0]) + RenderCues(cs[1..])
  }

  method RenderVtt(cs: seq<Cue>) returns (s: string)
    ensures s == "WEBVTT\n\n" + RenderCues(cs)
  {
    hide RenderCue;
    s := "WEBVTT\n\n";
    for i := 0 to |cs|
      invariant s + RenderCues(cs[i..]) == "WEBVTT\n\n" + RenderCues(cs)
    {
      assert cs[i..][1..] == cs[i + 1..];
      s := s + RenderCue(cs[i]);
    }
  }

  // ---- the round trip ----------------------------------------------------------------------

  /** A text that survives as cue text: trimmed, non-blank lines. */
  predicate TextOk(text: string) {
    forall l | l in Split(text, '\n') :: CleanLine(l)
  }

  predicate CleanLine(l: string) {
    l != "" && Trimmed(l) && '\n' !in l
  }

  function Rounded(c: Cue): Cue {
    Cue(Printed(c.start), Printed(c.end), c.text)
  }

  function AllRounded(cs: seq<Cue>): (r: seq<Cue>)
    ensures |r| == |cs| && forall i | 0 <= i < |cs| :: r[i] == Rounded(cs[i])
  {
    if cs == [] then [] else [Rounded(cs[0])] + AllRounded(cs[1..])
  }

  lemma NoDashNoArrow(a: string, b: string)
    requires '-' !in a
    ensures SplitOnce(a + "-->" + b, "-->") == Some((a, b))
  {
    var s := a + "-->" + b;
    forall j: nat | j < |a| ensures !OccursAt(s, "-->", j) {
      assert s[j] == a[j];
      assert j + 3 <= |s| ==> s[j..j + 3][0] == s[j];
    }
    SplitOnceAt(a, "-->", b);
  }

  lemma NoArrow(a: string)
    requires '-' !in a
    ensures Timing(a) == None
  {
  }

  lemma TimingRead(c: Cue)
    ensures Timing(TimingLine(c)) == Some((Printed(c.start), Printed(c.end)))
    ensures Trimmed(TimingLine(c)) && '\n' !in TimingLine(c)
  {
    hide FmtTs, ParseTs, Printed;
    var a, b := FmtTs(c.start), FmtTs(c.end);
    FmtChars(c.start);
    FmtChars(c.end);
    assert TimingLine(c) == (a + " ") + "-->" + (" " + b);
    NoDashNoArrow(a + " ", " " + b);
    ParseFmt(c.start);
    ParseFmt(c.end);
    assert TimingLine(c)[0] == a[0] && TimingLine(c)[|TimingLine(c)| - 1] == b[|b| - 1];
  }

  lemma FmtChars(t: real)
    ensures FmtTs(t) != "" && Trimmed(FmtTs(t)) && '-' !in FmtTs(t) && '\n' !in FmtTs(t)
  {
    hide Hours, Minutes, Millis, Stamp;
    var u := if t < 0.0 then 0.0 else t;
    FieldRanges(u);
    PadThree(Millis(u) % 1000);
    StampChars(Pad(Hours(u), 2), Pad(Minutes(u), 2), Pad(Millis(u) / 1000, 2), Pad(Millis(u) % 1000, 3));
  }

  lemma {:induction false} LinesOfText(ls: seq<string>, rest: string)
    requires ls != [] && forall l | l in ls :: CleanLine(l)
    ensures Lines(Join(ls, '\n') + "\n" + rest) == ls + Lines(rest)
    decreases |ls|
  {
    hide Lines, Trimmed, Join;
    assert CleanLine(ls[0]) && ls == [ls[0]] + ls[1..];
    JoinUnfold(ls, rest);
    if |ls| == 1 {
      FirstTrimmedLine(ls[0], rest);
    } else {
      FirstTrimmedLine(ls[0], Join(ls[1..], '\n') + "\n" + rest);
      LinesOfText(ls[1..], rest);
    }
  }

  lemma JoinUnfold(ls: seq<string>, rest: string)
    requires ls != []
    ensures Join(ls, '\n') + "\n" + rest
         == if |ls| == 1 then ls[0] + "\n" + rest else ls[0] + "\n" + (Join(ls[1..], '\n') + "\n" + rest)
  {
  }

  lemma {:induction false} TextLinesOf(ls: seq<string>, tail: seq<string>)
    requires forall l | l in ls :: CleanLine(l)
    ensures TextLines(ls + [""] + tail) == ls
    decreases |ls|
  {
    var all := ls + [""] + tail;
    if ls == [] {
      assert all[0] == "";
    } else {
      assert CleanLine(ls[0]) && ls == [ls[0]] + ls[1..];
      assert all[0] == ls[0] && all[1..] == ls[1..] + [""] + tail;
      TextLinesOf(ls[1..], tail);
    }
  }

  lemma LinesOfCue(c: Cue, rest: string)
    requires TextOk(c.text)
    ensures Lines(RenderCue(c) + rest) == [TimingLine(c)] + Split(c.text, '\n') + [""] + Lines(rest)
  {
    hide TimingLine, Split, CleanLine, Lines, Join, Trimmed, RenderCue;
    var below := c.text + "\n" + ("\n" + rest);
    Regroup(c, rest);
    TimingRead(c);
    FirstTrimmedLine(TimingLine(c), below);
    LinesOfBlock(c.text, rest);
    assert [TimingLine(c)] + (Split(c.text, '\n') + [""] + Lines(rest))
        == [TimingLine(c)] + Split(c.text, '\n') + [""] + Lines(rest);
  }

  lemma LinesOfBlock(text: string, rest: string)
    requires TextOk(text)
    ensures Lines(text + "\n" + ("\n" + rest)) == Split(text, '\n') + [""] + Lines(rest)
  {
    hide Split, CleanLine, Lines, Join;
    JoinSplit(text, '\n');
    LinesOfText(Split(text, '\n'), "\n" + rest);
    assert "" + "\n" + rest == "\n" + rest;
    FirstTrimmedLine("", rest);
  }

  lemma Regroup(c: Cue, rest: string)
    ensures RenderCue(c) + rest == TimingLine(c) + "\n" + (c.text + "\n" + ("\n" + rest))
  {
    hide TimingLine;
  }

  lemma ParseCue(c: Cue, tail: seq<string>)
    requires TextOk(c.text)
    ensures ParseLines([TimingLine(c)] + Split(c.text, '\n') + [""] + tail) == [Rounded(c)] + ParseLines(tail)
  {
    hide FmtTs, Split, CleanLine, Timing, TimingLine;
    var ls := Split(c.text, '\n');
    var all := [TimingLine(c)] + ls + [""] + tail;
    TimingRead(c);
    TextLinesOf(ls, tail);
    JoinSplit(c.text, '\n');
    assert all[0] == TimingLine(c) && all[1..] == ls + [""] + tail;
    assert all[1 + |ls|..] == [""] + tail;
    NoArrow("");
    assert ([""] + tail)[1..] == tail;
    NonEmptyText(c.text);
  }

  lemma NonEmptyText(text: string)
    requires TextOk(text)
    ensures text != ""
  {
    NoCharNoSplit("", '\n');
    assert Split("", '\n') == [""];
    assert "" in Split("", '\n');
  }

  /** Reading a rendered document gives its cues with the printed times, if every text is clean. */
  lemma {:induction false} RenderedCues(cs: seq<Cue>)
    requires forall c | c in cs :: TextOk(c.text)
    ensures ParseLines(Lines(RenderCues(cs))) == AllRounded(cs)
    decreases |cs|
  {
    hide RenderCue, TimingLine, Rounded, TextOk;
    if cs != [] {
      LinesOfCue(cs[0], RenderCues(cs[1..]));
      ParseCue(cs[0], Lines(RenderCues(cs[1..])));
      RenderedCues(cs[1..]);
    }
  }

  lemma HeaderSkipped(rest: string)
    ensures ParseLines(Lines("WEBVTT\n\n" + rest)) == ParseLines(Lines(rest))
  {
    hide Lines, Timing;
    var ls := ["WEBVTT", ""] + Lines(rest);
    assert "WEBVTT\n\n" + rest == "WEBVTT" + "\n" + ("" + "\n" + rest);
    FirstTrimmedLine("WEBVTT", "" + "\n" + rest);
    FirstTrimmedLine("", rest);
    assert Lines("WEBVTT\n\n" + rest) == ls;
    NoArrow("WEBVTT");
    NoArrow("");
    assert ls[1..] == [""] + Lines(rest) && ls[1..][1..] == Lines(rest);
  }

  lemma {:induction false} TextLinesAreClean(ls: seq<string>)
    requires forall l | l in ls :: '\n' !in l
    ensures forall l | l in TextLines(ls) :: CleanLine(l)
    decreases |ls|
  {
    if ls != [] && !Blank(ls[0]) {
      TextLinesAreClean(ls[1..]);
    }
  }

  /** Whatever the reader returns has clean text. */
  lemma {:induction false} ParsedTextIsOk(ls: seq<string>)
    requires forall l | l in ls :: '\n' !in l
    ensures forall c | c in ParseLines(ls) :: TextOk(c.text)
    decreases |ls|
  {
    hide Timing, CleanLine, Split;
    if ls != [] {
      match Timing(ls[0])
      case None => ParsedTextIsOk(ls[1..]);
      case Some(_) =>
        var text := TextLines(ls[1..]);
        TextLinesAreClean(ls[1..]);
        ParsedTextIsOk(ls[1 + |text|..]);
        if text != [] {
          JoinedIsOk(text);
        }
    }
  }

  lemma JoinedIsOk(text: seq<string>)
    requires text != [] && forall l | l in text :: CleanLine(l)
    ensures TextOk(Join(text, '\n'))
  {
    SplitJoin(text, '\n');
  }

  /** The document written for `cs`. */
  function Rendered(cs: seq<Cue>): string {
    "WEBVTT\n\n" + RenderCues(cs)
  }

  /** Writing and reading back gives the same cues exactly for clean texts and whole-millisecond times. */
  lemma VttRoundTrip(cs: seq<Cue>)
    ensures ParseLines(Lines(Rendered(cs))) == cs
       <==> forall c | c in cs :: TextOk(c.text) && WholeMillis(c.start) && WholeMillis(c.end)
  {
    hide TextOk, WholeMillis, Printed, RenderCue;
    HeaderSkipped(RenderCues(cs));
    ParsedTextIsOk(Lines(Rendered(cs)));
    if forall c | c in cs :: TextOk(c.text) {
      RenderedCues(cs);
      forall i | 0 <= i < |cs|
        ensures Rounded(cs[i]) == cs[i] <==> WholeMillis(cs[i].start) && WholeMillis(cs[i].end)
      {
        PrintedClose(cs[i].start);
        PrintedClose(cs[i].end);
      }
    }
  }
}
