/** The classifiers of segment file names. Each tests the type tokens in an order of its own. */
module FileTypes {
  import opened Wrappers
  import opened Text

  datatype FileType = Qcamera | Fcamera | Dcamera | Ecamera | Qlog | Rlog

  function Token(t: FileType): string {
    match t
    case Qcamera => "qcamera"
    case Fcamera => "fcamera"
    case Dcamera => "dcamera"
    case Ecamera => "ecamera"
    case Qlog => "qlog"
    case Rlog => "rlog"
  }

  predicate Has(file: string, t: FileType) {
    Contains(file, Token(t))
  }

  /** The first type, in the given order, whose token the name holds. */
  function FirstOf(file: string, order: seq<FileType>): (r: Option<FileType>)
    ensures r.Some? ==> r.value in order && Has(file, r.value)
    ensures r.None? ==> forall t | t in order :: !Has(file, t)
  {
    if order == [] then None
    else if Has(file, order[0]) then Some(order[0])
    else FirstOf(file, order[1..])
  }

  const CAMERAS: seq<FileType> := [Qcamera, Fcamera, Dcamera, Ecamera]
  const OPTIONAL_TYPES: seq<FileType> := CAMERAS + [Rlog]

  /** The URL column a stored file is registered in. */
  function FileKind(file: string): Option<FileType> {
    FirstOf(file, CAMERAS + [Qlog, Rlog])
  }

  /** The URL column that decides whether a remote file still needs work. */
  function RegisteredColumn(file: string): Option<FileType> {
    FirstOf(file, [Qlog] + CAMERAS + [Rlog])
  }

  /** Is this remote file registered? `row` is the set of URL columns that are filled. */
  predicate Registered(row: Option<set<FileType>>, file: string) {
    row.Some? && (RegisteredColumn(file).Some? ==> RegisteredColumn(file).value in row.value)
  }

  /** The optional type of a file (none for qlog and unknown files). */
  function OptionalType(file: string): Option<FileType> {
    FirstOf(file, OPTIONAL_TYPES)
  }

  /** Should this file be pulled? The qlog always; anything else if its type is selected. */
  predicate Wanted(file: string, types: seq<string>) {
    Has(file, Qlog) || (OptionalType(file).Some? && Token(OptionalType(file).value) in types)
  }

  predicate IsCamera(t: FileType) { t in CAMERAS }

  /** The stored file name of each camera. */
  function CamFile(t: FileType): string
    requires IsCamera(t)
  {
    if t == Qcamera then "qcamera.ts" else Token(t) + ".hevc"
  }

  /** The name does not mix the qlog token with a camera token. */
  predicate WellTyped(file: string) {
    !(Has(file, Qlog) && exists t | t in CAMERAS :: Has(file, t))
  }

  /** The column written and the column read are the same exactly on well-typed names. */
  lemma ColumnsAgree(file: string)
    ensures FileKind(file) == RegisteredColumn(file) <==> WellTyped(file)
  {
    var kind, column := FileKind(file), RegisteredColumn(file);
    FirstOfAppend(file, CAMERAS, [Qlog, Rlog]);
    FirstOfAppend(file, [Qlog], CAMERAS + [Rlog]);
    FirstOfAppend(file, CAMERAS, [Rlog]);
    assert [Qlog] + CAMERAS + [Rlog] == [Qlog] + (CAMERAS + [Rlog]);
    assert [Qlog, Rlog][1..] == [Rlog];
    assert FirstOf(file, [Qlog]) == if Has(file, Qlog) then Some(Qlog) else None;
    assert FirstOf(file, [Qlog, Rlog]) == if Has(file, Qlog) then Some(Qlog) else FirstOf(file, [Rlog]);
  }

  /** Every wanted file has a column, and a wanted non-qlog is registered under its optional type. */
  lemma WantedHasColumn(file: string, types: seq<string>)
    requires Wanted(file, types)
    ensures RegisteredColumn(file).Some? && FileKind(file).Some?
    ensures !Has(file, Qlog) ==> RegisteredColumn(file) == OptionalType(file)
  {
    FirstOfAppend(file, [Qlog], CAMERAS + [Rlog]);
    assert [Qlog] + CAMERAS + [Rlog] == [Qlog] + (CAMERAS + [Rlog]);
    assert FirstOf(file, [Qlog]) == if Has(file, Qlog) then Some(Qlog) else None;
    assert Qlog in CAMERAS + [Qlog, Rlog] && forall t | t in OPTIONAL_TYPES :: t in CAMERAS + [Qlog, Rlog];
  }

  lemma QlogHasKind(file: string)
    requires Has(file, Qlog)
    ensures FileKind(file).Some?
  {
  }

  /** A camera's stored file holds its own token and no other. */
  lemma CamFileTokens(t: FileType, other: FileType)
    requires IsCamera(t)
    ensures Has(CamFile(t), other) <==> other == t
  {
    var s, p := CamFile(t), Token(other);
    if other == t {
      assert s[0..|p|] == p;
      assert OccursAt(s, p, 0);
    } else {
      assert p[1] == if IsCamera(other) then 'c' else 'l';
      assert s[0] == Token(t)[0] && (IsCamera(other) ==> s[0] != p[0]);
      forall i: nat ensures !OccursAt(s, p, i) {
        if i + |p| <= |s| {
          assert s[i] == s[i..i + |p|][0] && s[i + 1] == s[i..i + |p|][1];
          assert s[i + 1] != 'l' && (i > 0 ==> s[i + 1] != 'c');
        }
      }
    }
  }

  /** A camera's stored file is of that camera's kind. */
  lemma CamFileKind(t: FileType)
    requires IsCamera(t)
    ensures FileKind(CamFile(t)) == Some(t) && !Has(CamFile(t), Qlog)
  {
    forall other: FileType ensures Has(CamFile(t), other) <==> other == t {
      CamFileTokens(t, other);
    }
    assert t in CAMERAS + [Qlog, Rlog];
  }

  /** A log file is of its log's kind. */
  lemma LogKind(t: FileType, file: string)
    requires (t == Qlog || t == Rlog) && (file == Token(t) + ".zst" || file == Token(t) + ".bz2")
    ensures FileKind(file) == Some(t)
  {
    forall other: FileType ensures Has(file, other) <==> other == t {
      LogTokens(t, file, other);
    }
    assert t in CAMERAS + [Qlog, Rlog];
  }

  lemma LogTokens(t: FileType, file: string, other: FileType)
    requires (t == Qlog || t == Rlog) && (file == Token(t) + ".zst" || file == Token(t) + ".bz2")
    ensures Has(file, other) <==> other == t
  {
    var p := Token(other);
    if other == t {
      assert file[0..|p|] == p;
      assert OccursAt(file, p, 0);
    } else {
      assert IsCamera(other) ==> p[1] == 'c';
      forall i: nat ensures !OccursAt(file, p, i) {
        if i + |p| <= |file| {
          assert file[i..i + |p|][0] == file[i] && file[i..i + |p|][1] == file[i + 1];
        }
      }
    }
  }

  lemma {:induction false} FirstOfAppend(file: string, a: seq<FileType>, b: seq<FileType>)
    ensures FirstOf(file, a + b) == if FirstOf(file, a).Some? then FirstOf(file, a) else FirstOf(file, b)
  {
    if a == [] {
      assert a + b == b;
    } else {
      assert (a + b)[1..] == a[1..] + b;
      FirstOfAppend(file, a[1..], b);
    }
  }
}
