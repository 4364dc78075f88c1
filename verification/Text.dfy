/** The string operations the server's name handling is built from. */
module Text {
  import opened Wrappers

  /** `p` stands in `s` at position `i`. */
  predicate OccursAt(s: string, p: string, i: nat) {
    i + |p| <= |s| && s[i..i + |p|] == p
  }

  /** `str::contains`. */
  predicate Contains(s: string, p: string) {
    exists i: nat | i <= |s| :: OccursAt(s, p, i)
  }

  /** The first position at or after `from` where `p` stands. */
  function Find(s: string, p: string, from: nat := 0): (r: Option<nat>)
    requires from <= |s|
    ensures r.Some? ==> from <= r.value && OccursAt(s, p, r.value)
                        && forall j: nat | from <= j < r.value :: !OccursAt(s, p, j)
    ensures r.None? ==> forall j: nat | from <= j <= |s| :: !OccursAt(s, p, j)
    decreases |s| - from
  {
    if OccursAt(s, p, from) then Some(from)
    else if from == |s| then None
    else Find(s, p, from + 1)
  }

  /** The last position at or before `upto` where `p` stands. */
  function FindLast(s: string, p: string, upto: nat): (r: Option<nat>)
    requires upto <= |s|
    ensures r.Some? ==> r.value <= upto && OccursAt(s, p, r.value)
                        && forall j: nat | r.value < j <= upto :: !OccursAt(s, p, j)
    ensures r.None? ==> forall j: nat | j <= upto :: !OccursAt(s, p, j)
  {
    if OccursAt(s, p, upto) then Some(upto)
    else if upto == 0 then None
    else FindLast(s, p, upto - 1)
  }

  /** `str::split_once`. */
  function SplitOnce(s: string, p: string): (r: Option<(string, string)>)
    ensures r.Some? ==> s == r.value.0 + p + r.value.1
    ensures r.Some? ==> forall j: nat | j < |r.value.0| :: !OccursAt(s, p, j)
    ensures r.None? <==> !Contains(s, p)
  {
    match Find(s, p)
    case None => None
    case Some(i) => Some((s[..i], s[i + |p|..]))
  }

  /** `str::rsplit_once`. */
  function RSplitOnce(s: string, p: string): (r: Option<(string, string)>)
    ensures r.Some? ==> s == r.value.0 + p + r.value.1
    ensures r.Some? ==> forall j: nat | |r.value.0| < j :: !OccursAt(s, p, j)
    ensures r.None? <==> !Contains(s, p)
  {
    match FindLast(s, p, |s|)
    case None => None
    case Some(i) => Some((s[..i], s[i + |p|..]))
  }

  /** Splitting at a separator whose first occurrence is known. */
  lemma SplitOnceAt(a: string, p: string, b: string)
    requires forall j: nat | j < |a| :: !OccursAt(a + p + b, p, j)
    ensures SplitOnce(a + p + b, p) == Some((a, b))
  {
    var s := a + p + b;
    assert OccursAt(s, p, |a|);
    var i := Find(s, p).value;
    assert i == |a|;
    assert s[..i] == a && s[i + |p|..] == b;
  }

  /** Splitting at a separator whose last occurrence is known. */
  lemma RSplitOnceAt(a: string, p: string, b: string)
    requires forall j: nat | |a| < j :: !OccursAt(a + p + b, p, j)
    ensures RSplitOnce(a + p + b, p) == Some((a, b))
  {
    var s := a + p + b;
    assert OccursAt(s, p, |a|);
    var i := FindLast(s, p, |s|).value;
    assert i == |a|;
    assert s[..i] == a && s[i + |p|..] == b;
  }

  /** A one-character separator splits where the left part does not hold it. */
  lemma SplitOnceChar(a: string, c: char, b: string)
    requires c !in a
    ensures SplitOnce(a + [c] + b, [c]) == Some((a, b))
  {
    var s := a + [c] + b;
    forall j: nat | j < |a| ensures !OccursAt(s, [c], j) {
      assert s[j..j + |[c]|][0] == a[j];
    }
    SplitOnceAt(a, [c], b);
  }

  lemma NoCharNoSplit(s: string, c: char)
    requires c !in s
    ensures SplitOnce(s, [c]) == None
  {
  }

  /** No dash follows the last `--`: `b` neither starts with a dash nor holds `--`. */
  predicate DashTail(b: string) {
    !Contains(b, "--") && (b == "" || b[0] != '-')
  }

  lemma DashOccurs(s: string, i: nat)
    ensures OccursAt(s, "--", i) <==> i + 2 <= |s| && s[i] == '-' && s[i + 1] == '-'
  {
  }

  /** `rsplit_once("--")` gives back the two sides exactly when the right one is a dash tail. */
  lemma RSplitDashes(a: string, b: string)
    ensures RSplitOnce(a + "--" + b, "--") == Some((a, b)) <==> DashTail(b)
  {
    var s := a + "--" + b;
    if DashTail(b) {
      forall j: nat | |a| < j ensures !OccursAt(s, "--", j) {
        DashOccurs(s, j);
        if j == |a| + 1 {
          assert b != "" ==> s[j + 1] == b[0];
        } else {
          DashOccurs(b, j - |a| - 2);
        }
      }
      RSplitOnceAt(a, "--", b);
    } else if b != "" && b[0] == '-' {
      DashOccurs(s, |a| + 1);
      assert s[|a| + 1] == '-' && s[|a| + 2] == b[0];
    } else {
      var i: nat :| OccursAt(b, "--", i);
      DashOccurs(b, i);
      DashOccurs(s, |a| + 2 + i);
      assert s[|a| + 2 + i] == b[i] && s[|a| + 3 + i] == b[i + 1];
    }
  }

  lemma OccursChar(s: string, c: char)
    ensures c in s <==> exists i: nat | i < |s| :: OccursAt(s, [c], i)
  {
    if c in s {
      var i: nat :| i < |s| && s[i] == c;
      assert s[i..i + |[c]|] == [c];
      assert OccursAt(s, [c], i);
    } else {
      NoCharNoSplit(s, c);
    }
  }

  lemma OccursInPrefix(a: string, b: string, c: char)
    ensures forall i: nat | i < |a| :: OccursAt(a, [c], i) ==> OccursAt(a + b, [c], i)
  {
  }

  /** `split(c)`: the pieces between the separators, at least one. */
  function Split(s: string, c: char): (r: seq<string>)
    ensures |r| >= 1
    ensures forall p | p in r :: c !in p
  {
    match SplitOnce(s, [c])
    case None =>
      OccursChar(s, c);
      [s]
    case Some((a, b)) =>
      OccursChar(a, c);
      OccursInPrefix(a, [c] + b, c);
      assert s == a + ([c] + b);
      [a] + Split(b, c)
  }

  /** `join`: the pieces with the separator between them. */
  function Join(parts: seq<string>, c: char): string {
    if |parts| == 0 then ""
    else if |parts| == 1 then parts[0]
    else parts[0] + [c] + Join(parts[1..], c)
  }

  /** Splitting undoes joining for separator-free pieces, as long as there is one. */
  lemma {:induction false} SplitJoin(parts: seq<string>, c: char)
    requires |parts| >= 1
    requires forall p | p in parts :: c !in p
    ensures Split(Join(parts, c), c) == parts
  {
    if |parts| == 1 {
      NoCharNoSplit(parts[0], c);
    } else {
      SplitOnceChar(parts[0], c, Join(parts[1..], c));
      SplitJoin(parts[1..], c);
    }
  }

  /** Joining undoes splitting, always. */
  lemma {:induction false} JoinSplit(s: string, c: char)
    ensures Join(Split(s, c), c) == s
    decreases |s|
  {
    match SplitOnce(s, [c])
    case None =>
    case Some((a, b)) =>
      JoinSplit(b, c);
      assert Split(s, c)[1..] == Split(b, c);
  }

  /** One piece more than there are separators. */
  lemma {:induction false} SplitCounts(s: string, c: char)
    ensures |Split(s, c)| == 1 + multiset(s)[c]
    decreases |s|
  {
    hide OccursAt, Contains, SplitOnce;
    match SplitOnce(s, [c])
    case None =>
      NoPieces(s, c);
    case Some((a, b)) =>
      FirstPiece(s, c, a, b);
      SplitCounts(b, c);
      CountAcross(a, c, b);
  }

  lemma NoPieces(s: string, c: char)
    requires SplitOnce(s, [c]) == None
    ensures c !in s
  {
    hide SplitOnce;
    OccursChar(s, c);
  }

  lemma FirstPiece(s: string, c: char, a: string, b: string)
    requires SplitOnce(s, [c]) == Some((a, b))
    ensures c !in a && s == a + [c] + b
  {
    hide SplitOnce;
    OccursChar(a, c);
    OccursInPrefix(a, [c] + b, c);
    assert s == a + ([c] + b);
  }

  lemma CountAcross(a: string, c: char, b: string)
    ensures multiset(a + [c] + b)[c] == multiset(a)[c] + 1 + multiset(b)[c]
  {
    assert multiset(a + [c] + b) == multiset(a) + multiset([c]) + multiset(b);
  }

  /** Joined pieces split into as many pieces exactly when none of them holds the separator. */
  lemma JoinedPieces(parts: seq<string>, c: char)
    requires |parts| >= 1
    ensures |Split(Join(parts, c), c)| == |parts| <==> forall p | p in parts :: c !in p
  {
    hide Split, Join;
    SplitCounts(Join(parts, c), c);
    JoinCounts(parts, c);
  }

  lemma {:induction false} JoinCounts(parts: seq<string>, c: char)
    requires |parts| >= 1
    ensures multiset(Join(parts, c))[c] >= |parts| - 1
    ensures multiset(Join(parts, c))[c] == |parts| - 1 <==> forall p | p in parts :: c !in p
  {
    assert c in parts[0] <==> c in multiset(parts[0]);
    if |parts| > 1 {
      CountAcross(parts[0], c, Join(parts[1..], c));
      JoinCounts(parts[1..], c);
      assert parts == [parts[0]] + parts[1..];
    }
  }

  /** `str::lines`: pieces ended by a newline, a carriage return before it dropped. */
  function Lines(s: string): (r: seq<string>)
    ensures forall l | l in r :: '\n' !in l
    ensures s == "" ==> r == []
    decreases |s|
  {
    if s == "" then []
    else
      match SplitOnce(s, "\n")
      case None =>
        OccursChar(s, '\n');
        [s]
      case Some((a, b)) =>
        OccursChar(a, '\n');
        OccursInPrefix(a, "\n" + b, '\n');
        assert s == a + ("\n" + b);
        [DropReturn(a)] + Lines(b)
  }

  function DropReturn(a: string): (r: string)
    ensures forall c | c in r :: c in a
  {
    if a != "" && a[|a| - 1] == '\r' then a[..|a| - 1] else a
  }

  lemma FirstLine(a: string, rest: string)
    requires '\n' !in a
    ensures Lines(a + "\n" + rest) == [DropReturn(a)] + Lines(rest)
  {
    SplitOnceChar(a, '\n', rest);
  }
}
