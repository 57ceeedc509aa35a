/**
 * Searching, splitting and joining sequences the way JavaScript's indexOf, split and join do.
 * The parsers of this project are stated with these functions, and proved with the lemmas below.
 */
module Text {
  import opened Basics

  /** The separator occurs in s at index i. */
  predicate At<T(==)>(s: seq<T>, sep: seq<T>, i: nat) {
    i + |sep| <= |s| && s[i..i + |sep|] == sep
  }

  /** Index of the first occurrence of the separator. */
  function Find<T(==)>(s: seq<T>, sep: seq<T>): Option<nat>
    requires |sep| > 0
  {
    if |s| < |sep| then None
    else if s[..|sep|] == sep then Some(0)
    else match Find(s[1..], sep)
      case None => None
      case Some(i) => Some(i + 1)
  }

  function Split<T(==)>(s: seq<T>, sep: seq<T>): (parts: seq<seq<T>>)
    requires |sep| > 0
    ensures |parts| > 0
    decreases |s|
  {
    match Find(s, sep)
    case None => [s]
    case Some(i) =>
      FindSpec(s, sep);
      [s[..i]] + Split(s[i + |sep|..], sep)
  }

  function Join<T>(parts: seq<seq<T>>, sep: seq<T>): seq<T> {
    if |parts| == 0 then []
    else if |parts| == 1 then parts[0]
    else parts[0] + sep + Join(parts[1..], sep)
  }

  /** A part that a separator can follow without an earlier match straddling the two. */
  predicate Clean<T(==)>(part: seq<T>, sep: seq<T>)
    requires |sep| > 0
  {
    Find(part + sep, sep) == Some(|part|)
  }

  predicate Absent<T(==)>(s: seq<T>, sep: seq<T>)
    requires |sep| > 0
  {
    Find(s, sep).None?
  }

  lemma AtTail<T>(s: seq<T>, sep: seq<T>, i: nat)
    requires |s| > 0
    ensures At(s, sep, i + 1) == At(s[1..], sep, i)
  {
    if i + 1 + |sep| <= |s| {
      assert s[i + 1..i + 1 + |sep|] == s[1..][i..i + |sep|];
    }
  }

  /** Find returns an occurrence, and nothing occurs before it; or nothing occurs at all. */
  lemma {:induction false} FindSpec<T>(s: seq<T>, sep: seq<T>)
    requires |sep| > 0
    ensures Find(s, sep).Some? ==> At(s, sep, Find(s, sep).value)
    ensures forall j: nat :: At(s, sep, j) ==> Find(s, sep).Some? && Find(s, sep).value <= j
  {
    if |s| >= |sep| && s[..|sep|] != sep {
      FindSpec(s[1..], sep);
      if Find(s[1..], sep).Some? { AtTail(s, sep, Find(s[1..], sep).value); }
      forall j: nat | At(s, sep, j) ensures Find(s, sep).Some? && Find(s, sep).value <= j {
        assert j != 0;
        AtTail(s, sep, j - 1);
      }
    }
  }

  lemma FindIs<T>(s: seq<T>, sep: seq<T>, i: nat)
    requires |sep| > 0 && At(s, sep, i) && forall j: nat :: j < i ==> !At(s, sep, j)
    ensures Find(s, sep) == Some(i)
  {
    FindSpec(s, sep);
  }

  /** Occurrences inside a prefix do not depend on what follows it. */
  lemma AtPrefix<T>(a: seq<T>, b: seq<T>, sep: seq<T>, i: nat)
    requires i + |sep| <= |a|
    ensures At(a + b, sep, i) == At(a, sep, i)
  {
    assert (a + b)[i..i + |sep|] == a[i..i + |sep|];
  }

  /** A first occurrence stays the first when more text arrives. */
  lemma FindPrefix<T>(a: seq<T>, b: seq<T>, sep: seq<T>)
    requires |sep| > 0 && Find(a, sep).Some?
    ensures Find(a + b, sep) == Find(a, sep)
  {
    FindSpec(a, sep);
    var i := Find(a, sep).value;
    AtPrefix(a, b, sep, i);
    forall j: nat | j < i ensures !At(a + b, sep, j) { AtPrefix(a, b, sep, j); }
    FindIs(a + b, sep, i);
  }

  /** Where the first occurrence ends, the text can be cut without moving it. */
  lemma FindCut<T>(a: seq<T>, b: seq<T>, sep: seq<T>)
    requires |sep| > 0 && Find(a + b, sep).Some? && Find(a + b, sep).value + |sep| <= |a|
    ensures Find(a, sep) == Find(a + b, sep)
  {
    FindSpec(a + b, sep);
    var i := Find(a + b, sep).value;
    AtPrefix(a, b, sep, i);
    forall j: nat | j < i ensures !At(a, sep, j) { AtPrefix(a, b, sep, j); }
    FindIs(a, sep, i);
  }

  lemma FindClean<T>(part: seq<T>, rest: seq<T>, sep: seq<T>)
    requires |sep| > 0 && Clean(part, sep)
    ensures Find(part + sep + rest, sep) == Some(|part|)
  {
    FindPrefix(part + sep, rest, sep);
  }

  /** The first cut that split makes. */
  lemma FirstCut<T>(s: seq<T>, sep: seq<T>, i: nat)
    requires |sep| > 0 && Find(s, sep) == Some(i)
    ensures i + |sep| <= |s| && s == s[..i] + sep + s[i + |sep|..]
    ensures Clean(s[..i], sep)
  {
    FindSpec(s, sep);
    var head, tail := s[..i] + sep, s[i + |sep|..];
    assert s[..i + |sep|] == s[..i] + s[i..i + |sep|] == head;
    assert s == head + tail;
    FindCut(head, tail, sep);
  }

  lemma SplitCons<T>(part: seq<T>, rest: seq<T>, sep: seq<T>)
    requires |sep| > 0 && Clean(part, sep)
    ensures Split(part + sep + rest, sep) == [part] + Split(rest, sep)
  {
    FindClean(part, rest, sep);
    var whole := part + sep + rest;
    assert whole[..|part|] == part && whole[|part| + |sep|..] == rest;
  }

  lemma JoinCons<T>(head: seq<T>, parts: seq<seq<T>>, sep: seq<T>)
    requires |parts| > 0
    ensures Join([head] + parts, sep) == head + sep + Join(parts, sep)
  {
    assert ([head] + parts)[1..] == parts;
  }

  /** Split cuts off clean parts, leaves no separator in the last one, and loses nothing. */
  predicate Parts<T(==)>(parts: seq<seq<T>>, sep: seq<T>)
    requires |sep| > 0
  {
    && |parts| > 0
    && (forall i :: 0 <= i < |parts| - 1 ==> Clean(parts[i], sep))
    && Absent(parts[|parts| - 1], sep)
  }

  lemma {:induction false} SplitParts<T>(s: seq<T>, sep: seq<T>)
    requires |sep| > 0
    ensures Parts(Split(s, sep), sep) && Join(Split(s, sep), sep) == s
    decreases |s|
  {
    match Find(s, sep)
    case None =>
    case Some(i) =>
      FirstCut(s, sep, i);
      var tail := s[i + |sep|..];
      SplitParts(tail, sep);
      JoinCons(s[..i], Split(tail, sep), sep);
  }

  /** Splitting undoes joining, when no separator hides in or across the parts. */
  lemma {:induction false} SplitJoin<T>(parts: seq<seq<T>>, sep: seq<T>)
    requires |sep| > 0 && Parts(parts, sep)
    ensures Split(Join(parts, sep), sep) == parts
    decreases |parts|
  {
    if |parts| > 1 {
      var rest := parts[1..];
      assert rest[|rest| - 1] == parts[|parts| - 1];
      SplitJoin(rest, sep);
      SplitCons(parts[0], Join(rest, sep), sep);
      assert [parts[0]] + rest == parts;
    }
  }

  /**
   * Splitting a stream piece by piece: the unterminated last part is all that has to be kept
   * between two pieces.
   */
  lemma {:induction false} SplitAppend<T>(a: seq<T>, b: seq<T>, sep: seq<T>)
    requires |sep| > 0
    ensures var parts := Split(a, sep); var n := |parts| - 1;
      Split(a + b, sep) == parts[..n] + Split(parts[n] + b, sep)
    decreases |a|
  {
    hide Find, Clean;
    match Find(a, sep)
    case None =>
      assert Split(a, sep)[..0] == [];
    case Some(i) =>
      FirstCut(a, sep, i);
      var head, tail := a[..i], a[i + |sep|..];
      var parts := Split(tail, sep);
      var n := |parts| - 1;
      SplitAppend(tail, b, sep);
      assert a + b == head + sep + (tail + b);
      SplitCons(head, tail + b, sep);
      assert ([head] + parts)[..n + 1] == [head] + parts[..n];
  }

  // ---------- pieces of a stream ----------

  function Concat<T>(pieces: seq<seq<T>>): seq<T> {
    if pieces == [] then [] else Concat(pieces[..|pieces| - 1]) + pieces[|pieces| - 1]
  }

  lemma {:induction false} ConcatAppend<T>(a: seq<seq<T>>, b: seq<seq<T>>)
    ensures Concat(a + b) == Concat(a) + Concat(b)
    decreases |b|
  {
    if b == [] {
      assert a + b == a;
    } else {
      var n := |b| - 1;
      assert (a + b)[..|a| + n] == a + b[..n];
      ConcatAppend(a, b[..n]);
    }
  }

  // ---------- single characters ----------

  /** A part without the one-character separator. */
  lemma {:induction false} OneCharAbsent(part: string, c: char)
    ensures Absent(part, [c]) <==> c !in part
    ensures c !in part ==> Clean(part, [c])
  {
    FindSpec(part, [c]);
    FindSpec(part + [c], [c]);
    forall j: nat | j < |part| ensures At(part, [c], j) <==> part[j] == c { assert part[j..j + 1] == [part[j]]; }
    if c !in part {
      assert At(part + [c], [c], |part|);
      forall j: nat | j < |part| ensures !At(part + [c], [c], j) { AtPrefix(part, [c], [c], j); }
    }
  }

  // ---------- trimming ----------

  /** What String.prototype.trim removes. */
  predicate IsSpace(c: char) {
    || c == ' ' || '\t' <= c <= '\r' || c == '\U{A0}' || c == '\U{1680}'
    || '\U{2000}' <= c <= '\U{200A}' || c == '\U{2028}' || c == '\U{2029}'
    || c == '\U{202F}' || c == '\U{205F}' || c == '\U{3000}' || c == '\U{FEFF}'
  }

  function TrimStart(s: string): string {
    if s != [] && IsSpace(s[0]) then TrimStart(s[1..]) else s
  }

  function TrimEnd(s: string): string {
    if s != [] && IsSpace(s[|s| - 1]) then TrimEnd(s[..|s| - 1]) else s
  }

  function Trim(s: string): string {
    TrimStart(TrimEnd(s))
  }

  predicate Blank(s: string) {
    forall i :: 0 <= i < |s| ==> IsSpace(s[i])
  }

  lemma {:induction false} TrimEndDrops(core: string, after: string)
    requires Blank(after) && (core != "" ==> !IsSpace(core[|core| - 1]))
    ensures TrimEnd(core + after) == core
    decreases |after|
  {
    if after == "" {
      assert core + after == core;
    } else {
      var n := |after| - 1;
      assert (core + after)[..|core| + n] == core + after[..n];
      TrimEndDrops(core, after[..n]);
    }
  }

  lemma {:induction false} TrimStartDrops(before: string, core: string)
    requires Blank(before) && (core != "" ==> !IsSpace(core[0]))
    ensures TrimStart(before + core) == core
    decreases |before|
  {
    if before == "" {
      assert before + core == core;
    } else {
      assert (before + core)[1..] == before[1..] + core;
      TrimStartDrops(before[1..], core);
    }
  }

  /** White space around a text does not survive, whatever it is. */
  lemma TrimDropsBlanks(before: string, core: string, after: string)
    requires Blank(before) && Blank(after)
    requires core != "" && !IsSpace(core[0]) && !IsSpace(core[|core| - 1])
    ensures Trim(before + core + after) == core
  {
    TrimEndDrops(before + core, after);
    TrimStartDrops(before, core);
  }

  /** What any text looks like around its trimmed core. */
  lemma {:induction false} TrimCore(s: string) returns (before: string, after: string)
    ensures s == before + Trim(s) + after && Blank(before) && Blank(after)
    ensures Trim(s) != "" ==> !IsSpace(Trim(s)[0]) && !IsSpace(Trim(s)[|Trim(s)| - 1])
  {
    after := TrimEndCore(s);
    before := TrimStartCore(TrimEnd(s));
  }

  lemma {:induction false} TrimEndCore(s: string) returns (after: string)
    ensures s == TrimEnd(s) + after && Blank(after)
    ensures TrimEnd(s) != "" ==> !IsSpace(TrimEnd(s)[|TrimEnd(s)| - 1])
    decreases |s|
  {
    after := "";
    if s != "" && IsSpace(s[|s| - 1]) {
      var n := |s| - 1;
      after := TrimEndCore(s[..n]);
      assert s == s[..n] + [s[n]];
      after := after + [s[n]];
    }
  }

  lemma {:induction false} TrimStartCore(s: string) returns (before: string)
    ensures s == before + TrimStart(s) && Blank(before)
    ensures TrimStart(s) != "" ==> !IsSpace(TrimStart(s)[0])
    decreases |s|
  {
    before := "";
    if s != "" && IsSpace(s[0]) {
      before := TrimStartCore(s[1..]);
      assert s == [s[0]] + s[1..];
      before := [s[0]] + before;
    }
  }
}
