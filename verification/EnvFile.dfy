/**
 * The deployment's .env file: reading an assignment as Compose does, and rewriting the managed
 * ones. The two agree except on a line the reader accepts and the writer does not recognise.
 */
module EnvFile {
  import opened Basics
  import opened Text

  // ---------- characters ----------

  predicate IsUpper(c: char) { 'A' <= c <= 'Z' }

  predicate IsDigit(c: char) { '0' <= c <= '9' }

  predicate IsAlnum(c: char) { IsUpper(c) || IsDigit(c) || 'a' <= c <= 'z' }

  predicate IsKeyChar(c: char) { IsUpper(c) || IsDigit(c) || c == '_' }

  predicate IsValueChar(c: char) {
    IsAlnum(c) || c == '.' || c == '_' || c == ':' || c == '/' || c == '@' || c == '+' || c == '-'
  }

  predicate IsLineEnd(c: char) { c == '\n' || c == '\r' || c == '\U{2028}' || c == '\U{2029}' }

  predicate IsKey(s: string) {
    s != [] && IsUpper(s[0]) && forall i :: 0 <= i < |s| ==> IsKeyChar(s[i])
  }

  predicate IsValue(s: string) {
    |s| <= 256 && forall i :: 0 <= i < |s| ==> IsValueChar(s[i])
  }

  // ---------- lines ----------

  /** Splitting at a newline with an optional carriage return before it. */
  function Lines(s: string): (lines: seq<string>)
    ensures |lines| > 0
  {
    StripReturns(Split(s, "\n"))
  }

  function StripReturns(parts: seq<string>): (lines: seq<string>)
    ensures |lines| == |parts|
  {
    if |parts| <= 1 then parts else [StripReturn(parts[0])] + StripReturns(parts[1..])
  }

  function StripReturn(s: string): string {
    if s != [] && s[|s| - 1] == '\r' then s[..|s| - 1] else s
  }

  function Unquoted(value: string, quote: char): string {
    if |value| >= 2 && value[0] == quote && value[|value| - 1] == quote
       && (forall i :: 0 < i < |value| - 1 ==> !IsLineEnd(value[i]))
    then value[1..|value| - 1]
    else value
  }

  /** The value a line assigns to the key, as the reader sees it. */
  function LineValue(raw: string, key: string): Option<string> {
    var line := Trim(raw);
    if line == "" || line[0] == '#' then None
    else match Find(line, "=")
      case None => None
      case Some(i) =>
        CharSpec(line, '=');
        if i == 0 || Trim(line[..i]) != key then None
        else Some(Unquoted(Unquoted(Trim(line[i + 1..]), '"'), '\''))
  }

  /** The key the writer recognises on a line: capitals at the very start, up to the equals sign. */
  function WriterKey(line: string): Option<string> {
    match Find(line, "=")
    case None => None
    case Some(i) => CharSpec(line, '='); if IsKey(line[..i]) then Some(line[..i]) else None
  }

  /** Where Find sees a single character. */
  lemma CharSpec(s: string, c: char)
    ensures var i := Find(s, [c]);
      && (i.Some? ==> i.value < |s| && s[i.value] == c && c !in s[..i.value])
      && (i.None? ==> c !in s)
  {
    FindSpec(s, [c]);
    forall j: nat | j < |s| ensures At(s, [c], j) <==> s[j] == c { assert s[j..j + 1] == [s[j]]; }
  }

  lemma CharIs(a: string, c: char, b: string)
    requires c !in a
    ensures Find(a + [c] + b, [c]) == Some(|a|)
  {
    OneCharAbsent(a, c);
    FindClean(a, b, [c]);
  }

  // ---------- reading ----------

  /** One line the reader takes as an assignment of the key; canonical if the writer knows it too. */
  datatype Mark = Mark(canonical: bool, value: string)

  function MarksOf(line: string, key: string): seq<Mark> {
    match LineValue(line, key)
    case None => []
    case Some(value) => [Mark(WriterKey(line) == Some(key), value)]
  }

  function Marks(lines: seq<string>, key: string): seq<Mark> {
    if lines == [] then [] else MarksOf(lines[0], key) + Marks(lines[1..], key)
  }

  /** Later assignments win. */
  function LastValue(marks: seq<Mark>): Option<string> {
    if marks == [] then None else Some(marks[|marks| - 1].value)
  }

  method ReadEnvAssignment(contents: string, key: string) returns (found: Option<string>)
    ensures found == LastValue(Marks(Lines(contents), key))
  {
    hide Lines, Marks, LastValue, LineValue;
    var lines := Lines(contents);
    found := None;
    NothingRead(lines, key);
    for i := 0 to |lines|
      invariant found == LastValue(Marks(lines[..i], key))
    {
      ReadLine(lines, i, key);
      var value := LineValue(lines[i], key);
      if value.Some? { found := value; }
    }
    assert lines[..|lines|] == lines;
  }

  lemma NothingRead(lines: seq<string>, key: string)
    ensures LastValue(Marks(lines[..0], key)) == None
  {
  }

  lemma ReadLine(lines: seq<string>, i: nat, key: string)
    requires i < |lines|
    ensures LastValue(Marks(lines[..i + 1], key))
         == if LineValue(lines[i], key).Some? then LineValue(lines[i], key) else LastValue(Marks(lines[..i], key))
  {
    hide LineValue;
    MarksAppend(lines[..i], [lines[i]], key);
    assert lines[..i + 1] == lines[..i] + [lines[i]];
    assert Marks([lines[i]], key) == MarksOf(lines[i], key) by { assert [lines[i]][1..] == []; }
  }

  lemma {:induction false} MarksAppend(a: seq<string>, b: seq<string>, key: string)
    ensures Marks(a + b, key) == Marks(a, key) + Marks(b, key)
  {
    hide MarksOf;
    if a == [] {
      assert a + b == b;
    } else {
      MarksAppend(a[1..], b, key);
      assert (a + b)[1..] == a[1..] + b;
    }
  }

  // ---------- writing ----------

  datatype Assignment = Assignment(key: string, value: string)

  function ValueFor(assignments: seq<Assignment>, key: string): Option<string> {
    if assignments == [] then None
    else if assignments[0].key == key then Some(assignments[0].value)
    else ValueFor(assignments[1..], key)
  }

  function Rewritten(line: string, assignments: seq<Assignment>): string {
    match WriterKey(line)
    case None => line
    case Some(key) =>
      match ValueFor(assignments, key)
      case None => line
      case Some(value) => key + "=" + value
  }

  function RewrittenAll(lines: seq<string>, assignments: seq<Assignment>): (next: seq<string>)
    ensures |next| == |lines|
  {
    if lines == [] then [] else [Rewritten(lines[0], assignments)] + RewrittenAll(lines[1..], assignments)
  }

  /** Some line carries an assignment of the key that the writer recognises. */
  predicate HasWriterLine(lines: seq<string>, key: string) {
    exists i :: 0 <= i < |lines| && WriterKey(lines[i]) == Some(key)
  }

  function Pending(lines: seq<string>, assignments: seq<Assignment>): seq<string> {
    if assignments == [] then []
    else (if HasWriterLine(lines, assignments[0].key) then [] else [assignments[0].key + "=" + assignments[0].value])
         + Pending(lines, assignments[1..])
  }

  function DropBlankEnd(lines: seq<string>): seq<string> {
    if lines != [] && lines[|lines| - 1] == "" then DropBlankEnd(lines[..|lines| - 1]) else lines
  }

  function NextLines(contents: string, assignments: seq<Assignment>): seq<string> {
    var lines := Lines(contents);
    var next := RewrittenAll(lines, assignments);
    var pending := Pending(lines, assignments);
    if pending == [] then next
    else var kept := DropBlankEnd(next);
      (if kept == [] then [] else kept + [""]) + pending
  }

  function Newline(contents: string): string {
    if Find(contents, "\r\n").Some? then "\r\n" else "\n"
  }

  /** The keys are distinct; they come from an object literal. */
  predicate Managed(assignments: seq<Assignment>) {
    && (forall i :: 0 <= i < |assignments| ==> IsKey(assignments[i].key) && IsValue(assignments[i].value))
    && (forall i, j :: 0 <= i < j < |assignments| ==> assignments[i].key != assignments[j].key)
  }

  /** upsertEnvAssignments; an unusable key or value is refused. */
  function Upsert(contents: string, assignments: seq<Assignment>): Option<string> {
    if exists i :: 0 <= i < |assignments| && !(IsKey(assignments[i].key) && IsValue(assignments[i].value)) then None
    else
      var newline := Newline(contents);
      var rendered := Join(NextLines(contents, assignments), newline);
      Some(if EndsWith(rendered, newline) then rendered else rendered + newline)
  }

  predicate EndsWith(s: string, end: string) {
    |end| <= |s| && s[|s| - |end|..] == end
  }

  // ---------- splitting what was joined ----------

  lemma NewlineParts(parts: seq<string>)
    requires |parts| > 0 && forall i :: 0 <= i < |parts| ==> '\n' !in parts[i]
    ensures Parts(parts, "\n")
  {
    forall i | 0 <= i < |parts| - 1 ensures Clean(parts[i], "\n") {
      CharIs(parts[i], '\n', "");
      assert parts[i] + "\n" == parts[i] + ['\n'] + "";
    }
    CharSpec(parts[|parts| - 1], '\n');
  }

  function WithReturns(parts: seq<string>): (r: seq<string>)
    ensures |r| == |parts|
  {
    if |parts| <= 1 then parts else [parts[0] + "\r"] + WithReturns(parts[1..])
  }

  lemma {:induction false} JoinReturns(parts: seq<string>)
    ensures Join(parts, "\r\n") == Join(WithReturns(parts), "\n")
    ensures StripReturns(WithReturns(parts)) == parts
    ensures (forall i :: 0 <= i < |parts| ==> '\n' !in parts[i]) ==>
              forall i :: 0 <= i < |parts| ==> '\n' !in WithReturns(parts)[i]
  {
    if |parts| > 1 {
      JoinReturns(parts[1..]);
      JoinCons(parts[0] + "\r", WithReturns(parts[1..]), "\n");
      assert parts[0] + "\r\n" == (parts[0] + "\r") + "\n";
      assert WithReturns(parts)[1..] == WithReturns(parts[1..]);
    }
  }

  lemma {:induction false} MarksStripped(parts: seq<string>, key: string)
    ensures Marks(StripReturns(parts), key) == Marks(parts, key)
  {
    hide MarksOf;
    if |parts| > 1 {
      MarksStripped(parts[1..], key);
      MarkStripped(parts[0], key);
    }
  }

  /** A trailing carriage return is invisible to reader and writer. */
  lemma MarkStripped(line: string, key: string)
    ensures MarksOf(StripReturn(line), key) == MarksOf(line, key)
  {
    hide MarksOf, WriterKey;
    if line != [] && line[|line| - 1] == '\r' {
      var rest := StripReturn(line);
      assert line == rest + ['\r'];
      assert Trim(line) == Trim(rest);
      WriterKeyPrefix(rest, '\r');
      SameMark(line, rest, key);
    }
  }

  lemma SameMark(a: string, b: string, key: string)
    requires Trim(a) == Trim(b) && WriterKey(a) == WriterKey(b)
    ensures MarksOf(a, key) == MarksOf(b, key)
  {
    hide Trim, WriterKey;
  }

  lemma WriterKeyPrefix(line: string, c: char)
    requires c != '='
    ensures WriterKey(line + [c]) == WriterKey(line)
  {
    CharSpec(line, '=');
    match Find(line, "=")
    case Some(i) =>
      assert line + [c] == line[..i] + ['='] + (line[i + 1..] + [c]);
      CharIs(line[..i], '=', line[i + 1..] + [c]);
      assert (line + [c])[..i] == line[..i];
    case None =>
      CharSpec(line + [c], '=');
  }

  lemma MarksJoined(lines: seq<string>, newline: string, key: string)
    requires newline == "\n" || newline == "\r\n"
    requires |lines| > 0 && forall i :: 0 <= i < |lines| ==> '\n' !in lines[i]
    ensures Marks(Lines(Join(lines, newline)), key) == Marks(lines, key)
  {
    if newline == "\n" {
      NewlineParts(lines);
      SplitJoin(lines, "\n");
      MarksStripped(lines, key);
    } else {
      JoinReturns(lines);
      NewlineParts(WithReturns(lines));
      SplitJoin(WithReturns(lines), "\n");
    }
  }

  // ---------- what a rewrite does to the marks ----------

  lemma TrimEndSpec(s: string, n: nat)
    requires n < |s| && !IsSpace(s[n])
    ensures n < |TrimEnd(s)| <= |s| && TrimEnd(s) == s[..|TrimEnd(s)|]
  {
  }

  lemma NoTrim(s: string)
    requires forall i :: 0 <= i < |s| ==> !IsSpace(s[i])
    ensures Trim(s) == s
  {
  }

  /** A line the writer knows is read as an assignment of the same key, and of no other. */
  lemma WriterLine(line: string, own: string, key: string)
    requires WriterKey(line) == Some(own)
    ensures LineValue(line, key).Some? <==> key == own
  {
    CharSpec(line, '=');
    var i := Find(line, "=").value;
    TrimEndSpec(line, i);
    var kept := TrimEnd(line);
    assert kept == own + ['='] + kept[i + 1..];
    CharIs(own, '=', kept[i + 1..]);
    assert kept[0] == own[0] && kept[..i] == own;
    assert Trim(line) == kept;
    NoTrim(own);
  }

  lemma LineParts(key: string, value: string)
    requires IsKey(key)
    ensures var line := key + "=" + value;
      && Find(line, "=") == Some(|key|)
      && line[..|key|] == key && line[|key| + 1..] == value && line[0] == key[0]
  {
    var line := key + "=" + value;
    assert line == key + ['='] + value;
    CharIs(key, '=', value);
  }

  lemma NothingToTrim(key: string, value: string)
    requires IsKey(key) && IsValue(value)
    ensures Trim(key + "=" + value) == key + "=" + value && Trim(key) == key && Trim(value) == value
    ensures TrimEnd(key + "=" + value) == key + "=" + value
  {
    NoTrim(key);
    NoTrim(value);
    NoTrim(key + "=" + value);
  }

  /** A managed line reads back exactly. */
  lemma KeyLine(key: string, value: string)
    requires IsKey(key) && IsValue(value)
    ensures WriterKey(key + "=" + value) == Some(key)
    ensures LineValue(key + "=" + value, key) == Some(value)
  {
    hide Trim, TrimEnd, Find, IsLineEnd;
    LineParts(key, value);
    NothingToTrim(key, value);
  }

  /** The writer's replacement: every line it recognises gets the value. */
  function Updated(marks: seq<Mark>, value: Option<string>): seq<Mark> {
    if value.None? || marks == [] then marks
    else [if marks[0].canonical then Mark(true, value.value) else marks[0]] + Updated(marks[1..], value)
  }

  lemma {:induction false} UpdatedAppend(a: seq<Mark>, b: seq<Mark>, value: Option<string>)
    ensures Updated(a + b, value) == Updated(a, value) + Updated(b, value)
  {
    if a == [] {
      assert a + b == b;
    } else {
      assert (a + b)[1..] == a[1..] + b;
      UpdatedAppend(a[1..], b, value);
    }
  }

  lemma {:induction false} ValueForSpec(assignments: seq<Assignment>, key: string)
    requires Managed(assignments)
    ensures ValueFor(assignments, key).Some? ==> IsKey(key) && IsValue(ValueFor(assignments, key).value)
  {
    if assignments != [] && assignments[0].key != key { ValueForSpec(assignments[1..], key); }
  }

  lemma MarkRewritten(line: string, assignments: seq<Assignment>, key: string)
    requires Managed(assignments)
    ensures MarksOf(Rewritten(line, assignments), key) == Updated(MarksOf(line, key), ValueFor(assignments, key))
  {
    hide LineValue, IsKey, IsValue;
    if WriterKey(line).Some? {
      var own := WriterKey(line).value;
      WriterLine(line, own, key);
      ValueForSpec(assignments, own);
      if ValueFor(assignments, own).Some? {
        KeyLine(own, ValueFor(assignments, own).value);
        WriterLine(Rewritten(line, assignments), own, key);
      }
    }
  }

  lemma {:induction false} MarksRewritten(lines: seq<string>, assignments: seq<Assignment>, key: string)
    requires Managed(assignments)
    ensures Marks(RewrittenAll(lines, assignments), key) == Updated(Marks(lines, key), ValueFor(assignments, key))
  {
    hide MarksOf, Rewritten, Updated;
    if lines != [] {
      MarkRewritten(lines[0], assignments, key);
      MarksRewritten(lines[1..], assignments, key);
      UpdatedAppend(MarksOf(lines[0], key), Marks(lines[1..], key), ValueFor(assignments, key));
      assert RewrittenAll(lines, assignments)[1..] == RewrittenAll(lines[1..], assignments);
    } else {
      assert Updated([], ValueFor(assignments, key)) == [] by { UpdatedNothing(ValueFor(assignments, key)); }
    }
  }

  lemma UpdatedNothing(value: Option<string>)
    ensures Updated([], value) == []
  {
  }

  predicate HasCanonical(marks: seq<Mark>) {
    exists i :: 0 <= i < |marks| && marks[i].canonical
  }

  lemma {:induction false} WriterLineIsMarked(lines: seq<string>, key: string)
    ensures HasWriterLine(lines, key) <==> HasCanonical(Marks(lines, key))
  {
    if lines != [] {
      var head, tail := MarksOf(lines[0], key), Marks(lines[1..], key);
      WriterLineIsMarked(lines[1..], key);
      assert HasCanonical(head) <==> WriterKey(lines[0]) == Some(key) by {
        if WriterKey(lines[0]) == Some(key) { WriterLine(lines[0], key, key); assert head[0].canonical; }
      }
      assert HasWriterLine(lines, key) <==> WriterKey(lines[0]) == Some(key) || HasWriterLine(lines[1..], key) by {
        if HasWriterLine(lines[1..], key) {
          var i :| 0 <= i < |lines[1..]| && WriterKey(lines[1..][i]) == Some(key);
          assert WriterKey(lines[i + 1]) == Some(key);
        }
      }
      CanonicalAppend(head, tail);
    }
  }

  lemma CanonicalAppend(a: seq<Mark>, b: seq<Mark>)
    ensures HasCanonical(a + b) <==> HasCanonical(a) || HasCanonical(b)
  {
    if HasCanonical(a) {
      var i :| 0 <= i < |a| && a[i].canonical;
      assert (a + b)[i].canonical;
    }
    if HasCanonical(b) {
      var i :| 0 <= i < |b| && b[i].canonical;
      assert (a + b)[|a| + i].canonical;
    }
  }

  lemma {:induction false} MarksPending(lines: seq<string>, assignments: seq<Assignment>, key: string)
    requires Managed(assignments)
    ensures var value := ValueFor(assignments, key);
      Marks(Pending(lines, assignments), key)
        == if value.Some? && !HasWriterLine(lines, key) then [Mark(true, value.value)] else []
  {
    hide LineValue, WriterKey, IsKey, IsValue, HasWriterLine;
    if assignments != [] {
      var first, rest := assignments[0], assignments[1..];
      var line := first.key + "=" + first.value;
      MarksPending(lines, rest, key);
      KeyLine(first.key, first.value);
      WriterLine(line, first.key, key);
      OtherKeys(rest, first.key);
      var own := if HasWriterLine(lines, first.key) then [] else [line];
      MarksAppend(own, Pending(lines, rest), key);
      MarksSingle(line, key);
    }
  }

  lemma MarksSingle(line: string, key: string)
    ensures Marks([line], key) == MarksOf(line, key)
  {
    hide MarksOf;
  }

  lemma {:induction false} OtherKeys(assignments: seq<Assignment>, key: string)
    requires forall i :: 0 <= i < |assignments| ==> assignments[i].key != key
    ensures ValueFor(assignments, key).None?
  {
    if assignments != [] { OtherKeys(assignments[1..], key); }
  }

  lemma {:induction false} MarksKept(lines: seq<string>, key: string)
    ensures Marks(DropBlankEnd(lines), key) == Marks(lines, key)
    ensures |DropBlankEnd(lines)| <= |lines| && DropBlankEnd(lines) == lines[..|DropBlankEnd(lines)|]
    decreases |lines|
  {
    if lines != [] && lines[|lines| - 1] == "" {
      var rest := lines[..|lines| - 1];
      MarksKept(rest, key);
      MarksAppend(rest, [""], key);
      MarksSingle("", key);
      assert lines == rest + [""];
    }
  }

  // ---------- results ----------

  /** The marks of the rewritten file, in terms of the marks of the old one. */
  function Managing(marks: seq<Mark>, value: Option<string>): seq<Mark> {
    if value.None? || HasCanonical(marks) then Updated(marks, value) else Updated(marks, value) + [Mark(true, value.value)]
  }

  lemma MarksNextLines(contents: string, assignments: seq<Assignment>, key: string)
    requires Managed(assignments)
    ensures Marks(NextLines(contents, assignments), key)
         == Managing(Marks(Lines(contents), key), ValueFor(assignments, key))
    ensures NextLines(contents, assignments) != []
  {
    hide MarksOf, Updated, Lines, HasWriterLine, HasCanonical;
    var lines := Lines(contents);
    var next := RewrittenAll(lines, assignments);
    var pending := Pending(lines, assignments);
    MarksRewritten(lines, assignments, key);
    MarksPending(lines, assignments, key);
    WriterLineIsMarked(lines, key);
    if pending != [] {
      var kept := DropBlankEnd(next);
      MarksKept(next, key);
      BlankMark(kept, key);
      MarksAppend(if kept == [] then [] else kept + [""], pending, key);
    }
  }

  lemma BlankMark(kept: seq<string>, key: string)
    ensures Marks(kept + [""], key) == Marks(kept, key)
  {
    hide MarksOf;
    MarksAppend(kept, [""], key);
    MarksSingle("", key);
    NoMarkOnBlank(key);
  }

  lemma EmptyHasNoMarks(key: string)
    ensures Marks(Lines(""), key) == [] && Shadowing("", key).None?
  {
    assert Split("", "\n") == [""];
    assert Lines("") == [""];
    NoMarkOnBlank(key);
    assert Marks([""], key) == [];
  }

  lemma NoMarkOnBlank(key: string)
    ensures MarksOf("", key) == []
  {
  }

  lemma {:induction false} LinesHaveNoNewline(parts: seq<string>)
    requires Parts(parts, "\n")
    ensures forall i :: 0 <= i < |parts| ==> '\n' !in StripReturns(parts)[i]
  {
    if |parts| == 1 {
      CharSpec(parts[0], '\n');
    } else {
      var head, rest := parts[0], parts[1..];
      assert rest[|rest| - 1] == parts[|parts| - 1];
      LinesHaveNoNewline(rest);
      assert Clean(head, "\n");
      CharSpec(head + "\n", '\n');
      assert (head + "\n")[..|head|] == head;
    }
  }

  lemma RewrittenHasNoNewline(line: string, assignments: seq<Assignment>)
    requires Managed(assignments) && '\n' !in line
    ensures '\n' !in Rewritten(line, assignments)
  {
    CharSpec(line, '=');
    if WriterKey(line).Some? { ValueForSpec(assignments, WriterKey(line).value); }
  }

  lemma {:induction false} RewrittenAllSpec(lines: seq<string>, assignments: seq<Assignment>)
    ensures forall i :: 0 <= i < |lines| ==> RewrittenAll(lines, assignments)[i] == Rewritten(lines[i], assignments)
  {
    hide Rewritten;
    if lines != [] { RewrittenAllSpec(lines[1..], assignments); }
  }

  lemma {:induction false} PendingHasNoNewline(lines: seq<string>, assignments: seq<Assignment>)
    requires Managed(assignments)
    ensures forall i :: 0 <= i < |Pending(lines, assignments)| ==> '\n' !in Pending(lines, assignments)[i]
  {
    hide HasWriterLine;
    if assignments != [] { PendingHasNoNewline(lines, assignments[1..]); }
  }

  ghost predicate NoNewlines(lines: seq<string>) {
    forall i :: 0 <= i < |lines| ==> '\n' !in lines[i]
  }

  lemma NextHasNoNewline(contents: string, assignments: seq<Assignment>)
    requires Managed(assignments)
    ensures NoNewlines(NextLines(contents, assignments))
  {
    hide Rewritten, HasWriterLine, Pending, StripReturns, DropBlankEnd;
    var lines := Lines(contents);
    SplitParts(contents, "\n");
    LinesHaveNoNewline(Split(contents, "\n"));
    var next := RewrittenAll(lines, assignments);
    RewrittenAllSpec(lines, assignments);
    forall i | 0 <= i < |lines| ensures '\n' !in next[i] {
      RewrittenHasNoNewline(lines[i], assignments);
    }
    PendingHasNoNewline(lines, assignments);
    MarksKept(next, "");
    var kept := DropBlankEnd(next);
    assert NoNewlines(next) && NoNewlines(kept);
    NoNewlinesAppend(kept, [""]);
    NoNewlinesAppend(if kept == [] then [] else kept + [""], Pending(lines, assignments));
  }

  lemma NoNewlinesAppend(a: seq<string>, b: seq<string>)
    requires NoNewlines(a) && NoNewlines(b)
    ensures NoNewlines(a + b)
  {
  }

  /** Everything the reader can see of the rewritten file. */
  lemma MarksAfterUpsert(contents: string, assignments: seq<Assignment>, key: string)
    requires Managed(assignments)
    ensures Upsert(contents, assignments).Some?
    ensures Marks(Lines(Upsert(contents, assignments).value), key)
         == Managing(Marks(Lines(contents), key), ValueFor(assignments, key))
  {
    hide MarksOf, Lines, Managing, NextLines;
    var next := NextLines(contents, assignments);
    var newline := Newline(contents);
    MarksNextLines(contents, assignments, key);
    NextHasNoNewline(contents, assignments);
    var rendered := Join(next, newline);
    if EndsWith(rendered, newline) {
      MarksJoined(next, newline, key);
    } else {
      JoinBlank(next, newline);
      MarksJoined(next + [""], newline, key);
      BlankMark(next, key);
    }
  }

  lemma {:induction false} JoinBlank(lines: seq<string>, newline: string)
    requires lines != []
    ensures Join(lines + [""], newline) == Join(lines, newline) + newline
  {
    if |lines| > 1 {
      JoinBlank(lines[1..], newline);
      assert (lines + [""])[1..] == lines[1..] + [""];
    } else {
      assert (lines + [""])[1..] == [""];
    }
  }

  // ---------- what a rewrite leaves alone ----------

  /** The line without the carriage returns at its end. */
  function Core(line: string): string
    decreases |line|
  {
    if line != "" && line[|line| - 1] == '\r' then Core(line[..|line| - 1]) else line
  }

  /** The line is an assignment that the rewrite is told to write. */
  predicate IsManaged(line: string, assignments: seq<Assignment>) {
    WriterKey(line).Some? && ValueFor(assignments, WriterKey(line).value).Some?
  }

  /** The other lines, comments among them, in order; blank ones and final carriage returns left out. */
  function Foreign(lines: seq<string>, assignments: seq<Assignment>): seq<string> {
    if lines == [] then []
    else
      (if Core(lines[0]) == "" || IsManaged(lines[0], assignments) then [] else [Core(lines[0])])
      + Foreign(lines[1..], assignments)
  }

  lemma {:induction false} ForeignAppend(a: seq<string>, b: seq<string>, assignments: seq<Assignment>)
    ensures Foreign(a + b, assignments) == Foreign(a, assignments) + Foreign(b, assignments)
  {
    hide IsManaged, Core;
    if a == [] {
      assert a + b == b;
    } else {
      assert (a + b)[1..] == a[1..] + b;
      ForeignAppend(a[1..], b, assignments);
    }
  }

  lemma {:induction false} ForeignStripped(parts: seq<string>, assignments: seq<Assignment>)
    ensures Foreign(StripReturns(parts), assignments) == Foreign(parts, assignments)
  {
    hide WriterKey;
    if |parts| > 1 {
      ForeignStripped(parts[1..], assignments);
      var line := parts[0];
      if line != "" && line[|line| - 1] == '\r' {
        assert line == StripReturn(line) + ['\r'];
        WriterKeyPrefix(StripReturn(line), '\r');
      }
    }
  }

  lemma ManagedStays(line: string, assignments: seq<Assignment>)
    requires Managed(assignments)
    ensures IsManaged(Rewritten(line, assignments), assignments) == IsManaged(line, assignments)
    ensures !IsManaged(line, assignments) ==> Rewritten(line, assignments) == line
  {
    hide WriterKey;
    if IsManaged(line, assignments) {
      var key := WriterKey(line).value;
      ValueForSpec(assignments, key);
      KeyLine(key, ValueFor(assignments, key).value);
    }
  }

  lemma {:induction false} ForeignRewritten(lines: seq<string>, assignments: seq<Assignment>)
    requires Managed(assignments)
    ensures Foreign(RewrittenAll(lines, assignments), assignments) == Foreign(lines, assignments)
  {
    hide IsManaged, Rewritten, Core;
    if lines != [] {
      ForeignRewritten(lines[1..], assignments);
      ManagedStays(lines[0], assignments);
    }
  }

  lemma ForeignBlank(kept: seq<string>, assignments: seq<Assignment>)
    ensures Foreign(kept + [""], assignments) == Foreign(kept, assignments)
  {
    ForeignAppend(kept, [""], assignments);
    assert Foreign([""], assignments) == [] by { assert [""][1..] == []; }
  }

  lemma {:induction false} ForeignDropped(lines: seq<string>, assignments: seq<Assignment>)
    ensures Foreign(DropBlankEnd(lines), assignments) == Foreign(lines, assignments)
    decreases |lines|
  {
    hide Foreign;
    if lines != [] && lines[|lines| - 1] == "" {
      var kept := lines[..|lines| - 1];
      assert lines == kept + [""];
      ForeignBlank(kept, assignments);
      ForeignDropped(kept, assignments);
    }
  }

  /** The lines that are added hold assignments only. */
  lemma {:induction false} PendingIsManaged(lines: seq<string>, wanted: seq<Assignment>, assignments: seq<Assignment>)
    requires Managed(assignments) && forall a :: a in wanted ==> a in assignments
    ensures Foreign(Pending(lines, wanted), assignments) == []
  {
    hide Foreign, HasWriterLine, Managed;
    NothingForeign(assignments);
    if wanted != [] {
      var line := wanted[0].key + "=" + wanted[0].value;
      PendingIsManaged(lines, wanted[1..], assignments);
      assert wanted[0] in wanted;
      var i :| 0 <= i < |assignments| && assignments[i] == wanted[0];
      AddedIsManaged(assignments, i);
      ForeignAppend([line], Pending(lines, wanted[1..]), assignments);
      assert [] + Pending(lines, wanted[1..]) == Pending(lines, wanted[1..]);
    }
  }

  lemma NothingForeign(assignments: seq<Assignment>)
    ensures Foreign([], assignments) == []
  {
  }

  lemma AddedIsManaged(assignments: seq<Assignment>, i: nat)
    requires Managed(assignments) && i < |assignments|
    ensures Foreign([assignments[i].key + "=" + assignments[i].value], assignments) == []
  {
    hide WriterKey, Core;
    KeyLine(assignments[i].key, assignments[i].value);
    HasValue(assignments, i);
    var lines := [assignments[i].key + "=" + assignments[i].value];
    assert lines[1..] == [];
  }

  lemma {:induction false} HasValue(assignments: seq<Assignment>, i: nat)
    requires i < |assignments|
    ensures ValueFor(assignments, assignments[i].key).Some?
  {
    if i > 0 { HasValue(assignments[1..], i - 1); }
  }

  lemma ForeignJoined(lines: seq<string>, newline: string, assignments: seq<Assignment>)
    requires newline == "\n" || newline == "\r\n"
    requires |lines| > 0 && forall i :: 0 <= i < |lines| ==> '\n' !in lines[i]
    ensures Foreign(Lines(Join(lines, newline)), assignments) == Foreign(lines, assignments)
  {
    hide Foreign;
    if newline == "\n" {
      NewlineParts(lines);
      SplitJoin(lines, "\n");
      ForeignStripped(lines, assignments);
    } else {
      JoinReturns(lines);
      NewlineParts(WithReturns(lines));
      SplitJoin(WithReturns(lines), "\n");
    }
  }

  lemma ForeignNext(contents: string, assignments: seq<Assignment>)
    requires Managed(assignments)
    ensures Foreign(NextLines(contents, assignments), assignments) == Foreign(Lines(contents), assignments)
  {
    hide Foreign, Lines, Pending;
    var lines := Lines(contents);
    var next := RewrittenAll(lines, assignments);
    ForeignRewritten(lines, assignments);
    var pending := Pending(lines, assignments);
    if pending != [] {
      var kept := DropBlankEnd(next);
      ForeignDropped(next, assignments);
      PendingIsManaged(lines, assignments, assignments);
      ForeignBlank(kept, assignments);
      ForeignAppend(if kept == [] then [] else kept + [""], pending, assignments);
    }
  }

  /** A rewrite leaves every line that is not a managed assignment as it is, and where it is among the others. */
  lemma ForeignLinesSurvive(contents: string, assignments: seq<Assignment>)
    requires Managed(assignments)
    ensures Upsert(contents, assignments).Some?
    ensures Foreign(Lines(Upsert(contents, assignments).value), assignments) == Foreign(Lines(contents), assignments)
  {
    hide Foreign, Lines, NextLines;
    var next := NextLines(contents, assignments);
    var newline := Newline(contents);
    MarksNextLines(contents, assignments, "");
    NextHasNoNewline(contents, assignments);
    ForeignNext(contents, assignments);
    var rendered := Join(next, newline);
    if EndsWith(rendered, newline) {
      ForeignJoined(next, newline, assignments);
    } else {
      JoinBlank(next, newline);
      ForeignJoined(next + [""], newline, assignments);
      ForeignBlank(next, assignments);
    }
  }

  /** The last mark, when the writer does not recognise it but does recognise another. */
  function Overruling(marks: seq<Mark>): Option<string> {
    if HasCanonical(marks) && !marks[|marks| - 1].canonical then Some(marks[|marks| - 1].value) else None
  }

  /**
   * The value that still wins after any rewrite of the key: the last assignment the reader accepts
   * stands on a line the writer does not recognise (indented, or with a space before the equals
   * sign), while another line it does recognise keeps it from appending.
   */
  function Shadowing(contents: string, key: string): Option<string> {
    Overruling(Marks(Lines(contents), key))
  }

  lemma LastManaged(marks: seq<Mark>, value: Option<string>)
    ensures LastValue(Managing(marks, value))
         == if value.None? then LastValue(marks)
            else if Overruling(marks).Some? then Overruling(marks) else value
    ensures Overruling(Managing(marks, value)) == Overruling(marks)
  {
    UpdatedSpec(marks, value);
    if value.Some? && HasCanonical(marks) {
      var i :| 0 <= i < |marks| && marks[i].canonical;
      assert Updated(marks, value)[i].canonical;
    }
    if value.Some? && !HasCanonical(marks) {
      var after := Managing(marks, value);
      assert after[|after| - 1].canonical;
    }
  }

  /** Reading back what was written, for every file: exact, including the file that defeats it. */
  lemma ReadAfterUpsert(contents: string, assignments: seq<Assignment>, key: string)
    requires Managed(assignments)
    ensures var after := Upsert(contents, assignments);
      && after.Some?
      && LastValue(Marks(Lines(after.value), key))
         == (match ValueFor(assignments, key)
             case None => LastValue(Marks(Lines(contents), key))
             case Some(value) =>
               if Shadowing(contents, key).Some? then Shadowing(contents, key) else Some(value))
      && Shadowing(after.value, key) == Shadowing(contents, key)
  {
    hide MarksOf, Lines, Upsert, Managing, HasCanonical, LastValue, Overruling;
    MarksAfterUpsert(contents, assignments, key);
    LastManaged(Marks(Lines(contents), key), ValueFor(assignments, key));
  }

  lemma {:induction false} UpdatedSpec(marks: seq<Mark>, value: Option<string>)
    ensures |Updated(marks, value)| == |marks|
    ensures forall i :: 0 <= i < |marks| ==>
              Updated(marks, value)[i] == if value.Some? && marks[i].canonical then Mark(true, value.value) else marks[i]
  {
    if marks != [] { UpdatedSpec(marks[1..], value); }
  }

  /** An indented copy below the managed line: the rewrite succeeds and the old value keeps winning. */
  lemma IndentedCopyWins()
    ensures Shadowing("TAG=a\n TAG=b", "TAG") == Some("b")
  {
    hide Lines, MarksOf;
    var first, second := "TAG=a", " TAG=b";
    TwoLines(first, second);
    assert "TAG=a\n TAG=b" == first + "\n" + second;
    FirstCopy();
    SecondCopy();
    assert Marks([first, second], "TAG") == [Mark(true, "a"), Mark(false, "b")] by {
      assert Marks([first, second], "TAG") == MarksOf(first, "TAG") + Marks([second], "TAG");
      MarksSingle(second, "TAG");
    }
    assert Marks([first, second], "TAG")[0].canonical;
  }

  lemma TwoLines(first: string, second: string)
    requires '\n' !in first && '\n' !in second && (first == "" || first[|first| - 1] != '\r')
    ensures Lines(first + "\n" + second) == [first, second]
  {
    NewlineParts([first, second]);
    SplitJoin([first, second], "\n");
    assert [first, second][1..] == [second];
    assert Join([first, second], "\n") == first + "\n" + second;
    assert StripReturns([first, second]) == [first, second];
  }

  lemma FirstCopy()
    ensures MarksOf("TAG=a", "TAG") == [Mark(true, "a")]
  {
    KeyLine("TAG", "a");
    assert "TAG=a" == "TAG" + "=" + "a";
  }

  lemma SecondCopy()
    ensures MarksOf(" TAG=b", "TAG") == [Mark(false, "b")]
  {
    hide LineValue, WriterKey, Trim;
    KeyLine("TAG", "b");
    assert "TAG=b" == "TAG" + "=" + "b";
    SecondCopyTrims();
    SecondCopyIsUnknown();
    assert LineValue(" TAG=b", "TAG") == LineValue("TAG=b", "TAG") by { SameValue(" TAG=b", "TAG=b", "TAG"); }
  }

  lemma SameValue(a: string, b: string, key: string)
    requires Trim(a) == Trim(b)
    ensures LineValue(a, key) == LineValue(b, key)
  {
    hide Trim;
  }

  lemma SecondCopyTrims()
    ensures Trim(" TAG=b") == Trim("TAG=b")
  {
    assert " TAG=b"[1..] == "TAG=b";
  }

  lemma SecondCopyIsUnknown()
    ensures WriterKey(" TAG=b").None?
  {
    assert " TAG=b" == " TAG" + ['='] + "b";
    CharIs(" TAG", '=', "b");
    assert " TAG=b"[..4] == " TAG" && !IsUpper(" TAG"[0]);
  }

  // ---------- the forms of a line ----------

  lemma UnquotedIs(value: string, quote: char)
    ensures Unquoted([quote] + value + [quote], quote)
         == if exists i :: 0 <= i < |value| && IsLineEnd(value[i]) then [quote] + value + [quote] else value
  {
    var quoted := [quote] + value + [quote];
    assert quoted[1..|quoted| - 1] == value;
    assert forall i :: 0 <= i < |value| ==> quoted[i + 1] == value[i];
  }

  /** The same quotation mark stands at both ends. */
  predicate Enclosed(text: string, quote: char) {
    |text| >= 2 && text[0] == quote && text[|text| - 1] == quote
  }

  /** A name as Compose takes it: not blank at its ends, not a comment, and without an equals sign. */
  predicate IsName(key: string) {
    key != "" && !IsSpace(key[0]) && !IsSpace(key[|key| - 1]) && key[0] != '#' && '=' !in key
  }

  /** White space around the line, around the equals sign and at the end does not matter to the reader. */
  lemma PaddedLine(before: string, key: string, left: string, right: string, text: string, after: string)
    requires Blank(before) && Blank(left) && Blank(right) && Blank(after) && IsName(key)
    requires text != "" && !IsSpace(text[0]) && !IsSpace(text[|text| - 1])
    ensures LineValue(before + (key + left + "=" + right + text) + after, key)
         == Some(Unquoted(Unquoted(text, '"'), '\''))
  {
    hide Unquoted, Trim, Find, IsSpace;
    var name, rest := key + left, right + text;
    var line := name + "=" + rest;
    assert line == key + left + "=" + right + text;
    TrimDropsBlanks(before, line, after);
    BlankHasNoEquals(left);
    assert line == name + ['='] + rest;
    CharIs(name, '=', rest);
    assert line[..|name|] == name && line[|name| + 1..] == rest;
    TrimDropsBlanks("", key, left);
    assert "" + key + left == name;
    TrimDropsBlanks(right, text, "");
    assert right + text + "" == rest;
  }

  lemma BlankHasNoEquals(s: string)
    requires Blank(s)
    ensures '=' !in s
  {
  }

  /**
   * A value in quotation marks reads without them, in either kind of mark, with single ones inside
   * double ones taken off too; without marks it reads as it stands.
   */
  lemma QuotedLineReads(before: string, key: string, left: string, right: string, value: string, after: string)
    requires Blank(before) && Blank(left) && Blank(right) && Blank(after) && IsName(key)
    requires forall i :: 0 <= i < |value| ==> !IsLineEnd(value[i])
    ensures LineValue(before + (key + left + "=" + right + ("\"" + value + "\"")) + after, key)
         == Some(if Enclosed(value, '\'') then value[1..|value| - 1] else value)
    ensures LineValue(before + (key + left + "=" + right + ("'" + value + "'")) + after, key) == Some(value)
    ensures value != "" && !IsSpace(value[0]) && !IsSpace(value[|value| - 1]) && !Enclosed(value, '"') && !Enclosed(value, '\'')
      ==> LineValue(before + (key + left + "=" + right + value) + after, key) == Some(value)
  {
    hide LineValue, IsName, Blank;
    var double, single := ['"'] + value + ['"'], ['\''] + value + ['\''];
    assert double == "\"" + value + "\"" && single == "'" + value + "'";
    UnquotedIs(value, '"');
    UnquotedIs(value, '\'');
    PaddedLine(before, key, left, right, "\"" + value + "\"", after);
    PaddedLine(before, key, left, right, "'" + value + "'", after);
    assert Unquoted(single, '"') == single;
    if value != "" && !IsSpace(value[0]) && !IsSpace(value[|value| - 1]) {
      PaddedLine(before, key, left, right, value, after);
    }
  }

  /** A comment assigns nothing, whatever it says. */
  lemma CommentsAreSkipped(before: string, text: string, key: string)
    requires Blank(before)
    ensures LineValue(before + ("#" + text), key).None?
  {
    var line := before + ("#" + text);
    TrimEndSpec(line, |before|);
    var kept := TrimEnd(line);
    assert kept == before + kept[|before|..];
    TrimStartDrops(before, kept[|before|..]);
  }

  // ---------- the form of the written file ----------

  const CAPITALS := "ABCDEFGHIJKLMNOPQRSTUVWXYZ"
  const DIGITS := "0123456789"

  /** Which keys and values may be written: nothing that could end the line, quote, comment or interpolate. */
  lemma RefusedExactlyWhen(contents: string, assignments: seq<Assignment>)
    ensures Upsert(contents, assignments).None? <==>
      exists i :: 0 <= i < |assignments| && (
        || assignments[i].key == "" || assignments[i].key[0] !in CAPITALS || |assignments[i].value| > 256
        || (exists c :: c in assignments[i].key && c !in CAPITALS + DIGITS + "_")
        || (exists c :: c in assignments[i].value && c !in CAPITALS + DIGITS + "abcdefghijklmnopqrstuvwxyz" + "._:/@+-"))
  {
    hide NextLines, Newline, EndsWith, IsUpper, IsDigit, IsAlnum, IsValueChar, IsKeyChar;
    forall c: char
      ensures IsUpper(c) <==> c in CAPITALS
      ensures IsKeyChar(c) <==> c in CAPITALS + DIGITS + "_"
      ensures IsValueChar(c) <==> c in CAPITALS + DIGITS + "abcdefghijklmnopqrstuvwxyz" + "._:/@+-"
    {
      CapitalOrDigit(c);
      KeyChar(c);
      ValueChar(c);
    }
  }

  lemma CapitalOrDigit(c: char)
    ensures IsUpper(c) <==> c in CAPITALS
    ensures IsDigit(c) <==> c in DIGITS
  {
  }

  lemma KeyChar(c: char)
    ensures IsKeyChar(c) <==> c in CAPITALS + DIGITS + "_"
  {
    CapitalOrDigit(c);
    hide IsUpper, IsDigit;
  }

  lemma ValueChar(c: char)
    ensures IsValueChar(c) <==> c in CAPITALS + DIGITS + "abcdefghijklmnopqrstuvwxyz" + "._:/@+-"
  {
    CapitalOrDigit(c);
    SmallLetter(c);
    hide IsUpper, IsDigit;
  }

  lemma SmallLetter(c: char)
    ensures 'a' <= c <= 'z' <==> c in "abcdefghijklmnopqrstuvwxyz"
  {
  }

  /** Every line break is the pair. */
  predicate OnlyPairs(s: string) {
    forall i :: 0 <= i < |s| && s[i] == '\n' ==> i > 0 && s[i - 1] == '\r'
  }

  lemma {:induction false} JoinedPairs(parts: seq<string>)
    requires NoNewlines(parts)
    ensures OnlyPairs(Join(parts, "\r\n"))
  {
    if |parts| > 1 {
      JoinedPairs(parts[1..]);
      var head := parts[0] + "\r\n";
      var rest := Join(parts[1..], "\r\n");
      assert Join(parts, "\r\n") == head + rest;
      assert rest != "" ==> rest[0] != '\n';
    }
  }

  lemma {:induction false} JoinedWithout(parts: seq<string>)
    requires forall i :: 0 <= i < |parts| ==> '\r' !in parts[i]
    ensures '\r' !in Join(parts, "\n")
  {
    if |parts| > 1 { JoinedWithout(parts[1..]); }
  }

  lemma NoPairs(s: string)
    requires '\r' !in s
    ensures Find(s, "\r\n").None?
  {
    FindSpec(s, "\r\n");
    forall i: nat ensures !At(s, "\r\n", i) {
      assert i + 2 <= |s| ==> s[i..i + 2][0] == s[i];
    }
  }

  /**
   * The written file ends its last line, and ends its lines as the file did: where the file had a
   * carriage return before a line feed, every line feed has one, and where it had no carriage return
   * there is none.
   */
  lemma LineEndsAreKept(contents: string, assignments: seq<Assignment>)
    requires Managed(assignments)
    ensures var after := Upsert(contents, assignments);
      && after.Some? && after.value != "" && after.value[|after.value| - 1] == '\n'
      && (Find(contents, "\r\n").Some? ==> OnlyPairs(after.value))
      && ('\r' !in contents ==> '\r' !in after.value)
  {
    hide NextLines, Find, Join;
    var next, newline := NextLines(contents, assignments), Newline(contents);
    var rendered := Join(next, newline);
    NextHasNoNewline(contents, assignments);
    if Find(contents, "\r\n").Some? { JoinedPairs(next); }
    if '\r' !in contents {
      NoPairs(contents);
      NextHasNoReturn(contents, assignments);
      JoinedWithout(next);
    }
  }

  lemma NextHasNoReturn(contents: string, assignments: seq<Assignment>)
    requires Managed(assignments) && '\r' !in contents
    ensures forall i :: 0 <= i < |NextLines(contents, assignments)| ==> '\r' !in NextLines(contents, assignments)[i]
  {
    hide Rewritten, Pending, DropBlankEnd, StripReturns;
    var lines := Lines(contents);
    SplitHasNoReturn(contents);
    NoReturnsStripped(Split(contents, "\n"));
    RewrittenAllSpec(lines, assignments);
    forall i | 0 <= i < |lines| ensures '\r' !in RewrittenAll(lines, assignments)[i] {
      RewrittenHasNoReturn(lines[i], assignments);
    }
    PendingHasNoReturn(lines, assignments);
    DroppedIsPrefix(RewrittenAll(lines, assignments));
  }

  lemma {:induction false} SplitHasNoReturn(s: string)
    requires '\r' !in s
    ensures forall i :: 0 <= i < |Split(s, "\n")| ==> '\r' !in Split(s, "\n")[i]
    decreases |s|
  {
    match Find(s, "\n")
    case None =>
    case Some(i) =>
      FindSpec(s, "\n");
      SplitHasNoReturn(s[i + 1..]);
  }

  lemma {:induction false} NoReturnsStripped(parts: seq<string>)
    requires forall i :: 0 <= i < |parts| ==> '\r' !in parts[i]
    ensures StripReturns(parts) == parts
  {
    if |parts| > 1 {
      NoReturnsStripped(parts[1..]);
      assert StripReturn(parts[0]) == parts[0];
    }
  }

  lemma RewrittenHasNoReturn(line: string, assignments: seq<Assignment>)
    requires Managed(assignments) && '\r' !in line
    ensures '\r' !in Rewritten(line, assignments)
  {
    CharSpec(line, '=');
    if WriterKey(line).Some? { ValueForSpec(assignments, WriterKey(line).value); }
  }

  lemma {:induction false} PendingHasNoReturn(lines: seq<string>, assignments: seq<Assignment>)
    requires Managed(assignments)
    ensures forall i :: 0 <= i < |Pending(lines, assignments)| ==> '\r' !in Pending(lines, assignments)[i]
  {
    hide HasWriterLine;
    if assignments != [] { PendingHasNoReturn(lines, assignments[1..]); }
  }

  lemma {:induction false} DroppedIsPrefix(lines: seq<string>)
    ensures DropBlankEnd(lines) <= lines
    ensures DropBlankEnd(lines) != [] ==> DropBlankEnd(lines)[|DropBlankEnd(lines)| - 1] != ""
  {
    if lines != [] && lines[|lines| - 1] == "" { DroppedIsPrefix(lines[..|lines| - 1]); }
  }

  /** Lines that are added stand at the end, after what there was and exactly one blank line. */
  lemma AddedAtTheEnd(contents: string, assignments: seq<Assignment>)
    ensures var next, added := NextLines(contents, assignments), Pending(Lines(contents), assignments);
      var before := |next| - |added|;
      && before >= 0 && next[before..] == added
      && (added != [] && before > 0 ==> before >= 2 && next[before - 1] == "" && next[before - 2] != "")
  {
    hide Pending, Lines;
    DroppedIsPrefix(RewrittenAll(Lines(contents), assignments));
  }
}
