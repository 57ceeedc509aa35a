/**
 * Shell command lines built by quoting every word (packages/adapters/src/computer-support.ts,
 * packages/adapters/src/box-sandbox.ts), read back by the token recognition and quoting rules of
 * POSIX.1-2017, Shell Command Language, sections 2.2 and 2.3.
 */
module ShellQuote {
  import opened Basics
  import opened Text

  // ---------- writing ----------

  /** The value with each single quote closed, written in double quotes, and reopened. */
  function Escape(value: string): string {
    if value == "" then ""
    else (if value[0] == '\'' then "'\"'\"'" else [value[0]]) + Escape(value[1..])
  }

  function Quote(value: string): string {
    "'" + Escape(value) + "'"
  }

  function QuoteAll(argv: seq<string>): (quoted: seq<string>)
    ensures |quoted| == |argv|
  {
    if argv == [] then [] else [Quote(argv[0])] + QuoteAll(argv[1..])
  }

  function CommandLine(argv: seq<string>): string {
    Join(QuoteAll(argv), " ")
  }

  function Assignments(env: seq<(string, string)>): seq<string> {
    if env == [] then [] else [env[0].0 + "=" + env[0].1] + Assignments(env[1..])
  }

  /** The words one command request asks for. */
  function Requested(argv: seq<string>, env: seq<(string, string)>): seq<string> {
    (if env == [] then [] else ["env"] + Assignments(env)) + (if argv == [] then ["true"] else argv)
  }

  const COMPLETION_SCRIPT :=
    "\"$@\"; status=$?; " + "if [ \"$status\" -eq 124 ]; " + "then : > \"$0\"; fi; " + "exit \"$status\""

  function TimeoutWords(command: string, seconds: string, marker: string): seq<string> {
    ["timeout", "--kill-after=1s", seconds + "s", "sh", "-c", COMPLETION_SCRIPT, marker, "bash", "-lc", command]
  }

  /** What is sent to the box: the request as one word of an outer command line. */
  function TimeoutCommand(command: string, seconds: string, marker: string): string {
    CommandLine(TimeoutWords(command, seconds, marker))
  }

  // ---------- reading ----------

  datatype Mode = Unquoted | InSingle | InDouble

  /** Unquoted characters that stand for themselves wherever they occur in a word. */
  predicate Plain(c: char) {
    'a' <= c <= 'z' || 'A' <= c <= 'Z' || '0' <= c <= '9' || c in "_-./,:+@"
  }

  function Started(word: Option<string>): string {
    match word case None => "" case Some(w) => w
  }

  function Emit(word: Option<string>, rest: Option<seq<string>>): Option<seq<string>> {
    match (word, rest)
    case (_, None) => None
    case (None, Some(words)) => Some(words)
    case (Some(w), Some(words)) => Some([w] + words)
  }

  /**
   * The words of one simple command, after quote removal; None when the text is not just words: a
   * quote left open, a NUL, an operator, or an unquoted character that starts an expansion, a
   * pattern, a comment or an assignment. `word` is the word being collected, if one has begun.
   */
  function Scan(s: string, mode: Mode, word: Option<string>): Option<seq<string>>
    decreases |s|
  {
    if s == "" then
      if mode.Unquoted? then Emit(word, Some([])) else None
    else
      var c, rest := s[0], s[1..];
      var sofar := Started(word);
      if c == 0 as char then None
      else match mode
        case InSingle =>
          if c == '\'' then Scan(rest, Unquoted, Some(sofar)) else Scan(rest, InSingle, Some(sofar + [c]))
        case InDouble =>
          if c == '\"' then Scan(rest, Unquoted, Some(sofar))
          else if c == '$' || c == '`' then None
          else if c == '\\' && rest != "" && rest[0] in "$`\"\\" then
            Scan(rest[1..], InDouble, Some(sofar + [rest[0]]))
          else if c == '\\' && rest != "" && rest[0] == '\n' then Scan(rest[1..], InDouble, Some(sofar))
          else Scan(rest, InDouble, Some(sofar + [c]))
        case Unquoted =>
          if c == '\'' then Scan(rest, InSingle, Some(sofar))
          else if c == '\"' then Scan(rest, InDouble, Some(sofar))
          else if c == ' ' || c == '\t' then Emit(word, Scan(rest, Unquoted, None))
          else if c == '\\' && rest != "" && rest[0] == '\n' then Scan(rest[1..], Unquoted, word)
          else if c == '\\' && rest != "" && rest[0] != 0 as char then
            Scan(rest[1..], Unquoted, Some(sofar + [rest[0]]))
          else if Plain(c) then Scan(rest, Unquoted, Some(sofar + [c]))
          else None
  }

  function Tokenize(s: string): Option<seq<string>> {
    Scan(s, Unquoted, None)
  }

  /** What an argument of a process may hold. */
  predicate NulFree(value: string) {
    0 as char !in value
  }

  predicate AllNulFree(argv: seq<string>) {
    forall i :: 0 <= i < |argv| ==> NulFree(argv[i])
  }

  // ---------- reading undoes writing ----------

  /** The five characters written for a single quote, read from inside single quotes. */
  lemma ScanReopen(rest: string, sofar: string)
    ensures Scan("'\"'\"'" + rest, InSingle, Some(sofar)) == Scan(rest, InSingle, Some(sofar + "'"))
  {
    var s := "'\"'\"'" + rest;
    assert s[1..] == "\"'\"'" + rest;
    assert s[1..][1..] == "'\"'" + rest;
    assert s[1..][1..][1..] == "\"'" + rest;
    assert s[1..][1..][1..][1..] == "'" + rest;
    assert s[1..][1..][1..][1..][1..] == rest;
    assert sofar + ['\''] == sofar + "'";
    assert Scan(s, InSingle, Some(sofar)) == Scan(s[1..], Unquoted, Some(sofar));
    assert Scan(s[1..], Unquoted, Some(sofar)) == Scan(s[1..][1..], InDouble, Some(sofar));
    assert Scan(s[1..][1..], InDouble, Some(sofar)) == Scan(s[1..][1..][1..], InDouble, Some(sofar + "'"));
    assert Scan(s[1..][1..][1..], InDouble, Some(sofar + "'")) == Scan("'" + rest, Unquoted, Some(sofar + "'"));
  }

  lemma {:induction false} ScanEscaped(value: string, rest: string, sofar: string)
    ensures Scan(Escape(value) + "'" + rest, InSingle, Some(sofar))
         == if NulFree(value) then Scan(rest, Unquoted, Some(sofar + value)) else None
    decreases |value|
  {
    var s := Escape(value) + "'" + rest;
    if value == "" {
      assert s[1..] == rest && sofar + value == sofar;
    } else {
      var c, more := value[0], value[1..];
      var tail := Escape(more) + "'" + rest;
      assert value == [c] + more;
      assert sofar + [c] + more == sofar + value;
      ScanEscaped(more, rest, sofar + [c]);
      if c == '\'' {
        assert s == "'\"'\"'" + tail;
        ScanReopen(tail, sofar);
      } else {
        assert s == [c] + tail && s[1..] == tail;
      }
    }
  }

  /** A quoted value is exactly one word, empty or not, wherever it stands in the line. */
  lemma ScanQuoted(value: string, rest: string)
    ensures Scan(Quote(value) + rest, Unquoted, None)
         == if NulFree(value) then Scan(rest, Unquoted, Some(value)) else None
  {
    var s := Quote(value) + rest;
    assert s[0] == '\'' && s[1..] == Escape(value) + "'" + rest;
    ScanEscaped(value, rest, "");
    assert "" + value == value;
  }

  /**
   * The shell reads the command line as the very words it was built from, and as nothing at all
   * exactly when one of them holds a NUL.
   */
  lemma {:induction false} TokenizeCommandLine(argv: seq<string>)
    ensures Tokenize(CommandLine(argv)) == if AllNulFree(argv) then Some(argv) else None
    decreases |argv|
  {
    hide Scan, Quote;
    if argv == [] {
      assert Tokenize("") == Some([]) by { EmptyLine(); }
    } else {
      var first, more := argv[0], argv[1..];
      assert argv == [first] + more;
      if more == [] {
        assert argv == [first] && CommandLine(argv) == Quote(first) + "";
        ScanQuoted(first, "");
        EndOfLine(first);
      } else {
        assert QuoteAll(argv)[1..] == QuoteAll(more);
        assert CommandLine(argv) == Quote(first) + (" " + CommandLine(more));
        ScanQuoted(first, " " + CommandLine(more));
        BlankEndsWord(first, CommandLine(more));
        TokenizeCommandLine(more);
      }
    }
  }

  lemma EmptyLine()
    ensures Tokenize("") == Some([])
  {
  }

  lemma EndOfLine(word: string)
    ensures Scan("", Unquoted, Some(word)) == Some([word])
  {
    assert [word] + [] == [word];
  }

  lemma BlankEndsWord(word: string, rest: string)
    ensures Scan(" " + rest, Unquoted, Some(word)) == Emit(Some(word), Tokenize(rest))
  {
    assert (" " + rest)[1..] == rest;
  }

  /** No choice of arguments makes one command line pass for another. */
  lemma CommandLineIsInjective(a: seq<string>, b: seq<string>)
    requires AllNulFree(a) && CommandLine(a) == CommandLine(b)
    ensures a == b
  {
    TokenizeCommandLine(a);
    TokenizeCommandLine(b);
  }

  lemma {:induction false} AssignmentsNulFree(env: seq<(string, string)>)
    requires forall i :: 0 <= i < |env| ==> NulFree(env[i].0) && NulFree(env[i].1)
    ensures AllNulFree(Assignments(env))
  {
    if env != [] { AssignmentsNulFree(env[1..]); }
  }

  lemma RequestedNulFree(argv: seq<string>, env: seq<(string, string)>)
    requires AllNulFree(argv) && forall i :: 0 <= i < |env| ==> NulFree(env[i].0) && NulFree(env[i].1)
    ensures AllNulFree(Requested(argv, env))
  {
    AssignmentsNulFree(env);
  }

  lemma ScriptNulFree()
    ensures NulFree(COMPLETION_SCRIPT)
  {
    assert NulFree("\"$@\"; status=$?; ") && NulFree("if [ \"$status\" -eq 124 ]; ");
    assert NulFree("then : > \"$0\"; fi; ") && NulFree("exit \"$status\"");
  }

  lemma TimeoutWordsNulFree(command: string, seconds: string, marker: string)
    requires NulFree(command) && NulFree(seconds) && NulFree(marker)
    ensures AllNulFree(TimeoutWords(command, seconds, marker))
  {
    assert forall w :: w in ["timeout", "--kill-after=1s", "sh", "-c", "bash", "-lc"] ==> NulFree(w);
    assert NulFree(seconds + "s");
    ScriptNulFree();
    var words := TimeoutWords(command, seconds, marker);
    forall i | 0 <= i < |words| ensures NulFree(words[i]) {
      assert words[i] in ["timeout", "--kill-after=1s", "sh", "-c", "bash", "-lc"] || i in [2, 5, 6, 9];
    }
  }

  /**
   * Both levels of the command sent to the box: the outer shell starts `timeout` with the limit and
   * a shell, which runs the completion script with the marker as its name and a login shell as its
   * arguments; what that one is told to run reads as the requested command with its environment.
   */
  lemma TwoLevelsRoundTrip(argv: seq<string>, env: seq<(string, string)>, seconds: string, marker: string)
    requires AllNulFree(argv) && NulFree(seconds) && NulFree(marker) && seconds != "" && seconds[0] != '-'
    requires forall i :: 0 <= i < |env| ==> NulFree(env[i].0) && NulFree(env[i].1)
    ensures var inner := CommandLine(Requested(argv, env));
      var outer := Tokenize(TimeoutCommand(inner, seconds, marker));
      && outer.Some? && |outer.value| == 10 && outer.value[0] == "timeout"
      && var started := TimeoutSpawn(outer.value[1..]);
      && started.Some? && started.value.options == ["--kill-after=1s"] && started.value.duration == seconds + "s"
      && ShSpawn(started.value.command) == Some(ShRun(
           "\"$@\"; status=$?; " + "if [ \"$status\" -eq 124 ]; " + "then : > \"$0\"; fi; " + "exit \"$status\"",
           marker, ["bash", "-lc", inner]))
      && Tokenize(inner) == Some(Requested(argv, env))
  {
    hide Tokenize, CommandLine, NulFree, AllNulFree;
    RequestedNulFree(argv, env);
    var words := Requested(argv, env);
    TokenizeCommandLine(words);
    var inner := CommandLine(words);
    CommandLineNulFree(words);
    TimeoutWordsNulFree(inner, seconds, marker);
    TokenizeCommandLine(TimeoutWords(inner, seconds, marker));
    TimeoutRuns(inner, seconds, marker);
  }

  lemma TimeoutRuns(command: string, seconds: string, marker: string)
    requires seconds != "" && seconds[0] != '-'
    ensures var words := TimeoutWords(command, seconds, marker);
      && |words| == 10 && words[0] == "timeout"
      && var started := TimeoutSpawn(words[1..]);
      && started.Some? && started.value.options == ["--kill-after=1s"] && started.value.duration == seconds + "s"
      && ShSpawn(started.value.command) == Some(ShRun(
           "\"$@\"; status=$?; " + "if [ \"$status\" -eq 124 ]; " + "then : > \"$0\"; fi; " + "exit \"$status\"",
           marker, ["bash", "-lc", command]))
  {
    var words := TimeoutWords(command, seconds, marker);
    var shell := ["sh", "-c", COMPLETION_SCRIPT, marker, "bash", "-lc", command];
    assert words[2..][0] == seconds + "s" && words[2..][1..] == shell;
    assert words[1..][1..] == words[2..];
    assert TimeoutSpawn(words[2..]) == Some(Limited([], seconds + "s", shell));
    assert shell[4..] == ["bash", "-lc", command];
  }

  lemma {:induction false} EscapeNulFree(value: string)
    requires NulFree(value)
    ensures NulFree(Escape(value))
  {
    if value != "" { EscapeNulFree(value[1..]); }
  }

  lemma {:induction false} CommandLineNulFree(argv: seq<string>)
    requires AllNulFree(argv)
    ensures NulFree(CommandLine(argv))
  {
    if argv != [] {
      EscapeNulFree(argv[0]);
      CommandLineNulFree(argv[1..]);
      assert QuoteAll(argv)[1..] == QuoteAll(argv[1..]);
    }
  }

  // ---------- what the request runs ----------

  datatype Limited = Limited(options: seq<string>, duration: string, command: seq<string>)

  /** How `timeout` takes its operands: options, then the duration, then the command. */
  function TimeoutSpawn(operands: seq<string>): Option<Limited> {
    if operands == [] then None
    else if operands[0] != "" && operands[0][0] == '-' then
      match TimeoutSpawn(operands[1..])
      case None => None
      case Some(more) => Some(more.(options := [operands[0]] + more.options))
    else Some(Limited([], operands[0], operands[1..]))
  }

  datatype ShRun = ShRun(script: string, zero: string, args: seq<string>)

  /** How `sh -c` takes its operands (POSIX.1-2017, sh): the script, the name it runs under, its arguments. */
  function ShSpawn(words: seq<string>): Option<ShRun> {
    if |words| >= 4 && words[0] == "sh" && words[1] == "-c" then Some(ShRun(words[2], words[3], words[4..])) else None
  }

  datatype Spawn = Spawn(vars: seq<(string, string)>, words: seq<string>)

  /** How `env` takes its operands (POSIX.1-2017, env): leading ones with an equals sign are variables. */
  function EnvSpawn(operands: seq<string>): Spawn {
    if operands == [] then Spawn([], [])
    else match Find(operands[0], "=")
      case None => Spawn([], operands)
      case Some(i) =>
        FindSpec(operands[0], "=");
        var more := EnvSpawn(operands[1..]);
        Spawn([(operands[0][..i], operands[0][i + 1..])] + more.vars, more.words)
  }

  /** What a variable's word is taken for: it is cut at its first equals sign. */
  function Cut(pair: (string, string)): (string, string) {
    var word := pair.0 + "=" + pair.1;
    FirstEquals(pair.0, pair.1);
    var i := Find(word, "=").value;
    (word[..i], word[i + 1..])
  }

  function CutAll(env: seq<(string, string)>): (cut: seq<(string, string)>)
    ensures |cut| == |env| && forall i :: 0 <= i < |env| ==> cut[i] == Cut(env[i])
  {
    if env == [] then [] else [Cut(env[0])] + CutAll(env[1..])
  }

  lemma FirstEquals(key: string, value: string)
    ensures var i := Find(key + "=" + value, "=");
      && i.Some? && i.value <= |key|
      && (i.value == |key| <==> Absent(key, "="))
  {
    var word := key + "=" + value;
    FindSpec(word, "=");
    FindSpec(key, "=");
    assert At(word, "=", |key|);
    assert word == key + ("=" + value);
    forall j: nat | j < |key| ensures At(word, "=", j) == At(key, "=", j) { AtPrefix(key, "=" + value, "=", j); }
  }

  /** The pair comes through exactly when its name holds no equals sign. */
  lemma CutIsPair(pair: (string, string))
    ensures Cut(pair) == pair <==> Absent(pair.0, "=")
  {
    hide Find, Absent;
    var word := pair.0 + "=" + pair.1;
    FirstEquals(pair.0, pair.1);
    assert word[..|pair.0|] == pair.0 && word[|pair.0| + 1..] == pair.1;
  }

  lemma EnvSpawnOne(pair: (string, string), operands: seq<string>)
    ensures EnvSpawn([pair.0 + "=" + pair.1] + operands)
         == Spawn([Cut(pair)] + EnvSpawn(operands).vars, EnvSpawn(operands).words)
  {
    hide Find;
    FirstEquals(pair.0, pair.1);
    assert ([pair.0 + "=" + pair.1] + operands)[1..] == operands;
  }

  lemma {:induction false} EnvSpawnAssignments(env: seq<(string, string)>, words: seq<string>)
    ensures EnvSpawn(Assignments(env) + words) == Spawn(CutAll(env) + EnvSpawn(words).vars, EnvSpawn(words).words)
  {
    hide Cut, EnvSpawn;
    if env == [] {
      assert Assignments(env) + words == words;
      assert CutAll(env) + EnvSpawn(words).vars == EnvSpawn(words).vars;
    } else {
      EnvSpawnAssignments(env[1..], words);
      var operands := Assignments(env[1..]) + words;
      EnvSpawnOne(env[0], operands);
      assert Assignments(env) + words == [env[0].0 + "=" + env[0].1] + operands;
      assert [Cut(env[0])] + (CutAll(env[1..]) + EnvSpawn(words).vars) == CutAll(env) + EnvSpawn(words).vars;
    }
  }

  /** Without an environment the requested words are the program's own, or `true` if there are none. */
  lemma PlainRequest(argv: seq<string>)
    ensures Requested(argv, []) == if argv == [] then ["true"] else argv
  {
    var none: seq<string> := [];
    assert none + argv == argv;
  }

  lemma FirstOperand(operands: seq<string>)
    requires operands != []
    ensures if Absent(operands[0], "=") then EnvSpawn(operands) == Spawn([], operands) else EnvSpawn(operands).vars != []
  {
    hide Find;
  }

  /**
   * With an environment, the program that starts is the requested one with exactly the requested
   * variables if and only if no equals sign stands in its name or in a variable's; otherwise a name
   * is cut there, or the program's becomes a variable.
   */
  lemma EnvironmentReachesProgram(argv: seq<string>, env: seq<(string, string)>)
    requires env != []
    ensures var words := Requested(argv, env);
      var program := if argv == [] then ["true"] else argv;
      && words[0] == "env"
      && (EnvSpawn(words[1..]) == Spawn(env, program) <==>
           Absent(program[0], "=") && forall i :: 0 <= i < |env| ==> Absent(env[i].0, "="))
      && (Absent(program[0], "=") ==> EnvSpawn(words[1..]) == Spawn(CutAll(env), program))
  {
    hide Absent, EnvSpawn, Assignments, Cut;
    var words := Requested(argv, env);
    var program := if argv == [] then ["true"] else argv;
    assert words[1..] == Assignments(env) + program;
    EnvSpawnAssignments(env, program);
    FirstOperand(program);
    var cut := CutAll(env);
    assert Absent(program[0], "=") ==> cut + [] == cut;
    forall i | 0 <= i < |env| ensures cut[i] == env[i] <==> Absent(env[i].0, "=") { CutIsPair(env[i]); }
    assert cut == env <==> forall i :: 0 <= i < |env| ==> Absent(env[i].0, "=") by {
      if forall i :: 0 <= i < |env| ==> Absent(env[i].0, "=") { assert forall i :: 0 <= i < |env| ==> cut[i] == env[i]; }
    }
  }
}
