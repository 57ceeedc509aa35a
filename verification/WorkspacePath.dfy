/**
 * Paths of a bot in a shared computer workspace (packages/adapters/src/computer-support.ts): what
 * a bot asks for, where it is stored, and what the bot is shown. None stands for the thrown
 * "Path escapes the computer workspace".
 */
module WorkspacePath {
  import opened Basics
  import opened Text

  datatype ComputerMode = Team | Dedicated

  // ---------- normalising ----------

  function Portable(value: string): (portable: string)
    ensures |portable| == |value|
  {
    if value == "" then "" else [if value[0] == '\\' then '/' else value[0]] + Portable(value[1..])
  }

  function DropSlashes(value: string): string {
    if value != "" && value[0] == '/' then DropSlashes(value[1..]) else value
  }

  function NonEmpty(parts: seq<string>): seq<string> {
    if parts == [] then [] else (if parts[0] == "" then [] else [parts[0]]) + NonEmpty(parts[1..])
  }

  function Segments(value: string): seq<string> {
    NonEmpty(Split(DropSlashes(Portable(value)), "/"))
  }

  function Normalize(value: string): Option<string> {
    var segments := Segments(value);
    if "." in segments || ".." in segments then None else Some(Join(segments, "/"))
  }

  // ---------- path.posix.join ----------

  /** Dot segments resolved the way Node's path.posix.normalize does; `above` allows a leading "..". */
  function ResolveDots(parts: seq<string>, done: seq<string>, above: bool): seq<string>
    decreases |parts|
  {
    if parts == [] then done
    else if parts[0] == "" || parts[0] == "." then ResolveDots(parts[1..], done, above)
    else if parts[0] == ".." then
      if done != [] && done[|done| - 1] != ".." then ResolveDots(parts[1..], done[..|done| - 1], above)
      else ResolveDots(parts[1..], if above then done + [".."] else done, above)
    else ResolveDots(parts[1..], done + [parts[0]], above)
  }

  function PosixNormalize(path: string): string {
    if path == "" then "."
    else
      var absolute, trailing := path[0] == '/', path[|path| - 1] == '/';
      var body := Join(ResolveDots(Split(path, "/"), [], !absolute), "/");
      if body == "" then (if absolute then "/" else if trailing then "./" else ".")
      else (if absolute then "/" else "") + body + (if trailing then "/" else "")
  }

  function PosixJoin(a: string, b: string): string {
    PosixNormalize(if a == "" then b else if b == "" then a else a + "/" + b)
  }

  // ---------- resolving and displaying ----------

  function BotDirectory(botId: string): Option<string> {
    match Normalize(botId)
    case None => None
    case Some(bot) => Some(PosixJoin("bots", bot))
  }

  function StripVirtualRoot(value: string): Option<string> {
    var portable := Portable(value);
    if portable == "/" then Some("")
    else if "/" <= portable then Some(portable[1..])
    else None
  }

  predicate TeamRoot(value: string) {
    value == "shared" || "shared/" <= value || value == "bots" || "bots/" <= value
  }

  function Resolve(scope: ComputerMode, botId: string, request: string): Option<string> {
    if scope != Team then Some(request)
    else
      var explicitRoot := StripVirtualRoot(request);
      match Normalize(if explicitRoot.Some? then explicitRoot.value else request)
      case None => None
      case Some(normalized) =>
        if explicitRoot.Some? || TeamRoot(normalized) then Some(normalized)
        else match BotDirectory(botId)
          case None => None
          case Some(directory) => Some(PosixJoin(directory, normalized))
  }

  function BotRelative(request: string): Option<bool> {
    if StripVirtualRoot(request).Some? then Some(false)
    else match Normalize(request)
      case None => None
      case Some(normalized) => Some(!TeamRoot(normalized))
  }

  function Display(scope: ComputerMode, botId: string, request: string, stored: string): Option<string> {
    if scope != Team then Some(stored)
    else match BotRelative(request)
      case None => None
      case Some(relative) =>
        if !relative then Some(stored)
        else match (Normalize(stored), BotDirectory(botId))
          case (Some(normalized), Some(directory)) =>
            if normalized == directory then Some("")
            else if directory + "/" <= normalized then Some(normalized[|directory| + 1..])
            else Some(normalized)
          case _ => None
  }

  // ---------- clean paths ----------

  /** A segment that names a file or directory and nothing else. */
  predicate Plain(segment: string) {
    segment != "" && segment != "." && segment != ".." && '/' !in segment && '\\' !in segment
  }

  predicate AllPlain(segments: seq<string>) {
    forall segment :: segment in segments ==> Plain(segment)
  }

  lemma PlainParts(segments: seq<string>)
    requires AllPlain(segments) && segments != []
    ensures Parts(segments, "/") && Split(Join(segments, "/"), "/") == segments
  {
    hide Find, Clean, Absent;
    forall segment | segment in segments ensures Absent(segment, "/") && Clean(segment, "/") {
      OneCharAbsent(segment, '/');
    }
    assert segments[|segments| - 1] in segments;
    SplitJoin(segments, "/");
  }

  /** A non-empty clean path starts and ends with a character of a segment, and has no backslash. */
  lemma {:induction false} PlainEnds(segments: seq<string>)
    requires AllPlain(segments) && segments != []
    ensures var path := Join(segments, "/");
      path != "" && path[0] != '/' && path[|path| - 1] != '/' && '\\' !in path
  {
    assert Plain(segments[0]);
    if |segments| > 1 {
      PlainEnds(segments[1..]);
      var rest := Join(segments[1..], "/");
      var path := segments[0] + "/" + rest;
      assert Join(segments, "/") == path;
      assert path[|path| - 1] == rest[|rest| - 1];
    }
  }

  lemma {:induction false} PortableIsIdentity(value: string)
    requires '\\' !in value
    ensures Portable(value) == value
  {
    if value != "" { PortableIsIdentity(value[1..]); }
  }

  lemma {:induction false} PortableHasNoBackslash(value: string)
    ensures '\\' !in Portable(value)
  {
    if value != "" { PortableHasNoBackslash(value[1..]); }
  }

  lemma {:induction false} NonEmptyIsIdentity(parts: seq<string>)
    requires "" !in parts
    ensures NonEmpty(parts) == parts
  {
    if parts != [] { NonEmptyIsIdentity(parts[1..]); }
  }

  lemma {:induction false} NonEmptyMembers(parts: seq<string>)
    ensures forall part :: part in NonEmpty(parts) <==> part in parts && part != ""
  {
    if parts != [] { NonEmptyMembers(parts[1..]); }
  }

  lemma {:induction false} ResolveDotsIsIdentity(parts: seq<string>, done: seq<string>, above: bool)
    requires AllPlain(parts)
    ensures ResolveDots(parts, done, above) == done + parts
    decreases |parts|
  {
    if parts == [] {
      assert done + parts == done;
    } else {
      assert Plain(parts[0]);
      ResolveDotsIsIdentity(parts[1..], done + [parts[0]], above);
      assert done + [parts[0]] + parts[1..] == done + parts;
    }
  }

  /** Normalising, splitting and Node's own normalising leave a clean path as it is. */
  lemma CleanIsFixed(segments: seq<string>)
    requires AllPlain(segments)
    ensures var path := Join(segments, "/");
      && Segments(path) == segments
      && Normalize(path) == Some(path)
      && (path != "" ==> PosixNormalize(path) == path)
  {
    hide Find, Join, Split, NonEmpty, ResolveDots;
    var path := Join(segments, "/");
    if segments == [] {
      NoSegments();
    } else {
      PlainParts(segments);
      PlainEnds(segments);
      PortableIsIdentity(path);
      NonEmptyIsIdentity(segments);
      ResolveDotsIsIdentity(segments, [], true);
      assert [] + segments == segments;
    }
  }

  lemma NoSegments()
    ensures Segments("") == [] && Join<char>([], "/") == ""
  {
    assert Split("", "/") == [""];
  }

  /** Every segment of anything is free of slashes and backslashes. */
  lemma SegmentsAreSimple(value: string)
    ensures forall segment :: segment in Segments(value) ==>
      segment != "" && '/' !in segment && '\\' !in segment
  {
    hide Find, Clean, Absent;
    var text := DropSlashes(Portable(value));
    PortableHasNoBackslash(value);
    DropSlashesTakesAway(Portable(value));
    var parts := Split(text, "/");
    NonEmptyMembers(parts);
    SplitParts(text, "/");
    forall part | part in parts ensures '/' !in part && '\\' !in part {
      var i :| 0 <= i < |parts| && parts[i] == part;
      if i < |parts| - 1 { CleanPart(part); }
      OneCharAbsent(part, '/');
      if '\\' in part { PartInside(parts, i, '\\'); }
    }
  }

  lemma CleanPart(part: string)
    requires Clean(part, "/")
    ensures Absent(part, "/")
  {
    FindSpec(part, "/");
    FindSpec(part + "/", "/");
    if Find(part, "/").Some? { AtPrefix(part, "/", "/", Find(part, "/").value); }
  }

  lemma {:induction false} DropSlashesTakesAway(value: string)
    ensures forall c :: c in DropSlashes(value) ==> c in value
  {
    if value != "" && value[0] == '/' { DropSlashesTakesAway(value[1..]); }
  }

  lemma {:induction false} PartInside(parts: seq<string>, i: nat, c: char)
    requires i < |parts| && c in parts[i]
    ensures c in Join(parts, "/")
    decreases |parts|
  {
    if |parts| > 1 && i > 0 { PartInside(parts[1..], i - 1, c); }
  }

  /** Normalising yields a clean path, and fails exactly on a "." or ".." segment. */
  lemma NormalizeIsClean(value: string)
    ensures Normalize(value).Some? <==> "." !in Segments(value) && ".." !in Segments(value)
    ensures Normalize(value).Some? ==>
      && AllPlain(Segments(value))
      && Normalize(value).value == Join(Segments(value), "/")
      && Segments(Normalize(value).value) == Segments(value)
      && Normalize(Normalize(value).value) == Normalize(value)
  {
    SegmentsAreSimple(value);
    if Normalize(value).Some? { CleanIsFixed(Segments(value)); }
  }

  // ---------- what dots mean to Node ----------

  /** Walking from a directory: "." stays, ".." goes up as far as the root, a name goes down. */
  function Walk(from: seq<string>, parts: seq<string>): seq<string> {
    if parts == [] then from
    else
      var n := |parts| - 1;
      var here := Walk(from, parts[..n]);
      if parts[n] == "" || parts[n] == "." then here
      else if parts[n] == ".." then (if here == [] then [] else here[..|here| - 1])
      else here + [parts[n]]
  }

  /** No idle parts, and nothing but leading steps upwards before the names. */
  predicate Resolved(parts: seq<string>, above: bool) {
    && (forall i :: 0 <= i < |parts| ==> parts[i] != "" && parts[i] != ".")
    && (forall i :: 0 <= i < |parts| && parts[i] == ".." ==> above)
    && (forall i :: 0 < i < |parts| && parts[i] == ".." ==> parts[i - 1] == "..")
  }

  lemma WalkLast(from: seq<string>, parts: seq<string>, last: string)
    ensures Walk(from, parts + [last]) == Walk(Walk(from, parts), [last])
  {
    assert (parts + [last])[..|parts|] == parts;
    assert [last][..0] == [];
  }

  lemma {:induction false} WalkOn(from: seq<string>, a: seq<string>, b: seq<string>)
    ensures Walk(from, a + b) == Walk(Walk(from, a), b)
    decreases |b|
  {
    if b == [] {
      assert a + b == a;
    } else {
      var n := |b| - 1;
      WalkOn(from, a, b[..n]);
      assert (a + b)[..|a| + n] == a + b[..n];
    }
  }

  /** Resolving the dots leads where the parts lead, from any directory, and leaves none but leading steps up. */
  lemma {:induction false} ResolveDotsLeadsThere(from: seq<string>, parts: seq<string>, done: seq<string>, above: bool)
    requires Resolved(done, above) && (!above ==> from == [])
    ensures Resolved(ResolveDots(parts, done, above), above)
    ensures Walk(from, ResolveDots(parts, done, above)) == Walk(Walk(from, done), parts)
    decreases |parts|
  {
    if parts != [] {
      var first, rest := parts[0], parts[1..];
      assert parts == [first] + rest;
      WalkOn(Walk(from, done), [first], rest);
      OneStep(Walk(from, done), first);
      if first == "" || first == "." {
        ResolveDotsLeadsThere(from, rest, done, above);
      } else if first != ".." {
        WalkLast(from, done, first);
        ResolveDotsLeadsThere(from, rest, done + [first], above);
      } else if done != [] && done[|done| - 1] != ".." {
        ResolveDotsLeadsThere(from, rest, done[..|done| - 1], above);
      } else if above {
        WalkLast(from, done, first);
        ResolveDotsLeadsThere(from, rest, done + [".."], above);
      } else {
        ResolveDotsLeadsThere(from, rest, done, above);
      }
    }
  }

  lemma OneStep(here: seq<string>, part: string)
    ensures Walk(here, [part])
         == if part == "" || part == "." then here
            else if part == ".." then (if here == [] then [] else here[..|here| - 1])
            else here + [part]
  {
    assert [part][..0] == [];
  }

  /** Node's normal form is absolute exactly if the path is, and unless it is the root ends with a slash exactly if it does. */
  lemma PosixNormalizeShape(path: string)
    requires path != ""
    ensures var normal := PosixNormalize(path);
      && normal != "" && (path[0] == '/' <==> normal[0] == '/')
      && (normal != "/" ==> (path[|path| - 1] == '/' <==> normal[|normal| - 1] == '/'))
  {
    hide ResolveDots, Find, Split, Join;
    NormalBody(path, path[0] != '/');
  }

  /** What stands between the slashes of the normal form. */
  lemma NormalBody(path: string, above: bool)
    ensures var body := Join(ResolveDots(Split(path, "/"), [], above), "/");
      body != "" ==> body[0] != '/' && body[|body| - 1] != '/'
  {
    hide ResolveDots, Find, Split;
    var parts := Split(path, "/");
    ResolveDotsLeadsThere([], parts, [], above);
    SplitParts(path, "/");
    NoSlashes(parts);
    ResolvedMembers(parts, [], above);
    var names := ResolveDots(parts, [], above);
    if names != [] { JoinedEnds(names); }
  }

  lemma NoSlashes(parts: seq<string>)
    requires Parts(parts, "/")
    ensures forall part :: part in parts ==> '/' !in part
  {
    hide Find, Clean, Absent;
    forall part | part in parts ensures '/' !in part {
      var i :| 0 <= i < |parts| && parts[i] == part;
      if i < |parts| - 1 { CleanPart(part); }
      OneCharAbsent(part, '/');
    }
  }

  lemma {:induction false} ResolvedMembers(parts: seq<string>, done: seq<string>, above: bool)
    ensures forall part :: part in ResolveDots(parts, done, above) ==> part in parts || part in done || part == ".."
    decreases |parts|
  {
    if parts != [] {
      var rest := parts[1..];
      ResolvedMembers(rest, done, above);
      ResolvedMembers(rest, done + [parts[0]], above);
      ResolvedMembers(rest, done + [".."], above);
      if done != [] { ResolvedMembers(rest, done[..|done| - 1], above); }
    }
  }

  lemma {:induction false} JoinedEnds(names: seq<string>)
    requires names != [] && forall name :: name in names ==> name != "" && '/' !in name
    ensures var path := Join(names, "/"); path != "" && path[0] != '/' && path[|path| - 1] != '/'
  {
    assert names[0] in names;
    if |names| > 1 {
      assert forall name :: name in names[1..] ==> name in names;
      JoinedEnds(names[1..]);
      var rest := Join(names[1..], "/");
      assert Join(names, "/") == names[0] + "/" + rest;
    }
  }

  // ---------- joining and prefixes ----------

  lemma {:induction false} JoinAppend(a: seq<string>, b: seq<string>)
    requires a != [] && b != []
    ensures Join(a + b, "/") == Join(a, "/") + "/" + Join(b, "/")
    decreases |a|
  {
    if |a| == 1 {
      assert (a + b)[1..] == b;
    } else {
      assert (a + b)[1..] == a[1..] + b;
      JoinAppend(a[1..], b);
    }
  }

  /** Joining clean paths puts their segments one after the other. */
  lemma PosixJoinIsAppend(a: seq<string>, b: seq<string>)
    requires AllPlain(a) && AllPlain(b) && a != []
    ensures PosixJoin(Join(a, "/"), Join(b, "/")) == Join(a + b, "/")
  {
    hide PosixNormalize;
    PlainEnds(a);
    CleanIsFixed(a + b);
    PlainEnds(a + b);
    if b == [] {
      assert a + b == a;
    } else {
      PlainEnds(b);
      JoinAppend(a, b);
    }
  }

  /** A clean path that starts with a clean directory and a slash lies in that directory. */
  lemma {:induction false} PrefixIsInside(directory: seq<string>, path: seq<string>)
    requires AllPlain(directory) && AllPlain(path) && directory != []
    requires Join(directory, "/") + "/" <= Join(path, "/")
    ensures |directory| < |path| && path[..|directory|] == directory
    decreases |directory|
  {
    hide Find, Plain;
    var d, p := Join(directory, "/"), Join(path, "/");
    assert path == [] ==> p == "";
    SameFirst(directory, path);
    if |directory| > 1 {
      var front := directory[0] + "/";
      assert d == front + Join(directory[1..], "/") && p == front + Join(path[1..], "/");
      assert Join(directory[1..], "/") + "/" <= Join(path[1..], "/") by {
        assert (d + "/")[|front|..] == Join(directory[1..], "/") + "/";
        assert p[|front|..] == Join(path[1..], "/");
      }
      PrefixIsInside(directory[1..], path[1..]);
      assert directory == [directory[0]] + directory[1..];
      assert path[..|directory|] == [path[0]] + path[1..][..|directory| - 1];
    }
  }

  lemma SameFirst(directory: seq<string>, path: seq<string>)
    requires AllPlain(directory) && AllPlain(path) && directory != [] && path != []
    requires Join(directory, "/") + "/" <= Join(path, "/")
    ensures |path| > 1 && directory[0] == path[0]
  {
    var d, p := Join(directory, "/") + "/", Join(path, "/");
    assert Plain(directory[0]) && Plain(path[0]);
    var n, m := |directory[0]|, |path[0]|;
    assert d[..n] == directory[0] && d[n] == '/';
    assert p[..m] == path[0] && (|path| > 1 ==> p[m] == '/');
    assert p[n] == '/';
  }

  /** TeamRoot looks at the first segment only. */
  lemma TeamRootIsFirstSegment(segments: seq<string>)
    requires AllPlain(segments)
    ensures TeamRoot(Join(segments, "/")) <==> segments != [] && segments[0] in ["shared", "bots"]
  {
    var path := Join(segments, "/");
    if segments != [] {
      var first := segments[0];
      assert Plain(first) && path[..|first|] == first;
      if |segments| > 1 { assert path[|first|] == '/'; }
      RootPrefix(segments, "shared");
      RootPrefix(segments, "bots");
    }
  }

  lemma RootPrefix(segments: seq<string>, root: string)
    requires AllPlain(segments) && segments != [] && Plain(root)
    ensures Join(segments, "/") == root || root + "/" <= Join(segments, "/") <==> segments[0] == root
  {
    var path := Join(segments, "/");
    if root + "/" <= path {
      assert AllPlain([root]) && Join([root], "/") == root;
      SameFirst([root], segments);
    } else if path == root {
      PlainParts(segments);
      PlainParts([root]);
    }
    if segments[0] == root && |segments| > 1 {
      assert (root + "/") + Join(segments[1..], "/") == path;
    }
  }

  // ---------- resolving, displaying, and back ----------

  lemma BotDirectorySegments(botId: string)
    requires Normalize(botId).Some?
    ensures AllPlain(["bots"] + Segments(botId))
    ensures BotDirectory(botId) == Some(Join(["bots"] + Segments(botId), "/"))
  {
    hide PosixJoin;
    NormalizeIsClean(botId);
    assert Join(["bots"], "/") == "bots";
    PosixJoinIsAppend(["bots"], Segments(botId));
  }

  /**
   * Where a team request leads: outright to the named place below the workspace when it starts
   * with a slash of either kind or with a team root, otherwise below the bot's own directory; and
   * nowhere at all exactly when a segment of the request, or of a bot id that is needed, is "." or "..".
   */
  lemma ResolvedIsClean(botId: string, request: string)
    ensures var outright := StartsOutright(request) || StartsInTeamRoot(request);
      && (Resolve(Team, botId, request).None? <==> Normalize(request).None? || (!outright && Normalize(botId).None?))
      && (Resolve(Team, botId, request).Some? ==>
            var names := (if outright then [] else ["bots"] + Segments(botId)) + Segments(request);
            AllPlain(names) && Resolve(Team, botId, request) == Some(Join(names, "/")))
  {
    hide PosixJoin, Segments, TeamRoot;
    StripKeepsSegments(request);
    NormalizeIsClean(request);
    RelativeExactlyWhen(request);
    if Normalize(botId).Some? {
      BotDirectorySegments(botId);
      if Normalize(request).Some? {
        PosixJoinIsAppend(["bots"] + Segments(botId), Segments(request));
      }
    }
    assert [] + Segments(request) == Segments(request);
  }

  predicate StartsOutright(request: string) {
    request != "" && (request[0] == '/' || request[0] == '\\')
  }

  predicate StartsInTeamRoot(request: string) {
    Segments(request) != [] && Segments(request)[0] in ["shared", "bots"]
  }

  /** A request is the bot's own exactly if it neither starts with a slash nor in a team root, and is none with dots. */
  lemma RelativeExactlyWhen(request: string)
    ensures StripVirtualRoot(request).Some? <==> StartsOutright(request)
    ensures BotRelative(request) == Some(true) <==>
      !StartsOutright(request) && Normalize(request).Some? && !StartsInTeamRoot(request)
    ensures BotRelative(request).None? <==> !StartsOutright(request) && Normalize(request).None?
    ensures Normalize(request).Some? ==> (TeamRoot(Normalize(request).value) <==> StartsInTeamRoot(request))
  {
    hide Segments, TeamRoot;
    assert request != "" ==> Portable(request)[0] == if request[0] == '\\' then '/' else request[0];
    NormalizeIsClean(request);
    if Normalize(request).Some? { TeamRootIsFirstSegment(Segments(request)); }
  }

  /**
   * On a dedicated computer every path is taken and shown as it is; on a team's, a request that is
   * not the bot's own is shown the stored path as it is, and one with dots fails.
   */
  lemma ShownAsStored(botId: string, request: string, stored: string)
    ensures Resolve(Dedicated, botId, request) == Some(request) && Display(Dedicated, botId, request, stored) == Some(stored)
    ensures StartsOutright(request) || (Normalize(request).Some? && StartsInTeamRoot(request)) ==>
      Display(Team, botId, request, stored) == Some(stored)
    ensures !StartsOutright(request) && Normalize(request).None? ==> Display(Team, botId, request, stored).None?
  {
    hide Segments, Normalize, TeamRoot;
    RelativeExactlyWhen(request);
  }

  lemma StripKeepsSegments(request: string)
    ensures StripVirtualRoot(request).Some? ==> Segments(StripVirtualRoot(request).value) == Segments(request)
    ensures StripVirtualRoot(request).Some? ==> Normalize(StripVirtualRoot(request).value) == Normalize(request)
  {
    var portable := Portable(request);
    PortableHasNoBackslash(request);
    if StripVirtualRoot(request).Some? {
      assert portable[1..] == StripVirtualRoot(request).value;
      PortableIsIdentity(portable[1..]);
    }
  }

  /** A bot that asks for its own file is shown the path it asked for, in normal form. */
  lemma DisplayAfterResolve(botId: string, request: string)
    requires BotRelative(request) == Some(true) && Normalize(botId).Some?
    ensures Resolve(Team, botId, request).Some?
    ensures Display(Team, botId, request, Resolve(Team, botId, request).value) == Normalize(request)
  {
    hide Segments, Normalize, BotDirectory, Join;
    ResolvedIsClean(botId, request);
    RelativeExactlyWhen(request);
    NormalizeIsClean(request);
    BotDirectorySegments(botId);
    ShownInside(botId, request, Segments(request));
  }

  /** What is shown for a stored path in the bot's directory is the part below that directory. */
  lemma ShownInside(botId: string, request: string, below: seq<string>)
    requires BotRelative(request) == Some(true) && Normalize(botId).Some? && AllPlain(below)
    ensures Display(Team, botId, request, Join(["bots"] + Segments(botId) + below, "/")) == Some(Join(below, "/"))
  {
    hide Segments, Normalize, BotDirectory, BotRelative;
    var directory := ["bots"] + Segments(botId);
    BotDirectorySegments(botId);
    CleanIsFixed(directory + below);
    if below == [] {
      assert directory + below == directory;
    } else {
      JoinAppend(directory, below);
      var d := Join(directory, "/");
      assert (d + "/" + Join(below, "/"))[|d| + 1..] == Join(below, "/");
    }
  }

  /**
   * A path the bot was shown for a file in its directory leads back to that file if and only if
   * its first segment is not the name of a team root.
   */
  lemma ResolveAfterDisplay(botId: string, request: string, below: seq<string>)
    requires BotRelative(request) == Some(true) && Normalize(botId).Some? && AllPlain(below)
    ensures var stored := Join(["bots"] + Segments(botId) + below, "/");
      && Display(Team, botId, request, stored).Some?
      && (Resolve(Team, botId, Display(Team, botId, request, stored).value) == Some(stored)
          <==> (below == [] || below[0] !in ["shared", "bots"]))
  {
    hide Display, Resolve, Normalize, BotDirectory, Join, Segments, TeamRoot;
    ShownInside(botId, request, below);
    var shown := Join(below, "/");
    CleanIsFixed(below);
    TeamRootIsFirstSegment(below);
    NotVirtual(below);
    ResolvedIsClean(botId, shown);
    if below != [] && below[0] in ["shared", "bots"] {
      BotDirectorySegments(botId);
      CleanIsFixed(["bots"] + Segments(botId) + below);
      assert [] + below == below;
    }
  }

  lemma NotVirtual(below: seq<string>)
    requires AllPlain(below)
    ensures StripVirtualRoot(Join(below, "/")).None?
  {
    if below == [] {
      assert Portable("") == "";
    } else {
      PlainEnds(below);
      PortableIsIdentity(Join(below, "/"));
    }
  }

  /**
   * What is shown for any stored path: the part below the bot's directory when the path lies in it
   * segment by segment, and otherwise the whole path.
   */
  lemma DisplayCutsDirectory(botId: string, request: string, stored: string)
    requires BotRelative(request) == Some(true) && Normalize(botId).Some? && Normalize(stored).Some?
    ensures var directory, names := ["bots"] + Segments(botId), Segments(stored);
      var inside := |directory| <= |names| && names[..|directory|] == directory;
      Display(Team, botId, request, stored) == Some(Join(if inside then names[|directory|..] else names, "/"))
  {
    hide Segments, Normalize, BotDirectory, BotRelative, Join;
    var directory, names := ["bots"] + Segments(botId), Segments(stored);
    NormalizeIsClean(stored);
    BotDirectorySegments(botId);
    var d, p := Join(directory, "/"), Join(names, "/");
    assert Normalize(stored) == Some(p) && BotDirectory(botId) == Some(d);
    if |directory| <= |names| && names[..|directory|] == directory {
      var below := names[|directory|..];
      assert names == directory + below;
      ShownInside(botId, request, below);
      SameNormal(botId, request, stored, p);
    } else {
      if d == p {
        CleanIsFixed(directory);
        CleanIsFixed(names);
      }
      if d + "/" <= p { PrefixIsInside(directory, names); }
    }
  }

  lemma SameNormal(botId: string, request: string, a: string, b: string)
    requires Normalize(a) == Normalize(b)
    ensures BotRelative(request) == Some(true) ==> Display(Team, botId, request, a) == Display(Team, botId, request, b)
  {
  }
}
