/**
 * Forwarding the response head of an upgraded screen connection: the incremental search of
 * apps/web/vite.config.ts and the header filter of apps/web/src/screen-proxy.ts. A character
 * stands for one byte, as in the latin1 decoding that the filter uses.
 */
module Handshake {
  import opened Basics
  import opened Text

  const LINE_END := "\r\n"
  const HEAD_END := "\r\n\r\n"
  const MAX_HANDSHAKE := 64 * 1024
  const SENSITIVE := {"clear-site-data", "set-cookie", "set-cookie2"}

  // ---------- filtering one complete head ----------

  function Lower(s: string): string {
    if s == "" then "" else [if 'A' <= s[0] <= 'Z' then (s[0] as int + 32) as char else s[0]] + Lower(s[1..])
  }

  function Name(line: string): string {
    match Find(line, ":")
    case None => line
    case Some(i) => FindSpec(line, ":"); line[..i]
  }

  predicate Sensitive(line: string) {
    Lower(Trim(Name(line))) in SENSITIVE
  }

  function DropSensitive(lines: seq<string>): seq<string> {
    if lines == [] then []
    else (if Sensitive(lines[0]) then [] else [lines[0]]) + DropSensitive(lines[1..])
  }

  /** The first line, the status, is kept whatever it looks like. */
  function Keep(lines: seq<string>): seq<string>
    requires lines != []
  {
    [lines[0]] + DropSensitive(lines[1..])
  }

  function Head(response: string): string
    requires Find(response, HEAD_END).Some?
  {
    FindSpec(response, HEAD_END);
    response[..Find(response, HEAD_END).value]
  }

  function Body(response: string): string
    requires Find(response, HEAD_END).Some?
  {
    FindSpec(response, HEAD_END);
    response[Find(response, HEAD_END).value + 4..]
  }

  function Lines(response: string): (lines: seq<string>)
    requires Find(response, HEAD_END).Some?
    ensures lines != []
  {
    Split(Head(response), LINE_END)
  }

  function Strip(response: string): Option<string> {
    if Find(response, HEAD_END).None? then None
    else Some(Join(Keep(Lines(response)), LINE_END) + HEAD_END + Body(response))
  }

  // ---------- what the filter keeps ----------

  /** `part` can be made from `whole` by leaving elements out. */
  predicate Within(part: seq<string>, whole: seq<string>) {
    if part == [] then true
    else whole != [] && (if part[0] == whole[0] then Within(part[1..], whole[1..]) else Within(part, whole[1..]))
  }

  lemma {:induction false} DropMembers(lines: seq<string>)
    ensures forall line :: line in DropSensitive(lines) <==> line in lines && !Sensitive(line)
  {
    hide Sensitive;
    if lines != [] { DropMembers(lines[1..]); }
  }

  lemma {:induction false} DropCounts(lines: seq<string>, line: string)
    ensures multiset(DropSensitive(lines))[line] == if Sensitive(line) then 0 else multiset(lines)[line]
  {
    hide Sensitive;
    if lines != [] {
      DropCounts(lines[1..], line);
      assert lines == [lines[0]] + lines[1..];
    }
  }

  lemma {:induction false} DropKeepsOrder(lines: seq<string>)
    ensures Within(DropSensitive(lines), lines)
    decreases |lines|
  {
    hide Sensitive;
    if lines != [] {
      DropKeepsOrder(lines[1..]);
      var kept := DropSensitive(lines[1..]);
      if Sensitive(lines[0]) {
        assert DropSensitive(lines) == kept;
        WithinMore(kept, lines[0], lines[1..]);
        assert [lines[0]] + lines[1..] == lines;
      } else {
        assert DropSensitive(lines)[1..] == kept;
      }
    }
  }

  lemma {:induction false} WithinMore(part: seq<string>, line: string, whole: seq<string>)
    requires Within(part, whole)
    ensures Within(part, [line] + whole)
    decreases |whole|, 1
  {
    assert ([line] + whole)[1..] == whole;
    if part != [] && part[0] == line {
      WithinTail(part, whole);
    }
  }

  lemma {:induction false} WithinTail(part: seq<string>, whole: seq<string>)
    requires part != [] && Within(part, whole)
    ensures Within(part[1..], whole)
    decreases |whole|, 0
  {
    var more := whole[1..];
    if part[0] != whole[0] { WithinTail(part, more); }
    WithinMore(part[1..], whole[0], more);
    assert [whole[0]] + more == whole;
  }

  lemma {:induction false} DropTwice(lines: seq<string>)
    requires forall line :: line in lines ==> !Sensitive(line)
    ensures DropSensitive(lines) == lines
  {
    hide Sensitive;
    if lines != [] { DropTwice(lines[1..]); }
  }

  // ---------- which names are sensitive ----------

  /** Equal but for capitals in the first, which are small letters in the second. */
  predicate SameLetters(a: string, b: string) {
    |a| == |b| && forall i :: 0 <= i < |a| ==>
      a[i] == b[i] || ('A' <= a[i] <= 'Z' && a[i] as int + 32 == b[i] as int)
  }

  lemma {:induction false} LowerOf(a: string, b: string)
    requires SameLetters(a, b) && forall i :: 0 <= i < |b| ==> !('A' <= b[i] <= 'Z')
    ensures Lower(a) == b
  {
    if a != "" { LowerOf(a[1..], b[1..]); }
  }

  lemma {:induction false} LowerKeeps(a: string)
    ensures SameLetters(a, Lower(a)) && |Lower(a)| == |a|
  {
    if a != "" { LowerKeeps(a[1..]); }
  }

  /**
   * A header line is sensitive if and only if what stands before its first colon (or the whole line,
   * without one) is, between white space, a sensitive name in whatever capitals.
   */
  lemma SensitiveExactlyWhen(line: string, name: string)
    requires Absent(name, ":") && (line == name || exists value :: line == name + ":" + value)
    ensures Sensitive(line) <==>
      exists before, core, after, word :: IsPadded(name, before, core, after) && word in SENSITIVE && SameLetters(core, word)
  {
    NameIs(line, name);
    if Sensitive(line) {
      var before, after := TrimCore(name);
      LowerKeeps(Trim(name));
      assert IsPadded(name, before, Trim(name), after) && SameLetters(Trim(name), Lower(Trim(name)));
    }
    if before, core, after, word :| IsPadded(name, before, core, after) && word in SENSITIVE && SameLetters(core, word) {
      WordHasLetters(core, word);
      TrimDropsBlanks(before, core, after);
      LowerOf(core, word);
    }
  }

  predicate IsPadded(text: string, before: string, core: string, after: string) {
    text == before + core + after && Blank(before) && Blank(after)
  }

  lemma WordHasLetters(core: string, word: string)
    requires word in SENSITIVE && SameLetters(core, word)
    ensures core != "" && !IsSpace(core[0]) && !IsSpace(core[|core| - 1])
    ensures forall i :: 0 <= i < |word| ==> !('A' <= word[i] <= 'Z')
  {
    assert |core| == |word| > 0 && word[0] >= 'c' && word[|word| - 1] in "ae2";
  }

  lemma NameIs(line: string, name: string)
    requires Absent(name, ":") && (line == name || exists value :: line == name + ":" + value)
    ensures Name(line) == name
  {
    if line != name {
      var value :| line == name + ":" + value;
      FindSpec(name, ":");
      assert At(line, ":", |name|);
      forall j: nat | j < |name| ensures !At(line, ":", j) {
        AtPrefix(name, ":" + value, ":", j);
        assert line == name + (":" + value);
      }
      FindIs(line, ":", |name|);
    }
  }

  // ---------- heads and their lines ----------

  /** Lines that can stand in a head: no line break inside, none empty after the first. */
  predicate HeadLines(lines: seq<string>) {
    && lines != []
    && (forall line :: line in lines ==> Clean(line, LINE_END))
    && "" !in lines[1..]
  }

  /** What precedes the end of the head, as far as the first line break is concerned. */
  lemma FirstBreak(lines: seq<string>, body: string)
    requires HeadLines(lines)
    ensures Find(Join(lines, LINE_END) + HEAD_END + body, LINE_END) == Some(|lines[0]|)
  {
    var text := Join(lines, LINE_END) + HEAD_END + body;
    if |lines| == 1 {
      assert text == lines[0] + LINE_END + (LINE_END + body);
      FindClean(lines[0], LINE_END + body, LINE_END);
    } else {
      var rest := Join(lines[1..], LINE_END) + HEAD_END + body;
      assert text == lines[0] + LINE_END + rest;
      FindClean(lines[0], rest, LINE_END);
    }
  }

  lemma LastIsClean(line: string)
    requires Absent(line, LINE_END)
    ensures Clean(line, LINE_END)
  {
    var text := line + LINE_END;
    FindSpec(line, LINE_END);
    assert At(text, LINE_END, |line|);
    forall j: nat | j < |line| ensures !At(text, LINE_END, j) {
      if j + 2 <= |line| {
        AtPrefix(line, LINE_END, LINE_END, j);
      } else {
        assert text[j..j + 2] == [text[j], '\r'];
      }
    }
    FindIs(text, LINE_END, |line|);
  }

  lemma CleanIsAbsent(line: string)
    requires Clean(line, LINE_END)
    ensures Absent(line, LINE_END)
  {
    FindSpec(line, LINE_END);
    FindSpec(line + LINE_END, LINE_END);
    if Find(line, LINE_END).Some? { AtPrefix(line, LINE_END, LINE_END, Find(line, LINE_END).value); }
  }

  /** An end of head is two line breaks in a row. */
  lemma EndIsTwoBreaks(text: string, i: nat)
    ensures At(text, HEAD_END, i) <==> At(text, LINE_END, i) && At(text, LINE_END, i + 2)
  {
    if i + 4 <= |text| {
      var first, second := text[i..i + 2], text[i + 2..i + 4];
      assert text[i..i + 4] == first + second;
      if text[i..i + 4] == HEAD_END {
        assert first == text[i..i + 4][..2] == LINE_END && second == text[i..i + 4][2..] == LINE_END;
      }
    }
  }

  lemma AtSuffix(front: string, back: string, sep: string, i: nat)
    ensures At(front + back, sep, |front| + i) == At(back, sep, i)
  {
    if i + |sep| <= |back| {
      assert (front + back)[|front| + i..|front| + i + |sep|] == back[i..i + |sep|];
    }
  }

  /** Proper lines, written as a head, end where the head was ended and not before. */
  lemma {:induction false} HeadEndsAtEnd(lines: seq<string>, body: string)
    requires HeadLines(lines)
    ensures Find(Join(lines, LINE_END) + HEAD_END + body, HEAD_END) == Some(|Join(lines, LINE_END)|)
    decreases |lines|
  {
    hide Find, Join;
    var head := Join(lines, LINE_END);
    var text := head + HEAD_END + body;
    assert At(text, HEAD_END, |head|);
    FirstBreak(lines, body);
    FindSpec(text, LINE_END);
    forall j: nat | j < |head| ensures !At(text, HEAD_END, j) {
      EndIsTwoBreaks(text, j);
      if At(text, HEAD_END, j) { NoEarlierEnd(lines, body, j); }
    }
    FindIs(text, HEAD_END, |head|);
  }

  lemma {:induction false} NoEarlierEnd(lines: seq<string>, body: string, j: nat)
    requires HeadLines(lines) && j < |Join(lines, LINE_END)|
    requires At(Join(lines, LINE_END) + HEAD_END + body, HEAD_END, j)
    ensures false
    decreases |lines|, 0
  {
    hide Find;
    var text := Join(lines, LINE_END) + HEAD_END + body;
    EndIsTwoBreaks(text, j);
    FirstBreak(lines, body);
    FindSpec(text, LINE_END);
    if |lines| > 1 {
      var front, rest := lines[0] + LINE_END, Join(lines[1..], LINE_END) + HEAD_END + body;
      assert text == front + rest;
      assert text[|lines[0]| + 1] == '\n';
      if j == |lines[0]| {
        AtSuffix(front, rest, LINE_END, 0);
        FirstBreak(lines[1..], body);
        FindSpec(rest, LINE_END);
      } else if j != |lines[0]| + 1 {
        AtSuffix(front, rest, HEAD_END, j - |front|);
        NoEarlierEnd(lines[1..], body, j - |front|);
      }
    }
  }

  /** The lines of any head are proper lines. */
  lemma LinesAreProper(response: string)
    requires Find(response, HEAD_END).Some?
    ensures HeadLines(Lines(response))
    ensures response == Join(Lines(response), LINE_END) + HEAD_END + Body(response)
  {
    hide Find, Split, Join, Clean, Absent;
    FirstCut(response, HEAD_END, Find(response, HEAD_END).value);
    var lines := Lines(response);
    SplitParts(Head(response), LINE_END);
    LastIsClean(lines[|lines| - 1]);
    NoEmptyLines(Head(response), Body(response));
  }

  lemma {:induction false} NoEmptyLines(head: string, body: string)
    requires Find(head + HEAD_END + body, HEAD_END) == Some(|head|)
    ensures "" !in Split(head, LINE_END)[1..]
    decreases |head|
  {
    hide Find, Absent, Clean;
    match Find(head, LINE_END)
    case None =>
      assert |Split(head, LINE_END)| == 1;
    case Some(k) =>
      FirstCut(head, LINE_END, k);
      var front, tail := head[..k] + LINE_END, head[k + 2..];
      var text, rest := head + HEAD_END + body, tail + HEAD_END + body;
      assert text == front + rest;
      FindSpec(text, HEAD_END);
      assert At(rest, HEAD_END, |tail|);
      forall j: nat | j < |tail| ensures !At(rest, HEAD_END, j) { AtSuffix(front, rest, HEAD_END, j); }
      FindIs(rest, HEAD_END, |tail|);
      NoEmptyLines(tail, body);
      var lines := Split(tail, LINE_END);
      assert Split(head, LINE_END) == [head[..k]] + lines;
      if lines[0] == "" {
        EmptyFirstLine(tail, body);
        AtSuffix(front, rest, LINE_END, 0);
        EndIsTwoBreaks(text, k);
        assert false;
      }
  }

  lemma EmptyFirstLine(tail: string, body: string)
    requires Split(tail, LINE_END)[0] == ""
    ensures At(tail + HEAD_END + body, LINE_END, 0)
  {
    match Find(tail, LINE_END)
    case None => assert tail == "";
    case Some(k) =>
      FirstCut(tail, LINE_END, k);
      assert At(tail, LINE_END, 0);
      AtPrefix(tail, HEAD_END + body, LINE_END, 0);
      assert tail + HEAD_END + body == tail + (HEAD_END + body);
  }

  lemma KeepIsProper(lines: seq<string>)
    requires HeadLines(lines)
    ensures HeadLines(Keep(lines)) && Parts(Keep(lines), LINE_END)
  {
    hide Sensitive, Clean, Absent, DropSensitive;
    DropMembers(lines[1..]);
    var kept := Keep(lines);
    assert kept[1..] == DropSensitive(lines[1..]);
    assert lines[0] in lines && forall line :: line in lines[1..] ==> line in lines;
    forall line | line in kept ensures Clean(line, LINE_END) {
      assert line == lines[0] || line in kept[1..];
    }
    assert kept[|kept| - 1] in kept;
    CleanIsAbsent(kept[|kept| - 1]);
  }

  // ---------- what the filter promises ----------

  /**
   * The stripped response is again a head and a body: the same bytes after the boundary, and for
   * lines the status line followed by exactly the lines that are not sensitive, in their order.
   */
  lemma StripKeepsTheRest(response: string)
    requires Find(response, HEAD_END).Some?
    ensures Strip(response).Some?
    ensures var safe := Strip(response).value;
      && Find(safe, HEAD_END).Some?
      && Body(safe) == Body(response)
      && Lines(safe)[0] == Lines(response)[0]
      && (forall line :: line in Lines(safe)[1..] ==> !Sensitive(line))
      && (forall line :: multiset(Lines(safe)[1..])[line]
            == if Sensitive(line) then 0 else multiset(Lines(response)[1..])[line])
      && Within(Lines(safe)[1..], Lines(response)[1..])
  {
    hide Find, Sensitive, Within, DropSensitive, Join, Split, HeadLines;
    StripLines(response);
    var rest := Lines(response)[1..];
    DropMembers(rest);
    DropKeepsOrder(rest);
    forall line ensures multiset(DropSensitive(rest))[line] == if Sensitive(line) then 0 else multiset(rest)[line] {
      DropCounts(rest, line);
    }
    assert Keep(Lines(response))[1..] == DropSensitive(rest);
  }

  lemma StripLines(response: string)
    requires Find(response, HEAD_END).Some?
    ensures Strip(response).Some? && Find(Strip(response).value, HEAD_END).Some?
    ensures Lines(Strip(response).value) == Keep(Lines(response))
    ensures Body(Strip(response).value) == Body(response)
  {
    hide Find, Sensitive, DropSensitive, Join, Split, Keep, Clean, Absent;
    LinesAreProper(response);
    var kept := Keep(Lines(response));
    KeepIsProper(Lines(response));
    HeadEndsAtEnd(kept, Body(response));
    SplitJoin(kept, LINE_END);
    var head, body := Join(kept, LINE_END), Body(response);
    var safe := head + HEAD_END + body;
    assert safe[..|head|] == head && safe[|head| + 4..] == body;
  }

  lemma StripIsIdempotent(response: string)
    requires Find(response, HEAD_END).Some?
    ensures Strip(Strip(response).value) == Strip(response)
  {
    hide Find, Sensitive, DropSensitive, Join, Split;
    StripLines(response);
    var lines := Lines(response);
    DropMembers(lines[1..]);
    DropTwice(DropSensitive(lines[1..]));
    assert Keep(lines)[1..] == DropSensitive(lines[1..]);
    assert Keep(Keep(lines)) == Keep(lines);
  }

  /** Stripping only takes away. */
  lemma StripShrinks(response: string)
    requires Find(response, HEAD_END).Some?
    ensures |Strip(response).value| <= |response|
  {
    hide Find, Sensitive, DropSensitive, Split, Join;
    LinesAreProper(response);
    var lines := Lines(response);
    DropShortens(lines[0], lines[1..]);
    assert [lines[0]] + lines[1..] == lines;
  }

  lemma {:induction false} DropShortens(first: string, lines: seq<string>)
    ensures |Join([first] + DropSensitive(lines), LINE_END)| <= |Join([first] + lines, LINE_END)|
    decreases |lines|
  {
    hide Sensitive;
    if lines != [] {
      var rest := lines[1..];
      assert [lines[0]] + rest == lines;
      DropShortens(first, rest);
      DropShortens(lines[0], rest);
      JoinCons(first, lines, LINE_END);
      if Sensitive(lines[0]) {
        assert DropSensitive(lines) == DropSensitive(rest);
        if rest != [] {
          JoinCons(first, rest, LINE_END);
          JoinCons(lines[0], rest, LINE_END);
        }
      } else {
        var kept := DropSensitive(lines);
        assert kept == [lines[0]] + DropSensitive(rest);
        JoinCons(first, kept, LINE_END);
      }
    }
  }

  // ---------- chunk by chunk ----------

  /** The connection as the two sides see it: everything received so far, or everything sent on. */
  datatype Link = Waiting(received: string) | Refused | Piping(sent: string)

  function Next(link: Link, chunk: string): Link {
    match link
    case Waiting(received) =>
      var all := received + chunk;
      if |all| > MAX_HANDSHAKE then Refused
      else (match Strip(all) case None => Waiting(all) case Some(safe) => Piping(safe))
    case Refused => Refused
    case Piping(sent) => Piping(sent + chunk)
  }

  function Feed(chunks: seq<string>): Link {
    if chunks == [] then Waiting("") else Next(Feed(chunks[..|chunks| - 1]), chunks[|chunks| - 1])
  }

  function LastThree(s: string): string {
    if |s| <= 3 then s else s[|s| - 3..]
  }

  /** The upgraded connection while its response head is being collected. */
  class Forwarder {
    var responseChunks: seq<string>
    var responseSize: nat
    var responseTail: string
    var destroyed: bool
    var piping: bool
    var written: string

    ghost predicate Valid()
      reads this
    {
      !destroyed && !piping ==>
        var received := Concat(responseChunks);
        && responseSize == |received| <= MAX_HANDSHAKE
        && responseTail == LastThree(received)
        && Absent(received, HEAD_END)
    }

    ghost function View(): Link
      reads this
    {
      if destroyed then Refused else if piping then Piping(written) else Waiting(Concat(responseChunks))
    }

    constructor ()
      ensures Valid() && View() == Waiting("")
    {
      responseChunks, responseSize, responseTail, destroyed, piping, written := [], 0, "", false, false, "";
    }

    /** A destroyed connection yields no data; a piped one passes it on untouched. */
    method OnData(chunk: string)
      requires Valid()
      modifies this
      ensures Valid() && View() == Next(old(View()), chunk)
    {
      hide Find, Join, Keep, Split;
      if destroyed { return; }
      if piping {
        written := written + chunk;
        return;
      }
      ghost var received := Concat(responseChunks);
      assert (responseChunks + [chunk])[..|responseChunks|] == responseChunks;
      TailSuffices(received, chunk);
      responseChunks := responseChunks + [chunk];
      responseSize := responseSize + |chunk|;
      if responseSize > MAX_HANDSHAKE {
        destroyed := true;
        return;
      }
      var boundarySearch := responseTail + chunk;
      if Find(boundarySearch, HEAD_END).None? {
        responseTail := LastThree(boundarySearch);
        return;
      }
      var responseHead := Concat(responseChunks);
      var safe := Strip(responseHead);
      if safe.None? {
        // The source destroys the connection here; the search above has found the end of the head.
        assert false;
      }
      written := safe.value;
      piping := true;
    }
  }

  /** Three kept bytes are enough: the end of the head is seen in the same chunk as in the whole text. */
  lemma TailSuffices(received: string, chunk: string)
    requires Absent(received, HEAD_END)
    ensures Find(LastThree(received) + chunk, HEAD_END).Some? <==> Find(received + chunk, HEAD_END).Some?
    ensures LastThree(LastThree(received) + chunk) == LastThree(received + chunk)
  {
    var tail := LastThree(received);
    var front := received[..|received| - |tail|];
    assert received + chunk == front + (tail + chunk);
    FindSpec(received, HEAD_END);
    FindSpec(received + chunk, HEAD_END);
    FindSpec(tail + chunk, HEAD_END);
    if Find(received + chunk, HEAD_END).Some? {
      var j := Find(received + chunk, HEAD_END).value;
      if j < |front| {
        AtPrefix(received, chunk, HEAD_END, j);
      } else {
        AtSuffix(front, tail + chunk, HEAD_END, j - |front|);
      }
    }
    if Find(tail + chunk, HEAD_END).Some? {
      AtSuffix(front, tail + chunk, HEAD_END, Find(tail + chunk, HEAD_END).value);
    }
  }

  // ---------- however the response is cut ----------

  /** What follows the boundary takes no part in the filtering. */
  lemma StripAppend(response: string, more: string)
    requires Find(response, HEAD_END).Some?
    ensures Strip(response + more) == Some(Strip(response).value + more)
  {
    hide Find, Split, Join, Keep;
    FindPrefix(response, more, HEAD_END);
    FindSpec(response, HEAD_END);
    assert Head(response + more) == Head(response);
    assert Body(response + more) == Body(response) + more;
    var front := Join(Keep(Lines(response)), LINE_END) + HEAD_END;
    assert front + (Body(response) + more) == (front + Body(response)) + more;
  }

  /**
   * After any chunks: what the browser has got is the filtered form of all that was received; a
   * response within the limit is never refused, one whose head goes over it always is.
   */
  lemma {:induction false} FeedFilters(chunks: seq<string>)
    ensures var all := Concat(chunks);
      match Feed(chunks)
      case Waiting(received) => received == all && |all| <= 65_536 && Strip(all) == None
      case Refused => |all| > 65_536
      case Piping(sent) => Strip(all) == Some(sent) && Find(all, HEAD_END).value + 4 <= 65_536
    decreases |chunks|
  {
    hide Find, Split, Join, Keep;
    if chunks == [] {
      FindSpec("", HEAD_END);
    } else {
      var before, chunk := chunks[..|chunks| - 1], chunks[|chunks| - 1];
      FeedFilters(before);
      var all := Concat(before) + chunk;
      if Feed(before).Piping? {
        StripAppend(Concat(before), chunk);
        FindPrefix(Concat(before), chunk, HEAD_END);
      } else if Strip(all).Some? {
        FindSpec(all, HEAD_END);
      }
    }
  }

  /** Forwarding starts exactly when some prefix of the chunks holds the whole head within the limit. */
  lemma {:induction false} ForwardedExactlyWhen(chunks: seq<string>)
    ensures Feed(chunks).Piping? <==>
      exists k: nat :: k <= |chunks| && |Concat(chunks[..k])| <= 65_536 && Strip(Concat(chunks[..k])).Some?
    decreases |chunks|
  {
    hide Strip, Concat;
    if chunks == [] {
      FeedFilters(chunks);
      assert chunks[..0] == chunks;
    } else {
      var n := |chunks| - 1;
      var before := chunks[..n];
      ForwardedExactlyWhen(before);
      FeedFilters(chunks);
      assert chunks[..n + 1] == chunks;
      forall k: nat | k <= n ensures before[..k] == chunks[..k] {}
      if Feed(chunks).Piping? && !Feed(before).Piping? {
        WaitedUntilNow(chunks);
      }
    }
  }

  lemma WaitedUntilNow(chunks: seq<string>)
    requires chunks != [] && Feed(chunks).Piping? && !Feed(chunks[..|chunks| - 1]).Piping?
    ensures |Concat(chunks)| <= 65_536 && Strip(Concat(chunks)).Some?
  {
    hide Strip;
    FeedFilters(chunks[..|chunks| - 1]);
  }

  /** Two ways of cutting one response that are both forwarded give the browser the same bytes. */
  lemma CutsDoNotMatter(a: seq<string>, b: seq<string>)
    requires Concat(a) == Concat(b) && Feed(a).Piping? && Feed(b).Piping?
    ensures Feed(a) == Feed(b)
  {
    FeedFilters(a);
    FeedFilters(b);
  }

  /** The first write to the browser, the filtered head with what came along, is within the limit. */
  lemma FirstWriteIsBounded(link: Link, chunk: string)
    requires link.Waiting? && Next(link, chunk).Piping?
    ensures |Next(link, chunk).sent| <= 65_536
  {
    hide Find, Split, Join, Keep;
    StripShrinks(link.received + chunk);
  }
}
