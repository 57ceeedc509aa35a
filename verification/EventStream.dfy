/**
 * The event stream reader of the mobile client (apps/mobile/lib/api.ts): frames end in a blank
 * line, and arrive cut into arbitrary pieces.
 */
module EventStream {
  import opened Basics
  import opened Text

  const BLANK_LINE := "\n\n"

  // ---------- the whole stream at once ----------

  /** The frames that a blank line ends; what follows the last blank line is not a frame yet. */
  function Complete(stream: string): seq<string> {
    var parts := Split(stream, BLANK_LINE);
    parts[..|parts| - 1]
  }

  function Unfinished(stream: string): string {
    var parts := Split(stream, BLANK_LINE);
    parts[|parts| - 1]
  }

  function Payload(lines: seq<string>): string {
    if lines == [] then ""
    else (if "data:" <= lines[0] then Trim(lines[0][5..]) else "") + Payload(lines[1..])
  }

  /** The event a frame carries, if it carries one. `parse` is the JSON reader with its type test. */
  function Event<E>(frame: string, parse: string -> Option<E>): Option<E> {
    var data := Payload(Split(frame, "\n"));
    if data == "" || data == "[DONE]" then None else parse(data)
  }

  function Deliver<E>(frames: seq<string>, parse: string -> Option<E>): seq<E> {
    if frames == [] then []
    else
      var n := |frames| - 1;
      Deliver(frames[..n], parse) + match Event(frames[n], parse) case None => [] case Some(e) => [e]
  }

  // ---------- piece by piece ----------

  /**
   * Reads pieces until they end or the subscription is aborted, which is noticed before a read.
   * However the stream is cut, the events are those of the frames of everything that was read.
   */
  method Subscribe<E>(pieces: seq<string>, abortedBefore: nat, parse: string -> Option<E>)
    returns (events: seq<E>)
    ensures var read := if abortedBefore < |pieces| then abortedBefore else |pieces|;
      events == Deliver(Complete(Concat(pieces[..read])), parse)
  {
    hide Event, Find, At, Complete, Unfinished, Concat;
    var buffer, i := "", 0;
    events := [];
    NothingYet(parse);
    assert pieces[..0] == [];
    while i < |pieces| && i != abortedBefore
      invariant i <= |pieces| && i <= abortedBefore
      invariant buffer == Unfinished(Concat(pieces[..i]))
      invariant events == Deliver(Complete(Concat(pieces[..i])), parse)
    {
      ghost var before, delivered := Concat(pieces[..i]), events;
      ReadPiece(pieces, i);
      buffer := buffer + pieces[i];
      ghost var text := buffer;
      var frames := Split(buffer, BLANK_LINE);
      SplitsInTwo(text);
      buffer := frames[|frames| - 1];
      frames := frames[..|frames| - 1];
      var k := 0;
      while k < |frames|
        invariant k <= |frames|
        invariant events == delivered + Deliver(frames[..k], parse)
      {
        DeliverOne(frames, k, parse);
        var event := Event(frames[k], parse);
        if event.Some? { events := events + [event.value]; }
        k := k + 1;
      }
      assert frames[..k] == frames;
      DeliverAppend(Complete(before), frames, parse);
      i := i + 1;
    }
  }

  lemma ReadPiece(pieces: seq<string>, i: nat)
    requires i < |pieces|
    ensures var before := Concat(pieces[..i]);
      && Complete(Concat(pieces[..i + 1])) == Complete(before) + Complete(Unfinished(before) + pieces[i])
      && Unfinished(Concat(pieces[..i + 1])) == Unfinished(Unfinished(before) + pieces[i])
  {
    assert pieces[..i + 1][..i] == pieces[..i];
    AppendPiece(Concat(pieces[..i]), pieces[i]);
  }

  lemma SplitsInTwo(text: string)
    ensures var parts := Split(text, BLANK_LINE);
      parts[..|parts| - 1] == Complete(text) && parts[|parts| - 1] == Unfinished(text)
  {
  }

  lemma DeliverOne<E>(frames: seq<string>, k: nat, parse: string -> Option<E>)
    requires k < |frames|
    ensures Deliver(frames[..k + 1], parse) == Deliver(frames[..k], parse)
          + match Event(frames[k], parse) case None => [] case Some(e) => [e]
  {
    assert frames[..k + 1][..k] == frames[..k];
  }

  lemma NothingYet<E>(parse: string -> Option<E>)
    ensures Concat([]) == "" && Unfinished("") == "" && Deliver(Complete(""), parse) == []
  {
    assert Split("", BLANK_LINE) == [""];
  }

  /** What one more piece completes is found in the kept remainder and the piece alone. */
  lemma AppendPiece(stream: string, piece: string)
    ensures Complete(stream + piece) == Complete(stream) + Complete(Unfinished(stream) + piece)
    ensures Unfinished(stream + piece) == Unfinished(Unfinished(stream) + piece)
  {
    hide Find, Split;
    SplitAppend(stream, piece, BLANK_LINE);
    var before := Split(stream, BLANK_LINE);
    var added := Split(Unfinished(stream) + piece, BLANK_LINE);
    assert Split(stream + piece, BLANK_LINE) == before[..|before| - 1] + added;
  }

  // ---------- consequences ----------

  lemma {:induction false} DeliverAppend<E>(a: seq<string>, b: seq<string>, parse: string -> Option<E>)
    ensures Deliver(a + b, parse) == Deliver(a, parse) + Deliver(b, parse)
    decreases |b|
  {
    if b == [] {
      assert a + b == a;
    } else {
      var n := |b| - 1;
      assert (a + b)[..|a| + n] == a + b[..n];
      DeliverAppend(a, b[..n], parse);
    }
  }

  /** Reading on never changes or reorders what was delivered: an abort only cuts the end off. */
  lemma DeliveredIsFinal<E>(read: seq<string>, more: seq<string>, parse: string -> Option<E>)
    ensures Deliver(Complete(Concat(read)), parse) <= Deliver(Complete(Concat(read + more)), parse)
  {
    hide Complete, Unfinished, Deliver, Concat;
    ConcatAppend(read, more);
    AppendPiece(Concat(read), Concat(more));
    DeliverAppend(Complete(Concat(read)), Complete(Unfinished(Concat(read)) + Concat(more)), parse);
  }

  // ---------- the sending side ----------

  /** A line as a sender means it. */
  datatype Line = Data(text: string) | Other(text: string)

  function Rendered(line: Line): string {
    match line case Data(text) => "data: " + text case Other(text) => text
  }

  /** A frame: no line breaks inside its lines, none of them empty, and no field passing for data. */
  predicate Frame(lines: seq<Line>) {
    lines != [] && forall i :: 0 <= i < |lines| ==>
      '\n' !in lines[i].text && (lines[i].Other? ==> lines[i].text != "" && !("data:" <= lines[i].text))
  }

  function RenderedAll(lines: seq<Line>): (texts: seq<string>)
    ensures |texts| == |lines|
    ensures forall i :: 0 <= i < |lines| ==> texts[i] == Rendered(lines[i])
  {
    if lines == [] then [] else [Rendered(lines[0])] + RenderedAll(lines[1..])
  }

  function Meant(lines: seq<Line>): string {
    if lines == [] then ""
    else (match lines[0] case Data(text) => Trim(text) case Other(_) => "") + Meant(lines[1..])
  }

  function Written(lines: seq<Line>): string {
    Join(RenderedAll(lines), "\n")
  }

  function Write(frames: seq<seq<Line>>): string {
    if frames == [] then "" else Written(frames[0]) + BLANK_LINE + Write(frames[1..])
  }

  function Bodies(frames: seq<seq<Line>>): seq<string> {
    if frames == [] then [] else [Written(frames[0])] + Bodies(frames[1..])
  }

  /** The events a sender means: one per frame whose data, without white space around it, parses. */
  function Sent<E>(frames: seq<seq<Line>>, parse: string -> Option<E>): seq<E> {
    if frames == [] then []
    else
      var data := Meant(frames[0]);
      (if data == "" || data == "[DONE]" then []
       else (match parse(data) case None => [] case Some(e) => [e])) + Sent(frames[1..], parse)
  }

  lemma TrimAfterSpace(text: string)
    ensures Trim(" " + text) == Trim(text)
  {
    var before, after := TrimCore(text);
    var core := Trim(text);
    assert " " + text == (" " + before) + core + after;
    if core == "" {
      TrimEndDrops("", " " + text);
      assert "" + (" " + text) == " " + text;
    } else {
      TrimDropsBlanks(" " + before, core, after);
    }
  }

  lemma {:induction false} PayloadIsMeant(lines: seq<Line>)
    requires forall i :: 0 <= i < |lines| ==> lines[i].Other? ==> !("data:" <= lines[i].text)
    ensures Payload(RenderedAll(lines)) == Meant(lines)
  {
    hide Trim;
    if lines != [] {
      PayloadIsMeant(lines[1..]);
      assert RenderedAll(lines)[1..] == RenderedAll(lines[1..]);
      if lines[0].Data? {
        assert Rendered(lines[0])[5..] == " " + lines[0].text;
        TrimAfterSpace(lines[0].text);
      }
    }
  }

  predicate PlainLines(texts: seq<string>) {
    texts != [] && forall i :: 0 <= i < |texts| ==> texts[i] != "" && '\n' !in texts[i]
  }

  lemma LinesSurvive(texts: seq<string>)
    requires PlainLines(texts)
    ensures Split(Join(texts, "\n"), "\n") == texts
  {
    forall i | 0 <= i < |texts| ensures Absent(texts[i], "\n") && Clean(texts[i], "\n") {
      OneCharAbsent(texts[i], '\n');
    }
    SplitJoin(texts, "\n");
  }

  /** Inside a frame no line break stands at an end or next to another. */
  lemma {:induction false} BreaksAreSingle(texts: seq<string>)
    requires PlainLines(texts)
    ensures var body := Join(texts, "\n");
      && body != "" && body[0] != '\n' && body[|body| - 1] != '\n'
      && forall i :: 0 < i < |body| && body[i] == '\n' ==> body[i - 1] != '\n'
  {
    if |texts| > 1 {
      BreaksAreSingle(texts[1..]);
      var body, rest := Join(texts, "\n"), Join(texts[1..], "\n");
      var n := |texts[0]| + 1;
      assert body == texts[0] + "\n" + rest;
      forall i | 0 < i < |body| && body[i] == '\n' ensures body[i - 1] != '\n' {
        if i >= n { assert body[i] == rest[i - n]; }
      }
    }
  }

  lemma FrameIsClean(texts: seq<string>)
    requires PlainLines(texts)
    ensures Clean(Join(texts, "\n"), BLANK_LINE)
  {
    var body := Join(texts, "\n");
    BreaksAreSingle(texts);
    var text := body + BLANK_LINE;
    assert At(text, BLANK_LINE, |body|);
    forall j: nat | j < |body| ensures !At(text, BLANK_LINE, j) {
      assert text[j] == body[j];
      if j + 2 <= |text| { assert text[j..j + 2] == [text[j], text[j + 1]]; }
    }
    FindIs(text, BLANK_LINE, |body|);
  }

  /** Every frame written comes out whole, in order, and an unfinished one after them is held back. */
  lemma {:induction false} FramesSurvive(frames: seq<seq<Line>>, tail: string)
    requires forall i :: 0 <= i < |frames| ==> Frame(frames[i])
    requires Absent(tail, BLANK_LINE)
    ensures Complete(Write(frames) + tail) == Bodies(frames)
    ensures Unfinished(Write(frames) + tail) == tail
    decreases |frames|
  {
    hide Find, Frame, Written;
    if frames == [] {
      assert Write(frames) + tail == tail;
      WholeTail(tail);
    } else {
      var body, rest := Written(frames[0]), Write(frames[1..]) + tail;
      WrittenIsClean(frames[0]);
      assert Write(frames) + tail == body + BLANK_LINE + rest;
      SplitCons(body, rest, BLANK_LINE);
      FramesSurvive(frames[1..], tail);
      var parts := Split(rest, BLANK_LINE);
      assert ([body] + parts)[..|parts|] == [body] + parts[..|parts| - 1];
    }
  }

  lemma WrittenIsClean(lines: seq<Line>)
    requires Frame(lines)
    ensures PlainLines(RenderedAll(lines)) && Clean(Written(lines), BLANK_LINE)
  {
    FrameIsClean(RenderedAll(lines));
  }

  lemma WholeTail(tail: string)
    requires Absent(tail, BLANK_LINE)
    ensures Complete(tail) == [] && Unfinished(tail) == tail
  {
    assert Split(tail, BLANK_LINE) == [tail];
  }

  /** A receiver of the written stream, cut anywhere, delivers exactly what the sender meant. */
  lemma SentIsDelivered<E>(frames: seq<seq<Line>>, tail: string, parse: string -> Option<E>)
    requires forall i :: 0 <= i < |frames| ==> Frame(frames[i])
    requires Absent(tail, BLANK_LINE)
    ensures Deliver(Complete(Write(frames) + tail), parse) == Sent(frames, parse)
  {
    hide Complete, Write, Deliver, Sent;
    FramesSurvive(frames, tail);
    BodiesDeliver(frames, parse);
  }

  lemma EventOfFrame<E>(lines: seq<Line>, parse: string -> Option<E>)
    requires Frame(lines)
    ensures var data := Meant(lines);
      Event(Written(lines), parse) == if data == "" || data == "[DONE]" then None else parse(data)
  {
    hide Find, Split, Payload, Meant, Join;
    LinesSurvive(RenderedAll(lines));
    PayloadIsMeant(lines);
  }

  lemma {:induction false} BodiesDeliver<E>(frames: seq<seq<Line>>, parse: string -> Option<E>)
    requires forall i :: 0 <= i < |frames| ==> Frame(frames[i])
    ensures Deliver(Bodies(frames), parse) == Sent(frames, parse)
    decreases |frames|
  {
    hide Event, Frame, Written, Meant;
    if frames != [] {
      var body := Written(frames[0]);
      DeliverAppend([body], Bodies(frames[1..]), parse);
      EventOfFrame(frames[0], parse);
      assert Deliver([body][..0], parse) == [];
      BodiesDeliver(frames[1..], parse);
    }
  }
}
