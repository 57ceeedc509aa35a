/**
 * Reading a thread page by page (apps/api/src/thread-message-pages.ts). A thread is the sequence of
 * its message rows in the order of their seq, which is unique within the thread.
 */
module Paging {
  import opened Basics

  datatype Message = Message(id: string, seqNo: nat, content: string)

  datatype Page = Page(messages: seq<Message>, olderCursor: Option<nat>)

  datatype Around = Around(messageId: Option<string>, seqNo: Option<nat>)

  predicate Ordered(thread: seq<Message>) {
    forall i, j :: 0 <= i < j < |thread| ==> thread[i].seqNo < thread[j].seqNo
  }

  // ---------- the queries ----------

  /** Rows with seq in [low, high), in ascending order; no bound where there is none. */
  function Between(thread: seq<Message>, low: nat, high: Option<nat>): seq<Message> {
    if thread == [] then []
    else
      var m := thread[0];
      (if low <= m.seqNo && (high.None? || m.seqNo < high.value) then [m] else []) + Between(thread[1..], low, high)
  }

  function Reversed<T>(s: seq<T>): (r: seq<T>)
    ensures |r| == |s|
  {
    if s == [] then [] else Reversed(s[1..]) + [s[0]]
  }

  function Take<T>(s: seq<T>, n: nat): seq<T> {
    if n <= |s| then s[..n] else s
  }

  function FindById(thread: seq<Message>, id: string): Option<Message> {
    if thread == [] then None else if thread[0].id == id then Some(thread[0]) else FindById(thread[1..], id)
  }

  /** The page that ends just before the cursor, read newest first with one row to spare. */
  function PageBefore(thread: seq<Message>, before: Option<nat>, pageSize: nat): Page {
    var rows := Take(Reversed(Between(thread, 0, before)), pageSize + 1);
    var messages := Reversed(Take(rows, pageSize));
    var hasOlder := |rows| > pageSize;
    Page(messages, if hasOlder && messages != [] then Some(messages[0].seqNo) else None)
  }

  function PageAround(thread: seq<Message>, target: nat, pageSize: nat): Page {
    var half := pageSize / 2;
    var low := if target < half then 0 else target - half;
    var rows := Take(Between(thread, low, Some(target + half + 1)), pageSize);
    var hasOlder := rows != [] && |Between(thread, 0, Some(rows[0].seqNo))| > 0;
    Page(rows, if hasOlder then Some(rows[0].seqNo) else None)
  }

  function Target(thread: seq<Message>, around: Around): Option<nat> {
    match around
    case Around(_, Some(seqNo)) => Some(seqNo)
    case Around(Some(id), None) =>
      if id == "" then None
      else (match FindById(thread, id) case None => None case Some(m) => Some(m.seqNo))
    case _ => None
  }

  /** A target that cannot be found falls back to the ordinary page. */
  function LoadPage(thread: seq<Message>, before: Option<nat>, pageSize: nat, around: Option<Around>): Page {
    match around
    case None => PageBefore(thread, before, pageSize)
    case Some(a) =>
      match Target(thread, a)
      case None => PageBefore(thread, before, pageSize)
      case Some(target) => PageAround(thread, target, pageSize)
  }

  // ---------- rows before a cursor are a prefix of the thread ----------

  /** How many rows come before the cursor. */
  function Older(thread: seq<Message>, before: Option<nat>): (n: nat)
    ensures n <= |thread|
  {
    if thread == [] then 0
    else if before.None? || thread[0].seqNo < before.value then 1 + Older(thread[1..], before)
    else 0
  }

  lemma {:induction false} OlderSpec(thread: seq<Message>, before: Option<nat>)
    requires Ordered(thread)
    ensures before.None? ==> Older(thread, before) == |thread|
    ensures before.Some? ==> forall i :: 0 <= i < |thread| ==> (thread[i].seqNo < before.value <==> i < Older(thread, before))
  {
    if thread != [] {
      var rest := thread[1..];
      assert Ordered(rest);
      OlderSpec(rest, before);
      forall i | 0 < i < |thread| ensures thread[i] == rest[i - 1] && thread[0].seqNo < thread[i].seqNo {}
    }
  }

  lemma OrderedTail(thread: seq<Message>)
    requires Ordered(thread) && thread != []
    ensures Ordered(thread[1..]) && (|thread| > 1 ==> thread[0].seqNo < thread[1].seqNo)
  {
  }

  lemma SliceOfTail<T>(s: seq<T>, a: nat, b: nat)
    requires s != [] && a <= b < |s|
    ensures s[a + 1..b + 1] == s[1..][a..b] && s[0..b + 1] == [s[0]] + s[1..][0..b]
  {
  }

  lemma NoRows(low: nat, high: Option<nat>)
    ensures Older([], high) == 0 && Older([], Some(low)) == 0 && Between([], low, high) == []
  {
  }

  lemma OneRow(thread: seq<Message>, low: nat, high: Option<nat>)
    requires thread != []
    ensures var m, rest := thread[0], thread[1..];
      && Older(thread, high) == (if high.None? || m.seqNo < high.value then 1 + Older(rest, high) else 0)
      && Between(thread, low, high)
         == (if low <= m.seqNo && (high.None? || m.seqNo < high.value) then [m] else []) + Between(rest, low, high)
  {
  }

  lemma {:induction false} BetweenIsSlice(thread: seq<Message>, low: nat, high: Option<nat>)
    requires Ordered(thread) && (high.Some? ==> low <= high.value)
    ensures Older(thread, Some(low)) <= Older(thread, high)
    ensures Between(thread, low, high) == thread[Older(thread, Some(low))..Older(thread, high)]
  {
    hide Ordered, Older, Between;
    if thread == [] {
      NoRows(low, high);
    } else {
      var rest := thread[1..];
      OrderedTail(thread);
      BetweenIsSlice(rest, low, high);
      var a, b := Older(rest, Some(low)), Older(rest, high);
      OneRow(thread, low, high);
      OneRow(thread, low, Some(low));
      if thread[0].seqNo < low {
        SliceOfTail(thread, a, b);
      } else {
        NoneBelow(rest, low);
        if high.None? || thread[0].seqNo < high.value {
          SliceOfTail(thread, 0, b);
        } else {
          NoneBelow(rest, high.value);
        }
      }
    }
  }

  lemma NoneBelow(thread: seq<Message>, bound: nat)
    requires thread != [] ==> bound <= thread[0].seqNo
    ensures Older(thread, Some(bound)) == 0
  {
  }

  lemma BeforeIsPrefix(thread: seq<Message>, before: Option<nat>)
    requires Ordered(thread)
    ensures Between(thread, 0, before) == thread[..Older(thread, before)]
  {
    BetweenIsSlice(thread, 0, before);
    OlderSpec(thread, Some(0));
  }

  /** A row of an earlier state of the thread is at the same place in a later state. */
  lemma OlderThanRow(was: seq<Message>, thread: seq<Message>, i: nat)
    requires was <= thread && Ordered(thread) && i < |was|
    ensures Older(thread, Some(was[i].seqNo)) == i
  {
    OlderSpec(thread, Some(was[i].seqNo));
    var n := Older(thread, Some(was[i].seqNo));
    assert thread[i] == was[i];
    assert n < |thread| ==> thread[n].seqNo >= thread[i].seqNo;
  }

  // ---------- one page ----------

  lemma {:induction false} ReversedAppend<T>(a: seq<T>, b: seq<T>)
    ensures Reversed(a + b) == Reversed(b) + Reversed(a)
  {
    if a == [] {
      assert a + b == b && Reversed(b) + [] == Reversed(b);
    } else {
      ReversedAppend(a[1..], b);
      assert (a + b)[1..] == a[1..] + b;
      assert Reversed(b) + (Reversed(a[1..]) + [a[0]]) == Reversed(b) + Reversed(a[1..]) + [a[0]];
    }
  }

  lemma {:induction false} ReversedTwice<T>(s: seq<T>)
    ensures Reversed(Reversed(s)) == s
  {
    if s != [] {
      ReversedAppend(Reversed(s[1..]), [s[0]]);
      ReversedTwice(s[1..]);
      assert Reversed([s[0]]) == [s[0]] by { assert [s[0]][1..] == []; }
    }
  }

  lemma TakeFront<T>(a: seq<T>, b: seq<T>)
    ensures Take(a + b, |a|) == a
  {
  }

  /** Reading newest first, stopping after the last part, and turning round gives the last part. */
  lemma LastOnes<T>(front: seq<T>, back: seq<T>)
    ensures Reversed(Take(Reversed(front + back), |back|)) == back
  {
    hide Reversed, Take;
    ReversedAppend(front, back);
    TakeFront(Reversed(back), Reversed(front));
    ReversedTwice(back);
  }

  lemma TakeMore<T>(s: seq<T>, n: nat)
    ensures Take(Take(s, n + 1), n) == Take(s, n)
    ensures n >= |s| ==> Take(s, n) == s == Take(s, |s|)
  {
  }

  /** The page before a cursor is the last rows before it, and has a cursor exactly when rows remain. */
  lemma PageBeforeIs(thread: seq<Message>, before: Option<nat>, pageSize: nat)
    requires Ordered(thread) && pageSize > 0
    ensures var n := Older(thread, before);
      var cut := if n <= pageSize then 0 else n - pageSize;
      PageBefore(thread, before, pageSize)
        == Page(thread[cut..n], if cut == 0 then None else Some(thread[cut].seqNo))
  {
    hide Ordered, Between, Older, Reversed, Take;
    BeforeIsPrefix(thread, before);
    var n := Older(thread, before);
    var cut := if n <= pageSize then 0 else n - pageSize;
    var front, back := thread[..cut], thread[cut..n];
    assert thread[..n] == front + back;
    LastOnes(front, back);
    TakeMore(Reversed(front + back), pageSize);
    TakeLength(Reversed(front + back), pageSize + 1);
  }

  lemma TakeLength<T>(s: seq<T>, n: nat)
    ensures |Take(s, n)| == if n <= |s| then n else |s|
  {
  }

  /** Following cursors goes strictly back in the thread. */
  lemma CursorDecreases(thread: seq<Message>, before: nat, pageSize: nat)
    requires Ordered(thread)
    ensures var page := PageBefore(thread, Some(before), pageSize);
      page.olderCursor.Some? ==> page.olderCursor.value < before
  {
    if pageSize > 0 {
      PageBeforeIs(thread, Some(before), pageSize);
      OlderSpec(thread, Some(before));
    }
  }

  // ---------- following the cursors ----------

  /** Everything a reader gets who starts at a cursor and follows the cursors of the pages back. */
  function History(thread: seq<Message>, before: Option<nat>, pageSize: nat): seq<Message>
    requires Ordered(thread) && pageSize > 0
    decreases Older(thread, before)
  {
    var page := PageBefore(thread, before, pageSize);
    if page.olderCursor.None? then page.messages
    else
      CursorGoesBack(thread, before, pageSize);
      History(thread, page.olderCursor, pageSize) + page.messages
  }

  lemma CursorGoesBack(thread: seq<Message>, before: Option<nat>, pageSize: nat)
    requires Ordered(thread) && pageSize > 0 && PageBefore(thread, before, pageSize).olderCursor.Some?
    ensures Older(thread, PageBefore(thread, before, pageSize).olderCursor) < Older(thread, before)
  {
    PageBeforeIs(thread, before, pageSize);
    var cut := Older(thread, before) - pageSize;
    OlderThanRow(thread, thread, cut);
  }

  lemma {:induction false} HistoryIsEverythingOlder(thread: seq<Message>, before: Option<nat>, pageSize: nat)
    requires Ordered(thread) && pageSize > 0
    ensures History(thread, before, pageSize) == thread[..Older(thread, before)]
    decreases Older(thread, before)
  {
    hide PageBefore;
    PageBeforeIs(thread, before, pageSize);
    var n := Older(thread, before);
    if n > pageSize {
      var cut := n - pageSize;
      OlderThanRow(thread, thread, cut);
      HistoryIsEverythingOlder(thread, Some(thread[cut].seqNo), pageSize);
      assert thread[..cut] + thread[cut..n] == thread[..n];
    }
  }

  /** Distinct natural numbers in order are at least as far apart as their places. */
  lemma {:induction false} SeqsSpread(thread: seq<Message>, i: nat, j: nat)
    requires Ordered(thread) && i <= j < |thread|
    ensures thread[i].seqNo + (j - i) <= thread[j].seqNo
    decreases j - i
  {
    if i < j { SeqsSpread(thread, i, j - 1); }
  }

  /** The place of the first row of a page around a number, and of the row after its last. */
  function Stretch(thread: seq<Message>, target: nat, pageSize: nat): (int, int) {
    var half := pageSize / 2;
    var a := Older(thread, Some(if target < half then 0 else target - half));
    var end := Older(thread, Some(target + half + 1));
    (a, if end <= a + pageSize then end else a + pageSize)
  }

  /**
   * A page around any number, whether a message has it or not, is a stretch of the thread: it starts
   * at the first message at most half a page below the number, goes on to the last one at most half a
   * page above it or to the page size, and has a cursor exactly when it and what is older are not empty.
   */
  lemma PageAroundIs(thread: seq<Message>, target: nat, pageSize: nat)
    requires Ordered(thread)
    ensures var (a, b) := Stretch(thread, target, pageSize);
      && 0 <= a <= b <= |thread| && b - a <= pageSize
      && (forall j :: 0 <= j < |thread| ==> (a <= j <==> target <= thread[j].seqNo + pageSize / 2))
      && (forall j :: 0 <= j < |thread| && a <= j ==>
           (j < b <==> thread[j].seqNo <= target + pageSize / 2 && j < a + pageSize))
      && PageAround(thread, target, pageSize)
         == Page(thread[a..b], if a == b || a == 0 then None else Some(thread[a].seqNo))
  {
    hide Ordered, Between, Older;
    var half := pageSize / 2;
    var low := if target < half then 0 else target - half;
    var high := target + half + 1;
    BetweenIsSlice(thread, low, Some(high));
    OlderSpec(thread, Some(low));
    OlderSpec(thread, Some(high));
    var (a, b) := Stretch(thread, target, pageSize);
    var page := PageAround(thread, target, pageSize);
    assert page.messages == thread[a..b] by {
      assert thread[a..Older(thread, Some(high))][..b - a] == thread[a..b];
    }
    if a < b {
      assert page.messages[0] == thread[a];
      BeforeIsPrefix(thread, Some(thread[a].seqNo));
      OlderThanRow(thread, thread, a);
    }
  }

  /**
   * A page around an existing message is a stretch of the thread that holds the message; it has a
   * cursor exactly when something older exists, and following that cursor gives exactly the rest.
   */
  lemma AroundHoldsTarget(thread: seq<Message>, target: nat, pageSize: nat, i: nat)
    requires Ordered(thread) && pageSize > 0 && i < |thread| && thread[i].seqNo == target
    ensures var page := PageAround(thread, target, pageSize);
      exists a, b :: 0 <= a <= i < b <= |thread|
        && page.messages == thread[a..b] && |page.messages| <= pageSize
        && (page.olderCursor.None? <==> a == 0)
        && (page.olderCursor.Some? ==> History(thread, page.olderCursor, pageSize) == thread[..a])
  {
    hide History, Ordered, Older, Stretch, PageAround;
    PageAroundIs(thread, target, pageSize);
    var (a, b) := Stretch(thread, target, pageSize);
    SeqsSpread(thread, a, i);
    OlderThanRow(thread, thread, a);
    HistoryIsEverythingOlder(thread, Some(thread[a].seqNo), pageSize);
  }

  // ---------- what is asked for ----------

  /** The number asked for, or the number of the message asked for. */
  ghost predicate AsksFor(thread: seq<Message>, around: Around, target: nat) {
    || around.seqNo == Some(target)
    || (around.seqNo.None? && exists i ::
         && 0 <= i < |thread| && thread[i].seqNo == target
         && around.messageId == Some(thread[i].id) && thread[i].id != "")
  }

  lemma {:induction false} FindByIdIs(thread: seq<Message>, id: string)
    ensures FindById(thread, id).None? <==> forall j :: 0 <= j < |thread| ==> thread[j].id != id
    ensures forall m :: FindById(thread, id) == Some(m) ==> exists j :: 0 <= j < |thread| && thread[j] == m && m.id == id
  {
    if thread != [] {
      FindByIdIs(thread[1..], id);
      forall j | 0 < j < |thread| ensures thread[j] == thread[1..][j - 1] {}
      var found := FindById(thread[1..], id);
      if found.Some? {
        var j :| 0 <= j < |thread[1..]| && thread[1..][j] == found.value;
        assert thread[j + 1] == found.value;
      }
    }
  }

  /**
   * Every request, in a thread whose messages have ids of their own: a number that is asked for, or
   * the number of an existing message that is asked for, gives the page around it, whatever `before`
   * says; anything else, a message that does not exist among it, gives the last rows before `before`.
   */
  lemma LoadPageIs(thread: seq<Message>, before: Option<nat>, pageSize: nat, around: Option<Around>, target: nat)
    requires Ordered(thread)
    requires forall i, j :: 0 <= i < j < |thread| ==> thread[i].id != thread[j].id
    ensures var page := LoadPage(thread, before, pageSize, around);
      && (around.Some? && AsksFor(thread, around.value, target) ==>
           var (a, b) := Stretch(thread, target, pageSize);
           0 <= a <= b <= |thread|
           && page == Page(thread[a..b], if a == b || a == 0 then None else Some(thread[a].seqNo)))
      && ((around.None? || forall t: nat :: !AsksFor(thread, around.value, t)) && pageSize > 0 ==>
           var n := Older(thread, before);
           var cut := if n <= pageSize then 0 else n - pageSize;
           page == Page(thread[cut..n], if cut == 0 then None else Some(thread[cut].seqNo)))
  {
    hide PageAround, PageBefore, Stretch, Ordered;
    PageAroundIs(thread, target, pageSize);
    if pageSize > 0 { PageBeforeIs(thread, before, pageSize); }
    if around.Some? && around.value.seqNo.None? && around.value.messageId.Some? {
      FindByIdIs(thread, around.value.messageId.value);
    }
    if around.Some? && Target(thread, around.value).Some? {
      assert AsksFor(thread, around.value, Target(thread, around.value).value);
    }
  }

  // ---------- reading everything while messages are added ----------

  function Flat<T>(pages: seq<seq<T>>): seq<T> {
    if pages == [] then [] else pages[0] + Flat(pages[1..])
  }

  lemma FlatReversed<T>(pages: seq<seq<T>>, page: seq<T>)
    ensures Flat(Reversed(pages + [page])) == page + Flat(Reversed(pages))
  {
    ReversedAppend(pages, [page]);
    assert [page][1..] == [] && Reversed([page]) == [page];
    assert ([page] + Reversed(pages))[1..] == Reversed(pages);
  }

  /**
   * `at(k)` is the thread as the k-th query finds it; messages may be added between two queries,
   * always with larger seqs. The result is the thread of the first query, each message once.
   */
  method LoadAll(at: nat -> seq<Message>, pageSize: nat) returns (messages: seq<Message>)
    requires forall k: nat :: Ordered(at(k))
    requires forall j: nat, k: nat :: j <= k ==> at(j) <= at(k)
    ensures messages == if pageSize == 0 then [] else at(0)
  {
    hide PageBefore, Older, Ordered, Reversed, Flat;
    var pages: seq<seq<Message>> := [];
    var before: Option<nat> := None;
    var k := 0;
    var more := true;
    ghost var cut: nat := |at(0)|;
    NoPages();
    while more
      invariant more ==> cut <= |at(0)| && Flat(Reversed(pages)) == at(0)[cut..]
      invariant more ==> (if k == 0 then before == None && cut == |at(0)| else
                            pageSize > 0 && cut < |at(0)| && before == Some(at(0)[cut].seqNo))
      invariant !more ==> Flat(Reversed(pages)) == if pageSize == 0 then [] else at(0)
      decreases more, cut
    {
      var page := PageBefore(at(k), before, pageSize);
      if pageSize == 0 {
        EmptyPages(at(k), before);
      } else {
        NextPage(at(0), at(k), k, before, pageSize, cut);
      }
      FlatReversed(pages, page.messages);
      pages := pages + [page.messages];
      before := page.olderCursor;
      more := before.Some?;
      ghost var was := cut;
      cut := if cut <= pageSize then 0 else cut - pageSize;
      assert pageSize > 0 ==> at(0)[cut..was] + at(0)[was..] == at(0)[cut..];
      k := k + 1;
    }
    messages := Flat(Reversed(pages));
  }

  lemma NoPages()
    ensures Flat(Reversed<seq<Message>>([])) == []
  {
  }

  lemma EmptyPages(thread: seq<Message>, before: Option<nat>)
    ensures PageBefore(thread, before, 0) == Page([], None)
  {
  }

  /** A page read later than the first query holds the same rows as in the thread of that query. */
  lemma NextPage(first: seq<Message>, thread: seq<Message>, k: nat, before: Option<nat>, pageSize: nat, cut: nat)
    requires first <= thread && Ordered(thread) && Ordered(first) && pageSize > 0 && cut <= |first|
    requires if k == 0 then before == None && cut == |first| && thread == first
             else cut < |first| && before == Some(first[cut].seqNo)
    ensures var next := if cut <= pageSize then 0 else cut - pageSize;
      PageBefore(thread, before, pageSize)
        == Page(first[next..cut], if next == 0 then None else Some(first[next].seqNo))
  {
    hide PageBefore;
    PageBeforeIs(thread, before, pageSize);
    OlderSpec(thread, before);
    if k > 0 { OlderThanRow(first, thread, cut); }
    var next := if cut <= pageSize then 0 else cut - pageSize;
    assert thread[next..cut] == first[next..cut];
  }

  /** Asking around a message by its id shows the message. */
  lemma AroundMessageShowsIt(thread: seq<Message>, before: Option<nat>, pageSize: nat, i: nat)
    requires Ordered(thread) && pageSize > 0 && i < |thread| && thread[i].id != ""
    requires forall j, k :: 0 <= j < k < |thread| ==> thread[j].id != thread[k].id
    ensures thread[i] in LoadPage(thread, before, pageSize, Some(Around(Some(thread[i].id), None))).messages
  {
    hide History, PageBefore, PageAround;
    FindByIdIs(thread, thread[i].id);
    AroundHoldsTarget(thread, thread[i].seqNo, pageSize, i);
    var page := PageAround(thread, thread[i].seqNo, pageSize);
    var a, b :| 0 <= a <= i < b <= |thread| && page.messages == thread[a..b];
    assert page.messages[i - a] == thread[i];
  }
}
