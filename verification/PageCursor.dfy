/** Paging fragments under a serialized limit (internal/aichattools/read_page.go). */
module PageCursor {
  import opened Options
  import opened Seqs
  import opened PageReader

  /** One page: its fragments, and the cursor of the next page if there is one. */
  datatype Page = Page(blocks: seq<Block>, next: Option<nat>)

  datatype ReadOutcome = Content(page: Page) | LimitReached | BadCursor

  function PageTo(fragments: seq<Block>, start: nat, end: nat): Page
    requires start <= end <= |fragments|
  {
    Page(fragments[start..end], if end < |fragments| then Some(end) else None)
  }

  /** The furthest end reachable from `end` without ever exceeding the limit. A later page may be
      smaller again, the last one carrying no cursor, but the search does not look past a page that
      is too large. */
  function Furthest(fragments: seq<Block>, start: nat, end: nat, size: Page -> nat, limit: int): (r: nat)
    requires start <= end <= |fragments|
    ensures end <= r <= |fragments|
    decreases |fragments| - end
  {
    if end == |fragments| || size(PageTo(fragments, start, end + 1)) > limit then end
    else Furthest(fragments, start, end + 1, size, limit)
  }

  function PageEnd(fragments: seq<Block>, start: nat, size: Page -> nat, limit: int): Option<nat>
    requires start <= |fragments|
  {
    if limit <= 0 || size(PageTo(fragments, start, start)) > limit then None
    else
      var end := Furthest(fragments, start, start, size, limit);
      if end == start && start < |fragments| then None else Some(end)
  }

  method MarshalContentPage(fragments: seq<Block>, start: nat, size: Page -> nat, limit: int)
    returns (best: Option<Page>)
    requires start <= |fragments|
    ensures best == match PageEnd(fragments, start, size, limit)
                    case None => None
                    case Some(end) => Some(PageTo(fragments, start, end))
  {
    if limit <= 0 {
      return None;
    }
    var selected: seq<Block> := [];
    var bestCount := 0;
    best := None;
    for end := start to |fragments| + 1
      invariant end <= |fragments| + 1 && (end <= |fragments| ==> selected == fragments[start..end])
      invariant end == start ==> best.None? && bestCount == 0
      invariant end > start ==>
        && end <= |fragments|
        && best == Some(PageTo(fragments, start, end - 1)) && bestCount == end - 1 - start
        && size(PageTo(fragments, start, start)) <= limit
        && Furthest(fragments, start, start, size, limit) == Furthest(fragments, start, end - 1, size, limit)
    {
      var page := Page(selected, if end < |fragments| then Some(end) else None);
      if size(page) > limit {
        if bestCount == 0 && start < |fragments| {
          return None;
        }
        return best;
      }
      best, bestCount := Some(page), |selected|;
      if end == |fragments| {
        return best;
      }
      selected := selected + [fragments[end]];
    }
  }

  /** Where a read begins: without a cursor, at the first fragment. */
  function StartOf(cursor: Option<nat>): nat {
    if cursor.None? then 0 else cursor.value
  }

  /** A read at a cursor; only the first page may be asked of an empty document. */
  function ReadAt(fragments: seq<Block>, cursor: Option<nat>, size: Page -> nat, limit: int): ReadOutcome {
    var start := StartOf(cursor);
    if start > |fragments| || (cursor.Some? && start == |fragments|) then BadCursor
    else
      match PageEnd(fragments, start, size, limit)
      case None => LimitReached
      case Some(end) => Content(PageTo(fragments, start, end))
  }

  lemma {:induction false} FurthestFits(fragments: seq<Block>, start: nat, end: nat, size: Page -> nat, limit: int)
    requires start <= end <= |fragments| && size(PageTo(fragments, start, end)) <= limit
    ensures var r := Furthest(fragments, start, end, size, limit);
      && size(PageTo(fragments, start, r)) <= limit
      && (r < |fragments| ==> size(PageTo(fragments, start, r + 1)) > limit)
    decreases |fragments| - end
  {
    if end < |fragments| && size(PageTo(fragments, start, end + 1)) <= limit {
      FurthestFits(fragments, start, end + 1, size, limit);
    }
  }

  /** A content page fits, advances, cannot take one fragment more, and carries a cursor exactly
      when fragments are left. */
  lemma PageFits(fragments: seq<Block>, cursor: Option<nat>, size: Page -> nat, limit: int)
    requires ReadAt(fragments, cursor, size, limit).Content?
    ensures var start := StartOf(cursor);
      var page := ReadAt(fragments, cursor, size, limit).page;
      var end := start + |page.blocks|;
      && end <= |fragments| && page == PageTo(fragments, start, end)
      && size(page) <= limit && (start < |fragments| ==> end > start)
      && (end < |fragments| ==> size(PageTo(fragments, start, end + 1)) > limit)
  {
    var start := StartOf(cursor);
    FurthestFits(fragments, start, start, size, limit);
  }

  /** A page is refused exactly when its first fragment, or the bare envelope, is over the limit. */
  lemma PageRefused(fragments: seq<Block>, cursor: Option<nat>, size: Page -> nat, limit: int)
    requires ReadAt(fragments, cursor, size, limit) != BadCursor
    ensures var start := StartOf(cursor);
      ReadAt(fragments, cursor, size, limit) == LimitReached <==>
        || limit <= 0 || size(PageTo(fragments, start, start)) > limit
        || (start < |fragments| && size(PageTo(fragments, start, start + 1)) > limit)
  {
  }

  /** A cursor is bad exactly when nothing begins there; a read without one never is. */
  lemma BadCursorIs(fragments: seq<Block>, cursor: Option<nat>, size: Page -> nat, limit: int)
    ensures ReadAt(fragments, cursor, size, limit) == BadCursor <==> cursor.Some? && cursor.value >= |fragments|
  {
  }

  /** Content pages, each at the previous one's cursor, each under its own limit; there may be more
      to come. */
  predicate Chain(fragments: seq<Block>, cursor: Option<nat>, size: Page -> nat, limits: seq<int>, pages: seq<Page>)
    decreases |pages|
  {
    && |limits| == |pages|
    && (pages != [] ==>
          && ReadAt(fragments, cursor, size, limits[0]) == Content(pages[0])
          && (|pages| > 1 ==>
                pages[0].next.Some? && Chain(fragments, pages[0].next, size, limits[1..], pages[1..])))
  }

  function Visited(pages: seq<Page>): seq<Block> {
    if pages == [] then [] else pages[0].blocks + Visited(pages[1..])
  }

  /** The pages visited so far hold the fragments from where the chain began, in order, each once;
      each fits its limit, and the last one's cursor names where the rest begins. */
  lemma {:induction false} ChainVisitsAPrefix(fragments: seq<Block>, cursor: Option<nat>, size: Page -> nat,
                                              limits: seq<int>, pages: seq<Page>)
    requires Chain(fragments, cursor, size, limits, pages) && pages != []
    ensures var start, n := StartOf(cursor), |Visited(pages)|;
      && start + n <= |fragments| && Visited(pages) == fragments[start..start + n]
      && pages[|pages| - 1].next == (if start + n < |fragments| then Some(start + n) else None)
      && |pages| <= if start < |fragments| then n else 1
    ensures forall i :: 0 <= i < |pages| ==> size(pages[i]) <= limits[i]
    decreases |pages|
  {
    hide ReadAt, PageEnd;
    var start := StartOf(cursor);
    PageFits(fragments, cursor, size, limits[0]);
    var m := |pages[0].blocks|;
    if |pages| == 1 {
      assert pages[1..] == [];
      AppendNil(pages[0].blocks);
    } else {
      ChainVisitsAPrefix(fragments, pages[0].next, size, limits[1..], pages[1..]);
      var rest := |Visited(pages[1..])|;
      SliceJoin(fragments, start, m, rest);
      assert forall i :: 0 < i < |pages| ==> pages[i] == pages[1..][i - 1] && limits[i] == limits[1..][i - 1];
    }
  }

  lemma SliceJoin(fragments: seq<Block>, start: nat, m: nat, rest: nat)
    requires start + m + rest <= |fragments|
    ensures fragments[start..start + m + rest] == fragments[start..start + m] + fragments[start + m..start + m + rest]
  {
  }

  /** So following cursors ends within one page a fragment, and the chain that has ended, and only
      that one, has visited every fragment exactly once and in order. */
  lemma CursorsVisitOnce(fragments: seq<Block>, cursor: Option<nat>, size: Page -> nat,
                         limits: seq<int>, pages: seq<Page>)
    requires Chain(fragments, cursor, size, limits, pages) && pages != []
    ensures var start := StartOf(cursor);
      && start <= |fragments|
      && |pages| <= (if start < |fragments| then |fragments| - start else 1)
      && (pages[|pages| - 1].next.None? <==> Visited(pages) == fragments[start..])
  {
    hide Chain;
    ChainVisitsAPrefix(fragments, cursor, size, limits, pages);
    TakeAll(fragments);
  }

  /** A page's cursor is never refused as out of range, and moves strictly forward. */
  lemma CursorIsReadable(fragments: seq<Block>, cursor: Option<nat>, size: Page -> nat, limit: int, nextLimit: int)
    requires ReadAt(fragments, cursor, size, limit).Content? && ReadAt(fragments, cursor, size, limit).page.next.Some?
    ensures var next := ReadAt(fragments, cursor, size, limit).page.next;
      ReadAt(fragments, next, size, nextLimit) != BadCursor && next.value > StartOf(cursor)
  {
    PageFits(fragments, cursor, size, limit);
  }
}
