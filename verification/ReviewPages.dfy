/**
 Paging through pending reviews with version 4 cursors while reviews are
 added, decided and their owners come and go between and during pages.
 */
module ReviewPages {
  import opened Common

  type TaskId = nat

  datatype Review = Review(id: nat, task: TaskId, sequence: nat)

  /** What one owner refresh found: owners it could not reach, owners with an active route, and what is pending afterwards. */
  datatype Refresh = Refresh(unavailable: set<TaskId>, routed: set<TaskId>, pending: set<Review>)

  /** Resume at this review, or below its sequence once it is gone; never beyond the frontier. */
  datatype Cursor = Cursor(resume: nat, fallback: nat, frontier: nat)

  const MAX_LIMIT: int := 100

  /** The sorted list: newest first. */
  predicate Descending(s: seq<Review>) {
    forall i, j :: 0 <= i < j < |s| ==> s[i].sequence > s[j].sequence
  }

  function AtMost(records: seq<Review>, frontier: nat): (r: seq<Review>)
    decreases |records|
  {
    if records == [] then []
    else if records[0].sequence <= frontier then [records[0]] + AtMost(records[1..], frontier)
    else AtMost(records[1..], frontier)
  }

  function Frontier(cursor: Option<Cursor>, records: seq<Review>): nat {
    if cursor.Some? then cursor.value.frontier else if records != [] then records[0].sequence else 0
  }

  function Listed(cursor: Option<Cursor>, records: seq<Review>): seq<Review> {
    if cursor.Some? then AtMost(records, cursor.value.frontier) else records
  }

  function IndexOfId(s: seq<Review>, id: nat): (i: nat)
    ensures i <= |s|
    ensures i < |s| ==> s[i].id == id
    ensures forall k :: 0 <= k < i ==> s[k].id != id
    decreases |s|
  {
    if s == [] || s[0].id == id then 0
    else
      var i := IndexOfId(s[1..], id);
      assert forall k :: 1 <= k < i + 1 ==> s[k] == s[1..][k - 1];
      i + 1
  }

  function IndexBelow(s: seq<Review>, fallback: nat): (i: nat)
    ensures i <= |s|
    ensures i < |s| ==> s[i].sequence < fallback
    ensures forall k :: 0 <= k < i ==> s[k].sequence >= fallback
    decreases |s|
  {
    if s == [] || s[0].sequence < fallback then 0
    else
      var i := IndexBelow(s[1..], fallback);
      assert forall k :: 1 <= k < i + 1 ==> s[k] == s[1..][k - 1];
      i + 1
  }

  /** `_resume_sequence_page`. */
  function Start(cursor: Option<Cursor>, list: seq<Review>): (i: nat)
    ensures i <= |list|
  {
    if cursor.None? then 0
    else
      var i := IndexOfId(list, cursor.value.resume);
      if i < |list| then i else IndexBelow(list, cursor.value.fallback)
  }

  // ----- one page

  /** The review is still pending with the same owner, and the owner's route is active. */
  predicate Admitted(r: Review, refresh: Refresh) {
    r in refresh.pending && r.task in refresh.routed
  }

  /** The reviews of list[start..scan] that are shown, each judged by the refresh of its batch. */
  function Shown(list: seq<Review>, start: nat, scan: nat, judges: seq<Refresh>): (items: seq<Review>)
    requires start <= scan <= |list| && scan - start <= |judges|
    ensures |items| <= scan - start
    decreases scan
  {
    if scan == start then []
    else
      Shown(list, start, scan - 1, judges)
      + if Admitted(list[scan - 1], judges[scan - 1 - start]) then [list[scan - 1]] else []
  }

  /** The loop's variables: what was shown of list[start..scan]. */
  ghost predicate Scanned(list: seq<Review>, start: nat, scan: nat, judges: seq<Refresh>, items: seq<Review>) {
    start <= scan <= |list| && |judges| == scan - start && items == Shown(list, start, scan, judges)
  }

  datatype Page = Page(items: seq<Review>, next: Option<Cursor>)

  /** A page of `list` scanned from `start`, one judge per scanned review. */
  ghost predicate PageAt(list: seq<Review>, start: nat, frontier: nat, limit: int, judges: seq<Refresh>, page: Page) {
    var end := start + |judges|;
    && end <= |list|
    && Scanned(list, start, end, judges, page.items) && |page.items| <= limit
    && page.next == if end < |list| then Some(Cursor(list[end].id, list[end].sequence, frontier)) else None
  }

  /** What a page is, given what its scan saw. */
  ghost predicate PageOk(cursor: Option<Cursor>, limit: int, records: seq<Review>, judges: seq<Refresh>, page: Page) {
    PageAt(Listed(cursor, records), Start(cursor, Listed(cursor, records)), Frontier(cursor, records), limit, judges, page)
  }

  /**
   `list_reviews`: batches of what still fits, each refreshed once; the page
   ends when it is full, the list is exhausted, or an owner is unreachable.
   */
  method ListReviews(cursor: Option<Cursor>, limit: int, records: seq<Review>, refreshes: nat -> Refresh)
    returns (page: Option<Page>, ghost judges: seq<Refresh>)
    ensures page.None? <==> limit <= 0 || limit > MAX_LIMIT
    ensures page.Some? ==> PageOk(cursor, limit, records, judges, page.value)
    ensures page.Some? && page.value.next.Some? && |page.value.items| < limit ==>
              exists b, r :: r in Listed(cursor, records) && r.id == page.value.next.value.resume
                             && r.task in refreshes(b).unavailable
  {
    judges := [];
    if limit <= 0 || limit > MAX_LIMIT {
      return None, [];
    }
    var list := Listed(cursor, records);
    var start := Start(cursor, list);
    var scan, items, blocked := start, [], false;
    var batches: nat := 0;
    while |items| < limit && scan < |list|
      invariant Scanned(list, start, scan, judges, items) && |items| <= limit
      invariant !blocked
      decreases |list| - scan
    {
      var end := if scan + (limit - |items|) < |list| then scan + (limit - |items|) else |list|;
      scan, items, blocked, judges := ScanBatch(list, start, scan, end, refreshes(batches), items, judges);
      if blocked {
        assert list[scan] in list && list[scan].task in refreshes(batches).unavailable;
        break;
      }
      batches := batches + 1;
    }
    var next := if scan < |list| then Some(Cursor(list[scan].id, list[scan].sequence, Frontier(cursor, records))) else None;
    page := Some(Page(items, next));
  }

  /** The inner loop: one refreshed batch, up to its first unreachable owner. */
  method ScanBatch(list: seq<Review>, ghost start: nat, first: nat, end: nat, refresh: Refresh, shown: seq<Review>, ghost before: seq<Refresh>)
    returns (scan: nat, items: seq<Review>, blocked: bool, ghost judges: seq<Refresh>)
    requires Scanned(list, start, first, before, shown) && first <= end <= |list|
    ensures first <= scan <= end && Scanned(list, start, scan, judges, items)
    ensures |items| <= |shown| + (scan - first)
    ensures if blocked then scan < end && list[scan].task in refresh.unavailable else scan == end
  {
    scan, items, blocked, judges := first, shown, false, before;
    while scan < end
      invariant first <= scan <= end && !blocked
      invariant Scanned(list, start, scan, judges, items) && |items| <= |shown| + (scan - first)
    {
      var original := list[scan];
      if original.task in refresh.unavailable {
        blocked := true;
        return;
      }
      ScanOne(list, start, scan, judges, items, refresh);
      scan := scan + 1;
      judges := judges + [refresh];
      if !Admitted(original, refresh) {
        continue;
      }
      items := items + [original];
    }
  }

  lemma {:induction false} ShownMore(list: seq<Review>, start: nat, scan: nat, judges: seq<Refresh>, more: seq<Refresh>)
    requires start <= scan <= |list| && scan - start <= |judges|
    ensures Shown(list, start, scan, judges + more) == Shown(list, start, scan, judges)
    decreases scan
  {
    if scan > start {
      ShownMore(list, start, scan - 1, judges, more);
    }
  }

  lemma ScanOne(list: seq<Review>, start: nat, scan: nat, judges: seq<Refresh>, items: seq<Review>, refresh: Refresh)
    requires Scanned(list, start, scan, judges, items) && scan < |list|
    ensures Admitted(list[scan], refresh) ==> Scanned(list, start, scan + 1, judges + [refresh], items + [list[scan]])
    ensures !Admitted(list[scan], refresh) ==> Scanned(list, start, scan + 1, judges + [refresh], items)
  {
    ShownMore(list, start, scan, judges, [refresh]);
    assert items + [] == items;
  }

  // ----- lists, starts and scans

  lemma {:induction false} AtMostSound(records: seq<Review>, frontier: nat)
    requires Descending(records)
    ensures Descending(AtMost(records, frontier))
    ensures forall r :: r in AtMost(records, frontier) <==> r in records && r.sequence <= frontier
    decreases |records|
  {
    if records != [] {
      var rest := AtMost(records[1..], frontier);
      AtMostSound(records[1..], frontier);
      assert records == [records[0]] + records[1..];
      forall k | 0 <= k < |rest| ensures records[0].sequence > rest[k].sequence {
        assert rest[k] in rest && rest[k] in records[1..];
      }
    }
  }

  /** Every sequence lies above lo and at or below hi. */
  predicate Between(s: seq<Review>, lo: int, hi: int) {
    forall i :: 0 <= i < |s| ==> lo < s[i].sequence <= hi
  }

  lemma {:induction false} ShownBetween(list: seq<Review>, start: nat, scan: nat, judges: seq<Refresh>, items: seq<Review>, lo: int, hi: int)
    requires Scanned(list, start, scan, judges, items)
    requires forall k :: start <= k < scan ==> lo < list[k].sequence <= hi
    ensures Between(items, lo, hi)
    decreases scan
  {
    if scan > start {
      var before := ScannedBefore(list, start, scan, judges, items);
      ShownBetween(list, start, scan - 1, judges[..|judges| - 1], before, lo, hi);
    }
  }

  /** What was shown before the last review was scanned. */
  lemma ScannedBefore(list: seq<Review>, start: nat, scan: nat, judges: seq<Refresh>, items: seq<Review>) returns (before: seq<Review>)
    requires Scanned(list, start, scan, judges, items) && scan > start
    ensures Scanned(list, start, scan - 1, judges[..|judges| - 1], before)
    ensures items == before || items == before + [list[scan - 1]]
  {
    var front, last := judges[..|judges| - 1], judges[|judges| - 1];
    assert judges == front + [last];
    before := Shown(list, start, scan - 1, front);
    ShownMore(list, start, scan - 1, front, [last]);
  }

  lemma {:induction false} ShownDescends(list: seq<Review>, start: nat, scan: nat, judges: seq<Refresh>, items: seq<Review>)
    requires Scanned(list, start, scan, judges, items) && Descending(list)
    ensures Descending(items)
    decreases scan
  {
    if scan > start {
      var before := ScannedBefore(list, start, scan, judges, items);
      ShownDescends(list, start, scan - 1, judges[..|judges| - 1], before);
      ShownBetween(list, start, scan - 1, judges[..|judges| - 1], before, list[scan - 1].sequence, list[start].sequence);
    }
  }

  lemma {:induction false} ShownCatches(list: seq<Review>, start: nat, scan: nat, judges: seq<Refresh>, k: nat)
    requires start <= k < scan <= |list| && scan - start <= |judges| && Admitted(list[k], judges[k - start])
    ensures list[k] in Shown(list, start, scan, judges)
    decreases scan
  {
    if k < scan - 1 {
      ShownCatches(list, start, scan - 1, judges, k);
    }
  }

  /** Review ids and ingest sequences are unique and never change. */
  ghost predicate Catalog(all: set<Review>) {
    forall a, b :: a in all && b in all && (a.id == b.id || a.sequence == b.sequence) ==> a == b
  }

  /** A cursor names a review that was listed when it was made. */
  predicate CursorOk(all: set<Review>, c: Cursor) {
    (exists r :: r in all && r.id == c.resume && r.sequence == c.fallback) && c.fallback <= c.frontier
  }

  /** Where a page starts: everything before is above the fallback, everything after is not. */
  lemma StartSplits(all: set<Review>, c: Cursor, list: seq<Review>)
    requires Catalog(all) && CursorOk(all, c) && Descending(list) && forall r :: r in list ==> r in all
    ensures var s := Start(Some(c), list);
            (forall k :: 0 <= k < s ==> list[k].sequence > c.fallback)
            && (forall k :: s <= k < |list| ==> list[k].sequence <= c.fallback)
  {
    var i := IndexOfId(list, c.resume);
    var named :| named in all && named.id == c.resume && named.sequence == c.fallback;
    if i < |list| {
      assert list[i] in list;
    } else {
      forall k | 0 <= k < |list| ensures list[k].sequence != c.fallback {
        assert list[k] in list;
      }
    }
  }

  // ----- a walk

  datatype Turn = Turn(records: seq<Review>, judges: seq<Refresh>, page: Page)

  /** A client follows the cursors from `cursor` until there is none. */
  ghost predicate Walk(cursor: Option<Cursor>, limit: int, turns: seq<Turn>)
    decreases |turns|
  {
    turns != [] && PageOk(cursor, limit, turns[0].records, turns[0].judges, turns[0].page)
    && if turns[0].page.next.None? then |turns| == 1 else Walk(turns[0].page.next, limit, turns[1..])
  }

  function Items(turns: seq<Turn>): seq<Review>
    decreases |turns|
  {
    if turns == [] then [] else turns[0].page.items + Items(turns[1..])
  }

  /** Every list the walk saw is the sorted list of some catalogued reviews. */
  ghost predicate Listing(all: set<Review>, turns: seq<Turn>) {
    forall t :: t in turns ==> Descending(t.records) && forall r :: r in t.records ==> r in all
  }

  /** Wherever this scan judged r itself, it was admitted; what was found for other reviews is open. */
  ghost predicate JudgedOk(r: Review, list: seq<Review>, start: nat, judges: seq<Refresh>) {
    forall k :: start <= k < |list| && k - start < |judges| && list[k] == r ==> Admitted(r, judges[k - start])
  }

  ghost predicate JudgedOn(r: Review, cursor: Option<Cursor>, t: Turn) {
    JudgedOk(r, Listed(cursor, t.records), Start(cursor, Listed(cursor, t.records)), t.judges)
  }

  /** Page after page until it is shown, the review is pending and, when its own turn comes, admitted. */
  ghost predicate Stays(r: Review, cursor: Option<Cursor>, turns: seq<Turn>)
    decreases |turns|
  {
    turns != [] ==>
      r in turns[0].records && JudgedOn(r, cursor, turns[0])
      && (r !in turns[0].page.items && turns[0].page.next.Some? ==> Stays(r, turns[0].page.next, turns[1..]))
  }

  /** The cursor's fallback, or the first page's frontier. */
  function Bound(cursor: Option<Cursor>, records: seq<Review>): nat {
    if cursor.Some? then cursor.value.fallback else Frontier(None, records)
  }

  /** The lowest sequence the page may show is above this. */
  function Floor(page: Page): int {
    if page.next.Some? then page.next.value.fallback else -1
  }

  lemma PageContributes(all: set<Review>, cursor: Option<Cursor>, limit: int, t: Turn)
    requires Catalog(all) && Descending(t.records) && (forall r :: r in t.records ==> r in all)
    requires cursor.Some? ==> CursorOk(all, cursor.value)
    requires PageOk(cursor, limit, t.records, t.judges, t.page)
    ensures Descending(t.page.items) && Between(t.page.items, Floor(t.page), Bound(cursor, t.records))
    ensures t.page.next.Some? ==>
              CursorOk(all, t.page.next.value) && t.page.next.value.frontier == Frontier(cursor, t.records)
              && t.page.next.value.fallback <= Bound(cursor, t.records)
  {
    var list := Listed(cursor, t.records);
    ListSound(all, cursor, t.records);
    PageBetween(all, list, Start(cursor, list), Frontier(cursor, t.records), limit, t.judges, t.page, Bound(cursor, t.records));
  }

  lemma PageBetween(all: set<Review>, list: seq<Review>, start: nat, frontier: nat, limit: int, judges: seq<Refresh>, page: Page, bound: int)
    requires PageAt(list, start, frontier, limit, judges, page)
    requires Descending(list) && forall k :: start <= k < |list| ==> list[k].sequence <= bound
    requires forall r :: r in list ==> r in all && r.sequence <= frontier
    ensures Descending(page.items) && Between(page.items, Floor(page), bound)
    ensures page.next.Some? ==>
              CursorOk(all, page.next.value) && page.next.value.frontier == frontier && page.next.value.fallback <= bound
  {
    var end := start + |judges|;
    SlicePage(list, start, end, judges, page.items, bound);
    assert Floor(page) == FloorAt(list, end);
    if end < |list| {
      assert list[end] in list;
    }
  }

  function FloorAt(list: seq<Review>, end: nat): int {
    if end < |list| then list[end].sequence else -1
  }

  /** What a scanned slice shows lies between its bound and the review it stops at. */
  lemma SlicePage(list: seq<Review>, start: nat, end: nat, judges: seq<Refresh>, items: seq<Review>, bound: int)
    requires Scanned(list, start, end, judges, items)
    requires Descending(list) && forall k :: start <= k < |list| ==> list[k].sequence <= bound
    ensures Descending(items) && Between(items, FloorAt(list, end), bound)
    ensures end < |list| ==> FloorAt(list, end) <= bound
  {
    ShownDescends(list, start, end, judges, items);
    ShownBetween(list, start, end, judges, items, FloorAt(list, end), bound);
  }

  lemma ListSound(all: set<Review>, cursor: Option<Cursor>, records: seq<Review>)
    requires Catalog(all) && Descending(records) && (forall r :: r in records ==> r in all)
    requires cursor.Some? ==> CursorOk(all, cursor.value)
    ensures var list := Listed(cursor, records);
            var start := Start(cursor, list);
            var bound := Bound(cursor, records);
            Descending(list) && (forall r :: r in list <==> r in records && r.sequence <= Frontier(cursor, records))
            && (forall k :: 0 <= k < start ==> list[k].sequence > bound)
            && (forall k :: start <= k < |list| ==> list[k].sequence <= bound)
            && (forall r :: r in list ==> r in all)
  {
    if cursor.Some? {
      AtMostSound(records, cursor.value.frontier);
      StartSplits(all, cursor.value, AtMost(records, cursor.value.frontier));
    } else {
      forall r | r in records ensures r.sequence <= Frontier(None, records) {
      }
    }
  }

  /** A review that stays is shown on the page that passes it, or the next cursor still has it ahead. */
  lemma PageCatches(all: set<Review>, cursor: Option<Cursor>, limit: int, t: Turn, r: Review)
    requires Catalog(all) && Descending(t.records) && (forall r :: r in t.records ==> r in all)
    requires cursor.Some? ==> CursorOk(all, cursor.value) && r.sequence <= cursor.value.fallback
    requires PageOk(cursor, limit, t.records, t.judges, t.page)
    requires r in t.records && JudgedOn(r, cursor, t)
    ensures r.sequence <= Bound(cursor, t.records)
    ensures r in t.page.items || (t.page.next.Some? && r.sequence <= t.page.next.value.fallback)
  {
    var list := Listed(cursor, t.records);
    ListSound(all, cursor, t.records);
    RecordListed(cursor, t.records, r);
    PageAtCatches(list, Start(cursor, list), Frontier(cursor, t.records), limit, t.judges, t.page, Bound(cursor, t.records), r);
  }

  lemma PageAtCatches(list: seq<Review>, start: nat, frontier: nat, limit: int, judges: seq<Refresh>, page: Page, bound: int, r: Review)
    requires PageAt(list, start, frontier, limit, judges, page) && Descending(list) && r in list && r.sequence <= bound
    requires forall k :: 0 <= k < start ==> list[k].sequence > bound
    requires JudgedOk(r, list, start, judges)
    ensures r in page.items || (page.next.Some? && r.sequence <= page.next.value.fallback)
  {
    SliceCatches(list, start, start + |judges|, judges, page.items, bound, r);
  }

  lemma SliceCatches(list: seq<Review>, start: nat, end: nat, judges: seq<Refresh>, items: seq<Review>, bound: int, r: Review)
    requires Scanned(list, start, end, judges, items) && Descending(list) && r in list && r.sequence <= bound
    requires forall k :: 0 <= k < start ==> list[k].sequence > bound
    requires JudgedOk(r, list, start, judges)
    ensures r in items || (end < |list| && r.sequence <= list[end].sequence)
  {
    var k :| 0 <= k < |list| && list[k] == r;
    if k < end {
      ShownCatches(list, start, end, judges, k);
    } else if k > end {
      assert list[end].sequence > list[k].sequence;
    }
  }

  lemma RecordListed(cursor: Option<Cursor>, records: seq<Review>, r: Review)
    requires Descending(records) && r in records
    requires cursor.Some? ==> r.sequence <= cursor.value.fallback <= cursor.value.frontier
    ensures r in Listed(cursor, records) && r.sequence <= Bound(cursor, records)
  {
    if cursor.Some? {
      AtMostSound(records, cursor.value.frontier);
    }
  }

  lemma DescendingJoin(a: seq<Review>, b: seq<Review>, bound: nat, hi: int)
    requires Descending(a) && Descending(b) && Between(a, bound, hi) && Between(b, -1, bound) && bound <= hi
    ensures Descending(a + b) && Between(a + b, -1, hi)
  {
  }

  /** A walk over catalogued reviews that starts at a well-made cursor. */
  ghost predicate GoodWalk(all: set<Review>, cursor: Option<Cursor>, limit: int, turns: seq<Turn>) {
    Catalog(all) && Listing(all, turns) && (cursor.Some? ==> CursorOk(all, cursor.value)) && Walk(cursor, limit, turns)
  }

  lemma {:induction false} WalkFrom(all: set<Review>, cursor: Option<Cursor>, limit: int, turns: seq<Turn>)
    requires GoodWalk(all, cursor, limit, turns)
    ensures Descending(Items(turns)) && Between(Items(turns), -1, Bound(cursor, turns[0].records))
    decreases |turns|
  {
    var t, rest := turns[0], turns[1..];
    assert t in turns;
    PageContributes(all, cursor, limit, t);
    if t.page.next.Some? {
      assert Listing(all, rest);
      WalkFrom(all, t.page.next, limit, rest);
      DescendingJoin(t.page.items, Items(rest), t.page.next.value.fallback, Bound(cursor, t.records));
    } else {
      assert Items(turns) == t.page.items;
    }
  }

  /** A page shows a review that stays, or leaves it to a cursor in good order. */
  lemma PageStep(all: set<Review>, cursor: Option<Cursor>, limit: int, turns: seq<Turn>, r: Review)
    requires Catalog(all) && turns != [] && Listing(all, turns) && Stays(r, cursor, turns)
    requires PageOk(cursor, limit, turns[0].records, turns[0].judges, turns[0].page)
    requires cursor.Some? ==> CursorOk(all, cursor.value) && r.sequence <= cursor.value.fallback
    ensures var page := turns[0].page;
            r in page.items
            || (page.next.Some? && CursorOk(all, page.next.value) && r.sequence <= page.next.value.fallback)
  {
    var t := turns[0];
    assert t in turns;
    PageContributes(all, cursor, limit, t);
    PageCatches(all, cursor, limit, t, r);
  }

  lemma ListingRest(all: set<Review>, turns: seq<Turn>)
    requires turns != [] && Listing(all, turns)
    ensures Listing(all, turns[1..])
  {
  }

  lemma {:induction false} WalkCatches(all: set<Review>, cursor: Option<Cursor>, limit: int, turns: seq<Turn>, r: Review)
    requires GoodWalk(all, cursor, limit, turns) && Stays(r, cursor, turns)
    requires cursor.Some? ==> r.sequence <= cursor.value.fallback
    ensures r in Items(turns)
    decreases |turns|
  {
    PageStep(all, cursor, limit, turns, r);
    if r !in turns[0].page.items {
      ListingRest(all, turns);
      WalkCatches(all, turns[0].page.next, limit, turns[1..], r);
    }
  }

  predicate OnceIn(r: Review, items: seq<Review>) {
    exists i :: 0 <= i < |items| && items[i] == r && forall j :: 0 <= j < |items| && items[j] == r ==> j == i
  }

  /**
   Walking the cursors to the end, with any reviews added or decided and any
   owners failing between and during the pages: reviews come in strictly
   descending ingest order, and never one that arrived after the first page.
   `PagesAreBounded` adds that no page exceeds the limit.
   */
  lemma WalkIsOrdered(all: set<Review>, limit: int, turns: seq<Turn>)
    requires GoodWalk(all, None, limit, turns)
    ensures Descending(Items(turns))
    ensures forall r :: r in Items(turns) ==> r.sequence <= Frontier(None, turns[0].records)
  {
    WalkFrom(all, None, limit, turns);
    var items := Items(turns);
    forall r | r in items ensures r.sequence <= Frontier(None, turns[0].records) {
      var i :| 0 <= i < |items| && items[i] == r;
    }
  }

  /**
   And a review that stays pending until it is shown, with an owner that is
   admitted when the review itself is looked at, comes exactly once, whatever
   the refreshes find about all other owners.
   */
  lemma WalkIsExact(all: set<Review>, limit: int, turns: seq<Turn>)
    requires GoodWalk(all, None, limit, turns)
    ensures forall r :: Stays(r, None, turns) ==> OnceIn(r, Items(turns))
  {
    WalkFrom(all, None, limit, turns);
    var items := Items(turns);
    forall r | Stays(r, None, turns) ensures OnceIn(r, items) {
      WalkCatches(all, None, limit, turns, r);
      var i :| 0 <= i < |items| && items[i] == r;
      assert forall j :: 0 <= j < |items| && items[j] == r ==> j == i;
    }
  }

  lemma {:induction false} ShownWasAdmitted(list: seq<Review>, start: nat, scan: nat, judges: seq<Refresh>, r: Review) returns (k: nat)
    requires start <= scan <= |list| && scan - start <= |judges| && r in Shown(list, start, scan, judges)
    ensures start <= k < scan && list[k] == r && Admitted(r, judges[k - start])
    decreases scan
  {
    if r in Shown(list, start, scan - 1, judges) {
      k := ShownWasAdmitted(list, start, scan - 1, judges, r);
    } else {
      k := scan - 1;
    }
  }

  /** Nothing is shown that was not listed and admitted at its own turn. */
  lemma {:induction false} ItemsWereAdmitted(cursor: Option<Cursor>, limit: int, turns: seq<Turn>, r: Review) returns (t: Turn, j: Refresh)
    requires Walk(cursor, limit, turns) && r in Items(turns)
    ensures t in turns && r in t.page.items && j in t.judges && Admitted(r, j)
    decreases |turns|
  {
    if r in turns[0].page.items {
      t := turns[0];
      var list := Listed(cursor, t.records);
      var start := Start(cursor, list);
      var k := ShownWasAdmitted(list, start, start + |t.judges|, t.judges, r);
      j := t.judges[k - start];
    } else {
      t, j := ItemsWereAdmitted(turns[0].page.next, limit, turns[1..], r);
    }
  }

  // ----- two owners, one review a page

  const NEWER := Review(2, 20, 2)
  const OLDER := Review(1, 10, 1)

  /** A refresh that knows one owner only, as a batch of one review makes it. */
  function RefreshOf(r: Review): Refresh {
    Refresh({}, {r.task}, {NEWER, OLDER})
  }

  const TWO_PAGES := [
    Turn([NEWER, OLDER], [RefreshOf(NEWER)], Page([NEWER], Some(Cursor(1, 1, 2)))),
    Turn([NEWER, OLDER], [RefreshOf(OLDER)], Page([OLDER], None))]

  const RESUMED := Some(Cursor(1, 1, 2))

  lemma FirstOfTwo()
    ensures PageOk(None, 1, [NEWER, OLDER], [RefreshOf(NEWER)], TWO_PAGES[0].page)
  {
    assert Shown([NEWER, OLDER], 0, 1, [RefreshOf(NEWER)]) == [NEWER];
  }

  lemma ResumesAtOlder()
    ensures Listed(RESUMED, [NEWER, OLDER]) == [NEWER, OLDER] && Start(RESUMED, [NEWER, OLDER]) == 1
  {
    var list := [NEWER, OLDER];
    assert list[1..] == [OLDER] && [OLDER][1..] == [];
    assert AtMost([OLDER], 2) == [OLDER] + AtMost([OLDER][1..], 2);
    assert AtMost(list, 2) == [NEWER] + AtMost(list[1..], 2);
  }

  lemma SecondOfTwo()
    ensures PageOk(RESUMED, 1, [NEWER, OLDER], [RefreshOf(OLDER)], TWO_PAGES[1].page)
  {
    ResumesAtOlder();
    assert Shown([NEWER, OLDER], 1, 2, [RefreshOf(OLDER)]) == [OLDER];
    assert PageAt([NEWER, OLDER], 1, 2, 1, [RefreshOf(OLDER)], TWO_PAGES[1].page);
  }

  lemma TwoPagesWalk()
    ensures GoodWalk({NEWER, OLDER}, None, 1, TWO_PAGES)
  {
    FirstOfTwo();
    SecondOfTwo();
    assert TWO_PAGES[1..] == [TWO_PAGES[1]];
    assert Walk(RESUMED, 1, [TWO_PAGES[1]]);
  }

  lemma NewerStays()
    ensures Stays(NEWER, None, TWO_PAGES)
  {
    assert NEWER in TWO_PAGES[0].records && NEWER in TWO_PAGES[0].page.items;
    assert JudgedOn(NEWER, None, TWO_PAGES[0]);
  }

  lemma OlderStaysResumed()
    ensures Stays(OLDER, RESUMED, [TWO_PAGES[1]])
  {
    ResumesAtOlder();
    assert OLDER in TWO_PAGES[1].records && OLDER in TWO_PAGES[1].page.items;
    assert JudgedOk(OLDER, [NEWER, OLDER], 1, [RefreshOf(OLDER)]);
  }

  lemma OlderStays()
    ensures Stays(OLDER, None, TWO_PAGES)
  {
    OlderStaysResumed();
    assert TWO_PAGES[1..] == [TWO_PAGES[1]];
    assert OLDER in TWO_PAGES[0].records;
    assert JudgedOk(OLDER, [NEWER, OLDER], 0, [RefreshOf(NEWER)]);
  }

  /** Reviews of different owners on different pages both stay, although neither refresh admits the other's review. */
  lemma DifferentOwnersStay()
    ensures GoodWalk({NEWER, OLDER}, None, 1, TWO_PAGES)
    ensures Stays(NEWER, None, TWO_PAGES) && Stays(OLDER, None, TWO_PAGES)
    ensures !Admitted(OLDER, RefreshOf(NEWER)) && !Admitted(NEWER, RefreshOf(OLDER))
  {
    TwoPagesWalk();
    NewerStays();
    OlderStays();
  }

  lemma {:induction false} PagesAreBounded(cursor: Option<Cursor>, limit: int, turns: seq<Turn>)
    requires Walk(cursor, limit, turns)
    ensures forall t :: t in turns ==> |t.page.items| <= limit
    decreases |turns|
  {
    if turns[0].page.next.Some? {
      PagesAreBounded(turns[0].page.next, limit, turns[1..]);
    }
    assert turns == [turns[0]] + turns[1..];
  }
}
