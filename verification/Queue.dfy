/** The work queue: batches by time of creation, newest first, read page by page behind a cursor
    that names the last batch seen. */
module Queue {
  import opened Entities
  import opened Text

  // ---------- the order of the queue ----------

  datatype Position = Position(createdAt: Time, id: Id)

  function At(bt: Batch): Position {
    Position(bt.createdAt, bt.id)
  }

  predicate Ahead(a: Position, b: Position) {
    a.createdAt > b.createdAt || (a.createdAt == b.createdAt && Less(a.id, b.id))
  }

  lemma AheadTransitive(a: Position, b: Position, c: Position)
    requires Ahead(a, b) && Ahead(b, c)
    ensures Ahead(a, c)
  {
    if a.createdAt == b.createdAt && b.createdAt == c.createdAt {
      LessTransitive(a.id, b.id, c.id);
    }
  }

  lemma AheadOneWay(a: Position, b: Position)
    ensures !(Ahead(a, b) && Ahead(b, a)) && (Ahead(a, b) ==> a != b)
  {
    LessOneWay(a.id, b.id);
    LessIrreflexive(a.id);
  }

  lemma AheadTotal(a: Position, b: Position)
    requires a != b
    ensures Ahead(a, b) || Ahead(b, a)
  {
    if a.createdAt == b.createdAt {
      LessTotal(a.id, b.id);
    }
  }

  ghost predicate Ordered(q: seq<Batch>) {
    forall i, j :: 0 <= i < j < |q| ==> Ahead(At(q[i]), At(q[j]))
  }

  function InsertBatch(x: Batch, q: seq<Batch>): (r: seq<Batch>)
    ensures Elements(r) == Elements(q) + {x}
  {
    if q == [] then [x]
    else if Ahead(At(x), At(q[0])) then
      ElementsCons(x, q);
      [x] + q
    else
      ElementsCons(q[0], q[1..]);
      ElementsCons(q[0], InsertBatch(x, q[1..]));
      assert [q[0]] + q[1..] == q;
      [q[0]] + InsertBatch(x, q[1..])
  }

  /** The library sort by position. */
  function SortBatches(xs: seq<Batch>): (r: seq<Batch>)
    ensures Elements(r) == Elements(xs)
  {
    if xs == [] then []
    else
      assert Elements(xs) == {xs[0]} + Elements(xs[1..]);
      InsertBatch(xs[0], SortBatches(xs[1..]))
  }

  ghost predicate DifferentPlaces(xs: seq<Batch>) {
    forall i, j :: 0 <= i < j < |xs| ==> At(xs[i]) != At(xs[j])
  }

  lemma {:induction false} InsertOrders(x: Batch, q: seq<Batch>)
    requires Ordered(q) && forall i :: 0 <= i < |q| ==> At(q[i]) != At(x)
    ensures Ordered(InsertBatch(x, q))
  {
    if q == [] {
    } else if Ahead(At(x), At(q[0])) {
      forall i, j | 0 <= i < j < |q| + 1
        ensures Ahead(At(([x] + q)[i]), At(([x] + q)[j]))
      {
        if i == 0 && j > 1 {
          AheadTransitive(At(x), At(q[0]), At(q[j - 1]));
        }
      }
    } else {
      InsertOrders(x, q[1..]);
      AheadTotal(At(x), At(q[0]));
      var rest := InsertBatch(x, q[1..]);
      forall j | 0 <= j < |rest|
        ensures Ahead(At(q[0]), At(rest[j]))
      {
        assert rest[j] in Elements(rest);
        assert rest[j] == x || rest[j] in q[1..];
      }
    }
  }

  lemma {:induction false} SortOrders(xs: seq<Batch>)
    requires DifferentPlaces(xs)
    ensures Ordered(SortBatches(xs))
  {
    if xs != [] {
      var rest := SortBatches(xs[1..]);
      SortOrders(xs[1..]);
      forall i | 0 <= i < |rest|
        ensures At(rest[i]) != At(xs[0])
      {
        assert rest[i] in Elements(rest);
        var j :| 0 <= j < |xs[1..]| && xs[1..][j] == rest[i];
        assert xs[j + 1] == rest[i];
      }
      InsertOrders(xs[0], rest);
    }
  }

  lemma HeadFirst(q: seq<Batch>, x: Batch)
    requires Ordered(q) && x in q
    ensures x == q[0] || Ahead(At(q[0]), At(x))
  {
  }

  lemma HeadAlone(q: seq<Batch>)
    requires Ordered(q) && q != []
    ensures q[0] !in q[1..]
  {
    forall i | 0 <= i < |q[1..]|
      ensures q[1..][i] != q[0]
    {
      AheadOneWay(At(q[0]), At(q[i + 1]));
    }
  }

  /** The order leaves one way to list a set of batches. */
  lemma {:induction false} OrderedUnique(p: seq<Batch>, q: seq<Batch>)
    requires Ordered(p) && Ordered(q) && Elements(p) == Elements(q)
    ensures p == q
  {
    assert p != [] ==> p[0] in Elements(p);
    assert q != [] ==> q[0] in Elements(q);
    if p != [] {
      HeadFirst(p, q[0]);
      HeadFirst(q, p[0]);
      AheadOneWay(At(p[0]), At(q[0]));
      HeadAlone(p);
      HeadAlone(q);
      ElementsCons(p[0], p[1..]);
      ElementsCons(q[0], q[1..]);
      assert p == [p[0]] + p[1..] && q == [q[0]] + q[1..];
      assert Elements(p[1..]) == Elements(p) - {p[0]};
      assert Elements(q[1..]) == Elements(q) - {q[0]};
      OrderedUnique(p[1..], q[1..]);
    }
  }

  // ---------- filters ----------

  datatype Filter = Filter(station: string, status: Option<Status>, from: Option<Time>, until: Option<Time>)

  predicate Matches(f: Filter, bt: Batch) {
    && (f.station != "" ==> bt.stationCode == f.station)
    && (f.status.Some? ==> bt.status == f.status.value)
    && (f.from.Some? ==> bt.createdAt >= f.from.value)
    && (f.until.Some? ==> bt.createdAt <= f.until.value)
  }

  /** The matching batches of a state in the order of the queue. */
  ghost predicate IsQueue(s: State, f: Filter, q: seq<Batch>) {
    Ordered(q) && forall bt :: bt in q <==> bt.id in s.batches && s.batches[bt.id] == bt && Matches(f, bt)
  }

  lemma QueueUnique(s: State, f: Filter, p: seq<Batch>, q: seq<Batch>)
    requires IsQueue(s, f, p) && IsQueue(s, f, q)
    ensures p == q
  {
    forall bt
      ensures bt in Elements(p) <==> bt in Elements(q)
    {
    }
    OrderedUnique(p, q);
  }

  // ---------- pages ----------

  /** How many batches at the head of the queue the cursor has passed. */
  ghost predicate IsStart(q: seq<Batch>, after: Option<Position>, start: nat) {
    && start <= |q|
    && (after.None? ==> start == 0)
    && (after.Some? ==>
          && (forall i :: 0 <= i < start ==> !Ahead(after.value, At(q[i])))
          && (forall i :: start <= i < |q| ==> Ahead(after.value, At(q[i]))))
  }

  datatype Page = Page(items: seq<Batch>, next: Option<Position>)

  /** The first `limit` batches behind the cursor, with a cursor for the rest if there is any. */
  ghost predicate IsPage(q: seq<Batch>, after: Option<Position>, limit: nat, page: Page) {
    exists start: nat :: IsPageFrom(q, after, limit, page, start)
  }

  ghost predicate IsPageFrom(q: seq<Batch>, after: Option<Position>, limit: nat, page: Page, start: nat) {
    && IsStart(q, after, start)
    && var end := if start + limit > |q| then |q| else start + limit;
       && page.items == q[start..end]
       && page.next == if end < |q| && end > start then Some(At(q[end - 1])) else None
  }

  // ---------- walks along the queue while it changes ----------

  function CursorFor(pages: seq<Page>, i: nat): Option<Position>
    requires i <= |pages|
  {
    if i == 0 then None else pages[i - 1].next
  }

  /** One page per state, each behind the cursor of the one before. */
  ghost predicate IsWalk(qs: seq<seq<Batch>>, limits: seq<nat>, pages: seq<Page>) {
    && |qs| == |limits| == |pages|
    && (forall i :: 0 <= i < |pages| ==> limits[i] > 0 && Ordered(qs[i]))
    && (forall i :: 0 <= i < |pages| ==> IsPage(qs[i], CursorFor(pages, i), limits[i], pages[i]))
    && (forall i :: 0 <= i < |pages| - 1 ==> pages[i].next.Some?)
  }

  lemma PageBehindCursor(q: seq<Batch>, after: Option<Position>, limit: nat, page: Page, k: nat)
    requires Ordered(q) && IsPage(q, after, limit, page) && k < |page.items|
    ensures after.Some? ==> Ahead(after.value, At(page.items[k]))
    ensures Ordered(page.items) && page.items[k] in q
    ensures page.next.Some? ==> page.items[k] == page.items[|page.items| - 1] || Ahead(At(page.items[k]), page.next.value)
    ensures page.next.Some? ==> page.next.value == At(page.items[|page.items| - 1])
  {
    hide Ahead, At;
    var start: nat :| IsPageFrom(q, after, limit, page, start);
    assert page.items[k] == q[start + k];
  }

  /** Whatever is behind the cursor is on the page or behind the next cursor, and on the last page
      nothing is left behind. */
  lemma PageTakesOrLeaves(q: seq<Batch>, after: Option<Position>, limit: nat, page: Page, x: Batch)
    requires Ordered(q) && limit > 0 && IsPage(q, after, limit, page) && x in q
    requires (after.Some? ==> Ahead(after.value, At(x)))
    ensures x in page.items || (page.next.Some? && Ahead(page.next.value, At(x)))
  {
    var start: nat :| IsPageFrom(q, after, limit, page, start);
    var i :| 0 <= i < |q| && q[i] == x;
    var end := if start + limit > |q| then |q| else start + limit;
    if i < end {
      assert page.items[i - start] == x;
    }
  }

  /** No batch appears twice: what a later page shows lies behind what an earlier page showed. */
  lemma {:induction false} WalkMovesOn(qs: seq<seq<Batch>>, limits: seq<nat>, pages: seq<Page>, i: nat, j: nat, k: nat,
                                       l: nat)
    requires IsWalk(qs, limits, pages) && i <= j < |pages| && k < |pages[i].items| && l < |pages[j].items|
    requires (i == j ==> k < l)
    ensures Ahead(At(pages[i].items[k]), At(pages[j].items[l]))
    decreases j
  {
    hide IsPage;
    PageBehindCursor(qs[j], CursorFor(pages, j), limits[j], pages[j], l);
    if i < j {
      CursorAhead(qs, limits, pages, i, j - 1, k);
      var cursor := pages[j - 1].next.value;
      if At(pages[i].items[k]) != cursor {
        AheadTransitive(At(pages[i].items[k]), cursor, At(pages[j].items[l]));
      }
    }
  }

  /** The cursor after page `j` is at or behind everything shown so far. */
  lemma {:induction false} CursorAhead(qs: seq<seq<Batch>>, limits: seq<nat>, pages: seq<Page>, i: nat, j: nat, k: nat)
    requires IsWalk(qs, limits, pages) && i <= j < |pages| && k < |pages[i].items| && pages[j].next.Some?
    ensures At(pages[i].items[k]) == pages[j].next.value || Ahead(At(pages[i].items[k]), pages[j].next.value)
    decreases j
  {
    hide IsPage;
    if i == j {
      PageBehindCursor(qs[j], CursorFor(pages, j), limits[j], pages[j], k);
    } else {
      CursorAhead(qs, limits, pages, i, j - 1, k);
      NextNotEmpty(qs[j], CursorFor(pages, j), limits[j], pages[j]);
      PageBehindCursor(qs[j], CursorFor(pages, j), limits[j], pages[j], |pages[j].items| - 1);
      if At(pages[i].items[k]) != pages[j - 1].next.value {
        AheadTransitive(At(pages[i].items[k]), pages[j - 1].next.value, pages[j].next.value);
      }
    }
  }

  lemma NextNotEmpty(q: seq<Batch>, after: Option<Position>, limit: nat, page: Page)
    requires IsPage(q, after, limit, page) && page.next.Some?
    ensures page.items != []
  {
  }

  /** The batch stands in every one of the queues, at one place. */
  ghost predicate StaysIn(qs: seq<seq<Batch>>, p: Position) {
    forall i :: 0 <= i < |qs| ==> exists x :: x in qs[i] && At(x) == p
  }

  ghost predicate ShownOn(page: Page, p: Position) {
    exists k :: 0 <= k < |page.items| && At(page.items[k]) == p
  }

  /** Until a batch that stays in the queue has been shown, it is behind the cursor. */
  lemma {:induction false} NotYetShown(qs: seq<seq<Batch>>, limits: seq<nat>, pages: seq<Page>, p: Position, n: nat)
    requires IsWalk(qs, limits, pages) && StaysIn(qs, p) && n < |pages|
    requires forall i :: 0 <= i <= n ==> !ShownOn(pages[i], p)
    ensures pages[n].next.Some? && Ahead(pages[n].next.value, p)
  {
    hide IsPage;
    if n > 0 {
      NotYetShown(qs, limits, pages, p, n - 1);
    }
    var x :| x in qs[n] && At(x) == p;
    PageTakesOrLeaves(qs[n], CursorFor(pages, n), limits[n], pages[n], x);
    NotListed(pages[n], x);
  }

  lemma NotListed(page: Page, x: Batch)
    requires !ShownOn(page, At(x))
    ensures x !in page.items
  {
  }

  /** Exactly once: along a walk that has come to its end, a batch that was in the queue all the
      time is shown on exactly one page, at one place, however the queue changed between the pages
      and whatever the limits. */
  lemma ShownExactlyOnce(qs: seq<seq<Batch>>, limits: seq<nat>, pages: seq<Page>, p: Position) returns (i: nat)
    requires IsWalk(qs, limits, pages) && StaysIn(qs, p) && pages != [] && pages[|pages| - 1].next.None?
    ensures i < |pages| && ShownOn(pages[i], p)
    ensures forall j :: 0 <= j < |pages| && ShownOn(pages[j], p) ==> j == i
  {
    hide IsWalk, StaysIn, ShownOn;
    if forall j :: 0 <= j < |pages| ==> !ShownOn(pages[j], p) {
      NotYetShown(qs, limits, pages, p, |pages| - 1);
    }
    i :| 0 <= i < |pages| && ShownOn(pages[i], p);
    forall j | 0 <= j < |pages| && ShownOn(pages[j], p)
      ensures j == i
    {
      ShownOnce(qs, limits, pages, p, i, j);
    }
  }

  lemma ShownOnce(qs: seq<seq<Batch>>, limits: seq<nat>, pages: seq<Page>, p: Position, i: nat, j: nat)
    requires IsWalk(qs, limits, pages) && i < |pages| && j < |pages| && ShownOn(pages[i], p) && ShownOn(pages[j], p)
    ensures i == j
  {
    hide IsWalk;
    var k :| 0 <= k < |pages[i].items| && At(pages[i].items[k]) == p;
    var l :| 0 <= l < |pages[j].items| && At(pages[j].items[l]) == p;
    if i < j {
      WalkMovesOn(qs, limits, pages, i, j, k, l);
    } else if j < i {
      WalkMovesOn(qs, limits, pages, j, i, l, k);
    }
    AheadOneWay(p, p);
  }

  // ---------- a queue that does not change ----------

  function Shown(pages: seq<Page>): seq<Batch> {
    if pages == [] then [] else Shown(pages[..|pages| - 1]) + pages[|pages| - 1].items
  }

  lemma StartIsThere(q: seq<Batch>, n: nat, start: nat)
    requires Ordered(q) && 0 < n <= |q| && IsStart(q, Some(At(q[n - 1])), start)
    ensures start == n
  {
    AheadOneWay(At(q[n - 1]), At(q[n - 1]));
    assert n < |q| ==> Ahead(At(q[n - 1]), At(q[n]));
  }

  ghost predicate SameQueue(qs: seq<seq<Batch>>, q: seq<Batch>) {
    forall i :: 0 <= i < |qs| ==> qs[i] == q
  }

  function CutAt(n: nat, limit: nat, size: nat): nat {
    if n + limit > size then size else n + limit
  }

  lemma NextPiece(q: seq<Batch>, done: nat, after: Option<Position>, limit: nat, page: Page)
    requires Ordered(q) && limit > 0 && IsPage(q, after, limit, page) && done <= |q|
    requires if done == 0 then after.None? else after == Some(At(q[done - 1]))
    ensures var end := CutAt(done, limit, |q|);
      && done <= end <= |q| && (done < |q| ==> done < end) && q[..done] + page.items == q[..end]
      && page.next == if end < |q| then Some(At(q[end - 1])) else None
  {
    var start: nat :| IsPageFrom(q, after, limit, page, start);
    if done > 0 {
      StartIsThere(q, done, start);
    }
    var end := CutAt(done, limit, |q|);
    assert q[..done] + q[done..end] == q[..end];
  }

  lemma ShownNext(pages: seq<Page>, n: nat)
    requires n < |pages|
    ensures Shown(pages[..n + 1]) == Shown(pages[..n]) + pages[n].items
  {
    assert pages[..n + 1][..n] == pages[..n];
  }

  lemma WalkPage(qs: seq<seq<Batch>>, limits: seq<nat>, pages: seq<Page>, q: seq<Batch>, n: nat)
    requires IsWalk(qs, limits, pages) && SameQueue(qs, q) && n < |pages|
    ensures |limits| == |pages| && Ordered(q) && limits[n] > 0 &&
        IsPage(q, CursorFor(pages, n), limits[n], pages[n]) && (n > 0 ==> pages[n - 1].next.Some?)
  {
    hide IsPage, Ordered;
    assert qs[n] == q && limits[n] > 0 && Ordered(qs[n]);
  }

  /** On a queue that does not change the pages are its consecutive pieces. */
  lemma {:induction false} WalkIsPrefix(qs: seq<seq<Batch>>, limits: seq<nat>, pages: seq<Page>, q: seq<Batch>, n: nat)
    returns (done: nat)
    requires IsWalk(qs, limits, pages) && SameQueue(qs, q) && n < |pages|
    ensures done <= |q| && Shown(pages[..n + 1]) == q[..done] && (done < |q| ==> done > n)
    ensures pages[n].next == if done < |q| then Some(At(q[done - 1])) else None
  {
    hide IsPage, Ordered, IsWalk, Shown;
    var before := 0;
    if n > 0 {
      before := WalkIsPrefix(qs, limits, pages, q, n - 1);
    } else {
      NothingShown(pages);
    }
    WalkPage(qs, limits, pages, q, n);
    ShownNext(pages, n);
    NextPiece(q, before, CursorFor(pages, n), limits[n], pages[n]);
    done := CutAt(before, limits[n], |q|);
  }

  lemma NothingShown(pages: seq<Page>)
    ensures Shown(pages[..0]) == []
  {
    assert pages[..0] == [];
  }

  /** On a queue that does not change the pages of a finished walk are together the whole list, in
      order, and no walk has more pages than there are batches, or one if there are none. */
  lemma WalkIsWhole(qs: seq<seq<Batch>>, limits: seq<nat>, pages: seq<Page>, q: seq<Batch>)
    requires IsWalk(qs, limits, pages) && SameQueue(qs, q) && pages != []
    ensures pages[|pages| - 1].next.None? <==> Shown(pages) == q
    ensures |pages| <= |q| || |pages| == 1
  {
    hide IsWalk, Shown;
    var n := |pages| - 1;
    assert pages[..n + 1] == pages;
    var done := WalkIsPrefix(qs, limits, pages, q, n);
    assert q[..|q|] == q;
    if n > 0 {
      var before := WalkIsPrefix(qs, limits, pages, q, n - 1);
      WalkPage(qs, limits, pages, q, n);
    }
  }
}
