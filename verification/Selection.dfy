/** What a filter selects, in which order, and how many: said about the batches of a state, not about
    the way the queue is put together. */
module Selection {
  import opened Entities
  import opened Text
  import opened Queue

  const EVERYTHING := Filter("", None, None, None)

  // ---------- which batches ----------

  /** A batch of the state that a request asks for: created in the window, both ends included, by the
      station and in the status named, each only where it is given. */
  ghost predicate Wanted(s: State, f: Filter, b: Id) {
    && b in s.batches
    && var bt := s.batches[b];
       && (f.from.None? || f.from.value <= bt.createdAt) && (f.until.None? || bt.createdAt <= f.until.value)
       && (f.station == "" || bt.stationCode == f.station) && (f.status == None || f.status == Some(bt.status))
  }

  /** The queue lists exactly the batches asked for. */
  lemma ListedExactly(s: State, f: Filter, q: seq<Batch>, b: Id)
    requires IsQueue(s, f, q) && forall k :: k in s.batches ==> s.batches[k].id == k
    ensures (exists i :: 0 <= i < |q| && q[i].id == b) <==> Wanted(s, f, b)
    ensures forall i :: 0 <= i < |q| && q[i].id == b ==> b in s.batches && q[i] == s.batches[b]
  {
    hide Ordered;
    if i :| 0 <= i < |q| && q[i].id == b {
      assert q[i] in q;
    }
    if Wanted(s, f, b) {
      assert s.batches[b] in q;
    }
  }

  /** Newest first, by identifier among batches of one time, none twice. */
  lemma NewestFirst(s: State, f: Filter, q: seq<Batch>, i: nat, j: nat)
    requires IsQueue(s, f, q) && i < j < |q|
    ensures q[i].createdAt > q[j].createdAt || (q[i].createdAt == q[j].createdAt && Less(q[i].id, q[j].id))
    ensures q[i].id != q[j].id
  {
    assert q[i] in q && q[j] in q;
    LessIrreflexive(q[i].id);
  }

  // ---------- a window of time is a stretch of the queue ----------

  ghost predicate FallsAt(q: seq<Batch>, x: int, k: nat) {
    k <= |q| && (forall i :: 0 <= i < k ==> q[i].createdAt > x) && forall i :: k <= i < |q| ==> q[i].createdAt <= x
  }

  lemma {:induction false} Falls(q: seq<Batch>, x: int) returns (k: nat)
    requires forall i, j :: 0 <= i < j < |q| ==> q[i].createdAt >= q[j].createdAt
    ensures FallsAt(q, x, k)
  {
    if q == [] || q[0].createdAt <= x {
      k := 0;
    } else {
      var rest := Falls(q[1..], x);
      k := rest + 1;
      forall i | 0 <= i < |q|
        ensures if i < k then q[i].createdAt > x else q[i].createdAt <= x
      {
        if i > 0 {
          assert q[1..][i - 1] == q[i];
        }
      }
    }
  }

  /** A window of time alone selects one contiguous stretch of the whole queue. */
  lemma WindowIsStretch(s: State, all: seq<Batch>, q: seq<Batch>, from: Option<Time>, until: Option<Time>)
    returns (i: nat, j: nat)
    requires IsQueue(s, EVERYTHING, all) && IsQueue(s, Filter("", None, from, until), q)
    requires from.Some? && until.Some? ==> from.value <= until.value
    ensures i <= j <= |all| && q == all[i..j]
  {
    hide Ordered;
    forall k, l | 0 <= k < l < |all|
      ensures all[k].createdAt >= all[l].createdAt
    {
      NewestFirst(s, EVERYTHING, all, k, l);
    }
    i := 0;
    j := |all|;
    if until.Some? {
      i := Falls(all, until.value);
    }
    if from.Some? {
      j := Falls(all, from.value - 1);
    }
    if from.Some? && until.Some? {
      FallsInOrder(all, until.value, from.value - 1, i, j);
    }
    StretchIsQueue(s, all, from, until, i, j);
    QueueUnique(s, Filter("", None, from, until), q, all[i..j]);
  }

  lemma FallsInOrder(q: seq<Batch>, high: int, low: int, i: nat, j: nat)
    requires low <= high && FallsAt(q, high, i) && FallsAt(q, low, j)
    ensures i <= j
  {
    assert j < |q| ==> q[j].createdAt <= low;
  }

  lemma StretchIsQueue(s: State, all: seq<Batch>, from: Option<Time>, until: Option<Time>, i: nat, j: nat)
    requires IsQueue(s, EVERYTHING, all) && i <= j <= |all|
    requires if until.Some? then FallsAt(all, until.value, i) else i == 0
    requires if from.Some? then FallsAt(all, from.value - 1, j) else j == |all|
    ensures IsQueue(s, Filter("", None, from, until), all[i..j])
  {
    hide Ordered, FallsAt, Matches;
    var f := Filter("", None, from, until);
    PartOrdered(all, i, j);
    forall bt
      ensures bt in all[i..j] <==> bt.id in s.batches && s.batches[bt.id] == bt && Matches(f, bt)
    {
      MatchesAll(bt);
      if bt in all {
        var k :| 0 <= k < |all| && all[k] == bt;
        InsideWindow(all, from, until, i, j, k);
        InStretch(all, i, j, k);
      }
      if bt in all[i..j] {
        assert bt in all;
      }
    }
  }

  lemma MatchesAll(bt: Batch)
    ensures Matches(EVERYTHING, bt)
  {
  }

  lemma PartOrdered(q: seq<Batch>, i: nat, j: nat)
    requires Ordered(q) && i <= j <= |q|
    ensures Ordered(q[i..j])
  {
    forall k, l | 0 <= k < l < j - i
      ensures Ahead(At(q[i..j][k]), At(q[i..j][l]))
    {
      assert q[i..j][k] == q[i + k] && q[i..j][l] == q[i + l];
    }
  }

  lemma InsideWindow(q: seq<Batch>, from: Option<Time>, until: Option<Time>, i: nat, j: nat, k: nat)
    requires i <= j <= |q| && k < |q|
    requires if until.Some? then FallsAt(q, until.value, i) else i == 0
    requires if from.Some? then FallsAt(q, from.value - 1, j) else j == |q|
    ensures Matches(Filter("", None, from, until), q[k]) <==> i <= k < j
  {
  }

  lemma InStretch(q: seq<Batch>, i: nat, j: nat, k: nat)
    requires Ordered(q) && i <= j <= |q| && k < |q|
    ensures q[k] in q[i..j] <==> i <= k < j
  {
    hide Ahead, At;
    if i <= k < j {
      assert q[i..j][k - i] == q[k];
    }
    if q[k] in q[i..j] {
      var l :| 0 <= l < j - i && q[i..j][l] == q[k];
      AheadOneWay(At(q[k]), At(q[k]));
      assert q[i + l] == q[k];
    }
  }

  // ---------- how many ----------

  /** How many batches of the list have a status. */
  function CountStatus(q: seq<Batch>, st: Status): nat {
    if q == [] then 0 else CountStatus(q[..|q| - 1], st) + if q[|q| - 1].status == st then 1 else 0
  }

  /** Every batch is counted under exactly one status. */
  lemma {:induction false} CountsAddUp(q: seq<Batch>)
    ensures CountStatus(q, Draft) + CountStatus(q, PlanLocked) + CountStatus(q, Sampling) + CountStatus(q, Failed)
         + CountStatus(q, ReadyReview) + CountStatus(q, Returned) + CountStatus(q, Status.Frozen)
         + CountStatus(q, Released) == |q|
  {
    if q != [] {
      CountsAddUp(q[..|q| - 1]);
    }
  }

  datatype Summary = Summary(total: nat, byStatus: map<Status, nat>, pendingReview: nat, pendingIssue: nat)

  ghost predicate Summarizes(q: seq<Batch>, m: Summary) {
    && m.total == |q| && (forall st :: st in m.byStatus && m.byStatus[st] == CountStatus(q, st))
    && m.pendingReview == CountStatus(q, ReadyReview) && m.pendingIssue == CountStatus(q, Status.Frozen)
  }

  ghost function WantedIds(s: State, f: Filter): set<Id> {
    set b | b in s.batches && Wanted(s, f, b)
  }

  ghost function WantedIn(s: State, f: Filter, st: Status): set<Id> {
    set b | b in WantedIds(s, f) && s.batches[b].status == st
  }

  /** The summary counts the batches asked for: all of them, those in each status, those that wait for
      review and those that wait for their credential. */
  ghost predicate SummaryIs(s: State, f: Filter, m: Summary) {
    && m.total == |WantedIds(s, f)| && (forall st :: st in m.byStatus && m.byStatus[st] == |WantedIn(s, f, st)|)
    && m.pendingReview == |WantedIn(s, f, ReadyReview)| && m.pendingIssue == |WantedIn(s, f, Status.Frozen)|
  }

  ghost function IdsIn(q: seq<Batch>, st: Status): set<Id> {
    set i | 0 <= i < |q| && q[i].status == st :: q[i].id
  }

  lemma {:induction false} CountIsSize(q: seq<Batch>, st: Status)
    requires forall i, j :: 0 <= i < j < |q| ==> q[i].id != q[j].id
    ensures CountStatus(q, st) == |IdsIn(q, st)|
  {
    if q == [] {
      assert IdsIn(q, st) == {};
    } else {
      var init, last := q[..|q| - 1], q[|q| - 1];
      CountIsSize(init, st);
      IdsInSnoc(init, last, st);
      assert q == init + [last];
    }
  }

  lemma IdsInSnoc(init: seq<Batch>, last: Batch, st: Status)
    requires forall i :: 0 <= i < |init| ==> init[i].id != last.id
    ensures IdsIn(init + [last], st) == IdsIn(init, st) + (if last.status == st then {last.id} else {})
    ensures last.id !in IdsIn(init, st)
  {
    var q := init + [last];
    forall b | b in IdsIn(init, st) + (if last.status == st then {last.id} else {})
      ensures b in IdsIn(q, st)
    {
      if b in IdsIn(init, st) {
        var i :| 0 <= i < |init| && init[i].status == st && init[i].id == b;
        assert q[i] == init[i];
      } else {
        assert q[|init|] == last;
      }
    }
  }

  lemma {:induction false} LengthIsSize(q: seq<Batch>)
    requires forall i, j :: 0 <= i < j < |q| ==> q[i].id != q[j].id
    ensures |q| == |set i | 0 <= i < |q| :: q[i].id|
  {
    var ids := set i | 0 <= i < |q| :: q[i].id;
    if q == [] {
      assert ids == {};
    } else {
      var init, last := q[..|q| - 1], q[|q| - 1];
      LengthIsSize(init);
      assert ids == (set i | 0 <= i < |init| :: init[i].id) + {last.id};
      assert last.id !in (set i | 0 <= i < |init| :: init[i].id);
    }
  }

  lemma QueueSizes(s: State, f: Filter, q: seq<Batch>)
    requires IsQueue(s, f, q) && forall k :: k in s.batches ==> s.batches[k].id == k
    ensures |q| == |WantedIds(s, f)| && forall st :: CountStatus(q, st) == |WantedIn(s, f, st)|
  {
    hide IsQueue, Wanted;
    forall i, j | 0 <= i < j < |q|
      ensures q[i].id != q[j].id
    {
      NewestFirst(s, f, q, i, j);
    }
    forall b
      ensures (exists i :: 0 <= i < |q| && q[i].id == b) <==> Wanted(s, f, b)
      ensures Wanted(s, f, b) ==> b in s.batches
      ensures forall i :: 0 <= i < |q| && q[i].id == b ==> b in s.batches && q[i] == s.batches[b]
    {
      ListedExactly(s, f, q, b);
      WantedStored(s, f, b);
    }
    LengthIsSize(q);
    assert WantedIds(s, f) == set i | 0 <= i < |q| :: q[i].id;
    forall st
      ensures CountStatus(q, st) == |WantedIn(s, f, st)|
    {
      CountIsSize(q, st);
      assert IdsIn(q, st) == WantedIn(s, f, st);
    }
  }

  lemma WantedStored(s: State, f: Filter, b: Id)
    ensures Wanted(s, f, b) ==> b in s.batches
  {
  }

  /** The summary of a queue is the summary of the batches asked for. */
  lemma SummaryCounts(s: State, f: Filter, q: seq<Batch>, m: Summary)
    requires IsQueue(s, f, q) && Summarizes(q, m) && forall k :: k in s.batches ==> s.batches[k].id == k
    ensures SummaryIs(s, f, m)
  {
    hide IsQueue, Wanted, WantedIds, WantedIn;
    QueueSizes(s, f, q);
  }

  /** Asking for one status alone gives as many batches as the whole queue counts in it. */
  lemma StatusTotal(s: State, all: seq<Batch>, q: seq<Batch>, st: Status)
    requires IsQueue(s, EVERYTHING, all) && IsQueue(s, Filter("", Some(st), None, None), q)
    requires forall k :: k in s.batches ==> s.batches[k].id == k
    ensures |q| == CountStatus(all, st)
  {
    hide IsQueue;
    QueueSizes(s, EVERYTHING, all);
    QueueSizes(s, Filter("", Some(st), None, None), q);
    assert WantedIn(s, EVERYTHING, st) == WantedIds(s, Filter("", Some(st), None, None));
  }

  // ---------- pages ----------

  /** A page shows no more than was asked for, and as many when more are left. */
  lemma PageSize(q: seq<Batch>, after: Option<Position>, limit: nat, page: Page)
    requires IsPage(q, after, limit, page)
    ensures |page.items| <= limit && (page.next.Some? ==> |page.items| == limit)
  {
    hide IsStart, Ahead, At;
    var start: nat :| IsPageFrom(q, after, limit, page, start);
    StartWithin(q, after, start);
  }

  lemma StartWithin(q: seq<Batch>, after: Option<Position>, start: nat)
    requires IsStart(q, after, start)
    ensures start <= |q|
  {
  }
}
