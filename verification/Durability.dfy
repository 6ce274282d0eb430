/** What the commit protocol guarantees over every run with crashes and failed writes. */
module Durability {
  import opened Entities
  import opened Frozen
  import opened Domain
  import opened Invariant
  import StatusChange
  import opened Runs
  import Commands
  import opened Validation
  import opened Ledger
  import opened Storage

  // ---------- ledgers written by the store ----------

  /** The event records an accepted command on the projection before it. */
  ghost predicate CausedBy(h: Material -> string, before: State, e: Event, c: Call) {
    && c.cmd.batchID == e.aggregateID && c.actor == e.actor && KindOf(c.cmd) == e.kind && Fresh(before, c) &&
        EnoughIds(before, c.cmd)
    && Execute(h, before, c.actor, c.cmd, c.now) == Done(e.projection)
    && e.aggregateID in e.projection.batches && e.reply == Commands.ReplyTo(before, e.projection, c.cmd)
  }

  ghost predicate KeyUnused(events: seq<Event>, i: nat)
    requires i < |events|
  {
    forall j :: 0 <= j < i ==> events[j].aggregateID != events[i].aggregateID || events[j].key != events[i].key
  }

  ghost predicate EventOk(h: Material -> string, events: seq<Event>, i: nat)
    requires i < |events|
  {
    var e := events[i];
    && e.schemaVersion == 1 && e.aggregateID != "" && e.key != "" && e.at != 0
    && e.aggregateVersion == VersionOf(e.projection, e.aggregateID)
    && (exists c :: CausedBy(h, LastProjection(events[..i]), e, c))
    && KeyUnused(events, i)
  }

  ghost predicate Logged(h: Material -> string, events: seq<Event>) {
    forall i :: 0 <= i < |events| ==> EventOk(h, events, i)
  }

  lemma LoggedPrefix(h: Material -> string, events: seq<Event>, n: nat)
    requires Logged(h, events) && n <= |events|
    ensures Logged(h, events[..n])
  {
    hide CausedBy;
    forall i | 0 <= i < n
      ensures EventOk(h, events[..n], i)
    {
      assert EventOk(h, events, i);
      assert events[..n][..i] == events[..i];
    }
  }

  /** What one event changes: the version of its own aggregate by one, and nothing of any other batch. */
  lemma EventSteps(h: Material -> string, before: State, e: Event, c: Call)
    requires Inv(h, before) && CausedBy(h, before, e, c)
    ensures StepKeeps(h, before, e.projection, e.aggregateID)
  {
    hide Inv, Fresh, Execute, StepKeeps, EnoughIds;
    ExecuteKeeps(h, before, c);
  }

  lemma {:induction false} LoggedInv(h: Material -> string, events: seq<Event>)
    requires Logged(h, events)
    ensures Inv(h, LastProjection(events))
  {
    hide Inv, CausedBy;
    if events == [] {
      EmptyInv(h);
    } else {
      var n := |events| - 1;
      LoggedPrefix(h, events, n);
      LoggedInv(h, events[..n]);
      assert EventOk(h, events, n);
      var c :| CausedBy(h, LastProjection(events[..n]), events[n], c);
      EventSteps(h, LastProjection(events[..n]), events[n], c);
    }
  }

  /** Every projection in a ledger written by the store is a state some run reaches. */
  lemma {:induction false} LoggedReachable(h: Material -> string, events: seq<Event>) returns (calls: seq<Call>)
    requires Logged(h, events)
    ensures Reaches(h, EMPTY, calls, LastProjection(events)) && |calls| == |events|
  {
    hide CausedBy, Inv, Fresh, Execute;
    if events == [] {
      calls := [];
    } else {
      var n := |events| - 1;
      LoggedPrefix(h, events, n);
      var rest := LoggedReachable(h, events[..n]);
      assert EventOk(h, events, n);
      var c :| CausedBy(h, LastProjection(events[..n]), events[n], c);
      calls := rest + [c];
      assert calls[..|calls| - 1] == rest;
      CauseIsStep(h, LastProjection(events[..n]), events[n], c);
    }
  }

  lemma CauseIsStep(h: Material -> string, before: State, e: Event, c: Call)
    requires CausedBy(h, before, e, c)
    ensures Fresh(before, c) && Step(h, before, c) == e.projection
  {
    hide Fresh, Execute, EnoughIds;
  }

  // ---------- versions ----------

  /** How many events of the ledger belong to an aggregate. */
  function Count(events: seq<Event>, a: Id): nat {
    if events == [] then 0
    else Count(events[..|events| - 1], a) + if events[|events| - 1].aggregateID == a then 1 else 0
  }

  /** The version of a batch is the number of its events. */
  lemma {:induction false} VersionCounts(h: Material -> string, events: seq<Event>, a: Id)
    requires Logged(h, events)
    ensures VersionOf(LastProjection(events), a) == Count(events, a)
    ensures LatestVersion(events, a) == Count(events, a)
  {
    hide CausedBy, Inv, SameBatch;
    if events != [] {
      var n := |events| - 1;
      LoggedPrefix(h, events, n);
      VersionCounts(h, events[..n], a);
      LoggedInv(h, events[..n]);
      assert EventOk(h, events, n);
      var c :| CausedBy(h, LastProjection(events[..n]), events[n], c);
      EventSteps(h, LastProjection(events[..n]), events[n], c);
      if a != events[n].aggregateID {
        OtherVersion(LastProjection(events[..n]), events[n].projection, events[n].aggregateID, a);
      }
    }
  }

  lemma OtherVersion(s: State, t: State, b: Id, a: Id)
    requires StatusChange.OthersKept(s, t, b) && a != b
    ensures VersionOf(t, a) == VersionOf(s, a)
  {
    assert SameBatch(s, t, a);
  }

  /** The k-th event of an aggregate carries version k. */
  lemma EventCarriesItsNumber(h: Material -> string, events: seq<Event>, i: nat)
    requires Logged(h, events) && i < |events|
    ensures events[i].aggregateVersion == Count(events[..i], events[i].aggregateID) + 1
  {
    hide CausedBy;
    LoggedPrefix(h, events, i + 1);
    VersionCounts(h, events[..i + 1], events[i].aggregateID);
    assert events[..i + 1][..i] == events[..i];
    assert EventOk(h, events, i);
  }

  lemma {:induction false} CountGrows(events: seq<Event>, a: Id, i: nat, j: nat)
    requires i <= j <= |events|
    ensures Count(events[..i], a) <= Count(events[..j], a)
  {
    if i < j {
      CountGrows(events, a, i, j - 1);
      assert events[..j][..j - 1] == events[..j - 1];
    }
  }

  /** Later events of an aggregate carry higher versions. */
  lemma VersionsRise(h: Material -> string, events: seq<Event>, i: nat, j: nat)
    requires Logged(h, events) && i < j < |events| && events[i].aggregateID == events[j].aggregateID
    ensures events[i].aggregateVersion < events[j].aggregateVersion
  {
    EventCarriesItsNumber(h, events, i);
    EventCarriesItsNumber(h, events, j);
    assert events[..i + 1][..i] == events[..i];
    CountGrows(events, events[i].aggregateID, i + 1, j);
  }

  // ---------- the projection checks accept every ledger of the store ----------

  lemma EventProjectionOk(h: Material -> string, events: seq<Event>, i: nat)
    requires Logged(h, events) && Hex(h) && i < |events|
    ensures ProjectionOk(events, i)
  {
    hide Inv, CausedBy, ValidSnapshot, Hex;
    LoggedPrefix(h, events, i + 1);
    LoggedInv(h, events[..i + 1]);
    InvValid(h, events[i].projection);
    EventCarriesItsNumber(h, events, i);
    LoggedPrefix(h, events, i);
    VersionCounts(h, events[..i], events[i].aggregateID);
    assert EventOk(h, events, i);
    var c :| CausedBy(h, LastProjection(events[..i]), events[i], c);
    CauseNames(h, LastProjection(events[..i]), events[i], c);
  }

  lemma CauseNames(h: Material -> string, before: State, e: Event, c: Call)
    requires CausedBy(h, before, e, c)
    ensures e.aggregateID in e.projection.batches && e.actor != "" && e.kind != ""
  {
    hide Execute, Commands.ReplyTo, EnoughIds;
  }

  /** Neither check at start-up rejects a ledger the store has written. */
  lemma LoggedAccepted(h: Material -> string, events: seq<Event>)
    requires Logged(h, events) && Hex(h)
    ensures ProjectionsOk(events)
  {
    hide Logged, ProjectionOk, Hex;
    forall i | 0 <= i < |events|
      ensures ProjectionOk(events, i)
    {
      EventProjectionOk(h, events, i);
    }
  }

  // ---------- idempotency keys ----------

  ghost predicate EventWithKey(events: seq<Event>, i: nat, k: Key) {
    i < |events| && (events[i].aggregateID, events[i].key) == k
  }

  /** The table names exactly the keys of the ledger, each with the event that used it. */
  lemma {:induction false} TableMeans(h: Material -> string, events: seq<Event>, k: Key)
    requires Logged(h, events)
    ensures k in Idempotency(events) <==> exists i: nat :: EventWithKey(events, i, k)
    ensures forall i: nat :: EventWithKey(events, i, k) ==>
        k in Idempotency(events) && Idempotency(events)[k] == KeyRecordOf(events[i])
  {
    hide CausedBy;
    if events != [] {
      var n := |events| - 1;
      LoggedPrefix(h, events, n);
      TableMeans(h, events[..n], k);
      assert EventOk(h, events, n);
      forall i: nat
        ensures EventWithKey(events, i, k) <==>
            EventWithKey(events[..n], i, k) || (i == n && (events[n].aggregateID, events[n].key) == k)
      {
      }
      assert forall i: nat :: EventWithKey(events[..n], i, k) ==> (events[n].aggregateID, events[n].key) != k;
      assert k == (events[n].aggregateID, events[n].key) ==> EventWithKey(events, n, k);
    }
  }

  /** Every idempotency key of an aggregate has at most one event. */
  lemma ExactlyOnce(h: Material -> string, events: seq<Event>, i: nat, j: nat, k: Key)
    requires Logged(h, events) && EventWithKey(events, i, k) && EventWithKey(events, j, k)
    ensures i == j
  {
    hide CausedBy;
    assert EventOk(h, events, i) && EventOk(h, events, j);
  }
}
