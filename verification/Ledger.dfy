/** The hash-chained event ledger. */
module Ledger {
  import opened Entities
  import Snapshots
  import Commands
  import Validation

  datatype Event = Event(
    schemaVersion: int, sequence: int, aggregateID: Id, aggregateVersion: int, kind: string, actor: string, at: Time,
    key: string, requestDigest: string, previousDigest: string, projection: State, reply: Commands.Reply,
        digest: string)

  /** The content a digest covers: the event with its own digest left out. */
  datatype Entry = Entry(
    schemaVersion: int, sequence: int, aggregateID: Id, aggregateVersion: int, kind: string, actor: string, at: Time,
    key: string, requestDigest: string, previousDigest: string, projection: State, reply: Commands.Reply)

  function EntryOf(e: Event): Entry {
    Entry(e.schemaVersion, e.sequence, e.aggregateID, e.aggregateVersion, e.kind, e.actor, e.at, e.key,
        e.requestDigest, e.previousDigest,
          e.projection, e.reply)
  }

  function Sealing(g: Entry -> string, e: Event): Event {
    e.(digest := g(EntryOf(e)))
  }

  // ---------- the chain ----------

  function LastDigest(events: seq<Event>): string {
    if events == [] then "" else events[|events| - 1].digest
  }

  ghost predicate LinkOk(g: Entry -> string, events: seq<Event>, i: nat)
    requires i < |events|
  {
    && events[i].sequence == i + 1
    && events[i].previousDigest == LastDigest(events[..i])
    && events[i].digest == g(EntryOf(events[i]))
  }

  ghost predicate ChainOk(g: Entry -> string, events: seq<Event>) {
    forall i :: 0 <= i < |events| ==> LinkOk(g, events, i)
  }

  method VerifyChain(g: Entry -> string, events: seq<Event>) returns (ok: bool)
    ensures ok <==> ChainOk(g, events)
  {
    var previous := "";
    for i := 0 to |events|
      invariant previous == LastDigest(events[..i])
      invariant forall j :: 0 <= j < i ==> LinkOk(g, events, j)
    {
      var event := events[i];
      if event.sequence != i + 1 {
        assert !LinkOk(g, events, i);
        return false;
      }
      if event.previousDigest != previous {
        assert !LinkOk(g, events, i);
        return false;
      }
      if g(EntryOf(event)) != event.digest {
        assert !LinkOk(g, events, i);
        return false;
      }
      assert events[..i + 1][i] == event;
      previous := event.digest;
    }
    ok := true;
  }

  /** Appending a sealed event with the next number and the last digest keeps the chain valid. */
  lemma AppendKeepsChain(g: Entry -> string, events: seq<Event>, e: Event)
    requires ChainOk(g, events) && e.sequence == |events| + 1 && e.previousDigest == LastDigest(events)
    ensures ChainOk(g, events + [Sealing(g, e)])
  {
    var longer := events + [Sealing(g, e)];
    forall i | 0 <= i < |longer|
      ensures LinkOk(g, longer, i)
    {
      if i < |events| {
        assert LinkOk(g, events, i);
        assert longer[..i] == events[..i];
      } else {
        assert longer[..i] == events;
      }
    }
  }

  /** Every beginning of a valid chain is a valid chain: losing whole events at the end of the
      file cannot be seen from the chain alone. */
  lemma PrefixesAccepted(g: Entry -> string, events: seq<Event>, n: nat)
    requires ChainOk(g, events) && n <= |events|
    ensures ChainOk(g, events[..n])
  {
    forall i | 0 <= i < n
      ensures LinkOk(g, events[..n], i)
    {
      assert LinkOk(g, events, i);
      assert events[..n][..i] == events[..i];
    }
  }

  /** Two different entries of the two lists have the same digest. */
  ghost predicate ChainCollision(g: Entry -> string, xs: seq<Event>, ys: seq<Event>) {
    exists i :: 0 <= i < |xs| && i < |ys| && EntryOf(xs[i]) != EntryOf(ys[i]) && g(EntryOf(xs[i])) == g(EntryOf(ys[i]))
  }

  lemma EntryDetermines(e: Event, f: Event)
    requires EntryOf(e) == EntryOf(f) && e.digest == f.digest
    ensures e == f
  {
  }

  lemma LastMatches(g: Entry -> string, xs: seq<Event>, ys: seq<Event>)
    requires ChainOk(g, xs) && ChainOk(g, ys) && xs != [] && |xs| == |ys| && LastDigest(xs) == LastDigest(ys)
    ensures xs[|xs| - 1] == ys[|ys| - 1] || ChainCollision(g, xs, ys)
    ensures xs[|xs| - 1] == ys[|ys| - 1] ==> LastDigest(xs[..|xs| - 1]) == LastDigest(ys[..|ys| - 1])
  {
    var n := |xs| - 1;
    assert LinkOk(g, xs, n) && LinkOk(g, ys, n);
    if EntryOf(xs[n]) == EntryOf(ys[n]) {
      EntryDetermines(xs[n], ys[n]);
    }
  }

  lemma CollisionExtends(g: Entry -> string, xs: seq<Event>, ys: seq<Event>)
    requires xs != [] && ys != [] && ChainCollision(g, xs[..|xs| - 1], ys[..|ys| - 1])
    ensures ChainCollision(g, xs, ys)
  {
    var i :| 0 <= i < |xs| - 1 && i < |ys| - 1 && EntryOf(xs[i]) != EntryOf(ys[i]) &&
        g(EntryOf(xs[i])) == g(EntryOf(ys[i]));
  }

  /** Two valid chains of the same length that end in the same digest are the same list of
      events, unless the digest function collides on two of their entries. */
  lemma {:induction false} ChainUnique(g: Entry -> string, xs: seq<Event>, ys: seq<Event>)
    requires ChainOk(g, xs) && ChainOk(g, ys) && |xs| == |ys| && LastDigest(xs) == LastDigest(ys)
    ensures xs == ys || ChainCollision(g, xs, ys)
  {
    if xs != [] {
      var n := |xs| - 1;
      LastMatches(g, xs, ys);
      if xs[n] == ys[n] {
        PrefixesAccepted(g, xs, n);
        PrefixesAccepted(g, ys, n);
        ChainUnique(g, xs[..n], ys[..n]);
        if xs[..n] == ys[..n] {
          assert xs == xs[..n] + [xs[n]] && ys == ys[..n] + [ys[n]];
        } else {
          CollisionExtends(g, xs, ys);
        }
      }
    }
  }

  /** The same without knowing the lengths: the digest of the last event fixes the number of events too. */
  lemma ChainUniqueByDigest(g: Entry -> string, xs: seq<Event>, ys: seq<Event>)
    requires ChainOk(g, xs) && ChainOk(g, ys) && xs != [] && ys != [] && LastDigest(xs) == LastDigest(ys)
    ensures xs == ys || ChainCollision(g, xs, ys) || LastCollision(g, xs, ys)
  {
    var n, m := |xs| - 1, |ys| - 1;
    assert LinkOk(g, xs, n) && LinkOk(g, ys, m);
    if EntryOf(xs[n]) == EntryOf(ys[m]) {
      ChainUnique(g, xs, ys);
    }
  }

  ghost predicate LastCollision(g: Entry -> string, xs: seq<Event>, ys: seq<Event>)
    requires xs != [] && ys != []
  {
    var e, f := EntryOf(xs[|xs| - 1]), EntryOf(ys[|ys| - 1]);
    e != f && g(e) == g(f)
  }

  // ---------- projections ----------

  /** The version recorded for the newest event of an aggregate, or 0. */
  function LatestVersion(events: seq<Event>, a: Id): int {
    if events == [] then 0
    else
      var last := events[|events| - 1];
      if last.aggregateID == a then last.aggregateVersion else LatestVersion(events[..|events| - 1], a)
  }

  ghost predicate ProjectionOk(events: seq<Event>, i: nat)
    requires i < |events|
  {
    var e := events[i];
    && Validation.ValidSnapshot(e.projection)
    && e.aggregateID in e.projection.batches && e.projection.batches[e.aggregateID].version == e.aggregateVersion
    && (LatestVersion(events[..i], e.aggregateID) > 0 ==>
        e.aggregateVersion > LatestVersion(events[..i], e.aggregateID))
    && e.actor != "" && e.kind != "" && e.at != 0
  }

  ghost predicate ProjectionsOk(events: seq<Event>) {
    forall i :: 0 <= i < |events| ==> ProjectionOk(events, i)
  }

  lemma {:induction false} LatestCovers(events: seq<Event>, i: nat, a: Id)
    requires ProjectionsOk(events) && i < |events| && events[i].aggregateID == a
    ensures LatestVersion(events, a) >= events[i].aggregateVersion >= 1
  {
    hide Validation.ValidSnapshot;
    var n := |events| - 1;
    assert ProjectionOk(events, i) && ProjectionOk(events, n);
    NumberedFromOne(events[i].projection, a);
    if i < n {
      forall k | 0 <= k < n
        ensures ProjectionOk(events[..n], k)
      {
        assert ProjectionOk(events, k);
        assert events[..n][..k] == events[..k];
      }
      LatestCovers(events[..n], i, a);
    }
  }

  lemma NumberedFromOne(s: State, b: Id)
    requires Validation.ValidSnapshot(s) && b in s.batches
    ensures s.batches[b].version >= 1
  {
    assert Validation.ValidBatch(s, s.batches[b]);
  }

  /** The check of each event against the one before it orders all events of an aggregate. */
  lemma ProjectionsOrdered(events: seq<Event>, i: nat, j: nat)
    requires ProjectionsOk(events) && i < j < |events| && events[i].aggregateID == events[j].aggregateID
    ensures events[i].aggregateVersion < events[j].aggregateVersion
  {
    hide Validation.ValidSnapshot;
    assert ProjectionOk(events, j);
    forall k | 0 <= k < j
      ensures ProjectionOk(events[..j], k)
    {
      assert ProjectionOk(events, k);
      assert events[..j][..k] == events[..k];
    }
    LatestCovers(events[..j], i, events[i].aggregateID);
  }

  method ValidateProjections(events: seq<Event>) returns (ok: bool)
    ensures ok <==> ProjectionsOk(events)
  {
    hide Validation.ValidSnapshot;
    var versions: map<Id, int> := map[];
    for i := 0 to |events|
      invariant forall a :: LatestVersion(events[..i], a) == if a in versions then versions[a] else 0
      invariant forall j :: 0 <= j < i ==> ProjectionOk(events, j)
    {
      var event := events[i];
      var projection := new Snapshots.Snapshot.Of(event.projection);
      var valid := Validation.ValidateSnapshot(projection);
      if !valid {
        assert !ProjectionOk(events, i);
        return false;
      }
      if event.aggregateID !in projection.batches ||
          projection.batches[event.aggregateID].version != event.aggregateVersion {
        assert !ProjectionOk(events, i);
        return false;
      }
      if event.aggregateID in versions && versions[event.aggregateID] > 0 &&
          event.aggregateVersion <= versions[event.aggregateID] {
        assert !ProjectionOk(events, i);
        return false;
      }
      if event.actor == "" || event.kind == "" || event.at == 0 {
        assert !ProjectionOk(events, i);
        return false;
      }
      assert events[..i + 1][..i] == events[..i] && events[..i + 1][i] == event;
      versions := versions[event.aggregateID := event.aggregateVersion];
    }
    ok := true;
  }
}
