/** The frozen content of a batch in canonical form, the input of the credential digest. */
module Frozen {
  import opened Entities
  import opened Evidence
  import opened Text

  datatype Material = Material(
    batch: Batch, sensors: seq<Sensor>, profile: Option<Profile>, measurements: seq<Measurement>,
    findings: seq<Finding>, tasks: seq<Task>, reviews: seq<Review>)

  ghost function CurrentIds(s: State, b: Id): set<Id> {
    set x | x in s.sensors && IsCurrent(s, x, b)
  }

  ghost function MeasurementIds(s: State, b: Id): set<Id> {
    set x | x in s.measurements && s.measurements[x].batchID == b
  }

  ghost function FindingIds(s: State, b: Id): set<Id> {
    set x | x in s.findings && s.findings[x].batchID == b
  }

  ghost function TaskIds(s: State, b: Id): set<Id> {
    set x | x in s.tasks && s.tasks[x].batchID == b
  }

  function ReviewsOf(reviews: seq<Review>, b: Id): seq<Review> {
    if reviews == [] then []
    else
      var last := reviews[|reviews| - 1];
      ReviewsOf(reviews[..|reviews| - 1], b) + if last.batchID == b then [last] else []
  }

  function Lookup<T>(ids: seq<Id>, records: map<Id, T>): (r: seq<T>)
    requires forall i :: 0 <= i < |ids| ==> ids[i] in records
    ensures |r| == |ids| && forall i :: 0 <= i < |ids| ==> r[i] == records[ids[i]]
  {
    seq(|ids|, i requires 0 <= i < |ids| => records[ids[i]])
  }

  /** The records of a set of identifiers, ordered by identifier. */
  ghost function Listing<T>(ids: set<Id>, records: map<Id, T>): seq<T>
    requires ids <= records.Keys
  {
    var order := Canonical(ids);
    assert forall i :: 0 <= i < |order| ==> order[i] in Elements(order);
    Lookup(order, records)
  }

  /** What the credential digest of batch `b` covers, with the version the batch had when it was frozen. */
  ghost function MaterialOf(s: State, b: Id, version: int): Material
    requires b in s.batches
  {
    var bt := s.batches[b];
    Material(
      bt.(status := Status.Frozen, version := if version > 0 then version else bt.version),
      Listing(CurrentIds(s, b), s.sensors), ProfileOf(s, b),
      Listing(MeasurementIds(s, b), s.measurements), Listing(FindingIds(s, b), s.findings),
      Listing(TaskIds(s, b), s.tasks), ReviewsOf(s.reviews, b))
  }

  /** Everything a batch owns is the same in the two states. */
  ghost predicate SameBatch(s: State, t: State, b: Id) {
    && (b in s.batches <==> b in t.batches)
    && (b in s.batches ==> s.batches[b] == t.batches[b] && ProfileOf(s, b) == ProfileOf(t, b))
    && (forall x :: (x in s.sensors && s.sensors[x].batchID == b) <==> (x in t.sensors && t.sensors[x].batchID == b))
    && (forall x :: x in s.sensors && s.sensors[x].batchID == b && x in t.sensors ==> s.sensors[x] == t.sensors[x])
    && (forall x :: (x in s.measurements && s.measurements[x].batchID == b) <==>
        (x in t.measurements && t.measurements[x].batchID == b))
    && (forall x :: x in s.measurements && s.measurements[x].batchID == b && x in t.measurements ==>
        s.measurements[x] == t.measurements[x])
    && (forall x :: (x in s.findings && s.findings[x].batchID == b) <==>
        (x in t.findings && t.findings[x].batchID == b))
    && (forall x :: x in s.findings && s.findings[x].batchID == b && x in t.findings ==> s.findings[x] == t.findings[x])
    && (forall x :: (x in s.tasks && s.tasks[x].batchID == b) <==> (x in t.tasks && t.tasks[x].batchID == b))
    && (forall x :: x in s.tasks && s.tasks[x].batchID == b && x in t.tasks ==> s.tasks[x] == t.tasks[x])
    && (forall x :: (x in s.credentials && s.credentials[x].batchID == b) <==>
        (x in t.credentials && t.credentials[x].batchID == b))
    && (forall x :: x in s.credentials && s.credentials[x].batchID == b && x in t.credentials ==>
        s.credentials[x] == t.credentials[x])
    && ReviewsOf(s.reviews, b) == ReviewsOf(t.reviews, b)
  }

  lemma CurrentIdsFrame(s: State, t: State, b: Id)
    requires SameBatch(s, t, b)
    ensures CurrentIds(s, b) == CurrentIds(t, b)
  {
    forall x
      ensures IsCurrent(s, x, b) <==> IsCurrent(t, x, b)
    {
    }
  }

  lemma ListingFrame<T>(ids: set<Id>, a: map<Id, T>, b: map<Id, T>)
    requires ids <= a.Keys && ids <= b.Keys
    requires forall x :: x in ids ==> a[x] == b[x]
    ensures Listing(ids, a) == Listing(ids, b)
  {
    var order := Canonical(ids);
    assert forall i :: 0 <= i < |order| ==> order[i] in Elements(order);
  }

  /** The material depends on nothing but what the batch owns. */
  lemma MaterialFrame(s: State, t: State, b: Id, version: int)
    requires b in s.batches && SameBatch(s, t, b)
    ensures MaterialOf(s, b, version) == MaterialOf(t, b, version)
  {
    hide Listing, Canonical;
    CurrentIdsFrame(s, t, b);
    assert MeasurementIds(s, b) == MeasurementIds(t, b);
    assert FindingIds(s, b) == FindingIds(t, b);
    assert TaskIds(s, b) == TaskIds(t, b);
    ListingFrame(CurrentIds(s, b), s.sensors, t.sensors);
    ListingFrame(MeasurementIds(s, b), s.measurements, t.measurements);
    ListingFrame(FindingIds(s, b), s.findings, t.findings);
    ListingFrame(TaskIds(s, b), s.tasks, t.tasks);
  }
}
