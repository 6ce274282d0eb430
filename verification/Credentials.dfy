/** The credential of a released batch: the digest over the frozen content and its verification. */
module Credentials {
  import opened Entities
  import opened Evidence
  import opened Frozen
  import opened Text
  import Domain
  import opened Invariant
  import Snapshots
  import opened Runs
  import Guarantees

  method SelectOwned<T>(records: map<Id, T>, batchOf: T -> Id, b: Id) returns (out: seq<Id>)
    ensures Distinct(out) && forall k :: k in out <==> k in records && batchOf(records[k]) == b
  {
    out := [];
    var todo := records.Keys;
    while todo != {}
      invariant todo <= records.Keys && Distinct(out)
      invariant forall k :: k in out <==> k in records && k !in todo && batchOf(records[k]) == b
      decreases todo
    {
      var k :| k in todo;
      if batchOf(records[k]) == b {
        out := out + [k];
      }
      todo := todo - {k};
    }
  }

  /** The collected records in the order of their identifiers. */
  method Sorted<T>(ids: seq<Id>, records: map<Id, T>) returns (out: seq<T>)
    requires Distinct(ids) && forall k :: k in ids ==> k in records
    ensures Elements(ids) <= records.Keys && out == Listing(Elements(ids), records)
  {
    SortIsCanonical(ids);
    var order := SortIds(ids);
    assert forall i :: 0 <= i < |order| ==> order[i] in Elements(order);
    out := Lookup(order, records);
  }

  method ReviewRecords(reviews: seq<Review>, b: Id) returns (out: seq<Review>)
    ensures out == ReviewsOf(reviews, b)
  {
    out := [];
    for i := 0 to |reviews|
      invariant out == ReviewsOf(reviews[..i], b)
    {
      assert reviews[..i + 1][..i] == reviews[..i];
      if reviews[i].batchID == b {
        out := out + [reviews[i]];
      }
    }
    assert reviews[..|reviews|] == reviews;
  }

  /** The digest covers exactly the canonical frozen content, in whatever order the maps are read. */
  method FrozenDigestAtVersion(h: Material -> string, s: Snapshots.Snapshot, b: Id, version: int)
    returns (digest: string, ids: seq<Id>, e: Option<Error>)
    requires RevisionsUnique(s.View())
    ensures e == if b !in s.batches then Some(NotFound) else if !Sealed(s.batches[b].status) then
        Some(Conflict) else None
    ensures e == None ==> digest == h(MaterialOf(s.View(), b, version)) && ids == Canonical(CurrentIds(s.View(), b))
  {
    hide Distinct, Canonical, RevisionsUnique, IsCurrent, Listing;
    if b !in s.batches {
      return "", [], Some(NotFound);
    }
    var bt := s.batches[b];
    if bt.status != Status.Frozen && bt.status != Released {
      return "", [], Some(Conflict);
    }
    var frozen := bt.(status := Status.Frozen);
    if version > 0 {
      frozen := frozen.(version := version);
    }
    var profile := s.ProfileFor(b);
    var current := s.CurrentSensors(b);
    var measured := SelectOwned(s.measurements, (m: Measurement) => m.batchID, b);
    var found := SelectOwned(s.findings, (f: Finding) => f.batchID, b);
    var tasked := SelectOwned(s.tasks, (t: Task) => t.batchID, b);
    assert Elements(measured) == MeasurementIds(s.View(), b);
    assert Elements(found) == FindingIds(s.View(), b);
    assert Elements(tasked) == TaskIds(s.View(), b);
    assert forall k :: k in current ==> k in Elements(current);
    var sensors := Sorted(current, s.sensors);
    var measurements := Sorted(measured, s.measurements);
    var findings := Sorted(found, s.findings);
    var tasks := Sorted(tasked, s.tasks);
    var reviews := ReviewRecords(s.reviews, b);
    SortIsCanonical(current);
    ids := SortIds(current);
    digest := h(Material(frozen, sensors, profile, measurements, findings, tasks, reviews));
    e := None;
  }

  /** What a credential must agree with. */
  ghost predicate Verifies(h: Material -> string, s: State, c: Credential) {
    && c.batchID in s.batches && Sealed(s.batches[c.batchID].status)
    && (s.batches[c.batchID].status == Released ==> s.batches[c.batchID].version == c.batchVersion + 1)
    && c.contentDigest == h(MaterialOf(s, c.batchID, c.batchVersion))
    && c.sensorIDs == Canonical(CurrentIds(s, c.batchID))
  }

  method VerifyCredential(h: Material -> string, s: Snapshots.Snapshot, c: Credential) returns (e: Option<Error>)
    requires RevisionsUnique(s.View())
    ensures e == None <==> Verifies(h, s.View(), c)
    ensures e == Some(NotFound) <==> c.batchID !in s.batches
    ensures e.Some? ==> e == Some(NotFound) || e == Some(Conflict)
  {
    hide MaterialOf, Canonical, IsCurrent, RevisionsUnique;
    if c.batchID !in s.batches {
      return Some(NotFound);
    }
    var bt := s.batches[c.batchID];
    if bt.status == Released && bt.version != c.batchVersion + 1 {
      return Some(Conflict);
    }
    var digest, ids;
    digest, ids, e := FrozenDigestAtVersion(h, s, c.batchID, c.batchVersion);
    if e.Some? {
      return;
    }
    if digest != c.contentDigest || |ids| != |c.sensorIDs| {
      return Some(Conflict);
    }
    for i := 0 to |ids|
      invariant forall j :: 0 <= j < i ==> ids[j] == c.sensorIDs[j]
    {
      if ids[i] != c.sensorIDs[i] {
        return Some(Conflict);
      }
    }
    assert ids == c.sensorIDs;
  }

  // ---------- permanence ----------

  /** Every credential there is in a state of a run verifies in it. */
  lemma CredentialsVerify(h: Material -> string, s: State, id: Id)
    requires Inv(h, s) && id in s.credentials
    ensures Verifies(h, s, s.credentials[id])
  {
    hide Core, StatusOk, CredentialsUnique, MaterialOf, Canonical;
    assert CredentialOk(h, s, s.credentials[id]);
  }

  /** Once issued, a credential is kept as it is and verifies in every later state of the run. */
  lemma CredentialPermanent(h: Material -> string, s: State, id: Id, calls: seq<Call>)
    requires Reachable(h, s) && id in s.credentials && FreshFrom(h, s, calls)
    ensures var t := RunFrom(h, s, calls);
      id in t.credentials && t.credentials[id] == s.credentials[id] && Verifies(h, t, s.credentials[id])
  {
    hide Reachable, Inv, FreshFrom, RunFrom;
    ReachableInv(h, s);
    RunKeeps(h, s, calls);
    Guarantees.RunAccumulates(h, s, calls);
    CredentialsVerify(h, RunFrom(h, s, calls), id);
  }

  /** A batch has exactly one credential when it is released and none before. */
  lemma OneCredentialPerRelease(h: Material -> string, s: State, b: Id)
    requires Reachable(h, s) && b in s.batches
    ensures Domain.HasCredential(s, b) <==> s.batches[b].status == Released
    ensures forall c, d :: c in s.credentials && d in s.credentials && s.credentials[c].batchID == b && s.credentials[d].batchID == b ==> c == d
  {
    hide Reachable, Core, StatusOk;
    ReachableInv(h, s);
    forall c | c in s.credentials && s.credentials[c].batchID == b
      ensures s.batches[b].status == Released
    {
      assert CredentialOk(h, s, s.credentials[c]);
    }
  }

  /** In every state of every run a credential presented for a released batch verifies exactly when it
      carries version, revisions and digest of the one that was issued; for a batch neither frozen nor
      released none verifies. */
  lemma VerifiesExactly(h: Material -> string, s: State, c: Credential)
    requires Reachable(h, s) && c.batchID in s.batches && s.batches[c.batchID].status != Status.Frozen
    ensures Verifies(h, s, c) <==> exists id :: id in s.credentials && SameClaims(s.credentials[id], c)
  {
    hide Reachable, Core, StatusOk, MaterialOf, Canonical;
    ReachableInv(h, s);
    forall id | id in s.credentials && s.credentials[id].batchID == c.batchID
      ensures CredentialOk(h, s, s.credentials[id])
    {
    }
    OneCredentialPerRelease(h, s, c.batchID);
    if Verifies(h, s, c) {
      var id :| id in s.credentials && s.credentials[id].batchID == c.batchID;
      assert SameClaims(s.credentials[id], c);
    }
  }

  /** What a receiver of a credential can compare. */
  ghost predicate SameClaims(c: Credential, d: Credential) {
    c.batchID == d.batchID && c.batchVersion == d.batchVersion && c.sensorIDs == d.sensorIDs &&
        c.contentDigest == d.contentDigest
  }

  // ---------- changed content ----------

  ghost predicate Collision(h: Material -> string, m: Material, n: Material) {
    m != n && h(m) == h(n)
  }

  ghost predicate SameSensors(s: State, t: State, b: Id) {
    forall x :: (IsCurrent(s, x, b) <==> IsCurrent(t, x, b)) &&
        (IsCurrent(s, x, b) && IsCurrent(t, x, b) ==> s.sensors[x] == t.sensors[x])
  }

  ghost predicate SameMeasurements(s: State, t: State, b: Id) {
    && (forall m :: (m in s.measurements && s.measurements[m].batchID == b) <==>
                    (m in t.measurements && t.measurements[m].batchID == b))
    && forall m :: m in s.measurements && m in t.measurements && s.measurements[m].batchID == b ==>
         s.measurements[m] == t.measurements[m]
  }

  ghost predicate SameFindings(s: State, t: State, b: Id) {
    && (forall f :: (f in s.findings && s.findings[f].batchID == b) <==>
        (f in t.findings && t.findings[f].batchID == b))
    && forall f :: f in s.findings && f in t.findings && s.findings[f].batchID == b ==> s.findings[f] == t.findings[f]
  }

  ghost predicate SameTasks(s: State, t: State, b: Id) {
    && (forall k :: (k in s.tasks && s.tasks[k].batchID == b) <==> (k in t.tasks && t.tasks[k].batchID == b))
    && forall k :: k in s.tasks && k in t.tasks && s.tasks[k].batchID == b ==> s.tasks[k] == t.tasks[k]
  }

  ghost predicate SameReviews(s: State, t: State, b: Id) {
    forall r: Review :: r.batchID == b ==> multiset(s.reviews)[r] == multiset(t.reviews)[r]
  }

  /** The two states agree on everything the frozen content of the batch is made of. */
  ghost predicate SameFrozen(s: State, t: State, b: Id)
    requires b in s.batches && b in t.batches
  {
    && t.batches[b] == s.batches[b].(status := t.batches[b].status, version := t.batches[b].version)
    && ProfileOf(s, b) == ProfileOf(t, b) && SameSensors(s, t, b) && SameMeasurements(s, t, b)
    && SameFindings(s, t, b) && SameTasks(s, t, b) && SameReviews(s, t, b)
  }

  /** The reviews of a batch are its reviews, as often as they occur. */
  lemma {:induction false} ReviewsCounted(reviews: seq<Review>, b: Id, r: Review)
    ensures multiset(ReviewsOf(reviews, b))[r] == if r.batchID == b then multiset(reviews)[r] else 0
  {
    if reviews != [] {
      var init := reviews[..|reviews| - 1];
      assert reviews == init + [reviews[|reviews| - 1]];
      ReviewsCounted(init, b, r);
    }
  }

  lemma ReviewsCovered(s: State, t: State, b: Id)
    requires ReviewsOf(s.reviews, b) == ReviewsOf(t.reviews, b)
    ensures SameReviews(s, t, b)
  {
    forall r: Review | r.batchID == b
      ensures multiset(s.reviews)[r] == multiset(t.reviews)[r]
    {
      ReviewsCounted(s.reviews, b, r);
      ReviewsCounted(t.reviews, b, r);
    }
  }

  lemma SensorsCovered(s: State, t: State, b: Id)
    requires CurrentIds(s, b) == CurrentIds(t, b)
    requires (forall x :: x in CurrentIds(s, b) ==> s.sensors[x] == t.sensors[x])
    ensures SameSensors(s, t, b)
  {
    forall x
      ensures IsCurrent(s, x, b) <==> x in CurrentIds(s, b)
      ensures IsCurrent(t, x, b) <==> x in CurrentIds(t, b)
    {
    }
  }

  lemma MeasurementsCovered(s: State, t: State, b: Id)
    requires MeasurementIds(s, b) == MeasurementIds(t, b)
    requires forall m :: m in MeasurementIds(s, b) ==> s.measurements[m] == t.measurements[m]
    ensures SameMeasurements(s, t, b)
  {
    forall m
      ensures (m in s.measurements && s.measurements[m].batchID == b) <==> m in MeasurementIds(s, b)
      ensures (m in t.measurements && t.measurements[m].batchID == b) <==> m in MeasurementIds(t, b)
    {
    }
  }

  lemma FindingsCovered(s: State, t: State, b: Id)
    requires FindingIds(s, b) == FindingIds(t, b)
    requires (forall f :: f in FindingIds(s, b) ==> s.findings[f] == t.findings[f])
    ensures SameFindings(s, t, b)
  {
    forall f
      ensures (f in s.findings && s.findings[f].batchID == b) <==> f in FindingIds(s, b)
      ensures (f in t.findings && t.findings[f].batchID == b) <==> f in FindingIds(t, b)
    {
    }
  }

  lemma TasksCovered(s: State, t: State, b: Id)
    requires TaskIds(s, b) == TaskIds(t, b) && (forall k :: k in TaskIds(s, b) ==> s.tasks[k] == t.tasks[k])
    ensures SameTasks(s, t, b)
  {
    forall k
      ensures (k in s.tasks && s.tasks[k].batchID == b) <==> k in TaskIds(s, b)
      ensures (k in t.tasks && t.tasks[k].batchID == b) <==> k in TaskIds(t, b)
    {
    }
  }

  lemma ListingInjective<T>(ids: set<Id>, jds: set<Id>, a: map<Id, T>, b: map<Id, T>, idOf: T -> Id)
    requires ids <= a.Keys && jds <= b.Keys && Listing(ids, a) == Listing(jds, b)
    requires forall k :: k in ids ==> idOf(a[k]) == k
    requires forall k :: k in jds ==> idOf(b[k]) == k
    ensures ids == jds && forall k :: k in ids ==> a[k] == b[k]
  {
    var order, jorder := Canonical(ids), Canonical(jds);
    var xs, ys := Listing(ids, a), Listing(jds, b);
    assert forall i :: 0 <= i < |order| ==> order[i] in Elements(order);
    assert forall i :: 0 <= i < |jorder| ==> jorder[i] in Elements(jorder);
    assert |order| == |jorder|;
    forall i | 0 <= i < |order|
      ensures order[i] == jorder[i] && a[order[i]] == b[order[i]]
    {
      assert xs[i] == a[order[i]] && ys[i] == b[jorder[i]];
    }
    assert order == jorder;
    forall k | k in ids
      ensures a[k] == b[k]
    {
      assert k in Elements(order);
    }
  }

  /** The frozen content determines every record it covers. */
  lemma MaterialCovers(s: State, t: State, b: Id, version: int)
    requires Keyed(s) && Keyed(t) && b in s.batches && b in t.batches
    requires MaterialOf(s, b, version) == MaterialOf(t, b, version)
    ensures SameFrozen(s, t, b)
  {
    hide Listing, IsCurrent, SameSensors, SameMeasurements, SameFindings, SameTasks, SameReviews, ReviewsOf;
    ListingInjective(CurrentIds(s, b), CurrentIds(t, b), s.sensors, t.sensors, (x: Sensor) => x.id);
    ListingInjective(MeasurementIds(s, b), MeasurementIds(t, b), s.measurements, t.measurements,
        (m: Measurement) => m.id);
    ListingInjective(FindingIds(s, b), FindingIds(t, b), s.findings, t.findings, (f: Finding) => f.id);
    ListingInjective(TaskIds(s, b), TaskIds(t, b), s.tasks, t.tasks, (k: Task) => k.id);
    SensorsCovered(s, t, b);
    MeasurementsCovered(s, t, b);
    FindingsCovered(s, t, b);
    TasksCovered(s, t, b);
    ReviewsCovered(s, t, b);
    assert MaterialOf(s, b, version).batch == MaterialOf(t, b, version).batch;
  }

  /** A credential that verifies against two states shows that they agree on all frozen content,
      unless two different contents with the same digest have been found. */
  lemma ChangedContentDetected(h: Material -> string, s: State, t: State, c: Credential)
    requires Keyed(s) && Keyed(t) && Verifies(h, s, c) && Verifies(h, t, c)
    ensures || SameFrozen(s, t, c.batchID)
            || Collision(h, MaterialOf(s, c.batchID, c.batchVersion), MaterialOf(t, c.batchID, c.batchVersion))
  {
    hide MaterialOf, Canonical, SameFrozen, Keyed;
    if MaterialOf(s, c.batchID, c.batchVersion) == MaterialOf(t, c.batchID, c.batchVersion) {
      MaterialCovers(s, t, c.batchID, c.batchVersion);
    }
  }
}
