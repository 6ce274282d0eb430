/** What the records of a state say: current revisions, measurements at a point, open
    findings and the evidence that counts for a revision.  Everything here is
    declarative; the loops that compute it are in `Evaluation`. */
module Evidence {
  import opened Entities
  import Statistics

  ghost function ProfileOf(s: State, b: Id): Option<Profile> {
    if b in s.batches && s.batches[b].profileID in s.profiles then Some(s.profiles[s.batches[b].profileID]) else None
  }

  ghost predicate PlanPoint(s: State, b: Id, p: real) {
    ProfileOf(s, b).Some? && p in ProfileOf(s, b).value.points
  }

  // ---------- revisions ----------

  /** Revisions of one sensor of one batch. */
  ghost predicate SameLine(x: Sensor, y: Sensor) {
    x.batchID == y.batchID && x.code == y.code
  }

  ghost predicate IsCurrent(s: State, x: Id, b: Id) {
    && x in s.sensors && s.sensors[x].batchID == b
    && forall c :: c in s.sensors && SameLine(s.sensors[c], s.sensors[x]) ==>
        s.sensors[c].revision <= s.sensors[x].revision
  }

  ghost predicate Earlier(s: State, y: Id, x: Sensor) {
    y in s.sensors && SameLine(s.sensors[y], x) && s.sensors[y].revision < x.revision
  }

  ghost predicate HasRevision(s: State, b: Id, code: string, n: int) {
    exists x :: x in s.sensors && s.sensors[x].batchID == b && s.sensors[x].code == code && s.sensors[x].revision == n
  }

  // ---------- measurements ----------

  ghost predicate Passing(s: State, m: Measurement) {
    ProfileOf(s, m.batchID).Some? && Statistics.Passes(m.stats, ProfileOf(s, m.batchID).value)
  }

  ghost predicate DirectAt(s: State, m: Id, x: Id, p: real) {
    m in s.measurements && s.measurements[m].sensorID == x && s.measurements[m].point == p
  }

  ghost predicate HasDirect(s: State, x: Id, p: real) {
    exists m :: DirectAt(s, m, x, p)
  }

  ghost predicate PreviousAt(s: State, m: Id, x: Sensor, p: real) {
    m in s.measurements && s.measurements[m].point == p && Earlier(s, s.measurements[m].sensorID, x)
  }

  ghost predicate HasPrevious(s: State, x: Sensor, p: real) {
    exists m :: PreviousAt(s, m, x, p)
  }

  ghost function RevisionOf(s: State, m: Id): int {
    if m in s.measurements && s.measurements[m].sensorID in s.sensors then
        s.sensors[s.measurements[m].sensorID].revision else 0
  }

  ghost predicate LatestPrevious(s: State, m: Id, x: Sensor, p: real) {
    && PreviousAt(s, m, x, p)
    && forall n :: PreviousAt(s, n, x, p) ==> RevisionOf(s, n) <= RevisionOf(s, m)
  }

  /** Some revision of the sensor has been measured at the point. */
  ghost predicate Measured(s: State, b: Id, code: string, p: real) {
    exists m :: MeasuredBy(s, m, b, code, p)
  }

  ghost predicate MeasuredBy(s: State, m: Id, b: Id, code: string, p: real) {
    && m in s.measurements && s.measurements[m].point == p && s.measurements[m].sensorID in s.sensors
    && s.sensors[s.measurements[m].sensorID].batchID == b && s.sensors[s.measurements[m].sensorID].code == code
  }

  // ---------- findings ----------

  ghost predicate OpenAt(s: State, f: Id, x: Id) {
    f in s.findings && s.findings[f].status == Open && s.findings[f].sensorID == x
  }

  ghost predicate CarriesOpen(s: State, x: Id) {
    exists f :: OpenAt(s, f, x)
  }

  ghost predicate NoOpen(s: State, b: Id) {
    forall f :: f in s.findings && s.findings[f].batchID == b ==> s.findings[f].status != Open
  }

  /** A passing measurement at the finding's point on a later revision of its sensor. */
  ghost predicate PassesLater(s: State, m: Id, f: Finding) {
    && m in s.measurements && s.measurements[m].point == f.point && s.measurements[m].sensorID in s.sensors
    && Earlier(s, f.sensorID, s.sensors[s.measurements[m].sensorID])
    && Passing(s, s.measurements[m])
  }

  ghost predicate LaterPass(s: State, f: Finding) {
    exists m :: PassesLater(s, m, f)
  }

  /** An open finding at the point on an earlier revision of the sensor, in the same batch. */
  ghost predicate OpenEarlier(s: State, f: Id, x: Sensor, p: real) {
    f in s.findings && s.findings[f].status == Open && s.findings[f].point == p && Earlier(s, s.findings[f].sensorID, x)
  }

  ghost function OpenEarlierSet(s: State, x: Sensor, p: real): set<Id> {
    set f | f in s.findings && OpenEarlier(s, f, x, p)
  }

  ghost predicate BlockedInBatch(s: State, x: Sensor, p: real) {
    exists f :: OpenEarlier(s, f, x, p)
  }

  /** As the program computes it: the batch of the open finding is not compared, so a
      finding of another batch that uses the same sensor code also blocks. */
  ghost predicate BlockedBy(s: State, f: Id, x: Sensor, p: real) {
    && f in s.findings && s.findings[f].status == Open && s.findings[f].point == p
    && s.findings[f].sensorID in s.sensors && s.sensors[s.findings[f].sensorID].code == x.code
    && s.sensors[s.findings[f].sensorID].revision < x.revision
  }

  ghost predicate Blocked(s: State, x: Sensor, p: real) {
    exists f :: BlockedBy(s, f, x, p)
  }

  // ---------- evidence ----------

  /** The measurement the program may use for revision `x` at a point: its own, or the latest
      earlier one when the point is not blocked. */
  ghost predicate IsEvidence(s: State, m: Id, x: Id, p: real) {
    x in s.sensors &&
    if HasDirect(s, x, p) then DirectAt(s, m, x, p)
    else s.sensors[x].revision != 1 && !Blocked(s, s.sensors[x], p) && LatestPrevious(s, m, s.sensors[x], p)
  }

  ghost predicate HasEvidence(s: State, x: Id, p: real) {
    exists m :: IsEvidence(s, m, x, p)
  }

  /** The same with blocking confined to the batch. */
  ghost predicate IsScopedEvidence(s: State, m: Id, x: Id, p: real) {
    x in s.sensors &&
    if HasDirect(s, x, p) then DirectAt(s, m, x, p)
    else s.sensors[x].revision != 1 && !BlockedInBatch(s, s.sensors[x], p) && LatestPrevious(s, m, s.sensors[x], p)
  }

  /** Coverage as the program decides it: full evidence at every locked point of every current revision. */
  ghost predicate Covered(s: State, b: Id) {
    && ProfileOf(s, b).Some?
    && (exists x :: IsCurrent(s, x, b))
    && forall x, p :: IsCurrent(s, x, b) && p in ProfileOf(s, b).value.points ==>
         exists m :: IsEvidence(s, m, x, p) && |s.measurements[m].readings| == ProfileOf(s, b).value.repetitions
  }

  /** Coverage with evidence confined to the batch. */
  ghost predicate ScopedCovered(s: State, b: Id) {
    && ProfileOf(s, b).Some?
    && (exists x :: IsCurrent(s, x, b))
    && forall x, p :: IsCurrent(s, x, b) && p in ProfileOf(s, b).value.points ==>
         exists m :: IsScopedEvidence(s, m, x, p) && |s.measurements[m].readings| == ProfileOf(s, b).value.repetitions
  }
}
