/** What holds of every state a run of the service can reach.

    The persisted-state validation is one consequence of it; alone it would not be
    preserved by the commands.  The clauses fall into groups that are proved one by one. */
module Invariant {
  import opened Entities
  import Statistics
  import opened Evidence
  import opened Frozen
  import Text
  import Domain

  ghost predicate Keyed(s: State) {
    && (forall k :: k in s.batches ==> s.batches[k].id == k)
    && (forall k :: k in s.sensors ==> s.sensors[k].id == k)
    && (forall k :: k in s.profiles ==> s.profiles[k].id == k && k != "")
    && (forall k :: k in s.measurements ==> s.measurements[k].id == k && k != "")
    && (forall k :: k in s.findings ==> s.findings[k].id == k)
    && (forall k :: k in s.tasks ==> s.tasks[k].id == k)
    && (forall k :: k in s.credentials ==> s.credentials[k].id == k)
  }

  // ---------- sensors and profiles ----------

  ghost predicate SensorOk(s: State, x: Sensor) {
    && x.batchID in s.batches && x.code != "" && !Text.Blank(x.code) && x.metric != "" && x.unit != ""
    && x.revision >= 1 && x.rangeMin < x.rangeMax && (x.revision > 1 ==> x.note != "")
  }

  ghost predicate SensorsOk(s: State) {
    forall x :: x in s.sensors ==> SensorOk(s, s.sensors[x])
  }

  ghost predicate RevisionsUnique(s: State) {
    forall x, y :: x in s.sensors && y in s.sensors && SameLine(s.sensors[x], s.sensors[y]) && s.sensors[x].revision == s.sensors[y].revision ==>
        x == y
  }

  ghost predicate RevisionsChained(s: State) {
    forall x :: x in s.sensors && s.sensors[x].revision > 1 ==>
      HasRevision(s, s.sensors[x].batchID, s.sensors[x].code, s.sensors[x].revision - 1)
  }

  ghost predicate ProfileOk(s: State, p: Profile) {
    && p.batchID in s.batches && s.batches[p.batchID].profileID == p.id
    && p.lockedAt.Some? && |p.points| >= 2 && p.repetitions >= 2
    && p.absoluteTolerance >= 0.0 && p.relativeTolerance >= 0.0 && p.repeatabilityLimit >= 0.0
    && forall i :: 0 < i < |p.points| ==> p.points[i - 1] < p.points[i]
  }

  ghost predicate ProfilesOk(s: State) {
    forall k :: k in s.profiles ==> ProfileOk(s, s.profiles[k])
  }

  ghost predicate RangesOk(s: State) {
    forall x, p :: x in s.sensors && PlanPoint(s, s.sensors[x].batchID, p) ==>
        s.sensors[x].rangeMin <= p <= s.sensors[x].rangeMax
  }

  // ---------- batches ----------

  ghost predicate BatchOk(s: State, bt: Batch) {
    && bt.id != "" && bt.stationCode != "" && bt.title != "" && bt.createdBy != "" && bt.version >= 1 &&
        bt.createdAt != 0
    && (bt.status == Draft <==> bt.profileID == "")
    && (bt.profileID != "" ==> bt.profileID in s.profiles && s.profiles[bt.profileID].batchID == bt.id)
    && (bt.status != Draft ==> bt.sensorIDs != [])
  }

  ghost predicate BatchesOk(s: State) {
    forall b :: b in s.batches ==> BatchOk(s, s.batches[b])
  }

  ghost predicate SensorListsOk(s: State) {
    && (forall b :: b in s.batches ==> Text.Distinct(s.batches[b].sensorIDs))
    && (forall b, x :: b in s.batches && x in s.batches[b].sensorIDs ==> x in s.sensors && s.sensors[x].batchID == b)
    && (forall x :: x in s.sensors && s.sensors[x].batchID in s.batches ==>
        x in s.batches[s.sensors[x].batchID].sensorIDs)
  }

  ghost predicate DraftsPlain(s: State) {
    forall x :: x in s.sensors && s.sensors[x].batchID in s.batches && s.batches[s.sensors[x].batchID].status == Draft ==> s.sensors[x].revision == 1
  }

  predicate Sealed(st: Status) {
    st == Status.Frozen || st == Released
  }

  ghost predicate FreezesOk(s: State) {
    forall b :: b in s.batches ==>
      if Sealed(s.batches[b].status)
      then s.batches[b].frozenAt.Some? && s.batches[b].reviewedBy != "" &&
          s.batches[b].reviewedBy !in s.batches[b].sampledBy
      else s.batches[b].frozenAt.None?
  }

  // ---------- measurements ----------

  ghost predicate MeasurementOk(s: State, m: Measurement) {
    && m.sensorID in s.sensors && s.sensors[m.sensorID].batchID == m.batchID
    && PlanPoint(s, m.batchID, m.point)
    && |m.readings| == ProfileOf(s, m.batchID).value.repetitions && m.capturedBy != "" && m.capturedAt != 0
    && (forall i :: 0 <= i < |m.readings| ==>
        s.sensors[m.sensorID].rangeMin <= m.readings[i] <= s.sensors[m.sensorID].rangeMax)
    && m.stats == Statistics.StatsOf(m.point, m.readings)
  }

  ghost predicate MeasurementsOk(s: State) {
    forall m :: m in s.measurements ==> MeasurementOk(s, s.measurements[m])
  }

  ghost predicate DirectUnique(s: State) {
    forall m, n | m in s.measurements && n in s.measurements && s.measurements[m].sensorID == s.measurements[n].sensorID
      && s.measurements[m].point == s.measurements[n].point :: m == n
  }

  ghost predicate CapturedBy(s: State, b: Id, actor: string) {
    exists m :: m in s.measurements && s.measurements[m].batchID == b && s.measurements[m].capturedBy == actor
  }

  /** The samplers of a batch are exactly the actors of its measurements, each once. */
  ghost predicate SamplersOk(s: State) {
    forall b | b in s.batches :: Text.Distinct(s.batches[b].sampledBy)
      && forall actor: string :: actor in s.batches[b].sampledBy <==> CapturedBy(s, b, actor)
  }

  ghost predicate PreviousMeasured(s: State) {
    forall x, p :: x in s.sensors && s.sensors[x].revision > 1 && PlanPoint(s, s.sensors[x].batchID, p) ==>
        HasPrevious(s, s.sensors[x], p)
  }

  predicate Evaluated(st: Status) {
    st == Failed || st == ReadyReview || st == Returned || Sealed(st)
  }

  ghost predicate EverMeasured(s: State) {
    forall x, p | x in s.sensors && s.sensors[x].batchID in s.batches &&
        Evaluated(s.batches[s.sensors[x].batchID].status)
      && PlanPoint(s, s.sensors[x].batchID, p) :: Measured(s, s.sensors[x].batchID, s.sensors[x].code, p)
  }

  // ---------- findings ----------

  ghost predicate FindingOk(s: State, f: Finding) {
    && f.sensorID in s.sensors && s.sensors[f.sensorID].batchID == f.batchID && PlanPoint(s, f.batchID, f.point)
    && f.kind != "" && f.severity != "" && f.message != "" && (f.origin == Manual ==> f.createdBy != "")
    && (f.origin == Automatic ==> f.severity == "critical")
  }

  ghost predicate FindingsOk(s: State) {
    forall f :: f in s.findings ==> FindingOk(s, s.findings[f])
  }

  /** A finding is open exactly as long as no later revision has passed at its point. */
  ghost predicate OpenUntilPassed(s: State) {
    forall f :: f in s.findings ==> (s.findings[f].status == Open <==> !LaterPass(s, s.findings[f]))
  }

  ghost predicate ClosedBy(s: State, m: Id, f: Finding) {
    PassesLater(s, m, f) && s.measurements[m].sensorID == f.resolvedBy
  }

  ghost predicate ResolvedOk(s: State) {
    forall f :: f in s.findings && s.findings[f].status == Resolved ==>
      s.findings[f].reviewedAt.Some? && exists m :: ClosedBy(s, m, s.findings[f])
  }

  ghost predicate Violating(s: State, m: Measurement, kind: string) {
    ProfileOf(s, m.batchID).Some? && Statistics.Violates(kind, m.stats, ProfileOf(s, m.batchID).value)
  }

  ghost predicate AutomaticAt(s: State, f: Id, x: Id, p: real, kind: string) {
    f in s.findings && s.findings[f].sensorID == x && s.findings[f].point == p && s.findings[f].kind == kind &&
        s.findings[f].origin == Automatic
  }

  /** Every exceeded limit of every measurement has its finding. */
  ghost predicate FailuresFound(s: State) {
    forall m, kind: string :: m in s.measurements && Violating(s, s.measurements[m], kind) ==>
      exists f :: AutomaticAt(s, f, s.measurements[m].sensorID, s.measurements[m].point, kind)
  }

  /** Every automatic finding names a limit some measurement of that revision and point exceeds. */
  ghost predicate FindingsFounded(s: State) {
    forall f :: f in s.findings && s.findings[f].origin == Automatic ==>
      exists m :: DirectAt(s, m, s.findings[f].sensorID, s.findings[f].point) &&
          Violating(s, s.measurements[m], s.findings[f].kind)
  }

  // ---------- recalibration tasks ----------

  ghost predicate TaskOk(s: State, t: Task) {
    && t.sensorID in s.sensors && s.sensors[t.sensorID].batchID == t.batchID && s.sensors[t.sensorID].revision > 1
    && PlanPoint(s, t.batchID, t.point) && t.updatedAt != 0 && (t.required <==> t.findingIDs != [])
  }

  ghost predicate TasksOk(s: State) {
    forall t :: t in s.tasks ==> TaskOk(s, s.tasks[t])
  }

  ghost predicate ListsFinding(s: State, t: Task, f: Id) {
    && f in s.findings && s.findings[f].point == t.point
    && t.sensorID in s.sensors && Earlier(s, s.findings[f].sensorID, s.sensors[t.sensorID])
  }

  ghost predicate TaskFindingsOk(s: State) {
    forall t, f :: t in s.tasks && f in s.tasks[t].findingIDs ==> ListsFinding(s, s.tasks[t], f)
  }

  ghost predicate TasksUnique(s: State) {
    forall t, u :: t in s.tasks && u in s.tasks && s.tasks[t].sensorID == s.tasks[u].sensorID && s.tasks[t].point == s.tasks[u].point ==> t == u
  }

  ghost predicate TaskAt(s: State, t: Id, x: Id, p: real) {
    t in s.tasks && s.tasks[t].sensorID == x && s.tasks[t].point == p
  }

  ghost predicate TasksComplete(s: State) {
    forall x, p :: x in s.sensors && s.sensors[x].revision > 1 && PlanPoint(s, s.sensors[x].batchID, p) ==>
        exists t :: TaskAt(s, t, x, p)
  }

  /** A required task is pending, passed or failed as its own measurement is absent, passing or failing. */
  ghost predicate RequiredStatusOk(s: State, t: Task) {
    if HasDirect(s, t.sensorID, t.point)
    then DirectAt(s, t.evidenceID, t.sensorID, t.point) &&
        t.status == (if Passing(s, s.measurements[t.evidenceID]) then TaskStatus.Passed else Failing)
    else t.status == Pending && t.evidenceID == ""
  }

  ghost predicate RequiredTasksOk(s: State) {
    forall t :: t in s.tasks && s.tasks[t].required ==> RequiredStatusOk(s, s.tasks[t])
  }

  /** A task that is not required names the latest earlier measurement, which passes. */
  ghost predicate InheritedTaskOk(s: State, t: Task) {
    && t.status == Inherited && t.sensorID in s.sensors &&
        LatestPrevious(s, t.evidenceID, s.sensors[t.sensorID], t.point)
    && Passing(s, s.measurements[t.evidenceID]) && t.sourceID == s.measurements[t.evidenceID].sensorID
  }

  ghost predicate InheritedTasksOk(s: State) {
    forall t :: t in s.tasks && !s.tasks[t].required ==> InheritedTaskOk(s, s.tasks[t])
  }

  /** A retest task lists every open earlier finding at its point. */
  ghost predicate TasksCoverOpen(s: State) {
    forall t, f :: t in s.tasks && s.tasks[t].sensorID in s.sensors && OpenEarlier(s, f, s.sensors[s.tasks[t].sensorID], s.tasks[t].point) ==>
      f in s.tasks[t].findingIDs
  }

  /** As long as a required task of a current revision has not passed, all it lists is open. */
  ghost predicate TasksAwaitOpen(s: State) {
    forall t, f | t in s.tasks && IsCurrent(s, s.tasks[t].sensorID, s.tasks[t].batchID) &&
        s.tasks[t].status != TaskStatus.Passed
      && f in s.tasks[t].findingIDs :: f in s.findings && s.findings[f].status == Open
  }

  // ---------- status ----------

  ghost predicate Unmeasured(s: State, b: Id, x: Id, p: real) {
    IsCurrent(s, x, b) && PlanPoint(s, b, p) && !HasDirect(s, x, p)
  }

  /** What the status of a batch says about its findings and measurements. */
  ghost predicate StatusFits(s: State, b: Id)
    requires b in s.batches
  {
    match s.batches[b].status
    case Failed => exists x :: IsCurrent(s, x, b) && CarriesOpen(s, x)
    case PlanLocked => exists x, p :: Unmeasured(s, b, x, p)
    case Sampling => exists x, p :: Unmeasured(s, b, x, p)
    case ReadyReview => NoOpen(s, b)
    case Frozen => NoOpen(s, b)
    case Released => NoOpen(s, b)
    case Draft => true
    case Returned => true
  }

  ghost predicate StatusOk(s: State) {
    forall b :: b in s.batches ==> StatusFits(s, b)
  }

  // ---------- reviews and credentials ----------

  ghost predicate ReviewsOk(s: State) {
    forall i :: 0 <= i < |s.reviews| ==> s.reviews[i].batchID in s.batches && s.reviews[i].reviewer != ""
  }

  ghost predicate CredentialOk(h: Material -> string, s: State, c: Credential) {
    && c.batchID in s.batches && s.batches[c.batchID].status == Released &&
        s.batches[c.batchID].version == c.batchVersion + 1
    && c.batchVersion >= 1 && c.decision == Domain.APPROVED_FOR_DEPLOYMENT && c.issuedBy != "" && c.issuedAt != 0
    && c.sensorIDs == Text.Canonical(CurrentIds(s, c.batchID))
    && c.contentDigest == h(MaterialOf(s, c.batchID, c.batchVersion))
  }

  ghost predicate CredentialsOk(h: Material -> string, s: State) {
    forall c :: c in s.credentials ==> CredentialOk(h, s, s.credentials[c])
  }

  ghost predicate CredentialsUnique(s: State) {
    && (forall c, d :: c in s.credentials && d in s.credentials && s.credentials[c].batchID == s.credentials[d].batchID ==> c == d)
    && (forall b :: b in s.batches && s.batches[b].status == Released ==> Domain.HasCredential(s, b))
  }

  // ---------- groups ----------

  ghost predicate Frames(s: State) {
    && Keyed(s) && SensorsOk(s) && RevisionsUnique(s) && RevisionsChained(s) && ProfilesOk(s) && RangesOk(s)
    && BatchesOk(s) && SensorListsOk(s) && DraftsPlain(s) && FreezesOk(s) && ReviewsOk(s)
  }

  ghost predicate History(s: State) {
    && MeasurementsOk(s) && DirectUnique(s) && SamplersOk(s) && PreviousMeasured(s) && EverMeasured(s)
    && FindingsOk(s) && OpenUntilPassed(s) && ResolvedOk(s) && FailuresFound(s) && FindingsFounded(s)
  }

  ghost predicate TaskIndex(s: State) {
    && TasksOk(s) && TaskFindingsOk(s) && TasksUnique(s) && TasksComplete(s) && RequiredTasksOk(s) &&
        InheritedTasksOk(s)
    && TasksCoverOpen(s) && TasksAwaitOpen(s)
  }

  /** The part that does not depend on what the status claims. */
  ghost predicate Core(s: State) {
    Frames(s) && History(s) && TaskIndex(s)
  }

  ghost predicate Inv(h: Material -> string, s: State) {
    Core(s) && StatusOk(s) && CredentialsOk(h, s) && CredentialsUnique(s)
  }

  lemma EmptyFrames()
    ensures Frames(EMPTY)
  {
  }

  lemma EmptyHistory()
    ensures History(EMPTY)
  {
  }

  lemma EmptyTaskIndex()
    ensures TaskIndex(EMPTY)
  {
  }

  lemma EmptyInv(h: Material -> string)
    ensures Inv(h, EMPTY)
  {
    hide Frames, History, TaskIndex;
    EmptyFrames();
    EmptyHistory();
    EmptyTaskIndex();
  }
}
