/** Recording one measured point keeps the history of a batch honest. */
module Recording {
  import opened Entities
  import opened Statistics
  import opened Evidence
  import Text
  import opened Domain
  import opened Invariant

  /** One point is recorded: what the new state is, part by part. */
  ghost predicate Recorded(s: State, t: State, m: Measurement) {
    RecordedBase(s, t, m) && RecordedFindings(s, t, m) && RecordedTasks(s, t, m)
  }

  ghost predicate RecordedBase(s: State, t: State, m: Measurement) {
    && t.sensors == s.sensors && t.profiles == s.profiles && t.credentials == s.credentials && t.reviews == s.reviews
    && m.batchID in s.batches && t.batches == s.batches[m.batchID := AddSampler(s.batches[m.batchID], m.capturedBy)]
    && m.id !in s.measurements && t.measurements == s.measurements[m.id := m]
  }

  ghost function Reviewed(s: State, f: Finding, m: Measurement): Finding {
    if Passing(s, m) && Closes(s, m.batchID, m.sensorID, m.point, f) then Close(f, m.sensorID, m.capturedAt) else f
  }

  ghost predicate RecordedFindings(s: State, t: State, m: Measurement) {
    && (forall f :: f in s.findings ==> f in t.findings && t.findings[f] == Reviewed(s, s.findings[f], m))
    && (forall f :: f in t.findings && f !in s.findings ==> NewFindingOf(s, t.findings[f], m) && t.findings[f].id == f)
    && (forall kind: string :: Violating(s, m, kind) ==> exists f :: AutomaticAt(t, f, m.sensorID, m.point, kind))
  }

  /** One message for each limit the measurement exceeds, in the order of the comparison. */
  ghost predicate ReasonsGiven(s: State, m: Measurement, reasons: seq<string>) {
    ProfileOf(s, m.batchID).Some? ==>
      var drafts := Compare(m.point, m.stats, ProfileOf(s, m.batchID).value);
      |reasons| == |drafts| && forall i :: 0 <= i < |drafts| ==> reasons[i] == drafts[i].message
  }

  ghost predicate RetestedBy(s: State, before: Task, after: Task, m: Measurement) {
    && ReasonsGiven(s, m, after.reasons)
    && after.evidenceID == m.id && after.updatedAt == m.capturedAt
    && after.status == (if Passing(s, m) then TaskStatus.Passed else Failing)
    && after == before.(evidenceID := after.evidenceID, updatedAt := after.updatedAt, reasons := after.reasons,
        status := after.status)
  }

  ghost predicate RecordedTasks(s: State, t: State, m: Measurement) {
    && t.tasks.Keys == s.tasks.Keys
    && (forall k :: k in s.tasks ==>
        if Retests(s.tasks[k], m) then RetestedBy(s, s.tasks[k], t.tasks[k], m) else t.tasks[k] == s.tasks[k])
  }

  ghost predicate NewFindingOf(s: State, f: Finding, m: Measurement) {
    && !Passing(s, m) && Violating(s, m, f.kind)
    && f.batchID == m.batchID && f.sensorID == m.sensorID && f.point == m.point && f.origin == Automatic
    && f.kind != "" && f.severity == "critical" && f.message != "" && f.status == Open
  }

  /** The point may be recorded. */
  ghost predicate Recordable(s: State, m: Measurement) {
    && MeasurementOk(s, m) && IsCurrent(s, m.sensorID, m.batchID) && !HasDirect(s, m.sensorID, m.point)
    && m.id != "" && m.id !in s.measurements && m.batchID in s.batches && !Sealed(s.batches[m.batchID].status)
  }

  ghost predicate UnusedFindingIds(s: State, ids: seq<Id>) {
    |ids| >= 3 && Text.Distinct(ids) && forall i :: 0 <= i < |ids| ==> ids[i] !in s.findings
  }

  lemma {:induction false} NewFindingsMean(b: Id, x: Id, drafts: seq<FindingDraft>, ids: seq<Id>)
    requires |drafts| <= |ids| && Text.Distinct(ids)
    ensures var added := NewFindings(b, x, drafts, ids);
      && (forall f :: f in added ==>
          exists i :: 0 <= i < |drafts| && f == ids[i] && added[f] == NewFinding(b, x, drafts[i], ids[i]))
      && (forall i :: 0 <= i < |drafts| ==> ids[i] in added && added[ids[i]] == NewFinding(b, x, drafts[i], ids[i]))
  {
    if drafts != [] {
      NewFindingsMean(b, x, drafts[..|drafts| - 1], ids);
    }
  }

  lemma ApplyReadingRecords(s: State, p: Profile, b: Id, x: Id, actor: string, item: Reading, now: Time)
    requires b in s.batches && ProfileOf(s, b) == Some(p)
    requires UnusedFindingIds(s, item.findingIDs) && item.id !in s.measurements
    ensures Recorded(s, ApplyReading(s, p, b, x, actor, item, now), SetOf(b, x, actor, item, now))
  {
    var m := SetOf(b, x, actor, item, now);
    var t := ApplyReading(s, p, b, x, actor, item, now);
    assert Passing(s, m) <==> DraftsOf(p, item) == [];
    ReplaceRecords(s, t, p, m, item.findingIDs);
  }

  lemma AddedNew(s: State, p: Profile, m: Measurement, ids: seq<Id>, f: Id)
    requires ProfileOf(s, m.batchID) == Some(p) && UnusedFindingIds(s, ids)
    requires f in NewFindings(m.batchID, m.sensorID, Compare(m.point, m.stats, p), ids)
    ensures var added := NewFindings(m.batchID, m.sensorID, Compare(m.point, m.stats, p), ids);
      NewFindingOf(s, added[f], m) && added[f].id == f && f !in s.findings
  {
    hide Compare;
    var drafts := Compare(m.point, m.stats, p);
    NewFindingsMean(m.batchID, m.sensorID, drafts, ids);
    var i :| 0 <= i < |drafts| && f == ids[i];
    CompareIsExact(m.point, m.stats, p, drafts[i].kind);
  }

  lemma AddedAll(s: State, p: Profile, m: Measurement, ids: seq<Id>, kind: string)
    requires ProfileOf(s, m.batchID) == Some(p) && UnusedFindingIds(s, ids) && Violating(s, m, kind)
    ensures var added := NewFindings(m.batchID, m.sensorID, Compare(m.point, m.stats, p), ids);
      exists f :: f in added && added[f].kind == kind && added[f].sensorID == m.sensorID &&
          added[f].point == m.point && added[f].origin == Automatic
  {
    hide Compare;
    var drafts := Compare(m.point, m.stats, p);
    NewFindingsMean(m.batchID, m.sensorID, drafts, ids);
    CompareIsExact(m.point, m.stats, p, kind);
    var i :| 0 <= i < |drafts| && drafts[i].kind == kind;
    assert ids[i] in NewFindings(m.batchID, m.sensorID, drafts, ids);
  }

  lemma AddedNone(p: Profile, m: Measurement, ids: seq<Id>)
    requires |ids| >= 3 && Text.Distinct(ids)
    ensures NewFindings(m.batchID, m.sensorID, Compare(m.point, m.stats, p), ids) == map[] <==> Passes(m.stats, p)
  {
    var drafts := Compare(m.point, m.stats, p);
    NewFindingsMean(m.batchID, m.sensorID, drafts, ids);
    if drafts != [] {
      assert ids[0] in NewFindings(m.batchID, m.sensorID, drafts, ids);
    }
  }

  lemma ReplaceRecords(s: State, t: State, p: Profile, m: Measurement, ids: seq<Id>)
    requires ProfileOf(s, m.batchID) == Some(p) && UnusedFindingIds(s, ids)
    requires t.findings == ReplaceFindings(s, m.batchID, m.sensorID, m.point,
                             NewFindings(m.batchID, m.sensorID, Compare(m.point, m.stats, p), ids), m.capturedAt)
    ensures RecordedFindings(s, t, m)
  {
    hide Compare, NewFindings, NewFindingOf, Violating, Text.Distinct, Closes;
    var added := NewFindings(m.batchID, m.sensorID, Compare(m.point, m.stats, p), ids);
    AddedNone(p, m, ids);
    forall f | f in added
      ensures NewFindingOf(s, added[f], m) && added[f].id == f && f !in s.findings
    {
      AddedNew(s, p, m, ids, f);
    }
    forall kind: string | Violating(s, m, kind)
      ensures exists f :: AutomaticAt(t, f, m.sensorID, m.point, kind)
    {
      AddedAll(s, p, m, ids, kind);
      var f :| f in added && added[f].kind == kind && added[f].sensorID == m.sensorID && added[f].point == m.point &&
          added[f].origin == Automatic;
      assert AutomaticAt(t, f, m.sensorID, m.point, kind);
    }
  }

  // ---------- what stays the same ----------

  lemma RecordedPlans(s: State, t: State, m: Measurement)
    requires RecordedBase(s, t, m)
    ensures forall b :: ProfileOf(t, b) == ProfileOf(s, b)
    ensures forall n: Measurement :: Passing(t, n) == Passing(s, n)
    ensures forall x, b :: IsCurrent(t, x, b) <==> IsCurrent(s, x, b)
    ensures forall b, p :: PlanPoint(t, b, p) <==> PlanPoint(s, b, p)
  {
  }

  lemma RecordedKeyed(s: State, t: State, m: Measurement)
    requires Recorded(s, t, m) && Recordable(s, m) && Keyed(s)
    ensures Keyed(t)
  {
  }

  lemma RecordedSensors(s: State, t: State, m: Measurement)
    requires RecordedBase(s, t, m) && SensorsOk(s) && RevisionsUnique(s) && RevisionsChained(s)
    ensures SensorsOk(t) && RevisionsUnique(t) && RevisionsChained(t)
  {
    forall x | x in t.sensors && t.sensors[x].revision > 1
      ensures HasRevision(t, t.sensors[x].batchID, t.sensors[x].code, t.sensors[x].revision - 1)
    {
      assert HasRevision(s, s.sensors[x].batchID, s.sensors[x].code, s.sensors[x].revision - 1);
    }
  }

  lemma RecordedProfiles(s: State, t: State, m: Measurement)
    requires RecordedBase(s, t, m) && ProfilesOk(s) && RangesOk(s)
    ensures ProfilesOk(t) && RangesOk(t)
  {
    RecordedPlans(s, t, m);
    forall k | k in t.profiles
      ensures ProfileOk(t, t.profiles[k])
    {
      assert ProfileOk(s, s.profiles[k]);
    }
  }

  lemma RecordedBatches(s: State, t: State, m: Measurement)
    requires RecordedBase(s, t, m) && BatchesOk(s)
    ensures BatchesOk(t)
  {
    forall b | b in t.batches
      ensures BatchOk(t, t.batches[b])
    {
      assert BatchOk(s, s.batches[b]);
    }
  }

  lemma RecordedLists(s: State, t: State, m: Measurement)
    requires RecordedBase(s, t, m) && SensorListsOk(s) && DraftsPlain(s) && ReviewsOk(s)
    ensures SensorListsOk(t) && DraftsPlain(t) && ReviewsOk(t)
  {
  }

  lemma RecordedFreezes(s: State, t: State, m: Measurement)
    requires RecordedBase(s, t, m) && Recordable(s, m) && FreezesOk(s)
    ensures FreezesOk(t)
  {
  }

  lemma RecordedFrames(s: State, t: State, m: Measurement)
    requires Recorded(s, t, m) && Recordable(s, m) && Frames(s)
    ensures Frames(t)
  {
    hide RecordedBase, RecordedFindings, RecordedTasks, Recordable;
    hide Keyed, SensorsOk, RevisionsUnique, RevisionsChained, ProfilesOk, RangesOk, BatchesOk, SensorListsOk,
         DraftsPlain, FreezesOk, ReviewsOk;
    RecordedKeyed(s, t, m);
    RecordedSensors(s, t, m);
    RecordedProfiles(s, t, m);
    RecordedBatches(s, t, m);
    RecordedLists(s, t, m);
    RecordedFreezes(s, t, m);
  }

  lemma RecordedMeasurements(s: State, t: State, m: Measurement)
    requires RecordedBase(s, t, m) && Recordable(s, m) && MeasurementsOk(s)
    ensures MeasurementsOk(t)
  {
    RecordedPlans(s, t, m);
    assert MeasurementOk(t, m);
    forall n | n in s.measurements
      ensures MeasurementOk(t, t.measurements[n])
    {
      assert MeasurementOk(s, s.measurements[n]);
    }
  }

  lemma RecordedDirect(s: State, t: State, m: Measurement)
    requires RecordedBase(s, t, m) && Recordable(s, m) && DirectUnique(s)
    ensures DirectUnique(t)
  {
    forall n | n in s.measurements
      ensures s.measurements[n].sensorID != m.sensorID || s.measurements[n].point != m.point
    {
      assert !DirectAt(s, n, m.sensorID, m.point);
    }
  }

  lemma RecordedSamplers(s: State, t: State, m: Measurement)
    requires Recorded(s, t, m) && SamplersOk(s)
    ensures SamplersOk(t)
  {
    forall b, actor: string | b in t.batches
      ensures actor in t.batches[b].sampledBy <==> CapturedBy(t, b, actor)
    {
      if CapturedBy(s, b, actor) {
        var n :| n in s.measurements && s.measurements[n].batchID == b && s.measurements[n].capturedBy == actor;
        assert n in t.measurements && t.measurements[n] == s.measurements[n];
      }
      if b == m.batchID && actor == m.capturedBy {
        assert m.id in t.measurements && t.measurements[m.id] == m;
      }
      if CapturedBy(t, b, actor) {
        var n :| n in t.measurements && t.measurements[n].batchID == b && t.measurements[n].capturedBy == actor;
        assert n == m.id || s.measurements[n] == t.measurements[n];
      }
    }
  }

  lemma PreviousKept(s: State, t: State, m: Measurement, n: Id, x: Sensor, p: real)
    requires Recorded(s, t, m) && PreviousAt(s, n, x, p)
    ensures PreviousAt(t, n, x, p)
  {
  }

  /** No measurement can arrive at an earlier revision of anything. */
  lemma NothingNewEarlier(s: State, t: State, m: Measurement, n: Id, x: Id, p: real)
    requires Recorded(s, t, m) && Recordable(s, m) && x in s.sensors
    requires PreviousAt(t, n, s.sensors[x], p)
    ensures PreviousAt(s, n, s.sensors[x], p)
  {
    if n == m.id {
      assert SameLine(s.sensors[x], s.sensors[m.sensorID]);
    }
  }

  lemma RecordedMeasured(s: State, t: State, m: Measurement)
    requires Recorded(s, t, m) && Recordable(s, m) && PreviousMeasured(s) && EverMeasured(s)
    ensures PreviousMeasured(t) && EverMeasured(t)
  {
    RecordedPlans(s, t, m);
    forall x, p | x in t.sensors && t.sensors[x].revision > 1 && PlanPoint(t, t.sensors[x].batchID, p)
      ensures HasPrevious(t, t.sensors[x], p)
    {
      var n :| PreviousAt(s, n, s.sensors[x], p);
      PreviousKept(s, t, m, n, s.sensors[x], p);
    }
    forall x, p | x in t.sensors && t.sensors[x].batchID in t.batches &&
        Evaluated(t.batches[t.sensors[x].batchID].status)
        && PlanPoint(t, t.sensors[x].batchID, p)
      ensures Measured(t, t.sensors[x].batchID, t.sensors[x].code, p)
    {
      var n :| MeasuredBy(s, n, s.sensors[x].batchID, s.sensors[x].code, p);
      assert MeasuredBy(t, n, t.sensors[x].batchID, t.sensors[x].code, p);
    }
  }

  lemma RecordedFindingsOk(s: State, t: State, m: Measurement)
    requires Recorded(s, t, m) && Recordable(s, m) && FindingsOk(s)
    ensures FindingsOk(t)
  {
    RecordedPlans(s, t, m);
  }

  lemma LaterPassKept(s: State, t: State, m: Measurement, n: Id, f: Finding, g: Finding)
    requires Recorded(s, t, m) && PassesLater(s, n, f) && g.sensorID == f.sensorID && g.point == f.point
    ensures PassesLater(t, n, g)
  {
    RecordedPlans(s, t, m);
  }

  lemma LaterPassNew(s: State, t: State, m: Measurement, n: Id, f: Finding)
    requires Recorded(s, t, m) && PassesLater(t, n, f)
    ensures PassesLater(s, n, f) || n == m.id
  {
    RecordedPlans(s, t, m);
  }

  lemma RecordedOldFinding(s: State, t: State, m: Measurement, f: Id)
    requires Recorded(s, t, m) && Recordable(s, m) && FindingsOk(s) && OpenUntilPassed(s) && ResolvedOk(s)
    requires f in s.findings
    ensures t.findings[f].status == Open <==> !LaterPass(t, t.findings[f])
    ensures t.findings[f].status == Resolved ==>
        t.findings[f].reviewedAt.Some? && exists n :: ClosedBy(t, n, t.findings[f])
  {
    hide RecordedTasks, StatsOf, NewFindingOf, Violating;
    RecordedPlans(s, t, m);
    var before, after := s.findings[f], t.findings[f];
    assert FindingOk(s, before);
    if LaterPass(s, before) {
      var n :| ClosedBy(s, n, before);
      LaterPassKept(s, t, m, n, before, after);
      assert ClosedBy(t, n, after);
    } else if Passing(s, m) && Closes(s, m.batchID, m.sensorID, m.point, before) {
      ClosedNow(s, t, m, f);
    } else {
      hide Recordable, FindingsOk, ResolvedOk;
      if LaterPass(t, after) {
        var n :| PassesLater(t, n, after);
        LaterPassNew(s, t, m, n, after);
      }
    }
  }

  lemma ClosedNow(s: State, t: State, m: Measurement, f: Id)
    requires RecordedBase(s, t, m) && RecordedFindings(s, t, m) && Recordable(s, m) && f in s.findings
    requires FindingOk(s, s.findings[f])
    requires Passing(s, m) && Closes(s, m.batchID, m.sensorID, m.point, s.findings[f])
    ensures f in t.findings && t.findings[f].status == Resolved && t.findings[f].reviewedAt.Some?
    ensures ClosedBy(t, m.id, t.findings[f])
  {
    hide StatsOf, NewFindingOf, Violating;
    RecordedPlans(s, t, m);
  }

  lemma RecordedNewFinding(s: State, t: State, m: Measurement, f: Id)
    requires Recorded(s, t, m) && Recordable(s, m) && f in t.findings && f !in s.findings
    ensures t.findings[f].status == Open && !LaterPass(t, t.findings[f])
  {
    if LaterPass(t, t.findings[f]) {
      var n :| PassesLater(t, n, t.findings[f]);
      var y := t.measurements[n].sensorID;
      assert SameLine(s.sensors[y], s.sensors[m.sensorID]);
    }
  }

  lemma RecordedFindingHistory(s: State, t: State, m: Measurement)
    requires Recorded(s, t, m) && Recordable(s, m) && FindingsOk(s) && OpenUntilPassed(s) && ResolvedOk(s)
    ensures OpenUntilPassed(t) && ResolvedOk(t)
  {
    forall f | f in t.findings
      ensures t.findings[f].status == Open <==> !LaterPass(t, t.findings[f])
      ensures t.findings[f].status == Resolved ==>
          t.findings[f].reviewedAt.Some? && exists n :: ClosedBy(t, n, t.findings[f])
    {
      if f in s.findings {
        RecordedOldFinding(s, t, m, f);
      } else {
        RecordedNewFinding(s, t, m, f);
      }
    }
  }

  lemma RecordedFailures(s: State, t: State, m: Measurement)
    requires RecordedBase(s, t, m) && RecordedFindings(s, t, m) && FailuresFound(s)
    ensures FailuresFound(t)
  {
    forall n, kind: string | n in t.measurements && Violating(t, t.measurements[n], kind)
      ensures exists f :: AutomaticAt(t, f, t.measurements[n].sensorID, t.measurements[n].point, kind)
    {
      if n != m.id {
        assert Violating(s, s.measurements[n], kind);
        var f :| AutomaticAt(s, f, s.measurements[n].sensorID, s.measurements[n].point, kind);
        assert AutomaticAt(t, f, s.measurements[n].sensorID, s.measurements[n].point, kind);
      } else {
        assert Violating(s, m, kind);
      }
    }
  }

  lemma RecordedFounded(s: State, t: State, m: Measurement)
    requires RecordedBase(s, t, m) && RecordedFindings(s, t, m) && FindingsFounded(s)
    ensures FindingsFounded(t)
  {
    forall f | f in t.findings && t.findings[f].origin == Automatic
      ensures exists n :: DirectAt(t, n, t.findings[f].sensorID, t.findings[f].point) && Violating(t, t.measurements[n], t.findings[f].kind)
    {
      if f in s.findings {
        var n :| DirectAt(s, n, s.findings[f].sensorID, s.findings[f].point) &&
            Violating(s, s.measurements[n], s.findings[f].kind);
        assert DirectAt(t, n, t.findings[f].sensorID, t.findings[f].point) &&
            Violating(t, t.measurements[n], t.findings[f].kind);
      } else {
        assert DirectAt(t, m.id, m.sensorID, m.point) && Violating(t, t.measurements[m.id], t.findings[f].kind);
      }
    }
  }

  lemma RecordedHistory(s: State, t: State, m: Measurement)
    requires Recorded(s, t, m) && Recordable(s, m) && Frames(s) && History(s)
    ensures History(t)
  {
    RecordedMeasurements(s, t, m);
    RecordedDirect(s, t, m);
    RecordedSamplers(s, t, m);
    RecordedMeasured(s, t, m);
    RecordedFindingsOk(s, t, m);
    RecordedFindingHistory(s, t, m);
    RecordedFailures(s, t, m);
    RecordedFounded(s, t, m);
  }

  // ---------- tasks ----------

  lemma RecordedTaskRecords(s: State, t: State, m: Measurement)
    requires RecordedBase(s, t, m) && RecordedTasks(s, t, m) && Recordable(s, m) && TasksOk(s) && TasksUnique(s)
    ensures TasksOk(t) && TasksUnique(t)
  {
    RecordedPlans(s, t, m);
    forall k | k in t.tasks
      ensures TaskOk(t, t.tasks[k])
    {
      assert TaskOk(s, s.tasks[k]);
    }
  }

  lemma RecordedTasksComplete(s: State, t: State, m: Measurement)
    requires RecordedBase(s, t, m) && RecordedTasks(s, t, m) && TasksComplete(s)
    ensures TasksComplete(t)
  {
    RecordedPlans(s, t, m);
    forall x, p | x in t.sensors && t.sensors[x].revision > 1 && PlanPoint(t, t.sensors[x].batchID, p)
      ensures exists k :: TaskAt(t, k, x, p)
    {
      var k :| TaskAt(s, k, x, p);
      assert TaskAt(t, k, x, p);
    }
  }

  lemma RecordedTaskFindings(s: State, t: State, m: Measurement)
    requires Recorded(s, t, m) && TaskFindingsOk(s)
    ensures TaskFindingsOk(t)
  {
    forall k, f | k in t.tasks && f in t.tasks[k].findingIDs
      ensures ListsFinding(t, t.tasks[k], f)
    {
      assert ListsFinding(s, s.tasks[k], f);
    }
  }

  lemma RecordedRequiredTasks(s: State, t: State, m: Measurement)
    requires Recorded(s, t, m) && Recordable(s, m) && RequiredTasksOk(s)
    ensures RequiredTasksOk(t)
  {
    RecordedPlans(s, t, m);
    forall k | k in t.tasks && t.tasks[k].required
      ensures RequiredStatusOk(t, t.tasks[k])
    {
      var task := s.tasks[k];
      assert RequiredStatusOk(s, task);
      if Retests(task, m) {
        assert DirectAt(t, m.id, task.sensorID, task.point);
      } else {
        if HasDirect(s, task.sensorID, task.point) {
          assert DirectAt(t, task.evidenceID, task.sensorID, task.point);
        }
        if HasDirect(t, task.sensorID, task.point) {
          var n :| DirectAt(t, n, task.sensorID, task.point);
          assert DirectAt(s, n, task.sensorID, task.point);
        }
      }
    }
  }

  lemma RecordedInheritedTasks(s: State, t: State, m: Measurement)
    requires Recorded(s, t, m) && Recordable(s, m) && InheritedTasksOk(s) && TasksOk(s)
    ensures InheritedTasksOk(t)
  {
    RecordedPlans(s, t, m);
    forall k | k in t.tasks && !t.tasks[k].required
      ensures InheritedTaskOk(t, t.tasks[k])
    {
      var task := s.tasks[k];
      assert InheritedTaskOk(s, task) && t.tasks[k] == task;
      PreviousKept(s, t, m, task.evidenceID, s.sensors[task.sensorID], task.point);
      forall n | PreviousAt(t, n, t.sensors[task.sensorID], task.point)
        ensures RevisionOf(t, n) <= RevisionOf(t, task.evidenceID)
      {
        NothingNewEarlier(s, t, m, n, task.sensorID, task.point);
      }
    }
  }

  lemma RecordedCoverOpen(s: State, t: State, m: Measurement)
    requires Recorded(s, t, m) && Recordable(s, m) && TasksCoverOpen(s)
    ensures TasksCoverOpen(t)
  {
    forall k, f | k in t.tasks && t.tasks[k].sensorID in t.sensors &&
        OpenEarlier(t, f, t.sensors[t.tasks[k].sensorID], t.tasks[k].point)
      ensures f in t.tasks[k].findingIDs
    {
      NewFindingNotEarlier(s, t, m, f, s.tasks[k].sensorID);
      assert OpenEarlier(s, f, s.sensors[s.tasks[k].sensorID], s.tasks[k].point);
    }
  }

  lemma NewFindingNotEarlier(s: State, t: State, m: Measurement, f: Id, x: Id)
    requires RecordedBase(s, t, m) && RecordedFindings(s, t, m) && Recordable(s, m)
    requires f in t.findings && x in s.sensors && Earlier(t, t.findings[f].sensorID, s.sensors[x])
    ensures f in s.findings
  {
    if f !in s.findings {
      assert SameLine(s.sensors[x], s.sensors[m.sensorID]);
    }
  }

  lemma RecordedAwaitOpen(s: State, t: State, m: Measurement)
    requires Recorded(s, t, m) && Recordable(s, m) && RevisionsUnique(s) && FindingsOk(s)
    requires TasksOk(s) && TaskFindingsOk(s) && TasksAwaitOpen(s) && RequiredTasksOk(s)
    ensures TasksAwaitOpen(t)
  {
    RecordedPlans(s, t, m);
    forall k, f | k in t.tasks && IsCurrent(t, t.tasks[k].sensorID, t.tasks[k].batchID) &&
        t.tasks[k].status != TaskStatus.Passed
        && f in t.tasks[k].findingIDs
      ensures f in t.findings && t.findings[f].status == Open
    {
      var task := s.tasks[k];
      assert TaskOk(s, task) && RequiredStatusOk(s, task);
      if !Retests(task, m) || !Passing(s, m) {
        if Retests(task, m) {
          NotPassedBefore(s, task, m);
        }
        AwaitedStaysOpen(s, t, m, task, f);
      }
    }
  }

  lemma NotPassedBefore(s: State, task: Task, m: Measurement)
    requires Recordable(s, m) && Retests(task, m) && RequiredStatusOk(s, task)
    ensures task.status == Pending
  {
    assert HasDirect(s, task.sensorID, task.point) == HasDirect(s, m.sensorID, m.point);
  }

  lemma AwaitedStaysOpen(s: State, t: State, m: Measurement, task: Task, f: Id)
    requires RecordedBase(s, t, m) && RecordedFindings(s, t, m) && Recordable(s, m) && RevisionsUnique(s)
    requires FindingsOk(s)
    requires f in s.findings && s.findings[f].status == Open && s.findings[f].point == task.point
    requires IsCurrent(s, task.sensorID, task.batchID) && Earlier(s, s.findings[f].sensorID, s.sensors[task.sensorID])
    requires task.required && (!Retests(task, m) || !Passing(s, m))
    ensures t.findings[f].status == Open
  {
    if Passing(s, m) && Closes(s, m.batchID, m.sensorID, m.point, s.findings[f]) {
      assert FindingOk(s, s.findings[f]);
      assert SameLine(s.sensors[task.sensorID], s.sensors[m.sensorID]);
    }
  }

  lemma RecordedTaskIndex(s: State, t: State, m: Measurement)
    requires Recorded(s, t, m) && Recordable(s, m) && Frames(s) && FindingsOk(s) && TaskIndex(s)
    ensures TaskIndex(t)
  {
    RecordedTaskRecords(s, t, m);
    RecordedTasksComplete(s, t, m);
    RecordedTaskFindings(s, t, m);
    RecordedRequiredTasks(s, t, m);
    RecordedInheritedTasks(s, t, m);
    RecordedCoverOpen(s, t, m);
    RecordedAwaitOpen(s, t, m);
  }
}
