/** Steps that measure nothing: they add revisions, findings on current revisions, plans or
    records of batches, and leave the measured history as it is. */
module Keeping {
  import opened Entities
  import opened Evidence
  import opened Invariant

  ghost predicate AddedFinding(s: State, f: Finding) {
    f.status == Open && f.origin == Manual && IsCurrent(s, f.sensorID, f.batchID)
  }

  ghost predicate Kept(s: State, t: State) {
    && t.measurements == s.measurements
    && (forall x :: x in s.sensors ==> x in t.sensors && t.sensors[x] == s.sensors[x])
    && (forall f :: f in s.findings ==> f in t.findings && t.findings[f] == s.findings[f])
    && (forall f :: f in t.findings && f !in s.findings ==> AddedFinding(s, t.findings[f]))
    && (forall c :: ProfileOf(s, c).Some? ==> ProfileOf(t, c) == ProfileOf(s, c))
  }

  lemma KeptFigures(s: State, t: State, m: Id)
    requires Kept(s, t) && MeasurementsOk(s) && m in s.measurements
    ensures Passing(t, s.measurements[m]) == Passing(s, s.measurements[m])
    ensures forall kind: string :: Violating(t, s.measurements[m], kind) == Violating(s, s.measurements[m], kind)
  {
    assert MeasurementOk(s, s.measurements[m]);
  }

  lemma KeptMeasurements(s: State, t: State)
    requires Kept(s, t) && MeasurementsOk(s) && DirectUnique(s)
    ensures MeasurementsOk(t) && DirectUnique(t)
  {
    forall m | m in t.measurements
      ensures MeasurementOk(t, t.measurements[m])
    {
      assert MeasurementOk(s, s.measurements[m]);
    }
  }

  lemma KeptLaterPass(s: State, t: State, m: Id, f: Finding)
    requires Kept(s, t) && MeasurementsOk(s) && f.sensorID in s.sensors
    ensures PassesLater(t, m, f) <==> PassesLater(s, m, f)
  {
    if m in s.measurements {
      KeptFigures(s, t, m);
      assert MeasurementOk(s, s.measurements[m]);
    }
  }

  lemma KeptFindingHistory(s: State, t: State)
    requires Kept(s, t) && MeasurementsOk(s) && FindingsOk(s) && OpenUntilPassed(s) && ResolvedOk(s)
    ensures OpenUntilPassed(t) && ResolvedOk(t)
  {
    forall f | f in t.findings
      ensures t.findings[f].status == Open <==> !LaterPass(t, t.findings[f])
      ensures t.findings[f].status == Resolved ==>
          t.findings[f].reviewedAt.Some? && exists m :: ClosedBy(t, m, t.findings[f])
    {
      if f in s.findings {
        KeptFinding(s, t, f);
      } else {
        AddedHasNoLaterPass(s, t, t.findings[f]);
      }
    }
  }

  lemma KeptFinding(s: State, t: State, f: Id)
    requires Kept(s, t) && MeasurementsOk(s) && FindingsOk(s) && OpenUntilPassed(s) && ResolvedOk(s) && f in s.findings
    ensures t.findings[f].status == Open <==> !LaterPass(t, t.findings[f])
    ensures t.findings[f].status == Resolved ==>
        t.findings[f].reviewedAt.Some? && exists m :: ClosedBy(t, m, t.findings[f])
  {
    assert FindingOk(s, s.findings[f]);
    forall m
      ensures PassesLater(t, m, s.findings[f]) <==> PassesLater(s, m, s.findings[f])
    {
      KeptLaterPass(s, t, m, s.findings[f]);
    }
    if s.findings[f].status == Resolved {
      var m :| ClosedBy(s, m, s.findings[f]);
      assert ClosedBy(t, m, t.findings[f]);
    }
  }

  lemma AddedHasNoLaterPass(s: State, t: State, f: Finding)
    requires Kept(s, t) && MeasurementsOk(s) && AddedFinding(s, f)
    ensures !LaterPass(t, f)
  {
    forall m
      ensures !PassesLater(t, m, f)
    {
      KeptLaterPass(s, t, m, f);
    }
  }

  lemma KeptFailures(s: State, t: State)
    requires Kept(s, t) && MeasurementsOk(s) && FailuresFound(s)
    ensures FailuresFound(t)
  {
    forall m, kind: string | m in t.measurements && Violating(t, t.measurements[m], kind)
      ensures exists f :: AutomaticAt(t, f, t.measurements[m].sensorID, t.measurements[m].point, kind)
    {
      KeptFigures(s, t, m);
      var f :| AutomaticAt(s, f, s.measurements[m].sensorID, s.measurements[m].point, kind);
      assert AutomaticAt(t, f, t.measurements[m].sensorID, t.measurements[m].point, kind);
    }
  }

  lemma KeptFounded(s: State, t: State)
    requires Kept(s, t) && MeasurementsOk(s) && FindingsFounded(s)
    ensures FindingsFounded(t)
  {
    forall f | f in t.findings && t.findings[f].origin == Automatic
      ensures exists m :: DirectAt(t, m, t.findings[f].sensorID, t.findings[f].point) && Violating(t, t.measurements[m], t.findings[f].kind)
    {
      var m :| DirectAt(s, m, s.findings[f].sensorID, s.findings[f].point) &&
          Violating(s, s.measurements[m], s.findings[f].kind);
      KeptFigures(s, t, m);
      assert DirectAt(t, m, t.findings[f].sensorID, t.findings[f].point) &&
          Violating(t, t.measurements[m], t.findings[f].kind);
    }
  }

  /** Samplers are kept when no batch changes its list and new batches have none. */
  lemma KeptSamplers(s: State, t: State)
    requires t.measurements == s.measurements && SamplersOk(s) && MeasurementsOk(s)
    requires forall b :: b in t.batches ==>
        t.batches[b].sampledBy == if b in s.batches then s.batches[b].sampledBy else []
    requires forall x :: x in s.sensors ==> s.sensors[x].batchID in s.batches
    ensures SamplersOk(t)
  {
    forall b, actor: string | b in t.batches
      ensures actor in t.batches[b].sampledBy <==> CapturedBy(t, b, actor)
    {
      forall m | m in t.measurements && t.measurements[m].batchID == b
        ensures b in s.batches
      {
        assert MeasurementOk(s, s.measurements[m]);
      }
      assert CapturedBy(t, b, actor) <==> CapturedBy(s, b, actor);
    }
  }

  lemma KeptPrevious(s: State, t: State, m: Id, x: Sensor, p: real)
    requires Kept(s, t) && MeasurementsOk(s)
    ensures PreviousAt(t, m, x, p) <==> PreviousAt(s, m, x, p)
    ensures RevisionOf(t, m) == RevisionOf(s, m)
  {
    if m in s.measurements {
      assert MeasurementOk(s, s.measurements[m]);
    }
  }

  lemma KeptMeasured(s: State, t: State, b: Id, code: string, p: real)
    requires Kept(s, t) && Measured(s, b, code, p)
    ensures Measured(t, b, code, p)
  {
    var m :| MeasuredBy(s, m, b, code, p);
    assert MeasuredBy(t, m, b, code, p);
  }

  // ---------- tasks that were there before ----------

  lemma KeptDirect(s: State, t: State, x: Id, p: real)
    requires Kept(s, t)
    ensures HasDirect(t, x, p) <==> HasDirect(s, x, p)
  {
    forall m
      ensures DirectAt(t, m, x, p) <==> DirectAt(s, m, x, p)
    {
    }
  }

  lemma KeptRequiredTask(s: State, t: State, k: Task)
    requires Kept(s, t) && MeasurementsOk(s) && RequiredStatusOk(s, k)
    ensures RequiredStatusOk(t, k)
  {
    KeptDirect(s, t, k.sensorID, k.point);
    if HasDirect(s, k.sensorID, k.point) {
      KeptFigures(s, t, k.evidenceID);
      assert DirectAt(t, k.evidenceID, k.sensorID, k.point);
    }
  }

  lemma KeptInheritedTask(s: State, t: State, k: Task)
    requires Kept(s, t) && MeasurementsOk(s) && InheritedTaskOk(s, k)
    ensures InheritedTaskOk(t, k)
  {
    KeptFigures(s, t, k.evidenceID);
    KeptLatest(s, t, k.evidenceID, s.sensors[k.sensorID], k.point);
  }

  lemma KeptLatest(s: State, t: State, m: Id, x: Sensor, p: real)
    requires Kept(s, t) && MeasurementsOk(s)
    ensures LatestPrevious(t, m, x, p) <==> LatestPrevious(s, m, x, p)
  {
    forall n
      ensures PreviousAt(t, n, x, p) <==> PreviousAt(s, n, x, p)
      ensures RevisionOf(t, n) == RevisionOf(s, n)
    {
      KeptPrevious(s, t, n, x, p);
    }
  }

  lemma KeptTaskOk(s: State, t: State, k: Task)
    requires Kept(s, t) && TaskOk(s, k)
    ensures TaskOk(t, k)
  {
  }

  lemma KeptCoverOpen(s: State, t: State, k: Task, f: Id)
    requires Kept(s, t) && FindingsOk(s) && k.sensorID in s.sensors
    requires OpenEarlier(t, f, t.sensors[k.sensorID], k.point)
    ensures OpenEarlier(s, f, s.sensors[k.sensorID], k.point)
  {
    if f in s.findings {
      assert FindingOk(s, s.findings[f]);
    }
  }

  lemma KeptCurrent(s: State, t: State, x: Id, b: Id)
    requires Kept(s, t) && x in s.sensors && IsCurrent(t, x, b)
    ensures IsCurrent(s, x, b)
  {
  }

  lemma KeptTasks(s: State, t: State)
    requires Kept(s, t) && MeasurementsOk(s) && FindingsOk(s) && t.tasks == s.tasks
    requires TasksOk(s) && TaskFindingsOk(s) && TasksUnique(s) && RequiredTasksOk(s) && InheritedTasksOk(s)
    ensures TasksOk(t) && TaskFindingsOk(t) && TasksUnique(t) && RequiredTasksOk(t) && InheritedTasksOk(t)
  {
    forall k | k in t.tasks
      ensures TaskOk(t, t.tasks[k])
      ensures if t.tasks[k].required then RequiredStatusOk(t, t.tasks[k]) else InheritedTaskOk(t, t.tasks[k])
    {
      KeptTaskOk(s, t, s.tasks[k]);
      if s.tasks[k].required {
        KeptRequiredTask(s, t, s.tasks[k]);
      } else {
        KeptInheritedTask(s, t, s.tasks[k]);
      }
    }
    KeptTaskFindings(s, t);
  }

  lemma KeptTaskFindings(s: State, t: State)
    requires Kept(s, t) && t.tasks == s.tasks && TaskFindingsOk(s)
    ensures TaskFindingsOk(t)
  {
    forall k, f | k in t.tasks && f in t.tasks[k].findingIDs
      ensures ListsFinding(t, t.tasks[k], f)
    {
      assert ListsFinding(s, s.tasks[k], f);
    }
  }

  lemma KeptTasksOpen(s: State, t: State)
    requires Kept(s, t) && FindingsOk(s) && t.tasks == s.tasks
    requires TasksOk(s) && TasksCoverOpen(s) && TasksAwaitOpen(s)
    ensures TasksCoverOpen(t) && TasksAwaitOpen(t)
  {
    forall k, f | k in t.tasks && t.tasks[k].sensorID in t.sensors &&
        OpenEarlier(t, f, t.sensors[t.tasks[k].sensorID], t.tasks[k].point)
      ensures f in t.tasks[k].findingIDs
    {
      assert TaskOk(s, s.tasks[k]);
      KeptCoverOpen(s, t, s.tasks[k], f);
    }
    forall k, f | k in t.tasks && IsCurrent(t, t.tasks[k].sensorID, t.tasks[k].batchID) &&
        t.tasks[k].status != TaskStatus.Passed
        && f in t.tasks[k].findingIDs
      ensures f in t.findings && t.findings[f].status == Open
    {
      assert TaskOk(s, s.tasks[k]);
      KeptCurrent(s, t, s.tasks[k].sensorID, s.tasks[k].batchID);
    }
  }

  lemma KeptTasksComplete(s: State, t: State)
    requires Kept(s, t) && t.tasks == s.tasks && TasksComplete(s)
    requires forall x, p :: x in t.sensors && t.sensors[x].revision > 1 && PlanPoint(t, t.sensors[x].batchID, p)
                            ==> x in s.sensors && PlanPoint(s, s.sensors[x].batchID, p)
    ensures TasksComplete(t)
  {
    forall x, p | x in t.sensors && t.sensors[x].revision > 1 && PlanPoint(t, t.sensors[x].batchID, p)
      ensures exists k :: TaskAt(t, k, x, p)
    {
      var k :| TaskAt(s, k, x, p);
      assert TaskAt(t, k, x, p);
    }
  }

  // ---------- the groups ----------

  /** Later revisions with plan points are no news. */
  ghost predicate NoNewPoints(s: State, t: State) {
    forall x, p | x in t.sensors && t.sensors[x].revision > 1 && PlanPoint(t, t.sensors[x].batchID, p) ::
      x in s.sensors && PlanPoint(s, s.sensors[x].batchID, p)
  }

  lemma KeptTaskIndex(s: State, t: State)
    requires Kept(s, t) && MeasurementsOk(s) && FindingsOk(s) && t.tasks == s.tasks && TaskIndex(s) && NoNewPoints(s, t)
    ensures TaskIndex(t)
  {
    hide MeasurementsOk, FindingsOk, TasksOk, TaskFindingsOk, TasksUnique, RequiredTasksOk, InheritedTasksOk,
         TasksCoverOpen, TasksAwaitOpen;
    KeptTasks(s, t);
    KeptTasksOpen(s, t);
    hide Kept;
    KeptTasksComplete(s, t);
  }

  lemma KeptPreviousMeasured(s: State, t: State)
    requires Kept(s, t) && MeasurementsOk(s) && PreviousMeasured(s) && NoNewPoints(s, t)
    ensures PreviousMeasured(t)
  {
    forall x, p | x in t.sensors && t.sensors[x].revision > 1 && PlanPoint(t, t.sensors[x].batchID, p)
      ensures HasPrevious(t, t.sensors[x], p)
    {
      var m :| PreviousAt(s, m, s.sensors[x], p);
      KeptPrevious(s, t, m, s.sensors[x], p);
    }
  }

  lemma KeptHistory(s: State, t: State)
    requires Kept(s, t) && History(s) && PreviousMeasured(t) && EverMeasured(t) && FindingsOk(t) && SamplersOk(t)
    ensures History(t)
  {
    hide Kept, MeasurementsOk, DirectUnique, SamplersOk, PreviousMeasured, EverMeasured, FindingsOk, OpenUntilPassed,
         ResolvedOk, FailuresFound, FindingsFounded;
    KeptMeasurements(s, t);
    KeptFindingHistory(s, t);
    KeptFailures(s, t);
    KeptFounded(s, t);
  }
}
