/** Recalibration: a new revision with its tasks keeps the invariant. */
module Renewal {
  import opened Entities
  import opened Evidence
  import Frozen
  import opened Text
  import opened Domain
  import opened Invariant
  import opened Keeping
  import Consequences
  import opened StatusChange
  import Preservation

  /** Revision `id` succeeds revision `before` of batch `b`. */
  ghost predicate Renewed(s: State, t: State, b: Id, before: Id, id: Id) {
    && b in s.batches && (s.batches[b].status == Failed || s.batches[b].status == Returned)
    && IsCurrent(s, before, b) && id !in s.sensors && id in t.sensors && t.sensors == s.sensors[id := t.sensors[id]]
    && SuccessorOf(s.sensors[before], t.sensors[id]) && t.sensors[id].id == id
    && b in t.batches && t.batches == s.batches[b := t.batches[b]]
    && t.batches[b] == s.batches[b].(sensorIDs := s.batches[b].sensorIDs + [id], version := s.batches[b].version + 1,
                                     status := if s.batches[b].status == Returned then Returned else Sampling)
    && t == s.(batches := t.batches, sensors := t.sensors, tasks := t.tasks)
  }

  ghost predicate SuccessorOf(x: Sensor, y: Sensor) {
    y.revision == x.revision + 1 && y.note != "" &&
        y == x.(id := y.id, revision := y.revision, note := y.note, createdAt := y.createdAt)
  }

  lemma RenewedPlans(s: State, t: State, b: Id, before: Id, id: Id)
    requires Renewed(s, t, b, before, id)
    ensures forall c :: ProfileOf(t, c) == ProfileOf(s, c)
    ensures forall c, p :: PlanPoint(t, c, p) <==> PlanPoint(s, c, p)
  {
  }

  lemma RenewedUnique(s: State, t: State, b: Id, before: Id, id: Id)
    requires Renewed(s, t, b, before, id) && RevisionsUnique(s) && RangesOk(s)
    ensures RevisionsUnique(t) && RangesOk(t) && IsCurrent(t, id, b)
  {
    RenewedPlans(s, t, b, before, id);
    forall c | c in s.sensors && SameLine(s.sensors[c], t.sensors[id])
      ensures s.sensors[c].revision < t.sensors[id].revision
    {
      assert SameLine(s.sensors[c], s.sensors[before]);
    }
  }

  lemma RenewedSensors(s: State, t: State, b: Id, before: Id, id: Id)
    requires Renewed(s, t, b, before, id) && SensorsOk(s) && RevisionsChained(s)
    ensures SensorsOk(t) && RevisionsChained(t)
  {
    forall x | x in t.sensors
      ensures SensorOk(t, t.sensors[x])
    {
      assert SensorOk(s, s.sensors[if x == id then before else x]);
    }
    forall x | x in t.sensors && t.sensors[x].revision > 1
      ensures HasRevision(t, t.sensors[x].batchID, t.sensors[x].code, t.sensors[x].revision - 1)
    {
      if x == id {
        assert before in t.sensors;
      } else {
        var y :| y in s.sensors && s.sensors[y].batchID == s.sensors[x].batchID &&
            s.sensors[y].code == s.sensors[x].code
          && s.sensors[y].revision == s.sensors[x].revision - 1;
        assert y in t.sensors && t.sensors[y] == s.sensors[y];
      }
    }
  }

  lemma RenewedBatches(s: State, t: State, b: Id, before: Id, id: Id)
    requires Renewed(s, t, b, before, id) && BatchesOk(s)
    ensures BatchesOk(t)
  {
    hide SuccessorOf, IsCurrent;
    forall c | c in t.batches
      ensures BatchOk(t, t.batches[c])
    {
      assert BatchOk(s, s.batches[c]);
    }
  }

  lemma RenewedProfiles(s: State, t: State, b: Id, before: Id, id: Id)
    requires Renewed(s, t, b, before, id) && ProfilesOk(s)
    ensures ProfilesOk(t)
  {
    hide SuccessorOf, IsCurrent;
    forall k | k in t.profiles
      ensures ProfileOk(t, t.profiles[k])
    {
      assert ProfileOk(s, s.profiles[k]);
    }
  }

  lemma RenewedLists(s: State, t: State, b: Id, before: Id, id: Id)
    requires Renewed(s, t, b, before, id) && SensorListsOk(s)
    ensures SensorListsOk(t)
  {
    assert t.sensors[id].batchID == b;
  }

  lemma RenewedFreezes(s: State, t: State, b: Id, before: Id, id: Id)
    requires Renewed(s, t, b, before, id) && DraftsPlain(s) && FreezesOk(s) && ReviewsOk(s)
    ensures DraftsPlain(t) && FreezesOk(t) && ReviewsOk(t)
  {
  }

  lemma RenewedKept(s: State, t: State, b: Id, before: Id, id: Id)
    requires Renewed(s, t, b, before, id)
    ensures Kept(s, t)
  {
    RenewedPlans(s, t, b, before, id);
  }

  lemma RenewedFindings(s: State, t: State, b: Id, before: Id, id: Id)
    requires Renewed(s, t, b, before, id) && SensorsOk(s) && FindingsOk(s) && SamplersOk(s) && MeasurementsOk(s)
    ensures FindingsOk(t) && SamplersOk(t)
  {
    RenewedPlans(s, t, b, before, id);
    forall f | f in t.findings
      ensures FindingOk(t, t.findings[f])
    {
      assert FindingOk(s, s.findings[f]);
    }
    forall x | x in s.sensors
      ensures s.sensors[x].batchID in s.batches
    {
      assert SensorOk(s, s.sensors[x]);
    }
    KeptSamplers(s, t);
  }

  lemma RenewedMeasured(s: State, t: State, b: Id, before: Id, id: Id)
    requires Renewed(s, t, b, before, id) && Kept(s, t) && EverMeasured(s)
    ensures EverMeasured(t)
  {
    RenewedPlans(s, t, b, before, id);
    forall x, p | x in t.sensors && t.sensors[x].batchID in t.batches &&
        Evaluated(t.batches[t.sensors[x].batchID].status)
        && PlanPoint(t, t.sensors[x].batchID, p)
      ensures Measured(t, t.sensors[x].batchID, t.sensors[x].code, p)
    {
      var y := if x == id then before else x;
      KeptMeasured(s, t, s.sensors[y].batchID, s.sensors[y].code, p);
    }
  }

  /** At every point of the plan an earlier revision of the new one has been measured. */
  lemma RenewedHasPrevious(s: State, t: State, b: Id, before: Id, id: Id, p: real)
    requires Renewed(s, t, b, before, id) && Kept(s, t) && EverMeasured(s) && PlanPoint(s, b, p)
    ensures HasPrevious(t, t.sensors[id], p)
  {
    assert Measured(s, b, s.sensors[before].code, p);
    var m :| MeasuredBy(s, m, b, s.sensors[before].code, p);
    assert SameLine(s.sensors[s.measurements[m].sensorID], s.sensors[before]);
    assert PreviousAt(t, m, t.sensors[id], p);
  }

  lemma RenewedPrevious(s: State, t: State, b: Id, before: Id, id: Id)
    requires Renewed(s, t, b, before, id) && Kept(s, t) && EverMeasured(s) && PreviousMeasured(s) && MeasurementsOk(s)
    ensures PreviousMeasured(t)
  {
    RenewedPlans(s, t, b, before, id);
    forall x, p | x in t.sensors && t.sensors[x].revision > 1 && PlanPoint(t, t.sensors[x].batchID, p)
      ensures HasPrevious(t, t.sensors[x], p)
    {
      if x == id {
        RenewedHasPrevious(s, t, b, before, id, p);
      } else {
        var m :| PreviousAt(s, m, s.sensors[x], p);
        KeptPrevious(s, t, m, s.sensors[x], p);
      }
    }
  }

  lemma RenewedHistory(s: State, t: State, b: Id, before: Id, id: Id)
    requires Renewed(s, t, b, before, id) && Core(s)
    requires forall k :: k in t.tasks ==> t.tasks[k].id == k
    ensures Frames(t) && History(t)
  {
    hide Renewed, Kept, Keyed, TaskIndex;
    hide SensorsOk, RevisionsUnique, RevisionsChained, ProfilesOk, RangesOk, BatchesOk, SensorListsOk, DraftsPlain,
         FreezesOk, ReviewsOk;
    hide MeasurementsOk, DirectUnique, SamplersOk, PreviousMeasured, EverMeasured, FindingsOk, OpenUntilPassed,
         ResolvedOk, FailuresFound, FindingsFounded;
    RenewedKeyed(s, t, b, before, id);
    RenewedUnique(s, t, b, before, id);
    RenewedSensors(s, t, b, before, id);
    RenewedBatches(s, t, b, before, id);
    RenewedProfiles(s, t, b, before, id);
    RenewedLists(s, t, b, before, id);
    RenewedFreezes(s, t, b, before, id);
    RenewedKept(s, t, b, before, id);
    RenewedFindings(s, t, b, before, id);
    RenewedMeasured(s, t, b, before, id);
    RenewedPrevious(s, t, b, before, id);
    KeptHistory(s, t);
  }

  lemma RenewedKeyed(s: State, t: State, b: Id, before: Id, id: Id)
    requires Renewed(s, t, b, before, id) && Keyed(s)
    requires forall k :: k in t.tasks ==> t.tasks[k].id == k
    ensures Keyed(t)
  {
  }

  // ---------- the tasks ----------

  /** A task of the new revision, as it is when made. */
  /** The task names the revision of the latest earlier measurement at its point. */
  ghost predicate NamesLatest(t: State, x: Sensor, k: Task) {
    exists m :: LatestPrevious(t, m, x, k.point) && k.sourceID == t.measurements[m].sensorID
  }

  ghost predicate FreshTask(t: State, k: Task, b: Id, id: Id)
    requires id in t.sensors
  {
    && k.sensorID == id && k.batchID == b && PlanPoint(t, b, k.point) && k.updatedAt != 0
    && (forall f :: f in k.findingIDs <==> OpenEarlier(t, f, t.sensors[id], k.point))
    && (k.required <==> k.findingIDs != []) && k.reasons == []
    && (HasPrevious(t, t.sensors[id], k.point) ==> NamesLatest(t, t.sensors[id], k))
    && k.status == (if k.required then Pending else Inherited) && (k.required ==> k.evidenceID == "")
    && (!k.required && HasPrevious(t, t.sensors[id], k.point) ==>
          LatestPrevious(t, k.evidenceID, t.sensors[id], k.point) &&
              k.sourceID == t.measurements[k.evidenceID].sensorID)
  }

  ghost predicate Tasked(s: State, t: State, b: Id, id: Id)
    requires id in t.sensors
  {
    && (forall k :: k in s.tasks ==> k in t.tasks && t.tasks[k] == s.tasks[k])
    && (forall k :: k in t.tasks && k !in s.tasks ==> FreshTask(t, t.tasks[k], b, id) && t.tasks[k].id == k)
    && (forall p :: PlanPoint(t, b, p) ==> exists k :: TaskAt(t, k, id, p))
    && (forall k, l :: k in t.tasks && l in t.tasks && k !in s.tasks && l !in s.tasks && t.tasks[k].point == t.tasks[l].point ==> k == l)
  }

  ghost predicate Increasing(ps: seq<real>) {
    forall i, j :: 0 <= i < j < |ps| ==> ps[i] < ps[j]
  }

  /** The new tasks are one per point, each under its own identifier. */
  ghost predicate OnePerPoint(u: State, x: Sensor, points: seq<real>, ids: seq<Id>, now: Time, n: nat, added: map<Id,
                              Task>)
    requires n <= |points| && n <= |ids|
  {
    && (forall k :: k in added ==> exists i :: 0 <= i < n && k == ids[i])
    && (forall i :: 0 <= i < n ==> ids[i] in added && added[ids[i]] == NewTask(u, x, points[i], ids[i], now))
  }

  lemma {:induction false} NewTasksMean(u: State, x: Sensor, points: seq<real>, ids: seq<Id>, now: Time, n: nat)
    requires n <= |points| && n <= |ids| && Distinct(ids)
    ensures OnePerPoint(u, x, points, ids, now, n, NewTasks(u, x, points, ids, now, n))
  {
    hide NewTask;
    if n > 0 {
      NewTasksMean(u, x, points, ids, now, n - 1);
    }
  }

  lemma NewTaskIsFresh(u: State, t: State, b: Id, id: Id, p: real, k: Id, now: Time)
    requires id in u.sensors && t == u.(tasks := t.tasks) && Keyed(u) && u.sensors[id].batchID == b
    requires PlanPoint(u, b, p) && now != 0
    ensures FreshTask(t, NewTask(u, u.sensors[id], p, k, now), b, id)
  {
    var x := u.sensors[id];
    var task := NewTask(u, x, p, k, now);
    assert ProfileOf(t, b) == ProfileOf(u, b);
    forall f
      ensures f in task.findingIDs <==> OpenEarlier(t, f, x, p)
    {
      assert f in task.findingIDs <==> f in Elements(task.findingIDs);
      assert OpenEarlier(t, f, x, p) <==> OpenEarlier(u, f, x, p);
    }
    forall m, q
      ensures PreviousAt(t, m, x, q) <==> PreviousAt(u, m, x, q)
      ensures RevisionOf(t, m) == RevisionOf(u, m)
    {
    }
    if HasPrevious(t, x, p) {
      var m :| PreviousAt(t, m, x, p);
      var n := Consequences.LatestExists(u, m, x, p);
      assert PreviousEvidence(u, x, p).Some? && LatestPrevious(u, PreviousEvidence(u, x, p).value, x, p);
      assert LatestPrevious(t, PreviousEvidence(u, x, p).value, x, p);
    }
  }

  lemma AddedTaskFresh(u: State, t: State, b: Id, id: Id, points: seq<real>, ids: seq<Id>, now: Time, added: map<Id,
                       Task>, k: Id)
    returns (i: nat)
    requires id in u.sensors && t == u.(tasks := t.tasks) && Keyed(u) && u.sensors[id].batchID == b && now != 0
    requires |ids| >= |points| && OnePerPoint(u, u.sensors[id], points, ids, now, |points|, added) && k in added
    requires ProfileOf(u, b).Some? && points == ProfileOf(u, b).value.points
    ensures i < |points| && k == ids[i] && added[k].point == points[i] && added[k].id == k
    ensures FreshTask(t, added[k], b, id)
  {
    hide NewTask, FreshTask, Keyed;
    i :| 0 <= i < |points| && k == ids[i];
    NewTaskIsFresh(u, t, b, id, points[i], k, now);
    NewTaskPlace(u, u.sensors[id], points[i], k, now);
  }

  lemma AddedTaskAt(u: State, b: Id, x: Sensor, points: seq<real>, ids: seq<Id>, now: Time, added: map<Id, Task>,
                    p: real) returns (k: Id)
    requires |ids| >= |points| && OnePerPoint(u, x, points, ids, now, |points|, added) && p in points
    ensures k in added && added[k].sensorID == x.id && added[k].point == p
  {
    hide NewTask;
    var i :| 0 <= i < |points| && points[i] == p;
    k := ids[i];
    NewTaskPlace(u, x, p, k, now);
  }

  lemma NewTasksTask(s: State, u: State, t: State, b: Id, id: Id, points: seq<real>, ids: seq<Id>, now: Time)
    requires id in u.sensors && u.sensors[id].batchID == b && u.sensors[id].id == id && Keyed(u) && now != 0
    requires u.tasks == s.tasks && |ids| >= |points| && Distinct(ids)
    requires forall i :: 0 <= i < |ids| ==> ids[i] !in s.tasks
    requires ProfileOf(u, b).Some? && points == ProfileOf(u, b).value.points
    requires Increasing(points)
    requires t == u.(tasks := u.tasks + NewTasks(u, u.sensors[id], points, ids, now, |points|))
    ensures Tasked(s, t, b, id)
  {
    var x := u.sensors[id];
    var added := NewTasks(u, x, points, ids, now, |points|);
    NewTasksMean(u, x, points, ids, now, |points|);
    AddedKeepsOld(s, u, points, ids, now, x, added);
    hide OnePerPoint, NewTasks, Distinct, FreshTask, Keyed, Increasing, Tasked;
    AddedAllFresh(u, t, b, id, points, ids, now, added);
    AddedComplete(u, t, b, id, points, ids, now, added);
    AddedUnique(u, t, b, id, points, ids, now, added);
    TaskedByAdding(s, t, b, id, added);
  }

  lemma TaskedByAdding(s: State, t: State, b: Id, id: Id, added: map<Id, Task>)
    requires id in t.sensors && t.tasks == s.tasks + added
    requires forall k :: k in s.tasks ==> k !in added
    requires forall k :: k in added ==> FreshTask(t, added[k], b, id) && added[k].id == k
    requires forall p :: PlanPoint(t, b, p) ==> exists k :: TaskAt(t, k, id, p)
    requires forall k, l :: k in added && l in added && added[k].point == added[l].point ==> k == l
    ensures Tasked(s, t, b, id)
  {
    hide FreshTask;
  }

  lemma AddedAllFresh(u: State, t: State, b: Id, id: Id, points: seq<real>, ids: seq<Id>, now: Time, added: map<Id,
                      Task>)
    requires id in u.sensors && t == u.(tasks := t.tasks) && Keyed(u) && u.sensors[id].batchID == b && now != 0
    requires |ids| >= |points| && OnePerPoint(u, u.sensors[id], points, ids, now, |points|, added)
    requires ProfileOf(u, b).Some? && points == ProfileOf(u, b).value.points
    ensures forall k :: k in added ==> FreshTask(t, added[k], b, id) && added[k].id == k
  {
    hide FreshTask, Keyed, OnePerPoint;
    forall k | k in added
      ensures FreshTask(t, added[k], b, id) && added[k].id == k
    {
      var i := AddedTaskFresh(u, t, b, id, points, ids, now, added, k);
    }
  }

  lemma AddedComplete(u: State, t: State, b: Id, id: Id, points: seq<real>, ids: seq<Id>, now: Time, added: map<Id,
                      Task>)
    requires id in u.sensors && u.sensors[id].id == id && t == u.(tasks := u.tasks + added)
    requires |ids| >= |points| && OnePerPoint(u, u.sensors[id], points, ids, now, |points|, added)
    requires ProfileOf(u, b).Some? && points == ProfileOf(u, b).value.points
    ensures forall p :: PlanPoint(t, b, p) ==> exists k :: TaskAt(t, k, id, p)
  {
    hide OnePerPoint;
    assert ProfileOf(t, b) == ProfileOf(u, b);
    forall p | PlanPoint(t, b, p)
      ensures exists k :: TaskAt(t, k, id, p)
    {
      var k := AddedTaskAt(u, b, u.sensors[id], points, ids, now, added, p);
      assert TaskAt(t, k, id, p);
    }
  }

  lemma AddedUnique(u: State, t: State, b: Id, id: Id, points: seq<real>, ids: seq<Id>, now: Time, added: map<Id, Task>)
    requires id in u.sensors && t == u.(tasks := t.tasks) && Keyed(u) && u.sensors[id].batchID == b && now != 0
    requires |ids| >= |points| && OnePerPoint(u, u.sensors[id], points, ids, now, |points|, added)
    requires ProfileOf(u, b).Some? && points == ProfileOf(u, b).value.points
    requires Increasing(points)
    ensures forall k, l :: k in added && l in added && added[k].point == added[l].point ==> k == l
  {
    hide FreshTask, Keyed, OnePerPoint;
    forall k, l | k in added && l in added && added[k].point == added[l].point
      ensures k == l
    {
      var i := AddedTaskFresh(u, t, b, id, points, ids, now, added, k);
      var j := AddedTaskFresh(u, t, b, id, points, ids, now, added, l);
    }
  }

  lemma AddedKeepsOld(s: State, u: State, points: seq<real>, ids: seq<Id>, now: Time, x: Sensor, added: map<Id, Task>)
    requires |ids| >= |points| && OnePerPoint(u, x, points, ids, now, |points|, added)
    requires forall i :: 0 <= i < |ids| ==> ids[i] !in s.tasks
    ensures forall k :: k in s.tasks ==> k !in added
  {
  }

  lemma NewTaskPlace(u: State, x: Sensor, p: real, k: Id, now: Time)
    ensures NewTask(u, x, p, k, now).id == k && NewTask(u, x, p, k, now).point == p
    ensures NewTask(u, x, p, k, now).sensorID == x.id
  {
  }

  lemma FreshTaskOk(s: State, t: State, b: Id, before: Id, id: Id, k: Task)
    requires Renewed(s, t, b, before, id) && Kept(s, t) && FreshTask(t, k, b, id)
    requires SensorsOk(s) && MeasurementsOk(s) && EverMeasured(s) && RevisionsUnique(t) && RevisionsUnique(s)
    requires RangesOk(s)
    requires MeasurementsOk(t) && FailuresFound(t) && OpenUntilPassed(t)
    ensures TaskOk(t, k) && if k.required then RequiredStatusOk(t, k) else InheritedTaskOk(t, k)
  {
    hide SensorsOk, MeasurementsOk, EverMeasured, RevisionsUnique, RangesOk, FailuresFound, OpenUntilPassed, Kept,
         LatestPrevious, HasPrevious, PlanPoint, IsCurrent;
    FreshTaskPlace(s, t, b, before, id, k);
    NewUnmeasured(s, t, b, before, id, k.point);
    if !k.required {
      RenewedUnique(s, t, b, before, id);
      RenewedPlans(s, t, b, before, id);
      RenewedHasPrevious(s, t, b, before, id, k.point);
      FreshUnblocked(t, k, b, id);
      Consequences.NoneLaterThanCurrent(t, b, id, k.point);
      Consequences.UnblockedLatestPasses(t, k.evidenceID, id, k.point);
    }
  }

  lemma FreshTaskPlace(s: State, t: State, b: Id, before: Id, id: Id, k: Task)
    requires Renewed(s, t, b, before, id) && FreshTask(t, k, b, id) && SensorsOk(s)
    ensures TaskOk(t, k)
  {
    assert SensorOk(s, s.sensors[before]);
  }

  lemma FreshUnblocked(t: State, k: Task, b: Id, id: Id)
    requires id in t.sensors && FreshTask(t, k, b, id) && !k.required
    ensures !BlockedInBatch(t, t.sensors[id], k.point)
  {
    forall f
      ensures !OpenEarlier(t, f, t.sensors[id], k.point)
    {
      assert f !in k.findingIDs;
    }
  }

  lemma NewUnmeasured(s: State, t: State, b: Id, before: Id, id: Id, p: real)
    requires Renewed(s, t, b, before, id) && MeasurementsOk(s)
    ensures !HasDirect(t, id, p)
  {
    forall m
      ensures !DirectAt(t, m, id, p)
    {
      if m in s.measurements {
        assert MeasurementOk(s, s.measurements[m]);
      }
    }
  }

  lemma RenewedTaskClaims(s: State, t: State, b: Id, before: Id, id: Id)
    requires Renewed(s, t, b, before, id) && Tasked(s, t, b, id) && Kept(s, t)
    requires SensorsOk(s) && MeasurementsOk(s) && EverMeasured(s) && RevisionsUnique(t) && RevisionsUnique(s)
    requires RangesOk(s)
    requires MeasurementsOk(t) && FailuresFound(t) && OpenUntilPassed(t)
    requires TasksOk(s) && RequiredTasksOk(s) && InheritedTasksOk(s)
    ensures TasksOk(t) && RequiredTasksOk(t) && InheritedTasksOk(t)
  {
    hide EverMeasured, RevisionsUnique, RangesOk, FailuresFound, OpenUntilPassed, MeasurementsOk, SensorsOk, Kept;
    hide FreshTask, TaskOk, RequiredStatusOk, InheritedTaskOk;
    forall k | k in t.tasks
      ensures TaskOk(t, t.tasks[k])
      ensures if t.tasks[k].required then RequiredStatusOk(t, t.tasks[k]) else InheritedTaskOk(t, t.tasks[k])
    {
      if k !in s.tasks {
        FreshTaskOk(s, t, b, before, id, t.tasks[k]);
      } else {
        KeptTaskOk(s, t, s.tasks[k]);
        if s.tasks[k].required {
          KeptRequiredTask(s, t, s.tasks[k]);
        } else {
          KeptInheritedTask(s, t, s.tasks[k]);
        }
      }
    }
  }

  lemma RenewedTaskFindings(s: State, t: State, b: Id, before: Id, id: Id)
    requires Renewed(s, t, b, before, id) && Tasked(s, t, b, id) && Kept(s, t) && TaskFindingsOk(s)
    ensures TaskFindingsOk(t)
  {
    forall k, f | k in t.tasks && f in t.tasks[k].findingIDs
      ensures ListsFinding(t, t.tasks[k], f)
    {
      if k in s.tasks {
        assert ListsFinding(s, s.tasks[k], f);
      }
    }
  }

  lemma RenewedTasksUnique(s: State, t: State, b: Id, before: Id, id: Id)
    requires Renewed(s, t, b, before, id) && Tasked(s, t, b, id) && TasksOk(s) && TasksUnique(s)
    ensures TasksUnique(t)
  {
    forall k | k in s.tasks
      ensures s.tasks[k].sensorID in s.sensors
    {
      assert TaskOk(s, s.tasks[k]);
    }
  }

  lemma RenewedTasksComplete(s: State, t: State, b: Id, before: Id, id: Id)
    requires Renewed(s, t, b, before, id) && Tasked(s, t, b, id) && TasksComplete(s)
    ensures TasksComplete(t)
  {
    RenewedPlans(s, t, b, before, id);
    forall x, p | x in t.sensors && t.sensors[x].revision > 1 && PlanPoint(t, t.sensors[x].batchID, p)
      ensures exists k :: TaskAt(t, k, x, p)
    {
      if x != id {
        var k :| TaskAt(s, k, x, p);
        assert TaskAt(t, k, x, p);
      }
    }
  }

  lemma RenewedCoverOpen(s: State, t: State, b: Id, before: Id, id: Id)
    requires Renewed(s, t, b, before, id) && Tasked(s, t, b, id) && Kept(s, t) && TasksOk(s) && FindingsOk(s)
    requires TasksCoverOpen(s)
    ensures TasksCoverOpen(t)
  {
    forall k, f | k in t.tasks && t.tasks[k].sensorID in t.sensors &&
        OpenEarlier(t, f, t.sensors[t.tasks[k].sensorID], t.tasks[k].point)
      ensures f in t.tasks[k].findingIDs
    {
      if k in s.tasks {
        assert TaskOk(s, s.tasks[k]);
        KeptCoverOpen(s, t, s.tasks[k], f);
      }
    }
  }

  lemma RenewedAwaitOpen(s: State, t: State, b: Id, before: Id, id: Id)
    requires Renewed(s, t, b, before, id) && Tasked(s, t, b, id) && Kept(s, t) && TasksOk(s) && TasksAwaitOpen(s)
    ensures TasksAwaitOpen(t)
  {
    hide Kept, TasksOk, IsCurrent;
    forall k, f | k in t.tasks && IsCurrent(t, t.tasks[k].sensorID, t.tasks[k].batchID) &&
        t.tasks[k].status != TaskStatus.Passed
        && f in t.tasks[k].findingIDs
      ensures f in t.findings && t.findings[f].status == Open
    {
      if k in s.tasks {
        OldTaskAwaits(s, t, k, f);
      } else {
        assert OpenEarlier(t, f, t.sensors[id], t.tasks[k].point);
      }
    }
  }

  lemma OldTaskAwaits(s: State, t: State, k: Id, f: Id)
    requires Kept(s, t) && TasksOk(s) && TasksAwaitOpen(s) && k in s.tasks && k in t.tasks && t.tasks[k] == s.tasks[k]
    requires IsCurrent(t, s.tasks[k].sensorID, s.tasks[k].batchID) && s.tasks[k].status != TaskStatus.Passed
    requires f in s.tasks[k].findingIDs
    ensures f in t.findings && t.findings[f].status == Open
  {
    assert TaskOk(s, s.tasks[k]);
    KeptCurrent(s, t, s.tasks[k].sensorID, s.tasks[k].batchID);
  }

  lemma RenewedTaskIndex(s: State, t: State, b: Id, before: Id, id: Id)
    requires Renewed(s, t, b, before, id) && Tasked(s, t, b, id) && Core(s) && Frames(t) && History(t)
    ensures TaskIndex(t)
  {
    hide Renewed, Tasked, Keyed, Kept;
    hide SensorsOk, RevisionsUnique, RevisionsChained, ProfilesOk, RangesOk, BatchesOk, SensorListsOk, DraftsPlain,
         FreezesOk, ReviewsOk;
    hide MeasurementsOk, DirectUnique, SamplersOk, PreviousMeasured, EverMeasured, FindingsOk, OpenUntilPassed,
         ResolvedOk, FailuresFound, FindingsFounded;
    hide TasksOk, TaskFindingsOk, TasksUnique, TasksComplete, RequiredTasksOk, InheritedTasksOk, TasksCoverOpen,
         TasksAwaitOpen;
    RenewedKept(s, t, b, before, id);
    RenewedTaskClaims(s, t, b, before, id);
    RenewedTaskFindings(s, t, b, before, id);
    RenewedTasksUnique(s, t, b, before, id);
    RenewedTasksComplete(s, t, b, before, id);
    RenewedCoverOpen(s, t, b, before, id);
    RenewedAwaitOpen(s, t, b, before, id);
  }

  // ---------- the step ----------

  lemma RenewedFits(s: State, t: State, b: Id, before: Id, id: Id)
    requires Renewed(s, t, b, before, id) && RevisionsUnique(s) && RangesOk(s) && MeasurementsOk(s)
    requires ProfileOf(s, b).Some?
    requires |ProfileOf(s, b).value.points| > 0
    ensures StatusFits(t, b)
  {
    RenewedUnique(s, t, b, before, id);
    RenewedPlans(s, t, b, before, id);
    var p := ProfileOf(s, b).value.points[0];
    NewUnmeasured(s, t, b, before, id, p);
    assert PlanPoint(s, b, p);
    assert Unmeasured(t, b, id, p);
  }

  lemma RenewedOthers(s: State, t: State, b: Id, before: Id, id: Id)
    requires Renewed(s, t, b, before, id) && Tasked(s, t, b, id)
    ensures OthersKept(s, t, b)
  {
    RenewedPlans(s, t, b, before, id);
  }

  lemma PointsDistinct(s: State, b: Id)
    requires ProfilesOk(s) && ProfileOf(s, b).Some?
    ensures var points := ProfileOf(s, b).value.points;
      |points| > 0 && Increasing(points)
  {
    var p := ProfileOf(s, b).value;
    assert ProfileOk(s, p);
    RisingStrictly(p.points, |p.points|);
  }

  lemma {:induction false} RisingStrictly(ps: seq<real>, n: nat)
    requires n <= |ps| && forall i :: 0 < i < |ps| ==> ps[i - 1] < ps[i]
    ensures forall i, j :: 0 <= i < j < n ==> ps[i] < ps[j]
  {
    if n > 0 {
      RisingStrictly(ps, n - 1);
      assert n > 1 ==> ps[n - 2] < ps[n - 1];
    }
  }

  lemma SensorStepRenews(s: State, b: Id, before: Id, id: Id, note: string, now: Time)
    requires id !in s.sensors && RecalibrateSensorStep(s, b, before, id, note, now).error == None
    ensures var u := RecalibrateSensorStep(s, b, before, id, note, now).state;
      Renewed(s, u, b, before, id) && u.tasks == s.tasks && u.credentials == s.credentials
  {
  }

  /** After the new revision is registered, the tasks can always be built. */
  lemma TasksBuildable(s: State, u: State, b: Id, before: Id, id: Id)
    requires Core(s) && Renewed(s, u, b, before, id) && u.tasks == s.tasks
    ensures ProfileOf(s, b).Some? && ProfileOf(u, b) == ProfileOf(s, b) && u.sensors[id].revision >= 2
    ensures IsCurrent(u, id, b) && Keyed(u)
  {
    hide History, TaskIndex;
    assert BatchOk(s, s.batches[b]) && SensorOk(s, s.sensors[before]);
    RenewedUnique(s, u, b, before, id);
    RenewedPlans(s, u, b, before, id);
    RenewedKeyed(s, u, b, before, id);
  }

  lemma RenewedTasks(s: State, u: State, t: State, b: Id, before: Id, id: Id)
    requires Renewed(s, u, b, before, id) && t == u.(tasks := t.tasks)
    ensures Renewed(s, t, b, before, id)
  {
  }

  lemma TaskedKeyed(s: State, t: State, b: Id, id: Id)
    requires id in t.sensors && Tasked(s, t, b, id) && Keyed(s)
    ensures forall k :: k in t.tasks ==> t.tasks[k].id == k
  {
  }

  lemma RecalibrateRenews(s: State, b: Id, before: Id, id: Id, note: string, taskIDs: seq<Id>, now: Time)
    requires Core(s) && id !in s.sensors && Distinct(taskIDs) && now != 0
    requires ProfileOf(s, b).Some? ==> |taskIDs| >= |ProfileOf(s, b).value.points|
    requires forall i :: 0 <= i < |taskIDs| ==> taskIDs[i] !in s.tasks
    requires RecalibrateSensorStep(s, b, before, id, note, now).error == None
    ensures var o := RecalibrateStep(s, b, before, id, note, taskIDs, now);
      && o.error == None && Renewed(s, o.state, b, before, id) && Tasked(s, o.state, b, id) && ProfileOf(s, b).Some?
      && forall k :: k in o.state.tasks ==> o.state.tasks[k].id == k
  {
    var u := RecalibrateSensorStep(s, b, before, id, note, now).state;
    SensorStepRenews(s, b, before, id, note, now);
    TasksBuildable(s, u, b, before, id);
    CorePoints(s, b);
    var points := ProfileOf(u, b).value.points;
    var t := u.(tasks := u.tasks + NewTasks(u, u.sensors[id], points, taskIDs, now, |points|));
    hide Core, Tasked, RecalibrateSensorStep, NewTasks;
    assert RecalibrateStep(s, b, before, id, note, taskIDs, now) == Done(t);
    NewTasksTask(s, u, t, b, id, points, taskIDs, now);
    RenewedTasks(s, u, t, b, before, id);
    CoreKeyed(s);
    TaskedKeyed(s, t, b, id);
  }

  lemma CoreKeyed(s: State)
    requires Core(s)
    ensures Keyed(s)
  {
  }

  lemma CorePoints(s: State, b: Id)
    requires Core(s) && ProfileOf(s, b).Some?
    ensures var points := ProfileOf(s, b).value.points;
      |points| > 0 && Increasing(points)
  {
    PointsDistinct(s, b);
  }

  lemma RecalibrateKeeps(h: Frozen.Material -> string, s: State, b: Id, before: Id, id: Id, note: string,
                         taskIDs: seq<Id>, now: Time)
    requires Inv(h, s) && id !in s.sensors && Distinct(taskIDs) && now != 0
    requires ProfileOf(s, b).Some? ==> |taskIDs| >= |ProfileOf(s, b).value.points|
    requires forall i :: 0 <= i < |taskIDs| ==> taskIDs[i] !in s.tasks
    requires RecalibrateSensorStep(s, b, before, id, note, now).error == None
    ensures var o := RecalibrateStep(s, b, before, id, note, taskIDs, now);
      && o.error == None && Inv(h, o.state) && OthersKept(s, o.state, b) && b in s.batches
      && o.state.batches.Keys == s.batches.Keys && o.state.batches[b].version == s.batches[b].version + 1
  {
    hide Core, StatusOk, CredentialsOk, CredentialsUnique, Tasked, OthersKept, RecalibrateStep, RecalibrateSensorStep;
    var t := RecalibrateStep(s, b, before, id, note, taskIDs, now).state;
    RecalibrateRenews(s, b, before, id, note, taskIDs, now);
    RecalibrateClaims(h, s, t, b, before, id);
  }

  lemma RecalibrateClaims(h: Frozen.Material -> string, s: State, t: State, b: Id, before: Id, id: Id)
    requires Renewed(s, t, b, before, id) && Tasked(s, t, b, id) && ProfileOf(s, b).Some?
    requires forall k :: k in t.tasks ==> t.tasks[k].id == k
    requires Inv(h, s)
    ensures Inv(h, t) && OthersKept(s, t, b)
  {
    hide Frames, History, TaskIndex, Tasked, OthersKept, StatusFits, StatusOk, CredentialsOk, CredentialsUnique;
    RecalibrateFits(s, t, b, before, id);
    RenewedHistory(s, t, b, before, id);
    RenewedTaskIndex(s, t, b, before, id);
    RenewedStatuses(s, t, b, before, id);
    hide Renewed;
    Preservation.OpenClaims(h, s, t, b);
  }

  lemma RenewedStatuses(s: State, t: State, b: Id, before: Id, id: Id)
    requires Renewed(s, t, b, before, id)
    ensures t.batches.Keys == s.batches.Keys && t.credentials == s.credentials
    ensures s.batches[b].status != Released && t.batches[b].status != Released
  {
  }

  lemma RecalibrateFits(s: State, t: State, b: Id, before: Id, id: Id)
    requires Renewed(s, t, b, before, id) && Tasked(s, t, b, id) && ProfileOf(s, b).Some? && Core(s)
    ensures StatusFits(t, b) && OthersKept(s, t, b)
  {
    hide TaskIndex;
    PointsDistinct(s, b);
    RenewedFits(s, t, b, before, id);
    RenewedOthers(s, t, b, before, id);
  }
}
