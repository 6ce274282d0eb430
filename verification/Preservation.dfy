/** Every command keeps the invariant, whatever the state of the other batches. */
module Preservation {
  import opened Entities
  import opened Evidence
  import opened Frozen
  import opened Text
  import opened Domain
  import opened Invariant
  import opened Keeping
  import opened StatusChange
  import Submission

  /** Nothing refers to a batch that is not there. */
  lemma AbsentBatchOwnsNothing(s: State, b: Id)
    requires Frames(s) && MeasurementsOk(s) && FindingsOk(s) && TasksOk(s) && b !in s.batches
    ensures forall x :: x in s.sensors ==> s.sensors[x].batchID != b
    ensures forall x :: x in s.measurements ==> s.measurements[x].batchID != b
    ensures forall x :: x in s.findings ==> s.findings[x].batchID != b
    ensures forall x :: x in s.tasks ==> s.tasks[x].batchID != b
    ensures forall x :: x in s.profiles ==> s.profiles[x].batchID != b
  {
    forall x | x in s.sensors
      ensures s.sensors[x].batchID != b
    {
      assert SensorOk(s, s.sensors[x]);
    }
    forall x | x in s.measurements
      ensures s.measurements[x].batchID != b
    {
      assert MeasurementOk(s, s.measurements[x]);
    }
    forall x | x in s.findings
      ensures s.findings[x].batchID != b
    {
      assert FindingOk(s, s.findings[x]);
    }
    forall x | x in s.tasks
      ensures s.tasks[x].batchID != b
    {
      assert TaskOk(s, s.tasks[x]);
    }
    forall x | x in s.profiles
      ensures s.profiles[x].batchID != b
    {
      assert ProfileOk(s, s.profiles[x]);
    }
  }

  // ---------- creating a batch ----------

  ghost predicate Created(s: State, t: State, b: Id) {
    && b !in s.batches && b in t.batches && t.batches == s.batches[b := t.batches[b]]
    && t == s.(batches := t.batches)
    && t.batches[b].id == b && t.batches[b].profileID == "" && t.batches[b].status == Draft &&
        t.batches[b].sensorIDs == []
    && t.batches[b].sampledBy == [] && t.batches[b].frozenAt == None && BatchOk(t, t.batches[b])
  }

  lemma CreatedPlans(s: State, t: State, b: Id)
    requires Created(s, t, b) && Keyed(s)
    ensures forall c :: ProfileOf(t, c) == ProfileOf(s, c)
    ensures forall c, p :: PlanPoint(t, c, p) <==> PlanPoint(s, c, p)
  {
  }

  lemma CreatedSensors(s: State, t: State, b: Id)
    requires Created(s, t, b) && Keyed(s) && SensorsOk(s) && RevisionsUnique(s) && RevisionsChained(s) && RangesOk(s)
    ensures SensorsOk(t) && RevisionsUnique(t) && RevisionsChained(t) && RangesOk(t)
  {
    CreatedPlans(s, t, b);
    forall x | x in t.sensors && t.sensors[x].revision > 1
      ensures HasRevision(t, t.sensors[x].batchID, t.sensors[x].code, t.sensors[x].revision - 1)
    {
      assert HasRevision(s, s.sensors[x].batchID, s.sensors[x].code, s.sensors[x].revision - 1);
    }
    forall x | x in t.sensors
      ensures SensorOk(t, t.sensors[x])
    {
      assert SensorOk(s, s.sensors[x]);
    }
  }

  lemma CreatedBatches(s: State, t: State, b: Id)
    requires Created(s, t, b) && ProfilesOk(s) && BatchesOk(s)
    ensures ProfilesOk(t) && BatchesOk(t)
  {
    forall c | c in t.batches
      ensures BatchOk(t, t.batches[c])
    {
      assert c != b ==> BatchOk(s, s.batches[c]);
    }
    forall k | k in t.profiles
      ensures ProfileOk(t, t.profiles[k])
    {
      assert ProfileOk(s, s.profiles[k]);
    }
  }

  lemma CreatedLists(s: State, t: State, b: Id)
    requires Created(s, t, b) && SensorListsOk(s) && DraftsPlain(s) && FreezesOk(s) && ReviewsOk(s)
    requires forall x :: x in s.sensors ==> s.sensors[x].batchID != b
    ensures SensorListsOk(t) && DraftsPlain(t) && FreezesOk(t) && ReviewsOk(t)
  {
    hide BatchOk;
  }

  lemma CreatedKept(s: State, t: State, b: Id)
    requires Created(s, t, b) && Keyed(s)
    ensures Kept(s, t) && NoNewPoints(s, t)
  {
    CreatedPlans(s, t, b);
  }

  lemma CreatedFindings(s: State, t: State, b: Id)
    requires Created(s, t, b) && Keyed(s) && FindingsOk(s)
    ensures FindingsOk(t)
  {
    CreatedPlans(s, t, b);
    forall f | f in t.findings
      ensures FindingOk(t, t.findings[f])
    {
      assert FindingOk(s, s.findings[f]);
    }
  }

  lemma CreatedSamplers(s: State, t: State, b: Id)
    requires Created(s, t, b) && SensorsOk(s) && SamplersOk(s) && MeasurementsOk(s)
    ensures SamplersOk(t)
  {
    hide SamplersOk, MeasurementsOk, BatchOk;
    forall x | x in s.sensors
      ensures s.sensors[x].batchID in s.batches
    {
      assert SensorOk(s, s.sensors[x]);
    }
    KeptSamplers(s, t);
  }

  lemma CreatedMeasured(s: State, t: State, b: Id)
    requires Created(s, t, b) && Keyed(s) && SensorsOk(s) && EverMeasured(s) && Kept(s, t)
    ensures EverMeasured(t)
  {
    hide BatchOk, Kept;
    CreatedPlans(s, t, b);
    forall x, p | x in t.sensors && t.sensors[x].batchID in t.batches &&
        Evaluated(t.batches[t.sensors[x].batchID].status)
        && PlanPoint(t, t.sensors[x].batchID, p)
      ensures Measured(t, t.sensors[x].batchID, t.sensors[x].code, p)
    {
      KeptMeasured(s, t, s.sensors[x].batchID, s.sensors[x].code, p);
    }
  }

  lemma CreatedRecords(s: State, t: State, b: Id)
    requires Created(s, t, b) && Core(s)
    ensures Kept(s, t) && NoNewPoints(s, t) && FindingsOk(t) && SamplersOk(t) && EverMeasured(t)
  {
    hide Keyed, SensorsOk, FindingsOk, SamplersOk, MeasurementsOk, EverMeasured, Created, Kept, NoNewPoints, TaskIndex;
    hide RevisionsUnique, RevisionsChained, ProfilesOk, RangesOk, BatchesOk, SensorListsOk, DraftsPlain, FreezesOk,
         ReviewsOk;
    hide DirectUnique, PreviousMeasured, OpenUntilPassed, ResolvedOk, FailuresFound, FindingsFounded;
    CreatedKept(s, t, b);
    CreatedFindings(s, t, b);
    CreatedSamplers(s, t, b);
    CreatedMeasured(s, t, b);
  }

  lemma CreatedFrames(s: State, t: State, b: Id)
    requires Created(s, t, b) && Frames(s) && MeasurementsOk(s) && FindingsOk(s) && TasksOk(s)
    ensures Frames(t)
  {
    hide SensorsOk, RevisionsUnique, RevisionsChained, ProfilesOk, RangesOk, BatchesOk, SensorListsOk, DraftsPlain,
         FreezesOk, ReviewsOk;
    AbsentBatchOwnsNothing(s, b);
    CreatedSensors(s, t, b);
    CreatedBatches(s, t, b);
    CreatedLists(s, t, b);
  }

  lemma CreatedCore(s: State, t: State, b: Id)
    requires Created(s, t, b) && Core(s)
    ensures Core(t) && t.tasks == s.tasks
  {
    hide Frames, MeasurementsOk, DirectUnique, SamplersOk, PreviousMeasured, EverMeasured, NoNewPoints;
    hide FindingsOk, OpenUntilPassed, ResolvedOk, FailuresFound, FindingsFounded, TasksOk, TasksCoverOpen,
         TasksAwaitOpen;
    CreatedFrames(s, t, b);
    CreatedRecords(s, t, b);
    KeptAll(s, t);
  }

  /** The common end of the steps that measure nothing and create no task. */
  lemma KeptAll(s: State, t: State)
    requires Kept(s, t) && NoNewPoints(s, t) && Core(s) && t.tasks == s.tasks
    requires Frames(t) && FindingsOk(t) && SamplersOk(t) && EverMeasured(t)
    ensures Core(t)
  {
    hide Kept, NoNewPoints, Frames, MeasurementsOk, DirectUnique, SamplersOk, PreviousMeasured, EverMeasured;
    hide FindingsOk, OpenUntilPassed, ResolvedOk, FailuresFound, FindingsFounded, TaskIndex;
    KeptPreviousMeasured(s, t);
    KeptHistory(s, t);
    KeptTaskIndex(s, t);
  }

  lemma CreatedOthers(s: State, t: State, b: Id)
    requires Created(s, t, b) && Keyed(s)
    ensures OthersKept(s, t, b)
  {
    CreatedPlans(s, t, b);
  }

  lemma CreateKeeps(h: Material -> string, s: State, b: Id, stationCode: string, title: string, actor: string,
                    now: Time)
    requires Inv(h, s) && now != 0
    requires CreateBatchStep(s, b, stationCode, title, actor, now).error == None
    ensures var t := CreateBatchStep(s, b, stationCode, title, actor, now).state;
      Inv(h, t) && OthersKept(s, t, b) && b !in s.batches && t.batches[b].version == 1 &&
          t.batches.Keys == s.batches.Keys + {b}
  {
    hide Created, History, TaskIndex, Frames, StatusOk, CredentialsOk, CredentialsUnique, OthersKept, Blank;
    var t := CreateBatchStep(s, b, stationCode, title, actor, now).state;
    CreateStepCreates(s, b, stationCode, title, actor, now);
    CreatedCore(s, t, b);
    CreatedClaims(h, s, t, b);
  }

  lemma CreateStepCreates(s: State, b: Id, stationCode: string, title: string, actor: string, now: Time)
    requires now != 0 && CreateBatchStep(s, b, stationCode, title, actor, now).error == None
    ensures Created(s, CreateBatchStep(s, b, stationCode, title, actor, now).state, b)
  {
  }

  lemma CreatedClaims(h: Material -> string, s: State, t: State, b: Id)
    requires Inv(h, s) && Created(s, t, b) && Core(t)
    ensures Inv(h, t) && OthersKept(s, t, b)
  {
    CreatedOthers(s, t, b);
    hide SameBatch;
    OthersStatus(s, t, b);
    OthersCredentials(h, s, t, b);
  }

  // ---------- registering a sensor ----------

  ghost predicate Registered(s: State, t: State, b: Id, id: Id) {
    && b in s.batches && s.batches[b].status == Draft && id !in s.sensors && id in t.sensors
    && t.sensors == s.sensors[id := t.sensors[id]]
    && t.sensors[id].id == id && t.sensors[id].batchID == b && t.sensors[id].revision == 1 && SensorOk(s, t.sensors[id])
    && !CodeRegistered(s, b, t.sensors[id].code)
    && t.batches == s.batches[b := s.batches[b].(sensorIDs := s.batches[b].sensorIDs + [id],
        version := s.batches[b].version + 1)]
    && t == s.(batches := t.batches, sensors := t.sensors)
  }

  lemma RegisteredPlans(s: State, t: State, b: Id, id: Id)
    requires Registered(s, t, b, id) && Keyed(s) && BatchesOk(s)
    ensures forall c :: ProfileOf(t, c) == ProfileOf(s, c)
    ensures forall c, p :: PlanPoint(t, c, p) <==> PlanPoint(s, c, p)
    ensures forall p :: !PlanPoint(s, b, p)
  {
    assert BatchOk(s, s.batches[b]);
  }

  lemma RegisteredSensors(s: State, t: State, b: Id, id: Id)
    requires Registered(s, t, b, id) && SensorsOk(s) && RevisionsUnique(s)
    ensures SensorsOk(t) && RevisionsUnique(t)
  {
    forall x | x in t.sensors
      ensures SensorOk(t, t.sensors[x])
    {
      assert x != id ==> SensorOk(s, s.sensors[x]);
    }
    forall x, y | x in t.sensors && y in t.sensors && SameLine(t.sensors[x], t.sensors[y]) &&
        t.sensors[x].revision == t.sensors[y].revision
      ensures x == y
    {
      assert x == id || y == id || SameLine(s.sensors[x], s.sensors[y]);
    }
  }

  lemma RegisteredChain(s: State, t: State, b: Id, id: Id)
    requires Registered(s, t, b, id) && RevisionsChained(s)
    ensures RevisionsChained(t)
  {
    forall x | x in t.sensors && t.sensors[x].revision > 1
      ensures HasRevision(t, t.sensors[x].batchID, t.sensors[x].code, t.sensors[x].revision - 1)
    {
      var y :| y in s.sensors && s.sensors[y].batchID == s.sensors[x].batchID && s.sensors[y].code == s.sensors[x].code
        && s.sensors[y].revision == s.sensors[x].revision - 1;
      assert y in t.sensors && t.sensors[y] == s.sensors[y];
    }
  }

  lemma RegisteredRanges(s: State, t: State, b: Id, id: Id)
    requires Registered(s, t, b, id) && Keyed(s) && BatchesOk(s) && RangesOk(s)
    ensures RangesOk(t)
  {
    RegisteredPlans(s, t, b, id);
  }

  lemma RegisteredLists(s: State, t: State, b: Id, id: Id)
    requires Registered(s, t, b, id) && SensorListsOk(s)
    ensures SensorListsOk(t)
  {
  }

  lemma RegisteredBatches(s: State, t: State, b: Id, id: Id)
    requires Registered(s, t, b, id) && ProfilesOk(s) && BatchesOk(s) && DraftsPlain(s) && FreezesOk(s) && ReviewsOk(s)
    ensures ProfilesOk(t) && BatchesOk(t) && DraftsPlain(t) && FreezesOk(t) && ReviewsOk(t)
  {
    forall c | c in t.batches
      ensures BatchOk(t, t.batches[c])
    {
      assert BatchOk(s, s.batches[c]);
    }
    forall k | k in t.profiles
      ensures ProfileOk(t, t.profiles[k])
    {
      assert ProfileOk(s, s.profiles[k]);
    }
  }

  lemma RegisteredKept(s: State, t: State, b: Id, id: Id)
    requires Registered(s, t, b, id) && Keyed(s) && BatchesOk(s)
    ensures Kept(s, t) && NoNewPoints(s, t) && t.tasks == s.tasks
  {
    RegisteredPlans(s, t, b, id);
  }

  lemma RegisteredFindings(s: State, t: State, b: Id, id: Id)
    requires Registered(s, t, b, id) && Keyed(s) && BatchesOk(s) && FindingsOk(s)
    ensures FindingsOk(t)
  {
    hide BatchOk, SensorOk;
    RegisteredPlans(s, t, b, id);
    forall f | f in t.findings
      ensures FindingOk(t, t.findings[f])
    {
      assert FindingOk(s, s.findings[f]);
    }
  }

  lemma RegisteredSamplers(s: State, t: State, b: Id, id: Id)
    requires Registered(s, t, b, id) && SensorsOk(s) && SamplersOk(s) && MeasurementsOk(s)
    ensures SamplersOk(t)
  {
    hide SamplersOk, MeasurementsOk, Blank;
    forall x | x in s.sensors
      ensures s.sensors[x].batchID in s.batches
    {
      assert SensorOk(s, s.sensors[x]);
    }
    KeptSamplers(s, t);
  }

  lemma RegisteredMeasured(s: State, t: State, b: Id, id: Id)
    requires Registered(s, t, b, id) && Keyed(s) && BatchesOk(s) && Kept(s, t) && EverMeasured(s)
    ensures EverMeasured(t)
  {
    RegisteredPlans(s, t, b, id);
    forall x, p | x in t.sensors && t.sensors[x].batchID in t.batches &&
        Evaluated(t.batches[t.sensors[x].batchID].status)
        && PlanPoint(t, t.sensors[x].batchID, p)
      ensures Measured(t, t.sensors[x].batchID, t.sensors[x].code, p)
    {
      KeptMeasured(s, t, s.sensors[x].batchID, s.sensors[x].code, p);
    }
  }

  lemma RegisteredKeyed(s: State, t: State, b: Id, id: Id)
    requires Registered(s, t, b, id) && Keyed(s)
    ensures Keyed(t)
  {
  }

  lemma RegisteredOthers(s: State, t: State, b: Id, id: Id)
    requires Registered(s, t, b, id) && Keyed(s) && BatchesOk(s)
    ensures OthersKept(s, t, b)
  {
    hide BatchOk, SensorOk;
    RegisteredPlans(s, t, b, id);
  }

  lemma RegisteredCore(s: State, t: State, b: Id, id: Id)
    requires Registered(s, t, b, id) && Core(s)
    ensures Core(t) && OthersKept(s, t, b)
  {
    hide TaskIndex, Registered, Kept, NoNewPoints, OthersKept, Keyed;
    hide SensorsOk, RevisionsUnique, RevisionsChained, ProfilesOk, RangesOk, BatchesOk, SensorListsOk, DraftsPlain,
         FreezesOk, ReviewsOk;
    hide MeasurementsOk, DirectUnique, SamplersOk, PreviousMeasured, EverMeasured, FindingsOk, OpenUntilPassed,
         ResolvedOk, FailuresFound, FindingsFounded;
    RegisteredSensors(s, t, b, id);
    RegisteredChain(s, t, b, id);
    RegisteredRanges(s, t, b, id);
    RegisteredLists(s, t, b, id);
    RegisteredBatches(s, t, b, id);
    RegisteredKept(s, t, b, id);
    RegisteredFindings(s, t, b, id);
    RegisteredSamplers(s, t, b, id);
    RegisteredMeasured(s, t, b, id);
    RegisteredKeyed(s, t, b, id);
    RegisteredOthers(s, t, b, id);
    KeptAll(s, t);
  }

  lemma RegisterStepRegisters(s: State, b: Id, id: Id, code: string, metric: string, unit: string, lo: real, hi: real,
                              now: Time)
    requires id !in s.sensors && RegisterSensorStep(s, b, id, code, metric, unit, lo, hi, now).error == None
    ensures var t := RegisterSensorStep(s, b, id, code, metric, unit, lo, hi, now).state;
      Registered(s, t, b, id) && t.credentials == s.credentials && t.batches.Keys == s.batches.Keys &&
          t.batches[b].status == Draft
  {
  }

  lemma RegisterKeeps(h: Material -> string, s: State, b: Id, id: Id, code: string, metric: string, unit: string,
                      lo: real, hi: real, now: Time)
    requires Inv(h, s) && id !in s.sensors
    requires RegisterSensorStep(s, b, id, code, metric, unit, lo, hi, now).error == None
    ensures var t := RegisterSensorStep(s, b, id, code, metric, unit, lo, hi, now).state;
      Inv(h, t) && OthersKept(s, t, b) && b in s.batches && t.batches.Keys == s.batches.Keys
      && t.batches[b].version == s.batches[b].version + 1
  {
    var t := RegisterSensorStep(s, b, id, code, metric, unit, lo, hi, now).state;
    RegisterStepRegisters(s, b, id, code, metric, unit, lo, hi, now);
    hide Core, OthersKept, StatusOk, CredentialsOk, CredentialsUnique, CodeRegistered;
    RegisteredCore(s, t, b, id);
    OpenClaims(h, s, t, b);
  }

  /** The end of every step on a batch that neither was nor becomes released. */
  lemma OpenClaims(h: Material -> string, s: State, t: State, b: Id)
    requires b in s.batches && b in t.batches && t.batches.Keys == s.batches.Keys
    requires s.batches[b].status != Released && t.batches[b].status != Released
    requires Inv(h, s) && Core(t) && OthersKept(s, t, b) && StatusFits(t, b) && t.credentials == s.credentials
    ensures Inv(h, t)
  {
    Submission.SubmitClaims(h, s, t, b);
  }

  // ---------- locking the plan ----------

  ghost predicate Locked(s: State, t: State, b: Id, id: Id) {
    && b in s.batches && s.batches[b].status == Draft && s.batches[b].sensorIDs != []
    && id != "" && id !in s.profiles && id in t.profiles && t.profiles == s.profiles[id := t.profiles[id]]
    && t.profiles[id].id == id && t.profiles[id].batchID == b && Rising(t.profiles[id].points)
    && (forall x :: IsCurrent(s, x, b) ==> |t.profiles[id].points| > 0 && InRange(s.sensors[x], t.profiles[id].points))
    && t.batches == s.batches[b := s.batches[b].(profileID := id, status := PlanLocked,
        version := s.batches[b].version + 1)]
    && t == s.(batches := t.batches, profiles := t.profiles)
    && ProfileOk(t, t.profiles[id])
  }

  lemma LockedPlans(s: State, t: State, b: Id, id: Id)
    requires Locked(s, t, b, id) && Keyed(s) && BatchesOk(s)
    ensures forall c :: c != b ==> ProfileOf(t, c) == ProfileOf(s, c)
    ensures ProfileOf(s, b) == None && ProfileOf(t, b) == Some(t.profiles[id])
    ensures forall c, p :: c != b ==> (PlanPoint(t, c, p) <==> PlanPoint(s, c, p))
    ensures forall p :: !PlanPoint(s, b, p)
  {
    assert BatchOk(s, s.batches[b]);
    forall c | c in s.batches && c != b
      ensures s.batches[c].profileID != id
    {
      assert BatchOk(s, s.batches[c]);
    }
  }

  lemma DraftSensorsCurrent(s: State, b: Id, x: Id)
    requires DraftsPlain(s) && b in s.batches && s.batches[b].status == Draft && x in s.sensors
    requires s.sensors[x].batchID == b
    ensures IsCurrent(s, x, b)
  {
  }

  lemma LockedRanges(s: State, t: State, b: Id, id: Id)
    requires Locked(s, t, b, id) && Keyed(s) && BatchesOk(s) && DraftsPlain(s) && RangesOk(s)
    ensures RangesOk(t)
  {
    LockedPlans(s, t, b, id);
    forall x, p | x in t.sensors && PlanPoint(t, t.sensors[x].batchID, p)
      ensures t.sensors[x].rangeMin <= p <= t.sensors[x].rangeMax
    {
      if t.sensors[x].batchID == b {
        DraftSensorsCurrent(s, b, x);
        var points := t.profiles[id].points;
        var i :| 0 <= i < |points| && points[i] == p;
        assert points[0] <= p <= points[|points| - 1];
      }
    }
  }

  lemma LockedSensors(s: State, t: State, b: Id, id: Id)
    requires Locked(s, t, b, id) && SensorsOk(s) && RevisionsUnique(s) && SensorListsOk(s) && DraftsPlain(s)
    ensures SensorsOk(t) && RevisionsUnique(t) && SensorListsOk(t) && DraftsPlain(t)
  {
    hide ProfileOk, Rising, InRange, IsCurrent, Blank;
    LockedSensorsOk(s, t, b, id);
  }

  lemma LockedSensorsOk(s: State, t: State, b: Id, id: Id)
    requires Locked(s, t, b, id) && SensorsOk(s)
    ensures SensorsOk(t)
  {
    hide ProfileOk, Rising, InRange, IsCurrent, Blank;
    forall x | x in t.sensors
      ensures SensorOk(t, t.sensors[x])
    {
      assert SensorOk(s, s.sensors[x]);
    }
  }

  lemma LockedChain(s: State, t: State, b: Id, id: Id)
    requires Locked(s, t, b, id) && RevisionsChained(s)
    ensures RevisionsChained(t)
  {
    forall x | x in t.sensors && t.sensors[x].revision > 1
      ensures HasRevision(t, t.sensors[x].batchID, t.sensors[x].code, t.sensors[x].revision - 1)
    {
      assert HasRevision(s, s.sensors[x].batchID, s.sensors[x].code, s.sensors[x].revision - 1);
    }
  }

  lemma LockedBatches(s: State, t: State, b: Id, id: Id)
    requires Locked(s, t, b, id) && Keyed(s) && BatchesOk(s) && FreezesOk(s) && ReviewsOk(s)
    ensures BatchesOk(t) && FreezesOk(t) && ReviewsOk(t)
  {
    hide ProfileOk, Rising, InRange, IsCurrent;
    assert s.batches[b].id == b;
    forall c | c in t.batches
      ensures BatchOk(t, t.batches[c])
    {
      assert BatchOk(s, s.batches[c]);
    }
  }

  lemma LockedProfiles(s: State, t: State, b: Id, id: Id)
    requires Locked(s, t, b, id) && Keyed(s) && ProfilesOk(s) && BatchesOk(s)
    ensures ProfilesOk(t)
  {
    hide Rising, InRange, IsCurrent;
    assert BatchOk(s, s.batches[b]);
    forall k | k in t.profiles
      ensures ProfileOk(t, t.profiles[k])
    {
      if k != id {
        assert ProfileOk(s, s.profiles[k]);
        assert s.profiles[k].id == k;
      }
    }
  }

  lemma LockedRecords(s: State, t: State, b: Id, id: Id)
    requires Locked(s, t, b, id) && Frames(s) && History(s)
    ensures Kept(s, t) && NoNewPoints(s, t) && FindingsOk(t) && SamplersOk(t)
  {
    hide Locked, Keyed, SensorsOk, RevisionsUnique, RevisionsChained, ProfilesOk, RangesOk, BatchesOk, SensorListsOk,
         DraftsPlain, FreezesOk, ReviewsOk;
    hide MeasurementsOk, DirectUnique, SamplersOk, PreviousMeasured, EverMeasured, FindingsOk, OpenUntilPassed,
         ResolvedOk, FailuresFound, FindingsFounded;
    LockedKept(s, t, b, id);
    LockedFindings(s, t, b, id);
    LockedSamplers(s, t, b, id);
  }

  lemma LockedKept(s: State, t: State, b: Id, id: Id)
    requires Locked(s, t, b, id) && Keyed(s) && BatchesOk(s) && DraftsPlain(s)
    ensures Kept(s, t) && NoNewPoints(s, t)
  {
    hide ProfileOk, Rising, InRange, IsCurrent, BatchOk;
    LockedPlans(s, t, b, id);
  }

  lemma LockedFindings(s: State, t: State, b: Id, id: Id)
    requires Locked(s, t, b, id) && Keyed(s) && BatchesOk(s) && FindingsOk(s)
    ensures FindingsOk(t)
  {
    hide ProfileOk, Rising, InRange, IsCurrent, BatchOk;
    LockedPlans(s, t, b, id);
    forall f | f in t.findings
      ensures FindingOk(t, t.findings[f])
    {
      assert FindingOk(s, s.findings[f]);
    }
  }

  lemma LockedSamplers(s: State, t: State, b: Id, id: Id)
    requires Locked(s, t, b, id) && SensorsOk(s) && SamplersOk(s) && MeasurementsOk(s)
    ensures SamplersOk(t)
  {
    hide ProfileOk, Rising, InRange, IsCurrent, SamplersOk, MeasurementsOk, Blank;
    forall x | x in s.sensors
      ensures s.sensors[x].batchID in s.batches
    {
      assert SensorOk(s, s.sensors[x]);
    }
    KeptSamplers(s, t);
  }

  lemma LockedMeasured(s: State, t: State, b: Id, id: Id)
    requires Locked(s, t, b, id) && Keyed(s) && BatchesOk(s) && EverMeasured(s) && Kept(s, t)
    ensures EverMeasured(t)
  {
    LockedPlans(s, t, b, id);
    forall x, p | x in t.sensors && t.sensors[x].batchID in t.batches &&
        Evaluated(t.batches[t.sensors[x].batchID].status)
        && PlanPoint(t, t.sensors[x].batchID, p)
      ensures Measured(t, t.sensors[x].batchID, t.sensors[x].code, p)
    {
      KeptMeasured(s, t, s.sensors[x].batchID, s.sensors[x].code, p);
    }
  }

  lemma LockedKeyed(s: State, t: State, b: Id, id: Id)
    requires Locked(s, t, b, id) && Keyed(s)
    ensures Keyed(t)
  {
  }

  lemma LockedCore(s: State, t: State, b: Id, id: Id)
    requires Locked(s, t, b, id) && Core(s)
    ensures Core(t)
  {
    LockedTasks(s, t, b, id);
    LockedRecords(s, t, b, id);
    hide TaskIndex, Locked, Kept, NoNewPoints, Keyed;
    hide SensorsOk, RevisionsUnique, RevisionsChained, ProfilesOk, RangesOk, BatchesOk, SensorListsOk, DraftsPlain,
         FreezesOk, ReviewsOk;
    hide MeasurementsOk, DirectUnique, SamplersOk, PreviousMeasured, EverMeasured, FindingsOk, OpenUntilPassed,
         ResolvedOk, FailuresFound, FindingsFounded;
    LockedSensors(s, t, b, id);
    LockedChain(s, t, b, id);
    LockedRanges(s, t, b, id);
    LockedBatches(s, t, b, id);
    LockedProfiles(s, t, b, id);
    LockedMeasured(s, t, b, id);
    LockedKeyed(s, t, b, id);
    KeptAll(s, t);
  }

  lemma LockedTasks(s: State, t: State, b: Id, id: Id)
    requires Locked(s, t, b, id)
    ensures t.tasks == s.tasks
  {
  }

  lemma LockedOthers(s: State, t: State, b: Id, id: Id)
    requires Locked(s, t, b, id) && Keyed(s) && BatchesOk(s)
    ensures OthersKept(s, t, b)
  {
    hide ProfileOk, Rising, InRange, IsCurrent;
    LockedPlans(s, t, b, id);
  }

  lemma LockedFits(s: State, t: State, b: Id, id: Id)
    requires Locked(s, t, b, id) && Keyed(s) && BatchesOk(s) && SensorListsOk(s) && DraftsPlain(s) && MeasurementsOk(s)
    ensures StatusFits(t, b) && OthersKept(s, t, b)
  {
    hide SameBatch, BatchOk, Rising, InRange;
    LockedOthers(s, t, b, id);
    hide OthersKept;
    LockedPlans(s, t, b, id);
    var x := s.batches[b].sensorIDs[0];
    assert x in s.batches[b].sensorIDs;
    DraftSensorsCurrent(s, b, x);
    var p := t.profiles[id].points[0];
    forall m | m in t.measurements
      ensures !DirectAt(t, m, x, p)
    {
      assert MeasurementOk(s, s.measurements[m]);
    }
    assert IsCurrent(t, x, b);
    assert Unmeasured(t, b, x, p);
  }

  lemma LockKeeps(h: Material -> string, s: State, b: Id, id: Id, points: seq<real>, reps: int, at: real, rt: real,
                  rl: real, now: Time)
    requires Inv(h, s) && id != "" && id !in s.profiles
    requires LockProfileStep(s, b, id, points, reps, at, rt, rl, now).error == None
    ensures var t := LockProfileStep(s, b, id, points, reps, at, rt, rl, now).state;
      Inv(h, t) && OthersKept(s, t, b) && b in s.batches && t.batches.Keys == s.batches.Keys
      && b in t.batches && t.batches[b].version == s.batches[b].version + 1
  {
    hide Core, SameBatch, StatusFits, Locked, LockProfileStep, StatusOk, CredentialsOk, CredentialsUnique;
    var t := LockProfileStep(s, b, id, points, reps, at, rt, rl, now).state;
    SortPointsSorts(points);
    LockStepLocks(s, b, id, points, reps, at, rt, rl, now);
    LockedVersions(s, t, b, id);
    LockedCore(s, t, b, id);
    LockFits(s, t, b, id);
    LockClaims(h, s, t, b, id);
  }

  lemma LockedVersions(s: State, t: State, b: Id, id: Id)
    requires Locked(s, t, b, id)
    ensures b in s.batches && b in t.batches && t.batches.Keys == s.batches.Keys
    ensures t.batches[b].version == s.batches[b].version + 1
  {
  }

  lemma LockStepLocks(s: State, b: Id, id: Id, points: seq<real>, reps: int, at: real, rt: real, rl: real, now: Time)
    requires id != "" && id !in s.profiles && Rising(SortPoints(points))
    requires LockProfileStep(s, b, id, points, reps, at, rt, rl, now).error == None
    ensures Locked(s, LockProfileStep(s, b, id, points, reps, at, rt, rl, now).state, b, id)
  {
    var sorted := SortPoints(points);
    forall i | 0 < i < |sorted|
      ensures sorted[i - 1] < sorted[i]
    {
      assert sorted[i - 1] <= sorted[i];
    }
  }

  lemma LockFits(s: State, t: State, b: Id, id: Id)
    requires Locked(s, t, b, id) && Core(s)
    ensures StatusFits(t, b) && OthersKept(s, t, b)
  {
    LockedFits(s, t, b, id);
  }

  lemma LockClaims(h: Material -> string, s: State, t: State, b: Id, id: Id)
    requires Locked(s, t, b, id) && Core(t)
    requires OthersKept(s, t, b) && StatusFits(t, b) && Inv(h, s)
    ensures Inv(h, t)
  {
    hide Core, SameBatch, StatusFits;
    OpenClaims(h, s, t, b);
  }
}
