/** What the service promises of every state of every run. */
module Guarantees {
  import opened Entities
  import opened Statistics
  import opened Evidence
  import opened Frozen
  import Text
  import opened Domain
  import opened Invariant
  import Consequences
  import Recording
  import StatusChange
  import opened Submission
  import opened Reviewing
  import opened Runs

  // ---------- release soundness ----------

  ghost predicate Proven(s: State, b: Id, x: Id, p: real) {
    ProfileOf(s, b).Some? && exists m ::
      IsScopedEvidence(s, m, x, p) && |s.measurements[m].readings| == ProfileOf(s, b).value.repetitions &&
          Passing(s, s.measurements[m])
  }

  lemma SettledProven(s: State, b: Id, x: Id, p: real)
    requires Core(s) && b in s.batches && Evaluated(s.batches[b].status) && NoOpen(s, b) && IsCurrent(s, x, b)
    requires PlanPoint(s, b, p)
    ensures Proven(s, b, x, p)
  {
    hide Frames, TaskIndex;
    CoreMeasured(s, b, x, p);
    var m := Consequences.SettledEvidence(s, b, x, p);
  }

  lemma CoreMeasured(s: State, b: Id, x: Id, p: real)
    requires Core(s) && b in s.batches && Evaluated(s.batches[b].status) && IsCurrent(s, x, b) && PlanPoint(s, b, p)
    ensures Measured(s, b, s.sensors[x].code, p)
  {
    hide Frames, TaskIndex, MeasurementsOk, FindingsOk, OpenUntilPassed, ResolvedOk, FailuresFound, FindingsFounded,
         PreviousMeasured;
  }

  lemma HasCurrent(s: State, b: Id) returns (x: Id)
    requires Core(s) && b in s.batches && s.batches[b].status != Draft
    ensures IsCurrent(s, x, b) && ProfileOf(s, b).Some?
  {
    hide History, TaskIndex;
    assert BatchOk(s, s.batches[b]);
    var first := s.batches[b].sensorIDs[0];
    assert first in s.batches[b].sensorIDs;
    x := Consequences.CurrentExists(s, first);
  }

  /** Whenever a batch awaits review, is frozen or is released, it has no open finding, and every
      current sensor has at every locked point full evidence of its own batch that passes. */
  lemma ReleaseSound(h: Material -> string, s: State, b: Id)
    requires Reachable(h, s) && b in s.batches && (s.batches[b].status == ReadyReview || Sealed(s.batches[b].status))
    ensures NoOpen(s, b)
    ensures exists x :: IsCurrent(s, x, b)
    ensures forall x, p :: IsCurrent(s, x, b) && PlanPoint(s, b, p) ==> Proven(s, b, x, p)
  {
    hide Reachable, Core, CredentialsOk, CredentialsUnique;
    ReachableInv(h, s);
    var first := HasCurrent(s, b);
    assert StatusFits(s, b);
    forall x, p | IsCurrent(s, x, b) && PlanPoint(s, b, p)
      ensures Proven(s, b, x, p)
    {
      SettledProven(s, b, x, p);
    }
  }

  /** In a released or frozen batch every single reading of the evidence is near its point, by the
      absolute and by the relative tolerance, and the reviewer is none of the actors who captured a measurement. */
  lemma SealedReadings(h: Material -> string, s: State, b: Id, x: Id, p: real, m: Id, k: nat)
    requires Reachable(h, s) && b in s.batches && Sealed(s.batches[b].status)
    requires IsCurrent(s, x, b) && PlanPoint(s, b, p) && IsScopedEvidence(s, m, x, p)
    requires k < |s.measurements[m].readings|
    ensures var pr := ProfileOf(s, b).value;
      && pr.repetitions >= 2
      && var off, share := Abs(s.measurements[m].readings[k] - p), Share(pr.repetitions as real, pr.repeatabilityLimit);
         off <= pr.absoluteTolerance + share && (p != 0.0 ==> off <= pr.relativeTolerance * Abs(p) + share)
    ensures s.batches[b].reviewedBy != "" && !CapturedBy(s, b, s.batches[b].reviewedBy)
  {
    hide Reachable, StatusOk, CredentialsOk, CredentialsUnique, Core, StatsOf, Passes, Share, CapturedBy, IsCurrent,
         Proven;
    ReachableInv(h, s);
    SealedSeparation(s, b);
    ReleaseSound(h, s, b);
    SealedEvidencePasses(s, b, x, p, m);
    var mm := s.measurements[m];
    PassingReadingBound(mm.point, mm.readings, ProfileOf(s, b).value, k);
  }

  lemma SealedSeparation(s: State, b: Id)
    requires Core(s) && b in s.batches && Sealed(s.batches[b].status)
    ensures s.batches[b].reviewedBy != "" && !CapturedBy(s, b, s.batches[b].reviewedBy)
  {
    hide TaskIndex, MeasurementsOk, FindingsOk, OpenUntilPassed, ResolvedOk, FailuresFound, FindingsFounded,
         PreviousMeasured, EverMeasured;
    assert s.batches[b].reviewedBy !in s.batches[b].sampledBy;
  }

  lemma SealedEvidencePasses(s: State, b: Id, x: Id, p: real, m: Id)
    requires Core(s) && NoOpen(s, b) && IsCurrent(s, x, b) && PlanPoint(s, b, p) && IsScopedEvidence(s, m, x, p)
    requires Proven(s, b, x, p)
    ensures m in s.measurements && Passes(s.measurements[m].stats, ProfileOf(s, b).value)
    ensures s.measurements[m].point == p
    ensures s.measurements[m].stats == StatsOf(s.measurements[m].point, s.measurements[m].readings)
    ensures |s.measurements[m].readings| == ProfileOf(s, b).value.repetitions > 1
  {
    hide TaskIndex, FindingsOk, OpenUntilPassed, ResolvedOk, FailuresFound, FindingsFounded, PreviousMeasured,
         EverMeasured, SamplersOk;
    var n :| IsScopedEvidence(s, n, x, p) && Passing(s, s.measurements[n]);
    EvidenceUnique(s, m, n, x, p);
    assert MeasurementOk(s, s.measurements[m]);
    assert ProfileOk(s, ProfileOf(s, b).value);
  }

  /** There is at most one measurement that is the evidence of a revision at a point. */
  lemma EvidenceUnique(s: State, m: Id, n: Id, x: Id, p: real)
    requires DirectUnique(s) && RevisionsUnique(s) && IsScopedEvidence(s, m, x, p) && IsScopedEvidence(s, n, x, p)
    ensures m == n
  {
    if !HasDirect(s, x, p) {
      assert RevisionOf(s, m) == RevisionOf(s, n);
    }
  }

  /** The samplers of a batch are exactly the actors of its measurements, each listed once. */
  lemma SamplersExact(h: Material -> string, s: State, b: Id, actor: string)
    requires Reachable(h, s) && b in s.batches
    ensures Text.Distinct(s.batches[b].sampledBy) && (actor in s.batches[b].sampledBy <==> CapturedBy(s, b, actor))
  {
    hide Reachable, StatusOk, CredentialsOk, CredentialsUnique, Frames, TaskIndex;
    ReachableInv(h, s);
  }

  // ---------- failed batches ----------

  /** A failed batch always has a current revision that carries an open finding, and its
      recalibration is accepted. */
  lemma FailedCanRecalibrate(h: Material -> string, s: State, b: Id, id: Id, note: string, now: Time) returns (x: Id)
    requires Reachable(h, s) && b in s.batches && s.batches[b].status == Failed && !Text.Blank(note)
    ensures IsCurrent(s, x, b) && CarriesOpen(s, x)
    ensures RecalibrateSensorStep(s, b, x, id, note, now).error == None
  {
    hide Reachable, Core, CredentialsOk, CredentialsUnique;
    ReachableInv(h, s);
    assert StatusFits(s, b);
    x :| IsCurrent(s, x, b) && CarriesOpen(s, x);
  }

  /** A submission is refused for its input only: the conflict in deriving the status is never
      reached, and no submission to a failed batch makes it ready for review. */
  lemma SubmissionNeverConflicts(h: Material -> string, s: State, c: Call)
    requires Reachable(h, s) && Fresh(s, c) && c.cmd.Submit?
    ensures var o := Execute(h, s, c.actor, c.cmd, c.now);
      && o.error == SubmitError(s, c.cmd.batchID, c.cmd.sensorID, c.actor, c.cmd.items)
      && (o.error == None ==> c.cmd.batchID in s.batches && c.cmd.batchID in o.state.batches)
      && (o.error == None && s.batches[c.cmd.batchID].status == Failed ==>
            o.state.batches[c.cmd.batchID].status == Failed || o.state.batches[c.cmd.batchID].status == Sampling)
  {
    hide Reachable, Core, StatusChange.OthersKept, StatusOk, CredentialsOk, CredentialsUnique, FreshItems, SubmitError,
        Covered,
         NoOpen, ApplyReadings;
    ReachableInv(h, s);
    var b := c.cmd.batchID;
    if SubmitError(s, b, c.cmd.sensorID, c.actor, c.cmd.items) == None {
      AcceptableParts(s, b, c.cmd.sensorID, c.actor, c.cmd.items, c.now);
      SubmitKeeps(h, s, b, c.cmd.sensorID, c.actor, c.cmd.items, c.now);
      if s.batches[b].status == Failed {
        FailedSubmission(h, s, b, c.cmd.sensorID, c.actor, c.cmd.items, c.now);
      }
    }
  }

  lemma FailedSubmission(h: Material -> string, s: State, b: Id, x: Id, actor: string, items: seq<Reading>, now: Time)
    requires Inv(h, s) && Acceptable(s, b, x, actor, items, now) && Supplied(items) && b in s.batches
    requires s.batches[b].status == Failed
    ensures var t := SubmitStep(s, b, x, actor, items, now).state;
      b in t.batches && (t.batches[b].status == Failed || t.batches[b].status == Sampling)
  {
    hide Core, Progress, CredentialsOk, CredentialsUnique, StatusOk, ApplyReadings, Covered, NoOpen, FreshItems,
         SetEvaluationStatusStep, Acceptable;
    hide SubmitError, ProfileOf, IsCurrent, Supplied;
    AcceptableParts(s, b, x, actor, items, now);
    PlanNeeded(s, b, x, actor, items);
    var p := ProfileOf(s, b).value;
    var t := ApplyReadings(s, p, b, x, actor, items, now);
    assert items[..|items|] == items;
    ApplyReadingsKeepCore(s, p, b, x, actor, items, now, |items|);
    FailedUnsettled(s, t, b, x, actor, items, now);
    UnsettledNotReady(t, b, Covered(t, b));
  }

  lemma AcceptableParts(s: State, b: Id, x: Id, actor: string, items: seq<Reading>, now: Time)
    requires Acceptable(s, b, x, actor, items, now)
    ensures Supplied(items) && SubmitError(s, b, x, actor, items) == None && b in s.batches
  {
    hide ItemError, FirstItemError, IsCurrent;
    FreshSupplied(s, items);
  }

  lemma FreshSupplied(s: State, items: seq<Reading>)
    requires FreshItems(s, items)
    ensures Supplied(items)
  {
    forall i | 0 <= i < |items|
      ensures |items[i].findingIDs| >= 3
    {
      assert Recording.UnusedFindingIds(s, items[i].findingIDs);
    }
  }

  lemma UnsettledNotReady(t: State, b: Id, complete: bool)
    requires b in t.batches && t.batches[b].status == Failed && !NoOpen(t, b)
    ensures var u := SetEvaluationStatusStep(t, b, complete).state;
      b in u.batches && (u.batches[b].status == Failed || u.batches[b].status == Sampling)
  {
    hide NoOpen;
  }

  // ---------- retest tasks ----------

  /** For a current revision, a point has an open finding of an earlier revision exactly when
      its task is required and has not passed.  What an inherited task names is the evidence of its
      point within the batch until the revision has a measurement of its own there. */
  lemma TaskAgrees(h: Material -> string, s: State, b: Id, x: Id, t: Id)
    requires Reachable(h, s) && IsCurrent(s, x, b) && t in s.tasks && s.tasks[t].sensorID == x
    ensures BlockedInBatch(s, s.sensors[x], s.tasks[t].point) <==>
        s.tasks[t].required && s.tasks[t].status != TaskStatus.Passed
    ensures s.tasks[t].required ==> RequiredStatusOk(s, s.tasks[t])
    ensures !s.tasks[t].required ==> InheritedTaskOk(s, s.tasks[t])
    ensures !s.tasks[t].required && !HasDirect(s, x, s.tasks[t].point) ==>
      IsScopedEvidence(s, s.tasks[t].evidenceID, x, s.tasks[t].point)
  {
    hide Reachable, Frames, History, StatusOk, CredentialsOk, CredentialsUnique;
    ReachableInv(h, s);
    var task := s.tasks[t];
    assert TaskOk(s, task);
    TaskAgreesHere(s, b, x, t);
  }

  lemma TaskAgreesHere(s: State, b: Id, x: Id, t: Id)
    requires Core(s) && IsCurrent(s, x, b) && t in s.tasks && s.tasks[t].sensorID == x
    ensures BlockedInBatch(s, s.sensors[x], s.tasks[t].point) <==>
        s.tasks[t].required && s.tasks[t].status != TaskStatus.Passed
  {
    hide Frames, MeasurementsOk, FindingsOk, ResolvedOk, FailuresFound, FindingsFounded, SamplersOk,
         PreviousMeasured, EverMeasured, DirectUnique;
    hide TasksComplete, TasksUnique, InheritedTasksOk;
    var task := s.tasks[t];
    assert TaskOk(s, task);
    if task.required && task.status != TaskStatus.Passed {
      var f := task.findingIDs[0];
      assert f in task.findingIDs;
      assert ListsFinding(s, task, f);
      assert OpenEarlier(s, f, s.sensors[x], task.point);
    }
    forall f | OpenEarlier(s, f, s.sensors[x], task.point)
      ensures task.required && task.status != TaskStatus.Passed
    {
      assert f in task.findingIDs;
      PassedTaskClosed(s, x, task, f);
    }
  }

  lemma PassedTaskClosed(s: State, x: Id, task: Task, f: Id)
    requires OpenUntilPassed(s) && task.sensorID == x && x in s.sensors && OpenEarlier(s, f, s.sensors[x], task.point)
    requires task.required ==> RequiredStatusOk(s, task)
    ensures task.required ==> task.status != TaskStatus.Passed
  {
    if task.required && HasDirect(s, x, task.point) && Passing(s, s.measurements[task.evidenceID]) {
      assert PassesLater(s, task.evidenceID, s.findings[f]);
    }
  }

  ghost function PendingRetests(s: State, x: Id): set<Id> {
    set t | t in s.tasks && s.tasks[t].sensorID == x && s.tasks[t].required && s.tasks[t].status != TaskStatus.Passed
  }

  ghost function BlockedPoints(s: State, b: Id, x: Id): set<real>
    requires x in s.sensors && ProfileOf(s, b).Some?
  {
    set p | p in ProfileOf(s, b).value.points && BlockedInBatch(s, s.sensors[x], p)
  }

  /** The number of pending retests reported for a current revision is the number of points with
      an open finding of an earlier revision. */
  lemma PendingRetestsCount(h: Material -> string, s: State, b: Id, x: Id)
    requires Reachable(h, s) && IsCurrent(s, x, b) && s.sensors[x].revision > 1 && ProfileOf(s, b).Some?
    ensures |PendingRetests(s, x)| == |BlockedPoints(s, b, x)|
  {
    hide Reachable, Core, StatusOk, CredentialsOk, CredentialsUnique;
    ReachableInv(h, s);
    PendingByPoint(h, s, b, x);
    SameSize(PendingRetests(s, x), BlockedPoints(s, b, x), map t | t in s.tasks :: s.tasks[t].point);
  }

  lemma PendingByPoint(h: Material -> string, s: State, b: Id, x: Id)
    requires Core(s) && IsCurrent(s, x, b) && s.sensors[x].revision > 1 && ProfileOf(s, b).Some?
    ensures forall t :: t in PendingRetests(s, x) ==> s.tasks[t].point in BlockedPoints(s, b, x)
    ensures forall p :: p in BlockedPoints(s, b, x) ==> exists t :: t in PendingRetests(s, x) && s.tasks[t].point == p
    ensures forall t, u :: t in PendingRetests(s, x) && u in PendingRetests(s, x) && s.tasks[t].point == s.tasks[u].point ==> t == u
  {
    hide Frames, History, RequiredTasksOk, InheritedTasksOk, TasksCoverOpen, TasksAwaitOpen, TaskFindingsOk;
    forall t | t in PendingRetests(s, x)
      ensures s.tasks[t].point in BlockedPoints(s, b, x)
    {
      assert TaskOk(s, s.tasks[t]);
      TaskAgreesHere(s, b, x, t);
    }
    forall p | p in BlockedPoints(s, b, x)
      ensures exists t :: t in PendingRetests(s, x) && s.tasks[t].point == p
    {
      assert PlanPoint(s, s.sensors[x].batchID, p);
      var t :| TaskAt(s, t, x, p);
      TaskAgreesHere(s, b, x, t);
      assert t in PendingRetests(s, x);
    }
  }

  lemma {:induction false} SameSize(a: set<Id>, b: set<real>, f: map<Id, real>)
    requires forall t :: t in a ==> t in f && f[t] in b
    requires forall p :: p in b ==> exists t :: t in a && f[t] == p
    requires forall t, u :: t in a && u in a && f[t] == f[u] ==> t == u
    ensures |a| == |b|
  {
    if a == {} {
      assert forall p :: p !in b;
    } else {
      var t :| t in a;
      forall p | p in b - {f[t]}
        ensures exists u :: u in a - {t} && f[u] == p
      {
        var u :| u in a && f[u] == p;
        assert u in a - {t};
      }
      SameSize(a - {t}, b - {f[t]}, f);
    }
  }

  // ---------- finding history ----------

  /** A measurement that exceeds a limit has a finding for it, open until a later revision of the
      same sensor in the same batch passes at the point, and closed from then on. */
  lemma FailureIsTracked(h: Material -> string, s: State, m: Id, kind: string) returns (f: Id)
    requires Reachable(h, s) && m in s.measurements && Violating(s, s.measurements[m], kind)
    ensures AutomaticAt(s, f, s.measurements[m].sensorID, s.measurements[m].point, kind)
    ensures s.findings[f].status == Open <==> !LaterPass(s, s.findings[f])
    ensures s.findings[f].status == Resolved ==> exists n :: ClosedBy(s, n, s.findings[f])
  {
    hide Reachable, Frames, TaskIndex, StatusOk, CredentialsOk, CredentialsUnique;
    ReachableInv(h, s);
    f :| AutomaticAt(s, f, s.measurements[m].sensorID, s.measurements[m].point, kind);
  }

  /** Every finding, a reviewer's correction included, is open exactly until a later revision of the
      same sensor in the same batch passes at its point, and closed with that revision named. */
  lemma FindingIsSettled(h: Material -> string, s: State, f: Id)
    requires Reachable(h, s) && f in s.findings
    ensures s.findings[f].status == Open <==> !LaterPass(s, s.findings[f])
    ensures s.findings[f].status == Resolved ==>
        s.findings[f].reviewedAt.Some? && exists m :: ClosedBy(s, m, s.findings[f])
  {
    hide Reachable, Frames, TaskIndex, StatusOk, CredentialsOk, CredentialsUnique, FailuresFound, FindingsFounded,
         MeasurementsOk, SamplersOk, PreviousMeasured, EverMeasured, DirectUnique, FindingsOk;
    ReachableInv(h, s);
  }

  /** Automatic findings are all critical. */
  lemma AutomaticIsCritical(h: Material -> string, s: State, f: Id)
    requires Reachable(h, s) && f in s.findings && s.findings[f].origin == Automatic
    ensures s.findings[f].severity == "critical"
  {
    hide Reachable, Frames, TaskIndex, StatusOk, CredentialsOk, CredentialsUnique, FailuresFound, FindingsFounded,
         OpenUntilPassed, ResolvedOk, MeasurementsOk;
    ReachableInv(h, s);
    assert FindingOk(s, s.findings[f]);
  }

  /** Every automatic finding is about a limit that a measurement of its revision exceeds at its point. */
  lemma FindingIsFounded(h: Material -> string, s: State, f: Id) returns (m: Id)
    requires Reachable(h, s) && f in s.findings && s.findings[f].origin == Automatic
    ensures DirectAt(s, m, s.findings[f].sensorID, s.findings[f].point)
    ensures Violating(s, s.measurements[m], s.findings[f].kind)
  {
    hide Reachable, Frames, TaskIndex, StatusOk, CredentialsOk, CredentialsUnique;
    ReachableInv(h, s);
    m :| DirectAt(s, m, s.findings[f].sensorID, s.findings[f].point) &&
        Violating(s, s.measurements[m], s.findings[f].kind);
  }

  /** Records are never taken back: measurements, revisions, plans and credentials stay as they
      are, findings only go from open to closed. */
  ghost predicate Accumulates(s: State, t: State) {
    && (forall x :: x in s.sensors ==> x in t.sensors && t.sensors[x] == s.sensors[x])
    && (forall p :: p in s.profiles ==> p in t.profiles && t.profiles[p] == s.profiles[p])
    && (forall m :: m in s.measurements ==> m in t.measurements && t.measurements[m] == s.measurements[m])
    && (forall f :: f in s.findings ==> f in t.findings && SameProblem(s.findings[f], t.findings[f]))
    && (forall c :: c in s.credentials ==> c in t.credentials && t.credentials[c] == s.credentials[c])
    && s.reviews <= t.reviews
  }

  lemma ExecuteAccumulates(h: Material -> string, s: State, c: Call)
    requires Inv(h, s) && Fresh(s, c) && Execute(h, s, c.actor, c.cmd, c.now).error == None
    ensures Accumulates(s, Execute(h, s, c.actor, c.cmd, c.now).state)
  {
    hide Core, StatusOk, CredentialsOk, CredentialsUnique, Accumulates, FreshItems, FreshCorrections, Text.Distinct;
    hide CreateBatchStep, RegisterSensorStep, LockProfileStep, SubmitStep, RecalibrateStep, ApproveReviewStep,
         ReturnStep, ResubmitStep, IssueStep;
    match c.cmd
    case CreateBatch(b, stationCode, title) => CreateAccumulates(s, b, stationCode, title, c.actor, c.now);
    case RegisterSensor(b, id, code, metric, unit, lo, hi) => RegisterAccumulates(s, b, id, code, metric, unit, lo, hi,
        c.now);
    case LockProfile(b, id, points, reps, at, rt, rl) => LockAccumulates(s, b, id, points, reps, at, rt, rl, c.now);
    case Submit(b, x, items, _) => SubmitAccumulates(s, b, x, c.actor, items, c.now);
    case Recalibrate(b, before, id, note, taskIDs) => RecalibrateAccumulates(s, b, before, id, note, taskIDs, c.now);
    case Approve(b, comment, _) => ApproveAccumulates(s, b, c.actor, comment, c.now);
    case SendBack(b, comment, corrections) => ReturnAccumulates(s, b, c.actor, comment, corrections, c.now);
    case Resubmit(b, comment) => ResubmitAccumulates(s, b, c.actor, comment, c.now);
    case Issue(b, id) => IssueAccumulates(h, s, b, id, c.actor, c.now);
  }

  lemma CreateAccumulates(s: State, b: Id, stationCode: string, title: string, actor: string, now: Time)
    requires CreateBatchStep(s, b, stationCode, title, actor, now).error == None
    ensures Accumulates(s, CreateBatchStep(s, b, stationCode, title, actor, now).state)
  {
  }

  lemma RegisterAccumulates(s: State, b: Id, id: Id, code: string, metric: string, unit: string, lo: real, hi: real,
                            now: Time)
    requires id !in s.sensors && RegisterSensorStep(s, b, id, code, metric, unit, lo, hi, now).error == None
    ensures Accumulates(s, RegisterSensorStep(s, b, id, code, metric, unit, lo, hi, now).state)
  {
  }

  lemma LockAccumulates(s: State, b: Id, id: Id, points: seq<real>, reps: int, at: real, rt: real, rl: real, now: Time)
    requires id !in s.profiles && LockProfileStep(s, b, id, points, reps, at, rt, rl, now).error == None
    ensures Accumulates(s, LockProfileStep(s, b, id, points, reps, at, rt, rl, now).state)
  {
  }

  lemma SubmitAccumulates(s: State, b: Id, x: Id, actor: string, items: seq<Reading>, now: Time)
    requires Core(s) && FreshItems(s, items) && Supplied(items) && now != 0
    requires SubmitStep(s, b, x, actor, items, now).error == None
    ensures Accumulates(s, SubmitStep(s, b, x, actor, items, now).state)
  {
    hide Core, Progress, ApplyReadings, Covered, FreshItems, SubmitError, SetEvaluationStatusStep, Accumulates;
    FreshSupplied(s, items);
    SubmitAccepted(s, b, x, actor, items, now);
    PlanNeeded(s, b, x, actor, items);
    var p := ProfileOf(s, b).value;
    assert items[..|items|] == items;
    ApplyReadingsKeepCore(s, p, b, x, actor, items, now, |items|);
    var t := ApplyReadings(s, p, b, x, actor, items, now);
    ProgressAccumulates(s, t, b, x, actor, items, now);
    EvaluatedAccumulates(s, t, b);
  }

  lemma ProgressAccumulates(s: State, t: State, b: Id, x: Id, actor: string, items: seq<Reading>, now: Time)
    requires Progress(s, t, b, x, actor, items, now, |items|) && t.credentials == s.credentials
    requires t.reviews == s.reviews
    ensures Accumulates(s, t)
  {
  }

  lemma EvaluatedAccumulates(s: State, t: State, b: Id)
    requires Accumulates(s, t) && b in t.batches
    ensures Accumulates(s, SetEvaluationStatusStep(t, b, Covered(t, b)).state)
  {
    hide SetEvaluationStatusStep, Covered;
    StatusChange.EvaluatedShape(t, b, Covered(t, b));
  }

  lemma RecalibrateAccumulates(s: State, b: Id, before: Id, id: Id, note: string, taskIDs: seq<Id>, now: Time)
    requires id !in s.sensors && (ProfileOf(s, b).Some? ==> |taskIDs| >= |ProfileOf(s, b).value.points|)
    requires RecalibrateStep(s, b, before, id, note, taskIDs, now).error == None
    ensures Accumulates(s, RecalibrateStep(s, b, before, id, note, taskIDs, now).state)
  {
    hide NewTasks;
  }

  lemma ApproveAccumulates(s: State, b: Id, reviewer: string, comment: string, now: Time)
    requires ApproveReviewStep(s, b, reviewer, comment, now).error == None
    ensures Accumulates(s, ApproveReviewStep(s, b, reviewer, comment, now).state)
  {
  }

  lemma ReturnAccumulates(s: State, b: Id, reviewer: string, comment: string, corrections: seq<Correction>, now: Time)
    requires FreshCorrections(corrections) && ReturnStep(s, b, reviewer, comment, corrections, now).error == None
    ensures Accumulates(s, ReturnStep(s, b, reviewer, comment, corrections, now).state)
  {
    hide ManualFindings, FreshCorrections, CorrectionError, CorrectionIds;
    CorrectionsNew(s, b, reviewer, corrections);
  }

  lemma CorrectionsNew(s: State, b: Id, reviewer: string, corrections: seq<Correction>)
    requires FreshCorrections(corrections)
    ensures !CorrectionsFail(s, b, corrections) ==> forall f :: f in ManualFindings(b, corrections, reviewer) ==>
        f !in s.findings
  {
    ManualFindingsMean(b, corrections, reviewer);
    if !CorrectionsFail(s, b, corrections) {
      forall i | 0 <= i < |corrections|
        ensures corrections[i].id !in s.findings
      {
        assert CorrectionError(s, b, corrections, i) == None;
      }
    }
  }

  lemma ResubmitAccumulates(s: State, b: Id, actor: string, comment: string, now: Time)
    requires ResubmitStep(s, b, actor, comment, now).error == None
    ensures Accumulates(s, ResubmitStep(s, b, actor, comment, now).state)
  {
  }

  lemma IssueAccumulates(h: Material -> string, s: State, b: Id, id: Id, actor: string, now: Time)
    requires id !in s.credentials && IssueStep(h, s, b, id, actor, now).error == None
    ensures Accumulates(s, IssueStep(h, s, b, id, actor, now).state)
  {
    hide MaterialOf;
  }

  lemma AccumulatesTransitive(s: State, t: State, u: State)
    requires Accumulates(s, t) && Accumulates(t, u)
    ensures Accumulates(s, u)
  {
  }

  /** Over any run, nothing recorded is lost and closed findings stay exactly as they were closed. */
  lemma {:induction false} RunAccumulates(h: Material -> string, s: State, calls: seq<Call>)
    requires Inv(h, s) && FreshFrom(h, s, calls)
    ensures Accumulates(s, RunFrom(h, s, calls))
  {
    hide Inv, Fresh, Execute, Accumulates;
    if calls == [] {
      AccumulatesReflexive(s);
    } else {
      var init := calls[..|calls| - 1];
      var c := calls[|calls| - 1];
      RunAccumulates(h, s, init);
      RunKeeps(h, s, init);
      var t := RunFrom(h, s, init);
      if Step(h, t, c) != t {
        ExecuteAccumulates(h, t, c);
        AccumulatesTransitive(s, t, Step(h, t, c));
      }
    }
  }

  lemma AccumulatesReflexive(s: State)
    ensures Accumulates(s, s)
  {
  }
}
