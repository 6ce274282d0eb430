/** What an accepted request asked for is on record from then on, in every later state of every run;
    the limits of a plan as requested decide every later verdict. */
module Requests {
  import opened Entities
  import opened Statistics
  import opened Evidence
  import opened Frozen
  import opened Text
  import opened Domain
  import opened Invariant
  import opened StatusChange
  import opened Submission
  import opened Reviewing
  import opened Runs
  import opened Guarantees
  import opened Release

  // ---------- what never changes about a batch ----------

  /** Who created a batch, when and for which station, its place in the queue, its plan once locked,
      its reviewer once frozen, and the sensors already listed. */
  ghost predicate SameOrigin(x: Batch, y: Batch) {
    && y.id == x.id && y.stationCode == x.stationCode && y.title == x.title
    && y.createdBy == x.createdBy && y.createdAt == x.createdAt
    && x.sensorIDs <= y.sensorIDs && (x.profileID != "" ==> y.profileID == x.profileID)
    && (x.frozenAt.Some? ==> y.frozenAt == x.frozenAt && y.reviewedBy == x.reviewedBy)
  }

  ghost predicate OriginKept(s: State, t: State, b: Id) {
    b in s.batches ==> b in t.batches && SameOrigin(s.batches[b], t.batches[b])
  }

  lemma OwnOriginKept(h: Material -> string, s: State, c: Call)
    requires Inv(h, s) && EnoughIds(s, c.cmd) && Execute(h, s, c.actor, c.cmd, c.now).error == None
    ensures OriginKept(s, Execute(h, s, c.actor, c.cmd, c.now).state, c.cmd.batchID)
  {
    hide SubmitStep, RecalibrateStep, LockProfileStep, RegisterSensorStep, ReturnStep, ResubmitStep, IssueStep,
         ApproveReviewStep, OriginKept, Inv;
    OriginFacts(h, s, c.cmd.batchID);
    match c.cmd
    case CreateBatch(b, _, _) => AbsentOrigin(s, Execute(h, s, c.actor, c.cmd, c.now).state, b);
    case RegisterSensor(_, _, _, _, _, _, _) => PlannedOrigin(h, s, c);
    case LockProfile(_, _, _, _, _, _, _) => PlannedOrigin(h, s, c);
    case Submit(_, _, _, _) => SubmittedOrigin(s, c);
    case Recalibrate(_, _, _, _, _) => RecalibratedOrigin(s, c);
    case Approve(_, _, _) => ReviewedOrigin(h, s, c);
    case SendBack(_, _, _) => ReviewedOrigin(h, s, c);
    case Resubmit(_, _) => ReleasedOrigin(h, s, c);
    case Issue(_, _) => ReleasedOrigin(h, s, c);
  }

  lemma OriginFacts(h: Material -> string, s: State, b: Id)
    requires Inv(h, s)
    ensures b in s.batches && s.batches[b].status == Draft ==> s.batches[b].profileID == ""
    ensures b in s.batches && s.batches[b].status == ReadyReview ==> s.batches[b].frozenAt.None?
  {
    hide History, TaskIndex, StatusOk, CredentialsOk, CredentialsUnique, RangesOk, SensorsOk, SensorListsOk;
    if b in s.batches {
      assert BatchOk(s, s.batches[b]);
    }
  }

  lemma AbsentOrigin(s: State, t: State, b: Id)
    requires b !in s.batches
    ensures OriginKept(s, t, b)
  {
  }

  lemma PlannedOrigin(h: Material -> string, s: State, c: Call)
    requires (c.cmd.RegisterSensor? || c.cmd.LockProfile?) && Execute(h, s, c.actor, c.cmd, c.now).error == None
    requires c.cmd.batchID in s.batches && s.batches[c.cmd.batchID].status == Draft ==>
      s.batches[c.cmd.batchID].profileID == ""
    ensures OriginKept(s, Execute(h, s, c.actor, c.cmd, c.now).state, c.cmd.batchID)
  {
    hide IsCurrent, SortPoints, Repeats, CodeRegistered, Blank;
  }

  lemma RecalibratedOrigin(s: State, c: Call)
    requires c.cmd.Recalibrate? && EnoughIds(s, c.cmd)
    requires RecalibrateStep(s, c.cmd.batchID, c.cmd.sensorID, c.cmd.id, c.cmd.note, c.cmd.taskIDs, c.now).error == None
    ensures OriginKept(s, RecalibrateStep(s, c.cmd.batchID, c.cmd.sensorID, c.cmd.id, c.cmd.note, c.cmd.taskIDs,
        c.now).state, c.cmd.batchID)
  {
    hide IsCurrent, CarriesOpen, NewTasks, Blank;
  }

  lemma ReviewedOrigin(h: Material -> string, s: State, c: Call)
    requires c.cmd.Approve? || c.cmd.SendBack?
    requires Execute(h, s, c.actor, c.cmd, c.now).error == None
    requires c.cmd.batchID in s.batches && s.batches[c.cmd.batchID].status == ReadyReview ==>
      s.batches[c.cmd.batchID].frozenAt.None?
    ensures OriginKept(s, Execute(h, s, c.actor, c.cmd, c.now).state, c.cmd.batchID)
  {
    hide NoOpen, CorrectionsFail, ManualFindings, CorrectionIds, IssueStep, ResubmitStep;
  }

  lemma ReleasedOrigin(h: Material -> string, s: State, c: Call)
    requires c.cmd.Resubmit? || c.cmd.Issue?
    requires Execute(h, s, c.actor, c.cmd, c.now).error == None
    ensures OriginKept(s, Execute(h, s, c.actor, c.cmd, c.now).state, c.cmd.batchID)
  {
    hide NoOpen, MaterialOf, IsCurrent, PointComplete, HasCredential, Canonical, ReturnStep, ApproveReviewStep;
  }

  lemma SubmittedOrigin(s: State, c: Call)
    requires c.cmd.Submit? && EnoughIds(s, c.cmd)
    requires SubmitStep(s, c.cmd.batchID, c.cmd.sensorID, c.actor, c.cmd.items, c.now).error == None
    ensures OriginKept(s, SubmitStep(s, c.cmd.batchID, c.cmd.sensorID, c.actor, c.cmd.items, c.now).state,
        c.cmd.batchID)
  {
    hide Covered, NoOpen, SubmitError, ApplyReadings;
    SubmitAccepted(s, c.cmd.batchID, c.cmd.sensorID, c.actor, c.cmd.items, c.now);
    PlanNeeded(s, c.cmd.batchID, c.cmd.sensorID, c.actor, c.cmd.items);
  }

  lemma OriginFrame(s: State, t: State, b: Id)
    requires SameBatch(s, t, b)
    ensures OriginKept(s, t, b)
  {
  }

  lemma OriginTransitive(s: State, t: State, u: State, b: Id)
    requires OriginKept(s, t, b) && OriginKept(t, u, b)
    ensures OriginKept(s, u, b)
  {
  }

  /** No command takes back what is settled about a batch. */
  lemma StepKeepsOrigin(h: Material -> string, s: State, c: Call, b: Id)
    requires Inv(h, s) && Fresh(s, c)
    ensures OriginKept(s, Step(h, s, c), b)
  {
    hide Inv, Fresh, Execute, SameBatch, EnoughIds;
    if b != c.cmd.batchID {
      StepFrame(h, s, c, b);
      OriginFrame(s, Step(h, s, c), b);
    } else if EnoughIds(s, c.cmd) && Execute(h, s, c.actor, c.cmd, c.now).error == None {
      OwnOriginKept(h, s, c);
    }
  }

  lemma {:induction false} RunKeepsOrigin(h: Material -> string, s: State, calls: seq<Call>, b: Id)
    requires Inv(h, s) && FreshFrom(h, s, calls)
    ensures OriginKept(s, RunFrom(h, s, calls), b)
  {
    hide Inv, Fresh, Step, OriginKept;
    if calls == [] {
      SameFrame(s, b);
    } else {
      var t := RunFrom(h, s, calls[..|calls| - 1]);
      RunKeepsOrigin(h, s, calls[..|calls| - 1], b);
      RunKeeps(h, s, calls[..|calls| - 1]);
      StepKeepsOrigin(h, t, calls[|calls| - 1], b);
      OriginTransitive(s, t, Step(h, t, calls[|calls| - 1]), b);
    }
  }

  lemma SameFrame(s: State, b: Id)
    ensures OriginKept(s, s, b)
  {
  }

  // ---------- what an accepted submission leaves behind ----------

  lemma BatchAside(s: State, t: State, u: State, b: Id, x: Id, actor: string, items: seq<Reading>, now: Time)
    requires Progress(s, t, b, x, actor, items, now, |items|) && u == t.(batches := u.batches)
    requires forall c :: ProfileOf(u, c) == ProfileOf(t, c)
    ensures Progress(s, u, b, x, actor, items, now, |items|)
  {
  }

  lemma EvaluatedPlans(t: State, b: Id, complete: bool)
    requires b in t.batches
    ensures var u := SetEvaluationStatusStep(t, b, complete).state;
      && b in u.batches && u == t.(batches := u.batches) &&
          (t.batches[b].status == Returned ==> u.batches[b].status == Returned)
      && forall c :: ProfileOf(u, c) == ProfileOf(t, c)
  {
    hide SetEvaluationStatusStep, ProfileOf;
    EvaluatedShape(t, b, complete);
    PlansByReference(t, SetEvaluationStatusStep(t, b, complete).state);
  }

  /** What an accepted submission leaves behind. */
  lemma SubmissionStores(h: Material -> string, s: State, c: Call)
    requires Inv(h, s) && Fresh(s, c) && c.cmd.Submit?
    requires SubmitError(s, c.cmd.batchID, c.cmd.sensorID, c.actor, c.cmd.items) == None
    ensures EnoughIds(s, c.cmd) && Execute(h, s, c.actor, c.cmd, c.now).error == None
    ensures Progress(s, Step(h, s, c), c.cmd.batchID, c.cmd.sensorID, c.actor, c.cmd.items, c.now, |c.cmd.items|)
    ensures c.cmd.batchID in s.batches && c.cmd.batchID in Step(h, s, c).batches
    ensures s.batches[c.cmd.batchID].status == Returned ==> Step(h, s, c).batches[c.cmd.batchID].status == Returned
  {
    hide Core, StatusOk, CredentialsOk, CredentialsUnique, Progress, ApplyReadings, SetEvaluationStatusStep, Covered,
         SubmitError, FreshItems, OthersKept, Fresh;
    var b, x, items := c.cmd.batchID, c.cmd.sensorID, c.cmd.items;
    FreshSubmission(s, c);
    SubmitKeeps(h, s, b, x, c.actor, items, c.now);
    PlanNeeded(s, b, x, c.actor, items);
    SubmittedBatch(s, b, x, c.actor, items);
    var p := ProfileOf(s, b).value;
    assert items[..|items|] == items;
    ApplyReadingsKeepCore(s, p, b, x, c.actor, items, c.now, |items|);
    var t := ApplyReadings(s, p, b, x, c.actor, items, c.now);
    EvaluatedPlans(t, b, Covered(t, b));
    BatchAside(s, t, SetEvaluationStatusStep(t, b, Covered(t, b)).state, b, x, c.actor, items, c.now);
  }

  lemma SubmittedBatch(s: State, b: Id, x: Id, actor: string, items: seq<Reading>)
    requires SubmitError(s, b, x, actor, items) == None
    ensures b in s.batches && items != []
  {
  }

  // ---------- what a request leaves on record ----------

  ghost predicate Listed(t: State, b: Id, x: Id) {
    b in t.batches && x in t.batches[b].sensorIDs
  }

  ghost predicate SetRecorded(t: State, b: Id, x: Id, actor: string, item: Reading, now: Time) {
    && item.id in t.measurements
    && var m := t.measurements[item.id];
       && m.batchID == b && m.sensorID == x && m.point == item.point && m.readings == item.readings
       && m.capturedBy == actor && m.capturedAt == now
  }

  /** A correction is a finding of the reviewer, open or closed by now. */
  ghost predicate CorrectionRecorded(t: State, b: Id, reviewer: string, c: Correction) {
    && c.id in t.findings
    && var f := t.findings[c.id];
       && f.batchID == b && f.sensorID == c.sensorID && f.point == c.point && f.kind == c.kind
       && f.severity == c.severity && f.message == c.message && f.origin == Manual && f.createdBy == reviewer
  }

  ghost predicate ReviewRecorded(t: State, r: Review) {
    r in t.reviews
  }

  /** The plan of the batch is the one asked for: the same points, the same number of repetitions, and
      every limit in its own place. */
  ghost predicate PlanRecorded(t: State, b: Id, id: Id, points: seq<real>, repetitions: int, absolute: real,
                               relative: real, repeatability: real, now: Time)
  {
    && b in t.batches && t.batches[b].profileID == id && id in t.profiles
    && var p := t.profiles[id];
       && p.batchID == b && multiset(p.points) == multiset(points) && Rising(p.points) && p.repetitions == repetitions
       && p.absoluteTolerance == absolute && p.relativeTolerance == relative && p.repeatabilityLimit == repeatability
       && p.lockedAt == Some(now)
  }

  ghost predicate OnRecord(t: State, c: Call) {
    match c.cmd
    case CreateBatch(b, stationCode, title) =>
      && b in t.batches && t.batches[b].stationCode == stationCode && t.batches[b].title == title
      && t.batches[b].createdBy == c.actor && t.batches[b].createdAt == c.now
    case RegisterSensor(b, id, code, metric, unit, lo, hi) =>
      id in t.sensors && t.sensors[id] == Sensor(id, b, code, 1, metric, unit, lo, hi, "", c.now) && Listed(t, b, id)
    case LockProfile(b, id, points, n, absolute, relative, repeatability) =>
      PlanRecorded(t, b, id, points, n, absolute, relative, repeatability, c.now)
    case Submit(b, x, items, _) => forall i :: 0 <= i < |items| ==> SetRecorded(t, b, x, c.actor, items[i], c.now)
    case Recalibrate(b, before, id, note, _) =>
      && before in t.sensors && id in t.sensors && Listed(t, b, id)
      && var x, y := t.sensors[before], t.sensors[id];
         && y.id == id && y.batchID == b == x.batchID && y.code == x.code && y.metric == x.metric && y.unit == x.unit
         && y.rangeMin == x.rangeMin && y.rangeMax == x.rangeMax && y.revision == x.revision + 1
         && y.note == note && y.createdAt == c.now
    case Approve(b, comment, _) =>
      && b in t.batches && t.batches[b].frozenAt == Some(c.now) && t.batches[b].reviewedBy == c.actor
      && ReviewRecorded(t, Review(b, c.actor, Approved, comment, [], c.now))
    case SendBack(b, comment, corrections) =>
      && ReviewRecorded(t, Review(b, c.actor, SentBack, comment, CorrectionIds(corrections), c.now))
      && forall i :: 0 <= i < |corrections| ==> CorrectionRecorded(t, b, c.actor, corrections[i])
    case Resubmit(b, comment) => ReviewRecorded(t, Review(b, c.actor, Resubmitted, comment, [], c.now))
    case Issue(b, id) =>
      && id in t.credentials && t.credentials[id].batchID == b && t.credentials[id].issuedBy == c.actor
      && t.credentials[id].issuedAt == c.now && t.credentials[id].decision == "approved_for_deployment"
  }

  lemma RecordedAtOnce(h: Material -> string, s: State, c: Call)
    requires Inv(h, s) && Fresh(s, c) && EnoughIds(s, c.cmd) && Execute(h, s, c.actor, c.cmd, c.now).error == None
    ensures OnRecord(Step(h, s, c), c)
  {
    hide Inv, Fresh, SubmitStep, RecalibrateStep, LockProfileStep, RegisterSensorStep, ReturnStep, ResubmitStep,
         IssueStep, ApproveReviewStep, CreateBatchStep, OnRecord;
    match c.cmd
    case CreateBatch(_, _, _) => CreatedOnRecord(h, s, c);
    case RegisterSensor(_, _, _, _, _, _, _) => RegisteredOnRecord(h, s, c);
    case LockProfile(_, _, _, _, _, _, _) => LockedOnRecord(h, s, c);
    case Submit(_, _, _, _) => SubmittedOnRecord(h, s, c);
    case Recalibrate(_, _, _, _, _) => RecalibratedOnRecord(h, s, c);
    case Approve(_, _, _) => ApprovedOnRecord(h, s, c);
    case SendBack(_, _, _) => ReturnedOnRecord(h, s, c);
    case Resubmit(_, _) => ApprovedOnRecord(h, s, c);
    case Issue(_, _) => ApprovedOnRecord(h, s, c);
  }

  lemma CreatedOnRecord(h: Material -> string, s: State, c: Call)
    requires c.cmd.CreateBatch? && Execute(h, s, c.actor, c.cmd, c.now).error == None
    ensures OnRecord(Execute(h, s, c.actor, c.cmd, c.now).state, c)
  {
    hide Blank;
  }

  lemma RegisteredOnRecord(h: Material -> string, s: State, c: Call)
    requires c.cmd.RegisterSensor? && Execute(h, s, c.actor, c.cmd, c.now).error == None
    ensures OnRecord(Execute(h, s, c.actor, c.cmd, c.now).state, c)
  {
    hide Blank, CodeRegistered;
  }

  lemma LockedOnRecord(h: Material -> string, s: State, c: Call)
    requires c.cmd.LockProfile? && Execute(h, s, c.actor, c.cmd, c.now).error == None
    ensures OnRecord(Execute(h, s, c.actor, c.cmd, c.now).state, c)
  {
    hide IsCurrent, Repeats, SortPoints, Rising;
    SortPointsSorts(c.cmd.points);
  }

  lemma SubmittedOnRecord(h: Material -> string, s: State, c: Call)
    requires Inv(h, s) && Fresh(s, c) && c.cmd.Submit? && EnoughIds(s, c.cmd)
    requires Execute(h, s, c.actor, c.cmd, c.now).error == None
    ensures OnRecord(Step(h, s, c), c)
  {
    hide Inv, Fresh, SubmitStep, SubmitError;
    SubmitAccepted(s, c.cmd.batchID, c.cmd.sensorID, c.actor, c.cmd.items, c.now);
    SubmissionStores(h, s, c);
    forall i | 0 <= i < |c.cmd.items|
      ensures SetRecorded(Step(h, s, c), c.cmd.batchID, c.cmd.sensorID, c.actor, c.cmd.items[i], c.now)
    {
      assert Step(h, s, c).measurements[c.cmd.items[i].id] ==
          SetOf(c.cmd.batchID, c.cmd.sensorID, c.actor, c.cmd.items[i], c.now);
    }
  }

  lemma RecalibratedOnRecord(h: Material -> string, s: State, c: Call)
    requires Fresh(s, c) && c.cmd.Recalibrate? && EnoughIds(s, c.cmd)
    requires Execute(h, s, c.actor, c.cmd, c.now).error == None
    ensures OnRecord(Execute(h, s, c.actor, c.cmd, c.now).state, c)
  {
    hide IsCurrent, CarriesOpen, NewTasks, Blank, Distinct;
  }

  lemma ApprovedOnRecord(h: Material -> string, s: State, c: Call)
    requires c.cmd.Approve? || c.cmd.Resubmit? || c.cmd.Issue?
    requires Execute(h, s, c.actor, c.cmd, c.now).error == None
    ensures OnRecord(Execute(h, s, c.actor, c.cmd, c.now).state, c)
  {
    hide NoOpen, PointComplete, IsCurrent, HasCredential, MaterialOf, Canonical;
    var t := Execute(h, s, c.actor, c.cmd, c.now).state;
    assert !c.cmd.Issue? ==> t.reviews[|s.reviews|] in t.reviews;
  }

  lemma ReturnedOnRecord(h: Material -> string, s: State, c: Call)
    requires Fresh(s, c) && c.cmd.SendBack? && Execute(h, s, c.actor, c.cmd, c.now).error == None
    ensures OnRecord(Execute(h, s, c.actor, c.cmd, c.now).state, c)
  {
    hide CorrectionsFail, ManualFindings, CorrectionIds, FreshCorrections;
    var t := Execute(h, s, c.actor, c.cmd, c.now).state;
    assert t.reviews[|s.reviews|] in t.reviews;
    CorrectionsEntered(c.cmd.batchID, c.cmd.corrections, c.actor);
    forall i | 0 <= i < |c.cmd.corrections|
      ensures CorrectionRecorded(t, c.cmd.batchID, c.actor, c.cmd.corrections[i])
    {
    }
  }

  lemma CorrectionsEntered(b: Id, corrections: seq<Correction>, reviewer: string)
    requires FreshCorrections(corrections)
    ensures forall i :: 0 <= i < |corrections| ==>
      && corrections[i].id in ManualFindings(b, corrections, reviewer)
      && ManualFindings(b, corrections, reviewer)[corrections[i].id] == ManualFinding(b, corrections[i], reviewer)
  {
    ManualFindingsMean(b, corrections, reviewer);
  }

  lemma RecordStays(t: State, u: State, c: Call)
    requires OnRecord(t, c) && Accumulates(t, u) && OriginKept(t, u, c.cmd.batchID)
    requires c.cmd.LockProfile? ==> c.cmd.id != ""
    ensures OnRecord(u, c)
  {
    match c.cmd
    case CreateBatch(_, _, _) =>
    case RegisterSensor(_, _, _, _, _, _, _) =>
    case LockProfile(_, id, _, _, _, _, _) => assert u.profiles[id] == t.profiles[id];
    case Submit(_, _, items, _) =>
      forall i | 0 <= i < |items|
        ensures SetRecorded(u, c.cmd.batchID, c.cmd.sensorID, c.actor, items[i], c.now)
      {
        assert SetRecorded(t, c.cmd.batchID, c.cmd.sensorID, c.actor, items[i], c.now);
      }
    case Recalibrate(_, _, _, _, _) =>
    case Approve(_, _, _) =>
    case SendBack(_, _, corrections) =>
      forall i | 0 <= i < |corrections|
        ensures CorrectionRecorded(u, c.cmd.batchID, c.actor, corrections[i])
      {
        assert CorrectionRecorded(t, c.cmd.batchID, c.actor, corrections[i]);
      }
    case Resubmit(_, _) =>
    case Issue(_, _) =>
  }

  lemma PlanNamed(s: State, c: Call)
    requires Fresh(s, c)
    ensures c.cmd.LockProfile? ==> c.cmd.id != ""
  {
    hide EnoughIds;
  }

  /** In every run, what an accepted request asked for stays on record as it was asked for. */
  lemma RequestsStayOnRecord(h: Material -> string, s: State, c: Call, calls: seq<Call>)
    requires Reachable(h, s) && Fresh(s, c) && EnoughIds(s, c.cmd) && Execute(h, s, c.actor, c.cmd, c.now).error == None
    requires FreshFrom(h, Step(h, s, c), calls)
    ensures OnRecord(RunFrom(h, Step(h, s, c), calls), c)
  {
    hide Reachable, Inv, Fresh, Execute, EnoughIds, OnRecord, Accumulates, OriginKept, FreshFrom, RunFrom;
    ReachableInv(h, s);
    RecordedAtOnce(h, s, c);
    ExecuteKeeps(h, s, c);
    RunAccumulates(h, Step(h, s, c), calls);
    RunKeepsOrigin(h, Step(h, s, c), calls, c.cmd.batchID);
    PlanNamed(s, c);
    RecordStays(Step(h, s, c), RunFrom(h, Step(h, s, c), calls), c);
  }

  // ---------- from the limits asked for to the verdict ----------

  /** A state that comes after an accepted command, some further commands later. */
  ghost predicate After(h: Material -> string, s: State, c: Call, t: State) {
    && Reachable(h, s) && Fresh(s, c) && EnoughIds(s, c.cmd) && Execute(h, s, c.actor, c.cmd, c.now).error == None
    && exists calls :: Reaches(h, Step(h, s, c), calls, t)
  }

  lemma AfterInv(h: Material -> string, s: State, c: Call, t: State)
    requires After(h, s, c, t)
    ensures Inv(h, t) && OnRecord(t, c)
  {
    hide Reachable, Inv, Fresh, Execute, EnoughIds, OnRecord, FreshFrom, RunFrom;
    var calls :| Reaches(h, Step(h, s, c), calls, t);
    RequestsStayOnRecord(h, s, c, calls);
    ReachableInv(h, s);
    ExecuteKeeps(h, s, c);
    RunKeeps(h, Step(h, s, c), calls);
  }

  /** The limits of an accepted lock request govern every later measurement of the batch, in every run:
      it has the number of readings and one of the points asked for, and a finding of a kind exactly
      when its readings exceed the limit asked for under that name. */
  lemma LimitsGovern(h: Material -> string, s: State, c: Call, t: State, m: Id, kind: string)
    requires After(h, s, c, t) && c.cmd.LockProfile?
    requires m in t.measurements && t.measurements[m].batchID == c.cmd.batchID
    ensures |t.measurements[m].readings| == c.cmd.repetitions && t.measurements[m].point in c.cmd.points
    ensures (exists f :: AutomaticAt(t, f, t.measurements[m].sensorID, t.measurements[m].point, kind)) <==>
      Exceeds(kind, t.measurements[m].point, t.measurements[m].readings, c.cmd.absoluteTolerance,
              c.cmd.relativeTolerance, c.cmd.repeatabilityLimit)
  {
    hide After, Inv, Exceeds, Violates, StatsOf;
    AfterInv(h, s, c, t);
    var mm := t.measurements[m];
    MeasuredByPlan(h, t, m);
    var p := ProfileOf(t, c.cmd.batchID).value;
    assert mm.point in multiset(p.points);
    ViolatesOverReadings(kind, mm.point, mm.readings, p);
    FindingsMatch(h, t, m, kind);
  }

  lemma MeasuredByPlan(h: Material -> string, t: State, m: Id)
    requires Inv(h, t) && m in t.measurements
    ensures var mm := t.measurements[m];
      && PlanPoint(t, mm.batchID, mm.point) && |mm.readings| == ProfileOf(t, mm.batchID).value.repetitions > 0
      && mm.stats == StatsOf(mm.point, mm.readings)
  {
    hide TaskIndex, StatusOk, CredentialsOk, CredentialsUnique, FindingsOk, OpenUntilPassed, ResolvedOk, FailuresFound,
         FindingsFounded, PreviousMeasured, EverMeasured, SamplersOk, RangesOk;
    assert MeasurementOk(t, t.measurements[m]);
    assert ProfileOk(t, ProfileOf(t, t.measurements[m].batchID).value);
  }

  lemma FindingsMatch(h: Material -> string, t: State, m: Id, kind: string)
    requires Inv(h, t) && m in t.measurements
    ensures (exists f :: AutomaticAt(t, f, t.measurements[m].sensorID, t.measurements[m].point, kind)) <==>
      Violating(t, t.measurements[m], kind)
  {
    hide Frames, TaskIndex, StatusOk, CredentialsOk, CredentialsUnique, MeasurementsOk, FindingsOk, OpenUntilPassed,
         ResolvedOk, PreviousMeasured, EverMeasured, SamplersOk, Violating;
    var mm := t.measurements[m];
    if f :| AutomaticAt(t, f, mm.sensorID, mm.point, kind) {
      var n :| DirectAt(t, n, mm.sensorID, mm.point) && Violating(t, t.measurements[n], kind);
      assert n == m;
    }
  }
}
