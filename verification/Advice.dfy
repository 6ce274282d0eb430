/** What the queue recommends for a batch, and exactly when a command of that kind can succeed. */
module Advice {
  import opened Entities
  import opened Evidence
  import opened Frozen
  import Text
  import opened Domain
  import opened Invariant
  import Consequences
  import Evaluation
  import Requests
  import Statistics
  import opened Runs
  import opened Guarantees
  import opened Release
  import opened Drafts
  import opened WorkQueue

  predicate Follows(action: string, cmd: Command) {
    || (action == "register_sensor" && cmd.RegisterSensor?)
    || (action == "lock_profile" && cmd.LockProfile?)
    || (action == "submit_measurements" && cmd.Submit?)
    || (action == "recalibrate" && cmd.Recalibrate?)
    || (action == "resubmit_review" && cmd.Resubmit?)
    || (action == "review" && (cmd.Approve? || cmd.SendBack?))
    || (action == "issue_credential" && cmd.Issue?)
  }

  ghost predicate Succeeds(h: Material -> string, s: State, c: Call, b: Id) {
    Fresh(s, c) && c.cmd.batchID == b && EnoughIds(s, c.cmd) && Execute(h, s, c.actor, c.cmd, c.now).error == None
  }

  ghost predicate CanFollow(h: Material -> string, s: State, b: Id, action: string) {
    exists c: Call :: Follows(action, c.cmd) && Succeeds(h, s, c, b)
  }

  /** No open finding, of whatever batch, blocks a point at which a current revision has no measurement of its own. */
  ghost predicate NothingHidden(s: State, b: Id) {
    forall x, p :: IsCurrent(s, x, b) && PlanPoint(s, b, p) && !HasDirect(s, x, p) ==> !Blocked(s, s.sensors[x], p)
  }

  /** When the recommendation can be carried out, by the status it is made for. */
  ghost predicate AdviceHolds(s: State, b: Id)
    requires b in s.batches
  {
    match s.batches[b].status
    case Draft => RangesMeet(s, b)
    case Returned => if NoOpen(s, b) then NothingHidden(s, b) else exists x :: IsCurrent(s, x, b) && CarriesOpen(s, x)
    case Released => false
    case _ => true
  }

  // ---------- what the counts say ----------

  lemma SensorCount(s: State, b: Id)
    ensures |CurrentIds(s, b)| == 0 <==> Owned(s, b) == {}
  {
    if Owned(s, b) != {} {
      var x :| x in Owned(s, b);
      var c := Consequences.CurrentExists(s, x);
      assert c in CurrentIds(s, b);
    }
    if CurrentIds(s, b) != {} {
      var x :| x in CurrentIds(s, b);
      assert x in Owned(s, b);
    }
  }

  // ---------- status by status ----------

  lemma DraftAdvice(h: Material -> string, s: State, b: Id, action: string)
    requires Inv(h, s) && IsDraft(s, b) && action == if Owned(s, b) == {} then "register_sensor" else "lock_profile"
    ensures CanFollow(h, s, b, action) <==> RangesMeet(s, b)
  {
    hide Inv, Fresh, Execute, EnoughIds, RangesMeet;
    InvDrafts(h, s);
    if Owned(s, b) == {} {
      NoRangesMeet(s, b);
      var c := RegisterCall(h, s, b);
      assert Follows(action, c.cmd) && Succeeds(h, s, c, b);
    } else {
      if RangesMeet(s, b) {
        OwnedListed(h, s, b);
        var c := LockCall(h, s, b);
        assert Follows(action, c.cmd) && Succeeds(h, s, c, b);
      } else {
        ApartNoLock(h, s, b);
      }
    }
  }

  lemma NoRangesMeet(s: State, b: Id)
    requires Owned(s, b) == {}
    ensures RangesMeet(s, b)
  {
    forall x
      ensures !Owns(s, b, x)
    {
      assert x !in Owned(s, b);
    }
  }

  lemma ApartNoLock(h: Material -> string, s: State, b: Id)
    requires DraftsPlain(s) && IsDraft(s, b) && !RangesMeet(s, b)
    ensures !CanFollow(h, s, b, "lock_profile")
  {
    hide DraftsPlain, LockProfileStep, Fresh, RangesMeet, IsDraft;
    forall c: Call | c.cmd.LockProfile? && c.cmd.batchID == b
      ensures !Succeeds(h, s, c, b)
    {
      ApartCannotLock(s, b, c.cmd.id, c.cmd.points, c.cmd.repetitions, c.cmd.absoluteTolerance,
          c.cmd.relativeTolerance, c.cmd.repeatabilityLimit, c.now);
    }
  }

  lemma RecalibrationNeedsCarrier(h: Material -> string, s: State, b: Id)
    requires CanFollow(h, s, b, "recalibrate")
    ensures exists x :: IsCurrent(s, x, b) && CarriesOpen(s, x)
  {
    hide Text.Blank, PlanPoint;
    hide IsCurrent, CarriesOpen, NewTasks, Fresh;
    var c: Call :| Follows("recalibrate", c.cmd) && Succeeds(h, s, c, b);
    assert IsCurrent(s, c.cmd.sensorID, b) && CarriesOpen(s, c.cmd.sensorID);
  }

  lemma ResubmissionNeedsCoverage(h: Material -> string, s: State, b: Id)
    requires Core(s) && b in s.batches && s.batches[b].status == Returned && CanFollow(h, s, b, "resubmit_review")
    ensures Covered(s, b)
  {
    hide Core, IsCurrent, Fresh, NoOpen, HasDirect, Blocked;
    var c: Call :| Follows("resubmit_review", c.cmd) && Succeeds(h, s, c, b);
    var x := HasCurrent(s, b);
    forall x, p | IsCurrent(s, x, b) && p in ProfileOf(s, b).value.points
      ensures exists m :: IsEvidence(s, m, x, p) && |s.measurements[m].readings| == ProfileOf(s, b).value.repetitions
    {
      assert PointComplete(s, b, x, p);
    }
  }

  /** No command on a released batch succeeds. */
  lemma ReleasedIsFinal(h: Material -> string, s: State, b: Id, c: Call)
    requires b in s.batches && s.batches[b].status == Released
    ensures !Succeeds(h, s, c, b)
  {
    hide NoOpen, MaterialOf, Fresh, Covered, CorrectionsFail, ManualFindings, SortPoints, NewTasks;
  }

  lemma ReturnedAdvice(h: Material -> string, s: State, b: Id)
    requires Inv(h, s) && b in s.batches && s.batches[b].status == Returned
    ensures !NoOpen(s, b) ==> (CanFollow(h, s, b, "recalibrate") <==>
        exists x :: IsCurrent(s, x, b) && CarriesOpen(s, x))
    ensures NoOpen(s, b) ==> (CanFollow(h, s, b, "resubmit_review") <==> Covered(s, b))
  {
    hide Core, StatusOk, CredentialsOk, CredentialsUnique, Closer, IsCurrent, CarriesOpen, Covered, NoOpen, Fresh,
         Execute;
    if x :| IsCurrent(s, x, b) && CarriesOpen(s, x) {
      var c := RecalibrateAdvances(h, s, b, x);
      FreshEnough(s, c);
      assert Follows("recalibrate", c.cmd) && Succeeds(h, s, c, b);
    } else if CanFollow(h, s, b, "recalibrate") {
      RecalibrationNeedsCarrier(h, s, b);
    }
    if NoOpen(s, b) {
      if Covered(s, b) {
        var c := ResubmitAdvances(h, s, b);
        FreshEnough(s, c);
        assert Follows("resubmit_review", c.cmd) && Succeeds(h, s, c, b);
      } else if CanFollow(h, s, b, "resubmit_review") {
        ResubmissionNeedsCoverage(h, s, b);
      }
    }
  }

  lemma OpenAdvice(h: Material -> string, s: State, b: Id, action: string)
    requires Inv(h, s) && b in s.batches
    requires match s.batches[b].status
             case PlanLocked => action == "submit_measurements"
             case Sampling => action == "submit_measurements"
             case Failed => action == "recalibrate"
             case ReadyReview => action == "review"
             case Frozen => action == "issue_credential"
             case _ => false
    ensures CanFollow(h, s, b, action)
  {
    hide Core, CredentialsOk, CredentialsUnique, Closer, IsCurrent, CarriesOpen, NoOpen, Fresh, Execute, Unmeasured;
    assert StatusFits(s, b);
    var c;
    match s.batches[b].status {
      case PlanLocked =>
        var x, p :| Unmeasured(s, b, x, p);
        c := SubmitAdvances(h, s, b, x, p);
      case Sampling =>
        var x, p :| Unmeasured(s, b, x, p);
        c := SubmitAdvances(h, s, b, x, p);
      case Failed =>
        var x :| IsCurrent(s, x, b) && CarriesOpen(s, x);
        c := RecalibrateAdvances(h, s, b, x);
      case ReadyReview => c := ApproveAdvances(h, s, b);
      case Frozen => c := IssueAdvances(h, s, b);
    }
    FreshEnough(s, c);
    assert Follows(action, c.cmd) && Succeeds(h, s, c, b);
  }

  /** In every state of every run, what the queue recommends for a batch can be carried out exactly
      when `AdviceHolds`: always from plan-locked to failed, in review and when frozen; for a draft
      when the ranges of its sensors meet; for a returned batch when some current revision itself
      carries an open finding or, with nothing open, when no finding of another batch with the same
      sensor code blocks a point that lives on inherited evidence. */
  lemma AdviceExactly(h: Material -> string, s: State, b: Id, r: Readiness)
    requires Reachable(h, s) && b in s.batches && ReadinessOf(s, b, r)
    ensures CanFollow(h, s, b, NextBatchAction(s.batches[b], r)) <==> AdviceHolds(s, b)
  {
    hide Reachable, Inv, Fresh, Execute, IsCurrent, CarriesOpen, Covered, NoOpen, RangesMeet, EnoughIds, NothingHidden;
    ReachableInv(h, s);
    OpenCounted(s, b);
    SensorCount(s, b);
    InvPlanned(h, s, b);
    match s.batches[b].status
    case Draft => DraftAdvice(h, s, b, NextBatchAction(s.batches[b], r));
    case Returned =>
      ReturnedAdvice(h, s, b);
      if NoOpen(s, b) {
        SettledCoveredExactly(h, s, b);
      }
    case Released =>
    case _ => OpenAdvice(h, s, b, NextBatchAction(s.batches[b], r));
  }

  lemma InvPlanned(h: Material -> string, s: State, b: Id)
    requires Inv(h, s) && b in s.batches
    ensures s.batches[b].status == Draft <==> s.batches[b].profileID == ""
  {
    hide History, TaskIndex, StatusOk, CredentialsOk, CredentialsUnique;
    assert BatchOk(s, s.batches[b]);
  }

  // ---------- what an evaluation says ----------

  /** Evaluating a current revision raises exactly the automatic findings it carries, in every run:
      evidence it has taken over from an earlier revision passes. */
  lemma EvaluationAgrees(h: Material -> string, s: State, b: Id, r: Evaluation.SensorResult, p: real, kind: string)
    requires Reachable(h, s) && IsCurrent(s, r.revision, b) && Evaluation.RevisionEvaluated(s, b, r)
    ensures Evaluation.Drafted(r.drafts, p, kind) <==> exists f :: AutomaticAt(s, f, r.revision, p, kind)
  {
    hide Reachable, Inv, IsCurrent, Evaluation.RevisionEvaluated, Evaluation.Drafted, Evaluation.EvidenceExceeds,
         PlanPoint;
    ReachableInv(h, s);
    InvUnique(h, s);
    EvaluatedPlanned(s, b, r);
    Evaluation.EvaluationMeans(s, b, r, p, kind);
    EvidenceFound(h, s, b, r.revision, p, kind);
  }

  lemma EvaluatedPlanned(s: State, b: Id, r: Evaluation.SensorResult)
    requires Evaluation.RevisionEvaluated(s, b, r)
    ensures ProfileOf(s, b).Some?
  {
  }

  lemma InvUnique(h: Material -> string, s: State)
    requires Inv(h, s)
    ensures DirectUnique(s) && RevisionsUnique(s)
  {
    hide TaskIndex, StatusOk, CredentialsOk, CredentialsUnique;
  }

  lemma EvidenceFound(h: Material -> string, s: State, b: Id, x: Id, p: real, kind: string)
    requires Inv(h, s) && IsCurrent(s, x, b) && ProfileOf(s, b).Some?
    ensures PlanPoint(s, b, p) && Evaluation.EvidenceExceeds(s, b, x, p, kind) <==>
      exists f :: AutomaticAt(s, f, x, p, kind)
  {
    hide Inv, IsCurrent, IsEvidence;
    var plan := ProfileOf(s, b).value;
    if f :| AutomaticAt(s, f, x, p, kind) {
      var m := FoundedDirect(h, s, f);
      OwnBatch(h, s, b, x, m);
      Requests.MeasuredByPlan(h, s, m);
      DirectIsEvidence(s, m, x, p);
    }
    if m :| m in s.measurements && IsEvidence(s, m, x, p) && Evaluation.Exceeding(s.measurements[m], plan, kind) {
      TakenOverPasses(h, s, b, x, m, p);
      OwnBatch(h, s, b, x, m);
      Requests.MeasuredByPlan(h, s, m);
      Requests.FindingsMatch(h, s, m, kind);
    }
  }

  lemma FoundedDirect(h: Material -> string, s: State, f: Id) returns (m: Id)
    requires Inv(h, s) && f in s.findings && s.findings[f].origin == Automatic
    ensures DirectAt(s, m, s.findings[f].sensorID, s.findings[f].point)
    ensures Violating(s, s.measurements[m], s.findings[f].kind)
  {
    hide Frames, TaskIndex, StatusOk, CredentialsOk, CredentialsUnique;
    m :| DirectAt(s, m, s.findings[f].sensorID, s.findings[f].point) &&
        Violating(s, s.measurements[m], s.findings[f].kind);
  }

  lemma OwnBatch(h: Material -> string, s: State, b: Id, x: Id, m: Id)
    requires Inv(h, s) && IsCurrent(s, x, b) && m in s.measurements
    ensures x in s.sensors
    ensures s.measurements[m].sensorID == x ==> s.measurements[m].batchID == b
    ensures SameLineAs(s, m, x) ==> s.measurements[m].batchID == b
  {
    hide TaskIndex, StatusOk, CredentialsOk, CredentialsUnique, Frames;
    assert MeasurementOk(s, s.measurements[m]);
  }

  ghost predicate SameLineAs(s: State, m: Id, x: Id) {
    m in s.measurements && x in s.sensors && Earlier(s, s.measurements[m].sensorID, s.sensors[x])
  }

  lemma DirectIsEvidence(s: State, m: Id, x: Id, p: real)
    requires x in s.sensors && DirectAt(s, m, x, p)
    ensures IsEvidence(s, m, x, p)
  {
    hide Blocked, LatestPrevious;
  }

  lemma TakenOverPasses(h: Material -> string, s: State, b: Id, x: Id, m: Id, p: real)
    requires Inv(h, s) && IsCurrent(s, x, b) && IsEvidence(s, m, x, p)
    ensures DirectAt(s, m, x, p) || (Passing(s, s.measurements[m]) && SameLineAs(s, m, x))
  {
    hide Inv, Passing, IsCurrent, Earlier;
    if !HasDirect(s, x, p) {
      HistoryFacts(h, s);
      Consequences.NoneLaterThanCurrent(s, b, x, p);
      NotBlockedWithin(s, x, p);
      Consequences.UnblockedLatestPasses(s, m, x, p);
    }
  }

  lemma NotBlockedWithin(s: State, x: Id, p: real)
    requires x in s.sensors && !Blocked(s, s.sensors[x], p)
    ensures !BlockedInBatch(s, s.sensors[x], p)
  {
    forall f | OpenEarlier(s, f, s.sensors[x], p)
      ensures BlockedBy(s, f, s.sensors[x], p)
    {
    }
  }

  lemma HistoryFacts(h: Material -> string, s: State)
    requires Inv(h, s)
    ensures MeasurementsOk(s) && FailuresFound(s) && OpenUntilPassed(s) && RevisionsUnique(s)
  {
    hide TaskIndex, StatusOk, CredentialsOk, CredentialsUnique, MeasurementsOk, FailuresFound, OpenUntilPassed,
         RevisionsUnique;
  }

  // ---------- what the flags of a report promise ----------

  /** Every such command on the batch is answered Conflict. */
  ghost predicate AlwaysConflicts(h: Material -> string, s: State, b: Id, submission: bool) {
    forall c: Call ::
      c.cmd.batchID == b && EnoughIds(s, c.cmd) &&
          (if submission then c.cmd.Submit? && c.cmd.items != [] else c.cmd.Recalibrate?) ==>
        Execute(h, s, c.actor, c.cmd, c.now).error == Some(Conflict)
  }

  lemma SubmitFlag(h: Material -> string, s: State, b: Id)
    requires b in s.batches
    ensures !AlwaysConflicts(h, s, b, true) <==> s.batches[b].status in {PlanLocked, Sampling, Failed, Returned}
  {
    hide IsCurrent, FirstItemError, Covered, NoOpen, ApplyReadings;
    if TakesReadings(s.batches[b].status) {
      var unknown := Text.UnusedExist(s.sensors.Keys, 1);
      var c := Call("n", Submit(b, unknown[0], [Reading("", 0.0, [], ["", "", ""])], false), 1);
      assert Execute(h, s, c.actor, c.cmd, c.now).error == Some(Validation);
    }
  }

  lemma RecalibrateFlag(h: Material -> string, s: State, b: Id)
    requires b in s.batches
    ensures !AlwaysConflicts(h, s, b, false) <==> s.batches[b].status in {Failed, Returned}
  {
    hide IsCurrent, CarriesOpen, NewTasks, Text.Blank;
    if s.batches[b].status == Failed || s.batches[b].status == Returned {
      var unknown := Text.UnusedExist(s.sensors.Keys, 1);
      var n := if ProfileOf(s, b).Some? then |ProfileOf(s, b).value.points| else 0;
      var c := Call("n", Recalibrate(b, unknown[0], "n", "n", seq(n, _ => "n")), 1);
      assert Execute(h, s, c.actor, c.cmd, c.now).error == Some(Validation);
    }
  }

  ghost predicate CanApprove(h: Material -> string, s: State, b: Id) {
    exists c: Call :: c.cmd.Approve? && Succeeds(h, s, c, b)
  }

  lemma ApproveFlag(h: Material -> string, s: State, b: Id)
    requires Inv(h, s) && b in s.batches
    ensures CanApprove(h, s, b) <==> s.batches[b].status == ReadyReview
  {
    hide Core, CredentialsOk, CredentialsUnique, NoOpen, Fresh;
    if s.batches[b].status == ReadyReview {
      var c := ApproveAdvances(h, s, b);
      FreshEnough(s, c);
      assert c.cmd.Approve? && Succeeds(h, s, c, b);
    }
  }

  lemma IssueFlag(h: Material -> string, s: State, b: Id)
    requires Inv(h, s) && b in s.batches
    ensures CanFollow(h, s, b, "issue_credential") <==> s.batches[b].status == Status.Frozen && !HasCredential(s, b)
  {
    hide Core, StatusOk, NoOpen, Fresh, CredentialOk, MaterialOf, HasCredential;
    if s.batches[b].status == Status.Frozen && !HasCredential(s, b) {
      OpenAdvice(h, s, b, "issue_credential");
    }
  }

  /** Some command other than the issue of a credential can succeed. */
  ghost predicate CanChange(h: Material -> string, s: State, b: Id) {
    exists c: Call :: !c.cmd.Issue? && Succeeds(h, s, c, b)
  }

  /** A draft takes one more sensor, under a code not yet used. */
  lemma AnotherSensor(h: Material -> string, s: State, b: Id) returns (c: Call)
    requires IsDraft(s, b)
    ensures c.cmd.RegisterSensor? && Succeeds(h, s, c, b)
  {
    hide Text.Blank;
    NoteNotBlank();
    var ids := Text.UnusedExist(s.sensors.Keys, 1);
    var codes := set x | x in s.sensors :: s.sensors[x].code;
    var code := Text.UnusedExist(codes, 1);
    c := Call("n", RegisterSensor(b, ids[0], code[0], "n", "n", 0.0, 1.0), 1);
    forall x | x in s.sensors
      ensures s.sensors[x].code != code[0]
    {
      assert s.sensors[x].code in codes;
    }
  }

  lemma ChangeFlag(h: Material -> string, s: State, b: Id)
    requires Inv(h, s) && b in s.batches
    ensures CanChange(h, s, b) <==> !Sealed(s.batches[b].status)
  {
    hide Inv, Fresh, Execute, EnoughIds, Carrying, Missing;
    if s.batches[b].status == Draft {
      var c := AnotherSensor(h, s, b);
      assert !c.cmd.Issue? && Succeeds(h, s, c, b);
    } else if s.batches[b].status == ReadyReview {
      ApproveFlag(h, s, b);
      var c: Call :| c.cmd.Approve? && Succeeds(h, s, c, b);
      assert !c.cmd.Issue? && Succeeds(h, s, c, b);
    } else if OpenStatus(s.batches[b].status) {
      var c := NextOpenCall(h, s, b);
      FreshEnough(s, c);
      assert !c.cmd.Issue? && Succeeds(h, s, c, b);
    } else {
      SealedUnchanged(h, s, b);
    }
  }

  lemma SealedUnchanged(h: Material -> string, s: State, b: Id)
    requires b in s.batches && Sealed(s.batches[b].status)
    ensures !CanChange(h, s, b)
  {
    hide NoOpen, MaterialOf, Fresh, Covered, CorrectionsFail, ManualFindings, SortPoints, NewTasks;
  }

  /** The flags of a report say what requests can achieve: submissions and recalibrations are refused
      for the status alone exactly when their flag is off, a credential can be issued exactly when its
      flag is on, a batch can be reviewed exactly when someone can approve it and its coverage is
      complete, and it is immutable exactly when nothing but a credential can still be added to it. */
  lemma FlagsMean(h: Material -> string, s: State, b: Id, r: Readiness)
    requires Reachable(h, s) && b in s.batches && ReadinessOf(s, b, r)
    ensures !r.canSubmit <==> AlwaysConflicts(h, s, b, true)
    ensures !r.canRecalibrate <==> AlwaysConflicts(h, s, b, false)
    ensures r.canIssue <==> CanFollow(h, s, b, "issue_credential")
    ensures r.canReview <==> CanApprove(h, s, b) && Covered(s, b)
    ensures r.immutable <==> !CanChange(h, s, b)
  {
    hide Reachable, Inv, AlwaysConflicts, CanFollow, CanApprove, CanChange, Covered, NoOpen, HasCredential;
    ReachableInv(h, s);
    SubmitFlag(h, s, b);
    RecalibrateFlag(h, s, b);
    IssueFlag(h, s, b);
    ApproveFlag(h, s, b);
    ChangeFlag(h, s, b);
    ReadyNothingOpen(h, s, b);
  }

  lemma ReadyNothingOpen(h: Material -> string, s: State, b: Id)
    requires Inv(h, s) && b in s.batches
    ensures s.batches[b].status == ReadyReview ==> NoOpen(s, b)
  {
    hide Core, CredentialsOk, CredentialsUnique, NoOpen;
    assert StatusFits(s, b);
  }

  /** A batch in review has no blocker exactly when it can be reviewed. */
  lemma NoBlockerWhenReviewable(h: Material -> string, s: State, b: Id, r: Readiness)
    requires Reachable(h, s) && b in s.batches && ReadinessOf(s, b, r) && s.batches[b].status == ReadyReview
    ensures r.blockers == {} <==> r.canReview
  {
    hide Reachable, Core, StatusOk, CredentialsOk, CredentialsUnique, NoOpen, Covered, IsCurrent, PlanPoint,
        PointComplete;
    ReachableInv(h, s);
    ReadyNothingOpen(h, s, b);
    var x := HasCurrent(s, b);
    ReviewedSampled(h, s, b);
    CoveredPoints(s, b, x);
    InvPlanned(h, s, b);
    assert RightAbout(s, b, r.blockers, MissingMeasurement);
    if r.blockers != {} {
      var why :| why in r.blockers;
      assert RightAbout(s, b, r.blockers, why);
    }
  }

  /** What the blockers tell of a batch that is not yet frozen, and that later there are none. */
  lemma BlockersMean(h: Material -> string, s: State, b: Id, r: Readiness)
    requires Reachable(h, s) && b in s.batches && ReadinessOf(s, b, r)
    ensures Sealed(s.batches[b].status) ==> r.blockers == {}
    ensures !Sealed(s.batches[b].status) ==>
      && (PlanUnlocked in r.blockers <==> s.batches[b].status == Draft)
      && (NoSensors in r.blockers <==> s.batches[b].sensorIDs == [])
      && (MissingMeasurement in r.blockers <==> exists x, p ::
          IsCurrent(s, x, b) && PlanPoint(s, b, p) && !PointComplete(s, b, x, p))
      && (OpenFindings in r.blockers <==> !NoOpen(s, b))
      && (NoSamplingActor in r.blockers <==> s.batches[b].status != Draft && forall a :: !CapturedBy(s, b, a))
  {
    hide Reachable, IsCurrent, PlanPoint, PointComplete, CapturedBy;
    BlockerFacts(h, s, b);
    forall why | Sealed(s.batches[b].status)
      ensures why !in r.blockers
    {
      assert RightAbout(s, b, r.blockers, why);
    }
    assert RightAbout(s, b, r.blockers, PlanUnlocked) && RightAbout(s, b, r.blockers, NoSensors);
    assert RightAbout(s, b, r.blockers, MissingMeasurement) && RightAbout(s, b, r.blockers, OpenFindings);
    assert RightAbout(s, b, r.blockers, NoSamplingActor);
  }

  lemma BlockerFacts(h: Material -> string, s: State, b: Id)
    requires Reachable(h, s) && b in s.batches
    ensures s.batches[b].profileID == "" <==> s.batches[b].status == Draft
    ensures s.batches[b].status == Draft ==> NoOpen(s, b)
    ensures s.batches[b].sensorIDs == [] <==> forall x :: !IsCurrent(s, x, b)
    ensures s.batches[b].sampledBy == [] <==> forall a :: !CapturedBy(s, b, a)
  {
    hide Reachable, Inv, Core, IsCurrent, CapturedBy;
    ReachableInv(h, s);
    InvPlanned(h, s, b);
    if s.batches[b].status == Draft {
      DraftNothingOpen(h, s, b);
    }
    ListedCurrent(h, s, b);
    forall a
      ensures a in s.batches[b].sampledBy <==> CapturedBy(s, b, a)
    {
      SamplersExact(h, s, b, a);
    }
    assert s.batches[b].sampledBy != [] ==> s.batches[b].sampledBy[0] in s.batches[b].sampledBy;
  }

  lemma DraftNothingOpen(h: Material -> string, s: State, b: Id)
    requires Inv(h, s) && b in s.batches && s.batches[b].status == Draft
    ensures NoOpen(s, b)
  {
    hide TaskIndex, StatusOk, CredentialsOk, CredentialsUnique;
    InvPlanned(h, s, b);
    NoneUnplanned(s, b);
  }

  lemma NoneUnplanned(s: State, b: Id)
    requires FindingsOk(s) && Keyed(s) && b in s.batches && s.batches[b].profileID == ""
    ensures NoOpen(s, b)
  {
    forall f | f in s.findings
      ensures s.findings[f].batchID != b
    {
      assert FindingOk(s, s.findings[f]);
    }
  }

  lemma ListedCurrent(h: Material -> string, s: State, b: Id)
    requires Inv(h, s) && b in s.batches
    ensures s.batches[b].sensorIDs == [] <==> forall x :: !IsCurrent(s, x, b)
  {
    hide TaskIndex, StatusOk, CredentialsOk, CredentialsUnique, History, BatchesOk;
    if s.batches[b].sensorIDs != [] {
      assert s.batches[b].sensorIDs[0] in s.batches[b].sensorIDs;
      var c := Consequences.CurrentExists(s, s.batches[b].sensorIDs[0]);
    }
  }

  lemma CoveredPoints(s: State, b: Id, x: Id)
    requires IsCurrent(s, x, b) && ProfileOf(s, b).Some?
    ensures Covered(s, b) <==> !exists y, p :: IsCurrent(s, y, b) && PlanPoint(s, b, p) && !PointComplete(s, b, y, p)
  {
    hide IsCurrent, IsEvidence;
    if !exists y, p :: IsCurrent(s, y, b) && PlanPoint(s, b, p) && !PointComplete(s, b, y, p) {
      forall y, p | IsCurrent(s, y, b) && p in ProfileOf(s, b).value.points
        ensures PointComplete(s, b, y, p)
      {
        assert PlanPoint(s, b, p);
      }
    }
    if Covered(s, b) {
      forall y, p | IsCurrent(s, y, b) && PlanPoint(s, b, p)
        ensures PointComplete(s, b, y, p)
      {
      }
    }
  }

  /** Whoever is to review finds readings by somebody. */
  lemma ReviewedSampled(h: Material -> string, s: State, b: Id)
    requires Reachable(h, s) && b in s.batches && s.batches[b].status == ReadyReview
    ensures s.batches[b].sampledBy != []
  {
    hide Reachable, Core, StatusOk, CredentialsOk, CredentialsUnique, NoOpen, IsCurrent;
    ReachableInv(h, s);
    ReleaseSound(h, s, b);
    var x := HasCurrent(s, b);
    var p := SomePlanPoint(s, b);
    var m :| IsScopedEvidence(s, m, x, p) && |s.measurements[m].readings| == ProfileOf(s, b).value.repetitions;
    EvidenceInBatch(s, b, x, p, m);
    SamplersExact(h, s, b, s.measurements[m].capturedBy);
  }

  lemma SomePlanPoint(s: State, b: Id) returns (p: real)
    requires Core(s) && ProfileOf(s, b).Some?
    ensures PlanPoint(s, b, p)
  {
    hide History, TaskIndex;
    assert ProfileOk(s, ProfileOf(s, b).value);
    p := ProfileOf(s, b).value.points[0];
  }

  lemma EvidenceInBatch(s: State, b: Id, x: Id, p: real, m: Id)
    requires Core(s) && IsCurrent(s, x, b) && IsScopedEvidence(s, m, x, p)
    ensures m in s.measurements && CapturedBy(s, b, s.measurements[m].capturedBy)
  {
    hide TaskIndex, BlockedInBatch, FindingsOk, OpenUntilPassed, ResolvedOk, FailuresFound, FindingsFounded,
         PreviousMeasured, EverMeasured, SamplersOk, DirectUnique;
    assert MeasurementOk(s, s.measurements[m]);
  }

  // ---------- what the counts of a report promise ----------

  ghost function Pairs(xs: set<Id>, ps: seq<real>): set<(Id, real)> {
    set x, p | x in xs && p in ps :: (x, p)
  }

  lemma {:induction false} PairsSize(xs: set<Id>, ps: seq<real>)
    requires forall i, j :: 0 <= i < j < |ps| ==> ps[i] < ps[j]
    ensures |Pairs(xs, ps)| == |xs| * |ps|
  {
    if xs == {} {
      assert Pairs(xs, ps) == {};
    } else {
      hide Pairs;
      var x :| x in xs;
      PairsSize(xs - {x}, ps);
      OneRow(x, ps);
      RowApart(xs, x, ps);
    }
  }

  lemma RowApart(xs: set<Id>, x: Id, ps: seq<real>)
    requires x in xs
    ensures |Pairs(xs, ps)| == |Pairs(xs - {x}, ps)| + |Pairs({x}, ps)|
  {
    var others, row := Pairs(xs - {x}, ps), Pairs({x}, ps);
    assert Pairs(xs, ps) == others + row;
    assert others !! row;
  }

  lemma {:induction false} OneRow(x: Id, ps: seq<real>)
    requires forall i, j :: 0 <= i < j < |ps| ==> ps[i] < ps[j]
    ensures |Pairs({x}, ps)| == |ps|
  {
    if ps == [] {
      assert Pairs({x}, ps) == {};
    } else {
      var n := |ps| - 1;
      OneRow(x, ps[..n]);
      assert ps == ps[..n] + [ps[n]];
      assert Pairs({x}, ps) == Pairs({x}, ps[..n]) + {(x, ps[n])};
      assert (x, ps[n]) !in Pairs({x}, ps[..n]);
    }
  }

  lemma PairsOfPlan(h: Material -> string, s: State, b: Id)
    requires Inv(h, s) && ProfileOf(s, b).Some?
    ensures |Pairs(CurrentIds(s, b), ProfileOf(s, b).value.points)| == |CurrentIds(s, b)| * PlanSize(s, b)
  {
    hide Core, StatusOk, CredentialsOk, CredentialsUnique, IsCurrent;
    InvProfiles(h, s);
    PointsRise(s, b);
    PairsSize(CurrentIds(s, b), ProfileOf(s, b).value.points);
  }

  lemma InvProfiles(h: Material -> string, s: State)
    requires Inv(h, s)
    ensures ProfilesOk(s)
  {
    hide History, TaskIndex, StatusOk, CredentialsOk, CredentialsUnique, ProfilesOk;
  }

  /** The counts of a report are told apart by what they say: all points are complete exactly when the
      coverage is, no finding is counted exactly when none is open, and of the open findings those that
      are critical, the automatic ones among them, are counted again. */
  lemma CountsMean(h: Material -> string, s: State, b: Id, r: Readiness)
    requires Reachable(h, s) && b in s.batches && ReadinessOf(s, b, r) && s.batches[b].profileID != ""
    ensures r.completePoints <= r.requiredPoints
    ensures r.completePoints == r.requiredPoints <==> Covered(s, b)
    ensures r.openFindings == 0 <==> NoOpen(s, b)
    ensures r.criticalFindings <= r.openFindings
    ensures (forall f :: f in s.findings && s.findings[f].batchID == b && s.findings[f].status == Open ==>
               s.findings[f].origin == Automatic) ==> r.criticalFindings == r.openFindings
  {
    hide Reachable, Inv, NoOpen, Covered, IsCurrent, PointComplete, PlanPoint, BlockersOf;
    ReachableInv(h, s);
    InvPlanned(h, s, b);
    InvCurrent(h, s, b);
    var x :| IsCurrent(s, x, b);
    CoveredPoints(s, b, x);
    PairsOfPlan(h, s, b);
    OpenCounted(s, b);
    CompleteWithin(s, b);
    CriticalWithin(h, s, b);
  }

  lemma InvCurrent(h: Material -> string, s: State, b: Id)
    requires Inv(h, s) && b in s.batches && s.batches[b].status != Draft
    ensures ProfileOf(s, b).Some? && exists x :: IsCurrent(s, x, b)
  {
    hide Core, StatusOk, CredentialsOk, CredentialsUnique, IsCurrent;
    var x := HasCurrent(s, b);
  }

  lemma CompleteWithin(s: State, b: Id)
    requires ProfileOf(s, b).Some?
    ensures var all := Pairs(CurrentIds(s, b), ProfileOf(s, b).value.points);
      && |CompletePairs(s, b)| <= |all|
      && (|CompletePairs(s, b)| == |all| <==>
            !exists x, p :: IsCurrent(s, x, b) && PlanPoint(s, b, p) && !PointComplete(s, b, x, p))
  {
    hide IsCurrent, PointComplete;
    var some, all := CompletePairs(s, b), Pairs(CurrentIds(s, b), ProfileOf(s, b).value.points);
    forall x
      ensures x in CurrentIds(s, b) <==> IsCurrent(s, x, b)
    {
      CurrentHasRecord(s, x, b);
    }
    assert some <= all;
    PartSize(some, all);
    if some == all {
      forall x, p | IsCurrent(s, x, b) && PlanPoint(s, b, p)
        ensures PointComplete(s, b, x, p)
      {
        assert (x, p) in all;
      }
    }
  }

  lemma CurrentHasRecord(s: State, x: Id, b: Id)
    ensures IsCurrent(s, x, b) ==> x in s.sensors
  {
  }

  lemma PartSize<T>(a: set<T>, c: set<T>)
    requires a <= c
    ensures |a| <= |c| && (|a| == |c| <==> a == c)
  {
    assert c == a + (c - a);
  }

  lemma CriticalWithin(h: Material -> string, s: State, b: Id)
    requires Reachable(h, s)
    ensures |CriticalIds(s, b)| <= |OpenIds(s, b)|
    ensures (forall f :: f in s.findings && s.findings[f].batchID == b && s.findings[f].status == Open ==>
               s.findings[f].origin == Automatic) ==> CriticalIds(s, b) == OpenIds(s, b)
  {
    hide Reachable;
    PartSize(CriticalIds(s, b), OpenIds(s, b));
    forall f | f in OpenIds(s, b) && s.findings[f].origin == Automatic
      ensures f in CriticalIds(s, b)
    {
      AutomaticIsCritical(h, s, f);
    }
  }

  /** What a listed batch is shown with: its counts, its blockers, and a recommendation that can be
      followed exactly when `AdviceHolds`. */
  lemma ItemTells(h: Material -> string, s: State, bt: Batch, item: Item)
    requires Reachable(h, s) && ItemReports(s, bt, item) && s.batches[bt.id] == bt
    ensures item.currentSensors == |CurrentIds(s, bt.id)|
    ensures bt.profileID != "" ==>
      item.completePoints == |CompletePairs(s, bt.id)| && item.openFindings == |OpenIds(s, bt.id)|
    ensures BlockersOf(s, bt.id, item.blockers)
    ensures CanFollow(h, s, bt.id, item.nextAction) <==> AdviceHolds(s, bt.id)
  {
    hide Reachable, CanFollow, AdviceHolds, BlockersOf, IsCurrent, CompletePairs, OpenIds, Covered, NoOpen;
    var r :| ReadinessOf(s, bt.id, r) && item.nextAction == NextBatchAction(bt, r)
      && item == Item(bt, r.currentSensors, r.completePoints, r.openFindings, NextBatchAction(bt, r), r.blockers);
    AdviceExactly(h, s, bt.id, r);
  }

  // ---------- coverage of returned batches ----------

  /** A returned batch with nothing open has, within the batch, complete and passing evidence. */
  lemma ReturnedSettledCovered(h: Material -> string, s: State, b: Id)
    requires Reachable(h, s) && b in s.batches && s.batches[b].status == Returned && NoOpen(s, b)
    ensures ScopedCovered(s, b)
    ensures forall x, p :: IsCurrent(s, x, b) && PlanPoint(s, b, p) ==> Proven(s, b, x, p)
  {
    hide Reachable, Core, StatusOk, CredentialsOk, CredentialsUnique, NoOpen, IsCurrent, IsScopedEvidence, Passing;
    ReachableInv(h, s);
    var first := HasCurrent(s, b);
    forall x, p | IsCurrent(s, x, b) && PlanPoint(s, b, p)
      ensures Proven(s, b, x, p)
    {
      SettledProven(s, b, x, p);
    }
    ProvenCovered(s, b, first);
  }

  lemma ProvenCovered(s: State, b: Id, first: Id)
    requires ProfileOf(s, b).Some? && IsCurrent(s, first, b)
    requires forall x, p :: IsCurrent(s, x, b) && PlanPoint(s, b, p) ==> Proven(s, b, x, p)
    ensures ScopedCovered(s, b)
  {
    hide IsCurrent, HasDirect, BlockedInBatch, Passing;
    forall x, p | IsCurrent(s, x, b) && p in ProfileOf(s, b).value.points
      ensures exists m :: IsScopedEvidence(s, m, x, p) && |s.measurements[m].readings| == ProfileOf(s, b).value.repetitions
    {
      assert PlanPoint(s, b, p);
      assert Proven(s, b, x, p);
    }
  }

  /** The evidence of a returned batch with nothing open is complete exactly when nothing hides it. */
  lemma SettledCoveredExactly(h: Material -> string, s: State, b: Id)
    requires Reachable(h, s) && b in s.batches && s.batches[b].status == Returned && NoOpen(s, b)
    ensures Covered(s, b) <==> NothingHidden(s, b)
  {
    hide Reachable, NoOpen, ScopedCovered, NothingHidden, Covered;
    ReturnedSettledCovered(h, s, b);
    if Covered(s, b) {
      CoveredNothingHidden(s, b);
    }
    if NothingHidden(s, b) {
      NothingHiddenCovered(s, b);
    }
  }

  lemma CoveredNothingHidden(s: State, b: Id)
    requires Covered(s, b)
    ensures NothingHidden(s, b)
  {
    hide IsCurrent, HasDirect, Blocked;
    forall x, p | IsCurrent(s, x, b) && PlanPoint(s, b, p) && !HasDirect(s, x, p)
      ensures !Blocked(s, s.sensors[x], p)
    {
      var m :| IsEvidence(s, m, x, p);
    }
  }

  lemma NothingHiddenCovered(s: State, b: Id)
    requires ScopedCovered(s, b) && NothingHidden(s, b)
    ensures Covered(s, b)
  {
    hide IsCurrent, HasDirect, BlockedInBatch, Blocked;
    forall x, p | IsCurrent(s, x, b) && p in ProfileOf(s, b).value.points
      ensures PointComplete(s, b, x, p)
    {
      assert PlanPoint(s, b, p);
      var m :| IsScopedEvidence(s, m, x, p) && |s.measurements[m].readings| == ProfileOf(s, b).value.repetitions;
      assert IsEvidence(s, m, x, p);
    }
  }

  ghost predicate CodesUnshared(s: State, b: Id) {
    forall x :: IsCurrent(s, x, b) ==> Consequences.CodeUnshared(s, s.sensors[x])
  }

  /** As long as no other batch uses a sensor code of the batch, a returned batch with nothing open
      can be sent to review again. */
  lemma UnsharedCanResubmit(h: Material -> string, s: State, b: Id)
    requires Reachable(h, s) && b in s.batches && s.batches[b].status == Returned && NoOpen(s, b) && CodesUnshared(s, b)
    ensures CanFollow(h, s, b, "resubmit_review")
  {
    hide Reachable, Inv, NoOpen, CanFollow;
    ReturnedSettledCovered(h, s, b);
    UnsharedCovered(s, b);
    ReachableInv(h, s);
    ReturnedAdvice(h, s, b);
  }

  lemma UnsharedCovered(s: State, b: Id)
    requires ScopedCovered(s, b) && CodesUnshared(s, b)
    ensures Covered(s, b)
  {
    hide IsCurrent, Consequences.CodeUnshared, HasDirect, BlockedInBatch, Blocked;
    forall x, p | IsCurrent(s, x, b) && p in ProfileOf(s, b).value.points
      ensures exists m :: IsEvidence(s, m, x, p) && |s.measurements[m].readings| == ProfileOf(s, b).value.repetitions
    {
      var m :| IsScopedEvidence(s, m, x, p) && |s.measurements[m].readings| == ProfileOf(s, b).value.repetitions;
      CurrentInside(s, x, b);
      Consequences.UnsharedEvidenceAgrees(s, m, x, p);
    }
  }

  lemma CurrentInside(s: State, x: Id, b: Id)
    requires IsCurrent(s, x, b)
    ensures x in s.sensors
  {
  }

  // ---------- reviewers ----------

  predicate ReviewerEligible(r: Readiness, actor: string) {
    actor != "" && r.canReview && actor !in r.samplingActors
  }

  /** Whom the report calls eligible can approve, and whoever can approve is called eligible unless
      a finding of another batch with the same sensor code hides inherited evidence. */
  lemma EligibleExactly(s: State, b: Id, r: Readiness, actor: string, comment: string, now: Time)
    requires b in s.batches && ReadinessOf(s, b, r) && actor != ""
    ensures ReviewerEligible(r, actor) <==> Covered(s, b) && ApproveReviewStep(s, b, actor, comment, now).error == None
  {
    hide NoOpen, Covered;
    assert actor in r.samplingActors <==> actor in Text.Elements(r.samplingActors);
    assert actor in s.batches[b].sampledBy <==> actor in Text.Elements(s.batches[b].sampledBy);
  }
}
