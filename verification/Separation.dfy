/** Separation of duties and the other refusals that do not depend on what a request contains. */
module Separation {
  import opened Entities
  import opened Evidence
  import opened Frozen
  import Text
  import opened Domain
  import opened Invariant
  import opened Runs
  import opened Guarantees

  // ---------- whoever sampled does not review ----------

  /** A review by someone who captured a measurement of the batch, of a batch that can be reviewed. */
  ghost predicate ReviewsOwnWork(s: State, c: Call) {
    match c.cmd
    case SendBack(b, _, _) =>
      && b in s.batches && (s.batches[b].status == ReadyReview || s.batches[b].status == Failed)
      && CapturedBy(s, b, c.actor)
    case Approve(b, _, corrections) =>
      corrections == [] && b in s.batches && s.batches[b].status == ReadyReview && CapturedBy(s, b, c.actor)
    case _ => false
  }

  lemma ReviewFacts(h: Material -> string, s: State, b: Id, actor: string)
    requires Reachable(h, s) && b in s.batches
    ensures HasSampler(s.batches[b], actor) <==> CapturedBy(s, b, actor)
    ensures s.batches[b].status == ReadyReview ==> NoOpen(s, b)
  {
    hide Reachable, Core, CredentialsOk, CredentialsUnique;
    SamplersExact(h, s, b, actor);
    ReachableInv(h, s);
    assert StatusFits(s, b);
  }

  /** In every state of every run a request is answered Forbidden exactly when its actor reviews a batch
      of which they captured a measurement. */
  lemma ForbiddenExactly(h: Material -> string, s: State, c: Call)
    requires Reachable(h, s) && Fresh(s, c) && EnoughIds(s, c.cmd)
    ensures Execute(h, s, c.actor, c.cmd, c.now).error == Some(Forbidden) <==> ReviewsOwnWork(s, c)
  {
    hide Reachable, Fresh, CapturedBy, NoOpen, CorrectionsFail, ManualFindings, CorrectionIds, MaterialOf, IsCurrent,
         PointComplete, HasCredential, CarriesOpen, NewTasks, CodeRegistered, SortPoints, Repeats;
    hide SubmitStep;
    if c.cmd.batchID in s.batches {
      ReviewFacts(h, s, c.cmd.batchID, c.actor);
    }
    if c.cmd.Submit? {
      NotForbidden(s, c);
    }
  }

  lemma NotForbidden(s: State, c: Call)
    requires c.cmd.Submit? && EnoughIds(s, c.cmd)
    ensures SubmitStep(s, c.cmd.batchID, c.cmd.sensorID, c.actor, c.cmd.items, c.now).error != Some(Forbidden)
  {
    hide IsCurrent, ItemError, ApplyReadings, Covered, NoOpen, FirstItemError;
    if c.cmd.sensorID in s.sensors {
      ItemsNotForbidden(s, c.cmd.batchID, c.cmd.sensorID, c.actor, c.cmd.items, |c.cmd.items|);
    }
  }

  lemma {:induction false} ItemsNotForbidden(s: State, b: Id, x: Id, actor: string, items: seq<Reading>, n: nat)
    requires x in s.sensors && n <= |items|
    ensures var e := FirstItemError(s, b, x, actor, items, n); e != Some(Forbidden) && e != Some(NotFound)
  {
    hide PlanPoint, HasDirect;
    if n > 0 {
      ItemsNotForbidden(s, b, x, actor, items, n - 1);
    }
  }

  /** Nobody who captured a measurement of a batch approves it or sends it back. */
  lemma ReviewerCapturedNone(h: Material -> string, s: State, c: Call)
    requires Reachable(h, s) && Fresh(s, c) && EnoughIds(s, c.cmd) && (c.cmd.Approve? || c.cmd.SendBack?)
    requires Execute(h, s, c.actor, c.cmd, c.now).error == None
    ensures !CapturedBy(s, c.cmd.batchID, c.actor)
  {
    hide Reachable, Fresh, CapturedBy, NoOpen, CorrectionsFail, ManualFindings, CorrectionIds, ReviewsOwnWork;
    ReviewFacts(h, s, c.cmd.batchID, c.actor);
  }

  // ---------- the review records of a run ----------

  ghost predicate RecordFits(s: State, r: Review, c: Call) {
    && r.batchID == c.cmd.batchID && r.reviewer == c.actor && r.at == c.now
    && (r.decision == Approved || r.decision == SentBack ==> !CapturedBy(s, r.batchID, r.reviewer))
  }

  /** A step adds review records of its own actor only, who, when approving or returning, has captured
      no measurement of the batch before that step. */
  lemma StepReviews(h: Material -> string, s: State, c: Call)
    requires Reachable(h, s) && Fresh(s, c)
    ensures s.reviews <= Step(h, s, c).reviews
    ensures forall i :: |s.reviews| <= i < |Step(h, s, c).reviews| ==> RecordFits(s, Step(h, s, c).reviews[i], c)
  {
    hide Reachable, Fresh, CapturedBy, Execute, EnoughIds;
    if EnoughIds(s, c.cmd) && Execute(h, s, c.actor, c.cmd, c.now).error == None {
      if c.cmd.Approve? || c.cmd.SendBack? {
        ReviewerCapturedNone(h, s, c);
      }
      RecordAdded(h, s, c);
    }
  }

  lemma RecordAdded(h: Material -> string, s: State, c: Call)
    requires EnoughIds(s, c.cmd) && Execute(h, s, c.actor, c.cmd, c.now).error == None
    requires c.cmd.Approve? || c.cmd.SendBack? ==> !CapturedBy(s, c.cmd.batchID, c.actor)
    ensures var t := Execute(h, s, c.actor, c.cmd, c.now).state;
      s.reviews <= t.reviews && forall i :: |s.reviews| <= i < |t.reviews| ==> RecordFits(s, t.reviews[i], c)
  {
    hide RecordFits, CreateBatchStep, RegisterSensorStep, LockProfileStep, RecalibrateStep, ApproveReviewStep,
         ReturnStep, ResubmitStep, IssueStep, CapturedBy, SubmitStep;
    match c.cmd
    case CreateBatch(_, _, _) => NoneByPreparation(h, s, c);
    case RegisterSensor(_, _, _, _, _, _, _) => NoneByPreparation(h, s, c);
    case LockProfile(_, _, _, _, _, _, _) => NoneByPreparation(h, s, c);
    case Submit(_, _, _, _) => NoneBySubmission(s, c);
    case Recalibrate(_, _, _, _, _) => NoneByPreparation(h, s, c);
    case Approve(_, _, _) => OneByReview(h, s, c);
    case SendBack(_, _, _) => OneByReview(h, s, c);
    case Resubmit(_, _) => OneByReview(h, s, c);
    case Issue(_, _) => NoneByPreparation(h, s, c);
  }

  lemma NoneByPreparation(h: Material -> string, s: State, c: Call)
    requires EnoughIds(s, c.cmd) && Execute(h, s, c.actor, c.cmd, c.now).error == None
    requires c.cmd.CreateBatch? || c.cmd.RegisterSensor? || c.cmd.LockProfile? || c.cmd.Recalibrate? || c.cmd.Issue?
    ensures Execute(h, s, c.actor, c.cmd, c.now).state.reviews == s.reviews
  {
    hide NoOpen, MaterialOf, IsCurrent, HasCredential, CarriesOpen, NewTasks, CodeRegistered, SortPoints, Repeats,
         RecalibrateStep, Text.Blank, InRange;
    if c.cmd.Recalibrate? {
      NoneByRenewal(s, c);
    }
  }

  lemma NoneByRenewal(s: State, c: Call)
    requires EnoughIds(s, c.cmd) && c.cmd.Recalibrate?
    ensures RecalibrateStep(s, c.cmd.batchID, c.cmd.sensorID, c.cmd.id, c.cmd.note, c.cmd.taskIDs,
        c.now).state.reviews ==
        s.reviews
  {
    hide IsCurrent, CarriesOpen, NewTasks, Text.Blank;
  }

  lemma OneByReview(h: Material -> string, s: State, c: Call)
    requires EnoughIds(s, c.cmd) && Execute(h, s, c.actor, c.cmd, c.now).error == None
    requires c.cmd.Approve? || c.cmd.SendBack? || c.cmd.Resubmit?
    requires !c.cmd.Resubmit? ==> !CapturedBy(s, c.cmd.batchID, c.actor)
    ensures var t := Execute(h, s, c.actor, c.cmd, c.now).state;
      s.reviews <= t.reviews && |t.reviews| == |s.reviews| + 1 && RecordFits(s, t.reviews[|s.reviews|], c)
  {
    hide CapturedBy, RecordFits, ApproveReviewStep, ReturnStep, ResubmitStep;
    match c.cmd
    case Approve(_, _, _) => OneByApproval(s, c);
    case SendBack(_, _, _) => OneByReturn(s, c);
    case Resubmit(_, _) => OneByResubmission(s, c);
    case _ =>
  }

  lemma OneByApproval(s: State, c: Call)
    requires c.cmd.Approve? && ApproveReviewStep(s, c.cmd.batchID, c.actor, c.cmd.comment, c.now).error == None
    requires !CapturedBy(s, c.cmd.batchID, c.actor)
    ensures var t := ApproveReviewStep(s, c.cmd.batchID, c.actor, c.cmd.comment, c.now).state;
      s.reviews <= t.reviews && |t.reviews| == |s.reviews| + 1 && RecordFits(s, t.reviews[|s.reviews|], c)
  {
    hide CapturedBy, NoOpen;
  }

  lemma OneByReturn(s: State, c: Call)
    requires c.cmd.SendBack? && !CapturedBy(s, c.cmd.batchID, c.actor)
    requires ReturnStep(s, c.cmd.batchID, c.actor, c.cmd.comment, c.cmd.corrections, c.now).error == None
    ensures var t := ReturnStep(s, c.cmd.batchID, c.actor, c.cmd.comment, c.cmd.corrections, c.now).state;
      s.reviews <= t.reviews && |t.reviews| == |s.reviews| + 1 && RecordFits(s, t.reviews[|s.reviews|], c)
  {
    hide CapturedBy, CorrectionsFail, ManualFindings, CorrectionIds;
  }

  lemma OneByResubmission(s: State, c: Call)
    requires c.cmd.Resubmit? && ResubmitStep(s, c.cmd.batchID, c.actor, c.cmd.comment, c.now).error == None
    ensures var t := ResubmitStep(s, c.cmd.batchID, c.actor, c.cmd.comment, c.now).state;
      s.reviews <= t.reviews && |t.reviews| == |s.reviews| + 1 && RecordFits(s, t.reviews[|s.reviews|], c)
  {
    hide CapturedBy, NoOpen, IsCurrent, PointComplete;
  }

  lemma NoneBySubmission(s: State, c: Call)
    requires c.cmd.Submit? && EnoughIds(s, c.cmd)
    ensures SubmitStep(s, c.cmd.batchID, c.cmd.sensorID, c.actor, c.cmd.items, c.now).state.reviews == s.reviews
  {
    hide SubmitError, ApplyReadings, Covered, NoOpen;
    var b, x, items := c.cmd.batchID, c.cmd.sensorID, c.cmd.items;
    if SubmitError(s, b, x, c.actor, items) == None {
      PlanNeeded(s, b, x, c.actor, items);
    }
  }

  lemma {:induction false} PrefixReachable(h: Material -> string, calls: seq<Call>)
    requires FreshFrom(h, EMPTY, calls)
    ensures Reachable(h, RunFrom(h, EMPTY, calls))
  {
    assert Reaches(h, EMPTY, calls, RunFrom(h, EMPTY, calls));
  }

  /** Every review record of every run was added by one step of it, whose actor is the reviewer and,
      for an approval or a return, had captured none of the batch's measurements by then. */
  lemma {:induction false} RecordsSeparate(h: Material -> string, calls: seq<Call>, i: nat) returns (k: nat)
    requires FreshFrom(h, EMPTY, calls) && i < |RunFrom(h, EMPTY, calls).reviews|
    ensures k < |calls| && FreshFrom(h, EMPTY, calls[..k])
    ensures var before := RunFrom(h, EMPTY, calls[..k]);
      |before.reviews| <= i && RecordFits(before, RunFrom(h, EMPTY, calls).reviews[i], calls[k])
  {
    hide Fresh, Step, RecordFits, Reachable;
    if calls != [] {
      var n := |calls| - 1;
      var before := RunFrom(h, EMPTY, calls[..n]);
      PrefixReachable(h, calls[..n]);
      StepReviews(h, before, calls[n]);
      if i < |before.reviews| {
        k := RecordsSeparate(h, calls[..n], i);
        assert calls[..n][..k] == calls[..k];
      } else {
        k := n;
      }
    }
  }

  // ---------- missing batches and wrong statuses ----------

  /** A request is answered NotFound exactly when it names a batch that does not exist, unless it is
      refused for its form before. */
  lemma NotFoundExactly(h: Material -> string, s: State, c: Call)
    requires Reachable(h, s) && Fresh(s, c) && EnoughIds(s, c.cmd)
    ensures Execute(h, s, c.actor, c.cmd, c.now).error == Some(NotFound) <==>
      && !c.cmd.CreateBatch? && c.cmd.batchID !in s.batches
      && (c.cmd.Submit? ==> c.cmd.items != []) && (c.cmd.Approve? ==> c.cmd.corrections == [])
  {
    hide Reachable, Fresh, NoOpen, CorrectionsFail, ManualFindings, CorrectionIds, MaterialOf, IsCurrent, PointComplete,
         HasCredential, CarriesOpen, NewTasks, CodeRegistered, SortPoints, Repeats, SubmitStep;
    if c.cmd.Submit? {
      SubmissionFound(s, c);
    }
  }

  lemma SubmissionFound(s: State, c: Call)
    requires c.cmd.Submit? && EnoughIds(s, c.cmd)
    ensures SubmitStep(s, c.cmd.batchID, c.cmd.sensorID, c.actor, c.cmd.items, c.now).error == Some(NotFound) <==>
      c.cmd.batchID !in s.batches && c.cmd.items != []
  {
    hide IsCurrent, ItemError, ApplyReadings, Covered, NoOpen, FirstItemError;
    if c.cmd.sensorID in s.sensors {
      ItemsNotForbidden(s, c.cmd.batchID, c.cmd.sensorID, c.actor, c.cmd.items, |c.cmd.items|);
    }
  }

  /** The statuses in which a command can be carried out at all. */
  predicate Admits(st: Status, cmd: Command) {
    match cmd
    case CreateBatch(_, _, _) => false
    case RegisterSensor(_, _, _, _, _, _, _) => st == Draft
    case LockProfile(_, _, _, _, _, _, _) => st == Draft
    case Submit(_, _, _, _) => st in {PlanLocked, Sampling, Failed, Returned}
    case Recalibrate(_, _, _, _, _) => st in {Failed, Returned}
    case Approve(_, _, _) => st == ReadyReview
    case SendBack(_, _, _) => st in {ReadyReview, Failed}
    case Resubmit(_, _) => st == Returned
    case Issue(_, _) => st == Status.Frozen
  }

  /** A command on a batch whose status does not admit it is a conflict, unless it is refused for its
      form, or an approval for an open finding, before. */
  lemma WrongStatusConflicts(h: Material -> string, s: State, c: Call)
    requires Fresh(s, c) && EnoughIds(s, c.cmd) && c.cmd.batchID in s.batches
    requires !Admits(s.batches[c.cmd.batchID].status, c.cmd)
    requires c.cmd.Submit? ==> c.cmd.items != []
    requires c.cmd.Approve? ==> c.cmd.corrections == [] && NoOpen(s, c.cmd.batchID)
    ensures Execute(h, s, c.actor, c.cmd, c.now).error == Some(Conflict)
  {
    hide Fresh, NoOpen, CorrectionsFail, ManualFindings, CorrectionIds, MaterialOf, IsCurrent, PointComplete,
         HasCredential, CarriesOpen, NewTasks, CodeRegistered, SortPoints, Repeats, ApplyReadings, Covered,
         FirstItemError;
  }
}
