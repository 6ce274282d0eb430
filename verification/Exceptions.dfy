/** Two runs in which the recommendation of the queue cannot be carried out: a returned batch that
    waits for retests only, and a returned batch with nothing open whose inherited evidence is
    hidden by a finding of another batch. */
module Exceptions {
  import opened Entities
  import opened Statistics
  import opened Evidence
  import opened Frozen
  import opened Text
  import opened Domain
  import opened Invariant
  import opened StatusChange
  import opened Submission
  import opened Renewal
  import opened Runs
  import Guarantees
  import opened Release
  import opened Requests
  import opened Drafts
  import opened Advice

  // ---------- making a run longer ----------

  lemma SucceedsWhen(h: Material -> string, s: State, c: Call)
    requires Fresh(s, c) && EnoughIds(s, c.cmd) && Execute(h, s, c.actor, c.cmd, c.now).error == None
    ensures Succeeds(h, s, c, c.cmd.batchID)
  {
    hide Execute, Fresh, EnoughIds;
  }

  lemma SucceedsSteps(h: Material -> string, s: State, c: Call, b: Id)
    requires Succeeds(h, s, c, b)
    ensures Step(h, s, c) == Execute(h, s, c.actor, c.cmd, c.now).state
  {
    hide Execute, Fresh;
  }

  lemma StaysOpen(h: Material -> string, s: State, c: Call, b: Id)
    requires Succeeds(h, s, c, b) && b in s.batches && OpenStatus(s.batches[b].status)
    requires (c.cmd.Submit? || c.cmd.Recalibrate? || c.cmd.Resubmit?)
    ensures var t := Step(h, s, c); b in t.batches && (OpenStatus(t.batches[b].status) || t.batches[b].status == ReadyReview)
  {
    hide NoOpen, Covered, SubmitError, ApplyReadings, NewTasks, IsCurrent, CarriesOpen;
    if c.cmd.Submit? {
      SubmitAccepted(s, b, c.cmd.sensorID, c.actor, c.cmd.items, c.now);
      PlanNeeded(s, b, c.cmd.sensorID, c.actor, c.cmd.items);
    }
  }

  /** A command on a batch that exists creates none. */
  lemma NoneCreated(h: Material -> string, s: State, c: Call)
    requires Inv(h, s) && Fresh(s, c) && c.cmd.batchID in s.batches
    ensures Step(h, s, c).batches.Keys == s.batches.Keys
  {
    hide Inv, Fresh, Execute, EnoughIds, OthersKept;
    ExecuteKeeps(h, s, c);
  }

  lemma {:induction false} ReviewReached(h: Material -> string, s: State, b: Id) returns (t: State)
    requires Reachable(h, s) && b in s.batches
    requires (OpenStatus(s.batches[b].status) || s.batches[b].status == ReadyReview)
    ensures Reachable(h, t) && b in t.batches && t.batches[b].status == ReadyReview && t.batches.Keys == s.batches.Keys
    decreases |Carrying(s, b)|, |Missing(s, b)|, RankOf(s, b)
  {
    hide Reachable, Inv, Fresh, Execute, Carrying, Missing, EnoughIds;
    if s.batches[b].status == ReadyReview {
      t := s;
    } else {
      ReachableInv(h, s);
      var c := NextOpenCall(h, s, b);
      FreshEnough(s, c);
      SucceedsSteps(h, s, c, b);
      StaysOpen(h, s, c, b);
      NoneCreated(h, s, c);
      ReachNext(h, s, c);
      t := ReviewReached(h, Step(h, s, c), b);
    }
  }

  /** Some run brings its only batch to review. */
  lemma SomeReview(h: Material -> string) returns (s: State, b: Id)
    ensures Reachable(h, s) && b in s.batches && s.batches[b].status == ReadyReview && s.batches.Keys == {b}
  {
    hide Reachable, Inv, Fresh, Execute, EnoughIds, RangesMeet, Owned, Blank;
    NoteNotBlank();
    b := "n";
    var c := Call("n", CreateBatch(b, "n", "n"), 1);
    var s1 := FirstBatch(h, c, b);
    var c2 := RegisterCall(h, s1, b);
    SucceedsSteps(h, s1, c2, b);
    ReachableInv(h, s1);
    NoneCreated(h, s1, c2);
    ReachNext(h, s1, c2);
    var s2 := Step(h, s1, c2);
    var c3 := LockCall(h, s2, b);
    SucceedsSteps(h, s2, c3, b);
    ReachableInv(h, s2);
    NoneCreated(h, s2, c3);
    ReachNext(h, s2, c3);
    s := ReviewReached(h, Step(h, s2, c3), b);
  }

  lemma NoneYet(h: Material -> string)
    ensures Reachable(h, EMPTY)
  {
    assert Reaches(h, EMPTY, [], EMPTY);
  }

  lemma FirstBatch(h: Material -> string, c: Call, b: Id) returns (s: State)
    requires c == Call("n", CreateBatch(b, "n", "n"), 1) && b == "n" && !Blank("n")
    ensures Reachable(h, s) && IsDraft(s, b) && Owned(s, b) == {} && s.batches.Keys == {b}
  {
    hide Reachable, Blank;
    NoneYet(h);
    ReachNext(h, EMPTY, c);
    s := Step(h, EMPTY, c);
  }

  // ---------- a returned batch that waits for retests only ----------

  /** Returned with open findings, all of them at one point of one current revision. */
  ghost predicate SentBackAt(s: State, b: Id, x: Id, p: real) {
    && b in s.batches && s.batches[b].status == Returned && IsCurrent(s, x, b) && CarriesOpen(s, x)
    && forall f :: f in s.findings && s.findings[f].batchID == b && s.findings[f].status == Open ==>
        s.findings[f].sensorID == x && s.findings[f].point == p
  }

  lemma CorrectionAccepted(s: State, b: Id, reviewer: string, c: Correction, now: Time)
    requires b in s.batches && s.batches[b].status == ReadyReview && IsCurrent(s, c.sensorID, b)
    requires PlanPoint(s, b, c.point)
    requires !HasSampler(s.batches[b], reviewer) && !Blank(c.kind) && !Blank(c.severity) && !Blank(c.message)
    requires c.id != "" && c.id !in s.findings
    ensures var o := ReturnStep(s, b, reviewer, "", [c], now);
      && o.error == None && b in o.state.batches &&
          o.state.batches[b] == s.batches[b].(status := Returned, version := s.batches[b].version + 1)
      && o.state == s.(batches := o.state.batches, reviews := o.state.reviews,
          findings := s.findings[c.id := ManualFinding(b, c, reviewer)])
  {
    hide Blank, IsCurrent, PlanPoint;
    assert CorrectionError(s, b, [c], 0) == None;
    assert [c][..0] == [];
    assert ManualFindings(b, [c], reviewer) == map[c.id := ManualFinding(b, c, reviewer)];
  }

  lemma OneCorrection(s: State, b: Id, reviewer: string, c: Correction, now: Time)
    requires b in s.batches && s.batches[b].status == ReadyReview && NoOpen(s, b) && IsCurrent(s, c.sensorID, b)
    requires PlanPoint(s, b, c.point)
    requires !HasSampler(s.batches[b], reviewer) && !Blank(c.kind) && !Blank(c.severity) && !Blank(c.message)
    requires c.id != "" && c.id !in s.findings
    ensures var o := ReturnStep(s, b, reviewer, "", [c], now);
      && o.error == None && SentBackAt(o.state, b, c.sensorID, c.point)
      && o.state.sensors == s.sensors && o.state.measurements == s.measurements &&
          ProfileOf(o.state, b) == ProfileOf(s, b)
  {
    hide Blank, ReturnStep, PlanPoint;
    CorrectionAccepted(s, b, reviewer, c, now);
    assert OpenAt(ReturnStep(s, b, reviewer, "", [c], now).state, c.id, c.sensorID);
  }

  lemma SendingBackReached(h: Material -> string, s: State, b: Id, x: Id, p: real) returns (t: State)
    requires Reachable(h, s) && b in s.batches && s.batches[b].status == ReadyReview && NoOpen(s, b)
    requires IsCurrent(s, x, b) && PlanPoint(s, b, p)
    ensures Reachable(h, t) && SentBackAt(t, b, x, p) && t.sensors == s.sensors &&
        t.measurements == s.measurements && ProfileOf(t, b) == ProfileOf(s, b) && t.batches.Keys == s.batches.Keys
  {
    hide Reachable, Blank, NoOpen, IsCurrent, PlanPoint, SentBackAt, ReturnStep, Inv;
    NoteNotBlank();
    var actors := UnusedExist(Elements(s.batches[b].sampledBy), 1);
    var ids := UnusedExist(s.findings.Keys, 1);
    var correction := Correction(ids[0], x, p, "n", "n", "n");
    var c := Call(actors[0], SendBack(b, "", [correction]), 1);
    OneCorrection(s, b, c.actor, correction, 1);
    ReachableInv(h, s);
    NoneCreated(h, s, c);
    ReachNext(h, s, c);
    t := Step(h, s, c);
  }

  /** Returned with open findings, but only on superseded revisions: a retest of `x` is awaited. */
  ghost predicate AwaitsRetest(s: State, b: Id, x: Id, p: real) {
    && b in s.batches && s.batches[b].status == Returned && IsCurrent(s, x, b) && s.sensors[x].revision > 1
    && !NoOpen(s, b) && Carrying(s, b) == {} && (forall q :: !HasDirect(s, x, q))
    && forall f :: f in s.findings && s.findings[f].batchID == b && s.findings[f].status == Open ==>
        OpenEarlier(s, f, s.sensors[x], p)
  }

  lemma SingleCarrier(s: State, b: Id, x: Id, p: real)
    requires FindingsOk(s) && SentBackAt(s, b, x, p)
    ensures Carrying(s, b) == {x}
  {
    forall y | y in Carrying(s, b)
      ensures y == x
    {
      var f :| OpenAt(s, f, y);
      assert FindingOk(s, s.findings[f]);
    }
  }

  lemma CarrierOpen(s: State, b: Id, x: Id) returns (f: Id)
    requires FindingsOk(s) && IsCurrent(s, x, b) && CarriesOpen(s, x)
    ensures OpenAt(s, f, x) && s.findings[f].batchID == b
  {
    f :| OpenAt(s, f, x);
    assert FindingOk(s, s.findings[f]);
  }

  lemma RenewedAwaits(s: State, t: State, b: Id, x: Id, id: Id, p: real)
    requires SentBackAt(s, b, x, p) && Renewed(s, t, b, x, id)
    requires FindingsOk(s) && RevisionsUnique(s) && RangesOk(s) && SensorsOk(s) && MeasurementsOk(s)
    ensures AwaitsRetest(t, b, id, p)
  {
    SingleCarrier(s, b, x, p);
    RenewedCarries(s, t, b, x, id);
    RenewedUnique(s, t, b, x, id);
    var f := CarrierOpen(s, b, x);
    assert SensorOk(s, s.sensors[x]);
    forall q
      ensures !HasDirect(t, id, q)
    {
      NewUnmeasured(s, t, b, x, id, q);
    }
    assert f in t.findings && t.findings[f].batchID == b && t.findings[f].status == Open;
  }

  lemma CoreForExceptions(s: State)
    requires Core(s)
    ensures FindingsOk(s) && RevisionsUnique(s) && RangesOk(s) && SensorsOk(s) && MeasurementsOk(s)
    ensures OpenUntilPassed(s) && Keyed(s) && ProfilesOk(s)
  {
    hide FailuresFound, FindingsFounded, ResolvedOk, TaskIndex, SamplersOk, PreviousMeasured, EverMeasured, BatchesOk;
  }

  lemma RenewalReached(h: Material -> string, s: State, b: Id, x: Id, p: real) returns (t: State, id: Id)
    requires Reachable(h, s) && SentBackAt(s, b, x, p)
    ensures Reachable(h, t) && AwaitsRetest(t, b, id, p) && ProfileOf(t, b) == ProfileOf(s, b)
    ensures t.batches.Keys == s.batches.Keys
  {
    hide Reachable, Core, StatusOk, CredentialsOk, CredentialsUnique, FindingsOk, RevisionsUnique, RangesOk,
         SensorsOk, MeasurementsOk, OpenUntilPassed;
    hide Fresh, RecalibrateStep, NewTasks, AwaitsRetest, Renewed, Tasked, Blank, Keyed, ProfilesOk;
    ReachableInv(h, s);
    CoreForExceptions(s);
    NoteNotBlank();
    var c := RecalibrateCall(s, b, x);
    id := c.cmd.id;
    RecallFresh(s, c);
    RecalibrateRenews(s, b, x, id, "n", c.cmd.taskIDs, c.now);
    SentBackStored(s, b, x, p);
    NoneCreated(h, s, c);
    ReachNext(h, s, c);
    t := Step(h, s, c);
    RenewedAwaits(s, t, b, x, id, p);
    RenewedPlans(s, t, b, x, id);
  }

  lemma SentBackStored(s: State, b: Id, x: Id, p: real)
    requires SentBackAt(s, b, x, p)
    ensures b in s.batches
  {
  }

  lemma SomeAwaiting(h: Material -> string) returns (s: State, b: Id, x: Id, p: real, q: real)
    ensures s.batches.Keys == {b}
    ensures Reachable(h, s) && AwaitsRetest(s, b, x, p) && PlanPoint(s, b, p) && PlanPoint(s, b, q) && p != q
  {
    hide Reachable, Inv, NoOpen, SentBackAt, AwaitsRetest, IsCurrent;
    var r;
    r, b := SomeReview(h);
    ReachableInv(h, r);
    var y;
    y, p, q := ReviewFacts(h, r, b);
    var t := SendingBackReached(h, r, b, y, p);
    s, x := RenewalReached(h, t, b, y, p);
    SamePlanPoints(r, s, b);
  }

  lemma SamePlanPoints(s: State, t: State, b: Id)
    requires ProfileOf(t, b) == ProfileOf(s, b)
    ensures forall p :: PlanPoint(t, b, p) <==> PlanPoint(s, b, p)
  {
  }

  lemma ReviewFacts(h: Material -> string, s: State, b: Id) returns (x: Id, p: real, q: real)
    requires Inv(h, s) && b in s.batches && s.batches[b].status == ReadyReview
    ensures NoOpen(s, b) && IsCurrent(s, x, b) && PlanPoint(s, b, p) && PlanPoint(s, b, q) && p != q
  {
    hide Core, CredentialsOk, CredentialsUnique, IsCurrent, NoOpen;
    assert StatusFits(s, b);
    x := Guarantees.HasCurrent(s, b);
    CoreForExceptions(s);
    var pr := ProfileOf(s, b).value;
    assert ProfileOk(s, pr);
    p, q := pr.points[0], pr.points[1];
  }

  /** A run reaches a returned batch with an open finding for which the queue recommends to
      recalibrate although every recalibration is refused: only retests help. */
  lemma RecalibrationAdviceFails(h: Material -> string) returns (s: State, b: Id)
    ensures Reachable(h, s) && b in s.batches && s.batches[b].status == Returned && !NoOpen(s, b)
    ensures !CanFollow(h, s, b, "recalibrate")
  {
    hide Reachable, Inv, NoOpen, CanFollow, IsCurrent, CarriesOpen, PlanPoint;
    var x, p, q;
    s, b, x, p, q := SomeAwaiting(h);
    ReachableInv(h, s);
    ReturnedAdvice(h, s, b);
    NoneCarrying(s, b);
  }

  lemma NoneCarrying(s: State, b: Id)
    requires Carrying(s, b) == {}
    ensures forall x :: !(IsCurrent(s, x, b) && CarriesOpen(s, x))
  {
    forall x
      ensures !(IsCurrent(s, x, b) && CarriesOpen(s, x))
    {
      assert x !in Carrying(s, b);
    }
  }

  // ---------- inherited evidence hidden by another batch ----------

  /** Returned, nothing open, and at `q` the current revision `x` lives on inherited evidence. */
  ghost predicate Inheriting(s: State, b: Id, x: Id, q: real) {
    && b in s.batches && s.batches[b].status == Returned && NoOpen(s, b) && IsCurrent(s, x, b) &&
        s.sensors[x].revision > 1
    && PlanPoint(s, b, q) && !HasDirect(s, x, q)
  }

  lemma RetestSettles(s: State, t: State, b: Id, x: Id, p: real, q: real, actor: string, item: Reading, now: Time)
    requires AwaitsRetest(s, b, x, p) && PlanPoint(s, b, q) && p != q && item.point == p
    requires Progress(s, t, b, x, actor, [item], now, 1) && b in t.batches && t.batches[b].status == Returned
    requires t.findings.Keys == s.findings.Keys && OpenUntilPassed(t)
    requires ProfileOf(s, b).Some? && Passes(StatsOf(p, item.readings), ProfileOf(s, b).value)
    ensures Inheriting(t, b, x, q)
  {
    hide NoOpen, Passes, StatsOf, OpenUntilPassed, Carrying;
    RetestCloses(s, t, b, x, p, actor, item, now);
    RetestElsewhere(s, t, b, x, q, actor, item, now);
  }

  lemma RetestCloses(s: State, t: State, b: Id, x: Id, p: real, actor: string, item: Reading, now: Time)
    requires AwaitsRetest(s, b, x, p) && item.point == p && Progress(s, t, b, x, actor, [item], now, 1)
    requires t.findings.Keys == s.findings.Keys && OpenUntilPassed(t)
    requires ProfileOf(s, b).Some? && Passes(StatsOf(p, item.readings), ProfileOf(s, b).value)
    ensures NoOpen(t, b)
  {
    hide Carrying, HasDirect, Passes, StatsOf;
    var m := [item][0].id;
    assert t.measurements[m] == SetOf(b, x, actor, item, now);
    assert Passing(t, t.measurements[m]);
    forall f | f in t.findings && t.findings[f].batchID == b
      ensures t.findings[f].status != Open
    {
      assert SameProblem(s.findings[f], t.findings[f]);
      if s.findings[f].status == Open {
        assert OpenEarlier(s, f, s.sensors[x], p);
        assert PassesLater(t, m, t.findings[f]);
      }
    }
  }

  lemma RetestElsewhere(s: State, t: State, b: Id, x: Id, q: real, actor: string, item: Reading, now: Time)
    requires !HasDirect(s, x, q) && item.point != q && Progress(s, t, b, x, actor, [item], now, 1)
    ensures !HasDirect(t, x, q)
  {
    hide SameProblem, StatsOf;
    forall k
      ensures !DirectAt(t, k, x, q)
    {
      assert !DirectAt(s, k, x, q);
    }
  }

  lemma RetestReached(h: Material -> string, s: State, b: Id, x: Id, p: real, q: real) returns (t: State)
    requires Reachable(h, s) && AwaitsRetest(s, b, x, p) && PlanPoint(s, b, p) && PlanPoint(s, b, q) && p != q
    ensures Reachable(h, t) && Inheriting(t, b, x, q) && t.batches.Keys == s.batches.Keys
  {
    hide Reachable, Core, StatusOk, CredentialsOk, CredentialsUnique, Fresh, Step, AwaitsRetest, Progress,
         Inheriting, SubmitError, PlanPoint, NoOpen;
    hide FindingsOk, RevisionsUnique, RangesOk, SensorsOk, MeasurementsOk, OpenUntilPassed, Keyed, ProfilesOk,
         Passes, StatsOf, DraftsOf, Unmeasured;
    ReachableInv(h, s);
    CoreForExceptions(s);
    AwaitedUnmeasured(s, b, x, p);
    var c := SubmitCall(s, b, x, p);
    var item := c.cmd.items[0];
    assert c.cmd.items == [item];
    PlanKnown(s, b, p);
    PerfectAccepted(s, b, x, c.actor, item);
    PerfectFigures(s, b, item);
    SubmissionStores(h, s, c);
    SucceedsSteps(h, s, c, b);
    FreshSubmission(s, c);
    PerfectDrafts(s, b, item);
    PerfectKeys(s, b, x, c.actor, item, c.now);
    NoneCreated(h, s, c);
    ReachNext(h, s, c);
    t := Step(h, s, c);
    ReachableInv(h, t);
    CoreForExceptions(t);
    RetestSettles(s, t, b, x, p, q, c.actor, item, c.now);
  }

  lemma AwaitedUnmeasured(s: State, b: Id, x: Id, p: real)
    requires AwaitsRetest(s, b, x, p) && PlanPoint(s, b, p)
    ensures Unmeasured(s, b, x, p) && b in s.batches && s.batches[b].status == Returned
  {
  }

  lemma PlanKnown(s: State, b: Id, p: real)
    requires PlanPoint(s, b, p)
    ensures ProfileOf(s, b).Some?
  {
  }

  lemma PerfectFigures(s: State, b: Id, item: Reading)
    requires ProfilesOk(s) && ProfileOf(s, b).Some?
    requires item.readings == seq(ProfileOf(s, b).value.repetitions, _ => item.point)
    ensures Passes(StatsOf(item.point, item.readings), ProfileOf(s, b).value)
  {
    assert ProfileOk(s, ProfileOf(s, b).value);
    PerfectReadingsPass(item.point, ProfileOf(s, b).value.repetitions, ProfileOf(s, b).value);
  }

  lemma PerfectKeys(s: State, b: Id, x: Id, actor: string, item: Reading, now: Time)
    requires Supplied([item]) && SubmitError(s, b, x, actor, [item]) == None && ProfileOf(s, b).Some? && b in s.batches
    requires DraftsOf(ProfileOf(s, b).value, item) == []
    ensures SubmitStep(s, b, x, actor, [item], now).state.findings.Keys == s.findings.Keys
  {
    hide SubmitError, Covered, SetEvaluationStatusStep, DraftsOf, SameRecords;
    var pr := ProfileOf(s, b).value;
    var items := [item];
    assert items[..0] == [] && [item][0].findingIDs == item.findingIDs;
    assert ApplyReadings(s, pr, b, x, actor, items[..0], now) == s;
    var t := ApplyReading(s, pr, b, x, actor, item, now);
    assert ApplyReadings(s, pr, b, x, actor, items, now) == t;
    PerfectFindings(s, pr, b, x, actor, item, now);
    EvaluatedSameFindings(t, b, Covered(t, b));
  }

  lemma EvaluatedSameFindings(t: State, b: Id, complete: bool)
    requires b in t.batches
    ensures SetEvaluationStatusStep(t, b, complete).state.findings == t.findings
  {
    EvaluatedSameRecords(t, b, complete);
  }

  // ---------- the other batch ----------

  lemma InheritingFrame(s: State, t: State, b: Id, x: Id, q: real)
    requires Inheriting(s, b, x, q) && SameBatch(s, t, b) && MeasurementsOk(t)
    ensures Inheriting(t, b, x, q) && t.sensors[x] == s.sensors[x]
  {
    IsCurrentFrame(s, t, b, x);
    forall m
      ensures !DirectAt(t, m, x, q)
    {
      if m in t.measurements && t.measurements[m].sensorID == x {
        assert MeasurementOk(t, t.measurements[m]);
        assert !DirectAt(s, m, x, q);
      }
    }
  }

  /** A successful command on another batch leaves the returned batch as it is. */
  lemma OtherStep(h: Material -> string, s: State, c: Call, b: Id, x: Id, q: real) returns (t: State)
    requires Reachable(h, s) && Inheriting(s, b, x, q) && c.cmd.batchID != b && Succeeds(h, s, c, c.cmd.batchID)
    ensures t == Execute(h, s, c.actor, c.cmd, c.now).state
    ensures Reachable(h, t) && Inheriting(t, b, x, q) && t.sensors[x] == s.sensors[x] && SameBatch(s, t, b)
  {
    hide Reachable, Core, StatusOk, CredentialsOk, CredentialsUnique, Fresh, Step, Execute, Inheriting, SameBatch,
         MeasurementsOk, EnoughIds;
    ReachableInv(h, s);
    StepFrame(h, s, c, b);
    SucceedsSteps(h, s, c, c.cmd.batchID);
    ReachNext(h, s, c);
    t := Step(h, s, c);
    ReachableInv(h, t);
    CoreForExceptions(t);
    InheritingFrame(s, t, b, x, q);
  }

  ghost predicate OneSensor(s: State, d: Id, y: Id, code: string, q: real) {
    && IsDraft(s, d) && s.batches[d].sensorIDs != [] && y in s.sensors && Owned(s, d) == {y}
    && s.sensors[y].code == code && s.sensors[y].revision == 1 && s.sensors[y].rangeMin == q &&
        s.sensors[y].rangeMax == q + 1.0
    && forall m :: m in s.measurements ==> s.measurements[m].sensorID != y
  }

  lemma CreateOther(h: Material -> string, s: State) returns (c: Call)
    requires Inv(h, s)
    ensures c.cmd.CreateBatch? && c.cmd.batchID !in s.batches && Succeeds(h, s, c, c.cmd.batchID)
    ensures var t := Execute(h, s, c.actor, c.cmd, c.now).state; IsDraft(t, c.cmd.batchID) && Owned(t, c.cmd.batchID) == {}
  {
    hide Core, StatusOk, CredentialsOk, CredentialsUnique, Blank;
    NoteNotBlank();
    var ids := UnusedExist(s.batches.Keys, 1);
    c := Call("n", CreateBatch(ids[0], "n", "n"), 1);
    AbsentOwnsNothing(s, ids[0]);
  }

  lemma AbsentOwnsNothing(s: State, b: Id)
    requires Core(s) && b !in s.batches
    ensures Owned(s, b) == {}
  {
    CoreForExceptions(s);
    forall x | x in s.sensors
      ensures s.sensors[x].batchID != b
    {
      assert SensorOk(s, s.sensors[x]);
    }
  }

  lemma RegisterOther(h: Material -> string, s: State, d: Id, code: string, q: real) returns (c: Call)
    requires MeasurementsOk(s) && IsDraft(s, d) && Owned(s, d) == {} && !Blank(code)
    ensures c.cmd.RegisterSensor? && c.cmd.batchID == d && Succeeds(h, s, c, d)
    ensures var t := Execute(h, s, c.actor, c.cmd, c.now).state; OneSensor(t, d, c.cmd.id, code, q)
  {
    hide Blank;
    NoteNotBlank();
    var ids := UnusedExist(s.sensors.Keys, 1);
    c := Call("n", RegisterSensor(d, ids[0], code, "n", "n", q, q + 1.0), 1);
    forall x | x in s.sensors
      ensures s.sensors[x].batchID != d
    {
      assert x !in Owned(s, d);
    }
    var t := Execute(h, s, c.actor, c.cmd, c.now).state;
    assert Owned(t, d) == {ids[0]};
    forall m | m in t.measurements
      ensures t.measurements[m].sensorID != ids[0]
    {
      assert MeasurementOk(s, s.measurements[m]);
    }
  }

  /** The other batch with its plan locked: two points, two readings each, no tolerance at all. */
  ghost predicate StrictPlan(s: State, d: Id, y: Id, code: string, q: real) {
    && d in s.batches && s.batches[d].status == PlanLocked && y in s.sensors && Owned(s, d) == {y}
    && s.sensors[y].code == code && s.sensors[y].revision == 1 && s.sensors[y].rangeMin == q &&
        s.sensors[y].rangeMax == q + 1.0
    && ProfileOf(s, d).Some? && ProfileOf(s, d).value.points == [q, q + 1.0] && ProfileOf(s, d).value.repetitions == 2
    && ProfileOf(s, d).value.repeatabilityLimit == 0.0
    && forall m :: m in s.measurements ==> s.measurements[m].sensorID != y
  }

  lemma LockOther(h: Material -> string, s: State, d: Id, y: Id, code: string, q: real) returns (c: Call)
    requires OneSensor(s, d, y, code, q)
    ensures c.cmd.batchID == d && Succeeds(h, s, c, d)
    ensures StrictPlan(Execute(h, s, c.actor, c.cmd, c.now).state, d, y, code, q)
  {
    PairSorted(q, q + 1.0);
    var ids := UnusedExist(s.profiles.Keys, 1);
    c := Call("n", LockProfile(d, ids[0], [q, q + 1.0], 2, 0.0, 0.0, 0.0), 1);
    hide SortPoints;
    forall x | IsCurrent(s, x, d)
      ensures InRange(s.sensors[x], [q, q + 1.0])
    {
      assert x in Owned(s, d);
    }
    var t := Execute(h, s, c.actor, c.cmd, c.now).state;
    assert Owned(t, d) == Owned(s, d);
  }

  /** Readings at `q` that lie apart by one. */
  lemma SpreadCall(s: State, d: Id, y: Id, code: string, q: real) returns (c: Call)
    requires StrictPlan(s, d, y, code, q)
    ensures c.cmd.Submit? && c.cmd.batchID == d && c.cmd.sensorID == y && Fresh(s, c)
    ensures |c.cmd.items| == 1 && c.cmd.items[0].point == q && c.cmd.items[0].readings == [q, q + 1.0]
    ensures SubmitError(s, d, y, c.actor, c.cmd.items) == None
  {
    var ids := UnusedExist(s.findings.Keys, 3);
    var ms := UnusedExist(s.measurements.Keys, 1);
    var item := Reading(ms[0], q, [q, q + 1.0], ids);
    OneFreshItem(s, item);
    c := Call("n", Submit(d, y, [item], false), 1);
    OnlyCurrent(s, d, y);
    var items := [item];
    assert PlanPoint(s, d, q) by { assert [q, q + 1.0][0] == q; }
    assert ItemError(s, d, y, "n", items, 0) == None;
    assert FirstItemError(s, d, y, "n", items, 0) == None;
    assert FirstItemError(s, d, y, "n", items, 1) == None;
  }

  lemma OnlyCurrent(s: State, d: Id, y: Id)
    requires y in s.sensors && Owned(s, d) == {y}
    ensures IsCurrent(s, y, d) && s.sensors[y].batchID == d
  {
    assert y in Owned(s, d);
    forall c | c in s.sensors && SameLine(s.sensors[c], s.sensors[y])
      ensures c == y
    {
      assert c in Owned(s, d);
    }
  }

  lemma SpreadViolates(t: State, m: Measurement, d: Id, q: real)
    requires m.batchID == d && m.stats == StatsOf(q, [q, q + 1.0]) && ProfileOf(t, d).Some?
    requires ProfileOf(t, d).value.repeatabilityLimit == 0.0
    ensures Violating(t, m, REPEATABILITY)
  {
    var readings := [q, q + 1.0];
    assert readings[0] == q && readings[1] == q + 1.0;
    assert Greatest(readings) >= q + 1.0 && Least(readings) <= q;
  }

  /** The open finding of the other batch stands on a lower revision of the same code. */
  lemma SpreadBlocks(h: Material -> string, s: State, t: State, c: Call, d: Id, y: Id, code: string, q: real, x: Sensor)
    requires StrictPlan(s, d, y, code, q) && Reachable(h, t) && x.code == code && x.revision > 1
    requires c.cmd.Submit? && |c.cmd.items| == 1 && c.cmd.items[0].point == q && c.cmd.items[0].readings == [q, q + 1.0]
    requires Progress(s, t, d, y, c.actor, c.cmd.items, c.now, 1)
    ensures Blocked(t, x, q)
  {
    hide Reachable;
    var m := c.cmd.items[0].id;
    assert t.measurements[m] == SetOf(d, y, c.actor, c.cmd.items[0], c.now);
    assert ProfileOf(t, d) == ProfileOf(s, d);
    SpreadViolates(t, t.measurements[m], d, q);
    var f := Guarantees.FailureIsTracked(h, t, m, REPEATABILITY);
    OnlyCurrent(s, d, y);
    forall k
      ensures !PassesLater(t, k, t.findings[f])
    {
      assert t.sensors == s.sensors && t.findings[f].sensorID == y;
    }
    assert t.findings[f].status == Open;
    assert BlockedBy(t, f, x, q);
  }

  lemma BlockedNoEvidence(s: State, b: Id, x: Id, q: real)
    requires Inheriting(s, b, x, q) && Blocked(s, s.sensors[x], q)
    ensures !HasEvidence(s, x, q)
  {
    hide Blocked, LatestPrevious;
  }

  lemma CoveredEvidence(s: State, b: Id, x: Id, q: real)
    requires Covered(s, b) && IsCurrent(s, x, b) && PlanPoint(s, b, q)
    ensures HasEvidence(s, x, q)
  {
    hide IsCurrent;
    var m :| IsEvidence(s, m, x, q);
  }

  lemma BlockedUncovered(s: State, b: Id, x: Id, q: real)
    requires Inheriting(s, b, x, q) && Blocked(s, s.sensors[x], q)
    ensures !Covered(s, b)
  {
    hide Blocked, HasEvidence, Covered;
    BlockedNoEvidence(s, b, x, q);
    if Covered(s, b) {
      CoveredEvidence(s, b, x, q);
    }
  }

  lemma InheritedSensor(h: Material -> string, s: State, b: Id, x: Id, q: real)
    requires Inv(h, s) && Inheriting(s, b, x, q)
    ensures b in s.batches && x in s.sensors && !Blank(s.sensors[x].code) && s.sensors[x].revision > 1
  {
    hide Core, StatusOk, CredentialsOk, CredentialsUnique, FindingsOk, RangesOk, MeasurementsOk, Blank;
    CoreForExceptions(s);
    assert SensorOk(s, s.sensors[x]);
  }

  lemma InvMeasured(h: Material -> string, s: State)
    requires Inv(h, s)
    ensures MeasurementsOk(s)
  {
    hide Core, StatusOk, CredentialsOk, CredentialsUnique, MeasurementsOk;
    CoreForExceptions(s);
  }

  lemma OtherBatch(s: State, b: Id, d: Id)
    requires b in s.batches && d !in s.batches
    ensures b != d
  {
  }

  /** Commands on another batch that uses the same sensor code take the inherited evidence of a
      returned batch away, whatever it was, though nothing that batch owns changes. */
  lemma ForeignFindingHides(h: Material -> string, s: State, b: Id, x: Id, q: real) returns (t: State)
    requires Reachable(h, s) && Inheriting(s, b, x, q)
    ensures Reachable(h, t) && SameBatch(s, t, b) && Inheriting(t, b, x, q)
    ensures !HasEvidence(t, x, q) && !Covered(t, b)
  {
    hide Reachable, Inv, Fresh, Step, Execute, Inheriting, EnoughIds, StrictPlan, OneSensor, SubmitError, Progress,
         Blocked, Covered, Succeeds, MeasurementsOk, Blank, SameBatch, HasEvidence;
    ReachableInv(h, s);
    InheritedSensor(h, s, b, x, q);
    var code := s.sensors[x].code;
    var c1 := CreateOther(h, s);
    var d := c1.cmd.batchID;
    OtherBatch(s, b, d);
    var s1 := OtherStep(h, s, c1, b, x, q);
    ReachableInv(h, s1);
    InvMeasured(h, s1);
    var c2 := RegisterOther(h, s1, d, code, q);
    var s2 := OtherStep(h, s1, c2, b, x, q);
    SameBatchTransitive(s, s1, s2, b);
    var c3 := LockOther(h, s2, d, c2.cmd.id, code, q);
    var s3 := OtherStep(h, s2, c3, b, x, q);
    SameBatchTransitive(s, s2, s3, b);
    ReachableInv(h, s3);
    var c4 := SpreadCall(s3, d, c2.cmd.id, code, q);
    SubmissionStores(h, s3, c4);
    SucceedsWhen(h, s3, c4);
    SucceedsSteps(h, s3, c4, d);
    t := OtherStep(h, s3, c4, b, x, q);
    SameBatchTransitive(s, s3, t, b);
    ReachableInv(h, t);
    InheritedSensor(h, t, b, x, q);
    SpreadBlocks(h, s3, t, c4, d, c2.cmd.id, code, q, t.sensors[x]);
    BlockedNoEvidence(t, b, x, q);
    BlockedUncovered(t, b, x, q);
  }

  /** In a state with one batch no other batch uses its codes. */
  lemma OnlyBatchUnshared(h: Material -> string, s: State, b: Id)
    requires Inv(h, s) && s.batches.Keys == {b}
    ensures CodesUnshared(s, b)
  {
    hide Core, StatusOk, CredentialsOk, CredentialsUnique, MeasurementsOk, FindingsOk, RangesOk;
    CoreForExceptions(s);
    forall x | x in s.sensors
      ensures s.sensors[x].batchID == b
    {
      assert SensorOk(s, s.sensors[x]);
    }
  }

  lemma InheritedCovered(h: Material -> string, s: State, b: Id, x: Id, q: real)
    requires Reachable(h, s) && Inheriting(s, b, x, q) && s.batches.Keys == {b}
    ensures Covered(s, b) && HasEvidence(s, x, q) && CanFollow(h, s, b, "resubmit_review")
  {
    hide Reachable, Inv, NoOpen, CanFollow, Covered, ScopedCovered, CodesUnshared, HasEvidence, IsCurrent, PlanPoint;
    ReachableInv(h, s);
    OnlyBatchUnshared(h, s, b);
    ReturnedSettledCovered(h, s, b);
    UnsharedCovered(s, b);
    CoveredEvidence(s, b, x, q);
    ReturnedAdvice(h, s, b);
  }

  /** A run reaches a returned batch with complete evidence that can be sent to review again, and goes
      on, without touching that batch, to a state where it has lost evidence and the same
      recommendation is refused, although within the batch its evidence is still complete. */
  lemma ResubmissionAdviceFails(h: Material -> string) returns (s: State, t: State, b: Id)
    ensures Reachable(h, s) && Covered(s, b) && CanFollow(h, s, b, "resubmit_review")
    ensures Reachable(h, t) && SameBatch(s, t, b)
    ensures b in t.batches && t.batches[b].status == Returned && NoOpen(t, b) && ScopedCovered(t, b)
    ensures !Covered(t, b) && !CanFollow(h, t, b, "resubmit_review")
    ensures exists x, q :: IsCurrent(t, x, b) && HasEvidence(s, x, q) && !HasEvidence(t, x, q)
  {
    hide Reachable, Inv, AwaitsRetest, PlanPoint, Covered, ScopedCovered, CanFollow, NoOpen, IsCurrent, SameBatch,
        HasEvidence;
    var u, x, p, q;
    u, b, x, p, q := SomeAwaiting(h);
    s := RetestReached(h, u, b, x, p, q);
    InheritedCovered(h, s, b, x, q);
    t := ForeignFindingHides(h, s, b, x, q);
    ReturnedSettledCovered(h, t, b);
    ReachableInv(h, t);
    ReturnedAdvice(h, t, b);
  }
}
