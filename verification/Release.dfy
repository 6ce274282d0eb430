/** Release can always still be reached: whatever has happened to a batch since its plan was
    locked, some sequence of commands ends with its credential issued. */
module Release {
  import opened Entities
  import Statistics
  import opened Evidence
  import opened Frozen
  import opened Text
  import opened Domain
  import opened Invariant
  import Consequences
  import Recording
  import StatusChange
  import opened Submission
  import Renewal
  import Reviewing
  import opened Runs

  // ---------- how far a batch is from its release ----------

  /** Current revisions with an open finding of their own. */
  ghost function Carrying(s: State, b: Id): set<Id> {
    set x | x in s.sensors && IsCurrent(s, x, b) && CarriesOpen(s, x)
  }

  ghost function Points(s: State, b: Id): set<real> {
    if ProfileOf(s, b).Some? then Elements(ProfileOf(s, b).value.points) else {}
  }

  /** Points of current revisions that have not been measured on that revision. */
  ghost function Missing(s: State, b: Id): set<(Id, real)> {
    set x, p | x in s.sensors && p in Points(s, b) && Unmeasured(s, b, x, p) :: (x, p)
  }

  function Rank(st: Status): nat {
    match st
    case Released => 0
    case Frozen => 1
    case ReadyReview => 2
    case _ => 3
  }

  ghost function RankOf(s: State, b: Id): nat {
    if b in s.batches then Rank(s.batches[b].status) else 0
  }

  ghost predicate Closer(s: State, t: State, b: Id) {
    || |Carrying(t, b)| < |Carrying(s, b)|
    || (|Carrying(t, b)| == |Carrying(s, b)| && |Missing(t, b)| < |Missing(s, b)|)
    || (|Carrying(t, b)| == |Carrying(s, b)| && |Missing(t, b)| == |Missing(s, b)| && RankOf(t, b) < RankOf(s, b))
  }

  lemma {:induction false} SubsetSize<T>(a: set<T>, b: set<T>)
    requires a <= b
    ensures |a| <= |b|
    ensures a != b ==> |a| < |b|
  {
    if a != {} {
      var x :| x in a;
      SubsetSize(a - {x}, b - {x});
    }
  }

  lemma MissingMeans(s: State, b: Id, x: Id, p: real)
    ensures (x, p) in Missing(s, b) <==> Unmeasured(s, b, x, p)
  {
  }

  // ---------- perfect readings at a missing point ----------

  lemma PerfectFindings(s: State, pr: Profile, b: Id, x: Id, actor: string, item: Reading, now: Time)
    requires b in s.batches && |item.findingIDs| >= 3 && DraftsOf(pr, item) == []
    ensures var t := ApplyReading(s, pr, b, x, actor, item, now);
      t.findings.Keys == s.findings.Keys && forall f :: f in s.findings ==> SameProblem(s.findings[f], t.findings[f])
  {
    hide Statistics.StatsOf, UpdateTasks, AddSampler;
    assert NewFindings(b, x, DraftsOf(pr, item), item.findingIDs) == map[];
  }

  lemma FewerCarry(s: State, t: State, b: Id)
    requires t.sensors == s.sensors && t.findings.Keys == s.findings.Keys
    requires forall f :: f in s.findings ==> SameProblem(s.findings[f], t.findings[f])
    ensures Carrying(t, b) <= Carrying(s, b)
  {
    forall x | x in Carrying(t, b)
      ensures x in Carrying(s, b)
    {
      var f :| OpenAt(t, f, x);
      assert OpenAt(s, f, x);
    }
  }

  lemma FewerMissing(s: State, t: State, b: Id, m: Measurement)
    requires t.sensors == s.sensors && ProfileOf(t, b) == ProfileOf(s, b)
    requires m.id !in s.measurements && t.measurements == s.measurements[m.id := m]
    requires Unmeasured(s, b, m.sensorID, m.point)
    ensures Missing(t, b) < Missing(s, b)
  {
    var gone := (m.sensorID, m.point);
    MissingMeans(s, b, m.sensorID, m.point);
    assert DirectAt(t, m.id, m.sensorID, m.point);
    MissingMeans(t, b, m.sensorID, m.point);
    forall x, p | (x, p) in Missing(t, b)
      ensures (x, p) in Missing(s, b)
    {
      forall k
        ensures !DirectAt(s, k, x, p)
      {
        assert !DirectAt(t, k, x, p);
      }
      assert Unmeasured(s, b, x, p);
    }
  }

  /** Only records of batches and reviews differ. */
  ghost predicate SameRecords(t: State, u: State, b: Id) {
    u.sensors == t.sensors && u.measurements == t.measurements && u.findings == t.findings &&
        ProfileOf(u, b) == ProfileOf(t, b)
  }

  lemma SameDistance(t: State, u: State, b: Id)
    requires SameRecords(t, u, b)
    ensures Carrying(u, b) == Carrying(t, b) && Missing(u, b) == Missing(t, b)
  {
    forall x
      ensures IsCurrent(u, x, b) <==> IsCurrent(t, x, b)
      ensures CarriesOpen(u, x) <==> CarriesOpen(t, x)
    {
      forall f
        ensures OpenAt(u, f, x) <==> OpenAt(t, f, x)
      {
      }
    }
    forall x, p
      ensures Unmeasured(u, b, x, p) <==> Unmeasured(t, b, x, p)
    {
      forall m
        ensures DirectAt(u, m, x, p) <==> DirectAt(t, m, x, p)
      {
      }
    }
  }

  lemma PerfectDrafts(s: State, b: Id, item: Reading)
    requires ProfilesOk(s) && ProfileOf(s, b).Some?
    requires item.readings == seq(ProfileOf(s, b).value.repetitions, _ => item.point)
    ensures DraftsOf(ProfileOf(s, b).value, item) == []
  {
    var pr := ProfileOf(s, b).value;
    assert ProfileOk(s, pr);
    Statistics.PerfectReadingsPass(item.point, pr.repetitions, pr);
  }

  lemma PerfectAccepted(s: State, b: Id, x: Id, actor: string, item: Reading)
    requires Keyed(s) && ProfilesOk(s) && RangesOk(s) && b in s.batches && TakesReadings(s.batches[b].status)
    requires Unmeasured(s, b, x, item.point) && actor != "" && item.id != "" && item.id !in s.measurements
    requires item.readings == seq(ProfileOf(s, b).value.repetitions, _ => item.point)
    ensures SubmitError(s, b, x, actor, [item]) == None
  {
    var items := [item];
    assert ProfileOk(s, ProfileOf(s, b).value);
    assert PlanPoint(s, s.sensors[x].batchID, item.point);
    assert ItemError(s, b, x, actor, items, 0) == None;
    assert FirstItemError(s, b, x, actor, items, 0) == None;
    assert FirstItemError(s, b, x, actor, items, 1) == None;
  }

  lemma PerfectApplied(s: State, pr: Profile, b: Id, x: Id, actor: string, item: Reading, now: Time)
    requires b in s.batches && Supplied([item]) && DraftsOf(pr, item) == [] && ProfileOf(s, b) == Some(pr)
    requires Unmeasured(s, b, x, item.point) && item.id !in s.measurements
    ensures var t := ApplyReadings(s, pr, b, x, actor, [item], now);
      Carrying(t, b) <= Carrying(s, b) && Missing(t, b) < Missing(s, b)
  {
    hide Carrying, Missing, Unmeasured, DraftsOf;
    var items := [item];
    assert items[..0] == [];
    assert [item][0].findingIDs == item.findingIDs;
    assert ApplyReadings(s, pr, b, x, actor, items[..0], now) == s;
    var t := ApplyReading(s, pr, b, x, actor, item, now);
    assert ApplyReadings(s, pr, b, x, actor, items, now) == t;
    PerfectFindings(s, pr, b, x, actor, item, now);
    FewerCarry(s, t, b);
    FewerMissing(s, t, b, SetOf(b, x, actor, item, now));
  }

  lemma EvaluatedSameRecords(t: State, b: Id, complete: bool)
    requires b in t.batches
    ensures SameRecords(t, SetEvaluationStatusStep(t, b, complete).state, b)
  {
    hide SetEvaluationStatusStep, ProfileOf;
    StatusChange.EvaluatedShape(t, b, complete);
    StatusChange.PlansByReference(t, SetEvaluationStatusStep(t, b, complete).state);
  }

  lemma SubmitDistance(s: State, b: Id, x: Id, actor: string, item: Reading, now: Time)
    requires Supplied([item]) && SubmitError(s, b, x, actor, [item]) == None && ProfileOf(s, b).Some? && b in s.batches
    requires DraftsOf(ProfileOf(s, b).value, item) == [] && Unmeasured(s, b, x, item.point)
    requires item.id !in s.measurements
    ensures var t := SubmitStep(s, b, x, actor, [item], now).state;
      Carrying(t, b) <= Carrying(s, b) && Missing(t, b) < Missing(s, b)
  {
    hide Carrying, Missing, Unmeasured, SubmitError, ApplyReadings, Covered, SetEvaluationStatusStep, DraftsOf,
         Supplied, SameRecords;
    var t := ApplyReadings(s, ProfileOf(s, b).value, b, x, actor, [item], now);
    PerfectApplied(s, ProfileOf(s, b).value, b, x, actor, item, now);
    EvaluatedSameRecords(t, b, Covered(t, b));
    SameDistance(t, SetEvaluationStatusStep(t, b, Covered(t, b)).state, b);
  }

  lemma CloserBySubset(s: State, t: State, b: Id)
    requires Carrying(t, b) <= Carrying(s, b) && Missing(t, b) < Missing(s, b)
    ensures Closer(s, t, b)
  {
    hide Carrying, Missing;
    SubsetSize(Carrying(t, b), Carrying(s, b));
    SubsetSize(Missing(t, b), Missing(s, b));
  }

  lemma OneFreshItem(s: State, item: Reading)
    requires Recording.UnusedFindingIds(s, item.findingIDs)
    ensures FreshItems(s, [item]) && Supplied([item])
  {
  }

  /** A next call towards release: it is accepted and brings the batch closer. */
  ghost predicate Advances(h: Material -> string, s: State, c: Call, b: Id) {
    && Fresh(s, c) && c.cmd.batchID == b && Execute(h, s, c.actor, c.cmd, c.now).error == None
    && Closer(s, Execute(h, s, c.actor, c.cmd, c.now).state, b)
  }

  lemma CorePlan(s: State)
    requires Core(s)
    ensures Keyed(s) && ProfilesOk(s) && RangesOk(s) && SensorsOk(s) && BatchesOk(s)
  {
    hide History, TaskIndex;
  }

  lemma SubmitCall(s: State, b: Id, x: Id, p: real) returns (c: Call)
    requires Core(s) && Unmeasured(s, b, x, p)
    ensures c.cmd.Submit? && c.cmd.batchID == b && c.cmd.sensorID == x && Fresh(s, c) && c.actor != ""
    ensures |c.cmd.items| == 1 && c.cmd.items[0].point == p && c.cmd.items[0].id != ""
    ensures c.cmd.items[0].id !in s.measurements
    ensures c.cmd.items[0].readings == seq(ProfileOf(s, b).value.repetitions, _ => p)
  {
    hide Core, IsCurrent, FreshItems, Distinct;
    CorePlan(s);
    var pr := ProfileOf(s, b).value;
    assert ProfileOk(s, pr);
    var ids := UnusedExist(s.findings.Keys, 3);
    var ms := UnusedExist(s.measurements.Keys, 1);
    var item := Reading(ms[0], p, seq(pr.repetitions, _ => p), ids);
    OneFreshItem(s, item);
    c := Call("sampler", Submit(b, x, [item], false), 1);
  }

  lemma SubmitAdvances(h: Material -> string, s: State, b: Id, x: Id, p: real) returns (c: Call)
    requires Inv(h, s) && b in s.batches && TakesReadings(s.batches[b].status) && Unmeasured(s, b, x, p)
    ensures Advances(h, s, c, b) && c.cmd.Submit?
  {
    hide Core, StatusOk, CredentialsOk, CredentialsUnique, Unmeasured, Closer, DraftsOf, SubmitStep, Fresh;
    hide ProfilesOk, RangesOk, Keyed, SensorsOk, BatchesOk;
    UnmeasuredPlan(s, b, x, p);
    CorePlan(s);
    c := SubmitCall(s, b, x, p);
    var item := c.cmd.items[0];
    assert c.cmd.items == [item];
    PerfectAccepted(s, b, x, c.actor, item);
    PerfectDrafts(s, b, item);
    FreshSubmission(s, c);
    SubmitKeeps(h, s, b, x, c.actor, [item], c.now);
    SubmitDistance(s, b, x, c.actor, item, c.now);
    CloserBySubset(s, SubmitStep(s, b, x, c.actor, [item], c.now).state, b);
  }

  lemma UnmeasuredPlan(s: State, b: Id, x: Id, p: real)
    requires Unmeasured(s, b, x, p)
    ensures ProfileOf(s, b).Some?
  {
  }

  lemma FreshSubmission(s: State, c: Call)
    requires Fresh(s, c) && c.cmd.Submit?
    ensures FreshItems(s, c.cmd.items) && Supplied(c.cmd.items) && c.now != 0 && EnoughIds(s, c.cmd)
  {
    hide FreshItems;
  }

  // ---------- recalibrating a revision that carries a finding ----------

  lemma RenewedCarries(s: State, t: State, b: Id, before: Id, id: Id)
    requires Renewal.Renewed(s, t, b, before, id) && FindingsOk(s) && CarriesOpen(s, before)
    ensures Carrying(t, b) < Carrying(s, b)
  {
    assert before in Carrying(s, b);
    forall x | x in Carrying(t, b)
      ensures x in Carrying(s, b)
    {
      var f :| OpenAt(t, f, x);
      assert OpenAt(s, f, x) && FindingOk(s, s.findings[f]);
      assert forall c :: c in s.sensors ==> c in t.sensors && t.sensors[c] == s.sensors[c];
      assert IsCurrent(s, x, b);
    }
    assert id in t.sensors && SameLine(t.sensors[id], t.sensors[before]);
    assert before !in Carrying(t, b);
  }

  lemma NoteNotBlank()
    ensures !Blank("n")
  {
    assert TrimLeft("n") == "n" && TrimRight("n") == "n";
  }

  lemma RecalibrateCall(s: State, b: Id, x: Id) returns (c: Call)
    ensures c.cmd.Recalibrate? && c.cmd.batchID == b && c.cmd.sensorID == x && c.cmd.note == "n" && Fresh(s, c)
  {
    var ids := UnusedExist(s.sensors.Keys, 1);
    var ts := UnusedExist(s.tasks.Keys, if ProfileOf(s, b).Some? then |ProfileOf(s, b).value.points| else 0);
    c := Call("technician", Recalibrate(b, x, ids[0], "n", ts), 1);
  }

  lemma RecalibrateDistance(s: State, b: Id, x: Id, id: Id, note: string, taskIDs: seq<Id>, now: Time)
    requires Core(s) && id !in s.sensors && Distinct(taskIDs) && now != 0 && CarriesOpen(s, x)
    requires ProfileOf(s, b).Some? ==> |taskIDs| >= |ProfileOf(s, b).value.points|
    requires forall i :: 0 <= i < |taskIDs| ==> taskIDs[i] !in s.tasks
    requires RecalibrateSensorStep(s, b, x, id, note, now).error == None
    ensures var o := RecalibrateStep(s, b, x, id, note, taskIDs, now); o.error == None && Carrying(o.state, b) < Carrying(s, b)
  {
    hide Frames, TaskIndex, MeasurementsOk, OpenUntilPassed, ResolvedOk, FailuresFound, FindingsFounded, Carrying,
         Renewal.Renewed, RecalibrateStep, RecalibrateSensorStep;
    Renewal.RecalibrateRenews(s, b, x, id, note, taskIDs, now);
    RenewedCarries(s, RecalibrateStep(s, b, x, id, note, taskIDs, now).state, b, x, id);
  }

  lemma RecallFresh(s: State, c: Call)
    requires Fresh(s, c) && c.cmd.Recalibrate?
    ensures EnoughIds(s, c.cmd) && c.now != 0 && c.cmd.id !in s.sensors && Distinct(c.cmd.taskIDs)
    ensures ProfileOf(s, c.cmd.batchID).Some? ==> |c.cmd.taskIDs| >= |ProfileOf(s, c.cmd.batchID).value.points|
    ensures forall i :: 0 <= i < |c.cmd.taskIDs| ==> c.cmd.taskIDs[i] !in s.tasks
  {
    hide Distinct;
  }

  lemma RecalibrateAdvances(h: Material -> string, s: State, b: Id, x: Id) returns (c: Call)
    requires Inv(h, s) && b in s.batches && (s.batches[b].status == Failed || s.batches[b].status == Returned)
    requires IsCurrent(s, x, b) && CarriesOpen(s, x)
    ensures Advances(h, s, c, b) && c.cmd.Recalibrate?
  {
    hide Core, StatusOk, CredentialsOk, CredentialsUnique, Carrying, Missing, Fresh, RecalibrateStep, Blank;
    NoteNotBlank();
    c := RecalibrateCall(s, b, x);
    RecallFresh(s, c);
    RecalibrateDistance(s, b, x, c.cmd.id, c.cmd.note, c.cmd.taskIDs, c.now);
    FreshEnough(s, c);
    var t := RecalibrateStep(s, b, x, c.cmd.id, c.cmd.note, c.cmd.taskIDs, c.now).state;
    SubsetSize(Carrying(t, b), Carrying(s, b));
  }

  lemma FreshEnough(s: State, c: Call)
    requires Fresh(s, c)
    ensures EnoughIds(s, c.cmd)
  {
  }

  // ---------- returned batches ----------

  lemma AllMeasuredCovered(s: State, b: Id)
    requires Core(s) && b in s.batches && s.batches[b].status != Draft && forall x, p :: !Unmeasured(s, b, x, p)
    ensures Covered(s, b)
  {
    hide Frames, FindingsOk, OpenUntilPassed, ResolvedOk, FailuresFound, FindingsFounded, TaskIndex, SamplersOk,
         PreviousMeasured, EverMeasured;
    hide Covered;
    if !Covered(s, b) {
      UncoveredHere(s, b);
    }
  }

  lemma UncoveredHere(s: State, b: Id)
    requires Core(s) && b in s.batches && s.batches[b].status != Draft && !Covered(s, b)
    ensures exists x, p :: Unmeasured(s, b, x, p)
  {
    hide Covered, TaskIndex, ProfilesOk, RangesOk, RevisionsUnique, RevisionsChained, FreezesOk, ReviewsOk,
         DraftsPlain, SensorsOk;
    hide FindingsOk, OpenUntilPassed, ResolvedOk, FailuresFound, FindingsFounded, SamplersOk, PreviousMeasured,
         EverMeasured, Unmeasured;
    assert BatchOk(s, s.batches[b]);
    Consequences.UncoveredUnmeasured(s, b);
  }

  lemma CoveredSettled(s: State, b: Id)
    requires Core(s) && Covered(s, b) && Carrying(s, b) == {}
    ensures NoOpen(s, b)
  {
    hide Covered, Frames, TaskIndex, NoOpen, Carrying;
    if !NoOpen(s, b) {
      Consequences.CoveredOpenCarried(s, b);
      CarriedListed(s, b);
    }
  }

  lemma CarriedListed(s: State, b: Id)
    requires exists x :: IsCurrent(s, x, b) && CarriesOpen(s, x)
    ensures Carrying(s, b) != {}
  {
    var x :| IsCurrent(s, x, b) && CarriesOpen(s, x);
    assert x in Carrying(s, b);
  }

  lemma ResubmitAccepted(s: State, b: Id, actor: string, comment: string, now: Time)
    requires b in s.batches && s.batches[b].status == Returned && Covered(s, b) && NoOpen(s, b)
    ensures ResubmitStep(s, b, actor, comment, now).error == None
    ensures var t := ResubmitStep(s, b, actor, comment, now).state;
      SameRecords(s, t, b) && b in t.batches && t.batches[b].status == ReadyReview
  {
    forall x, p | IsCurrent(s, x, b) && p in ProfileOf(s, b).value.points
      ensures PointComplete(s, b, x, p)
    {
    }
  }

  lemma ResubmitAdvances(h: Material -> string, s: State, b: Id) returns (c: Call)
    requires b in s.batches && s.batches[b].status == Returned && Covered(s, b) && NoOpen(s, b)
    ensures Advances(h, s, c, b) && c.cmd.Resubmit?
  {
    hide Covered, NoOpen, Carrying, Missing, ResubmitStep, SameRecords;
    c := Call("technician", Resubmit(b, ""), 1);
    ResubmitAccepted(s, b, c.actor, "", 1);
    SameDistance(s, ResubmitStep(s, b, c.actor, "", 1).state, b);
  }

  lemma ReturnedAdvances(h: Material -> string, s: State, b: Id) returns (c: Call)
    requires Inv(h, s) && b in s.batches && s.batches[b].status == Returned
    ensures Advances(h, s, c, b) && (c.cmd.Submit? || c.cmd.Recalibrate? || c.cmd.Resubmit?)
  {
    hide Core, StatusOk, CredentialsOk, CredentialsUnique, Advances, Unmeasured, IsCurrent, CarriesOpen, Covered,
         NoOpen;
    if Carrying(s, b) != {} {
      var x :| x in Carrying(s, b);
      c := RecalibrateAdvances(h, s, b, x);
    } else if x, p :| Unmeasured(s, b, x, p) {
      c := SubmitAdvances(h, s, b, x, p);
    } else {
      AllMeasuredCovered(s, b);
      CoveredSettled(s, b);
      c := ResubmitAdvances(h, s, b);
    }
  }

  // ---------- review and issue ----------

  /** A reviewer that captured none of the measurements can approve. */
  lemma ApproveAdvances(h: Material -> string, s: State, b: Id) returns (c: Call)
    requires b in s.batches && s.batches[b].status == ReadyReview && NoOpen(s, b)
    ensures Advances(h, s, c, b) && c.cmd.Approve?
  {
    hide NoOpen, Carrying, Missing;
    var actors := UnusedExist(Elements(s.batches[b].sampledBy), 1);
    c := Call(actors[0], Approve(b, "", []), 1);
    SameDistance(s, ApproveReviewStep(s, b, c.actor, "", 1).state, b);
  }

  lemma IssueAdvances(h: Material -> string, s: State, b: Id) returns (c: Call)
    requires b in s.batches && s.batches[b].status == Status.Frozen && NoOpen(s, b) && CredentialsOk(h, s)
    ensures Advances(h, s, c, b) && c.cmd.Issue?
  {
    hide NoOpen, Carrying, Missing, MaterialOf;
    var ids := UnusedExist(s.credentials.Keys, 1);
    c := Call("issuer", Issue(b, ids[0]), 1);
    forall k | k in s.credentials
      ensures s.credentials[k].batchID != b
    {
      assert CredentialOk(h, s, s.credentials[k]);
    }
    SameDistance(s, IssueStep(h, s, b, ids[0], c.actor, 1).state, b);
  }

  // ---------- the whole way ----------

  predicate OpenStatus(st: Status) {
    st == PlanLocked || st == Sampling || st == Failed || st == Returned
  }

  /** Until a batch is in review, readings, recalibration or resubmission bring it closer. */
  lemma NextOpenCall(h: Material -> string, s: State, b: Id) returns (c: Call)
    requires Inv(h, s) && b in s.batches && OpenStatus(s.batches[b].status)
    ensures Advances(h, s, c, b) && (c.cmd.Submit? || c.cmd.Recalibrate? || c.cmd.Resubmit?)
  {
    hide Core, CredentialsOk, CredentialsUnique, Advances, NoOpen, Unmeasured, IsCurrent, CarriesOpen;
    assert StatusFits(s, b);
    if s.batches[b].status == Failed {
      var x :| IsCurrent(s, x, b) && CarriesOpen(s, x);
      c := RecalibrateAdvances(h, s, b, x);
    } else if s.batches[b].status == Returned {
      c := ReturnedAdvances(h, s, b);
    } else {
      var x, p :| Unmeasured(s, b, x, p);
      c := SubmitAdvances(h, s, b, x, p);
    }
  }

  lemma NextCall(h: Material -> string, s: State, b: Id) returns (c: Call)
    requires Inv(h, s) && b in s.batches && s.batches[b].status != Draft && s.batches[b].status != Released
    ensures Advances(h, s, c, b)
  {
    hide Core, CredentialsOk, CredentialsUnique, Advances, NoOpen;
    assert StatusFits(s, b);
    if s.batches[b].status == ReadyReview {
      c := ApproveAdvances(h, s, b);
    } else if s.batches[b].status == Status.Frozen {
      c := IssueAdvances(h, s, b);
    } else {
      c := NextOpenCall(h, s, b);
    }
  }

  /** No command takes a batch back to draft. */
  lemma LeavesDraftBehind(h: Material -> string, s: State, c: Call)
    requires Inv(h, s) && Fresh(s, c) && Execute(h, s, c.actor, c.cmd, c.now).error == None
    requires c.cmd.batchID in s.batches && s.batches[c.cmd.batchID].status != Draft
    ensures var t := Execute(h, s, c.actor, c.cmd, c.now).state;
      c.cmd.batchID in t.batches && t.batches[c.cmd.batchID].status != Draft
  {
    hide Core, StatusOk, CredentialsOk, CredentialsUnique, FreshItems, Reviewing.FreshCorrections, NoOpen, CarriesOpen,
        Covered;
    hide SubmitError, ApplyReadings, NewTasks, CorrectionsFail, ManualFindings, MaterialOf, SortPoints;
  }

  lemma {:induction false} ReleasableFrom(h: Material -> string, s: State, b: Id) returns (calls: seq<Call>)
    requires Inv(h, s) && b in s.batches && s.batches[b].status != Draft
    ensures FreshFrom(h, s, calls)
    ensures var t := RunFrom(h, s, calls); b in t.batches && t.batches[b].status == Released
    decreases |Carrying(s, b)|, |Missing(s, b)|, RankOf(s, b)
  {
    hide Inv, Fresh, Execute, Carrying, Missing;
    if s.batches[b].status == Released {
      calls := [];
    } else {
      var c := NextCall(h, s, b);
      FreshEnough(s, c);
      var t := Execute(h, s, c.actor, c.cmd, c.now).state;
      ExecuteKeeps(h, s, c);
      LeavesDraftBehind(h, s, c);
      var rest := ReleasableFrom(h, t, b);
      SingleCall(h, s, c);
      RunConcat(h, s, [c], rest);
      calls := [c] + rest;
    }
  }

  lemma SingleCall(h: Material -> string, s: State, c: Call)
    requires Fresh(s, c)
    ensures FreshFrom(h, s, [c]) && RunFrom(h, s, [c]) == Step(h, s, c)
  {
    hide Fresh, Step;
    assert [c][..0] == [];
  }

  /** From every state of every run, a batch whose plan is locked can still be released. */
  lemma ReleaseReachable(h: Material -> string, s: State, b: Id) returns (calls: seq<Call>)
    requires Reachable(h, s) && b in s.batches && s.batches[b].status != Draft
    ensures FreshFrom(h, s, calls)
    ensures var t := RunFrom(h, s, calls); b in t.batches && t.batches[b].status == Released
  {
    hide Reachable, Inv, FreshFrom, RunFrom;
    ReachableInv(h, s);
    calls := ReleasableFrom(h, s, b);
  }
}
