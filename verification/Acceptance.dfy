/** When a request is accepted: a condition for each command that its caller can check beforehand. */
module Acceptance {
  import opened Entities
  import opened Evidence
  import opened Frozen
  import opened Text
  import opened Domain
  import opened Invariant
  import opened Runs
  import opened Guarantees
  import opened Drafts
  import opened Advice
  import opened Separation
  import BatchSubmission
  import Renewal

  /** No value occurs twice. */
  ghost predicate AllDifferent(ps: seq<real>) {
    forall i, j :: 0 <= i < j < |ps| ==> ps[i] != ps[j]
  }

  /** A point that can be submitted: planned, not measured yet on this revision, the planned number of
      readings, all in the range of the sensor, under a new identifier. */
  ghost predicate PointWelcome(s: State, b: Id, x: Id, item: Reading)
    requires x in s.sensors
  {
    && PlanPoint(s, b, item.point) && !HasDirect(s, x, item.point) && item.id != "" && item.id !in s.measurements
    && |item.readings| == ProfileOf(s, b).value.repetitions
    && forall k :: 0 <= k < |item.readings| ==> s.sensors[x].rangeMin <= item.readings[k] <= s.sensors[x].rangeMax
  }

  /** A correction that can be entered: about a current revision and a planned point, with texts. */
  ghost predicate CorrectionWelcome(s: State, b: Id, c: Correction) {
    && IsCurrent(s, c.sensorID, b) && PlanPoint(s, b, c.point) && c.id != "" && c.id !in s.findings
    && !Blank(c.kind) && !Blank(c.severity) && !Blank(c.message)
  }

  /** Two corrections say the same but for white space around the message. */
  ghost predicate SameDemand(c: Correction, d: Correction) {
    c.sensorID == d.sensorID && c.point == d.point && c.kind == d.kind && Trim(c.message) == Trim(d.message)
  }

  ghost predicate Welcome(s: State, c: Call) {
    var b := c.cmd.batchID;
    match c.cmd
    case CreateBatch(_, stationCode, title) =>
      b !in s.batches && !Blank(b) && !Blank(stationCode) && !Blank(title) && !Blank(c.actor)
    case RegisterSensor(_, _, code, metric, unit, lo, hi) =>
      && IsDraft(s, b) && !Blank(code) && !Blank(metric) && !Blank(unit) && lo < hi
      && forall x :: Owns(s, b, x) ==> s.sensors[x].code != code
    case LockProfile(_, _, points, n, absolute, relative, repeatability) =>
      && IsDraft(s, b) && (exists x :: Owns(s, b, x)) && |points| >= 2 && n >= 2 && AllDifferent(points)
      && absolute >= 0.0 && relative >= 0.0 && repeatability >= 0.0
      && forall x, p :: Owns(s, b, x) && p in points ==> s.sensors[x].rangeMin <= p <= s.sensors[x].rangeMax
    case Submit(_, x, items, _) =>
      && b in s.batches && s.batches[b].status in {PlanLocked, Sampling, Failed, Returned} && IsCurrent(s, x, b)
      && items != [] && (forall i :: 0 <= i < |items| ==> PointWelcome(s, b, x, items[i]))
      && forall i, j :: 0 <= i < j < |items| ==> items[i].point != items[j].point && items[i].id != items[j].id
    case Recalibrate(_, x, _, note, _) =>
      && b in s.batches && s.batches[b].status in {Failed, Returned} && IsCurrent(s, x, b) && !Blank(note)
      && exists f :: OpenAt(s, f, x)
    case Approve(_, _, corrections) =>
      corrections == [] && b in s.batches && s.batches[b].status == ReadyReview && !CapturedBy(s, b, c.actor)
    case SendBack(_, _, corrections) =>
      && b in s.batches && s.batches[b].status in {ReadyReview, Failed} && !CapturedBy(s, b, c.actor)
      && corrections != [] && (forall i :: 0 <= i < |corrections| ==> CorrectionWelcome(s, b, corrections[i]))
      && forall i, j :: 0 <= i < j < |corrections| ==> !SameDemand(corrections[i], corrections[j])
    case Resubmit(_, _) =>
      b in s.batches && s.batches[b].status == Returned && NoOpen(s, b) && NothingHidden(s, b)
    case Issue(_, _) => b in s.batches && s.batches[b].status == Status.Frozen
  }

  // ---------- locking a plan ----------

  /** Sorting brings equal points together: neighbours repeat exactly when some point occurs twice. */
  lemma RepeatsExactly(points: seq<real>)
    ensures !Repeats(SortPoints(points)) <==> AllDifferent(points)
  {
    hide SortPoints;
    var sorted := SortPoints(points);
    SortPointsSorts(points);
    if !Repeats(sorted) {
      RisingStrictly(sorted);
      OnceEach(sorted);
      CountedApart(points, multiset(points));
    }
    if AllDifferent(points) {
      OnceEach(points);
      CountedApart(sorted, multiset(sorted));
    }
  }

  lemma RisingStrictly(ps: seq<real>)
    requires Rising(ps) && !Repeats(ps)
    ensures AllDifferent(ps)
  {
    forall i, j | 0 <= i < j < |ps|
      ensures ps[i] != ps[j]
    {
      assert ps[i] <= ps[j - 1] <= ps[j] && ps[j] != ps[j - 1];
    }
  }

  lemma {:induction false} OnceEach(ps: seq<real>)
    requires AllDifferent(ps)
    ensures forall p :: multiset(ps)[p] <= 1
  {
    if ps != [] {
      var n := |ps| - 1;
      OnceEach(ps[..n]);
      assert ps == ps[..n] + [ps[n]];
      assert ps[n] !in ps[..n];
      assert multiset(ps[..n])[ps[n]] == 0;
    }
  }

  lemma CountedApart(ps: seq<real>, counts: multiset<real>)
    requires counts == multiset(ps) && forall p :: counts[p] <= 1
    ensures AllDifferent(ps) && !Repeats(ps)
  {
    forall i, j | 0 <= i < j < |ps|
      ensures ps[i] != ps[j]
    {
      if ps[i] == ps[j] {
        CountedTwice(ps, i, j);
      }
    }
  }

  lemma CountedTwice(ps: seq<real>, i: nat, j: nat)
    requires i < j < |ps| && ps[i] == ps[j]
    ensures multiset(ps)[ps[i]] >= 2
  {
    assert ps == ps[..i] + [ps[i]] + ps[i + 1..j] + [ps[j]] + ps[j + 1..];
  }

  lemma RangeOverPoints(x: Sensor, points: seq<real>)
    requires points != []
    ensures InRange(x, SortPoints(points)) <==> forall p :: p in points ==> x.rangeMin <= p <= x.rangeMax
  {
    hide SortPoints;
    var sorted := SortPoints(points);
    SortPointsSorts(points);
    assert forall p :: p in points <==> p in multiset(points);
    assert forall p :: p in sorted <==> p in multiset(sorted);
    assert sorted[0] in sorted && sorted[|sorted| - 1] in sorted;
    if InRange(x, sorted) {
      forall p | p in sorted
        ensures x.rangeMin <= p <= x.rangeMax
      {
        var i :| 0 <= i < |sorted| && sorted[i] == p;
        assert sorted[0] <= sorted[i] || i == 0;
        assert sorted[i] <= sorted[|sorted| - 1] || i == |sorted| - 1;
      }
    }
  }

  lemma DraftFacts(h: Material -> string, s: State, b: Id)
    requires Reachable(h, s) && IsDraft(s, b)
    ensures forall x :: Owns(s, b, x) <==> IsCurrent(s, x, b)
    ensures s.batches[b].sensorIDs != [] <==> exists x :: Owns(s, b, x)
  {
    hide Reachable, History, TaskIndex, StatusOk, CredentialsOk, CredentialsUnique;
    ReachableInv(h, s);
    if s.batches[b].sensorIDs != [] {
      assert s.batches[b].sensorIDs[0] in s.batches[b].sensorIDs;
      assert Owns(s, b, s.batches[b].sensorIDs[0]);
    }
  }

  lemma LockAccepted(h: Material -> string, s: State, c: Call)
    requires Reachable(h, s) && c.cmd.LockProfile?
    ensures Execute(h, s, c.actor, c.cmd, c.now).error == None <==> Welcome(s, c)
  {
    hide Reachable, SortPoints, Repeats, InRange, IsCurrent, AllDifferent;
    if IsDraft(s, c.cmd.batchID) {
      DraftFacts(h, s, c.cmd.batchID);
      RepeatsExactly(c.cmd.points);
      if |c.cmd.points| >= 2 {
        forall x
          ensures Owns(s, c.cmd.batchID, x) ==> (InRange(s.sensors[x], SortPoints(c.cmd.points)) <==>
            forall p :: p in c.cmd.points ==> s.sensors[x].rangeMin <= p <= s.sensors[x].rangeMax)
        {
          if Owns(s, c.cmd.batchID, x) {
            RangeOverPoints(s.sensors[x], c.cmd.points);
          }
        }
      }
    }
  }

  // ---------- the other commands ----------

  lemma PreparationAccepted(h: Material -> string, s: State, c: Call)
    requires c.cmd.CreateBatch? || c.cmd.RegisterSensor?
    ensures Execute(h, s, c.actor, c.cmd, c.now).error == None <==> Welcome(s, c)
  {
    hide Blank;
  }

  lemma SubmissionAccepted(h: Material -> string, s: State, c: Call)
    requires Reachable(h, s) && Fresh(s, c) && EnoughIds(s, c.cmd) && c.cmd.Submit?
    ensures Execute(h, s, c.actor, c.cmd, c.now).error == None <==> Welcome(s, c)
  {
    hide Reachable, Fresh, Execute, EnoughIds, IsCurrent, FirstItemError, BatchSubmission.ItemFine;
    var b, x, items := c.cmd.batchID, c.cmd.sensorID, c.cmd.items;
    SubmissionNeverConflicts(h, s, c);
    if items != [] && b in s.batches && TakesReadings(s.batches[b].status) && IsCurrent(s, x, b) {
      BatchSubmission.AcceptedPointwise(s, b, x, c.actor, items);
      CurrentStands(s, x, b);
      ActorNamed(s, c);
      forall i | 0 <= i < |items|
        ensures BatchSubmission.ItemFine(s, b, x, c.actor, items[i]) <==> PointWelcome(s, b, x, items[i])
      {
        FineIsWelcome(s, b, x, c.actor, items[i]);
      }
    }
  }

  lemma CurrentStands(s: State, x: Id, b: Id)
    requires IsCurrent(s, x, b)
    ensures x in s.sensors && s.sensors[x].batchID == b
  {
  }

  lemma ActorNamed(s: State, c: Call)
    requires Fresh(s, c)
    ensures c.actor != ""
  {
  }

  lemma FineIsWelcome(s: State, b: Id, x: Id, actor: string, item: Reading)
    requires x in s.sensors && actor != ""
    ensures BatchSubmission.ItemFine(s, b, x, actor, item) <==> PointWelcome(s, b, x, item)
  {
    hide HasDirect;
  }

  lemma RecalibrationAccepted(h: Material -> string, s: State, c: Call)
    requires Reachable(h, s) && Fresh(s, c) && EnoughIds(s, c.cmd) && c.cmd.Recalibrate?
    ensures Execute(h, s, c.actor, c.cmd, c.now).error == None <==> Welcome(s, c)
  {
    hide Reachable, Inv, IsCurrent, RecalibrateStep, Fresh, Blank;
    ReachableInv(h, s);
    if Execute(h, s, c.actor, c.cmd, c.now).error == None {
      RecalibrateAccepted(s, c.cmd.batchID, c.cmd.sensorID, c.cmd.id, c.cmd.note, c.cmd.taskIDs, c.now);
    }
    if Welcome(s, c) {
      NewNames(s, c);
      CurrentStands(s, c.cmd.sensorID, c.cmd.batchID);
      Renewal.RecalibrateKeeps(h, s, c.cmd.batchID, c.cmd.sensorID, c.cmd.id, c.cmd.note, c.cmd.taskIDs, c.now);
    }
  }

  lemma NewNames(s: State, c: Call)
    requires Fresh(s, c) && c.cmd.Recalibrate?
    ensures c.cmd.id !in s.sensors && Distinct(c.cmd.taskIDs) && c.now != 0
    ensures forall i :: 0 <= i < |c.cmd.taskIDs| ==> c.cmd.taskIDs[i] !in s.tasks
  {
    hide Distinct;
  }

  lemma ReturnAccepted(h: Material -> string, s: State, c: Call)
    requires Reachable(h, s) && c.cmd.SendBack?
    ensures Execute(h, s, c.actor, c.cmd, c.now).error == None <==> Welcome(s, c)
  {
    hide Reachable, CapturedBy, IsCurrent, PlanPoint, ManualFindings, CorrectionIds, SameDemand, Blank,
         CorrectionsFail, CorrectionWelcome;
    if c.cmd.batchID in s.batches {
      ReviewFacts(h, s, c.cmd.batchID, c.actor);
      CorrectionsPass(s, c.cmd.batchID, c.cmd.corrections);
    }
  }

  lemma CorrectionsPass(s: State, b: Id, corrections: seq<Correction>)
    ensures !CorrectionsFail(s, b, corrections) <==>
      && (forall i :: 0 <= i < |corrections| ==> CorrectionWelcome(s, b, corrections[i]))
      && forall i, j :: 0 <= i < j < |corrections| ==> !SameDemand(corrections[i], corrections[j])
  {
    hide IsCurrent, PlanPoint, Trim, Blank;
    forall i | 0 <= i < |corrections|
      ensures CorrectionError(s, b, corrections, i) == None <==>
        CorrectionWelcome(s, b, corrections[i]) && forall j :: 0 <= j < i ==>
            !SameDemand(corrections[j], corrections[i])
    {
    }
  }

  lemma ReviewAccepted(h: Material -> string, s: State, c: Call)
    requires Reachable(h, s) && (c.cmd.Approve? || c.cmd.Issue?)
    ensures Execute(h, s, c.actor, c.cmd, c.now).error == None <==> Welcome(s, c)
  {
    hide Reachable, CapturedBy, NoOpen, MaterialOf, Canonical, HasCredential, Inv;
    if c.cmd.batchID in s.batches {
      ReviewFacts(h, s, c.cmd.batchID, c.actor);
      FrozenFacts(h, s, c.cmd.batchID);
    }
  }

  lemma FrozenFacts(h: Material -> string, s: State, b: Id)
    requires Reachable(h, s) && b in s.batches
    ensures s.batches[b].status == Status.Frozen ==> NoOpen(s, b) && !HasCredential(s, b)
  {
    hide Reachable, Core, CredentialOk, NoOpen;
    ReachableInv(h, s);
    assert StatusFits(s, b);
    forall k | k in s.credentials && s.credentials[k].batchID == b
      ensures s.batches[b].status == Released
    {
      CredentialReleased(h, s, k);
    }
  }

  lemma CredentialReleased(h: Material -> string, s: State, k: Id)
    requires CredentialsOk(h, s) && k in s.credentials
    ensures s.credentials[k].batchID in s.batches && s.batches[s.credentials[k].batchID].status == Status.Released
  {
    hide MaterialOf, Canonical;
    assert CredentialOk(h, s, s.credentials[k]);
  }

  lemma ResubmissionAccepted(h: Material -> string, s: State, c: Call)
    requires Reachable(h, s) && c.cmd.Resubmit?
    ensures Execute(h, s, c.actor, c.cmd, c.now).error == None <==> Welcome(s, c)
  {
    hide Reachable, NoOpen, NothingHidden, IsCurrent, Inv, PointComplete, CreateBatchStep, RegisterSensorStep,
         LockProfileStep, SubmitStep, RecalibrateStep, ApproveReviewStep, ReturnStep, IssueStep, Covered;
    var b := c.cmd.batchID;
    if b in s.batches && s.batches[b].status == Returned && NoOpen(s, b) {
      SettledCoveredExactly(h, s, b);
      ReachableInv(h, s);
      InvCore(h, s);
      var x := HasCurrent(s, b);
      CoveredPoints(s, b, x);
      PlannedPoints(s, b);
    }
  }

  lemma InvCore(h: Material -> string, s: State)
    requires Inv(h, s)
    ensures Core(s)
  {
    hide Core, StatusOk, CredentialsOk, CredentialsUnique;
  }

  lemma PlannedPoints(s: State, b: Id)
    requires ProfileOf(s, b).Some?
    ensures forall p :: PlanPoint(s, b, p) <==> p in ProfileOf(s, b).value.points
  {
  }

  /** In every state of every run a request is accepted exactly when it is welcome. */
  lemma AcceptedExactly(h: Material -> string, s: State, c: Call)
    requires Reachable(h, s) && Fresh(s, c) && EnoughIds(s, c.cmd)
    ensures Execute(h, s, c.actor, c.cmd, c.now).error == None <==> Welcome(s, c)
  {
    hide Reachable, Fresh, Execute, EnoughIds, Welcome;
    match c.cmd
    case CreateBatch(_, _, _) => PreparationAccepted(h, s, c);
    case RegisterSensor(_, _, _, _, _, _, _) => PreparationAccepted(h, s, c);
    case LockProfile(_, _, _, _, _, _, _) => LockAccepted(h, s, c);
    case Submit(_, _, _, _) => SubmissionAccepted(h, s, c);
    case Recalibrate(_, _, _, _, _) => RecalibrationAccepted(h, s, c);
    case Approve(_, _, _) => ReviewAccepted(h, s, c);
    case SendBack(_, _, _) => ReturnAccepted(h, s, c);
    case Resubmit(_, _) => ResubmissionAccepted(h, s, c);
    case Issue(_, _) => ReviewAccepted(h, s, c);
  }

  // ---------- which refusal ----------

  /** A point like those that can be submitted, but measured already. */
  ghost predicate MeasuredAlready(s: State, b: Id, x: Id, item: Reading)
    requires x in s.sensors
  {
    && PlanPoint(s, b, item.point) && HasDirect(s, x, item.point) && item.id != "" && item.id !in s.measurements
    && |item.readings| == ProfileOf(s, b).value.repetitions
    && forall k :: 0 <= k < |item.readings| ==> s.sensors[x].rangeMin <= item.readings[k] <= s.sensors[x].rangeMax
  }

  ghost predicate NoTwinBefore(items: seq<Reading>, i: nat)
    requires i < |items|
  {
    forall j :: 0 <= j < i ==> items[j].point != items[i].point && items[j].id != items[i].id
  }

  /** The first point that cannot be recorded is one that was measured already. */
  ghost predicate StopsAtMeasured(s: State, b: Id, x: Id, items: seq<Reading>, n: nat)
    requires x in s.sensors && n <= |items|
  {
    exists i :: 0 <= i < n && MeasuredAlready(s, b, x, items[i]) && NoTwinBefore(items, i)
      && forall j :: 0 <= j < i ==> PointWelcome(s, b, x, items[j]) && NoTwinBefore(items, j)
  }

  lemma ItemRefusal(s: State, b: Id, x: Id, actor: string, items: seq<Reading>, i: nat)
    requires x in s.sensors && actor != "" && i < |items|
    ensures var e := ItemError(s, b, x, actor, items, i);
      && (e == None <==> PointWelcome(s, b, x, items[i]) && NoTwinBefore(items, i))
      && (e == Some(Conflict) <==> MeasuredAlready(s, b, x, items[i]) && NoTwinBefore(items, i))
      && (e == None || e == Some(Conflict) || e == Some(Error.Validation))
  {
    hide HasDirect;
  }

  lemma {:induction false} FirstRefusal(s: State, b: Id, x: Id, actor: string, items: seq<Reading>, n: nat)
    requires x in s.sensors && actor != "" && n <= |items|
    ensures var e := FirstItemError(s, b, x, actor, items, n);
      && (e == None <==> forall j :: 0 <= j < n ==> PointWelcome(s, b, x, items[j]) && NoTwinBefore(items, j))
      && (e == Some(Conflict) <==> StopsAtMeasured(s, b, x, items, n))
      && (e == None || e == Some(Conflict) || e == Some(Error.Validation))
  {
    hide ItemError, NoTwinBefore;
    if n > 0 {
      FirstRefusal(s, b, x, actor, items, n - 1);
      ItemRefusal(s, b, x, actor, items, n - 1);
      NotBoth(s, b, x, items[n - 1]);
    }
  }

  lemma NotBoth(s: State, b: Id, x: Id, item: Reading)
    requires x in s.sensors
    ensures !(PointWelcome(s, b, x, item) && MeasuredAlready(s, b, x, item))
  {
  }

  /** What makes a request conflict with the state it meets. */
  ghost predicate Clashes(s: State, c: Call) {
    var b := c.cmd.batchID;
    b in s.batches &&
    match c.cmd
    case CreateBatch(_, _, _) => true
    case RegisterSensor(_, _, code, metric, unit, lo, hi) =>
      || s.batches[b].status != Draft
      || (!Blank(code) && !Blank(metric) && !Blank(unit) && lo < hi &&
          exists x :: Owns(s, b, x) && s.sensors[x].code == code)
    case LockProfile(_, _, _, _, _, _, _) => s.batches[b].status != Draft
    case Submit(_, x, items, _) =>
      items != [] && (s.batches[b].status !in {PlanLocked, Sampling, Failed, Returned}
                      || (IsCurrent(s, x, b) && StopsAtMeasured(s, b, x, items, |items|)))
    case Recalibrate(_, _, _, _, _) => s.batches[b].status !in {Failed, Returned}
    case Approve(_, _, corrections) => corrections == [] && NoOpen(s, b) && s.batches[b].status != ReadyReview
    case SendBack(_, _, _) => s.batches[b].status !in {ReadyReview, Failed}
    case Resubmit(_, _) => s.batches[b].status != Returned
    case Issue(_, _) => s.batches[b].status != Status.Frozen
  }

  lemma SubmissionRefused(h: Material -> string, s: State, c: Call)
    requires Reachable(h, s) && Fresh(s, c) && EnoughIds(s, c.cmd) && c.cmd.Submit?
    ensures Execute(h, s, c.actor, c.cmd, c.now).error == Some(Conflict) <==> Clashes(s, c)
    ensures Execute(h, s, c.actor, c.cmd, c.now).error != Some(Integrity)
  {
    hide Reachable, Fresh, Execute, EnoughIds, FirstItemError, StopsAtMeasured;
    var b, x, items := c.cmd.batchID, c.cmd.sensorID, c.cmd.items;
    SubmissionNeverConflicts(h, s, c);
    ActorNamed(s, c);
    if x in s.sensors {
      FirstRefusal(s, b, x, c.actor, items, |items|);
    }
  }

  lemma RenewalRefused(h: Material -> string, s: State, c: Call)
    requires Reachable(h, s) && Fresh(s, c) && EnoughIds(s, c.cmd) && c.cmd.Recalibrate?
    ensures Execute(h, s, c.actor, c.cmd, c.now).error == Some(Conflict) <==> Clashes(s, c)
    ensures Execute(h, s, c.actor, c.cmd, c.now).error != Some(Integrity)
  {
    hide Reachable, Fresh, EnoughIds, IsCurrent, CarriesOpen, NewTasks, Blank;
  }

  lemma PreparationRefused(h: Material -> string, s: State, c: Call)
    requires c.cmd.CreateBatch? || c.cmd.RegisterSensor? || c.cmd.LockProfile?
    ensures Execute(h, s, c.actor, c.cmd, c.now).error == Some(Conflict) <==> Clashes(s, c)
    ensures Execute(h, s, c.actor, c.cmd, c.now).error != Some(Integrity)
  {
    hide IsCurrent, SortPoints, Repeats, InRange, Blank;
  }

  lemma ReviewRefused(h: Material -> string, s: State, c: Call)
    requires Reachable(h, s) && (c.cmd.Approve? || c.cmd.SendBack? || c.cmd.Resubmit? || c.cmd.Issue?)
    ensures Execute(h, s, c.actor, c.cmd, c.now).error == Some(Conflict) <==> Clashes(s, c)
    ensures Execute(h, s, c.actor, c.cmd, c.now).error != Some(Integrity)
  {
    hide Reachable, CapturedBy, NoOpen, MaterialOf, Canonical, HasCredential, IsCurrent, CorrectionsFail,
         ManualFindings, CorrectionIds, PointComplete;
    if c.cmd.batchID in s.batches {
      FrozenFacts(h, s, c.cmd.batchID);
    }
  }

  /** In every state of every run a request is answered Conflict exactly when it clashes with the state.
      Together with the exact answers None, Forbidden and NotFound this leaves Validation for the rest. */
  lemma ConflictExactly(h: Material -> string, s: State, c: Call)
    requires Reachable(h, s) && Fresh(s, c) && EnoughIds(s, c.cmd)
    ensures Execute(h, s, c.actor, c.cmd, c.now).error == Some(Conflict) <==> Clashes(s, c)
    ensures Execute(h, s, c.actor, c.cmd, c.now).error != Some(Integrity)
  {
    hide Reachable, Fresh, Execute, EnoughIds, Clashes;
    if c.cmd.Submit? {
      SubmissionRefused(h, s, c);
    } else if c.cmd.Recalibrate? {
      RenewalRefused(h, s, c);
    } else if c.cmd.CreateBatch? || c.cmd.RegisterSensor? || c.cmd.LockProfile? {
      PreparationRefused(h, s, c);
    } else {
      ReviewRefused(h, s, c);
    }
  }
}
