/** Submitting readings keeps the invariant: every point is recorded in turn, and the status
    is then derived from coverage and open findings. */
module Submission {
  import opened Entities
  import Statistics
  import opened Evidence
  import opened Frozen
  import opened Domain
  import opened Invariant
  import opened Recording
  import Consequences
  import opened StatusChange

  /** The identifiers supplied with a submission are new and all different. */
  ghost predicate FreshItems(s: State, items: seq<Reading>) {
    && (forall i :: 0 <= i < |items| ==> UnusedFindingIds(s, items[i].findingIDs))
    && (forall i, j, k, l | 0 <= i < j < |items| && 0 <= k < |items[i].findingIDs| && 0 <= l < |items[j].findingIDs| ::
          items[i].findingIDs[k] != items[j].findingIDs[l])
  }

  /** Everything a submission needs in order to be recorded. */
  ghost predicate Acceptable(s: State, b: Id, x: Id, actor: string, items: seq<Reading>, now: Time) {
    SubmitError(s, b, x, actor, items) == None && FreshItems(s, items) && now != 0
  }

  lemma ItemAcceptable(s: State, b: Id, x: Id, actor: string, items: seq<Reading>, now: Time, i: nat)
    requires Acceptable(s, b, x, actor, items, now) && MeasurementsOk(s) && i < |items|
    ensures Recordable(s, SetOf(b, x, actor, items[i], now))
    ensures forall j :: 0 <= j < i ==> items[j].point != items[i].point && items[j].id != items[i].id
  {
    FirstItemErrorAt(s, b, x, actor, items, |items|, i);
  }

  /** The same finding, at most closed since. */
  ghost predicate SameProblem(f: Finding, g: Finding) {
    && g == f.(status := g.status, resolvedBy := g.resolvedBy, reviewedAt := g.reviewedAt)
    && (f.status == Resolved ==> g == f)
  }

  /** What is new in the state after the first `n` points. */
  ghost predicate Progress(s: State, t: State, b: Id, x: Id, actor: string, items: seq<Reading>, now: Time, n: nat)
    requires n <= |items|
  {
    && t.sensors == s.sensors && t.profiles == s.profiles
    && (forall c :: ProfileOf(t, c) == ProfileOf(s, c))
    && (forall m :: m in t.measurements ==> m in s.measurements || exists i :: 0 <= i < n && m == items[i].id)
    && (forall m :: m in s.measurements ==> m in t.measurements && t.measurements[m] == s.measurements[m])
    && (forall i :: 0 <= i < n ==>
        items[i].id in t.measurements && t.measurements[items[i].id] == SetOf(b, x, actor, items[i], now))
    && (forall f :: f in s.findings ==> f in t.findings && SameProblem(s.findings[f], t.findings[f]))
    && (forall f :: f in t.findings ==>
        f in s.findings || exists i, k :: 0 <= i < n && 0 <= k < |items[i].findingIDs| && f == items[i].findingIDs[k])
  }

  lemma RecordableNext(s: State, t: State, b: Id, x: Id, actor: string, items: seq<Reading>, now: Time, n: nat)
    requires Acceptable(s, b, x, actor, items, now) && MeasurementsOk(s) && n < |items|
    requires Progress(s, t, b, x, actor, items, now, n)
    requires b in t.batches && t.batches[b].status == s.batches[b].status
    ensures Recordable(t, SetOf(b, x, actor, items[n], now))
  {
    var m := SetOf(b, x, actor, items[n], now);
    ItemAcceptable(s, b, x, actor, items, now, n);
    assert ProfileOf(t, b) == ProfileOf(s, b);
    assert MeasurementOk(t, m);
    forall k | k in t.measurements
      ensures k != m.id && !DirectAt(t, k, x, m.point)
    {
      assert k in s.measurements ==> !DirectAt(s, k, x, m.point);
    }
  }

  lemma UnusedNext(s: State, t: State, b: Id, x: Id, actor: string, items: seq<Reading>, now: Time, n: nat)
    requires FreshItems(s, items) && n < |items| && Progress(s, t, b, x, actor, items, now, n)
    ensures UnusedFindingIds(t, items[n].findingIDs)
  {
    forall l | 0 <= l < |items[n].findingIDs|
      ensures items[n].findingIDs[l] !in t.findings
    {
    }
  }

  lemma ProgressNext(s: State, t: State, u: State, b: Id, x: Id, actor: string, items: seq<Reading>, now: Time, n: nat)
    requires n < |items| && Progress(s, t, b, x, actor, items, now, n) && items[n].id !in t.measurements
    requires RecordedBase(t, u, SetOf(b, x, actor, items[n], now))
    requires RecordedFindings(t, u, SetOf(b, x, actor, items[n], now))
    requires forall f :: f in u.findings ==>
        f in t.findings || exists k :: 0 <= k < |items[n].findingIDs| && f == items[n].findingIDs[k]
    ensures Progress(s, u, b, x, actor, items, now, n + 1)
  {
    hide Statistics.StatsOf, Violating, NewFindingOf, AutomaticAt, Passing, AddSampler, ProfileOf, Closes, SameProblem,
        Reviewed;
    RecordedPlans(t, u, SetOf(b, x, actor, items[n], now));
    forall f | f in s.findings
      ensures f in u.findings && SameProblem(s.findings[f], u.findings[f])
    {
      ProblemKept(t, s.findings[f], t.findings[f], SetOf(b, x, actor, items[n], now));
    }
  }

  lemma ProblemKept(t: State, f: Finding, g: Finding, m: Measurement)
    requires SameProblem(f, g)
    ensures SameProblem(f, Reviewed(t, g, m))
  {
  }

  lemma {:induction false} ApplyReadingsKeepCore(s: State, p: Profile, b: Id, x: Id, actor: string,
                                                 items: seq<Reading>, now: Time, n: nat)
    requires Core(s) && Acceptable(s, b, x, actor, items, now) && ProfileOf(s, b) == Some(p) && n <= |items|
    ensures var t := ApplyReadings(s, p, b, x, actor, items[..n], now);
      Core(t) && Progress(s, t, b, x, actor, items, now, n)
  {
    hide Core, Progress;
    if n == 0 {
      assert items[..n] == [];
      ProgressNone(s, b, x, actor, items, now);
    } else {
      ApplyReadingsKeepCore(s, p, b, x, actor, items, now, n - 1);
      assert items[..n][..n - 1] == items[..n - 1];
      var t := ApplyReadings(s, p, b, x, actor, items[..n - 1], now);
      ApplyNext(s, t, p, b, x, actor, items, now, n - 1);
    }
  }

  lemma ProgressNone(s: State, b: Id, x: Id, actor: string, items: seq<Reading>, now: Time)
    ensures Progress(s, s, b, x, actor, items, now, 0)
  {
  }

  lemma ApplyNext(s: State, t: State, p: Profile, b: Id, x: Id, actor: string, items: seq<Reading>, now: Time, n: nat)
    requires Core(s) && Acceptable(s, b, x, actor, items, now) && ProfileOf(s, b) == Some(p) && n < |items|
    requires Core(t) && Progress(s, t, b, x, actor, items, now, n) && b in t.batches
    requires t.batches[b].status == s.batches[b].status
    ensures var u := ApplyReading(t, p, b, x, actor, items[n], now);
      Core(u) && Progress(s, u, b, x, actor, items, now, n + 1)
  {
    var m := SetOf(b, x, actor, items[n], now);
    var u := ApplyReading(t, p, b, x, actor, items[n], now);
    RecordableNext(s, t, b, x, actor, items, now, n);
    UnusedNext(s, t, b, x, actor, items, now, n);
    ApplyReadingRecords(t, p, b, x, actor, items[n], now);
    RecordedFrames(t, u, m);
    RecordedHistory(t, u, m);
    RecordedTaskIndex(t, u, m);
    AddedFindings(t, p, b, x, actor, items[n], now);
    ProgressNext(s, t, u, b, x, actor, items, now, n);
  }

  lemma AddedFindings(t: State, p: Profile, b: Id, x: Id, actor: string, item: Reading, now: Time)
    requires b in t.batches && UnusedFindingIds(t, item.findingIDs)
    ensures var u := ApplyReading(t, p, b, x, actor, item, now);
      forall f :: f in u.findings ==>
          f in t.findings || exists k :: 0 <= k < |item.findingIDs| && f == item.findingIDs[k]
  {
    NewFindingsMean(b, x, DraftsOf(p, item), item.findingIDs);
  }

  // ---------- the other batches ----------

  lemma RecordedOthers(s: State, t: State, m: Measurement, c: Id)
    requires Recorded(s, t, m) && Recordable(s, m) && TasksOk(s) && c != m.batchID
    ensures SameBatch(s, t, c)
  {
    RecordedPlans(s, t, m);
    forall k | k in s.tasks
      ensures t.tasks[k].batchID == s.tasks[k].batchID && (s.tasks[k].batchID == c ==> t.tasks[k] == s.tasks[k])
    {
      assert TaskOk(s, s.tasks[k]);
    }
    forall f | f in s.findings
      ensures t.findings[f].batchID == s.findings[f].batchID
      ensures (s.findings[f].batchID == c ==> t.findings[f] == s.findings[f])
    {
    }
  }

  lemma SameBatchTransitive(s: State, t: State, u: State, c: Id)
    requires SameBatch(s, t, c) && SameBatch(t, u, c)
    ensures SameBatch(s, u, c)
  {
  }

  lemma {:induction false} ApplyReadingsKeepOthers(s: State, p: Profile, b: Id, x: Id, actor: string,
                                                   items: seq<Reading>, now: Time, n: nat, c: Id)
    requires Core(s) && Acceptable(s, b, x, actor, items, now) && ProfileOf(s, b) == Some(p) && n <= |items| && c != b
    ensures SameBatch(s, ApplyReadings(s, p, b, x, actor, items[..n], now), c)
  {
    hide Core, Acceptable, Progress, SameBatch, ApplyReading, ApplyReadings, ProfileOf, Supplied;
    AcceptableSupplied(s, b, x, actor, items, now, n);
    if n == 0 {
      NothingRecorded(s, p, b, x, actor, items[..n], now);
      SameBatchReflexive(s, c);
    } else {
      AcceptableSupplied(s, b, x, actor, items, now, n - 1);
      ApplyReadingsKeepOthers(s, p, b, x, actor, items, now, n - 1, c);
      ApplyReadingsKeepCore(s, p, b, x, actor, items, now, n - 1);
      LastRecorded(s, p, b, x, actor, items, now, n);
      var t := ApplyReadings(s, p, b, x, actor, items[..n - 1], now);
      ApplyNextOthers(s, t, p, b, x, actor, items, now, n - 1, c);
      SameBatchTransitive(s, t, ApplyReading(t, p, b, x, actor, items[n - 1], now), c);
    }
  }

  lemma AcceptableSupplied(s: State, b: Id, x: Id, actor: string, items: seq<Reading>, now: Time, n: nat)
    requires Acceptable(s, b, x, actor, items, now) && n <= |items|
    ensures b in s.batches && Supplied(items[..n])
    ensures forall i :: 0 <= i < |items| ==> |items[i].findingIDs| >= 3
  {
    hide FirstItemError, IsCurrent;
    forall i | 0 <= i < |items|
      ensures |items[i].findingIDs| >= 3
    {
      assert UnusedFindingIds(s, items[i].findingIDs);
    }
  }

  lemma NothingRecorded(s: State, p: Profile, b: Id, x: Id, actor: string, items: seq<Reading>, now: Time)
    requires b in s.batches && items == []
    ensures Supplied(items) && ApplyReadings(s, p, b, x, actor, items, now) == s
  {
  }

  lemma LastRecorded(s: State, p: Profile, b: Id, x: Id, actor: string, items: seq<Reading>, now: Time, n: nat)
    requires b in s.batches && 0 < n <= |items| && Supplied(items[..n]) && Supplied(items[..n - 1])
    ensures |items[n - 1].findingIDs| >= 3
    ensures ApplyReadings(s, p, b, x, actor, items[..n], now) ==
        ApplyReading(ApplyReadings(s, p, b, x, actor, items[..n - 1], now), p, b, x, actor, items[n - 1], now)
  {
    hide ApplyReading;
    assert items[..n][..n - 1] == items[..n - 1] && items[..n][n - 1] == items[n - 1];
  }

  lemma ApplyNextOthers(s: State, t: State, p: Profile, b: Id, x: Id, actor: string, items: seq<Reading>, now: Time,
                        n: nat, c: Id)
    requires Core(s) && Acceptable(s, b, x, actor, items, now) && ProfileOf(s, b) == Some(p) && n < |items| && c != b
    requires Core(t) && Progress(s, t, b, x, actor, items, now, n) && b in t.batches
    requires t.batches[b].status == s.batches[b].status
    ensures SameBatch(t, ApplyReading(t, p, b, x, actor, items[n], now), c)
  {
    RecordableNext(s, t, b, x, actor, items, now, n);
    UnusedNext(s, t, b, x, actor, items, now, n);
    ApplyReadingRecords(t, p, b, x, actor, items[n], now);
    RecordedOthers(t, ApplyReading(t, p, b, x, actor, items[n], now), SetOf(b, x, actor, items[n], now), c);
  }

  lemma SameBatchReflexive(s: State, c: Id)
    ensures SameBatch(s, s, c)
  {
  }

  // ---------- the status that follows ----------

  /** An open finding of a current revision stays open whatever is submitted. */
  lemma CurrentStaysOpen(s: State, t: State, b: Id, x: Id, actor: string, items: seq<Reading>, now: Time, n: nat, y: Id)
    requires n <= |items| && Progress(s, t, b, x, actor, items, now, n) && OpenUntilPassed(t)
    requires y in s.sensors && IsCurrent(s, y, s.sensors[y].batchID) && CarriesOpen(s, y)
    ensures CarriesOpen(t, y)
  {
    var f :| OpenAt(s, f, y);
    assert SameProblem(s.findings[f], t.findings[f]);
    forall m | m in t.measurements
      ensures !PassesLater(t, m, t.findings[f])
    {
    }
    assert OpenAt(t, f, y);
  }

  lemma CarriedNotSettled(s: State, b: Id, y: Id)
    requires FindingsOk(s) && IsCurrent(s, y, b) && CarriesOpen(s, y)
    ensures !NoOpen(s, b)
  {
    if NoOpen(s, b) {
      Consequences.NoneCarried(s, b, y);
    }
  }

  /** The conflict of the status derivation cannot arise: no submission to a failed batch
      leaves it without open findings. */
  lemma FailedStaysUnsettled(s: State, t: State, b: Id, x: Id, actor: string, items: seq<Reading>, now: Time, n: nat)
    requires n <= |items| && Progress(s, t, b, x, actor, items, now, n) && OpenUntilPassed(t) && FindingsOk(t)
    requires b in s.batches && s.batches[b].status == Failed && StatusFits(s, b)
    ensures !NoOpen(t, b)
  {
    var y :| IsCurrent(s, y, b) && CarriesOpen(s, y);
    CurrentStaysOpen(s, t, b, x, actor, items, now, n, y);
    assert IsCurrent(t, y, b);
    CarriedNotSettled(t, b, y);
  }

  /** The status of the batch after evaluation, as a change of its record alone. */
  ghost function WithStatus(t: State, b: Id, next: Status): State
    requires b in t.batches
  {
    t.(batches := t.batches[b := t.batches[b].(status := next, version := t.batches[b].version + 1)])
  }

  lemma EvaluatedCore(t: State, b: Id, next: Status)
    requires Core(t) && b in t.batches && TakesReadings(t.batches[b].status)
    requires next == (if t.batches[b].status == Returned then Returned else EvaluatedStatus(t, b, Covered(t, b)))
    ensures Core(WithStatus(t, b, next)) && Restatus(t, WithStatus(t, b, next), b)
  {
    hide Core, FreezesOk, ReviewsOk, EverMeasured, Restatus;
    var u := WithStatus(t, b, next);
    EvaluatedRestatus(t, b, next);
    EvaluatedParts(t, u, b);
    EvaluatedApply(t, u, b);
  }

  lemma EvaluatedRestatus(t: State, b: Id, next: Status)
    requires Core(t) && b in t.batches && TakesReadings(t.batches[b].status) && next != Draft
    ensures Restatus(t, WithStatus(t, b, next), b)
  {
    hide History, TaskIndex;
    assert BatchOk(t, t.batches[b]);
  }

  lemma EvaluatedParts(t: State, u: State, b: Id)
    requires Core(t) && Restatus(t, u, b) && u.reviews == t.reviews
    requires !Sealed(t.batches[b].status) && !Sealed(u.batches[b].status)
    requires u.batches[b].frozenAt == t.batches[b].frozenAt
    requires Evaluated(u.batches[b].status) && !Evaluated(t.batches[b].status) ==> Covered(t, b)
    ensures FreezesOk(u) && ReviewsOk(u) && EverMeasured(u)
  {
    hide TaskIndex, FreezesOk, ReviewsOk, EverMeasured, Restatus;
    EvaluatedMeasured(t, u, b);
    EvaluatedFreezes(t, u, b);
  }

  lemma EvaluatedApply(t: State, u: State, b: Id)
    requires Core(t) && Restatus(t, u, b) && u.credentials == t.credentials && FreezesOk(u) && ReviewsOk(u)
    requires EverMeasured(u)
    ensures Core(u)
  {
    CredentialsKeyed(t, u);
    hide Core, FreezesOk, ReviewsOk, EverMeasured, Restatus;
    RestatusCore(t, u, b);
  }

  lemma CredentialsKeyed(t: State, u: State)
    requires Core(t) && u.credentials == t.credentials
    ensures forall k :: k in u.credentials ==> u.credentials[k].id == k
  {
    hide History, TaskIndex;
  }

  lemma EvaluatedFreezes(t: State, u: State, b: Id)
    requires FreezesOk(t) && ReviewsOk(t) && Restatus(t, u, b) && u.reviews == t.reviews
    requires !Sealed(t.batches[b].status) && !Sealed(u.batches[b].status)
    requires u.batches[b].frozenAt == t.batches[b].frozenAt
    ensures FreezesOk(u) && ReviewsOk(u)
  {
  }

  lemma EvaluatedMeasured(t: State, u: State, b: Id)
    requires EverMeasured(t) && Restatus(t, u, b)
    requires Evaluated(u.batches[b].status) && !Evaluated(t.batches[b].status) ==> Covered(t, b)
    ensures EverMeasured(u)
  {
    RestatusPlans(t, u, b);
    forall x, p | x in u.sensors && u.sensors[x].batchID in u.batches &&
        Evaluated(u.batches[u.sensors[x].batchID].status)
        && PlanPoint(u, u.sensors[x].batchID, p)
      ensures Measured(u, u.sensors[x].batchID, u.sensors[x].code, p)
    {
      if u.sensors[x].batchID == b && !Evaluated(t.batches[b].status) {
        Consequences.CoveredAllMeasured(t, b, x, p);
      }
      var m :| MeasuredBy(t, m, t.sensors[x].batchID, t.sensors[x].code, p);
      assert MeasuredBy(u, m, u.sensors[x].batchID, u.sensors[x].code, p);
    }
  }

  lemma EvaluatedFits(t: State, u: State, b: Id)
    requires Core(t) && Restatus(t, u, b)
    requires u.batches[b].status == Returned || u.batches[b].status == EvaluatedStatus(t, b, Covered(t, b))
    ensures StatusFits(u, b)
  {
    hide TaskIndex, Covered, Restatus, Keyed, BatchesOk, SensorListsOk, MeasurementsOk, FailuresFound,
         OpenUntilPassed, FindingsOk, NoOpen;
    hide SensorsOk, RevisionsUnique, RevisionsChained, ProfilesOk, RangesOk, DraftsPlain, FreezesOk, ReviewsOk;
    hide DirectUnique, SamplersOk, PreviousMeasured, EverMeasured, ResolvedOk, FindingsFounded, IsCurrent,
         CarriesOpen, Unmeasured;
    SameOpen(t, u, b);
    if u.batches[b].status == Failed {
      EvaluatedFailed(t, u, b);
    } else if u.batches[b].status == Sampling {
      EvaluatedSampling(t, u, b);
    }
  }

  lemma SameOpen(t: State, u: State, b: Id)
    requires Restatus(t, u, b)
    ensures NoOpen(u, b) <==> NoOpen(t, b)
    ensures b in u.batches
  {
  }

  lemma EvaluatedFailed(t: State, u: State, b: Id)
    requires MeasurementsOk(t) && FailuresFound(t) && OpenUntilPassed(t) && FindingsOk(t) && Restatus(t, u, b)
    requires Covered(t, b) && !NoOpen(t, b)
    ensures exists x :: IsCurrent(u, x, b) && CarriesOpen(u, x)
  {
    RestatusPlans(t, u, b);
    Consequences.CoveredOpenCarried(t, b);
    var x :| IsCurrent(t, x, b) && CarriesOpen(t, x);
    var f :| OpenAt(t, f, x);
    assert OpenAt(u, f, x);
    assert IsCurrent(u, x, b) && CarriesOpen(u, x);
  }

  lemma EvaluatedSampling(t: State, u: State, b: Id)
    requires MeasurementsOk(t) && BatchesOk(t) && SensorListsOk(t) && Keyed(t) && Restatus(t, u, b)
    requires !Covered(t, b)
    ensures exists x, p :: Unmeasured(u, b, x, p)
  {
    RestatusPlans(t, u, b);
    Consequences.UncoveredUnmeasured(t, b);
    var x, p :| Unmeasured(t, b, x, p);
    forall m
      ensures !DirectAt(u, m, x, p)
    {
      assert !DirectAt(t, m, x, p);
    }
    assert Unmeasured(u, b, x, p);
  }

  /** A submission that passes its checks is never refused afterwards, keeps the invariant,
      leaves every other batch alone and raises the version by one. */
  lemma SubmitKeeps(h: Material -> string, s: State, b: Id, x: Id, actor: string, items: seq<Reading>, now: Time)
    requires Inv(h, s) && Acceptable(s, b, x, actor, items, now)
    ensures var o := SubmitStep(s, b, x, actor, items, now);
      && o.error == None && Inv(h, o.state) && OthersKept(s, o.state, b)
      && o.state.batches.Keys == s.batches.Keys && o.state.batches[b].version == s.batches[b].version + 1
  {
    hide Core, Acceptable, Supplied, ApplyReadings, Progress, SameBatch, CredentialsOk, CredentialsUnique, Restatus,
         StatusFits, SubmitStep, SubmitError, StatusOk, EvaluatedStatus, OthersKept, Inv;
    AcceptableStarts(s, b, x, actor, items, now);
    InvParts(h, s);
    var p := ProfileOf(s, b).value;
    assert items[..|items|] == items;
    ApplyReadingsKeepCore(s, p, b, x, actor, items, now, |items|);
    var t := ApplyReadings(s, p, b, x, actor, items, now);
    var next := if t.batches[b].status == Returned then Returned else EvaluatedStatus(t, b, Covered(t, b));
    var u := WithStatus(t, b, next);
    EvaluatedCore(t, b, next);
    EvaluatedFits(t, u, b);
    if s.batches[b].status == Failed {
      FailedUnsettled(s, t, b, x, actor, items, now);
    }
    SubmitLands(s, t, p, b, x, actor, items, now);
    SubmitOthers(s, t, u, p, b, x, actor, items, now);
    NeverReleased(t, b, next);
    SubmitClaims(h, s, u, b);
  }

  lemma NeverReleased(t: State, b: Id, next: Status)
    requires next == Returned || next == EvaluatedStatus(t, b, Covered(t, b))
    ensures next != Released
  {
  }

  lemma InvParts(h: Material -> string, s: State)
    requires Inv(h, s)
    ensures Core(s) && StatusOk(s)
  {
    hide Core, StatusOk, CredentialsOk, CredentialsUnique;
  }

  lemma AcceptableStarts(s: State, b: Id, x: Id, actor: string, items: seq<Reading>, now: Time)
    requires Acceptable(s, b, x, actor, items, now)
    ensures SubmitError(s, b, x, actor, items) == None && Supplied(items)
    ensures b in s.batches && TakesReadings(s.batches[b].status) && ProfileOf(s, b).Some?
  {
    hide FirstItemError, IsCurrent;
    AcceptableSupplied(s, b, x, actor, items, now, |items|);
    assert items[..|items|] == items;
    PlanNeeded(s, b, x, actor, items);
  }

  /** An accepted submission is the recording of its points and the status that follows. */
  lemma SubmitLands(s: State, t: State, p: Profile, b: Id, x: Id, actor: string, items: seq<Reading>, now: Time)
    requires SubmitError(s, b, x, actor, items) == None && Supplied(items) && ProfileOf(s, b) == Some(p)
    requires b in s.batches && t == ApplyReadings(s, p, b, x, actor, items, now)
    requires TakesReadings(s.batches[b].status) && (s.batches[b].status == Failed ==> !NoOpen(t, b))
    ensures SubmitStep(s, b, x, actor, items, now) == Done(WithStatus(t, b,
        if t.batches[b].status == Returned then Returned else EvaluatedStatus(t, b, Covered(t, b))))
  {
    hide SubmitError, ApplyReadings, Covered, NoOpen, Supplied;
  }

  lemma SubmitOthers(s: State, t: State, u: State, p: Profile, b: Id, x: Id, actor: string, items: seq<Reading>,
                     now: Time)
    requires Core(s) && Acceptable(s, b, x, actor, items, now) && ProfileOf(s, b) == Some(p) && Supplied(items)
    requires t == ApplyReadings(s, p, b, x, actor, items, now)
    requires Restatus(t, u, b) && u.credentials == t.credentials && u.reviews == t.reviews
    ensures OthersKept(s, u, b)
  {
    hide Core, Acceptable, Supplied, ApplyReadings, Progress, SameBatch, Restatus;
    assert items[..|items|] == items;
    forall c | c != b
      ensures SameBatch(s, u, c)
    {
      ApplyReadingsKeepOthers(s, p, b, x, actor, items, now, |items|, c);
      RestatusOthers(t, u, b, c);
      SameBatchTransitive(s, t, u, c);
    }
  }

  lemma FailedUnsettled(s: State, t: State, b: Id, x: Id, actor: string, items: seq<Reading>, now: Time)
    requires Core(t) && StatusOk(s) && Progress(s, t, b, x, actor, items, now, |items|)
    requires b in s.batches && s.batches[b].status == Failed
    ensures !NoOpen(t, b)
  {
    FailedStaysUnsettled(s, t, b, x, actor, items, now, |items|);
  }

  lemma RestatusOthers(t: State, u: State, b: Id, c: Id)
    requires Restatus(t, u, b) && c != b && u.credentials == t.credentials && u.reviews == t.reviews
    ensures SameBatch(t, u, c)
  {
    RestatusPlans(t, u, b);
  }

  lemma SubmitClaims(h: Material -> string, s: State, u: State, b: Id)
    requires b in s.batches && s.batches[b].status != Released && u.batches.Keys == s.batches.Keys
    requires u.batches[b].status != Released
    requires Inv(h, s) && Core(u) && OthersKept(s, u, b) && StatusFits(u, b) && u.credentials == s.credentials
    ensures Inv(h, u)
  {
    hide Frames, TaskIndex, MeasurementOk, DirectUnique, SamplersOk, PreviousMeasured, EverMeasured, OpenUntilPassed,
         ResolvedOk, FailuresFound, FindingsFounded, CredentialsOk, CredentialsUnique;
    hide SameBatch, StatusFits;
    OthersStatus(s, u, b);
    OthersCredentials(h, s, u, b);
  }
}
