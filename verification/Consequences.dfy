/** What the invariant says about coverage and findings of one batch. */
module Consequences {
  import opened Entities
  import Statistics
  import opened Evidence
  import opened Invariant

  ghost function RevisionsAbove(s: State, n: int): set<Id> {
    set y | y in s.sensors && s.sensors[y].revision > n
  }

  /** Every sensor of a batch has a current revision. */
  lemma {:induction false} CurrentExists(s: State, x: Id) returns (c: Id)
    requires x in s.sensors
    ensures IsCurrent(s, c, s.sensors[x].batchID) && SameLine(s.sensors[c], s.sensors[x])
    ensures s.sensors[x].revision <= s.sensors[c].revision
    decreases RevisionsAbove(s, s.sensors[x].revision)
  {
    if IsCurrent(s, x, s.sensors[x].batchID) {
      c := x;
    } else {
      var y :| y in s.sensors && SameLine(s.sensors[y], s.sensors[x]) && s.sensors[y].revision > s.sensors[x].revision;
      assert y in RevisionsAbove(s, s.sensors[x].revision) - RevisionsAbove(s, s.sensors[y].revision);
      assert RevisionsAbove(s, s.sensors[y].revision) < RevisionsAbove(s, s.sensors[x].revision);
      c := CurrentExists(s, y);
    }
  }

  lemma FailingViolates(s: State, m: Measurement) returns (kind: string)
    requires ProfileOf(s, m.batchID).Some? && !Passing(s, m)
    ensures Violating(s, m, kind)
  {
    var p := ProfileOf(s, m.batchID).value;
    kind := if m.stats.absoluteError > p.absoluteTolerance then Statistics.ABSOLUTE_ERROR
            else if m.stats.relativeError > p.relativeTolerance then
                Statistics.RELATIVE_ERROR else Statistics.REPEATABILITY;
  }

  /** A failing measurement leaves an open finding on its revision until a later revision passes. */
  lemma FailingCarriesOpen(s: State, m: Id) returns (f: Id)
    requires MeasurementsOk(s) && FailuresFound(s) && OpenUntilPassed(s)
    requires m in s.measurements && !Passing(s, s.measurements[m])
    requires forall n | n in s.measurements && s.measurements[n].point == s.measurements[m].point &&
        s.measurements[n].sensorID in s.sensors
               && Passing(s, s.measurements[n]) ::
                   !Earlier(s, s.measurements[m].sensorID, s.sensors[s.measurements[n].sensorID])
    ensures OpenAt(s, f, s.measurements[m].sensorID) && s.findings[f].point == s.measurements[m].point
  {
    var mm := s.measurements[m];
    assert MeasurementOk(s, mm);
    var kind := FailingViolates(s, mm);
    f :| AutomaticAt(s, f, mm.sensorID, mm.point, kind);
    assert !LaterPass(s, s.findings[f]);
  }

  lemma FailingCurrentCarriesOpen(s: State, m: Id)
    requires MeasurementsOk(s) && FailuresFound(s) && OpenUntilPassed(s)
    requires m in s.measurements && !Passing(s, s.measurements[m])
    requires IsCurrent(s, s.measurements[m].sensorID, s.measurements[m].batchID)
    ensures CarriesOpen(s, s.measurements[m].sensorID)
  {
    var f := FailingCarriesOpen(s, m);
  }

  lemma EvidenceMeasures(s: State, m: Id, c: Id, p: real)
    requires IsEvidence(s, m, c, p)
    ensures MeasuredBy(s, m, s.sensors[c].batchID, s.sensors[c].code, p)
  {
  }

  lemma CoveredAllMeasured(s: State, b: Id, x: Id, p: real)
    requires Covered(s, b) && x in s.sensors && s.sensors[x].batchID == b && PlanPoint(s, b, p)
    ensures Measured(s, b, s.sensors[x].code, p)
  {
    var c := CurrentExists(s, x);
    var m :| IsEvidence(s, m, c, p);
    EvidenceMeasures(s, m, c, p);
  }

  lemma UncoveredUnmeasured(s: State, b: Id)
    requires MeasurementsOk(s) && b in s.batches && BatchOk(s, s.batches[b]) && SensorListsOk(s) && s.batches[b].id == b
    requires s.batches[b].status != Draft && !Covered(s, b)
    ensures exists x, p :: Unmeasured(s, b, x, p)
  {
    var first := s.batches[b].sensorIDs[0];
    assert first in s.batches[b].sensorIDs;
    var c := CurrentExists(s, first);
    var x, p :| IsCurrent(s, x, b) && p in ProfileOf(s, b).value.points
      && !(exists m :: IsEvidence(s, m, x, p) && |s.measurements[m].readings| == ProfileOf(s, b).value.repetitions);
    if HasDirect(s, x, p) {
      var m :| DirectAt(s, m, x, p);
      assert MeasurementOk(s, s.measurements[m]);
      assert IsEvidence(s, m, x, p);
    }
    assert Unmeasured(s, b, x, p);
  }

  /** With full coverage, an open finding of the batch is carried by some current revision. */
  lemma CoveredOpenCarried(s: State, b: Id)
    requires MeasurementsOk(s) && FailuresFound(s) && OpenUntilPassed(s) && FindingsOk(s)
    requires Covered(s, b) && !NoOpen(s, b)
    ensures exists x :: IsCurrent(s, x, b) && CarriesOpen(s, x)
  {
    var f :| f in s.findings && s.findings[f].batchID == b && s.findings[f].status == Open;
    var ff := s.findings[f];
    assert FindingOk(s, ff);
    var c := CurrentExists(s, ff.sensorID);
    if c == ff.sensorID {
      assert OpenAt(s, f, c);
    } else if s.sensors[c].revision == s.sensors[ff.sensorID].revision {
      assert IsCurrent(s, ff.sensorID, b);
      assert OpenAt(s, f, ff.sensorID);
    } else {
      var m :| IsEvidence(s, m, c, ff.point);
      assert BlockedBy(s, f, s.sensors[c], ff.point);
      assert DirectAt(s, m, c, ff.point);
      assert MeasurementOk(s, s.measurements[m]);
      if Passing(s, s.measurements[m]) {
        assert PassesLater(s, m, ff);
        assert false;
      }
      FailingCurrentCarriesOpen(s, m);
    }
  }

  /** Coverage as the program decides it is never more than coverage within the batch. */
  lemma CoveredIsScoped(s: State, b: Id)
    requires Covered(s, b)
    ensures ScopedCovered(s, b)
  {
    forall x, p | IsCurrent(s, x, b) && p in ProfileOf(s, b).value.points
      ensures exists m :: IsScopedEvidence(s, m, x, p) && |s.measurements[m].readings| == ProfileOf(s, b).value.repetitions
    {
      var m :| IsEvidence(s, m, x, p) && |s.measurements[m].readings| == ProfileOf(s, b).value.repetitions;
      EvidenceIsScoped(s, m, x, p);
    }
  }

  lemma EvidenceIsScoped(s: State, m: Id, x: Id, p: real)
    requires IsEvidence(s, m, x, p)
    ensures IsScopedEvidence(s, m, x, p)
  {
    if BlockedInBatch(s, s.sensors[x], p) && !HasDirect(s, x, p) {
      var f :| OpenEarlier(s, f, s.sensors[x], p);
      assert BlockedBy(s, f, s.sensors[x], p);
    }
  }

  ghost predicate CodeUnshared(s: State, x: Sensor) {
    forall y :: y in s.sensors && s.sensors[y].code == x.code ==> s.sensors[y].batchID == x.batchID
  }

  /** The two notions of evidence agree when no other batch uses the sensor code. */
  lemma UnsharedEvidenceAgrees(s: State, m: Id, x: Id, p: real)
    requires x in s.sensors && CodeUnshared(s, s.sensors[x])
    ensures IsEvidence(s, m, x, p) <==> IsScopedEvidence(s, m, x, p)
  {
    if Blocked(s, s.sensors[x], p) {
      var f :| BlockedBy(s, f, s.sensors[x], p);
      assert OpenEarlier(s, f, s.sensors[x], p);
    }
    if IsEvidence(s, m, x, p) {
      EvidenceIsScoped(s, m, x, p);
    }
  }

  lemma {:induction false} LatestExists(s: State, m: Id, x: Sensor, p: real) returns (n: Id)
    requires PreviousAt(s, m, x, p)
    ensures LatestPrevious(s, n, x, p)
    decreases x.revision - RevisionOf(s, m)
  {
    if k :| PreviousAt(s, k, x, p) && RevisionOf(s, k) > RevisionOf(s, m) {
      n := LatestExists(s, k, x, p);
    } else {
      n := m;
    }
  }

  /** The latest earlier measurement at a point that no open earlier finding blocks has passed. */
  lemma UnblockedLatestPasses(s: State, m: Id, x: Id, p: real)
    requires MeasurementsOk(s) && FailuresFound(s) && OpenUntilPassed(s)
    requires x in s.sensors && LatestPrevious(s, m, s.sensors[x], p) && !BlockedInBatch(s, s.sensors[x], p)
    requires !HasDirect(s, x, p) && NoneLater(s, s.sensors[x], x, p)
    ensures Passing(s, s.measurements[m])
  {
    forall n | n in s.measurements && s.measurements[n].point == p && s.measurements[n].sensorID in s.sensors &&
        Passing(s, s.measurements[n])
      ensures !Earlier(s, s.measurements[m].sensorID, s.sensors[s.measurements[n].sensorID])
    {
      LatestHasNoneAfter(s, m, n, x, p);
    }
    if !Passing(s, s.measurements[m]) {
      var f := FailingCarriesOpen(s, m);
      assert OpenEarlier(s, f, s.sensors[x], p);
    }
  }

  lemma LatestHasNoneAfter(s: State, m: Id, n: Id, x: Id, p: real)
    requires x in s.sensors && LatestPrevious(s, m, s.sensors[x], p) && !HasDirect(s, x, p)
    requires NoneLater(s, s.sensors[x], x, p)
    requires n in s.measurements && s.measurements[n].point == p && s.measurements[n].sensorID in s.sensors
    ensures !Earlier(s, s.measurements[m].sensorID, s.sensors[s.measurements[n].sensorID])
  {
    var y := s.measurements[n].sensorID;
    assert DirectAt(s, n, y, p);
    assert SameLine(s.sensors[y], s.sensors[x]) ==> PreviousAt(s, n, s.sensors[x], p);
  }

  /** Nothing of the sensor other than earlier revisions of `x` has been measured at the point. */
  ghost predicate NoneLater(s: State, x: Sensor, id: Id, p: real) {
    forall m, y | DirectAt(s, m, y, p) && y in s.sensors &&
        SameLine(s.sensors[y], x) :: y == id || s.sensors[y].revision < x.revision
  }

  /** In a batch with no open finding, the evidence of a current revision at a measured point passes. */
  lemma SettledEvidence(s: State, b: Id, x: Id, p: real) returns (m: Id)
    requires Frames(s) && History(s) && NoOpen(s, b) && IsCurrent(s, x, b) && PlanPoint(s, b, p)
    requires Measured(s, b, s.sensors[x].code, p)
    ensures IsScopedEvidence(s, m, x, p) && Passing(s, s.measurements[m])
    ensures |s.measurements[m].readings| == ProfileOf(s, b).value.repetitions
  {
    if HasDirect(s, x, p) {
      m :| DirectAt(s, m, x, p);
      SettledDirect(s, b, m);
    } else {
      m := SettledPrevious(s, b, x, p);
    }
    assert MeasurementOk(s, s.measurements[m]);
  }

  lemma NoneCarried(s: State, b: Id, x: Id)
    requires FindingsOk(s) && NoOpen(s, b) && x in s.sensors && s.sensors[x].batchID == b
    ensures !CarriesOpen(s, x)
  {
    forall f | f in s.findings
      ensures !OpenAt(s, f, x)
    {
      assert FindingOk(s, s.findings[f]);
    }
  }

  lemma SettledDirect(s: State, b: Id, m: Id)
    requires MeasurementsOk(s) && FailuresFound(s) && OpenUntilPassed(s) && FindingsOk(s) && NoOpen(s, b)
    requires m in s.measurements && IsCurrent(s, s.measurements[m].sensorID, b)
    ensures Passing(s, s.measurements[m])
  {
    assert MeasurementOk(s, s.measurements[m]);
    if !Passing(s, s.measurements[m]) {
      NoneCarried(s, b, s.measurements[m].sensorID);
      FailingCurrentCarriesOpen(s, m);
    }
  }

  lemma SettledPrevious(s: State, b: Id, x: Id, p: real) returns (m: Id)
    requires MeasurementsOk(s) && FailuresFound(s) && OpenUntilPassed(s) && FindingsOk(s) && RevisionsUnique(s)
    requires SensorsOk(s)
    requires NoOpen(s, b) && IsCurrent(s, x, b) && Measured(s, b, s.sensors[x].code, p) && !HasDirect(s, x, p)
    ensures IsScopedEvidence(s, m, x, p) && Passing(s, s.measurements[m])
  {
    var k := MeasuredEarlier(s, b, x, p);
    m := LatestExists(s, k, s.sensors[x], p);
    NoOpenNotBlocked(s, b, x, p);
    NoneLaterThanCurrent(s, b, x, p);
    UnblockedLatestPasses(s, m, x, p);
  }

  /** What was measured at a point, but not on the current revision, was measured on an earlier one. */
  lemma MeasuredEarlier(s: State, b: Id, x: Id, p: real) returns (m: Id)
    requires RevisionsUnique(s) && SensorsOk(s)
    requires IsCurrent(s, x, b) && Measured(s, b, s.sensors[x].code, p) && !HasDirect(s, x, p)
    ensures PreviousAt(s, m, s.sensors[x], p) && s.sensors[x].revision > 1
  {
    m :| MeasuredBy(s, m, b, s.sensors[x].code, p);
    var y := s.measurements[m].sensorID;
    assert SameLine(s.sensors[y], s.sensors[x]);
    assert DirectAt(s, m, y, p);
    assert SensorOk(s, s.sensors[y]);
  }

  lemma NoOpenNotBlocked(s: State, b: Id, x: Id, p: real)
    requires FindingsOk(s) && NoOpen(s, b) && IsCurrent(s, x, b)
    ensures !BlockedInBatch(s, s.sensors[x], p)
  {
    forall f | f in s.findings
      ensures !OpenEarlier(s, f, s.sensors[x], p)
    {
      assert FindingOk(s, s.findings[f]);
    }
  }

  lemma NoneLaterThanCurrent(s: State, b: Id, x: Id, p: real)
    requires RevisionsUnique(s) && IsCurrent(s, x, b)
    ensures NoneLater(s, s.sensors[x], x, p)
  {
  }
}
