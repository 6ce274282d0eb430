/** Evidence, coverage and retest tasks as the evaluator computes them: loops over the maps of
    a snapshot that fill local maps. */
module Evaluation {
  import opened Entities
  import opened Statistics
  import opened Evidence
  import Frozen
  import opened Text
  import opened Domain
  import opened Invariant
  import opened Snapshots
  import Calibration

  // ---------- evidence ----------

  /** `out` names for every point the newest of the earlier measurements in `done`. */
  ghost predicate NewestEarlier(s: State, x: Sensor, done: set<Id>, out: map<real, Id>) {
    && (forall p | p in out :: out[p] in done && PreviousAt(s, out[p], x, p))
    && (forall n, p | n in done && PreviousAt(s, n, x, p) :: p in out && RevisionOf(s, n) <= RevisionOf(s, out[p]))
  }

  method EarlierRevisions(s: Snapshot, x: Sensor) returns (revisions: map<Id, int>)
    ensures forall y :: y in revisions <==> Earlier(s.View(), y, x)
    ensures forall y :: y in revisions ==> y in s.sensors && revisions[y] == s.sensors[y].revision
  {
    revisions := map[];
    var todo := s.sensors.Keys;
    while todo != {}
      invariant todo <= s.sensors.Keys
      invariant forall y :: y in revisions <==> y !in todo && Earlier(s.View(), y, x)
      invariant forall y :: y in revisions ==> revisions[y] == s.sensors[y].revision
      decreases todo
    {
      var y :| y in todo;
      todo := todo - {y};
      if s.sensors[y].batchID == x.batchID && s.sensors[y].code == x.code && s.sensors[y].revision < x.revision {
        revisions := revisions[y := s.sensors[y].revision];
      }
    }
  }

  method PreviousEvidenceByPoint(s: Snapshot, x: Sensor) returns (out: map<real, Id>)
    ensures forall p :: p in out ==> LatestPrevious(s.View(), out[p], x, p)
    ensures forall p :: p !in out ==> !HasPrevious(s.View(), x, p)
  {
    var revisions := EarlierRevisions(s, x);
    out := map[];
    var todo := s.measurements.Keys;
    while todo != {}
      invariant todo <= s.measurements.Keys
      invariant NewestEarlier(s.View(), x, s.measurements.Keys - todo, out)
      decreases todo
    {
      var m :| m in todo;
      todo := todo - {m};
      var y, p := s.measurements[m].sensorID, s.measurements[m].point;
      if y in revisions && (p !in out || revisions[s.measurements[out[p]].sensorID] < revisions[y]) {
        out := out[p := m];
      }
    }
  }

  method UnresolvedProblemPoints(s: Snapshot, x: Sensor) returns (points: set<real>)
    ensures forall p :: p in points <==> Blocked(s.View(), x, p)
  {
    points := {};
    var todo := s.findings.Keys;
    while todo != {}
      invariant todo <= s.findings.Keys
      invariant forall p :: p in points ==> Blocked(s.View(), x, p)
      invariant forall f, p :: f !in todo && BlockedBy(s.View(), f, x, p) ==> p in points
      decreases todo
    {
      var f :| f in todo;
      todo := todo - {f};
      var y := s.findings[f].sensorID;
      if y in s.sensors && s.sensors[y].code == x.code && s.sensors[y].revision < x.revision {
        if s.findings[f].status == Open {
          assert BlockedBy(s.View(), f, x, s.findings[f].point);
          points := points + {s.findings[f].point};
        }
      }
    }
  }

  method DirectEvidence(s: Snapshot, x: Id) returns (direct: map<real, Id>)
    ensures forall p :: p in direct ==> DirectAt(s.View(), direct[p], x, p)
    ensures forall p :: p !in direct ==> !HasDirect(s.View(), x, p)
  {
    direct := map[];
    var todo := s.measurements.Keys;
    while todo != {}
      invariant todo <= s.measurements.Keys
      invariant forall p :: p in direct ==> DirectAt(s.View(), direct[p], x, p)
      invariant forall m, p :: m !in todo && DirectAt(s.View(), m, x, p) ==> p in direct
      decreases todo
    {
      var m :| m in todo;
      todo := todo - {m};
      if s.measurements[m].sensorID == x {
        direct := direct[s.measurements[m].point := m];
      }
    }
  }

  /** The evidence of a revision, point by point: exactly what `IsEvidence` allows, whatever the
      order in which the maps are read. */
  method EffectiveEvidence(s: Snapshot, x: Id) returns (out: map<real, Id>)
    requires x in s.sensors
    ensures forall p :: p in out ==> IsEvidence(s.View(), out[p], x, p)
    ensures forall p :: p in out <==> HasEvidence(s.View(), x, p)
  {
    hide DirectAt, HasDirect, LatestPrevious, HasPrevious, Blocked;
    var sensor := s.sensors[x];
    var direct := DirectEvidence(s, x);
    DirectMeans(s.View(), x);
    if sensor.revision == 1 {
      return direct;
    }
    var problems := UnresolvedProblemPoints(s, sensor);
    var previous := PreviousEvidenceByPoint(s, sensor);
    PreviousMeans(s.View(), sensor);
    out := direct;
    var todo := previous.Keys;
    while todo != {}
      invariant todo <= previous.Keys
      invariant forall p :: p in out <==> p in direct || (p in previous && p !in todo && p !in problems)
      invariant forall p :: p in out ==> out[p] == if p in direct then direct[p] else previous[p]
      decreases todo
    {
      var p :| p in todo;
      todo := todo - {p};
      if p !in out && p !in problems {
        out := out[p := previous[p]];
      }
    }
  }

  lemma DirectMeans(s: State, x: Id)
    ensures forall m, p :: DirectAt(s, m, x, p) ==> HasDirect(s, x, p)
  {
  }

  lemma PreviousMeans(s: State, x: Sensor)
    ensures forall m, p :: LatestPrevious(s, m, x, p) ==> HasPrevious(s, x, p)
  {
  }

  // ---------- coverage ----------

  datatype PointCoverage = PointCoverage(point: real, required: int, observed: int, evidenceRevision: Id,
      inherited: bool, complete: bool)

  datatype SensorCoverage = SensorCoverage(code: string, revision: Id, points: seq<PointCoverage>, complete: bool)

  datatype CoverageReport = CoverageReport(batchID: Id, sensors: seq<SensorCoverage>, complete: bool)

  const NO_COVERAGE := CoverageReport("", [], false)

  /** What the report says of one point is what the evidence says. */
  ghost predicate PointReported(s: State, b: Id, x: Id, p: real, item: PointCoverage) {
    && item.point == p && ProfileOf(s, b).Some? && item.required == ProfileOf(s, b).value.repetitions
    && (item.complete <==> PointComplete(s, b, x, p))
    && (HasEvidence(s, x, p) ==> exists m :: EvidenceReported(s, m, x, p, item))
    && (!HasEvidence(s, x, p) ==> item.observed == 0 && item.evidenceRevision == "" && !item.inherited)
  }

  ghost predicate EvidenceReported(s: State, m: Id, x: Id, p: real, item: PointCoverage) {
    && IsEvidence(s, m, x, p) && item.observed == |s.measurements[m].readings| &&
        item.evidenceRevision == s.measurements[m].sensorID
    && (item.inherited <==> s.measurements[m].sensorID != x)
  }

  ghost predicate SensorReported(s: State, b: Id, item: SensorCoverage) {
    && ProfileOf(s, b).Some? && IsCurrent(s, item.revision, b) && item.code == s.sensors[item.revision].code
    && |item.points| == |ProfileOf(s, b).value.points|
    && (forall i :: 0 <= i < |item.points| ==>
        PointReported(s, b, item.revision, ProfileOf(s, b).value.points[i], item.points[i]))
    && (item.complete <==> AllComplete(s, b, item.revision))
  }

  ghost predicate AllComplete(s: State, b: Id, x: Id) {
    ProfileOf(s, b).Some? && forall i :: 0 <= i < |ProfileOf(s, b).value.points| ==>
        PointComplete(s, b, x, ProfileOf(s, b).value.points[i])
  }

  /** There is one measurement that can be the evidence, so its size decides completeness. */
  lemma EvidenceSize(s: State, b: Id, m: Id, x: Id, p: real)
    requires DirectUnique(s) && RevisionsUnique(s) && IsEvidence(s, m, x, p) && ProfileOf(s, b).Some?
    ensures PointComplete(s, b, x, p) <==> |s.measurements[m].readings| == ProfileOf(s, b).value.repetitions
  {
    forall n | IsEvidence(s, n, x, p)
      ensures n == m
    {
      OnlyEvidence(s, m, n, x, p);
    }
  }

  lemma OnlyEvidence(s: State, m: Id, n: Id, x: Id, p: real)
    requires DirectUnique(s) && RevisionsUnique(s) && IsEvidence(s, m, x, p) && IsEvidence(s, n, x, p)
    ensures m == n
  {
    if !HasDirect(s, x, p) {
      OnlyLatest(s, m, n, s.sensors[x], p);
    }
  }

  lemma OnlyLatest(s: State, m: Id, n: Id, x: Sensor, p: real)
    requires DirectUnique(s) && RevisionsUnique(s) && LatestPrevious(s, m, x, p) && LatestPrevious(s, n, x, p)
    ensures m == n
  {
    assert RevisionOf(s, m) == RevisionOf(s, n);
  }

  method CoverPoint(s: Snapshot, b: Id, x: Id, p: real, evidence: map<real, Id>, required: int)
    returns (item: PointCoverage)
    requires DirectUnique(s.View()) && RevisionsUnique(s.View()) && x in s.sensors
    requires ProfileOf(s.View(), b).Some? && required == ProfileOf(s.View(), b).value.repetitions
    requires p in evidence ==> IsEvidence(s.View(), evidence[p], x, p)
    requires p in evidence <==> HasEvidence(s.View(), x, p)
    ensures PointReported(s.View(), b, x, p, item)
  {
    hide IsEvidence, DirectUnique, RevisionsUnique;
    item := PointCoverage(p, required, 0, "", false, false);
    if p in evidence {
      EvidenceSize(s.View(), b, evidence[p], x, p);
      EvidenceStored(s.View(), evidence[p], x, p);
      var m := s.measurements[evidence[p]];
      item := PointCoverage(p, required, |m.readings|, m.sensorID, m.sensorID != x, |m.readings| == required);
      assert EvidenceReported(s.View(), evidence[p], x, p, item);
    }
  }

  /** A reported point is inherited exactly when the revision has evidence there but no measurement of
      its own; without evidence nothing is observed. */
  lemma InheritedMeans(s: State, b: Id, x: Id, p: real, item: PointCoverage)
    requires PointReported(s, b, x, p, item)
    ensures item.point == p && (item.inherited <==> HasEvidence(s, x, p) && !HasDirect(s, x, p))
    ensures item.evidenceRevision == x ==> HasDirect(s, x, p) || x == ""
    ensures !HasEvidence(s, x, p) ==> item.observed == 0 && !item.complete
  {
    hide Blocked;
    if HasEvidence(s, x, p) {
      var m :| EvidenceReported(s, m, x, p, item);
      assert IsEvidence(s, m, x, p);
    }
  }

  lemma EvidenceStored(s: State, m: Id, x: Id, p: real)
    requires IsEvidence(s, m, x, p)
    ensures m in s.measurements && HasEvidence(s, x, p)
  {
  }

  method CoverSensor(s: Snapshot, b: Id, x: Id) returns (item: SensorCoverage)
    requires DirectUnique(s.View()) && RevisionsUnique(s.View()) && ProfileOf(s.View(), b).Some?
    requires IsCurrent(s.View(), x, b)
    ensures SensorReported(s.View(), b, item) && item.revision == x
  {
    hide IsEvidence, DirectUnique, RevisionsUnique, PointReported, IsCurrent, PointComplete, HasEvidence;
    CurrentStored(s.View(), x, b);
    var stored := s.ProfileFor(b);
    var profile := stored.value;
    var evidence := EffectiveEvidence(s, x);
    var points: seq<PointCoverage>, complete := [], true;
    for i := 0 to |profile.points|
      invariant |points| == i
      invariant forall j :: 0 <= j < i ==> PointReported(s.View(), b, x, profile.points[j], points[j])
      invariant complete <==> forall j :: 0 <= j < i ==> PointComplete(s.View(), b, x, profile.points[j])
    {
      var point := CoverPoint(s, b, x, profile.points[i], evidence, profile.repetitions);
      ReportedComplete(s.View(), b, x, profile.points[i], point);
      if !point.complete {
        complete := false;
      }
      points := points + [point];
    }
    item := SensorCoverage(s.sensors[x].code, x, points, complete);
  }

  lemma CurrentStored(s: State, x: Id, b: Id)
    requires IsCurrent(s, x, b)
    ensures x in s.sensors
  {
  }

  lemma ReportedComplete(s: State, b: Id, x: Id, p: real, item: PointCoverage)
    requires PointReported(s, b, x, p, item)
    ensures item.complete <==> PointComplete(s, b, x, p)
  {
  }

  // ---------- sorting by code ----------

  function InsertByCode(sensors: map<Id, Sensor>, x: Id, xs: seq<Id>): (r: seq<Id>)
    requires x in sensors && forall y :: y in xs ==> y in sensors
    ensures |r| == |xs| + 1 && forall y :: y in r <==> y == x || y in xs
  {
    if xs == [] then [x]
    else if Less(sensors[x].code, sensors[xs[0]].code) then [x] + xs
    else [xs[0]] + InsertByCode(sensors, x, xs[1..])
  }

  /** The library sort of the current revisions by sensor code. */
  function SortByCode(sensors: map<Id, Sensor>, xs: seq<Id>): (r: seq<Id>)
    requires forall y :: y in xs ==> y in sensors
    ensures |r| == |xs| && forall y :: y in r <==> y in xs
  {
    if xs == [] then [] else InsertByCode(sensors, xs[0], SortByCode(sensors, xs[1..]))
  }

  ghost predicate RisingCodes(sensors: map<Id, Sensor>, xs: seq<Id>) {
    && (forall y :: y in xs ==> y in sensors)
    && forall i, j :: 0 <= i < j < |xs| ==> Less(sensors[xs[i]].code, sensors[xs[j]].code)
  }

  lemma {:induction false} InsertByCodeRises(sensors: map<Id, Sensor>, x: Id, xs: seq<Id>)
    requires x in sensors && RisingCodes(sensors, xs) && forall y :: y in xs ==> sensors[y].code != sensors[x].code
    ensures RisingCodes(sensors, InsertByCode(sensors, x, xs))
  {
    if xs != [] {
      LessTotal(sensors[x].code, sensors[xs[0]].code);
      if Less(sensors[x].code, sensors[xs[0]].code) {
        forall j | 0 <= j < |xs|
          ensures Less(sensors[x].code, sensors[xs[j]].code)
        {
          if j > 0 {
            LessTransitive(sensors[x].code, sensors[xs[0]].code, sensors[xs[j]].code);
          }
        }
      } else {
        InsertByCodeRises(sensors, x, xs[1..]);
        var rest := InsertByCode(sensors, x, xs[1..]);
        forall j | 0 <= j < |rest|
          ensures Less(sensors[xs[0]].code, sensors[rest[j]].code)
        {
          assert rest[j] in rest;
        }
      }
    }
  }

  lemma {:induction false} SortByCodeRises(sensors: map<Id, Sensor>, xs: seq<Id>)
    requires forall y :: y in xs ==> y in sensors
    requires forall i, j :: 0 <= i < j < |xs| ==> sensors[xs[i]].code != sensors[xs[j]].code
    ensures RisingCodes(sensors, SortByCode(sensors, xs))
  {
    if xs != [] {
      SortByCodeRises(sensors, xs[1..]);
      InsertByCodeRises(sensors, xs[0], SortByCode(sensors, xs[1..]));
    }
  }

  /** The current revisions of a batch have different codes. */
  lemma CurrentCodesDiffer(s: State, b: Id, x: Id, y: Id)
    requires RevisionsUnique(s) && IsCurrent(s, x, b) && IsCurrent(s, y, b) && x != y
    ensures s.sensors[x].code != s.sensors[y].code
  {
    if s.sensors[x].code == s.sensors[y].code {
      assert SameLine(s.sensors[x], s.sensors[y]);
    }
  }

  /** The current revisions of a batch by sensor code. */
  method CurrentByCode(s: Snapshot, b: Id) returns (current: seq<Id>)
    requires RevisionsUnique(s.View())
    ensures |current| == |Frozen.CurrentIds(s.View(), b)| && RisingCodes(s.sensors, current)
    ensures forall i :: 0 <= i < |current| ==> IsCurrent(s.View(), current[i], b)
    ensures forall x :: IsCurrent(s.View(), x, b) ==> x in current
  {
    hide RevisionsUnique, IsCurrent;
    var listed := s.CurrentSensors(b);
    Calibration.CurrentListed(s.View(), b, listed);
    DistinctSize(listed);
    forall x | x in listed
      ensures x in s.sensors
    {
      CurrentStored(s.View(), x, b);
    }
    forall i, j | 0 <= i < j < |listed|
      ensures s.sensors[listed[i]].code != s.sensors[listed[j]].code
    {
      CurrentCodesDiffer(s.View(), b, listed[i], listed[j]);
    }
    SortByCodeRises(s.sensors, listed);
    current := SortByCode(s.sensors, listed);
    forall i | 0 <= i < |current|
      ensures IsCurrent(s.View(), current[i], b)
    {
      assert current[i] in current;
    }
  }

  lemma RisingDiffer(sensors: map<Id, Sensor>, xs: seq<Id>)
    requires RisingCodes(sensors, xs)
    ensures forall i, j :: 0 <= i < j < |xs| ==> xs[i] != xs[j]
  {
    forall i, j | 0 <= i < j < |xs|
      ensures xs[i] != xs[j]
    {
      LessAsymmetric(sensors[xs[i]].code, sensors[xs[j]].code);
    }
  }

  // ---------- coverage of a batch ----------

  /** Every current revision is reported once, in the order of the sensor codes, point by point; the
      batch is complete exactly when there is a sensor and every point of every current revision is. */
  method BuildCoverage(s: Snapshot, b: Id) returns (report: CoverageReport, e: Option<Error>)
    requires DirectUnique(s.View()) && RevisionsUnique(s.View())
    ensures e == if b !in s.batches then Some(NotFound) else if ProfileOf(s.View(), b).None? then
        Some(Validation) else None
    ensures e == None ==>
      && (report.complete <==> Covered(s.View(), b)) && |report.sensors| == |Frozen.CurrentIds(s.View(), b)|
      && (forall i :: 0 <= i < |report.sensors| ==> SensorReported(s.View(), b, report.sensors[i]))
      && (forall x :: IsCurrent(s.View(), x, b) ==>
          exists i :: 0 <= i < |report.sensors| && report.sensors[i].revision == x)
      && (forall i, j :: 0 <= i < j < |report.sensors| ==>
            report.sensors[i].revision != report.sensors[j].revision &&
                Less(report.sensors[i].code, report.sensors[j].code))
  {
    hide DirectUnique, RevisionsUnique, SensorReported, AllComplete, IsCurrent, Covered, RisingCodes;
    report := NO_COVERAGE;
    if b !in s.batches {
      return NO_COVERAGE, Some(NotFound);
    }
    var profile := s.ProfileFor(b);
    if profile.None? {
      return NO_COVERAGE, Some(Validation);
    }
    var current := CurrentByCode(s, b);
    RisingDiffer(s.sensors, current);
    var sensors: seq<SensorCoverage>, complete := [], |current| > 0;
    for i := 0 to |current|
      invariant |sensors| == i
      invariant forall j :: 0 <= j < i ==> SensorReported(s.View(), b, sensors[j]) && sensors[j].revision == current[j]
      invariant complete <==> |current| > 0 && forall j :: 0 <= j < i ==> AllComplete(s.View(), b, current[j])
    {
      var item := CoverSensor(s, b, current[i]);
      ReportedAll(s.View(), b, item);
      if !item.complete {
        complete := false;
      }
      sensors := sensors + [item];
    }
    CoveredByList(s.View(), b, current);
    forall x | IsCurrent(s.View(), x, b)
      ensures exists i :: 0 <= i < |sensors| && sensors[i].revision == x
    {
      var i :| 0 <= i < |current| && current[i] == x;
      assert sensors[i].revision == x;
    }
    forall i, j | 0 <= i < j < |sensors|
      ensures Less(sensors[i].code, sensors[j].code)
    {
      ReportedCode(s.View(), b, sensors[i]);
      ReportedCode(s.View(), b, sensors[j]);
      CodesRise(s.sensors, current, i, j);
    }
    report, e := CoverageReport(b, sensors, complete), None;
  }

  lemma ReportedCode(s: State, b: Id, item: SensorCoverage)
    requires SensorReported(s, b, item)
    ensures item.revision in s.sensors && item.code == s.sensors[item.revision].code
  {
  }

  lemma CodesRise(sensors: map<Id, Sensor>, xs: seq<Id>, i: nat, j: nat)
    requires RisingCodes(sensors, xs) && i < j < |xs|
    ensures xs[i] in sensors && xs[j] in sensors && Less(sensors[xs[i]].code, sensors[xs[j]].code)
  {
  }

  lemma ReportedAll(s: State, b: Id, item: SensorCoverage)
    requires SensorReported(s, b, item)
    ensures item.complete <==> AllComplete(s, b, item.revision)
  {
  }

  lemma CoveredByList(s: State, b: Id, current: seq<Id>)
    requires ProfileOf(s, b).Some? || current == []
    requires forall i :: 0 <= i < |current| ==> IsCurrent(s, current[i], b)
    requires forall x :: IsCurrent(s, x, b) ==> x in current
    ensures Covered(s, b) <==> |current| > 0 && forall j :: 0 <= j < |current| ==> AllComplete(s, b, current[j])
  {
    hide IsCurrent;
    assert |current| > 0 ==> IsCurrent(s, current[0], b);
    if |current| > 0 && forall j :: 0 <= j < |current| ==> AllComplete(s, b, current[j]) {
      forall x, p | IsCurrent(s, x, b) && p in ProfileOf(s, b).value.points
        ensures PointComplete(s, b, x, p)
      {
        var j :| 0 <= j < |current| && current[j] == x;
        assert AllComplete(s, b, current[j]);
      }
    }
    if Covered(s, b) {
      CoveredComplete(s, b);
    }
  }

  lemma CoveredComplete(s: State, b: Id)
    requires Covered(s, b)
    ensures forall x :: IsCurrent(s, x, b) ==> AllComplete(s, b, x)
  {
    hide IsCurrent;
    forall x | IsCurrent(s, x, b)
      ensures AllComplete(s, b, x)
    {
      forall i | 0 <= i < |ProfileOf(s, b).value.points|
        ensures PointComplete(s, b, x, ProfileOf(s, b).value.points[i])
      {
        var p := ProfileOf(s, b).value.points[i];
        assert p in ProfileOf(s, b).value.points;
      }
    }
  }

  // ---------- evaluating a batch ----------

  datatype SensorResult = SensorResult(revision: Id, complete: bool, drafts: seq<FindingDraft>)

  const NO_RESULT := SensorResult("", false, [])

  /** What the evidence at a point exceeds; a point without full evidence says nothing. */
  ghost function DraftsAt(s: State, b: Id, x: Id, p: real): seq<FindingDraft>
    requires ProfileOf(s, b).Some?
  {
    if PointComplete(s, b, x, p) then
      var m :| IsEvidence(s, m, x, p) && |s.measurements[m].readings| == ProfileOf(s, b).value.repetitions;
      Compare(p, s.measurements[m].stats, ProfileOf(s, b).value)
    else []
  }

  /** The same over the first `n` points of the plan. */
  ghost function DraftsUpTo(s: State, b: Id, x: Id, n: nat): seq<FindingDraft>
    requires ProfileOf(s, b).Some? && n <= |ProfileOf(s, b).value.points|
  {
    if n == 0 then [] else DraftsUpTo(s, b, x, n - 1) + DraftsAt(s, b, x, ProfileOf(s, b).value.points[n - 1])
  }

  ghost predicate RevisionEvaluated(s: State, b: Id, r: SensorResult) {
    && ProfileOf(s, b).Some? && (r.complete <==> AllComplete(s, b, r.revision))
    && r.drafts == DraftsUpTo(s, b, r.revision, |ProfileOf(s, b).value.points|)
  }

  lemma DraftsOfEvidence(s: State, b: Id, m: Id, x: Id, p: real)
    requires DirectUnique(s) && RevisionsUnique(s) && ProfileOf(s, b).Some? && IsEvidence(s, m, x, p)
    ensures m in s.measurements
    ensures DraftsAt(s, b, x, p) == if |s.measurements[m].readings| == ProfileOf(s, b).value.repetitions
                                    then Compare(p, s.measurements[m].stats, ProfileOf(s, b).value) else []
  {
    hide DirectUnique, RevisionsUnique, Blocked, Compare;
    EvidenceStored(s, m, x, p);
    EvidenceSize(s, b, m, x, p);
    if PointComplete(s, b, x, p) {
      var n :| IsEvidence(s, n, x, p) && |s.measurements[n].readings| == ProfileOf(s, b).value.repetitions
        && DraftsAt(s, b, x, p) == Compare(p, s.measurements[n].stats, ProfileOf(s, b).value);
      OnlyEvidence(s, m, n, x, p);
    }
  }

  method EvaluateRevision(s: Snapshot, x: Id) returns (result: SensorResult, e: Option<Error>)
    requires DirectUnique(s.View()) && RevisionsUnique(s.View())
    ensures e == if x !in s.sensors || s.sensors[x].batchID !in s.batches then Some(NotFound)
                 else if ProfileOf(s.View(), s.sensors[x].batchID).None? then Some(Validation) else None
    ensures e == None ==> result.revision == x && RevisionEvaluated(s.View(), s.sensors[x].batchID, result)
  {
    hide IsEvidence, DirectUnique, RevisionsUnique, PointComplete, HasEvidence, DraftsAt, Compare;
    if x !in s.sensors || s.sensors[x].batchID !in s.batches {
      return NO_RESULT, Some(NotFound);
    }
    var b := s.sensors[x].batchID;
    var stored := s.ProfileFor(b);
    if stored.None? {
      return NO_RESULT, Some(Validation);
    }
    var profile := stored.value;
    var sets := EffectiveEvidence(s, x);
    var complete, drafts := true, [];
    for i := 0 to |profile.points|
      invariant complete <==> forall j :: 0 <= j < i ==> PointComplete(s.View(), b, x, profile.points[j])
      invariant drafts == DraftsUpTo(s.View(), b, x, i)
    {
      var p := profile.points[i];
      EvidenceDecides(s.View(), b, x, p, sets);
      if p !in sets || |s.measurements[sets[p]].readings| != profile.repetitions {
        NoDrafts(s.View(), b, x, p);
        complete := false;
      } else {
        DraftsOfEvidence(s.View(), b, sets[p], x, p);
        drafts := drafts + Compare(p, s.measurements[sets[p]].stats, profile);
      }
    }
    result, e := SensorResult(x, complete, drafts), None;
  }

  ghost predicate Drafted(drafts: seq<FindingDraft>, p: real, kind: string) {
    exists i :: 0 <= i < |drafts| && drafts[i].point == p && drafts[i].kind == kind
  }

  /** Full evidence at a point exceeds a limit. */
  ghost predicate EvidenceExceeds(s: State, b: Id, x: Id, p: real, kind: string)
    requires ProfileOf(s, b).Some?
  {
    exists m :: m in s.measurements && IsEvidence(s, m, x, p) &&
        Exceeding(s.measurements[m], ProfileOf(s, b).value, kind)
  }

  predicate Exceeding(m: Measurement, p: Profile, kind: string) {
    |m.readings| == p.repetitions && Violates(kind, m.stats, p)
  }

  lemma DraftsAtMean(s: State, b: Id, x: Id, p: real, q: real, kind: string)
    requires DirectUnique(s) && RevisionsUnique(s) && ProfileOf(s, b).Some?
    ensures Drafted(DraftsAt(s, b, x, p), q, kind) <==> q == p && EvidenceExceeds(s, b, x, p, kind)
  {
    hide DirectUnique, RevisionsUnique, IsEvidence, Compare, Violates;
    forall m | m in s.measurements && IsEvidence(s, m, x, p)
      ensures PointComplete(s, b, x, p) && |s.measurements[m].readings| == ProfileOf(s, b).value.repetitions ==>
        DraftsAt(s, b, x, p) == Compare(p, s.measurements[m].stats, ProfileOf(s, b).value)
      ensures Drafted(Compare(p, s.measurements[m].stats, ProfileOf(s, b).value), q, kind) <==>
        q == p && Violates(kind, s.measurements[m].stats, ProfileOf(s, b).value)
    {
      DraftsOfEvidence(s, b, m, x, p);
      EvidenceSize(s, b, m, x, p);
      CompareIsExact(p, s.measurements[m].stats, ProfileOf(s, b).value, kind);
    }
    EvidenceKnown(s, b, x, p);
  }

  lemma EvidenceKnown(s: State, b: Id, x: Id, p: real)
    ensures forall m :: IsEvidence(s, m, x, p) ==> m in s.measurements
    ensures PointComplete(s, b, x, p) ==> HasEvidence(s, x, p)
  {
    hide Blocked, Earlier;
  }

  lemma {:induction false} DraftsUpToMean(s: State, b: Id, x: Id, n: nat, q: real, kind: string)
    requires DirectUnique(s) && RevisionsUnique(s) && ProfileOf(s, b).Some? && n <= |ProfileOf(s, b).value.points|
    ensures Drafted(DraftsUpTo(s, b, x, n), q, kind) <==>
      q in ProfileOf(s, b).value.points[..n] && EvidenceExceeds(s, b, x, q, kind)
  {
    hide DirectUnique, RevisionsUnique, IsEvidence, DraftsAt, EvidenceExceeds;
    if n > 0 {
      var points := ProfileOf(s, b).value.points;
      DraftsUpToMean(s, b, x, n - 1, q, kind);
      DraftsAtMean(s, b, x, points[n - 1], q, kind);
      DraftedEither(DraftsUpTo(s, b, x, n - 1), DraftsAt(s, b, x, points[n - 1]), q, kind);
      assert points[..n] == points[..n - 1] + [points[n - 1]];
    }
  }

  lemma DraftedEither(a: seq<FindingDraft>, c: seq<FindingDraft>, p: real, kind: string)
    ensures Drafted(a + c, p, kind) <==> Drafted(a, p, kind) || Drafted(c, p, kind)
  {
    if i :| 0 <= i < |c| && c[i].point == p && c[i].kind == kind {
      assert (a + c)[|a| + i] == c[i];
    }
    if i :| 0 <= i < |a| && a[i].point == p && a[i].kind == kind {
      assert (a + c)[i] == a[i];
    }
  }

  /** An evaluation raises a kind at a point exactly when the evidence there exceeds that limit. */
  lemma EvaluationMeans(s: State, b: Id, r: SensorResult, p: real, kind: string)
    requires DirectUnique(s) && RevisionsUnique(s) && RevisionEvaluated(s, b, r)
    ensures Drafted(r.drafts, p, kind) <==> PlanPoint(s, b, p) && EvidenceExceeds(s, b, r.revision, p, kind)
  {
    hide DirectUnique, RevisionsUnique, EvidenceExceeds, DraftsUpTo, Drafted;
    var points := ProfileOf(s, b).value.points;
    DraftsUpToMean(s, b, r.revision, |points|, p, kind);
    assert points[..|points|] == points;
  }

  lemma NoDrafts(s: State, b: Id, x: Id, p: real)
    requires ProfileOf(s, b).Some? && !PointComplete(s, b, x, p)
    ensures DraftsAt(s, b, x, p) == []
  {
  }

  lemma EvidenceDecides(s: State, b: Id, x: Id, p: real, sets: map<real, Id>)
    requires DirectUnique(s) && RevisionsUnique(s) && x in s.sensors && ProfileOf(s, b).Some?
    requires p in sets ==> IsEvidence(s, sets[p], x, p)
    requires p in sets <==> HasEvidence(s, x, p)
    ensures p in sets ==> sets[p] in s.measurements
    ensures PointComplete(s, b, x, p) <==>
        p in sets && |s.measurements[sets[p]].readings| == ProfileOf(s, b).value.repetitions
  {
    hide IsEvidence, DirectUnique, RevisionsUnique;
    if p in sets {
      EvidenceSize(s, b, sets[p], x, p);
      EvidenceStored(s, sets[p], x, p);
    }
  }

  /** The current revisions are evaluated in the order of their codes; a batch without a plan is
      refused as soon as it has a sensor. */
  method EvaluateBatch(s: Snapshot, b: Id) returns (complete: bool, sensors: seq<SensorResult>, e: Option<Error>)
    requires DirectUnique(s.View()) && RevisionsUnique(s.View())
    ensures e == if b !in s.batches then Some(NotFound)
                 else if ProfileOf(s.View(), b).None? && exists x :: IsCurrent(s.View(), x, b) then Some(Validation)
                 else None
    ensures e == None ==> (complete <==> Covered(s.View(), b)) && |sensors| == |Frozen.CurrentIds(s.View(), b)|
    ensures e == None ==> RisingCodes(s.sensors, seq(|sensors|, i requires 0 <= i < |sensors| => sensors[i].revision))
    ensures e == None ==> forall i :: 0 <= i < |sensors| ==>
      IsCurrent(s.View(), sensors[i].revision, b) && RevisionEvaluated(s.View(), b, sensors[i])
  {
    hide DirectUnique, RevisionsUnique, AllComplete, Covered, RisingCodes, DraftsUpTo;
    if b !in s.batches {
      return false, [], Some(NotFound);
    }
    var current := CurrentByCode(s, b);
    complete, sensors := |current| > 0, [];
    for i := 0 to |current|
      invariant |sensors| == i && (i > 0 ==> ProfileOf(s.View(), b).Some?)
      invariant forall j :: 0 <= j < i ==>
          sensors[j].revision == current[j] && RevisionEvaluated(s.View(), b, sensors[j])
      invariant complete <==> |current| > 0 && forall j :: 0 <= j < i ==> AllComplete(s.View(), b, current[j])
    {
      assert IsCurrent(s.View(), current[i], b);
      var item;
      item, e := EvaluateRevision(s, current[i]);
      if e.Some? {
        return false, [], e;
      }
      if !item.complete {
        complete := false;
      }
      sensors := sensors + [item];
    }
    CoveredByList(s.View(), b, current);
    assert seq(|sensors|, i requires 0 <= i < |sensors| => sensors[i].revision) == current;
    e := None;
  }

  // ---------- retest tasks ----------

  function Listed(byPoint: map<real, seq<Id>>, p: real): seq<Id> {
    if p in byPoint then byPoint[p] else []
  }

  /** The open findings of earlier revisions in the same batch, listed by point. */
  method FindingsByPoint(s: Snapshot, x: Sensor) returns (byPoint: map<real, seq<Id>>)
    ensures forall p :: Distinct(Listed(byPoint, p)) && Elements(Listed(byPoint, p)) == OpenEarlierSet(s.View(), x, p)
  {
    byPoint := map[];
    var todo := s.findings.Keys;
    while todo != {}
      invariant todo <= s.findings.Keys
      invariant forall p :: Distinct(Listed(byPoint, p))
      invariant forall p, f :: f in Listed(byPoint, p) <==> f !in todo && OpenEarlier(s.View(), f, x, p)
      decreases todo
    {
      var f :| f in todo;
      todo := todo - {f};
      var finding := s.findings[f];
      if finding.status == Open && finding.sensorID in s.sensors && s.sensors[finding.sensorID].batchID == x.batchID
         && s.sensors[finding.sensorID].code == x.code && s.sensors[finding.sensorID].revision < x.revision
      {
        ghost var was := byPoint;
        DistinctSnoc(Listed(byPoint, finding.point), f);
        byPoint := byPoint[finding.point := Listed(byPoint, finding.point) + [f]];
        assert forall p :: Listed(byPoint, p) == if p == finding.point then Listed(was, p) + [f] else Listed(was, p);
      }
    }
  }

  lemma DistinctSnoc(xs: seq<Id>, x: Id)
    requires Distinct(xs) && x !in xs
    ensures Distinct(xs + [x])
  {
  }

  lemma PreviousKnown(s: State, x: Sensor, p: real, evidence: map<real, Id>)
    requires DirectUnique(s) && RevisionsUnique(s)
    requires p in evidence ==> LatestPrevious(s, evidence[p], x, p)
    requires p !in evidence ==> !HasPrevious(s, x, p)
    ensures PreviousEvidence(s, x, p) == if p in evidence then Some(evidence[p]) else None
    ensures p in evidence ==> evidence[p] in s.measurements
  {
    hide DirectUnique, RevisionsUnique;
    forall m | LatestPrevious(s, m, x, p)
      ensures p in evidence && m == evidence[p]
    {
      assert HasPrevious(s, x, p);
      OnlyLatest(s, m, evidence[p], x, p);
    }
  }

  method BuildTask(s: Snapshot, x: Sensor, p: real, id: Id, now: Time, evidence: map<real, Id>, byPoint: map<real,
                   seq<Id>>) returns (task: Task)
    requires DirectUnique(s.View()) && RevisionsUnique(s.View())
    requires p in evidence ==> LatestPrevious(s.View(), evidence[p], x, p)
    requires p !in evidence ==> !HasPrevious(s.View(), x, p)
    requires Distinct(Listed(byPoint, p)) && Elements(Listed(byPoint, p)) == OpenEarlierSet(s.View(), x, p)
    ensures task == NewTask(s.View(), x, p, id, now)
  {
    hide DirectUnique, RevisionsUnique, LatestPrevious, HasPrevious, PreviousEvidence, OpenEarlierSet;
    var open := SortIds(Listed(byPoint, p));
    SortIsCanonical(Listed(byPoint, p));
    PreviousKnown(s.View(), x, p, evidence);
    var source, inherited := "", "";
    if p in evidence {
      source := s.measurements[evidence[p]].sensorID;
      if |open| == 0 {
        inherited := s.measurements[evidence[p]].id;
      }
    }
    task := Task(id, x.batchID, x.id, p, |open| > 0, if |open| > 0 then
        Pending else Inherited, open, source, inherited, [], now);
  }

  /** One task for every point, entered under its own identifier. */
  method EnterTasks(s: Snapshot, x: Sensor, points: seq<real>, ids: seq<Id>, now: Time, evidence: map<real, Id>,
                    byPoint: map<real, seq<Id>>)
    requires DirectUnique(s.View()) && RevisionsUnique(s.View()) && |ids| >= |points|
    requires forall p :: p in evidence ==> LatestPrevious(s.View(), evidence[p], x, p)
    requires forall p :: p !in evidence ==> !HasPrevious(s.View(), x, p)
    requires forall p :: Distinct(Listed(byPoint, p)) && Elements(Listed(byPoint, p)) == OpenEarlierSet(s.View(), x, p)
    modifies s`tasks
    ensures s.tasks == old(s.tasks) + NewTasks(old(s.View()), x, points, ids, now, |points|)
  {
    hide DirectUnique, RevisionsUnique, LatestPrevious, HasPrevious, OpenEarlierSet, NewTask, Distinct;
    ghost var was := s.View();
    for i := 0 to |points|
      invariant s.tasks == was.tasks + NewTasks(was, x, points, ids, now, i)
    {
      TasksAside(was, s.View(), x, points[i], ids[i], now);
      var task := BuildTask(s, x, points[i], ids[i], now, evidence, byPoint);
      s.tasks := s.tasks[ids[i] := task];
    }
  }

  method BuildRecalibrationTasks(s: Snapshot, x: Id, ids: seq<Id>, now: Time) returns (e: Option<Error>)
    requires DirectUnique(s.View()) && RevisionsUnique(s.View())
    requires x in s.sensors && ProfileOf(s.View(), s.sensors[x].batchID).Some? ==>
        |ids| >= |ProfileOf(s.View(), s.sensors[x].batchID).value.points|
    modifies s`tasks
    ensures e == if !(x in s.sensors && s.sensors[x].revision >= 2 && IsCurrent(old(s.View()), x, s.sensors[x].batchID))
                    || ProfileOf(old(s.View()), s.sensors[x].batchID).None? then Some(Validation) else None
    ensures e.Some? ==> s.tasks == old(s.tasks)
    ensures e.None? ==> var points := ProfileOf(old(s.View()), s.sensors[x].batchID).value.points;
      s.tasks == old(s.tasks) + NewTasks(old(s.View()), s.sensors[x], points, ids, now, |points|)
  {
    hide DirectUnique, RevisionsUnique, LatestPrevious, HasPrevious, OpenEarlierSet, NewTask, NewTasks, IsCurrent,
         Distinct;
    if x !in s.sensors || s.sensors[x].revision < 2 {
      return Some(Validation);
    }
    var sensor := s.sensors[x];
    var current := s.IsCurrentRevision(x, sensor.batchID);
    if !current {
      return Some(Validation);
    }
    var stored := s.ProfileFor(sensor.batchID);
    if stored.None? {
      return Some(Validation);
    }
    var points := stored.value.points;
    var evidence := PreviousEvidenceByPoint(s, sensor);
    var byPoint := FindingsByPoint(s, sensor);
    EnterTasks(s, sensor, points, ids, now, evidence, byPoint);
    e := None;
  }

  /** Nothing a new task says depends on the tasks there are. */
  lemma TasksAside(s: State, t: State, x: Sensor, p: real, id: Id, now: Time)
    requires t == s.(tasks := t.tasks) && DirectUnique(s) && RevisionsUnique(s)
    ensures NewTask(t, x, p, id, now) == NewTask(s, x, p, id, now)
    ensures OpenEarlierSet(t, x, p) == OpenEarlierSet(s, x, p)
    ensures forall m :: LatestPrevious(t, m, x, p) <==> LatestPrevious(s, m, x, p)
    ensures HasPrevious(t, x, p) <==> HasPrevious(s, x, p)
    ensures DirectUnique(t) && RevisionsUnique(t)
  {
    forall m
      ensures PreviousAt(t, m, x, p) <==> PreviousAt(s, m, x, p)
      ensures RevisionOf(t, m) == RevisionOf(s, m)
    {
    }
    forall m
      ensures LatestPrevious(t, m, x, p) <==> LatestPrevious(s, m, x, p)
    {
    }
    forall f
      ensures OpenEarlier(t, f, x, p) <==> OpenEarlier(s, f, x, p)
    {
    }
    PreviousAside(s, t, x, p);
    assert OpenEarlierSet(t, x, p) == OpenEarlierSet(s, x, p);
    NewTaskAside(s, t, x, p, id, now);
  }

  lemma NewTaskAside(s: State, t: State, x: Sensor, p: real, id: Id, now: Time)
    requires t.measurements == s.measurements
    requires OpenEarlierSet(t, x, p) == OpenEarlierSet(s, x, p)
    requires PreviousEvidence(t, x, p) == PreviousEvidence(s, x, p)
    ensures NewTask(t, x, p, id, now) == NewTask(s, x, p, id, now)
  {
    hide OpenEarlierSet, PreviousEvidence, Canonical;
  }

  lemma PreviousAside(s: State, t: State, x: Sensor, p: real)
    requires DirectUnique(s) && RevisionsUnique(s) && t.measurements == s.measurements
    requires forall m :: LatestPrevious(t, m, x, p) <==> LatestPrevious(s, m, x, p)
    ensures PreviousEvidence(t, x, p) == PreviousEvidence(s, x, p)
  {
    hide LatestPrevious, DirectUnique, RevisionsUnique;
    forall m, n | LatestPrevious(s, m, x, p) && LatestPrevious(s, n, x, p)
      ensures m == n
    {
      OnlyLatest(s, m, n, x, p);
    }
  }

  lemma OnlyRetest(s: State, t: Id, m: Measurement)
    requires TasksUnique(s) && t in s.tasks && Retests(s.tasks[t], m)
    ensures forall u :: u in s.tasks && u != t ==> !Retests(s.tasks[u], m)
  {
  }

  /** Enters the result of a retest into its task: the first required task of the revision and
      point, which is the only one. */
  method UpdateRecalibrationTask(s: Snapshot, m: Measurement, drafts: seq<FindingDraft>, now: Time)
    requires TasksUnique(s.View())
    modifies s`tasks
    ensures s.tasks == UpdateTasks(old(s.tasks), m, drafts, now)
  {
    var todo := s.tasks.Keys;
    while todo != {}
      invariant todo <= s.tasks.Keys && s.tasks == old(s.tasks)
      invariant forall t :: t in s.tasks && t !in todo ==> !Retests(s.tasks[t], m)
      decreases todo
    {
      var t :| t in todo;
      todo := todo - {t};
      if s.tasks[t].sensorID == m.sensorID && s.tasks[t].point == m.point && s.tasks[t].required {
        var task := s.tasks[t].(evidenceID := m.id, updatedAt := now, reasons := []);
        if |drafts| == 0 {
          task := task.(status := TaskStatus.Passed);
        } else {
          var reasons := [];
          for i := 0 to |drafts|
            invariant reasons == seq(i, j requires 0 <= j < |drafts| => drafts[j].message)
          {
            reasons := reasons + [drafts[i].message];
          }
          task := task.(status := Failing, reasons := reasons);
        }
        OnlyRetest(s.View(), t, m);
        assert task == Retested(s.tasks[t], m, drafts, now);
        s.tasks := s.tasks[t := task];
        return;
      }
    }
  }
}
