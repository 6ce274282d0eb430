/** The queue as requests read it: readiness of a batch, one page with its summary, and what
    paging promises while the service goes on running. */
module WorkQueue {
  import opened Entities
  import opened Evidence
  import opened Frozen
  import opened Text
  import opened Domain
  import opened Invariant
  import opened Runs
  import Release
  import Requests
  import opened Snapshots
  import opened Evaluation
  import opened Queue
  import opened Selection

  // ---------- readiness ----------

  datatype Blocker = NoSensors | PlanUnlocked | MissingMeasurement | OpenFindings | NoSamplingActor

  datatype Readiness = Readiness(
    currentSensors: nat, requiredPoints: nat, completePoints: nat, openFindings: nat, criticalFindings: nat,
    samplingActors: seq<string>, canSubmit: bool, canRecalibrate: bool, canReview: bool, canIssue: bool,
        immutable: bool,
    blockers: set<Blocker>)

  const NOTHING_READY := Readiness(0, 0, 0, 0, 0, [], false, false, false, false, false, {})

  const CRITICAL := "critical"

  /** What stands in the way of a batch that is not yet frozen. */
  ghost predicate Blocks(s: State, b: Id, why: Blocker)
    requires b in s.batches
  {
    var bt := s.batches[b];
    match why
    case NoSensors => forall x :: !IsCurrent(s, x, b)
    case PlanUnlocked => bt.profileID == ""
    case MissingMeasurement => exists x, p :: IsCurrent(s, x, b) && PlanPoint(s, b, p) && !PointComplete(s, b, x, p)
    case OpenFindings => bt.profileID != "" && !NoOpen(s, b)
    case NoSamplingActor => bt.profileID != "" && bt.sampledBy == []
  }

  ghost function OpenIds(s: State, b: Id): set<Id> {
    set f | f in s.findings && s.findings[f].batchID == b && s.findings[f].status == Open
  }

  ghost function CriticalIds(s: State, b: Id): set<Id> {
    set f | f in OpenIds(s, b) && s.findings[f].severity == CRITICAL
  }

  /** The points of current revisions that have full evidence. */
  ghost function CompletePairs(s: State, b: Id): set<(Id, real)> {
    set x, p | x in s.sensors && p in Release.Points(s, b) && IsCurrent(s, x, b) && PointComplete(s, b, x, p) :: (x, p)
  }

  ghost function PlanSize(s: State, b: Id): nat {
    if ProfileOf(s, b).Some? then |ProfileOf(s, b).value.points| else 0
  }

  ghost predicate ReadinessOf(s: State, b: Id, r: Readiness)
    requires b in s.batches
  {
    var bt := s.batches[b];
    && r.currentSensors == |CurrentIds(s, b)|
    && (r.canSubmit <==> TakesReadings(bt.status))
    && (r.canRecalibrate <==> bt.status == Failed || bt.status == Returned)
    && (r.canIssue <==> bt.status == Status.Frozen && !HasCredential(s, b))
    && (r.canReview <==> Covered(s, b) && NoOpen(s, b) && bt.status == ReadyReview)
    && (r.immutable <==> Sealed(bt.status))
    && (if bt.profileID == "" then CountsAre(r, 0, 0, 0, 0)
        else CountsAre(r, |CurrentIds(s, b)| * PlanSize(s, b), |CompletePairs(s, b)|, |OpenIds(s, b)|,
            |CriticalIds(s, b)|))
    && Elements(r.samplingActors) == Elements(bt.sampledBy) && Ascending(r.samplingActors)
    && BlockersOf(s, b, r.blockers)
  }

  ghost predicate RightAbout(s: State, b: Id, blockers: set<Blocker>, why: Blocker)
    requires b in s.batches
  {
    why in blockers <==> !Sealed(s.batches[b].status) && Blocks(s, b, why)
  }

  ghost predicate BlockersOf(s: State, b: Id, blockers: set<Blocker>)
    requires b in s.batches
  {
    forall why :: RightAbout(s, b, blockers, why)
  }

  predicate CountsAre(r: Readiness, required: nat, complete: nat, open: nat, critical: nat) {
    r.requiredPoints == required && r.completePoints == complete && r.openFindings == open &&
        r.criticalFindings == critical
  }

  /** The complete pairs of the first sensors of a report, and of the first points of the next. */
  ghost predicate Counted(report: CoverageReport, i: nat, j: nat, pairs: set<(Id, real)>) {
    && i <= |report.sensors|
    && (forall pair | pair in pairs :: exists k: nat, l: nat ::
        CompleteAt(report, k, l, pair) && (k < i || (k == i && l < j)))
    && (forall k: nat, l: nat, pair | CompleteAt(report, k, l, pair) && (k < i || (k == i && l < j)) :: pair in pairs)
  }

  ghost predicate CompleteAt(report: CoverageReport, k: nat, l: nat, pair: (Id, real)) {
    && k < |report.sensors| && l < |report.sensors[k].points| && report.sensors[k].points[l].complete
    && pair == (report.sensors[k].revision, report.sensors[k].points[l].point)
  }

  /** Every sensor is reported once, and every point of it once. */
  ghost predicate OncePerPoint(report: CoverageReport) {
    && (forall k, l :: 0 <= k < l < |report.sensors| ==> report.sensors[k].revision != report.sensors[l].revision)
    && (forall k, l, m | 0 <= k < |report.sensors| && 0 <= l < m < |report.sensors[k].points| ::
          report.sensors[k].points[l].point != report.sensors[k].points[m].point)
  }

  /** A point before the `j`-th of the `i`-th sensor is not complete. */
  ghost predicate MissingBefore(report: CoverageReport, i: nat, j: nat) {
    exists k: nat, l: nat :: IncompleteAt(report, k, l) && (k < i || (k == i && l < j))
  }

  ghost predicate IncompleteAt(report: CoverageReport, k: nat, l: nat) {
    k < |report.sensors| && l < |report.sensors[k].points| && !report.sensors[k].points[l].complete
  }

  method CountRow(report: CoverageReport, i: nat, ghost before: set<(Id, real)>, some: bool)
    returns (required: nat, complete: nat, missing: bool, ghost pairs: set<(Id, real)>)
    requires OncePerPoint(report) && i < |report.sensors| && Counted(report, i, 0, before)
    requires (some <==> MissingBefore(report, i, 0))
    ensures required == |report.sensors[i].points|
    ensures |before| + complete == |pairs| && Counted(report, i + 1, 0, pairs)
    ensures missing <==> MissingBefore(report, i + 1, 0)
  {
    hide OncePerPoint, Counted, MissingBefore;
    required, complete, missing, pairs := 0, 0, some, before;
    var points := report.sensors[i].points;
    for j := 0 to |points|
      invariant required == j && |before| + complete == |pairs| && Counted(report, i, j, pairs)
      invariant missing <==> MissingBefore(report, i, j)
    {
      MissingNext(report, i, j);
      required := required + 1;
      ghost var pair := (report.sensors[i].revision, points[j].point);
      CountNext(report, i, j, pairs);
      if points[j].complete {
        complete := complete + 1;
        pairs := pairs + {pair};
      } else {
        missing := true;
      }
    }
    RowDone(report, i, pairs);
  }

  lemma MissingNext(report: CoverageReport, i: nat, j: nat)
    requires i < |report.sensors| && j < |report.sensors[i].points|
    ensures MissingBefore(report, i, j + 1) <==> MissingBefore(report, i, j) || !report.sensors[i].points[j].complete
  {
    if !report.sensors[i].points[j].complete {
      assert IncompleteAt(report, i, j);
    }
  }

  method CountPoints(report: CoverageReport, ghost n: nat)
    returns (required: nat, complete: nat, missing: bool, ghost pairs: set<(Id, real)>)
    requires OncePerPoint(report) && forall i :: 0 <= i < |report.sensors| ==> |report.sensors[i].points| == n
    ensures required == |report.sensors| * n
    ensures complete == |pairs| && Counted(report, |report.sensors|, 0, pairs)
    ensures missing <==> MissingBefore(report, |report.sensors|, 0)
  {
    hide OncePerPoint, Counted, MissingBefore;
    required, complete, missing := 0, 0, false;
    pairs := {};
    NothingCounted(report);
    for i := 0 to |report.sensors|
      invariant required == i * n && complete == |pairs| && Counted(report, i, 0, pairs)
      invariant missing <==> MissingBefore(report, i, 0)
    {
      var inRow, completeInRow;
      inRow, completeInRow, missing, pairs := CountRow(report, i, pairs, missing);
      required, complete := required + inRow, complete + completeInRow;
    }
  }

  lemma NothingCounted(report: CoverageReport)
    ensures Counted(report, 0, 0, {}) && !MissingBefore(report, 0, 0)
  {
  }

  lemma CountNext(report: CoverageReport, i: nat, j: nat, pairs: set<(Id, real)>)
    requires OncePerPoint(report) && Counted(report, i, j, pairs) && i < |report.sensors|
    requires j < |report.sensors[i].points|
    ensures var pair := (report.sensors[i].revision, report.sensors[i].points[j].point);
      if report.sensors[i].points[j].complete then pair !in pairs &&
          Counted(report, i, j + 1, pairs + {pair}) else Counted(report, i, j + 1, pairs)
  {
    var pair := (report.sensors[i].revision, report.sensors[i].points[j].point);
    if report.sensors[i].points[j].complete {
      assert CompleteAt(report, i, j, pair);
    }
  }

  lemma RowDone(report: CoverageReport, i: nat, pairs: set<(Id, real)>)
    requires i < |report.sensors| && Counted(report, i, |report.sensors[i].points|, pairs)
    ensures Counted(report, i + 1, 0, pairs)
    ensures MissingBefore(report, i + 1, 0) <==> MissingBefore(report, i, |report.sensors[i].points|)
  {
  }

  lemma ReportOncePerPoint(s: State, b: Id, report: CoverageReport)
    requires ProfilesOk(s) && ProfileOf(s, b).Some?
    requires forall i :: 0 <= i < |report.sensors| ==> SensorReported(s, b, report.sensors[i])
    requires forall i, j :: 0 <= i < j < |report.sensors| ==> report.sensors[i].revision != report.sensors[j].revision
    ensures OncePerPoint(report)
  {
    hide IsCurrent, PointComplete, HasEvidence, IsEvidence;
    PointsRise(s, b);
    var points := ProfileOf(s, b).value.points;
    forall k, l, m | 0 <= k < |report.sensors| && 0 <= l < m < |report.sensors[k].points|
      ensures report.sensors[k].points[l].point != report.sensors[k].points[m].point
    {
      assert SensorReported(s, b, report.sensors[k]);
      assert PointReported(s, b, report.sensors[k].revision, points[l], report.sensors[k].points[l]);
      assert PointReported(s, b, report.sensors[k].revision, points[m], report.sensors[k].points[m]);
    }
  }

  lemma ReportRows(s: State, b: Id, report: CoverageReport)
    requires forall i :: 0 <= i < |report.sensors| ==> SensorReported(s, b, report.sensors[i])
    ensures forall i :: 0 <= i < |report.sensors| ==> |report.sensors[i].points| == PlanSize(s, b)
  {
    hide IsCurrent, PointReported, AllComplete;
  }

  lemma PointsRise(s: State, b: Id)
    requires ProfilesOk(s) && ProfileOf(s, b).Some?
    ensures var points := ProfileOf(s, b).value.points; forall i, j :: 0 <= i < j < |points| ==> points[i] < points[j]
  {
    Renewal.PointsDistinct(s, b);
  }

  lemma CountedPairs(s: State, b: Id, report: CoverageReport, pairs: set<(Id, real)>)
    requires ProfileOf(s, b).Some? && Counted(report, |report.sensors|, 0, pairs)
    requires forall i :: 0 <= i < |report.sensors| ==> SensorReported(s, b, report.sensors[i])
    requires forall x :: IsCurrent(s, x, b) ==> exists i :: 0 <= i < |report.sensors| && report.sensors[i].revision == x
    ensures pairs == CompletePairs(s, b)
  {
    hide PointComplete, HasEvidence, IsEvidence, IsCurrent;
    var points := ProfileOf(s, b).value.points;
    forall pair | pair in pairs
      ensures pair in CompletePairs(s, b)
    {
      var k: nat, l: nat :| CompleteAt(report, k, l, pair) && k < |report.sensors|;
      assert SensorReported(s, b, report.sensors[k]);
      assert PointReported(s, b, report.sensors[k].revision, points[l], report.sensors[k].points[l]);
      CurrentStored(s, pair.0, b);
    }
    forall pair | pair in CompletePairs(s, b)
      ensures pair in pairs
    {
      var k :| 0 <= k < |report.sensors| && report.sensors[k].revision == pair.0;
      var l :| 0 <= l < |points| && points[l] == pair.1;
      assert SensorReported(s, b, report.sensors[k]);
      assert PointReported(s, b, report.sensors[k].revision, points[l], report.sensors[k].points[l]);
      assert CompleteAt(report, k, l, pair);
    }
  }

  lemma MissingPoints(s: State, b: Id, report: CoverageReport)
    requires ProfileOf(s, b).Some?
    requires forall i :: 0 <= i < |report.sensors| ==> SensorReported(s, b, report.sensors[i])
    requires forall x :: IsCurrent(s, x, b) ==> exists i :: 0 <= i < |report.sensors| && report.sensors[i].revision == x
    ensures MissingBefore(report, |report.sensors|, 0) <==>
      exists x, p :: IsCurrent(s, x, b) && PlanPoint(s, b, p) && !PointComplete(s, b, x, p)
  {
    hide PointComplete, HasEvidence, IsEvidence, IsCurrent;
    var points := ProfileOf(s, b).value.points;
    if MissingBefore(report, |report.sensors|, 0) {
      var k: nat, l: nat :| IncompleteAt(report, k, l) && k < |report.sensors|;
      assert SensorReported(s, b, report.sensors[k]);
      assert PointReported(s, b, report.sensors[k].revision, points[l], report.sensors[k].points[l]);
      assert IsCurrent(s, report.sensors[k].revision, b) && PlanPoint(s, b, points[l]);
    }
    forall x, p | IsCurrent(s, x, b) && PlanPoint(s, b, p) && !PointComplete(s, b, x, p)
      ensures MissingBefore(report, |report.sensors|, 0)
    {
      var k :| 0 <= k < |report.sensors| && report.sensors[k].revision == x;
      var l :| 0 <= l < |points| && points[l] == p;
      assert SensorReported(s, b, report.sensors[k]);
      assert PointReported(s, b, x, points[l], report.sensors[k].points[l]);
      assert IncompleteAt(report, k, l);
    }
  }

  method CountCritical(s: Snapshot, b: Id, open: seq<Id>) returns (critical: nat)
    requires Distinct(open) && Elements(open) == OpenIds(s.View(), b)
    ensures critical == |CriticalIds(s.View(), b)|
  {
    critical := 0;
    ghost var seen: set<Id> := {};
    for i := 0 to |open|
      invariant critical == |seen|
      invariant forall f :: f in seen <==> exists j :: 0 <= j < i && open[j] == f && f in CriticalIds(s.View(), b)
    {
      assert open[i] in Elements(open);
      if s.findings[open[i]].severity == CRITICAL {
        critical := critical + 1;
        seen := seen + {open[i]};
      }
    }
    forall f | f in CriticalIds(s.View(), b)
      ensures f in seen
    {
      assert f in Elements(open);
      var j :| 0 <= j < |open| && open[j] == f;
    }
    assert seen == CriticalIds(s.View(), b);
  }

  lemma NoCurrent(s: State, b: Id)
    ensures |CurrentIds(s, b)| == 0 <==> forall x :: !IsCurrent(s, x, b)
  {
    if x :| IsCurrent(s, x, b) {
      assert x in CurrentIds(s, b);
    }
  }

  /** The figures of a batch that has its plan. */
  datatype Figures = Figures(required: nat, complete: nat, open: nat, critical: nat, missing: bool, covered: bool)

  ghost predicate FiguresOf(s: State, b: Id, g: Figures)
    requires b in s.batches
  {
    && g.required == |CurrentIds(s, b)| * PlanSize(s, b) && g.complete == |CompletePairs(s, b)|
    && g.open == |OpenIds(s, b)| && g.critical == |CriticalIds(s, b)|
    && (g.missing <==> Blocks(s, b, MissingMeasurement)) && (g.covered <==> Covered(s, b)) &&
        (g.open > 0 <==> !NoOpen(s, b))
  }

  method Count(s: Snapshot, b: Id) returns (g: Figures)
    requires Core(s.View()) && b in s.batches && s.batches[b].profileID != ""
    ensures FiguresOf(s.View(), b, g)
  {
    hide Core, RevisionsUnique, DirectUnique, ProfilesOk, IsCurrent, SensorReported, Covered, NoOpen, OncePerPoint,
         Counted, MissingBefore, PointComplete, Distinct;
    ReadyFacts(s.View(), b);
    var coverage, e := BuildCoverage(s, b);
    ReportOncePerPoint(s.View(), b, coverage);
    ReportRows(s.View(), b, coverage);
    var required, complete, missing;
    ghost var pairs;
    required, complete, missing, pairs := CountPoints(coverage, PlanSize(s.View(), b));
    CountedPairs(s.View(), b, coverage, pairs);
    MissingPoints(s.View(), b, coverage);
    var open := s.BatchFindings(b, true);
    DistinctSize(open);
    assert Elements(open) == OpenIds(s.View(), b);
    var critical := CountCritical(s, b, open);
    OpenCounted(s.View(), b);
    g := Figures(required, complete, |open|, critical, missing, coverage.complete);
  }

  lemma BlocksUnplanned(s: State, b: Id, sensors: nat)
    requires Core(s) && b in s.batches && s.batches[b].profileID == "" && sensors == |CurrentIds(s, b)|
    ensures !Sealed(s.batches[b].status)
    ensures forall why :: Blocks(s, b, why) <==> (why == NoSensors && sensors == 0) || why == PlanUnlocked
  {
    hide Core, IsCurrent, NoOpen, PointComplete, PlanPoint, CurrentIds;
    NoCurrent(s, b);
    ReadyFacts(s, b);
    NothingPlanned(s, b);
  }

  lemma BlocksPlanned(s: State, b: Id, sensors: nat, g: Figures)
    requires b in s.batches && s.batches[b].profileID != "" && sensors == |CurrentIds(s, b)| && FiguresOf(s, b, g)
    ensures Blocks(s, b, NoSensors) <==> sensors == 0
    ensures !Blocks(s, b, PlanUnlocked) && (Blocks(s, b, MissingMeasurement) <==> g.missing)
    ensures Blocks(s, b, OpenFindings) <==> g.open > 0
    ensures Blocks(s, b, NoSamplingActor) <==> s.batches[b].sampledBy == []
  {
    hide IsCurrent, Covered, NoOpen, PointComplete, PlanPoint, CompletePairs, OpenIds, CriticalIds, PlanSize,
        CurrentIds;
    NoCurrent(s, b);
  }

  method FindBlockers(s: Snapshot, b: Id, sensors: nat, figures: Option<Figures>) returns (blockers: set<Blocker>)
    requires Core(s.View()) && b in s.batches && sensors == |CurrentIds(s.View(), b)|
    requires if s.batches[b].profileID == "" then figures.None? else figures.Some? && FiguresOf(s.View(), b, figures.value)
    ensures BlockersOf(s.View(), b, blockers)
  {
    hide Core, Blocks, FiguresOf, CurrentIds, BlockersOf;
    var bt := s.batches[b];
    blockers := {};
    if sensors == 0 {
      blockers := blockers + {NoSensors};
    }
    if bt.profileID == "" {
      BlocksUnplanned(s.View(), b, sensors);
      blockers := blockers + {PlanUnlocked};
      OneByOne(s.View(), b, blockers);
      return;
    }
    var g := figures.value;
    BlocksPlanned(s.View(), b, sensors, g);
    if g.missing {
      blockers := blockers + {MissingMeasurement};
    }
    if g.open > 0 {
      blockers := blockers + {OpenFindings};
    }
    if |bt.sampledBy| == 0 {
      blockers := blockers + {NoSamplingActor};
    }
    if bt.status == Status.Frozen || bt.status == Released {
      blockers := {};
    }
    OneByOne(s.View(), b, blockers);
  }

  lemma OneByOne(s: State, b: Id, blockers: set<Blocker>)
    requires b in s.batches && RightAbout(s, b, blockers, NoSensors) && RightAbout(s, b, blockers, PlanUnlocked)
    requires RightAbout(s, b, blockers, MissingMeasurement) && RightAbout(s, b, blockers, OpenFindings)
    requires RightAbout(s, b, blockers, NoSamplingActor)
    ensures BlockersOf(s, b, blockers)
  {
    hide Blocks;
    forall why: Blocker
      ensures RightAbout(s, b, blockers, why)
    {
      match why
      case NoSensors =>
      case PlanUnlocked =>
      case MissingMeasurement =>
      case OpenFindings =>
      case NoSamplingActor =>
    }
  }

  method BuildReadiness(s: Snapshot, b: Id) returns (r: Readiness, e: Option<Error>)
    requires Core(s.View())
    ensures e == if b !in s.batches then Some(NotFound) else None
    ensures e == None ==> ReadinessOf(s.View(), b, r)
  {
    hide Core, RevisionsUnique, DirectUnique, ProfilesOk, IsCurrent, Covered, NoOpen, PointComplete, HasCredential,
         Distinct, Ascending, CompletePairs, OpenIds, CriticalIds, PlanSize, BlockersOf, Blocks;
    r := NOTHING_READY;
    if b !in s.batches {
      return r, Some(NotFound);
    }
    ReadyFacts(s.View(), b);
    var bt := s.batches[b];
    var current := s.CurrentSensors(b);
    DistinctSize(current);
    var issued := s.CredentialForBatch(b);
    var figures := None;
    if bt.profileID != "" {
      var g := Count(s, b);
      figures := Some(g);
    }
    var blockers := FindBlockers(s, b, |current|, figures);
    SortAscends(bt.sampledBy);
    r := Readiness(|current|, 0, 0, 0, 0, SortIds(bt.sampledBy), TakesReadings(bt.status),
                   bt.status == Failed || bt.status == Returned, false, bt.status == Status.Frozen && issued.None?,
                   bt.status == Status.Frozen || bt.status == Released, blockers);
    if figures.Some? {
      var g := figures.value;
      r := r.(requiredPoints := g.required, completePoints := g.complete, openFindings := g.open,
          criticalFindings := g.critical,
              canReview := g.covered && g.open == 0 && bt.status == ReadyReview);
    }
    e := None;
  }

  lemma NothingPlanned(s: State, b: Id)
    requires Core(s) && b in s.batches && s.batches[b].profileID == ""
    ensures forall p :: !PlanPoint(s, b, p)
  {
    hide History, TaskIndex, RangesOk, SensorsOk, BatchesOk, SensorListsOk;
  }

  lemma OpenCounted(s: State, b: Id)
    ensures |OpenIds(s, b)| > 0 <==> !NoOpen(s, b)
  {
    if !NoOpen(s, b) {
      var f :| f in s.findings && s.findings[f].batchID == b && s.findings[f].status == Open;
      assert f in OpenIds(s, b);
    }
    if |OpenIds(s, b)| > 0 {
      var f :| f in OpenIds(s, b);
    }
  }

  lemma ReadyFacts(s: State, b: Id)
    requires Core(s) && b in s.batches
    ensures RevisionsUnique(s) && DirectUnique(s) && ProfilesOk(s) && Distinct(s.batches[b].sampledBy)
    ensures s.batches[b].profileID != "" ==> ProfileOf(s, b).Some?
    ensures s.batches[b].profileID == "" ==> s.batches[b].status == Draft
  {
    hide TaskIndex, MeasurementsOk, FindingsOk, OpenUntilPassed, ResolvedOk, FailuresFound, FindingsFounded,
         PreviousMeasured, EverMeasured;
    assert BatchOk(s, s.batches[b]);
  }

  // ---------- reading the queue ----------

  /** All batches of the projection in the order of the queue. */
  method BatchReadSnapshot(s: Snapshot) returns (batches: seq<Batch>)
    requires Keyed(s.View())
    ensures IsQueue(s.View(), EVERYTHING, batches)
  {
    var listed: seq<Batch> := [];
    var todo := s.batches.Keys;
    while todo != {}
      invariant todo <= s.batches.Keys && DifferentPlaces(listed)
      invariant forall bt :: bt in listed <==> bt.id in s.batches && bt.id !in todo && s.batches[bt.id] == bt
      decreases todo
    {
      var b :| b in todo;
      todo := todo - {b};
      assert forall i :: 0 <= i < |listed| ==> listed[i] in listed;
      listed := listed + [s.batches[b]];
    }
    SortOrders(listed);
    batches := SortBatches(listed);
    assert forall bt :: bt in batches <==> bt in Elements(batches);
    assert forall bt :: bt in listed <==> bt in Elements(listed);
  }

  const ZERO_COUNTS: map<Status, nat> := map[
    Draft := 0, PlanLocked := 0, Sampling := 0, Failed := 0, ReadyReview := 0, Returned := 0, Status.Frozen := 0,
        Released := 0]

  /** The part of `batches` seen so far, as selected by the filter. */
  ghost predicate Selected(f: Filter, batches: seq<Batch>, n: nat, matched: seq<Batch>)
    requires n <= |batches|
  {
    && Ordered(matched)
    && (forall bt :: bt in matched ==> Matches(f, bt) && bt in batches[..n])
    && (forall i :: 0 <= i < n && Matches(f, batches[i]) ==> batches[i] in matched)
  }

  lemma SelectNext(f: Filter, batches: seq<Batch>, n: nat, matched: seq<Batch>)
    requires Ordered(batches) && n < |batches| && Selected(f, batches, n, matched)
    ensures Selected(f, batches, n + 1, if Matches(f, batches[n]) then matched + [batches[n]] else matched)
  {
    var bt := batches[n];
    if Matches(f, bt) {
      forall i | 0 <= i < |matched|
        ensures Ahead(At(matched[i]), At(bt))
      {
        assert matched[i] in matched;
        var j :| 0 <= j < n && batches[j] == matched[i];
      }
    }
  }

  method Select(f: Filter, batches: seq<Batch>) returns (matched: seq<Batch>, summary: Summary)
    requires Ordered(batches)
    ensures Selected(f, batches, |batches|, matched) && Summarizes(matched, summary)
  {
    hide Ordered, Matches, Selected;
    matched, summary := [], Summary(0, ZERO_COUNTS, 0, 0);
    NothingSelected(f, batches);
    for i := 0 to |batches|
      invariant Selected(f, batches, i, matched) && Summarizes(matched, summary)
    {
      var bt := batches[i];
      SelectNext(f, batches, i, matched);
      if Matches(f, bt) {
        assert (matched + [bt])[..|matched|] == matched;
        matched := matched + [bt];
        summary := Summary(summary.total + 1, summary.byStatus[bt.status := summary.byStatus[bt.status] + 1],
                           summary.pendingReview + if bt.status == ReadyReview then 1 else 0,
                           summary.pendingIssue + if bt.status == Status.Frozen then 1 else 0);
      }
    }
  }

  lemma NothingSelected(f: Filter, batches: seq<Batch>)
    ensures Selected(f, batches, 0, []) && Summarizes([], Summary(0, ZERO_COUNTS, 0, 0))
  {
    forall st: Status
      ensures st in ZERO_COUNTS && ZERO_COUNTS[st] == 0
    {
      match st
      case Draft =>
      case PlanLocked =>
      case Sampling =>
      case Failed =>
      case ReadyReview =>
      case Returned =>
      case Frozen =>
      case Released =>
    }
  }

  lemma SelectedIsQueue(s: State, f: Filter, batches: seq<Batch>, matched: seq<Batch>)
    requires IsQueue(s, EVERYTHING, batches) && Selected(f, batches, |batches|, matched)
    ensures IsQueue(s, f, matched)
  {
    assert batches[..|batches|] == batches;
    forall bt
      ensures bt in matched <==> bt.id in s.batches && s.batches[bt.id] == bt && Matches(f, bt)
    {
      if bt in batches && Matches(f, bt) {
        var i :| 0 <= i < |batches| && batches[i] == bt;
      }
    }
  }

  /** The first place behind the cursor, by halving. */
  method Search(matched: seq<Batch>, after: Position) returns (start: nat)
    requires Ordered(matched)
    ensures IsStart(matched, Some(after), start)
  {
    var lo, hi := 0, |matched|;
    while lo < hi
      invariant 0 <= lo <= hi <= |matched|
      invariant forall i :: 0 <= i < lo ==> !Ahead(after, At(matched[i]))
      invariant forall i :: hi <= i < |matched| ==> Ahead(after, At(matched[i]))
    {
      var mid := (lo + hi) / 2;
      if Ahead(after, At(matched[mid])) {
        forall i | mid <= i < |matched|
          ensures Ahead(after, At(matched[i]))
        {
          if i > mid {
            AheadTransitive(after, At(matched[mid]), At(matched[i]));
          }
        }
        hi := mid;
      } else {
        forall i | 0 <= i <= mid
          ensures !Ahead(after, At(matched[i]))
        {
          if i < mid && Ahead(after, At(matched[i])) {
            AheadTransitive(after, At(matched[i]), At(matched[mid]));
          }
        }
        lo := mid + 1;
      }
    }
    start := lo;
  }

  datatype Cursor = Cursor(position: Position, filterDigest: string)

  /** The cursor of a request: none, a text that does not decode, or a decoded one. */
  datatype Given = NoCursor | Garbled | Decoded(cursor: Cursor)

  datatype Item = Item(
    batch: Batch, currentSensors: nat, completePoints: nat, openFindings: nat, nextAction: string,
        blockers: set<Blocker>)

  datatype View = View(items: seq<Item>, next: Option<Cursor>, summary: Summary)

  const NO_VIEW := View([], None, Summary(0, map[], 0, 0))

  function NextBatchAction(bt: Batch, r: Readiness): string {
    match bt.status
    case Draft => if r.currentSensors == 0 then "register_sensor" else "lock_profile"
    case PlanLocked => "submit_measurements"
    case Sampling => "submit_measurements"
    case Failed => "recalibrate"
    case Returned => if r.openFindings > 0 then "recalibrate" else "resubmit_review"
    case ReadyReview => "review"
    case Frozen => "issue_credential"
    case Released => "query_only"
  }

  ghost predicate ItemReports(s: State, bt: Batch, item: Item) {
    && item.batch == bt && bt.id in s.batches
    && exists r :: ReadinessOf(s, bt.id, r) &&
        item == Item(bt, r.currentSensors, r.completePoints, r.openFindings, NextBatchAction(bt, r), r.blockers)
  }

  function Effective(limit: int): int {
    if limit == 0 then 50 else limit
  }

  predicate RequestOk(fd: Filter -> string, f: Filter, limit: int, given: Given) {
    && 1 <= Effective(limit) <= 100
    && (f.from.Some? && f.until.Some? ==> f.from.value <= f.until.value)
    && given != Garbled
    && (given.Decoded? ==>
          given.cursor.position.id != "" && given.cursor.position.createdAt != 0 && given.cursor.filterDigest == fd(f))
  }

  function PositionOf(given: Given): Option<Position> {
    if given.Decoded? then Some(given.cursor.position) else None
  }

  /** The cursor for the next request. */
  function Handed(next: Option<Cursor>): Given {
    if next.None? then NoCursor else Decoded(next.value)
  }

  /** The page a view shows, without what is said about each batch. */
  ghost function PageOf(v: View): Page {
    Page(seq(|v.items|, i requires 0 <= i < |v.items| => v.items[i].batch), PositionOf(Handed(v.next)))
  }

  method ReportItems(s: Snapshot, batches: seq<Batch>) returns (items: seq<Item>)
    requires Core(s.View())
    requires forall i :: 0 <= i < |batches| ==> batches[i].id in s.batches && s.batches[batches[i].id] == batches[i]
    ensures |items| == |batches| && forall i :: 0 <= i < |items| ==> ItemReports(s.View(), batches[i], items[i])
  {
    hide Core, ReadinessOf;
    items := [];
    for i := 0 to |batches|
      invariant |items| == i && forall j :: 0 <= j < i ==> ItemReports(s.View(), batches[j], items[j])
    {
      var bt := batches[i];
      var r, e := BuildReadiness(s, bt.id);
      items := items + [Item(bt, r.currentSensors, r.completePoints, r.openFindings, NextBatchAction(bt, r),
          r.blockers)];
    }
  }

  /** A cursor handed out with a page is taken back with a filter of the same digest and no other. */
  lemma CursorBelongs(h: Material -> string, fd: Filter -> string, s: State, f: Filter, q: seq<Batch>, i: nat,
                      other: Filter, limit: int)
    requires Reachable(h, s) && IsQueue(s, f, q) && i < |q|
    ensures RequestOk(fd, other, limit, Decoded(Cursor(At(q[i]), fd(f)))) <==>
      && (limit == 0 || 1 <= limit <= 100) && fd(other) == fd(f)
      && (other.from.Some? && other.until.Some? ==> other.from.value <= other.until.value)
    ensures !RequestOk(fd, other, limit, Garbled)
  {
    hide Reachable, Ordered, Matches;
    ReachableInv(h, s);
    assert q[i] in q;
    StoredDated(h, s, q[i].id);
  }

  lemma StoredDated(h: Material -> string, s: State, b: Id)
    requires Inv(h, s) && b in s.batches
    ensures s.batches[b].id == b != "" && s.batches[b].createdAt != 0
  {
    hide History, TaskIndex, StatusOk, CredentialsOk, CredentialsUnique;
    assert BatchOk(s, s.batches[b]);
  }

  /** One page of the queue: the right batches in the right order, a cursor if there are more, and
      a summary of all that match. */
  method ListBatches(fd: Filter -> string, s: Snapshot, f: Filter, limit: int, given: Given)
    returns (view: View, e: Option<Error>)
    requires Core(s.View())
    ensures e == if RequestOk(fd, f, limit, given) then None else Some(Validation)
    ensures e == None ==> exists q :: IsQueue(s.View(), f, q) && Summarizes(q, view.summary) && Shows(s.View(), q, f, Effective(limit), given, view)
    ensures e == None ==> SummaryIs(s.View(), f, view.summary)
    ensures e == None ==> forall i :: 0 <= i < |view.items| ==> Wanted(s.View(), f, view.items[i].batch.id)
    ensures e == None ==> |view.items| <= if limit == 0 then 50 else limit
    ensures e == None && view.next.Some? ==> view.next.value.filterDigest == fd(f)
  {
    hide Core, Keyed, Ordered, Selected, IsQueue, IsPage, Matches, Summarizes, ItemReports, IsStart, SummaryIs, Wanted;
    if !RequestOk(fd, f, limit, given) {
      return NO_VIEW, Some(Validation);
    }
    QueueFacts(s.View());
    var size := Effective(limit);
    var batches := BatchReadSnapshot(s);
    QueueOrdered(s.View(), EVERYTHING, batches);
    var matched, summary := Select(f, batches);
    SelectedIsQueue(s.View(), f, batches, matched);
    QueueOrdered(s.View(), f, matched);
    var start := 0;
    StartAtHead(matched);
    if given.Decoded? {
      start := Search(matched, given.cursor.position);
    }
    StartInside(matched, PositionOf(given), start);
    var end := if start + size > |matched| then |matched| else start + size;
    var items := ReportItems(s, matched[start..end]);
    var next := None;
    if end < |matched| && end > start {
      next := Some(Cursor(At(matched[end - 1]), fd(f)));
    }
    view, e := View(items, next, summary), None;
    ViewShows(s.View(), matched, f, size, given, view, start, end);
    SummaryCounts(s.View(), f, matched, summary);
    ShownWanted(s.View(), f, matched, view, start, end);
  }

  lemma ShownWanted(s: State, f: Filter, q: seq<Batch>, view: View, start: nat, end: nat)
    requires IsQueue(s, f, q) && start <= end <= |q| && |view.items| == end - start
    requires forall i :: 0 <= i < |view.items| ==> ItemReports(s, q[start..end][i], view.items[i])
    ensures forall i :: 0 <= i < |view.items| ==> Wanted(s, f, view.items[i].batch.id)
  {
    hide ReadinessOf, Ordered;
    forall i | 0 <= i < |view.items|
      ensures Wanted(s, f, view.items[i].batch.id)
    {
      assert ItemReports(s, q[start..end][i], view.items[i]);
      assert q[start + i] in q;
    }
  }

  /** The view shows one page of the queue behind the cursor, and reports every batch on it. */
  ghost predicate Shows(s: State, q: seq<Batch>, f: Filter, limit: nat, given: Given, view: View) {
    && IsPage(q, PositionOf(given), limit, PageOf(view))
    && forall i :: 0 <= i < |view.items| ==> ItemReports(s, view.items[i].batch, view.items[i])
  }

  lemma ViewShows(s: State, q: seq<Batch>, f: Filter, limit: nat, given: Given, view: View, start: nat, end: nat)
    requires IsStart(q, PositionOf(given), start) && start <= |q|
    requires end == (if start + limit > |q| then |q| else start + limit)
    requires |view.items| == end - start
    requires forall i :: 0 <= i < |view.items| ==> ItemReports(s, q[start..end][i], view.items[i])
    requires PositionOf(Handed(view.next)) == if end < |q| && end > start then Some(At(q[end - 1])) else None
    ensures Shows(s, q, f, limit, given, view)
  {
    hide IsStart, ReadinessOf;
    forall i | 0 <= i < |view.items|
      ensures ItemReports(s, view.items[i].batch, view.items[i]) && view.items[i].batch == q[start..end][i]
    {
      assert ItemReports(s, q[start..end][i], view.items[i]);
    }
    assert PageOf(view).items == q[start..end];
    assert IsPageFrom(q, PositionOf(given), limit, PageOf(view), start);
  }

  lemma QueueFacts(s: State)
    requires Core(s)
    ensures Keyed(s)
  {
    Release.CorePlan(s);
  }

  lemma QueueOrdered(s: State, f: Filter, q: seq<Batch>)
    requires IsQueue(s, f, q)
    ensures Ordered(q) && forall i :: 0 <= i < |q| ==> q[i].id in s.batches && s.batches[q[i].id] == q[i]
  {
    forall i | 0 <= i < |q|
      ensures q[i].id in s.batches && s.batches[q[i].id] == q[i]
    {
      assert q[i] in q;
    }
  }

  lemma StartAtHead(q: seq<Batch>)
    ensures IsStart(q, None, 0)
  {
  }

  lemma StartInside(q: seq<Batch>, after: Option<Position>, start: nat)
    requires IsStart(q, after, start)
    ensures start <= |q|
  {
  }

  // ---------- paging while the service runs ----------

  /** What places a batch in the queue never changes. */
  ghost predicate SamePlaceInQueue(s: State, t: State, b: Id) {
    b in s.batches ==> b in t.batches && At(t.batches[b]) == At(s.batches[b])
  }

  lemma StepKeepsPlace(h: Material -> string, s: State, c: Call, b: Id)
    requires Inv(h, s) && Fresh(s, c)
    ensures SamePlaceInQueue(s, Step(h, s, c), b)
  {
    hide Inv, Fresh, Step;
    Requests.StepKeepsOrigin(h, s, c, b);
  }

  lemma RunKeepsPlace(h: Material -> string, s: State, calls: seq<Call>, b: Id)
    requires Inv(h, s) && FreshFrom(h, s, calls)
    ensures SamePlaceInQueue(s, RunFrom(h, s, calls), b)
  {
    hide Inv, FreshFrom, RunFrom;
    Requests.RunKeepsOrigin(h, s, calls, b);
  }

  /** The second state is reached from the first by some further commands. */
  ghost predicate Later(h: Material -> string, s: State, t: State) {
    exists calls :: Reaches(h, s, calls, t)
  }

  /** Every page of the walk is read from a later state of one run. */
  ghost predicate WalkOver(h: Material -> string, states: seq<State>, f: Filter, qs: seq<seq<Batch>>, limits: seq<nat>,
                           pages: seq<Page>) {
    && states != [] && |qs| == |states| && Reachable(h, states[0])
    && (forall i :: 0 < i < |states| ==> Later(h, states[i - 1], states[i]))
    && (forall i :: 0 <= i < |states| ==> IsQueue(states[i], f, qs[i]))
    && IsWalk(qs, limits, pages)
  }

  lemma {:induction false} WalkPlaces(h: Material -> string, states: seq<State>, f: Filter, qs: seq<seq<Batch>>,
      limits: seq<nat>, pages: seq<Page>, b: Id, n: nat)
    requires WalkOver(h, states, f, qs, limits, pages) && n < |states| && b in states[0].batches
    ensures Inv(h, states[n]) && b in states[n].batches && At(states[n].batches[b]) == At(states[0].batches[b])
  {
    hide Inv, Reachable, IsWalk, IsQueue, FreshFrom, RunFrom;
    if n == 0 {
      ReachableInv(h, states[0]);
    } else {
      WalkPlaces(h, states, f, qs, limits, pages, b, n - 1);
      assert Later(h, states[n - 1], states[n]);
      var calls :| Reaches(h, states[n - 1], calls, states[n]);
      RunKeeps(h, states[n - 1], calls);
      RunKeepsPlace(h, states[n - 1], calls, b);
    }
  }

  /** Paging is exactly-once while the service goes on: when a walk has come to its end, every batch
      that matched the filter at each of its pages has been shown on exactly one of them, whatever
      batches were created or changed their status meanwhile, and whatever the page sizes. */
  lemma PagingExactlyOnce(h: Material -> string, states: seq<State>, f: Filter, qs: seq<seq<Batch>>, limits: seq<nat>,
                          pages: seq<Page>, b: Id)
    returns (i: nat)
    requires WalkOver(h, states, f, qs, limits, pages) && pages[|pages| - 1].next.None?
    requires forall j :: 0 <= j < |states| ==> b in states[j].batches && Matches(f, states[j].batches[b])
    ensures i < |pages| && ShownOn(pages[i], At(states[0].batches[b]))
    ensures forall j :: 0 <= j < |pages| && ShownOn(pages[j], At(states[0].batches[b])) ==> j == i
  {
    hide Inv, Reachable, IsPage, Later, Matches, Ordered;
    var p := At(states[0].batches[b]);
    forall j | 0 <= j < |qs|
      ensures exists x :: x in qs[j] && At(x) == p
    {
      WalkPlaces(h, states, f, qs, limits, pages, b, j);
      InvKeyed(h, states[j], b);
      assert IsQueue(states[j], f, qs[j]);
      assert states[j].batches[b] in qs[j];
    }
    i := ShownExactlyOnce(qs, limits, pages, p);
  }

  lemma InvKeyed(h: Material -> string, s: State, b: Id)
    requires Inv(h, s) && b in s.batches
    ensures s.batches[b].id == b
  {
    hide History, TaskIndex, StatusOk, CredentialsOk, CredentialsUnique;
  }
}
