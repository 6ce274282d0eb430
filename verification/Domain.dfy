/** The commands of the service as functions from state to state.

    The imperative methods of `Commands` are proved to compute these functions; what the
    service promises is proved about them in `Preservation`, `Release` and the modules after. */
module Domain {
  import opened Entities
  import opened Statistics
  import opened Evidence
  import Frozen
  import opened Text

  const APPROVED_FOR_DEPLOYMENT := "approved_for_deployment"

  /** One point of a submission, with the identifiers it may need. */
  datatype Reading = Reading(id: Id, point: real, readings: seq<real>, findingIDs: seq<Id>)

  datatype Correction = Correction(id: Id, sensorID: Id, point: real, kind: string, severity: string, message: string)

  datatype Command =
    | CreateBatch(batchID: Id, stationCode: string, title: string)
    | RegisterSensor(batchID: Id, id: Id, code: string, metric: string, unit: string, rangeMin: real, rangeMax: real)
    | LockProfile(batchID: Id, id: Id, points: seq<real>, repetitions: int, absoluteTolerance: real,
        relativeTolerance: real, repeatabilityLimit: real)
    | Submit(batchID: Id, sensorID: Id, items: seq<Reading>, batched: bool)
    | Recalibrate(batchID: Id, sensorID: Id, id: Id, note: string, taskIDs: seq<Id>)
    | Approve(batchID: Id, comment: string, corrections: seq<Correction>)
    | SendBack(batchID: Id, comment: string, corrections: seq<Correction>)
    | Resubmit(batchID: Id, comment: string)
    | Issue(batchID: Id, id: Id)

  // ---------- life cycle ----------

  predicate AllowedTransition(from: Status, to: Status) {
    match from
    case Draft => to == PlanLocked
    case PlanLocked => to == Sampling || to == Failed || to == ReadyReview
    case Sampling => to == Sampling || to == Failed || to == ReadyReview
    case Failed => to == Sampling || to == Returned
    case ReadyReview => to == Returned || to == Status.Frozen
    case Returned => to == Returned || to == ReadyReview
    case Frozen => to == Released
    case Released => false
  }

  predicate Mutable(bt: Batch) {
    bt.status != Status.Frozen && bt.status != Released
  }

  predicate HasSampler(bt: Batch, actor: string) {
    actor in bt.sampledBy
  }

  function AddSampler(bt: Batch, actor: string): Batch {
    if actor in bt.sampledBy then bt else bt.(sampledBy := bt.sampledBy + [actor])
  }

  ghost function MoveToStep(s: State, b: Id, next: Status): Outcome
    requires b in s.batches
  {
    var bt := s.batches[b];
    if !AllowedTransition(bt.status, next) then Fail(s, Conflict)
    else Done(s.(batches := s.batches[b := bt.(status := next, version := bt.version + 1)]))
  }

  // ---------- creation, registration, locking ----------

  ghost function CreateBatchStep(s: State, b: Id, stationCode: string, title: string, actor: string,
                                 now: Time): Outcome {
    if b in s.batches then Fail(s, Conflict)
    else if Blank(b) || Blank(stationCode) || Blank(title) || Blank(actor) then Fail(s, Validation)
    else Done(s.(batches := s.batches[b := Batch(b, stationCode, title, Draft, [], "", 1, actor, now, None, [], "")]))
  }

  ghost predicate CodeRegistered(s: State, b: Id, code: string) {
    exists x :: x in s.sensors && s.sensors[x].batchID == b && s.sensors[x].code == code
  }

  ghost function RegisterSensorStep(s: State, b: Id, id: Id, code: string, metric: string, unit: string,
                                    rangeMin: real, rangeMax: real, now: Time): Outcome
  {
    if b !in s.batches then Fail(s, NotFound)
    else if s.batches[b].status != Draft then Fail(s, Conflict)
    else if Blank(code) || Blank(metric) || Blank(unit) then Fail(s, Validation)
    else if rangeMin >= rangeMax then Fail(s, Validation)
    else if CodeRegistered(s, b, code) then Fail(s, Conflict)
    else
      var bt := s.batches[b];
      Done(s.(sensors := s.sensors[id := Sensor(id, b, code, 1, metric, unit, rangeMin, rangeMax, "", now)],
              batches := s.batches[b := bt.(sensorIDs := bt.sensorIDs + [id], version := bt.version + 1)]))
  }

  ghost predicate Rising(ps: seq<real>) {
    forall i, j :: 0 <= i < j < |ps| ==> ps[i] <= ps[j]
  }

  function InsertPoint(p: real, ps: seq<real>): (r: seq<real>)
    ensures |r| == |ps| + 1
  {
    if ps == [] then [p]
    else if p <= ps[0] then [p] + ps
    else [ps[0]] + InsertPoint(p, ps[1..])
  }

  /** The library sort of the points of a profile. */
  function SortPoints(ps: seq<real>): (r: seq<real>)
    ensures |r| == |ps|
  {
    if ps == [] then [] else InsertPoint(ps[0], SortPoints(ps[1..]))
  }

  lemma {:induction false} InsertPointKeeps(p: real, ps: seq<real>)
    ensures multiset(InsertPoint(p, ps)) == multiset(ps) + multiset{p}
  {
    if ps != [] && p > ps[0] {
      assert ps == [ps[0]] + ps[1..];
      InsertPointKeeps(p, ps[1..]);
    }
  }

  lemma {:induction false} InsertPointRises(p: real, ps: seq<real>)
    requires Rising(ps)
    ensures Rising(InsertPoint(p, ps))
    ensures InsertPoint(p, ps)[0] == if ps == [] || p <= ps[0] then p else ps[0]
  {
    if ps != [] && p > ps[0] {
      InsertPointRises(p, ps[1..]);
    }
  }

  /** Sorting puts the points in order and keeps each of them. */
  lemma {:induction false} SortPointsSorts(ps: seq<real>)
    ensures Rising(SortPoints(ps)) && multiset(SortPoints(ps)) == multiset(ps)
  {
    if ps != [] {
      assert ps == [ps[0]] + ps[1..];
      SortPointsSorts(ps[1..]);
      InsertPointRises(ps[0], SortPoints(ps[1..]));
      InsertPointKeeps(ps[0], SortPoints(ps[1..]));
    }
  }

  ghost predicate Repeats(ps: seq<real>) {
    exists i :: 0 < i < |ps| && ps[i] == ps[i - 1]
  }

  ghost predicate InRange(x: Sensor, ps: seq<real>)
    requires ps != []
  {
    x.rangeMin <= ps[0] && ps[|ps| - 1] <= x.rangeMax
  }

  ghost function LockProfileStep(s: State, b: Id, id: Id, points: seq<real>, repetitions: int,
                                 absoluteTolerance: real, relativeTolerance: real, repeatabilityLimit: real,
                                     now: Time): Outcome
  {
    if b !in s.batches then Fail(s, NotFound)
    else if s.batches[b].status != Draft then Fail(s, Conflict)
    else if s.batches[b].sensorIDs == [] then Fail(s, Validation)
    else if |points| < 2 || repetitions < 2 then Fail(s, Validation)
    else if absoluteTolerance < 0.0 || relativeTolerance < 0.0 || repeatabilityLimit < 0.0 then Fail(s, Validation)
    else
      var sorted := SortPoints(points);
      if Repeats(sorted) then Fail(s, Validation)
      else if exists x :: IsCurrent(s, x, b) && !InRange(s.sensors[x], sorted) then Fail(s, Validation)
      else
        var bt := s.batches[b];
        Done(s.(profiles := s.profiles[id := Profile(id, b, sorted, repetitions, absoluteTolerance,
            relativeTolerance, repeatabilityLimit, Some(now))],
                batches := s.batches[b := bt.(profileID := id, status := PlanLocked, version := bt.version + 1)]))
  }

  // ---------- submitting readings ----------

  ghost function SetOf(b: Id, sensorID: Id, actor: string, item: Reading, now: Time): Measurement {
    Measurement(item.id, b, sensorID, item.point, item.readings, StatsOf(item.point, item.readings), actor, now)
  }

  /** The checks of one point of a submission, in their order. */
  ghost function ItemError(s: State, b: Id, sensorID: Id, actor: string, items: seq<Reading>, i: nat): Option<Error>
    requires sensorID in s.sensors && i < |items|
  {
    var item := items[i];
    var x := s.sensors[sensorID];
    if !PlanPoint(s, b, item.point) then Some(Validation)
    else if exists j :: 0 <= j < i && items[j].point == item.point then Some(Validation)
    else if item.id == "" || item.id in s.measurements || (exists j :: 0 <= j < i && items[j].id == item.id)
    then Some(Validation)
    else if actor == "" then Some(Validation)
    else if |item.readings| != ProfileOf(s, b).value.repetitions then Some(Validation)
    else if exists k :: 0 <= k < |item.readings| && !(x.rangeMin <= item.readings[k] <= x.rangeMax) then Some(Validation)
    else if HasDirect(s, sensorID, item.point) then Some(Conflict)
    else None
  }

  /** The error of the first point that has one. */
  ghost function FirstItemError(s: State, b: Id, sensorID: Id, actor: string, items: seq<Reading>,
                                n: nat): Option<Error>
    requires sensorID in s.sensors && n <= |items|
  {
    if n == 0 then None
    else
      var before := FirstItemError(s, b, sensorID, actor, items, n - 1);
      if before.Some? then before else ItemError(s, b, sensorID, actor, items, n - 1)
  }

  predicate TakesReadings(st: Status) {
    st == PlanLocked || st == Sampling || st == Failed || st == Returned
  }

  ghost function SubmitError(s: State, b: Id, sensorID: Id, actor: string, items: seq<Reading>): Option<Error> {
    if items == [] then Some(Validation)
    else if b !in s.batches then Some(NotFound)
    else if !TakesReadings(s.batches[b].status) then Some(Conflict)
    else if sensorID !in s.sensors || s.sensors[sensorID].batchID != b then Some(Validation)
    else if !IsCurrent(s, sensorID, b) then Some(Validation)
    else FirstItemError(s, b, sensorID, actor, items, |items|)
  }

  ghost function NewFinding(b: Id, sensorID: Id, draft: FindingDraft, id: Id): Finding {
    Finding(id, b, sensorID, draft.point, draft.kind, draft.severity, draft.message, Automatic, "", Open, "", None)
  }

  /** The findings made from drafts, each under its own new identifier. */
  ghost function NewFindings(b: Id, sensorID: Id, drafts: seq<FindingDraft>, ids: seq<Id>): map<Id, Finding>
    requires |drafts| <= |ids|
  {
    if drafts == [] then map[]
    else
      var n := |drafts| - 1;
      NewFindings(b, sensorID, drafts[..n], ids)[ids[n] := NewFinding(b, sensorID, drafts[n], ids[n])]
  }

  /** Whether new findings, or their absence, at a point of a revision close the open finding `f`. */
  ghost predicate Closes(s: State, b: Id, sensorID: Id, point: real, f: Finding) {
    && f.batchID == b && f.status == Open && f.point == point
    && sensorID in s.sensors && f.sensorID in s.sensors
    && s.sensors[f.sensorID].code == s.sensors[sensorID].code
    && s.sensors[f.sensorID].revision < s.sensors[sensorID].revision
  }

  ghost function Close(f: Finding, sensorID: Id, now: Time): Finding {
    f.(status := Resolved, resolvedBy := sensorID, reviewedAt := Some(now))
  }

  ghost function ReplaceFindings(s: State, b: Id, sensorID: Id, point: real, added: map<Id, Finding>,
                                 now: Time): map<Id, Finding> {
    (map f | f in s.findings ::
       if added == map[] && Closes(s, b, sensorID, point, s.findings[f]) then
           Close(s.findings[f], sensorID, now) else s.findings[f])
    + added
  }

  ghost predicate Retests(t: Task, m: Measurement) {
    t.sensorID == m.sensorID && t.point == m.point && t.required
  }

  ghost function Retested(t: Task, m: Measurement, drafts: seq<FindingDraft>, now: Time): Task {
    t.(evidenceID := m.id, updatedAt := now,
       status := if drafts == [] then TaskStatus.Passed else Failing,
       reasons := seq(|drafts|, i requires 0 <= i < |drafts| => drafts[i].message))
  }

  ghost function UpdateTasks(tasks: map<Id, Task>, m: Measurement, drafts: seq<FindingDraft>,
                             now: Time): map<Id, Task> {
    map t | t in tasks :: if Retests(tasks[t], m) then Retested(tasks[t], m, drafts, now) else tasks[t]
  }

  ghost function DraftsOf(p: Profile, item: Reading): seq<FindingDraft> {
    Compare(item.point, StatsOf(item.point, item.readings), p)
  }

  /** Records one point: the measurement, its actor, the tasks it answers, the findings it
      opens or closes.  The status is left alone. */
  ghost function ApplyReading(s: State, p: Profile, b: Id, sensorID: Id, actor: string, item: Reading, now: Time): State
    requires b in s.batches && |item.findingIDs| >= 3
  {
    var m := SetOf(b, sensorID, actor, item, now);
    var drafts := DraftsOf(p, item);
    s.(batches := s.batches[b := AddSampler(s.batches[b], actor)],
       measurements := s.measurements[item.id := m],
       tasks := UpdateTasks(s.tasks, m, drafts, now),
       findings := ReplaceFindings(s, b, sensorID, item.point, NewFindings(b, sensorID, drafts, item.findingIDs), now))
  }

  ghost predicate Supplied(items: seq<Reading>) {
    forall i :: 0 <= i < |items| ==> |items[i].findingIDs| >= 3
  }

  ghost function ApplyReadings(s: State, p: Profile, b: Id, sensorID: Id, actor: string, items: seq<Reading>,
                               now: Time): (t: State)
    requires b in s.batches && Supplied(items)
    ensures b in t.batches && t.batches[b] == s.batches[b].(sampledBy := t.batches[b].sampledBy)
    ensures t.sensors == s.sensors && t.profiles == s.profiles && t.credentials == s.credentials
    ensures t.reviews == s.reviews
    ensures t.batches.Keys == s.batches.Keys
  {
    if items == [] then s
    else
      var n := |items| - 1;
      ApplyReading(ApplyReadings(s, p, b, sensorID, actor, items[..n], now), p, b, sensorID, actor, items[n], now)
  }

  /** The status that follows from coverage and open findings. */
  ghost function EvaluatedStatus(s: State, b: Id, complete: bool): Status {
    if !complete then Sampling else if NoOpen(s, b) then ReadyReview else Failed
  }

  ghost function SetEvaluationStatusStep(s: State, b: Id, complete: bool): Outcome {
    if b !in s.batches then Fail(s, NotFound)
    else
      var bt := s.batches[b];
      if bt.status == Returned then Done(s.(batches := s.batches[b := bt.(version := bt.version + 1)]))
      else
        var next := EvaluatedStatus(s, b, complete);
        if !AllowedTransition(bt.status, next) && bt.status != next then Fail(s, Conflict)
        else Done(s.(batches := s.batches[b := bt.(status := next, version := bt.version + 1)]))
  }

  ghost function SubmitStep(s: State, b: Id, sensorID: Id, actor: string, items: seq<Reading>, now: Time): Outcome
    requires Supplied(items)
  {
    var e := SubmitError(s, b, sensorID, actor, items);
    if e.Some? then Fail(s, e.value)
    else
      PlanNeeded(s, b, sensorID, actor, items);
      var t := ApplyReadings(s, ProfileOf(s, b).value, b, sensorID, actor, items, now);
      SetEvaluationStatusStep(t, b, Covered(t, b))
  }

  lemma {:induction false} FirstItemErrorAt(s: State, b: Id, sensorID: Id, actor: string, items: seq<Reading>, n: nat,
                                            i: nat)
    requires sensorID in s.sensors && i < n <= |items|
    requires FirstItemError(s, b, sensorID, actor, items, n) == None
    ensures ItemError(s, b, sensorID, actor, items, i) == None
  {
    if i < n - 1 {
      FirstItemErrorAt(s, b, sensorID, actor, items, n - 1, i);
    }
  }

  lemma PlanNeeded(s: State, b: Id, sensorID: Id, actor: string, items: seq<Reading>)
    requires SubmitError(s, b, sensorID, actor, items) == None
    ensures ProfileOf(s, b).Some?
  {
    FirstItemErrorAt(s, b, sensorID, actor, items, |items|, 0);
  }

  // ---------- recalibration ----------

  ghost function PreviousEvidence(s: State, x: Sensor, p: real): Option<Id> {
    if exists m :: LatestPrevious(s, m, x, p) then var m :| LatestPrevious(s, m, x, p); Some(m) else None
  }

  ghost function NewTask(s: State, x: Sensor, p: real, id: Id, now: Time): Task {
    var open := Canonical(OpenEarlierSet(s, x, p));
    var evidence := PreviousEvidence(s, x, p);
    var known := evidence.Some? && evidence.value in s.measurements;
    Task(id, x.batchID, x.id, p, open != [], if open != [] then Pending else Inherited, open,
         if known then s.measurements[evidence.value].sensorID else "",
         if known && open == [] then s.measurements[evidence.value].id else "", [], now)
  }

  /** One task for each of the first `n` points of the plan. */
  ghost function NewTasks(s: State, x: Sensor, points: seq<real>, ids: seq<Id>, now: Time, n: nat): map<Id, Task>
    requires n <= |points| && n <= |ids|
  {
    if n == 0 then map[]
    else NewTasks(s, x, points, ids, now, n - 1)[ids[n - 1] := NewTask(s, x, points[n - 1], ids[n - 1], now)]
  }

  ghost function RecalibrateSensorStep(s: State, b: Id, oldID: Id, newID: Id, note: string, now: Time): Outcome {
    if b !in s.batches then Fail(s, NotFound)
    else if s.batches[b].status != Failed && s.batches[b].status != Returned then Fail(s, Conflict)
    else if oldID !in s.sensors || s.sensors[oldID].batchID != b then Fail(s, Validation)
    else if !IsCurrent(s, oldID, b) then Fail(s, Validation)
    else if Blank(note) then Fail(s, Validation)
    else if !CarriesOpen(s, oldID) then Fail(s, Validation)
    else
      var bt := s.batches[b];
      var previous := s.sensors[oldID];
      Done(s.(sensors := s.sensors[newID := previous.(id := newID, revision := previous.revision + 1, note := note,
          createdAt := now)],
              batches := s.batches[b := bt.(sensorIDs := bt.sensorIDs + [newID], version := bt.version + 1,
                                            status := if bt.status == Returned then Returned else Sampling)]))
  }

  ghost function RecalibrateStep(s: State, b: Id, oldID: Id, newID: Id, note: string, taskIDs: seq<Id>,
                                 now: Time): Outcome
    requires ProfileOf(s, b).Some? ==> |taskIDs| >= |ProfileOf(s, b).value.points|
  {
    var o := RecalibrateSensorStep(s, b, oldID, newID, note, now);
    if o.error.Some? then o
    else if !(newID in o.state.sensors && o.state.sensors[newID].revision >= 2 && IsCurrent(o.state, newID, b)) then
        Fail(o.state, Validation)
    else if ProfileOf(o.state, b).None? then Fail(o.state, Validation)
    else
      var points := ProfileOf(o.state, b).value.points;
      Done(o.state.(tasks := o.state.tasks + NewTasks(o.state, o.state.sensors[newID], points, taskIDs, now, |points|)))
  }

  // ---------- review and release ----------

  ghost function CorrectionError(s: State, b: Id, corrections: seq<Correction>, i: nat): Option<Error>
    requires i < |corrections|
  {
    var c := corrections[i];
    if !IsCurrent(s, c.sensorID, b) || !PlanPoint(s, b, c.point) || Blank(c.kind) || Blank(c.severity) ||
        Blank(c.message) then Some(Validation)
    else if exists j :: 0 <= j < i && SameCorrection(corrections[j], c) then Some(Validation)
    else if c.id == "" || c.id in s.findings then Some(Validation)
    else None
  }

  predicate SameCorrection(c: Correction, d: Correction) {
    c.sensorID == d.sensorID && c.point == d.point && c.kind == d.kind && Trim(c.message) == Trim(d.message)
  }

  ghost predicate CorrectionsFail(s: State, b: Id, corrections: seq<Correction>) {
    exists i :: 0 <= i < |corrections| && CorrectionError(s, b, corrections, i).Some?
  }

  ghost function ManualFinding(b: Id, c: Correction, reviewer: string): Finding {
    Finding(c.id, b, c.sensorID, c.point, c.kind, c.severity, c.message, Manual, reviewer, Open, "", None)
  }

  ghost function ManualFindings(b: Id, corrections: seq<Correction>, reviewer: string): map<Id, Finding> {
    if corrections == [] then map[]
    else
      var n := |corrections| - 1;
      ManualFindings(b, corrections[..n], reviewer)[corrections[n].id := ManualFinding(b, corrections[n], reviewer)]
  }

  function CorrectionIds(corrections: seq<Correction>): seq<Id> {
    seq(|corrections|, i requires 0 <= i < |corrections| => corrections[i].id)
  }

  ghost function ReturnStep(s: State, b: Id, reviewer: string, comment: string, corrections: seq<Correction>,
                            now: Time): Outcome {
    if b !in s.batches then Fail(s, NotFound)
    else if s.batches[b].status != ReadyReview && s.batches[b].status != Failed then Fail(s, Conflict)
    else if HasSampler(s.batches[b], reviewer) then Fail(s, Forbidden)
    else if corrections == [] || CorrectionsFail(s, b, corrections) then Fail(s, Validation)
    else
      MoveToStep(s.(findings := s.findings + ManualFindings(b, corrections, reviewer),
                reviews := s.reviews + [Review(b, reviewer, SentBack, comment, CorrectionIds(corrections), now)]),
             b, Returned)
  }

  ghost function ResubmitReviewStep(s: State, b: Id, actor: string, comment: string, now: Time): Outcome {
    if b !in s.batches then Fail(s, NotFound)
    else if s.batches[b].status != Returned then Fail(s, Conflict)
    else if !NoOpen(s, b) then Fail(s, Validation)
    else MoveToStep(s.(reviews := s.reviews + [Review(b, actor, Resubmitted, comment, [], now)]), b, ReadyReview)
  }

  ghost function ResubmitStep(s: State, b: Id, actor: string, comment: string, now: Time): Outcome {
    if b !in s.batches then Fail(s, NotFound)
    else if s.batches[b].status != Returned then Fail(s, Conflict)
    else if ProfileOf(s, b).None? then Fail(s, Validation)
    else if (exists x, p :: IsCurrent(s, x, b) && p in ProfileOf(s, b).value.points && !PointComplete(s, b, x, p)) ||
        !NoOpen(s, b) then Fail(s, Validation)
    else ResubmitReviewStep(s, b, actor, comment, now)
  }

  ghost predicate PointComplete(s: State, b: Id, x: Id, p: real) {
    ProfileOf(s, b).Some? && exists m ::
        IsEvidence(s, m, x, p) && |s.measurements[m].readings| == ProfileOf(s, b).value.repetitions
  }

  /** The review record is appended before the separation of duties is checked. */
  ghost function ApproveReviewStep(s: State, b: Id, reviewer: string, comment: string, now: Time): Outcome {
    if b !in s.batches then Fail(s, NotFound)
    else if !NoOpen(s, b) then Fail(s, Validation)
    else if s.batches[b].status != ReadyReview then Fail(s, Conflict)
    else
      var t := s.(reviews := s.reviews + [Review(b, reviewer, Approved, comment, [], now)]);
      var bt := t.batches[b];
      if HasSampler(bt, reviewer) then Fail(t, Forbidden)
      else MoveToStep(t.(batches := t.batches[b := bt.(frozenAt := Some(now), reviewedBy := reviewer)]), b,
          Status.Frozen)
  }

  ghost predicate HasCredential(s: State, b: Id) {
    exists c :: c in s.credentials && s.credentials[c].batchID == b
  }

  ghost function IssueStep(h: Frozen.Material -> string, s: State, b: Id, id: Id, actor: string, now: Time): Outcome {
    if b !in s.batches then Fail(s, NotFound)
    else if s.batches[b].status != Status.Frozen then Fail(s, Conflict)
    else if HasCredential(s, b) then Fail(s, Conflict)
    else if !NoOpen(s, b) then Fail(s, Validation)
    else
      var c := Credential(id, b, s.batches[b].version, Canonical(Frozen.CurrentIds(s, b)), APPROVED_FOR_DEPLOYMENT,
                          h(Frozen.MaterialOf(s, b, 0)), actor, now);
      MoveToStep(s.(credentials := s.credentials[id := c]), b, Released)
  }

  // ---------- all commands ----------

  /** The identifiers come in sufficient number; the source draws them one by one. */
  ghost predicate EnoughIds(s: State, cmd: Command) {
    match cmd
    case Submit(_, _, items, _) => Supplied(items)
    case Recalibrate(b, _, _, _, taskIDs) => ProfileOf(s, b).Some? ==> |taskIDs| >= |ProfileOf(s, b).value.points|
    case _ => true
  }

  ghost function Execute(h: Frozen.Material -> string, s: State, actor: string, cmd: Command, now: Time): Outcome
    requires EnoughIds(s, cmd)
  {
    match cmd
    case CreateBatch(b, stationCode, title) => CreateBatchStep(s, b, stationCode, title, actor, now)
    case RegisterSensor(b, id, code, metric, unit, lo, hi) => RegisterSensorStep(s, b, id, code, metric, unit, lo,
        hi, now)
    case LockProfile(b, id, points, reps, at, rt, rl) => LockProfileStep(s, b, id, points, reps, at, rt, rl, now)
    case Submit(b, x, items, _) => SubmitStep(s, b, x, actor, items, now)
    case Recalibrate(b, oldID, newID, note, taskIDs) => RecalibrateStep(s, b, oldID, newID, note, taskIDs, now)
    case Approve(b, comment, corrections) => if corrections != [] then
        Fail(s, Validation) else ApproveReviewStep(s, b, actor, comment, now)
    case SendBack(b, comment, corrections) => ReturnStep(s, b, actor, comment, corrections, now)
    case Resubmit(b, comment) => ResubmitStep(s, b, actor, comment, now)
    case Issue(b, id) => IssueStep(h, s, b, id, actor, now)
  }
}
