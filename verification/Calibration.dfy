/** The domain operations on a snapshot, step by step in place. */
module Calibration {
  import opened Entities
  import opened Evidence
  import Frozen
  import opened Text
  import opened Domain
  import Invariant
  import opened Snapshots

  method MoveTo(s: Snapshot, b: Id, next: Status) returns (e: Option<Error>)
    requires b in s.batches
    modifies s
    ensures Outcome(s.View(), e) == MoveToStep(old(s.View()), b, next)
  {
    var bt := s.batches[b];
    if !AllowedTransition(bt.status, next) {
      return Some(Conflict);
    }
    s.batches := s.batches[b := bt.(status := next, version := bt.version + 1)];
    e := None;
  }

  // ---------- draft ----------

  method CreateBatch(s: Snapshot, b: Id, stationCode: string, title: string, actor: string, now: Time)
    returns (e: Option<Error>)
    modifies s
    ensures Outcome(s.View(), e) == CreateBatchStep(old(s.View()), b, stationCode, title, actor, now)
  {
    if b in s.batches {
      return Some(Conflict);
    }
    if Blank(b) || Blank(stationCode) || Blank(title) || Blank(actor) {
      return Some(Validation);
    }
    s.batches := s.batches[b := Batch(b, stationCode, title, Draft, [], "", 1, actor, now, None, [], "")];
    e := None;
  }

  method IsRegistered(s: Snapshot, b: Id, code: string) returns (r: bool)
    ensures r <==> CodeRegistered(s.View(), b, code)
  {
    var todo := s.sensors.Keys;
    while todo != {}
      invariant todo <= s.sensors.Keys
      invariant forall x :: x in s.sensors && x !in todo ==> s.sensors[x].batchID != b || s.sensors[x].code != code
      decreases todo
    {
      var x :| x in todo;
      if s.sensors[x].batchID == b && s.sensors[x].code == code {
        return true;
      }
      todo := todo - {x};
    }
    r := false;
  }

  method RegisterSensor(s: Snapshot, b: Id, id: Id, code: string, metric: string, unit: string, rangeMin: real,
                        rangeMax: real, now: Time)
    returns (e: Option<Error>)
    modifies s
    ensures Outcome(s.View(), e) ==
        RegisterSensorStep(old(s.View()), b, id, code, metric, unit, rangeMin, rangeMax, now)
  {
    if b !in s.batches {
      return Some(NotFound);
    }
    var bt := s.batches[b];
    if !Mutable(bt) || bt.status != Draft {
      return Some(Conflict);
    }
    if Blank(code) || Blank(metric) || Blank(unit) || rangeMin >= rangeMax {
      return Some(Validation);
    }
    var registered := IsRegistered(s, b, code);
    if registered {
      return Some(Conflict);
    }
    s.sensors := s.sensors[id := Sensor(id, b, code, 1, metric, unit, rangeMin, rangeMax, "", now)];
    s.batches := s.batches[b := bt.(sensorIDs := bt.sensorIDs + [id], version := bt.version + 1)];
    e := None;
  }

  method HasRepeats(sorted: seq<real>) returns (r: bool)
    ensures r <==> Repeats(sorted)
  {
    for i := 0 to |sorted|
      invariant forall j :: 0 < j < i ==> sorted[j] != sorted[j - 1]
    {
      if i > 0 && sorted[i] == sorted[i - 1] {
        return true;
      }
    }
    r := false;
  }

  method AllInRange(s: Snapshot, b: Id, sorted: seq<real>) returns (r: bool)
    requires Invariant.RevisionsUnique(s.View()) && sorted != []
    ensures r <==> forall x :: IsCurrent(s.View(), x, b) ==> InRange(s.sensors[x], sorted)
  {
    var current := s.CurrentSensors(b);
    CurrentListed(s.View(), b, current);
    for i := 0 to |current|
      invariant forall j :: 0 <= j < i ==> InRange(s.sensors[current[j]], sorted)
    {
      var x := s.sensors[current[i]];
      if sorted[0] < x.rangeMin || sorted[|sorted| - 1] > x.rangeMax {
        return false;
      }
    }
    r := true;
  }

  lemma CurrentListed(s: State, b: Id, current: seq<Id>)
    requires Elements(current) == Frozen.CurrentIds(s, b)
    ensures forall i :: 0 <= i < |current| ==> IsCurrent(s, current[i], b)
    ensures forall x :: IsCurrent(s, x, b) ==> x in current
  {
    forall i | 0 <= i < |current|
      ensures IsCurrent(s, current[i], b)
    {
      assert current[i] in Elements(current);
    }
    forall x | IsCurrent(s, x, b)
      ensures x in current
    {
      assert x in Frozen.CurrentIds(s, b);
    }
  }

  method LockProfile(s: Snapshot, b: Id, id: Id, points: seq<real>, repetitions: int,
                     absoluteTolerance: real, relativeTolerance: real, repeatabilityLimit: real, now: Time)
    returns (e: Option<Error>)
    requires Invariant.RevisionsUnique(s.View())
    modifies s
    ensures Outcome(s.View(), e) == LockProfileStep(old(s.View()), b, id, points, repetitions, absoluteTolerance,
        relativeTolerance, repeatabilityLimit, now)
  {
    if b !in s.batches {
      return Some(NotFound);
    }
    var bt := s.batches[b];
    if bt.status != Draft {
      return Some(Conflict);
    }
    if bt.sensorIDs == [] || |points| < 2 || repetitions < 2 || absoluteTolerance < 0.0 || relativeTolerance < 0.0 ||
        repeatabilityLimit < 0.0 {
      return Some(Validation);
    }
    var sorted := SortPoints(points);
    var repeats := HasRepeats(sorted);
    if repeats {
      return Some(Validation);
    }
    var fits := AllInRange(s, b, sorted);
    if !fits {
      return Some(Validation);
    }
    s.profiles := s.profiles[id := Profile(id, b, sorted, repetitions, absoluteTolerance, relativeTolerance,
        repeatabilityLimit, Some(now))];
    s.batches := s.batches[b := bt.(profileID := id)];
    e := MoveTo(s, b, PlanLocked);
  }

  // ---------- findings and status ----------

  ghost function ById(fs: seq<Finding>): (r: map<Id, Finding>)
    ensures r == map[] <==> fs == []
  {
    if fs == [] then map[]
    else
      var last := fs[|fs| - 1];
      var r := ById(fs[..|fs| - 1])[last.id := last];
      assert last.id in r;
      r
  }

  ghost function AfterClosing(s: State, b: Id, x: Id, point: real, f: Finding, now: Time): Finding {
    if Closes(s, b, x, point, f) then Close(f, x, now) else f
  }

  /** Closes the open findings of earlier revisions at the point, in place, and names them. */
  method CloseEarlier(s: Snapshot, b: Id, x: Id, point: real, now: Time) returns (resolved: seq<Id>)
    modifies s`findings
    ensures s.findings.Keys == old(s.findings).Keys
    ensures forall f :: f in s.findings ==>
        s.findings[f] == AfterClosing(old(s.View()), b, x, point, old(s.findings)[f], now)
    ensures Distinct(resolved)
    ensures forall f :: f in resolved <==>
        f in old(s.findings) && Closes(old(s.View()), b, x, point, old(s.findings)[f])
  {
    ghost var was := s.View();
    resolved := [];
    var todo := s.findings.Keys;
    while todo != {}
      invariant s.findings.Keys == was.findings.Keys && todo <= s.findings.Keys && Distinct(resolved)
      invariant forall f :: f in s.findings ==>
          s.findings[f] == if f in todo then was.findings[f] else AfterClosing(was, b, x, point, was.findings[f], now)
      invariant forall f :: f in resolved <==>
          f !in todo && f in was.findings && Closes(was, b, x, point, was.findings[f])
      decreases todo
    {
      var f :| f in todo;
      var earlier := s.findings[f];
      todo := todo - {f};
      if earlier.batchID == b && earlier.status == Open && earlier.point == point {
        if x in s.sensors && earlier.sensorID in s.sensors && s.sensors[earlier.sensorID].code == s.sensors[x].code
           && s.sensors[earlier.sensorID].revision < s.sensors[x].revision
        {
          s.findings := s.findings[f := earlier.(status := Resolved, resolvedBy := x, reviewedAt := Some(now))];
          resolved := resolved + [f];
        }
      }
    }
  }

  /** Without new findings the open findings of earlier revisions at the point are closed;
      otherwise the new findings are entered and nothing is closed. */
  method ReplaceAutomaticFindings(s: Snapshot, b: Id, x: Id, point: real, found: seq<Finding>, now: Time)
    returns (resolved: seq<Id>)
    modifies s`findings
    ensures s.findings == ReplaceFindings(old(s.View()), b, x, point, ById(found), now)
    ensures Distinct(resolved)
    ensures forall f :: f in resolved <==>
        found == [] && f in old(s.findings) && Closes(old(s.View()), b, x, point, old(s.findings)[f])
  {
    resolved := [];
    if |found| == 0 {
      resolved := CloseEarlier(s, b, x, point, now);
      return;
    }
    ghost var was := s.findings;
    for i := 0 to |found|
      invariant s.findings == was + ById(found[..i])
    {
      s.findings := s.findings[found[i].id := found[i]];
      assert found[..i + 1][..i] == found[..i];
    }
    assert found[..|found|] == found;
  }

  method SetEvaluationStatus(s: Snapshot, b: Id, complete: bool) returns (e: Option<Error>)
    modifies s
    ensures Outcome(s.View(), e) == SetEvaluationStatusStep(old(s.View()), b, complete)
  {
    if b !in s.batches {
      return Some(NotFound);
    }
    var bt := s.batches[b];
    if bt.status == Returned {
      s.batches := s.batches[b := bt.(version := bt.version + 1)];
      return None;
    }
    var open := s.BatchFindings(b, true);
    var next := Sampling;
    if complete && |open| > 0 {
      next := Failed;
    } else if complete {
      next := ReadyReview;
    }
    if !AllowedTransition(bt.status, next) && bt.status != next {
      return Some(Conflict);
    }
    s.batches := s.batches[b := bt.(status := next, version := bt.version + 1)];
    e := None;
  }

  // ---------- recalibration ----------

  method HasOpenFinding(s: Snapshot, x: Id) returns (r: bool)
    ensures r <==> CarriesOpen(s.View(), x)
  {
    var todo := s.findings.Keys;
    while todo != {}
      invariant todo <= s.findings.Keys
      invariant forall f :: OpenAt(s.View(), f, x) ==> f in todo
      decreases todo
    {
      var f :| f in todo;
      if s.findings[f].sensorID == x && s.findings[f].status == Open {
        assert OpenAt(s.View(), f, x);
        return true;
      }
      todo := todo - {f};
    }
    r := false;
  }

  /** The copy of a revision with the next number, and the batch back in sampling unless it was returned. */
  method AddRevision(s: Snapshot, b: Id, previous: Id, id: Id, note: string, now: Time) returns (e: Option<Error>)
    requires b in s.batches && previous in s.sensors
    requires (s.batches[b].status == Failed || s.batches[b].status == Returned)
    modifies s
    ensures e == None
    ensures var bt := old(s.batches)[b];
      s.View() == old(s.View()).(
        sensors := old(s.sensors)[id := old(s.sensors)[previous].(id := id,
            revision := old(s.sensors)[previous].revision + 1, note := note, createdAt := now)],
        batches := old(s.batches)[b := bt.(sensorIDs := bt.sensorIDs + [id], version := bt.version + 1,
                                           status := if bt.status == Returned then Returned else Sampling)])
  {
    var x, bt := s.sensors[previous], s.batches[b];
    s.sensors := s.sensors[id := x.(id := id, revision := x.revision + 1, note := note, createdAt := now)];
    s.batches := s.batches[b := bt.(sensorIDs := bt.sensorIDs + [id])];
    if bt.status == Returned {
      s.batches := s.batches[b := s.batches[b].(version := bt.version + 1)];
      return None;
    }
    e := MoveTo(s, b, Sampling);
  }

  method RecalibrateSensor(s: Snapshot, b: Id, previous: Id, id: Id, note: string, now: Time) returns (e: Option<Error>)
    modifies s
    ensures Outcome(s.View(), e) == RecalibrateSensorStep(old(s.View()), b, previous, id, note, now)
  {
    hide IsCurrent, CarriesOpen, Blank;
    if b !in s.batches {
      return Some(NotFound);
    }
    var bt := s.batches[b];
    if !Mutable(bt) || (bt.status != Failed && bt.status != Returned) {
      return Some(Conflict);
    }
    if previous !in s.sensors || s.sensors[previous].batchID != b {
      return Some(Validation);
    }
    var current := s.IsCurrentRevision(previous, b);
    if !current || Blank(note) {
      return Some(Validation);
    }
    var open := HasOpenFinding(s, previous);
    if !open {
      return Some(Validation);
    }
    e := AddRevision(s, b, previous, id, note, now);
  }

  // ---------- measurements ----------

  function PointsOf(sets: seq<Measurement>): set<real> {
    set i | 0 <= i < |sets| :: sets[i].point
  }

  function IdsOf(sets: seq<Measurement>): set<Id> {
    set i | 0 <= i < |sets| :: sets[i].id
  }

  ghost predicate OutOfRange(x: Sensor, readings: seq<real>) {
    exists k :: 0 <= k < |readings| && !(x.rangeMin <= readings[k] <= x.rangeMax)
  }

  /** The checks of one set against the plan, the sets before it and what is already stored. */
  ghost function SetError(s: State, b: Id, x: Id, m: Measurement, points: set<real>, ids: set<Id>): Option<Error>
    requires x in s.sensors
  {
    if m.batchID != b || m.sensorID != x || !PlanPoint(s, b, m.point) || m.point in points then Some(Validation)
    else if m.id == "" || m.id in ids || m.id in s.measurements || m.capturedBy == "" then Some(Validation)
    else if |m.readings| != ProfileOf(s, b).value.repetitions ||
        OutOfRange(s.sensors[x], m.readings) then Some(Validation)
    else if HasDirect(s, x, m.point) then Some(Conflict)
    else None
  }

  ghost function FirstSetError(s: State, b: Id, x: Id, sets: seq<Measurement>, n: nat): Option<Error>
    requires x in s.sensors && n <= |sets|
  {
    if n == 0 then None
    else
      var before := FirstSetError(s, b, x, sets, n - 1);
      if before.Some? then before else SetError(s, b, x, sets[n - 1], PointsOf(sets[..n - 1]), IdsOf(sets[..n - 1]))
  }

  ghost function PutError(s: State, sets: seq<Measurement>): Option<Error> {
    if sets == [] then Some(Validation)
    else
      var b, x := sets[0].batchID, sets[0].sensorID;
      if b !in s.batches then Some(NotFound)
      else if !TakesReadings(s.batches[b].status) then Some(Conflict)
      else if x !in s.sensors || s.sensors[x].batchID != b || !IsCurrent(s, x, b) then Some(Validation)
      else FirstSetError(s, b, x, sets, |sets|)
  }

  /** The sets stored and their actors listed with the batch. */
  ghost function Put(s: State, b: Id, sets: seq<Measurement>, now: Time): (t: State)
    requires b in s.batches
    ensures b in t.batches && t == s.(batches := t.batches, measurements := t.measurements)
    ensures t.batches[b].profileID == s.batches[b].profileID
  {
    if sets == [] then s
    else
      var last := sets[|sets| - 1];
      var t := Put(s, b, sets[..|sets| - 1], now);
      t.(measurements := t.measurements[last.id := last.(capturedAt := now)],
         batches := t.batches[b := AddSampler(t.batches[b], last.capturedBy)])
  }

  method HasMeasurement(s: Snapshot, x: Id, p: real) returns (r: bool)
    ensures r <==> HasDirect(s.View(), x, p)
  {
    var todo := s.measurements.Keys;
    while todo != {}
      invariant todo <= s.measurements.Keys
      invariant forall m :: DirectAt(s.View(), m, x, p) ==> m in todo
      decreases todo
    {
      var m :| m in todo;
      if s.measurements[m].sensorID == x && s.measurements[m].point == p {
        assert DirectAt(s.View(), m, x, p);
        return true;
      }
      todo := todo - {m};
    }
    r := false;
  }

  method IsOutOfRange(x: Sensor, readings: seq<real>) returns (r: bool)
    ensures r <==> OutOfRange(x, readings)
  {
    for k := 0 to |readings|
      invariant forall j :: 0 <= j < k ==> x.rangeMin <= readings[j] <= x.rangeMax
    {
      if readings[k] < x.rangeMin || readings[k] > x.rangeMax {
        return true;
      }
    }
    r := false;
  }

  method CheckSet(s: Snapshot, b: Id, x: Id, m: Measurement, points: set<real>, ids: set<Id>) returns (e: Option<Error>)
    requires x in s.sensors
    ensures e == SetError(s.View(), b, x, m, points, ids)
  {
    if m.batchID != b || m.sensorID != x {
      return Some(Validation);
    }
    var profile := s.ProfileFor(b);
    if profile.None? || m.point !in profile.value.points || m.point in points {
      return Some(Validation);
    }
    if m.id == "" || m.id in ids || m.id in s.measurements || m.capturedBy == "" ||
        |m.readings| != profile.value.repetitions {
      return Some(Validation);
    }
    var outside := IsOutOfRange(s.sensors[x], m.readings);
    if outside {
      return Some(Validation);
    }
    var known := HasMeasurement(s, x, m.point);
    e := if known then Some(Conflict) else None;
  }

  /** All sets or none: nothing is stored unless every set passes every check. */
  method PutMeasurements(s: Snapshot, sets: seq<Measurement>, now: Time) returns (e: Option<Error>)
    modifies s
    ensures e == PutError(old(s.View()), sets)
    ensures s.View() == if e.Some? then old(s.View()) else Put(old(s.View()), sets[0].batchID, sets, now)
  {
    hide IsCurrent, SetError;
    if |sets| == 0 {
      return Some(Validation);
    }
    var b, x := sets[0].batchID, sets[0].sensorID;
    if b !in s.batches {
      return Some(NotFound);
    }
    if !Mutable(s.batches[b]) || !TakesReadings(s.batches[b].status) {
      return Some(Conflict);
    }
    if x !in s.sensors || s.sensors[x].batchID != b {
      return Some(Validation);
    }
    var current := s.IsCurrentRevision(x, b);
    if !current {
      return Some(Validation);
    }
    e := CheckSets(s, b, x, sets);
    if e.None? {
      StoreSets(s, b, sets, now);
    }
  }

  method CheckSets(s: Snapshot, b: Id, x: Id, sets: seq<Measurement>) returns (e: Option<Error>)
    requires x in s.sensors
    ensures e == FirstSetError(s.View(), b, x, sets, |sets|)
  {
    hide SetError;
    var points, ids := {}, {};
    for i := 0 to |sets|
      invariant points == PointsOf(sets[..i]) && ids == IdsOf(sets[..i])
      invariant FirstSetError(s.View(), b, x, sets, i) == None
    {
      e := CheckSet(s, b, x, sets[i], points, ids);
      if e.Some? {
        ErrorStays(s.View(), b, x, sets, i + 1, |sets|);
        return;
      }
      assert sets[..i + 1] == sets[..i] + [sets[i]];
      points, ids := points + {sets[i].point}, ids + {sets[i].id};
      PointsSnoc(sets[..i], sets[i]);
    }
    e := None;
  }

  lemma PointsSnoc(sets: seq<Measurement>, m: Measurement)
    ensures PointsOf(sets + [m]) == PointsOf(sets) + {m.point} && IdsOf(sets + [m]) == IdsOf(sets) + {m.id}
  {
    assert forall i :: 0 <= i < |sets| ==> (sets + [m])[i] == sets[i];
    assert (sets + [m])[|sets|] == m;
  }

  lemma {:induction false} ErrorStays(s: State, b: Id, x: Id, sets: seq<Measurement>, i: nat, n: nat)
    requires x in s.sensors && i <= n <= |sets| && FirstSetError(s, b, x, sets, i).Some?
    ensures FirstSetError(s, b, x, sets, n) == FirstSetError(s, b, x, sets, i)
  {
    if i < n {
      ErrorStays(s, b, x, sets, i, n - 1);
    }
  }

  method StoreSets(s: Snapshot, b: Id, sets: seq<Measurement>, now: Time)
    requires b in s.batches
    modifies s
    ensures s.View() == Put(old(s.View()), b, sets, now)
  {
    for i := 0 to |sets|
      invariant s.View() == Put(old(s.View()), b, sets[..i], now)
    {
      assert sets[..i + 1][..i] == sets[..i];
      s.measurements := s.measurements[sets[i].id := sets[i].(capturedAt := now)];
      s.batches := s.batches[b := AddSampler(s.batches[b], sets[i].capturedBy)];
    }
    assert sets[..|sets|] == sets;
  }

  // ---------- review and release ----------

  method CheckCorrection(s: Snapshot, b: Id, corrections: seq<Correction>, i: nat) returns (e: Option<Error>)
    requires i < |corrections|
    ensures e == CorrectionError(s.View(), b, corrections, i)
  {
    var c := corrections[i];
    var current := s.IsCurrentRevision(c.sensorID, b);
    var profile := s.ProfileFor(b);
    if !current || profile.None? || c.point !in profile.value.points || Blank(c.kind) || Blank(c.severity) ||
        Blank(c.message) {
      return Some(Validation);
    }
    for j := 0 to i
      invariant forall k :: 0 <= k < j ==> !SameCorrection(corrections[k], c)
    {
      if SameCorrection(corrections[j], c) {
        return Some(Validation);
      }
    }
    e := if c.id == "" || c.id in s.findings then Some(Validation) else None;
  }

  method CheckCorrections(s: Snapshot, b: Id, corrections: seq<Correction>) returns (ok: bool)
    ensures ok <==> !CorrectionsFail(s.View(), b, corrections)
  {
    hide CorrectionError;
    for i := 0 to |corrections|
      invariant forall j :: 0 <= j < i ==> CorrectionError(s.View(), b, corrections, j).None?
    {
      var e := CheckCorrection(s, b, corrections, i);
      if e.Some? {
        return false;
      }
    }
    ok := true;
  }

  method EnterCorrections(s: Snapshot, b: Id, corrections: seq<Correction>, reviewer: string)
    modifies s`findings
    ensures s.findings == old(s.findings) + ManualFindings(b, corrections, reviewer)
  {
    for i := 0 to |corrections|
      invariant s.findings == old(s.findings) + ManualFindings(b, corrections[..i], reviewer)
    {
      var c := corrections[i];
      assert corrections[..i + 1][..i] == corrections[..i];
      s.findings := s.findings[c.id := Finding(c.id, b, c.sensorID, c.point, c.kind, c.severity, c.message, Manual,
          reviewer, Open, "", None)];
    }
    assert corrections[..|corrections|] == corrections;
  }

  method ReturnReview(s: Snapshot, b: Id, reviewer: string, comment: string, corrections: seq<Correction>, now: Time)
    returns (e: Option<Error>)
    modifies s
    ensures Outcome(s.View(), e) == ReturnStep(old(s.View()), b, reviewer, comment, corrections, now)
  {
    hide CorrectionsFail, ManualFindings;
    if b !in s.batches {
      return Some(NotFound);
    }
    if s.batches[b].status != ReadyReview && s.batches[b].status != Failed {
      return Some(Conflict);
    }
    if HasSampler(s.batches[b], reviewer) {
      return Some(Forbidden);
    }
    if |corrections| == 0 {
      return Some(Validation);
    }
    var ok := CheckCorrections(s, b, corrections);
    if !ok {
      return Some(Validation);
    }
    EnterCorrections(s, b, corrections, reviewer);
    s.reviews := s.reviews + [Review(b, reviewer, SentBack, comment, CorrectionIds(corrections), now)];
    e := MoveTo(s, b, Returned);
  }

  method ResubmitReview(s: Snapshot, b: Id, actor: string, comment: string, now: Time) returns (e: Option<Error>)
    modifies s
    ensures Outcome(s.View(), e) == ResubmitReviewStep(old(s.View()), b, actor, comment, now)
  {
    if b !in s.batches {
      return Some(NotFound);
    }
    if s.batches[b].status != Returned {
      return Some(Conflict);
    }
    var open := s.BatchFindings(b, true);
    if |open| > 0 {
      return Some(Validation);
    }
    s.reviews := s.reviews + [Review(b, actor, Resubmitted, comment, [], now)];
    e := MoveTo(s, b, ReadyReview);
  }

  method Freeze(s: Snapshot, b: Id, reviewer: string, now: Time) returns (e: Option<Error>)
    requires b in s.batches
    modifies s
    ensures Outcome(s.View(), e) ==
      var bt := old(s.batches)[b];
      if bt.status != ReadyReview && bt.status != Returned then Fail(old(s.View()), Conflict)
      else if HasSampler(bt, reviewer) then Fail(old(s.View()), Forbidden)
      else MoveToStep(old(s.View()).(batches := old(s.batches)[b := bt.(frozenAt := Some(now),
          reviewedBy := reviewer)]), b, Status.Frozen)
  {
    var bt := s.batches[b];
    if bt.status != ReadyReview && bt.status != Returned {
      return Some(Conflict);
    }
    if HasSampler(bt, reviewer) {
      return Some(Forbidden);
    }
    s.batches := s.batches[b := bt.(frozenAt := Some(now), reviewedBy := reviewer)];
    e := MoveTo(s, b, Status.Frozen);
  }

  /** The review record is written before the separation of duties is checked, so a refusal
      leaves it behind; the caller works on a copy. */
  method ApproveReview(s: Snapshot, b: Id, reviewer: string, comment: string, now: Time) returns (e: Option<Error>)
    modifies s
    ensures Outcome(s.View(), e) == ApproveReviewStep(old(s.View()), b, reviewer, comment, now)
  {
    if b !in s.batches {
      return Some(NotFound);
    }
    var open := s.BatchFindings(b, true);
    if |open| > 0 {
      return Some(Validation);
    }
    if s.batches[b].status != ReadyReview {
      return Some(Conflict);
    }
    s.reviews := s.reviews + [Review(b, reviewer, Approved, comment, [], now)];
    e := Freeze(s, b, reviewer, now);
  }

  method IssueCredential(s: Snapshot, c: Credential, now: Time) returns (e: Option<Error>)
    modifies s
    ensures Outcome(s.View(), e) ==
      var was := old(s.View());
      if c.batchID !in was.batches then Fail(was, NotFound)
      else if was.batches[c.batchID].status != Status.Frozen || HasCredential(was, c.batchID) then Fail(was, Conflict)
      else if !NoOpen(was, c.batchID) then Fail(was, Validation)
      else MoveToStep(was.(credentials := was.credentials[c.id := c.(batchVersion := was.batches[c.batchID].version,
                                                                    decision := APPROVED_FOR_DEPLOYMENT,
                                                                        issuedAt := now)]), c.batchID, Released)
  {
    if c.batchID !in s.batches {
      return Some(NotFound);
    }
    if s.batches[c.batchID].status != Status.Frozen {
      return Some(Conflict);
    }
    var issued := s.CredentialForBatch(c.batchID);
    if issued.Some? {
      return Some(Conflict);
    }
    var open := s.BatchFindings(c.batchID, true);
    if |open| > 0 {
      return Some(Validation);
    }
    s.credentials := s.credentials[c.id := c.(batchVersion := s.batches[c.batchID].version,
        decision := APPROVED_FOR_DEPLOYMENT, issuedAt := now)];
    e := MoveTo(s, c.batchID, Released);
  }
}
