/** The validation of a persisted projection, and that every state of every run passes it. */
module Validation {
  import opened Entities
  import opened Evidence
  import opened Frozen
  import opened Text
  import opened Domain
  import opened Invariant
  import opened Snapshots
  import opened Calibration
  import opened Runs

  // ---------- what is accepted ----------

  /** The revisions of every sensor of the batch are numbered 1, 2, 3 and so on, each number once. */
  ghost predicate Contiguous(s: State, b: Id) {
    && (forall x :: x in s.sensors && s.sensors[x].batchID == b ==>
          s.sensors[x].revision >= 1 && (s.sensors[x].revision > 1 ==>
              HasRevision(s, b, s.sensors[x].code, s.sensors[x].revision - 1)))
    && (forall x, y | x in s.sensors && y in s.sensors && s.sensors[x].batchID == b &&
        SameLine(s.sensors[x], s.sensors[y])
          && s.sensors[x].revision == s.sensors[y].revision :: x == y)
  }

  ghost predicate ValidBatch(s: State, bt: Batch) {
    && bt.id != "" && bt.stationCode != "" && bt.title != "" && bt.createdBy != "" && bt.version >= 1 &&
        bt.createdAt != 0
    && Distinct(bt.sensorIDs) && BelongAll(s, bt.sensorIDs, bt.id)
    && (bt.profileID != "" ==> bt.profileID in s.profiles && s.profiles[bt.profileID].batchID == bt.id)
    && (bt.status != Draft ==> bt.profileID != "")
    && (if Sealed(bt.status) then bt.frozenAt.Some? && bt.reviewedBy != "" &&
        !HasSampler(bt, bt.reviewedBy) else bt.frozenAt.None?)
    && (bt.status == Released ==> HasCredential(s, bt.id))
    && Contiguous(s, bt.id)
  }

  ghost predicate BelongAll(s: State, ids: seq<Id>, b: Id) {
    forall x :: x in ids ==> x in s.sensors && s.sensors[x].batchID == b
  }

  ghost predicate ValidSensor(s: State, x: Sensor) {
    && x.batchID in s.batches && x.code != "" && x.metric != "" && x.unit != "" && x.revision >= 1
    && x.rangeMin < x.rangeMax && (x.revision > 1 ==> x.note != "")
  }

  ghost predicate ValidProfile(s: State, p: Profile) {
    && p.batchID in s.batches && s.batches[p.batchID].profileID == p.id
    && p.lockedAt.Some? && |p.points| >= 2 && p.repetitions >= 2
    && forall i :: 0 < i < |p.points| ==> p.points[i - 1] < p.points[i]
  }

  ghost predicate ValidMeasurement(s: State, m: Measurement) {
    && m.sensorID in s.sensors && m.batchID in s.batches && s.sensors[m.sensorID].batchID == m.batchID &&
        PlanPoint(s, m.batchID, m.point)
    && |m.readings| == ProfileOf(s, m.batchID).value.repetitions && m.capturedBy != "" && m.capturedAt != 0
    && forall i :: 0 <= i < |m.readings| ==>
        s.sensors[m.sensorID].rangeMin <= m.readings[i] <= s.sensors[m.sensorID].rangeMax
  }

  ghost predicate ValidFinding(s: State, f: Finding) {
    && f.sensorID in s.sensors && f.batchID in s.batches && s.sensors[f.sensorID].batchID == f.batchID
    && f.kind != "" && f.severity != "" && f.message != "" && (f.origin == Manual ==> f.createdBy != "")
    && (f.status == Resolved ==> f.reviewedAt.Some? && f.resolvedBy in s.sensors && Earlier(s, f.sensorID, s.sensors[f.resolvedBy]))
  }

  ghost predicate ValidTask(s: State, t: Task) {
    && t.sensorID in s.sensors && s.sensors[t.sensorID].batchID == t.batchID && s.sensors[t.sensorID].revision >= 2
    && t.batchID in s.batches && PlanPoint(s, t.batchID, t.point) && t.updatedAt != 0
    && (t.required <==> t.status != Inherited)
    && (forall f :: f in t.findingIDs ==> f in s.findings && s.findings[f].batchID == t.batchID)
    && (t.evidenceID != "" ==> t.evidenceID in s.measurements)
  }

  ghost predicate ValidCredential(s: State, c: Credential) {
    && c.batchID in s.batches && s.batches[c.batchID].status == Released
    && c.batchVersion >= 1 && c.decision == APPROVED_FOR_DEPLOYMENT && c.contentDigest != "" && c.issuedBy != "" &&
        c.issuedAt != 0
    && Distinct(c.sensorIDs) && BelongAll(s, c.sensorIDs, c.batchID)
  }

  ghost predicate ValidReview(s: State, r: Review) {
    r.batchID != "" && r.batchID in s.batches && r.reviewer != ""
  }

  ghost predicate ValidSnapshot(s: State) {
    && (forall k :: k in s.batches ==> s.batches[k].id == k && ValidBatch(s, s.batches[k]))
    && (forall k :: k in s.sensors ==> s.sensors[k].id == k && ValidSensor(s, s.sensors[k]))
    && (forall k :: k in s.profiles ==> s.profiles[k].id == k && ValidProfile(s, s.profiles[k]))
    && (forall k :: k in s.measurements ==> s.measurements[k].id == k && ValidMeasurement(s, s.measurements[k]))
    && (forall k :: k in s.findings ==> s.findings[k].id == k && ValidFinding(s, s.findings[k]))
    && (forall k :: k in s.tasks ==> s.tasks[k].id == k && ValidTask(s, s.tasks[k]))
    && (forall k :: k in s.credentials ==> s.credentials[k].id == k && ValidCredential(s, s.credentials[k]))
    && (forall i :: 0 <= i < |s.reviews| ==> ValidReview(s, s.reviews[i]))
  }

  // ---------- what acceptance promises across records ----------

  ghost predicate HasSensor(s: State, x: Id, b: Id) {
    x in s.sensors && s.sensors[x].batchID == b
  }

  ghost predicate HasFinding(s: State, f: Id, b: Id) {
    f in s.findings && s.findings[f].batchID == b
  }

  /** Every identifier a record names belongs to a record of the same batch. */
  ghost predicate Closed(s: State) {
    && (forall b, x :: b in s.batches && x in s.batches[b].sensorIDs ==> HasSensor(s, x, b))
    && (forall b :: b in s.batches && s.batches[b].profileID != "" ==>
        ProfileOf(s, b).Some? && ProfileOf(s, b).value.batchID == b)
    && (forall x :: x in s.sensors ==> s.sensors[x].batchID in s.batches)
    && (forall m :: m in s.measurements ==> HasSensor(s, s.measurements[m].sensorID, s.measurements[m].batchID))
    && (forall f :: f in s.findings ==> HasSensor(s, s.findings[f].sensorID, s.findings[f].batchID))
    && (forall f :: f in s.findings && s.findings[f].status == Resolved ==>
          HasSensor(s, s.findings[f].resolvedBy, s.findings[f].batchID))
    && (forall k, f :: k in s.tasks && f in s.tasks[k].findingIDs ==> HasFinding(s, f, s.tasks[k].batchID))
    && (forall c, x :: c in s.credentials && x in s.credentials[c].sensorIDs ==>
        HasSensor(s, x, s.credentials[c].batchID))
    && (forall i :: 0 <= i < |s.reviews| ==> s.reviews[i].batchID in s.batches)
  }

  lemma BatchMeans(s: State, b: Id)
    requires ValidSnapshot(s) && b in s.batches
    ensures (forall x :: x in s.batches[b].sensorIDs ==> HasSensor(s, x, b))
    ensures s.batches[b].profileID != "" ==> ProfileOf(s, b).Some? && ProfileOf(s, b).value.batchID == b
    ensures Sealed(s.batches[b].status) ==>
      s.batches[b].reviewedBy != "" && s.batches[b].reviewedBy !in s.batches[b].sampledBy
    ensures s.batches[b].status == Released ==> HasCredential(s, b)
  {
    hide Contiguous, Distinct, HasCredential, ValidSensor, ValidProfile, ValidMeasurement, ValidFinding, ValidTask,
         ValidCredential, ValidReview;
    assert ValidBatch(s, s.batches[b]);
  }

  lemma MeasurementMeans(s: State, m: Id)
    requires ValidSnapshot(s) && m in s.measurements
    ensures HasSensor(s, s.measurements[m].sensorID, s.measurements[m].batchID)
    ensures PlanPoint(s, s.measurements[m].batchID, s.measurements[m].point)
    ensures InItsRange(s, s.measurements[m])
  {
    hide ValidBatch, ValidSensor, ValidProfile, ValidFinding, ValidTask, ValidCredential, ValidReview;
    assert ValidMeasurement(s, s.measurements[m]);
  }

  ghost predicate InItsRange(s: State, m: Measurement) {
    && m.sensorID in s.sensors
    && forall i :: 0 <= i < |m.readings| ==>
         s.sensors[m.sensorID].rangeMin <= m.readings[i] <= s.sensors[m.sensorID].rangeMax
  }

  lemma FindingMeans(s: State, f: Id)
    requires ValidSnapshot(s) && f in s.findings
    ensures HasSensor(s, s.findings[f].sensorID, s.findings[f].batchID)
    ensures s.findings[f].status == Resolved ==> HasSensor(s, s.findings[f].resolvedBy, s.findings[f].batchID)
  {
    hide ValidBatch, ValidSensor, ValidProfile, ValidMeasurement, ValidTask, ValidCredential, ValidReview;
    assert ValidFinding(s, s.findings[f]);
  }

  lemma OthersMean(s: State)
    requires ValidSnapshot(s)
    ensures forall x :: x in s.sensors ==> s.sensors[x].batchID in s.batches
    ensures forall k, f :: k in s.tasks && f in s.tasks[k].findingIDs ==> HasFinding(s, f, s.tasks[k].batchID)
    ensures forall c, x :: c in s.credentials && x in s.credentials[c].sensorIDs ==>
        HasSensor(s, x, s.credentials[c].batchID)
    ensures forall i :: 0 <= i < |s.reviews| ==> s.reviews[i].batchID in s.batches
  {
    hide ValidBatch, ValidProfile, ValidMeasurement, ValidFinding, Distinct, PlanPoint;
    forall k | k in s.tasks
      ensures forall f :: f in s.tasks[k].findingIDs ==> HasFinding(s, f, s.tasks[k].batchID)
    {
      assert ValidTask(s, s.tasks[k]);
    }
    forall c | c in s.credentials
      ensures forall x :: x in s.credentials[c].sensorIDs ==> HasSensor(s, x, s.credentials[c].batchID)
    {
      assert ValidCredential(s, s.credentials[c]);
    }
  }

  /** In an accepted projection no reference dangles or crosses batches, every measurement is at a
      planned point with readings in the range of its sensor, nobody reviewed their own samples, and a
      released batch has a credential. */
  lemma AcceptedMeans(s: State)
    requires ValidSnapshot(s)
    ensures Closed(s)
    ensures forall m :: m in s.measurements ==>
      InItsRange(s, s.measurements[m]) && PlanPoint(s, s.measurements[m].batchID, s.measurements[m].point)
    ensures forall b :: b in s.batches && Sealed(s.batches[b].status) ==>
      s.batches[b].reviewedBy != "" && s.batches[b].reviewedBy !in s.batches[b].sampledBy
    ensures forall b :: b in s.batches && s.batches[b].status == Released ==> HasCredential(s, b)
  {
    hide ValidSnapshot, HasSensor, HasFinding, HasCredential, InItsRange, PlanPoint, ProfileOf;
    OthersMean(s);
    forall b | b in s.batches
      ensures forall x :: x in s.batches[b].sensorIDs ==> HasSensor(s, x, b)
      ensures s.batches[b].profileID != "" ==> ProfileOf(s, b).Some? && ProfileOf(s, b).value.batchID == b
      ensures Sealed(s.batches[b].status) ==>
        s.batches[b].reviewedBy != "" && s.batches[b].reviewedBy !in s.batches[b].sampledBy
      ensures s.batches[b].status == Released ==> HasCredential(s, b)
    {
      BatchMeans(s, b);
    }
    forall m | m in s.measurements
      ensures HasSensor(s, s.measurements[m].sensorID, s.measurements[m].batchID)
      ensures InItsRange(s, s.measurements[m]) && PlanPoint(s, s.measurements[m].batchID, s.measurements[m].point)
    {
      MeasurementMeans(s, m);
    }
    forall f | f in s.findings
      ensures HasSensor(s, s.findings[f].sensorID, s.findings[f].batchID)
      ensures s.findings[f].status == Resolved ==> HasSensor(s, s.findings[f].resolvedBy, s.findings[f].batchID)
    {
      FindingMeans(s, f);
    }
  }

  // ---------- every reachable state is accepted ----------

  /** Digests are never empty texts. */
  ghost predicate Hex<M(!new)>(h: M -> string) {
    forall m: M :: h(m) != ""
  }

  lemma BatchAccepted(h: Material -> string, s: State, b: Id)
    requires Inv(h, s) && b in s.batches
    ensures s.batches[b].id == b && ValidBatch(s, s.batches[b])
  {
    hide History, TaskIndex, StatusOk, CredentialsOk;
    assert BatchOk(s, s.batches[b]);
    forall x | x in s.sensors && s.sensors[x].batchID == b
      ensures s.sensors[x].revision >= 1
      ensures (s.sensors[x].revision > 1 ==> HasRevision(s, b, s.sensors[x].code, s.sensors[x].revision - 1))
    {
      assert SensorOk(s, s.sensors[x]);
    }
  }

  lemma SensorAccepted(h: Material -> string, s: State, x: Id)
    requires Inv(h, s) && x in s.sensors
    ensures s.sensors[x].id == x && ValidSensor(s, s.sensors[x])
  {
    hide History, TaskIndex, StatusOk, CredentialsOk, CredentialsUnique;
    assert SensorOk(s, s.sensors[x]);
  }

  lemma ProfileAccepted(h: Material -> string, s: State, k: Id)
    requires Inv(h, s) && k in s.profiles
    ensures s.profiles[k].id == k && ValidProfile(s, s.profiles[k])
  {
    hide History, TaskIndex, StatusOk, CredentialsOk, CredentialsUnique;
    assert ProfileOk(s, s.profiles[k]);
  }

  lemma MeasurementAccepted(h: Material -> string, s: State, m: Id)
    requires Inv(h, s) && m in s.measurements
    ensures s.measurements[m].id == m && ValidMeasurement(s, s.measurements[m])
  {
    hide TaskIndex, StatusOk, CredentialsOk, CredentialsUnique;
    hide RevisionsUnique, RevisionsChained, BatchesOk, SensorListsOk, FreezesOk, FailuresFound, FindingsFounded,
         OpenUntilPassed;
    assert MeasurementOk(s, s.measurements[m]);
    assert SensorOk(s, s.sensors[s.measurements[m].sensorID]);
  }

  lemma FindingAccepted(h: Material -> string, s: State, f: Id)
    requires Inv(h, s) && f in s.findings
    ensures s.findings[f].id == f && ValidFinding(s, s.findings[f])
  {
    hide TaskIndex, StatusOk, CredentialsOk, CredentialsUnique;
    hide RevisionsUnique, RevisionsChained, BatchesOk, SensorListsOk, FreezesOk, FailuresFound, FindingsFounded,
         OpenUntilPassed;
    assert FindingOk(s, s.findings[f]);
    assert SensorOk(s, s.sensors[s.findings[f].sensorID]);
    if s.findings[f].status == Resolved {
      var m :| ClosedBy(s, m, s.findings[f]);
    }
  }

  lemma TaskListAccepted(s: State, task: Task)
    requires FindingsOk(s) && TaskOk(s, task) && forall f :: f in task.findingIDs ==> ListsFinding(s, task, f)
    ensures forall f :: f in task.findingIDs ==> f in s.findings && s.findings[f].batchID == task.batchID
  {
    forall f | f in task.findingIDs
      ensures f in s.findings && s.findings[f].batchID == task.batchID
    {
      assert ListsFinding(s, task, f) && FindingOk(s, s.findings[f]);
    }
  }

  lemma TaskPlaceAccepted(s: State, task: Task)
    requires SensorsOk(s) && TaskOk(s, task)
    requires if task.required then RequiredStatusOk(s, task) else InheritedTaskOk(s, task)
    requires forall f :: f in task.findingIDs ==> f in s.findings && s.findings[f].batchID == task.batchID
    ensures ValidTask(s, task)
  {
    assert SensorOk(s, s.sensors[task.sensorID]);
  }

  lemma TaskClaims(h: Material -> string, s: State, t: Id)
    requires Inv(h, s) && t in s.tasks
    ensures s.tasks[t].id == t && SensorsOk(s) && FindingsOk(s) && TaskOk(s, s.tasks[t])
    ensures if s.tasks[t].required then RequiredStatusOk(s, s.tasks[t]) else InheritedTaskOk(s, s.tasks[t])
    ensures forall f :: f in s.tasks[t].findingIDs ==> ListsFinding(s, s.tasks[t], f)
  {
    hide StatusOk, CredentialsOk, CredentialsUnique, TaskOk, RequiredStatusOk, InheritedTaskOk, ListsFinding,
         SensorsOk, FindingsOk;
    hide RevisionsUnique, RevisionsChained, BatchesOk, SensorListsOk, FreezesOk, FailuresFound, FindingsFounded,
         OpenUntilPassed, ResolvedOk;
    hide TasksCoverOpen, TasksAwaitOpen, TasksUnique, TasksComplete, PreviousMeasured, EverMeasured, SamplersOk,
         MeasurementsOk;
  }

  lemma TaskAccepted(h: Material -> string, s: State, t: Id)
    requires Inv(h, s) && t in s.tasks
    ensures s.tasks[t].id == t && ValidTask(s, s.tasks[t])
  {
    hide Inv, TaskOk, RequiredStatusOk, InheritedTaskOk, ListsFinding, SensorsOk, FindingsOk, ValidTask;
    TaskClaims(h, s, t);
    TaskListAccepted(s, s.tasks[t]);
    TaskPlaceAccepted(s, s.tasks[t]);
  }

  lemma CredentialAccepted(h: Material -> string, s: State, c: Id)
    requires Inv(h, s) && c in s.credentials && Hex(h)
    ensures s.credentials[c].id == c && ValidCredential(s, s.credentials[c])
  {
    hide History, TaskIndex, StatusOk, CredentialsUnique, MaterialOf, RevisionsUnique, RevisionsChained, BatchesOk,
         SensorListsOk, FreezesOk;
    var cc := s.credentials[c];
    assert CredentialOk(h, s, cc);
    AscendingDistinct(cc.sensorIDs);
    forall x | x in cc.sensorIDs
      ensures x in s.sensors && s.sensors[x].batchID == cc.batchID
    {
      assert x in Elements(cc.sensorIDs);
    }
  }

  lemma ReviewsAccepted(h: Material -> string, s: State)
    requires Inv(h, s)
    ensures forall i :: 0 <= i < |s.reviews| ==> ValidReview(s, s.reviews[i])
  {
    hide History, TaskIndex, StatusOk, CredentialsOk, CredentialsUnique, RevisionsUnique, RevisionsChained,
         SensorListsOk, FreezesOk;
    forall i | 0 <= i < |s.reviews|
      ensures ValidReview(s, s.reviews[i])
    {
      assert BatchOk(s, s.batches[s.reviews[i].batchID]);
    }
  }

  /** The check after every command never rejects. */
  lemma InvValid(h: Material -> string, s: State)
    requires Inv(h, s) && Hex(h)
    ensures ValidSnapshot(s)
  {
    hide Inv, Hex, ValidBatch, ValidSensor, ValidProfile, ValidMeasurement, ValidFinding, ValidTask, ValidCredential,
         ValidReview;
    forall k | k in s.batches ensures s.batches[k].id == k && ValidBatch(s, s.batches[k]) { BatchAccepted(h, s, k); }
    forall k | k in s.sensors ensures s.sensors[k].id == k && ValidSensor(s, s.sensors[k]) { SensorAccepted(h, s, k); }
    forall k | k in s.profiles ensures s.profiles[k].id == k &&
        ValidProfile(s, s.profiles[k]) { ProfileAccepted(h, s, k); }
    forall k | k in s.measurements ensures s.measurements[k].id == k &&
        ValidMeasurement(s, s.measurements[k]) { MeasurementAccepted(h, s, k); }
    forall k | k in s.findings ensures s.findings[k].id == k &&
        ValidFinding(s, s.findings[k]) { FindingAccepted(h, s, k); }
    forall k | k in s.tasks ensures s.tasks[k].id == k && ValidTask(s, s.tasks[k]) { TaskAccepted(h, s, k); }
    forall k | k in s.credentials ensures s.credentials[k].id == k &&
        ValidCredential(s, s.credentials[k]) { CredentialAccepted(h, s, k); }
    ReviewsAccepted(h, s);
  }

  lemma ReachableValid(h: Material -> string, s: State)
    requires Reachable(h, s) && Hex(h)
    ensures ValidSnapshot(s)
  {
    hide Reachable, Inv, ValidSnapshot;
    ReachableInv(h, s);
    InvValid(h, s);
  }

  // ---------- the validation alone is not kept ----------

  /** A draft that already has a plan: accepted by the validation, reached by no run. */
  function PlannedDraft(): State {
    State(map["b" := Batch("b", "n", "n", Draft, ["x"], "p", 1, "n", 1, None, [], "")],
          map["x" := Sensor("x", "b", "n", 1, "n", "n", 0.0, 1.0, "", 1)],
          map["p" := Profile("p", "b", [0.0, 1.0], 2, 0.0, 0.0, 0.0, Some(1))], map[], map[], map[], map[], [])
  }

  function PlanAgain(): Call {
    Call("n", LockProfile("b", "q", [0.0, 1.0], 2, 0.0, 0.0, 0.0), 1)
  }

  lemma PlannedDraftValid()
    ensures ValidSnapshot(PlannedDraft())
  {
    var s := PlannedDraft();
    assert ValidBatch(s, s.batches["b"]);
    assert ValidProfile(s, s.profiles["p"]);
  }

  lemma PlanAgainAccepted(h: Material -> string)
    ensures Fresh(PlannedDraft(), PlanAgain())
    ensures var c := PlanAgain(); var o := Execute(h, PlannedDraft(), c.actor, c.cmd, c.now);
      o.error == None && !ValidSnapshot(o.state)
  {
    var s, c := PlannedDraft(), PlanAgain();
    assert SortPoints([1.0]) == [1.0] && SortPoints([0.0, 1.0]) == [0.0, 1.0];
    var t := Execute(h, s, c.actor, c.cmd, c.now).state;
    assert "p" in t.profiles && !ValidProfile(t, t.profiles["p"]);
  }

  /** The validation alone is not kept by the commands, and the invariant is stronger: it rules this state out. */
  lemma ValidationNotKept(h: Material -> string) returns (s: State, c: Call)
    ensures ValidSnapshot(s) && Fresh(s, c) && Execute(h, s, c.actor, c.cmd, c.now).error == None
    ensures !ValidSnapshot(Execute(h, s, c.actor, c.cmd, c.now).state)
    ensures !Inv(h, s)
  {
    hide ValidSnapshot, Fresh, Execute, History, TaskIndex, StatusOk, CredentialsOk, CredentialsUnique;
    s, c := PlannedDraft(), PlanAgain();
    PlannedDraftValid();
    PlanAgainAccepted(h);
    assert !BatchOk(s, s.batches["b"]);
  }

  // ---------- revision numbers ----------

  ghost predicate RisingInts(xs: seq<int>) {
    forall i, j :: 0 <= i < j < |xs| ==> xs[i] <= xs[j]
  }

  function InsertInt(x: int, xs: seq<int>): seq<int> {
    if xs == [] then [x] else if x <= xs[0] then [x] + xs else [xs[0]] + InsertInt(x, xs[1..])
  }

  /** The library sort of the revision numbers. */
  function SortInts(xs: seq<int>): seq<int> {
    if xs == [] then [] else InsertInt(xs[0], SortInts(xs[1..]))
  }

  lemma {:induction false} InsertIntKeeps(x: int, xs: seq<int>)
    ensures multiset(InsertInt(x, xs)) == multiset(xs) + multiset{x}
  {
    if xs != [] && x > xs[0] {
      assert xs == [xs[0]] + xs[1..];
      InsertIntKeeps(x, xs[1..]);
    }
  }

  lemma {:induction false} InsertIntRises(x: int, xs: seq<int>)
    requires RisingInts(xs)
    ensures RisingInts(InsertInt(x, xs)) && |InsertInt(x, xs)| > 0
    ensures InsertInt(x, xs)[0] == if xs == [] || x <= xs[0] then x else xs[0]
  {
    if xs != [] && x > xs[0] {
      InsertIntRises(x, xs[1..]);
    }
  }

  lemma {:induction false} SortIntsSorts(xs: seq<int>)
    ensures RisingInts(SortInts(xs)) && multiset(SortInts(xs)) == multiset(xs)
  {
    if xs != [] {
      assert xs == [xs[0]] + xs[1..];
      SortIntsSorts(xs[1..]);
      InsertIntRises(xs[0], SortInts(xs[1..]));
      InsertIntKeeps(xs[0], SortInts(xs[1..]));
    }
  }

  ghost predicate Numbered(xs: seq<int>) {
    forall i :: 0 <= i < |xs| ==> xs[i] == i + 1
  }

  /** Numbers that start at 1, leave no gap and repeat nothing. */
  ghost predicate Gapless(xs: seq<int>) {
    Distinct(xs) && forall v :: v in xs ==> v >= 1 && (v > 1 ==> v - 1 in xs)
  }

  lemma SameMembers(xs: seq<int>, ys: seq<int>)
    requires multiset(xs) == multiset(ys)
    ensures forall v :: v in xs <==> v in ys
  {
    forall v
      ensures v in xs <==> v in ys
    {
      assert v in xs <==> v in multiset(xs);
      assert v in ys <==> v in multiset(ys);
    }
  }

  lemma {:induction false} DistinctCounts(xs: seq<int>)
    ensures Distinct(xs) <==> forall v :: multiset(xs)[v] <= 1
  {
    if xs != [] {
      var rest := xs[1..];
      DistinctCounts(rest);
      assert xs == [xs[0]] + rest;
      assert xs[0] in rest <==> multiset(rest)[xs[0]] >= 1;
      if Distinct(xs) {
        assert forall i, j :: 0 <= i < j < |rest| ==> rest[i] == xs[i + 1] && rest[j] == xs[j + 1];
      }
      if forall v :: multiset(xs)[v] <= 1 {
        forall v
          ensures multiset(rest)[v] <= 1
        {
          assert multiset(xs)[v] >= multiset(rest)[v];
        }
        assert multiset(xs)[xs[0]] == multiset(rest)[xs[0]] + 1;
      }
    }
  }

  lemma {:induction false} GaplessRising(xs: seq<int>, n: nat)
    requires RisingInts(xs) && Gapless(xs) && n <= |xs|
    ensures forall i :: 0 <= i < n ==> xs[i] == i + 1
  {
    if n > 0 {
      GaplessRising(xs, n - 1);
      var v := xs[n - 1];
      assert v in xs;
      if v > 1 {
        assert v - 1 in xs;
        var k :| 0 <= k < |xs| && xs[k] == v - 1;
        assert k < n - 1;
      }
      if n > 1 {
        assert xs[n - 2] != xs[n - 1];
      }
    }
  }

  lemma NumberedGapless(xs: seq<int>)
    requires Numbered(xs)
    ensures Gapless(xs)
  {
    forall v | v in xs
      ensures v >= 1 && (v > 1 ==> v - 1 in xs)
    {
      if v > 1 {
        assert xs[v - 2] == v - 1;
      }
    }
  }

  /** Sorting and comparing with 1, 2, 3 and so on decides whether the numbers are gapless. */
  lemma SortedNumbered(xs: seq<int>)
    ensures Numbered(SortInts(xs)) <==> Gapless(xs)
  {
    var sorted := SortInts(xs);
    SortIntsSorts(xs);
    SameMembers(sorted, xs);
    DistinctCounts(sorted);
    DistinctCounts(xs);
    if Gapless(xs) {
      GaplessRising(sorted, |sorted|);
    }
    if Numbered(sorted) {
      NumberedGapless(sorted);
    }
  }

  method IsNumbered(xs: seq<int>) returns (r: bool)
    ensures r <==> Gapless(xs)
  {
    var sorted := SortInts(xs);
    SortedNumbered(xs);
    for i := 0 to |sorted|
      invariant forall j :: 0 <= j < i ==> sorted[j] == j + 1
    {
      if sorted[i] != i + 1 {
        return false;
      }
    }
    r := true;
  }

  /** The revisions of one code, as collected: every one of `done` once. */
  ghost predicate Collected(s: State, b: Id, code: string, done: set<Id>, ids: seq<Id>, numbers: seq<int>) {
    && Distinct(ids) && |numbers| == |ids|
    && (forall x :: x in ids <==> x in done && x in s.sensors && s.sensors[x].batchID == b && s.sensors[x].code == code)
    && (forall i :: 0 <= i < |ids| ==> ids[i] in s.sensors && numbers[i] == s.sensors[ids[i]].revision)
  }

  ghost predicate ContiguousCode(s: State, b: Id, code: string) {
    && (forall x :: x in s.sensors && s.sensors[x].batchID == b && s.sensors[x].code == code ==>
          s.sensors[x].revision >= 1 && (s.sensors[x].revision > 1 ==>
              HasRevision(s, b, code, s.sensors[x].revision - 1)))
    && (forall x, y | x in s.sensors && y in s.sensors && s.sensors[x].batchID == b && s.sensors[x].code == code &&
        SameLine(s.sensors[x], s.sensors[y])
          && s.sensors[x].revision == s.sensors[y].revision :: x == y)
  }

  lemma CollectedGapless(s: State, b: Id, code: string, ids: seq<Id>, numbers: seq<int>)
    requires Collected(s, b, code, s.sensors.Keys, ids, numbers)
    ensures Gapless(numbers) <==> ContiguousCode(s, b, code)
  {
    forall n
      ensures n in numbers <==> HasRevision(s, b, code, n)
    {
      if HasRevision(s, b, code, n) {
        var x :| x in s.sensors && s.sensors[x].batchID == b && s.sensors[x].code == code && s.sensors[x].revision == n;
        var i :| 0 <= i < |ids| && ids[i] == x;
        assert numbers[i] == n;
      }
      if n in numbers {
        var i :| 0 <= i < |numbers| && numbers[i] == n;
        assert ids[i] in ids;
      }
    }
    CollectedDistinct(s, b, code, ids, numbers);
    if Gapless(numbers) {
      forall x | x in s.sensors && s.sensors[x].batchID == b && s.sensors[x].code == code
        ensures s.sensors[x].revision >= 1
        ensures (s.sensors[x].revision > 1 ==> HasRevision(s, b, code, s.sensors[x].revision - 1))
      {
        assert HasRevision(s, b, code, s.sensors[x].revision);
      }
    }
    if ContiguousCode(s, b, code) {
      forall v | v in numbers
        ensures v >= 1 && (v > 1 ==> v - 1 in numbers)
      {
        assert HasRevision(s, b, code, v);
      }
    }
  }

  lemma CollectedDistinct(s: State, b: Id, code: string, ids: seq<Id>, numbers: seq<int>)
    requires Collected(s, b, code, s.sensors.Keys, ids, numbers)
    ensures Distinct(numbers) <==>
        forall x, y | x in s.sensors && y in s.sensors && s.sensors[x].batchID == b && s.sensors[x].code == code
              && SameLine(s.sensors[x], s.sensors[y]) && s.sensors[x].revision == s.sensors[y].revision :: x == y
  {
    if Distinct(numbers) {
      forall x, y | x in s.sensors && y in s.sensors && s.sensors[x].batchID == b && s.sensors[x].code == code
          && SameLine(s.sensors[x], s.sensors[y]) && s.sensors[x].revision == s.sensors[y].revision
        ensures x == y
      {
        var i :| 0 <= i < |ids| && ids[i] == x;
        var j :| 0 <= j < |ids| && ids[j] == y;
        assert numbers[i] == numbers[j];
      }
    } else {
      var i, j :| 0 <= i < j < |numbers| && numbers[i] == numbers[j];
      assert ids[i] in ids && ids[j] in ids && ids[i] != ids[j];
    }
  }

  method CollectRevisions(s: Snapshot, b: Id, code: string) returns (ghost ids: seq<Id>, numbers: seq<int>)
    ensures Collected(s.View(), b, code, s.sensors.Keys, ids, numbers)
  {
    ids, numbers := [], [];
    var todo := s.sensors.Keys;
    while todo != {}
      invariant todo <= s.sensors.Keys && Collected(s.View(), b, code, s.sensors.Keys - todo, ids, numbers)
      decreases todo
    {
      var x :| x in todo;
      todo := todo - {x};
      if s.sensors[x].batchID == b && s.sensors[x].code == code {
        ids, numbers := ids + [x], numbers + [s.sensors[x].revision];
      }
    }
  }

  method ValidateRevisionSequence(s: Snapshot, b: Id) returns (ok: bool)
    ensures ok <==> Contiguous(s.View(), b)
  {
    hide ContiguousCode, HasRevision;
    var todo := s.sensors.Keys;
    while todo != {}
      invariant todo <= s.sensors.Keys
      invariant forall x :: x in s.sensors && x !in todo && s.sensors[x].batchID == b ==>
          ContiguousCode(s.View(), b, s.sensors[x].code)
      decreases todo
    {
      var x :| x in todo;
      todo := todo - {x};
      if s.sensors[x].batchID == b {
        ghost var ids;
        var numbers;
        ids, numbers := CollectRevisions(s, b, s.sensors[x].code);
        CollectedGapless(s.View(), b, s.sensors[x].code, ids, numbers);
        ok := IsNumbered(numbers);
        if !ok {
          ContiguousEveryCode(s.View(), b);
          return;
        }
      }
    }
    ContiguousEveryCode(s.View(), b);
    ok := true;
  }

  lemma ContiguousEveryCode(s: State, b: Id)
    ensures Contiguous(s, b) <==> forall x :: x in s.sensors && s.sensors[x].batchID == b ==>
        ContiguousCode(s, b, s.sensors[x].code)
  {
    hide HasRevision;
    forall x, y | (forall z :: z in s.sensors && s.sensors[z].batchID == b ==> ContiguousCode(s, b, s.sensors[z].code))
        && x in s.sensors && y in s.sensors && s.sensors[x].batchID == b && SameLine(s.sensors[x], s.sensors[y])
        && s.sensors[x].revision == s.sensors[y].revision
      ensures x == y
    {
      assert ContiguousCode(s, b, s.sensors[x].code);
    }
  }

  // ---------- validating a snapshot ----------

  method ValidateMembers(s: Snapshot, ids: seq<Id>, b: Id) returns (ok: bool)
    ensures ok <==> Distinct(ids) && BelongAll(s.View(), ids, b)
  {
    var seen: set<Id> := {};
    for i := 0 to |ids|
      invariant Distinct(ids[..i]) && seen == Elements(ids[..i])
      invariant forall j :: 0 <= j < i ==> ids[j] in s.sensors && s.sensors[ids[j]].batchID == b
    {
      if ids[i] in seen {
        assert ids[i] in ids[..i];
        return false;
      }
      if ids[i] !in s.sensors || s.sensors[ids[i]].batchID != b {
        return false;
      }
      assert ids[..i + 1] == ids[..i] + [ids[i]];
      seen := seen + {ids[i]};
    }
    assert ids[..|ids|] == ids;
    ok := true;
  }

  method ValidateBatch(s: Snapshot, bt: Batch) returns (ok: bool)
    ensures ok <==> ValidBatch(s.View(), bt)
  {
    hide Contiguous, HasCredential, BelongAll, Distinct;
    if bt.id == "" || bt.stationCode == "" || bt.title == "" || bt.createdBy == "" || bt.version < 1 ||
        bt.createdAt == 0 {
      return false;
    }
    ok := ValidateMembers(s, bt.sensorIDs, bt.id);
    if !ok {
      return;
    }
    if bt.profileID != "" && (bt.profileID !in s.profiles || s.profiles[bt.profileID].batchID != bt.id) {
      return false;
    }
    if bt.status != Draft && bt.profileID == "" {
      return false;
    }
    if bt.status == Status.Frozen || bt.status == Released {
      if bt.frozenAt.None? || bt.reviewedBy == "" || HasSampler(bt, bt.reviewedBy) {
        return false;
      }
    } else if bt.frozenAt.Some? {
      return false;
    }
    if bt.status == Released {
      var c := s.CredentialForBatch(bt.id);
      if c.None? {
        return false;
      }
    }
    ok := ValidateRevisionSequence(s, bt.id);
  }

  method ValidateProfile(s: Snapshot, p: Profile) returns (ok: bool)
    ensures ok <==> ValidProfile(s.View(), p)
  {
    if p.batchID !in s.batches || s.batches[p.batchID].profileID != p.id || p.lockedAt.None? || |p.points| < 2 ||
        p.repetitions < 2 {
      return false;
    }
    for i := 0 to |p.points|
      invariant forall j :: 0 < j < i ==> p.points[j - 1] < p.points[j]
    {
      if i > 0 && p.points[i] <= p.points[i - 1] {
        return false;
      }
    }
    ok := true;
  }

  method ValidateMeasurement(s: Snapshot, m: Measurement) returns (ok: bool)
    ensures ok <==> ValidMeasurement(s.View(), m)
  {
    if m.sensorID !in s.sensors || m.batchID !in s.batches || s.sensors[m.sensorID].batchID != m.batchID {
      return false;
    }
    var profile := s.ProfileFor(m.batchID);
    if profile.None? || m.point !in profile.value.points || |m.readings| != profile.value.repetitions ||
        m.capturedBy == "" || m.capturedAt == 0 {
      return false;
    }
    var outside := IsOutOfRange(s.sensors[m.sensorID], m.readings);
    ok := !outside;
  }

  method ValidateFinding(s: Snapshot, f: Finding) returns (ok: bool)
    ensures ok <==> ValidFinding(s.View(), f)
  {
    if f.sensorID !in s.sensors || f.batchID !in s.batches || s.sensors[f.sensorID].batchID != f.batchID
       || f.kind == "" || f.severity == "" || f.message == "" || (f.origin == Manual && f.createdBy == "")
    {
      return false;
    }
    if f.status == Resolved {
      if f.resolvedBy !in s.sensors {
        return false;
      }
      var x, y := s.sensors[f.sensorID], s.sensors[f.resolvedBy];
      if y.batchID != f.batchID || y.code != x.code || y.revision <= x.revision || f.reviewedAt.None? {
        return false;
      }
    }
    ok := true;
  }

  method ValidateTask(s: Snapshot, t: Task) returns (ok: bool)
    ensures ok <==> ValidTask(s.View(), t)
  {
    if t.sensorID !in s.sensors || s.sensors[t.sensorID].batchID != t.batchID || s.sensors[t.sensorID].revision < 2 ||
        t.batchID !in s.batches {
      return false;
    }
    var profile := s.ProfileFor(t.batchID);
    if profile.None? || t.point !in profile.value.points || t.updatedAt == 0 {
      return false;
    }
    if (t.required && t.status == Inherited) || (!t.required && t.status != Inherited) {
      return false;
    }
    for i := 0 to |t.findingIDs|
      invariant forall j :: 0 <= j < i ==>
          t.findingIDs[j] in s.findings && s.findings[t.findingIDs[j]].batchID == t.batchID
    {
      if t.findingIDs[i] !in s.findings || s.findings[t.findingIDs[i]].batchID != t.batchID {
        return false;
      }
    }
    ok := t.evidenceID == "" || t.evidenceID in s.measurements;
  }

  method ValidateCredential(s: Snapshot, c: Credential) returns (ok: bool)
    ensures ok <==> ValidCredential(s.View(), c)
  {
    if c.batchID !in s.batches || s.batches[c.batchID].status != Released || c.batchVersion < 1 ||
        c.decision != APPROVED_FOR_DEPLOYMENT
       || c.contentDigest == "" || c.issuedBy == "" || c.issuedAt == 0
    {
      return false;
    }
    ok := ValidateMembers(s, c.sensorIDs, c.batchID);
  }

  ghost predicate BatchesValid(s: State, done: set<Id>) {
    forall k :: k in done && k in s.batches ==> s.batches[k].id == k && ValidBatch(s, s.batches[k])
  }

  method ValidateBatches(s: Snapshot) returns (ok: bool)
    ensures ok <==> BatchesValid(s.View(), s.batches.Keys)
  {
    hide ValidBatch;
    var todo := s.batches.Keys;
    while todo != {}
      invariant todo <= s.batches.Keys && BatchesValid(s.View(), s.batches.Keys - todo)
      decreases todo
    {
      var k :| k in todo;
      todo := todo - {k};
      if s.batches[k].id != k {
        return false;
      }
      ok := ValidateBatch(s, s.batches[k]);
      if !ok {
        return;
      }
    }
    ok := true;
  }

  method ValidateSensors(s: Snapshot) returns (ok: bool)
    ensures ok <==> forall k :: k in s.sensors ==> s.sensors[k].id == k && ValidSensor(s.View(), s.sensors[k])
  {
    var todo := s.sensors.Keys;
    while todo != {}
      invariant todo <= s.sensors.Keys
      invariant forall k :: k in s.sensors && k !in todo ==> s.sensors[k].id == k && ValidSensor(s.View(), s.sensors[k])
      decreases todo
    {
      var k :| k in todo;
      todo := todo - {k};
      var x := s.sensors[k];
      if x.id != k || x.batchID !in s.batches || x.code == "" || x.metric == "" || x.unit == "" || x.revision < 1
         || x.rangeMin >= x.rangeMax || (x.revision > 1 && x.note == "")
      {
        assert !(s.sensors[k].id == k && ValidSensor(s.View(), s.sensors[k]));
        return false;
      }
    }
    ok := true;
  }

  method ValidateProfiles(s: Snapshot) returns (ok: bool)
    ensures ok <==> forall k :: k in s.profiles ==> s.profiles[k].id == k && ValidProfile(s.View(), s.profiles[k])
  {
    hide ValidProfile;
    var todo := s.profiles.Keys;
    while todo != {}
      invariant todo <= s.profiles.Keys
      invariant forall k :: k in s.profiles && k !in todo ==>
          s.profiles[k].id == k && ValidProfile(s.View(), s.profiles[k])
      decreases todo
    {
      var k :| k in todo;
      todo := todo - {k};
      ok := ValidateProfile(s, s.profiles[k]);
      if s.profiles[k].id != k || !ok {
        return false;
      }
    }
    ok := true;
  }

  method ValidateMeasurements(s: Snapshot) returns (ok: bool)
    ensures ok <==> forall k :: k in s.measurements ==>
        s.measurements[k].id == k && ValidMeasurement(s.View(), s.measurements[k])
  {
    hide ValidMeasurement;
    var todo := s.measurements.Keys;
    while todo != {}
      invariant todo <= s.measurements.Keys
      invariant forall k :: k in s.measurements && k !in todo ==>
          s.measurements[k].id == k && ValidMeasurement(s.View(), s.measurements[k])
      decreases todo
    {
      var k :| k in todo;
      todo := todo - {k};
      ok := ValidateMeasurement(s, s.measurements[k]);
      if s.measurements[k].id != k || !ok {
        return false;
      }
    }
    ok := true;
  }

  method ValidateFindings(s: Snapshot) returns (ok: bool)
    ensures ok <==> forall k :: k in s.findings ==> s.findings[k].id == k && ValidFinding(s.View(), s.findings[k])
  {
    hide ValidFinding;
    var todo := s.findings.Keys;
    while todo != {}
      invariant todo <= s.findings.Keys
      invariant forall k :: k in s.findings && k !in todo ==>
          s.findings[k].id == k && ValidFinding(s.View(), s.findings[k])
      decreases todo
    {
      var k :| k in todo;
      todo := todo - {k};
      ok := ValidateFinding(s, s.findings[k]);
      if s.findings[k].id != k || !ok {
        return false;
      }
    }
    ok := true;
  }

  method ValidateTasks(s: Snapshot) returns (ok: bool)
    ensures ok <==> forall k :: k in s.tasks ==> s.tasks[k].id == k && ValidTask(s.View(), s.tasks[k])
  {
    hide ValidTask;
    var todo := s.tasks.Keys;
    while todo != {}
      invariant todo <= s.tasks.Keys
      invariant forall k :: k in s.tasks && k !in todo ==> s.tasks[k].id == k && ValidTask(s.View(), s.tasks[k])
      decreases todo
    {
      var k :| k in todo;
      todo := todo - {k};
      ok := ValidateTask(s, s.tasks[k]);
      if s.tasks[k].id != k || !ok {
        return false;
      }
    }
    ok := true;
  }

  method ValidateCredentials(s: Snapshot) returns (ok: bool)
    ensures ok <==> forall k :: k in s.credentials ==>
        s.credentials[k].id == k && ValidCredential(s.View(), s.credentials[k])
  {
    hide ValidCredential;
    var todo := s.credentials.Keys;
    while todo != {}
      invariant todo <= s.credentials.Keys
      invariant forall k :: k in s.credentials && k !in todo ==>
          s.credentials[k].id == k && ValidCredential(s.View(), s.credentials[k])
      decreases todo
    {
      var k :| k in todo;
      todo := todo - {k};
      ok := ValidateCredential(s, s.credentials[k]);
      if s.credentials[k].id != k || !ok {
        return false;
      }
    }
    ok := true;
  }

  method ValidateReviews(s: Snapshot) returns (ok: bool)
    ensures ok <==> forall i :: 0 <= i < |s.reviews| ==> ValidReview(s.View(), s.reviews[i])
  {
    for i := 0 to |s.reviews|
      invariant forall j :: 0 <= j < i ==> ValidReview(s.View(), s.reviews[j])
    {
      var r := s.reviews[i];
      if r.batchID == "" || r.batchID !in s.batches || r.reviewer == "" {
        return false;
      }
    }
    ok := true;
  }

  method ValidateSnapshot(s: Snapshot) returns (ok: bool)
    ensures ok <==> ValidSnapshot(s.View())
  {
    hide ValidBatch, ValidSensor, ValidProfile, ValidMeasurement, ValidFinding, ValidTask, ValidCredential, ValidReview;
    ok := ValidateBatches(s);
    if !ok {
      return;
    }
    ok := ValidateSensors(s);
    if !ok {
      return;
    }
    ok := ValidateProfiles(s);
    if !ok {
      return;
    }
    ok := ValidateMeasurements(s);
    if !ok {
      return;
    }
    ok := ValidateFindings(s);
    if !ok {
      return;
    }
    ok := ValidateTasks(s);
    if !ok {
      return;
    }
    ok := ValidateCredentials(s);
    if !ok {
      return;
    }
    ok := ValidateReviews(s);
  }
}
