/** What the kind of a ledger event says about the projections before and after it. */
module Kinds {
  import opened Entities
  import Statistics
  import Text
  import opened Evidence
  import opened Frozen
  import opened Domain
  import opened Invariant
  import opened Submission
  import opened Reviewing
  import opened Runs
  import opened Release
  import opened Requests
  import Guarantees
  import Marks
  import Commands
  import opened StatusChange
  import opened Ledger
  import opened Storage
  import opened Durability
  import opened Recovery
  import opened Validation

  // ---------- how two projections differ ----------

  datatype Change = Created | Registered | Locked | Measured | Renewed | Accepted | GivenBack | SentAgain | Issued

  /** The batch goes from one status to another. */
  ghost predicate Turns(s: State, t: State, b: Id, from: Status, to: Status) {
    b in s.batches && b in t.batches && s.batches[b].status == from && t.batches[b].status == to
  }

  ghost predicate SensorAdded(s: State, t: State, b: Id, first: bool) {
    exists x :: x in t.sensors && x !in s.sensors && t.sensors[x].batchID == b &&
        (first <==> t.sensors[x].revision == 1)
  }

  ghost predicate NewMeasurement(s: State, t: State, b: Id, m: Id) {
    m in t.measurements && m !in s.measurements && t.measurements[m].batchID == b
  }

  ghost predicate CorrectionAdded(s: State, t: State, b: Id) {
    exists f :: f in t.findings && f !in s.findings && t.findings[f].batchID == b && t.findings[f].origin == Manual
      && t.findings[f].status == Open
  }

  /** What can be seen of a command in the projections alone. */
  ghost predicate Shows(s: State, t: State, b: Id, change: Change) {
    match change
    case Created => b !in s.batches && b in t.batches
    case Registered => SensorAdded(s, t, b, true)
    case Locked => Turns(s, t, b, Draft, PlanLocked)
    case Measured => exists m :: NewMeasurement(s, t, b, m)
    case Renewed => SensorAdded(s, t, b, false)
    case Accepted => Turns(s, t, b, ReadyReview, Status.Frozen)
    case GivenBack => b in t.batches && t.batches[b].status == Returned && CorrectionAdded(s, t, b)
    case SentAgain => Turns(s, t, b, Returned, ReadyReview)
    case Issued => Turns(s, t, b, Status.Frozen, Released)
  }

  function ChangeOf(cmd: Command): Change {
    match cmd
    case CreateBatch(_, _, _) => Created
    case RegisterSensor(_, _, _, _, _, _, _) => Registered
    case LockProfile(_, _, _, _, _, _, _) => Locked
    case Submit(_, _, _, _) => Measured
    case Recalibrate(_, _, _, _, _) => Renewed
    case Approve(_, _, _) => Accepted
    case SendBack(_, _, _) => GivenBack
    case Resubmit(_, _) => SentAgain
    case Issue(_, _) => Issued
  }

  /** The projections show the change of the command and no other. */
  ghost predicate ShowsOnly(s: State, t: State, c: Call) {
    forall change :: Shows(s, t, c.cmd.batchID, change) <==> change == ChangeOf(c.cmd)
  }

  lemma PreparationShows(h: Material -> string, s: State, c: Call)
    requires Fresh(s, c) && EnoughIds(s, c.cmd) && Execute(h, s, c.actor, c.cmd, c.now).error == None
    requires c.cmd.CreateBatch? || c.cmd.RegisterSensor? || c.cmd.LockProfile?
    ensures ShowsOnly(s, Execute(h, s, c.actor, c.cmd, c.now).state, c)
  {
    hide Text.Blank, CodeRegistered, IsCurrent, SortPoints, Repeats;
    var t := Execute(h, s, c.actor, c.cmd, c.now).state;
    if c.cmd.RegisterSensor? {
      assert c.cmd.id in t.sensors && c.cmd.id !in s.sensors;
    }
  }

  lemma RenewalShows(h: Material -> string, s: State, c: Call)
    requires SensorsOk(s) && Fresh(s, c) && EnoughIds(s, c.cmd) && c.cmd.Recalibrate?
    requires Execute(h, s, c.actor, c.cmd, c.now).error == None
    ensures ShowsOnly(s, Execute(h, s, c.actor, c.cmd, c.now).state, c)
  {
    hide Text.Blank, IsCurrent, CarriesOpen, NewTasks, Text.Distinct;
    var t := Execute(h, s, c.actor, c.cmd, c.now).state;
    assert SensorOk(s, s.sensors[c.cmd.sensorID]);
    assert c.cmd.id in t.sensors && c.cmd.id !in s.sensors && t.sensors[c.cmd.id].revision != 1;
  }

  lemma ReviewShows(h: Material -> string, s: State, c: Call)
    requires Fresh(s, c) && EnoughIds(s, c.cmd) && Execute(h, s, c.actor, c.cmd, c.now).error == None
    requires c.cmd.Approve? || c.cmd.Resubmit? || c.cmd.Issue?
    ensures ShowsOnly(s, Execute(h, s, c.actor, c.cmd, c.now).state, c)
  {
    hide NoOpen, PointComplete, IsCurrent, HasCredential, MaterialOf, Text.Canonical;
  }

  lemma ReturnShows(h: Material -> string, s: State, c: Call)
    requires Fresh(s, c) && c.cmd.SendBack? && Execute(h, s, c.actor, c.cmd, c.now).error == None
    ensures ShowsOnly(s, Execute(h, s, c.actor, c.cmd, c.now).state, c)
  {
    hide ManualFindings, CorrectionIds, FreshCorrections, PlanPoint, IsCurrent;
    var t := Execute(h, s, c.actor, c.cmd, c.now).state;
    var first := c.cmd.corrections[0];
    CorrectionsEntered(c.cmd.batchID, c.cmd.corrections, c.actor);
    assert CorrectionError(s, c.cmd.batchID, c.cmd.corrections, 0) == None;
    assert first.id in t.findings && first.id !in s.findings;
  }

  // ---------- submissions ----------

  /** An automatic finding of the revision, open. */
  ghost predicate Raised(f: Finding, x: Id) {
    f.origin == Automatic && f.sensorID == x && f.status == Open
  }

  lemma {:induction false} AddedRaised(s: State, p: Profile, b: Id, x: Id, actor: string, items: seq<Reading>,
                                       now: Time)
    requires b in s.batches && Supplied(items)
    ensures var t := ApplyReadings(s, p, b, x, actor, items, now);
      forall f :: f in t.findings && f !in s.findings ==> Raised(t.findings[f], x)
  {
    hide ApplyReading, Raised;
    if items != [] {
      var n := |items| - 1;
      AddedRaised(s, p, b, x, actor, items[..n], now);
      NextRaised(ApplyReadings(s, p, b, x, actor, items[..n], now), p, b, x, actor, items[n], now);
    }
  }

  lemma NextRaised(s: State, p: Profile, b: Id, x: Id, actor: string, item: Reading, now: Time)
    requires b in s.batches && |item.findingIDs| >= 3
    ensures var t := ApplyReading(s, p, b, x, actor, item, now);
      && (forall f :: f in s.findings ==> f in t.findings)
      && forall f :: f in t.findings && (f in s.findings ==> Raised(s.findings[f], x)) ==> Raised(t.findings[f], x)
  {
    hide Statistics.Compare, Statistics.StatsOf;
    NewRaised(b, x, DraftsOf(p, item), item.findingIDs);
  }

  lemma {:induction false} NewRaised(b: Id, x: Id, drafts: seq<Statistics.FindingDraft>, ids: seq<Id>)
    requires |drafts| <= |ids|
    ensures forall f :: f in NewFindings(b, x, drafts, ids) ==> Raised(NewFindings(b, x, drafts, ids)[f], x)
  {
    if drafts != [] {
      NewRaised(b, x, drafts[..|drafts| - 1], ids);
    }
  }

  /** What a submission leaves alone, and what it adds. */
  ghost predicate SubmissionAdds(s: State, t: State, c: Call)
    requires c.cmd.Submit?
  {
    var b := c.cmd.batchID;
    && t.sensors == s.sensors && b in s.batches && b in t.batches && c.cmd.items != []
    && s.batches[b].status in {PlanLocked, Sampling, Failed, Returned}
    && (if s.batches[b].status == Returned then t.batches[b].status == Returned
        else t.batches[b].status in {Sampling, Failed, ReadyReview})
    && NewMeasurement(s, t, b, c.cmd.items[0].id)
    && (forall m :: m in t.measurements && m !in s.measurements ==>
        exists i :: 0 <= i < |c.cmd.items| && m == c.cmd.items[i].id)
    && (forall f :: f in t.findings && f !in s.findings ==> Raised(t.findings[f], c.cmd.sensorID))
  }

  lemma SubmissionFacts(h: Material -> string, s: State, c: Call)
    requires Inv(h, s) && Fresh(s, c) && EnoughIds(s, c.cmd) && c.cmd.Submit?
    requires Execute(h, s, c.actor, c.cmd, c.now).error == None
    ensures SubmissionAdds(s, Execute(h, s, c.actor, c.cmd, c.now).state, c)
  {
    hide Inv, Fresh, SubmitError, ApplyReadings, Covered, NoOpen, Progress;
    var b, x, items := c.cmd.batchID, c.cmd.sensorID, c.cmd.items;
    SubmitAccepted(s, b, x, c.actor, items, c.now);
    SubmissionStores(h, s, c);
    PlanNeeded(s, b, x, c.actor, items);
    SubmittedFirst(s, b, x, c.actor, items);
    AddedRaised(s, ProfileOf(s, b).value, b, x, c.actor, items, c.now);
    StoredSets(s, Step(h, s, c), c);
  }

  lemma SubmittedFirst(s: State, b: Id, x: Id, actor: string, items: seq<Reading>)
    requires SubmitError(s, b, x, actor, items) == None
    ensures items != [] && b in s.batches && TakesReadings(s.batches[b].status) && items[0].id !in s.measurements
  {
    hide IsCurrent, PlanPoint, HasDirect, FirstItemError;
    FirstItemErrorAt(s, b, x, actor, items, |items|, 0);
  }

  lemma StoredSets(s: State, t: State, c: Call)
    requires c.cmd.Submit? && c.cmd.items != []
    requires Progress(s, t, c.cmd.batchID, c.cmd.sensorID, c.actor, c.cmd.items, c.now, |c.cmd.items|)
    ensures forall m :: m in t.measurements && m !in s.measurements ==>
      exists i :: 0 <= i < |c.cmd.items| && m == c.cmd.items[i].id
    ensures c.cmd.items[0].id in t.measurements && t.measurements[c.cmd.items[0].id].batchID == c.cmd.batchID
    ensures t.sensors == s.sensors
  {
    hide SameProblem, ProfileOf;
    assert t.measurements[c.cmd.items[0].id] == SetOf(c.cmd.batchID, c.cmd.sensorID, c.actor, c.cmd.items[0], c.now);
  }

  lemma SubmissionShows(s: State, t: State, c: Call)
    requires c.cmd.Submit? && SubmissionAdds(s, t, c)
    ensures ShowsOnly(s, t, c)
    ensures |c.cmd.items| == 1 ==> forall m, n ::
      NewMeasurement(s, t, c.cmd.batchID, m) && NewMeasurement(s, t, c.cmd.batchID, n) ==> m == n
  {
  }

  lemma CommandShows(h: Material -> string, s: State, c: Call)
    requires Inv(h, s) && Fresh(s, c) && EnoughIds(s, c.cmd) && Execute(h, s, c.actor, c.cmd, c.now).error == None
    ensures ShowsOnly(s, Execute(h, s, c.actor, c.cmd, c.now).state, c)
    ensures c.cmd.Submit? && !c.cmd.batched ==>
      SingleSet(s, Execute(h, s, c.actor, c.cmd, c.now).state, c.cmd.batchID)
  {
    hide Inv, Fresh, SubmitStep, RecalibrateStep, LockProfileStep, RegisterSensorStep, ReturnStep, ResubmitStep,
         IssueStep, ApproveReviewStep, CreateBatchStep, ShowsOnly, SubmissionAdds, SensorsOk;
    match c.cmd
    case CreateBatch(_, _, _) => PreparationShows(h, s, c);
    case RegisterSensor(_, _, _, _, _, _, _) => PreparationShows(h, s, c);
    case LockProfile(_, _, _, _, _, _, _) => PreparationShows(h, s, c);
    case Submit(_, _, _, _) =>
      SubmissionFacts(h, s, c);
      SubmissionShows(s, Execute(h, s, c.actor, c.cmd, c.now).state, c);
      OnePoint(s, c);
    case Recalibrate(_, _, _, _, _) =>
      SensorsFine(h, s);
      RenewalShows(h, s, c);
    case Approve(_, _, _) => ReviewShows(h, s, c);
    case SendBack(_, _, _) => ReturnShows(h, s, c);
    case Resubmit(_, _) => ReviewShows(h, s, c);
    case Issue(_, _) => ReviewShows(h, s, c);
  }

  ghost predicate SingleSet(s: State, t: State, b: Id) {
    forall m, n :: NewMeasurement(s, t, b, m) && NewMeasurement(s, t, b, n) ==> m == n
  }

  lemma OnePoint(s: State, c: Call)
    requires Fresh(s, c) && c.cmd.Submit?
    ensures !c.cmd.batched ==> |c.cmd.items| == 1
  {
    hide FreshItems;
  }

  lemma SensorsFine(h: Material -> string, s: State)
    requires Inv(h, s)
    ensures SensorsOk(s)
  {
    hide History, TaskIndex, StatusOk, CredentialsOk, CredentialsUnique, SensorsOk;
  }

  // ---------- the life of a batch ----------

  /** The pairs of statuses a batch may go through, written out. */
  predicate Follows(from: Status, to: Status) {
    (from, to) in {(Draft, PlanLocked), (PlanLocked, Sampling), (PlanLocked, Failed), (PlanLocked, ReadyReview),
                   (Sampling, Failed), (Sampling, ReadyReview), (Failed, Sampling), (Failed, Returned),
                   (ReadyReview, Returned), (ReadyReview, Status.Frozen), (Returned, ReadyReview),
                   (Status.Frozen, Released)}
  }

  /** The table of legal transitions allows these and, of staying as it is, what submissions and returns need. */
  lemma LegalExactly(from: Status, to: Status)
    ensures AllowedTransition(from, to) <==> Follows(from, to) || (from == to && from in {Sampling, Returned})
  {
  }

  lemma PreparationMoves(h: Material -> string, s: State, c: Call)
    requires EnoughIds(s, c.cmd) && Execute(h, s, c.actor, c.cmd, c.now).error == None && c.cmd.batchID in s.batches
    requires c.cmd.RegisterSensor? || c.cmd.LockProfile? || c.cmd.Recalibrate?
    ensures var t := Execute(h, s, c.actor, c.cmd, c.now).state;
      c.cmd.batchID in t.batches && Moves(s.batches[c.cmd.batchID].status, t.batches[c.cmd.batchID].status)
  {
    hide IsCurrent, CodeRegistered, SortPoints, Repeats, CarriesOpen, NewTasks, Text.Blank, Follows;
    LegalExactly(Draft, PlanLocked);
    LegalExactly(Failed, Sampling);
  }

  lemma ReviewMoves(h: Material -> string, s: State, c: Call)
    requires EnoughIds(s, c.cmd) && Execute(h, s, c.actor, c.cmd, c.now).error == None && c.cmd.batchID in s.batches
    requires c.cmd.Approve? || c.cmd.SendBack? || c.cmd.Resubmit? || c.cmd.Issue?
    ensures var t := Execute(h, s, c.actor, c.cmd, c.now).state;
      c.cmd.batchID in t.batches && Moves(s.batches[c.cmd.batchID].status, t.batches[c.cmd.batchID].status)
  {
    hide NoOpen, CorrectionsFail, ManualFindings, CorrectionIds, MaterialOf, IsCurrent, PointComplete, HasCredential,
         Text.Canonical, Follows, AllowedTransition;
    LegalExactly(ReadyReview, Status.Frozen);
    LegalExactly(ReadyReview, Returned);
    LegalExactly(Failed, Returned);
    LegalExactly(Returned, ReadyReview);
    LegalExactly(Status.Frozen, Released);
  }

  lemma SubmissionMoves(h: Material -> string, s: State, c: Call)
    requires Inv(h, s) && Fresh(s, c) && EnoughIds(s, c.cmd) && c.cmd.Submit? && c.cmd.batchID in s.batches
    requires Execute(h, s, c.actor, c.cmd, c.now).error == None
    ensures var t := Execute(h, s, c.actor, c.cmd, c.now).state;
      c.cmd.batchID in t.batches && Moves(s.batches[c.cmd.batchID].status, t.batches[c.cmd.batchID].status)
  {
    hide Core, CredentialsOk, CredentialsUnique, StatusOk, Fresh, SubmitStep, SubmitError, NewMeasurement, Follows,
         FreshItems;
    var b, x, items := c.cmd.batchID, c.cmd.sensorID, c.cmd.items;
    SubmissionFacts(h, s, c);
    SubmitAccepted(s, b, x, c.actor, items, c.now);
    if s.batches[b].status == Failed {
      FreshSubmission(s, c);
      Guarantees.FailedSubmission(h, s, b, x, c.actor, items, c.now);
    }
    PlannedMoves();
  }

  lemma PlannedMoves()
    ensures Follows(PlanLocked, Sampling) && Follows(PlanLocked, Failed) && Follows(PlanLocked, ReadyReview)
    ensures Follows(Sampling, Failed) && Follows(Sampling, ReadyReview) && Follows(Failed, Sampling)
  {
  }

  ghost predicate Moves(from: Status, to: Status) {
    from == to || Follows(from, to)
  }

  /** In every run the status of a batch changes along the legal transitions only. */
  lemma StatusFollowsTable(h: Material -> string, s: State, c: Call, b: Id)
    requires Reachable(h, s) && Fresh(s, c) && b in s.batches
    ensures b in Step(h, s, c).batches && Moves(s.batches[b].status, Step(h, s, c).batches[b].status)
  {
    hide Reachable, Inv, Fresh, Execute, EnoughIds, SameBatch, Moves;
    ReachableInv(h, s);
    StaysPut(s.batches[b].status);
    if c.cmd.batchID != b {
      StepFrame(h, s, c, b);
      SameStatus(s, Step(h, s, c), b);
    } else if EnoughIds(s, c.cmd) && Execute(h, s, c.actor, c.cmd, c.now).error == None {
      CommandMoves(h, s, c);
    }
  }

  lemma StaysPut(st: Status)
    ensures Moves(st, st)
  {
  }

  lemma SameStatus(s: State, t: State, b: Id)
    requires SameBatch(s, t, b) && b in s.batches
    ensures b in t.batches && t.batches[b].status == s.batches[b].status
  {
  }

  lemma CommandMoves(h: Material -> string, s: State, c: Call)
    requires Inv(h, s) && Fresh(s, c) && EnoughIds(s, c.cmd) && c.cmd.batchID in s.batches
    requires Execute(h, s, c.actor, c.cmd, c.now).error == None
    ensures var t := Execute(h, s, c.actor, c.cmd, c.now).state;
      c.cmd.batchID in t.batches && Moves(s.batches[c.cmd.batchID].status, t.batches[c.cmd.batchID].status)
  {
    hide Inv, Fresh, SubmitStep, RecalibrateStep, LockProfileStep, RegisterSensorStep, ReturnStep, ResubmitStep,
         IssueStep, ApproveReviewStep, Moves;
    match c.cmd
    case CreateBatch(_, _, _) =>
    case RegisterSensor(_, _, _, _, _, _, _) => PreparationMoves(h, s, c);
    case LockProfile(_, _, _, _, _, _, _) => PreparationMoves(h, s, c);
    case Submit(_, _, _, _) => SubmissionMoves(h, s, c);
    case Recalibrate(_, _, _, _, _) => PreparationMoves(h, s, c);
    case Approve(_, _, _) => ReviewMoves(h, s, c);
    case SendBack(_, _, _) => ReviewMoves(h, s, c);
    case Resubmit(_, _) => ReviewMoves(h, s, c);
    case Issue(_, _) => ReviewMoves(h, s, c);
  }

  // ---------- the kinds of a ledger ----------

  ghost predicate PlanKindTells(kind: string, s: State, t: State, b: Id) {
    && (kind == "batch.created" <==> b !in s.batches && b in t.batches)
    && (kind == "sensor.registered" <==> SensorAdded(s, t, b, true))
    && (kind == "profile.locked" <==> Turns(s, t, b, Draft, PlanLocked))
    && (kind == "measurement.submitted" || kind == "measurements.batch_submitted" <==>
          exists m :: NewMeasurement(s, t, b, m))
    && (kind == "measurement.submitted" ==> SingleSet(s, t, b))
    && (kind == "sensor.recalibrated" <==> SensorAdded(s, t, b, false))
  }

  ghost predicate ReviewKindTells(kind: string, s: State, t: State, b: Id) {
    && (kind == "review.approve" <==> Turns(s, t, b, ReadyReview, Status.Frozen))
    && (kind == "review.return" <==> b in t.batches && t.batches[b].status == Returned && CorrectionAdded(s, t, b))
    && (kind == "review.resubmitted" <==> Turns(s, t, b, Returned, ReadyReview))
    && (kind == "credential.issued" <==> Turns(s, t, b, Status.Frozen, Released))
  }

  /** What the kind of an event tells about the projection before it and its own: exactly one of the
      nine changes can be seen in them, and the kind is the name of that change. */
  ghost predicate KindTells(kind: string, s: State, t: State, b: Id) {
    PlanKindTells(kind, s, t, b) && ReviewKindTells(kind, s, t, b)
  }

  lemma PlanKindShows(kind: string, s: State, t: State, c: Call)
    requires kind == KindOf(c.cmd) && ShowsOnly(s, t, c)
    requires c.cmd.Submit? && !c.cmd.batched ==> SingleSet(s, t, c.cmd.batchID)
    ensures PlanKindTells(kind, s, t, c.cmd.batchID)
  {
    hide SensorAdded, Turns, NewMeasurement, CorrectionAdded, SingleSet, KindOf;
    var b := c.cmd.batchID;
    assert Shows(s, t, b, Created) <==> ChangeOf(c.cmd) == Created;
    assert Shows(s, t, b, Registered) <==> ChangeOf(c.cmd) == Registered;
    assert Shows(s, t, b, Locked) <==> ChangeOf(c.cmd) == Locked;
    assert Shows(s, t, b, Measured) <==> ChangeOf(c.cmd) == Measured;
    assert Shows(s, t, b, Renewed) <==> ChangeOf(c.cmd) == Renewed;
    KindsDiffer(kind, c.cmd);
  }

  lemma ReviewKindShows(kind: string, s: State, t: State, c: Call)
    requires kind == KindOf(c.cmd) && ShowsOnly(s, t, c)
    ensures ReviewKindTells(kind, s, t, c.cmd.batchID)
  {
    hide SensorAdded, Turns, NewMeasurement, CorrectionAdded, KindOf;
    var b := c.cmd.batchID;
    assert Shows(s, t, b, Accepted) <==> ChangeOf(c.cmd) == Accepted;
    assert Shows(s, t, b, GivenBack) <==> ChangeOf(c.cmd) == GivenBack;
    assert Shows(s, t, b, SentAgain) <==> ChangeOf(c.cmd) == SentAgain;
    assert Shows(s, t, b, Issued) <==> ChangeOf(c.cmd) == Issued;
    KindsDiffer(kind, c.cmd);
  }

  /** The names of the kinds, and that they are ten different texts. */
  lemma KindsDiffer(kind: string, cmd: Command)
    requires kind == KindOf(cmd)
    ensures (kind == "batch.created" <==> cmd.CreateBatch?) && (kind == "sensor.registered" <==> cmd.RegisterSensor?)
    ensures (kind == "profile.locked" <==> cmd.LockProfile?)
    ensures kind == "measurement.submitted" <==> cmd.Submit? && !cmd.batched
    ensures kind == "measurements.batch_submitted" <==> cmd.Submit? && cmd.batched
    ensures (kind == "sensor.recalibrated" <==> cmd.Recalibrate?) && (kind == "review.approve" <==> cmd.Approve?)
    ensures (kind == "review.return" <==> cmd.SendBack?) && (kind == "review.resubmitted" <==> cmd.Resubmit?)
    ensures kind == "credential.issued" <==> cmd.Issue?
  {
    var created, registered, locked := "batch.created", "sensor.registered", "profile.locked";
    var single, batched, renewed := "measurement.submitted", "measurements.batch_submitted", "sensor.recalibrated";
    var approve, back, resubmitted, issued := "review.approve", "review.return", "review.resubmitted",
        "credential.issued";
    assert |created| == 13 && |registered| == 17 && |locked| == 14 && |single| == 21 && |batched| == 28;
    assert |renewed| == 19 && |approve| == 14 && |back| == 13 && |resubmitted| == 18 && |issued| == 17;
    assert created[0] != back[0] && locked[0] != approve[0] && registered[0] != issued[0];
  }

  /** In every run, crashes included, every event of the ledger is named after the change its
      projection shows against the projection before it. */
  lemma KindsTellTheTruth(h: Material -> string, g: Entry -> string, y: System, i: nat)
    requires Attainable(h, g, y) && Hex(h) && i < |y.disk.ledger|
    ensures var e := y.disk.ledger[i];
      KindTells(e.kind, LastProjection(y.disk.ledger[..i]), e.projection, e.aggregateID)
  {
    hide Attainable, ChainOk, SavedOk, Hex, MemoryOf, Inv, KindTells, CausedBy;
    AttainableSound(h, g, y);
    var ledger := y.disk.ledger;
    assert EventOk(h, ledger, i);
    LoggedPrefix(h, ledger, i);
    LoggedInv(h, ledger[..i]);
    var before := LastProjection(ledger[..i]);
    var c :| CausedBy(h, before, ledger[i], c);
    CausedShows(h, before, ledger[i], c);
  }

  lemma CausedShows(h: Material -> string, before: State, e: Event, c: Call)
    requires Inv(h, before) && CausedBy(h, before, e, c)
    ensures KindTells(e.kind, before, e.projection, e.aggregateID)
  {
    hide Inv, Fresh, Execute, EnoughIds, PlanKindTells, ReviewKindTells, ShowsOnly, SingleSet, KindOf;
    CommandShows(h, before, c);
    PlanKindShows(e.kind, before, e.projection, c);
    ReviewKindShows(e.kind, before, e.projection, c);
  }

  // ---------- the replies ----------

  ghost function BlockedNow(t: State, b: Id, x: Id): set<real>
    requires x in t.sensors && ProfileOf(t, b).Some?
  {
    set p | p in ProfileOf(t, b).value.points && BlockedInBatch(t, t.sensors[x], p)
  }

  /** The revision the retests of a reply are counted for. */
  function RetestedBy(cmd: Command): Id {
    if cmd.Submit? then cmd.sensorID else if cmd.Recalibrate? then cmd.id else ""
  }

  /** The reply to an accepted command tells the new version and status of the batch, the findings it
      closed, in ascending order, for each submitted point its figures, and how many points of the
      revision still have an open finding of an earlier one. */
  lemma ReplyTells(h: Material -> string, s: State, c: Call)
    requires Reachable(h, s) && Fresh(s, c) && EnoughIds(s, c.cmd) && Execute(h, s, c.actor, c.cmd, c.now).error == None
    requires c.cmd.batchID in Execute(h, s, c.actor, c.cmd, c.now).state.batches
    ensures var t := Execute(h, s, c.actor, c.cmd, c.now).state;
      var r := Commands.ReplyTo(s, t, c.cmd);
      && r.batchID == c.cmd.batchID && r.version == VersionOf(s, c.cmd.batchID) + 1
      && r.status == t.batches[c.cmd.batchID].status
      && (c.cmd.Submit? ==> Text.Ascending(r.resolved))
      && (forall f :: f in r.resolved <==>
            c.cmd.Submit? && f in s.findings && f in t.findings && s.findings[f].status == Open &&
                t.findings[f].status == Resolved)
      && |r.results| == (if c.cmd.Submit? then |c.cmd.items| else 0)
      && (forall i :: 0 <= i < |r.results| ==>
            && r.results[i].id == c.cmd.items[i].id && r.results[i].point == c.cmd.items[i].point
            && r.results[i].stats == Statistics.StatsOf(c.cmd.items[i].point, c.cmd.items[i].readings))
      && (c.cmd.Submit? || c.cmd.Recalibrate? ==>
            && RetestedBy(c.cmd) in t.sensors && ProfileOf(t, c.cmd.batchID).Some?
            && r.pending == |BlockedNow(t, c.cmd.batchID, RetestedBy(c.cmd))|)
  {
    hide Reachable, Inv, Fresh, Execute, EnoughIds, OthersKept, Text.Canonical, BlockedInBatch, ProfileOf;
    ReachableInv(h, s);
    ExecuteKeeps(h, s, c);
    var t := Execute(h, s, c.actor, c.cmd, c.now).state;
    if c.cmd.Submit? {
      NoneBornResolved(h, s, c);
      ResolvedListed(s, t);
    }
    ReachNext(h, s, c);
    if c.cmd.Submit? || c.cmd.Recalibrate? {
      RetestedCurrent(h, s, c);
      PendingIsBlocked(h, t, c.cmd.batchID, RetestedBy(c.cmd));
    }
  }

  /** What a reply names: the new record, the revision measured, or the findings a return has entered. */
  ghost predicate NamesRecord(s: State, t: State, cmd: Command, id: Id) {
    match cmd
    case CreateBatch(_, _, _) => id in t.batches && id !in s.batches
    case RegisterSensor(_, _, _, _, _, _, _) => id in t.sensors && id !in s.sensors
    case LockProfile(b, _, _, _, _, _, _) => b in t.batches && id == t.batches[b].profileID
    case Submit(_, _, items, _) =>
      items != [] && items[0].id in t.measurements && t.measurements[items[0].id].sensorID == id
    case Recalibrate(_, _, _, _, _) => id in t.sensors && id !in s.sensors
    case Issue(_, _) => id in t.credentials && id !in s.credentials
    case _ => id == ""
  }

  lemma ReplyNames(h: Material -> string, s: State, c: Call)
    requires Reachable(h, s) && Fresh(s, c) && EnoughIds(s, c.cmd) && Execute(h, s, c.actor, c.cmd, c.now).error == None
    requires c.cmd.batchID in Execute(h, s, c.actor, c.cmd, c.now).state.batches
    ensures var t := Execute(h, s, c.actor, c.cmd, c.now).state;
      var r := Commands.ReplyTo(s, t, c.cmd);
      && NamesRecord(s, t, c.cmd, r.id)
      && (forall f :: f in r.findings <==> c.cmd.SendBack? && f in t.findings && f !in s.findings)
  {
    hide Reachable, Inv, Fresh, Execute, EnoughIds, OnRecord, NamesRecord, Marks.Marked;
    ReachableInv(h, s);
    RecordedAtOnce(h, s, c);
    NewlyNamed(h, s, c);
    Marks.StepMarks(h, s, c);
    AcceptedForm(h, s, c);
    if c.cmd.SendBack? {
      RaisedNamed(s, Execute(h, s, c.actor, c.cmd, c.now).state, c);
    }
  }

  lemma NewlyNamed(h: Material -> string, s: State, c: Call)
    requires Fresh(s, c) && EnoughIds(s, c.cmd) && Execute(h, s, c.actor, c.cmd, c.now).error == None
    requires OnRecord(Execute(h, s, c.actor, c.cmd, c.now).state, c)
    ensures NamesRecord(s, Execute(h, s, c.actor, c.cmd, c.now).state, c.cmd, Commands.NamedBy(c.cmd))
  {
    hide Execute, EnoughIds;
    AcceptedForm(h, s, c);
  }

  lemma AcceptedForm(h: Material -> string, s: State, c: Call)
    requires EnoughIds(s, c.cmd) && Execute(h, s, c.actor, c.cmd, c.now).error == None
    ensures c.cmd.Submit? ==> c.cmd.items != []
    ensures c.cmd.CreateBatch? ==> c.cmd.batchID !in s.batches
    ensures c.cmd.SendBack? ==> !CorrectionsFail(s, c.cmd.batchID, c.cmd.corrections)
  {
    hide IsCurrent, CorrectionsFail, ManualFindings, FirstItemError, SetEvaluationStatusStep, ApplyReadings, Covered,
         SortPoints, NewTasks, NoOpen, PointComplete, HasCredential, MaterialOf;
  }

  lemma RaisedNamed(s: State, t: State, c: Call)
    requires c.cmd.SendBack? && OnRecord(t, c) && Marks.Marked(s, t, c)
    requires !CorrectionsFail(s, c.cmd.batchID, c.cmd.corrections)
    ensures forall f :: f in CorrectionIds(c.cmd.corrections) <==> f in t.findings && f !in s.findings
  {
    hide IsCurrent, PlanPoint;
    var corrections := c.cmd.corrections;
    forall i | 0 <= i < |corrections|
      ensures corrections[i].id in t.findings && corrections[i].id !in s.findings
    {
      assert CorrectionRecorded(t, c.cmd.batchID, c.actor, corrections[i]);
      assert CorrectionError(s, c.cmd.batchID, corrections, i) == None;
    }
    forall f | f in t.findings && f !in s.findings
      ensures f in CorrectionIds(corrections)
    {
      assert Marks.FindingDemanded(t.findings[f], f, c);
      var i :| 0 <= i < |corrections| && corrections[i].id == f;
      assert CorrectionIds(corrections)[i] == f;
    }
  }

  lemma ResolvedListed(s: State, t: State)
    requires forall f :: f in t.findings && t.findings[f].status == Resolved ==> f in s.findings
    ensures Text.Ascending(Text.Canonical(Commands.NewlyResolved(s, t)))
    ensures forall f :: f in Text.Canonical(Commands.NewlyResolved(s, t)) <==>
      f in s.findings && f in t.findings && s.findings[f].status == Open && t.findings[f].status == Resolved
  {
    var ids := Commands.NewlyResolved(s, t);
    forall f
      ensures f in Text.Canonical(ids) <==> f in ids
    {
      assert f in Text.Canonical(ids) <==> f in Text.Elements(Text.Canonical(ids));
    }
  }

  lemma NoneBornResolved(h: Material -> string, s: State, c: Call)
    requires Inv(h, s) && Fresh(s, c) && EnoughIds(s, c.cmd) && c.cmd.Submit?
    requires Execute(h, s, c.actor, c.cmd, c.now).error == None
    ensures var t := Execute(h, s, c.actor, c.cmd, c.now).state;
      forall f :: f in t.findings && t.findings[f].status == Resolved ==> f in s.findings
  {
    hide Inv, Fresh, Execute, NewMeasurement;
    SubmissionFacts(h, s, c);
  }

  lemma RetestedCurrent(h: Material -> string, s: State, c: Call)
    requires Inv(h, s) && Fresh(s, c) && EnoughIds(s, c.cmd) && Execute(h, s, c.actor, c.cmd, c.now).error == None
    requires c.cmd.Submit? || c.cmd.Recalibrate?
    ensures var t := Execute(h, s, c.actor, c.cmd, c.now).state;
      IsCurrent(t, RetestedBy(c.cmd), c.cmd.batchID) && ProfileOf(t, c.cmd.batchID).Some?
  {
    hide Inv, Fresh, SubmitStep, SubmitError, NewTasks, Text.Blank, CarriesOpen;
    if c.cmd.Submit? {
      var b, x, items := c.cmd.batchID, c.cmd.sensorID, c.cmd.items;
      SubmitAccepted(s, b, x, c.actor, items, c.now);
      SubmissionStores(h, s, c);
      PlanNeeded(s, b, x, c.actor, items);
      SubmittedCurrently(s, b, x, c.actor, items);
    }
  }

  lemma SubmittedCurrently(s: State, b: Id, x: Id, actor: string, items: seq<Reading>)
    requires SubmitError(s, b, x, actor, items) == None
    ensures IsCurrent(s, x, b)
  {
    hide FirstItemError;
  }

  lemma PendingIsBlocked(h: Material -> string, t: State, b: Id, x: Id)
    requires Reachable(h, t) && IsCurrent(t, x, b) && ProfileOf(t, b).Some?
    ensures x in t.sensors && |Guarantees.PendingRetests(t, x)| == |BlockedNow(t, b, x)|
  {
    hide Reachable, Inv, IsCurrent, TasksOk, SensorsOk, BlockedInBatch;
    ReachableInv(h, t);
    CurrentRecorded(t, b, x);
    RecordsSound(h, t);
    if t.sensors[x].revision > 1 {
      Guarantees.PendingRetestsCount(h, t, b, x);
      assert BlockedNow(t, b, x) == Guarantees.BlockedPoints(t, b, x);
    } else {
      NothingEarlier(t, b, x);
    }
  }

  lemma CurrentRecorded(t: State, b: Id, x: Id)
    requires IsCurrent(t, x, b)
    ensures x in t.sensors
  {
  }

  lemma RecordsSound(h: Material -> string, t: State)
    requires Inv(h, t)
    ensures SensorsOk(t) && TasksOk(t)
  {
    hide History, StatusOk, CredentialsOk, CredentialsUnique, SensorsOk, TasksOk;
  }

  lemma NothingEarlier(t: State, b: Id, x: Id)
    requires SensorsOk(t) && TasksOk(t) && x in t.sensors && t.sensors[x].revision <= 1 && ProfileOf(t, b).Some?
    ensures BlockedNow(t, b, x) == {} && Guarantees.PendingRetests(t, x) == {}
  {
    forall k | k in t.tasks
      ensures t.tasks[k].sensorID != x
    {
      assert TaskOk(t, t.tasks[k]);
    }
    forall y | y in t.sensors
      ensures t.sensors[y].revision >= 1
    {
      assert SensorOk(t, t.sensors[y]);
    }
  }
}
