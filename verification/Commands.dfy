/** The mutation each request carries out on the working copy of the projection, and the reply
    it returns. */
module Commands {
  import opened Entities
  import opened Statistics
  import opened Evidence
  import opened Frozen
  import opened Text
  import opened Domain
  import opened Invariant
  import Recording
  import StatusChange
  import opened Submission
  import opened Renewal
  import Reviewing
  import opened Runs
  import Release
  import opened Guarantees
  import opened Snapshots
  import opened Calibration
  import opened Evaluation
  import Credentials

  // ---------- submitting readings ----------

  ghost function SetsOf(b: Id, x: Id, actor: string, items: seq<Reading>, now: Time): (sets: seq<Measurement>)
    ensures |sets| == |items|
  {
    seq(|items|, i requires 0 <= i < |items| => SetOf(b, x, actor, items[i], now))
  }

  method PrepareSets(b: Id, x: Id, actor: string, items: seq<Reading>) returns (sets: seq<Measurement>)
    ensures sets == SetsOf(b, x, actor, items, 0)
  {
    sets := [];
    for i := 0 to |items|
      invariant |sets| == i && forall j :: 0 <= j < i ==> sets[j] == SetOf(b, x, actor, items[j], 0)
    {
      var stats := Calculate(items[i].point, items[i].readings);
      sets := sets + [Measurement(items[i].id, b, x, items[i].point, items[i].readings, stats, actor, 0)];
    }
  }

  /** The checks on the prepared sets are the checks on the submitted points. */
  lemma PutErrorAgrees(s: State, b: Id, x: Id, actor: string, items: seq<Reading>)
    ensures PutError(s, SetsOf(b, x, actor, items, 0)) == SubmitError(s, b, x, actor, items)
  {
    hide SetError, ItemError, IsCurrent;
    if items != [] && x in s.sensors {
      FirstErrorAgrees(s, b, x, actor, items, |items|);
    }
  }

  lemma {:induction false} FirstErrorAgrees(s: State, b: Id, x: Id, actor: string, items: seq<Reading>, n: nat)
    requires x in s.sensors && n <= |items|
    ensures FirstSetError(s, b, x, SetsOf(b, x, actor, items, 0), n) == FirstItemError(s, b, x, actor, items, n)
  {
    hide SetError, ItemError;
    if n > 0 {
      FirstErrorAgrees(s, b, x, actor, items, n - 1);
      SetErrorAgrees(s, b, x, actor, items, n - 1);
    }
  }

  lemma SetErrorAgrees(s: State, b: Id, x: Id, actor: string, items: seq<Reading>, i: nat)
    requires x in s.sensors && i < |items|
    ensures var sets := SetsOf(b, x, actor, items, 0);
      SetError(s, b, x, sets[i], PointsOf(sets[..i]), IdsOf(sets[..i])) == ItemError(s, b, x, actor, items, i)
  {
    var sets := SetsOf(b, x, actor, items, 0);
    assert items[i].point in PointsOf(sets[..i]) <==> exists j :: 0 <= j < i && items[j].point == items[i].point by {
      forall j | 0 <= j < i
        ensures sets[..i][j].point == items[j].point
      {
      }
    }
    assert items[i].id in IdsOf(sets[..i]) <==> exists j :: 0 <= j < i && items[j].id == items[i].id by {
      forall j | 0 <= j < i
        ensures sets[..i][j].id == items[j].id
      {
      }
    }
  }

  lemma ApplySnoc(s: State, p: Profile, b: Id, x: Id, actor: string, items: seq<Reading>, now: Time, n: nat)
    requires b in s.batches && Supplied(items) && n < |items|
    ensures Supplied(items[..n]) && Supplied(items[..n + 1])
    ensures ApplyReadings(s, p, b, x, actor, items[..n + 1], now)
         == ApplyReading(ApplyReadings(s, p, b, x, actor, items[..n], now), p, b, x, actor, items[n], now)
  {
    hide ApplyReading;
    assert items[..n + 1][..n] == items[..n];
  }

  lemma ApplyParts(t: State, p: Profile, b: Id, x: Id, actor: string, items: seq<Reading>, n: nat, now: Time)
    requires b in t.batches && Supplied(items) && n < |items|
    ensures |items[n].findingIDs| >= 3
    ensures var u := ApplyReading(t, p, b, x, actor, items[n], now);
      && u.measurements == t.measurements[items[n].id := SetOf(b, x, actor, items[n], now)]
      && u.batches == t.batches[b := AddSampler(t.batches[b], actor)]
  {
    hide DraftsOf, ReplaceFindings, UpdateTasks, NewFindings;
  }

  lemma PutSnoc(s: State, b: Id, sets: seq<Measurement>, now: Time, n: nat)
    requires b in s.batches && n < |sets|
    ensures var t := Put(s, b, sets[..n], now);
      Put(s, b, sets[..n + 1], now) ==
        t.(measurements := t.measurements[sets[n].id := sets[n].(capturedAt := now)],
           batches := t.batches[b := AddSampler(t.batches[b], sets[n].capturedBy)])
  {
    assert sets[..n + 1][..n] == sets[..n];
  }

  lemma NothingStored(s: State, p: Profile, b: Id, x: Id, actor: string, items: seq<Reading>, sets: seq<Measurement>,
                      now: Time)
    requires b in s.batches
    ensures Supplied(items[..0]) && ApplyReadings(s, p, b, x, actor, items[..0], now) == s
    ensures Put(s, b, sets[..0], now) == s
  {
    assert items[..0] == [] && sets[..0] == [];
  }

  /** Storing the sets is the part of recording the points that touches measurements and samplers. */
  lemma {:induction false} PutAgrees(s: State, p: Profile, b: Id, x: Id, actor: string, items: seq<Reading>, now: Time,
                                     n: nat)
    requires b in s.batches && Supplied(items) && n <= |items|
    ensures var t := ApplyReadings(s, p, b, x, actor, items[..n], now);
      Put(s, b, SetsOf(b, x, actor, items, 0)[..n], now) == s.(batches := t.batches, measurements := t.measurements)
  {
    hide ApplyReadings, ApplyReading, Put, StatsOf, AddSampler;
    var sets := SetsOf(b, x, actor, items, 0);
    if n == 0 {
      NothingStored(s, p, b, x, actor, items, sets, now);
    } else {
      PutAgrees(s, p, b, x, actor, items, now, n - 1);
      ApplySnoc(s, p, b, x, actor, items, now, n - 1);
      PutSnoc(s, b, sets, now, n - 1);
      ApplyParts(ApplyReadings(s, p, b, x, actor, items[..n - 1], now), p, b, x, actor, items, n - 1, now);
      assert sets[n - 1].(capturedAt := now) == SetOf(b, x, actor, items[n - 1], now);
    }
  }

  method Materialize(b: Id, x: Id, drafts: seq<FindingDraft>, ids: seq<Id>) returns (out: seq<Finding>)
    requires |drafts| <= |ids|
    ensures ById(out) == NewFindings(b, x, drafts, ids) && |out| == |drafts|
  {
    out := [];
    for i := 0 to |drafts|
      invariant |out| == i && ById(out) == NewFindings(b, x, drafts[..i], ids)
    {
      var d := drafts[i];
      ghost var before := out;
      out := out + [Finding(ids[i], b, x, d.point, d.kind, d.severity, d.message, Automatic, "", Open, "", None)];
      assert out[..|out| - 1] == before && drafts[..i + 1][..i] == drafts[..i];
    }
    assert drafts[..|drafts|] == drafts;
  }

  /** All measurements stored, tasks and findings brought up to date for the first `n` points. */
  ghost function Staged(s: State, p: Profile, b: Id, x: Id, actor: string, items: seq<Reading>, now: Time,
                        n: nat): State
    requires b in s.batches && Supplied(items) && n <= |items|
  {
    var all := ApplyReadings(s, p, b, x, actor, items, now);
    var part := ApplyReadings(s, p, b, x, actor, items[..n], now);
    all.(tasks := part.tasks, findings := part.findings)
  }

  lemma StagedStart(s: State, p: Profile, b: Id, x: Id, actor: string, items: seq<Reading>, now: Time)
    requires b in s.batches && Supplied(items)
    ensures Put(s, b, SetsOf(b, x, actor, items, 0), now) == Staged(s, p, b, x, actor, items, now, 0)
    ensures Staged(s, p, b, x, actor, items, now, |items|) == ApplyReadings(s, p, b, x, actor, items, now)
  {
    PutAgrees(s, p, b, x, actor, items, now, |items|);
    assert items[..|items|] == items && items[..0] == [];
    assert SetsOf(b, x, actor, items, 0)[..|items|] == SetsOf(b, x, actor, items, 0);
  }

  lemma EnoughForDrafts(p: Profile, items: seq<Reading>, n: nat)
    requires Supplied(items) && n < |items|
    ensures |DraftsOf(p, items[n])| <= 3 <= |items[n].findingIDs|
  {
  }

  lemma StagedNext(s: State, p: Profile, b: Id, x: Id, actor: string, items: seq<Reading>, now: Time, n: nat)
    requires b in s.batches && Supplied(items) && n < |items|
    ensures var t := Staged(s, p, b, x, actor, items, now, n);
      var m := SetOf(b, x, actor, items[n], now);
      var drafts := DraftsOf(p, items[n]);
      Staged(s, p, b, x, actor, items, now, n + 1) ==
        t.(tasks := UpdateTasks(t.tasks, m, drafts, now),
           findings := ReplaceFindings(t, b, x, items[n].point, NewFindings(b, x, drafts, items[n].findingIDs), now))
  {
    hide DraftsOf, UpdateTasks, NewFindings, ReplaceFindings, ApplyReadings, Supplied;
    ApplySnoc(s, p, b, x, actor, items, now, n);
    EnoughForDrafts(p, items, n);
    var part := ApplyReadings(s, p, b, x, actor, items[..n], now);
    ReplaceAside(part, Staged(s, p, b, x, actor, items, now, n), b, x, items[n].point,
        NewFindings(b, x, DraftsOf(p, items[n]), items[n].findingIDs), now);
  }

  lemma ReplaceAside(s: State, t: State, b: Id, x: Id, point: real, added: map<Id, Finding>, now: Time)
    requires t.findings == s.findings && t.sensors == s.sensors
    ensures ReplaceFindings(t, b, x, point, added, now) == ReplaceFindings(s, b, x, point, added, now)
    ensures forall f: Finding :: Closes(t, b, x, point, f) <==> Closes(s, b, x, point, f)
  {
    assert forall f :: f in s.findings ==>
        (Closes(t, b, x, point, s.findings[f]) <==> Closes(s, b, x, point, s.findings[f]));
  }

  lemma StagedTasks(s: State, p: Profile, b: Id, x: Id, actor: string, items: seq<Reading>, now: Time, n: nat)
    requires Core(s) && Acceptable(s, b, x, actor, items, now) && Supplied(items) && ProfileOf(s, b) == Some(p)
    requires n <= |items| && b in s.batches
    ensures TasksUnique(Staged(s, p, b, x, actor, items, now, n))
  {
    hide Core, Acceptable, Progress;
    ApplyReadingsKeepCore(s, p, b, x, actor, items, now, n);
    CoreTasksUnique(ApplyReadings(s, p, b, x, actor, items[..n], now));
  }

  lemma CoreTasksUnique(s: State)
    requires Core(s)
    ensures TasksUnique(s) && DirectUnique(s) && RevisionsUnique(s) && Keyed(s)
  {
    hide MeasurementsOk, FindingsOk, OpenUntilPassed, ResolvedOk, FailuresFound, FindingsFounded, RangesOk,
         BatchesOk, ProfilesOk;
  }

  /** One point: its tasks, then its findings. */
  method EnterResult(s: Snapshot, p: Profile, b: Id, x: Id, m: Measurement, ids: seq<Id>, now: Time)
    returns (resolved: seq<Id>)
    requires TasksUnique(s.View()) && |ids| >= 3
    modifies s
    ensures var drafts := Compare(m.point, m.stats, p);
      s.View() == old(s.View()).(tasks := UpdateTasks(old(s.tasks), m, drafts, now),
                                 findings := ReplaceFindings(old(s.View()), b, x, m.point,
                                     NewFindings(b, x, drafts, ids), now))
    ensures Distinct(resolved)
    ensures forall f :: f in resolved <==>
        Compare(m.point, m.stats, p) == [] && f in old(s.findings) &&
            Closes(old(s.View()), b, x, m.point, old(s.findings)[f])
  {
    hide TasksUnique, UpdateTasks, Compare, Distinct, ReplaceFindings, Closes, NewFindings;
    ghost var was := s.View();
    var drafts := Compare(m.point, m.stats, p);
    var found := Materialize(b, x, drafts, ids);
    UpdateRecalibrationTask(s, m, drafts, now);
    ReplaceAside(was, s.View(), b, x, m.point, ById(found), now);
    assert found == [] <==> drafts == [];
    resolved := ReplaceAutomaticFindings(s, b, x, m.point, found, now);
  }

  // ---------- what a submission resolves ----------

  /** Findings closed in `t` that were not closed in `s`. */
  ghost function NewlyResolved(s: State, t: State): set<Id> {
    set f | f in t.findings && t.findings[f].status == Resolved &&
        !(f in s.findings && s.findings[f].status == Resolved)
  }

  ghost function ClosedAt(t: State, b: Id, x: Id, point: real): set<Id> {
    set f | f in t.findings && Closes(t, b, x, point, t.findings[f])
  }

  lemma ResolvedStep(s: State, t: State, u: State, b: Id, x: Id, point: real, added: map<Id, Finding>, now: Time)
    requires u.findings == ReplaceFindings(t, b, x, point, added, now)
    requires forall f :: f in added ==> f !in t.findings && added[f].status == Open
    requires forall f :: f in s.findings ==> f in t.findings && SameProblem(s.findings[f], t.findings[f])
    ensures NewlyResolved(s, u) == NewlyResolved(s, t) + if added == map[] then ClosedAt(t, b, x, point) else {}
  {
  }

  lemma AddedAreOpen(t: State, p: Profile, b: Id, x: Id, item: Reading)
    requires Recording.UnusedFindingIds(t, item.findingIDs)
    ensures var added := NewFindings(b, x, DraftsOf(p, item), item.findingIDs);
      (forall f :: f in added ==> f !in t.findings && added[f].status == Open) &&
          (added == map[] <==> DraftsOf(p, item) == [])
  {
    Recording.NewFindingsMean(b, x, DraftsOf(p, item), item.findingIDs);
    if DraftsOf(p, item) != [] {
      assert item.findingIDs[0] in NewFindings(b, x, DraftsOf(p, item), item.findingIDs);
    }
  }

  lemma ProgressProblems(s: State, t: State, b: Id, x: Id, actor: string, items: seq<Reading>, now: Time, n: nat)
    requires n <= |items| && Progress(s, t, b, x, actor, items, now, n)
    ensures forall f :: f in s.findings ==> f in t.findings && SameProblem(s.findings[f], t.findings[f])
  {
  }

  lemma StagedResolves(s: State, p: Profile, b: Id, x: Id, actor: string, items: seq<Reading>, now: Time, n: nat)
    requires Core(s) && Acceptable(s, b, x, actor, items, now) && Supplied(items) && ProfileOf(s, b) == Some(p)
    requires n < |items| && b in s.batches
    ensures var t := Staged(s, p, b, x, actor, items, now, n);
      NewlyResolved(s, Staged(s, p, b, x, actor, items, now, n + 1))
        == NewlyResolved(s, t) + if DraftsOf(p, items[n]) == [] then ClosedAt(t, b, x, items[n].point) else {}
  {
    hide Core, Progress, ApplyReadings, NewlyResolved, ClosedAt, ReplaceFindings, NewFindings, DraftsOf, UpdateTasks,
         SameProblem, SubmitError, FreshItems;
    EnoughForDrafts(p, items, n);
    var t := Staged(s, p, b, x, actor, items, now, n);
    var part := ApplyReadings(s, p, b, x, actor, items[..n], now);
    ApplyReadingsKeepCore(s, p, b, x, actor, items, now, n);
    ProgressProblems(s, part, b, x, actor, items, now, n);
    UnusedNext(s, part, b, x, actor, items, now, n);
    assert Recording.UnusedFindingIds(t, items[n].findingIDs);
    AddedAreOpen(t, p, b, x, items[n]);
    StagedNext(s, p, b, x, actor, items, now, n);
    ResolvedStep(s, t, Staged(s, p, b, x, actor, items, now, n + 1), b, x, items[n].point,
                 NewFindings(b, x, DraftsOf(p, items[n]), items[n].findingIDs), now);
  }

  method ListOf(ids: set<Id>) returns (out: seq<Id>)
    ensures Distinct(out) && Elements(out) == ids
  {
    out := [];
    var todo := ids;
    while todo != {}
      invariant todo <= ids && Distinct(out)
      invariant forall k :: k in out <==> k in ids && k !in todo
      decreases todo
    {
      var k :| k in todo;
      out := out + [k];
      todo := todo - {k};
    }
  }

  /** Tasks and findings for every stored set in turn. */
  method EnterResults(s: Snapshot, p: Profile, b: Id, x: Id, actor: string, items: seq<Reading>,
                      sets: seq<Measurement>, now: Time, ghost was: State)
    returns (resolved: set<Id>)
    requires Core(was) && Acceptable(was, b, x, actor, items, now) && Supplied(items) && ProfileOf(was, b) == Some(p)
    requires b in was.batches
    requires sets == SetsOf(b, x, actor, items, now)
    requires s.View() == Staged(was, p, b, x, actor, items, now, 0)
    modifies s
    ensures s.View() == Staged(was, p, b, x, actor, items, now, |items|)
    ensures resolved == NewlyResolved(was, s.View())
  {
    hide Core, Acceptable, Staged, NewlyResolved, TasksUnique, UpdateTasks, ReplaceFindings, NewFindings, Compare,
         Distinct, ClosedAt, Closes, Supplied;
    resolved := {};
    StagedUnresolved(was, p, b, x, actor, items, now);
    for i := 0 to |sets|
      invariant s.View() == Staged(was, p, b, x, actor, items, now, i)
      invariant resolved == NewlyResolved(was, s.View())
    {
      ghost var t := s.View();
      StagedTasks(was, p, b, x, actor, items, now, i);
      StagedNext(was, p, b, x, actor, items, now, i);
      StagedResolves(was, p, b, x, actor, items, now, i);
      EnoughForDrafts(p, items, i);
      var closed := EnterResult(s, p, b, x, sets[i], items[i].findingIDs, now);
      ClosedListed(t, b, x, sets[i].point, closed, Compare(sets[i].point, sets[i].stats, p) == []);
      resolved := resolved + Elements(closed);
    }
  }

  lemma StagedUnresolved(s: State, p: Profile, b: Id, x: Id, actor: string, items: seq<Reading>, now: Time)
    requires b in s.batches && Supplied(items)
    ensures NewlyResolved(s, Staged(s, p, b, x, actor, items, now, 0)) == {}
  {
    assert items[..0] == [];
  }

  lemma ClosedListed(t: State, b: Id, x: Id, point: real, closed: seq<Id>, passed: bool)
    requires forall f :: f in closed <==> passed && f in t.findings && Closes(t, b, x, point, t.findings[f])
    ensures Elements(closed) == if passed then ClosedAt(t, b, x, point) else {}
  {
  }

  method PendingRetestPoints(s: Snapshot, x: Id) returns (count: nat)
    ensures count == |PendingRetests(s.View(), x)|
  {
    count := 0;
    ghost var seen := {};
    var todo := s.tasks.Keys;
    while todo != {}
      invariant todo <= s.tasks.Keys && count == |seen|
      invariant seen == set t | t in PendingRetests(s.View(), x) && t !in todo
      decreases todo
    {
      var t :| t in todo;
      if s.tasks[t].sensorID == x && s.tasks[t].required && s.tasks[t].status != TaskStatus.Passed {
        count := count + 1;
        seen := seen + {t};
      }
      todo := todo - {t};
    }
    assert seen == PendingRetests(s.View(), x);
  }

  // ---------- replies ----------

  /** What a request is answered with. */
  datatype Reply = Reply(
    batchID: Id, id: Id, version: int, status: Status, pending: nat, findings: seq<Id>, resolved: seq<Id>,
        results: seq<PointResult>)

  datatype PointResult = PointResult(id: Id, point: real, stats: Stats)

  /** The record a reply names besides the batch: the new one, or the revision readings are for. */
  function NamedBy(cmd: Command): Id {
    match cmd
    case CreateBatch(b, _, _) => b
    case RegisterSensor(_, id, _, _, _, _, _) => id
    case LockProfile(_, id, _, _, _, _, _) => id
    case Submit(_, x, _, _) => x
    case Recalibrate(_, _, id, _, _) => id
    case Issue(_, id) => id
    case _ => ""
  }

  function RaisedBy(cmd: Command): seq<Id> {
    if cmd.SendBack? then CorrectionIds(cmd.corrections) else []
  }

  ghost function ResultsOf(items: seq<Reading>): (results: seq<PointResult>)
    ensures |results| == |items|
  {
    seq(|items|, i requires 0 <= i < |items| => PointResult(items[i].id, items[i].point,
        StatsOf(items[i].point, items[i].readings)))
  }

  /** The reply to a command that led from `s` to `t`. */
  ghost function ReplyTo(s: State, t: State, cmd: Command): Reply
    requires cmd.batchID in t.batches
  {
    var bt := t.batches[cmd.batchID];
    match cmd
    case Submit(b, x, items, _) =>
      Reply(b, x, bt.version, bt.status, |PendingRetests(t, x)|, [], Canonical(NewlyResolved(s, t)), ResultsOf(items))
    case Recalibrate(b, _, id, _, _) => Reply(b, id, bt.version, bt.status, |PendingRetests(t, id)|, [], [], [])
    case _ => Reply(cmd.batchID, NamedBy(cmd), bt.version, bt.status, 0, RaisedBy(cmd), [], [])
  }

  const NO_REPLY := Reply("", "", 0, Draft, 0, [], [], [])

  method ReplyFor(s: Snapshot, cmd: Command) returns (r: Reply)
    requires cmd.batchID in s.batches
    ensures r == Reply(cmd.batchID, NamedBy(cmd), s.batches[cmd.batchID].version, s.batches[cmd.batchID].status, 0,
        RaisedBy(cmd), [], [])
  {
    var bt := s.batches[cmd.batchID];
    r := Reply(cmd.batchID, NamedBy(cmd), bt.version, bt.status, 0, RaisedBy(cmd), [], []);
  }

  method ReportResults(items: seq<Reading>) returns (results: seq<PointResult>)
    ensures results == ResultsOf(items)
  {
    results := [];
    for i := 0 to |items|
      invariant results == ResultsOf(items[..i])
    {
      var stats := Calculate(items[i].point, items[i].readings);
      assert items[..i + 1][..i] == items[..i];
      results := results + [PointResult(items[i].id, items[i].point, stats)];
    }
    assert items[..|items|] == items;
  }

  // ---------- the commands ----------

  method SubmitMeasurements(s: Snapshot, b: Id, x: Id, actor: string, items: seq<Reading>, now: Time)
    returns (e: Option<Error>, resolved: set<Id>)
    requires Core(s.View()) && FreshItems(s.View(), items) && Supplied(items) && now != 0
    modifies s
    ensures Outcome(s.View(), e) == SubmitStep(old(s.View()), b, x, actor, items, now)
    ensures e == None ==> resolved == NewlyResolved(old(s.View()), s.View())
  {
    hide Core, FreshItems, Supplied, Staged, NewlyResolved, Covered, SetEvaluationStatusStep, DirectUnique,
         RevisionsUnique, ApplyReadings, SubmitError, PutError, Put;
    ghost var was := s.View();
    resolved := {};
    var sets := PrepareSets(b, x, actor, items);
    PutErrorAgrees(was, b, x, actor, items);
    e := PutMeasurements(s, sets, now);
    if e.Some? {
      return;
    }
    SubmissionPlan(was, b, x, actor, items);
    var profile := s.ProfileFor(b);
    var stamped := Stamped(sets, now);
    StagedStart(was, profile.value, b, x, actor, items, now);
    resolved := EnterResults(s, profile.value, b, x, actor, items, stamped, now, was);
    StagedUnique(was, profile.value, b, x, actor, items, now);
    ghost var t := s.View();
    var complete, sensors;
    complete, sensors, e := EvaluateBatch(s, b);
    if e.Some? {
      return;
    }
    e := SetEvaluationStatus(s, b, complete);
    FindingsKept(t, b, Covered(t, b));
    ResolvedByFindings(was, t, s.View());
  }

  lemma SubmissionPlan(s: State, b: Id, x: Id, actor: string, items: seq<Reading>)
    requires SubmitError(s, b, x, actor, items) == None
    ensures items != [] && b in s.batches && ProfileOf(s, b).Some?
    ensures forall t: State :: t.profiles == s.profiles && b in t.batches && t.batches[b].profileID == s.batches[b].profileID ==>
        ProfileOf(t, b) == ProfileOf(s, b)
  {
    PlanNeeded(s, b, x, actor, items);
  }

  /** The sets as they are once stored, with their time. */
  method Stamped(sets: seq<Measurement>, now: Time) returns (out: seq<Measurement>)
    ensures |out| == |sets| && forall i :: 0 <= i < |sets| ==> out[i] == sets[i].(capturedAt := now)
  {
    out := [];
    for i := 0 to |sets|
      invariant |out| == i && forall j :: 0 <= j < i ==> out[j] == sets[j].(capturedAt := now)
    {
      out := out + [sets[i].(capturedAt := now)];
    }
  }

  lemma StagedUnique(s: State, p: Profile, b: Id, x: Id, actor: string, items: seq<Reading>, now: Time)
    requires Core(s) && Acceptable(s, b, x, actor, items, now) && Supplied(items) && ProfileOf(s, b) == Some(p)
    requires b in s.batches
    ensures var t := ApplyReadings(s, p, b, x, actor, items, now);
      DirectUnique(t) && RevisionsUnique(t) && ProfileOf(t, b) == Some(p)
  {
    hide Core, Acceptable;
    assert items[..|items|] == items;
    ApplyReadingsKeepCore(s, p, b, x, actor, items, now, |items|);
    CoreTasksUnique(ApplyReadings(s, p, b, x, actor, items, now));
  }

  lemma FindingsKept(t: State, b: Id, complete: bool)
    ensures SetEvaluationStatusStep(t, b, complete).state.findings == t.findings
  {
    hide NoOpen, AllowedTransition, EvaluatedStatus;
  }

  lemma ResolvedByFindings(s: State, t: State, u: State)
    requires u.findings == t.findings
    ensures NewlyResolved(s, u) == NewlyResolved(s, t)
  {
  }

  method Recalibrate(s: Snapshot, b: Id, before: Id, id: Id, note: string, taskIDs: seq<Id>, now: Time)
    returns (e: Option<Error>)
    requires RevisionsUnique(s.View()) && DirectUnique(s.View()) && RangesOk(s.View()) && id !in s.sensors
    requires ProfileOf(s.View(), b).Some? ==> |taskIDs| >= |ProfileOf(s.View(), b).value.points|
    modifies s
    ensures Outcome(s.View(), e) == RecalibrateStep(old(s.View()), b, before, id, note, taskIDs, now)
  {
    hide RevisionsUnique, DirectUnique, RecalibrateSensorStep, IsCurrent, NewTasks, Renewed, RangesOk;
    ghost var was := s.View();
    e := RecalibrateSensor(s, b, before, id, note, now);
    if e.Some? {
      return;
    }
    SensorStepRenews(was, b, before, id, note, now);
    RenewedUnique(was, s.View(), b, before, id);
    RenewedPlans(was, s.View(), b, before, id);
    RenewedPlace(was, s.View(), b, before, id);
    e := BuildRecalibrationTasks(s, id, taskIDs, now);
  }

  lemma RenewedPlace(s: State, t: State, b: Id, before: Id, id: Id)
    requires Renewed(s, t, b, before, id)
    ensures t.sensors[id].batchID == b && (DirectUnique(s) ==> DirectUnique(t))
  {
  }

  /** Some point of some reported sensor is not complete. */
  ghost predicate Lacking(report: CoverageReport) {
    exists i, j :: 0 <= i < |report.sensors| && 0 <= j < |report.sensors[i].points| &&
        !report.sensors[i].points[j].complete
  }

  method HasMissingEvidence(report: CoverageReport) returns (missing: bool)
    ensures missing <==> Lacking(report)
  {
    missing := false;
    for i := 0 to |report.sensors|
      invariant missing <==> exists k, j ::
          0 <= k < i && 0 <= j < |report.sensors[k].points| && !report.sensors[k].points[j].complete
    {
      ghost var sofar := missing;
      var points := report.sensors[i].points;
      for j := 0 to |points|
        invariant missing <==> sofar || exists l :: 0 <= l < j && !points[l].complete
      {
        if !points[j].complete {
          missing := true;
        }
      }
      assert forall j :: 0 <= j < |points| ==> points[j] == report.sensors[i].points[j];
    }
  }

  ghost predicate Incomplete(s: State, b: Id) {
    ProfileOf(s, b).Some? && exists x, p ::
        IsCurrent(s, x, b) && p in ProfileOf(s, b).value.points && !PointComplete(s, b, x, p)
  }

  lemma LackingIsIncomplete(s: State, b: Id, report: CoverageReport)
    requires ProfileOf(s, b).Some?
    requires forall i :: 0 <= i < |report.sensors| ==> SensorReported(s, b, report.sensors[i])
    requires forall x :: IsCurrent(s, x, b) ==> exists i :: 0 <= i < |report.sensors| && report.sensors[i].revision == x
    ensures Lacking(report) <==> Incomplete(s, b)
  {
    hide IsCurrent, PointComplete, SensorReported;
    var points := ProfileOf(s, b).value.points;
    if Lacking(report) {
      var i, j :| 0 <= i < |report.sensors| && 0 <= j < |report.sensors[i].points| &&
          !report.sensors[i].points[j].complete;
      PointAsReported(s, b, report.sensors[i], j);
      assert points[j] in points;
    }
    if Incomplete(s, b) {
      var x, p :| IsCurrent(s, x, b) && p in points && !PointComplete(s, b, x, p);
      var i :| 0 <= i < |report.sensors| && report.sensors[i].revision == x;
      var j :| 0 <= j < |points| && points[j] == p;
      SizeAsReported(s, b, report.sensors[i]);
      PointAsReported(s, b, report.sensors[i], j);
    }
  }

  lemma SizeAsReported(s: State, b: Id, item: SensorCoverage)
    requires SensorReported(s, b, item)
    ensures ProfileOf(s, b).Some? && IsCurrent(s, item.revision, b)
    ensures |item.points| == |ProfileOf(s, b).value.points|
  {
    hide IsCurrent, PointReported, AllComplete;
  }

  lemma PointAsReported(s: State, b: Id, item: SensorCoverage, j: nat)
    requires SensorReported(s, b, item) && j < |item.points|
    ensures ProfileOf(s, b).Some? && IsCurrent(s, item.revision, b) && j < |ProfileOf(s, b).value.points|
    ensures item.points[j].complete <==> PointComplete(s, b, item.revision, ProfileOf(s, b).value.points[j])
  {
    hide IsCurrent, PointComplete, HasEvidence, IsEvidence, AllComplete;
    assert PointReported(s, b, item.revision, ProfileOf(s, b).value.points[j], item.points[j]);
  }

  /** Coverage is checked here as well as open findings; the domain operation checks findings only. */
  method ResubmitForReview(s: Snapshot, b: Id, actor: string, comment: string, now: Time) returns (e: Option<Error>)
    requires RevisionsUnique(s.View()) && DirectUnique(s.View())
    modifies s
    ensures Outcome(s.View(), e) == ResubmitStep(old(s.View()), b, actor, comment, now)
  {
    hide RevisionsUnique, DirectUnique, IsCurrent, PointComplete, Covered, SensorReported, Lacking,
         ResubmitReviewStep, NoOpen;
    if b !in s.batches {
      return Some(NotFound);
    }
    if s.batches[b].status != Returned {
      return Some(Conflict);
    }
    var coverage;
    coverage, e := BuildCoverage(s, b);
    if e.Some? {
      return;
    }
    var missing := HasMissingEvidence(coverage);
    LackingIsIncomplete(s.View(), b, coverage);
    var open := s.BatchFindings(b, true);
    if missing || |open| > 0 {
      return Some(Validation);
    }
    e := ResubmitReview(s, b, actor, comment, now);
  }

  method IssueRelease(h: Material -> string, s: Snapshot, b: Id, id: Id, actor: string, now: Time)
    returns (e: Option<Error>)
    requires RevisionsUnique(s.View())
    modifies s
    ensures Outcome(s.View(), e) == IssueStep(h, old(s.View()), b, id, actor, now)
  {
    hide RevisionsUnique, MaterialOf, NoOpen, HasCredential, Canonical;
    var digest, ids;
    digest, ids, e := Credentials.FrozenDigestAtVersion(h, s, b, 0);
    if e.Some? {
      return;
    }
    e := IssueCredential(s, Credential(id, b, 0, ids, "", digest, actor, 0), now);
  }

  lemma InvUnique(h: Material -> string, s: State)
    requires Inv(h, s)
    ensures Core(s) && TasksUnique(s) && DirectUnique(s) && RevisionsUnique(s) && RangesOk(s)
  {
    hide Core, StatusOk, CredentialsOk, CredentialsUnique, TasksUnique, DirectUnique, RevisionsUnique, RangesOk, Keyed;
    CoreTasksUnique(s);
    Release.CorePlan(s);
  }

  lemma CommandLands(h: Material -> string, s: State, c: Call)
    requires Inv(h, s) && Fresh(s, c)
    ensures EnoughIds(s, c.cmd)
    ensures var o := Execute(h, s, c.actor, c.cmd, c.now); o.error == None ==> c.cmd.batchID in o.state.batches
  {
    hide Inv, Fresh, Execute, StatusChange.OthersKept;
    Release.FreshEnough(s, c);
    ExecuteKeeps(h, s, c);
  }

  /** Carries out one request on the working copy: the outcome is the one the specification
      gives, and so is the reply. */
  method Run(h: Material -> string, s: Snapshot, c: Call) returns (e: Option<Error>, reply: Reply)
    requires Inv(h, s.View()) && Fresh(s.View(), c)
    modifies s
    ensures EnoughIds(old(s.View()), c.cmd) && Outcome(s.View(), e) == Execute(h, old(s.View()), c.actor, c.cmd, c.now)
    ensures e == None ==> c.cmd.batchID in s.batches && reply == ReplyTo(old(s.View()), s.View(), c.cmd)
  {
    hide Inv, Fresh, Execute, EnoughIds, ReplyTo;
    reply := NO_REPLY;
    if c.cmd.Submit? {
      e, reply := RunSubmission(h, s, c);
    } else if c.cmd.Recalibrate? {
      e, reply := RunRecalibration(h, s, c);
    } else {
      e, reply := RunOther(h, s, c);
    }
  }

  method RunSubmission(h: Material -> string, s: Snapshot, c: Call) returns (e: Option<Error>, reply: Reply)
    requires c.cmd.Submit? && Inv(h, s.View()) && Fresh(s.View(), c)
    modifies s
    ensures EnoughIds(old(s.View()), c.cmd) && Outcome(s.View(), e) == Execute(h, old(s.View()), c.actor, c.cmd, c.now)
    ensures e == None ==> c.cmd.batchID in s.batches && reply == ReplyTo(old(s.View()), s.View(), c.cmd)
  {
    hide Inv, Fresh, SubmitStep, FreshItems, Supplied, Core, PendingRetests, NewlyResolved, Canonical, TasksUnique,
         ResultsOf, RevisionsUnique, DirectUnique, RangesOk, StepKeeps;
    Release.FreshSubmission(s.View(), c);
    InvUnique(h, s.View());
    CommandLands(h, s.View(), c);
    reply := NO_REPLY;
    var resolved;
    e, resolved := SubmitMeasurements(s, c.cmd.batchID, c.cmd.sensorID, c.actor, c.cmd.items, c.now);
    if e.Some? {
      return;
    }
    var listed := ListOf(resolved);
    SortIsCanonical(listed);
    var pending := PendingRetestPoints(s, c.cmd.sensorID);
    var bt := s.batches[c.cmd.batchID];
    var results := ReportResults(c.cmd.items);
    reply := Reply(c.cmd.batchID, c.cmd.sensorID, bt.version, bt.status, pending, [], SortIds(listed), results);
  }

  method RunRecalibration(h: Material -> string, s: Snapshot, c: Call) returns (e: Option<Error>, reply: Reply)
    requires c.cmd.Recalibrate? && Inv(h, s.View()) && Fresh(s.View(), c)
    modifies s
    ensures EnoughIds(old(s.View()), c.cmd) && Outcome(s.View(), e) == Execute(h, old(s.View()), c.actor, c.cmd, c.now)
    ensures e == None ==> c.cmd.batchID in s.batches && reply == ReplyTo(old(s.View()), s.View(), c.cmd)
  {
    hide Inv, RecalibrateStep, Core, PendingRetests, TasksUnique, RevisionsUnique, DirectUnique, RangesOk, StepKeeps,
         Distinct;
    InvUnique(h, s.View());
    CommandLands(h, s.View(), c);
    reply := NO_REPLY;
    e := Recalibrate(s, c.cmd.batchID, c.cmd.sensorID, c.cmd.id, c.cmd.note, c.cmd.taskIDs, c.now);
    if e.Some? {
      return;
    }
    var pending := PendingRetestPoints(s, c.cmd.id);
    var bt := s.batches[c.cmd.batchID];
    reply := Reply(c.cmd.batchID, c.cmd.id, bt.version, bt.status, pending, [], [], []);
  }

  method RunOther(h: Material -> string, s: Snapshot, c: Call) returns (e: Option<Error>, reply: Reply)
    requires !c.cmd.Submit? && !c.cmd.Recalibrate? && Inv(h, s.View()) && Fresh(s.View(), c)
    modifies s
    ensures EnoughIds(old(s.View()), c.cmd) && Outcome(s.View(), e) == Execute(h, old(s.View()), c.actor, c.cmd, c.now)
    ensures e == None ==> c.cmd.batchID in s.batches && reply == ReplyTo(old(s.View()), s.View(), c.cmd)
  {
    hide Inv, Core, TasksUnique, RevisionsUnique, DirectUnique, RangesOk, Reviewing.FreshCorrections;
    hide CreateBatchStep, RegisterSensorStep, LockProfileStep, ApproveReviewStep, ReturnStep, ResubmitStep, IssueStep;
    InvUnique(h, s.View());
    CommandLands(h, s.View(), c);
    reply := NO_REPLY;
    match c.cmd {
      case CreateBatch(b, stationCode, title) => e := Calibration.CreateBatch(s, b, stationCode, title, c.actor, c.now);
      case RegisterSensor(b, id, code, metric, unit, lo, hi) => e := Calibration.RegisterSensor(s, b, id, code, metric,
          unit, lo, hi, c.now);
      case LockProfile(b, id, points, reps, at, rt, rl) => e := Calibration.LockProfile(s, b, id, points, reps, at, rt,
          rl, c.now);
      case Approve(b, comment, corrections) =>
        if |corrections| > 0 {
          e := Some(Validation);
        } else {
          e := ApproveReview(s, b, c.actor, comment, c.now);
        }
      case SendBack(b, comment, corrections) => e := ReturnReview(s, b, c.actor, comment, corrections, c.now);
      case Resubmit(b, comment) => e := ResubmitForReview(s, b, c.actor, comment, c.now);
      case Issue(b, id) => e := IssueRelease(h, s, b, id, c.actor, c.now);
    }
    if e.None? {
      reply := ReplyFor(s, c.cmd);
    }
  }
}
