/** What an accepted command changes about findings and tasks, and that each change carries its time
    and says what made it. */
module Marks {
  import opened Entities
  import opened Statistics
  import opened Evidence
  import opened Domain
  import opened Recording
  import opened Submission
  import opened Reviewing
  import opened Runs
  import opened Guarantees

  /** A finding is left alone, or closed by revision `x` of batch `b`. */
  ghost predicate FindingMarked(f: Finding, g: Finding, b: Id, x: Id, now: Time) {
    g == f || (f.status == Open && f.batchID == b
               && g == f.(status := Resolved, resolvedBy := x, reviewedAt := Some(now)))
  }

  /** What the program says about a limit it found exceeded. */
  ghost predicate FindingRaised(g: Finding, b: Id, x: Id) {
    && g.batchID == b && g.sensorID == x && g.origin == Automatic && g.createdBy == "" && g.severity == "critical"
    && (g.kind, g.message) in {("absolute_error", "absolute error over tolerance"),
                               ("relative_error", "relative error over tolerance"),
                               ("repeatability", "spread over repeatability limit")}
  }

  ghost predicate Answers(items: seq<Reading>, k: Task) {
    exists i :: 0 <= i < |items| && items[i].id == k.evidenceID && items[i].point == k.point
  }

  /** A task is left alone, or answered by a submitted point. */
  ghost predicate TaskMarked(k: Task, l: Task, x: Id, items: seq<Reading>, now: Time) {
    l == k || (l.sensorID == x && l.updatedAt == now && Answers(items, l)
               && l == k.(evidenceID := l.evidenceID, updatedAt := now, status := l.status, reasons := l.reasons))
  }

  ghost predicate SubmissionMarks(s: State, t: State, b: Id, x: Id, items: seq<Reading>, now: Time) {
    && (forall f :: f in s.findings ==> f in t.findings && FindingMarked(s.findings[f], t.findings[f], b, x, now))
    && (forall f :: f in t.findings && f !in s.findings ==> FindingRaised(t.findings[f], b, x))
    && t.tasks.Keys == s.tasks.Keys
    && (forall k :: k in s.tasks ==> TaskMarked(s.tasks[k], t.tasks[k], x, items, now))
  }

  // ---------- one point ----------

  lemma DraftsWorded(point: real, st: Stats, p: Profile, i: nat)
    requires i < |Compare(point, st, p)|
    ensures var d := Compare(point, st, p)[i];
      d.severity == "critical" &&
      (d.kind, d.message) in {("absolute_error", "absolute error over tolerance"),
                              ("relative_error", "relative error over tolerance"),
                              ("repeatability", "spread over repeatability limit")}
  {
  }

  lemma AddedWorded(b: Id, x: Id, p: Profile, item: Reading, f: Id)
    requires |item.findingIDs| >= 3 && Text.Distinct(item.findingIDs)
    requires f in NewFindings(b, x, DraftsOf(p, item), item.findingIDs)
    ensures f in item.findingIDs
    ensures FindingRaised(NewFindings(b, x, DraftsOf(p, item), item.findingIDs)[f], b, x)
  {
    hide Compare, NewFindings, StatsOf;
    var drafts := DraftsOf(p, item);
    NewFindingsMean(b, x, drafts, item.findingIDs);
    var i :| 0 <= i < |drafts| && f == item.findingIDs[i];
    DraftsWorded(item.point, StatsOf(item.point, item.readings), p, i);
  }

  lemma ReadingReplaces(t: State, p: Profile, b: Id, x: Id, actor: string, item: Reading, now: Time)
    requires b in t.batches && |item.findingIDs| >= 3
    ensures ApplyReading(t, p, b, x, actor, item, now).findings ==
      ReplaceFindings(t, b, x, item.point, NewFindings(b, x, DraftsOf(p, item), item.findingIDs), now)
  {
    hide UpdateTasks, NewFindings, ReplaceFindings, DraftsOf, StatsOf;
  }

  lemma ReplacedMarked(t: State, b: Id, x: Id, point: real, added: map<Id, Finding>, now: Time)
    ensures var u := ReplaceFindings(t, b, x, point, added, now);
      && u.Keys == t.findings.Keys + added.Keys
      && forall f :: f in t.findings && f !in added ==> FindingMarked(t.findings[f], u[f], b, x, now)
    ensures forall f :: f in added ==> ReplaceFindings(t, b, x, point, added, now)[f] == added[f]
  {
  }

  lemma ReadingFindings(s: State, t: State, p: Profile, b: Id, x: Id, actor: string, items: seq<Reading>, now: Time,
                        n: nat)
    requires FreshItems(s, items) && n < |items| && b in t.batches && |items[n].findingIDs| >= 3
    requires SubmissionMarks(s, t, b, x, items, now)
    ensures var u := ApplyReading(t, p, b, x, actor, items[n], now);
      && (forall f :: f in s.findings ==> f in u.findings && FindingMarked(s.findings[f], u.findings[f], b, x, now))
      && (forall f :: f in u.findings && f !in s.findings ==> FindingRaised(u.findings[f], b, x))
  {
    hide ApplyReading, ReplaceFindings, NewFindings, Compare, StatsOf, TaskMarked;
    var item := items[n];
    assert UnusedFindingIds(s, item.findingIDs);
    var added := NewFindings(b, x, DraftsOf(p, item), item.findingIDs);
    forall f | f in added
      ensures f !in s.findings && FindingRaised(added[f], b, x)
    {
      AddedWorded(b, x, p, item, f);
    }
    ReadingReplaces(t, p, b, x, actor, item, now);
    ReplacedMarked(t, b, x, item.point, added, now);
  }

  lemma ReadingTasks(s: State, t: State, p: Profile, b: Id, x: Id, actor: string, items: seq<Reading>, now: Time,
                     n: nat)
    requires n < |items| && b in t.batches && |items[n].findingIDs| >= 3
    requires SubmissionMarks(s, t, b, x, items, now)
    ensures var u := ApplyReading(t, p, b, x, actor, items[n], now);
      u.tasks.Keys == s.tasks.Keys && forall k :: k in s.tasks ==> TaskMarked(s.tasks[k], u.tasks[k], x, items, now)
  {
    hide NewFindings, ReplaceFindings, DraftsOf, StatsOf, FindingMarked, FindingRaised;
    var u := ApplyReading(t, p, b, x, actor, items[n], now);
    forall k | k in s.tasks
      ensures TaskMarked(s.tasks[k], u.tasks[k], x, items, now)
    {
      assert u.tasks[k] != t.tasks[k] ==> Answers(items, u.tasks[k]);
    }
  }

  // ---------- a submission ----------

  lemma {:induction false} ReadingsMark(s: State, p: Profile, b: Id, x: Id, actor: string, items: seq<Reading>,
                                        now: Time, n: nat)
    requires FreshItems(s, items) && Supplied(items) && b in s.batches && n <= |items|
    ensures SubmissionMarks(s, ApplyReadings(s, p, b, x, actor, items[..n], now), b, x, items, now)
  {
    hide FreshItems, ApplyReading, SubmissionMarks;
    if n == 0 {
      assert items[..n] == [];
      NoMarks(s, b, x, items, now);
    } else {
      ReadingsMark(s, p, b, x, actor, items, now, n - 1);
      assert items[..n][..n - 1] == items[..n - 1];
      var t := ApplyReadings(s, p, b, x, actor, items[..n - 1], now);
      ReadingFindings(s, t, p, b, x, actor, items, now, n - 1);
      ReadingTasks(s, t, p, b, x, actor, items, now, n - 1);
      MarksTogether(s, ApplyReading(t, p, b, x, actor, items[n - 1], now), b, x, items, now);
    }
  }

  lemma NoMarks(s: State, b: Id, x: Id, items: seq<Reading>, now: Time)
    ensures SubmissionMarks(s, s, b, x, items, now)
  {
  }

  lemma MarksTogether(s: State, u: State, b: Id, x: Id, items: seq<Reading>, now: Time)
    requires forall f :: f in s.findings ==> f in u.findings && FindingMarked(s.findings[f], u.findings[f], b, x, now)
    requires forall f :: f in u.findings && f !in s.findings ==> FindingRaised(u.findings[f], b, x)
    requires u.tasks.Keys == s.tasks.Keys
    requires forall k :: k in s.tasks ==> TaskMarked(s.tasks[k], u.tasks[k], x, items, now)
    ensures SubmissionMarks(s, u, b, x, items, now)
  {
  }

  // ---------- any command ----------

  /** What a reviewer demands, open from the start. */
  ghost predicate FindingDemanded(g: Finding, f: Id, c: Call) {
    && c.cmd.SendBack? && g.batchID == c.cmd.batchID && g.origin == Manual && g.createdBy == c.actor
    && g.status == Open && g.resolvedBy == "" && g.reviewedAt == None
    && exists i :: 0 <= i < |c.cmd.corrections| && c.cmd.corrections[i] ==
         Correction(f, g.sensorID, g.point, g.kind, g.severity, g.message)
  }

  /** A new task of the new revision. */
  ghost predicate TaskRaised(k: Task, c: Call) {
    c.cmd.Recalibrate? && k.batchID == c.cmd.batchID && k.sensorID == c.cmd.id && k.updatedAt == c.now
  }

  ghost predicate Marked(s: State, t: State, c: Call) {
    if c.cmd.Submit? then SubmissionMarks(s, t, c.cmd.batchID, c.cmd.sensorID, c.cmd.items, c.now)
    else
      && (forall f :: f in s.findings ==> f in t.findings && t.findings[f] == s.findings[f])
      && (forall f :: f in t.findings && f !in s.findings ==> FindingDemanded(t.findings[f], f, c))
      && (forall k :: k in s.tasks ==> k in t.tasks && t.tasks[k] == s.tasks[k])
      && (forall k :: k in t.tasks && k !in s.tasks ==> TaskRaised(t.tasks[k], c))
  }

  lemma SubmitMarks(h: Frozen.Material -> string, s: State, c: Call)
    requires Fresh(s, c) && EnoughIds(s, c.cmd) && c.cmd.Submit?
    requires Execute(h, s, c.actor, c.cmd, c.now).error == None
    ensures Marked(s, Execute(h, s, c.actor, c.cmd, c.now).state, c)
  {
    hide FreshItems, ApplyReadings, Covered, NoOpen, SubmitError;
    var b, x, items := c.cmd.batchID, c.cmd.sensorID, c.cmd.items;
    SubmitAccepted(s, b, x, c.actor, items, c.now);
    PlanNeeded(s, b, x, c.actor, items);
    assert items[..|items|] == items;
    ReadingsMark(s, ProfileOf(s, b).value, b, x, c.actor, items, c.now, |items|);
  }

  ghost predicate RaisedFor(k: Task, x: Sensor, now: Time) {
    k.batchID == x.batchID && k.sensorID == x.id && k.updatedAt == now
  }

  lemma {:induction false} TasksRaised(u: State, x: Sensor, points: seq<real>, ids: seq<Id>, now: Time, n: nat)
    requires n <= |points| && n <= |ids|
    ensures var added := NewTasks(u, x, points, ids, now, n);
      forall k :: k in added ==> k in ids[..n] && RaisedFor(added[k], x, now)
  {
    hide PreviousEvidence;
    if n > 0 {
      TasksRaised(u, x, points, ids, now, n - 1);
      assert ids[..n] == ids[..n - 1] + [ids[n - 1]];
    }
  }

  lemma RecalibrationMarks(h: Frozen.Material -> string, s: State, c: Call)
    requires Fresh(s, c) && EnoughIds(s, c.cmd) && c.cmd.Recalibrate?
    requires Execute(h, s, c.actor, c.cmd, c.now).error == None
    ensures Marked(s, Execute(h, s, c.actor, c.cmd, c.now).state, c)
  {
    hide NewTasks, IsCurrent, CarriesOpen, Text.Blank, Text.Distinct;
    var u := RecalibrateSensorStep(s, c.cmd.batchID, c.cmd.sensorID, c.cmd.id, c.cmd.note, c.now).state;
    var points := ProfileOf(u, c.cmd.batchID).value.points;
    var added := NewTasks(u, u.sensors[c.cmd.id], points, c.cmd.taskIDs, c.now, |points|);
    TasksRaised(u, u.sensors[c.cmd.id], points, c.cmd.taskIDs, c.now, |points|);
    forall k | k in added
      ensures k !in s.tasks && TaskRaised(added[k], c)
    {
      assert k in c.cmd.taskIDs[..|points|] && RaisedFor(added[k], u.sensors[c.cmd.id], c.now);
    }
    var t := Execute(h, s, c.actor, c.cmd, c.now).state;
    assert t.tasks == s.tasks + added && t.findings == s.findings;
  }

  lemma ReturnEnters(h: Frozen.Material -> string, s: State, c: Call)
    requires c.cmd.SendBack? && Execute(h, s, c.actor, c.cmd, c.now).error == None
    ensures !CorrectionsFail(s, c.cmd.batchID, c.cmd.corrections)
    ensures var t := Execute(h, s, c.actor, c.cmd, c.now).state;
      t.findings == s.findings + ManualFindings(c.cmd.batchID, c.cmd.corrections, c.actor) && t.tasks == s.tasks
  {
    hide CorrectionsFail, CorrectionIds, ManualFindings;
  }

  lemma ReturnMarks(h: Frozen.Material -> string, s: State, c: Call)
    requires Fresh(s, c) && EnoughIds(s, c.cmd) && c.cmd.SendBack?
    requires Execute(h, s, c.actor, c.cmd, c.now).error == None
    ensures Marked(s, Execute(h, s, c.actor, c.cmd, c.now).state, c)
  {
    hide CorrectionsFail, ManualFindings, FreshCorrections, Execute, EnoughIds;
    var b, corrections := c.cmd.batchID, c.cmd.corrections;
    var added := ManualFindings(b, corrections, c.actor);
    ReturnEnters(h, s, c);
    CorrectionsNew(s, b, c.actor, corrections);
    ManualFindingsMean(b, corrections, c.actor);
    forall f | f in added
      ensures FindingDemanded(added[f], f, c)
    {
      var i :| 0 <= i < |corrections| && f == corrections[i].id &&
          added[f] == ManualFinding(b, corrections[i], c.actor);
    }
  }

  lemma PlanMarks(h: Frozen.Material -> string, s: State, c: Call)
    requires c.cmd.CreateBatch? || c.cmd.RegisterSensor? || c.cmd.LockProfile?
    requires Execute(h, s, c.actor, c.cmd, c.now).error == None
    ensures Marked(s, Execute(h, s, c.actor, c.cmd, c.now).state, c)
  {
    hide IsCurrent, InRange, SortPoints, Repeats, CodeRegistered, Text.Blank, FindingDemanded, TaskRaised;
  }

  lemma ReviewLeaves(h: Frozen.Material -> string, s: State, c: Call)
    requires c.cmd.Approve? || c.cmd.Resubmit? || c.cmd.Issue?
    requires Execute(h, s, c.actor, c.cmd, c.now).error == None
    ensures var t := Execute(h, s, c.actor, c.cmd, c.now).state; t.findings == s.findings && t.tasks == s.tasks
  {
    hide NoOpen, IsCurrent, PointComplete, HasCredential, Frozen.MaterialOf, Text.Canonical;
  }

  lemma ReviewMarks(h: Frozen.Material -> string, s: State, c: Call)
    requires c.cmd.Approve? || c.cmd.Resubmit? || c.cmd.Issue?
    requires Execute(h, s, c.actor, c.cmd, c.now).error == None
    ensures Marked(s, Execute(h, s, c.actor, c.cmd, c.now).state, c)
  {
    hide Execute;
    ReviewLeaves(h, s, c);
  }

  /** Whatever an accepted command of a run changes about findings and tasks carries its time and says
      what made it; everything else about them is left alone. */
  lemma StepMarks(h: Frozen.Material -> string, s: State, c: Call)
    requires Fresh(s, c) && EnoughIds(s, c.cmd) && Execute(h, s, c.actor, c.cmd, c.now).error == None
    ensures Marked(s, Execute(h, s, c.actor, c.cmd, c.now).state, c)
  {
    hide Fresh, EnoughIds, Execute, Marked;
    if c.cmd.Submit? {
      SubmitMarks(h, s, c);
    } else if c.cmd.Recalibrate? {
      RecalibrationMarks(h, s, c);
    } else if c.cmd.SendBack? {
      ReturnMarks(h, s, c);
    } else if c.cmd.CreateBatch? || c.cmd.RegisterSensor? || c.cmd.LockProfile? {
      PlanMarks(h, s, c);
    } else {
      ReviewMarks(h, s, c);
    }
  }
}
