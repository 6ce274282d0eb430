/** Runs of the service over any number of batches, and the invariant of all of them. */
module Runs {
  import opened Entities
  import Evidence
  import opened Frozen
  import Text
  import opened Domain
  import opened Invariant
  import StatusChange
  import Submission
  import Preservation
  import Renewal
  import opened Reviewing

  datatype Call = Call(actor: string, cmd: Command, now: Time)

  /** The identifiers drawn for a command are new, the clock runs, there is an actor, and a submission
      that is not a batched one has one point. */
  ghost predicate Fresh(s: State, c: Call) {
    && c.actor != "" && c.now != 0 && EnoughIds(s, c.cmd)
    && match c.cmd
       case CreateBatch(_, _, _) => true
       case RegisterSensor(_, id, _, _, _, _, _) => id !in s.sensors
       case LockProfile(_, id, _, _, _, _, _) => id != "" && id !in s.profiles
       case Submit(_, _, items, batched) => Submission.FreshItems(s, items) && (batched || |items| == 1)
       case Recalibrate(_, _, id, _, taskIDs) => id !in s.sensors && Text.Distinct(taskIDs) &&
           forall i :: 0 <= i < |taskIDs| ==> taskIDs[i] !in s.tasks
       case Approve(_, _, _) => true
       case SendBack(_, _, corrections) => FreshCorrections(corrections)
       case Resubmit(_, _) => true
       case Issue(_, id) => id !in s.credentials
  }

  ghost function VersionOf(s: State, b: Id): int {
    if b in s.batches then s.batches[b].version else 0
  }

  /** A successful command keeps the invariant, raises the version of its own batch by exactly
      one and leaves everything every other batch owns as it was. */
  ghost predicate StepKeeps(h: Material -> string, s: State, t: State, b: Id) {
    && Inv(h, t) && StatusChange.OthersKept(s, t, b)
    && t.batches.Keys == s.batches.Keys + {b} && VersionOf(t, b) == VersionOf(s, b) + 1
  }

  lemma ExecuteKeeps(h: Material -> string, s: State, c: Call)
    requires Inv(h, s) && Fresh(s, c)
    ensures var o := Execute(h, s, c.actor, c.cmd, c.now);
      o.error == None ==> StepKeeps(h, s, o.state, c.cmd.batchID)
  {
    hide Inv, StatusChange.OthersKept;
    hide CreateBatchStep, RegisterSensorStep, LockProfileStep, SubmitStep, RecalibrateStep, ApproveReviewStep,
         ReturnStep, ResubmitStep, IssueStep;
    hide Submission.FreshItems, FreshCorrections, Text.Distinct;
    if Execute(h, s, c.actor, c.cmd, c.now).error == None {
      match c.cmd
      case CreateBatch(b, stationCode, title) => Preservation.CreateKeeps(h, s, b, stationCode, title, c.actor, c.now);
      case RegisterSensor(b, id, code, metric, unit, lo, hi) => Preservation.RegisterKeeps(h, s, b, id, code, metric,
          unit, lo, hi, c.now);
      case LockProfile(b, id, points, reps, at, rt, rl) => Preservation.LockKeeps(h, s, b, id, points, reps, at, rt,
          rl, c.now);
      case Submit(b, x, items, _) =>
        SubmitAccepted(s, b, x, c.actor, items, c.now);
        Submission.SubmitKeeps(h, s, b, x, c.actor, items, c.now);
      case Recalibrate(b, before, id, note, taskIDs) =>
        RecalibrateAccepted(s, b, before, id, note, taskIDs, c.now);
        Renewal.RecalibrateKeeps(h, s, b, before, id, note, taskIDs, c.now);
      case Approve(b, comment, _) => ApproveKeeps(h, s, b, c.actor, comment, c.now);
      case SendBack(b, comment, corrections) => ReturnKeeps(h, s, b, c.actor, comment, corrections, c.now);
      case Resubmit(b, comment) => ResubmitKeeps(h, s, b, c.actor, comment, c.now);
      case Issue(b, id) => IssueKeeps(h, s, b, id, c.actor, c.now);
    }
  }

  lemma SubmitAccepted(s: State, b: Id, x: Id, actor: string, items: seq<Reading>, now: Time)
    requires Supplied(items) && SubmitStep(s, b, x, actor, items, now).error == None
    ensures SubmitError(s, b, x, actor, items) == None && b in s.batches
  {
  }

  lemma RecalibrateAccepted(s: State, b: Id, before: Id, id: Id, note: string, taskIDs: seq<Id>, now: Time)
    requires Evidence.ProfileOf(s, b).Some? ==> |taskIDs| >= |Evidence.ProfileOf(s, b).value.points|
    requires RecalibrateStep(s, b, before, id, note, taskIDs, now).error == None
    ensures RecalibrateSensorStep(s, b, before, id, note, now).error == None
  {
  }

  // ---------- runs ----------

  /** A command that fails changes nothing: the copy it worked on is dropped. */
  ghost function Step(h: Material -> string, s: State, c: Call): State {
    if EnoughIds(s, c.cmd) && Execute(h, s, c.actor, c.cmd, c.now).error == None
    then Execute(h, s, c.actor, c.cmd, c.now).state else s
  }

  ghost function RunFrom(h: Material -> string, s: State, calls: seq<Call>): State {
    if calls == [] then s else Step(h, RunFrom(h, s, calls[..|calls| - 1]), calls[|calls| - 1])
  }

  ghost predicate FreshFrom(h: Material -> string, s: State, calls: seq<Call>) {
    calls != [] ==>
      FreshFrom(h, s, calls[..|calls| - 1]) && Fresh(RunFrom(h, s, calls[..|calls| - 1]), calls[|calls| - 1])
  }

  ghost predicate Reaches(h: Material -> string, s: State, calls: seq<Call>, t: State) {
    FreshFrom(h, s, calls) && RunFrom(h, s, calls) == t
  }

  ghost predicate Reachable(h: Material -> string, t: State) {
    exists calls :: Reaches(h, EMPTY, calls, t)
  }

  lemma {:induction false} RunKeeps(h: Material -> string, s: State, calls: seq<Call>)
    requires Inv(h, s) && FreshFrom(h, s, calls)
    ensures Inv(h, RunFrom(h, s, calls))
  {
    hide Inv, Fresh, StatusChange.OthersKept, Execute;
    if calls != [] {
      var before := RunFrom(h, s, calls[..|calls| - 1]);
      RunKeeps(h, s, calls[..|calls| - 1]);
      ExecuteKeeps(h, before, calls[|calls| - 1]);
    }
  }

  /** Every state of every run satisfies the invariant. */
  lemma ReachableInv(h: Material -> string, t: State)
    requires Reachable(h, t)
    ensures Inv(h, t)
  {
    hide Inv, FreshFrom, RunFrom;
    var calls :| Reaches(h, EMPTY, calls, t);
    EmptyInv(h);
    RunKeeps(h, EMPTY, calls);
  }

  lemma {:induction false} RunConcat(h: Material -> string, s: State, a: seq<Call>, b: seq<Call>)
    requires FreshFrom(h, s, a) && FreshFrom(h, RunFrom(h, s, a), b)
    ensures Reaches(h, s, a + b, RunFrom(h, RunFrom(h, s, a), b))
  {
    hide Step, Fresh;
    if b == [] {
      assert a + b == a;
    } else {
      RunConcat(h, s, a, b[..|b| - 1]);
      assert (a + b)[..|a + b| - 1] == a + b[..|b| - 1];
    }
  }

  lemma ReachNext(h: Material -> string, s: State, c: Call)
    requires Reachable(h, s) && Fresh(s, c)
    ensures Reachable(h, Step(h, s, c))
  {
    hide Fresh, Step;
    var calls :| Reaches(h, EMPTY, calls, s);
    assert (calls + [c])[..|calls|] == calls;
    assert Reaches(h, EMPTY, calls + [c], Step(h, s, c));
  }

  /** A batch that a step does not name is untouched, entity by entity. */
  lemma StepFrame(h: Material -> string, s: State, c: Call, other: Id)
    requires Inv(h, s) && Fresh(s, c) && other != c.cmd.batchID
    ensures SameBatch(s, Step(h, s, c), other)
  {
    hide Inv, Fresh, Execute, SameBatch;
    ExecuteKeeps(h, s, c);
    if Step(h, s, c) == s {
      Submission.SameBatchReflexive(s, other);
    }
  }
}
