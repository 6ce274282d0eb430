/** When a batch that is still a draft can be released at all. */
module Drafts {
  import opened Entities
  import Evidence
  import opened Frozen
  import Text
  import opened Domain
  import opened Invariant
  import Submission
  import StatusChange
  import Reviewing
  import opened Runs
  import Release

  ghost predicate IsDraft(s: State, b: Id) {
    b in s.batches && s.batches[b].status == Draft
  }

  ghost predicate Owns(s: State, b: Id, x: Id) {
    x in s.sensors && s.sensors[x].batchID == b
  }

  /** Every two ranges of the batch overlap in more than a point. */
  ghost predicate RangesMeet(s: State, b: Id) {
    forall x, y :: Owns(s, b, x) && Owns(s, b, y) ==> s.sensors[x].rangeMin < s.sensors[y].rangeMax
  }

  // ---------- ranges that do not meet ----------

  lemma DraftCurrent(s: State, b: Id, x: Id)
    requires DraftsPlain(s) && IsDraft(s, b) && Owns(s, b, x)
    ensures Evidence.IsCurrent(s, x, b)
  {
  }

  lemma SortedSpread(points: seq<real>)
    requires |points| >= 2 && !Repeats(SortPoints(points))
    ensures var sorted := SortPoints(points); sorted[0] < sorted[|sorted| - 1]
  {
    var sorted := SortPoints(points);
    SortPointsSorts(points);
    assert sorted[1] != sorted[0];
  }

  lemma AcceptedCovers(s: State, b: Id, id: Id, points: seq<real>, reps: int, at: real, rt: real, rl: real, now: Time,
                       x: Id)
    requires LockProfileStep(s, b, id, points, reps, at, rt, rl, now).error == None && Evidence.IsCurrent(s, x, b)
    ensures |points| >= 2 && !Repeats(SortPoints(points)) && InRange(s.sensors[x], SortPoints(points))
  {
    hide SortPoints, Repeats;
  }

  lemma ApartCannotLock(s: State, b: Id, id: Id, points: seq<real>, reps: int, at: real, rt: real, rl: real, now: Time)
    requires DraftsPlain(s) && IsDraft(s, b) && !RangesMeet(s, b)
    ensures LockProfileStep(s, b, id, points, reps, at, rt, rl, now).error != None
  {
    hide SortPoints;
    var x, y :| Owns(s, b, x) && Owns(s, b, y) && s.sensors[x].rangeMin >= s.sensors[y].rangeMax;
    DraftCurrent(s, b, x);
    DraftCurrent(s, b, y);
    if LockProfileStep(s, b, id, points, reps, at, rt, rl, now).error == None {
      AcceptedCovers(s, b, id, points, reps, at, rt, rl, now, x);
      AcceptedCovers(s, b, id, points, reps, at, rt, rl, now, y);
      SortedSpread(points);
    }
  }

  lemma ApartRegisters(s: State, t: State, b: Id)
    requires !RangesMeet(s, b) && forall x :: x in s.sensors ==> x in t.sensors && t.sensors[x] == s.sensors[x]
    ensures !RangesMeet(t, b)
  {
    var x, y :| Owns(s, b, x) && Owns(s, b, y) && s.sensors[x].rangeMin >= s.sensors[y].rangeMax;
    assert Owns(t, b, x) && Owns(t, b, y);
  }

  /** Of the commands on a draft only the registration of a sensor succeeds while ranges lie apart. */
  lemma ApartOwnStep(h: Material -> string, s: State, c: Call)
    requires DraftsPlain(s) && Fresh(s, c) && IsDraft(s, c.cmd.batchID) && !RangesMeet(s, c.cmd.batchID)
    ensures IsDraft(Step(h, s, c), c.cmd.batchID) && !RangesMeet(Step(h, s, c), c.cmd.batchID)
  {
    hide LockProfileStep, DraftsPlain, Submission.FreshItems, Reviewing.FreshCorrections, Evidence.NoOpen,
        CorrectionsFail, MaterialOf, RangesMeet,
         CodeRegistered;
    match c.cmd
    case LockProfile(b, id, points, reps, at, rt, rl) => ApartCannotLock(s, b, id, points, reps, at, rt, rl, c.now);
    case RegisterSensor(b, id, code, metric, unit, lo, hi) =>
      if Step(h, s, c) != s {
        ApartRegisters(s, Step(h, s, c), b);
      }
    case _ =>
  }

  lemma ApartFrame(s: State, t: State, b: Id)
    requires SameBatch(s, t, b) && IsDraft(s, b) && !RangesMeet(s, b)
    ensures IsDraft(t, b) && !RangesMeet(t, b)
  {
    var x, y :| Owns(s, b, x) && Owns(s, b, y) && s.sensors[x].rangeMin >= s.sensors[y].rangeMax;
    assert Owns(t, b, x) && Owns(t, b, y);
  }

  lemma InvDrafts(h: Material -> string, s: State)
    requires Inv(h, s)
    ensures DraftsPlain(s) && SensorsOk(s)
  {
    hide History, TaskIndex, StatusOk, CredentialsOk, CredentialsUnique;
  }

  lemma {:induction false} ApartForever(h: Material -> string, s: State, b: Id, calls: seq<Call>)
    requires Inv(h, s) && FreshFrom(h, s, calls) && IsDraft(s, b) && !RangesMeet(s, b)
    ensures IsDraft(RunFrom(h, s, calls), b) && !RangesMeet(RunFrom(h, s, calls), b)
  {
    hide Inv, Fresh, Step, RangesMeet, IsDraft, DraftsPlain, SameBatch;
    if calls != [] {
      var c := calls[|calls| - 1];
      var before := RunFrom(h, s, calls[..|calls| - 1]);
      ApartForever(h, s, b, calls[..|calls| - 1]);
      RunKeeps(h, s, calls[..|calls| - 1]);
      InvDrafts(h, before);
      if c.cmd.batchID == b {
        ApartOwnStep(h, before, c);
      } else {
        StepFrame(h, before, c, b);
        ApartFrame(before, Step(h, before, c), b);
      }
    }
  }

  // ---------- ranges that meet ----------

  ghost function Owned(s: State, b: Id): set<Id> {
    set x | x in s.sensors && s.sensors[x].batchID == b
  }

  lemma {:induction false} GreatestLow(s: State, xs: set<Id>) returns (x: Id)
    requires xs != {} && xs <= s.sensors.Keys
    ensures x in xs && forall y :: y in xs ==> s.sensors[y].rangeMin <= s.sensors[x].rangeMin
  {
    x :| x in xs;
    if xs - {x} != {} {
      var y := GreatestLow(s, xs - {x});
      x := if s.sensors[y].rangeMin > s.sensors[x].rangeMin then y else x;
    } else {
      assert xs == {x};
    }
  }

  lemma {:induction false} LeastHigh(s: State, xs: set<Id>) returns (x: Id)
    requires xs != {} && xs <= s.sensors.Keys
    ensures x in xs && forall y :: y in xs ==> s.sensors[x].rangeMax <= s.sensors[y].rangeMax
  {
    x :| x in xs;
    if xs - {x} != {} {
      var y := LeastHigh(s, xs - {x});
      x := if s.sensors[y].rangeMax < s.sensors[x].rangeMax then y else x;
    } else {
      assert xs == {x};
    }
  }

  lemma PairSorted(lo: real, hi: real)
    requires lo < hi
    ensures SortPoints([lo, hi]) == [lo, hi]
  {
    assert [lo, hi][1..] == [hi];
    assert SortPoints([hi]) == [hi];
  }

  ghost predicate LocksPlan(h: Material -> string, s: State, c: Call, b: Id) {
    && Fresh(s, c) && c.cmd.batchID == b && EnoughIds(s, c.cmd) && Execute(h, s, c.actor, c.cmd, c.now).error == None
    && var t := Execute(h, s, c.actor, c.cmd, c.now).state; b in t.batches && t.batches[b].status == PlanLocked
  }

  lemma LockCall(h: Material -> string, s: State, b: Id) returns (c: Call)
    requires IsDraft(s, b) && s.batches[b].sensorIDs != [] && Owned(s, b) != {} && RangesMeet(s, b)
    ensures LocksPlan(h, s, c, b) && c.cmd.LockProfile?
  {
    var low := GreatestLow(s, Owned(s, b));
    var high := LeastHigh(s, Owned(s, b));
    var lo, hi := s.sensors[low].rangeMin, s.sensors[high].rangeMax;
    assert Owns(s, b, low) && Owns(s, b, high);
    PairSorted(lo, hi);
    var ids := Text.UnusedExist(s.profiles.Keys, 1);
    c := Call("planner", LockProfile(b, ids[0], [lo, hi], 2, 0.0, 0.0, 0.0), 1);
    hide SortPoints;
    forall x | Evidence.IsCurrent(s, x, b)
      ensures InRange(s.sensors[x], [lo, hi])
    {
      assert x in Owned(s, b);
    }
  }

  lemma RegisterCall(h: Material -> string, s: State, b: Id) returns (c: Call)
    requires IsDraft(s, b) && Owned(s, b) == {}
    ensures c.cmd.RegisterSensor? && Fresh(s, c) && c.cmd.batchID == b && EnoughIds(s, c.cmd)
    ensures Execute(h, s, c.actor, c.cmd, c.now).error == None
    ensures var t := Execute(h, s, c.actor, c.cmd, c.now).state;
      IsDraft(t, b) && t.batches[b].sensorIDs != [] && Owned(t, b) != {} && RangesMeet(t, b)
  {
    hide Text.Blank;
    Release.NoteNotBlank();
    var ids := Text.UnusedExist(s.sensors.Keys, 1);
    c := Call("planner", RegisterSensor(b, ids[0], "n", "n", "n", 0.0, 1.0), 1);
    forall x | x in s.sensors
      ensures s.sensors[x].batchID != b
    {
      assert x !in Owned(s, b);
    }
    var t := Execute(h, s, c.actor, c.cmd, c.now).state;
    assert ids[0] in Owned(t, b);
  }

  lemma LockedReleasable(h: Material -> string, s: State, b: Id) returns (calls: seq<Call>)
    requires Inv(h, s) && IsDraft(s, b) && s.batches[b].sensorIDs != [] && Owned(s, b) != {} && RangesMeet(s, b)
    ensures FreshFrom(h, s, calls)
    ensures var t := RunFrom(h, s, calls); b in t.batches && t.batches[b].status == Released
  {
    hide Inv, Fresh, Execute, RangesMeet, Owned, FreshFrom, RunFrom, StatusChange.OthersKept;
    var c := LockCall(h, s, b);
    ExecuteKeeps(h, s, c);
    Release.SingleCall(h, s, c);
    var t := Execute(h, s, c.actor, c.cmd, c.now).state;
    var rest := Release.ReleasableFrom(h, t, b);
    RunConcat(h, s, [c], rest);
    calls := [c] + rest;
  }

  lemma MeetingReleasable(h: Material -> string, s: State, b: Id) returns (calls: seq<Call>)
    requires Inv(h, s) && IsDraft(s, b) && RangesMeet(s, b)
    ensures FreshFrom(h, s, calls)
    ensures var t := RunFrom(h, s, calls); b in t.batches && t.batches[b].status == Released
  {
    hide Inv, Fresh, Execute, RangesMeet, Owned, FreshFrom, RunFrom, StatusChange.OthersKept;
    if Owned(s, b) == {} {
      var c := RegisterCall(h, s, b);
      ExecuteKeeps(h, s, c);
      Release.SingleCall(h, s, c);
      var rest := LockedReleasable(h, Execute(h, s, c.actor, c.cmd, c.now).state, b);
      RunConcat(h, s, [c], rest);
      calls := [c] + rest;
    } else {
      OwnedListed(h, s, b);
      calls := LockedReleasable(h, s, b);
    }
  }

  lemma OwnedListed(h: Material -> string, s: State, b: Id)
    requires Inv(h, s) && b in s.batches && Owned(s, b) != {}
    ensures s.batches[b].sensorIDs != []
  {
    hide History, TaskIndex, StatusOk, CredentialsOk, CredentialsUnique;
    var x :| x in Owned(s, b);
    assert x in s.batches[b].sensorIDs;
  }

  ghost predicate CanRelease(h: Material -> string, s: State, b: Id) {
    exists calls :: FreshFrom(h, s, calls) && ReleasedIn(RunFrom(h, s, calls), b)
  }

  ghost predicate ReleasedIn(s: State, b: Id) {
    b in s.batches && s.batches[b].status == Released
  }

  /** A draft can be released exactly when every two of its sensors have ranges that overlap in
      more than a point; nothing ever takes a sensor out of a draft, so otherwise it is a dead end. */
  lemma DraftReleasableExactly(h: Material -> string, s: State, b: Id)
    requires Reachable(h, s) && IsDraft(s, b)
    ensures CanRelease(h, s, b) <==> RangesMeet(s, b)
  {
    hide Reachable, Inv, FreshFrom, RunFrom, RangesMeet;
    ReachableInv(h, s);
    if RangesMeet(s, b) {
      var calls := MeetingReleasable(h, s, b);
    }
    if CanRelease(h, s, b) && !RangesMeet(s, b) {
      var calls :| FreshFrom(h, s, calls) && ReleasedIn(RunFrom(h, s, calls), b);
      ApartForever(h, s, b, calls);
    }
  }
}
