/** Runs of the store with crashes at any moment, failed writes and a lost or altered snapshot. */
module Recovery {
  import opened Entities
  import opened Frozen
  import opened Domain
  import opened Invariant
  import opened Runs
  import opened Release
  import opened Commands
  import opened Validation
  import opened Ledger
  import opened Storage
  import opened Durability

  /** The process, running or not, and the disk. */
  datatype System = System(memory: Option<Memory>, disk: Disk)

  /** A crash is a restart that follows whatever the disk holds at the time: a crash between the
      append and the rename of the snapshot is a commit whose save fails and then a restart. */
  datatype Action =
    | Commit(req: Request, appendOk: bool, saveOk: bool)
    | Restart(saveOk: bool)
    | LoseSnapshot
    | AlterSnapshot(file: SavedSnapshot)

  const START := System(None, Disk([], Missing))

  /** A snapshot file that recovery cannot take for something else: where its number and digest are
      those of an event, it holds the projection of that event.  A file that does not decode, has
      another schema, or whose digest or number fits no event, is of this kind. */
  ghost predicate Harmless(file: SavedSnapshot, ledger: seq<Event>) {
    file.Saved? && file.schemaVersion == 1 && file.sequence >= 1 ==>
      && file.sequence <= |ledger|
      && (file.lastDigest == ledger[file.sequence - 1].digest ==>
          file.projection == ledger[file.sequence - 1].projection)
  }

  ghost predicate SavedOk(d: Disk) {
    (d.ledger == [] ==> d.snapshot == Missing) && Harmless(d.snapshot, d.ledger)
  }

  ghost predicate Sound(h: Material -> string, g: Entry -> string, y: System) {
    && ChainOk(g, y.disk.ledger) && Logged(h, y.disk.ledger) && SavedOk(y.disk)
    && (y.memory.Some? ==> y.memory.value == MemoryOf(y.disk.ledger))
  }

  /** Requests draw new identifiers and the clock runs; snapshot files are altered harmlessly. */
  ghost predicate Admissible(y: System, a: Action) {
    && (a.Commit? && y.memory.Some? ==>
          && EnoughIds(y.memory.value.projection, a.req.call.cmd) && a.req.at != 0
          && (a.req.call.actor != "" ==> Fresh(y.memory.value.projection, a.req.call)))
    && (a.AlterSnapshot? ==> Harmless(a.file, y.disk.ledger))
  }

  ghost function Act(h: Material -> string, g: Entry -> string, y: System, a: Action): System {
    match a
    case Commit(req, appendOk, saveOk) =>
      if y.memory.None? || !EnoughIds(y.memory.value.projection, req.call.cmd) then y
      else
        var e := CommitStep(h, g, y.memory.value, y.disk, req, appendOk, saveOk);
        System(Some(e.memory), e.disk)
    case Restart(saveOk) =>
      (match Recover(g, y.disk, saveOk)
       case Recovered(memory, disk) => System(Some(memory), disk)
       case Unrecoverable => System(None, y.disk))
    case LoseSnapshot => y.(disk := y.disk.(snapshot := Missing))
    case AlterSnapshot(file) => if y.disk.snapshot == Missing then y else y.(disk := y.disk.(snapshot := file))
  }

  ghost function ActAll(h: Material -> string, g: Entry -> string, y: System, acts: seq<Action>): System {
    if acts == [] then y else Act(h, g, ActAll(h, g, y, acts[..|acts| - 1]), acts[|acts| - 1])
  }

  ghost predicate AllAdmissible(h: Material -> string, g: Entry -> string, y: System, acts: seq<Action>) {
    acts != [] ==> AllAdmissible(h, g, y, acts[..|acts| - 1]) && Admissible(ActAll(h, g, y, acts[..|acts| - 1]), acts[|acts| - 1])
  }

  // ---------- commits ----------

  /** The event was written: the commit got past every check. */
  ghost predicate Appends(h: Material -> string, g: Entry -> string, m: Memory, d: Disk, req: Request, appendOk: bool,
                          saveOk: bool)
    requires EnoughIds(m.projection, req.call.cmd)
  {
    var z := CommitStep(h, g, m, d, req, appendOk, saveOk);
    (z.answer.Answered? && !z.answer.replayed) || z.answer.NotSaved?
  }

  /** A commit that does not write its event leaves memory and disk exactly as they were, whatever
      the domain code did to its working copy. */
  lemma NoEventNoChange(h: Material -> string, g: Entry -> string, m: Memory, d: Disk, req: Request, appendOk: bool,
                        saveOk: bool)
    requires EnoughIds(m.projection, req.call.cmd) && !Appends(h, g, m, d, req, appendOk, saveOk)
    ensures var z := CommitStep(h, g, m, d, req, appendOk, saveOk); z.memory == m && z.disk == d
  {
    hide Execute, ValidSnapshot, ReplyTo;
  }

  /** A commit that writes its event adds exactly that event, one version above the expected one. */
  lemma EventAdded(h: Material -> string, g: Entry -> string, m: Memory, d: Disk, req: Request, appendOk: bool,
                   saveOk: bool)
    requires Inv(h, m.projection) && EnoughIds(m.projection, req.call.cmd) && Appends(h, g, m, d, req, appendOk, saveOk)
    requires req.call.actor != "" ==> Fresh(m.projection, req.call)
    ensures var z := CommitStep(h, g, m, d, req, appendOk, saveOk);
      var t := Execute(h, m.projection, req.call.actor, req.call.cmd, req.call.now);
      && t.error == None && StepKeeps(h, m.projection, t.state, AggregateOf(req)) && AggregateOf(req) in t.state.batches
      && var e := NewEvent(g, m, req, t.state);
         && z.memory == Remembered(m, e) && z.disk == Stored(d, e, saveOk)
         && e.aggregateVersion == req.expectedVersion + 1 && !Known(m, req)
         && AggregateOf(req) != "" && req.key != "" && req.call.actor != ""
  {
    hide Inv, Fresh, Execute, EnoughIds, ValidSnapshot, ReplyTo;
    ExecuteKeeps(h, m.projection, req.call);
  }

  lemma AddedCaused(h: Material -> string, g: Entry -> string, m: Memory, req: Request)
    requires EnoughIds(m.projection, req.call.cmd) && Fresh(m.projection, req.call)
    requires var t := Execute(h, m.projection, req.call.actor, req.call.cmd, req.call.now); t.error == None && AggregateOf(req) in t.state.batches
    ensures var t := Execute(h, m.projection, req.call.actor, req.call.cmd, req.call.now);
      CausedBy(h, m.projection, NewEvent(g, m, req, t.state), req.call)
  {
    hide Fresh, Execute, EnoughIds, ReplyTo;
  }

  lemma AddedLogged(h: Material -> string, events: seq<Event>, e: Event, c: Call)
    requires Logged(h, events) && CausedBy(h, LastProjection(events), e, c)
    requires e.schemaVersion == 1 && e.aggregateID != "" && e.key != "" && e.at != 0
    requires e.aggregateVersion == VersionOf(e.projection, e.aggregateID)
    requires (e.aggregateID, e.key) !in Idempotency(events)
    ensures Logged(h, events + [e])
    ensures MemoryOf(events + [e]) == Remembered(MemoryOf(events), e)
  {
    hide CausedBy;
    var longer := events + [e];
    assert longer[..|events|] == events;
    TableMeans(h, events, (e.aggregateID, e.key));
    forall j | 0 <= j < |events|
      ensures events[j].aggregateID != e.aggregateID || events[j].key != e.key
    {
      assert !EventWithKey(events, j, (e.aggregateID, e.key));
    }
    forall i | 0 <= i < |longer|
      ensures EventOk(h, longer, i)
    {
      if i < |events| {
        assert EventOk(h, events, i);
        assert longer[..i] == events[..i];
      }
    }
  }

  lemma StoredSaved(d: Disk, e: Event, saveOk: bool)
    requires SavedOk(d) && e.sequence == |d.ledger| + 1
    ensures SavedOk(Stored(d, e, saveOk))
  {
  }

  lemma CommitSound(h: Material -> string, g: Entry -> string, m: Memory, d: Disk, req: Request, appendOk: bool,
                    saveOk: bool)
    requires Sound(h, g, System(Some(m), d)) && Admissible(System(Some(m), d), Commit(req, appendOk, saveOk))
    ensures var z := CommitStep(h, g, m, d, req, appendOk, saveOk); Sound(h, g, System(Some(z.memory), z.disk))
  {
    hide Inv, Fresh, Execute, EnoughIds, CommitStep, ReplyTo, CausedBy, Logged, ChainOk, Appends, SavedOk, Stored,
         StepKeeps, Idempotency;
    var z := CommitStep(h, g, m, d, req, appendOk, saveOk);
    if Appends(h, g, m, d, req, appendOk, saveOk) {
      LoggedInv(h, d.ledger);
      EventAdded(h, g, m, d, req, appendOk, saveOk);
      AddedCaused(h, g, m, req);
      var e := NewEvent(g, m, req, Execute(h, m.projection, req.call.actor, req.call.cmd, req.call.now).state);
      AddedLogged(h, d.ledger, e, req.call);
      AppendKeepsChain(g, d.ledger, e.(digest := ""));
      StoredSaved(d, e, saveOk);
      StoredLedger(d, e, saveOk);
    } else {
      NoEventNoChange(h, g, m, d, req, appendOk, saveOk);
    }
  }

  lemma StoredLedger(d: Disk, e: Event, saveOk: bool)
    ensures Stored(d, e, saveOk).ledger == d.ledger + [e]
  {
  }

  // ---------- recovery ----------

  /** A snapshot file at the position of the last event holds the projection of that event. */
  lemma UpToDateIsLast(d: Disk)
    requires SavedOk(d) && d.ledger != [] && UpToDate(d.snapshot, d.ledger[|d.ledger| - 1])
    requires forall i :: 0 <= i < |d.ledger| ==> d.ledger[i].sequence == i + 1
    ensures d.snapshot.projection == LastProjection(d.ledger)
  {
  }

  lemma ChainSequence(g: Entry -> string, events: seq<Event>)
    requires ChainOk(g, events)
    ensures forall i :: 0 <= i < |events| ==> events[i].sequence == i + 1
  {
    forall i | 0 <= i < |events|
      ensures events[i].sequence == i + 1
    {
      assert LinkOk(g, events, i);
    }
  }

  /** Recovery never refuses what the store has written: it rebuilds exactly the projection, the
      event list and the idempotency table of the events on disk, from a current snapshot, from one
      that does not fit or without one.  Only writing a new snapshot file can fail. */
  lemma RecoverExact(h: Material -> string, g: Entry -> string, y: System, saveOk: bool)
    requires Sound(h, g, y) && Hex(h)
    ensures saveOk ==> Recover(g, y.disk, saveOk).Recovered?
    ensures Recover(g, y.disk, saveOk).Recovered? ==>
      var r := Recover(g, y.disk, saveOk); r.memory == MemoryOf(y.disk.ledger) && r.disk.ledger == y.disk.ledger && SavedOk(r.disk)
  {
    hide Logged, ChainOk, ProjectionsOk, ValidSnapshot, Inv, Hex, Idempotency;
    LoggedAccepted(h, y.disk.ledger);
    ChainSequence(g, y.disk.ledger);
    LoggedInv(h, y.disk.ledger);
    InvValid(h, LastProjection(y.disk.ledger));
    if y.disk.ledger != [] && UpToDate(y.disk.snapshot, y.disk.ledger[|y.disk.ledger| - 1]) {
      UpToDateIsLast(y.disk);
    }
  }

  lemma ActSound(h: Material -> string, g: Entry -> string, y: System, a: Action)
    requires Sound(h, g, y) && Admissible(y, a) && Hex(h)
    ensures Sound(h, g, Act(h, g, y, a))
  {
    hide Logged, ChainOk, Hex, CommitStep, Recover, MemoryOf, EnoughIds, Fresh;
    match a
    case Commit(req, appendOk, saveOk) =>
      if y.memory.Some? {
        CommitSound(h, g, y.memory.value, y.disk, req, appendOk, saveOk);
      }
    case Restart(saveOk) => RecoverExact(h, g, y, saveOk);
    case LoseSnapshot =>
    case AlterSnapshot(_) =>
  }

  lemma {:induction false} ActAllSound(h: Material -> string, g: Entry -> string, y: System, acts: seq<Action>)
    requires Sound(h, g, y) && AllAdmissible(h, g, y, acts) && Hex(h)
    ensures Sound(h, g, ActAll(h, g, y, acts))
  {
    hide Sound, Admissible, Act, Hex;
    if acts != [] {
      ActAllSound(h, g, y, acts[..|acts| - 1]);
      ActSound(h, g, ActAll(h, g, y, acts[..|acts| - 1]), acts[|acts| - 1]);
    }
  }

  ghost predicate Attainable(h: Material -> string, g: Entry -> string, y: System) {
    exists acts :: AllAdmissible(h, g, START, acts) && ActAll(h, g, START, acts) == y
  }

  /** Crash recovery refines the running store: whatever commits, failed writes, lost or
      harmlessly altered snapshots and crashes came before, a restart brings back the projection, the events and the
      keys of exactly the events that were appended, and a running process holds just those. */
  lemma RecoveryRefines(h: Material -> string, g: Entry -> string, y: System)
    requires Attainable(h, g, y) && Hex(h)
    ensures var r := Recover(g, y.disk, true); r.Recovered? && r.memory == MemoryOf(y.disk.ledger) && r.disk.ledger == y.disk.ledger
    ensures y.memory.Some? ==> y.memory.value == MemoryOf(y.disk.ledger)
    ensures ChainOk(g, y.disk.ledger) && ProjectionsOk(y.disk.ledger)
  {
    hide AllAdmissible, ActAll, Recover, ChainOk, Logged, ProjectionsOk, MemoryOf, Hex;
    var acts :| AllAdmissible(h, g, START, acts) && ActAll(h, g, START, acts) == y;
    StartSound(h, g);
    ActAllSound(h, g, START, acts);
    RecoverExact(h, g, y, true);
    LoggedAccepted(h, y.disk.ledger);
  }

  lemma StartSound(h: Material -> string, g: Entry -> string)
    ensures Sound(h, g, START)
  {
  }

  lemma AttainableSound(h: Material -> string, g: Entry -> string, y: System)
    requires Attainable(h, g, y) && Hex(h)
    ensures Sound(h, g, y)
  {
    hide AllAdmissible, ActAll, Sound, Hex;
    var acts :| AllAdmissible(h, g, START, acts) && ActAll(h, g, START, acts) == y;
    StartSound(h, g);
    ActAllSound(h, g, START, acts);
  }

  // ---------- the checks that never fire ----------

  /** Nothing but the checks on the request, the version, the command itself and the two writes decides a commit. */
  ghost predicate DecidedByCommand(h: Material -> string, g: Entry -> string, m: Memory, d: Disk, req: Request,
                                   appendOk: bool, saveOk: bool)
    requires EnoughIds(m.projection, req.call.cmd)
  {
    var z := CommitStep(h, g, m, d, req, appendOk, saveOk);
    var o := Execute(h, m.projection, req.call.actor, req.call.cmd, req.call.now);
    && z.answer != Rejected
    && (AggregateOf(req) != "" && req.call.actor != "" && req.key != "" && !Known(m, req)
        && VersionOf(m.projection, AggregateOf(req)) == req.expectedVersion && o.error == None && appendOk && saveOk
        ==> AggregateOf(req) in o.state.batches
            && z.answer == Answered(ReplyTo(m.projection, o.state, req.call.cmd), false, req.expectedVersion + 1))
  }

  lemma ChecksPass(h: Material -> string, g: Entry -> string, m: Memory, d: Disk, req: Request, appendOk: bool,
                   saveOk: bool)
    requires EnoughIds(m.projection, req.call.cmd)
    requires var o := Execute(h, m.projection, req.call.actor, req.call.cmd, req.call.now);
      req.call.actor != "" && o.error == None ==> ValidSnapshot(o.state) && AggregateOf(req) in o.state.batches
                                                  && VersionOf(o.state, AggregateOf(req)) ==
                                                      VersionOf(m.projection, AggregateOf(req)) + 1
    ensures DecidedByCommand(h, g, m, d, req, appendOk, saveOk)
  {
    hide Execute, EnoughIds, ValidSnapshot, ReplyTo, VersionOf;
  }

  /** In no run does the check of the new projection, or the look-up of the batch in it, stop a commit. */
  lemma NeverRejected(h: Material -> string, g: Entry -> string, y: System, a: Action)
    requires Attainable(h, g, y) && Hex(h) && Admissible(y, a) && a.Commit? && y.memory.Some?
    ensures DecidedByCommand(h, g, y.memory.value, y.disk, a.req, a.appendOk, a.saveOk)
  {
    hide Attainable, Logged, ChainOk, SavedOk, Hex, Execute, Fresh, EnoughIds, ValidSnapshot, Inv, ReplyTo,
         Idempotency, DecidedByCommand, CommitStep;
    AttainableSound(h, g, y);
    var m, req := y.memory.value, a.req;
    LoggedInv(h, y.disk.ledger);
    if req.call.actor != "" {
      ExecuteKeeps(h, m.projection, req.call);
      var o := Execute(h, m.projection, req.call.actor, req.call.cmd, req.call.now);
      if o.error == None {
        InvValid(h, o.state);
      }
    }
    ChecksPass(h, g, m, y.disk, req, a.appendOk, a.saveOk);
  }

  // ---------- exactly once ----------

  /** In every run, crashes and restarts included, no idempotency key of an aggregate has two events. */
  lemma OneEventPerKey(h: Material -> string, g: Entry -> string, y: System, i: nat, j: nat, k: Key)
    requires Attainable(h, g, y) && Hex(h) && EventWithKey(y.disk.ledger, i, k) && EventWithKey(y.disk.ledger, j, k)
    ensures i == j
  {
    hide Attainable, Logged, ChainOk, SavedOk, Hex, MemoryOf;
    AttainableSound(h, g, y);
    ExactlyOnce(h, y.disk.ledger, i, j, k);
  }

  /** In every run the k-th event of an aggregate carries version k. */
  lemma VersionIsOrdinal(h: Material -> string, g: Entry -> string, y: System, i: nat)
    requires Attainable(h, g, y) && Hex(h) && i < |y.disk.ledger|
    ensures y.disk.ledger[i].aggregateVersion == Count(y.disk.ledger[..i], y.disk.ledger[i].aggregateID) + 1
  {
    hide Attainable, Logged, ChainOk, SavedOk, Hex, MemoryOf, Count;
    AttainableSound(h, g, y);
    EventCarriesItsNumber(h, y.disk.ledger, i);
  }

  /** In every run later events of an aggregate carry higher versions. */
  lemma VersionsNeverRepeat(h: Material -> string, g: Entry -> string, y: System, i: nat, j: nat)
    requires Attainable(h, g, y) && Hex(h) && i < j < |y.disk.ledger|
    requires y.disk.ledger[i].aggregateID == y.disk.ledger[j].aggregateID
    ensures y.disk.ledger[i].aggregateVersion < y.disk.ledger[j].aggregateVersion
  {
    hide Attainable, Logged, ChainOk, SavedOk, Hex, MemoryOf;
    AttainableSound(h, g, y);
    VersionsRise(h, y.disk.ledger, i, j);
  }

  /** A request whose key has been used for the same command is answered with the reply of the
      first time, and nothing changes; for another command or other content it is refused. */
  lemma ReplayReturnsFirst(h: Material -> string, g: Entry -> string, y: System, a: Action, i: nat)
    requires Attainable(h, g, y) && Hex(h) && Admissible(y, a) && a.Commit? && y.memory.Some?
    requires AggregateOf(a.req) != "" && a.req.call.actor != "" && a.req.key != ""
    requires EventWithKey(y.disk.ledger, i, KeyOf(a.req))
    ensures var z := CommitStep(h, g, y.memory.value, y.disk, a.req, a.appendOk, a.saveOk);
      var first := y.disk.ledger[i];
      && z.memory == y.memory.value && z.disk == y.disk
      && z.answer == if first.kind == KindOf(a.req.call.cmd) &&
          (first.requestDigest == "" || first.requestDigest == a.req.requestDigest)
                     then Answered(first.reply, true, Count(y.disk.ledger, AggregateOf(a.req))) else Refused(Conflict)
  {
    hide Attainable, Logged, ChainOk, SavedOk, Hex, Execute, Fresh, EnoughIds, ValidSnapshot, ReplyTo, Idempotency,
         Count;
    AttainableSound(h, g, y);
    TableMeans(h, y.disk.ledger, KeyOf(a.req));
    VersionCounts(h, y.disk.ledger, AggregateOf(a.req));
  }

  /** The ledger of a run is never rewritten, only added to. */
  lemma LedgerGrows(h: Material -> string, g: Entry -> string, y: System, a: Action)
    ensures y.disk.ledger <= Act(h, g, y, a).disk.ledger
  {
    hide Execute, ValidSnapshot, ReplyTo, ChainOk, ProjectionsOk, EnoughIds, Idempotency;
  }

  lemma {:induction false} LedgerGrowsAlways(h: Material -> string, g: Entry -> string, y: System, acts: seq<Action>)
    ensures y.disk.ledger <= ActAll(h, g, y, acts).disk.ledger
  {
    hide Act;
    if acts != [] {
      LedgerGrowsAlways(h, g, y, acts[..|acts| - 1]);
      LedgerGrows(h, g, ActAll(h, g, y, acts[..|acts| - 1]), acts[|acts| - 1]);
    }
  }

  ghost predicate Writes(h: Material -> string, g: Entry -> string, y: System, a: Action) {
    && a.Commit? && y.memory.Some? && EnoughIds(y.memory.value.projection, a.req.call.cmd)
    && Appends(h, g, y.memory.value, y.disk, a.req, a.appendOk, a.saveOk)
  }

  /** A commit that writes raises the number of events of its aggregate to one above the version
      the request expected. */
  lemma WriteCounts(h: Material -> string, g: Entry -> string, y: System, a: Action)
    requires Sound(h, g, y) && Admissible(y, a) && Hex(h) && Writes(h, g, y, a)
    ensures Count(y.disk.ledger, AggregateOf(a.req)) == a.req.expectedVersion
    ensures Count(Act(h, g, y, a).disk.ledger, AggregateOf(a.req)) == a.req.expectedVersion + 1
  {
    hide Logged, ChainOk, SavedOk, Hex, Execute, Fresh, EnoughIds, ValidSnapshot, ReplyTo, Inv, Idempotency,
         CommitStep, StepKeeps, Count, Appends, Stored;
    var m := y.memory.value;
    LoggedInv(h, y.disk.ledger);
    EventAdded(h, g, m, y.disk, a.req, a.appendOk, a.saveOk);
    var e := NewEvent(g, m, a.req, Execute(h, m.projection, a.req.call.actor, a.req.call.cmd, a.req.call.now).state);
    StoredLedger(y.disk, e, a.saveOk);
    CountSnoc(y.disk.ledger, e);
    VersionCounts(h, y.disk.ledger, AggregateOf(a.req));
    NewEventVersion(h, g, m, y.disk, a.req, a.appendOk, a.saveOk);
  }

  /** In every run a commit writes its event exactly when the request is complete, its key has no event
      yet, the batch has as many events as the version it expects, the command is accepted on the
      projection of the last event, and the append works. */
  lemma WritesExactly(h: Material -> string, g: Entry -> string, y: System, a: Action)
    requires Attainable(h, g, y) && Hex(h) && Admissible(y, a) && a.Commit? && y.memory.Some?
    requires EnoughIds(LastProjection(y.disk.ledger), a.req.call.cmd)
    ensures Writes(h, g, y, a) <==>
      && CompleteAndNew(y, a.req) && Count(y.disk.ledger, a.req.call.cmd.batchID) == a.req.expectedVersion
      && Execute(h, LastProjection(y.disk.ledger), a.req.call.actor, a.req.call.cmd, a.req.call.now).error == None
      && a.appendOk
  {
    hide Attainable, Logged, ChainOk, SavedOk, Hex, Execute, Fresh, EnoughIds, ValidSnapshot, ReplyTo, Inv, Idempotency,
         StepKeeps, Count, Stored, VersionOf, LastProjection;
    AttainableSound(h, g, y);
    var m, req := y.memory.value, a.req;
    LoggedInv(h, y.disk.ledger);
    TableMeans(h, y.disk.ledger, KeyOf(req));
    VersionCounts(h, y.disk.ledger, AggregateOf(req));
    if req.call.actor != "" {
      AcceptedIsValid(h, m.projection, req);
    }
  }

  lemma AcceptedIsValid(h: Material -> string, s: State, req: Request)
    requires Inv(h, s) && Hex(h) && Fresh(s, req.call) && EnoughIds(s, req.call.cmd)
    ensures var o := Execute(h, s, req.call.actor, req.call.cmd, req.call.now);
      o.error == None ==> ValidSnapshot(o.state) && AggregateOf(req) in o.state.batches
  {
    hide Inv, Hex, Execute, Fresh, EnoughIds, ValidSnapshot;
    ExecuteKeeps(h, s, req.call);
    if Execute(h, s, req.call.actor, req.call.cmd, req.call.now).error == None {
      InvValid(h, Execute(h, s, req.call.actor, req.call.cmd, req.call.now).state);
    }
  }

  /** The event says who asked for what and when, and is linked and sealed. */
  ghost predicate EventSays(g: Entry -> string, e: Event, before: seq<Event>, req: Request, next: State) {
    && e.schemaVersion == 1 && e.sequence == |before| + 1 && e.digest == g(EntryOf(e))
    && e.previousDigest == (if before == [] then "" else before[|before| - 1].digest)
    && e.aggregateID == req.call.cmd.batchID && e.aggregateVersion == req.expectedVersion + 1
    && e.actor == req.call.actor && e.at == req.at && e.key == req.key && e.requestDigest == req.requestDigest
    && e.projection == next
  }

  lemma EndingFields(h: Material -> string, g: Entry -> string, m: Memory, d: Disk, req: Request, appendOk: bool,
                     saveOk: bool) returns (e: Event)
    requires Inv(h, m.projection) && EnoughIds(m.projection, req.call.cmd) && Appends(h, g, m, d, req, appendOk, saveOk)
    requires req.call.actor != "" ==> Fresh(m.projection, req.call)
    ensures EventSays(g, e, m.events, req, Execute(h, m.projection, req.call.actor, req.call.cmd, req.call.now).state)
    ensures var z := CommitStep(h, g, m, d, req, appendOk, saveOk);
      && z.disk.ledger == d.ledger + [e] && z.memory.events == m.events + [e] && z.memory.projection == e.projection
      && z.disk.snapshot == if saveOk then Saved(1, e.sequence, e.digest, e.projection) else d.snapshot
  {
    hide Execute, Fresh, ValidSnapshot, ReplyTo, Inv, StepKeeps, CommitStep, EnoughIds, Appends, NewEvent, Remembered,
         Stored, EntryOf;
    EventAdded(h, g, m, d, req, appendOk, saveOk);
    var next := Execute(h, m.projection, req.call.actor, req.call.cmd, req.call.now).state;
    e := NewEvent(g, m, req, next);
    EventFields(g, m, req, next, e);
    StoredFields(d, e, saveOk);
  }

  /** What a commit that writes leaves in memory and on disk: one more event, which says who asked for
      what and when, under which key, and holds the projection the command leads to; the snapshot file
      follows if it can be written, and stays as it was otherwise. */
  lemma WrittenEvent(h: Material -> string, g: Entry -> string, y: System, a: Action) returns (e: Event)
    requires Attainable(h, g, y) && Hex(h) && Admissible(y, a) && a.Commit? && Writes(h, g, y, a)
    ensures EventSays(g, e, y.disk.ledger, a.req,
        Execute(h, y.memory.value.projection, a.req.call.actor, a.req.call.cmd, a.req.call.now).state)
    ensures var z := Act(h, g, y, a);
      && z.disk.ledger == y.disk.ledger + [e] && z.memory.Some? && z.memory.value.events == z.disk.ledger
      && z.memory.value.projection == e.projection
      && z.disk.snapshot == if a.saveOk then Saved(1, e.sequence, e.digest, e.projection) else y.disk.snapshot
  {
    hide Attainable, Sound, Hex, Execute, Fresh, Inv, CommitStep, EnoughIds, Appends, LastProjection, EventSays, Act,
         Admissible, Writes;
    AttainableSound(h, g, y);
    WritesHere(h, g, y, a);
    RunningMemory(h, g, y);
    e := EndingFields(h, g, y.memory.value, y.disk, a.req, a.appendOk, a.saveOk);
  }

  lemma WritesHere(h: Material -> string, g: Entry -> string, y: System, a: Action)
    requires Admissible(y, a) && a.Commit? && Writes(h, g, y, a)
    ensures y.memory.Some? && EnoughIds(y.memory.value.projection, a.req.call.cmd)
    ensures Appends(h, g, y.memory.value, y.disk, a.req, a.appendOk, a.saveOk)
    ensures a.req.call.actor != "" ==> Fresh(y.memory.value.projection, a.req.call)
    ensures var z := CommitStep(h, g, y.memory.value, y.disk, a.req, a.appendOk, a.saveOk);
      Act(h, g, y, a) == System(Some(z.memory), z.disk)
  {
    hide CommitStep, EnoughIds, Fresh, Appends, Recover, Harmless;
  }

  lemma RunningMemory(h: Material -> string, g: Entry -> string, y: System)
    requires Sound(h, g, y) && y.memory.Some?
    ensures y.memory.value.events == y.disk.ledger && y.memory.value.projection == LastProjection(y.disk.ledger)
    ensures Inv(h, y.memory.value.projection)
  {
    hide Inv, Logged, ChainOk, SavedOk, Idempotency;
    LoggedInv(h, y.disk.ledger);
  }

  lemma EventFields(g: Entry -> string, m: Memory, req: Request, next: State, e: Event)
    requires AggregateOf(req) in next.batches && e == NewEvent(g, m, req, next)
    ensures e.schemaVersion == 1 && e.sequence == |m.events| + 1 && e.digest == g(EntryOf(e))
    ensures e.previousDigest == if |m.events| == 0 then "" else m.events[|m.events| - 1].digest
    ensures e.aggregateID == req.call.cmd.batchID && e.projection == next
    ensures e.actor == req.call.actor && e.at == req.at && e.key == req.key && e.requestDigest == req.requestDigest
    ensures Remembered(m, e).events == m.events + [e] && Remembered(m, e).projection == next
  {
    hide ReplyTo, VersionOf;
  }

  lemma StoredFields(d: Disk, e: Event, saveOk: bool)
    ensures Stored(d, e, saveOk).ledger == d.ledger + [e]
    ensures Stored(d, e, saveOk).snapshot == if saveOk then Saved(1, e.sequence, e.digest, e.projection) else d.snapshot
  {
  }

  /** A request with all its fields under a key without an event. */
  ghost predicate CompleteAndNew(y: System, req: Request) {
    && req.call.cmd.batchID != "" && req.call.actor != "" && req.key != ""
    && forall i: nat :: !EventWithKey(y.disk.ledger, i, (req.call.cmd.batchID, req.key))
  }

  /** What the answer to a commit tells: a first answer means written and saved, a failed save means
      written, and every other answer that nothing has changed; a complete request under a new key
      that expects another version than the batch has is a conflict. */
  lemma AnswerTells(h: Material -> string, g: Entry -> string, y: System, a: Action)
    requires Attainable(h, g, y) && Hex(h) && Admissible(y, a) && a.Commit? && y.memory.Some?
    requires EnoughIds(y.memory.value.projection, a.req.call.cmd)
    ensures var z := CommitStep(h, g, y.memory.value, y.disk, a.req, a.appendOk, a.saveOk);
      && (z.answer.Answered? && !z.answer.replayed <==> Writes(h, g, y, a) && a.saveOk)
      && (z.answer.Answered? && !z.answer.replayed ==> z.answer.version == a.req.expectedVersion + 1)
      && (z.answer == NotSaved <==> Writes(h, g, y, a) && !a.saveOk)
      && (!Writes(h, g, y, a) ==> Act(h, g, y, a) == y)
      && (z.answer == NotAppended ==> !a.appendOk)
      && (CompleteAndNew(y, a.req) && Count(y.disk.ledger, a.req.call.cmd.batchID) != a.req.expectedVersion ==>
            z.answer == Refused(Conflict))
  {
    hide Attainable, Logged, ChainOk, SavedOk, Hex, Execute, Fresh, EnoughIds, ValidSnapshot, ReplyTo, Inv, Idempotency,
         StepKeeps, Count, Stored, VersionOf;
    AttainableSound(h, g, y);
    TableMeans(h, y.disk.ledger, KeyOf(a.req));
    VersionCounts(h, y.disk.ledger, AggregateOf(a.req));
    if !Writes(h, g, y, a) {
      NoEventNoChange(h, g, y.memory.value, y.disk, a.req, a.appendOk, a.saveOk);
    } else {
      LoggedInv(h, y.disk.ledger);
      EventAdded(h, g, y.memory.value, y.disk, a.req, a.appendOk, a.saveOk);
    }
  }

  lemma CountSnoc(events: seq<Event>, e: Event)
    ensures Count(events + [e], e.aggregateID) == Count(events, e.aggregateID) + 1
  {
    assert (events + [e])[..|events|] == events;
  }

  lemma NewEventVersion(h: Material -> string, g: Entry -> string, m: Memory, d: Disk, req: Request, appendOk: bool,
                        saveOk: bool)
    requires EnoughIds(m.projection, req.call.cmd) && Appends(h, g, m, d, req, appendOk, saveOk)
    ensures VersionOf(m.projection, AggregateOf(req)) == req.expectedVersion
  {
    hide Execute, ValidSnapshot, ReplyTo, EnoughIds;
  }

  lemma CountPrefix(xs: seq<Event>, ys: seq<Event>, a: Id)
    requires xs <= ys
    ensures Count(xs, a) <= Count(ys, a)
  {
    assert ys[..|xs|] == xs && ys[..|ys|] == ys;
    CountGrows(ys, a, |xs|, |ys|);
  }

  /** Of two commits that expect the same version of the same batch at most one writes, whatever
      happens between them, crashes included. */
  lemma OneWriterPerVersion(h: Material -> string, g: Entry -> string, y: System, a: Action, between: seq<Action>,
                            b: Action)
    requires Attainable(h, g, y) && Hex(h) && Admissible(y, a) && a.Commit? && Writes(h, g, y, a)
    requires AllAdmissible(h, g, Act(h, g, y, a), between) && Admissible(ActAll(h, g, Act(h, g, y, a), between), b)
    requires b.Commit?
    requires AggregateOf(b.req) == AggregateOf(a.req) && b.req.expectedVersion == a.req.expectedVersion
    ensures !Writes(h, g, ActAll(h, g, Act(h, g, y, a), between), b)
  {
    hide Attainable, Act, ActAll, Admissible, AllAdmissible, Writes, Sound, Hex, Count;
    AttainableSound(h, g, y);
    ActSound(h, g, y, a);
    var z := Act(h, g, y, a);
    ActAllSound(h, g, z, between);
    WriteCounts(h, g, y, a);
    LedgerGrowsAlways(h, g, z, between);
    CountPrefix(z.disk.ledger, ActAll(h, g, z, between).disk.ledger, AggregateOf(a.req));
    if Writes(h, g, ActAll(h, g, z, between), b) {
      WriteCounts(h, g, ActAll(h, g, z, between), b);
    }
  }

  // ---------- altered snapshots ----------

  /** Any valid projection in a snapshot file with the number and digest of the last event is taken
      over, whatever the events say. */
  lemma SnapshotTakenOver(h: Material -> string, g: Entry -> string, y: System, other: State, saveOk: bool)
    requires Attainable(h, g, y) && Hex(h) && y.disk.ledger != [] && ValidSnapshot(other)
    ensures var last := y.disk.ledger[|y.disk.ledger| - 1];
      var d := y.disk.(snapshot := Saved(1, last.sequence, last.digest, other));
      Recover(g, d, saveOk) == Recovered(MemoryOf(y.disk.ledger).(projection := other), d)
  {
    hide Attainable, Logged, ChainOk, ProjectionsOk, ValidSnapshot, Hex, Idempotency, SavedOk;
    AttainableSound(h, g, y);
    LoggedAccepted(h, y.disk.ledger);
  }

  /** For every snapshot file beside a ledger of a run, recovery brings back the projection, events
      and keys of the events exactly when the file is not at the position of the last event with
      another projection. */
  lemma SnapshotTrustedExactly(h: Material -> string, g: Entry -> string, y: System, file: SavedSnapshot)
    requires Attainable(h, g, y) && Hex(h) && y.disk.ledger != []
    ensures var last := y.disk.ledger[|y.disk.ledger| - 1];
      var r := Recover(g, y.disk.(snapshot := file), true);
      r.Recovered? && r.memory == MemoryOf(y.disk.ledger) <==>
          !(UpToDate(file, last) && file.projection != last.projection)
  {
    hide Attainable, Logged, ChainOk, ProjectionsOk, ValidSnapshot, Inv, Hex, Idempotency, SavedOk;
    AttainableSound(h, g, y);
    LoggedAccepted(h, y.disk.ledger);
    LoggedInv(h, y.disk.ledger);
    InvValid(h, LastProjection(y.disk.ledger));
  }

  // ---------- truncated and altered ledgers ----------

  /** What start-up does with a ledger that has lost events at its end: the snapshot file decides
      nothing unless nothing is left.  A file cut back to some first events is accepted and the
      service runs on from there; only an empty ledger beside a snapshot file is refused. */
  lemma TruncationOutcome(h: Material -> string, g: Entry -> string, y: System, n: nat)
    requires Attainable(h, g, y) && Hex(h) && n <= |y.disk.ledger|
    ensures var r := Recover(g, Disk(y.disk.ledger[..n], y.disk.snapshot), true);
      && (r == Unrecoverable <==> n == 0 && y.disk.snapshot != Missing)
      && (r.Recovered? ==> r.memory == MemoryOf(y.disk.ledger[..n]))
  {
    hide Attainable, Logged, ChainOk, ProjectionsOk, ValidSnapshot, Inv, Hex, Idempotency;
    AttainableSound(h, g, y);
    var cut := y.disk.ledger[..n];
    PrefixesAccepted(g, y.disk.ledger, n);
    LoggedPrefix(h, y.disk.ledger, n);
    LoggedAccepted(h, cut);
    ChainSequence(g, y.disk.ledger);
    LoggedInv(h, cut);
    InvValid(h, LastProjection(cut));
    if n > 0 && UpToDate(y.disk.snapshot, cut[n - 1]) {
      assert y.disk.snapshot.sequence == n;
      assert cut[n - 1] == y.disk.ledger[n - 1];
    }
  }

  /** Start-up accepts nothing but a valid chain with valid projections, and runs on its events. */
  lemma RecoveredIsChecked(g: Entry -> string, d: Disk, saveOk: bool)
    requires Recover(g, d, saveOk).Recovered?
    ensures var r := Recover(g, d, saveOk);
      && r.memory.events == d.ledger == r.disk.ledger && (d.ledger != [] ==> ValidSnapshot(r.memory.projection))
      && (forall i :: 0 <= i < |d.ledger| ==>
          d.ledger[i].sequence == i + 1 && d.ledger[i].digest == g(EntryOf(d.ledger[i])))
      && (forall i :: 0 < i < |d.ledger| ==> d.ledger[i].previousDigest == d.ledger[i - 1].digest)
      && forall i, j :: 0 <= i < j < |d.ledger| && d.ledger[i].aggregateID == d.ledger[j].aggregateID ==>
           d.ledger[i].aggregateVersion < d.ledger[j].aggregateVersion
  {
    hide ValidSnapshot, Idempotency, ProjectionsOk;
    forall i | 0 <= i < |d.ledger|
      ensures d.ledger[i].sequence == i + 1 && d.ledger[i].digest == g(EntryOf(d.ledger[i]))
      ensures i > 0 ==> d.ledger[i].previousDigest == d.ledger[i - 1].digest
    {
      assert LinkOk(g, d.ledger, i);
    }
    forall i, j | 0 <= i < j < |d.ledger| && d.ledger[i].aggregateID == d.ledger[j].aggregateID
      ensures d.ledger[i].aggregateVersion < d.ledger[j].aggregateVersion
    {
      ProjectionsOrdered(d.ledger, i, j);
    }
  }

  /** A ledger file that ends in the digest the store last wrote is accepted only if it is the ledger
      of the store, event by event, unless two different entries with one digest have been found. */
  lemma RecoveredIsOurs(h: Material -> string, g: Entry -> string, y: System, onDisk: seq<Event>, file: SavedSnapshot,
                        saveOk: bool)
    requires Attainable(h, g, y) && Hex(h) && y.disk.ledger != [] && onDisk != []
    requires LastDigest(onDisk) == LastDigest(y.disk.ledger) && Recover(g, Disk(onDisk, file), saveOk).Recovered?
    ensures onDisk == y.disk.ledger || ChainCollision(g, onDisk, y.disk.ledger) ||
        LastCollision(g, onDisk, y.disk.ledger)
  {
    hide Attainable, Logged, ChainOk, SavedOk, Hex, Idempotency, ProjectionsOk, ValidSnapshot;
    AttainableSound(h, g, y);
    ChainUniqueByDigest(g, onDisk, y.disk.ledger);
  }

  /** The comparison a read makes between the ledger file and memory: number of events and last digest. */
  predicate ReadAccepted(m: Memory, onDisk: seq<Event>) {
    |onDisk| == |m.events| && LastDigest(onDisk) == LastDigest(m.events)
  }

  /** A ledger file that is a valid chain and passes that comparison is the ledger in memory, event
      by event, unless two different entries with one digest have been found. */
  lemma AlteredLedgerDetected(h: Material -> string, g: Entry -> string, y: System, onDisk: seq<Event>)
    requires Attainable(h, g, y) && Hex(h) && y.memory.Some? && ReadAccepted(y.memory.value, onDisk)
    requires ChainOk(g, onDisk)
    ensures onDisk == y.memory.value.events || ChainCollision(g, onDisk, y.memory.value.events)
  {
    hide Attainable, Logged, ChainOk, SavedOk, Hex, Idempotency;
    AttainableSound(h, g, y);
    ChainUnique(g, onDisk, y.disk.ledger);
  }
}
