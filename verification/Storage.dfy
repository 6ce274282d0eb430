/** The commit protocol: one state of memory and one of the disk, a commit that may fail at the
    append or at the snapshot, and a restart that recovers from the disk alone. */
module Storage {
  import opened Entities
  import Frozen
  import opened Domain
  import Runs
  import opened Commands
  import Validation
  import opened Ledger

  datatype SavedSnapshot = Missing | Damaged | Saved(schemaVersion: int, sequence: int, lastDigest: string,
      projection: State)

  datatype Disk = Disk(ledger: seq<Event>, snapshot: SavedSnapshot)

  datatype KeyRecord = KeyRecord(aggregateID: Id, command: string, requestDigest: string, reply: Reply)

  type Key = (Id, string)

  datatype Memory = Memory(projection: State, events: seq<Event>, idempotency: map<Key, KeyRecord>)

  datatype Request = Request(call: Runs.Call, expectedVersion: int, key: string, requestDigest: string, at: Time)

  /** How a commit ends.  `Rejected` is the check of the new projection failing, `NotAppended` and
      `NotSaved` are failed writes before and after the event became durable. */
  datatype Answer =
    | Answered(reply: Reply, replayed: bool, version: int)
    | Refused(error: Error)
    | Rejected
    | NotAppended
    | NotSaved

  function KindOf(cmd: Command): string {
    match cmd
    case CreateBatch(_, _, _) => "batch.created"
    case RegisterSensor(_, _, _, _, _, _, _) => "sensor.registered"
    case LockProfile(_, _, _, _, _, _, _) => "profile.locked"
    case Submit(_, _, _, batched) => if batched then "measurements.batch_submitted" else "measurement.submitted"
    case Recalibrate(_, _, _, _, _) => "sensor.recalibrated"
    case Approve(_, _, _) => "review.approve"
    case SendBack(_, _, _) => "review.return"
    case Resubmit(_, _) => "review.resubmitted"
    case Issue(_, _) => "credential.issued"
  }

  function AggregateOf(req: Request): Id {
    req.call.cmd.batchID
  }

  function KeyOf(req: Request): Key {
    (AggregateOf(req), req.key)
  }

  // ---------- memory as a function of the ledger ----------

  function LastProjection(events: seq<Event>): State {
    if events == [] then EMPTY else events[|events| - 1].projection
  }

  function KeyRecordOf(e: Event): KeyRecord {
    KeyRecord(e.aggregateID, e.kind, e.requestDigest, e.reply)
  }

  function Idempotency(events: seq<Event>): map<Key, KeyRecord> {
    if events == [] then map[]
    else
      var e := events[|events| - 1];
      var earlier := Idempotency(events[..|events| - 1]);
      if e.key == "" then earlier else earlier[(e.aggregateID, e.key) := KeyRecordOf(e)]
  }

  function MemoryOf(events: seq<Event>): Memory {
    Memory(LastProjection(events), events, Idempotency(events))
  }

  // ---------- committing ----------

  ghost function NewEvent(g: Entry -> string, m: Memory, req: Request, next: State): Event
    requires AggregateOf(req) in next.batches
  {
    Sealing(g, Event(1, |m.events| + 1, AggregateOf(req), Runs.VersionOf(next, AggregateOf(req)), KindOf(req.call.cmd),
        req.call.actor, req.at,
                     req.key, req.requestDigest, LastDigest(m.events), next,
                         ReplyTo(m.projection, next, req.call.cmd), ""))
  }

  function Snapped(e: Event): SavedSnapshot {
    Saved(1, e.sequence, e.digest, e.projection)
  }

  ghost predicate Known(m: Memory, req: Request) {
    KeyOf(req) in m.idempotency
  }

  ghost function ReplayAnswer(m: Memory, req: Request): Answer
    requires Known(m, req)
  {
    var kept := m.idempotency[KeyOf(req)];
    if kept.command != KindOf(req.call.cmd) then Refused(Conflict)
    else if kept.requestDigest != "" && kept.requestDigest != req.requestDigest then Refused(Conflict)
    else Answered(kept.reply, true, Runs.VersionOf(m.projection, AggregateOf(req)))
  }

  datatype Ending = Ending(memory: Memory, disk: Disk, answer: Answer)

  ghost function CommitStep(h: Frozen.Material -> string, g: Entry -> string, m: Memory, d: Disk, req: Request,
                            appendOk: bool, saveOk: bool): Ending
    requires EnoughIds(m.projection, req.call.cmd)
  {
    if AggregateOf(req) == "" || req.call.actor == "" || req.key == "" then Ending(m, d, Refused(Validation))
    else if Known(m, req) then Ending(m, d, ReplayAnswer(m, req))
    else if Runs.VersionOf(m.projection, AggregateOf(req)) != req.expectedVersion then Ending(m, d, Refused(Conflict))
    else
      var o := Execute(h, m.projection, req.call.actor, req.call.cmd, req.call.now);
      if o.error.Some? then Ending(m, d, Refused(o.error.value))
      else if !Validation.ValidSnapshot(o.state) then Ending(m, d, Rejected)
      else if AggregateOf(req) !in o.state.batches then Ending(m, d, Refused(Validation))
      else
        var e := NewEvent(g, m, req, o.state);
        if !appendOk then Ending(m, d, NotAppended)
        else Ending(Remembered(m, e), Stored(d, e, saveOk), if saveOk then
            Answered(e.reply, false, e.aggregateVersion) else NotSaved)
  }

  ghost function Remembered(m: Memory, e: Event): Memory {
    Memory(e.projection, m.events + [e], m.idempotency[(e.aggregateID, e.key) := KeyRecordOf(e)])
  }

  function Stored(d: Disk, e: Event, saveOk: bool): Disk {
    Disk(d.ledger + [e], if saveOk then Snapped(e) else d.snapshot)
  }

  // ---------- recovery ----------

  datatype Startup = Recovered(memory: Memory, disk: Disk) | Unrecoverable

  ghost predicate UpToDate(s: SavedSnapshot, last: Event) {
    s.Saved? && s.schemaVersion == 1 && s.sequence == last.sequence && s.lastDigest == last.digest
  }

  ghost function Recover(g: Entry -> string, d: Disk, saveOk: bool): Startup {
    if !ChainOk(g, d.ledger) || !ProjectionsOk(d.ledger) then Unrecoverable
    else if d.ledger == [] then
      if d.snapshot == Missing then Recovered(MemoryOf([]), d) else Unrecoverable
    else
      var last := d.ledger[|d.ledger| - 1];
      if UpToDate(d.snapshot, last) then
        if Validation.ValidSnapshot(d.snapshot.projection)
        then Recovered(Memory(d.snapshot.projection, d.ledger, Idempotency(d.ledger)), d) else Unrecoverable
      else if !Validation.ValidSnapshot(last.projection) || !saveOk then Unrecoverable
      else Recovered(MemoryOf(d.ledger), d.(snapshot := Snapped(last)))
  }
}
