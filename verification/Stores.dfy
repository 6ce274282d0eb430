/** The store itself: a commit works on a copy of the projection, start-up rebuilds memory from
    the files, reads compare the two. */
module Stores {
  import opened Entities
  import Frozen
  import Domain
  import Invariant
  import Runs
  import opened Snapshots
  import opened Commands
  import opened Validation
  import opened Ledger
  import opened Storage
  import Durability
  import opened Recovery

  /** The two files: an append-only ledger and a snapshot that is replaced as a whole. */
  class Drive {
    var ledger: seq<Event>
    var snapshot: SavedSnapshot

    constructor ()
      ensures View() == Disk([], Missing)
    {
      ledger, snapshot := [], Missing;
    }

    ghost function View(): Disk
      reads this
    {
      Disk(ledger, snapshot)
    }

    /** Appends one event, or fails and leaves the file as it is. */
    method Append(e: Event, ok: bool) returns (done: bool)
      modifies this`ledger
      ensures done == ok && ledger == if ok then old(ledger) + [e] else old(ledger)
    {
      if ok {
        ledger := ledger + [e];
      }
      done := ok;
    }

    method Replace(file: SavedSnapshot, ok: bool) returns (done: bool)
      modifies this`snapshot
      ensures done == ok && snapshot == if ok then file else old(snapshot)
    {
      if ok {
        snapshot := file;
      }
      done := ok;
    }
  }

  class Store {
    const h: Frozen.Material -> string
    const g: Entry -> string
    const drive: Drive
    var projection: Snapshot
    var events: seq<Event>
    var idempotency: map<Key, KeyRecord>

    constructor (h: Frozen.Material -> string, g: Entry -> string, drive: Drive, projection: Snapshot,
        events: seq<Event>, idempotency: map<Key, KeyRecord>)
      ensures this.h == h && this.g == g && this.drive == drive && this.projection == projection
      ensures this.events == events && this.idempotency == idempotency
    {
      this.h, this.g, this.drive, this.projection := h, g, drive, projection;
      this.events, this.idempotency := events, idempotency;
    }

    ghost function View(): Memory
      reads this, projection
    {
      Memory(projection.View(), events, idempotency)
    }

    ghost function Whole(): System
      reads this, projection, drive
    {
      System(Some(View()), drive.View())
    }

    method CurrentVersion(a: Id) returns (v: int)
      ensures v == Runs.VersionOf(projection.View(), a)
    {
      v := 0;
      if a in projection.batches {
        v := projection.batches[a].version;
      }
    }

    method Replay(req: Request) returns (answer: Answer)
      requires Known(View(), req)
      ensures answer == ReplayAnswer(View(), req)
    {
      var kept := idempotency[KeyOf(req)];
      if kept.command != KindOf(req.call.cmd) {
        return Refused(Conflict);
      }
      if kept.requestDigest != "" && kept.requestDigest != req.requestDigest {
        return Refused(Conflict);
      }
      var version := CurrentVersion(AggregateOf(req));
      answer := Answered(kept.reply, true, version);
    }

    /** Writes the event, then takes over the new projection, then replaces the snapshot file. */
    method Write(req: Request, next: Snapshot, reply: Reply, appendOk: bool, saveOk: bool) returns (answer: Answer)
      requires AggregateOf(req) in next.batches && reply == ReplyTo(projection.View(), next.View(), req.call.cmd)
      modifies this, drive
      ensures var e := NewEvent(g, old(View()), req, next.View());
        && next.View() == old(next.View())
        && (View(), drive.View(), answer) ==
             if !appendOk then (old(View()), old(drive.View()), NotAppended)
             else (Remembered(old(View()), e), Stored(old(drive.View()), e, saveOk),
                   if saveOk then Answered(e.reply, false, e.aggregateVersion) else NotSaved)
      ensures projection == if appendOk then next else old(projection)
    {
      hide ReplyTo;
      var content := next.Content();
      var a := AggregateOf(req);
      var e := Sealing(g, Event(1, |events| + 1, a, next.batches[a].version, KindOf(req.call.cmd), req.call.actor,
          req.at,
                                req.key, req.requestDigest, LastDigest(events), content, reply, ""));
      var appended := drive.Append(e, appendOk);
      if !appended {
        return NotAppended;
      }
      projection := next;
      events := events + [e];
      idempotency := idempotency[(a, req.key) := KeyRecordOf(e)];
      var saved := drive.Replace(Snapped(e), saveOk);
      answer := if saved then Answered(reply, false, e.aggregateVersion) else NotSaved;
    }

    /** One commit.  The domain code runs on a copy, so whatever it changed before it failed is
        dropped; the outcome is the one `CommitStep` describes. */
    method Commit(req: Request, appendOk: bool, saveOk: bool) returns (answer: Answer)
      requires Sound(h, g, Whole()) && Admissible(Whole(), Action.Commit(req, appendOk, saveOk)) && Hex(h)
      modifies this, drive
      ensures Domain.EnoughIds(old(View()).projection, req.call.cmd)
      ensures Ending(View(), drive.View(), answer) ==
          CommitStep(h, g, old(View()), old(drive.View()), req, appendOk, saveOk)
      ensures Sound(h, g, Whole())
      ensures projection == old(projection) || fresh(projection)
    {
      hide Invariant.Inv, Runs.Fresh, Domain.Execute, Domain.EnoughIds, ValidSnapshot, ReplyTo, Durability.Logged,
          ChainOk, SavedOk, Hex, Idempotency,
           Stored, NewEvent, Remembered, ReplayAnswer, Known;
      ghost var m, d := View(), drive.View();
      CommitSound(h, g, m, d, req, appendOk, saveOk);
      if AggregateOf(req) == "" || req.call.actor == "" || req.key == "" {
        return Refused(Validation);
      }
      var known := Knows(req);
      if known {
        answer := Replay(req);
        return;
      }
      var current := CurrentVersion(AggregateOf(req));
      if current != req.expectedVersion {
        return Refused(Conflict);
      }
      var content := projection.Content();
      var next := new Snapshot.Of(content);
      Durability.LoggedInv(h, d.ledger);
      var e, reply := Run(h, next, req.call);
      if e.Some? {
        return Refused(e.value);
      }
      var valid := ValidateSnapshot(next);
      if !valid {
        return Rejected;
      }
      answer := Write(req, next, reply, appendOk, saveOk);
    }

    method Knows(req: Request) returns (known: bool)
      ensures known <==> Known(View(), req)
    {
      known := KeyOf(req) in idempotency;
    }

    /** The whole state for a reader: the ledger file must agree with memory in length and last digest. */
    method ReadState() returns (copy: Snapshot, onDisk: seq<Event>, ok: bool)
      ensures ok <==> ReadAccepted(View(), drive.ledger)
      ensures onDisk == drive.ledger && fresh(copy) && copy.View() == projection.View()
    {
      onDisk := drive.ledger;
      var content := projection.Content();
      copy := new Snapshot.Of(content);
      ok := |onDisk| == |events|;
      if ok && |onDisk| > 0 && onDisk[|onDisk| - 1].digest != events[|events| - 1].digest {
        ok := false;
      }
    }
  }

  // ---------- start-up ----------

  method RebuildKeys(events: seq<Event>) returns (idempotency: map<Key, KeyRecord>)
    ensures idempotency == Idempotency(events)
  {
    idempotency := map[];
    for i := 0 to |events|
      invariant idempotency == Idempotency(events[..i])
    {
      var e := events[i];
      assert events[..i + 1][..i] == events[..i];
      if e.key != "" {
        idempotency := idempotency[(e.aggregateID, e.key) := KeyRecord(e.aggregateID, e.kind, e.requestDigest,
            e.reply)];
      }
    }
    assert events[..|events|] == events;
  }

  /** Opens a store on the files of a drive: the ledger is checked in full, the keys are rebuilt
      from it, and the projection comes from the snapshot file if it stands at the last event and
      from that event otherwise. */
  method Open(h: Frozen.Material -> string, g: Entry -> string, drive: Drive, saveOk: bool) returns (store: Store?)
    modifies drive
    ensures match Recover(g, old(drive.View()), saveOk)
            case Unrecoverable => store == null && drive.View() == old(drive.View())
            case Recovered(memory, disk) =>
              store != null && fresh(store) && fresh(store.projection) && store.h == h && store.g == g &&
                  store.drive == drive
              && store.View() == memory && drive.View() == disk
  {
    hide ChainOk, ProjectionsOk, ValidSnapshot, Idempotency;
    var events := drive.ledger;
    var chained := VerifyChain(g, events);
    if !chained {
      return null;
    }
    var valid := ValidateProjections(events);
    if !valid {
      return null;
    }
    var keys := RebuildKeys(events);
    if |events| == 0 {
      if drive.snapshot != Missing {
        return null;
      }
      NoEventsNoKeys();
      var none := new Snapshot();
      store := new Store(h, g, drive, none, events, keys);
      return;
    }
    var last := events[|events| - 1];
    var file := drive.snapshot;
    if file.Saved? && file.schemaVersion == 1 && file.sequence == last.sequence && file.lastDigest == last.digest {
      var projection := new Snapshot.Of(file.projection);
      valid := ValidateSnapshot(projection);
      if !valid {
        return null;
      }
      store := new Store(h, g, drive, projection, events, keys);
      return;
    }
    var projection := new Snapshot.Of(last.projection);
    valid := ValidateSnapshot(projection);
    if !valid {
      return null;
    }
    var saved := drive.Replace(Snapped(last), saveOk);
    if !saved {
      return null;
    }
    store := new Store(h, g, drive, projection, events, keys);
  }

  lemma NoEventsNoKeys()
    ensures Idempotency([]) == map[] && MemoryOf([]) == Memory(EMPTY, [], map[])
  {
  }
}
