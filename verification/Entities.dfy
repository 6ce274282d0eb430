/** The records kept by the service, as plain values.

    Every collection of `State` is keyed by the record's own identifier, as in the
    persisted projection.  `State` is the value the snapshot class in `Snapshots`
    is a mutable holder of, and the value one ledger event carries. */
module Entities {
  type Id = string

  // Clock readings; 0 is the zero time.
  type Time = nat

  datatype Option<+T> = None | Some(value: T)

  datatype Error = NotFound | Conflict | Validation | Forbidden | Integrity

  datatype Status = Draft | PlanLocked | Sampling | Failed | ReadyReview | Returned | Frozen | Released

  datatype FindingStatus = Open | Resolved

  datatype Origin = Automatic | Manual

  datatype TaskStatus = Pending | Passed | Failing | Inherited

  datatype Decision = Approved | SentBack | Resubmitted

  datatype Batch = Batch(
    id: Id, stationCode: string, title: string, status: Status, sensorIDs: seq<Id>, profileID: Id,
    version: int, createdBy: string, createdAt: Time, frozenAt: Option<Time>,
    sampledBy: seq<string>, reviewedBy: string)

  datatype Sensor = Sensor(
    id: Id, batchID: Id, code: string, revision: int, metric: string, unit: string,
    rangeMin: real, rangeMax: real, note: string, createdAt: Time)

  datatype Profile = Profile(
    id: Id, batchID: Id, points: seq<real>, repetitions: int,
    absoluteTolerance: real, relativeTolerance: real, repeatabilityLimit: real, lockedAt: Option<Time>)

  datatype Stats = Stats(mean: real, absoluteError: real, relativeError: real, spread: real)

  datatype Measurement = Measurement(
    id: Id, batchID: Id, sensorID: Id, point: real, readings: seq<real>, stats: Stats,
    capturedBy: string, capturedAt: Time)

  datatype Finding = Finding(
    id: Id, batchID: Id, sensorID: Id, point: real, kind: string, severity: string, message: string,
    origin: Origin, createdBy: string, status: FindingStatus, resolvedBy: Id, reviewedAt: Option<Time>)

  datatype Task = Task(
    id: Id, batchID: Id, sensorID: Id, point: real, required: bool, status: TaskStatus,
    findingIDs: seq<Id>, sourceID: Id, evidenceID: Id, reasons: seq<string>, updatedAt: Time)

  datatype Credential = Credential(
    id: Id, batchID: Id, batchVersion: int, sensorIDs: seq<Id>, decision: string,
    contentDigest: string, issuedBy: string, issuedAt: Time)

  datatype Review = Review(
    batchID: Id, reviewer: string, decision: Decision, comment: string, findingIDs: seq<Id>, at: Time)

  datatype State = State(
    batches: map<Id, Batch>, sensors: map<Id, Sensor>, profiles: map<Id, Profile>,
    measurements: map<Id, Measurement>, findings: map<Id, Finding>, tasks: map<Id, Task>,
    credentials: map<Id, Credential>, reviews: seq<Review>)

  const EMPTY := State(map[], map[], map[], map[], map[], map[], map[], [])

  /** What a command leaves behind.  The state is meaningful on failure too: some
      commands change the copy they work on before they fail. */
  datatype Outcome = Outcome(state: State, error: Option<Error>)

  function Done(s: State): Outcome {
    Outcome(s, None)
  }

  function Fail(s: State, e: Error): Outcome {
    Outcome(s, Some(e))
  }
}
