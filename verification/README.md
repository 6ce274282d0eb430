# Sensor calibration release: a verified model

The service takes batches of environment sensors through calibration: sensors are registered, a plan
of reference points is locked, repeated readings are submitted, failing sensors are recalibrated as
new revisions, a reviewer approves or returns the batch, and a credential over the frozen content
releases it for deployment. Every change is one commit to a hash-chained event ledger from which the
state can be rebuilt.

The model has three layers.

- **Meaning.** `Entities` holds the records, `Evidence`, `Frozen` and `Statistics` say declaratively
  what evidence, blocking, frozen content and figures are, and `Domain` gives every command as a
  function from state to state, errors included.
- **Program.** `Snapshots`, `Calibration`, `Evaluation`, `Credentials`, `Validation`, `Commands`,
  `Ledger`, `Stores` and `WorkQueue` are the imperative code: a mutable snapshot of maps, loops over
  their keys in any order, a store with its files. Each method is proved to compute its function.
- **Guarantees.** `Invariant` states what holds of every reachable state: findings, retest tasks,
  coverage and status, which the code keeps separately, always agree. `Recording`, `Keeping`,
  `StatusChange`, `Submission`, `Preservation`, `Renewal` and `Reviewing` prove every command keeps
  it, and `Runs` lifts this to all runs over any number of batches. On top of it stand `Guarantees`
  (release soundness, honest history), `Requests`, `Marks`, `Acceptance` and `Separation` (what is accepted and
  refused, and that it stays on record as asked for), `Release` and `Drafts` (release stays reachable,
  exactly), `Advice` and `Exceptions` (what recommendations and flags mean, with runs where
  recommendations fail), `BatchSubmission` (order and splitting), `Storage`, `Durability`, `Recovery`
  and `Kinds` (crashes, exactly-once commits, what events and replies tell), `Queue` and `Selection`
  (paging while the queue changes, what a filter selects).

The invariant is needed because the persisted-state validation alone is not kept by the commands: it
would allow a draft that already has a plan (`Validation.ValidationNotKept`).

`dafny verify dfyconfig.toml` checks the whole project.

## Model

| member | source | states |
|---|---|---|
| Release.ReleaseReachable | internal/domain/calibration/review.go:31-52 | from every state of every run a batch past plan locking has a finite sequence of accepted commands that ends with it released, whatever failures and returns it has had |
| Release.NextOpenCall | internal/application/workflow/work_queue.go:162-171 | until a batch is in review some submission, recalibration or resubmission is accepted and strictly lowers the measure (revisions with open findings, unmeasured points, status) |
| Release.PerfectAccepted | internal/domain/calibration/measurement.go:43-72 | readings equal to the point are accepted at every unmeasured point of a current revision: plan points lie in every sensor range |
| Drafts.DraftReleasableExactly | internal/domain/calibration/profile.go:38-42 | a draft can ever be released if and only if every two of its sensors have ranges that overlap in more than a point; otherwise no sequence of commands leads out of the draft |
| Guarantees.ReleaseSound | internal/domain/calibration/review.go:31-52 | in every run, over all batches: a batch in review, frozen or released has no open finding, has a current sensor, and every current sensor has at every plan point full, passing evidence of its own batch |
| Guarantees.SealedReadings | internal/policy/evaluation/statistics.go:12-33 | in a frozen or released batch every single reading of the evidence is within the absolute tolerance, and within the relative tolerance of its point unless that is 0, plus (n-1)/n of the repeatability limit, and the reviewer captured none of the measurements |
| Guarantees.SamplersExact | internal/domain/calibration/measurement.go:73-77 | SampledBy lists exactly the actors of the batch's measurements, each once, in every reachable state |
| Guarantees.FailedCanRecalibrate | internal/domain/calibration/sensor.go:46-73 | every reachable failed batch has a current revision that carries an open finding, and its recalibration is accepted |
| Guarantees.SubmissionNeverConflicts | internal/domain/calibration/review.go:40-51 | in reachable states a submission fails only for its input: the transition guard is never reached, and a submission to a failed batch never yields ready_review |
| Guarantees.TaskAgrees | internal/policy/evaluation/recalibration.go:10-69 | for a current revision a point has an open earlier finding exactly when its retest task is required and not passed; a required task is pending, passed or failed as its own measurement is absent, passes or fails; an inherited one names the latest earlier measurement, which passes and is the evidence within the batch until the revision has its own |
| Guarantees.PendingRetestsCount | internal/application/workflow/calibration_commands.go:114-122 | the reported number of pending retests equals the number of points with an open finding of an earlier revision |
| Guarantees.FailureIsTracked | internal/domain/calibration/review.go:9-29 | every exceeded limit of every measurement has a finding, open exactly until a later revision of that sensor in that batch passes at the point, and resolved only with that witness |
| Guarantees.FindingIsSettled | internal/domain/calibration/review.go:12-27 | every finding, manual ones included, is open exactly until a later revision of its sensor in its batch passes at its point, and resolved with that revision named |
| Guarantees.FindingIsFounded | internal/policy/evaluation/findings.go:17-37 | every automatic finding names a limit that a measurement of its revision exceeds at its point |
| Guarantees.AutomaticIsCritical | internal/policy/evaluation/findings.go:17-29 | in every run automatic findings are critical |
| Guarantees.RunAccumulates | internal/domain/calibration/review.go:12-27 | over every run nothing recorded is lost or rewritten, and a resolved finding stays exactly as it was resolved |
| Requests.LimitsGovern | internal/domain/calibration/profile.go:43-48 | from the lock request to the verdict: in every later state of every run a measurement of the batch has the number of readings and one of the points asked for, and a finding of a kind exactly when its readings exceed the limit asked for under that name |
| Requests.RequestsStayOnRecord | internal/application/workflow/batch_commands.go:8-85 | in every later state of every run what an accepted request asked for is on record, every value in its own place: batch, sensor, plan, readings, revision, approval, corrections, credential, with their actor and time |
| Requests.StepKeepsOrigin | internal/domain/calibration/batch.go:8-16 | no command changes what is settled about a batch: origin, sensors listed, plan once locked, reviewer once frozen |
| Marks.StepMarks | internal/domain/calibration/review.go:9-29 | whatever an accepted command changes about findings and retest tasks carries its time and says what made it: a submission closes by its own revision, raises in the words for the limit and answers with its own point; a return enters the corrections; a recalibration adds tasks of the new revision; everything else stays as it was |
| Acceptance.AcceptedExactly | internal/domain/calibration/lifecycle.go:9-59 | in every state of every run each of the nine requests is accepted if and only if a condition on the records holds that its caller can check: distinct points in every range, an unmeasured planned point, an actor who captured nothing, nothing hidden, and so on |
| Acceptance.ConflictExactly | internal/domain/calibration/lifecycle.go:9-59 | and it is answered Conflict if and only if it clashes with the records: its batch or sensor code is already there, its point already measured, or the batch in a status without that step; no request of any run meets a broken record |
| Acceptance.RepeatsExactly | internal/domain/calibration/profile.go:29-38 | comparing neighbours after sorting refuses exactly the lists in which some point occurs twice |
| Text.TrimMeans | internal/domain/calibration/review.go:78-84 | trimming takes away the white space at both ends, all of it and nothing else |
| Separation.ForbiddenExactly | internal/domain/calibration/review.go:62-64 | in every state of every run a request is answered Forbidden if and only if its actor reviews, by approval or return, a batch of which they captured a measurement |
| Separation.ReviewerCapturedNone | internal/domain/calibration/review.go:114-127 | whoever approves a batch or sends it back has captured none of its measurements |
| Separation.RecordsSeparate | internal/domain/calibration/review.go:54-127 | every review record of every run was added by a step of its own reviewer who, for an approval or a return, had captured none of the measurements before that step |
| Separation.NotFoundExactly | internal/domain/calibration/snapshot.go:72-78 | a request is answered NotFound exactly when it names a batch that does not exist, unless its form is refused first |
| Separation.WrongStatusConflicts | internal/domain/calibration/lifecycle.go:9-59 | a command on a batch whose status does not admit it is a conflict |
| Runs.ExecuteKeeps | internal/storage/jsonstore/store.go:117-147 | every accepted command keeps the whole invariant, raises the version of its own batch by one and leaves everything any other batch owns unchanged |
| Runs.ReachableInv | internal/domain/calibration/validation.go:8-88 | the invariant holds in every state of every run, over any number of batches |
| Consequences.CoveredOpenCarried | internal/policy/evaluation/coverage.go:31-64 | if coverage is complete and a finding of the batch is open, some current revision itself carries an open finding |
| Consequences.CoveredIsScoped | internal/policy/evaluation/coverage.go:66-98 | coverage as the program computes it, where findings of other batches with the same sensor code also block, never exceeds coverage within the batch |
| Consequences.UnsharedEvidenceAgrees | internal/policy/evaluation/coverage.go:86-98 | the two notions of evidence coincide when no other batch uses the sensor code |
| Consequences.UnblockedLatestPasses | internal/policy/evaluation/coverage.go:73-84 | a measurement that is inherited because no open earlier finding blocks its point has passed the tolerances |
| Submission.ApplyReadingsKeepCore | internal/application/workflow/calibration_commands.go:45-73 | recording the points one after the other keeps findings, retest tasks and evidence in agreement and adds exactly the submitted sets |
| Submission.SubmitKeeps | internal/application/workflow/calibration_commands.go:45-74 | a submission that passes its checks is never refused afterwards and keeps the invariant of all batches |
| Renewal.RecalibrateKeeps | internal/application/workflow/calibration_commands.go:95-107 | an accepted recalibration always gets its retest tasks and keeps the invariant |
| Reviewing.IssueKeeps | internal/application/workflow/release_commands.go:111-121 | issuing keeps the invariant: the digest in the credential is the one recomputed from the released batch at the frozen version |
| BatchSubmission.OrderIrrelevant | internal/domain/calibration/measurement.go:12-79 | the order of the points decides neither whether a submission is accepted nor anything of the resulting state |
| BatchSubmission.OneAtATime | internal/application/workflow/calibration_commands.go:45-74 | a submission of several points leads to the state that submitting them singly leads to, each at its own time, up to the version and the times of measurements, tasks and closings, whenever each single one is accepted |
| BatchSubmission.SplitAgrees | internal/application/workflow/calibration_commands.go:45-74 | two accepted submissions one after the other, at whatever times, make the joint one acceptable and lead to its state up to the version and times |
| BatchSubmission.SplitExactly | internal/application/workflow/calibration_commands.go:29-83 | of an accepted submission any first part is accepted on its own, at whatever time, and the rest then exactly when the first part has not already made the batch ready for review |
| BatchSubmission.TimelessSubmit | internal/application/workflow/calibration_commands.go:45-74 | no clock reading influences a submission: with all of them set to zero it ends with the same error and the same state |
| BatchSubmission.ReadingsCommute | internal/domain/calibration/review.go:9-29 | recording two different points in either order gives the same state |
| Statistics.Calculate | internal/policy/evaluation/statistics.go:12-33 | the loop computes mean, errors and spread as defined by sum, least and greatest reading |
| Statistics.CompareIsExact | internal/policy/evaluation/findings.go:17-29 | there is exactly one draft for each exceeded limit and none other, each critical, with its point and non-empty texts |
| Statistics.ViolatesOverReadings | internal/policy/evaluation/statistics.go:28-33 | a limit is exceeded exactly when the readings exceed it, said without the figures: the sum of n readings is off n times the point by more than n tolerances, or n shares of the point, or two readings lie further apart than the limit |
| Statistics.PassingReadingBound | internal/policy/evaluation/statistics.go:28-33 | each reading of a passing set lies within the absolute tolerance, and within the relative tolerance of the point, plus (n-1)/n of the repeatability limit |
| Statistics.PerfectReadingsPass | internal/policy/evaluation/statistics.go:12-33 | readings equal to the reference pass any plan with non-negative limits |
| Snapshots.Snapshot.IsCurrentRevision | internal/domain/calibration/snapshot.go:49-60 | true exactly for the highest revision of its code in the batch |
| Snapshots.Snapshot.CurrentSensors | internal/domain/calibration/snapshot.go:80-96 | returns each current revision of the batch once and nothing else, for every order of reading the map |
| Snapshots.Snapshot.BatchFindings | internal/domain/calibration/snapshot.go:98-106 | returns each finding, or each open finding, of the batch once; empty exactly when none is open |
| Snapshots.Snapshot.CredentialForBatch | internal/domain/calibration/snapshot.go:108-115 | finds a credential of the batch exactly when there is one |
| Calibration.MoveTo | internal/domain/calibration/lifecycle.go:9-59 | changes status and version exactly along the legal transitions and otherwise nothing |
| Calibration.CreateBatch | internal/application/workflow/batch_commands.go:18-29 | refuses a used identifier or blank fields, else enters a draft at version 1 |
| Calibration.RegisterSensor | internal/domain/calibration/sensor.go:9-36 | all refusals of the source in order, else revision 1, its listing and the next version |
| Calibration.LockProfile | internal/domain/calibration/profile.go:9-49 | locks the sorted points only if they are distinct and every current sensor covers them |
| Domain.SortPointsSorts | internal/domain/calibration/profile.go:26-27 | sorting the points puts them in order and keeps each of them |
| Calibration.PutMeasurements | internal/domain/calibration/measurement.go:12-79 | stores all sets and lists their actors, or on the first failing check of the first failing set changes nothing |
| Commands.PutErrorAgrees | internal/domain/calibration/measurement.go:12-72 | the checks on the prepared sets give the error that the checks on the submitted points define |
| Commands.PutAgrees | internal/domain/calibration/measurement.go:73-77 | storing all sets first and processing them afterwards is recording them point by point, as far as measurements and samplers go |
| Calibration.ReplaceAutomaticFindings | internal/domain/calibration/review.go:9-29 | with no new finding closes exactly the open findings of earlier revisions at the point and returns exactly those; otherwise enters the new ones and closes none |
| Calibration.SetEvaluationStatus | internal/domain/calibration/review.go:31-52 | derives the status from coverage and open findings, keeps a returned batch returned, refuses an illegal transition |
| Calibration.RecalibrateSensor | internal/domain/calibration/sensor.go:38-74 | adds the next revision only for a current revision with an open finding of a failed or returned batch |
| Calibration.ReturnReview | internal/domain/calibration/review.go:54-97 | enters all corrections as open manual findings with the record and the status, or nothing at all |
| Calibration.ResubmitReview | internal/domain/calibration/review.go:99-112 | refused while a finding of the batch is open |
| Calibration.Freeze | internal/domain/calibration/batch.go:55-66 | refused for an actor who sampled; otherwise freezing time, reviewer and status |
| Calibration.ApproveReview | internal/domain/calibration/review.go:114-127 | the record is written before the separation of duties is checked, so a refusal leaves the changed copy the contract describes |
| Calibration.IssueCredential | internal/domain/calibration/credential.go:5-24 | a frozen batch without credential and open findings gets one carrying its version and is released |
| Evaluation.EffectiveEvidence | internal/policy/evaluation/coverage.go:66-84 | point by point the direct measurement, else the latest earlier one if nothing blocks: exactly the declarative evidence, for every order of reading the maps |
| Evaluation.UnresolvedProblemPoints | internal/policy/evaluation/coverage.go:86-98 | the points with an open finding on a lower revision of the code, in any batch |
| Evaluation.PreviousEvidenceByPoint | internal/policy/evaluation/coverage.go:100-119 | for every point with an earlier measurement one of the highest earlier revision, for no other point |
| Evaluation.OnlyEvidence | internal/policy/evaluation/coverage.go:66-84 | there is at most one measurement that is the evidence of a revision at a point, so map order cannot matter |
| Evaluation.BuildCoverage | internal/policy/evaluation/coverage.go:31-64 | reports every current revision once, by sensor code, and every plan point of it; the report is complete exactly when every point has full evidence |
| Evaluation.EvaluateRevision | internal/policy/evaluation/evaluator.go:29-53 | complete exactly when every plan point of the revision has full evidence; the drafts are, point by point, what that evidence exceeds |
| Evaluation.EvaluationMeans | internal/policy/evaluation/evaluator.go:29-53 | an evaluation raises a kind at a point exactly when the evidence there exceeds that limit |
| Advice.EvaluationAgrees | internal/policy/evaluation/evaluator.go:55-74 | in every run evaluating a current revision raises exactly the automatic findings it carries: evidence taken over from an earlier revision passes |
| Evaluation.InheritedMeans | internal/policy/evaluation/coverage.go:44-56 | a point is reported as inherited exactly when it has evidence but no measurement of the revision itself, and as not observed when it has none |
| Evaluation.EvaluateBatch | internal/policy/evaluation/evaluator.go:55-73 | evaluates the current sensors by code; complete exactly when there is one and all are; an unknown batch, or one with sensors and no plan, is an error |
| Evaluation.BuildRecalibrationTasks | internal/policy/evaluation/recalibration.go:10-48 | one task per plan point, required with exactly the open earlier findings in canonical order, else inherited with its evidence |
| Evaluation.UpdateRecalibrationTask | internal/policy/evaluation/recalibration.go:50-69 | stopping at the first matching task changes every required task of the revision and point, because there is one |
| Commands.SubmitMeasurements | internal/application/workflow/calibration_commands.go:45-74 | the loops over the sets compute the specified submission and collect exactly the findings it closed |
| Commands.PendingRetestPoints | internal/application/workflow/calibration_commands.go:114-122 | counts the required tasks of the revision that have not passed |
| Commands.Recalibrate | internal/application/workflow/calibration_commands.go:95-107 | new revision and tasks as specified |
| Commands.ResubmitForReview | internal/application/workflow/release_commands.go:63-94 | refused when any point lacks evidence or any finding is open |
| Commands.IssueRelease | internal/application/workflow/release_commands.go:111-121 | digest of the frozen content, then the credential |
| Commands.Run | internal/application/workflow/calibration_commands.go:45-107 | on every reachable copy the imperative command produces exactly the specified outcome, on failure too, and the specified reply with identifiers, figures and counts |
| Validation.ReachableValid | internal/domain/calibration/validation.go:12-88 | every state of every run is accepted by the persisted-state validation |
| Validation.ValidationNotKept | internal/domain/calibration/validation.go:90-187 | the validation alone is not kept: it accepts a draft that already has a plan, which the invariant rules out, and locking a plan there succeeds with a state it refuses |
| Validation.ValidateSnapshot | internal/domain/calibration/validation.go:12-88 | the loops accept exactly the snapshots all of whose records satisfy the declarative conditions |
| Validation.AcceptedMeans | internal/domain/calibration/validation.go:12-288 | in an accepted projection no reference dangles or crosses batches, readings lie in range at planned points, nobody reviewed their own samples and a released batch has a credential |
| Validation.ValidateBatch | internal/domain/calibration/validation.go:90-134 | accepts exactly the valid batches |
| Validation.ValidateRevisionSequence | internal/domain/calibration/validation.go:136-152 | accepts exactly when the revisions of every code are numbered 1, 2, 3 without gap or repetition |
| Validation.SortedNumbered | internal/domain/calibration/validation.go:143-150 | comparing the sorted numbers with 1, 2, 3 decides whether they are gapless and distinct |
| Validation.ValidateProfile | internal/domain/calibration/validation.go:170-187 | accepts exactly fully locked profiles with strictly rising points |
| Validation.ValidateMeasurement | internal/domain/calibration/validation.go:189-208 | accepts exactly sets of the plan with all readings in range |
| Validation.ValidateFinding | internal/domain/calibration/validation.go:210-237 | accepts a resolved finding only with a later revision of the same sensor |
| Validation.ValidateTask | internal/domain/calibration/validation.go:239-269 | accepts exactly tasks whose flags, findings and evidence agree |
| Validation.ValidateCredential | internal/domain/calibration/validation.go:271-288 | accepts exactly complete credentials of released batches with distinct revisions |
| Credentials.FrozenDigestAtVersion | internal/audit/ledger/credential.go:26-77 | digests exactly the canonical frozen content, in whatever order the maps are read |
| Credentials.VerifyCredential | internal/audit/ledger/credential.go:79-103 | succeeds exactly when status, version, digest and revision list agree with the snapshot |
| Credentials.VerifiesExactly | internal/audit/ledger/credential.go:79-103 | in every run a credential presented for a released batch verifies if and only if it carries version, revisions and digest of the one that was issued; for a batch neither frozen nor released none does |
| Credentials.CredentialPermanent | internal/audit/ledger/credential.go:79-103 | a credential once issued is kept unchanged and verifies in every later state of the run |
| Credentials.OneCredentialPerRelease | internal/domain/calibration/credential.go:13-15 | a batch has exactly one credential when released and none otherwise |
| Credentials.ChangedContentDetected | internal/audit/ledger/credential.go:87-93 | a credential that verifies against two states shows that they agree on all frozen content, or exhibits two contents with one digest |
| Credentials.MaterialCovers | internal/audit/ledger/credential.go:12-77 | equal frozen contents mean the same batch, plan, current sensors, measurements, findings, tasks and reviews |
| Frozen.MaterialFrame | internal/audit/ledger/credential.go:26-68 | the frozen content depends on nothing but what the batch owns |
| Text.SortIsCanonical | internal/audit/ledger/credential.go:63-66 | sorting any listing of a set of identifiers gives the one ascending list |
| Ledger.VerifyChain | internal/audit/ledger/chain.go:29-48 | accepts exactly chains with consecutive numbers, linked digests and matching contents |
| Ledger.AppendKeepsChain | internal/storage/jsonstore/store.go:135-147 | appending a sealed event with the next number and the last digest keeps the chain valid |
| Ledger.ChainUnique | internal/audit/ledger/chain.go:29-48 | two valid chains of equal length and last digest are identical, or a digest collision between them is exhibited |
| Ledger.ChainUniqueByDigest | internal/audit/ledger/chain.go:29-48 | the same without knowing the lengths: non-empty valid chains that end in one digest are identical, or a collision is exhibited |
| Ledger.PrefixesAccepted | internal/audit/ledger/chain.go:29-48 | every prefix of a valid chain is valid: lost trailing events are invisible to the chain |
| Ledger.ValidateProjections | internal/audit/ledger/projection.go:17-51 | accepts exactly valid projections that contain their aggregate at a version above its previous one, with complete metadata |
| Ledger.ProjectionsOrdered | internal/audit/ledger/projection.go:40-42 | comparing each event with the one before it orders all events of an aggregate by version |
| Stores.Store.Commit | internal/storage/jsonstore/store.go:83-153 | memory, files and answer after a commit are exactly the specified ones for every outcome of the two writes; the domain code works on a copy |
| Stores.Open | internal/storage/jsonstore/recovery.go:12-57 | start-up accepts, refuses and rebuilds exactly as the recovery function says |
| Stores.Store.ReadState | internal/storage/jsonstore/store.go:155-173 | accepts the ledger file exactly when number of events and last digest match memory |
| Recovery.RecoveryRefines | internal/storage/jsonstore/recovery.go:12-57 | after any run of commits, failed writes, crashes and snapshot files lost or altered into one that does not decode or whose position is not that of an event with another projection, recovery never refuses and rebuilds exactly projection, events and keys of the appended events; a running process holds just those |
| Recovery.RecoverExact | internal/storage/jsonstore/recovery.go:35-56 | the same from a current, stale, missing or so altered snapshot; only writing a new snapshot can fail |
| Recovery.SnapshotTrustedExactly | internal/storage/jsonstore/recovery.go:35-56 | for every snapshot file whatsoever, recovery brings back what the events say if and only if the file is not at the position of the last event with another projection |
| Recovery.SnapshotTakenOver | internal/storage/jsonstore/recovery.go:35-42 | and any valid projection in a file at that position is taken over instead |
| Recovery.NeverRejected | internal/storage/jsonstore/store.go:117-126 | in no run does the check of the new projection stop a commit; an accepted command with working writes is answered with its reply and the next version |
| Recovery.WritesExactly | internal/storage/jsonstore/store.go:86-147 | in every run a commit writes its event if and only if the request is complete, its key has no event, the batch has as many events as the expected version, the command is accepted and the append works |
| Recovery.WrittenEvent | internal/storage/jsonstore/store.go:135-152 | and that event says who asked for what, when and under which key, is linked and sealed and holds the new projection; the snapshot file follows or stays as it was |
| Recovery.AnswerTells | internal/storage/jsonstore/store.go:83-153 | a first answer means written and saved, a failed save means written, every other answer that nothing has changed, and an outdated version is a conflict |
| Kinds.KindsTellTheTruth | internal/application/workflow/release_commands.go:20-60 | in every run every event is named after the change its projection shows against the one before: each of the ten kinds if and only if that change can be seen |
| Kinds.ReplyTells | internal/application/workflow/calibration_commands.go:61-73 | the reply tells version and status, exactly the findings the command closed, in order, the figures of every point, and the number of points that still have an open earlier finding |
| Kinds.ReplyNames | internal/application/workflow/release_commands.go:29-60 | the reply names the new record, the revision measured or the findings a return has entered, and no others |
| Kinds.StatusFollowsTable | internal/domain/calibration/lifecycle.go:15-57 | no step of any run, of whatever batch it speaks, takes a batch from one status to another except along the twelve pairs written out |
| Recovery.NoEventNoChange | internal/storage/jsonstore/store.go:86-145 | a commit that does not append leaves memory and disk as they were, even when the domain code had changed its copy |
| Recovery.EventAdded | internal/storage/jsonstore/store.go:135-149 | a commit that appends adds one event, one version above the expected, also when the snapshot write fails afterwards |
| Recovery.ReplayReturnsFirst | internal/storage/jsonstore/store.go:92-105 | a repeated key is answered with the first reply and changes nothing, for another command or content it is refused; in every run including restarts |
| Recovery.OneWriterPerVersion | internal/storage/jsonstore/store.go:106-112 | of two commits that expect the same version of a batch at most one appends, whatever happens between them |
| Recovery.TruncationOutcome | internal/storage/jsonstore/recovery.go:29-56 | a ledger cut back to some first events is accepted and run from; it is refused exactly when nothing is left beside a snapshot file |
| Recovery.RecoveredIsChecked | internal/storage/jsonstore/recovery.go:12-57 | start-up accepts nothing but a linked, sealed and numbered ledger with valid projections whose versions rise, and runs on its events |
| Recovery.RecoveredIsOurs | internal/storage/jsonstore/recovery.go:12-23 | a ledger file that ends in the digest the store last wrote is accepted only if it is the ledger of the store, or a digest collision is exhibited |
| Recovery.AlteredLedgerDetected | internal/storage/jsonstore/store.go:155-173 | a chain-valid ledger file that passes the comparison of a read is the ledger in memory, or a digest collision is exhibited |
| Recovery.OneEventPerKey | internal/storage/jsonstore/store.go:92-105 | in every run, restarts included, every key of an aggregate has at most one event |
| Recovery.VersionIsOrdinal | internal/storage/jsonstore/store.go:139 | in every run the k-th event of an aggregate carries version k |
| Recovery.VersionsNeverRepeat | internal/audit/ledger/projection.go:40-42 | in every run later events of an aggregate carry higher versions |
| Durability.LoggedAccepted | internal/audit/ledger/projection.go:17-51 | the projection checks accept every ledger the store has written |
| Durability.LoggedReachable | internal/storage/jsonstore/store.go:113-147 | the projection of every event is the state of a run with one command per event |
| Durability.TableMeans | internal/storage/jsonstore/recovery.go:24-28 | the rebuilt table names exactly the keys of the ledger, each with the event that used it |
| WorkQueue.PagingExactlyOnce | internal/application/workflow/work_queue.go:104-126 | along cursors read from ever later states of a run, with any page sizes, every batch that matches throughout is shown exactly once |
| Queue.ShownExactlyOnce | internal/application/workflow/work_queue.go:104-126 | the same for any sequence of queues in which the batch keeps its place |
| Queue.WalkMovesOn | internal/application/workflow/work_queue.go:104-126 | nothing is shown twice: later pages lie behind earlier ones |
| Queue.WalkIsWhole | internal/application/workflow/work_queue.go:104-126 | on a fixed queue the pages of a finished walk are the whole list in order, and there are no more pages than batches |
| Queue.QueueUnique | internal/storage/jsonstore/store.go:62-67 | the order leaves one way to list the matching batches |
| Text.LessMeans | internal/storage/jsonstore/store.go:62-67 | identifiers compare at the first place where they differ |
| WorkQueue.BatchReadSnapshot | internal/storage/jsonstore/store.go:51-69 | all batches, newest first, by identifier among equals |
| WorkQueue.Search | internal/application/workflow/work_queue.go:104-110 | the halving search finds the first batch behind the cursor |
| WorkQueue.ListBatches | internal/application/workflow/work_queue.go:51-128 | refuses exactly the invalid requests, cursors that do not decode included, else shows the right page of the filtered queue with counts, advice and blockers of each batch, the cursor for the rest and a summary that counts exactly the batches asked for |
| WorkQueue.CursorBelongs | internal/application/workflow/work_queue.go:68-76 | a cursor handed out is taken back with a filter of the same digest and no other |
| Selection.ListedExactly | internal/application/workflow/work_queue.go:84-102 | a batch is listed if and only if it was created in the window, by the station and in the status asked for, each where given |
| Selection.NewestFirst | internal/storage/jsonstore/store.go:62-67 | the queue is ordered by time of creation, newest first, by identifier at one time, without repetition |
| Selection.WindowIsStretch | internal/application/workflow/work_queue.go:91-96 | a window of time alone selects one contiguous stretch of the whole queue |
| Selection.SummaryCounts | internal/application/workflow/work_queue.go:94-102 | total, counts by status and the two pending counts are the numbers of batches asked for, of those in each status, in review and frozen |
| Selection.StatusTotal | internal/application/workflow/work_queue.go:88-90 | asking for one status gives as many batches as the whole queue counts in it |
| Selection.PageSize | internal/application/workflow/work_queue.go:111-127 | a page shows at most as many batches as asked for, and as many when more are left |
| Selection.CountsAddUp | internal/application/workflow/work_queue.go:94-102 | every matching batch is counted under exactly one status |
| WorkQueue.BuildReadiness | internal/application/workflow/readiness.go:33-86 | the counts are the sizes of the sets they speak about, critical findings included; the flags and the blocker codes are there exactly when their conditions hold, the sampling actors in order |
| Advice.FlagsMean | internal/application/workflow/readiness.go:40-43 | in every run: submissions or recalibrations are refused for the status alone exactly when their flag is off; a credential can be issued, a batch be approved with complete coverage, and anything but a credential be added, exactly as the flags say |
| Advice.ItemTells | internal/application/workflow/work_queue.go:111-120 | what a line of the queue shows of its batch: the sizes of the sets it speaks about, its blockers, and an advice that can be followed exactly when it holds |
| Advice.CountsMean | internal/application/workflow/readiness.go:55-70 | in every run as many points are complete as required exactly when every current revision has evidence at every point, no open finding is counted exactly when none is open, and findings are all critical unless a reviewer entered some |
| Advice.NoBlockerWhenReviewable | internal/application/workflow/readiness.go:51-86 | a batch in review has no blocker exactly when it can be reviewed |
| Advice.BlockersMean | internal/application/workflow/readiness.go:44-86 | in every run: none once frozen; before that no plan means a draft, no sensors an empty list, no sampling actor that nobody has captured a measurement since the plan was locked, and the others an open finding and a point without full evidence |
| WorkQueue.StepKeepsPlace | internal/storage/jsonstore/store.go:62-67 | no command changes what places a batch in the queue |
| Advice.AdviceExactly | internal/application/workflow/work_queue.go:156-179 | in every reachable state a command of the recommended kind can succeed if and only if: in a draft the sensor ranges meet, in a returned batch a current revision carries an open finding or nothing is open and no finding of another batch blocks a point that lives on inherited evidence, and always in the other statuses but released |
| Advice.ReturnedSettledCovered | internal/application/workflow/release_commands.go:71-91 | a returned batch with nothing open has complete, passing evidence within the batch |
| Advice.SettledCoveredExactly | internal/policy/evaluation/coverage.go:66-98 | its coverage as the program computes it is complete if and only if no open finding of any batch blocks a point where a current revision has no measurement of its own |
| Advice.UnsharedCanResubmit | internal/application/workflow/release_commands.go:71-91 | and can be resubmitted as long as no other batch uses its sensor codes |
| Advice.EligibleExactly | internal/application/workflow/readiness.go:97-107 | an eligible reviewer can approve; one who can approve is eligible exactly when coverage is complete as the program computes it |
| Advice.ReleasedIsFinal | internal/domain/calibration/lifecycle.go:44 | no command on a released batch succeeds |
| Exceptions.RecalibrationAdviceFails | internal/application/workflow/work_queue.go:167-170 | a run reaches a returned batch with an open finding that is advised to recalibrate although every recalibration is refused |
| Exceptions.ResubmissionAdviceFails | internal/policy/evaluation/coverage.go:86-98 | a run reaches a returned batch that can be resubmitted and goes on, leaving all the batch owns as it is, to a state where it has lost evidence and the advised resubmission is refused, although within the batch nothing is open and evidence is complete |
| Exceptions.ForeignFindingHides | internal/policy/evaluation/coverage.go:86-98 | from any state in which a current revision of a returned batch lives on inherited evidence, commands on another batch with the same sensor code lead to one where that evidence and coverage are gone, though nothing the batch owns has changed |

## Left out

- Statistics.Compare: the numbers in a finding's message are left out; the message is a constant text for each exceeded limit.
- Commands.Run: one clock reading serves a whole command, and identifiers are drawn in advance; the source asks for both as it goes. No clock reading influences a submission (`BatchSubmission.TimelessSubmit`).
- WorkQueue.BuildReadiness: the blockers are the set of their codes; texts, order and repetition are left out.
- WorkQueue.ListBatches: base64 and JSON of a cursor that decodes are the identity.
- Text.Blank: of the Unicode white space only the Latin-1 characters count as blank.
- Numbers are exact: rounding, NaN, infinities and negative zero of floating point are not modelled, nor is integer overflow of versions.
- Statuses, origins, decisions and task states are enumerations, so the branches for unknown texts (an unknown review decision among them) cannot be written down.
- Records are values in the maps of a snapshot; the source keeps pointers. Aliasing of records between maps does not occur there.
- Digests are arbitrary functions. Nowhere are they assumed injective: a statement that needs it has a collision as its alternative. That they are never empty text is assumed for validation and recovery.
- Drawn identifiers are assumed new, as the source assumes of its random ones; two identifiers of one command that coincide are refused as in the source for measurements and corrections.
- The files are an append-only list and a replaceable value: torn appends, failed synchronisation, file modes and the temporary file are not modelled.
- The key of the idempotency table is a pair; the source joins the two texts with a NUL.
- Each commit and each read is one step; the mutex is not modelled.
- HTTP transport, self-check client, server start-up, request fingerprints, `validateMeta`, `Inspect`, `Verify`, `GetBatch`, `AuditTrail`, the task view and the read-only credential query are left out: they add no state.
- `Capabilities` and `RequireCapability` are left out: no command calls them.
- README.md:73 promises that a truncated ledger stops the service. The code accepts every non-empty prefix; `Recovery.TruncationOutcome` states exactly what happens.
- README.md:73 also promises that a damaged snapshot is rebuilt from the last event. The code notices damage that shows in decoding, schema, number or digest; a valid other projection at the position of the last event is taken over. `Recovery.SnapshotTrustedExactly` states exactly when, `Recovery.SnapshotTakenOver` gives the input. The runs of `Recovery.RecoveryRefines` therefore alter snapshot files only into ones that recovery notices; a file with a number beyond the ledger, which a later event might come to match, is covered by `Recovery.SnapshotTrustedExactly` alone.
- README.md:57 promises resubmission once all findings are closed and evidence is complete. The code also lets findings of other batches with the same sensor code block it; `Advice.SettledCoveredExactly` states when, `Exceptions.ResubmissionAdviceFails` gives a run.
