/** Steps that change only the record of one batch, and what a step on one batch leaves of the others. */
module StatusChange {
  import opened Entities
  import opened Evidence
  import opened Frozen
  import opened Domain
  import opened Invariant
  import opened Keeping

  ghost predicate SamePlace(x: Batch, y: Batch) {
    && y.id == x.id && y.stationCode == x.stationCode && y.title == x.title && y.sensorIDs == x.sensorIDs &&
        y.profileID == x.profileID
    && y.createdBy == x.createdBy && y.createdAt == x.createdAt && y.sampledBy == x.sampledBy
    && y.version >= 1 && x.status != Draft && y.status != Draft
  }

  /** Only status, version and sealing of batch `b` change, and records are added to the reviews. */
  ghost predicate Restatus(s: State, t: State, b: Id) {
    && b in s.batches && b in t.batches && t.batches == s.batches[b := t.batches[b]] &&
        SamePlace(s.batches[b], t.batches[b])
    && t.sensors == s.sensors && t.profiles == s.profiles && t.measurements == s.measurements
    && t.findings == s.findings && t.tasks == s.tasks
  }

  lemma RestatusPlans(s: State, t: State, b: Id)
    requires Restatus(s, t, b)
    ensures forall c :: ProfileOf(t, c) == ProfileOf(s, c)
    ensures forall n: Measurement :: Passing(t, n) == Passing(s, n)
    ensures forall x, c :: IsCurrent(t, x, c) <==> IsCurrent(s, x, c)
    ensures forall c, p :: PlanPoint(t, c, p) <==> PlanPoint(s, c, p)
  {
  }

  lemma RestatusFrames(s: State, t: State, b: Id)
    requires Restatus(s, t, b) && Frames(s)
    requires forall k :: k in t.credentials ==> t.credentials[k].id == k
    requires FreezesOk(t) && ReviewsOk(t)
    ensures Frames(t)
  {
    hide Restatus, Keyed, SensorsOk, RevisionsUnique, RevisionsChained, ProfilesOk, RangesOk, BatchesOk,
         SensorListsOk, DraftsPlain, FreezesOk, ReviewsOk;
    RestatusSensors(s, t, b);
    RestatusChain(s, t, b);
    RestatusBatches(s, t, b);
    RestatusLists(s, t, b);
    RestatusProfiles(s, t, b);
  }

  lemma RestatusChain(s: State, t: State, b: Id)
    requires Restatus(s, t, b) && RevisionsChained(s)
    ensures RevisionsChained(t)
  {
    forall x | x in t.sensors && t.sensors[x].revision > 1
      ensures HasRevision(t, t.sensors[x].batchID, t.sensors[x].code, t.sensors[x].revision - 1)
    {
      assert HasRevision(s, s.sensors[x].batchID, s.sensors[x].code, s.sensors[x].revision - 1);
    }
  }

  lemma RestatusBatches(s: State, t: State, b: Id)
    requires Restatus(s, t, b) && BatchesOk(s)
    ensures BatchesOk(t)
  {
    forall c | c in t.batches
      ensures BatchOk(t, t.batches[c])
    {
      assert BatchOk(s, s.batches[c]);
    }
  }

  lemma RestatusLists(s: State, t: State, b: Id)
    requires Restatus(s, t, b) && SensorListsOk(s) && DraftsPlain(s)
    ensures SensorListsOk(t) && DraftsPlain(t)
  {
  }

  lemma RestatusSensors(s: State, t: State, b: Id)
    requires Restatus(s, t, b) && Keyed(s) && SensorsOk(s) && RevisionsUnique(s) && RangesOk(s)
    requires forall k :: k in t.credentials ==> t.credentials[k].id == k
    ensures Keyed(t) && SensorsOk(t) && RevisionsUnique(t) && RangesOk(t)
  {
    RestatusPlans(s, t, b);
  }

  lemma RestatusProfiles(s: State, t: State, b: Id)
    requires Restatus(s, t, b) && ProfilesOk(s)
    ensures ProfilesOk(t)
  {
    forall k | k in t.profiles
      ensures ProfileOk(t, t.profiles[k])
    {
      assert ProfileOk(s, s.profiles[k]);
    }
  }

  /** A change of status keeps everything but what the status itself claims. */
  lemma RestatusCore(s: State, t: State, b: Id)
    requires Restatus(s, t, b) && Core(s)
    requires forall k :: k in t.credentials ==> t.credentials[k].id == k
    requires FreezesOk(t) && ReviewsOk(t) && EverMeasured(t)
    ensures Core(t)
  {
    hide FreezesOk, ReviewsOk, EverMeasured, TaskIndex, MeasurementsOk, DirectUnique, SamplersOk, PreviousMeasured;
    hide FindingsOk, OpenUntilPassed, ResolvedOk, FailuresFound, FindingsFounded, Frames, Restatus, Kept, NoNewPoints;
    RestatusFrames(s, t, b);
    RestatusKept(s, t, b);
    RestatusRecords(s, t, b);
    KeptPreviousMeasured(s, t);
    KeptHistory(s, t);
    KeptTaskIndex(s, t);
  }

  lemma RestatusKept(s: State, t: State, b: Id)
    requires Restatus(s, t, b)
    ensures Kept(s, t) && NoNewPoints(s, t) && t.tasks == s.tasks
  {
    RestatusPlans(s, t, b);
  }

  lemma RestatusRecords(s: State, t: State, b: Id)
    requires Restatus(s, t, b) && Core(s)
    ensures FindingsOk(t) && SamplersOk(t)
  {
    hide TaskIndex;
    RestatusPlans(s, t, b);
    forall f | f in t.findings
      ensures FindingOk(t, t.findings[f])
    {
      assert FindingOk(s, s.findings[f]);
    }
    forall x | x in s.sensors
      ensures s.sensors[x].batchID in s.batches
    {
      assert SensorOk(s, s.sensors[x]);
    }
    KeptSamplers(s, t);
  }

  lemma EvaluatedShape(t: State, b: Id, complete: bool)
    requires b in t.batches
    ensures var u := SetEvaluationStatusStep(t, b, complete).state;
      && b in u.batches && u == t.(batches := t.batches[b := u.batches[b]]) &&
          u.batches[b].profileID == t.batches[b].profileID
      && (t.batches[b].status == Returned ==> u.batches[b].status == Returned)
  {
    hide NoOpen, AllowedTransition, EvaluatedStatus;
  }

  lemma PlansByReference(t: State, u: State)
    requires u.profiles == t.profiles && u.batches.Keys == t.batches.Keys
    requires forall c :: c in t.batches ==> u.batches[c].profileID == t.batches[c].profileID
    ensures forall c :: ProfileOf(u, c) == ProfileOf(t, c)
  {
  }

  // ---------- other batches ----------

  ghost predicate OthersKept(s: State, t: State, b: Id) {
    forall c :: c != b ==> SameBatch(s, t, c)
  }

  lemma IsCurrentFrame(s: State, t: State, c: Id, x: Id)
    requires SameBatch(s, t, c)
    ensures IsCurrent(s, x, c) <==> IsCurrent(t, x, c)
  {
  }

  lemma StatusFrame(s: State, t: State, c: Id)
    requires SameBatch(s, t, c) && c in s.batches && StatusFits(s, c)
    requires FindingsOk(s) && MeasurementsOk(t)
    ensures StatusFits(t, c)
  {
    match s.batches[c].status
    case Failed =>
      var x :| IsCurrent(s, x, c) && CarriesOpen(s, x);
      var f :| OpenAt(s, f, x);
      assert FindingOk(s, s.findings[f]);
      assert OpenAt(t, f, x);
      IsCurrentFrame(s, t, c, x);
      assert IsCurrent(t, x, c) && CarriesOpen(t, x);
    case PlanLocked => UnmeasuredFrame(s, t, c);
    case Sampling => UnmeasuredFrame(s, t, c);
    case _ =>
  }

  lemma UnmeasuredFrame(s: State, t: State, c: Id)
    requires SameBatch(s, t, c) && MeasurementsOk(t)
    requires exists x, p :: Unmeasured(s, c, x, p)
    ensures exists x, p :: Unmeasured(t, c, x, p)
  {
    var x, p :| Unmeasured(s, c, x, p);
    IsCurrentFrame(s, t, c, x);
    forall m | m in t.measurements
      ensures !DirectAt(t, m, x, p)
    {
      assert MeasurementOk(t, t.measurements[m]);
      assert !DirectAt(s, m, x, p);
    }
    assert Unmeasured(t, c, x, p);
  }

  /** A step on one batch keeps what the status of every other batch claims. */
  lemma OthersStatus(s: State, t: State, b: Id)
    requires OthersKept(s, t, b) && StatusOk(s) && FindingsOk(s) && MeasurementsOk(t)
    requires t.batches.Keys == s.batches.Keys + {b} && StatusFits(t, b)
    ensures StatusOk(t)
  {
    hide FindingsOk, MeasurementsOk, SameBatch, StatusFits;
    forall c | c in t.batches
      ensures StatusFits(t, c)
    {
      if c != b {
        StatusFrame(s, t, c);
      }
    }
  }

  lemma CredentialFrame(h: Material -> string, s: State, t: State, c: Credential)
    requires CredentialOk(h, s, c) && SameBatch(s, t, c.batchID)
    ensures CredentialOk(h, t, c)
  {
    MaterialFrame(s, t, c.batchID, c.batchVersion);
    CurrentIdsFrame(s, t, c.batchID);
  }

  /** A step on a batch that is not released keeps all credentials. */
  lemma OthersCredentials(h: Material -> string, s: State, t: State, b: Id)
    requires OthersKept(s, t, b) && CredentialsOk(h, s) && CredentialsUnique(s) && t.credentials == s.credentials
    requires t.batches.Keys == s.batches.Keys + {b} && t.batches[b].status != Released
    requires b in s.batches ==> s.batches[b].status != Released
    ensures CredentialsOk(h, t) && CredentialsUnique(t)
  {
    forall c | c in t.credentials
      ensures CredentialOk(h, t, t.credentials[c])
    {
      assert CredentialOk(h, s, s.credentials[c]);
      CredentialFrame(h, s, t, s.credentials[c]);
    }
    forall c | c in t.batches && t.batches[c].status == Released
      ensures HasCredential(t, c)
    {
      assert SameBatch(s, t, c);
      assert HasCredential(s, c);
    }
  }
}
