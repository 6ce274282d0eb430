/** Review decisions and the credential keep the invariant. */
module Reviewing {
  import opened Entities
  import opened Evidence
  import opened Frozen
  import Text
  import opened Domain
  import opened Invariant
  import opened Keeping
  import opened StatusChange
  import Submission
  import Preservation

  /** The batch moves on and one review record is added. */
  ghost predicate Decided(s: State, t: State, b: Id, r: Review) {
    && Restatus(s, t, b) && t.credentials == s.credentials && t.reviews == s.reviews + [r]
    && r.batchID == b && r.reviewer != ""
    && (Sealed(t.batches[b].status) ==>
        t.batches[b].frozenAt.Some? && t.batches[b].reviewedBy != "" &&
            t.batches[b].reviewedBy !in t.batches[b].sampledBy)
    && (!Sealed(t.batches[b].status) ==> t.batches[b].frozenAt == s.batches[b].frozenAt && !Sealed(s.batches[b].status))
    && Evaluated(s.batches[b].status)
    && s.batches[b].status != Released && t.batches[b].status != Released
    && (t.batches[b].status == ReadyReview || Sealed(t.batches[b].status) ==> NoOpen(s, b))
    && (t.batches[b].status == ReadyReview || t.batches[b].status == Returned || Sealed(t.batches[b].status))
  }

  lemma DecidedFrames(s: State, t: State, b: Id, r: Review)
    requires Decided(s, t, b, r) && FreezesOk(s) && ReviewsOk(s)
    ensures FreezesOk(t) && ReviewsOk(t)
  {
  }

  lemma DecidedMeasured(s: State, t: State, b: Id, r: Review)
    requires Decided(s, t, b, r) && EverMeasured(s)
    ensures EverMeasured(t)
  {
    RestatusPlans(s, t, b);
    RestatusKept(s, t, b);
    forall x, p | x in t.sensors && t.sensors[x].batchID in t.batches &&
        Evaluated(t.batches[t.sensors[x].batchID].status)
        && PlanPoint(t, t.sensors[x].batchID, p)
      ensures Measured(t, t.sensors[x].batchID, t.sensors[x].code, p)
    {
      KeptMeasured(s, t, s.sensors[x].batchID, s.sensors[x].code, p);
    }
  }

  lemma ReviewsOfAppend(reviews: seq<Review>, r: Review, c: Id)
    requires r.batchID != c
    ensures ReviewsOf(reviews + [r], c) == ReviewsOf(reviews, c)
  {
    assert (reviews + [r])[..|reviews|] == reviews;
  }

  lemma DecidedOthers(s: State, t: State, b: Id, r: Review, c: Id)
    requires Decided(s, t, b, r) && c != b
    ensures SameBatch(s, t, c)
  {
    RestatusPlans(s, t, b);
    ReviewsOfAppend(s.reviews, r, c);
  }

  lemma DecidedCore(s: State, t: State, b: Id, r: Review)
    requires Decided(s, t, b, r) && Core(s)
    ensures Core(t)
  {
    CoreCredentials(s, t);
    hide Decided, Restatus, EverMeasured, FreezesOk, ReviewsOk, TaskIndex, Keyed;
    hide SensorsOk, RevisionsUnique, RevisionsChained, ProfilesOk, RangesOk, BatchesOk, SensorListsOk, DraftsPlain;
    hide MeasurementsOk, DirectUnique, SamplersOk, PreviousMeasured, FindingsOk, OpenUntilPassed, ResolvedOk,
         FailuresFound, FindingsFounded;
    DecidedFrames(s, t, b, r);
    DecidedMeasured(s, t, b, r);
    DecidedRestatus(s, t, b, r);
    RestatusCore(s, t, b);
  }

  lemma DecidedRestatus(s: State, t: State, b: Id, r: Review)
    requires Decided(s, t, b, r)
    ensures Restatus(s, t, b)
  {
  }

  lemma CoreCredentials(s: State, t: State)
    requires Core(s) && t.credentials == s.credentials
    ensures forall k :: k in t.credentials ==> t.credentials[k].id == k
  {
    hide History, TaskIndex;
  }

  lemma DecidedClaims(s: State, t: State, b: Id, r: Review)
    requires Decided(s, t, b, r)
    ensures b in s.batches && b in t.batches && t.batches.Keys == s.batches.Keys && t.credentials == s.credentials
    ensures s.batches[b].status != Released && t.batches[b].status != Released
    ensures StatusFits(t, b) && OthersKept(s, t, b)
  {
    forall c | c != b
      ensures SameBatch(s, t, c)
    {
      DecidedOthers(s, t, b, r, c);
    }
  }

  lemma DecidedKeeps(h: Material -> string, s: State, t: State, b: Id, r: Review)
    requires Decided(s, t, b, r) && Inv(h, s)
    ensures Inv(h, t) && OthersKept(s, t, b)
  {
    hide Core, StatusOk, CredentialsOk, CredentialsUnique, Decided, OthersKept, StatusFits;
    DecidedCore(s, t, b, r);
    DecidedClaims(s, t, b, r);
    Preservation.OpenClaims(h, s, t, b);
  }

  // ---------- approval and resubmission ----------

  lemma ApproveShape(s: State, b: Id, reviewer: string, comment: string, now: Time)
    requires ApproveReviewStep(s, b, reviewer, comment, now).error == None
    ensures b in s.batches && s.batches[b].status == ReadyReview && NoOpen(s, b) && reviewer !in s.batches[b].sampledBy
    ensures var bt := s.batches[b];
      ApproveReviewStep(s, b, reviewer, comment, now).state ==
        s.(reviews := s.reviews + [Review(b, reviewer, Approved, comment, [], now)],
           batches := s.batches[b := bt.(frozenAt := Some(now), reviewedBy := reviewer, status := Status.Frozen,
               version := bt.version + 1)])
  {
    hide NoOpen;
  }

  lemma ApproveDecides(s: State, b: Id, reviewer: string, comment: string, now: Time)
    requires Keyed(s) && BatchesOk(s) && FreezesOk(s) && reviewer != ""
    requires ApproveReviewStep(s, b, reviewer, comment, now).error == None
    ensures var t := ApproveReviewStep(s, b, reviewer, comment, now).state;
      Decided(s, t, b, Review(b, reviewer, Approved, comment, [], now)) &&
          t.batches[b].version == s.batches[b].version + 1
  {
    hide NoOpen, ApproveReviewStep, Keyed, FreezesOk;
    ApproveShape(s, b, reviewer, comment, now);
    assert BatchOk(s, s.batches[b]);
  }

  lemma ApproveKeeps(h: Material -> string, s: State, b: Id, reviewer: string, comment: string, now: Time)
    requires Inv(h, s) && reviewer != "" && ApproveReviewStep(s, b, reviewer, comment, now).error == None
    ensures var t := ApproveReviewStep(s, b, reviewer, comment, now).state;
      Inv(h, t) && OthersKept(s, t, b) && b in s.batches && t.batches.Keys == s.batches.Keys &&
          t.batches[b].version == s.batches[b].version + 1
  {
    hide SensorsOk, RevisionsUnique, RevisionsChained, ProfilesOk, RangesOk, BatchesOk, SensorListsOk, DraftsPlain,
         FreezesOk, ReviewsOk, Keyed;
    hide History, TaskIndex, StatusOk, CredentialsOk, CredentialsUnique, OthersKept;
    var t := ApproveReviewStep(s, b, reviewer, comment, now).state;
    ApproveDecides(s, b, reviewer, comment, now);
    hide Frames;
    DecidedKeeps(h, s, t, b, Review(b, reviewer, Approved, comment, [], now));
  }

  lemma ResubmitDecides(s: State, b: Id, actor: string, comment: string, now: Time)
    requires Keyed(s) && BatchesOk(s) && FreezesOk(s) && actor != ""
    requires ResubmitStep(s, b, actor, comment, now).error == None
    ensures var t := ResubmitStep(s, b, actor, comment, now).state;
      Decided(s, t, b, Review(b, actor, Resubmitted, comment, [], now)) &&
          t.batches[b].version == s.batches[b].version + 1
  {
    hide PointComplete, NoOpen, IsCurrent;
    assert BatchOk(s, s.batches[b]);
    assert s.batches[b].id == b;
  }

  lemma ResubmitKeeps(h: Material -> string, s: State, b: Id, actor: string, comment: string, now: Time)
    requires Inv(h, s) && actor != "" && ResubmitStep(s, b, actor, comment, now).error == None
    ensures var t := ResubmitStep(s, b, actor, comment, now).state;
      Inv(h, t) && OthersKept(s, t, b) && b in s.batches && t.batches.Keys == s.batches.Keys &&
          t.batches[b].version == s.batches[b].version + 1
  {
    hide SensorsOk, RevisionsUnique, RevisionsChained, ProfilesOk, RangesOk, BatchesOk, SensorListsOk, DraftsPlain,
         FreezesOk, ReviewsOk, Keyed;
    hide History, TaskIndex, StatusOk, CredentialsOk, CredentialsUnique, OthersKept;
    var t := ResubmitStep(s, b, actor, comment, now).state;
    ResubmitDecides(s, b, actor, comment, now);
    hide Frames;
    DecidedKeeps(h, s, t, b, Review(b, actor, Resubmitted, comment, [], now));
  }

  // ---------- return with corrections ----------

  /** The findings of a return, before the batch moves. */
  ghost predicate Noted(s: State, u: State, b: Id) {
    && u == s.(findings := u.findings) && b in s.batches
    && (forall f :: f in s.findings ==> f in u.findings && u.findings[f] == s.findings[f])
    && (forall f :: f in u.findings && f !in s.findings ==>
          AddedFinding(s, u.findings[f]) && FindingOk(s, u.findings[f]) && u.findings[f].id == f &&
              u.findings[f].batchID == b)
  }

  ghost predicate FreshCorrections(corrections: seq<Correction>) {
    forall i, j :: 0 <= i < j < |corrections| ==> corrections[i].id != corrections[j].id
  }

  lemma {:induction false} ManualFindingsMean(b: Id, corrections: seq<Correction>, reviewer: string)
    requires FreshCorrections(corrections)
    ensures var added := ManualFindings(b, corrections, reviewer);
      && (forall f :: f in added ==>
          exists i :: 0 <= i < |corrections| && f == corrections[i].id &&
              added[f] == ManualFinding(b, corrections[i], reviewer))
      && (forall i :: 0 <= i < |corrections| ==>
          corrections[i].id in added && added[corrections[i].id] == ManualFinding(b, corrections[i], reviewer))
  {
    if corrections != [] {
      hide ManualFinding;
      ManualFindingsMean(b, corrections[..|corrections| - 1], reviewer);
    }
  }

  lemma ReturnNotes(s: State, b: Id, reviewer: string, corrections: seq<Correction>)
    requires b in s.batches && !CorrectionsFail(s, b, corrections) && FreshCorrections(corrections) && reviewer != ""
    ensures Noted(s, s.(findings := s.findings + ManualFindings(b, corrections, reviewer)), b)
  {
    var added := ManualFindings(b, corrections, reviewer);
    ManualFindingsMean(b, corrections, reviewer);
    forall f | f in added
      ensures f !in s.findings && AddedFinding(s, added[f]) && FindingOk(s, added[f]) && added[f].id == f
      ensures added[f].batchID == b
    {
      var i :| 0 <= i < |corrections| && f == corrections[i].id &&
          added[f] == ManualFinding(b, corrections[i], reviewer);
      assert CorrectionError(s, b, corrections, i) == None;
    }
  }

  lemma NotedKept(s: State, u: State, b: Id)
    requires Noted(s, u, b) && FindingsOk(s)
    ensures Kept(s, u) && NoNewPoints(s, u) && FindingsOk(u) && u.tasks == s.tasks
  {
    forall c
      ensures ProfileOf(u, c) == ProfileOf(s, c)
    {
    }
    forall f | f in u.findings
      ensures FindingOk(u, u.findings[f])
    {
      if f in s.findings {
        assert FindingOk(s, s.findings[f]);
      } else {
        assert FindingOk(s, u.findings[f]);
      }
    }
  }

  lemma NotedSensors(s: State, u: State, b: Id)
    requires Noted(s, u, b) && SensorsOk(s) && RevisionsUnique(s) && RangesOk(s)
    ensures SensorsOk(u) && RevisionsUnique(u) && RangesOk(u)
  {
    forall c
      ensures ProfileOf(u, c) == ProfileOf(s, c)
    {
    }
    forall x | x in u.sensors
      ensures SensorOk(u, u.sensors[x])
    {
      assert SensorOk(s, s.sensors[x]);
    }
    forall c, p
      ensures PlanPoint(u, c, p) <==> PlanPoint(s, c, p)
    {
    }
  }

  lemma NotedChain(s: State, u: State, b: Id)
    requires Noted(s, u, b) && RevisionsChained(s) && Keyed(s)
    ensures RevisionsChained(u) && Keyed(u)
  {
    forall x | x in u.sensors && u.sensors[x].revision > 1
      ensures HasRevision(u, u.sensors[x].batchID, u.sensors[x].code, u.sensors[x].revision - 1)
    {
      assert HasRevision(s, s.sensors[x].batchID, s.sensors[x].code, s.sensors[x].revision - 1);
    }
  }

  lemma NotedBatches(s: State, u: State, b: Id)
    requires Noted(s, u, b) && BatchesOk(s) && ProfilesOk(s)
    ensures BatchesOk(u) && ProfilesOk(u)
  {
    forall c | c in u.batches
      ensures BatchOk(u, u.batches[c])
    {
      assert BatchOk(s, s.batches[c]);
    }
    forall k | k in u.profiles
      ensures ProfileOk(u, u.profiles[k])
    {
      assert ProfileOk(s, s.profiles[k]);
    }
  }

  lemma NotedLists(s: State, u: State, b: Id)
    requires Noted(s, u, b) && SensorListsOk(s) && DraftsPlain(s) && FreezesOk(s) && ReviewsOk(s)
    ensures SensorListsOk(u) && DraftsPlain(u) && FreezesOk(u) && ReviewsOk(u)
  {
  }

  lemma NotedRecords(s: State, u: State, b: Id)
    requires Noted(s, u, b) && SamplersOk(s) && MeasurementsOk(s) && SensorsOk(s) && EverMeasured(s) && Kept(s, u)
    ensures SamplersOk(u) && EverMeasured(u)
  {
    forall x | x in s.sensors
      ensures s.sensors[x].batchID in s.batches
    {
      assert SensorOk(s, s.sensors[x]);
    }
    KeptSamplers(s, u);
    forall c
      ensures ProfileOf(u, c) == ProfileOf(s, c)
    {
    }
    forall x, p | x in u.sensors && u.sensors[x].batchID in u.batches &&
        Evaluated(u.batches[u.sensors[x].batchID].status)
        && PlanPoint(u, u.sensors[x].batchID, p)
      ensures Measured(u, u.sensors[x].batchID, u.sensors[x].code, p)
    {
      KeptMeasured(s, u, s.sensors[x].batchID, s.sensors[x].code, p);
    }
  }

  lemma NotedCore(s: State, u: State, b: Id)
    requires Noted(s, u, b) && Core(s)
    ensures Core(u)
  {
    hide Noted, TaskIndex, Keyed, Kept, NoNewPoints;
    hide SensorsOk, RevisionsUnique, RevisionsChained, ProfilesOk, RangesOk, BatchesOk, SensorListsOk, DraftsPlain,
         FreezesOk, ReviewsOk;
    hide MeasurementsOk, DirectUnique, SamplersOk, PreviousMeasured, EverMeasured, FindingsOk, OpenUntilPassed,
         ResolvedOk, FailuresFound, FindingsFounded;
    NotedKept(s, u, b);
    NotedSensors(s, u, b);
    NotedChain(s, u, b);
    NotedBatches(s, u, b);
    NotedLists(s, u, b);
    NotedRecords(s, u, b);
    Preservation.KeptAll(s, u);
  }

  lemma NotedOthers(s: State, u: State, b: Id)
    requires Noted(s, u, b)
    ensures OthersKept(s, u, b)
  {
    forall c
      ensures ProfileOf(u, c) == ProfileOf(s, c)
    {
    }
  }

  lemma ReturnMoves(s: State, b: Id, reviewer: string, comment: string, corrections: seq<Correction>, now: Time)
    requires Keyed(s) && BatchesOk(s) && FreezesOk(s) && reviewer != ""
    requires ReturnStep(s, b, reviewer, comment, corrections, now).error == None
    ensures var u := s.(findings := s.findings + ManualFindings(b, corrections, reviewer));
      var t := ReturnStep(s, b, reviewer, comment, corrections, now).state;
      && b in s.batches && !CorrectionsFail(s, b, corrections) && t.batches[b].version == s.batches[b].version + 1 &&
          t.batches.Keys == s.batches.Keys
      && Decided(u, t, b, Review(b, reviewer, SentBack, comment, CorrectionIds(corrections), now))
  {
    hide CorrectionsFail, ManualFindings, CorrectionIds, NoOpen;
    assert BatchOk(s, s.batches[b]);
    assert s.batches[b].id == b;
  }

  lemma ReturnKeeps(h: Material -> string, s: State, b: Id, reviewer: string, comment: string,
                    corrections: seq<Correction>, now: Time)
    requires Inv(h, s) && reviewer != "" && FreshCorrections(corrections)
    requires ReturnStep(s, b, reviewer, comment, corrections, now).error == None
    ensures var t := ReturnStep(s, b, reviewer, comment, corrections, now).state;
      Inv(h, t) && OthersKept(s, t, b) && b in s.batches && t.batches.Keys == s.batches.Keys &&
          t.batches[b].version == s.batches[b].version + 1
  {
    hide SensorsOk, RevisionsUnique, RevisionsChained, ProfilesOk, RangesOk, BatchesOk, SensorListsOk, DraftsPlain,
         FreezesOk, ReviewsOk, Keyed;
    hide History, TaskIndex, StatusOk, CredentialsOk, CredentialsUnique, SameBatch, Decided, Noted;
    var u := s.(findings := s.findings + ManualFindings(b, corrections, reviewer));
    var r := Review(b, reviewer, SentBack, comment, CorrectionIds(corrections), now);
    var t := ReturnStep(s, b, reviewer, comment, corrections, now).state;
    ReturnMoves(s, b, reviewer, comment, corrections, now);
    hide Frames, ReturnStep, CorrectionsFail, FreshCorrections, ManualFindings;
    ReturnNotes(s, b, reviewer, corrections);
    ReturnClaims(h, s, u, t, b, r);
  }

  lemma ReturnClaims(h: Material -> string, s: State, u: State, t: State, b: Id, r: Review)
    requires Noted(s, u, b) && Decided(u, t, b, r) && u.batches == s.batches && u.credentials == s.credentials
    requires Inv(h, s)
    ensures Inv(h, t) && OthersKept(s, t, b)
  {
    hide Core, StatusOk, CredentialsOk, CredentialsUnique, Decided, Noted, SameBatch, StatusFits;
    NotedCore(s, u, b);
    NotedOthers(s, u, b);
    DecidedCore(u, t, b, r);
    DecidedClaims(u, t, b, r);
    forall c | c != b
      ensures SameBatch(s, t, c)
    {
      assert SameBatch(s, u, c) && SameBatch(u, t, c);
      Submission.SameBatchTransitive(s, u, t, c);
    }
    Preservation.OpenClaims(h, s, t, b);
  }

  // ---------- the credential ----------

  ghost predicate Issued(h: Material -> string, s: State, t: State, b: Id, id: Id, c: Credential) {
    && Restatus(s, t, b) && s.batches[b].status == Status.Frozen
    && t.batches[b] == s.batches[b].(status := Released, version := s.batches[b].version + 1)
    && t.reviews == s.reviews && id !in s.credentials && t.credentials == s.credentials[id := c]
    && c.id == id && c.batchID == b && c.batchVersion == s.batches[b].version &&
        c.sensorIDs == Text.Canonical(CurrentIds(s, b))
    && c.decision == APPROVED_FOR_DEPLOYMENT && c.contentDigest == h(MaterialOf(s, b, 0)) && c.issuedBy != "" &&
        c.issuedAt != 0
    && !HasCredential(s, b) && NoOpen(s, b)
  }

  lemma IssuedMaterial(h: Material -> string, s: State, t: State, b: Id, id: Id, c: Credential)
    requires Issued(h, s, t, b, id, c) && s.batches[b].version >= 1
    ensures CurrentIds(t, b) == CurrentIds(s, b)
    ensures MaterialOf(t, b, c.batchVersion) == MaterialOf(s, b, 0)
  {
    RestatusPlans(s, t, b);
    assert CurrentIds(t, b) == CurrentIds(s, b);
    assert MeasurementIds(t, b) == MeasurementIds(s, b) && FindingIds(t, b) == FindingIds(s, b) &&
        TaskIds(t, b) == TaskIds(s, b);
  }

  lemma IssuedOthers(h: Material -> string, s: State, t: State, b: Id, id: Id, c: Credential)
    requires Issued(h, s, t, b, id, c)
    ensures OthersKept(s, t, b)
  {
    hide MaterialOf, Text.Canonical, NoOpen, HasCredential, SamePlace;
    RestatusPlans(s, t, b);
  }

  lemma IssuedCredentials(h: Material -> string, s: State, t: State, b: Id, id: Id, c: Credential)
    requires Issued(h, s, t, b, id, c) && OthersKept(s, t, b) && s.batches[b].version >= 1
    requires CredentialsOk(h, s) && CredentialsUnique(s)
    ensures CredentialsOk(h, t) && CredentialsUnique(t)
  {
    hide SameBatch, MaterialOf, Restatus, Text.Canonical, CurrentIds, NoOpen;
    IssuedMaterial(h, s, t, b, id, c);
    NewCredentialOk(h, s, t, b, id, c);
    forall k | k in t.credentials
      ensures CredentialOk(h, t, t.credentials[k])
    {
      if k != id {
        assert CredentialOk(h, s, s.credentials[k]) && s.credentials[k].batchID != b;
        CredentialFrame(h, s, t, s.credentials[k]);
      }
    }
    forall d | d in t.batches && t.batches[d].status == Released
      ensures HasCredential(t, d)
    {
      if d == b {
        assert id in t.credentials;
      } else {
        OtherStillReleased(s, t, b, d);
        var k :| k in s.credentials && s.credentials[k].batchID == d;
        assert k in t.credentials && t.credentials[k] == s.credentials[k];
      }
    }
  }

  lemma NewCredentialOk(h: Material -> string, s: State, t: State, b: Id, id: Id, c: Credential)
    requires Issued(h, s, t, b, id, c) && s.batches[b].version >= 1
    ensures CredentialOk(h, t, c)
  {
    hide MaterialOf;
    IssuedMaterial(h, s, t, b, id, c);
  }

  lemma OtherStillReleased(s: State, t: State, b: Id, d: Id)
    requires OthersKept(s, t, b) && d != b && d in t.batches
    ensures d in s.batches && s.batches[d] == t.batches[d]
  {
    assert SameBatch(s, t, d);
  }

  lemma IssuedFrames(h: Material -> string, s: State, t: State, b: Id, id: Id, c: Credential)
    requires Issued(h, s, t, b, id, c) && Keyed(s) && FreezesOk(s) && ReviewsOk(s)
    ensures FreezesOk(t) && ReviewsOk(t)
    ensures forall k :: k in t.credentials ==> t.credentials[k].id == k
  {
  }

  lemma IssuedMeasured(h: Material -> string, s: State, t: State, b: Id, id: Id, c: Credential)
    requires Issued(h, s, t, b, id, c) && EverMeasured(s)
    ensures EverMeasured(t)
  {
    RestatusPlans(s, t, b);
    RestatusKept(s, t, b);
    forall x, p | x in t.sensors && t.sensors[x].batchID in t.batches &&
        Evaluated(t.batches[t.sensors[x].batchID].status)
        && PlanPoint(t, t.sensors[x].batchID, p)
      ensures Measured(t, t.sensors[x].batchID, t.sensors[x].code, p)
    {
      KeptMeasured(s, t, s.sensors[x].batchID, s.sensors[x].code, p);
    }
  }

  lemma IssuedCore(h: Material -> string, s: State, t: State, b: Id, id: Id, c: Credential)
    requires Issued(h, s, t, b, id, c) && Core(s)
    ensures Core(t) && s.batches[b].version >= 1
  {
    IssuedVersion(h, s, t, b, id, c);
    hide Issued, Restatus, EverMeasured, FreezesOk, ReviewsOk, TaskIndex, Keyed;
    hide SensorsOk, RevisionsUnique, RevisionsChained, ProfilesOk, RangesOk, BatchesOk, SensorListsOk, DraftsPlain;
    hide MeasurementsOk, DirectUnique, SamplersOk, PreviousMeasured, FindingsOk, OpenUntilPassed, ResolvedOk,
         FailuresFound, FindingsFounded;
    IssuedFrames(h, s, t, b, id, c);
    IssuedMeasured(h, s, t, b, id, c);
    RestatusCore(s, t, b);
  }

  lemma IssuedVersion(h: Material -> string, s: State, t: State, b: Id, id: Id, c: Credential)
    requires Issued(h, s, t, b, id, c) && Core(s)
    ensures s.batches[b].version >= 1 && Restatus(s, t, b)
  {
    hide History, TaskIndex;
    assert BatchOk(s, s.batches[b]);
  }

  lemma IssueIssues(h: Material -> string, s: State, b: Id, id: Id, actor: string, now: Time)
    requires Keyed(s) && BatchesOk(s) && id !in s.credentials && actor != "" && now != 0
    requires IssueStep(h, s, b, id, actor, now).error == None
    ensures var t := IssueStep(h, s, b, id, actor, now).state;
      && id in t.credentials && Issued(h, s, t, b, id, t.credentials[id]) && t.batches.Keys == s.batches.Keys
  {
    hide ReviewsOf, Text.Canonical, CurrentIds;
    hide MaterialOf, NoOpen, HasCredential;
    assert BatchOk(s, s.batches[b]);
    assert s.batches[b].id == b;
    hide BatchesOk, Keyed;
  }

  lemma IssueKeeps(h: Material -> string, s: State, b: Id, id: Id, actor: string, now: Time)
    requires Inv(h, s) && id !in s.credentials && actor != "" && now != 0
    requires IssueStep(h, s, b, id, actor, now).error == None
    ensures var t := IssueStep(h, s, b, id, actor, now).state;
      Inv(h, t) && OthersKept(s, t, b) && b in s.batches && t.batches.Keys == s.batches.Keys &&
          t.batches[b].version == s.batches[b].version + 1
  {
    hide SensorsOk, RevisionsUnique, RevisionsChained, ProfilesOk, RangesOk, BatchesOk, SensorListsOk, DraftsPlain,
         FreezesOk, ReviewsOk, Keyed;
    hide History, TaskIndex, StatusOk, CredentialsOk, CredentialsUnique, OthersKept, Issued;
    var t := IssueStep(h, s, b, id, actor, now).state;
    IssueIssues(h, s, b, id, actor, now);
    hide Frames, IssueStep;
    IssueClaims(h, s, t, b, id, t.credentials[id]);
  }

  lemma IssueClaims(h: Material -> string, s: State, t: State, b: Id, id: Id, c: Credential)
    requires Issued(h, s, t, b, id, c) && Inv(h, s) && t.batches.Keys == s.batches.Keys
    ensures Inv(h, t) && OthersKept(s, t, b) && b in s.batches && t.batches[b].version == s.batches[b].version + 1
  {
    hide Core, StatusOk, CredentialsOk, CredentialsUnique, SameBatch, Restatus;
    IssuedCore(h, s, t, b, id, c);
    IssuedOthers(h, s, t, b, id, c);
    IssuedCredentials(h, s, t, b, id, c);
    IssuedFits(h, s, t, b, id, c);
    CoreParts(s);
    CoreParts(t);
    OthersStatus(s, t, b);
  }

  lemma CoreParts(s: State)
    requires Core(s)
    ensures FindingsOk(s) && MeasurementsOk(s)
  {
  }

  lemma IssuedFits(h: Material -> string, s: State, t: State, b: Id, id: Id, c: Credential)
    requires Issued(h, s, t, b, id, c)
    ensures b in t.batches && StatusFits(t, b)
  {
  }
}
