/** The mutable projection: maps from identifiers to records, read and changed in place.

    `View` is the value a snapshot holds.  Loops over a map take its keys in any order, as the
    program's do; what they compute does not depend on it. */
module Snapshots {
  import opened Entities
  import opened Evidence
  import Frozen
  import opened Text
  import Domain
  import Invariant

  class Snapshot {
    var batches: map<Id, Batch>
    var sensors: map<Id, Sensor>
    var profiles: map<Id, Profile>
    var measurements: map<Id, Measurement>
    var findings: map<Id, Finding>
    var tasks: map<Id, Task>
    var credentials: map<Id, Credential>
    var reviews: seq<Review>

    ghost function View(): State
      reads this
    {
      State(batches, sensors, profiles, measurements, findings, tasks, credentials, reviews)
    }

    constructor ()
      ensures View() == EMPTY
    {
      batches, sensors, profiles, measurements := map[], map[], map[], map[];
      findings, tasks, credentials, reviews := map[], map[], map[], [];
    }

    /** A snapshot of its own with the content `s`, as decoded from a stored projection. */
    constructor Of(s: State)
      ensures View() == s
    {
      batches, sensors, profiles, measurements := s.batches, s.sensors, s.profiles, s.measurements;
      findings, tasks, credentials, reviews := s.findings, s.tasks, s.credentials, s.reviews;
    }

    method Content() returns (s: State)
      ensures s == View()
    {
      s := State(batches, sensors, profiles, measurements, findings, tasks, credentials, reviews);
    }

    // ---------- reading ----------

    method ProfileFor(b: Id) returns (p: Option<Profile>)
      ensures p == ProfileOf(View(), b)
    {
      p := None;
      if b in batches && batches[b].profileID in profiles {
        p := Some(profiles[batches[b].profileID]);
      }
    }

    method IsCurrentRevision(x: Id, b: Id) returns (r: bool)
      ensures r <==> IsCurrent(View(), x, b)
    {
      if x !in sensors || sensors[x].batchID != b {
        return false;
      }
      var todo := sensors.Keys;
      while todo != {}
        invariant todo <= sensors.Keys
        invariant forall c :: c in sensors && c !in todo && SameLine(sensors[c], sensors[x]) ==>
            sensors[c].revision <= sensors[x].revision
        decreases todo
      {
        var c :| c in todo;
        if sensors[c].batchID == b && sensors[c].code == sensors[x].code && sensors[c].revision > sensors[x].revision {
          return false;
        }
        todo := todo - {c};
      }
      r := true;
    }

    /** The current revision of every sensor code of the batch, each once. */
    method CurrentSensors(b: Id) returns (out: seq<Id>)
      requires Invariant.RevisionsUnique(View())
      ensures Distinct(out) && Elements(out) == Frozen.CurrentIds(View(), b)
    {
      hide Invariant.RevisionsUnique, IsCurrent;
      var latest: map<string, Id> := map[];
      var todo := sensors.Keys;
      while todo != {}
        invariant todo <= sensors.Keys
        invariant LatestByCode(View(), b, sensors.Keys - todo, latest)
        decreases todo
      {
        var x :| x in todo;
        todo := todo - {x};
        if sensors[x].batchID == b {
          var code := sensors[x].code;
          if code !in latest || sensors[x].revision > sensors[latest[code]].revision {
            latest := latest[code := x];
          }
        }
      }
      LatestIsCurrent(View(), b, latest);
      out := Values(latest);
    }

    /** The findings of the batch, or its open ones, each once. */
    method BatchFindings(b: Id, openOnly: bool) returns (out: seq<Id>)
      ensures Distinct(out)
      ensures forall f :: f in out <==>
          f in findings && findings[f].batchID == b && (openOnly ==> findings[f].status == Open)
      ensures openOnly ==> (out == [] <==> NoOpen(View(), b))
    {
      out := [];
      var todo := findings.Keys;
      while todo != {}
        invariant todo <= findings.Keys && Distinct(out)
        invariant forall f | f in out ::
            f in findings && f !in todo && findings[f].batchID == b && (openOnly ==> findings[f].status == Open)
        invariant forall f | f in findings && f !in todo && findings[f].batchID == b &&
            (openOnly ==> findings[f].status == Open) :: f in out
        decreases todo
      {
        var f :| f in todo;
        todo := todo - {f};
        if findings[f].batchID == b && (!openOnly || findings[f].status == Open) {
          out := out + [f];
        }
      }
      assert out != [] ==> out[0] in out;
    }

    method CredentialForBatch(b: Id) returns (c: Option<Id>)
      ensures c.Some? ==> c.value in credentials && credentials[c.value].batchID == b
      ensures c.None? <==> !Domain.HasCredential(View(), b)
    {
      var todo := credentials.Keys;
      while todo != {}
        invariant todo <= credentials.Keys
        invariant forall k :: k in credentials && k !in todo ==> credentials[k].batchID != b
        decreases todo
      {
        var k :| k in todo;
        if credentials[k].batchID == b {
          return Some(k);
        }
        todo := todo - {k};
      }
      c := None;
    }
  }

  // ---------- the newest revision of every code ----------

  /** For every code seen among `done`, `latest` names its newest revision. */
  ghost predicate LatestByCode(s: State, b: Id, done: set<Id>, latest: map<string, Id>) {
    && (forall code | code in latest :: latest[code] in s.sensors && latest[code] in done
          && s.sensors[latest[code]].batchID == b && s.sensors[latest[code]].code == code)
    && (forall x | x in done && x in s.sensors && s.sensors[x].batchID == b ::
          s.sensors[x].code in latest && s.sensors[x].revision <= s.sensors[latest[s.sensors[x].code]].revision)
  }

  ghost predicate Injective(latest: map<string, Id>) {
    forall c, d :: c in latest && d in latest && latest[c] == latest[d] ==> c == d
  }

  method Values(latest: map<string, Id>) returns (out: seq<Id>)
    requires Injective(latest)
    ensures Distinct(out) && Elements(out) == latest.Values
  {
    out := [];
    var codes := latest.Keys;
    while codes != {}
      invariant codes <= latest.Keys && Distinct(out)
      invariant forall x :: x in out ==> exists code :: code in latest && code !in codes && latest[code] == x
      invariant forall code :: code in latest && code !in codes ==> latest[code] in out
      decreases codes
    {
      var code :| code in codes;
      codes := codes - {code};
      assert latest[code] !in out;
      out := out + [latest[code]];
    }
  }

  lemma LatestIsCurrent(s: State, b: Id, latest: map<string, Id>)
    requires LatestByCode(s, b, s.sensors.Keys, latest) && Invariant.RevisionsUnique(s)
    ensures latest.Values == Frozen.CurrentIds(s, b)
    ensures Injective(latest)
  {
    forall x | x in Frozen.CurrentIds(s, b)
      ensures x in latest.Values
    {
      var y := latest[s.sensors[x].code];
      assert SameLine(s.sensors[y], s.sensors[x]);
      assert s.sensors[x].code in latest;
    }
  }
}
