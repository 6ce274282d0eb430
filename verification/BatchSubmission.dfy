/** A submission of several points: the order of the points does not matter, and it does what
    submitting the points in turn does. */
module BatchSubmission {
  import opened Entities
  import opened Statistics
  import opened Evidence
  import Frozen
  import opened Text
  import opened Domain
  import opened Invariant
  import opened Recording
  import StatusChange
  import opened Submission
  import Runs
  import Commands

  // ---------- two points commute ----------

  /** Identifiers of new findings that collide with nothing. */
  ghost predicate Apart(c: Reading, d: Reading) {
    && c.point != d.point && c.id != d.id
    && forall k, l :: 0 <= k < |c.findingIDs| && 0 <= l < |d.findingIDs| ==> c.findingIDs[k] != d.findingIDs[l]
  }

  lemma AddedKeys(p: Profile, b: Id, x: Id, item: Reading)
    requires |item.findingIDs| >= 3 && Distinct(item.findingIDs)
    ensures var added := NewFindings(b, x, DraftsOf(p, item), item.findingIDs);
      && (forall f :: f in added ==> f in item.findingIDs && added[f].point == item.point && added[f].sensorID == x)
      && (added == map[] <==> DraftsOf(p, item) == [])
  {
    NewFindingsMean(b, x, DraftsOf(p, item), item.findingIDs);
    forall i | 0 <= i < |DraftsOf(p, item)|
      ensures DraftsOf(p, item)[i].point == item.point
    {
      CompareIsExact(item.point, StatsOf(item.point, item.readings), p, "");
    }
    if DraftsOf(p, item) != [] {
      assert item.findingIDs[0] in NewFindings(b, x, DraftsOf(p, item), item.findingIDs);
    }
  }

  lemma ReplaceKeys(s: State, b: Id, x: Id, point: real, added: map<Id, Finding>, now: Time)
    ensures var r := ReplaceFindings(s, b, x, point, added, now);
      r.Keys == s.findings.Keys + added.Keys && forall f :: f in added ==> r[f] == added[f]
  {
  }

  lemma ReplaceAt(s: State, b: Id, x: Id, point: real, added: map<Id, Finding>, now: Time, f: Id)
    requires f in s.findings && f !in added
    ensures var r := ReplaceFindings(s, b, x, point, added, now);
      f in r && r[f] == if added == map[] &&
          Closes(s, b, x, point, s.findings[f]) then Close(s.findings[f], x, now) else s.findings[f]
  {
  }

  lemma FindingsCommute(s: State, b: Id, x: Id, p: real, q: real, added: map<Id, Finding>, more: map<Id, Finding>,
                        now: Time)
    requires p != q && (forall f :: f in added ==> f !in s.findings && f !in more && added[f].point == p)
    requires forall f :: f in more ==> f !in s.findings && f !in added && more[f].point == q
    ensures ReplaceFindings(s.(findings := ReplaceFindings(s, b, x, p, added, now)), b, x, q, more, now)
         == ReplaceFindings(s.(findings := ReplaceFindings(s, b, x, q, more, now)), b, x, p, added, now)
  {
    hide ReplaceFindings;
    var t := s.(findings := ReplaceFindings(s, b, x, p, added, now));
    var u := s.(findings := ReplaceFindings(s, b, x, q, more, now));
    ReplaceKeys(s, b, x, p, added, now);
    ReplaceKeys(s, b, x, q, more, now);
    ReplaceKeys(t, b, x, q, more, now);
    ReplaceKeys(u, b, x, p, added, now);
    forall f | f in s.findings.Keys + added.Keys + more.Keys
      ensures ReplaceFindings(t, b, x, q, more, now)[f] == ReplaceFindings(u, b, x, p, added, now)[f]
    {
      if f in s.findings {
        ReplaceAt(s, b, x, p, added, now, f);
        ReplaceAt(s, b, x, q, more, now, f);
        ReplaceAt(t, b, x, q, more, now, f);
        ReplaceAt(u, b, x, p, added, now, f);
      } else if f in added {
        ReplaceAt(t, b, x, q, more, now, f);
      } else {
        ReplaceAt(u, b, x, p, added, now, f);
      }
    }
  }

  lemma TasksCommute(tasks: map<Id, Task>, m: Measurement, n: Measurement, ds: seq<FindingDraft>,
                     es: seq<FindingDraft>, now: Time)
    requires m.point != n.point
    ensures UpdateTasks(UpdateTasks(tasks, m, ds, now), n, es, now) ==
        UpdateTasks(UpdateTasks(tasks, n, es, now), m, ds, now)
  {
  }

  lemma ReadingParts(s: State, p: Profile, b: Id, x: Id, actor: string, item: Reading, now: Time)
    requires b in s.batches && |item.findingIDs| >= 3
    ensures var t := ApplyReading(s, p, b, x, actor, item, now);
      && t.findings == ReplaceFindings(s, b, x, item.point, NewFindings(b, x, DraftsOf(p, item), item.findingIDs), now)
      && t.tasks == UpdateTasks(s.tasks, SetOf(b, x, actor, item, now), DraftsOf(p, item), now)
      && t.measurements == s.measurements[item.id := SetOf(b, x, actor, item, now)]
      && t.batches == s.batches[b := AddSampler(s.batches[b], actor)]
      && t == s.(batches := t.batches, measurements := t.measurements, tasks := t.tasks, findings := t.findings)
  {
  }

  lemma FindingsBySensors(s: State, t: State, b: Id, x: Id, point: real, added: map<Id, Finding>, now: Time)
    requires t.sensors == s.sensors
    ensures ReplaceFindings(t, b, x, point, added, now) ==
        ReplaceFindings(s.(findings := t.findings), b, x, point, added, now)
  {
    Commands.ReplaceAside(s.(findings := t.findings), t, b, x, point, added, now);
  }

  lemma ReadingsCommute(s: State, p: Profile, b: Id, x: Id, actor: string, c: Reading, d: Reading, now: Time)
    requires b in s.batches && Apart(c, d) && UnusedFindingIds(s, c.findingIDs) && UnusedFindingIds(s, d.findingIDs)
    ensures ApplyReading(ApplyReading(s, p, b, x, actor, c, now), p, b, x, actor, d, now)
         == ApplyReading(ApplyReading(s, p, b, x, actor, d, now), p, b, x, actor, c, now)
  {
    hide ApplyReading, ReplaceFindings, UpdateTasks, NewFindings, DraftsOf;
    BothAdded(s, p, b, x, c, d);
    var t := ApplyReading(s, p, b, x, actor, c, now);
    var u := ApplyReading(s, p, b, x, actor, d, now);
    var added := NewFindings(b, x, DraftsOf(p, c), c.findingIDs);
    var more := NewFindings(b, x, DraftsOf(p, d), d.findingIDs);
    ReadingParts(s, p, b, x, actor, c, now);
    ReadingParts(s, p, b, x, actor, d, now);
    ReadingParts(t, p, b, x, actor, d, now);
    ReadingParts(u, p, b, x, actor, c, now);
    FindingsBySensors(s, t, b, x, d.point, more, now);
    FindingsBySensors(s, u, b, x, c.point, added, now);
    FindingsCommute(s, b, x, c.point, d.point, added, more, now);
    TasksCommute(s.tasks, SetOf(b, x, actor, c, now), SetOf(b, x, actor, d, now), DraftsOf(p, c), DraftsOf(p, d), now);
  }

  lemma BothAdded(s: State, p: Profile, b: Id, x: Id, c: Reading, d: Reading)
    requires Apart(c, d) && UnusedFindingIds(s, c.findingIDs) && UnusedFindingIds(s, d.findingIDs)
    ensures |DraftsOf(p, c)| <= |c.findingIDs| && |DraftsOf(p, d)| <= |d.findingIDs|
    ensures var added := NewFindings(b, x, DraftsOf(p, c), c.findingIDs);
      var more := NewFindings(b, x, DraftsOf(p, d), d.findingIDs);
      && (forall f :: f in added ==> f !in s.findings && f !in more && added[f].point == c.point)
      && (forall f :: f in more ==> f !in s.findings && f !in added && more[f].point == d.point)
  {
    AddedKeys(p, b, x, c);
    AddedKeys(p, b, x, d);
  }

  // ---------- any order ----------

  /** Points, identifiers and finding identifiers are all different and the latter are new. */
  ghost predicate Separate(s: State, items: seq<Reading>) {
    && (forall i :: 0 <= i < |items| ==> UnusedFindingIds(s, items[i].findingIDs))
    && (forall i, j :: 0 <= i < j < |items| ==> Apart(items[i], items[j]))
  }

  lemma SeparateSupplied(s: State, items: seq<Reading>)
    requires Separate(s, items)
    ensures Supplied(items)
  {
    forall i | 0 <= i < |items|
      ensures |items[i].findingIDs| >= 3
    {
      assert UnusedFindingIds(s, items[i].findingIDs);
    }
  }

  lemma SeparatePart(s: State, items: seq<Reading>, n: nat)
    requires Separate(s, items) && n <= |items|
    ensures Separate(s, items[..n])
  {
  }

  lemma OneMoreUnused(t: State, p: Profile, b: Id, x: Id, actor: string, item: Reading, now: Time, ids: seq<Id>)
    requires b in t.batches && |item.findingIDs| >= 3 && Distinct(item.findingIDs) && UnusedFindingIds(t, ids)
    requires forall k, l :: 0 <= k < |item.findingIDs| && 0 <= l < |ids| ==> item.findingIDs[k] != ids[l]
    ensures UnusedFindingIds(ApplyReading(t, p, b, x, actor, item, now), ids)
  {
    AddedKeys(p, b, x, item);
    hide ApplyReading, ReplaceFindings, NewFindings, DraftsOf, Distinct;
    ReadingParts(t, p, b, x, actor, item, now);
    ReplaceKeys(t, b, x, item.point, NewFindings(b, x, DraftsOf(p, item), item.findingIDs), now);
  }

  lemma {:induction false} StillUnused(s: State, p: Profile, b: Id, x: Id, actor: string, items: seq<Reading>,
                                       now: Time, ids: seq<Id>)
    requires b in s.batches && Separate(s, items) && Supplied(items) && UnusedFindingIds(s, ids) && ClearOf(items, ids)
    ensures UnusedFindingIds(ApplyReadings(s, p, b, x, actor, items, now), ids)
  {
    hide ApplyReading, UnusedFindingIds, Distinct;
    if items != [] {
      var n := |items| - 1;
      SeparatePart(s, items, n);
      StillUnused(s, p, b, x, actor, items[..n], now, ids);
      LastSupplied(s, items);
      OneMoreUnused(ApplyReadings(s, p, b, x, actor, items[..n], now), p, b, x, actor, items[n], now, ids);
    }
  }

  lemma LastSupplied(s: State, items: seq<Reading>)
    requires Separate(s, items) && items != []
    ensures |items[|items| - 1].findingIDs| >= 3 && Distinct(items[|items| - 1].findingIDs)
  {
    assert UnusedFindingIds(s, items[|items| - 1].findingIDs);
  }

  ghost predicate ClearOf(items: seq<Reading>, ids: seq<Id>) {
    forall i, k, l :: 0 <= i < |items| && 0 <= k < |items[i].findingIDs| && 0 <= l < |ids| ==>
        items[i].findingIDs[k] != ids[l]
  }

  /** Recording `rest` and then two points in either order. */
  lemma SwapLast(s: State, p: Profile, b: Id, x: Id, actor: string, rest: seq<Reading>, c: Reading, d: Reading,
                 now: Time)
    requires b in s.batches && Separate(s, rest) && Supplied(rest) && Apart(c, d)
    requires UnusedFindingIds(s, c.findingIDs) && UnusedFindingIds(s, d.findingIDs) && ClearOf(rest, c.findingIDs)
    requires ClearOf(rest, d.findingIDs)
    ensures Supplied(rest + [c] + [d]) && Supplied(rest + [d] + [c])
    ensures ApplyReadings(s, p, b, x, actor, rest + [c] + [d], now) ==
        ApplyReadings(s, p, b, x, actor, rest + [d] + [c], now)
  {
    hide ApplyReading, ApplyReadings, Separate, Supplied, ClearOf, Apart;
    StillUnused(s, p, b, x, actor, rest, now, c.findingIDs);
    StillUnused(s, p, b, x, actor, rest, now, d.findingIDs);
    var t := ApplyReadings(s, p, b, x, actor, rest, now);
    ReadingsCommute(t, p, b, x, actor, c, d, now);
    ApplyOne(s, p, b, x, actor, rest, c, now);
    ApplyOne(s, p, b, x, actor, rest, d, now);
    ApplyOne(s, p, b, x, actor, rest + [c], d, now);
    ApplyOne(s, p, b, x, actor, rest + [d], c, now);
  }

  function Without(items: seq<Reading>, k: nat): seq<Reading>
    requires k < |items|
  {
    items[..k] + items[k + 1..]
  }

  /** A point may be taken out of its place and recorded last. */
  lemma {:induction false} LastInstead(s: State, p: Profile, b: Id, x: Id, actor: string, items: seq<Reading>,
                                       now: Time, k: nat)
    requires b in s.batches && Separate(s, items) && Supplied(items) && k < |items|
    ensures Supplied(Without(items, k) + [items[k]])
    ensures ApplyReadings(s, p, b, x, actor, items, now) ==
        ApplyReadings(s, p, b, x, actor, Without(items, k) + [items[k]], now)
  {
    hide ApplyReadings, Separate, Supplied, Apart;
    var n := |items| - 1;
    if k == n {
      assert items == Without(items, k) + [items[k]];
    } else {
      var init := items[..n];
      var rest := Without(init, k);
      SeparatePart(s, items, n);
      SeparateSupplied(s, init);
      LastInstead(s, p, b, x, actor, init, now, k);
      SeparateMoved(s, items, k);
      SeparateSupplied(s, rest);
      SwapLast(s, p, b, x, actor, rest, items[k], items[n], now);
      assert items == init + [items[n]] && init[k] == items[k];
      assert Without(items, k) == rest + [items[n]];
      ApplyOne(s, p, b, x, actor, init, items[n], now);
      ApplyOne(s, p, b, x, actor, rest + [items[k]], items[n], now);
    }
  }

  lemma ApplyOne(s: State, p: Profile, b: Id, x: Id, actor: string, items: seq<Reading>, last: Reading, now: Time)
    requires b in s.batches && Supplied(items) && |last.findingIDs| >= 3
    ensures Supplied(items + [last])
    ensures ApplyReadings(s, p, b, x, actor, items + [last], now) ==
        ApplyReading(ApplyReadings(s, p, b, x, actor, items, now), p, b, x, actor, last, now)
  {
    hide ApplyReading;
    assert (items + [last])[..|items|] == items;
  }

  lemma SeparateMoved(s: State, items: seq<Reading>, k: nat)
    requires Separate(s, items) && k < |items| - 1
    ensures var n := |items| - 1; var rest := Without(items[..n], k);
      && Separate(s, rest) && Apart(items[k], items[n]) && |items[n].findingIDs| >= 3
      && UnusedFindingIds(s, items[k].findingIDs) && UnusedFindingIds(s, items[n].findingIDs)
      && ClearOf(rest, items[k].findingIDs) && ClearOf(rest, items[n].findingIDs)
  {
    var n := |items| - 1;
    var rest := Without(items[..n], k);
    forall i | 0 <= i < |rest|
      ensures rest[i] == items[if i < k then i else i + 1]
    {
    }
    forall i | 0 <= i < |rest|
      ensures forall a, l :: 0 <= a < |rest[i].findingIDs| && 0 <= l < |items[k].findingIDs| ==>
          rest[i].findingIDs[a] != items[k].findingIDs[l]
    {
      if i < k {
        assert Apart(items[i], items[k]);
      } else {
        assert Apart(items[k], items[i + 1]);
      }
    }
  }

  lemma SeparateWithout(s: State, items: seq<Reading>, k: nat)
    requires Separate(s, items) && k < |items|
    ensures Separate(s, Without(items, k)) && |items[k].findingIDs| >= 3
  {
    hide Apart;
    var rest := Without(items, k);
    assert UnusedFindingIds(s, items[k].findingIDs);
    forall i | 0 <= i < |rest|
      ensures rest[i] == items[if i < k then i else i + 1]
    {
    }
  }

  lemma WithoutMembers(items: seq<Reading>, others: seq<Reading>, k: nat)
    requires k < |items| && others != [] && multiset(items) == multiset(others) && items[k] == others[|others| - 1]
    ensures multiset(Without(items, k)) == multiset(others[..|others| - 1])
  {
    assert items == items[..k] + [items[k]] + items[k + 1..];
    assert others == others[..|others| - 1] + [others[|others| - 1]];
    calc {
      multiset(Without(items, k));
      multiset(items[..k]) + multiset(items[k + 1..]);
      multiset(items) - multiset{items[k]};
      multiset(others) - multiset{others[|others| - 1]};
      multiset(others[..|others| - 1]);
    }
  }

  /** Recording the same points in any order gives the same state. */
  lemma {:induction false} AnyOrder(s: State, p: Profile, b: Id, x: Id, actor: string, items: seq<Reading>,
                                    others: seq<Reading>, now: Time)
    requires b in s.batches && Separate(s, items) && multiset(items) == multiset(others)
    ensures Supplied(items) && Supplied(others)
    ensures ApplyReadings(s, p, b, x, actor, items, now) == ApplyReadings(s, p, b, x, actor, others, now)
    decreases |others|
  {
    hide ApplyReadings, Separate, Supplied;
    SeparateSupplied(s, items);
    if others == [] {
      assert |multiset(items)| == |items|;
      assert items == [];
    } else {
      var last := others[|others| - 1];
      assert last in multiset(items);
      var k :| 0 <= k < |items| && items[k] == last;
      LastInstead(s, p, b, x, actor, items, now, k);
      SeparateWithout(s, items, k);
      WithoutMembers(items, others, k);
      AnyOrder(s, p, b, x, actor, Without(items, k), others[..|others| - 1], now);
      assert others == others[..|others| - 1] + [last];
      ApplyOne(s, p, b, x, actor, Without(items, k), last, now);
      ApplyOne(s, p, b, x, actor, others[..|others| - 1], last, now);
    }
  }

  // ---------- acceptance does not depend on the order either ----------

  /** One point on its own would be accepted. */
  ghost predicate ItemFine(s: State, b: Id, x: Id, actor: string, item: Reading)
    requires x in s.sensors
  {
    ItemError(s, b, x, actor, [item], 0) == None
  }

  ghost predicate NoTwins(items: seq<Reading>) {
    forall i, j :: 0 <= i < j < |items| ==> items[i].point != items[j].point && items[i].id != items[j].id
  }

  lemma {:induction false} FirstErrorNone(s: State, b: Id, x: Id, actor: string, items: seq<Reading>, n: nat)
    requires x in s.sensors && n <= |items|
    ensures FirstItemError(s, b, x, actor, items, n) == None <==> forall i :: 0 <= i < n ==>
        ItemError(s, b, x, actor, items, i) == None
  {
    hide ItemError;
    if n > 0 {
      FirstErrorNone(s, b, x, actor, items, n - 1);
    }
  }

  lemma ItemErrorSplits(s: State, b: Id, x: Id, actor: string, items: seq<Reading>, i: nat)
    requires x in s.sensors && i < |items|
    ensures ItemError(s, b, x, actor, items, i) == None <==>
      ItemFine(s, b, x, actor, items[i]) && forall j :: 0 <= j < i ==>
          items[j].point != items[i].point && items[j].id != items[i].id
  {
  }

  /** A submission is accepted exactly when every point on its own would be and no two share a point or identifier. */
  lemma AcceptedPointwise(s: State, b: Id, x: Id, actor: string, items: seq<Reading>)
    requires items != [] && b in s.batches && TakesReadings(s.batches[b].status) && IsCurrent(s, x, b)
    ensures SubmitError(s, b, x, actor, items) == None <==> NoTwins(items) && forall i :: 0 <= i < |items| ==>
        ItemFine(s, b, x, actor, items[i])
  {
    hide ItemError, IsCurrent, ItemFine;
    CurrentHere(s, x, b);
    FirstErrorNone(s, b, x, actor, items, |items|);
    forall i | 0 <= i < |items|
      ensures ItemError(s, b, x, actor, items, i) == None <==>
        ItemFine(s, b, x, actor, items[i]) && forall j :: 0 <= j < i ==>
            items[j].point != items[i].point && items[j].id != items[i].id
    {
      ItemErrorSplits(s, b, x, actor, items, i);
    }
  }

  lemma CurrentHere(s: State, x: Id, b: Id)
    requires IsCurrent(s, x, b)
    ensures x in s.sensors && s.sensors[x].batchID == b
  {
  }

  lemma TwinsPermute(items: seq<Reading>, others: seq<Reading>)
    requires multiset(items) == multiset(others) && NoTwins(items)
    ensures NoTwins(others)
  {
    forall i, j | 0 <= i < j < |others|
      ensures others[i].point != others[j].point && others[i].id != others[j].id
    {
      TwoPlaces(items, others, i, j);
    }
  }

  lemma CountTwo(items: seq<Reading>, i: nat, j: nat)
    requires i < j < |items| && items[i] == items[j]
    ensures multiset(items)[items[i]] >= 2
  {
    assert items == items[..i] + [items[i]] + items[i + 1..j] + [items[j]] + items[j + 1..];
  }

  lemma CountOne(items: seq<Reading>, k: nat)
    requires k < |items| && NoTwins(items)
    ensures multiset(items)[items[k]] == 1
  {
    assert items == items[..k] + [items[k]] + items[k + 1..];
    assert items[k] !in items[..k] && items[k] !in items[k + 1..];
  }

  lemma TwoPlaces(items: seq<Reading>, others: seq<Reading>, i: nat, j: nat)
    requires multiset(items) == multiset(others) && NoTwins(items) && i < j < |others|
    ensures others[i].point != others[j].point && others[i].id != others[j].id
  {
    assert others[i] in multiset(others) && others[j] in multiset(others);
    var k :| 0 <= k < |items| && items[k] == others[i];
    var l :| 0 <= l < |items| && items[l] == others[j];
    CountOne(items, k);
    if others[i] == others[j] {
      CountTwo(others, i, j);
    }
  }

  lemma SeparateItems(s: State, items: seq<Reading>)
    requires FreshItems(s, items) && NoTwins(items)
    ensures Separate(s, items)
  {
  }

  lemma AcceptedOrder(s: State, b: Id, x: Id, actor: string, items: seq<Reading>, others: seq<Reading>)
    requires multiset(items) == multiset(others) && SubmitError(s, b, x, actor, items) == None
    ensures SubmitError(s, b, x, actor, others) == None && NoTwins(items)
  {
    hide ItemFine, IsCurrent, FirstItemError;
    assert others != [] by {
      assert items[0] in multiset(others);
    }
    AcceptedPointwise(s, b, x, actor, items);
    AcceptedPointwise(s, b, x, actor, others);
    TwinsPermute(items, others);
    forall i | 0 <= i < |others|
      ensures ItemFine(s, b, x, actor, others[i])
    {
      assert others[i] in multiset(items);
    }
  }

  /** The order of the points of a submission does not matter: either both are refused, or both
      lead to the very same state. */
  lemma OrderIrrelevant(s: State, b: Id, x: Id, actor: string, items: seq<Reading>, others: seq<Reading>, now: Time)
    requires multiset(items) == multiset(others) && FreshItems(s, items) && Supplied(items) && Supplied(others)
    ensures SubmitError(s, b, x, actor, items) == None <==> SubmitError(s, b, x, actor, others) == None
    ensures SubmitError(s, b, x, actor, items) == None ==>
        SubmitStep(s, b, x, actor, items, now) == SubmitStep(s, b, x, actor, others, now)
  {
    hide SubmitError, FreshItems, Supplied, ApplyReadings, SetEvaluationStatusStep, Covered, NoTwins, Separate;
    if SubmitError(s, b, x, actor, others) == None {
      AcceptedOrder(s, b, x, actor, others, items);
    }
    if SubmitError(s, b, x, actor, items) == None {
      AcceptedOrder(s, b, x, actor, items, others);
      SeparateItems(s, items);
      Commands.SubmissionPlan(s, b, x, actor, items);
      AnyOrder(s, ProfileOf(s, b).value, b, x, actor, items, others, now);
    }
  }

  // ---------- one submission or several ----------

  lemma SuppliedParts(items: seq<Reading>, n: nat)
    requires Supplied(items) && n < |items|
    ensures Supplied(items[..n]) && |items[n].findingIDs| >= 3
  {
  }

  lemma {:induction false} ApplyConcat(s: State, p: Profile, b: Id, x: Id, actor: string, items: seq<Reading>,
                                       more: seq<Reading>, now: Time)
    requires b in s.batches && Supplied(items) && Supplied(more)
    ensures Supplied(items + more)
    ensures ApplyReadings(s, p, b, x, actor, items + more, now)
         == ApplyReadings(ApplyReadings(s, p, b, x, actor, items, now), p, b, x, actor, more, now)
  {
    hide ApplyReading, ApplyReadings, Supplied;
    if more == [] {
      assert items + more == items;
      NothingRecorded(ApplyReadings(s, p, b, x, actor, items, now), p, b, x, actor, more, now);
    } else {
      var n := |more| - 1;
      SuppliedParts(more, n);
      ApplyConcat(s, p, b, x, actor, items, more[..n], now);
      assert more == more[..n] + [more[n]] && items + more == items + more[..n] + [more[n]];
      ApplyOne(s, p, b, x, actor, items + more[..n], more[n], now);
      ApplyOne(ApplyReadings(s, p, b, x, actor, items, now), p, b, x, actor, more[..n], more[n], now);
    }
  }

  /** The state with another status and version for batch `b`. */
  ghost function Restamped(t: State, b: Id, st: Status, v: int): State
    requires b in t.batches
  {
    t.(batches := t.batches[b := t.batches[b].(status := st, version := v)])
  }

  lemma RestampedReading(s: State, p: Profile, b: Id, x: Id, actor: string, item: Reading, now: Time, st: Status,
                         v: int)
    requires b in s.batches && |item.findingIDs| >= 3
    ensures var t := ApplyReading(s, p, b, x, actor, item, now);
      b in t.batches && ApplyReading(Restamped(s, b, st, v), p, b, x, actor, item, now) == Restamped(t, b, st, v)
  {
    hide ApplyReading, ReplaceFindings, UpdateTasks, NewFindings, DraftsOf;
    EnoughDrafts(p, item);
    ReadingParts(s, p, b, x, actor, item, now);
    ReadingParts(Restamped(s, b, st, v), p, b, x, actor, item, now);
    Commands.ReplaceAside(s, Restamped(s, b, st, v), b, x, item.point,
        NewFindings(b, x, DraftsOf(p, item), item.findingIDs), now);
  }

  lemma EnoughDrafts(p: Profile, item: Reading)
    requires |item.findingIDs| >= 3
    ensures |DraftsOf(p, item)| <= |item.findingIDs|
  {
  }

  /** Recording readings neither looks at the status or version of the batch nor changes them. */
  lemma {:induction false} RestampedReadings(s: State, p: Profile, b: Id, x: Id, actor: string, items: seq<Reading>,
                                             now: Time, st: Status, v: int)
    requires b in s.batches && Supplied(items)
    ensures ApplyReadings(Restamped(s, b, st, v), p, b, x, actor, items, now) ==
        Restamped(ApplyReadings(s, p, b, x, actor, items, now), b, st, v)
  {
    hide ApplyReading;
    if items != [] {
      var n := |items| - 1;
      RestampedReadings(s, p, b, x, actor, items[..n], now, st, v);
      RestampedReading(ApplyReadings(s, p, b, x, actor, items[..n], now), p, b, x, actor, items[n], now, st, v);
    }
  }

  /** The status after evaluation. */
  ghost function NextStatus(st: Status, t: State, b: Id): Status {
    if st == Returned then Returned else EvaluatedStatus(t, b, Covered(t, b))
  }

  lemma EvaluatedRestamps(t: State, b: Id)
    requires b in t.batches && SetEvaluationStatusStep(t, b, Covered(t, b)).error == None
    ensures SetEvaluationStatusStep(t, b, Covered(t, b)).state ==
        Restamped(t, b, NextStatus(t.batches[b].status, t, b), t.batches[b].version + 1)
  {
    hide NoOpen, Covered;
  }

  /** What an accepted submission computes. */
  lemma SubmitComputes(s: State, b: Id, x: Id, actor: string, items: seq<Reading>, now: Time)
    requires Supplied(items) && SubmitStep(s, b, x, actor, items, now).error == None
    ensures SubmitError(s, b, x, actor, items) == None && b in s.batches && ProfileOf(s, b).Some?
    ensures var t := ApplyReadings(s, ProfileOf(s, b).value, b, x, actor, items, now);
      SubmitStep(s, b, x, actor, items, now).state ==
          Restamped(t, b, NextStatus(s.batches[b].status, t, b), s.batches[b].version + 1)
  {
    hide SubmitError, ApplyReadings, SetEvaluationStatusStep, Covered, Supplied, Restamped, NextStatus;
    Runs.SubmitAccepted(s, b, x, actor, items, now);
    Commands.SubmissionPlan(s, b, x, actor, items);
    EvaluatedRestamps(ApplyReadings(s, ProfileOf(s, b).value, b, x, actor, items, now), b);
  }

  lemma RestampedSame(t: State, b: Id, st: Status, v: int)
    requires b in t.batches
    ensures forall c :: ProfileOf(Restamped(t, b, st, v), c) == ProfileOf(t, c)
    ensures Covered(Restamped(t, b, st, v), b) <==> Covered(t, b)
    ensures NoOpen(Restamped(t, b, st, v), b) <==> NoOpen(t, b)
    ensures forall x :: IsCurrent(Restamped(t, b, st, v), x, b) <==> IsCurrent(t, x, b)
  {
    var u := Restamped(t, b, st, v);
    RestampedPlans(t, b, st, v);
    forall x
      ensures IsCurrent(u, x, b) <==> IsCurrent(t, x, b)
    {
    }
    forall m, x, p
      ensures IsEvidence(u, m, x, p) <==> IsEvidence(t, m, x, p)
    {
      EvidenceByRecords(t, u, m, x, p);
    }
    CoveredByEvidence(t, u, b);
    CoveredByEvidence(u, t, b);
  }

  lemma RestampedPlans(t: State, b: Id, st: Status, v: int)
    requires b in t.batches
    ensures forall c :: ProfileOf(Restamped(t, b, st, v), c) == ProfileOf(t, c)
  {
  }

  lemma EvidenceByRecords(t: State, u: State, m: Id, x: Id, p: real)
    requires u.sensors == t.sensors && u.measurements == t.measurements && u.findings == t.findings
    ensures IsEvidence(u, m, x, p) <==> IsEvidence(t, m, x, p)
  {
    forall k
      ensures DirectAt(u, k, x, p) <==> DirectAt(t, k, x, p)
    {
    }
    if x in t.sensors {
      forall f
        ensures BlockedBy(u, f, t.sensors[x], p) <==> BlockedBy(t, f, t.sensors[x], p)
      {
      }
      forall k
        ensures PreviousAt(u, k, t.sensors[x], p) <==> PreviousAt(t, k, t.sensors[x], p)
        ensures RevisionOf(u, k) == RevisionOf(t, k)
      {
      }
    }
  }

  lemma CoveredByEvidence(t: State, u: State, b: Id)
    requires u.measurements == t.measurements && ProfileOf(u, b) == ProfileOf(t, b)
    requires forall x :: IsCurrent(u, x, b) <==> IsCurrent(t, x, b)
    requires forall m, x, p :: IsEvidence(u, m, x, p) <==> IsEvidence(t, m, x, p)
    ensures Covered(t, b) ==> Covered(u, b)
  {
    hide IsCurrent, HasDirect, Blocked, LatestPrevious;
    if Covered(t, b) {
      forall x, p | IsCurrent(u, x, b) && p in ProfileOf(u, b).value.points
        ensures PointComplete(u, b, x, p)
      {
        assert PointComplete(t, b, x, p);
      }
    }
  }

  ghost predicate SameButVersion(s: State, t: State, b: Id) {
    b in s.batches && b in t.batches && t == Restamped(s, b, s.batches[b].status, t.batches[b].version)
  }

  lemma EvaluatedAlike(t: State, b: Id, st: Status, v: int)
    requires b in t.batches
    ensures EvaluatedStatus(Restamped(t, b, st, v), b, Covered(Restamped(t, b, st, v), b)) ==
        EvaluatedStatus(t, b, Covered(t, b))
  {
    hide Covered, NoOpen, Restamped;
    RestampedSame(t, b, st, v);
  }

  /** Nothing a submission decides depends on the status within those that take readings, or on the version. */
  lemma ItemFineRestamped(s: State, b: Id, x: Id, actor: string, item: Reading, st: Status, v: int)
    requires b in s.batches && x in s.sensors
    ensures ItemFine(Restamped(s, b, st, v), b, x, actor, item) <==> ItemFine(s, b, x, actor, item)
  {
    RestampedPlans(s, b, st, v);
    forall m
      ensures DirectAt(Restamped(s, b, st, v), m, x, item.point) <==> DirectAt(s, m, x, item.point)
    {
    }
  }

  lemma SubmitErrorRestamped(s: State, b: Id, x: Id, actor: string, items: seq<Reading>, st: Status, v: int)
    requires items != [] && b in s.batches && TakesReadings(s.batches[b].status) && TakesReadings(st)
    requires IsCurrent(s, x, b)
    ensures SubmitError(Restamped(s, b, st, v), b, x, actor, items) == None <==>
        SubmitError(s, b, x, actor, items) == None
  {
    hide ItemFine, IsCurrent, SubmitError;
    CurrentHere(s, x, b);
    RestampedSame(s, b, st, v);
    AcceptedPointwise(s, b, x, actor, items);
    AcceptedPointwise(Restamped(s, b, st, v), b, x, actor, items);
    forall i | 0 <= i < |items|
      ensures ItemFine(Restamped(s, b, st, v), b, x, actor, items[i]) <==> ItemFine(s, b, x, actor, items[i])
    {
      ItemFineRestamped(s, b, x, actor, items[i], st, v);
    }
  }

  /** The records after the first submission hold everything that was there and its own points. */
  ghost predicate Holds(s: State, t: State, x: Id, items: seq<Reading>) {
    && t.sensors == s.sensors
    && (forall m :: m in s.measurements ==> m in t.measurements && t.measurements[m] == s.measurements[m])
    && (forall m :: m in t.measurements ==> m in s.measurements || exists i :: 0 <= i < |items| && m == items[i].id)
    && (forall i :: 0 <= i < |items| ==>
        items[i].id in t.measurements && t.measurements[items[i].id].sensorID == x &&
            t.measurements[items[i].id].point == items[i].point)
  }

  lemma ItemFineLater(s: State, t: State, b: Id, x: Id, actor: string, items: seq<Reading>, item: Reading)
    requires x in s.sensors && Holds(s, t, x, items) && ProfileOf(t, b) == ProfileOf(s, b)
    ensures ItemFine(t, b, x, actor, item) <==>
      ItemFine(s, b, x, actor, item) && forall i :: 0 <= i < |items| ==>
          items[i].point != item.point && items[i].id != item.id
  {
    if ItemFine(t, b, x, actor, item) {
      forall i | 0 <= i < |items|
        ensures items[i].point != item.point
      {
        assert !DirectAt(t, items[i].id, x, item.point);
      }
      forall m
        ensures !DirectAt(s, m, x, item.point)
      {
        assert !DirectAt(t, m, x, item.point);
      }
    }
    if ItemFine(s, b, x, actor, item) && forall i :: 0 <= i < |items| ==>
        items[i].point != item.point && items[i].id != item.id {
      forall m
        ensures !DirectAt(t, m, x, item.point)
      {
        assert !DirectAt(s, m, x, item.point);
      }
    }
  }

  ghost predicate NoTwinsAcross(items: seq<Reading>, more: seq<Reading>) {
    forall i, j :: 0 <= i < |items| && 0 <= j < |more| ==> items[i].point != more[j].point && items[i].id != more[j].id
  }

  lemma TwinsConcat(items: seq<Reading>, more: seq<Reading>)
    ensures NoTwins(items + more) <==> (NoTwins(items) && NoTwins(more) && NoTwinsAcross(items, more))
  {
    var both := items + more;
    if NoTwins(both) {
      forall i, j | 0 <= i < |items| && 0 <= j < |more|
        ensures items[i].point != more[j].point && items[i].id != more[j].id
      {
        assert both[i] == items[i] && both[|items| + j] == more[j];
      }
      forall i, j | 0 <= i < j < |more|
        ensures more[i].point != more[j].point && more[i].id != more[j].id
      {
        assert both[|items| + i] == more[i] && both[|items| + j] == more[j];
      }
      forall i, j | 0 <= i < j < |items|
        ensures items[i].point != items[j].point && items[i].id != items[j].id
      {
        assert both[i] == items[i] && both[j] == items[j];
      }
    }
  }

  /** All points together are accepted exactly when the first are, and the rest are on the records they leave. */
  lemma ErrorsConcat(s: State, t: State, b: Id, x: Id, actor: string, items: seq<Reading>, more: seq<Reading>)
    requires items != [] && more != [] && b in s.batches && b in t.batches && TakesReadings(s.batches[b].status)
    requires TakesReadings(t.batches[b].status)
    requires IsCurrent(s, x, b) && Holds(s, t, x, items) && ProfileOf(t, b) == ProfileOf(s, b)
    requires SubmitError(s, b, x, actor, items) == None
    ensures SubmitError(s, b, x, actor, items + more) == None <==> SubmitError(t, b, x, actor, more) == None
  {
    hide ItemFine, IsCurrent, SubmitError, NoTwins, Holds;
    CurrentHere(s, x, b);
    CurrentHolds(s, t, b, x, items);
    AcceptedPointwise(s, b, x, actor, items);
    AcceptedPointwise(s, b, x, actor, items + more);
    AcceptedPointwise(t, b, x, actor, more);
    TwinsConcat(items, more);
    forall j | 0 <= j < |more|
      ensures ItemFine(t, b, x, actor, more[j]) <==>
        ItemFine(s, b, x, actor, more[j]) && forall i :: 0 <= i < |items| ==>
            items[i].point != more[j].point && items[i].id != more[j].id
    {
      ItemFineLater(s, t, b, x, actor, items, more[j]);
    }
    FineConcat(s, b, x, actor, items, more);
  }

  lemma CurrentHolds(s: State, t: State, b: Id, x: Id, items: seq<Reading>)
    requires Holds(s, t, x, items) && IsCurrent(s, x, b)
    ensures IsCurrent(t, x, b)
  {
  }

  lemma FineConcat(s: State, b: Id, x: Id, actor: string, items: seq<Reading>, more: seq<Reading>)
    requires x in s.sensors
    ensures (forall i :: 0 <= i < |items + more| ==> ItemFine(s, b, x, actor, (items + more)[i]))
      <==> ((forall i :: 0 <= i < |items| ==> ItemFine(s, b, x, actor, items[i]))
            && (forall i :: 0 <= i < |more| ==> ItemFine(s, b, x, actor, more[i])))
  {
    hide ItemFine;
    var both := items + more;
    if forall i :: 0 <= i < |both| ==> ItemFine(s, b, x, actor, both[i]) {
      forall i | 0 <= i < |items|
        ensures ItemFine(s, b, x, actor, items[i])
      {
        assert both[i] == items[i];
      }
      forall i | 0 <= i < |more|
        ensures ItemFine(s, b, x, actor, more[i])
      {
        assert both[|items| + i] == more[i];
      }
    }
  }

  // ---------- splitting a submission ----------

  lemma StepHolds(s: State, b: Id, x: Id, actor: string, items: seq<Reading>, now: Time)
    requires Core(s) && Acceptable(s, b, x, actor, items, now) && Supplied(items) && ProfileOf(s, b).Some?
    requires b in s.batches
    ensures var t := ApplyReadings(s, ProfileOf(s, b).value, b, x, actor, items, now);
      Holds(s, t, x, items) && ProfileOf(t, b) == ProfileOf(s, b)
  {
    hide Core, Acceptable, ApplyReadings;
    assert items[..|items|] == items;
    ApplyReadingsKeepCore(s, ProfileOf(s, b).value, b, x, actor, items, now, |items|);
  }

  lemma HoldsRestamped(s: State, t: State, b: Id, x: Id, items: seq<Reading>, st: Status, v: int)
    requires b in t.batches && Holds(s, t, x, items)
    ensures Holds(s, Restamped(t, b, st, v), x, items)
  {
  }

  lemma SubmittedCurrent(s: State, b: Id, x: Id, actor: string, items: seq<Reading>)
    requires SubmitError(s, b, x, actor, items) == None
    ensures items != [] && b in s.batches && TakesReadings(s.batches[b].status) && IsCurrent(s, x, b)
  {
  }

  lemma FreshPart(s: State, items: seq<Reading>, more: seq<Reading>)
    requires FreshItems(s, items + more)
    ensures FreshItems(s, items) && Supplied(items) && Supplied(more) && Supplied(items + more)
  {
    var both := items + more;
    forall i | 0 <= i < |items|
      ensures UnusedFindingIds(s, items[i].findingIDs)
    {
      assert both[i] == items[i];
    }
    forall i | 0 <= i < |more|
      ensures |more[i].findingIDs| >= 3
    {
      assert UnusedFindingIds(s, both[|items| + i].findingIDs);
    }
    forall i, j, k, l | 0 <= i < j < |items| && 0 <= k < |items[i].findingIDs| && 0 <= l < |items[j].findingIDs|
      ensures items[i].findingIDs[k] != items[j].findingIDs[l]
    {
      assert both[i] == items[i] && both[j] == items[j];
    }
    forall i | 0 <= i < |both|
      ensures |both[i].findingIDs| >= 3
    {
      assert UnusedFindingIds(s, both[i].findingIDs);
    }
  }

  lemma EvaluatedNotReturned(t: State, b: Id)
    ensures EvaluatedStatus(t, b, Covered(t, b)) != Returned
  {
  }

  /** What two submissions in a row compute, from what one submission of all their points computes. */
  lemma SplitStates(s: State, b: Id, x: Id, actor: string, items: seq<Reading>, more: seq<Reading>, now: Time)
    requires Supplied(items) && Supplied(more) && Supplied(items + more)
    requires SubmitStep(s, b, x, actor, items, now).error == None
    requires SubmitStep(SubmitStep(s, b, x, actor, items, now).state, b, x, actor, more, now).error == None
    requires SubmitStep(s, b, x, actor, items + more, now).error == None
    ensures SameButVersion(SubmitStep(s, b, x, actor, items + more, now).state,
        SubmitStep(SubmitStep(s, b, x, actor, items, now).state, b, x, actor, more, now).state, b)
  {
    hide ApplyReadings, SubmitStep, Covered, NoOpen, Supplied, EvaluatedStatus, SubmitError;
    SubmitComputes(s, b, x, actor, items, now);
    SubmitComputes(s, b, x, actor, items + more, now);
    var p := ProfileOf(s, b).value;
    var t := ApplyReadings(s, p, b, x, actor, items, now);
    var t1 := SubmitStep(s, b, x, actor, items, now).state;
    RestampedPlans(t, b, t1.batches[b].status, t1.batches[b].version);
    SubmitComputes(t1, b, x, actor, more, now);
    assert ProfileOf(t1, b) == ProfileOf(t, b) == ProfileOf(s, b);
    RestampedReadings(t, p, b, x, actor, more, now, t1.batches[b].status, t1.batches[b].version);
    ApplyConcat(s, p, b, x, actor, items, more, now);
    EvaluatedNotReturned(t, b);
    EvaluatedAlike(ApplyReadings(s, p, b, x, actor, items + more, now), b, t1.batches[b].status, t1.batches[b].version);
  }

  /** With one clock reading for all three submissions the states are equal but for the version. */
  lemma SplitAgreesAtOnce(h: Frozen.Material -> string, s: State, b: Id, x: Id, actor: string, items: seq<Reading>,
                          more: seq<Reading>, now: Time)
    requires Inv(h, s) && FreshItems(s, items + more) && now != 0 && Supplied(items) && Supplied(more)
    requires Supplied(items + more)
    requires SubmitStep(s, b, x, actor, items, now).error == None
    requires SubmitStep(SubmitStep(s, b, x, actor, items, now).state, b, x, actor, more, now).error == None
    ensures SubmitStep(s, b, x, actor, items + more, now).error == None
    ensures SameButVersion(SubmitStep(s, b, x, actor, items + more, now).state,
        SubmitStep(SubmitStep(s, b, x, actor, items, now).state, b, x, actor, more, now).state, b)
  {
    hide Core, StatusOk, CredentialsOk, CredentialsUnique, FreshItems, SubmitStep, SubmitError, Supplied,
         SameButVersion;
    FreshPart(s, items, more);
    Runs.SubmitAccepted(s, b, x, actor, items, now);
    SecondAccepted(s, b, x, actor, items, more, now);
    SubmitKeeps(h, s, b, x, actor, items + more, now);
    SplitStates(s, b, x, actor, items, more, now);
  }

  lemma SecondAccepted(s: State, b: Id, x: Id, actor: string, items: seq<Reading>, more: seq<Reading>, now: Time)
    requires Core(s) && FreshItems(s, items) && now != 0 && Supplied(items) && Supplied(more)
    requires SubmitStep(s, b, x, actor, items, now).error == None
    requires SubmitStep(SubmitStep(s, b, x, actor, items, now).state, b, x, actor, more, now).error == None
    ensures SubmitError(s, b, x, actor, items + more) == None
  {
    hide Core, FreshItems, SubmitStep, SubmitError, Supplied, IsCurrent, Holds, ApplyReadings, NextStatus, Covered,
         NoOpen;
    SubmitComputes(s, b, x, actor, items, now);
    SubmittedCurrent(s, b, x, actor, items);
    var t := ApplyReadings(s, ProfileOf(s, b).value, b, x, actor, items, now);
    var t1 := SubmitStep(s, b, x, actor, items, now).state;
    StepHolds(s, b, x, actor, items, now);
    HoldsRestamped(s, t, b, x, items, t1.batches[b].status, t1.batches[b].version);
    RestampedPlans(t, b, t1.batches[b].status, t1.batches[b].version);
    Runs.SubmitAccepted(t1, b, x, actor, more, now);
    SubmittedCurrent(t1, b, x, actor, more);
    ErrorsConcat(s, t1, b, x, actor, items, more);
  }

  /** When all points at once are accepted, so is any first part of them; the rest is then accepted
      exactly when the first part has not already made the batch ready for review.  Each of the three
      submissions reads its own clock. */
  lemma SplitExactly(h: Frozen.Material -> string, s: State, b: Id, x: Id, actor: string, items: seq<Reading>,
                     more: seq<Reading>, now: Time, first: Time, second: Time)
    requires Inv(h, s) && FreshItems(s, items + more) && first != 0 && second != 0
    requires Supplied(items) && Supplied(more) && Supplied(items + more)
    requires items != [] && more != [] && SubmitStep(s, b, x, actor, items + more, now).error == None
    ensures var o := SubmitStep(s, b, x, actor, items, first);
      && o.error == None && b in o.state.batches
      && (SubmitStep(o.state, b, x, actor, more, second).error == None <==> o.state.batches[b].status != ReadyReview)
  {
    hide Core, StatusOk, CredentialsOk, CredentialsUnique, FreshItems, SubmitStep, SubmitError, Supplied,
        StatusChange.OthersKept;
    Runs.SubmitAccepted(s, b, x, actor, items + more, now);
    FreshPart(s, items, more);
    FirstPartAccepted(s, b, x, actor, items, more);
    SubmitKeeps(h, s, b, x, actor, items, first);
    var t1 := SubmitStep(s, b, x, actor, items, first).state;
    RestAccepted(s, b, x, actor, items, more, first);
    if t1.batches[b].status != ReadyReview {
      RestFresh(s, b, x, actor, items, more, first);
      SubmitKeeps(h, t1, b, x, actor, more, second);
    } else {
      ReviewRefuses(t1, b, x, actor, more, second);
    }
  }

  lemma FirstPartAccepted(s: State, b: Id, x: Id, actor: string, items: seq<Reading>, more: seq<Reading>)
    requires items != [] && SubmitError(s, b, x, actor, items + more) == None
    ensures SubmitError(s, b, x, actor, items) == None
  {
    hide ItemFine, IsCurrent, SubmitError, NoTwins;
    SubmittedCurrent(s, b, x, actor, items + more);
    CurrentHere(s, x, b);
    AcceptedPointwise(s, b, x, actor, items + more);
    AcceptedPointwise(s, b, x, actor, items);
    TwinsConcat(items, more);
    FineConcat(s, b, x, actor, items, more);
  }

  lemma ReviewRefuses(t: State, b: Id, x: Id, actor: string, more: seq<Reading>, now: Time)
    requires Supplied(more) && b in t.batches && t.batches[b].status == ReadyReview && more != []
    ensures SubmitStep(t, b, x, actor, more, now).error != None
  {
  }

  /** After the first part the batch takes readings, and then the rest passes its checks, or is ready for review. */
  lemma RestAccepted(s: State, b: Id, x: Id, actor: string, items: seq<Reading>, more: seq<Reading>, now: Time)
    requires Core(s) && FreshItems(s, items) && now != 0 && Supplied(items) && Supplied(more) && items != []
    requires more != []
    requires SubmitStep(s, b, x, actor, items, now).error == None && SubmitError(s, b, x, actor, items + more) == None
    ensures var t1 := SubmitStep(s, b, x, actor, items, now).state;
      b in t1.batches && (t1.batches[b].status != ReadyReview ==> SubmitError(t1, b, x, actor, more) == None)
  {
    hide Core, FreshItems, SubmitStep, SubmitError, Supplied, IsCurrent, Holds, ApplyReadings, Covered, NoOpen;
    SubmitComputes(s, b, x, actor, items, now);
    SubmittedCurrent(s, b, x, actor, items);
    var t := ApplyReadings(s, ProfileOf(s, b).value, b, x, actor, items, now);
    var t1 := SubmitStep(s, b, x, actor, items, now).state;
    StepHolds(s, b, x, actor, items, now);
    HoldsRestamped(s, t, b, x, items, t1.batches[b].status, t1.batches[b].version);
    RestampedPlans(t, b, t1.batches[b].status, t1.batches[b].version);
    if t1.batches[b].status != ReadyReview {
      ErrorsConcat(s, t1, b, x, actor, items, more);
    }
  }

  /** The identifiers meant for the rest are still unused after the first part. */
  lemma RestFresh(s: State, b: Id, x: Id, actor: string, items: seq<Reading>, more: seq<Reading>, now: Time)
    requires FreshItems(s, items + more) && Supplied(items) && SubmitStep(s, b, x, actor, items, now).error == None
    requires SubmitError(s, b, x, actor, items) == None
    ensures FreshItems(SubmitStep(s, b, x, actor, items, now).state, more)
  {
    hide SubmitStep, SubmitError, ApplyReadings, Covered, Separate, NextStatus;
    SubmitComputes(s, b, x, actor, items, now);
    var t := ApplyReadings(s, ProfileOf(s, b).value, b, x, actor, items, now);
    AcceptedOrder(s, b, x, actor, items, items);
    FreshPart(s, items, more);
    SeparateItems(s, items);
    var both := items + more;
    forall j | 0 <= j < |more|
      ensures UnusedFindingIds(SubmitStep(s, b, x, actor, items, now).state, more[j].findingIDs)
    {
      assert both[|items| + j] == more[j];
      ClearPart(s, items, more, j);
      StillUnused(s, ProfileOf(s, b).value, b, x, actor, items, now, more[j].findingIDs);
    }
    forall i, j, k, l | 0 <= i < j < |more| && 0 <= k < |more[i].findingIDs| && 0 <= l < |more[j].findingIDs|
      ensures more[i].findingIDs[k] != more[j].findingIDs[l]
    {
      assert both[|items| + i] == more[i] && both[|items| + j] == more[j];
    }
  }

  lemma ClearPart(s: State, items: seq<Reading>, more: seq<Reading>, j: nat)
    requires FreshItems(s, items + more) && j < |more|
    ensures ClearOf(items, more[j].findingIDs)
  {
    var both := items + more;
    assert both[|items| + j] == more[j];
    forall i | 0 <= i < |items|
      ensures both[i] == items[i]
    {
    }
  }

  // ---------- the clock ----------

  ghost function TimelessFinding(f: Finding): Finding {
    if f.reviewedAt.Some? then f.(reviewedAt := Some(0)) else f
  }

  ghost function TimelessFindings(findings: map<Id, Finding>): map<Id, Finding> {
    map f | f in findings :: TimelessFinding(findings[f])
  }

  /** The state with every clock reading a submission may write set to zero. */
  ghost function Timeless(s: State): State {
    s.(measurements := map m | m in s.measurements :: s.measurements[m].(capturedAt := 0),
       tasks := map t | t in s.tasks :: s.tasks[t].(updatedAt := 0),
       findings := TimelessFindings(s.findings))
  }

  /** Equal but for the version of batch `b` and for the times of measurements, tasks and closings. */
  ghost predicate SameButClock(s: State, t: State, b: Id) {
    SameButVersion(Timeless(s), Timeless(t), b)
  }

  lemma TimelessPlans(s: State)
    ensures forall b :: ProfileOf(Timeless(s), b) == ProfileOf(s, b)
    ensures forall x, b :: IsCurrent(Timeless(s), x, b) <==> IsCurrent(s, x, b)
    ensures forall m, x, p :: DirectAt(Timeless(s), m, x, p) <==> DirectAt(s, m, x, p)
  {
  }

  lemma TimelessReplaced(s: State, b: Id, x: Id, point: real, added: map<Id, Finding>, now: Time)
    requires forall f :: f in added ==> added[f].reviewedAt == None
    ensures ReplaceFindings(Timeless(s), b, x, point, added, 0)
         == Timeless(s.(findings := ReplaceFindings(s, b, x, point, added, now))).findings
  {
    hide ReplaceFindings, Closes, Close, Timeless;
    TimelessHolds(s);
    TimelessHolds(s.(findings := ReplaceFindings(s, b, x, point, added, now)));
    var r := ReplaceFindings(s, b, x, point, added, now);
    var z := ReplaceFindings(Timeless(s), b, x, point, added, 0);
    ReplaceKeys(s, b, x, point, added, now);
    ReplaceKeys(Timeless(s), b, x, point, added, 0);
    forall f | f in r
      ensures z[f] == TimelessFinding(r[f])
    {
      if f !in added {
        ReplaceAt(s, b, x, point, added, now, f);
        ReplaceAt(Timeless(s), b, x, point, added, 0, f);
        TimelessClosing(s, b, x, point, s.findings[f], now);
      }
    }
  }

  lemma TimelessHolds(s: State)
    ensures Timeless(s).findings == TimelessFindings(s.findings)
  {
  }

  lemma TimelessClosing(s: State, b: Id, x: Id, point: real, f: Finding, now: Time)
    ensures Closes(Timeless(s), b, x, point, TimelessFinding(f)) <==> Closes(s, b, x, point, f)
    ensures Close(TimelessFinding(f), x, 0) == TimelessFinding(Close(f, x, now))
  {
  }

  lemma NewNeverReviewed(b: Id, x: Id, drafts: seq<FindingDraft>, ids: seq<Id>)
    requires |drafts| <= |ids|
    ensures forall f :: f in NewFindings(b, x, drafts, ids) ==> NewFindings(b, x, drafts, ids)[f].reviewedAt == None
  {
  }

  lemma TimelessTasks(s: State, m: Measurement, ds: seq<FindingDraft>, now: Time)
    ensures UpdateTasks(Timeless(s).tasks, m.(capturedAt := 0), ds, 0) ==
        Timeless(s.(tasks := UpdateTasks(s.tasks, m, ds, now))).tasks
  {
  }

  lemma TimelessReading(s: State, p: Profile, b: Id, x: Id, actor: string, item: Reading, now: Time)
    requires b in s.batches && |item.findingIDs| >= 3
    ensures ApplyReading(Timeless(s), p, b, x, actor, item, 0) == Timeless(ApplyReading(s, p, b, x, actor, item, now))
  {
    hide ApplyReading, ReplaceFindings, UpdateTasks, NewFindings, DraftsOf;
    EnoughDrafts(p, item);
    ReadingParts(s, p, b, x, actor, item, now);
    ReadingParts(Timeless(s), p, b, x, actor, item, 0);
    NewNeverReviewed(b, x, DraftsOf(p, item), item.findingIDs);
    TimelessReplaced(s, b, x, item.point, NewFindings(b, x, DraftsOf(p, item), item.findingIDs), now);
    TimelessTasks(s, SetOf(b, x, actor, item, now), DraftsOf(p, item), now);
  }

  lemma {:induction false} TimelessReadings(s: State, p: Profile, b: Id, x: Id, actor: string, items: seq<Reading>,
                                            now: Time)
    requires b in s.batches && Supplied(items)
    ensures ApplyReadings(Timeless(s), p, b, x, actor, items, 0) ==
        Timeless(ApplyReadings(s, p, b, x, actor, items, now))
  {
    hide ApplyReading, Timeless;
    assert Timeless(s).batches == s.batches by { TimelessBatches(s); }
    if items != [] {
      var n := |items| - 1;
      TimelessReadings(s, p, b, x, actor, items[..n], now);
      TimelessReading(ApplyReadings(s, p, b, x, actor, items[..n], now), p, b, x, actor, items[n], now);
    }
  }

  lemma TimelessBatches(s: State)
    ensures Timeless(s).batches == s.batches && Timeless(s).sensors == s.sensors
  {
  }

  lemma TimelessNoOpen(s: State, b: Id)
    ensures NoOpen(Timeless(s), b) <==> NoOpen(s, b)
  {
    var t := Timeless(s);
    forall f | f in s.findings
      ensures t.findings[f].batchID == s.findings[f].batchID && t.findings[f].status == s.findings[f].status
    {
    }
  }

  lemma TimelessEvidence(s: State, m: Id, x: Id, p: real)
    ensures IsEvidence(Timeless(s), m, x, p) <==> IsEvidence(s, m, x, p)
  {
    var t := Timeless(s);
    TimelessPlans(s);
    if x in s.sensors {
      forall f
        ensures BlockedBy(t, f, s.sensors[x], p) <==> BlockedBy(s, f, s.sensors[x], p)
      {
      }
      forall k
        ensures PreviousAt(t, k, s.sensors[x], p) <==> PreviousAt(s, k, s.sensors[x], p)
        ensures RevisionOf(t, k) == RevisionOf(s, k)
      {
      }
    }
  }

  lemma TimelessPoint(s: State, b: Id, x: Id, p: real)
    ensures PointComplete(Timeless(s), b, x, p) <==> PointComplete(s, b, x, p)
  {
    hide Blocked, LatestPrevious;
    TimelessPlans(s);
    forall m
      ensures IsEvidence(Timeless(s), m, x, p) <==> IsEvidence(s, m, x, p)
    {
      TimelessEvidence(s, m, x, p);
    }
    forall m | m in s.measurements
      ensures Timeless(s).measurements[m].readings == s.measurements[m].readings
    {
    }
  }

  lemma TimelessCovered(s: State, b: Id)
    ensures Covered(Timeless(s), b) <==> Covered(s, b)
  {
    hide IsEvidence, IsCurrent;
    var t := Timeless(s);
    TimelessPlans(s);
    forall x, p | Covered(s, b) && IsCurrent(t, x, b) && p in ProfileOf(t, b).value.points
      ensures PointComplete(t, b, x, p)
    {
      assert PointComplete(s, b, x, p);
      TimelessPoint(s, b, x, p);
    }
    forall x, p | Covered(t, b) && IsCurrent(s, x, b) && p in ProfileOf(s, b).value.points
      ensures PointComplete(s, b, x, p)
    {
      assert PointComplete(t, b, x, p);
      TimelessPoint(s, b, x, p);
    }
  }

  lemma TimelessItemError(s: State, b: Id, x: Id, actor: string, items: seq<Reading>, i: nat)
    requires x in s.sensors && i < |items|
    ensures ItemError(Timeless(s), b, x, actor, items, i) == ItemError(s, b, x, actor, items, i)
  {
    TimelessPlans(s);
    assert HasDirect(Timeless(s), x, items[i].point) <==> HasDirect(s, x, items[i].point);
  }

  lemma {:induction false} TimelessFirstError(s: State, b: Id, x: Id, actor: string, items: seq<Reading>, n: nat)
    requires x in s.sensors && n <= |items|
    ensures FirstItemError(Timeless(s), b, x, actor, items, n) == FirstItemError(s, b, x, actor, items, n)
  {
    hide ItemError, Timeless;
    TimelessBatches(s);
    if n > 0 {
      TimelessFirstError(s, b, x, actor, items, n - 1);
      TimelessItemError(s, b, x, actor, items, n - 1);
    }
  }

  lemma TimelessSubmitError(s: State, b: Id, x: Id, actor: string, items: seq<Reading>)
    ensures SubmitError(Timeless(s), b, x, actor, items) == SubmitError(s, b, x, actor, items)
  {
    hide FirstItemError, IsCurrent;
    TimelessPlans(s);
    if x in s.sensors {
      TimelessFirstError(s, b, x, actor, items, |items|);
    }
  }

  lemma TimelessRestatus(t: State, batches: map<Id, Batch>)
    ensures Timeless(t.(batches := batches)) == Timeless(t).(batches := batches)
  {
  }

  lemma EvaluatedOnlyBatches(t: State, b: Id, complete: bool)
    ensures var u := SetEvaluationStatusStep(t, b, complete).state; u == t.(batches := u.batches)
  {
    hide EvaluatedStatus, AllowedTransition, SetEvaluationStatusStep;
    EvaluatedCases(t, b, complete);
  }

  lemma EvaluatedByBatches(t: State, u: State, b: Id, complete: bool)
    requires u.batches == t.batches && EvaluatedStatus(u, b, complete) == EvaluatedStatus(t, b, complete)
    ensures SetEvaluationStatusStep(u, b, complete).error == SetEvaluationStatusStep(t, b, complete).error
    ensures SetEvaluationStatusStep(u, b, complete).state.batches ==
        SetEvaluationStatusStep(t, b, complete).state.batches
  {
    hide EvaluatedStatus, AllowedTransition, SetEvaluationStatusStep;
    EvaluatedCases(t, b, complete);
    EvaluatedCases(u, b, complete);
  }

  lemma EvaluatedCases(t: State, b: Id, complete: bool)
    ensures var o, next := SetEvaluationStatusStep(t, b, complete), EvaluatedStatus(t, b, complete);
      if b !in t.batches then o == Fail(t, NotFound)
      else if t.batches[b].status == Returned then o == Done(Restamped(t, b, Returned, t.batches[b].version + 1))
      else if !AllowedTransition(t.batches[b].status, next) && t.batches[b].status != next then o == Fail(t, Conflict)
      else o == Done(Restamped(t, b, next, t.batches[b].version + 1))
  {
    hide EvaluatedStatus, AllowedTransition;
  }

  lemma TimelessEvaluated(t: State, b: Id, complete: bool)
    ensures SetEvaluationStatusStep(Timeless(t), b, complete).state ==
        Timeless(SetEvaluationStatusStep(t, b, complete).state)
    ensures SetEvaluationStatusStep(Timeless(t), b, complete).error == SetEvaluationStatusStep(t, b, complete).error
  {
    hide EvaluatedStatus, SetEvaluationStatusStep, Timeless;
    TimelessBatches(t);
    TimelessStatus(t, b, complete);
    EvaluatedByBatches(t, Timeless(t), b, complete);
    EvaluatedOnlyBatches(t, b, complete);
    EvaluatedOnlyBatches(Timeless(t), b, complete);
    TimelessRestatus(t, SetEvaluationStatusStep(t, b, complete).state.batches);
  }

  lemma TimelessStatus(t: State, b: Id, complete: bool)
    ensures EvaluatedStatus(Timeless(t), b, complete) == EvaluatedStatus(t, b, complete)
  {
    hide NoOpen, Timeless;
    TimelessNoOpen(t, b);
  }

  /** A submission looks at no clock reading: without them it ends alike, whenever it is made. */
  lemma TimelessSubmit(s: State, b: Id, x: Id, actor: string, items: seq<Reading>, now: Time)
    requires Supplied(items)
    ensures SubmitStep(Timeless(s), b, x, actor, items, 0).error == SubmitStep(s, b, x, actor, items, now).error
    ensures SubmitStep(Timeless(s), b, x, actor, items, 0).state ==
        Timeless(SubmitStep(s, b, x, actor, items, now).state)
  {
    hide SubmitError, ApplyReadings, SetEvaluationStatusStep, Covered, Timeless, Supplied;
    TimelessSubmitError(s, b, x, actor, items);
    if SubmitError(s, b, x, actor, items) == None {
      PlanNeeded(s, b, x, actor, items);
      SubmittedCurrent(s, b, x, actor, items);
      TimelessProfile(s, b);
      var p := ProfileOf(s, b).value;
      TimelessReadings(s, p, b, x, actor, items, now);
      var t := ApplyReadings(s, p, b, x, actor, items, now);
      TimelessCovered(t, b);
      TimelessEvaluated(t, b, Covered(t, b));
    }
  }

  lemma TimelessProfile(s: State, b: Id)
    ensures ProfileOf(Timeless(s), b) == ProfileOf(s, b) && Timeless(s).batches == s.batches
  {
  }

  /** If the points are submitted in two parts and both are accepted, submitting them at once is
      accepted and leads to the same state but for the version and the times; each of the three
      submissions reads its own clock. */
  lemma SplitAgrees(h: Frozen.Material -> string, s: State, b: Id, x: Id, actor: string, items: seq<Reading>,
                    more: seq<Reading>, now: Time, first: Time, second: Time)
    requires Inv(h, s) && FreshItems(s, items + more) && Supplied(items) && Supplied(more) && Supplied(items + more)
    requires SubmitStep(s, b, x, actor, items, first).error == None
    requires SubmitStep(SubmitStep(s, b, x, actor, items, first).state, b, x, actor, more, second).error == None
    ensures SubmitStep(s, b, x, actor, items + more, now).error == None
    ensures SameButClock(SubmitStep(s, b, x, actor, items + more, now).state,
                         SubmitStep(SubmitStep(s, b, x, actor, items, first).state, b, x, actor, more, second).state, b)
  {
    hide Inv, FreshItems, SubmitStep, Supplied, SameButVersion, Timeless;
    TwoPartsTimeless(s, b, x, actor, items, more, first, second);
    TwoPartsTimeless(s, b, x, actor, items, more, 1, 1);
    SplitAgreesAtOnce(h, s, b, x, actor, items, more, 1);
    TimelessSubmit(s, b, x, actor, items + more, 1);
    TimelessSubmit(s, b, x, actor, items + more, now);
    VersionTimeless(SubmitStep(s, b, x, actor, items + more, 1).state,
                    SubmitStep(SubmitStep(s, b, x, actor, items, 1).state, b, x, actor, more, 1).state, b);
  }

  lemma TwoPartsTimeless(s: State, b: Id, x: Id, actor: string, items: seq<Reading>, more: seq<Reading>, first: Time,
                         second: Time)
    requires Supplied(items) && Supplied(more)
    ensures var o := SubmitStep(s, b, x, actor, items, first);
      var z := SubmitStep(Timeless(s), b, x, actor, items, 0);
      && z.error == o.error
      && SubmitStep(z.state, b, x, actor, more, 0).error == SubmitStep(o.state, b, x, actor, more, second).error
      && SubmitStep(z.state, b, x, actor, more, 0).state ==
          Timeless(SubmitStep(o.state, b, x, actor, more, second).state)
  {
    hide SubmitStep, Supplied, Timeless;
    TimelessSubmit(s, b, x, actor, items, first);
    TimelessSubmit(SubmitStep(s, b, x, actor, items, first).state, b, x, actor, more, second);
  }

  lemma VersionTimeless(s: State, t: State, b: Id)
    requires SameButVersion(s, t, b)
    ensures SameButClock(s, t, b)
  {
  }

  // ---------- one point at a time ----------

  /** The points submitted one by one, each at its own time, as long as each is accepted. */
  ghost function SubmitEach(s: State, b: Id, x: Id, actor: string, items: seq<Reading>, nows: seq<Time>): Outcome
    requires Supplied(items) && |nows| == |items|
  {
    if items == [] then Done(s)
    else
      var n := |items| - 1;
      var before := SubmitEach(s, b, x, actor, items[..n], nows[..n]);
      if before.error.Some? then before else SubmitStep(before.state, b, x, actor, [items[n]], nows[n])
  }

  lemma SameVersionAside(s: State, u: State, b: Id, x: Id, actor: string, items: seq<Reading>, now: Time)
    requires SameButVersion(s, u, b) && Supplied(items) && SubmitStep(u, b, x, actor, items, now).error == None
    ensures SubmitStep(s, b, x, actor, items, now).error == None
    ensures SameButVersion(SubmitStep(s, b, x, actor, items, now).state,
        SubmitStep(u, b, x, actor, items, now).state, b)
  {
    hide ApplyReadings, SubmitStep, SubmitError, Covered, NoOpen, Supplied, EvaluatedStatus, IsCurrent;
    var st, v := s.batches[b].status, u.batches[b].version;
    SubmitComputes(u, b, x, actor, items, now);
    SubmittedCurrent(u, b, x, actor, items);
    RestampedSame(s, b, st, v);
    SubmitErrorRestamped(s, b, x, actor, items, st, v);
    var p := ProfileOf(u, b).value;
    var t := ApplyReadings(s, p, b, x, actor, items, now);
    RestampedReadings(s, p, b, x, actor, items, now, st, v);
    EvaluatedAlike(t, b, st, v);
    StepFromChecks(s, u, t, b, x, actor, items, now, v);
  }

  lemma StepFromChecks(s: State, u: State, t: State, b: Id, x: Id, actor: string, items: seq<Reading>, now: Time,
                       v: int)
    requires Supplied(items) && SubmitError(s, b, x, actor, items) == None && SubmitError(u, b, x, actor, items) == None
    requires b in s.batches && ProfileOf(s, b).Some?
    requires t == ApplyReadings(s, ProfileOf(s, b).value, b, x, actor, items, now)
    requires ProfileOf(u, b) == ProfileOf(s, b) && b in u.batches && u.batches[b].status == s.batches[b].status
    requires ApplyReadings(u, ProfileOf(s, b).value, b, x, actor, items, now) == Restamped(t, b, s.batches[b].status, v)
    requires EvaluatedStatus(Restamped(t, b, s.batches[b].status, v), b,
        Covered(Restamped(t, b, s.batches[b].status, v), b)) == EvaluatedStatus(t, b, Covered(t, b))
    requires SubmitStep(u, b, x, actor, items, now).error == None
    ensures SubmitStep(s, b, x, actor, items, now).error == None
    ensures SameButVersion(SubmitStep(s, b, x, actor, items, now).state,
        SubmitStep(u, b, x, actor, items, now).state, b)
  {
    hide ApplyReadings, SubmitError, Covered, EvaluatedStatus, Supplied;
  }

  lemma SameVersionTransitive(s: State, t: State, u: State, b: Id)
    requires SameButVersion(s, t, b) && SameButVersion(t, u, b)
    ensures SameButVersion(s, u, b)
  {
  }

  lemma LastPart(s: State, items: seq<Reading>)
    requires items != [] && FreshItems(s, items)
    ensures var n := |items| - 1;
      && items[..n] + [items[n]] == items && FreshItems(s, items[..n]) && FreshItems(s, items[..n] + [items[n]])
      && Supplied(items[..n]) && Supplied([items[n]]) && Supplied(items[..n] + [items[n]]) && Supplied(items)
  {
    var n := |items| - 1;
    assert items[..n] + [items[n]] == items;
    FreshPart(s, items[..n], [items[n]]);
  }

  /** Submitting several points at once does what submitting them one at a time does, whenever each
      single submission is accepted and whatever its time: the state is the same but for the version
      and the times of measurements, tasks and closings. */
  lemma {:induction false} OneAtATime(h: Frozen.Material -> string, s: State, b: Id, x: Id, actor: string,
                                      items: seq<Reading>, now: Time, nows: seq<Time>)
    requires Inv(h, s) && FreshItems(s, items) && items != [] && Supplied(items) && |nows| == |items|
    requires SubmitEach(s, b, x, actor, items, nows).error == None
    ensures SubmitStep(s, b, x, actor, items, now).error == None
    ensures SameButClock(SubmitStep(s, b, x, actor, items, now).state, SubmitEach(s, b, x, actor, items, nows).state, b)
  {
    hide Inv, FreshItems, SubmitStep, Supplied, SameButVersion, Timeless;
    var n := |items| - 1;
    LastPart(s, items);
    if n == 0 {
      assert items[..0] == [] && [items[0]] == items;
      TimelessSubmit(s, b, x, actor, items, now);
      TimelessSubmit(s, b, x, actor, items, nows[0]);
      SameAsItself(Timeless(s), b, x, actor, items, 0);
    } else {
      var init := items[..n];
      OneAtATime(h, s, b, x, actor, init, now, nows[..n]);
      var each := SubmitEach(s, b, x, actor, init, nows[..n]).state;
      var whole := SubmitStep(s, b, x, actor, init, now).state;
      LastAside(whole, each, b, x, actor, [items[n]], now, nows[n]);
      SplitAgrees(h, s, b, x, actor, init, [items[n]], now, now, now);
      SameVersionTransitive(Timeless(SubmitStep(s, b, x, actor, items, now).state),
                            Timeless(SubmitStep(whole, b, x, actor, [items[n]], now).state),
                            Timeless(SubmitStep(each, b, x, actor, [items[n]], nows[n]).state), b);
    }
  }

  lemma LastAside(s: State, u: State, b: Id, x: Id, actor: string, items: seq<Reading>, now: Time, later: Time)
    requires SameButClock(s, u, b) && Supplied(items) && SubmitStep(u, b, x, actor, items, later).error == None
    ensures SubmitStep(s, b, x, actor, items, now).error == None
    ensures SameButClock(SubmitStep(s, b, x, actor, items, now).state,
        SubmitStep(u, b, x, actor, items, later).state, b)
  {
    hide SubmitStep, Supplied, SameButVersion, Timeless;
    TimelessSubmit(s, b, x, actor, items, now);
    TimelessSubmit(u, b, x, actor, items, later);
    SameVersionAside(Timeless(s), Timeless(u), b, x, actor, items, 0);
  }

  lemma SameAsItself(s: State, b: Id, x: Id, actor: string, items: seq<Reading>, now: Time)
    requires Supplied(items) && SubmitStep(s, b, x, actor, items, now).error == None
    ensures SameButVersion(SubmitStep(s, b, x, actor, items, now).state,
        SubmitStep(s, b, x, actor, items, now).state, b)
  {
    hide ApplyReadings, SubmitError, Covered, NoOpen, Supplied;
    SubmitComputes(s, b, x, actor, items, now);
  }
}
