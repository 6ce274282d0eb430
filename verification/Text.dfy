/** Strings as identifiers: the byte order used for canonical lists, blank text, and
    the supply of identifiers nobody has used yet. */
module Text {
  import opened Entities

  /** Lexicographic order, character by character, a proper prefix first. */
  predicate Less(a: string, b: string) {
    if b == "" then false
    else if a == "" then true
    else if a[0] != b[0] then a[0] < b[0]
    else Less(a[1..], b[1..])
  }

  lemma {:induction false} LessIrreflexive(a: string)
    ensures !Less(a, a)
  {
    if a != "" {
      LessIrreflexive(a[1..]);
    }
  }

  lemma {:induction false} LessTransitive(a: string, b: string, c: string)
    requires Less(a, b) && Less(b, c)
    ensures Less(a, c)
  {
    if a != "" && a[0] == b[0] && b[0] == c[0] {
      LessTransitive(a[1..], b[1..], c[1..]);
    }
  }

  lemma {:induction false} LessTotal(a: string, b: string)
    requires a != b
    ensures Less(a, b) || Less(b, a)
  {
    if a != "" && b != "" && a[0] == b[0] {
      assert a == [a[0]] + a[1..] && b == [b[0]] + b[1..];
      LessTotal(a[1..], b[1..]);
    }
  }

  lemma LessAsymmetric(a: string, b: string)
    requires Less(a, b)
    ensures !Less(b, a) && a != b
  {
    LessIrreflexive(a);
    if Less(b, a) {
      LessTransitive(a, b, a);
    }
  }

  lemma LessOneWay(a: string, b: string)
    ensures !(Less(a, b) && Less(b, a))
  {
    if Less(a, b) {
      LessAsymmetric(a, b);
    }
  }

  /** The texts agree up to a place where the first has ended or has the smaller character. */
  ghost predicate SmallerAt(a: string, b: string, k: nat) {
    k <= |a| && k < |b| && a[..k] == b[..k] && (k == |a| || a[k] < b[k])
  }

  /** The order compares at the first place where two texts differ. */
  lemma {:induction false} LessMeans(a: string, b: string)
    ensures Less(a, b) <==> exists k: nat :: SmallerAt(a, b, k)
  {
    if a == "" {
      assert b != "" ==> SmallerAt(a, b, 0);
    } else if b != "" && a[0] != b[0] {
      assert a[0] < b[0] ==> SmallerAt(a, b, 0);
      assert forall k: nat :: SmallerAt(a, b, k) && k > 0 ==> a[..k][0] == b[..k][0];
    } else if b != "" {
      LessMeans(a[1..], b[1..]);
      if k: nat :| SmallerAt(a[1..], b[1..], k) {
        assert a[..k + 1] == [a[0]] + a[1..][..k] && b[..k + 1] == [b[0]] + b[1..][..k];
        assert SmallerAt(a, b, k + 1);
      }
      if k: nat :| SmallerAt(a, b, k) {
        assert k > 0;
        assert a[1..][..k - 1] == a[..k][1..] && b[1..][..k - 1] == b[..k][1..];
        assert SmallerAt(a[1..], b[1..], k - 1);
      }
    }
  }

  // ---------- canonical lists of identifiers ----------

  function Elements<T>(xs: seq<T>): set<T> {
    set x | x in xs
  }

  lemma ElementsCons<T>(x: T, xs: seq<T>)
    ensures Elements([x] + xs) == {x} + Elements(xs)
  {
    forall y | y in {x} + Elements(xs)
      ensures y in [x] + xs
    {
      assert y == x || y in xs;
      assert ([x] + xs)[0] == x;
    }
  }

  ghost predicate Distinct<T>(xs: seq<T>) {
    forall i, j :: 0 <= i < j < |xs| ==> xs[i] != xs[j]
  }

  lemma {:induction false} DistinctSize<T>(xs: seq<T>)
    requires Distinct(xs)
    ensures |Elements(xs)| == |xs|
  {
    if xs != [] {
      DistinctSize(xs[1..]);
      assert xs == [xs[0]] + xs[1..];
      ElementsCons(xs[0], xs[1..]);
      assert xs[0] !in xs[1..];
    }
  }

  ghost predicate Ascending(xs: seq<Id>) {
    forall i, j :: 0 <= i < j < |xs| ==> Less(xs[i], xs[j])
  }

  function Insert(x: Id, xs: seq<Id>): (r: seq<Id>)
    ensures Elements(r) == Elements(xs) + {x}
  {
    if xs == [] then [x]
    else if x == xs[0] then xs
    else if Less(x, xs[0]) then
      ElementsCons(x, xs);
      [x] + xs
    else
      ElementsCons(xs[0], xs[1..]);
      ElementsCons(xs[0], Insert(x, xs[1..]));
      assert [xs[0]] + xs[1..] == xs;
      [xs[0]] + Insert(x, xs[1..])
  }

  /** The library sort, on lists that name nothing twice. */
  function SortIds(xs: seq<Id>): (r: seq<Id>)
    requires Distinct(xs)
    ensures Elements(r) == Elements(xs)
  {
    if xs == [] then []
    else
      assert Elements(xs) == {xs[0]} + Elements(xs[1..]);
      Insert(xs[0], SortIds(xs[1..]))
  }

  lemma {:induction false} InsertAscends(x: Id, xs: seq<Id>)
    requires Ascending(xs)
    ensures Ascending(Insert(x, xs))
  {
    if xs == [] || x == xs[0] {
    } else if Less(x, xs[0]) {
      forall i, j | 0 <= i < j < |xs| + 1
        ensures Less(([x] + xs)[i], ([x] + xs)[j])
      {
        if i == 0 && j > 1 {
          LessTransitive(x, xs[0], xs[j - 1]);
        }
      }
    } else {
      InsertAscends(x, xs[1..]);
      LessTotal(x, xs[0]);
      var rest := Insert(x, xs[1..]);
      forall j | 0 <= j < |rest|
        ensures Less(xs[0], rest[j])
      {
        assert rest[j] in Elements(rest);
        assert rest[j] == x || rest[j] in xs[1..];
      }
    }
  }

  lemma {:induction false} SortAscends(xs: seq<Id>)
    requires Distinct(xs)
    ensures Ascending(SortIds(xs))
  {
    if xs != [] {
      SortAscends(xs[1..]);
      InsertAscends(xs[0], SortIds(xs[1..]));
    }
  }

  lemma HeadIsFirst(xs: seq<Id>, y: Id)
    requires Ascending(xs) && y in xs
    ensures y == xs[0] || Less(xs[0], y)
  {
  }

  /** Two ascending lists with the same elements are the same list. */
  lemma {:induction false} AscendingUnique(xs: seq<Id>, ys: seq<Id>)
    requires Ascending(xs) && Ascending(ys) && Elements(xs) == Elements(ys)
    ensures xs == ys
  {
    assert xs != [] ==> xs[0] in Elements(xs);
    assert ys != [] ==> ys[0] in Elements(ys);
    if xs != [] {
      HeadIsFirst(xs, ys[0]);
      HeadIsFirst(ys, xs[0]);
      LessOneWay(xs[0], ys[0]);
      HeadNotInTail(xs);
      HeadNotInTail(ys);
      ElementsCons(xs[0], xs[1..]);
      ElementsCons(ys[0], ys[1..]);
      assert xs == [xs[0]] + xs[1..] && ys == [ys[0]] + ys[1..];
      assert Elements(xs[1..]) == Elements(xs) - {xs[0]};
      assert Elements(ys[1..]) == Elements(ys) - {ys[0]};
      AscendingUnique(xs[1..], ys[1..]);
    }
  }

  lemma HeadNotInTail(xs: seq<Id>)
    requires Ascending(xs) && xs != []
    ensures xs[0] !in xs[1..]
  {
    LessIrreflexive(xs[0]);
  }

  lemma {:induction false} Listable(ids: set<Id>)
    ensures exists xs :: Elements<Id>(xs) == ids && Distinct(xs)
  {
    if ids == {} {
      assert Elements<Id>([]) == ids;
    } else {
      var x :| x in ids;
      Listable(ids - {x});
      var xs :| Elements<Id>(xs) == ids - {x} && Distinct(xs);
      ElementsCons(x, xs);
      assert x !in Elements(xs);
      assert Elements([x] + xs) == ids && Distinct([x] + xs);
    }
  }

  /** The one ascending list of a set of identifiers. */
  ghost function Canonical(ids: set<Id>): (r: seq<Id>)
    ensures Elements(r) == ids && Ascending(r)
  {
    Listable(ids);
    var xs :| Elements<Id>(xs) == ids && Distinct(xs);
    SortAscends(xs);
    SortIds(xs)
  }

  /** Sorting any listing of a set, in whatever order it was collected, gives the canonical list. */
  lemma SortIsCanonical(xs: seq<Id>)
    requires Distinct(xs)
    ensures SortIds(xs) == Canonical(Elements(xs))
  {
    SortAscends(xs);
    AscendingUnique(SortIds(xs), Canonical(Elements(xs)));
  }

  lemma AscendingDistinct(xs: seq<Id>)
    requires Ascending(xs)
    ensures Distinct(xs)
  {
    forall i, j | 0 <= i < j < |xs|
      ensures xs[i] != xs[j]
    {
      LessAsymmetric(xs[i], xs[j]);
    }
  }

  // ---------- blank text ----------

  predicate Space(c: char) {
    c == ' ' || c == '\t' || c == '\n' || c == '\r' || c == '\U{B}' || c == '\U{C}' || c == '\U{85}' || c == '\U{A0}'
  }

  function TrimLeft(t: string): string {
    if t != "" && Space(t[0]) then TrimLeft(t[1..]) else t
  }

  function TrimRight(t: string): string {
    if t != "" && Space(t[|t| - 1]) then TrimRight(t[..|t| - 1]) else t
  }

  function Trim(t: string): string {
    TrimRight(TrimLeft(t))
  }

  predicate Blank(t: string) {
    Trim(t) == ""
  }

  ghost predicate AllSpace(t: string) {
    forall i :: 0 <= i < |t| ==> Space(t[i])
  }

  lemma {:induction false} TrimLeftMeans(t: string) returns (before: string)
    ensures t == before + TrimLeft(t) && AllSpace(before) && (TrimLeft(t) != "" ==> !Space(TrimLeft(t)[0]))
  {
    if t != "" && Space(t[0]) {
      before := TrimLeftMeans(t[1..]);
      before := [t[0]] + before;
    } else {
      before := "";
    }
  }

  lemma {:induction false} TrimRightMeans(t: string) returns (behind: string)
    ensures t == TrimRight(t) + behind && AllSpace(behind)
    ensures TrimRight(t) != "" ==> !Space(TrimRight(t)[|TrimRight(t)| - 1])
  {
    if t != "" && Space(t[|t| - 1]) {
      behind := TrimRightMeans(t[..|t| - 1]);
      behind := behind + [t[|t| - 1]];
    } else {
      behind := "";
    }
  }

  /** Trimming takes away white space at both ends, all of it and nothing else. */
  lemma TrimMeans(t: string) returns (before: string, behind: string)
    ensures t == before + Trim(t) + behind && AllSpace(before) && AllSpace(behind)
    ensures Trim(t) != "" ==> !Space(Trim(t)[0]) && !Space(Trim(t)[|Trim(t)| - 1])
  {
    before := TrimLeftMeans(t);
    behind := TrimRightMeans(TrimLeft(t));
    assert Trim(t) != "" ==> Trim(t)[0] == TrimLeft(t)[0];
  }

  lemma BlankMeans(t: string)
    ensures Blank(t) <==> AllSpace(t)
  {
    var before, behind := TrimMeans(t);
    assert Trim(t) != "" ==> t[|before|] == Trim(t)[0];
  }

  // ---------- unused identifiers ----------

  ghost function Longest(ids: set<Id>): nat {
    if ids == {} then 0
    else
      var x :| x in ids;
      var rest := Longest(ids - {x});
      if |x| > rest then |x| else rest
  }

  lemma {:induction false} LongestBounds(ids: set<Id>, x: Id)
    requires x in ids
    ensures |x| <= Longest(ids)
  {
    var y :| y in ids && Longest(ids) == (var rest := Longest(ids - {y}); if |y| > rest then |y| else rest);
    if x != y {
      LongestBounds(ids - {y}, x);
    }
  }

  function Repeat(n: nat): string {
    seq(n, _ => 'n')
  }

  /** There are always as many unused identifiers as a command asks for. */
  lemma UnusedExist(used: set<Id>, n: nat) returns (ids: seq<Id>)
    ensures |ids| == n && Distinct(ids)
    ensures forall i :: 0 <= i < n ==> ids[i] != "" && !Blank(ids[i]) && ids[i] !in used
  {
    ids := seq(n, i requires 0 <= i => Repeat(Longest(used) + 1 + i));
    forall i | 0 <= i < n
      ensures |ids[i]| == Longest(used) + 1 + i && ids[i] !in used && !Blank(ids[i])
    {
      var id := ids[i];
      assert id == Repeat(Longest(used) + 1 + i);
      if id in used {
        LongestBounds(used, id);
      }
    }
  }
}
