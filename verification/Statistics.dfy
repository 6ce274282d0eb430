/** Statistics of one set of repeated readings and the comparison with the locked limits. */
module Statistics {
  import opened Entities

  const ABSOLUTE_ERROR := "absolute_error"
  const RELATIVE_ERROR := "relative_error"
  const REPEATABILITY := "repeatability"

  function Abs(x: real): (r: real)
    ensures r >= 0.0 && (r == x || r == -x)
  {
    if x < 0.0 then -x else x
  }

  function Sum(xs: seq<real>): real {
    if xs == [] then 0.0 else Sum(xs[..|xs| - 1]) + xs[|xs| - 1]
  }

  ghost predicate IsLeast(m: real, xs: seq<real>) {
    m in xs && forall i :: 0 <= i < |xs| ==> m <= xs[i]
  }

  ghost predicate IsGreatest(m: real, xs: seq<real>) {
    m in xs && forall i :: 0 <= i < |xs| ==> xs[i] <= m
  }

  function Least(xs: seq<real>): (m: real)
    requires xs != []
    ensures IsLeast(m, xs)
  {
    if |xs| == 1 then xs[0]
    else var m := Least(xs[..|xs| - 1]); if xs[|xs| - 1] < m then xs[|xs| - 1] else m
  }

  function Greatest(xs: seq<real>): (m: real)
    requires xs != []
    ensures IsGreatest(m, xs)
  {
    if |xs| == 1 then xs[0]
    else var m := Greatest(xs[..|xs| - 1]); if xs[|xs| - 1] > m then xs[|xs| - 1] else m
  }

  /** The four figures of a set of readings against its reference point. */
  function StatsOf(reference: real, readings: seq<real>): Stats {
    if readings == [] then Stats(0.0, 0.0, 0.0, 0.0)
    else
      var mean := Sum(readings) / (|readings| as real);
      var abs := Abs(mean - reference);
      Stats(mean, abs, if reference != 0.0 then abs / Abs(reference) else 0.0, Greatest(readings) - Least(readings))
  }

  method Calculate(reference: real, readings: seq<real>) returns (st: Stats)
    ensures st == StatsOf(reference, readings)
  {
    hide Abs, IsLeast, IsGreatest;
    if |readings| == 0 {
      return Stats(0.0, 0.0, 0.0, 0.0);
    }
    var sum, min, max := 0.0, readings[0], readings[0];
    var i := 0;
    while i < |readings|
      invariant 0 <= i <= |readings|
      invariant sum == Sum(readings[..i])
      invariant i == 0 ==> min == readings[0] && max == readings[0]
      invariant i > 0 ==> min == Least(readings[..i]) && max == Greatest(readings[..i])
    {
      var value := readings[i];
      assert readings[..i + 1][..i] == readings[..i];
      sum := sum + value;
      if value < min {
        min := value;
      }
      if value > max {
        max := value;
      }
      i := i + 1;
    }
    assert readings[..i] == readings;
    var mean := sum / (|readings| as real);
    var abs := Abs(mean - reference);
    var rel := 0.0;
    if reference != 0.0 {
      rel := abs / Abs(reference);
    }
    st := Stats(mean, abs, rel, max - min);
  }

  datatype FindingDraft = FindingDraft(point: real, kind: string, severity: string, message: string)

  /** A limit of the profile that the figures exceed, named by the kind of problem it raises. */
  predicate Violates(kind: string, st: Stats, p: Profile) {
    || (kind == ABSOLUTE_ERROR && st.absoluteError > p.absoluteTolerance)
    || (kind == RELATIVE_ERROR && st.relativeError > p.relativeTolerance)
    || (kind == REPEATABILITY && st.spread > p.repeatabilityLimit)
  }

  predicate Passes(st: Stats, p: Profile) {
    && st.absoluteError <= p.absoluteTolerance
    && st.relativeError <= p.relativeTolerance
    && st.spread <= p.repeatabilityLimit
  }

  /** The drafts of the exceeded limits. */
  function Compare(point: real, st: Stats, p: Profile): (drafts: seq<FindingDraft>)
    ensures |drafts| <= 3
    ensures drafts == [] <==> Passes(st, p)
  {
    (if st.absoluteError > p.absoluteTolerance
     then [FindingDraft(point, ABSOLUTE_ERROR, "critical", "absolute error over tolerance")] else [])
    + (if st.relativeError > p.relativeTolerance
       then [FindingDraft(point, RELATIVE_ERROR, "critical", "relative error over tolerance")] else [])
    + (if st.spread > p.repeatabilityLimit
       then [FindingDraft(point, REPEATABILITY, "critical", "spread over repeatability limit")] else [])
  }

  /** There is exactly one draft for every exceeded limit, and nothing else. */
  lemma CompareIsExact(point: real, st: Stats, p: Profile, kind: string)
    ensures var drafts := Compare(point, st, p);
      && (Violates(kind, st, p) <==> exists i :: 0 <= i < |drafts| && drafts[i].kind == kind)
      && (forall i, j :: 0 <= i < j < |drafts| ==> drafts[i].kind != drafts[j].kind)
      && (forall i :: 0 <= i < |drafts| ==>
           drafts[i].point == point && drafts[i].kind != "" && drafts[i].severity == "critical" &&
               drafts[i].message != "")
  {
    var a, b, c := st.absoluteError > p.absoluteTolerance, st.relativeError > p.relativeTolerance,
        st.spread > p.repeatabilityLimit;
    var drafts := Compare(point, st, p);
    assert |ABSOLUTE_ERROR| == 14 && ABSOLUTE_ERROR[0] == 'a';
    assert |RELATIVE_ERROR| == 14 && RELATIVE_ERROR[0] == 'r';
    assert |REPEATABILITY| == 13;
    if a { assert drafts[0].kind == ABSOLUTE_ERROR; }
    if b { assert drafts[if a then 1 else 0].kind == RELATIVE_ERROR; }
    if c { assert drafts[|drafts| - 1].kind == REPEATABILITY; }
  }

  // ---------- the limits over the readings themselves ----------

  /** What a limit means for the readings, without the figures and without division: the sum of `n`
      readings is off `n` times the point by more than `n` times the tolerance, absolutely or as a
      share of the point, or two readings lie further apart than the repeatability limit. */
  ghost predicate Exceeds(kind: string, point: real, xs: seq<real>, absolute: real, relative: real,
                          repeatability: real) {
    var n := |xs| as real;
    || (kind == "absolute_error" && Abs(Sum(xs) - n * point) > n * absolute)
    || (kind == "relative_error" &&
          if point == 0.0 then relative < 0.0 else Abs(Sum(xs) - n * point) > n * (relative * Abs(point)))
    || (kind == "repeatability" && exists i, j :: 0 <= i < |xs| && 0 <= j < |xs| && xs[i] - xs[j] > repeatability)
  }

  /** The figures exceed a limit of the profile exactly when the readings do. */
  lemma ViolatesOverReadings(kind: string, point: real, xs: seq<real>, p: Profile)
    requires xs != []
    ensures Violates(kind, StatsOf(point, xs), p) <==>
      Exceeds(kind, point, xs, p.absoluteTolerance, p.relativeTolerance, p.repeatabilityLimit)
  {
    hide StatsOf, Sum, Abs;
    FiguresOverReadings(point, xs, p.absoluteTolerance, p.relativeTolerance, p.repeatabilityLimit);
  }

  lemma FiguresOverReadings(point: real, xs: seq<real>, absolute: real, relative: real, repeatability: real)
    requires xs != []
    ensures var n, st := |xs| as real, StatsOf(point, xs);
      && (st.absoluteError > absolute <==> Abs(Sum(xs) - n * point) > n * absolute)
      && (st.relativeError > relative <==>
            if point == 0.0 then relative < 0.0 else Abs(Sum(xs) - n * point) > n * (relative * Abs(point)))
      && (st.spread > repeatability <==>
            exists i, j :: 0 <= i < |xs| && 0 <= j < |xs| && xs[i] - xs[j] > repeatability)
  {
    hide Sum, Least, Greatest, StatsOf, Abs;
    var n, st := |xs| as real, StatsOf(point, xs);
    Figures(point, xs);
    AbsoluteOver(n, Sum(xs), point, st.absoluteError, absolute);
    if point != 0.0 {
      RelativeOver(n, Sum(xs), point, st.absoluteError, st.relativeError, relative);
    }
    SpreadOver(xs, repeatability);
  }

  lemma Figures(point: real, xs: seq<real>)
    requires xs != []
    ensures var n, st := |xs| as real, StatsOf(point, xs);
      && st.absoluteError == Abs(Sum(xs) / n - point) && st.spread == Greatest(xs) - Least(xs)
      && (if point == 0.0 then st.relativeError == 0.0
          else Abs(point) > 0.0 && st.relativeError == st.absoluteError / Abs(point))
  {
    hide Sum, Least, Greatest;
  }

  /** n times the distance of the mean is the distance of the sum. */
  lemma MeanOff(n: real, sum: real, point: real)
    requires n >= 1.0
    ensures n * Abs(sum / n - point) == Abs(sum - n * point)
  {
    var mean := sum / n;
    assert n * mean == sum;
    Product(n, mean, point);
    Product(n, point, mean);
    if mean > point {
      PositiveProduct(n, mean - point);
    } else if mean < point {
      PositiveProduct(n, point - mean);
    }
  }

  lemma Larger(n: real, x: real, limit: real)
    requires n > 0.0
    ensures x > limit <==> n * x > n * limit
  {
    if x > limit {
      PositiveProduct(n, x - limit);
      Product(n, x, limit);
    } else {
      Scale(n, x, limit);
    }
  }

  lemma Product(n: real, a: real, b: real)
    ensures n * (a - b) == n * a - n * b
  {
  }

  lemma AbsoluteOver(n: real, sum: real, point: real, error: real, limit: real)
    requires n >= 1.0 && error == Abs(sum / n - point)
    ensures error > limit <==> Abs(sum - n * point) > n * limit
  {
    hide Abs;
    MeanOff(n, sum, point);
    Larger(n, error, limit);
  }

  lemma RelativeOver(n: real, sum: real, point: real, error: real, share: real, limit: real)
    requires n >= 1.0 && error == Abs(sum / n - point) && Abs(point) > 0.0 && share == error / Abs(point)
    ensures share > limit <==> Abs(sum - n * point) > n * (limit * Abs(point))
  {
    hide Abs;
    var size := Abs(point);
    assert size * share == error;
    assert size * limit == limit * size;
    Larger(size, share, limit);
    AbsoluteOver(n, sum, point, error, limit * size);
  }

  lemma SpreadOver(xs: seq<real>, limit: real)
    requires xs != []
    ensures Greatest(xs) - Least(xs) > limit <==>
      exists i, j :: 0 <= i < |xs| && 0 <= j < |xs| && xs[i] - xs[j] > limit
  {
    var i :| 0 <= i < |xs| && xs[i] == Greatest(xs);
    var j :| 0 <= j < |xs| && xs[j] == Least(xs);
    assert xs[i] - xs[j] == Greatest(xs) - Least(xs);
  }

  // ---------- what passing says about a single reading ----------

  lemma {:induction false} SumAbove(xs: seq<real>, low: real)
    requires forall i :: 0 <= i < |xs| ==> low <= xs[i]
    ensures Sum(xs) >= |xs| as real * low
  {
    if xs != [] {
      SumAbove(xs[..|xs| - 1], low);
    }
  }

  lemma {:induction false} SumBelow(xs: seq<real>, high: real)
    requires forall i :: 0 <= i < |xs| ==> xs[i] <= high
    ensures Sum(xs) <= |xs| as real * high
  {
    if xs != [] {
      SumBelow(xs[..|xs| - 1], high);
    }
  }

  lemma {:induction false} SumConcat(xs: seq<real>, ys: seq<real>)
    ensures Sum(xs + ys) == Sum(xs) + Sum(ys)
  {
    if ys == [] {
      assert xs + ys == xs;
    } else {
      assert (xs + ys)[..|xs + ys| - 1] == xs + ys[..|ys| - 1];
      SumConcat(xs, ys[..|ys| - 1]);
    }
  }

  /** One reading lies no further from the mean than (n - 1)/n of the spread. */
  lemma ReadingNearMean(xs: seq<real>, k: nat, n: real, low: real, high: real)
    requires k < |xs| && n == |xs| as real
    requires forall i :: 0 <= i < |xs| ==> low <= xs[i] <= high
    ensures Near(n, xs[k], Sum(xs), high - low)
  {
    var rest := RestBetween(xs, k, low, high, n - 1.0);
    OneAgainstTheRest(n, xs[k], rest, Sum(xs), low, high);
  }

  lemma RestBetween(xs: seq<real>, k: nat, low: real, high: real, n: real) returns (rest: real)
    requires k < |xs| && n == |xs| as real - 1.0
    requires forall i :: 0 <= i < |xs| ==> low <= xs[i] <= high
    ensures Sum(xs) == rest + xs[k]
    ensures n * low <= rest <= n * high
  {
    rest := Sum(xs[..k] + xs[k + 1..]);
    SumWithout(xs, k);
    SumBetween(xs[..k] + xs[k + 1..], low, high, n);
  }

  /** n times the distance of `x` from `sum / n` is at most (n - 1) times the spread. */
  ghost predicate Near(n: real, x: real, sum: real, spread: real) {
    sum - n * x <= (n - 1.0) * spread && n * x - sum <= (n - 1.0) * spread
  }

  lemma SumBetween(xs: seq<real>, low: real, high: real, n: real)
    requires n == |xs| as real
    requires forall i :: 0 <= i < |xs| ==> low <= xs[i] <= high
    ensures n * low <= Sum(xs) <= n * high
  {
    SumAbove(xs, low);
    SumBelow(xs, high);
  }

  lemma SumOne(x: real)
    ensures Sum([x]) == x
  {
    assert [x][..0] == [];
  }

  lemma SumWithout(xs: seq<real>, k: nat)
    requires k < |xs|
    ensures Sum(xs) == Sum(xs[..k] + xs[k + 1..]) + xs[k]
  {
    hide Sum;
    assert xs == xs[..k] + ([xs[k]] + xs[k + 1..]);
    SumConcat(xs[..k], [xs[k]] + xs[k + 1..]);
    SumConcat([xs[k]], xs[k + 1..]);
    SumConcat(xs[..k], xs[k + 1..]);
    SumOne(xs[k]);
  }

  lemma OneAgainstTheRest(n: real, x: real, rest: real, sum: real, low: real, high: real)
    requires n >= 1.0 && sum == rest + x && low <= x <= high
    requires (n - 1.0) * low <= rest <= (n - 1.0) * high
    ensures Near(n, x, sum, high - low)
  {
    Scale(n - 1.0, low, x);
    Scale(n - 1.0, x, high);
    assert n * x == (n - 1.0) * x + x;
    assert (n - 1.0) * (high - low) == (n - 1.0) * high - (n - 1.0) * low;
  }

  lemma Scale(n: real, a: real, b: real)
    requires n >= 0.0 && a <= b
    ensures n * a <= n * b
  {
    assert n * (b - a) >= 0.0;
  }

  lemma Shrink(n: real, a: real, b: real)
    requires n > 0.0 && n * a <= n * b
    ensures a <= b
  {
    if a > b {
      PositiveProduct(n, a - b);
    }
  }

  lemma PositiveProduct(a: real, b: real)
    requires a > 0.0 && b > 0.0
    ensures a * b > 0.0
  {
  }

  /** Every reading of a passing set lies within the absolute tolerance, and within the relative
      tolerance of the point, plus (n - 1)/n of the repeatability limit of the reference point. */
  lemma PassingReadingBound(reference: real, readings: seq<real>, p: Profile, k: nat)
    requires k < |readings|
    requires Passes(StatsOf(reference, readings), p)
    ensures Abs(readings[k] - reference) <= p.absoluteTolerance + Share(|readings| as real, p.repeatabilityLimit)
    ensures reference != 0.0 ==>
      Abs(readings[k] - reference)
        <= p.relativeTolerance * Abs(reference) + Share(|readings| as real, p.repeatabilityLimit)
  {
    var st := StatsOf(reference, readings);
    PassingFigures(reference, readings, p);
    hide Passes, StatsOf, Sum, Least, Greatest;
    ReadingNearMean(readings, k, |readings| as real, Least(readings), Greatest(readings));
    MeanGap(|readings| as real, readings[k], Sum(readings), st.spread, p.repeatabilityLimit);
    AbsTriangle(readings[k], st.mean, reference);
  }

  lemma PassingFigures(reference: real, readings: seq<real>, p: Profile)
    requires readings != [] && Passes(StatsOf(reference, readings), p)
    ensures var st := StatsOf(reference, readings);
      && st.mean == Sum(readings) / (|readings| as real) && st.absoluteError == Abs(st.mean - reference)
      && st.spread == Greatest(readings) - Least(readings) <= p.repeatabilityLimit
      && st.absoluteError <= p.absoluteTolerance
      && (reference != 0.0 ==> st.absoluteError <= p.relativeTolerance * Abs(reference))
  {
    hide Sum, Least, Greatest;
    if reference != 0.0 {
      WithinShare(StatsOf(reference, readings).absoluteError, Abs(reference), p.relativeTolerance);
    }
  }

  lemma WithinShare(error: real, size: real, limit: real)
    requires size > 0.0 && error / size <= limit
    ensures error <= limit * size
  {
    var share := error / size;
    assert size * share == error;
    Scale(size, share, limit);
    assert size * limit == limit * size;
  }

  /** (n - 1)/n of a limit. */
  ghost function Share(n: real, limit: real): real
    requires n >= 1.0
  {
    (n - 1.0) / n * limit
  }

  lemma AbsTriangle(a: real, b: real, c: real)
    ensures Abs(a - c) <= Abs(a - b) + Abs(b - c)
  {
  }

  lemma MeanGap(n: real, x: real, sum: real, spread: real, limit: real)
    requires n >= 1.0 && spread <= limit
    requires Near(n, x, sum, spread)
    ensures Abs(x - sum / n) <= Share(n, limit)
  {
    var mean, share := sum / n, (n - 1.0) / n;
    var bound := share * limit;
    Scale(n - 1.0, spread, limit);
    assert n * mean == sum;
    assert n * share == n - 1.0;
    assert n * bound == (n - 1.0) * limit by {
      assert n * (share * limit) == (n * share) * limit;
    }
    assert n * (x - mean) == n * x - n * mean;
    assert n * (mean - x) == n * mean - n * x;
    Shrink(n, x - mean, bound);
    Shrink(n, mean - x, bound);
  }

  /** Readings equal to the reference point have no error and no spread, so they pass any
      profile with non-negative limits. */
  lemma {:induction false} PerfectReadingsPass(reference: real, n: nat, p: Profile)
    requires n > 0
    requires p.absoluteTolerance >= 0.0 && p.relativeTolerance >= 0.0 && p.repeatabilityLimit >= 0.0
    ensures var readings := seq(n, _ => reference); Passes(StatsOf(reference, readings), p)
  {
    var readings := seq(n, _ => reference);
    SumAbove(readings, reference);
    SumBelow(readings, reference);
    assert Sum(readings) == n as real * reference;
    assert Sum(readings) / (n as real) == reference;
    assert Greatest(readings) == reference && Least(readings) == reference;
    if reference != 0.0 {
      assert 0.0 / Abs(reference) == 0.0;
    }
  }
}
