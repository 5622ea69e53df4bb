// Quantiles of a scraped histogram, as the inverse of its piecewise-linear distribution function.

module Histogram {
  import opened Arithmetic
  import opened Basics

  datatype Bound = Finite(b: real) | PlusInf

  /** A scraped sample; `le` is its parsed bucket bound. */
  datatype Sample = Sample(name: string, labels: map<string, string>, le: Option<Bound>, value: real)

  type Buckets = seq<(Bound, real)>

  predicate Below(a: Bound, b: Bound) {
    a.Finite? && (b.PlusInf? || a.b < b.b)
  }

  // ---- Collecting the buckets ----

  predicate Matches(s: Sample, name: string, required: map<string, string>) {
    && s.name == name && s.le.Some?
    && forall key :: key in required ==> key in s.labels && s.labels[key] == required[key]
  }

  function Totals(samples: seq<Sample>, name: string, required: map<string, string>): map<Bound, real> {
    if samples == [] then map[]
    else
      var last := samples[|samples| - 1];
      var front := Totals(samples[..|samples| - 1], name, required);
      if !Matches(last, name, required) then front
      else
        var known := if last.le.value in front then front[last.le.value] else 0.0;
        front[last.le.value := known + last.value]
  }

  predicate Ascending(s: Buckets) {
    forall i, j :: 0 <= i < j < |s| ==> Below(s[i].0, s[j].0)
  }

  /** The entries of a dictionary in ascending order of their bounds. */
  ghost predicate Lists(s: Buckets, m: map<Bound, real>) {
    && Ascending(s)
    && (forall i :: 0 <= i < |s| ==> s[i].0 in m && m[s[i].0] == s[i].1)
    && forall k :: k in m ==> HasBound(s, k)
  }

  ghost predicate HasBound(s: Buckets, k: Bound) {
    exists i :: 0 <= i < |s| && s[i].0 == k
  }

  lemma LastIsLargest(s: Buckets, t: Buckets, m: map<Bound, real>)
    requires Lists(s, m) && Lists(t, m) && s != []
    ensures t != [] && s[|s| - 1] == t[|t| - 1]
  {
    var a := s[|s| - 1];
    assert HasBound(t, a.0);
    var b := t[|t| - 1];
    assert HasBound(s, b.0);
  }

  lemma ShorterListing(s: Buckets, m: map<Bound, real>)
    requires Lists(s, m) && s != []
    ensures Lists(s[..|s| - 1], m - {s[|s| - 1].0})
  {
    var last, front := s[|s| - 1].0, s[..|s| - 1];
    forall k | k in m && k != last ensures HasBound(front, k) {
      assert HasBound(s, k);
      var i :| 0 <= i < |s| && s[i].0 == k;
      assert front[i].0 == k;
    }
  }

  lemma {:induction false} ListingIsUnique(s: Buckets, t: Buckets, m: map<Bound, real>)
    requires Lists(s, m) && Lists(t, m)
    ensures s == t
  {
    hide Lists;
    if s != [] {
      LastIsLargest(s, t, m);
      ShorterListing(s, m);
      ShorterListing(t, m);
      ListingIsUnique(s[..|s| - 1], t[..|t| - 1], m - {s[|s| - 1].0});
      assert s == s[..|s| - 1] + [s[|s| - 1]] && t == t[..|t| - 1] + [t[|t| - 1]];
    } else if t != [] {
      LastIsLargest(t, s, m);
    }
  }

  // ---- The walk ----

  function PrevCount(s: Buckets, i: nat): real
    requires i <= |s|
  {
    if i == 0 then 0.0 else s[i - 1].1
  }

  /** The last finite bound before position `i`, or 0. */
  function PrevBound(s: Buckets, i: nat): real
    requires i <= |s|
  {
    if i == 0 then 0.0
    else if s[i - 1].0.Finite? then s[i - 1].0.b
    else PrevBound(s, i - 1)
  }

  /** The first bucket whose count reaches the target. */
  function Reaches(s: Buckets, target: real): (i: nat)
    ensures i <= |s|
    ensures i < |s| ==> s[i].1 >= target
    ensures forall j :: 0 <= j < i ==> s[j].1 < target
  {
    ReachesFrom(s, target, 0)
  }

  function ReachesFrom(s: Buckets, target: real, start: nat): (i: nat)
    requires start <= |s|
    ensures start <= i <= |s|
    ensures i < |s| ==> s[i].1 >= target
    ensures forall j :: start <= j < i ==> s[j].1 < target
    decreases |s| - start
  {
    if start == |s| || s[start].1 >= target then start else ReachesFrom(s, target, start + 1)
  }

  function Fraction(done: real, width: real): real
    requires width > 0.0
  {
    done / width
  }

  function Interpolate(low: real, high: real, f: real): real {
    low + (high - low) * f
  }

  function QuantileIn(s: Buckets, target: real, i: nat): real
    requires i < |s|
  {
    if s[i].0.PlusInf? then PrevBound(s, i)
    else
      var width := s[i].1 - PrevCount(s, i);
      if width <= 0.0 then s[i].0.b
      else Interpolate(PrevBound(s, i), s[i].0.b, Fraction(target - PrevCount(s, i), width))
  }

  function QuantileOf(s: Buckets, target: real): real {
    var i := Reaches(s, target);
    if i == |s| then PrevBound(s, i) else QuantileIn(s, target, i)
  }

  lemma FirstReach(s: Buckets, target: real, i: nat)
    requires i < |s| && s[i].1 >= target && forall j :: 0 <= j < i ==> s[j].1 < target
    ensures Reaches(s, target) == i
  {
    assert Reaches(s, target) <= i;
  }

  method Walk(s: Buckets, target: real) returns (r: real)
    ensures r == QuantileOf(s, target)
  {
    hide Interpolate, Fraction;
    var previousBound, previousCount := 0.0, 0.0;
    for i := 0 to |s|
      invariant previousBound == PrevBound(s, i) && previousCount == PrevCount(s, i)
      invariant forall j :: 0 <= j < i ==> s[j].1 < target
    {
      var (bound, count) := s[i];
      if count < target {
        if bound.Finite? {
          previousBound := bound.b;
        }
        previousCount := count;
      } else {
        FirstReach(s, target, i);
        if bound.PlusInf? {
          return previousBound;
        }
        var width := count - previousCount;
        if width <= 0.0 {
          return bound.b;
        }
        return Interpolate(previousBound, bound.b, Fraction(target - previousCount, width));
      }
    }
    r := previousBound;
  }

  function Total(s: Buckets): real
    requires s != []
  {
    s[|s| - 1].1
  }

  function Target(s: Buckets, quantile: real): real
    requires s != []
  {
    Total(s) * quantile
  }

  // ---- The whole operation ----

  datatype QuantileError = QuantileOutOfRange

  method Accumulate(samples: seq<Sample>, name: string, required: map<string, string>)
    returns (buckets: map<Bound, real>)
    ensures buckets == Totals(samples, name, required)
  {
    hide Matches;
    buckets := map[];
    for i := 0 to |samples|
      invariant buckets == Totals(samples[..i], name, required)
    {
      assert samples[..i + 1][..i] == samples[..i];
      if Matches(samples[i], name, required) {
        MatchHasBound(samples[i], name, required);
        var bound := samples[i].le.value;
        buckets := buckets[bound := (if bound in buckets then buckets[bound] else 0.0) + samples[i].value];
      }
    }
    assert samples[..|samples|] == samples;
  }

  lemma MatchHasBound(s: Sample, name: string, required: map<string, string>)
    requires Matches(s, name, required)
    ensures s.le.Some?
  {
  }

  method SmallestBound(bounds: set<Bound>) returns (least: Bound)
    requires bounds != {}
    ensures least in bounds && forall k :: k in bounds && k != least ==> Below(least, k)
  {
    least :| least in bounds;
    var todo := bounds - {least};
    while todo != {}
      invariant todo <= bounds && least in bounds
      invariant forall k :: k in bounds && k !in todo && k != least ==> Below(least, k)
      decreases |todo|
    {
      var k :| k in todo;
      todo := todo - {k};
      if Below(k, least) {
        least := k;
      }
    }
  }

  method Sorted(m: map<Bound, real>) returns (s: Buckets)
    ensures Lists(s, m)
  {
    s := [];
    var todo := m.Keys;
    while todo != {}
      invariant todo <= m.Keys && Ascending(s)
      invariant forall i :: 0 <= i < |s| ==> s[i].0 in m && m[s[i].0] == s[i].1
      invariant forall i, k :: 0 <= i < |s| && k in todo ==> Below(s[i].0, k)
      invariant forall k :: k in m && k !in todo ==> HasBound(s, k)
      decreases |todo|
    {
      var least := SmallestBound(todo);
      ghost var before := s;
      todo := todo - {least};
      s := s + [(least, m[least])];
      forall k | k in m && k !in todo ensures HasBound(s, k) {
        if k == least {
          assert s[|before|].0 == k;
        } else {
          var i :| 0 <= i < |before| && before[i].0 == k;
          assert s[i].0 == k;
        }
      }
    }
  }

  method HistogramQuantile(samples: seq<Sample>, baseName: string, quantile: real, required: map<string, string>)
    returns (r: Result<Option<real>, QuantileError>, ghost ordered: Buckets)
    ensures r.Err? <==> !(0.0 <= quantile <= 1.0)
    ensures r.Ok? ==>
              var m := Totals(samples, baseName + "_bucket", required);
              && Lists(ordered, m)
              && r.value == if m == map[] then None
                            else if ordered == [] || Total(ordered) <= 0.0 then Some(0.0)
                            else Some(QuantileOf(ordered, Target(ordered, quantile)))
  {
    hide QuantileOf, Totals;
    ordered := [];
    if !(0.0 <= quantile <= 1.0) {
      return Err(QuantileOutOfRange), ordered;
    }
    var buckets := Accumulate(samples, baseName + "_bucket", required);
    if buckets == map[] {
      return Ok(None), ordered;
    }
    var sorted := Sorted(buckets);
    ordered := sorted;
    assert sorted != [] by {
      var k :| k in buckets;
      assert HasBound(sorted, k);
    }
    var total := sorted[|sorted| - 1].1;
    if total <= 0.0 {
      return Ok(Some(0.0)), ordered;
    }
    var value := Walk(sorted, Target(sorted, quantile));
    r := Ok(Some(value));
  }

  // ---- The quantile inverts the distribution function ----

  /** Cumulative counts over ascending non-negative bounds, with something in them. */
  ghost predicate Cumulative(s: Buckets) {
    && s != [] && Ascending(s)
    && (forall i :: 0 <= i < |s| && s[i].0.Finite? ==> s[i].0.b >= 0.0)
    && (forall i, j :: 0 <= i < j < |s| ==> s[i].1 <= s[j].1)
    && s[|s| - 1].1 > 0.0
  }

  /** The piecewise-linear distribution function from bucket `i` on, starting at the previous bound and count. */
  function Cdf(s: Buckets, x: real, i: nat): real
    requires i <= |s|
    decreases |s| - i
  {
    if i == |s| || s[i].0.PlusInf? then PrevCount(s, i)
    else if x > s[i].0.b then Cdf(s, x, i + 1)
    else if s[i].0.b <= PrevBound(s, i) then s[i].1
    else Interpolate(PrevCount(s, i), s[i].1, Fraction(x - PrevBound(s, i), s[i].0.b - PrevBound(s, i)))
  }

  // ---- Interpolation ----

  lemma FractionUndone(done: real, width: real)
    requires width > 0.0
    ensures Fraction(done, width) * width == done
  {
  }

  lemma FractionIsShare(done: real, width: real)
    requires 0.0 <= done <= width && width > 0.0
    ensures 0.0 <= Fraction(done, width) <= 1.0
    ensures done > 0.0 ==> Fraction(done, width) > 0.0
  {
    FractionUndone(done, width);
    hide Fraction;
    var f := Fraction(done, width);
    assert (1.0 - f) * width == width - done;
    SignOfFactor(f, width);
    SignOfFactor(1.0 - f, width);
  }

  lemma FractionKeepsOrder(a: real, b: real, width: real)
    requires a <= b && width > 0.0
    ensures Fraction(a, width) <= Fraction(b, width)
  {
    FractionUndone(a, width);
    FractionUndone(b, width);
    hide Fraction;
    var f, g := Fraction(a, width), Fraction(b, width);
    assert (g - f) * width == b - a;
    SignOfFactor(g - f, width);
  }

  lemma InterpolateKeepsOrder(low: real, high: real, f: real, g: real)
    requires low <= high && f <= g
    ensures Interpolate(low, high, f) <= Interpolate(low, high, g)
  {
    ScaleKeepsOrder(high - low, f, g);
  }

  lemma InterpolateInside(low: real, high: real, f: real)
    requires low <= high && 0.0 <= f <= 1.0
    ensures low <= Interpolate(low, high, f) <= high
    ensures low < high && f > 0.0 ==> low < Interpolate(low, high, f)
  {
    if low < high && f > 0.0 {
      var width := high - low;
      PositiveProduct(width, f);
      assert Interpolate(low, high, f) == low + width * f;
    }
    InterpolateKeepsOrder(low, high, 0.0, f);
    InterpolateKeepsOrder(low, high, f, 1.0);
  }

  lemma PositiveProduct(a: real, b: real)
    requires a > 0.0 && b > 0.0
    ensures a * b > 0.0
  {
  }

  lemma CancelFactor(n: real, x: real)
    requires n > 0.0
    ensures Fraction(n * x, n) == x
  {
  }

  /** Reading off the fraction of an interpolated point gives the fraction back. */
  lemma InterpolateUndone(low: real, high: real, f: real)
    requires low < high
    ensures Fraction(Interpolate(low, high, f) - low, high - low) == f
  {
    CancelFactor(high - low, f);
  }

  lemma InterpolateCounts(low: real, high: real, value: real)
    requires low < high
    ensures Interpolate(low, high, Fraction(value - low, high - low)) == value
  {
    FractionUndone(value - low, high - low);
    hide Fraction;
  }

  // ---- The reached bucket ----

  lemma TargetIsWithin(s: Buckets, q: real)
    requires Cumulative(s) && 0.0 <= q <= 1.0
    ensures 0.0 <= Target(s, q) <= Total(s)
  {
    ScaleKeepsOrder(Total(s), 0.0, q);
    ScaleKeepsOrder(Total(s), q, 1.0);
  }

  lemma TargetKeepsOrder(s: Buckets, p: real, q: real)
    requires Cumulative(s) && p <= q
    ensures Target(s, p) <= Target(s, q)
  {
    ScaleKeepsOrder(Total(s), p, q);
  }

  /** The bucket walk always ends inside the loop. */
  lemma TargetIsReached(s: Buckets, q: real)
    requires Cumulative(s) && 0.0 <= q <= 1.0
    ensures Reaches(s, Target(s, q)) < |s|
  {
    TargetIsWithin(s, q);
    hide Target, Cumulative;
    assert s[|s| - 1].1 >= Target(s, q);
  }

  lemma ReachedBucket(s: Buckets, q: real) returns (i: nat)
    requires Cumulative(s) && 0.0 <= q <= 1.0
    ensures var target := Target(s, q);
            && i < |s| && i == Reaches(s, target) && QuantileOf(s, target) == QuantileIn(s, target, i)
            && PrevCount(s, i) <= target <= s[i].1 && (i > 0 ==> PrevCount(s, i) < target)
  {
    hide QuantileIn, Target;
    TargetIsReached(s, q);
    TargetIsWithin(s, q);
    i := Reaches(s, Target(s, q));
  }

  lemma PrevIsPrevious(s: Buckets, i: nat)
    requires Cumulative(s) && i < |s|
    ensures PrevBound(s, i) >= 0.0
    ensures i > 0 ==> s[i - 1].0.Finite? && PrevBound(s, i) == s[i - 1].0.b
    ensures s[i].0.Finite? ==> PrevBound(s, i) <= s[i].0.b && (i > 0 ==> PrevBound(s, i) < s[i].0.b)
  {
    if i > 0 {
      assert Below(s[i - 1].0, s[i].0);
    }
  }

  lemma BoundsAscend(s: Buckets, i: nat, j: nat)
    requires Cumulative(s) && i < j < |s|
    ensures s[i].0.Finite? && s[i].0.b <= PrevBound(s, j)
  {
    PrevIsPrevious(s, j);
    assert Below(s[i].0, s[j].0);
    if i < j - 1 {
      assert Below(s[i].0, s[j - 1].0);
    }
  }

  lemma QuantileInBucket(s: Buckets, target: real, i: nat)
    requires Cumulative(s) && i < |s| && PrevCount(s, i) <= target <= s[i].1
    ensures PrevBound(s, i) <= QuantileIn(s, target, i)
    ensures QuantileIn(s, target, i) <= if s[i].0.Finite? then s[i].0.b else PrevBound(s, i)
  {
    hide Interpolate, Fraction;
    PrevIsPrevious(s, i);
    hide Cumulative, PrevBound;
    var width := s[i].1 - PrevCount(s, i);
    if s[i].0.Finite? && width > 0.0 {
      FractionIsShare(target - PrevCount(s, i), width);
      InterpolateInside(PrevBound(s, i), s[i].0.b, Fraction(target - PrevCount(s, i), width));
    }
  }

  lemma SameBucketIsMonotone(s: Buckets, a: real, b: real, i: nat)
    requires Cumulative(s) && i < |s| && PrevCount(s, i) <= a <= b <= s[i].1
    ensures QuantileIn(s, a, i) <= QuantileIn(s, b, i)
  {
    hide Interpolate, Fraction;
    PrevIsPrevious(s, i);
    hide Cumulative, PrevBound;
    var width := s[i].1 - PrevCount(s, i);
    if s[i].0.Finite? && width > 0.0 {
      FractionKeepsOrder(a - PrevCount(s, i), b - PrevCount(s, i), width);
      InterpolateKeepsOrder(PrevBound(s, i), s[i].0.b, Fraction(a - PrevCount(s, i), width),
                            Fraction(b - PrevCount(s, i), width));
    }
  }

  // ---- Main results ----

  /** A larger quantile never gives a smaller result. */
  lemma QuantileIsMonotone(s: Buckets, p: real, q: real)
    requires Cumulative(s) && 0.0 <= p <= q <= 1.0
    ensures QuantileOf(s, Target(s, p)) <= QuantileOf(s, Target(s, q))
  {
    var i := ReachedBucket(s, p);
    var j := ReachedBucket(s, q);
    TargetKeepsOrder(s, p, q);
    hide QuantileOf, QuantileIn, Target, Cumulative;
    var a, b := Target(s, p), Target(s, q);
    if i == j {
      SameBucketIsMonotone(s, a, b, i);
    } else {
      assert i < j;
      QuantileInBucket(s, a, i);
      QuantileInBucket(s, b, j);
      BoundsAscend(s, i, j);
    }
  }

  /** The result lies between 0 and the largest finite bound, which is 0 without any. */
  lemma QuantileIsBounded(s: Buckets, q: real)
    requires Cumulative(s) && 0.0 <= q <= 1.0
    ensures 0.0 <= QuantileOf(s, Target(s, q)) <= PrevBound(s, |s|)
    ensures forall i :: 0 <= i < |s| && s[i].0.Finite? ==> s[i].0.b <= PrevBound(s, |s|)
  {
    var i := ReachedBucket(s, q);
    hide QuantileOf, QuantileIn, Target;
    QuantileInBucket(s, Target(s, q), i);
    PrevIsPrevious(s, i);
    PrevIsPrevious(s, |s| - 1);
    forall j | 0 <= j < |s| ensures (if s[j].0.Finite? then s[j].0.b else PrevBound(s, j)) <= PrevBound(s, |s|) {
      PrevIsPrevious(s, j);
      if j < |s| - 1 {
        BoundsAscend(s, j, |s| - 1);
      }
    }
  }

  lemma {:induction false} CdfSkips(s: Buckets, x: real, i: nat, k: nat)
    requires Cumulative(s) && k <= i < |s| && (i > 0 ==> x > PrevBound(s, i))
    ensures Cdf(s, x, k) == Cdf(s, x, i)
    decreases i - k
  {
    hide PrevCount, Interpolate, Fraction, Cumulative;
    if k < i {
      BoundsAscend(s, k, i);
      CdfSkips(s, x, i, k + 1);
    }
  }

  /** Where the reached bucket is finite and has width, the distribution at the result is the target. */
  lemma QuantileInvertsCdf(s: Buckets, q: real)
    requires Cumulative(s) && 0.0 <= q <= 1.0
    requires var i := Reaches(s, Target(s, q));
             && i < |s| && s[i].0.Finite? && s[i].1 > PrevCount(s, i) && s[i].0.b > PrevBound(s, i)
    ensures Cdf(s, QuantileOf(s, Target(s, q)), 0) == Target(s, q)
  {
    var i := ReachedBucket(s, q);
    hide Interpolate, Fraction, Target, QuantileOf, Cumulative;
    var target, low, high := Target(s, q), PrevBound(s, i), s[i].0.b;
    var width := s[i].1 - PrevCount(s, i);
    var f := Fraction(target - PrevCount(s, i), width);
    FractionIsShare(target - PrevCount(s, i), width);
    InterpolateInside(low, high, f);
    InterpolateUndone(low, high, f);
    InterpolateCounts(PrevCount(s, i), s[i].1, target);
    hide PrevBound;
    CdfSkips(s, QuantileIn(s, target, i), i, 0);
  }

  // ---- What is counted and where the answer lies, for any samples ----

  ghost predicate CountsFor(s: Sample, name: string, required: map<string, string>, k: Bound) {
    && s.name == name && s.le == Some(k)
    && forall key :: key in required.Keys ==> key in s.labels.Keys && required[key] == s.labels[key]
  }

  ghost function SumFor(samples: seq<Sample>, name: string, required: map<string, string>, k: Bound): real {
    if samples == [] then 0.0
    else
      (if CountsFor(samples[0], name, required, k) then samples[0].value else 0.0)
      + SumFor(samples[1..], name, required, k)
  }

  lemma {:induction false} SumForLast(samples: seq<Sample>, name: string, required: map<string, string>, k: Bound)
    requires samples != []
    ensures var last := samples[|samples| - 1];
            SumFor(samples, name, required, k)
            == SumFor(samples[..|samples| - 1], name, required, k)
               + if CountsFor(last, name, required, k) then last.value else 0.0
  {
    hide CountsFor;
    if |samples| > 1 {
      var front, rest := samples[..|samples| - 1], samples[1..];
      SumForLast(rest, name, required, k);
      assert rest[..|rest| - 1] == front[1..];
    }
  }

  /** A bucket holds the sum of its series, with the wanted labels; there is one for every bound that occurs in them. */
  lemma {:induction false} TotalsAreSums(samples: seq<Sample>, name: string, required: map<string, string>, k: Bound)
    ensures k in Totals(samples, name, required) <==> exists s :: s in samples && CountsFor(s, name, required, k)
    ensures k in Totals(samples, name, required) ==>
              Totals(samples, name, required)[k] == SumFor(samples, name, required, k)
    ensures k !in Totals(samples, name, required) ==> SumFor(samples, name, required, k) == 0.0
  {
    hide CountsFor, Matches;
    if samples != [] {
      var front, last := samples[..|samples| - 1], samples[|samples| - 1];
      assert samples == front + [last];
      TotalsAreSums(front, name, required, k);
      SumForLast(samples, name, required, k);
      MatchesCount(last, name, required, k);
    }
  }

  lemma MatchesCount(s: Sample, name: string, required: map<string, string>, k: Bound)
    ensures CountsFor(s, name, required, k) <==> Matches(s, name, required) && s.le.value == k
  {
  }

  /** The last finite bound before position `i`, or 0. */
  ghost predicate LastFinite(s: Buckets, i: nat, low: real) {
    && i <= |s|
    && ((forall j :: 0 <= j < i ==> s[j].0.PlusInf?) ==> low == 0.0)
    && forall j :: 0 <= j < i && s[j].0.Finite? && (forall k :: j < k < i ==> s[k].0.PlusInf?) ==> low == s[j].0.b
  }

  lemma {:induction false} PrevIsLastFinite(s: Buckets, i: nat)
    requires i <= |s|
    ensures LastFinite(s, i, PrevBound(s, i))
  {
    if i > 0 && s[i - 1].0.PlusInf? {
      PrevIsLastFinite(s, i - 1);
      assert forall j :: 0 <= j < i && s[j].0.Finite? ==> j < i - 1;
    }
  }

  /** Whatever the counts are, the walk ends at the first one that reaches the target, and the result divides the bounds
      of its bucket as the target divides its counts: unless the bucket is open, or the first one and empty. */
  lemma ResultDividesBucket(s: Buckets, q: real) returns (i: nat, low: real)
    requires s != [] && s[|s| - 1].1 > 0.0 && 0.0 <= q <= 1.0
    ensures i < |s| && LastFinite(s, i, low)
    ensures var target, count := Product(s[|s| - 1].1, q), if i == 0 then 0.0 else s[i - 1].1;
            var r := QuantileOf(s, Target(s, q));
            && s[i].1 >= target && (forall j :: 0 <= j < i ==> s[j].1 < target)
            && (s[i].0.PlusInf? ==> r == low)
            && (s[i].0.Finite? && s[i].1 <= count ==> i == 0 && r == s[i].0.b)
            && (s[i].0.Finite? && s[i].1 > count ==>
                  Product(r - low, s[i].1 - count) == Product(s[i].0.b - low, target - count))
  {
    ScaleKeepsOrder(Total(s), q, 1.0);
    var target := Target(s, q);
    i := Reaches(s, target);
    assert i < |s| by {
      assert s[|s| - 1].1 >= target;
    }
    low := PrevBound(s, i);
    PrevIsLastFinite(s, i);
    var count := PrevCount(s, i);
    if s[i].0.Finite? && s[i].1 > count {
      InterpolateDivides(low, s[i].0.b, target - count, s[i].1 - count);
    }
  }

  lemma InterpolateDivides(low: real, high: real, done: real, width: real)
    requires width > 0.0
    ensures Product(Interpolate(low, high, Fraction(done, width)) - low, width) == Product(high - low, done)
  {
    FractionUndone(done, width);
    hide Fraction;
    var f := Fraction(done, width);
    assert ((high - low) * f) * width == (high - low) * (f * width);
  }
}
