/**
  The complexity probe's sweep: a solution is timed at one size after another, as long as its
  budget lasts, and the times it took are judged.
*/
module Probe {
  import opened Base
  import opened Complexity

  type Size = n: nat | n > 0 witness 1

  // What is run and on what terms. `makes` says for which sizes an input can be made, `run`
  // how long the r-th run of a size takes, or `None` where it raises. `log` and `power` are
  // those of the driver's projection.
  datatype Workload = Workload(
    makes: nat -> bool, run: (nat, nat) -> Option<real>, repeats: nat, slow: real, budget: real,
    log: real -> real, power: (real, real) -> real)

  // ---------------------------------------------------------------- one size

  // The runs a size gets: none after a slow one or one that raises.
  function Taken(w: Workload, n: nat, r: nat): seq<real>
    decreases w.repeats - r
  {
    if r >= w.repeats || w.run(n, r).None? then []
    else
      var d := w.run(n, r).value;
      [d] + if d > w.slow then [] else Taken(w, n, r + 1)
  }

  predicate RunRaises(w: Workload, n: nat, r: nat)
    decreases w.repeats - r
  {
    r < w.repeats && (w.run(n, r).None? || (w.run(n, r).value <= w.slow && RunRaises(w, n, r + 1)))
  }

  predicate Raises(w: Workload, n: nat) {
    !w.makes(n) || RunRaises(w, n, 0)
  }

  function Cost(w: Workload, n: nat): real {
    if w.makes(n) then Sum(Taken(w, n, 0)) else 0.0
  }

  function Least(xs: seq<real>): real
    requires xs != []
  {
    if |xs| == 1 then xs[0] else Min(xs[0], Least(xs[1..]))
  }

  // A size counts as fast as its fastest run.
  function Timed(w: Workload, n: nat): Point
    requires Taken(w, n, 0) != []
  {
    Point(n, Least(Taken(w, n, 0)))
  }

  lemma {:induction false} TakenMeans(w: Workload, n: nat, r: nat)
    requires r <= w.repeats
    ensures var took := Taken(w, n, r); var after := r + |took|;
            && after <= w.repeats
            && (forall k :: 0 <= k < |took| ==> w.run(n, r + k) == Some(took[k]))
            && (forall k :: 0 <= k < |took| - 1 ==> took[k] <= w.slow)
            && (RunRaises(w, n, r) <==>
                  after < w.repeats && w.run(n, after).None? && (took == [] || took[|took| - 1] <= w.slow))
            && (!RunRaises(w, n, r) ==> after == w.repeats || (took != [] && took[|took| - 1] > w.slow))
    decreases w.repeats - r
  {
    if r < w.repeats && w.run(n, r).Some? && w.run(n, r).value <= w.slow {
      TakenMeans(w, n, r + 1);
      var rest := Taken(w, n, r + 1);
      assert forall k :: 0 < k < |rest| + 1 ==> ([w.run(n, r).value] + rest)[k] == rest[k - 1];
    }
  }

  lemma {:induction false} LeastIsLeast(xs: seq<real>)
    requires xs != []
    ensures Least(xs) in xs && forall x :: x in xs ==> Least(xs) <= x
  {
    if |xs| > 1 {
      LeastIsLeast(xs[1..]);
      assert xs == [xs[0]] + xs[1..];
    }
  }

  lemma {:induction false} SumConcat(a: seq<real>, b: seq<real>)
    ensures Sum(a + b) == Sum(a) + Sum(b)
  {
    if a == [] {
      assert a + b == b;
    } else {
      assert (a + b)[1..] == a[1..] + b;
      SumConcat(a[1..], b);
    }
  }

  predicate GoesOn(w: Workload, n: nat, r: nat) {
    w.run(n, r).Some? && w.run(n, r).value <= w.slow
  }

  lemma TakenUnfolds(w: Workload, n: nat, r: nat)
    requires r < w.repeats
    ensures w.run(n, r).None? ==> Taken(w, n, r) == [] && RunRaises(w, n, r)
    ensures w.run(n, r).Some? && !GoesOn(w, n, r) ==> Taken(w, n, r) == [w.run(n, r).value] && !RunRaises(w, n, r)
    ensures GoesOn(w, n, r) ==> Taken(w, n, r) == [w.run(n, r).value] + Taken(w, n, r + 1)
    ensures GoesOn(w, n, r) ==> RunRaises(w, n, r) == RunRaises(w, n, r + 1)
  {
  }

  lemma Regroup(a: seq<real>, x: real, b: seq<real>)
    ensures a + ([x] + b) == (a + [x]) + b
  {
  }

  lemma SumSnoc(xs: seq<real>, x: real)
    ensures Sum(xs + [x]) == Sum(xs) + x
  {
    SumConcat(xs, [x]);
    assert [x][1..] == [];
  }

  lemma TakenEnds(w: Workload, n: nat)
    ensures Taken(w, n, w.repeats) == [] && !RunRaises(w, n, w.repeats)
  {
  }

  method TimeSize(w: Workload, n: nat) returns (took: seq<real>, spent: real, raised: bool)
    ensures took == Taken(w, n, 0) && spent == Sum(took) && raised == RunRaises(w, n, 0)
  {
    took, spent, raised := [], 0.0, false;
    assert Sum(took) == 0.0;
    hide Taken, RunRaises, Sum;
    var r := 0;
    while r < w.repeats
      invariant 0 <= r <= w.repeats && spent == Sum(took) && !raised
      invariant Taken(w, n, 0) == took + Taken(w, n, r) && RunRaises(w, n, 0) == RunRaises(w, n, r)
    {
      var d := w.run(n, r);
      TakenUnfolds(w, n, r);
      if d.None? {
        return took, spent, true;
      }
      Regroup(took, d.value, Taken(w, n, r + 1));
      SumSnoc(took, d.value);
      took, spent := took + [d.value], spent + d.value;
      if d.value > w.slow {
        return;
      }
      r := r + 1;
    }
    TakenEnds(w, n);
  }

  // ---------------------------------------------------------------- what the next size may cost

  // Sizes are positive, so nothing is ever divided by 0.
  function Ratio(a: real, b: real): real {
    if b == 0.0 then 0.0 else a / b
  }

  // The exponent measured so far, between 1 and 3; with one point, 3.
  function Exponent(w: Workload, points: seq<Point>): real
    requires points != []
  {
    var last := points[|points| - 1];
    if |points| < 2 || points[|points| - 2].t <= 0.0 then 3.0
    else
      var before := points[|points| - 2];
      var grown := w.log(Ratio(last.n as real, before.n as real));
      if grown == 0.0 then 3.0
      else Min(Max(Ratio(w.log(Ratio(last.t, before.t)), grown), 1.0), 3.0)
  }

  predicate Affordable(w: Workload, points: seq<Point>, n: nat, left: real) {
    || points == []
    || points[|points| - 1].t <= 0.0
    || var last := points[|points| - 1];
       Product(last.t, w.power(Ratio(n as real, last.n as real), Exponent(w, points))) <= left
  }

  // What is known of the driver's logarithm and power.
  ghost predicate Logarithmic(w: Workload) {
    && Rises(w.log) && SumsProducts(w.log)
    && forall x: real, k: real :: x > 0.0 ==> w.power(x, k) > 0.0 && w.log(w.power(x, k)) == k * w.log(x)
  }

  lemma LogOfRatio(log: real -> real, a: real, b: real)
    requires SumsProducts(log) && a > 0.0 && b > 0.0
    ensures Ratio(a, b) > 0.0 && log(Ratio(a, b)) == log(a) - log(b)
  {
    Quotient(a, b, 0.0);
    assert Product(b, Ratio(a, b)) == a;
    assert a / b != 0.0;
  }

  lemma LogTellsApart(log: real -> real, a: real, b: real)
    requires Rises(log) && a > 0.0 && b > 0.0
    ensures log(a) == log(b) <==> a == b
  {
    assert a < b ==> log(a) < log(b);
    assert b < a ==> log(b) < log(a);
  }

  ghost predicate BothOnLaw(w: Workload, p: Point, q: Point, a: real, k: real) {
    OnLine(p, w.log, a, k) && OnLine(q, w.log, a, k)
  }

  lemma GrowthOfTwo(w: Workload, p: Point, q: Point, a: real, k: real)
    requires Logarithmic(w) && 0 < p.n < q.n && p.t > 0.0 && q.t > 0.0 && BothOnLaw(w, p, q, a, k)
    ensures var grown := w.log(Ratio(q.n as real, p.n as real));
            grown > 0.0 && w.log(Ratio(q.t, p.t)) == k * grown
  {
    LogOfRatio(w.log, q.n as real, p.n as real);
    LogOfRatio(w.log, q.t, p.t);
    assert w.log(p.n as real) < w.log(q.n as real);
    LineStep(w.log(p.n as real), w.log(q.n as real), w.log(p.t), w.log(q.t), a, k);
  }

  lemma RatioOfProduct(k: real, x: real)
    requires x > 0.0
    ensures Ratio(k * x, x) == k
  {
    Quotient(k * x, x, k);
  }

  // Two sizes whose times lie on a power law have its exponent, but for the clipping.
  lemma ExponentOfPowerLaw(w: Workload, points: seq<Point>, a: real, k: real)
    requires Logarithmic(w) && |points| >= 2
    requires var p, q := points[|points| - 2], points[|points| - 1];
             0 < p.n < q.n && p.t > 0.0 && q.t > 0.0 && BothOnLaw(w, p, q, a, k)
    ensures Clips(k, Exponent(w, points))
  {
    hide Logarithmic, BothOnLaw, Ratio;
    var p, q := points[|points| - 2], points[|points| - 1];
    GrowthOfTwo(w, p, q, a, k);
    var grown := w.log(Ratio(q.n as real, p.n as real));
    var timed := w.log(Ratio(q.t, p.t));
    RatioOfProduct(k, grown);
    assert timed == k * grown;
    assert Ratio(timed, grown) == k;
    assert Exponent(w, points) == Min(Max(Ratio(timed, grown), 1.0), 3.0);
  }

  // The time `t` that a size would take if the law of slope `k` went on from the last one.
  ghost predicate Projects(w: Workload, last: Point, n: nat, k: real, t: real) {
    t > 0.0 && w.log(t) - w.log(last.t) == k * (w.log(n as real) - w.log(last.n as real))
  }

  // What the next size is projected to take: from the last one, by the law of slope `k`.
  lemma ProjectionIsOnLaw(w: Workload, last: Point, n: nat, k: real, t: real)
    requires Logarithmic(w) && last.n > 0 && last.t > 0.0 && n > 0 && Projects(w, last, n, k, t)
    ensures Product(last.t, w.power(Ratio(n as real, last.n as real), k)) == t
  {
    var ratio := Ratio(n as real, last.n as real);
    LogOfRatio(w.log, n as real, last.n as real);
    var factor := w.power(ratio, k);
    assert factor > 0.0 && w.log(factor) == k * w.log(ratio);
    assert w.log(Product(last.t, factor)) == w.log(last.t) + w.log(factor);
    ProductIsPositive(last.t, factor);
    LogTellsApart(w.log, Product(last.t, factor), t);
  }

  ghost predicate Clips(slope: real, k: real) {
    k == if slope < 1.0 then 1.0 else if slope > 3.0 then 3.0 else slope
  }

  ghost predicate HasLaw(w: Workload, p: Point, q: Point, k: real) {
    exists a: real, slope: real :: BothOnLaw(w, p, q, a, slope) && Clips(slope, k)
  }

  // The law the next size is projected by: that of the last two, between linear and cubic, or
  // a cubic one where there are not two that took any time.
  ghost predicate ProjectedBy(w: Workload, points: seq<Point>, k: real)
    requires points != []
  {
    if |points| < 2 || points[|points| - 2].t <= 0.0 then k == 3.0
    else HasLaw(w, points[|points| - 2], points[|points| - 1], k)
  }

  lemma ProjectedByExponent(w: Workload, points: seq<Point>, k: real)
    requires Logarithmic(w) && points != [] && ProjectedBy(w, points, k) && points[|points| - 1].t > 0.0
    requires forall i, j :: 0 <= i < j < |points| ==> 0 < points[i].n < points[j].n
    ensures Exponent(w, points) == k
  {
    if |points| >= 2 && points[|points| - 2].t > 0.0 {
      var a: real, slope: real :| BothOnLaw(w, points[|points| - 2], points[|points| - 1], a, slope) && Clips(slope, k);
      ExponentOfPowerLaw(w, points, a, slope);
    }
  }

  // A size is started exactly if the time it is projected to take is left. The first one
  // always is, and so is any after one that took no time.
  lemma AffordableIff(w: Workload, points: seq<Point>, n: nat, left: real, k: real, t: real)
    requires Logarithmic(w) && n > 0
    requires points != [] ==> points[0].n > 0
    requires forall i, j :: 0 <= i < j < |points| ==> 0 < points[i].n < points[j].n
    ensures points == [] || points[|points| - 1].t <= 0.0 ==> Affordable(w, points, n, left)
    ensures points != [] && points[|points| - 1].t > 0.0
            && ProjectedBy(w, points, k) && Projects(w, points[|points| - 1], n, k, t)
            ==> (Affordable(w, points, n, left) <==> t <= left)
  {
    if points != [] && points[|points| - 1].t > 0.0
       && ProjectedBy(w, points, k) && Projects(w, points[|points| - 1], n, k, t) {
      hide Logarithmic, ProjectedBy, Exponent, Ratio;
      ProjectedByExponent(w, points, k);
      ProjectionIsOnLaw(w, points[|points| - 1], n, k, t);
    }
  }

  // ---------------------------------------------------------------- the sweep

  datatype Swept = Swept(points: seq<Point>, spent: real, truncated: bool, raised: bool)

  function SweepFrom(w: Workload, sizes: seq<Size>, points: seq<Point>, spent: real): Swept
    requires 0 < w.repeats
    decreases |sizes|
  {
    if sizes == [] then Swept(points, spent, false, false)
    else if !Affordable(w, points, sizes[0], w.budget - spent) then Swept(points, spent, true, false)
    else
      var n, spent' := sizes[0], spent + Cost(w, sizes[0]);
      if Raises(w, n) then Swept(points, spent', false, true)
      else
        TakenMeans(w, n, 0);
        var points' := points + [Timed(w, n)];
        if spent' > w.budget then Swept(points', spent', true, false)
        else SweepFrom(w, sizes[1..], points', spent')
  }

  function SweepOf(w: Workload, sizes: seq<Size>): Swept
    requires 0 < w.repeats
  {
    SweepFrom(w, sizes, [], 0.0)
  }

  method Sweep(w: Workload, sizes: seq<Size>) returns (swept: Swept)
    requires 0 < w.repeats
    ensures swept == SweepOf(w, sizes)
  {
    var points: seq<Point>, spent, i := [], 0.0, 0;
    while i < |sizes|
      invariant 0 <= i <= |sizes|
      invariant SweepOf(w, sizes) == SweepFrom(w, sizes[i..], points, spent)
    {
      hide Affordable, Taken, RunRaises, Least, Sum;
      var n := sizes[i];
      if !Affordable(w, points, n, w.budget - spent) {
        return Swept(points, spent, true, false);
      }
      if !w.makes(n) {
        return Swept(points, spent, false, true);
      }
      var took, cost, raised := TimeSize(w, n);
      spent := spent + cost;
      if raised {
        return Swept(points, spent, false, true);
      }
      TakenMeans(w, n, 0);
      points := points + [Point(n, Least(took))];
      if spent > w.budget {
        return Swept(points, spent, true, false);
      }
      assert sizes[i..][1..] == sizes[i + 1..];
      i := i + 1;
    }
    return Swept(points, spent, false, false);
  }

  // ---------------------------------------------------------------- what a sweep measured

  function TotalCost(w: Workload, sizes: seq<Size>): real {
    if sizes == [] then 0.0 else TotalCost(w, sizes[..|sizes| - 1]) + Cost(w, sizes[|sizes| - 1])
  }

  lemma CostSnoc(w: Workload, sizes: seq<Size>, i: nat)
    requires i < |sizes|
    ensures TotalCost(w, sizes[..i + 1]) == TotalCost(w, sizes[..i]) + Cost(w, sizes[i])
  {
    assert sizes[..i + 1][..i] == sizes[..i];
  }

  ghost predicate MeasuredAt(w: Workload, n: nat, p: Point) {
    !Raises(w, n) && p.n == n && p.t in Taken(w, n, 0) && forall d :: d in Taken(w, n, 0) ==> p.t <= d
  }

  lemma TimedIsMeasured(w: Workload, n: nat)
    requires !Raises(w, n) && Taken(w, n, 0) != []
    ensures MeasuredAt(w, n, Timed(w, n))
  {
    LeastIsLeast(Taken(w, n, 0));
  }

  // The first sizes, in order, each at the fastest of its runs.
  ghost predicate Measured(w: Workload, sizes: seq<Size>, points: seq<Point>) {
    |points| <= |sizes| && forall k :: 0 <= k < |points| ==> MeasuredAt(w, sizes[k], points[k])
  }

  // The size at `k` may be started: the ones before it left budget, and enough of it.
  ghost predicate MayStart(w: Workload, sizes: seq<Size>, points: seq<Point>, k: nat)
    requires k <= |points| && k < |sizes|
  {
    && (k > 0 ==> TotalCost(w, sizes[..k]) <= w.budget)
    && Affordable(w, points[..k], sizes[k], w.budget - TotalCost(w, sizes[..k]))
  }

  // What a sweep that got to `sizes[i]` with these points has come to so far.
  ghost predicate SoFar(w: Workload, sizes: seq<Size>, i: nat, points: seq<Point>, spent: real) {
    && i == |points| <= |sizes| && Measured(w, sizes, points)
    && spent == TotalCost(w, sizes[..i]) && (i > 0 ==> spent <= w.budget)
    && forall k :: 0 <= k < i ==> MayStart(w, sizes, points, k)
  }

  // The cost of a sweep is that of every size it started.
  ghost predicate Accounted(w: Workload, sizes: seq<Size>, s: Swept) {
    var m := |s.points|;
    && Measured(w, sizes, s.points)
    && (forall k :: 0 <= k < m ==> MayStart(w, sizes, s.points, k))
    && (s.raised ==> m < |sizes|)
    && s.spent == TotalCost(w, sizes[..if s.raised then m + 1 else m])
  }

  // It ends early for one of three reasons: a size raised, the budget is spent, or the next
  // size cannot be afforded.
  ghost predicate EndsFor(w: Workload, sizes: seq<Size>, s: Swept) {
    var m := |s.points|;
    if s.raised then
      !s.truncated && m < |sizes| && MayStart(w, sizes, s.points, m) && Raises(w, sizes[m])
    else if s.truncated then
      m > 0 && (s.spent > w.budget || (m < |sizes| && !MayStart(w, sizes, s.points, m)))
    else
      m == |sizes| && (m > 0 ==> s.spent <= w.budget)
  }

  lemma StartIsAffordable(w: Workload, sizes: seq<Size>, i: nat, points: seq<Point>, spent: real)
    requires SoFar(w, sizes, i, points, spent) && i < |sizes|
    ensures MayStart(w, sizes, points, i) <==> Affordable(w, points, sizes[i], w.budget - spent)
    ensures i == 0 ==> MayStart(w, sizes, points, i)
  {
    assert points[..i] == points;
  }

  lemma MeasuredSnoc(w: Workload, sizes: seq<Size>, i: nat, points: seq<Point>, spent: real)
    requires SoFar(w, sizes, i, points, spent) && i < |sizes| && MayStart(w, sizes, points, i)
    requires !Raises(w, sizes[i]) && Taken(w, sizes[i], 0) != []
    ensures var points' := points + [Timed(w, sizes[i])];
            && Measured(w, sizes, points') && forall k :: 0 <= k <= i ==> MayStart(w, sizes, points', k)
  {
    TimedIsMeasured(w, sizes[i]);
    hide Affordable, Raises, Taken, Timed, MeasuredAt;
    var points' := points + [Timed(w, sizes[i])];
    forall k | 0 <= k <= i ensures MayStart(w, sizes, points', k) {
      assert MayStart(w, sizes, points, k);
      assert points'[..k] == points[..k];
    }
  }

  lemma {:induction false} SweepFromMeans(w: Workload, sizes: seq<Size>, i: nat, points: seq<Point>, spent: real)
    requires 0 < w.repeats && SoFar(w, sizes, i, points, spent)
    ensures var s := SweepFrom(w, sizes[i..], points, spent);
            Accounted(w, sizes, s) && EndsFor(w, sizes, s)
    decreases |sizes| - i
  {
    hide MayStart, Affordable, Raises, Taken, Cost, TotalCost;
    if i < |sizes| {
      var n := sizes[i];
      StartIsAffordable(w, sizes, i, points, spent);
      CostSnoc(w, sizes, i);
      if MayStart(w, sizes, points, i) && !Raises(w, n) {
        SizeIsTimed(w, n);
        MeasuredSnoc(w, sizes, i, points, spent);
        assert sizes[i..][1..] == sizes[i + 1..];
        if spent + Cost(w, n) <= w.budget {
          SweepFromMeans(w, sizes, i + 1, points + [Timed(w, n)], spent + Cost(w, n));
        }
      }
    }
  }

  lemma SizeIsTimed(w: Workload, n: nat)
    requires 0 < w.repeats && !Raises(w, n)
    ensures Taken(w, n, 0) != []
  {
    TakenMeans(w, n, 0);
  }

  // Of any sweep: what it measured, what that cost, and why it ended.
  lemma SweepMeans(w: Workload, sizes: seq<Size>)
    requires 0 < w.repeats
    ensures Accounted(w, sizes, SweepOf(w, sizes)) && EndsFor(w, sizes, SweepOf(w, sizes))
  {
    assert sizes[0..] == sizes && TotalCost(w, sizes[..0]) == 0.0;
    SweepFromMeans(w, sizes, 0, [], 0.0);
  }

  ghost predicate AscendingSizes(sizes: seq<Size>) {
    forall i, j :: 0 <= i < j < |sizes| ==> sizes[i] < sizes[j]
  }

  // What `run_probe` makes of a sweep: one that raised measured nothing.
  function Verdicts(w: Workload, band: Option<Class>, s: Swept): (Verdict, Option<real>) {
    if s.raised then (Inconclusive, None) else Judge(s.points, band, s.truncated, w.log)
  }

  ghost predicate Whole(sizes: seq<Size>, s: Swept) {
    sizes != [] && !s.raised && |s.points| == |sizes|
  }

  // "Growth within the band's ceiling is never called slower" is true of a whole sweep exactly
  // when its runs kept to the budget: one that measured every size and overspent in doing so
  // is cut short after its last one.
  lemma WithinCeilingIsSlowerIff(w: Workload, sizes: seq<Size>, target: Class)
    requires 0 < w.repeats && Rises(w.log) && AscendingSizes(sizes)
    requires var s := SweepOf(w, sizes);
             && Whole(sizes, s) && StaysWithin(s.points, w.log, Ceiling(target))
             && s.points[0].t <= ABSURD_FIRST_SIZE_SECONDS
    ensures var s := SweepOf(w, sizes);
            && s.spent == TotalCost(w, sizes)
            && (Verdicts(w, Some(target), s).0 == SlowerThanTarget <==> s.spent > w.budget)
  {
    var s := SweepOf(w, sizes);
    SweepMeans(w, sizes);
    assert sizes[..|sizes|] == sizes;
    forall i, j | 0 <= i < j < |s.points| ensures s.points[i].n < s.points[j].n {
      assert MeasuredAt(w, sizes[i], s.points[i]) && MeasuredAt(w, sizes[j], s.points[j]);
    }
    if !s.truncated {
      WithinCeilingIsNeverSlower(s.points, target, w.log);
    }
  }

  // ---------------------------------------------------------------- a sweep that overspends

  const SIZES: seq<Size> := [1000, 2000, 4000, 8000, 16000]

  // On the driver's usual terms, every run of every size takes nine tenths of a second.
  ghost predicate Steady(w: Workload) {
    && w.repeats == 5 && w.slow == 1.0 && w.budget == 20.0
    && (forall n: nat :: w.makes(n))
    && (forall n: nat, r: nat :: w.run(n, r) == Some(0.9))
  }

  ghost predicate ProperArithmetic(w: Workload) {
    && Rises(w.log) && SumsProducts(w.log)
    && w.power(2.0, 1.0) == 2.0 && w.power(2.0, 3.0) == 8.0
  }

  lemma {:induction false} SteadyRuns(w: Workload, n: nat, r: nat)
    requires Steady(w) && r <= 5
    ensures |Taken(w, n, r)| == 5 - r && !RunRaises(w, n, r)
    ensures Sum(Taken(w, n, r)) == 0.9 * (5 - r) as real
    ensures r < 5 ==> Least(Taken(w, n, r)) == 0.9
    decreases 5 - r
  {
    if r < 5 {
      SteadyRuns(w, n, r + 1);
      TakenUnfolds(w, n, r);
      assert Taken(w, n, r)[1..] == Taken(w, n, r + 1);
    }
  }

  function SteadyPoints(k: nat): (points: seq<Point>)
    requires k <= |SIZES|
    ensures |points| == k && forall i :: 0 <= i < k ==> points[i] == Point(SIZES[i], 0.9)
  {
    seq(k, i requires 0 <= i < k => Point(SIZES[i], 0.9))
  }

  lemma LogOfOne(log: real -> real)
    requires Rises(log) && SumsProducts(log)
    ensures log(1.0) == 0.0 && log(2.0) > 0.0
  {
    assert Product(1.0, 1.0) == 1.0;
  }

  // The first size costs eight times itself at most, and every later one twice.
  lemma SteadyIsAffordable(w: Workload, k: nat)
    requires Steady(w) && ProperArithmetic(w) && k < |SIZES|
    ensures Affordable(w, SteadyPoints(k), SIZES[k], 20.0 - 4.5 * k as real)
  {
    var points := SteadyPoints(k);
    if k > 0 {
      assert Ratio(SIZES[k] as real, SIZES[k - 1] as real) == 2.0;
      LogOfOne(w.log);
      if k > 1 {
        assert Ratio(SIZES[k - 1] as real, SIZES[k - 2] as real) == 2.0;
        assert Exponent(w, points) == 1.0;
      }
    }
  }

  lemma {:induction false} SteadyFrom(w: Workload, k: nat)
    requires Steady(w) && ProperArithmetic(w) && k < |SIZES|
    ensures SweepFrom(w, SIZES[k..], SteadyPoints(k), 4.5 * k as real) == Swept(SteadyPoints(5), 22.5, true, false)
    decreases 5 - k
  {
    hide Affordable, Taken, RunRaises, Least, Sum;
    var n := SIZES[k];
    SteadyIsAffordable(w, k);
    SteadyRuns(w, n, 0);
    assert SteadyPoints(k) + [Timed(w, n)] == SteadyPoints(k + 1);
    assert SIZES[k..][1..] == SIZES[k + 1..];
    if k < 4 {
      SteadyFrom(w, k + 1);
    }
  }

  lemma SteadyStaysWithin(log: real -> real, target: Class)
    requires Rises(log)
    ensures StaysWithin(SteadyPoints(5), log, Ceiling(target))
  {
    var points := SteadyPoints(5);
    AllAreUsable(points);
    var xs, ys := Sizes(points, log), Times(points, log);
    forall i | 0 < i < 5 ensures StepAtMost(xs, ys, Ceiling(target), i) {
      assert SIZES[i - 1] as real < SIZES[i] as real;
      ProductIsPositive(Ceiling(target), xs[i] - xs[i - 1]);
      assert Product(Ceiling(target), xs[i] - xs[i - 1]) > 0.0;
    }
  }

  // Growth within every band's ceiling, the whole sweep measured, and yet judged slower.
  lemma OverspentSweepIsSlower(w: Workload, target: Class)
    requires Steady(w) && ProperArithmetic(w)
    ensures var s := SweepOf(w, SIZES);
            && Whole(SIZES, s) && StaysWithin(s.points, w.log, Ceiling(target))
            && s.points[0].t <= ABSURD_FIRST_SIZE_SECONDS && s.spent == 22.5
            && Verdicts(w, Some(target), s).0 == SlowerThanTarget
  {
    hide StaysWithin;
    SteadyFrom(w, 0);
    assert SIZES[0..] == SIZES;
    SteadyStaysWithin(w.log, target);
  }

  // Run `k` raises, and those from `r` up to it are not slow and do not.
  ghost predicate RaisesAt(w: Workload, n: nat, r: nat, k: nat) {
    && w.run(n, k).None?
    && forall j: nat :: r <= j < k ==> w.run(n, j).Some? && w.run(n, j).value <= w.slow
  }

  lemma RaisesLater(w: Workload, n: nat, r: nat, k: nat)
    requires w.run(n, r).Some? && w.run(n, r).value <= w.slow && r <= k
    ensures RaisesAt(w, n, r, k) <==> r < k && RaisesAt(w, n, r + 1, k)
  {
  }

  // A size raises when no input can be made for it, or when one of its runs does before any
  // was slow; the runs before that one are all it costs.
  lemma {:induction false} RunRaisesIff(w: Workload, n: nat, r: nat)
    ensures RunRaises(w, n, r) <==> exists k: nat :: r <= k < w.repeats && RaisesAt(w, n, r, k)
    decreases w.repeats - r
  {
    if r < w.repeats {
      if w.run(n, r).None? {
        assert RaisesAt(w, n, r, r);
      } else if w.run(n, r).value <= w.slow {
        var next := r + 1;
        RunRaisesIff(w, n, next);
        if k: nat :| r < k < w.repeats && RaisesAt(w, n, next, k) {
          RaisesLater(w, n, r, k);
        }
        if k: nat :| r <= k < w.repeats && RaisesAt(w, n, r, k) {
          RaisesLater(w, n, r, k);
          assert r + 1 <= k;
        }
      }
    }
  }

  lemma RaisesIff(w: Workload, n: nat)
    ensures Raises(w, n) <==> !w.makes(n) || exists k: nat :: k < w.repeats && RaisesAt(w, n, 0, k)
    ensures !w.makes(n) ==> Cost(w, n) == 0.0
    ensures w.makes(n) ==> Cost(w, n) == Sum(Taken(w, n, 0))
  {
    RunRaisesIff(w, n, 0);
  }

  // A sweep that meets a size that raises is inconclusive, whatever it measured before.
  lemma RaisedIsInconclusive(w: Workload, sizes: seq<Size>, band: Option<Class>)
    requires 0 < w.repeats && |SweepOf(w, sizes).points| < |sizes| && !SweepOf(w, sizes).truncated
    ensures Verdicts(w, band, SweepOf(w, sizes)) == (Inconclusive, None)
  {
    SweepMeans(w, sizes);
  }
}
