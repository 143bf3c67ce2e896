/**
  The complexity probe's arithmetic: the least-squares slope of log time against log size, and
  the verdict drawn from it. The logarithm is a parameter; what is needed of it is stated
  where it is needed.
*/
module Complexity {
  import opened Base

  datatype Point = Point(n: nat, t: real)

  datatype Class = Constant | Log | Linear | Linearithmic | Quadratic | Cubic

  datatype Verdict = Matches | SlowerThanTarget | Inconclusive

  const MARGIN := 0.35
  const MIN_SIGNIFICANT_SECONDS := 0.0002
  const ABSURD_FIRST_SIZE_SECONDS := 1.0

  function Ceiling(target: Class): real {
    match target
    case Constant => 0.50
    case Log => 0.50
    case Linear => 1.30
    case Linearithmic => 1.75
    case Quadratic => 2.60
    case Cubic => 3.60
  }

  // ---------------------------------------------------------------- sums

  function Sum(xs: seq<real>): real {
    if xs == [] then 0.0 else xs[0] + Sum(xs[1..])
  }

  function Mean(xs: seq<real>): real
    requires xs != []
  {
    Sum(xs) / |xs| as real
  }

  function Product(a: real, b: real): real {
    a * b
  }

  function Term(x: real, y: real, a: real, b: real): real {
    Product(x - a, y - b)
  }

  // The sum of products of the distances from `a` and `b`.
  function Cross(xs: seq<real>, ys: seq<real>, a: real, b: real): real
    requires |xs| == |ys|
  {
    if xs == [] then 0.0 else Term(xs[0], ys[0], a, b) + Cross(xs[1..], ys[1..], a, b)
  }

  // How far a sum is from `a` times its length.
  function Excess(xs: seq<real>, a: real): real {
    if xs == [] then 0.0 else xs[0] - a + Excess(xs[1..], a)
  }

  lemma {:induction false} ExcessIsSum(xs: seq<real>, a: real)
    ensures Excess(xs, a) == Sum(xs) - |xs| as real * a
  {
    if xs != [] {
      ExcessIsSum(xs[1..], a);
    }
  }

  lemma NoExcessOverMean(xs: seq<real>)
    requires xs != []
    ensures Excess(xs, Mean(xs)) == 0.0
  {
    ExcessIsSum(xs, Mean(xs));
  }

  lemma TermShift(x: real, y: real, a: real, b: real, c: real)
    ensures Term(x, y, a, b) == Term(x, y, a, c) + (c - b) * (x - a)
  {
  }

  // Around a mean, what the other side is measured from makes no difference.
  lemma {:induction false} CrossShift(xs: seq<real>, ys: seq<real>, a: real, b: real, c: real)
    requires |xs| == |ys|
    ensures Cross(xs, ys, a, b) == Cross(xs, ys, a, c) + (c - b) * Excess(xs, a)
  {
    hide Term;
    if xs != [] {
      TermShift(xs[0], ys[0], a, b, c);
      CrossShift(xs[1..], ys[1..], a, b, c);
      Distribute(c - b, xs[0] - a, Excess(xs[1..], a));
    }
  }

  lemma Distribute(k: real, x: real, y: real)
    ensures k * (x + y) == k * x + k * y
  {
  }

  function Tilted(x: real, y: real, k: real): real {
    y - k * x
  }

  function Tilt(xs: seq<real>, ys: seq<real>, k: real): (zs: seq<real>)
    requires |xs| == |ys|
    ensures |zs| == |xs| && forall i :: 0 <= i < |xs| ==> zs[i] == Tilted(xs[i], ys[i], k)
  {
    seq(|xs|, i requires 0 <= i < |xs| => Tilted(xs[i], ys[i], k))
  }

  lemma TermTilt(x: real, y: real, a: real, b: real, k: real)
    ensures Term(x, y, a, b) == k * Term(x, x, a, a) + Term(x, Tilted(x, y, k), a, b - k * a)
  {
    var d := x - a;
    assert y - k * x - (b - k * a) == (y - b) - k * d;
    assert Term(x, y - k * x, a, b - k * a) == d * (y - b) - d * (k * d);
    assert d * (k * d) == k * (d * d);
  }

  lemma {:induction false} CrossTilt(xs: seq<real>, ys: seq<real>, a: real, b: real, k: real)
    requires |xs| == |ys|
    ensures Cross(xs, ys, a, b) == k * Cross(xs, xs, a, a) + Cross(xs, Tilt(xs, ys, k), a, b - k * a)
  {
    hide Term, Tilted;
    if xs != [] {
      TermTilt(xs[0], ys[0], a, b, k);
      CrossTilt(xs[1..], ys[1..], a, b, k);
      Distribute(k, Term(xs[0], xs[0], a, a), Cross(xs[1..], xs[1..], a, a));
      assert Tilt(xs, ys, k)[1..] == Tilt(xs[1..], ys[1..], k);
    }
  }

  // ---------------------------------------------------------------- Chebyshev

  ghost predicate Ascending(xs: seq<real>) {
    forall i, j :: 0 <= i < j < |xs| ==> xs[i] < xs[j]
  }

  ghost predicate Falling(zs: seq<real>) {
    forall i, j :: 0 <= i < j < |zs| ==> zs[j] <= zs[i]
  }

  ghost predicate OppositeSides(xs: seq<real>, zs: seq<real>, a: real, c: real)
    requires |xs| == |zs|
  {
    forall i :: 0 <= i < |xs| ==> (xs[i] <= a && zs[i] >= c) || (xs[i] >= a && zs[i] <= c)
  }

  lemma ProductOfOpposites(p: real, q: real)
    requires (p <= 0.0 && q >= 0.0) || (p >= 0.0 && q <= 0.0)
    ensures Product(p, q) <= 0.0
  {
  }

  lemma OppositeTerm(x: real, z: real, a: real, c: real)
    requires (x <= a && z >= c) || (x >= a && z <= c)
    ensures Term(x, z, a, c) <= 0.0
  {
    ProductOfOpposites(x - a, z - c);
  }

  lemma {:induction false} OppositeCross(xs: seq<real>, zs: seq<real>, a: real, c: real)
    requires |xs| == |zs| && OppositeSides(xs, zs, a, c)
    ensures Cross(xs, zs, a, c) <= 0.0
  {
    if xs != [] {
      OppositeTerm(xs[0], zs[0], a, c);
      OppositeCross(xs[1..], zs[1..], a, c);
    }
  }

  // The first one that is past the mean, or the end.
  function Pivot(xs: seq<real>, a: real): (m: nat)
    ensures m <= |xs| && (forall i :: 0 <= i < m ==> xs[i] <= a) && (m < |xs| ==> xs[m] > a)
  {
    if xs == [] || xs[0] > a then 0 else 1 + Pivot(xs[1..], a)
  }

  // A falling sequence against an ascending one: around the mean the products cancel downwards.
  lemma Chebyshev(xs: seq<real>, zs: seq<real>, b: real)
    requires |xs| == |zs| && xs != [] && Ascending(xs) && Falling(zs)
    ensures Cross(xs, zs, Mean(xs), b) <= 0.0
  {
    var a := Mean(xs);
    var m := Pivot(xs, a);
    var c := if m < |xs| then zs[m] else zs[|xs| - 1];
    forall i | 0 <= i < |xs| ensures (xs[i] <= a && zs[i] >= c) || (xs[i] >= a && zs[i] <= c) {
      if i > m {
        assert xs[m] < xs[i];
      }
    }
    OppositeCross(xs, zs, a, c);
    CrossShift(xs, zs, a, b, c);
    NoExcessOverMean(xs);
  }

  lemma {:induction false} SquaresAreNonNegative(xs: seq<real>, a: real)
    ensures Cross(xs, xs, a, a) >= 0.0
    ensures (exists i :: 0 <= i < |xs| && xs[i] != a) ==> Cross(xs, xs, a, a) > 0.0
  {
    if xs != [] {
      SquaresAreNonNegative(xs[1..], a);
      SquareIsPositive(xs[0], a);
      if xs[0] == a && exists i :: 0 <= i < |xs| && xs[i] != a {
        var i :| 0 <= i < |xs| && xs[i] != a;
        assert xs[1..][i - 1] != a;
        assert Cross(xs[1..], xs[1..], a, a) > 0.0;
      }
    }
  }

  lemma ProductIsPositive(p: real, q: real)
    requires (p > 0.0 && q > 0.0) || (p < 0.0 && q < 0.0)
    ensures Product(p, q) > 0.0
  {
  }

  lemma SquareIsPositive(x: real, a: real)
    ensures Term(x, x, a, a) >= 0.0 && (x != a ==> Term(x, x, a, a) > 0.0)
  {
    if x != a {
      ProductIsPositive(x - a, x - a);
    } else {
      assert Product(0.0, 0.0) == 0.0;
    }
  }

  // Two different sizes are enough for the denominator to be positive.
  lemma DenominatorIsPositive(xs: seq<real>)
    requires |xs| >= 2 && Ascending(xs)
    ensures Cross(xs, xs, Mean(xs), Mean(xs)) > 0.0
  {
    var a := Mean(xs);
    assert xs[0] < xs[1];
    assert xs[0] != a || xs[1] != a;
    SquaresAreNonNegative(xs, a);
  }

  // ---------------------------------------------------------------- the slope

  function Slope(xs: seq<real>, ys: seq<real>): Option<real>
    requires |xs| == |ys| && xs != []
  {
    var denom := Cross(xs, xs, Mean(xs), Mean(xs));
    if denom == 0.0 then None else Some(Cross(xs, ys, Mean(xs), Mean(ys)) / denom)
  }

  predicate StepAtMost(xs: seq<real>, ys: seq<real>, k: real, i: nat)
    requires |xs| == |ys| && 0 < i < |xs|
  {
    ys[i] - ys[i - 1] <= k * (xs[i] - xs[i - 1])
  }

  // Every consecutive growth exponent is at most `k`.
  ghost predicate GrowsAtMost(xs: seq<real>, ys: seq<real>, k: real)
    requires |xs| == |ys|
  {
    forall i :: 0 < i < |xs| ==> StepAtMost(xs, ys, k, i)
  }

  lemma {:induction false} TiltFalls(xs: seq<real>, ys: seq<real>, k: real, i: nat, j: nat)
    requires |xs| == |ys| && GrowsAtMost(xs, ys, k) && i <= j < |xs|
    ensures Tilt(xs, ys, k)[j] <= Tilt(xs, ys, k)[i]
  {
    if i < j {
      TiltFalls(xs, ys, k, i, j - 1);
      assert StepAtMost(xs, ys, k, j);
      assert k * (xs[j] - xs[j - 1]) == k * xs[j] - k * xs[j - 1];
    }
  }

  lemma Quotient(num: real, denom: real, k: real)
    requires denom > 0.0
    ensures num <= k * denom ==> num / denom <= k
    ensures num >= k * denom ==> num / denom >= k
  {
    var q := num / denom;
    assert q * denom == num;
    if q > k {
      assert (q - k) * denom > 0.0;
    }
    if q < k {
      assert (k - q) * denom > 0.0;
    }
  }

  lemma SlopeAtMost(xs: seq<real>, ys: seq<real>, k: real)
    requires |xs| == |ys| && |xs| >= 2 && Ascending(xs) && GrowsAtMost(xs, ys, k)
    ensures Slope(xs, ys).Some? && Slope(xs, ys).value <= k
  {
    var a, b := Mean(xs), Mean(ys);
    DenominatorIsPositive(xs);
    CrossTilt(xs, ys, a, b, k);
    forall i, j | 0 <= i < j < |xs| ensures Tilt(xs, ys, k)[j] <= Tilt(xs, ys, k)[i] {
      TiltFalls(xs, ys, k, i, j);
    }
    Chebyshev(xs, Tilt(xs, ys, k), b - k * a);
    Quotient(Cross(xs, ys, a, b), Cross(xs, xs, a, a), k);
  }

  function Negated(ys: seq<real>): (zs: seq<real>)
    ensures |zs| == |ys| && forall i :: 0 <= i < |ys| ==> zs[i] == -ys[i]
  {
    seq(|ys|, i requires 0 <= i < |ys| => -ys[i])
  }

  lemma {:induction false} CrossNegated(xs: seq<real>, ys: seq<real>, a: real, b: real)
    requires |xs| == |ys|
    ensures Cross(xs, Negated(ys), a, -b) == -Cross(xs, ys, a, b)
  {
    if xs != [] {
      CrossNegated(xs[1..], ys[1..], a, b);
      assert Negated(ys)[1..] == Negated(ys[1..]);
      assert Term(xs[0], -ys[0], a, -b) == -Term(xs[0], ys[0], a, b);
    }
  }

  lemma {:induction false} SumNegated(ys: seq<real>)
    ensures Sum(Negated(ys)) == -Sum(ys)
  {
    if ys != [] {
      SumNegated(ys[1..]);
      assert Negated(ys)[1..] == Negated(ys[1..]);
    }
  }

  lemma SlopeNegated(xs: seq<real>, ys: seq<real>)
    requires |xs| == |ys| && xs != [] && Slope(xs, ys).Some?
    ensures Slope(xs, Negated(ys)) == Some(-Slope(xs, ys).value)
  {
    SumNegated(ys);
    assert Mean(Negated(ys)) == -Mean(ys);
    CrossNegated(xs, ys, Mean(xs), Mean(ys));
    var num, denom := Cross(xs, ys, Mean(xs), Mean(ys)), Cross(xs, xs, Mean(xs), Mean(xs));
    assert (-num) / denom == -(num / denom);
  }

  predicate StepAtLeast(xs: seq<real>, ys: seq<real>, k: real, i: nat)
    requires |xs| == |ys| && 0 < i < |xs|
  {
    ys[i] - ys[i - 1] >= k * (xs[i] - xs[i - 1])
  }

  ghost predicate GrowsAtLeast(xs: seq<real>, ys: seq<real>, k: real)
    requires |xs| == |ys|
  {
    forall i :: 0 < i < |xs| ==> StepAtLeast(xs, ys, k, i)
  }

  lemma SlopeAtLeast(xs: seq<real>, ys: seq<real>, k: real)
    requires |xs| == |ys| && |xs| >= 2 && Ascending(xs) && GrowsAtLeast(xs, ys, k)
    ensures Slope(xs, ys).Some? && Slope(xs, ys).value >= k
  {
    var zs, l := Negated(ys), -k;
    forall i | 0 < i < |xs| ensures StepAtMost(xs, zs, l, i) {
      assert StepAtLeast(xs, ys, k, i);
      assert l * (xs[i] - xs[i - 1]) == -(k * (xs[i] - xs[i - 1]));
    }
    SlopeAtMost(xs, zs, l);
    DenominatorIsPositive(xs);
    SlopeNegated(xs, ys);
  }

  // The fitted slope lies between the smallest and the largest consecutive exponent.
  lemma SlopeIsBetweenGrowths(xs: seq<real>, ys: seq<real>, low: real, high: real)
    requires |xs| == |ys| && |xs| >= 2 && Ascending(xs)
    requires GrowsAtLeast(xs, ys, low) && GrowsAtMost(xs, ys, high)
    ensures Slope(xs, ys).Some? && low <= Slope(xs, ys).value <= high
  {
    SlopeAtMost(xs, ys, high);
    SlopeAtLeast(xs, ys, low);
  }

  // ---------------------------------------------------------------- least squares

  function Residual(x: real, y: real, k: real, b: real): real {
    y - k * x - b
  }

  function Square(r: real): real {
    r * r
  }

  // How badly the line of slope `k` through `b` fits.
  function Squares(xs: seq<real>, ys: seq<real>, k: real, b: real): real
    requires |xs| == |ys|
  {
    if xs == [] then 0.0 else Square(Residual(xs[0], ys[0], k, b)) + Squares(xs[1..], ys[1..], k, b)
  }

  // The squares of the distances between two lines whose slopes differ by `g`.
  function Apart(xs: seq<real>, a: real, g: real, h: real): real {
    if xs == [] then 0.0 else Square(g * (xs[0] - a) + h) + Apart(xs[1..], a, g, h)
  }

  lemma OneResidual(x: real, y: real, s: real, c: real, a: real, g: real, h: real)
    ensures Square(Residual(x, y, s + g, c + h - g * a))
            == Square(Residual(x, y, s, c)) - 2.0 * g * Term(x, Tilted(x, y, s), a, c)
               - 2.0 * h * (Tilted(x, y, s) - c) + Square(g * (x - a) + h)
  {
    var r, u := y - s * x - c, x - a;
    assert Residual(x, y, s + g, c + h - g * a) == r - (g * u + h) by {
      assert (s + g) * x == s * x + g * x && g * u == g * x - g * a;
    }
    assert (r - (g * u + h)) * (r - (g * u + h)) == r * r - 2.0 * g * (u * r) - 2.0 * h * r + (g * u + h) * (g * u + h);
  }

  lemma {:induction false} SquaresSplit(xs: seq<real>, ys: seq<real>, s: real, c: real, a: real, g: real, h: real)
    requires |xs| == |ys|
    ensures Squares(xs, ys, s + g, c + h - g * a)
            == Squares(xs, ys, s, c) - 2.0 * g * Cross(xs, Tilt(xs, ys, s), a, c)
               - 2.0 * h * Excess(Tilt(xs, ys, s), c) + Apart(xs, a, g, h)
  {
    hide Square, Residual, Term, Tilted;
    if xs != [] {
      var zs := Tilt(xs, ys, s);
      assert zs[1..] == Tilt(xs[1..], ys[1..], s);
      OneResidual(xs[0], ys[0], s, c, a, g, h);
      SquaresSplit(xs[1..], ys[1..], s, c, a, g, h);
      Distribute(2.0 * g, Term(xs[0], zs[0], a, c), Cross(xs[1..], zs[1..], a, c));
      Distribute(2.0 * h, zs[0] - c, Excess(zs[1..], c));
    }
  }

  lemma {:induction false} SumTilt(xs: seq<real>, ys: seq<real>, k: real)
    requires |xs| == |ys|
    ensures Sum(Tilt(xs, ys, k)) == Sum(ys) - k * Sum(xs)
  {
    if xs != [] {
      assert Tilt(xs, ys, k)[1..] == Tilt(xs[1..], ys[1..], k);
      SumTilt(xs[1..], ys[1..], k);
      Distribute(k, xs[0], Sum(xs[1..]));
    }
  }

  lemma MeanTimes(xs: seq<real>)
    requires xs != []
    ensures Sum(xs) == Mean(xs) * |xs| as real
  {
    QuotientTimes(Mean(xs), Sum(xs), |xs| as real);
  }

  lemma QuotientTimes(q: real, x: real, d: real)
    requires d != 0.0 && q == x / d
    ensures q * d == x
  {
  }

  // Where the line of slope `s` through both means begins.
  function Intercept(xs: seq<real>, ys: seq<real>, s: real): real
    requires xs != [] && ys != []
  {
    Mean(ys) - s * Mean(xs)
  }

  lemma MeansBalance(sx: real, sy: real, a: real, m: real, n: real, s: real)
    requires sx == a * n && sy == m * n
    ensures (sy - s * sx) - n * (m - s * a) == 0.0
  {
    assert s * sx == s * (a * n) == n * (s * a);
    assert n * (m - s * a) == n * m - n * (s * a);
  }

  // The residuals of a line through both means lie to neither side,
  lemma ResidualsAddToNothing(xs: seq<real>, ys: seq<real>, s: real)
    requires |xs| == |ys| && xs != []
    ensures Excess(Tilt(xs, ys, s), Intercept(xs, ys, s)) == 0.0
  {
    hide Excess, Sum, Mean, Tilt;
    SumTilt(xs, ys, s);
    ExcessIsSum(Tilt(xs, ys, s), Intercept(xs, ys, s));
    MeanTimes(xs);
    MeanTimes(ys);
    MeansBalance(Sum(xs), Sum(ys), Mean(xs), Mean(ys), |xs| as real, s);
  }

  lemma SlopeTimes(xs: seq<real>, ys: seq<real>, s: real)
    requires |xs| == |ys| && xs != [] && Slope(xs, ys) == Some(s)
    ensures Product(s, Cross(xs, xs, Mean(xs), Mean(xs))) == Cross(xs, ys, Mean(xs), Mean(ys))
  {
    hide Cross, Mean;
  }

  lemma CrossTilts(xs: seq<real>, ys: seq<real>, a: real, b: real, s: real, c: real)
    requires |xs| == |ys| && c == b - s * a
    ensures Cross(xs, ys, a, b) == Product(s, Cross(xs, xs, a, a)) + Cross(xs, Tilt(xs, ys, s), a, c)
  {
    hide Cross, Tilt;
    CrossTilt(xs, ys, a, b, s);
  }

  // and those of the fitted one do not lean.
  lemma ResidualsDoNotLean(xs: seq<real>, ys: seq<real>, s: real)
    requires |xs| == |ys| && |xs| >= 2 && Slope(xs, ys) == Some(s)
    ensures Cross(xs, Tilt(xs, ys, s), Mean(xs), Intercept(xs, ys, s)) == 0.0
  {
    hide Cross, Tilt, Mean, Slope, Product;
    SlopeTimes(xs, ys, s);
    CrossTilts(xs, ys, Mean(xs), Mean(ys), s, Intercept(xs, ys, s));
  }

  lemma {:induction false} ApartIsPositive(xs: seq<real>, a: real, g: real, h: real)
    ensures Apart(xs, a, g, h) >= 0.0
    ensures (exists i :: 0 <= i < |xs| && g * (xs[i] - a) + h != 0.0) ==> Apart(xs, a, g, h) > 0.0
  {
    if xs != [] {
      ApartIsPositive(xs[1..], a, g, h);
      SquareSign(g * (xs[0] - a) + h);
      if i :| 0 <= i < |xs| && g * (xs[i] - a) + h != 0.0 {
        assert i > 0 ==> xs[1..][i - 1] == xs[i];
      }
    }
  }

  lemma SquareSign(r: real)
    ensures Square(r) >= 0.0 && (r != 0.0 ==> Square(r) > 0.0)
  {
    if r > 0.0 {
      ProductIsPositive(r, r);
    } else if r < 0.0 {
      ProductIsPositive(r, r);
    }
  }

  lemma LinesPart(xs: seq<real>, a: real, g: real, h: real)
    requires |xs| >= 2 && Ascending(xs) && (g != 0.0 || h != 0.0)
    ensures exists i :: 0 <= i < |xs| && g * (xs[i] - a) + h != 0.0
  {
    if g * (xs[0] - a) + h == 0.0 && g * (xs[1] - a) + h == 0.0 {
      assert g * (xs[1] - xs[0]) == g * (xs[1] - a) - g * (xs[0] - a) == 0.0;
      assert xs[0] < xs[1];
      if g != 0.0 {
        NonZeroProduct(g, xs[1] - xs[0]);
      }
    }
  }

  lemma NonZeroProduct(g: real, d: real)
    requires g != 0.0 && d > 0.0
    ensures g * d != 0.0
  {
    if g > 0.0 { ProductIsPositive(g, d); } else { ProductIsPositive(-g, d); }
  }

  // The slope is the one of the line of least squares: every other line fits worse.
  lemma SlopeIsLeastSquares(xs: seq<real>, ys: seq<real>, k: real, b: real)
    requires |xs| == |ys| && |xs| >= 2 && Ascending(xs)
    ensures Slope(xs, ys).Some?
    ensures var s := Slope(xs, ys).value; var c := Intercept(xs, ys, s);
            (k == s && b == c) || Squares(xs, ys, s, c) < Squares(xs, ys, k, b)
  {
    DenominatorIsPositive(xs);
    var s := Slope(xs, ys).value;
    ResidualsDoNotLean(xs, ys, s);
    ResidualsAddToNothing(xs, ys, s);
    hide *;
    LineIsWorse(xs, ys, s, Intercept(xs, ys, s), k, b);
  }

  // A line whose residuals are balanced fits better than any other.
  lemma LineIsWorse(xs: seq<real>, ys: seq<real>, s: real, c: real, k: real, b: real)
    requires |xs| == |ys| && |xs| >= 2 && Ascending(xs)
    requires Cross(xs, Tilt(xs, ys, s), Mean(xs), c) == 0.0 && Excess(Tilt(xs, ys, s), c) == 0.0
    ensures (k == s && b == c) || Squares(xs, ys, s, c) < Squares(xs, ys, k, b)
  {
    OtherLine(xs, ys, s, c, Mean(xs), k, b, k - s, b - c + (k - s) * Mean(xs));
  }

  lemma OtherLine(xs: seq<real>, ys: seq<real>, s: real, c: real, a: real, k: real, b: real, g: real, h: real)
    requires |xs| == |ys| && |xs| >= 2 && Ascending(xs)
    requires Cross(xs, Tilt(xs, ys, s), a, c) == 0.0 && Excess(Tilt(xs, ys, s), c) == 0.0
    requires s + g == k && c + h - g * a == b
    ensures (k == s && b == c) || Squares(xs, ys, s, c) < Squares(xs, ys, k, b)
  {
    hide *;
    SquaresSplit(xs, ys, s, c, a, g, h);
    NoProducts(g, h, Cross(xs, Tilt(xs, ys, s), a, c), Excess(Tilt(xs, ys, s), c));
    ApartIsPositive(xs, a, g, h);
    if g != 0.0 || h != 0.0 {
      LinesPart(xs, a, g, h);
    }
  }

  lemma NoProducts(g: real, h: real, x: real, y: real)
    requires x == 0.0 && y == 0.0
    ensures 2.0 * g * x == 0.0 && 2.0 * h * y == 0.0
  {
  }

  // ---------------------------------------------------------------- points

  predicate IsUsable(p: Point) {
    p.n > 0 && p.t > 0.0
  }

  function Usable(points: seq<Point>): seq<Point> {
    if points == [] then []
    else (if IsUsable(points[0]) then [points[0]] else []) + Usable(points[1..])
  }

  function Sizes(points: seq<Point>, log: real -> real): (xs: seq<real>)
    ensures |xs| == |points| && forall i :: 0 <= i < |points| ==> xs[i] == log(points[i].n as real)
  {
    seq(|points|, i requires 0 <= i < |points| => log(points[i].n as real))
  }

  function Times(points: seq<Point>, log: real -> real): (ys: seq<real>)
    ensures |ys| == |points| && forall i :: 0 <= i < |points| ==> ys[i] == log(points[i].t)
  {
    seq(|points|, i requires 0 <= i < |points| => log(points[i].t))
  }

  function FitSlope(points: seq<Point>, log: real -> real): Option<real> {
    var usable := Usable(points);
    if |usable| < 3 then None else Slope(Sizes(usable, log), Times(usable, log))
  }

  ghost predicate Rises(log: real -> real) {
    forall a: real, b: real :: 0.0 < a < b ==> log(a) < log(b)
  }

  ghost predicate SumsProducts(log: real -> real) {
    forall a: real, b: real :: 0.0 < a && 0.0 < b ==> log(Product(a, b)) == log(a) + log(b)
  }

  ghost predicate GrowingSizes(points: seq<Point>) {
    forall i, j :: 0 <= i < j < |points| ==> points[i].n < points[j].n
  }

  lemma {:induction false} UsableKeepsOrder(points: seq<Point>)
    ensures forall p :: p in Usable(points) <==> p in points && p.n > 0 && p.t > 0.0
    ensures GrowingSizes(points) ==> GrowingSizes(Usable(points))
  {
    if points != [] {
      UsableKeepsOrder(points[1..]);
      var rest := Usable(points[1..]);
      assert points == [points[0]] + points[1..];
      if GrowingSizes(points) {
        assert GrowingSizes(points[1..]);
        forall p | p in rest ensures points[0].n < p.n {
          assert p in points[1..];
        }
      }
    }
  }

  lemma SizesAscend(points: seq<Point>, log: real -> real)
    requires Rises(log) && GrowingSizes(points) && forall p :: p in points ==> IsUsable(p)
    ensures Ascending(Sizes(points, log))
  {
    forall i, j | 0 <= i < j < |points| ensures Sizes(points, log)[i] < Sizes(points, log)[j] {
      assert points[i] in points && 0.0 < points[i].n as real < points[j].n as real;
    }
  }

  // Growth of the measured times from one usable size to the next.
  ghost predicate StaysWithin(points: seq<Point>, log: real -> real, k: real) {
    GrowsAtMost(Sizes(Usable(points), log), Times(Usable(points), log), k)
  }

  ghost predicate KeepsAbove(points: seq<Point>, log: real -> real, k: real) {
    GrowsAtLeast(Sizes(Usable(points), log), Times(Usable(points), log), k)
  }

  lemma FitIsBetween(points: seq<Point>, log: real -> real, low: real, high: real)
    requires Rises(log) && GrowingSizes(points) && FitSlope(points, log).Some?
    ensures StaysWithin(points, log, high) ==> FitSlope(points, log).value <= high
    ensures KeepsAbove(points, log, low) ==> FitSlope(points, log).value >= low
  {
    var usable := Usable(points);
    UsableKeepsOrder(points);
    SizesAscend(usable, log);
    if StaysWithin(points, log, high) {
      SlopeAtMost(Sizes(usable, log), Times(usable, log), high);
    }
    if KeepsAbove(points, log, low) {
      SlopeAtLeast(Sizes(usable, log), Times(usable, log), low);
    }
  }

  // At least three usable sizes always give a slope.
  lemma FitExistsIff(points: seq<Point>, log: real -> real)
    requires Rises(log) && GrowingSizes(points)
    ensures FitSlope(points, log).Some? <==> |Usable(points)| >= 3
  {
    var usable := Usable(points);
    if |usable| >= 3 {
      UsableKeepsOrder(points);
      SizesAscend(usable, log);
      DenominatorIsPositive(Sizes(usable, log));
    }
  }

  lemma LineStep(x: real, x': real, y: real, y': real, a: real, k: real)
    requires y == a + k * x && y' == a + k * x'
    ensures y' - y == k * (x' - x)
  {
  }

  lemma LineGrows(usable: seq<Point>, log: real -> real, a: real, k: real)
    requires forall p :: p in usable ==> OnLine(p, log, a, k)
    ensures GrowsAtMost(Sizes(usable, log), Times(usable, log), k)
    ensures GrowsAtLeast(Sizes(usable, log), Times(usable, log), k)
  {
    var xs, ys := Sizes(usable, log), Times(usable, log);
    forall i | 0 < i < |xs| ensures StepAtMost(xs, ys, k, i) && StepAtLeast(xs, ys, k, i) {
      assert OnLine(usable[i], log, a, k) && OnLine(usable[i - 1], log, a, k);
      LineStep(xs[i - 1], xs[i], ys[i - 1], ys[i], a, k);
    }
  }

  // On a power law t = c * n^k, whose logarithm is a line of slope k, the fit is exact.
  lemma PowerLawIsExact(points: seq<Point>, log: real -> real, a: real, k: real)
    requires Rises(log) && GrowingSizes(points) && |Usable(points)| >= 3
    requires forall p :: p in points && IsUsable(p) ==> OnLine(p, log, a, k)
    ensures FitSlope(points, log) == Some(k)
  {
    UsableKeepsOrder(points);
    LineGrows(Usable(points), log, a, k);
    FitExistsIff(points, log);
    FitIsBetween(points, log, k, k);
  }

  ghost predicate OnLine(p: Point, log: real -> real, a: real, k: real) {
    log(p.t) == a + k * log(p.n as real)
  }

  function ScaledPoint(p: Point, c: real): Point {
    Point(p.n, Product(c, p.t))
  }

  function Scaled(points: seq<Point>, c: real): (scaled: seq<Point>)
    ensures |scaled| == |points| && forall i :: 0 <= i < |points| ==> scaled[i] == ScaledPoint(points[i], c)
  {
    seq(|points|, i requires 0 <= i < |points| => ScaledPoint(points[i], c))
  }

  function Raised(ys: seq<real>, d: real): (zs: seq<real>)
    ensures |zs| == |ys| && forall i :: 0 <= i < |ys| ==> zs[i] == ys[i] + d
  {
    seq(|ys|, i requires 0 <= i < |ys| => ys[i] + d)
  }

  lemma {:induction false} SumRaised(ys: seq<real>, d: real)
    ensures Sum(Raised(ys, d)) == Sum(ys) + |ys| as real * d
  {
    if ys != [] {
      SumRaised(ys[1..], d);
      assert Raised(ys, d)[1..] == Raised(ys[1..], d);
    }
  }

  lemma TermRaised(x: real, y: real, a: real, b: real, d: real)
    ensures Term(x, y + d, a, b + d) == Term(x, y, a, b)
  {
  }

  lemma {:induction false} CrossRaised(xs: seq<real>, ys: seq<real>, a: real, b: real, d: real)
    requires |xs| == |ys|
    ensures Cross(xs, Raised(ys, d), a, b + d) == Cross(xs, ys, a, b)
  {
    hide Term;
    if xs != [] {
      CrossRaised(xs[1..], ys[1..], a, b, d);
      TermRaised(xs[0], ys[0], a, b, d);
      assert Raised(ys, d)[1..] == Raised(ys[1..], d);
    }
  }

  lemma SlopeRaised(xs: seq<real>, ys: seq<real>, d: real)
    requires |xs| == |ys| && xs != []
    ensures Slope(xs, Raised(ys, d)) == Slope(xs, ys)
  {
    SumRaised(ys, d);
    assert Mean(Raised(ys, d)) == Mean(ys) + d;
    CrossRaised(xs, ys, Mean(xs), Mean(ys), d);
  }

  lemma ScaledIsUsable(p: Point, c: real)
    requires c > 0.0
    ensures IsUsable(ScaledPoint(p, c)) <==> IsUsable(p)
  {
    if p.t > 0.0 {
      assert c * p.t > 0.0;
    } else {
      assert c * -p.t >= 0.0;
    }
  }

  lemma {:induction false} UsableScaled(points: seq<Point>, c: real)
    requires c > 0.0
    ensures Usable(Scaled(points, c)) == Scaled(Usable(points), c)
  {
    if points != [] {
      UsableScaled(points[1..], c);
      ScaledIsUsable(points[0], c);
      assert Scaled(points, c)[1..] == Scaled(points[1..], c);
    }
  }

  lemma LogsScaled(usable: seq<Point>, log: real -> real, c: real)
    requires SumsProducts(log) && c > 0.0 && forall p :: p in usable ==> IsUsable(p)
    ensures Sizes(Scaled(usable, c), log) == Sizes(usable, log)
    ensures Times(Scaled(usable, c), log) == Raised(Times(usable, log), log(c))
  {
    var scaled := Scaled(usable, c);
    forall i | 0 <= i < |usable| ensures Times(scaled, log)[i] == Times(usable, log)[i] + log(c) {
      assert usable[i] in usable;
      assert scaled[i] == ScaledPoint(usable[i], c);
      assert log(Product(c, usable[i].t)) == log(c) + log(usable[i].t);
    }
  }

  // A machine that is slower by a constant factor measures the same growth.
  lemma ScalingLeavesSlope(points: seq<Point>, log: real -> real, c: real)
    requires SumsProducts(log) && c > 0.0
    ensures FitSlope(Scaled(points, c), log) == FitSlope(points, log)
  {
    hide Slope;
    var usable := Usable(points);
    UsableScaled(points, c);
    UsableKeepsOrder(points);
    if |usable| >= 3 {
      LogsScaled(usable, log, c);
      SlopeRaised(Sizes(usable, log), Times(usable, log), log(c));
    }
  }

  // ---------------------------------------------------------------- the verdict

  function Largest(points: seq<Point>): real {
    if points == [] then 0.0 else Max(points[0].t, if |points| == 1 then points[0].t else Largest(points[1..]))
  }

  function Judge(points: seq<Point>, band: Option<Class>, truncated: bool, log: real -> real): (Verdict, Option<real>) {
    if band.None? then (Inconclusive, None)
    else if truncated && points != [] then (SlowerThanTarget, if |points| >= 3 then FitSlope(points, log) else None)
    else if points != [] && points[0].t > ABSURD_FIRST_SIZE_SECONDS then (SlowerThanTarget, None)
    else if |points| < 3 then (Inconclusive, None)
    else if Largest(points) < MIN_SIGNIFICANT_SECONDS then (Inconclusive, None)
    else
      var slope := FitSlope(points, log);
      if slope.None? then (Inconclusive, None)
      else if slope.value <= Ceiling(band.value) then (Matches, slope)
      else if slope.value >= Ceiling(band.value) + MARGIN then (SlowerThanTarget, slope)
      else (Inconclusive, slope)
  }

  // A sweep that is not cut short, whose every step stays within the band's ceiling and whose
  // first size takes a second at most, is never called slower than its target.
  lemma WithinCeilingIsNeverSlower(points: seq<Point>, target: Class, log: real -> real)
    requires Rises(log) && GrowingSizes(points) && StaysWithin(points, log, Ceiling(target))
    requires points != [] ==> points[0].t <= ABSURD_FIRST_SIZE_SECONDS
    ensures Judge(points, Some(target), false, log).0 != SlowerThanTarget
  {
    if FitSlope(points, log).Some? {
      FitIsBetween(points, log, 0.0, Ceiling(target));
    }
  }

  // One whose every step clears the ceiling by the margin always is, if it can be judged.
  lemma PastMarginIsSlower(points: seq<Point>, target: Class, log: real -> real)
    requires Rises(log) && GrowingSizes(points) && KeepsAbove(points, log, Ceiling(target) + MARGIN)
    requires |Usable(points)| >= 3 && |points| >= 3 && Largest(points) >= MIN_SIGNIFICANT_SECONDS
    ensures Judge(points, Some(target), false, log).0 == SlowerThanTarget
  {
    FitExistsIff(points, log);
    FitIsBetween(points, log, Ceiling(target) + MARGIN, 0.0);
  }

  // The exponent up to which a band's verdict is a match.
  ghost predicate CeilingIs(target: Class, ceiling: real) {
    match target
    case Constant => ceiling == 0.5
    case Log => ceiling == 0.5
    case Linear => ceiling == 1.3
    case Linearithmic => ceiling == 1.75
    case Quadratic => ceiling == 2.6
    case Cubic => ceiling == 3.6
  }

  lemma {:induction false} LargestIsReached(points: seq<Point>, least: real)
    requires least > 0.0
    ensures Largest(points) >= least <==> exists p :: p in points && p.t >= least
  {
    if points != [] {
      assert points == [points[0]] + points[1..];
      if |points| > 1 {
        LargestIsReached(points[1..], least);
      }
    }
  }

  // There is something to fit: three sizes, and one that takes a fifth of a millisecond.
  ghost predicate Significant(points: seq<Point>) {
    |points| >= 3 && exists p :: p in points && p.t >= 0.0002
  }

  // A sweep is slower than its band when it was cut short, when its first size takes over a
  // second, or when its exponent is 0.35 past the ceiling; it matches when it is none of these
  // and its exponent is within the ceiling; of anything else the probe does not know.
  lemma VerdictIsFor(points: seq<Point>, target: Class, truncated: bool, log: real -> real, ceiling: real)
    requires CeilingIs(target, ceiling)
    ensures var (verdict, slope) := Judge(points, Some(target), truncated, log);
            var fit := FitSlope(points, log);
            var known := Significant(points) && fit.Some?;
            var cut := truncated && points != [];
            var absurd := !cut && points != [] && points[0].t > 1.0;
            && (verdict == SlowerThanTarget <==> cut || absurd || (known && fit.value >= ceiling + 0.35))
            && (verdict == Matches <==> !cut && !absurd && known && fit.value <= ceiling)
            && slope == (if cut && |points| >= 3 then fit else if !cut && !absurd && known then fit else None)
    ensures Judge(points, None, truncated, log) == (Inconclusive, None)
  {
    LargestIsReached(points, 0.0002);
  }

  // A program whose time is a power of its size is told by its exponent: it matches up to the
  // ceiling of its band, and is slower from 0.35 past it.
  lemma PowerLawIsJudged(points: seq<Point>, target: Class, log: real -> real, a: real, k: real, ceiling: real)
    requires Rises(log) && GrowingSizes(points) && CeilingIs(target, ceiling)
    requires forall p :: p in points ==> p.n > 0 && p.t > 0.0 && OnLine(p, log, a, k)
    requires Significant(points) && points[0].t <= 1.0
    ensures var (verdict, slope) := Judge(points, Some(target), false, log);
            && slope == Some(k) && (verdict == Matches <==> k <= ceiling)
            && (verdict == SlowerThanTarget <==> k >= ceiling + 0.35)
  {
    AllAreUsable(points);
    PowerLawIsExact(points, log, a, k);
    VerdictIsFor(points, target, false, log, ceiling);
  }

  lemma {:induction false} AllAreUsable(points: seq<Point>)
    requires forall p :: p in points ==> p.n > 0 && p.t > 0.0
    ensures Usable(points) == points
  {
    if points != [] {
      assert points == [points[0]] + points[1..];
      AllAreUsable(points[1..]);
    }
  }
}
