/**
  Sampling a loss from a damage distribution: the choice of the bin, the inversion of the
  distribution inside it, and the split of losses that exceed the insured value.

  Inside a bin the probability up to a damage t above the bin's start is a quadratic in t
  that vanishes at the start, has the bin's probability at the end, and gives the bin its
  mean. sqrt is a non-negative number whose square is the argument.
*/
module GulSampling {
  import opened RealSums

  /** A bin of the damage bin dictionary. */
  datatype Bin = Bin(bin_from: real, bin_to: real)

  /** What a sample knows of the bin it fell into. */
  datatype Sample = Sample(tiv: real, prob_from: real, prob_to: real, bin_mean: real, rval: real)

  /** A probability and mean of a damage distribution record. */
  datatype ProbMean = ProbMean(prob_to: real, bin_mean: real)

  // ---------- the quadratic ----------

  /** The position of the mean in the bin, as a fraction of the width. */
  function MeanFraction(b: Bin, g: Sample): real
    requires b.bin_from != b.bin_to
  {
    (g.bin_mean - b.bin_from) / (b.bin_to - b.bin_from)
  }

  function Curvature(h: real, w: real, x: real): real
    requires w != 0.0
  {
    (3.0 * h / (w * w)) * ((2.0 * x) - 1.0)
  }

  function Slope(h: real, w: real, x: real): real
    requires w != 0.0
  {
    (2.0 * h / w) * (2.0 - (3.0 * x))
  }

  function Cdf(aa: real, bb: real, t: real): real { aa * t * t + bb * t }

  function Density(aa: real, bb: real, t: real): real { 2.0 * aa * t + bb }

  function Discriminant(aa: real, bb: real, p: real): real { bb * bb + 4.0 * aa * p }

  /** Over the whole bin the quadratic gives the probability of the bin. */
  lemma CdfAtEnd(h: real, w: real, x: real)
    requires w > 0.0
    ensures Cdf(Curvature(h, w, x), Slope(h, w, x), w) == h
  {
    CurvatureTimes(h, w, x);
    SlopeTimes(h, w, x);
  }

  lemma CurvatureTimes(h: real, w: real, x: real)
    requires w > 0.0
    ensures Curvature(h, w, x) * w * w == 3.0 * h * (2.0 * x - 1.0)
  {
    var q := 3.0 * h / (w * w);
    assert w * w > 0.0;
    assert q * (w * w) == 3.0 * h;
    Rearrange(q, 2.0 * x - 1.0, w * w, 3.0 * h);
    assert Curvature(h, w, x) * w * w == Curvature(h, w, x) * (w * w);
  }

  lemma SlopeTimes(h: real, w: real, x: real)
    requires w > 0.0
    ensures Slope(h, w, x) * w == 2.0 * h * (2.0 - 3.0 * x)
  {
    var q := 2.0 * h / w;
    assert q * w == 2.0 * h;
    Rearrange(q, 2.0 - 3.0 * x, w, 2.0 * h);
  }

  lemma Rearrange(q: real, f: real, v: real, r: real)
    requires q * v == r
    ensures (q * f) * v == r * f
  {
    assert (q * f) * v == (q * v) * f;
  }

  /** The density at the two ends: the quadratic is a distribution exactly for means in the middle third. */
  lemma DensityAtEnds(h: real, w: real, x: real)
    requires h > 0.0 && w > 0.0
    ensures Density(Curvature(h, w, x), Slope(h, w, x), 0.0) >= 0.0 <==> x <= 2.0 / 3.0
    ensures Density(Curvature(h, w, x), Slope(h, w, x), w) >= 0.0 <==> x >= 1.0 / 3.0
  {
    var aa, bb := Curvature(h, w, x), Slope(h, w, x);
    SlopeTimes(h, w, x);
    CurvatureTimes(h, w, x);
    SameSign(bb, w, 2.0 * h * (2.0 - 3.0 * x));
    SameSign(2.0 - 3.0 * x, 2.0 * h, 2.0 * h * (2.0 - 3.0 * x));
    EndDensity(aa, bb, w, h, x);
    SameSign(Density(aa, bb, w), w, 2.0 * h * (3.0 * x - 1.0));
    SameSign(3.0 * x - 1.0, 2.0 * h, 2.0 * h * (3.0 * x - 1.0));
  }

  lemma EndDensity(aa: real, bb: real, w: real, h: real, x: real)
    requires aa * w * w == 3.0 * h * (2.0 * x - 1.0) && bb * w == 2.0 * h * (2.0 - 3.0 * x)
    ensures Density(aa, bb, w) * w == 2.0 * h * (3.0 * x - 1.0)
  {
    assert Density(aa, bb, w) * w == 2.0 * (aa * w * w) + bb * w;
  }

  lemma SameSign(a: real, b: real, product: real)
    requires b > 0.0 && a * b == product
    ensures (a >= 0.0 <==> product >= 0.0) && (a > 0.0 <==> product > 0.0)
  {}

  /** A density that is not negative at the ends is not negative between them. */
  lemma DensityBetween(aa: real, bb: real, w: real, t: real)
    requires 0.0 <= t <= w && w > 0.0 && Density(aa, bb, 0.0) >= 0.0 && Density(aa, bb, w) >= 0.0
    ensures Density(aa, bb, t) >= 0.0
  {
    var d0, d1 := Density(aa, bb, 0.0), Density(aa, bb, w);
    assert d0 * (w - t) >= 0.0 && d1 * t >= 0.0;
    assert Density(aa, bb, t) * w == d0 * (w - t) + d1 * t;
    SameSign(Density(aa, bb, t), w, d0 * (w - t) + d1 * t);
  }

  /** The first moment of the density over the bin is the bin's probability times its mean. */
  lemma MeanIsKept(h: real, w: real, x: real)
    requires w > 0.0
    ensures var aa, bb := Curvature(h, w, x), Slope(h, w, x);
            (2.0 * aa * w * w * w) / 3.0 + (bb * w * w) / 2.0 == h * (x * w)
  {
    var aa, bb := Curvature(h, w, x), Slope(h, w, x);
    CurvatureTimes(h, w, x);
    SlopeTimes(h, w, x);
    assert aa * w * w * w == (3.0 * h * (2.0 * x - 1.0)) * w;
    assert bb * w * w == (2.0 * h * (2.0 - 3.0 * x)) * w;
  }

  // ---------- the root ----------

  lemma SquareOrder(s: real, e: real)
    requires s >= 0.0
    ensures e >= 0.0 && s * s <= e * e ==> s <= e
    ensures s * s >= e * e ==> s >= e
  {
    if 0.0 <= e < s { SquareLess(e, s); }
    if s < e { SquareLess(s, e); }
  }

  lemma SquareLess(a: real, b: real)
    requires 0.0 <= a < b
    ensures a * a < b * b
  {
    var d := b - a;
    assert d * d > 0.0 && a * d >= 0.0;
    assert b * b == a * a + 2.0 * (a * d) + d * d;
  }

  /** The discriminant lies between the squares of the densities at the ends. */
  lemma DiscriminantBetween(aa: real, bb: real, w: real, h: real, p: real)
    requires h > 0.0 && 0.0 <= p <= h && Cdf(aa, bb, w) == h
    ensures var d0, d1, d := bb * bb, Density(aa, bb, w) * Density(aa, bb, w), Discriminant(aa, bb, p);
            d >= 0.0 && (aa >= 0.0 ==> d0 <= d <= d1) && (aa <= 0.0 ==> d1 <= d <= d0)
  {
    var d0, d1, d := bb * bb, Density(aa, bb, w) * Density(aa, bb, w), Discriminant(aa, bb, p);
    EndDiscriminant(aa, bb, w, h);
    assert d0 >= 0.0 && d1 >= 0.0;
    MonotoneInP(aa, bb, 0.0, p);
    MonotoneInP(aa, bb, p, h);
    assert Discriminant(aa, bb, 0.0) == d0;
  }

  lemma EndDiscriminant(aa: real, bb: real, w: real, h: real)
    requires Cdf(aa, bb, w) == h
    ensures Discriminant(aa, bb, h) == Density(aa, bb, w) * Density(aa, bb, w)
  {
    var e := Density(aa, bb, w);
    assert e * e == 4.0 * aa * (aa * w * w + bb * w) + bb * bb;
  }

  lemma MonotoneInP(aa: real, bb: real, p: real, q: real)
    requires p <= q
    ensures aa >= 0.0 ==> Discriminant(aa, bb, p) <= Discriminant(aa, bb, q)
    ensures aa <= 0.0 ==> Discriminant(aa, bb, p) >= Discriminant(aa, bb, q)
  {
    var d := q - p;
    assert Discriminant(aa, bb, q) - Discriminant(aa, bb, p) == 4.0 * (aa * d);
    assert aa >= 0.0 ==> aa * d >= 0.0;
    assert aa <= 0.0 ==> aa * d <= 0.0;
  }

  /** The chosen root, with its density: the square root itself. */
  function Root(aa: real, bb: real, s: real): real
    requires aa != 0.0
  {
    (s - bb) / (2.0 * aa)
  }

  lemma RootDensity(aa: real, bb: real, s: real)
    requires aa != 0.0
    ensures Density(aa, bb, Root(aa, bb, s)) == s
  {
    var t := Root(aa, bb, s);
    assert t * (2.0 * aa) == s - bb;
  }

  lemma RootSolves(aa: real, bb: real, s: real, p: real)
    requires aa != 0.0 && s * s == Discriminant(aa, bb, p)
    ensures Cdf(aa, bb, Root(aa, bb, s)) == p
  {
    var t := Root(aa, bb, s);
    RootDensity(aa, bb, s);
    SquareOfDensity(aa, bb, t);
    Cancel(aa, Cdf(aa, bb, t), p);
  }

  lemma SquareOfDensity(aa: real, bb: real, t: real)
    ensures Density(aa, bb, t) * Density(aa, bb, t) == bb * bb + 4.0 * aa * Cdf(aa, bb, t)
  {
    var u := 2.0 * aa * t;
    assert (u + bb) * (u + bb) == u * u + 2.0 * u * bb + bb * bb;
    assert u * u == 4.0 * aa * (aa * t * t);
    assert 2.0 * u * bb == 4.0 * aa * (bb * t);
  }

  lemma Cancel(aa: real, c: real, p: real)
    requires aa != 0.0 && 4.0 * aa * c == 4.0 * aa * p
    ensures c == p
  {
    assert aa * (c - p) == 0.0;
  }

  /** The root lies in the bin, wherever the mean is. */
  lemma RootInBin(aa: real, bb: real, w: real, h: real, p: real, s: real)
    requires aa != 0.0 && w > 0.0 && h > 0.0 && 0.0 <= p <= h && Cdf(aa, bb, w) == h
    requires s >= 0.0 && s * s == Discriminant(aa, bb, p)
    requires aa > 0.0 ==> Density(aa, bb, w) >= 0.0
    requires aa < 0.0 ==> bb >= 0.0
    ensures 0.0 <= Root(aa, bb, s) <= w
  {
    DiscriminantBetween(aa, bb, w, h, p);
    RootDensity(aa, bb, s);
    RootBetween(aa, bb, w, s, Density(aa, bb, w), Root(aa, bb, s));
  }

  lemma RootBetween(aa: real, bb: real, w: real, s: real, e: real, t: real)
    requires aa != 0.0 && s >= 0.0 && e == Density(aa, bb, w) && s == Density(aa, bb, t)
    requires aa > 0.0 ==> e >= 0.0 && bb * bb <= s * s <= e * e
    requires aa < 0.0 ==> bb >= 0.0 && e * e <= s * s <= bb * bb
    ensures 0.0 <= t <= w
  {
    SquareOrder(s, bb);
    SquareOrder(s, e);
    Quotient(aa, t, s - bb);
    DensityDifference(aa, bb, t, w);
    Quotient(aa, w - t, e - s);
  }

  lemma DensityDifference(aa: real, bb: real, t: real, w: real)
    ensures 2.0 * aa * (w - t) == Density(aa, bb, w) - Density(aa, bb, t)
  {}

  lemma Quotient(aa: real, t: real, d: real)
    requires aa != 0.0 && 2.0 * aa * t == d && (if aa > 0.0 then d >= 0.0 else d <= 0.0)
    ensures t >= 0.0
  {
    if t < 0.0 { assert if aa > 0.0 then aa * t < 0.0 else aa * t > 0.0; }
  }

  /** A larger random number never gives a smaller damage. */
  lemma RootMonotone(aa: real, bb: real, p: real, q: real, s: real, r: real)
    requires aa != 0.0 && p <= q && s >= 0.0 && r >= 0.0
    requires s * s == Discriminant(aa, bb, p) && r * r == Discriminant(aa, bb, q)
    ensures Root(aa, bb, s) <= Root(aa, bb, r)
  {
    MonotoneInP(aa, bb, p, q);
    SquareOrder(s, r);
    SquareOrder(r, s);
    RootDensity(aa, bb, s);
    RootDensity(aa, bb, r);
    Quotient(aa, Root(aa, bb, r) - Root(aa, bb, s), r - s);
  }

  // ---------- getgul ----------

  /** round() and the conversion to int: halves go away from zero. */
  function Round(v: real): int { if v >= 0.0 then (v + 0.5).Floor else -((-v + 0.5).Floor) }

  predicate MeanInMiddle(x: real) { Round(x * 100000.0) == 50000 }

  lemma MiddleMeans(x: real)
    ensures MeanInMiddle(x) <==> 49999.5 <= x * 100000.0 < 50000.5
  {}

  /** The bin is known to be the one the random number falls into. */
  predicate Hit(g: Sample) { g.prob_from <= g.rval < g.prob_to }

  function AaOf(b: Bin, g: Sample): real
    requires b.bin_from != b.bin_to
  {
    Curvature(g.prob_to - g.prob_from, b.bin_to - b.bin_from, MeanFraction(b, g))
  }

  function BbOf(b: Bin, g: Sample): real
    requires b.bin_from != b.bin_to
  {
    Slope(g.prob_to - g.prob_from, b.bin_to - b.bin_from, MeanFraction(b, g))
  }

  lemma CurvatureIsNotZero(h: real, w: real, x: real)
    requires h > 0.0 && w > 0.0
    ensures Curvature(h, w, x) > 0.0 <==> x > 0.5
    ensures Curvature(h, w, x) < 0.0 <==> x < 0.5
  {
    var aa, v := Curvature(h, w, x), w * w;
    CurvatureTimes(h, w, x);
    assert v > 0.0 && aa * v == aa * w * w;
    SameSign(aa, v, 3.0 * h * (2.0 * x - 1.0));
    SameSign(-aa, v, -(3.0 * h * (2.0 * x - 1.0)));
    SameSign(2.0 * x - 1.0, 3.0 * h, 3.0 * h * (2.0 * x - 1.0));
    SameSign(1.0 - 2.0 * x, 3.0 * h, -(3.0 * h * (2.0 * x - 1.0)));
  }

  /** The square root that getgul takes is always of a non-negative number. */
  lemma SqrtIsDefined(b: Bin, g: Sample)
    requires b.bin_from < b.bin_to && Hit(g)
    ensures Discriminant(AaOf(b, g), BbOf(b, g), g.rval - g.prob_from) >= 0.0
  {
    var h, w, x := g.prob_to - g.prob_from, b.bin_to - b.bin_from, MeanFraction(b, g);
    CdfAtEnd(h, w, x);
    DiscriminantBetween(AaOf(b, g), BbOf(b, g), w, h, g.rval - g.prob_from);
  }

  lemma InBin(b: Bin, g: Sample, s: real)
    requires b.bin_from < b.bin_to && Hit(g) && MeanFraction(b, g) != 0.5
    requires s >= 0.0 && s * s == Discriminant(AaOf(b, g), BbOf(b, g), g.rval - g.prob_from)
    ensures AaOf(b, g) != 0.0 && 0.0 <= Root(AaOf(b, g), BbOf(b, g), s) <= b.bin_to - b.bin_from
    ensures Cdf(AaOf(b, g), BbOf(b, g), Root(AaOf(b, g), BbOf(b, g), s)) == g.rval - g.prob_from
  {
    var h, w, x := g.prob_to - g.prob_from, b.bin_to - b.bin_from, MeanFraction(b, g);
    CurvatureIsNotZero(h, w, x);
    CdfAtEnd(h, w, x);
    DensityAtEnds(h, w, x);
    AtStart(AaOf(b, g), BbOf(b, g));
    RootInBin(AaOf(b, g), BbOf(b, g), w, h, g.rval - g.prob_from, s);
    RootSolves(AaOf(b, g), BbOf(b, g), s, g.rval - g.prob_from);
  }

  lemma AtStart(aa: real, bb: real)
    ensures Density(aa, bb, 0.0) == bb
  {}

  lemma LinearInBin(u: real, w: real)
    requires 0.0 <= u <= 1.0 && w >= 0.0
    ensures 0.0 <= u * w <= w
  {}

  /** How far the linear branch is from solving the quadratic: not at all when the mean is exactly in the middle. */
  lemma LinearResidual(h: real, w: real, x: real, u: real)
    requires w > 0.0
    ensures Cdf(Curvature(h, w, x), Slope(h, w, x), u * w) - u * h == 3.0 * h * (2.0 * x - 1.0) * (u * (u - 1.0))
  {
    var aa, bb := Curvature(h, w, x), Slope(h, w, x);
    CurvatureTimes(h, w, x);
    SlopeTimes(h, w, x);
    var k := 3.0 * h * (2.0 * x - 1.0);
    assert aa * (u * w) * (u * w) == (aa * w * w) * (u * u) == k * (u * u);
    assert bb * (u * w) == (bb * w) * u == (2.0 * h * (2.0 - 3.0 * x)) * u;
    assert 2.0 * h * (2.0 - 3.0 * x) - h == -k;
    assert (2.0 * h * (2.0 - 3.0 * x)) * u - h * u == -k * u;
  }

  /** A square root function. */
  ghost predicate IsSqrt(sqrt: real -> real) {
    forall v :: v >= 0.0 ==> sqrt(v) >= 0.0 && sqrt(v) * sqrt(v) == v
  }

  /** Over width w the quadratic reaches h, and its density has first moment h times d. */
  ghost predicate Moments(w: real, h: real, d: real, aa: real, bb: real) {
    && aa * w * w + bb * w == h
    && (2.0 * aa * w * w * w) / 3.0 + (bb * w * w) / 2.0 == h * d
  }

  /** The quadratic gives the bin its probability, and its density gives the bin its mean. */
  ghost predicate HasMoments(b: Bin, g: Sample, aa: real, bb: real) {
    Moments(b.bin_to - b.bin_from, g.prob_to - g.prob_from, g.bin_mean - b.bin_from, aa, bb)
  }

  /** The mean of the bin is within half of a hundred-thousandth of the width from the midpoint. */
  predicate NearMidpoint(b: Bin, g: Sample) {
    var w := b.bin_to - b.bin_from;
    49999.5 * w <= (g.bin_mean - b.bin_from) * 100000.0 < 50000.5 * w
  }

  /** The quadratic that is inverted has the probability and the mean of the bin. */
  lemma SampleMoments(b: Bin, g: Sample)
    requires b.bin_from < b.bin_to
    ensures HasMoments(b, g, AaOf(b, g), BbOf(b, g))
  {
    var h, w, x := g.prob_to - g.prob_from, b.bin_to - b.bin_from, MeanFraction(b, g);
    CdfAtEnd(h, w, x);
    MeanIsKept(h, w, x);
    assert x * w == g.bin_mean - b.bin_from;
  }

  /** No other quadratic has. */
  lemma MomentsDetermine(b: Bin, g: Sample, aa: real, bb: real)
    requires b.bin_from < b.bin_to && HasMoments(b, g, aa, bb)
    ensures aa == AaOf(b, g) && bb == BbOf(b, g)
  {
    SampleMoments(b, g);
    SameMoments(b.bin_to - b.bin_from, g.prob_to - g.prob_from, g.bin_mean - b.bin_from, aa, bb, AaOf(b, g),
                BbOf(b, g));
  }

  lemma SameMoments(w: real, h: real, d: real, a: real, b: real, a1: real, b1: real)
    requires w > 0.0 && Moments(w, h, d, a, b) && Moments(w, h, d, a1, b1)
    ensures a == a1 && b == b1
  {
    var u, e := (a - a1) * w, b - b1;
    assert w * (u + e) == 0.0;
    assert (w * w) * (4.0 * u + 3.0 * e) == 0.0 && w * w > 0.0;
    assert u + e == 0.0 && 4.0 * u + 3.0 * e == 0.0;
    assert (a - a1) * w == 0.0;
  }

  /** The linear branch is taken for means near the midpoint. */
  lemma MiddleIsNear(b: Bin, g: Sample)
    requires b.bin_from < b.bin_to
    ensures MeanInMiddle(MeanFraction(b, g)) <==> NearMidpoint(b, g)
  {
    var x, w, d := MeanFraction(b, g), b.bin_to - b.bin_from, g.bin_mean - b.bin_from;
    MiddleMeans(x);
    assert x * w == d;
    Scaled(x, w, d, x * 100000.0);
    ScaledBounds(x * 100000.0, w, d * 100000.0);
  }

  lemma ScaledBounds(y: real, w: real, e: real)
    requires w > 0.0 && y * w == e
    ensures 49999.5 <= y < 50000.5 <==> 49999.5 * w <= e < 50000.5 * w
  {
    TimesOrder(49999.5, y, w);
    TimesOrder(50000.5, y, w);
  }

  lemma Scaled(x: real, w: real, d: real, y: real)
    requires x * w == d && y == x * 100000.0
    ensures y * w == d * 100000.0
  {}

  lemma TimesOrder(a: real, b: real, w: real)
    requires w > 0.0
    ensures a <= b <==> a * w <= b * w
  {
    SameSign(b - a, w, (b - a) * w);
  }

  /**
    What getgul promises of the damage it finds: it inverts the quadratic with the bin's
    probability and mean, or, with the mean near the midpoint, the straight line.
  */
  ghost predicate Inverts(b: Bin, g: Sample, damage: real)
    requires b.bin_from <= b.bin_to && Hit(g)
  {
    var t, p := damage - b.bin_from, g.rval - g.prob_from;
    && b.bin_from <= damage <= b.bin_to
    && (b.bin_from < b.bin_to && NearMidpoint(b, g) ==>
          t * (g.prob_to - g.prob_from) == p * (b.bin_to - b.bin_from))
    && (b.bin_from < b.bin_to && !NearMidpoint(b, g) ==>
          exists aa, bb :: HasMoments(b, g, aa, bb) && aa * t * t + bb * t == p)
  }

  /**
    getgul: the damage lies in the bin and solves the quadratic, or is linear in the random
    number where the mean is in the middle.
  */
  method GetGul(b: Bin, g: Sample, sqrt: real -> real) returns (gul: real, damage: real)
    requires b.bin_from <= b.bin_to && Hit(g) && IsSqrt(sqrt)
    ensures Inverts(b, g, damage) && gul == Times(damage, g.tiv)
  {
    if b.bin_from == b.bin_to {
      damage := b.bin_to;
      gul := Times(damage, g.tiv);
      return;
    }
    var x := MeanFraction(b, g);
    var z := Round(x * 100000.0);
    MiddleIsNear(b, g);
    if z == 50000 {
      damage := LinearDamage(b, g);
    } else {
      damage := QuadraticDamage(b, g, sqrt);
      SampleMoments(b, g);
    }
    gul := Times(damage, g.tiv);
  }

  method LinearDamage(b: Bin, g: Sample) returns (damage: real)
    requires b.bin_from < b.bin_to && Hit(g)
    ensures b.bin_from <= damage <= b.bin_to
    ensures (damage - b.bin_from) * (g.prob_to - g.prob_from) == (g.rval - g.prob_from) * (b.bin_to - b.bin_from)
  {
    var u, w, h := Fraction(g), b.bin_to - b.bin_from, g.prob_to - g.prob_from;
    FractionBounds(g);
    LinearInBin(u, w);
    damage := b.bin_from + u * w;
    assert u * h == g.rval - g.prob_from;
    assert (u * w) * h == (u * h) * w;
  }

  method QuadraticDamage(b: Bin, g: Sample, sqrt: real -> real) returns (damage: real)
    requires b.bin_from < b.bin_to && Hit(g) && IsSqrt(sqrt) && !MeanInMiddle(MeanFraction(b, g))
    ensures b.bin_from <= damage <= b.bin_to
    ensures Cdf(AaOf(b, g), BbOf(b, g), damage - b.bin_from) == g.rval - g.prob_from
  {
    var x := MeanFraction(b, g);
    var bin_width := b.bin_to - b.bin_from;
    var bin_height := g.prob_to - g.prob_from;
    var aa, bb := Curvature(bin_height, bin_width, x), Slope(bin_height, bin_width, x);
    SqrtIsDefined(b, g);
    NotInMiddle(x);
    var s := sqrt(Discriminant(aa, bb, g.rval - g.prob_from));
    InBin(b, g, s);
    damage := b.bin_from + Root(aa, bb, s);
  }

  lemma NotInMiddle(x: real)
    requires !MeanInMiddle(x)
    ensures x != 0.5
  {}

  function Fraction(g: Sample): real
    requires g.prob_from != g.prob_to
  {
    (g.rval - g.prob_from) / (g.prob_to - g.prob_from)
  }

  lemma FractionBounds(g: Sample)
    requires Hit(g)
    ensures 0.0 <= Fraction(g) <= 1.0
  {
    var f, h := Fraction(g), g.prob_to - g.prob_from;
    assert f * h == g.rval - g.prob_from;
    SameSign(f, h, g.rval - g.prob_from);
    assert (1.0 - f) * h == g.prob_to - g.rval;
    SameSign(1.0 - f, h, g.prob_to - g.rval);
  }

  // ---------- the sampling loop ----------

  const JUST_UNDER: real := 0.00000003

  /** A random number beyond the last bin is moved just below its end. */
  ghost predicate UsedFor(probs: seq<ProbMean>, draw: real, rval: real)
    requires probs != []
  {
    var last := probs[|probs| - 1].prob_to;
    (draw < last && rval == draw) || (draw >= last && rval == last - 0.00000003)
  }

  function ProbFrom(probs: seq<ProbMean>, k: nat): real
    requires k <= |probs|
  {
    if k == 0 then 0.0 else probs[k - 1].prob_to
  }

  /** The loop over the bins always stops at one that holds the random number. */
  method SelectBin(probs: seq<ProbMean>, rval: real) returns (bin_index: nat, prob_from: real)
    requires probs != [] && 0.0 <= rval < probs[|probs| - 1].prob_to
    ensures bin_index < |probs| && prob_from == ProbFrom(probs, bin_index)
    ensures prob_from <= rval < probs[bin_index].prob_to
    ensures forall k :: 0 <= k < bin_index ==> probs[k].prob_to <= rval
  {
    var last_prob_to := 0.0;
    bin_index := 0;
    while bin_index < |probs|
      invariant bin_index <= |probs| && last_prob_to == ProbFrom(probs, bin_index) <= rval
      invariant forall k :: 0 <= k < bin_index ==> probs[k].prob_to <= rval
    {
      prob_from := last_prob_to;
      last_prob_to := probs[bin_index].prob_to;
      if rval < probs[bin_index].prob_to { return; }
      bin_index := bin_index + 1;
    }
    assert false;
  }

  /** The loss of a draw: the damage that inverts the distribution in the bin the draw hits. */
  ghost predicate SampledFrom(bins: seq<Bin>, probs: seq<ProbMean>, tiv: real, draw: real, loss: real)
    requires probs != [] && |probs| <= |bins| && forall k :: 0 <= k < |bins| ==> bins[k].bin_from <= bins[k].bin_to
  {
    exists k: nat, rval: real, damage: real :: k < |probs| && UsedFor(probs, draw, rval)
                                               && InvertsBin(bins[k], probs, tiv, rval, k, damage)
                                               && loss == damage * tiv
  }

  ghost predicate InvertsBin(b: Bin, probs: seq<ProbMean>, tiv: real, rval: real, k: nat, damage: real)
    requires k < |probs| && b.bin_from <= b.bin_to
  {
    var prob_from := if k == 0 then 0.0 else probs[k - 1].prob_to;
    var g := Sample(tiv, prob_from, probs[k].prob_to, probs[k].bin_mean, rval);
    Hit(g) && Inverts(b, g, damage)
  }

  /** The samples that reach the loss threshold, numbered from 1. */
  function Written(losses: seq<real>, threshold: real): seq<(int, real)> {
    if losses == [] then []
    else
      var n := |losses| - 1;
      Written(losses[..n], threshold) + if losses[n] >= threshold then [(n + 1, losses[n])] else []
  }

  /** Sample i is written under number i, in order, if it reaches the threshold. */
  lemma {:induction false} WrittenNumbers(losses: seq<real>, threshold: real)
    ensures forall r: (int, real) :: r in Written(losses, threshold) <==>
              1 <= r.0 <= |losses| && r.1 == losses[r.0 - 1] >= threshold
    ensures forall a, b :: 0 <= a < b < |Written(losses, threshold)| ==>
              Written(losses, threshold)[a].0 < Written(losses, threshold)[b].0
  {
    if losses != [] {
      var n := |losses| - 1;
      var before := Written(losses[..n], threshold);
      WrittenNumbers(losses[..n], threshold);
      forall a | 0 <= a < |before| ensures before[a].0 <= n { assert before[a] in before; }
    }
  }

  method SampleItem(bins: seq<Bin>, probs: seq<ProbMean>, tiv: real, draws: seq<real>, threshold: real,
                    sqrt: real -> real)
      returns (out: seq<(int, real)>, losses: seq<real>)
    requires probs != [] && |probs| <= |bins| && IsSqrt(sqrt)
    requires forall k :: 0 <= k < |bins| ==> bins[k].bin_from <= bins[k].bin_to
    requires probs[|probs| - 1].prob_to >= JUST_UNDER && forall i :: 0 <= i < |draws| ==> draws[i] >= 0.0
    ensures |losses| == |draws| && out == Written(losses, threshold)
    ensures forall i :: 0 <= i < |draws| ==> SampledFrom(bins, probs, tiv, draws[i], losses[i])
  {
    out, losses := [], [];
    var pp_max := probs[|probs| - 1];
    for i := 0 to |draws|
      invariant |losses| == i && out == Written(losses, threshold)
      invariant forall k :: 0 <= k < i ==> SampledFrom(bins, probs, tiv, draws[k], losses[k])
    {
      var rval := draws[i];
      if rval >= pp_max.prob_to { rval := pp_max.prob_to - JUST_UNDER; }
      var bin_index, prob_from := SelectBin(probs, rval);
      var g := Sample(tiv, prob_from, probs[bin_index].prob_to, probs[bin_index].bin_mean, rval);
      var gul, damage := GetGul(bins[bin_index], g, sqrt);
      assert UsedFor(probs, draws[i], rval) && InvertsBin(bins[bin_index], probs, tiv, rval, bin_index, damage);
      ghost var before := losses;
      losses := losses + [gul];
      assert losses[..i] == before;
      if gul >= threshold { out := out + [(i + 1, gul)]; }
    }
  }

  // ---------- mean and standard deviation ----------

  /** The probability of a bin. */
  function ProbOf(probs: seq<ProbMean>, k: nat): real
    requires k < |probs|
  {
    probs[k].prob_to - ProbFrom(probs, k)
  }

  /** The moments of the damage over the first n bins, each taken at its mean. */
  function FirstMoment(probs: seq<ProbMean>, tiv: real, n: nat): real
    requires n <= |probs|
  {
    if n == 0 then 0.0
    else FirstMoment(probs, tiv, n - 1) + Times(ProbOf(probs, n - 1), Times(probs[n - 1].bin_mean, tiv))
  }

  function SecondMoment(probs: seq<ProbMean>, tiv: real, n: nat): real
    requires n <= |probs|
  {
    if n == 0 then 0.0
    else
      var x := Times(probs[n - 1].bin_mean, tiv);
      SecondMoment(probs, tiv, n - 1) + Times(ProbOf(probs, n - 1), Times(x, x))
  }

  function Variance(probs: seq<ProbMean>, tiv: real): real {
    SecondMoment(probs, tiv, |probs|) - Times(FirstMoment(probs, tiv, |probs|), FirstMoment(probs, tiv, |probs|))
  }

  /** output_mean, up to the square root: a negative variance is taken for zero. */
  method OutputMean(tiv: real, probs: seq<ProbMean>) returns (gul_mean: real, variance: real)
    ensures gul_mean == FirstMoment(probs, tiv, |probs|)
    ensures variance == if Variance(probs, tiv) < 0.0 then 0.0 else Variance(probs, tiv)
  {
    var last_prob_to, ctr_var := 0.0, 0.0;
    gul_mean := 0.0;
    for bin_index := 0 to |probs|
      invariant last_prob_to == ProbFrom(probs, bin_index)
      invariant gul_mean == FirstMoment(probs, tiv, bin_index) && ctr_var == SecondMoment(probs, tiv, bin_index)
    {
      var prob_from := if bin_index == 0 then 0.0 else last_prob_to;
      var prob_to, bin_mean := probs[bin_index].prob_to, probs[bin_index].bin_mean;
      last_prob_to := prob_to;
      var x := Times(bin_mean, tiv);
      gul_mean := gul_mean + Times(prob_to - prob_from, x);
      ctr_var := ctr_var + Times(prob_to - prob_from, Times(x, x));
    }
    variance := ctr_var - Times(gul_mean, gul_mean);
    if variance < 0.0 { variance := 0.0; }
  }

  /** Where a bin's probability begins, what it weighs and what it is worth. */
  ghost predicate BinAt(probs: seq<ProbMean>, tiv: real, k: nat, w: real, x: real) {
    k < |probs| && x == probs[k].bin_mean * tiv
    && w == if k == 0 then probs[k].prob_to else probs[k].prob_to - probs[k - 1].prob_to
  }

  /** The mean is the sum of the losses at the bin means, each weighed by its probability. */
  lemma {:induction false} MeanIsSum(probs: seq<ProbMean>, tiv: real, n: nat, ws: seq<real>, xs: seq<real>,
                                     parts: seq<real>)
    requires n <= |probs| && |ws| == |xs| == |parts| == n
    requires forall k: nat :: k < n ==> BinAt(probs, tiv, k, ws[k], xs[k]) && parts[k] == Times(ws[k], xs[k])
    ensures FirstMoment(probs, tiv, n) == Sum(parts)
  {
    if n > 0 {
      MeanIsSum(probs, tiv, n - 1, ws[..n - 1], xs[..n - 1], parts[..n - 1]);
      assert BinAt(probs, tiv, n - 1, ws[n - 1], xs[n - 1]);
    }
  }

  lemma {:induction false} SpreadIsSum(probs: seq<ProbMean>, tiv: real, n: nat, m: real, ws: seq<real>,
                                       xs: seq<real>, parts: seq<real>)
    requires n <= |probs| && |ws| == |xs| == |parts| == n
    requires forall k: nat :: k < n ==>
               BinAt(probs, tiv, k, ws[k], xs[k]) && parts[k] == Times(ws[k], Times(xs[k] - m, xs[k] - m))
    ensures Sum(parts) == SecondMoment(probs, tiv, n) - 2.0 * Times(m, FirstMoment(probs, tiv, n))
                          + Times(Times(m, m), ProbFrom(probs, n))
  {
    TimesZero(m);
    TimesZero(Times(m, m));
    if n > 0 {
      var w, x := ws[n - 1], xs[n - 1];
      SpreadIsSum(probs, tiv, n - 1, m, ws[..n - 1], xs[..n - 1], parts[..n - 1]);
      assert BinAt(probs, tiv, n - 1, w, x);
      OneMoreSquare(m, w, x, FirstMoment(probs, tiv, n - 1), ProbFrom(probs, n - 1));
    }
  }

  lemma OneMoreSquare(m: real, w: real, x: real, s: real, p: real)
    ensures Times(w, Times(x - m, x - m)) - 2.0 * Times(m, s) + Times(Times(m, m), p)
            == Times(w, Times(x, x)) - 2.0 * Times(m, s + Times(w, x)) + Times(Times(m, m), p + w)
  {
    SquareOfDifference(w, x, m);
    TimesPlus(m, s, Times(w, x));
    TimesPlus(Times(m, m), p, w);
  }

  lemma SquareOfDifference(w: real, x: real, m: real)
    ensures Times(w, Times(x - m, x - m))
            == Times(w, Times(x, x)) - 2.0 * Times(m, Times(w, x)) + Times(Times(m, m), w)
  {
    assert (x - m) * (x - m) == x * x - 2.0 * (m * x) + m * m;
    assert w * (m * x) == m * (w * x);
  }

  lemma TimesPlus(c: real, a: real, b: real)
    ensures Times(c, a + b) == Times(c, a) + Times(c, b)
  {}

  /** The variance is the mean square distance from the mean, for a distribution that ends at 1. */
  lemma VarianceIsSpread(probs: seq<ProbMean>, tiv: real, ws: seq<real>, xs: seq<real>, parts: seq<real>)
    requires probs != [] && probs[|probs| - 1].prob_to == 1.0 && |ws| == |xs| == |parts| == |probs|
    requires var m := FirstMoment(probs, tiv, |probs|);
             forall k: nat :: k < |probs| ==>
               BinAt(probs, tiv, k, ws[k], xs[k]) && parts[k] == Times(ws[k], Times(xs[k] - m, xs[k] - m))
    ensures Variance(probs, tiv) == Sum(parts)
  {
    var m := FirstMoment(probs, tiv, |probs|);
    SpreadIsSum(probs, tiv, |probs|, m, ws, xs, parts);
    TimesOne(Times(m, m));
  }

  /** A distribution function: it rises. */
  ghost predicate Rises(probs: seq<ProbMean>) { forall k: nat :: k < |probs| ==> ProbOf(probs, k) >= 0.0 }

  /** One more bin keeps the square of the first moment below the probability times the second moment. */
  lemma OneMoreBin(p: real, s: real, q: real, w: real, x: real)
    requires p >= 0.0 && w >= 0.0 && s * s <= p * q && (p == 0.0 ==> s == 0.0 && q == 0.0)
    ensures (s + w * x) * (s + w * x) <= (p + w) * (q + w * (x * x))
  {
    if p > 0.0 {
      CrossTerm(p, s, q, x);
      assert w * (2.0 * (s * x)) <= w * (q + p * (x * x)) by {
        TimesOrdered(w, 2.0 * (s * x), q + p * (x * x));
      }
    }
    assert (s + w * x) * (s + w * x) == s * s + w * (2.0 * (s * x)) + (w * x) * (w * x);
    assert (w * x) * (w * x) == w * (w * (x * x));
    assert (p + w) * (q + w * (x * x)) == p * q + w * (q + p * (x * x)) + w * (w * (x * x));
  }

  lemma TimesOrdered(w: real, a: real, b: real)
    requires w >= 0.0 && a <= b
    ensures w * a <= w * b
  {}

  lemma CrossTerm(p: real, s: real, q: real, x: real)
    requires p > 0.0 && s * s <= p * q
    ensures 2.0 * (s * x) <= q + p * (x * x)
  {
    var d := s - p * x;
    assert d * d >= 0.0;
    assert d * d == s * s - p * (2.0 * (s * x)) + p * (p * (x * x));
    assert p * (q + p * (x * x) - 2.0 * (s * x)) >= 0.0;
    SameSign(q + p * (x * x) - 2.0 * (s * x), p, p * (q + p * (x * x) - 2.0 * (s * x)));
  }

  lemma {:induction false} MomentsBound(probs: seq<ProbMean>, tiv: real, n: nat)
    requires Rises(probs) && n <= |probs|
    ensures ProbFrom(probs, n) >= 0.0 && SecondMoment(probs, tiv, n) >= 0.0
    ensures FirstMoment(probs, tiv, n) * FirstMoment(probs, tiv, n) <= ProbFrom(probs, n) * SecondMoment(probs, tiv, n)
    ensures ProbFrom(probs, n) == 0.0 ==> FirstMoment(probs, tiv, n) == 0.0 && SecondMoment(probs, tiv, n) == 0.0
  {
    if n > 0 {
      MomentsBound(probs, tiv, n - 1);
      var w, x := ProbOf(probs, n - 1), Times(probs[n - 1].bin_mean, tiv);
      assert ProbFrom(probs, n) == ProbFrom(probs, n - 1) + w;
      TimesZero(x);
      TimesZero(Times(x, x));
      assert Times(x, x) >= 0.0 && Times(w, Times(x, x)) >= 0.0;
      OneMoreBin(ProbFrom(probs, n - 1), FirstMoment(probs, tiv, n - 1), SecondMoment(probs, tiv, n - 1), w, x);
    }
  }

  /** Of a distribution function that ends at 1 or below the variance is never negative: it is not clamped. */
  lemma VarianceNonNegative(probs: seq<ProbMean>, tiv: real)
    requires Rises(probs) && ProbFrom(probs, |probs|) <= 1.0
    ensures Variance(probs, tiv) >= 0.0
  {
    var p, q := ProbFrom(probs, |probs|), SecondMoment(probs, tiv, |probs|);
    MomentsBound(probs, tiv, |probs|);
    TimesOrdered(q, p, 1.0);
  }

  // ---------- the insured value and subperils ----------

  /** Each loss's share of the insured value. */
  function Shares(losses: seq<real>, total: real, tiv: real): (r: seq<real>)
    requires total > 0.0
    ensures |r| == |losses| && forall i :: 0 <= i < |r| ==> r[i] == Times(losses[i] / total, tiv)
  {
    seq(|losses|, i requires 0 <= i < |losses| => Times(losses[i] / total, tiv))
  }

  /** splittiv: losses that exceed the insured value together share it in proportion. */
  method SplitTiv(losses0: seq<real>, tiv: real) returns (losses: seq<real>)
    ensures tiv > 0.0 && Sum(losses0) > tiv ==> losses == Shares(losses0, Sum(losses0), tiv) && Sum(losses) == tiv
    ensures !(tiv > 0.0 && Sum(losses0) > tiv) ==> losses == losses0
    // in the proportions of the losses
    ensures tiv > 0.0 && Sum(losses0) > tiv ==>
              |losses| == |losses0|
              && forall i :: 0 <= i < |losses| ==> Times(losses[i], Sum(losses0)) == Times(losses0[i], tiv)
  {
    losses := losses0;
    if tiv > 0.0 {
      var total_loss := 0.0;
      for i := 0 to |losses|
        invariant total_loss == Sum(losses[..i])
      {
        SumSnoc(losses[..i], losses[i]);
        assert losses[..i + 1] == losses[..i] + [losses[i]];
        total_loss := total_loss + losses[i];
      }
      assert losses[..|losses|] == losses;
      if total_loss > tiv {
        for i := 0 to |losses|
          invariant |losses| == |losses0|
          invariant forall k :: 0 <= k < i ==> losses[k] == Shares(losses0, total_loss, tiv)[k]
          invariant forall k :: i <= k < |losses| ==> losses[k] == losses0[k]
        {
          var percentage := losses[i] / total_loss;
          losses := losses[i := Times(percentage, tiv)];
        }
        assert losses == Shares(losses0, total_loss, tiv);
        SharesSum(losses0, total_loss, tiv);
        forall i | 0 <= i < |losses| ensures Times(losses[i], total_loss) == Times(losses0[i], tiv) {
          ShareIsProportional(losses0[i], total_loss, tiv);
        }
      }
    }
  }

  /** The shares add up to the insured value. */
  lemma SharesSum(losses: seq<real>, total: real, tiv: real)
    requires total > 0.0 && total == Sum(losses)
    ensures Sum(Shares(losses, total, tiv)) == tiv
  {
    var c := tiv / total;
    forall i | 0 <= i < |losses| ensures Shares(losses, total, tiv)[i] == Times(losses[i], c) {
      ShareIsScaled(losses[i], total, tiv);
    }
    SumScale(losses, Shares(losses, total, tiv), c);
    assert c * total == tiv;
  }

  lemma ShareIsProportional(loss: real, total: real, tiv: real)
    requires total > 0.0
    ensures Times(Times(loss / total, tiv), total) == Times(loss, tiv)
  {
    var q := loss / total;
    assert q * total == loss;
    assert (q * tiv) * total == (q * total) * tiv;
  }

  lemma ShareIsScaled(loss: real, total: real, tiv: real)
    requires total > 0.0
    ensures Times(loss / total, tiv) == Times(loss, tiv / total)
  {}

  /** How many losses equal m. */
  function Count(losses: seq<real>, m: real): nat {
    if losses == [] then 0 else Count(losses[..|losses| - 1], m) + if losses[|losses| - 1] == m then 1 else 0
  }

  /** The largest loss, or 0. */
  function Largest(losses: seq<real>): real {
    if losses == [] then 0.0
    else
      var m, x := Largest(losses[..|losses| - 1]), losses[|losses| - 1];
      if x > m then x else m
  }

  lemma {:induction false} LargestBounds(losses: seq<real>)
    ensures Largest(losses) >= 0.0 && forall i :: 0 <= i < |losses| ==> losses[i] <= Largest(losses)
    ensures Largest(losses) > 0.0 ==> Largest(losses) in losses
  {
    if losses != [] { LargestBounds(losses[..|losses| - 1]); }
  }

  lemma {:induction false} CountNone(losses: seq<real>, m: real)
    requires m !in losses
    ensures Count(losses, m) == 0
  {
    if losses != [] { CountNone(losses[..|losses| - 1], m); }
  }

  lemma {:induction false} CountSome(losses: seq<real>, m: real)
    requires m in losses
    ensures Count(losses, m) > 0
  {
    var n := |losses| - 1;
    if losses[n] != m {
      assert m in losses[..n];
      CountSome(losses[..n], m);
    }
  }

  /** The maxima share their value evenly; everything else is cleared. */
  function MaxShared(losses: seq<real>): (r: seq<real>)
    ensures |r| == |losses|
    ensures forall i :: 0 <= i < |r| ==>
              r[i] == if losses[i] == Largest(losses)
                      then Even(Largest(losses), Count(losses, Largest(losses))) else 0.0
  {
    seq(|losses|, i requires 0 <= i < |losses| =>
      if losses[i] == Largest(losses) then Even(Largest(losses), Count(losses, Largest(losses))) else 0.0)
  }

  function Even(m: real, n: nat): real { if n == 0 then 0.0 else m / n as real }

  /** The first loop: the maximum and how often it occurs. */
  method FindMaximum(losses: seq<real>) returns (max_loss: real, max_loss_count: nat)
    ensures max_loss == Largest(losses) && max_loss_count == Count(losses, max_loss)
  {
    max_loss, max_loss_count := 0.0, 0;
    for i := 0 to |losses|
      invariant max_loss == Largest(losses[..i]) && max_loss_count == Count(losses[..i], max_loss)
    {
      var loss := losses[i];
      MaximumStep(losses[..i], losses[..i + 1], loss);
      if loss > max_loss {
        max_loss := loss;
        max_loss_count := 0;
      }
      if loss == max_loss { max_loss_count := max_loss_count + 1; }
    }
    assert losses[..|losses|] == losses;
  }

  lemma MaximumStep(before: seq<real>, after: seq<real>, loss: real)
    requires after == before + [loss]
    ensures Largest(after) == if loss > Largest(before) then loss else Largest(before)
    ensures Count(after, Largest(after))
            == (if loss > Largest(before) then 0 else Count(before, Largest(before)))
               + if loss == Largest(after) then 1 else 0
  {
    assert after[..|before|] == before;
    LargestBounds(before);
    if loss > Largest(before) { CountNone(before, loss); }
  }

  /** setmaxloss, for the subperils of one sample: their total loss becomes their maximum. */
  method SetMaxLoss(losses0: seq<real>) returns (losses: seq<real>)
    ensures losses == MaxShared(losses0)
    ensures Sum(losses) == Largest(losses0)
    ensures forall i, k :: 0 <= i < |losses0| && 0 <= k < |losses0| ==>
              (losses0[i] < losses0[k] ==> losses[i] == 0.0) && (losses0[i] == losses0[k] ==> losses[i] == losses[k])
  {
    losses := losses0;
    var max_loss, max_loss_count := FindMaximum(losses);
    for i := 0 to |losses|
      invariant |losses| == |losses0|
      invariant forall k :: 0 <= k < i ==> losses[k] == MaxShared(losses0)[k]
      invariant forall k :: i <= k < |losses| ==> losses[k] == losses0[k]
    {
      if losses[i] == max_loss {
        CountSome(losses0, max_loss);
        losses := losses[i := losses[i] / max_loss_count as real];
      } else {
        losses := losses[i := 0.0];
      }
    }
    assert losses == MaxShared(losses0);
    MaxSharedTotal(losses0);
    LargestBounds(losses0);
  }

  lemma MaxSharedTotal(losses: seq<real>)
    ensures Sum(MaxShared(losses)) == Largest(losses)
  {
    var m := Largest(losses);
    var n := Count(losses, m);
    MaxSharedSum(losses, MaxShared(losses), m, Even(m, n));
    LargestBounds(losses);
    if m > 0.0 {
      CountSome(losses, m);
      EvenTimes(m, n);
    } else {
      TimesZero(n as real);
      EvenOfZero(n);
    }
  }

  lemma EvenTimes(m: real, n: nat)
    requires n > 0
    ensures Times(n as real, Even(m, n)) == m
  {}

  lemma EvenOfZero(n: nat)
    ensures Even(0.0, n) == 0.0
  {}

  lemma {:induction false} MaxSharedSum(losses: seq<real>, shared: seq<real>, m: real, each: real)
    requires |shared| == |losses|
    requires forall i :: 0 <= i < |shared| ==> shared[i] == if losses[i] == m then each else 0.0
    ensures Sum(shared) == Times(Count(losses, m) as real, each)
  {
    TimesZero(each);
    if losses != [] {
      var n := |losses| - 1;
      MaxSharedSum(losses[..n], shared[..n], m, each);
      TimesAdds(Count(losses[..n], m) as real, 1.0, each);
      TimesOne(each);
    }
  }
}
