/**
  `_wilson_interval` of src/orbenchlab/volc_rollout.py over the reals.

  The square root is a parameter: `root` stands for the non-negative square root of the radicand.
  Most of the algebra is about the rate `p`, the weight `w` = z*z/n, and `q` = z*root.
  */
module Wilson {
  import opened Options

  // ---------------------------------------------------------------------------
  // The interval as the source computes it
  // ---------------------------------------------------------------------------

  ghost predicate IsRoot(root: real, x: real) {
    root >= 0.0 && root * root == x
  }

  function Rate(successes: int, n: int): real
    requires n > 0
  {
    successes as real / n as real
  }

  function Radicand(rate: real, n: int, z: real): real
    requires n > 0
  {
    rate * (1.0 - rate) / n as real + z * z / (4.0 * n as real * n as real)
  }

  function Denominator(n: int, z: real): (d: real)
    requires n > 0
  {
    1.0 + z * z / n as real
  }

  function Max(a: real, b: real): real { if a < b then b else a }
  function Min(a: real, b: real): real { if b < a then b else a }

  predicate ValidCounts(successes: int, n: int) {
    n > 0 && 0 <= successes <= n
  }

  lemma DenominatorPositive(n: int, z: real)
    requires n > 0
    ensures Denominator(n, z) >= 1.0
  {
  }

  /** The clamped interval around `(rate + half) / d` with radius `q / d`. */
  function Clamped(rate: real, half: real, d: real, q: real): (real, real)
    requires d > 0.0
  {
    (Max(0.0, (rate + half) / d - q / d), Min(1.0, (rate + half) / d + q / d))
  }

  function IntervalAt(rate: real, n: int, z: real, root: real): (real, real)
    requires n > 0
  {
    DenominatorPositive(n, z);
    Clamped(rate, z * z / (2.0 * n as real), Denominator(n, z), z * root)
  }

  function WilsonInterval(successes: int, n: int, z: real, root: real): Option<(real, real)> {
    if !ValidCounts(successes, n) then None else Some(IntervalAt(Rate(successes, n), n, z, root))
  }

  // ---------------------------------------------------------------------------
  // The algebra
  // ---------------------------------------------------------------------------

  /** `p` is a rate, `w` a positive weight, and `q` the non-negative root that belongs to them. */
  ghost predicate Terms(p: real, w: real, q: real) {
    0.0 <= p <= 1.0 && w > 0.0 && q >= 0.0 && q * q == w * p * (1.0 - p) + w * w / 4.0
  }

  ghost function Low(p: real, w: real, q: real): real
    requires w > 0.0
  {
    (p + w / 2.0 - q) / (1.0 + w)
  }

  ghost function High(p: real, w: real, q: real): real
    requires w > 0.0
  {
    (p + w / 2.0 + q) / (1.0 + w)
  }

  /** The score test: `x` is a plausible rate if it is close to `p` on its own scale. */
  ghost predicate Plausible(p: real, w: real, x: real) {
    (p - x) * (p - x) <= w * x * (1.0 - x)
  }

  lemma Endpoints(p: real, w: real, q: real) returns (lo: real, hi: real)
    requires Terms(p, w, q)
    ensures lo == Low(p, w, q) && hi == High(p, w, q)
    ensures lo * (1.0 + w) == p + w / 2.0 - q && hi * (1.0 + w) == p + w / 2.0 + q
    ensures lo <= hi
  {
    lo, hi := Low(p, w, q), High(p, w, q);
    QuotientMonotone(p + w / 2.0 - q, p + w / 2.0 + q, 1.0 + w);
  }

  lemma QuotientMonotone(a: real, b: real, d: real)
    requires a <= b && d > 0.0
    ensures a / d <= b / d
  {
  }

  lemma Cancel(a: real, b: real, d: real)
    requires a * d == b * d && d > 0.0
    ensures a == b
  {
  }

  /** What separates `x` from plausibility is the product of its distances to the endpoints. */
  lemma Quadratic(p: real, w: real, q: real, lo: real, hi: real, x: real)
    requires Terms(p, w, q)
    requires lo * (1.0 + w) == p + w / 2.0 - q && hi * (1.0 + w) == p + w / 2.0 + q
    ensures (p - x) * (p - x) - w * x * (1.0 - x) == (1.0 + w) * ((x - lo) * (x - hi))
  {
  }

  lemma ProductSign(a: real, b: real, d: real)
    requires a >= b && d > 0.0
    ensures d * (a * b) <= 0.0 <==> b <= 0.0 <= a
  {
  }

  /** The interval holds exactly the plausible rates. */
  lemma IntervalIsScoreTest(p: real, w: real, q: real, x: real)
    requires Terms(p, w, q)
    ensures Low(p, w, q) <= x <= High(p, w, q) <==> Plausible(p, w, x)
  {
    var lo, hi := Endpoints(p, w, q);
    Quadratic(p, w, q, lo, hi, x);
    ProductSign(x - lo, x - hi, 1.0 + w);
  }

  lemma SquareNonNegative(a: real)
    ensures a * a >= 0.0
  {
  }

  /** Only rates are plausible. */
  lemma ImplausibleOutside(p: real, w: real, x: real)
    requires w > 0.0 && (x < 0.0 || x > 1.0)
    ensures !Plausible(p, w, x)
  {
    SquareNonNegative(p - x);
    var y := if x < 0.0 then (-x) * (1.0 - x) else x * (x - 1.0);
    assert y > 0.0 && x * (1.0 - x) == -y;
    assert w * y > 0.0;
    assert w * x * (1.0 - x) == -(w * y);
  }

  lemma RatePlausible(p: real, w: real)
    requires 0.0 <= p <= 1.0 && w > 0.0
    ensures Plausible(p, w, p)
  {
  }

  /** The endpoints are rates on either side of the observed one. */
  lemma Brackets(p: real, w: real, q: real)
    requires Terms(p, w, q)
    ensures 0.0 <= Low(p, w, q) <= p <= High(p, w, q) <= 1.0
  {
    var lo, hi := Endpoints(p, w, q);
    RatePlausible(p, w);
    IntervalIsScoreTest(p, w, q, p);
    IntervalIsScoreTest(p, w, q, lo);
    IntervalIsScoreTest(p, w, q, hi);
    if lo < 0.0 {
      ImplausibleOutside(p, w, lo);
    }
    if hi > 1.0 {
      ImplausibleOutside(p, w, hi);
    }
  }

  lemma CloserStaysPlausible(p: real, p': real, w: real, x: real)
    requires Plausible(p, w, x) && (p <= p' <= x || x <= p' <= p)
    ensures Plausible(p', w, x)
  {
  }

  /** Both endpoints grow with the rate. */
  lemma EndpointsMonotone(p: real, q: real, p': real, q': real, w: real)
    requires Terms(p, w, q) && Terms(p', w, q') && p <= p'
    ensures Low(p, w, q) <= Low(p', w, q') && High(p, w, q) <= High(p', w, q')
  {
    Brackets(p, w, q);
    Brackets(p', w, q');
    var hi, lo' := High(p, w, q), Low(p', w, q');
    IntervalIsScoreTest(p, w, q, hi);
    if p' <= hi {
      CloserStaysPlausible(p, p', w, hi);
      IntervalIsScoreTest(p', w, q', hi);
    }
    IntervalIsScoreTest(p', w, q', lo');
    if lo' <= p {
      CloserStaysPlausible(p', p, w, lo');
      IntervalIsScoreTest(p, w, q, lo');
    }
  }

  /** Counting failures instead of successes mirrors the interval. */
  lemma Mirror(p: real, w: real, q: real)
    requires Terms(p, w, q)
    ensures Terms(1.0 - p, w, q) && High(p, w, q) == 1.0 - Low(1.0 - p, w, q)
  {
    var d := 1.0 + w;
    assert w * p * (1.0 - p) == w * (1.0 - p) * (1.0 - (1.0 - p));
    assert Low(1.0 - p, w, q) * d == 1.0 - p + w / 2.0 - q;
    assert (1.0 - Low(1.0 - p, w, q)) * d == p + w / 2.0 + q;
    assert High(p, w, q) * d == p + w / 2.0 + q;
    Cancel(High(p, w, q), 1.0 - Low(1.0 - p, w, q), d);
  }

  // ---------------------------------------------------------------------------
  // What that means for `_wilson_interval`
  // ---------------------------------------------------------------------------

  lemma RootUnique(r: real, r': real, x: real)
    requires IsRoot(r, x) && IsRoot(r', x)
    ensures r == r'
  {
    assert (r - r') * (r + r') == 0.0;
    if r + r' == 0.0 {
      assert r == 0.0 && r' == 0.0;
    }
  }

  ghost predicate Given(successes: int, n: int, z: real, root: real) {
    ValidCounts(successes, n) && z > 0.0 && IsRoot(root, Radicand(Rate(successes, n), n, z))
  }

  /** A quotient is determined by its product with the divisor. */
  lemma QuotientIs(a: real, b: real, c: real)
    requires b > 0.0
    requires c * b == a
    ensures a / b == c
  {
  }

  lemma QuotientPositive(a: real, b: real)
    requires a > 0.0 && b > 0.0
    ensures a / b > 0.0
  {
  }

  lemma ProductPositive(a: real, b: real)
    requires a > 0.0 && b > 0.0
    ensures a * b > 0.0
  {
  }

  lemma Square(z: real) returns (a: real)
    requires z > 0.0
    ensures a == z * z && a > 0.0
  {
    a := PositiveProduct(z, z);
  }

  lemma PositiveProduct(x: real, y: real) returns (a: real)
    requires x > 0.0 && y > 0.0
    ensures a == x * y && a > 0.0
  {
    a := x * y;
  }

  lemma QuotientByFourSquares(a: real, n: real, u: real, v: real, d: real)
    requires u * n == a && v * n == u && d == 4.0 * n * n && d > 0.0
    ensures a / d == v / 4.0
  {
  }

  lemma HalfQuotient(a: real, n: real, w: real)
    requires n > 0.0 && w * n == a
    ensures a / (2.0 * n) == w / 2.0
  {
  }

  lemma ConstantTerm(a: real, n: real, w: real, v: real)
    requires v * n == w && w * n == a
    ensures a * (v / 4.0) == w * w / 4.0
  {
  }

  lemma FourSquaresPositive(n: real, d: real)
    requires n > 0.0 && d == 4.0 * n * n
    ensures d > 0.0
  {
    var m := 4.0 * n;
    ProductPositive(m, n);
    assert d == m * n;
  }

  lemma QuarterSquare(a: real, n: real)
    requires n > 0.0
    ensures a / (4.0 * n * n) == ((a / n) / n) / 4.0
  {
    var d := 4.0 * n * n;
    FourSquaresPositive(n, d);
    QuotientByFourSquares(a, n, a / n, (a / n) / n, d);
  }

  /** The weight `w` of the formula, and the constant term `c` of the radicand. */
  lemma Weight(a: real, n: real) returns (w: real, c: real)
    requires a > 0.0 && n > 0.0
    ensures w == a / n && w > 0.0 && w * n == a
    ensures c == a / (4.0 * n * n) && a * c == w * w / 4.0
    ensures a / (2.0 * n) == w / 2.0
  {
    w := a / n;
    QuotientPositive(a, n);
    HalfQuotient(a, n, w);
    QuarterSquare(a, n);
    c := (w / n) / 4.0;
    ConstantTerm(a, n, w, w / n);
  }

  lemma RateInUnit(successes: int, n: int)
    requires ValidCounts(successes, n)
    ensures 0.0 <= Rate(successes, n) <= 1.0
  {
  }

  lemma TermsAt(p: real, n: real, a: real, w: real, c: real, z: real, root: real)
    requires 0.0 <= p <= 1.0 && n > 0.0 && a == z * z && z > 0.0
    requires w > 0.0 && w * n == a && a * c == w * w / 4.0
    requires root >= 0.0 && root * root == p * (1.0 - p) / n + c
    ensures Terms(p, w, z * root)
  {
  }

  /** The computed interval is the ideal one: the clamps to 0 and 1 never change anything. */
  lemma ClampsAreIdle(p: real, n: int, z: real, root: real)
    requires 0.0 <= p <= 1.0 && n > 0 && z > 0.0 && IsRoot(root, Radicand(p, n, z))
    ensures z * z / n as real > 0.0
    ensures Terms(p, z * z / n as real, z * root)
    ensures IntervalAt(p, n, z, root) == (Low(p, z * z / n as real, z * root), High(p, z * z / n as real, z * root))
  {
    var m := n as real;
    var a := Square(z);
    var w, c := Weight(a, m);
    TermsAt(p, m, a, w, c, z, root);
    ClampTerms(p, w, z * root, w / 2.0, 1.0 + w);
  }

  lemma ClampTerms(p: real, w: real, q: real, half: real, d: real)
    requires Terms(p, w, q) && half == w / 2.0 && d == 1.0 + w
    ensures Clamped(p, half, d, q) == (Low(p, w, q), High(p, w, q))
  {
    Brackets(p, w, q);
    SplitQuotient(p + half, q, d);
  }

  lemma SplitQuotient(a: real, b: real, d: real)
    requires d > 0.0
    ensures a / d - b / d == (a - b) / d && a / d + b / d == (a + b) / d
  {
  }

  /** The interval lies in [0, 1], brackets the observed rate, and holds exactly the rates that the score
      test does not reject. */
  lemma IntervalMeaning(successes: int, n: int, z: real, root: real, x: real)
    requires Given(successes, n, z, root)
    ensures
      var rate := Rate(successes, n);
      var (lower, upper) := WilsonInterval(successes, n, z, root).value;
      && 0.0 <= lower <= rate <= upper <= 1.0
      && (lower <= x <= upper <==> Plausible(rate, z * z / n as real, x))
  {
    RateInUnit(successes, n);
    MeaningAt(Rate(successes, n), n, z, root, x);
  }

  lemma MeaningAt(p: real, n: int, z: real, root: real, x: real)
    requires 0.0 <= p <= 1.0 && n > 0 && z > 0.0 && IsRoot(root, Radicand(p, n, z))
    ensures
      var (lower, upper) := IntervalAt(p, n, z, root);
      0.0 <= lower <= p <= upper <= 1.0 && (lower <= x <= upper <==> Plausible(p, z * z / n as real, x))
  {
    ClampsAreIdle(p, n, z, root);
    Brackets(p, z * z / n as real, z * root);
    IntervalIsScoreTest(p, z * z / n as real, z * root, x);
  }

  /** With more successes out of the same number of trials neither endpoint falls. */
  lemma IntervalMonotone(s: int, root: real, s': int, root': real, n: int, z: real)
    requires Given(s, n, z, root) && Given(s', n, z, root') && s <= s'
    ensures
      var (lower, upper) := WilsonInterval(s, n, z, root).value;
      var (lower', upper') := WilsonInterval(s', n, z, root').value;
      lower <= lower' && upper <= upper'
  {
    RateInUnit(s, n);
    RateInUnit(s', n);
    QuotientMonotone(s as real, s' as real, n as real);
    MonotoneAt(Rate(s, n), root, Rate(s', n), root', n, z);
  }

  lemma MonotoneAt(p: real, root: real, p': real, root': real, n: int, z: real)
    requires 0.0 <= p <= p' <= 1.0 && n > 0 && z > 0.0
    requires IsRoot(root, Radicand(p, n, z)) && IsRoot(root', Radicand(p', n, z))
    ensures IntervalAt(p, n, z, root).0 <= IntervalAt(p', n, z, root').0
    ensures IntervalAt(p, n, z, root).1 <= IntervalAt(p', n, z, root').1
  {
    ClampsAreIdle(p, n, z, root);
    ClampsAreIdle(p', n, z, root');
    EndpointsMonotone(p, z * root, p', z * root', z * z / n as real);
  }

  /** The upper endpoint for the successes is one minus the lower endpoint for the failures. */
  lemma IntervalMirror(s: int, n: int, z: real, root: real, root': real)
    requires Given(s, n, z, root) && Given(n - s, n, z, root')
    ensures WilsonInterval(s, n, z, root).value.1 == 1.0 - WilsonInterval(n - s, n, z, root').value.0
  {
    RateInUnit(s, n);
    MirrorRate(s, n);
    MirrorAt(Rate(s, n), Rate(n - s, n), n, z, root, root');
  }

  lemma MirrorAt(p: real, p': real, n: int, z: real, root: real, root': real)
    requires 0.0 <= p <= 1.0 && p' == 1.0 - p && n > 0 && z > 0.0
    requires IsRoot(root, Radicand(p, n, z)) && IsRoot(root', Radicand(p', n, z))
    ensures IntervalAt(p, n, z, root).1 == 1.0 - IntervalAt(p', n, z, root').0
  {
    MirrorRadicand(p, p', n, z);
    RootUnique(root, root', Radicand(p, n, z));
    MirrorSameRoot(p, p', n, z, root);
  }

  lemma MirrorSameRoot(p: real, p': real, n: int, z: real, root: real)
    requires 0.0 <= p <= 1.0 && p' == 1.0 - p && n > 0 && z > 0.0
    requires IsRoot(root, Radicand(p, n, z)) && IsRoot(root, Radicand(p', n, z))
    ensures IntervalAt(p, n, z, root).1 == 1.0 - IntervalAt(p', n, z, root).0
  {
    ClampsAreIdle(p, n, z, root);
    ClampsAreIdle(p', n, z, root);
    Mirror(p, z * z / n as real, z * root);
  }

  lemma MirrorRadicand(p: real, p': real, n: int, z: real)
    requires n > 0 && p' == 1.0 - p
    ensures Radicand(p', n, z) == Radicand(p, n, z)
  {
  }

  lemma MirrorRate(s: int, n: int)
    requires ValidCounts(s, n)
    ensures Rate(n - s, n) == 1.0 - Rate(s, n)
  {
    assert (n - s) as real == n as real - s as real;
    MirrorQuotient(s as real, n as real);
  }

  lemma MirrorQuotient(s: real, n: real)
    requires n > 0.0
    ensures (n - s) / n == 1.0 - s / n
  {
    QuotientIs(n - s, n, 1.0 - s / n);
  }

  /** Intervals that do not meet come from strictly different counts. */
  lemma SeparationIsStrict(s: int, root: real, s': int, root': real, n: int, z: real)
    requires Given(s, n, z, root) && Given(s', n, z, root')
    requires WilsonInterval(s, n, z, root).value.1 < WilsonInterval(s', n, z, root').value.0
    ensures s < s'
  {
    if s' <= s {
      IntervalMonotone(s', root', s, root, n, z);
      IntervalMeaning(s, n, z, root, 0.0);
    }
  }
}
