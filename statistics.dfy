/** The Wilson score confidence interval for the Monte Carlo hit proportion. */
module Statistics {
  import opened Builtins

  /** The z-score of a 95% interval, the default of `compute_wilson_ci`. */
  const Z_95: real := 1.96

  function Clamp01(x: real): (r: real)
    ensures 0.0 <= r <= 1.0
    ensures 0.0 <= x <= 1.0 ==> r == x
    ensures x < 0.0 ==> r == 0.0
    ensures x > 1.0 ==> r == 1.0
  {
    Max(0.0, Min(1.0, x))
  }

  /** (k + z²/2) / (n + z²) */
  function WilsonCenter(kr: real, nr: real, z2: real): real
    requires nr + z2 > 0.0
  {
    (kr + 0.5 * z2) / (nr + z2)
  }

  /** k(n - k)/n + z²/4 */
  function WilsonRadicand(kr: real, nr: real, z2: real): real
    requires nr > 0.0
  {
    (kr * (nr - kr) / nr) + z2 / 4.0
  }

  /** (z / (n + z²)) · root */
  function WilsonMargin(z: real, d: real, root: real): (m: real)
    requires d > 0.0
    ensures z >= 0.0 && root >= 0.0 ==> m >= 0.0
  {
    (z / d) * root
  }

  /** The clamped interval around the centre, for a given square root of the radicand. */
  function WilsonBounds(k: int, n: nat, z: real, root: real): (ci: (real, real))
    requires n > 0
    ensures 0.0 <= ci.0 <= 1.0 && 0.0 <= ci.1 <= 1.0
    ensures z >= 0.0 && root >= 0.0 ==> ci.0 <= ci.1
  {
    var nr, z2 := n as real, z * z;
    var center := WilsonCenter(k as real, nr, z2);
    var margin := WilsonMargin(z, nr + z2, root);
    (Clamp01(center - margin), Clamp01(center + margin))
  }

  /** `compute_wilson_ci(k, n, z)` as (ci_low, ci_high). */
  function WilsonCi(k: int, n: nat, z: real, sqrt: real -> real): (ci: (real, real))
    requires SqrtSpec(sqrt)
    ensures n == 0 ==> ci == (0.0, 1.0)
    ensures 0.0 <= ci.0 <= 1.0 && 0.0 <= ci.1 <= 1.0
    ensures z >= 0.0 ==> ci.0 <= ci.1
  {
    if n == 0 then (0.0, 1.0)
    else WilsonBounds(k, n, z, sqrt(Max(0.0, WilsonRadicand(k as real, n as real, z * z))))
  }

  /** The interval of a genuine proportion k/n always contains the proportion
      itself: |centre - k/n| = z²|1/2 - p|/(n + z²), and squaring shows this is
      at most the margin because z²p(1 - p) >= -n·p(1 - p). */
  lemma WilsonContainsEstimate(k: int, n: nat, z: real, sqrt: real -> real)
    requires SqrtSpec(sqrt)
    requires n > 0 && 0 <= k <= n && z >= 0.0
    ensures WilsonCi(k, n, z, sqrt).0 <= k as real / n as real <= WilsonCi(k, n, z, sqrt).1
  {
    var root := sqrt(Max(0.0, WilsonRadicand(k as real, n as real, z * z)));
    BoundsContainEstimate(k, n, z, root);
  }

  lemma BoundsContainEstimate(k: int, n: nat, z: real, root: real)
    requires n > 0 && 0 <= k <= n && z >= 0.0
    requires 0.0 <= root && root * root == Max(0.0, WilsonRadicand(k as real, n as real, z * z))
    ensures WilsonBounds(k, n, z, root).0 <= k as real / n as real <= WilsonBounds(k, n, z, root).1
  {
    ClampedCenterContains(k as real, n as real, z, root);
  }

  lemma ClampedCenterContains(kr: real, nr: real, z: real, root: real)
    requires 0.0 <= kr <= nr && nr > 0.0 && z >= 0.0
    requires 0.0 <= root && root * root == Max(0.0, WilsonRadicand(kr, nr, z * z))
    ensures Clamp01(WilsonCenter(kr, nr, z * z) - WilsonMargin(z, nr + z * z, root)) <= kr / nr
         <= Clamp01(WilsonCenter(kr, nr, z * z) + WilsonMargin(z, nr + z * z, root))
  {
    CenterWithinMargin(kr, nr, z, root);
    EstimateBounds(kr, nr);
    ClampedIntervalContains(WilsonCenter(kr, nr, z * z), WilsonMargin(z, nr + z * z, root), kr / nr);
  }

  lemma CenterWithinMargin(kr: real, nr: real, z: real, root: real)
    requires 0.0 <= kr <= nr && nr > 0.0 && z >= 0.0
    requires 0.0 <= root && root * root == Max(0.0, WilsonRadicand(kr, nr, z * z))
    ensures Abs(WilsonCenter(kr, nr, z * z) - kr / nr) <= WilsonMargin(z, nr + z * z, root)
  {
    ContainmentCore(kr, nr, z, WilsonRadicand(kr, nr, z * z), root,
                    WilsonCenter(kr, nr, z * z), WilsonMargin(z, nr + z * z, root));
  }

  /** The containment argument on plain reals. */
  lemma ContainmentCore(kr: real, nr: real, z: real, radicand: real, root: real, c: real, m: real)
    requires 0.0 <= kr <= nr && nr > 0.0 && z >= 0.0
    requires radicand == (kr * (nr - kr) / nr) + (z * z) / 4.0
    requires 0.0 <= root && root * root == Max(0.0, radicand)
    requires c == (kr + 0.5 * (z * z)) / (nr + z * z)
    requires m == (z / (nr + z * z)) * root
    ensures Abs(c - kr / nr) <= m
  {
    EstimateBounds(kr, nr);
    var p := kr / nr;
    RadicandOfEstimate(kr, nr, z * z, p, radicand);
    RootBoundsOffset(z, p, nr, radicand, root);
    OffsetBelowMargin(kr, nr, z, p, c, root, m);
  }

  /** z |1/2 - p| is at most the square root of the radicand. */
  lemma RootBoundsOffset(z: real, p: real, nr: real, radicand: real, root: real)
    requires z >= 0.0 && nr > 0.0 && 0.0 <= p <= 1.0
    requires radicand == nr * (p * (1.0 - p)) + (z * z) / 4.0
    requires 0.0 <= root && root * root == Max(0.0, radicand)
    ensures z * Abs(0.5 - p) <= root
  {
    var b := z * Abs(0.5 - p);
    OffsetSquareBelowRadicand(z, p, nr, b, radicand);
    if root < b {
      SquareStrictlyMonotone(root, b);
    }
  }

  lemma ClampedIntervalContains(c: real, m: real, p: real)
    requires 0.0 <= p <= 1.0 && Abs(c - p) <= m
    ensures Clamp01(c - m) <= p <= Clamp01(c + m)
  {
  }

  lemma EstimateBounds(kr: real, nr: real)
    requires 0.0 <= kr <= nr && nr > 0.0
    ensures 0.0 <= kr / nr <= 1.0
    ensures kr == (kr / nr) * nr
  {
  }

  /** (centre - p) · (n + z²) == z² (1/2 - p) */
  lemma CenterOffset(kr: real, nr: real, z2: real, p: real, c: real)
    requires nr > 0.0 && z2 >= 0.0
    requires kr == p * nr
    requires c == (kr + 0.5 * z2) / (nr + z2)
    ensures (c - p) * (nr + z2) == z2 * (0.5 - p)
  {
    var d := nr + z2;
    assert c * d == kr + 0.5 * z2;
    assert (c - p) * d == c * d - p * d;
    assert p * d == p * nr + p * z2;
  }

  /** k(n - k)/n + z²/4 == n·p(1 - p) + z²/4 */
  lemma RadicandOfEstimate(kr: real, nr: real, z2: real, p: real, radicand: real)
    requires nr > 0.0 && 0.0 <= p <= 1.0
    requires kr == p * nr
    requires radicand == kr * (nr - kr) / nr + z2 / 4.0
    ensures radicand == nr * (p * (1.0 - p)) + z2 / 4.0
  {
    assert nr - kr == nr * (1.0 - p);
    assert kr * (nr - kr) == nr * (nr * (p * (1.0 - p)));
  }

  /** (z |1/2 - p|)² <= n·p(1 - p) + z²/4 */
  lemma OffsetSquareBelowRadicand(z: real, p: real, nr: real, b: real, radicand: real)
    requires z >= 0.0 && nr > 0.0 && 0.0 <= p <= 1.0
    requires b == z * Abs(0.5 - p)
    requires radicand == nr * (p * (1.0 - p)) + (z * z) / 4.0
    ensures 0.0 <= b && b * b <= radicand
  {
    var q := p * (1.0 - p);
    ProductNonNegative(p, 1.0 - p);
    assert Abs(0.5 - p) * Abs(0.5 - p) == 0.25 - q;
    assert b * b == (z * z) * (0.25 - q);
    ProductNonNegative(z * z, q);
    ProductNonNegative(nr, q);
  }

  /** |centre - p| <= margin, given z|1/2 - p| <= root. */
  lemma OffsetBelowMargin(kr: real, nr: real, z: real, p: real, c: real, root: real, m: real)
    requires nr > 0.0 && z >= 0.0 && kr == p * nr
    requires c == (kr + 0.5 * (z * z)) / (nr + z * z)
    requires z * Abs(0.5 - p) <= root
    requires m == (z / (nr + z * z)) * root
    ensures Abs(c - p) <= m
  {
    var z2 := z * z;
    var d := nr + z2;
    CenterOffset(kr, nr, z2, p, c);
    var off, half, b := c - p, 0.5 - p, z * Abs(0.5 - p);
    assert off * d == z2 * half;
    assert Abs(off) * d == z * b;
    assert z * b <= z * root;
    assert m * d == z * root;
  }

  /** With no trials nothing is known: the interval is all of [0, 1]. */
  lemma WilsonOfNoTrials(k: int, z: real, sqrt: real -> real)
    requires SqrtSpec(sqrt)
    ensures WilsonCi(k, 0, z, sqrt) == (0.0, 1.0)
  {
  }
}
