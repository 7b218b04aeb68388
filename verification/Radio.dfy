/**
  Distance, attenuation and loss (src/ccoordinate.cc, src/cwifi.cc). `double` is modelled by
  `real`; sqrt and log10 are parameters of which only the laws below are used.
 */
module Radio {
  import opened Wire
  import opened Registry

  datatype Maths = Maths(sqrt: real -> real, log10: real -> real)

  ghost predicate Lawful(m: Maths) {
    && (forall x: real :: x >= 0.0 ==> m.sqrt(x) >= 0.0 && m.sqrt(x) * m.sqrt(x) == x)
    && (forall x: real, y: real :: 0.0 < x <= y ==> m.log10(x) <= m.log10(y))
  }

  // ---------- distance ----------

  function Sq(n: int): int {
    n * n
  }

  /** The integer under the square root of DistanceWith. */
  function SquareDistance(a: Coord, b: Coord): int {
    Sq(a.x - b.x) + Sq(a.y - b.y) + Sq(a.z - b.z)
  }

  function Distance(m: Maths, scale: real, a: Coord, b: Coord): real {
    scale * RootOf(m, a, b)
  }

  lemma SqLaw(n: int)
    ensures Sq(n) >= 0 && (Sq(n) == 0 <==> n == 0) && Sq(-n) == Sq(n)
  {
  }

  lemma SquareDistanceLaw(a: Coord, b: Coord)
    ensures SquareDistance(a, b) >= 0 && SquareDistance(a, b) == SquareDistance(b, a)
    ensures SquareDistance(a, b) == 0 <==> a == b
  {
    SqLaw(a.x - b.x);
    SqLaw(a.y - b.y);
    SqLaw(a.z - b.z);
  }

  lemma DistanceSymmetric(m: Maths, scale: real, a: Coord, b: Coord)
    ensures Distance(m, scale, a, b) == Distance(m, scale, b, a)
  {
    SquareDistanceLaw(a, b);
  }

  lemma DistanceZero(m: Maths, scale: real, a: Coord, b: Coord)
    requires Lawful(m) && scale > 0.0
    ensures Distance(m, scale, a, b) >= 0.0
    ensures Distance(m, scale, a, b) == 0.0 <==> a == b
  {
    SquareDistanceLaw(a, b);
    Root(m, a, b);
    Scaled(scale, RootOf(m, a, b));
  }

  lemma Scaled(scale: real, r: real)
    requires scale > 0.0 && r >= 0.0
    ensures scale * r >= 0.0 && (scale * r == 0.0 <==> r == 0.0)
    ensures r * r == 0.0 <==> r == 0.0
  {
  }

  function Dot(u: Coord, v: Coord): int {
    u.x * v.x + u.y * v.y + u.z * v.z
  }

  function Minus(a: Coord, b: Coord): Coord {
    Coord(a.x - b.x, a.y - b.y, a.z - b.z)
  }

  /** Lagrange's identity, from which Cauchy and Schwarz's inequality follows. */
  lemma CauchySchwarz(u: Coord, v: Coord)
    ensures Sq(Dot(u, v)) <= Dot(u, u) * Dot(v, v)
  {
    var p, q, r := u.x * v.y - u.y * v.x, u.x * v.z - u.z * v.x, u.y * v.z - u.z * v.y;
    Lagrange(u.x, u.y, u.z, v.x, v.y, v.z);
    SqLaw(p);
    SqLaw(q);
    SqLaw(r);
  }

  lemma Lagrange(a: int, b: int, c: int, x: int, y: int, z: int)
    ensures (a * a + b * b + c * c) * (x * x + y * y + z * z) ==
            Sq(a * x + b * y + c * z) + Sq(a * y - b * x) + Sq(a * z - c * x) + Sq(b * z - c * y)
  {
    ProductOfSums(a * a, b * b, c * c, x * x, y * y, z * z);
    SquareOfThree(a * x, b * y, c * z);
    SquareOfTwo(a, x);
    SquareOfTwo(b, y);
    SquareOfTwo(c, z);
    CrossTerm(a, b, x, y);
    CrossTerm(a, c, x, z);
    CrossTerm(b, c, y, z);
  }

  lemma ProductOfSums(p: int, q: int, r: int, s: int, t: int, u: int)
    ensures (p + q + r) * (s + t + u) ==
            p * s + p * t + p * u + q * s + q * t + q * u + r * s + r * t + r * u
  {
  }

  lemma SquareOfThree(p: int, q: int, r: int)
    ensures Sq(p + q + r) == Sq(p) + Sq(q) + Sq(r) + 2 * (p * q) + 2 * (p * r) + 2 * (q * r)
  {
  }

  lemma SquareOfTwo(a: int, x: int)
    ensures Sq(a * x) == (a * a) * (x * x)
  {
  }

  lemma CrossTerm(a: int, b: int, x: int, y: int)
    ensures Sq(a * y - b * x) == (a * a) * (y * y) - 2 * ((a * x) * (b * y)) + (b * b) * (x * x)
  {
    SquareOfTwo(a, y);
    SquareOfTwo(b, x);
    assert (a * y) * (b * x) == (a * x) * (b * y);
    Difference(a * y, b * x);
  }

  lemma Difference(p: int, q: int)
    ensures Sq(p - q) == Sq(p) - 2 * (p * q) + Sq(q)
  {
  }

  /** |u + v|^2 = |u|^2 + 2 u.v + |v|^2 along the two legs of a triangle. */
  lemma Expand(a: Coord, b: Coord, c: Coord)
    ensures var u := Minus(a, b); var v := Minus(b, c);
            && SquareDistance(a, b) == Dot(u, u) && SquareDistance(b, c) == Dot(v, v)
            && SquareDistance(a, c) == Dot(u, u) + 2 * Dot(u, v) + Dot(v, v)
  {
    var u, v := Minus(a, b), Minus(b, c);
    SquareSum(u.x, v.x);
    SquareSum(u.y, v.y);
    SquareSum(u.z, v.z);
    assert a.x - c.x == u.x + v.x && a.y - c.y == u.y + v.y && a.z - c.z == u.z + v.z;
  }

  lemma SquareSum(p: int, q: int)
    ensures Sq(p + q) == p * p + 2 * (p * q) + q * q
  {
  }

  lemma SquaresOrdered(p: real, q: real)
    requires q >= 0.0 && p * p <= q * q
    ensures p <= q
  {
    if p > q {
      assert (p - q) * (p + q) == p * p - q * q;
      PositiveProduct(p - q, p + q);
      assert false;
    }
  }

  lemma PositiveProduct(p: real, q: real)
    requires p > 0.0 && q > 0.0
    ensures p * q > 0.0
  {
  }

  lemma SquareOfSum(p: real, q: real)
    ensures (p + q) * (p + q) == p * p + 2.0 * (p * q) + q * q
  {
  }

  lemma SquareOfProduct(p: real, q: real)
    ensures (p * q) * (p * q) == (p * p) * (q * q)
  {
  }

  /** The triangle inequality, for every triple of integer coordinates and every positive scale. */
  lemma Triangle(m: Maths, scale: real, a: Coord, b: Coord, c: Coord)
    requires Lawful(m) && scale > 0.0
    ensures Distance(m, scale, a, c) <= Distance(m, scale, a, b) + Distance(m, scale, b, c)
  {
    TriangleRoots(m, a, b, c);
    ScaledRoots(m, scale, a, b, c);
  }

  lemma ScaledRoots(m: Maths, scale: real, a: Coord, b: Coord, c: Coord)
    requires scale > 0.0 && RootOf(m, a, c) <= RootOf(m, a, b) + RootOf(m, b, c)
    ensures Distance(m, scale, a, c) <= Distance(m, scale, a, b) + Distance(m, scale, b, c)
  {
    ScaledSum(scale, RootOf(m, a, b), RootOf(m, b, c), RootOf(m, a, c));
  }

  function RootOf(m: Maths, a: Coord, b: Coord): real {
    m.sqrt(SquareDistance(a, b) as real)
  }

  lemma TriangleRoots(m: Maths, a: Coord, b: Coord, c: Coord)
    requires Lawful(m)
    ensures RootOf(m, a, c) <= RootOf(m, a, b) + RootOf(m, b, c)
  {
    var uv := Sides(a, b, c);
    SquareDistanceLaw(a, b);
    SquareDistanceLaw(b, c);
    SquareDistanceLaw(a, c);
    RootsOf(m, SquareDistance(a, b), SquareDistance(b, c), SquareDistance(a, c), uv);
  }

  /** Three squares as the law of cosines relates them. */
  predicate Cosines(uu: int, vv: int, ww: int, uv: int) {
    ww == uu + 2 * uv + vv && Sq(uv) <= uu * vv
  }

  lemma RootsOf(m: Maths, uu: int, vv: int, ww: int, uv: int)
    requires Lawful(m) && uu >= 0 && vv >= 0 && ww >= 0 && Cosines(uu, vv, ww, uv)
    ensures m.sqrt(ww as real) <= m.sqrt(uu as real) + m.sqrt(vv as real)
  {
    Legs(m.sqrt(uu as real), m.sqrt(vv as real), m.sqrt(ww as real), uu, vv, uv);
  }

  lemma Sides(a: Coord, b: Coord, c: Coord) returns (uv: int)
    ensures Cosines(SquareDistance(a, b), SquareDistance(b, c), SquareDistance(a, c), uv)
  {
    var u, v := Minus(a, b), Minus(b, c);
    uv := Dot(u, v);
    Expand(a, b, c);
    CauchySchwarz(u, v);
  }

  lemma Root(m: Maths, a: Coord, b: Coord)
    requires Lawful(m)
    ensures RootOf(m, a, b) >= 0.0 && RootOf(m, a, b) * RootOf(m, a, b) == SquareDistance(a, b) as real
  {
    SquareDistanceLaw(a, b);
  }

  lemma ScaledSum(scale: real, p: real, q: real, r: real)
    requires scale > 0.0 && r <= p + q
    ensures scale * r <= scale * p + scale * q
  {
    assert scale * (p + q - r) >= 0.0;
  }

  /** From the squares of the three lengths to the lengths. */
  lemma Legs(p: real, q: real, r: real, uu: int, vv: int, uv: int)
    requires p >= 0.0 && q >= 0.0 && r >= 0.0
    requires p * p == uu as real && q * q == vv as real && r * r == (uu + 2 * uv + vv) as real
    requires Sq(uv) <= uu * vv
    ensures r <= p + q
  {
    ProductReal(uv, uv);
    ProductReal(uu, vv);
    SquareOfProduct(p, q);
    assert p * q >= 0.0;
    SquaresOrdered(uv as real, p * q);
    SquareOfSum(p, q);
    SquaresOrdered(r, p + q);
  }

  lemma ProductReal(a: int, b: int)
    ensures (a * b) as real == a as real * b as real
  {
  }

  const INT_MAX := 0x7fff_ffff

  predicate InInt(n: int) {
    -INT_MAX - 1 <= n <= INT_MAX
  }

  /** Every intermediate value of DistanceWith fits a 32-bit int. */
  predicate Exact(a: Coord, b: Coord) {
    && InInt(a.x - b.x) && InInt(a.y - b.y) && InInt(a.z - b.z)
    && InInt(Sq(a.x - b.x)) && InInt(Sq(a.y - b.y)) && InInt(Sq(a.z - b.z))
    && InInt(Sq(a.x - b.x) + Sq(a.y - b.y)) && InInt(SquareDistance(a, b))
  }

  predicate Within(a: Coord, bound: nat) {
    0 - bound <= a.x <= bound && 0 - bound <= a.y <= bound && 0 - bound <= a.z <= bound
  }

  /** All points of a cube [-bound, bound]^3 have exact distances if and only if bound <= 13377. */
  lemma ExactCube(bound: nat)
    ensures (forall a, b :: Within(a, bound) && Within(b, bound) ==> Exact(a, b)) <==> bound <= 13377
  {
    if bound <= 13377 {
      forall a, b | Within(a, bound) && Within(b, bound) ensures Exact(a, b) {
        SqBound(a.x - b.x, 26754);
        SqBound(a.y - b.y, 26754);
        SqBound(a.z - b.z, 26754);
      }
    } else {
      var a, b := Coord(13378, 13378, 13378), Coord(-13378, -13378, -13378);
      assert Within(a, bound) && Within(b, bound) && !Exact(a, b);
    }
  }

  lemma SqBound(n: int, bound: nat)
    requires 0 - bound <= n <= bound
    ensures 0 <= Sq(n) <= Sq(bound)
  {
    if n >= 0 {
      assert n * n <= bound * n <= bound * bound;
    } else {
      assert (-n) * (-n) <= bound * (-n) <= bound * bound;
    }
  }

  // ---------- attenuation and loss ----------

  const CONSTANTE_C := 92.45
  const TPOWER_MAX := -10
  const TPOWER_MIN := -128

  /** The conversion of a double to int drops the fraction. */
  function Trunc(x: real): int {
    if x >= 0.0 then x.Floor else -(-x).Floor
  }

  function Attenuation(m: Maths, distance: real, frequency: nat): int {
    if distance == 0.0 then 0
    else Trunc(CONSTANTE_C + 20.0 * (m.log10(frequency as real) - 3.0) + 20.0 * (m.log10(distance) - 3.0))
  }

  function BoundedPower(power: int): (p: Power)
    ensures TPOWER_MIN <= p <= TPOWER_MAX
  {
    if power < TPOWER_MIN then TPOWER_MIN
    else if power > TPOWER_MAX then TPOWER_MAX
    else power
  }

  /** The level at which a receiver at this distance gets a signal of this power. */
  function Level(m: Maths, power: Power, distance: real, frequency: nat): Power {
    BoundedPower(power - Attenuation(m, distance, frequency))
  }

  const DRAWS := 53

  /** PacketIsLost, `draw` being the value of rand(). */
  predicate PacketIsLost(level: Power, draw: nat) {
    !(draw % DRAWS + 40 > 0 - level)
  }

  /** `n` is `x` without its fraction. */
  predicate WholePart(x: real, n: int) {
    if x >= 0.0 then 0 <= n && n as real <= x < (n + 1) as real
    else n <= 0 && (n - 1) as real < x <= n as real
  }

  lemma TruncLaw(x: real)
    ensures WholePart(x, Trunc(x))
  {
  }

  /** The decibels lost at distance `d` : nothing at distance zero, else the free-space formula without its fraction. */
  predicate Loses(m: Maths, d: real, frequency: nat, decibels: int) {
    if d == 0.0 then decibels == 0
    else WholePart(92.45 + 20.0 * (m.log10(frequency as real) - 3.0) + 20.0 * (m.log10(d) - 3.0), decibels)
  }

  /** `r` is the distance between two places before it is scaled. */
  predicate Apart(a: Coord, b: Coord, r: real) {
    && r >= 0.0
    && r * r == ((a.x - b.x) * (a.x - b.x) + (a.y - b.y) * (a.y - b.y) + (a.z - b.z) * (a.z - b.z)) as real
  }

  /** A signal of this power has level `level` after so many decibels : within [-128, -10]. */
  predicate Arrives(power: Power, decibels: int, level: Power) {
    level == if power - decibels < -128 then -128 else if power - decibels > -10 then -10 else power - decibels
  }

  /** The level of a signal, from the two places. */
  lemma LevelLaw(m: Maths, scale: real, power: Power, a: Coord, b: Coord, frequency: nat) returns (r: real, decibels: int)
    requires Lawful(m)
    ensures Apart(a, b, r) && Loses(m, scale * r, frequency, decibels)
    ensures Arrives(power, decibels, Level(m, power, Distance(m, scale, a, b), frequency))
    ensures a == b ==> decibels == 0
  {
    r, decibels := RootOf(m, a, b), Attenuation(m, Distance(m, scale, a, b), frequency);
    Root(m, a, b);
    SquareDistanceLaw(a, b);
    var d := Distance(m, scale, a, b);
    if d != 0.0 {
      TruncLaw(92.45 + 20.0 * (m.log10(frequency as real) - 3.0) + 20.0 * (m.log10(d) - 3.0));
    }
    if a == b {
      NoRoot(r);
    }
  }

  lemma NoRoot(r: real)
    requires r >= 0.0 && r * r == 0.0
    ensures r == 0.0
  {
    Scaled(1.0, r);
  }

  lemma TruncMonotone(x: real, y: real)
    requires x <= y
    ensures Trunc(x) <= Trunc(y)
  {
  }

  lemma AttenuationMonotone(m: Maths, near: real, far: real, frequency: nat)
    requires Lawful(m) && 0.0 < near <= far
    ensures Attenuation(m, near, frequency) <= Attenuation(m, far, frequency)
  {
    var f := CONSTANTE_C + 20.0 * (m.log10(frequency as real) - 3.0);
    assert m.log10(near) <= m.log10(far);
    TruncMonotone(f + 20.0 * (m.log10(near) - 3.0), f + 20.0 * (m.log10(far) - 3.0));
  }

  /** With the same draw, who gets the frame implies that everyone closer gets it, at least as loud. */
  lemma LossMonotone(m: Maths, power: Power, near: real, far: real, frequency: nat, draw: nat)
    requires Lawful(m) && 0.0 < near <= far
    ensures Level(m, power, near, frequency) >= Level(m, power, far, frequency)
    ensures !PacketIsLost(Level(m, power, far, frequency), draw) ==>
              !PacketIsLost(Level(m, power, near, frequency), draw)
  {
    AttenuationMonotone(m, near, far, frequency);
  }

  /**
    At distance zero nothing is attenuated, and monotony ends there : a receiver at d > 0 is louder
    than one at 0 exactly when the product of frequency and distance is small.
   */
  lemma ZeroDistance(m: Maths, power: Power, d: real, frequency: nat)
    requires d > 0.0 && TPOWER_MIN <= power < TPOWER_MAX
    ensures Level(m, power, d, frequency) > Level(m, power, 0.0, frequency)
       <==> 20.0 * m.log10(frequency as real) + 20.0 * m.log10(d) <= 26.55
  {
    TruncNegative(CONSTANTE_C + 20.0 * (m.log10(frequency as real) - 3.0) + 20.0 * (m.log10(d) - 3.0));
  }

  lemma TruncNegative(x: real)
    ensures Trunc(x) < 0 <==> x <= -1.0
  {
  }

  /** Two values of the decimal logarithm. */
  predicate Decimal(m: Maths) {
    m.log10(10000.0) == 4.0 && m.log10(0.001) == -3.0
  }

  /** There are such receivers : channel 1 and neighbours at distance 1, with the scale 0.001. */
  lemma LouderNearby(m: Maths)
    requires Lawful(m) && Decimal(m)
    ensures Distance(m, 0.001, Coord(0, 0, 0), Coord(1, 0, 0)) == 0.001
    ensures Level(m, -50, 0.001, 2412) > Level(m, -50, 0.0, 2412)
  {
    Root(m, Coord(0, 0, 0), Coord(1, 0, 0));
    UnitRoot(RootOf(m, Coord(0, 0, 0), Coord(1, 0, 0)));
    assert m.log10(2412.0) <= m.log10(10000.0);
    ZeroDistance(m, -50, 0.001, 2412);
  }

  lemma UnitRoot(r: real)
    requires r >= 0.0 && r * r == 1.0
    ensures r == 1.0
  {
    SquaresOrdered(r, 1.0);
    SquaresOrdered(1.0, r);
  }

  function Clamp(n: int, lo: int, hi: int): int {
    if n < lo then lo else if n > hi then hi else n
  }

  /** The frame is lost with any value of rand() exactly when its residue is below the threshold of the level. */
  lemma LossDraw(level: Power, k: nat, r: nat)
    requires r < 53
    ensures PacketIsLost(level, 53 * k + r) <==> r < Clamp(0 - level - 39, 0, 53)
  {
    Residue(k, r);
  }

  lemma Residue(k: nat, r: nat)
    requires r < 53
    ensures (53 * k + r) % 53 == r
  {
  }

  function LosingDraws(level: Power): set<nat> {
    set r: nat | 0 <= r < DRAWS && PacketIsLost(level, r)
  }

  /** 0, ..., n-1 */
  function Below(n: nat): (s: set<nat>)
    ensures |s| == n && forall r: nat :: r in s <==> r < n
  {
    if n == 0 then {} else Below(n - 1) + {n - 1}
  }

  /** Exactly clamp(-level-39, 0, 53) of the 53 residues lose the frame. */
  lemma LossCount(level: Power)
    ensures |LosingDraws(level)| == Clamp(0 - level - 39, 0, 53)
    ensures LosingDraws(level) == {} <==> level >= -39
    ensures |LosingDraws(level)| == 53 <==> level <= -92
  {
    var n := Clamp(0 - level - 39, 0, DRAWS);
    assert LosingDraws(level) == Below(n);
    if n > 0 {
      assert 0 in Below(n);
    }
  }
}
