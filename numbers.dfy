/** Numeric building blocks: complex numbers as pairs of reals, 3-vectors and
    3x3 matrices, C's truncating conversions and remainder, and the row-major
    index of a point of a three-dimensional grid. */
module Numbers {

  /** A complex number (C's double complex or float complex, numpy's complex128). */
  datatype Complex = Complex(re: real, im: real)

  const Zero: Complex := Complex(0.0, 0.0)

  function Add(a: Complex, b: Complex): Complex
  {
    Complex(a.re + b.re, a.im + b.im)
  }

  function Mul(a: Complex, b: Complex): Complex
  {
    Complex(a.re * b.re - a.im * b.im, a.re * b.im + a.im * b.re)
  }

  function Conj(a: Complex): Complex
  {
    Complex(a.re, -a.im)
  }

  /** |a|^2, which is also creal(a * conj(a)). */
  function AbsSq(a: Complex): (r: real)
    ensures r >= 0.0
  {
    a.re * a.re + a.im * a.im
  }

  lemma AbsSqIsProductWithConjugate(a: Complex)
    ensures Mul(a, Conj(a)) == Complex(AbsSq(a), 0.0)
  {
  }

  /** b * conj(a) is the conjugate of a * conj(b). */
  lemma MulConjSwap(a: Complex, b: Complex)
    ensures Mul(b, Conj(a)) == Conj(Mul(a, Conj(b)))
  {
    assert b.re * a.re == a.re * b.re && b.im * a.im == a.im * b.im;
    assert b.re * -a.im == -(a.im * b.re) && b.im * a.re == a.re * b.im;
  }

  lemma ConjAdd(a: Complex, b: Complex)
    ensures Conj(Add(a, b)) == Add(Conj(a), Conj(b))
  {
  }

  /** A vector of three reals: a k-point, a translation, a fractional coordinate. */
  datatype Vec3 = Vec3(x: real, y: real, z: real)

  function Sub(a: Vec3, b: Vec3): Vec3
  {
    Vec3(a.x - b.x, a.y - b.y, a.z - b.z)
  }

  function NormSq(a: Vec3): real
  {
    a.x * a.x + a.y * a.y + a.z * a.z
  }

  function Components(a: Vec3): (r: seq<real>)
    ensures |r| == 3
  {
    [a.x, a.y, a.z]
  }

  /** A 3x3 matrix given by its rows. */
  datatype Mat3 = Mat3(r0: Vec3, r1: Vec3, r2: Vec3)

  /** numpy's row-major flatten() of a 3x3 matrix. */
  function Flatten(m: Mat3): (r: seq<real>)
    ensures |r| == 9
  {
    Components(m.r0) + Components(m.r1) + Components(m.r2)
  }

  /** The inverse of Flatten. */
  function Unflatten(s: seq<real>): Mat3
    requires |s| == 9
  {
    Mat3(Vec3(s[0], s[1], s[2]), Vec3(s[3], s[4], s[5]), Vec3(s[6], s[7], s[8]))
  }

  lemma FlattenRoundTrip(m: Mat3)
    ensures Unflatten(Flatten(m)) == m
  {
  }

  /** C's (int) conversion of a double: rounds toward zero. */
  function Trunc(x: real): (r: int)
    ensures 0.0 <= x ==> r as real <= x < r as real + 1.0
    ensures x < 0.0 ==> r as real - 1.0 < x <= r as real
  {
    if x >= 0.0 then x.Floor else -((-x).Floor)
  }

  /** C's remainder a % b, whose sign follows a (Dafny's % is Euclidean). */
  function CMod(a: int, b: int): (r: int)
    requires b != 0
  {
    if a >= 0 then a % (if b > 0 then b else -b)
    else -((-a) % (if b > 0 then b else -b))
  }

  lemma CModSmall(a: int, b: int)
    requires 0 <= a && b > 0
    ensures CMod(a, b) == a % b && 0 <= CMod(a, b) < b
  {
  }

  /** Row-major index of grid point (i, j, k) in an f0 x f1 x f2 grid,
      written as C writes it: i*f1*f2 + j*f2 + k. */
  function Flat(i: int, j: int, k: int, f1: int, f2: int): int
  {
    i * f1 * f2 + j * f2 + k
  }

  predicate InGrid(i: int, j: int, k: int, f0: int, f1: int, f2: int)
  {
    0 <= i < f0 && 0 <= j < f1 && 0 <= k < f2
  }

  lemma MulSucc(k: int, w: int)
    ensures (k + 1) * w == k * w + w
  {
  }

  lemma MulMonotone(a: int, b: int, c: int)
    requires 0 <= a <= b && 0 <= c
    ensures a * c <= b * c
  {
  }

  /** Every point of the grid has an index in [0, f0*f1*f2). */
  lemma FlatBounds(i: int, j: int, k: int, f0: int, f1: int, f2: int)
    requires InGrid(i, j, k, f0, f1, f2)
    ensures 0 <= Flat(i, j, k, f1, f2) < f0 * f1 * f2
  {
    assert Flat(i, j, k, f1, f2) == (i * f1 + j) * f2 + k;
    assert 0 <= i * f1 + j <= f0 * f1 - 1 by {
      MulMonotone(i, f0 - 1, f1);
    }
    MulMonotone(i * f1 + j, f0 * f1 - 1, f2);
    assert (f0 * f1 - 1) * f2 + k < f0 * f1 * f2;
  }

  /** Dividing a * d + r by d with 0 <= r < d gives back a and r. */
  lemma DivModUnique(a: int, r: int, d: int)
    requires d > 0 && 0 <= r < d
    ensures (a * d + r) / d == a && (a * d + r) % d == r
  {
    var x := a * d + r;
    var q := x / d;
    var s := x % d;
    assert x == q * d + s;
    assert (q - a) * d == r - s;
    if q > a {
      MulMonotone(1, q - a, d);
    } else if q < a {
      MulMonotone(1, a - q, d);
    }
  }

  /** A quotient by d > 0 of something below n * d is below n. */
  lemma QuotientBelow(q: int, n: nat, d: int)
    requires d > 0
    ensures q < n * d ==> q / d < n
  {
    if q / d >= n {
      MulMonotone(n, q / d, d);
    }
  }

  /** A flat index below n * d splits into a quotient below n and a
      remainder below d. */
  lemma FlatDecode(q: int, n: nat, d: nat)
    requires 0 <= q < n * d
    ensures d > 0 && 0 <= q / d < n && 0 <= q % d < d
  {
    assert d != 0 by {
      assert n * 0 == 0;
    }
    QuotientBelow(q, n, d);
  }

  /** The index determines the point: the grid is laid out without collisions. */
  lemma FlatInjective(i: int, j: int, k: int, i': int, j': int, k': int,
                      f0: int, f1: int, f2: int)
    requires InGrid(i, j, k, f0, f1, f2) && InGrid(i', j', k', f0, f1, f2)
    requires Flat(i, j, k, f1, f2) == Flat(i', j', k', f1, f2)
    ensures i == i' && j == j' && k == k'
  {
    assert Flat(i, j, k, f1, f2) == (i * f1 + j) * f2 + k;
    assert Flat(i', j', k', f1, f2) == (i' * f1 + j') * f2 + k';
    DivModUnique(i * f1 + j, k, f2);
    DivModUnique(i' * f1 + j', k', f2);
    DivModUnique(i, j, f1);
    DivModUnique(i', j', f1);
  }

  /** Stepping the innermost coordinate, or carrying into the next one,
      moves the index by exactly one: a nested i, j, k loop visits the
      indices in increasing order. */
  lemma FlatCarry(i: int, j: int, f1: int, f2: int)
    ensures Flat(i, j, f2, f1, f2) == Flat(i, j + 1, 0, f1, f2)
    ensures Flat(i, f1, 0, f1, f2) == Flat(i + 1, 0, 0, f1, f2)
  {
    assert (j + 1) * f2 == j * f2 + f2;
    assert (i + 1) * f1 * f2 == i * f1 * f2 + f1 * f2;
  }
}
