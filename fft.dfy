/** The grid index arithmetic of fft.c: the eight corners read by
    trilinear_interpolate_values, and the scatter of plane-wave coefficients
    into the flattened FFT grid that starts fft3d. The transform itself and
    the phase factors that follow it are not part of this model. */
module Fft {
  import opened Numbers

  /** fftg: the FFT grid dimensions. */
  datatype Grid = Grid(f0: int, f1: int, f2: int)

  predicate Positive(g: Grid)
  {
    g.f0 > 0 && g.f1 > 0 && g.f2 > 0
  }

  function Size(g: Grid): int
  {
    g.f0 * g.f1 * g.f2
  }

  /** A point in fractional coordinates. */
  datatype Frac = Frac(x0: real, x1: real, x2: real)

  /** The point lies in the unit cell, as every caller reduces it. Outside
      it the indices can leave the grid and x is read out of bounds. */
  predicate InUnitCell(frac: Frac)
  {
    0.0 <= frac.x0 < 1.0 && 0.0 <= frac.x1 < 1.0 && 0.0 <= frac.x2 < 1.0
  }

  lemma ScaledBelow(x: real, f: int)
    requires 0.0 <= x < 1.0 && f > 0
    ensures 0.0 <= x * (f as real) < f as real
  {
  }

  /** The base cell index along one axis, (int) (frac * f): a cell of the
      grid. */
  function Cell(x: real, f: int): (r: int)
    requires 0.0 <= x < 1.0 && f > 0
    ensures 0 <= r < f
  {
    ScaledBelow(x, f);
    Trunc(x * (f as real))
  }

  /** The neighbouring cell along one axis, wrapping past the last cell
      back to 0. */
  function Next(i: int, f: int): (r: int)
    requires 0 <= i < f
    ensures 0 <= r < f
  {
    if i == f - 1 then 0 else i + 1
  }

  /** C's (i + 1) % f is that neighbour. */
  lemma NextIsRemainder(i: int, f: int)
    requires 0 <= i < f
    ensures CMod(i + 1, f) == Next(i, f)
  {
    CModSmall(i + 1, f);
    if i == f - 1 {
      DivModUnique(1, 0, f);
    } else {
      DivModUnique(0, i + 1, f);
    }
  }

  /** Corner n of the cell around frac, n in 0 .. 7 read as three bits:
      bit 2 picks i or ip, bit 1 picks j or jp, bit 0 picks k or kp. This
      is the order c000, c001, ..., c111 of the values array. */
  function CornerIndex(g: Grid, frac: Frac, n: int): (r: int)
    requires Positive(g) && InUnitCell(frac)
    ensures 0 <= r < Size(g)
  {
    var i, j, k := Cell(frac.x0, g.f0), Cell(frac.x1, g.f1), Cell(frac.x2, g.f2);
    var a := if (n / 4) % 2 == 1 then Next(i, g.f0) else i;
    var b := if (n / 2) % 2 == 1 then Next(j, g.f1) else j;
    var c := if n % 2 == 1 then Next(k, g.f2) else k;
    FlatBounds(a, b, c, g.f0, g.f1, g.f2);
    Flat(a, b, c, g.f1, g.f2)
  }

  /** The eight corners, in the order of ind. */
  function Corners(g: Grid, frac: Frac): (r: seq<int>)
    requires Positive(g) && InUnitCell(frac)
    ensures |r| == 8
  {
    [CornerIndex(g, frac, 0), CornerIndex(g, frac, 1), CornerIndex(g, frac, 2), CornerIndex(g, frac, 3),
     CornerIndex(g, frac, 4), CornerIndex(g, frac, 5), CornerIndex(g, frac, 6), CornerIndex(g, frac, 7)]
  }

  lemma CornersAt(g: Grid, frac: Frac, n: int)
    requires Positive(g) && InUnitCell(frac) && 0 <= n < 8
    ensures Corners(g, frac)[n] == CornerIndex(g, frac, n)
  {
    if n == 0 {
    } else if n == 1 {
    } else if n == 2 {
    } else if n == 3 {
    } else if n == 4 {
    } else if n == 5 {
    } else if n == 6 {
    } else {
      assert n == 7;
    }
  }

  /** The corners written out, as the source lists them. */
  lemma CornersListed(g: Grid, frac: Frac)
    requires Positive(g) && InUnitCell(frac)
    ensures var i, j, k := Cell(frac.x0, g.f0), Cell(frac.x1, g.f1), Cell(frac.x2, g.f2);
      var ip, jp, kp := Next(i, g.f0), Next(j, g.f1), Next(k, g.f2);
      Corners(g, frac) == [Flat(i, j, k, g.f1, g.f2), Flat(i, j, kp, g.f1, g.f2),
                           Flat(i, jp, k, g.f1, g.f2), Flat(i, jp, kp, g.f1, g.f2),
                           Flat(ip, j, k, g.f1, g.f2), Flat(ip, j, kp, g.f1, g.f2),
                           Flat(ip, jp, k, g.f1, g.f2), Flat(ip, jp, kp, g.f1, g.f2)]
  {
  }

  /** Three bits name a corner: two corners with the same bits are the same. */
  lemma BitsDetermine(n: int, m: int)
    requires 0 <= n < 8 && 0 <= m < 8
    requires (n / 4) % 2 == (m / 4) % 2 && (n / 2) % 2 == (m / 2) % 2 && n % 2 == m % 2
    ensures n == m
  {
  }

  /** With at least two cells along every axis the eight corners are eight
      different grid points. */
  lemma CornersDistinct(g: Grid, frac: Frac, n: int, m: int)
    requires Positive(g) && g.f0 >= 2 && g.f1 >= 2 && g.f2 >= 2 && InUnitCell(frac)
    requires 0 <= n < 8 && 0 <= m < 8 && n != m
    ensures CornerIndex(g, frac, n) != CornerIndex(g, frac, m)
  {
    var i, j, k := Cell(frac.x0, g.f0), Cell(frac.x1, g.f1), Cell(frac.x2, g.f2);
    var a := if (n / 4) % 2 == 1 then Next(i, g.f0) else i;
    var b := if (n / 2) % 2 == 1 then Next(j, g.f1) else j;
    var c := if n % 2 == 1 then Next(k, g.f2) else k;
    var a' := if (m / 4) % 2 == 1 then Next(i, g.f0) else i;
    var b' := if (m / 2) % 2 == 1 then Next(j, g.f1) else j;
    var c' := if m % 2 == 1 then Next(k, g.f2) else k;
    if Flat(a, b, c, g.f1, g.f2) == Flat(a', b', c', g.f1, g.f2) {
      assert a == a' && b == b' && c == c' by {
        FlatInjective(a, b, c, a', b', c', g.f0, g.f1, g.f2);
      }
      BitsDetermine(n, m);
    }
  }

  /** The eight ind entries written out one by one, from the base cell
      (i, j, k) and its neighbours (ip, jp, kp). */
  method WriteCorners(i: int, j: int, k: int, ip: int, jp: int, kp: int, f1: int, f2: int)
    returns (ind: array<int>)
    ensures fresh(ind)
    ensures ind[..] == [Flat(i, j, k, f1, f2), Flat(i, j, kp, f1, f2), Flat(i, jp, k, f1, f2),
                        Flat(i, jp, kp, f1, f2), Flat(ip, j, k, f1, f2), Flat(ip, j, kp, f1, f2),
                        Flat(ip, jp, k, f1, f2), Flat(ip, jp, kp, f1, f2)]
  {
    ind := new int[8];
    ind[0] := i * f1 * f2 + j * f2 + k;
    ind[1] := i * f1 * f2 + j * f2 + kp;
    ind[2] := i * f1 * f2 + jp * f2 + k;
    ind[3] := i * f1 * f2 + jp * f2 + kp;
    ind[4] := ip * f1 * f2 + j * f2 + k;
    ind[5] := ip * f1 * f2 + j * f2 + kp;
    ind[6] := ip * f1 * f2 + jp * f2 + k;
    ind[7] := ip * f1 * f2 + jp * f2 + kp;
  }

  /** The ind entries the source writes are the corners. */
  lemma CornersComputed(g: Grid, frac: Frac, i: int, j: int, k: int, ip: int, jp: int, kp: int, ind: seq<int>)
    requires Positive(g) && InUnitCell(frac)
    requires i == Cell(frac.x0, g.f0) && j == Cell(frac.x1, g.f1) && k == Cell(frac.x2, g.f2)
    requires ip == Next(i, g.f0) && jp == Next(j, g.f1) && kp == Next(k, g.f2)
    requires ind == [Flat(i, j, k, g.f1, g.f2), Flat(i, j, kp, g.f1, g.f2), Flat(i, jp, k, g.f1, g.f2),
                     Flat(i, jp, kp, g.f1, g.f2), Flat(ip, j, k, g.f1, g.f2), Flat(ip, j, kp, g.f1, g.f2),
                     Flat(ip, jp, k, g.f1, g.f2), Flat(ip, jp, kp, g.f1, g.f2)]
    ensures forall n :: 0 <= n < 8 ==> ind[n] == CornerIndex(g, frac, n)
  {
    assert ind == Corners(g, frac) by {
      CornersListed(g, frac);
    }
    forall n | 0 <= n < 8
      ensures ind[n] == CornerIndex(g, frac, n)
    {
      CornersAt(g, frac, n);
    }
  }

  /** The first half of trilinear_interpolate_values: the base cell, its
      neighbours (i + 1) % f with C's remainder, and the eight ind entries. */
  method CornerIndices(frac: Frac, g: Grid) returns (ind: array<int>)
    requires Positive(g) && InUnitCell(frac)
    ensures fresh(ind) && ind.Length == 8
    ensures forall n :: 0 <= n < 8 ==> ind[n] == CornerIndex(g, frac, n)
  {
    var i := Cell(frac.x0, g.f0);
    var j := Cell(frac.x1, g.f1);
    var k := Cell(frac.x2, g.f2);
    var ip := CMod(i + 1, g.f0);
    var jp := CMod(j + 1, g.f1);
    var kp := CMod(k + 1, g.f2);
    assert ip == Next(i, g.f0) && jp == Next(j, g.f1) && kp == Next(k, g.f2) by {
      NextIsRemainder(i, g.f0);
      NextIsRemainder(j, g.f1);
      NextIsRemainder(k, g.f2);
    }
    ind := WriteCorners(i, j, k, ip, jp, kp, g.f1, g.f2);
    CornersComputed(g, frac, i, j, k, ip, jp, kp, ind[..]);
  }

  /** trilinear_interpolate_values on a grid buffer x of f0*f1*f2 entries:
      values[n] is copied from x[ind[n]], real and imaginary part; x is
      only read. */
  method TrilinearInterpolateValues(x: array<Complex>, frac: Frac, g: Grid, values: array<Complex>)
    requires Positive(g) && InUnitCell(frac) && x.Length == Size(g)
    requires values.Length == 8 && x != values
    modifies values
    ensures forall n :: 0 <= n < 8 ==> values[n] == x[CornerIndex(g, frac, n)]
  {
    var ind := CornerIndices(frac, g);
    for n := 0 to 8
      invariant forall m :: 0 <= m < 8 ==> ind[m] == CornerIndex(g, frac, m)
      invariant forall m :: 0 <= m < n ==> values[m] == x[CornerIndex(g, frac, m)]
    {
      values[n] := Complex(x[ind[n]].re, x[ind[n]].im);
    }
  }

  /** The Miller indices of plane wave w, Gs[3w .. 3w+2], less the minima
      G_bounds[0], G_bounds[2], G_bounds[4]. */
  function Shifted(gBounds: seq<int>, gs: seq<int>, w: int): (int, int, int)
    requires |gBounds| >= 6 && 0 <= w && 3 * w + 2 < |gs|
  {
    (gs[3 * w] - gBounds[0], gs[3 * w + 1] - gBounds[2], gs[3 * w + 2] - gBounds[4])
  }

  /** The flattened grid index of plane wave w. */
  function WaveIndex(g: Grid, gBounds: seq<int>, gs: seq<int>, w: int): int
    requires |gBounds| >= 6 && 0 <= w && 3 * w + 2 < |gs|
  {
    var p := Shifted(gBounds, gs, w);
    Flat(p.0, p.1, p.2, g.f1, g.f2)
  }

  /** Plane wave w, shifted by the minima, is a point of the grid. */
  predicate WaveInGrid(g: Grid, gBounds: seq<int>, gs: seq<int>, w: int)
    requires |gBounds| >= 6 && 0 <= w && 3 * w + 2 < |gs|
  {
    var p := Shifted(gBounds, gs, w);
    InGrid(p.0, p.1, p.2, g.f0, g.f1, g.f2)
  }

  lemma WaveIndexBounds(g: Grid, gBounds: seq<int>, gs: seq<int>, w: int)
    requires |gBounds| >= 6 && 0 <= w && 3 * w + 2 < |gs| && WaveInGrid(g, gBounds, gs, w)
    ensures 0 <= WaveIndex(g, gBounds, gs, w) < Size(g)
  {
    var p := Shifted(gBounds, gs, w);
    FlatBounds(p.0, p.1, p.2, g.f0, g.f1, g.f2);
  }

  /** Two waves inside the grid with the same index are the same wave. */
  lemma WaveIndexInjective(g: Grid, gBounds: seq<int>, gs: seq<int>, v: int, w: int)
    requires |gBounds| >= 6 && 0 <= v && 3 * v + 2 < |gs| && 0 <= w && 3 * w + 2 < |gs|
    requires WaveInGrid(g, gBounds, gs, v) && WaveInGrid(g, gBounds, gs, w)
    requires WaveIndex(g, gBounds, gs, v) == WaveIndex(g, gBounds, gs, w)
    ensures Shifted(gBounds, gs, v) == Shifted(gBounds, gs, w)
  {
    var p, q := Shifted(gBounds, gs, v), Shifted(gBounds, gs, w);
    FlatInjective(p.0, p.1, p.2, q.0, q.1, q.2, g.f0, g.f1, g.f2);
  }

  /** The grid after the first n coefficients have been written, each at its
      wave's index. */
  function Scatter(a: seq<Complex>, g: Grid, gBounds: seq<int>, gs: seq<int>, cs: seq<Complex>, n: nat)
    : (r: seq<Complex>)
    requires |gBounds| >= 6 && 3 * n <= |gs| && n <= |cs|
    requires forall w :: 0 <= w < n ==> 0 <= WaveIndex(g, gBounds, gs, w) < |a|
    ensures |r| == |a|
  {
    if n == 0 then a
    else Scatter(a, g, gBounds, gs, cs, n - 1)[WaveIndex(g, gBounds, gs, n - 1) := cs[n - 1]]
  }

  /** An entry no wave maps to keeps its value. */
  lemma {:induction false} ScatterUntouched(a: seq<Complex>, g: Grid, gBounds: seq<int>, gs: seq<int>,
                                            cs: seq<Complex>, n: nat, q: int)
    requires |gBounds| >= 6 && 3 * n <= |gs| && n <= |cs|
    requires forall w :: 0 <= w < n ==> 0 <= WaveIndex(g, gBounds, gs, w) < |a|
    requires 0 <= q < |a| && forall w :: 0 <= w < n ==> WaveIndex(g, gBounds, gs, w) != q
    ensures Scatter(a, g, gBounds, gs, cs, n)[q] == a[q]
  {
    if n > 0 {
      ScatterUntouched(a, g, gBounds, gs, cs, n - 1, q);
    }
  }

  /** The entry wave w maps to holds coefficient w, unless a later wave
      maps to the same entry. */
  lemma {:induction false} ScatterWritten(a: seq<Complex>, g: Grid, gBounds: seq<int>, gs: seq<int>,
                                          cs: seq<Complex>, n: nat, w: int)
    requires |gBounds| >= 6 && 3 * n <= |gs| && n <= |cs|
    requires forall v :: 0 <= v < n ==> 0 <= WaveIndex(g, gBounds, gs, v) < |a|
    requires 0 <= w < n
    requires forall v :: w < v < n ==> WaveIndex(g, gBounds, gs, v) != WaveIndex(g, gBounds, gs, w)
    ensures Scatter(a, g, gBounds, gs, cs, n)[WaveIndex(g, gBounds, gs, w)] == cs[w]
  {
    if w < n - 1 {
      ScatterWritten(a, g, gBounds, gs, cs, n - 1, w);
    }
  }

  /** Distinct plane waves inside the grid land on distinct entries, so
      after the scatter every wave's entry holds its own coefficient. */
  lemma ScatterDistinctWaves(a: seq<Complex>, g: Grid, gBounds: seq<int>, gs: seq<int>, cs: seq<Complex>,
                             n: nat, w: int)
    requires |gBounds| >= 6 && 3 * n <= |gs| && n <= |cs| && |a| == Size(g)
    requires forall v :: 0 <= v < n ==> WaveInGrid(g, gBounds, gs, v)
    requires forall v, u :: 0 <= v < u < n ==> Shifted(gBounds, gs, v) != Shifted(gBounds, gs, u)
    requires 0 <= w < n
    ensures forall v :: 0 <= v < n ==> 0 <= WaveIndex(g, gBounds, gs, v) < |a|
    ensures Scatter(a, g, gBounds, gs, cs, n)[WaveIndex(g, gBounds, gs, w)] == cs[w]
  {
    forall v | 0 <= v < n
      ensures 0 <= WaveIndex(g, gBounds, gs, v) < |a|
    {
      WaveIndexBounds(g, gBounds, gs, v);
    }
    forall v | w < v < n
      ensures WaveIndex(g, gBounds, gs, v) != WaveIndex(g, gBounds, gs, w)
    {
      if WaveIndex(g, gBounds, gs, v) == WaveIndex(g, gBounds, gs, w) {
        WaveIndexInjective(g, gBounds, gs, v, w);
        assert false;
      }
    }
    ScatterWritten(a, g, gBounds, gs, cs, n, w);
  }

  /** The loop at the start of fft3d: coefficient w is written, real part
      then imaginary part, at the index of wave w. Nothing else in x
      changes. */
  method ScatterCoefficients(x: array<Complex>, gBounds: seq<int>, gs: seq<int>, cs: seq<Complex>,
                             numWaves: nat, g: Grid)
    requires |gBounds| >= 6 && 3 * numWaves <= |gs| && numWaves <= |cs|
    requires forall w :: 0 <= w < numWaves ==> 0 <= WaveIndex(g, gBounds, gs, w) < x.Length
    modifies x
    ensures x[..] == Scatter(old(x[..]), g, gBounds, gs, cs, numWaves)
  {
    for w := 0 to numWaves
      invariant x[..] == Scatter(old(x[..]), g, gBounds, gs, cs, w)
    {
      var g1, g2, g3 := gs[3 * w] - gBounds[0], gs[3 * w + 1] - gBounds[2], gs[3 * w + 2] - gBounds[4];
      var q := g1 * g.f1 * g.f2 + g2 * g.f2 + g3;
      assert q == WaveIndex(g, gBounds, gs, w);
      x[q] := Complex(cs[w].re, x[q].im);
      x[q] := Complex(x[q].re, cs[w].im);
    }
  }
}
