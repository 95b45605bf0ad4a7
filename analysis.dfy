/** The analysis routines on top of the projections: proportion_conduction
    (how much of a defect band lies in the valence and in the conduction
    bands of the bulk) and defect_band_analysis (the same for a window of
    bands around the valence band maximum), each as written in
    wavefunction.py and in projector.py.

    The projection of a band (pseudoprojection, or single_band_projection)
    is given as a sequence; get_energy is the parameter `energy`. Python and
    numpy floats are modelled as exact reals, and numpy's float division by
    zero as the Ratio values NaN and Inf. */
module Analysis {
  import opened Numbers
  import opened Seqs
  import opened Errors

  /** A numpy float quotient: a number, nan (0/0) or an infinity (x/0). */
  datatype Ratio = Num(x: real) | NaN | Inf(positive: bool)

  /** a / t as numpy computes it on float64 values. */
  function Divide(a: real, t: real): Ratio
  {
    if t != 0.0 then Num(a / t) else if a == 0.0 then NaN else Inf(a > 0.0)
  }

  /** A wavefunction's band, k-point and spin counts. */
  datatype Dims = Dims(nband: nat, nwk: nat, nspin: nat)

  /** nband*nwk*nspin: the length of the occupation and projection arrays. */
  function Count(d: Dims): nat
  {
    d.nband * d.nwk * d.nspin
  }

  /** The flat index of (band b, spin s, k-point k): b*nspin*nwk + s*nwk + k. */
  function FlatIndex(d: Dims, b: int, s: int, k: int): int
  {
    Flat(b, s, k, d.nspin, d.nwk)
  }

  lemma CountPositive(d: Dims)
    ensures Count(d) > 0 ==> d.nband > 0 && d.nwk > 0 && d.nspin > 0
  {
    if d.nwk == 0 {
      assert d.nband * d.nwk == 0;
    }
  }

  /** The flat index of an in-range (b, s, k) is in range, and its k-point
      is recovered as i % nwk. */
  lemma FlatInRange(d: Dims, b: int, s: int, k: int)
    requires 0 <= b < d.nband && 0 <= s < d.nspin && 0 <= k < d.nwk
    ensures 0 <= FlatIndex(d, b, s, k) < Count(d)
    ensures FlatIndex(d, b, s, k) % d.nwk == k
  {
    FlatBounds(b, s, k, d.nband, d.nspin, d.nwk);
    assert d.nband * d.nspin * d.nwk == Count(d);
    assert FlatIndex(d, b, s, k) == (b * d.nspin + s) * d.nwk + k;
    DivModUnique(b * d.nspin + s, k, d.nwk);
  }

  /** What the loops read: the occupations and the projection have an entry
      per (band, spin, k-point) of the basis. */
  predicate Sized(occs: seq<real>, res: seq<Complex>, d: Dims)
  {
    |occs| >= Count(d) && |res| >= Count(d)
  }

  /** kws[i % nwk] exists for every i the loops visit. */
  predicate WeightsCover(kws: seq<real>, d: Dims)
  {
    Count(d) == 0 || d.nwk <= |kws|
  }

  /** |res[i]|^2 times the weight of entry i's k-point. */
  function Weighted(res: seq<Complex>, kws: seq<real>, nwk: nat, i: int): real
    requires 0 <= i < |res| && nwk > 0 && i % nwk < |kws|
  {
    AbsSq(res[i]) * kws[i % nwk]
  }

  /** (v, c) after the first n entries of the flat loop: entry i adds
      |res[i]|^2 * kws[i % nwk] / nspin to v when its occupation exceeds one
      half, and to c otherwise. */
  function FlatSums(occs: seq<real>, res: seq<Complex>, kws: seq<real>, d: Dims, n: nat): (real, real)
    requires Sized(occs, res, d) && WeightsCover(kws, d) && n <= Count(d)
  {
    if n == 0 then (0.0, 0.0)
    else
      CountPositive(d);
      var vc := FlatSums(occs, res, kws, d, n - 1);
      var x := Weighted(res, kws, d.nwk, n - 1) / (d.nspin as real);
      if occs[n - 1] > 0.5 then (vc.0 + x, vc.1) else (vc.0, vc.1 + x)
  }

  /** The sum of every entry's contribution, whatever its occupation. */
  function FlatTotal(occs: seq<real>, res: seq<Complex>, kws: seq<real>, d: Dims, n: nat): real
    requires Sized(occs, res, d) && WeightsCover(kws, d) && n <= Count(d)
  {
    if n == 0 then 0.0
    else
      CountPositive(d);
      FlatTotal(occs, res, kws, d, n - 1) + Weighted(res, kws, d.nwk, n - 1) / (d.nspin as real)
  }

  /** Every entry goes to exactly one of v and c. */
  lemma {:induction false} FlatSumsPartition(occs: seq<real>, res: seq<Complex>, kws: seq<real>, d: Dims, n: nat)
    requires Sized(occs, res, d) && WeightsCover(kws, d) && n <= Count(d)
    ensures FlatSums(occs, res, kws, d, n).0 + FlatSums(occs, res, kws, d, n).1 == FlatTotal(occs, res, kws, d, n)
  {
    if n > 0 {
      FlatSumsPartition(occs, res, kws, d, n - 1);
    }
  }

  /** The k-point weights the loops read are non-negative. */
  predicate WeightsNonnegative(kws: seq<real>, d: Dims)
  {
    forall k :: 0 <= k < d.nwk && k < |kws| ==> kws[k] >= 0.0
  }

  lemma {:induction false} FlatSumsNonnegative(occs: seq<real>, res: seq<Complex>, kws: seq<real>, d: Dims, n: nat)
    requires Sized(occs, res, d) && WeightsCover(kws, d) && n <= Count(d) && WeightsNonnegative(kws, d)
    ensures FlatSums(occs, res, kws, d, n).0 >= 0.0 && FlatSums(occs, res, kws, d, n).1 >= 0.0
  {
    if n > 0 {
      CountPositive(d);
      FlatSumsNonnegative(occs, res, kws, d, n - 1);
      var i := n - 1;
      assert 0 <= i % d.nwk < d.nwk;
      ProductNonnegative(AbsSq(res[i]), kws[i % d.nwk]);
    }
  }

  lemma ProductNonnegative(a: real, b: real)
    requires a >= 0.0 && b >= 0.0
    ensures a * b >= 0.0
  {
  }

  /** When every occupation exceeds one half, nothing goes to c. */
  lemma {:induction false} FlatSumsAllValence(occs: seq<real>, res: seq<Complex>, kws: seq<real>, d: Dims, n: nat)
    requires Sized(occs, res, d) && WeightsCover(kws, d) && n <= Count(d)
    requires forall i :: 0 <= i < n ==> occs[i] > 0.5
    ensures FlatSums(occs, res, kws, d, n).1 == 0.0
  {
    if n > 0 {
      FlatSumsAllValence(occs, res, kws, d, n - 1);
    }
  }

  /** v[s] (valence) or c[s] (conduction) of the spin-resolved loops over
      the first k k-points of band b: entry i = b*nspin*nwk + s*nwk + k'
      adds |res[i]|^2 * kws[i % nwk] when its occupation is (valence) or is
      not (conduction) above one half. */
  function RowSum(occs: seq<real>, res: seq<Complex>, kws: seq<real>, d: Dims, valence: bool,
                  b: int, s: int, k: int): real
    requires Sized(occs, res, d) && WeightsCover(kws, d)
    requires 0 <= b < d.nband && 0 <= s < d.nspin && 0 <= k <= d.nwk
  {
    if k == 0 then 0.0
    else
      var i := FlatIndex(d, b, s, k - 1);
      FlatInRange(d, b, s, k - 1);
      RowSum(occs, res, kws, d, valence, b, s, k - 1) +
        (if (occs[i] > 0.5) == valence then Weighted(res, kws, d.nwk, i) else 0.0)
  }

  /** One more k-point adds entry i's weighted square to v or to c. */
  lemma RowStep(occs: seq<real>, res: seq<Complex>, kws: seq<real>, d: Dims, b: int, s: int, k: int)
    requires Sized(occs, res, d) && WeightsCover(kws, d)
    requires 0 <= b < d.nband && 0 <= s < d.nspin && 0 <= k < d.nwk
    ensures var i := b * d.nspin * d.nwk + s * d.nwk + k;
      0 <= i < Count(d) && i % d.nwk < |kws| &&
      var x := AbsSq(res[i]) * kws[i % d.nwk];
      RowSum(occs, res, kws, d, true, b, s, k + 1) ==
        RowSum(occs, res, kws, d, true, b, s, k) + (if occs[i] > 0.5 then x else 0.0) &&
      RowSum(occs, res, kws, d, false, b, s, k + 1) ==
        RowSum(occs, res, kws, d, false, b, s, k) + (if occs[i] > 0.5 then 0.0 else x)
  {
    FlatInRange(d, b, s, k);
    CountPositive(d);
  }

  /** v[s] or c[s] after the first nb bands. */
  function SpinSum(occs: seq<real>, res: seq<Complex>, kws: seq<real>, d: Dims, valence: bool,
                   s: int, nb: int): real
    requires Sized(occs, res, d) && WeightsCover(kws, d)
    requires 0 <= s < d.nspin && 0 <= nb <= d.nband
  {
    if nb == 0 then 0.0
    else SpinSum(occs, res, kws, d, valence, s, nb - 1) + RowSum(occs, res, kws, d, valence, nb - 1, s, d.nwk)
  }

  /** The arrays v (valence) or c (conduction) after the spin-resolved loops. */
  function SpinSums(occs: seq<real>, res: seq<Complex>, kws: seq<real>, d: Dims, valence: bool): (r: seq<real>)
    requires Sized(occs, res, d) && WeightsCover(kws, d)
    ensures |r| == d.nspin
  {
    seq(d.nspin, s requires 0 <= s < d.nspin => SpinSum(occs, res, kws, d, valence, s, d.nband))
  }

  /** The result of proportion_conduction: a pair of numbers, or with
      spinpol a pair of per-spin lists. */
  datatype Proportions = Whole(v: Ratio, c: Ratio) | PerSpin(vs: seq<Ratio>, cs: seq<Ratio>)

  /** Numbers left undivided. */
  function Nums(v: seq<real>): (r: seq<Ratio>)
    ensures |r| == |v|
  {
    seq(|v|, s requires 0 <= s < |v| => Num(v[s]))
  }

  /** v / (v + c), element by element as numpy divides arrays. */
  function Shares(v: seq<real>, c: seq<real>): (r: seq<Ratio>)
    requires |v| == |c|
    ensures |r| == |v|
  {
    seq(|v|, s requires 0 <= s < |v| => Divide(v[s], v[s] + c[s]))
  }

  /** proportion_conduction, for a basis with dimensions d, its occupations
      occs, the projection res of the band onto the basis and the band's
      k-point weights kws. The wavefunction.py version always divides by the
      total (normalise); the projector.py version only when pseudo.
      - Some entry reads kws[i % nwk] past its end: IndexError.
      - Without spinpol and with no entries at all, v and c stay the integer
        0 and the division raises ZeroDivisionError. */
  function ProportionConduction(occs: seq<real>, res: seq<Complex>, kws: seq<real>, d: Dims,
                                spinpol: bool, normalise: bool): (r: Result<Proportions>)
    requires Sized(occs, res, d)
  {
    if !WeightsCover(kws, d) then Err(IndexError)
    else if spinpol then
      var v, c := SpinSums(occs, res, kws, d, true), SpinSums(occs, res, kws, d, false);
      if normalise then Ok(PerSpin(Shares(v, c), Shares(c, v))) else Ok(PerSpin(Nums(v), Nums(c)))
    else if normalise && Count(d) == 0 then Err(ZeroDivisionError)
    else
      var vc := FlatSums(occs, res, kws, d, Count(d));
      if normalise then Ok(Whole(Divide(vc.0, vc.0 + vc.1), Divide(vc.1, vc.0 + vc.1)))
      else Ok(Whole(Num(vc.0), Num(vc.1)))
  }

  lemma SharesAddUp(v: real, c: real)
    requires v + c != 0.0
    ensures v / (v + c) + c / (v + c) == 1.0
  {
  }

  /** After division by the total, the valence and conduction proportions
      add up to 1 wherever the total is not zero, and lie in [0, 1] when the
      weights are non-negative. */
  lemma ProportionsAddUp(occs: seq<real>, res: seq<Complex>, kws: seq<real>, d: Dims)
    requires Sized(occs, res, d) && WeightsCover(kws, d) && Count(d) > 0
    ensures var r := ProportionConduction(occs, res, kws, d, false, true);
      r.Ok? && r.value.Whole? &&
      (r.value.v.Num? <==> FlatTotal(occs, res, kws, d, Count(d)) != 0.0) &&
      (r.value.v.Num? ==> r.value.c.Num? && r.value.v.x + r.value.c.x == 1.0)
    ensures var r := ProportionConduction(occs, res, kws, d, false, true);
      WeightsNonnegative(kws, d) && r.value.v.Num? ==>
        0.0 <= r.value.v.x <= 1.0 && 0.0 <= r.value.c.x <= 1.0
  {
    var vc := FlatSums(occs, res, kws, d, Count(d));
    FlatSumsPartition(occs, res, kws, d, Count(d));
    if vc.0 + vc.1 != 0.0 {
      SharesAddUp(vc.0, vc.1);
      if WeightsNonnegative(kws, d) {
        FlatSumsNonnegative(occs, res, kws, d, Count(d));
      }
    }
  }

  /** Per spin, the two proportions add up to 1 wherever that spin's total
      is not zero. */
  lemma SpinProportionsAddUp(occs: seq<real>, res: seq<Complex>, kws: seq<real>, d: Dims, s: int)
    requires Sized(occs, res, d) && WeightsCover(kws, d) && 0 <= s < d.nspin
    ensures var r := ProportionConduction(occs, res, kws, d, true, true);
      r.Ok? && r.value.PerSpin? && |r.value.vs| == |r.value.cs| == d.nspin &&
      (r.value.vs[s].Num? ==> r.value.cs[s].Num? && r.value.vs[s].x + r.value.cs[s].x == 1.0)
  {
    var v, c := SpinSums(occs, res, kws, d, true)[s], SpinSums(occs, res, kws, d, false)[s];
    if v + c != 0.0 {
      SharesAddUp(v, c);
      assert c + v == v + c;
    }
  }

  /** A band that lies entirely in occupied bulk bands projects wholly onto
      the valence: the valence proportion is 1 unless the total is zero. */
  lemma AllValenceProportion(occs: seq<real>, res: seq<Complex>, kws: seq<real>, d: Dims)
    requires Sized(occs, res, d) && WeightsCover(kws, d) && Count(d) > 0
    requires forall i :: 0 <= i < Count(d) ==> occs[i] > 0.5
    requires FlatTotal(occs, res, kws, d, Count(d)) != 0.0
    ensures ProportionConduction(occs, res, kws, d, false, true) == Ok(Whole(Num(1.0), Num(0.0)))
  {
    var vc := FlatSums(occs, res, kws, d, Count(d));
    FlatSumsPartition(occs, res, kws, d, Count(d));
    FlatSumsAllValence(occs, res, kws, d, Count(d));
    assert vc.0 + vc.1 == vc.0 && vc.0 != 0.0;
    assert vc.0 / vc.0 == 1.0 && 0.0 / vc.0 == 0.0;
  }

  /** The flat loop: i over nband*nwk*nspin entries. */
  method FlatLoop(occs: seq<real>, res: seq<Complex>, kws: seq<real>, d: Dims) returns (v: real, c: real)
    requires Sized(occs, res, d) && WeightsCover(kws, d)
    ensures (v, c) == FlatSums(occs, res, kws, d, Count(d))
  {
    c, v := 0.0, 0.0;
    var n := d.nband * d.nwk * d.nspin;
    CountPositive(d);
    for i := 0 to n
      invariant (v, c) == FlatSums(occs, res, kws, d, i)
    {
      var x := AbsSq(res[i]) * kws[i % d.nwk] / (d.nspin as real);
      assert x == Weighted(res, kws, d.nwk, i) / (d.nspin as real);
      if occs[i] > 0.5 {
        v := v + x;
      } else {
        c := c + x;
      }
    }
  }

  /** One pass of the innermost loop, at k-point k: entry i adds to v[s]
      or to c[s], and nothing else changes. */
  method AddEntry(v: array<real>, c: array<real>, occs: seq<real>, res: seq<Complex>, kws: seq<real>, d: Dims,
                  b: int, s: int, k: int, ghost v0: real, ghost c0: real)
    requires Sized(occs, res, d) && WeightsCover(kws, d)
    requires 0 <= b < d.nband && 0 <= s < d.nspin && 0 <= k < d.nwk && v != c && v.Length == c.Length == d.nspin
    requires v[s] == v0 + RowSum(occs, res, kws, d, true, b, s, k)
    requires c[s] == c0 + RowSum(occs, res, kws, d, false, b, s, k)
    modifies v, c
    ensures v[s] == v0 + RowSum(occs, res, kws, d, true, b, s, k + 1)
    ensures c[s] == c0 + RowSum(occs, res, kws, d, false, b, s, k + 1)
    ensures forall t :: 0 <= t < d.nspin && t != s ==> v[t] == old(v[t]) && c[t] == old(c[t])
  {
    var i := b * d.nspin * d.nwk + s * d.nwk + k;
    RowStep(occs, res, kws, d, b, s, k);
    if occs[i] > 0.5 {
      v[s] := v[s] + AbsSq(res[i]) * kws[i % d.nwk];
    } else {
      c[s] := c[s] + AbsSq(res[i]) * kws[i % d.nwk];
    }
  }

  /** The innermost loop of the spin-resolved version, for band b and spin
      s: only v[s] and c[s] change. */
  method SpinRow(v: array<real>, c: array<real>, occs: seq<real>, res: seq<Complex>, kws: seq<real>, d: Dims,
                 b: int, s: int)
    requires Sized(occs, res, d) && WeightsCover(kws, d)
    requires 0 <= b < d.nband && 0 <= s < d.nspin && v != c && v.Length == c.Length == d.nspin
    modifies v, c
    ensures v[s] == old(v[s]) + RowSum(occs, res, kws, d, true, b, s, d.nwk)
    ensures c[s] == old(c[s]) + RowSum(occs, res, kws, d, false, b, s, d.nwk)
    ensures forall t :: 0 <= t < d.nspin && t != s ==> v[t] == old(v[t]) && c[t] == old(c[t])
  {
    for k := 0 to d.nwk
      invariant v[s] == old(v[s]) + RowSum(occs, res, kws, d, true, b, s, k)
      invariant c[s] == old(c[s]) + RowSum(occs, res, kws, d, false, b, s, k)
      invariant forall t :: 0 <= t < d.nspin && t != s ==> v[t] == old(v[t]) && c[t] == old(c[t])
    {
      AddEntry(v, c, occs, res, kws, d, b, s, k, old(v[s]), old(c[s]));
    }
  }

  /** The spin loop of band b. */
  method SpinBand(v: array<real>, c: array<real>, occs: seq<real>, res: seq<Complex>, kws: seq<real>, d: Dims, b: int)
    requires Sized(occs, res, d) && WeightsCover(kws, d)
    requires 0 <= b < d.nband && v != c && v.Length == c.Length == d.nspin
    requires forall t :: 0 <= t < d.nspin ==>
      v[t] == SpinSum(occs, res, kws, d, true, t, b) && c[t] == SpinSum(occs, res, kws, d, false, t, b)
    modifies v, c
    ensures forall t :: 0 <= t < d.nspin ==>
      v[t] == SpinSum(occs, res, kws, d, true, t, b + 1) && c[t] == SpinSum(occs, res, kws, d, false, t, b + 1)
  {
    for s := 0 to d.nspin
      invariant forall t :: 0 <= t < s ==>
        v[t] == SpinSum(occs, res, kws, d, true, t, b + 1) && c[t] == SpinSum(occs, res, kws, d, false, t, b + 1)
      invariant forall t :: s <= t < d.nspin ==>
        v[t] == SpinSum(occs, res, kws, d, true, t, b) && c[t] == SpinSum(occs, res, kws, d, false, t, b)
    {
      SpinRow(v, c, occs, res, kws, d, b, s);
    }
  }

  /** The spin-resolved loops: bands, then spins, then k-points, into the
      zero arrays v and c. */
  method SpinLoops(occs: seq<real>, res: seq<Complex>, kws: seq<real>, d: Dims) returns (vs: seq<real>, cs: seq<real>)
    requires Sized(occs, res, d) && WeightsCover(kws, d)
    ensures vs == SpinSums(occs, res, kws, d, true) && cs == SpinSums(occs, res, kws, d, false)
  {
    var c := new real[d.nspin](_ => 0.0);
    var v := new real[d.nspin](_ => 0.0);
    for b := 0 to d.nband
      invariant forall t :: 0 <= t < d.nspin ==>
        v[t] == SpinSum(occs, res, kws, d, true, t, b) && c[t] == SpinSum(occs, res, kws, d, false, t, b)
    {
      SpinBand(v, c, occs, res, kws, d, b);
    }
    vs, cs := v[..], c[..];
  }

  /** The body shared by both versions of proportion_conduction; the one in
      wavefunction.py always normalises. The IndexError is raised by the
      first entry whose weight is missing, before anything is returned. */
  method ProportionConductionLoops(occs: seq<real>, res: seq<Complex>, kws: seq<real>, d: Dims,
                                   spinpol: bool, normalise: bool) returns (r: Result<Proportions>)
    requires Sized(occs, res, d)
    ensures r == ProportionConduction(occs, res, kws, d, spinpol, normalise)
  {
    var n := d.nband * d.nwk * d.nspin;
    if n > 0 && |kws| < d.nwk {
      return Err(IndexError);
    }
    if spinpol {
      var v, c := SpinLoops(occs, res, kws, d);
      if normalise {
        r := Ok(PerSpin(Shares(v, c), Shares(c, v)));
      } else {
        r := Ok(PerSpin(Nums(v), Nums(c)));
      }
    } else {
      var v, c := FlatLoop(occs, res, kws, d);
      if normalise {
        var t := v + c;
        if n == 0 {
          return Err(ZeroDivisionError);
        }
        r := Ok(Whole(Divide(v, t), Divide(c, t)));
      } else {
        r := Ok(Whole(Num(v), Num(c)));
      }
    }
  }

  /** Wavefunction.proportion_conduction: res is the pseudoprojection of the
      defect band onto the bulk, occs and d are the bulk's, kws the defect's
      k-point weights. */
  method WavefunctionProportionConduction(occs: seq<real>, res: seq<Complex>, kws: seq<real>, d: Dims,
                                          spinpol: bool) returns (r: Result<Proportions>)
    requires Sized(occs, res, d)
    ensures r == ProportionConduction(occs, res, kws, d, spinpol, true)
  {
    r := ProportionConductionLoops(occs, res, kws, d, spinpol, true);
  }

  /** Projector.proportion_conduction: res is single_band_projection of the
      band, occs and d are the basis's; the sums are divided by their total
      only in pseudo mode. */
  method ProjectorProportionConduction(occs: seq<real>, res: seq<Complex>, kws: seq<real>, d: Dims,
                                       spinpol: bool, pseudo: bool) returns (r: Result<Proportions>)
    requires Sized(occs, res, d)
    ensures r == ProportionConduction(occs, res, kws, d, spinpol, pseudo)
  {
    r := ProportionConductionLoops(occs, res, kws, d, spinpol, pseudo);
  }

  /** A wavefunction's occupations, one per (band, spin, k-point), with its
      dimensions. */
  datatype Occupations = Occupations(occs: seq<real>, d: Dims)

  predicate WellSized(w: Occupations)
  {
    |w.occs| == Count(w.d)
  }

  /** occs[b*nwk*nspin]: the occupation of band b at the first spin and
      k-point. */
  function FirstOcc(w: Occupations, b: int): real
    requires WellSized(w) && 0 <= b < w.d.nband && w.d.nwk > 0 && w.d.nspin > 0
  {
    FlatInRange(w.d, b, 0, 0);
    assert b * w.d.nwk * w.d.nspin == FlatIndex(w.d, b, 0, 0);
    w.occs[b * w.d.nwk * w.d.nspin]
  }

  lemma FirstOccAt(w: Occupations, b: int)
    requires WellSized(w) && 0 <= b < w.d.nband && w.d.nwk > 0 && w.d.nspin > 0
    ensures 0 <= b * w.d.nwk * w.d.nspin < |w.occs| && w.occs[b * w.d.nwk * w.d.nspin] == FirstOcc(w, b)
  {
    FlatInRange(w.d, b, 0, 0);
    assert b * w.d.nwk * w.d.nspin == FlatIndex(w.d, b, 0, 0);
  }

  /** vbm after the loop over the first nb bands: the last of them whose
      first occupation exceeds one half, and 0 when there is none. */
  function VbmUpTo(w: Occupations, nb: int): int
    requires WellSized(w) && w.d.nwk > 0 && w.d.nspin > 0 && 0 <= nb <= w.d.nband
  {
    if nb == 0 then 0
    else if FirstOcc(w, nb - 1) > 0.5 then nb - 1
    else VbmUpTo(w, nb - 1)
  }

  /** The valence band maximum as defect_band_analysis finds it. With bands
      but no k-points or spins, occs is empty and occs[0] raises IndexError. */
  function Vbm(w: Occupations): Result<int>
    requires WellSized(w)
  {
    if w.d.nband == 0 then Ok(0)
    else if w.d.nwk == 0 || w.d.nspin == 0 then Err(IndexError)
    else Ok(VbmUpTo(w, w.d.nband))
  }

  /** The band found is the last occupied one: every later band is empty,
      it is occupied exactly when some band is, and it is 0 (the value vbm
      starts with) when no band is occupied. */
  lemma {:induction false} VbmIsLastOccupied(w: Occupations, nb: int)
    requires WellSized(w) && w.d.nwk > 0 && w.d.nspin > 0 && 0 < nb <= w.d.nband
    ensures 0 <= VbmUpTo(w, nb) < nb
    ensures forall b :: VbmUpTo(w, nb) < b < nb ==> FirstOcc(w, b) <= 0.5
    ensures (exists b :: 0 <= b < nb && FirstOcc(w, b) > 0.5) <==> FirstOcc(w, VbmUpTo(w, nb)) > 0.5
    ensures (forall b :: 0 <= b < nb ==> FirstOcc(w, b) <= 0.5) ==> VbmUpTo(w, nb) == 0
  {
    if FirstOcc(w, nb - 1) <= 0.5 {
      if nb == 1 {
        assert VbmUpTo(w, nb) == 0;
      } else {
        VbmIsLastOccupied(w, nb - 1);
        assert VbmUpTo(w, nb) == VbmUpTo(w, nb - 1);
      }
    }
  }

  /** The vbm loop of defect_band_analysis. */
  method FindVbm(w: Occupations) returns (r: Result<int>)
    requires WellSized(w)
    ensures r == Vbm(w)
  {
    if w.d.nband == 0 {
      return Ok(0);
    }
    CountPositive(w.d);
    if |w.occs| == 0 {
      return Err(IndexError);
    }
    var vbm := 0;
    for i := 0 to w.d.nband
      invariant vbm == VbmUpTo(w, i)
    {
      FirstOccAt(w, i);
      if w.occs[i * w.d.nwk * w.d.nspin] > 0.5 {
        vbm := i;
      }
    }
    return Ok(vbm);
  }

  /** The bands analysed, vbm - below through vbm + above; PAWpyError when
      that window leaves the bands 0 .. nbandLimit - 1 of the basis. */
  function BandWindow(w: Occupations, nbandLimit: int, below: int, above: int): (r: Result<(int, int)>)
    requires WellSized(w)
    ensures r.Ok? ==> 0 <= r.value.0 && r.value.1 < nbandLimit && r.value.1 - r.value.0 == below + above
    ensures r.Ok? ==> Vbm(w) == Ok(r.value.0 + below)
    ensures Vbm(w).Ok? && r.Err? ==> r.error == Raised
  {
    match Vbm(w)
    case Err(e) => Err(e)
    case Ok(vbm) =>
      if vbm - below < 0 || vbm + above >= nbandLimit then Err(Raised)
      else Ok((vbm - below, vbm + above))
  }

  /** proportion_conduction of band b, whose projection onto the basis is
      res(b). */
  function Analysed(basis: Occupations, res: int -> seq<Complex>, kws: seq<real>, spinpol: bool,
                    normalise: bool, b: int): Result<Proportions>
    requires Sized(basis.occs, res(b), basis.d)
  {
    ProportionConduction(basis.occs, res(b), kws, basis.d, spinpol, normalise)
  }

  /** Every band's projection has an entry per basis state. */
  ghost predicate AllSized(basis: Occupations, res: int -> seq<Complex>)
  {
    forall b :: Sized(basis.occs, res(b), basis.d)
  }

  /** The results dictionary after the bands lo .. hi in increasing order;
      the first error ends the loop. */
  function Collect(basis: Occupations, res: int -> seq<Complex>, kws: seq<real>, spinpol: bool,
                   normalise: bool, lo: int, hi: int): Result<map<int, Proportions>>
    requires AllSized(basis, res)
    decreases hi - lo
  {
    if hi < lo then Ok(map[])
    else match Collect(basis, res, kws, spinpol, normalise, lo, hi - 1)
      case Err(e) => Err(e)
      case Ok(m) =>
        match Analysed(basis, res, kws, spinpol, normalise, hi)
        case Err(e) => Err(e)
        case Ok(p) => Ok(m[hi := p])
  }

  /** Band b is the first from lo on that raises, and it raises e. */
  ghost predicate FirstError(basis: Occupations, res: int -> seq<Complex>, kws: seq<real>, spinpol: bool,
                             normalise: bool, lo: int, b: int, e: Error)
    requires AllSized(basis, res)
  {
    lo <= b && Analysed(basis, res, kws, spinpol, normalise, b) == Err(e) &&
    forall b' :: lo <= b' < b ==> Analysed(basis, res, kws, spinpol, normalise, b').Ok?
  }

  /** The dictionary has exactly the bands lo .. hi as keys, each with its
      proportions, exactly when no band raises. */
  lemma {:induction false} CollectOk(basis: Occupations, res: int -> seq<Complex>, kws: seq<real>,
                                     spinpol: bool, normalise: bool, lo: int, hi: int)
    requires AllSized(basis, res)
    decreases hi - lo
    ensures Collect(basis, res, kws, spinpol, normalise, lo, hi).Ok? <==>
      forall b :: lo <= b <= hi ==> Analysed(basis, res, kws, spinpol, normalise, b).Ok?
    ensures var r := Collect(basis, res, kws, spinpol, normalise, lo, hi);
      r.Ok? ==> forall b :: b in r.value <==> lo <= b <= hi
    ensures var r := Collect(basis, res, kws, spinpol, normalise, lo, hi);
      r.Ok? ==> forall b :: lo <= b <= hi ==> r.value[b] == Analysed(basis, res, kws, spinpol, normalise, b).value
  {
    if hi >= lo {
      CollectOk(basis, res, kws, spinpol, normalise, lo, hi - 1);
      var r' := Collect(basis, res, kws, spinpol, normalise, lo, hi - 1);
      var p := Analysed(basis, res, kws, spinpol, normalise, hi);
      if r'.Err? {
        var b :| lo <= b <= hi - 1 && Analysed(basis, res, kws, spinpol, normalise, b).Err?;
      } else if p.Err? {
      } else {
        assert Collect(basis, res, kws, spinpol, normalise, lo, hi) == Ok(r'.value[hi := p.value]);
      }
    }
  }

  /** Otherwise the error is that of the first band that raises. */
  lemma {:induction false} CollectError(basis: Occupations, res: int -> seq<Complex>, kws: seq<real>,
                                        spinpol: bool, normalise: bool, lo: int, hi: int)
    requires AllSized(basis, res)
    decreases hi - lo
    ensures var r := Collect(basis, res, kws, spinpol, normalise, lo, hi);
      r.Err? ==> exists b :: b <= hi && FirstError(basis, res, kws, spinpol, normalise, lo, b, r.error)
  {
    if hi >= lo {
      var r' := Collect(basis, res, kws, spinpol, normalise, lo, hi - 1);
      if r'.Err? {
        CollectError(basis, res, kws, spinpol, normalise, lo, hi - 1);
      } else {
        CollectOk(basis, res, kws, spinpol, normalise, lo, hi - 1);
        var r := Collect(basis, res, kws, spinpol, normalise, lo, hi);
        if r.Err? {
          assert FirstError(basis, res, kws, spinpol, normalise, lo, hi, r.error);
        }
      }
    }
  }

  /** Once a band raises, the loop ends with that error. */
  lemma {:induction false} CollectErrorStays(basis: Occupations, res: int -> seq<Complex>, kws: seq<real>,
                                             spinpol: bool, normalise: bool, lo: int, b: int, hi: int)
    requires AllSized(basis, res) && b <= hi
    requires Collect(basis, res, kws, spinpol, normalise, lo, b).Err?
    decreases hi - b
    ensures Collect(basis, res, kws, spinpol, normalise, lo, hi) == Collect(basis, res, kws, spinpol, normalise, lo, b)
  {
    if b < hi {
      CollectErrorStays(basis, res, kws, spinpol, normalise, lo, b, hi - 1);
      assert hi >= lo;
    }
  }

  /** The loop over totest. */
  method CollectLoop(basis: Occupations, res: int -> seq<Complex>, kws: seq<real>, spinpol: bool,
                     normalise: bool, lo: int, hi: int) returns (r: Result<map<int, Proportions>>)
    requires AllSized(basis, res)
    ensures r == Collect(basis, res, kws, spinpol, normalise, lo, hi)
  {
    if hi < lo {
      return Ok(map[]);
    }
    var results := map[];
    for b := lo to hi + 1
      invariant Collect(basis, res, kws, spinpol, normalise, lo, b - 1) == Ok(results)
    {
      var p := ProportionConductionLoops(basis.occs, res(b), kws, basis.d, spinpol, normalise);
      if p.Err? {
        CollectErrorStays(basis, res, kws, spinpol, normalise, lo, b, hi);
        return Err(p.error);
      }
      results := results[b := p.value];
    }
    r := Ok(results);
  }

  /** Wavefunction.defect_band_analysis, without return_energies: the window
      comes from the bulk's own occupations and band count, and each band's
      proportions from Wavefunction.proportion_conduction, which always
      normalises. */
  function DefectBands(bulk: Occupations, res: int -> seq<Complex>, kws: seq<real>, below: int, above: int,
                       spinpol: bool): Result<map<int, Proportions>>
    requires WellSized(bulk) && AllSized(bulk, res)
  {
    match BandWindow(bulk, bulk.d.nband, below, above)
    case Err(e) => Err(e)
    case Ok(window) => Collect(bulk, res, kws, spinpol, true, window.0, window.1)
  }

  method WavefunctionDefectBandAnalysis(bulk: Occupations, res: int -> seq<Complex>, kws: seq<real>,
                                        below: int, above: int, spinpol: bool) returns (r: Result<map<int, Proportions>>)
    requires WellSized(bulk) && AllSized(bulk, res)
    ensures r == DefectBands(bulk, res, kws, below, above, spinpol)
  {
    var vbm := FindVbm(bulk);
    if vbm.Err? {
      return Err(vbm.error);
    }
    var minBand, maxBand := vbm.value - below, vbm.value + above;
    if minBand < 0 || maxBand >= bulk.d.nband {
      return Err(Raised);
    }
    r := CollectLoop(bulk, res, kws, spinpol, true, minBand, maxBand);
  }

  /** energies[b] after the spin loop of k-point k has run over the first ns
      spins: each adds get_energy(b, k, s) * kws[k]. */
  function SpinEnergy(energy: (int, int, int) -> real, kws: seq<real>, b: int, k: int, ns: nat): real
    requires 0 <= k < |kws|
  {
    if ns == 0 then 0.0 else SpinEnergy(energy, kws, b, k, ns - 1) + energy(b, k, ns - 1) * kws[k]
  }

  /** energies[b] after the first nk k-points. */
  function BandEnergySum(energy: (int, int, int) -> real, kws: seq<real>, d: Dims, b: int, nk: nat): real
    requires nk <= d.nwk <= |kws|
  {
    if nk == 0 then 0.0 else BandEnergySum(energy, kws, d, b, nk - 1) + SpinEnergy(energy, kws, b, nk - 1, d.nspin)
  }

  /** The energy of band b: the weighted sum over k-points and spins divided
      by sum(kws) * nspin, with numpy's division by zero. */
  function BandEnergy(energy: (int, int, int) -> real, kws: seq<real>, d: Dims, b: int): Ratio
    requires d.nwk <= |kws|
  {
    Divide(BandEnergySum(energy, kws, d, b, d.nwk), SumReal(kws) * (d.nspin as real))
  }

  lemma {:induction false} SpinEnergyConstant(energy: (int, int, int) -> real, kws: seq<real>, b: int, k: int,
                                              ns: nat, e: real)
    requires 0 <= k < |kws|
    requires forall s :: 0 <= s < ns ==> energy(b, k, s) == e
    ensures SpinEnergy(energy, kws, b, k, ns) == (ns as real) * (e * kws[k])
  {
    if ns > 0 {
      SpinEnergyConstant(energy, kws, b, k, ns - 1, e);
    }
  }

  lemma {:induction false} BandEnergySumConstant(energy: (int, int, int) -> real, kws: seq<real>, d: Dims,
                                                 b: int, nk: nat, e: real)
    requires nk <= d.nwk <= |kws|
    requires forall k, s :: 0 <= k < d.nwk && 0 <= s < d.nspin ==> energy(b, k, s) == e
    ensures BandEnergySum(energy, kws, d, b, nk) == (d.nspin as real) * e * SumReal(kws[..nk])
  {
    if nk > 0 {
      BandEnergySumConstant(energy, kws, d, b, nk - 1, e);
      SpinEnergyConstant(energy, kws, b, nk - 1, d.nspin, e);
      assert kws[..nk][..nk - 1] == kws[..nk - 1];
      assert SumReal(kws[..nk]) == SumReal(kws[..nk - 1]) + kws[nk - 1];
    }
  }

  /** A band whose energy is e at every k-point and spin has energy e, as
      long as the weights do not sum to zero. */
  lemma ConstantBandEnergy(energy: (int, int, int) -> real, kws: seq<real>, d: Dims, b: int, e: real)
    requires d.nwk == |kws| && SumReal(kws) * (d.nspin as real) != 0.0
    requires forall k, s :: 0 <= k < d.nwk && 0 <= s < d.nspin ==> energy(b, k, s) == e
    ensures BandEnergy(energy, kws, d, b) == Num(e)
  {
    BandEnergySumConstant(energy, kws, d, b, d.nwk, e);
    assert kws[..d.nwk] == kws;
    var t := SumReal(kws) * (d.nspin as real);
    assert (d.nspin as real) * e * SumReal(kws) == e * t;
  }

  /** The two loops over k-points and spins for band b. */
  method BandEnergyLoops(energy: (int, int, int) -> real, kws: seq<real>, d: Dims, b: int) returns (r: Ratio)
    requires d.nwk <= |kws|
    ensures r == BandEnergy(energy, kws, d, b)
  {
    var acc := 0.0;
    for k := 0 to d.nwk
      invariant acc == BandEnergySum(energy, kws, d, b, k)
    {
      for s := 0 to d.nspin
        invariant acc == BandEnergySum(energy, kws, d, b, k) + SpinEnergy(energy, kws, b, k, s)
      {
        acc := acc + energy(b, k, s) * kws[k];
      }
    }
    r := Divide(acc, SumReal(kws) * (d.nspin as real));
  }

  /** The energies dictionary for the bands lo .. hi. */
  function Energies(energy: (int, int, int) -> real, kws: seq<real>, d: Dims, lo: int, hi: int): (r: map<int, Ratio>)
    requires d.nwk <= |kws|
    ensures forall b :: b in r <==> lo <= b <= hi
  {
    map b | lo <= b <= hi :: BandEnergy(energy, kws, d, b)
  }

  lemma EnergiesSnoc(energy: (int, int, int) -> real, kws: seq<real>, d: Dims, lo: int, hi: int)
    requires d.nwk <= |kws| && lo <= hi
    ensures Energies(energy, kws, d, lo, hi) == Energies(energy, kws, d, lo, hi - 1)[hi := BandEnergy(energy, kws, d, hi)]
  {
  }

  /** The loop of Projector.defect_band_analysis over the bands lo .. hi:
      proportions and energies band by band; the energies of the bands
      before one that raises are discarded with it. */
  function AnalyseWindow(basis: Occupations, res: int -> seq<Complex>, kws: seq<real>, d: Dims,
                         energy: (int, int, int) -> real, spinpol: bool, pseudo: bool, lo: int, hi: int)
    : Result<(map<int, Proportions>, map<int, Ratio>)>
    requires AllSized(basis, res) && d.nwk <= |kws|
  {
    match Collect(basis, res, kws, spinpol, pseudo, lo, hi)
    case Err(e) => Err(e)
    case Ok(results) => Ok((results, Energies(energy, kws, d, lo, hi)))
  }

  method AnalyseWindowLoop(basis: Occupations, res: int -> seq<Complex>, kws: seq<real>, d: Dims,
                           energy: (int, int, int) -> real, spinpol: bool, pseudo: bool, lo: int, hi: int)
    returns (r: Result<(map<int, Proportions>, map<int, Ratio>)>)
    requires AllSized(basis, res) && d.nwk <= |kws|
    ensures r == AnalyseWindow(basis, res, kws, d, energy, spinpol, pseudo, lo, hi)
  {
    var results := map[];
    var energies := map[];
    if hi < lo {
      return Ok((results, energies));
    }
    for b := lo to hi + 1
      invariant Collect(basis, res, kws, spinpol, pseudo, lo, b - 1) == Ok(results)
      invariant energies == Energies(energy, kws, d, lo, b - 1)
    {
      var p := ProportionConductionLoops(basis.occs, res(b), kws, basis.d, spinpol, pseudo);
      if p.Err? {
        CollectErrorStays(basis, res, kws, spinpol, pseudo, lo, b, hi);
        return Err(p.error);
      }
      results := results[b := p.value];
      var e := BandEnergyLoops(energy, kws, d, b);
      EnergiesSnoc(energy, kws, d, lo, b);
      energies := energies[b := e];
    }
    r := Ok((results, energies));
  }

  /** Projector.defect_band_analysis: the window comes from the projected
      wavefunction's (self's) occupations, bounded by the basis band count;
      each band's proportions from Projector.proportion_conduction (divided
      by their total only when pseudo) and its energy from get_energy on
      self, weighted by self's k-point weights kws. */
  function ProjectorDefectBands(self: Occupations, basis: Occupations, res: int -> seq<Complex>, kws: seq<real>,
                                energy: (int, int, int) -> real, below: int, above: int, spinpol: bool,
                                pseudo: bool): Result<(map<int, Proportions>, map<int, Ratio>)>
    requires WellSized(self) && AllSized(basis, res) && self.d.nwk <= |kws|
  {
    match BandWindow(self, basis.d.nband, below, above)
    case Err(e) => Err(e)
    case Ok(window) => AnalyseWindow(basis, res, kws, self.d, energy, spinpol, pseudo, window.0, window.1)
  }

  method ProjectorDefectBandAnalysis(self: Occupations, basis: Occupations, res: int -> seq<Complex>,
                                     kws: seq<real>, energy: (int, int, int) -> real, below: int, above: int,
                                     spinpol: bool, pseudo: bool)
    returns (r: Result<(map<int, Proportions>, map<int, Ratio>)>)
    requires WellSized(self) && AllSized(basis, res) && self.d.nwk <= |kws|
    ensures r == ProjectorDefectBands(self, basis, res, kws, energy, below, above, spinpol, pseudo)
  {
    var vbm := FindVbm(self);
    if vbm.Err? {
      return Err(vbm.error);
    }
    var minBand, maxBand := vbm.value - below, vbm.value + above;
    if minBand < 0 || maxBand >= basis.d.nband {
      return Err(Raised);
    }
    r := AnalyseWindowLoop(basis, res, kws, self.d, energy, spinpol, pseudo, minBand, maxBand);
  }
}
