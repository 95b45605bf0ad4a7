/** Pseudo-wavefunction overlaps: the C routines pseudoprojection and
    vc_pseudoprojection (in the current library and in the older
    stand-alone projector.c), the interleaved real/imaginary layout they
    hand to Python and its reassembly into complex numbers there,
    compensation_terms' result buffer, and single_band_projection, which
    adds the two.

    Plane-wave coefficients are single-precision complex numbers in C; the
    model computes with exact reals. */
module Projection {
  import opened Numbers
  import opened Seqs

  /** band_t: plane-wave coefficients and occupation. */
  datatype Band = Band(coeffs: seq<Complex>, occ: real)

  /** kpoint_t: the bands at one k-point (and spin) and its weight. */
  datatype Kpoint = Kpoint(bands: seq<Band>, weight: real)

  /** pswf_t: k-points for every spin, nwk of them per spin. */
  datatype Pswf = Pswf(kpts: seq<Kpoint>, nband: nat, nwk: nat, nspin: nat)

  /** NUM_KPTS in C: nwk * nspin. */
  function NumKpts(wf: Pswf): nat
  {
    wf.nwk * wf.nspin
  }

  /** At one k-point: the reference has nband bands, the projected
      wavefunction has band bandNum, and that band has at least as many
      coefficients as every reference band the loop pairs it with. */
  predicate Readable(rk: Kpoint, pk: Kpoint, nband: nat, bandNum: int)
  {
    nband <= |rk.bands| && 0 <= bandNum < |pk.bands| &&
    forall b :: 0 <= b < nband ==> |rk.bands[b].coeffs| <= |pk.bands[bandNum].coeffs|
  }

  /** What the overlap loops read of the two wavefunctions. */
  predicate Projectable(ref: Pswf, proj: Pswf, bandNum: int)
  {
    |ref.kpts| >= NumKpts(ref) && |proj.kpts| >= NumKpts(ref) &&
    forall k :: 0 <= k < NumKpts(ref) ==> Readable(ref.kpts[k], proj.kpts[k], ref.nband, bandNum)
  }

  /** sum over w < n of c1[w] * conj(c2[w]). */
  function Overlap(c1: seq<Complex>, c2: seq<Complex>, n: nat): Complex
    requires n <= |c1| && n <= |c2|
  {
    if n == 0 then Zero else Add(Overlap(c1, c2, n - 1), Mul(c1[n - 1], Conj(c2[n - 1])))
  }

  /** Swapping the two coefficient lists conjugates the overlap. */
  lemma {:induction false} OverlapSwap(c1: seq<Complex>, c2: seq<Complex>, n: nat)
    requires n <= |c1| && n <= |c2|
    ensures Overlap(c2, c1, n) == Conj(Overlap(c1, c2, n))
  {
    if n > 0 {
      OverlapSwap(c1, c2, n - 1);
      MulConjSwap(c1[n - 1], c2[n - 1]);
      ConjAdd(Overlap(c1, c2, n - 1), Mul(c1[n - 1], Conj(c2[n - 1])));
    }
  }

  /** The overlap of a coefficient list with itself is its squared norm:
      real and not negative. */
  lemma {:induction false} OverlapSelf(c: seq<Complex>, n: nat)
    requires n <= |c|
    ensures Overlap(c, c, n).im == 0.0 && Overlap(c, c, n).re >= 0.0
  {
    if n > 0 {
      OverlapSelf(c, n - 1);
      assert Mul(c[n - 1], Conj(c[n - 1])) == Complex(AbsSq(c[n - 1]), 0.0);
    }
  }

  /** The innermost loop: curr_overlap += C1s[w] * conj(C2s[w]). */
  method OverlapOf(c1: seq<Complex>, c2: seq<Complex>, n: nat) returns (o: Complex)
    requires n <= |c1| && n <= |c2|
    ensures o == Overlap(c1, c2, n)
  {
    o := Zero;
    for w := 0 to n
      invariant o == Overlap(c1, c2, w)
    {
      o := Add(o, Mul(c1[w], Conj(c2[w])));
    }
  }

  /** The overlap of band bandNum of proj with reference band b at k-point k,
      over the reference band's plane waves. */
  function Ov(ref: Pswf, proj: Pswf, bandNum: int, b: int, k: int): Complex
    requires Projectable(ref, proj, bandNum) && 0 <= b < ref.nband && 0 <= k < NumKpts(ref)
  {
    var c2 := ref.kpts[k].bands[b].coeffs;
    Overlap(proj.kpts[k].bands[bandNum].coeffs, c2, |c2|)
  }

  /** The body of the (b, k) iteration: C1s is band bandNum of proj and C2s
      band b of ref at k-point k, summed over the latter's num_waves. */
  method BandOverlap(ref: Pswf, proj: Pswf, bandNum: int, b: int, k: int) returns (o: Complex)
    requires Projectable(ref, proj, bandNum) && 0 <= b < ref.nband && 0 <= k < NumKpts(ref)
    ensures o == Ov(ref, proj, bandNum, b, k)
  {
    var c1s := proj.kpts[k].bands[bandNum].coeffs;
    var c2s := ref.kpts[k].bands[b].coeffs;
    assert Readable(ref.kpts[k], proj.kpts[k], ref.nband, bandNum);
    o := OverlapOf(c1s, c2s, |c2s|);
  }

  /** The overlap stored at flat position q = b * NUM_KPTS + k. */
  function OverlapAt(ref: Pswf, proj: Pswf, bandNum: int, q: int): Complex
    requires Projectable(ref, proj, bandNum) && 0 <= q < ref.nband * NumKpts(ref)
  {
    FlatDecode(q, ref.nband, NumKpts(ref));
    Ov(ref, proj, bandNum, q / NumKpts(ref), q % NumKpts(ref))
  }

  /** Every overlap, band-major. */
  function Overlaps(ref: Pswf, proj: Pswf, bandNum: int): (r: seq<Complex>)
    requires Projectable(ref, proj, bandNum)
    ensures |r| == ref.nband * NumKpts(ref)
  {
    seq(ref.nband * NumKpts(ref), q requires 0 <= q < ref.nband * NumKpts(ref) => OverlapAt(ref, proj, bandNum, q))
  }

  /** Complex numbers as consecutive (real, imaginary) doubles. */
  function Interleave(cs: seq<Complex>): (r: seq<real>)
    ensures |r| == 2 * |cs|
  {
    seq(2 * |cs|, t requires 0 <= t < 2 * |cs| => if t % 2 == 0 then cs[t / 2].re else cs[t / 2].im)
  }

  /** numpy's res[::2] + 1j * res[1::2] on an array of even length. */
  function Reassemble(res: seq<real>): (r: seq<Complex>)
    requires |res| % 2 == 0
    ensures |r| == |res| / 2
  {
    seq(|res| / 2, i requires 0 <= i < |res| / 2 => Complex(res[2 * i], res[2 * i + 1]))
  }

  /** Reassembling an interleaved array gives the complex numbers back. */
  lemma ReassembleInterleave(cs: seq<Complex>)
    ensures Reassemble(Interleave(cs)) == cs
  {
    var r := Reassemble(Interleave(cs));
    forall i | 0 <= i < |cs|
      ensures r[i] == cs[i]
    {
      assert (2 * i) % 2 == 0 && (2 * i) / 2 == i && (2 * i + 1) / 2 == i;
    }
  }

  /** Interleaving the reassembled numbers gives the array back. */
  lemma InterleaveReassemble(res: seq<real>)
    requires |res| % 2 == 0
    ensures Interleave(Reassemble(res)) == res
  {
    var r := Interleave(Reassemble(res));
    forall t | 0 <= t < |res|
      ensures r[t] == res[t]
    {
      if t % 2 == 0 {
        assert 2 * (t / 2) == t;
      } else {
        assert 2 * (t / 2) + 1 == t;
      }
    }
  }

  /** The array pseudoprojection returns: the overlap for (b, k) at
      2 * (b * NUM_KPTS + k) and 2 * (b * NUM_KPTS + k) + 1. */
  function PseudoLayout(ref: Pswf, proj: Pswf, bandNum: int): (r: seq<real>)
    requires Projectable(ref, proj, bandNum)
    ensures |r| == 2 * (ref.nband * NumKpts(ref))
  {
    Interleave(Overlaps(ref, proj, bandNum))
  }

  /** Where the loop body of pseudoprojection writes, and what. */
  lemma LayoutSlot(ref: Pswf, proj: Pswf, bandNum: int, b: int, k: int)
    requires Projectable(ref, proj, bandNum) && 0 <= b < ref.nband && 0 <= k < NumKpts(ref)
    ensures 0 <= b * NumKpts(ref) + k < ref.nband * NumKpts(ref)
    ensures Overlaps(ref, proj, bandNum)[b * NumKpts(ref) + k] == Ov(ref, proj, bandNum, b, k)
    ensures PseudoLayout(ref, proj, bandNum)[2 * (b * NumKpts(ref) + k)] == Ov(ref, proj, bandNum, b, k).re
    ensures PseudoLayout(ref, proj, bandNum)[2 * (b * NumKpts(ref) + k) + 1] == Ov(ref, proj, bandNum, b, k).im
  {
    var nk := NumKpts(ref);
    var q := b * nk + k;
    MulMonotone(b + 1, ref.nband, nk);
    assert q < (b + 1) * nk;
    DivModUnique(b, k, nk);
    assert (2 * q) % 2 == 0 && (2 * q) / 2 == q && (2 * q + 1) / 2 == q && (2 * q + 1) % 2 == 1;
  }

  /** One pass of the outer loop of pseudoprojection: the slots of band b at
      every k-point. */
  method FillBand(projections: array<real>, ref: Pswf, proj: Pswf, bandNum: int, b: int)
    requires Projectable(ref, proj, bandNum) && 0 <= b < ref.nband
    requires projections.Length == 2 * (ref.nband * NumKpts(ref))
    requires Filled(projections[..], PseudoLayout(ref, proj, bandNum), 2 * (b * NumKpts(ref)))
    modifies projections
    ensures Filled(projections[..], PseudoLayout(ref, proj, bandNum), 2 * ((b + 1) * NumKpts(ref)))
  {
    var numKpts := ref.nwk * ref.nspin;
    ghost var layout := PseudoLayout(ref, proj, bandNum);
    for kptNum := 0 to numKpts
      invariant Filled(projections[..], layout, 2 * (b * numKpts + kptNum))
    {
      var o := BandOverlap(ref, proj, bandNum, b, kptNum);
      LayoutSlot(ref, proj, bandNum, b, kptNum);
      var slot := 2 * (b * numKpts + kptNum);
      projections[slot] := o.re;
      projections[slot + 1] := o.im;
      FilledWrite(projections[..], layout, slot, slot + 2);
    }
    assert b * numKpts + numKpts == (b + 1) * numKpts;
  }

  /** pseudoprojection (pawpyseed/projector.c): the overlap of band bandNum
      of proj with every band of ref at every k-point, as 2 * nband *
      NUM_KPTS doubles. */
  method Pseudoprojection(ref: Pswf, proj: Pswf, bandNum: int) returns (projections: array<real>)
    requires Projectable(ref, proj, bandNum)
    ensures fresh(projections)
    ensures projections[..] == PseudoLayout(ref, proj, bandNum)
  {
    var numKpts := ref.nwk * ref.nspin;
    var numBands := ref.nband;
    projections := new real[2 * (numBands * numKpts)];
    for b := 0 to numBands
      invariant Filled(projections[..], PseudoLayout(ref, proj, bandNum), 2 * (b * numKpts))
    {
      FillBand(projections, ref, proj, bandNum, b);
    }
    assert projections[..] == PseudoLayout(ref, proj, bandNum);
  }

  /** One pass of the outer loop of the older pseudoprojection. */
  method FillLegacyBand(projections: array<Complex>, ref: Pswf, proj: Pswf, b: int)
    requires Projectable(ref, proj, 0) && 0 <= b < ref.nband
    requires projections.Length == ref.nband * NumKpts(ref)
    requires Filled(projections[..], Overlaps(ref, proj, 0), b * NumKpts(ref))
    modifies projections
    ensures Filled(projections[..], Overlaps(ref, proj, 0), (b + 1) * NumKpts(ref))
  {
    var numKpts := ref.nwk * ref.nspin;
    ghost var all := Overlaps(ref, proj, 0);
    for kptNum := 0 to numKpts
      invariant Filled(projections[..], all, b * numKpts + kptNum)
    {
      var o := BandOverlap(ref, proj, 0, b, kptNum);
      LayoutSlot(ref, proj, 0, b, kptNum);
      var slot := b * numKpts + kptNum;
      projections[slot] := o;
      FilledWrite(projections[..], all, slot, slot + 1);
    }
    assert b * numKpts + numKpts == (b + 1) * numKpts;
  }

  /** pseudoprojection in the older projector.c: one complex number per
      (b, k) at b * NUM_KPTS + k, always taken with band 0 of proj. */
  method LegacyPseudoprojection(ref: Pswf, proj: Pswf, bandNum: int) returns (projections: array<Complex>)
    requires Projectable(ref, proj, 0)
    ensures fresh(projections)
    ensures projections[..] == Overlaps(ref, proj, 0)
  {
    var numKpts := ref.nwk * ref.nspin;
    var numBands := ref.nband;
    projections := new Complex[numBands * numKpts](_ => Zero);
    for b := 0 to numBands
      invariant Filled(projections[..], Overlaps(ref, proj, 0), b * numKpts)
    {
      FillLegacyBand(projections, ref, proj, b);
    }
    assert projections[..] == Overlaps(ref, proj, 0);
  }

  /** The older packed result is what the current interleaved one reassembles
      to for band 0. */
  lemma LegacyAgrees(ref: Pswf, proj: Pswf)
    requires Projectable(ref, proj, 0)
    ensures Reassemble(PseudoLayout(ref, proj, 0)) == Overlaps(ref, proj, 0)
  {
    ReassembleInterleave(Overlaps(ref, proj, 0));
  }

  /** PseudoWavefunction.pseudoprojection: the C array read back as nband *
      nwk * nspin complex numbers. */
  function PwfPseudoprojection(basis: Pswf, self: Pswf, bandNum: int): (r: seq<Complex>)
    requires Projectable(basis, self, bandNum)
  {
    Reassemble(PseudoLayout(basis, self, bandNum))
  }

  /** Entry b * NUM_KPTS + k of the Python result is the overlap of band
      bandNum of self with basis band b at k-point k. */
  lemma PwfPseudoprojectionAt(basis: Pswf, self: Pswf, bandNum: int, b: int, k: int)
    requires Projectable(basis, self, bandNum) && 0 <= b < basis.nband && 0 <= k < NumKpts(basis)
    ensures |PwfPseudoprojection(basis, self, bandNum)| == basis.nband * NumKpts(basis)
    ensures 0 <= b * NumKpts(basis) + k < basis.nband * NumKpts(basis)
    ensures PwfPseudoprojection(basis, self, bandNum)[b * NumKpts(basis) + k] == Ov(basis, self, bandNum, b, k)
  {
    ReassembleInterleave(Overlaps(basis, self, bandNum));
    LayoutSlot(basis, self, bandNum, b, k);
  }

  /** A band counts as valence when its occupation exceeds one half. */
  predicate Occupied(band: Band)
  {
    band.occ > 0.5
  }

  /** vband[k] (valence) or cband[k] (conduction) after the first nb
      reference bands: the squared overlaps with band 0 of proj of those
      bands on that side of the occupation cut. */
  function Share(ref: Pswf, proj: Pswf, valence: bool, k: int, nb: nat): (r: real)
    requires Projectable(ref, proj, 0) && nb <= ref.nband && 0 <= k < NumKpts(ref)
    ensures r >= 0.0
  {
    if nb == 0 then 0.0
    else
      assert Readable(ref.kpts[k], proj.kpts[k], ref.nband, 0);
      Share(ref, proj, valence, k, nb - 1) +
      (if Occupied(ref.kpts[k].bands[nb - 1]) == valence then AbsSq(Ov(ref, proj, 0, nb - 1, k)) else 0.0)
  }

  /** vtotal or ctotal after the first nk k-points: the shares weighted by
      the k-point weights. */
  function Total(ref: Pswf, proj: Pswf, valence: bool, nk: nat): real
    requires Projectable(ref, proj, 0) && nk <= NumKpts(ref)
  {
    if nk == 0 then 0.0
    else Total(ref, proj, valence, nk - 1) + Share(ref, proj, valence, nk - 1, ref.nband) * ref.kpts[nk - 1].weight
  }

  /** The squared overlaps with band 0 of proj of the first nb reference
      bands at k-point k, whatever their occupation. */
  function Norm(ref: Pswf, proj: Pswf, k: int, nb: nat): real
    requires Projectable(ref, proj, 0) && nb <= ref.nband && 0 <= k < NumKpts(ref)
  {
    if nb == 0 then 0.0 else Norm(ref, proj, k, nb - 1) + AbsSq(Ov(ref, proj, 0, nb - 1, k))
  }

  /** The weighted squared overlaps with every reference band. */
  function WeightedNorm(ref: Pswf, proj: Pswf, nk: nat): real
    requires Projectable(ref, proj, 0) && nk <= NumKpts(ref)
  {
    if nk == 0 then 0.0
    else WeightedNorm(ref, proj, nk - 1) + Norm(ref, proj, nk - 1, ref.nband) * ref.kpts[nk - 1].weight
  }

  /** Every band lands on exactly one side of the cut. */
  lemma {:induction false} ShareSplit(ref: Pswf, proj: Pswf, k: int, nb: nat)
    requires Projectable(ref, proj, 0) && nb <= ref.nband && 0 <= k < NumKpts(ref)
    ensures Share(ref, proj, true, k, nb) + Share(ref, proj, false, k, nb) == Norm(ref, proj, k, nb)
  {
    if nb > 0 {
      ShareSplit(ref, proj, k, nb - 1);
    }
  }

  /** The valence and conduction totals split the weighted squared overlap
      of band 0 of proj with the whole reference. */
  lemma {:induction false} TotalSplit(ref: Pswf, proj: Pswf, nk: nat)
    requires Projectable(ref, proj, 0) && nk <= NumKpts(ref)
    ensures Total(ref, proj, true, nk) + Total(ref, proj, false, nk) == WeightedNorm(ref, proj, nk)
  {
    if nk > 0 {
      var w := ref.kpts[nk - 1].weight;
      var v := Share(ref, proj, true, nk - 1, ref.nband);
      var c := Share(ref, proj, false, nk - 1, ref.nband);
      var n := Norm(ref, proj, nk - 1, ref.nband);
      assert Total(ref, proj, true, nk) == Total(ref, proj, true, nk - 1) + v * w;
      assert Total(ref, proj, false, nk) == Total(ref, proj, false, nk - 1) + c * w;
      assert WeightedNorm(ref, proj, nk) == WeightedNorm(ref, proj, nk - 1) + n * w;
      TotalSplit(ref, proj, nk - 1);
      ShareSplit(ref, proj, nk - 1, ref.nband);
      SplitStep(Total(ref, proj, true, nk - 1), Total(ref, proj, false, nk - 1), WeightedNorm(ref, proj, nk - 1),
                v, c, n, w);
    }
  }

  lemma SplitStep(tv: real, tc: real, tn: real, v: real, c: real, n: real, w: real)
    requires tv + tc == tn && v + c == n
    ensures (tv + v * w) + (tc + c * w) == tn + n * w
  {
    assert v * w + c * w == (v + c) * w;
  }

  /** With weights that are not negative, neither total is negative. */
  lemma {:induction false} TotalNonnegative(ref: Pswf, proj: Pswf, valence: bool, nk: nat)
    requires Projectable(ref, proj, 0) && nk <= NumKpts(ref)
    requires forall k :: 0 <= k < nk ==> ref.kpts[k].weight >= 0.0
    ensures Total(ref, proj, valence, nk) >= 0.0
  {
    if nk > 0 {
      TotalNonnegative(ref, proj, valence, nk - 1);
      ProductNonnegative(Share(ref, proj, valence, nk - 1, ref.nband), ref.kpts[nk - 1].weight);
    }
  }

  lemma ProductNonnegative(a: real, b: real)
    requires a >= 0.0 && b >= 0.0
    ensures a * b >= 0.0
  {
  }

  /** One pass of the band loop of vc_pseudoprojection: band b's squared
      overlap goes to vband[k] or cband[k] at every k-point. */
  method AccumulateBand(vband: array<real>, cband: array<real>, ref: Pswf, proj: Pswf, b: int)
    requires Projectable(ref, proj, 0) && 0 <= b < ref.nband
    requires vband != cband && vband.Length == NumKpts(ref) && cband.Length == NumKpts(ref)
    requires forall k :: 0 <= k < NumKpts(ref) ==>
               vband[k] == Share(ref, proj, true, k, b) && cband[k] == Share(ref, proj, false, k, b)
    modifies vband, cband
    ensures forall k :: 0 <= k < NumKpts(ref) ==>
              vband[k] == Share(ref, proj, true, k, b + 1) && cband[k] == Share(ref, proj, false, k, b + 1)
  {
    var numKpts := ref.nwk * ref.nspin;
    for kptNum := 0 to numKpts
      invariant forall k :: 0 <= k < kptNum ==>
                  vband[k] == Share(ref, proj, true, k, b + 1) && cband[k] == Share(ref, proj, false, k, b + 1)
      invariant forall k :: kptNum <= k < numKpts ==>
                  vband[k] == Share(ref, proj, true, k, b) && cband[k] == Share(ref, proj, false, k, b)
    {
      var o := BandOverlap(ref, proj, 0, b, kptNum);
      assert Readable(ref.kpts[kptNum], proj.kpts[kptNum], ref.nband, 0);
      if ref.kpts[kptNum].bands[b].occ > 0.5 {
        vband[kptNum] := vband[kptNum] + AbsSq(o);
      } else {
        cband[kptNum] := cband[kptNum] + AbsSq(o);
      }
    }
  }

  /** The k-point loop of vc_pseudoprojection. */
  method WeightedTotals(vband: array<real>, cband: array<real>, ref: Pswf, proj: Pswf)
    returns (vtotal: real, ctotal: real)
    requires Projectable(ref, proj, 0)
    requires vband.Length == NumKpts(ref) && cband.Length == NumKpts(ref)
    requires forall k :: 0 <= k < NumKpts(ref) ==>
               vband[k] == Share(ref, proj, true, k, ref.nband) && cband[k] == Share(ref, proj, false, k, ref.nband)
    ensures vtotal == Total(ref, proj, true, NumKpts(ref)) && ctotal == Total(ref, proj, false, NumKpts(ref))
  {
    var numKpts := ref.nwk * ref.nspin;
    ctotal := 0.0;
    vtotal := 0.0;
    for kptNum := 0 to numKpts
      invariant vtotal == Total(ref, proj, true, kptNum) && ctotal == Total(ref, proj, false, kptNum)
    {
      ctotal := ctotal + cband[kptNum] * ref.kpts[kptNum].weight;
      vtotal := vtotal + vband[kptNum] * ref.kpts[kptNum].weight;
    }
  }

  /** vc_pseudoprojection (the same in pawpyseed/projector.c and the older
      projector.c): results[0] is the valence total and results[1] the
      conduction total. BAND_NUM is accepted and not read: band 0 of proj is
      always used. */
  method VcPseudoprojection(ref: Pswf, proj: Pswf, bandNum: int, results: array<real>)
    requires Projectable(ref, proj, 0) && results.Length == 2
    modifies results
    ensures results[0] == Total(ref, proj, true, NumKpts(ref))
    ensures results[1] == Total(ref, proj, false, NumKpts(ref))
  {
    var numKpts := ref.nwk * ref.nspin;
    var numBands := ref.nband;
    var cband := new real[numKpts](_ => 0.0);
    var vband := new real[numKpts](_ => 0.0);
    for b := 0 to numBands
      invariant forall k :: 0 <= k < numKpts ==>
                  vband[k] == Share(ref, proj, true, k, b) && cband[k] == Share(ref, proj, false, k, b)
    {
      AccumulateBand(vband, cband, ref, proj, b);
    }
    var vtotal, ctotal := WeightedTotals(vband, cband, ref, proj);
    results[0] := vtotal;
    results[1] := ctotal;
  }

  /** Entries 2q and 2q + 1 of an interleaved array. */
  lemma InterleaveAt(cs: seq<Complex>, q: int)
    requires 0 <= q < |cs|
    ensures Interleave(cs)[2 * q] == cs[q].re && Interleave(cs)[2 * q + 1] == cs[q].im
  {
    assert (2 * q) % 2 == 0 && (2 * q) / 2 == q && (2 * q + 1) % 2 == 1 && (2 * q + 1) / 2 == q;
  }

  /** Adding ct to an interleaved array adds the complex number at 2q, 2q + 1
      of ct to its q-th entry. */
  lemma ReassembleSum(cs: seq<Complex>, ct: seq<real>, res: seq<real>)
    requires |res| == 2 * |cs| && |ct| == |res|
    requires forall t :: 0 <= t < |res| ==> res[t] == Interleave(cs)[t] + ct[t]
    ensures forall q :: 0 <= q < |cs| ==> Reassemble(res)[q] == Add(cs[q], Complex(ct[2 * q], ct[2 * q + 1]))
  {
    forall q | 0 <= q < |cs|
      ensures Reassemble(res)[q] == Add(cs[q], Complex(ct[2 * q], ct[2 * q + 1]))
    {
      InterleaveAt(cs, q);
    }
  }

  /** numpy's res += ct on arrays of equal length. */
  method AddInPlace(res: array<real>, ct: seq<real>)
    requires res.Length == |ct|
    modifies res
    ensures forall t :: 0 <= t < res.Length ==> res[t] == old(res[t]) + ct[t]
  {
    forall t | 0 <= t < res.Length {
      res[t] := res[t] + ct[t];
    }
  }

  /** Projector.single_band_projection. In pseudo mode the result is
      PseudoWavefunction.pseudoprojection of band bandNum of self onto the
      basis. Otherwise the C pseudoprojection array has ct, the
      2 * nband * nwk * nspin doubles compensation_terms returned, added to
      it before it is reassembled. */
  method SingleBandProjection(pseudo: bool, basis: Pswf, self: Pswf, bandNum: int, ct: seq<real>)
    returns (r: seq<Complex>)
    requires Projectable(basis, self, bandNum)
    requires !pseudo ==> |ct| == 2 * (basis.nband * NumKpts(basis))
    ensures |r| == basis.nband * NumKpts(basis)
    ensures pseudo ==> r == PwfPseudoprojection(basis, self, bandNum)
    ensures !pseudo ==> forall q :: 0 <= q < |r| ==>
              r[q] == Add(Overlaps(basis, self, bandNum)[q], Complex(ct[2 * q], ct[2 * q + 1]))
  {
    var res := Pseudoprojection(basis, self, bandNum);
    if pseudo {
      r := Reassemble(res[..]);
      return;
    }
    AddInPlace(res, ct);
    r := Reassemble(res[..]);
    ReassembleSum(Overlaps(basis, self, bandNum), ct, res[..]);
  }

  /** What compensation_terms adds up for k-point k and band b: part 0 over
      the matched sites, 1 over the basis-only sites, 2 over the subject-only
      sites and 3 over the overlapping pairs. The parts themselves
      (rayexp, the projector overlap matrices) are given. */
  function Compensation(part: (int, int, int) -> Complex, k: int, b: int): Complex
  {
    Add(Add(Add(part(k, b, 0), part(k, b, 1)), part(k, b, 2)), part(k, b, 3))
  }

  /** The size compensation_terms allocates: NUM_KPTS * NUM_BANDS doubles. */
  function CompensationAllocAsWritten(numBands: nat, numKpts: nat): nat
  {
    numKpts * numBands
  }

  /** The loop stores 2 * NUM_BANDS * NUM_KPTS doubles, twice what is
      allocated: every iteration w from half the allocation on writes
      overlap[2w + 1] at or past the end of the buffer (so AccumulateTerms's
      bound on the array fails there), and for any non-empty wavefunction
      that includes the last iteration, w = NUM_BANDS * NUM_KPTS - 1. */
  lemma CompensationAsWrittenOverflows(numBands: nat, numKpts: nat, part: (int, int, int) -> Complex)
    requires numBands * numKpts >= 1
    ensures |Interleave(Compensations(numBands, numKpts, part))| == 2 * CompensationAllocAsWritten(numBands, numKpts)
    ensures forall w :: CompensationAllocAsWritten(numBands, numKpts) / 2 <= w < numBands * numKpts ==>
      !(2 * w + 1 < CompensationAllocAsWritten(numBands, numKpts))
    ensures CompensationAllocAsWritten(numBands, numKpts) / 2 <= numBands * numKpts - 1
  {
  }

  /** The sums compensation_terms stores, in iteration order. */
  function Compensations(numBands: nat, numKpts: nat, part: (int, int, int) -> Complex): (r: seq<Complex>)
    ensures |r| == numBands * numKpts
  {
    seq(numBands * numKpts, w requires 0 <= w < numBands * numKpts =>
      FlatDecode(w, numBands, numKpts); Compensation(part, w % numKpts, w / numKpts))
  }

  /** Band b at k-point k sits at b * NUM_KPTS + k, the layout
      pseudoprojection uses; NUM_BANDS and NUM_KPTS are the projected
      wavefunction's counts here and the basis's there. */
  lemma CompensationSlot(numBands: nat, numKpts: nat, part: (int, int, int) -> Complex, b: int, k: int)
    requires 0 <= b < numBands && 0 <= k < numKpts
    ensures 0 <= b * numKpts + k < numBands * numKpts
    ensures Compensations(numBands, numKpts, part)[b * numKpts + k] == Compensation(part, k, b)
  {
    MulMonotone(b + 1, numBands, numKpts);
    DivModUnique(b, k, numKpts);
  }

  /** The body of iteration w: the first part is assigned, the other three
      added. */
  method AccumulateTerms(overlap: array<real>, w: int, k: int, b: int, part: (int, int, int) -> Complex)
    requires 0 <= 2 * w && 2 * w + 1 < overlap.Length
    modifies overlap
    ensures overlap[2 * w] == Compensation(part, k, b).re && overlap[2 * w + 1] == Compensation(part, k, b).im
    ensures forall t :: 0 <= t < overlap.Length && t != 2 * w && t != 2 * w + 1 ==> overlap[t] == old(overlap[t])
  {
    var temp := part(k, b, 0);
    overlap[2 * w] := temp.re;
    overlap[2 * w + 1] := temp.im;
    temp := part(k, b, 1);
    overlap[2 * w] := overlap[2 * w] + temp.re;
    overlap[2 * w + 1] := overlap[2 * w + 1] + temp.im;
    temp := part(k, b, 2);
    overlap[2 * w] := overlap[2 * w] + temp.re;
    overlap[2 * w + 1] := overlap[2 * w + 1] + temp.im;
    temp := part(k, b, 3);
    overlap[2 * w] := overlap[2 * w] + temp.re;
    overlap[2 * w + 1] := overlap[2 * w + 1] + temp.im;
  }

  /** compensation_terms with a buffer of 2 * NUM_BANDS * NUM_KPTS doubles,
      the size the Python caller reads when the projected wavefunction and
      the basis have the same counts: iteration w takes k-point
      w % NUM_KPTS and band w / NUM_KPTS and stores its sum at 2w, 2w + 1.
      By CompensationSlot that is the slot pseudoprojection uses for the same
      band and k-point, so with equal counts res += ct adds matching terms. */
  method CompensationTerms(numBands: nat, numKpts: nat, part: (int, int, int) -> Complex)
    returns (overlap: array<real>)
    ensures fresh(overlap)
    ensures overlap[..] == Interleave(Compensations(numBands, numKpts, part))
  {
    var n := numBands * numKpts;
    overlap := new real[2 * n](_ => 0.0);
    ghost var layout := Interleave(Compensations(numBands, numKpts, part));
    for w := 0 to n
      invariant Filled(overlap[..], layout, 2 * w)
    {
      FlatDecode(w, numBands, numKpts);
      AccumulateTerms(overlap, w, w % numKpts, w / numKpts, part);
      InterleaveAt(Compensations(numBands, numKpts, part), w);
      FilledWrite(overlap[..], layout, 2 * w, 2 * w + 2);
    }
    assert overlap[..] == layout;
  }
}
