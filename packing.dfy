/** The hand-over of the labelled datasets to C.

    Python walks the datasets in ascending label order and appends each one's
    numbers to flat arrays: four integers per element in `clabels`
    ([label, number of projectors, ndata, number of radial grid points]), the
    l values, both grids, and for each projector its real-space values and its
    two partial waves. C walks the same arrays back with one cursor per array
    and rebuilds one record per element. */
module Packing {
  import opened Errors
  import opened Seqs
  import opened Dicts
  import opened Pseudopotentials
  import Numbers
  import opened Labels

  /** x put in its place in an ascending sequence that lacks it. */
  function InsertSorted(x: int, s: seq<int>): (r: seq<int>)
    requires Increasing(s) && x !in s
    ensures Increasing(r) && |r| == |s| + 1
    ensures forall y :: y in r <==> y == x || y in s
  {
    if s == [] then [x]
    else if x < s[0] then [x] + s
    else
      var rest := InsertSorted(x, s[1..]);
      var r := [s[0]] + rest;
      assert forall i, j :: 0 <= i < j < |r| ==> r[i] < r[j] by {
        forall i, j | 0 <= i < j < |r|
          ensures r[i] < r[j]
        {
          if i == 0 {
            assert r[j] == rest[j - 1] && rest[j - 1] in rest;
          } else {
            assert r[i] == rest[i - 1] && r[j] == rest[j - 1];
          }
        }
      }
      r
  }

  /** sorted(keys) for keys without repetitions. */
  function Sorted(ks: seq<int>): (r: seq<int>)
    requires Distinct(ks)
    ensures Increasing(r) && |r| == |ks|
    ensures forall y :: y in r <==> y in ks
  {
    if ks == [] then []
    else
      DistinctInit(ks);
      InsertSorted(ks[|ks| - 1], Sorted(ks[..|ks| - 1]))
  }

  /** The only ascending arrangement of a set of integers is unique: an
      ascending sequence holding exactly 0 .. n-1 is 0 .. n-1 itself. */
  lemma {:induction false} IncreasingRange(s: seq<int>, n: nat)
    requires Increasing(s) && |s| == n
    requires forall y :: y in s <==> 0 <= y < n
    ensures s == Range(0, n)
  {
    forall i | 0 <= i < n
      ensures s[i] == i
    {
      IncreasingAt(s, n, i);
    }
  }

  lemma {:induction false} IncreasingAt(s: seq<int>, n: nat, i: nat)
    requires Increasing(s) && |s| == n && i < n
    requires forall y :: y in s <==> 0 <= y < n
    ensures s[i] == i
    decreases n - i
  {
    // s[i] >= i: the i values before it are distinct naturals below it
    // s[i] <= i: otherwise the n - i values from it on would not fit below n
    LowerBound(s, i);
    UpperGap(s, i, n - 1);
    assert s[n - 1] in s;
  }

  lemma {:induction false} LowerBound(s: seq<int>, i: nat)
    requires Increasing(s) && i < |s|
    requires forall y :: y in s ==> 0 <= y
    ensures s[i] >= i
  {
    if i > 0 {
      LowerBound(s, i - 1);
    } else {
      assert s[0] in s;
    }
  }

  lemma {:induction false} UpperGap(s: seq<int>, i: nat, j: nat)
    requires Increasing(s) && i <= j < |s|
    ensures s[j] >= s[i] + (j - i)
    decreases j - i
  {
    if i < j {
      UpperGap(s, i + 1, j);
    }
  }

  /** What Python hands over, array by array. `rmaxstrs` is filled but not
      passed on. */
  datatype Packed = Packed(
    clabels: seq<int>,
    ls: seq<real>,
    pgrids: seq<real>,
    wgrids: seq<real>,
    projectors: seq<real>,
    aewaves: seq<real>,
    pswaves: seq<real>,
    augs: seq<real>,
    rmaxs: seq<real>,
    rmaxstrs: seq<string>)

  const Empty: Packed := Packed([], [], [], [], [], [], [], [], [], [])

  /** Every array of p followed by the same array of q. */
  function Append(p: Packed, q: Packed): Packed
  {
    Packed(p.clabels + q.clabels, p.ls + q.ls, p.pgrids + q.pgrids, p.wgrids + q.wgrids,
           p.projectors + q.projectors, p.aewaves + q.aewaves, p.pswaves + q.pswaves,
           p.augs + q.augs, p.rmaxs + q.rmaxs, p.rmaxstrs + q.rmaxstrs)
  }

  /** What one element adds to the arrays. Reading rmaxstr of a dataset that
      had no non-local section raises AttributeError; a dataset with fewer
      projectors or partial waves than l values raises IndexError. */
  function Chunk(num: int, pp: Pseudopotential): (r: Result<Packed>)
  {
    var n := |pp.ls|;
    if pp.rmaxstr.None? then Err(AttributeError)
    else if |pp.realprojs| < n || |pp.aewaves| < n || |pp.pswaves| < n then Err(IndexError)
    else Ok(Packed([num, n, pp.ndata, |pp.grid|], pp.ls, pp.projgrid, pp.grid,
                   Concat(pp.realprojs[..n]), Concat(pp.aewaves[..n]), Concat(pp.pswaves[..n]),
                   pp.augs, [pp.rmax], [pp.rmaxstr.value]))
  }

  function ChunkReader(pps: map<int, Pseudopotential>): int -> Result<Packed>
  {
    (num: int) => if num in pps then Chunk(num, pps[num]) else Err(KeyError)
  }

  /** All chunks one after another. */
  function Join(cs: seq<Packed>): Packed
  {
    if cs == [] then Empty else Append(Join(cs[..|cs| - 1]), cs[|cs| - 1])
  }

  lemma JoinSnoc(cs: seq<Packed>, c: Packed)
    ensures Join(cs + [c]) == Append(Join(cs), c)
  {
    assert (cs + [c])[..|cs|] == cs;
  }

  /** get_c_projectors_from_pps: the element count and the packed arrays, in
      ascending label order; the first element that cannot be packed raises. */
  function PackOf(pps: Dict<int, Pseudopotential>): Result<(int, Packed)>
    requires Valid(pps)
  {
    var ks := Sorted(pps.keys);
    match MapAll(ks, ChunkReader(pps.entries))
    case Err(e) => Err(e)
    case Ok(cs) => Ok((|ks|, Join(cs)))
  }

  /** The loop body for one element: its four labels, its radius, its l
      values, grids and augmentation values, then the per-projector arrays. */
  method PackElement(num: int, pp: Pseudopotential, acc: Packed) returns (r: Result<Packed>)
    ensures r.Ok? <==> Chunk(num, pp).Ok?
    ensures r.Ok? ==> r.value == Append(acc, Chunk(num, pp).value)
    ensures r.Err? ==> r.error == Chunk(num, pp).error
  {
    var clabels := acc.clabels + [num, |pp.ls|, pp.ndata, |pp.grid|];
    if pp.rmaxstr.None? {
      return Err(AttributeError);
    }
    var rmaxstrs := acc.rmaxstrs + [pp.rmaxstr.value];
    var rmaxs := acc.rmaxs + [pp.rmax];
    var ls := acc.ls + pp.ls;
    var wgrids := acc.wgrids + pp.grid;
    var pgrids := acc.pgrids + pp.projgrid;
    var augs := acc.augs + pp.augs;
    var waves := PackWaves(pp, acc.projectors, acc.aewaves, acc.pswaves);
    if waves.Err? {
      return Err(IndexError);
    }
    var (projectors, aewaves, pswaves) := waves.value;
    r := Ok(Packed(clabels, ls, pgrids, wgrids, projectors, aewaves, pswaves, augs, rmaxs, rmaxstrs));
  }

  /** `for i in range(len(pp.ls))`: projector i and partial waves i appended
      to the running arrays, or IndexError at the first i one of the three
      lists lacks. */
  method PackWaves(pp: Pseudopotential, projectors0: seq<real>, aewaves0: seq<real>, pswaves0: seq<real>)
      returns (r: Result<(seq<real>, seq<real>, seq<real>)>)
    ensures var n := |pp.ls|;
      r.Ok? <==> n <= |pp.realprojs| && n <= |pp.aewaves| && n <= |pp.pswaves|
    ensures r.Err? ==> r.error == IndexError
    ensures r.Ok? ==> var n := |pp.ls|;
      r.value == (projectors0 + Concat(pp.realprojs[..n]), aewaves0 + Concat(pp.aewaves[..n]),
                  pswaves0 + Concat(pp.pswaves[..n]))
  {
    var projectors, aewaves, pswaves := projectors0, aewaves0, pswaves0;
    var i := 0;
    while i < |pp.ls|
      invariant 0 <= i <= |pp.ls|
      invariant i <= |pp.realprojs| && i <= |pp.aewaves| && i <= |pp.pswaves|
      invariant projectors == projectors0 + Concat(pp.realprojs[..i])
      invariant aewaves == aewaves0 + Concat(pp.aewaves[..i])
      invariant pswaves == pswaves0 + Concat(pp.pswaves[..i])
    {
      if i >= |pp.realprojs| || i >= |pp.aewaves| || i >= |pp.pswaves| {
        return Err(IndexError);
      }
      RunningStep(projectors0, pp.realprojs, i, projectors);
      RunningStep(aewaves0, pp.aewaves, i, aewaves);
      RunningStep(pswaves0, pp.pswaves, i, pswaves);
      projectors := projectors + pp.realprojs[i];
      aewaves := aewaves + pp.aewaves[i];
      pswaves := pswaves + pp.pswaves[i];
      i := i + 1;
    }
    r := Ok((projectors, aewaves, pswaves));
  }

  /** Appending piece i to an array that holds acc0 and the pieces before i. */
  lemma RunningStep<T>(acc0: seq<T>, ss: seq<seq<T>>, i: nat, acc: seq<T>)
    requires i < |ss| && acc == acc0 + Concat(ss[..i])
    ensures acc + ss[i] == acc0 + Concat(ss[..i + 1])
  {
    ConcatStep(ss, i);
    assert acc0 + Concat(ss[..i]) + ss[i] == acc0 + (Concat(ss[..i]) + ss[i]);
  }

  /** Appending one more piece to a running concatenation. */
  lemma ConcatStep<T>(ss: seq<seq<T>>, i: nat)
    requires i < |ss|
    ensures Concat(ss[..i + 1]) == Concat(ss[..i]) + ss[i]
  {
    PrefixSnoc(ss, i);
    ConcatSnoc(ss[..i], ss[i]);
  }

  /** One more key: the packing so far, extended by that key's chunk. */
  lemma PackStep(ks: seq<int>, pps: map<int, Pseudopotential>, t: nat, cs: seq<Packed>)
    requires t < |ks| && ks[t] in pps
    requires MapAll(ks[..t], ChunkReader(pps)) == Ok(cs)
    ensures Chunk(ks[t], pps[ks[t]]).Err? ==>
      MapAll(ks[..t + 1], ChunkReader(pps)) == Err(Chunk(ks[t], pps[ks[t]]).error)
    ensures Chunk(ks[t], pps[ks[t]]).Ok? ==>
      MapAll(ks[..t + 1], ChunkReader(pps)) == Ok(cs + [Chunk(ks[t], pps[ks[t]]).value]) &&
      Join(cs + [Chunk(ks[t], pps[ks[t]]).value]) == Append(Join(cs), Chunk(ks[t], pps[ks[t]]).value)
  {
    PrefixSnoc(ks, t);
    MapAllSnoc(ks[..t], ks[t], ChunkReader(pps));
    if Chunk(ks[t], pps[ks[t]]).Ok? {
      JoinSnoc(cs, Chunk(ks[t], pps[ks[t]]).value);
    }
  }

  /** get_c_projectors_from_pps up to the call into C. */
  method Pack(pps: Dict<int, Pseudopotential>) returns (r: Result<(int, Packed)>)
    requires Valid(pps)
    ensures r == PackOf(pps)
  {
    var ks := Sorted(pps.keys);
    ghost var cs: seq<Packed> := [];
    var acc := Empty;
    var numEls := 0;
    var t := 0;
    while t < |ks|
      invariant 0 <= t <= |ks| && numEls == t
      invariant MapAll(ks[..t], ChunkReader(pps.entries)) == Ok(cs)
      invariant acc == Join(cs)
    {
      var num := ks[t];
      assert num in pps.keys;
      PackStep(ks, pps.entries, t, cs);
      var step := PackElement(num, pps.entries[num], acc);
      if step.Err? {
        MapAllFirstError(ks, t + 1, ChunkReader(pps.entries));
        return Err(step.error);
      }
      cs := cs + [Chunk(num, pps.entries[num]).value];
      acc := step.value;
      numEls := numEls + 1;
      t := t + 1;
    }
    assert ks[..t] == ks;
    r := Ok((numEls, acc));
  }

  /** One projector channel as C stores it: its l, the projector on the
      projector grid, both partial waves and their difference on the radial
      grid. */
  datatype Channel = Channel(l: int, proj: seq<real>, aewave: seq<real>, pswave: seq<real>, diffwave: seq<real>)

  /** One element's record. The three overlap matrices start out NULL. */
  datatype ElementRecord = ElementRecord(
    numProjs: int,
    rmax: real,
    projGridsize: int,
    waveGridsize: int,
    totalProjs: int,
    waveGrid: seq<real>,
    projGrid: seq<real>,
    funcs: seq<Channel>,
    pspwOverlap: Option<seq<real>>,
    aepwOverlap: Option<seq<real>>,
    diffOverlap: Option<seq<real>>)

  /** The arrays get_projector_list reads: `labels` is clabels and `ls` the l
      values as C ints. */
  datatype CArrays = CArrays(
    labels: seq<int>,
    ls: seq<int>,
    projGrids: seq<real>,
    waveGrids: seq<real>,
    projectors: seq<real>,
    aewaves: seq<real>,
    pswaves: seq<real>,
    rmaxs: seq<real>)

  /** The five cursors: partial-wave values, projector values, radial grid
      points, projector grid points and l values consumed so far. */
  datatype Cursors = Cursors(wt: int, pt: int, wgt: int, pgt: int, lNum: int)

  function NumProjs(labels: seq<int>, i: nat): int
    requires 4 * i + 4 <= |labels|
  {
    labels[4 * i + 1]
  }

  function ProjGridsize(labels: seq<int>, i: nat): int
    requires 4 * i + 4 <= |labels|
  {
    labels[4 * i + 2]
  }

  function WaveGridsize(labels: seq<int>, i: nat): int
    requires 4 * i + 4 <= |labels|
  {
    labels[4 * i + 3]
  }

  /** The cursors once the first n elements are read: element i consumes
      num_projs partial waves and projectors, one radial grid, one projector
      grid and num_projs l values. */
  function CursorsAt(labels: seq<int>, n: nat): Cursors
    requires 4 * n <= |labels|
  {
    if n == 0 then Cursors(0, 0, 0, 0, 0)
    else
      var c := CursorsAt(labels, n - 1);
      var np, pg, wg := NumProjs(labels, n - 1), ProjGridsize(labels, n - 1), WaveGridsize(labels, n - 1);
      Cursors(c.wt + np * wg, c.pt + np * pg, c.wgt + wg, c.pgt + pg, c.lNum + np)
  }

  /** The sizes of the first n elements are not negative. */
  predicate SizesOk(labels: seq<int>, n: nat)
    requires 4 * n <= |labels|
  {
    forall i :: 0 <= i < n ==> NumProjs(labels, i) >= 0 && ProjGridsize(labels, i) >= 0 && WaveGridsize(labels, i) >= 0
  }

  /** What get_projector_list needs of its caller: four labels and a radius
      per element, sizes that are not negative, and arrays long enough for
      every cursor to stay inside them. */
  predicate Fits(a: CArrays, numEls: nat)
  {
    && 4 * numEls <= |a.labels| && numEls <= |a.rmaxs| && SizesOk(a.labels, numEls)
    && var c := CursorsAt(a.labels, numEls);
    && c.wt <= |a.aewaves| && c.wt <= |a.pswaves| && c.pt <= |a.projectors|
    && c.wgt <= |a.waveGrids| && c.pgt <= |a.projGrids| && c.lNum <= |a.ls|
  }

  /** Cursors only move forward. */
  lemma {:induction false} CursorsMono(labels: seq<int>, i: nat, n: nat)
    requires i <= n && 4 * n <= |labels| && SizesOk(labels, n)
    ensures var c, d := CursorsAt(labels, i), CursorsAt(labels, n);
      0 <= c.wt <= d.wt && 0 <= c.pt <= d.pt && 0 <= c.wgt <= d.wgt &&
      0 <= c.pgt <= d.pgt && 0 <= c.lNum <= d.lNum
    decreases n
  {
    if n > 0 {
      assert SizesOk(labels, n - 1);
      CursorsMono(labels, if i < n then i else n - 1, n - 1);
      CursorsAdvance(labels, n);
    }
  }

  /** Reading one more element moves no cursor back. */
  lemma CursorsAdvance(labels: seq<int>, n: nat)
    requires 0 < n && 4 * n <= |labels| && SizesOk(labels, n)
    ensures var c, d := CursorsAt(labels, n - 1), CursorsAt(labels, n);
      c.wt <= d.wt && c.pt <= d.pt && c.wgt <= d.wgt && c.pgt <= d.pgt && c.lNum <= d.lNum
  {
    var np, pg, wg := NumProjs(labels, n - 1), ProjGridsize(labels, n - 1), WaveGridsize(labels, n - 1);
    assert np >= 0 && pg >= 0 && wg >= 0;
    Numbers.MulMonotone(0, np, wg);
    Numbers.MulMonotone(0, np, pg);
  }

  /** total_projs: 2l + 1 magnetic channels per l value. */
  function TotalProjs(ls: seq<int>): int
  {
    if ls == [] then 0 else TotalProjs(ls[..|ls| - 1]) + 2 * ls[|ls| - 1] + 1
  }

  /** The element-wise difference of two partial waves. */
  function Diff(ae: seq<real>, ps: seq<real>): (r: seq<real>)
    requires |ae| == |ps|
    ensures |r| == |ae| && forall j :: 0 <= j < |r| ==> r[j] == ae[j] - ps[j]
  {
    seq(|ae|, j requires 0 <= j < |ae| => ae[j] - ps[j])
  }

  /** The channels of an element whose cursors start at c stay inside the arrays. */
  predicate ChannelsFit(a: CArrays, c: Cursors, np: int, pg: int, wg: int)
  {
    && 0 <= np && 0 <= pg && 0 <= wg && 0 <= c.wt && 0 <= c.pt && 0 <= c.lNum
    && c.wt + np * wg <= |a.aewaves| && c.wt + np * wg <= |a.pswaves|
    && c.pt + np * pg <= |a.projectors| && c.lNum + np <= |a.ls|
  }

  /** Channel k of the element whose cursors start at c. */
  function ChannelOf(a: CArrays, c: Cursors, np: int, pg: int, wg: int, k: int): Channel
    requires ChannelsFit(a, c, np, pg, wg) && 0 <= k < np
  {
    Numbers.MulMonotone(k + 1, np, wg);
    Numbers.MulMonotone(k + 1, np, pg);
    var ae := a.aewaves[c.wt + k * wg .. c.wt + k * wg + wg];
    var ps := a.pswaves[c.wt + k * wg .. c.wt + k * wg + wg];
    Channel(a.ls[c.lNum + k], a.projectors[c.pt + k * pg .. c.pt + k * pg + pg], ae, ps, Diff(ae, ps))
  }

  /** The channels of element i, in order. */
  function ChannelsOf(a: CArrays, c: Cursors, np: int, pg: int, wg: int): (r: seq<Channel>)
    requires ChannelsFit(a, c, np, pg, wg)
    ensures |r| == np && forall k :: 0 <= k < np ==> r[k] == ChannelOf(a, c, np, pg, wg, k)
  {
    seq(np, k requires 0 <= k < np => ChannelOf(a, c, np, pg, wg, k))
  }

  /** Element i's cursors, and the cursors past it, lie between the start
      and the end of the arrays. */
  lemma CursorsBetween(labels: seq<int>, i: nat, n: nat)
    requires i < n && 4 * n <= |labels| && SizesOk(labels, n)
    ensures var c, np, pg, wg := CursorsAt(labels, i), NumProjs(labels, i), ProjGridsize(labels, i), WaveGridsize(labels, i);
      var e := CursorsAt(labels, n);
      && 0 <= np && 0 <= pg && 0 <= wg && 0 <= c.wt && 0 <= c.pt && 0 <= c.wgt && 0 <= c.pgt && 0 <= c.lNum
      && c.wt + np * wg <= e.wt && c.pt + np * pg <= e.pt && c.wgt + wg <= e.wgt && c.pgt + pg <= e.pgt
      && c.lNum + np <= e.lNum
  {
    CursorsMono(labels, i, n);
    CursorsMono(labels, i + 1, n);
  }

  /** Element i's grids and channels lie inside the arrays. */
  lemma ElementFits(a: CArrays, numEls: nat, i: nat)
    requires Fits(a, numEls) && i < numEls
    ensures var c, np, pg, wg := CursorsAt(a.labels, i), NumProjs(a.labels, i), ProjGridsize(a.labels, i), WaveGridsize(a.labels, i);
      && ChannelsFit(a, c, np, pg, wg)
      && 0 <= c.wgt && c.wgt + wg <= |a.waveGrids| && 0 <= c.pgt && c.pgt + pg <= |a.projGrids|
      && c.lNum + np <= |a.ls|
  {
    CursorsBetween(a.labels, i, numEls);
  }

  /** Element i as get_projector_list builds it, read straight off the
      arrays at the offsets the earlier elements leave. */
  function ElementOf(a: CArrays, numEls: nat, i: nat): ElementRecord
    requires Fits(a, numEls) && i < numEls
  {
    ElementFits(a, numEls, i);
    RecordAt(a, CursorsAt(a.labels, i), NumProjs(a.labels, i), ProjGridsize(a.labels, i),
             WaveGridsize(a.labels, i), a.rmaxs[i])
  }

  /** The record of an element with the given sizes and radius whose
      cursors stand at c. */
  function RecordAt(a: CArrays, c: Cursors, np: int, pg: int, wg: int, rmax: real): ElementRecord
    requires ChannelsFit(a, c, np, pg, wg)
    requires 0 <= c.wgt && c.wgt + wg <= |a.waveGrids| && 0 <= c.pgt && c.pgt + pg <= |a.projGrids|
  {
    ElementRecord(np, rmax, pg, wg, TotalProjs(a.ls[c.lNum .. c.lNum + np]),
                  a.waveGrids[c.wgt .. c.wgt + wg], a.projGrids[c.pgt .. c.pgt + pg],
                  ChannelsOf(a, c, np, pg, wg), None, None, None)
  }

  /** Copies n values starting at the cursor, one at a time. */
  method CopySlice(src: seq<real>, start: int, n: int) returns (dst: seq<real>)
    requires 0 <= start && 0 <= n && start + n <= |src|
    ensures dst == src[start .. start + n]
  {
    dst := [];
    var j := 0;
    while j < n
      invariant 0 <= j <= n
      invariant dst == src[start .. start + j]
    {
      dst := dst + [src[start + j]];
      j := j + 1;
    }
  }

  /** Copies one pair of partial waves and fills in their difference. */
  method ReadWaves(aeSrc: seq<real>, psSrc: seq<real>, start: int, n: int)
    returns (ae: seq<real>, ps: seq<real>, diff: seq<real>)
    requires 0 <= start && 0 <= n && start + n <= |aeSrc| && start + n <= |psSrc|
    ensures ae == aeSrc[start .. start + n] && ps == psSrc[start .. start + n]
    ensures diff == Diff(ae, ps)
  {
    ae, ps, diff := [], [], [];
    var j := 0;
    while j < n
      invariant 0 <= j <= n
      invariant ae == aeSrc[start .. start + j] && ps == psSrc[start .. start + j]
      invariant |diff| == j && forall m :: 0 <= m < j ==> diff[m] == ae[m] - ps[m]
    {
      ae := ae + [aeSrc[start + j]];
      ps := ps + [psSrc[start + j]];
      diff := diff + [aeSrc[start + j] - psSrc[start + j]];
      j := j + 1;
    }
  }

  /** Reads channel k: its l, both partial waves with their difference, and
      its projector. */
  /** Channel k's slices lie inside the arrays. */
  lemma ChannelInside(a: CArrays, c: Cursors, np: int, pg: int, wg: int, k: int)
    requires ChannelsFit(a, c, np, pg, wg) && 0 <= k < np
    ensures 0 <= c.wt + k * wg && c.wt + k * wg + wg <= |a.aewaves| && c.wt + k * wg + wg <= |a.pswaves|
    ensures 0 <= c.pt + k * pg && c.pt + k * pg + pg <= |a.projectors|
  {
    Numbers.MulMonotone(k + 1, np, wg);
    Numbers.MulMonotone(k + 1, np, pg);
  }

  method ReadChannel(a: CArrays, c: Cursors, np: int, pg: int, wg: int, k: int, wt: int, pt: int)
    returns (ch: Channel)
    requires ChannelsFit(a, c, np, pg, wg) && 0 <= k < np
    requires wt == c.wt + k * wg && pt == c.pt + k * pg
    ensures ch == ChannelOf(a, c, np, pg, wg, k)
  {
    ChannelInside(a, c, np, pg, wg, k);
    var l := a.ls[c.lNum + k];
    var ae, ps, diff := ReadWaves(a.aewaves, a.pswaves, wt, wg);
    var proj := CopySlice(a.projectors, pt, pg);
    ch := Channel(l, proj, ae, ps, diff);
  }

  lemma TotalProjsSnoc(ls: seq<int>, j: int, n: int)
    requires 0 <= j <= n < |ls|
    ensures TotalProjs(ls[j .. n + 1]) == TotalProjs(ls[j .. n]) + 2 * ls[n] + 1
  {
    assert ls[j .. n + 1][..n - j] == ls[j .. n];
  }

  /** The channel loop: the cursors advance by one partial wave, one
      projector and one l value per channel, and total_projs adds 2l + 1. */
  method ReadChannels(a: CArrays, c: Cursors, np: int, pg: int, wg: int)
    returns (funcs: seq<Channel>, total: int)
    requires ChannelsFit(a, c, np, pg, wg)
    ensures funcs == ChannelsOf(a, c, np, pg, wg)
    ensures total == TotalProjs(a.ls[c.lNum .. c.lNum + np])
  {
    var wt, pt, lNum := c.wt, c.pt, c.lNum;
    funcs, total := [], 0;
    var k := 0;
    while k < np
      invariant 0 <= k <= np
      invariant wt == c.wt + k * wg && pt == c.pt + k * pg && lNum == c.lNum + k
      invariant total == TotalProjs(a.ls[c.lNum .. lNum])
      invariant |funcs| == k && forall m :: 0 <= m < k ==> funcs[m] == ChannelOf(a, c, np, pg, wg, m)
    {
      var ch := ReadChannel(a, c, np, pg, wg, k, wt, pt);
      TotalProjsSnoc(a.ls, c.lNum, lNum);
      total := total + 2 * a.ls[lNum] + 1;
      funcs := funcs + [ch];
      Numbers.MulSucc(k, wg);
      Numbers.MulSucc(k, pg);
      wt, pt, lNum, k := wt + wg, pt + pg, lNum + 1, k + 1;
    }
  }

  /** Reads element i whose cursors stand at c, and moves the cursors past it. */
  method ReadElement(a: CArrays, numEls: nat, i: nat, c: Cursors) returns (e: ElementRecord, next: Cursors)
    requires Fits(a, numEls) && i < numEls && c == CursorsAt(a.labels, i)
    ensures e == ElementOf(a, numEls, i)
    ensures next == CursorsAt(a.labels, i + 1)
  {
    ElementFits(a, numEls, i);
    var np, pg, wg := a.labels[4 * i + 1], a.labels[4 * i + 2], a.labels[4 * i + 3];
    var rmax := a.rmaxs[i];
    var waveGrid := CopySlice(a.waveGrids, c.wgt, wg);
    var projGrid := CopySlice(a.projGrids, c.pgt, pg);
    var funcs, total := ReadChannels(a, c, np, pg, wg);
    e := ElementRecord(np, rmax, pg, wg, total, waveGrid, projGrid, funcs, None, None, None);
    next := Cursors(c.wt + np * wg, c.pt + np * pg, c.wgt + wg, c.pgt + pg, c.lNum + np);
  }

  /** get_projector_list: one record per element, the cursors carried from
      each element to the next. */
  method GetProjectorList(numEls: nat, a: CArrays) returns (pps: array<ElementRecord>)
    requires Fits(a, numEls)
    ensures fresh(pps) && pps.Length == numEls
    ensures forall i :: 0 <= i < numEls ==> pps[i] == ElementOf(a, numEls, i)
  {
    pps := new ElementRecord[numEls];
    var c := Cursors(0, 0, 0, 0, 0);
    for i := 0 to numEls
      invariant c == CursorsAt(a.labels, i)
      invariant forall m :: 0 <= m < i ==> pps[m] == ElementOf(a, numEls, m)
    {
      var e;
      e, c := ReadElement(a, numEls, i, c);
      pps[i] := e;
    }
  }

  // ---------------------------------------------------------------------
  // Round trip: what C rebuilds from the arrays Python packs.

  /** The l values as C ints; `cint` stands for the conversion applied to
      them on the way into C. */
  function CInts(cint: real -> int, s: seq<real>): (r: seq<int>)
    ensures |r| == |s| && forall j :: 0 <= j < |s| ==> r[j] == cint(s[j])
  {
    seq(|s|, j requires 0 <= j < |s| => cint(s[j]))
  }

  /** The arrays C receives from a packing. */
  function ToC(p: Packed, cint: real -> int): CArrays
  {
    CArrays(p.clabels, CInts(cint, p.ls), p.pgrids, p.wgrids, p.projectors, p.aewaves, p.pswaves, p.rmaxs)
  }

  /** A dataset C can read back: it has a radius string, one projector and
      two partial waves per l value, projectors of ndata points on a grid of
      ndata points, and partial waves as long as the radial grid. */
  predicate Shaped(pp: Pseudopotential)
  {
    && pp.rmaxstr.Some?
    && |pp.projgrid| == pp.ndata
    && |pp.realprojs| >= |pp.ls| && |pp.aewaves| >= |pp.ls| && |pp.pswaves| >= |pp.ls|
    && forall k :: 0 <= k < |pp.ls| ==>
         |pp.realprojs[k]| == pp.ndata && |pp.aewaves[k]| == |pp.grid| && |pp.pswaves[k]| == |pp.grid|
  }

  /** The record C should build for a dataset. */
  function RecordOf(pp: Pseudopotential, cint: real -> int): ElementRecord
    requires Shaped(pp)
  {
    var n := |pp.ls|;
    ElementRecord(n, pp.rmax, pp.ndata, |pp.grid|, TotalProjs(CInts(cint, pp.ls)), pp.grid, pp.projgrid,
                  DatasetChannels(pp, cint), None, None, None)
  }

  /** The dataset's channels: one per l value, with its projector, both
      partial waves and their difference. */
  function DatasetChannels(pp: Pseudopotential, cint: real -> int): (r: seq<Channel>)
    requires Shaped(pp)
    ensures |r| == |pp.ls|
    ensures forall k :: 0 <= k < |pp.ls| ==>
      r[k] == Channel(cint(pp.ls[k]), pp.realprojs[k], pp.aewaves[k], pp.pswaves[k], Diff(pp.aewaves[k], pp.pswaves[k]))
  {
    seq(|pp.ls|, k requires 0 <= k < |pp.ls| =>
      Channel(cint(pp.ls[k]), pp.realprojs[k], pp.aewaves[k], pp.pswaves[k], Diff(pp.aewaves[k], pp.pswaves[k])))
  }

  /** A chunk whose four labels describe its own arrays. */
  predicate ChunkShaped(c: Packed)
  {
    && |c.clabels| == 4 && |c.rmaxs| == 1
    && c.clabels[1] == |c.ls| && c.clabels[2] == |c.pgrids| && c.clabels[3] == |c.wgrids|
    && |c.projectors| == |c.ls| * |c.pgrids|
    && |c.aewaves| == |c.ls| * |c.wgrids| && |c.pswaves| == |c.ls| * |c.wgrids|
  }

  /** Piece k of a concatenation of pieces of length w sits at k * w. */
  lemma UniformPiece<T>(ss: seq<seq<T>>, w: nat, k: nat)
    requires k < |ss| && forall m :: 0 <= m < |ss| ==> |ss[m]| == w
    ensures |Concat(ss)| == |ss| * w
    ensures k * w + w <= |Concat(ss)| && Concat(ss)[k * w .. k * w + w] == ss[k]
  {
    ConcatUniform(ss, w);
    ConcatUniform(ss[..k], w);
    ConcatSlice(ss, k);
  }

  /** A shaped dataset packs into a chunk whose labels describe it. */
  lemma ChunkOfShaped(num: int, pp: Pseudopotential)
    requires Shaped(pp)
    ensures Chunk(num, pp).Ok? && ChunkShaped(Chunk(num, pp).value)
  {
    var n := |pp.ls|;
    ConcatUniform(pp.realprojs[..n], pp.ndata);
    ConcatUniform(pp.aewaves[..n], |pp.grid|);
    ConcatUniform(pp.pswaves[..n], |pp.grid|);
  }

  /** Each array of p is the start of the same array of q. */
  predicate PrefixOf(p: Packed, q: Packed)
  {
    && p.clabels <= q.clabels && p.ls <= q.ls && p.pgrids <= q.pgrids && p.wgrids <= q.wgrids
    && p.projectors <= q.projectors && p.aewaves <= q.aewaves && p.pswaves <= q.pswaves && p.rmaxs <= q.rmaxs
  }

  lemma {:induction false} JoinPrefix(cs: seq<Packed>, t: nat)
    requires t <= |cs|
    ensures PrefixOf(Join(cs[..t]), Join(cs))
    decreases |cs|
  {
    if t < |cs| {
      var init := cs[..|cs| - 1];
      assert init[..t] == cs[..t];
      JoinPrefix(init, t);
    } else {
      assert cs[..t] == cs;
    }
  }

  /** Four labels and one radius per chunk. */
  lemma {:induction false} JoinCounts(cs: seq<Packed>)
    requires forall m :: 0 <= m < |cs| ==> ChunkShaped(cs[m])
    ensures |Join(cs).clabels| == 4 * |cs| && |Join(cs).rmaxs| == |cs|
    ensures |Join(cs).pswaves| == |Join(cs).aewaves|
  {
    if cs != [] {
      JoinCounts(cs[..|cs| - 1]);
    }
  }

  /** The cursors are read off the first 4n labels alone. */
  lemma {:induction false} CursorsFromLabels(l1: seq<int>, l2: seq<int>, n: nat)
    requires 4 * n <= |l1| && 4 * n <= |l2| && l1[..4 * n] == l2[..4 * n]
    ensures CursorsAt(l1, n) == CursorsAt(l2, n)
    ensures SizesOk(l1, n) <==> SizesOk(l2, n)
  {
    if n > 0 {
      assert l1[..4 * (n - 1)] == l1[..4 * n][..4 * (n - 1)];
      assert l2[..4 * (n - 1)] == l2[..4 * n][..4 * (n - 1)];
      CursorsFromLabels(l1, l2, n - 1);
      assert l1[4 * n - 3] == l1[..4 * n][4 * n - 3];
      assert l1[4 * n - 2] == l1[..4 * n][4 * n - 2];
      assert l1[4 * n - 1] == l1[..4 * n][4 * n - 1];
    }
  }

  /** How far each cursor has to go to get past a packing. */
  function Lengths(p: Packed): Cursors
  {
    Cursors(|p.aewaves|, |p.projectors|, |p.wgrids|, |p.pgrids|, |p.ls|)
  }

  /** One more chunk moves each cursor past that chunk's arrays. */
  lemma CursorsStep(p: Packed, c: Packed, n: nat)
    requires |p.clabels| == 4 * n && ChunkShaped(c)
    requires SizesOk(p.clabels, n) && CursorsAt(p.clabels, n) == Lengths(p)
    ensures SizesOk(Append(p, c).clabels, n + 1) && CursorsAt(Append(p, c).clabels, n + 1) == Lengths(Append(p, c))
  {
    var q := Append(p, c);
    assert q.clabels[..4 * n] == p.clabels[..4 * n];
    CursorsFromLabels(q.clabels, p.clabels, n);
    assert q.clabels[4 * n + 1] == c.clabels[1] && q.clabels[4 * n + 2] == c.clabels[2] && q.clabels[4 * n + 3] == c.clabels[3];
  }

  /** Reading the arrays of a whole packing moves every cursor to the end
      of its array. */
  lemma {:induction false} JoinCursors(cs: seq<Packed>)
    requires forall m :: 0 <= m < |cs| ==> ChunkShaped(cs[m])
    ensures 4 * |cs| == |Join(cs).clabels|
    ensures SizesOk(Join(cs).clabels, |cs|)
    ensures CursorsAt(Join(cs).clabels, |cs|) == Lengths(Join(cs))
  {
    JoinCounts(cs);
    if cs != [] {
      var n := |cs| - 1;
      JoinCursors(cs[..n]);
      CursorsStep(Join(cs[..n]), cs[n], n);
    }
  }

  /** The arrays of a whole packing fit get_projector_list's demands. */
  lemma JoinFits(cs: seq<Packed>, cint: real -> int)
    requires forall m :: 0 <= m < |cs| ==> ChunkShaped(cs[m])
    ensures Fits(ToC(Join(cs), cint), |cs|)
  {
    JoinCursors(cs);
    var p := Join(cs);
    var a := ToC(p, cint);
    assert a.labels == p.clabels && |a.ls| == |p.ls|;
    JoinCounts(cs);
  }

  /** y sits in z right after x. */
  lemma SliceAfter<T>(x: seq<T>, y: seq<T>, z: seq<T>)
    requires x + y <= z
    ensures z[|x| .. |x| + |y|] == y
  {
    assert z[..|x| + |y|] == x + y;
    assert z[|x| .. |x| + |y|] == (x + y)[|x|..];
  }

  /** Labels 4t .. 4t+3 are chunk c's own. */
  predicate LabelsAt(labels: seq<int>, t: nat, c: Packed)
  {
    4 * t + 4 <= |labels| && |c.clabels| == 4 && labels[4 * t .. 4 * t + 4] == c.clabels
  }

  /** Chunk t's arrays follow those of the chunks before it. */
  lemma JoinChunkPlace(cs: seq<Packed>, t: nat)
    requires t < |cs|
    ensures PrefixOf(Append(Join(cs[..t]), cs[t]), Join(cs))
  {
    JoinPrefix(cs, t + 1);
    PrefixSnoc(cs, t);
    JoinSnoc(cs[..t], cs[t]);
  }

  /** Where chunk t lies inside the whole packing: its cursors are the
      lengths of the chunks before it. */
  lemma JoinChunkAt(cs: seq<Packed>, t: nat)
    requires forall m :: 0 <= m < |cs| ==> ChunkShaped(cs[m])
    requires t < |cs|
    ensures 4 * |cs| == |Join(cs).clabels|
    ensures CursorsAt(Join(cs).clabels, t) == Lengths(Join(cs[..t]))
    ensures |Join(cs[..t]).rmaxs| == t && |Join(cs[..t]).pswaves| == |Join(cs[..t]).aewaves|
  {
    var p := JoinInit(cs, t);
    JoinCounts(cs);
    InitShaped(cs, t);
    JoinCursors(cs[..t]);
    JoinPrefix(cs, t);
    var l := Join(cs).clabels;
    assert l[..4 * t] == p.clabels[..4 * t];
    CursorsFromLabels(l, p.clabels, t);
  }

  /** The chunks before t are shaped, and they take 4t labels. */
  lemma JoinInit(cs: seq<Packed>, t: nat) returns (p: Packed)
    requires forall m :: 0 <= m < |cs| ==> ChunkShaped(cs[m])
    requires t <= |cs|
    ensures p == Join(cs[..t])
    ensures |p.clabels| == 4 * t && |p.rmaxs| == t && |p.pswaves| == |p.aewaves|
  {
    InitShaped(cs, t);
    JoinCounts(cs[..t]);
    p := Join(cs[..t]);
  }

  lemma InitShaped(cs: seq<Packed>, t: nat)
    requires forall m :: 0 <= m < |cs| ==> ChunkShaped(cs[m])
    requires t <= |cs|
    ensures forall m :: 0 <= m < t ==> ChunkShaped(cs[..t][m])
  {
    forall m | 0 <= m < t
      ensures ChunkShaped(cs[..t][m])
    {
      assert cs[..t][m] == cs[m];
    }
  }

  /** Chunk t's labels are its own four. */
  lemma JoinLabelsAt(cs: seq<Packed>, t: nat)
    requires t < |cs| && |Join(cs[..t]).clabels| == 4 * t && |cs[t].clabels| == 4
    ensures LabelsAt(Join(cs).clabels, t, cs[t])
  {
    var p := Join(cs[..t]);
    JoinChunkPlace(cs, t);
    var l := Join(cs).clabels;
    assert Append(p, cs[t]).clabels == p.clabels + cs[t].clabels;
    assert p.clabels + cs[t].clabels <= l;
    SliceAfter(p.clabels, cs[t].clabels, l);
    assert l[4 * t .. 4 * t + 4] == cs[t].clabels;
  }

  /** Piece k of pieces of width w laid out from `start` on. */
  lemma PieceAt(arr: seq<real>, start: nat, ss: seq<seq<real>>, w: nat, k: nat)
    requires start <= |arr| && Concat(ss) <= arr[start..]
    requires k < |ss| && forall m :: 0 <= m < |ss| ==> |ss[m]| == w
    ensures start + k * w + w <= |arr| && arr[start + k * w .. start + k * w + w] == ss[k]
  {
    UniformPiece(ss, w, k);
    assert arr[start..][k * w .. k * w + w] == ss[k];
  }

  /** Channel k read back from the arrays is channel k of the dataset. */
  lemma ChannelMatches(a: CArrays, c: Cursors, pp: Pseudopotential, cint: real -> int, k: nat)
    requires Shaped(pp) && k < |pp.ls|
    requires ChannelsFit(a, c, |pp.ls|, pp.ndata, |pp.grid|)
    requires Concat(pp.aewaves[..|pp.ls|]) <= a.aewaves[c.wt..]
    requires Concat(pp.pswaves[..|pp.ls|]) <= a.pswaves[c.wt..]
    requires Concat(pp.realprojs[..|pp.ls|]) <= a.projectors[c.pt..]
    requires a.ls[c.lNum .. c.lNum + |pp.ls|] == CInts(cint, pp.ls)
    ensures ChannelOf(a, c, |pp.ls|, pp.ndata, |pp.grid|, k) ==
      Channel(cint(pp.ls[k]), pp.realprojs[k], pp.aewaves[k], pp.pswaves[k], Diff(pp.aewaves[k], pp.pswaves[k]))
  {
    var n, pg, wg := |pp.ls|, pp.ndata, |pp.grid|;
    Numbers.MulMonotone(0, n, wg);
    Numbers.MulMonotone(0, n, pg);
    PiecesAt(a, c, pp, k);
    assert a.ls[c.lNum + k] == a.ls[c.lNum .. c.lNum + n][k];
  }

  /** Channel k's projector and partial waves sit at k times their width
      past the element's cursors. */
  lemma PiecesAt(a: CArrays, c: Cursors, pp: Pseudopotential, k: nat)
    requires Shaped(pp) && k < |pp.ls|
    requires 0 <= c.wt <= |a.aewaves| && c.wt <= |a.pswaves| && 0 <= c.pt <= |a.projectors|
    requires Concat(pp.aewaves[..|pp.ls|]) <= a.aewaves[c.wt..]
    requires Concat(pp.pswaves[..|pp.ls|]) <= a.pswaves[c.wt..]
    requires Concat(pp.realprojs[..|pp.ls|]) <= a.projectors[c.pt..]
    ensures var pg, wg := pp.ndata, |pp.grid|;
      && c.wt + k * wg + wg <= |a.aewaves| && a.aewaves[c.wt + k * wg .. c.wt + k * wg + wg] == pp.aewaves[k]
      && c.wt + k * wg + wg <= |a.pswaves| && a.pswaves[c.wt + k * wg .. c.wt + k * wg + wg] == pp.pswaves[k]
      && c.pt + k * pg + pg <= |a.projectors| && a.projectors[c.pt + k * pg .. c.pt + k * pg + pg] == pp.realprojs[k]
  {
    var n := |pp.ls|;
    ShapedPieces(pp);
    PieceAt(a.aewaves, c.wt, pp.aewaves[..n], |pp.grid|, k);
    PieceAt(a.pswaves, c.wt, pp.pswaves[..n], |pp.grid|, k);
    PieceAt(a.projectors, c.pt, pp.realprojs[..n], pp.ndata, k);
    assert pp.aewaves[..n][k] == pp.aewaves[k] && pp.pswaves[..n][k] == pp.pswaves[k];
    assert pp.realprojs[..n][k] == pp.realprojs[k];
  }

  /** The first |ls| projectors and partial waves all have the widths C expects. */
  lemma ShapedPieces(pp: Pseudopotential)
    requires Shaped(pp)
    ensures var n := |pp.ls|;
      && (forall m :: 0 <= m < n ==> |pp.aewaves[..n][m]| == |pp.grid|)
      && (forall m :: 0 <= m < n ==> |pp.pswaves[..n][m]| == |pp.grid|)
      && (forall m :: 0 <= m < n ==> |pp.realprojs[..n][m]| == pp.ndata)
  {
  }

  /** What follows x at the start of z starts z[|x|..]. */
  lemma SuffixAfter<T>(x: seq<T>, y: seq<T>, z: seq<T>)
    requires x + y <= z
    ensures y <= z[|x|..]
  {
    assert z[|x|..][..|y|] == (x + y)[|x|..];
  }

  /** The arrays hold the dataset's grids, projectors, partial waves and
      l values where the cursors c point. */
  predicate Placed(a: CArrays, c: Cursors, pp: Pseudopotential, cint: real -> int)
    requires Shaped(pp)
  {
    var n := |pp.ls|;
    && 0 <= c.wgt && c.wgt + |pp.grid| <= |a.waveGrids| && a.waveGrids[c.wgt .. c.wgt + |pp.grid|] == pp.grid
    && 0 <= c.pgt && c.pgt + pp.ndata <= |a.projGrids| && a.projGrids[c.pgt .. c.pgt + pp.ndata] == pp.projgrid
    && 0 <= c.wt <= |a.aewaves| && Concat(pp.aewaves[..n]) <= a.aewaves[c.wt..]
    && c.wt <= |a.pswaves| && Concat(pp.pswaves[..n]) <= a.pswaves[c.wt..]
    && 0 <= c.pt <= |a.projectors| && Concat(pp.realprojs[..n]) <= a.projectors[c.pt..]
    && 0 <= c.lNum && c.lNum + n <= |a.ls| && a.ls[c.lNum .. c.lNum + n] == CInts(cint, pp.ls)
  }

  /** The arrays of a dataset's chunk, placed after those of p inside j, as
      C sees them from p's lengths on. */
  lemma ChunkSlices(p: Packed, j: Packed, num: int, pp: Pseudopotential, cint: real -> int)
    requires Shaped(pp) && Chunk(num, pp).Ok? && PrefixOf(Append(p, Chunk(num, pp).value), j)
    requires |p.pswaves| == |p.aewaves|
    ensures |p.rmaxs| < |j.rmaxs| && j.rmaxs[|p.rmaxs|] == pp.rmax
    ensures Placed(ToC(j, cint), Lengths(p), pp, cint)
  {
    var ch := Chunk(num, pp).value;
    SliceAfter(p.rmaxs, ch.rmaxs, j.rmaxs);
    assert j.rmaxs[|p.rmaxs|] == j.rmaxs[|p.rmaxs| .. |p.rmaxs| + 1][0];
    SliceAfter(p.wgrids, ch.wgrids, j.wgrids);
    SliceAfter(p.pgrids, ch.pgrids, j.pgrids);
    SuffixAfter(p.aewaves, ch.aewaves, j.aewaves);
    SuffixAfter(p.pswaves, ch.pswaves, j.pswaves);
    SuffixAfter(p.projectors, ch.projectors, j.projectors);
    SliceAfter(p.ls, ch.ls, j.ls);
    var a, n := ToC(j, cint), |pp.ls|;
    forall m | 0 <= m < n
      ensures a.ls[|p.ls| .. |p.ls| + n][m] == cint(pp.ls[m])
    {
      assert j.ls[|p.ls| .. |p.ls| + n][m] == j.ls[|p.ls| + m];
    }
  }

  /** Element t's four labels are those of the dataset packed as chunk t. */
  lemma LabelsMatch(labels: seq<int>, t: nat, num: int, pp: Pseudopotential)
    requires Chunk(num, pp).Ok? && LabelsAt(labels, t, Chunk(num, pp).value)
    ensures NumProjs(labels, t) == |pp.ls| && ProjGridsize(labels, t) == pp.ndata
    ensures WaveGridsize(labels, t) == |pp.grid|
  {
    assert labels[4 * t .. 4 * t + 4][1] == labels[4 * t + 1];
    assert labels[4 * t .. 4 * t + 4][2] == labels[4 * t + 2];
    assert labels[4 * t .. 4 * t + 4][3] == labels[4 * t + 3];
  }

  /** Element t's record, when the arrays hold the dataset's numbers where
      element t's cursors point. */
lemma ElementFromParts(a: CArrays, numEls: nat, t: nat, pp: Pseudopotential, cint: real -> int, c: Cursors)
    requires Fits(a, numEls) && t < numEls && Shaped(pp) && c == CursorsAt(a.labels, t)
    requires NumProjs(a.labels, t) == |pp.ls| && ProjGridsize(a.labels, t) == pp.ndata
    requires WaveGridsize(a.labels, t) == |pp.grid| && a.rmaxs[t] == pp.rmax
    requires Placed(a, c, pp, cint)
    ensures ElementOf(a, numEls, t) == RecordOf(pp, cint)
  {
    ElementFits(a, numEls, t);
    RecordMatches(a, c, pp, cint);
  }

  /** The record read where the arrays hold the dataset is the dataset's. */
  lemma RecordMatches(a: CArrays, c: Cursors, pp: Pseudopotential, cint: real -> int)
    requires Shaped(pp) && ChannelsFit(a, c, |pp.ls|, pp.ndata, |pp.grid|) && Placed(a, c, pp, cint)
    ensures RecordAt(a, c, |pp.ls|, pp.ndata, |pp.grid|, pp.rmax) == RecordOf(pp, cint)
  {
    ChannelsMatch(a, c, pp, cint);
  }

  /** All channels read back from the arrays are the dataset's. */
  lemma ChannelsMatch(a: CArrays, c: Cursors, pp: Pseudopotential, cint: real -> int)
    requires Shaped(pp) && ChannelsFit(a, c, |pp.ls|, pp.ndata, |pp.grid|) && Placed(a, c, pp, cint)
    ensures ChannelsOf(a, c, |pp.ls|, pp.ndata, |pp.grid|) == RecordOf(pp, cint).funcs
  {
    var n, pg, wg := |pp.ls|, pp.ndata, |pp.grid|;
    var funcs := ChannelsOf(a, c, n, pg, wg);
    forall k | 0 <= k < n
      ensures funcs[k] == RecordOf(pp, cint).funcs[k]
    {
      ChannelMatches(a, c, pp, cint, k);
    }
  }

  /** Element t of what C rebuilds is the record of the dataset packed as
      chunk t. */
  lemma ElementMatches(cs: seq<Packed>, t: nat, num: int, pp: Pseudopotential, cint: real -> int)
    requires forall m :: 0 <= m < |cs| ==> ChunkShaped(cs[m])
    requires t < |cs| && Shaped(pp) && Chunk(num, pp).Ok? && cs[t] == Chunk(num, pp).value
    ensures Fits(ToC(Join(cs), cint), |cs|)
    ensures ElementOf(ToC(Join(cs), cint), |cs|, t) == RecordOf(pp, cint)
  {
    var j, p := Join(cs), Join(cs[..t]);
    JoinFits(cs, cint);
    JoinChunkAt(cs, t);
    assert ChunkShaped(cs[t]);
    var _ := JoinInit(cs, t);
    JoinLabelsAt(cs, t);
    JoinChunkPlace(cs, t);
    LabelsMatch(j.clabels, t, num, pp);
    ChunkSlices(p, j, num, pp, cint);
    var a := ToC(j, cint);
    assert a.labels == j.clabels && a.rmaxs == j.rmaxs;
    ElementFromParts(a, |cs|, t, pp, cint, Lengths(p));
  }

  /** Packing succeeds exactly when every dataset can be packed: it has a
      radius string and a projector and two partial waves per l value. */
  lemma PackOk(pps: Dict<int, Pseudopotential>)
    requires Valid(pps)
    ensures PackOf(pps).Ok? <==> forall k :: k in pps.entries ==> Chunk(k, pps.entries[k]).Ok?
  {
    var ks := Sorted(pps.keys);
    var f := ChunkReader(pps.entries);
    MapAllOk(ks, f);
    if PackOf(pps).Ok? {
      forall k | k in pps.entries
        ensures Chunk(k, pps.entries[k]).Ok?
      {
        assert k in ks;
        var t :| 0 <= t < |ks| && ks[t] == k;
        assert f(ks[t]).Ok?;
      }
    } else {
      var t :| 0 <= t < |ks| && f(ks[t]).Err?;
      assert ks[t] in pps.keys;
    }
  }

  /** The chunks of a packing of shaped datasets, in ascending label order,
      are those of the datasets and have the shapes C relies on. */
  lemma PackChunks(pps: Dict<int, Pseudopotential>) returns (cs: seq<Packed>)
    requires Valid(pps) && forall k :: k in pps.entries ==> Shaped(pps.entries[k])
    ensures MapAll(Sorted(pps.keys), ChunkReader(pps.entries)) == Ok(cs)
    ensures PackOf(pps) == Ok((|cs|, Join(cs))) && |cs| == |pps.keys|
    ensures forall m :: 0 <= m < |cs| ==> ChunkShaped(cs[m])
    ensures forall m :: 0 <= m < |cs| ==>
      (Sorted(pps.keys)[m] in pps.entries &&
       Chunk(Sorted(pps.keys)[m], pps.entries[Sorted(pps.keys)[m]]).Ok? &&
       cs[m] == Chunk(Sorted(pps.keys)[m], pps.entries[Sorted(pps.keys)[m]]).value)
  {
    var ks := Sorted(pps.keys);
    var f := ChunkReader(pps.entries);
    forall k | k in pps.entries
      ensures Chunk(k, pps.entries[k]).Ok?
    {
      ChunkOfShaped(k, pps.entries[k]);
    }
    PackOk(pps);
    cs := MapAll(ks, f).value;
    forall m | 0 <= m < |cs|
      ensures ks[m] in pps.entries && Chunk(ks[m], pps.entries[ks[m]]).Ok?
      ensures cs[m] == Chunk(ks[m], pps.entries[ks[m]]).value && ChunkShaped(cs[m])
    {
      assert ks[m] in pps.keys;
      MapAllAt(ks, f, m);
      ChunkOfShaped(ks[m], pps.entries[ks[m]]);
    }
  }

  /** The round trip: when every dataset is shaped, packing succeeds, the
      arrays fit what get_projector_list reads, and the element C builds at
      position i is the record of the dataset with the i-th smallest label. */
  lemma PackUnpack(pps: Dict<int, Pseudopotential>, cint: real -> int)
    requires Valid(pps) && forall k :: k in pps.entries ==> Shaped(pps.entries[k])
    ensures PackOf(pps).Ok?
    ensures var n, a := PackOf(pps).value.0, ToC(PackOf(pps).value.1, cint);
      && n == |pps.keys| && Fits(a, n)
      && forall i :: 0 <= i < n ==>
           (Sorted(pps.keys)[i] in pps.entries &&
            ElementOf(a, n, i) == RecordOf(pps.entries[Sorted(pps.keys)[i]], cint))
  {
    var cs := PackChunks(pps);
    var ks := Sorted(pps.keys);
    JoinFits(cs, cint);
    forall i | 0 <= i < |cs|
      ensures ks[i] in pps.entries && ElementOf(ToC(Join(cs), cint), |cs|, i) == RecordOf(pps.entries[ks[i]], cint)
    {
      ElementMatches(cs, i, ks[i], pps.entries[ks[i]], cint);
    }
  }

  /** Sorting the dense labels 0 .. n-1, in whatever order they were
      inserted, gives 0 .. n-1. */
  lemma SortedRange(keys: seq<int>, n: nat)
    requires Distinct(keys) && forall y :: y in keys <==> 0 <= y < n
    requires |keys| == n
    ensures Sorted(keys) == Range(0, n)
  {
    IncreasingRange(Sorted(keys), n);
  }

  /** With the dense labels 0 .. n-1 that the labelling hands out, the
      element C builds at position u is the dataset labelled u. */
  lemma PackUnpackDense(pps: Dict<int, Pseudopotential>, n: nat, cint: real -> int)
    requires Valid(pps) && forall k :: k in pps.entries ==> Shaped(pps.entries[k])
    requires |pps.keys| == n && forall y :: y in pps.keys <==> 0 <= y < n
    ensures PackOf(pps).Ok? && PackOf(pps).value.0 == n
    ensures var a := ToC(PackOf(pps).value.1, cint);
      && Fits(a, n)
      && forall u :: 0 <= u < n ==> u in pps.entries && ElementOf(a, n, u) == RecordOf(pps.entries[u], cint)
  {
    SortedRange(pps.keys, n);
    PackUnpack(pps, cint);
    var a := ToC(PackOf(pps).value.1, cint);
    forall u | 0 <= u < n
      ensures u in pps.entries && ElementOf(a, n, u) == RecordOf(pps.entries[u], cint)
    {
      assert Sorted(pps.keys)[u] == u;
    }
  }

  /** Packing pps succeeds with n elements, and the arrays hold all n for C. */
  ghost predicate Unpacks(pps: Dict<int, Pseudopotential>, n: int, cint: real -> int)
  {
    && Valid(pps) && 0 <= n && PackOf(pps).Ok? && PackOf(pps).value.0 == n
    && Fits(ToC(PackOf(pps).value.1, cint), n)
  }

  /** The element C builds at position u from the packed arrays of pps. */
  ghost function Built(pps: Dict<int, Pseudopotential>, n: int, cint: real -> int, u: int): ElementRecord
    requires Unpacks(pps, n, cint) && 0 <= u < n
  {
    ElementOf(ToC(PackOf(pps).value.1, cint), n, u)
  }

  /** Every dataset of a dict is shaped. */
  ghost predicate AllShaped(pps: Dict<int, Pseudopotential>)
  {
    forall k :: k in pps.entries ==> Shaped(pps.entries[k])
  }

  /** Packing fails only the way a dataset does: AttributeError for one
      without a radius text, IndexError for one with too few projectors or
      partial waves. */
  lemma PackError(pps: Dict<int, Pseudopotential>)
    requires Valid(pps) && PackOf(pps).Err?
    ensures PackOf(pps).error == AttributeError || PackOf(pps).error == IndexError
  {
    var ks := Sorted(pps.keys);
    MapAllErrorFrom(ks, ChunkReader(pps.entries));
    var t :| 0 <= t < |ks| && ChunkReader(pps.entries)(ks[t]) == Err(PackOf(pps).error);
    assert ks[t] in pps.entries;
  }

  /** The datasets of a label table pack when every labelled dataset is shaped. */
  lemma ShapedTablePacks(items: seq<(string, Pseudopotential)>)
    requires forall i :: 0 <= i < |items| ==> Shaped(items[i].1)
    ensures PackOf(Table(items).pps).Ok?
  {
    var t := Table(items);
    TableShaped(items);
    PackOk(t.pps);
    forall k | k in t.pps.entries
      ensures Chunk(k, t.pps.entries[k]).Ok?
    {
      ChunkOfShaped(k, t.pps.entries[k]);
    }
  }

  /** The label table's datasets are among those labelled, and its keys are
      the dense labels 0 .. nextLabel-1. */
  lemma {:induction false} TableShaped(items: seq<(string, Pseudopotential)>)
    requires forall i :: 0 <= i < |items| ==> Shaped(items[i].1)
    ensures var t := Table(items);
      && AllShaped(t.pps) && t.nextLabel >= 0 && |t.pps.keys| == t.nextLabel
      && forall y :: y in t.pps.keys <==> 0 <= y < t.nextLabel
  {
    var t := Table(items);
    TableFacts(items);
    forall k | k in t.pps.entries
      ensures Shaped(t.pps.entries[k])
    {
      RangeMembership(0, t.nextLabel, k);
      TableAt(items, k);
    }
    forall y
      ensures y in t.pps.keys <==> 0 <= y < t.nextLabel
    {
      RangeMembership(0, t.nextLabel, y);
    }
  }

  /** Whatever sequence of (element, dataset) pairs is labelled, packing the
      label table's datasets gives C one element per label, element u being
      the dataset labelled u. */
  lemma LabelledUnpack(items: seq<(string, Pseudopotential)>, cint: real -> int)
    requires forall i :: 0 <= i < |items| ==> Shaped(items[i].1)
    ensures AllShaped(Table(items).pps) && Table(items).nextLabel >= 0
    ensures var t := Table(items);
      && Unpacks(t.pps, t.nextLabel, cint)
      && forall u :: 0 <= u < t.nextLabel ==>
           (u in t.pps.entries && Built(t.pps, t.nextLabel, cint, u) == RecordOf(t.pps.entries[u], cint))
  {
    TableShaped(items);
    PackUnpackDense(Table(items).pps, Table(items).nextLabel, cint);
  }

  /** The pairs make_c_projectors labels are all shaped when both dicts' are. */
  lemma ItemsShaped(own: Dict<string, Pseudopotential>, basis: Dict<string, Pseudopotential>)
    requires Valid(own) && Valid(basis)
    requires forall e :: e in own.entries ==> Shaped(own.entries[e])
    requires forall e :: e in basis.entries ==> Shaped(basis.entries[e])
    ensures forall i :: 0 <= i < |Items(own) + Items(basis)| ==> Shaped((Items(own) + Items(basis))[i].1)
  {
    var items := Items(own) + Items(basis);
    forall i | 0 <= i < |items|
      ensures Shaped(items[i].1)
    {
      if i >= |Items(own)| {
        assert items[i] == Items(basis)[i - |Items(own)|];
      }
    }
  }

  /** make_c_projectors end to end, for the wavefunction's own elements: the
      element C builds for label u < len(own) is the record of the dataset of
      the wavefunction's u-th element. */
  lemma MakeCProjectorsUnpack(own: Dict<string, Pseudopotential>, basis: Dict<string, Pseudopotential>, cint: real -> int)
    requires Valid(own) && Valid(basis)
    requires forall e :: e in own.entries ==> Shaped(own.entries[e])
    requires forall e :: e in basis.entries ==> Shaped(basis.entries[e])
    ensures var t := Table(Items(own) + Items(basis));
      && Unpacks(t.pps, t.nextLabel, cint)
      && forall u :: 0 <= u < |own.keys| ==>
           (u < t.nextLabel && own.keys[u] in own.entries &&
            Built(t.pps, t.nextLabel, cint, u) == RecordOf(own.entries[own.keys[u]], cint))
  {
    var items := Items(own) + Items(basis);
    ItemsShaped(own, basis);
    LabelledUnpack(items, cint);
    TableShaped(items);
    var t := Table(items);
    var n, a := t.nextLabel, ToC(PackOf(t.pps).value.1, cint);
    forall u | 0 <= u < |own.keys|
      ensures u < n && own.keys[u] in own.entries && Built(t.pps, n, cint, u) == RecordOf(own.entries[own.keys[u]], cint)
    {
      OwnLabel(own, basis, u);
      assert u in t.pps.keys;
    }
  }

  /** make_c_projectors end to end, for the elements only the basis has:
      each is built by C, under its label, from the basis's dataset. */
  lemma MakeCProjectorsUnpackBasis(own: Dict<string, Pseudopotential>, basis: Dict<string, Pseudopotential>, cint: real -> int)
    requires Valid(own) && Valid(basis)
    requires forall e :: e in own.entries ==> Shaped(own.entries[e])
    requires forall e :: e in basis.entries ==> Shaped(basis.entries[e])
    ensures var t := Table(Items(own) + Items(basis));
      && Unpacks(t.pps, t.nextLabel, cint)
      && forall e :: e in basis.entries && e !in own.entries ==>
           (e in t.labels.entries && 0 <= t.labels.entries[e] < t.nextLabel &&
            Built(t.pps, t.nextLabel, cint, t.labels.entries[e]) == RecordOf(basis.entries[e], cint))
  {
    var items := Items(own) + Items(basis);
    ItemsShaped(own, basis);
    LabelledUnpack(items, cint);
    TableShaped(items);
    var t := Table(items);
    var n, a := t.nextLabel, ToC(PackOf(t.pps).value.1, cint);
    forall e | e in basis.entries && e !in own.entries
      ensures e in t.labels.entries && 0 <= t.labels.entries[e] < n
      ensures Built(t.pps, n, cint, t.labels.entries[e]) == RecordOf(basis.entries[e], cint)
    {
      BasisLabel(own, basis, e);
      assert t.labels.entries[e] in t.pps.keys;
    }
  }
}
