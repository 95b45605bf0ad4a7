/** Per-site projector bookkeeping in C: projector_values (the (l, m)
    enumeration of a site's projectors and the grid points inside its
    augmentation sphere), the layout of overlap_setup's per-pair matrices and
    the band/k-point sweep of setup_projections.

    The numerical values (proj_value, offsite_wave_overlap, onto_projector)
    are given functions; min_cart_path is the minimum-image distance from a
    grid point to a site, given as a function of the two fractional
    positions (the lattice is fixed). */
module SiteProjectors {
  import opened Numbers
  import opened Seqs
  import opened Packing

  /** real_proj_t without its values: the channel and the magnetic number. */
  datatype RealProj = RealProj(l: int, m: int, funcNum: int)

  /** The element's first numProjs channels exist. */
  predicate HasChannels(e: ElementRecord)
  {
    0 <= e.numProjs <= |e.funcs|
  }

  /** The l of each of the element's num_projs channels. */
  function Ls(e: ElementRecord): (r: seq<int>)
    requires HasChannels(e)
    ensures |r| == e.numProjs
  {
    seq(e.numProjs, j requires 0 <= j < e.numProjs => e.funcs[j].l)
  }

  predicate NonNegative(ls: seq<int>)
  {
    forall j :: 0 <= j < |ls| ==> ls[j] >= 0
  }

  /** The projs of channel j with angular momentum l: m runs from -l to l. */
  function ChannelProjs(j: int, l: int): (r: seq<RealProj>)
    ensures |r| == if l >= 0 then 2 * l + 1 else 0
  {
    seq(if l >= 0 then 2 * l + 1 else 0, t => RealProj(l, t - l, j))
  }

  /** A site's projs: channel by channel, m from -l to l within each. */
  function Enumeration(ls: seq<int>): seq<RealProj>
  {
    if ls == [] then [] else Enumeration(ls[..|ls| - 1]) + ChannelProjs(|ls| - 1, ls[|ls| - 1])
  }

  /** There are total_projs = sum of (2l + 1) of them. */
  lemma {:induction false} EnumerationLength(ls: seq<int>)
    requires NonNegative(ls)
    ensures |Enumeration(ls)| == TotalProjs(ls)
  {
    if ls != [] {
      EnumerationLength(ls[..|ls| - 1]);
    }
  }

  /** Projector m of channel j sits at TotalProjs(ls[..j]) + m + l. */
  lemma {:induction false} EnumerationAt(ls: seq<int>, j: int, m: int)
    requires NonNegative(ls) && 0 <= j < |ls| && -ls[j] <= m <= ls[j]
    ensures 0 <= TotalProjs(ls[..j]) && TotalProjs(ls[..j]) + m + ls[j] < |Enumeration(ls)|
    ensures Enumeration(ls)[TotalProjs(ls[..j]) + m + ls[j]] == RealProj(ls[j], m, j)
  {
    var init := ls[..|ls| - 1];
    EnumerationLength(ls);
    EnumerationLength(init);
    if j == |ls| - 1 {
      assert ls[..j] == init;
    } else {
      assert init[..j] == ls[..j];
      EnumerationAt(init, j, m);
    }
  }

  /** Every proj names a channel, carries that channel's l, and has
      -l <= m <= l. */
  lemma {:induction false} EnumerationEntries(ls: seq<int>, p: int)
    requires 0 <= p < |Enumeration(ls)|
    ensures var e := Enumeration(ls)[p];
      0 <= e.funcNum < |ls| && e.l == ls[e.funcNum] && -e.l <= e.m <= e.l
  {
    var init := ls[..|ls| - 1];
    if p >= |Enumeration(init)| {
      var t := p - |Enumeration(init)|;
      assert Enumeration(ls)[p] == ChannelProjs(|ls| - 1, ls[|ls| - 1])[t];
    } else {
      EnumerationEntries(init, p);
    }
  }

  /** The projs loop of projector_values for one site: a running counter p
      over the channels and their m values. */
  method SiteProjs(ls: seq<int>) returns (total: int, projs: seq<RealProj>)
    requires NonNegative(ls)
    ensures total == TotalProjs(ls) && projs == Enumeration(ls)
  {
    total := 0;
    for j := 0 to |ls|
      invariant total == TotalProjs(ls[..j])
    {
      assert ls[..j + 1] == ls[..j] + [ls[j]];
      total := total + 2 * ls[j] + 1;
    }
    assert ls[..|ls|] == ls;
    EnumerationLength(ls);
    var arr := new RealProj[total];
    var p := 0;
    for j := 0 to |ls|
      invariant p == TotalProjs(ls[..j]) == |Enumeration(ls[..j])|
      invariant Enumeration(ls[..j]) <= Enumeration(ls)
      invariant arr[..p] == Enumeration(ls[..j])
    {
      assert ls[..j + 1] == ls[..j] + [ls[j]];
      assert ls[..j + 1][..j] == ls[..j];
      PrefixEnumeration(ls, j + 1);
      FillChannel(arr, p, j, ls[j]);
      p := p + 2 * ls[j] + 1;
    }
    assert ls[..|ls|] == ls;
    projs := arr[..];
  }

  /** The m loop for channel j: 2l + 1 projs from slot p on. */
  method FillChannel(arr: array<RealProj>, p: int, j: int, l: int)
    requires 0 <= p && 0 <= l && p + 2 * l + 1 <= arr.Length
    modifies arr
    ensures arr[..p + 2 * l + 1] == old(arr[..p]) + ChannelProjs(j, l)
  {
    ghost var before := arr[..p];
    var q := p;
    for m := -l to l + 1
      invariant q == p + m + l
      invariant arr[..q] == before + ChannelProjs(j, l)[..m + l]
    {
      arr[q] := RealProj(l, m, j);
      assert ChannelProjs(j, l)[..m + l + 1] == ChannelProjs(j, l)[..m + l] + [RealProj(l, m, j)];
      q := q + 1;
    }
    assert ChannelProjs(j, l)[..2 * l + 1] == ChannelProjs(j, l);
  }

  /** The enumeration of a prefix of the channels is a prefix of the
      enumeration. */
  lemma {:induction false} PrefixEnumeration(ls: seq<int>, n: int)
    requires 0 <= n <= |ls|
    ensures Enumeration(ls[..n]) <= Enumeration(ls)
    decreases |ls| - n
  {
    if n < |ls| {
      PrefixEnumeration(ls, n + 1);
      assert ls[..n + 1][..n] == ls[..n];
    } else {
      assert ls[..n] == ls;
    }
  }

  /** fftg: the FFT grid's number of points along each lattice vector. */
  datatype Fftg = Fftg(f0: int, f1: int, f2: int)

  /** A grid with at least one point along each axis. */
  type Grid = g: Fftg | g.f0 > 0 && g.f1 > 0 && g.f2 > 0 witness Fftg(1, 1, 1)

  function NumPoints(g: Grid): int
  {
    g.f0 * g.f1 * g.f2
  }

  /** frac = (i / fftg[0], j / fftg[1], k / fftg[2]). */
  function GridFrac(g: Grid, i: int, j: int, k: int): Vec3
  {
    Vec3(i as real / g.f0 as real, j as real / g.f1 as real, k as real / g.f2 as real)
  }

  /** The grid point with flat index q. */
  function Decode(g: Grid, q: int): (int, int, int)
  {
    ((q / g.f2) / g.f1, (q / g.f2) % g.f1, q % g.f2)
  }

  /** Decoding undoes the row-major index. */
  lemma DecodeFlat(g: Grid, i: int, j: int, k: int)
    requires InGrid(i, j, k, g.f0, g.f1, g.f2)
    ensures Decode(g, Flat(i, j, k, g.f1, g.f2)) == (i, j, k)
  {
    assert Flat(i, j, k, g.f1, g.f2) == (i * g.f1 + j) * g.f2 + k;
    DivModUnique(i * g.f1 + j, k, g.f2);
    DivModUnique(i, j, g.f1);
  }

  /** Grid point q lies within 0.99 rmax of the site at coord, the
      distance being the minimum-image path. */
  predicate Inside(g: Grid, path: (Vec3, Vec3) -> real, coord: Vec3, rmax: real, q: int)
  {
    var (i, j, k) := Decode(g, q);
    path(GridFrac(g, i, j, k), coord) < 0.99 * rmax
  }

  /** A site's indices once the first n grid points (in loop order) have
      been visited. */
  function Recorded(g: Grid, path: (Vec3, Vec3) -> real, coord: Vec3, rmax: real, n: int): seq<int>
  {
    if n <= 0 then []
    else Recorded(g, path, coord, rmax, n - 1) + (if Inside(g, path, coord, rmax, n - 1) then [n - 1] else [])
  }

  /** The recorded indices are the grid indices that pass the test. */
  lemma {:induction false} RecordedIsFilter(g: Grid, path: (Vec3, Vec3) -> real, coord: Vec3, rmax: real, n: int)
    requires n >= 0
    ensures Recorded(g, path, coord, rmax, n) == Filter(Range(0, n), q => Inside(g, path, coord, rmax, q))
  {
    if n > 0 {
      RecordedIsFilter(g, path, coord, rmax, n - 1);
      RangeSnoc(0, n - 1);
      FilterSnoc(Range(0, n - 1), n - 1, q => Inside(g, path, coord, rmax, q));
    }
  }

  /** A site's indices are ascending, lie in the grid, and are exactly the
      flat indices i*f1*f2 + j*f2 + k of the points within 0.99 rmax. */
  lemma RecordedMeaning(g: Grid, path: (Vec3, Vec3) -> real, coord: Vec3, rmax: real)
    ensures var r := Recorded(g, path, coord, rmax, NumPoints(g));
      Increasing(r) && (forall t :: t in r ==> 0 <= t < NumPoints(g))
    ensures forall i, j, k :: InGrid(i, j, k, g.f0, g.f1, g.f2) ==>
      (Flat(i, j, k, g.f1, g.f2) in Recorded(g, path, coord, rmax, NumPoints(g)) <==>
       path(GridFrac(g, i, j, k), coord) < 0.99 * rmax)
  {
    var keep := q => Inside(g, path, coord, rmax, q);
    RecordedIsFilter(g, path, coord, rmax, NumPoints(g));
    RangeIncreasing(0, NumPoints(g));
    FilterIncreasing(Range(0, NumPoints(g)), keep);
    forall t | t in Recorded(g, path, coord, rmax, NumPoints(g))
      ensures 0 <= t < NumPoints(g)
    {
      RangeMembership(0, NumPoints(g), t);
    }
    forall i, j, k | InGrid(i, j, k, g.f0, g.f1, g.f2)
      ensures Flat(i, j, k, g.f1, g.f2) in Recorded(g, path, coord, rmax, NumPoints(g)) <==>
              path(GridFrac(g, i, j, k), coord) < 0.99 * rmax
    {
      FlatBounds(i, j, k, g.f0, g.f1, g.f2);
      RangeMembership(0, NumPoints(g), Flat(i, j, k, g.f1, g.f2));
      DecodeFlat(g, i, j, k);
    }
  }

  /** real_proj_site_t without the projector values: num_indices is
      |indices|. */
  datatype RealProjSite = RealProjSite(
    index: int,
    elem: int,
    numProjs: int,
    rmax: real,
    totalProjs: int,
    coord: Vec3,
    projs: seq<RealProj>,
    indices: seq<int>)

  /** What projector_values reads: a label per site naming an element with
      its channels, three coordinates per site, and l values that are not
      negative. */
  predicate SitesReadable(numSites: int, labels: seq<int>, coords: seq<real>, pps: seq<ElementRecord>)
  {
    0 <= numSites <= |labels| && 3 * numSites <= |coords| &&
    forall i :: 0 <= i < numSites ==>
      0 <= labels[i] < |pps| && HasChannels(pps[labels[i]]) && NonNegative(Ls(pps[labels[i]]))
  }

  function CoordOf(coords: seq<real>, i: int): Vec3
    requires 0 <= i && 3 * i + 3 <= |coords|
  {
    Vec3(coords[3 * i], coords[3 * i + 1], coords[3 * i + 2])
  }

  /** Site i before the grid loop: everything but its indices. */
  function BlankSite(i: int, labels: seq<int>, coords: seq<real>, pps: seq<ElementRecord>): RealProjSite
    requires SitesReadable(|labels|, labels, coords, pps) && 0 <= i < |labels|
  {
    var e := pps[labels[i]];
    RealProjSite(i, labels[i], e.numProjs, e.rmax, TotalProjs(Ls(e)), CoordOf(coords, i), Enumeration(Ls(e)), [])
  }

  /** Site i as projector_values returns it. */
  function SiteOf(i: int, labels: seq<int>, coords: seq<real>, pps: seq<ElementRecord>,
                  g: Grid, path: (Vec3, Vec3) -> real): RealProjSite
    requires SitesReadable(|labels|, labels, coords, pps) && 0 <= i < |labels|
  {
    var b := BlankSite(i, labels, coords, pps);
    b.(indices := Recorded(g, path, b.coord, b.rmax, NumPoints(g)))
  }

  /** Site s is blank site b with its indices after the first n grid
      points. */
  predicate VisitedSite(s: RealProjSite, b: RealProjSite, g: Grid, path: (Vec3, Vec3) -> real, n: int)
  {
    s == b.(indices := Recorded(g, path, b.coord, b.rmax, n))
  }

  /** Every site has its indices after the first n grid points. */
  ghost predicate VisitedUpTo(sites: array<RealProjSite>, blank: seq<RealProjSite>, g: Grid,
                              path: (Vec3, Vec3) -> real, n: int)
    reads sites
  {
    sites.Length == |blank| && forall p :: 0 <= p < sites.Length ==> VisitedSite(sites[p], blank[p], g, path, n)
  }

  /** The body of the site loop at grid point q, r being the site's
      distance from it: within 0.99 rmax, q is appended to the indices
      (indices[num_indices++] = q). */
  function Visit(s: RealProjSite, r: real, q: int): RealProjSite
  {
    if r < 0.99 * s.rmax then s.(indices := s.indices + [q]) else s
  }

  lemma VisitStep(s: RealProjSite, b: RealProjSite, g: Grid, path: (Vec3, Vec3) -> real,
                  i: int, j: int, k: int)
    requires InGrid(i, j, k, g.f0, g.f1, g.f2)
    requires VisitedSite(s, b, g, path, Flat(i, j, k, g.f1, g.f2))
    ensures VisitedSite(Visit(s, path(GridFrac(g, i, j, k), s.coord), Flat(i, j, k, g.f1, g.f2)),
                        b, g, path, Flat(i, j, k, g.f1, g.f2) + 1)
  {
    var q := Flat(i, j, k, g.f1, g.f2);
    FlatBounds(i, j, k, g.f0, g.f1, g.f2);
    DecodeFlat(g, i, j, k);
  }

  /** The site loop at grid point (i, j, k): a site within 0.99 rmax records
      the point's index. */
  method VisitPoint(sites: array<RealProjSite>, ghost blank: seq<RealProjSite>, g: Grid,
                    path: (Vec3, Vec3) -> real, i: int, j: int, k: int)
    requires InGrid(i, j, k, g.f0, g.f1, g.f2)
    requires VisitedUpTo(sites, blank, g, path, Flat(i, j, k, g.f1, g.f2))
    modifies sites
    ensures VisitedUpTo(sites, blank, g, path, Flat(i, j, k, g.f1, g.f2) + 1)
  {
    var frac := GridFrac(g, i, j, k);
    var q := i * g.f1 * g.f2 + j * g.f2 + k;
    for p := 0 to sites.Length
      invariant forall t :: 0 <= t < p ==> VisitedSite(sites[t], blank[t], g, path, q + 1)
      invariant forall t :: p <= t < sites.Length ==> VisitedSite(sites[t], blank[t], g, path, q)
    {
      VisitStep(sites[p], blank[p], g, path, i, j, k);
      var r := path(frac, sites[p].coord);
      if r < 0.99 * sites[p].rmax {
        sites[p] := sites[p].(indices := sites[p].indices + [q]);
      }
    }
  }

  /** The first loop of projector_values: every site but its indices. */
  method BlankSites(numSites: int, labels: seq<int>, coords: seq<real>, pps: seq<ElementRecord>)
    returns (sites: array<RealProjSite>)
    requires SitesReadable(numSites, labels, coords, pps) && numSites == |labels|
    ensures fresh(sites) && sites.Length == numSites
    ensures forall i :: 0 <= i < numSites ==> sites[i] == BlankSite(i, labels, coords, pps)
  {
    sites := new RealProjSite[numSites];
    for i := 0 to numSites
      invariant forall t :: 0 <= t < i ==> sites[t] == BlankSite(t, labels, coords, pps)
    {
      var e := pps[labels[i]];
      var total, projs := SiteProjs(Ls(e));
      sites[i] := RealProjSite(i, labels[i], e.numProjs, e.rmax, total,
                               Vec3(coords[3 * i], coords[3 * i + 1], coords[3 * i + 2]), projs, []);
    }
  }

  /** The grid loop of projector_values. */
  method VisitGrid(sites: array<RealProjSite>, g: Grid, path: (Vec3, Vec3) -> real)
    requires forall p :: 0 <= p < sites.Length ==> sites[p].indices == []
    modifies sites
    ensures VisitedUpTo(sites, old(sites[..]), g, path, NumPoints(g))
  {
    ghost var blank := sites[..];
    assert VisitedUpTo(sites, blank, g, path, 0);
    for i := 0 to g.f0
      invariant VisitedUpTo(sites, blank, g, path, Flat(i, 0, 0, g.f1, g.f2))
    {
      for j := 0 to g.f1
        invariant VisitedUpTo(sites, blank, g, path, Flat(i, j, 0, g.f1, g.f2))
      {
        for k := 0 to g.f2
          invariant VisitedUpTo(sites, blank, g, path, Flat(i, j, k, g.f1, g.f2))
        {
          VisitPoint(sites, blank, g, path, i, j, k);
        }
        FlatCarry(i, j, g.f1, g.f2);
      }
      FlatCarry(i, g.f1, g.f1, g.f2);
    }
    assert Flat(g.f0, 0, 0, g.f1, g.f2) == NumPoints(g);
  }

  /** projector_values: each site's element data, its projs in (channel, m)
      order, and the grid points within 0.99 rmax of it. */
  method ProjectorValues(numSites: int, labels: seq<int>, coords: seq<real>, pps: seq<ElementRecord>,
                         g: Grid, path: (Vec3, Vec3) -> real) returns (sites: array<RealProjSite>)
    requires SitesReadable(numSites, labels, coords, pps) && numSites == |labels|
    ensures fresh(sites) && sites.Length == numSites
    ensures forall i :: 0 <= i < numSites ==> sites[i] == SiteOf(i, labels, coords, pps, g, path)
  {
    sites := BlankSites(numSites, labels, coords, pps);
    VisitGrid(sites, g, path);
  }

  /** The block of N_RS pair i: entry p1 * T2 + p2 couples proj p1 of the
      basis site with proj p2 of the subject site (T2 being the subject
      site's total_projs); ovl stands for offsite_wave_overlap. */
  function PairMatrix(i: int, projs1: seq<RealProj>, projs2: seq<RealProj>,
                      ovl: (int, RealProj, RealProj) -> Complex): (r: seq<Complex>)
    ensures |r| == |projs1| * |projs2|
  {
    seq(|projs1| * |projs2|, q requires 0 <= q < |projs1| * |projs2| =>
      FlatDecode(q, |projs1|, |projs2|); ovl(i, projs1[q / |projs2|], projs2[q % |projs2|]))
  }

  /** Entry p1 * |projs2| + p2 couples projs1[p1] with projs2[p2]. */
  lemma PairMatrixEntry(i: int, projs1: seq<RealProj>, projs2: seq<RealProj>,
                        ovl: (int, RealProj, RealProj) -> Complex, p1: int, p2: int)
    requires 0 <= p1 < |projs1| && 0 <= p2 < |projs2|
    ensures 0 <= p1 * |projs2| + p2 < |projs1| * |projs2|
    ensures PairMatrix(i, projs1, projs2, ovl)[p1 * |projs2| + p2] == ovl(i, projs1[p1], projs2[p2])
  {
    MulMonotone(p1 + 1, |projs1|, |projs2|);
    DivModUnique(p1, p2, |projs2|);
  }

  /** The slot of projector m of channel j in a site's enumeration. */
  function Slot(ls: seq<int>, j: int, m: int): int
    requires 0 <= j < |ls|
  {
    TotalProjs(ls[..j]) + m + ls[j]
  }

  /** The pair (channel j, m1) x (channel k, m2) has its slot
      Slot(ls1, j, m1) * T2 + Slot(ls2, k, m2), and that entry holds the
      pair's overlap. */
  lemma PairMatrixAt(i: int, ls1: seq<int>, ls2: seq<int>, ovl: (int, RealProj, RealProj) -> Complex,
                     j: int, m1: int, k: int, m2: int)
    requires NonNegative(ls1) && NonNegative(ls2)
    requires 0 <= j < |ls1| && -ls1[j] <= m1 <= ls1[j] && 0 <= k < |ls2| && -ls2[k] <= m2 <= ls2[k]
    ensures |Enumeration(ls2)| == TotalProjs(ls2) && |Enumeration(ls1)| == TotalProjs(ls1)
    ensures 0 <= Slot(ls1, j, m1) * TotalProjs(ls2) + Slot(ls2, k, m2) < TotalProjs(ls1) * TotalProjs(ls2)
    ensures PairMatrix(i, Enumeration(ls1), Enumeration(ls2), ovl)[Slot(ls1, j, m1) * TotalProjs(ls2) + Slot(ls2, k, m2)] ==
            ovl(i, RealProj(ls1[j], m1, j), RealProj(ls2[k], m2, k))
  {
    EnumerationLength(ls1);
    EnumerationLength(ls2);
    var p1, p2 := Slot(ls1, j, m1), Slot(ls2, k, m2);
    assert 0 <= p1 < |Enumeration(ls1)| && Enumeration(ls1)[p1] == RealProj(ls1[j], m1, j) by {
      EnumerationAt(ls1, j, m1);
    }
    assert 0 <= p2 < |Enumeration(ls2)| && Enumeration(ls2)[p2] == RealProj(ls2[k], m2, k) by {
      EnumerationAt(ls2, k, m2);
    }
    PairMatrixEntry(i, Enumeration(ls1), Enumeration(ls2), ovl, p1, p2);
  }

  /** Distinct (j, m1, k, m2) get distinct slots. */
  lemma PairSlotsDistinct(ls1: seq<int>, ls2: seq<int>, j: int, m1: int, k: int, m2: int,
                          j': int, m1': int, k': int, m2': int)
    requires NonNegative(ls1) && NonNegative(ls2)
    requires 0 <= j < |ls1| && -ls1[j] <= m1 <= ls1[j] && 0 <= k < |ls2| && -ls2[k] <= m2 <= ls2[k]
    requires 0 <= j' < |ls1| && -ls1[j'] <= m1' <= ls1[j'] && 0 <= k' < |ls2| && -ls2[k'] <= m2' <= ls2[k']
    requires Slot(ls1, j, m1) * TotalProjs(ls2) + Slot(ls2, k, m2) ==
             Slot(ls1, j', m1') * TotalProjs(ls2) + Slot(ls2, k', m2')
    ensures j == j' && m1 == m1' && k == k' && m2 == m2'
  {
    var p1, p2, q1, q2 := Slot(ls1, j, m1), Slot(ls2, k, m2), Slot(ls1, j', m1'), Slot(ls2, k', m2');
    var t2 := TotalProjs(ls2);
    assert 0 <= p2 < t2 && 0 <= q2 < t2 by {
      EnumerationLength(ls2);
      EnumerationAt(ls2, k, m2);
      EnumerationAt(ls2, k', m2');
    }
    assert p1 == q1 && p2 == q2 by {
      DivModUnique(p1, p2, t2);
      DivModUnique(q1, q2, t2);
    }
    assert RealProj(ls1[j], m1, j) == RealProj(ls1[j'], m1', j') by {
      EnumerationAt(ls1, j, m1);
      EnumerationAt(ls1, j', m1');
    }
    assert RealProj(ls2[k], m2, k) == RealProj(ls2[k'], m2', k') by {
      EnumerationAt(ls2, k, m2);
      EnumerationAt(ls2, k', m2');
    }
  }

  /** The slot overlap_setup writes as written for (j, m1, k, m2): tj counts
      channels of the basis site rather than (channel, m1) pairs, and tk
      restarts at 0 for every channel k of the subject site, so the slot is
      j * T2 + m2 + l2 whatever m1 is. */
  function AsWrittenSlot(ls2: seq<int>, j: int, k: int, m2: int): int
    requires 0 <= k < |ls2|
  {
    j * TotalProjs(ls2) + m2 + ls2[k]
  }

  /** Some iteration writes slot q as written. */
  predicate AsWrittenHits(ls1: seq<int>, ls2: seq<int>, q: int)
  {
    exists j, k, m2 :: 0 <= j < |ls1| && ls1[j] >= 0 && 0 <= k < |ls2| && -ls2[k] <= m2 <= ls2[k] &&
      AsWrittenSlot(ls2, j, k, m2) == q
  }

  /** A p-channel basis site against an s-channel subject site: the block
      has 3 * 1 entries, and slots 1 and 2 are never written (they keep
      calloc's zero) while slot 0 is written three times. */
  lemma OverlapSetupAsWrittenMisses()
    ensures TotalProjs([1]) * TotalProjs([0]) == 3
    ensures AsWrittenHits([1], [0], 0) && !AsWrittenHits([1], [0], 1) && !AsWrittenHits([1], [0], 2)
  {
    assert [1][..0] == [] && [0][..0] == [];
    assert TotalProjs([0]) == 1;
    assert AsWrittenSlot([0], 0, 0, 0) == 0;
  }

  /** The p2 loop for row p1. */
  method FillPairRow(block: array<Complex>, ghost want: seq<Complex>, i: int, p1: int,
                     projs1: seq<RealProj>, projs2: seq<RealProj>, ovl: (int, RealProj, RealProj) -> Complex)
    requires 0 <= p1 < |projs1| && want == PairMatrix(i, projs1, projs2, ovl) && block.Length == |want|
    requires Filled(block[..], want, p1 * |projs2|)
    modifies block
    ensures Filled(block[..], want, (p1 + 1) * |projs2|)
  {
    var t2 := |projs2|;
    for p2 := 0 to t2
      invariant Filled(block[..], want, p1 * t2 + p2)
    {
      PairMatrixEntry(i, projs1, projs2, ovl, p1, p2);
      block[p1 * t2 + p2] := ovl(i, projs1[p1], projs2[p2]);
      FilledWrite(block[..], want, p1 * t2 + p2, p1 * t2 + p2 + 1);
    }
    assert p1 * t2 + t2 == (p1 + 1) * t2;
  }

  /** overlap_setup for N_RS pair i, with the slot counters advancing once
      per projector (tj per (j, m1), tk per (k, m2)): the loops run over the
      two sites' enumerated projs and write every slot of the block once, in
      order. */
  method PairOverlaps(i: int, projs1: seq<RealProj>, projs2: seq<RealProj>,
                      ovl: (int, RealProj, RealProj) -> Complex) returns (block: array<Complex>)
    ensures fresh(block)
    ensures block[..] == PairMatrix(i, projs1, projs2, ovl)
  {
    block := new Complex[|projs1| * |projs2|](_ => Zero);
    ghost var want := PairMatrix(i, projs1, projs2, ovl);
    for p1 := 0 to |projs1|
      invariant Filled(block[..], want, p1 * |projs2|)
    {
      FillPairRow(block, want, i, p1, projs1, projs2, ovl);
    }
    assert block[..] == want;
  }

  /** The N_RS pairs can be looked up: the two lists have one entry per pair,
      every listed site has a label, and every labelled element has its
      channels with non-negative l. */
  predicate PairsReadable(labelsR: seq<int>, labelsS: seq<int>, nrsR: seq<int>, nrsS: seq<int>,
                          pps: seq<ElementRecord>)
  {
    |nrsR| == |nrsS| &&
    (forall i :: 0 <= i < |nrsR| ==> 0 <= nrsR[i] < |labelsR| && 0 <= nrsS[i] < |labelsS|) &&
    (forall s :: 0 <= s < |labelsR| ==> 0 <= labelsR[s] < |pps|) &&
    (forall s :: 0 <= s < |labelsS| ==> 0 <= labelsS[s] < |pps|) &&
    (forall e :: 0 <= e < |pps| ==> HasChannels(pps[e]) && NonNegative(Ls(pps[e])))
  }

  /** The channel l values of the basis site and of the subject site of
      N_RS pair i. */
  function PairLs(labelsR: seq<int>, labelsS: seq<int>, nrsR: seq<int>, nrsS: seq<int>,
                  pps: seq<ElementRecord>, i: int): (r: (seq<int>, seq<int>))
    requires PairsReadable(labelsR, labelsS, nrsR, nrsS, pps) && 0 <= i < |nrsR|
    ensures NonNegative(r.0) && NonNegative(r.1)
  {
    (Ls(pps[labelsR[nrsR[i]]]), Ls(pps[labelsS[nrsS[i]]]))
  }

  /** The block overlap_setup returns for N_RS pair i: total_projs(R) *
      total_projs(S) entries. */
  function PairBlock(labelsR: seq<int>, labelsS: seq<int>, nrsR: seq<int>, nrsS: seq<int>,
                     pps: seq<ElementRecord>, ovl: (int, RealProj, RealProj) -> Complex, i: int): (r: seq<Complex>)
    requires PairsReadable(labelsR, labelsS, nrsR, nrsS, pps) && 0 <= i < |nrsR|
    ensures |r| == TotalProjs(PairLs(labelsR, labelsS, nrsR, nrsS, pps, i).0) *
                   TotalProjs(PairLs(labelsR, labelsS, nrsR, nrsS, pps, i).1)
  {
    var ls := PairLs(labelsR, labelsS, nrsR, nrsS, pps, i);
    EnumerationLength(ls.0);
    EnumerationLength(ls.1);
    PairMatrix(i, Enumeration(ls.0), Enumeration(ls.1), ovl)
  }

  /** overlap_setup (corrected counters): one block per N_RS pair, in pair
      order; ovl(i, p1, p2) stands for offsite_wave_overlap between the two
      sites of pair i. */
  method OverlapSetup(labelsR: seq<int>, labelsS: seq<int>, nrsR: seq<int>, nrsS: seq<int>,
                      pps: seq<ElementRecord>, ovl: (int, RealProj, RealProj) -> Complex)
    returns (overlaps: seq<seq<Complex>>)
    requires PairsReadable(labelsR, labelsS, nrsR, nrsS, pps)
    ensures |overlaps| == |nrsR|
    ensures forall i :: 0 <= i < |nrsR| ==>
      overlaps[i] == PairBlock(labelsR, labelsS, nrsR, nrsS, pps, ovl, i)
  {
    overlaps := [];
    for i := 0 to |nrsR|
      invariant |overlaps| == i
      invariant forall i' :: 0 <= i' < i ==>
        overlaps[i'] == PairBlock(labelsR, labelsS, nrsR, nrsS, pps, ovl, i')
    {
      var ls := PairLs(labelsR, labelsS, nrsR, nrsS, pps, i);
      var _, projs1 := SiteProjs(ls.0);
      var _, projs2 := SiteProjs(ls.1);
      var block := PairOverlaps(i, projs1, projs2, ovl);
      overlaps := overlaps + [block[..]];
    }
  }

  /** Every (channel j, m1) x (channel k, m2) overlap of pair i sits in its
      own slot of the pair's block. */
  lemma OverlapSetupSlots(labelsR: seq<int>, labelsS: seq<int>, nrsR: seq<int>, nrsS: seq<int>,
                          pps: seq<ElementRecord>, ovl: (int, RealProj, RealProj) -> Complex,
                          i: int, j: int, m1: int, k: int, m2: int)
    requires PairsReadable(labelsR, labelsS, nrsR, nrsS, pps) && 0 <= i < |nrsR|
    requires var ls := PairLs(labelsR, labelsS, nrsR, nrsS, pps, i);
      0 <= j < |ls.0| && -ls.0[j] <= m1 <= ls.0[j] && 0 <= k < |ls.1| && -ls.1[k] <= m2 <= ls.1[k]
    ensures var ls := PairLs(labelsR, labelsS, nrsR, nrsS, pps, i);
      var q := Slot(ls.0, j, m1) * TotalProjs(ls.1) + Slot(ls.1, k, m2);
      0 <= q < |PairBlock(labelsR, labelsS, nrsR, nrsS, pps, ovl, i)| &&
      PairBlock(labelsR, labelsS, nrsR, nrsS, pps, ovl, i)[q] == ovl(i, RealProj(ls.0[j], m1, j), RealProj(ls.1[k], m2, k))
  {
    var ls := PairLs(labelsR, labelsS, nrsR, nrsS, pps, i);
    PairMatrixAt(i, ls.0, ls.1, ovl, j, m1, k, m2);
  }

  /** setup_projections' sweep as written: iteration w calls onto_projector
      for k-point w % NUM_KPTS and band w % NUM_BANDS. The pair is (k, b). */
  function SweepAsWritten(numBands: int, numKpts: int, w: int): (int, int)
    requires numBands > 0 && numKpts > 0
  {
    (w % numKpts, w % numBands)
  }

  /** Some iteration of the as-written sweep projects band b at k-point k. */
  predicate SweepAsWrittenVisits(numBands: int, numKpts: int, k: int, b: int)
    requires numBands > 0 && numKpts > 0
  {
    exists w :: 0 <= w < numBands * numKpts && SweepAsWritten(numBands, numKpts, w) == (k, b)
  }

  /** With 2 bands and 2 k-points the as-written sweep never projects band 1
      at k-point 0 (it projects (0, 0) and (1, 1) twice each). */
  lemma SetupProjectionsAsWrittenMisses()
    ensures !SweepAsWrittenVisits(2, 2, 0, 1)
    ensures SweepAsWrittenVisits(2, 2, 0, 0) && SweepAsWrittenVisits(2, 2, 1, 1)
  {
    assert SweepAsWritten(2, 2, 0) == (0, 0);
    assert SweepAsWritten(2, 2, 1) == (1, 1);
  }

  /** The corrected sweep: iteration w projects band w / NUM_KPTS at k-point
      w % NUM_KPTS, the layout every other loop over w uses. */
  function Sweep(numKpts: int, w: int): (int, int)
    requires numKpts > 0
  {
    (w % numKpts, w / numKpts)
  }

  /** The iteration of the corrected sweep meant for k-point k and band b. */
  function SweepIndex(numKpts: int, k: int, b: int): int
  {
    b * numKpts + k
  }

  /** The corrected sweep visits each (k, b) pair exactly once, at w =
      SweepIndex(NUM_KPTS, k, b), and only pairs in range. */
  lemma SweepExactlyOnce(numBands: int, numKpts: int, k: int, b: int, w: int)
    requires numBands >= 0 && numKpts > 0 && 0 <= w < numBands * numKpts
    ensures Sweep(numKpts, w) == (k, b) <==> w == SweepIndex(numKpts, k, b) && 0 <= k < numKpts
    ensures 0 <= Sweep(numKpts, w).0 < numKpts && 0 <= Sweep(numKpts, w).1 < numBands
  {
    if w == b * numKpts + k && 0 <= k < numKpts {
      DivModUnique(b, k, numKpts);
    }
    if Sweep(numKpts, w) == (k, b) {
      assert w == b * numKpts + k;
    }
    QuotientBelow(w, numBands, numKpts);
  }

  /** Every pair in range is visited by the corrected sweep. */
  lemma SweepCovers(numBands: int, numKpts: int, k: int, b: int)
    requires numBands >= 0 && numKpts > 0 && 0 <= k < numKpts && 0 <= b < numBands
    ensures 0 <= SweepIndex(numKpts, k, b) < numBands * numKpts
    ensures Sweep(numKpts, SweepIndex(numKpts, k, b)) == (k, b)
  {
    MulMonotone(b + 1, numBands, numKpts);
    DivModUnique(b, k, numKpts);
  }

  /** calls lists the first |calls| iterations of the corrected sweep. */
  predicate SweepPrefix(numKpts: int, calls: seq<(int, int)>)
    requires numKpts > 0
  {
    forall w :: 0 <= w < |calls| ==> calls[w] == Sweep(numKpts, w)
  }

  /** The whole sweep holds pair (k, b) at SweepIndex(NUM_KPTS, k, b). */
  lemma SweepPrefixLayout(numBands: int, numKpts: int, calls: seq<(int, int)>)
    requires numBands >= 0 && numKpts > 0 && |calls| == numBands * numKpts && SweepPrefix(numKpts, calls)
    ensures forall k, b :: 0 <= k < numKpts && 0 <= b < numBands ==>
      0 <= SweepIndex(numKpts, k, b) < |calls| && calls[SweepIndex(numKpts, k, b)] == (k, b)
  {
    forall k, b | 0 <= k < numKpts && 0 <= b < numBands
      ensures 0 <= SweepIndex(numKpts, k, b) < |calls| && calls[SweepIndex(numKpts, k, b)] == (k, b)
    {
      SweepCovers(numBands, numKpts, k, b);
    }
  }

  /** setup_projections' loop with the corrected sweep: the (k-point, band)
      pairs handed to onto_projector, in order. */
  method SetupProjections(numBands: int, numKpts: int) returns (calls: seq<(int, int)>)
    requires numBands >= 0 && numKpts >= 0
    ensures |calls| == numBands * numKpts
    ensures forall k, b :: 0 <= k < numKpts && 0 <= b < numBands ==>
      0 <= SweepIndex(numKpts, k, b) < |calls| && calls[SweepIndex(numKpts, k, b)] == (k, b)
  {
    calls := [];
    if numKpts == 0 {
      return;
    }
    var n := numBands * numKpts;
    for w := 0 to n
      invariant |calls| == w && SweepPrefix(numKpts, calls)
    {
      calls := calls + [Sweep(numKpts, w)];
    }
    SweepPrefixLayout(numBands, numKpts, calls);
  }
}
