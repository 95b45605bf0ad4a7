/** Projector.make_site_lists: which sites of the basis structure R and of the
    subject structure S are the same site, which are not, and which
    unmatched pairs have overlapping augmentation spheres; and the unzipping
    of those pairs in setup_projection.

    The distance between two sites is pymatgen's minimum-image
    Site.distance, which the model takes as the parameter `dist`. */
module Sites {
  import opened Errors
  import opened Seqs
  import opened Dicts
  import opened Labels
  import opened Pseudopotentials

  /** Two sites closer than this (in Angstrom) with the same element are one site. */
  const MatchTolerance: real := 0.02

  /** The lists make_site_lists returns: matched basis and subject indices
      (M_R, M_S), unmatched ones (N_R, N_S) and overlapping unmatched pairs (N_RS). */
  datatype SiteLists = SiteLists(mR: seq<int>, mS: seq<int>, nR: seq<int>, nS: seq<int>, nRS: seq<(int, int)>)

  /** Basis site i and subject site j are the same site. */
  predicate Same(refSites: seq<Site>, sites: seq<Site>, dist: (Site, Site) -> real, i: int, j: int)
  {
    0 <= i < |refSites| && 0 <= j < |sites| &&
    dist(refSites[i], sites[j]) <= MatchTolerance && refSites[i].element == sites[j].element
  }

  function Matcher(refSites: seq<Site>, sites: seq<Site>, dist: (Site, Site) -> real): ((int, int)) -> bool
  {
    (p: (int, int)) => Same(refSites, sites, dist, p.0, p.1)
  }

  /** The matched pairs, in the order of the nested loops over i and j. */
  function Matches(refSites: seq<Site>, sites: seq<Site>, dist: (Site, Site) -> real): seq<(int, int)>
  {
    Filter(Product(Range(0, |refSites|), Range(0, |sites|)), Matcher(refSites, sites, dist))
  }

  /** Both elements of a pair must be looked up in the subject's CoreRegion;
      a missing one raises KeyError. */
  predicate HasRmax(pps: Dict<string, Pseudopotential>, s: Site)
  {
    s.element in pps.entries
  }

  /** Basis site i and subject site j lie closer than the sum of their
      elements' projector radii, both taken from the subject's CoreRegion. */
  predicate Overlaps(refSites: seq<Site>, sites: seq<Site>, dist: (Site, Site) -> real,
                     pps: Dict<string, Pseudopotential>, i: int, j: int)
  {
    0 <= i < |refSites| && 0 <= j < |sites| &&
    HasRmax(pps, refSites[i]) && HasRmax(pps, sites[j]) &&
    dist(refSites[i], sites[j]) < pps.entries[refSites[i].element].rmax + pps.entries[sites[j].element].rmax
  }

  function Overlapper(refSites: seq<Site>, sites: seq<Site>, dist: (Site, Site) -> real,
                      pps: Dict<string, Pseudopotential>): ((int, int)) -> bool
  {
    (p: (int, int)) => Overlaps(refSites, sites, dist, pps, p.0, p.1)
  }

  /** Both radii of the pair (i, j) can be looked up. */
  predicate KnownPair(refSites: seq<Site>, sites: seq<Site>, pps: Dict<string, Pseudopotential>, i: int, j: int)
  {
    0 <= i < |refSites| && 0 <= j < |sites| && HasRmax(pps, refSites[i]) && HasRmax(pps, sites[j])
  }

  /** Every pair the overlap loop visits has both radii. */
  predicate RadiiKnown(refSites: seq<Site>, sites: seq<Site>, pps: Dict<string, Pseudopotential>,
                       nR: seq<int>, nS: seq<int>)
  {
    forall i, j :: i in nR && j in nS ==> KnownPair(refSites, sites, pps, i, j)
  }

  lemma KnownRowSnoc(refSites: seq<Site>, sites: seq<Site>, pps: Dict<string, Pseudopotential>,
                     i: int, ys: seq<int>, b: nat)
    requires b < |ys|
    requires RadiiKnown(refSites, sites, pps, [i], ys[..b]) && KnownPair(refSites, sites, pps, i, ys[b])
    ensures RadiiKnown(refSites, sites, pps, [i], ys[..b + 1])
  {
    PrefixSnoc(ys, b);
  }

  lemma NotKnown(refSites: seq<Site>, sites: seq<Site>, pps: Dict<string, Pseudopotential>,
                 i: int, ys: seq<int>, b: nat)
    requires b < |ys| && !KnownPair(refSites, sites, pps, i, ys[b])
    ensures !RadiiKnown(refSites, sites, pps, [i], ys)
  {
    assert i in [i] && ys[b] in ys;
  }

  lemma RowUnknown(refSites: seq<Site>, sites: seq<Site>, pps: Dict<string, Pseudopotential>,
                   xs: seq<int>, a: nat, ys: seq<int>)
    requires a < |xs| && !RadiiKnown(refSites, sites, pps, [xs[a]], ys)
    ensures !RadiiKnown(refSites, sites, pps, xs, ys)
  {
    var j :| j in ys && !KnownPair(refSites, sites, pps, xs[a], j);
    assert xs[a] in xs;
  }

  lemma KnownRows(refSites: seq<Site>, sites: seq<Site>, pps: Dict<string, Pseudopotential>,
                  xs: seq<int>, i: int, ys: seq<int>)
    requires RadiiKnown(refSites, sites, pps, xs, ys) && RadiiKnown(refSites, sites, pps, [i], ys)
    ensures RadiiKnown(refSites, sites, pps, xs + [i], ys)
  {
  }

  /** The indices 0 .. n-1 that are not in m, ascending. */
  function Unmatched(n: int, m: seq<int>): (r: seq<int>)
  {
    Filter(Range(0, n), i => i !in m)
  }

  /** One more index: i joins the list when it is not in m, and is never
      already in it. */
  lemma UnmatchedStep(i: nat, m: seq<int>)
    ensures Unmatched(i + 1, m) == Unmatched(i, m) + (if i !in m then [i] else [])
    ensures i !in Unmatched(i, m)
  {
    RangeSnoc(0, i);
    FilterSnoc(Range(0, i), i, x => x !in m);
    RangeMembership(0, i, i);
  }

  /** make_site_lists as a function of the two structures. */
  function SiteListsOf(refSites: seq<Site>, sites: seq<Site>, dist: (Site, Site) -> real,
                       pps: Dict<string, Pseudopotential>): Result<SiteLists>
  {
    var m := Matches(refSites, sites, dist);
    var nR := Unmatched(|refSites|, Firsts(m));
    var nS := Unmatched(|sites|, Seconds(m));
    if !RadiiKnown(refSites, sites, pps, nR, nS) then Err(KeyError)
    else Ok(SiteLists(Firsts(m), Seconds(m), nR, nS,
                      Filter(Product(nR, nS), Overlapper(refSites, sites, dist, pps))))
  }

  /** The first double loop: every (i, j) pair that is the same site, with
      no tie-break, appended to M_R and M_S. */
  method MatchSites(refSites: seq<Site>, sites: seq<Site>, dist: (Site, Site) -> real)
      returns (mR: seq<int>, mS: seq<int>)
    ensures mR == Firsts(Matches(refSites, sites, dist)) && mS == Seconds(Matches(refSites, sites, dist))
  {
    ghost var f := Matcher(refSites, sites, dist);
    ghost var js := Range(0, |sites|);
    ghost var kept := [];
    mR, mS := [], [];
    for i := 0 to |refSites|
      invariant kept == Filter(Product(Range(0, i), js), f)
      invariant mR == Firsts(kept) && mS == Seconds(kept)
    {
      GridRowStart(Range(0, i), i, js);
      for j := 0 to |sites|
        invariant kept == Filter(Product(Range(0, i), js) + Row(i, js[..j]), f)
        invariant mR == Firsts(kept) && mS == Seconds(kept)
      {
        GridStep(Range(0, i), i, js, j, f);
        if dist(refSites[i], sites[j]) <= MatchTolerance && refSites[i].element == sites[j].element {
          FirstsSecondsSnoc(kept, (i, j));
          kept := kept + [(i, j)];
          mR := mR + [i];
          mS := mS + [j];
        }
      }
      RangeSnoc(0, i);
      GridRowEnd(Range(0, i), i, js);
    }
  }

  /** The loop that appends every index of 0 .. n-1 not in m, with the
      redundant test against the list being built that the subject's loop
      carries when `alsoSkipBuilt` holds. */
  method UnmatchedIndices(n: nat, m: seq<int>, alsoSkipBuilt: bool) returns (un: seq<int>)
    ensures un == Unmatched(n, m)
  {
    un := [];
    for i := 0 to n
      invariant un == Unmatched(i, m)
    {
      UnmatchedStep(i, m);
      if (!alsoSkipBuilt || i !in un) && i !in m {
        un := un + [i];
      }
    }
  }

  lemma OverlapRowStep(refSites: seq<Site>, sites: seq<Site>, dist: (Site, Site) -> real,
                       pps: Dict<string, Pseudopotential>, i: int, nS: seq<int>, b: nat)
    requires b < |nS|
    ensures nS[..b + 1] == nS[..b] + [nS[b]]
    ensures Filter(Row(i, nS[..b + 1]), Overlapper(refSites, sites, dist, pps))
         == Filter(Row(i, nS[..b]), Overlapper(refSites, sites, dist, pps)) +
            (if Overlaps(refSites, sites, dist, pps, i, nS[b]) then [(i, nS[b])] else [])
  {
    PrefixSnoc(nS, b);
    RowSnoc(i, nS[..b], nS[b]);
    FilterSnoc(Row(i, nS[..b]), (i, nS[b]), Overlapper(refSites, sites, dist, pps));
  }

  /** The inner loop of the overlap search for basis site i: the subject
      sites of nS whose spheres overlap site i's, in order; a radius lookup
      that fails raises KeyError. */
  method OverlapRow(refSites: seq<Site>, sites: seq<Site>, dist: (Site, Site) -> real,
                    pps: Dict<string, Pseudopotential>, i: int, nS: seq<int>)
      returns (r: Result<seq<(int, int)>>)
    requires 0 <= i < |refSites|
    requires forall j :: j in nS ==> 0 <= j < |sites|
    ensures r.Ok? <==> RadiiKnown(refSites, sites, pps, [i], nS)
    ensures r.Err? ==> r.error == KeyError
    ensures r.Ok? ==> r.value == Filter(Row(i, nS), Overlapper(refSites, sites, dist, pps))
  {
    ghost var f := Overlapper(refSites, sites, dist, pps);
    var pairs := [];
    for b := 0 to |nS|
      invariant pairs == Filter(Row(i, nS[..b]), f)
      invariant RadiiKnown(refSites, sites, pps, [i], nS[..b])
    {
      var j := nS[b];
      assert j in nS;
      if refSites[i].element !in pps.entries || sites[j].element !in pps.entries {
        NotKnown(refSites, sites, pps, i, nS, b);
        return Err(KeyError);
      }
      KnownRowSnoc(refSites, sites, pps, i, nS, b);
      OverlapRowStep(refSites, sites, dist, pps, i, nS, b);
      if dist(refSites[i], sites[j]) < pps.entries[refSites[i].element].rmax + pps.entries[sites[j].element].rmax {
        pairs := pairs + [(i, j)];
      }
    }
    assert nS[..|nS|] == nS;
    return Ok(pairs);
  }

  /** The last double loop: every (i in N_R, j in N_S) pair whose spheres
      overlap, in N_R-major order; a radius lookup that fails raises KeyError. */
  method OverlapPairs(refSites: seq<Site>, sites: seq<Site>, dist: (Site, Site) -> real,
                      pps: Dict<string, Pseudopotential>, nR: seq<int>, nS: seq<int>)
      returns (r: Result<seq<(int, int)>>)
    requires forall i :: i in nR ==> 0 <= i < |refSites|
    requires forall j :: j in nS ==> 0 <= j < |sites|
    ensures r.Ok? <==> RadiiKnown(refSites, sites, pps, nR, nS)
    ensures r.Err? ==> r.error == KeyError
    ensures r.Ok? ==> r.value == Filter(Product(nR, nS), Overlapper(refSites, sites, dist, pps))
  {
    ghost var f := Overlapper(refSites, sites, dist, pps);
    var pairs := [];
    for a := 0 to |nR|
      invariant pairs == Filter(Product(nR[..a], nS), f)
      invariant RadiiKnown(refSites, sites, pps, nR[..a], nS)
    {
      var i := nR[a];
      assert i in nR;
      var row := OverlapRow(refSites, sites, dist, pps, i, nS);
      if row.Err? {
        RowUnknown(refSites, sites, pps, nR, a, nS);
        return Err(KeyError);
      }
      PrefixSnoc(nR, a);
      KnownRows(refSites, sites, pps, nR[..a], i, nS);
      ProductSnoc(nR[..a], i, nS);
      FilterAppend(Product(nR[..a], nS), Row(i, nS), f);
      pairs := pairs + row.value;
    }
    assert nR[..|nR|] == nR;
    return Ok(pairs);
  }

  /** make_site_lists. */
  method MakeSiteLists(refSites: seq<Site>, sites: seq<Site>, dist: (Site, Site) -> real,
                       pps: Dict<string, Pseudopotential>) returns (r: Result<SiteLists>)
    ensures r == SiteListsOf(refSites, sites, dist, pps)
  {
    var mR, mS := MatchSites(refSites, sites, dist);
    var nR := UnmatchedIndices(|refSites|, mR, false);
    var nS := UnmatchedIndices(|sites|, mS, true);
    forall i | i in nR ensures 0 <= i < |refSites| {
      RangeMembership(0, |refSites|, i);
    }
    forall j | j in nS ensures 0 <= j < |sites| {
      RangeMembership(0, |sites|, j);
    }
    var nRS := OverlapPairs(refSites, sites, dist, pps, nR, nS);
    if nRS.Err? {
      return Err(nRS.error);
    }
    return Ok(SiteLists(mR, mS, nR, nS, nRS.value));
  }

  /** Pair x comes before pair y in nested-loop order. */
  predicate LexBefore(x: (int, int), y: (int, int))
  {
    x.0 < y.0 || (x.0 == y.0 && x.1 < y.1)
  }

  /** Pairs in the order of nested loops: by first index, then by second. */
  predicate LexIncreasing(ps: seq<(int, int)>)
  {
    forall p, q :: 0 <= p < q < |ps| ==> LexBefore(ps[p], ps[q])
  }

  lemma {:induction false} ProductLex(a: seq<int>, b: seq<int>)
    requires Increasing(a) && Increasing(b)
    ensures LexIncreasing(Product(a, b))
  {
    if a != [] {
      ProductLex(a[1..], b);
      var row, rest := Row(a[0], b), Product(a[1..], b);
      var all := row + rest;
      assert all == Product(a, b);
      forall p, q | 0 <= p < q < |all|
        ensures LexBefore(all[p], all[q])
      {
        if q < |row| {
          assert all[p] == (a[0], b[p]) && all[q] == (a[0], b[q]);
        } else if p < |row| {
          var e := rest[q - |row|];
          assert e in rest;
          ProductMembership(a[1..], b, e.0, e.1);
          var t :| 0 <= t < |a[1..]| && a[1..][t] == e.0;
          assert a[t + 1] == e.0;
          assert all[p].0 == a[0];
        } else {
          assert all[p] == rest[p - |row|] && all[q] == rest[q - |row|];
        }
      }
    }
  }

  lemma {:induction false} FilterLex(ps: seq<(int, int)>, keep: ((int, int)) -> bool)
    requires LexIncreasing(ps)
    ensures LexIncreasing(Filter(ps, keep))
  {
    if ps != [] {
      var init := ps[..|ps| - 1];
      var x := ps[|ps| - 1];
      assert LexIncreasing(init);
      FilterLex(init, keep);
      var f := Filter(init, keep);
      if keep(x) {
        var g := f + [x];
        forall p, q | 0 <= p < q < |g|
          ensures LexBefore(g[p], g[q])
        {
          if q == |f| {
            assert f[p] in init;
            var t :| 0 <= t < |init| && init[t] == f[p];
            assert ps[t] == f[p];
          } else {
            assert g[p] == f[p] && g[q] == f[q];
          }
        }
      }
    }
  }

  /** M_R and M_S have equal length; (i, j) is a pair of them exactly when
      basis site i and subject site j are the same site; every such pair is
      listed, once, in i-major then j order. */
  lemma MatchesMeaning(refSites: seq<Site>, sites: seq<Site>, dist: (Site, Site) -> real)
    ensures var m := Matches(refSites, sites, dist);
      && |Firsts(m)| == |Seconds(m)| == |m|
      && (forall i, j :: (i, j) in m <==> Same(refSites, sites, dist, i, j))
      && LexIncreasing(m)
  {
    var m := Matches(refSites, sites, dist);
    forall i, j
      ensures (i, j) in m <==> Same(refSites, sites, dist, i, j)
    {
      ProductMembership(Range(0, |refSites|), Range(0, |sites|), i, j);
      RangeMembership(0, |refSites|, i);
      RangeMembership(0, |sites|, j);
    }
    RangeIncreasing(0, |refSites|);
    RangeIncreasing(0, |sites|);
    ProductLex(Range(0, |refSites|), Range(0, |sites|));
    FilterLex(Product(Range(0, |refSites|), Range(0, |sites|)), Matcher(refSites, sites, dist));
  }

  /** N_R is exactly the ascending basis indices not in M_R, so together
      with M_R it covers every basis site and shares none with it. */
  lemma UnmatchedMeaning(n: int, m: seq<int>)
    ensures Increasing(Unmatched(n, m))
    ensures forall i :: i in Unmatched(n, m) <==> 0 <= i < n && i !in m
  {
    RangeIncreasing(0, n);
    FilterIncreasing(Range(0, n), i => i !in m);
    forall i
      ensures i in Unmatched(n, m) <==> 0 <= i < n && i !in m
    {
      RangeMembership(0, n, i);
    }
  }

  /** The overlap pairs: the lists fail exactly when an element of some
      visited pair has no radius; otherwise N_RS holds exactly the pairs of
      an unmatched basis site and an unmatched subject site whose spheres
      overlap, in N_R-major order. */
  lemma OverlapsMeaning(refSites: seq<Site>, sites: seq<Site>, dist: (Site, Site) -> real,
                        pps: Dict<string, Pseudopotential>)
    ensures var r := SiteListsOf(refSites, sites, dist, pps);
      var m := Matches(refSites, sites, dist);
      && (r.Err? <==> exists i, j :: i in Unmatched(|refSites|, Firsts(m)) && j in Unmatched(|sites|, Seconds(m)) &&
                         !KnownPair(refSites, sites, pps, i, j))
      && (r.Err? ==> r.error == KeyError)
      && (r.Ok? ==>
            (LexIncreasing(r.value.nRS) &&
             forall i, j :: (i, j) in r.value.nRS <==>
               i in r.value.nR && j in r.value.nS && Overlaps(refSites, sites, dist, pps, i, j)))
  {
    var m := Matches(refSites, sites, dist);
    var nR, nS := Unmatched(|refSites|, Firsts(m)), Unmatched(|sites|, Seconds(m));
    UnmatchedMeaning(|refSites|, Firsts(m));
    UnmatchedMeaning(|sites|, Seconds(m));
    ProductLex(nR, nS);
    FilterLex(Product(nR, nS), Overlapper(refSites, sites, dist, pps));
    forall i, j
      ensures (i, j) in Filter(Product(nR, nS), Overlapper(refSites, sites, dist, pps)) <==>
        i in nR && j in nS && Overlaps(refSites, sites, dist, pps, i, j)
    {
      ProductMembership(nR, nS, i, j);
    }
  }

  /** setup_projection's unzip of N_RS into N_RS_R and N_RS_S, two empty
      lists when there are no pairs. */
  function Unzip(nRS: seq<(int, int)>): (r: (seq<int>, seq<int>))
  {
    if |nRS| > 0 then (Firsts(nRS), Seconds(nRS)) else ([], [])
  }

  /** The unzipped lists have one entry per pair and zip back to N_RS. */
  lemma UnzipRoundTrip(nRS: seq<(int, int)>)
    ensures |Unzip(nRS).0| == |Unzip(nRS).1| == |nRS|
    ensures Zip(Unzip(nRS).0, Unzip(nRS).1) == nRS
  {
    UnzipZip(nRS);
  }

  /** self.site_cat: [M_R, M_S, N_R, N_S, N_RS_R, N_RS_S]. */
  function SiteCat(lists: SiteLists): (r: seq<seq<int>>)
    ensures |r| == 6
  {
    var (rr, ss) := Unzip(lists.nRS);
    [lists.mR, lists.mS, lists.nR, lists.nS, rr, ss]
  }
}
