/** Projector.__init__ and setup_projection: whether a projection of one
    wavefunction onto another can be set up at all (the desymmetrising
    branches, then the checks that both use the same k-points and weights),
    the fields a projector copies from its wavefunction, and the bookkeeping
    of setup_projection (element labels, site labels, site coordinates and
    the site lists).

    SpacegroupAnalyzer's symmetry operations, SymmOp.operate and pymatgen's
    minimum-image distance are foreign: a wavefunction carries the
    operations of its structure, and `operate` and `dist` are parameters.
    The C calls that follow the bookkeeping are not part of this module. */
module Session {
  import opened Numbers
  import opened Seqs
  import opened Errors
  import opened Dicts
  import opened Labels
  import opened Kpoints
  import opened Pseudopotentials
  import opened Sites
  import Packing

  /** The k-point data of a wavefunction: pwf.kpts and pwf.kws, and the
      symmetry operations of its structure. */
  datatype KGrid = KGrid(kpts: seq<Vec3>, kws: seq<real>, symmops: seq<SymmOp>)

  // ---------------------------------------------------------------------
  // The desymmetrising branches

  /** How many values get_nosym_kpoints returns, and how many names
      __init__ unpacks them into. */
  const NosymReturned: nat := 4
  const NosymUnpacked: nat := 5

  /** The same two counts for get_kpt_mapping. */
  const MappingReturned: nat := 3
  const MappingUnpacked: nat := 4

  /** `a, b, ... = f()`: ValueError unless there are as many names as values. */
  function Unpack(returned: nat, names: nat): (r: Result<()>)
    ensures r.Ok? <==> returned == names
    ensures r.Err? ==> r.error == ValueError
  {
    if returned == names then Ok(()) else Err(ValueError)
  }

  /** The three desymmetrising branches of __init__, up to the unpacking of
      the first call's values, which is as far as any of them gets: both
      sides unfolded (get_nosym_kpoints on the basis), only the wavefunction
      mapped onto the basis's k-points, or only the basis mapped onto the
      wavefunction's. */
  function Desymmetrise(unsymBasis: bool, unsymWf: bool, basis: KGrid, wf: KGrid,
                        operate: (SymmOp, Vec3) -> Vec3): (r: Result<()>)
  {
    if unsymBasis && unsymWf then Unpack(NosymReturned, NosymUnpacked)
    else if unsymWf then
      match KptMappingOf(basis.kpts, wf.kpts, wf.symmops, operate)
      case Err(e) => Err(e)
      case Ok(_) => Unpack(MappingReturned, MappingUnpacked)
    else if unsymBasis then
      match KptMappingOf(wf.kpts, basis.kpts, basis.symmops, operate)
      case Err(e) => Err(e)
      case Ok(_) => Unpack(MappingReturned, MappingUnpacked)
    else Ok(())
  }

  /** Every target k-point is, within 1e-10, the image of one of the grid's
      k-points under one of its symmetry operations. */
  ghost predicate Mappable(targets: seq<Vec3>, g: KGrid, operate: (SymmOp, Vec3) -> Vec3)
  {
    AllNear(targets, Candidates(g.kpts, g.symmops, operate))
  }

  /** Asking for either side to be desymmetrised always fails: with both,
      on the unpacking of get_nosym_kpoints' four values into five names;
      with one, get_kpt_mapping raises when some k-point has no image and
      otherwise its three values do not fill four names. */
  lemma DesymmetrisingFails(unsymBasis: bool, unsymWf: bool, basis: KGrid, wf: KGrid,
                            operate: (SymmOp, Vec3) -> Vec3)
    ensures var r := Desymmetrise(unsymBasis, unsymWf, basis, wf, operate);
      && (r.Ok? <==> !unsymBasis && !unsymWf)
      && (unsymBasis && unsymWf ==> r == Err(ValueError))
      && (unsymWf && !unsymBasis ==>
            r == Err(if Mappable(basis.kpts, wf, operate) then ValueError else Raised))
      && (unsymBasis && !unsymWf ==>
            r == Err(if Mappable(wf.kpts, basis, operate) then ValueError else Raised))
  {
    if unsymWf && !unsymBasis {
      MappingFails(basis.kpts, wf, operate);
    } else if unsymBasis && !unsymWf {
      MappingFails(wf.kpts, basis, operate);
    }
  }

  /** get_kpt_mapping raises exactly when some target is not mappable. */
  lemma MappingFails(targets: seq<Vec3>, g: KGrid, operate: (SymmOp, Vec3) -> Vec3)
    ensures var m := KptMappingOf(targets, g.kpts, g.symmops, operate);
      (m.Ok? <==> Mappable(targets, g, operate)) && (m.Err? ==> m.error == Raised)
  {
    var cs := Candidates(g.kpts, g.symmops, operate);
    MappingOk(targets, cs);
    MappingError(targets, cs);
  }

  // ---------------------------------------------------------------------
  // np.linalg.norm(a - b) > 1e-10

  /** The length numpy gives the leading axis of a - b: equal lengths, or a
      length of 1 stretched to the other; any other pair raises ValueError. */
  function Broadcast(n: nat, m: nat): (r: Option<nat>)
    ensures r.None? <==> n != m && n != 1 && m != 1
    ensures r.Some? ==> (n == 1 || r.value == n) && (m == 1 || r.value == m)
  {
    if n == m || m == 1 then Some(n) else if n == 1 then Some(m) else None
  }

  /** Row i of an array stretched along its leading axis. */
  function Stretched<T>(a: seq<T>, i: nat): T
    requires |a| == 1 || i < |a|
  {
    if |a| == 1 then a[0] else a[i]
  }

  /** The sum of the squared distances between the first m rows of a and of
      b, stretched: the squared Frobenius norm of a - b when m is their
      broadcast length. */
  function GapSq<T>(a: seq<T>, b: seq<T>, distSq: (T, T) -> real, m: nat): real
    requires (|a| == 1 || m <= |a|) && (|b| == 1 || m <= |b|)
  {
    if m == 0 then 0.0
    else GapSq(a, b, distSq, m - 1) + distSq(Stretched(a, m - 1), Stretched(b, m - 1))
  }

  /** The squared distance between two k-points. */
  function PointGapSq(p: Vec3, q: Vec3): (r: real)
    ensures r >= 0.0
  {
    NormSq(Sub(p, q))
  }

  /** The squared distance between two weights. */
  function WeightGapSq(x: real, y: real): (r: real)
    ensures r >= 0.0
  {
    (x - y) * (x - y)
  }

  /** The largest norm of a - b the grid checks let through. */
  const Tolerance: real := 0.0000000001

  /** `if np.linalg.norm(a - b) > 1e-10: raise PAWpyError(...)`, compared
      squared, which is the same test since the norm is the nonnegative
      square root of the sum of squares. Shapes that do not broadcast raise
      ValueError before the comparison. */
  function Compare<T>(a: seq<T>, b: seq<T>, distSq: (T, T) -> real): (r: Result<()>)
  {
    match Broadcast(|a|, |b|)
    case None => Err(ValueError)
    case Some(m) => if GapSq(a, b, distSq, m) > Tolerance * Tolerance then Err(Raised) else Ok(())
  }

  lemma {:induction false} GapSqSame<T>(a: seq<T>, distSq: (T, T) -> real, m: nat)
    requires forall x :: distSq(x, x) == 0.0
    requires |a| == 1 || m <= |a|
    ensures GapSq(a, a, distSq, m) == 0.0
  {
    if m > 0 {
      GapSqSame(a, distSq, m - 1);
    }
  }

  lemma {:induction false} GapSqBounds<T>(a: seq<T>, b: seq<T>, distSq: (T, T) -> real, m: nat)
    requires forall x, y :: distSq(x, y) >= 0.0
    requires (|a| == 1 || m <= |a|) && (|b| == 1 || m <= |b|)
    ensures GapSq(a, b, distSq, m) >= 0.0
    ensures forall i :: 0 <= i < m ==> distSq(Stretched(a, i), Stretched(b, i)) <= GapSq(a, b, distSq, m)
  {
    if m > 0 {
      GapSqBounds(a, b, distSq, m - 1);
      assert distSq(Stretched(a, m - 1), Stretched(b, m - 1)) >= 0.0;
    }
  }

  /** An array compared with itself always passes. */
  lemma CompareSame<T>(a: seq<T>, distSq: (T, T) -> real)
    requires forall x :: distSq(x, x) == 0.0
    ensures Compare(a, a, distSq) == Ok(())
  {
    GapSqSame(a, distSq, |a|);
  }

  /** ValueError exactly when the shapes do not broadcast; passing means
      every pair of broadcast rows lies within 1e-10 of each other. */
  lemma CompareMeaning<T>(a: seq<T>, b: seq<T>, distSq: (T, T) -> real)
    requires forall x, y :: distSq(x, y) >= 0.0
    ensures Compare(a, b, distSq) == Err(ValueError) <==> Broadcast(|a|, |b|).None?
    ensures Compare(a, b, distSq).Ok? ==>
      forall i :: 0 <= i < Broadcast(|a|, |b|).value ==>
        distSq(Stretched(a, i), Stretched(b, i)) <= Tolerance * Tolerance
  {
    if Broadcast(|a|, |b|).Some? {
      GapSqBounds(a, b, distSq, Broadcast(|a|, |b|).value);
    }
  }

  /** Everything __init__ checks before it changes any object: the
      desymmetrising branches, then the k-points, then the weights, each
      read from the wavefunctions' pwf (see CheckKptsAsWritten). */
  function Checks(unsymBasis: bool, unsymWf: bool, basis: KGrid, wf: KGrid,
                  operate: (SymmOp, Vec3) -> Vec3): (r: Result<()>)
  {
    match Desymmetrise(unsymBasis, unsymWf, basis, wf, operate)
    case Err(e) => Err(e)
    case Ok(_) =>
      match Compare(basis.kpts, wf.kpts, PointGapSq)
      case Err(e) => Err(e)
      case Ok(_) => Compare(basis.kws, wf.kws, WeightGapSq)
  }

  /** Two wavefunctions on the same k-points with the same weights pass. */
  lemma SameGridsPass(basis: KGrid, wf: KGrid, operate: (SymmOp, Vec3) -> Vec3)
    requires basis.kpts == wf.kpts && basis.kws == wf.kws
    ensures Checks(false, false, basis, wf, operate) == Ok(())
  {
    CompareSame(wf.kpts, PointGapSq);
    CompareSame(wf.kws, WeightGapSq);
  }

  /** Passing means neither side is desymmetrised, the k-point and weight
      arrays broadcast, and every k-point and every weight of one lies
      within 1e-10 of its counterpart in the other. */
  lemma ChecksMeaning(unsymBasis: bool, unsymWf: bool, basis: KGrid, wf: KGrid,
                      operate: (SymmOp, Vec3) -> Vec3)
    ensures Checks(unsymBasis, unsymWf, basis, wf, operate).Ok? ==>
      && !unsymBasis && !unsymWf
      && Broadcast(|basis.kpts|, |wf.kpts|).Some?
      && Broadcast(|basis.kws|, |wf.kws|).Some?
      && (forall i :: 0 <= i < Broadcast(|basis.kpts|, |wf.kpts|).value ==>
            NormSq(Sub(Stretched(basis.kpts, i), Stretched(wf.kpts, i))) <= Tolerance * Tolerance)
      && (forall i :: 0 <= i < Broadcast(|basis.kws|, |wf.kws|).value ==>
            WeightGapSq(Stretched(basis.kws, i), Stretched(wf.kws, i)) <= Tolerance * Tolerance)
  {
    DesymmetrisingFails(unsymBasis, unsymWf, basis, wf, operate);
    CompareMeaning(basis.kpts, wf.kpts, PointGapSq);
    CompareMeaning(basis.kws, wf.kws, WeightGapSq);
  }

  // ---------------------------------------------------------------------
  // The grid check as written

  /** Every attribute the core ever sets on a Wavefunction: its initializer,
      get_nosym_kpoints, make_c_projectors, setup_bases and setup_projection.
      The k-points and weights live on its pwf, not on it. */
  const WavefunctionAttributes: set<string> := {
    "structure", "pwf", "cr", "dim", "projector_owner", "projector_list", "nums",
    "coords", "nband", "nwk", "nspin", "num_proj_els", "nosym_kpts", "orig_kptnums",
    "op_nums", "symmops", "labels", "projection_data"}

  /** The check as written reads `basis.kpts`: with no such attribute on the
      basis it raises AttributeError before comparing anything. */
  function CheckKptsAsWritten(attributes: set<string>, basis: KGrid, wf: KGrid): (r: Result<()>)
  {
    if "kpts" !in attributes then Err(AttributeError)
    else match Compare(basis.kpts, wf.kpts, PointGapSq)
      case Err(e) => Err(e)
      case Ok(_) => Compare(basis.kws, wf.kws, WeightGapSq)
  }

  /** __init__'s checks as written. */
  function ChecksAsWritten(attributes: set<string>, unsymBasis: bool, unsymWf: bool,
                           basis: KGrid, wf: KGrid, operate: (SymmOp, Vec3) -> Vec3): (r: Result<()>)
  {
    match Desymmetrise(unsymBasis, unsymWf, basis, wf, operate)
    case Err(e) => Err(e)
    case Ok(_) => CheckKptsAsWritten(attributes, basis, wf)
  }

  /** As written, no Projector can be built: a desymmetrising branch fails
      on its unpacking, and otherwise reading basis.kpts raises
      AttributeError, even for two wavefunctions on identical grids. */
  lemma InitAsWrittenNeverPasses(attributes: set<string>, unsymBasis: bool, unsymWf: bool,
                                 basis: KGrid, wf: KGrid, operate: (SymmOp, Vec3) -> Vec3)
    requires attributes <= WavefunctionAttributes
    ensures ChecksAsWritten(attributes, unsymBasis, unsymWf, basis, wf, operate).Err?
    ensures !unsymBasis && !unsymWf ==>
      ChecksAsWritten(attributes, unsymBasis, unsymWf, basis, wf, operate) == Err(AttributeError)
  {
    DesymmetrisingFails(unsymBasis, unsymWf, basis, wf, operate);
    assert "kpts" !in WavefunctionAttributes;
  }

  // ---------------------------------------------------------------------
  // make_c_projectors, as setup_projection calls it

  /** What make_c_projectors returns for a projector and its basis: the
      number of labelled elements (num_proj_els), the label of each site of
      either structure, and each structure's flattened coordinates. */
  datatype CProjectors = CProjectors(numProjEls: nat, nums: seq<int>, coords: seq<real>,
                                     basisNums: seq<int>, basisCoords: seq<real>)

  /** The labels come from the projector's own elements and then the
      basis's others; the labelled datasets are packed for C
      (get_c_projectors_from_pps), whose errors come first; then a site
      whose element has no label raises KeyError, the projector's sites
      being looked up first. */
  function CProjectorsOf(own: Dict<string, Pseudopotential>, basisPps: Dict<string, Pseudopotential>,
                         structure: seq<Site>, basisStructure: seq<Site>): (r: Result<CProjectors>)
    requires Valid(own) && Valid(basisPps)
  {
    var t := Table(Items(own) + Items(basisPps));
    match Packing.PackOf(t.pps)
    case Err(e) => Err(e)
    case Ok(_) =>
    match SiteNums(t.labels, structure)
    case Err(e) => Err(e)
    case Ok(nums) =>
      match SiteNums(t.labels, basisStructure)
      case Err(e) => Err(e)
      case Ok(basisNums) =>
        Ok(CProjectors(|t.pps.keys|, nums, FlatCoords(structure), basisNums, FlatCoords(basisStructure)))
  }

  /** Every site of the structure has an element of one of the two dicts. */
  predicate ElementsKnown(structure: seq<Site>, own: Dict<string, Pseudopotential>,
                          basisPps: Dict<string, Pseudopotential>)
  {
    forall i :: 0 <= i < |structure| ==>
      structure[i].element in own.entries || structure[i].element in basisPps.entries
  }

  lemma TableShape(items: seq<(string, Pseudopotential)>)
    ensures var t := Table(items);
      && Valid(t.labels) && t.labels.keys == Dedup(Firsts(items)) && t.nextLabel == |t.labels.keys|
      && DenseLabels(t) && |t.pps.keys| == t.nextLabel
  {
    TableFacts(items);
    LabelCount(items);
  }

  /** The labelled elements are exactly the two dicts' elements. */
  lemma LabelledElements(own: Dict<string, Pseudopotential>, basisPps: Dict<string, Pseudopotential>, e: string)
    requires Valid(own) && Valid(basisPps)
    ensures e in Table(Items(own) + Items(basisPps)).labels.entries <==> e in own.entries || e in basisPps.entries
  {
    var items := Items(own) + Items(basisPps);
    TableShape(items);
    MakeLabelsKeys(own, basisPps);
    DedupProperties(Firsts(items));
  }

  /** Every label is below the number of labelled elements, num_proj_els. */
  lemma LabelBelow(items: seq<(string, Pseudopotential)>, e: string)
    requires e in Table(items).labels.entries
    ensures 0 <= Table(items).labels.entries[e] < |Table(items).pps.keys|
  {
    var t := Table(items);
    TableShape(items);
    var u := IndexOf(t.labels.keys, e);
    assert t.labels.entries[t.labels.keys[u]] == u;
  }

  /** The site labels of one structure: they exist exactly when every
      element is known, and each lies below num_proj_els. */
  lemma SiteNumsKnown(own: Dict<string, Pseudopotential>, basisPps: Dict<string, Pseudopotential>, structure: seq<Site>)
    requires Valid(own) && Valid(basisPps)
    ensures var t := Table(Items(own) + Items(basisPps));
      var nums := SiteNums(t.labels, structure);
      && (nums.Ok? <==> ElementsKnown(structure, own, basisPps))
      && (nums.Err? ==> nums.error == KeyError)
      && (nums.Ok? ==>
            |nums.value| == |structure| &&
            forall i :: 0 <= i < |structure| ==>
              structure[i].element in t.labels.entries &&
              nums.value[i] == t.labels.entries[structure[i].element] &&
              0 <= nums.value[i] < |t.pps.keys|)
  {
    var t := Table(Items(own) + Items(basisPps));
    SiteNumsMeaning(t.labels, structure);
    forall i | 0 <= i < |structure|
      ensures structure[i].element in t.labels.entries <==>
        structure[i].element in own.entries || structure[i].element in basisPps.entries
      ensures structure[i].element in t.labels.entries ==>
        0 <= t.labels.entries[structure[i].element] < |t.pps.keys|
    {
      LabelledElements(own, basisPps, structure[i].element);
      if structure[i].element in t.labels.entries {
        LabelBelow(Items(own) + Items(basisPps), structure[i].element);
      }
    }
  }

  /** Every dataset of a CoreRegion has what packing reads. */
  ghost predicate ShapedElements(pps: Dict<string, Pseudopotential>)
  {
    forall e :: e in pps.entries ==> Packing.Shaped(pps.entries[e])
  }

  /** make_c_projectors first packs the labelled datasets: a dataset that
      does not pack raises AttributeError or IndexError, and shaped datasets
      always pack. Once they pack, it succeeds exactly when every site of
      both structures has an element of one of the two CoreRegions, and
      raises KeyError otherwise; num_proj_els is the number of distinct
      elements, every site label is below it, and the coordinates are three
      per site. */
  lemma CProjectorsMeaning(own: Dict<string, Pseudopotential>, basisPps: Dict<string, Pseudopotential>,
                           structure: seq<Site>, basisStructure: seq<Site>)
    requires Valid(own) && Valid(basisPps)
    ensures var packed := Packing.PackOf(Table(Items(own) + Items(basisPps)).pps);
      var r := CProjectorsOf(own, basisPps, structure, basisStructure);
      && (packed.Err? ==> r == Err(packed.error) && (packed.error == AttributeError || packed.error == IndexError))
      && (ShapedElements(own) && ShapedElements(basisPps) ==> packed.Ok?)
      && (packed.Ok? ==>
            (r.Ok? <==> ElementsKnown(structure, own, basisPps) && ElementsKnown(basisStructure, own, basisPps)))
      && (packed.Ok? && r.Err? ==> r.error == KeyError)
      && (r.Ok? ==>
            && r.value.numProjEls == |Dedup(own.keys + basisPps.keys)|
            && |r.value.nums| == |structure| && |r.value.basisNums| == |basisStructure|
            && |r.value.coords| == 3 * |structure| && |r.value.basisCoords| == 3 * |basisStructure|
            && (forall i :: 0 <= i < |structure| ==> 0 <= r.value.nums[i] < r.value.numProjEls)
            && (forall i :: 0 <= i < |basisStructure| ==> 0 <= r.value.basisNums[i] < r.value.numProjEls))
  {
    var items := Items(own) + Items(basisPps);
    var packed := Packing.PackOf(Table(items).pps);
    if packed.Err? {
      Packing.PackError(Table(items).pps);
    }
    if ShapedElements(own) && ShapedElements(basisPps) {
      Packing.ItemsShaped(own, basisPps);
      Packing.ShapedTablePacks(items);
    }
    SiteNumsKnown(own, basisPps, structure);
    SiteNumsKnown(own, basisPps, basisStructure);
    MakeLabelsKeys(own, basisPps);
    LabelCount(items);
  }

  /** make_c_projectors: label the elements, the projector's own first,
      pack their datasets for C, then look up every site's label and
      flatten the sites' coordinates. */
  method MakeCProjectors(own: Dict<string, Pseudopotential>, basisPps: Dict<string, Pseudopotential>,
                         structure: seq<Site>, basisStructure: seq<Site>) returns (r: Result<CProjectors>)
    requires Valid(own) && Valid(basisPps)
    ensures r == CProjectorsOf(own, basisPps, structure, basisStructure)
  {
    var pps, labels, next := MakeLabels(own, Some(basisPps));
    var packed := Packing.Pack(pps);
    if packed.Err? {
      return Err(packed.error);
    }
    var selfNums := SiteNums(labels, structure);
    if selfNums.Err? {
      return Err(selfNums.error);
    }
    var basisNums := SiteNums(labels, basisStructure);
    if basisNums.Err? {
      return Err(basisNums.error);
    }
    var selfCoords := FlattenCoords(structure);
    var basisCoords := FlattenCoords(basisStructure);
    r := Ok(CProjectors(|pps.keys|, selfNums.value, selfCoords, basisNums.value, basisCoords));
  }

  // ---------------------------------------------------------------------
  // The objects

  /** make_c_projectors() with no basis, as check_c_projectors calls it:
      the wavefunction's own elements labelled 0, 1, ... in POTCAR order,
      their datasets packed for C, then each site's label (KeyError for an
      element without a dataset) and the sites' flattened coordinates. */
  function OwnProjectorsOf(pps: Dict<string, Pseudopotential>, structure: seq<Site>): Result<(seq<int>, seq<real>)>
    requires Valid(pps)
  {
    var t := Table(Items(pps));
    match Packing.PackOf(t.pps)
    case Err(e) => Err(e)
    case Ok(_) =>
      match SiteNums(t.labels, structure)
      case Err(e) => Err(e)
      case Ok(nums) => Ok((nums, FlatCoords(structure)))
  }

  /** The projectors a wavefunction sets up for itself: a dataset that does
      not pack raises AttributeError or IndexError, and shaped datasets
      always pack. Once they pack, the set-up succeeds exactly when every
      site's element has a dataset, and raises KeyError otherwise; each
      site's label is then the position of its element in the POTCAR, and
      the coordinates are the sites' own, three per site. */
  lemma OwnProjectorsMeaning(pps: Dict<string, Pseudopotential>, structure: seq<Site>)
    requires Valid(pps)
    ensures var packed := Packing.PackOf(Table(Items(pps)).pps);
      var r := OwnProjectorsOf(pps, structure);
      && (packed.Err? ==> r == Err(packed.error) && (packed.error == AttributeError || packed.error == IndexError))
      && (ShapedElements(pps) ==> packed.Ok?)
      && (packed.Ok? ==> (r.Ok? <==> forall i :: 0 <= i < |structure| ==> structure[i].element in pps.entries))
      && (packed.Ok? && r.Err? ==> r.error == KeyError)
      && (r.Ok? ==>
            && |r.value.0| == |structure| && r.value.1 == FlatCoords(structure)
            && forall i :: 0 <= i < |structure| ==>
                 0 <= r.value.0[i] < |pps.keys| && pps.keys[r.value.0[i]] == structure[i].element)
  {
    var items := Items(pps);
    var t := Table(items);
    var packed := Packing.PackOf(t.pps);
    if packed.Err? {
      Packing.PackError(t.pps);
    }
    if ShapedElements(pps) {
      OwnShaped(pps);
    }
    OwnTable(pps);
    SiteNumsMeaning(t.labels, structure);
    var r := OwnProjectorsOf(pps, structure);
    if r.Ok? {
      forall i | 0 <= i < |structure|
        ensures 0 <= r.value.0[i] < |pps.keys| && pps.keys[r.value.0[i]] == structure[i].element
      {
        var el := structure[i].element;
        assert el in pps.keys;
        var u :| 0 <= u < |pps.keys| && pps.keys[u] == el;
        assert r.value.0[i] == t.labels.entries[el];
      }
    }
  }

  /** Shaped datasets pack when they are labelled on their own. */
  lemma OwnShaped(pps: Dict<string, Pseudopotential>)
    requires Valid(pps) && ShapedElements(pps)
    ensures Packing.PackOf(Table(Items(pps)).pps).Ok?
  {
    var none: Dict<string, Pseudopotential> := Dict([], map[]);
    assert Items(none) == [];
    assert Items(pps) + Items(none) == Items(pps);
    Packing.ItemsShaped(pps, none);
    Packing.ShapedTablePacks(Items(pps));
  }

  /** Labelled on their own, the elements with a dataset are exactly those
      labelled, each by its position in the POTCAR. */
  lemma OwnTable(pps: Dict<string, Pseudopotential>)
    requires Valid(pps)
    ensures var t := Table(Items(pps));
      && (forall e :: e in t.labels.entries <==> e in pps.entries)
      && (forall u :: 0 <= u < |pps.keys| ==> t.labels.entries[pps.keys[u]] == u)
  {
    var none: Dict<string, Pseudopotential> := Dict([], map[]);
    assert Items(none) == [];
    assert Items(pps) + Items(none) == Items(pps);
    forall e ensures e in Table(Items(pps)).labels.entries <==> e in pps.entries {
      LabelledElements(pps, none, e);
    }
    OwnLabels(pps, none);
  }

  /** The labelling, packing and lookups of check_c_projectors, in the order
      make_c_projectors performs them. */
  method MakeOwnProjectors(pps: Dict<string, Pseudopotential>, structure: seq<Site>)
    returns (r: Result<(seq<int>, seq<real>)>)
    requires Valid(pps)
    ensures r == OwnProjectorsOf(pps, structure)
  {
    var labelled, labels, next := MakeLabels(pps, None);
    assert Items(pps) + [] == Items(pps);
    ghost var t := Table(Items(pps));
    assert labelled == t.pps && labels == t.labels;
    var packed := Packing.Pack(labelled);
    if packed.Err? {
      return Err(packed.error);
    }
    var nums := SiteNums(labels, structure);
    if nums.Err? {
      return Err(nums.error);
    }
    var coords := FlattenCoords(structure);
    r := Ok((nums.value, coords));
  }

  /** The fields of a Wavefunction this module reads or writes. */
  class Wavefunction {
    const structure: seq<Site>
    /** cr.pps: the pseudopotential of each element, in POTCAR order. */
    const pps: Dict<string, Pseudopotential>
    /** pwf.kpts, pwf.kws and the structure's symmetry operations. */
    const grid: KGrid
    const dim: seq<int>
    const nband: int
    const nwk: int
    const nspin: int
    /** Whether this wavefunction made (and so frees) its projector list. */
    var projectorOwner: bool
    /** Whether projector_list holds a C projector list (it is None otherwise). */
    var hasProjectorList: bool
    var nums: Option<seq<int>>
    var coords: Option<seq<real>>
    var numProjEls: Option<nat>
    /** The element labels setup_bases stores on a basis; None until then. */
    var labels: Option<Dict<string, int>>

    /** The fields Wavefunction.__init__ leaves, given the site labels and
        coordinates check_c_projectors made (None when it was not run): the
        grid is half the FFT grid read from the OUTCAR, and num_proj_els is
        reset to None last. */
    constructor (structure: seq<Site>, pps: Dict<string, Pseudopotential>, grid: KGrid,
                 ngf: seq<int>, nband: int, nwk: int, nspin: int,
                 projectors: Option<(seq<int>, seq<real>)>)
      ensures this.structure == structure && this.pps == pps && this.grid == grid
      ensures dim == Halved(ngf)
      ensures this.nband == nband && this.nwk == nwk && this.nspin == nspin
      ensures projectorOwner == hasProjectorList == projectors.Some?
      ensures nums == (if projectors.Some? then Some(projectors.value.0) else None)
      ensures coords == (if projectors.Some? then Some(projectors.value.1) else None)
      ensures numProjEls.None? && labels.None?
    {
      this.structure := structure;
      this.pps := pps;
      this.grid := grid;
      dim := Halved(ngf);
      this.nband := nband;
      this.nwk := nwk;
      this.nspin := nspin;
      projectorOwner := projectors.Some?;
      hasProjectorList := projectors.Some?;
      nums := if projectors.Some? then Some(projectors.value.0) else None;
      coords := if projectors.Some? then Some(projectors.value.1) else None;
      numProjEls := None;
      labels := None;
    }

    /** Wavefunction(struct, pwf, cr, outcar, setup_projectors): with
        setup_projectors (the default) check_c_projectors labels the
        wavefunction's own elements and sites, and its errors escape
        __init__; without it nothing is labelled. */
    static method Create(structure: seq<Site>, pps: Dict<string, Pseudopotential>, grid: KGrid,
                         ngf: seq<int>, nband: int, nwk: int, nspin: int, setupProjectors: bool)
      returns (r: Result<Wavefunction>)
      requires Valid(pps)
      ensures !setupProjectors ==> r.Ok?
      ensures setupProjectors && OwnProjectorsOf(pps, structure).Err? ==> r == Err(OwnProjectorsOf(pps, structure).error)
      ensures setupProjectors && OwnProjectorsOf(pps, structure).Ok? ==> r.Ok?
      ensures r.Ok? ==> fresh(r.value)
      ensures r.Ok? ==>
        && r.value.structure == structure && r.value.pps == pps && r.value.grid == grid
        && r.value.dim == Halved(ngf) && r.value.nband == nband && r.value.nwk == nwk && r.value.nspin == nspin
        && r.value.numProjEls.None? && r.value.labels.None?
        && r.value.projectorOwner == r.value.hasProjectorList == setupProjectors
      ensures r.Ok? && setupProjectors ==>
        && OwnProjectorsOf(pps, structure).Ok?
        && r.value.nums == Some(OwnProjectorsOf(pps, structure).value.0)
        && r.value.coords == Some(OwnProjectorsOf(pps, structure).value.1)
      ensures r.Ok? && !setupProjectors ==> r.value.nums.None? && r.value.coords.None?
    {
      var projectors: Option<(seq<int>, seq<real>)> := None;
      if setupProjectors {
        var made := MakeOwnProjectors(pps, structure);
        if made.Err? {
          return Err(made.error);
        }
        projectors := Some(made.value);
      }
      var wf := new Wavefunction(structure, pps, grid, ngf, nband, nwk, nspin, projectors);
      r := Ok(wf);
    }

    /** wf.nums, wf.coords and wf.num_proj_els set from outside. */
    method Label(nums: seq<int>, coords: seq<real>, numProjEls: Option<nat>)
      modifies this
      ensures this.nums == Some(nums) && this.coords == Some(coords) && this.numProjEls == numProjEls
      ensures labels == old(labels)
      ensures projectorOwner == old(projectorOwner) && hasProjectorList == old(hasProjectorList)
    {
      this.nums := Some(nums);
      this.coords := Some(coords);
      this.numProjEls := numProjEls;
    }
  }

  /** `np.array(ngf) // 2`: each entry halved, rounding down. */
  function Halved(ngf: seq<int>): (r: seq<int>)
    ensures |r| == |ngf|
    ensures forall i :: 0 <= i < |ngf| ==> 2 * r[i] <= ngf[i] < 2 * r[i] + 2
  {
    seq(|ngf|, i requires 0 <= i < |ngf| => ngf[i] / 2)
  }

  /** A Projector: the wavefunction whose bands are projected, set up for
      projection onto the bands of a basis. */
  class Projector {
    const wf: Wavefunction
    const basis: Wavefunction
    const structure: seq<Site>
    const pps: Dict<string, Pseudopotential>
    const grid: KGrid
    const dim: seq<int>
    const projectorOwner: bool
    const nband: int
    const nwk: int
    const nspin: int
    /** Whether projector_list holds a C projector list (it is None otherwise). */
    var hasProjectorList: bool
    var nums: Option<seq<int>>
    var coords: Option<seq<real>>
    var numProjEls: Option<nat>
    var pseudo: bool
    /** [M_R, M_S, N_R, N_S, N_RS_R, N_RS_S] once setup_projection has run. */
    var siteCat: Option<seq<seq<int>>>

    /** The fields __init__ copies from the wavefunction once the checks
        pass, and the pseudo flag it stores last; the projector owns its
        projector list. */
    constructor Copy(wf: Wavefunction, basis: Wavefunction, hasProjectorList: bool, pseudo: bool)
      ensures this.wf == wf && this.basis == basis
      ensures structure == wf.structure && pps == wf.pps && grid == wf.grid && dim == wf.dim
      ensures nband == wf.nband && nwk == wf.nwk && nspin == wf.nspin
      ensures nums == wf.nums && coords == wf.coords && numProjEls == wf.numProjEls
      ensures projectorOwner && this.hasProjectorList == hasProjectorList
      ensures this.pseudo == pseudo && siteCat.None?
    {
      this.wf := wf;
      this.basis := basis;
      structure := wf.structure;
      pps := wf.pps;
      grid := wf.grid;
      dim := wf.dim;
      projectorOwner := true;
      nband := wf.nband;
      nwk := wf.nwk;
      nspin := wf.nspin;
      this.hasProjectorList := hasProjectorList;
      nums := wf.nums;
      coords := wf.coords;
      numProjEls := wf.numProjEls;
      this.pseudo := pseudo;
      siteCat := None;
    }

    /** setup_projection's bookkeeping: make_c_projectors when asked to set
        up the basis as well, then the site lists of the basis structure
        against the projector's, kept as site_cat. */
    method SetupProjection(setupBasis: bool, dist: (Site, Site) -> real) returns (r: Result<()>)
      requires Valid(pps) && Valid(basis.pps)
      modifies this, basis
      ensures var made := CProjectorsOf(pps, basis.pps, structure, basis.structure);
        setupBasis && made.Err? ==> r == Err(made.error) && unchanged(this, basis)
      ensures var made := CProjectorsOf(pps, basis.pps, structure, basis.structure);
        setupBasis && made.Ok? ==>
          && hasProjectorList && nums == Some(made.value.nums) && coords == Some(made.value.coords)
          && numProjEls == Some(made.value.numProjEls)
          && basis.nums == Some(made.value.basisNums) && basis.coords == Some(made.value.basisCoords)
          && basis.numProjEls == Some(made.value.numProjEls)
      ensures !setupBasis ==>
        && unchanged(basis) && hasProjectorList == old(hasProjectorList)
        && nums == old(nums) && coords == old(coords) && numProjEls == old(numProjEls)
      ensures var lists := SiteListsOf(basis.structure, structure, dist, pps);
        (!setupBasis || CProjectorsOf(pps, basis.pps, structure, basis.structure).Ok?) ==>
          && (r.Ok? <==> lists.Ok?)
          && (r.Ok? ==> siteCat == Some(SiteCat(lists.value)))
          && (r.Err? ==> r.error == lists.error && siteCat == old(siteCat))
      ensures pseudo == old(pseudo) && basis.labels == old(basis.labels)
      ensures basis.projectorOwner == old(basis.projectorOwner) && basis.hasProjectorList == old(basis.hasProjectorList)
    {
      if setupBasis {
        var made := MakeCProjectors(pps, basis.pps, structure, basis.structure);
        if made.Err? {
          return Err(made.error);
        }
        Store(made.value);
      }
      r := KeepSiteLists(dist);
    }

    /** The unpacking `self.projector_list, self.nums, self.coords,
        basis.nums, basis.coords = self.make_c_projectors(basis)`, with the
        num_proj_els make_c_projectors sets on both. */
    method Store(made: CProjectors)
      modifies this, basis
      ensures hasProjectorList && nums == Some(made.nums) && coords == Some(made.coords)
      ensures numProjEls == Some(made.numProjEls)
      ensures basis.nums == Some(made.basisNums) && basis.coords == Some(made.basisCoords)
      ensures basis.numProjEls == Some(made.numProjEls)
      ensures pseudo == old(pseudo) && siteCat == old(siteCat) && basis.labels == old(basis.labels)
      ensures basis.projectorOwner == old(basis.projectorOwner) && basis.hasProjectorList == old(basis.hasProjectorList)
    {
      numProjEls := Some(made.numProjEls);
      basis.numProjEls := Some(made.numProjEls);
      hasProjectorList := true;
      nums := Some(made.nums);
      coords := Some(made.coords);
      basis.nums := Some(made.basisNums);
      basis.coords := Some(made.basisCoords);
    }

    /** make_site_lists(basis) and site_cat = [M_R, M_S, N_R, N_S, N_RS_R, N_RS_S]. */
    method KeepSiteLists(dist: (Site, Site) -> real) returns (r: Result<()>)
      modifies this
      ensures var lists := SiteListsOf(basis.structure, structure, dist, pps);
        && (r.Ok? <==> lists.Ok?)
        && (r.Ok? ==> siteCat == Some(SiteCat(lists.value)))
        && (r.Err? ==> r.error == lists.error && siteCat == old(siteCat))
      ensures hasProjectorList == old(hasProjectorList) && pseudo == old(pseudo)
      ensures nums == old(nums) && coords == old(coords) && numProjEls == old(numProjEls)
    {
      var lists := MakeSiteLists(basis.structure, structure, dist, pps);
      if lists.Err? {
        return Err(lists.error);
      }
      siteCat := Some(SiteCat(lists.value));
      r := Ok(());
    }
  }

  /** The site labels __init__ gives a wavefunction that has none, when it
      is handed an existing projector list: basis.labels of each site's
      element (AttributeError when the basis has no labels, KeyError for
      an unlabelled element), and the sites' coordinates. The comprehension
      reads basis.labels only once it has a site, so an empty structure
      gets empty lists whether or not the basis has labels. */
  function GateLabels(labels: Option<Dict<string, int>>, structure: seq<Site>): (r: Result<(seq<int>, seq<real>)>)
    ensures r.Err? ==> r.error == (if labels.None? then AttributeError else KeyError)
    ensures labels.None? ==> (r.Err? <==> |structure| > 0)
    ensures r.Ok? ==>
      || (labels.Some? && SiteNums(labels.value, structure) == Ok(r.value.0))
      || (labels.None? && structure == [] && r.value == ([], []))
    ensures r.Ok? ==> |r.value.0| == |structure| && |r.value.1| == 3 * |structure|
  {
    if labels.None? then
      if structure == [] then Ok(([], [])) else Err(AttributeError)
    else
      SiteNumsError(labels.value, structure);
      match SiteNums(labels.value, structure)
      case Err(e) => Err(e)
      case Ok(nums) => Ok((nums, FlatCoords(structure)))
  }

  /** The block of __init__ that labels a wavefunction without site labels
      when a projector list is handed in (and projections are not pseudo
      only): the labels the basis keeps for its elements, the sites'
      coordinates, and the basis's num_proj_els. */
  method Gate(wf: Wavefunction, basis: Wavefunction, gate: bool) returns (r: Result<()>)
    modifies wf
    ensures !gate ==> r.Ok? && unchanged(wf)
    ensures var gated := GateLabels(old(basis.labels), wf.structure);
      gate ==>
        && (r.Ok? <==> gated.Ok?)
        && (r.Err? ==> r.error == gated.error && unchanged(wf))
        && (r.Ok? ==> wf.nums == Some(gated.value.0) && wf.coords == Some(gated.value.1) &&
                      wf.numProjEls == old(basis.numProjEls))
    ensures wf.labels == old(wf.labels)
  {
    if !gate {
      return Ok(());
    }
    var gated := GateLabels(basis.labels, wf.structure);
    if gated.Err? {
      return Err(gated.error);
    }
    var coords := FlattenCoords(wf.structure);
    wf.Label(gated.value.0, coords, basis.numProjEls);
    r := Ok(());
  }

  /** Projector.__init__ with the grid check reading the k-points and
      weights from both sides' pwf: the checks, then the site labels a
      wavefunction without any gets when a projector list is handed in,
      then the copy, then setup_projection unless only pseudo
      wavefunctions are to be projected. */
  method NewProjector(wf: Wavefunction, basis: Wavefunction, hasProjectorList: bool,
                      unsymBasis: bool, unsymWf: bool, pseudo: bool,
                      operate: (SymmOp, Vec3) -> Vec3, dist: (Site, Site) -> real)
      returns (r: Result<Projector>)
    requires Valid(wf.pps) && Valid(basis.pps)
    modifies wf, basis
    ensures var checks := Checks(unsymBasis, unsymWf, basis.grid, wf.grid, operate);
      checks.Err? ==> r == Err(checks.error) && unchanged(wf, basis)
    ensures r.Ok? ==>
      && Checks(unsymBasis, unsymWf, basis.grid, wf.grid, operate).Ok?
      && fresh(r.value) && r.value.wf == wf && r.value.basis == basis
      && r.value.structure == wf.structure && r.value.grid == wf.grid
      && r.value.projectorOwner && r.value.pseudo == pseudo
    ensures var gated := GateLabels(old(basis.labels), wf.structure);
      old(wf.nums).None? && !pseudo && hasProjectorList &&
      Checks(unsymBasis, unsymWf, basis.grid, wf.grid, operate).Ok? ==>
        (gated.Err? ==> r == Err(gated.error)) &&
        (r.Ok? ==> gated.Ok? && wf.nums == Some(gated.value.0) && wf.coords == Some(gated.value.1) &&
                   wf.numProjEls == old(basis.numProjEls) &&
                   r.value.nums == wf.nums && r.value.coords == wf.coords)
    ensures pseudo ==> unchanged(wf, basis)
    ensures r.Ok? && pseudo ==>
      r.value.siteCat.None? && r.value.nums == wf.nums && r.value.coords == wf.coords
    ensures r.Ok? && !pseudo ==>
      && r.value.nums.Some?
      && SiteListsOf(basis.structure, wf.structure, dist, wf.pps).Ok?
      && r.value.siteCat == Some(SiteCat(SiteListsOf(basis.structure, wf.structure, dist, wf.pps).value))
    ensures r.Ok? && !pseudo && !hasProjectorList ==>
      var made := CProjectorsOf(wf.pps, basis.pps, wf.structure, basis.structure);
      made.Ok? && r.value.nums == Some(made.value.nums) && r.value.hasProjectorList
    ensures
      && Checks(unsymBasis, unsymWf, basis.grid, wf.grid, operate).Ok?
      && (old(wf.nums).None? && !pseudo && hasProjectorList ==> GateLabels(old(basis.labels), wf.structure).Ok?)
      ==>
        var made := CProjectorsOf(wf.pps, basis.pps, wf.structure, basis.structure);
        var lists := SiteListsOf(basis.structure, wf.structure, dist, wf.pps);
        && (pseudo ==> r.Ok?)
        && (!pseudo ==> (r.Ok? <==> (hasProjectorList || made.Ok?) && lists.Ok?))
        && (!pseudo && r.Err? ==> r.error == (if !hasProjectorList && made.Err? then made.error else lists.error))
  {
    var checks := Checks(unsymBasis, unsymWf, basis.grid, wf.grid, operate);
    if checks.Err? {
      return Err(checks.error);
    }
    var gated := Gate(wf, basis, wf.nums.None? && !pseudo && hasProjectorList);
    if gated.Err? {
      return Err(gated.error);
    }
    var p := new Projector.Copy(wf, basis, hasProjectorList, pseudo);
    if !pseudo {
      var s := p.SetupProjection(!hasProjectorList, dist);
      if s.Err? {
        return Err(s.error);
      }
    }
    r := Ok(p);
  }
}
