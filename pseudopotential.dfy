/** The reader for one PAW dataset (one POTCAR entry): the text is cut at its
    section markers, the numbers of each section are read, the partial waves
    and projector functions are collected one section at a time, and the
    radial grid of the projectors is laid out. CoreRegion keeps one dataset
    per element. */
module Pseudopotentials {
  import opened Errors
  import opened Text
  import opened Seqs
  import opened Dicts

  const RadialMarker := "PAW radial sets"
  const PseudoWaveMarker := "pseudo wavefunction"
  const AeWaveMarker := "ae wavefunction"
  const GridMarker := "grid"
  const AePotMarker := "aepotential"
  const CoreChargeMarker := "core charge-density"
  const KineticMarker := "kinetic energy-density"
  const PsPotMarker := "pspotential"
  const PsCoreMarker := "core charge-density (pseudized)"
  const OccupanciesMarker := "uccopancies in atom"
  const AugMarker := "augmentation charges (non sperical)"
  const NonLocalMarker := "Non local Part"
  const AtomicChargeMarker := "atomic pseudo charge-density"
  const PartialCoreMarker := "core charge-density (partial)"
  const LocalMarker := "local part"
  const GradXcMarker := "gradient corrections used for XC"
  const RecipMarker := "Reciprocal Space Part"
  const RealMarker := "Real Space Part"
  const StepMarker := "STEP   ="
  const EndMarker := "END"
  /** The text read in place of a section the dataset does not have. */
  const Placeholder := "0 0"
  const BohrPerAngstrom: real := 1.88973
  /** Number of trailing characters of a POTCAR entry dropped before parsing. */
  const TrailerLength := 15

  /** The number readers the parser relies on, which belong to numpy and to
      Python's built-ins: np.fromstring(text, sep=' '), float() and int().
      float() and int() give None where Python raises ValueError. */
  datatype Readers = Readers(
    makeNums: string -> seq<real>,
    toFloat: string -> Option<real>,
    toInt: string -> Option<int>)

  /** The attributes a Pseudopotential object ends up with. `rmax` starts as
      the constructor's argument and is replaced by the radius read from each
      non-local section; `rmaxstr` exists only when there was such a section. */
  datatype Pseudopotential = Pseudopotential(
    grid: seq<real>,
    aepotential: seq<real>,
    aecorecharge: seq<real>,
    kinetic: seq<real>,
    pspotential: seq<real>,
    pscorecharge: seq<real>,
    augs: seq<real>,
    pswaves: seq<seq<real>>,
    aewaves: seq<seq<real>>,
    T: real,
    gradxc: int,
    localnum: real,
    localpart: seq<real>,
    coredensity: seq<real>,
    atomicdensity: seq<real>,
    nonlocalprojs: seq<seq<real>>,
    recipprojs: seq<seq<real>>,
    realprojs: seq<seq<real>>,
    ls: seq<real>,
    rmax: real,
    rmaxstr: Option<string>,
    ndata: int,
    step: (real, real),
    projgrid: seq<real>)

  /** `a, b = s.split(sep, 1)`: the text before and after the first
      occurrence, or ValueError when sep does not occur. */
  function Split2(s: string, sep: string): (r: Result<(string, string)>)
    requires |sep| > 0
    ensures r.Ok? <==> Contains(s, sep)
    ensures r.Err? ==> r.error == ValueError
    ensures r.Ok? ==> s == r.value.0 + sep + r.value.1 && !Contains(r.value.0, sep)
  {
    var parts := SplitOnce(s, sep);
    if |parts| == 2 then
      SplitOnceJoin(s, sep);
      Ok((parts[0], parts[1]))
    else
      Err(ValueError)
  }

  /** `a, b = s.split(sep)`: exactly one occurrence is required, otherwise
      the unpacking raises ValueError. */
  function SplitPair(s: string, sep: string): (r: Result<(string, string)>)
    requires |sep| > 0
    ensures r.Ok? <==> |SplitAll(s, sep)| == 2
    ensures r.Err? ==> r.error == ValueError
    ensures r.Ok? ==> s == r.value.0 + sep + r.value.1
    ensures r.Ok? ==> !Contains(r.value.0, sep) && !Contains(r.value.1, sep)
  {
    var parts := SplitAll(s, sep);
    if |parts| == 2 then
      SplitAllJoin(s, sep);
      SplitAllPieces(s, sep);
      assert Join(parts, sep) == parts[0] + sep + Join(parts[1..], sep);
      Ok((parts[0], parts[1]))
    else
      Err(ValueError)
  }

  /** The fallback of the kinetic-energy split: the pseudopotential is cut
      directly from the core charge text, with the placeholder as the kinetic
      energy density. */
  function WithoutKinetic(c: string): (r: Result<(string, string, string)>)
    ensures r.Ok? <==> Contains(c, PsPotMarker)
    ensures r.Ok? ==> r.value.1 == Placeholder && c == r.value.0 + PsPotMarker + r.value.2
  {
    match Split2(c, PsPotMarker)
    case Ok((c2, p)) => Ok((c2, Placeholder, p))
    case Err(e) => Err(e)
  }

  /** The text after "core charge-density" is cut into (core charge, kinetic
      energy density, pseudopotential). Any failure of the two-step split
      falls back to WithoutKinetic, applied to the core charge text as the
      first step left it. */
  function KineticSplit(c: string): (r: Result<(string, string, string)>)
    ensures r.Err? ==> r.error == ValueError
  {
    match Split2(c, KineticMarker)
    case Ok((c1, k)) =>
      (match Split2(k, PsPotMarker)
       case Ok((k1, p)) => Ok((c1, k1, p))
       case Err(_) => WithoutKinetic(c1))
    case Err(_) => WithoutKinetic(c)
  }

  /** Without a kinetic energy density the placeholder is read in its place
      and the pseudopotential is cut directly from the core charge text. */
  lemma KineticAbsent(c: string)
    requires !Contains(c, KineticMarker)
    ensures KineticSplit(c).Ok? <==> Contains(c, PsPotMarker)
    ensures KineticSplit(c).Ok? ==>
      KineticSplit(c).value.1 == Placeholder &&
      c == KineticSplit(c).value.0 + PsPotMarker + KineticSplit(c).value.2
  {
  }

  /** With both markers in order, the three pieces joined by them give the text back. */
  lemma KineticPresent(c: string)
    requires Contains(c, KineticMarker) && Contains(Split2(c, KineticMarker).value.1, PsPotMarker)
    ensures KineticSplit(c).Ok?
    ensures c == KineticSplit(c).value.0 + KineticMarker + KineticSplit(c).value.1
                 + PsPotMarker + KineticSplit(c).value.2
  {
    var (c1, k) := Split2(c, KineticMarker).value;
    var (k1, p) := Split2(k, PsPotMarker).value;
    assert KineticSplit(c) == Ok((c1, k1, p));
    AppendAssoc5(c1, KineticMarker, k1, PsPotMarker, p);
  }

  /** A kinetic marker with no "pspotential" after it: the fallback cuts the
      text before the kinetic marker, so the pseudopotential must occur there. */
  lemma KineticWithoutPotential(c: string)
    requires Contains(c, KineticMarker) && !Contains(Split2(c, KineticMarker).value.1, PsPotMarker)
    ensures KineticSplit(c).Ok? <==> Contains(Split2(c, KineticMarker).value.0, PsPotMarker)
    ensures KineticSplit(c).Ok? ==>
      KineticSplit(c).value.1 == Placeholder &&
      Split2(c, KineticMarker).value.0 == KineticSplit(c).value.0 + PsPotMarker + KineticSplit(c).value.2
  {
    var (c1, k) := Split2(c, KineticMarker).value;
    assert KineticSplit(c) == WithoutKinetic(c1);
  }

  /** The fallback of the partial-core split: the settings and local part are
      cut from the text, with the placeholder as the partial core density. */
  function WithoutPartialCore(t: string): (r: Result<(string, string, string)>)
    ensures r.Ok? <==> Contains(t, LocalMarker)
    ensures r.Ok? ==> r.value.2 == Placeholder && t == r.value.0 + LocalMarker + r.value.1
  {
    match Split2(t, LocalMarker)
    case Ok((s, l)) => Ok((s, l, Placeholder))
    case Err(e) => Err(e)
  }

  /** The text before "atomic pseudo charge-density" is cut into (settings,
      local part, partial core density). A failure falls back to
      WithoutPartialCore on the text as the first step left it, so a dataset
      whose "local part" follows its partial core density is refused. */
  function PartialCoreSplit(top: string): (r: Result<(string, string, string)>)
    ensures !Contains(top, PartialCoreMarker) ==>
      (r.Ok? <==> Contains(top, LocalMarker)) &&
      (r.Ok? ==> r.value.2 == Placeholder && top == r.value.0 + LocalMarker + r.value.1)
    ensures Contains(top, PartialCoreMarker) ==>
      (r.Ok? <==> Contains(Split2(top, PartialCoreMarker).value.0, LocalMarker)) &&
      (r.Ok? ==> top == r.value.0 + LocalMarker + r.value.1 + PartialCoreMarker + r.value.2)
    ensures r.Err? ==> r.error == ValueError
  {
    match Split2(top, PartialCoreMarker)
    case Ok((t1, core)) =>
      (match Split2(t1, LocalMarker)
       case Ok((s, l)) => Ok((s, l, core))
       case Err(_) => WithoutPartialCore(t1))
    case Err(_) => WithoutPartialCore(top)
  }

  /** The numbers of the local part are localnum followed by the local
      potential; an empty local part raises IndexError. */
  function SplitLocal(nums: seq<real>): (r: Result<(real, seq<real>)>)
    ensures r.Ok? <==> |nums| > 0
    ensures r.Err? ==> r.error == IndexError
    ensures r.Ok? ==> [r.value.0] + r.value.1 == nums
  {
    if |nums| == 0 then Err(IndexError) else Ok((nums[0], nums[1..]))
  }

  /** np.linspace(0, stop, n, endpoint=False): n points starting at 0, evenly
      spaced by stop / n and all below stop; a negative n raises ValueError. */
  function Linspace(stop: real, n: int): (r: Result<seq<real>>)
    ensures r.Ok? <==> n >= 0
    ensures r.Err? ==> r.error == ValueError
    ensures r.Ok? ==> |r.value| == n
    ensures r.Ok? && n > 0 ==> r.value[0] == 0.0
    ensures r.Ok? ==> forall i :: 0 <= i < n - 1 ==> r.value[i + 1] - r.value[i] == stop / n as real
    ensures r.Ok? && stop > 0.0 ==> forall i :: 0 <= i < n ==> 0.0 <= r.value[i] < stop
  {
    if n < 0 then Err(ValueError)
    else if n == 0 then Ok([])
    else
      var s := seq(n, i => i as real * (stop / n as real));
      assert forall i :: 0 <= i < n && stop > 0.0 ==> s[i] < stop by {
        forall i | 0 <= i < n && stop > 0.0 ensures s[i] < stop {
          LinspaceBelow(i, n, stop);
        }
      }
      Ok(s)
  }

  lemma LinspaceBelow(i: int, n: int, stop: real)
    requires 0 <= i < n && stop > 0.0
    ensures i as real * (stop / n as real) < stop
  {
    var d := stop / n as real;
    assert d > 0.0;
    assert n as real * d == stop;
    assert (n - i) as real * d > 0.0;
  }

  /** The pseudo and all-electron partial waves of the pieces after each
      "pseudo wavefunction": Ok exactly when every piece holds
      "ae wavefunction", otherwise IndexError. */
  function PartialWaves(pieces: seq<string>, rd: Readers): Result<(seq<seq<real>>, seq<seq<real>>)>
  {
    if forall t :: 0 <= t < |pieces| ==> Contains(pieces[t], AeWaveMarker) then
      Ok((seq(|pieces|, t requires 0 <= t < |pieces| => rd.makeNums(SplitOnce(pieces[t], AeWaveMarker)[0])),
          seq(|pieces|, t requires 0 <= t < |pieces| => rd.makeNums(SplitOnce(pieces[t], AeWaveMarker)[1]))))
    else
      Err(IndexError)
  }

  /** Each piece gives the numbers before and after its first
      "ae wavefunction" marker; a piece without it raises IndexError. */
  lemma PartialWavesAt(pieces: seq<string>, rd: Readers, t: nat)
    requires t < |pieces|
    ensures PartialWaves(pieces, rd).Err? <==> exists u :: 0 <= u < |pieces| && !Contains(pieces[u], AeWaveMarker)
    ensures PartialWaves(pieces, rd).Err? ==> PartialWaves(pieces, rd).error == IndexError
    ensures PartialWaves(pieces, rd).Ok? ==>
      |PartialWaves(pieces, rd).value.0| == |PartialWaves(pieces, rd).value.1| == |pieces| &&
      pieces[t] == SplitOnce(pieces[t], AeWaveMarker)[0] + AeWaveMarker + SplitOnce(pieces[t], AeWaveMarker)[1] &&
      PartialWaves(pieces, rd).value.0[t] == rd.makeNums(SplitOnce(pieces[t], AeWaveMarker)[0]) &&
      PartialWaves(pieces, rd).value.1[t] == rd.makeNums(SplitOnce(pieces[t], AeWaveMarker)[1])
  {
    if PartialWaves(pieces, rd).Ok? {
      SplitOnceJoin(pieces[t], AeWaveMarker);
    }
  }

  /** Reads the partial waves: each piece after a "pseudo wavefunction"
      marker holds a pseudo partial wave, then "ae wavefunction", then the
      matching all-electron partial wave. A piece without the second marker
      raises IndexError. */
  method ReadPartialWaves(pieces: seq<string>, rd: Readers)
    returns (r: Result<(seq<seq<real>>, seq<seq<real>>)>)
    ensures r == PartialWaves(pieces, rd)
  {
    var ps: seq<seq<real>> := [];
    var ae: seq<seq<real>> := [];
    var t := 0;
    while t < |pieces|
      invariant 0 <= t <= |pieces|
      invariant |ps| == t && |ae| == t
      invariant forall u :: 0 <= u < t ==> |SplitOnce(pieces[u], AeWaveMarker)| == 2
      invariant forall u :: 0 <= u < t ==>
        ps[u] == rd.makeNums(SplitOnce(pieces[u], AeWaveMarker)[0]) &&
        ae[u] == rd.makeNums(SplitOnce(pieces[u], AeWaveMarker)[1])
    {
      var lst := SplitOnce(pieces[t], AeWaveMarker);
      if |lst| < 2 {
        return Err(IndexError);
      }
      ps := ps + [rd.makeNums(lst[0])];
      ae := ae + [rd.makeNums(lst[1])];
      t := t + 1;
    }
    assert forall u :: 0 <= u < |pieces| ==> Contains(pieces[u], AeWaveMarker);
    ghost var spec := PartialWaves(pieces, rd).value;
    assert ps == spec.0 && ae == spec.1 by {
      assert forall u :: 0 <= u < |pieces| ==> ps[u] == spec.0[u] && ae[u] == spec.1[u];
    }
    return Ok((ps, ae));
  }

  /** The text of a "Non local Part" section before its first
      "Reciprocal Space Part", and the blocks after each one. */
  function Head(p: string): string
  {
    SplitAll(p, RecipMarker)[0]
  }

  function Blocks(p: string): seq<string>
  {
    SplitAll(p, RecipMarker)[1..]
  }

  /** What one non-local section gives: the projector radius as text and as a
      number, the angular momentum l, the non-local values, and the
      reciprocal- and real-space projectors of each block. */
  datatype Section = Section(
    rmaxstr: string,
    rmax: real,
    l: real,
    nonlocal: seq<real>,
    recips: seq<seq<real>>,
    reals: seq<seq<real>>)

  /** One block: a reciprocal-space projector, "Real Space Part", and the
      real-space projector. A block without exactly one "Real Space Part"
      raises ValueError. */
  function ParseBlock(b: string, rd: Readers): (r: Result<(seq<real>, seq<real>)>)
    ensures r.Ok? <==> |SplitAll(b, RealMarker)| == 2
    ensures r.Err? ==> r.error == ValueError
  {
    match SplitPair(b, RealMarker)
    case Ok((recip, direct)) => Ok((rd.makeNums(recip), rd.makeNums(direct)))
    case Err(e) => Err(e)
  }

  function BlockReader(rd: Readers): string -> Result<(seq<real>, seq<real>)>
  {
    b => ParseBlock(b, rd)
  }

  /** The projectors of a run of blocks, unzipped into the reciprocal- and
      the real-space ones; the first failing block decides the error. */
  function BlocksOf(bs: seq<string>, rd: Readers): (r: Result<(seq<seq<real>>, seq<seq<real>>)>)
    ensures r.Ok? ==> |r.value.0| == |bs| && |r.value.1| == |bs|
  {
    match MapAll(bs, BlockReader(rd))
    case Ok(pairs) => Ok((Firsts(pairs), Seconds(pairs)))
    case Err(e) => Err(e)
  }

  /** One "Non local Part" section. The third word of its head must read as
      a number (the projector radius) and the head must hold at least two
      numbers (l and the projector count), otherwise IndexError. */
  function ParseSection(p: string, rd: Readers): Result<Section>
  {
    var head := Head(p);
    var words := Words(head);
    if |words| < 3 then Err(IndexError)
    else
      var rm := rd.makeNums(words[2]);
      if |rm| == 0 then Err(IndexError)
      else
        var vals := rd.makeNums(head);
        if |vals| < 2 then Err(IndexError)
        else
          match BlocksOf(Blocks(p), rd)
          case Err(e) => Err(e)
          case Ok((recips, reals)) => Ok(Section(words[2], rm[0], vals[0], vals[2..], recips, reals))
  }

  /** What a parsed section holds: one projector pair per block, l and the
      non-local values after the first two numbers of the head, and the
      radius read from the head's third word. */
  lemma SectionFields(p: string, rd: Readers)
    requires ParseSection(p, rd).Ok?
    ensures var sec := ParseSection(p, rd).value;
      |sec.recips| == |Blocks(p)| && |sec.reals| == |Blocks(p)|
    ensures var sec := ParseSection(p, rd).value;
      var nums := rd.makeNums(Head(p));
      |nums| >= 2 && sec.l == nums[0] && nums[..2] + sec.nonlocal == nums
    ensures var sec := ParseSection(p, rd).value;
      var w := Words(Head(p));
      |w| >= 3 && sec.rmaxstr == w[2] && [sec.rmax] <= rd.makeNums(w[2])
  {
  }

  /** Reads the blocks of a section one at a time, appending each block's
      reciprocal- and real-space projectors. */
  method ReadBlocks(blocks: seq<string>, rd: Readers) returns (r: Result<(seq<seq<real>>, seq<seq<real>>)>)
    ensures r == BlocksOf(blocks, rd)
  {
    var f := BlockReader(rd);
    var recips: seq<seq<real>> := [];
    var reals: seq<seq<real>> := [];
    ghost var pairs: seq<(seq<real>, seq<real>)> := [];
    var q := 0;
    while q < |blocks|
      invariant 0 <= q <= |blocks|
      invariant MapAll(blocks[..q], f) == Ok(pairs)
      invariant recips == Firsts(pairs) && reals == Seconds(pairs)
    {
      PrefixSnoc(blocks, q);
      MapAllSnoc(blocks[..q], blocks[q], f);
      var pair := SplitPair(blocks[q], RealMarker);
      if pair.Err? {
        MapAllFirstError(blocks, q + 1, f);
        return Err(pair.error);
      }
      FirstsSecondsSnoc(pairs, (rd.makeNums(pair.value.0), rd.makeNums(pair.value.1)));
      recips := recips + [rd.makeNums(pair.value.0)];
      reals := reals + [rd.makeNums(pair.value.1)];
      pairs := pairs + [(rd.makeNums(pair.value.0), rd.makeNums(pair.value.1))];
      q := q + 1;
    }
    assert blocks[..q] == blocks;
    return Ok((recips, reals));
  }

  /** Reads one non-local section: its head, then its blocks. */
  method ReadSection(p: string, rd: Readers) returns (r: Result<Section>)
    ensures r == SectionReader(rd)(p)
  {
    var head := Head(p);
    var words := Words(head);
    if |words| < 3 {
      return Err(IndexError);
    }
    var rm := rd.makeNums(words[2]);
    if |rm| == 0 {
      return Err(IndexError);
    }
    var vals := rd.makeNums(head);
    if |vals| < 2 {
      return Err(IndexError);
    }
    var blocks := ReadBlocks(Blocks(p), rd);
    if blocks.Err? {
      return Err(blocks.error);
    }
    return Ok(Section(words[2], rm[0], vals[0], vals[2..], blocks.value.0, blocks.value.1));
  }

  /** Section t of a run that parses is the one ParseSection gives it. */
  function ParseSections(ps: seq<string>, rd: Readers): (r: Result<seq<Section>>)
    ensures r.Ok? ==> |r.value| == |ps|
  {
    MapAll(ps, SectionReader(rd))
  }

  function SectionReader(rd: Readers): string -> Result<Section>
  {
    p => ParseSection(p, rd)
  }

  /** The sections parse exactly when each one does, and section t's entry
      is the one ParseSection gives it. */
  lemma ParseSectionsAt(ps: seq<string>, rd: Readers, t: nat)
    requires t < |ps|
    ensures ParseSections(ps, rd).Ok? <==> forall u :: 0 <= u < |ps| ==> ParseSection(ps[u], rd).Ok?
    ensures ParseSections(ps, rd).Ok? ==> ParseSections(ps, rd).value[t] == ParseSection(ps[t], rd).value
  {
    MapAllOk(ps, SectionReader(rd));
    if ParseSections(ps, rd).Ok? {
      MapAllAt(ps, SectionReader(rd), t);
    }
  }

  /** What the non-local sections contribute to the dataset. */
  datatype Projectors = Projectors(
    nonlocalprojs: seq<seq<real>>,
    recipprojs: seq<seq<real>>,
    realprojs: seq<seq<real>>,
    ls: seq<real>,
    rmaxstr: Option<string>,
    rmax: Option<real>)

  /** The dataset's lists after reading the given sections in order: every
      block is tagged with its section's l, and each section's radius
      replaces the previous one. */
  function Gather(secs: seq<Section>): Projectors
  {
    if secs == [] then Projectors([], [], [], [], None, None)
    else
      var acc := Gather(secs[..|secs| - 1]);
      var sec := secs[|secs| - 1];
      Projectors(acc.nonlocalprojs + [sec.nonlocal], acc.recipprojs + sec.recips,
                 acc.realprojs + sec.reals, acc.ls + Repeat(sec.l, |sec.recips|),
                 Some(sec.rmaxstr), Some(sec.rmax))
  }

  /** One l per projector pair: ls, recipprojs and realprojs have equal
      lengths, and there is one non-local entry per section. */
  lemma {:induction false} GatherLengths(secs: seq<Section>)
    requires forall u :: 0 <= u < |secs| ==> |secs[u].recips| == |secs[u].reals|
    ensures |Gather(secs).nonlocalprojs| == |secs|
    ensures |Gather(secs).ls| == |Gather(secs).recipprojs| == |Gather(secs).realprojs|
  {
    if secs != [] {
      GatherLengths(secs[..|secs| - 1]);
    }
  }

  /** Section u's non-local values sit at position u, and the radius kept is
      the last section's. */
  lemma {:induction false} GatherAt(secs: seq<Section>, u: nat)
    requires u < |secs|
    ensures |Gather(secs).nonlocalprojs| == |secs|
    ensures Gather(secs).nonlocalprojs[u] == secs[u].nonlocal
    ensures Gather(secs).rmax == Some(secs[|secs| - 1].rmax)
  {
    var init := secs[..|secs| - 1];
    if u < |secs| - 1 {
      GatherAt(init, u);
    } else if init != [] {
      GatherAt(init, 0);
    }
  }

  /** Reads the non-local sections in order (one section per iteration). */
  method ReadProjectors(sections: seq<string>, rd: Readers) returns (r: Result<Projectors>)
    ensures r.Ok? <==> ParseSections(sections, rd).Ok?
    ensures r.Ok? ==> ParseSections(sections, rd).Ok? && r.value == Gather(ParseSections(sections, rd).value)
    ensures r.Err? ==> ParseSections(sections, rd) == Err(r.error)
  {
    var f := SectionReader(rd);
    var acc := Projectors([], [], [], [], None, None);
    ghost var secs: seq<Section> := [];
    var t := 0;
    while t < |sections|
      invariant 0 <= t <= |sections|
      invariant MapAll(sections[..t], f) == Ok(secs)
      invariant acc == Gather(secs)
    {
      PrefixSnoc(sections, t);
      MapAllSnoc(sections[..t], sections[t], f);
      var sec := ReadSection(sections[t], rd);
      if sec.Err? {
        MapAllFirstError(sections, t + 1, f);
        return Err(sec.error);
      }
      InitOfSnoc(secs, sec.value);
      acc := Projectors(acc.nonlocalprojs + [sec.value.nonlocal], acc.recipprojs + sec.value.recips,
                        acc.realprojs + sec.value.reals, acc.ls + Repeat(sec.value.l, |sec.value.recips|),
                        Some(sec.value.rmaxstr), Some(sec.value.rmax));
      secs := secs + [sec.value];
      t := t + 1;
    }
    assert sections[..t] == sections;
    return Ok(acc);
  }

  /** An occurrence of m in either piece of a split is an occurrence in the
      text that was split. */
  lemma PiecesOf(a: string, sep: string, b: string, m: string)
    ensures Contains(a, m) ==> Contains(a + sep + b, m)
    ensures Contains(b, m) ==> Contains(a + sep + b, m)
  {
    ContainsConcat(a, sep, m);
    ContainsConcat(a + sep, b, m);
  }

  /** The texts of the radial part before the first "pseudo wavefunction":
      the augmentation and occupancy text before "grid", then the grid, the
      all-electron potential, the core charge, the kinetic energy density,
      the pseudopotential and the pseudized core charge. */
  datatype PotentialTexts = PotentialTexts(
    augucc: string, grid: string, aepotential: string, corecharge: string,
    kinetic: string, pspotential: string, pscorecharge: string)

  /** Cuts the grid text at its markers in order; a missing marker raises ValueError. */
  function CutPotentials(gridstr: string): (r: Result<PotentialTexts>)
    ensures r.Err? ==> r.error == ValueError
  {
    match Split2(gridstr, GridMarker)
    case Err(e) => Err(e)
    case Ok((augucc, g)) =>
      match Split2(g, AePotMarker)
      case Err(e) => Err(e)
      case Ok((grid, a)) =>
        match Split2(a, CoreChargeMarker)
        case Err(e) => Err(e)
        case Ok((aepot, c)) =>
          match KineticSplit(c)
          case Err(e) => Err(e)
          case Ok((core, kinetic, p)) =>
            match Split2(p, PsCoreMarker)
            case Err(e) => Err(e)
            case Ok((pspot, pscore)) => Ok(PotentialTexts(augucc, grid, aepot, core, kinetic, pspot, pscore))
  }

  /** A dataset without a kinetic energy density gets the placeholder text in its place. */
  lemma CutPotentialsWithoutKinetic(gridstr: string)
    requires CutPotentials(gridstr).Ok? && !Contains(gridstr, KineticMarker)
    ensures CutPotentials(gridstr).value.kinetic == Placeholder
  {
    var (augucc, g) := Split2(gridstr, GridMarker).value;
    PiecesOf(augucc, GridMarker, g, KineticMarker);
    var (grid, a) := Split2(g, AePotMarker).value;
    PiecesOf(grid, AePotMarker, a, KineticMarker);
    var (aepot, c) := Split2(a, CoreChargeMarker).value;
    PiecesOf(aepot, CoreChargeMarker, c, KineticMarker);
    KineticAbsent(c);
  }

  /** The augmentation charges: the text between
      "augmentation charges (non sperical)" and "uccopancies in atom". */
  function AugText(augucc: string): (r: Result<string>)
    ensures r.Ok? ==> exists head, rest :: augucc == head + AugMarker + r.value + OccupanciesMarker + rest
    ensures r.Err? ==> r.error == ValueError
  {
    match Split2(augucc, OccupanciesMarker)
    case Err(e) => Err(e)
    case Ok((a, rest)) =>
      match Split2(a, AugMarker)
      case Err(e) => Err(e)
      case Ok((head, aug)) => Ok(aug)
  }

  /** What the part after "PAW radial sets" gives. */
  datatype RadialPart = RadialPart(
    grid: seq<real>,
    aepotential: seq<real>,
    aecorecharge: seq<real>,
    kinetic: seq<real>,
    pspotential: seq<real>,
    pscorecharge: seq<real>,
    augs: seq<real>,
    pswaves: seq<seq<real>>,
    aewaves: seq<seq<real>>)

  /** The radial part: the potentials before the first "pseudo wavefunction",
      the augmentation charges, and one partial-wave pair per later piece. */
  function RadialOf(radial: string, rd: Readers): Result<RadialPart>
  {
    var waves := SplitAll(radial, PseudoWaveMarker);
    match CutPotentials(waves[0])
    case Err(e) => Err(e)
    case Ok(pt) =>
      match AugText(pt.augucc)
      case Err(e) => Err(e)
      case Ok(aug) =>
        match PartialWaves(waves[1..], rd)
        case Err(e) => Err(e)
        case Ok((ps, ae)) =>
          Ok(RadialPart(rd.makeNums(pt.grid), rd.makeNums(pt.aepotential), rd.makeNums(pt.corecharge),
                        rd.makeNums(pt.kinetic), rd.makeNums(pt.pspotential), rd.makeNums(pt.pscorecharge),
                        rd.makeNums(aug), ps, ae))
  }

  /** One pseudo and one all-electron partial wave per "pseudo wavefunction",
      and the placeholder for a missing kinetic energy density. */
  lemma RadialShape(radial: string, rd: Readers)
    requires RadialOf(radial, rd).Ok?
    ensures |RadialOf(radial, rd).value.pswaves| == |SplitAll(radial, PseudoWaveMarker)| - 1
    ensures |RadialOf(radial, rd).value.aewaves| == |SplitAll(radial, PseudoWaveMarker)| - 1
    ensures !Contains(radial, KineticMarker) ==> RadialOf(radial, rd).value.kinetic == rd.makeNums(Placeholder)
  {
    var waves := SplitAll(radial, PseudoWaveMarker);
    if !Contains(radial, KineticMarker) {
      FirstPiecePrefix(radial, PseudoWaveMarker);
      ContainsPrefix(waves[0], radial, KineticMarker);
      CutPotentialsWithoutKinetic(waves[0]);
    }
  }

  /** Reads the radial part in the order the source does. */
  method ParseRadial(radial: string, rd: Readers) returns (r: Result<RadialPart>)
    ensures r == RadialOf(radial, rd)
  {
    var waves := SplitAll(radial, PseudoWaveMarker);
    var pt := CutPotentials(waves[0]);
    if pt.Err? {
      return Err(pt.error);
    }
    var aug := AugText(pt.value.augucc);
    if aug.Err? {
      return Err(aug.error);
    }
    var pw := ReadPartialWaves(waves[1..], rd);
    if pw.Err? {
      return Err(pw.error);
    }
    var p := pt.value;
    return Ok(RadialPart(rd.makeNums(p.grid), rd.makeNums(p.aepotential), rd.makeNums(p.corecharge),
                         rd.makeNums(p.kinetic), rd.makeNums(p.pspotential), rd.makeNums(p.pscorecharge),
                         rd.makeNums(aug.value), pw.value.0, pw.value.1));
  }

  /** What the text before the first "Non local Part" gives: T, read from
      the characters 22 to 4 from its end, and the settings, local part,
      partial core density, atomic density and gradient-correction texts
      of what lies before those 22 characters. */
  datatype TopTexts = TopTexts(
    T: real, setting: string, local: string, partialcore: string, atomic: string, gradxc: int)

  /** float() or int() failing raises ValueError, and so does a missing marker. */
  function CutTop(topstr: string, rd: Readers): (r: Result<TopTexts>)
    ensures r.Err? ==> r.error == ValueError
    ensures r.Ok? ==> rd.toFloat(PySlice(topstr, -22, -4)) == Some(r.value.T)
  {
    match rd.toFloat(PySlice(topstr, -22, -4))
    case None => Err(ValueError)
    case Some(T) =>
      match Split2(PyPrefix(topstr, -22), AtomicChargeMarker)
      case Err(e) => Err(e)
      case Ok((top, atomic)) =>
        match PartialCoreSplit(top)
        case Err(e) => Err(e)
        case Ok((setting, l, core)) =>
          match Split2(l, GradXcMarker)
          case Err(e) => Err(e)
          case Ok((local, grad)) =>
            match rd.toInt(grad)
            case None => Err(ValueError)
            case Some(gradxc) => Ok(TopTexts(T, setting, local, core, atomic, gradxc))
  }

  /** A dataset without a partial core density gets the placeholder text in its place. */
  lemma CutTopWithoutPartialCore(topstr: string, rd: Readers)
    requires CutTop(topstr, rd).Ok? && !Contains(topstr, PartialCoreMarker)
    ensures CutTop(topstr, rd).value.partialcore == Placeholder
  {
    var shortened := PyPrefix(topstr, -22);
    ContainsPrefix(shortened, topstr, PartialCoreMarker);
    var (top, atomic) := Split2(shortened, AtomicChargeMarker).value;
    PiecesOf(top, AtomicChargeMarker, atomic, PartialCoreMarker);
  }

  /** The projector grid settings: the number of points is the last word
      before "STEP   =" (IndexError when there is none, ValueError when it
      is not an integer), and the step is the first two numbers after it,
      up to "END" (IndexError when there are fewer). */
  function GridSettings(setting: string, rd: Readers): (r: Result<(int, (real, real))>)
    ensures r.Ok? ==> |SplitAll(setting, StepMarker)| == 2
    ensures r.Ok? ==> var ns := rd.makeNums(SplitAll(SplitAll(setting, StepMarker)[1], EndMarker)[0]);
                      |ns| >= 2 && r.value.1 == (ns[0], ns[1])
  {
    match SplitPair(setting, StepMarker)
    case Err(e) => Err(e)
    case Ok((s, projgridstr)) =>
      var words := Words(s);
      if |words| == 0 then Err(IndexError)
      else
        match rd.toInt(words[|words| - 1])
        case None => Err(ValueError)
        case Some(ndata) =>
          var ns := rd.makeNums(SplitAll(projgridstr, EndMarker)[0]);
          if |ns| < 2 then Err(IndexError) else Ok((ndata, (ns[0], ns[1])))
  }

  /** What the part before "PAW radial sets" gives. */
  datatype NonradialPart = NonradialPart(
    top: TopTexts,
    localnum: real,
    localpart: seq<real>,
    projectors: Projectors,
    ndata: int,
    step: (real, real))

  /** The part before "PAW radial sets": the top text, the local part, the
      non-local sections and the projector grid settings, in that order. */
  function NonradialOf(nonradial: string, rd: Readers): Result<NonradialPart>
  {
    var sections := SplitAll(nonradial, NonLocalMarker);
    match CutTop(sections[0], rd)
    case Err(e) => Err(e)
    case Ok(top) =>
      match SplitLocal(rd.makeNums(top.local))
      case Err(e) => Err(e)
      case Ok((localnum, localpart)) =>
        match ParseSections(sections[1..], rd)
        case Err(e) => Err(e)
        case Ok(secs) =>
          match GridSettings(top.setting, rd)
          case Err(e) => Err(e)
          case Ok((ndata, step)) => Ok(NonradialPart(top, localnum, localpart, Gather(secs), ndata, step))
  }

  /** The projector lists line up (one l per projector pair), there is one
      non-local entry per section, and a radius is read exactly when there
      is a section, as the first number of its text. */
  lemma ProjectorsShape(ps: seq<string>, rd: Readers)
    requires ParseSections(ps, rd).Ok?
    ensures var pr := Gather(ParseSections(ps, rd).value);
      |pr.ls| == |pr.recipprojs| == |pr.realprojs| &&
      |pr.nonlocalprojs| == |ps| &&
      (pr.rmax.None? <==> ps == []) &&
      (pr.rmaxstr.None? <==> ps == []) &&
      (pr.rmax.Some? ==> [pr.rmax.value] <= rd.makeNums(pr.rmaxstr.value))
  {
    var secs := ParseSections(ps, rd).value;
    forall u | 0 <= u < |secs|
      ensures |secs[u].recips| == |secs[u].reals|
    {
      ParseSectionsAt(ps, rd, u);
      SectionFields(ps[u], rd);
    }
    GatherLengths(secs);
    if secs != [] {
      var last := |secs| - 1;
      GatherAt(secs, last);
      ParseSectionsAt(ps, rd, last);
      SectionFields(ps[last], rd);
    }
  }

  /** Where the fields of the part before "PAW radial sets" come from. */
  lemma NonradialParts(nonradial: string, rd: Readers)
    requires NonradialOf(nonradial, rd).Ok?
    ensures var sections := SplitAll(nonradial, NonLocalMarker);
      CutTop(sections[0], rd).Ok? && ParseSections(sections[1..], rd).Ok? &&
      NonradialOf(nonradial, rd).value.top == CutTop(sections[0], rd).value &&
      NonradialOf(nonradial, rd).value.projectors == Gather(ParseSections(sections[1..], rd).value)
  {
  }

  /** The projector lists as ProjectorsShape states, one non-local entry per
      "Non local Part" section, and the placeholder for a missing partial
      core density. */
  lemma NonradialShape(nonradial: string, rd: Readers)
    requires NonradialOf(nonradial, rd).Ok?
    ensures var pr := NonradialOf(nonradial, rd).value.projectors;
      |pr.ls| == |pr.recipprojs| == |pr.realprojs| &&
      |pr.nonlocalprojs| == |SplitAll(nonradial, NonLocalMarker)| - 1 &&
      (pr.rmax.None? <==> pr.nonlocalprojs == []) &&
      (pr.rmaxstr.None? <==> pr.nonlocalprojs == []) &&
      (pr.rmax.Some? ==> [pr.rmax.value] <= rd.makeNums(pr.rmaxstr.value))
    ensures !Contains(nonradial, PartialCoreMarker) ==>
      NonradialOf(nonradial, rd).value.top.partialcore == Placeholder
  {
    var sections := SplitAll(nonradial, NonLocalMarker);
    NonradialParts(nonradial, rd);
    ProjectorsShape(sections[1..], rd);
    if !Contains(nonradial, PartialCoreMarker) {
      FirstPiecePrefix(nonradial, NonLocalMarker);
      ContainsPrefix(sections[0], nonradial, PartialCoreMarker);
      CutTopWithoutPartialCore(sections[0], rd);
    }
  }

  /** Reads the part before "PAW radial sets" in the order the source does. */
  method ParseNonradial(nonradial: string, rd: Readers) returns (r: Result<NonradialPart>)
    ensures r == NonradialOf(nonradial, rd)
  {
    var sections := SplitAll(nonradial, NonLocalMarker);
    var top := CutTop(sections[0], rd);
    if top.Err? {
      return Err(top.error);
    }
    var local := SplitLocal(rd.makeNums(top.value.local));
    if local.Err? {
      return Err(local.error);
    }
    var projs := ReadProjectors(sections[1..], rd);
    if projs.Err? {
      return Err(projs.error);
    }
    var settings := GridSettings(top.value.setting, rd);
    if settings.Err? {
      return Err(settings.error);
    }
    return Ok(NonradialPart(top.value, local.value.0, local.value.1, projs.value,
                            settings.value.0, settings.value.1));
  }

  /** The dataset object once both parts and the projector grid are read. The
      radius is the last section's, or the constructor's argument when there
      is no section. */
  function Assemble(rp: RadialPart, np: NonradialPart, rmax: real, projgrid: seq<real>, rd: Readers): Pseudopotential
  {
    var pr := np.projectors;
    Pseudopotential(rp.grid, rp.aepotential, rp.aecorecharge, rp.kinetic, rp.pspotential,
                    rp.pscorecharge, rp.augs, rp.pswaves, rp.aewaves, np.top.T, np.top.gradxc,
                    np.localnum, np.localpart, rd.makeNums(np.top.partialcore),
                    rd.makeNums(np.top.atomic), pr.nonlocalprojs, pr.recipprojs, pr.realprojs,
                    pr.ls, if pr.rmax.Some? then pr.rmax.value else rmax, pr.rmaxstr,
                    np.ndata, np.step, projgrid)
  }

  /** Pseudopotential(data, rmax): the text is cut at "PAW radial sets", the
      radial part is read, then the part before it, and the projector grid
      is laid out from the constructor's rmax. */
  function PseudopotentialOf(data: string, rmax: real, rd: Readers): Result<Pseudopotential>
  {
    match Split2(data, RadialMarker)
    case Err(e) => Err(e)
    case Ok((nonradial, radial)) =>
      match RadialOf(radial, rd)
      case Err(e) => Err(e)
      case Ok(rp) =>
        match NonradialOf(nonradial, rd)
        case Err(e) => Err(e)
        case Ok(np) =>
          match Linspace(rmax / BohrPerAngstrom, np.ndata)
          case Err(e) => Err(e)
          case Ok(projgrid) => Ok(Assemble(rp, np, rmax, projgrid, rd))
  }

  /** The constructor, step by step. */
  method Parse(data: string, rmax: real, rd: Readers) returns (r: Result<Pseudopotential>)
    ensures r == PseudopotentialOf(data, rmax, rd)
  {
    var halves := Split2(data, RadialMarker);
    if halves.Err? {
      return Err(halves.error);
    }
    var (nonradial, radial) := halves.value;
    var rp := ParseRadial(radial, rd);
    if rp.Err? {
      return Err(rp.error);
    }
    var np := ParseNonradial(nonradial, rd);
    if np.Err? {
      return Err(np.error);
    }
    var projgrid := Linspace(rmax / BohrPerAngstrom, np.value.ndata);
    if projgrid.Err? {
      return Err(projgrid.error);
    }
    return Ok(Assemble(rp.value, np.value, rmax, projgrid.value, rd));
  }

  /** What a dataset object holds after construction:
      one pseudo and one all-electron partial wave per "pseudo wavefunction";
      one l per projector pair; one non-local entry per section; a radius
      text exactly when there is a section, whose first number is rmax,
      and otherwise the constructor's rmax; a projector grid of ndata
      points below rmax / 1.88973 laid out from the constructor's rmax even
      when a section replaced it; and the placeholder "0 0" read for a
      missing kinetic energy density or partial core density. */
  lemma PseudopotentialShape(data: string, rmax: real, rd: Readers)
    requires PseudopotentialOf(data, rmax, rd).Ok?
    ensures Contains(data, RadialMarker)
    ensures var (nonradial, radial) := Split2(data, RadialMarker).value;
      var pp := PseudopotentialOf(data, rmax, rd).value;
      |pp.pswaves| == |pp.aewaves| == |SplitAll(radial, PseudoWaveMarker)| - 1 &&
      |pp.ls| == |pp.recipprojs| == |pp.realprojs| &&
      |pp.nonlocalprojs| == |SplitAll(nonradial, NonLocalMarker)| - 1 &&
      (pp.rmaxstr.None? <==> pp.nonlocalprojs == []) &&
      (pp.rmaxstr.None? ==> pp.rmax == rmax) &&
      (pp.rmaxstr.Some? ==> [pp.rmax] <= rd.makeNums(pp.rmaxstr.value)) &&
      Linspace(rmax / BohrPerAngstrom, pp.ndata) == Ok(pp.projgrid) &&
      (!Contains(data, KineticMarker) ==> pp.kinetic == rd.makeNums(Placeholder)) &&
      (!Contains(data, PartialCoreMarker) ==> pp.coredensity == rd.makeNums(Placeholder))
  {
    var (nonradial, radial) := Split2(data, RadialMarker).value;
    RadialShape(radial, rd);
    NonradialShape(nonradial, rd);
    PiecesOf(nonradial, RadialMarker, radial, KineticMarker);
    PiecesOf(nonradial, RadialMarker, radial, PartialCoreMarker);
  }

  /** One POTCAR entry: its element symbol, its text and its projector radius. */
  datatype PotcarEntry = PotcarEntry(element: string, data: string, rmax: real)

  /** The dataset of one entry, read from its text without the last 15 characters. */
  function EntryReader(rd: Readers): PotcarEntry -> Result<Pseudopotential>
  {
    (e: PotcarEntry) => PseudopotentialOf(PyPrefix(e.data, -TrailerLength), e.rmax, rd)
  }

  /** Pseudopotential(potsingle.data[:-15], potsingle.rmax). */
  method ParseEntry(e: PotcarEntry, rd: Readers) returns (r: Result<Pseudopotential>)
    ensures r == EntryReader(rd)(e)
  {
    r := Parse(PyPrefix(e.data, -TrailerLength), e.rmax, rd);
  }

  function Elements(potcar: seq<PotcarEntry>): (r: seq<string>)
    ensures |r| == |potcar| && forall t :: 0 <= t < |potcar| ==> r[t] == potcar[t].element
  {
    seq(|potcar|, t requires 0 <= t < |potcar| => potcar[t].element)
  }

  /** CoreRegion(potcar).pps: one dataset per element, in the order the
      elements first appear; the first entry that fails to parse raises. */
  function CoreRegionOf(potcar: seq<PotcarEntry>, rd: Readers): Result<Dict<string, Pseudopotential>>
  {
    RegionOf(potcar, EntryReader(rd))
  }

  /** The same table for any reader of entries. */
  function RegionOf(potcar: seq<PotcarEntry>, f: PotcarEntry -> Result<Pseudopotential>): Result<Dict<string, Pseudopotential>>
  {
    match MapAll(potcar, f)
    case Err(e) => Err(e)
    case Ok(pps) => Ok(FromPairs(Elements(potcar), pps))
  }

  /** The table's keys are the elements without repetitions, in order of
      first appearance, and an element that occurs more than once is read
      from its last entry. */
  lemma CoreRegionContents(potcar: seq<PotcarEntry>, rd: Readers, el: string)
    requires CoreRegionOf(potcar, rd).Ok?
    ensures Valid(CoreRegionOf(potcar, rd).value)
    ensures CoreRegionOf(potcar, rd).value.keys == Dedup(Elements(potcar))
    ensures el in CoreRegionOf(potcar, rd).value.entries <==> el in Elements(potcar)
    ensures el in Elements(potcar) ==>
      Ok(CoreRegionOf(potcar, rd).value.entries[el]) == EntryReader(rd)(potcar[LastIndex(Elements(potcar), el)])
  {
    var pps := MapAll(potcar, EntryReader(rd)).value;
    FromPairsKeys(Elements(potcar), pps);
    if el in Elements(potcar) {
      FromPairsLast(Elements(potcar), pps, el);
      MapAllAt(potcar, EntryReader(rd), LastIndex(Elements(potcar), el));
    }
  }

  /** One entry of the CoreRegion loop: a failure is the failure of the
      whole potcar, a success extends both the parsed list and the dict. */
  lemma CoreRegionStep(potcar: seq<PotcarEntry>, f: PotcarEntry -> Result<Pseudopotential>, t: nat,
                       parsed: seq<Pseudopotential>, pp: Result<Pseudopotential>)
    requires t < |potcar| && |parsed| == t && MapAll(potcar[..t], f) == Ok(parsed)
    requires pp == f(potcar[t])
    ensures pp.Err? ==> RegionOf(potcar, f) == Err(pp.error)
    ensures pp.Ok? ==> MapAll(potcar[..t + 1], f) == Ok(parsed + [pp.value])
    ensures pp.Ok? ==>
      FromPairs(Elements(potcar)[..t + 1], parsed + [pp.value])
        == Insert(FromPairs(Elements(potcar)[..t], parsed), potcar[t].element, pp.value)
  {
    PrefixSnoc(potcar, t);
    MapAllSnoc(potcar[..t], potcar[t], f);
    if pp.Err? {
      MapAllFirstError(potcar, t + 1, f);
      assert MapAll(potcar, f) == Err(pp.error);
    } else {
      PrefixSnoc(Elements(potcar), t);
      FromPairsSnoc(Elements(potcar)[..t], parsed, potcar[t].element, pp.value);
    }
  }

  /** Once every entry is read, the loop's table is the whole CoreRegion. */
  lemma CoreRegionDone(potcar: seq<PotcarEntry>, f: PotcarEntry -> Result<Pseudopotential>, parsed: seq<Pseudopotential>)
    requires MapAll(potcar[..|potcar|], f) == Ok(parsed)
    ensures RegionOf(potcar, f) == Ok(FromPairs(Elements(potcar)[..|potcar|], parsed))
  {
    WholePrefix(potcar);
    WholePrefix(Elements(potcar));
  }

  method CoreRegion(potcar: seq<PotcarEntry>, rd: Readers) returns (r: Result<Dict<string, Pseudopotential>>)
    ensures r == CoreRegionOf(potcar, rd)
  {
    ghost var f := EntryReader(rd);
    ghost var elements := Elements(potcar);
    var pps := Dict([], map[]);
    ghost var parsed: seq<Pseudopotential> := [];
    var t := 0;
    while t < |potcar|
      invariant 0 <= t <= |potcar|
      invariant |parsed| == t && MapAll(potcar[..t], f) == Ok(parsed)
      invariant pps == FromPairs(elements[..t], parsed)
    {
      var pp := ParseEntry(potcar[t], rd);
      CoreRegionStep(potcar, f, t, parsed, pp);
      if pp.Err? {
        return Err(pp.error);
      }
      pps := Insert(pps, potcar[t].element, pp.value);
      parsed := parsed + [pp.value];
      t := t + 1;
    }
    CoreRegionDone(potcar, f, parsed);
    return Ok(pps);
  }
}
