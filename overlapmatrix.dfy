/** make_pwave_overlap_matrices: for one element, the three num_projs x
    num_projs matrices of radial overlaps between its partial waves (pseudo,
    all-electron, and their difference), integrated on the element's wave
    grid, filled on and above the diagonal and then mirrored below it; and
    the loop of setup_projections that builds them for every element.

    Doubles are modelled as exact reals. */
module OverlapMatrices {
  import opened Numbers
  import opened Seqs
  import opened Packing
  import opened Errors

  /** Which matrix: pspw_overlap_matrix, aepw_overlap_matrix or
      diff_overlap_matrix. */
  datatype Wave = PsWave | AeWave | DiffWave

  /** What the integrals read: the first num_projs channels, each with at
      least wave_gridsize values of both partial waves, and wave_gridsize
      grid points. */
  predicate WavesReadable(e: ElementRecord)
  {
    0 <= e.numProjs <= |e.funcs| && 0 <= e.waveGridsize <= |e.waveGrid| &&
    forall j :: 0 <= j < e.numProjs ==>
      e.waveGridsize <= |e.funcs[j].aewave| && e.waveGridsize <= |e.funcs[j].pswave|
  }

  /** The wave of channel c that matrix w integrates, at grid point k; the
      difference is ae - ps, taken point by point. */
  function WaveAt(w: Wave, c: Channel, k: int): real
    requires 0 <= k < |c.aewave| && k < |c.pswave|
  {
    match w
    case PsWave => c.pswave[k]
    case AeWave => c.aewave[k]
    case DiffWave => c.aewave[k] - c.pswave[k]
  }

  /** The integrand of entry (c1, c2) at the first n grid points. */
  function Integrand(w: Wave, c1: Channel, c2: Channel, n: nat): (r: seq<real>)
    requires n <= |c1.aewave| && n <= |c1.pswave| && n <= |c2.aewave| && n <= |c2.pswave|
    ensures |r| == n
  {
    seq(n, k requires 0 <= k < n => WaveAt(w, c1, k) * WaveAt(w, c2, k))
  }

  /** v times half the step from a to b: one term of the C loops. */
  function HalfStep(v: real, a: real, b: real): real
  {
    v * (b - a) / 2.0
  }

  /** The trapezoid rule for h on the first n points of grid. */
  function Trapezoid(h: seq<real>, grid: seq<real>, n: int): real
    requires n <= |h| && n <= |grid|
  {
    if n <= 1 then 0.0
    else Trapezoid(h, grid, n - 1) + HalfStep(h[n - 2] + h[n - 1], grid[n - 2], grid[n - 1])
  }

  /** The first k loop after k steps: each h[t] times half the step to its
      right. */
  function LeftHalves(h: seq<real>, grid: seq<real>, k: int): real
    requires 0 <= k <= |h| && (k == 0 || k < |grid|)
  {
    if k == 0 then 0.0 else LeftHalves(h, grid, k - 1) + HalfStep(h[k - 1], grid[k - 1], grid[k])
  }

  /** The second k loop up to k: each h[t], 1 <= t < k, times half the step
      to its left. */
  function RightHalves(h: seq<real>, grid: seq<real>, k: int): real
    requires 1 <= k <= |h| && k <= |grid|
  {
    if k == 1 then 0.0 else RightHalves(h, grid, k - 1) + HalfStep(h[k - 1], grid[k - 2], grid[k - 1])
  }

  lemma HalfStepSplit(u: real, v: real, a: real, b: real)
    ensures HalfStep(u + v, a, b) == HalfStep(u, a, b) + HalfStep(v, a, b)
  {
  }

  /** The two passes add up to the trapezoid rule: every interval gets half
      its width times each of its two end values. */
  lemma {:induction false} HalvesMakeTrapezoid(h: seq<real>, grid: seq<real>, n: int)
    requires 1 <= n <= |h| && n <= |grid|
    ensures LeftHalves(h, grid, n - 1) + RightHalves(h, grid, n) == Trapezoid(h, grid, n)
  {
    if n > 1 {
      var a, b := grid[n - 2], grid[n - 1];
      assert LeftHalves(h, grid, n - 1) == LeftHalves(h, grid, n - 2) + HalfStep(h[n - 2], a, b);
      assert RightHalves(h, grid, n) == RightHalves(h, grid, n - 1) + HalfStep(h[n - 1], a, b);
      assert Trapezoid(h, grid, n) == Trapezoid(h, grid, n - 1) + HalfStep(h[n - 2] + h[n - 1], a, b);
      HalvesMakeTrapezoid(h, grid, n - 1);
      HalfStepSplit(h[n - 2], h[n - 1], a, b);
    }
  }

  /** The two k loops of one entry: left halves over k < n - 1, then right
      halves over 1 <= k < n, accumulated from 0. */
  method TwoPassIntegral(h: seq<real>, grid: seq<real>, n: int) returns (s: real)
    requires n <= |h| && n <= |grid|
    ensures s == Trapezoid(h, grid, n)
  {
    s := 0.0;
    var k := 0;
    while k < n - 1
      invariant 0 <= k && (k <= n - 1 || k == 0)
      invariant s == LeftHalves(h, grid, k)
    {
      s := s + h[k] * (grid[k + 1] - grid[k]) / 2.0;
      k := k + 1;
    }
    k := 1;
    while k < n
      invariant 1 <= k && (k <= n || k == 1)
      invariant n >= 1 ==> s == LeftHalves(h, grid, n - 1) + RightHalves(h, grid, k)
      invariant n < 1 ==> s == 0.0
    {
      s := s + h[k] * (grid[k] - grid[k - 1]) / 2.0;
      k := k + 1;
    }
    if n >= 1 {
      HalvesMakeTrapezoid(h, grid, n);
    }
  }

  /** Entry (i, j) of matrix w: zero when the two channels' l differ,
      otherwise the trapezoid integral of the product of their waves. */
  function Entry(w: Wave, e: ElementRecord, i: int, j: int): real
    requires WavesReadable(e) && 0 <= i < e.numProjs && 0 <= j < e.numProjs
  {
    if e.funcs[i].l != e.funcs[j].l then 0.0
    else Trapezoid(Integrand(w, e.funcs[i], e.funcs[j], e.waveGridsize), e.waveGrid, e.waveGridsize)
  }

  /** Entry (i, j) of the matrix, at flat index num_projs * i + j. */
  function Matrix(w: Wave, e: ElementRecord): (r: seq<real>)
    requires WavesReadable(e)
    ensures |r| == e.numProjs * e.numProjs
  {
    var np := e.numProjs;
    seq(np * np, q requires 0 <= q < np * np => FlatDecode(q, np, np); Entry(w, e, q / np, q % np))
  }

  /** The matrix after the first double loop: entries on and above the
      diagonal computed, those below still calloc's zero. */
  function UpperMatrix(w: Wave, e: ElementRecord): (r: seq<real>)
    requires WavesReadable(e)
    ensures |r| == e.numProjs * e.numProjs
  {
    var np := e.numProjs;
    seq(np * np, q requires 0 <= q < np * np =>
      FlatDecode(q, np, np); if q % np >= q / np then Entry(w, e, q / np, q % np) else 0.0)
  }

  /** Flat index np * i + j of an np x np matrix decodes to (i, j). */
  lemma FlatAt(np: int, i: int, j: int)
    requires 0 <= i < np && 0 <= j < np
    ensures 0 <= np * i + j < np * np && (np * i + j) / np == i && (np * i + j) % np == j
  {
    assert np * i + j < np * np by {
      MulMonotone(i + 1, np, np);
      assert (i + 1) * np == np * i + np;
    }
    assert np * i == i * np;
    DivModUnique(i, j, np);
  }

  /** Row i's entries left of the diagonal are zero after the first loop. */
  lemma UpperRowStart(w: Wave, e: ElementRecord, i: int)
    requires WavesReadable(e) && 0 <= i < e.numProjs
    ensures e.numProjs * i + i <= e.numProjs * e.numProjs
    ensures forall q :: e.numProjs * i <= q < e.numProjs * i + i ==> UpperMatrix(w, e)[q] == 0.0
  {
    var np := e.numProjs;
    FlatAt(np, i, i);
    forall q | np * i <= q < np * i + i
      ensures UpperMatrix(w, e)[q] == 0.0
    {
      FlatAt(np, i, q - np * i);
    }
  }

  lemma UpperAt(w: Wave, e: ElementRecord, i: int, j: int)
    requires WavesReadable(e) && 0 <= i < e.numProjs && 0 <= j < e.numProjs
    ensures 0 <= e.numProjs * i + j < e.numProjs * e.numProjs
    ensures UpperMatrix(w, e)[e.numProjs * i + j] == if j >= i then Entry(w, e, i, j) else 0.0
    ensures Matrix(w, e)[e.numProjs * i + j] == Entry(w, e, i, j)
  {
    FlatAt(e.numProjs, i, j);
  }

  /** The product of two waves does not depend on their order. */
  lemma IntegrandSwap(w: Wave, c1: Channel, c2: Channel, n: nat)
    requires n <= |c1.aewave| && n <= |c1.pswave| && n <= |c2.aewave| && n <= |c2.pswave|
    ensures Integrand(w, c1, c2, n) == Integrand(w, c2, c1, n)
  {
    assert forall k :: 0 <= k < n ==> Integrand(w, c1, c2, n)[k] == Integrand(w, c2, c1, n)[k];
  }

  lemma EntrySymmetric(w: Wave, e: ElementRecord, i: int, j: int)
    requires WavesReadable(e) && 0 <= i < e.numProjs && 0 <= j < e.numProjs
    ensures Entry(w, e, i, j) == Entry(w, e, j, i)
  {
    IntegrandSwap(w, e.funcs[i], e.funcs[j], e.waveGridsize);
  }

  /** The matrices are symmetric. */
  lemma MatrixSymmetric(w: Wave, e: ElementRecord, i: int, j: int)
    requires WavesReadable(e) && 0 <= i < e.numProjs && 0 <= j < e.numProjs
    ensures 0 <= e.numProjs * i + j < e.numProjs * e.numProjs
    ensures 0 <= e.numProjs * j + i < e.numProjs * e.numProjs
    ensures Matrix(w, e)[e.numProjs * i + j] == Matrix(w, e)[e.numProjs * j + i]
  {
    UpperAt(w, e, i, j);
    UpperAt(w, e, j, i);
    EntrySymmetric(w, e, i, j);
  }

  /** Entries coupling channels of different l are zero; the others are the
      trapezoid integral of the product of the two channels' waves, in
      either order. */
  lemma MatrixEntries(w: Wave, e: ElementRecord, i: int, j: int)
    requires WavesReadable(e) && 0 <= i < e.numProjs && 0 <= j < e.numProjs
    ensures 0 <= e.numProjs * i + j < e.numProjs * e.numProjs
    ensures e.funcs[i].l != e.funcs[j].l ==> Matrix(w, e)[e.numProjs * i + j] == 0.0
    ensures e.funcs[i].l == e.funcs[j].l ==>
      Matrix(w, e)[e.numProjs * i + j] ==
        Trapezoid(Integrand(w, e.funcs[i], e.funcs[j], e.waveGridsize), e.waveGrid, e.waveGridsize) &&
      Matrix(w, e)[e.numProjs * i + j] ==
        Trapezoid(Integrand(w, e.funcs[j], e.funcs[i], e.waveGridsize), e.waveGrid, e.waveGridsize)
  {
    UpperAt(w, e, i, j);
    IntegrandSwap(w, e.funcs[i], e.funcs[j], e.waveGridsize);
  }

  /** The first n entries of a hold their final value and the others
      still hold their value in rest. */
  ghost predicate DoneUpTo(a: seq<real>, final: seq<real>, rest: seq<real>, n: int)
  {
    |a| == |final| == |rest| && 0 <= n <= |a| &&
    forall q :: 0 <= q < |a| ==> a[q] == if q < n then final[q] else rest[q]
  }

  /** Writing entry n its final value moves the cursor on. */
  lemma DoneWrite(a: seq<real>, final: seq<real>, rest: seq<real>, n: int)
    requires DoneUpTo(a, final, rest, n) && n < |a|
    ensures DoneUpTo(a[n := final[n]], final, rest, n + 1)
  {
  }

  /** Entries whose final value is the one they hold can be passed over. */
  lemma DoneSkip(a: seq<real>, final: seq<real>, rest: seq<real>, n: int, m: int)
    requires DoneUpTo(a, final, rest, n) && n <= m <= |a|
    requires forall q :: n <= q < m ==> final[q] == rest[q]
    ensures DoneUpTo(a, final, rest, m)
  {
  }

  /** Entry (i, j), j >= i, of the first loop's result. */
  lemma UpperEntryAt(w: Wave, e: ElementRecord, i: int, j: int)
    requires WavesReadable(e) && 0 <= i <= j < e.numProjs
    ensures 0 <= e.numProjs * i + j < e.numProjs * e.numProjs
    ensures UpperMatrix(w, e)[e.numProjs * i + j] == Entry(w, e, i, j)
    ensures e.funcs[i].l != e.funcs[j].l ==> UpperMatrix(w, e)[e.numProjs * i + j] == 0.0
  {
    UpperAt(w, e, i, j);
  }

  /** The two k loops of entry (i, j) of matrix w. */
  method PairIntegral(w: Wave, e: ElementRecord, i: int, j: int) returns (s: real)
    requires WavesReadable(e) && 0 <= i < e.numProjs && 0 <= j < e.numProjs
    requires e.funcs[i].l == e.funcs[j].l
    ensures s == Entry(w, e, i, j)
  {
    s := TwoPassIntegral(Integrand(w, e.funcs[i], e.funcs[j], e.waveGridsize), e.waveGrid, e.waveGridsize);
  }

  /** One iteration of the j loop: entry (i, j), j >= i, is integrated
      only where the two l values agree; elsewhere it keeps its zero. */
  method FillUpperEntry(arr: array<real>, ghost want: seq<real>, w: Wave, e: ElementRecord, i: int, j: int)
    requires WavesReadable(e) && 0 <= i <= j < e.numProjs && want == UpperMatrix(w, e)
    requires DoneUpTo(arr[..], want, Repeat(0.0, |want|), e.numProjs * i + j)
    modifies arr
    ensures DoneUpTo(arr[..], want, Repeat(0.0, |want|), e.numProjs * i + j + 1)
  {
    var q := e.numProjs * i + j;
    UpperEntryAt(w, e, i, j);
    if e.funcs[i].l == e.funcs[j].l {
      var s := PairIntegral(w, e, i, j);
      DoneWrite(arr[..], want, Repeat(0.0, |want|), q);
      arr[q] := s;
    } else {
      DoneSkip(arr[..], want, Repeat(0.0, |want|), q, q + 1);
    }
  }

  /** The j loop of row i of the first double loop: entries (i, j) for
      j >= i, in order. Entries (i, j) with j < i keep their zero. */
  method FillUpperRow(arr: array<real>, ghost want: seq<real>, w: Wave, e: ElementRecord, i: int)
    requires WavesReadable(e) && 0 <= i < e.numProjs && want == UpperMatrix(w, e)
    requires DoneUpTo(arr[..], want, Repeat(0.0, |want|), e.numProjs * i)
    modifies arr
    ensures DoneUpTo(arr[..], want, Repeat(0.0, |want|), e.numProjs * (i + 1))
  {
    var np := e.numProjs;
    UpperRowStart(w, e, i);
    DoneSkip(arr[..], want, Repeat(0.0, |want|), np * i, np * i + i);
    for j := i to np
      invariant DoneUpTo(arr[..], want, Repeat(0.0, |want|), np * i + j)
    {
      FillUpperEntry(arr, want, w, e, i, j);
    }
    assert np * i + np == np * (i + 1);
  }

  /** The first double loop: rows in order, entries on and above the
      diagonal. */
  method FillUpper(w: Wave, e: ElementRecord) returns (arr: array<real>)
    requires WavesReadable(e)
    ensures fresh(arr) && arr[..] == UpperMatrix(w, e)
  {
    var np := e.numProjs;
    arr := new real[np * np](_ => 0.0);
    ghost var want := UpperMatrix(w, e);
    ghost var zeros := Repeat(0.0, |want|);
    assert arr[..] == zeros;
    for i := 0 to np
      invariant DoneUpTo(arr[..], want, zeros, np * i)
    {
      FillUpperRow(arr, want, w, e, i);
    }
    assert arr[..] == want;
  }

  /** Row i's entries from the diagonal on are already final after the first
      loop. */
  lemma UpperRowEnd(w: Wave, e: ElementRecord, i: int)
    requires WavesReadable(e) && 0 <= i < e.numProjs
    ensures e.numProjs * i + i <= e.numProjs * (i + 1) <= e.numProjs * e.numProjs
    ensures forall q :: e.numProjs * i + i <= q < e.numProjs * (i + 1) ==>
      UpperMatrix(w, e)[q] == Matrix(w, e)[q]
  {
    var np := e.numProjs;
    FlatAt(np, i, np - 1);
    forall q | np * i + i <= q < np * (i + 1)
      ensures UpperMatrix(w, e)[q] == Matrix(w, e)[q]
    {
      UpperAt(w, e, i, q - np * i);
    }
  }

  /** Entry (i, j), j < i, is copied from (j, i), which is final and equal to
      its mirror image in both the first loop's result and the matrix. */
  lemma MirrorSource(w: Wave, e: ElementRecord, i: int, j: int)
    requires WavesReadable(e) && 0 <= j < i < e.numProjs
    ensures 0 <= e.numProjs * j + i < e.numProjs * i + j < e.numProjs * e.numProjs
    ensures UpperMatrix(w, e)[e.numProjs * j + i] == Matrix(w, e)[e.numProjs * i + j]
    ensures Matrix(w, e)[e.numProjs * j + i] == Matrix(w, e)[e.numProjs * i + j]
  {
    MirrorBefore(e.numProjs, i, j);
    UpperAt(w, e, j, i);
    UpperAt(w, e, i, j);
    EntrySymmetric(w, e, i, j);
  }

  /** Below the diagonal, (i, j) comes after its mirror image (j, i). */
  lemma MirrorBefore(np: int, i: int, j: int)
    requires 0 <= j < i < np
    ensures np * j + i < np * i + j
  {
    assert np * i == np * j + np * (i - j);
    MulMonotone(2, np, i - j);
  }

  /** The j loop of row i of the second double loop: entry (i, j) takes the
      value of entry (j, i), for j < i. */
  method MirrorRow(arr: array<real>, ghost upper: seq<real>, ghost full: seq<real>,
                   w: Wave, e: ElementRecord, i: int)
    requires WavesReadable(e) && 0 < i < e.numProjs && upper == UpperMatrix(w, e) && full == Matrix(w, e)
    requires DoneUpTo(arr[..], full, upper, e.numProjs * i)
    modifies arr
    ensures DoneUpTo(arr[..], full, upper, e.numProjs * (i + 1))
  {
    var np := e.numProjs;
    for j := 0 to i
      invariant DoneUpTo(arr[..], full, upper, np * i + j)
    {
      assert arr[np * j + i] == full[np * i + j] by {
        MirrorSource(w, e, i, j);
      }
      DoneWrite(arr[..], full, upper, np * i + j);
      arr[np * i + j] := arr[np * j + i];
    }
    UpperRowEnd(w, e, i);
    DoneSkip(arr[..], full, upper, np * i + i, np * (i + 1));
  }

  /** The second double loop, rows 1 onwards: every entry below the diagonal
      is copied from its mirror image above it. */
  method Mirror(arr: array<real>, w: Wave, e: ElementRecord)
    requires WavesReadable(e) && arr[..] == UpperMatrix(w, e)
    modifies arr
    ensures arr[..] == Matrix(w, e)
  {
    var np := e.numProjs;
    ghost var upper := UpperMatrix(w, e);
    ghost var full := Matrix(w, e);
    if np == 0 {
      assert arr[..] == full;
      return;
    }
    UpperRowEnd(w, e, 0);
    DoneSkip(arr[..], full, upper, 0, np);
    var i := 1;
    while i < np
      invariant 1 <= i <= np
      invariant DoneUpTo(arr[..], full, upper, np * i)
    {
      MirrorRow(arr, upper, full, w, e, i);
      i := i + 1;
    }
    assert arr[..] == full;
  }

  /** One matrix as make_pwave_overlap_matrices leaves it. */
  method OverlapMatrix(w: Wave, e: ElementRecord) returns (arr: array<real>)
    requires WavesReadable(e)
    ensures fresh(arr) && arr[..] == Matrix(w, e)
  {
    arr := FillUpper(w, e);
    Mirror(arr, w, e);
  }

  /** The element with its three overlap matrices set. */
  function WithMatrices(e: ElementRecord): (r: ElementRecord)
    requires WavesReadable(e)
    ensures r.pspwOverlap.Some? && r.aepwOverlap.Some? && r.diffOverlap.Some?
  {
    e.(pspwOverlap := Some(Matrix(PsWave, e)), aepwOverlap := Some(Matrix(AeWave, e)),
       diffOverlap := Some(Matrix(DiffWave, e)))
  }

  /** make_pwave_overlap_matrices: sets the element's three matrices and
      changes nothing else. */
  method MakePwaveOverlapMatrices(e: ElementRecord) returns (r: ElementRecord)
    requires WavesReadable(e)
    ensures r == WithMatrices(e)
  {
    var ps := OverlapMatrix(PsWave, e);
    var ae := OverlapMatrix(AeWave, e);
    var di := OverlapMatrix(DiffWave, e);
    r := e.(pspwOverlap := Some(ps[..]), aepwOverlap := Some(ae[..]), diffOverlap := Some(di[..]));
  }

  /** The element loop of setup_projections (its overlap-matrix half):
      every element gets its matrices. */
  method SetupOverlapMatrices(pps: seq<ElementRecord>) returns (r: seq<ElementRecord>)
    requires forall p :: 0 <= p < |pps| ==> WavesReadable(pps[p])
    ensures |r| == |pps| && forall p :: 0 <= p < |pps| ==> r[p] == WithMatrices(pps[p])
  {
    r := [];
    for p := 0 to |pps|
      invariant |r| == p && forall p' :: 0 <= p' < p ==> r[p'] == WithMatrices(pps[p'])
    {
      var e := MakePwaveOverlapMatrices(pps[p]);
      r := r + [e];
    }
  }
}
