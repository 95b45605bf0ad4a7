/** Desymmetrising k-points (Wavefunction.get_nosym_kpoints), mapping a list of
    k-points back onto the symmetry-reduced ones (Wavefunction.get_kpt_mapping)
    and flattening the chosen symmetry operations for C (make_c_ops).

    Applying a symmetry operation to a k-point is pymatgen's SymmOp.operate,
    which the model takes as the parameter `operate`. */
module Kpoints {
  import opened Errors
  import opened Seqs
  import opened Numbers

  /** A symmetry operation of the structure. */
  datatype SymmOp = SymmOp(rotation: Mat3, translation: Vec3)

  /** np.linalg.norm(a - b) < 1e-10, compared squared. */
  predicate Close(a: Vec3, b: Vec3)
  {
    NormSq(Sub(a, b)) < 0.00000000000000000001
  }

  /** (np.abs(v) < 1).all() */
  predicate InUnitBox(v: Vec3)
  {
    -1.0 < v.x < 1.0 && -1.0 < v.y < 1.0 && -1.0 < v.z < 1.0
  }

  /** The test of the innermost loop of get_nosym_kpoints: p repeats one of
      the points kept so far, and every component of p is below 1 in size. */
  predicate Repeats(p: Vec3, kept: seq<Vec3>)
  {
    exists j :: 0 <= j < |kept| && Close(p, kept[j]) && InUnitBox(p)
  }

  /** The image of k-point number k under symmetry operation number op. */
  datatype Candidate = Candidate(point: Vec3, k: nat, op: nat)

  /** The images of one k-point under every operation, in operation order. */
  function Images(kpt: Vec3, k: nat, ops: seq<SymmOp>, operate: (SymmOp, Vec3) -> Vec3): (r: seq<Candidate>)
    ensures |r| == |ops|
    ensures forall i :: 0 <= i < |ops| ==> r[i] == Candidate(operate(ops[i], kpt), k, i)
  {
    seq(|ops|, i requires 0 <= i < |ops| => Candidate(operate(ops[i], kpt), k, i))
  }

  /** Every (k-point, operation) pair in the order of the nested loops:
      k-points outside, operations inside. */
  function Candidates(kpts: seq<Vec3>, ops: seq<SymmOp>, operate: (SymmOp, Vec3) -> Vec3): (r: seq<Candidate>)
  {
    if kpts == [] then []
    else Candidates(kpts[..|kpts| - 1], ops, operate) + Images(kpts[|kpts| - 1], |kpts| - 1, ops, operate)
  }

  /** One more k-point adds its images. */
  lemma CandidatesStep(kpts: seq<Vec3>, ops: seq<SymmOp>, operate: (SymmOp, Vec3) -> Vec3, k: nat)
    requires k < |kpts|
    ensures Candidates(kpts[..k + 1], ops, operate) == Candidates(kpts[..k], ops, operate) + Images(kpts[k], k, ops, operate)
  {
    assert kpts[..k + 1][..k] == kpts[..k];
  }

  /** The candidates of a prefix of the k-points come first. */
  lemma {:induction false} CandidatesPrefix(kpts: seq<Vec3>, ops: seq<SymmOp>, operate: (SymmOp, Vec3) -> Vec3, k: nat)
    requires k <= |kpts|
    ensures Candidates(kpts[..k], ops, operate) <= Candidates(kpts, ops, operate)
    decreases |kpts| - k
  {
    if k < |kpts| {
      CandidatesPrefix(kpts, ops, operate, k + 1);
      CandidatesStep(kpts, ops, operate, k);
    } else {
      assert kpts[..k] == kpts;
    }
  }

  /** a comes before b in the nested loop order. */
  predicate Before(a: Candidate, b: Candidate)
  {
    a.k < b.k || (a.k == b.k && a.op < b.op)
  }

  predicate InLoopOrder(cs: seq<Candidate>)
  {
    forall p, q :: 0 <= p < q < |cs| ==> Before(cs[p], cs[q])
  }

  /** One candidate per (k-point, operation) pair. */
  lemma {:induction false} CandidatesLength(kpts: seq<Vec3>, ops: seq<SymmOp>, operate: (SymmOp, Vec3) -> Vec3)
    ensures |Candidates(kpts, ops, operate)| == |kpts| * |ops|
  {
    if kpts != [] {
      var m := |kpts| - 1;
      CandidatesLength(kpts[..m], ops, operate);
      assert |kpts| * |ops| == m * |ops| + |ops|;
    }
  }

  /** Each candidate is the image of k-point number k under operation number op. */
  ghost predicate Genuine(cs: seq<Candidate>, kpts: seq<Vec3>, ops: seq<SymmOp>, operate: (SymmOp, Vec3) -> Vec3)
  {
    forall n :: 0 <= n < |cs| ==>
      cs[n].k < |kpts| && cs[n].op < |ops| && cs[n].point == operate(ops[cs[n].op], kpts[cs[n].k])
  }

  lemma {:induction false} CandidatesAt(kpts: seq<Vec3>, ops: seq<SymmOp>, operate: (SymmOp, Vec3) -> Vec3)
    ensures Genuine(Candidates(kpts, ops, operate), kpts, ops, operate)
  {
    if kpts != [] {
      var m := |kpts| - 1;
      var init := kpts[..m];
      var cs0 := Candidates(init, ops, operate);
      var im := Images(kpts[m], m, ops, operate);
      CandidatesAt(init, ops, operate);
      var cs := cs0 + im;
      assert cs == Candidates(kpts, ops, operate);
      forall n | 0 <= n < |cs|
        ensures cs[n].k < |kpts| && cs[n].op < |ops| && cs[n].point == operate(ops[cs[n].op], kpts[cs[n].k])
      {
        if n < |cs0| {
          assert cs[n] == cs0[n];
          assert cs0[n].k < m && cs0[n].point == operate(ops[cs0[n].op], init[cs0[n].k]);
          assert init[cs0[n].k] == kpts[cs0[n].k];
        } else {
          assert cs[n] == im[n - |cs0|];
        }
      }
    }
  }

  /** The candidates come in loop order. */
  lemma {:induction false} CandidatesOrder(kpts: seq<Vec3>, ops: seq<SymmOp>, operate: (SymmOp, Vec3) -> Vec3)
    ensures InLoopOrder(Candidates(kpts, ops, operate))
  {
    if kpts != [] {
      var m := |kpts| - 1;
      var init := kpts[..m];
      var cs0 := Candidates(init, ops, operate);
      var im := Images(kpts[m], m, ops, operate);
      CandidatesOrder(init, ops, operate);
      CandidatesAt(init, ops, operate);
      var cs := cs0 + im;
      assert cs == Candidates(kpts, ops, operate);
      forall p, q | 0 <= p < q < |cs|
        ensures Before(cs[p], cs[q])
      {
        if q < |cs0| {
          assert cs[p] == cs0[p] && cs[q] == cs0[q];
        } else if p >= |cs0| {
          assert cs[p] == im[p - |cs0|] && cs[q] == im[q - |cs0|];
        } else {
          assert cs[p] == cs0[p] && cs[q] == im[q - |cs0|];
          assert cs0[p].k < m;
        }
      }
    }
  }

  /** Every (k-point, operation) pair is a candidate. */
  lemma {:induction false} CandidatesCover(kpts: seq<Vec3>, ops: seq<SymmOp>, operate: (SymmOp, Vec3) -> Vec3)
    ensures forall k, i :: 0 <= k < |kpts| && 0 <= i < |ops| ==>
      Candidate(operate(ops[i], kpts[k]), k, i) in Candidates(kpts, ops, operate)
  {
    if kpts != [] {
      var m := |kpts| - 1;
      var init := kpts[..m];
      var cs0 := Candidates(init, ops, operate);
      var im := Images(kpts[m], m, ops, operate);
      CandidatesCover(init, ops, operate);
      var cs := cs0 + im;
      assert cs == Candidates(kpts, ops, operate);
      forall k, i | 0 <= k < |kpts| && 0 <= i < |ops|
        ensures Candidate(operate(ops[i], kpts[k]), k, i) in cs
      {
        if k < m {
          assert init[k] == kpts[k];
          assert Candidate(operate(ops[i], init[k]), k, i) in cs0;
        } else {
          assert cs[|cs0| + i] == im[i];
        }
      }
    }
  }

  /** The candidates get_nosym_kpoints keeps from cs: each in turn, unless it
      repeats a point already kept. */
  function Keep(cs: seq<Candidate>): seq<Candidate>
  {
    if cs == [] then []
    else
      var kept := Keep(cs[..|cs| - 1]);
      var c := cs[|cs| - 1];
      if Repeats(c.point, Points(kept)) then kept else kept + [c]
  }

  function Points(cs: seq<Candidate>): (r: seq<Vec3>)
    ensures |r| == |cs| && forall j :: 0 <= j < |cs| ==> r[j] == cs[j].point
  {
    seq(|cs|, j requires 0 <= j < |cs| => cs[j].point)
  }

  function Ks(cs: seq<Candidate>): (r: seq<nat>)
    ensures |r| == |cs| && forall j :: 0 <= j < |cs| ==> r[j] == cs[j].k
  {
    seq(|cs|, j requires 0 <= j < |cs| => cs[j].k)
  }

  function Ops(cs: seq<Candidate>): (r: seq<nat>)
    ensures |r| == |cs| && forall j :: 0 <= j < |cs| ==> r[j] == cs[j].op
  {
    seq(|cs|, j requires 0 <= j < |cs| => cs[j].op)
  }

  lemma UnzipSnoc(cs: seq<Candidate>, c: Candidate)
    ensures Points(cs + [c]) == Points(cs) + [c.point]
    ensures Ks(cs + [c]) == Ks(cs) + [c.k]
    ensures Ops(cs + [c]) == Ops(cs) + [c.op]
  {
  }

  lemma KeepSnoc(cs: seq<Candidate>, c: Candidate)
    ensures Keep(cs + [c]) == if Repeats(c.point, Points(Keep(cs))) then Keep(cs) else Keep(cs) + [c]
  {
    InitOfSnoc(cs, c);
  }

  /** What is kept from a prefix stays kept, at the front. */
  lemma {:induction false} KeepPrefix(cs: seq<Candidate>, n: nat)
    requires n <= |cs|
    ensures Keep(cs[..n]) <= Keep(cs)
    decreases |cs| - n
  {
    if n < |cs| {
      KeepPrefix(cs, n + 1);
      PrefixSnoc(cs, n);
      KeepSnoc(cs[..n], cs[n]);
    } else {
      assert cs[..n] == cs;
    }
  }

  /** Everything kept from cs, beyond what was kept from cs[..n], comes from cs[n..]. */
  lemma {:induction false} KeepSplit(cs: seq<Candidate>, n: nat)
    requires n <= |cs|
    ensures forall x :: x in Keep(cs) ==> x in Keep(cs[..n]) || x in cs[n..]
    decreases |cs| - n
  {
    if n < |cs| {
      KeepSplit(cs, n + 1);
      PrefixSnoc(cs, n);
      KeepSnoc(cs[..n], cs[n]);
      forall x | x in Keep(cs)
        ensures x in Keep(cs[..n]) || x in cs[n..]
      {
        if x in cs[n + 1..] {
          var j :| 0 <= j < |cs[n + 1..]| && cs[n + 1..][j] == x;
          assert cs[n..][j + 1] == x;
        } else if x !in Keep(cs[..n]) {
          assert x == cs[n];
          assert cs[n..][0] == x;
        }
      }
    } else {
      assert cs[..n] == cs;
    }
  }

  /** Everything kept is a candidate. */
  lemma {:induction false} KeepSub(cs: seq<Candidate>)
    ensures forall x :: x in Keep(cs) ==> x in cs
  {
    if cs != [] {
      var init := cs[..|cs| - 1];
      KeepSub(init);
      assert cs == init + [cs[|cs| - 1]];
    }
  }

  /** The kept candidates stay in loop order. */
  lemma {:induction false} KeepInOrder(cs: seq<Candidate>)
    requires InLoopOrder(cs)
    ensures InLoopOrder(Keep(cs))
  {
    if cs != [] {
      var init := cs[..|cs| - 1];
      var c := cs[|cs| - 1];
      assert InLoopOrder(init);
      KeepInOrder(init);
      KeepSub(init);
      var kept := Keep(init);
      if !Repeats(c.point, Points(kept)) {
        forall p, q | 0 <= p < q < |kept + [c]|
          ensures Before((kept + [c])[p], (kept + [c])[q])
        {
          if q == |kept| {
            var x := kept[p];
            assert x in init;
            var j :| 0 <= j < |init| && init[j] == x;
            assert cs[j] == x;
          }
        }
      }
    }
  }

  /** No point of kept repeats an earlier one. */
  ghost predicate NoRepeats(kept: seq<Candidate>)
  {
    forall p, q :: 0 <= p < q < |kept| ==> !(Close(kept[q].point, kept[p].point) && InUnitBox(kept[q].point))
  }

  lemma {:induction false} KeepNoRepeats(cs: seq<Candidate>)
    ensures NoRepeats(Keep(cs))
  {
    if cs != [] {
      var init := cs[..|cs| - 1];
      var c := cs[|cs| - 1];
      KeepNoRepeats(init);
      var kept := Keep(init);
      if !Repeats(c.point, Points(kept)) {
        var k2 := kept + [c];
        forall p, q | 0 <= p < q < |k2|
          ensures !(Close(k2[q].point, k2[p].point) && InUnitBox(k2[q].point))
        {
          if q == |kept| {
            assert Points(kept)[p] == kept[p].point;
          } else {
            assert k2[q] == kept[q] && k2[p] == kept[p];
          }
        }
        assert NoRepeats(k2);
      }
    }
  }

  /** In loop order no candidate occurs twice. */
  lemma Unrepeated(cs: seq<Candidate>, n: nat)
    requires InLoopOrder(cs) && n < |cs|
    ensures cs[n] !in cs[..n] && cs[n] !in cs[n + 1..]
  {
    forall j | 0 <= j < n
      ensures cs[..n][j] != cs[n]
    {
      assert Before(cs[j], cs[n]);
    }
    var rest := cs[n + 1..];
    forall j | 0 <= j < |rest|
      ensures rest[j] != cs[n]
    {
      assert rest[j] == cs[n + 1 + j];
      assert Before(cs[n], cs[n + 1 + j]);
    }
  }

  /** A candidate in loop order is dropped exactly when it repeats a point
      kept before it was reached. */
  lemma KeepDropped(cs: seq<Candidate>, n: nat)
    requires InLoopOrder(cs) && n < |cs|
    ensures cs[n] in Keep(cs) <==> !Repeats(cs[n].point, Points(Keep(cs[..n])))
  {
    PrefixSnoc(cs, n);
    KeepSnoc(cs[..n], cs[n]);
    if Repeats(cs[n].point, Points(Keep(cs[..n]))) {
      RepeatedDropped(cs, n);
    } else {
      NotRepeatedKept(cs, n);
    }
  }

  lemma NotRepeatedKept(cs: seq<Candidate>, n: nat)
    requires n < |cs|
    requires Keep(cs[..n + 1]) == Keep(cs[..n]) + [cs[n]]
    ensures cs[n] in Keep(cs)
  {
    KeepPrefix(cs, n + 1);
    var a, b := Keep(cs[..n + 1]), Keep(cs);
    assert a[|a| - 1] == cs[n];
    assert b[|a| - 1] == a[|a| - 1];
  }

  lemma RepeatedDropped(cs: seq<Candidate>, n: nat)
    requires InLoopOrder(cs) && n < |cs|
    requires Keep(cs[..n + 1]) == Keep(cs[..n])
    ensures cs[n] !in Keep(cs)
  {
    KeepSplit(cs, n + 1);
    KeepSub(cs[..n]);
    Unrepeated(cs, n);
  }

  /** The innermost loop of get_nosym_kpoints: is newkpt new? */
  method IsUnique(newkpt: Vec3, allkpts: seq<Vec3>) returns (unique: bool)
    ensures unique <==> !Repeats(newkpt, allkpts)
  {
    unique := true;
    var j := 0;
    while j < |allkpts|
      invariant 0 <= j <= |allkpts|
      invariant unique && forall j' :: 0 <= j' < j ==> !(Close(newkpt, allkpts[j']) && InUnitBox(newkpt))
    {
      if Close(newkpt, allkpts[j]) && InUnitBox(newkpt) {
        unique := false;
        break;
      }
      j := j + 1;
    }
  }

  /** One more candidate of the current k-point: appended with its k-point
      and operation numbers exactly when it repeats no kept point. */
  lemma KeepNext(before: seq<Candidate>, images: seq<Candidate>, i: nat)
    requires i < |images|
    ensures var kept, c := Keep(before + images[..i]), images[i];
      var next := Keep(before + images[..i + 1]);
      && (Repeats(c.point, Points(kept)) ==> next == kept)
      && (!Repeats(c.point, Points(kept)) ==>
            Points(next) == Points(kept) + [c.point] && Ks(next) == Ks(kept) + [c.k] && Ops(next) == Ops(kept) + [c.op])
  {
    var c := images[i];
    PrefixSnoc(images, i);
    assert before + images[..i + 1] == (before + images[..i]) + [c];
    KeepSnoc(before + images[..i], c);
    UnzipSnoc(Keep(before + images[..i]), c);
  }

  /** get_nosym_kpoints: the images of every k-point under every operation,
      each kept unless it repeats a point kept earlier, with the k-point and
      operation it came from; the operations are returned as the fourth value. */
  method GetNosymKpoints(kpts: seq<Vec3>, symmops: seq<SymmOp>, operate: (SymmOp, Vec3) -> Vec3)
      returns (allkpts: seq<Vec3>, origKptnums: seq<nat>, opNums: seq<nat>, ops: seq<SymmOp>)
    ensures var kept := Keep(Candidates(kpts, symmops, operate));
      allkpts == Points(kept) && origKptnums == Ks(kept) && opNums == Ops(kept)
    ensures ops == symmops
  {
    allkpts, origKptnums, opNums := [], [], [];
    for k := 0 to |kpts|
      invariant var kept := Keep(Candidates(kpts[..k], symmops, operate));
        allkpts == Points(kept) && origKptnums == Ks(kept) && opNums == Ops(kept)
    {
      ghost var before := Candidates(kpts[..k], symmops, operate);
      ghost var images := Images(kpts[k], k, symmops, operate);
      assert before + images[..0] == before;
      for i := 0 to |symmops|
        invariant var kept := Keep(before + images[..i]);
          allkpts == Points(kept) && origKptnums == Ks(kept) && opNums == Ops(kept)
      {
        var newkpt := operate(symmops[i], kpts[k]);
        var unique := IsUnique(newkpt, allkpts);
        assert images[i] == Candidate(newkpt, k, i);
        KeepNext(before, images, i);
        if unique {
          allkpts := allkpts + [newkpt];
          origKptnums := origKptnums + [k];
          opNums := opNums + [i];
        }
      }
      assert images[..|symmops|] == images;
      CandidatesStep(kpts, symmops, operate, k);
    }
    assert kpts[..|kpts|] == kpts;
    ops := symmops;
  }

  /** Every (k-point, operation) pair's image is kept, or lies inside the
      unit box within 1e-10 of a kept point. */
  ghost predicate Covers(kept: seq<Candidate>, kpts: seq<Vec3>, ops: seq<SymmOp>, operate: (SymmOp, Vec3) -> Vec3)
  {
    forall k, i :: 0 <= k < |kpts| && 0 <= i < |ops| ==>
      Candidate(operate(ops[i], kpts[k]), k, i) in kept ||
      (InUnitBox(operate(ops[i], kpts[k])) &&
       exists j :: 0 <= j < |kept| && Close(operate(ops[i], kpts[k]), kept[j].point))
  }

  /** What get_nosym_kpoints promises: at most one kept point per pair; each
      kept point is the image of k-point origKptnums[j] under operation
      opNums[j]; the pairs come in loop order, so origKptnums never
      decreases; no kept point repeats an earlier one; and every pair's image
      is kept or repeats a kept point. */
  lemma NosymKpointsMeaning(kpts: seq<Vec3>, symmops: seq<SymmOp>, operate: (SymmOp, Vec3) -> Vec3)
    ensures var kept := Keep(Candidates(kpts, symmops, operate));
      && |kept| <= |kpts| * |symmops|
      && Genuine(kept, kpts, symmops, operate)
      && InLoopOrder(kept)
      && NoRepeats(kept)
      && Covers(kept, kpts, symmops, operate)
  {
    var cs := Candidates(kpts, symmops, operate);
    CandidatesLength(kpts, symmops, operate);
    KeepLength(cs);
    CandidatesOrder(kpts, symmops, operate);
    KeepInOrder(cs);
    KeepNoRepeats(cs);
    KeepGenuine(kpts, symmops, operate);
    KeepCovers(kpts, symmops, operate);
  }

  lemma KeepGenuine(kpts: seq<Vec3>, symmops: seq<SymmOp>, operate: (SymmOp, Vec3) -> Vec3)
    ensures Genuine(Keep(Candidates(kpts, symmops, operate)), kpts, symmops, operate)
  {
    var cs := Candidates(kpts, symmops, operate);
    var kept := Keep(cs);
    CandidatesAt(kpts, symmops, operate);
    KeepSub(cs);
    forall j | 0 <= j < |kept|
      ensures kept[j].k < |kpts| && kept[j].op < |symmops| && kept[j].point == operate(symmops[kept[j].op], kpts[kept[j].k])
    {
      assert kept[j] in cs;
    }
  }

  lemma KeepCovers(kpts: seq<Vec3>, symmops: seq<SymmOp>, operate: (SymmOp, Vec3) -> Vec3)
    ensures Covers(Keep(Candidates(kpts, symmops, operate)), kpts, symmops, operate)
  {
    var cs := Candidates(kpts, symmops, operate);
    var kept := Keep(cs);
    CandidatesOrder(kpts, symmops, operate);
    CandidatesCover(kpts, symmops, operate);
    forall k, i | 0 <= k < |kpts| && 0 <= i < |symmops|
      ensures Candidate(operate(symmops[i], kpts[k]), k, i) in kept ||
        (InUnitBox(operate(symmops[i], kpts[k])) &&
         exists j :: 0 <= j < |kept| && Close(operate(symmops[i], kpts[k]), kept[j].point))
    {
        var c := Candidate(operate(symmops[i], kpts[k]), k, i);
      var n :| 0 <= n < |cs| && cs[n] == c;
      KeptOrRepeated(cs, n);
    }
  }

  /** A candidate is kept, or its image lies in the unit box within 1e-10
      of a point kept before it. */
  lemma KeptOrRepeated(cs: seq<Candidate>, n: nat)
    requires InLoopOrder(cs) && n < |cs|
    ensures cs[n] in Keep(cs) ||
      (InUnitBox(cs[n].point) && exists j :: 0 <= j < |Keep(cs)| && Close(cs[n].point, Keep(cs)[j].point))
  {
    KeepDropped(cs, n);
    if cs[n] !in Keep(cs) {
      KeepPrefix(cs, n);
      var before := Keep(cs[..n]);
      var j :| 0 <= j < |Points(before)| && Close(cs[n].point, Points(before)[j]) && InUnitBox(cs[n].point);
      assert Keep(cs)[j] == before[j];
    }
  }

  lemma {:induction false} KeepLength(cs: seq<Candidate>)
    ensures |Keep(cs)| <= |cs|
  {
    if cs != [] {
      KeepLength(cs[..|cs| - 1]);
    }
  }

  /** The first candidate, in loop order, whose image lies within 1e-10 of p. */
  function FirstMatch(cs: seq<Candidate>, p: Vec3): (r: Option<Candidate>)
  {
    if cs == [] then None
    else if Close(cs[0].point, p) then Some(cs[0])
    else FirstMatch(cs[1..], p)
  }

  /** FirstMatch finds the earliest close candidate, and finds none exactly
      when no candidate is close. */
  lemma {:induction false} FirstMatchMeaning(cs: seq<Candidate>, p: Vec3)
    ensures FirstMatch(cs, p).None? <==> forall n :: 0 <= n < |cs| ==> !Close(cs[n].point, p)
    ensures FirstMatch(cs, p).Some? ==>
      exists n :: 0 <= n < |cs| && cs[n] == FirstMatch(cs, p).value && Close(cs[n].point, p) &&
        forall m :: 0 <= m < n ==> !Close(cs[m].point, p)
  {
    if cs != [] && !Close(cs[0].point, p) {
      FirstMatchMeaning(cs[1..], p);
      if FirstMatch(cs, p).Some? {
        var n :| 0 <= n < |cs[1..]| && cs[1..][n] == FirstMatch(cs, p).value && Close(cs[1..][n].point, p) &&
          forall m :: 0 <= m < n ==> !Close(cs[1..][m].point, p);
        assert cs[n + 1] == cs[1..][n];
        forall m | 0 <= m < n + 1
          ensures !Close(cs[m].point, p)
        {
          if m > 0 {
            assert cs[m] == cs[1..][m - 1];
          }
        }
      } else {
        forall n | 0 <= n < |cs|
          ensures !Close(cs[n].point, p)
        {
          if n > 0 {
            assert cs[n] == cs[1..][n - 1];
          }
        }
      }
    } else if cs != [] {
      assert cs[0] == FirstMatch(cs, p).value;
    }
  }

  lemma {:induction false} FirstMatchAppend(a: seq<Candidate>, b: seq<Candidate>, p: Vec3)
    ensures FirstMatch(a + b, p) == if FirstMatch(a, p).Some? then FirstMatch(a, p) else FirstMatch(b, p)
  {
    if a != [] {
      assert (a + b)[0] == a[0];
      assert (a + b)[1..] == a[1..] + b;
      FirstMatchAppend(a[1..], b, p);
    } else {
      assert a + b == b;
    }
  }

  /** A match in a prefix is the match of the whole. */
  lemma FirstMatchPrefix(a: seq<Candidate>, b: seq<Candidate>, p: Vec3)
    requires a <= b && FirstMatch(a, p).Some?
    ensures FirstMatch(b, p) == FirstMatch(a, p)
  {
    assert b == a + b[|a|..];
    FirstMatchAppend(a, b[|a|..], p);
  }

  /** The two inner loops of get_kpt_mapping: the first k-point and, for it,
      the first operation whose image of that k-point is within 1e-10 of nkpt. */
  method FindMatch(nkpt: Vec3, kpts: seq<Vec3>, symmops: seq<SymmOp>, operate: (SymmOp, Vec3) -> Vec3)
      returns (found: bool, k: nat, i: nat)
    ensures var m := FirstMatch(Candidates(kpts, symmops, operate), nkpt);
      && (found <==> m.Some?)
      && (found ==> k < |kpts| && i < |symmops| && m.value == Candidate(operate(symmops[i], kpts[k]), k, i))
  {
    found, k, i := false, 0, 0;
    while k < |kpts|
      invariant 0 <= k <= |kpts|
      invariant FirstMatch(Candidates(kpts[..k], symmops, operate), nkpt).None?
    {
      ghost var before := Candidates(kpts[..k], symmops, operate);
      ghost var images := Images(kpts[k], k, symmops, operate);
      assert before + images[..0] == before;
      i := 0;
      while i < |symmops|
        invariant 0 <= i <= |symmops|
        invariant FirstMatch(before + images[..i], nkpt).None?
      {
        var newkpt := operate(symmops[i], kpts[k]);
        PrefixSnoc(images, i);
        assert before + images[..i + 1] == (before + images[..i]) + [images[i]];
        FirstMatchAppend(before + images[..i], [images[i]], nkpt);
        if Close(newkpt, nkpt) {
          found := true;
          break;
        }
        i := i + 1;
      }
      CandidatesStep(kpts, symmops, operate, k);
      if found {
        CandidatesPrefix(kpts, symmops, operate, k + 1);
        assert before + images[..i + 1] <= Candidates(kpts[..k + 1], symmops, operate);
        FirstMatchPrefix(before + images[..i + 1], Candidates(kpts, symmops, operate), nkpt);
        return;
      }
      assert images[..|symmops|] == images;
      FirstMatchAppend(before, images, nkpt);
      k := k + 1;
    }
    assert kpts[..k] == kpts;
  }

  /** The lookup of one target k-point; no match raises. */
  function MatchReader(cs: seq<Candidate>): Vec3 -> Result<Candidate>
  {
    p => if FirstMatch(cs, p).Some? then Ok(FirstMatch(cs, p).value) else Err(Raised)
  }

  /** get_kpt_mapping as a function: the first match of every target, or the
      exception raised for the first target that has none. */
  function KptMappingOf(allkpts: seq<Vec3>, kpts: seq<Vec3>, symmops: seq<SymmOp>, operate: (SymmOp, Vec3) -> Vec3): Result<seq<Candidate>>
  {
    MapAll(allkpts, MatchReader(Candidates(kpts, symmops, operate)))
  }

  /** get_kpt_mapping: for each target k-point, the k-point and operation of
      its first match in loop order; the operations are the third value. */
  method GetKptMapping(allkpts: seq<Vec3>, kpts: seq<Vec3>, symmops: seq<SymmOp>, operate: (SymmOp, Vec3) -> Vec3)
      returns (r: Result<(seq<nat>, seq<nat>, seq<SymmOp>)>)
    ensures var m := KptMappingOf(allkpts, kpts, symmops, operate);
      && (r.Ok? <==> m.Ok?)
      && (r.Ok? ==> r.value == (Ks(m.value), Ops(m.value), symmops))
      && (r.Err? ==> r.error == m.error)
  {
    ghost var f := MatchReader(Candidates(kpts, symmops, operate));
    var origKptnums: seq<nat>, opNums: seq<nat> := [], [];
    for t := 0 to |allkpts|
      invariant MapAll(allkpts[..t], f).Ok?
      invariant origKptnums == Ks(MapAll(allkpts[..t], f).value) && opNums == Ops(MapAll(allkpts[..t], f).value)
    {
      var found, k, i := FindMatch(allkpts[t], kpts, symmops, operate);
      PrefixSnoc(allkpts, t);
      MapAllSnoc(allkpts[..t], allkpts[t], f);
      if !found {
        MapAllFirstError(allkpts, t + 1, f);
        return Err(Raised);
      }
      UnzipSnoc(MapAll(allkpts[..t], f).value, Candidate(operate(symmops[i], kpts[k]), k, i));
      origKptnums := origKptnums + [k];
      opNums := opNums + [i];
    }
    assert allkpts[..|allkpts|] == allkpts;
    return Ok((origKptnums, opNums, symmops));
  }

  /** What get_kpt_mapping promises: it succeeds exactly when every target
      has a candidate within 1e-10, and then gives one (k-point, operation)
      pair per target, the first in loop order whose image matches it. */
  lemma KptMappingMeaning(allkpts: seq<Vec3>, kpts: seq<Vec3>, symmops: seq<SymmOp>, operate: (SymmOp, Vec3) -> Vec3)
    ensures var cs, m := Candidates(kpts, symmops, operate), KptMappingOf(allkpts, kpts, symmops, operate);
      && (m.Ok? <==> AllNear(allkpts, cs))
      && (m.Err? ==> m.error == Raised)
      && (m.Ok? ==>
            (|m.value| == |allkpts| &&
             forall t :: 0 <= t < |allkpts| ==>
               (m.value[t].k < |kpts| && m.value[t].op < |symmops| &&
                Close(operate(symmops[m.value[t].op], kpts[m.value[t].k]), allkpts[t]) &&
                exists n :: 0 <= n < |cs| && cs[n] == m.value[t] &&
                  forall n' :: 0 <= n' < n ==> !Close(cs[n'].point, allkpts[t]))))
  {
    var cs := Candidates(kpts, symmops, operate);
    var f := MatchReader(cs);
    MappingOk(allkpts, cs);
    MappingError(allkpts, cs);
    if MapAll(allkpts, f).Ok? {
      CandidatesAt(kpts, symmops, operate);
      forall t | 0 <= t < |allkpts|
        ensures var c := MapAll(allkpts, f).value[t];
          c.k < |kpts| && c.op < |symmops| && Close(operate(symmops[c.op], kpts[c.k]), allkpts[t]) &&
          exists n :: 0 <= n < |cs| && cs[n] == c && forall n' :: 0 <= n' < n ==> !Close(cs[n'].point, allkpts[t])
      {
        MapAllAt(allkpts, f, t);
        FirstMatchMeaning(cs, allkpts[t]);
      }
    }
  }

  /** Every target lies within 1e-10 of one of the candidate images. */
  ghost predicate AllNear(targets: seq<Vec3>, cs: seq<Candidate>)
  {
    forall t :: 0 <= t < |targets| ==> exists n :: 0 <= n < |cs| && Close(cs[n].point, targets[t])
  }

  /** The lookups all succeed exactly when every target has a close
      candidate. */
  lemma MappingOk(allkpts: seq<Vec3>, cs: seq<Candidate>)
    ensures MapAll(allkpts, MatchReader(cs)).Ok? <==> AllNear(allkpts, cs)
  {
    var f := MatchReader(cs);
    MapAllOk(allkpts, f);
    forall t | 0 <= t < |allkpts|
      ensures f(allkpts[t]).Ok? <==> exists n :: 0 <= n < |cs| && Close(cs[n].point, allkpts[t])
    {
      FirstMatchMeaning(cs, allkpts[t]);
    }
  }

  lemma {:induction false} MappingError(allkpts: seq<Vec3>, cs: seq<Candidate>)
    ensures MapAll(allkpts, MatchReader(cs)).Err? ==> MapAll(allkpts, MatchReader(cs)).error == Raised
  {
    if allkpts != [] {
      MappingError(allkpts[..|allkpts| - 1], cs);
    }
  }

  /** Entries per flattened rotation matrix in the array handed to C. */
  const OpSize := 9

  /** make_c_ops: block i of ops is the row-major rotation matrix of
      symmops[op_nums[i]], block i of drs its translation; an operation
      number past the end of symmops raises IndexError. */
  method MakeCOps(opNums: seq<nat>, symmops: seq<SymmOp>) returns (r: Result<(seq<real>, seq<real>)>)
    ensures r.Ok? <==> forall i :: 0 <= i < |opNums| ==> opNums[i] < |symmops|
    ensures r.Err? ==> r.error == IndexError
    ensures r.Ok? ==> |r.value.0| == OpSize * |opNums| && |r.value.1| == 3 * |opNums|
    ensures r.Ok? ==> forall i, c :: 0 <= i < |opNums| && 0 <= c < OpSize ==>
      opNums[i] < |symmops| && r.value.0[OpSize * i + c] == Flatten(symmops[opNums[i]].rotation)[c]
    ensures r.Ok? ==> forall i, c :: 0 <= i < |opNums| && 0 <= c < 3 ==>
      opNums[i] < |symmops| && r.value.1[3 * i + c] == Components(symmops[opNums[i]].translation)[c]
  {
    var n := |opNums|;
    var ops := new real[OpSize * n](_ => 0.0);
    for i := 0 to n
      invariant forall i' :: 0 <= i' < i ==> opNums[i'] < |symmops|
      invariant forall i', c :: 0 <= i' < i && 0 <= c < OpSize ==>
        ops[OpSize * i' + c] == Flatten(symmops[opNums[i']].rotation)[c]
    {
      if opNums[i] >= |symmops| {
        return Err(IndexError);
      }
      var flat := Flatten(symmops[opNums[i]].rotation);
      forall c | 0 <= c < OpSize {
        ops[OpSize * i + c] := flat[c];
      }
    }
    var drs := new real[3 * n](_ => 0.0);
    for i := 0 to n
      invariant forall i', c :: 0 <= i' < i && 0 <= c < 3 ==>
        drs[3 * i' + c] == Components(symmops[opNums[i']].translation)[c]
      invariant forall i', c :: 0 <= i' < n && 0 <= c < OpSize ==>
        ops[OpSize * i' + c] == Flatten(symmops[opNums[i']].rotation)[c]
    {
      var tr := Components(symmops[opNums[i]].translation);
      forall c | 0 <= c < 3 {
        drs[3 * i + c] := tr[c];
      }
    }
    return Ok((ops[..], drs[..]));
  }

  /** C reads block i of make_c_ops's arrays back as the operation's
      rotation matrix and translation. */
  lemma COpsRoundTrip(opNums: seq<nat>, symmops: seq<SymmOp>, ops: seq<real>, drs: seq<real>, i: nat)
    requires i < |opNums| && opNums[i] < |symmops|
    requires |ops| == OpSize * |opNums| && |drs| == 3 * |opNums|
    requires forall c :: 0 <= c < OpSize ==> ops[OpSize * i + c] == Flatten(symmops[opNums[i]].rotation)[c]
    requires forall c :: 0 <= c < 3 ==> drs[3 * i + c] == Components(symmops[opNums[i]].translation)[c]
    ensures Unflatten(ops[OpSize * i .. OpSize * i + OpSize]) == symmops[opNums[i]].rotation
    ensures Vec3(drs[3 * i], drs[3 * i + 1], drs[3 * i + 2]) == symmops[opNums[i]].translation
  {
    var op := symmops[opNums[i]];
    assert ops[OpSize * i .. OpSize * i + OpSize] == Flatten(op.rotation);
    FlattenRoundTrip(op.rotation);
    var tr := Components(op.translation);
    assert drs[3 * i] == tr[0] && drs[3 * i + 1] == tr[1] && drs[3 * i + 2] == tr[2];
  }
}
