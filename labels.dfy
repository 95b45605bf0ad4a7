/** Numbering of the elements whose projectors are handed to C.

    Every routine that builds projector lists walks one or more CoreRegion
    dicts (element symbol -> pseudopotential) and gives each element the next
    free integer the first time it is met: `pps` maps that integer to the
    pseudopotential, `labels` maps the symbol to the integer, and `nextLabel` is
    the next free integer. Sites are then described to C by the label of
    their element and by their fractional coordinates, flattened. */
module Labels {
  import opened Errors
  import opened Seqs
  import opened Dicts
  import opened Numbers

  /** The three variables the labelling loops update. */
  datatype LabelTable<V> = LabelTable(pps: Dict<int, V>, labels: Dict<string, int>, nextLabel: int)

  /** `if not e in labels: pps[label] = pp; labels[e] = label; label += 1` */
  function Step<V>(t: LabelTable<V>, e: string, pp: V): (r: LabelTable<V>)
    requires Valid(t.pps) && Valid(t.labels)
    ensures Valid(r.pps) && Valid(r.labels)
    ensures e in r.labels.entries
  {
    if e in t.labels.entries then t
    else LabelTable(Insert(t.pps, t.nextLabel, pp), Insert(t.labels, e, t.nextLabel), t.nextLabel + 1)
  }

  /** The tables left by labelling the (element, pseudopotential) pairs in
      order, starting from empty dicts and label 0. */
  function Table<V>(items: seq<(string, V)>): (r: LabelTable<V>)
    ensures Valid(r.pps) && Valid(r.labels)
  {
    if items == [] then LabelTable(Dict([], map[]), Dict([], map[]), 0)
    else Step(Table(items[..|items| - 1]), items[|items| - 1].0, items[|items| - 1].1)
  }

  lemma {:induction false} TableSnoc<V>(items: seq<(string, V)>, e: string, pp: V)
    ensures Table(items + [(e, pp)]) == Step(Table(items), e, pp)
  {
    InitOfSnoc(items, (e, pp));
  }

  /** The labelling is dense and first-seen: the labelled elements are the
      distinct elements in order of first appearance, element number u gets
      label u, the labels used are exactly 0 .. nextLabel-1, and label u holds
      the pseudopotential paired with that element's first appearance. */
  ghost predicate FirstSeen<V>(t: LabelTable<V>, items: seq<(string, V)>)
  {
    KeysFirstSeen(t, items) && DenseLabels(t) && PpsFirstSeen(t, items)
  }

  ghost predicate KeysFirstSeen<V>(t: LabelTable<V>, items: seq<(string, V)>)
  {
    && Valid(t.pps) && Valid(t.labels)
    && t.labels.keys == Dedup(Firsts(items))
    && t.nextLabel == |t.labels.keys|
    && t.pps.keys == Range(0, t.nextLabel)
  }

  ghost predicate DenseLabels<V>(t: LabelTable<V>)
  {
    forall u :: 0 <= u < t.nextLabel && u < |t.labels.keys| ==>
      t.labels.keys[u] in t.labels.entries && t.labels.entries[t.labels.keys[u]] == u
  }

  ghost predicate PpsFirstSeen<V>(t: LabelTable<V>, items: seq<(string, V)>)
  {
    forall u :: 0 <= u < t.nextLabel && u < |t.labels.keys| ==> PpsAt(t, items, u)
  }

  /** One step keeps the labelling first-seen. */
  lemma {:induction false} StepFirstSeen<V>(t: LabelTable<V>, items: seq<(string, V)>, e: string, pp: V)
    requires FirstSeen(t, items)
    ensures FirstSeen(Step(t, e, pp), items + [(e, pp)])
  {
    FirstsSecondsSnoc(items, (e, pp));
    DedupSnoc(Firsts(items), e);
    DedupProperties(Firsts(items));
    StepKeys(t, items, e, pp);
    StepDense(t, e, pp);
    StepPps(t, items, e, pp);
  }

  lemma {:induction false} StepKeys<V>(t: LabelTable<V>, items: seq<(string, V)>, e: string, pp: V)
    requires KeysFirstSeen(t, items)
    requires Firsts(items + [(e, pp)]) == Firsts(items) + [e]
    requires Dedup(Firsts(items + [(e, pp)])) == if e in Dedup(Firsts(items)) then Dedup(Firsts(items)) else Dedup(Firsts(items)) + [e]
    ensures KeysFirstSeen(Step(t, e, pp), items + [(e, pp)])
  {
    if e !in t.labels.entries {
      RangeMembership(0, t.nextLabel, t.nextLabel);
      RangeSnoc(0, t.nextLabel);
    }
  }

  lemma {:induction false} StepDense<V>(t: LabelTable<V>, e: string, pp: V)
    requires Valid(t.pps) && Valid(t.labels) && t.nextLabel == |t.labels.keys|
    requires DenseLabels(t)
    ensures DenseLabels(Step(t, e, pp))
  {
    if e !in t.labels.entries {
      var t' := Step(t, e, pp);
      assert t'.labels.keys == t.labels.keys + [e];
      forall u | 0 <= u < t'.nextLabel && u < |t'.labels.keys|
        ensures t'.labels.keys[u] in t'.labels.entries && t'.labels.entries[t'.labels.keys[u]] == u
      {
        if u < t.nextLabel {
          assert t'.labels.keys[u] == t.labels.keys[u] != e;
        }
      }
    }
  }

  lemma {:induction false} StepPps<V>(t: LabelTable<V>, items: seq<(string, V)>, e: string, pp: V)
    requires KeysFirstSeen(t, items) && PpsFirstSeen(t, items)
    requires Firsts(items + [(e, pp)]) == Firsts(items) + [e]
    requires forall x :: x in Dedup(Firsts(items)) <==> x in Firsts(items)
    ensures PpsFirstSeen(Step(t, e, pp), items + [(e, pp)])
  {
    if e in t.labels.entries {
      assert Step(t, e, pp) == t;
      forall u | 0 <= u < t.nextLabel && u < |t.labels.keys|
        ensures PpsAt(t, items + [(e, pp)], u)
      {
        OldLabelPp(t, items, e, pp, u);
      }
    } else {
      StepPpsNew(t, items, e, pp);
    }
  }

  /** The step that labels a new element keeps every old label's
      pseudopotential and gives the new label the pseudopotential met with it. */
  lemma {:induction false} StepPpsNew<V>(t: LabelTable<V>, items: seq<(string, V)>, e: string, pp: V)
    requires KeysFirstSeen(t, items) && PpsFirstSeen(t, items)
    requires Firsts(items + [(e, pp)]) == Firsts(items) + [e]
    requires e !in t.labels.entries && e !in Firsts(items)
    ensures PpsFirstSeen(Step(t, e, pp), items + [(e, pp)])
  {
    assert Step(t, e, pp).nextLabel == t.nextLabel + 1;
    forall u | 0 <= u < Step(t, e, pp).nextLabel && u < |Step(t, e, pp).labels.keys|
      ensures PpsAt(Step(t, e, pp), items + [(e, pp)], u)
    {
      if u < t.nextLabel {
        OldLabelAfterStep(t, items, e, pp, u);
      } else {
        assert u == t.nextLabel;
        NewLabelAfterStep(t, items, e, pp);
      }
    }
  }

  /** PpsFirstSeen at one label u. */
  ghost predicate PpsAt<V>(t: LabelTable<V>, items: seq<(string, V)>, u: int)
    requires 0 <= u < |t.labels.keys|
  {
    u in t.pps.entries && t.labels.keys[u] in Firsts(items) &&
    t.pps.entries[u] == items[IndexOf(Firsts(items), t.labels.keys[u])].1
  }

  lemma {:induction false} OldLabelAfterStep<V>(t: LabelTable<V>, items: seq<(string, V)>, e: string, pp: V, u: int)
    requires KeysFirstSeen(t, items) && PpsFirstSeen(t, items)
    requires Firsts(items + [(e, pp)]) == Firsts(items) + [e]
    requires e !in t.labels.entries && 0 <= u < t.nextLabel
    ensures u < |Step(t, e, pp).labels.keys| && PpsAt(Step(t, e, pp), items + [(e, pp)], u)
  {
    var t' := Step(t, e, pp);
    assert t'.labels.keys[u] == t.labels.keys[u];
    RangeMembership(0, t.nextLabel, u);
    assert t'.pps.entries[u] == t.pps.entries[u];
    OldLabelPp(t, items, e, pp, u);
  }

  lemma {:induction false} NewLabelAfterStep<V>(t: LabelTable<V>, items: seq<(string, V)>, e: string, pp: V)
    requires KeysFirstSeen(t, items)
    requires Firsts(items + [(e, pp)]) == Firsts(items) + [e]
    requires e !in t.labels.entries && e !in Firsts(items)
    ensures t.nextLabel < |Step(t, e, pp).labels.keys| && PpsAt(Step(t, e, pp), items + [(e, pp)], t.nextLabel)
  {
    var t' := Step(t, e, pp);
    assert t'.labels.keys[t.nextLabel] == e && t'.pps.entries[t.nextLabel] == pp;
    IndexOfSnoc(Firsts(items), e, e);
    assert (items + [(e, pp)])[|items|] == (e, pp);
  }

  /** A label given before the step keeps its pseudopotential, which is still
      the one paired with the element's first appearance. */
  lemma {:induction false} OldLabelPp<V>(t: LabelTable<V>, items: seq<(string, V)>, e: string, pp: V, u: int)
    requires KeysFirstSeen(t, items) && PpsFirstSeen(t, items)
    requires Firsts(items + [(e, pp)]) == Firsts(items) + [e]
    requires 0 <= u < t.nextLabel
    ensures u < |t.labels.keys| && PpsAt(t, items + [(e, pp)], u)
  {
    var k := t.labels.keys[u];
    assert PpsAt(t, items, u);
    IndexOfSnoc(Firsts(items), e, k);
    var q := IndexOf(Firsts(items), k);
    assert (items + [(e, pp)])[q] == items[q];
  }

  lemma {:induction false} TableFacts<V>(items: seq<(string, V)>)
    ensures FirstSeen(Table(items), items)
  {
    if items != [] {
      var init, e, pp := items[..|items| - 1], items[|items| - 1].0, items[|items| - 1].1;
      assert items == init + [(e, pp)];
      TableFacts(init);
      TableSnoc(init, e, pp);
      StepFirstSeen(Table(init), init, e, pp);
    }
  }

  /** The number of labels, which the source stores as num_proj_els = len(pps),
      is the number of distinct elements. */
  lemma {:induction false} LabelCount<V>(items: seq<(string, V)>)
    ensures |Table(items).pps.keys| == Table(items).nextLabel == |Dedup(Firsts(items))|
  {
    TableFacts(items);
  }

  /** The pairs of several dicts, one dict after another. */
  function AllItems<V>(crs: seq<Dict<string, V>>): (r: seq<(string, V)>)
    requires forall i :: 0 <= i < |crs| ==> Valid(crs[i])
  {
    if crs == [] then [] else AllItems(crs[..|crs| - 1]) + Items(crs[|crs| - 1])
  }

  lemma {:induction false} AllItemsSnoc<V>(crs: seq<Dict<string, V>>, cr: Dict<string, V>)
    requires forall i :: 0 <= i < |crs| ==> Valid(crs[i])
    requires Valid(cr)
    ensures AllItems(crs + [cr]) == AllItems(crs) + Items(cr)
  {
    InitOfSnoc(crs, cr);
  }

  /** The body of the labelling loops: an element not yet labelled gets the
      next label, an element already labelled is skipped. */
  method LabelElement<V>(pps: Dict<int, V>, labels: Dict<string, int>, nextLabel: int, e: string, pp: V)
      returns (pps': Dict<int, V>, labels': Dict<string, int>, nextLabel': int)
    requires Valid(pps) && Valid(labels)
    ensures LabelTable(pps', labels', nextLabel') == Step(LabelTable(pps, labels, nextLabel), e, pp)
  {
    pps', labels', nextLabel' := pps, labels, nextLabel;
    if !(e in labels.entries) {
      pps' := Insert(pps, nextLabel, pp);
      labels' := Insert(labels, e, nextLabel);
      nextLabel' := nextLabel + 1;
    }
  }

  /** Labelling one more pair of a sequence being walked. */
  lemma {:induction false} TableExtend<V>(before: seq<(string, V)>, its: seq<(string, V)>, j: nat)
    requires j < |its|
    ensures Table(before + its[..j + 1]) == Step(Table(before + its[..j]), its[j].0, its[j].1)
  {
    PrefixSnoc(its, j);
    assert before + its[..j + 1] == (before + its[..j]) + [its[j]];
    TableSnoc(before + its[..j], its[j].0, its[j].1);
  }

  /** The two ends of the pairs seen while walking through its. */
  lemma PrefixEnds<V>(before: seq<(string, V)>, its: seq<(string, V)>)
    ensures its[..0] == [] && its[..|its|] == its
    ensures before + its[..0] == before && before + its[..|its|] == before + its
  {
    assert its[..0] == [] && its[..|its|] == its;
  }

  lemma TableGrow<V>(its: seq<(string, V)>, j: nat)
    requires j < |its|
    ensures Table(its[..j + 1]) == Step(Table(its[..j]), its[j].0, its[j].1)
  {
    PrefixSnoc(its, j);
    TableSnoc(its[..j], its[j].0, its[j].1);
  }

  /** The inner loop `for e in cr.pps: if not e in labels: ...`, continuing
      the tables left by the pairs `before`. */
  method LabelCoreRegion<V>(pps: Dict<int, V>, labels: Dict<string, int>, nextLabel: int,
                            cr: Dict<string, V>, ghost before: seq<(string, V)>)
      returns (pps': Dict<int, V>, labels': Dict<string, int>, nextLabel': int)
    requires Valid(cr)
    requires LabelTable(pps, labels, nextLabel) == Table(before)
    ensures LabelTable(pps', labels', nextLabel') == Table(before + Items(cr))
  {
    pps', labels', nextLabel' := pps, labels, nextLabel;
    PrefixEnds(before, Items(cr));
    for j := 0 to |cr.keys|
      invariant LabelTable(pps', labels', nextLabel') == Table(before + Items(cr)[..j])
    {
      pps', labels', nextLabel' := LabelNext(pps', labels', nextLabel', cr, before, j);
    }
  }

  /** One pass of the inner loop: element number j of the CoreRegion. */
  method LabelNext<V>(pps: Dict<int, V>, labels: Dict<string, int>, nextLabel: int,
                      cr: Dict<string, V>, ghost before: seq<(string, V)>, j: nat)
      returns (pps': Dict<int, V>, labels': Dict<string, int>, nextLabel': int)
    requires Valid(cr) && j < |cr.keys|
    requires LabelTable(pps, labels, nextLabel) == Table(before + Items(cr)[..j])
    ensures LabelTable(pps', labels', nextLabel') == Table(before + Items(cr)[..j + 1])
  {
    var e := cr.keys[j];
    assert Items(cr)[j] == (e, cr.entries[e]);
    TableExtend(before, Items(cr), j);
    pps', labels', nextLabel' := LabelElement(pps, labels, nextLabel, e, cr.entries[e]);
  }

  /** The labelling loop of setup_bases and setup_multiple_projections: every
      element of every CoreRegion in turn, skipping those already labelled. */
  method LabelAll<V>(crs: seq<Dict<string, V>>)
      returns (pps: Dict<int, V>, labels: Dict<string, int>, nextLabel: int)
    requires forall i :: 0 <= i < |crs| ==> Valid(crs[i])
    ensures LabelTable(pps, labels, nextLabel) == Table(AllItems(crs))
  {
    pps, labels, nextLabel := Dict([], map[]), Dict([], map[]), 0;
    var i := 0;
    while i < |crs|
      invariant 0 <= i <= |crs|
      invariant LabelTable(pps, labels, nextLabel) == Table(AllItems(crs[..i]))
    {
      PrefixSnoc(crs, i);
      AllItemsSnoc(crs[..i], crs[i]);
      pps, labels, nextLabel := LabelCoreRegion(pps, labels, nextLabel, crs[i], AllItems(crs[..i]));
      i := i + 1;
    }
    assert crs[..i] == crs;
  }

  /** The first loop of make_c_projectors: the wavefunction's own elements
      are numbered in order without a membership test. */
  method LabelOwn<V>(own: Dict<string, V>)
      returns (pps: Dict<int, V>, labels: Dict<string, int>, nextLabel: int)
    requires Valid(own)
    ensures LabelTable(pps, labels, nextLabel) == Table(Items(own))
  {
    pps, labels, nextLabel := Dict([], map[]), Dict([], map[]), 0;
    PrefixEnds([], Items(own));
    var j := 0;
    while j < |own.keys|
      invariant 0 <= j <= |own.keys|
      invariant LabelTable(pps, labels, nextLabel) == Table(Items(own)[..j])
    {
      pps, labels, nextLabel := LabelOwnNext(pps, labels, nextLabel, own, j);
      j := j + 1;
    }
  }

  /** One pass of the first loop: the wavefunction's element number j. */
  method LabelOwnNext<V>(pps: Dict<int, V>, labels: Dict<string, int>, nextLabel: int,
                         own: Dict<string, V>, j: nat)
      returns (pps': Dict<int, V>, labels': Dict<string, int>, nextLabel': int)
    requires Valid(own) && j < |own.keys|
    requires LabelTable(pps, labels, nextLabel) == Table(Items(own)[..j])
    ensures LabelTable(pps', labels', nextLabel') == Table(Items(own)[..j + 1])
  {
    var e := own.keys[j];
    OwnStep(own, j);
    pps' := Insert(pps, nextLabel, own.entries[e]);
    labels' := Insert(labels, e, nextLabel);
    nextLabel' := nextLabel + 1;
  }

  /** The labelling of make_c_projectors: the wavefunction's own elements
      first, then the basis's new elements when there is a basis. */
  method MakeLabels<V>(own: Dict<string, V>, basis: Option<Dict<string, V>>)
      returns (pps: Dict<int, V>, labels: Dict<string, int>, nextLabel: int)
    requires Valid(own) && (basis.Some? ==> Valid(basis.value))
    ensures LabelTable(pps, labels, nextLabel)
         == Table(Items(own) + (if basis.Some? then Items(basis.value) else []))
  {
    pps, labels, nextLabel := LabelOwn(own);
    if basis.Some? {
      pps, labels, nextLabel := LabelCoreRegion(pps, labels, nextLabel, basis.value, Items(own));
    } else {
      assert Items(own) + [] == Items(own);
    }
  }

  /** Element number j of the wavefunction gets the next label. */
  lemma OwnStep<V>(own: Dict<string, V>, j: nat)
    requires Valid(own) && j < |own.keys|
    ensures var t, e := Table(Items(own)[..j]), own.keys[j];
      Table(Items(own)[..j + 1])
      == LabelTable(Insert(t.pps, t.nextLabel, own.entries[e]), Insert(t.labels, e, t.nextLabel), t.nextLabel + 1)
  {
    var its, e := Items(own), own.keys[j];
    assert its[j] == (e, own.entries[e]);
    TableGrow(its, j);
    FreshKey(own, j);
    FreshStep(Table(its[..j]), e, own.entries[e]);
  }

  /** Meeting an element that has no label yet always labels it. */
  lemma FreshStep<V>(t: LabelTable<V>, e: string, pp: V)
    requires Valid(t.pps) && Valid(t.labels) && e !in t.labels.entries
    ensures Step(t, e, pp) == LabelTable(Insert(t.pps, t.nextLabel, pp), Insert(t.labels, e, t.nextLabel), t.nextLabel + 1)
  {
  }

  /** Labelling a dict's own keys one after another never meets a key twice,
      which is why the first loop of make_c_projectors needs no membership test. */
  lemma {:induction false} FreshKey<V>(d: Dict<string, V>, j: nat)
    requires Valid(d) && j < |d.keys|
    ensures d.keys[j] !in Table(Items(d)[..j]).labels.entries
  {
    FreshPrefix(Items(d), j);
  }

  lemma FreshPrefix<V>(items: seq<(string, V)>, j: nat)
    requires Distinct(Firsts(items)) && j < |items|
    ensures items[j].0 !in Table(items[..j]).labels.entries
  {
    var t := Table(items[..j]);
    assert Valid(t.labels) && t.labels.keys == Dedup(Firsts(items[..j])) by {
      TableFacts(items[..j]);
    }
    var ks := Firsts(items);
    assert Firsts(items[..j]) == ks[..j] by {
      FirstsOfPrefix(items, j);
    }
    DistinctNotInDedup(ks, j);
  }

  lemma FirstsOfPrefix<A, B>(s: seq<(A, B)>, j: nat)
    requires j <= |s|
    ensures Firsts(s[..j]) == Firsts(s)[..j]
  {
    assert forall t :: 0 <= t < j ==> Firsts(s[..j])[t] == Firsts(s)[t];
  }

  lemma {:induction false} FirstsAppend<A, B>(a: seq<(A, B)>, b: seq<(A, B)>)
    ensures Firsts(a + b) == Firsts(a) + Firsts(b)
  {
  }

  /** What make_c_projectors hands to C: the wavefunction's elements are
      labelled 0, 1, ... in their own order with their own pseudopotentials,
      and the basis's other elements follow, in the basis's order, with the
      basis's pseudopotentials. */
  lemma {:induction false} MakeLabelsOrder<V>(own: Dict<string, V>, basis: Dict<string, V>)
    requires Valid(own) && Valid(basis)
    ensures var t := Table(Items(own) + Items(basis));
      && t.labels.keys == own.keys + Minus(basis.keys, own.keys)
      && (forall u :: 0 <= u < |own.keys| ==>
            own.keys[u] in t.labels.entries && t.labels.entries[own.keys[u]] == u &&
            u in t.pps.entries && t.pps.entries[u] == own.entries[own.keys[u]])
      && (forall e :: e in basis.entries && e !in own.entries ==>
            e in t.labels.entries && t.labels.entries[e] >= |own.keys| &&
            t.labels.entries[e] in t.pps.entries &&
            t.pps.entries[t.labels.entries[e]] == basis.entries[e])
  {
    MakeLabelsKeys(own, basis);
    OwnLabels(own, basis);
    BasisLabels(own, basis);
  }

  lemma OwnLabels<V>(own: Dict<string, V>, basis: Dict<string, V>)
    requires Valid(own) && Valid(basis)
    ensures var t := Table(Items(own) + Items(basis));
      forall u :: 0 <= u < |own.keys| ==>
        own.keys[u] in t.labels.entries && t.labels.entries[own.keys[u]] == u &&
        u in t.pps.entries && t.pps.entries[u] == own.entries[own.keys[u]]
  {
    forall u | 0 <= u < |own.keys|
      ensures var t := Table(Items(own) + Items(basis));
        own.keys[u] in t.labels.entries && t.labels.entries[own.keys[u]] == u &&
        u in t.pps.entries && t.pps.entries[u] == own.entries[own.keys[u]]
    {
      OwnLabel(own, basis, u);
    }
  }

  lemma BasisLabels<V>(own: Dict<string, V>, basis: Dict<string, V>)
    requires Valid(own) && Valid(basis)
    ensures var t := Table(Items(own) + Items(basis));
      forall e :: e in basis.entries && e !in own.entries ==>
        e in t.labels.entries && t.labels.entries[e] >= |own.keys| &&
        t.labels.entries[e] in t.pps.entries && t.pps.entries[t.labels.entries[e]] == basis.entries[e]
  {
    forall e | e in basis.entries && e !in own.entries
      ensures var t := Table(Items(own) + Items(basis));
        e in t.labels.entries && t.labels.entries[e] >= |own.keys| &&
        t.labels.entries[e] in t.pps.entries && t.pps.entries[t.labels.entries[e]] == basis.entries[e]
    {
      BasisLabel(own, basis, e);
    }
  }

  /** The labelled elements are the wavefunction's, then the basis's others. */
  lemma {:induction false} MakeLabelsKeys<V>(own: Dict<string, V>, basis: Dict<string, V>)
    requires Valid(own) && Valid(basis)
    ensures Firsts(Items(own) + Items(basis)) == own.keys + basis.keys
    ensures Table(Items(own) + Items(basis)).labels.keys == own.keys + Minus(basis.keys, own.keys)
  {
    var items := Items(own) + Items(basis);
    FirstsAppend(Items(own), Items(basis));
    DedupAppendDistinct(own.keys, basis.keys);
    TableFacts(items);
  }

  /** An element of the wavefunction: its label is its position in its own dict. */
  lemma {:induction false} OwnLabel<V>(own: Dict<string, V>, basis: Dict<string, V>, u: nat)
    requires Valid(own) && Valid(basis) && u < |own.keys|
    ensures var t := Table(Items(own) + Items(basis));
      own.keys[u] in t.labels.entries && t.labels.entries[own.keys[u]] == u &&
      u in t.pps.entries && t.pps.entries[u] == own.entries[own.keys[u]]
  {
    var items := Items(own) + Items(basis);
    var t := Table(items);
    MakeLabelsKeys(own, basis);
    assert t.labels.keys[u] == own.keys[u];
    TableAt(items, u);
    var q := IndexOf(Firsts(items), own.keys[u]);
    assert Firsts(items)[u] == own.keys[u];
    assert q == u;
    assert items[u] == Items(own)[u];
  }

  /** An element only the basis has: its label comes after the wavefunction's
      elements and holds the basis's pseudopotential. */
  lemma {:induction false} BasisLabel<V>(own: Dict<string, V>, basis: Dict<string, V>, e: string)
    requires Valid(own) && Valid(basis) && e in basis.entries && e !in own.entries
    ensures var t := Table(Items(own) + Items(basis));
      e in t.labels.entries && t.labels.entries[e] >= |own.keys| &&
      t.labels.entries[e] in t.pps.entries && t.pps.entries[t.labels.entries[e]] == basis.entries[e]
  {
    var t := Table(Items(own) + Items(basis));
    MakeLabelsKeys(own, basis);
    IndexOfAppendRight(own.keys, Minus(basis.keys, own.keys), e);
    var u := IndexOf(t.labels.keys, e);
    TableAt(Items(own) + Items(basis), u);
    BasisFirstPair(own, basis, e);
  }

  /** What the labelling of a sequence of pairs says about label u. */
  lemma TableAt<V>(items: seq<(string, V)>, u: int)
    requires 0 <= u < |Table(items).labels.keys|
    ensures var t := Table(items);
      t.labels.keys[u] in t.labels.entries && t.labels.entries[t.labels.keys[u]] == u &&
      u in t.pps.entries && t.labels.keys[u] in Firsts(items) &&
      t.pps.entries[u] == items[IndexOf(Firsts(items), t.labels.keys[u])].1
  {
    TableFacts(items);
    FirstSeenAt(Table(items), items, u);
  }

  /** What FirstSeen says about label u. */
  lemma FirstSeenAt<V>(t: LabelTable<V>, items: seq<(string, V)>, u: int)
    requires FirstSeen(t, items) && 0 <= u < |t.labels.keys|
    ensures t.labels.keys[u] in t.labels.entries && t.labels.entries[t.labels.keys[u]] == u
    ensures u in t.pps.entries && t.labels.keys[u] in Firsts(items)
    ensures t.pps.entries[u] == items[IndexOf(Firsts(items), t.labels.keys[u])].1
  {
    assert PpsAt(t, items, u);
  }

  /** The first pair with a key only the right part has is that key's first
      pair in the right part. */
  lemma FirstPairRight<A, B>(a: seq<(A, B)>, b: seq<(A, B)>, x: A)
    requires x !in Firsts(a) && x in Firsts(b)
    ensures x in Firsts(a + b) && IndexOf(Firsts(a + b), x) == |a| + IndexOf(Firsts(b), x)
  {
    var k := IndexOf(Firsts(b), x);
    var fab := Firsts(a + b);
    assert fab[|a| + k] == x by {
      assert (a + b)[|a| + k] == b[k];
    }
    forall j | 0 <= j < |a| + k
      ensures fab[j] != x
    {
      if j < |a| {
        assert (a + b)[j] == a[j];
        assert Firsts(a)[j] == a[j].0;
      } else {
        assert (a + b)[j] == b[j - |a|];
        assert Firsts(b)[j - |a|] == b[j - |a|].0;
      }
    }
  }

  /** The first pair of an element only the basis has comes from the basis. */
  lemma BasisFirstPair<V>(own: Dict<string, V>, basis: Dict<string, V>, e: string)
    requires Valid(own) && Valid(basis) && e in basis.entries && e !in own.entries
    requires Firsts(Items(own) + Items(basis)) == own.keys + basis.keys
    ensures e in Firsts(Items(own) + Items(basis))
    ensures IndexOf(Firsts(Items(own) + Items(basis)), e) >= |own.keys|
    ensures (Items(own) + Items(basis))[IndexOf(Firsts(Items(own) + Items(basis)), e)].1 == basis.entries[e]
  {
    FirstPairRight(Items(own), Items(basis), e);
    var k := IndexOf(basis.keys, e);
    assert (Items(own) + Items(basis))[|own.keys| + k] == Items(basis)[k];
    assert Items(basis)[k].0 == e;
  }

  /** A site of a crystal structure: the symbol of its element and its
      fractional coordinates. */
  datatype Site = Site(element: string, frac: Vec3)

  /** labels[el(s)] for one site, raising KeyError for an unlabelled element. */
  function SiteLabel(labels: Dict<string, int>, s: Site): (r: Result<int>)
    ensures r.Ok? <==> s.element in labels.entries
    ensures r.Ok? ==> r.value == labels.entries[s.element]
    ensures r.Err? ==> r.error == KeyError
  {
    if s.element in labels.entries then Ok(labels.entries[s.element]) else Err(KeyError)
  }

  /** [labels[el(s)] for s in structure]: the nextLabel of every site's element. */
  function SiteNums(labels: Dict<string, int>, structure: seq<Site>): (r: Result<seq<int>>)
  {
    MapAll(structure, s => SiteLabel(labels, s))
  }

  /** The list exists exactly when every site's element is labelled, in which
      case it holds each site's nextLabel in site order; otherwise KeyError. */
  lemma {:induction false} SiteNumsMeaning(labels: Dict<string, int>, structure: seq<Site>)
    ensures SiteNums(labels, structure).Ok?
        <==> forall i :: 0 <= i < |structure| ==> structure[i].element in labels.entries
    ensures SiteNums(labels, structure).Ok? ==>
      |SiteNums(labels, structure).value| == |structure| &&
      forall i :: 0 <= i < |structure| ==>
        SiteNums(labels, structure).value[i] == labels.entries[structure[i].element]
    ensures SiteNums(labels, structure).Err? ==> SiteNums(labels, structure).error == KeyError
  {
    var f := (s: Site) => SiteLabel(labels, s);
    MapAllOk(structure, f);
    if SiteNums(labels, structure).Ok? {
      forall i | 0 <= i < |structure|
        ensures SiteNums(labels, structure).value[i] == labels.entries[structure[i].element]
      {
        MapAllAt(structure, f, i);
      }
    } else {
      SiteNumsError(labels, structure);
    }
  }

  lemma {:induction false} SiteNumsError(labels: Dict<string, int>, structure: seq<Site>)
    ensures SiteNums(labels, structure).Err? ==> SiteNums(labels, structure).error == KeyError
  {
    if structure != [] {
      SiteNumsError(labels, structure[..|structure| - 1]);
    }
  }

  /** Every site of a structure built on the labelled CoreRegions gets a
      label: when each site's element is a key of one of the dicts, the
      lookup cannot fail and every label is below num_proj_els. */
  lemma {:induction false} SiteNumsCovered<V>(crs: seq<Dict<string, V>>, structure: seq<Site>)
    requires forall i :: 0 <= i < |crs| ==> Valid(crs[i])
    requires forall i :: 0 <= i < |structure| ==> structure[i].element in Firsts(AllItems(crs))
    ensures SiteNums(Table(AllItems(crs)).labels, structure).Ok?
    ensures forall i :: 0 <= i < |structure| ==>
      0 <= SiteNums(Table(AllItems(crs)).labels, structure).value[i] < Table(AllItems(crs)).nextLabel
  {
    var items := AllItems(crs);
    var t := Table(items);
    TableFacts(items);
    DedupProperties(Firsts(items));
    SiteNumsMeaning(t.labels, structure);
    forall i | 0 <= i < |structure|
      ensures structure[i].element in t.labels.entries
      ensures 0 <= t.labels.entries[structure[i].element] < t.nextLabel
    {
      var u := IndexOf(t.labels.keys, structure[i].element);
      assert t.labels.entries[t.labels.keys[u]] == u;
    }
  }

  /** The fractional coordinates of the sites, three per site, in site order. */
  function FlatCoords(structure: seq<Site>): (r: seq<real>)
    ensures |r| == 3 * |structure|
  {
    if structure == [] then []
    else FlatCoords(structure[..|structure| - 1]) + Components(structure[|structure| - 1].frac)
  }

  /** Entries 3i, 3i+1 and 3i+2 are the coordinates of site i. */
  lemma {:induction false} FlatCoordsAt(structure: seq<Site>, i: int, c: int)
    requires 0 <= i < |structure| && 0 <= c < 3
    ensures FlatCoords(structure)[3 * i + c] == Components(structure[i].frac)[c]
  {
    var n := |structure| - 1;
    if i < n {
      FlatCoordsAt(structure[..n], i, c);
      assert structure[..n][i] == structure[i];
    }
  }

  /** The loop `coords = np.append(coords, s.frac_coords)` over the sites. */
  method FlattenCoords(structure: seq<Site>) returns (coords: seq<real>)
    ensures coords == FlatCoords(structure)
  {
    coords := [];
    var i := 0;
    while i < |structure|
      invariant 0 <= i <= |structure|
      invariant coords == FlatCoords(structure[..i])
    {
      PrefixSnoc(structure, i);
      coords := coords + Components(structure[i].frac);
      i := i + 1;
    }
    assert structure[..i] == structure;
  }
}
