/** Sequence helpers shared by the model: ranges, filters, products in
    row-major order, concatenation with offsets, unzipping and
    first-occurrence de-duplication. */
module Seqs {

  /** The integers lo, lo+1, ..., hi-1 (Python's range(lo, hi)). */
  function Range(lo: int, hi: int): (r: seq<int>)
    ensures |r| == if lo <= hi then hi - lo else 0
    ensures forall i :: 0 <= i < |r| ==> r[i] == lo + i
    decreases hi - lo
  {
    if lo >= hi then [] else [lo] + Range(lo + 1, hi)
  }

  lemma RangeMembership(lo: int, hi: int, x: int)
    ensures x in Range(lo, hi) <==> lo <= x < hi
  {
    if lo <= x < hi {
      assert Range(lo, hi)[x - lo] == x;
    }
  }

  lemma RangeSnoc(lo: int, hi: int)
    requires lo <= hi
    ensures Range(lo, hi + 1) == Range(lo, hi) + [hi]
  {
  }

  /** n copies of x. */
  function Repeat<T>(x: T, n: nat): (r: seq<T>)
    ensures |r| == n
    ensures forall i :: 0 <= i < n ==> r[i] == x
  {
    if n == 0 then [] else Repeat(x, n - 1) + [x]
  }

  /** The elements of b that are not in a, in their order in b. */
  function Minus<T(==,!new)>(b: seq<T>, a: seq<T>): (r: seq<T>)
    ensures |r| <= |b|
    ensures forall x :: x in r <==> x in b && x !in a
  {
    if b == [] then []
    else Minus(b[..|b| - 1], a) + (if b[|b| - 1] in a then [] else [b[|b| - 1]])
  }

  /** Strictly ascending. */
  predicate Increasing(s: seq<int>)
  {
    forall i, j :: 0 <= i < j < |s| ==> s[i] < s[j]
  }

  /** The elements of s that keep accepts, in their order in s (a list
      comprehension with an if, or a loop that appends what passes a test). */
  function Filter<T(!new)>(s: seq<T>, keep: T -> bool): (r: seq<T>)
    ensures |r| <= |s|
    ensures forall x :: x in r <==> x in s && keep(x)
  {
    if s == [] then []
    else Filter(s[..|s| - 1], keep) + (if keep(s[|s| - 1]) then [s[|s| - 1]] else [])
  }

  lemma FilterSnoc<T(!new)>(s: seq<T>, x: T, keep: T -> bool)
    ensures Filter(s + [x], keep) == Filter(s, keep) + (if keep(x) then [x] else [])
  {
    assert (s + [x])[..|s|] == s;
  }

  /** Filtering distributes over concatenation. */
  lemma {:induction false} FilterAppend<T(!new)>(s: seq<T>, t: seq<T>, keep: T -> bool)
    ensures Filter(s + t, keep) == Filter(s, keep) + Filter(t, keep)
  {
    if t != [] {
      var init, x := t[..|t| - 1], t[|t| - 1];
      assert t == init + [x];
      assert s + t == (s + init) + [x];
      FilterAppend(s, init, keep);
      FilterSnoc(s + init, x, keep);
      FilterSnoc(init, x, keep);
    } else {
      assert s + t == s;
    }
  }

  /** Filtering keeps an ascending sequence ascending. */
  lemma {:induction false} FilterIncreasing(s: seq<int>, keep: int -> bool)
    requires Increasing(s)
    ensures Increasing(Filter(s, keep))
  {
    if s != [] {
      var init := s[..|s| - 1];
      var x := s[|s| - 1];
      FilterIncreasing(init, keep);
      var f := Filter(init, keep);
      forall i, j | 0 <= i < j < |f| + 1 && keep(x)
        ensures (f + [x])[i] < (f + [x])[j]
      {
        if j == |f| {
          assert f[i] in init;
          var t :| 0 <= t < |init| && init[t] == f[i];
          assert s[t] == f[i];
        }
      }
    }
  }

  lemma RangeIncreasing(lo: int, hi: int)
    ensures Increasing(Range(lo, hi))
  {
  }

  /** The pairs (a[i], b[j]) in row-major order: i outer, j inner. */
  function Product<A, B>(a: seq<A>, b: seq<B>): (r: seq<(A, B)>)
  {
    if a == [] then [] else Row(a[0], b) + Product(a[1..], b)
  }

  /** The pairs (x, b[j]) for every j in order. */
  function Row<A, B>(x: A, b: seq<B>): (r: seq<(A, B)>)
    ensures |r| == |b|
    ensures forall j :: 0 <= j < |b| ==> r[j] == (x, b[j])
  {
    if b == [] then [] else [(x, b[0])] + Row(x, b[1..])
  }

  lemma {:induction false} ProductMembership<A, B>(a: seq<A>, b: seq<B>, x: A, y: B)
    ensures (x, y) in Product(a, b) <==> x in a && y in b
  {
    if a != [] {
      ProductMembership(a[1..], b, x, y);
      assert (x, y) in Row(a[0], b) <==> x == a[0] && y in b by {
        if x == a[0] && y in b {
          var j :| 0 <= j < |b| && b[j] == y;
          assert Row(a[0], b)[j] == (x, y);
        }
      }
      assert x in a <==> x == a[0] || x in a[1..] by {
        assert a == [a[0]] + a[1..];
      }
    }
  }

  lemma {:induction false} ProductSnoc<A, B>(a: seq<A>, x: A, b: seq<B>)
    ensures Product(a + [x], b) == Product(a, b) + Row(x, b)
  {
    if a == [] {
      assert [x][1..] == [];
    } else {
      assert (a + [x])[1..] == a[1..] + [x];
      ProductSnoc(a[1..], x, b);
    }
  }

  lemma RowSnoc<A, B>(x: A, b: seq<B>, y: B)
    ensures Row(x, b + [y]) == Row(x, b) + [(x, y)]
  {
  }

  /** A nested loop over xs and then ys that keeps some pairs: the pairs it
      has kept before (x, ys[b]) is visited, and after. */
  lemma GridStep<A(!new), B(!new)>(xs: seq<A>, x: A, ys: seq<B>, b: nat, keep: ((A, B)) -> bool)
    requires b < |ys|
    ensures Filter(Product(xs, ys) + Row(x, ys[..b + 1]), keep)
         == Filter(Product(xs, ys) + Row(x, ys[..b]), keep) + (if keep((x, ys[b])) then [(x, ys[b])] else [])
  {
    PrefixSnoc(ys, b);
    RowSnoc(x, ys[..b], ys[b]);
    assert Product(xs, ys) + Row(x, ys[..b + 1]) == (Product(xs, ys) + Row(x, ys[..b])) + [(x, ys[b])];
    FilterSnoc(Product(xs, ys) + Row(x, ys[..b]), (x, ys[b]), keep);
  }

  /** The nested loop starts row x with nothing more than the earlier rows. */
  lemma GridRowStart<A, B>(xs: seq<A>, x: A, ys: seq<B>)
    ensures Product(xs, ys) + Row(x, ys[..0]) == Product(xs, ys)
  {
  }

  /** The nested loop ends row x with the product over xs + [x]. */
  lemma GridRowEnd<A, B>(xs: seq<A>, x: A, ys: seq<B>)
    ensures Product(xs + [x], ys) == Product(xs, ys) + Row(x, ys[..|ys|])
  {
    assert ys[..|ys|] == ys;
    ProductSnoc(xs, x, ys);
  }

  /** The first components of a sequence of pairs. */
  function Firsts<A, B>(s: seq<(A, B)>): (r: seq<A>)
    ensures |r| == |s|
    ensures forall t :: 0 <= t < |s| ==> r[t] == s[t].0
  {
    if s == [] then [] else [s[0].0] + Firsts(s[1..])
  }

  /** The second components of a sequence of pairs. */
  function Seconds<A, B>(s: seq<(A, B)>): (r: seq<B>)
    ensures |r| == |s|
    ensures forall t :: 0 <= t < |s| ==> r[t] == s[t].1
  {
    if s == [] then [] else [s[0].1] + Seconds(s[1..])
  }

  lemma FirstsSecondsSnoc<A, B>(s: seq<(A, B)>, x: (A, B))
    ensures Firsts(s + [x]) == Firsts(s) + [x.0]
    ensures Seconds(s + [x]) == Seconds(s) + [x.1]
  {
  }

  /** Pairs up two sequences of equal length (the inverse of unzipping). */
  function Zip<A, B>(a: seq<A>, b: seq<B>): (r: seq<(A, B)>)
    requires |a| == |b|
    ensures |r| == |a|
    ensures forall t :: 0 <= t < |a| ==> r[t] == (a[t], b[t])
  {
    if a == [] then [] else [(a[0], b[0])] + Zip(a[1..], b[1..])
  }

  lemma UnzipZip<A, B>(s: seq<(A, B)>)
    ensures Zip(Firsts(s), Seconds(s)) == s
  {
  }

  /** Concatenation of a sequence of sequences. */
  function Concat<T>(ss: seq<seq<T>>): (r: seq<T>)
  {
    if ss == [] then [] else Concat(ss[..|ss| - 1]) + ss[|ss| - 1]
  }

  lemma ConcatSnoc<T>(ss: seq<seq<T>>, s: seq<T>)
    ensures Concat(ss + [s]) == Concat(ss) + s
  {
    assert (ss + [s])[..|ss|] == ss;
  }

  /** Where ss[i] starts inside Concat(ss). */
  function Offset<T>(ss: seq<seq<T>>, i: nat): nat
    requires i <= |ss|
  {
    |Concat(ss[..i])|
  }

  lemma {:induction false} ConcatPrefix<T>(ss: seq<seq<T>>, i: nat)
    requires i <= |ss|
    ensures Concat(ss[..i]) <= Concat(ss)
  {
    if i < |ss| {
      ConcatPrefix(ss[..|ss| - 1], i);
      assert ss[..|ss| - 1][..i] == ss[..i];
    } else {
      assert ss[..i] == ss;
    }
  }

  /** Each piece sits at its offset in the concatenation. */
  lemma ConcatSlice<T>(ss: seq<seq<T>>, i: nat)
    requires i < |ss|
    ensures Offset(ss, i) + |ss[i]| <= |Concat(ss)|
    ensures Concat(ss)[Offset(ss, i)..Offset(ss, i) + |ss[i]|] == ss[i]
  {
    assert ss[..i + 1] == ss[..i] + [ss[i]];
    ConcatSnoc(ss[..i], ss[i]);
    ConcatPrefix(ss, i + 1);
  }

  /** The concatenation of n pieces of the same length w has length n * w,
      and piece k starts at k * w. */
  lemma {:induction false} ConcatUniform<T>(ss: seq<seq<T>>, w: nat)
    requires forall k :: 0 <= k < |ss| ==> |ss[k]| == w
    ensures |Concat(ss)| == |ss| * w
  {
    if ss != [] {
      ConcatUniform(ss[..|ss| - 1], w);
      assert (|ss| - 1) * w + w == |ss| * w;
    }
  }

  /** The elements of s without repetitions, each kept at its first occurrence. */
  function Dedup<T(==)>(s: seq<T>): (r: seq<T>)
  {
    if s == [] then []
    else
      var d := Dedup(s[..|s| - 1]);
      if s[|s| - 1] in d then d else d + [s[|s| - 1]]
  }

  predicate Distinct<T(==)>(s: seq<T>)
  {
    forall i, j :: 0 <= i < j < |s| ==> s[i] != s[j]
  }

  lemma {:induction false} DedupProperties<T>(s: seq<T>)
    ensures Distinct(Dedup(s))
    ensures forall x :: x in Dedup(s) <==> x in s
  {
    if s != [] {
      var init := s[..|s| - 1];
      DedupProperties(init);
      assert s == init + [s[|s| - 1]];
    }
  }

  lemma {:induction false} DedupSnoc<T>(s: seq<T>, x: T)
    ensures Dedup(s + [x]) == if x in Dedup(s) then Dedup(s) else Dedup(s) + [x]
  {
    assert (s + [x])[..|s|] == s;
  }

  /** De-duplicating a longer sequence only appends: what was seen first stays first. */
  lemma {:induction false} DedupPrefix<T>(a: seq<T>, b: seq<T>)
    ensures Dedup(a) <= Dedup(a + b)
  {
    if b != [] {
      var b' := b[..|b| - 1];
      DedupPrefix(a, b');
      assert a + b == (a + b') + [b[|b| - 1]];
      DedupSnoc(a + b', b[|b| - 1]);
    } else {
      assert a + b == a;
    }
  }

  /** A sequence without repetitions is its own de-duplication. */
  lemma {:induction false} DedupDistinct<T>(s: seq<T>)
    requires Distinct(s)
    ensures Dedup(s) == s
  {
    if s != [] {
      var init := s[..|s| - 1];
      DedupDistinct(init);
      assert s[|s| - 1] !in init;
      assert s == init + [s[|s| - 1]];
    }
  }

  /** Position of x in a sequence that contains it. */
  function IndexOf<T(==)>(s: seq<T>, x: T): (i: nat)
    requires x in s
    ensures i < |s| && s[i] == x
    ensures forall j :: 0 <= j < i ==> s[j] != x
  {
    if s[0] == x then 0 else 1 + IndexOf(s[1..], x)
  }

  /** Sum of a sequence of reals. */
  function SumReal(s: seq<real>): real
  {
    if s == [] then 0.0 else SumReal(s[..|s| - 1]) + s[|s| - 1]
  }

  lemma SumRealSnoc(s: seq<real>, x: real)
    ensures SumReal(s + [x]) == SumReal(s) + x
  {
    assert (s + [x])[..|s|] == s;
  }

  /** Position of the last occurrence of x in a sequence that contains it. */
  function LastIndex<T(==)>(s: seq<T>, x: T): (i: nat)
    requires x in s
    ensures i < |s| && s[i] == x
    ensures forall j :: i < j < |s| ==> s[j] != x
  {
    if s[|s| - 1] == x then |s| - 1
    else
      assert x in s[..|s| - 1] by {
        var j :| 0 <= j < |s| && s[j] == x;
        assert s[..|s| - 1][j] == x;
      }
      LastIndex(s[..|s| - 1], x)
  }

  /** Extending a prefix by one element. */
  lemma PrefixSnoc<T>(s: seq<T>, t: nat)
    requires t < |s|
    ensures s[..t + 1] == s[..t] + [s[t]]
  {
  }

  /** Dropping the last element of a snoc gives the sequence back. */
  lemma InitOfSnoc<T>(s: seq<T>, x: T)
    ensures (s + [x])[..|s|] == s
  {
  }

  /** A later element does not move the first occurrence of x. */
  lemma IndexOfSnoc<T>(s: seq<T>, y: T, x: T)
    requires x in s + [y]
    ensures x in s ==> IndexOf(s + [y], x) == IndexOf(s, x)
    ensures x !in s ==> IndexOf(s + [y], x) == |s|
  {
    var i := IndexOf(s + [y], x);
    if x in s {
      var j := IndexOf(s, x);
      assert (s + [y])[j] == x;
    }
  }

  /** De-duplicating a repetition-free a followed by a repetition-free b
      keeps a and then the elements of b that are not in a, in b's order. */
  lemma {:induction false} DedupAppendDistinct<T(!new)>(a: seq<T>, b: seq<T>)
    requires Distinct(a) && Distinct(b)
    ensures Dedup(a + b) == a + Minus(b, a)
  {
    if b == [] {
      assert a + b == a;
      DedupDistinct(a);
    } else {
      var init, last := b[..|b| - 1], b[|b| - 1];
      assert b == init + [last];
      DistinctInit(b);
      DedupAppendDistinct(a, init);
      DedupAppendStep(a, init, last);
    }
  }

  lemma {:induction false} DedupAppendStep<T(!new)>(a: seq<T>, init: seq<T>, last: T)
    requires Dedup(a + init) == a + Minus(init, a) && last !in init
    ensures Dedup(a + (init + [last])) == a + Minus(init + [last], a)
  {
    var s, mi := a + init, Minus(init, a);
    assert a + (init + [last]) == s + [last];
    DedupSnoc(s, last);
    MinusSnoc(init, last, a);
    if last in a {
      assert last in Dedup(s);
    } else {
      assert last !in Dedup(s);
      assert a + (mi + [last]) == Dedup(s) + [last];
    }
  }

  /** Dropping the last element keeps a sequence distinct, and that element
      occurs nowhere before it. */
  lemma DistinctInit<T>(b: seq<T>)
    requires Distinct(b) && b != []
    ensures Distinct(b[..|b| - 1]) && b[|b| - 1] !in b[..|b| - 1]
  {
    var init := b[..|b| - 1];
    forall i, j | 0 <= i < j < |init|
      ensures init[i] != init[j]
    {
      assert init[i] == b[i] && init[j] == b[j];
    }
  }

  lemma MinusSnoc<T(!new)>(b: seq<T>, x: T, a: seq<T>)
    ensures Minus(b + [x], a) == Minus(b, a) + (if x in a then [] else [x])
  {
    assert (b + [x])[..|b|] == b;
  }

  /** An element only the second part holds is found after the first part. */
  lemma IndexOfAppendRight<T>(a: seq<T>, b: seq<T>, x: T)
    requires x !in a && x in b
    ensures x in a + b && IndexOf(a + b, x) >= |a|
  {
    var j :| 0 <= j < |b| && b[j] == x;
    assert (a + b)[|a| + j] == x;
  }

  lemma AppendAssoc5<T>(a: seq<T>, b: seq<T>, c: seq<T>, d: seq<T>, e: seq<T>)
    ensures a + b + (c + d + e) == a + b + c + d + e
  {
  }

  /** The prefix as long as the sequence is the sequence. */
  lemma WholePrefix<T>(s: seq<T>)
    ensures s[..|s|] == s
  {
  }

  /** An entry of a sequence without repeats does not occur before its place. */
  lemma DistinctNotBefore<T>(s: seq<T>, j: nat)
    requires Distinct(s) && j < |s|
    ensures s[j] !in s[..j]
  {
    forall i | 0 <= i < j
      ensures s[..j][i] != s[j]
    {
    }
  }

  /** Nor does it occur among the distinct entries before its place. */
  lemma DistinctNotInDedup<T>(s: seq<T>, j: nat)
    requires Distinct(s) && j < |s|
    ensures s[j] !in Dedup(s[..j])
  {
    assert Distinct(s[..j]);
    DedupDistinct(s[..j]);
    DistinctNotBefore(s, j);
  }

  /** The first n entries of a are those of want. */
  ghost predicate Filled<T>(a: seq<T>, want: seq<T>, n: int)
  {
    0 <= n <= |a| && n <= |want| && forall t :: 0 <= t < n ==> a[t] == want[t]
  }

  /** Writing the next entry (or next two) extends what is filled. */
  lemma FilledWrite<T>(a: seq<T>, want: seq<T>, n: int, m: int)
    requires Filled(a, want, n) && n < m <= |a| && m <= |want|
    requires forall t :: n <= t < m ==> a[t] == want[t]
    ensures Filled(a, want, m)
  {
  }
}
