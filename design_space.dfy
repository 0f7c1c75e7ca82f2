/**
  The cartesian product that the four nested loops of `create_tests` walk:
  read rate outermost, then write rate, then latency, capacity innermost.
  Each level is the concatenation, in axis order, of the blocks of the level below.
 */
module DesignSpace {
  import opened CaseNames

  predicate Distinct<T(==)>(s: seq<T>)
  {
    forall i, j | 0 <= i < j < |s| :: s[i] != s[j]
  }

  /** Cases with fixed read rate, write rate and latency, one per capacity. */
  function CapacitySweep(r: int, w: int, l: int, cs: seq<int>): seq<Case>
    decreases |cs|
  {
    if |cs| == 0 then [] else CapacitySweep(r, w, l, cs[..|cs| - 1]) + [Case(r, w, l, cs[|cs| - 1])]
  }

  function LatencySweep(r: int, w: int, ls: seq<int>, cs: seq<int>): seq<Case>
    decreases |ls|
  {
    if |ls| == 0 then [] else LatencySweep(r, w, ls[..|ls| - 1], cs) + CapacitySweep(r, w, ls[|ls| - 1], cs)
  }

  function WriteSweep(r: int, ws: seq<int>, ls: seq<int>, cs: seq<int>): seq<Case>
    decreases |ws|
  {
    if |ws| == 0 then [] else WriteSweep(r, ws[..|ws| - 1], ls, cs) + LatencySweep(r, ws[|ws| - 1], ls, cs)
  }

  /** Every case of the sweep, in the order the loops visit them. */
  function Sweep(rs: seq<int>, ws: seq<int>, ls: seq<int>, cs: seq<int>): seq<Case>
    decreases |rs|
  {
    if |rs| == 0 then [] else Sweep(rs[..|rs| - 1], ws, ls, cs) + WriteSweep(rs[|rs| - 1], ws, ls, cs)
  }

  // ---- arithmetic on block indices ----

  /**
    Multiplication of naturals by repeated addition. The block sizes of the sweep are stated
    with it so that the proofs about lengths and positions stay linear; `TimesIsProduct`
    turns it back into `*` for the statements that matter.
   */
  function Times(n: nat, m: nat): nat
  {
    if n == 0 then 0 else Times(n - 1, m) + m
  }

  lemma {:induction false} TimesIsProduct(n: nat, m: nat)
    ensures Times(n, m) == n * m
  {
    if n > 0 {
      TimesIsProduct(n - 1, m);
      assert (n - 1) * m + m == n * m;
    }
  }

  lemma MulStrict(i: int, j: int, p: int)
    requires 0 <= i < j && p > 0
    ensures i * p < j * p
  {
  }

  lemma MulAssoc(a: int, b: int, c: int, d: int)
    ensures a * (b * (c * d)) == a * b * c * d
  {
  }

  lemma Volume(R: nat, W: nat, L: nat, C: nat)
    ensures Times(R, Times(W, Times(L, C))) == R * W * L * C
  {
    TimesIsProduct(L, C);
    TimesIsProduct(W, L * C);
    TimesIsProduct(R, W * (L * C));
    MulAssoc(R, W, L, C);
  }

  /** Blocks of a positive size `m` start at strictly increasing positions. */
  lemma TimesStrict(i: nat, j: nat, m: nat)
    requires i < j && m > 0
    ensures Times(i, m) < Times(j, m)
  {
    TimesIsProduct(i, m);
    TimesIsProduct(j, m);
    MulStrict(i, j, m);
  }

  lemma TimesPositive(i: nat, m: nat)
    requires i > 0 && m > 0
    ensures Times(i, m) > 0
  {
    TimesStrict(0, i, m);
  }

  // ---- lengths ----

  lemma {:induction false} CapacitySweepLength(r: int, w: int, l: int, cs: seq<int>)
    ensures |CapacitySweep(r, w, l, cs)| == |cs|
    decreases |cs|
  {
    if cs != [] { CapacitySweepLength(r, w, l, cs[..|cs| - 1]); }
  }

  lemma {:induction false} LatencySweepLength(r: int, w: int, ls: seq<int>, cs: seq<int>)
    ensures |LatencySweep(r, w, ls, cs)| == Times(|ls|, |cs|)
    decreases |ls|
  {
    if ls != [] {
      LatencySweepLength(r, w, ls[..|ls| - 1], cs);
      CapacitySweepLength(r, w, ls[|ls| - 1], cs);
    }
  }

  lemma {:induction false} WriteSweepLength(r: int, ws: seq<int>, ls: seq<int>, cs: seq<int>)
    ensures |WriteSweep(r, ws, ls, cs)| == Times(|ws|, Times(|ls|, |cs|))
    decreases |ws|
  {
    if ws != [] {
      WriteSweepLength(r, ws[..|ws| - 1], ls, cs);
      LatencySweepLength(r, ws[|ws| - 1], ls, cs);
    }
  }

  lemma {:induction false} SweepLength(rs: seq<int>, ws: seq<int>, ls: seq<int>, cs: seq<int>)
    ensures |Sweep(rs, ws, ls, cs)| == Times(|rs|, Times(|ws|, Times(|ls|, |cs|)))
    decreases |rs|
  {
    if rs != [] {
      SweepLength(rs[..|rs| - 1], ws, ls, cs);
      WriteSweepLength(rs[|rs| - 1], ws, ls, cs);
    }
  }

  /** The loops produce exactly one case per combination of axis positions. */
  lemma CaseCount(rs: seq<int>, ws: seq<int>, ls: seq<int>, cs: seq<int>)
    ensures |Sweep(rs, ws, ls, cs)| == |rs| * |ws| * |ls| * |cs|
  {
    SweepLength(rs, ws, ls, cs);
    Volume(|rs|, |ws|, |ls|, |cs|);
  }

  // ---- each level distributes over concatenation of its axis ----

  lemma {:induction false} CapacitySweepConcat(r: int, w: int, l: int, cs1: seq<int>, cs2: seq<int>)
    ensures CapacitySweep(r, w, l, cs1 + cs2) == CapacitySweep(r, w, l, cs1) + CapacitySweep(r, w, l, cs2)
    decreases |cs2|
  {
    if cs2 == [] {
      assert cs1 + cs2 == cs1;
    } else {
      var n := |cs2| - 1;
      assert (cs1 + cs2)[..|cs1 + cs2| - 1] == cs1 + cs2[..n];
      CapacitySweepConcat(r, w, l, cs1, cs2[..n]);
    }
  }

  lemma {:induction false} LatencySweepConcat(r: int, w: int, ls1: seq<int>, ls2: seq<int>, cs: seq<int>)
    ensures LatencySweep(r, w, ls1 + ls2, cs) == LatencySweep(r, w, ls1, cs) + LatencySweep(r, w, ls2, cs)
    decreases |ls2|
  {
    if ls2 == [] {
      assert ls1 + ls2 == ls1;
    } else {
      var n := |ls2| - 1;
      assert (ls1 + ls2)[..|ls1 + ls2| - 1] == ls1 + ls2[..n];
      LatencySweepConcat(r, w, ls1, ls2[..n], cs);
    }
  }

  lemma {:induction false} WriteSweepConcat(r: int, ws1: seq<int>, ws2: seq<int>, ls: seq<int>, cs: seq<int>)
    ensures WriteSweep(r, ws1 + ws2, ls, cs) == WriteSweep(r, ws1, ls, cs) + WriteSweep(r, ws2, ls, cs)
    decreases |ws2|
  {
    if ws2 == [] {
      assert ws1 + ws2 == ws1;
    } else {
      var n := |ws2| - 1;
      assert (ws1 + ws2)[..|ws1 + ws2| - 1] == ws1 + ws2[..n];
      assert (ws1 + ws2)[|ws1 + ws2| - 1] == ws2[n];
      var block := LatencySweep(r, ws2[n], ls, cs);
      assert WriteSweep(r, ws1 + ws2, ls, cs) == WriteSweep(r, ws1 + ws2[..n], ls, cs) + block;
      assert WriteSweep(r, ws2, ls, cs) == WriteSweep(r, ws2[..n], ls, cs) + block;
      WriteSweepConcat(r, ws1, ws2[..n], ls, cs);
    }
  }

  lemma {:induction false} SweepConcat(rs1: seq<int>, rs2: seq<int>, ws: seq<int>, ls: seq<int>, cs: seq<int>)
    ensures Sweep(rs1 + rs2, ws, ls, cs) == Sweep(rs1, ws, ls, cs) + Sweep(rs2, ws, ls, cs)
    decreases |rs2|
  {
    if rs2 == [] {
      assert rs1 + rs2 == rs1;
    } else {
      var n := |rs2| - 1;
      assert (rs1 + rs2)[..|rs1 + rs2| - 1] == rs1 + rs2[..n];
      assert (rs1 + rs2)[|rs1 + rs2| - 1] == rs2[n];
      var block := WriteSweep(rs2[n], ws, ls, cs);
      assert Sweep(rs1 + rs2, ws, ls, cs) == Sweep(rs1 + rs2[..n], ws, ls, cs) + block;
      assert Sweep(rs2, ws, ls, cs) == Sweep(rs2[..n], ws, ls, cs) + block;
      SweepConcat(rs1, rs2[..n], ws, ls, cs);
    }
  }

  // ---- each level is its earlier blocks, one block, and its later blocks ----

  lemma CapacitySweepAt(r: int, w: int, l: int, cs: seq<int>, d: nat)
    requires d < |cs|
    ensures |CapacitySweep(r, w, l, cs)| == |cs|
    ensures CapacitySweep(r, w, l, cs)[d] == Case(r, w, l, cs[d])
  {
    assert cs == cs[..d] + [cs[d]] + cs[d + 1..];
    CapacitySweepConcat(r, w, l, cs[..d] + [cs[d]], cs[d + 1..]);
    CapacitySweepConcat(r, w, l, cs[..d], [cs[d]]);
    assert [cs[d]][..0] == [];
    CapacitySweepLength(r, w, l, cs[..d]);
    CapacitySweepLength(r, w, l, cs);
  }

  lemma LatencySplit(r: int, w: int, ls: seq<int>, cs: seq<int>, c: nat)
    requires c < |ls|
    ensures LatencySweep(r, w, ls, cs) == LatencySweep(r, w, ls[..c], cs) + CapacitySweep(r, w, ls[c], cs) + LatencySweep(r, w, ls[c + 1..], cs)
  {
    assert ls == ls[..c] + [ls[c]] + ls[c + 1..];
    LatencySweepConcat(r, w, ls[..c] + [ls[c]], ls[c + 1..], cs);
    LatencySweepConcat(r, w, ls[..c], [ls[c]], cs);
    assert [ls[c]][..0] == [];
  }

  lemma WriteSplit(r: int, ws: seq<int>, ls: seq<int>, cs: seq<int>, b: nat)
    requires b < |ws|
    ensures WriteSweep(r, ws, ls, cs) == WriteSweep(r, ws[..b], ls, cs) + LatencySweep(r, ws[b], ls, cs) + WriteSweep(r, ws[b + 1..], ls, cs)
  {
    assert ws == ws[..b] + [ws[b]] + ws[b + 1..];
    WriteSweepConcat(r, ws[..b] + [ws[b]], ws[b + 1..], ls, cs);
    WriteSweepConcat(r, ws[..b], [ws[b]], ls, cs);
    assert [ws[b]][..0] == [];
  }

  lemma SweepSplit(rs: seq<int>, ws: seq<int>, ls: seq<int>, cs: seq<int>, a: nat)
    requires a < |rs|
    ensures Sweep(rs, ws, ls, cs) == Sweep(rs[..a], ws, ls, cs) + WriteSweep(rs[a], ws, ls, cs) + Sweep(rs[a + 1..], ws, ls, cs)
  {
    assert rs == rs[..a] + [rs[a]] + rs[a + 1..];
    SweepConcat(rs[..a] + [rs[a]], rs[a + 1..], ws, ls, cs);
    SweepConcat(rs[..a], [rs[a]], ws, ls, cs);
    assert [rs[a]][..0] == [];
  }

  // ---- positions: the block of axis position k starts after k whole blocks ----

  lemma BlockAt<T>(whole: seq<T>, before: seq<T>, block: seq<T>, after: seq<T>, offset: nat, j: nat)
    requires whole == before + block + after && |before| == offset && j < |block|
    ensures offset + j < |whole| && whole[offset + j] == block[j]
  {
  }

  /** Capacity varies fastest: the cases of latency `ls[c]` fill positions `c * |cs|` onwards. */
  lemma LatencyBlockAt(r: int, w: int, ls: seq<int>, cs: seq<int>, c: nat, j: nat)
    requires c < |ls| && j < |cs|
    ensures Times(c, |cs|) + j < |LatencySweep(r, w, ls, cs)|
    ensures LatencySweep(r, w, ls, cs)[Times(c, |cs|) + j] == Case(r, w, ls[c], cs[j])
  {
    LatencySplit(r, w, ls, cs, c);
    LatencySweepLength(r, w, ls[..c], cs);
    CapacitySweepAt(r, w, ls[c], cs, j);
    BlockAt(LatencySweep(r, w, ls, cs), LatencySweep(r, w, ls[..c], cs), CapacitySweep(r, w, ls[c], cs),
      LatencySweep(r, w, ls[c + 1..], cs), Times(c, |cs|), j);
  }

  /** The cases of write rate `ws[b]` fill positions `b * |ls| * |cs|` onwards. */
  lemma WriteBlockAt(r: int, ws: seq<int>, ls: seq<int>, cs: seq<int>, b: nat, j: nat)
    requires b < |ws| && j < Times(|ls|, |cs|)
    ensures |LatencySweep(r, ws[b], ls, cs)| == Times(|ls|, |cs|)
    ensures Times(b, Times(|ls|, |cs|)) + j < |WriteSweep(r, ws, ls, cs)|
    ensures WriteSweep(r, ws, ls, cs)[Times(b, Times(|ls|, |cs|)) + j] == LatencySweep(r, ws[b], ls, cs)[j]
  {
    WriteSplit(r, ws, ls, cs, b);
    WriteSweepLength(r, ws[..b], ls, cs);
    LatencySweepLength(r, ws[b], ls, cs);
    BlockAt(WriteSweep(r, ws, ls, cs), WriteSweep(r, ws[..b], ls, cs), LatencySweep(r, ws[b], ls, cs),
      WriteSweep(r, ws[b + 1..], ls, cs), Times(b, Times(|ls|, |cs|)), j);
  }

  /** Read rate varies slowest: the cases of `rs[a]` fill positions `a * |ws| * |ls| * |cs|` onwards. */
  lemma SweepBlockAt(rs: seq<int>, ws: seq<int>, ls: seq<int>, cs: seq<int>, a: nat, j: nat)
    requires a < |rs| && j < Times(|ws|, Times(|ls|, |cs|))
    ensures |WriteSweep(rs[a], ws, ls, cs)| == Times(|ws|, Times(|ls|, |cs|))
    ensures Times(a, Times(|ws|, Times(|ls|, |cs|))) + j < |Sweep(rs, ws, ls, cs)|
    ensures Sweep(rs, ws, ls, cs)[Times(a, Times(|ws|, Times(|ls|, |cs|))) + j] == WriteSweep(rs[a], ws, ls, cs)[j]
  {
    SweepSplit(rs, ws, ls, cs, a);
    SweepLength(rs[..a], ws, ls, cs);
    WriteSweepLength(rs[a], ws, ls, cs);
    BlockAt(Sweep(rs, ws, ls, cs), Sweep(rs[..a], ws, ls, cs), WriteSweep(rs[a], ws, ls, cs),
      Sweep(rs[a + 1..], ws, ls, cs), Times(a, Times(|ws|, Times(|ls|, |cs|))), j);
  }

  /** `LatencyBlockAt` with an ordinary product: position `c * |cs| + j` holds latency `ls[c]`, capacity `cs[j]`. */
  lemma LatencyBlockAtProduct(r: int, w: int, ls: seq<int>, cs: seq<int>, c: nat, j: nat)
    requires c < |ls| && j < |cs|
    ensures 0 <= c * |cs| && c * |cs| + j < |LatencySweep(r, w, ls, cs)|
    ensures LatencySweep(r, w, ls, cs)[c * |cs| + j] == Case(r, w, ls[c], cs[j])
  {
    assert c * |cs| == Times(c, |cs|) by { TimesIsProduct(c, |cs|); }
    LatencyBlockAt(r, w, ls, cs, c, j);
  }

  /** `WriteBlockAt` with ordinary products: write rate `ws[b]` fills positions `b * |ls| * |cs|` onwards. */
  lemma WriteBlockAtProduct(r: int, ws: seq<int>, ls: seq<int>, cs: seq<int>, b: nat, j: nat)
    requires b < |ws| && j < |ls| * |cs|
    ensures |LatencySweep(r, ws[b], ls, cs)| == |ls| * |cs|
    ensures 0 <= b * (|ls| * |cs|) && b * (|ls| * |cs|) + j < |WriteSweep(r, ws, ls, cs)|
    ensures WriteSweep(r, ws, ls, cs)[b * (|ls| * |cs|) + j] == LatencySweep(r, ws[b], ls, cs)[j]
  {
    assert |ls| * |cs| == Times(|ls|, |cs|) by { TimesIsProduct(|ls|, |cs|); }
    assert b * (|ls| * |cs|) == Times(b, Times(|ls|, |cs|)) by { TimesIsProduct(b, |ls| * |cs|); }
    WriteBlockAt(r, ws, ls, cs, b, j);
  }

  /** The nested block sizes written with `Times` are the ordinary products. */
  lemma NestedProduct(a: nat, w: nat, l: nat, c: nat)
    ensures w * (l * c) == Times(w, Times(l, c))
    ensures a * (w * (l * c)) == Times(a, Times(w, Times(l, c)))
  {
    TimesIsProduct(l, c);
    TimesIsProduct(w, l * c);
    TimesIsProduct(a, w * (l * c));
  }

  /** `SweepBlockAt` with ordinary products: read rate `rs[a]` fills positions `a * |ws| * |ls| * |cs|` onwards. */
  lemma SweepBlockAtProduct(rs: seq<int>, ws: seq<int>, ls: seq<int>, cs: seq<int>, a: nat, j: nat)
    requires a < |rs| && j < |ws| * (|ls| * |cs|)
    ensures |WriteSweep(rs[a], ws, ls, cs)| == |ws| * (|ls| * |cs|)
    ensures 0 <= a * (|ws| * (|ls| * |cs|)) && a * (|ws| * (|ls| * |cs|)) + j < |Sweep(rs, ws, ls, cs)|
    ensures Sweep(rs, ws, ls, cs)[a * (|ws| * (|ls| * |cs|)) + j] == WriteSweep(rs[a], ws, ls, cs)[j]
  {
    var offset := a * (|ws| * (|ls| * |cs|));
    SweepSplit(rs, ws, ls, cs, a);
    assert |Sweep(rs[..a], ws, ls, cs)| == offset by {
      SweepLength(rs[..a], ws, ls, cs);
      NestedProduct(a, |ws|, |ls|, |cs|);
    }
    assert |WriteSweep(rs[a], ws, ls, cs)| == |ws| * (|ls| * |cs|) by {
      WriteSweepLength(rs[a], ws, ls, cs);
      NestedProduct(a, |ws|, |ls|, |cs|);
    }
    BlockAt(Sweep(rs, ws, ls, cs), Sweep(rs[..a], ws, ls, cs), WriteSweep(rs[a], ws, ls, cs),
      Sweep(rs[a + 1..], ws, ls, cs), offset, j);
  }

  // ---- which cases the sweep holds ----

  lemma {:induction false} CapacityMembers(r: int, w: int, l: int, cs: seq<int>, x: Case)
    ensures x in CapacitySweep(r, w, l, cs) <==> x.readRate == r && x.writeRate == w && x.latency == l && x.capacity in cs
    decreases |cs|
  {
    if |cs| > 0 {
      var n := |cs| - 1;
      assert cs == cs[..n] + [cs[n]];
      CapacityMembers(r, w, l, cs[..n], x);
    }
  }

  lemma {:induction false} LatencyMembers(r: int, w: int, ls: seq<int>, cs: seq<int>, x: Case)
    ensures x in LatencySweep(r, w, ls, cs) <==> x.readRate == r && x.writeRate == w && x.latency in ls && x.capacity in cs
    decreases |ls|
  {
    if |ls| > 0 {
      var n := |ls| - 1;
      assert ls == ls[..n] + [ls[n]];
      LatencyMembers(r, w, ls[..n], cs, x);
      CapacityMembers(r, w, ls[n], cs, x);
    }
  }

  lemma {:induction false} WriteMembers(r: int, ws: seq<int>, ls: seq<int>, cs: seq<int>, x: Case)
    ensures x in WriteSweep(r, ws, ls, cs) <==> x.readRate == r && x.writeRate in ws && x.latency in ls && x.capacity in cs
    decreases |ws|
  {
    if |ws| > 0 {
      var n := |ws| - 1;
      assert ws == ws[..n] + [ws[n]];
      WriteMembers(r, ws[..n], ls, cs, x);
      LatencyMembers(r, ws[n], ls, cs, x);
    }
  }

  /** A case is swept exactly when each of its four values occurs on its axis. */
  lemma {:induction false} SweepMembers(rs: seq<int>, ws: seq<int>, ls: seq<int>, cs: seq<int>, x: Case)
    ensures x in Sweep(rs, ws, ls, cs) <==> x.readRate in rs && x.writeRate in ws && x.latency in ls && x.capacity in cs
    decreases |rs|
  {
    if |rs| > 0 {
      var n := |rs| - 1;
      assert rs == rs[..n] + [rs[n]];
      SweepMembers(rs[..n], ws, ls, cs, x);
      WriteMembers(rs[n], ws, ls, cs, x);
    }
  }

  // ---- distinct axes give distinct cases ----

  lemma DistinctConcat<T>(p: seq<T>, q: seq<T>)
    requires Distinct(p) && Distinct(q)
    requires forall x :: x in p ==> x !in q
    ensures Distinct(p + q)
  {
    forall i, j | 0 <= i < j < |p + q|
      ensures (p + q)[i] != (p + q)[j]
    {
      if i < |p| && |p| <= j {
        assert (p + q)[i] in p;
        assert (p + q)[j] in q;
      }
    }
  }

  lemma DistinctInit<T>(s: seq<T>)
    requires Distinct(s) && |s| > 0
    ensures Distinct(s[..|s| - 1]) && s[|s| - 1] !in s[..|s| - 1]
  {
  }

  lemma {:induction false} CapacityDistinct(r: int, w: int, l: int, cs: seq<int>)
    requires Distinct(cs)
    ensures Distinct(CapacitySweep(r, w, l, cs))
    decreases |cs|
  {
    if |cs| > 0 {
      var n := |cs| - 1;
      DistinctInit(cs);
      CapacityDistinct(r, w, l, cs[..n]);
      forall x | x in CapacitySweep(r, w, l, cs[..n])
        ensures x !in [Case(r, w, l, cs[n])]
      {
        CapacityMembers(r, w, l, cs[..n], x);
      }
      DistinctConcat(CapacitySweep(r, w, l, cs[..n]), [Case(r, w, l, cs[n])]);
    }
  }

  lemma {:induction false} LatencyDistinct(r: int, w: int, ls: seq<int>, cs: seq<int>)
    requires Distinct(ls) && Distinct(cs)
    ensures Distinct(LatencySweep(r, w, ls, cs))
    decreases |ls|
  {
    if |ls| > 0 {
      var n := |ls| - 1;
      DistinctInit(ls);
      LatencyDistinct(r, w, ls[..n], cs);
      CapacityDistinct(r, w, ls[n], cs);
      forall x | x in LatencySweep(r, w, ls[..n], cs)
        ensures x !in CapacitySweep(r, w, ls[n], cs)
      {
        LatencyMembers(r, w, ls[..n], cs, x);
        CapacityMembers(r, w, ls[n], cs, x);
      }
      DistinctConcat(LatencySweep(r, w, ls[..n], cs), CapacitySweep(r, w, ls[n], cs));
    }
  }

  lemma {:induction false} WriteDistinct(r: int, ws: seq<int>, ls: seq<int>, cs: seq<int>)
    requires Distinct(ws) && Distinct(ls) && Distinct(cs)
    ensures Distinct(WriteSweep(r, ws, ls, cs))
    decreases |ws|
  {
    if |ws| > 0 {
      var n := |ws| - 1;
      DistinctInit(ws);
      WriteDistinct(r, ws[..n], ls, cs);
      LatencyDistinct(r, ws[n], ls, cs);
      forall x | x in WriteSweep(r, ws[..n], ls, cs)
        ensures x !in LatencySweep(r, ws[n], ls, cs)
      {
        WriteMembers(r, ws[..n], ls, cs, x);
        LatencyMembers(r, ws[n], ls, cs, x);
      }
      DistinctConcat(WriteSweep(r, ws[..n], ls, cs), LatencySweep(r, ws[n], ls, cs));
    }
  }

  lemma {:induction false} SweepDistinct(rs: seq<int>, ws: seq<int>, ls: seq<int>, cs: seq<int>)
    requires Distinct(rs) && Distinct(ws) && Distinct(ls) && Distinct(cs)
    ensures Distinct(Sweep(rs, ws, ls, cs))
    decreases |rs|
  {
    if |rs| > 0 {
      var n := |rs| - 1;
      DistinctInit(rs);
      SweepDistinct(rs[..n], ws, ls, cs);
      WriteDistinct(rs[n], ws, ls, cs);
      forall x | x in Sweep(rs[..n], ws, ls, cs)
        ensures x !in WriteSweep(rs[n], ws, ls, cs)
      {
        SweepMembers(rs[..n], ws, ls, cs, x);
        WriteMembers(rs[n], ws, ls, cs, x);
      }
      DistinctConcat(Sweep(rs[..n], ws, ls, cs), WriteSweep(rs[n], ws, ls, cs));
    }
  }

  // ---- a repeated axis value gives a repeated case ----

  lemma RepeatWithin<T>(before: seq<T>, block: seq<T>, after: seq<T>)
    requires !Distinct(block)
    ensures !Distinct(before + block + after)
  {
    var i, j :| 0 <= i < j < |block| && block[i] == block[j];
    assert (before + block + after)[|before| + i] == (before + block + after)[|before| + j];
  }

  lemma CapacityRepeat(r: int, w: int, l: int, cs: seq<int>)
    requires !Distinct(cs)
    ensures !Distinct(CapacitySweep(r, w, l, cs))
  {
    var i, j :| 0 <= i < j < |cs| && cs[i] == cs[j];
    CapacitySweepAt(r, w, l, cs, i);
    CapacitySweepAt(r, w, l, cs, j);
  }

  lemma LatencyRepeat(r: int, w: int, ls: seq<int>, cs: seq<int>)
    requires !Distinct(ls) && |cs| > 0
    ensures !Distinct(LatencySweep(r, w, ls, cs))
  {
    var i, j :| 0 <= i < j < |ls| && ls[i] == ls[j];
    LatencyBlockAt(r, w, ls, cs, i, 0);
    LatencyBlockAt(r, w, ls, cs, j, 0);
    TimesStrict(i, j, |cs|);
  }

  lemma WriteRepeat(r: int, ws: seq<int>, ls: seq<int>, cs: seq<int>)
    requires !Distinct(ws) && |ls| > 0 && |cs| > 0
    ensures !Distinct(WriteSweep(r, ws, ls, cs))
  {
    var i, j :| 0 <= i < j < |ws| && ws[i] == ws[j];
    TimesPositive(|ls|, |cs|);
    WriteBlockAt(r, ws, ls, cs, i, 0);
    WriteBlockAt(r, ws, ls, cs, j, 0);
    TimesStrict(i, j, Times(|ls|, |cs|));
  }

  lemma ReadRepeat(rs: seq<int>, ws: seq<int>, ls: seq<int>, cs: seq<int>)
    requires !Distinct(rs) && |ws| > 0 && |ls| > 0 && |cs| > 0
    ensures !Distinct(Sweep(rs, ws, ls, cs))
  {
    var i, j :| 0 <= i < j < |rs| && rs[i] == rs[j];
    TimesPositive(|ls|, |cs|);
    TimesPositive(|ws|, Times(|ls|, |cs|));
    SweepBlockAt(rs, ws, ls, cs, i, 0);
    SweepBlockAt(rs, ws, ls, cs, j, 0);
    TimesStrict(i, j, Times(|ws|, Times(|ls|, |cs|)));
  }

  lemma LatencyRepeatWithin(r: int, w: int, ls: seq<int>, cs: seq<int>)
    requires |ls| > 0 && !Distinct(CapacitySweep(r, w, ls[0], cs))
    ensures !Distinct(LatencySweep(r, w, ls, cs))
  {
    LatencySplit(r, w, ls, cs, 0);
    RepeatWithin(LatencySweep(r, w, ls[..0], cs), CapacitySweep(r, w, ls[0], cs), LatencySweep(r, w, ls[1..], cs));
  }

  lemma WriteRepeatWithin(r: int, ws: seq<int>, ls: seq<int>, cs: seq<int>)
    requires |ws| > 0 && !Distinct(LatencySweep(r, ws[0], ls, cs))
    ensures !Distinct(WriteSweep(r, ws, ls, cs))
  {
    WriteSplit(r, ws, ls, cs, 0);
    RepeatWithin(WriteSweep(r, ws[..0], ls, cs), LatencySweep(r, ws[0], ls, cs), WriteSweep(r, ws[1..], ls, cs));
  }

  lemma SweepRepeatWithin(rs: seq<int>, ws: seq<int>, ls: seq<int>, cs: seq<int>)
    requires |rs| > 0 && !Distinct(WriteSweep(rs[0], ws, ls, cs))
    ensures !Distinct(Sweep(rs, ws, ls, cs))
  {
    SweepSplit(rs, ws, ls, cs, 0);
    RepeatWithin(Sweep(rs[..0], ws, ls, cs), WriteSweep(rs[0], ws, ls, cs), Sweep(rs[1..], ws, ls, cs));
  }

  /**
    With every axis non-empty, the swept cases are pairwise different exactly when
    no axis repeats a value.
   */
  lemma SweepDistinctIff(rs: seq<int>, ws: seq<int>, ls: seq<int>, cs: seq<int>)
    requires |rs| > 0 && |ws| > 0 && |ls| > 0 && |cs| > 0
    ensures Distinct(Sweep(rs, ws, ls, cs)) <==> Distinct(rs) && Distinct(ws) && Distinct(ls) && Distinct(cs)
  {
    if Distinct(rs) && Distinct(ws) && Distinct(ls) && Distinct(cs) {
      SweepDistinct(rs, ws, ls, cs);
    } else if !Distinct(rs) {
      ReadRepeat(rs, ws, ls, cs);
    } else if !Distinct(ws) {
      WriteRepeat(rs[0], ws, ls, cs);
      SweepRepeatWithin(rs, ws, ls, cs);
    } else if !Distinct(ls) {
      LatencyRepeat(rs[0], ws[0], ls, cs);
      WriteRepeatWithin(rs[0], ws, ls, cs);
      SweepRepeatWithin(rs, ws, ls, cs);
    } else {
      CapacityRepeat(rs[0], ws[0], ls[0], cs);
      LatencyRepeatWithin(rs[0], ws[0], ls, cs);
      WriteRepeatWithin(rs[0], ws, ls, cs);
      SweepRepeatWithin(rs, ws, ls, cs);
    }
  }
}
