/** What the list operations on kvsets leave: contents, positions and order. */
module KvsetLaws {
  import opened Options
  import opened Kvsets

  /** Each kvset is at least as young as those after it. */
  ghost predicate YoungestFirst(ks: seq<Kvset>) {
    forall i, j :: 0 <= i < j < |ks| ==> Younger(ks[i], ks[j])
  }

  /** Rising indices below n. */
  ghost predicate Rising(f: seq<nat>, n: nat) {
    && (forall x :: 0 <= x < |f| ==> f[x] < n)
    && (forall x, y :: 0 <= x < y < |f| ==> f[x] < f[y])
  }

  /** The indices f, and n if it is taken. */
  function Also(f: seq<nat>, take: bool, n: nat): seq<nat> {
    if take then f + [n] else f
  }

  lemma RisingAlso(f: seq<nat>, take: bool, n: nat)
    requires Rising(f, n)
    ensures Rising(Also(f, take, n), n + 1)
    ensures forall i :: i in Also(f, take, n) <==> i in f || (take && i == n)
    ensures n !in f
  {
  }

  // ----- compaction -----

  lemma CompactedOrder(ks: seq<Kvset>, a: nat, b: nat, oldest: bool)
    requires a < b <= |ks| && YoungestFirst(ks)
    ensures YoungestFirst(ks[..a] + Compacted(ks[a..b], oldest) + ks[b..])
  {
    var run, c := ks[a..b], Compacted(ks[a..b], oldest);
    MinLoIsOldest(run);
    if c == [] {
      assert ks[..a] + c + ks[b..] == ks[..a] + ks[b..];
    } else {
      SlottedIn(ks, a, b, c[0]);
      assert c == [c[0]];
    }
  }

  /** In an ordered list the kvset that stands for a run has the run's largest dgen. */
  lemma StandsForNewest(c: Kvset, run: seq<Kvset>, oldest: bool, i: nat)
    requires StandsFor(c, run, oldest) && YoungestFirst(run) && i < |run|
    ensures c.lo <= run[i].lo && run[i].dgen <= c.dgen
  {
    assert i > 0 ==> Younger(run[0], run[i]);
  }

  lemma SlottedIn(ks: seq<Kvset>, a: nat, b: nat, c: Kvset)
    requires a < b <= |ks| && YoungestFirst(ks) && c.dgen == ks[a].dgen && OldestLo(ks[a..b], c.lo)
    ensures YoungestFirst(ks[..a] + [c] + ks[b..])
  {
    assert ks[a..b][0] == ks[a];
    forall i | 0 <= i < a ensures Younger(ks[i], c) { assert Younger(ks[i], ks[a]); }
    var x :| 0 <= x < |ks[a..b]| && ks[a..b][x].lo == c.lo;
    assert ks[a + x].lo == c.lo;
    forall i | b <= i < |ks| ensures Younger(c, ks[i]) {
      assert Younger(ks[a], ks[i]) && Younger(ks[a + x], ks[i]);
      assert a < a + x ==> Younger(ks[a], ks[a + x]);
    }
  }

  // ----- cutting out a key range -----

  ghost predicate PieceOf(c: Kvset, ks: Kvset, lo: real, hi: real) {
    && c.dgen == ks.dgen && c.lo == ks.lo
    && (forall k :: k in c.data <==> k in ks.data && lo < k <= hi)
    && (forall k :: k in c.data ==> c.data[k] == ks.data[k])
  }

  predicate HasKey(ks: Kvset, lo: real, hi: real) {
    exists k :: k in ks.data && lo < k <= hi
  }

  /** out[x] is the piece of ks[f[x]] in the range; exactly the kvsets with a key in the range
      have one. */
  ghost predicate PiecesAt(f: seq<nat>, ks: seq<Kvset>, lo: real, hi: real, out: seq<Kvset>) {
    && |f| == |out| && Rising(f, |ks|)
    && (forall x :: 0 <= x < |f| ==> PieceOf(out[x], ks[f[x]], lo, hi))
    && (forall i :: 0 <= i < |ks| ==> (i in f <==> HasKey(ks[i], lo, hi)))
  }

  lemma {:induction false} CutConcat(a: seq<Kvset>, b: seq<Kvset>, lo: real, hi: real)
    ensures Cut(a + b, lo, hi) == Cut(a, lo, hi) + Cut(b, lo, hi)
  {
    if a == [] {
      assert a + b == b;
    } else {
      assert (a + b)[1..] == a[1..] + b;
      CutConcat(a[1..], b, lo, hi);
    }
  }

  lemma CutOne(c: Kvset, lo: real, hi: real)
    ensures if HasKey(c, lo, hi) then |Cut([c], lo, hi)| == 1 && PieceOf(Cut([c], lo, hi)[0], c, lo, hi)
            else Cut([c], lo, hi) == []
  {
    var d := Window(c.data, lo, hi);
    assert [c][1..] == [];
    if HasKey(c, lo, hi) {
      var k :| k in c.data && lo < k <= hi;
      assert k in d;
    } else {
      assert d == map[];
    }
  }

  /** A split keeps of each kvset exactly the keys in the range, in the order of the list. */
  lemma {:induction false} CutExactly(ks: seq<Kvset>, lo: real, hi: real) returns (f: seq<nat>)
    ensures PiecesAt(f, ks, lo, hi, Cut(ks, lo, hi))
  {
    f := [];
    if ks != [] {
      var n := |ks| - 1;
      var g := CutExactly(ks[..n], lo, hi);
      assert ks == ks[..n] + [ks[n]];
      CutConcat(ks[..n], [ks[n]], lo, hi);
      CutOne(ks[n], lo, hi);
      f := MorePieces(g, ks, lo, hi, Cut(ks[..n], lo, hi), Cut([ks[n]], lo, hi));
    }
  }

  lemma MorePieces(g: seq<nat>, ks: seq<Kvset>, lo: real, hi: real, a: seq<Kvset>, b: seq<Kvset>) returns (f: seq<nat>)
    requires ks != [] && PiecesAt(g, ks[..|ks| - 1], lo, hi, a)
    requires var c := ks[|ks| - 1];
      if HasKey(c, lo, hi) then |b| == 1 && PieceOf(b[0], c, lo, hi) else b == []
    ensures PiecesAt(f, ks, lo, hi, a + b)
  {
    var n := |ks| - 1;
    f := Also(g, HasKey(ks[n], lo, hi), n);
    RisingAlso(g, HasKey(ks[n], lo, hi), n);
    forall i | 0 <= i < |ks| ensures i in f <==> HasKey(ks[i], lo, hi) {
      assert i < n ==> (i in g <==> HasKey(ks[..n][i], lo, hi));
    }
    forall x | 0 <= x < |f| ensures PieceOf((a + b)[x], ks[f[x]], lo, hi) {
      assert x < |g| ==> PieceOf(a[x], ks[..n][g[x]], lo, hi);
    }
  }

  lemma CutOrder(ks: seq<Kvset>, lo: real, hi: real)
    requires YoungestFirst(ks)
    ensures YoungestFirst(Cut(ks, lo, hi))
  {
    var f := CutExactly(ks, lo, hi);
    var c := Cut(ks, lo, hi);
    forall i, j | 0 <= i < j < |c| ensures Younger(c[i], c[j]) {
      assert Younger(ks[f[i]], ks[f[j]]) && PieceOf(c[i], ks[f[i]], lo, hi) && PieceOf(c[j], ks[f[j]], lo, hi);
    }
  }

  // ----- what a subspill does not skip -----

  ghost predicate NewerAt(f: seq<nat>, ks: seq<Kvset>, g: nat, out: seq<Kvset>) {
    && |f| == |out| && Rising(f, |ks|)
    && (forall x :: 0 <= x < |f| ==> out[x] == ks[f[x]])
    && (forall i :: 0 <= i < |ks| ==> (i in f <==> ks[i].dgen > g))
  }

  lemma {:induction false} NewerConcat(a: seq<Kvset>, b: seq<Kvset>, g: nat)
    ensures NewerThan(a + b, g) == NewerThan(a, g) + NewerThan(b, g)
  {
    if a == [] {
      assert a + b == b;
    } else {
      assert (a + b)[1..] == a[1..] + b;
      NewerConcat(a[1..], b, g);
    }
  }

  /** A subspill is built from exactly the inputs younger than the leaf's newest kvset. */
  lemma {:induction false} NewerExactly(ks: seq<Kvset>, g: nat) returns (f: seq<nat>)
    ensures NewerAt(f, ks, g, NewerThan(ks, g))
  {
    f := [];
    if ks != [] {
      var n := |ks| - 1;
      var h := NewerExactly(ks[..n], g);
      assert ks == ks[..n] + [ks[n]];
      NewerConcat(ks[..n], [ks[n]], g);
      assert NewerThan([ks[n]], g) == if ks[n].dgen > g then [ks[n]] else [] by { assert [ks[n]][1..] == []; }
      f := Also(h, ks[n].dgen > g, n);
      MoreNewer(h, ks, g, NewerThan(ks[..n], g), NewerThan([ks[n]], g));
    }
  }

  lemma MoreNewer(h: seq<nat>, ks: seq<Kvset>, g: nat, a: seq<Kvset>, b: seq<Kvset>)
    requires ks != [] && NewerAt(h, ks[..|ks| - 1], g, a)
    requires var n := |ks| - 1; b == if ks[n].dgen > g then [ks[n]] else []
    ensures var n := |ks| - 1; NewerAt(Also(h, ks[n].dgen > g, n), ks, g, a + b)
  {
    var n := |ks| - 1;
    var f := Also(h, ks[n].dgen > g, n);
    RisingAlso(h, ks[n].dgen > g, n);
    forall i | 0 <= i < |ks| ensures i in f <==> ks[i].dgen > g {
      assert i < n ==> (i in h <==> ks[..n][i].dgen > g);
    }
    forall x | 0 <= x < |f| ensures (a + b)[x] == ks[f[x]] {
      assert x < |h| ==> a[x] == ks[..n][h[x]];
    }
  }

  // ----- cn_move -----

  /** Where the kvsets of both lists end up: each list keeps its order, and together they fill
      the result. */
  ghost predicate Riffled(p: seq<nat>, q: seq<nat>, src: seq<Kvset>, tgt: seq<Kvset>, out: seq<Kvset>) {
    && |p| == |src| && |q| == |tgt| && |out| == |src| + |tgt| && Rising(p, |out|) && Rising(q, |out|)
    && (forall x :: 0 <= x < |p| ==> out[p[x]] == src[x])
    && (forall x :: 0 <= x < |q| ==> out[q[x]] == tgt[x])
    && (forall x, y :: 0 <= x < |p| && 0 <= y < |q| ==> p[x] != q[y])
  }

  function Upped(p: seq<nat>): (r: seq<nat>)
    ensures |r| == |p| && forall x :: 0 <= x < |p| ==> r[x] == p[x] + 1
  {
    seq(|p|, x requires 0 <= x < |p| => p[x] + 1)
  }

  lemma RisingUpped(p: seq<nat>, n: nat)
    requires Rising(p, n)
    ensures Rising(Upped(p), n + 1) && Rising([0] + Upped(p), n + 1)
  {
    var p' := [0] + Upped(p);
    forall x, y | 0 <= x < y < |p'| ensures p'[x] < p'[y] {
      if x > 0 { assert p[x - 1] < p[y - 1]; }
    }
  }

  lemma RiffleOne(h: Kvset, p: seq<nat>, q: seq<nat>, src: seq<Kvset>, tgt: seq<Kvset>, out: seq<Kvset>)
    requires Riffled(p, q, src, tgt, out)
    ensures Riffled([0] + Upped(p), Upped(q), [h] + src, tgt, [h] + out)
  {
    var p', q', out' := [0] + Upped(p), Upped(q), [h] + out;
    RisingUpped(p, |out|);
    RisingUpped(q, |out|);
    forall x | 0 <= x < |p'| ensures out'[p'[x]] == ([h] + src)[x] {
      if x > 0 { assert p'[x] == p[x - 1] + 1; }
    }
    forall x | 0 <= x < |q'| ensures out'[q'[x]] == tgt[x] { assert q'[x] == q[x] + 1; }
    forall x, y | 0 <= x < |p'| && 0 <= y < |q'| ensures p'[x] != q'[y] {
      if x > 0 { assert p[x - 1] != q[y]; }
    }
  }

  lemma RiffledSwap(p: seq<nat>, q: seq<nat>, src: seq<Kvset>, tgt: seq<Kvset>, out: seq<Kvset>)
    requires Riffled(p, q, src, tgt, out)
    ensures Riffled(q, p, tgt, src, out)
  {
  }

  lemma {:induction false} MovedPositions(src: seq<Kvset>, tgt: seq<Kvset>) returns (p: seq<nat>, q: seq<nat>)
    ensures Riffled(p, q, src, tgt, MoveInto(src, tgt))
    decreases |src| + |tgt|
  {
    if src == [] {
      p, q := [], seq(|tgt|, x => x);
    } else if tgt == [] {
      p, q := seq(|src|, x => x), [];
    } else if Younger(src[0], tgt[0]) {
      var p', q' := MovedPositions(src[1..], tgt);
      RiffleOne(src[0], p', q', src[1..], tgt, MoveInto(src[1..], tgt));
      p, q := [0] + Upped(p'), Upped(q');
      assert src == [src[0]] + src[1..];
    } else {
      var p', q' := MovedPositions(src, tgt[1..]);
      var out := MoveInto(src, tgt[1..]);
      RiffledSwap(p', q', src, tgt[1..], out);
      RiffleOne(tgt[0], q', p', tgt[1..], src, out);
      p, q := Upped(p'), [0] + Upped(q');
      assert tgt == [tgt[0]] + tgt[1..];
      RiffledSwap(q, p, tgt, src, [tgt[0]] + out);
    }
  }

  lemma {:induction false} MoveOrder(src: seq<Kvset>, tgt: seq<Kvset>)
    requires YoungestFirst(src) && YoungestFirst(tgt)
    ensures YoungestFirst(MoveInto(src, tgt))
    decreases |src| + |tgt|
  {
    if src != [] && tgt != [] {
      if Younger(src[0], tgt[0]) {
        MoveOrder(src[1..], tgt);
        HeadFirst(src[0], src[1..], tgt);
      } else {
        MoveOrder(src, tgt[1..]);
        HeadFirst(tgt[0], src, tgt[1..]);
      }
    }
  }

  lemma HeadFirst(h: Kvset, src: seq<Kvset>, tgt: seq<Kvset>)
    requires YoungestFirst(MoveInto(src, tgt))
    requires (forall i :: 0 <= i < |src| ==> Younger(h, src[i])) && forall i :: 0 <= i < |tgt| ==> Younger(h, tgt[i])
    ensures YoungestFirst([h] + MoveInto(src, tgt))
  {
    forall i | 0 <= i < |MoveInto(src, tgt)| ensures Younger(h, MoveInto(src, tgt)[i]) {
      MovedFrom(src, tgt, i);
    }
  }
}
