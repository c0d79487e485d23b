/**
 Space-amplification statistics of a tree: per-node sums, kept incrementally on ingest and
 recomputed on compaction, and the totals of the tree.

 The estimates of compacted lengths and of distinct keys come from outside: how much space
 key and value data of some length will take, and how many distinct keys a sketch stands for.
 */
module TreeSamp {
  /** The statistics of a kvset, and their sums. */
  datatype Kst = Kst(keys: nat, halen: nat, kalen: nat, kwlen: nat, valen: nat, vulen: nat, vgarb: nat)

  const ZERO: Kst := Kst(0, 0, 0, 0, 0, 0, 0)

  function Plus(a: Kst, b: Kst): Kst {
    Kst(a.keys + b.keys, a.halen + b.halen, a.kalen + b.kalen, a.kwlen + b.kwlen, a.valen + b.valen, a.vulen + b.vulen,
        a.vgarb + b.vgarb)
  }

  datatype Kvset = Kvset(dgen: nat, kst: Kst, hlog: set<int>)

  datatype Stats = Stats(rAlen: int, lAlen: int, lGood: int, lVgarb: int)

  const NOTHING: Stats := Stats(0, 0, 0, 0)

  function Add(a: Stats, b: Stats): Stats {
    Stats(a.rAlen + b.rAlen, a.lAlen + b.lAlen, a.lGood + b.lGood, a.lVgarb + b.lVgarb)
  }

  function Sub(a: Stats, b: Stats): Stats {
    Stats(a.rAlen - b.rAlen, a.lAlen - b.lAlen, a.lGood - b.lGood, a.lVgarb - b.lVgarb)
  }

  /** kvsets newest first; the rest is kept up to date: the sums, the union of the sketches,
      the node's share of the tree's statistics, and the largest dgen counted. */
  datatype Node = Node(leaf: bool, kvsets: seq<Kvset>, kst: Kst, hlog: set<int>, samp: Stats, incrDgen: nat)

  /** The estimates. */
  datatype Est = Est(kbb: nat -> nat, vbb: nat -> nat, card: set<int> -> nat)

  // ----- full recomputation -----

  function Sum(ks: seq<Kvset>): Kst {
    if ks == [] then ZERO else Plus(ks[0].kst, Sum(ks[1..]))
  }

  function Union(ks: seq<Kvset>): set<int> {
    if ks == [] then {} else ks[0].hlog + Union(ks[1..])
  }

  function MaxDgen(ks: seq<Kvset>): nat {
    if ks == [] then 0 else var m := MaxDgen(ks[1..]); if m < ks[0].dgen then ks[0].dgen else m
  }

  function Min(a: nat, b: nat): nat {
    if a < b then a else b
  }

  const PCT_SCALE: nat := 1024

  /** The node's share, from its sums. */
  function Finish(est: Est, leaf: bool, kst: Kst, hlog: set<int>): Stats {
    var uniq := if leaf then Min(est.card(hlog), kst.keys) else kst.keys;
    var pct := if kst.keys > 0 then PCT_SCALE * uniq / kst.keys else PCT_SCALE;
    var kclen := Min(est.kbb(kst.kwlen * pct / PCT_SCALE), kst.kalen);
    var vclen := Min(est.vbb(kst.vulen * pct / PCT_SCALE), kst.valen);
    var alen, clen := kst.halen + kst.kalen + kst.valen, kst.halen + kclen + vclen;
    if leaf then Stats(0, alen, clen, kst.vgarb) else Stats(alen, 0, 0, 0)
  }

  /** The node's statistics are what its kvsets give. */
  ghost predicate Current(est: Est, n: Node) {
    && n.kst == Sum(n.kvsets) && n.incrDgen == MaxDgen(n.kvsets)
    && (n.leaf ==> n.hlog == Union(n.kvsets))
    && n.samp == Finish(est, n.leaf, n.kst, n.hlog)
  }

  lemma EmptyIsCurrent(est: Est, leaf: bool)
    ensures Current(est, Node(leaf, [], ZERO, {}, NOTHING, 0))
  {
  }

  // ----- what the statistics count -----

  datatype Quantity = Keys | Halen | Kalen | Kwlen | Valen | Vulen | Vgarb

  function Of(k: Kst, q: Quantity): nat {
    match q
    case Keys => k.keys
    case Halen => k.halen
    case Kalen => k.kalen
    case Kwlen => k.kwlen
    case Valen => k.valen
    case Vulen => k.vulen
    case Vgarb => k.vgarb
  }

  function SumOf(ks: seq<Kvset>, q: Quantity): nat {
    if ks == [] then 0 else Of(ks[0].kst, q) + SumOf(ks[1..], q)
  }

  lemma {:induction false} SumIsExact(ks: seq<Kvset>, q: Quantity)
    ensures Of(Sum(ks), q) == SumOf(ks, q)
  {
    if ks != [] { SumIsExact(ks[1..], q); }
  }

  predicate Sketched(ks: seq<Kvset>, x: int) {
    exists i :: 0 <= i < |ks| && x in ks[i].hlog
  }

  lemma {:induction false} UnionIsExact(ks: seq<Kvset>, x: int)
    ensures x in Union(ks) <==> Sketched(ks, x)
  {
    if ks != [] {
      UnionIsExact(ks[1..], x);
      if x in Union(ks[1..]) {
        var i :| 0 <= i < |ks[1..]| && x in ks[1..][i].hlog;
        assert x in ks[i + 1].hlog;
      }
      if i :| 0 <= i < |ks| && x in ks[i].hlog {
        assert i > 0 ==> x in ks[1..][i - 1].hlog;
      }
    }
  }

  ghost predicate Newest(ks: seq<Kvset>, g: nat) {
    && (forall i :: 0 <= i < |ks| ==> ks[i].dgen <= g)
    && (ks != [] ==> exists i :: 0 <= i < |ks| && ks[i].dgen == g) && (ks == [] ==> g == 0)
  }

  lemma {:induction false} MaxIsNewest(ks: seq<Kvset>)
    ensures Newest(ks, MaxDgen(ks))
  {
    if ks != [] {
      MaxIsNewest(ks[1..]);
      forall i | 0 <= i < |ks| ensures ks[i].dgen <= MaxDgen(ks) {
        if i > 0 { assert ks[1..][i - 1] == ks[i]; }
      }
      if MaxDgen(ks) == ks[0].dgen {
      } else {
        var i :| 0 <= i < |ks[1..]| && ks[1..][i].dgen == MaxDgen(ks[1..]);
        assert ks[i + 1].dgen == MaxDgen(ks);
      }
    }
  }

  /** r is len, scaled by the share of distinct keys in steps of 1/1024, rounded down twice. */
  ghost predicate ScaledBy(len: nat, uniq: nat, keys: nat, pct: nat, r: nat) {
    && (keys > 0 ==> pct * keys <= PCT_SCALE * uniq < pct * keys + keys)
    && (keys == 0 ==> pct == PCT_SCALE)
    && r * PCT_SCALE <= len * pct < r * PCT_SCALE + PCT_SCALE
  }

  /** The share of a node: a leaf's allocated space counts as leaf space, of which good is the
      header space and the estimates for the lengths of the distinct keys and their values,
      but at most what is allocated for them; the root's counts as root space only. */
  ghost predicate IsShare(est: Est, leaf: bool, kst: Kst, hlog: set<int>, s: Stats) {
    var alen := kst.halen + kst.kalen + kst.valen;
    if !leaf then s == Stats(alen, 0, 0, 0)
    else
      && s.rAlen == 0 && s.lAlen == alen && s.lVgarb == kst.vgarb
      && exists pct: nat, k: nat, v: nat :: GoodIs(est, kst, hlog, s.lGood, pct, k, v)
  }

  ghost predicate GoodIs(est: Est, kst: Kst, hlog: set<int>, good: int, pct: nat, k: nat, v: nat) {
    var uniq := if est.card(hlog) < kst.keys then est.card(hlog) else kst.keys;
    && ScaledBy(kst.kwlen, uniq, kst.keys, pct, k) && ScaledBy(kst.vulen, uniq, kst.keys, pct, v)
    && good == kst.halen + Min(est.kbb(k), kst.kalen) + Min(est.vbb(v), kst.valen)
  }

  lemma Divided(n: nat, d: nat)
    requires d > 0
    ensures (n / d) * d <= n < (n / d) * d + d
  {
  }

  lemma FinishIsShare(est: Est, leaf: bool, kst: Kst, hlog: set<int>)
    ensures IsShare(est, leaf, kst, hlog, Finish(est, leaf, kst, hlog))
  {
    if leaf {
      var uniq := Min(est.card(hlog), kst.keys);
      var pct: nat := if kst.keys > 0 then PCT_SCALE * uniq / kst.keys else PCT_SCALE;
      if kst.keys > 0 { Divided(PCT_SCALE * uniq, kst.keys); }
      var k, v := kst.kwlen * pct / PCT_SCALE, kst.vulen * pct / PCT_SCALE;
      Divided(kst.kwlen * pct, PCT_SCALE);
      Divided(kst.vulen * pct, PCT_SCALE);
      assert GoodIs(est, kst, hlog, Finish(est, leaf, kst, hlog).lGood, pct, k, v);
    }
  }

  /** Current statistics, counted field by field. */
  ghost predicate Counts(est: Est, n: Node) {
    && (forall q :: Of(n.kst, q) == SumOf(n.kvsets, q)) && Newest(n.kvsets, n.incrDgen)
    && (n.leaf ==> forall x :: x in n.hlog <==> Sketched(n.kvsets, x))
    && IsShare(est, n.leaf, n.kst, n.hlog, n.samp)
  }

  lemma CurrentCounts(est: Est, n: Node)
    requires Current(est, n)
    ensures Counts(est, n)
  {
    forall q ensures Of(n.kst, q) == SumOf(n.kvsets, q) { SumIsExact(n.kvsets, q); }
    MaxIsNewest(n.kvsets);
    if n.leaf {
      forall x ensures x in n.hlog <==> Sketched(n.kvsets, x) { UnionIsExact(n.kvsets, x); }
    }
    FinishIsShare(est, n.leaf, n.kst, n.hlog);
  }

  // ----- how good data depends on distinct keys -----

  lemma MulUp(a: nat, b: nat, c: nat)
    requires a <= b
    ensures a * c <= b * c
  {
    assert b * c - a * c == (b - a) * c;
  }

  lemma OneMore(p: nat, q: nat, d: nat)
    requires p > q
    ensures p * d >= q * d + d
  {
    MulUp(q + 1, p, d);
    assert (q + 1) * d == q * d + d;
  }

  lemma DivUp(a: nat, b: nat, d: nat)
    requires a <= b && d > 0
    ensures a / d <= b / d
  {
    Divided(a, d);
    Divided(b, d);
    if a / d > b / d {
      OneMore(a / d, b / d, d);
      assert false;
    }
  }

  lemma WholeShare(q: nat, d: nat)
    requires d > 0
    ensures q * d / d == q
  {
    var r := q * d / d;
    Divided(q * d, d);
    if r > q {
      OneMore(r, q, d);
      assert false;
    } else if q > r {
      OneMore(q, r, d);
      assert false;
    }
  }

  /** Without repeated keys, and with estimates not below what is allocated, all leaf data is
      good. */
  lemma AllGood(est: Est, kst: Kst, hlog: set<int>)
    requires kst.keys <= est.card(hlog) && kst.kalen <= est.kbb(kst.kwlen) && kst.valen <= est.vbb(kst.vulen)
    ensures var s := Finish(est, true, kst, hlog); s.lGood == s.lAlen
  {
    if kst.keys > 0 { WholeShare(PCT_SCALE, kst.keys); }
    WholeShare(kst.kwlen, PCT_SCALE);
    WholeShare(kst.vulen, PCT_SCALE);
  }

  ghost predicate Monotone(f: nat -> nat) {
    forall a: nat, b: nat :: a <= b ==> f(a) <= f(b)
  }

  /** The fewer distinct keys, the less of the same data is good. */
  lemma FewerKeysLessGood(est: Est, kst: Kst, h: set<int>, h': set<int>)
    requires Monotone(est.kbb) && Monotone(est.vbb) && est.card(h) <= est.card(h')
    ensures Finish(est, true, kst, h).lGood <= Finish(est, true, kst, h').lGood
  {
    var u, u' := Min(est.card(h), kst.keys), Min(est.card(h'), kst.keys);
    if kst.keys > 0 {
      var p: nat, p': nat := PCT_SCALE * u / kst.keys, PCT_SCALE * u' / kst.keys;
      DivUp(PCT_SCALE * u, PCT_SCALE * u', kst.keys);
      ScaledUp(kst.kwlen, p, p');
      ScaledUp(kst.vulen, p, p');
      assert est.kbb(kst.kwlen * p / PCT_SCALE) <= est.kbb(kst.kwlen * p' / PCT_SCALE);
      assert est.vbb(kst.vulen * p / PCT_SCALE) <= est.vbb(kst.vulen * p' / PCT_SCALE);
    }
  }

  lemma ScaledUp(len: nat, p: nat, p': nat)
    requires p <= p'
    ensures len * p / PCT_SCALE <= len * p' / PCT_SCALE
  {
    MulUp(p, p', len);
    DivUp(len * p, len * p', PCT_SCALE);
  }

  // ----- the tree's totals -----

  function Total(nodes: seq<Node>): Stats {
    if nodes == [] then NOTHING else Add(nodes[0].samp, Total(nodes[1..]))
  }

  datatype Part = RootAlloc | LeafAlloc | LeafGood | LeafGarbage

  function PartOf(s: Stats, p: Part): int {
    match p
    case RootAlloc => s.rAlen
    case LeafAlloc => s.lAlen
    case LeafGood => s.lGood
    case LeafGarbage => s.lVgarb
  }

  function SumParts(nodes: seq<Node>, p: Part): int {
    if nodes == [] then 0 else PartOf(nodes[0].samp, p) + SumParts(nodes[1..], p)
  }

  /** Each total is the sum over the nodes. */
  lemma {:induction false} TotalIsExact(nodes: seq<Node>, p: Part)
    ensures PartOf(Total(nodes), p) == SumParts(nodes, p)
  {
    if nodes != [] { TotalIsExact(nodes[1..], p); }
  }

  lemma {:induction false} SumSnoc(ks: seq<Kvset>, k: Kvset)
    ensures Sum(ks + [k]) == Plus(Sum(ks), k.kst) && Union(ks + [k]) == Union(ks) + k.hlog
    ensures MaxDgen(ks + [k]) == if MaxDgen(ks) < k.dgen then k.dgen else MaxDgen(ks)
  {
    if ks == [] {
      assert (ks + [k])[1..] == [];
    } else {
      assert (ks + [k])[1..] == ks[1..] + [k];
      SumSnoc(ks[1..], k);
    }
  }

  lemma {:induction false} TotalUpdate(nodes: seq<Node>, i: nat, n: Node)
    requires i < |nodes|
    ensures Total(nodes[i := n]) == Add(Sub(Total(nodes), nodes[i].samp), n.samp)
  {
    if i == 0 {
      assert nodes[i := n][1..] == nodes[1..];
    } else {
      assert nodes[i := n][1..] == nodes[1..][i - 1 := n];
      TotalUpdate(nodes[1..], i - 1, n);
    }
  }

  /** The list with node i replaced by two. */
  function Doubled(nodes: seq<Node>, i: nat, l: Node, r: Node): seq<Node>
    requires i < |nodes|
  {
    nodes[..i] + [l, r] + nodes[i + 1..]
  }

  function Without(nodes: seq<Node>, i: nat): seq<Node>
    requires i < |nodes|
  {
    nodes[..i] + nodes[i + 1..]
  }

  lemma DoubledAt(nodes: seq<Node>, i: nat, l: Node, r: Node, x: nat)
    requires i < |nodes| && x <= |nodes|
    ensures |Doubled(nodes, i, l, r)| == |nodes| + 1
    ensures Doubled(nodes, i, l, r)[x] ==
      if x < i then nodes[x] else if x == i then l else if x == i + 1 then r else nodes[x - 1]
  {
  }

  lemma {:induction false} TotalDoubled(nodes: seq<Node>, i: nat, l: Node, r: Node)
    requires i < |nodes|
    ensures Total(Doubled(nodes, i, l, r)) == Add(Add(Sub(Total(nodes), nodes[i].samp), r.samp), l.samp)
  {
    var nodes' := Doubled(nodes, i, l, r);
    if i == 0 {
      assert nodes'[0] == l && nodes'[1..] == [r] + nodes[1..] && nodes'[1..][1..] == nodes[1..];
    } else {
      assert nodes'[0] == nodes[0] && nodes'[1..] == Doubled(nodes[1..], i - 1, l, r);
      TotalDoubled(nodes[1..], i - 1, l, r);
    }
  }

  /** Two nodes in the place of one; r may be out of date. */
  lemma DoubledIsCurrent(est: Est, nodes: seq<Node>, i: nat, l: Node, r: Node)
    requires i < |nodes| && Current(est, l) && forall x :: 0 <= x < |nodes| ==> Current(est, nodes[x])
    ensures |Doubled(nodes, i, l, r)| == |nodes| + 1
    ensures forall x :: 0 <= x <= |nodes| && x != i + 1 ==> Current(est, Doubled(nodes, i, l, r)[x])
    ensures Doubled(nodes, i, l, r)[i] == l && Doubled(nodes, i, l, r)[i + 1] == r
  {
    DoubledAt(nodes, i, l, r, i);
    DoubledAt(nodes, i, l, r, i + 1);
    forall x | 0 <= x <= |nodes| && x != i + 1 ensures Current(est, Doubled(nodes, i, l, r)[x]) {
      DoubledAt(nodes, i, l, r, x);
    }
  }

  /** rest is the list without node i. */
  ghost predicate IsWithout(nodes: seq<Node>, i: nat, rest: seq<Node>) {
    i < |nodes| == |rest| + 1 && forall x :: 0 <= x < |rest| ==> rest[x] == nodes[if x < i then x else x + 1]
  }

  lemma WithoutIs(nodes: seq<Node>, i: nat)
    requires i < |nodes|
    ensures IsWithout(nodes, i, Without(nodes, i))
  {
  }

  lemma {:induction false} TotalWithout(nodes: seq<Node>, i: nat, rest: seq<Node>)
    requires IsWithout(nodes, i, rest)
    ensures Total(rest) == Sub(Total(nodes), nodes[i].samp)
    ensures nodes[i].samp == NOTHING ==> Total(rest) == Total(nodes)
  {
    if i == 0 {
      assert rest == nodes[1..];
    } else {
      TotalWithout(nodes[1..], i - 1, rest[1..]);
    }
  }

  lemma EmptyHasNoShare(est: Est, n: Node)
    requires Current(est, n) && n.leaf && n.kvsets == []
    ensures n.samp == NOTHING
  {
  }

  // ----- updates -----

  class Tree {
    const est: Est
    var nodes: seq<Node>
    var samp: Stats

    ghost predicate Valid()
      reads this
    {
      (forall i :: 0 <= i < |nodes| ==> Current(est, nodes[i])) && samp == Total(nodes)
    }

    /** The same, except that node j may be out of date. */
    ghost predicate CurrentBut(j: nat)
      reads this
    {
      (forall i :: 0 <= i < |nodes| && i != j ==> Current(est, nodes[i])) && samp == Total(nodes)
    }

    /** The statistics of a tree as it is loaded. */
    constructor (est: Est, lists: seq<(bool, seq<Kvset>)>)
      ensures Valid() && this.est == est && |nodes| == |lists|
      ensures forall i :: 0 <= i < |nodes| ==> nodes[i].leaf == lists[i].0 && nodes[i].kvsets == lists[i].1
    {
      this.est := est;
      nodes, samp := [], NOTHING;
      new;
      for i := 0 to |lists|
        invariant Valid() && this.est == est && |nodes| == i
        invariant forall j :: 0 <= j < i ==> nodes[j].leaf == lists[j].0 && nodes[j].kvsets == lists[j].1
      {
        var n := Recount(est, lists[i].0, lists[i].1);
        TotalAppend(nodes, n);
        nodes, samp := nodes + [n], Add(samp, n.samp);
      }
    }

    /** A kvset was added at the head of a node.  Only a kvset newer than all counted so far is
        counted. */
    method UpdateIngest(i: nat, k: Kvset)
      requires Valid() && i < |nodes|
      modifies this
      ensures |nodes| == |old(nodes)| && nodes == old(nodes)[i := nodes[i]]
      ensures nodes[i].kvsets == [k] + old(nodes[i].kvsets)
      ensures samp == Total(nodes)
      ensures k.dgen > old(nodes[i].incrDgen) ==> Valid()
      ensures k.dgen <= old(nodes[i].incrDgen) ==> nodes[i] == old(nodes[i]).(kvsets := [k] + old(nodes[i].kvsets))
    {
      var n := nodes[i].(kvsets := [k] + nodes[i].kvsets);
      assert n.kvsets[1..] == nodes[i].kvsets;
      samp := Sub(samp, n.samp);
      if k.dgen > n.incrDgen {
        n := n.(kst := Plus(k.kst, n.kst), hlog := if n.leaf then k.hlog + n.hlog else n.hlog, incrDgen := k.dgen);
        n := n.(samp := Finish(est, n.leaf, n.kst, n.hlog));
      }
      samp := Add(samp, n.samp);
      TotalUpdate(nodes, i, n);
      nodes := nodes[i := n];
    }

    /** The kvsets of a node were changed in any way: everything is recounted, whatever the
        node's statistics were. */
    method UpdateCompact(i: nat, ks: seq<Kvset>)
      requires CurrentBut(i) && i < |nodes|
      modifies this
      ensures Valid() && |nodes| == |old(nodes)| && nodes == old(nodes)[i := nodes[i]]
      ensures nodes[i].kvsets == ks && nodes[i].leaf == old(nodes[i].leaf)
    {
      samp := Sub(samp, nodes[i].samp);
      var n := Recount(est, nodes[i].leaf, ks);
      samp := Add(samp, n.samp);
      TotalUpdate(nodes, i, n);
      nodes := nodes[i := n];
    }

    /** A split is installed: the kvsets of the left half go to a new node on the left, those of
        the right half stay.  The loop that recounts the two nodes ends at the first one that
        is missing: with an empty left half nothing is recounted, with an empty right half
        only the new node is. */
    method InstallSplit(i: nat, left: seq<Kvset>, right: seq<Kvset>)
      requires Valid() && i < |nodes| && nodes[i].leaf && (left != [] || right != [])
      modifies this
      ensures samp == Total(nodes)
      ensures left != [] ==> |nodes| == |old(nodes)| + 1 && nodes == Doubled(old(nodes), i, nodes[i], nodes[i + 1])
      ensures left != [] ==> nodes[i].leaf && nodes[i].kvsets == left && CurrentBut(i + 1)
      ensures left != [] && right != [] ==> nodes[i + 1].leaf && nodes[i + 1].kvsets == right && Valid()
      ensures left != [] && right == [] ==> nodes[i + 1] == old(nodes[i]).(kvsets := [])
      ensures left != [] && right == [] ==> samp == Add(old(samp), nodes[i].samp)
      ensures left == [] ==>
        nodes == old(nodes)[i := old(nodes[i]).(kvsets := right)] && samp == old(samp) && CurrentBut(i)
    {
      var src := nodes[i].(kvsets := right);
      if left == [] {
        TotalUpdate(nodes, i, src);
        nodes := nodes[i := src];
        return;
      }
      var l := Recount(est, true, left);
      samp := Add(samp, l.samp);
      if right != [] {
        samp := Sub(samp, src.samp);
        src := Recount(est, true, right);
        samp := Add(samp, src.samp);
      }
      TotalDoubled(nodes, i, l, src);
      DoubledIsCurrent(est, nodes, i, l, src);
      nodes := Doubled(nodes, i, l, src);
    }

    /** A join is installed: the source node i is recounted without kvsets, the target to its
        right with all of them, and the source leaves the tree. */
    method InstallJoin(i: nat, ks: seq<Kvset>)
      requires Valid() && i + 1 < |nodes| && nodes[i].leaf && nodes[i + 1].leaf
      modifies this
      ensures Valid() && |nodes| == |old(nodes)| - 1 && nodes[i].leaf && nodes[i].kvsets == ks
      ensures nodes == Without(old(nodes)[i + 1 := nodes[i]], i)
    {
      UpdateCompact(i, []);
      UpdateCompact(i + 1, ks);
      RemoveEmpty(i);
      assert Without(old(nodes)[i + 1 := nodes[i]], i) == nodes;
    }

    /** An empty node leaves the tree; it has no share in the totals. */
    method RemoveEmpty(i: nat)
      requires Valid() && i < |nodes| && nodes[i].leaf && nodes[i].kvsets == []
      modifies this`nodes
      ensures Valid() && nodes == Without(old(nodes), i)
    {
      EmptyHasNoShare(est, nodes[i]);
      WithoutIs(nodes, i);
      var rest := nodes[..i] + nodes[i + 1..];
      TotalWithout(nodes, i, rest);
      nodes := rest;
    }

    /** Valid statistics, counted node by node and field by field. */
    lemma ValidCounts()
      requires Valid()
      ensures forall i :: 0 <= i < |nodes| ==> Counts(est, nodes[i])
      ensures forall p :: PartOf(samp, p) == SumParts(nodes, p)
    {
      forall i | 0 <= i < |nodes| ensures Counts(est, nodes[i]) { CurrentCounts(est, nodes[i]); }
      forall p ensures PartOf(samp, p) == SumParts(nodes, p) { TotalIsExact(nodes, p); }
    }

    /** The share of good data never exceeds what is allocated, so the garbage percentage is
        well defined and is a percentage. */
    lemma GarbageIsDefined(scale: nat)
      requires Valid()
      ensures 0 <= samp.lGood <= samp.lAlen && 0 <= samp.rAlen
      ensures 0 <= PctGarbage(samp, scale) <= scale
      ensures samp.lAlen == 0 ==> PctGarbage(samp, scale) == scale
      ensures samp.lAlen > 0 ==>
        var g, pct := samp.lAlen - samp.lGood, PctGarbage(samp, scale);
        pct * samp.lAlen <= scale * g < pct * samp.lAlen + samp.lAlen
    {
      TotalGood(est, nodes);
      if samp.lAlen > 0 {
        Share(scale, samp.lAlen - samp.lGood, samp.lAlen);
        Divided(scale * (samp.lAlen - samp.lGood), samp.lAlen);
      }
    }
  }

  /** Clear the node's statistics and count every kvset. */
  method Recount(est: Est, leaf: bool, ks: seq<Kvset>) returns (n: Node)
    ensures Current(est, n) && n.kvsets == ks && n.leaf == leaf
    ensures Counts(est, n)
  {
    n := Node(leaf, ks, ZERO, {}, NOTHING, 0);
    if ks == [] {
      EmptyIsCurrent(est, leaf);
      CurrentCounts(est, n);
      return;
    }
    for j := 0 to |ks|
      invariant n == Node(leaf, ks, Sum(ks[..j]), if leaf then Union(ks[..j]) else {}, NOTHING, MaxDgen(ks[..j]))
    {
      SumSnoc(ks[..j], ks[j]);
      assert ks[..j + 1] == ks[..j] + [ks[j]];
      n := n.(kst := Plus(n.kst, ks[j].kst), hlog := if leaf then n.hlog + ks[j].hlog else n.hlog,
              incrDgen := if n.incrDgen < ks[j].dgen then ks[j].dgen else n.incrDgen);
    }
    assert ks[..|ks|] == ks;
    n := n.(samp := Finish(est, leaf, n.kst, n.hlog));
    CurrentCounts(est, n);
  }

  function PctGarbage(s: Stats, scale: nat): int
    requires 0 <= s.lGood <= s.lAlen
  {
    if s.lAlen > 0 then scale * (s.lAlen - s.lGood) / s.lAlen else scale
  }

  lemma Share(scale: nat, part: nat, whole: nat)
    requires part <= whole && whole > 0
    ensures 0 <= scale * part / whole <= scale
  {
    var q := scale * part / whole;
    MulUp(part, whole, scale);
    assert q * whole <= scale * part <= scale * whole;
    if q > scale {
      OneMore(q, scale, whole);
      assert false;
    }
  }

  lemma {:induction false} TotalAppend(nodes: seq<Node>, n: Node)
    ensures Total(nodes + [n]) == Add(Total(nodes), n.samp)
  {
    if nodes == [] {
      assert (nodes + [n])[1..] == [];
    } else {
      assert (nodes + [n])[1..] == nodes[1..] + [n];
      TotalAppend(nodes[1..], n);
    }
  }

  lemma {:induction false} TotalGood(est: Est, nodes: seq<Node>)
    requires forall i :: 0 <= i < |nodes| ==> Current(est, nodes[i])
    ensures 0 <= Total(nodes).lGood <= Total(nodes).lAlen && 0 <= Total(nodes).rAlen
  {
    if nodes != [] {
      assert Current(est, nodes[0]);
      TotalGood(est, nodes[1..]);
    }
  }
}
