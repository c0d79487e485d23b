/** The invariant makes lookup in the tree agree with lookup in the whole history. */
module TreeLookup {
  import opened Options
  import opened Kvsets
  import opened SpillProtocol
  import opened SpillInvariant
  import opened TreeContents
  import opened TreeInvariant

  lemma {:induction false} RouteFinds(nodes: seq<Node>, k: Key, lo: real)
    requires Edges(nodes) && lo < k
    ensures var j := Route(nodes, k); (if j == 0 then lo else Lo(nodes, j)) < k <= nodes[j].edge
  {
    if |nodes| > 1 && k > nodes[0].edge {
      RouteFinds(nodes[1..], k, nodes[0].edge);
    }
  }

  lemma {:induction false} PastLength(hist: seq<Data>, d: nat)
    requires d <= |hist|
    ensures |Past(hist, d)| == d
    ensures forall i :: 0 <= i < d ==> Past(hist, d)[i] == Kvset(d - i, d - i, hist[d - i - 1])
  {
    if d > 0 { PastLength(hist, d - 1); }
  }

  /** A shorter past is the tail of a longer one. */
  lemma PastTail(hist: seq<Data>, d: nat, e: nat)
    requires d <= e <= |hist|
    ensures |Past(hist, e)| == e && Past(hist, e) == Past(hist, e)[..e - d] + Past(hist, d)
  {
    PastLength(hist, d);
    PastLength(hist, e);
  }

  /** A middle piece of the past. */
  lemma PastSlice(hist: seq<Data>, h: nat, a: nat, b: nat)
    requires a <= b <= h <= |hist|
    ensures |Past(hist, h)| == h && Past(hist, h - a) == Past(hist, h)[a..b] + Past(hist, h - b)
  {
    PastLength(hist, h);
    PastLength(hist, h - a);
    PastLength(hist, h - b);
  }

  /** What a job that pins another leaf has for leaf j is nothing. */
  lemma PinnedElsewhere(t: Tree, n: nat, j: int)
    requires Sizes(t) && Edges(t.nodes) && n in t.ctl.jobs && JobDataOk(t, n)
    requires IsLeaf(t.ctl, j) && t.ctl.jobs[n].pin != -1 && t.ctl.jobs[n].pin != j
    ensures KeysOut(t.jobs[n].inputs, Lo(t.nodes, j), t.nodes[j].edge)
  {
    var p := t.ctl.jobs[n].pin;
    assert p < j ==> t.nodes[p].edge <= Lo(t.nodes, j);
    assert j < p ==> t.nodes[j].edge <= Lo(t.nodes, p);
  }

  lemma SubForFits(t: Tree, n: nat, j: int)
    requires Sizes(t) && Edges(t.nodes) && n in t.ctl.jobs && JobDataOk(t, n) && IsLeaf(t.ctl, j)
    ensures SubFits(t, n, j, SubFor(t, n, j))
  {
    if SubFor(t, n, j).Noop? { PinnedElsewhere(t, n, j); }
  }

  lemma FindOutside(ks: seq<Kvset>, lo: real, hi: real, k: Key)
    requires KeysOut(ks, lo, hi) && lo < k <= hi
    ensures Find(ks, k) == None
  {
    forall i | 0 <= i < |ks| ensures k !in ks[i].data {}
    FindAbsent(ks, k);
  }

  // ----- what a reader finds -----

  /** Ingests a+1 to d, newest first. */
  function Since(hist: seq<Data>, a: nat, d: nat): seq<Kvset>
    requires d <= |hist|
  {
    if d <= a then [] else [Kvset(d, d, hist[d - 1])] + Since(hist, a, d - 1)
  }

  lemma {:induction false} SinceThenPast(hist: seq<Data>, a: nat, d: nat)
    requires a <= d <= |hist|
    ensures Past(hist, d) == Since(hist, a, d) + Past(hist, a)
  {
    if a < d { SinceThenPast(hist, a, d - 1); }
  }

  lemma {:induction false} SinceSplits(hist: seq<Data>, d: nat, e: nat, h: nat)
    requires d <= e <= h <= |hist|
    ensures Since(hist, d, h) == Since(hist, e, h) + Since(hist, d, e)
  {
    if e < h {
      SinceSplits(hist, d, e, h - 1);
    } else {
      assert Since(hist, e, h) == [];
    }
  }

  /** A key that is in none of the newest ingests reads the same at any point among them. */
  lemma NotSince(hist: seq<Data>, d: nat, e: nat, k: Key)
    requires d <= e <= |hist| && Find(Since(hist, d, |hist|), k) == None
    ensures Find(Past(hist, e), k) == Find(Past(hist, d), k)
  {
    SinceSplits(hist, d, e, |hist|);
    FindConcat(Since(hist, e, |hist|), Since(hist, d, e), k);
    SinceThenPast(hist, d, e);
    FindConcat(Since(hist, d, e), Past(hist, d), k);
  }

  lemma SameFront<T>(a: seq<T>, b: seq<T>, c: seq<T>)
    requires a + c == b + c
    ensures a == b
  {
    assert |a| + |c| == |a + c| == |b + c|;
    assert a == (a + c)[..|a|] && b == (b + c)[..|a|];
  }

  /** Where a reader looks for key k after the root. */
  function Home(t: Tree, k: Key): Node
    requires t.nodes != []
  {
    t.nodes[Route(t.nodes, k)]
  }

  /** The ingests that are neither in the root nor in the leaf of key k, newest first. */
  function Missing(t: Tree, k: Key): seq<Kvset>
    requires t.nodes != [] && |Home(t, k).applied| < |t.ends| && Gone(t) >= 0
  {
    Since(t.hist, t.ends[|Home(t, k).applied|], Gone(t))
  }

  /** Key k is in the root, or no missing ingest has it, or the newest that has it reads as
      the leaf does. */
  predicate NotMissed(t: Tree, k: Key)
    requires t.nodes != [] && |Home(t, k).applied| < |t.ends| && Gone(t) >= 0
  {
    || Find(t.root, k).Some?
    || Find(Missing(t, k), k) == None
    || Live(Find(Missing(t, k), k)) == Live(Find(Home(t, k).kvsets, k))
  }

  lemma RouteIsHome(t: Tree, k: Key)
    requires Sizes(t) && Edges(t.nodes)
    ensures var j := Route(t.nodes, k); IsLeaf(t.ctl, j) && Lo(t.nodes, j) < k <= t.nodes[j].edge
  {
    RouteFinds(t.nodes, k, 0.0);
  }

  lemma RootIsNewest(t: Tree)
    requires Sizes(t) && RootOk(t)
    ensures t.root == Since(t.hist, Gone(t), |t.hist|)
  {
    SinceThenPast(t.hist, Gone(t), |t.hist|);
    SameFront(t.root, Since(t.hist, Gone(t), |t.hist|), Past(t.hist, Gone(t)));
  }

  /** A key reads in the tree as in the whole history exactly if it is not missed. */
  lemma ReadsIffNotMissed(t: Tree, k: Key)
    requires TData(t)
    ensures t.nodes != [] && |Home(t, k).applied| < |t.ends| && Gone(t) >= 0
    ensures Live(Lookup(t, k)) == Live(HistoryLookup(t, k)) <==> NotMissed(t, k)
  {
    RouteIsHome(t, k);
    var j := Route(t.nodes, k);
    assert NodeOk(t, j);
    var a, d := t.ends[|t.nodes[j].applied|], Gone(t);
    FindConcat(t.root, Past(t.hist, d), k);
    if Find(t.root, k) == None {
      if a <= d {
        SinceThenPast(t.hist, a, d);
        FindConcat(Since(t.hist, a, d), Past(t.hist, a), k);
      } else {
        RootIsNewest(t);
        EndsInHistory(t, |t.nodes[j].applied|);
        NotSince(t.hist, d, a, k);
      }
    }
  }

  lemma EndsInHistory(t: Tree, n: nat)
    requires Sizes(t) && n <= t.ctl.sgen
    ensures t.ends[n] <= t.ends[t.ctl.sgen] <= |t.hist|
  {
    assert n < t.ctl.sgen ==> t.ends[n] < t.ends[t.ctl.sgen];
  }
}
