/** Compaction, split, join and trimming keep the data invariant. */
module TreeShapeSteps {
  import opened Options
  import opened Kvsets
  import opened SpillProtocol
  import opened SpillInvariant
  import opened TreeContents
  import opened TreeInvariant
  import opened TreeLookup
  import opened TreeFrames
  import opened TreeReshape

  // ----- steps that change the kvsets of one leaf -----

  /** Leaf j gets other kvsets; its range, log and generation stay. */
  ghost predicate Rewrites(t: Tree, t': Tree, j: int) {
    && IsLeaf(t.ctl, j) && |t.nodes| == |t.ctl.leaves|
    && t' == t.(ctl := t'.ctl, nodes := t'.nodes)
    && |t'.nodes| == |t.nodes| && t'.nodes == t.nodes[j := t'.nodes[j]]
    && t'.nodes[j] == t.nodes[j].(kvsets := t'.nodes[j].kvsets, older := t'.nodes[j].older, count := t'.nodes[j].count)
    && |t'.ctl.leaves| == |t.ctl.leaves| && t'.ctl.leaves == t.ctl.leaves[j := t'.ctl.leaves[j]]
    && t'.ctl.leaves[j].sgen == t.ctl.leaves[j].sgen
    && t'.ctl.jobs == t.ctl.jobs && t'.ctl.sgen == t.ctl.sgen && t'.ctl.rsgen == t.ctl.rsgen
  }

  lemma RewriteSizes(t: Tree, t': Tree, j: int)
    requires Sizes(t) && Edges(t.nodes) && RootOk(t) && Rewrites(t, t', j)
    ensures Grows(t, t') && RootOk(t') && SameShape(t.nodes, t'.nodes) && Edges(t'.nodes) && OthersSame(t, t', 0)
    ensures OtherSubsSame(t, t', 0)
    ensures SameBumping(t.ctl, t'.ctl) && forall i :: 0 <= i <= |t.nodes| ==> Lo(t'.nodes, i) == Lo(t.nodes, i)
  {
    ShapeEdges(t.nodes, t'.nodes);
    WorkFrame(t, t');
    forall n, i ensures BumpsAt(t'.ctl, n, i) == BumpsAt(t.ctl, n, i) {}
  }

  lemma RewriteLeaf(t: Tree, t': Tree, j: int, i: int)
    requires Grows(t, t') && Edges(t.nodes) && RootOk(t) && Rewrites(t, t', j) && NodeOk(t', j)
    requires IsLeaf(t.ctl, i) && LogOk(t, i) && NodeOk(t, i)
    ensures LogOk(t', i) && NodeOk(t', i)
  {
    RewriteSizes(t, t', j);
    LogOkFrame(t, t', i, i);
    if i != j { NodeOkFrame(t, t', i, i); }
  }

  lemma RewriteCarries(t: Tree, t': Tree, j: int)
    requires TData(t) && Rewrites(t, t', j) && Sizes(t') && NodeOk(t', j)
    ensures TData(t')
  {
    RewriteSizes(t, t', j);
    forall i | IsLeaf(t'.ctl, i) ensures LogOk(t', i) && NodeOk(t', i) {
      assert IsLeaf(t.ctl, i);
      RewriteLeaf(t, t', j, i);
    }
    OtherJobsCarry(t, t', 0);
    OtherSubsCarry(t, t', 0);
  }

  lemma RewriteNode(t: Tree, t': Tree, j: int)
    requires Sizes(t) && Edges(t.nodes) && RootOk(t) && Rewrites(t, t', j) && NodeOk(t, j)
    requires KeysIn(t'.nodes[j].kvsets, Lo(t.nodes, j), t.nodes[j].edge)
    requires DgenUpTo(t'.nodes[j].kvsets, t.ends[|t.nodes[j].applied|])
    requires forall k: Key :: Lo(t.nodes, j) < k <= t.nodes[j].edge ==>
      Live(Find(t'.nodes[j].kvsets, k)) == Live(Find(t.nodes[j].kvsets, k))
    requires t'.ctl.leaves[j].token.Compacting? ==>
      1 <= t'.nodes[j].count && t'.nodes[j].older + t'.nodes[j].count <= |t'.nodes[j].kvsets|
    ensures Sizes(t') && NodeOk(t', j)
  {
    RewriteSizes(t, t', j);
    UptoGrows(t, t', |t.nodes[j].applied|);
  }

  lemma StartCompactKeepsData(t: Tree, j: nat, older: nat, count: nat)
    requires TData(t) && TEnabled(t, StartCompact(j, older, count))
    ensures TData(TNext(t, StartCompact(j, older, count)))
  {
    var t' := TNext(t, StartCompact(j, older, count));
    assert NodeOk(t, j);
    RewriteNode(t, t', j);
    RewriteCarries(t, t', j);
  }

  /** The compacted list keeps within the leaf's range and generations. */
  lemma CompactedBounds(ks: seq<Kvset>, a: nat, b: nat, oldest: bool, lo: real, hi: real, g: nat)
    requires a < b <= |ks| && KeysIn(ks, lo, hi) && DgenUpTo(ks, g)
    ensures var ks' := ks[..a] + Compacted(ks[a..b], oldest) + ks[b..]; KeysIn(ks', lo, hi) && DgenUpTo(ks', g)
  {
    var run := ks[a..b];
    forall k | k in Merge(run) ensures lo < k <= hi {
      FindMerge(run, k);
      FindPresent(run, k);
    }
  }

  lemma Pieces(ks: seq<Kvset>, a: int, b: int)
    requires 0 <= a <= b <= |ks|
    ensures ks == ks[..a] + ks[a..b] + ks[b..]
  {
  }

  lemma CompactedReads(t: Tree, j: nat, k: Key)
    requires TEnabled(t, Ctl(CompactEnd(j)))
    ensures Live(Find(DoCompact(t, j).nodes[j].kvsets, k)) == Live(Find(t.nodes[j].kvsets, k))
  {
    var node := t.nodes[j];
    var b := |node.kvsets| - node.older;
    var a := b - node.count;
    CompactionPreservesLookup(node.kvsets[..a], node.kvsets[a..b], node.kvsets[b..], k);
    Pieces(node.kvsets, a, b);
  }

  lemma CompactEndEffect(t: Tree, j: nat)
    requires TEnabled(t, Ctl(CompactEnd(j)))
    ensures var t' := TNext(t, Ctl(CompactEnd(j)));
      Rewrites(t, t', j) && t'.nodes[j] == DoCompact(t, j).nodes[j] && t'.ctl.leaves[j].token.Free?
  {
  }

  lemma CompactCarries(t: Tree, t': Tree, j: nat)
    requires TData(t) && Rewrites(t, t', j) && t'.ctl.leaves[j].token.Free?
    requires KeysIn(t'.nodes[j].kvsets, Lo(t.nodes, j), t.nodes[j].edge)
    requires NodeOk(t, j) && DgenUpTo(t'.nodes[j].kvsets, t.ends[|t.nodes[j].applied|])
    requires forall k: Key :: Live(Find(t'.nodes[j].kvsets, k)) == Live(Find(t.nodes[j].kvsets, k))
    ensures TData(t')
  {
    RewriteNode(t, t', j);
    RewriteCarries(t, t', j);
  }

  lemma CompactedNode(t: Tree, j: nat)
    requires Sizes(t) && TEnabled(t, Ctl(CompactEnd(j))) && NodeOk(t, j)
    ensures var ks := DoCompact(t, j).nodes[j].kvsets;
      && KeysIn(ks, Lo(t.nodes, j), t.nodes[j].edge) && DgenUpTo(ks, t.ends[|t.nodes[j].applied|])
      && forall k: Key :: Live(Find(ks, k)) == Live(Find(t.nodes[j].kvsets, k))
  {
    var node := t.nodes[j];
    var b := |node.kvsets| - node.older;
    CompactedBounds(node.kvsets, b - node.count, b, node.older == 0, Lo(t.nodes, j), node.edge, t.ends[|node.applied|]);
    forall k: Key ensures Live(Find(DoCompact(t, j).nodes[j].kvsets, k)) == Live(Find(node.kvsets, k)) {
      CompactedReads(t, j, k);
    }
  }

  /** A compaction replaces the claimed run of the leaf by the one kvset that stands for it, or
      by nothing; what is above and below the run, and every other leaf, stays. */
  lemma CompactEndReplacesRun(t: Tree, j: nat) returns (c: seq<Kvset>)
    requires TEnabled(t, Ctl(CompactEnd(j)))
    ensures var t', node := TNext(t, Ctl(CompactEnd(j))), t.nodes[j];
      var b := |node.kvsets| - node.older;
      var a := b - node.count;
      && 0 <= a < b <= |node.kvsets| && |t'.nodes| == |t.nodes|
      && t'.nodes == t.nodes[j := node.(kvsets := t'.nodes[j].kvsets)]
      && Replaced(node.kvsets, a, b, c, t'.nodes[j].kvsets)
      && t'.root == t.root && t'.jobs == t.jobs
  {
    var t', node := TNext(t, Ctl(CompactEnd(j))), t.nodes[j];
    var b := |node.kvsets| - node.older;
    var a := b - node.count;
    c := Compacted(node.kvsets[a..b], b == |node.kvsets|);
    CompactedExactly(node.kvsets[a..b], b == |node.kvsets|);
    assert t'.nodes[j].kvsets == node.kvsets[..a] + c + node.kvsets[b..];
  }

  /** A compaction that ends keeps the data invariant, and leaves in place of its run the one
      kvset that stands for it. */
  lemma CompactEndKeepsData(t: Tree, j: nat) returns (c: seq<Kvset>)
    requires TData(t) && TEnabled(t, Ctl(CompactEnd(j)))
    ensures var t', ks, b := TNext(t, Ctl(CompactEnd(j))), t.nodes[j].kvsets, |t.nodes[j].kvsets| - t.nodes[j].older;
      TData(t') && Replaced(ks, b - t.nodes[j].count, b, c, t'.nodes[j].kvsets)
  {
    c := CompactEndReplacesRun(t, j);
    assert NodeOk(t, j);
    CompactEndEffect(t, j);
    CompactedNode(t, j);
    CompactCarries(t, TNext(t, Ctl(CompactEnd(j))), j);
  }

  /** A split whose keys all lie right of the split key leaves the node as it is. */
  lemma RightOnlySplitKeepsData(t: Tree, j: nat, key: Key)
    requires TData(t) && TEnabled(t, InstallSplit(j, key)) && !HasLeft(t.nodes[j], Lo(t.nodes, j), key)
    ensures TData(TNext(t, InstallSplit(j, key)))
  {
    var t', node, lo := TNext(t, InstallSplit(j, key)), t.nodes[j], Lo(t.nodes, j);
    assert NodeOk(t, j);
    CutKeys(node.kvsets, key, node.edge, t.ends[|node.applied|]);
    forall k: Key | lo < k <= node.edge ensures Live(Find(t'.nodes[j].kvsets, k)) == Live(Find(node.kvsets, k)) {
      FindCut(node.kvsets, key, node.edge, k);
      FindCut(node.kvsets, lo, key, k);
    }
    RewriteNode(t, t', j);
    RewriteCarries(t, t', j);
  }

  // ----- split into two leaves -----

  ghost predicate Splits(t: Tree, t': Tree, j: int, key: Key) {
    && IsLeaf(t.ctl, j) && |t.nodes| == |t.ctl.leaves| && Lo(t.nodes, j) < key < t.nodes[j].edge
    && SameRest(t, t')
    && (var node := t.nodes[j];
        t'.nodes == t.nodes[..j] + [Node(key, Cut(node.kvsets, Lo(t.nodes, j), key), map[], node.applied, 0, 0),
                                    node.(kvsets := Cut(node.kvsets, key, node.edge))] + t.nodes[j + 1..])
    && |t'.ctl.leaves| == |t.ctl.leaves| + 1
    && t'.ctl.leaves[j] == Leaf(t.ctl.leaves[j].sgen, 0, [], false, 0, Free)
    && t'.ctl.leaves[j + 1] == t.ctl.leaves[j].(token := SplitInstalled)
    && (forall i :: 0 <= i < j ==> t'.ctl.leaves[i] == t.ctl.leaves[i])
    && (forall i :: j + 1 < i < |t'.ctl.leaves| ==> t'.ctl.leaves[i] == t.ctl.leaves[i - 1])
    && (forall n :: n in t.ctl.jobs ==>
          var p := t.ctl.jobs[n];
          n in t'.ctl.jobs && t'.ctl.jobs[n] == p.(pos := Up(p.pos, j), pin := Up(p.pin, j)))
  }

  lemma SplitEffect(t: Tree, j: nat, key: Key)
    requires TEnabled(t, InstallSplit(j, key)) && HasLeft(t.nodes[j], Lo(t.nodes, j), key)
    ensures Splits(t, TNext(t, InstallSplit(j, key)), j, key)
  {
  }

  /** Where everything is after the split. */
  ghost predicate SplitView(t: Tree, t': Tree, j: int) {
    && IsLeaf(t.ctl, j) && |t.nodes| == |t.ctl.leaves| && |t'.nodes| == |t'.ctl.leaves| == |t.nodes| + 1
    && (forall b :: 0 <= b <= j ==> Lo(t'.nodes, b) == Lo(t.nodes, b))
    && (forall b :: j < b <= |t.nodes| ==> Lo(t'.nodes, b + 1) == Lo(t.nodes, b))
    && (forall i :: 0 <= i < j ==> t'.nodes[i] == t.nodes[i] && t'.ctl.leaves[i] == t.ctl.leaves[i])
    && (forall i :: j < i < |t.nodes| ==> t'.nodes[i + 1] == t.nodes[i] && t'.ctl.leaves[i + 1] == t.ctl.leaves[i])
    && t'.nodes[j].applied == t'.nodes[j + 1].applied == t.nodes[j].applied
  }

  lemma SplitViews(t: Tree, t': Tree, j: int, key: Key)
    requires Splits(t, t', j, key)
    ensures SplitView(t, t', j)
  {
  }

  lemma SplitEdges(t: Tree, t': Tree, j: int, key: Key)
    requires Edges(t.nodes) && SplitView(t, t', j) && Lo(t.nodes, j) < key < t.nodes[j].edge
    requires t'.nodes[j].edge == key && t'.nodes[j + 1].edge == t.nodes[j].edge
    ensures Edges(t'.nodes)
  {
    var a, b := t.nodes, t'.nodes;
    forall x, y | 0 <= x < y < |b| ensures b[x].edge < b[y].edge {
      var x', y' := if x <= j then x else x - 1, if y <= j then y else y - 1;
      if x' < y' { assert a[x'].edge < a[y'].edge; }
      if x < j { assert b[x].edge <= Lo(a, j); }
      if j < y' { assert a[j].edge < a[y'].edge; }
    }
  }

  lemma SplitJob(t: Tree, t': Tree, j: int, n: nat)
    requires Sizes(t) && SplitView(t, t', j) && n in t.ctl.jobs && n in t'.ctl.jobs && Clear(t, n, j)
    requires var p := t.ctl.jobs[n]; -1 <= p.pin < |t.nodes| && 0 <= Built'(p) <= |t.nodes|
    requires t'.ctl.jobs[n] == t.ctl.jobs[n].(pos := Up(t.ctl.jobs[n].pos, j), pin := Up(t.ctl.jobs[n].pin, j))
    ensures JobMoves(t, t', n) && ClearOf(t', n, j) && ClearOf(t', n, j + 1)
  {
    var p, p' := t.ctl.jobs[n], t'.ctl.jobs[n];
    assert Built'(p') == if p.pos < j then Built'(p) else Built'(p) + 1;
    if p.pin > j { assert t'.nodes[p.pin + 1] == t.nodes[p.pin]; }
  }

  lemma SplitKeeps(t: Tree, t': Tree, j: int, n: nat, i: int)
    requires 0 <= j < |t.nodes| && n in t.ctl.jobs && n in t'.ctl.jobs && Clear(t, n, j) && 0 <= i != j
    requires t'.ctl.jobs[n] == t.ctl.jobs[n].(pos := Up(t.ctl.jobs[n].pos, j), pin := Up(t.ctl.jobs[n].pin, j))
    ensures JobKept(t, t', n, i, if i < j then i else i + 1)
  {
  }

  lemma SplitLeaf(t: Tree, t': Tree, j: int, key: Key, j': int)
    requires Sizes(t) && Grows(t, t') && Splits(t, t', j, key) && SplitView(t, t', j) && IsLeaf(t'.ctl, j') && j' != j
    requires j' != j + 1
    requires forall n :: n in t.ctl.jobs ==> Clear(t, n, j)
    ensures LeafKept(t, t', if j' < j then j' else j' - 1, j')
  {
    var i := if j' < j then j' else j' - 1;
    if j' > j { assert t'.nodes[i + 1] == t.nodes[i]; }
    forall n | n in t.ctl.jobs ensures JobKept(t, t', n, i, j') {
      assert Clear(t, n, j);
      SplitKeeps(t, t', j, n, i);
    }
  }

  lemma SplitHalves(t: Tree, t': Tree, j: int, key: Key)
    requires Sizes(t) && Edges(t.nodes) && Grows(t, t') && Splits(t, t', j, key) && SplitView(t, t', j) && NodeOk(t, j)
    ensures NodeOk(t', j) && NodeOk(t', j + 1)
  {
    var node, lo := t.nodes[j], Lo(t.nodes, j);
    var a := |node.applied|;
    UptoGrows(t, t', a);
    CutKeys(node.kvsets, lo, key, t.ends[a]);
    CutKeys(node.kvsets, key, node.edge, t.ends[a]);
    forall k: Key ensures
      && Find(t'.nodes[j].kvsets, k) == (if lo < k <= key then Find(node.kvsets, k) else None)
      && Find(t'.nodes[j + 1].kvsets, k) == (if key < k <= node.edge then Find(node.kvsets, k) else None) {
      FindCut(node.kvsets, lo, key, k);
      FindCut(node.kvsets, key, node.edge, k);
    }
  }

  lemma SplitLeaves(t: Tree, t': Tree, j: int, key: Key)
    requires TData(t) && Settled(t, j) && Splits(t, t', j, key) && SplitView(t, t', j) && Grows(t, t')
    requires forall n :: n in t'.ctl.jobs ==> ClearOf(t', n, j) && ClearOf(t', n, j + 1)
    ensures forall i :: IsLeaf(t'.ctl, i) ==> LogOk(t', i) && NodeOk(t', i)
  {
    assert NodeOk(t, j) && LogOk(t, j);
    SplitHalves(t, t', j, key);
    NewLeafLog(t', j);
    NewLeafLog(t', j + 1);
    forall i | IsLeaf(t'.ctl, i) ensures LogOk(t', i) && NodeOk(t', i) {
      if i != j && i != j + 1 {
        SplitLeaf(t, t', j, key, i);
        KeptLeaf(t, t', if i < j then i else i - 1, i);
      }
    }
  }

  lemma SplitSubs(t: Tree, t': Tree, j: int, key: Key)
    requires TData(t) && Settled(t, j) && Splits(t, t', j, key) && SplitView(t, t', j) && Grows(t, t')
    requires Edges(t'.nodes)
    requires forall n :: n in t'.ctl.jobs ==> ClearOf(t', n, j) && ClearOf(t', n, j + 1)
    ensures forall m, i :: m in t.ctl.jobs && IsLeaf(t'.ctl, i) ==> SubOk(t', m, i)
  {
    forall m, i | m in t.ctl.jobs && IsLeaf(t'.ctl, i) ensures SubOk(t', m, i) {
      assert m in t'.ctl.jobs && ClearOf(t', m, j);
      if i == j || i == j + 1 {
        NewLeafSub(t', m, i);
      } else {
        SplitLeaf(t, t', j, key, i);
        KeptSub(t, t', m, if i < j then i else i - 1, i);
      }
    }
  }

  lemma SplitCarries(t: Tree, t': Tree, j: int, key: Key)
    requires TData(t) && Settled(t, j) && Splits(t, t', j, key)
    ensures TData(t')
  {
    RestSizes(t, t');
    SplitViews(t, t', j, key);
    SplitEdges(t, t', j, key);
    forall n | n in t.ctl.jobs ensures JobMoves(t, t', n) && ClearOf(t', n, j) && ClearOf(t', n, j + 1) {
      assert Clear(t, n, j) && LeavingOk(t, n) && JobDataOk(t, n);
      SplitJob(t, t', j, n);
    }
    SplitLeaves(t, t', j, key);
    SplitSubs(t, t', j, key);
    Reshaped(t, t');
  }

  lemma SplitKeepsData(t: Tree, j: nat, key: Key)
    requires TData(t) && Settled(t, j) && TEnabled(t, InstallSplit(j, key))
    ensures TData(TNext(t, InstallSplit(j, key)))
  {
    if HasLeft(t.nodes[j], Lo(t.nodes, j), key) {
      SplitEffect(t, j, key);
      SplitCarries(t, TNext(t, InstallSplit(j, key)), j, key);
    } else {
      RightOnlySplitKeepsData(t, j, key);
    }
  }

  // ----- join -----

  /** Leaves j-1 and j become one, at j-1, with the kvsets ks and leaf j's edge; the jobs on
      the right move down by one.  Trimming the rightmost leaf has the same shape. */
  ghost predicate Joins(t: Tree, t': Tree, j: int, node: Node) {
    && IsLeaf(t.ctl, j - 1) && IsLeaf(t.ctl, j) && |t.nodes| == |t.ctl.leaves| && SameRest(t, t')
    && t'.nodes == t.nodes[..j - 1] + [node] + t.nodes[j + 1..]
    && node.edge == t.nodes[j].edge && |t'.ctl.leaves| == |t.ctl.leaves| - 1
    && |node.applied| == t'.ctl.leaves[j - 1].sgen == t.ctl.leaves[j].sgen == t.ctl.leaves[j - 1].sgen
    && (node.applied == t.nodes[j].applied || node.applied == t.nodes[j - 1].applied)
    && (forall i :: 0 <= i < j - 1 ==> t'.ctl.leaves[i] == t.ctl.leaves[i])
    && (forall i :: j <= i < |t'.ctl.leaves| ==> t'.ctl.leaves[i] == t.ctl.leaves[i + 1])
    && (forall n :: n in t.ctl.jobs ==> n in t'.ctl.jobs && JoinMoves(t.ctl.jobs[n], t'.ctl.jobs[n], j))
  }

  /** A job that is neither at j-1 nor at j. */
  ghost predicate JoinMoves(p: Job, p': Job, j: int) {
    p.pos != j - 1 && p.pos != j && p.pin != j - 1 && p.pin != j ==>
      p' == p.(pos := Down(p.pos, j), pin := Down(p.pin, j))
  }

  /** Where everything is after the join. */
  ghost predicate JoinView(t: Tree, t': Tree, j: int) {
    && IsLeaf(t.ctl, j) && IsLeaf(t.ctl, j - 1)
    && |t.nodes| == |t.ctl.leaves| && |t'.nodes| == |t'.ctl.leaves| == |t.nodes| - 1
    && (forall b :: 0 <= b < j ==> Lo(t'.nodes, b) == Lo(t.nodes, b))
    && (forall b :: j < b <= |t.nodes| ==> Lo(t'.nodes, b - 1) == Lo(t.nodes, b))
    && (forall i :: 0 <= i < j - 1 ==> t'.nodes[i] == t.nodes[i] && t'.ctl.leaves[i] == t.ctl.leaves[i])
    && (forall i :: j < i < |t.nodes| ==> t'.nodes[i - 1] == t.nodes[i] && t'.ctl.leaves[i - 1] == t.ctl.leaves[i])
    && t'.nodes[j - 1].edge == t.nodes[j].edge
  }

  lemma JoinViews(t: Tree, t': Tree, j: int, node: Node)
    requires Joins(t, t', j, node)
    ensures JoinView(t, t', j) && t'.nodes[j - 1] == node
  {
    forall i | j < i < |t.nodes| ensures t'.nodes[i - 1] == t.nodes[i] && t'.ctl.leaves[i - 1] == t.ctl.leaves[i] {
      var i' := i - 1;
      assert j <= i' < |t'.ctl.leaves| && t'.ctl.leaves[i'] == t.ctl.leaves[i' + 1];
    }
  }

  lemma JoinEdges(t: Tree, t': Tree, j: int)
    requires Edges(t.nodes) && JoinView(t, t', j)
    ensures Edges(t'.nodes)
  {
    var a, b := t.nodes, t'.nodes;
    forall x | 0 <= x < |b| ensures b[x].edge == a[if x < j - 1 then x else x + 1].edge {
      if x >= j { assert b[x + 1 - 1] == a[x + 1]; }
    }
  }

  lemma JoinJob(t: Tree, t': Tree, j: int, n: nat)
    requires Sizes(t) && JoinView(t, t', j) && n in t.ctl.jobs && n in t'.ctl.jobs
    requires Clear(t, n, j) && Clear(t, n, j - 1) && |t'.nodes[j - 1].applied| == |t.nodes[j - 1].applied|
    requires var p := t.ctl.jobs[n]; -1 <= p.pin < |t.nodes| && 0 <= Built'(p) <= |t.nodes|
    requires JoinMoves(t.ctl.jobs[n], t'.ctl.jobs[n], j)
    ensures JobMoves(t, t', n) && ClearOf(t', n, j - 1)
  {
    var p, p' := t.ctl.jobs[n], t'.ctl.jobs[n];
    assert Built'(p') == if p.pos < j then Built'(p) else Built'(p) - 1;
    if p.pin > j { assert t'.nodes[p.pin - 1] == t.nodes[p.pin]; }
  }

  lemma JoinKeeps(t: Tree, t': Tree, j: int, n: nat, i: int)
    requires 0 < j < |t.nodes| && n in t.ctl.jobs && n in t'.ctl.jobs && Clear(t, n, j) && Clear(t, n, j - 1)
    requires 0 <= i && i != j && i != j - 1 && JoinMoves(t.ctl.jobs[n], t'.ctl.jobs[n], j)
    ensures JobKept(t, t', n, i, if i < j then i else i - 1)
  {
  }

  lemma JoinLeaf(t: Tree, t': Tree, j: int, node: Node, j': int)
    requires Sizes(t) && Grows(t, t') && Joins(t, t', j, node) && JoinView(t, t', j) && IsLeaf(t'.ctl, j')
    requires j' != j - 1
    requires forall n :: n in t.ctl.jobs ==> Clear(t, n, j) && Clear(t, n, j - 1)
    ensures LeafKept(t, t', if j' < j - 1 then j' else j' + 1, j')
  {
    var i := if j' < j - 1 then j' else j' + 1;
    if j' >= j { assert t'.nodes[i - 1] == t.nodes[i]; }
    forall n | n in t.ctl.jobs ensures JobKept(t, t', n, i, j') {
      assert Clear(t, n, j) && Clear(t, n, j - 1);
      JoinKeeps(t, t', j, n, i);
    }
  }

  lemma JoinLeaves(t: Tree, t': Tree, j: int, node: Node)
    requires TData(t) && Settled(t, j) && Settled(t, j - 1) && Joins(t, t', j, node) && JoinView(t, t', j)
    requires Grows(t, t') && NodeOk(t', j - 1)
    requires forall n :: n in t'.ctl.jobs ==> ClearOf(t', n, j - 1)
    ensures forall i :: IsLeaf(t'.ctl, i) ==> LogOk(t', i) && NodeOk(t', i)
  {
    assert LogOk(t, j) && LogOk(t, j - 1);
    NewLeafLog(t', j - 1);
    forall i | IsLeaf(t'.ctl, i) ensures LogOk(t', i) && NodeOk(t', i) {
      if i != j - 1 {
        JoinLeaf(t, t', j, node, i);
        KeptLeaf(t, t', if i < j - 1 then i else i + 1, i);
      }
    }
  }

  lemma JoinSubs(t: Tree, t': Tree, j: int, node: Node)
    requires TData(t) && Settled(t, j) && Settled(t, j - 1) && Joins(t, t', j, node) && JoinView(t, t', j)
    requires Grows(t, t') && Edges(t'.nodes)
    requires forall n :: n in t'.ctl.jobs ==> ClearOf(t', n, j - 1)
    ensures forall m, i :: m in t.ctl.jobs && IsLeaf(t'.ctl, i) ==> SubOk(t', m, i)
  {
    forall m, i | m in t.ctl.jobs && IsLeaf(t'.ctl, i) ensures SubOk(t', m, i) {
      assert m in t'.ctl.jobs && ClearOf(t', m, j - 1);
      if i == j - 1 {
        NewLeafSub(t', m, i);
      } else {
        JoinLeaf(t, t', j, node, i);
        KeptSub(t, t', m, if i < j - 1 then i else i + 1, i);
      }
    }
  }

  lemma JoinCarries(t: Tree, t': Tree, j: int, node: Node)
    requires TData(t) && Settled(t, j) && Settled(t, j - 1) && Joins(t, t', j, node)
    requires Grows(t, t') && NodeOk(t', j - 1)
    ensures TData(t')
  {
    RestSizes(t, t');
    JoinViews(t, t', j, node);
    JoinEdges(t, t', j);
    forall n | n in t.ctl.jobs ensures JobMoves(t, t', n) && ClearOf(t', n, j - 1) {
      assert Clear(t, n, j) && Clear(t, n, j - 1) && LeavingOk(t, n) && JobDataOk(t, n);
      JoinJob(t, t', j, n);
    }
    JoinLeaves(t, t', j, node);
    JoinSubs(t, t', j, node);
    Reshaped(t, t');
  }

  lemma JoinEffect(t: Tree, j: nat)
    requires TEnabled(t, Ctl(JoinInstall(j))) && Settled(t, j) && Settled(t, j - 1)
    requires t.ctl.leaves[j - 1].sgen == t.ctl.leaves[j].sgen
    ensures var ks := MoveInto(t.nodes[j - 1].kvsets, t.nodes[j].kvsets);
      Joins(t, TNext(t, Ctl(JoinInstall(j))), j, t.nodes[j].(kvsets := ks))
  {
  }

  /** With equal logs, the moved list reads as either node did on its own range. */
  lemma JoinedNode(t: Tree, t': Tree, j: int, node: Node)
    requires Sizes(t) && Edges(t.nodes) && IsLeaf(t.ctl, j) && IsLeaf(t.ctl, j - 1) && NodeOk(t, j)
    requires NodeOk(t, j - 1) && Grows(t, t') && Joins(t, t', j, node) && JoinView(t, t', j)
    requires |t.nodes[j - 1].applied| == |t.nodes[j].applied| == |node.applied|
    requires node == t'.nodes[j - 1] && node.kvsets == MoveInto(t.nodes[j - 1].kvsets, t.nodes[j].kvsets)
    requires !t'.ctl.leaves[j - 1].token.Compacting?
    ensures NodeOk(t', j - 1)
  {
    var l, r, a := t.nodes[j - 1], t.nodes[j], |node.applied|;
    UptoGrows(t, t', a);
    assert Lo(t'.nodes, j - 1) == Lo(t.nodes, j - 1) < l.edge < r.edge == node.edge by {
      assert j - 1 > 0 ==> t.nodes[j - 2].edge < t.nodes[j - 1].edge;
    }
    forall i | 0 <= i < |node.kvsets| ensures node.kvsets[i] in l.kvsets || node.kvsets[i] in r.kvsets {
      MovedFrom(l.kvsets, r.kvsets, i);
    }
    forall k: Key | Lo(t.nodes, j - 1) < k <= r.edge
      ensures Live(Find(node.kvsets, k)) == Live(Find(Upto(t, a), k)) {
      if k <= l.edge { FindAbsent(r.kvsets, k); } else { FindAbsent(l.kvsets, k); }
      FindMoved(l.kvsets, r.kvsets, k);
    }
  }

  lemma JoinKeepsData(t: Tree, j: nat)
    requires TData(t) && TEnabled(t, Ctl(JoinInstall(j))) && Settled(t, j) && Settled(t, j - 1)
    requires t.ctl.leaves[j - 1].sgen == t.ctl.leaves[j].sgen
    ensures TData(TNext(t, Ctl(JoinInstall(j))))
  {
    var t' := TNext(t, Ctl(JoinInstall(j)));
    var node := t.nodes[j].(kvsets := MoveInto(t.nodes[j - 1].kvsets, t.nodes[j].kvsets));
    JoinEffect(t, j);
    RestSizes(t, t');
    JoinViews(t, t', j, node);
    assert NodeOk(t, j) && NodeOk(t, j - 1);
    JoinedNode(t, t', j, node);
    JoinCarries(t, t', j, node);
  }

  // ----- trimming the rightmost leaf -----

  lemma TrimEffect(t: Tree, j: nat)
    requires TEnabled(t, Ctl(TrimRight)) && j == |t.nodes| - 1 && Settled(t, j) && Settled(t, j - 1)
    requires t.nodes[j].edge == MAX_KEY
    requires t.ctl.leaves[j - 1].sgen == t.ctl.leaves[j].sgen
    ensures Joins(t, TNext(t, Ctl(TrimRight)), j, t.nodes[j - 1].(edge := MAX_KEY))
    ensures TNext(t, Ctl(TrimRight)).ctl.leaves[j - 1] == t.ctl.leaves[j - 1]
  {
    var t' := TNext(t, Ctl(TrimRight));
    assert t.nodes[j + 1..] == [];
  }

  /** An empty leaf reads its whole range as absent, so its neighbour can take it over. */
  lemma TrimmedNode(t: Tree, t': Tree, j: int)
    requires Sizes(t) && Edges(t.nodes) && IsLeaf(t.ctl, j) && IsLeaf(t.ctl, j - 1) && NodeOk(t, j)
    requires NodeOk(t, j - 1) && Grows(t, t') && j == |t.nodes| - 1
    requires Joins(t, t', j, t.nodes[j - 1].(edge := MAX_KEY)) && JoinView(t, t', j)
    requires t'.nodes[j - 1] == t.nodes[j - 1].(edge := MAX_KEY)
    requires |t.nodes[j - 1].applied| == |t.nodes[j].applied| && t.nodes[j].kvsets == []
    requires t'.ctl.leaves[j - 1] == t.ctl.leaves[j - 1]
    ensures NodeOk(t', j - 1)
  {
    var l, a := t.nodes[j - 1], |t.nodes[j].applied|;
    UptoGrows(t, t', a);
    forall k: Key | Lo(t.nodes, j - 1) < k <= MAX_KEY ensures Live(Find(l.kvsets, k)) == Live(Find(Upto(t, a), k)) {
      if k > l.edge {
        FindAbsent(l.kvsets, k);
        assert Find(t.nodes[j].kvsets, k) == None;
      }
    }
  }

  lemma TrimKeepsData(t: Tree, j: nat)
    requires TData(t) && TEnabled(t, Ctl(TrimRight)) && j == |t.nodes| - 1 && Settled(t, j) && Settled(t, j - 1)
    requires t.ctl.leaves[j - 1].sgen == t.ctl.leaves[j].sgen
    ensures TData(TNext(t, Ctl(TrimRight)))
  {
    var t', node := TNext(t, Ctl(TrimRight)), t.nodes[j - 1].(edge := MAX_KEY);
    TrimEffect(t, j);
    RestSizes(t, t');
    JoinViews(t, t', j, node);
    assert NodeOk(t, j) && NodeOk(t, j - 1);
    TrimmedNode(t, t', j);
    JoinCarries(t, t', j, node);
  }
}
