/** The root selector picks what the spill protocol lets a job claim. */
module RootClaims {
  import RunSelectors
  import opened Kvsets
  import opened TreeContents

  /** Every key of the kvset belongs to leaf j: it could be moved there as a whole. */
  predicate LiesIn(nodes: seq<Node>, ks: Kvset, j: int) {
    0 <= j < |nodes| && forall k :: k in ks.data ==> Lo(nodes, j) < k <= nodes[j].edge
  }

  /** What the selector sees of the root. */
  ghost predicate Describes(l: seq<RunSelectors.Kvset>, t: Tree) {
    && |l| == |t.root| == |t.work|
    && (forall i :: 0 <= i < |l| ==> (l[i].busy <==> t.work[i] != 0))
    && (forall i :: 0 <= i < |l| ==>
          if l[i].znode == RunSelectors.NONE
          then forall j :: 0 <= j < |t.nodes| ==> !LiesIn(t.nodes, t.root[i], j)
          else LiesIn(t.nodes, t.root[i], l[i].znode))
  }

  /** So do all kvsets of a run. */
  ghost predicate RunLiesIn(t: Tree, mark: int, c: nat, j: int) {
    forall i :: mark - c < i <= mark && 0 <= i < |t.root| ==> LiesIn(t.nodes, t.root[i], j)
  }

  /** A zspill claims kvsets that lie in one leaf, an ordinary spill none that lies in one. */
  ghost predicate AsSelected(t: Tree, ts: TStep) {
    ts.ClaimRun? && CanClaim(t, ts.c, ts.zwanted) ==>
      var mark := OldestFree(t.work);
      if ts.zwanted
      then exists j :: RunLiesIn(t, mark, ts.c, j)
      else forall i, j :: mark - ts.c < i <= mark && 0 <= j < |t.nodes| ==> !LiesIn(t.nodes, t.root[i], j)
  }

  lemma SelectedRunIsClaimable(t: Tree, l: seq<RunSelectors.Kvset>, c: RunSelectors.Choice)
    requires Describes(l, t) && c.n > 0 && RunSelectors.RootRun(l, c)
    ensures c.mark == OldestFree(t.work) && CanClaim(t, c.n, c.action.Zspill?)
    ensures AsSelected(t, ClaimRun(c.n, c.action.Zspill?))
  {
    var mark := OldestFree(t.work);
    assert !l[c.mark].busy;
    assert mark <= c.mark ==> mark == c.mark;
    if c.action.Zspill? {
      var j := l[mark].znode;
      forall i | mark - c.n < i <= mark ensures LiesIn(t.nodes, t.root[i], j) { assert l[i].znode == j; }
      assert RunLiesIn(t, mark, c.n, j);
    } else {
      forall i, j | mark - c.n < i <= mark && 0 <= j < |t.nodes| ensures !LiesIn(t.nodes, t.root[i], j) {
        assert l[i].znode == RunSelectors.NONE;
      }
    }
  }
}
