/**
 The lists of kvsets in the leaves.

 In every run the kvsets of a leaf are listed youngest first, and each step changes the list
 of a leaf only as the operation promises.
 */
module TreeOrder {
  import opened Options
  import opened Kvsets
  import opened KvsetLaws
  import opened SpillProtocol
  import opened SpillInvariant
  import opened TreeContents
  import opened TreeInvariant
  import opened TreeLookup
  import opened TreeRootSteps
  import opened TreeApplySteps
  import opened TreeTheorems

  ghost predicate LeavesOrdered(nodes: seq<Node>) {
    forall j :: 0 <= j < |nodes| ==> YoungestFirst(nodes[j].kvsets)
  }

  /** The kvsets a spill has claimed, and the generations of the kvset it makes of them. */
  lemma InputOrder(t: Tree, n: nat)
    requires Sizes(t) && Edges(t.nodes) && n in t.ctl.jobs && JobDataOk(t, n)
    ensures YoungestFirst(t.jobs[n].inputs) && t.jobs[n].inputs != []
    ensures t.jobs[n].inputs[0].dgen == t.ends[n] && MinLo(t.jobs[n].inputs) == t.ends[n - 1] + 1
  {
    var ks := t.jobs[n].inputs;
    InputDgens(t, n);
    PastLength(t.hist, t.ends[n]);
    forall i | 0 <= i < |ks| ensures ks[i].lo == t.ends[n] - i { assert Upto(t, n)[i] == ks[i]; }
    MinLoIsOldest(ks);
    assert ks[|ks| - 1].lo == t.ends[n - 1] + 1;
  }

  // ----- adding a subspill -----

  /** The leaf gets one kvset more, at the head, made of the ingests of the spill and no others;
      or the spill's own kvsets, at the head; or nothing. */
  ghost predicate HeadAdded(t: Tree, m: nat, ks: seq<Kvset>, ks': seq<Kvset>)
    requires 1 <= m < |t.ends| && m in t.jobs
  {
    || ks' == ks
    || ks' == t.jobs[m].inputs + ks
    || (|ks'| == |ks| + 1 && ks'[1..] == ks && ks'[0].dgen == t.ends[m] && ks'[0].lo == t.ends[m - 1] + 1)
  }

  lemma AddedAtHead(t: Tree, m: nat, j: int, ss: Subspill)
    requires Sizes(t) && Edges(t.nodes) && m in t.ctl.jobs && IsLeaf(t.ctl, j) && JobDataOk(t, m) && NodeOk(t, j)
    requires |t.nodes[j].applied| == m - 1 && t.jobs[m].inputs != []
    ensures var ks, ks' := t.nodes[j].kvsets, WithSubspill(ss, t.jobs[m].inputs, t.nodes[j].kvsets);
      HeadAdded(t, m, ks, ks') && (YoungestFirst(ks) ==> YoungestFirst(ks'))
  {
    InputDgens(t, m);
    InputOrder(t, m);
    var ks, inputs := t.nodes[j].kvsets, t.jobs[m].inputs;
    YoungerMovesToHead(inputs, ks);
    var ks' := WithSubspill(ss, inputs, ks);
    if ks' != ks && !ss.ZMove? { assert ks'[1..] == ks; }
    forall i | 0 <= i < |ks| ensures ks[i].dgen <= t.ends[m - 1] {}
  }

  lemma ApplyAdds(t: Tree, n: nat)
    requires TInv(t) && TEnabled(t, Ctl(Apply(n)))
    ensures var t', j, m := TNext(t, Ctl(Apply(n))), t.ctl.jobs[n].pos, t.ctl.jobs[n].phase.m;
      && |t'.nodes| == |t.nodes| && t'.nodes == t.nodes[j := t'.nodes[j]] && m == |t.nodes[j].applied| + 1
      && 1 <= m < |t.ends| && m in t.jobs && HeadAdded(t, m, t.nodes[j].kvsets, t'.nodes[j].kvsets)
      && (YoungestFirst(t.nodes[j].kvsets) ==> YoungestFirst(t'.nodes[j].kvsets))
  {
    var j, m := t.ctl.jobs[n].pos, t.ctl.jobs[n].phase.m;
    NextInLine(t, n);
    AddedFits(t, n);
    ApplyEffect(t, n);
    assert JobDataOk(t, m) && NodeOk(t, j);
    AddedAtHead(t, m, j, t.nodes[j].subs[m]);
  }

  // ----- the other steps -----

  lemma CompactOrder(t: Tree, j: nat)
    requires TEnabled(t, Ctl(CompactEnd(j))) && YoungestFirst(t.nodes[j].kvsets)
    ensures YoungestFirst(DoCompact(t, j).nodes[j].kvsets)
  {
    var node := t.nodes[j];
    var b := |node.kvsets| - node.older;
    CompactedOrder(node.kvsets, b - node.count, b, node.older == 0);
    assert DoCompact(t, j).nodes[j].kvsets ==
      node.kvsets[..b - node.count] + Compacted(node.kvsets[b - node.count..b], node.older == 0) + node.kvsets[b..];
  }

  lemma SplitOrder(t: Tree, j: nat, key: Key)
    requires TEnabled(t, InstallSplit(j, key)) && LeavesOrdered(t.nodes)
    ensures LeavesOrdered(DoSplitData(t, j, key).nodes)
  {
    var t' := DoSplitData(t, j, key);
    CutOrder(t.nodes[j].kvsets, Lo(t.nodes, j), key);
    CutOrder(t.nodes[j].kvsets, key, t.nodes[j].edge);
    if HasLeft(t.nodes[j], Lo(t.nodes, j), key) {
      forall i | 0 <= i < |t'.nodes| ensures YoungestFirst(t'.nodes[i].kvsets) {
        assert i < j ==> t'.nodes[i] == t.nodes[i];
        assert i > j + 1 ==> t'.nodes[i] == t.nodes[i - 1];
      }
    }
  }

  lemma JoinOrder(t: Tree, j: nat)
    requires TEnabled(t, Ctl(JoinInstall(j))) && LeavesOrdered(t.nodes)
    ensures LeavesOrdered(DoJoinData(t, j).nodes)
  {
    var t' := DoJoinData(t, j);
    MoveOrder(t.nodes[j - 1].kvsets, t.nodes[j].kvsets);
    forall i | 0 <= i < |t'.nodes| ensures YoungestFirst(t'.nodes[i].kvsets) {
      assert i < j - 1 ==> t'.nodes[i] == t.nodes[i];
      assert i >= j ==> t'.nodes[i] == t.nodes[i + 1];
    }
  }

  lemma CtlLists(t: Tree, st: Step)
    requires TEnabled(t, Ctl(st)) && LeavesOrdered(t.nodes) && !st.Apply?
    ensures LeavesOrdered(TNext(t, Ctl(st)).nodes)
  {
    if st.CompactEnd? {
      CompactOrder(t, st.j);
    } else if st.JoinInstall? {
      JoinOrder(t, st.j);
    } else if !st.Check? && !st.TrimRight? {
      assert TNext(t, Ctl(st)).nodes == t.nodes;
    }
  }

  lemma OtherLists(t: Tree, ts: TStep)
    requires TEnabled(t, ts) && LeavesOrdered(t.nodes) && !(ts.Ctl? && ts.st.Apply?)
    ensures LeavesOrdered(TNext(t, ts).nodes)
  {
    if ts.InstallSplit? { SplitOrder(t, ts.j, ts.key); }
    if ts.Ctl? { CtlLists(t, ts.st); }
  }

  lemma StepKeepsLeafOrder(t: Tree, ts: TStep)
    requires TInv(t) && TEnabled(t, ts) && LeavesOrdered(t.nodes)
    ensures LeavesOrdered(TNext(t, ts).nodes)
  {
    if ts.Ctl? && ts.st.Apply? {
      ApplyAdds(t, ts.st.n);
    } else {
      OtherLists(t, ts);
    }
  }

  lemma {:induction false} RunKeepsLeafOrder(t: Tree, steps: seq<TStep>, t': Tree)
    requires TInv(t) && LeavesOrdered(t.nodes) && TReaches(t, steps, t')
    ensures LeavesOrdered(t'.nodes)
    decreases |steps|
  {
    if steps != [] {
      StepKeepsLeafOrder(t, steps[0]);
      StepKeepsCtl(t, steps[0]);
      StepKeepsData(t, steps[0]);
      RunKeepsLeafOrder(TNext(t, steps[0]), steps[1..], t');
    }
  }

  /** In every state of every run, each leaf and the root list their kvsets youngest first. */
  lemma ListsAreOrdered(t0: Tree, steps: seq<TStep>, t: Tree)
    requires TInit(t0) && TReaches(t0, steps, t)
    ensures LeavesOrdered(t.nodes) && YoungestFirst(t.root)
  {
    InitTInv(t0);
    RunKeepsLeafOrder(t0, steps, t);
    RunTInv(t0, steps, t);
    PastLength(t.hist, |t.hist|);
    RootLength(t);
  }
}
