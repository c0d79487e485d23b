/** Adding a subspill to a leaf. */
module TreeApplySteps {
  import opened Kvsets
  import opened SpillProtocol
  import opened SpillInvariant
  import opened TreeContents
  import opened TreeInvariant
  import opened TreeLookup
  import opened TreeFrames
  import opened TreeRootSteps
  import opened TreeLeafSteps

  /** The subspill being added is the next one for the leaf, and it has been built for it. */
  ghost predicate NextUp(t: Tree, n: nat)
    requires Sizes(t) && Enabled(t.ctl, Apply(n))
  {
    var s := t.ctl;
    var pos, m := s.jobs[n].pos, s.jobs[n].phase.m;
    m in s.jobs && s.leaves[pos].sgen == m - 1 && |t.nodes[pos].applied| == m - 1 && pos < Built'(s.jobs[m])
  }

  lemma NextInLine(t: Tree, n: nat)
    requires Order(t.ctl) && Sizes(t) && Enabled(t.ctl, Apply(n)) && LogOk(t, t.ctl.jobs[n].pos)
    ensures NextUp(t, n)
  {
    var s := t.ctl;
    var pos, m := s.jobs[n].pos, s.jobs[n].phase.m;
    assert JobOk(s, n) && Carries(s, n, pos, m) && OrderOk(s, m, pos);
    forall i | i in s.jobs ensures !BumpsAt(s, i, pos) { assert OneCarrier(s, i, n); }
  }

  // ----- the leaf's contents -----

  /** Adding subspill m makes the leaf read as the ingests up to spill m. */
  lemma AddedReads(t: Tree, m: nat, pos: int, ss: Subspill, k: Key)
    requires Sizes(t) && Edges(t.nodes) && m in t.ctl.jobs && IsLeaf(t.ctl, pos) && JobDataOk(t, m) && NodeOk(t, pos)
    requires |t.nodes[pos].applied| == m - 1 && t.jobs[m].inputs != [] && SubFits(t, m, pos, ss)
    requires Lo(t.nodes, pos) < k <= t.nodes[pos].edge
    ensures Live(Find(WithSubspill(ss, t.jobs[m].inputs, t.nodes[pos].kvsets), k)) == Live(Find(Upto(t, m), k))
  {
    var ks, inputs := t.nodes[pos].kvsets, t.jobs[m].inputs;
    FindConcat(inputs, Upto(t, m - 1), k);
    match ss {
      case Noop => FindOutside(inputs, Lo(t.nodes, pos), t.nodes[pos].edge, k);
      case Built(d) =>
        FindMerge(inputs, k);
        assert k in d <==> k in Merge(inputs);
      case ZMove =>
        InputDgens(t, m);
        YoungerMovesToHead(inputs, ks);
        FindConcat(inputs, ks, k);
    }
  }

  lemma AddedBounds(t: Tree, m: nat, pos: int, ss: Subspill)
    requires Sizes(t) && Edges(t.nodes) && m in t.ctl.jobs && IsLeaf(t.ctl, pos) && JobDataOk(t, m) && NodeOk(t, pos)
    requires |t.nodes[pos].applied| == m - 1 && t.jobs[m].inputs != [] && SubFits(t, m, pos, ss)
    ensures var ks := WithSubspill(ss, t.jobs[m].inputs, t.nodes[pos].kvsets);
      KeysIn(ks, Lo(t.nodes, pos), t.nodes[pos].edge) && DgenUpTo(ks, t.ends[m]) && |t.nodes[pos].kvsets| <= |ks|
  {
    InputDgens(t, m);
    YoungerMovesToHead(t.jobs[m].inputs, t.nodes[pos].kvsets);
  }

  // ----- the step -----

  ghost predicate Adds(t: Tree, t': Tree, n: nat, m: nat, pos: int, ks: seq<Kvset>) {
    var s, s' := t.ctl, t'.ctl;
    && n in s.jobs && IsLeaf(s, pos) && s.jobs[n].pos == pos && s.jobs[n].phase.Applying? && s.jobs[n].phase.m == m
    && s' == s.(jobs := s.jobs[n := s.jobs[n].(phase := Bumping(m, s.jobs[n].phase.popped))])
    && |t.nodes| == |s.leaves|
    && t'.nodes == t.nodes[pos := t.nodes[pos].(applied := t.nodes[pos].applied + [m], kvsets := ks)]
    && t'.jobs == t.jobs && t'.hist == t.hist && t'.ends == t.ends
    && m in s.jobs && |t.nodes[pos].applied| == m - 1 && s.leaves[pos].sgen == m - 1
  }

  /** A zspill moves its kvsets out of the root when its own subspill is added to its leaf. */
  ghost predicate Leaves(t: Tree, t': Tree, m: nat, ss: Subspill) {
    && m in t.ctl.jobs && |t.work| == |t.root|
    && if ss.ZMove?
       then t'.root == Unclaimed(t.root, t.work, m) && t'.work == Unclaimed(t.work, t.work, m)
       else t'.root == t.root && t'.work == t.work
  }

  lemma ApplyEffect(t: Tree, n: nat)
    requires TEnabled(t, Ctl(Apply(n))) && Sizes(t) && NextUp(t, n)
    ensures var t', pos, m := TNext(t, Ctl(Apply(n))), t.ctl.jobs[n].pos, t.ctl.jobs[n].phase.m;
      var ss := t.nodes[pos].subs[m];
      && Adds(t, t', n, m, pos, WithSubspill(ss, t.jobs[m].inputs, t.nodes[pos].kvsets))
      && Leaves(t, t', m, ss)
  {
  }

  lemma AddSizes(t: Tree, t': Tree, n: nat, m: nat, pos: int, ks: seq<Kvset>)
    requires Sizes(t) && Edges(t.nodes) && Adds(t, t', n, m, pos, ks)
    ensures Grows(t, t') && SameEdges(t.nodes, t'.nodes) && Edges(t'.nodes)
    ensures forall j :: 0 <= j <= |t.nodes| ==> Lo(t'.nodes, j) == Lo(t.nodes, j)
  {
    ShapeEdges(t.nodes, t'.nodes);
  }

  lemma AddLog(t: Tree, t': Tree, n: nat, m: nat, pos: int, ks: seq<Kvset>, j: int)
    requires Sizes(t) && Sizes(t') && Adds(t, t', n, m, pos, ks) && IsLeaf(t.ctl, j) && LogOk(t, j)
    ensures LogOk(t', j)
  {
    if j == pos {
      assert BumpsAt(t'.ctl, n, pos);
    } else {
      LogOkFrame(t, t', j, j);
    }
  }

  lemma AddNode(t: Tree, t': Tree, n: nat, m: nat, pos: int, ss: Subspill, ks: seq<Kvset>, j: int)
    requires Sizes(t) && Sizes(t') && Edges(t.nodes) && Adds(t, t', n, m, pos, ks) && IsLeaf(t.ctl, j) && NodeOk(t, j)
    requires JobDataOk(t, m) && t.jobs[m].inputs != [] && NodeOk(t, pos) && SubFits(t, m, pos, ss)
    requires ks == WithSubspill(ss, t.jobs[m].inputs, t.nodes[pos].kvsets)
    ensures NodeOk(t', j)
  {
    AddSizes(t, t', n, m, pos, ks);
    if j == pos {
      UptoGrows(t, t', m);
      AddedBounds(t, m, pos, ss);
      forall k: Key | Lo(t.nodes, pos) < k <= t.nodes[pos].edge
        ensures Live(Find(ks, k)) == Live(Find(Upto(t', m), k)) {
        AddedReads(t, m, pos, ss, k);
      }
    } else {
      NodeOkFrame(t, t', j, j);
    }
  }

  /** The subspill is the move of the zspill exactly at the leaf it pins. */
  ghost predicate MoveAtPin(t: Tree, m: nat, pos: int, ss: Subspill) {
    && m in t.ctl.jobs && (ss.ZMove? ==> t.ctl.jobs[m].zwanted)
    && (t.ctl.rsgen < m ==> (ss.ZMove? <==> t.ctl.jobs[m].pin == pos))
  }

  lemma AddJob(t: Tree, t': Tree, n: nat, m: nat, pos: int, ss: Subspill, ks: seq<Kvset>, i: nat)
    requires Sizes(t) && Sizes(t') && Edges(t.nodes) && Adds(t, t', n, m, pos, ks) && MoveAtPin(t, m, pos, ss)
    requires i in t.ctl.jobs && JobDataOk(t, i) && LeavingOk(t, i) && LeavingOk(t, m)
    requires Gone(t') == if ss.ZMove? && Gone(t) < t.ends[m] then t.ends[m] else Gone(t)
    ensures Edges(t'.nodes) && JobDataOk(t', i) && LeavingOk(t', i)
  {
    AddSizes(t, t', n, m, pos, ks);
    JobDataOkFrame(t, t', i);
    if m < i { assert t.ends[m] <= t.ends[i - 1]; }
    if i < m { assert t.ends[i - 1] < t.ends[m - 1]; }
  }

  lemma AddSub(t: Tree, t': Tree, n: nat, m: nat, pos: int, ks: seq<Kvset>, i: nat, j: int)
    requires Sizes(t) && Sizes(t') && Edges(t.nodes) && Adds(t, t', n, m, pos, ks)
    requires i in t.ctl.jobs && IsLeaf(t.ctl, j) && SubOk(t, i, j)
    ensures Edges(t'.nodes) && SubOk(t', i, j)
  {
    AddSizes(t, t', n, m, pos, ks);
  }

  /** With the last keep entries claimed by m and no others, removing them keeps the prefix. */
  lemma {:induction false} UnclaimedPrefix<T>(xs: seq<T>, work: seq<nat>, n: nat, keep: nat)
    requires |xs| == |work| && keep <= |xs|
    requires forall i :: 0 <= i < |work| ==> (work[i] == n <==> i >= keep)
    ensures Unclaimed(xs, work, n) == xs[..keep]
  {
    if xs != [] {
      if keep == 0 {
        assert work[0] == n;
        UnclaimedPrefix(xs[1..], work[1..], n, 0);
      } else {
        assert work[0] != n;
        UnclaimedPrefix(xs[1..], work[1..], n, keep - 1);
        assert xs[..keep] == [xs[0]] + xs[1..][..keep - 1];
      }
    }
  }

  lemma AddRoot(t: Tree, t': Tree, n: nat, m: nat, pos: int, ss: Subspill, ks: seq<Kvset>)
    requires Sizes(t) && Sizes(t') && RootOk(t) && Adds(t, t', n, m, pos, ks) && Leaves(t, t', m, ss)
    requires LeavingOk(t, m) && (ss.ZMove? ==> t.ctl.jobs[m].zwanted)
    ensures RootOk(t')
    ensures Gone(t') == if ss.ZMove? && Gone(t) < t.ends[m] then t.ends[m] else Gone(t)
  {
    if ss.ZMove? {
      var keep := if Gone(t) < t.ends[m] then |t.hist| - t.ends[m] else |t.root|;
      EndsInHistory(t, m);
      MarksOfOldest(t, m);
      UnclaimedPrefix(t.root, t.work, m, keep);
      UnclaimedPrefix(t.work, t.work, m, keep);
      CutRoot(t, t', keep);
    } else {
      WorkFrame(t, t');
    }
  }

  lemma AddLeaves(t: Tree, t': Tree, n: nat, m: nat, pos: int, ss: Subspill, ks: seq<Kvset>)
    requires TData(t) && Sizes(t') && Adds(t, t', n, m, pos, ks) && t.jobs[m].inputs != [] && SubFits(t, m, pos, ss)
    requires ks == WithSubspill(ss, t.jobs[m].inputs, t.nodes[pos].kvsets)
    ensures forall j :: IsLeaf(t'.ctl, j) ==> LogOk(t', j) && NodeOk(t', j)
  {
    assert JobDataOk(t, m) && NodeOk(t, pos);
    forall j | IsLeaf(t'.ctl, j) ensures LogOk(t', j) && NodeOk(t', j) {
      assert IsLeaf(t.ctl, j);
      AddLog(t, t', n, m, pos, ks, j);
      AddNode(t, t', n, m, pos, ss, ks, j);
    }
  }

  lemma AddJobs(t: Tree, t': Tree, n: nat, m: nat, pos: int, ss: Subspill, ks: seq<Kvset>)
    requires TData(t) && Sizes(t') && Edges(t'.nodes) && Adds(t, t', n, m, pos, ks) && MoveAtPin(t, m, pos, ss)
    requires Gone(t') == if ss.ZMove? && Gone(t) < t.ends[m] then t.ends[m] else Gone(t)
    ensures forall i :: i in t'.ctl.jobs ==> JobDataOk(t', i) && LeavingOk(t', i)
  {
    assert LeavingOk(t, m);
    forall i | i in t'.ctl.jobs ensures JobDataOk(t', i) && LeavingOk(t', i) {
      assert i in t.ctl.jobs;
      AddJob(t, t', n, m, pos, ss, ks, i);
    }
  }

  lemma AddSubs(t: Tree, t': Tree, n: nat, m: nat, pos: int, ks: seq<Kvset>)
    requires TData(t) && Sizes(t') && Edges(t'.nodes) && Adds(t, t', n, m, pos, ks)
    ensures forall i, j :: i in t'.ctl.jobs && IsLeaf(t'.ctl, j) ==> SubOk(t', i, j)
  {
    forall i, j | i in t'.ctl.jobs && IsLeaf(t'.ctl, j) ensures SubOk(t', i, j) {
      assert i in t.ctl.jobs && IsLeaf(t.ctl, j);
      AddSub(t, t', n, m, pos, ks, i, j);
    }
  }

  lemma AddCarries(t: Tree, t': Tree, n: nat, m: nat, pos: int, ss: Subspill, ks: seq<Kvset>)
    requires TData(t) && Adds(t, t', n, m, pos, ks) && Leaves(t, t', m, ss) && t.jobs[m].inputs != []
    requires SubFits(t, m, pos, ss) && MoveAtPin(t, m, pos, ss)
    requires ks == WithSubspill(ss, t.jobs[m].inputs, t.nodes[pos].kvsets)
    ensures TData(t')
  {
    AddSizes(t, t', n, m, pos, ks);
    assert JobDataOk(t, m) && LeavingOk(t, m);
    AddRoot(t, t', n, m, pos, ss, ks);
    AddLeaves(t, t', n, m, pos, ss, ks);
    AddJobs(t, t', n, m, pos, ss, ks);
    AddSubs(t, t', n, m, pos, ks);
  }

  /** The subspill about to be added holds what its spill has for the leaf. */
  lemma AddedFits(t: Tree, n: nat)
    requires TData(t) && Enabled(t.ctl, Apply(n)) && NextUp(t, n)
    ensures var pos, m := t.ctl.jobs[n].pos, t.ctl.jobs[n].phase.m;
      && m in t.nodes[pos].subs && m in t.jobs && t.jobs[m].inputs != []
      && SubFits(t, m, pos, t.nodes[pos].subs[m]) && MoveAtPin(t, m, pos, t.nodes[pos].subs[m])
  {
    var pos, m := t.ctl.jobs[n].pos, t.ctl.jobs[n].phase.m;
    assert IsLeaf(t.ctl, pos) && SubOk(t, m, pos) && JobDataOk(t, m);
    InputDgens(t, m);
  }

  lemma ApplyKeepsData(t: Tree, n: nat)
    requires TData(t) && TEnabled(t, Ctl(Apply(n))) && NextUp(t, n)
    ensures TData(TNext(t, Ctl(Apply(n))))
  {
    var pos, m := t.ctl.jobs[n].pos, t.ctl.jobs[n].phase.m;
    var ss := t.nodes[pos].subs[m];
    AddedFits(t, n);
    ApplyEffect(t, n);
    AddCarries(t, TNext(t, Ctl(Apply(n))), n, m, pos, ss, WithSubspill(ss, t.jobs[m].inputs, t.nodes[pos].kvsets));
  }
}
