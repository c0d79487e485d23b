/** A job's visit to a leaf: entering it, building the subspill and applying one. */
module TreeLeafSteps {
  import opened Kvsets
  import opened SpillProtocol
  import opened SpillInvariant
  import opened TreeContents
  import opened TreeInvariant
  import opened TreeLookup
  import opened TreeFrames
  import opened TreeRootSteps

  /** A spill that has not been delivered to a leaf is not in its log. */
  lemma UndeliveredAbove(t: Tree, n: nat, j: int)
    requires Order(t.ctl) && Sizes(t) && IsLeaf(t.ctl, j) && LogOk(t, j)
    requires n in t.ctl.jobs && !Delivered(t.ctl, n, j)
    ensures |t.nodes[j].applied| < n
  {
    var s := t.ctl;
    assert OrderOk(s, n, j);
    if |t.nodes[j].applied| != s.leaves[j].sgen {
      var i :| i in s.jobs && BumpsAt(s, i, j);
      assert JobOk(s, i) && Carries(s, i, j, s.leaves[j].sgen + 1);
      assert OrderOk(s, s.leaves[j].sgen + 1, j);
    }
  }

  // ----- starting a job -----

  /** Only job n changes, and it has built nothing yet. */
  ghost predicate Begins(t: Tree, t': Tree, n: nat, z: int) {
    var s, s' := t.ctl, t'.ctl;
    && t' == t.(ctl := s') && n in s.jobs && s'.jobs == s.jobs[n := s.jobs[n].(phase := Idle, pin := z)]
    && s.jobs[n].phase.Fresh? && s'.sgen == s.sgen && s'.rsgen == s.rsgen && |s'.leaves| == |s.leaves|
    && (forall j :: IsLeaf(s, j) ==> s'.leaves[j].sgen == s.leaves[j].sgen && s'.leaves[j].token == s.leaves[j].token)
  }

  lemma BeginEffect(t: Tree, n: nat, z: int)
    requires TEnabled(t, Ctl(Begin(n, z)))
    ensures Begins(t, t.(ctl := DoBegin(t.ctl, n, z)), n, z)
  {
  }

  lemma BeginJob(t: Tree, t': Tree, n: nat, z: int)
    requires Sizes(t) && Sizes(t') && Edges(t.nodes) && Begins(t, t', n, z) && JobDataOk(t, n) && LeavingOk(t, n)
    requires JobOk(t.ctl, n)
    requires z != -1 ==>
      && IsLeaf(t.ctl, z) && t.ctl.jobs[n].zwanted && |t.nodes[z].applied| < n
      && KeysIn(t.jobs[n].inputs, Lo(t.nodes, z), t.nodes[z].edge)
    ensures JobDataOk(t', n) && LeavingOk(t', n)
  {
    UptoGrows(t, t', n);
    UptoGrows(t, t', n - 1);
  }

  lemma BeginSizes(t: Tree, t': Tree, n: nat, z: int)
    requires Sizes(t) && Begins(t, t', n, z)
    ensures Sizes(t') && OthersSame(t, t', n) && SameBumping(t.ctl, t'.ctl)
  {
    forall i, j ensures BumpsAt(t'.ctl, i, j) == BumpsAt(t.ctl, i, j) {}
  }

  lemma BeginLeaves(t: Tree, t': Tree, n: nat, z: int)
    requires TData(t) && Sizes(t') && Begins(t, t', n, z) && SameBumping(t.ctl, t'.ctl)
    ensures forall j :: IsLeaf(t'.ctl, j) ==> LogOk(t', j) && NodeOk(t', j)
    ensures RootOk(t')
  {
    LeavesCarry(t, t');
    WorkFrame(t, t');
  }

  lemma BeginKeepsData(t: Tree, n: nat, z: int)
    requires TData(t) && TEnabled(t, Ctl(Begin(n, z))) && JobOk(t.ctl, n)
    requires z != -1 ==> |t.nodes[z].applied| < n
    ensures TData(t.(ctl := DoBegin(t.ctl, n, z)))
  {
    var t' := t.(ctl := DoBegin(t.ctl, n, z));
    BeginEffect(t, n, z);
    BeginCarries(t, t', n, z);
  }

  lemma BeginCarries(t: Tree, t': Tree, n: nat, z: int)
    requires TData(t) && Begins(t, t', n, z) && JobOk(t.ctl, n)
    requires z != -1 ==>
      && IsLeaf(t.ctl, z) && t.ctl.jobs[n].zwanted && |t.nodes[z].applied| < n
      && KeysIn(t.jobs[n].inputs, Lo(t.nodes, z), t.nodes[z].edge)
    ensures TData(t')
  {
    BeginSizes(t, t', n, z);
    BeginLeaves(t, t', n, z);
    OtherJobsCarry(t, t', n);
    BeginJob(t, t', n, z);
    OtherSubsCarry(t, t', n);
    BeginSubs(t, t', n, z);
  }

  lemma BeginSubs(t: Tree, t': Tree, n: nat, z: int)
    requires Sizes(t') && Edges(t'.nodes) && Begins(t, t', n, z) && t.ctl.jobs[n].pos == -1
    ensures forall j :: IsLeaf(t'.ctl, j) ==> SubOk(t', n, j)
  {
  }

  // ----- entering a leaf -----

  ghost predicate Enters(t: Tree, t': Tree, n: nat) {
    var s, s' := t.ctl, t'.ctl;
    && n in s.jobs && n in t.jobs && IsLeaf(s, s.jobs[n].pos + 1) && |t.nodes| == |s.leaves|
    && (var ks := t.nodes[s.jobs[n].pos + 1].kvsets;
        t' == t.(ctl := s', jobs := t.jobs[n := t.jobs[n].(nodeDgen := if ks == [] then 0 else ks[0].dgen)]))
    && s.jobs[n].phase.Idle? && s'.jobs == s.jobs[n := s.jobs[n].(pos := s.jobs[n].pos + 1, phase := Building)]
    && s'.sgen == s.sgen && s'.rsgen == s.rsgen && |s'.leaves| == |s.leaves|
    && (forall j :: IsLeaf(s, j) ==> s'.leaves[j].sgen == s.leaves[j].sgen && s'.leaves[j].token == s.leaves[j].token)
  }

  lemma EnterEffect(t: Tree, n: nat)
    requires TEnabled(t, Ctl(Enter(n)))
    ensures Enters(t, TNext(t, Ctl(Enter(n))), n)
  {
  }

  lemma EnterJob(t: Tree, t': Tree, n: nat)
    requires Sizes(t) && Sizes(t') && Edges(t.nodes) && Enters(t, t', n) && JobDataOk(t, n) && LeavingOk(t, n)
    requires NodeOk(t, t.ctl.jobs[n].pos + 1) && |t.nodes[t.ctl.jobs[n].pos + 1].applied| < n
    ensures JobDataOk(t', n) && LeavingOk(t', n)
  {
    var j := t.ctl.jobs[n].pos + 1;
    var a := |t.nodes[j].applied|;
    UptoGrows(t, t', n);
    UptoGrows(t, t', n - 1);
    assert a < n - 1 ==> t.ends[a] < t.ends[n - 1];
  }

  lemma EnterSizes(t: Tree, t': Tree, n: nat)
    requires Sizes(t) && Enters(t, t', n)
    ensures Sizes(t') && OthersSame(t, t', n) && SameBumping(t.ctl, t'.ctl)
    ensures Built'(t'.ctl.jobs[n]) == Built'(t.ctl.jobs[n])
  {
    forall i, j ensures BumpsAt(t'.ctl, i, j) == BumpsAt(t.ctl, i, j) {}
  }

  lemma EnterSubs(t: Tree, t': Tree, n: nat)
    requires TData(t) && Sizes(t') && Enters(t, t', n)
    ensures forall j :: IsLeaf(t'.ctl, j) ==> SubOk(t', n, j)
  {
    forall j | IsLeaf(t'.ctl, j) ensures SubOk(t', n, j) {
      assert IsLeaf(t.ctl, j);
      SubOkFrame(t, t', n, j);
    }
  }

  lemma EnterLeaves(t: Tree, t': Tree, n: nat)
    requires TData(t) && Sizes(t') && Enters(t, t', n) && SameBumping(t.ctl, t'.ctl)
    ensures forall j :: IsLeaf(t'.ctl, j) ==> LogOk(t', j) && NodeOk(t', j)
    ensures RootOk(t')
  {
    LeavesCarry(t, t');
    WorkFrame(t, t');
  }

  lemma EnterCarries(t: Tree, t': Tree, n: nat)
    requires TData(t) && Enters(t, t', n)
    requires |t.nodes[t.ctl.jobs[n].pos + 1].applied| < n
    ensures TData(t')
  {
    EnterSizes(t, t', n);
    EnterLeaves(t, t', n);
    OtherJobsCarry(t, t', n);
    OtherSubsCarry(t, t', n);
    EnterSubs(t, t', n);
    EnterJob(t, t', n);
  }

  lemma EnterKeepsData(t: Tree, n: nat)
    requires TData(t) && TEnabled(t, Ctl(Enter(n)))
    requires |t.nodes[t.ctl.jobs[n].pos + 1].applied| < n
    ensures TData(TNext(t, Ctl(Enter(n))))
  {
    EnterEffect(t, n);
    EnterCarries(t, TNext(t, Ctl(Enter(n))), n);
  }

  // ----- building the subspill -----

  ghost predicate Builds(t: Tree, t': Tree, n: nat, ss: Subspill) {
    var s, s' := t.ctl, t'.ctl;
    && n in s.jobs && n in t.jobs && IsLeaf(s, s.jobs[n].pos) && |t.nodes| == |s.leaves|
    && (var pos := s.jobs[n].pos; var node := t.nodes[pos];
        t' == t.(ctl := s', nodes := t.nodes[pos := node.(subs := node.subs[n := ss])],
                 jobs := t.jobs[n := t.jobs[n].(cursor := node.edge)]))
    && s.jobs[n].phase.Building? && n in s'.jobs
    && !s'.jobs[n].phase.Building? && !s'.jobs[n].phase.Bumping? && !s'.jobs[n].phase.Done?
    && s'.jobs == s.jobs[n := s.jobs[n].(phase := s'.jobs[n].phase)]
    && s'.sgen == s.sgen && s'.rsgen == s.rsgen && s'.leaves == s.leaves
  }

  lemma BuildEffect(t: Tree, n: nat)
    requires TEnabled(t, Ctl(Check(n)))
    ensures Builds(t, TNext(t, Ctl(Check(n))), n, BuildSubspill(t, n))
  {
  }

  /** What a job builds is the part of its inputs that falls into the leaf: nothing is skipped
      as older than the leaf's newest kvset, and nothing before the cursor is left over. */
  lemma BuiltData(t: Tree, n: nat)
    requires Sizes(t) && Edges(t.nodes) && TEnabled(t, Ctl(Check(n))) && JobDataOk(t, n)
    ensures BuildSubspill(t, n) == SubFor(t, n, t.ctl.jobs[n].pos)
  {
    InputDgens(t, n);
    AllNewer(t.jobs[n].inputs, t.jobs[n].nodeDgen);
  }

  lemma BuildSizes(t: Tree, t': Tree, n: nat, ss: Subspill)
    requires Sizes(t) && Builds(t, t', n, ss)
    ensures Sizes(t') && OthersSame(t, t', n) && SameBumping(t.ctl, t'.ctl) && SameShape(t.nodes, t'.nodes)
    ensures OtherSubsSame(t, t', n)
  {
    forall i, j ensures BumpsAt(t'.ctl, i, j) == BumpsAt(t.ctl, i, j) {}
  }

  lemma BuildLeaves(t: Tree, t': Tree, n: nat, ss: Subspill)
    requires TData(t) && Sizes(t') && Builds(t, t', n, ss) && SameBumping(t.ctl, t'.ctl) && SameShape(t.nodes, t'.nodes)
    ensures forall j :: IsLeaf(t'.ctl, j) ==> LogOk(t', j) && NodeOk(t', j)
    ensures RootOk(t')
  {
    WorkFrame(t, t');
    ShapeEdges(t.nodes, t'.nodes);
    forall j | IsLeaf(t'.ctl, j) ensures LogOk(t', j) && NodeOk(t', j) {
      assert IsLeaf(t.ctl, j);
      LogOkFrame(t, t', j, j);
      NodeOkFrame(t, t', j, j);
    }
  }

  lemma BuildJob(t: Tree, t': Tree, n: nat, ss: Subspill)
    requires Sizes(t) && Sizes(t') && Edges(t.nodes) && Edges(t'.nodes) && Builds(t, t', n, ss)
    requires SameShape(t.nodes, t'.nodes)
    requires JobDataOk(t, n) && LeavingOk(t, n)
    ensures JobDataOk(t', n) && LeavingOk(t', n)
  {
    ShapeEdges(t.nodes, t'.nodes);
    UptoGrows(t, t', n);
    UptoGrows(t, t', n - 1);
  }

  lemma BuildSub(t: Tree, t': Tree, n: nat, ss: Subspill, j: int)
    requires Sizes(t) && Sizes(t') && Edges(t.nodes) && Edges(t'.nodes) && Builds(t, t', n, ss)
    requires SameShape(t.nodes, t'.nodes)
    requires ss == SubFor(t, n, t.ctl.jobs[n].pos) && IsLeaf(t.ctl, j) && SubOk(t, n, j) && JobDataOk(t, n)
    ensures SubOk(t', n, j)
  {
    ShapeEdges(t.nodes, t'.nodes);
    SubForFits(t, n, j);
  }

  lemma BuildSubs(t: Tree, t': Tree, n: nat, ss: Subspill)
    requires TData(t) && Sizes(t') && Edges(t'.nodes) && Builds(t, t', n, ss) && SameShape(t.nodes, t'.nodes)
    requires ss == SubFor(t, n, t.ctl.jobs[n].pos)
    ensures forall j :: IsLeaf(t'.ctl, j) ==> SubOk(t', n, j)
  {
    forall j | IsLeaf(t'.ctl, j) ensures SubOk(t', n, j) {
      assert IsLeaf(t.ctl, j);
      BuildSub(t, t', n, ss, j);
    }
  }

  lemma BuildCarries(t: Tree, t': Tree, n: nat, ss: Subspill)
    requires TData(t) && Builds(t, t', n, ss)
    requires ss == SubFor(t, n, t.ctl.jobs[n].pos)
    ensures TData(t')
  {
    BuildSizes(t, t', n, ss);
    ShapeEdges(t.nodes, t'.nodes);
    BuildLeaves(t, t', n, ss);
    OtherJobsCarry(t, t', n);
    OtherSubsCarry(t, t', n);
    BuildJob(t, t', n, ss);
    BuildSubs(t, t', n, ss);
  }

  lemma CheckKeepsData(t: Tree, n: nat)
    requires TData(t) && TEnabled(t, Ctl(Check(n)))
    ensures TData(TNext(t, Ctl(Check(n))))
  {
    BuildEffect(t, n);
    BuiltData(t, n);
    BuildCarries(t, TNext(t, Ctl(Check(n))), n, BuildSubspill(t, n));
  }
}
