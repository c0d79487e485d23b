/** How the parts of the data invariant carry over from one state to the next. */
module TreeFrames {
  import opened Kvsets
  import opened SpillProtocol
  import opened SpillInvariant
  import opened TreeContents
  import opened TreeInvariant
  import opened TreeLookup

  /** History and claimed runs only grow. */
  ghost predicate Grows(t: Tree, t': Tree) {
    Sizes(t) && Sizes(t') && t.hist <= t'.hist && t.ends <= t'.ends
  }

  lemma {:induction false} PastGrows(hist: seq<Data>, hist': seq<Data>, d: nat)
    requires hist <= hist' && d <= |hist|
    ensures Past(hist', d) == Past(hist, d)
  {
    if d > 0 { PastGrows(hist, hist', d - 1); }
  }

  lemma UptoGrows(t: Tree, t': Tree, n: nat)
    requires Grows(t, t') && n <= t.ctl.sgen
    ensures n <= t'.ctl.sgen && t'.ends[n] == t.ends[n] && Upto(t', n) == Upto(t, n)
  {
    assert t'.ends[n] == t.ends[n];
    PastGrows(t.hist, t'.hist, t.ends[n]);
  }

  lemma NodeOkFrame(t: Tree, t': Tree, j: int, j': int)
    requires Grows(t, t') && IsLeaf(t.ctl, j) && IsLeaf(t'.ctl, j') && NodeOk(t, j)
    requires t'.nodes[j'] == t.nodes[j].(subs := t'.nodes[j'].subs)
    requires Lo(t'.nodes, j') == Lo(t.nodes, j)
    requires t'.ctl.leaves[j'].token.Compacting? ==> t.ctl.leaves[j].token.Compacting?
    ensures NodeOk(t', j')
  {
    UptoGrows(t, t', |t.nodes[j].applied|);
  }

  lemma LogOkFrame(t: Tree, t': Tree, j: int, j': int)
    requires Sizes(t) && Sizes(t') && IsLeaf(t.ctl, j) && IsLeaf(t'.ctl, j') && LogOk(t, j)
    requires t'.nodes[j'].applied == t.nodes[j].applied && t'.ctl.leaves[j'].sgen == t.ctl.leaves[j].sgen
    requires forall n :: BumpsAt(t'.ctl, n, j') == BumpsAt(t.ctl, n, j)
    ensures LogOk(t', j')
  {
    if |t.nodes[j].applied| != t.ctl.leaves[j].sgen {
      var n :| n in t.ctl.jobs && BumpsAt(t.ctl, n, j);
      assert BumpsAt(t'.ctl, n, j');
    }
    forall n | n in t'.ctl.jobs && BumpsAt(t'.ctl, n, j') ensures |t'.nodes[j'].applied| == t'.ctl.leaves[j'].sgen + 1 {
      assert BumpsAt(t.ctl, n, j);
    }
  }

  lemma JobDataOkFrame(t: Tree, t': Tree, n: nat)
    requires Grows(t, t') && Edges(t.nodes) && Edges(t'.nodes) && n in t.ctl.jobs && n in t'.ctl.jobs && JobDataOk(t, n)
    requires t'.jobs[n] == t.jobs[n] && t'.ctl.jobs[n].zwanted == t.ctl.jobs[n].zwanted
    requires t'.ctl.jobs[n].phase.Building? ==> t.ctl.jobs[n].phase.Building?
    requires var b, b' := Built'(t.ctl.jobs[n]), Built'(t'.ctl.jobs[n]);
      0 <= b' <= |t'.nodes| && Lo(t'.nodes, b') == Lo(t.nodes, b)
    requires var p, p' := t.ctl.jobs[n].pin, t'.ctl.jobs[n].pin;
      p' != -1 ==>
        && p != -1 && IsLeaf(t'.ctl, p')
        && Lo(t'.nodes, p') == Lo(t.nodes, p) && t'.nodes[p'].edge == t.nodes[p].edge
    ensures JobDataOk(t', n)
  {
    UptoGrows(t, t', n);
    UptoGrows(t, t', n - 1);
  }

  lemma LeavingOkFrame(t: Tree, t': Tree, n: nat)
    requires Grows(t, t') && n in t.ctl.jobs && n in t'.ctl.jobs && LeavingOk(t, n)
    requires t'.ctl.rsgen == t.ctl.rsgen && Gone(t') == Gone(t) && t'.ctl.jobs[n].zwanted == t.ctl.jobs[n].zwanted
    requires var p, p' := t.ctl.jobs[n].pin, t'.ctl.jobs[n].pin;
      && -1 <= p' < |t'.nodes| && (p == -1 <==> p' == -1)
      && (p != -1 ==> |t'.nodes[p'].applied| == |t.nodes[p].applied|)
    ensures LeavingOk(t', n)
  {
    assert t'.ends[n - 1] == t.ends[n - 1];
  }

  lemma WorkFrame(t: Tree, t': Tree)
    requires Sizes(t) && Sizes(t') && RootOk(t)
    requires t'.root == t.root && t'.work == t.work && t'.hist == t.hist && t'.ends == t.ends
    requires t'.ctl.sgen == t.ctl.sgen
    ensures RootOk(t')
  {
    forall i | 0 <= i < |t'.work| ensures WorkOk(t', i) { assert WorkOk(t, i); }
  }

  /** The same leaves. */
  ghost predicate SameEdges(a: seq<Node>, b: seq<Node>) {
    |a| == |b| && forall i :: 0 <= i < |a| ==> a[i].edge == b[i].edge
  }

  /** The same leaves, with the same logs. */
  ghost predicate SameShape(a: seq<Node>, b: seq<Node>) {
    SameEdges(a, b) && forall i :: 0 <= i < |a| ==> a[i].applied == b[i].applied
  }

  lemma ShapeEdges(a: seq<Node>, b: seq<Node>)
    requires SameEdges(a, b) && Edges(a)
    ensures Edges(b) && forall j :: 0 <= j <= |a| ==> Lo(a, j) == Lo(b, j)
  {
    forall i, j | 0 <= i < j < |b| ensures b[i].edge < b[j].edge { assert a[i].edge < a[j].edge; }
  }

  /** All jobs but n are as before. */
  ghost predicate OthersSame(t: Tree, t': Tree, n: nat) {
    && t'.ctl.jobs.Keys == t.ctl.jobs.Keys
    && (forall i :: i in t.ctl.jobs && i != n ==>
          t'.ctl.jobs[i] == t.ctl.jobs[i] && i in t.jobs && i in t'.jobs && t'.jobs[i] == t.jobs[i])
  }

  lemma OtherJobsCarry(t: Tree, t': Tree, n: nat)
    requires Grows(t, t') && SameShape(t.nodes, t'.nodes) && Edges(t.nodes) && Edges(t'.nodes) && OthersSame(t, t', n)
    requires t'.ctl.rsgen == t.ctl.rsgen && Gone(t') == Gone(t)
    requires forall i :: i in t.ctl.jobs ==> JobDataOk(t, i) && LeavingOk(t, i)
    ensures forall i :: i in t'.ctl.jobs && i != n ==> JobDataOk(t', i) && LeavingOk(t', i)
  {
    ShapeEdges(t.nodes, t'.nodes);
    forall i | i in t'.ctl.jobs && i != n ensures JobDataOk(t', i) && LeavingOk(t', i) {
      assert i in t.ctl.jobs;
      JobDataOkFrame(t, t', i);
      LeavingOkFrame(t, t', i);
    }
  }

  /** All subspills but those of n are as before. */
  ghost predicate OtherSubsSame(t: Tree, t': Tree, n: nat) {
    |t'.nodes| == |t.nodes| && forall j, m :: 0 <= j < |t.nodes| && m in t.nodes[j].subs && m != n ==>
      m in t'.nodes[j].subs && t'.nodes[j].subs[m] == t.nodes[j].subs[m]
  }

  lemma OtherSubsCarry(t: Tree, t': Tree, n: nat)
    requires Sizes(t) && Sizes(t') && SameShape(t.nodes, t'.nodes) && Edges(t.nodes) && Edges(t'.nodes)
    requires OthersSame(t, t', n)
    requires OtherSubsSame(t, t', n) && t'.ctl.rsgen == t.ctl.rsgen
    requires forall m, j :: m in t.ctl.jobs && IsLeaf(t.ctl, j) ==> SubOk(t, m, j)
    ensures forall m, j :: m in t'.ctl.jobs && IsLeaf(t'.ctl, j) && m != n ==> SubOk(t', m, j)
  {
    ShapeEdges(t.nodes, t'.nodes);
    forall m, j | m in t'.ctl.jobs && IsLeaf(t'.ctl, j) && m != n ensures SubOk(t', m, j) {
      assert m in t.ctl.jobs && IsLeaf(t.ctl, j) && SubOk(t, m, j);
    }
  }

  lemma SubOkFrame(t: Tree, t': Tree, m: nat, j: int)
    requires Sizes(t) && Sizes(t') && Edges(t.nodes) && Edges(t'.nodes) && t'.nodes == t.nodes
    requires IsLeaf(t.ctl, j) && m in t'.ctl.jobs
    requires Built'(t'.ctl.jobs[m]) > 0 && |t.nodes[j].applied| < m ==>
      && m in t.ctl.jobs && SubOk(t, m, j) && t'.jobs[m].inputs == t.jobs[m].inputs
      && Built'(t'.ctl.jobs[m]) == Built'(t.ctl.jobs[m]) && t'.ctl.jobs[m].zwanted == t.ctl.jobs[m].zwanted
      && t.ctl.rsgen <= t'.ctl.rsgen && (t'.ctl.rsgen < m ==> t'.ctl.jobs[m].pin == t.ctl.jobs[m].pin)
    ensures SubOk(t', m, j)
  {
  }

  /** The leaves carry over if their nodes, generations and bumping jobs do. */
  lemma LeavesCarry(t: Tree, t': Tree)
    requires Grows(t, t') && t'.nodes == t.nodes && SameBumping(t.ctl, t'.ctl)
    requires forall j :: IsLeaf(t.ctl, j) ==> LogOk(t, j) && NodeOk(t, j)
    requires forall j :: IsLeaf(t.ctl, j) ==> (t'.ctl.leaves[j].token.Compacting? ==> t.ctl.leaves[j].token.Compacting?)
    ensures forall j :: IsLeaf(t'.ctl, j) ==> LogOk(t', j) && NodeOk(t', j)
  {
    forall j | IsLeaf(t'.ctl, j) ensures LogOk(t', j) && NodeOk(t', j) {
      assert IsLeaf(t.ctl, j);
      LogOkFrame(t, t', j, j);
      NodeOkFrame(t, t', j, j);
    }
  }

  /** Nobody starts or stops bumping and no generation moves. */
  ghost predicate SameBumping(s: State, s': State) {
    && (forall n, j :: BumpsAt(s', n, j) == BumpsAt(s, n, j))
    && (forall j :: IsLeaf(s, j) && IsLeaf(s', j) ==> s'.leaves[j].sgen == s.leaves[j].sgen)
  }

  // ----- protocol steps that do not touch the data -----

  /** Apart from the logs, the data invariant cannot tell s from s'. */
  ghost predicate SameForData(s: State, s': State) {
    && |s'.leaves| == |s.leaves| && s'.sgen == s.sgen && s'.rsgen == s.rsgen && s'.jobs.Keys == s.jobs.Keys
    && (forall n :: n in s.jobs ==> SameJob(s, s', n))
    && (forall j :: IsLeaf(s, j) ==> SameLeaf(s.leaves[j], s'.leaves[j]))
  }

  ghost predicate SameJob(s: State, s': State, n: nat)
    requires n in s.jobs && n in s'.jobs
  {
    var p, p' := s.jobs[n], s'.jobs[n];
    && p'.zwanted == p.zwanted && p'.pin == p.pin && Built'(p') == Built'(p)
    && (p'.phase.Building? ==> p.phase.Building?)
  }

  ghost predicate SameLeaf(l: Leaf, l': Leaf) {
    l.sgen <= l'.sgen && (l'.token.Compacting? ==> l.token.Compacting?)
  }

  lemma FrameKeepsJobs(t: Tree, s': State)
    requires TData(t) && SameForData(t.ctl, s') && Sizes(t.(ctl := s'))
    ensures var t' := t.(ctl := s'); forall n :: n in s'.jobs ==> JobDataOk(t', n) && LeavingOk(t', n)
  {
    var t' := t.(ctl := s');
    forall n | n in s'.jobs ensures JobDataOk(t', n) && LeavingOk(t', n) {
      assert n in t.ctl.jobs && SameJob(t.ctl, s', n) && LeavingOk(t, n);
      JobDataOkFrame(t, t', n);
      LeavingOkFrame(t, t', n);
    }
  }

  lemma FrameKeepsSubs(t: Tree, s': State)
    requires TData(t) && SameForData(t.ctl, s') && Sizes(t.(ctl := s'))
    ensures var t' := t.(ctl := s'); forall m, j :: m in s'.jobs && IsLeaf(s', j) ==> SubOk(t', m, j)
  {
    var t' := t.(ctl := s');
    forall m, j | m in s'.jobs && IsLeaf(s', j) ensures SubOk(t', m, j) {
      assert m in t.ctl.jobs && SameJob(t.ctl, s', m) && IsLeaf(t.ctl, j);
      SubOkFrame(t, t', m, j);
    }
  }

  lemma FrameKeepsData(t: Tree, s': State)
    requires TData(t) && SameForData(t.ctl, s') && Sizes(t.(ctl := s'))
    requires forall j :: IsLeaf(t.ctl, j) ==> LogOk(t.(ctl := s'), j)
    ensures TData(t.(ctl := s'))
  {
    var t' := t.(ctl := s');
    WorkFrame(t, t');
    forall j | IsLeaf(s', j) ensures NodeOk(t', j) {
      assert IsLeaf(t.ctl, j) && SameLeaf(t.ctl.leaves[j], s'.leaves[j]);
      NodeOkFrame(t, t', j, j);
    }
    FrameKeepsJobs(t, s');
    FrameKeepsSubs(t, s');
  }

  lemma FrameKeepsAll(t: Tree, s': State)
    requires TData(t) && SameForData(t.ctl, s') && SameBumping(t.ctl, s')
    ensures TData(t.(ctl := s'))
  {
    var t' := t.(ctl := s');
    assert Sizes(t') by {
      forall n ensures n in s'.jobs <==> n in t.ctl.jobs {}
    }
    forall j | IsLeaf(t.ctl, j) ensures LogOk(t', j) {
      LogOkFrame(t, t', j, j);
    }
    FrameKeepsData(t, s');
  }

  /** Bumping moves a leaf's generation up to its log. */
  lemma BumpKeepsLog(t: Tree, n: nat, j: int)
    requires Sizes(t) && IsLeaf(t.ctl, j) && LogOk(t, j) && Enabled(t.ctl, Bump(n))
    requires forall i :: i in t.ctl.jobs ==> OneCarrier(t.ctl, i, n)
    requires Sizes(t.(ctl := DoBump(t.ctl, n)))
    ensures LogOk(t.(ctl := DoBump(t.ctl, n)), j)
  {
    var s, s' := t.ctl, DoBump(t.ctl, n);
    var t', j0 := t.(ctl := s'), s.jobs[n].pos;
    if j == j0 {
      assert BumpsAt(s, n, j0);
      forall i | i in s.jobs ensures !BumpsAt(s', i, j0) { assert OneCarrier(s, i, n); }
    } else {
      LogOkFrame(t, t', j, j);
    }
  }

  lemma BumpSameForData(s: State, n: nat)
    requires Enabled(s, Bump(n))
    ensures SameForData(s, DoBump(s, n))
  {
  }

  lemma BumpKeepsData(t: Tree, n: nat)
    requires TData(t) && Enabled(t.ctl, Bump(n))
    requires forall i :: i in t.ctl.jobs ==> OneCarrier(t.ctl, i, n)
    ensures TData(t.(ctl := DoBump(t.ctl, n)))
  {
    BumpSameForData(t.ctl, n);
    assert Sizes(t.(ctl := DoBump(t.ctl, n)));
    forall j | IsLeaf(t.ctl, j) ensures LogOk(t.(ctl := DoBump(t.ctl, n)), j) {
      BumpKeepsLog(t, n, j);
    }
    FrameKeepsData(t, DoBump(t.ctl, n));
  }
}
