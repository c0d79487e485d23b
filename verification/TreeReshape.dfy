/** Carrying the data invariant over steps that renumber the leaves. */
module TreeReshape {
  import opened Kvsets
  import opened SpillProtocol
  import opened SpillInvariant
  import opened SpillRefsProof
  import opened SpillFlagsProof
  import opened TreeContents
  import opened TreeInvariant
  import opened TreeLookup
  import opened TreeFrames

  /** Only the leaves and the positions of jobs may differ. */
  ghost predicate SameRest(t: Tree, t': Tree) {
    && t' == t.(ctl := t'.ctl, nodes := t'.nodes)
    && t'.ctl.sgen == t.ctl.sgen && t'.ctl.rsgen == t.ctl.rsgen && t'.ctl.jobs.Keys == t.ctl.jobs.Keys
    && |t'.nodes| == |t'.ctl.leaves| >= 1
  }

  lemma RestSizes(t: Tree, t': Tree)
    requires Sizes(t) && RootOk(t) && SameRest(t, t')
    ensures Grows(t, t') && RootOk(t')
  {
    forall n ensures n in t'.ctl.jobs <==> n in t.ctl.jobs {}
    assert Sizes(t');
    WorkFrame(t, t');
  }

  /** Job n has built for leaves up to the same key and pins the same leaf. */
  ghost predicate JobMoves(t: Tree, t': Tree, n: nat) {
    && n in t.ctl.jobs && n in t'.ctl.jobs
    && (var p, p' := t.ctl.jobs[n], t'.ctl.jobs[n];
        var b, b' := Built'(p), Built'(p');
        && p'.zwanted == p.zwanted && p'.phase == p.phase
        && 0 <= b <= |t.nodes| && 0 <= b' <= |t'.nodes| && Lo(t'.nodes, b') == Lo(t.nodes, b)
        && (p.pin == -1 <==> p'.pin == -1) && -1 <= p.pin < |t.nodes| && -1 <= p'.pin < |t'.nodes|
        && (p.pin != -1 ==>
              && Lo(t'.nodes, p'.pin) == Lo(t.nodes, p.pin) && t'.nodes[p'.pin].edge == t.nodes[p.pin].edge
              && t'.nodes[p'.pin].applied == t.nodes[p.pin].applied))
  }

  lemma MovedJob(t: Tree, t': Tree, n: nat)
    requires Grows(t, t') && SameRest(t, t') && Edges(t.nodes) && Edges(t'.nodes) && JobMoves(t, t', n)
    requires JobDataOk(t, n) && LeavingOk(t, n)
    ensures JobDataOk(t', n) && LeavingOk(t', n)
  {
    JobDataOkFrame(t, t', n);
    LeavingOkFrame(t, t', n);
  }

  /** Leaf j' is the old leaf j. */
  ghost predicate LeafKept(t: Tree, t': Tree, j: int, j': int) {
    && IsLeaf(t.ctl, j) && IsLeaf(t'.ctl, j') && |t.nodes| == |t.ctl.leaves| && |t'.nodes| == |t'.ctl.leaves|
    && t'.nodes[j'] == t.nodes[j] && Lo(t'.nodes, j') == Lo(t.nodes, j) && t'.ctl.leaves[j'] == t.ctl.leaves[j]
    && (forall n :: n in t.ctl.jobs <==> n in t'.ctl.jobs)
    && (forall n :: n in t.ctl.jobs ==> JobKept(t, t', n, j, j'))
  }

  ghost predicate JobKept(t: Tree, t': Tree, n: nat, j: int, j': int)
    requires n in t.ctl.jobs && n in t'.ctl.jobs
  {
    var p, p' := t.ctl.jobs[n], t'.ctl.jobs[n];
    && (p'.pos == j' <==> p.pos == j) && p'.phase == p.phase && p'.zwanted == p.zwanted
    && (j' < Built'(p') <==> j < Built'(p)) && (p'.pin == j' <==> p.pin == j) && (p'.pin == -1 <==> p.pin == -1)
  }

  lemma KeptLeaf(t: Tree, t': Tree, j: int, j': int)
    requires Grows(t, t') && SameRest(t, t') && LeafKept(t, t', j, j') && LogOk(t, j) && NodeOk(t, j)
    ensures LogOk(t', j') && NodeOk(t', j')
  {
    forall n ensures BumpsAt(t'.ctl, n, j') == BumpsAt(t.ctl, n, j) {
      if n in t.ctl.jobs { assert JobKept(t, t', n, j, j'); }
    }
    LogOkFrame(t, t', j, j');
    NodeOkFrame(t, t', j, j');
  }

  lemma KeptSub(t: Tree, t': Tree, m: nat, j: int, j': int)
    requires Grows(t, t') && SameRest(t, t') && Edges(t.nodes) && Edges(t'.nodes) && LeafKept(t, t', j, j')
    requires m in t.ctl.jobs && SubOk(t, m, j)
    ensures SubOk(t', m, j')
  {
    assert JobKept(t, t', m, j, j');
  }

  /** Nobody is at the leaf or pins it, and it has every spill that has passed it. */
  ghost predicate Settled(t: Tree, j: int) {
    && IsLeaf(t.ctl, j) && |t.nodes| == |t.ctl.leaves|
    && |t.nodes[j].applied| == t.ctl.leaves[j].sgen
    && (forall n :: n in t.ctl.jobs ==> Clear(t, n, j))
  }

  ghost predicate Clear(t: Tree, n: nat, j: int)
    requires n in t.ctl.jobs && 0 <= j < |t.nodes|
  {
    var p := t.ctl.jobs[n];
    p.pos != j && p.pin != j && (j < p.pos ==> n <= |t.nodes[j].applied|)
  }

  lemma UnreferencedIsSettled(t: Tree, j: int)
    requires Inv(t.ctl) && Sizes(t) && IsLeaf(t.ctl, j) && LogOk(t, j) && t.ctl.leaves[j].spilling == 0
    ensures Settled(t, j)
  {
    var s := t.ctl;
    ZeroRefs(s, j);
    forall n | n in s.jobs ensures Clear(t, n, j) {
      assert OrderOk(s, n, j) && JobOk(s, n);
    }
  }

  /** Job n is not at leaf j' and if it is past it then the leaf has its spill. */
  ghost predicate ClearOf(t': Tree, n: nat, j': int) {
    && IsLeaf(t'.ctl, j') && |t'.nodes| == |t'.ctl.leaves| && n in t'.ctl.jobs
    && (var p := t'.ctl.jobs[n]; p.pos != j' && (j' < p.pos ==> n <= |t'.nodes[j'].applied|))
  }

  lemma NewLeafLog(t': Tree, j': int)
    requires Sizes(t') && IsLeaf(t'.ctl, j') && forall n :: n in t'.ctl.jobs ==> ClearOf(t', n, j')
    requires var log := t'.nodes[j'].applied; |log| == t'.ctl.leaves[j'].sgen && forall i :: 0 <= i < |log| ==>
      log[i] == i + 1
    ensures LogOk(t', j')
  {
    forall n | n in t'.ctl.jobs ensures !BumpsAt(t'.ctl, n, j') { assert ClearOf(t', n, j'); }
  }

  lemma NewLeafSub(t': Tree, m: nat, j': int)
    requires Sizes(t') && Edges(t'.nodes) && IsLeaf(t'.ctl, j') && ClearOf(t', m, j')
    ensures SubOk(t', m, j')
  {
  }

  lemma Reshaped(t: Tree, t': Tree)
    requires TData(t) && SameRest(t, t') && Edges(t'.nodes) && Grows(t, t') && RootOk(t')
    requires forall n :: n in t.ctl.jobs ==> JobMoves(t, t', n)
    requires forall j :: IsLeaf(t'.ctl, j) ==> LogOk(t', j) && NodeOk(t', j)
    requires forall m, j :: m in t.ctl.jobs && IsLeaf(t'.ctl, j) ==> SubOk(t', m, j)
    ensures TData(t')
  {
    forall n | n in t'.ctl.jobs ensures JobDataOk(t', n) && LeavingOk(t', n) {
      assert n in t.ctl.jobs;
      MovedJob(t, t', n);
    }
  }
}
