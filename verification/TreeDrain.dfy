/**
 What is left in the root.

 In a guarded run the root holds exactly the kvsets that no spill has claimed, and those of
 the spills that have neither retired nor moved.
 */
module TreeDrain {
  import opened Kvsets
  import opened SpillProtocol
  import opened SpillInvariant
  import opened SpillTheorems
  import opened TreeContents
  import opened TreeInvariant
  import opened TreeLookup
  import opened TreeFrames
  import opened TreeRootSteps
  import opened TreeApplySteps
  import opened TreeTheorems
  import opened TreeGuarded

  /** The kvsets of every retired spill have left the root. */
  ghost predicate Drained(t: Tree)
    requires Sizes(t)
  {
    t.ctl.rsgen < |t.ends| && t.ends[t.ctl.rsgen] <= Gone(t)
  }

  /** Nothing returns to the root. */
  ghost predicate Drains(t: Tree, t': Tree) {
    t'.ctl.rsgen == t.ctl.rsgen && t.ends <= t'.ends && Gone(t) <= Gone(t')
  }

  lemma CtlStepDrains(t: Tree, st: Step)
    requires TEnabled(t, Ctl(st)) && !st.Retire? && !st.Apply?
    ensures Drains(t, TNext(t, Ctl(st)))
  {
    assert Next(t.ctl, st).rsgen == t.ctl.rsgen;
    var t1 := DataEffect(t, st);
    assert t1.root == t.root && t1.hist == t.hist && t1.ends == t.ends;
  }

  /** Nothing but a retirement changes the root's generation, and nothing returns to the root. */
  lemma OtherStepDrains(t: Tree, ts: TStep)
    requires TEnabled(t, ts) && !(ts.Ctl? && (ts.st.Retire? || ts.st.Apply?))
    ensures Drains(t, TNext(t, ts))
  {
    if ts.Ctl? { CtlStepDrains(t, ts.st); }
  }

  lemma ApplyDrains(t: Tree, n: nat)
    requires TInv(t) && TEnabled(t, Ctl(Apply(n)))
    ensures Drains(t, TNext(t, Ctl(Apply(n))))
  {
    var t', pos, m := TNext(t, Ctl(Apply(n))), t.ctl.jobs[n].pos, t.ctl.jobs[n].phase.m;
    var ss := t.nodes[pos].subs[m];
    var ks := WithSubspill(ss, t.jobs[m].inputs, t.nodes[pos].kvsets);
    NextInLine(t, n);
    AddedFits(t, n);
    ApplyEffect(t, n);
    AddSizes(t, t', n, m, pos, ks);
    assert LeavingOk(t, m);
    AddRoot(t, t', n, m, pos, ss, ks);
  }

  /** A zspill that every leaf has received has moved its kvsets. */
  lemma ReceivedHasMoved(t: Tree, n: nat)
    requires TInv(t) && n in t.ctl.jobs && t.ctl.jobs[n].pin != -1
    requires forall j :: IsLeaf(t.ctl, j) ==> n <= t.ctl.leaves[j].sgen
    ensures t.ends[n] <= Gone(t)
  {
    assert LeavingOk(t, n);
    var j := t.ctl.jobs[n].pin;
    assert IsLeaf(t.ctl, j) && LogOk(t, j);
    assert Moved(t, n);
  }

  lemma RetireCuts(t: Tree, t': Tree, n: nat)
    requires Sizes(t) && Edges(t.nodes) && Drained(t) && Retires(t, t', n) && JobDataOk(t, n) && n == t.ctl.rsgen + 1
    requires t.ctl.jobs[n].pin != -1 ==> t.ends[n] <= Gone(t)
    ensures t'.ctl.rsgen == n && t'.ends == t.ends && t.ends[n] <= Gone(t')
  {
    InputDgens(t, n);
  }

  lemma RetireDrains(t: Tree, n: nat)
    requires TInv(t) && Drained(t) && TEnabled(t, Ctl(Retire(n))) && Guarded(t, Ctl(Retire(n)))
    ensures var t' := TNext(t, Ctl(Retire(n))); t'.ctl.rsgen == n && t'.ends == t.ends && t.ends[n] <= Gone(t')
  {
    assert JobDataOk(t, n);
    if t.ctl.jobs[n].pin != -1 { ReceivedHasMoved(t, n); }
    RetireEffect(t, n);
    RetireCuts(t, TNext(t, Ctl(Retire(n))), n);
  }

  lemma StepDrains(t: Tree, ts: TStep)
    requires TInv(t) && Drained(t) && TEnabled(t, ts) && Guarded(t, ts) && Sizes(TNext(t, ts))
    ensures Drained(TNext(t, ts))
  {
    if ts.Ctl? && ts.st.Retire? {
      RetireDrains(t, ts.st.n);
    } else if ts.Ctl? && ts.st.Apply? {
      ApplyDrains(t, ts.st.n);
    } else {
      OtherStepDrains(t, ts);
    }
  }

  lemma {:induction false} RunDrains(t: Tree, steps: seq<TStep>, t': Tree)
    requires TInv(t) && Drained(t) && GuardedRun(t, steps, t')
    ensures TInv(t') && Drained(t')
    decreases |steps|
  {
    if steps != [] {
      StepKeepsData(t, steps[0]);
      StepKeepsCtl(t, steps[0]);
      StepDrains(t, steps[0]);
      RunDrains(TNext(t, steps[0]), steps[1..], t');
    }
  }

  /** The kvsets of spill n are all in the root, at their place by age, until it retires or
      moves; from then on none of them is. */
  ghost predicate AllOrNone(t: Tree, n: nat)
    requires n in t.ctl.jobs
  {
    && n in t.jobs && 1 <= n < |t.ends| && t.ends[n - 1] < t.ends[n] <= |t.hist| && |t.work| == |t.root|
    && if t.ctl.rsgen < n && !Moved(t, n)
       then Gone(t) <= t.ends[n - 1] && t.root[|t.hist| - t.ends[n]..|t.hist| - t.ends[n - 1]] == t.jobs[n].inputs
       else t.ends[n] <= Gone(t) && forall i :: 0 <= i < |t.work| ==> t.work[i] != n
  }

  lemma PendingInRoot(t: Tree, n: nat)
    requires Sizes(t) && Edges(t.nodes) && RootOk(t) && n in t.ctl.jobs && JobDataOk(t, n) && LeavingOk(t, n)
    requires Drained(t)
    ensures AllOrNone(t, n)
  {
    InputDgens(t, n);
    if t.ctl.rsgen < n && !Moved(t, n) {
      StillInRoot(t, n);
    } else {
      assert n < t.ctl.rsgen ==> t.ends[n] < t.ends[t.ctl.rsgen];
      NoneLeft(t, n);
    }
  }

  lemma NoneLeft(t: Tree, n: nat)
    requires Sizes(t) && RootOk(t) && 1 <= n < |t.ends| && t.ends[n] <= Gone(t)
    ensures forall i :: 0 <= i < |t.work| ==> t.work[i] != n
  {
    forall i | 0 <= i < |t.work| ensures t.work[i] != n { assert WorkOk(t, i); }
  }

  /** In every state of a guarded run, what is in the root is unclaimed or of a spill that has
      neither retired nor moved, and of such a spill everything is there. */
  lemma RootHoldsPending(t0: Tree, steps: seq<TStep>, t: Tree, n: nat)
    requires TInit(t0) && GuardedRun(t0, steps, t) && n in t.ctl.jobs
    ensures AllOrNone(t, n)
  {
    InitTInv(t0);
    RunDrains(t0, steps, t);
    assert JobDataOk(t, n) && LeavingOk(t, n);
    PendingInRoot(t, n);
  }
}
