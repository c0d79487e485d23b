/** Ingest, claiming a run of root kvsets, and retirement. */
module TreeRootSteps {
  import opened Kvsets
  import opened SpillProtocol
  import opened SpillInvariant
  import opened TreeContents
  import opened TreeInvariant
  import opened TreeLookup
  import opened TreeFrames

  lemma IngestRoot(t: Tree, d: Data)
    requires Sizes(t) && RootOk(t)
    ensures Sizes(DoIngest(t, d)) && Grows(t, DoIngest(t, d)) && RootOk(DoIngest(t, d))
  {
    var t' := DoIngest(t, d);
    PastGrows(t.hist, t'.hist, |t.hist|);
    PastGrows(t.hist, t'.hist, Gone(t));
    assert t'.root + Past(t'.hist, Gone(t')) == [t'.root[0]] + (t.root + Past(t.hist, Gone(t)));
    forall i | 0 <= i < |t'.work| ensures WorkOk(t', i) {
      if i > 0 { assert WorkOk(t, i - 1); }
    }
  }

  lemma IngestKeepsData(t: Tree, d: Data)
    requires TData(t)
    ensures TData(DoIngest(t, d))
  {
    var t' := DoIngest(t, d);
    IngestRoot(t, d);
    LeavesCarry(t, t');
    OtherJobsCarry(t, t', 0);
    OtherSubsCarry(t, t', 0);
  }

  // ----- claiming -----

  lemma RootLength(t: Tree)
    requires Sizes(t) && RootOk(t)
    ensures t.root == Past(t.hist, |t.hist|)[..|t.root|]
    ensures forall i :: 0 <= i < |t.root| ==> t.root[i].dgen == |t.hist| - i
  {
    PastLength(t.hist, |t.hist|);
    PastLength(t.hist, Gone(t));
  }

  /** The oldest unclaimed kvset is the one after the last claimed run. */
  lemma MarkFollowsRuns(t: Tree)
    requires Sizes(t) && RootOk(t)
    ensures OldestFree(t.work) == |t.hist| - t.ends[t.ctl.sgen] - 1
    ensures OldestFree(t.work) == |t.root| - 1 ==> Gone(t) == t.ends[t.ctl.sgen]
  {
    RootLength(t);
    var mark := OldestFree(t.work);
    if mark >= 0 { assert WorkOk(t, mark); }
    if mark + 1 < |t.work| { assert WorkOk(t, mark + 1); }
  }

  lemma ClaimSizes(t: Tree, c: nat, z: bool)
    requires Sizes(t) && RootOk(t) && TEnabled(t, ClaimRun(c, z))
    ensures var t' := DoClaim(t, c, z);
      && Grows(t, t')
      && t'.ends[t.ctl.sgen + 1] == t.ends[t.ctl.sgen] + c
  {
    var t' := DoClaim(t, c, z);
    var n := t.ctl.sgen + 1;
    MarkFollowsRuns(t);
    RootLength(t);
    assert t'.ends[n] == t.ends[n - 1] + c;
    forall i | 0 <= i < n ensures t'.ends[i] < t'.ends[n] { assert i < n - 1 ==> t.ends[i] < t.ends[n - 1]; }
    forall i, j | 0 <= i < j < |t'.ends| ensures t'.ends[i] < t'.ends[j] {
      if j < n { assert t.ends[i] < t.ends[j]; }
    }
    forall i ensures i in t'.ctl.jobs <==> 1 <= i <= t'.ctl.sgen {
      assert i in t.ctl.jobs <==> 1 <= i <= t.ctl.sgen;
    }
  }

  lemma ClaimRoot(t: Tree, c: nat, z: bool)
    requires Sizes(t) && RootOk(t) && TEnabled(t, ClaimRun(c, z)) && Sizes(DoClaim(t, c, z))
    ensures RootOk(DoClaim(t, c, z))
  {
    var t' := DoClaim(t, c, z);
    MarkFollowsRuns(t);
    ClaimSizes(t, c, z);
    forall i | 0 <= i < |t'.work| ensures WorkOk(t', i) {
      assert WorkOk(t, i);
      var w := t.work[i];
      if w != 0 { assert t'.ends[w] == t.ends[w] && t'.ends[w - 1] == t.ends[w - 1]; }
    }
  }

  /** The claimed kvsets are the next ingests. */
  lemma ClaimedInputs(t: Tree, c: nat, z: bool)
    requires Sizes(t) && RootOk(t) && TEnabled(t, ClaimRun(c, z)) && Sizes(DoClaim(t, c, z))
    ensures var t', n := DoClaim(t, c, z), t.ctl.sgen + 1;
      Upto(t', n) == t'.jobs[n].inputs + Upto(t', n - 1)
  {
    var t' := DoClaim(t, c, z);
    var h, mark := |t.hist|, OldestFree(t.work);
    var a, b := mark - c + 1, mark + 1;
    MarkFollowsRuns(t);
    ClaimSizes(t, c, z);
    RootLength(t);
    PastSlice(t.hist, h, a, b);
    assert t.root[a..b] == Past(t.hist, h)[a..b];
  }

  lemma ClaimJob(t: Tree, c: nat, z: bool, i: nat)
    requires Sizes(t) && Edges(t.nodes) && RootOk(t) && TEnabled(t, ClaimRun(c, z)) && Sizes(DoClaim(t, c, z))
    requires i in t.ctl.jobs ==> JobDataOk(t, i) && LeavingOk(t, i)
    requires i in DoClaim(t, c, z).ctl.jobs
    ensures JobDataOk(DoClaim(t, c, z), i) && LeavingOk(DoClaim(t, c, z), i)
  {
    var t', n := DoClaim(t, c, z), t.ctl.sgen + 1;
    ClaimSizes(t, c, z);
    if i == n {
      ClaimedInputs(t, c, z);
      MarkFollowsRuns(t);
    } else {
      JobDataOkFrame(t, t', i);
      LeavingOkFrame(t, t', i);
    }
  }

  lemma ClaimSubs(t: Tree, c: nat, z: bool)
    requires TData(t) && TEnabled(t, ClaimRun(c, z)) && Sizes(DoClaim(t, c, z))
    ensures var t' := DoClaim(t, c, z); forall m, j :: m in t'.ctl.jobs && IsLeaf(t'.ctl, j) ==> SubOk(t', m, j)
  {
    var t' := DoClaim(t, c, z);
    forall m, j | m in t'.ctl.jobs && IsLeaf(t'.ctl, j) ensures SubOk(t', m, j) {
      assert IsLeaf(t.ctl, j);
      SubOkFrame(t, t', m, j);
    }
  }

  lemma ClaimJobs(t: Tree, c: nat, z: bool)
    requires TData(t) && TEnabled(t, ClaimRun(c, z)) && Sizes(DoClaim(t, c, z))
    ensures var t' := DoClaim(t, c, z); forall i :: i in t'.ctl.jobs ==> JobDataOk(t', i) && LeavingOk(t', i)
  {
    var t' := DoClaim(t, c, z);
    forall i | i in t'.ctl.jobs ensures JobDataOk(t', i) && LeavingOk(t', i) { ClaimJob(t, c, z, i); }
  }

  lemma ClaimKeepsData(t: Tree, c: nat, z: bool)
    requires TData(t) && TEnabled(t, ClaimRun(c, z))
    ensures TData(DoClaim(t, c, z))
  {
    ClaimSizes(t, c, z);
    ClaimRoot(t, c, z);
    LeavesCarry(t, DoClaim(t, c, z));
    ClaimJobs(t, c, z);
    ClaimSubs(t, c, z);
  }

  // ----- retirement -----

  /** Cutting claimed kvsets off the old end of the root. */
  lemma CutRoot(t: Tree, t': Tree, keep: nat)
    requires Sizes(t) && Sizes(t') && RootOk(t) && keep <= |t.root| && |t.hist| - keep <= t.ends[t.ctl.sgen]
    requires t'.root == t.root[..keep] && t'.work == t.work[..keep]
    requires t'.hist == t.hist && t'.ends == t.ends && t'.ctl.sgen == t.ctl.sgen
    ensures RootOk(t')
  {
    var h := |t.hist|;
    assert t'.root == Past(t.hist, h)[..keep] by { RootLength(t); }
    assert Past(t.hist, h) == Past(t.hist, h)[..keep] + Past(t.hist, h - keep) by { PastTail(t.hist, h - keep, h); }
    forall i | 0 <= i < |t'.work| ensures WorkOk(t', i) { assert WorkOk(t, i); }
  }

  /** The kvsets claimed by a spill, when all earlier ones have left, are the oldest ones. */
  lemma MarksOfOldest(t: Tree, n: nat)
    requires Sizes(t) && RootOk(t) && 1 <= n <= t.ctl.sgen && t.ends[n - 1] <= Gone(t)
    ensures forall i :: 0 <= i < |t.work| ==> (t.work[i] == n <==> i >= |t.hist| - t.ends[n])
    ensures forall i :: 0 <= i < |t.work| ==> t.work[i] == 0 || t.work[i] >= n
  {
    EndsInHistory(t, n);
    forall i | 0 <= i < |t.work|
      ensures t.work[i] == n <==> i >= |t.hist| - t.ends[n]
      ensures t.work[i] == 0 || t.work[i] >= n {
      assert WorkOk(t, i);
      var w := t.work[i];
      if n < w { assert t.ends[n] <= t.ends[w - 1]; }
    }
  }

  /** The inputs of spill n are its ingests, so their generations lie between the runs. */
  lemma InputDgens(t: Tree, n: nat)
    requires Sizes(t) && Edges(t.nodes) && n in t.ctl.jobs && JobDataOk(t, n)
    ensures t.ends[n - 1] < t.ends[n] <= |t.hist|
    ensures |t.jobs[n].inputs| == t.ends[n] - t.ends[n - 1] > 0
    ensures forall i :: 0 <= i < |t.jobs[n].inputs| ==>
      t.jobs[n].inputs[i].dgen == t.ends[n] - i && t.ends[n - 1] < t.jobs[n].inputs[i].dgen <= t.ends[n]
  {
    EndsInHistory(t, n);
    PastLength(t.hist, t.ends[n]);
    PastLength(t.hist, t.ends[n - 1]);
    var ks := t.jobs[n].inputs;
    assert |ks| == t.ends[n] - t.ends[n - 1];
    forall i | 0 <= i < |ks| ensures ks[i].dgen == t.ends[n] - i { assert Upto(t, n)[i] == ks[i]; }
  }

  /** A spill still to leave has its kvsets in the root, at their place by age. */
  lemma StillInRoot(t: Tree, n: nat)
    requires Sizes(t) && Edges(t.nodes) && RootOk(t) && n in t.ctl.jobs && JobDataOk(t, n) && Gone(t) <= t.ends[n - 1]
    ensures var a, b := |t.hist| - t.ends[n], |t.hist| - t.ends[n - 1];
      0 <= a < b <= |t.root| && t.root[a..b] == t.jobs[n].inputs
  {
    InputDgens(t, n);
    var h, a, b := |t.hist|, |t.hist| - t.ends[n], |t.hist| - t.ends[n - 1];
    RootLength(t);
    PastSlice(t.hist, h, a, b);
    SameFront(t.jobs[n].inputs, Past(t.hist, h)[a..b], Upto(t, n - 1));
  }

  /** The kvsets at the old end of the root are those of spill n exactly if no kvset in the
      root is claimed by an earlier spill. */
  lemma OwnTail(t: Tree, n: nat)
    requires Sizes(t) && Edges(t.nodes) && RootOk(t) && n in t.ctl.jobs && JobDataOk(t, n) && Gone(t) <= t.ends[n - 1]
    ensures 0 < |t.jobs[n].inputs| <= |t.root|
    ensures t.root[|t.root| - |t.jobs[n].inputs|..] == t.jobs[n].inputs <==>
      forall i :: 0 <= i < |t.work| ==> t.work[i] == 0 || t.work[i] >= n
  {
    var last := |t.root| - 1;
    InputDgens(t, n);
    StillInRoot(t, n);
    RootLength(t);
    if Gone(t) == t.ends[n - 1] {
      MarksOfOldest(t, n);
    } else {
      EndsInHistory(t, n);
      assert WorkOk(t, last);
      assert 0 < t.work[last] < n;
      assert t.root[last].dgen < t.jobs[n].inputs[|t.jobs[n].inputs| - 1].dgen;
    }
  }

  // ----- retirement -----

  lemma RetireRoot(t: Tree, t': Tree, n: nat)
    requires Sizes(t) && Sizes(t') && Edges(t.nodes) && RootOk(t) && Retires(t, t', n)
    requires JobDataOk(t, n) && LeavingOk(t, n) && n == t.ctl.rsgen + 1
    ensures RootOk(t') && Gone(t) <= Gone(t')
    ensures Gone(t') <= (if t.ctl.jobs[n].pin == -1 then t.ends[n] else Gone(t))
  {
    EndsInHistory(t, n);
    if t.ctl.jobs[n].pin == -1 {
      InputDgens(t, n);
      CutRoot(t, t', |t.root| - |t.jobs[n].inputs|);
    } else {
      WorkFrame(t, t');
    }
  }

  /** Retirement changes the pin of the retiring job and the root's generation, and cuts the
      oldest kvsets off the root unless a zspill moved them. */
  ghost predicate Retires(t: Tree, t': Tree, n: nat) {
    var s, s' := t.ctl, t'.ctl;
    && t'.nodes == t.nodes && t'.jobs == t.jobs && t'.hist == t.hist && t'.ends == t.ends
    && n in s.jobs && s'.jobs == s.jobs[n := s.jobs[n].(pin := -1)]
    && s'.sgen == s.sgen && s'.rsgen == n && |s'.leaves| == |s.leaves|
    && (forall j :: IsLeaf(s, j) ==> s'.leaves[j].sgen == s.leaves[j].sgen && s'.leaves[j].token == s.leaves[j].token)
    && n in t.jobs && |t.work| == |t.root|
    && if s.jobs[n].pin == -1
       then
         var keep := |t.root| - |t.jobs[n].inputs|;
         keep >= 0 && t'.root == t.root[..keep] && t'.work == t.work[..keep]
       else t'.root == t.root && t'.work == t.work
  }

  lemma RetireEffect(t: Tree, n: nat)
    requires TEnabled(t, Ctl(Retire(n)))
    ensures Retires(t, TNext(t, Ctl(Retire(n))), n)
  {
  }

  lemma RetireSizes(t: Tree, t': Tree, n: nat)
    requires Sizes(t) && Retires(t, t', n)
    ensures Sizes(t') && SameBumping(t.ctl, t'.ctl)
  {
    var s, s' := t.ctl, t'.ctl;
    forall i ensures i in s'.jobs <==> i in s.jobs {}
    forall i, j ensures BumpsAt(s', i, j) == BumpsAt(s, i, j) {
      if i in s.jobs { assert s'.jobs[i] == s.jobs[i].(pin := s'.jobs[i].pin); }
    }
  }

  lemma RetireJob(t: Tree, t': Tree, n: nat, i: nat)
    requires Sizes(t) && Sizes(t') && Edges(t.nodes) && Retires(t, t', n) && n == t.ctl.rsgen + 1
    requires i in t.ctl.jobs && JobDataOk(t, i) && LeavingOk(t, i)
    requires Gone(t) <= Gone(t') && (Gone(t') == Gone(t) || Gone(t') <= t.ends[n])
    ensures JobDataOk(t', i) && LeavingOk(t', i)
  {
    JobDataOkFrame(t, t', i);
    if n < i { assert t.ends[n] <= t.ends[i - 1]; }
  }

  lemma RetireJobs(t: Tree, t': Tree, n: nat)
    requires TData(t) && Retires(t, t', n) && Sizes(t') && n == t.ctl.rsgen + 1
    requires Gone(t) <= Gone(t') && (Gone(t') == Gone(t) || Gone(t') <= t.ends[n])
    ensures forall i :: i in t'.ctl.jobs ==> JobDataOk(t', i) && LeavingOk(t', i)
  {
    forall i | i in t'.ctl.jobs ensures JobDataOk(t', i) && LeavingOk(t', i) {
      RetireJob(t, t', n, i);
    }
  }

  lemma RetireSubs(t: Tree, t': Tree, n: nat)
    requires TData(t) && Retires(t, t', n) && Sizes(t') && n == t.ctl.rsgen + 1
    ensures forall m, j :: m in t'.ctl.jobs && IsLeaf(t'.ctl, j) ==> SubOk(t', m, j)
  {
    forall m, j | m in t'.ctl.jobs && IsLeaf(t'.ctl, j) ensures SubOk(t', m, j) {
      assert IsLeaf(t.ctl, j) && m in t.ctl.jobs && SubOk(t, m, j);
      SubOkFrame(t, t', m, j);
    }
  }

  lemma RetireKeepsData(t: Tree, n: nat)
    requires TData(t) && TEnabled(t, Ctl(Retire(n)))
    ensures TData(TNext(t, Ctl(Retire(n))))
  {
    var t' := TNext(t, Ctl(Retire(n)));
    RetireEffect(t, n);
    RetireSizes(t, t', n);
    assert JobDataOk(t, n) && LeavingOk(t, n);
    RetireRoot(t, t', n);
    LeavesCarry(t, t');
    RetireJobs(t, t', n);
    RetireSubs(t, t', n);
  }
}
