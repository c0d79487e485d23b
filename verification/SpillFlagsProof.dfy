/** Every step keeps the split/join flags and the split and fanout counters. */
module SpillFlagsProof {
  import opened SpillProtocol
  import opened SpillInvariant
  import opened SpillOrderProof
  import opened SpillRefsProof

  // ----- flags -----

  /** The steps of spill jobs: flags and tokens stay, and no reference is taken on a leaf
      with a running split or join. */
  lemma FlagsFrame(s: State, s': State)
    requires Flags(s) && |s'.leaves| == |s.leaves|
    requires forall j :: IsLeaf(s, j) ==>
      var l, l' := s.leaves[j], s'.leaves[j];
      l'.splitting == l.splitting && l'.joining == l.joining && l'.token == l.token
      && (l.spilling == 0 && Busy(s, j) ==> l'.spilling == 0)
    ensures Flags(s')
  {
    forall j | IsLeaf(s', j) ensures FlagsOk(s', j) {
      assert IsLeaf(s, j) && FlagsOk(s, j);
      if s.leaves[j].token.JoinRunning? { assert IsLeaf(s, j - 1) && Busy(s, j - 1); }
    }
  }

  /** A split runs on the leaf, or the leaf takes part in a running join. */
  ghost predicate Busy(s: State, j: int)
    requires IsLeaf(s, j)
  {
    || s.leaves[j].token.SplitRunning? || s.leaves[j].token.SplitInstalled? || s.leaves[j].token.JoinRunning?
    || (IsLeaf(s, j + 1) && s.leaves[j + 1].token.JoinRunning?)
  }

  /** A busy leaf has no references. */
  lemma BusyLeafIsQuiet(s: State, j: int)
    requires Refs(s) && Flags(s) && IsLeaf(s, j) && Busy(s, j)
    ensures s.leaves[j].spilling == 0 && NobodyAt(s, j) && s.leaves[j].queue == []
    ensures s.leaves[j].splitting || s.leaves[j].joining != 0
  {
    assert FlagsOk(s, j);
    if IsLeaf(s, j + 1) { assert FlagsOk(s, j + 1); }
    ZeroRefs(s, j);
  }

  /** No job enters a busy leaf. */
  lemma EnterAvoidsBusy(s: State, n: nat)
    requires Refs(s) && Flags(s) && Enabled(s, Enter(n))
    ensures !Busy(s, s.jobs[n].pos + 1)
  {
    var j := s.jobs[n].pos + 1;
    if Busy(s, j) {
      BusyLeafIsQuiet(s, j);
      assert FlagsOk(s, j);
      if s.leaves[j].token.JoinRunning? {
        assert Busy(s, j - 1);
        BusyLeafIsQuiet(s, j - 1);
      }
    }
  }

  /** Steps of spill jobs. */
  predicate SpillStep(st: Step) {
    || st.Claim? || st.Begin? || st.Enter? || st.Check? || st.Enqueue?
    || st.Apply? || st.Bump? || st.Pop? || st.Finish? || st.Retire?
  }

  /** The leaf on which a step takes a new reference, if any. */
  function TakesRefOn(s: State, st: Step): int
    requires Enabled(s, st)
  {
    if st.Begin? then st.z
    else if st.Enter? then s.jobs[st.n].pos + 1
    else if st.Enqueue? then s.jobs[st.n].pos
    else -1
  }

  /** How a job's step may change a leaf. */
  ghost predicate LeafAfter(s: State, st: Step, l: Leaf, l': Leaf, j: int)
    requires Enabled(s, st) && SpillStep(st)
  {
    && l'.splitting == l.splitting && l'.joining == l.joining && l'.token == l.token
    && (j != TakesRefOn(s, st) ==> l'.spilling <= l.spilling)
    && l'.sgen == l.sgen + B(st.Bump? && s.jobs[st.n].pos == j)
  }

  lemma VisitStepLeaf(s: State, st: Step, j: int)
    requires Enabled(s, st) && (st.Check? || st.Enqueue? || st.Apply? || st.Bump? || st.Pop?) && IsLeaf(s, j)
    ensures var s' := Next(s, st); |s'.leaves| == |s.leaves| && LeafAfter(s, st, s.leaves[j], s'.leaves[j], j)
  {
  }

  lemma JobStepLeaf(s: State, st: Step, j: int)
    requires Enabled(s, st) && (st.Claim? || st.Begin? || st.Enter? || st.Finish? || st.Retire?) && IsLeaf(s, j)
    ensures var s' := Next(s, st); |s'.leaves| == |s.leaves| && LeafAfter(s, st, s.leaves[j], s'.leaves[j], j)
  {
  }

  lemma SpillStepLeaves(s: State, st: Step)
    requires Shape(s) && Enabled(s, st) && SpillStep(st)
    ensures var s' := Next(s, st); |s'.leaves| == |s.leaves| && forall j :: IsLeaf(s, j) ==>
      LeafAfter(s, st, s.leaves[j], s'.leaves[j], j)
  {
    var s' := Next(s, st);
    assert IsLeaf(s, 0);
    forall j | IsLeaf(s, j) ensures |s'.leaves| == |s.leaves| && LeafAfter(s, st, s.leaves[j], s'.leaves[j], j) {
      if st.Claim? || st.Begin? || st.Enter? || st.Finish? || st.Retire? {
        JobStepLeaf(s, st, j);
      } else {
        VisitStepLeaf(s, st, j);
      }
    }
  }

  lemma SpillStepKeepsFlags(s: State, st: Step)
    requires Order(s) && Refs(s) && Flags(s) && Enabled(s, st) && SpillStep(st)
    ensures Flags(Next(s, st))
  {
    var s' := Next(s, st);
    SpillStepLeaves(s, st);
    forall j | IsLeaf(s, j) && Busy(s, j) ensures s'.leaves[j].spilling == 0 {
      BusyLeafIsQuiet(s, j);
      BusyTakesNoRef(s, st, j);
    }
    FlagsFrame(s, s');
  }

  lemma BusyTakesNoRef(s: State, st: Step, j: int)
    requires Order(s) && Refs(s) && Flags(s) && Enabled(s, st) && SpillStep(st) && IsLeaf(s, j) && Busy(s, j)
    ensures j != TakesRefOn(s, st)
  {
    BusyLeafIsQuiet(s, j);
    if st.Enter? { EnterAvoidsBusy(s, st.n); }
    if st.Enqueue? { assert s.jobs[st.n].pos != j; }
  }

  /** Scheduler steps that change the flags or the token of one leaf. */
  predicate OneLeafStep(st: Step) {
    || st.CompactStart? || st.CompactEnd? || st.SplitCommit? || st.SplitCancel? || st.SplitStart? || st.SplitCleanup?
    || st.JoinStart? || st.JoinCleanup?
  }

  lemma JoinStepKeepsFlags(s: State, st: Step)
    requires Flags(s) && Enabled(s, st) && (st.JoinCommit? || st.JoinCancel?)
    ensures Flags(Next(s, st))
  {
    var s' := Next(s, st);
    forall j | IsLeaf(s', j) ensures FlagsOk(s', j) {
      assert IsLeaf(s, j) && FlagsOk(s, j);
      if IsLeaf(s, j - 1) { assert FlagsOk(s, j - 1); }
      if IsLeaf(s, j + 1) { assert FlagsOk(s, j + 1); }
    }
  }

  lemma OneLeafFlags(s: State, s': State, i: int)
    requires Flags(s) && IsLeaf(s, i) && IsLeaf(s', i) && s'.leaves == s.leaves[i := s'.leaves[i]]
    requires FlagsOk(s', i) && s'.leaves[i].spilling == s.leaves[i].spilling
    requires s'.leaves[i].joining == -1 <==> s.leaves[i].joining == -1
    requires IsLeaf(s, i - 1) && s.leaves[i - 1].joining == -1 ==>
      s'.leaves[i].joining == 1 && !s'.leaves[i].token.JoinInstalled?
    ensures Flags(s')
  {
    forall j | IsLeaf(s', j) ensures FlagsOk(s', j) {
      assert IsLeaf(s, j) && FlagsOk(s, j);
    }
  }

  lemma FlagStepKeepsFlags(s: State, st: Step)
    requires Flags(s) && Enabled(s, st) && (OneLeafStep(st) || st.Reap?)
    ensures Flags(Next(s, st))
  {
    var s' := Next(s, st);
    if st.Reap? {
      forall j | IsLeaf(s', j) ensures FlagsOk(s', j) { assert IsLeaf(s, j) && FlagsOk(s, j); }
    } else {
      assert FlagsOk(s, st.j);
      if IsLeaf(s, st.j - 1) { assert FlagsOk(s, st.j - 1); }
      OneLeafFlags(s, s', st.j);
    }
  }

  lemma SplitInstallKeepsFlags(s: State, j: nat, left: bool)
    requires Flags(s) && Enabled(s, SplitInstall(j, left))
    ensures Flags(DoSplitInstall(s, j, left))
  {
    var s' := DoSplitInstall(s, j, left);
    assert FlagsOk(s, j);
    forall k | IsLeaf(s', k) ensures FlagsOk(s', k) {
      var k0 := if left then Down(k, j) else k;
      assert IsLeaf(s, k0) && FlagsOk(s, k0);
      if IsLeaf(s, k0 - 1) { assert FlagsOk(s, k0 - 1); }
      if IsLeaf(s, k0 + 1) { assert FlagsOk(s, k0 + 1); }
    }
  }

  lemma JoinInstallKeepsFlags(s: State, j: nat)
    requires Flags(s) && Enabled(s, JoinInstall(j))
    ensures Flags(DoJoinInstall(s, j))
  {
    var s' := DoJoinInstall(s, j);
    assert FlagsOk(s, j) && FlagsOk(s, j - 1);
    forall k | IsLeaf(s', k) ensures FlagsOk(s', k) {
      var k0 := Up(k, j - 1);
      assert IsLeaf(s, k0) && FlagsOk(s, k0);
      if IsLeaf(s, k0 - 1) { assert FlagsOk(s, k0 - 1); }
      if IsLeaf(s, k0 + 1) { assert FlagsOk(s, k0 + 1); }
    }
  }

  lemma TrimKeepsFlags(s: State)
    requires Flags(s) && Enabled(s, TrimRight)
    ensures Flags(Next(s, TrimRight))
  {
    var s' := Next(s, TrimRight);
    forall k | IsLeaf(s', k) ensures FlagsOk(s', k) {
      assert IsLeaf(s, k) && FlagsOk(s, k);
      assert IsLeaf(s, k + 1) && FlagsOk(s, k + 1);
    }
  }

  // ----- counters -----

  function P(l: Leaf): nat {
    B(l.splitting || l.joining == 1)
  }

  function R(l: Leaf): nat {
    B(l.token.SplitRunning?)
  }

  lemma {:induction false} PendingConcat(a: seq<Leaf>, b: seq<Leaf>)
    ensures Pending(a + b) == Pending(a) + Pending(b)
    ensures Running(a + b) == Running(a) + Running(b)
  {
    if a == [] {
      assert a + b == b;
    } else {
      PendingConcat(a[1..], b);
      assert (a + b)[1..] == a[1..] + b;
    }
  }

  lemma PendingAt(ls: seq<Leaf>, j: nat)
    requires j < |ls|
    ensures Pending(ls) == Pending(ls[..j]) + P(ls[j]) + Pending(ls[j + 1..])
    ensures Running(ls) == Running(ls[..j]) + R(ls[j]) + Running(ls[j + 1..])
  {
    PendingConcat(ls[..j], ls[j..]);
    assert ls == ls[..j] + ls[j..];
    assert ls[j..][1..] == ls[j + 1..];
  }

  lemma PendingUpdate(ls: seq<Leaf>, j: nat, l: Leaf)
    requires j < |ls|
    ensures Pending(ls[j := l]) == Pending(ls) - P(ls[j]) + P(l)
    ensures Running(ls[j := l]) == Running(ls) - R(ls[j]) + R(l)
  {
    PendingAt(ls, j);
    PendingAt(ls[j := l], j);
    assert ls[j := l][..j] == ls[..j] && ls[j := l][j + 1..] == ls[j + 1..];
  }

  lemma {:induction false} RunningBelowPending(s: State, ls: seq<Leaf>)
    requires forall l :: l in ls && l.token.SplitRunning? ==> l.splitting
    ensures Running(ls) <= Pending(ls)
  {
    if ls != [] {
      assert ls == [ls[0]] + ls[1..];
      RunningBelowPending(s, ls[1..]);
    }
  }

  /** Running splits are pending ones, and one of the pending ones is not running. */
  lemma RunningBound(s: State, j: int)
    requires Flags(s) && IsLeaf(s, j)
    ensures Running(s.leaves) - R(s.leaves[j]) <= Pending(s.leaves) - P(s.leaves[j])
  {
    PendingAt(s.leaves, j);
    forall l | l in s.leaves && l.token.SplitRunning? ensures l.splitting {
      var k :| IsLeaf(s, k) && s.leaves[k] == l;
      assert FlagsOk(s, k);
    }
    RunningBelowPending(s, s.leaves[..j]);
    RunningBelowPending(s, s.leaves[j + 1..]);
  }

  lemma {:induction false} SamePending(a: seq<Leaf>, b: seq<Leaf>)
    requires |a| == |b| && forall j :: 0 <= j < |a| ==> P(a[j]) == P(b[j]) && R(a[j]) == R(b[j])
    ensures Pending(a) == Pending(b) && Running(a) == Running(b)
  {
    if a != [] { SamePending(a[1..], b[1..]); }
  }

  lemma SpillStepKeepsCounters(s: State, st: Step)
    requires Order(s) && Counters(s) && Enabled(s, st) && SpillStep(st)
    ensures Counters(Next(s, st))
  {
    SpillStepLeaves(s, st);
    SamePending(s.leaves, Next(s, st).leaves);
  }

  lemma FlagStepKeepsCounters(s: State, st: Step)
    requires Flags(s) && Counters(s) && Enabled(s, st) && (OneLeafStep(st) || st.Reap?)
    ensures Counters(Next(s, st))
  {
    if !st.Reap? {
      assert FlagsOk(s, st.j);
      RunningBound(s, st.j);
      PendingAt(s.leaves, st.j);
      OneLeafStepLeaves(s, st);
      OneLeafCounters(s, Next(s, st), st.j);
    }
  }

  lemma OneLeafCounters(s: State, s': State, j: nat)
    requires Counters(s) && IsLeaf(s, j) && IsLeaf(s', j) && s'.leaves == s.leaves[j := s'.leaves[j]]
    requires s'.fanout == s.fanout
    requires s'.splitCnt == s.splitCnt + P(s'.leaves[j]) - P(s.leaves[j])
    requires P(s'.leaves[j]) > P(s.leaves[j]) ==> s.splitCnt < SPLIT_CNT_MAX
    requires R(s'.leaves[j]) > R(s.leaves[j]) ==> s.fanout + s.splitCnt < CN_FANOUT_MAX && P(s'.leaves[j]) == 1
    requires Running(s.leaves) - R(s.leaves[j]) <= Pending(s.leaves) - P(s.leaves[j])
    ensures Counters(s')
  {
    PendingUpdate(s.leaves, j, s'.leaves[j]);
  }

  /** Effect of a one-leaf step on the counters. */
  lemma OneLeafStepLeaves(s: State, st: Step)
    requires Enabled(s, st) && OneLeafStep(st) && FlagsOk(s, st.j) && P(s.leaves[st.j]) <= s.splitCnt
    ensures var s' := Next(s, st);
      && IsLeaf(s', st.j) && s'.leaves == s.leaves[st.j := s'.leaves[st.j]] && s'.fanout == s.fanout
      && s'.splitCnt == s.splitCnt + P(s'.leaves[st.j]) - P(s.leaves[st.j])
      && (P(s'.leaves[st.j]) > P(s.leaves[st.j]) ==> s.splitCnt < SPLIT_CNT_MAX)
      && (R(s'.leaves[st.j]) > R(s.leaves[st.j]) ==> s.fanout + s.splitCnt < CN_FANOUT_MAX && P(s'.leaves[st.j]) == 1)
  {
  }

  lemma JoinStepKeepsCounters(s: State, st: Step)
    requires Flags(s) && Counters(s) && Enabled(s, st) && (st.JoinCommit? || st.JoinCancel?)
    ensures Counters(Next(s, st))
  {
    var s' := Next(s, st);
    assert FlagsOk(s, st.j) && FlagsOk(s, st.j - 1);
    var mid := s.leaves[st.j - 1 := s'.leaves[st.j - 1]];
    PendingUpdate(s.leaves, st.j - 1, s'.leaves[st.j - 1]);
    PendingUpdate(mid, st.j, s'.leaves[st.j]);
  }

  lemma SplitInstallKeepsCounters(s: State, j: nat, left: bool)
    requires Flags(s) && Counters(s) && Enabled(s, SplitInstall(j, left))
    ensures Counters(DoSplitInstall(s, j, left))
  {
    var ls := s.leaves[j := s.leaves[j].(token := SplitInstalled)];
    assert FlagsOk(s, j);
    PendingUpdate(s.leaves, j, ls[j]);
    if left {
      var l := Leaf(s.leaves[j].sgen, 0, [], false, 0, Free);
      PendingConcat(ls[..j], ls[j..]);
      assert ls == ls[..j] + ls[j..];
      PendingConcat(ls[..j] + [l], ls[j..]);
      PendingConcat(ls[..j], [l]);
    }
  }

  /** Removing an unflagged leaf, or the left leaf of a join. */
  lemma RemoveKeepsPending(s: State, j: nat)
    requires IsLeaf(s, j) && !s.leaves[j].splitting && s.leaves[j].joining != 1 && !s.leaves[j].token.SplitRunning?
    ensures Pending(RemoveLeaf(s, j).leaves) == Pending(s.leaves)
    ensures Running(RemoveLeaf(s, j).leaves) == Running(s.leaves)
  {
    PendingAt(s.leaves, j);
    PendingConcat(s.leaves[..j], s.leaves[j + 1..]);
  }
}
