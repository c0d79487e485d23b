/** What every run of the spill protocol keeps. */
module SpillTheorems {
  import opened SpillProtocol
  import opened SpillInvariant
  import opened SpillOrderProof
  import opened SpillRefsProof
  import opened SpillFlagsProof

  /** A tree that was just opened: any leaves, no jobs. */
  ghost predicate Init(s: State) {
    && s.rsgen == 0 && s.sgen == 0 && s.jobs == map[]
    && 1 <= |s.leaves| == s.fanout <= CN_FANOUT_MAX && s.splitCnt == 0
    && (forall j :: IsLeaf(s, j) ==> s.leaves[j] == Leaf(0, 0, [], false, 0, Free))
  }

  /** s' is reached from s by the given steps, each enabled in its turn. */
  ghost predicate Reaches(s: State, steps: seq<Step>, s': State)
    decreases |steps|
  {
    if steps == [] then s' == s
    else Enabled(s, steps[0]) && Reaches(Next(s, steps[0]), steps[1..], s')
  }

  lemma InitInv(s: State)
    requires Init(s)
    ensures Inv(s)
  {
    forall j | IsLeaf(s, j) ensures QueueOk(s, j) && NotStranded(s, j) && RefsOk(s, j) && FlagsOk(s, j) {
      assert JobsAt(s, j) == {} && PoppersAt(s, j) == {} && PinsAt(s, j) == {};
    }
    InitCounters(s.leaves);
  }

  lemma {:induction false} InitCounters(ls: seq<Leaf>)
    requires forall j :: 0 <= j < |ls| ==> ls[j] == Leaf(0, 0, [], false, 0, Free)
    ensures Pending(ls) == 0 && Running(ls) == 0
  {
    if ls != [] { InitCounters(ls[1..]); }
  }

  lemma StepKeepsOrder(s: State, st: Step)
    requires Order(s) && Enabled(s, st) && SpillStep(st)
    ensures Order(Next(s, st))
  {
    match st
    case Claim(z) => ClaimKeepsOrder(s, z);
    case Check(n) => CheckKeepsOrder(s, n);
    case Enqueue(n) => EnqueueKeepsOrder(s, n);
    case Bump(n) => BumpKeepsOrder(s, n);
    case Pop(n) => PopKeepsOrder(s, n);
    case _ => MoveKeepsOrder(s, st);
  }

  lemma MoveKeepsOrder(s: State, st: Step)
    requires Order(s) && Enabled(s, st)
    requires st.Begin? || st.Enter? || st.Apply? || st.Finish? || st.Retire?
    ensures Order(Next(s, st))
  {
    MoveIsQuiet(s, st);
    QuietMove(s, Next(s, st), st.n);
  }

  lemma MoveIsQuiet(s: State, st: Step)
    requires st.Begin? || st.Enter? || st.Apply? || st.Finish? || st.Retire?
    requires Enabled(s, st) && Shape(s) && IsJob(s, st.n) && JobOk(s, st.n)
    ensures Quiet(s, Next(s, st), st.n)
  {
  }

  lemma SpillStepKeepsRefs(s: State, st: Step)
    requires Inv(s) && Enabled(s, st) && SpillStep(st)
    ensures Refs(Next(s, st))
  {
    if st.Enter? {
      EnterKeepsRefs(s, st.n);
    } else if st.Claim? || st.Begin? || st.Finish? || st.Retire? {
      JobStepKeepsRefs(s, st);
    } else {
      VisitStepKeepsRefs(s, st);
    }
  }

  lemma SplitInstallKeepsInv(s: State, j: nat, left: bool)
    requires Inv(s) && Enabled(s, SplitInstall(j, left))
    ensures Inv(DoSplitInstall(s, j, left))
  {
    SplitInstallKeepsFlags(s, j, left);
    SplitInstallKeepsCounters(s, j, left);
    assert FlagsOk(s, j);
    var s1 := SetLeaf(s, j, s.leaves[j].(token := SplitInstalled));
    OrderFrame(s, s1);
    RefsFrame(s, s1);
    if left {
      ZeroRefs(s1, j);
      var l := Leaf(s.leaves[j].sgen, 0, [], false, 0, Free);
      InsertKeepsOrder(s1, j, l);
      InsertKeepsRefs(s1, j, l);
      FanoutFrame(InsertLeaf(s1, j, l), DoSplitInstall(s, j, left));
    }
  }

  lemma FanoutFrame(s: State, s': State)
    requires Order(s) && Refs(s) && s' == s.(fanout := s'.fanout)
    ensures Order(s') && Refs(s')
  {
    OrderFrame(s, s');
    RefsFrame(s, s');
  }

  lemma JoinInstallKeepsInv(s: State, j: nat)
    requires Inv(s) && Enabled(s, JoinInstall(j))
    ensures Inv(DoJoinInstall(s, j))
  {
    JoinInstallKeepsFlags(s, j);
    assert FlagsOk(s, j) && FlagsOk(s, j - 1);
    var s1 := SetLeaf(s, j, s.leaves[j].(token := JoinInstalled));
    PendingUpdate(s.leaves, j, s1.leaves[j]);
    OrderFrame(s, s1);
    RefsFrame(s, s1);
    ZeroRefs(s1, j - 1);
    RemoveKeepsOrder(s1, j - 1);
    RemoveKeepsRefs(s1, j - 1);
    RemoveKeepsPending(s1, j - 1);
  }

  lemma TrimKeepsInv(s: State)
    requires Inv(s) && Enabled(s, TrimRight)
    ensures Inv(Next(s, TrimRight))
  {
    var j := |s.leaves| - 1;
    TrimKeepsFlags(s);
    ZeroRefs(s, j);
    RemoveKeepsOrder(s, j);
    RemoveKeepsRefs(s, j);
    RemoveKeepsPending(s, j);
    FanoutFrame(RemoveLeaf(s, j), Next(s, TrimRight));
  }

  lemma StepKeepsInv(s: State, st: Step)
    requires Inv(s) && Enabled(s, st)
    ensures Inv(Next(s, st))
  {
    if SpillStep(st) {
      StepKeepsOrder(s, st);
      SpillStepKeepsRefs(s, st);
      SpillStepKeepsFlags(s, st);
      SpillStepKeepsCounters(s, st);
    } else if st.SplitInstall? {
      SplitInstallKeepsInv(s, st.j, st.left);
    } else if st.JoinInstall? {
      JoinInstallKeepsInv(s, st.j);
    } else if st.TrimRight? {
      TrimKeepsInv(s);
    } else {
      SchedulerStepKeepsInv(s, st);
    }
  }

  lemma SchedulerStepKeepsInv(s: State, st: Step)
    requires Inv(s) && Enabled(s, st) && (OneLeafStep(st) || st.Reap? || st.JoinCommit? || st.JoinCancel?)
    ensures Inv(Next(s, st))
  {
    var s' := Next(s, st);
    SchedulerStepFrame(s, st);
    OrderFrame(s, s');
    RefsFrame(s, s');
    if st.JoinCommit? || st.JoinCancel? {
      JoinStepKeepsFlags(s, st);
      JoinStepKeepsCounters(s, st);
    } else {
      FlagStepKeepsFlags(s, st);
      FlagStepKeepsCounters(s, st);
    }
  }

  lemma SchedulerStepFrame(s: State, st: Step)
    requires Enabled(s, st) && (OneLeafStep(st) || st.Reap? || st.JoinCommit? || st.JoinCancel?)
    ensures SameSpills(s, Next(s, st))
  {
  }

  lemma {:induction false} RunKeepsInv(s: State, steps: seq<Step>, s': State)
    requires Inv(s) && Reaches(s, steps, s')
    ensures Inv(s')
    decreases |steps|
  {
    if steps != [] {
      StepKeepsInv(s, steps[0]);
      RunKeepsInv(Next(s, steps[0]), steps[1..], s');
    }
  }

  // ----- the theorems -----

  /** Two adjacent leaves without spill references have received the same spills. */
  lemma AdjacentQuietLeavesAgree(s0: State, steps: seq<Step>, s: State, j: int)
    requires Init(s0) && Reaches(s0, steps, s)
    requires IsLeaf(s, j) && IsLeaf(s, j + 1)
    requires s.leaves[j].spilling == 0 && s.leaves[j + 1].spilling == 0
    ensures s.leaves[j].sgen == s.leaves[j + 1].sgen
  {
    InitInv(s0);
    RunKeepsInv(s0, steps, s);
    QuietLeavesAgree(s, j);
  }

  lemma QuietLeavesAgree(s: State, j: int)
    requires Inv(s) && IsLeaf(s, j) && IsLeaf(s, j + 1)
    requires s.leaves[j].spilling == 0 && s.leaves[j + 1].spilling == 0
    ensures s.leaves[j].sgen == s.leaves[j + 1].sgen
  {
    ZeroRefs(s, j);
    ZeroRefs(s, j + 1);
    assert QueueOk(s, j) && QueueOk(s, j + 1);
    var a, b := s.leaves[j].sgen, s.leaves[j + 1].sgen;
    if a > 0 { assert OrderOk(s, a, j) && OrderOk(s, a, j + 1) && JobOk(s, a); }
    if b > 0 { assert OrderOk(s, b, j) && OrderOk(s, b, j + 1) && JobOk(s, b); }
  }

  /** While a split runs on a leaf, no job visits or pins it and its list is empty. */
  lemma RunningSplitIsAlone(s0: State, steps: seq<Step>, s: State, j: int)
    requires Init(s0) && Reaches(s0, steps, s)
    requires IsLeaf(s, j) && (s.leaves[j].token.SplitRunning? || s.leaves[j].token.SplitInstalled?)
    ensures s.leaves[j].spilling == 0 && s.leaves[j].queue == []
    ensures forall n :: n in s.jobs ==> s.jobs[n].pos != j && s.jobs[n].pin != j
  {
    InitInv(s0);
    RunKeepsInv(s0, steps, s);
    BusyLeafIsQuiet(s, j);
  }

  /** While a join runs, the same holds of both of its leaves. */
  lemma RunningJoinIsAlone(s0: State, steps: seq<Step>, s: State, j: int)
    requires Init(s0) && Reaches(s0, steps, s)
    requires IsLeaf(s, j) && s.leaves[j].token.JoinRunning?
    ensures IsLeaf(s, j - 1)
    ensures forall i :: i == j - 1 || i == j ==>
      s.leaves[i].spilling == 0 && s.leaves[i].queue == [] && NobodyAt(s, i)
    ensures s.leaves[j - 1].sgen == s.leaves[j].sgen
  {
    InitInv(s0);
    RunKeepsInv(s0, steps, s);
    assert FlagsOk(s, j) && Busy(s, j) && Busy(s, j - 1);
    BusyLeafIsQuiet(s, j);
    BusyLeafIsQuiet(s, j - 1);
    QuietLeavesAgree(s, j - 1);
  }

  /** A subspill is applied only when it is the next one for its leaf, by one job at a
      time; so a leaf applies subspills 1, 2, 3, ... without gap or repeat. */
  lemma AppliedInOrder(s0: State, steps: seq<Step>, s: State, n: nat)
    requires Init(s0) && Reaches(s0, steps, s) && Enabled(s, Apply(n))
    ensures var j, m := s.jobs[n].pos, s.jobs[n].phase.m;
      && m == s.leaves[j].sgen + 1 && m !in s.leaves[j].queue
      && (forall i :: i in s.jobs && i != n ==> !Carries(s, i, j, m))
      && (forall i :: 1 <= i <= m ==> Delivered(s, i, j))
  {
    InitInv(s0);
    RunKeepsInv(s0, steps, s);
    var j, m := s.jobs[n].pos, s.jobs[n].phase.m;
    assert JobOk(s, n) && QueueOk(s, j) && Carries(s, n, j, m);
    forall i | i in s.jobs && i != n ensures !Carries(s, i, j, m) { assert OneCarrier(s, i, n); }
    forall i | 1 <= i <= m ensures Delivered(s, i, j) { assert OrderOk(s, i, j); }
  }

  /** The leaf that is leaf j after the step. */
  function Origin(st: Step, j: int): int {
    match st
    case SplitInstall(i, left) => if left && i < j then j - 1 else j
    case JoinInstall(i) => if i - 1 <= j then j + 1 else j
    case _ => j
  }

  /** The generation of a leaf only ever moves by one, in the bump of the subspill that was
      added to it; the halves of a split and the result of a join keep it. */
  lemma GenerationMovesByOne(s0: State, steps: seq<Step>, s: State, st: Step, j: int)
    requires Init(s0) && Reaches(s0, steps, s) && Enabled(s, st) && IsLeaf(Next(s, st), j)
    ensures var o := Origin(st, j); var bumped := st.Bump? && s.jobs[st.n].pos == j;
      && IsLeaf(s, o)
      && Next(s, st).leaves[j].sgen == s.leaves[o].sgen + (if bumped then 1 else 0)
      && (bumped ==> Next(s, st).leaves[j].sgen == s.jobs[st.n].phase.m)
  {
    InitInv(s0);
    RunKeepsInv(s0, steps, s);
    if SpillStep(st) { SpillStepGeneration(s, st, j); } else { SchedulerStepGeneration(s, st, j); }
  }

  /** What spill steps do to the generation of a leaf. */
  lemma SpillStepGeneration(s: State, st: Step, j: int)
    requires Inv(s) && Enabled(s, st) && SpillStep(st) && IsLeaf(Next(s, st), j)
    ensures var bumped := st.Bump? && s.jobs[st.n].pos == j;
      && IsLeaf(s, j)
      && Next(s, st).leaves[j].sgen == s.leaves[j].sgen + (if bumped then 1 else 0)
      && (bumped ==> Next(s, st).leaves[j].sgen == s.jobs[st.n].phase.m)
  {
    SpillStepLeaves(s, st);
    if st.Bump? { assert JobOk(s, st.n); }
  }

  lemma SchedulerStepGeneration(s: State, st: Step, j: int)
    requires Enabled(s, st) && !SpillStep(st) && IsLeaf(Next(s, st), j)
    ensures IsLeaf(s, Origin(st, j)) && Next(s, st).leaves[j].sgen == s.leaves[Origin(st, j)].sgen
  {
  }

  /** A subspill that is next in order always has a job at its leaf that will pop it. */
  lemma NoSubspillStranded(s0: State, steps: seq<Step>, s: State, j: int)
    requires Init(s0) && Reaches(s0, steps, s) && IsLeaf(s, j) && Ready(s.leaves[j])
    ensures exists n :: n in s.jobs && s.jobs[n].pos == j && s.jobs[n].phase.Popping?
  {
    InitInv(s0);
    RunKeepsInv(s0, steps, s);
    assert NotStranded(s, j);
    var n :| n in s.jobs && PopsAt(s, n, j);
  }

  /** A job stands between its check of a leaf and the end of its drain loop there. */
  predicate MidVisit(job: Job) {
    job.phase.Applying? || job.phase.Bumping? || job.phase.Popping?
  }

  /** When the first n spills have passed a leaf and no job is in the middle of a visit
      there, the leaf has applied all n of them. */
  lemma PassedSpillsApplied(s: State, n: nat, j: int)
    requires Inv(s) && IsLeaf(s, j) && n <= s.sgen
    requires forall i :: 1 <= i <= n ==> Delivered(s, i, j)
    requires forall i :: i in s.jobs && s.jobs[i].pos == j ==> !MidVisit(s.jobs[i])
    ensures n <= s.leaves[j].sgen
  {
    var m := s.leaves[j].sgen + 1;
    if m <= n {
      NextPassedIsHeld(s, m, j);
    }
  }

  /** A spill that passed a leaf and is next there is at the head of the list or in some job's hand. */
  lemma NextPassedIsHeld(s: State, m: nat, j: int)
    requires Order(s) && IsLeaf(s, j) && m == s.leaves[j].sgen + 1 && Delivered(s, m, j)
    ensures exists i :: i in s.jobs && s.jobs[i].pos == j && MidVisit(s.jobs[i])
  {
    assert OrderOk(s, m, j) && QueueOk(s, j) && NotStranded(s, j);
    if InFlight(s, j, m) {
      var i :| i in s.jobs && Carries(s, i, j, m);
    } else {
      var q := s.leaves[j].queue;
      assert m in q && q[0] in q;
      assert q[0] == m;
      var i :| i in s.jobs && PopsAt(s, i, j);
    }
  }

  /** So a spill whose turn to retire has come is applied everywhere, if no job is in the
      middle of a visit. */
  lemma RetireAfterVisits(s0: State, steps: seq<Step>, s: State, n: nat)
    requires Init(s0) && Reaches(s0, steps, s) && Enabled(s, Retire(n))
    requires forall i :: i in s.jobs ==> !MidVisit(s.jobs[i])
    ensures forall j :: IsLeaf(s, j) ==> n <= s.leaves[j].sgen
  {
    InitInv(s0);
    RunKeepsInv(s0, steps, s);
    RetiringIsApplied(s, n);
  }

  lemma RetiringIsApplied(s: State, n: nat)
    requires Inv(s) && Enabled(s, Retire(n)) && forall i :: i in s.jobs ==> !MidVisit(s.jobs[i])
    ensures forall j :: IsLeaf(s, j) ==> n <= s.leaves[j].sgen
  {
    forall j | IsLeaf(s, j) ensures n <= s.leaves[j].sgen {
      RetiringPassed(s, n, j);
      PassedSpillsApplied(s, n, j);
    }
  }

  lemma RetiringPassed(s: State, n: nat, j: int)
    requires Order(s) && Enabled(s, Retire(n)) && IsLeaf(s, j)
    ensures n <= s.sgen && forall i :: 1 <= i <= n ==> Delivered(s, i, j)
  {
    forall i | 1 <= i <= n ensures Delivered(s, i, j) { assert i in s.jobs && JobOk(s, i); }
  }

  /** Fanout stays within its limit, and the split counter counts the pending or running
      splits and joins. */
  lemma FanoutBounded(s0: State, steps: seq<Step>, s: State)
    requires Init(s0) && Reaches(s0, steps, s)
    ensures |s.leaves| <= s.fanout <= CN_FANOUT_MAX
    ensures s.splitCnt == Pending(s.leaves)
  {
    InitInv(s0);
    RunKeepsInv(s0, steps, s);
  }

  /** A reference is dropped only where one is held: the counter never wraps. */
  lemma DropsAreHeld(s0: State, steps: seq<Step>, s: State, n: nat)
    requires Init(s0) && Reaches(s0, steps, s) && n in s.jobs
    ensures IsLeaf(s, s.jobs[n].pos) ==> s.leaves[s.jobs[n].pos].spilling >= 1 + B(HoldsPopped(s.jobs[n]))
    ensures IsLeaf(s, s.jobs[n].pin) ==> s.leaves[s.jobs[n].pin].spilling >= 1
  {
    InitInv(s0);
    RunKeepsInv(s0, steps, s);
    var j, p := s.jobs[n].pos, s.jobs[n].pin;
    if IsLeaf(s, j) {
      assert RefsOk(s, j) && n in JobsAt(s, j);
      if HoldsPopped(s.jobs[n]) { assert n in PoppersAt(s, j); }
    }
    if IsLeaf(s, p) { assert RefsOk(s, p) && n in PinsAt(s, p); }
  }

  // ----- waiting before a leaf -----

  ghost predicate HasLater(q: seq<nat>, n: nat) {
    exists m :: m in q && n < m
  }

  lemma LastIsLargest(q: seq<nat>, n: nat)
    requires Sorted(q)
    ensures HasLater(q, n) <==> q != [] && n < q[|q| - 1]
  {
    if q != [] && n < q[|q| - 1] { assert q[|q| - 1] in q; }
  }

  lemma ListIsSorted(s0: State, steps: seq<Step>, s: State, j: int)
    requires Init(s0) && Reaches(s0, steps, s) && IsLeaf(s, j)
    ensures Sorted(s.leaves[j].queue) && forall m :: m in s.leaves[j].queue ==> s.leaves[j].sgen < m
  {
    InitInv(s0);
    RunKeepsInv(s0, steps, s);
    assert QueueOk(s, j);
  }

  /** A job has nothing in the list of a leaf it has not visited. */
  lemma NotInListAhead(s0: State, steps: seq<Step>, s: State, n: nat, j: int)
    requires Init(s0) && Reaches(s0, steps, s) && IsLeaf(s, j)
    requires n in s.jobs && s.jobs[n].phase.Idle? && s.jobs[n].pos + 1 == j
    ensures n !in s.leaves[j].queue
  {
    InitInv(s0);
    RunKeepsInv(s0, steps, s);
    assert OrderOk(s, n, j);
  }

  /** No split and no join to the right is pending at the leaf, or it is the leaf the job pins,
      or its list holds a subspill of a later spill. */
  ghost predicate MayEnter(job: Job, n: nat, l: Leaf, j: int) {
    (!l.splitting && l.joining >= 0) || job.pin == j || HasLater(l.queue, n)
  }

  lemma EntersExactly(s: State, n: nat, j: int)
    requires n in s.jobs && s.jobs[n].phase.Idle? && s.jobs[n].pos + 1 == j && IsLeaf(s, j)
    requires Sorted(s.leaves[j].queue) && n !in s.leaves[j].queue
    ensures Enabled(s, Enter(n)) <==> MayEnter(s.jobs[n], n, s.leaves[j], j)
  {
    var q := s.leaves[j].queue;
    LastIsLargest(q, n);
    if q != [] { assert q[|q| - 1] in q; }
  }

  /** A job about to move on is let into the next leaf exactly if it may enter. */
  lemma WaitsExactly(s0: State, steps: seq<Step>, s: State, n: nat, j: int)
    requires Init(s0) && Reaches(s0, steps, s)
    requires n in s.jobs && s.jobs[n].phase.Idle? && s.jobs[n].pos + 1 == j && IsLeaf(s, j)
    ensures Enabled(s, Enter(n)) <==> MayEnter(s.jobs[n], n, s.leaves[j], j)
  {
    ListIsSorted(s0, steps, s, j);
    NotInListAhead(s0, steps, s, n, j);
    EntersExactly(s, n, j);
  }

  /** So the spill that a leaf with a waiting list lacks is never held up before that leaf. */
  lemma LackingSpillEnters(s0: State, steps: seq<Step>, s: State, j: int)
    requires Init(s0) && Reaches(s0, steps, s) && IsLeaf(s, j) && s.leaves[j].queue != []
    requires var n := s.leaves[j].sgen + 1;
      n !in s.leaves[j].queue && n in s.jobs && s.jobs[n].phase.Idle? && s.jobs[n].pos + 1 == j
    ensures Enabled(s, Enter(s.leaves[j].sgen + 1))
  {
    var q := s.leaves[j].queue;
    ListIsSorted(s0, steps, s, j);
    assert q[0] in q;
    assert HasLater(q, s.leaves[j].sgen + 1);
    EntersExactly(s, s.leaves[j].sgen + 1, j);
  }

  // ----- how many spills run -----

  lemma StepKeepsBound(s: State, st: Step)
    requires Enabled(s, st) && s.sgen - s.rsgen <= SPILL_JOBS_MAX
    ensures Next(s, st).sgen - Next(s, st).rsgen <= SPILL_JOBS_MAX
  {
  }

  lemma {:induction false} RunKeepsBound(s: State, steps: seq<Step>, s': State)
    requires Reaches(s, steps, s') && s.sgen - s.rsgen <= SPILL_JOBS_MAX
    ensures s'.sgen - s'.rsgen <= SPILL_JOBS_MAX
    decreases |steps|
  {
    if steps != [] {
      StepKeepsBound(s, steps[0]);
      RunKeepsBound(Next(s, steps[0]), steps[1..], s');
    }
  }

  /** At most three spills are claimed and not retired, and another can be claimed exactly if
      there are fewer; the spills not retired are those above the root's generation. */
  lemma SpillsBounded(s0: State, steps: seq<Step>, s: State, z: bool)
    requires Init(s0) && Reaches(s0, steps, s)
    ensures 0 <= s.sgen - s.rsgen <= SPILL_JOBS_MAX
    ensures Enabled(s, Claim(z)) <==> s.sgen - s.rsgen != SPILL_JOBS_MAX
    ensures forall n :: n in s.jobs && !s.jobs[n].phase.Done? ==> s.rsgen < n <= s.sgen
  {
    InitInv(s0);
    RunKeepsInv(s0, steps, s);
    RunKeepsBound(s0, steps, s);
    forall n | n in s.jobs && !s.jobs[n].phase.Done? ensures s.rsgen < n <= s.sgen { assert JobOk(s, n); }
  }
}
