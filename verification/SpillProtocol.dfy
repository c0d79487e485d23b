/**
 The root-spill protocol of a cN tree, without the stored data.

 Spill jobs are numbered by their spill generation (cw_sgen).  Each job walks the leaves
 from left to right, holding a spill reference on the leaf it visits, and delivers one
 subspill per leaf.  Steps are as fine as the shared-memory actions of the source:
 checking a leaf's generation, queueing, popping, applying and bumping are separate steps,
 so jobs interleave between any two of them.  Splits, joins and compactions run beside the
 spills under the flags and tokens of the scheduler.
 */
module SpillProtocol {
  const CN_FANOUT_MAX: nat := 1024
  const SPILL_JOBS_MAX: nat := 3
  const SPLIT_CNT_MAX: nat := 255

  /** What a spill job is about to do. */
  datatype Phase =
    | Fresh                            // root kvsets claimed, job not yet running
    | Idle                             // the drain loop found nothing to pop
    | Building                         // holds a reference, builds its subspill
    | Enqueueing                       // not next in order: about to queue the subspill
    | Applying(m: nat, popped: bool)   // about to add subspill m to the leaf
    | Bumping(m: nat, popped: bool)    // subspill m is in the leaf, tn_sgen is not yet m
    | Popping                          // about to call pop
    | Done                             // past the last leaf

  /** pin is the leaf a zspill pins (-1: none); pos is the leaf whose reference is held. */
  datatype Job = Job(zwanted: bool, pin: int, pos: int, phase: Phase)

  /** Holder of a leaf's compaction token. */
  datatype Token = Free | Compacting | SplitRunning | SplitInstalled | JoinLeft | JoinRunning | JoinInstalled

  datatype Leaf = Leaf(
    sgen: nat, spilling: nat, queue: seq<nat>,
    splitting: bool, joining: int, token: Token)

  /** rsgen is the root's tn_sgen, sgen the tree's ct_sgen. */
  datatype State = State(
    rsgen: nat, sgen: nat, jobs: map<nat, Job>, leaves: seq<Leaf>,
    splitCnt: nat, fanout: nat)

  datatype Step =
    | Claim(zwanted: bool)
    | Begin(n: nat, z: int)
    | Enter(n: nat)
    | Check(n: nat)
    | Enqueue(n: nat)
    | Apply(n: nat)
    | Bump(n: nat)
    | Pop(n: nat)
    | Finish(n: nat)
    | Retire(n: nat)
    | CompactStart(j: nat)
    | CompactEnd(j: nat)
    | SplitCommit(j: nat, start: bool)
    | SplitCancel(j: nat)
    | SplitStart(j: nat)
    | SplitInstall(j: nat, left: bool)
    | SplitCleanup(j: nat)
    | JoinCommit(j: nat)
    | JoinCancel(j: nat)
    | JoinStart(j: nat)
    | JoinInstall(j: nat)
    | JoinCleanup(j: nat)
    | Reap
    | TrimRight

  // ----- specification of the subspill list -----

  /** Position-preserving insertion before the first larger generation. */
  function InsertSorted(q: seq<nat>, m: nat): seq<nat> {
    if q == [] then [m]
    else if m < q[0] then [m] + q
    else [q[0]] + InsertSorted(q[1..], m)
  }

  predicate Ready(l: Leaf) {
    |l.queue| > 0 && l.queue[0] == l.sgen + 1
  }

  // ----- guards -----

  predicate IsJob(s: State, n: nat) {
    n in s.jobs
  }

  predicate IsLeaf(s: State, j: int) {
    0 <= j < |s.leaves|
  }

  /** A job is in phase p at a leaf. */
  predicate AtLeaf(s: State, n: nat) {
    n in s.jobs && 0 <= s.jobs[n].pos < |s.leaves|
  }

  /** A job must wait before a leaf with a pending split, or on the left of a pending join,
      unless a queued subspill needs this job to make progress. */
  predicate MustWait(job: Job, n: nat, l: Leaf, j: int) {
    && (l.splitting || l.joining < 0)
    && job.pin != j
    && (l.queue == [] || n > l.queue[|l.queue| - 1])
  }

  predicate Expandable(s: State) {
    s.fanout + s.splitCnt < CN_FANOUT_MAX
  }

  predicate Enabled(s: State, st: Step) {
    match st
    case Claim(z) => s.sgen - s.rsgen < SPILL_JOBS_MAX
    case Begin(n, z) =>
      && n in s.jobs && s.jobs[n].phase.Fresh?
      && (z != -1 ==> s.jobs[n].zwanted && IsLeaf(s, z) && !s.leaves[z].splitting && s.leaves[z].joining == 0)
    case Enter(n) =>
      && n in s.jobs && s.jobs[n].phase.Idle? && IsLeaf(s, s.jobs[n].pos + 1)
      && !MustWait(s.jobs[n], n, s.leaves[s.jobs[n].pos + 1], s.jobs[n].pos + 1)
    case Check(n) => AtLeaf(s, n) && s.jobs[n].phase.Building?
    case Enqueue(n) => AtLeaf(s, n) && s.jobs[n].phase.Enqueueing?
    case Apply(n) => AtLeaf(s, n) && s.jobs[n].phase.Applying?
    case Bump(n) => AtLeaf(s, n) && s.jobs[n].phase.Bumping?
    case Pop(n) => AtLeaf(s, n) && s.jobs[n].phase.Popping?
    case Finish(n) => n in s.jobs && s.jobs[n].phase.Idle? && s.jobs[n].pos + 1 == |s.leaves|
    case Retire(n) => n in s.jobs && s.jobs[n].phase.Done? && n == s.rsgen + 1
    case CompactStart(j) =>
      IsLeaf(s, j) && s.leaves[j].token.Free? && !s.leaves[j].splitting && s.leaves[j].joining == 0
    case CompactEnd(j) => IsLeaf(s, j) && s.leaves[j].token.Compacting?
    case SplitCommit(j, start) =>
      && IsLeaf(s, j) && s.leaves[j].token.Free? && !s.leaves[j].splitting && s.leaves[j].joining == 0
      && Expandable(s) && s.splitCnt < SPLIT_CNT_MAX
      && (start ==> s.leaves[j].spilling == 0)
    case SplitCancel(j) => IsLeaf(s, j) && s.leaves[j].token.Free? && s.leaves[j].splitting
    case SplitStart(j) =>
      && IsLeaf(s, j) && s.leaves[j].token.Free? && s.leaves[j].splitting
      && Expandable(s) && s.leaves[j].spilling == 0
    case SplitInstall(j, left) => IsLeaf(s, j) && s.leaves[j].token.SplitRunning?
    case SplitCleanup(j) => IsLeaf(s, j) && s.leaves[j].token.SplitInstalled?
    case JoinCommit(j) =>
      && IsLeaf(s, j) && IsLeaf(s, j - 1)
      && s.leaves[j].token.Free? && !s.leaves[j].splitting && s.leaves[j].joining == 0
      && s.leaves[j - 1].token.Free? && !s.leaves[j - 1].splitting && s.leaves[j - 1].joining == 0
      && s.splitCnt < SPLIT_CNT_MAX
    case JoinCancel(j) => IsLeaf(s, j) && IsLeaf(s, j - 1) && s.leaves[j].token.Free? && s.leaves[j].joining == 1
    case JoinStart(j) =>
      && IsLeaf(s, j) && IsLeaf(s, j - 1) && s.leaves[j].token.Free? && s.leaves[j].joining == 1
      && s.leaves[j].spilling == 0 && s.leaves[j - 1].spilling == 0
    case JoinInstall(j) => IsLeaf(s, j) && IsLeaf(s, j - 1) && s.leaves[j].token.JoinRunning?
    case JoinCleanup(j) => IsLeaf(s, j) && s.leaves[j].token.JoinInstalled?
    case Reap => |s.leaves| < s.fanout
    case TrimRight =>
      var j := |s.leaves| - 1;
      && 1 <= j
      && s.leaves[j].spilling == 0 && s.leaves[j - 1].spilling == 0
      && s.leaves[j].token.Free? && !s.leaves[j].splitting && s.leaves[j].joining == 0
  }

  // ----- effects -----

  function SetJob(s: State, n: nat, job: Job): State {
    s.(jobs := s.jobs[n := job])
  }

  function SetLeaf(s: State, j: int, l: Leaf): State
    requires IsLeaf(s, j)
  {
    s.(leaves := s.leaves[j := l])
  }

  function Ref(l: Leaf): Leaf {
    l.(spilling := l.spilling + 1)
  }

  /** Dropping a reference; the counter never goes below zero in a reachable state. */
  function Unref(l: Leaf): Leaf {
    l.(spilling := if l.spilling == 0 then 0 else l.spilling - 1)
  }

  /** Drop the reference on leaf j if there is one to drop. */
  function DropRef(s: State, j: int): State {
    if IsLeaf(s, j) then SetLeaf(s, j, Unref(s.leaves[j])) else s
  }

  function DoBegin(s: State, n: nat, z: int): State
    requires Enabled(s, Begin(n, z))
  {
    var s1 := SetJob(s, n, s.jobs[n].(phase := Idle, pin := z));
    if z == -1 then s1 else SetLeaf(s1, z, Ref(s.leaves[z]))
  }

  function DoEnter(s: State, n: nat): State
    requires Enabled(s, Enter(n))
  {
    var job := s.jobs[n];
    var s1 := DropRef(s, job.pos);
    var s2 := SetLeaf(s1, job.pos + 1, Ref(s1.leaves[job.pos + 1]));
    SetJob(s2, n, job.(pos := job.pos + 1, phase := Building))
  }

  function DoCheck(s: State, n: nat): State
    requires Enabled(s, Check(n))
  {
    var job := s.jobs[n];
    SetJob(s, n, job.(phase := if n == s.leaves[job.pos].sgen + 1 then Applying(n, false) else Enqueueing))
  }

  function DoEnqueue(s: State, n: nat): State
    requires Enabled(s, Enqueue(n))
  {
    var job := s.jobs[n];
    var l := Ref(s.leaves[job.pos]);
    SetJob(SetLeaf(s, job.pos, l.(queue := InsertSorted(l.queue, n))), n, job.(phase := Popping))
  }

  function DoApply(s: State, n: nat): State
    requires Enabled(s, Apply(n))
  {
    var job := s.jobs[n];
    SetJob(s, n, job.(phase := Bumping(job.phase.m, job.phase.popped)))
  }

  function DoBump(s: State, n: nat): State
    requires Enabled(s, Bump(n))
  {
    var job := s.jobs[n];
    var l := s.leaves[job.pos].(sgen := s.leaves[job.pos].sgen + 1);
    SetJob(SetLeaf(s, job.pos, if job.phase.popped then Unref(l) else l), n, job.(phase := Popping))
  }

  function DoPop(s: State, n: nat): State
    requires Enabled(s, Pop(n))
  {
    var job := s.jobs[n];
    var l := s.leaves[job.pos];
    if Ready(l) then
      SetJob(SetLeaf(s, job.pos, l.(queue := l.queue[1..])), n, job.(phase := Applying(l.queue[0], true)))
    else
      SetJob(s, n, job.(phase := Idle))
  }

  function DoFinish(s: State, n: nat): State
    requires Enabled(s, Finish(n))
  {
    var job := s.jobs[n];
    SetJob(DropRef(s, job.pos), n, job.(pos := job.pos + 1, phase := Done))
  }

  function DoRetire(s: State, n: nat): State
    requires Enabled(s, Retire(n))
  {
    var job := s.jobs[n];
    SetJob(DropRef(s, job.pin), n, job.(pin := -1)).(rsgen := n)
  }

  /** Leaf indices after a leaf is inserted at i, or after leaf i is removed. */
  function Up(p: int, i: int): int {
    if p >= i then p + 1 else p
  }

  function Down(p: int, i: int): int {
    if p > i then p - 1 else p
  }

  function InsertLeaf(s: State, i: nat, l: Leaf): State
    requires i <= |s.leaves|
  {
    s.(leaves := s.leaves[..i] + [l] + s.leaves[i..],
       jobs := map n | n in s.jobs :: s.jobs[n].(pos := Up(s.jobs[n].pos, i), pin := Up(s.jobs[n].pin, i)))
  }

  function RemoveLeaf(s: State, i: nat): State
    requires i < |s.leaves|
  {
    s.(leaves := s.leaves[..i] + s.leaves[i + 1..],
       jobs := map n | n in s.jobs :: s.jobs[n].(pos := Down(s.jobs[n].pos, i), pin := Down(s.jobs[n].pin, i)))
  }

  /** The new left node of a split inherits the source node's generation. */
  function DoSplitInstall(s: State, j: nat, left: bool): State
    requires Enabled(s, SplitInstall(j, left))
  {
    var s1 := SetLeaf(s, j, s.leaves[j].(token := SplitInstalled));
    if left then
      InsertLeaf(s1, j, Leaf(s.leaves[j].sgen, 0, [], false, 0, Free)).(fanout := s.fanout + 1)
    else s1
  }

  function DoJoinInstall(s: State, j: nat): State
    requires Enabled(s, JoinInstall(j))
  {
    RemoveLeaf(SetLeaf(s, j, s.leaves[j].(token := JoinInstalled)), j - 1)
  }

  function Next(s: State, st: Step): State
    requires Enabled(s, st)
  {
    match st
    case Claim(z) => SetJob(s, s.sgen + 1, Job(z, -1, -1, Fresh)).(sgen := s.sgen + 1)
    case Begin(n, z) => DoBegin(s, n, z)
    case Enter(n) => DoEnter(s, n)
    case Check(n) => DoCheck(s, n)
    case Enqueue(n) => DoEnqueue(s, n)
    case Apply(n) => DoApply(s, n)
    case Bump(n) => DoBump(s, n)
    case Pop(n) => DoPop(s, n)
    case Finish(n) => DoFinish(s, n)
    case Retire(n) => DoRetire(s, n)
    case CompactStart(j) => SetLeaf(s, j, s.leaves[j].(token := Compacting))
    case CompactEnd(j) => SetLeaf(s, j, s.leaves[j].(token := Free))
    case SplitCommit(j, start) =>
      SetLeaf(s, j, s.leaves[j].(splitting := true, token := if start then SplitRunning else Free))
        .(splitCnt := s.splitCnt + 1)
    case SplitCancel(j) => SetLeaf(s, j, s.leaves[j].(splitting := false)).(splitCnt := PredNat(s.splitCnt))
    case SplitStart(j) => SetLeaf(s, j, s.leaves[j].(token := SplitRunning))
    case SplitInstall(j, left) => DoSplitInstall(s, j, left)
    case SplitCleanup(j) =>
      SetLeaf(s, j, s.leaves[j].(splitting := false, token := Free)).(splitCnt := PredNat(s.splitCnt))
    case JoinCommit(j) =>
      var s1 := SetLeaf(s, j - 1, s.leaves[j - 1].(joining := -1, token := JoinLeft));
      SetLeaf(s1, j, s.leaves[j].(joining := 1)).(splitCnt := s.splitCnt + 1)
    case JoinCancel(j) =>
      var s1 := SetLeaf(s, j - 1, s.leaves[j - 1].(joining := 0, token := Free));
      SetLeaf(s1, j, s.leaves[j].(joining := 0)).(splitCnt := PredNat(s.splitCnt))
    case JoinStart(j) => SetLeaf(s, j, s.leaves[j].(token := JoinRunning))
    case JoinInstall(j) => DoJoinInstall(s, j)
    case JoinCleanup(j) =>
      SetLeaf(s, j, s.leaves[j].(joining := 0, token := Free)).(splitCnt := PredNat(s.splitCnt))
    case Reap => s.(fanout := PredNat(s.fanout))
    case TrimRight => RemoveLeaf(s, |s.leaves| - 1).(fanout := PredNat(s.fanout))
  }

  function PredNat(n: nat): nat {
    if n == 0 then 0 else n - 1
  }
}
