/**
 The invariant of the spill protocol.
 */
module SpillInvariant {
  import opened SpillProtocol

  /** Number of leaves a job has delivered its subspill to. */
  function Front(job: Job): int {
    if job.phase.Building? || job.phase.Enqueueing? || job.phase.Done? then job.pos else job.pos + 1
  }

  ghost predicate Delivered(s: State, n: nat, j: int) {
    n in s.jobs && j < Front(s.jobs[n])
  }

  /** Job n is applying or bumping subspill m at leaf j. */
  ghost predicate Carries(s: State, n: nat, j: int, m: nat) {
    && n in s.jobs && s.jobs[n].pos == j
    && (s.jobs[n].phase.Applying? || s.jobs[n].phase.Bumping?)
    && s.jobs[n].phase.m == m
  }

  ghost predicate InFlight(s: State, j: int, m: nat) {
    exists n :: n in s.jobs && Carries(s, n, j, m)
  }

  ghost predicate Sorted(q: seq<nat>) {
    forall a, b :: 0 <= a < b < |q| ==> q[a] < q[b]
  }

  ghost predicate PopsAt(s: State, n: nat, j: int) {
    n in s.jobs && s.jobs[n].pos == j && s.jobs[n].phase.Popping?
  }

  // ----- the parts of the invariant -----

  ghost predicate Shape(s: State) {
    && |s.leaves| >= 1
    && s.rsgen <= s.sgen
    && (forall n :: n in s.jobs <==> 1 <= n <= s.sgen)
  }

  ghost predicate JobOk(s: State, n: nat)
    requires n in s.jobs
  {
    var job := s.jobs[n];
    && (job.phase.Fresh? ==> job.pos == -1)
    && (job.phase.Idle? ==> -1 <= job.pos < |s.leaves|)
    && (job.phase.Done? <==> job.pos >= |s.leaves|)
    && (job.phase.Done? ==> job.pos == |s.leaves|)
    && (!job.phase.Fresh? && !job.phase.Idle? ==> job.pos >= 0)
    && -1 <= job.pin < |s.leaves|
    && (job.pin != -1 ==> !job.phase.Fresh?)
    && (n <= s.rsgen ==> job.phase.Done? && job.pin == -1)
    && (job.phase.Applying? || job.phase.Bumping? ==>
          job.phase.m in s.jobs && job.phase.m == s.leaves[job.pos].sgen + 1)
    && ((job.phase.Applying? || job.phase.Bumping?) && !job.phase.popped ==> job.phase.m == n)
  }

  ghost predicate OrderOk(s: State, n: nat, j: int)
    requires n in s.jobs && IsLeaf(s, j)
  {
    && (n <= s.leaves[j].sgen ==> Delivered(s, n, j))
    && (Delivered(s, n, j) ==> n <= s.leaves[j].sgen || n in s.leaves[j].queue || InFlight(s, j, n))
    && (n in s.leaves[j].queue || InFlight(s, j, n) ==> Delivered(s, n, j))
  }

  ghost predicate OneCarrier(s: State, n: nat, n': nat)
    requires n in s.jobs && n' in s.jobs
  {
    var p, p' := s.jobs[n], s.jobs[n'];
    n != n' && (p.phase.Applying? || p.phase.Bumping?) && (p'.phase.Applying? || p'.phase.Bumping?) ==> p.pos != p'.pos
  }

  ghost predicate QueueOk(s: State, j: int)
    requires IsLeaf(s, j)
  {
    var l := s.leaves[j];
    && l.sgen <= s.sgen
    && Sorted(l.queue)
    && (forall m :: m in l.queue ==> m in s.jobs && l.sgen < m && !InFlight(s, j, m))
  }

  /** No subspill is stranded: if the head of the list is next in order then some job at
      the leaf is about to pop it. */
  ghost predicate NotStranded(s: State, j: int)
    requires IsLeaf(s, j)
  {
    Ready(s.leaves[j]) ==> exists n :: n in s.jobs && PopsAt(s, n, j)
  }

  ghost predicate Order(s: State) {
    && Shape(s)
    && (forall n :: n in s.jobs ==> JobOk(s, n))
    && (forall n, j :: n in s.jobs && IsLeaf(s, j) ==> OrderOk(s, n, j))
    && (forall n, n' :: n in s.jobs && n' in s.jobs ==> OneCarrier(s, n, n'))
    && (forall j :: IsLeaf(s, j) ==> QueueOk(s, j))
    && (forall j :: IsLeaf(s, j) ==> NotStranded(s, j))
  }

  // ----- spill references -----

  function JobsAt(s: State, j: int): set<nat> {
    set n | n in s.jobs && s.jobs[n].pos == j
  }

  function PoppersAt(s: State, j: int): set<nat> {
    set n | n in s.jobs && s.jobs[n].pos == j
         && (s.jobs[n].phase.Applying? || s.jobs[n].phase.Bumping?) && s.jobs[n].phase.popped
  }

  function PinsAt(s: State, j: int): set<nat> {
    set n | n in s.jobs && s.jobs[n].pin == j
  }

  /** The reference counter counts the jobs visiting the leaf, the queued subspills, the
      popped subspills being applied, and the zspills that pin the leaf. */
  ghost predicate RefsOk(s: State, j: int)
    requires IsLeaf(s, j)
  {
    s.leaves[j].spilling == |JobsAt(s, j)| + |s.leaves[j].queue| + |PoppersAt(s, j)| + |PinsAt(s, j)|
  }

  ghost predicate Refs(s: State) {
    forall j :: IsLeaf(s, j) ==> RefsOk(s, j)
  }

  // ----- split and join flags -----

  ghost predicate FlagsOk(s: State, j: int)
    requires IsLeaf(s, j)
  {
    var l := s.leaves[j];
    && -1 <= l.joining <= 1
    && (l.splitting ==> l.joining == 0)
    && (l.token.Compacting? ==> !l.splitting && l.joining == 0)
    && (l.token.SplitRunning? || l.token.SplitInstalled? ==> l.splitting && l.spilling == 0)
    && (l.token.JoinLeft? <==> l.joining == -1)
    && (l.joining == -1 ==> IsLeaf(s, j + 1) && s.leaves[j + 1].joining == 1 && !s.leaves[j + 1].token.JoinInstalled?)
    && (l.joining == 1 ==> l.token.Free? || l.token.JoinRunning? || l.token.JoinInstalled?)
    && (l.joining == 1 && !l.token.JoinInstalled? ==> IsLeaf(s, j - 1) && s.leaves[j - 1].joining == -1)
    && (l.token.JoinRunning? ==> l.joining == 1 && l.spilling == 0 && IsLeaf(s, j - 1) && s.leaves[j - 1].spilling == 0)
    && (l.token.JoinInstalled? ==> l.joining == 1)
  }

  ghost predicate Flags(s: State) {
    forall j :: IsLeaf(s, j) ==> FlagsOk(s, j)
  }

  // ----- counters -----

  function Pending(ls: seq<Leaf>): nat {
    if ls == [] then 0
    else (if ls[0].splitting || ls[0].joining == 1 then 1 else 0) + Pending(ls[1..])
  }

  function Running(ls: seq<Leaf>): nat {
    if ls == [] then 0
    else (if ls[0].token.SplitRunning? then 1 else 0) + Running(ls[1..])
  }

  ghost predicate Counters(s: State) {
    && s.splitCnt == Pending(s.leaves)
    && s.splitCnt <= SPLIT_CNT_MAX
    && |s.leaves| <= s.fanout
    && s.fanout + Running(s.leaves) <= CN_FANOUT_MAX
  }

  ghost predicate Inv(s: State) {
    Order(s) && Refs(s) && Flags(s) && Counters(s)
  }
}
