/** What the data of the tree looks like in every state of every run. */
module TreeInvariant {
  import opened Kvsets
  import opened SpillProtocol
  import opened SpillInvariant
  import opened TreeContents

  ghost predicate Sizes(t: Tree) {
    && |t.nodes| == |t.ctl.leaves| >= 1
    && (forall n :: n in t.ctl.jobs <==> 1 <= n <= t.ctl.sgen)
    && t.jobs.Keys == t.ctl.jobs.Keys
    && |t.ends| == t.ctl.sgen + 1
    && (forall i, j :: 0 <= i < j < |t.ends| ==> t.ends[i] < t.ends[j])
    && t.ends[t.ctl.sgen] <= |t.hist|
  }

  ghost predicate Edges(nodes: seq<Node>) {
    && |nodes| >= 1
    && (forall i, j :: 0 <= i < j < |nodes| ==> nodes[i].edge < nodes[j].edge)
    && nodes[|nodes| - 1].edge == MAX_KEY
  }

  /** The spills a leaf has received: its log is 1, 2, 3, ... up to its generation, or one
      further while some job is about to bump it. */
  ghost predicate LogOk(t: Tree, j: int)
    requires Sizes(t) && IsLeaf(t.ctl, j)
  {
    var log, g := t.nodes[j].applied, t.ctl.leaves[j].sgen;
    && (forall i :: 0 <= i < |log| ==> log[i] == i + 1)
    && (|log| == g || (|log| == g + 1 && exists n :: n in t.ctl.jobs && BumpsAt(t.ctl, n, j)))
    && (forall n :: n in t.ctl.jobs && BumpsAt(t.ctl, n, j) ==> |log| == g + 1)
  }

  ghost predicate BumpsAt(s: State, n: nat, j: int) {
    n in s.jobs && s.jobs[n].pos == j && s.jobs[n].phase.Bumping?
  }

  /** The first d ingests, as a list. */
  ghost function Upto(t: Tree, n: nat): seq<Kvset>
    requires Sizes(t) && n <= t.ctl.sgen
  {
    assert t.ends[n] <= t.ends[t.ctl.sgen];
    Past(t.hist, t.ends[n])
  }

  /** A leaf reads, for each of its keys, as the ingests of the spills it has received. */
  ghost predicate NodeOk(t: Tree, j: int)
    requires Sizes(t) && IsLeaf(t.ctl, j)
  {
    var node, lo := t.nodes[j], Lo(t.nodes, j);
    && |node.applied| <= t.ctl.sgen
    && KeysIn(node.kvsets, lo, node.edge)
    && DgenUpTo(node.kvsets, t.ends[|node.applied|])
    && (forall k: Key :: lo < k <= node.edge ==>
          Live(Find(node.kvsets, k)) == Live(Find(Upto(t, |node.applied|), k)))
    && (t.ctl.leaves[j].token.Compacting? ==> 1 <= node.count && node.older + node.count <= |node.kvsets|)
  }

  /** Number of leaves a job has built its subspill for. */
  function Built'(job: Job): int {
    if job.phase.Building? || job.phase.Done? then job.pos else job.pos + 1
  }

  /** The inputs of a spill are its ingests; it has read them up to the end of the last leaf
      it built for; a zspill's inputs lie in the leaf it pins. */
  ghost predicate JobDataOk(t: Tree, n: nat)
    requires Sizes(t) && Edges(t.nodes) && n in t.ctl.jobs
  {
    var job, jd := t.ctl.jobs[n], t.jobs[n];
    && 1 <= n <= t.ctl.sgen
    && Upto(t, n) == jd.inputs + Upto(t, n - 1)
    && 0 <= Built'(job) <= |t.nodes|
    && jd.cursor == Lo(t.nodes, Built'(job))
    && (job.phase.Building? ==> jd.nodeDgen <= t.ends[n - 1])
    && (job.pin != -1 ==>
          && job.zwanted && 0 <= job.pin < |t.nodes|
          && KeysIn(jd.inputs, Lo(t.nodes, job.pin), t.nodes[job.pin].edge))
  }

  /** What spill m has for leaf j. */
  ghost function SubFor(t: Tree, m: nat, j: int): Subspill
    requires Sizes(t) && m in t.ctl.jobs && IsLeaf(t.ctl, j)
  {
    var pin := t.ctl.jobs[m].pin;
    if pin == -1 then Built(Window(Merge(t.jobs[m].inputs), Lo(t.nodes, j), t.nodes[j].edge))
    else if pin == j then ZMove else Noop
  }

  /** The subspill holds what spill m has for the keys of leaf j.  Unlike the pin, this
      outlives the retirement of the spill. */
  ghost predicate SubFits(t: Tree, m: nat, j: int, ss: Subspill)
    requires Sizes(t) && m in t.ctl.jobs && IsLeaf(t.ctl, j)
  {
    var inputs, lo, hi := t.jobs[m].inputs, Lo(t.nodes, j), t.nodes[j].edge;
    match ss
    case Built(d) => d == Window(Merge(inputs), lo, hi)
    case ZMove => t.ctl.jobs[m].zwanted && KeysIn(inputs, lo, hi)
    case Noop => KeysOut(inputs, lo, hi)
  }

  /** A subspill built for a leaf and not yet applied there. */
  ghost predicate SubOk(t: Tree, m: nat, j: int)
    requires Sizes(t) && Edges(t.nodes) && m in t.ctl.jobs && IsLeaf(t.ctl, j)
  {
    var job, node := t.ctl.jobs[m], t.nodes[j];
    j < Built'(job) && |node.applied| < m ==>
      && m in node.subs && SubFits(t, m, j, node.subs[m])
      && (t.ctl.rsgen < m ==> node.subs[m] == SubFor(t, m, j))
  }

  /** The number of ingests that are no longer in the root. */
  function Gone(t: Tree): int {
    |t.hist| - |t.root|
  }

  /** The spill's kvsets are in its leaf rather than in the root. */
  predicate Moved(t: Tree, n: nat) {
    && n in t.ctl.jobs && 0 <= t.ctl.jobs[n].pin < |t.nodes|
    && n <= |t.nodes[t.ctl.jobs[n].pin].applied|
  }

  /** Until spill n retires or moves, it and all later spills have their kvsets in the root;
      when a zspill is claimed, all claimed kvsets have left the root, and when it has moved,
      its own have. */
  ghost predicate LeavingOk(t: Tree, n: nat)
    requires Sizes(t) && n in t.ctl.jobs
  {
    var job := t.ctl.jobs[n];
    && 1 <= n <= t.ctl.sgen && -1 <= job.pin < |t.nodes|
    && (job.zwanted ==> t.ends[n - 1] <= Gone(t))
    && (n <= t.ctl.rsgen ==> job.pin == -1)
    && (Moved(t, n) ==> t.ends[n] <= Gone(t))
    && (t.ctl.rsgen < n && !Moved(t, n) ==> Gone(t) <= t.ends[n - 1])
  }

  /** The root holds the newest ingests, newest first; each is marked by the spill that
      claimed it, and only claimed kvsets leave. */
  ghost predicate RootOk(t: Tree)
    requires Sizes(t)
  {
    && 0 <= Gone(t) <= t.ends[t.ctl.sgen]
    && |t.work| == |t.root|
    && Past(t.hist, |t.hist|) == t.root + Past(t.hist, Gone(t))
    && (forall i :: 0 <= i < |t.work| ==> WorkOk(t, i))
  }

  ghost predicate WorkOk(t: Tree, i: int)
    requires Sizes(t) && 0 <= i < |t.work|
  {
    var d, w := |t.hist| - i, t.work[i];
    && (w == 0 <==> d > t.ends[t.ctl.sgen])
    && (w != 0 ==> w <= t.ctl.sgen && t.ends[w - 1] < d <= t.ends[w])
  }

  ghost predicate TData(t: Tree) {
    && Sizes(t) && Edges(t.nodes) && RootOk(t)
    && (forall j :: IsLeaf(t.ctl, j) ==> LogOk(t, j))
    && (forall j :: IsLeaf(t.ctl, j) ==> NodeOk(t, j))
    && (forall n :: n in t.ctl.jobs ==> JobDataOk(t, n) && LeavingOk(t, n))
    && (forall m, j :: m in t.ctl.jobs && IsLeaf(t.ctl, j) ==> SubOk(t, m, j))
  }

  ghost predicate TInv(t: Tree) {
    Inv(t.ctl) && TData(t)
  }
}
