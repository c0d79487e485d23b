/**
 The data of a cN tree on top of the spill protocol: root and leaf kvsets, the subspills
 that jobs build, and the operations that install their results.
 */
module TreeContents {
  import opened Options
  import opened Kvsets
  import opened SpillProtocol

  /** A subspill: new data for the leaf, the move of a zspill, or nothing to add. */
  datatype Subspill = Built(data: Data) | ZMove | Noop

  /** subs holds the subspills built for this leaf, by generation.  applied is the log of
      subspills added to the leaf.  A running compaction has claimed count kvsets with
      older ones left below them. */
  datatype Node = Node(
    edge: Key, kvsets: seq<Kvset>, subs: map<nat, Subspill>, applied: seq<nat>, older: nat, count: nat)

  /** The claimed root kvsets, how far the merge has read, and the leaf's newest dgen. */
  datatype JobData = JobData(inputs: seq<Kvset>, cursor: real, nodeDgen: nat)

  /** work[i] is the spill that has claimed root[i], 0 if none.  hist is every ingested kvset,
      oldest first; spill n takes ingests ends[n-1]+1 to ends[n]. */
  datatype Tree = Tree(
    ctl: State, root: seq<Kvset>, work: seq<nat>, jobs: map<nat, JobData>, nodes: seq<Node>,
    hist: seq<Data>, ends: seq<nat>)

  datatype TStep =
    | Ingest(d: Data)
    | ClaimRun(c: nat, zwanted: bool)
    | StartCompact(j: nat, older: nat, count: nat)
    | InstallSplit(j: nat, key: Key)
    | Ctl(st: Step)

  // ----- lookup -----

  /** Lower bound of the keys of leaf j. */
  function Lo(nodes: seq<Node>, j: int): real
    requires 0 <= j <= |nodes|
  {
    if j == 0 then 0.0 else nodes[j - 1].edge
  }

  /** The leaf for a key: the first whose edge is not below it, or the last. */
  function Route(nodes: seq<Node>, k: Key): (j: nat)
    requires nodes != []
    ensures j < |nodes|
  {
    if |nodes| == 1 || k <= nodes[0].edge then 0 else 1 + Route(nodes[1..], k)
  }

  function Lookup(t: Tree, k: Key): Option<Entry>
    requires t.nodes != []
  {
    var r := Find(t.root, k);
    if r.Some? then r else Find(t.nodes[Route(t.nodes, k)].kvsets, k)
  }

  /** The first d ingests as a list of kvsets, newest first. */
  function Past(hist: seq<Data>, d: nat): seq<Kvset>
    requires d <= |hist|
  {
    if d == 0 then [] else [Kvset(d, d, hist[d - 1])] + Past(hist, d - 1)
  }

  /** The reference: newest-first lookup over everything ever ingested. */
  function HistoryLookup(t: Tree, k: Key): Option<Entry> {
    Find(Past(t.hist, |t.hist|), k)
  }

  // ----- guards -----

  /** Index of the oldest unclaimed root kvset, -1 if there is none. */
  function OldestFree(work: seq<nat>): (i: int)
    ensures -1 <= i < |work|
    ensures i >= 0 ==> work[i] == 0
    ensures forall x :: i < x < |work| ==> work[x] != 0
  {
    if work == [] then -1
    else if work[|work| - 1] == 0 then |work| - 1
    else OldestFree(work[..|work| - 1])
  }

  /** c contiguous unclaimed kvsets start at the mark; a zspill wants no older kvset left. */
  predicate CanClaim(t: Tree, c: nat, zwanted: bool) {
    var mark := OldestFree(t.work);
    && |t.work| == |t.root| && 1 <= c <= mark + 1
    && (forall i :: mark - c < i <= mark ==> t.work[i] == 0)
    && (zwanted ==> mark == |t.root| - 1)
  }

  /** The step has its data where the protocol step needs it. */
  predicate HasData(t: Tree, st: Step)
    requires Enabled(t.ctl, st)
  {
    && |t.nodes| == |t.ctl.leaves| && t.jobs.Keys == t.ctl.jobs.Keys && |t.work| == |t.root|
    && (st.Apply? ==>
          var node := t.nodes[t.ctl.jobs[st.n].pos];
          t.ctl.jobs[st.n].phase.m in node.subs && t.ctl.jobs[st.n].phase.m in t.jobs
          && t.jobs[t.ctl.jobs[st.n].phase.m].inputs != [])
    && (st.CompactEnd? ==>
          var node := t.nodes[st.j];
          1 <= node.count && node.older + node.count <= |node.kvsets|)
    && (st.Retire? && t.ctl.jobs[st.n].pin == -1 ==> |t.jobs[st.n].inputs| <= |t.root|)
  }

  /** What the source tests about the data before the step. */
  predicate DataGuard(t: Tree, st: Step)
    requires Enabled(t.ctl, st) && |t.nodes| == |t.ctl.leaves|
  {
    match st
    case Begin(n, z) =>
      z != -1 ==> n in t.jobs && forall i, k :: 0 <= i < |t.jobs[n].inputs| && k in t.jobs[n].inputs[i].data ==>
        Lo(t.nodes, z) < k <= t.nodes[z].edge
    case SplitCommit(j, start) => start ==> t.nodes[j].kvsets != []
    case SplitStart(j) => t.nodes[j].kvsets != []
    case JoinCommit(j) => t.nodes[j].kvsets != []
    case TrimRight => t.nodes[|t.nodes| - 1].kvsets == []
    case _ => true
  }

  /** Some kvset of the node has a key on the left side of the split. */
  predicate HasLeft(node: Node, lo: real, key: Key) {
    Cut(node.kvsets, lo, key) != []
  }

  predicate TEnabled(t: Tree, ts: TStep) {
    match ts
    case Ingest(d) => true
    case ClaimRun(c, z) => Enabled(t.ctl, Claim(z)) && CanClaim(t, c, z)
    case StartCompact(j, older, count) =>
      && Enabled(t.ctl, CompactStart(j)) && |t.nodes| == |t.ctl.leaves|
      && 1 <= count && older + count <= |t.nodes[j].kvsets|
    case InstallSplit(j, key) =>
      && |t.nodes| == |t.ctl.leaves| && j < |t.nodes|
      && Lo(t.nodes, j) < key < t.nodes[j].edge
      && Enabled(t.ctl, SplitInstall(j, HasLeft(t.nodes[j], Lo(t.nodes, j), key)))
    case Ctl(st) =>
      && !st.Claim? && !st.CompactStart? && !st.SplitInstall?
      && Enabled(t.ctl, st) && HasData(t, st) && DataGuard(t, st)
  }

  // ----- effects -----

  function DoIngest(t: Tree, d: Data): Tree {
    var g := |t.hist| + 1;
    t.(root := [Kvset(g, g, d)] + t.root, work := [0] + t.work, hist := t.hist + [d])
  }

  function DoClaim(t: Tree, c: nat, z: bool): Tree
    requires TEnabled(t, ClaimRun(c, z))
  {
    var mark := OldestFree(t.work);
    var n := t.ctl.sgen + 1;
    t.(ctl := Next(t.ctl, Claim(z)),
       work := seq(|t.work|, i requires 0 <= i < |t.work| => if mark - c < i <= mark then n else t.work[i]),
       jobs := t.jobs[n := JobData(t.root[mark - c + 1..mark + 1], 0.0, 0)],
       ends := t.ends + [t.root[mark - c + 1].dgen])
  }

  function SetNode(t: Tree, j: int, node: Node): Tree
    requires 0 <= j < |t.nodes|
  {
    t.(nodes := t.nodes[j := node])
  }

  /** Entering a leaf, the job notes the dgen of the leaf's newest kvset. */
  function DoEnterData(t: Tree, n: nat): Tree
    requires TEnabled(t, Ctl(Enter(n)))
  {
    var ks := t.nodes[t.ctl.jobs[n].pos + 1].kvsets;
    t.(jobs := t.jobs[n := t.jobs[n].(nodeDgen := if ks == [] then 0 else ks[0].dgen)])
  }

  /** The subspill a job builds for the leaf it visits: the newest-wins merge of its inputs
      up to the leaf's edge, from where the previous leaf ended. */
  function BuildSubspill(t: Tree, n: nat): Subspill
    requires TEnabled(t, Ctl(Check(n)))
  {
    var pos, jd := t.ctl.jobs[n].pos, t.jobs[n];
    if t.ctl.jobs[n].pin == -1 then
      Built(Window(Merge(NewerThan(jd.inputs, jd.nodeDgen)), jd.cursor, t.nodes[pos].edge))
    else if t.ctl.jobs[n].pin == pos then ZMove
    else Noop
  }

  function DoBuild(t: Tree, n: nat): Tree
    requires TEnabled(t, Ctl(Check(n)))
  {
    var pos := t.ctl.jobs[n].pos;
    var node := t.nodes[pos];
    SetNode(t, pos, node.(subs := node.subs[n := BuildSubspill(t, n)]))
      .(jobs := t.jobs[n := t.jobs[n].(cursor := node.edge)])
  }

  /** Root kvsets without those claimed by spill n. */
  function Unclaimed<T>(xs: seq<T>, work: seq<nat>, n: nat): seq<T>
    requires |xs| == |work|
  {
    if xs == [] then []
    else (if work[0] == n then [] else [xs[0]]) + Unclaimed(xs[1..], work[1..], n)
  }

  /** The kvsets of a leaf once a subspill is added: a new kvset at the head, unless it would
      be empty; a zspill's own kvsets; or no change. */
  function WithSubspill(ss: Subspill, inputs: seq<Kvset>, ks: seq<Kvset>): seq<Kvset>
    requires inputs != []
  {
    match ss
    case Noop => ks
    case Built(d) => if d == map[] then ks else [Kvset(inputs[0].dgen, MinLo(inputs), d)] + ks
    case ZMove => MoveInto(inputs, ks)
  }

  /** A zspill's kvsets leave the root in the same step. */
  function DoApplyData(t: Tree, n: nat): Tree
    requires TEnabled(t, Ctl(Apply(n)))
  {
    var pos, m := t.ctl.jobs[n].pos, t.ctl.jobs[n].phase.m;
    var node := t.nodes[pos];
    var ks := WithSubspill(node.subs[m], t.jobs[m].inputs, node.kvsets);
    var t1 := SetNode(t, pos, node.(applied := node.applied + [m], kvsets := ks));
    if node.subs[m].ZMove? then
      t1.(root := Unclaimed(t.root, t.work, m), work := Unclaimed(t.work, t.work, m))
    else t1
  }

  /** Retirement deletes the oldest kvsets of the root, unless a zspill moved them. */
  function DoRetireData(t: Tree, n: nat): Tree
    requires TEnabled(t, Ctl(Retire(n)))
  {
    if t.ctl.jobs[n].pin != -1 then t
    else
      var keep := |t.root| - |t.jobs[n].inputs|;
      t.(root := t.root[..keep], work := t.work[..keep])
  }

  function DoCompact(t: Tree, j: nat): Tree
    requires TEnabled(t, Ctl(CompactEnd(j)))
  {
    var node := t.nodes[j];
    var b := |node.kvsets| - node.older;
    var a := b - node.count;
    SetNode(t, j, node.(kvsets := node.kvsets[..a] + Compacted(node.kvsets[a..b], node.older == 0) + node.kvsets[b..]))
  }

  function DoSplitData(t: Tree, j: nat, key: Key): Tree
    requires TEnabled(t, InstallSplit(j, key))
  {
    var node, lo := t.nodes[j], Lo(t.nodes, j);
    var right := node.(kvsets := Cut(node.kvsets, key, node.edge));
    if HasLeft(node, lo, key) then
      var left := Node(key, Cut(node.kvsets, lo, key), map[], node.applied, 0, 0);
      t.(nodes := t.nodes[..j] + [left, right] + t.nodes[j + 1..])
    else SetNode(t, j, right)
  }

  function DoJoinData(t: Tree, j: nat): Tree
    requires TEnabled(t, Ctl(JoinInstall(j)))
  {
    var node := t.nodes[j].(kvsets := MoveInto(t.nodes[j - 1].kvsets, t.nodes[j].kvsets));
    t.(nodes := t.nodes[..j - 1] + [node] + t.nodes[j + 1..])
  }

  function DoTrimData(t: Tree): Tree
    requires TEnabled(t, Ctl(TrimRight))
  {
    var j := |t.nodes| - 1;
    t.(nodes := t.nodes[..j - 1] + [t.nodes[j - 1].(edge := MAX_KEY)])
  }

  function DataEffect(t: Tree, st: Step): Tree
    requires TEnabled(t, Ctl(st))
  {
    match st
    case Enter(n) => DoEnterData(t, n)
    case Check(n) => DoBuild(t, n)
    case Apply(n) => DoApplyData(t, n)
    case Retire(n) => DoRetireData(t, n)
    case CompactEnd(j) => DoCompact(t, j)
    case JoinInstall(j) => DoJoinData(t, j)
    case TrimRight => DoTrimData(t)
    case _ => t
  }

  function TNext(t: Tree, ts: TStep): Tree
    requires TEnabled(t, ts)
  {
    match ts
    case Ingest(d) => DoIngest(t, d)
    case ClaimRun(c, z) => DoClaim(t, c, z)
    case StartCompact(j, older, count) =>
      SetNode(t, j, t.nodes[j].(older := older, count := count)).(ctl := Next(t.ctl, CompactStart(j)))
    case InstallSplit(j, key) =>
      DoSplitData(t, j, key).(ctl := Next(t.ctl, SplitInstall(j, HasLeft(t.nodes[j], Lo(t.nodes, j), key))))
    case Ctl(st) => DataEffect(t, st).(ctl := Next(t.ctl, st))
  }

  /** The order the source relies on and does not enforce: a spill retires only when every
      leaf has it. */
  ghost predicate Guarded(t: Tree, ts: TStep) {
    ts.Ctl? && ts.st.Retire? ==> forall j :: IsLeaf(t.ctl, j) ==> ts.st.n <= t.ctl.leaves[j].sgen
  }
}
