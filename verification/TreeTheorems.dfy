/** What holds of the data of the tree over whole runs. */
module TreeTheorems {
  import opened Options
  import opened Kvsets
  import opened SpillProtocol
  import opened SpillInvariant
  import opened SpillFlagsProof
  import opened SpillTheorems
  import opened TreeContents
  import opened TreeInvariant
  import opened TreeLookup
  import opened TreeFrames
  import opened TreeRootSteps
  import opened TreeLeafSteps
  import opened TreeApplySteps
  import opened TreeReshape
  import opened TreeShapeSteps

  /** An empty tree with any leaves. */
  ghost predicate TInit(t: Tree) {
    && Init(t.ctl) && t.root == [] && t.work == [] && t.jobs == map[] && t.hist == [] && t.ends == [0]
    && |t.nodes| == |t.ctl.leaves| && Edges(t.nodes)
    && (forall j :: 0 <= j < |t.nodes| ==> t.nodes[j] == Node(t.nodes[j].edge, [], map[], [], 0, 0))
  }

  /** t' is reached from t by the given steps, each enabled in its turn. */
  ghost predicate TReaches(t: Tree, steps: seq<TStep>, t': Tree)
    decreases |steps|
  {
    if steps == [] then t' == t
    else TEnabled(t, steps[0]) && TReaches(TNext(t, steps[0]), steps[1..], t')
  }

  /** The kvsets ingested in a run, oldest first. */
  function Ingested(steps: seq<TStep>): seq<Data> {
    if steps == [] then []
    else (if steps[0].Ingest? then [steps[0].d] else []) + Ingested(steps[1..])
  }

  lemma InitTInv(t: Tree)
    requires TInit(t)
    ensures TInv(t)
  {
    InitInv(t.ctl);
    assert t.ctl.jobs == map[];
    assert Past(t.hist, 0) == [] && Upto(t, 0) == [];
    forall j | IsLeaf(t.ctl, j) ensures LogOk(t, j) && NodeOk(t, j) {
      assert t.nodes[j].kvsets == [] && t.nodes[j].applied == [];
    }
  }

  // ----- every step keeps the invariant -----

  /** Steps that leave the data alone. */
  predicate DataFree(st: Step) {
    || st.Enqueue? || st.Pop? || st.Finish? || st.SplitCommit? || st.SplitCancel? || st.SplitStart? || st.SplitCleanup?
    || st.JoinCommit? || st.JoinCancel? || st.JoinStart? || st.JoinCleanup? || st.Reap?
  }

  lemma DataFreeFrame(s: State, st: Step)
    requires Enabled(s, st) && DataFree(st)
    ensures SameForData(s, Next(s, st)) && SameBumping(s, Next(s, st))
  {
    var s' := Next(s, st);
    if st.Enqueue? || st.Pop? || st.Finish? { JobFrame(s, st); } else { FlagFrame(s, st); }
  }

  lemma JobFrame(s: State, st: Step)
    requires Enabled(s, st) && (st.Enqueue? || st.Pop? || st.Finish?)
    ensures SameForData(s, Next(s, st)) && SameBumping(s, Next(s, st))
  {
    var s' := Next(s, st);
    forall n, j ensures BumpsAt(s', n, j) == BumpsAt(s, n, j) {}
  }

  lemma FlagFrame(s: State, st: Step)
    requires Enabled(s, st) && DataFree(st) && !st.Enqueue? && !st.Pop? && !st.Finish?
    ensures SameForData(s, Next(s, st)) && SameBumping(s, Next(s, st))
  {
    var s' := Next(s, st);
    assert s'.jobs == s.jobs;
    forall n, j ensures BumpsAt(s', n, j) == BumpsAt(s, n, j) {}
  }

  lemma JobStepKeepsData(t: Tree, st: Step)
    requires TInv(t) && TEnabled(t, Ctl(st)) && SpillStep(st) && !DataFree(st)
    ensures TData(TNext(t, Ctl(st)))
  {
    match st
    case Begin(n, z) => BeginStep(t, n, z);
    case Enter(n) => EnterStep(t, n);
    case Check(n) => CheckKeepsData(t, n);
    case Apply(n) => ApplyStep(t, n);
    case Bump(n) => BumpStep(t, n);
    case Retire(n) => RetireKeepsData(t, n);
  }

  lemma BeginReady(t: Tree, n: nat, z: int)
    requires Order(t.ctl) && Sizes(t) && Enabled(t.ctl, Begin(n, z)) && (z != -1 ==> LogOk(t, z))
    ensures JobOk(t.ctl, n) && (z != -1 ==> |t.nodes[z].applied| < n)
  {
    if z != -1 { UndeliveredAbove(t, n, z); }
  }

  lemma BeginStep(t: Tree, n: nat, z: int)
    requires TInv(t) && TEnabled(t, Ctl(Begin(n, z)))
    ensures TData(TNext(t, Ctl(Begin(n, z))))
  {
    BeginReady(t, n, z);
    BeginKeepsData(t, n, z);
  }

  lemma EnterReady(t: Tree, n: nat)
    requires Order(t.ctl) && Sizes(t) && Enabled(t.ctl, Enter(n)) && LogOk(t, t.ctl.jobs[n].pos + 1)
    ensures |t.nodes[t.ctl.jobs[n].pos + 1].applied| < n
  {
    assert !Delivered(t.ctl, n, t.ctl.jobs[n].pos + 1);
    UndeliveredAbove(t, n, t.ctl.jobs[n].pos + 1);
  }

  lemma EnterStep(t: Tree, n: nat)
    requires TInv(t) && TEnabled(t, Ctl(Enter(n)))
    ensures TData(TNext(t, Ctl(Enter(n))))
  {
    EnterReady(t, n);
    EnterKeepsData(t, n);
  }

  lemma ApplyStep(t: Tree, n: nat)
    requires TInv(t) && TEnabled(t, Ctl(Apply(n)))
    ensures TData(TNext(t, Ctl(Apply(n))))
  {
    NextInLine(t, n);
    ApplyKeepsData(t, n);
  }

  lemma BumpStep(t: Tree, n: nat)
    requires TInv(t) && TEnabled(t, Ctl(Bump(n)))
    ensures TData(TNext(t, Ctl(Bump(n))))
  {
    forall i | i in t.ctl.jobs ensures OneCarrier(t.ctl, i, n) {}
    BumpKeepsData(t, n);
  }

  lemma ShapeStepKeepsData(t: Tree, st: Step)
    requires TInv(t) && TEnabled(t, Ctl(st)) && (st.CompactEnd? || st.JoinInstall? || st.TrimRight?)
    ensures TData(TNext(t, Ctl(st)))
  {
    if st.CompactEnd? {
      var c := CompactEndKeepsData(t, st.j);
    } else {
      var j := if st.JoinInstall? then st.j else |t.nodes| - 1;
      SettledPair(t, st, j);
      if st.JoinInstall? { JoinKeepsData(t, j); } else { TrimKeepsData(t, j); }
    }
  }

  /** The leaves of a running join, and the two rightmost leaves when one is trimmed, have
      received the same spills and no spill is on its way to them. */
  lemma SettledPair(t: Tree, st: Step, j: int)
    requires TInv(t) && Enabled(t.ctl, st)
    requires (st.JoinInstall? && j == st.j) || (st.TrimRight? && j == |t.nodes| - 1)
    ensures 0 < j < |t.nodes| && Settled(t, j) && Settled(t, j - 1) && t.ctl.leaves[j - 1].sgen == t.ctl.leaves[j].sgen
  {
    var s := t.ctl;
    assert IsLeaf(s, j) && IsLeaf(s, j - 1) && FlagsOk(s, j);
    UnreferencedIsSettled(t, j);
    UnreferencedIsSettled(t, j - 1);
    QuietLeavesAgree(s, j - 1);
  }

  lemma SplitStep(t: Tree, j: nat, key: Key)
    requires TInv(t) && TEnabled(t, InstallSplit(j, key))
    ensures TData(TNext(t, InstallSplit(j, key)))
  {
    assert FlagsOk(t.ctl, j);
    UnreferencedIsSettled(t, j);
    SplitKeepsData(t, j, key);
  }

  lemma CtlStepKeepsData(t: Tree, st: Step)
    requires TInv(t) && TEnabled(t, Ctl(st))
    ensures TData(TNext(t, Ctl(st)))
  {
    if DataFree(st) {
      DataFreeFrame(t.ctl, st);
      FrameKeepsAll(t, Next(t.ctl, st));
    } else if SpillStep(st) {
      JobStepKeepsData(t, st);
    } else {
      ShapeStepKeepsData(t, st);
    }
  }

  lemma StepKeepsData(t: Tree, ts: TStep)
    requires TInv(t) && TEnabled(t, ts)
    ensures TData(TNext(t, ts))
  {
    match ts
    case Ingest(d) => IngestKeepsData(t, d);
    case ClaimRun(c, z) => ClaimKeepsData(t, c, z);
    case StartCompact(j, older, count) => StartCompactKeepsData(t, j, older, count);
    case InstallSplit(j, key) => SplitStep(t, j, key);
    case Ctl(st) => CtlStepKeepsData(t, st);
  }

  /** The protocol's part of a step. */
  lemma StepKeepsCtl(t: Tree, ts: TStep)
    requires Inv(t.ctl) && TEnabled(t, ts)
    ensures Inv(TNext(t, ts).ctl)
  {
    match ts
    case Ingest(d) =>
    case ClaimRun(c, z) => StepKeepsInv(t.ctl, Claim(z));
    case StartCompact(j, older, count) => StepKeepsInv(t.ctl, CompactStart(j));
    case InstallSplit(j, key) => StepKeepsInv(t.ctl, SplitInstall(j, HasLeft(t.nodes[j], Lo(t.nodes, j), key)));
    case Ctl(st) => StepKeepsInv(t.ctl, st);
  }

  lemma {:induction false} RunKeepsTInv(t: Tree, steps: seq<TStep>, t': Tree)
    requires TInv(t) && TReaches(t, steps, t')
    ensures TInv(t')
    decreases |steps|
  {
    if steps != [] {
      StepKeepsCtl(t, steps[0]);
      StepKeepsData(t, steps[0]);
      RunKeepsTInv(TNext(t, steps[0]), steps[1..], t');
    }
  }

  lemma StepHistory(t: Tree, ts: TStep)
    requires TEnabled(t, ts)
    ensures TNext(t, ts).hist == t.hist + (if ts.Ingest? then [ts.d] else [])
  {
  }

  lemma IngestedStep(h: seq<Data>, h1: seq<Data>, h': seq<Data>, steps: seq<TStep>)
    requires steps != [] && h1 == h + (if steps[0].Ingest? then [steps[0].d] else []) && h' == h1 + Ingested(steps[1..])
    ensures h' == h + Ingested(steps)
  {
  }

  lemma {:induction false} RunHistory(t: Tree, steps: seq<TStep>, t': Tree)
    requires TReaches(t, steps, t')
    ensures t'.hist == t.hist + Ingested(steps)
    decreases |steps|
  {
    if steps != [] {
      var t1 := TNext(t, steps[0]);
      StepHistory(t, steps[0]);
      RunHistory(t1, steps[1..], t');
      IngestedStep(t.hist, t1.hist, t'.hist, steps);
    }
  }

  // ----- the theorems -----

  lemma RunTInv(t0: Tree, steps: seq<TStep>, t: Tree)
    requires TInit(t0) && TReaches(t0, steps, t)
    ensures TInv(t) && t.hist == Ingested(steps)
  {
    InitTInv(t0);
    RunKeepsTInv(t0, steps, t);
    RunHistory(t0, steps, t);
  }

  /** In every state of every run of ingests, spills, zspills, retirements, compactions,
      splits, joins and trims, a key reads in the tree as in the list of all ingests, newest
      first, exactly if it is not missed. */
  lemma ReadIsExact(t0: Tree, steps: seq<TStep>, t: Tree, k: Key)
    requires TInit(t0) && TReaches(t0, steps, t)
    ensures t.nodes != [] && |Home(t, k).applied| < |t.ends| && Gone(t) >= 0
    ensures Live(Lookup(t, k)) == Live(Find(Past(Ingested(steps), |Ingested(steps)|), k)) <==> NotMissed(t, k)
  {
    RunTInv(t0, steps, t);
    ReadsIffNotMissed(t, k);
  }

  /** Every leaf has received spills 1, 2, 3, ..., in this order, each once, and reads its
      keys as the ingests of these spills. */
  lemma LeafLogs(t0: Tree, steps: seq<TStep>, t: Tree, j: int)
    requires TInit(t0) && TReaches(t0, steps, t) && 0 <= j < |t.nodes|
    ensures |t.nodes| == |t.ctl.leaves|
    ensures forall i :: 0 <= i < |t.nodes[j].applied| ==> t.nodes[j].applied[i] == i + 1
    ensures t.ctl.leaves[j].sgen <= |t.nodes[j].applied| <= t.ctl.leaves[j].sgen + 1
    ensures |t.nodes[j].applied| < |t.ends| && t.ends[|t.nodes[j].applied|] <= |t.hist|
    ensures forall k: Key :: Lo(t.nodes, j) < k <= t.nodes[j].edge ==>
      Live(Find(t.nodes[j].kvsets, k)) == Live(Find(Past(t.hist, t.ends[|t.nodes[j].applied|]), k))
  {
    RunTInv(t0, steps, t);
    assert IsLeaf(t.ctl, j) && LogOk(t, j) && NodeOk(t, j);
    EndsInHistory(t, |t.nodes[j].applied|);
  }

  /** The claimed root kvsets are the oldest ones, and those of an earlier spill are older. */
  lemma ClaimedIsSuffix(t0: Tree, steps: seq<TStep>, t: Tree, i: int, i': int)
    requires TInit(t0) && TReaches(t0, steps, t) && 0 <= i < i' < |t.root|
    ensures |t.work| == |t.root|
    ensures t.work[i] != 0 ==> 0 < t.work[i'] <= t.work[i]
  {
    RunTInv(t0, steps, t);
    ClaimsInOrder(t, i, i');
  }

  lemma ClaimsInOrder(t: Tree, i: int, i': int)
    requires Sizes(t) && RootOk(t) && 0 <= i < i' < |t.root|
    ensures t.work[i] != 0 ==> 0 < t.work[i'] <= t.work[i]
  {
    assert WorkOk(t, i) && WorkOk(t, i');
    forall a, b | 0 <= a <= b < |t.ends| ensures t.ends[a] <= t.ends[b] {}
  }

  /** A spill claimed as a zspill has no spill before it that is still to retire, except
      zspills that have moved their kvsets to their leaf. */
  lemma EarlierThanZspill(t0: Tree, steps: seq<TStep>, t: Tree, m: nat, n: nat)
    requires TInit(t0) && TReaches(t0, steps, t) && n in t.ctl.jobs && t.ctl.jobs[n].zwanted && t.ctl.rsgen < m < n
    ensures Moved(t, m)
  {
    RunTInv(t0, steps, t);
    assert m in t.ctl.jobs && LeavingOk(t, n) && LeavingOk(t, m);
    assert t.ends[m - 1] < t.ends[n - 1];
  }

  /** A spill that retires without having moved finds its own kvsets at the old end of the
      root exactly if no kvset in the root is claimed by an earlier spill. */
  lemma RetiresOldest(t0: Tree, steps: seq<TStep>, t: Tree, n: nat)
    requires TInit(t0) && TReaches(t0, steps, t) && Enabled(t.ctl, Retire(n)) && t.ctl.jobs[n].pin == -1
    ensures n in t.jobs && 0 < |t.jobs[n].inputs| <= |t.root| == |t.work|
    ensures t.root[|t.root| - |t.jobs[n].inputs|..] == t.jobs[n].inputs <==>
      forall i :: 0 <= i < |t.work| ==> t.work[i] == 0 || t.work[i] >= n
  {
    RunTInv(t0, steps, t);
    assert JobDataOk(t, n) && LeavingOk(t, n);
    OwnTail(t, n);
  }

  /** The data a protocol step needs is always there: the data never holds up a run. */
  lemma DataIsThere(t0: Tree, steps: seq<TStep>, t: Tree, st: Step)
    requires TInit(t0) && TReaches(t0, steps, t) && Enabled(t.ctl, st)
    ensures HasData(t, st)
  {
    RunTInv(t0, steps, t);
    StepHasData(t, st);
  }

  lemma ApplyHasData(t: Tree, n: nat)
    requires TInv(t) && Enabled(t.ctl, Apply(n))
    ensures HasData(t, Apply(n))
  {
    NextInLine(t, n);
    AddedFits(t, n);
  }

  lemma RetireHasData(t: Tree, n: nat)
    requires TData(t) && Enabled(t.ctl, Retire(n)) && JobDataOk(t, n) && LeavingOk(t, n)
    ensures HasData(t, Retire(n))
  {
    if t.ctl.jobs[n].pin == -1 { OwnTail(t, n); }
  }

  lemma StepHasData(t: Tree, st: Step)
    requires TInv(t) && Enabled(t.ctl, st)
    ensures HasData(t, st)
  {
    if st.Apply? {
      ApplyHasData(t, st.n);
    } else if st.Retire? {
      assert JobDataOk(t, st.n) && LeavingOk(t, st.n);
      RetireHasData(t, st.n);
    } else if st.CompactEnd? {
      assert NodeOk(t, st.j);
    }
  }
}
