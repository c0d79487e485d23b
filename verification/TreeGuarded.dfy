/**
 Runs in which a spill retires only when every leaf has it.

 There no ingest that has left the root is missing from the leaf of any of its keys, and
 every key reads as the list of all ingests.
 */
module TreeGuarded {
  import opened Options
  import opened Kvsets
  import opened SpillProtocol
  import opened SpillInvariant
  import opened SpillTheorems
  import opened TreeContents
  import opened TreeInvariant
  import opened TreeLookup
  import opened TreeFrames
  import opened TreeRootSteps
  import opened TreeApplySteps
  import opened TreeReshape
  import opened TreeShapeSteps
  import opened TreeTheorems

  /** The logs and the root are no longer than what was claimed and ingested. */
  ghost predicate Counted(t: Tree) {
    && Sizes(t) && Gone(t) >= 0
    && (forall j :: IsLeaf(t.ctl, j) ==> |t.nodes[j].applied| <= t.ctl.sgen)
  }

  lemma DataIsCounted(t: Tree)
    requires TData(t)
    ensures Counted(t)
  {
    forall j | IsLeaf(t.ctl, j) ensures |t.nodes[j].applied| <= t.ctl.sgen { assert NodeOk(t, j); }
  }

  /** No ingest that has left the root and is not in the leaf has a key of the leaf. */
  ghost predicate LeafHasAll(t: Tree, j: int)
    requires Counted(t) && IsLeaf(t.ctl, j)
  {
    forall i, k: Key :: t.ends[|t.nodes[j].applied|] <= i < Gone(t) && k in t.hist[i] ==>
      !(Lo(t.nodes, j) < k <= t.nodes[j].edge)
  }

  ghost predicate NothingMissing(t: Tree) {
    Counted(t) && forall j :: IsLeaf(t.ctl, j) ==> LeafHasAll(t, j)
  }

  /** Everything LeafHasAll speaks of is at least as good at leaf j' as it was at leaf j. */
  lemma HasAllFrame(t: Tree, t': Tree, j: int, j': int)
    requires Counted(t) && Counted(t') && Grows(t, t') && IsLeaf(t.ctl, j) && IsLeaf(t'.ctl, j')
    requires |t.nodes[j].applied| <= |t'.nodes[j'].applied| && Gone(t') == Gone(t)
    requires Lo(t.nodes, j) <= Lo(t'.nodes, j') && t'.nodes[j'].edge <= t.nodes[j].edge
    requires LeafHasAll(t, j)
    ensures LeafHasAll(t', j')
  {
    var a, a' := |t.nodes[j].applied|, |t'.nodes[j'].applied|;
    assert a < a' ==> t'.ends[a] < t'.ends[a'];
  }

  lemma ShapeKeepsAll(t: Tree, t': Tree)
    requires NothingMissing(t) && Counted(t') && Grows(t, t') && SameShape(t.nodes, t'.nodes) && Gone(t') == Gone(t)
    ensures NothingMissing(t')
  {
    forall j | IsLeaf(t'.ctl, j) ensures LeafHasAll(t', j) {
      assert IsLeaf(t.ctl, j);
      HasAllFrame(t, t', j, j);
    }
  }

  // ----- the steps that do not change what is where -----

  predicate Reshapes(ts: TStep) {
    || ts.InstallSplit?
    || (ts.Ctl? && (ts.st.Apply? || ts.st.Retire? || ts.st.JoinInstall? || ts.st.TrimRight?))
  }

  ghost predicate SamePlaces(t: Tree, t': Tree) {
    t.hist <= t'.hist && t.ends <= t'.ends && SameShape(t.nodes, t'.nodes) && Gone(t') == Gone(t)
  }

  lemma PlainCtlStep(t: Tree, st: Step)
    requires TEnabled(t, Ctl(st)) && !Reshapes(Ctl(st))
    ensures SamePlaces(t, TNext(t, Ctl(st)))
  {
    if !st.Enter? && !st.Check? && !st.CompactEnd? { assert DataEffect(t, st) == t; }
  }

  lemma PlainStep(t: Tree, ts: TStep)
    requires TEnabled(t, ts) && !Reshapes(ts)
    ensures SamePlaces(t, TNext(t, ts))
  {
    if ts.Ctl? { PlainCtlStep(t, ts.st); }
  }

  // ----- adding a subspill -----

  /** An ingest of spill m is one of its inputs. */
  lemma InputKey(t: Tree, m: nat, i: nat, k: Key, lo: real, hi: real)
    requires Sizes(t) && Edges(t.nodes) && m in t.ctl.jobs && JobDataOk(t, m)
    requires t.ends[m - 1] <= i < t.ends[m] && i < |t.hist| && k in t.hist[i]
    requires KeysIn(t.jobs[m].inputs, lo, hi)
    ensures lo < k <= hi
  {
    InputDgens(t, m);
    var x := t.ends[m] - 1 - i;
    PastLength(t.hist, t.ends[m]);
    assert Upto(t, m)[x] == t.jobs[m].inputs[x];
  }

  /** The keys of one leaf are not those of another. */
  lemma Apart(nodes: seq<Node>, i: int, j: int, k: Key)
    requires Edges(nodes) && 0 <= i < |nodes| && 0 <= j < |nodes| && i != j && Lo(nodes, i) < k <= nodes[i].edge
    ensures !(Lo(nodes, j) < k <= nodes[j].edge)
  {
    assert i < j ==> nodes[i].edge <= Lo(nodes, j);
    assert j < i ==> nodes[j].edge <= Lo(nodes, i);
  }

  /** What a zspill moves into its leaf has no key of another leaf. */
  lemma MoveKeepsAll(t: Tree, t': Tree, m: nat, pos: int, j: int)
    requires Counted(t) && Counted(t') && Edges(t.nodes) && Grows(t, t') && t'.hist == t.hist && t'.ends == t.ends
    requires m in t.ctl.jobs && JobDataOk(t, m) && IsLeaf(t.ctl, pos) && IsLeaf(t.ctl, j) && pos != j
    requires KeysIn(t.jobs[m].inputs, Lo(t.nodes, pos), t.nodes[pos].edge)
    requires |t'.nodes| == |t.nodes| && t'.nodes[j] == t.nodes[j] && Lo(t'.nodes, j) == Lo(t.nodes, j)
    requires t.ends[m - 1] <= Gone(t) && Gone(t') == t.ends[m] && LeafHasAll(t, j)
    ensures LeafHasAll(t', j)
  {
    forall i, k: Key | t'.ends[|t'.nodes[j].applied|] <= i < Gone(t') && k in t'.hist[i]
      ensures !(Lo(t'.nodes, j) < k <= t'.nodes[j].edge) {
      if Gone(t) <= i {
        InputKey(t, m, i, k, Lo(t.nodes, pos), t.nodes[pos].edge);
        Apart(t.nodes, pos, j, k);
      }
    }
  }

  lemma AddKeepsAll(t: Tree, t': Tree, n: nat, m: nat, pos: int, ss: Subspill, ks: seq<Kvset>, j: int)
    requires Counted(t) && Counted(t') && Edges(t.nodes) && Adds(t, t', n, m, pos, ks) && SubFits(t, m, pos, ss)
    requires IsLeaf(t.ctl, j) && LeafHasAll(t, j) && LeavingOk(t, m) && JobDataOk(t, m)
    requires Gone(t') == if ss.ZMove? && Gone(t) < t.ends[m] then t.ends[m] else Gone(t)
    ensures LeafHasAll(t', j)
  {
    AddSizes(t, t', n, m, pos, ks);
    if Gone(t') == Gone(t) {
      HasAllFrame(t, t', j, j);
    } else if j != pos {
      MoveKeepsAll(t, t', m, pos, j);
    }
  }

  lemma ApplyKeepsAll(t: Tree, n: nat)
    requires TData(t) && NothingMissing(t) && TEnabled(t, Ctl(Apply(n))) && NextUp(t, n)
    requires Counted(TNext(t, Ctl(Apply(n))))
    ensures NothingMissing(TNext(t, Ctl(Apply(n))))
  {
    var t', pos, m := TNext(t, Ctl(Apply(n))), t.ctl.jobs[n].pos, t.ctl.jobs[n].phase.m;
    var ss := t.nodes[pos].subs[m];
    var ks := WithSubspill(ss, t.jobs[m].inputs, t.nodes[pos].kvsets);
    AddedFits(t, n);
    ApplyEffect(t, n);
    assert LeavingOk(t, m) && JobDataOk(t, m);
    AddRoot(t, t', n, m, pos, ss, ks);
    forall j | IsLeaf(t'.ctl, j) ensures LeafHasAll(t', j) {
      assert IsLeaf(t.ctl, j);
      AddKeepsAll(t, t', n, m, pos, ss, ks, j);
    }
  }

  // ----- retirement -----

  /** A leaf whose log covers everything that has left the root misses nothing. */
  lemma CoveredHasAll(t': Tree, n: nat, j: int)
    requires Counted(t') && IsLeaf(t'.ctl, j) && n <= |t'.nodes[j].applied| && Gone(t') <= t'.ends[n]
    ensures LeafHasAll(t', j)
  {
    var a := |t'.nodes[j].applied|;
    assert n < a ==> t'.ends[n] < t'.ends[a];
  }

  /** What leaves the root when spill n retires is in every leaf. */
  lemma RetireKeepsAll(t: Tree, n: nat)
    requires TData(t) && NothingMissing(t) && TEnabled(t, Ctl(Retire(n))) && Guarded(t, Ctl(Retire(n)))
    requires Counted(TNext(t, Ctl(Retire(n))))
    ensures NothingMissing(TNext(t, Ctl(Retire(n))))
  {
    var t' := TNext(t, Ctl(Retire(n)));
    RetireEffect(t, n);
    RetireSizes(t, t', n);
    assert JobDataOk(t, n) && LeavingOk(t, n);
    RetireRoot(t, t', n);
    if Gone(t') == Gone(t) {
      ShapeKeepsAll(t, t');
    } else {
      forall j | IsLeaf(t'.ctl, j) ensures LeafHasAll(t', j) {
        assert IsLeaf(t.ctl, j) && LogOk(t, j);
        CoveredHasAll(t', n, j);
      }
    }
  }

  // ----- split, join and trim -----

  lemma SplitKeepsAll(t: Tree, t': Tree, j: int, key: Key)
    requires NothingMissing(t) && Counted(t') && Grows(t, t') && Splits(t, t', j, key) && SplitView(t, t', j)
    ensures NothingMissing(t')
  {
    forall i | IsLeaf(t'.ctl, i) ensures LeafHasAll(t', i) {
      var o := if i <= j then i else i - 1;
      assert IsLeaf(t.ctl, o);
      if i > j + 1 { assert t'.nodes[o + 1] == t.nodes[o]; }
      HasAllFrame(t, t', o, i);
    }
  }

  lemma JoinedHasAll(t: Tree, t': Tree, j: int)
    requires NothingMissing(t) && Counted(t') && Grows(t, t') && JoinView(t, t', j) && Gone(t') == Gone(t)
    requires |t.nodes[j - 1].applied| == |t.nodes[j].applied| == |t'.nodes[j - 1].applied|
    ensures LeafHasAll(t', j - 1)
  {
    assert LeafHasAll(t, j) && LeafHasAll(t, j - 1);
    assert Lo(t.nodes, j) == t.nodes[j - 1].edge;
  }

  lemma JoinKeepsAll(t: Tree, t': Tree, j: int)
    requires NothingMissing(t) && Counted(t') && Grows(t, t') && JoinView(t, t', j) && Gone(t') == Gone(t)
    requires |t.nodes[j - 1].applied| == |t.nodes[j].applied| == |t'.nodes[j - 1].applied|
    ensures NothingMissing(t')
  {
    forall i | IsLeaf(t'.ctl, i) ensures LeafHasAll(t', i) {
      if i == j - 1 {
        JoinedHasAll(t, t', j);
      } else {
        var o := if i < j - 1 then i else i + 1;
        assert IsLeaf(t.ctl, o);
        if i >= j { assert t'.nodes[o - 1] == t.nodes[o]; }
        HasAllFrame(t, t', o, i);
      }
    }
  }

  lemma SplitStepKeepsAll(t: Tree, j: nat, key: Key)
    requires Sizes(t) && RootOk(t) && NothingMissing(t) && TEnabled(t, InstallSplit(j, key))
    requires Counted(TNext(t, InstallSplit(j, key)))
    ensures NothingMissing(TNext(t, InstallSplit(j, key)))
  {
    var t' := TNext(t, InstallSplit(j, key));
    if HasLeft(t.nodes[j], Lo(t.nodes, j), key) {
      SplitEffect(t, j, key);
      RestSizes(t, t');
      SplitViews(t, t', j, key);
      SplitKeepsAll(t, t', j, key);
    } else {
      ShapeKeepsAll(t, t');
    }
  }

  lemma JoinStepKeepsAll(t: Tree, t': Tree, j: int, node: Node)
    requires Sizes(t) && RootOk(t) && NothingMissing(t) && Counted(t') && Joins(t, t', j, node)
    requires Settled(t, j) && Settled(t, j - 1) && t.ctl.leaves[j - 1].sgen == t.ctl.leaves[j].sgen
    ensures NothingMissing(t')
  {
    RestSizes(t, t');
    JoinViews(t, t', j, node);
    JoinKeepsAll(t, t', j);
  }

  lemma LeafPairStepKeepsAll(t: Tree, st: Step)
    requires TInv(t) && NothingMissing(t) && TEnabled(t, Ctl(st)) && Counted(TNext(t, Ctl(st)))
    requires st.JoinInstall? || st.TrimRight?
    ensures NothingMissing(TNext(t, Ctl(st)))
  {
    var j: nat := if st.JoinInstall? then st.j else |t.nodes| - 1;
    SettledPair(t, st, j);
    if st.JoinInstall? {
      JoinEffect(t, j);
      var ks := MoveInto(t.nodes[j - 1].kvsets, t.nodes[j].kvsets);
      JoinStepKeepsAll(t, TNext(t, Ctl(st)), j, t.nodes[j].(kvsets := ks));
    } else {
      TrimEffect(t, j);
      JoinStepKeepsAll(t, TNext(t, Ctl(st)), j, t.nodes[j - 1].(edge := MAX_KEY));
    }
  }

  // ----- runs -----

  lemma StepKeepsAll(t: Tree, ts: TStep)
    requires TInv(t) && NothingMissing(t) && TEnabled(t, ts) && Guarded(t, ts) && Counted(TNext(t, ts))
    ensures NothingMissing(TNext(t, ts))
  {
    if !Reshapes(ts) {
      PlainStep(t, ts);
      ShapeKeepsAll(t, TNext(t, ts));
    } else if ts.InstallSplit? {
      SplitStepKeepsAll(t, ts.j, ts.key);
    } else if ts.st.Apply? {
      NextInLine(t, ts.st.n);
      ApplyKeepsAll(t, ts.st.n);
    } else if ts.st.Retire? {
      RetireKeepsAll(t, ts.st.n);
    } else {
      LeafPairStepKeepsAll(t, ts.st);
    }
  }

  /** A run in which every retirement is as Guarded demands. */
  ghost predicate GuardedRun(t: Tree, steps: seq<TStep>, t': Tree)
    decreases |steps|
  {
    if steps == [] then t' == t
    else TEnabled(t, steps[0]) && Guarded(t, steps[0]) && GuardedRun(TNext(t, steps[0]), steps[1..], t')
  }

  lemma {:induction false} GuardedRunKeepsAll(t: Tree, steps: seq<TStep>, t': Tree)
    requires TInv(t) && NothingMissing(t) && GuardedRun(t, steps, t')
    ensures TReaches(t, steps, t') && NothingMissing(t')
    decreases |steps|
  {
    if steps != [] {
      StepKeepsData(t, steps[0]);
      DataIsCounted(TNext(t, steps[0]));
      StepKeepsAll(t, steps[0]);
      StepKeepsCtl(t, steps[0]);
      GuardedRunKeepsAll(TNext(t, steps[0]), steps[1..], t');
    }
  }

  lemma NoneMissingIsNotMissed(t: Tree, k: Key)
    requires NothingMissing(t) && Edges(t.nodes)
    ensures t.nodes != [] && |Home(t, k).applied| < |t.ends| && NotMissed(t, k)
  {
    RouteIsHome(t, k);
    var j := Route(t.nodes, k);
    assert LeafHasAll(t, j);
    NotInSince(t.hist, t.ends[|t.nodes[j].applied|], Gone(t), k);
  }

  lemma {:induction false} NotInSince(hist: seq<Data>, a: nat, d: nat, k: Key)
    requires d <= |hist| && forall i :: a <= i < d ==> k !in hist[i]
    ensures Find(Since(hist, a, d), k) == None
  {
    if a < d { NotInSince(hist, a, d - 1, k); }
  }

  /** In every state of a guarded run, every key reads in the tree as in the list of all
      ingests, newest first. */
  lemma LookupMatchesIngests(t0: Tree, steps: seq<TStep>, t: Tree, k: Key)
    requires TInit(t0) && GuardedRun(t0, steps, t)
    ensures t.nodes != []
    ensures Live(Lookup(t, k)) == Live(Find(Past(Ingested(steps), |Ingested(steps)|), k))
  {
    InitTInv(t0);
    DataIsCounted(t0);
    GuardedRunKeepsAll(t0, steps, t);
    RunTInv(t0, steps, t);
    NoneMissingIsNotMissed(t, k);
    ReadIsExact(t0, steps, t, k);
  }

  /** A run in which no spill retires while a job is in the middle of a visit to a leaf. */
  ghost predicate AtomicVisits(t: Tree, steps: seq<TStep>, t': Tree)
    decreases |steps|
  {
    if steps == [] then t' == t
    else
      && TEnabled(t, steps[0])
      && (steps[0].Ctl? && steps[0].st.Retire? ==> forall i :: i in t.ctl.jobs ==> !MidVisit(t.ctl.jobs[i]))
      && AtomicVisits(TNext(t, steps[0]), steps[1..], t')
  }

  lemma AtomicIsGuarded(t: Tree, ts: TStep)
    requires Inv(t.ctl) && TEnabled(t, ts)
    requires ts.Ctl? && ts.st.Retire? ==> forall i :: i in t.ctl.jobs ==> !MidVisit(t.ctl.jobs[i])
    ensures Guarded(t, ts)
  {
    if ts.Ctl? && ts.st.Retire? { RetiringIsApplied(t.ctl, ts.st.n); }
  }

  lemma {:induction false} AtomicRunIsGuarded(t: Tree, steps: seq<TStep>, t': Tree)
    requires Inv(t.ctl) && AtomicVisits(t, steps, t')
    ensures GuardedRun(t, steps, t')
    decreases |steps|
  {
    if steps != [] {
      AtomicIsGuarded(t, steps[0]);
      StepKeepsCtl(t, steps[0]);
      AtomicRunIsGuarded(TNext(t, steps[0]), steps[1..], t');
    }
  }

  /** If visits to leaves are atomic, no further guard is needed. */
  lemma LookupWithAtomicVisits(t0: Tree, steps: seq<TStep>, t: Tree, k: Key)
    requires TInit(t0) && AtomicVisits(t0, steps, t)
    ensures t.nodes != []
    ensures Live(Lookup(t, k)) == Live(Find(Past(Ingested(steps), |Ingested(steps)|), k))
  {
    InitTInv(t0);
    AtomicRunIsGuarded(t0, steps, t);
    LookupMatchesIngests(t0, steps, t, k);
  }
}
