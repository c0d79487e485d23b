/**
 Building runs of a tree with two leaves, step by step.

 Every spill of these runs takes one ingest.  Given the protocol's part of the state, the
 root and the ingests, everything that decides which steps are possible and what a reader
 finds follows from the invariant.
 */
module TreeRuns {
  import opened Options
  import opened Kvsets
  import opened SpillProtocol
  import opened SpillInvariant
  import opened SpillTheorems
  import opened TreeContents
  import opened TreeInvariant
  import opened TreeLookup
  import opened TreeFrames
  import opened TreeRootSteps
  import opened TreeApplySteps
  import opened TreeTheorems
  import opened RootClaims
  import opened SpillRuns

  const MID: Key := 0.5

  /** A run in which the claims are those of the root selector. */
  ghost predicate SourceRun(t: Tree, steps: seq<TStep>, t': Tree)
    decreases |steps|
  {
    if steps == [] then t' == t
    else TEnabled(t, steps[0]) && AsSelected(t, steps[0]) && SourceRun(TNext(t, steps[0]), steps[1..], t')
  }

  lemma {:induction false} SourceRunReaches(t: Tree, steps: seq<TStep>, t': Tree)
    requires SourceRun(t, steps, t')
    ensures TReaches(t, steps, t')
    decreases |steps|
  {
    if steps != [] { SourceRunReaches(TNext(t, steps[0]), steps[1..], t'); }
  }

  lemma {:induction false} RunThen(t0: Tree, steps: seq<TStep>, t: Tree, ts: TStep)
    requires SourceRun(t0, steps, t) && TEnabled(t, ts) && AsSelected(t, ts)
    ensures SourceRun(t0, steps + [ts], TNext(t, ts))
    decreases |steps|
  {
    var r := steps + [ts];
    if steps == [] {
      assert r == [ts] && r[1..] == [];
    } else {
      assert r[0] == steps[0] && r[1..] == steps[1..] + [ts];
      RunThen(TNext(t0, steps[0]), steps[1..], t, ts);
    }
  }

  /** Two leaves, up to MID and up to MAX_KEY. */
  predicate Halves(nodes: seq<Node>) {
    |nodes| == 2 && nodes[0].edge == MID && nodes[1].edge == MAX_KEY
  }

  predicate In(d: Data, j: int) {
    forall k :: k in d ==> if j == 0 then k <= MID else MID < k
  }

  function K(hist: seq<Data>, n: nat): Kvset
    requires 1 <= n <= |hist|
  {
    Kvset(n, n, hist[n - 1])
  }

  /** The tree is at s after the first ingests of hist, one for each spill. */
  ghost predicate View(t: Tree, hist: seq<Data>, s: State, root: seq<Kvset>, work: seq<nat>) {
    && t.ctl == s && t.root == root && t.work == work && Halves(t.nodes)
    && s.sgen <= |hist| && t.hist == hist[..s.sgen] && t.ends == seq(s.sgen + 1, i => i)
  }

  ghost predicate Reached(hist: seq<Data>, s: State, root: seq<Kvset>, work: seq<nat>) {
    exists t0, steps, t :: TInit(t0) && SourceRun(t0, steps, t) && View(t, hist, s, root, work)
  }

  /** A reached state, with its invariant. */
  lemma Pick(hist: seq<Data>, s: State, root: seq<Kvset>, work: seq<nat>) returns (t0: Tree, steps: seq<TStep>, t: Tree)
    requires Reached(hist, s, root, work)
    ensures TInit(t0) && SourceRun(t0, steps, t) && View(t, hist, s, root, work) && TInv(t)
  {
    t0, steps, t :| TInit(t0) && SourceRun(t0, steps, t) && View(t, hist, s, root, work);
    SourceRunReaches(t0, steps, t);
    RunTInv(t0, steps, t);
  }

  lemma Extend(t0: Tree, steps: seq<TStep>, t: Tree, ts: TStep, hist: seq<Data>, s': State, root': seq<Kvset>,
               work': seq<nat>)
    requires TInit(t0) && SourceRun(t0, steps, t) && TEnabled(t, ts) && AsSelected(t, ts)
    requires View(TNext(t, ts), hist, s', root', work')
    ensures Reached(hist, s', root', work')
  {
    RunThen(t0, steps, t, ts);
  }

  /** The inputs of spill n are ingest n. */
  lemma OneInput(t: Tree, hist: seq<Data>, s: State, root: seq<Kvset>, work: seq<nat>, n: nat)
    requires TData(t) && View(t, hist, s, root, work) && 1 <= n <= s.sgen
    ensures n in t.jobs && t.jobs[n].inputs == [K(hist, n)]
  {
    assert n in t.ctl.jobs && JobDataOk(t, n);
    InputDgens(t, n);
    PastLength(t.hist, n);
    assert t.jobs[n].inputs[0] == Upto(t, n)[0];
  }

  /** An empty tree. */
  lemma Start(hist: seq<Data>)
    ensures Reached(hist, S(0, 0, map[], L(0, 0, []), L(0, 0, [])), [], [])
  {
    var s := S(0, 0, map[], L(0, 0, []), L(0, 0, []));
    var t := Tree(s, [], [], map[], [Node(MID, [], map[], [], 0, 0), Node(MAX_KEY, [], map[], [], 0, 0)], [], [0]);
    assert TInit(t);
    assert SourceRun(t, [], t);
    assert hist[..0] == [] && seq(1, i => i) == [0];
    assert View(t, hist, s, [], []);
  }

  // ----- the steps -----

  predicate Quiet(st: Step) {
    st.Enter? || st.Check? || st.Enqueue? || st.Bump? || st.Pop? || st.Finish?
  }

  lemma QuietEnabled(t: Tree, st: Step)
    requires TInv(t) && Enabled(t.ctl, st) && (Quiet(st) || (st.Begin? && st.z == -1))
    ensures TEnabled(t, Ctl(st))
  {
    StepHasData(t, st);
  }

  lemma QuietView(t: Tree, hist: seq<Data>, s: State, root: seq<Kvset>, work: seq<nat>, st: Step, s': State)
    requires View(t, hist, s, root, work) && TEnabled(t, Ctl(st)) && (Quiet(st) || st.Begin?) && Moves(s, st, s')
    ensures View(TNext(t, Ctl(st)), hist, s', root, work)
  {
  }

  /** A step that touches neither the root nor the history. */
  lemma GoPlain(hist: seq<Data>, s: State, root: seq<Kvset>, work: seq<nat>, st: Step, s': State)
    requires Reached(hist, s, root, work) && Moves(s, st, s') && (Quiet(st) || (st.Begin? && st.z == -1))
    ensures Reached(hist, s', root, work)
  {
    var t0, steps, t := Pick(hist, s, root, work);
    QuietEnabled(t, st);
    QuietView(t, hist, s, root, work, st, s');
    Extend(t0, steps, t, Ctl(st), hist, s', root, work);
  }

  lemma PinGuard(t: Tree, d: Data, n: nat, z: int)
    requires Enabled(t.ctl, Begin(n, z)) && |t.ctl.leaves| == 2 && Halves(t.nodes) && In(d, z) && 0 <= z <= 1
    requires n in t.jobs && |t.jobs[n].inputs| == 1 && t.jobs[n].inputs[0].data == d
    ensures DataGuard(t, Begin(n, z))
  {
  }

  lemma PinEnabled(t: Tree, d: Data, n: nat, z: int)
    requires TInv(t) && Enabled(t.ctl, Begin(n, z)) && Halves(t.nodes) && In(d, z) && 0 <= z <= 1
    requires n in t.jobs && |t.jobs[n].inputs| == 1 && t.jobs[n].inputs[0].data == d
    ensures TEnabled(t, Ctl(Begin(n, z)))
  {
    PinGuard(t, d, n, z);
    StepHasData(t, Begin(n, z));
  }

  /** A zspill starts and pins leaf z. */
  lemma GoPin(hist: seq<Data>, s: State, root: seq<Kvset>, work: seq<nat>, n: nat, z: int, s': State)
    requires Reached(hist, s, root, work) && Moves(s, Begin(n, z), s') && 0 <= z <= 1 && 1 <= n <= s.sgen <= |hist|
    requires In(hist[n - 1], z)
    ensures Reached(hist, s', root, work)
  {
    var t0, steps, t := Pick(hist, s, root, work);
    OneInput(t, hist, s, root, work, n);
    PinEnabled(t, hist[n - 1], n, z);
    QuietView(t, hist, s, root, work, Begin(n, z), s');
    Extend(t0, steps, t, Ctl(Begin(n, z)), hist, s', root, work);
  }

  // ----- ingest and claim -----

  /** Ingest and claim, with everything older claimed: an ordinary spill if the kvset has keys
      of both leaves, a zspill if not and nothing older is left. */
  ghost predicate Launches(hist: seq<Data>, s: State, root: seq<Kvset>, z: bool, s': State) {
    && s.sgen < |hist| && Moves(s, Claim(z), s')
    && if z then root == [] && (In(hist[s.sgen], 0) || In(hist[s.sgen], 1))
       else !In(hist[s.sgen], 0) && !In(hist[s.sgen], 1)
  }

  lemma {:induction false} OnlyFirstFree(work: seq<nat>)
    requires work != [] && work[0] == 0 && forall i :: 0 < i < |work| ==> work[i] != 0
    ensures OldestFree(work) == 0
  {
  }

  lemma LaunchSelected(t: Tree, d: Data, z: bool)
    requires Halves(t.nodes) && t.root != [] && |t.work| == |t.root| && t.root[0].data == d && OldestFree(t.work) == 0
    requires if z then In(d, 0) || In(d, 1) else !In(d, 0) && !In(d, 1)
    ensures AsSelected(t, ClaimRun(1, z))
  {
    if z {
      var j := if In(d, 0) then 0 else 1;
      assert LiesIn(t.nodes, t.root[0], j);
      assert RunLiesIn(t, 0, 1, j);
    } else {
      forall j | 0 <= j < 2 ensures !LiesIn(t.nodes, t.root[0], j) {
        var k :| k in d && !(if j == 0 then k <= MID else MID < k);
      }
    }
  }

  lemma LaunchClaims(t: Tree, z: bool)
    requires Enabled(t.ctl, Claim(z)) && t.root != [] && |t.work| == |t.root| && OldestFree(t.work) == 0
    requires z ==> |t.root| == 1
    ensures TEnabled(t, ClaimRun(1, z))
    ensures var t' := TNext(t, ClaimRun(1, z));
      && t'.root == t.root && t'.work == [t.ctl.sgen + 1] + t.work[1..] && t'.hist == t.hist && t'.nodes == t.nodes
      && t'.ends == t.ends + [t.root[0].dgen] && t'.ctl == Next(t.ctl, Claim(z))
  {
  }

  lemma LaunchView(t: Tree, hist: seq<Data>, s: State, root: seq<Kvset>, work: seq<nat>, z: bool, s': State)
    requires View(t, hist, s, root, work) && s.sgen < |hist| && Moves(s, Claim(z), s') && |work| == |root|
    requires forall i :: 0 <= i < |work| ==> work[i] != 0
    requires z ==> root == []
    ensures var t1 := TNext(t, Ingest(hist[s.sgen]));
      && OldestFree(t1.work) == 0 && t1.root[0].data == hist[s.sgen]
      && Halves(t1.nodes) && t1.root != [] && |t1.work| == |t1.root|
      && TEnabled(t1, ClaimRun(1, z))
      && View(TNext(t1, ClaimRun(1, z)), hist, s', [K(hist, s'.sgen)] + root, [s'.sgen] + work)
  {
    var n := s.sgen + 1;
    var t1 := TNext(t, Ingest(hist[s.sgen]));
    OnlyFirstFree(t1.work);
    LaunchClaims(t1, z);
    assert hist[..n] == hist[..s.sgen] + [hist[s.sgen]];
    assert seq(n + 1, i => i) == seq(n, i => i) + [n];
  }

  lemma GoLaunch(hist: seq<Data>, s: State, root: seq<Kvset>, work: seq<nat>, z: bool, s': State)
    requires Reached(hist, s, root, work) && Launches(hist, s, root, z, s') && |work| == |root|
    requires forall i :: 0 <= i < |work| ==> work[i] != 0
    ensures Reached(hist, s', [K(hist, s'.sgen)] + root, [s'.sgen] + work)
  {
    var t0, steps, t := Pick(hist, s, root, work);
    var d := hist[s.sgen];
    var t1 := TNext(t, Ingest(d));
    LaunchView(t, hist, s, root, work, z, s');
    RunThen(t0, steps, t, Ingest(d));
    LaunchSelected(t1, d, z);
    Extend(t0, steps + [Ingest(d)], t1, ClaimRun(1, z), hist, s', [K(hist, s'.sgen)] + root, [s'.sgen] + work);
  }

  // ----- adding a subspill -----

  /** Job n is about to add subspill m to leaf pos. */
  predicate Adding(s: State, n: nat, m: nat, pos: int) {
    && n in s.jobs && s.jobs[n].pos == pos && s.jobs[n].phase.Applying? && s.jobs[n].phase.m == m
    && 0 <= pos < |s.leaves| == 2
  }

  /** Subspill m is, or is not, a move into the leaf. */
  ghost predicate IsMove(t: Tree, m: nat, pos: int) {
    0 <= pos < |t.nodes| && m in t.nodes[pos].subs && t.nodes[pos].subs[m].ZMove?
  }

  lemma AddingFits(t: Tree, n: nat, m: nat, pos: int)
    requires TInv(t) && Adding(t.ctl, n, m, pos)
    ensures TEnabled(t, Ctl(Apply(n))) && 1 <= m <= t.ctl.sgen && m in t.ctl.jobs && m in t.jobs
    ensures IsMove(t, m, pos) ==> KeysIn(t.jobs[m].inputs, Lo(t.nodes, pos), t.nodes[pos].edge)
    ensures t.ctl.rsgen < m ==> (IsMove(t, m, pos) <==> t.ctl.jobs[m].pin == pos)
  {
    NextInLine(t, n);
    AddedFits(t, n);
    StepHasData(t, Apply(n));
  }

  /** A subspill whose spill has keys outside the leaf is not a move. */
  lemma MovedKeys(t: Tree, d: Data, m: nat, pos: int)
    requires Halves(t.nodes) && 0 <= pos <= 1 && m in t.jobs && |t.jobs[m].inputs| == 1 && t.jobs[m].inputs[0].data == d
    ensures KeysIn(t.jobs[m].inputs, Lo(t.nodes, pos), t.nodes[pos].edge) ==> In(d, pos)
  {
  }

  lemma ApplyView(t: Tree, hist: seq<Data>, s: State, root: seq<Kvset>, work: seq<nat>, n: nat, m: nat, pos: int,
                  s': State)
    requires View(t, hist, s, root, work) && TEnabled(t, Ctl(Apply(n))) && Adding(s, n, m, pos)
    requires Moves(s, Apply(n), s')
    ensures |work| == |root|
    ensures if IsMove(t, m, pos)
      then View(TNext(t, Ctl(Apply(n))), hist, s', Unclaimed(root, work, m), Unclaimed(work, work, m))
      else View(TNext(t, Ctl(Apply(n))), hist, s', root, work)
  {
  }

  /** A subspill with data, or with nothing to add, is added to its leaf. */
  lemma GoAdd(hist: seq<Data>, s: State, root: seq<Kvset>, work: seq<nat>, n: nat, m: nat, pos: int, s': State)
    requires Reached(hist, s, root, work) && Moves(s, Apply(n), s') && Adding(s, n, m, pos)
    requires 1 <= m <= s.sgen <= |hist|
    requires if s.rsgen < m then m in s.jobs && s.jobs[m].pin != pos else !In(hist[m - 1], pos)
    ensures Reached(hist, s', root, work)
  {
    var t0, steps, t := Pick(hist, s, root, work);
    AddingFits(t, n, m, pos);
    OneInput(t, hist, s, root, work, m);
    MovedKeys(t, hist[m - 1], m, pos);
    ApplyView(t, hist, s, root, work, n, m, pos, s');
    Extend(t0, steps, t, Ctl(Apply(n)), hist, s', root, work);
  }

  /** The kvset of a zspill moves from the root to the leaf. */
  lemma GoMove(hist: seq<Data>, s: State, root: seq<Kvset>, work: seq<nat>, n: nat, m: nat, pos: int, s': State)
    requires Reached(hist, s, root, work) && Moves(s, Apply(n), s') && Adding(s, n, m, pos)
    requires s.rsgen < m && m in s.jobs && s.jobs[m].pin == pos
    ensures |work| == |root| && Reached(hist, s', Unclaimed(root, work, m), Unclaimed(work, work, m))
  {
    var t0, steps, t := Pick(hist, s, root, work);
    AddingFits(t, n, m, pos);
    ApplyView(t, hist, s, root, work, n, m, pos, s');
    Extend(t0, steps, t, Ctl(Apply(n)), hist, s', Unclaimed(root, work, m), Unclaimed(work, work, m));
  }

  // ----- retirement -----

  lemma RetireEnabled(t: Tree, n: nat)
    requires TInv(t) && Enabled(t.ctl, Retire(n))
    ensures TEnabled(t, Ctl(Retire(n)))
  {
    StepHasData(t, Retire(n));
  }

  lemma RetireView(t: Tree, hist: seq<Data>, s: State, root: seq<Kvset>, work: seq<nat>, n: nat, s': State)
    requires View(t, hist, s, root, work) && TEnabled(t, Ctl(Retire(n))) && Moves(s, Retire(n), s') && |work| == |root|
    requires n in t.jobs && |t.jobs[n].inputs| == 1
    ensures if s.jobs[n].pin == -1
      then root != [] && View(TNext(t, Ctl(Retire(n))), hist, s', root[..|root| - 1], work[..|root| - 1])
      else View(TNext(t, Ctl(Retire(n))), hist, s', root, work)
  {
  }

  /** A spill retires: a zspill deletes nothing, another the oldest kvset of the root. */
  lemma GoLeave(hist: seq<Data>, s: State, root: seq<Kvset>, work: seq<nat>, n: nat, s': State)
    requires Reached(hist, s, root, work) && Moves(s, Retire(n), s') && |work| == |root| && s.sgen <= |hist|
    ensures if s.jobs[n].pin == -1
      then root != [] && Reached(hist, s', root[..|root| - 1], work[..|root| - 1])
      else Reached(hist, s', root, work)
  {
    var t0, steps, t := Pick(hist, s, root, work);
    assert 1 <= n <= s.sgen;
    OneInput(t, hist, s, root, work, n);
    RetireEnabled(t, n);
    RetireView(t, hist, s, root, work, n, s');
    if s.jobs[n].pin == -1 {
      Extend(t0, steps, t, Ctl(Retire(n)), hist, s', root[..|root| - 1], work[..|root| - 1]);
    } else {
      Extend(t0, steps, t, Ctl(Retire(n)), hist, s', root, work);
    }
  }

  // ----- plans -----

  /** The protocol's part of the state, and the root. */
  datatype Place = Place(s: State, root: seq<Kvset>, work: seq<nat>)

  /** One step of a plan; Launch is an ingest and the claim of what it brings. */
  datatype Act =
    | Plain(st: Step)
    | Pin(n: nat, z: int)
    | Launch(zwanted: bool)
    | Add(n: nat, m: nat, pos: int)
    | Move(n: nat, m: nat, pos: int)
    | Leave(n: nat)

  ghost predicate Can(hist: seq<Data>, p: Place, a: Act, p': Place) {
    && |p.work| == |p.root| && p.s.sgen <= |hist|
    && match a
       case Plain(st) =>
         && Moves(p.s, st, p'.s) && (Quiet(st) || (st.Begin? && st.z == -1)) && p'.root == p.root && p'.work == p.work
       case Pin(n, z) =>
         && Moves(p.s, Begin(n, z), p'.s) && 0 <= z <= 1 && 1 <= n <= p.s.sgen && In(hist[n - 1], z)
         && p'.root == p.root && p'.work == p.work
       case Launch(z) =>
         && Launches(hist, p.s, p.root, z, p'.s) && (forall i :: 0 <= i < |p.work| ==> p.work[i] != 0)
         && p'.s.sgen == p.s.sgen + 1
         && p'.root == [K(hist, p'.s.sgen)] + p.root && p'.work == [p'.s.sgen] + p.work
       case Add(n, m, pos) =>
         && Moves(p.s, Apply(n), p'.s) && Adding(p.s, n, m, pos) && 1 <= m <= p.s.sgen
         && (if p.s.rsgen < m then m in p.s.jobs && p.s.jobs[m].pin != pos else !In(hist[m - 1], pos))
         && p'.root == p.root && p'.work == p.work
       case Move(n, m, pos) =>
         && Moves(p.s, Apply(n), p'.s) && Adding(p.s, n, m, pos)
         && p.s.rsgen < m && m in p.s.jobs && p.s.jobs[m].pin == pos
         && p'.root == Unclaimed(p.root, p.work, m) && p'.work == Unclaimed(p.work, p.work, m)
       case Leave(n) =>
         && Moves(p.s, Retire(n), p'.s)
         && (if p.s.jobs[n].pin == -1
             then p.root != [] && p'.root == p.root[..|p.root| - 1] && p'.work == p.work[..|p.root| - 1]
             else p'.root == p.root && p'.work == p.work)
  }

  ghost predicate Leads(hist: seq<Data>, p: Place, acts: seq<Act>, p': Place)
    decreases |acts|
  {
    if acts == [] then p' == p
    else exists q :: Can(hist, p, acts[0], q) && Leads(hist, q, acts[1..], p')
  }

  lemma {:induction false} LeadsThen(hist: seq<Data>, p: Place, acts: seq<Act>, q: Place, a: Act, p': Place)
    requires Leads(hist, p, acts, q) && Can(hist, q, a, p')
    ensures Leads(hist, p, acts + [a], p')
    decreases |acts|
  {
    var r := acts + [a];
    if acts == [] {
      assert r == [a] && r[1..] == [];
      assert Can(hist, p, r[0], p') && Leads(hist, p', r[1..], p');
    } else {
      var x :| Can(hist, p, acts[0], x) && Leads(hist, x, acts[1..], q);
      assert r[0] == acts[0] && r[1..] == acts[1..] + [a];
      LeadsThen(hist, x, acts[1..], q, a, p');
    }
  }

  function Empty(): Place {
    Place(S(0, 0, map[], L(0, 0, []), L(0, 0, [])), [], [])
  }

  /** A plan from the empty tree. */
  ghost predicate Plan(hist: seq<Data>, acts: seq<Act>, s: State, root: seq<Kvset>, work: seq<nat>) {
    |work| == |root| && s.sgen <= |hist| && Leads(hist, Empty(), acts, Place(s, root, work))
  }

  lemma NoPlan(hist: seq<Data>)
    ensures Plan(hist, [], Empty().s, [], [])
  {
  }

  lemma Then(hist: seq<Data>, acts: seq<Act>, s: State, root: seq<Kvset>, work: seq<nat>, a: Act, p': Place)
    returns (r: seq<Act>)
    requires Plan(hist, acts, s, root, work) && Can(hist, Place(s, root, work), a, p')
    requires |p'.work| == |p'.root| && p'.s.sgen <= |hist|
    ensures Plan(hist, r, p'.s, p'.root, p'.work)
  {
    LeadsThen(hist, Empty(), acts, Place(s, root, work), a, p');
    r := acts + [a];
  }

  lemma ThenPlain(hist: seq<Data>, acts: seq<Act>, s: State, root: seq<Kvset>, work: seq<nat>, st: Step, s': State)
    returns (r: seq<Act>)
    requires Plan(hist, acts, s, root, work) && Moves(s, st, s') && (Quiet(st) || (st.Begin? && st.z == -1))
    ensures Plan(hist, r, s', root, work)
  {
    r := Then(hist, acts, s, root, work, Plain(st), Place(s', root, work));
  }

  lemma ThenPin(hist: seq<Data>, acts: seq<Act>, s: State, root: seq<Kvset>, work: seq<nat>, n: nat, z: int, s': State)
    returns (r: seq<Act>)
    requires Plan(hist, acts, s, root, work) && Moves(s, Begin(n, z), s') && 0 <= z <= 1 && 1 <= n <= s.sgen
    requires In(hist[n - 1], z)
    ensures Plan(hist, r, s', root, work)
  {
    r := Then(hist, acts, s, root, work, Pin(n, z), Place(s', root, work));
  }

  lemma ThenLaunch(hist: seq<Data>, acts: seq<Act>, s: State, root: seq<Kvset>, work: seq<nat>, z: bool, s': State)
    returns (r: seq<Act>)
    requires Plan(hist, acts, s, root, work) && Moves(s, Claim(z), s') && s.sgen < |hist|
    requires forall i :: 0 <= i < |work| ==> work[i] != 0
    requires if z then root == [] && (In(hist[s.sgen], 0) || In(hist[s.sgen], 1))
             else !In(hist[s.sgen], 0) && !In(hist[s.sgen], 1)
    ensures s'.sgen == s.sgen + 1 && Plan(hist, r, s', [K(hist, s'.sgen)] + root, [s'.sgen] + work)
  {
    r := Then(hist, acts, s, root, work, Launch(z), Place(s', [K(hist, s'.sgen)] + root, [s'.sgen] + work));
  }

  lemma ThenAdd(hist: seq<Data>, acts: seq<Act>, s: State, root: seq<Kvset>, work: seq<nat>, n: nat, m: nat, pos: int,
                s': State)
    returns (r: seq<Act>)
    requires Plan(hist, acts, s, root, work) && Moves(s, Apply(n), s') && Adding(s, n, m, pos) && 1 <= m <= s.sgen
    requires if s.rsgen < m then m in s.jobs && s.jobs[m].pin != pos else !In(hist[m - 1], pos)
    ensures Plan(hist, r, s', root, work)
  {
    r := Then(hist, acts, s, root, work, Add(n, m, pos), Place(s', root, work));
  }

  /** The only kvset in the root moves. */
  lemma ThenMove(hist: seq<Data>, acts: seq<Act>, s: State, root: seq<Kvset>, n: nat, m: nat, pos: int, s': State)
    returns (r: seq<Act>)
    requires Plan(hist, acts, s, root, [m]) && Moves(s, Apply(n), s') && Adding(s, n, m, pos)
    requires s.rsgen < m && m in s.jobs && s.jobs[m].pin == pos
    ensures Plan(hist, r, s', [], [])
  {
    assert Unclaimed(root, [m], m) == [] && Unclaimed([m], [m], m) == [] by {
      assert [m][1..] == [] && root[1..] == [];
    }
    r := Then(hist, acts, s, root, [m], Move(n, m, pos), Place(s', [], []));
  }

  /** A zspill retires, and another spill. */
  lemma ThenLeave(hist: seq<Data>, acts: seq<Act>, s: State, root: seq<Kvset>, work: seq<nat>, n: nat, s': State)
    returns (r: seq<Act>)
    requires Plan(hist, acts, s, root, work) && Moves(s, Retire(n), s') && (s.jobs[n].pin == -1 ==> root != [])
    ensures if s.jobs[n].pin == -1
      then Plan(hist, r, s', root[..|root| - 1], work[..|root| - 1]) else Plan(hist, r, s', root, work)
  {
    if s.jobs[n].pin == -1 {
      r := Then(hist, acts, s, root, work, Leave(n), Place(s', root[..|root| - 1], work[..|root| - 1]));
    } else {
      r := Then(hist, acts, s, root, work, Leave(n), Place(s', root, work));
    }
  }

  /** What a plan does, the tree can do. */
  lemma Follow(hist: seq<Data>, p: Place, a: Act, p': Place)
    requires Reached(hist, p.s, p.root, p.work) && Can(hist, p, a, p')
    ensures Reached(hist, p'.s, p'.root, p'.work)
  {
    match a
    case Plain(st) => GoPlain(hist, p.s, p.root, p.work, st, p'.s);
    case Pin(n, z) => GoPin(hist, p.s, p.root, p.work, n, z, p'.s);
    case Launch(z) => GoLaunch(hist, p.s, p.root, p.work, z, p'.s);
    case Add(n, m, pos) => GoAdd(hist, p.s, p.root, p.work, n, m, pos, p'.s);
    case Move(n, m, pos) => GoMove(hist, p.s, p.root, p.work, n, m, pos, p'.s);
    case Leave(n) => GoLeave(hist, p.s, p.root, p.work, n, p'.s);
  }

  lemma {:induction false} FollowAll(hist: seq<Data>, p: Place, acts: seq<Act>, p': Place)
    requires Reached(hist, p.s, p.root, p.work) && Leads(hist, p, acts, p')
    ensures Reached(hist, p'.s, p'.root, p'.work)
    decreases |acts|
  {
    if acts != [] {
      var q :| Can(hist, p, acts[0], q) && Leads(hist, q, acts[1..], p');
      Follow(hist, p, acts[0], q);
      FollowAll(hist, q, acts[1..], p');
    }
  }

  lemma PlanIsReached(hist: seq<Data>, acts: seq<Act>, s: State, root: seq<Kvset>, work: seq<nat>)
    requires Plan(hist, acts, s, root, work)
    ensures Reached(hist, s, root, work)
  {
    Start(hist);
    FollowAll(hist, Empty(), acts, Place(s, root, work));
  }

  // ----- reading -----

  /** Nobody has added a subspill to leaf 1 that its generation does not count. */
  ghost predicate NoBump(s: State) {
    forall n :: n in s.jobs ==> s.jobs[n].pos != 1 || !s.jobs[n].phase.Bumping?
  }

  /** Where a key of the right leaf is found. */
  lemma RightReads(t: Tree, hist: seq<Data>, s: State, root: seq<Kvset>, work: seq<nat>, k: Key)
    requires TInv(t) && View(t, hist, s, root, work) && |s.leaves| == 2 && MID < k && NoBump(s)
    ensures s.leaves[1].sgen <= s.sgen <= |hist| && Route(t.nodes, k) == 1
    ensures Live(Find(t.nodes[1].kvsets, k)) == Live(Find(Past(hist, s.leaves[1].sgen), k))
    ensures HistoryLookup(t, k) == Find(Past(hist, s.sgen), k)
  {
    assert IsLeaf(t.ctl, 1) && LogOk(t, 1) && NodeOk(t, 1);
    var a := |t.nodes[1].applied|;
    assert a == s.leaves[1].sgen;
    PastGrows(t.hist, hist, a);
    PastGrows(t.hist, hist, s.sgen);
  }

  lemma LookupRight(t: Tree, past: seq<Kvset>, k: Key)
    requires t.nodes != [] && Route(t.nodes, k) == 1 && |t.nodes| == 2
    requires Live(Find(t.nodes[1].kvsets, k)) == Live(Find(past, k))
    ensures Live(Lookup(t, k)) == if Find(t.root, k).Some? then Live(Find(t.root, k)) else Live(Find(past, k))
  {
  }

  /** What a reader of the right leaf finds before and after the retirement of a spill that
      has not moved. */
  lemma ReadsAtRetirement(hist: seq<Data>, s: State, root: seq<Kvset>, work: seq<nat>, n: nat, k: Key)
    returns (t0: Tree, steps: seq<TStep>, t: Tree)
    requires Reached(hist, s, root, work) && |s.leaves| == 2 && MID < k && NoBump(s) && s.sgen <= |hist|
    requires Enabled(s, Retire(n)) && s.jobs[n].pin == -1 && 1 <= n <= s.sgen && s.leaves[1].sgen <= s.sgen
    ensures TInit(t0) && SourceRun(t0, steps, t) && TEnabled(t, Ctl(Retire(n))) && n in t.jobs && n in t.ctl.jobs
    ensures t.root == root != [] && t.work == work && |work| == |root|
    ensures t.ctl.jobs[n].pin == -1 && t.jobs[n].inputs == [K(hist, n)]
    ensures var t', past := TNext(t, Ctl(Retire(n))), Past(hist, s.leaves[1].sgen);
      && t.nodes != [] && t'.nodes != [] && t'.root == root[..|root| - 1] && t'.work == work[..|root| - 1]
      && HistoryLookup(t, k) == HistoryLookup(t', k) == Find(Past(hist, s.sgen), k)
      && Live(Lookup(t, k)) == (if Find(root, k).Some? then Live(Find(root, k)) else Live(Find(past, k)))
      && Live(Lookup(t', k)) ==
           (if Find(root[..|root| - 1], k).Some? then Live(Find(root[..|root| - 1], k)) else Live(Find(past, k)))
  {
    t0, steps, t := Pick(hist, s, root, work);
    RetireEnabled(t, n);
    OneInput(t, hist, s, root, work, n);
    RightReads(t, hist, s, root, work, k);
    RetireEffect(t, n);
    LookupRight(t, Past(hist, s.leaves[1].sgen), k);
    LookupRight(TNext(t, Ctl(Retire(n))), Past(hist, s.leaves[1].sgen), k);
  }
}
