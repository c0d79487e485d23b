/**
 Kvmultisets from installation to release.

 The list of kvmultisets is newest first.  Ingest workers prepare their kvmultisets in
 parallel, then update cN and release one at a time: only the oldest of the list may.  A
 sync waits until the generation it flushed has been released.
 */
module C0Release {
  /** A worker prepares; it has prepared, perhaps in vain; it has had its turn and decided
      whether to ingest; or it is done with cN and about to release. */
  datatype Worker = Preparing | Prepared(ok: bool) | AtTurn(ok: bool) | Updated

  /** gens counts the generations handed out, failed and cn record what happened. */
  datatype State = State(
    gens: nat, list: seq<nat>, workers: map<nat, Worker>, releaseGen: nat, healthy: bool,
    cn: seq<nat>, failed: set<nat>, waiters: map<nat, nat>)

  datatype Step =
    | Install
    | Queue(g: nat)
    | Prepare(g: nat, ok: bool)
    | Turn(g: nat)
    | Ingest(g: nat, ok: bool)
    | Release(g: nat)
    | Sync(id: nat, g: nat)
    | Return(id: nat)

  predicate InPhase(s: State, g: nat, w: Worker) {
    g in s.workers && s.workers[g] == w
  }

  predicate IsOldest(s: State, g: nat) {
    s.list != [] && s.list[|s.list| - 1] == g
  }

  predicate Enabled(s: State, st: Step) {
    match st
    case Install => true
    case Queue(g) => g in s.list && g != s.list[0] && g !in s.workers
    case Prepare(g, ok) => InPhase(s, g, Preparing)
    case Turn(g) => g in s.workers && s.workers[g].Prepared? && IsOldest(s, g)
    case Ingest(g, ok) => g in s.workers && s.workers[g].AtTurn?
    case Release(g) => InPhase(s, g, Updated)
    case Sync(id, g) => id !in s.waiters && g <= s.gens
    case Return(id) => id in s.waiters && s.waiters[id] <= s.releaseGen
  }

  function Fail(s: State, g: nat): State {
    s.(healthy := false, failed := s.failed + {g})
  }

  function Remove(list: seq<nat>, g: nat): seq<nat> {
    if list == [] then []
    else if list[|list| - 1] == g then list[..|list| - 1]
    else Remove(list[..|list| - 1], g) + [list[|list| - 1]]
  }

  function Next(s: State, st: Step): State
    requires Enabled(s, st)
  {
    match st
    case Install => s.(gens := s.gens + 1, list := [s.gens + 1] + s.list)
    case Queue(g) => s.(workers := s.workers[g := Preparing])
    case Prepare(g, ok) => (if ok then s else Fail(s, g)).(workers := s.workers[g := Prepared(ok)])
    case Turn(g) => s.(workers := s.workers[g := AtTurn(s.workers[g].ok && s.healthy)])
    case Ingest(g, ok) =>
      var s1 := if !s.workers[g].ok then s else if ok then s.(cn := s.cn + [g]) else Fail(s, g);
      s1.(workers := s.workers[g := Updated])
    case Release(g) => s.(releaseGen := g, list := Remove(s.list, g), workers := s.workers - {g})
    case Sync(id, g) => s.(waiters := s.waiters[id := g])
    case Return(id) => s.(waiters := s.waiters - {id})
  }

  ghost predicate Init(s: State) {
    s == State(0, [], map[], 0, true, [], {}, map[])
  }

  ghost predicate Reaches(s: State, steps: seq<Step>, s': State)
    decreases |steps|
  {
    if steps == [] then s' == s
    else Enabled(s, steps[0]) && Reaches(Next(s, steps[0]), steps[1..], s')
  }

  // ----- the invariant -----

  /** The list is exactly the generations not yet released, newest first. */
  ghost predicate ListOk(s: State) {
    && s.releaseGen + |s.list| == s.gens
    && (forall i :: 0 <= i < |s.list| ==> s.list[i] == s.gens - i)
  }

  /** Only the oldest of the list has had its turn, and it went by good health only if
      nothing older had failed. */
  ghost predicate WorkerOk(s: State, g: nat)
    requires g in s.workers
  {
    var w := s.workers[g];
    && s.releaseGen < g <= s.gens
    && (w.AtTurn? || w.Updated? ==> g == s.releaseGen + 1)
    && (w.AtTurn? && w.ok ==> forall f :: f in s.failed ==> g < f)
    && ((w.Prepared? || w.AtTurn?) && !w.ok ==> !s.healthy)
    && (w.Updated? ==> g in s.cn || !s.healthy)
    && (w.Preparing? || w.Prepared? || w.AtTurn? ==> g !in s.cn)
  }

  ghost predicate CnOk(s: State) {
    && (forall i, j :: 0 <= i < j < |s.cn| ==> s.cn[i] < s.cn[j])
    && (forall x :: x in s.cn ==> 1 <= x <= s.releaseGen || InPhase(s, x, Updated))
    && (forall x, f :: x in s.cn && f in s.failed ==> x < f)
    && (s.healthy <==> s.failed == {})
  }

  /** While in good health, everything released is in cN. */
  ghost predicate NothingLost(s: State) {
    s.healthy ==> forall g :: 1 <= g <= s.releaseGen ==> g in s.cn
  }

  ghost predicate Inv(s: State) {
    ListOk(s) && CnOk(s) && NothingLost(s) && forall g :: g in s.workers ==> WorkerOk(s, g)
  }

  lemma RemoveOldest(list: seq<nat>, g: nat)
    requires list != [] && list[|list| - 1] == g
    ensures Remove(list, g) == list[..|list| - 1]
  {
  }

  lemma ReleaseKeepsInv(s: State, g: nat)
    requires Inv(s) && Enabled(s, Release(g))
    ensures Inv(Next(s, Release(g)))
  {
    var s' := Next(s, Release(g));
    assert WorkerOk(s, g);
    RemoveOldest(s.list, g);
    forall x | x in s'.workers ensures WorkerOk(s', x) { assert WorkerOk(s, x); }
    assert NothingLost(s') by {
      if s'.healthy {
        forall x | 1 <= x <= s'.releaseGen ensures x in s'.cn { assert x == g || x <= s.releaseGen; }
      }
    }
  }

  lemma IngestKeepsInv(s: State, g: nat, ok: bool)
    requires Inv(s) && Enabled(s, Ingest(g, ok))
    ensures Inv(Next(s, Ingest(g, ok)))
  {
    var s' := Next(s, Ingest(g, ok));
    assert WorkerOk(s, g);
    forall x | x in s.cn ensures 1 <= x < g { assert x in s.workers ==> WorkerOk(s, x); }
    forall x | x in s'.workers ensures WorkerOk(s', x) { assert WorkerOk(s, x); }
    assert InPhase(s', g, Updated);
    forall i | 0 <= i < |s.cn| ensures s.cn[i] < g { assert s.cn[i] in s.cn; }
  }

  lemma OtherStepKeepsInv(s: State, st: Step)
    requires Inv(s) && Enabled(s, st) && !st.Release? && !st.Ingest?
    ensures Inv(Next(s, st))
  {
    var s' := Next(s, st);
    if st.Prepare? || st.Turn? || st.Queue? {
      if st.g in s.workers { assert WorkerOk(s, st.g); }
      forall x | x in s'.workers ensures WorkerOk(s', x) {
        if x in s.workers { assert WorkerOk(s, x); } else { QueueFresh(s, x); }
      }
      forall x, f | x in s'.cn && f in s'.failed ensures x < f {
        if f !in s.failed && x > s.releaseGen { assert WorkerOk(s, x); }
      }
      forall x | x in s'.cn ensures 1 <= x <= s'.releaseGen || InPhase(s', x, Updated) {}
    } else {
      forall x | x in s'.workers ensures WorkerOk(s', x) { assert WorkerOk(s, x); }
    }
  }

  /** A kvmultiset without a worker has not been ingested. */
  lemma QueueFresh(s: State, g: nat)
    requires ListOk(s) && CnOk(s) && g in s.list && g !in s.workers
    ensures s.releaseGen < g <= s.gens && g !in s.cn
  {
  }

  lemma {:induction false} RunKeepsInv(s: State, steps: seq<Step>, s': State)
    requires Inv(s) && Reaches(s, steps, s')
    ensures Inv(s')
    decreases |steps|
  {
    if steps != [] {
      match steps[0] {
        case Release(g) => ReleaseKeepsInv(s, g);
        case Ingest(g, ok) => IngestKeepsInv(s, g, ok);
        case _ => OtherStepKeepsInv(s, steps[0]);
      }
      RunKeepsInv(Next(s, steps[0]), steps[1..], s');
    }
  }

  // ----- the theorems -----

  /** Kvmultisets reach cN in strictly increasing order of generation. */
  lemma IngestedInOrder(s0: State, steps: seq<Step>, s: State, i: nat, j: nat)
    requires Init(s0) && Reaches(s0, steps, s) && i < j < |s.cn|
    ensures s.cn[i] < s.cn[j]
  {
    RunKeepsInv(s0, steps, s);
  }

  /** A kvmultiset whose ingest failed, and every newer one, stays out of cN. */
  lemma NothingAfterFailure(s0: State, steps: seq<Step>, s: State, f: nat, x: nat)
    requires Init(s0) && Reaches(s0, steps, s) && f in s.failed && f <= x
    ensures x !in s.cn
  {
    RunKeepsInv(s0, steps, s);
  }

  /** Whatever is not newer than the release generation has left the list. */
  lemma ReleasedHaveLeft(s0: State, steps: seq<Step>, s: State, g: nat)
    requires Init(s0) && Reaches(s0, steps, s)
    ensures g in s.list <==> s.releaseGen < g <= s.gens
  {
    RunKeepsInv(s0, steps, s);
    if s.releaseGen < g <= s.gens { assert s.list[s.gens - g] == g; }
  }

  /** A sync that returns in good health has everything up to its generation in cN, and none
      of it is left in the list. */
  lemma SyncReturnsAfterIngest(s0: State, steps: seq<Step>, s: State, id: nat, g: nat)
    requires Init(s0) && Reaches(s0, steps, s) && Enabled(s, Return(id)) && 1 <= g <= s.waiters[id]
    ensures g !in s.list && (s.healthy ==> g in s.cn)
  {
    RunKeepsInv(s0, steps, s);
  }

  /** The engine is in good health exactly as long as no ingest has failed, and then every
      kvmultiset that was released is in cN. */
  lemma HealthIsExact(s0: State, steps: seq<Step>, s: State)
    requires Init(s0) && Reaches(s0, steps, s)
    ensures s.healthy <==> s.failed == {}
    ensures s.failed == {} ==> forall g :: 1 <= g <= s.releaseGen ==> g in s.cn
  {
    RunKeepsInv(s0, steps, s);
  }
}
