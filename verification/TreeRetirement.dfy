/**
 When a spill may retire.

 A job that has passed the last leaf waits for its turn by generation and then deletes its
 input kvsets from the root.  Another job may by then have popped one of its subspills and
 not yet added it to the leaf.  This module shows what a reader then misses, exactly.
 */
module TreeRetirement {
  import opened Options
  import opened Kvsets
  import opened SpillProtocol
  import opened TreeContents
  import opened TreeInvariant
  import opened TreeLookup
  import opened TreeFrames
  import opened TreeRootSteps
  import opened TreeTheorems

  /** How many kvsets the retirement of spill n deletes from the root. */
  function Deleted(t: Tree, n: nat): nat
    requires TEnabled(t, Ctl(Retire(n)))
  {
    if t.ctl.jobs[n].pin == -1 then |t.jobs[n].inputs| else 0
  }

  /** Key k survives the retirement of spill n: the root keeps an entry, or no ingest that is
      then neither in the root nor in the leaf has one, or the newest of these entries reads
      as what the leaf has. */
  predicate Survives(t: Tree, n: nat, k: Key)
    requires TEnabled(t, Ctl(Retire(n))) && t.nodes != [] && |Home(t, k).applied| < |t.ends|
    requires Deleted(t, n) <= |t.root| <= |t.hist|
  {
    var gone := Find(Since(t.hist, t.ends[|Home(t, k).applied|], Gone(t) + Deleted(t, n)), k);
    || Find(t.root[..|t.root| - Deleted(t, n)], k).Some?
    || gone == None
    || Live(gone) == Live(Find(Home(t, k).kvsets, k))
  }

  lemma DeletedFromRoot(t: Tree, t': Tree, n: nat, k: Key)
    requires TEnabled(t, Ctl(Retire(n))) && Retires(t, t', n) && t.nodes != [] && |t.root| <= |t.hist|
    requires |Home(t, k).applied| < |t.ends|
    ensures Deleted(t, n) <= |t.root| && t'.nodes != [] && Gone(t') >= 0
    ensures NotMissed(t', k) == Survives(t, n, k)
  {
    assert t.root[..|t.root|] == t.root;
  }

  /** From any state of any run, a key reads right after a retirement exactly if it survives. */
  lemma RetirementIsExact(t0: Tree, steps: seq<TStep>, t: Tree, n: nat, k: Key)
    requires TInit(t0) && TReaches(t0, steps, t) && TEnabled(t, Ctl(Retire(n)))
    ensures t.nodes != [] && TNext(t, Ctl(Retire(n))).nodes != []
    ensures |Home(t, k).applied| < |t.ends| && Deleted(t, n) <= |t.root| <= |t.hist|
    ensures var t' := TNext(t, Ctl(Retire(n)));
      Live(Lookup(t', k)) == Live(HistoryLookup(t', k)) <==> Survives(t, n, k)
  {
    var t' := TNext(t, Ctl(Retire(n)));
    RunTInv(t0, steps, t);
    ReadsIffNotMissed(t, k);
    RetireKeepsData(t, n);
    ReadsIffNotMissed(t', k);
    RetireEffect(t, n);
    DeletedFromRoot(t, t', n, k);
  }
}
