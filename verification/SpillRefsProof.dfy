/** Every step keeps the reference counters equal to the references held. */
module SpillRefsProof {
  import opened SpillProtocol
  import opened SpillInvariant
  import opened SpillOrderProof

  function B(b: bool): nat {
    if b then 1 else 0
  }

  predicate HoldsPopped(job: Job) {
    (job.phase.Applying? || job.phase.Bumping?) && job.phase.popped
  }

  lemma SetChange(a: set<nat>, b: set<nat>, n: nat)
    requires a - {n} == b - {n}
    ensures |b| == |a| + B(n in b) - B(n in a)
  {
    var c := a - {n};
    if n in a { assert a == c + {n}; } else { assert a == c; }
    if n in b { assert b == c + {n}; } else { assert b == c; }
  }

  /** How the three sets of reference holders change when one job changes. */
  lemma HoldersChange(s: State, s': State, n: nat, j: int)
    requires n in s'.jobs && s'.jobs == s.jobs[n := s'.jobs[n]]
    ensures |JobsAt(s', j)| == |JobsAt(s, j)| + B(s'.jobs[n].pos == j) - B(n in s.jobs && s.jobs[n].pos == j)
    ensures |PoppersAt(s', j)| == |PoppersAt(s, j)| + B(s'.jobs[n].pos == j && HoldsPopped(s'.jobs[n]))
                                 - B(n in s.jobs && s.jobs[n].pos == j && HoldsPopped(s.jobs[n]))
    ensures |PinsAt(s', j)| == |PinsAt(s, j)| + B(s'.jobs[n].pin == j) - B(n in s.jobs && s.jobs[n].pin == j)
  {
    SetChange(JobsAt(s, j), JobsAt(s', j), n);
    SetChange(PoppersAt(s, j), PoppersAt(s', j), n);
    SetChange(PinsAt(s, j), PinsAt(s', j), n);
  }

  lemma EnterKeepsRefs(s: State, n: nat)
    requires Order(s) && Refs(s) && Enabled(s, Enter(n))
    ensures Refs(DoEnter(s, n))
  {
    var s' := DoEnter(s, n);
    assert JobOk(s, n);
    forall j | IsLeaf(s', j) ensures RefsOk(s', j) {
      assert IsLeaf(s, j) && RefsOk(s, j);
      HoldersChange(s, s', n, j);
    }
  }

  lemma JobStepKeepsRefs(s: State, st: Step)
    requires Order(s) && Refs(s) && Enabled(s, st)
    requires st.Claim? || st.Begin? || st.Finish? || st.Retire?
    ensures Refs(Next(s, st))
  {
    var s' := Next(s, st);
    var n := if st.Claim? then s.sgen + 1 else st.n;
    if n in s.jobs { assert JobOk(s, n); }
    forall j | IsLeaf(s', j) ensures RefsOk(s', j) {
      assert IsLeaf(s, j) && RefsOk(s, j);
      HoldersChange(s, s', n, j);
    }
  }

  lemma VisitStepKeepsRefs(s: State, st: Step)
    requires Order(s) && Refs(s) && Enabled(s, st)
    requires st.Check? || st.Enqueue? || st.Apply? || st.Bump? || st.Pop?
    ensures Refs(Next(s, st))
  {
    var s' := Next(s, st);
    assert JobOk(s, st.n);
    forall j | IsLeaf(s', j) ensures RefsOk(s', j) {
      assert IsLeaf(s, j) && RefsOk(s, j);
      HoldersChange(s, s', st.n, j);
      if st.Enqueue? { InsertSortedElements(s.leaves[j].queue, st.n); }
    }
  }

  /** Steps that leave jobs, lists and counters alone. */
  lemma RefsFrame(s: State, s': State)
    requires Refs(s) && SameSpills(s, s')
    ensures Refs(s')
  {
    forall j | IsLeaf(s', j) ensures RefsOk(s', j) {
      assert IsLeaf(s, j) && RefsOk(s, j);
      assert JobsAt(s', j) == JobsAt(s, j) && PoppersAt(s', j) == PoppersAt(s, j) && PinsAt(s', j) == PinsAt(s, j);
    }
  }

  /** A leaf without references has no visitor, no pin and an empty list. */
  lemma ZeroRefs(s: State, j: int)
    requires Refs(s) && IsLeaf(s, j) && s.leaves[j].spilling == 0
    ensures NobodyAt(s, j) && s.leaves[j].queue == []
    ensures forall m :: !InFlight(s, j, m)
  {
    assert RefsOk(s, j);
    assert JobsAt(s, j) == {} && PinsAt(s, j) == {};
    forall n | n in s.jobs ensures s.jobs[n].pos != j && s.jobs[n].pin != j {
      assert n !in JobsAt(s, j) && n !in PinsAt(s, j);
    }
  }

  lemma InsertKeepsRefs(s: State, j: nat, l: Leaf)
    requires Refs(s) && IsLeaf(s, j) && NobodyAt(s, j) && l.queue == [] && l.spilling == 0
    ensures Refs(InsertLeaf(s, j, l))
  {
    var s' := InsertLeaf(s, j, l);
    forall k | IsLeaf(s', k) ensures RefsOk(s', k) {
      if k == j {
        assert JobsAt(s', k) == {} && PoppersAt(s', k) == {} && PinsAt(s', k) == {};
      } else {
        var k0 := Down(k, j);
        assert IsLeaf(s, k0) && RefsOk(s, k0);
        assert JobsAt(s', k) == JobsAt(s, k0);
        assert PoppersAt(s', k) == PoppersAt(s, k0);
        assert PinsAt(s', k) == PinsAt(s, k0);
      }
    }
  }

  lemma RemoveKeepsRefs(s: State, j: nat)
    requires Refs(s) && IsLeaf(s, j) && NobodyAt(s, j)
    ensures Refs(RemoveLeaf(s, j))
  {
    var s' := RemoveLeaf(s, j);
    forall k | IsLeaf(s', k) ensures RefsOk(s', k) {
      var k0 := Up(k, j);
      assert IsLeaf(s, k0) && RefsOk(s, k0);
      assert JobsAt(s', k) == JobsAt(s, k0);
      assert PoppersAt(s', k) == PoppersAt(s, k0);
      assert PinsAt(s', k) == PinsAt(s, k0);
    }
  }
}
