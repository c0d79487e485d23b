/**
 A run in which a spill retires too early and a reader loses a key.

 Two leaves, three spills.  All three have added their subspills to the left leaf.  At the
 right leaf, spill 2 queues its subspill and is done.  Spill 1 adds its own subspill; before
 it looks at the list again, spill 3 pops subspill 2.  Spill 1 then finds nothing to pop, is
 done, and retires.  Now it is the turn of spill 2 to retire, although spill 3 has not yet
 added subspill 2 to the right leaf.
 */
module TreeEarlyRetirement {
  import opened Options
  import opened Kvsets
  import opened SpillProtocol
  import opened TreeContents
  import opened TreeInvariant
  import opened TreeTheorems
  import opened TreeRuns
  import opened SpillEarlyRetirement

  const HIST: seq<Data> := [
    map[0.1 := Value(1), 0.9 := Value(1)],
    map[0.2 := Value(2), 0.8 := Value(2)],
    map[0.3 := Value(3), 0.7 := Value(3)]]

  const K1: Kvset := Kvset(1, 1, HIST[0])
  const K2: Kvset := Kvset(2, 2, HIST[1])
  const K3: Kvset := Kvset(3, 3, HIST[2])

  /** No kvset of the run could be moved to a leaf as a whole. */
  lemma Spread(i: int)
    requires 0 <= i < 3
    ensures !In(HIST[i], 0) && !In(HIST[i], 1)
  {
    assert 0.1 in HIST[0] && 0.9 in HIST[0] && 0.2 in HIST[1] && 0.8 in HIST[1] && 0.3 in HIST[2] && 0.7 in HIST[2];
  }

  // ----- the run -----

  lemma Part1() returns (acts: seq<Act>)
    ensures Plan(HIST, acts, Q3, [K3, K2, K1], [3, 2, 1])
  {
    NoPlan(HIST);
    acts := [];
    Steps1();
    Spread(0);
    acts := ThenLaunch(HIST, acts, Q0, [], [], false, Q1);
    assert [K1] + [] == [K1] && [1] + [] == [1];
    Spread(1);
    acts := ThenLaunch(HIST, acts, Q1, [K1], [1], false, Q2);
    assert [K2] + [K1] == [K2, K1] && [2] + [1] == [2, 1];
    Spread(2);
    acts := ThenLaunch(HIST, acts, Q2, [K2, K1], [2, 1], false, Q3);
    assert [K3] + [K2, K1] == [K3, K2, K1] && [3] + [2, 1] == [3, 2, 1];
  }

  lemma Part2() returns (acts: seq<Act>)
    ensures Plan(HIST, acts, Q6, [K3, K2, K1], [3, 2, 1])
  {
    acts := Part1();
    Steps2();
    acts := ThenPlain(HIST, acts, Q3, [K3, K2, K1], [3, 2, 1], Begin(1, -1), Q4);
    acts := ThenPlain(HIST, acts, Q4, [K3, K2, K1], [3, 2, 1], Begin(2, -1), Q5);
    acts := ThenPlain(HIST, acts, Q5, [K3, K2, K1], [3, 2, 1], Begin(3, -1), Q6);
  }

  lemma Part3() returns (acts: seq<Act>)
    ensures Plan(HIST, acts, Q9, [K3, K2, K1], [3, 2, 1])
  {
    acts := Part2();
    Steps3();
    acts := ThenPlain(HIST, acts, Q6, [K3, K2, K1], [3, 2, 1], Enter(1), Q7);
    acts := ThenPlain(HIST, acts, Q7, [K3, K2, K1], [3, 2, 1], Check(1), Q8);
    acts := ThenAdd(HIST, acts, Q8, [K3, K2, K1], [3, 2, 1], 1, 1, 0, Q9);
  }

  lemma Part4() returns (acts: seq<Act>)
    ensures Plan(HIST, acts, Q12, [K3, K2, K1], [3, 2, 1])
  {
    acts := Part3();
    Steps4();
    acts := ThenPlain(HIST, acts, Q9, [K3, K2, K1], [3, 2, 1], Bump(1), Q10);
    acts := ThenPlain(HIST, acts, Q10, [K3, K2, K1], [3, 2, 1], Pop(1), Q11);
    acts := ThenPlain(HIST, acts, Q11, [K3, K2, K1], [3, 2, 1], Enter(2), Q12);
  }

  lemma Part5() returns (acts: seq<Act>)
    ensures Plan(HIST, acts, Q15, [K3, K2, K1], [3, 2, 1])
  {
    acts := Part4();
    Steps5();
    acts := ThenPlain(HIST, acts, Q12, [K3, K2, K1], [3, 2, 1], Check(2), Q13);
    acts := ThenAdd(HIST, acts, Q13, [K3, K2, K1], [3, 2, 1], 2, 2, 0, Q14);
    acts := ThenPlain(HIST, acts, Q14, [K3, K2, K1], [3, 2, 1], Bump(2), Q15);
  }

  lemma Part6() returns (acts: seq<Act>)
    ensures Plan(HIST, acts, Q18, [K3, K2, K1], [3, 2, 1])
  {
    acts := Part5();
    Steps6();
    acts := ThenPlain(HIST, acts, Q15, [K3, K2, K1], [3, 2, 1], Pop(2), Q16);
    acts := ThenPlain(HIST, acts, Q16, [K3, K2, K1], [3, 2, 1], Enter(3), Q17);
    acts := ThenPlain(HIST, acts, Q17, [K3, K2, K1], [3, 2, 1], Check(3), Q18);
  }

  lemma Part7() returns (acts: seq<Act>)
    ensures Plan(HIST, acts, Q21, [K3, K2, K1], [3, 2, 1])
  {
    acts := Part6();
    Steps7();
    acts := ThenAdd(HIST, acts, Q18, [K3, K2, K1], [3, 2, 1], 3, 3, 0, Q19);
    acts := ThenPlain(HIST, acts, Q19, [K3, K2, K1], [3, 2, 1], Bump(3), Q20);
    acts := ThenPlain(HIST, acts, Q20, [K3, K2, K1], [3, 2, 1], Pop(3), Q21);
  }

  lemma Part8() returns (acts: seq<Act>)
    ensures Plan(HIST, acts, Q24, [K3, K2, K1], [3, 2, 1])
  {
    acts := Part7();
    Steps8();
    acts := ThenPlain(HIST, acts, Q21, [K3, K2, K1], [3, 2, 1], Enter(2), Q22);
    acts := ThenPlain(HIST, acts, Q22, [K3, K2, K1], [3, 2, 1], Check(2), Q23);
    acts := ThenPlain(HIST, acts, Q23, [K3, K2, K1], [3, 2, 1], Enqueue(2), Q24);
  }

  lemma Part9() returns (acts: seq<Act>)
    ensures Plan(HIST, acts, Q27, [K3, K2, K1], [3, 2, 1])
  {
    acts := Part8();
    Steps9();
    acts := ThenPlain(HIST, acts, Q24, [K3, K2, K1], [3, 2, 1], Pop(2), Q25);
    acts := ThenPlain(HIST, acts, Q25, [K3, K2, K1], [3, 2, 1], Finish(2), Q26);
    acts := ThenPlain(HIST, acts, Q26, [K3, K2, K1], [3, 2, 1], Enter(3), Q27);
  }

  lemma Part10() returns (acts: seq<Act>)
    ensures Plan(HIST, acts, Q30, [K3, K2, K1], [3, 2, 1])
  {
    acts := Part9();
    Steps10();
    acts := ThenPlain(HIST, acts, Q27, [K3, K2, K1], [3, 2, 1], Check(3), Q28);
    acts := ThenPlain(HIST, acts, Q28, [K3, K2, K1], [3, 2, 1], Enqueue(3), Q29);
    acts := ThenPlain(HIST, acts, Q29, [K3, K2, K1], [3, 2, 1], Enter(1), Q30);
  }

  lemma Part11() returns (acts: seq<Act>)
    ensures Plan(HIST, acts, Q33, [K3, K2, K1], [3, 2, 1])
  {
    acts := Part10();
    Steps11();
    acts := ThenPlain(HIST, acts, Q30, [K3, K2, K1], [3, 2, 1], Check(1), Q31);
    acts := ThenAdd(HIST, acts, Q31, [K3, K2, K1], [3, 2, 1], 1, 1, 1, Q32);
    acts := ThenPlain(HIST, acts, Q32, [K3, K2, K1], [3, 2, 1], Bump(1), Q33);
  }

  lemma Part12() returns (acts: seq<Act>)
    ensures Plan(HIST, acts, Q36, [K3, K2, K1], [3, 2, 1])
  {
    acts := Part11();
    Steps12();
    acts := ThenPlain(HIST, acts, Q33, [K3, K2, K1], [3, 2, 1], Pop(3), Q34);
    acts := ThenPlain(HIST, acts, Q34, [K3, K2, K1], [3, 2, 1], Pop(1), Q35);
    acts := ThenPlain(HIST, acts, Q35, [K3, K2, K1], [3, 2, 1], Finish(1), Q36);
  }

  lemma Part13() returns (acts: seq<Act>)
    ensures Plan(HIST, acts, Q37, [K3, K2], [3, 2])
  {
    acts := Part12();
    Steps13();
    acts := ThenLeave(HIST, acts, Q36, [K3, K2, K1], [3, 2, 1], 1, Q37);
    assert [K3, K2, K1][..2] == [K3, K2] && [3, 2, 1][..2] == [3, 2];
  }

  /** The retirement of spill 2 makes key 0.8 unreadable, although it was ingested and never
      deleted. */
  lemma RetirementLosesKey() returns (t0: Tree, steps: seq<TStep>, t: Tree)
    ensures TInit(t0) && SourceRun(t0, steps, t) && TEnabled(t, Ctl(Retire(2)))
    ensures var t' := TNext(t, Ctl(Retire(2)));
      && t.nodes != [] && t'.nodes != []
      && Live(Lookup(t, 0.8)) == Live(HistoryLookup(t, 0.8)) == Some(2)
      && Live(Lookup(t', 0.8)) == None && Live(HistoryLookup(t', 0.8)) == Some(2)
  {
    var acts := Part13();
    var s := Q37;
    PlanIsReached(HIST, acts, s, [K3, K2], [3, 2]);
    t0, steps, t := ReadsAtRetirement(HIST, s, [K3, K2], [3, 2], 2, 0.8);
    KeyReads();
  }

  lemma KeyReads()
    ensures Find([K3, K2], 0.8) == Some(Value(2)) && Find([K3, K2][..1], 0.8) == None
    ensures Find(Past(HIST, 1), 0.8) == None && Find(Past(HIST, 3), 0.8) == Some(Value(2))
  {
    assert [K3, K2][1..] == [K2] && [K3, K2][..1] == [K3];
    assert Past(HIST, 1) == [K1];
    assert Past(HIST, 3) == [K3] + Past(HIST, 2) && Past(HIST, 2) == [K2] + Past(HIST, 1);
  }
}
