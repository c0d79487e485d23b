/**
 A run in which a retiring spill deletes the kvset of another.

 Two leaves, five spills.  Zspills 1 and 2 move their kvsets to the left leaf, so the root is
 empty when zspill 3 is claimed for the right leaf: none of its kvsets is left, but zspill 1
 is still on its way.  Zspill 3 overtakes it and queues its move at the right leaf.  Spill 5
 later pops that move, and zspill 3 retires while its kvset is still in the root.  Then
 spill 4 retires and finds that kvset, not its own, at the old end of the root.
 */
module TreeStrayRetirement {
  import opened Options
  import opened Kvsets
  import opened SpillProtocol
  import opened TreeContents
  import opened TreeInvariant
  import opened TreeTheorems
  import opened TreeRuns
  import opened SpillStrayRetirement

  const HIST: seq<Data> := [
    map[0.1 := Value(1)],
    map[0.2 := Value(2)],
    map[0.9 := Value(3)],
    map[0.3 := Value(4), 0.8 := Value(4)],
    map[0.4 := Value(5), 0.7 := Value(5)]]

  const K1: Kvset := Kvset(1, 1, HIST[0])
  const K2: Kvset := Kvset(2, 2, HIST[1])
  const K3: Kvset := Kvset(3, 3, HIST[2])
  const K4: Kvset := Kvset(4, 4, HIST[3])
  const K5: Kvset := Kvset(5, 5, HIST[4])

  /** Ingests 1 and 2 lie in the left leaf, ingest 3 in the right one, 4 and 5 in neither. */
  lemma Places(i: int)
    requires 0 <= i < 5
    ensures In(HIST[i], 0) <==> i < 2
    ensures In(HIST[i], 1) <==> i == 2
  {
    assert 0.1 in HIST[0] && 0.2 in HIST[1] && 0.9 in HIST[2];
    assert 0.3 in HIST[3] && 0.8 in HIST[3] && 0.4 in HIST[4] && 0.7 in HIST[4];
  }

  // ----- the run -----

  lemma Part1() returns (acts: seq<Act>)
    ensures Plan(HIST, acts, Q3, [K1], [1])
  {
    NoPlan(HIST);
    acts := [];
    Steps1();
    Places(0);
    acts := ThenLaunch(HIST, acts, Q0, [], [], true, Q1);
    assert [K1] + [] == [K1] && [1] + [] == [1];
    Places(0);
    acts := ThenPin(HIST, acts, Q1, [K1], [1], 1, 0, Q2);
    acts := ThenPlain(HIST, acts, Q2, [K1], [1], Enter(1), Q3);
  }

  lemma Part2() returns (acts: seq<Act>)
    ensures Plan(HIST, acts, Q6, [], [])
  {
    acts := Part1();
    Steps2();
    acts := ThenPlain(HIST, acts, Q3, [K1], [1], Check(1), Q4);
    acts := ThenMove(HIST, acts, Q4, [K1], 1, 1, 0, Q5);
    acts := ThenPlain(HIST, acts, Q5, [], [], Bump(1), Q6);
  }

  lemma Part3() returns (acts: seq<Act>)
    ensures Plan(HIST, acts, Q9, [K2], [2])
  {
    acts := Part2();
    Steps3();
    acts := ThenPlain(HIST, acts, Q6, [], [], Pop(1), Q7);
    Places(1);
    acts := ThenLaunch(HIST, acts, Q7, [], [], true, Q8);
    assert [K2] + [] == [K2] && [2] + [] == [2];
    Places(1);
    acts := ThenPin(HIST, acts, Q8, [K2], [2], 2, 0, Q9);
  }

  lemma Part4() returns (acts: seq<Act>)
    ensures Plan(HIST, acts, Q12, [], [])
  {
    acts := Part3();
    Steps4();
    acts := ThenPlain(HIST, acts, Q9, [K2], [2], Enter(2), Q10);
    acts := ThenPlain(HIST, acts, Q10, [K2], [2], Check(2), Q11);
    acts := ThenMove(HIST, acts, Q11, [K2], 2, 2, 0, Q12);
  }

  lemma Part5() returns (acts: seq<Act>)
    ensures Plan(HIST, acts, Q15, [], [])
  {
    acts := Part4();
    Steps5();
    acts := ThenPlain(HIST, acts, Q12, [], [], Bump(2), Q13);
    acts := ThenPlain(HIST, acts, Q13, [], [], Pop(2), Q14);
    acts := ThenPlain(HIST, acts, Q14, [], [], Enter(2), Q15);
  }

  lemma Part6() returns (acts: seq<Act>)
    ensures Plan(HIST, acts, Q18, [], [])
  {
    acts := Part5();
    Steps6();
    acts := ThenPlain(HIST, acts, Q15, [], [], Check(2), Q16);
    acts := ThenPlain(HIST, acts, Q16, [], [], Enqueue(2), Q17);
    acts := ThenPlain(HIST, acts, Q17, [], [], Pop(2), Q18);
  }

  lemma Part7() returns (acts: seq<Act>)
    ensures Plan(HIST, acts, Q21, [K3], [3])
  {
    acts := Part6();
    Steps7();
    acts := ThenPlain(HIST, acts, Q18, [], [], Finish(2), Q19);
    Places(2);
    acts := ThenLaunch(HIST, acts, Q19, [], [], true, Q20);
    assert [K3] + [] == [K3] && [3] + [] == [3];
    Places(2);
    acts := ThenPin(HIST, acts, Q20, [K3], [3], 3, 1, Q21);
  }

  lemma Part8() returns (acts: seq<Act>)
    ensures Plan(HIST, acts, Q24, [K3], [3])
  {
    acts := Part7();
    Steps8();
    acts := ThenPlain(HIST, acts, Q21, [K3], [3], Enter(3), Q22);
    acts := ThenPlain(HIST, acts, Q22, [K3], [3], Check(3), Q23);
    acts := ThenAdd(HIST, acts, Q23, [K3], [3], 3, 3, 0, Q24);
  }

  lemma Part9() returns (acts: seq<Act>)
    ensures Plan(HIST, acts, Q27, [K3], [3])
  {
    acts := Part8();
    Steps9();
    acts := ThenPlain(HIST, acts, Q24, [K3], [3], Bump(3), Q25);
    acts := ThenPlain(HIST, acts, Q25, [K3], [3], Pop(3), Q26);
    acts := ThenPlain(HIST, acts, Q26, [K3], [3], Enter(3), Q27);
  }

  lemma Part10() returns (acts: seq<Act>)
    ensures Plan(HIST, acts, Q30, [K3], [3])
  {
    acts := Part9();
    Steps10();
    acts := ThenPlain(HIST, acts, Q27, [K3], [3], Check(3), Q28);
    acts := ThenPlain(HIST, acts, Q28, [K3], [3], Enqueue(3), Q29);
    acts := ThenPlain(HIST, acts, Q29, [K3], [3], Enter(1), Q30);
  }

  lemma Part11() returns (acts: seq<Act>)
    ensures Plan(HIST, acts, Q33, [K3], [3])
  {
    acts := Part10();
    Steps11();
    acts := ThenPlain(HIST, acts, Q30, [K3], [3], Check(1), Q31);
    acts := ThenAdd(HIST, acts, Q31, [K3], [3], 1, 1, 1, Q32);
    acts := ThenPlain(HIST, acts, Q32, [K3], [3], Bump(1), Q33);
  }

  lemma Part12() returns (acts: seq<Act>)
    ensures Plan(HIST, acts, Q36, [K3], [3])
  {
    acts := Part11();
    Steps12();
    acts := ThenPlain(HIST, acts, Q33, [K3], [3], Pop(3), Q34);
    acts := ThenPlain(HIST, acts, Q34, [K3], [3], Pop(1), Q35);
    acts := ThenPlain(HIST, acts, Q35, [K3], [3], Finish(1), Q36);
  }

  lemma Part13() returns (acts: seq<Act>)
    ensures Plan(HIST, acts, Q39, [K4, K3], [4, 3])
  {
    acts := Part12();
    Steps13();
    acts := ThenLeave(HIST, acts, Q36, [K3], [3], 1, Q37);
    acts := ThenLeave(HIST, acts, Q37, [K3], [3], 2, Q38);
    Places(3);
    acts := ThenLaunch(HIST, acts, Q38, [K3], [3], false, Q39);
    assert [K4] + [K3] == [K4, K3] && [4] + [3] == [4, 3];
  }

  lemma Part14() returns (acts: seq<Act>)
    ensures Plan(HIST, acts, Q42, [K4, K3], [4, 3])
  {
    acts := Part13();
    Steps14();
    acts := ThenPlain(HIST, acts, Q39, [K4, K3], [4, 3], Begin(4, -1), Q40);
    acts := ThenPlain(HIST, acts, Q40, [K4, K3], [4, 3], Enter(4), Q41);
    acts := ThenPlain(HIST, acts, Q41, [K4, K3], [4, 3], Check(4), Q42);
  }

  lemma Part15() returns (acts: seq<Act>)
    ensures Plan(HIST, acts, Q45, [K4, K3], [4, 3])
  {
    acts := Part14();
    Steps15();
    acts := ThenAdd(HIST, acts, Q42, [K4, K3], [4, 3], 4, 4, 0, Q43);
    acts := ThenPlain(HIST, acts, Q43, [K4, K3], [4, 3], Bump(4), Q44);
    acts := ThenPlain(HIST, acts, Q44, [K4, K3], [4, 3], Pop(4), Q45);
  }

  lemma Part16() returns (acts: seq<Act>)
    ensures Plan(HIST, acts, Q48, [K4, K3], [4, 3])
  {
    acts := Part15();
    Steps16();
    acts := ThenPlain(HIST, acts, Q45, [K4, K3], [4, 3], Enter(4), Q46);
    acts := ThenPlain(HIST, acts, Q46, [K4, K3], [4, 3], Check(4), Q47);
    acts := ThenPlain(HIST, acts, Q47, [K4, K3], [4, 3], Enqueue(4), Q48);
  }

  lemma Part17() returns (acts: seq<Act>)
    ensures Plan(HIST, acts, Q51, [K5, K4, K3], [5, 4, 3])
  {
    acts := Part16();
    Steps17();
    acts := ThenPlain(HIST, acts, Q48, [K4, K3], [4, 3], Pop(4), Q49);
    acts := ThenPlain(HIST, acts, Q49, [K4, K3], [4, 3], Finish(4), Q50);
    Places(4);
    acts := ThenLaunch(HIST, acts, Q50, [K4, K3], [4, 3], false, Q51);
    assert [K5] + [K4, K3] == [K5, K4, K3] && [5] + [4, 3] == [5, 4, 3];
  }

  lemma Part18() returns (acts: seq<Act>)
    ensures Plan(HIST, acts, Q54, [K5, K4, K3], [5, 4, 3])
  {
    acts := Part17();
    Steps18();
    acts := ThenPlain(HIST, acts, Q51, [K5, K4, K3], [5, 4, 3], Begin(5, -1), Q52);
    acts := ThenPlain(HIST, acts, Q52, [K5, K4, K3], [5, 4, 3], Enter(5), Q53);
    acts := ThenPlain(HIST, acts, Q53, [K5, K4, K3], [5, 4, 3], Check(5), Q54);
  }

  lemma Part19() returns (acts: seq<Act>)
    ensures Plan(HIST, acts, Q57, [K5, K4, K3], [5, 4, 3])
  {
    acts := Part18();
    Steps19();
    acts := ThenAdd(HIST, acts, Q54, [K5, K4, K3], [5, 4, 3], 5, 5, 0, Q55);
    acts := ThenPlain(HIST, acts, Q55, [K5, K4, K3], [5, 4, 3], Bump(5), Q56);
    acts := ThenPlain(HIST, acts, Q56, [K5, K4, K3], [5, 4, 3], Pop(5), Q57);
  }

  lemma Part20() returns (acts: seq<Act>)
    ensures Plan(HIST, acts, Q60, [K5, K4, K3], [5, 4, 3])
  {
    acts := Part19();
    Steps20();
    acts := ThenPlain(HIST, acts, Q57, [K5, K4, K3], [5, 4, 3], Enter(5), Q58);
    acts := ThenPlain(HIST, acts, Q58, [K5, K4, K3], [5, 4, 3], Check(5), Q59);
    acts := ThenPlain(HIST, acts, Q59, [K5, K4, K3], [5, 4, 3], Enqueue(5), Q60);
  }

  lemma Part21() returns (acts: seq<Act>)
    ensures Plan(HIST, acts, Q63, [K5, K4, K3], [5, 4, 3])
  {
    acts := Part20();
    Steps21();
    Places(1);
    acts := ThenAdd(HIST, acts, Q60, [K5, K4, K3], [5, 4, 3], 3, 2, 1, Q61);
    acts := ThenPlain(HIST, acts, Q61, [K5, K4, K3], [5, 4, 3], Bump(3), Q62);
    acts := ThenPlain(HIST, acts, Q62, [K5, K4, K3], [5, 4, 3], Pop(5), Q63);
  }

  lemma Part22() returns (acts: seq<Act>)
    ensures Plan(HIST, acts, Q66, [K5, K4, K3], [5, 4, 3])
  {
    acts := Part21();
    Steps22();
    acts := ThenPlain(HIST, acts, Q63, [K5, K4, K3], [5, 4, 3], Pop(3), Q64);
    acts := ThenPlain(HIST, acts, Q64, [K5, K4, K3], [5, 4, 3], Finish(3), Q65);
    acts := ThenLeave(HIST, acts, Q65, [K5, K4, K3], [5, 4, 3], 3, Q66);
  }

  /** Spill 4 finds the kvset of spill 3 at the old end of the root, not its own, and its
      retirement makes key 0.9 unreadable. */
  lemma RetirementFindsStray() returns (t0: Tree, steps: seq<TStep>, t: Tree)
    ensures TInit(t0) && SourceRun(t0, steps, t) && TEnabled(t, Ctl(Retire(4)))
    ensures t.ctl.jobs[4].pin == -1 && t.jobs[4].inputs == [K4]
    ensures t.root == [K5, K4, K3] && t.work == [5, 4, 3]
    ensures var t' := TNext(t, Ctl(Retire(4)));
      && t.nodes != [] && t'.nodes != [] && t'.root == [K5, K4] && t'.work == [5, 4]
      && Live(Lookup(t, 0.9)) == Live(HistoryLookup(t, 0.9)) == Some(3)
      && Live(Lookup(t', 0.9)) == None && Live(HistoryLookup(t', 0.9)) == Some(3)
  {
    var acts := Part22();
    var s := Q66;
    PlanIsReached(HIST, acts, s, [K5, K4, K3], [5, 4, 3]);
    t0, steps, t := ReadsAtRetirement(HIST, s, [K5, K4, K3], [5, 4, 3], 4, 0.9);
    KeyReads();
    assert [5, 4, 3][..2] == [5, 4];
  }

  lemma KeyReads()
    ensures [K5, K4, K3][..2] == [K5, K4]
    ensures Find([K5, K4, K3], 0.9) == Some(Value(3)) && Find([K5, K4], 0.9) == None
    ensures Find(Past(HIST, 2), 0.9) == None && Find(Past(HIST, 5), 0.9) == Some(Value(3))
  {
    assert [K5, K4, K3][1..] == [K4, K3] && [K4, K3][1..] == [K3] && [K5, K4][1..] == [K4] && [K4][1..] == [];
    assert Find([K3], 0.9) == Some(Value(3)) && Find([K4, K3], 0.9) == Some(Value(3)) && Find([K4], 0.9) == None;
    assert Past(HIST, 1) == [K1] && Past(HIST, 2) == [K2] + Past(HIST, 1) && Past(HIST, 3) == [K3] + Past(HIST, 2);
    FindConcat([K2], Past(HIST, 1), 0.9);
    FindConcat([K3], Past(HIST, 2), 0.9);
    FindConcat([K4], Past(HIST, 3), 0.9);
    FindConcat([K5], Past(HIST, 4), 0.9);
  }
}
