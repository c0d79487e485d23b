/** The protocol steps of the run in TreeEarlyRetirement. */
module SpillEarlyRetirement {
  import opened SpillProtocol
  import opened SpillRuns

  const Q0: State := S(0, 0, map[], L(0, 0, []), L(0, 0, []))
  const Q1: State := S(0, 1, map[1 := J(-1, Fresh)], L(0, 0, []), L(0, 0, []))
  const Q2: State := S(0, 2, map[1 := J(-1, Fresh), 2 := J(-1, Fresh)], L(0, 0, []), L(0, 0, []))
  const Q3: State := S(0, 3, map[1 := J(-1, Fresh), 2 := J(-1, Fresh), 3 := J(-1, Fresh)], L(0, 0, []), L(0, 0, []))
  const Q4: State := S(0, 3, map[1 := J(-1, Idle), 2 := J(-1, Fresh), 3 := J(-1, Fresh)], L(0, 0, []), L(0, 0, []))
  const Q5: State := S(0, 3, map[1 := J(-1, Idle), 2 := J(-1, Idle), 3 := J(-1, Fresh)], L(0, 0, []), L(0, 0, []))
  const Q6: State := S(0, 3, map[1 := J(-1, Idle), 2 := J(-1, Idle), 3 := J(-1, Idle)], L(0, 0, []), L(0, 0, []))
  const Q7: State := S(0, 3, map[1 := J(0, Building), 2 := J(-1, Idle), 3 := J(-1, Idle)], L(0, 1, []), L(0, 0, []))
  const Q8: State := S(0, 3, map[1 := J(0, Applying(1, false)), 2 := J(-1, Idle), 3 := J(-1, Idle)],
      L(0, 1, []), L(0, 0, []))
  const Q9: State := S(0, 3, map[1 := J(0, Bumping(1, false)), 2 := J(-1, Idle), 3 := J(-1, Idle)],
      L(0, 1, []), L(0, 0, []))
  const Q10: State := S(0, 3, map[1 := J(0, Popping), 2 := J(-1, Idle), 3 := J(-1, Idle)], L(1, 1, []), L(0, 0, []))
  const Q11: State := S(0, 3, map[1 := J(0, Idle), 2 := J(-1, Idle), 3 := J(-1, Idle)], L(1, 1, []), L(0, 0, []))
  const Q12: State := S(0, 3, map[1 := J(0, Idle), 2 := J(0, Building), 3 := J(-1, Idle)], L(1, 2, []), L(0, 0, []))
  const Q13: State := S(0, 3, map[1 := J(0, Idle), 2 := J(0, Applying(2, false)), 3 := J(-1, Idle)],
      L(1, 2, []), L(0, 0, []))
  const Q14: State := S(0, 3, map[1 := J(0, Idle), 2 := J(0, Bumping(2, false)), 3 := J(-1, Idle)],
      L(1, 2, []), L(0, 0, []))
  const Q15: State := S(0, 3, map[1 := J(0, Idle), 2 := J(0, Popping), 3 := J(-1, Idle)], L(2, 2, []), L(0, 0, []))
  const Q16: State := S(0, 3, map[1 := J(0, Idle), 2 := J(0, Idle), 3 := J(-1, Idle)], L(2, 2, []), L(0, 0, []))
  const Q17: State := S(0, 3, map[1 := J(0, Idle), 2 := J(0, Idle), 3 := J(0, Building)], L(2, 3, []), L(0, 0, []))
  const Q18: State := S(0, 3, map[1 := J(0, Idle), 2 := J(0, Idle), 3 := J(0, Applying(3, false))],
      L(2, 3, []), L(0, 0, []))
  const Q19: State := S(0, 3, map[1 := J(0, Idle), 2 := J(0, Idle), 3 := J(0, Bumping(3, false))],
      L(2, 3, []), L(0, 0, []))
  const Q20: State := S(0, 3, map[1 := J(0, Idle), 2 := J(0, Idle), 3 := J(0, Popping)], L(3, 3, []), L(0, 0, []))
  const Q21: State := S(0, 3, map[1 := J(0, Idle), 2 := J(0, Idle), 3 := J(0, Idle)], L(3, 3, []), L(0, 0, []))
  const Q22: State := S(0, 3, map[1 := J(0, Idle), 2 := J(1, Building), 3 := J(0, Idle)], L(3, 2, []), L(0, 1, []))
  const Q23: State := S(0, 3, map[1 := J(0, Idle), 2 := J(1, Enqueueing), 3 := J(0, Idle)], L(3, 2, []), L(0, 1, []))
  const Q24: State := S(0, 3, map[1 := J(0, Idle), 2 := J(1, Popping), 3 := J(0, Idle)], L(3, 2, []), L(0, 2, [2]))
  const Q25: State := S(0, 3, map[1 := J(0, Idle), 2 := J(1, Idle), 3 := J(0, Idle)], L(3, 2, []), L(0, 2, [2]))
  const Q26: State := S(0, 3, map[1 := J(0, Idle), 2 := J(2, Done), 3 := J(0, Idle)], L(3, 2, []), L(0, 1, [2]))
  const Q27: State := S(0, 3, map[1 := J(0, Idle), 2 := J(2, Done), 3 := J(1, Building)], L(3, 1, []), L(0, 2, [2]))
  const Q28: State := S(0, 3, map[1 := J(0, Idle), 2 := J(2, Done), 3 := J(1, Enqueueing)], L(3, 1, []), L(0, 2, [2]))
  const Q29: State := S(0, 3, map[1 := J(0, Idle), 2 := J(2, Done), 3 := J(1, Popping)], L(3, 1, []), L(0, 3, [2, 3]))
  const Q30: State := S(0, 3, map[1 := J(1, Building), 2 := J(2, Done), 3 := J(1, Popping)],
      L(3, 0, []), L(0, 4, [2, 3]))
  const Q31: State := S(0, 3, map[1 := J(1, Applying(1, false)), 2 := J(2, Done), 3 := J(1, Popping)],
      L(3, 0, []), L(0, 4, [2, 3]))
  const Q32: State := S(0, 3, map[1 := J(1, Bumping(1, false)), 2 := J(2, Done), 3 := J(1, Popping)],
      L(3, 0, []), L(0, 4, [2, 3]))
  const Q33: State := S(0, 3, map[1 := J(1, Popping), 2 := J(2, Done), 3 := J(1, Popping)],
      L(3, 0, []), L(1, 4, [2, 3]))
  const Q34: State := S(0, 3, map[1 := J(1, Popping), 2 := J(2, Done), 3 := J(1, Applying(2, true))],
      L(3, 0, []), L(1, 4, [3]))
  const Q35: State := S(0, 3, map[1 := J(1, Idle), 2 := J(2, Done), 3 := J(1, Applying(2, true))],
      L(3, 0, []), L(1, 4, [3]))
  const Q36: State := S(0, 3, map[1 := J(2, Done), 2 := J(2, Done), 3 := J(1, Applying(2, true))],
      L(3, 0, []), L(1, 3, [3]))
  const Q37: State := S(1, 3, map[1 := J(2, Done), 2 := J(2, Done), 3 := J(1, Applying(2, true))],
      L(3, 0, []), L(1, 3, [3]))

  lemma Steps1()
    ensures Moves(Q0, Claim(false), Q1)
    ensures Moves(Q1, Claim(false), Q2)
    ensures Moves(Q2, Claim(false), Q3)
  {
  }

  lemma Steps2()
    ensures Moves(Q3, Begin(1, -1), Q4)
    ensures Moves(Q4, Begin(2, -1), Q5)
    ensures Moves(Q5, Begin(3, -1), Q6)
  {
  }

  lemma Steps3()
    ensures Moves(Q6, Enter(1), Q7)
    ensures Moves(Q7, Check(1), Q8)
    ensures Moves(Q8, Apply(1), Q9)
  {
  }

  lemma Steps4()
    ensures Moves(Q9, Bump(1), Q10)
    ensures Moves(Q10, Pop(1), Q11)
    ensures Moves(Q11, Enter(2), Q12)
  {
  }

  lemma Steps5()
    ensures Moves(Q12, Check(2), Q13)
    ensures Moves(Q13, Apply(2), Q14)
    ensures Moves(Q14, Bump(2), Q15)
  {
  }

  lemma Steps6()
    ensures Moves(Q15, Pop(2), Q16)
    ensures Moves(Q16, Enter(3), Q17)
    ensures Moves(Q17, Check(3), Q18)
  {
  }

  lemma Steps7()
    ensures Moves(Q18, Apply(3), Q19)
    ensures Moves(Q19, Bump(3), Q20)
    ensures Moves(Q20, Pop(3), Q21)
  {
  }

  lemma Steps8()
    ensures Moves(Q21, Enter(2), Q22)
    ensures Moves(Q22, Check(2), Q23)
    ensures Moves(Q23, Enqueue(2), Q24)
  {
    assert InsertSorted([], 2) == [2];
  }

  lemma Steps9()
    ensures Moves(Q24, Pop(2), Q25)
    ensures Moves(Q25, Finish(2), Q26)
    ensures Moves(Q26, Enter(3), Q27)
  {
  }

  lemma Steps10()
    ensures Moves(Q27, Check(3), Q28)
    ensures Moves(Q28, Enqueue(3), Q29)
    ensures Moves(Q29, Enter(1), Q30)
  {
    assert InsertSorted([2], 3) == [2, 3];
  }

  lemma Steps11()
    ensures Moves(Q30, Check(1), Q31)
    ensures Moves(Q31, Apply(1), Q32)
    ensures Moves(Q32, Bump(1), Q33)
  {
  }

  lemma Steps12()
    ensures Moves(Q33, Pop(3), Q34)
    ensures Moves(Q34, Pop(1), Q35)
    ensures Moves(Q35, Finish(1), Q36)
  {
    assert [2, 3][1..] == [3];
  }

  lemma Steps13()
    ensures Moves(Q36, Retire(1), Q37)
  {
  }
}
