/** The protocol steps of the run in TreeStrayRetirement. */
module SpillStrayRetirement {
  import opened SpillProtocol
  import opened SpillRuns

  const Q0: State := S(0, 0, map[], L(0, 0, []), L(0, 0, []))
  const Q1: State := S(0, 1, map[1 := Z(-1, -1, Fresh)], L(0, 0, []), L(0, 0, []))
  const Q2: State := S(0, 1, map[1 := Z(0, -1, Idle)], L(0, 1, []), L(0, 0, []))
  const Q3: State := S(0, 1, map[1 := Z(0, 0, Building)], L(0, 2, []), L(0, 0, []))
  const Q4: State := S(0, 1, map[1 := Z(0, 0, Applying(1, false))], L(0, 2, []), L(0, 0, []))
  const Q5: State := S(0, 1, map[1 := Z(0, 0, Bumping(1, false))], L(0, 2, []), L(0, 0, []))
  const Q6: State := S(0, 1, map[1 := Z(0, 0, Popping)], L(1, 2, []), L(0, 0, []))
  const Q7: State := S(0, 1, map[1 := Z(0, 0, Idle)], L(1, 2, []), L(0, 0, []))
  const Q8: State := S(0, 2, map[1 := Z(0, 0, Idle), 2 := Z(-1, -1, Fresh)], L(1, 2, []), L(0, 0, []))
  const Q9: State := S(0, 2, map[1 := Z(0, 0, Idle), 2 := Z(0, -1, Idle)], L(1, 3, []), L(0, 0, []))
  const Q10: State := S(0, 2, map[1 := Z(0, 0, Idle), 2 := Z(0, 0, Building)], L(1, 4, []), L(0, 0, []))
  const Q11: State := S(0, 2, map[1 := Z(0, 0, Idle), 2 := Z(0, 0, Applying(2, false))], L(1, 4, []), L(0, 0, []))
  const Q12: State := S(0, 2, map[1 := Z(0, 0, Idle), 2 := Z(0, 0, Bumping(2, false))], L(1, 4, []), L(0, 0, []))
  const Q13: State := S(0, 2, map[1 := Z(0, 0, Idle), 2 := Z(0, 0, Popping)], L(2, 4, []), L(0, 0, []))
  const Q14: State := S(0, 2, map[1 := Z(0, 0, Idle), 2 := Z(0, 0, Idle)], L(2, 4, []), L(0, 0, []))
  const Q15: State := S(0, 2, map[1 := Z(0, 0, Idle), 2 := Z(0, 1, Building)], L(2, 3, []), L(0, 1, []))
  const Q16: State := S(0, 2, map[1 := Z(0, 0, Idle), 2 := Z(0, 1, Enqueueing)], L(2, 3, []), L(0, 1, []))
  const Q17: State := S(0, 2, map[1 := Z(0, 0, Idle), 2 := Z(0, 1, Popping)], L(2, 3, []), L(0, 2, [2]))
  const Q18: State := S(0, 2, map[1 := Z(0, 0, Idle), 2 := Z(0, 1, Idle)], L(2, 3, []), L(0, 2, [2]))
  const Q19: State := S(0, 2, map[1 := Z(0, 0, Idle), 2 := Z(0, 2, Done)], L(2, 3, []), L(0, 1, [2]))
  const Q20: State := S(0, 3, map[1 := Z(0, 0, Idle), 2 := Z(0, 2, Done), 3 := Z(-1, -1, Fresh)],
      L(2, 3, []), L(0, 1, [2]))
  const Q21: State := S(0, 3, map[1 := Z(0, 0, Idle), 2 := Z(0, 2, Done), 3 := Z(1, -1, Idle)],
      L(2, 3, []), L(0, 2, [2]))
  const Q22: State := S(0, 3, map[1 := Z(0, 0, Idle), 2 := Z(0, 2, Done), 3 := Z(1, 0, Building)],
      L(2, 4, []), L(0, 2, [2]))
  const Q23: State := S(0, 3, map[1 := Z(0, 0, Idle), 2 := Z(0, 2, Done), 3 := Z(1, 0, Applying(3, false))],
      L(2, 4, []), L(0, 2, [2]))
  const Q24: State := S(0, 3, map[1 := Z(0, 0, Idle), 2 := Z(0, 2, Done), 3 := Z(1, 0, Bumping(3, false))],
      L(2, 4, []), L(0, 2, [2]))
  const Q25: State := S(0, 3, map[1 := Z(0, 0, Idle), 2 := Z(0, 2, Done), 3 := Z(1, 0, Popping)],
      L(3, 4, []), L(0, 2, [2]))
  const Q26: State := S(0, 3, map[1 := Z(0, 0, Idle), 2 := Z(0, 2, Done), 3 := Z(1, 0, Idle)],
      L(3, 4, []), L(0, 2, [2]))
  const Q27: State := S(0, 3, map[1 := Z(0, 0, Idle), 2 := Z(0, 2, Done), 3 := Z(1, 1, Building)],
      L(3, 3, []), L(0, 3, [2]))
  const Q28: State := S(0, 3, map[1 := Z(0, 0, Idle), 2 := Z(0, 2, Done), 3 := Z(1, 1, Enqueueing)],
      L(3, 3, []), L(0, 3, [2]))
  const Q29: State := S(0, 3, map[1 := Z(0, 0, Idle), 2 := Z(0, 2, Done), 3 := Z(1, 1, Popping)],
      L(3, 3, []), L(0, 4, [2, 3]))
  const Q30: State := S(0, 3, map[1 := Z(0, 1, Building), 2 := Z(0, 2, Done), 3 := Z(1, 1, Popping)],
      L(3, 2, []), L(0, 5, [2, 3]))
  const Q31: State := S(0, 3, map[1 := Z(0, 1, Applying(1, false)), 2 := Z(0, 2, Done), 3 := Z(1, 1, Popping)],
      L(3, 2, []), L(0, 5, [2, 3]))
  const Q32: State := S(0, 3, map[1 := Z(0, 1, Bumping(1, false)), 2 := Z(0, 2, Done), 3 := Z(1, 1, Popping)],
      L(3, 2, []), L(0, 5, [2, 3]))
  const Q33: State := S(0, 3, map[1 := Z(0, 1, Popping), 2 := Z(0, 2, Done), 3 := Z(1, 1, Popping)],
      L(3, 2, []), L(1, 5, [2, 3]))
  const Q34: State := S(0, 3, map[1 := Z(0, 1, Popping), 2 := Z(0, 2, Done), 3 := Z(1, 1, Applying(2, true))],
      L(3, 2, []), L(1, 5, [3]))
  const Q35: State := S(0, 3, map[1 := Z(0, 1, Idle), 2 := Z(0, 2, Done), 3 := Z(1, 1, Applying(2, true))],
      L(3, 2, []), L(1, 5, [3]))
  const Q36: State := S(0, 3, map[1 := Z(0, 2, Done), 2 := Z(0, 2, Done), 3 := Z(1, 1, Applying(2, true))],
      L(3, 2, []), L(1, 4, [3]))
  const Q37: State := S(1, 3, map[1 := Z(-1, 2, Done), 2 := Z(0, 2, Done), 3 := Z(1, 1, Applying(2, true))],
      L(3, 1, []), L(1, 4, [3]))
  const Q38: State := S(2, 3, map[1 := Z(-1, 2, Done), 2 := Z(-1, 2, Done), 3 := Z(1, 1, Applying(2, true))],
      L(3, 0, []), L(1, 4, [3]))
  const Q39: State := S(2, 4, map[1 := Z(-1, 2, Done), 2 := Z(-1, 2, Done), 3 := Z(1, 1, Applying(2, true)),
      4 := J(-1, Fresh)], L(3, 0, []), L(1, 4, [3]))
  const Q40: State := S(2, 4, map[1 := Z(-1, 2, Done), 2 := Z(-1, 2, Done), 3 := Z(1, 1, Applying(2, true)),
      4 := J(-1, Idle)], L(3, 0, []), L(1, 4, [3]))
  const Q41: State := S(2, 4, map[1 := Z(-1, 2, Done), 2 := Z(-1, 2, Done), 3 := Z(1, 1, Applying(2, true)),
      4 := J(0, Building)], L(3, 1, []), L(1, 4, [3]))
  const Q42: State := S(2, 4, map[1 := Z(-1, 2, Done), 2 := Z(-1, 2, Done), 3 := Z(1, 1, Applying(2, true)),
      4 := J(0, Applying(4, false))], L(3, 1, []), L(1, 4, [3]))
  const Q43: State := S(2, 4, map[1 := Z(-1, 2, Done), 2 := Z(-1, 2, Done), 3 := Z(1, 1, Applying(2, true)),
      4 := J(0, Bumping(4, false))], L(3, 1, []), L(1, 4, [3]))
  const Q44: State := S(2, 4, map[1 := Z(-1, 2, Done), 2 := Z(-1, 2, Done), 3 := Z(1, 1, Applying(2, true)),
      4 := J(0, Popping)], L(4, 1, []), L(1, 4, [3]))
  const Q45: State := S(2, 4, map[1 := Z(-1, 2, Done), 2 := Z(-1, 2, Done), 3 := Z(1, 1, Applying(2, true)),
      4 := J(0, Idle)], L(4, 1, []), L(1, 4, [3]))
  const Q46: State := S(2, 4, map[1 := Z(-1, 2, Done), 2 := Z(-1, 2, Done), 3 := Z(1, 1, Applying(2, true)),
      4 := J(1, Building)], L(4, 0, []), L(1, 5, [3]))
  const Q47: State := S(2, 4, map[1 := Z(-1, 2, Done), 2 := Z(-1, 2, Done), 3 := Z(1, 1, Applying(2, true)),
      4 := J(1, Enqueueing)], L(4, 0, []), L(1, 5, [3]))
  const Q48: State := S(2, 4, map[1 := Z(-1, 2, Done), 2 := Z(-1, 2, Done), 3 := Z(1, 1, Applying(2, true)),
      4 := J(1, Popping)], L(4, 0, []), L(1, 6, [3, 4]))
  const Q49: State := S(2, 4, map[1 := Z(-1, 2, Done), 2 := Z(-1, 2, Done), 3 := Z(1, 1, Applying(2, true)),
      4 := J(1, Idle)], L(4, 0, []), L(1, 6, [3, 4]))
  const Q50: State := S(2, 4, map[1 := Z(-1, 2, Done), 2 := Z(-1, 2, Done), 3 := Z(1, 1, Applying(2, true)),
      4 := J(2, Done)], L(4, 0, []), L(1, 5, [3, 4]))
  const Q51: State := S(2, 5, map[1 := Z(-1, 2, Done), 2 := Z(-1, 2, Done), 3 := Z(1, 1, Applying(2, true)),
      4 := J(2, Done), 5 := J(-1, Fresh)], L(4, 0, []), L(1, 5, [3, 4]))
  const Q52: State := S(2, 5, map[1 := Z(-1, 2, Done), 2 := Z(-1, 2, Done), 3 := Z(1, 1, Applying(2, true)),
      4 := J(2, Done), 5 := J(-1, Idle)], L(4, 0, []), L(1, 5, [3, 4]))
  const Q53: State := S(2, 5, map[1 := Z(-1, 2, Done), 2 := Z(-1, 2, Done), 3 := Z(1, 1, Applying(2, true)),
      4 := J(2, Done), 5 := J(0, Building)], L(4, 1, []), L(1, 5, [3, 4]))
  const Q54: State := S(2, 5, map[1 := Z(-1, 2, Done), 2 := Z(-1, 2, Done), 3 := Z(1, 1, Applying(2, true)),
      4 := J(2, Done), 5 := J(0, Applying(5, false))], L(4, 1, []), L(1, 5, [3, 4]))
  const Q55: State := S(2, 5, map[1 := Z(-1, 2, Done), 2 := Z(-1, 2, Done), 3 := Z(1, 1, Applying(2, true)),
      4 := J(2, Done), 5 := J(0, Bumping(5, false))], L(4, 1, []), L(1, 5, [3, 4]))
  const Q56: State := S(2, 5, map[1 := Z(-1, 2, Done), 2 := Z(-1, 2, Done), 3 := Z(1, 1, Applying(2, true)),
      4 := J(2, Done), 5 := J(0, Popping)], L(5, 1, []), L(1, 5, [3, 4]))
  const Q57: State := S(2, 5, map[1 := Z(-1, 2, Done), 2 := Z(-1, 2, Done), 3 := Z(1, 1, Applying(2, true)),
      4 := J(2, Done), 5 := J(0, Idle)], L(5, 1, []), L(1, 5, [3, 4]))
  const Q58: State := S(2, 5, map[1 := Z(-1, 2, Done), 2 := Z(-1, 2, Done), 3 := Z(1, 1, Applying(2, true)),
      4 := J(2, Done), 5 := J(1, Building)], L(5, 0, []), L(1, 6, [3, 4]))
  const Q59: State := S(2, 5, map[1 := Z(-1, 2, Done), 2 := Z(-1, 2, Done), 3 := Z(1, 1, Applying(2, true)),
      4 := J(2, Done), 5 := J(1, Enqueueing)], L(5, 0, []), L(1, 6, [3, 4]))
  const Q60: State := S(2, 5, map[1 := Z(-1, 2, Done), 2 := Z(-1, 2, Done), 3 := Z(1, 1, Applying(2, true)),
      4 := J(2, Done), 5 := J(1, Popping)], L(5, 0, []), L(1, 7, [3, 4, 5]))
  const Q61: State := S(2, 5, map[1 := Z(-1, 2, Done), 2 := Z(-1, 2, Done), 3 := Z(1, 1, Bumping(2, true)),
      4 := J(2, Done), 5 := J(1, Popping)], L(5, 0, []), L(1, 7, [3, 4, 5]))
  const Q62: State := S(2, 5, map[1 := Z(-1, 2, Done), 2 := Z(-1, 2, Done), 3 := Z(1, 1, Popping),
      4 := J(2, Done), 5 := J(1, Popping)], L(5, 0, []), L(2, 6, [3, 4, 5]))
  const Q63: State := S(2, 5, map[1 := Z(-1, 2, Done), 2 := Z(-1, 2, Done), 3 := Z(1, 1, Popping),
      4 := J(2, Done), 5 := J(1, Applying(3, true))], L(5, 0, []), L(2, 6, [4, 5]))
  const Q64: State := S(2, 5, map[1 := Z(-1, 2, Done), 2 := Z(-1, 2, Done), 3 := Z(1, 1, Idle),
      4 := J(2, Done), 5 := J(1, Applying(3, true))], L(5, 0, []), L(2, 6, [4, 5]))
  const Q65: State := S(2, 5, map[1 := Z(-1, 2, Done), 2 := Z(-1, 2, Done), 3 := Z(1, 2, Done),
      4 := J(2, Done), 5 := J(1, Applying(3, true))], L(5, 0, []), L(2, 5, [4, 5]))
  const Q66: State := S(3, 5, map[1 := Z(-1, 2, Done), 2 := Z(-1, 2, Done), 3 := Z(-1, 2, Done),
      4 := J(2, Done), 5 := J(1, Applying(3, true))], L(5, 0, []), L(2, 4, [4, 5]))

  lemma Steps1()
    ensures Moves(Q0, Claim(true), Q1)
    ensures Moves(Q1, Begin(1, 0), Q2)
    ensures Moves(Q2, Enter(1), Q3)
  {
  }

  lemma Steps2()
    ensures Moves(Q3, Check(1), Q4)
    ensures Moves(Q4, Apply(1), Q5)
    ensures Moves(Q5, Bump(1), Q6)
  {
  }

  lemma Steps3()
    ensures Moves(Q6, Pop(1), Q7)
    ensures Moves(Q7, Claim(true), Q8)
    ensures Moves(Q8, Begin(2, 0), Q9)
  {
  }

  lemma Steps4()
    ensures Moves(Q9, Enter(2), Q10)
    ensures Moves(Q10, Check(2), Q11)
    ensures Moves(Q11, Apply(2), Q12)
  {
  }

  lemma Steps5()
    ensures Moves(Q12, Bump(2), Q13)
    ensures Moves(Q13, Pop(2), Q14)
    ensures Moves(Q14, Enter(2), Q15)
  {
  }

  lemma Steps6()
    ensures Moves(Q15, Check(2), Q16)
    ensures Moves(Q16, Enqueue(2), Q17)
    ensures Moves(Q17, Pop(2), Q18)
  {
    assert InsertSorted([], 2) == [2];
  }

  lemma Steps7()
    ensures Moves(Q18, Finish(2), Q19)
    ensures Moves(Q19, Claim(true), Q20)
    ensures Moves(Q20, Begin(3, 1), Q21)
  {
  }

  lemma Steps8()
    ensures Moves(Q21, Enter(3), Q22)
    ensures Moves(Q22, Check(3), Q23)
    ensures Moves(Q23, Apply(3), Q24)
  {
  }

  lemma Steps9()
    ensures Moves(Q24, Bump(3), Q25)
    ensures Moves(Q25, Pop(3), Q26)
    ensures Moves(Q26, Enter(3), Q27)
  {
  }

  lemma Steps10()
    ensures Moves(Q27, Check(3), Q28)
    ensures Moves(Q28, Enqueue(3), Q29)
    ensures Moves(Q29, Enter(1), Q30)
  {
    assert InsertSorted([2], 3) == [2, 3];
  }

  lemma Steps11()
    ensures Moves(Q30, Check(1), Q31)
    ensures Moves(Q31, Apply(1), Q32)
    ensures Moves(Q32, Bump(1), Q33)
  {
  }

  lemma Steps12()
    ensures Moves(Q33, Pop(3), Q34)
    ensures Moves(Q34, Pop(1), Q35)
    ensures Moves(Q35, Finish(1), Q36)
  {
    assert [2, 3][1..] == [3];
  }

  lemma Steps13()
    ensures Moves(Q36, Retire(1), Q37)
    ensures Moves(Q37, Retire(2), Q38)
    ensures Moves(Q38, Claim(false), Q39)
  {
  }

  lemma Steps14()
    ensures Moves(Q39, Begin(4, -1), Q40)
    ensures Moves(Q40, Enter(4), Q41)
    ensures Moves(Q41, Check(4), Q42)
  {
  }

  lemma Steps15()
    ensures Moves(Q42, Apply(4), Q43)
    ensures Moves(Q43, Bump(4), Q44)
    ensures Moves(Q44, Pop(4), Q45)
  {
  }

  lemma Steps16()
    ensures Moves(Q45, Enter(4), Q46)
    ensures Moves(Q46, Check(4), Q47)
    ensures Moves(Q47, Enqueue(4), Q48)
  {
    assert InsertSorted([3], 4) == [3, 4];
  }

  lemma Steps17()
    ensures Moves(Q48, Pop(4), Q49)
    ensures Moves(Q49, Finish(4), Q50)
    ensures Moves(Q50, Claim(false), Q51)
  {
  }

  lemma Steps18()
    ensures Moves(Q51, Begin(5, -1), Q52)
    ensures Moves(Q52, Enter(5), Q53)
    ensures Moves(Q53, Check(5), Q54)
  {
  }

  lemma Steps19()
    ensures Moves(Q54, Apply(5), Q55)
    ensures Moves(Q55, Bump(5), Q56)
    ensures Moves(Q56, Pop(5), Q57)
  {
  }

  lemma Steps20()
    ensures Moves(Q57, Enter(5), Q58)
    ensures Moves(Q58, Check(5), Q59)
    ensures Moves(Q59, Enqueue(5), Q60)
  {
    assert InsertSorted([3, 4], 5) == [3, 4, 5];
  }

  lemma Steps21()
    ensures Moves(Q60, Apply(3), Q61)
    ensures Moves(Q61, Bump(3), Q62)
    ensures Moves(Q62, Pop(5), Q63)
  {
    assert [3, 4, 5][1..] == [4, 5];
  }

  lemma Steps22()
    ensures Moves(Q63, Pop(3), Q64)
    ensures Moves(Q64, Finish(3), Q65)
    ensures Moves(Q65, Retire(3), Q66)
  {
  }
}
