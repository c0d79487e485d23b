/**
 Replacing the active kvmultiset.

 Any number of callers may want to replace the kvmultiset they found active.  One of them
 leads; the others wait or find that the kvmultiset has been replaced for them.  The leader
 installs the new kvmultiset, if the active one is still the one it found, and only then
 announces its generation.
 */
module C0Switch {
  /** A caller with the kvmultiset it found, and what it is about to do; a result is 0, EAGAIN
      or the failure to create a kvmultiset. */
  datatype Caller =
    | Waiting(found: nat)
    | Leading(found: nat)
    | Creating(found: nat)
    | Installing(found: nat)
    | Announcing(found: nat, gen: nat)
    | Resigning(found: nat, result: Result)
    | Returned(found: nat, result: Result)

  datatype Result = Done | Eagain | Failed

  /** active is the generation of the active kvmultiset, announced the last one announced (0
      at first); led tells whether somebody leads. */
  datatype State = State(active: nat, announced: nat, led: bool, callers: map<nat, Caller>)

  datatype Step =
    | Find(id: nat)
    | Give(id: nat)
    | Lead(id: nat)
    | Recheck(id: nat)
    | Create(id: nat, ok: bool)
    | Install(id: nat)
    | Announce(id: nat)
    | Resign(id: nat)

  predicate Enabled(s: State, st: Step) {
    match st
    case Find(id) => id !in s.callers
    case Give(id) => id in s.callers && s.callers[id].Waiting? && s.callers[id].found < s.announced
    case Lead(id) => id in s.callers && s.callers[id].Waiting? && !s.led
    case Recheck(id) => id in s.callers && s.callers[id].Leading?
    case Create(id, ok) => id in s.callers && s.callers[id].Creating?
    case Install(id) => id in s.callers && s.callers[id].Installing?
    case Announce(id) => id in s.callers && s.callers[id].Announcing?
    case Resign(id) => id in s.callers && s.callers[id].Resigning?
  }

  function Next(s: State, st: Step): State
    requires Enabled(s, st)
  {
    match st
    case Find(id) => Set(s, id, Waiting(s.active))
    case Give(id) => Set(s, id, Returned(s.callers[id].found, Done))
    case Lead(id) => Set(s, id, Leading(s.callers[id].found)).(led := true)
    case Recheck(id) =>
      var f := s.callers[id].found;
      Set(s, id, if f < s.announced then Resigning(f, Done) else Creating(f))
    case Create(id, ok) =>
      var f := s.callers[id].found;
      Set(s, id, if ok then Installing(f) else Resigning(f, Failed))
    case Install(id) =>
      var f := s.callers[id].found;
      if s.active == f then Set(s, id, Announcing(f, f + 1)).(active := f + 1)
      else Set(s, id, Resigning(f, Eagain))
    case Announce(id) =>
      Set(s, id, Resigning(s.callers[id].found, Done)).(announced := s.callers[id].gen)
    case Resign(id) =>
      Set(s, id, Returned(s.callers[id].found, s.callers[id].result)).(led := false)
  }

  function Set(s: State, id: nat, c: Caller): State {
    s.(callers := s.callers[id := c])
  }

  ghost predicate Init(s: State) {
    s.active == 1 && s.announced == 0 && !s.led && s.callers == map[]
  }

  ghost predicate Reaches(s: State, steps: seq<Step>, s': State)
    decreases |steps|
  {
    if steps == [] then s' == s
    else Enabled(s, steps[0]) && Reaches(Next(s, steps[0]), steps[1..], s')
  }

  // ----- the invariant -----

  predicate Leads(c: Caller) {
    c.Leading? || c.Creating? || c.Installing? || c.Announcing? || c.Resigning?
  }

  /** Every generation but the first is announced, unless its leader is about to. */
  ghost predicate CallerOk(s: State, id: nat)
    requires id in s.callers
  {
    var c := s.callers[id];
    && 1 <= c.found <= s.active && (Leads(c) ==> s.led)
    && (c.Creating? || c.Installing? ==> c.found == s.active)
    && (c.Announcing? ==> c.found < c.gen == s.active)
    && (c.Leading? || c.Creating? || c.Installing? || c.Resigning? ==> Announced(s))
    && (c.Resigning? || c.Returned? ==> c.result != Eagain)
    && ((c.Resigning? || c.Returned?) && c.result == Done ==> c.found < s.active)
  }

  predicate Announced(s: State) {
    s.announced == s.active || (s.active == 1 && s.announced == 0)
  }

  ghost predicate Inv(s: State) {
    && 1 <= s.active && s.announced <= s.active && (!s.led ==> Announced(s))
    && (forall id :: id in s.callers ==> CallerOk(s, id))
    && (forall id, id' :: id in s.callers && id' in s.callers && Leads(s.callers[id]) && Leads(s.callers[id']) ==>
          id == id')
  }

  lemma StepKeepsInv(s: State, st: Step)
    requires Inv(s) && Enabled(s, st)
    ensures Inv(Next(s, st))
  {
    var s' := Next(s, st);
    if st.id in s.callers { assert CallerOk(s, st.id); }
    forall id | id in s'.callers ensures CallerOk(s', id) {
      if id != st.id {
        assert CallerOk(s, id);
        assert st.id in s.callers && Leads(s.callers[st.id]) ==> !Leads(s.callers[id]);
      }
    }
  }

  lemma {:induction false} RunKeepsInv(s: State, steps: seq<Step>, s': State)
    requires Inv(s) && Reaches(s, steps, s')
    ensures Inv(s')
    decreases |steps|
  {
    if steps != [] {
      StepKeepsInv(s, steps[0]);
      RunKeepsInv(Next(s, steps[0]), steps[1..], s');
    }
  }

  // ----- the theorems -----

  /** The leader always finds the active kvmultiset to be the one it set out to replace: the
      installation never loses a race. */
  lemma InstallFindsActive(s0: State, steps: seq<Step>, s: State, id: nat)
    requires Init(s0) && Reaches(s0, steps, s) && Enabled(s, Install(id))
    ensures s.active == s.callers[id].found
  {
    RunKeepsInv(s0, steps, s);
    assert CallerOk(s, id);
  }

  /** So nobody is ever told to try again, and whoever returns without error has had its
      kvmultiset replaced, by itself or another. */
  lemma ReturnsAfterSwitch(s0: State, steps: seq<Step>, s: State, id: nat)
    requires Init(s0) && Reaches(s0, steps, s) && id in s.callers && s.callers[id].Returned?
    ensures s.callers[id].result != Eagain
    ensures s.callers[id].result == Done ==> s.callers[id].found < s.active
  {
    RunKeepsInv(s0, steps, s);
    assert CallerOk(s, id);
  }
}
