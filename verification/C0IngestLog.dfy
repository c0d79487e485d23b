/** What a run of the ingest has recorded: exactly what its clients did, in their order. */
module C0IngestLog {
  import opened Options
  import opened C0Ingest

  // ----- transactions -----

  /** What became of a transaction. */
  datatype Fate = Unborn | Open | Minted(c: nat) | Sealed(c: nat) | Dropped

  function After(f: Fate, st: Step, x: nat): Fate {
    match st
    case Begin(y) => if y == x then Open else f
    case Mint(y, c) => if y == x then Minted(c) else f
    case Publish(y) => if y == x && f.Minted? then Sealed(f.c) else f
    case Abort(y) => if y == x then Dropped else f
    case _ => f
  }

  function FateOf(f: Fate, steps: seq<Step>, x: nat): Fate
    decreases |steps|
  {
    if steps == [] then f else FateOf(After(f, steps[0], x), steps[1..], x)
  }

  ghost predicate HasFate(s: State, x: nat, f: Fate) {
    if f.Unborn? then x !in s.txns
    else
      && x in s.txns
      && match f
         case Open => s.txns[x].Active?
         case Minted(c) => s.txns[x].Committing? && s.txns[x].seqno == c
         case Sealed(c) => s.txns[x].Committed? && s.txns[x].seqno == c
         case Dropped => s.txns[x].Aborted?
  }

  lemma StepFate(s: State, st: Step, x: nat, f: Fate)
    requires HasFate(s, x, f) && Enabled(s, st)
    ensures HasFate(Next(s, st), x, After(f, st, x))
  {
  }

  lemma {:induction false} RunFate(s: State, steps: seq<Step>, s': State, x: nat, f: Fate)
    requires HasFate(s, x, f) && Reaches(s, steps, s')
    ensures HasFate(s', x, FateOf(f, steps, x))
    decreases |steps|
  {
    if steps != [] {
      StepFate(s, steps[0], x, f);
      RunFate(Next(s, steps[0]), steps[1..], s', x, After(f, steps[0], x));
    }
  }

  // ----- values and freezes -----

  function FrozenIn(steps: seq<Step>): seq<nat> {
    if steps == [] then []
    else (if steps[0].Freeze? then [steps[0].f] else []) + FrozenIn(steps[1..])
  }

  function PutBy(v: Option<Val>, n: nat, st: Step, id: nat): Option<Val> {
    match st
    case Put(i, q) => if i == id then Some(Val(n, Ordinal(q))) else v
    case PutTxn(i, x) => if i == id then Some(Val(n, InTxn(x))) else v
    case _ => v
  }

  /** The value with a given id, and the kvmultiset that was active when it was put. */
  function PutIn(v: Option<Val>, n: nat, steps: seq<Step>, id: nat): Option<Val>
    decreases |steps|
  {
    if steps == [] then v
    else PutIn(PutBy(v, n, steps[0], id), if steps[0].Freeze? then n + 1 else n, steps[1..], id)
  }

  ghost predicate HasVal(s: State, id: nat, v: Option<Val>) {
    if v.Some? then id in s.vals && s.vals[id] == v.value else id !in s.vals
  }

  lemma StepVal(s: State, st: Step, id: nat, v: Option<Val>)
    requires HasVal(s, id, v) && Enabled(s, st)
    ensures HasVal(Next(s, st), id, PutBy(v, |s.freezes|, st, id))
  {
  }

  lemma StepFreezes(s: State, st: Step)
    requires Enabled(s, st)
    ensures Next(s, st).freezes == if st.Freeze? then s.freezes + [st.f] else s.freezes
  {
  }

  lemma {:induction false} RunVal(s: State, steps: seq<Step>, s': State, id: nat, v: Option<Val>)
    requires HasVal(s, id, v) && Reaches(s, steps, s')
    ensures HasVal(s', id, PutIn(v, |s.freezes|, steps, id))
    decreases |steps|
  {
    if steps != [] {
      StepVal(s, steps[0], id, v);
      StepFreezes(s, steps[0]);
      RunVal(Next(s, steps[0]), steps[1..], s', id, PutBy(v, |s.freezes|, steps[0], id));
    }
  }

  lemma {:induction false} RunFreezes(s: State, steps: seq<Step>, s': State)
    requires Reaches(s, steps, s')
    ensures s'.freezes == s.freezes + FrozenIn(steps)
    decreases |steps|
  {
    if steps != [] {
      var s1 := Next(s, steps[0]);
      StepFreezes(s, steps[0]);
      RunFreezes(s1, steps[1..], s');
      FreezesJoin(s.freezes, s1.freezes, s'.freezes, steps);
    }
  }

  lemma FreezesJoin(f: seq<nat>, f1: seq<nat>, f': seq<nat>, steps: seq<Step>)
    requires steps != [] && f' == f1 + FrozenIn(steps[1..])
    requires f1 == if steps[0].Freeze? then f + [steps[0].f] else f
    ensures f' == f + FrozenIn(steps)
  {
  }

  /** In every state of every run, each transaction has the fate, and each value the home and
      reference, that the steps of the run gave it, and the freezes are those of the run. */
  lemma RunIsRecorded(s0: State, steps: seq<Step>, s: State, x: nat, id: nat)
    requires Init(s0) && Reaches(s0, steps, s)
    ensures HasFate(s, x, FateOf(Unborn, steps, x))
    ensures HasVal(s, id, PutIn(None, 0, steps, id)) && s.freezes == FrozenIn(steps)
  {
    RunFate(s0, steps, s, x, Unborn);
    RunVal(s0, steps, s, id, None);
    RunFreezes(s0, steps, s);
  }
}
