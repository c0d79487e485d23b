/**
 Sequence numbers across a switch of kvmultisets.

 A put loads the kvdb sequence number, a prefix delete increments it; then, if its
 kvmultiset has been frozen meanwhile, it takes a number from that kvmultiset instead.  The
 switch freezes the old kvmultiset at the next number and skips two for the new one.
 */
module C0SeqnoOrder {
  import opened Options

  /** own is kvms_seqno, set when the kvmultiset is frozen at base. */
  datatype Kvms = Kvms(own: Option<nat>, base: nat, minted: set<nat>)

  /** An operation on its way: the number it has loaded, if any. */
  datatype Op = Op(kvms: nat, ptomb: bool, loaded: Option<nat>)

  /** The last kvmultiset is the active one. */
  datatype State = State(kvdb: nat, sets: seq<Kvms>, ops: map<nat, Op>)

  datatype Step = Start(id: nat, ptomb: bool) | Load(id: nat) | Decide(id: nat) | Install

  predicate Enabled(s: State, st: Step) {
    match st
    case Start(id, ptomb) => s.sets != [] && id !in s.ops
    case Load(id) => id in s.ops && s.ops[id].loaded.None?
    case Decide(id) => id in s.ops && s.ops[id].loaded.Some? && s.ops[id].kvms < |s.sets|
    case Install => s.sets != []
  }

  function DoDecide(s: State, id: nat): State
    requires Enabled(s, Decide(id))
  {
    var op := s.ops[id];
    var k := s.sets[op.kvms];
    var own := if k.own.Some? && op.ptomb then Some(k.own.value + 1) else k.own;
    var seqno := if own.Some? then own.value else op.loaded.value;
    s.(ops := s.ops - {id}, sets := s.sets[op.kvms := k.(own := own, minted := k.minted + {seqno})])
  }

  function Next(s: State, st: Step): State
    requires Enabled(s, st)
  {
    match st
    case Start(id, ptomb) => s.(ops := s.ops[id := Op(|s.sets| - 1, ptomb, None)])
    case Load(id) =>
      var kvdb := if s.ops[id].ptomb then s.kvdb + 1 else s.kvdb;
      s.(kvdb := kvdb, ops := s.ops[id := s.ops[id].(loaded := Some(kvdb))])
    case Decide(id) => DoDecide(s, id)
    case Install =>
      var a, base := |s.sets| - 1, s.kvdb + 1;
      s.(kvdb := base + 2, sets := s.sets[a := s.sets[a].(own := Some(base), base := base)] + [Kvms(None, 0, {})])
  }

  predicate OnActive(s: State, id: nat)
    requires id in s.ops
  {
    s.ops[id].ptomb && s.ops[id].kvms == |s.sets| - 1
  }

  /** At most one prefix delete is under way on the kvmultiset that is being replaced. */
  ghost predicate OneStraggler(s: State) {
    forall id, id' :: id in s.ops && id' in s.ops && OnActive(s, id) && OnActive(s, id') ==> id == id'
  }

  ghost predicate Guarded(s: State, st: Step) {
    st.Install? ==> OneStraggler(s)
  }

  ghost predicate Reaches(s: State, steps: seq<Step>, s': State)
    decreases |steps|
  {
    if steps == [] then s' == s
    else Enabled(s, steps[0]) && Guarded(s, steps[0]) && Reaches(Next(s, steps[0]), steps[1..], s')
  }

  ghost predicate Init(s: State) {
    s.sets == [Kvms(None, 0, {})] && s.ops == map[]
  }

  // ----- the invariant -----

  /** The first number a kvmultiset can use. */
  function Floor(s: State, i: nat): nat
    requires i <= |s.sets|
  {
    if i == 0 then 0 else s.sets[i - 1].base + 2
  }

  ghost predicate SetOk(s: State, i: nat)
    requires i < |s.sets|
  {
    var k := s.sets[i];
    && (k.own.Some? <==> i < |s.sets| - 1)
    && (k.own.Some? ==> Floor(s, i) < k.base <= k.own.value <= k.base + 1 && k.base + 2 <= s.kvdb)
    && (forall n :: n in k.minted ==> Floor(s, i) <= n <= if k.own.Some? then k.own.value else s.kvdb)
  }

  ghost predicate OpOk(s: State, id: nat)
    requires id in s.ops
  {
    var op := s.ops[id];
    && op.kvms < |s.sets|
    && (op.loaded.Some? ==> Floor(s, op.kvms) <= op.loaded.value <= s.kvdb)
    && (op.ptomb && s.sets[op.kvms].own.Some? ==> s.sets[op.kvms].own.value == s.sets[op.kvms].base)
  }

  /** A frozen kvmultiset has at most one prefix delete under way. */
  ghost predicate PairOk(s: State, id: nat, id': nat)
    requires id in s.ops && id' in s.ops
  {
    var op, op' := s.ops[id], s.ops[id'];
    op.ptomb && op'.ptomb && op.kvms == op'.kvms < |s.sets| - 1 ==> id == id'
  }

  ghost predicate Inv(s: State) {
    && s.sets != [] && Floor(s, |s.sets| - 1) <= s.kvdb
    && (forall i :: 0 <= i < |s.sets| ==> SetOk(s, i))
    && (forall id :: id in s.ops ==> OpOk(s, id))
    && (forall id, id' :: id in s.ops && id' in s.ops ==> PairOk(s, id, id'))
  }

  lemma OpStepKeepsInv(s: State, st: Step)
    requires Inv(s) && Enabled(s, st) && (st.Start? || st.Load?)
    ensures Inv(Next(s, st))
  {
    var s' := Next(s, st);
    assert SetOk(s, |s.sets| - 1);
    if st.Load? { assert OpOk(s, st.id); FloorBelow(s, s.ops[st.id].kvms); }
    forall i | 0 <= i < |s'.sets| ensures SetOk(s', i) { assert SetOk(s, i); }
    forall id | id in s'.ops ensures OpOk(s', id) { if id in s.ops { assert OpOk(s, id); } }
    forall id, id' | id in s'.ops && id' in s'.ops ensures PairOk(s', id, id') {
      if id in s.ops && id' in s.ops { assert PairOk(s, id, id'); }
      if id in s.ops { assert OpOk(s, id); }
      if id' in s.ops { assert OpOk(s, id'); }
    }
  }

  lemma FloorBelow(s: State, i: nat)
    requires Inv(s) && i < |s.sets|
    ensures Floor(s, i) <= s.kvdb
  {
    assert i > 0 ==> SetOk(s, i - 1);
  }

  lemma DecideKeepsInv(s: State, id: nat)
    requires Inv(s) && Enabled(s, Decide(id))
    ensures Inv(Next(s, Decide(id)))
  {
    var s' := Next(s, Decide(id));
    assert OpOk(s, id) && SetOk(s, s.ops[id].kvms);
    forall i | 0 <= i < |s'.sets| ensures SetOk(s', i) { assert SetOk(s, i); }
    forall j | j in s'.ops ensures OpOk(s', j) { assert OpOk(s, j) && PairOk(s, id, j); }
    forall j, j' | j in s'.ops && j' in s'.ops ensures PairOk(s', j, j') { assert PairOk(s, j, j'); }
  }

  lemma InstallKeepsInv(s: State)
    requires Inv(s) && OneStraggler(s)
    ensures Inv(Next(s, Install))
  {
    var s', a := Next(s, Install), |s.sets| - 1;
    forall i | 0 <= i < |s'.sets| ensures SetOk(s', i) { if i <= a { assert SetOk(s, i); } }
    forall id | id in s'.ops ensures OpOk(s', id) { assert OpOk(s, id) && SetOk(s, a); }
    forall id, id' | id in s'.ops && id' in s'.ops ensures PairOk(s', id, id') {
      assert PairOk(s, id, id') && OpOk(s, id);
      assert OnActive(s, id) && OnActive(s, id') ==> id == id';
    }
  }

  lemma {:induction false} RunKeepsInv(s: State, steps: seq<Step>, s': State)
    requires Inv(s) && Reaches(s, steps, s')
    ensures Inv(s')
    decreases |steps|
  {
    if steps != [] {
      match steps[0] {
        case Decide(id) => DecideKeepsInv(s, id);
        case Install => InstallKeepsInv(s);
        case _ => OpStepKeepsInv(s, steps[0]);
      }
      RunKeepsInv(Next(s, steps[0]), steps[1..], s');
    }
  }

  // ----- the theorems -----

  lemma {:induction false} FloorsRise(s: State, i: nat, j: nat)
    requires Inv(s) && i < j < |s.sets|
    ensures s.sets[i].base + 2 <= Floor(s, j)
  {
    if i + 1 < j {
      FloorsRise(s, i, j - 1);
      assert SetOk(s, j - 1);
    }
  }

  /** Every number minted for a newer kvmultiset, whenever that happened, is above every
      number minted for an older one. */
  lemma NewerIsAbove(s0: State, steps: seq<Step>, s: State, i: nat, j: nat, a: nat, b: nat)
    requires Init(s0) && Reaches(s0, steps, s) && i < j < |s.sets|
    requires a in s.sets[i].minted && b in s.sets[j].minted
    ensures a < b
  {
    assert SetOk(s0, 0);
    RunKeepsInv(s0, steps, s);
    InvIsOrdered(s);
  }

  // ----- without the guard -----

  /** s' is reached from s by the given steps, guarded or not. */
  ghost predicate Runs(s: State, steps: seq<Step>, s': State)
    decreases |steps|
  {
    if steps == [] then s' == s
    else Enabled(s, steps[0]) && Runs(Next(s, steps[0]), steps[1..], s')
  }

  lemma {:induction false} RunThen(s: State, steps: seq<Step>, s1: State, st: Step)
    requires Runs(s, steps, s1) && Enabled(s1, st)
    ensures Runs(s, steps + [st], Next(s1, st))
    decreases |steps|
  {
    var r := steps + [st];
    if steps == [] {
      assert r == [st] && r[1..] == [];
    } else {
      assert r[0] == steps[0] && r[1..] == steps[1..] + [st];
      RunThen(Next(s, steps[0]), steps[1..], s1, st);
    }
  }

  /** A switch, and then operations only. */
  ghost predicate OneSwitch(steps: seq<Step>) {
    |steps| > 0 && steps[0] == Install && forall i :: 0 < i < |steps| ==> steps[i] != Install
  }

  /** Numbers of a newer kvmultiset are above those of an older one. */
  ghost predicate Ordered(s: State) {
    forall i, j, a, b :: 0 <= i < j < |s.sets| && a in s.sets[i].minted && b in s.sets[j].minted ==> a < b
  }

  /** An operation loads its number, unless it has, and decides. */
  lemma Completed(s0: State, steps: seq<Step>, s: State, id: nat) returns (r: seq<Step>, s': State)
    requires Runs(s0, steps, s) && id in s.ops && s.ops[id].kvms < |s.sets|
    ensures OneSwitch(steps) ==> OneSwitch(r)
    ensures Runs(s0, r, s') && s'.ops == s.ops - {id} && |s'.sets| == |s.sets|
    ensures var k, op := s.sets[s.ops[id].kvms], s.ops[id];
      && (forall i :: 0 <= i < |s.sets| && i != op.kvms ==> s'.sets[i] == s.sets[i])
      && (k.own.Some? ==>
            var n := if op.ptomb then k.own.value + 1 else k.own.value;
            s'.sets[op.kvms].own == Some(n) && s'.sets[op.kvms].minted == k.minted + {n})
      && (k.own.None? && op.loaded.None? && !op.ptomb ==> s'.sets[op.kvms].minted == k.minted + {s.kvdb})
  {
    r, s' := steps, s;
    if s.ops[id].loaded.None? {
      RunThen(s0, r, s', Load(id));
      r, s' := r + [Load(id)], Next(s', Load(id));
    }
    RunThen(s0, r, s', Decide(id));
    r, s' := r + [Decide(id)], Next(s', Decide(id));
  }

  /** Two prefix deletes under way at the switch, loaded or not, are one too many: the second
      can mint the number that a put into the new kvmultiset has. */
  lemma TwoStragglersCollide(s: State, x: nat, y: nat, z: nat) returns (steps: seq<Step>, s': State, n: nat)
    requires s.sets != [] && x in s.ops && y in s.ops && x != y && z !in s.ops && OnActive(s, x) && OnActive(s, y)
    ensures Runs(s, steps, s') && OneSwitch(steps) && |s'.sets| == |s.sets| + 1
    ensures n in s'.sets[|s.sets| - 1].minted && n in s'.sets[|s.sets|].minted
  {
    n := s.kvdb + 3;
    RunThen(s, [], s, Install);
    assert [] + [Install] == [Install];
    var s1 := Next(s, Install);
    RunThen(s, [Install], s1, Start(z, false));
    var s2 := Next(s1, Start(z, false));
    var r3, s3 := Completed(s, [Install] + [Start(z, false)], s2, z);
    var r4, s4 := Completed(s, r3, s3, x);
    steps, s' := Completed(s, r4, s4, y);
  }

  ghost function AboveAll(keys: set<nat>): (m: nat)
    ensures forall k :: k in keys ==> k < m
  {
    if keys == {} then 0
    else
      var k :| k in keys;
      var m := AboveAll(keys - {k});
      assert forall x :: x in keys ==> x == k || x in keys - {k};
      if m <= k then k + 1 else m
  }

  lemma {:induction false} LaterIsGuarded(s: State, steps: seq<Step>, s': State)
    requires Runs(s, steps, s') && forall i :: 0 <= i < |steps| ==> steps[i] != Install
    ensures Reaches(s, steps, s')
    decreases |steps|
  {
    if steps != [] {
      assert forall i :: 0 <= i < |steps[1..]| ==> steps[1..][i] == steps[i + 1];
      LaterIsGuarded(Next(s, steps[0]), steps[1..], s');
    }
  }

  /** From any state reached so far, the next switch keeps the numbers in order, whatever the
      operations do after it, exactly if at most one prefix delete is under way. */
  lemma OrderedIffOneStraggler(s0: State, steps: seq<Step>, s: State)
    requires Init(s0) && Reaches(s0, steps, s)
    ensures OneStraggler(s) <==> forall more, s' :: Runs(s, more, s') && OneSwitch(more) ==> Ordered(s')
  {
    assert SetOk(s0, 0);
    RunKeepsInv(s0, steps, s);
    if OneStraggler(s) {
      forall more, s' | Runs(s, more, s') && OneSwitch(more) ensures Ordered(s') {
        LaterIsGuarded(Next(s, Install), more[1..], s');
        InstallKeepsInv(s);
        RunKeepsInv(Next(s, Install), more[1..], s');
        InvIsOrdered(s');
      }
    } else {
      var x, y :| x in s.ops && y in s.ops && OnActive(s, x) && OnActive(s, y) && x != y;
      var more, s', n := TwoStragglersCollide(s, x, y, AboveAll(s.ops.Keys));
      assert !Ordered(s');
    }
  }

  lemma InvIsOrdered(s: State)
    requires Inv(s)
    ensures Ordered(s)
  {
    forall i, j, a, b | 0 <= i < j < |s.sets| && a in s.sets[i].minted && b in s.sets[j].minted ensures a < b {
      assert SetOk(s, i) && SetOk(s, j);
      FloorsRise(s, i, j);
    }
  }

  /** Such a state is there right from the start: two prefix deletes on their way. */
  lemma StragglersFromStart(s0: State) returns (steps: seq<Step>, s': State)
    requires Init(s0)
    ensures Runs(s0, steps, s') && !Ordered(s')
  {
    RunThen(s0, [], s0, Start(0, true));
    var s1 := Next(s0, Start(0, true));
    RunThen(s0, [] + [Start(0, true)], s1, Start(1, true));
    var s2 := Next(s1, Start(1, true));
    var more, s3, n := TwoStragglersCollide(s2, 0, 1, 2);
    RunsOn(s0, [] + [Start(0, true)] + [Start(1, true)], s2, more, s3);
    steps, s' := [] + [Start(0, true)] + [Start(1, true)] + more, s3;
    assert !Ordered(s');
  }

  lemma {:induction false} RunsOn(s: State, steps: seq<Step>, s1: State, more: seq<Step>, s': State)
    requires Runs(s, steps, s1) && Runs(s1, more, s')
    ensures Runs(s, steps + more, s')
    decreases |steps|
  {
    if steps == [] {
      assert steps + more == more;
    } else {
      assert (steps + more)[0] == steps[0] && (steps + more)[1..] == steps[1..] + more;
      RunsOn(Next(s, steps[0]), steps[1..], s1, more, s');
    }
  }
}
