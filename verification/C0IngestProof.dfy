/** Every step of the ingest keeps its invariant. */
module C0IngestProof {
  import opened C0Ingest

  lemma FreezesGrow(s: State, i: nat, j: nat)
    requires Shape(s) && i <= j < |s.freezes|
    ensures Min(s, i) <= s.freezes[i] <= s.freezes[j] && s.freezes[i] <= s.counter && s.base <= s.freezes[i]
    ensures i < j ==> s.freezes[i] <= Min(s, j)
    decreases j
  {
    if i < j {
      FreezesGrow(s, i, j - 1);
      assert Min(s, j) == s.freezes[j - 1];
    } else if 0 < i {
      FreezesGrow(s, i - 1, i - 1);
    }
  }

  // ----- clients -----

  /** A new value: no worker has it, and its kvmultiset is not frozen. */
  ghost predicate Adds(s: State, s': State, id: nat) {
    && id !in s.vals && id in s'.vals && s'.vals == s.vals[id := s'.vals[id]] && s'.vals[id].home == |s.freezes|
    && s' == s.(vals := s'.vals, txns := s'.txns, counter := s'.counter) && s.counter <= s'.counter
    && (forall x :: x in s.txns ==> x in s'.txns)
    && (forall x :: x in s.txns && !s.txns[x].Active? ==> s'.txns[x] == s.txns[x])
    && (forall x :: x in s.txns && s.txns[x].Active? ==> s'.txns[x].Active? && s.txns[x].cgen <= s'.txns[x].cgen)
  }

  lemma AddWork(s: State, s': State, id: nat, i: nat, v: nat)
    requires Shape(s) && Known(s) && Adds(s, s', id) && i < |s.workers| && v in s'.vals
    requires v != id ==> ValOk(s, v) && WorkOk(s, i, v)
    ensures WorkOk(s', i, v)
  {
  }

  lemma AddVal(s: State, s': State, id: nat, v: nat)
    requires Shape(s) && Known(s) && Adds(s, s', id) && v in s.vals && ValOk(s, v) && LcOk(s, v)
    ensures ValOk(s', v) && LcOk(s', v)
  {
  }

  lemma AddKeepsInv(s: State, s': State, id: nat)
    requires Inv(s) && Adds(s, s', id) && ValOk(s', id)
    requires forall x :: x in s'.txns ==> TxnOk(s', x)
    ensures Inv(s')
  {
    forall i, v | 0 <= i < |s'.workers| && v in s'.vals ensures WorkOk(s', i, v) { AddWork(s, s', id, i, v); }
    forall v | v in s'.vals ensures ValOk(s', v) && LcOk(s', v) { if v != id { AddVal(s, s', id, v); } }
    forall i | 0 <= i < |s'.workers| ensures WorkerShape(s', i) { assert WorkerShape(s, i); }
  }

  lemma PutKeepsInv(s: State, id: nat, q: nat)
    requires Inv(s) && Enabled(s, Put(id, q))
    ensures Inv(Next(s, Put(id, q)))
  {
    var s' := Next(s, Put(id, q));
    forall x | x in s'.txns ensures TxnOk(s', x) { assert TxnOk(s, x); }
    AddKeepsInv(s, s', id);
  }

  lemma PutTxnKeepsInv(s: State, id: nat, x: nat)
    requires Inv(s) && Enabled(s, PutTxn(id, x))
    ensures Inv(Next(s, PutTxn(id, x)))
  {
    var s' := Next(s, PutTxn(id, x));
    forall y | y in s'.txns ensures TxnOk(s', y) { assert TxnOk(s, y); }
    AddKeepsInv(s, s', id);
  }

  /** Steps that change one transaction and none of its values' standing. */
  ghost predicate TxnStep(s: State, s': State, x: nat) {
    && x in s'.txns && s' == s.(txns := s.txns[x := s'.txns[x]], counter := s'.counter) && s.counter <= s'.counter
    && (x in s.txns ==> !s.txns[x].Committed? && !s.txns[x].Aborted?)
    && (s'.txns[x].Committed? ==>
          s.txns.Keys == s'.txns.Keys && s.txns[x] == Committing(s'.txns[x].seqno, s'.txns[x].cgen))
    && (x in s.txns && !s'.txns[x].Aborted? ==> s'.txns[x].cgen == s.txns[x].cgen)
  }

  lemma TxnStepWork(s: State, s': State, x: nat, i: nat, id: nat)
    requires Shape(s) && TxnStep(s, s', x) && i < |s.workers| && id in s.vals && ValOk(s, id) && WorkOk(s, i, id)
    requires x in s.txns ==> TxnOk(s, x)
    requires forall j :: 0 <= j < |s.workers| ==> WorkerShape(s, j)
    ensures WorkOk(s', i, id)
  {
    var k := s.vals[id].home;
    if k < i && s.workers[i].Scanning? { assert WorkerShape(s, k) && WorkerShape(s, i); }
  }

  lemma TxnStepKeepsInv(s: State, s': State, x: nat)
    requires Inv(s) && TxnStep(s, s', x) && TxnOk(s', x)
    ensures Inv(s')
  {
    if x in s.txns { assert TxnOk(s, x); }
    forall i, id | 0 <= i < |s'.workers| && id in s'.vals ensures WorkOk(s', i, id) {
      TxnStepWork(s, s', x, i, id);
    }
    forall id | id in s'.vals ensures ValOk(s', id) && LcOk(s', id) {
      assert ValOk(s, id) && LcOk(s, id);
      if s.vals[id].home < |s.workers| { assert WorkerShape(s, s.vals[id].home); }
    }
    forall y | y in s'.txns ensures TxnOk(s', y) { if y != x { assert TxnOk(s, y); } }
    forall i | 0 <= i < |s'.workers| ensures WorkerShape(s', i) { assert WorkerShape(s, i); }
  }

  lemma ClientTxnKeepsInv(s: State, st: Step)
    requires Inv(s) && Enabled(s, st) && (st.Begin? || st.Mint? || st.Publish? || st.Abort?)
    ensures Inv(Next(s, st))
  {
    var s' := Next(s, st);
    if st.x in s.txns { assert TxnOk(s, st.x); }
    TxnStepKeepsInv(s, s', st.x);
  }

  // ----- freezing -----

  lemma FreezeWork(s: State, f: nat, i: nat, id: nat)
    requires Shape(s) && Enabled(s, Freeze(f)) && i < |s.workers| && id in s.vals && WorkOk(s, i, id)
    ensures WorkOk(Next(s, Freeze(f)), i, id)
  {
    var s' := Next(s, Freeze(f));
    assert Min(s', i) == Min(s, i) && s'.freezes[i] == s.freezes[i];
  }

  lemma FreezeShape(s: State, f: nat)
    requires Shape(s) && Enabled(s, Freeze(f))
    ensures Shape(Next(s, Freeze(f)))
  {
    var s' := Next(s, Freeze(f));
    forall i | 0 <= i < |s'.workers| ensures WorkerShape(s', i) {
      if i < |s.workers| { assert WorkerShape(s, i); }
    }
    forall i | 0 <= i < |s'.freezes| ensures Min(s', i) <= s'.freezes[i] <= s'.counter {
      if i < |s.freezes| { assert Min(s', i) == Min(s, i); } else if i > 0 { assert s.freezes[i - 1] <= s.counter; }
    }
  }

  lemma FreezeVal(s: State, f: nat, id: nat)
    requires Shape(s) && Enabled(s, Freeze(f)) && id in s.vals && ValOk(s, id) && LcOk(s, id)
    ensures ValOk(Next(s, Freeze(f)), id) && LcOk(Next(s, Freeze(f)), id)
  {
  }

  lemma FreezeTxn(s: State, f: nat, x: nat)
    requires Shape(s) && Enabled(s, Freeze(f)) && x in s.txns && TxnOk(s, x)
    ensures TxnOk(Next(s, Freeze(f)), x)
  {
  }

  lemma FreezeKeepsInv(s: State, f: nat)
    requires Inv(s) && Enabled(s, Freeze(f))
    ensures Inv(Next(s, Freeze(f)))
  {
    var s' := Next(s, Freeze(f));
    FreezeShape(s, f);
    forall i, id | 0 <= i < |s'.workers| && id in s'.vals ensures WorkOk(s', i, id) {
      if i < |s.workers| { FreezeWork(s, f, i, id); }
    }
    forall id | id in s'.vals ensures ValOk(s', id) && LcOk(s', id) { FreezeVal(s, f, id); }
    forall x | x in s'.txns ensures TxnOk(s', x) { FreezeTxn(s, f, x); }
  }

  // ----- workers -----

  /** Only worker i changes. */
  ghost predicate WorkerStep(s: State, s': State, i: nat) {
    i < |s.workers| && |s'.workers| == |s.workers| && s' == s.(workers := s.workers[i := s'.workers[i]])
    && !s'.workers[i].Done? && !s.workers[i].Done?
    && (s'.workers[i].Scanning? ==> i == s.next)
  }

  lemma WorkerStepFrame(s: State, s': State, i: nat, j: nat, id: nat)
    requires Shape(s) && WorkerStep(s, s', i) && j < |s.workers| && j != i && id in s.vals && WorkOk(s, j, id)
    ensures WorkOk(s', j, id)
  {
  }

  lemma WorkerStepVal(s: State, s': State, i: nat, id: nat)
    requires Shape(s) && WorkerStep(s, s', i) && id in s.vals && ValOk(s, id) && LcOk(s, id)
    ensures ValOk(s', id) && LcOk(s', id)
  {
  }

  lemma WorkerStepKeepsInv(s: State, s': State, i: nat)
    requires Inv(s) && WorkerStep(s, s', i) && Known(s')
    requires s.workers[i].Waiting? ==> forall x :: x in s.txns && s.txns[x].Committing? ==>
      s.freezes[i] < s.txns[x].seqno
    requires !s.workers[i].Waiting? ==> !s'.workers[i].Waiting?
    requires forall id :: id in s.vals ==> WorkOk(s', i, id)
    ensures Inv(s')
  {
    forall j, id | 0 <= j < |s'.workers| && id in s'.vals ensures WorkOk(s', j, id) {
      if j != i { WorkerStepFrame(s, s', i, j, id); }
    }
    forall id | id in s'.vals ensures ValOk(s', id) && LcOk(s', id) { WorkerStepVal(s, s', i, id); }
    forall x | x in s'.txns ensures TxnOk(s', x) { assert TxnOk(s, x); }
    forall j | 0 <= j < |s'.workers| ensures WorkerShape(s', j) { assert WorkerShape(s, j) && WorkerShape(s, i); }
  }

  lemma StartKeepsInv(s: State, i: nat)
    requires Inv(s) && Enabled(s, Start(i))
    ensures Inv(Next(s, Start(i)))
  {
    var s' := Next(s, Start(i));
    assert WorkerShape(s, i);
    forall id | id in s.vals ensures WorkOk(s', i, id) {}
    WorkerStepKeepsInv(s, s', i);
  }

  /** A value of kvmultiset i is never before the window of worker i, and a transaction that
      wrote to a later kvmultiset committed after the freeze of i. */
  lemma MergeVerdict(s: State, i: nat, id: nat)
    requires Shape(s) && i < |s.freezes| && id in s.vals && ValOk(s, id) && s.vals[id].home == i
    requires s.vals[id].ref.InTxn? ==> TxnOk(s, s.vals[id].ref.x)
    ensures match Judge(s, i, id, false)
      case Neither => IsAborted(s, id)
      case Cn => Lands(s, id, i)
      case Lc => Parked(s, id)
  {
  }

  lemma MergeOneKeepsInv(s: State, i: nat, id: nat)
    requires Inv(s) && Enabled(s, MergeOne(i, id))
    ensures Inv(Next(s, MergeOne(i, id)))
  {
    var s' := Next(s, MergeOne(i, id));
    assert ValOk(s, id) && WorkOk(s, i, id) && WorkerShape(s, i);
    if s.vals[id].ref.InTxn? { assert TxnOk(s, s.vals[id].ref.x); }
    MergeVerdict(s, i, id);
    forall v | v in s.vals ensures WorkOk(s', i, v) { assert WorkOk(s, i, v); }
    WorkerStepKeepsInv(s, s', i);
  }

  lemma EnterWork(s: State, i: nat, id: nat)
    requires Shape(s) && Enabled(s, Enter(i)) && id in s.vals && ValOk(s, id) && LcOk(s, id) && WorkOk(s, i, id)
    ensures WorkOk(Next(s, Enter(i)), i, id)
  {
  }

  lemma EnterKeepsInv(s: State, i: nat)
    requires Inv(s) && Enabled(s, Enter(i))
    ensures Inv(Next(s, Enter(i)))
  {
    assert WorkerShape(s, i);
    forall id | id in s.vals ensures WorkOk(Next(s, Enter(i)), i, id) { EnterWork(s, i, id); }
    WorkerStepKeepsInv(s, Next(s, Enter(i)), i);
  }

  lemma ScanVerdict(s: State, i: nat, id: nat)
    requires Shape(s) && i < |s.freezes| && id in s.vals && ValOk(s, id) && s.vals[id].home < i && Parked(s, id)
    requires TxnOk(s, s.vals[id].ref.x)
    ensures Judge(s, i, id, true).Cn? <==> Lands(s, id, i)
  {
  }

  lemma ScanWork(s: State, i: nat, id: nat, v: nat)
    requires Shape(s) && Enabled(s, ScanOne(i, id)) && v in s.vals && WorkOk(s, i, id) && WorkOk(s, i, v)
    requires Judge(s, i, id, true).Cn? <==> Lands(s, id, i)
    ensures WorkOk(Next(s, ScanOne(i, id)), i, v)
  {
  }

  lemma ScanOneKeepsInv(s: State, i: nat, id: nat)
    requires Inv(s) && Enabled(s, ScanOne(i, id))
    ensures Inv(Next(s, ScanOne(i, id)))
  {
    assert ValOk(s, id) && WorkOk(s, i, id) && WorkerShape(s, i);
    assert TxnOk(s, s.vals[id].ref.x);
    ScanVerdict(s, i, id);
    forall v | v in s.vals ensures WorkOk(Next(s, ScanOne(i, id)), i, v) { ScanWork(s, i, id, v); }
    WorkerStepKeepsInv(s, Next(s, ScanOne(i, id)), i);
  }

  lemma LeaveLc(s: State, i: nat, id: nat)
    requires Shape(s) && Enabled(s, Leave(i)) && i == s.next && id in s.vals && LcOk(s, id) && WorkOk(s, i, id)
    ensures LcOk(Next(s, Leave(i)), id)
  {
    var s' := Next(s, Leave(i));
    var k := s.vals[id].home;
    if k < i { FreezesGrow(s, i - 1, i); }
  }

  lemma LeaveWork(s: State, i: nat, j: nat, id: nat)
    requires Shape(s) && Enabled(s, Leave(i)) && i == s.next && j < |s.workers| && id in s.vals && WorkOk(s, j, id)
    ensures WorkOk(Next(s, Leave(i)), j, id)
  {
  }

  lemma LeaveKeepsInv(s: State, i: nat)
    requires Inv(s) && Enabled(s, Leave(i))
    ensures Inv(Next(s, Leave(i)))
  {
    var s' := Next(s, Leave(i));
    assert WorkerShape(s, i);
    forall j, id | 0 <= j < |s'.workers| && id in s'.vals ensures WorkOk(s', j, id) { LeaveWork(s, i, j, id); }
    forall id | id in s'.vals ensures ValOk(s', id) && LcOk(s', id) {
      assert ValOk(s, id);
      LeaveLc(s, i, id);
    }
    forall x | x in s'.txns ensures TxnOk(s', x) { assert TxnOk(s, x); }
    forall j | 0 <= j < |s'.workers| ensures WorkerShape(s', j) { assert WorkerShape(s, j); }
  }

  lemma CollectLc(s: State, id: nat, v: nat)
    requires Shape(s) && Enabled(s, Collect(id)) && v in s.vals && LcOk(s, v)
    ensures LcOk(Next(s, Collect(id)), v)
  {
    var txn := s.txns[s.vals[id].ref.x];
    if txn.Committed? {
      var j :| 0 <= j < s.next && j < |s.freezes| && txn.seqno < s.freezes[j];
      FreezesGrow(s, j, s.next - 1);
    }
  }

  lemma CollectKeepsInv(s: State, id: nat)
    requires Inv(s) && Enabled(s, Collect(id))
    ensures Inv(Next(s, Collect(id)))
  {
    var s' := Next(s, Collect(id));
    forall i, v | 0 <= i < |s'.workers| && v in s'.vals ensures WorkOk(s', i, v) { CollectWork(s, id, i, v); }
    forall v | v in s'.vals ensures ValOk(s', v) && LcOk(s', v) {
      assert ValOk(s, v);
      CollectLc(s, id, v);
    }
    forall x | x in s'.txns ensures TxnOk(s', x) { assert TxnOk(s, x); }
    forall i | 0 <= i < |s'.workers| ensures WorkerShape(s', i) { assert WorkerShape(s, i); }
  }

  lemma CollectWork(s: State, id: nat, i: nat, v: nat)
    requires Shape(s) && Enabled(s, Collect(id)) && i < |s.workers| && v in s.vals && WorkOk(s, i, v)
    ensures WorkOk(Next(s, Collect(id)), i, v)
  {
  }

  lemma StepKeepsInv(s: State, st: Step)
    requires Inv(s) && Enabled(s, st)
    ensures Inv(Next(s, st))
  {
    match st
    case Put(id, q) => PutKeepsInv(s, id, q);
    case PutTxn(id, x) => PutTxnKeepsInv(s, id, x);
    case Freeze(f) => FreezeKeepsInv(s, f);
    case Start(i) => StartKeepsInv(s, i);
    case MergeOne(i, id) => MergeOneKeepsInv(s, i, id);
    case Enter(i) => EnterKeepsInv(s, i);
    case ScanOne(i, id) => ScanOneKeepsInv(s, i, id);
    case Leave(i) => LeaveKeepsInv(s, i);
    case Collect(id) => CollectKeepsInv(s, id);
    case _ => ClientTxnKeepsInv(s, st);
  }

  lemma {:induction false} RunKeepsInv(s: State, steps: seq<Step>, s': State)
    requires Inv(s) && Reaches(s, steps, s')
    ensures Inv(s')
    decreases |steps|
  {
    if steps != [] {
      StepKeepsInv(s, steps[0]);
      RunKeepsInv(Next(s, steps[0]), steps[1..], s');
    }
  }

  // ----- the theorems -----

  /** A finished ingest holds a committed or ordinary value exactly if it lands there. */
  lemma IngestHoldsWhatLands(s0: State, steps: seq<Step>, s: State, id: nat, i: nat)
    requires Init(s0) && Reaches(s0, steps, s)
    requires id in s.vals && i < |s.workers| && s.workers[i].Done?
    ensures i < |s.freezes|
    ensures id in s.workers[i].cn <==> Lands(s, id, i)
  {
    RunKeepsInv(s0, steps, s);
    assert WorkOk(s, i, id);
  }

  /** No ingest, finished or not, has picked a value of an aborted or open transaction. */
  lemma OnlyDefinedIsPicked(s0: State, steps: seq<Step>, s: State, id: nat, i: nat)
    requires Init(s0) && Reaches(s0, steps, s)
    requires i < |s.workers| && !s.workers[i].Waiting? && id in s.workers[i].cn
    ensures id in s.vals && IsDefined(s, id) && !IsAborted(s, id)
  {
    RunKeepsInv(s0, steps, s);
    assert WorkOk(s, i, id);
  }

  /** The ingest meant to take a value: that of its own kvmultiset for an ordinary value, the
      first whose window reaches the commit for a transaction's value. */
  ghost predicate Target(s: State, id: nat, w: nat)
    requires id in s.vals
  {
    && IsDefined(s, id) && w < |s.freezes|
    && if s.vals[id].ref.Ordinal? then w == s.vals[id].home
       else Seqno(s, id) <= s.freezes[w] && forall i :: 0 <= i < w ==> s.freezes[i] < Seqno(s, id)
  }

  lemma TargetLands(s: State, id: nat, w: nat)
    requires Inv(s) && id in s.vals && Target(s, id, w)
    ensures s.vals[id].home <= w && Lands(s, id, w)
  {
    assert ValOk(s, id);
    if s.vals[id].ref.InTxn? { assert TxnOk(s, s.vals[id].ref.x); }
  }

  /** Besides its target, a value lands only in a later window that begins exactly at its
      commit, and only if it is older than its target's kvmultiset. */
  lemma LandsElsewhere(s: State, id: nat, w: nat, i: nat)
    requires Inv(s) && id in s.vals && Target(s, id, w) && i < |s.freezes| && i != w
    ensures Lands(s, id, i) <==> s.vals[id].ref.InTxn? && s.vals[id].home < w < i && Min(s, i) == Seqno(s, id)
  {
    TargetLands(s, id, w);
    assert ValOk(s, id);
    if w < i { FreezesGrow(s, w, i); }
    if i < w { FreezesGrow(s, i, w); }
  }

  /** Once its target is done, a value is in the target's ingest, and in no other finished
      ingest unless its commit has the sequence number of a freeze: then it is also in every
      ingest whose window begins there, if it came through LC. */
  lemma IngestedExactly(s0: State, steps: seq<Step>, s: State, id: nat, w: nat, i: nat)
    requires Init(s0) && Reaches(s0, steps, s) && id in s.vals && Target(s, id, w)
    requires i < |s.workers| && s.workers[i].Done?
    ensures i < |s.freezes|
    ensures id in s.workers[i].cn <==>
      i == w || (s.vals[id].ref.InTxn? && s.vals[id].home < w < i && Min(s, i) == Seqno(s, id))
  {
    RunKeepsInv(s0, steps, s);
    IngestHoldsWhatLands(s0, steps, s, id, i);
    if i == w { TargetLands(s, id, w); } else { LandsElsewhere(s, id, w, i); }
  }

  /** No commit has the sequence number of a freeze. */
  ghost predicate NoTies(s: State) {
    forall x, i :: x in s.txns && s.txns[x].Committed? && 0 <= i < |s.freezes| ==> s.txns[x].seqno != s.freezes[i]
  }

  /** Without ties, every value of a committed transaction is in the same one ingest. */
  lemma IngestedOnceTogether(s0: State, steps: seq<Step>, s: State, x: nat, w: nat, id: nat, i: nat)
    requires Init(s0) && Reaches(s0, steps, s) && NoTies(s)
    requires id in s.vals && s.vals[id].ref == InTxn(x) && x in s.txns && s.txns[x].Committed?
    requires w < |s.freezes| && s.txns[x].seqno <= s.freezes[w]
    requires forall j :: 0 <= j < w ==> s.freezes[j] < s.txns[x].seqno
    requires i < |s.workers| && s.workers[i].Done?
    ensures id in s.workers[i].cn <==> i == w
  {
    RunKeepsInv(s0, steps, s);
    assert Shape(s) && s.base < s.txns[x].seqno by { assert TxnOk(s, x); }
    IngestedExactly(s0, steps, s, id, w, i);
    assert i > 0 ==> s.txns[x].seqno != s.freezes[i - 1];
  }
}
