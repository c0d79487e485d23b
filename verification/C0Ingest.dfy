/**
 Ingest of c0: from frozen kvmultisets, directly or through LC, into cN.

 Kvmultisets are numbered in freeze order; number i is ingested by worker i over the window
 of sequence numbers from the previous freeze to its own, both ends included.  Workers
 merge their kvmultisets in parallel, one value at a time, then take turns in order to scan
 LC and to add to it.  Transactions write, commit and abort meanwhile.
 */
module C0Ingest {
  import Loop = C0MergeLoop

  /** cgen is the newest kvmultiset the transaction has written to, -1 if none.  A commit
      sequence number is minted first and becomes visible later. */
  datatype Txn = Active(cgen: int) | Committing(seqno: nat, cgen: int) | Committed(seqno: nat, cgen: int) | Aborted

  datatype Ref = Ordinal(q: nat) | InTxn(x: nat)

  /** home is the kvmultiset the value was put into. */
  datatype Val = Val(home: nat, ref: Ref)

  /** todo: values not yet looked at; cn: values picked for cN; lc: values to add to LC. */
  datatype Worker =
    | Waiting
    | Merging(todo: set<nat>, cn: set<nat>, lc: set<nat>)
    | Scanning(todo: set<nat>, cn: set<nat>, lc: set<nat>)
    | Done(cn: set<nat>)

  datatype State = State(
    base: nat, counter: nat, freezes: seq<nat>, vals: map<nat, Val>, txns: map<nat, Txn>,
    workers: seq<Worker>, next: nat, lc: set<nat>)

  datatype Step =
    | Put(id: nat, q: nat)
    | Begin(x: nat)
    | PutTxn(id: nat, x: nat)
    | Mint(x: nat, c: nat)
    | Publish(x: nat)
    | Abort(x: nat)
    | Freeze(f: nat)
    | Start(i: nat)
    | MergeOne(i: nat, id: nat)
    | Enter(i: nat)
    | ScanOne(i: nat, id: nat)
    | Leave(i: nat)
    | Collect(id: nat)

  /** Lower end of the window of worker i. */
  function Min(s: State, i: nat): nat
    requires i <= |s.freezes|
  {
    if i == 0 then s.base else s.freezes[i - 1]
  }

  /** What the merge loop sees when it looks at a value. */
  function Reading(s: State, id: nat): Loop.Val
    requires id in s.vals && (s.vals[id].ref.InTxn? ==> s.vals[id].ref.x in s.txns)
  {
    match s.vals[id].ref
    case Ordinal(q) => Loop.Val(false, Loop.Defined(q), 0, id)
    case InTxn(x) =>
      match s.txns[x]
      case Aborted => Loop.Val(true, Loop.Aborted, 0, id)
      case Committed(c, g) => Loop.Val(true, Loop.Defined(c), g, id)
      case Active(g) => Loop.Val(true, Loop.Undefined, g, id)
      case Committing(c, g) => Loop.Val(true, Loop.Undefined, g, id)
  }

  /** The decision of the merge loop about one value. */
  function Judge(s: State, i: nat, id: nat, fromLc: bool): Loop.Dest
    requires i < |s.freezes| && id in s.vals && (s.vals[id].ref.InTxn? ==> s.vals[id].ref.x in s.txns)
  {
    Loop.Destination(Reading(s, id), fromLc, Loop.Window(Min(s, i), s.freezes[i], i))
  }

  ghost predicate Enabled(s: State, st: Step) {
    match st
    case Put(id, q) => id !in s.vals && Min(s, |s.freezes|) <= q
    case Begin(x) => x !in s.txns
    case PutTxn(id, x) => id !in s.vals && x in s.txns && s.txns[x].Active?
    case Mint(x, c) => x in s.txns && s.txns[x].Active? && s.counter < c
    case Publish(x) => x in s.txns && s.txns[x].Committing?
    case Abort(x) => x in s.txns && s.txns[x].Active?
    case Freeze(f) => s.counter <= f
    case Start(i) =>
      // the worker first waits for the commits that are on their way
      && i < |s.workers| == |s.freezes| && s.workers[i].Waiting?
      && forall x :: x in s.txns && s.txns[x].Committing? ==> s.freezes[i] < s.txns[x].seqno
    case MergeOne(i, id) =>
      && i < |s.workers| == |s.freezes| && s.workers[i].Merging? && id in s.workers[i].todo
      && id in s.vals && (s.vals[id].ref.InTxn? ==> s.vals[id].ref.x in s.txns)
    case Enter(i) => i < |s.workers| && i == s.next && s.workers[i].Merging? && s.workers[i].todo == {}
    case ScanOne(i, id) =>
      && i < |s.workers| == |s.freezes| && s.workers[i].Scanning? && id in s.workers[i].todo
      && id in s.vals && (s.vals[id].ref.InTxn? ==> s.vals[id].ref.x in s.txns)
    case Leave(i) => i < |s.workers| && s.workers[i].Scanning? && s.workers[i].todo == {}
    case Collect(id) =>
      // garbage collection of LC below the last completed ingest
      && id in s.lc && id in s.vals && s.vals[id].ref.InTxn? && s.vals[id].ref.x in s.txns
      && (var txn := s.txns[s.vals[id].ref.x];
          || txn.Aborted?
          || (txn.Committed? && exists j :: 0 <= j < s.next && j < |s.freezes| && txn.seqno < s.freezes[j]))
  }

  function SetTxn(s: State, x: nat, txn: Txn): State {
    s.(txns := s.txns[x := txn])
  }

  function SetWorker(s: State, i: nat, w: Worker): State
    requires i < |s.workers|
  {
    s.(workers := s.workers[i := w])
  }

  function HomeIds(s: State, i: nat): set<nat> {
    set id | id in s.vals && s.vals[id].home == i
  }

  function DoMergeOne(s: State, i: nat, id: nat): State
    requires Enabled(s, MergeOne(i, id))
  {
    var w, d := s.workers[i], Judge(s, i, id, false);
    SetWorker(s, i, Merging(w.todo - {id}, if d.Cn? then w.cn + {id} else w.cn, if d.Lc? then w.lc + {id} else w.lc))
  }

  /** A value that stays in LC is not added to it again. */
  function DoScanOne(s: State, i: nat, id: nat): State
    requires Enabled(s, ScanOne(i, id))
  {
    var w := s.workers[i];
    SetWorker(s, i, Scanning(w.todo - {id}, if Judge(s, i, id, true).Cn? then w.cn + {id} else w.cn, w.lc))
  }

  function Next(s: State, st: Step): State
    requires Enabled(s, st)
  {
    match st
    case Put(id, q) =>
      s.(vals := s.vals[id := Val(|s.freezes|, Ordinal(q))], counter := if q > s.counter then q else s.counter)
    case Begin(x) => SetTxn(s, x, Active(-1))
    case PutTxn(id, x) =>
      SetTxn(s, x, Active(|s.freezes|)).(vals := s.vals[id := Val(|s.freezes|, InTxn(x))])
    case Mint(x, c) => SetTxn(s, x, Committing(c, s.txns[x].cgen)).(counter := c)
    case Publish(x) => SetTxn(s, x, Committed(s.txns[x].seqno, s.txns[x].cgen))
    case Abort(x) => SetTxn(s, x, Aborted)
    case Freeze(f) => s.(freezes := s.freezes + [f], workers := s.workers + [Waiting], counter := f)
    case Start(i) => SetWorker(s, i, Merging(HomeIds(s, i), {}, {}))
    case MergeOne(i, id) => DoMergeOne(s, i, id)
    case Enter(i) => SetWorker(s, i, Scanning(s.lc, s.workers[i].cn, s.workers[i].lc))
    case ScanOne(i, id) => DoScanOne(s, i, id)
    case Leave(i) => SetWorker(s, i, Done(s.workers[i].cn)).(lc := s.lc + s.workers[i].lc, next := i + 1)
    case Collect(id) => s.(lc := s.lc - {id})
  }

  // ----- the invariant -----

  ghost predicate Shape(s: State) {
    && |s.workers| == |s.freezes| && s.next <= |s.freezes|
    && s.base <= s.counter
    && (forall i :: 0 <= i < |s.freezes| ==> Min(s, i) <= s.freezes[i] <= s.counter)
    && (forall i :: 0 <= i < |s.workers| ==> WorkerShape(s, i))
  }

  /** The workers before next are done, and only next may scan. */
  ghost predicate WorkerShape(s: State, i: nat)
    requires i < |s.workers|
  {
    && (s.workers[i].Done? <==> i < s.next)
    && (s.workers[i].Scanning? ==> i == s.next)
  }

  ghost predicate TxnOk(s: State, x: nat)
    requires x in s.txns && |s.workers| == |s.freezes|
  {
    var txn := s.txns[x];
    && (!txn.Aborted? ==> -1 <= txn.cgen <= |s.freezes|)
    && (txn.Committing? || txn.Committed? ==>
          && s.base < txn.seqno <= s.counter
          && (forall i :: 0 <= i < txn.cgen ==> s.freezes[i] < txn.seqno))
    && (txn.Committing? ==> forall i :: 0 <= i < |s.freezes| && !s.workers[i].Waiting? ==> s.freezes[i] < txn.seqno)
  }

  ghost predicate ValOk(s: State, id: nat)
    requires id in s.vals
  {
    var v := s.vals[id];
    && v.home <= |s.freezes|
    && (v.ref.Ordinal? ==>
          Min(s, v.home) <= v.ref.q <= s.counter && (v.home < |s.freezes| ==> v.ref.q <= s.freezes[v.home]))
    && (v.ref.InTxn? ==> v.ref.x in s.txns && (!s.txns[v.ref.x].Aborted? ==> v.home <= s.txns[v.ref.x].cgen))
  }

  /** The sequence number of a value, once it has one. */
  predicate IsDefined(s: State, id: nat)
    requires id in s.vals
  {
    s.vals[id].ref.Ordinal? || (s.vals[id].ref.x in s.txns && s.txns[s.vals[id].ref.x].Committed?)
  }

  function Seqno(s: State, id: nat): nat
    requires id in s.vals && IsDefined(s, id)
  {
    match s.vals[id].ref
    case Ordinal(q) => q
    case InTxn(x) => s.txns[x].seqno
  }

  predicate IsAborted(s: State, id: nat)
    requires id in s.vals
  {
    s.vals[id].ref.InTxn? && s.vals[id].ref.x in s.txns && s.txns[s.vals[id].ref.x].Aborted?
  }

  /** Worker i is the one to take the value: it is in the window and was not there already
      when its own kvmultiset was merged. */
  ghost predicate Lands(s: State, id: nat, i: nat)
    requires id in s.vals && i < |s.freezes|
  {
    var k := s.vals[id].home;
    && IsDefined(s, id) && k <= i && Min(s, i) <= Seqno(s, id) <= s.freezes[i]
    && (k == i || s.freezes[k] < Seqno(s, id))
  }

  /** The value waits in LC or on its way there. */
  ghost predicate Parked(s: State, id: nat)
    requires id in s.vals
  {
    var k := s.vals[id].home;
    && k < |s.freezes| && s.vals[id].ref.InTxn?
    && (IsDefined(s, id) ==> s.freezes[k] < Seqno(s, id))
  }

  /** What worker i has made of value id so far. */
  ghost predicate WorkOk(s: State, i: nat, id: nat)
    requires i < |s.workers| == |s.freezes| && id in s.vals
  {
    var w, k := s.workers[i], s.vals[id].home;
    && (!w.Waiting? && id in w.cn ==> Lands(s, id, i))
    && ((w.Merging? || w.Scanning?) && id in w.lc ==> k == i && Parked(s, id))
    && (w.Merging? && id in w.todo ==> k == i)
    && (w.Merging? && k == i ==> id in w.todo || id in w.cn || id in w.lc || IsAborted(s, id))
    && (w.Scanning? && k == i ==> id in w.cn || id in w.lc || IsAborted(s, id))
    && (w.Scanning? && k < i && Lands(s, id, i) ==> id in w.todo || id in w.cn)
    && (w.Scanning? && id in w.todo ==> k < i && Parked(s, id))
    && (w.Done? && Lands(s, id, i) ==> id in w.cn)
  }

  /** A value whose worker is done is in LC until it has landed. */
  ghost predicate LcOk(s: State, id: nat)
    requires id in s.vals
  {
    var k := s.vals[id].home;
    && (id in s.lc ==> k < s.next && Parked(s, id))
    && (k < s.next <= |s.freezes| && Parked(s, id) && !IsAborted(s, id)
        && (IsDefined(s, id) ==> s.freezes[s.next - 1] <= Seqno(s, id)) ==>
          id in s.lc)
  }

  /** Only known values are in the sets. */
  ghost predicate Known(s: State) {
    && s.lc <= s.vals.Keys
    && forall i :: 0 <= i < |s.workers| ==>
         && (s.workers[i].Merging? || s.workers[i].Scanning? ==> s.workers[i].todo + s.workers[i].lc <= s.vals.Keys)
         && (!s.workers[i].Waiting? ==> s.workers[i].cn <= s.vals.Keys)
  }

  ghost predicate Inv(s: State) {
    && Shape(s) && Known(s)
    && (forall x :: x in s.txns ==> TxnOk(s, x))
    && (forall id :: id in s.vals ==> ValOk(s, id) && LcOk(s, id))
    && (forall i, id :: 0 <= i < |s.workers| && id in s.vals ==> WorkOk(s, i, id))
  }

  ghost predicate Init(s: State) {
    && s.counter == s.base && s.freezes == [] && s.vals == map[] && s.txns == map[]
    && s.workers == [] && s.next == 0 && s.lc == {}
  }

  ghost predicate Reaches(s: State, steps: seq<Step>, s': State)
    decreases |steps|
  {
    if steps == [] then s' == s
    else Enabled(s, steps[0]) && Reaches(Next(s, steps[0]), steps[1..], s')
  }
}
