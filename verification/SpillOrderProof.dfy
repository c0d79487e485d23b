/** Every step keeps the order part of the invariant. */
module SpillOrderProof {
  import opened SpillProtocol
  import opened SpillInvariant

  lemma {:induction false} InsertSortedElements(q: seq<nat>, m: nat)
    ensures forall x :: x in InsertSorted(q, m) <==> x in q || x == m
    ensures |InsertSorted(q, m)| == |q| + 1
  {
    if q != [] && m >= q[0] {
      InsertSortedElements(q[1..], m);
      assert q == [q[0]] + q[1..];
    }
  }

  lemma {:induction false} InsertSortedSorted(q: seq<nat>, m: nat)
    requires Sorted(q) && m !in q
    ensures Sorted(InsertSorted(q, m))
    ensures InsertSorted(q, m)[0] == if q == [] || m < q[0] then m else q[0]
  {
    if q != [] && m > q[0] {
      InsertSortedSorted(q[1..], m);
      InsertSortedElements(q[1..], m);
      var t := InsertSorted(q[1..], m);
      forall b | 0 <= b < |t| ensures q[0] < t[b] {
        assert t[b] in t;
      }
    }
  }

  lemma SortedTail(q: seq<nat>)
    requires Sorted(q) && q != []
    ensures Sorted(q[1..]) && q[0] !in q[1..]
    ensures forall x :: x in q <==> x == q[0] || x in q[1..]
    ensures q[1..] != [] ==> q[0] < q[1]
  {
    assert q == [q[0]] + q[1..];
  }

  /** Jobs, generations, lists and reference counters are the same. */
  ghost predicate SameSpills(s: State, s': State) {
    && s'.rsgen == s.rsgen && s'.sgen == s.sgen && s'.jobs == s.jobs && |s'.leaves| == |s.leaves|
    && (forall j :: IsLeaf(s, j) ==>
          var l, l' := s.leaves[j], s'.leaves[j];
          l'.sgen == l.sgen && l'.queue == l.queue && l'.spilling == l.spilling)
  }

  lemma OrderFrame(s: State, s': State)
    requires Order(s) && SameSpills(s, s')
    ensures Order(s')
  {
    forall n, j, m | Carries(s, n, j, m) ensures Carries(s', n, j, m) {}
    forall n, j, m | Carries(s', n, j, m) ensures Carries(s, n, j, m) {}
    forall j, m ensures InFlight(s, j, m) == InFlight(s', j, m) {}
    forall n | n in s'.jobs ensures JobOk(s', n) { assert JobOk(s, n); }
    forall n, j | n in s'.jobs && IsLeaf(s', j) ensures OrderOk(s', n, j) {
      assert IsLeaf(s, j) && OrderOk(s, n, j);
    }
    forall n, n' | n in s'.jobs && n' in s'.jobs ensures OneCarrier(s', n, n') { assert OneCarrier(s, n, n'); }
    forall j | IsLeaf(s', j) ensures QueueOk(s', j) && NotStranded(s', j) {
      assert IsLeaf(s, j) && QueueOk(s, j) && NotStranded(s, j);
      if Ready(s'.leaves[j]) {
        var n :| n in s.jobs && PopsAt(s, n, j);
        assert PopsAt(s', n, j);
      }
    }
  }

  /** One job changes phase without delivering anything, and no list or generation changes. */
  ghost predicate Quiet(s: State, s': State, n: nat) {
    && n in s.jobs && n in s'.jobs
    && s'.sgen == s.sgen && s'.jobs == s.jobs[n := s'.jobs[n]] && |s'.leaves| == |s.leaves|
    && (forall j :: IsLeaf(s, j) ==> s'.leaves[j].sgen == s.leaves[j].sgen && s'.leaves[j].queue == s.leaves[j].queue)
    && s.rsgen <= s'.rsgen <= s'.sgen
    && (forall i :: i in s.jobs && i != n && i <= s'.rsgen ==> i <= s.rsgen)
    && JobOk(s', n) && Front(s'.jobs[n]) == Front(s.jobs[n])
    && (forall j, m :: Carries(s', n, j, m) <==> Carries(s, n, j, m))
    && (s.jobs[n].phase.Popping? ==> AtLeaf(s, n) && !Ready(s.leaves[s.jobs[n].pos]))
  }

  lemma QuietMove(s: State, s': State, n: nat)
    requires Order(s) && Quiet(s, s', n)
    ensures Order(s')
  {
    forall i, j, m ensures Carries(s, i, j, m) == Carries(s', i, j, m) {}
    forall j, m ensures InFlight(s, j, m) == InFlight(s', j, m) {}
    forall i | i in s'.jobs ensures JobOk(s', i) { assert JobOk(s, i); }
    forall i, j | i in s'.jobs && IsLeaf(s', j) ensures OrderOk(s', i, j) {
      assert IsLeaf(s, j) && OrderOk(s, i, j);
    }
    forall i, i' | i in s'.jobs && i' in s'.jobs ensures OneCarrier(s', i, i') {
      assert OneCarrier(s, i, i');
      SameCarrying(s, s', i);
      SameCarrying(s, s', i');
    }
    forall j | IsLeaf(s', j) ensures QueueOk(s', j) && NotStranded(s', j) {
      assert IsLeaf(s, j) && QueueOk(s, j) && NotStranded(s, j);
      if Ready(s'.leaves[j]) {
        var i :| i in s.jobs && PopsAt(s, i, j);
        assert PopsAt(s', i, j);
      }
    }
  }

  lemma SameCarrying(s: State, s': State, n: nat)
    requires n in s.jobs && n in s'.jobs
    requires forall j, m :: Carries(s, n, j, m) == Carries(s', n, j, m)
    ensures var p, p' := s.jobs[n], s'.jobs[n];
      && ((p.phase.Applying? || p.phase.Bumping?) <==> (p'.phase.Applying? || p'.phase.Bumping?))
      && (p.phase.Applying? || p.phase.Bumping? ==> p.pos == p'.pos && p.phase.m == p'.phase.m)
  {
    var p, p' := s.jobs[n], s'.jobs[n];
    if p.phase.Applying? || p.phase.Bumping? { assert Carries(s, n, p.pos, p.phase.m); }
    if p'.phase.Applying? || p'.phase.Bumping? { assert Carries(s', n, p'.pos, p'.phase.m); }
  }

  lemma ClaimKeepsOrder(s: State, z: bool)
    requires Order(s) && Enabled(s, Claim(z))
    ensures Order(Next(s, Claim(z)))
  {
    var s' := Next(s, Claim(z));
    var n := s.sgen + 1;
    forall i, j, m ensures Carries(s, i, j, m) == Carries(s', i, j, m) {}
    forall j, m ensures InFlight(s, j, m) == InFlight(s', j, m) {}
    forall i | i in s'.jobs ensures JobOk(s', i) { if i != n { assert JobOk(s, i); } }
    forall i, j | i in s'.jobs && IsLeaf(s', j) ensures OrderOk(s', i, j) {
      assert IsLeaf(s, j) && QueueOk(s, j);
      if i != n { assert OrderOk(s, i, j); }
    }
    forall i, i' | i in s'.jobs && i' in s'.jobs ensures OneCarrier(s', i, i') {
      if i != n && i' != n { assert OneCarrier(s, i, i'); }
    }
    forall j | IsLeaf(s', j) ensures QueueOk(s', j) && NotStranded(s', j) {
      assert IsLeaf(s, j) && QueueOk(s, j) && NotStranded(s, j);
      if Ready(s'.leaves[j]) {
        var i :| i in s.jobs && PopsAt(s, i, j);
        assert PopsAt(s', i, j);
      }
    }
  }

  ghost predicate Carrying(job: Job) {
    job.phase.Applying? || job.phase.Bumping?
  }

  /** One job acts on the leaf it visits: what has to be checked is that leaf only. */
  lemma LocalOrder(s: State, s': State, n: nat, j0: int)
    requires Order(s) && IsLeaf(s, j0) && n in s.jobs && n in s'.jobs
    requires s'.sgen == s.sgen && s'.rsgen == s.rsgen && s'.jobs == s.jobs[n := s'.jobs[n]] && |s'.leaves| == |s.leaves|
    requires forall j :: IsLeaf(s, j) && j != j0 ==>
      s'.leaves[j].sgen == s.leaves[j].sgen && s'.leaves[j].queue == s.leaves[j].queue
    requires s.jobs[n].pos == s'.jobs[n].pos == j0 && j0 <= Front(s.jobs[n]) && j0 <= Front(s'.jobs[n])
    requires JobOk(s', n)
    requires forall i :: i in s.jobs && i != n && s.jobs[i].pos == j0 && Carrying(s.jobs[i]) ==>
      s'.leaves[j0].sgen == s.leaves[j0].sgen && !Carrying(s'.jobs[n])
    requires forall i :: i in s.jobs ==> OrderOk(s', i, j0)
    requires QueueOk(s', j0) && NotStranded(s', j0)
    ensures Order(s')
  {
    forall j, m | j != j0 ensures InFlight(s', j, m) == InFlight(s, j, m) {
      if InFlight(s, j, m) {
        var i :| i in s.jobs && Carries(s, i, j, m);
        assert Carries(s', i, j, m);
      }
      if InFlight(s', j, m) {
        var i :| i in s'.jobs && Carries(s', i, j, m);
        assert Carries(s, i, j, m);
      }
    }
    forall i, j | i in s'.jobs && IsLeaf(s', j) ensures OrderOk(s', i, j) {
      assert IsLeaf(s, j) && OrderOk(s, i, j);
    }
    LocalOrderJobs(s, s', n, j0);
    LocalOrderLists(s, s', n, j0);
  }

  lemma LocalOrderJobs(s: State, s': State, n: nat, j0: int)
    requires Order(s) && IsLeaf(s, j0) && n in s.jobs && n in s'.jobs
    requires s'.rsgen == s.rsgen && s'.jobs == s.jobs[n := s'.jobs[n]] && |s'.leaves| == |s.leaves|
    requires forall j :: IsLeaf(s, j) && j != j0 ==> s'.leaves[j].sgen == s.leaves[j].sgen
    requires s.jobs[n].pos == s'.jobs[n].pos == j0 && JobOk(s', n)
    requires forall i :: i in s.jobs && i != n && s.jobs[i].pos == j0 && Carrying(s.jobs[i]) ==>
      s'.leaves[j0].sgen == s.leaves[j0].sgen && !Carrying(s'.jobs[n])
    ensures forall i :: i in s'.jobs ==> JobOk(s', i)
    ensures forall i, i' :: i in s'.jobs && i' in s'.jobs ==> OneCarrier(s', i, i')
  {
    forall i | i in s'.jobs ensures JobOk(s', i) { assert JobOk(s, i); }
    forall i, i' | i in s'.jobs && i' in s'.jobs ensures OneCarrier(s', i, i') {
      assert OneCarrier(s, i, i');
    }
  }

  lemma LocalOrderLists(s: State, s': State, n: nat, j0: int)
    requires Order(s) && IsLeaf(s, j0) && n in s.jobs && n in s'.jobs
    requires s'.sgen == s.sgen && s'.jobs == s.jobs[n := s'.jobs[n]] && |s'.leaves| == |s.leaves|
    requires forall j :: IsLeaf(s, j) && j != j0 ==>
      s'.leaves[j].sgen == s.leaves[j].sgen && s'.leaves[j].queue == s.leaves[j].queue
    requires s.jobs[n].pos == j0
    requires forall j, m :: j != j0 ==> InFlight(s', j, m) == InFlight(s, j, m)
    requires QueueOk(s', j0) && NotStranded(s', j0)
    ensures forall j :: IsLeaf(s', j) ==> QueueOk(s', j) && NotStranded(s', j)
  {
    forall j | IsLeaf(s', j) ensures QueueOk(s', j) && NotStranded(s', j) {
      assert IsLeaf(s, j) && QueueOk(s, j) && NotStranded(s, j);
      if j != j0 && Ready(s'.leaves[j]) {
        var i :| i in s.jobs && PopsAt(s, i, j);
        assert PopsAt(s', i, j);
      }
    }
  }

  /** If spill n is next at leaf j and has not been delivered there, or waits in its list,
      nobody carries anything there. */
  lemma NobodyCarries(s: State, n: nat, j: int)
    requires Order(s) && n in s.jobs && IsLeaf(s, j)
    requires n == s.leaves[j].sgen + 1 && (!Delivered(s, n, j) || n in s.leaves[j].queue)
    ensures forall i :: i in s.jobs && s.jobs[i].pos == j ==> !Carrying(s.jobs[i])
  {
    assert OrderOk(s, n, j) && QueueOk(s, j);
    forall i | i in s.jobs && s.jobs[i].pos == j
      ensures !Carrying(s.jobs[i])
    {
      assert JobOk(s, i);
      assert !Carries(s, i, j, n);
    }
  }

  /** What is in flight at a leaf after one job there changed phase. */
  lemma LocalInFlight(s: State, s': State, n: nat, j0: int)
    requires n in s.jobs && n in s'.jobs && s'.jobs == s.jobs[n := s'.jobs[n]] && s'.jobs[n].pos == s.jobs[n].pos == j0
    requires forall i :: i in s.jobs && i != n && s.jobs[i].pos == j0 ==> !Carrying(s.jobs[i])
    ensures forall m :: InFlight(s', j0, m) == (Carrying(s'.jobs[n]) && s'.jobs[n].phase.m == m)
    ensures forall m :: InFlight(s, j0, m) == (Carrying(s.jobs[n]) && s.jobs[n].phase.m == m)
  {
    forall m ensures InFlight(s', j0, m) == (Carrying(s'.jobs[n]) && s'.jobs[n].phase.m == m) {
      if Carrying(s'.jobs[n]) && s'.jobs[n].phase.m == m { assert Carries(s', n, j0, m); }
    }
    forall m ensures InFlight(s, j0, m) == (Carrying(s.jobs[n]) && s.jobs[n].phase.m == m) {
      if Carrying(s.jobs[n]) && s.jobs[n].phase.m == m { assert Carries(s, n, j0, m); }
    }
  }

  /** A job that is next in order takes its own subspill in hand. */
  lemma CheckKeepsOrder(s: State, n: nat)
    requires Order(s) && Enabled(s, Check(n))
    ensures Order(DoCheck(s, n))
  {
    var s' := DoCheck(s, n);
    var j0 := s.jobs[n].pos;
    assert JobOk(s, n) && OrderOk(s, n, j0) && QueueOk(s, j0);
    if s'.jobs[n].phase.Enqueueing? {
      QuietMove(s, s', n);
    } else {
      NobodyCarries(s, n, j0);
      LocalInFlight(s, s', n, j0);
      forall i | i in s.jobs ensures OrderOk(s', i, j0) { assert OrderOk(s, i, j0); }
      KeepsPoppers(s, s', n, j0);
      LocalOrder(s, s', n, j0);
    }
  }

  lemma KeepsPoppers(s: State, s': State, n: nat, j0: int)
    requires n in s.jobs && n in s'.jobs && s'.jobs == s.jobs[n := s'.jobs[n]] && IsLeaf(s, j0) && IsLeaf(s', j0)
    requires s'.leaves[j0].sgen == s.leaves[j0].sgen && s'.leaves[j0].queue == s.leaves[j0].queue
    requires NotStranded(s, j0) && !s.jobs[n].phase.Popping?
    ensures NotStranded(s', j0)
  {
    if Ready(s'.leaves[j0]) {
      var i :| i in s.jobs && PopsAt(s, i, j0);
      assert PopsAt(s', i, j0);
    }
  }

  lemma EnqueueKeepsOrder(s: State, n: nat)
    requires Order(s) && Enabled(s, Enqueue(n))
    ensures Order(DoEnqueue(s, n))
  {
    var s' := DoEnqueue(s, n);
    var j0 := s.jobs[n].pos;
    assert JobOk(s, n) && OrderOk(s, n, j0) && QueueOk(s, j0);
    InsertSortedElements(s.leaves[j0].queue, n);
    InsertSortedSorted(s.leaves[j0].queue, n);
    forall m ensures InFlight(s, j0, m) == InFlight(s', j0, m) {
      if InFlight(s, j0, m) {
        var i :| i in s.jobs && Carries(s, i, j0, m);
        assert Carries(s', i, j0, m);
      }
      if InFlight(s', j0, m) {
        var i :| i in s'.jobs && Carries(s', i, j0, m);
        assert Carries(s, i, j0, m);
      }
    }
    forall i | i in s.jobs ensures OrderOk(s', i, j0) { assert OrderOk(s, i, j0); }
    assert PopsAt(s', n, j0);
    LocalOrder(s, s', n, j0);
  }

  lemma BumpKeepsOrder(s: State, n: nat)
    requires Order(s) && Enabled(s, Bump(n))
    ensures Order(DoBump(s, n))
  {
    var s' := DoBump(s, n);
    var j0, m0 := s.jobs[n].pos, s.jobs[n].phase.m;
    assert JobOk(s, n) && QueueOk(s, j0);
    forall i | i in s.jobs && i != n && s.jobs[i].pos == j0 ensures !Carrying(s.jobs[i]) { assert OneCarrier(s, i, n); }
    LocalInFlight(s, s', n, j0);
    assert OrderOk(s, m0, j0);
    forall i | i in s.jobs ensures OrderOk(s', i, j0) { assert OrderOk(s, i, j0); }
    assert PopsAt(s', n, j0);
    LocalOrder(s, s', n, j0);
  }

  lemma PopKeepsOrder(s: State, n: nat)
    requires Order(s) && Enabled(s, Pop(n))
    ensures Order(DoPop(s, n))
  {
    var s' := DoPop(s, n);
    var j0 := s.jobs[n].pos;
    assert JobOk(s, n) && QueueOk(s, j0);
    if !Ready(s.leaves[j0]) {
      QuietMove(s, s', n);
    } else {
      PopTakes(s, n);
      assert JobOk(s', n) by { assert s.leaves[j0].queue[0] in s.leaves[j0].queue; }
      LocalOrder(s, s', n, j0);
    }
  }

  /** The leaf after its ready head was popped. */
  lemma PopTakes(s: State, n: nat)
    requires Order(s) && Enabled(s, Pop(n)) && Ready(s.leaves[s.jobs[n].pos])
    ensures var s', j0 := DoPop(s, n), s.jobs[n].pos;
      && (forall i :: i in s.jobs && s.jobs[i].pos == j0 ==> !Carrying(s.jobs[i]))
      && (forall i :: i in s.jobs ==> OrderOk(s', i, j0))
      && QueueOk(s', j0) && NotStranded(s', j0)
  {
    var s', j0 := DoPop(s, n), s.jobs[n].pos;
    var q := s.leaves[j0].queue;
    assert JobOk(s, n) && QueueOk(s, j0);
    SortedTail(q);
    NobodyCarries(s, q[0], j0);
    LocalInFlight(s, s', n, j0);
    assert OrderOk(s, q[0], j0);
    forall i | i in s.jobs ensures OrderOk(s', i, j0) { assert OrderOk(s, i, j0); }
  }

  // ----- leaves inserted by splits and removed by joins -----

  ghost predicate NobodyAt(s: State, j: int) {
    forall n :: n in s.jobs ==> s.jobs[n].pos != j && s.jobs[n].pin != j
  }

  /** Leaf k of s' behaves for the spills as leaf f[k] of s does. */
  ghost predicate Renumbers(s: State, s': State, f: seq<int>) {
    && s'.sgen == s.sgen && s'.rsgen == s.rsgen && s'.jobs.Keys == s.jobs.Keys
    && |s'.leaves| == |f| >= 1
    && (forall k :: 0 <= k < |f| ==>
          IsLeaf(s, f[k]) && s'.leaves[k].sgen == s.leaves[f[k]].sgen && s'.leaves[k].queue == s.leaves[f[k]].queue)
    && (forall k, n {:trigger Delivered(s', n, k)} :: 0 <= k < |f| && n in s.jobs ==>
          Delivered(s', n, k) == Delivered(s, n, f[k]))
    && (forall k, m {:trigger InFlight(s', k, m)} :: 0 <= k < |f| ==> InFlight(s', k, m) == InFlight(s, f[k], m))
    && (forall k :: 0 <= k < |f| ==> NotStranded(s', k))
  }

  lemma RenumberedOrder(s: State, s': State, f: seq<int>)
    requires Order(s) && Renumbers(s, s', f)
    requires forall n :: n in s'.jobs ==> JobOk(s', n)
    requires forall n, n' :: n in s'.jobs && n' in s'.jobs ==> OneCarrier(s', n, n')
    ensures Order(s')
  {
    forall n ensures n in s'.jobs <==> 1 <= n <= s'.sgen {
      assert n in s'.jobs <==> n in s.jobs;
    }
    forall n, k | n in s'.jobs && IsLeaf(s', k) ensures OrderOk(s', n, k) {
      assert n in s.jobs && IsLeaf(s, f[k]) && OrderOk(s, n, f[k]);
    }
    forall k | IsLeaf(s', k) ensures QueueOk(s', k) {
      assert IsLeaf(s, f[k]) && QueueOk(s, f[k]);
    }
  }

  lemma InsertInFlight(s: State, j: nat, l: Leaf, k: int, m: nat)
    requires j <= |s.leaves| && NobodyAt(s, j)
    ensures InFlight(InsertLeaf(s, j, l), k, m) == (k != j && InFlight(s, Down(k, j), m))
  {
    var s' := InsertLeaf(s, j, l);
    if k != j && InFlight(s, Down(k, j), m) {
      var n :| n in s.jobs && Carries(s, n, Down(k, j), m);
      assert Carries(s', n, k, m);
    }
    if InFlight(s', k, m) {
      var n :| n in s'.jobs && Carries(s', n, k, m);
      assert Carries(s, n, Down(k, j), m);
    }
  }

  lemma InsertNotStranded(s: State, j: nat, l: Leaf, k: int)
    requires j < |s.leaves| && NobodyAt(s, j) && l.queue == [] && 0 <= k <= |s.leaves|
    requires NotStranded(s, Down(k, j))
    ensures NotStranded(InsertLeaf(s, j, l), k)
  {
    var s' := InsertLeaf(s, j, l);
    if Ready(s'.leaves[k]) {
      var n :| n in s.jobs && PopsAt(s, n, Down(k, j));
      assert PopsAt(s', n, k);
    }
  }

  lemma InsertJobs(s: State, j: nat, l: Leaf)
    requires Order(s) && IsLeaf(s, j) && NobodyAt(s, j)
    ensures var s' := InsertLeaf(s, j, l);
      && (forall n :: n in s'.jobs ==> JobOk(s', n))
      && (forall n, n' :: n in s'.jobs && n' in s'.jobs ==> OneCarrier(s', n, n'))
  {
    var s' := InsertLeaf(s, j, l);
    forall n | n in s'.jobs ensures JobOk(s', n) {
      assert n in s.jobs && JobOk(s, n);
    }
    forall n, n' | n in s'.jobs && n' in s'.jobs ensures OneCarrier(s', n, n') {
      assert n in s.jobs && n' in s.jobs && OneCarrier(s, n, n');
    }
  }

  lemma InsertKeepsOrder(s: State, j: nat, l: Leaf)
    requires Order(s) && IsLeaf(s, j) && NobodyAt(s, j) && s.leaves[j].queue == []
    requires l.sgen == s.leaves[j].sgen && l.queue == []
    ensures Order(InsertLeaf(s, j, l))
  {
    var s' := InsertLeaf(s, j, l);
    var f := seq(|s'.leaves|, k => Down(k, j));
    forall k, m | 0 <= k < |f| ensures InFlight(s', k, m) == InFlight(s, f[k], m) {
      InsertInFlight(s, j, l, k, m);
      if k == j { assert !InFlight(s, j, m); }
    }
    forall k, n | 0 <= k < |f| && n in s.jobs ensures Delivered(s', n, k) == Delivered(s, n, f[k]) {
      assert JobOk(s, n);
    }
    forall k | 0 <= k < |f| ensures NotStranded(s', k) {
      assert IsLeaf(s, f[k]);
      InsertNotStranded(s, j, l, k);
    }
    assert Renumbers(s, s', f);
    InsertJobs(s, j, l);
    RenumberedOrder(s, s', f);
  }

  lemma RemoveInFlight(s: State, j: nat, k: int, m: nat)
    requires j < |s.leaves| && NobodyAt(s, j)
    ensures InFlight(RemoveLeaf(s, j), k, m) == InFlight(s, Up(k, j), m)
  {
    var s' := RemoveLeaf(s, j);
    if InFlight(s, Up(k, j), m) {
      var n :| n in s.jobs && Carries(s, n, Up(k, j), m);
      assert Carries(s', n, k, m);
    }
    if InFlight(s', k, m) {
      var n :| n in s'.jobs && Carries(s', n, k, m);
      assert Carries(s, n, Up(k, j), m);
    }
  }

  lemma RemoveNotStranded(s: State, j: nat, k: int)
    requires j < |s.leaves| && NobodyAt(s, j) && 0 <= k < |s.leaves| - 1
    requires NotStranded(s, Up(k, j))
    ensures NotStranded(RemoveLeaf(s, j), k)
  {
    var s' := RemoveLeaf(s, j);
    if Ready(s'.leaves[k]) {
      var n :| n in s.jobs && PopsAt(s, n, Up(k, j));
      assert PopsAt(s', n, k);
    }
  }

  lemma RemoveJobs(s: State, j: nat)
    requires Order(s) && IsLeaf(s, j) && NobodyAt(s, j)
    ensures var s' := RemoveLeaf(s, j);
      && (forall n :: n in s'.jobs ==> JobOk(s', n))
      && (forall n, n' :: n in s'.jobs && n' in s'.jobs ==> OneCarrier(s', n, n'))
  {
    var s' := RemoveLeaf(s, j);
    forall n | n in s'.jobs ensures JobOk(s', n) {
      assert n in s.jobs && JobOk(s, n);
    }
    forall n, n' | n in s'.jobs && n' in s'.jobs ensures OneCarrier(s', n, n') {
      assert n in s.jobs && n' in s.jobs && OneCarrier(s, n, n');
    }
  }

  lemma RemoveKeepsOrder(s: State, j: nat)
    requires Order(s) && IsLeaf(s, j) && NobodyAt(s, j) && |s.leaves| >= 2
    ensures Order(RemoveLeaf(s, j))
  {
    var s' := RemoveLeaf(s, j);
    var f := seq(|s'.leaves|, k => Up(k, j));
    forall k, m | 0 <= k < |f| ensures InFlight(s', k, m) == InFlight(s, f[k], m) {
      RemoveInFlight(s, j, k, m);
    }
    forall k, n | 0 <= k < |f| && n in s.jobs ensures Delivered(s', n, k) == Delivered(s, n, f[k]) {
      assert JobOk(s, n);
    }
    forall k | 0 <= k < |f| ensures NotStranded(s', k) {
      assert IsLeaf(s, f[k]);
      RemoveNotStranded(s, j, k);
    }
    assert Renumbers(s, s', f);
    RemoveJobs(s, j);
    RenumberedOrder(s, s', f);
  }
}
