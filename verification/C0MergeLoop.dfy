/**
 The merge loop of an ingest worker.

 Entries come off a heap in key order; an entry is a key with its list of versions.  The
 loop splits the versions of each key between cN and LC and closes both lists when the key
 changes.
 */
module C0MergeLoop {
  /** What a sequence number reference reads as; indirect ones belong to transactions. */
  datatype State = Undefined | Defined(seqno: nat) | Aborted
  datatype Val = Val(indirect: bool, state: State, cgen: int, body: int)

  datatype Bkv = Bkv(skidx: nat, key: nat, fromLc: bool, vals: seq<Val>)
  datatype Group = Group(skidx: nat, key: nat, vals: seq<Val>)

  /** The window and the generation of the kvmultiset being ingested. */
  datatype Window = Window(min: nat, max: nat, gen: nat)

  datatype Dest = Cn | Lc | Neither

  function Destination(v: Val, fromLc: bool, w: Window): Dest {
    if v.state.Aborted? then Neither
    else if v.state.Defined? && v.state.seqno < w.min then Neither
    else if v.state.Defined? && v.state.seqno <= w.max && (!v.indirect || w.gen >= v.cgen) then Cn
    else if fromLc then Neither
    else Lc
  }

  /** The versions of a list that go to d. */
  function Pick(vals: seq<Val>, fromLc: bool, w: Window, d: Dest): seq<Val> {
    if vals == [] then []
    else
      var n := |vals| - 1;
      Pick(vals[..n], fromLc, w, d) + (if Destination(vals[n], fromLc, w) == d then [vals[n]] else [])
  }

  /** The versions of one key that go to d, in the order they are popped. */
  function PickKey(heap: seq<Bkv>, skidx: nat, key: nat, w: Window, d: Dest): seq<Val> {
    if heap == [] then []
    else
      var n := |heap| - 1;
      var b := heap[n];
      PickKey(heap[..n], skidx, key, w, d)
        + (if b.skidx == skidx && b.key == key then Pick(b.vals, b.fromLc, w, d) else [])
  }

  /** The versions of one key in a collection of groups. */
  function InGroups(gs: seq<Group>, skidx: nat, key: nat): seq<Val> {
    if gs == [] then []
    else
      var n := |gs| - 1;
      InGroups(gs[..n], skidx, key) + (if gs[n].skidx == skidx && gs[n].key == key then gs[n].vals else [])
  }

  predicate KeyLess(s1: nat, k1: nat, s2: nat, k2: nat) {
    s1 < s2 || (s1 == s2 && k1 < k2)
  }

  ghost predicate HeapOrdered(heap: seq<Bkv>) {
    forall i, j :: 0 <= i < j < |heap| ==> !KeyLess(heap[j].skidx, heap[j].key, heap[i].skidx, heap[i].key)
  }

  /** One group per key, in key order, none of them empty. */
  ghost predicate GroupsOrdered(gs: seq<Group>) {
    && (forall i, j :: 0 <= i < j < |gs| ==> KeyLess(gs[i].skidx, gs[i].key, gs[j].skidx, gs[j].key))
    && (forall i :: 0 <= i < |gs| ==> gs[i].vals != [])
  }

  ghost predicate Below(gs: seq<Group>, skidx: nat, key: nat) {
    forall i :: 0 <= i < |gs| ==> KeyLess(gs[i].skidx, gs[i].key, skidx, key)
  }

  /** What is collected for d after n entries: the closed groups, and an open list for the
      key of the entry before. */
  ghost predicate Collected(heap: seq<Bkv>, n: nat, w: Window, d: Dest, gs: seq<Group>, open: seq<Val>)
    requires n <= |heap|
  {
    && GroupsOrdered(gs)
    && (n == 0 ==> gs == [] && open == [])
    && (n > 0 ==> Below(gs, heap[n - 1].skidx, heap[n - 1].key))
    && forall s, k :: PickKey(heap[..n], s, k, w, d) ==
         InGroups(gs, s, k) + (if n > 0 && heap[n - 1].skidx == s && heap[n - 1].key == k then open else [])
  }

  function Close(gs: seq<Group>, b: Bkv, open: seq<Val>): seq<Group> {
    if open == [] then gs else gs + [Group(b.skidx, b.key, open)]
  }

  lemma ClosedGroups(heap: seq<Bkv>, n: nat, w: Window, d: Dest, gs: seq<Group>, open: seq<Val>)
    requires 0 < n <= |heap| && Collected(heap, n, w, d, gs, open)
    ensures var gs', b := Close(gs, heap[n - 1], open), heap[n - 1];
      && GroupsOrdered(gs')
      && (forall i :: 0 <= i < |gs'| ==>
            (gs'[i].skidx == b.skidx && gs'[i].key == b.key) || KeyLess(gs'[i].skidx, gs'[i].key, b.skidx, b.key))
      && forall s, k :: PickKey(heap[..n], s, k, w, d) == InGroups(gs', s, k)
  {
    var gs', b := Close(gs, heap[n - 1], open), heap[n - 1];
    if open != [] { assert gs'[..|gs|] == gs; }
  }

  /** Entry n has another key than the entry before it. */
  predicate NewKey(heap: seq<Bkv>, n: nat)
    requires n < |heap|
  {
    n > 0 && (heap[n].skidx != heap[n - 1].skidx || heap[n].key != heap[n - 1].key)
  }

  lemma CollectedBelow(heap: seq<Bkv>, n: nat, w: Window, d: Dest, gs: seq<Group>, open: seq<Val>)
    requires n < |heap| && HeapOrdered(heap) && Collected(heap, n, w, d, gs, open)
    ensures var gs' := if NewKey(heap, n) then Close(gs, heap[n - 1], open) else gs;
      GroupsOrdered(gs') && Below(gs', heap[n].skidx, heap[n].key)
  {
    if NewKey(heap, n) {
      ClosedGroups(heap, n, w, d, gs, open);
      assert KeyLess(heap[n - 1].skidx, heap[n - 1].key, heap[n].skidx, heap[n].key);
    }
  }

  lemma PickKeyNext(heap: seq<Bkv>, n: nat, w: Window, d: Dest, s: nat, k: nat)
    requires n < |heap|
    ensures PickKey(heap[..n + 1], s, k, w, d) ==
      PickKey(heap[..n], s, k, w, d)
      + (if heap[n].skidx == s && heap[n].key == k then Pick(heap[n].vals, heap[n].fromLc, w, d) else [])
  {
    assert heap[..n + 1][..n] == heap[..n];
  }

  lemma CollectedKey(heap: seq<Bkv>, n: nat, w: Window, d: Dest, gs: seq<Group>, open: seq<Val>, gs': seq<Group>,
                     s: nat, k: nat)
    requires n < |heap| && (n == 0 ==> gs == [] && open == [])
    requires PickKey(heap[..n], s, k, w, d) ==
      InGroups(gs, s, k) + (if n > 0 && heap[n - 1].skidx == s && heap[n - 1].key == k then open else [])
    requires if NewKey(heap, n)
      then PickKey(heap[..n], s, k, w, d) == InGroups(gs', s, k) && Below(gs', heap[n].skidx, heap[n].key)
      else gs' == gs
    ensures var b := heap[n];
      var open' := (if NewKey(heap, n) then [] else open) + Pick(b.vals, b.fromLc, w, d);
      PickKey(heap[..n + 1], s, k, w, d) == InGroups(gs', s, k) + (if b.skidx == s && b.key == k then open' else [])
  {
    PickKeyNext(heap, n, w, d, s, k);
    if heap[n].skidx == s && heap[n].key == k {
      var p := Pick(heap[n].vals, heap[n].fromLc, w, d);
      if NewKey(heap, n) {
        NoGroup(gs', s, k);
      } else {
        Regroup(InGroups(gs, s, k), open, p);
      }
    }
  }

  lemma Regroup(a: seq<Val>, b: seq<Val>, c: seq<Val>)
    ensures (a + b) + c == a + (b + c)
  {
  }

  lemma CollectedFor(heap: seq<Bkv>, n: nat, w: Window, d: Dest, gs: seq<Group>, open: seq<Val>, gs': seq<Group>,
                     s: nat, k: nat)
    requires n < |heap| && HeapOrdered(heap) && Collected(heap, n, w, d, gs, open)
    requires gs' == if NewKey(heap, n) then Close(gs, heap[n - 1], open) else gs
    ensures var b := heap[n];
      var open' := (if NewKey(heap, n) then [] else open) + Pick(b.vals, b.fromLc, w, d);
      PickKey(heap[..n + 1], s, k, w, d) == InGroups(gs', s, k) + (if b.skidx == s && b.key == k then open' else [])
  {
    CollectedBelow(heap, n, w, d, gs, open);
    if n > 0 { ClosedGroups(heap, n, w, d, gs, open); }
    CollectedKey(heap, n, w, d, gs, open, gs', s, k);
  }

  /** Appending entry n, after closing the lists if its key is new. */
  lemma CollectedNext(heap: seq<Bkv>, n: nat, w: Window, d: Dest, gs: seq<Group>, open: seq<Val>)
    requires n < |heap| && HeapOrdered(heap) && Collected(heap, n, w, d, gs, open)
    ensures var b := heap[n];
      var gs' := if NewKey(heap, n) then Close(gs, heap[n - 1], open) else gs;
      Collected(heap, n + 1, w, d, gs', (if NewKey(heap, n) then [] else open) + Pick(b.vals, b.fromLc, w, d))
  {
    CollectedBelow(heap, n, w, d, gs, open);
    var b := heap[n];
    var gs' := if NewKey(heap, n) then Close(gs, heap[n - 1], open) else gs;
    var open' := (if NewKey(heap, n) then [] else open) + Pick(b.vals, b.fromLc, w, d);
    forall s, k ensures PickKey(heap[..n + 1], s, k, w, d)
      == InGroups(gs', s, k) + (if b.skidx == s && b.key == k then open' else []) {
      CollectedFor(heap, n, w, d, gs, open, gs', s, k);
    }
  }

  lemma {:induction false} NoGroup(gs: seq<Group>, s: nat, k: nat)
    requires Below(gs, s, k)
    ensures InGroups(gs, s, k) == []
  {
    if gs != [] { NoGroup(gs[..|gs| - 1], s, k); }
  }

  // ----- nothing lost, nothing doubled, order kept -----

  /** out is vals at the indices f, which rise and are exactly those of the versions bound for d. */
  ghost predicate SentAt(vals: seq<Val>, fromLc: bool, w: Window, d: Dest, out: seq<Val>, f: seq<nat>) {
    && |f| == |out| && (forall x, y :: 0 <= x < y < |f| ==> f[x] < f[y])
    && (forall x :: 0 <= x < |f| ==> f[x] < |vals| && out[x] == vals[f[x]])
    && (forall i :: 0 <= i < |vals| ==> (i in f <==> Destination(vals[i], fromLc, w) == d))
  }

  /** out holds exactly the versions of vals bound for d, in their order. */
  ghost predicate Sent(vals: seq<Val>, fromLc: bool, w: Window, d: Dest, out: seq<Val>) {
    exists f: seq<nat> :: SentAt(vals, fromLc, w, d, out, f)
  }

  lemma {:induction false} PickSends(vals: seq<Val>, fromLc: bool, w: Window, d: Dest) returns (f: seq<nat>)
    ensures SentAt(vals, fromLc, w, d, Pick(vals, fromLc, w, d), f)
  {
    f := [];
    if vals != [] {
      var n := |vals| - 1;
      var g := PickSends(vals[..n], fromLc, w, d);
      f := g + if Destination(vals[n], fromLc, w) == d then [n] else [];
      forall i | 0 <= i < |vals| ensures i in f <==> Destination(vals[i], fromLc, w) == d {
        if i < n { assert i in f <==> i in g; }
      }
    }
  }

  /** Where the first n versions of a list are v, bound for d. */
  function Indices(vals: seq<Val>, n: nat, fromLc: bool, w: Window, d: Dest, v: Val): set<int>
    requires n <= |vals|
  {
    set i | 0 <= i < n && vals[i] == v && Destination(v, fromLc, w) == d
  }

  lemma MoreIndices(vals: seq<Val>, n: nat, fromLc: bool, w: Window, d: Dest, v: Val)
    requires n < |vals|
    ensures |Indices(vals, n + 1, fromLc, w, d, v)| ==
      |Indices(vals, n, fromLc, w, d, v)| + (if vals[n] == v && Destination(v, fromLc, w) == d then 1 else 0)
  {
    var a, b := Indices(vals, n + 1, fromLc, w, d, v), Indices(vals, n, fromLc, w, d, v);
    if vals[n] == v && Destination(v, fromLc, w) == d {
      assert a == b + {n};
    } else {
      assert a == b;
    }
  }

  /** As many copies of v go to d as there are places where the list has v bound for d. */
  lemma {:induction false} PickCount(vals: seq<Val>, n: nat, fromLc: bool, w: Window, d: Dest, v: Val)
    requires n <= |vals|
    ensures multiset(Pick(vals[..n], fromLc, w, d))[v] == |Indices(vals, n, fromLc, w, d, v)|
  {
    if n == 0 {
      assert Indices(vals, n, fromLc, w, d, v) == {};
    } else {
      PickCount(vals, n - 1, fromLc, w, d, v);
      assert vals[..n][..n - 1] == vals[..n - 1];
      PickedMore(vals[..n], fromLc, w, d);
      MoreIndices(vals, n - 1, fromLc, w, d, v);
    }
  }

  predicate Before(a: (nat, nat), b: (nat, nat)) {
    a.0 < b.0 || (a.0 == b.0 && a.1 < b.1)
  }

  /** Version i of entry e belongs to the key and is bound for d. */
  predicate Bound(heap: seq<Bkv>, e: int, i: int, s: nat, k: nat, w: Window, d: Dest) {
    && 0 <= e < |heap| && 0 <= i < |heap[e].vals| && heap[e].skidx == s && heap[e].key == k
    && Destination(heap[e].vals[i], heap[e].fromLc, w) == d
  }

  ghost predicate KeySentAt(heap: seq<Bkv>, s: nat, k: nat, w: Window, d: Dest, out: seq<Val>, f: seq<(nat, nat)>) {
    && |f| == |out| && (forall x, y :: 0 <= x < y < |f| ==> Before(f[x], f[y]))
    && (forall x :: 0 <= x < |f| ==>
          Bound(heap, f[x].0, f[x].1, s, k, w, d) && out[x] == heap[f[x].0].vals[f[x].1])
    && (forall e: nat, i: nat :: Bound(heap, e, i, s, k, w, d) ==> (e, i) in f)
  }

  /** out holds exactly the versions of the key bound for d, in the order they come off the
      heap. */
  ghost predicate KeySent(heap: seq<Bkv>, s: nat, k: nat, w: Window, d: Dest, out: seq<Val>) {
    exists f: seq<(nat, nat)> :: KeySentAt(heap, s, k, w, d, out, f)
  }

  lemma {:induction false} PickKeySends(heap: seq<Bkv>, s: nat, k: nat, w: Window, d: Dest) returns (f: seq<(nat, nat)>)
    ensures KeySentAt(heap, s, k, w, d, PickKey(heap, s, k, w, d), f)
  {
    f := [];
    if heap != [] {
      var n := |heap| - 1;
      var g := PickKeySends(heap[..n], s, k, w, d);
      if heap[n].skidx == s && heap[n].key == k {
        var h := PickSends(heap[n].vals, heap[n].fromLc, w, d);
        f := KeySentNext(heap, s, k, w, d, g, h);
      } else {
        f := g;
        forall e: nat, i: nat | Bound(heap, e, i, s, k, w, d) ensures (e, i) in f {
          assert Bound(heap[..n], e, i, s, k, w, d);
        }
      }
    }
  }

  lemma KeySentNext(heap: seq<Bkv>, s: nat, k: nat, w: Window, d: Dest, g: seq<(nat, nat)>, h: seq<nat>)
    returns (f: seq<(nat, nat)>)
    requires heap != []
    requires var n := |heap| - 1;
      && heap[n].skidx == s && heap[n].key == k
      && KeySentAt(heap[..n], s, k, w, d, PickKey(heap[..n], s, k, w, d), g)
      && SentAt(heap[n].vals, heap[n].fromLc, w, d, Pick(heap[n].vals, heap[n].fromLc, w, d), h)
    ensures KeySentAt(heap, s, k, w, d, PickKey(heap, s, k, w, d), f)
  {
    var n := |heap| - 1;
    f := g + seq(|h|, x requires 0 <= x < |h| => (n, h[x]));
    var p, q := PickKey(heap[..n], s, k, w, d), Pick(heap[n].vals, heap[n].fromLc, w, d);
    assert PickKey(heap, s, k, w, d) == p + q;
    forall x | 0 <= x < |f|
      ensures Bound(heap, f[x].0, f[x].1, s, k, w, d) && (p + q)[x] == heap[f[x].0].vals[f[x].1] {
      KeySentEach(heap, s, k, w, d, p, q, g, h, x);
    }
    forall e: nat, i: nat | Bound(heap, e, i, s, k, w, d) ensures (e, i) in f {
      var x := KeySentFind(heap, s, k, w, d, p, q, g, h, e, i);
      assert f[x] == (e, i);
    }
    forall x, y | 0 <= x < y < |f| ensures Before(f[x], f[y]) {
      if y < |g| { assert f[x] == g[x] && f[y] == g[y]; }
    }
  }

  lemma KeySentFind(heap: seq<Bkv>, s: nat, k: nat, w: Window, d: Dest, p: seq<Val>, q: seq<Val>,
                    g: seq<(nat, nat)>, h: seq<nat>, e: nat, i: nat) returns (x: nat)
    requires heap != [] && Bound(heap, e, i, s, k, w, d)
    requires var n := |heap| - 1;
      KeySentAt(heap[..n], s, k, w, d, p, g) && SentAt(heap[n].vals, heap[n].fromLc, w, d, q, h)
    ensures x < |g| + |h| && (e, i) == if x < |g| then g[x] else (|heap| - 1, h[x - |g|])
  {
    var n := |heap| - 1;
    if e < n {
      assert Bound(heap[..n], e, i, s, k, w, d);
      x :| 0 <= x < |g| && g[x] == (e, i);
    } else {
      var y :| 0 <= y < |h| && h[y] == i;
      x := |g| + y;
    }
  }

  lemma KeySentEach(heap: seq<Bkv>, s: nat, k: nat, w: Window, d: Dest, p: seq<Val>, q: seq<Val>,
                    g: seq<(nat, nat)>, h: seq<nat>, x: nat)
    requires heap != [] && x < |g| + |h|
    requires var n := |heap| - 1;
      && heap[n].skidx == s && heap[n].key == k
      && KeySentAt(heap[..n], s, k, w, d, p, g) && SentAt(heap[n].vals, heap[n].fromLc, w, d, q, h)
    ensures var n := |heap| - 1;
      var (e, i) := if x < |g| then g[x] else (n, h[x - |g|]);
      Bound(heap, e, i, s, k, w, d) && (p + q)[x] == heap[e].vals[i]
  {
    var n := |heap| - 1;
    if x < |g| {
      assert Bound(heap[..n], g[x].0, g[x].1, s, k, w, d);
    } else {
      assert h[x - |g|] in h;
    }
  }

  /** In ordered groups a key has at most one. */
  lemma {:induction false} OneGroup(gs: seq<Group>, g: nat)
    requires GroupsOrdered(gs) && g < |gs|
    ensures InGroups(gs, gs[g].skidx, gs[g].key) == gs[g].vals
  {
    var n := |gs| - 1;
    if g < n {
      assert gs[..n][g] == gs[g] && KeyLess(gs[g].skidx, gs[g].key, gs[n].skidx, gs[n].key);
      OneGroup(gs[..n], g);
    } else {
      NoGroup(gs[..n], gs[n].skidx, gs[n].key);
    }
  }

  lemma {:induction false} HasGroup(gs: seq<Group>, s: nat, k: nat) returns (g: nat)
    requires InGroups(gs, s, k) != []
    ensures g < |gs| && gs[g].skidx == s && gs[g].key == k
  {
    g := |gs| - 1;
    if gs[g].skidx != s || gs[g].key != k { g := HasGroup(gs[..g], s, k); }
  }

  /** gs has one group for each key with a version bound for d, and that group holds exactly
      those versions, in the order they come off the heap. */
  ghost predicate Sorted(heap: seq<Bkv>, w: Window, d: Dest, gs: seq<Group>) {
    && GroupsOrdered(gs)
    && (forall g :: 0 <= g < |gs| ==> KeySent(heap, gs[g].skidx, gs[g].key, w, d, gs[g].vals))
    && (forall e, i, s, k :: Bound(heap, e, i, s, k, w, d) ==>
          exists g :: 0 <= g < |gs| && gs[g].skidx == s && gs[g].key == k)
  }

  lemma GroupsSorted(heap: seq<Bkv>, w: Window, d: Dest, gs: seq<Group>)
    requires GroupsOrdered(gs) && forall s, k :: InGroups(gs, s, k) == PickKey(heap, s, k, w, d)
    ensures Sorted(heap, w, d, gs)
  {
    forall g | 0 <= g < |gs| ensures KeySent(heap, gs[g].skidx, gs[g].key, w, d, gs[g].vals) {
      OneGroup(gs, g);
      var f := PickKeySends(heap, gs[g].skidx, gs[g].key, w, d);
    }
    forall e, i, s, k | Bound(heap, e, i, s, k, w, d)
      ensures exists g :: 0 <= g < |gs| && gs[g].skidx == s && gs[g].key == k {
      var f := PickKeySends(heap, s, k, w, d);
      assert (e, i) in f;
      var g := HasGroup(gs, s, k);
    }
  }

  // ----- conservation -----

  ghost function HeapVals(heap: seq<Bkv>): multiset<Val> {
    if heap == [] then multiset{} else HeapVals(heap[..|heap| - 1]) + multiset(heap[|heap| - 1].vals)
  }

  ghost function GroupVals(gs: seq<Group>): multiset<Val> {
    if gs == [] then multiset{} else GroupVals(gs[..|gs| - 1]) + multiset(gs[|gs| - 1].vals)
  }

  /** The versions of a list that are dropped. */
  ghost function Dropped(vals: seq<Val>, fromLc: bool, w: Window): multiset<Val> {
    if vals == [] then multiset{}
    else
      var n := |vals| - 1;
      Dropped(vals[..n], fromLc, w)
        + (if Destination(vals[n], fromLc, w) == Neither then multiset{vals[n]} else multiset{})
  }

  ghost function AllDropped(heap: seq<Bkv>, w: Window): multiset<Val> {
    if heap == [] then multiset{}
    else
      var n := |heap| - 1;
      AllDropped(heap[..n], w) + Dropped(heap[n].vals, heap[n].fromLc, w)
  }

  lemma PickedMore(vals: seq<Val>, fromLc: bool, w: Window, d: Dest)
    requires vals != []
    ensures var n := |vals| - 1;
      multiset(Pick(vals, fromLc, w, d)) ==
      multiset(Pick(vals[..n], fromLc, w, d))
      + (if Destination(vals[n], fromLc, w) == d then multiset{vals[n]} else multiset{})
  {
  }

  lemma {:induction false} EntryConserved(vals: seq<Val>, fromLc: bool, w: Window)
    ensures multiset(Pick(vals, fromLc, w, Cn)) + multiset(Pick(vals, fromLc, w, Lc)) + Dropped(vals, fromLc, w)
      == multiset(vals)
  {
    if vals != [] {
      var n := |vals| - 1;
      EntryConserved(vals[..n], fromLc, w);
      PickedMore(vals, fromLc, w, Cn);
      PickedMore(vals, fromLc, w, Lc);
      LastApart(vals);
    }
  }

  lemma LastApart(vals: seq<Val>)
    requires vals != []
    ensures multiset(vals) == multiset(vals[..|vals| - 1]) + multiset{vals[|vals| - 1]}
  {
    assert vals == vals[..|vals| - 1] + [vals[|vals| - 1]];
  }

  lemma ClosedVals(gs: seq<Group>, b: Bkv, open: seq<Val>)
    ensures GroupVals(Close(gs, b, open)) == GroupVals(gs) + multiset(open)
  {
    if open != [] { assert Close(gs, b, open)[..|gs|] == gs; }
  }

  /** What has been popped is in a group, in an open list, or dropped. */
  ghost predicate Conserved(heap: seq<Bkv>, n: nat, w: Window, cn: seq<Group>, cnOpen: seq<Val>,
                            lc: seq<Group>, lcOpen: seq<Val>)
    requires n <= |heap|
  {
    GroupVals(cn) + multiset(cnOpen) + GroupVals(lc) + multiset(lcOpen) + AllDropped(heap[..n], w)
      == HeapVals(heap[..n])
  }

  lemma ConservedNext(heap: seq<Bkv>, n: nat, w: Window, cn: seq<Group>, cnOpen: seq<Val>,
                      lc: seq<Group>, lcOpen: seq<Val>)
    requires n < |heap| && Conserved(heap, n, w, cn, cnOpen, lc, lcOpen)
    ensures var b := heap[n];
      Conserved(heap, n + 1, w, cn, cnOpen + Pick(b.vals, b.fromLc, w, Cn), lc, lcOpen + Pick(b.vals, b.fromLc, w, Lc))
  {
    assert heap[..n + 1][..n] == heap[..n];
    EntryConserved(heap[n].vals, heap[n].fromLc, w);
  }

  /** The state of the loop after n entries. */
  ghost predicate LoopOk(heap: seq<Bkv>, n: nat, w: Window, cn: seq<Group>, cnOpen: seq<Val>,
                         lc: seq<Group>, lcOpen: seq<Val>)
    requires n <= |heap|
  {
    && Collected(heap, n, w, Cn, cn, cnOpen) && Collected(heap, n, w, Lc, lc, lcOpen)
    && Conserved(heap, n, w, cn, cnOpen, lc, lcOpen)
  }

  /** The lists of entry n after the entry before it: closed and empty if the key is new. */
  function Lists(heap: seq<Bkv>, n: nat, gs: seq<Group>, open: seq<Val>): (r: (seq<Group>, seq<Val>))
    requires n < |heap|
  {
    if NewKey(heap, n) then (Close(gs, heap[n - 1], open), []) else (gs, open)
  }

  lemma ConservedLists(heap: seq<Bkv>, n: nat, w: Window, cn: seq<Group>, cnOpen: seq<Val>,
                       lc: seq<Group>, lcOpen: seq<Val>)
    requires n < |heap| && Conserved(heap, n, w, cn, cnOpen, lc, lcOpen)
    ensures var (cn', cnOpen'), (lc', lcOpen') := Lists(heap, n, cn, cnOpen), Lists(heap, n, lc, lcOpen);
      Conserved(heap, n, w, cn', cnOpen', lc', lcOpen')
  {
    if NewKey(heap, n) {
      ClosedVals(cn, heap[n - 1], cnOpen);
      ClosedVals(lc, heap[n - 1], lcOpen);
    }
  }

  lemma LoopNext(heap: seq<Bkv>, n: nat, w: Window, cn: seq<Group>, cnOpen: seq<Val>, lc: seq<Group>, lcOpen: seq<Val>)
    requires n < |heap| && HeapOrdered(heap) && LoopOk(heap, n, w, cn, cnOpen, lc, lcOpen)
    ensures var b := heap[n];
      var (cn', cnOpen'), (lc', lcOpen') := Lists(heap, n, cn, cnOpen), Lists(heap, n, lc, lcOpen);
      LoopOk(heap, n + 1, w, cn', cnOpen' + Pick(b.vals, b.fromLc, w, Cn),
             lc', lcOpen' + Pick(b.vals, b.fromLc, w, Lc))
  {
    var (cn', cnOpen') := Lists(heap, n, cn, cnOpen);
    var (lc', lcOpen') := Lists(heap, n, lc, lcOpen);
    CollectedNext(heap, n, w, Cn, cn, cnOpen);
    CollectedNext(heap, n, w, Lc, lc, lcOpen);
    ConservedLists(heap, n, w, cn, cnOpen, lc, lcOpen);
    ConservedNext(heap, n, w, cn', cnOpen', lc', lcOpen');
  }

  /** What the loop leaves behind. */
  ghost predicate Merged(heap: seq<Bkv>, w: Window, cn: seq<Group>, lc: seq<Group>) {
    && Sorted(heap, w, Cn, cn) && Sorted(heap, w, Lc, lc)
    && GroupVals(cn) + GroupVals(lc) + AllDropped(heap, w) == HeapVals(heap)
  }

  lemma LoopEnd(heap: seq<Bkv>, w: Window, cn: seq<Group>, cnOpen: seq<Val>, lc: seq<Group>, lcOpen: seq<Val>)
    requires heap != [] && LoopOk(heap, |heap|, w, cn, cnOpen, lc, lcOpen)
    ensures var cn', lc' := Close(cn, heap[|heap| - 1], cnOpen), Close(lc, heap[|heap| - 1], lcOpen);
      && Merged(heap, w, cn', lc')
      && (forall s, k :: InGroups(cn', s, k) == PickKey(heap, s, k, w, Cn))
      && forall s, k :: InGroups(lc', s, k) == PickKey(heap, s, k, w, Lc)
  {
    var n := |heap|;
    assert heap[..n] == heap;
    ClosedGroups(heap, n, w, Cn, cn, cnOpen);
    ClosedGroups(heap, n, w, Lc, lc, lcOpen);
    ClosedVals(cn, heap[n - 1], cnOpen);
    ClosedVals(lc, heap[n - 1], lcOpen);
    GroupsSorted(heap, w, Cn, Close(cn, heap[n - 1], cnOpen));
    GroupsSorted(heap, w, Lc, Close(lc, heap[n - 1], lcOpen));
  }

  /** The inner loop: the versions of one entry. */
  method SplitVals(bkv: Bkv, w: Window) returns (cn: seq<Val>, lc: seq<Val>)
    ensures cn == Pick(bkv.vals, bkv.fromLc, w, Cn) && lc == Pick(bkv.vals, bkv.fromLc, w, Lc)
    ensures Sent(bkv.vals, bkv.fromLc, w, Cn, cn) && Sent(bkv.vals, bkv.fromLc, w, Lc, lc)
    ensures forall v :: multiset(cn)[v] == |Indices(bkv.vals, |bkv.vals|, bkv.fromLc, w, Cn, v)|
    ensures forall v :: multiset(lc)[v] == |Indices(bkv.vals, |bkv.vals|, bkv.fromLc, w, Lc, v)|
  {
    cn, lc := [], [];
    for i := 0 to |bkv.vals|
      invariant cn == Pick(bkv.vals[..i], bkv.fromLc, w, Cn) && lc == Pick(bkv.vals[..i], bkv.fromLc, w, Lc)
    {
      assert bkv.vals[..i + 1][..i] == bkv.vals[..i];
      var val := bkv.vals[i];
      if val.state.Aborted? { continue; }
      if val.state.Defined? && val.state.seqno < w.min { continue; }
      var inView := val.state.Defined? && val.state.seqno <= w.max;
      var allTxnEntries := val.indirect && w.gen >= val.cgen;
      var addToLc := !(inView && (!val.indirect || allTxnEntries));
      if addToLc {
        if bkv.fromLc { continue; }
        lc := lc + [val];
        continue;
      }
      cn := cn + [val];
    }
    assert bkv.vals[..|bkv.vals|] == bkv.vals;
    ghost var f := PickSends(bkv.vals, bkv.fromLc, w, Cn);
    ghost var g := PickSends(bkv.vals, bkv.fromLc, w, Lc);
    forall v
      ensures multiset(cn)[v] == |Indices(bkv.vals, |bkv.vals|, bkv.fromLc, w, Cn, v)|
      ensures multiset(lc)[v] == |Indices(bkv.vals, |bkv.vals|, bkv.fromLc, w, Lc, v)| {
      PickCount(bkv.vals, |bkv.vals|, bkv.fromLc, w, Cn, v);
      PickCount(bkv.vals, |bkv.vals|, bkv.fromLc, w, Lc, v);
    }
  }

  /** One turn of the outer loop: the open lists are closed if the key changes, and the entry's
      versions are added to them. */
  method Turn(heap: seq<Bkv>, n: nat, w: Window, cn: seq<Group>, cnOpen: seq<Val>, lc: seq<Group>, lcOpen: seq<Val>)
    returns (cn': seq<Group>, cnOpen': seq<Val>, lc': seq<Group>, lcOpen': seq<Val>)
    requires n < |heap| && (n == 0 ==> cnOpen == lcOpen == [])
    ensures (cn', cnOpen') == var (gs, open) := Lists(heap, n, cn, cnOpen);
      (gs, open + Pick(heap[n].vals, heap[n].fromLc, w, Cn))
    ensures (lc', lcOpen') == var (gs, open) := Lists(heap, n, lc, lcOpen);
      (gs, open + Pick(heap[n].vals, heap[n].fromLc, w, Lc))
  {
    cn', cnOpen', lc', lcOpen' := cn, cnOpen, lc, lcOpen;
    if (lcOpen != [] || cnOpen != []) && (heap[n].skidx != heap[n - 1].skidx || heap[n].key != heap[n - 1].key) {
      if lcOpen != [] { lc' := lc + [Group(heap[n - 1].skidx, heap[n - 1].key, lcOpen)]; }
      if cnOpen != [] { cn' := cn + [Group(heap[n - 1].skidx, heap[n - 1].key, cnOpen)]; }
      cnOpen', lcOpen' := [], [];
    }
    var toCn, toLc := SplitVals(heap[n], w);
    cnOpen', lcOpen' := cnOpen' + toCn, lcOpen' + toLc;
  }

  /** The outer loop: each key gets one group per destination, holding exactly its versions
      bound there, in the order they came off the heap; and every version on the heap is in one
      group of one destination, or dropped. */
  method MergeLoop(heap: seq<Bkv>, w: Window) returns (cn: seq<Group>, lc: seq<Group>)
    requires HeapOrdered(heap)
    ensures GroupsOrdered(cn) && GroupsOrdered(lc)
    ensures forall s, k :: InGroups(cn, s, k) == PickKey(heap, s, k, w, Cn)
    ensures forall s, k :: InGroups(lc, s, k) == PickKey(heap, s, k, w, Lc)
    ensures Sorted(heap, w, Cn, cn) && Sorted(heap, w, Lc, lc)
    ensures GroupVals(cn) + GroupVals(lc) + AllDropped(heap, w) == HeapVals(heap)
  {
    var cnOpen: seq<Val>, lcOpen: seq<Val> := [], [];
    cn, lc := [], [];
    for n := 0 to |heap|
      invariant LoopOk(heap, n, w, cn, cnOpen, lc, lcOpen)
    {
      LoopNext(heap, n, w, cn, cnOpen, lc, lcOpen);
      cn, cnOpen, lc, lcOpen := Turn(heap, n, w, cn, cnOpen, lc, lcOpen);
    }
    if heap != [] { LoopEnd(heap, w, cn, cnOpen, lc, lcOpen); }
    if lcOpen != [] { lc := lc + [Group(heap[|heap| - 1].skidx, heap[|heap| - 1].key, lcOpen)]; }
    if cnOpen != [] { cn := cn + [Group(heap[|heap| - 1].skidx, heap[|heap| - 1].key, cnOpen)]; }
  }
}
