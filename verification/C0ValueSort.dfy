/**
 The values of one key on their way into cN: sorting the value list, then emitting it.

 A list mixes two classes of values, ordinary values and prefix tombstones, which are
 ordered separately.  The sort works by passes over a linked list: a value that is larger
 than the last one kept of its class is spliced in before the last value kept of any class.
 */
module C0ValueSort {
  const U64_MAX: nat := 0xffff_ffff_ffff_ffff
  type Seqno = n: nat | n < U64_MAX witness 0

  datatype V = V(ptomb: bool, seqno: Seqno, body: int)

  /** The smallest sequence number of a class, U64_MAX if the class is empty. */
  function Least(xs: seq<V>, ptomb: bool): (m: nat)
    ensures m <= U64_MAX
  {
    if xs == [] then U64_MAX
    else
      var m, x := Least(xs[..|xs| - 1], ptomb), xs[|xs| - 1];
      if x.ptomb == ptomb && x.seqno < m then x.seqno else m
  }

  ghost predicate ClassesSorted(xs: seq<V>) {
    forall i, j :: 0 <= i < j < |xs| && xs[i].ptomb == xs[j].ptomb ==> xs[i].seqno >= xs[j].seqno
  }

  // ----- why the passes come to an end -----

  /** Values of ys that should precede x in its class. */
  function Above(ys: seq<V>, x: V): nat {
    if ys == [] then 0
    else (if ys[0].ptomb == x.ptomb && ys[0].seqno > x.seqno then 1 else 0) + Above(ys[1..], x)
  }

  /** Pairs of one class in the wrong order. */
  function Inversions(xs: seq<V>): nat {
    if xs == [] then 0 else Above(xs[1..], xs[0]) + Inversions(xs[1..])
  }

  /** Pairs of a well-placed value and a later misplaced value of the other class; m holds the
      least sequence numbers seen and g the well-placed values seen, by class. */
  function Crossings(xs: seq<V>, m0: nat, m1: nat, g0: nat, g1: nat): nat {
    if xs == [] then 0
    else if !xs[0].ptomb then
      if xs[0].seqno > m0 then g1 + Crossings(xs[1..], m0, m1, g0, g1)
      else Crossings(xs[1..], xs[0].seqno, m1, g0 + 1, g1)
    else
      if xs[0].seqno > m1 then g0 + Crossings(xs[1..], m0, m1, g0, g1)
      else Crossings(xs[1..], m0, xs[0].seqno, g0, g1 + 1)
  }

  function Crosses(xs: seq<V>): nat {
    Crossings(xs, U64_MAX, U64_MAX, 0, 0)
  }

  /** The passes make the list smaller in this order. */
  predicate Less(xs: seq<V>, ys: seq<V>) {
    Inversions(xs) < Inversions(ys) || (Inversions(xs) == Inversions(ys) && Crosses(xs) < Crosses(ys))
  }

  lemma {:induction false} AboveConcat(a: seq<V>, b: seq<V>, x: V)
    ensures Above(a + b, x) == Above(a, x) + Above(b, x)
  {
    if a == [] {
      assert a + b == b;
    } else {
      assert (a + b)[1..] == a[1..] + b;
      AboveConcat(a[1..], b, x);
    }
  }

  lemma AboveSwap(a: seq<V>, p: V, v: V, b: seq<V>, x: V)
    ensures Above(a + [p, v] + b, x) == Above(a + [v, p] + b, x)
  {
    AboveConcat(a + [p, v], b, x);
    AboveConcat(a + [v, p], b, x);
    AboveConcat(a, [p, v], x);
    AboveConcat(a, [v, p], x);
    assert [p, v][1..] == [v] && [v, p][1..] == [p] && [p][1..] == [] && [v][1..] == [];
  }

  /** Swapping neighbours of one class removes an inversion; of different classes, none. */
  lemma {:induction false} InversionsSwap(a: seq<V>, p: V, v: V, b: seq<V>)
    requires p.ptomb == v.ptomb ==> p.seqno < v.seqno
    ensures Inversions(a + [p, v] + b) == Inversions(a + [v, p] + b) + (if p.ptomb == v.ptomb then 1 else 0)
  {
    if a == [] {
      assert a + [p, v] + b == [p] + ([v] + b) && a + [v, p] + b == [v] + ([p] + b);
      assert ([p] + ([v] + b))[1..] == [v] + b && ([v] + ([p] + b))[1..] == [p] + b;
      assert ([v] + b)[1..] == b && ([p] + b)[1..] == b;
    } else {
      var x, r := a[0], a[1..];
      assert (a + [p, v] + b)[1..] == r + [p, v] + b && (a + [v, p] + b)[1..] == r + [v, p] + b;
      InversionsSwap(r, p, v, b);
      AboveSwap(r, p, v, b, x);
    }
  }

  /** The least number of a class, continuing from m. */
  function From(xs: seq<V>, ptomb: bool, m: nat): nat {
    if xs == [] then m
    else From(xs[1..], ptomb, if xs[0].ptomb == ptomb && xs[0].seqno < m then xs[0].seqno else m)
  }

  lemma {:induction false} FromSnoc(xs: seq<V>, x: V, ptomb: bool, m: nat)
    ensures From(xs + [x], ptomb, m) == var l := From(xs, ptomb, m);
      if x.ptomb == ptomb && x.seqno < l then x.seqno else l
  {
    if xs == [] {
      assert (xs + [x])[1..] == [];
    } else {
      assert (xs + [x])[1..] == xs[1..] + [x];
      FromSnoc(xs[1..], x, ptomb, if xs[0].ptomb == ptomb && xs[0].seqno < m then xs[0].seqno else m);
    }
  }

  lemma {:induction false} LeastIsFrom(xs: seq<V>, ptomb: bool)
    ensures Least(xs, ptomb) == From(xs, ptomb, U64_MAX)
  {
    if xs != [] {
      var a, x := xs[..|xs| - 1], xs[|xs| - 1];
      LeastIsFrom(a, ptomb);
      FromSnoc(a, x, ptomb, U64_MAX);
      assert xs == a + [x];
    }
  }

  /** Moving a misplaced value before a well-placed one of the other class. */
  lemma {:induction false} CrossingsSwap(a: seq<V>, p: V, v: V, b: seq<V>, m0: nat, m1: nat, g0: nat, g1: nat)
    requires p.ptomb != v.ptomb
    requires p.seqno <= From(a, p.ptomb, if p.ptomb then m1 else m0)
    requires v.seqno > From(a, v.ptomb, if v.ptomb then m1 else m0)
    ensures Crossings(a + [v, p] + b, m0, m1, g0, g1) < Crossings(a + [p, v] + b, m0, m1, g0, g1)
  {
    if a == [] {
      assert a + [p, v] + b == [p] + ([v] + b) && a + [v, p] + b == [v] + ([p] + b);
      assert ([p] + ([v] + b))[1..] == [v] + b && ([v] + ([p] + b))[1..] == [p] + b;
      assert ([v] + b)[1..] == b && ([p] + b)[1..] == b;
    } else {
      var x, r := a[0], a[1..];
      assert (a + [p, v] + b)[1..] == r + [p, v] + b && (a + [v, p] + b)[1..] == r + [v, p] + b;
      if !x.ptomb {
        if x.seqno > m0 {
          CrossingsSwap(r, p, v, b, m0, m1, g0, g1);
        } else {
          CrossingsSwap(r, p, v, b, x.seqno, m1, g0 + 1, g1);
        }
      } else {
        if x.seqno > m1 {
          CrossingsSwap(r, p, v, b, m0, m1, g0, g1);
        } else {
          CrossingsSwap(r, p, v, b, m0, x.seqno, g0, g1 + 1);
        }
      }
    }
  }

  /** Splicing a misplaced value in before the last value kept is progress. */
  lemma SpliceIsLess(a: seq<V>, p: V, v: V, b: seq<V>)
    requires p.seqno == Least(a + [p], p.ptomb) && v.seqno > Least(a + [p], v.ptomb)
    ensures Less(a + [v, p] + b, a + [p, v] + b)
  {
    assert (a + [p])[..|a|] == a;
    InversionsSwap(a, p, v, b);
    if p.ptomb != v.ptomb {
      LeastIsFrom(a, p.ptomb);
      LeastIsFrom(a, v.ptomb);
      CrossingsSwap(a, p, v, b, U64_MAX, U64_MAX, 0, 0);
    }
  }

  lemma {:induction false} LeastOfAll(xs: seq<V>, ptomb: bool)
    ensures forall i :: 0 <= i < |xs| && xs[i].ptomb == ptomb ==> Least(xs, ptomb) <= xs[i].seqno
    ensures Least(xs, ptomb) < U64_MAX ==>
      exists i :: 0 <= i < |xs| && xs[i].ptomb == ptomb && xs[i].seqno == Least(xs, ptomb)
  {
    if xs != [] {
      var n := |xs| - 1;
      LeastOfAll(xs[..n], ptomb);
      if Least(xs, ptomb) == Least(xs[..n], ptomb) < U64_MAX {
        var i :| 0 <= i < n && xs[..n][i].ptomb == ptomb && xs[..n][i].seqno == Least(xs, ptomb);
        assert xs[i].seqno == Least(xs, ptomb);
      }
    }
  }

  lemma LeastSnoc(xs: seq<V>, x: V, ptomb: bool)
    ensures Least(xs + [x], ptomb) ==
      if x.ptomb == ptomb && x.seqno < Least(xs, ptomb) then x.seqno else Least(xs, ptomb)
  {
    assert (xs + [x])[..|xs|] == xs;
  }

  /** A list in which every value was kept is sorted by class. */
  lemma KeptIsSorted(xs: seq<V>, x: V)
    requires ClassesSorted(xs) && x.seqno <= Least(xs, x.ptomb)
    ensures ClassesSorted(xs + [x])
  {
    LeastOfAll(xs, x.ptomb);
  }

  // ----- equal sequence numbers stay in order -----

  /** The values of one class and sequence number, in list order. */
  function Peers(xs: seq<V>, ptomb: bool, q: Seqno): seq<V> {
    if xs == [] then []
    else (if xs[0].ptomb == ptomb && xs[0].seqno == q then [xs[0]] else []) + Peers(xs[1..], ptomb, q)
  }

  /** Peers is a filter: it goes through concatenation, and keeps a single value or not. */
  lemma {:induction false} PeersConcat(a: seq<V>, b: seq<V>, ptomb: bool, q: Seqno)
    ensures Peers(a + b, ptomb, q) == Peers(a, ptomb, q) + Peers(b, ptomb, q)
    ensures |a| == 1 ==> Peers(a, ptomb, q) == if a[0].ptomb == ptomb && a[0].seqno == q then a else []
  {
    if |a| == 1 { assert a[1..] == [] && a == [a[0]]; }
    if a == [] {
      assert a + b == b;
    } else {
      assert (a + b)[1..] == a[1..] + b;
      PeersConcat(a[1..], b, ptomb, q);
    }
  }

  ghost predicate SamePeers(xs: seq<V>, ys: seq<V>) {
    forall c, q :: Peers(xs, c, q) == Peers(ys, c, q)
  }

  lemma SpliceKeepsPeers(a: seq<V>, p: V, v: V)
    requires p.ptomb != v.ptomb || p.seqno != v.seqno
    ensures SamePeers(a + [v, p], a + [p, v])
  {
    forall c, q ensures Peers(a + [v, p], c, q) == Peers(a + [p, v], c, q) {
      PeersConcat(a, [v, p], c, q);
      PeersConcat(a, [p, v], c, q);
      assert [p, v][1..] == [v] && [v, p][1..] == [p] && [p][1..] == [] && [v][1..] == [];
    }
  }

  lemma PeersSnoc(xs: seq<V>, ys: seq<V>, x: V)
    requires SamePeers(xs, ys)
    ensures SamePeers(xs + [x], ys + [x])
  {
    forall c, q ensures Peers(xs + [x], c, q) == Peers(ys + [x], c, q) {
      PeersConcat(xs, [x], c, q);
      PeersConcat(ys, [x], c, q);
    }
  }

  // ----- the sort -----

  lemma Splice(a: seq<V>, p: V, v: V, b: seq<V>)
    requires p.seqno == Least(a + [p], p.ptomb) && v.seqno > Least(a + [p], v.ptomb)
    ensures Less(a + [v, p] + b, a + [p, v] + b)
    ensures forall c :: Least(a + [v, p], c) == Least(a + [p], c)
  {
    SpliceIsLess(a, p, v, b);
    forall c ensures Least(a + [v, p], c) == Least(a + [p], c) {
      assert a + [v, p] == (a + [v]) + [p];
      LeastSnoc(a + [v], p, c);
      LeastSnoc(a, v, c);
      LeastSnoc(a, p, c);
    }
  }

  lemma LessThrough(xs: seq<V>, ys: seq<V>, zs: seq<V>)
    requires Less(xs, ys) && (ys == zs || Less(ys, zs))
    ensures Less(xs, zs)
  {
  }

  /** The state of a pass before value i: done is the part already walked, ending in the last
      value kept, and p0 and p1 are the last sequence numbers kept. */
  ghost predicate PassInv(vals: seq<V>, i: nat, done: seq<V>, p0: nat, p1: nat, unsorted: nat) {
    && i <= |vals| && |done| == i && multiset(done) == multiset(vals[..i]) && SamePeers(done, vals[..i])
    && p0 == Least(done, false) && p1 == Least(done, true)
    && (done != [] ==> var p := done[i - 1]; p.seqno == if p.ptomb then p1 else p0)
    && (unsorted == 0 ==> done == vals[..i] && ClassesSorted(done))
    && (unsorted > 0 ==> !ClassesSorted(vals) && Less(done + vals[i..], vals))
  }

  lemma SpliceMembers(vals: seq<V>, i: nat, done: seq<V>, a: seq<V>, p: V)
    requires i < |vals| && done == a + [p] && multiset(done) == multiset(vals[..i]) && SamePeers(done, vals[..i])
    requires p.ptomb != vals[i].ptomb || p.seqno != vals[i].seqno
    ensures multiset(a + [vals[i], p]) == multiset(vals[..i + 1]) && SamePeers(a + [vals[i], p], vals[..i + 1])
  {
    var val := vals[i];
    assert vals[..i + 1] == vals[..i] + [val] && done + [val] == a + [p, val];
    PeersSnoc(done, vals[..i], val);
    SpliceKeepsPeers(a, p, val);
  }

  lemma SpliceStep(vals: seq<V>, i: nat, done: seq<V>, p0: nat, p1: nat, unsorted: nat)
    requires PassInv(vals, i, done, p0, p1, unsorted) && i < |vals| && vals[i].seqno > if vals[i].ptomb then p1 else p0
    ensures i > 0 && PassInv(vals, i + 1, done[..i - 1] + [vals[i], done[i - 1]], p0, p1, unsorted + 1)
  {
    var val, rest := vals[i], vals[i + 1..];
    var a, p := done[..i - 1], done[i - 1];
    assert done == a + [p] && vals == vals[..i] + vals[i..];
    SpliceMembers(vals, i, done, a, p);
    Splice(a, p, val, rest);
    assert done + vals[i..] == a + [p, val] + rest;
    LessThrough(a + [val, p] + rest, done + vals[i..], vals);
    if unsorted == 0 { Misplaced(vals, i); }
  }

  lemma KeepStep(vals: seq<V>, i: nat, done: seq<V>, p0: nat, p1: nat, unsorted: nat)
    requires PassInv(vals, i, done, p0, p1, unsorted) && i < |vals| && vals[i].seqno <= if vals[i].ptomb then p1 else p0
    ensures var val := vals[i];
      PassInv(vals, i + 1, done + [val],
              if val.ptomb then p0 else val.seqno, if val.ptomb then val.seqno else p1, unsorted)
  {
    var val := vals[i];
    assert vals[..i + 1] == vals[..i] + [val];
    PeersSnoc(done, vals[..i], val);
    LeastSnoc(done, val, false);
    LeastSnoc(done, val, true);
    assert done + [val] + vals[i + 1..] == done + vals[i..];
    if unsorted == 0 { KeptIsSorted(done, val); }
  }

  /** One pass: a value above the last one kept of its class is spliced in before the last
      value kept; otherwise it is kept. */
  method Pass(vals: seq<V>) returns (done: seq<V>, unsorted: nat)
    ensures multiset(done) == multiset(vals) && SamePeers(done, vals)
    ensures unsorted == 0 <==> ClassesSorted(vals)
    ensures if unsorted == 0 then done == vals else Less(done, vals)
  {
    var seqnoPrev, ptSeqnoPrev := U64_MAX, U64_MAX;
    done, unsorted := [], 0;
    for i := 0 to |vals|
      invariant PassInv(vals, i, done, seqnoPrev, ptSeqnoPrev, unsorted)
    {
      var val := vals[i];
      if val.seqno > if val.ptomb then ptSeqnoPrev else seqnoPrev {
        SpliceStep(vals, i, done, seqnoPrev, ptSeqnoPrev, unsorted);
        done := done[..i - 1] + [val, done[i - 1]];
        unsorted := unsorted + 1;
      } else {
        KeepStep(vals, i, done, seqnoPrev, ptSeqnoPrev, unsorted);
        done := done + [val];
        if val.ptomb { ptSeqnoPrev := val.seqno; } else { seqnoPrev := val.seqno; }
      }
    }
    assert done + vals[|vals|..] == done && vals[..|vals|] == vals;
  }

  lemma Misplaced(vals: seq<V>, i: nat)
    requires i < |vals| && vals[i].seqno > Least(vals[..i], vals[i].ptomb)
    ensures !ClassesSorted(vals)
  {
    LeastOfAll(vals[..i], vals[i].ptomb);
    var j :| 0 <= j < i && vals[..i][j].ptomb == vals[i].ptomb && vals[..i][j].seqno == Least(vals[..i], vals[i].ptomb);
    assert vals[j].seqno < vals[i].seqno;
  }

  /** The sort: passes until nothing was out of place. */
  method SortVals(vals: seq<V>) returns (r: seq<V>)
    ensures multiset(r) == multiset(vals) && ClassesSorted(r) && SamePeers(r, vals)
    ensures ClassesSorted(vals) ==> r == vals
  {
    var unsorted;
    r, unsorted := Pass(vals);
    while unsorted > 0
      invariant multiset(r) == multiset(vals) && SamePeers(r, vals)
      invariant unsorted == 0 ==> ClassesSorted(r)
      invariant ClassesSorted(vals) ==> r == vals && unsorted == 0
      decreases Inversions(r), Crosses(r), unsorted
    {
      r, unsorted := Pass(r);
    }
  }

  // ----- emitting the sorted list -----

  ghost predicate StrictlySorted(xs: seq<V>) {
    forall i, j :: 0 <= i < j < |xs| && xs[i].ptomb == xs[j].ptomb ==> xs[i].seqno > xs[j].seqno
  }

  ghost predicate FirstOfPeers(v: V, xs: seq<V>) {
    var peers := Peers(xs, v.ptomb, v.seqno);
    peers != [] && v == peers[0]
  }

  ghost predicate HasPeer(v: V, xs: seq<V>) {
    exists i :: 0 <= i < |xs| && xs[i].ptomb == v.ptomb && xs[i].seqno == v.seqno
  }

  /** out is what the list xs becomes. */
  ghost predicate Emitted(xs: seq<V>, out: seq<V>) {
    && StrictlySorted(out)
    && (forall i :: 0 <= i < |out| ==> FirstOfPeers(out[i], xs))
    && (forall i :: 0 <= i < |xs| ==> HasPeer(xs[i], out))
  }

  lemma EmitSkips(xs: seq<V>, out: seq<V>, x: V)
    requires Emitted(xs, out) && x.seqno == Least(out, x.ptomb)
    ensures Emitted(xs + [x], out)
  {
    LeastOfAll(out, x.ptomb);
    assert HasPeer(x, out);
    forall i | 0 <= i < |out| ensures FirstOfPeers(out[i], xs + [x]) {
      PeersConcat(xs, [x], out[i].ptomb, out[i].seqno);
    }
  }

  lemma EmitAdds(xs: seq<V>, out: seq<V>, x: V)
    requires Emitted(xs, out) && x.seqno < Least(out, x.ptomb) == Least(xs, x.ptomb)
    ensures Emitted(xs + [x], out + [x])
  {
    LeastOfAll(out, x.ptomb);
    NoPeersBelow(xs, x.ptomb, x.seqno);
    var out' := out + [x];
    forall i | 0 <= i < |out'| ensures FirstOfPeers(out'[i], xs + [x]) {
      PeersConcat(xs, [x], out'[i].ptomb, out'[i].seqno);
    }
    forall i | 0 <= i < |xs + [x]| ensures HasPeer((xs + [x])[i], out') {
      if i < |xs| {
        var j :| 0 <= j < |out| && out[j].ptomb == xs[i].ptomb && out[j].seqno == xs[i].seqno;
        assert out'[j] == out[j];
      } else {
        assert out'[|out|] == x;
      }
    }
  }

  /** The values handed to the kvset builder: each class strictly falling, and of equal
      sequence numbers in a class the first. */
  method EmitVals(vlist: seq<V>) returns (out: seq<V>)
    requires ClassesSorted(vlist)
    ensures Emitted(vlist, out)
  {
    var seqnoPrev, ptSeqnoPrev := U64_MAX, U64_MAX;
    out := [];
    for n := 0 to |vlist|
      invariant Emitted(vlist[..n], out)
      invariant seqnoPrev == Least(out, false) == Least(vlist[..n], false)
      invariant ptSeqnoPrev == Least(out, true) == Least(vlist[..n], true)
    {
      var val := vlist[n];
      ghost var before := out;
      assert vlist[..n + 1] == vlist[..n] + [val];
      NotAbove(vlist, n);
      LeastSnoc(vlist[..n], val, false);
      LeastSnoc(vlist[..n], val, true);
      if val.seqno == if val.ptomb then ptSeqnoPrev else seqnoPrev {
        EmitSkips(vlist[..n], out, val);
      } else {
        EmitAdds(vlist[..n], out, val);
        out := out + [val];
        LeastSnoc(before, val, false);
        LeastSnoc(before, val, true);
        if val.ptomb { ptSeqnoPrev := val.seqno; } else { seqnoPrev := val.seqno; }
      }
    }
    assert vlist[..|vlist|] == vlist;
  }

  /** In a sorted list no value is above the least one before it. */
  lemma NotAbove(vlist: seq<V>, n: nat)
    requires ClassesSorted(vlist) && n < |vlist|
    ensures vlist[n].seqno <= Least(vlist[..n], vlist[n].ptomb)
  {
    if vlist[n].seqno > Least(vlist[..n], vlist[n].ptomb) { Misplaced(vlist, n); }
  }

  lemma {:induction false} NoPeersBelow(xs: seq<V>, ptomb: bool, q: Seqno)
    requires q < Least(xs, ptomb)
    ensures Peers(xs, ptomb, q) == []
  {
    if xs != [] {
      LeastOfAll(xs, ptomb);
      NoneIsPeer(xs, ptomb, q);
    }
  }

  lemma {:induction false} NoneIsPeer(xs: seq<V>, ptomb: bool, q: Seqno)
    requires forall i :: 0 <= i < |xs| ==> xs[i].ptomb != ptomb || xs[i].seqno != q
    ensures Peers(xs, ptomb, q) == []
  {
    if xs != [] { NoneIsPeer(xs[1..], ptomb, q); }
  }

  /** The whole callback for one key: whatever the order the values came in, each class comes
      out strictly falling, with the earliest of the values that share a sequence number. */
  method IngestKey(vals: seq<V>) returns (out: seq<V>)
    ensures Emitted(vals, out)
  {
    var r := SortVals(vals);
    out := EmitVals(r);
    EmittedFromSorted(vals, r, out);
  }

  lemma EmittedFromSorted(vals: seq<V>, r: seq<V>, out: seq<V>)
    requires multiset(r) == multiset(vals) && SamePeers(r, vals) && Emitted(r, out)
    ensures Emitted(vals, out)
  {
    forall i | 0 <= i < |vals| ensures HasPeer(vals[i], out) {
      assert vals[i] in multiset(r);
      var j :| 0 <= j < |r| && r[j] == vals[i];
      assert HasPeer(r[j], out);
    }
    forall i | 0 <= i < |out| ensures FirstOfPeers(out[i], vals) { assert FirstOfPeers(out[i], r); }
  }
}
