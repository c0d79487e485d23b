/**
 Lookup over the list of kvmultisets, newest first, for ordinal sequence numbers.

 Each kvmultiset holds the version lists of its keys and, in a set of its own, the prefix
 tombstones.
 */
module C0Lookup {
  import opened Options
  import opened C0ValueLists

  type Key = seq<int>

  datatype Kvms = Kvms(keys: map<Key, seq<Version>>, ptombs: map<Key, seq<Version>>)

  datatype Answer = NotFound | FoundVal(body: int) | FoundTomb | FoundPtomb

  function Numbers(l: seq<Version>): set<nat> {
    set i | 0 <= i < |l| && l[i].ref.Ordinal? :: l[i].ref.n
  }

  function ListOf(m: map<Key, seq<Version>>, k: Key): seq<Version> {
    if k in m then m[k] else []
  }

  /** Sequence numbers are ordinal, start at 1 and differ within a list. */
  ghost predicate OrdinalList(l: seq<Version>) {
    && (forall i :: 0 <= i < |l| ==> l[i].ref.Ordinal? && 1 <= l[i].ref.n)
    && (forall i, j :: 0 <= i < j < |l| ==> l[i].ref != l[j].ref)
  }

  ghost predicate Holds(m: Kvms, n: nat) {
    exists k :: (k in m.keys && n in Numbers(m.keys[k])) || (k in m.ptombs && n in Numbers(m.ptombs[k]))
  }

  ghost predicate Ordinals(m: Kvms) {
    (forall k :: k in m.keys ==> OrdinalList(m.keys[k])) && (forall k :: k in m.ptombs ==> OrdinalList(m.ptombs[k]))
  }

  /** No sequence number of a newer kvmultiset is below one of an older. */
  ghost predicate InOrder(ms: seq<Kvms>) {
    && (forall a :: 0 <= a < |ms| ==> Ordinals(ms[a]))
    && (forall a, b, n: nat, n': nat :: 0 <= a < b < |ms| && Holds(ms[a], n) && Holds(ms[b], n') ==> n' <= n)
  }

  // ----- the flat reference -----

  /** All versions of a key, newest kvmultiset first. */
  function AllVersions(ms: seq<Kvms>, k: Key): seq<Version> {
    if ms == [] then [] else ListOf(ms[0].keys, k) + AllVersions(ms[1..], k)
  }

  function AllPtombs(ms: seq<Kvms>, p: Key): seq<Version> {
    if ms == [] then [] else ListOf(ms[0].ptombs, p) + AllPtombs(ms[1..], p)
  }

  /** The largest visible sequence number in a list, 0 if none. */
  function Newest(l: seq<Version>, view: nat): (n: nat)
    ensures n <= view
  {
    if l == [] then 0
    else
      var n := Newest(l[1..], view);
      if l[0].ref.Ordinal? && n < l[0].ref.n <= view then l[0].ref.n else n
  }

  /** The first version with a given sequence number. */
  function At(l: seq<Version>, n: nat): Option<Version> {
    if l == [] then None else if l[0].ref == Ordinal(n) then Some(l[0]) else At(l[1..], n)
  }

  /** One multi-version map: the newest visible version, unless a visible prefix tombstone is
      newer. */
  function FlatGet(ms: seq<Kvms>, k: Key, prefixLen: nat, view: nat): Answer {
    var n := Newest(AllVersions(ms, k), view);
    var p := if 0 < prefixLen <= |k| then Newest(AllPtombs(ms, k[..prefixLen]), view) else 0;
    if p > n then FoundPtomb
    else match At(AllVersions(ms, k), n)
      case None => NotFound
      case Some(v) => if v.tomb then FoundTomb else FoundVal(v.body)
  }

  // ----- lists -----

  lemma {:induction false} NewestConcat(a: seq<Version>, b: seq<Version>, view: nat)
    ensures Newest(a + b, view) == if Newest(a, view) < Newest(b, view) then Newest(b, view) else Newest(a, view)
  {
    if a == [] {
      assert a + b == b;
    } else {
      assert (a + b)[1..] == a[1..] + b;
      NewestConcat(a[1..], b, view);
    }
  }

  lemma {:induction false} AtConcat(a: seq<Version>, b: seq<Version>, n: nat)
    ensures At(a + b, n) == if At(a, n).Some? then At(a, n) else At(b, n)
  {
    if a == [] {
      assert a + b == b;
    } else {
      assert (a + b)[1..] == a[1..] + b;
      AtConcat(a[1..], b, n);
    }
  }

  /** Newest is the largest visible number, and it is one of the list's unless it is 0. */
  lemma {:induction false} NewestIsLargest(l: seq<Version>, view: nat)
    ensures forall i :: 0 <= i < |l| && l[i].ref.Ordinal? && l[i].ref.n <= view ==> l[i].ref.n <= Newest(l, view)
    ensures Newest(l, view) > 0 ==> Newest(l, view) in Numbers(l)
  {
    if l != [] {
      NewestIsLargest(l[1..], view);
      var n := Newest(l[1..], view);
      if Newest(l, view) == n > 0 {
        var i :| 0 <= i < |l[1..]| && l[1..][i].ref.Ordinal? && l[1..][i].ref.n == n;
        assert l[i + 1].ref.n == n;
      }
    }
  }

  lemma {:induction false} AtFinds(l: seq<Version>, i: nat)
    requires i < |l| && l[i].ref.Ordinal? && forall j :: 0 <= j < i ==> l[j].ref != l[i].ref
    ensures At(l, l[i].ref.n) == Some(l[i])
  {
    if i > 0 { AtFinds(l[1..], i - 1); }
  }

  lemma {:induction false} AtMisses(l: seq<Version>, n: nat)
    requires n !in Numbers(l)
    ensures At(l, n) == None
  {
    if l != [] {
      assert l[0].ref.Ordinal? ==> l[0].ref.n in Numbers(l);
      assert forall m :: m in Numbers(l[1..]) ==> m in Numbers(l) by {
        forall m | m in Numbers(l[1..]) ensures m in Numbers(l) {
          var i :| 0 <= i < |l[1..]| && l[1..][i].ref.Ordinal? && l[1..][i].ref.n == m;
          assert l[i + 1].ref.n == m;
        }
      }
      AtMisses(l[1..], n);
    }
  }

  /** What the search of one list returns. */
  lemma FoundIsNewest(l: seq<Version>, view: nat, r: Option<nat>)
    requires OrdinalList(l) && view < FAR
    requires match r
      case Some(i) => Closest(map[], l, view, None, i)
      case None => forall j :: 0 <= j < |l| ==> Distance(map[], view, None, l[j]) == FAR
    ensures match r
      case Some(i) => 0 < Newest(l, view) == l[i].ref.n && At(l, l[i].ref.n) == Some(l[i])
      case None => Newest(l, view) == 0
  {
    NewestIsLargest(l, view);
    match r {
      case Some(i) =>
        if Newest(l, view) > 0 {
          var j :| 0 <= j < |l| && l[j].ref.Ordinal? && l[j].ref.n == Newest(l, view);
          ClosestIsLargest(map[], l, view, None, i, j);
        }
        AtFinds(l, i);
      case None =>
    }
  }

  // ----- kvmultisets -----

  lemma {:induction false} SplitVersions(ms: seq<Kvms>, a: nat, k: Key)
    requires a <= |ms|
    ensures AllVersions(ms, k) == AllVersions(ms[..a], k) + AllVersions(ms[a..], k)
  {
    if a == 0 {
      assert ms[..a] == [] && ms[a..] == ms;
    } else {
      SplitVersions(ms[1..], a - 1, k);
      assert ms[..a][1..] == ms[1..][..a - 1] && ms[a..] == ms[1..][a - 1..];
    }
  }

  lemma {:induction false} SplitPtombs(ms: seq<Kvms>, a: nat, k: Key)
    requires a <= |ms|
    ensures AllPtombs(ms, k) == AllPtombs(ms[..a], k) + AllPtombs(ms[a..], k)
  {
    if a == 0 {
      assert ms[..a] == [] && ms[a..] == ms;
    } else {
      SplitPtombs(ms[1..], a - 1, k);
      assert ms[..a][1..] == ms[1..][..a - 1] && ms[a..] == ms[1..][a - 1..];
    }
  }

  /** Nothing in older kvmultisets is above a number of this one. */
  lemma {:induction false} OlderNotAbove(ms: seq<Kvms>, k: Key, view: nat, n: nat)
    requires forall b, n': nat :: 0 <= b < |ms| && Holds(ms[b], n') ==> n' <= n
    ensures Newest(AllVersions(ms, k), view) <= n && Newest(AllPtombs(ms, k), view) <= n
  {
    if ms != [] {
      var l, p := ListOf(ms[0].keys, k), ListOf(ms[0].ptombs, k);
      NewestIsLargest(l, view);
      NewestIsLargest(p, view);
      if Newest(l, view) > 0 { assert Holds(ms[0], Newest(l, view)); }
      if Newest(p, view) > 0 { assert Holds(ms[0], Newest(p, view)); }
      NewestConcat(l, AllVersions(ms[1..], k), view);
      NewestConcat(p, AllPtombs(ms[1..], k), view);
      forall b, n': nat | 0 <= b < |ms[1..]| && Holds(ms[1..][b], n') ensures n' <= n { assert Holds(ms[b + 1], n'); }
      OlderNotAbove(ms[1..], k, view, n);
    }
  }

  lemma AllUpTo(ms: seq<Kvms>, k: Key, a: nat)
    requires a < |ms|
    ensures AllVersions(ms[..a + 1], k) == AllVersions(ms[..a], k) + ListOf(ms[a].keys, k)
    ensures AllPtombs(ms[..a + 1], k) == AllPtombs(ms[..a], k) + ListOf(ms[a].ptombs, k)
  {
    SplitVersions(ms[..a + 1], a, k);
    SplitPtombs(ms[..a + 1], a, k);
    assert ms[..a + 1][..a] == ms[..a] && ms[..a + 1][a..] == [ms[a]] && [ms[a]][1..] == [];
  }

  /** The newest kvmultiset with a visible version has the newest visible version. */
  lemma HitsNewest(ms: seq<Kvms>, k: Key, view: nat, a: nat)
    requires InOrder(ms) && a < |ms| && 0 < Newest(ListOf(ms[a].keys, k), view)
    requires Newest(AllVersions(ms[..a], k), view) == 0
    ensures var l := ListOf(ms[a].keys, k); var n := Newest(l, view);
      Holds(ms[a], n) && Newest(AllVersions(ms, k), view) == n && At(AllVersions(ms, k), n) == At(l, n)
  {
    var u, l, older := AllVersions(ms[..a], k), ListOf(ms[a].keys, k), ms[a + 1..];
    var n := Newest(l, view);
    SplitVersions(ms, a + 1, k);
    AllUpTo(ms, k, a);
    NewestIsLargest(l, view);
    assert Holds(ms[a], n);
    forall b, n': nat | 0 <= b < |older| && Holds(older[b], n') ensures n' <= n { assert Holds(ms[a + 1 + b], n'); }
    OlderNotAbove(older, k, view, n);
    NewestConcat(u + l, AllVersions(older, k), view);
    NewestConcat(u, l, view);
    NewestIsLargest(u, view);
    AtMisses(u, n);
    AtConcat(u + l, AllVersions(older, k), n);
    AtConcat(u, l, n);
    AtNumber(l, n);
  }

  lemma {:induction false} AtNumber(l: seq<Version>, n: nat)
    requires n in Numbers(l)
    ensures At(l, n).Some?
  {
    if l[0].ref != Ordinal(n) {
      var i :| 0 <= i < |l| && l[i].ref.Ordinal? && l[i].ref.n == n;
      assert l[1..][i - 1].ref.n == n;
      AtNumber(l[1..], n);
    }
  }

  /** Prefix tombstones of older kvmultisets cannot hide it. */
  lemma PtombsSeen(ms: seq<Kvms>, p: Key, view: nat, a: nat, n: nat)
    requires InOrder(ms) && a < |ms| && Holds(ms[a], n)
    ensures Newest(AllPtombs(ms, p), view) > n <==> Newest(AllPtombs(ms[..a + 1], p), view) > n
  {
    var older := ms[a + 1..];
    SplitPtombs(ms, a + 1, p);
    forall b, n': nat | 0 <= b < |older| && Holds(older[b], n') ensures n' <= n { assert Holds(ms[a + 1 + b], n'); }
    OlderNotAbove(older, p, view, n);
    NewestConcat(AllPtombs(ms[..a + 1], p), AllPtombs(older, p), view);
  }

  /** The newest visible prefix tombstone in the first a kvmultisets. */
  ghost function PtombSeq(ms: seq<Kvms>, k: Key, plen: nat, view: nat, a: nat): nat
    requires a <= |ms|
  {
    if 0 < plen <= |k| then Newest(AllPtombs(ms[..a], k[..plen]), view) else 0
  }

  function Reply(v: Version): Answer {
    if v.tomb then FoundTomb else FoundVal(v.body)
  }

  lemma HitAnswer(ms: seq<Kvms>, k: Key, plen: nat, view: nat, a: nat, v: Version)
    requires InOrder(ms) && a < |ms| && Newest(AllVersions(ms[..a], k), view) == 0
    requires var l := ListOf(ms[a].keys, k); 0 < Newest(l, view) && At(l, Newest(l, view)) == Some(v)
    ensures FlatGet(ms, k, plen, view) ==
      if PtombSeq(ms, k, plen, view, a + 1) > Newest(ListOf(ms[a].keys, k), view) then FoundPtomb else Reply(v)
  {
    HitsNewest(ms, k, view, a);
    if 0 < plen <= |k| { PtombsSeen(ms, k[..plen], view, a, Newest(ListOf(ms[a].keys, k), view)); }
  }

  lemma MissAnswer(ms: seq<Kvms>, k: Key, plen: nat, view: nat)
    requires InOrder(ms) && Newest(AllVersions(ms, k), view) == 0
    ensures FlatGet(ms, k, plen, view) == if PtombSeq(ms, k, plen, view, |ms|) > 0 then FoundPtomb else NotFound
  {
    assert ms[..|ms|] == ms;
    NoZero(ms, k);
    AtMisses(AllVersions(ms, k), 0);
  }

  lemma {:induction false} NoZero(ms: seq<Kvms>, k: Key)
    requires forall a :: 0 <= a < |ms| ==> Ordinals(ms[a])
    ensures 0 !in Numbers(AllVersions(ms, k))
  {
    if ms != [] {
      assert Ordinals(ms[0]);
      NoZero(ms[1..], k);
      var l, rest := ListOf(ms[0].keys, k), AllVersions(ms[1..], k);
      var all: seq<Version> := l + rest;
      forall i | 0 <= i < |all| && all[i].ref.Ordinal? ensures all[i].ref.n != 0 {
        if i >= |l| { assert rest[i - |l|].ref.n in Numbers(rest); }
      }
    }
  }

  // ----- the answer without lists -----

  /** Version i of the key in kvmultiset a is visible. */
  predicate Sees(ms: seq<Kvms>, k: Key, view: nat, a: int, i: int) {
    && 0 <= a < |ms| && 0 <= i < |ListOf(ms[a].keys, k)|
    && ListOf(ms[a].keys, k)[i].ref.Ordinal? && ListOf(ms[a].keys, k)[i].ref.n <= view
  }

  /** A visible prefix tombstone with a number above n. */
  ghost predicate Hidden(ms: seq<Kvms>, p: Key, view: nat, n: nat) {
    exists a, i :: 0 <= a < |ms| && 0 <= i < |ListOf(ms[a].ptombs, p)|
                   && var r := ListOf(ms[a].ptombs, p)[i].ref; r.Ordinal? && n < r.n <= view
  }

  ghost predicate PrefixHides(ms: seq<Kvms>, k: Key, plen: nat, view: nat, n: nat) {
    0 < plen <= |k| && Hidden(ms, k[..plen], view, n)
  }

  /** Version i in kvmultiset a is the newest visible one of the key; among equals, the one in
      the newest kvmultiset. */
  ghost predicate NewestSeen(ms: seq<Kvms>, k: Key, view: nat, a: int, i: int) {
    && Sees(ms, k, view, a, i)
    && (forall b, j :: Sees(ms, k, view, b, j) ==>
          var n, m := ListOf(ms[a].keys, k)[i].ref.n, ListOf(ms[b].keys, k)[j].ref.n;
          m < n || (m == n && a <= b))
  }

  /** The newest visible version answers, unless a newer visible prefix tombstone does. */
  ghost predicate IsAnswer(ms: seq<Kvms>, k: Key, plen: nat, view: nat, r: Answer) {
    && (forall a, i :: NewestSeen(ms, k, view, a, i) ==>
          var v := ListOf(ms[a].keys, k)[i];
          r == if PrefixHides(ms, k, plen, view, v.ref.n) then FoundPtomb
               else if v.tomb then FoundTomb else FoundVal(v.body))
    && ((forall a, i :: !Sees(ms, k, view, a, i)) ==>
          r == if PrefixHides(ms, k, plen, view, 0) then FoundPtomb else NotFound)
  }

  lemma {:induction false} NewestPtomb(ms: seq<Kvms>, p: Key, view: nat, n: nat)
    ensures Newest(AllPtombs(ms, p), view) > n <==> Hidden(ms, p, view, n)
  {
    if ms != [] {
      var l := ListOf(ms[0].ptombs, p);
      NewestPtomb(ms[1..], p, view, n);
      NewestConcat(l, AllPtombs(ms[1..], p), view);
      NewestIsLargest(l, view);
      if Hidden(ms, p, view, n) {
        var a, i :| 0 <= a < |ms| && 0 <= i < |ListOf(ms[a].ptombs, p)|
                    && var r := ListOf(ms[a].ptombs, p)[i].ref; r.Ordinal? && n < r.n <= view;
        if a > 0 { assert ms[1..][a - 1] == ms[a]; }
      }
      if Hidden(ms[1..], p, view, n) {
        var a, i :| 0 <= a < |ms[1..]| && 0 <= i < |ListOf(ms[1..][a].ptombs, p)|
                    && var r := ListOf(ms[1..][a].ptombs, p)[i].ref; r.Ordinal? && n < r.n <= view;
        assert ms[1..][a] == ms[a + 1];
      }
    }
  }

  /** The newest number of all versions is that of the newest visible version. */
  lemma {:induction false} NewestVersion(ms: seq<Kvms>, k: Key, view: nat, a: int, i: int)
    requires NewestSeen(ms, k, view, a, i)
    requires forall b :: 0 <= b < |ms| ==> Ordinals(ms[b])
    ensures var v := ListOf(ms[a].keys, k)[i];
      Newest(AllVersions(ms, k), view) == v.ref.n && At(AllVersions(ms, k), v.ref.n) == Some(v)
  {
    var l, rest := ListOf(ms[0].keys, k), AllVersions(ms[1..], k);
    var v := ListOf(ms[a].keys, k)[i];
    NewestIsLargest(l, view);
    NewestConcat(l, rest, view);
    AtConcat(l, rest, v.ref.n);
    assert Ordinals(ms[0]) && Ordinals(ms[a]);
    forall j | 0 <= j < |l| && l[j].ref.Ordinal? && l[j].ref.n <= view ensures l[j].ref.n <= v.ref.n {
      assert Sees(ms, k, view, 0, j);
    }
    if a == 0 {
      OlderNoHigher(ms, k, view, v.ref.n);
      AtFinds(l, i);
    } else {
      assert ms[1..][a - 1] == ms[a];
      forall b, j | Sees(ms[1..], k, view, b, j)
        ensures var m := ListOf(ms[1..][b].keys, k)[j].ref.n; m < v.ref.n || (m == v.ref.n && a - 1 <= b) {
        assert Sees(ms, k, view, b + 1, j);
      }
      NewestVersion(ms[1..], k, view, a - 1, i);
      forall j | 0 <= j < |l| && l[j].ref.Ordinal? ensures l[j].ref.n != v.ref.n {
        assert l[j].ref.n <= view ==> Sees(ms, k, view, 0, j);
      }
      AtMisses(l, v.ref.n);
    }
  }

  lemma {:induction false} OlderNoHigher(ms: seq<Kvms>, k: Key, view: nat, n: nat)
    requires ms != [] && forall b, j :: Sees(ms, k, view, b, j) ==> ListOf(ms[b].keys, k)[j].ref.n <= n
    ensures Newest(AllVersions(ms[1..], k), view) <= n
  {
    var rest := ms[1..];
    if rest != [] {
      var l := ListOf(rest[0].keys, k);
      NewestIsLargest(l, view);
      NewestConcat(l, AllVersions(rest[1..], k), view);
      forall b, j | Sees(rest, k, view, b, j) ensures ListOf(rest[b].keys, k)[j].ref.n <= n {
        assert rest[b] == ms[b + 1] && Sees(ms, k, view, b + 1, j);
      }
      if Newest(l, view) > 0 {
        var j :| 0 <= j < |l| && l[j].ref.Ordinal? && l[j].ref.n == Newest(l, view);
        assert Sees(rest, k, view, 0, j);
      }
      OlderNoHigher(rest, k, view, n);
    }
  }

  lemma {:induction false} NoneInList(l: seq<Version>, view: nat)
    requires forall i :: 0 <= i < |l| && l[i].ref.Ordinal? ==> l[i].ref.n > view
    ensures Newest(l, view) == 0
  {
    if l != [] { NoneInList(l[1..], view); }
  }

  lemma {:induction false} NoneSeen(ms: seq<Kvms>, k: Key, view: nat)
    requires forall a, i :: !Sees(ms, k, view, a, i)
    ensures Newest(AllVersions(ms, k), view) == 0
  {
    if ms != [] {
      var l := ListOf(ms[0].keys, k);
      forall j | 0 <= j < |l| && l[j].ref.Ordinal? ensures l[j].ref.n > view { assert !Sees(ms, k, view, 0, j); }
      NoneInList(l, view);
      NewestConcat(l, AllVersions(ms[1..], k), view);
      forall a, i ensures !Sees(ms[1..], k, view, a, i) {
        if 0 <= a < |ms[1..]| { assert ms[1..][a] == ms[a + 1] && !Sees(ms, k, view, a + 1, i); }
      }
      NoneSeen(ms[1..], k, view);
    }
  }

  /** The flat map answers as the newest visible version and prefix tombstone demand. */
  lemma FlatGetIsAnswer(ms: seq<Kvms>, k: Key, plen: nat, view: nat)
    requires InOrder(ms)
    ensures IsAnswer(ms, k, plen, view, FlatGet(ms, k, plen, view))
  {
    forall a, i | NewestSeen(ms, k, view, a, i)
      ensures var v := ListOf(ms[a].keys, k)[i];
        FlatGet(ms, k, plen, view) == if PrefixHides(ms, k, plen, view, v.ref.n) then FoundPtomb
                                      else if v.tomb then FoundTomb else FoundVal(v.body) {
      NewestVersion(ms, k, view, a, i);
      if 0 < plen <= |k| { NewestPtomb(ms, k[..plen], view, ListOf(ms[a].keys, k)[i].ref.n); }
    }
    if forall a, i :: !Sees(ms, k, view, a, i) {
      NoneSeen(ms, k, view);
      if 0 < plen <= |k| { NewestPtomb(ms, k[..plen], view, 0); }
      NoZero(ms, k);
      AtMisses(AllVersions(ms, k), 0);
    }
  }

  /** The search of one version list. */
  method SearchList(l: seq<Version>, view: nat) returns (n: nat, v: Option<Version>)
    requires OrdinalList(l) && view < FAR
    ensures n == Newest(l, view) && v == if n == 0 then None else At(l, n)
    ensures n > 0 ==> v.Some?
  {
    var i := FindVal(map[], l, view, None);
    FoundIsNewest(l, view, i);
    n := if i.Some? then l[i.value].ref.n else 0;
    v := if i.Some? then Some(l[i.value]) else None;
  }

  /** The loop over the kvmultisets. */
  method Get(ms: seq<Kvms>, k: Key, prefixLen: nat, view: nat) returns (r: Answer)
    requires InOrder(ms) && view < FAR
    ensures r == FlatGet(ms, k, prefixLen, view)
    ensures IsAnswer(ms, k, prefixLen, view, r)
  {
    FlatGetIsAnswer(ms, k, prefixLen, view);
    var plen := if |k| < prefixLen then 0 else prefixLen;
    var pfxSeq := 0;
    for a := 0 to |ms|
      invariant Newest(AllVersions(ms[..a], k), view) == 0
      invariant pfxSeq == PtombSeq(ms, k, prefixLen, view, a)
    {
      assert Ordinals(ms[a]);
      if plen > 0 {
        AllUpTo(ms, k[..plen], a);
        var seqno, _ := SearchList(ListOf(ms[a].ptombs, k[..plen]), view);
        NewestConcat(AllPtombs(ms[..a], k[..plen]), ListOf(ms[a].ptombs, k[..plen]), view);
        if seqno > pfxSeq { pfxSeq := seqno; }
      }
      AllUpTo(ms, k, a);
      NewestConcat(AllVersions(ms[..a], k), ListOf(ms[a].keys, k), view);
      var valSeq, v := SearchList(ListOf(ms[a].keys, k), view);
      if v.Some? {
        HitAnswer(ms, k, prefixLen, view, a, v.value);
        return if pfxSeq > valSeq then FoundPtomb else Reply(v.value);
      }
    }
    assert ms[..|ms|] == ms;
    MissAnswer(ms, k, prefixLen, view);
    return if pfxSeq > 0 then FoundPtomb else NotFound;
  }
}
