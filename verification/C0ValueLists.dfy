/**
 The version list of a key in a c0 kvset: where a new version goes and which one a reader
 picks.

 A version carries an ordinal sequence number or refers to the transaction that wrote it.
 A transaction's reference is undefined while it is active, resolves to its commit number
 once it has committed, and never resolves if it aborted.
 */
module C0ValueLists {
  import opened Options

  datatype Ref = Ordinal(n: nat) | Txn(x: nat)
  datatype TxnState = Active | Committed(c: nat) | Aborted
  type Txns = map<nat, TxnState>

  datatype Version = Version(ref: Ref, tomb: bool, len: nat, body: int)

  /** The sequence number a reference resolves to, if it does. */
  function Resolve(txns: Txns, ref: Ref): Option<nat> {
    match ref
    case Ordinal(n) => Some(n)
    case Txn(x) => if x in txns && txns[x].Committed? then Some(txns[x].c) else None
  }

  predicate IsActive(txns: Txns, ref: Ref) {
    ref.Txn? && ref.x in txns && txns[ref.x].Active?
  }

  /** Active transactions go before everything; otherwise both must resolve. */
  predicate Greater(txns: Txns, a: Ref, b: Ref) {
    || IsActive(txns, a)
    || (Resolve(txns, a).Some? && Resolve(txns, b).Some? && Resolve(txns, a).value > Resolve(txns, b).value)
  }

  // ----- inserting -----

  /** The first version with the same reference or with a smaller one. */
  function StopAt(txns: Txns, l: seq<Version>, ref: Ref): (i: nat)
    ensures i <= |l|
    ensures forall j :: 0 <= j < i ==> l[j].ref != ref && !Greater(txns, ref, l[j].ref)
    ensures i < |l| ==> l[i].ref == ref || Greater(txns, ref, l[i].ref)
  {
    if l == [] || l[0].ref == ref || Greater(txns, ref, l[0].ref) then 0
    else 1 + StopAt(txns, l[1..], ref)
  }

  predicate Replaces(txns: Txns, l: seq<Version>, v: Version) {
    var i := StopAt(txns, l, v.ref);
    i < |l| && l[i].ref == v.ref
  }

  function Inserted(txns: Txns, l: seq<Version>, v: Version): seq<Version> {
    var i := StopAt(txns, l, v.ref);
    if Replaces(txns, l, v) then l[i := v]
    else if v.ref.Ordinal? then l[..i] + [v] + l[i..]
    else [v] + l
  }

  predicate Rises(txns: Txns, a: Ref, b: Ref) {
    Resolve(txns, a).Some? && Resolve(txns, b).Some? && Resolve(txns, a).value < Resolve(txns, b).value
  }

  /** The resolved numbers never rise along the list. */
  ghost predicate Falling(txns: Txns, l: seq<Version>) {
    forall i, j :: 0 <= i < j < |l| ==> !Rises(txns, l[i].ref, l[j].ref)
  }

  ghost predicate Distinct(l: seq<Version>) {
    forall i, j :: 0 <= i < j < |l| ==> l[i].ref != l[j].ref
  }

  /** An active transaction has its version at the head. */
  ghost predicate ActiveFirst(txns: Txns, l: seq<Version>) {
    forall i :: 0 < i < |l| ==> !IsActive(txns, l[i].ref)
  }

  ghost predicate ListOk(txns: Txns, l: seq<Version>) {
    Falling(txns, l) && Distinct(l) && ActiveFirst(txns, l)
  }

  /** A writer is active, and the only active one on the key. */
  ghost predicate MayWrite(txns: Txns, l: seq<Version>, ref: Ref) {
    ref.Txn? ==> IsActive(txns, ref) && forall i :: 0 <= i < |l| && IsActive(txns, l[i].ref) ==> l[i].ref == ref
  }

  /** Any version put by any permitted writer keeps the list in order. */
  lemma InsertKeepsOrder(txns: Txns, l: seq<Version>, v: Version)
    requires ListOk(txns, l) && MayWrite(txns, l, v.ref)
    ensures ListOk(txns, Inserted(txns, l, v))
  {
    var i, l' := StopAt(txns, l, v.ref), Inserted(txns, l, v);
    if Replaces(txns, l, v) {
      assert forall j :: 0 <= j < |l| ==> l'[j].ref == l[j].ref;
    } else if v.ref.Ordinal? {
      OrdinalInsert(txns, l, v, i);
    } else {
      TxnInsert(txns, l, v);
    }
  }

  /** l' is l with v added at index i. */
  predicate AddedAt(l: seq<Version>, v: Version, i: int, l': seq<Version>) {
    0 <= i <= |l| && l' == l[..i] + [v] + l[i..]
  }

  /** What a put does to a list: v takes the place of the version with its reference; if there
      is none, v is added.  All other versions stay, in their order. */
  ghost predicate PutInto(l: seq<Version>, v: Version, l': seq<Version>) {
    || (exists i :: 0 <= i < |l| && l[i].ref == v.ref && l' == l[i := v])
    || ((forall i :: 0 <= i < |l| ==> l[i].ref != v.ref) && exists i :: AddedAt(l, v, i, l'))
  }

  lemma InsertPuts(txns: Txns, l: seq<Version>, v: Version)
    requires ListOk(txns, l) && MayWrite(txns, l, v.ref)
    ensures PutInto(l, v, Inserted(txns, l, v))
    ensures Replaces(txns, l, v) <==> exists i :: 0 <= i < |l| && l[i].ref == v.ref
  {
    var i := StopAt(txns, l, v.ref);
    if !Replaces(txns, l, v) {
      forall j | 0 <= j < |l| ensures l[j].ref != v.ref {
        if v.ref.Ordinal? && i <= j { TailBelow(txns, l, v.ref, j); }
      }
      assert AddedAt(l, v, if v.ref.Ordinal? then i else 0, Inserted(txns, l, v));
    }
  }

  /** The new version is in the list, once, and it is the only one with its reference. */
  lemma PutIsThere(l: seq<Version>, v: Version, l': seq<Version>) returns (p: nat)
    requires Distinct(l) && PutInto(l, v, l')
    ensures p < |l'| && l'[p] == v && forall j :: 0 <= j < |l'| && j != p ==> l'[j].ref != v.ref
    ensures forall j :: 0 <= j < |l'| && j != p ==> l'[j] in l
    ensures forall j :: 0 <= j < |l| && l[j].ref != v.ref ==> l[j] in l'
  {
    if i :| 0 <= i < |l| && l[i].ref == v.ref && l' == l[i := v] {
      p := i;
      forall j | 0 <= j < |l| && l[j].ref != v.ref ensures l[j] in l' { assert l'[j] == l[j]; }
    } else {
      p :| AddedAt(l, v, p, l');
      forall j | 0 <= j < |l'| && j != p ensures l'[j] in l { assert l'[j] == l[if j < p then j else j - 1]; }
      forall j | 0 <= j < |l| ensures l[j] in l' { assert l'[if j < p then j else j + 1] == l[j]; }
    }
  }

  /** Everything from the stop on is below the new ordinal. */
  lemma TailBelow(txns: Txns, l: seq<Version>, ref: Ref, j: nat)
    requires ListOk(txns, l) && ref.Ordinal? && StopAt(txns, l, ref) <= j < |l| && l[StopAt(txns, l, ref)].ref != ref
    ensures l[j].ref != ref && (Resolve(txns, l[j].ref).Some? ==> Resolve(txns, l[j].ref).value < ref.n)
  {
    var i := StopAt(txns, l, ref);
    assert Resolve(txns, l[i].ref).Some? && Resolve(txns, l[i].ref).value < ref.n;
    assert i < j ==> !Rises(txns, l[i].ref, l[j].ref);
  }

  lemma OrdinalInsert(txns: Txns, l: seq<Version>, v: Version, i: nat)
    requires ListOk(txns, l) && v.ref.Ordinal? && i == StopAt(txns, l, v.ref) && !Replaces(txns, l, v)
    ensures ListOk(txns, l[..i] + [v] + l[i..])
  {
    var l' := l[..i] + [v] + l[i..];
    forall j | i <= j < |l|
      ensures l[j].ref != v.ref && (Resolve(txns, l[j].ref).Some? ==> Resolve(txns, l[j].ref).value < v.ref.n) {
      TailBelow(txns, l, v.ref, j);
    }
    SlottedOrder(txns, l, v, i, l');
  }

  lemma SlottedOrder(txns: Txns, l: seq<Version>, v: Version, i: nat, l': seq<Version>)
    requires ListOk(txns, l) && v.ref.Ordinal? && i <= |l| && l' == l[..i] + [v] + l[i..]
    requires forall j :: 0 <= j < i ==> l[j].ref != v.ref && !Greater(txns, v.ref, l[j].ref)
    requires forall j :: i <= j < |l| ==>
      l[j].ref != v.ref && (Resolve(txns, l[j].ref).Some? ==> Resolve(txns, l[j].ref).value < v.ref.n)
    requires i == 0 && l != [] ==> !IsActive(txns, l[0].ref)
    ensures ListOk(txns, l')
  {
    forall a, b | 0 <= a < b < |l'| ensures l'[a].ref != l'[b].ref && !Rises(txns, l'[a].ref, l'[b].ref) {
      var a', b' := if a < i then a else a - 1, if b < i then b else b - 1;
      assert a != i ==> l'[a] == l[a'];
      assert b != i ==> l'[b] == l[b'];
      if a != i && b != i { assert !Rises(txns, l[a'].ref, l[b'].ref); }
    }
    forall a | 0 < a < |l'| ensures !IsActive(txns, l'[a].ref) {
      assert a != i ==> l'[a] == l[if a < i then a else a - 1];
    }
  }

  lemma TxnInsert(txns: Txns, l: seq<Version>, v: Version)
    requires ListOk(txns, l) && MayWrite(txns, l, v.ref) && v.ref.Txn? && !Replaces(txns, l, v)
    ensures ListOk(txns, [v] + l)
  {
    assert StopAt(txns, l, v.ref) == 0;
    var l' := [v] + l;
    forall a | 0 < a < |l'| ensures l'[a] == l[a - 1] && l'[a].ref != v.ref && !IsActive(txns, l'[a].ref) {}
  }

  /** A commit keeps the order if its number is not below what the list already resolves. */
  lemma CommitKeepsOrder(txns: Txns, l: seq<Version>, x: nat, c: nat)
    requires ListOk(txns, l) && x in txns && txns[x].Active?
    requires forall i :: 0 <= i < |l| && Resolve(txns, l[i].ref).Some? ==> Resolve(txns, l[i].ref).value <= c
    ensures ListOk(txns[x := Committed(c)], l)
  {
    var txns' := txns[x := Committed(c)];
    forall i | 0 <= i < |l|
      ensures Resolve(txns', l[i].ref) == if l[i].ref == Txn(x) then Some(c) else Resolve(txns, l[i].ref) {}
    forall i | 0 < i < |l| ensures l[i].ref != Txn(x) {}
  }

  /** Ordinal versions are strictly ordered. */
  lemma OrdinalsFallStrictly(txns: Txns, l: seq<Version>, i: nat, j: nat)
    requires ListOk(txns, l) && i < j < |l| && l[i].ref.Ordinal? && l[j].ref.Ordinal?
    ensures l[i].ref.n > l[j].ref.n
  {
    assert !Rises(txns, l[i].ref, l[j].ref);
  }

  // ----- reading -----

  const FAR: nat := 0xffff_ffff_ffff_ffff

  /** How far a version is behind a sequence number; FAR if it is not visible there. */
  function Behind(txns: Txns, at: nat, v: Version): nat {
    match Resolve(txns, v.ref)
    case Some(n) => if at < n || at - n >= FAR then FAR else at - n
    case None => FAR
  }

  /** How far a version is behind the reader: its view, or its own transaction if that has
      resolved. */
  function Distance(txns: Txns, view: nat, own: Option<Ref>, v: Version): nat {
    var d := Behind(txns, view, v);
    if own.Some? && Resolve(txns, own.value).Some? then
      var e := Behind(txns, Resolve(txns, own.value).value, v);
      if e < d then e else d
    else d
  }

  /** v is the closest version, and the first of the closest. */
  ghost predicate Closest(txns: Txns, l: seq<Version>, view: nat, own: Option<Ref>, i: nat) {
    && i < |l| && Distance(txns, view, own, l[i]) < FAR
    && (forall j :: 0 <= j < |l| ==> Distance(txns, view, own, l[i]) <= Distance(txns, view, own, l[j]))
    && (forall j :: 0 <= j < i ==> Distance(txns, view, own, l[i]) < Distance(txns, view, own, l[j]))
  }

  ghost predicate Writes(l: seq<Version>, own: Option<Ref>) {
    own.Some? && exists i :: 0 <= i < |l| && l[i].ref == own.value
  }

  /** The reader's own write, or else the closest visible version. */
  ghost predicate Finds(txns: Txns, l: seq<Version>, view: nat, own: Option<Ref>, r: Option<nat>) {
    && (Writes(l, own) ==> r.Some? && r.value < |l| && l[r.value].ref == own.value)
    && (!Writes(l, own) ==>
          match r
          case Some(i) => Closest(txns, l, view, own, i)
          case None => forall j :: 0 <= j < |l| ==> Distance(txns, view, own, l[j]) == FAR)
  }

  method FindVal(txns: Txns, l: seq<Version>, view: nat, own: Option<Ref>) returns (r: Option<nat>)
    ensures Finds(txns, l, view, own, r)
  {
    var best := FAR;
    r := None;
    var i := 0;
    while i < |l|
      invariant i <= |l|
      invariant own.Some? ==> forall j :: 0 <= j < i ==> l[j].ref != own.value
      invariant forall j :: 0 <= j < i ==> best <= Distance(txns, view, own, l[j])
      invariant r.None? ==> best == FAR
      invariant r.Some? ==> r.value < i && best == Distance(txns, view, own, l[r.value]) < FAR
      invariant r.Some? ==> forall j :: 0 <= j < r.value ==> best < Distance(txns, view, own, l[j])
    {
      var val := l[i];
      var diff := Behind(txns, view, val);
      if diff < best {
        best, r := diff, Some(i);
      }
      if own.None? {
        if best == 0 {
          assert r.value == i || Distance(txns, view, own, l[r.value]) == 0;
          return;
        }
        i := i + 1;
        continue;
      }
      if own.value == val.ref {
        r := Some(i);
        assert Writes(l, own);
        return;
      }
      if Resolve(txns, own.value).Some? {
        diff := Behind(txns, Resolve(txns, own.value).value, val);
        if diff < best {
          best, r := diff, Some(i);
        }
      }
      i := i + 1;
    }
  }

  /** Without a resolved transaction of its own, the closest version is the one with the
      largest visible sequence number. */
  lemma ClosestIsLargest(txns: Txns, l: seq<Version>, view: nat, own: Option<Ref>, i: nat, j: nat)
    requires Closest(txns, l, view, own, i) && (own.Some? ==> Resolve(txns, own.value).None?)
    requires view < FAR && j < |l| && Resolve(txns, l[j].ref).Some? && Resolve(txns, l[j].ref).value <= view
    ensures Resolve(txns, l[i].ref).Some?
    ensures Resolve(txns, l[j].ref).value <= Resolve(txns, l[i].ref).value <= view
  {
  }

  // ----- reading what was written -----

  /** Without a transaction, a reader sees exactly the versions that resolve to a number not
      above its view. */
  lemma VisibleExactly(txns: Txns, view: nat, v: Version)
    requires view < FAR
    ensures Distance(txns, view, None, v) < FAR <==>
      Resolve(txns, v.ref).Some? && Resolve(txns, v.ref).value <= view
  {
  }

  /** A reader at number n finds the put with number n, exactly if no version ahead of it is of a
      transaction that committed with the same number. */
  lemma ReadsItsPut(txns: Txns, l: seq<Version>, v: Version, l': seq<Version>, p: nat, r: Option<nat>)
    requires Distinct(l) && PutInto(l, v, l') && v.ref.Ordinal? && v.ref.n < FAR
    requires p < |l'| && l'[p] == v && Finds(txns, l', v.ref.n, None, r)
    ensures r.Some? && r.value <= p && Resolve(txns, l'[r.value].ref) == Some(v.ref.n)
    ensures r.value == p <==> forall j :: 0 <= j < p ==> Resolve(txns, l'[j].ref) != Some(v.ref.n)
  {
    assert Distance(txns, v.ref.n, None, l'[p]) == 0;
    assert r.Some?;
    var i := r.value;
    assert Distance(txns, v.ref.n, None, l'[i]) == 0;
    if j :| 0 <= j < p && Resolve(txns, l'[j].ref) == Some(v.ref.n) {
      assert Distance(txns, v.ref.n, None, l'[j]) == 0;
    }
  }

  /** A transaction has committed with number n, and its version is ahead of any ordinal one
      with that number. */
  ghost predicate Shadowed(txns: Txns, l: seq<Version>, n: nat) {
    exists j :: 0 <= j < |l| && l[j].ref.Txn? && Resolve(txns, l[j].ref) == Some(n)
                && forall k :: 0 <= k < j ==> l[k].ref != Ordinal(n)
  }

  /** After a put with number n, a reader at n finds exactly what was put, if and only if no
      transaction's version with that number is ahead of its place. */
  lemma ReadAfterPut(txns: Txns, l: seq<Version>, v: Version, r: Option<nat>)
    requires ListOk(txns, l) && MayWrite(txns, l, v.ref) && v.ref.Ordinal? && v.ref.n < FAR
    requires Finds(txns, Inserted(txns, l, v), v.ref.n, None, r)
    ensures var l' := Inserted(txns, l, v);
      r.Some? && r.value < |l'| && (l'[r.value] == v <==> !Shadowed(txns, l, v.ref.n))
  {
    var l', p := Inserted(txns, l, v), StopAt(txns, l, v.ref);
    InsertPuts(txns, l, v);
    ReadsItsPut(txns, l, v, l', p, r);
    var p' := PutIsThere(l, v, l');
    assert p == p';
    ShadowedBefore(txns, l, v, p);
    assert forall j :: 0 <= j < p ==> l'[j] == l[j];
  }

  lemma ShadowedBefore(txns: Txns, l: seq<Version>, v: Version, p: nat)
    requires ListOk(txns, l) && v.ref.Ordinal? && p == StopAt(txns, l, v.ref)
    ensures Shadowed(txns, l, v.ref.n) <==> exists j :: 0 <= j < p && Resolve(txns, l[j].ref) == Some(v.ref.n)
  {
    if j :| 0 <= j < |l| && l[j].ref.Txn? && Resolve(txns, l[j].ref) == Some(v.ref.n)
            && forall k :: 0 <= k < j ==> l[k].ref != v.ref {
      assert p <= j ==> p < |l|;
      if p <= j && l[p].ref != v.ref { TailBelow(txns, l, v.ref, j); }
    }
    if j :| 0 <= j < p && Resolve(txns, l[j].ref) == Some(v.ref.n) { assert l[j].ref.Txn?; }
  }

  /** A put with the number of a committed transaction is not what a reader at that number finds. */
  lemma ShadowedPut(v: Version, w: Version, r: Option<nat>)
    requires v.ref == Ordinal(7) && w.ref == Txn(1)
    requires Finds(map[1 := Committed(7)], Inserted(map[1 := Committed(7)], [w], v), 7, None, r)
    ensures r == Some(0) && Inserted(map[1 := Committed(7)], [w], v) == [w, v]
  {
    var txns := map[1 := Committed(7)];
    assert [w][1..] == [] && StopAt(txns, [w], v.ref) == 1;
    var l' := [w, v];
    assert Inserted(txns, [w], v) == l' && l'[0] == w;
    assert Distance(txns, 7, None, l'[0]) == 0;
  }

  /** A transaction reads its own put. */
  lemma ReadsOwnPut(txns: Txns, l: seq<Version>, v: Version, l': seq<Version>, view: nat, r: Option<nat>)
    requires ListOk(txns, l) && PutInto(l, v, l') && Finds(txns, l', view, Some(v.ref), r)
    ensures r.Some? && r.value < |l'| && l'[r.value] == v
  {
    var p := PutIsThere(l, v, l');
    assert Writes(l', Some(v.ref));
  }

  /** Once committed with a number not below the others, a transaction's version is what
      readers from that number on find. */
  lemma CommittedIsRead(txns: Txns, l: seq<Version>, x: nat, c: nat, i: nat, view: nat, r: Option<nat>)
    requires ListOk(txns, l) && x in txns && txns[x].Active? && i < |l| && l[i].ref == Txn(x) && c <= view < FAR
    requires forall j :: 0 <= j < |l| && Resolve(txns, l[j].ref).Some? ==> Resolve(txns, l[j].ref).value <= c
    requires Finds(txns[x := Committed(c)], l, view, None, r)
    ensures r == Some(i)
  {
    var txns' := txns[x := Committed(c)];
    forall j | 0 <= j < |l|
      ensures Resolve(txns', l[j].ref) == if l[j].ref == Txn(x) then Some(c) else Resolve(txns, l[j].ref) {}
    assert i == 0;
    assert Distance(txns', view, None, l[i]) == view - c;
  }

  /** A version of another transaction that has not committed is never found. */
  lemma UncommittedIsHidden(txns: Txns, l: seq<Version>, view: nat, own: Option<Ref>, i: nat)
    requires Finds(txns, l, view, own, Some(i)) && i < |l| && own != Some(l[i].ref)
    ensures Resolve(txns, l[i].ref).Some?
  {
  }
}
