/**
 A c0 kvset under inserts and replacements: its version lists and its statistics.

 The bonsai tree that finds a key's list is not modelled; the lists are kept in a sequence.
 */
module C0Kvset {
  import opened Options
  import opened C0ValueLists

  datatype Kv = Kv(key: int, klen: nat, vals: seq<Version>)

  /** Where the tree finds a key; |kvs| if it does not. */
  function IndexOf(kvs: seq<Kv>, key: int): (i: nat)
    ensures i <= |kvs| && (i < |kvs| ==> kvs[i].key == key) && forall j :: 0 <= j < i ==> kvs[j].key != key
  {
    if kvs == [] || kvs[0].key == key then 0 else 1 + IndexOf(kvs[1..], key)
  }

  /** The two quantities that are summed over all versions. */
  datatype Measure = Tombs | Bytes

  function Weight(v: Version, m: Measure): nat {
    match m
    case Tombs => if v.tomb then 1 else 0
    case Bytes => v.len
  }

  function ListSum(l: seq<Version>, m: Measure): nat {
    if l == [] then 0 else Weight(l[0], m) + ListSum(l[1..], m)
  }

  function Sum(kvs: seq<Kv>, m: Measure): nat {
    if kvs == [] then 0 else ListSum(kvs[0].vals, m) + Sum(kvs[1..], m)
  }

  function KeyBytes(kvs: seq<Kv>): nat {
    if kvs == [] then 0 else kvs[0].klen + KeyBytes(kvs[1..])
  }

  lemma {:induction false} ListSumConcat(a: seq<Version>, b: seq<Version>, m: Measure)
    ensures ListSum(a + b, m) == ListSum(a, m) + ListSum(b, m)
  {
    if a == [] {
      assert a + b == b;
    } else {
      assert (a + b)[1..] == a[1..] + b;
      ListSumConcat(a[1..], b, m);
    }
  }

  lemma SumAround(a: seq<Version>, x: Version, b: seq<Version>, m: Measure)
    ensures ListSum(a + [x] + b, m) == ListSum(a, m) + Weight(x, m) + ListSum(b, m)
  {
    ListSumConcat(a + [x], b, m);
    ListSumConcat(a, [x], m);
    assert [x][1..] == [];
  }

  lemma ReplacedSum(l: seq<Version>, i: nat, v: Version, m: Measure)
    requires i < |l|
    ensures ListSum(l[i := v], m) == ListSum(l, m) + Weight(v, m) - Weight(l[i], m)
  {
    assert l == l[..i] + [l[i]] + l[i + 1..];
    assert l[i := v] == l[..i] + [v] + l[i + 1..];
    SumAround(l[..i], l[i], l[i + 1..], m);
    SumAround(l[..i], v, l[i + 1..], m);
  }

  lemma SlottedSum(l: seq<Version>, i: nat, v: Version, m: Measure)
    requires i <= |l|
    ensures ListSum(l[..i] + [v] + l[i..], m) == ListSum(l, m) + Weight(v, m)
  {
    assert l == l[..i] + l[i..];
    ListSumConcat(l[..i], l[i..], m);
    SumAround(l[..i], v, l[i..], m);
  }

  /** An insertion adds the weight of the new version, less that of the one it replaces. */
  lemma InsertedSum(txns: Txns, l: seq<Version>, v: Version, m: Measure)
    ensures var i := StopAt(txns, l, v.ref);
      ListSum(Inserted(txns, l, v), m) ==
      ListSum(l, m) + Weight(v, m) - (if Replaces(txns, l, v) then Weight(l[i], m) else 0)
  {
    var i := StopAt(txns, l, v.ref);
    if Replaces(txns, l, v) {
      ReplacedSum(l, i, v, m);
    } else if v.ref.Ordinal? {
      SlottedSum(l, i, v, m);
    } else {
      assert [v] + l == l[..0] + [v] + l[0..];
      SlottedSum(l, 0, v, m);
    }
  }

  lemma {:induction false} SumUpdate(kvs: seq<Kv>, i: nat, vals: seq<Version>, m: Measure)
    requires i < |kvs|
    ensures Sum(kvs[i := kvs[i].(vals := vals)], m) == Sum(kvs, m) - ListSum(kvs[i].vals, m) + ListSum(vals, m)
    ensures KeyBytes(kvs[i := kvs[i].(vals := vals)]) == KeyBytes(kvs)
  {
    var kvs' := kvs[i := kvs[i].(vals := vals)];
    if i == 0 {
      assert kvs'[1..] == kvs[1..];
    } else {
      assert kvs'[1..] == kvs[1..][i - 1 := kvs[1..][i - 1].(vals := vals)];
      SumUpdate(kvs[1..], i - 1, vals, m);
    }
  }

  lemma {:induction false} SumAppend(kvs: seq<Kv>, kv: Kv, m: Measure)
    ensures Sum(kvs + [kv], m) == Sum(kvs, m) + ListSum(kv.vals, m)
    ensures KeyBytes(kvs + [kv]) == KeyBytes(kvs) + kv.klen
  {
    if kvs == [] {
      assert (kvs + [kv])[1..] == [];
    } else {
      assert (kvs + [kv])[1..] == kvs[1..] + [kv];
      SumAppend(kvs[1..], kv, m);
    }
  }

  // ----- what the sums count -----

  predicate TombAt(kvs: seq<Kv>, i: int, j: int) {
    0 <= i < |kvs| && 0 <= j < |kvs[i].vals| && kvs[i].vals[j].tomb
  }

  ghost predicate NoRepeats<T>(f: seq<T>) {
    forall x, y :: 0 <= x < y < |f| ==> f[x] != f[y]
  }

  lemma {:induction false} ListTombs(l: seq<Version>) returns (f: seq<nat>)
    ensures |f| == ListSum(l, Tombs) && NoRepeats(f)
    ensures forall j :: j in f <==> 0 <= j < |l| && l[j].tomb
  {
    f := [];
    if l != [] {
      var n := |l| - 1;
      var g := ListTombs(l[..n]);
      assert l == l[..n] + [l[n]];
      ListSumConcat(l[..n], [l[n]], Tombs);
      assert [l[n]][1..] == [];
      f := g + if l[n].tomb then [n] else [];
      forall x, y | 0 <= x < y < |f| ensures f[x] != f[y] {
        assert g[x] in g;
      }
    }
  }

  /** The tombstone count is the number of versions that are tombstones. */
  lemma {:induction false} TombsCounted(kvs: seq<Kv>) returns (f: seq<(nat, nat)>)
    ensures |f| == Sum(kvs, Tombs) && NoRepeats(f)
    ensures forall i, j :: (i, j) in f <==> TombAt(kvs, i, j)
  {
    f := [];
    if kvs != [] {
      var n := |kvs| - 1;
      var g := TombsCounted(kvs[..n]);
      var h := ListTombs(kvs[n].vals);
      assert kvs == kvs[..n] + [kvs[n]];
      SumAppend(kvs[..n], kvs[n], Tombs);
      f := g + seq(|h|, x requires 0 <= x < |h| => (n, h[x]));
      forall x, y | 0 <= x < y < |f| ensures f[x] != f[y] {
        if x < |g| {
          assert (g[x].0, g[x].1) in g;
          assert TombAt(kvs[..n], g[x].0, g[x].1);
        }
      }
      forall i, j ensures (i, j) in f <==> TombAt(kvs, i, j) {
        if i == n {
          assert (i, j) !in g by { assert !TombAt(kvs[..n], i, j); }
          if j in h {
            var x :| 0 <= x < |h| && h[x] == j;
            assert f[|g| + x] == (i, j);
          }
        } else {
          assert (i, j) in g <==> TombAt(kvs[..n], i, j);
        }
      }
    }
  }

  /** The byte counts of two parts add up, and of a single version or key are its lengths. */
  lemma BytesAdd(a: seq<Version>, b: seq<Version>, v: Version, kvs: seq<Kv>, kv: Kv)
    ensures ListSum(a + b, Bytes) == ListSum(a, Bytes) + ListSum(b, Bytes) && ListSum([v], Bytes) == v.len
    ensures Sum(kvs + [kv], Bytes) == Sum(kvs, Bytes) + ListSum(kv.vals, Bytes)
    ensures KeyBytes(kvs + [kv]) == KeyBytes(kvs) + kv.klen
  {
    ListSumConcat(a, b, Bytes);
    assert [v][1..] == [];
    SumAppend(kvs, kv, Bytes);
  }

  /** Keys are distinct, lists are in order, and a tombstone has no value bytes. */
  ghost predicate ListsOk(txns: Txns, kvs: seq<Kv>) {
    && (forall i, j :: 0 <= i < j < |kvs| ==> kvs[i].key != kvs[j].key)
    && (forall i :: 0 <= i < |kvs| ==> kvs[i].vals != [] && ListOk(txns, kvs[i].vals) && TombsEmpty(kvs[i].vals))
  }

  ghost predicate TombsEmpty(l: seq<Version>) {
    forall j :: 0 <= j < |l| && l[j].tomb ==> l[j].len == 0
  }

  class Kvset {
    var kvs: seq<Kv>
    var numEntries: int
    var numTombstones: int
    var keyb: int
    var valb: int

    /** The statistics are what a recount would give. */
    ghost predicate Valid(txns: Txns)
      reads this
    {
      && ListsOk(txns, kvs)
      && numEntries == |kvs| && numTombstones == Sum(kvs, Tombs) && keyb == KeyBytes(kvs) && valb == Sum(kvs, Bytes)
    }

    constructor ()
      ensures kvs == [] && forall txns :: Valid(txns)
    {
      kvs, numEntries, numTombstones, keyb, valb := [], 0, 0, 0, 0;
    }

    /** The first version of a key. */
    method Insert(txns: Txns, key: int, klen: nat, val: Version)
      requires Valid(txns) && IndexOf(kvs, key) == |kvs| && (val.tomb ==> val.len == 0)
      modifies this
      ensures Valid(txns) && kvs == old(kvs) + [Kv(key, klen, [val])]
    {
      SumAppend(kvs, Kv(key, klen, [val]), Tombs);
      SumAppend(kvs, Kv(key, klen, [val]), Bytes);
      assert [val][1..] == [];
      kvs := kvs + [Kv(key, klen, [val])];
      numEntries := numEntries + 1;
      if val.tomb { numTombstones := numTombstones + 1; }
      keyb := keyb + klen;
      valb := valb + val.len;
    }

    /** A further version of a key: it takes the place of a version with the same reference,
        or goes before the next older one, or, in a transaction, to the head. */
    method ReplaceOrAdd(txns: Txns, at: nat, val: Version) returns (replaced: Option<Version>)
      requires Valid(txns) && at < |kvs| && MayWrite(txns, kvs[at].vals, val.ref) && (val.tomb ==> val.len == 0)
      modifies this
      ensures Valid(txns) && kvs == old(kvs)[at := old(kvs[at]).(vals := Inserted(txns, old(kvs[at].vals), val))]
      ensures PutInto(old(kvs[at].vals), val, kvs[at].vals)
      ensures replaced.None? <==> forall i :: 0 <= i < |old(kvs[at].vals)| ==> old(kvs[at].vals)[i].ref != val.ref
      ensures replaced.Some? ==> replaced.value in old(kvs[at].vals) && replaced.value.ref == val.ref
    {
      var l := kvs[at].vals;
      InsertPuts(txns, l, val);
      Recounted(txns, kvs, at, l, val);
      var i, same := Locate(txns, l, val.ref);
      replaced := if same then Some(l[i]) else None;
      if same {
        l := l[i := val];
      } else if val.ref.Ordinal? {
        l := l[..i] + [val] + l[i..];
      } else {
        l := [val] + l;
      }
      kvs := kvs[at := kvs[at].(vals := l)];
      if same {
        if !replaced.value.tomb {
          if val.tomb { numTombstones := numTombstones + 1; }
          valb := valb - replaced.value.len;
        } else if !val.tomb {
          numTombstones := numTombstones - 1;
        }
      } else if val.tomb {
        numTombstones := numTombstones + 1;
      }
      valb := valb + val.len;
    }
  }

  /** The walk along the list. */
  method Locate(txns: Txns, l: seq<Version>, ref: Ref) returns (i: nat, same: bool)
    ensures i == StopAt(txns, l, ref) && same == (i < |l| && l[i].ref == ref)
  {
    i, same := 0, false;
    while i < |l|
      invariant i <= |l| && !same && StopAt(txns, l, ref) == i + StopAt(txns, l[i..], ref)
    {
      if ref == l[i].ref {
        same := true;
        return;
      }
      if Greater(txns, ref, l[i].ref) { return; }
      assert l[i..][1..] == l[i + 1..];
      i := i + 1;
    }
  }

  /** The lists and sums after a version is put. */
  lemma Recounted(txns: Txns, kvs: seq<Kv>, at: nat, l: seq<Version>, v: Version)
    requires ListsOk(txns, kvs) && at < |kvs| && l == kvs[at].vals && MayWrite(txns, l, v.ref)
    requires v.tomb ==> v.len == 0
    ensures var i, kvs' := StopAt(txns, l, v.ref), kvs[at := kvs[at].(vals := Inserted(txns, l, v))];
      var rep := Replaces(txns, l, v);
      && ListsOk(txns, kvs') && KeyBytes(kvs') == KeyBytes(kvs)
      && Sum(kvs', Tombs) == Sum(kvs, Tombs) + Weight(v, Tombs) - (if rep then Weight(l[i], Tombs) else 0)
      && Sum(kvs', Bytes) == Sum(kvs, Bytes) + Weight(v, Bytes) - (if rep then Weight(l[i], Bytes) else 0)
      && (rep && l[i].tomb ==> l[i].len == 0)
  {
    var l' := Inserted(txns, l, v);
    InsertKeepsOrder(txns, l, v);
    InsertedSum(txns, l, v, Tombs);
    InsertedSum(txns, l, v, Bytes);
    SumUpdate(kvs, at, l', Tombs);
    SumUpdate(kvs, at, l', Bytes);
    InsertedTombs(txns, l, v);
  }

  lemma InsertedTombs(txns: Txns, l: seq<Version>, v: Version)
    requires TombsEmpty(l) && (v.tomb ==> v.len == 0)
    ensures TombsEmpty(Inserted(txns, l, v)) && Inserted(txns, l, v) != []
  {
  }

  /** Ends of transactions keep every list in order: an abort always, a commit if its number
      is not below one that a list already resolves. */
  lemma TxnEndKeepsLists(txns: Txns, kvs: seq<Kv>, x: nat, end: TxnState)
    requires ListsOk(txns, kvs) && x in txns && txns[x].Active? && !end.Active?
    requires end.Committed? ==>
      forall i, j :: 0 <= i < |kvs| && 0 <= j < |kvs[i].vals| && Resolve(txns, kvs[i].vals[j].ref).Some? ==>
      Resolve(txns, kvs[i].vals[j].ref).value <= end.c
    ensures ListsOk(txns[x := end], kvs)
  {
    forall i | 0 <= i < |kvs| ensures ListOk(txns[x := end], kvs[i].vals) {
      if end.Committed? {
        CommitKeepsOrder(txns, kvs[i].vals, x, end.c);
      } else {
        AbortKeepsOrder(txns, kvs[i].vals, x);
      }
    }
  }

  lemma AbortKeepsOrder(txns: Txns, l: seq<Version>, x: nat)
    requires ListOk(txns, l) && x in txns && txns[x].Active?
    ensures ListOk(txns[x := Aborted], l)
  {
    var txns' := txns[x := Aborted];
    forall i | 0 <= i < |l| ensures Resolve(txns', l[i].ref) == Resolve(txns, l[i].ref) {}
    forall i, j | 0 <= i < j < |l| ensures !Rises(txns', l[i].ref, l[j].ref) {
      assert !Rises(txns, l[i].ref, l[j].ref);
    }
  }
}
