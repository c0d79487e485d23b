/**
 Kvsets, the lists of them that make up a node, and newest-first lookup.

 A node holds its kvsets newest first.  Keys are reals in (0, 1]: the byte-string order of
 the source is a countable linear order and so embeds in them, and 1.0 stands for the
 all-ones edge key of the rightmost leaf.
 */
module Kvsets {
  import opened Options

  const MAX_KEY: real := 1.0
  type Key = k: real | 0.0 < k <= MAX_KEY witness 1.0

  datatype Entry = Value(v: int) | Tomb

  type Data = map<Key, Entry>

  /** dgen and lo are the youngest and the oldest ingest that contributed. */
  datatype Kvset = Kvset(dgen: nat, lo: nat, data: Data)

  function Find(ks: seq<Kvset>, k: Key): Option<Entry> {
    if ks == [] then None
    else if k in ks[0].data then Some(ks[0].data[k])
    else Find(ks[1..], k)
  }

  /** What a reader learns: a tombstone reads as absent. */
  function Live(o: Option<Entry>): Option<int> {
    match o
    case Some(Value(v)) => Some(v)
    case _ => None
  }

  /** Newest-wins merge. */
  function Merge(ks: seq<Kvset>): Data {
    if ks == [] then map[] else Merge(ks[1..]) + ks[0].data
  }

  function Window(d: Data, lo: real, hi: real): Data {
    map k | k in d && lo < k <= hi :: d[k]
  }

  function DropTombs(d: Data): Data {
    map k | k in d && d[k] != Tomb :: d[k]
  }

  /** The order in which cn_move lists kvsets. */
  predicate Younger(a: Kvset, b: Kvset) {
    a.dgen > b.dgen || (a.dgen == b.dgen && a.lo >= b.lo)
  }

  /** The list cn_move leaves in the target node. */
  function MoveInto(src: seq<Kvset>, tgt: seq<Kvset>): seq<Kvset>
    decreases |src| + |tgt|
  {
    if src == [] then tgt
    else if tgt == [] then src
    else if Younger(src[0], tgt[0]) then [src[0]] + MoveInto(src[1..], tgt)
    else [tgt[0]] + MoveInto(src, tgt[1..])
  }

  /** The part of each kvset in a key range; a kvset left without keys is not created. */
  function Cut(ks: seq<Kvset>, lo: real, hi: real): seq<Kvset> {
    if ks == [] then []
    else
      var d := Window(ks[0].data, lo, hi);
      (if d == map[] then [] else [ks[0].(data := d)]) + Cut(ks[1..], lo, hi)
  }

  /** A subspill skips entries of kvsets not younger than the leaf's newest kvset. */
  function NewerThan(ks: seq<Kvset>, g: nat): seq<Kvset> {
    if ks == [] then []
    else (if ks[0].dgen <= g then [] else [ks[0]]) + NewerThan(ks[1..], g)
  }

  /** Result of compacting a run; tombstones go only if nothing older remains. */
  function Compacted(run: seq<Kvset>, oldest: bool): seq<Kvset>
    requires run != []
  {
    var d := if oldest then DropTombs(Merge(run)) else Merge(run);
    if d == map[] then [] else [Kvset(run[0].dgen, MinLo(run), d)]
  }

  function MinLo(run: seq<Kvset>): nat
    requires run != []
  {
    if |run| == 1 || run[0].lo <= MinLo(run[1..]) then run[0].lo else MinLo(run[1..])
  }

  ghost predicate KeysIn(ks: seq<Kvset>, lo: real, hi: real) {
    forall i, k :: 0 <= i < |ks| && k in ks[i].data ==> lo < k <= hi
  }

  ghost predicate KeysOut(ks: seq<Kvset>, lo: real, hi: real) {
    forall i, k :: 0 <= i < |ks| && k in ks[i].data ==> !(lo < k <= hi)
  }

  ghost predicate DgenUpTo(ks: seq<Kvset>, g: nat) {
    forall i :: 0 <= i < |ks| ==> ks[i].dgen <= g
  }

  // ----- lookup in combined lists -----

  lemma {:induction false} FindConcat(a: seq<Kvset>, b: seq<Kvset>, k: Key)
    ensures Find(a + b, k) == if Find(a, k).Some? then Find(a, k) else Find(b, k)
  {
    if a == [] {
      assert a + b == b;
    } else {
      assert (a + b)[1..] == a[1..] + b;
      FindConcat(a[1..], b, k);
    }
  }

  /** Kvset i is the newest with the key. */
  ghost predicate NewestWith(ks: seq<Kvset>, k: Key, i: int) {
    0 <= i < |ks| && k in ks[i].data && forall j :: 0 <= j < i ==> k !in ks[j].data
  }

  /** A search finds the entry of the newest kvset with the key, and nothing if there is none. */
  lemma {:induction false} FindExactly(ks: seq<Kvset>, k: Key)
    ensures forall i :: NewestWith(ks, k, i) ==> Find(ks, k) == Some(ks[i].data[k])
    ensures Find(ks, k) == None <==> forall i :: 0 <= i < |ks| ==> k !in ks[i].data
  {
    if ks != [] && k !in ks[0].data {
      FindExactly(ks[1..], k);
      forall i | NewestWith(ks, k, i) ensures Find(ks, k) == Some(ks[i].data[k]) {
        assert NewestWith(ks[1..], k, i - 1);
      }
      forall i | 0 <= i < |ks| ensures k in ks[i].data ==> i > 0 && k in ks[1..][i - 1].data {}
      forall i | 0 <= i < |ks[1..]| ensures ks[1..][i] == ks[i + 1] {}
    }
  }

  lemma {:induction false} FindMerge(ks: seq<Kvset>, k: Key)
    ensures k in Merge(ks) <==> Find(ks, k).Some?
    ensures k in Merge(ks) ==> Find(ks, k) == Some(Merge(ks)[k])
  {
    if ks != [] { FindMerge(ks[1..], k); }
  }

  lemma {:induction false} FindAbsent(ks: seq<Kvset>, k: Key)
    requires forall i :: 0 <= i < |ks| ==> k !in ks[i].data
    ensures Find(ks, k) == None
  {
    if ks != [] { FindAbsent(ks[1..], k); }
  }

  lemma {:induction false} FindPresent(ks: seq<Kvset>, k: Key)
    requires Find(ks, k).Some?
    ensures exists i :: 0 <= i < |ks| && k in ks[i].data
  {
    if k !in ks[0].data {
      FindPresent(ks[1..], k);
      var i :| 0 <= i < |ks[1..]| && k in ks[1..][i].data;
      assert k in ks[i + 1].data;
    }
  }

  lemma {:induction false} FindCut(ks: seq<Kvset>, lo: real, hi: real, k: Key)
    ensures Find(Cut(ks, lo, hi), k) == if lo < k <= hi then Find(ks, k) else None
  {
    if ks != [] {
      var d := Window(ks[0].data, lo, hi);
      var head := if d == map[] then [] else [ks[0].(data := d)];
      FindCut(ks[1..], lo, hi, k);
      FindConcat(head, Cut(ks[1..], lo, hi), k);
      assert k in d <==> k in ks[0].data && lo < k <= hi;
    }
  }

  lemma {:induction false} CutKeys(ks: seq<Kvset>, lo: real, hi: real, g: nat)
    ensures KeysIn(Cut(ks, lo, hi), lo, hi)
    ensures DgenUpTo(ks, g) ==> DgenUpTo(Cut(ks, lo, hi), g)
  {
    if ks != [] {
      CutKeys(ks[1..], lo, hi, g);
    }
  }

  lemma {:induction false} AllNewer(ks: seq<Kvset>, g: nat)
    requires forall i :: 0 <= i < |ks| ==> ks[i].dgen > g
    ensures NewerThan(ks, g) == ks
  {
    if ks != [] { AllNewer(ks[1..], g); }
  }

  // ----- cn_move -----

  /** Where the two lists hold different keys, each key is found as in its own list. */
  lemma {:induction false} FindMoved(src: seq<Kvset>, tgt: seq<Kvset>, k: Key)
    requires Find(src, k) == None || Find(tgt, k) == None
    ensures Find(MoveInto(src, tgt), k) == if Find(src, k).Some? then Find(src, k) else Find(tgt, k)
    decreases |src| + |tgt|
  {
    if src != [] && tgt != [] {
      if Younger(src[0], tgt[0]) {
        if k !in src[0].data { FindMoved(src[1..], tgt, k); }
      } else {
        if k !in tgt[0].data { FindMoved(src, tgt[1..], k); }
      }
    }
  }

  /** Kvsets younger than the whole target list end up at its head, in order. */
  lemma {:induction false} YoungerMovesToHead(src: seq<Kvset>, tgt: seq<Kvset>)
    requires forall i, j :: 0 <= i < |src| && 0 <= j < |tgt| ==> src[i].dgen > tgt[j].dgen
    ensures MoveInto(src, tgt) == src + tgt
  {
    if src != [] && tgt != [] {
      YoungerMovesToHead(src[1..], tgt);
      assert src == [src[0]] + src[1..];
    }
  }

  lemma {:induction false} MovedMembers(src: seq<Kvset>, tgt: seq<Kvset>)
    ensures |MoveInto(src, tgt)| == |src| + |tgt|
    ensures multiset(MoveInto(src, tgt)) == multiset(src) + multiset(tgt)
    decreases |src| + |tgt|
  {
    if src != [] && tgt != [] {
      if Younger(src[0], tgt[0]) {
        MovedMembers(src[1..], tgt);
        assert src == [src[0]] + src[1..];
      } else {
        MovedMembers(src, tgt[1..]);
        assert tgt == [tgt[0]] + tgt[1..];
      }
    }
  }

  lemma MovedFrom(src: seq<Kvset>, tgt: seq<Kvset>, i: int)
    requires 0 <= i < |MoveInto(src, tgt)|
    ensures MoveInto(src, tgt)[i] in src || MoveInto(src, tgt)[i] in tgt
  {
    MovedMembers(src, tgt);
    var x := MoveInto(src, tgt)[i];
    assert x in multiset(MoveInto(src, tgt));
    assert x in multiset(src) || x in multiset(tgt);
  }

  // ----- compaction -----

  ghost predicate OldestLo(ks: seq<Kvset>, lo: nat) {
    && (exists i :: 0 <= i < |ks| && ks[i].lo == lo)
    && (forall i :: 0 <= i < |ks| ==> lo <= ks[i].lo)
  }

  lemma {:induction false} MinLoIsOldest(run: seq<Kvset>)
    requires run != []
    ensures OldestLo(run, MinLo(run))
  {
    if |run| > 1 {
      MinLoIsOldest(run[1..]);
      var i :| 0 <= i < |run[1..]| && run[1..][i].lo == MinLo(run[1..]);
      assert run[i + 1].lo == MinLo(run[1..]);
      forall x | 0 <= x < |run| ensures MinLo(run) <= run[x].lo {
        if x > 0 { assert run[1..][x - 1] == run[x]; }
      }
      assert MinLo(run) == run[0].lo || MinLo(run) == run[i + 1].lo;
    }
  }

  /** The entry a compaction keeps for a key. */
  function Survivor(run: seq<Kvset>, oldest: bool, k: Key): Option<Entry> {
    if oldest && Find(run, k) == Some(Tomb) then None else Find(run, k)
  }

  ghost predicate NoneSurvives(run: seq<Kvset>, oldest: bool) {
    forall k: Key :: Survivor(run, oldest, k) == None
  }

  /** c is the one kvset that stands for the run: for each key its newest entry, or none if that
      is a tombstone with nothing older below it; its generations are the run's. */
  ghost predicate StandsFor(c: Kvset, run: seq<Kvset>, oldest: bool) {
    && run != [] && c.dgen == run[0].dgen && OldestLo(run, c.lo)
    && (forall k: Key :: Find([c], k) == Survivor(run, oldest, k))
  }

  /** A run is replaced by the one kvset that stands for it, or by nothing if no key survives. */
  lemma CompactedExactly(run: seq<Kvset>, oldest: bool)
    requires run != []
    ensures var c := Compacted(run, oldest);
      && (c == [] || (|c| == 1 && StandsFor(c[0], run, oldest)))
      && (c == [] <==> NoneSurvives(run, oldest))
  {
    var c := Compacted(run, oldest);
    var d := if oldest then DropTombs(Merge(run)) else Merge(run);
    forall k: Key ensures Survivor(run, oldest, k) == if k in d then Some(d[k]) else None {
      FindMerge(run, k);
    }
    MinLoIsOldest(run);
    if c != [] {
      assert c[0].data == d;
      forall k: Key ensures Find([c[0]], k) == Survivor(run, oldest, k) {
        assert [c[0]][1..] == [];
      }
      var k :| k in d;
      assert Survivor(run, oldest, k) != None;
    }
  }

  /** ks' is ks with the run from a to b replaced by c: the kvset that stands for the run, or
      nothing if no entry of the run survives. */
  ghost predicate Replaced(ks: seq<Kvset>, a: int, b: int, c: seq<Kvset>, ks': seq<Kvset>) {
    && 0 <= a < b <= |ks|
    && ks' == ks[..a] + c + ks[b..]
    && (c == [] || (|c| == 1 && StandsFor(c[0], ks[a..b], b == |ks|)))
    && (c == [] <==> NoneSurvives(ks[a..b], b == |ks|))
  }

  /** Replacing a contiguous run by its compaction leaves at most one kvset in its place, which
      stands for the run, and does not change what readers learn. */
  lemma CompactionPreservesLookup(newer: seq<Kvset>, run: seq<Kvset>, older: seq<Kvset>, k: Key)
    requires run != []
    ensures var c := Compacted(run, older == []);
      (c == [] && NoneSurvives(run, older == [])) || (|c| == 1 && StandsFor(c[0], run, older == []))
    ensures Live(Find(newer + Compacted(run, older == []) + older, k)) == Live(Find(newer + run + older, k))
  {
    var c := Compacted(run, older == []);
    CompactedExactly(run, older == []);
    FindMerge(run, k);
    FindConcat(newer + c, older, k);
    FindConcat(newer, c, k);
    FindConcat(newer + run, older, k);
    FindConcat(newer, run, k);
    var d := if older == [] then DropTombs(Merge(run)) else Merge(run);
    assert Find(c, k) == if k in d then Some(d[k]) else None by {
      if c == [] { assert k !in d; } else { assert c[1..] == []; }
    }
  }
}
