/**
 The allocator of transaction references (c0snr entries): counted references, and free
 lists in buckets.

 References are held by active transactions, by slots of kvmultisets, and by values in LC.
 The ghost field held counts them; the reference counters and free lists must follow it.
 */
module C0snrSet {
  import opened Options

  const BUCKETS: nat := 16

  /** Entry idx of a bucket. */
  datatype Entry = Entry(bkt: nat, idx: nat)

  /** Entries of a list of slots that are set. */
  function Entries(refs: seq<Option<Entry>>): seq<Entry> {
    if refs == [] then []
    else
      var n := |refs| - 1;
      Entries(refs[..n]) + (if refs[n].Some? then [refs[n].value] else [])
  }

  /** The entries in use so far are among the first used[b] of each bucket. */
  ghost predicate Initialised(used: seq<nat>, refcnt: map<Entry, nat>, max: nat) {
    && |used| == BUCKETS && (forall b :: 0 <= b < BUCKETS ==> used[b] <= max)
    && (forall e :: e in refcnt ==> e.bkt < BUCKETS && e.idx < used[e.bkt])
  }

  function B(b: bool): nat {
    if b then 1 else 0
  }

  predicate IsFree(refcnt: map<Entry, nat>, e: Entry) {
    e in refcnt && refcnt[e] == 0
  }

  /** How often an entry is on a list. */
  function Times(l: seq<Entry>, e: Entry): nat {
    if l == [] then 0 else B(l[0] == e) + Times(l[1..], e)
  }

  lemma {:induction false} TimesConcat(a: seq<Entry>, b: seq<Entry>, e: Entry)
    ensures Times(a + b, e) == Times(a, e) + Times(b, e)
  {
    if a == [] {
      assert a + b == b;
    } else {
      assert (a + b)[1..] == a[1..] + b;
      TimesConcat(a[1..], b, e);
    }
  }

  /** The lists hold, each once and in its own bucket, exactly the entries with count 0. */
  ghost predicate FreeExactly(lists: seq<seq<Entry>>, refcnt: map<Entry, nat>) {
    |lists| == BUCKETS && forall b, e :: 0 <= b < BUCKETS ==> Times(lists[b], e) == B(IsFree(refcnt, e) && e.bkt == b)
  }

  ghost predicate Counts(refcnt: map<Entry, nat>, held: multiset<Entry>) {
    forall e: Entry :: held[e] == if e in refcnt then refcnt[e] else 0
  }

  /** Two pools that hold the same references have the same free entries, however they got
      there: dropping references one by one or in bulk frees the same entries. */
  lemma HeldDeterminesFree(r1: map<Entry, nat>, r2: map<Entry, nat>, l1: seq<seq<Entry>>, l2: seq<seq<Entry>>,
                           held: multiset<Entry>, b: nat, e: Entry)
    requires FreeExactly(l1, r1) && FreeExactly(l2, r2) && Counts(r1, held) && Counts(r2, held) && r1.Keys == r2.Keys
    requires b < BUCKETS
    ensures Times(l1[b], e) == Times(l2[b], e)
  {
    assert e in r1.Keys <==> e in r2.Keys;
    assert IsFree(r1, e) <==> IsFree(r2, e) by {
      if e in r1 { assert r1[e] == held[e] == r2[e]; }
    }
  }

  /** l' is l with the entry added, removed or as before. */
  ghost predicate Edited(l: seq<Entry>, l': seq<Entry>, e: Entry, added: int) {
    forall x :: Times(l', x) == Times(l, x) + if x == e then added else 0
  }

  /** One count changes, and with it, if need be, the membership of the entry in its list. */
  lemma CountChanges(lists: seq<seq<Entry>>, l': seq<Entry>, r: map<Entry, nat>, e: Entry, n: nat)
    requires FreeExactly(lists, r) && e.bkt < BUCKETS
    requires Edited(lists[e.bkt], l', e, B(n == 0) - B(IsFree(r, e)))
    ensures FreeExactly(lists[e.bkt := l'], r[e := n])
  {
    var lists', r' := lists[e.bkt := l'], r[e := n];
    forall b, x | 0 <= b < BUCKETS ensures Times(lists'[b], x) == B(IsFree(r', x) && x.bkt == b) {
      assert Times(lists[b], x) == B(IsFree(r, x) && x.bkt == b);
    }
  }

  lemma Same(l: seq<Entry>, e: Entry)
    ensures Edited(l, l, e, 0)
  {
  }

  lemma AddedFirst(l: seq<Entry>, e: Entry)
    ensures Edited(l, [e] + l, e, 1) && Edited([e] + l, l, e, -1)
  {
    assert ([e] + l)[1..] == l;
  }

  lemma AddedBetween(a: seq<Entry>, b: seq<Entry>, e: Entry)
    ensures Edited(a + b, (a + [e]) + b, e, 1)
  {
    forall x ensures Times((a + [e]) + b, x) == Times(a + b, x) + if x == e then 1 else 0 {
      TimesConcat(a + [e], b, x);
      TimesConcat(a, [e], x);
      TimesConcat(a, b, x);
      assert [e][1..] == [];
    }
  }

  lemma HeldIsKnown(used: seq<nat>, refcnt: map<Entry, nat>, max: nat, held: multiset<Entry>, e: Entry)
    requires Initialised(used, refcnt, max) && Counts(refcnt, held) && held[e] > 0
    ensures e in refcnt && e.bkt < BUCKETS && refcnt[e] == held[e]
  {
  }

  lemma HeldChanges(r: map<Entry, nat>, held: multiset<Entry>, e: Entry, n: nat)
    requires Counts(r, held)
    ensures Counts(r[e := n], held[e := n])
  {
  }

  lemma FirstRef(r: map<Entry, nat>, held: multiset<Entry>, e: Entry)
    requires Counts(r, held) && (e in r ==> r[e] == 0)
    ensures held[e] == 0 && Counts(r[e := 1], held + multiset{e})
  {
    assert held[e := 1] == held + multiset{e};
    HeldChanges(r, held, e, 1);
  }

  lemma StaysInitialised(used: seq<nat>, r: map<Entry, nat>, max: nat, e: Entry, n: nat)
    requires Initialised(used, r, max) && e in r
    ensures Initialised(used, r[e := n], max)
  {
  }

  lemma NewlyInitialised(used: seq<nat>, r: map<Entry, nat>, max: nat, b: nat)
    requires Initialised(used, r, max) && b < BUCKETS && used[b] < max
    ensures var e := Entry(b, used[b]); e !in r && Initialised(used[b := used[b] + 1], r[e := 1], max)
  {
    var e := Entry(b, used[b]);
    var used', r' := used[b := used[b] + 1], r[e := 1];
    forall x | x in r' ensures x.bkt < BUCKETS && x.idx < used'[x.bkt] {
      if x != e { assert x in r; }
    }
  }

  /** Steps from bucket start to bucket b, going round. */
  function Offset(start: nat, b: nat): int {
    if b >= start then b - start else b + BUCKETS - start
  }

  /** The lists and counters of the allocator: per bucket the number of entries used so far
      and the free list, and per entry its counter and its kvmultiset generation. */
  datatype Core = Core(used: seq<nat>, cache: seq<seq<Entry>>, refcnt: map<Entry, nat>, gen: map<Entry, int>)

  ghost predicate CoreOk(c: Core, max: nat, held: multiset<Entry>) {
    PoolOk(c.used, max, c.cache, c.refcnt, held) && c.gen.Keys == c.refcnt.Keys
  }

  /** Every bucket has handed out all its entries and has none on its free list. */
  ghost predicate Exhausted(c: Core, max: nat)
    requires |c.cache| == |c.used| == BUCKETS
  {
    forall b :: 0 <= b < BUCKETS ==> c.cache[b] == [] && c.used[b] == max
  }

  /** The first entry of a bucket's free list, or else the first one not used before. */
  function Head(c: Core, bkt: nat): Entry
    requires bkt < |c.cache| == |c.used|
  {
    if c.cache[bkt] != [] then c.cache[bkt][0] else Entry(bkt, c.used[bkt])
  }

  /** The state after the first entry of a bucket's free list, or a new entry, is taken. */
  function Take(c: Core, bkt: nat): Core
    requires bkt < |c.cache| == |c.used|
  {
    var e := Head(c, bkt);
    Core(if c.cache[bkt] == [] then c.used[bkt := c.used[bkt] + 1] else c.used,
         if c.cache[bkt] == [] then c.cache else c.cache[bkt := c.cache[bkt][1..]],
         c.refcnt[e := 1], c.gen[e := -1])
  }

  lemma Taken(c: Core, max: nat, held: multiset<Entry>, bkt: nat)
    requires CoreOk(c, max, held) && bkt < BUCKETS && (c.cache[bkt] != [] || c.used[bkt] < max)
    ensures var e := Head(c, bkt); held[e] == 0 && CoreOk(Take(c, bkt), max, held + multiset{e})
  {
    if c.cache[bkt] != [] {
      TakeFree(c.used, max, c.cache, c.refcnt, held, bkt);
    } else {
      TakeNew(c.used, max, c.cache, c.refcnt, held, bkt);
    }
  }

  class Pool {
    const max: nat
    var core: Core
    ghost var held: multiset<Entry>

    ghost predicate Valid()
      reads this
    {
      CoreOk(core, max, held)
    }

    constructor (max: nat)
      ensures Valid() && held == multiset{} && this.max == max && core.gen == map[]
    {
      this.max := max;
      core := Core(seq(BUCKETS, _ => 0), seq(BUCKETS, _ => []), map[], map[]);
      held := multiset{};
    }

    /** An entry for a transaction, with its first reference; the first bucket depends on the
        caller's cpu and the others are tried in turn. */
    method Alloc(start: nat) returns (r: Option<Entry>)
      requires Valid() && start < BUCKETS
      modifies this
      ensures Valid()
      ensures r.Some? ==> old(held)[r.value] == 0 && held == old(held) + multiset{r.value}
      ensures r.Some? ==> core.gen == old(core.gen)[r.value := -1]
      ensures r.None? ==> held == old(held) && core == old(core) && Exhausted(core, max)
    {
      var bkt: nat, tries: nat := start, 0;
      r := None;
      while tries < BUCKETS
        invariant tries <= BUCKETS && bkt < BUCKETS && (tries < BUCKETS ==> Offset(start, bkt) == tries)
        invariant r == None && Valid() && held == old(held) && core == old(core)
        invariant forall b: nat :: b < BUCKETS && Offset(start, b) < tries ==>
          core.cache[b] == [] && core.used[b] == max
      {
        r := AllocFrom(bkt);
        if r.Some? { return; }
        bkt := if bkt + 1 >= BUCKETS then 0 else bkt + 1;
        tries := tries + 1;
      }
    }

    /** From the free list of a bucket, or else one not used before. */
    method AllocFrom(bkt: nat) returns (r: Option<Entry>)
      requires Valid() && bkt < BUCKETS
      modifies this
      ensures Valid()
      ensures r.Some? ==> old(held)[r.value] == 0 && held == old(held) + multiset{r.value}
      ensures r.Some? ==> core.gen == old(core.gen)[r.value := -1]
      ensures r.Some? ==> r.value == Head(old(core), bkt) && core == Take(old(core), bkt)
      ensures r.None? ==> core == old(core) && held == old(held) && core.cache[bkt] == [] && core.used[bkt] == max
    {
      var c := core;
      if c.cache[bkt] == [] && c.used[bkt] >= max { return None; }
      Taken(c, max, held, bkt);
      var e: Entry;
      if c.cache[bkt] != [] {
        e := c.cache[bkt][0];
        c := c.(cache := c.cache[bkt := c.cache[bkt][1..]]);
      } else {
        e := Entry(bkt, c.used[bkt]);
        c := c.(used := c.used[bkt := c.used[bkt] + 1]);
      }
      c := c.(refcnt := c.refcnt[e := 1], gen := c.gen[e := -1]);
      assert c == Take(core, bkt);
      core, held := c, held + multiset{e};
      return Some(e);
    }

    /** A further reference; within a kvmultiset generation (g >= 0) only the first counts. */
    method GetRef(e: Entry, g: int) returns (counted: bool)
      requires Valid() && held[e] > 0
      modifies this
      ensures Valid() && e in old(core.gen) && counted == (g < 0 || old(core.gen)[e] != g)
      ensures held == (if counted then old(held) + multiset{e} else old(held))
      ensures core.gen == (if g < 0 then old(core.gen) else old(core.gen)[e := g])
    {
      AddRef(core.used, max, core.cache, core.refcnt, held, e);
      counted := g < 0 || core.gen[e] != g;
      if counted {
        core := core.(refcnt := core.refcnt[e := core.refcnt[e] + 1]);
        held := held + multiset{e};
      }
      if g >= 0 { core := core.(gen := core.gen[e := g]); }
    }

    method DropRef(e: Entry)
      requires Valid() && held[e] > 0
      modifies this
      ensures Valid() && held == old(held) - multiset{e} && core.gen == old(core.gen)
    {
      var c := core;
      Dropping(c, max, held, e);
      core := c.(refcnt := c.refcnt[e := c.refcnt[e] - 1],
                 cache := if c.refcnt[e] == 1 then c.cache[e.bkt := [e] + c.cache[e.bkt]] else c.cache);
      held := held - multiset{e};
    }

    /** Drop many references: freed entries are chained by bucket first and returned to the
        free lists at the end. */
    method DropRefv(refs: seq<Option<Entry>>)
      requires Valid() && multiset(Entries(refs)) <= held
      modifies this
      ensures Valid() && held == old(held) - multiset(Entries(refs)) && core.gen == old(core.gen)
    {
      var c, chains := DropCounts(core, max, held, refs);
      core := c.(cache := Joined(chains, c.cache));
      held := held - multiset(Entries(refs));
    }
  }

  /** The counting part of a bulk drop. */
  method DropCounts(c0: Core, ghost max: nat, ghost held: multiset<Entry>, refs: seq<Option<Entry>>)
    returns (c: Core, chains: seq<seq<Entry>>)
    requires CoreOk(c0, max, held) && multiset(Entries(refs)) <= held
    ensures |chains| == |c.cache| && c.gen == c0.gen
    ensures CoreOk(c.(cache := Joined(chains, c.cache)), max, held - multiset(Entries(refs)))
  {
    c, chains := c0, seq(BUCKETS, _ => []);
    NoChains(chains, c.cache);
    ghost var left := held;
    for i := 0 to |refs|
      invariant Draining(c, max, chains, left) && c.gen == c0.gen && LeftAfter(held, refs, i, left)
    {
      LeftNext(held, refs, i, left);
      if refs[i].Some? {
        c, chains := DropCount(c, chains, max, left, refs[i].value);
        left := left - multiset{refs[i].value};
      }
    }
    LeftAtEnd(held, refs, left);
  }

  /** What is still held after i of the references are dropped. */
  ghost predicate LeftAfter(held: multiset<Entry>, refs: seq<Option<Entry>>, i: nat, left: multiset<Entry>) {
    i <= |refs| && left + multiset(Entries(refs[..i])) == held
  }

  lemma LeftNext(held: multiset<Entry>, refs: seq<Option<Entry>>, i: nat, left: multiset<Entry>)
    requires i < |refs| && multiset(Entries(refs)) <= held && LeftAfter(held, refs, i, left)
    ensures if refs[i].Some?
      then left[refs[i].value] > 0 && LeftAfter(held, refs, i + 1, left - multiset{refs[i].value})
      else LeftAfter(held, refs, i + 1, left)
  {
    NextEntry(refs, i);
    if refs[i].Some? { MoveOne(left, multiset(Entries(refs[..i])), held, refs[i].value); }
  }

  lemma MoveOne(a: multiset<Entry>, b: multiset<Entry>, all: multiset<Entry>, e: Entry)
    requires a + b == all && b + multiset{e} <= all
    ensures a[e] > 0 && (a - multiset{e}) + (b + multiset{e}) == all
  {
    assert (b + multiset{e})[e] <= all[e];
  }

  lemma LeftAtEnd(held: multiset<Entry>, refs: seq<Option<Entry>>, left: multiset<Entry>)
    requires LeftAfter(held, refs, |refs|, left)
    ensures left == held - multiset(Entries(refs))
  {
    assert refs[..|refs|] == refs;
  }

  method DropCount(c: Core, chains: seq<seq<Entry>>, ghost max: nat, ghost held: multiset<Entry>, e: Entry)
    returns (c': Core, chains': seq<seq<Entry>>)
    requires Draining(c, max, chains, held) && held[e] > 0
    ensures Draining(c', max, chains', held - multiset{e}) && c'.gen == c.gen
  {
    Chaining(c, max, chains, held, e);
    chains' := if c.refcnt[e] == 1 then chains[e.bkt := chains[e.bkt] + [e]] else chains;
    c' := c.(refcnt := c.refcnt[e := c.refcnt[e] - 1]);
  }

  /** Freed entries may be on a chain instead of a free list. */
  ghost predicate Draining(c: Core, max: nat, chains: seq<seq<Entry>>, held: multiset<Entry>) {
    |chains| == |c.cache| && CoreOk(c.(cache := Joined(chains, c.cache)), max, held)
  }

  lemma Chaining(c: Core, max: nat, chains: seq<seq<Entry>>, held: multiset<Entry>, e: Entry)
    requires Draining(c, max, chains, held) && held[e] > 0
    ensures e in c.refcnt && c.refcnt[e] > 0 && e.bkt < |chains|
    ensures Draining(c.(refcnt := c.refcnt[e := c.refcnt[e] - 1]), max,
                     if c.refcnt[e] == 1 then chains[e.bkt := chains[e.bkt] + [e]] else chains, held - multiset{e})
  {
    DropChained(c.used, max, chains, c.cache, c.refcnt, held, e);
  }

  lemma Dropping(c: Core, max: nat, held: multiset<Entry>, e: Entry)
    requires CoreOk(c, max, held) && held[e] > 0
    ensures e in c.refcnt && c.refcnt[e] > 0 && e.bkt < |c.cache|
    ensures CoreOk(c.(refcnt := c.refcnt[e := c.refcnt[e] - 1],
                      cache := if c.refcnt[e] == 1 then c.cache[e.bkt := [e] + c.cache[e.bkt]] else c.cache),
                   max, held - multiset{e})
  {
    DropPushed(c.used, max, c.cache, c.refcnt, held, e);
  }

  ghost predicate PoolOk(used: seq<nat>, max: nat, lists: seq<seq<Entry>>, r: map<Entry, nat>, held: multiset<Entry>) {
    Initialised(used, r, max) && FreeExactly(lists, r) && Counts(r, held)
  }

  lemma TakeFree(used: seq<nat>, max: nat, lists: seq<seq<Entry>>, r: map<Entry, nat>, held: multiset<Entry>, b: nat)
    requires PoolOk(used, max, lists, r, held) && b < BUCKETS && lists[b] != []
    ensures var e := lists[b][0];
      e in r && held[e] == 0 && PoolOk(used, max, lists[b := lists[b][1..]], r[e := 1], held + multiset{e})
  {
    var e, rest := lists[b][0], lists[b][1..];
    assert lists[b] == [e] + rest;
    AddedFirst(rest, e);
    assert Times(lists[b], e) == B(IsFree(r, e) && e.bkt == b);
    CountChanges(lists, rest, r, e, 1);
    StaysInitialised(used, r, max, e, 1);
    FirstRef(r, held, e);
  }

  lemma TakeNew(used: seq<nat>, max: nat, lists: seq<seq<Entry>>, r: map<Entry, nat>, held: multiset<Entry>, b: nat)
    requires PoolOk(used, max, lists, r, held) && b < BUCKETS && used[b] < max
    ensures var e := Entry(b, used[b]);
      held[e] == 0 && PoolOk(used[b := used[b] + 1], max, lists, r[e := 1], held + multiset{e})
  {
    var e := Entry(b, used[b]);
    NewlyInitialised(used, r, max, b);
    Same(lists[b], e);
    CountChanges(lists, lists[b], r, e, 1);
    assert lists[b := lists[b]] == lists;
    FirstRef(r, held, e);
  }

  lemma AddRef(used: seq<nat>, max: nat, lists: seq<seq<Entry>>, r: map<Entry, nat>, held: multiset<Entry>, e: Entry)
    requires PoolOk(used, max, lists, r, held) && held[e] > 0
    ensures e in r && PoolOk(used, max, lists, r[e := r[e] + 1], held + multiset{e})
  {
    HeldIsKnown(used, r, max, held, e);
    assert held[e := r[e] + 1] == held + multiset{e};
    Same(lists[e.bkt], e);
    CountChanges(lists, lists[e.bkt], r, e, r[e] + 1);
    assert lists[e.bkt := lists[e.bkt]] == lists;
    StaysInitialised(used, r, max, e, r[e] + 1);
    HeldChanges(r, held, e, r[e] + 1);
  }

  /** The last reference puts the entry on its list; where on the list does not matter. */
  lemma SubRef(used: seq<nat>, max: nat, lists: seq<seq<Entry>>, l': seq<Entry>, r: map<Entry, nat>,
               held: multiset<Entry>, e: Entry)
    requires PoolOk(used, max, lists, r, held) && held[e] > 0 && e in r && e.bkt < BUCKETS && r[e] > 0
    requires Edited(lists[e.bkt], l', e, B(r[e] == 1))
    ensures PoolOk(used, max, lists[e.bkt := l'], r[e := r[e] - 1], held - multiset{e})
  {
    HeldIsKnown(used, r, max, held, e);
    assert held[e := r[e] - 1] == held - multiset{e};
    StaysInitialised(used, r, max, e, r[e] - 1);
    HeldChanges(r, held, e, r[e] - 1);
    CountChanges(lists, l', r, e, r[e] - 1);
  }

  /** Dropping a reference with the freed entry at the head of its list. */
  lemma DropPushed(used: seq<nat>, max: nat, cache: seq<seq<Entry>>, r: map<Entry, nat>, held: multiset<Entry>,
                   e: Entry)
    requires PoolOk(used, max, cache, r, held) && held[e] > 0
    ensures e in r && r[e] > 0 && e.bkt < BUCKETS
    ensures PoolOk(used, max, if r[e] == 1 then cache[e.bkt := [e] + cache[e.bkt]] else cache,
                   r[e := r[e] - 1], held - multiset{e})
  {
    HeldIsKnown(used, r, max, held, e);
    Same(cache[e.bkt], e);
    AddedFirst(cache[e.bkt], e);
    SubRef(used, max, cache, if r[e] == 1 then [e] + cache[e.bkt] else cache[e.bkt], r, held, e);
    assert cache[e.bkt := cache[e.bkt]] == cache;
  }

  /** Dropping a reference with the freed entry at the end of its chain. */
  lemma DropChained(used: seq<nat>, max: nat, chains: seq<seq<Entry>>, cache: seq<seq<Entry>>, r: map<Entry, nat>,
                    held: multiset<Entry>, e: Entry)
    requires |chains| == |cache| == BUCKETS && PoolOk(used, max, Joined(chains, cache), r, held) && held[e] > 0
    ensures e in r && r[e] > 0 && e.bkt < BUCKETS
    ensures PoolOk(used, max, Joined(if r[e] == 1 then chains[e.bkt := chains[e.bkt] + [e]] else chains, cache),
                   r[e := r[e] - 1], held - multiset{e})
  {
    HeldIsKnown(used, r, max, held, e);
    var lists := Joined(chains, cache);
    var chains' := if r[e] == 1 then chains[e.bkt := chains[e.bkt] + [e]] else chains;
    Same(lists[e.bkt], e);
    AddedBetween(chains[e.bkt], cache[e.bkt], e);
    SubRef(used, max, lists, chains'[e.bkt] + cache[e.bkt], r, held, e);
    assert lists[e.bkt := chains'[e.bkt] + cache[e.bkt]] == Joined(chains', cache);
  }

  lemma NoChains(chains: seq<seq<Entry>>, cache: seq<seq<Entry>>)
    requires |chains| == |cache| && forall b :: 0 <= b < |chains| ==> chains[b] == []
    ensures Joined(chains, cache) == cache
  {
    forall b | 0 <= b < |cache| ensures Joined(chains, cache)[b] == cache[b] { assert [] + cache[b] == cache[b]; }
  }

  /** The free lists with the chains in front. */
  function Joined(chains: seq<seq<Entry>>, cache: seq<seq<Entry>>): seq<seq<Entry>>
    requires |chains| == |cache|
  {
    seq(|cache|, b requires 0 <= b < |cache| => chains[b] + cache[b])
  }

  /** The entries up to slot i are among all of them, and one more at slot i if it is set. */
  lemma NextEntry(refs: seq<Option<Entry>>, i: nat)
    requires i < |refs|
    ensures multiset(Entries(refs[..i + 1])) ==
      multiset(Entries(refs[..i])) + (if refs[i].Some? then multiset{refs[i].value} else multiset{})
    ensures multiset(Entries(refs[..i + 1])) <= multiset(Entries(refs))
  {
    assert refs[..i + 1][..i] == refs[..i];
    EntriesWithin(refs, i + 1);
  }

  lemma {:induction false} EntriesWithin(refs: seq<Option<Entry>>, i: nat)
    requires i <= |refs|
    ensures multiset(Entries(refs[..i])) <= multiset(Entries(refs))
    decreases |refs|
  {
    if i < |refs| {
      var n := |refs| - 1;
      EntriesWithin(refs[..n], i);
      assert refs[..n][..i] == refs[..i];
    } else {
      assert refs[..i] == refs;
    }
  }
}
