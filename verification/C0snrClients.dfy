/**
 The holders of c0snr references: active transactions, slots of live kvmultisets, and LC.
 */
module C0snrClients {
  import opened Options
  import opened C0snrSet

  /** A live kvmultiset: its generation and its slots, in the order they were handed out. */
  datatype Kvms = Kvms(gen: nat, slots: seq<Option<Entry>>)

  function WithSlot(sets: seq<Kvms>, i: nat, s: Option<Entry>): seq<Kvms>
    requires i < |sets|
  {
    sets[i := Kvms(sets[i].gen, sets[i].slots + [s])]
  }

  function WithNew(sets: seq<Kvms>, gen: nat): seq<Kvms> {
    sets + [Kvms(gen, [])]
  }

  function Without(sets: seq<Kvms>, i: nat): seq<Kvms>
    requires i < |sets|
  {
    sets[..i] + sets[i + 1..]
  }

  /** All references from slots. */
  ghost function SlotRefs(sets: seq<Kvms>): multiset<Entry> {
    if sets == [] then multiset{} else multiset(Entries(sets[0].slots)) + SlotRefs(sets[1..])
  }

  lemma {:induction false} SlotRefsUpdate(sets: seq<Kvms>, i: nat, k: Kvms)
    requires i < |sets|
    ensures SlotRefs(sets[i := k]) + multiset(Entries(sets[i].slots)) == SlotRefs(sets) + multiset(Entries(k.slots))
  {
    if i == 0 {
      assert sets[i := k][1..] == sets[1..];
    } else {
      assert sets[i := k][1..] == sets[1..][i - 1 := k];
      SlotRefsUpdate(sets[1..], i - 1, k);
      var m, a, a' := multiset(Entries(sets[0].slots)), SlotRefs(sets[1..]), SlotRefs(sets[1..][i - 1 := k]);
      assert (m + a') + multiset(Entries(sets[i].slots)) == m + (a' + multiset(Entries(sets[i].slots)));
      assert (m + a) + multiset(Entries(k.slots)) == m + (a + multiset(Entries(k.slots)));
    }
  }

  lemma {:induction false} SlotRefsRemove(sets: seq<Kvms>, i: nat)
    requires i < |sets|
    ensures SlotRefs(Without(sets, i)) + multiset(Entries(sets[i].slots)) == SlotRefs(sets)
  {
    if i == 0 {
      assert sets[..i] + sets[i + 1..] == sets[1..];
    } else {
      assert (sets[..i] + sets[i + 1..])[1..] == sets[1..][..i - 1] + sets[1..][i..];
      SlotRefsRemove(sets[1..], i - 1);
    }
  }

  lemma EntriesAppend(slots: seq<Option<Entry>>, s: Option<Entry>)
    ensures Entries(slots + [s]) == Entries(slots) + (if s.Some? then [s.value] else [])
  {
    assert (slots + [s])[..|slots|] == slots;
  }

  /** Appending a slot adds its reference, if it is set. */
  lemma SlotRefsAppend(sets: seq<Kvms>, i: nat, s: Option<Entry>)
    requires i < |sets|
    ensures SlotRefs(WithSlot(sets, i, s)) == SlotRefs(sets) + (if s.Some? then multiset{s.value} else multiset{})
  {
    var k := Kvms(sets[i].gen, sets[i].slots + [s]);
    EntriesAppend(sets[i].slots, s);
    SlotRefsUpdate(sets, i, k);
    var m, x := multiset(Entries(sets[i].slots)), if s.Some? then multiset{s.value} else multiset{};
    assert multiset(Entries(k.slots)) == m + x;
    Cancel(SlotRefs(sets[i := k]), SlotRefs(sets) + x, m);
  }

  lemma Cancel(a: multiset<Entry>, b: multiset<Entry>, m: multiset<Entry>)
    requires a + m == b + m
    ensures a == b
  {
    assert a == (a + m) - m && b == (b + m) - m;
  }

  /** Every reference has one holder. */
  ghost predicate Shared(held: multiset<Entry>, txns: set<Entry>, sets: seq<Kvms>, lc: multiset<Entry>) {
    held == multiset(txns) + SlotRefs(sets) + lc
  }

  lemma ShareInstall(held: multiset<Entry>, txns: set<Entry>, sets: seq<Kvms>, lc: multiset<Entry>, gen: nat)
    requires Shared(held, txns, sets, lc)
    ensures Shared(held, txns, WithNew(sets, gen), lc)
  {
    SlotRefsInstall(sets, gen);
  }

  lemma ShareBegin(held: multiset<Entry>, txns: set<Entry>, sets: seq<Kvms>, lc: multiset<Entry>, e: Entry)
    requires Shared(held, txns, sets, lc) && held[e] == 0
    ensures e !in txns && SlotRefs(sets)[e] == 0 && lc[e] == 0
    ensures Shared(held + multiset{e}, txns + {e}, sets, lc)
  {
    assert multiset(txns)[e] == 0;
    assert multiset(txns + {e}) == multiset(txns) + multiset{e};
  }

  lemma ShareEnd(held: multiset<Entry>, txns: set<Entry>, sets: seq<Kvms>, lc: multiset<Entry>, e: Entry)
    requires Shared(held, txns, sets, lc) && e in txns
    ensures held[e] > 0 && Shared(held - multiset{e}, txns - {e}, sets, lc)
  {
    assert multiset(txns)[e] == 1;
    assert multiset(txns - {e}) == multiset(txns) - multiset{e};
  }

  lemma ShareSlot(held: multiset<Entry>, txns: set<Entry>, sets: seq<Kvms>, lc: multiset<Entry>, i: nat,
                  s: Option<Entry>)
    requires Shared(held, txns, sets, lc) && i < |sets|
    ensures Shared(if s.Some? then held + multiset{s.value} else held, txns, WithSlot(sets, i, s), lc)
  {
    SlotRefsAppend(sets, i, s);
  }

  lemma ShareLc(held: multiset<Entry>, txns: set<Entry>, sets: seq<Kvms>, lc: multiset<Entry>, e: Entry)
    requires Shared(held, txns, sets, lc)
    ensures Shared(held + multiset{e}, txns, sets, lc + multiset{e})
  {
  }

  lemma ShareCollect(held: multiset<Entry>, txns: set<Entry>, sets: seq<Kvms>, lc: multiset<Entry>, m: multiset<Entry>)
    requires Shared(held, txns, sets, lc) && m <= lc
    ensures m <= held && Shared(held - m, txns, sets, lc - m)
  {
  }

  lemma ShareDestroy(held: multiset<Entry>, txns: set<Entry>, sets: seq<Kvms>, lc: multiset<Entry>, i: nat)
    requires Shared(held, txns, sets, lc) && i < |sets|
    ensures var m := multiset(Entries(sets[i].slots)); m <= held && Shared(held - m, txns, Without(sets, i), lc)
  {
    SlotRefsRemove(sets, i);
    RemoveShare(multiset(txns), SlotRefs(sets), lc, SlotRefs(Without(sets, i)), multiset(Entries(sets[i].slots)));
  }

  /** Taking one holder's share away. */
  lemma RemoveShare(t: multiset<Entry>, s: multiset<Entry>, l: multiset<Entry>, s': multiset<Entry>, m: multiset<Entry>)
    requires s' + m == s
    ensures m <= t + s + l && (t + s + l) - m == t + s' + l
  {
  }

  /** Kvmultisets in the order of their generations, the newest last. */
  ghost predicate InOrder(sets: seq<Kvms>, gens: nat) {
    && (forall i, j :: 0 <= i < j < |sets| ==> sets[i].gen < sets[j].gen)
    && (forall i :: 0 <= i < |sets| ==> sets[i].gen <= gens)
  }

  /** An entry marked with the generation of a live kvmultiset has a slot there. */
  ghost predicate Marked(gen: map<Entry, int>, sets: seq<Kvms>, gens: nat) {
    forall e :: e in gen ==> gen[e] <= gens && HasSlot(gen[e], e, sets)
  }

  ghost predicate HasSlot(g: int, e: Entry, sets: seq<Kvms>) {
    forall i :: 0 <= i < |sets| && sets[i].gen == g ==> Some(e) in sets[i].slots
  }

  lemma MarkedInstall(gen: map<Entry, int>, sets: seq<Kvms>, gens: nat, gens': nat)
    requires Marked(gen, sets, gens) && InOrder(sets, gens) && gens < gens'
    ensures Marked(gen, WithNew(sets, gens'), gens') && InOrder(WithNew(sets, gens'), gens')
  {
    var sets' := WithNew(sets, gens');
    forall e | e in gen ensures gen[e] <= gens' && HasSlot(gen[e], e, sets') {
      assert HasSlot(gen[e], e, sets);
    }
    forall i | 0 <= i < |sets'| ensures sets'[i].gen <= if i < |sets| then gens else gens' {}
  }

  lemma MarkedBegin(gen: map<Entry, int>, sets: seq<Kvms>, gens: nat, e: Entry)
    requires Marked(gen, sets, gens)
    ensures Marked(gen[e := -1], sets, gens)
  {
    var gen' := gen[e := -1];
    forall x | x in gen' ensures gen'[x] <= gens && HasSlot(gen'[x], x, sets) {
      if x != e { assert HasSlot(gen[x], x, sets); }
    }
  }

  /** Slots are only ever added. */
  lemma MarkedSlot(gen: map<Entry, int>, sets: seq<Kvms>, gens: nat, i: nat, s: Option<Entry>)
    requires Marked(gen, sets, gens) && InOrder(sets, gens) && i < |sets|
    ensures InOrder(WithSlot(sets, i, s), gens)
    ensures Marked(if s.Some? then gen[s.value := sets[i].gen] else gen, WithSlot(sets, i, s), gens)
  {
    var gen', sets' := if s.Some? then gen[s.value := sets[i].gen] else gen, WithSlot(sets, i, s);
    forall e | e in gen' ensures gen'[e] <= gens && HasSlot(gen'[e], e, sets') {
      if s != Some(e) { assert HasSlot(gen[e], e, sets); }
    }
  }

  lemma MarkedDestroy(gen: map<Entry, int>, sets: seq<Kvms>, gens: nat, i: nat)
    requires Marked(gen, sets, gens) && InOrder(sets, gens) && i < |sets|
    ensures Marked(gen, Without(sets, i), gens) && InOrder(Without(sets, i), gens)
  {
    var sets' := Without(sets, i);
    forall x | 0 <= x < |sets'| ensures sets'[x] == sets[if x < i then x else x + 1] {}
    forall e | e in gen ensures gen[e] <= gens && HasSlot(gen[e], e, sets') {
      assert HasSlot(gen[e], e, sets);
    }
  }

  lemma {:induction false} SlotRefsInstall(sets: seq<Kvms>, gen: nat)
    ensures SlotRefs(WithNew(sets, gen)) == SlotRefs(sets)
  {
    var sets' := sets + [Kvms(gen, [])];
    if sets == [] {
      assert sets'[1..] == [];
    } else {
      assert sets'[1..] == sets[1..] + [Kvms(gen, [])];
      SlotRefsInstall(sets[1..], gen);
    }
  }

  /** Active transactions, live kvmultisets, the values of LC by their entries, and the last
      kvmultiset generation handed out. */
  datatype Clients = Clients(txns: set<Entry>, sets: seq<Kvms>, lc: multiset<Entry>, gens: nat)

  ghost predicate ClientsOk(c: Clients, held: multiset<Entry>, gen: map<Entry, int>) {
    Shared(held, c.txns, c.sets, c.lc) && InOrder(c.sets, c.gens) && Marked(gen, c.sets, c.gens)
  }

  lemma InstallOk(c: Clients, c': Clients, held: multiset<Entry>, gen: map<Entry, int>)
    requires ClientsOk(c, held, gen) && c' == c.(sets := WithNew(c.sets, c'.gens), gens := c'.gens)
    requires c'.gens == c.gens + 1
    ensures ClientsOk(c', held, gen)
  {
    ShareInstall(held, c.txns, c.sets, c.lc, c'.gens);
    MarkedInstall(gen, c.sets, c.gens, c'.gens);
  }

  lemma BeginOk(c: Clients, held: multiset<Entry>, gen: map<Entry, int>, e: Entry)
    requires ClientsOk(c, held, gen) && held[e] == 0
    ensures e !in c.txns && SlotRefs(c.sets)[e] == 0 && c.lc[e] == 0
    ensures ClientsOk(c.(txns := c.txns + {e}), held + multiset{e}, gen[e := -1])
  {
    ShareBegin(held, c.txns, c.sets, c.lc, e);
    MarkedBegin(gen, c.sets, c.gens, e);
  }

  lemma FillOk(c: Clients, held: multiset<Entry>, gen: map<Entry, int>, i: nat, e: Entry)
    requires ClientsOk(c, held, gen) && i < |c.sets|
    ensures ClientsOk(c.(sets := WithSlot(c.sets, i, Some(e))), held + multiset{e}, gen[e := c.sets[i].gen])
  {
    ShareSlot(held, c.txns, c.sets, c.lc, i, Some(e));
    MarkedSlot(gen, c.sets, c.gens, i, Some(e));
  }

  lemma WasteOk(c: Clients, held: multiset<Entry>, gen: map<Entry, int>, i: nat)
    requires ClientsOk(c, held, gen) && i < |c.sets|
    ensures ClientsOk(c.(sets := WithSlot(c.sets, i, None)), held, gen)
  {
    ShareSlot(held, c.txns, c.sets, c.lc, i, None);
    MarkedSlot(gen, c.sets, c.gens, i, None);
  }

  lemma EndOk(c: Clients, held: multiset<Entry>, gen: map<Entry, int>, e: Entry)
    requires ClientsOk(c, held, gen) && e in c.txns
    ensures held[e] > 0 && ClientsOk(c.(txns := c.txns - {e}), held - multiset{e}, gen)
  {
    ShareEnd(held, c.txns, c.sets, c.lc, e);
  }

  lemma LcAddOk(c: Clients, held: multiset<Entry>, gen: map<Entry, int>, e: Entry)
    requires ClientsOk(c, held, gen)
    ensures ClientsOk(c.(lc := c.lc + multiset{e}), held + multiset{e}, gen)
  {
    ShareLc(held, c.txns, c.sets, c.lc, e);
  }

  lemma CollectOk(c: Clients, held: multiset<Entry>, gen: map<Entry, int>, m: multiset<Entry>)
    requires ClientsOk(c, held, gen) && m <= c.lc
    ensures m <= held && ClientsOk(c.(lc := c.lc - m), held - m, gen)
  {
    ShareCollect(held, c.txns, c.sets, c.lc, m);
  }

  lemma DestroyOk(c: Clients, held: multiset<Entry>, gen: map<Entry, int>, i: nat)
    requires ClientsOk(c, held, gen) && i < |c.sets|
    ensures var m := multiset(Entries(c.sets[i].slots));
      m <= held && ClientsOk(c.(sets := Without(c.sets, i)), held - m, gen)
  {
    ShareDestroy(held, c.txns, c.sets, c.lc, i);
    MarkedDestroy(gen, c.sets, c.gens, i);
  }

  lemma MarkHasSlot(c: Clients, held: multiset<Entry>, gen: map<Entry, int>, e: Entry, i: nat)
    requires ClientsOk(c, held, gen) && e in gen && i < |c.sets| && gen[e] == c.sets[i].gen
    ensures Some(e) in c.sets[i].slots
  {
    assert HasSlot(gen[e], e, c.sets);
  }

  class C0 {
    const pool: Pool
    var c: Clients

    ghost predicate Valid()
      reads this, pool
    {
      pool.Valid() && ClientsOk(c, pool.held, pool.core.gen)
    }

    constructor (max: nat)
      ensures Valid() && fresh(pool) && c == Clients({}, [], multiset{}, 0)
    {
      pool := new Pool(max);
      c := Clients({}, [], multiset{}, 0);
    }

    /** A new, empty kvmultiset, with the next generation. */
    method Install()
      requires Valid()
      modifies this
      ensures Valid() && c == old(c).(sets := old(c.sets) + [Kvms(old(c.gens) + 1, [])], gens := old(c.gens) + 1)
    {
      var c' := c.(sets := c.sets + [Kvms(c.gens + 1, [])], gens := c.gens + 1);
      InstallOk(c, c', pool.held, pool.core.gen);
      c := c';
    }

    /** A transaction takes an entry that nothing refers to; there is none only if the pool is
        exhausted. */
    method Begin(cpu: nat) returns (r: Option<Entry>)
      requires Valid() && cpu < BUCKETS
      modifies this, pool
      ensures Valid()
      ensures r.Some? ==> r.value !in old(c.txns) && SlotRefs(old(c.sets))[r.value] == 0 && old(c.lc)[r.value] == 0
      ensures r.Some? ==> c == old(c).(txns := old(c.txns) + {r.value})
      ensures r.None? ==> c == old(c) && pool.core == old(pool.core) && Exhausted(pool.core, pool.max)
    {
      ghost var held, gen := pool.held, pool.core.gen;
      r := pool.Alloc(cpu);
      if r.Some? {
        BeginOk(c, held, gen, r.value);
        c := c.(txns := c.txns + {r.value});
      }
    }

    /** A transaction writes to kvmultiset i.  Its first successful write there fills a slot
        and takes a reference, which stays as long as the kvmultiset; a failed one leaves its
        slot empty. */
    method Put(e: Entry, i: nat, ok: bool)
      requires Valid() && e in c.txns && i < |c.sets|
      modifies this, pool
      ensures Valid() && e in old(pool.core.gen) && |c.sets| == |old(c.sets)|
      ensures ok ==> Some(e) in c.sets[i].slots
      ensures c == if old(pool.core.gen)[e] == old(c.sets[i].gen) then old(c)
        else old(c).(sets := WithSlot(old(c.sets), i, if ok then Some(e) else None))
    {
      HeldByTxn(e);
      if pool.core.gen[e] == c.sets[i].gen {
        MarkHasSlot(c, pool.held, pool.core.gen, e, i);
      } else if ok {
        FillSlot(e, i);
      } else {
        WasteOk(c, pool.held, pool.core.gen, i);
        c := c.(sets := WithSlot(c.sets, i, None));
      }
    }

    method FillSlot(e: Entry, i: nat)
      requires Valid() && i < |c.sets| && pool.held[e] > 0 && e in pool.core.gen && pool.core.gen[e] != c.sets[i].gen
      modifies this, pool
      ensures Valid() && c == old(c).(sets := WithSlot(old(c.sets), i, Some(e)))
    {
      FillOk(c, pool.held, pool.core.gen, i, e);
      var counted := pool.GetRef(e, c.sets[i].gen);
      c := c.(sets := WithSlot(c.sets, i, Some(e)));
    }

    /** Commit or abort. */
    method End(e: Entry)
      requires Valid() && e in c.txns
      modifies this, pool
      ensures Valid() && c == old(c).(txns := old(c.txns) - {e})
    {
      EndOk(c, pool.held, pool.core.gen, e);
      pool.DropRef(e);
      c := c.(txns := c.txns - {e});
    }

    /** LC takes a value of a transaction that something else still refers to. */
    method LcAdd(e: Entry)
      requires Valid() && pool.held[e] > 0
      modifies this, pool
      ensures Valid() && c == old(c).(lc := old(c.lc) + multiset{e})
    {
      LcAddOk(c, pool.held, pool.core.gen, e);
      var _ := pool.GetRef(e, -1);
      c := c.(lc := c.lc + multiset{e});
    }

    /** Garbage collection of LC. */
    method LcCollect(refs: seq<Option<Entry>>)
      requires Valid() && multiset(Entries(refs)) <= c.lc
      modifies this, pool
      ensures Valid() && c == old(c).(lc := old(c.lc) - multiset(Entries(refs)))
    {
      CollectOk(c, pool.held, pool.core.gen, multiset(Entries(refs)));
      pool.DropRefv(refs);
      c := c.(lc := c.lc - multiset(Entries(refs)));
    }

    /** The last reference to a kvmultiset is gone. */
    method Destroy(i: nat)
      requires Valid() && i < |c.sets|
      modifies this, pool
      ensures Valid() && c == old(c).(sets := old(c.sets)[..i] + old(c.sets)[i + 1..])
    {
      DestroyOk(c, pool.held, pool.core.gen, i);
      pool.DropRefv(c.sets[i].slots);
      c := c.(sets := Without(c.sets, i));
    }

    lemma HeldByTxn(e: Entry)
      requires Valid() && e in c.txns
      ensures pool.held[e] > 0 && e in pool.core.gen
    {
      EndOk(c, pool.held, pool.core.gen, e);
      HeldIsKnown(pool.core.used, pool.core.refcnt, pool.max, pool.held, e);
    }

    /** Who refers to an entry. */
    ghost function Holders(e: Entry): nat
      reads this
    {
      B(e in c.txns) + SlotRefs(c.sets)[e] + c.lc[e]
    }

    /** The counter of an entry is the number of its holders.  An entry with a holder is on no
        free list; one that was used and has none is on its bucket's list, once. */
    lemma CountsHolders(e: Entry)
      requires Valid()
      ensures Holders(e) > 0 ==> e in pool.core.refcnt
      ensures e in pool.core.refcnt ==> pool.core.refcnt[e] == Holders(e)
      ensures forall b :: 0 <= b < BUCKETS ==>
        Times(pool.core.cache[b], e) == B(e in pool.core.refcnt && Holders(e) == 0 && e.bkt == b)
    {
      assert multiset(c.txns)[e] == B(e in c.txns);
      if pool.held[e] > 0 { HeldIsKnown(pool.core.used, pool.core.refcnt, pool.max, pool.held, e); }
    }
  }
}
