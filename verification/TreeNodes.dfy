/** The lists of a tree node, changed in place: kvsets and queued subspills. */
module TreeNodes {
  import opened Options
  import opened Kvsets
  import opened KvsetLaws
  import SpillProtocol
  import TreeContents

  /** A kvset in the list of a node: how often it has been compacted, and the job that has
      claimed it, 0 if none. */
  datatype Item = Item(ks: Kvset, compc: nat, work: nat)

  function KvsetsOf(l: seq<Item>): seq<Kvset> {
    if l == [] then [] else [l[0].ks] + KvsetsOf(l[1..])
  }

  function Clamp(x: nat, lo: nat, hi: nat): nat {
    var y := if x < lo then lo else x;
    if hi < y then hi else y
  }

  /** The count of the item before a position. */
  function Before(a: seq<Item>): nat {
    if a == [] then 0 else a[|a| - 1].compc
  }

  /** A moved item is free, and its count fits between its new neighbours. */
  function Landed(k: Item, before: nat, rest: seq<Item>): Item {
    var least := if k.compc < before then before else k.compc;
    Item(k.ks, if rest == [] then least else Clamp(k.compc, before, rest[0].compc), 0)
  }

  /** The list that a move leaves in the target; before is the count just ahead of it. */
  function MoveItems(src: seq<Item>, tgt: seq<Item>, before: nat): seq<Item>
    decreases |src| + |tgt|
  {
    if src == [] then tgt
    else if tgt == [] || Younger(src[0].ks, tgt[0].ks) then
      var k := Landed(src[0], before, tgt);
      [k] + MoveItems(src[1..], tgt, k.compc)
    else [tgt[0]] + MoveItems(src, tgt[1..], tgt[0].compc)
  }

  /** As far as the kvsets go, this is the move of the tree model. */
  lemma {:induction false} MovedKvsets(src: seq<Item>, tgt: seq<Item>, before: nat)
    ensures KvsetsOf(MoveItems(src, tgt, before)) == MoveInto(KvsetsOf(src), KvsetsOf(tgt))
    decreases |src| + |tgt|
  {
    if src != [] {
      if tgt == [] || Younger(src[0].ks, tgt[0].ks) {
        var k := Landed(src[0], before, tgt);
        MovedKvsets(src[1..], tgt, k.compc);
        assert MoveItems(src, tgt, before)[1..] == MoveItems(src[1..], tgt, k.compc);
        if tgt == [] { OnlySource(KvsetsOf(src[1..])); }
      } else {
        MovedKvsets(src, tgt[1..], tgt[0].compc);
        assert MoveItems(src, tgt, before)[1..] == MoveItems(src, tgt[1..], tgt[0].compc);
      }
    }
  }

  lemma OnlySource(src: seq<Kvset>)
    ensures MoveInto(src, []) == src
  {
  }

  /** Counts do not fall from newer to older kvsets. */
  ghost predicate Ascending(before: nat, l: seq<Item>)
    decreases |l|
  {
    l == [] || (before <= l[0].compc && Ascending(l[0].compc, l[1..]))
  }

  /** Whatever the counts of the moved kvsets were, those of the target stay in order. */
  lemma {:induction false} MovedCounts(src: seq<Item>, tgt: seq<Item>, before: nat)
    requires Ascending(before, tgt)
    ensures Ascending(before, MoveItems(src, tgt, before))
    decreases |src| + |tgt|
  {
    if src != [] {
      if tgt == [] || Younger(src[0].ks, tgt[0].ks) {
        var k := Landed(src[0], before, tgt);
        MovedCounts(src[1..], tgt, k.compc);
        assert MoveItems(src, tgt, before)[1..] == MoveItems(src[1..], tgt, k.compc);
      } else {
        MovedCounts(src, tgt[1..], tgt[0].compc);
        assert MoveItems(src, tgt, before)[1..] == MoveItems(src, tgt[1..], tgt[0].compc);
      }
    }
  }

  /** Where the items of both lists end up.  Those of the target are as they were; the moved ones
      are free and keep their kvset. */
  ghost predicate Placed(p: seq<nat>, q: seq<nat>, src: seq<Item>, tgt: seq<Item>, out: seq<Item>) {
    && |p| == |src| && |q| == |tgt| && |out| == |src| + |tgt| && Rising(p, |out|) && Rising(q, |out|)
    && (forall x :: 0 <= x < |p| ==> out[p[x]].ks == src[x].ks && out[p[x]].work == 0)
    && (forall x :: 0 <= x < |q| ==> out[q[x]] == tgt[x])
    && (forall x, y :: 0 <= x < |p| && 0 <= y < |q| ==> p[x] != q[y])
  }

  /** The item at i has the count c, or if that is below the count before it, that one, or if
      it is above the count of a later one, that one. */
  ghost predicate Fitted(out: seq<Item>, i: nat, before: nat, c: nat)
    requires i < |out|
  {
    || out[i].compc == c
    || (c < out[i].compc && out[i].compc == if i == 0 then before else out[i - 1].compc)
    || (out[i].compc < c && exists j :: i < j < |out| && out[j].compc == out[i].compc)
  }

  lemma PlaceFirst(k: Item, h: Item, p: seq<nat>, q: seq<nat>, src: seq<Item>, tgt: seq<Item>, out: seq<Item>)
    requires Placed(p, q, src, tgt, out) && k.ks == h.ks && k.work == 0
    ensures Placed([0] + Upped(p), Upped(q), [h] + src, tgt, [k] + out)
  {
    var p', q', out', src' := [0] + Upped(p), Upped(q), [k] + out, [h] + src;
    RisingUpped(p, |out|);
    RisingUpped(q, |out|);
    forall x | 0 <= x < |p'| ensures out'[p'[x]].ks == src'[x].ks && out'[p'[x]].work == 0 {
      if x > 0 { assert p'[x] == p[x - 1] + 1; }
    }
    forall x | 0 <= x < |q'| ensures out'[q'[x]] == tgt[x] { assert q'[x] == q[x] + 1; }
    forall x, y | 0 <= x < |p'| && 0 <= y < |q'| ensures p'[x] != q'[y] {
      if x > 0 { assert p[x - 1] != q[y]; }
    }
  }

  lemma PassFirst(h: Item, p: seq<nat>, q: seq<nat>, src: seq<Item>, tgt: seq<Item>, out: seq<Item>)
    requires Placed(p, q, src, tgt, out)
    ensures Placed(Upped(p), [0] + Upped(q), src, [h] + tgt, [h] + out)
  {
    var p', q', out', tgt' := Upped(p), [0] + Upped(q), [h] + out, [h] + tgt;
    RisingUpped(p, |out|);
    RisingUpped(q, |out|);
    forall x | 0 <= x < |q'| ensures out'[q'[x]] == tgt'[x] {
      if x > 0 { assert q'[x] == q[x - 1] + 1; }
    }
    forall x | 0 <= x < |p'| ensures out'[p'[x]].ks == src[x].ks && out'[p'[x]].work == 0 {
      assert p'[x] == p[x] + 1;
    }
    forall x, y | 0 <= x < |p'| && 0 <= y < |q'| ensures p'[x] != q'[y] {
      if y > 0 { assert p[x] != q[y - 1]; }
    }
  }

  ghost predicate AllFitted(p: seq<nat>, src: seq<Item>, out: seq<Item>, before: nat) {
    |p| == |src| && forall x :: 0 <= x < |p| ==> p[x] < |out| && Fitted(out, p[x], before, src[x].compc)
  }

  lemma FittedNext(h: Item, out: seq<Item>, i: nat, before: nat, c: nat)
    requires i < |out| && Fitted(out, i, h.compc, c)
    ensures Fitted([h] + out, i + 1, before, c)
  {
    var out' := [h] + out;
    assert out'[i + 1] == out[i] && (i > 0 ==> out'[i] == out[i - 1]);
    if j :| i < j < |out| && out[j].compc == out[i].compc { assert out'[j + 1].compc == out'[i + 1].compc; }
  }

  lemma FittedPlace(k: Item, h: Item, p: seq<nat>, src: seq<Item>, out: seq<Item>, before: nat)
    requires AllFitted(p, src, out, k.compc) && Fitted([k] + out, 0, before, h.compc)
    ensures AllFitted([0] + Upped(p), [h] + src, [k] + out, before)
  {
    var p', src', out' := [0] + Upped(p), [h] + src, [k] + out;
    forall x | 0 <= x < |p'| ensures p'[x] < |out'| && Fitted(out', p'[x], before, src'[x].compc) {
      if x > 0 { FittedNext(k, out, p[x - 1], before, src[x - 1].compc); }
    }
  }

  lemma FittedPass(h: Item, p: seq<nat>, src: seq<Item>, out: seq<Item>, before: nat)
    requires AllFitted(p, src, out, h.compc)
    ensures AllFitted(Upped(p), src, [h] + out, before)
  {
    forall x | 0 <= x < |p| ensures Upped(p)[x] < |out| + 1 && Fitted([h] + out, Upped(p)[x], before, src[x].compc) {
      FittedNext(h, out, p[x], before, src[x].compc);
    }
  }

  /** What a move does to the items: those of the target stay as they are, in their order; the
      moved ones keep their order and kvsets, are free, and keep their counts unless these do
      not fit. */
  lemma {:induction false} MovedItems(src: seq<Item>, tgt: seq<Item>, before: nat) returns (p: seq<nat>, q: seq<nat>)
    ensures Placed(p, q, src, tgt, MoveItems(src, tgt, before))
    ensures Ascending(before, tgt) ==> AllFitted(p, src, MoveItems(src, tgt, before), before)
    decreases |src| + |tgt|
  {
    if src == [] {
      p, q := [], seq(|tgt|, x => x);
    } else if tgt == [] || Younger(src[0].ks, tgt[0].ks) {
      var k := Landed(src[0], before, tgt);
      var p', q' := MovedItems(src[1..], tgt, k.compc);
      var out := MoveItems(src[1..], tgt, k.compc);
      PlaceFirst(k, src[0], p', q', src[1..], tgt, out);
      p, q := [0] + Upped(p'), Upped(q');
      assert src == [src[0]] + src[1..];
      if Ascending(before, tgt) {
        LandedFits(src[0], before, tgt, q', src[1..], p', out);
        FittedPlace(k, src[0], p', src[1..], out, before);
      }
    } else {
      var p', q' := MovedItems(src, tgt[1..], tgt[0].compc);
      var out := MoveItems(src, tgt[1..], tgt[0].compc);
      PassFirst(tgt[0], p', q', src, tgt[1..], out);
      p, q := Upped(p'), [0] + Upped(q');
      assert tgt == [tgt[0]] + tgt[1..];
      if Ascending(before, tgt) { FittedPass(tgt[0], p', src, out, before); }
    }
  }

  lemma LandedFits(h: Item, before: nat, tgt: seq<Item>, q: seq<nat>, src: seq<Item>, p: seq<nat>, out: seq<Item>)
    requires Ascending(before, tgt) && Placed(p, q, src, tgt, out)
    ensures Ascending(Landed(h, before, tgt).compc, tgt) && Fitted([Landed(h, before, tgt)] + out, 0, before, h.compc)
  {
    var k := Landed(h, before, tgt);
    if tgt != [] {
      assert out[q[0]] == tgt[0];
      assert ([k] + out)[q[0] + 1] == tgt[0];
    }
  }

  function Freed(l: seq<Item>): (r: seq<Item>)
    ensures |r| == |l| && forall i :: 0 <= i < |l| ==> r[i] == l[i].(work := 0)
  {
    if l == [] then [] else [l[0].(work := 0)] + Freed(l[1..])
  }

  class Node {
    var items: seq<Item>
    var subspills: seq<nat>
    var sgen: nat

    constructor ()
      ensures items == [] && subspills == [] && sgen == 0
    {
      items, subspills, sgen := [], [], 0;
    }

    /** Queue a subspill before the first one of a later spill. */
    method Enqueue(m: nat)
      modifies this`subspills
      ensures subspills == SpillProtocol.InsertSorted(old(subspills), m)
    {
      var i := 0;
      while i < |subspills| && !(m < subspills[i])
        invariant i <= |subspills| && forall j :: 0 <= j < i ==> subspills[j] <= m
      {
        i := i + 1;
      }
      InsertedAt(subspills, m, i);
      subspills := subspills[..i] + [m] + subspills[i..];
    }

    /** Take the first queued subspill if it is the next one for the node. */
    method Pop() returns (m: Option<nat>)
      modifies this`subspills
      ensures m.Some? <==> old(subspills) != [] && old(subspills)[0] == sgen + 1
      ensures old(subspills) == (if m.Some? then [m.value] else []) + subspills
    {
      if |subspills| > 0 && subspills[0] == sgen + 1 {
        m := Some(subspills[0]);
        subspills := subspills[1..];
      } else {
        m := None;
      }
    }

    /** Move cnt kvsets of another node, from index first on, into this one: each goes before
        the first kvset that it is younger than, with its count adjusted.  The moved kvsets are
        free then, and if the other node is given up, all are. */
    method MoveFrom(src: Node, first: nat, cnt: nat, giveUp: bool)
      requires src != this && first + cnt <= |src.items| && (giveUp ==> first == 0 && cnt == |src.items|)
      modifies this`items, src`items
      ensures var moved := MoveItems(old(src.items)[first..first + cnt], old(items), 0);
        items == if giveUp then Freed(moved) else moved
      ensures src.items == old(src.items)[..first] + old(src.items)[first + cnt..]
    {
      ghost var moved, mine := src.items[first..first + cnt], items;
      ghost var head, tail := src.items[..first], src.items[first + cnt..];
      ghost var a, b, rest: seq<Item> := [], items, moved;
      var left: nat, tgt: nat := cnt, 0;
      assert src.items == head + rest + tail && a + MoveItems(rest, b, Before(a)) == MoveItems(moved, mine, 0);
      while left > 0
        invariant |rest| == left && |a| == tgt && items == a + b && src.items == head + rest + tail
        invariant a + MoveItems(rest, b, Before(a)) == MoveItems(moved, mine, 0)
        decreases left, |b|
      {
        var k := src.items[first];
        assert k == rest[0];
        if tgt == |items| || Younger(k.ks, items[tgt].ks) {
          var before := if tgt > 0 then items[tgt - 1].compc else 0;
          var compc := if tgt < |items| then Clamp(k.compc, before, items[tgt].compc)
            else if k.compc < before then before else k.compc;
          assert Item(k.ks, compc, 0) == Landed(k, Before(a), b);
          Spliced(rest, a, b);
          Removed(head, rest, tail);
          Added(a, Item(k.ks, compc, 0), b);
          src.items := src.items[..first] + src.items[first + 1..];
          items := items[..tgt] + [Item(k.ks, compc, 0)] + items[tgt..];
          a, rest := a + [Item(k.ks, compc, 0)], rest[1..];
          tgt, left := tgt + 1, left - 1;
        } else {
          Skipped(rest, a, b);
          assert a + b == (a + [b[0]]) + b[1..];
          a, b := a + [b[0]], b[1..];
          tgt := tgt + 1;
        }
      }
      assert rest == [] && head + rest + tail == head + tail;
      if giveUp { Unmark(); }
    }

    /** Release every kvset of the node. */
    method Unmark()
      modifies this`items
      ensures items == Freed(old(items))
    {
      for i := 0 to |items|
        invariant |items| == |old(items)|
        invariant forall j :: 0 <= j < |items| ==>
          items[j] == if j < i then old(items)[j].(work := 0) else old(items)[j]
      {
        items := items[i := items[i].(work := 0)];
      }
      assert items == Freed(old(items));
    }
  }

  lemma {:induction false} InsertedAt(q: seq<nat>, m: nat, i: nat)
    requires i <= |q| && (forall j :: 0 <= j < i ==> q[j] <= m) && (i < |q| ==> m < q[i])
    ensures SpillProtocol.InsertSorted(q, m) == q[..i] + [m] + q[i..]
  {
    if i > 0 {
      InsertedAt(q[1..], m, i - 1);
      assert q[..i] == [q[0]] + q[1..][..i - 1] && q[1..][i - 1..] == q[i..];
    }
  }

  lemma Removed(head: seq<Item>, rest: seq<Item>, tail: seq<Item>)
    requires rest != []
    ensures var l := head + rest + tail; l[..|head|] + l[|head| + 1..] == head + rest[1..] + tail
  {
  }

  lemma Added(a: seq<Item>, k: Item, b: seq<Item>)
    ensures (a + b)[..|a|] + [k] + (a + b)[|a|..] == (a + [k]) + b
  {
  }

  /** The first source kvset goes here. */
  lemma Spliced(src: seq<Item>, a: seq<Item>, b: seq<Item>)
    requires src != [] && (b == [] || Younger(src[0].ks, b[0].ks))
    ensures var k := Landed(src[0], Before(a), b);
      (a + [k]) + MoveItems(src[1..], b, Before(a + [k])) == a + MoveItems(src, b, Before(a))
  {
    var k := Landed(src[0], Before(a), b);
    Regroup(a, k, MoveItems(src[1..], b, k.compc));
  }

  lemma Regroup(a: seq<Item>, k: Item, m: seq<Item>)
    ensures (a + [k]) + m == a + ([k] + m) && Before(a + [k]) == k.compc
  {
  }

  /** It goes further on. */
  lemma Skipped(src: seq<Item>, a: seq<Item>, b: seq<Item>)
    requires src != [] && b != [] && !Younger(src[0].ks, b[0].ks)
    ensures (a + [b[0]]) + MoveItems(src, b[1..], Before(a + [b[0]])) == a + MoveItems(src, b, Before(a))
  {
    Regroup(a, b[0], MoveItems(src, b[1..], b[0].compc));
  }

  /** The search of a node: newest first, until a kvset has the key. */
  method SearchNode(kvsets: seq<Kvset>, k: Key) returns (r: Option<Entry>)
    ensures r == Find(kvsets, k)
    ensures forall i :: NewestWith(kvsets, k, i) ==> r == Some(kvsets[i].data[k])
    ensures r == None <==> forall i :: 0 <= i < |kvsets| ==> k !in kvsets[i].data
  {
    FindExactly(kvsets, k);
    for i := 0 to |kvsets|
      invariant Find(kvsets, k) == Find(kvsets[i..], k)
    {
      if k in kvsets[i].data { return Some(kvsets[i].data[k]); }
      assert kvsets[i..][1..] == kvsets[i + 1..];
    }
    return None;
  }

  /** A read: the root, then the leaf that the key routes to. */
  method LookupKey(t: TreeContents.Tree, k: Key) returns (r: Option<Entry>)
    requires t.nodes != []
    ensures r == TreeContents.Lookup(t, k)
  {
    r := SearchNode(t.root, k);
    if r.None? { r := SearchNode(t.nodes[TreeContents.Route(t.nodes, k)].kvsets, k); }
  }
}
