/**
 How the scheduler picks the kvsets of a node to work on.

 A node's kvsets are listed newest first.  A selector names a run by its mark, the oldest
 kvset of the run, and the number of kvsets; the run extends from the mark to newer ones.
 */
module RunSelectors {
  const VBLOCK_MAX_SIZE: nat := 0x200_0000
  const SMALL_KVSET: nat := 0x1000_0000
  const COMPC_KEYS: nat := 0x100_0000
  const NONE: int := -1

  /** znode is the leaf the kvset could be moved to as a whole, NONE if there is none; compc
      is how often it has been compacted. */
  datatype Kvset = Kvset(
    busy: bool, znode: int, kwlen: nat, vwlen: nat, keys: nat, tombs: nat, ptombs: nat, compc: nat, vgroups: nat)

  datatype Stats = Stats(keys: nat, tombs: nat, ptombs: nat, vblks: nat, clen: nat, keysUniq: nat)

  datatype Thresholds = Thresholds(
    rspillRunlenMin: nat, rspillRunlenMax: nat, rspillWlenMax: nat, lcompRunlenMax: nat, lcompSplitKeys: nat,
    lscatRunlenMax: nat, llenRunlenMin: nat, llenRunlenMax: nat)

  datatype Action = Spill | Zspill | CompactK | CompactKv

  datatype Rule =
    | Rspill | Tspill | ZspillRule | IdleTomb | IdleIndex | IdleSize | Garbage | ScatterFull | ScatterPart
    | LengthMin | LengthMax | LengthWlen | LengthVwlen | LengthClen | Compc | Index

  datatype Choice = Choice(mark: int, n: nat, action: Action, rule: Rule)

  function Wlen(k: Kvset): nat {
    k.kwlen + k.vwlen
  }

  /** A run of n kvsets from the mark lies in the list and nobody works on it. */
  ghost predicate IsRun(l: seq<Kvset>, mark: int, n: nat) {
    0 <= mark < |l| && n <= mark + 1 && forall i :: mark - n < i <= mark ==> !l[i].busy
  }

  ghost predicate Free(l: seq<Kvset>) {
    forall i :: 0 <= i < |l| ==> !l[i].busy
  }

  function Min(a: nat, b: nat): nat {
    if a < b then a else b
  }

  // ----- root spill -----

  /** The run of a root selection begins at the oldest kvset that is not busy.  A zspill takes
      kvsets bound for one leaf and leaves nothing older behind; a spill takes none that
      could be moved. */
  ghost predicate RootRun(l: seq<Kvset>, c: Choice) {
    && IsRun(l, c.mark, c.n)
    && (forall i :: c.mark < i < |l| ==> l[i].busy)
    && (c.action.Zspill? ==> c.mark == |l| - 1 && l[c.mark].znode != NONE)
    && (forall i :: c.mark - c.n < i <= c.mark ==> l[i].znode == if c.action.Zspill? then l[c.mark].znode else NONE)
  }

  /** The oldest kvset that is not busy. */
  ghost predicate OldestFree(l: seq<Kvset>, mark: int) {
    0 <= mark < |l| && !l[mark].busy && forall i :: mark < i < |l| ==> l[i].busy
  }

  /** The r kvsets from the mark are free and bound for the same leaf as a whole, or none of
      them can be moved. */
  ghost predicate Alike(l: seq<Kvset>, mark: int, r: nat) {
    IsRun(l, mark, r) && forall i :: mark - r < i <= mark ==> l[i].znode == l[mark].znode
  }

  /** The bytes of the r kvsets from the mark. */
  function RunWlen(l: seq<Kvset>, mark: int, r: nat): nat
    requires r <= mark + 1 <= |l|
  {
    if r == 0 then 0 else RunWlen(l, mark, r - 1) + Wlen(l[mark - r + 1])
  }

  /** One kvset more would take a run of sufficient length to the size limit. */
  ghost predicate Capped(l: seq<Kvset>, mark: int, r: nat, th: Thresholds) {
    Alike(l, mark, r + 1) && th.rspillRunlenMin <= r && th.rspillWlenMax <= RunWlen(l, mark, r + 1)
  }

  /** How far a spill could go from the mark: to where the size caps it, or else to where the
      kvsets are busy, can be moved, or end. */
  ghost predicate Reach(l: seq<Kvset>, mark: int, r: nat, th: Thresholds) {
    && 1 <= r && Alike(l, mark, r) && (forall q :: 1 <= q < r ==> !Capped(l, mark, q, th))
    && (Capped(l, mark, r, th) || !Alike(l, mark, r + 1))
  }

  lemma ReachIsUnique(l: seq<Kvset>, mark: int, r: nat, r': nat, th: Thresholds)
    requires Reach(l, mark, r, th) && Reach(l, mark, r', th)
    ensures r == r'
  {
  }

  /** The bytes the limits are compared with: with the kvset that capped the run. */
  function Weighed(l: seq<Kvset>, mark: int, r: nat, capped: bool): nat
    requires r <= mark + 1 <= |l| && (capped ==> r <= mark)
  {
    RunWlen(l, mark, if capped then r + 1 else r)
  }

  /** The kvset after the run is free and can be moved. */
  predicate MovableNext(l: seq<Kvset>, mark: int, r: nat) {
    0 <= mark - r < |l| && !l[mark - r].busy && l[mark - r].znode != NONE
  }

  /** A spill is due if it clears the way for a movable kvset, or else if the run has the
      minimal length, and a vblock of data or the maximal length. */
  ghost predicate SpillDue(l: seq<Kvset>, mark: int, r: nat, th: Thresholds)
    requires Reach(l, mark, r, th)
  {
    || MovableNext(l, mark, r)
    || (th.rspillRunlenMin <= r
        && (VBLOCK_MAX_SIZE <= Weighed(l, mark, r, Capped(l, mark, r, th)) || th.rspillRunlenMax <= r))
  }

  /** How much of the run is spilled: all of it, but of a long one with a vblock of data so much
      less that the rest can be spilled, too. */
  ghost predicate SpillLength(l: seq<Kvset>, mark: int, r: nat, th: Thresholds, c: Choice)
    requires Reach(l, mark, r, th)
  {
    var tiny := Weighed(l, mark, r, Capped(l, mark, r, th)) < VBLOCK_MAX_SIZE;
    && (c.rule == if tiny then Tspill else Rspill)
    && (MovableNext(l, mark, r) || tiny || r <= th.rspillRunlenMax ==> c.n == r)
    && (!MovableNext(l, mark, r) && !tiny && th.rspillRunlenMax < r && th.rspillRunlenMin <= r ==>
          c.n == Min(r - th.rspillRunlenMin, th.rspillRunlenMax))
  }

  /** The choice for a root whose oldest free kvset cannot be moved. */
  ghost predicate Spilled(l: seq<Kvset>, mark: int, r: nat, th: Thresholds, c: Choice) {
    && Reach(l, mark, r, th) && c.action.Spill?
    && (if SpillDue(l, mark, r, th) then c.mark == mark && SpillLength(l, mark, r, th, c) else c.n == 0)
  }

  /** The choice for one whose oldest free kvset can be moved: as many as go to the same leaf,
      up to the minimal run length, unless older kvsets or the leaf are busy. */
  ghost predicate Zspilled(l: seq<Kvset>, mark: int, th: Thresholds, znodeBusy: bool, c: Choice) {
    if mark == |l| - 1 && !znodeBusy
    then
      && c.action.Zspill? && c.rule.ZspillRule? && c.mark == mark && 1 <= c.n <= th.rspillRunlenMin
      && Alike(l, mark, c.n) && (c.n == th.rspillRunlenMin || !Alike(l, mark, c.n + 1))
    else c.n == 0
  }

  ghost predicate RootChoice(l: seq<Kvset>, mark: int, th: Thresholds, znodeBusy: bool, c: Choice) {
    if 0 <= mark < |l| && l[mark].znode != NONE then Zspilled(l, mark, th, znodeBusy, c)
    else exists r :: Spilled(l, mark, r, th, c)
  }

  /** znodeBusy: the leaf of a zspill has a pending split or join. */
  method SelectRoot(l: seq<Kvset>, th: Thresholds, znodeBusy: bool) returns (c: Choice)
    requires 1 <= th.rspillRunlenMin
    ensures c.n > 0 ==> RootRun(l, c) && !(c.action.Zspill? && znodeBusy)
    ensures (forall i :: 0 <= i < |l| ==> l[i].busy) ==> c.n == 0
    ensures forall mark :: OldestFree(l, mark) ==> RootChoice(l, mark, th, znodeBusy, c)
  {
    var mark := |l| - 1;
    while mark >= 0 && l[mark].busy
      invariant -1 <= mark < |l| && forall i :: mark < i < |l| ==> l[i].busy
    {
      mark := mark - 1;
    }
    if mark < 0 { return Choice(NONE, 0, Spill, Rspill); }
    var znode := l[mark].znode;
    if znode != NONE && mark != |l| - 1 { return Choice(mark, 0, Spill, Rspill); }
    if znode != NONE {
      c := SelectZspill(l, mark, th, znodeBusy);
    } else {
      c := SelectSpill(l, mark, th);
    }
  }

  /** The walk from a kvset that can be moved. */
  method SelectZspill(l: seq<Kvset>, mark: int, th: Thresholds, znodeBusy: bool) returns (c: Choice)
    requires 1 <= th.rspillRunlenMin && OldestFree(l, mark) && mark == |l| - 1 && l[mark].znode != NONE
    ensures Zspilled(l, mark, th, znodeBusy, c)
  {
    var runlen := 1;
    while runlen <= mark
      invariant 1 <= runlen <= mark + 1 && runlen <= th.rspillRunlenMin && Alike(l, mark, runlen)
    {
      var le := l[mark - runlen];
      if le.busy { break; }
      if le.znode != NONE && le.znode == l[mark].znode && runlen < th.rspillRunlenMin {
        runlen := runlen + 1;
        continue;
      }
      break;
    }
    return if znodeBusy then Choice(mark, 0, Spill, Rspill) else Choice(mark, runlen, Zspill, ZspillRule);
  }

  /** The walk from a kvset that cannot be moved. */
  method SelectSpill(l: seq<Kvset>, mark: int, th: Thresholds) returns (c: Choice)
    requires 1 <= th.rspillRunlenMin && OldestFree(l, mark) && l[mark].znode == NONE
    ensures exists r :: Spilled(l, mark, r, th, c)
    ensures c.n > 0 ==> c.mark == mark && Alike(l, mark, c.n)
  {
    var wlen, runlen := Wlen(l[mark]), 1;
    assert RunWlen(l, mark, 1) == RunWlen(l, mark, 0) + Wlen(l[mark]);
    var capped := false;
    while runlen <= mark
      invariant 1 <= runlen <= mark + 1 && !capped && Alike(l, mark, runlen) && wlen == RunWlen(l, mark, runlen)
      invariant forall q :: 1 <= q < runlen ==> !Capped(l, mark, q, th)
    {
      var le := l[mark - runlen];
      if le.busy { break; }
      if le.znode != NONE {
        c := Choice(mark, runlen, Spill, if wlen < VBLOCK_MAX_SIZE then Tspill else Rspill);
        assert Spilled(l, mark, runlen, th, c);
        return;
      }
      wlen := wlen + Wlen(le);
      if runlen >= th.rspillRunlenMin && wlen >= th.rspillWlenMax { capped := true; break; }
      runlen := runlen + 1;
    }
    assert Reach(l, mark, runlen, th) && (Capped(l, mark, runlen, th) <==> capped);
    c := SpillOf(mark, runlen, wlen, th);
    assert Spilled(l, mark, runlen, th, c);
  }

  /** What to spill of a run. */
  function SpillOf(mark: int, runlen: nat, wlen: nat, th: Thresholds): Choice {
    if runlen < th.rspillRunlenMin then Choice(NONE, 0, Spill, Rspill)
    else if wlen < VBLOCK_MAX_SIZE then
      if runlen < th.rspillRunlenMax then Choice(NONE, 0, Spill, Rspill) else Choice(mark, runlen, Spill, Tspill)
    else
      var n := if runlen > th.rspillRunlenMax then runlen - th.rspillRunlenMin else runlen;
      Choice(mark, Min(n, th.rspillRunlenMax), Spill, Rspill)
  }

  /** With thresholds in order, a root that cannot be moved is spilled exactly if a spill is
      due; what a long run leaves behind can still be spilled. */
  lemma SpillsWhenDue(l: seq<Kvset>, mark: int, r: nat, th: Thresholds, c: Choice)
    requires 1 <= th.rspillRunlenMin <= th.rspillRunlenMax && Spilled(l, mark, r, th, c)
    ensures c.n > 0 <==> SpillDue(l, mark, r, th)
    ensures c.n > 0 ==> c.n == r || (th.rspillRunlenMin <= r - c.n && c.n <= th.rspillRunlenMax)
    ensures c.n > 0 && c.rule.Rspill? && !MovableNext(l, mark, r) ==> c.n <= th.rspillRunlenMax
  {
  }

  /** An idle root is spilled from one kvset on. */
  method SelectIdleRoot(l: seq<Kvset>, th: Thresholds, znodeBusy: bool) returns (c: Choice)
    ensures c.n > 0 ==> RootRun(l, c) && !(c.action.Zspill? && znodeBusy)
    ensures (forall i :: 0 <= i < |l| ==> l[i].busy) ==> c.n == 0
    ensures forall mark :: OldestFree(l, mark) ==> RootChoice(l, mark, th.(rspillRunlenMin := 1), znodeBusy, c)
  {
    c := SelectRoot(l, th.(rspillRunlenMin := 1), znodeBusy);
  }

  // ----- leaf compaction -----

  function TombsOf(k: Kvset, prefix: bool): nat {
    if prefix then k.ptombs else k.tombs
  }

  /** skip newest kvsets have no tombstones (of the given kind), and the next one has. */
  ghost predicate Tombless(l: seq<Kvset>, prefix: bool, skip: nat) {
    && skip <= |l| && (forall i :: 0 <= i < skip ==> TombsOf(l[i], prefix) == 0)
    && (skip < |l| ==> TombsOf(l[skip], prefix) > 0)
  }

  method SkipTombless(l: seq<Kvset>, prefix: bool) returns (skip: nat)
    ensures Tombless(l, prefix, skip)
  {
    skip := 0;
    while skip < |l| && TombsOf(l[skip], prefix) == 0
      invariant skip <= |l| && forall i :: 0 <= i < skip ==> TombsOf(l[i], prefix) == 0
    {
      skip := skip + 1;
    }
  }

  function Keys(l: seq<Kvset>): nat {
    if l == [] then 0 else Keys(l[..|l| - 1]) + l[|l| - 1].keys
  }

  /** The n newest kvsets together stay below a number of keys, and one more would not. */
  ghost predicate KeysBelow(l: seq<Kvset>, keysMax: nat, n: nat) {
    n <= |l| && (n > 0 ==> Keys(l[..n]) < keysMax) && (n < |l| ==> Keys(l[..n]) + l[n].keys >= keysMax)
  }

  method NewestBelow(l: seq<Kvset>, keysMax: nat) returns (n: nat)
    ensures KeysBelow(l, keysMax, n)
  {
    n := 0;
    var left := keysMax;
    while n < |l| && l[n].keys < left
      invariant n <= |l| && left == keysMax - Keys(l[..n]) && (n > 0 ==> left > 0)
    {
      assert l[..n + 1][..n] == l[..n];
      left := left - l[n].keys;
      n := n + 1;
    }
  }

  /** Most of what is left without the newest kvsets that have no tombstones is tombstones. */
  predicate MostlyTombs(l: seq<Kvset>, ns: Stats, skip: nat)
    requires skip <= |l|
  {
    && ns.tombs > 0 && |l| - skip > 1
    && (2 * ns.tombs >= ns.keys - Keys(l[..skip]) || ns.tombs * 100 > ns.keysUniq * 95)
  }

  /** Which kvsets of an idle leaf are compacted: those down from the newest one with
      tombstones, if most keys are tombstones; else the newest small ones, if there are fewer
      vblocks than kvsets; else all, if they fit a vblock; else those down from the newest one
      with prefix tombstones. */
  ghost predicate IdleChoice(l: seq<Kvset>, ns: Stats, th: Thresholds, c: Choice, tombs: nat, ptombs: nat, small: nat) {
    && Tombless(l, false, tombs) && Tombless(l, true, ptombs) && KeysBelow(l, th.lcompSplitKeys / 8, small)
    && (ns.keys == 0 ==> c == Choice(|l| - 1, |l|, CompactK, IdleTomb))
    && (ns.keys > 0 && MostlyTombs(l, ns, tombs) ==> c == Choice(|l| - 1, |l| - tombs, CompactK, IdleTomb))
    && (ns.keys > 0 && !MostlyTombs(l, ns, tombs) && ns.vblks < |l| ==>
          if small < 2 then c.n == 0 else c == Choice(small - 1, Min(small, th.lcompRunlenMax), CompactKv, IdleIndex))
    && (ns.keys > 0 && !MostlyTombs(l, ns, tombs) && ns.vblks >= |l| ==>
          if ns.clen < VBLOCK_MAX_SIZE then c == Choice(|l| - 1, |l|, CompactKv, IdleSize)
          else if ns.ptombs > 0 && |l| - ptombs > 1 then c == Choice(|l| - 1, |l| - ptombs, CompactK, IdleTomb)
          else c.n == 0)
  }

  ghost predicate IdleChosen(l: seq<Kvset>, ns: Stats, th: Thresholds, c: Choice) {
    exists tombs: nat, ptombs: nat, small: nat :: IdleChoice(l, ns, th, c, tombs, ptombs, small)
  }

  /** Light-weight compaction of a leaf that has been idle. */
  method SelectIdle(l: seq<Kvset>, ns: Stats, th: Thresholds) returns (c: Choice)
    requires Free(l)
    ensures c.n > 0 ==> IsRun(l, c.mark, c.n)
    ensures c.n > 0 && c.rule.IdleTomb? && ns.keys > 0 ==>
      c.mark == |l| - 1 && (l[|l| - c.n].tombs > 0 || l[|l| - c.n].ptombs > 0)
    ensures c.n > 0 && c.rule.IdleIndex? ==> Keys(l[..c.mark + 1]) < th.lcompSplitKeys / 8
    ensures IdleChosen(l, ns, th, c)
  {
    c := Choice(|l| - 1, 0, CompactK, IdleTomb);
    ghost var t := TomblessExists(l, false);
    ghost var p := TomblessExists(l, true);
    ghost var b := BelowExists(l, th.lcompSplitKeys / 8);
    assert ns.keys == 0 ==> IdleChoice(l, ns, th, c.(n := |l|), t, p, b);
    if ns.keys == 0 { return c.(n := |l|); }
    if ns.tombs > 0 {
      var skip := SkipTombless(l, false);
      t := skip;
      var keys := ns.keys - Keys(l[..skip]);
      if |l| - skip > 1 && (ns.tombs >= keys - ns.tombs || ns.tombs * 100 > ns.keysUniq * 95) {
        assert IdleChoice(l, ns, th, c.(n := |l| - skip), skip, p, b);
        return c.(n := |l| - skip);
      }
    }
    assert !MostlyTombs(l, ns, t);
    if ns.vblks < |l| {
      var runlen := NewestBelow(l, th.lcompSplitKeys / 8);
      assert runlen < 2 ==> IdleChoice(l, ns, th, c, t, p, runlen);
      if runlen < 2 { return; }
      c := Choice(runlen - 1, Min(runlen, th.lcompRunlenMax), CompactKv, IdleIndex);
      assert IdleChoice(l, ns, th, c, t, p, runlen);
      return;
    }
    if ns.clen < VBLOCK_MAX_SIZE {
      c := Choice(|l| - 1, |l|, CompactKv, IdleSize);
      assert IdleChoice(l, ns, th, c, t, p, b);
      return;
    }
    if ns.ptombs > 0 {
      var skip := SkipTombless(l, true);
      p := skip;
      if |l| - skip > 1 { c := c.(n := |l| - skip); }
    }
    assert IdleChoice(l, ns, th, c, t, p, b);
  }

  lemma {:induction false} TomblessExists(l: seq<Kvset>, prefix: bool) returns (skip: nat)
    ensures Tombless(l, prefix, skip)
  {
    skip := 0;
    while skip < |l| && TombsOf(l[skip], prefix) == 0
      invariant skip <= |l| && forall i :: 0 <= i < skip ==> TombsOf(l[i], prefix) == 0
    {
      skip := skip + 1;
    }
  }

  lemma BelowExists(l: seq<Kvset>, keysMax: nat) returns (n: nat)
    ensures KeysBelow(l, keysMax, n)
  {
    n := 0;
    while n < |l| && Keys(l[..n]) + l[n].keys < keysMax
      invariant n <= |l| && (n > 0 ==> Keys(l[..n]) < keysMax)
    {
      assert l[..n + 1][..n] == l[..n];
      n := n + 1;
    }
  }

  /** A leaf with garbage: the light-weight choice if there is one, else the oldest kvsets. */
  method SelectGarbage(l: seq<Kvset>, ns: Stats, th: Thresholds) returns (c: Choice)
    requires Free(l)
    ensures c.n > 0 ==> IsRun(l, c.mark, c.n)
    ensures l != [] && 1 <= th.lcompRunlenMax ==> c.n > 0
    ensures !c.rule.Garbage? ==> c.n > 0 && IdleChosen(l, ns, th, c)
    ensures c.rule.Garbage? ==>
      && c == Choice(|l| - 1, Min(|l|, th.lcompRunlenMax), CompactKv, Garbage)
      && exists c0: Choice :: c0.n == 0 && IdleChosen(l, ns, th, c0)
  {
    c := SelectIdle(l, ns, th);
    if c.n > 0 {
      assert !c.rule.Garbage?;
      return;
    }
    ghost var c0 := c;
    return Choice(|l| - 1, Min(|l|, th.lcompRunlenMax), CompactKv, Garbage);
  }

  /** Kvset i is the oldest one with scattered values. */
  ghost predicate OldestScattered(l: seq<Kvset>, i: int) {
    0 <= i < |l| && l[i].vgroups > 1 && forall j :: i < j < |l| ==> l[j].vgroups <= 1
  }

  /** The run from the oldest scattered kvset to the newest, within the limit; with the next
      older kvset, and one longer, if that is small. */
  predicate ScatterChoice(l: seq<Kvset>, i: int, th: Thresholds, c: Choice)
    requires 0 <= i < |l|
  {
    && c.action == CompactKv && (c.rule == if i == |l| - 1 then ScatterFull else ScatterPart)
    && if i + 1 < |l| && Wlen(l[i + 1]) < SMALL_KVSET
       then c.mark == i + 1 && c.n == Min(i + 2, th.lscatRunlenMax + 1)
       else c.mark == i && c.n == Min(i + 1, th.lscatRunlenMax)
  }

  /** Start at the oldest kvset with scattered values, or at the next older one if that is
      small. */
  method SelectScatter(l: seq<Kvset>, th: Thresholds) returns (c: Choice)
    requires Free(l)
    ensures c.n > 0 ==> IsRun(l, c.mark, c.n) && c.n <= th.lscatRunlenMax + 1
    ensures c.n > 0 ==> OldestScattered(l, c.mark) || OldestScattered(l, c.mark - 1)
    ensures c.n == 0 && 1 <= th.lscatRunlenMax ==> forall i :: 0 <= i < |l| ==> l[i].vgroups <= 1
    ensures forall i :: OldestScattered(l, i) ==> ScatterChoice(l, i, th, c)
    ensures (forall i :: 0 <= i < |l| ==> l[i].vgroups <= 1) ==> c.n == 0
  {
    var runlen := |l|;
    while runlen > 0 && l[runlen - 1].vgroups <= 1
      invariant 0 <= runlen <= |l| && forall i :: runlen <= i < |l| ==> l[i].vgroups <= 1
    {
      runlen := runlen - 1;
    }
    var rule := if runlen == |l| then ScatterFull else ScatterPart;
    var mark: int, runlenMax: nat := if runlen == 0 then |l| - 1 else runlen - 1, th.lscatRunlenMax;
    if runlen > 0 && mark + 1 < |l| && Wlen(l[mark + 1]) < SMALL_KVSET {
      mark, runlen, runlenMax := mark + 1, runlen + 1, runlenMax + 1;
    }
    return Choice(mark, Min(runlen, runlenMax), CompactKv, rule);
  }
}
