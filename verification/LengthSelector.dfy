/**
 How the scheduler picks a run that makes a long leaf shorter.

 The walk goes from the oldest kvset to newer ones and looks for kvsets that have been
 compacted equally often.
 */
module LengthSelector {
  import opened RunSelectors

  /** The kvsets of a stretch have been compacted equally often. */
  ghost predicate SameCompc(l: seq<Kvset>, lo: int, hi: int, compc: nat)
    requires -1 <= lo && hi < |l|
  {
    forall i :: lo < i <= hi ==> l[i].compc == compc
  }

  /** A run cannot go on from kvset i + 1 to kvset i: they differ, or the older one has too
      many keys. */
  predicate Breaks(l: seq<Kvset>, i: int, keysMax: nat) {
    0 <= i < |l| - 1 && (l[i].compc != l[i + 1].compc || l[i + 1].keys > keysMax)
  }

  /** A run of n kvsets from hi without a break. */
  ghost predicate Window(l: seq<Kvset>, hi: int, n: nat, keysMax: nat) {
    0 <= hi < |l| && n <= hi + 1 && forall i :: hi - n < i < hi ==> !Breaks(l, i, keysMax)
  }

  /** A run starts at hi. */
  predicate Starts(l: seq<Kvset>, hi: int, keysMax: nat) {
    hi == |l| - 1 || Breaks(l, hi, keysMax)
  }

  ghost predicate NoneOlder(l: seq<Kvset>, mark: int, n: nat, keysMax: nat) {
    forall hi :: mark < hi ==> !Window(l, hi, n, keysMax)
  }

  /** Just before the run at the mark is one that is one short of n, compacted once more. */
  ghost predicate ShortBefore(l: seq<Kvset>, mark: int, n: nat, keysMax: nat) {
    && 2 <= n && 0 <= mark && mark + n - 1 < |l| && Starts(l, mark + n - 1, keysMax)
    && Window(l, mark + n - 1, n - 1, keysMax) && l[mark + n - 1].compc == l[mark].compc + 1
  }

  function RunVwlen(l: seq<Kvset>, mark: int, r: nat): nat
    requires r <= mark + 1 <= |l|
  {
    if r == 0 then 0 else RunVwlen(l, mark, r - 1) + l[mark - r + 1].vwlen
  }

  /** The number of kvsets older than i without keys. */
  function Empties(l: seq<Kvset>, i: int): nat
    requires -1 <= i < |l|
    decreases |l| - i
  {
    if i == |l| - 1 then 0 else Empties(l, i + 1) + if l[i + 1].keys == 0 then 1 else 0
  }

  datatype Walk = Walk(mark: int, prev: int, runlen: nat, vwlen: nat, wlen: nat, runlenMax: nat)

  /** Where the walk stands when it has looked at all kvsets older than i: the run at the mark
      is the oldest that may still reach min, or has reached it. */
  ghost predicate Walking(l: seq<Kvset>, i: int, w: Walk, min: nat, max: nat, keysMax: nat) {
    && -1 <= i < |l| - 1 && 0 <= w.mark < |l| && w.runlen >= 1 && w.mark - w.runlen == i
    && Starts(l, w.mark, keysMax) && Window(l, w.mark, Min(w.runlen, min), keysMax)
    && NoneOlder(l, w.mark, min, keysMax)
    && (w.prev == if ShortBefore(l, w.mark, min, keysMax) then w.mark + min - 1 else NONE)
    && w.vwlen == RunVwlen(l, w.mark, w.runlen) && w.wlen == RunWlen(l, w.mark, w.runlen)
    && w.runlenMax == max + Empties(l, i)
    && (w.runlen > 1 ==> w.runlen - 1 < max + Empties(l, i + 1))
  }

  /** The walk goes on with kvset i in the same run. */
  lemma WalkOn(l: seq<Kvset>, i: nat, w: Walk, min: nat, max: nat, keysMax: nat, w': Walk)
    requires 1 <= min && Walking(l, i, w, min, max, keysMax) && w.runlen < w.runlenMax
    requires w.runlen >= min || !Breaks(l, i, keysMax)
    requires w' == Walk(w.mark, w.prev, w.runlen + 1, w.vwlen + l[i].vwlen, w.wlen + Wlen(l[i]),
                        if l[i].keys == 0 then w.runlenMax + 1 else w.runlenMax)
    ensures Walking(l, i - 1, w', min, max, keysMax)
  {
    assert l[w.mark - w'.runlen + 1] == l[i];
  }

  /** The walk starts a new run at kvset i. */
  lemma WalkAnew(l: seq<Kvset>, i: nat, w: Walk, min: nat, max: nat, keysMax: nat, w': Walk)
    requires 1 <= min && Walking(l, i, w, min, max, keysMax) && w.runlen < w.runlenMax
    requires w.runlen < min && Breaks(l, i, keysMax)
    requires w' == Walk(i, if l[i].compc == l[w.mark].compc - 1 && w.runlen == min - 1 then w.mark else NONE,
                        1, l[i].vwlen, Wlen(l[i]), if l[i].keys == 0 then w.runlenMax + 1 else w.runlenMax)
    ensures Walking(l, i - 1, w', min, max, keysMax)
  {
    NoneAtBreak(l, i, w, min, max, keysMax);
    assert RunVwlen(l, i, 1) == RunVwlen(l, i, 0) + l[i].vwlen && RunWlen(l, i, 1) == RunWlen(l, i, 0) + Wlen(l[i]);
    assert ShortBefore(l, i, min, keysMax) <==> l[i].compc == l[w.mark].compc - 1 && w.runlen == min - 1 by {
      if ShortBefore(l, i, min, keysMax) { ShortIsRun(l, i, w, min, max, keysMax); }
    }
  }

  lemma NoneAtBreak(l: seq<Kvset>, i: nat, w: Walk, min: nat, max: nat, keysMax: nat)
    requires Walking(l, i, w, min, max, keysMax) && w.runlen < min && Breaks(l, i, keysMax)
    ensures NoneOlder(l, i, min, keysMax)
  {
    forall hi | i < hi ensures !Window(l, hi, min, keysMax) {
      assert hi <= w.mark ==> hi - min < i < hi;
    }
  }

  /** The run that is one short is the one the walk leaves. */
  lemma ShortIsRun(l: seq<Kvset>, i: nat, w: Walk, min: nat, max: nat, keysMax: nat)
    requires Walking(l, i, w, min, max, keysMax) && w.runlen < min && ShortBefore(l, i, min, keysMax)
    ensures w.mark == i + min - 1
  {
    var p := i + min - 1;
    assert p < w.mark ==> Breaks(l, p, keysMax) && w.mark - w.runlen < p;
    assert w.mark < p ==> Breaks(l, w.mark, keysMax) && p - (min - 1) < w.mark;
  }

  /** The walk from the oldest kvset.  last is the key count of the kvset looked at last. */
  method WalkLength(l: seq<Kvset>, min: nat, max: nat, keysMax: nat, last: nat) returns (w: Walk)
    requires l != [] && 1 <= min
    ensures Walked(l, w, min, max, keysMax)
  {
    var lastKeys, compc, i := last, NONE, |l| - 1;
    w := Walk(|l| - 1, NONE, 0, 0, 0, max);
    var full := false;
    while i >= 0 && !full
      invariant -1 <= i < |l|
      invariant i == |l| - 1 ==> w == Walk(|l| - 1, NONE, 0, 0, 0, max) && compc == NONE && !full
      invariant i < |l| - 1 ==> Walking(l, i, w, min, max, keysMax) && compc == l[w.mark].compc
      invariant i < |l| - 1 ==> lastKeys == l[i + 1].keys && (full <==> w.runlen >= w.runlenMax)
      invariant i < |l| - 1 && w.runlen < min ==> l[i + 1].compc == compc
      decreases i, !full
    {
      var le := l[i];
      ghost var w0 := w;
      if w.runlen < min && (compc != le.compc || lastKeys > keysMax) {
        var prev := if le.compc == compc - 1 && w.runlen == min - 1 then w.mark else NONE;
        w := Walk(i, prev, 0, 0, 0, w.runlenMax);
        compc := le.compc;
      }
      lastKeys := le.keys;
      w := Walk(w.mark, w.prev, w.runlen + 1, w.vwlen + le.vwlen, w.wlen + Wlen(le),
                if le.keys == 0 then w.runlenMax + 1 else w.runlenMax);
      WalkStep(l, i, w0, min, max, keysMax, w);
      i := i - 1;
      full := w.runlen >= w.runlenMax;
    }
  }

  /** One turn of the walk. */
  lemma WalkStep(l: seq<Kvset>, i: nat, w: Walk, min: nat, max: nat, keysMax: nat, w': Walk)
    requires 1 <= min && i < |l|
    requires i == |l| - 1 ==> w == Walk(|l| - 1, NONE, 0, 0, 0, max)
    requires i < |l| - 1 ==> Walking(l, i, w, min, max, keysMax) && w.runlen < w.runlenMax
    requires var anew := i == |l| - 1 || (w.runlen < min && Breaks(l, i, keysMax));
      w' == Walk(if anew then i else w.mark,
                 if !anew then w.prev
                 else if i < |l| - 1 && l[i].compc == l[w.mark].compc - 1 && w.runlen == min - 1 then w.mark else NONE,
                 if anew then 1 else w.runlen + 1,
                 if anew then l[i].vwlen else w.vwlen + l[i].vwlen,
                 if anew then Wlen(l[i]) else w.wlen + Wlen(l[i]),
                 if l[i].keys == 0 then w.runlenMax + 1 else w.runlenMax)
    ensures Walking(l, i - 1, w', min, max, keysMax)
  {
    if i == |l| - 1 {
      assert RunVwlen(l, i, 1) == RunVwlen(l, i, 0) + l[i].vwlen && RunWlen(l, i, 1) == RunWlen(l, i, 0) + Wlen(l[i]);
    } else if w.runlen < min && Breaks(l, i, keysMax) {
      WalkAnew(l, i, w, min, max, keysMax, w');
    } else {
      WalkOn(l, i, w, min, max, keysMax, w');
    }
  }

  /** The walk finds a run of min kvsets exactly if there is one, and then the oldest. */
  lemma WalkFinds(l: seq<Kvset>, w: Walk, min: nat, max: nat, keysMax: nat)
    requires 1 <= min <= max && Walked(l, w, min, max, keysMax)
    ensures w.runlen >= min <==> HasWindow(l, min, keysMax)
    ensures w.runlen >= min ==> Window(l, w.mark, min, keysMax) && NoneOlder(l, w.mark, min, keysMax)
  {
  }

  // ----- the other ways to make a leaf shorter -----

  /** The n newest kvsets, and no more, have never been compacted; kmax is their largest key
      count. */
  ghost predicate NeverCompacted(l: seq<Kvset>, n: nat, kmax: nat) {
    && n <= |l| && SameCompc(l, -1, n - 1, 0) && (n < |l| ==> l[n].compc > 0)
    && (forall i :: 0 <= i < n ==> l[i].keys <= kmax) && (kmax == 0 || exists i :: 0 <= i < n && l[i].keys == kmax)
  }

  method Uncompacted(l: seq<Kvset>) returns (n: nat, kmax: nat)
    ensures NeverCompacted(l, n, kmax)
  {
    n, kmax := 0, 0;
    while n < |l| && l[n].compc == 0
      invariant n <= |l| && SameCompc(l, -1, n - 1, 0) && forall i :: 0 <= i < n ==> l[i].keys <= kmax
      invariant kmax == 0 || exists i :: 0 <= i < n && l[i].keys == kmax
    {
      if l[n].keys > kmax { kmax := l[n].keys; }
      n := n + 1;
    }
  }

  /** The n newest kvsets, and no more, each have at most half of the keys then left. */
  ghost predicate SmallOnes(l: seq<Kvset>, n: nat) {
    && n <= |l| && (forall i :: 0 <= i < n ==> Small(l, i)) && (n < |l| ==> !Small(l, n))
  }

  predicate Small(l: seq<Kvset>, i: nat)
    requires i < |l|
  {
    l[i].keys <= (COMPC_KEYS - Keys(l[..i])) / 2
  }

  method NewestSmall(l: seq<Kvset>) returns (n: nat, vwlen: nat)
    ensures SmallOnes(l, n) && Keys(l[..n]) <= COMPC_KEYS && vwlen == RunVwlen(l, n - 1, n)
  {
    n, vwlen := 0, 0;
    var left := COMPC_KEYS;
    while n < |l| && l[n].keys <= left / 2
      invariant n <= |l| && left >= 0 && Keys(l[..n]) + left == COMPC_KEYS && vwlen == RunVwlen(l, n - 1, n)
      invariant forall i :: 0 <= i < n ==> Small(l, i)
    {
      assert l[..n + 1][..n] == l[..n];
      NewerVwlen(l, n, n + 1);
      left := left - l[n].keys;
      vwlen := vwlen + l[n].vwlen;
      n := n + 1;
    }
  }

  lemma {:induction false} NewerVwlen(l: seq<Kvset>, mark: nat, r: nat)
    requires 1 <= r <= mark + 1 <= |l|
    ensures RunVwlen(l, mark, r) == RunVwlen(l, mark - 1, r - 1) + l[mark].vwlen
  {
    if r > 1 { NewerVwlen(l, mark, r - 1); }
  }

  predicate IsLength(r: Rule) {
    r.LengthMin? || r.LengthMax? || r.LengthWlen? || r.LengthVwlen?
  }

  /** A run chosen by length begins with min kvsets compacted equally often; or with one less
      than that, followed by min kvsets compacted once less, and nothing else. */
  ghost predicate LengthRun(l: seq<Kvset>, c: Choice, min: nat)
    requires IsRun(l, c.mark, c.n)
  {
    var k := l[c.mark].compc;
    || (c.n >= min && SameCompc(l, c.mark - min, c.mark, k))
    || (c.n == 2 * min - 1 && k > 0 && SameCompc(l, c.mark - (min - 1), c.mark, k)
        && SameCompc(l, c.mark - c.n, c.mark - (min - 1), k - 1))
  }

  lemma {:induction false} WindowCompc(l: seq<Kvset>, hi: int, n: nat, keysMax: nat)
    requires Window(l, hi, n, keysMax)
    ensures SameCompc(l, hi - n, hi, l[hi].compc)
  {
    if n > 1 {
      WindowCompc(l, hi, n - 1, keysMax);
      assert !Breaks(l, hi - n + 1, keysMax);
    }
  }

  /** What is made of a walk that found a run. */
  ghost predicate FromWalk(w: Walk, min: nat, c: Choice) {
    && c.mark == (if w.prev != NONE then w.prev else w.mark)
    && c.n == (if w.prev != NONE then min * 2 - 1 else w.runlen)
    && (c.action == if w.wlen < VBLOCK_MAX_SIZE || w.vwlen < VBLOCK_MAX_SIZE then CompactKv else CompactK)
    && (c.rule.LengthWlen? <==> w.wlen < VBLOCK_MAX_SIZE)
    && (c.rule.LengthVwlen? <==> w.vwlen < VBLOCK_MAX_SIZE <= w.wlen)
  }

  lemma WalkedRun(l: seq<Kvset>, w: Walk, min: nat, max: nat, keysMax: nat, c: Choice)
    requires Free(l) && 1 <= min && Walking(l, w.mark - w.runlen, w, min, max, keysMax) && w.runlen >= min
    requires FromWalk(w, min, c)
    ensures IsRun(l, c.mark, c.n) && LengthRun(l, c, min)
  {
    WindowCompc(l, w.mark, min, keysMax);
    if w.prev != NONE { WindowCompc(l, w.prev, min - 1, keysMax); }
  }

  /** The minimal and maximal length and the key limit of the walk. */
  function MinLength(th: Thresholds, readers: bool): nat {
    if readers then th.llenRunlenMin else th.llenRunlenMin + 1
  }

  function MaxLength(th: Thresholds, readers: bool): nat {
    if readers then th.llenRunlenMax else th.llenRunlenMax * 2
  }

  /** Many kvsets that were never compacted lower the limit to their largest key count. */
  ghost predicate KeyLimit(l: seq<Kvset>, th: Thresholds, readers: bool, keysMax: nat) {
    exists n: nat, kmax: nat :: NeverCompacted(l, n, kmax)
      && keysMax == if |l| > MaxLength(th, readers) && n > MaxLength(th, readers) then kmax else th.lcompSplitKeys / 2
  }

  ghost predicate HasWindow(l: seq<Kvset>, n: nat, keysMax: nat) {
    exists hi :: Window(l, hi, n, keysMax)
  }

  /** The walk has come to its end. */
  ghost predicate Walked(l: seq<Kvset>, w: Walk, min: nat, max: nat, keysMax: nat) {
    Walking(l, w.mark - w.runlen, w, min, max, keysMax) && (w.runlen == w.mark + 1 || w.runlen >= w.runlenMax)
  }

  /** The choice for a leaf with a run of the minimal length: the oldest such run and all newer
      kvsets up to the limit, or the run with the one before it if that is one short. */
  ghost predicate OldestWindow(l: seq<Kvset>, min: nat, max: nat, keysMax: nat, c: Choice) {
    IsLength(c.rule) && c.n > 0 && exists w: Walk :: Walked(l, w, min, max, keysMax) && FromWalk(w, min, c)
  }

  /** The choice among the n newest kvsets if these are small. */
  ghost predicate FromSmall(l: seq<Kvset>, n: nat, min: nat, limit: nat, c: Choice) {
    && SmallOnes(l, n)
    && (|l| > limit && n > min ==>
          && c.mark == n - 1 && c.n == Min(n, limit)
          && (if RunVwlen(l, n - 1, n) < VBLOCK_MAX_SIZE then c.action.CompactKv? && c.rule.Index?
              else c.action.CompactK? && c.rule.Compc?))
    && (|l| <= limit || n <= min ==> c.n == 0)
  }

  /** The choice for one without. */
  ghost predicate Otherwise(l: seq<Kvset>, ns: Stats, min: nat, limit: nat, c: Choice) {
    if ns.clen < VBLOCK_MAX_SIZE then c == Choice(|l| - 1, |l|, CompactKv, LengthClen)
    else exists n: nat :: FromSmall(l, n, min, limit, c)
  }

  ghost predicate LengthChoice(l: seq<Kvset>, ns: Stats, min: nat, max: nat, keysMax: nat, c: Choice) {
    if HasWindow(l, min, keysMax) then OldestWindow(l, min, max, keysMax, c)
    else l != [] && Otherwise(l, ns, min, max + Empties(l, -1), c)
  }

  /** The key limit of the walk, the rule it leads to, and the key count looked at last. */
  method LimitKeys(l: seq<Kvset>, th: Thresholds, readers: bool) returns (keysMax: nat, rule: Rule, last: nat)
    ensures KeyLimit(l, th, readers, keysMax) && (rule.LengthMin? || rule.LengthMax?)
  {
    keysMax, rule, last := th.lcompSplitKeys / 2, LengthMin, 0;
    var n, kmax := Uncompacted(l);
    if |l| > MaxLength(th, readers) {
      if n > 0 { last := l[n - 1].keys; }
      if n > MaxLength(th, readers) { rule, keysMax := LengthMax, kmax; }
    }
  }

  /** What a walk with a run of the minimal length leads to. */
  method ChooseRun(w: Walk, min: nat, rule: Rule) returns (c: Choice)
    requires 1 <= min && (rule.LengthMin? || rule.LengthMax?)
    ensures FromWalk(w, min, c) && IsLength(c.rule)
  {
    c := Choice(w.mark, w.runlen, CompactK, rule);
    if w.wlen < VBLOCK_MAX_SIZE {
      c := c.(action := CompactKv, rule := LengthWlen);
    } else if w.vwlen < VBLOCK_MAX_SIZE {
      c := c.(action := CompactKv, rule := LengthVwlen);
    }
    if w.prev != NONE { c := c.(mark := w.prev, n := min * 2 - 1); }
  }

  /** What one without leads to. */
  method ChooseOther(l: seq<Kvset>, ns: Stats, min: nat, limit: nat) returns (c: Choice)
    requires Free(l)
    ensures Otherwise(l, ns, min, limit, c)
    ensures c.n > 0 ==> IsRun(l, c.mark, c.n) && !IsLength(c.rule)
  {
    if ns.clen < VBLOCK_MAX_SIZE { return Choice(|l| - 1, |l|, CompactKv, LengthClen); }
    var n, vwlen := NewestSmall(l);
    c := Choice(NONE, 0, CompactK, Compc);
    if |l| > limit && n > min {
      c := if vwlen < VBLOCK_MAX_SIZE then Choice(n - 1, Min(n, limit), CompactKv, Index)
           else Choice(n - 1, Min(n, limit), CompactK, Compc);
    }
    assert FromSmall(l, n, min, limit, c);
  }

  /** A leaf is made shorter by the oldest run of the minimal length, if there is one; otherwise
      by compacting all of it, or its small kvsets. */
  method SelectLength(l: seq<Kvset>, ns: Stats, th: Thresholds, readers: bool) returns (c: Choice)
    requires Free(l) && 1 <= th.llenRunlenMin
    ensures c.n > 0 ==> IsRun(l, c.mark, c.n)
    ensures c.n > 0 && IsLength(c.rule) ==> LengthRun(l, c, MinLength(th, readers))
    ensures |l| < th.llenRunlenMin ==> c.n == 0
    ensures th.llenRunlenMin <= |l| && th.llenRunlenMin <= th.llenRunlenMax ==>
      exists keysMax: nat :: KeyLimit(l, th, readers, keysMax)
        && LengthChoice(l, ns, MinLength(th, readers), MaxLength(th, readers), keysMax, c)
  {
    c := Choice(NONE, 0, CompactK, LengthMin);
    if |l| < th.llenRunlenMin { return; }
    var min, max := MinLength(th, readers), MaxLength(th, readers);
    var keysMax, rule, last := LimitKeys(l, th, readers);
    var w := WalkLength(l, min, max, keysMax, last);
    if w.runlen >= min {
      c := ChooseRun(w, min, rule);
      WalkedRun(l, w, min, max, keysMax, c);
    } else {
      c := ChooseOther(l, ns, min, w.runlenMax);
    }
    if th.llenRunlenMin <= th.llenRunlenMax {
      WalkFinds(l, w, min, max, keysMax);
      assert LengthChoice(l, ns, min, max, keysMax, c);
    }
  }
}
