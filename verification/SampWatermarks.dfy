/**
 The space-amplification watermarks of the scheduler: unsigned fixed-point arithmetic with
 truncating division.

 The source computes with unsigned 64-bit numbers, the model with integers; NoWrapAround
 says when that makes no difference.  Only one subtraction can go below zero, and then the
 result is meaningless.  The model stops there.
 */
module SampWatermarks {
  import opened Options

  const EXT_SCALE: nat := 100
  const SCALE: nat := 10000
  const ONE: nat := SCALE
  const UINT32: nat := 0x1_0000_0000

  datatype Inputs = Inputs(sampMax: nat, loPct: nat, hiPct: nat, leafPct: nat)

  datatype Marks = Marks(lwm: nat, hwm: nat, max: nat, leaf: nat)

  function Clamp(x: nat, lo: nat, hi: nat): nat {
    if x < lo then lo else if x > hi then hi else x
  }

  /** A parameter that has changed is taken over, or the nearest bound if it is out of range;
      one that has not changed is left alone. */
  predicate Taken(x: nat, was: nat, lo: nat, hi: nat, r: nat) {
    if x == was then r == was
    else lo <= r <= hi && (lo <= x <= hi ==> r == x) && (x < lo ==> r == lo) && (x > hi ==> r == hi)
  }

  /** What the clamps guarantee. */
  predicate Clamped(i: Inputs) {
    100 <= i.sampMax <= 999 && 5 <= i.loPct <= 95 && 5 <= i.hiPct <= 95 && 1 <= i.leafPct <= 99
  }

  /** The inputs for which nothing is divided by zero.  An input that is 0 when the scheduler
      starts and 0 in the parameters is never clamped. */
  predicate Usable(i: Inputs) {
    100 <= i.sampMax <= 999 && i.loPct <= 95 && i.hiPct <= 95 && i.leafPct <= 99
  }

  /** An input in the internal scale. */
  function Scaled(x: nat): nat {
    x * SCALE / EXT_SCALE
  }

  /** One plus the share of data outside the leaves. */
  function Load(i: Inputs): nat
    requires Usable(i)
  {
    ONE + (ONE - Scaled(i.leafPct))
  }

  function GoodMin(i: Inputs): nat
    requires Usable(i)
  {
    SCALE * Load(i) / Scaled(i.sampMax)
  }

  /** The subtraction that may go below zero. */
  function Range(i: Inputs): int
    requires Usable(i)
  {
    ONE - GoodMin(i)
  }

  /** The fraction of good leaf data at a watermark. */
  function GoodAt(i: Inputs, pct: nat): int
    requires Usable(i) && pct <= 95
  {
    GoodMin(i) + (ONE - Scaled(pct)) * Range(i) / SCALE
  }

  /** The watermarks; None if the subtraction goes below zero. */
  function Derive(i: Inputs): Option<Marks>
    requires Usable(i)
  {
    if Range(i) < 0 then None
    else
      GoodIsFraction(i, i.loPct); GoodIsFraction(i, i.hiPct);
      var lo, hi := GoodAt(i, i.loPct), GoodAt(i, i.hiPct);
      Some(Marks(SCALE * Load(i) / lo, SCALE * Load(i) / hi, Scaled(i.sampMax), Scaled(i.leafPct)))
  }

  // ----- arithmetic -----

  lemma MulMonotone(a: nat, b: nat, c: nat)
    requires a <= b
    ensures a * c <= b * c
  {
    assert b * c - a * c == (b - a) * c;
  }

  lemma Above(p: nat, q: nat, d: nat)
    requires p > q
    ensures p * d >= q * d + d
  {
    MulMonotone(q + 1, p, d);
    assert (q + 1) * d == q * d + d;
  }

  /** q is the truncated quotient. */
  lemma Quotient(n: nat, d: nat, q: nat)
    requires d > 0 && q == n / d
    ensures q * d <= n < q * d + d
  {
  }

  lemma DivMonotone(a: nat, b: nat, d: nat)
    requires a <= b && d > 0
    ensures a / d <= b / d
  {
    Quotient(a, d, a / d);
    Quotient(b, d, b / d);
    if a / d > b / d {
      Above(a / d, b / d, d);
      assert false;
    }
  }

  lemma DivAntitone(n: nat, d: nat, e: nat)
    requires 0 < d <= e
    ensures n / e <= n / d
  {
    Quotient(n, e, n / e);
    Quotient(n, d, n / d);
    MulMonotone(d, e, n / d);
    if n / e > n / d {
      Above(n / e, n / d, e);
      assert false;
    }
  }

  lemma ScaledIs(x: nat)
    ensures Scaled(x) == 100 * x
  {
  }

  /** The quotient of the smallest fraction, cleared of the common factor. */
  lemma GoodMinBounds(i: Inputs)
    requires Usable(i)
    ensures Load(i) == 20000 - 100 * i.leafPct
    ensures GoodMin(i) * i.sampMax <= 10000 * (200 - i.leafPct) < GoodMin(i) * i.sampMax + i.sampMax
  {
    ScaledIs(i.leafPct);
    ScaledIs(i.sampMax);
    var q, s := GoodMin(i), i.sampMax;
    Quotient(SCALE * Load(i), 100 * s, q);
    assert q * (100 * s) == 100 * (q * s);
  }

  // ----- the theorems -----

  /** The range is not negative exactly if the two inputs together reach 200. */
  lemma RangeExact(i: Inputs)
    requires Usable(i)
    ensures Range(i) >= 0 <==> i.sampMax + i.leafPct >= 200
  {
    GoodMinBounds(i);
    var q, s, g := GoodMin(i), i.sampMax, 200 - i.leafPct;
    if q <= 10000 {
      MulMonotone(q, 10000, s);
    } else {
      MulMonotone(10001, q, s);
    }
  }

  lemma GoodIsFraction(i: Inputs, pct: nat)
    requires Usable(i) && pct <= 95 && Range(i) >= 0
    ensures 0 < GoodMin(i) <= GoodAt(i, pct) <= 10000
  {
    GoodMinBounds(i);
    ScaledIs(pct);
    var k, r := 10000 - 100 * pct, Range(i);
    MulMonotone(0, k, r);
    MulMonotone(k, 10000, r);
    DivMonotone(k * r, 10000 * r, 10000);
    assert 10000 * r / 10000 == r;
  }

  /** If the watermark adds nothing to the smallest fraction, that fraction is one. */
  lemma NoGain(s: nat, g: nat, q: nat, r: nat, k: nat)
    requires 100 <= s <= 999 && 101 <= g <= 200 && g <= s && 500 <= k && r == 10000 - q >= 0
    requires q * s <= 10000 * g < q * s + s && k * r < 10000
    ensures q == 10000 && s == g
  {
    MulMonotone(500, k, r);
    MulMonotone(r, 19, s);
    Split(r, q, s);
    assert s == g;
    assert (q + 1) * s == q * s + s;
    if q < 10000 { MulMonotone(q + 1, 10000, s); }
  }

  lemma Split(r: nat, q: nat, s: nat)
    requires r + q == 10000
    ensures r * s + q * s == 10000 * s
  {
    assert (r + q) * s == r * s + q * s;
  }

  lemma QuotientAtMost(n: nat, d: nat, m: nat)
    requires d > 0 && n < (m + 1) * d
    ensures n / d <= m
  {
    Quotient(n, d, n / d);
    assert (m + 1) * d == m * d + d;
    if n / d > m {
      Above(n / d, m, d);
      assert false;
    }
  }

  /** A watermark lies between the load, where all leaf data is good, and the maximum. */
  lemma MarkWithin(i: Inputs, pct: nat)
    requires Usable(i) && i.sampMax + i.leafPct >= 200 && pct <= 95
    ensures Range(i) >= 0 && GoodAt(i, pct) > 0
    ensures Load(i) <= SCALE * Load(i) / GoodAt(i, pct) <= Scaled(i.sampMax)
  {
    RangeExact(i);
    GoodIsFraction(i, pct);
    GoodMinBounds(i);
    ScaledIs(pct);
    ScaledIs(i.sampMax);
    var s, g, q, r, k := i.sampMax, 200 - i.leafPct, GoodMin(i), Range(i), 10000 - 100 * pct;
    var good := GoodAt(i, pct);
    DivAntitone(SCALE * Load(i), good, 10000);
    var inc := k * r / 10000;
    Quotient(k * r, 10000, inc);
    if inc == 0 { NoGain(s, g, q, r, k); }
    Enough(s, g, q, inc);
    QuotientAtMost(SCALE * Load(i), good, 100 * s);
  }

  lemma Enough(s: nat, g: nat, q: nat, inc: nat)
    requires 10000 * g < q * s + s && (inc == 0 ==> q == 10000 && s == g)
    ensures 1000000 * g < (100 * s + 1) * (q + inc)
  {
    assert (100 * s + 1) * (q + inc) == 100 * (q * s) + q + (100 * s + 1) * inc;
    if inc > 0 { MulMonotone(1, inc, 100 * s + 1); }
  }

  /** With both conditions, the watermarks are in order; without the first there are none. */
  lemma WatermarksInOrder(i: Inputs)
    requires Usable(i)
    ensures Derive(i).Some? <==> i.sampMax + i.leafPct >= 200
    ensures Derive(i).Some? && i.loPct <= i.hiPct ==>
      var m := Derive(i).value; Load(i) <= m.lwm <= m.hwm <= m.max
  {
    RangeExact(i);
    if i.sampMax + i.leafPct >= 200 {
      MarkWithin(i, i.loPct);
      MarkWithin(i, i.hiPct);
      if i.loPct <= i.hiPct {
        GoodFalls(i, i.loPct, i.hiPct);
        DivAntitone(SCALE * Load(i), GoodAt(i, i.hiPct), GoodAt(i, i.loPct));
      }
    }
  }

  lemma GoodFalls(i: Inputs, lo: nat, hi: nat)
    requires Usable(i) && Range(i) >= 0 && lo <= hi <= 95
    ensures GoodAt(i, hi) <= GoodAt(i, lo)
  {
    ScaledIs(lo);
    ScaledIs(hi);
    MulMonotone(10000 - 100 * hi, 10000 - 100 * lo, Range(i));
    MulMonotone(0, 10000 - 100 * hi, Range(i));
    DivMonotone((10000 - 100 * hi) * Range(i), (10000 - 100 * lo) * Range(i), 10000);
  }

  /** m is the watermark for a percentage: each quotient is rounded down. */
  ghost predicate IsMark(i: Inputs, pct: nat, m: nat, least: nat, gain: nat) {
    && least * i.sampMax <= 10000 * (200 - i.leafPct) < least * i.sampMax + i.sampMax
    && gain * 10000 <= (10000 - 100 * pct) * (10000 - least) < gain * 10000 + 10000
    && m * (least + gain) <= 1000000 * (200 - i.leafPct) < m * (least + gain) + least + gain
  }

  lemma MarkIsExact(i: Inputs, pct: nat) returns (least: nat, gain: nat)
    requires Usable(i) && pct <= 95 && Range(i) >= 0 && GoodAt(i, pct) > 0
    ensures IsMark(i, pct, SCALE * Load(i) / GoodAt(i, pct), least, gain)
  {
    GoodMinBounds(i);
    ScaledIs(pct);
    least := GoodMin(i);
    MulMonotone(0, 10000 - 100 * pct, Range(i));
    gain := (10000 - 100 * pct) * Range(i) / 10000;
    Quotient((10000 - 100 * pct) * Range(i), 10000, gain);
    Quotient(SCALE * Load(i), least + gain, SCALE * Load(i) / (least + gain));
  }

  /** Each mark is the one for its own percentage, whatever the other percentage is. */
  lemma MarksAreExact(i: Inputs) returns (least: nat, loGain: nat, hiGain: nat)
    requires Usable(i) && Derive(i).Some?
    ensures var m := Derive(i).value;
      && IsMark(i, i.loPct, m.lwm, least, loGain) && IsMark(i, i.hiPct, m.hwm, least, hiGain)
      && m.max == 100 * i.sampMax && m.leaf == 100 * i.leafPct
  {
    GoodIsFraction(i, i.loPct);
    GoodIsFraction(i, i.hiPct);
    ScaledIs(i.sampMax);
    ScaledIs(i.leafPct);
    least, loGain := MarkIsExact(i, i.loPct);
    var l, g := MarkIsExact(i, i.hiPct);
    hiGain := g;
    SameQuotient(10000 * (200 - i.leafPct), i.sampMax, least, l);
  }

  lemma SameQuotient(n: nat, d: nat, q: nat, r: nat)
    requires d > 0 && q * d <= n < q * d + d && r * d <= n < r * d + d
    ensures q == r
  {
    if q > r {
      Above(q, r, d);
      assert false;
    } else if r > q {
      Above(r, q, d);
      assert false;
    }
  }

  /** With the other inputs unchanged, a mark follows its own percentage upwards and nothing
      else; at zero percent it is the load. */
  lemma MarksFollowPercentages(i: Inputs, j: Inputs)
    requires Usable(i) && Usable(j) && i.sampMax == j.sampMax && i.leafPct == j.leafPct && Derive(i).Some?
    ensures Derive(j).Some?
    ensures var m, m' := Derive(i).value, Derive(j).value;
      && (i.loPct <= j.loPct ==> m.lwm <= m'.lwm) && (i.hiPct <= j.hiPct ==> m.hwm <= m'.hwm)
      && (i.loPct <= j.hiPct ==> m.lwm <= m'.hwm)
      && (i.loPct == 0 ==> m.lwm == Load(i)) && (i.hiPct == 0 ==> m.hwm == Load(i))
  {
    GoodIsFraction(i, i.loPct);
    GoodIsFraction(i, i.hiPct);
    GoodIsFraction(j, j.loPct);
    GoodIsFraction(j, j.hiPct);
    if i.loPct <= j.loPct { MarkRises(i, i.loPct, j.loPct); }
    if i.hiPct <= j.hiPct { MarkRises(i, i.hiPct, j.hiPct); }
    if i.loPct <= j.hiPct { MarkRises(i, i.loPct, j.hiPct); }
    AtZero(i);
  }

  lemma MarkRises(i: Inputs, lo: nat, hi: nat)
    requires Usable(i) && Range(i) >= 0 && lo <= hi <= 95 && GoodAt(i, lo) > 0 && GoodAt(i, hi) > 0
    ensures SCALE * Load(i) / GoodAt(i, lo) <= SCALE * Load(i) / GoodAt(i, hi)
  {
    GoodFalls(i, lo, hi);
    DivAntitone(SCALE * Load(i), GoodAt(i, hi), GoodAt(i, lo));
  }

  lemma AtZero(i: Inputs)
    requires Usable(i) && Range(i) >= 0
    ensures GoodAt(i, 0) == ONE && SCALE * Load(i) / ONE == Load(i)
  {
    ScaledIs(0);
    assert ONE * Range(i) / SCALE == Range(i);
  }

  /** Every product of the derivation is below 2^32, so far from wrapping, and every
      subtraction stays at or above zero, the range exactly under its condition. */
  lemma NoWrapAround(i: Inputs)
    requires Usable(i)
    ensures i.sampMax * SCALE < UINT32 && i.leafPct * SCALE < UINT32 && i.loPct * SCALE < UINT32
    ensures i.hiPct * SCALE < UINT32
    ensures Scaled(i.leafPct) <= ONE && Scaled(i.loPct) <= ONE && Scaled(i.hiPct) <= ONE
    ensures SCALE * Load(i) < UINT32
    ensures GoodMin(i) <= ONE <==> i.sampMax + i.leafPct >= 200
    ensures Range(i) >= 0 ==>
      && 0 <= (ONE - Scaled(i.loPct)) * Range(i) < UINT32 && 0 <= (ONE - Scaled(i.hiPct)) * Range(i) < UINT32
      && 0 < GoodAt(i, i.loPct) < UINT32 && 0 < GoodAt(i, i.hiPct) < UINT32
  {
    ScaledIs(i.leafPct);
    ScaledIs(i.loPct);
    ScaledIs(i.hiPct);
    GoodMinBounds(i);
    RangeExact(i);
    if Range(i) >= 0 {
      GoodIsFraction(i, i.loPct);
      GoodIsFraction(i, i.hiPct);
      ProductBound(ONE - Scaled(i.loPct), Range(i));
      ProductBound(ONE - Scaled(i.hiPct), Range(i));
    }
  }

  lemma ProductBound(a: nat, b: nat)
    requires a <= ONE && b <= ONE
    ensures 0 <= a * b < UINT32
  {
    MulMonotone(a, ONE, b);
    MulMonotone(b, ONE, ONE);
  }

  /** The clamps alone are not enough. */
  lemma ClampsAreNotEnough()
    ensures exists i :: Clamped(i) && Derive(i).None?
  {
    var i := Inputs(100, 25, 75, 50);
    RangeExact(i);
    assert Clamped(i) && Derive(i).None?;
  }

  // ----- the scheduler's state -----

  class Scheduler {
    var inputs: Inputs
    var marks: Marks

    ghost predicate Valid()
      reads this
    {
      && (inputs.sampMax == 0 || 100 <= inputs.sampMax <= 999)
      && inputs.loPct <= 95 && inputs.hiPct <= 95 && inputs.leafPct <= 99
    }

    constructor ()
      ensures Valid() && inputs == Inputs(0, 0, 0, 0)
    {
      inputs, marks := Inputs(0, 0, 0, 0), Marks(0, 0, 0, 0);
    }

    /** New parameters: an input is clamped when it differs from the one in use.  The result
        tells whether the arithmetic is sound; it is not if the maximum is still 0 or if the
        range goes below zero. */
    method Refresh(rp: Inputs) returns (ok: bool)
      requires Valid()
      modifies this
      ensures Valid()
      ensures rp == old(inputs) ==> inputs == old(inputs) && marks == old(marks)
      ensures Clamped(rp) ==> inputs == rp
      ensures Taken(rp.sampMax, old(inputs).sampMax, 100, 999, inputs.sampMax)
      ensures Taken(rp.loPct, old(inputs).loPct, 5, 95, inputs.loPct)
      ensures Taken(rp.hiPct, old(inputs).hiPct, 5, 95, inputs.hiPct)
      ensures Taken(rp.leafPct, old(inputs).leafPct, 1, 99, inputs.leafPct)
      ensures inputs.sampMax == 0 <==> rp.sampMax == old(inputs).sampMax == 0
      ensures ok <==> rp == old(inputs) || (inputs.sampMax > 0 && inputs.sampMax + inputs.leafPct >= 200)
      ensures ok && rp != old(inputs) ==> Usable(inputs) && Derive(inputs) == Some(marks)
      ensures ok && rp != old(inputs) && inputs.loPct <= inputs.hiPct ==>
        Load(inputs) <= marks.lwm <= marks.hwm <= marks.max
    {
      if rp == inputs { return true; }
      inputs := Inputs(
        if rp.sampMax != inputs.sampMax then Clamp(rp.sampMax, 100, 999) else inputs.sampMax,
        if rp.loPct != inputs.loPct then Clamp(rp.loPct, 5, 95) else inputs.loPct,
        if rp.hiPct != inputs.hiPct then Clamp(rp.hiPct, 5, 95) else inputs.hiPct,
        if rp.leafPct != inputs.leafPct then Clamp(rp.leafPct, 1, 99) else inputs.leafPct);
      if inputs.sampMax == 0 { return false; }
      WatermarksInOrder(inputs);
      var d := Derive(inputs);
      ok := d.Some?;
      if ok { marks := d.value; }
    }
  }
}
