/**
 * The ceiling cascade shared by several income-tax reductions: a single
 * ceiling is consumed box by box, in a fixed order. Each box keeps
 * `min(box, left)` as its base, and the ceiling left for the next box is
 * `max(left - box, 0)`. The bases together never exceed the ceiling; in fact
 * they add up to `min(ceiling, sum of boxes)`. Each base is then multiplied by
 * its own rate.
 */
module Cascade {
  import opened MinMax

  function Sum(s: seq<real>): real
    decreases |s|
  {
    if s == [] then 0.0 else s[0] + Sum(s[1..])
  }

  predicate AllNonNegative(s: seq<real>) {
    forall i :: 0 <= i < |s| ==> 0.0 <= s[i]
  }

  predicate AllRates(s: seq<real>) {
    forall i :: 0 <= i < |s| ==> 0.0 <= s[i] <= 1.0
  }

  /** The bases the boxes keep, in order, under the shared ceiling. */
  function Retained(ceiling: real, boxes: seq<real>): (r: seq<real>)
    ensures |r| == |boxes|
    decreases |boxes|
  {
    if boxes == [] then []
    else [Min(boxes[0], ceiling)] + Retained(Max(ceiling - boxes[0], 0.0), boxes[1..])
  }

  /** The sum of the bases, each multiplied by its rate. */
  function Weighted(rates: seq<real>, bases: seq<real>): real
    requires |rates| == |bases|
    decreases |bases|
  {
    if bases == [] then 0.0 else rates[0] * bases[0] + Weighted(rates[1..], bases[1..])
  }

  lemma RetainedCons(ceiling: real, x: real, rest: seq<real>)
    ensures Retained(ceiling, [x] + rest) == [Min(x, ceiling)] + Retained(Max(ceiling - x, 0.0), rest)
  {
    assert ([x] + rest)[1..] == rest;
  }

  lemma WeightedCons(t: real, x: real, ts: seq<real>, xs: seq<real>)
    requires |ts| == |xs|
    ensures Weighted([t] + ts, [x] + xs) == t * x + Weighted(ts, xs)
  {
    var rates, bases := [t] + ts, [x] + xs;
    assert rates[0] == t && bases[0] == x;
    assert rates[1..] == ts;
    assert bases[1..] == xs;
  }

  lemma SumCons(x: real, xs: seq<real>)
    ensures Sum([x] + xs) == x + Sum(xs)
  {
    assert ([x] + xs)[1..] == xs;
  }

  /** Three boxes, unrolled: the bases they keep. */
  lemma Retained3(c0: real, x0: real, x1: real, x2: real)
    ensures var c1 := Max(c0 - x0, 0.0);
            var c2 := Max(c1 - x1, 0.0);
            Retained(c0, [x0, x1, x2]) == [Min(x0, c0), Min(x1, c1), Min(x2, c2)]
  {
    var c1 := Max(c0 - x0, 0.0);
    var c2 := Max(c1 - x1, 0.0);
    RetainedCons(c2, x2, []);
    assert Retained(c2, [x2]) == [Min(x2, c2)];
    RetainedCons(c1, x1, [x2]);
    assert Retained(c1, [x1, x2]) == [Min(x1, c1), Min(x2, c2)];
    RetainedCons(c0, x0, [x1, x2]);
  }

  /** Three rates on three bases, unrolled. */
  lemma Weighted3(t0: real, t1: real, t2: real, b0: real, b1: real, b2: real)
    ensures Weighted([t0, t1, t2], [b0, b1, b2]) == t0 * b0 + t1 * b1 + t2 * b2
  {
    WeightedCons(t2, b2, [], []);
    assert Weighted([t2], [b2]) == t2 * b2;
    WeightedCons(t1, b1, [t2], [b2]);
    assert Weighted([t1, t2], [b1, b2]) == t1 * b1 + t2 * b2;
    WeightedCons(t0, b0, [t1, t2], [b1, b2]);
  }

  /** Four boxes, unrolled: the bases they keep. */
  lemma Retained4(c0: real, x0: real, x1: real, x2: real, x3: real)
    ensures var c1 := Max(c0 - x0, 0.0);
            var c2 := Max(c1 - x1, 0.0);
            var c3 := Max(c2 - x2, 0.0);
            Retained(c0, [x0, x1, x2, x3]) == [Min(x0, c0), Min(x1, c1), Min(x2, c2), Min(x3, c3)]
  {
    var c1 := Max(c0 - x0, 0.0);
    Retained3(c1, x1, x2, x3);
    RetainedCons(c0, x0, [x1, x2, x3]);
    assert [x0] + [x1, x2, x3] == [x0, x1, x2, x3];
  }

  /** Four rates on four bases, unrolled. */
  lemma Weighted4(t0: real, t1: real, t2: real, t3: real, b0: real, b1: real, b2: real, b3: real)
    ensures Weighted([t0, t1, t2, t3], [b0, b1, b2, b3]) == t0 * b0 + t1 * b1 + t2 * b2 + t3 * b3
  {
    WeightedCons(t3, b3, [], []);
    assert Weighted([t3], [b3]) == t3 * b3;
    WeightedCons(t2, b2, [t3], [b3]);
    assert Weighted([t2, t3], [b2, b3]) == t2 * b2 + t3 * b3;
    WeightedCons(t1, b1, [t2, t3], [b2, b3]);
    assert Weighted([t1, t2, t3], [b1, b2, b3]) == t1 * b1 + t2 * b2 + t3 * b3;
    WeightedCons(t0, b0, [t1, t2, t3], [b1, b2, b3]);
  }

  /** Five rates on five bases, unrolled. */
  lemma Weighted5(t0: real, t1: real, t2: real, t3: real, t4: real,
                  b0: real, b1: real, b2: real, b3: real, b4: real)
    ensures Weighted([t0, t1, t2, t3, t4], [b0, b1, b2, b3, b4]) ==
            t0 * b0 + t1 * b1 + t2 * b2 + t3 * b3 + t4 * b4
  {
    Weighted4(t1, t2, t3, t4, b1, b2, b3, b4);
    WeightedCons(t0, b0, [t1, t2, t3, t4], [b1, b2, b3, b4]);
  }

  /** Five boxes, unrolled: the bases they keep. */
  lemma Retained5(c0: real, x0: real, x1: real, x2: real, x3: real, x4: real)
    ensures var c1 := Max(c0 - x0, 0.0);
            var c2 := Max(c1 - x1, 0.0);
            var c3 := Max(c2 - x2, 0.0);
            var c4 := Max(c3 - x3, 0.0);
            Retained(c0, [x0, x1, x2, x3, x4]) ==
              [Min(x0, c0), Min(x1, c1), Min(x2, c2), Min(x3, c3), Min(x4, c4)]
  {
    var c1 := Max(c0 - x0, 0.0);
    Retained4(c1, x1, x2, x3, x4);
    RetainedCons(c0, x0, [x1, x2, x3, x4]);
  }

  /** Three rated boxes under one ceiling, unrolled. */
  lemma Cascade3(c0: real, x0: real, x1: real, x2: real, t0: real, t1: real, t2: real)
    ensures var c1 := Max(c0 - x0, 0.0);
            var c2 := Max(c1 - x1, 0.0);
            Weighted([t0, t1, t2], Retained(c0, [x0, x1, x2])) ==
              t0 * Min(x0, c0) + t1 * Min(x1, c1) + t2 * Min(x2, c2)
  {
    var c1 := Max(c0 - x0, 0.0);
    var c2 := Max(c1 - x1, 0.0);
    Retained3(c0, x0, x1, x2);
    Weighted3(t0, t1, t2, Min(x0, c0), Min(x1, c1), Min(x2, c2));
  }

  /** Four rated boxes under one ceiling, unrolled. */
  lemma Cascade4(c0: real, x0: real, x1: real, x2: real, x3: real,
                 t0: real, t1: real, t2: real, t3: real)
    ensures var c1 := Max(c0 - x0, 0.0);
            var c2 := Max(c1 - x1, 0.0);
            var c3 := Max(c2 - x2, 0.0);
            Weighted([t0, t1, t2, t3], Retained(c0, [x0, x1, x2, x3])) ==
              t0 * Min(x0, c0) + t1 * Min(x1, c1) + t2 * Min(x2, c2) + t3 * Min(x3, c3)
  {
    var c1 := Max(c0 - x0, 0.0);
    var c2 := Max(c1 - x1, 0.0);
    var c3 := Max(c2 - x2, 0.0);
    Retained4(c0, x0, x1, x2, x3);
    Weighted4(t0, t1, t2, t3, Min(x0, c0), Min(x1, c1), Min(x2, c2), Min(x3, c3));
  }

  /** Five rated boxes under one ceiling, unrolled. */
  lemma Cascade5(c0: real, x0: real, x1: real, x2: real, x3: real, x4: real,
                 t0: real, t1: real, t2: real, t3: real, t4: real)
    ensures var c1 := Max(c0 - x0, 0.0);
            var c2 := Max(c1 - x1, 0.0);
            var c3 := Max(c2 - x2, 0.0);
            var c4 := Max(c3 - x3, 0.0);
            Weighted([t0, t1, t2, t3, t4], Retained(c0, [x0, x1, x2, x3, x4])) ==
              t0 * Min(x0, c0) + t1 * Min(x1, c1) + t2 * Min(x2, c2) + t3 * Min(x3, c3) + t4 * Min(x4, c4)
  {
    var c1 := Max(c0 - x0, 0.0);
    var c2 := Max(c1 - x1, 0.0);
    var c3 := Max(c2 - x2, 0.0);
    var c4 := Max(c3 - x3, 0.0);
    Retained5(c0, x0, x1, x2, x3, x4);
    Weighted5(t0, t1, t2, t3, t4, Min(x0, c0), Min(x1, c1), Min(x2, c2), Min(x3, c3), Min(x4, c4));
  }

  lemma Sum4(s: seq<real>)
    requires |s| == 4
    ensures Sum(s) == s[0] + s[1] + s[2] + s[3]
  {
    assert s == [s[0]] + ([s[1]] + ([s[2]] + [s[3]]));
    SumCons(s[3], []);
    SumCons(s[2], [s[3]]);
    SumCons(s[1], [s[2]] + [s[3]]);
    SumCons(s[0], [s[1]] + ([s[2]] + [s[3]]));
  }

  lemma ScaledBase(t: real, x: real)
    requires 0.0 <= t <= 1.0 && 0.0 <= x
    ensures 0.0 <= t * x <= x
  {
    assert t * x <= 1.0 * x by {
      assert (1.0 - t) * x >= 0.0;
    }
  }

  /** `ScaledBase` as an implication, for a function body that needs it only under its condition. */
  lemma ScaledWithin(t: real, x: real)
    ensures 0.0 <= t <= 1.0 && 0.0 <= x ==> 0.0 <= t * x <= x
  {
    if 0.0 <= t <= 1.0 && 0.0 <= x {
      ScaledBase(t, x);
    }
  }

  /** `ScaledMonotone` as an implication. */
  lemma ScaledMonotoneWhen(t: real, x: real, y: real)
    ensures 0.0 <= t && x <= y ==> t * x <= t * y
  {
    if 0.0 <= t && x <= y {
      ScaledMonotone(t, x, y);
    }
  }

  /** `ScaledBase` for a value `r` known to be the scaled amount. */
  lemma ScaledResult(t: real, x: real, r: real)
    requires 0.0 <= t <= 1.0 && 0.0 <= x && r == t * x
    ensures 0.0 <= r <= x
  {
    ScaledBase(t, x);
  }

  /** `ScaledMonotone` for values `a` and `b` known to be the scaled amounts. */
  lemma ScaledOrder(t: real, x: real, y: real, a: real, b: real)
    requires 0.0 <= t && x <= y && a == t * x && b == t * y
    ensures a <= b
  {
    ScaledMonotone(t, x, y);
  }

  lemma ScaledMonotone(t: real, x: real, y: real)
    requires 0.0 <= t && x <= y
    ensures t * x <= t * y
  {
    assert t * y - t * x == t * (y - x);
  }

  /** Under a non-negative ceiling, non-negative boxes keep non-negative bases. */
  lemma {:induction false} RetainedNonNegative(ceiling: real, boxes: seq<real>)
    requires 0.0 <= ceiling && AllNonNegative(boxes)
    ensures AllNonNegative(Retained(ceiling, boxes))
    decreases |boxes|
  {
    if boxes != [] {
      RetainedNonNegative(Max(ceiling - boxes[0], 0.0), boxes[1..]);
    }
  }

  /** The bases add up to the ceiling or to the boxes, whichever is smaller. */
  lemma {:induction false} RetainedTotal(ceiling: real, boxes: seq<real>)
    requires 0.0 <= ceiling && AllNonNegative(boxes)
    ensures Sum(Retained(ceiling, boxes)) == Min(ceiling, Sum(boxes))
    decreases |boxes|
  {
    if boxes != [] {
      var left := Max(ceiling - boxes[0], 0.0);
      RetainedTotal(left, boxes[1..]);
      RetainedNonNegative(left, boxes[1..]);
      var r := Retained(ceiling, boxes);
      assert r[1..] == Retained(left, boxes[1..]);
      SumNonNegative(boxes[1..]);
    }
  }

  lemma {:induction false} SumNonNegative(s: seq<real>)
    requires AllNonNegative(s)
    ensures 0.0 <= Sum(s)
    decreases |s|
  {
    if s != [] {
      SumNonNegative(s[1..]);
    }
  }

  /** Rates in [0, 1] on non-negative bases give a value between 0 and the bases' sum. */
  lemma {:induction false} WeightedBounds(rates: seq<real>, bases: seq<real>)
    requires |rates| == |bases|
    requires AllRates(rates) && AllNonNegative(bases)
    ensures 0.0 <= Weighted(rates, bases) <= Sum(bases)
    decreases |bases|
  {
    if bases != [] {
      assert AllRates(rates[1..]) && AllNonNegative(bases[1..]) by {
        forall i | 0 <= i < |bases| - 1 ensures 0.0 <= rates[1..][i] <= 1.0 && 0.0 <= bases[1..][i] {
          assert rates[1..][i] == rates[i + 1] && bases[1..][i] == bases[i + 1];
        }
      }
      WeightedBounds(rates[1..], bases[1..]);
      ScaledBase(rates[0], bases[0]);
      var head := rates[0] * bases[0];
      assert Weighted(rates, bases) == head + Weighted(rates[1..], bases[1..]);
      assert Sum(bases) == bases[0] + Sum(bases[1..]);
    }
  }

  /** The value of a cascade lies between 0 and the ceiling. */
  lemma CascadeBounds(rates: seq<real>, ceiling: real, boxes: seq<real>)
    requires |rates| == |boxes|
    requires AllRates(rates) && 0.0 <= ceiling && AllNonNegative(boxes)
    ensures 0.0 <= Weighted(rates, Retained(ceiling, boxes)) <= Min(ceiling, Sum(boxes))
  {
    RetainedNonNegative(ceiling, boxes);
    RetainedTotal(ceiling, boxes);
    WeightedBounds(rates, Retained(ceiling, boxes));
  }
  /**
   * `taux * min_(base, ceiling)`: a rate applied to a base capped by a
   * ceiling, the shape of most reductions. With a rate in [0, 1] and
   * non-negative base and ceiling it lies between 0 and the capped base.
   */
  function CappedShare(rate: real, base: real, ceiling: real): (r: real)
    ensures 0.0 <= rate <= 1.0 && 0.0 <= base && 0.0 <= ceiling ==>
              0.0 <= r <= Min(base, ceiling) && r <= rate * ceiling
    ensures 0.0 <= rate && base <= ceiling ==> r == rate * base
    ensures 0.0 <= rate && ceiling <= base ==> r == rate * ceiling
  {
    var m := Min(base, ceiling);
    ScaledWithin(rate, m);
    ScaledMonotoneWhen(rate, m, ceiling);
    rate * m
  }

  /** A larger ceiling never lowers a capped share. */
  lemma CappedShareMonotone(rate: real, base: real, c: real, c': real)
    requires 0.0 <= rate && c <= c'
    ensures CappedShare(rate, base, c) <= CappedShare(rate, base, c')
  {
    ScaledOrder(rate, Min(base, c), Min(base, c'), CappedShare(rate, base, c), CappedShare(rate, base, c'));
  }

  /** Two boxes, unrolled: the bases they keep add up to the ceiling or to the boxes. */
  lemma Retained2(c0: real, x0: real, x1: real)
    requires 0.0 <= c0 && 0.0 <= x0 && 0.0 <= x1
    ensures Retained(c0, [x0, x1]) == [Min(x0, c0), Min(x1, Max(c0 - x0, 0.0))]
    ensures Min(x0, c0) + Min(x1, Max(c0 - x0, 0.0)) == Min(c0, x0 + x1)
  {
    var c1 := Max(c0 - x0, 0.0);
    RetainedCons(c1, x1, []);
    RetainedCons(c0, x0, [x1]);
    assert [x0, x1] == [x0] + [x1];
    RetainedTotal(c0, [x0, x1]);
    SumCons(x1, []);
    SumCons(x0, [x1]);
    SumCons(Min(x1, c1), []);
    SumCons(Min(x0, c0), [Min(x1, c1)]);
  }

  /** Two boxes, unrolled, with their rates. */
  lemma Cascade2(c0: real, x0: real, x1: real, t0: real, t1: real)
    ensures Weighted([t0, t1], Retained(c0, [x0, x1])) ==
            t0 * Min(x0, c0) + t1 * Min(x1, Max(c0 - x0, 0.0))
  {
    var c1 := Max(c0 - x0, 0.0);
    RetainedCons(c1, x1, []);
    RetainedCons(c0, x0, [x1]);
    assert Retained(c0, [x0, x1]) == [Min(x0, c0), Min(x1, c1)];
    WeightedCons(t1, Min(x1, c1), [], []);
    WeightedCons(t0, Min(x0, c0), [t1], [Min(x1, c1)]);
  }

  /** A larger base never lowers a capped share. */
  lemma CappedShareGrows(rate: real, x: real, y: real, c: real)
    requires 0.0 <= rate && x <= y
    ensures CappedShare(rate, x, c) <= CappedShare(rate, y, c)
  {
    ScaledOrder(rate, Min(x, c), Min(y, c), CappedShare(rate, x, c), CappedShare(rate, y, c));
  }
}
