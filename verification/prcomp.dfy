/**
 * `prcomp`: the reduction for compensatory payments after a divorce. Box
 * 7WN holds what was paid in the year, 7WO the total amount of the payment,
 * 7WM the capital fixed by the judgement and 7WP what is carried over. The
 * rate `P.taux` applies to the amount paid; when the total exceeds the
 * ceiling `P.seuil`, only the share `P.seuil / f7wo` of the amount paid
 * counts.
 *
 * The source writes the part where 7WM is filled with `f7wo <= P.seuil` for
 * the full amount and `f7wo >= P.seuil` for the pro-rata amount, so both
 * apply when the total equals the ceiling, and it writes the pro-rata
 * amount as `P.taux * f7wm / div`, without the factor `P.seuil` the part
 * where 7WM is empty has. `PrcompAsWritten` keeps the formula as written;
 * `Prcomp` has a strict `f7wo > P.seuil` and the factor `P.seuil`.
 */
module Prcomp {
  import opened MinMax
  import opened Cascade

  datatype Boxes = Boxes(f7wm: real, f7wn: real, f7wo: real, f7wp: real)
  {
    predicate NonNegative() { 0.0 <= f7wm && 0.0 <= f7wn && 0.0 <= f7wo && 0.0 <= f7wp }
  }

  /** `ir.reductions_impots.prcomp` */
  datatype Params = Params(taux: real, seuil: real)
  {
    predicate Valid() { 0.0 <= taux <= 1.0 && 0.0 <= seuil }
  }

  /** `div = (f7wo == 0) * 1 + f7wo`, which keeps the division defined when the total is 0. */
  function Divisor(f7wo: real): (r: real)
    ensures f7wo == 0.0 ==> r == 1.0
    ensures f7wo != 0.0 ==> r == f7wo
    ensures 0.0 <= f7wo ==> 0.0 < r
  {
    When(f7wo == 0.0, 1.0) + f7wo
  }

  /** `x / div`, written 0 for the divisor 0 that only a total of -1 gives. */
  function Quotient(x: real, div: real): real {
    if div == 0.0 then 0.0 else x / div
  }

  /** The part where 7WM is empty, which both versions share. */
  function WithoutCapital(b: Boxes, p: Params): real {
    var div := Divisor(b.f7wo);
    When(b.f7wn == b.f7wo, p.taux * Min(b.f7wn, p.seuil)) +
    When(b.f7wn < b.f7wo && b.f7wo <= p.seuil, p.taux * b.f7wn) +
    Max(0.0, When(b.f7wn < b.f7wo && b.f7wo > p.seuil, Quotient(p.taux * p.seuil * b.f7wn, div)))
  }

  /** The part where 7WM is filled, as written. */
  function WithCapitalAsWritten(b: Boxes, p: Params): real {
    var div := Divisor(b.f7wo);
    When(b.f7wn == b.f7wm && b.f7wo <= p.seuil, p.taux * b.f7wm) +
    Max(0.0, When(b.f7wn == b.f7wm && b.f7wo >= p.seuil, Quotient(p.taux * b.f7wm, div))) +
    When(b.f7wn > b.f7wm && b.f7wo <= p.seuil, p.taux * b.f7wn) +
    Max(0.0, When(b.f7wn > b.f7wm && b.f7wo >= p.seuil, Quotient(p.taux * b.f7wn, div)))
  }

  /** The part where 7WM is filled, corrected: a strict `f7wo > P.seuil` and the factor `P.seuil`. */
  function WithCapital(b: Boxes, p: Params): real {
    var div := Divisor(b.f7wo);
    When(b.f7wn == b.f7wm && b.f7wo <= p.seuil, p.taux * b.f7wm) +
    Max(0.0, When(b.f7wn == b.f7wm && b.f7wo > p.seuil, Quotient(p.taux * p.seuil * b.f7wm, div))) +
    When(b.f7wn > b.f7wm && b.f7wo <= p.seuil, p.taux * b.f7wn) +
    Max(0.0, When(b.f7wn > b.f7wm && b.f7wo > p.seuil, Quotient(p.taux * p.seuil * b.f7wn, div)))
  }

  function PrcompAsWritten(b: Boxes, p: Params): real {
    When(b.f7wm == 0.0, WithoutCapital(b, p)) + When(b.f7wm != 0.0, WithCapitalAsWritten(b, p)) + p.taux * b.f7wp
  }

  function Prcomp(b: Boxes, p: Params): real {
    When(b.f7wm == 0.0, WithoutCapital(b, p)) + When(b.f7wm != 0.0, WithCapital(b, p)) + p.taux * b.f7wp
  }

  /** Whether the amount paid in the year counts at all. */
  predicate Counted(b: Boxes) {
    if b.f7wm == 0.0 then b.f7wn <= b.f7wo else b.f7wm <= b.f7wn
  }

  /**
   * The amount paid with the rate applied, in full when the total is within
   * the ceiling, and its share `P.seuil / f7wo` otherwise.
   */
  function ProRata(b: Boxes, p: Params): real {
    if b.f7wo <= p.seuil then p.taux * b.f7wn else Quotient(p.taux * p.seuil * b.f7wn, b.f7wo)
  }

  /**
   * The corrected reduction is one rule: the rate on the amount paid, cut to
   * its pro-rata share when the total exceeds the ceiling, if it counts,
   * plus the rate on the carry-over.
   */
  lemma PrcompRule(b: Boxes, p: Params)
    requires b.NonNegative() && p.Valid()
    ensures Prcomp(b, p) == When(Counted(b), ProRata(b, p)) + p.taux * b.f7wp
  {
    if b.f7wm == 0.0 {
      RuleWithoutCapital(b, p);
    } else {
      RuleWithCapital(b, p);
    }
  }

  lemma RuleWithoutCapital(b: Boxes, p: Params)
    requires b.NonNegative() && p.Valid() && b.f7wm == 0.0
    ensures WithoutCapital(b, p) == When(b.f7wn <= b.f7wo, ProRata(b, p))
  {
    if b.f7wo > p.seuil {
      OverCeilingWithoutCapital(b, p);
    } else {
      WithinCeilingWithoutCapital(b, p);
    }
  }

  lemma OverCeilingWithoutCapital(b: Boxes, p: Params)
    requires b.NonNegative() && p.Valid() && b.f7wo > p.seuil
    ensures WithoutCapital(b, p) == When(b.f7wn <= b.f7wo, ProRata(b, p))
  {
    var q := Quotient(p.taux * p.seuil * b.f7wn, Divisor(b.f7wo));
    assert Divisor(b.f7wo) == b.f7wo;
    assert ProRata(b, p) == q;
    ProRataNonNegative(p.taux, p.seuil, b.f7wn, b.f7wo, q);
    if b.f7wn == b.f7wo {
      assert Min(b.f7wn, p.seuil) == p.seuil;
      ProRataOfTotal(p.taux, p.seuil, b.f7wo);
      assert WithoutCapital(b, p) == p.taux * p.seuil + 0.0 + Max(0.0, 0.0);
    } else if b.f7wn < b.f7wo {
      assert WithoutCapital(b, p) == 0.0 + 0.0 + Max(0.0, q);
    } else {
      assert WithoutCapital(b, p) == 0.0 + 0.0 + Max(0.0, 0.0);
    }
  }

  lemma WithinCeilingWithoutCapital(b: Boxes, p: Params)
    requires b.NonNegative() && p.Valid() && b.f7wo <= p.seuil
    ensures WithoutCapital(b, p) == When(b.f7wn <= b.f7wo, ProRata(b, p))
  {
    assert ProRata(b, p) == p.taux * b.f7wn;
    if b.f7wn == b.f7wo {
      assert Min(b.f7wn, p.seuil) == b.f7wn;
      assert WithoutCapital(b, p) == p.taux * b.f7wn + 0.0 + Max(0.0, 0.0);
    } else if b.f7wn < b.f7wo {
      assert WithoutCapital(b, p) == 0.0 + p.taux * b.f7wn + Max(0.0, 0.0);
    } else {
      assert WithoutCapital(b, p) == 0.0 + 0.0 + Max(0.0, 0.0);
    }
  }

  lemma RuleWithCapital(b: Boxes, p: Params)
    requires b.NonNegative() && p.Valid() && b.f7wm != 0.0
    ensures WithCapital(b, p) == When(b.f7wm <= b.f7wn, ProRata(b, p))
  {
    var div := Divisor(b.f7wo);
    var q := Quotient(p.taux * p.seuil * b.f7wn, div);
    if b.f7wo > p.seuil {
      assert div == b.f7wo;
      assert ProRata(b, p) == q;
      ProRataNonNegative(p.taux, p.seuil, b.f7wn, b.f7wo, q);
      if b.f7wn == b.f7wm {
        assert WithCapital(b, p) == 0.0 + Max(0.0, q) + 0.0 + Max(0.0, 0.0);
      } else if b.f7wn > b.f7wm {
        assert WithCapital(b, p) == 0.0 + Max(0.0, 0.0) + 0.0 + Max(0.0, q);
      } else {
        assert WithCapital(b, p) == 0.0 + Max(0.0, 0.0) + 0.0 + Max(0.0, 0.0);
      }
    } else {
      assert ProRata(b, p) == p.taux * b.f7wn;
      if b.f7wn == b.f7wm {
        assert WithCapital(b, p) == p.taux * b.f7wn + Max(0.0, 0.0) + 0.0 + Max(0.0, 0.0);
      } else if b.f7wn > b.f7wm {
        assert WithCapital(b, p) == 0.0 + Max(0.0, 0.0) + p.taux * b.f7wn + Max(0.0, 0.0);
      } else {
        assert WithCapital(b, p) == 0.0 + Max(0.0, 0.0) + 0.0 + Max(0.0, 0.0);
      }
    }
  }

  /** The share `seuil * x / wo` of a non-negative amount is non-negative and, below `x`, at most the amount. */
  lemma ProRataNonNegative(t: real, s: real, x: real, wo: real, r: real)
    requires 0.0 <= t && 0.0 <= s < wo && 0.0 <= x
    requires r == Quotient(t * s * x, wo)
    ensures 0.0 <= r <= t * x
  {
    assert r == (t * s * x) / wo;
    assert 0.0 <= t * x;
    assert r * wo == t * s * x;
    assert t * s * x <= t * x * wo by {
      assert t * x * wo - t * s * x == (t * x) * (wo - s);
    }
  }

  /** When the amount paid is the whole total, its share is the ceiling. */
  lemma ProRataOfTotal(t: real, s: real, wo: real)
    requires 0.0 <= s < wo
    ensures Quotient(t * s * wo, wo) == t * s
  {
    assert (t * s * wo) / wo == t * s;
  }

  /** The corrected reduction lies between 0 and the rate on the amount paid plus the carry-over. */
  lemma PrcompBounds(b: Boxes, p: Params)
    requires b.NonNegative() && p.Valid()
    ensures 0.0 <= Prcomp(b, p) <= p.taux * (b.f7wn + b.f7wp)
  {
    PrcompRule(b, p);
    RuleBounds(b, p, Prcomp(b, p));
  }

  lemma RuleBounds(b: Boxes, p: Params, r: real)
    requires b.NonNegative() && p.Valid()
    requires r == When(Counted(b), ProRata(b, p)) + p.taux * b.f7wp
    ensures 0.0 <= r <= p.taux * (b.f7wn + b.f7wp)
  {
    var pr := ProRata(b, p);
    if b.f7wo > p.seuil {
      ProRataNonNegative(p.taux, p.seuil, b.f7wn, b.f7wo, pr);
    } else {
      ScaledBase(p.taux, b.f7wn);
    }
    ScaledBase(p.taux, b.f7wp);
    Distributes(p.taux, b.f7wn, b.f7wp);
  }

  lemma Distributes(t: real, x: real, y: real)
    ensures t * (x + y) == t * x + t * y
  {
  }

  /** Within the ceiling a total paid in the year counts in full, whatever box 7WM holds. */
  lemma PrcompWithinCeiling(b: Boxes, p: Params)
    requires b.NonNegative() && p.Valid() && Counted(b) && b.f7wo <= p.seuil
    ensures Prcomp(b, p) == p.taux * b.f7wn + p.taux * b.f7wp
  {
    PrcompRule(b, p);
    RuleWithinCeiling(b, p, Prcomp(b, p));
  }

  lemma RuleWithinCeiling(b: Boxes, p: Params, r: real)
    requires Counted(b) && b.f7wo <= p.seuil
    requires r == When(Counted(b), ProRata(b, p)) + p.taux * b.f7wp
    ensures r == p.taux * b.f7wn + p.taux * b.f7wp
  {
  }

  /** Where 7WM is empty, or where the total is below the ceiling, the two versions agree. */
  lemma AsWrittenAgrees(b: Boxes, p: Params)
    requires b.f7wm == 0.0 || b.f7wo < p.seuil
    ensures PrcompAsWritten(b, p) == Prcomp(b, p)
  {
    if b.f7wm != 0.0 {
      assert WithCapitalAsWritten(b, p) == WithCapital(b, p);
    }
  }

  /** A judgement capital of 50, paid in full in the year, out of a total of 100 equal to the ceiling. */
  const AtCeiling := Boxes(50.0, 50.0, 100.0, 0.0)
  const Rate25 := Params(0.25, 100.0)

  /** At the ceiling the as-written form counts the amount twice: in full and again divided by the total. */
  lemma AsWrittenCountsTwiceAtCeiling()
    ensures PrcompAsWritten(AtCeiling, Rate25) == 12.625
    ensures Prcomp(AtCeiling, Rate25) == 12.5
  {
    var b, p := AtCeiling, Rate25;
    assert Divisor(b.f7wo) == 100.0;
    assert Quotient(p.taux * b.f7wm, 100.0) == 0.125;
    assert WithCapitalAsWritten(b, p) == 12.5 + 0.125;
    assert WithCapital(b, p) == 12.5;
  }

  /** A capital of 100, paid in full, out of a total of 200 over a ceiling of 100. */
  const OverCeiling := Boxes(100.0, 100.0, 200.0, 0.0)

  /** Over the ceiling the as-written form drops the factor `P.seuil` of the pro-rata share. */
  lemma AsWrittenDropsCeilingFactor()
    ensures PrcompAsWritten(OverCeiling, Rate25) == 0.125
    ensures Prcomp(OverCeiling, Rate25) == 12.5
  {
    var b, p := OverCeiling, Rate25;
    assert Divisor(b.f7wo) == 200.0;
    assert Quotient(p.taux * b.f7wm, 200.0) == 0.125;
    assert Quotient(p.taux * p.seuil * b.f7wm, 200.0) == 12.5;
    assert WithCapitalAsWritten(b, p) == 0.125;
    assert WithCapital(b, p) == 12.5;
  }
}
