/**
 * `cappme`: the reduction for subscriptions to the capital of small and
 * medium firms. Until 2010 one rate applies to the subscribed boxes, capped
 * by `P.seuil` per spouse (by `P.seuil_tpe` per spouse from 2009 when box 7CU
 * is filled). In 2011 the boxes split into two buckets sharing one ceiling,
 * and the larger rated bucket is kept. In 2012 and 2013 each bucket has its
 * own rate and the very-small-firm boxes share what the others leave of the
 * `P.seuil_tpe` ceiling.
 */
module Cappme {
  import opened MinMax
  import opened Cascade
  import opened Dated

  datatype Boxes = Boxes(f7cc: real, f7cf: real, f7cl: real, f7cm: real, f7cn: real, f7cq: real, f7cu: real)
  {
    predicate NonNegative() {
      0.0 <= f7cc && 0.0 <= f7cf && 0.0 <= f7cl && 0.0 <= f7cm && 0.0 <= f7cn && 0.0 <= f7cq && 0.0 <= f7cu
    }
  }

  /** `ir.reductions_impots.cappme` */
  datatype Params = Params(taux: real, taux18: real, taux22: real, taux25: real, seuil: real, seuilTpe: real)
  {
    predicate Valid() {
      0.0 <= taux <= 1.0 && 0.0 <= taux18 <= 1.0 && 0.0 <= taux22 <= 1.0 && 0.0 <= taux25 <= 1.0 &&
      0.0 <= seuil && 0.0 <= seuilTpe
    }
  }

  datatype Form = Cappme2002 | Cappme2003 | Cappme2004 | Cappme2005 | Cappme2009 | Cappme2011 | Cappme2012 | Cappme2013

  const Table: seq<Variant<Form>> := [
    Variant(YearStart(2002), YearEnd(2002), Cappme2002),
    Variant(YearStart(2003), YearEnd(2003), Cappme2003),
    Variant(YearStart(2004), YearEnd(2004), Cappme2004),
    Variant(YearStart(2005), YearEnd(2008), Cappme2005),
    Variant(YearStart(2009), YearEnd(2010), Cappme2009),
    Variant(YearStart(2011), YearEnd(2011), Cappme2011),
    Variant(YearStart(2012), YearEnd(2012), Cappme2012),
    Variant(YearStart(2013), YearEnd(2013), Cappme2013)
  ]

  /** The boxes the forms up to 2010 add up into `base`. */
  function EarlyBase(f: Form, b: Boxes): real {
    match f
    case Cappme2002 => b.f7cf
    case Cappme2003 => b.f7cf + b.f7cl
    case Cappme2004 => b.f7cf + b.f7cl + b.f7cm
    case Cappme2005 => b.f7cf + b.f7cl + b.f7cm + b.f7cn
    case _ => b.f7cf + b.f7cl + b.f7cm + b.f7cn + b.f7cu
  }

  /**
   * `P.seuil_tpe * (marpac + 1) * (f7cu > 0) + P.seuil * (marpac + 1) * (f7cu <= 0)`:
   * the ceiling of 2009 to 2011, which a subscription to a very small firm raises.
   */
  function TpeAwareCeiling(marpac: bool, b: Boxes, p: Params): (r: real)
    ensures b.f7cu > 0.0 ==> r == TimesSpouses(p.seuilTpe, marpac)
    ensures b.f7cu <= 0.0 ==> r == TimesSpouses(p.seuil, marpac)
  {
    (if b.f7cu > 0.0 then TimesSpouses(p.seuilTpe, marpac) else 0.0) +
    (if b.f7cu <= 0.0 then TimesSpouses(p.seuil, marpac) else 0.0)
  }

  /** The ceiling of the forms up to 2010. */
  function EarlyCeiling(f: Form, marpac: bool, b: Boxes, p: Params): real {
    if f == Cappme2009 then TpeAwareCeiling(marpac, b, p) else TimesSpouses(p.seuil, marpac)
  }

  /**
   * 2011: `max_(P.taux25 * min_(base, seuil), P.taux * min_(max0, f7cf + f7cu))`
   * with `max0 = max_(seuil - base, 0)`: the larger of two rated buckets, the
   * second using what the first leaves of the ceiling.
   */
  function Buckets(seuil: real, base: real, other: real, t0: real, t1: real): real {
    var max0 := Max(seuil - base, 0.0);
    Max(t0 * Min(base, seuil), t1 * Min(max0, other))
  }

  function Cappme2011Of(marpac: bool, b: Boxes, p: Params): real {
    Buckets(TpeAwareCeiling(marpac, b, p), b.f7cl + b.f7cm + b.f7cn + b.f7cq, b.f7cf + b.f7cu, p.taux25, p.taux)
  }

  /** `t0 * b0 + t1 * b1 + t2 * b2`: three rated bases. */
  function RatedSum(t0: real, t1: real, t2: real, b0: real, b1: real, b2: real): (r: real)
    ensures 0.0 <= t0 && 0.0 <= t1 && 0.0 <= t2 && 0.0 <= b0 && 0.0 <= b1 && 0.0 <= b2 ==> 0.0 <= r
  {
    t0 * b0 + t1 * b1 + t2 * b2
  }

  /**
   * 2012, as written, the three rated bases
   * `P.taux25 * min_(base, seuil1) + P.taux * min_(f7cq, seuil1) + P.taux18 * (...)`:
   * `base` and 7CQ capped by `seuil1`, then 7CF by
   * `seuil3 = min_(tpe - min_(base, seuil1) - min_(f7cq, seuil1), seuil1)` and
   * 7CU by `mini(f7cu, seuil2, seuil1)`, the nested minimum by `MinMax.MiniThree`, with
   * `seuil2 = max_(0, tpe - min_(base, seuil1) - min_(f7cq, seuil1) - min_(f7cu, seuil1))`.
   */
  function Tpe2012(base: real, cq: real, cf: real, cu: real, seuil1: real, tpe: real, p: Params): real {
    var seuil2 := Max(tpe - Min(base, seuil1) - Min(cq, seuil1) - Min(cu, seuil1), 0.0);
    var seuil3 := Min(tpe - Min(base, seuil1) - Min(cq, seuil1), seuil1);
    RatedSum(p.taux25, p.taux, p.taux18, Min(base, seuil1), Min(cq, seuil1), Min(cf, seuil3) + Min(cu, Min(seuil2, seuil1)))
  }

  function Cappme2012Of(marpac: bool, b: Boxes, p: Params): real {
    Tpe2012(b.f7cl + b.f7cm + b.f7cn, b.f7cq, b.f7cf, b.f7cu,
            TimesSpouses(p.seuil, marpac), TimesSpouses(p.seuilTpe, marpac), p)
  }

  /**
   * 2013, as written, with rates `P.taux25`, `P.taux22` and `P.taux18`: `seuil2` deducts 7CN and `seuil3` deducts 7CQ; 7CF + 7CC
   * are capped by `seuil3` and 7CU + 7CQ by `seuil2`.
   */
  function Tpe2013(base: real, cn: real, cq: real, cfcc: real, cu: real, seuil1: real, tpe: real, p: Params): real {
    var seuil2 := Max(tpe - Min(base, seuil1) - Min(cn, seuil1) - Min(cu, seuil1), 0.0);
    var seuil3 := Min(tpe - Min(base, seuil1) - Min(cq, seuil1), seuil1);
    RatedSum(p.taux25, p.taux22, p.taux18, Min(base, seuil1), Min(cn, seuil1), Min(cfcc, seuil3) + Min(cu + cq, seuil2))
  }

  function Cappme2013Of(marpac: bool, b: Boxes, p: Params): real {
    Tpe2013(b.f7cl + b.f7cm, b.f7cn, b.f7cq, b.f7cf + b.f7cc, b.f7cu,
            TimesSpouses(p.seuil, marpac), TimesSpouses(p.seuilTpe, marpac), p)
  }

  function Apply(f: Form, marpac: bool, b: Boxes, p: Params): real {
    match f
    case Cappme2011 => Cappme2011Of(marpac, b, p)
    case Cappme2012 => Cappme2012Of(marpac, b, p)
    case Cappme2013 => Cappme2013Of(marpac, b, p)
    case _ => CappedShare(p.taux, EarlyBase(f, b), EarlyCeiling(f, marpac, b, p))
  }

  function CappmeAt(d: Date, marpac: bool, b: Boxes, p: Params): Option<real> {
    match Select(Table, d)
    case None => None
    case Some(f) => Some(Apply(f, marpac, b, p))
  }

  predicate IsEarly(f: Form) {
    f != Cappme2011 && f != Cappme2012 && f != Cappme2013
  }

  /** Up to 2010 the reduction is between 0 and `P.taux` times the ceiling, and at most the base. */
  lemma EarlyBounds(f: Form, marpac: bool, b: Boxes, p: Params)
    requires IsEarly(f) && b.NonNegative() && p.Valid()
    ensures 0.0 <= Apply(f, marpac, b, p) <= p.taux * EarlyCeiling(f, marpac, b, p)
    ensures Apply(f, marpac, b, p) <= EarlyBase(f, b)
  {
    assert 0.0 <= EarlyCeiling(f, marpac, b, p);
  }

  /** From 2002 to 2008 each form counts the boxes of the one before and more, so it never gives less. */
  lemma EarlyFormsGrow(marpac: bool, b: Boxes, p: Params)
    requires b.NonNegative() && 0.0 <= p.taux
    ensures Apply(Cappme2002, marpac, b, p) <= Apply(Cappme2003, marpac, b, p)
    ensures Apply(Cappme2003, marpac, b, p) <= Apply(Cappme2004, marpac, b, p)
    ensures Apply(Cappme2004, marpac, b, p) <= Apply(Cappme2005, marpac, b, p)
  {
    var s := TimesSpouses(p.seuil, marpac);
    CappedShareGrows(p.taux, EarlyBase(Cappme2002, b), EarlyBase(Cappme2003, b), s);
    CappedShareGrows(p.taux, EarlyBase(Cappme2003, b), EarlyBase(Cappme2004, b), s);
    CappedShareGrows(p.taux, EarlyBase(Cappme2004, b), EarlyBase(Cappme2005, b), s);
  }

  /**
   * In 2011 the two buckets share the ceiling: what the first keeps and what
   * it leaves for the second add up to `min(seuil, all boxes)`, and the
   * reduction, the larger of the two rated buckets, lies between 0 and the ceiling.
   */
  lemma BucketsShareCeiling(seuil: real, base: real, other: real, t0: real, t1: real)
    requires 0.0 <= seuil && 0.0 <= base && 0.0 <= other && 0.0 <= t0 <= 1.0 && 0.0 <= t1 <= 1.0
    ensures Min(base, seuil) + Min(Max(seuil - base, 0.0), other) == Min(seuil, base + other)
    ensures 0.0 <= Buckets(seuil, base, other, t0, t1) <= seuil
  {
    var max0 := Max(seuil - base, 0.0);
    Retained2(seuil, base, other);
    assert Min(max0, other) <= seuil;
    LargerRated(t0, Min(base, seuil), t1, Min(max0, other), seuil, Buckets(seuil, base, other, t0, t1));
  }

  /** The larger of two rated amounts, each within `c`, is within `c`. */
  lemma LargerRated(t0: real, x0: real, t1: real, x1: real, c: real, r: real)
    requires 0.0 <= t0 <= 1.0 && 0.0 <= t1 <= 1.0 && 0.0 <= x0 <= c && 0.0 <= x1 <= c
    requires r == Max(t0 * x0, t1 * x1)
    ensures 0.0 <= r <= c
  {
    RatedWithin(t0, x0, c, t0 * x0);
    RatedWithin(t1, x1, c, t1 * x1);
  }

  /** A rate in [0, 1] on an amount within `c` stays within `c`. */
  lemma RatedWithin(t: real, x: real, c: real, r: real)
    requires 0.0 <= t <= 1.0 && 0.0 <= x <= c && r == t * x
    ensures 0.0 <= r <= c
  {
    ScaledBase(t, x);
  }

  lemma Bounds2011(marpac: bool, b: Boxes, p: Params)
    requires b.NonNegative() && p.Valid()
    ensures 0.0 <= Apply(Cappme2011, marpac, b, p) <= TpeAwareCeiling(marpac, b, p)
  {
    assert 0.0 <= TpeAwareCeiling(marpac, b, p);
    BucketsShareCeiling(TpeAwareCeiling(marpac, b, p), b.f7cl + b.f7cm + b.f7cn + b.f7cq, b.f7cf + b.f7cu,
                        p.taux25, p.taux);
  }

  /**
   * In 2012 and 2013 the ceiling `seuil3` left to box 7CF lies in [0, seuil1]
   * when the `P.seuil_tpe` ceiling `tpe` is at least twice `seuil1`, as the
   * legislation's amounts are, and the bases it caps stay within `tpe`.
   */
  lemma TpeCeilings(base: real, cq: real, cf: real, seuil1: real, tpe: real)
    requires 0.0 <= base && 0.0 <= cq && 0.0 <= cf && 0.0 <= seuil1 && 2.0 * seuil1 <= tpe
    ensures var seuil3 := Min(tpe - Min(base, seuil1) - Min(cq, seuil1), seuil1);
            0.0 <= seuil3 <= seuil1 &&
            Min(base, seuil1) + Min(cq, seuil1) + Min(cf, seuil3) <= tpe
  {
  }

  /** Under that condition the 2012 reduction is not negative. */
  lemma NonNegative2012(base: real, cq: real, cf: real, cu: real, seuil1: real, tpe: real, p: Params)
    requires 0.0 <= base && 0.0 <= cq && 0.0 <= cf && 0.0 <= cu && p.Valid()
    requires 0.0 <= seuil1 && 2.0 * seuil1 <= tpe
    ensures 0.0 <= Tpe2012(base, cq, cf, cu, seuil1, tpe, p)
  {
    var seuil2 := Max(tpe - Min(base, seuil1) - Min(cq, seuil1) - Min(cu, seuil1), 0.0);
    var seuil3 := Min(tpe - Min(base, seuil1) - Min(cq, seuil1), seuil1);
    TpeCeilings(base, cq, cf, seuil1, tpe);
    var last := Min(cf, seuil3) + Min(cu, Min(seuil2, seuil1));
    assert 0.0 <= last;
  }

  /** Under the same condition the 2013 reduction is not negative. */
  lemma NonNegative2013(base: real, cn: real, cq: real, cfcc: real, cu: real, seuil1: real, tpe: real, p: Params)
    requires 0.0 <= base && 0.0 <= cn && 0.0 <= cq && 0.0 <= cfcc && 0.0 <= cu && p.Valid()
    requires 0.0 <= seuil1 && 2.0 * seuil1 <= tpe
    ensures 0.0 <= Tpe2013(base, cn, cq, cfcc, cu, seuil1, tpe, p)
  {
    var seuil2 := Max(tpe - Min(base, seuil1) - Min(cn, seuil1) - Min(cu, seuil1), 0.0);
    var seuil3 := Min(tpe - Min(base, seuil1) - Min(cq, seuil1), seuil1);
    TpeCeilings(base, cq, cfcc, seuil1, tpe);
    var last := Min(cfcc, seuil3) + Min(cu + cq, seuil2);
    assert 0.0 <= last;
  }

  /** The 2011 to 2013 forms are not negative (2012 and 2013 under the ceiling condition). */
  lemma LateFormsNonNegative(f: Form, marpac: bool, b: Boxes, p: Params)
    requires !IsEarly(f) && b.NonNegative() && p.Valid() && 2.0 * p.seuil <= p.seuilTpe
    ensures 0.0 <= Apply(f, marpac, b, p)
  {
    match f {
      case Cappme2011 => Bounds2011(marpac, b, p);
      case Cappme2012 => Of2012NonNegative(marpac, b, p);
      case Cappme2013 => Of2013NonNegative(marpac, b, p);
    }
  }

  lemma Of2012NonNegative(marpac: bool, b: Boxes, p: Params)
    requires b.NonNegative() && p.Valid() && 2.0 * p.seuil <= p.seuilTpe
    ensures 0.0 <= Cappme2012Of(marpac, b, p)
  {
    NonNegative2012(b.f7cl + b.f7cm + b.f7cn, b.f7cq, b.f7cf, b.f7cu,
                    TimesSpouses(p.seuil, marpac), TimesSpouses(p.seuilTpe, marpac), p);
  }

  lemma Of2013NonNegative(marpac: bool, b: Boxes, p: Params)
    requires b.NonNegative() && p.Valid() && 2.0 * p.seuil <= p.seuilTpe
    ensures 0.0 <= Cappme2013Of(marpac, b, p)
  {
    NonNegative2013(b.f7cl + b.f7cm, b.f7cn, b.f7cq, b.f7cf + b.f7cc, b.f7cu,
                    TimesSpouses(p.seuil, marpac), TimesSpouses(p.seuilTpe, marpac), p);
  }

  /**
   * Without that condition the 2012 formula can go below 0: with a zero
   * `P.seuil_tpe`, `seuil3` is negative and `min_(f7cf, seuil3)` subtracts.
   */
  lemma Cappme2012NeedsLargeTpeCeiling()
    ensures Apply(Cappme2012, false, Boxes(0.0, 0.0, 10.0, 0.0, 0.0, 10.0, 0.0),
                  Params(0.0, 0.5, 0.0, 0.0, 10.0, 0.0)) < 0.0
  {
    var b := Boxes(0.0, 0.0, 10.0, 0.0, 0.0, 10.0, 0.0);
    var p := Params(0.0, 0.5, 0.0, 0.0, 10.0, 0.0);
    var seuil3 := Min(0.0 - Min(10.0, 10.0) - Min(10.0, 10.0), 10.0);
    assert seuil3 == -20.0;
    var seuil2 := Max(0.0 - 10.0 - 10.0 - Min(0.0, 10.0), 0.0);
    assert seuil2 == 0.0;
    assert Apply(Cappme2012, false, b, p) == 0.5 * (-20.0 + 0.0);
  }

  lemma TableContiguous()
    ensures Contiguous(Table)
    ensures Table[0].start == Date(2002, 1, 1) && Table[|Table| - 1].stop == Date(2013, 12, 31)
  {
    ByYearsContiguous(Table);
  }
}
