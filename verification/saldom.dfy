/**
 * `saldom`: the reduction for employing someone at home (box 7DF). The
 * ceiling depends on the household: a base amount raised per dependant
 * (`P.pac` for each child of box 7DL and for each share of `nb_pac2`,
 * where a child in alternating residence counts for one half) up
 * to a "ceiling of the ceiling", or `P.max3` when a member is disabled (box
 * 7DG). From 2007 on, the amounts of box 7DB (which give a tax credit)
 * consume the same ceiling first; from 2009 a first year of employment
 * (box 7DQ) has its own base and top amounts.
 */
module Saldom {
  import opened MinMax
  import opened Cascade
  import opened Dated

  datatype Household = Household(f7db: real, f7df: real, f7dg: bool, f7dl: nat, f7dq: bool, nbPac2: real)
  {
    predicate NonNegative() { 0.0 <= f7db && 0.0 <= f7df && 0.0 <= nbPac2 }

    /** `nbpacmin = nb_pac2 + f7dl`: the dependants that raise the ceiling, half shares included. */
    function Dependants(): real { nbPac2 + f7dl as real }
  }

  /** `ir.reductions_impots.saldom` */
  datatype Params = Params(taux: real, max1: real, max2: real, max3: real, pac: real,
                           max1FirstYear: real, max2FirstYear: real)
  {
    predicate Valid() {
      0.0 <= taux <= 1.0 && 0.0 <= max1 && 0.0 <= max2 && 0.0 <= max3 && 0.0 <= pac &&
      0.0 <= max1FirstYear && 0.0 <= max2FirstYear
    }
  }

  datatype Form = Saldom2002 | Saldom2005 | Saldom2007 | Saldom2009

  const Table: seq<Variant<Form>> := [
    Variant(YearStart(2002), YearEnd(2004), Saldom2002),
    Variant(YearStart(2005), YearEnd(2006), Saldom2005),
    Variant(YearStart(2007), YearEnd(2008), Saldom2007),
    Variant(YearStart(2009), YearEnd(2013), Saldom2009)
  ]

  /** `min_(maxBase + P.pac * nbpacmin, maxDuMaxNonInv)`: the ceiling without disability. */
  function NonDisabledCeiling(maxBase: real, maxOfMax: real, h: Household, p: Params): (r: real)
    ensures r <= maxOfMax
    ensures r <= maxBase + p.pac * h.Dependants()
    ensures r == maxOfMax || r == maxBase + p.pac * h.Dependants()
    ensures 0.0 <= maxBase && 0.0 <= maxOfMax && 0.0 <= p.pac && 0.0 <= h.nbPac2 ==> 0.0 <= r
  {
    ScaledMonotoneWhen(p.pac, 0.0, h.Dependants());
    Min(maxBase + p.pac * h.Dependants(), maxOfMax)
  }

  /** `maxEffectif`: the ceiling of a form before box 7DB is deducted. */
  function EffectiveCeiling(f: Form, h: Household, p: Params): (r: real)
    ensures h.f7dg ==> r == p.max3
    ensures p.Valid() && 0.0 <= h.nbPac2 ==> 0.0 <= r
  {
    if h.f7dg then p.max3
    else
      match f
      case Saldom2002 => p.max1
      case Saldom2005 => NonDisabledCeiling(p.max1, p.max2, h, p)
      case Saldom2007 => NonDisabledCeiling(p.max1, p.max2, h, p)
      case Saldom2009 =>
        var maxBase := if h.f7dq then p.max1FirstYear else p.max1;
        var maxOfMax := if h.f7dq then p.max2FirstYear else p.max2;
        NonDisabledCeiling(maxBase, maxOfMax, h, p)
  }

  /** `max1 = maxEffectif - min_(f7db, maxEffectif)` from 2007, `maxEffectif` before. */
  function CeilingLeft(f: Form, h: Household, p: Params): real {
    var m := EffectiveCeiling(f, h, p);
    match f
    case Saldom2002 => m
    case Saldom2005 => m
    case _ => m - Min(h.f7db, m)
  }

  /** `P.taux * min_(f7df, max1)` */
  function Reduction(f: Form, h: Household, p: Params): real {
    p.taux * Min(h.f7df, CeilingLeft(f, h, p))
  }

  /** Whatever the year, `saldom` lies between 0 and `P.taux * maxEffectif`. */
  lemma ReductionBounds(f: Form, h: Household, p: Params)
    requires h.NonNegative() && p.Valid()
    ensures 0.0 <= Reduction(f, h, p) <= p.taux * EffectiveCeiling(f, h, p)
  {
    LeftWithinCeiling(f, h, p);
    RateOfLeft(p.taux, h.f7df, CeilingLeft(f, h, p), EffectiveCeiling(f, h, p), Reduction(f, h, p));
  }

  /** `max1` lies in [0, maxEffectif], and from 2007 it is `max_(maxEffectif - f7db, 0)`. */
  lemma LeftWithinCeiling(f: Form, h: Household, p: Params)
    requires h.NonNegative() && p.Valid()
    ensures 0.0 <= CeilingLeft(f, h, p) <= EffectiveCeiling(f, h, p)
    ensures f == Saldom2007 || f == Saldom2009 ==>
              CeilingLeft(f, h, p) == Max(EffectiveCeiling(f, h, p) - h.f7db, 0.0)
  {
    var m := EffectiveCeiling(f, h, p);
    if f == Saldom2007 || f == Saldom2009 {
      assert CeilingLeft(f, h, p) == m - Min(h.f7db, m);
      WhatIsLeft(m, h.f7db, h.f7df);
    }
  }

  function SaldomAt(d: Date, h: Household, p: Params): Option<real> {
    match Select(Table, d)
    case None => None
    case Some(f) => Some(Reduction(f, h, p))
  }

  /**
   * From 2007, `max1` lies in [0, maxEffectif]: it is what box 7DB leaves of
   * the ceiling, and the bases of 7DB and 7DF together stay within
   * `maxEffectif`.
   */
  lemma CeilingShared(f: Form, h: Household, p: Params)
    requires f == Saldom2007 || f == Saldom2009
    requires h.NonNegative() && p.Valid()
    ensures var m := EffectiveCeiling(f, h, p);
            0.0 <= CeilingLeft(f, h, p) <= m &&
            CeilingLeft(f, h, p) == Max(m - h.f7db, 0.0) &&
            Min(h.f7db, m) + Min(h.f7df, CeilingLeft(f, h, p)) <= m
  {
    var m := EffectiveCeiling(f, h, p);
    assert CeilingLeft(f, h, p) == m - Min(h.f7db, m);
    WhatIsLeft(m, h.f7db, h.f7df);
  }

  /** A rate in [0, 1] on an amount capped by what is left of `m` gives at most `rate * m`. */
  lemma RateOfLeft(rate: real, y: real, left: real, m: real, r: real)
    requires 0.0 <= rate <= 1.0 && 0.0 <= y && 0.0 <= left <= m
    requires r == rate * Min(y, left)
    ensures 0.0 <= r <= rate * m
  {
    ScaledMonotone(rate, Min(y, left), m);
    ScaledBase(rate, Min(y, left));
  }

  /** What a first amount `x` leaves of a ceiling `m`, and what a second amount `y` can then use. */
  lemma WhatIsLeft(m: real, x: real, y: real)
    requires 0.0 <= m && 0.0 <= x && 0.0 <= y
    ensures var left := m - Min(x, m);
            0.0 <= left <= m && left == Max(m - x, 0.0) && Min(x, m) + Min(y, left) <= m
  {
  }

  /** Before 2007 box 7DB plays no part. */
  lemma EarlyFormsIgnoreTaxCredit(f: Form, h: Household, p: Params, f7db: real)
    requires f == Saldom2002 || f == Saldom2005
    ensures Reduction(f, h, p) == Reduction(f, h.(f7db := f7db), p)
  {
    var h' := h.(f7db := f7db);
    assert EffectiveCeiling(f, h, p) == EffectiveCeiling(f, h', p);
    assert CeilingLeft(f, h, p) == CeilingLeft(f, h', p);
  }

  /** Without disability the ceiling never exceeds the form's top amount `maxDuMaxNonInv`. */
  lemma CeilingWithinTop(f: Form, h: Household, p: Params)
    requires !h.f7dg && f != Saldom2002
    ensures EffectiveCeiling(f, h, p) <= (if f == Saldom2009 && h.f7dq then p.max2FirstYear else p.max2)
  {
  }

  /** One more child in box 7DL never lowers the ceiling. */
  lemma CeilingGrowsWithDependants(f: Form, h: Household, p: Params)
    requires p.Valid()
    ensures EffectiveCeiling(f, h, p) <= EffectiveCeiling(f, h.(f7dl := h.f7dl + 1), p)
  {
    DependantsRaise(f, h, h.(f7dl := h.f7dl + 1), p);
  }

  /** A larger `nb_pac2`, by a whole dependant or by a half share, never lowers the ceiling. */
  lemma CeilingGrowsWithShares(f: Form, h: Household, p: Params, nbPac2: real)
    requires p.Valid() && h.nbPac2 <= nbPac2
    ensures EffectiveCeiling(f, h, p) <= EffectiveCeiling(f, h.(nbPac2 := nbPac2), p)
  {
    DependantsRaise(f, h, h.(nbPac2 := nbPac2), p);
  }

  /** Two households that differ only in their dependants: more dependants, a ceiling at least as high. */
  lemma DependantsRaise(f: Form, h: Household, h': Household, p: Params)
    requires p.Valid() && h.Dependants() <= h'.Dependants()
    requires h' == h.(f7dl := h'.f7dl, nbPac2 := h'.nbPac2)
    ensures EffectiveCeiling(f, h, p) <= EffectiveCeiling(f, h', p)
  {
    if !h.f7dg && f != Saldom2002 {
      var maxBase := if f == Saldom2009 && h.f7dq then p.max1FirstYear else p.max1;
      var maxOfMax := if f == Saldom2009 && h.f7dq then p.max2FirstYear else p.max2;
      NonDisabledMonotone(maxBase, maxOfMax, h, h', p);
    }
  }

  /** The ceiling without disability grows with the number of dependants. */
  lemma NonDisabledMonotone(maxBase: real, maxOfMax: real, h: Household, h': Household, p: Params)
    requires 0.0 <= p.pac && h.Dependants() <= h'.Dependants()
    ensures NonDisabledCeiling(maxBase, maxOfMax, h, p) <= NonDisabledCeiling(maxBase, maxOfMax, h', p)
  {
    ScaledMonotone(p.pac, h.Dependants(), h'.Dependants());
  }

  /** Half a share of `nb_pac2`, for a child in alternating residence, raises the ceiling by half of `P.pac`. */
  lemma HalfShare(maxBase: real, maxOfMax: real, h: Household, p: Params)
    requires 0.0 <= p.pac && maxBase + p.pac * (h.Dependants() + 0.5) <= maxOfMax
    ensures NonDisabledCeiling(maxBase, maxOfMax, h.(nbPac2 := h.nbPac2 + 0.5), p) ==
            NonDisabledCeiling(maxBase, maxOfMax, h, p) + p.pac / 2.0
  {
    var h' := h.(nbPac2 := h.nbPac2 + 0.5);
    assert h'.Dependants() == h.Dependants() + 0.5;
    assert p.pac * (h.Dependants() + 0.5) == p.pac * h.Dependants() + p.pac / 2.0;
    ScaledMonotone(p.pac, h.Dependants(), h'.Dependants());
  }

  lemma TableContiguous()
    ensures Contiguous(Table)
    ensures Table[0].start == Date(2002, 1, 1) && Table[|Table| - 1].stop == Date(2013, 12, 31)
  {
    ByYearsContiguous(Table);
  }
}
