/**
 * Two reductions for subscriptions to investment funds. `sofica` (film
 * financing companies, boxes 7GN and 7FN, from 2006) consumes one ceiling,
 * itself the smaller of a share of the net global income and `P.max`, first
 * with 7GN then with 7FN. `spfcpi` (innovation and local investment funds)
 * caps each box separately by `P.max`, doubled for a married or pacsed
 * household; the boxes counted grow from 2002 to 2013 and the 2014 form is 0.
 */
module Funds {
  import opened MinMax
  import opened Cascade
  import opened Dated

  /** `ir.reductions_impots.sofica` */
  datatype SoficaParams = SoficaParams(taux1: real, taux2: real, taux3: real, max: real)
  {
    predicate Valid() {
      0.0 <= taux1 <= 1.0 && 0.0 <= taux2 <= 1.0 && 0.0 <= taux3 <= 1.0 && 0.0 <= max
    }
  }

  /** `max0 = min_(P.taux1 * max_(rng, 0), P.max)`: the ceiling shared by 7GN and 7FN. */
  function SoficaCeiling(rng: real, p: SoficaParams): (r: real)
    ensures r <= p.max
    ensures p.Valid() ==> 0.0 <= r
  {
    ScaledWithin(p.taux1, Max(rng, 0.0));
    Min(p.taux1 * Max(rng, 0.0), p.max)
  }

  function Sofica(f7gn: real, f7fn: real, rng: real, p: SoficaParams): real {
    var max0 := SoficaCeiling(rng, p);
    var max1 := Max(max0 - f7gn, 0.0);
    p.taux2 * Min(f7gn, max0) + p.taux3 * Min(f7fn, max1)
  }

  function SoficaAt(d: Date, f7gn: real, f7fn: real, rng: real, p: SoficaParams): (r: Option<real>)
    ensures r.Some? <==> NotAfter(Date(2006, 1, 1), d)
  {
    if NotAfter(Date(2006, 1, 1), d) then Some(Sofica(f7gn, f7fn, rng, p)) else None
  }

  /** `sofica` is the two-box cascade of 7GN then 7FN under `max0`. */
  lemma SoficaIsCascade(f7gn: real, f7fn: real, rng: real, p: SoficaParams)
    ensures Sofica(f7gn, f7fn, rng, p) ==
            Weighted([p.taux2, p.taux3], Retained(SoficaCeiling(rng, p), [f7gn, f7fn]))
  {
    Cascade2(SoficaCeiling(rng, p), f7gn, f7fn, p.taux2, p.taux3);
  }

  /**
   * `max0 <= P.max`, the two retained bases `min_(f7gn, max0) + min_(f7fn, max1)`
   * add up to `min(max0, f7gn + f7fn)`, and the reduction lies between 0 and `max0`.
   */
  lemma SoficaBounds(f7gn: real, f7fn: real, rng: real, p: SoficaParams)
    requires 0.0 <= f7gn && 0.0 <= f7fn && p.Valid()
    ensures var max0 := SoficaCeiling(rng, p);
            0.0 <= max0 <= p.max &&
            Min(f7gn, max0) + Min(f7fn, Max(max0 - f7gn, 0.0)) == Min(max0, f7gn + f7fn) &&
            0.0 <= Sofica(f7gn, f7fn, rng, p) <= max0
  {
    var max0 := SoficaCeiling(rng, p);
    Retained2(max0, f7gn, f7fn);
    SoficaIsCascade(f7gn, f7fn, rng, p);
    CascadeBounds([p.taux2, p.taux3], max0, [f7gn, f7fn]);
    SumCons(f7fn, []);
    SumCons(f7gn, [f7fn]);
    assert [f7gn, f7fn] == [f7gn] + [f7fn];
  }

  /** A negative net global income leaves no ceiling, so no reduction. */
  lemma SoficaNeedsIncome(f7gn: real, f7fn: real, rng: real, p: SoficaParams)
    requires rng <= 0.0 && 0.0 <= f7gn && 0.0 <= f7fn && p.Valid()
    ensures Sofica(f7gn, f7fn, rng, p) == 0.0
  {
    assert Max(rng, 0.0) == 0.0;
    assert SoficaCeiling(rng, p) == 0.0;
  }

  /** `ir.reductions_impots.spfcpi` */
  datatype SpfcpiParams = SpfcpiParams(taux1: real, taux2: real, taux3: real, max: real)
  {
    predicate Valid() {
      0.0 <= taux1 <= 1.0 && 0.0 <= taux2 <= 1.0 && 0.0 <= taux3 <= 1.0 && 0.0 <= max
    }
  }

  datatype SpfcpiBoxes = SpfcpiBoxes(f7gq: real, f7fq: real, f7fm: real, f7fl: real)
  {
    predicate NonNegative() {
      0.0 <= f7gq && 0.0 <= f7fq && 0.0 <= f7fm && 0.0 <= f7fl
    }
  }

  datatype SpfcpiForm = Spfcpi2002 | Spfcpi2003 | Spfcpi2007 | Spfcpi2011 | Spfcpi2014

  const SpfcpiTable: seq<Variant<SpfcpiForm>> := [
    Variant(YearStart(2002), YearEnd(2002), Spfcpi2002),
    Variant(YearStart(2003), YearEnd(2006), Spfcpi2003),
    Variant(YearStart(2007), YearEnd(2010), Spfcpi2007),
    Variant(YearStart(2011), YearEnd(2013), Spfcpi2011),
    Variant(YearStart(2014), YearEnd(2014), Spfcpi2014)
  ]

  /** Each form, as written: every box is capped by `max1 = P.max * (marpac + 1)` on its own. */
  function Spfcpi(f: SpfcpiForm, marpac: bool, b: SpfcpiBoxes, p: SpfcpiParams): real {
    var max1 := TimesSpouses(p.max, marpac);
    match f
    case Spfcpi2002 => CappedShare(p.taux1, b.f7gq, max1)
    case Spfcpi2003 => CappedShare(p.taux1, b.f7gq, max1) + CappedShare(p.taux1, b.f7fq, max1)
    case Spfcpi2007 =>
      CappedShare(p.taux1, b.f7gq, max1) + CappedShare(p.taux1, b.f7fq, max1) +
      CappedShare(p.taux2, b.f7fm, max1)
    case Spfcpi2011 =>
      CappedShare(p.taux1, b.f7gq, max1) + CappedShare(p.taux1, b.f7fq, max1) +
      CappedShare(p.taux2, b.f7fm, max1) + CappedShare(p.taux3, b.f7fl, max1)
    case Spfcpi2014 => 0.0
  }

  /** The boxes a form counts, each of which is capped by `max1`. */
  function SpfcpiCounted(f: SpfcpiForm, b: SpfcpiBoxes): seq<real> {
    match f
    case Spfcpi2002 => [b.f7gq]
    case Spfcpi2003 => [b.f7gq, b.f7fq]
    case Spfcpi2007 => [b.f7gq, b.f7fq, b.f7fm]
    case Spfcpi2011 => [b.f7gq, b.f7fq, b.f7fm, b.f7fl]
    case Spfcpi2014 => []
  }

  function SpfcpiAt(d: Date, marpac: bool, b: SpfcpiBoxes, p: SpfcpiParams): Option<real> {
    match Select(SpfcpiTable, d)
    case None => None
    case Some(f) => Some(Spfcpi(f, marpac, b, p))
  }

  /**
   * Every form lies between 0 and the boxes it counts, and each counted box
   * contributes at most `max1`, so the whole is at most `|counted| * max1`.
   */
  lemma SpfcpiBounds(f: SpfcpiForm, marpac: bool, b: SpfcpiBoxes, p: SpfcpiParams)
    requires b.NonNegative() && p.Valid()
    ensures 0.0 <= Spfcpi(f, marpac, b, p) <= Sum(SpfcpiCounted(f, b))
    ensures Spfcpi(f, marpac, b, p) <= (|SpfcpiCounted(f, b)| as real) * TimesSpouses(p.max, marpac)
  {
    var c := SpfcpiCounted(f, b);
    match f {
      case Spfcpi2002 =>
        SumCons(b.f7gq, []);
      case Spfcpi2003 =>
        SumCons(b.f7fq, []);
        SumCons(b.f7gq, [b.f7fq]);
        assert c == [b.f7gq] + [b.f7fq];
      case Spfcpi2007 =>
        SumCons(b.f7fm, []);
        SumCons(b.f7fq, [b.f7fm]);
        SumCons(b.f7gq, [b.f7fq, b.f7fm]);
        assert c == [b.f7gq] + [b.f7fq, b.f7fm];
        assert [b.f7fq, b.f7fm] == [b.f7fq] + [b.f7fm];
      case Spfcpi2011 =>
        Sum4(c);
      case Spfcpi2014 =>
    }
  }

  /** Marriage or a civil partnership doubles every box's ceiling, so it never lowers `spfcpi`. */
  lemma SpfcpiCoupleNotLower(f: SpfcpiForm, b: SpfcpiBoxes, p: SpfcpiParams)
    requires p.Valid()
    ensures Spfcpi(f, false, b, p) <= Spfcpi(f, true, b, p)
  {
    var m := p.max;
    CappedShareMonotone(p.taux1, b.f7gq, m, 2.0 * m);
    CappedShareMonotone(p.taux1, b.f7fq, m, 2.0 * m);
    CappedShareMonotone(p.taux2, b.f7fm, m, 2.0 * m);
    CappedShareMonotone(p.taux3, b.f7fl, m, 2.0 * m);
  }

  /** On every day of 2014 the reduction is 0, whatever the boxes. */
  lemma Spfcpi2014Zero(d: Date, marpac: bool, b: SpfcpiBoxes, p: SpfcpiParams)
    requires ValidDate(d) && d.year == 2014
    ensures SpfcpiAt(d, marpac, b, p) == Some(0.0)
  {
    assert Covers(SpfcpiTable[4], d);
  }

  lemma SpfcpiTableContiguous()
    ensures Contiguous(SpfcpiTable)
    ensures SpfcpiTable[0].start == Date(2002, 1, 1) && SpfcpiTable[|SpfcpiTable| - 1].stop == Date(2014, 12, 31)
  {
    ByYearsContiguous(SpfcpiTable);
  }
}
