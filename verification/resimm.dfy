/**
 * `resimm`: the reduction for property restoration works (boxes 7RA to 7RF,
 * 7SX and 7SY). Every form consumes the single ceiling `P.max` box by box,
 * each box with its own rate.
 */
module Resimm {
  import opened MinMax
  import opened Cascade
  import opened Dated

  datatype Boxes = Boxes(f7ra: real, f7rb: real, f7rc: real, f7rd: real,
                         f7re: real, f7rf: real, f7sx: real, f7sy: real)
  {
    predicate NonNegative() {
      0.0 <= f7ra && 0.0 <= f7rb && 0.0 <= f7rc && 0.0 <= f7rd &&
      0.0 <= f7re && 0.0 <= f7rf && 0.0 <= f7sx && 0.0 <= f7sy
    }
  }

  /** `ir.reductions_impots.resimm` */
  datatype Params = Params(max: real, tauxRa: real, tauxRb: real, tauxRc: real,
                           tauxRd: real, tauxRe: real)
  {
    predicate Valid() {
      0.0 <= max &&
      0.0 <= tauxRa <= 1.0 && 0.0 <= tauxRb <= 1.0 && 0.0 <= tauxRc <= 1.0 &&
      0.0 <= tauxRd <= 1.0 && 0.0 <= tauxRe <= 1.0
    }
  }

  function Resimm2009(b: Boxes, p: Params): real {
    var max1 := p.max;
    var max2 := Max(max1 - b.f7rb, 0.0);
    p.tauxRb * Min(b.f7rb, max1) + p.tauxRa * Min(b.f7ra, max2)
  }

  function Resimm2011(b: Boxes, p: Params): real {
    var max1 := p.max;
    var max2 := Max(max1 - b.f7rd, 0.0);
    var max3 := Max(max2 - b.f7rb, 0.0);
    var max4 := Max(max3 - b.f7rc, 0.0);
    p.tauxRd * Min(b.f7rd, max1) + p.tauxRb * Min(b.f7rb, max2) + p.tauxRc * Min(b.f7rc, max3) +
    p.tauxRa * Min(b.f7ra, max4)
  }

  function Resimm2012(b: Boxes, p: Params): real {
    var max1 := p.max;
    var max2 := Max(max1 - b.f7rd, 0.0);
    var max3 := Max(max2 - b.f7rb, 0.0);
    var max4 := Max(max3 - (b.f7rc + b.f7rf), 0.0);
    var max5 := Max(max4 - b.f7ra, 0.0);
    p.tauxRd * Min(b.f7rd, max1) + p.tauxRb * Min(b.f7rb, max2) + p.tauxRc * Min(b.f7rc + b.f7rf, max3) +
    p.tauxRa * Min(b.f7ra, max4) + p.tauxRe * Min(b.f7re, max5)
  }

  function Resimm2013(b: Boxes, p: Params): real {
    var max1 := p.max;
    var max2 := Max(max1 - b.f7rd, 0.0);
    var max3 := Max(max2 - b.f7rb, 0.0);
    var max4 := Max(max3 - (b.f7sy + b.f7rf + b.f7rc), 0.0);
    var max5 := Max(max4 - b.f7ra, 0.0);
    p.tauxRd * Min(b.f7rd, max1) + p.tauxRb * Min(b.f7rb, max2) + p.tauxRc * Min(b.f7sy + b.f7rf + b.f7rc, max3) +
    p.tauxRa * Min(b.f7ra, max4) + p.tauxRe * Min(b.f7re + b.f7sx, max5)
  }

  datatype Form = Form2009 | Form2011 | Form2012 | Form2013

  const Table: seq<Variant<Form>> := [
    Variant(YearStart(2009), YearEnd(2010), Form2009),
    Variant(YearStart(2011), YearEnd(2011), Form2011),
    Variant(YearStart(2012), YearEnd(2012), Form2012),
    Variant(YearStart(2013), YearEnd(2013), Form2013)
  ]

  /** The boxes of a form, in the order they consume the ceiling, and their rates. */
  function CeilingBoxes(f: Form, b: Boxes): seq<real> {
    match f
    case Form2009 => [b.f7rb, b.f7ra]
    case Form2011 => [b.f7rd, b.f7rb, b.f7rc, b.f7ra]
    case Form2012 => [b.f7rd, b.f7rb, b.f7rc + b.f7rf, b.f7ra, b.f7re]
    case Form2013 => [b.f7rd, b.f7rb, b.f7sy + b.f7rf + b.f7rc, b.f7ra, b.f7re + b.f7sx]
  }

  function CeilingRates(f: Form, p: Params): seq<real> {
    match f
    case Form2009 => [p.tauxRb, p.tauxRa]
    case Form2011 => [p.tauxRd, p.tauxRb, p.tauxRc, p.tauxRa]
    case Form2012 => [p.tauxRd, p.tauxRb, p.tauxRc, p.tauxRa, p.tauxRe]
    case Form2013 => [p.tauxRd, p.tauxRb, p.tauxRc, p.tauxRa, p.tauxRe]
  }

  function Apply(f: Form, b: Boxes, p: Params): real {
    match f
    case Form2009 => Resimm2009(b, p)
    case Form2011 => Resimm2011(b, p)
    case Form2012 => Resimm2012(b, p)
    case Form2013 => Resimm2013(b, p)
  }

  /** `resimm` for the year holding `d`; `None` outside 2009-2013. */
  function ResimmAt(d: Date, b: Boxes, p: Params): Option<real> {
    match Select(Table, d)
    case None => None
    case Some(f) => Some(Apply(f, b, p))
  }

  /** Each form, as written, is the cascade of its boxes under `P.max`. */
  lemma FormIsCascade(f: Form, b: Boxes, p: Params)
    ensures |CeilingRates(f, p)| == |CeilingBoxes(f, b)|
    ensures Apply(f, b, p) == Weighted(CeilingRates(f, p), Retained(p.max, CeilingBoxes(f, b)))
  {
    match f {
      case Form2009 => Cascade2009(b, p);
      case Form2011 => Cascade2011(b, p);
      case Form2012 => Cascade2012(b, p);
      case Form2013 => Cascade2013(b, p);
    }
  }

  lemma Cascade2009(b: Boxes, p: Params)
    ensures Resimm2009(b, p) == Weighted([p.tauxRb, p.tauxRa], Retained(p.max, [b.f7rb, b.f7ra]))
  {
    var m2 := Max(p.max - b.f7rb, 0.0);
    RetainedCons(m2, b.f7ra, []);
    RetainedCons(p.max, b.f7rb, [b.f7ra]);
    WeightedCons(p.tauxRa, Min(b.f7ra, m2), [], []);
    WeightedCons(p.tauxRb, Min(b.f7rb, p.max), [p.tauxRa], [Min(b.f7ra, m2)]);
  }

  lemma Cascade2011(b: Boxes, p: Params)
    ensures Resimm2011(b, p) ==
            Weighted([p.tauxRd, p.tauxRb, p.tauxRc, p.tauxRa], Retained(p.max, [b.f7rd, b.f7rb, b.f7rc, b.f7ra]))
  {
    var max2 := Max(p.max - b.f7rd, 0.0);
    var max3 := Max(max2 - b.f7rb, 0.0);
    var max4 := Max(max3 - b.f7rc, 0.0);
    Retained4(p.max, b.f7rd, b.f7rb, b.f7rc, b.f7ra);
    Weighted4(p.tauxRd, p.tauxRb, p.tauxRc, p.tauxRa,
              Min(b.f7rd, p.max), Min(b.f7rb, max2), Min(b.f7rc, max3), Min(b.f7ra, max4));
  }

  lemma Cascade2012(b: Boxes, p: Params)
    ensures Resimm2012(b, p) ==
            Weighted([p.tauxRd, p.tauxRb, p.tauxRc, p.tauxRa, p.tauxRe],
                     Retained(p.max, [b.f7rd, b.f7rb, b.f7rc + b.f7rf, b.f7ra, b.f7re]))
  {
    Cascade5(p.max, b.f7rd, b.f7rb, b.f7rc + b.f7rf, b.f7ra, b.f7re, p.tauxRd, p.tauxRb, p.tauxRc, p.tauxRa, p.tauxRe);
  }

  lemma Cascade2013(b: Boxes, p: Params)
    ensures Resimm2013(b, p) ==
            Weighted([p.tauxRd, p.tauxRb, p.tauxRc, p.tauxRa, p.tauxRe],
                     Retained(p.max, [b.f7rd, b.f7rb, b.f7sy + b.f7rf + b.f7rc, b.f7ra, b.f7re + b.f7sx]))
  {
    Cascade5(p.max, b.f7rd, b.f7rb, b.f7sy + b.f7rf + b.f7rc, b.f7ra, b.f7re + b.f7sx,
             p.tauxRd, p.tauxRb, p.tauxRc, p.tauxRa, p.tauxRe);
  }

  /**
   * In 2011 the four bases `min(f7rd, max1) + min(f7rb, max2) + min(f7rc, max3)
   * + min(f7ra, max4)` add up to at most `P.max`, and exactly to the smaller of
   * `P.max` and the four boxes.
   */
  lemma Bases2011(b: Boxes, p: Params)
    requires b.NonNegative() && 0.0 <= p.max
    ensures var max2 := Max(p.max - b.f7rd, 0.0);
            var max3 := Max(max2 - b.f7rb, 0.0);
            var max4 := Max(max3 - b.f7rc, 0.0);
            Min(b.f7rd, p.max) + Min(b.f7rb, max2) + Min(b.f7rc, max3) + Min(b.f7ra, max4)
            == Min(p.max, b.f7rd + b.f7rb + b.f7rc + b.f7ra)
  {
    var bs := CeilingBoxes(Form2011, b);
    RetainedTotal(p.max, bs);
    Retained4(p.max, b.f7rd, b.f7rb, b.f7rc, b.f7ra);
    Sum4(Retained(p.max, bs));
    Sum4(bs);
  }

  /** Whatever the year, `resimm` lies between 0 and `P.max`. */
  lemma ResimmBounds(d: Date, b: Boxes, p: Params)
    requires b.NonNegative() && p.Valid()
    ensures ResimmAt(d, b, p).Some? ==> 0.0 <= ResimmAt(d, b, p).value <= p.max
  {
    if Select(Table, d).Some? {
      ApplyBounds(Select(Table, d).value, b, p);
    }
  }

  /** Each form lies between 0 and `P.max`. */
  lemma ApplyBounds(f: Form, b: Boxes, p: Params)
    requires b.NonNegative() && p.Valid()
    ensures 0.0 <= Apply(f, b, p) <= p.max
  {
    FormIsCascade(f, b, p);
    var rates, boxes := CeilingRates(f, p), CeilingBoxes(f, b);
    assert AllRates(rates) && AllNonNegative(boxes);
    CascadeBounds(rates, p.max, boxes);
  }

  /** The table runs day after day from 2009-01-01 to 2013-12-31. */
  lemma TableContiguous()
    ensures Contiguous(Table)
    ensures Table[0].start == Date(2009, 1, 1) && Table[|Table| - 1].stop == Date(2013, 12, 31)
  {
    ByYearsContiguous(Table);
  }
}
