/**
 * `invfor`: the reduction for forest investments. From 2011 on, the
 * forest-works ceiling `ifortra_seuil * (marpac + 1)` is shared, in this
 * order, by the insurance contracts (7UL), the works carried over from 2010,
 * from 2011 and from 2012, and the works of the year (7UP). The source
 * computes the ceiling left after the 2010 carry-over as
 * `max0 - f7uu + f7te + f7uv + f7tf`, which adds three of the four
 * carried-over boxes back instead of taking them off. The as-written forms
 * are kept and shown to exceed the ceiling; the table uses the corrected
 * forms, which are the ceiling cascade of the carry-overs.
 */
module Invfor {
  import opened MinMax
  import opened Cascade
  import opened Dated

  datatype Boxes = Boxes(f7te: real, f7tf: real, f7tg: real, f7th: real,
                         f7ul: real, f7un: real, f7up: real, f7uq: real,
                         f7uu: real, f7uv: real, f7uw: real, f7ux: real)
  {
    predicate NonNegative() {
      0.0 <= f7te && 0.0 <= f7tf && 0.0 <= f7tg && 0.0 <= f7th &&
      0.0 <= f7ul && 0.0 <= f7un && 0.0 <= f7up && 0.0 <= f7uq &&
      0.0 <= f7uu && 0.0 <= f7uv && 0.0 <= f7uw && 0.0 <= f7ux
    }

    /** The works carried over from 2010 (7UU, 7TE, 7UV, 7TF). */
    function Report10(): real { f7uu + f7te + f7uv + f7tf }
    /** The works carried over from 2011 (7TG, 7UW). */
    function Report11(): real { f7tg + f7uw }
    /** The works carried over from 2012 (7TH, 7UX). */
    function Report12(): real { f7th + f7ux }
  }

  /** `ir.reductions_impots.invfor` */
  datatype Params = Params(taux: real, seuil: real, ifortraSeuil: real, iforgesSeuil: real,
                           report10: real, report11: real, report12: real, tauxAss: real)
  {
    predicate Valid() {
      0.0 <= taux <= 1.0 && 0.0 <= report10 <= 1.0 && 0.0 <= report11 <= 1.0 &&
      0.0 <= report12 <= 1.0 && 0.0 <= tauxAss <= 1.0 &&
      0.0 <= seuil && 0.0 <= ifortraSeuil && 0.0 <= iforgesSeuil
    }
  }

  /** The forest-works ceiling of a household. */
  function WorksCeiling(marpac: bool, p: Params): real {
    TimesSpouses(p.ifortraSeuil, marpac)
  }

  /** The ceiling on acquisitions (7UN), `seuil * (marpac + 1)`. */
  function AcquisitionCeiling(marpac: bool, p: Params): real {
    TimesSpouses(p.seuil, marpac)
  }

  /** The ceiling on management contracts (7UQ), `iforges_seuil * (marpac + 1)`. */
  function ManagementCeiling(marpac: bool, p: Params): real {
    TimesSpouses(p.iforgesSeuil, marpac)
  }

  /** The part of the 2009-2013 reduction that does not use the works ceiling: 7UN and 7UQ. */
  function Unshared(marpac: bool, b: Boxes, p: Params): real {
    p.taux * (Min(b.f7un, AcquisitionCeiling(marpac, p)) + Min(b.f7uq, ManagementCeiling(marpac, p)))
  }

  function Invfor2002(marpac: bool, b: Boxes, p: Params): (r: real)
    ensures b.NonNegative() && p.Valid() ==> 0.0 <= r <= b.f7un
  {
    var base := Min(b.f7un, AcquisitionCeiling(marpac, p));
    ScaledWithin(p.taux, base);
    p.taux * base
  }

  function Invfor2006(b: Boxes, p: Params): (r: real)
    ensures b.NonNegative() && p.Valid() ==> 0.0 <= r <= b.f7un
  {
    ScaledWithin(p.taux, b.f7un);
    p.taux * b.f7un
  }

  function Invfor2009(marpac: bool, b: Boxes, p: Params): (r: real)
    ensures b.NonNegative() && p.Valid() ==> 0.0 <= r <= b.f7un + b.f7up + b.f7uq
  {
    var bases := Min(b.f7un, AcquisitionCeiling(marpac, p)) + Min(b.f7up, WorksCeiling(marpac, p)) +
                 Min(b.f7uq, ManagementCeiling(marpac, p));
    ScaledWithin(p.taux, bases);
    p.taux * bases
  }

  function Invfor2010(marpac: bool, b: Boxes, p: Params): (r: real)
    ensures b.NonNegative() && p.Valid() ==> 0.0 <= r <= b.f7un + b.f7up + b.f7uu + b.f7te + b.f7uq
  {
    var bases := Min(b.f7un, AcquisitionCeiling(marpac, p)) + Min(b.f7up + b.f7uu + b.f7te, WorksCeiling(marpac, p)) +
                 Min(b.f7uq, ManagementCeiling(marpac, p));
    ScaledWithin(p.taux, bases);
    p.taux * bases
  }

  /** The ceiling left after the insurance contracts (7UL). */
  function LeftAfterInsurance(marpac: bool, b: Boxes, p: Params): real {
    Max(WorksCeiling(marpac, p) - b.f7ul, 0.0)
  }

  /**
   * The ceiling left after the 2010 carry-over, as the source writes it:
   * only 7UU is taken off, and 7TE, 7UV and 7TF are added back.
   */
  function LeftAfter2010AsWritten(marpac: bool, b: Boxes, p: Params): real {
    Max(LeftAfterInsurance(marpac, b, p) - b.f7uu + b.f7te + b.f7uv + b.f7tf, 0.0)
  }

  /** The ceiling left after the 2010 carry-over, all four boxes taken off. */
  function LeftAfter2010(marpac: bool, b: Boxes, p: Params): real {
    Max(LeftAfterInsurance(marpac, b, p) - b.Report10(), 0.0)
  }

  // The 2011-2013 forms, given the ceiling `max1` left after the 2010 carry-over.

  function Invfor2011Given(marpac: bool, b: Boxes, p: Params, max1: real): real {
    var max0 := LeftAfterInsurance(marpac, b, p);
    p.taux * (Min(b.f7un, AcquisitionCeiling(marpac, p)) + Min(b.f7up, max1) + Min(b.f7uq, ManagementCeiling(marpac, p))) +
    p.report10 * Min(b.Report10(), max0) +
    p.tauxAss * Min(b.f7ul, WorksCeiling(marpac, p))
  }

  function Invfor2012Given(marpac: bool, b: Boxes, p: Params, max1: real): real {
    var max0 := LeftAfterInsurance(marpac, b, p);
    var max2 := Max(max1 - b.f7tg - b.f7uw, 0.0);
    p.taux * (Min(b.f7un, AcquisitionCeiling(marpac, p)) + Min(b.f7up, max2) + Min(b.f7uq, ManagementCeiling(marpac, p))) +
    p.report10 * Min(b.Report10(), max0) +
    p.report11 * Min(b.Report11(), max1) +
    p.tauxAss * Min(b.f7ul, WorksCeiling(marpac, p))
  }

  function Invfor2013Given(marpac: bool, b: Boxes, p: Params, max1: real): real {
    var max0 := LeftAfterInsurance(marpac, b, p);
    var max2 := Max(max1 - b.f7tg - b.f7uw, 0.0);
    var max3 := Max(max2 - b.f7th - b.f7ux, 0.0);
    p.taux * (Min(b.f7un, AcquisitionCeiling(marpac, p)) + Min(b.f7up, max3) + Min(b.f7uq, ManagementCeiling(marpac, p))) +
    p.report10 * Min(b.Report10(), max0) +
    p.report11 * Min(b.Report11(), max1) +
    p.report12 * Min(b.Report12(), max2) +
    p.tauxAss * Min(b.f7ul, WorksCeiling(marpac, p))
  }

  function Invfor2011AsWritten(marpac: bool, b: Boxes, p: Params): real {
    Invfor2011Given(marpac, b, p, LeftAfter2010AsWritten(marpac, b, p))
  }

  function Invfor2012AsWritten(marpac: bool, b: Boxes, p: Params): real {
    Invfor2012Given(marpac, b, p, LeftAfter2010AsWritten(marpac, b, p))
  }

  function Invfor2013AsWritten(marpac: bool, b: Boxes, p: Params): real {
    Invfor2013Given(marpac, b, p, LeftAfter2010AsWritten(marpac, b, p))
  }

  function Invfor2011(marpac: bool, b: Boxes, p: Params): real {
    Invfor2011Given(marpac, b, p, LeftAfter2010(marpac, b, p))
  }

  function Invfor2012(marpac: bool, b: Boxes, p: Params): real {
    Invfor2012Given(marpac, b, p, LeftAfter2010(marpac, b, p))
  }

  function Invfor2013(marpac: bool, b: Boxes, p: Params): real {
    Invfor2013Given(marpac, b, p, LeftAfter2010(marpac, b, p))
  }

  /** The boxes that share the works ceiling in a corrected form, in order, and their rates. */
  function SharedBoxes(f: Form, b: Boxes): seq<real> {
    match f
    case Form2011 => [b.f7ul, b.Report10(), b.f7up]
    case Form2012 => [b.f7ul, b.Report10(), b.Report11(), b.f7up]
    case Form2013 => [b.f7ul, b.Report10(), b.Report11(), b.Report12(), b.f7up]
    case _ => []
  }

  function SharedRates(f: Form, p: Params): seq<real> {
    match f
    case Form2011 => [p.tauxAss, p.report10, p.taux]
    case Form2012 => [p.tauxAss, p.report10, p.report11, p.taux]
    case Form2013 => [p.tauxAss, p.report10, p.report11, p.report12, p.taux]
    case _ => []
  }

  datatype Form = Form2002 | Form2006 | Form2009 | Form2010 | Form2011 | Form2012 | Form2013

  const Table: seq<Variant<Form>> := [
    Variant(YearStart(2002), YearEnd(2005), Form2002),
    Variant(YearStart(2006), YearEnd(2008), Form2006),
    Variant(YearStart(2009), YearEnd(2009), Form2009),
    Variant(YearStart(2010), YearEnd(2010), Form2010),
    Variant(YearStart(2011), YearEnd(2011), Form2011),
    Variant(YearStart(2012), YearEnd(2012), Form2012),
    Variant(YearStart(2013), YearEnd(2013), Form2013)
  ]

  function Apply(f: Form, marpac: bool, b: Boxes, p: Params): real {
    match f
    case Form2002 => Invfor2002(marpac, b, p)
    case Form2006 => Invfor2006(b, p)
    case Form2009 => Invfor2009(marpac, b, p)
    case Form2010 => Invfor2010(marpac, b, p)
    case Form2011 => Invfor2011(marpac, b, p)
    case Form2012 => Invfor2012(marpac, b, p)
    case Form2013 => Invfor2013(marpac, b, p)
  }

  /** `invfor` for the year holding `d` (corrected forms); `None` outside 2002-2013. */
  function InvforAt(d: Date, marpac: bool, b: Boxes, p: Params): Option<real> {
    match Select(Table, d)
    case None => None
    case Some(f) => Some(Apply(f, marpac, b, p))
  }

  lemma TableContiguous()
    ensures Contiguous(Table)
    ensures Table[0].start == Date(2002, 1, 1) && Table[|Table| - 1].stop == Date(2013, 12, 31)
  {
    ByYearsContiguous(Table);
  }

  /** A household with a works ceiling of 100, 50 carried over from 2010 in 7TE and 150 of works in 7UP. */
  const OverBoxes := Boxes(50.0, 0.0, 0.0, 0.0, 0.0, 0.0, 150.0, 0.0, 0.0, 0.0, 0.0, 0.0)
  const OverParams := Params(1.0, 0.0, 100.0, 0.0, 1.0, 0.0, 0.0, 1.0)

  /**
   * The as-written 2011 form lets the carry-over from 2010 and the works of
   * the year use more than the works ceiling: their bases add up to 200 under
   * a ceiling of 100, because the ceiling left after the carry-over grows to 150.
   */
  lemma Invfor2011ExceedsCeiling()
    ensures WorksCeiling(false, OverParams) == 100.0
    ensures Unshared(false, OverBoxes, OverParams) == 0.0
    ensures LeftAfter2010AsWritten(false, OverBoxes, OverParams) == 150.0
    ensures Invfor2011AsWritten(false, OverBoxes, OverParams) == 200.0
  {
    var b, p := OverBoxes, OverParams;
    var max0 := LeftAfterInsurance(false, b, p);
    assert max0 == 100.0;
    var max1 := LeftAfter2010AsWritten(false, b, p);
    assert max1 == 150.0;
    var x := Min(b.f7un, AcquisitionCeiling(false, p)) + Min(b.f7up, max1) + Min(b.f7uq, ManagementCeiling(false, p));
    assert x == 150.0;
    assert Invfor2011AsWritten(false, b, p) ==
           p.taux * x + p.report10 * Min(b.Report10(), max0) + p.tauxAss * Min(b.f7ul, WorksCeiling(false, p));
  }

  /** On the same household the corrected 2011 form stays within the ceiling of 100. */
  lemma Invfor2011WithinCeiling()
    ensures LeftAfter2010(false, OverBoxes, OverParams) == 50.0
    ensures Invfor2011(false, OverBoxes, OverParams) == 100.0
  {
    var b, p := OverBoxes, OverParams;
    var max0 := LeftAfterInsurance(false, b, p);
    assert max0 == 100.0;
    var max1 := LeftAfter2010(false, b, p);
    assert max1 == 50.0;
    var x := Min(b.f7un, AcquisitionCeiling(false, p)) + Min(b.f7up, max1) + Min(b.f7uq, ManagementCeiling(false, p));
    assert x == 50.0;
    assert Invfor2011(false, b, p) ==
           p.taux * x + p.report10 * Min(b.Report10(), max0) + p.tauxAss * Min(b.f7ul, WorksCeiling(false, p));
  }

  /**
   * With nothing carried over from 2011 or 2012, the 2012 and 2013 forms,
   * as written and corrected, reduce to the 2011 form.
   */
  lemma LaterFormsWithoutLaterCarryOver(marpac: bool, b: Boxes, p: Params)
    requires b.f7tg == 0.0 && b.f7uw == 0.0 && b.f7th == 0.0 && b.f7ux == 0.0
    ensures Invfor2012AsWritten(marpac, b, p) == Invfor2011AsWritten(marpac, b, p)
    ensures Invfor2013AsWritten(marpac, b, p) == Invfor2011AsWritten(marpac, b, p)
    ensures Invfor2012(marpac, b, p) == Invfor2011(marpac, b, p)
    ensures Invfor2013(marpac, b, p) == Invfor2011(marpac, b, p)
  {
    GivenWithoutLaterCarryOver(marpac, b, p, LeftAfter2010AsWritten(marpac, b, p));
    GivenWithoutLaterCarryOver(marpac, b, p, LeftAfter2010(marpac, b, p));
  }

  lemma GivenWithoutLaterCarryOver(marpac: bool, b: Boxes, p: Params, max1: real)
    requires b.f7tg == 0.0 && b.f7uw == 0.0 && b.f7th == 0.0 && b.f7ux == 0.0 && 0.0 <= max1
    ensures Invfor2012Given(marpac, b, p, max1) == Invfor2011Given(marpac, b, p, max1)
    ensures Invfor2013Given(marpac, b, p, max1) == Invfor2011Given(marpac, b, p, max1)
  {
    assert Min(b.Report11(), max1) == 0.0 && Min(b.Report12(), max1) == 0.0;
  }

  /**
   * The 2012 and 2013 forms repeat the same line: on the same household, with
   * nothing carried over from 2011 or 2012, the as-written forms again let
   * bases of 200 use a ceiling of 100, and the corrected forms keep them
   * within it.
   */
  lemma Invfor2012ExceedsCeiling()
    ensures Invfor2012AsWritten(false, OverBoxes, OverParams) == 200.0
    ensures Invfor2012(false, OverBoxes, OverParams) == 100.0
  {
    Invfor2011ExceedsCeiling();
    Invfor2011WithinCeiling();
    LaterFormsWithoutLaterCarryOver(false, OverBoxes, OverParams);
  }

  lemma Invfor2013ExceedsCeiling()
    ensures Invfor2013AsWritten(false, OverBoxes, OverParams) == 200.0
    ensures Invfor2013(false, OverBoxes, OverParams) == 100.0
  {
    Invfor2011ExceedsCeiling();
    Invfor2011WithinCeiling();
    LaterFormsWithoutLaterCarryOver(false, OverBoxes, OverParams);
  }

  /** When nothing but 7UU is carried over from 2010, the as-written and corrected forms agree. */
  lemma AsWrittenAgreesWithoutOtherCarryOver(marpac: bool, b: Boxes, p: Params)
    requires b.f7te == 0.0 && b.f7uv == 0.0 && b.f7tf == 0.0
    ensures Invfor2011AsWritten(marpac, b, p) == Invfor2011(marpac, b, p)
    ensures Invfor2012AsWritten(marpac, b, p) == Invfor2012(marpac, b, p)
    ensures Invfor2013AsWritten(marpac, b, p) == Invfor2013(marpac, b, p)
  {
    assert LeftAfter2010AsWritten(marpac, b, p) == LeftAfter2010(marpac, b, p);
  }

  // The part of each corrected form that uses the works ceiling, written as the cascade.

  function SharedPart2011(marpac: bool, b: Boxes, p: Params): real {
    var max0 := LeftAfterInsurance(marpac, b, p);
    var max1 := LeftAfter2010(marpac, b, p);
    p.tauxAss * Min(b.f7ul, WorksCeiling(marpac, p)) + p.report10 * Min(b.Report10(), max0) +
    p.taux * Min(b.f7up, max1)
  }

  function SharedPart2012(marpac: bool, b: Boxes, p: Params): real {
    var max0 := LeftAfterInsurance(marpac, b, p);
    var max1 := LeftAfter2010(marpac, b, p);
    var max2 := Max(max1 - b.Report11(), 0.0);
    p.tauxAss * Min(b.f7ul, WorksCeiling(marpac, p)) + p.report10 * Min(b.Report10(), max0) +
    p.report11 * Min(b.Report11(), max1) + p.taux * Min(b.f7up, max2)
  }

  function SharedPart2013(marpac: bool, b: Boxes, p: Params): real {
    var max0 := LeftAfterInsurance(marpac, b, p);
    var max1 := LeftAfter2010(marpac, b, p);
    var max2 := Max(max1 - b.Report11(), 0.0);
    var max3 := Max(max2 - b.Report12(), 0.0);
    p.tauxAss * Min(b.f7ul, WorksCeiling(marpac, p)) + p.report10 * Min(b.Report10(), max0) +
    p.report11 * Min(b.Report11(), max1) + p.report12 * Min(b.Report12(), max2) +
    p.taux * Min(b.f7up, max3)
  }

  lemma Split2011(marpac: bool, b: Boxes, p: Params)
    ensures Invfor2011(marpac, b, p) == Unshared(marpac, b, p) + SharedPart2011(marpac, b, p)
  {
  }

  lemma Split2012(marpac: bool, b: Boxes, p: Params)
    ensures Invfor2012(marpac, b, p) == Unshared(marpac, b, p) + SharedPart2012(marpac, b, p)
  {
  }

  lemma Split2013(marpac: bool, b: Boxes, p: Params)
    ensures Invfor2013(marpac, b, p) == Unshared(marpac, b, p) + SharedPart2013(marpac, b, p)
  {
  }

  lemma Cascade2011(marpac: bool, b: Boxes, p: Params)
    ensures SharedPart2011(marpac, b, p) ==
            Weighted(SharedRates(Form2011, p), Retained(WorksCeiling(marpac, p), SharedBoxes(Form2011, b)))
  {
    Cascade3(WorksCeiling(marpac, p), b.f7ul, b.Report10(), b.f7up, p.tauxAss, p.report10, p.taux);
  }

  lemma Cascade2012(marpac: bool, b: Boxes, p: Params)
    ensures SharedPart2012(marpac, b, p) ==
            Weighted(SharedRates(Form2012, p), Retained(WorksCeiling(marpac, p), SharedBoxes(Form2012, b)))
  {
    Cascade4(WorksCeiling(marpac, p), b.f7ul, b.Report10(), b.Report11(), b.f7up,
             p.tauxAss, p.report10, p.report11, p.taux);
  }

  lemma Cascade2013(marpac: bool, b: Boxes, p: Params)
    ensures SharedPart2013(marpac, b, p) ==
            Weighted(SharedRates(Form2013, p), Retained(WorksCeiling(marpac, p), SharedBoxes(Form2013, b)))
  {
    Cascade5(WorksCeiling(marpac, p), b.f7ul, b.Report10(), b.Report11(), b.Report12(), b.f7up,
             p.tauxAss, p.report10, p.report11, p.report12, p.taux);
  }

  /** Each corrected 2011-2013 form is its unshared part plus the cascade of the works ceiling. */
  lemma SharedIsCascade(f: Form, marpac: bool, b: Boxes, p: Params)
    requires f == Form2011 || f == Form2012 || f == Form2013
    ensures Apply(f, marpac, b, p) ==
            Unshared(marpac, b, p) + Weighted(SharedRates(f, p), Retained(WorksCeiling(marpac, p), SharedBoxes(f, b)))
  {
    match f {
      case Form2011 => Split2011(marpac, b, p); Cascade2011(marpac, b, p);
      case Form2012 => Split2012(marpac, b, p); Cascade2012(marpac, b, p);
      case Form2013 => Split2013(marpac, b, p); Cascade2013(marpac, b, p);
    }
  }

  /**
   * In the corrected 2011-2013 forms the works ceiling is shared: the boxes
   * that use it keep bases adding up to the smaller of the ceiling and their
   * total, and their part of the reduction lies between 0 and the ceiling.
   */
  lemma WorksCeilingShared(f: Form, marpac: bool, b: Boxes, p: Params)
    requires f == Form2011 || f == Form2012 || f == Form2013
    requires b.NonNegative() && p.Valid()
    ensures |SharedRates(f, p)| == |SharedBoxes(f, b)|
    ensures Sum(Retained(WorksCeiling(marpac, p), SharedBoxes(f, b))) ==
            Min(WorksCeiling(marpac, p), Sum(SharedBoxes(f, b)))
    ensures var shared := Apply(f, marpac, b, p) - Unshared(marpac, b, p);
            0.0 <= shared <= WorksCeiling(marpac, p)
  {
    var t := WorksCeiling(marpac, p);
    SharedIsCascade(f, marpac, b, p);
    RetainedTotal(t, SharedBoxes(f, b));
    CascadeBounds(SharedRates(f, p), t, SharedBoxes(f, b));
  }

  lemma UnsharedNonNegative(marpac: bool, b: Boxes, p: Params)
    requires b.NonNegative() && p.Valid()
    ensures 0.0 <= Unshared(marpac, b, p)
  {
    ScaledBase(p.taux, Min(b.f7un, AcquisitionCeiling(marpac, p)) + Min(b.f7uq, ManagementCeiling(marpac, p)));
  }

  /** Every form, the corrected ones included, gives a non-negative reduction. */
  lemma ApplyNonNegative(f: Form, marpac: bool, b: Boxes, p: Params)
    requires b.NonNegative() && p.Valid()
    ensures 0.0 <= Apply(f, marpac, b, p)
  {
    if f == Form2011 || f == Form2012 || f == Form2013 {
      SharedFormNonNegative(f, marpac, b, p);
    } else {
      EarlyFormNonNegative(f, marpac, b, p);
    }
  }

  lemma EarlyFormNonNegative(f: Form, marpac: bool, b: Boxes, p: Params)
    requires f == Form2002 || f == Form2006 || f == Form2009 || f == Form2010
    requires b.NonNegative() && p.Valid()
    ensures 0.0 <= Apply(f, marpac, b, p)
  {
  }

  lemma SharedFormNonNegative(f: Form, marpac: bool, b: Boxes, p: Params)
    requires f == Form2011 || f == Form2012 || f == Form2013
    requires b.NonNegative() && p.Valid()
    ensures 0.0 <= Apply(f, marpac, b, p)
  {
    WorksCeilingShared(f, marpac, b, p);
    UnsharedNonNegative(marpac, b, p);
  }

  /** Whatever the year, the (corrected) reduction is non-negative. */
  lemma InvforNonNegative(d: Date, marpac: bool, b: Boxes, p: Params)
    requires b.NonNegative() && p.Valid()
    ensures InvforAt(d, marpac, b, p).Some? ==> 0.0 <= InvforAt(d, marpac, b, p).value
  {
    if Select(Table, d).Some? {
      ApplyNonNegative(Select(Table, d).value, marpac, b, p);
    }
  }
}
