/**
 * The reductions that apply one rate to one capped base: `deffor` (forest
 * fire defence, box 7UC, from 2006), `mohist` (historic monuments, box 7NZ,
 * from 2008), `donapd` (gifts to aid organisations, box 7UD and, from 2011,
 * 7VA) and `cotsyn` (union dues of the declarant, the spouse and the first
 * dependant, each capped by a share of that person's own incomes).
 */
module Capped {
  import opened MinMax
  import opened Cascade
  import opened Dated

  /** A parameter record `P` holding a rate `taux` and a ceiling `max`. */
  datatype RateCeiling = RateCeiling(taux: real, max: real)
  {
    predicate Valid() { 0.0 <= taux <= 1.0 && 0.0 <= max }
  }

  /** A variable with a `start_date` and no stop date exists from that day on. */
  predicate From(start: Date, d: Date) {
    NotAfter(start, d)
  }

  /** `deffor`: `P.taux * min_(f7uc, P.max)`, from 2006-01-01. */
  function DefforAt(d: Date, f7uc: real, p: RateCeiling): (r: Option<real>)
    ensures r.Some? <==> From(Date(2006, 1, 1), d)
    ensures r.Some? && 0.0 <= f7uc && p.Valid() ==> 0.0 <= r.value <= p.taux * p.max
    ensures r.Some? && 0.0 <= f7uc && p.Valid() ==> r.value <= f7uc
  {
    if From(Date(2006, 1, 1), d) then Some(CappedShare(p.taux, f7uc, p.max)) else None
  }

  /** `mohist`: `P.taux * min_(f7nz, P.max)`, from 2008-01-01. */
  function MohistAt(d: Date, f7nz: real, p: RateCeiling): (r: Option<real>)
    ensures r.Some? <==> From(Date(2008, 1, 1), d)
    ensures r.Some? && 0.0 <= f7nz && p.Valid() ==> 0.0 <= r.value <= p.taux * p.max
    ensures r.Some? && 0.0 <= f7nz && p.Valid() ==> r.value <= f7nz
  {
    if From(Date(2008, 1, 1), d) then Some(CappedShare(p.taux, f7nz, p.max)) else None
  }

  /** The two forms of `donapd`: box 7UD alone until 2010, 7UD + 7VA from 2011. */
  datatype DonapdForm = DonapdUntil2010 | DonapdFrom2011

  const DonapdTable: seq<Variant<DonapdForm>> := [
    Variant(YearStart(2002), YearEnd(2010), DonapdUntil2010),
    Variant(YearStart(2011), YearEnd(2013), DonapdFrom2011)
  ]

  /** The gifts a form takes into account. */
  function DonapdBase(f: DonapdForm, f7ud: real, f7va: real): (r: real)
    ensures 0.0 <= f7ud && 0.0 <= f7va ==> f7ud <= r <= f7ud + f7va
  {
    match f
    case DonapdUntil2010 => f7ud
    case DonapdFrom2011 => f7ud + f7va
  }

  function DonapdAt(d: Date, f7ud: real, f7va: real, p: RateCeiling): Option<real> {
    match Select(DonapdTable, d)
    case None => None
    case Some(f) => Some(CappedShare(p.taux, DonapdBase(f, f7ud, f7va), p.max))
  }

  /** `donapd` is at most `P.taux * P.max` and at most the gifts counted. */
  lemma DonapdBounds(d: Date, f7ud: real, f7va: real, p: RateCeiling)
    requires 0.0 <= f7ud && 0.0 <= f7va && p.Valid()
    ensures DonapdAt(d, f7ud, f7va, p).Some? ==>
              0.0 <= DonapdAt(d, f7ud, f7va, p).value <= p.taux * p.max &&
              DonapdAt(d, f7ud, f7va, p).value <= f7ud + f7va
  {
  }

  /** Until 2010 box 7VA plays no part; from 2011 it counts like 7UD. */
  lemma DonapdBoxes(d: Date, f7ud: real, f7va: real, f7va': real, p: RateCeiling)
    requires ValidDate(d)
    ensures 2002 <= d.year <= 2010 ==> DonapdAt(d, f7ud, f7va, p) == DonapdAt(d, f7ud, f7va', p)
    ensures 2011 <= d.year <= 2013 ==> DonapdAt(d, f7ud, f7va, p) == DonapdAt(d, f7ud + f7va, 0.0, p)
  {
    if 2002 <= d.year <= 2010 {
      assert Covers(DonapdTable[0], d);
    } else if 2011 <= d.year <= 2013 {
      assert Covers(DonapdTable[1], d);
    }
  }

  lemma DonapdTableContiguous()
    ensures Contiguous(DonapdTable)
    ensures DonapdTable[0].start == Date(2002, 1, 1) && DonapdTable[|DonapdTable| - 1].stop == Date(2013, 12, 31)
  {
    ByYearsContiguous(DonapdTable);
  }

  /**
   * One person's part of `cotsyn`: the union dues paid (box 7AC for the
   * declarant, 7AE for the spouse, 7AG for the first dependant) and that
   * person's taxable salary, unemployment benefits and pensions.
   */
  datatype Member = Member(dues: real, salary: real, unemployment: real, pension: real)
  {
    predicate NonNegative() {
      0.0 <= dues && 0.0 <= salary && 0.0 <= unemployment && 0.0 <= pension
    }
  }

  /** `ir.reductions_impots.cotsyn`: a rate and the share `seuil` of incomes that caps the dues. */
  datatype CotsynParams = CotsynParams(taux: real, seuil: real)
  {
    predicate Valid() { 0.0 <= taux <= 1.0 && 0.0 <= seuil <= 1.0 }
  }

  /** `(sal + cho + rst) * P.seuil`: the dues a person may count. */
  function DuesCeiling(m: Member, seuil: real): (r: real)
    ensures m.NonNegative() && 0.0 <= seuil <= 1.0 ==>
              0.0 <= r <= m.salary + m.unemployment + m.pension
  {
    var incomes := m.salary + m.unemployment + m.pension;
    ScaledWithin(seuil, incomes);
    incomes * seuil
  }

  /** The dues a person keeps: what was paid, within that person's ceiling. */
  function KeptDues(m: Member, seuil: real): (r: real)
    ensures r <= m.dues && r <= DuesCeiling(m, seuil)
    ensures r == m.dues || r == DuesCeiling(m, seuil)
  {
    Min(m.dues, DuesCeiling(m, seuil))
  }

  /** `cotsyn`: the rate applied to the three persons' kept dues. */
  function Cotsyn(vous: Member, conj: Member, pac1: Member, p: CotsynParams): (r: real)
    ensures vous.NonNegative() && conj.NonNegative() && pac1.NonNegative() && p.Valid() ==>
              0.0 <= r <= vous.dues + conj.dues + pac1.dues &&
              r <= DuesCeiling(vous, p.seuil) + DuesCeiling(conj, p.seuil) + DuesCeiling(pac1, p.seuil)
  {
    var kept := KeptDues(vous, p.seuil) + KeptDues(conj, p.seuil) + KeptDues(pac1, p.seuil);
    KeptWithin(vous, conj, pac1, p.seuil);
    RateWithin(p.taux, kept, vous.dues + conj.dues + pac1.dues,
               DuesCeiling(vous, p.seuil) + DuesCeiling(conj, p.seuil) + DuesCeiling(pac1, p.seuil));
    p.taux * kept
  }

  /** A rate in [0, 1] applied to an amount keeps it within any bound of that amount. */
  lemma RateWithin(t: real, x: real, a: real, b: real)
    ensures 0.0 <= t <= 1.0 && 0.0 <= x <= a && x <= b ==> 0.0 <= t * x <= a && t * x <= b
  {
    ScaledWithin(t, x);
  }

  /** The dues the three persons keep lie between 0 and the dues paid, and within their ceilings. */
  lemma KeptWithin(vous: Member, conj: Member, pac1: Member, seuil: real)
    ensures vous.NonNegative() && conj.NonNegative() && pac1.NonNegative() && 0.0 <= seuil <= 1.0 ==>
              var kept := KeptDues(vous, seuil) + KeptDues(conj, seuil) + KeptDues(pac1, seuil);
              0.0 <= kept <= vous.dues + conj.dues + pac1.dues &&
              kept <= DuesCeiling(vous, seuil) + DuesCeiling(conj, seuil) + DuesCeiling(pac1, seuil)
  {
    if vous.NonNegative() && conj.NonNegative() && pac1.NonNegative() && 0.0 <= seuil <= 1.0 {
      assert 0.0 <= DuesCeiling(vous, seuil) && 0.0 <= DuesCeiling(conj, seuil) && 0.0 <= DuesCeiling(pac1, seuil);
    }
  }

  /** A person without incomes counts no dues, whatever was paid. */
  lemma CotsynNeedsIncome(vous: Member, conj: Member, pac1: Member, p: CotsynParams)
    requires vous.NonNegative() && conj.NonNegative() && pac1.NonNegative() && p.Valid()
    requires conj.salary == 0.0 && conj.unemployment == 0.0 && conj.pension == 0.0
    ensures Cotsyn(vous, conj, pac1, p) == Cotsyn(vous, conj.(dues := 0.0), pac1, p)
  {
  }
}
