/**
 * The resource base of the housing aids (article R351-7 of the French
 * building and housing code and what follows). Two candidate bases, a flat
 * one built from last month's salaries and the default one built from the
 * family-benefit resources, are computed separately; the final base picks one
 * of them, raises it to the student floor and rounds it up to a multiple of
 * 100 euros.
 */
module HousingResources {
  import opened MinMax
  import opened Cascade

  /** `ir.tspr.abatpro`: the allowance for professional expenses. */
  datatype Abatpro = Abatpro(taux: real, min: real, max: real)
  {
    predicate Valid() {
      0.0 <= taux <= 1.0 && 0.0 <= min <= max
    }
  }

  /** The allowance on a yearly salary: its rate share, clamped into `[min, max]`. */
  function Abatement(salaries: real, p: Abatpro): (a: real)
    ensures a <= p.max
    ensures p.min <= p.max ==> p.min <= a
    ensures p.min <= p.taux * salaries <= p.max ==> a == p.taux * salaries
  {
    Min(Max(p.taux * salaries, p.min), p.max)
  }

  /**
   * `aide_logement_base_ressources_eval_forfaitaire`: twelve times last
   * month's taxable salaries of the head and the partner, less the allowance,
   * floored at 0.
   */
  function EvalForfaitaire(salary: real, p: Abatpro): (r: real)
    ensures 0.0 <= r
    ensures p.Valid() ==> r <= Max(0.0, 12.0 * salary)
    ensures 12.0 * salary - Abatement(12.0 * salary, p) <= r
  {
    Max(0.0, 12.0 * salary - Abatement(12.0 * salary, p))
  }

  lemma ScaledGap(t: real, s1: real, s2: real, x1: real, x2: real)
    requires 0.0 <= t <= 1.0 && s1 <= s2 && x1 == t * s1 && x2 == t * s2
    ensures 0.0 <= x2 - x1 <= s2 - s1
  {
    var d := s2 - s1;
    ScaledBase(t, d);
    assert x2 - x1 == t * d;
  }

  /** Clamping into a fixed interval never widens a gap. */
  lemma ClampGap(x1: real, x2: real, lo: real, hi: real)
    requires x1 <= x2
    ensures 0.0 <= Min(Max(x2, lo), hi) - Min(Max(x1, lo), hi) <= x2 - x1
  {
  }

  /** A higher salary never lowers the flat resource base. */
  lemma EvalForfaitaireMonotone(s1: real, s2: real, p: Abatpro)
    requires p.Valid() && s1 <= s2
    ensures EvalForfaitaire(s1, p) <= EvalForfaitaire(s2, p)
  {
    var y1, y2 := 12.0 * s1, 12.0 * s2;
    var x1, x2 := p.taux * y1, p.taux * y2;
    ScaledGap(p.taux, y1, y2, x1, x2);
    ClampGap(x1, x2, p.min, p.max);
    RemainderMonotone(y1, y2, Abatement(y1, p), Abatement(y2, p));
  }

  lemma RemainderMonotone(y1: real, y2: real, a1: real, a2: real)
    requires a2 - a1 <= y2 - y1
    ensures Max(0.0, y1 - a1) <= Max(0.0, y2 - a2)
  {
  }

  /**
   * `aide_logement_base_ressources_defaut`: the family-benefit resources of
   * head and partner plus the collective incomes, less the unemployment and
   * retirement allowances and, for a household of two earners, the flat
   * allowance `dar_1`; floored at 0.
   */
  function BaseRessourcesDefaut(brChef: real, brPart: real, revColl: real, abattementChomage: real,
                                abattementRetraite: real, biact: bool, dar1: real): (r: real)
    ensures 0.0 <= r
    ensures var resources := brChef + brPart + revColl - abattementChomage - abattementRetraite;
            var allowance := if biact then dar1 else 0.0;
            (allowance <= resources ==> r == resources - allowance) &&
            (resources <= allowance ==> r == 0.0)
  {
    var resources := brChef + brPart + revColl - abattementChomage - abattementRetraite;
    var allowance := if biact then dar1 else 0.0;
    Max(resources - allowance, 0.0)
  }

  /** The smallest number of hundreds that reaches `x`: numpy's `ceil(x / 100)`. */
  function Hundreds(x: real): (k: int)
    ensures x <= (k as real) * 100.0 < x + 100.0
  {
    var y := x / 100.0;
    var f := y.Floor;
    if f as real == y then f else f + 1
  }

  /** `ceil(x / 100) * 100`. */
  function RoundUp100(x: real): (r: real)
    ensures x <= r < x + 100.0
  {
    (Hundreds(x) as real) * 100.0
  }

  /** No multiple of 100 that reaches `x` lies below the rounded value. */
  lemma RoundUpLeast(x: real, m: int)
    requires x <= (m as real) * 100.0
    ensures RoundUp100(x) <= (m as real) * 100.0
  {
    var k := Hundreds(x);
    assert (k as real) - 1.0 < m as real;
    assert k <= m;
  }

  /** Rounding up to hundreds never reverses an order. */
  lemma RoundUpMonotone(x: real, y: real)
    requires x <= y
    ensures RoundUp100(x) <= RoundUp100(y)
  {
    RoundUpLeast(x, Hundreds(y));
  }

  /** What `aide_logement_base_ressources` reads about the family. */
  datatype Family = Family(defaut: real, forfaitaire: real, concub: bool, aah: real,
                           ageChef: int, agePart: int, sommeSalaires: real,
                           etudiant: bool, boursier: bool)

  /** `al.ressources` and the gross hourly minimum wage of two years earlier. */
  datatype ResourceParams = ResourceParams(smicHoraireBrut: real, dar4: real, dar5: real,
                                           dar8: real, dar9: real)

  /** `neutral_jeune`: a head, or a partner in a couple, under 25 with salaries under the young ceiling. */
  predicate YoungNeutralised(f: Family, p: ResourceParams) {
    (f.ageChef < 25 || (f.concub && f.agePart < 25)) &&
    f.sommeSalaires < (if f.concub then p.dar9 else p.dar8)
  }

  /** `eval_forfaitaire`: the four conditions the source refines one after another with `&=`. */
  predicate UsesFlatBase(f: Family, p: ResourceParams) {
    f.defaut <= 1015.0 * p.smicHoraireBrut && f.forfaitaire > 0.0 && f.aah == 0.0 &&
    !YoungNeutralised(f, p)
  }

  /** The candidate base the family is assessed on. */
  function SelectedBase(f: Family, p: ResourceParams): (r: real)
    ensures UsesFlatBase(f, p) ==> r == f.forfaitaire
    ensures !UsesFlatBase(f, p) ==> r == f.defaut
  {
    if UsesFlatBase(f, p) then f.forfaitaire else f.defaut
  }

  /** `montant_plancher_ressources`: only the head's student and grant-holder status count. */
  function StudentFloor(etudiant: bool, boursier: bool, p: ResourceParams): (r: real)
    ensures 0.0 <= r
    ensures !etudiant && 0.0 <= p.dar5 ==> r == 0.0
    ensures etudiant && !boursier ==> r == Max(0.0, p.dar4)
  {
    Max(0.0, (if etudiant then p.dar4 else 0.0) - (if boursier then p.dar5 else 0.0))
  }

  /**
   * `aide_logement_base_ressources`: the selected base raised to the student
   * floor, rounded up to the next multiple of 100.
   */
  function BaseRessources(f: Family, p: ResourceParams): (r: real)
    ensures StudentFloor(f.etudiant, f.boursier, p) <= r
    ensures SelectedBase(f, p) <= r
    ensures r < Max(SelectedBase(f, p), StudentFloor(f.etudiant, f.boursier, p)) + 100.0
    ensures r == (Hundreds(Max(SelectedBase(f, p), StudentFloor(f.etudiant, f.boursier, p))) as real) * 100.0
  {
    RoundUp100(Max(SelectedBase(f, p), StudentFloor(f.etudiant, f.boursier, p)))
  }

  /**
   * The base is the least multiple of 100 at or above both the selected base
   * and the student floor.
   */
  lemma BaseRessourcesLeast(f: Family, p: ResourceParams, m: int)
    requires SelectedBase(f, p) <= (m as real) * 100.0
    requires StudentFloor(f.etudiant, f.boursier, p) <= (m as real) * 100.0
    ensures BaseRessources(f, p) <= (m as real) * 100.0
  {
    RoundUpLeast(Max(SelectedBase(f, p), StudentFloor(f.etudiant, f.boursier, p)), m);
  }

  /** A family with an adult disability allowance is always assessed on the default base. */
  lemma DisabilityUsesDefault(f: Family, p: ResourceParams)
    requires f.aah != 0.0
    ensures SelectedBase(f, p) == f.defaut
  {
  }

  /** A head under 25 earning under the young ceiling is never assessed on the flat base. */
  lemma YoungUsesDefault(f: Family, p: ResourceParams)
    requires f.ageChef < 25 && f.sommeSalaires < (if f.concub then p.dar9 else p.dar8)
    ensures SelectedBase(f, p) == f.defaut
  {
  }
}
