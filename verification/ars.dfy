/**
 * The school-start allowance (`ars`): a flat amount per child at school,
 * by school level, paid in full under a resource ceiling that grows with the
 * number of dependent children, and paid as a differential allowance above
 * it, where the excess of resources is shared out between the children. An
 * amount under the minimum payment `seuil_nv` is not paid.
 *
 * Counting the children of each age bracket (`nb_enf`) is not part of this
 * model: the counts arrive as parameters, as do `af_nbenf` and `br_pf`.
 */
module Ars {
  import opened MinMax
  import opened Cascade

  /**
   * The children counted in September: `enf_05` (5-year-olds born before the
   * end of the year, admitted in primary school), the other primary-school
   * ages, the collège ages and the lycée ages.
   */
  datatype Children = Children(enf05: nat, primaire: nat, college: nat, lycee: nat)

  /** `enf_primaire = enf_05 + nb_enf(age, smic55, agep, agec - 1)` */
  function EnfPrimaire(c: Children): (n: nat)
    ensures n == 0 <==> c.enf05 == 0 && c.primaire == 0
  {
    c.enf05 + c.primaire
  }

  /** `arsnbenf`: the children who give a right to the allowance. */
  function ArsNbEnf(c: Children): (n: nat)
    ensures n == 0 <==> EnfPrimaire(c) == 0 && c.college == 0 && c.lycee == 0
    ensures EnfPrimaire(c) <= n && c.college <= n && c.lycee <= n
  {
    var primaire := EnfPrimaire(c);
    primaire + c.college + c.lycee
  }

  /** `fam.af.bmaf` and `fam.ars` */
  datatype ArsParams = ArsParams(bmaf: real, tx0610: real, tx1114: real, tx1518: real,
                                 plaf: real, plafEnfSupp: real, seuilNv: real)
  {
    predicate Valid() {
      0.0 <= bmaf && 0.0 <= tx0610 && 0.0 <= tx1114 && 0.0 <= tx1518 &&
      0.0 <= plaf && 0.0 <= plafEnfSupp && 0.0 <= seuilNv
    }
  }

  /** `ars_plaf_res = P.ars.plaf * (1 + af_nbenf * P.ars.plaf_enf_supp)`: the resource ceiling. */
  function PlafondRessources(afNbenf: nat, p: ArsParams): (r: real)
    ensures p.Valid() ==> p.plaf <= r
  {
    var factor := 1.0 + (afNbenf as real) * p.plafEnfSupp;
    ScaledMonotoneWhen(p.plafEnfSupp, 0.0, afNbenf as real);
    ScaledMonotoneWhen(p.plaf, 1.0, factor);
    p.plaf * factor
  }

  /** Each further dependent child raises the ceiling, or leaves it as it is. */
  lemma PlafondMonotone(n1: nat, n2: nat, p: ArsParams)
    requires p.Valid() && n1 <= n2
    ensures PlafondRessources(n1, p) <= PlafondRessources(n2, p)
  {
    var f1 := 1.0 + (n1 as real) * p.plafEnfSupp;
    var f2 := 1.0 + (n2 as real) * p.plafEnfSupp;
    ScaledMonotone(p.plafEnfSupp, n1 as real, n2 as real);
    assert f1 <= f2;
    ScaledMonotone(p.plaf, f1, f2);
  }

  /** `arsbase`: the full allowance, `bmaf` times the rate of each school level. */
  function ArsBase(c: Children, p: ArsParams): (r: real)
    ensures p.Valid() ==> 0.0 <= r
    ensures ArsNbEnf(c) == 0 ==> r == 0.0
  {
    var a0 := p.tx0610 * (EnfPrimaire(c) as real);
    var a1 := p.tx1114 * (c.college as real);
    var a2 := p.tx1518 * (c.lycee as real);
    BaseSign(p, EnfPrimaire(c) as real, c.college as real, c.lycee as real, a0, a1, a2);
    p.bmaf * (a0 + a1 + a2)
  }

  lemma BaseSign(p: ArsParams, n0: real, n1: real, n2: real, a0: real, a1: real, a2: real)
    requires 0.0 <= n0 && 0.0 <= n1 && 0.0 <= n2
    requires a0 == p.tx0610 * n0 && a1 == p.tx1114 * n1 && a2 == p.tx1518 * n2
    ensures p.Valid() ==> 0.0 <= p.bmaf * (a0 + a1 + a2)
    ensures n0 == 0.0 && n1 == 0.0 && n2 == 0.0 ==> p.bmaf * (a0 + a1 + a2) == 0.0
  {
    if p.Valid() {
      ScaledMonotone(p.tx0610, 0.0, n0);
      ScaledMonotone(p.tx1114, 0.0, n1);
      ScaledMonotone(p.tx1518, 0.0, n2);
      ScaledMonotone(p.bmaf, 0.0, a0 + a1 + a2);
    }
  }

  /** `max_(1, arsnbenf)`: the divisor of the excess, never zero. */
  function Divisor(n: nat): (d: real)
    ensures 1.0 <= d
    ensures 1 <= n ==> d == n as real
  {
    Max(1.0, n as real)
  }

  /** `max_(0, (br_pf - ars_plaf_res) / max_(1, arsnbenf))`: each child's share of the excess of resources. */
  function Excess(brPf: real, plafRes: real, n: nat): (r: real)
    ensures 0.0 <= r
    ensures brPf <= plafRes ==> r == 0.0
    ensures plafRes < brPf && 1 <= n ==> r * (n as real) == brPf - plafRes
  {
    var d := Divisor(n);
    DivisionSign(brPf - plafRes, d);
    Max(0.0, (brPf - plafRes) / d)
  }

  lemma DivisionSign(x: real, d: real)
    requires 1.0 <= d
    ensures x <= 0.0 ==> x / d <= 0.0
    ensures 0.0 < x ==> 0.0 < x / d && (x / d) * d == x
  {
  }

  /** `x / d` grows with `x` for a positive `d`. */
  lemma DivisionMonotone(x: real, y: real, d: real)
    requires x <= y && 1.0 <= d
    ensures x / d <= y / d
  {
    assert y / d - x / d == (y - x) / d;
    DivisionSign(y - x, d);
    if y - x > 0.0 {
      assert 0.0 < (y - x) / d;
    }
  }

  /** A larger excess of resources gives a larger share, or the same. */
  lemma ExcessMonotone(b1: real, b2: real, plafRes: real, n: nat)
    requires b1 <= b2
    ensures Excess(b1, plafRes, n) <= Excess(b2, plafRes, n)
  {
    DivisionMonotone(b1 - plafRes, b2 - plafRes, Divisor(n));
  }

  /** A higher ceiling gives a smaller share of the excess, or the same. */
  lemma ExcessCeilingMonotone(brPf: real, c1: real, c2: real, n: nat)
    requires c1 <= c2
    ensures Excess(brPf, c2, n) <= Excess(brPf, c1, n)
  {
    DivisionMonotone(brPf - c2, brPf - c1, Divisor(n));
  }

  /**
   * The allowance before the minimum payment: for a family with a child at
   * school, the full allowance less each child's share of the excess of
   * resources over the ceiling, never below 0; nothing without such a child.
   */
  function ArsBrut(c: Children, afNbenf: nat, brPf: real, p: ArsParams): (r: real)
    ensures 0.0 <= r
    ensures ArsNbEnf(c) == 0 ==> r == 0.0
  {
    var n := ArsNbEnf(c);
    When(n > 0, Max(0.0, ArsBase(c, p) - Excess(brPf, PlafondRessources(afNbenf, p), n)))
  }

  /** `ars * (ars >= P.ars.seuil_nv)`: the allowance paid. */
  function Ars(c: Children, afNbenf: nat, brPf: real, p: ArsParams): (r: real)
    ensures 0.0 <= r
    ensures r == 0.0 || r == ArsBrut(c, afNbenf, brPf, p)
    ensures r == ArsBrut(c, afNbenf, brPf, p) <==> ArsBrut(c, afNbenf, brPf, p) == 0.0 || p.seuilNv <= ArsBrut(c, afNbenf, brPf, p)
  {
    Threshold(ArsBrut(c, afNbenf, brPf, p), p.seuilNv)
  }

  /** No child of school age, no allowance. */
  lemma ArsNoChild(c: Children, afNbenf: nat, brPf: real, p: ArsParams)
    requires ArsNbEnf(c) == 0
    ensures Ars(c, afNbenf, brPf, p) == 0.0
  {
  }

  /** The allowance never exceeds the full allowance `arsbase`. */
  lemma ArsBounds(c: Children, afNbenf: nat, brPf: real, p: ArsParams)
    requires 0.0 <= ArsBase(c, p)
    ensures 0.0 <= Ars(c, afNbenf, brPf, p) <= ArsBase(c, p)
  {
    var b := ArsBrut(c, afNbenf, brPf, p);
    assert b <= ArsBase(c, p);
  }

  /** Under the ceiling the full allowance is due, subject to the minimum payment. */
  lemma ArsUnderCeiling(c: Children, afNbenf: nat, brPf: real, p: ArsParams)
    requires 0 < ArsNbEnf(c) && 0.0 <= ArsBase(c, p)
    requires brPf <= PlafondRessources(afNbenf, p)
    ensures ArsBrut(c, afNbenf, brPf, p) == ArsBase(c, p)
    ensures Ars(c, afNbenf, brPf, p) == Threshold(ArsBase(c, p), p.seuilNv)
  {
  }

  /**
   * Above the ceiling the differential allowance is due: the full allowance
   * less the excess of resources divided by the number of children, and never
   * below 0; so the total lost over all the children is the excess itself,
   * as long as something remains.
   */
  lemma ArsDifferential(c: Children, afNbenf: nat, brPf: real, p: ArsParams)
    requires 0 < ArsNbEnf(c)
    requires PlafondRessources(afNbenf, p) < brPf
    ensures var e := Excess(brPf, PlafondRessources(afNbenf, p), ArsNbEnf(c));
            ArsBrut(c, afNbenf, brPf, p) == Max(0.0, ArsBase(c, p) - e) &&
            e * (ArsNbEnf(c) as real) == brPf - PlafondRessources(afNbenf, p)
  {
  }

  /** More resources never raise the allowance. */
  lemma ArsResourcesMonotone(c: Children, afNbenf: nat, b1: real, b2: real, p: ArsParams)
    requires b1 <= b2
    ensures Ars(c, afNbenf, b2, p) <= Ars(c, afNbenf, b1, p)
  {
    var n := ArsNbEnf(c);
    var plafRes := PlafondRessources(afNbenf, p);
    ExcessMonotone(b1, b2, plafRes, n);
    ThresholdMonotone(ArsBrut(c, afNbenf, b2, p), ArsBrut(c, afNbenf, b1, p), p.seuilNv);
  }

  /** More dependent children raise the ceiling, so never lower the allowance. */
  lemma ArsDependentsMonotone(c: Children, n1: nat, n2: nat, brPf: real, p: ArsParams)
    requires p.Valid() && n1 <= n2
    ensures Ars(c, n1, brPf, p) <= Ars(c, n2, brPf, p)
  {
    PlafondMonotone(n1, n2, p);
    ExcessCeilingMonotone(brPf, PlafondRessources(n1, p), PlafondRessources(n2, p), ArsNbEnf(c));
    ThresholdMonotone(ArsBrut(c, n1, brPf, p), ArsBrut(c, n2, brPf, p), p.seuilNv);
  }
}
