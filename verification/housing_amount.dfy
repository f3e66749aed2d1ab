/**
 * `aide_logement_montant_brut`: the monthly housing aid of a tenant before
 * the CRDS contribution. The aid is the eligible expense (the retained rent
 * plus a flat allowance for charges) less a personal participation that grows
 * with the resources; it is paid only to tenants and only from a minimum amount.
 */
module HousingAmount {
  import opened MinMax
  import opened Cascade

  /** What the formula reads about the family and its dwelling. */
  datatype Household = Household(
    statut: int,      // `statut_occupation` of the head
    loyer: real,      // monthly rent
    coloc: bool,      // a shared tenancy
    chambre: bool,    // a rented room
    zone: int,        // `zone_apl_famille`
    alPac: nat,       // dependants in the sense of the housing aids
    concub: bool,
    enceinte: bool)
  {
    /** The couple scale also applies to a pregnant woman living alone. */
    predicate Couple() { concub || enceinte }
  }

  /** One zone of `al.loyers_plafond`: the rent ceilings for a single, a couple, a family and each extra dependant. */
  datatype ZoneCeilings = ZoneCeilings(l1: real, l2: real, l3: real, l4: real)

  /** `al` and the family allowance base `bmaf` of two years earlier. */
  datatype AmountParams = AmountParams(
    chambre: real, colocation: real,
    zone1: ZoneCeilings, zone2: ZoneCeilings, zone3: ZoneCeilings,
    fc1: real, fc2: real,
    rmi: real, r1Taux1: real, r1Taux2: real, r1Taux3: real, r1Taux4: real, r1Taux5: real,
    bmaf: real, r2Taux4: real, r2Taux5: real,
    abatSal: real,
    ppTaux: real, ppMin: real,
    tfTaux1: real, tfTaux2: real, tfTaux3: real, tfTaux4: real, tfTaux5: real, tfTaux6: real, tfTaux7: real,
    tlTaux2: real, tlTaux3: real,
    nvSeuil: real)
  {
    /** What the bounds below rely on: a non-negative minimum participation and non-negative family rates. */
    predicate Valid() {
      0.0 <= ppMin &&
      0.0 <= tfTaux1 && 0.0 <= tfTaux2 && 0.0 <= tfTaux3 && 0.0 <= tfTaux4 &&
      0.0 <= tfTaux5 && 0.0 <= tfTaux6 && 0.0 <= tfTaux7
    }
  }

  /** `loca`: tenants, statuses 3 to 5 and 7. */
  predicate Renting(statut: int) {
    (3 <= statut && 5 >= statut) || statut == 7
  }

  /** `L1`: the rent paid, two thirds of it for furnished housing (status 5). */
  function RentPaid(h: Household): real {
    When(h.statut == 5, h.loyer * 2.0 / 3.0) + When(h.statut != 5, h.loyer)
  }

  /** `taux_loyer_plafond`: the share of the ceiling for a room or a shared tenancy. */
  function CeilingShare(h: Household, p: AmountParams): real {
    When(!h.coloc && !h.chambre, 1.0) + When(h.chambre, p.chambre) + When(!h.chambre && h.coloc, p.colocation)
  }

  /**
   * The three scales `loyer_plafond_personne_seule`, `loyer_plafond_couple`
   * and `loyer_plafond_famille`; the source builds them as three masks that
   * exclude each other by construction.
   */
  datatype Scale = SingleScale | CoupleScale | FamilyScale

  function CeilingScale(h: Household): (s: Scale)
    ensures s == SingleScale <==> h.chambre || (!h.Couple() && h.alPac == 0)
    ensures s == FamilyScale <==> !h.chambre && h.alPac > 0
    ensures s == CoupleScale <==> !h.chambre && h.Couple() && h.alPac == 0
  {
    var single := (!h.Couple() && h.alPac == 0) || h.chambre;
    var family := !single && h.alPac > 0;
    if single then SingleScale else if family then FamilyScale else CoupleScale
  }

  /** `Lz1`, `Lz2`, `Lz3`: the ceiling of one zone for the household's scale. */
  function ZoneCeiling(z: ZoneCeilings, h: Household): real {
    match CeilingScale(h)
    case SingleScale => z.l1
    case CoupleScale => z.l2
    case FamilyScale => z.l3 + When(h.alPac > 1, (h.alPac - 1) as real * z.l4)
  }

  /** `L2`: the ceiling of the household's zone, 0 for a zone other than 1, 2 or 3, times the share. */
  function RentCeiling(h: Household, p: AmountParams): real {
    var ceiling := When(h.zone == 1, ZoneCeiling(p.zone1, h)) + When(h.zone == 2, ZoneCeiling(p.zone2, h)) +
                   When(h.zone == 3, ZoneCeiling(p.zone3, h));
    ceiling * CeilingShare(h, p)
  }

  /** `L = min_(L1, L2)`: the retained rent is the rent paid, up to the ceiling. */
  function RetainedRent(h: Household, p: AmountParams): (r: real)
    ensures r <= RentPaid(h) && r <= RentCeiling(h, p)
    ensures r == RentPaid(h) || r == RentCeiling(h, p)
  {
    var paid, ceiling := RentPaid(h), RentCeiling(h, p);
    if paid <= ceiling then paid else ceiling
  }

  /** `C`: the flat allowance for charges; a single sharing a tenancy counts half of `fc1`. */
  function Charges(h: Household, p: AmountParams): real {
    When(!h.coloc, p.fc1 + h.alPac as real * p.fc2) +
    When(h.coloc, (When(!h.Couple(), 0.5) + When(h.Couple(), 1.0)) * p.fc1 + h.alPac as real * p.fc2)
  }

  /** `E = L + C`: the eligible expense. */
  function Expense(h: Household, p: AmountParams): real {
    RetainedRent(h, p) + Charges(h, p)
  }

  /** `R1` less `R2`, times twelve and net of `abat_sal`: the resources `Ro` left out of the participation. */
  function ExemptResources(h: Household, p: AmountParams): real {
    var couple := h.Couple();
    var n := h.alPac;
    var r1 :=
      When(!couple && n == 0, p.r1Taux1 * p.rmi) + When(couple && n == 0, p.r1Taux2 * p.rmi) +
      When(n == 1, p.r1Taux3 * p.rmi) + When(n >= 2, p.r1Taux4 * p.rmi) +
      When(n > 2, p.r1Taux5 * p.rmi * (n - 2) as real);
    var r2 := When(n >= 2, p.r2Taux4 * p.bmaf) + When(n > 2, p.r2Taux5 * p.bmaf * (n - 2) as real);
    12.0 * (r1 - r2) * (1.0 - p.abatSal)
  }

  /** `TF`: the family rate. */
  function FamilyRate(h: Household, p: AmountParams): (r: real)
    ensures p.Valid() ==> 0.0 <= r
  {
    var couple := h.Couple();
    var n := h.alPac;
    When(!couple && n == 0, p.tfTaux1) + When(couple && n == 0, p.tfTaux2) + When(n == 1, p.tfTaux3) +
    When(n == 2, p.tfTaux4) + When(n == 3, p.tfTaux5) + When(n >= 4, p.tfTaux6) +
    When(n > 4, p.tfTaux7 * (n - 4) as real)
  }

  /** `L_Ref`: the reference rent, from the zone 2 ceilings. */
  function ReferenceRent(h: Household, p: AmountParams): real {
    var couple := h.Couple();
    var n := h.alPac;
    var z := p.zone2;
    When(!couple && n == 0, z.l1) + When(couple && n == 0, z.l2) + When(n >= 1, z.l3) +
    When(n > 1, z.l4 * (n - 1) as real)
  }

  /** `TL`: the rate on the ratio `RL` of the retained rent to the reference rent. */
  function RentRate(h: Household, p: AmountParams): (r: real)
    ensures 0.0 <= r
  {
    var lRef := ReferenceRent(h, p);
    var rl := if lRef == 0.0 then 0.0 else RetainedRent(h, p) / lRef;
    Max(Max(0.0, p.tlTaux2 * (rl - 0.45)), p.tlTaux3 * (rl - 0.75) + p.tlTaux2 * (0.75 - 0.45))
  }

  /** `Po`: the minimum participation, a share of the expense but at least `pp.min`. */
  function MinimumParticipation(h: Household, p: AmountParams): (r: real)
    ensures p.ppMin <= r
  {
    Max(p.ppTaux * Expense(h, p), p.ppMin)
  }

  /** `Tp = TF + TL`: the rate applied to the resources above `Ro`. */
  function ParticipationRate(h: Household, p: AmountParams): (r: real)
    ensures p.Valid() ==> 0.0 <= r
  {
    FamilyRate(h, p) + RentRate(h, p)
  }

  /** `Po + Tp * Rp`. */
  function Share(po: real, tp: real, rp: real): real {
    po + tp * rp
  }

  /** `PP`: the personal participation for resources `r`, with `Rp = max_(0, R - Ro)`. */
  function Participation(h: Household, r: real, p: AmountParams): real {
    Share(MinimumParticipation(h, p), ParticipationRate(h, p), Max(0.0, r - ExemptResources(h, p)))
  }

  /**
   * `aide_logement_montant_brut` for resources `r` (the rounded resource base):
   * the expense less the participation, floored at 0, for tenants only, and 0
   * under the payment threshold. The aid to home-buyers, `al_acc`, is 0.
   */
  function MontantBrut(h: Household, r: real, p: AmountParams): real {
    var alLoc := When(Renting(h.statut), Max(0.0, Expense(h, p) - Participation(h, r, p)));
    Threshold(alLoc, p.nvSeuil)
  }

  /** With valid parameters the participation is at least `pp.min`, so never negative. */
  lemma ParticipationNonNegative(h: Household, r: real, p: AmountParams)
    requires p.Valid()
    ensures p.ppMin <= Participation(h, r, p)
  {
    var tp := ParticipationRate(h, p);
    var rp := Max(0.0, r - ExemptResources(h, p));
    ProductNonNegative(tp, rp, tp * rp);
  }

  lemma ProductNonNegative(a: real, b: real, r: real)
    requires 0.0 <= a && 0.0 <= b && r == a * b
    ensures 0.0 <= r
  {
  }

  /**
   * The gross aid is 0 for anyone but a tenant and under the payment
   * threshold; otherwise it is the expense less the participation. It is
   * never negative, and with valid parameters never more than the eligible
   * expense (or 0), itself at most the rent paid plus the charges.
   */
  lemma MontantBrutBounds(h: Household, r: real, p: AmountParams)
    ensures 0.0 <= MontantBrut(h, r, p)
    ensures !Renting(h.statut) ==> MontantBrut(h, r, p) == 0.0
    ensures MontantBrut(h, r, p) != 0.0 ==>
              p.nvSeuil <= MontantBrut(h, r, p) && MontantBrut(h, r, p) == Expense(h, p) - Participation(h, r, p)
    ensures p.Valid() ==> MontantBrut(h, r, p) <= Max(0.0, Expense(h, p))
    ensures Expense(h, p) <= RentPaid(h) + Charges(h, p)
  {
    if p.Valid() {
      ParticipationNonNegative(h, r, p);
      assert Expense(h, p) == RetainedRent(h, p) + Charges(h, p);
    }
  }

  /** The retained rent never exceeds the rent paid, nor the ceiling; for furnished housing the rent paid is two thirds of the rent. */
  lemma RetainedRentBounds(h: Household, p: AmountParams)
    ensures RetainedRent(h, p) <= RentPaid(h) && RetainedRent(h, p) <= RentCeiling(h, p)
    ensures h.statut == 5 ==> RentPaid(h) == h.loyer * 2.0 / 3.0
    ensures h.statut != 5 ==> RentPaid(h) == h.loyer
  {
  }

  /** More resources never mean a larger participation, when the family and rent rates are non-negative. */
  lemma ParticipationMonotone(h: Household, r1: real, r2: real, p: AmountParams)
    requires p.Valid() && r1 <= r2
    ensures Participation(h, r1, p) <= Participation(h, r2, p)
  {
    var e := ExemptResources(h, p);
    ShareMonotone(MinimumParticipation(h, p), ParticipationRate(h, p), Max(0.0, r1 - e), Max(0.0, r2 - e));
  }

  lemma ShareMonotone(po: real, tp: real, a: real, b: real)
    requires 0.0 <= tp && a <= b
    ensures Share(po, tp, a) <= Share(po, tp, b)
  {
    ScaledMonotone(tp, a, b);
  }

  /** More resources never mean a larger aid. */
  lemma MontantBrutMonotone(h: Household, r1: real, r2: real, p: AmountParams)
    requires p.Valid() && r1 <= r2
    ensures MontantBrut(h, r2, p) <= MontantBrut(h, r1, p)
  {
    ParticipationMonotone(h, r1, r2, p);
    var e := Expense(h, p);
    ThresholdMonotone(When(Renting(h.statut), Max(0.0, e - Participation(h, r2, p))),
                      When(Renting(h.statut), Max(0.0, e - Participation(h, r1, p))), p.nvSeuil);
  }
}
