/**
 * The housing aids paid from the gross amount: the CRDS contribution taken
 * from it, and its split into the family allocation (ALF), the social
 * allocation for non-students and for students (ALS), and the personalised
 * aid (APL) for dwellings under an agreement; plus the code that flags the
 * cases the formula does not handle.
 */
module HousingAids {
  import opened MinMax
  import opened Cascade
  import HousingAmount

  /** `crds_logement`: the contribution, as a negative amount. */
  function CrdsLogement(brut: real, crds: real): (r: real)
    ensures 0.0 <= brut && 0.0 <= crds ==> r <= 0.0
    ensures crds == 0.0 || brut == 0.0 ==> r == 0.0
  {
    -brut * crds
  }

  /** `aide_logement_montant`: the gross amount plus the (negative) contribution. */
  function AideLogementMontant(brut: real, crds: real): (r: real)
    ensures 0.0 <= brut && 0.0 <= crds <= 1.0 ==> 0.0 <= r <= brut
  {
    ContributionWithin(brut, crds);
    brut + CrdsLogement(brut, crds)
  }

  /** A rate in [0, 1] takes at most the whole gross amount. */
  lemma ContributionWithin(brut: real, crds: real)
    ensures 0.0 <= brut && 0.0 <= crds <= 1.0 ==> 0.0 <= brut + CrdsLogement(brut, crds) <= brut
  {
    if 0.0 <= brut && 0.0 <= crds <= 1.0 {
      ScaledBase(crds, brut);
      assert CrdsLogement(brut, crds) == -(crds * brut);
    }
  }

  /** What the split of the aid reads about the family. */
  datatype AidFacts = AidFacts(
    alPac: nat,
    statut: int,                  // `statut_occupation` of the head
    procheProprietaire: bool,     // `proprietaire_proche_famille`
    etuChef: bool, etuPart: bool)

  /** `alf`: families with a dependant, outside agreed dwellings, not housed by a relative. */
  function Alf(f: AidFacts, montant: real): real {
    When(f.alPac >= 1 && f.statut != 3 && !f.procheProprietaire, montant)
  }

  /** `als_nonet`: no dependant, and neither the head nor the partner a student. */
  function AlsNonet(f: AidFacts, montant: real): real {
    When(f.alPac == 0 && f.statut != 3 && !f.procheProprietaire && !(f.etuChef || f.etuPart), montant)
  }

  /** `alset`: no dependant, and the head or the partner a student. */
  function Alset(f: AidFacts, montant: real): real {
    When(f.alPac == 0 && f.statut != 3 && !f.procheProprietaire && (f.etuChef || f.etuPart), montant)
  }

  /** `als = als_nonet + alset`. */
  function Als(f: AidFacts, montant: real): real {
    AlsNonet(f, montant) + Alset(f, montant)
  }

  /** `apl`: agreed dwellings, status 3. */
  function Apl(f: AidFacts, montant: real): real {
    When(f.statut == 3, montant)
  }

  /** `aide_logement = max_(max_(apl, als), alf)`. */
  function AideLogement(f: AidFacts, montant: real): real {
    Max(Max(Apl(f, montant), Als(f, montant)), Alf(f, montant))
  }

  /** The one aid a family is entitled to, if any: an independent statement of the four conditions. */
  datatype Aid = NoAid | AlfAid | AlsNonetAid | AlsetAid | AplAid

  function Entitlement(f: AidFacts): Aid {
    if f.statut == 3 then AplAid
    else if f.procheProprietaire then NoAid
    else if f.alPac >= 1 then AlfAid
    else if f.etuChef || f.etuPart then AlsetAid
    else AlsNonetAid
  }

  /**
   * Each aid is the net amount for the families entitled to it and 0 for the
   * others, so at most one of them is non-zero.
   */
  lemma AidsExclusive(f: AidFacts, montant: real)
    ensures Alf(f, montant) == When(Entitlement(f) == AlfAid, montant)
    ensures AlsNonet(f, montant) == When(Entitlement(f) == AlsNonetAid, montant)
    ensures Alset(f, montant) == When(Entitlement(f) == AlsetAid, montant)
    ensures Apl(f, montant) == When(Entitlement(f) == AplAid, montant)
    ensures Als(f, montant) == When(Entitlement(f) == AlsNonetAid || Entitlement(f) == AlsetAid, montant)
  {
  }

  /** The aid of any kind is the net amount, floored at 0, for an entitled family, and 0 otherwise. */
  lemma AideLogementIsEntitlement(f: AidFacts, montant: real)
    ensures AideLogement(f, montant) == When(Entitlement(f) != NoAid, Max(0.0, montant))
  {
    AidsExclusive(f, montant);
  }

  /** `aide_logement_non_calculable`: 1 for a first-time buyer (status 1), 2 for a hostel tenant (status 7). */
  function NonCalculable(statut: int): (r: int)
    ensures r == 1 <==> statut == 1
    ensures r == 2 <==> statut == 7
    ensures r == 0 <==> statut != 1 && statut != 7
  {
    (if statut == 1 then 1 else 0) + (if statut == 7 then 2 else 0)
  }

  /**
   * The first-time buyers flagged as not calculable get no aid from the
   * formula, while the hostel tenants it also flags are counted as tenants.
   */
  lemma NonCalculableCases(h: HousingAmount.Household, r: real, p: HousingAmount.AmountParams)
    ensures NonCalculable(h.statut) == 1 ==> HousingAmount.MontantBrut(h, r, p) == 0.0
    ensures NonCalculable(h.statut) == 2 ==> HousingAmount.Renting(h.statut)
  {
    HousingAmount.MontantBrutBounds(h, r, p);
  }
}
