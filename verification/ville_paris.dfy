/**
 * The city of Paris's consumption units of a household
 * (`unites_consommation_paris`), the single-parent flag of a household
 * (`parent_isole_menage`) and the eligibility to the city's housing
 * solidarity fund (`fsl_eligibilite`), whose indicative ceiling is 1390 per
 * consumption unit.
 *
 * The members of a household arrive as the sequence of their ages, in the
 * order the roles are visited; a role nobody holds carries an age outside
 * [0, 150] and so adds nothing. The resources of the members
 * (`ass_base_ressources_i`) and the occupancy status arrive as parameters.
 */
module VilleParis {
  import opened Cascade

  /** `parent_isole_menage`: the `or` of the members' single-parent flags. */
  function ParentIsoleMenage(flags: seq<bool>): (r: bool)
    ensures r <==> exists i :: 0 <= i < |flags| && flags[i]
    decreases |flags|
  {
    if flags == [] then false
    else
      var rest := ParentIsoleMenage(flags[1..]);
      assert forall i :: 1 <= i < |flags| ==> flags[i] == flags[1..][i - 1];
      flags[0] || rest
  }

  /** `age_seuil_adulte` */
  const AgeSeuilAdulte := 20

  /** `adulte = (age_seuil_adulte < age) & (age <= 150)` */
  predicate Adulte(age: int) {
    AgeSeuilAdulte < age <= 150
  }

  /** `enfant = (0 <= age) & (age <= age_seuil_adulte)` */
  predicate Enfant(age: int) {
    0 <= age <= AgeSeuilAdulte
  }

  /** A member is an adult, a child, or neither; never both, and neither outside [0, 150]. */
  lemma BracketsDisjoint(age: int)
    ensures !(Adulte(age) && Enfant(age))
    ensures age < 0 || 150 < age ==> !Adulte(age) && !Enfant(age)
    ensures 0 <= age <= 150 ==> Adulte(age) || Enfant(age)
  {
  }

  /**
   * What one member adds: `adulte * 0.5 + enfant * (0.3 + enfant_de_parent_isole * 0.2)`,
   * where `enfant_de_parent_isole = enfant & parent_isole_menage`.
   */
  function MemberUnits(age: int, parentIsole: bool): (u: real)
    ensures Adulte(age) ==> u == 0.5
    ensures Enfant(age) ==> u == (if parentIsole then 0.5 else 0.3)
    ensures !Adulte(age) && !Enfant(age) ==> u == 0.0
  {
    var adulte := if Adulte(age) then 1.0 else 0.0;
    var enfant := if Enfant(age) then 1.0 else 0.0;
    var enfantDeParentIsole := if Enfant(age) && parentIsole then 1.0 else 0.0;
    adulte * 0.5 + enfant * (0.3 + enfantDeParentIsole * 0.2)
  }

  /** The units of a household whose members have the ages `ages`, visited in that order, from `uc = 0.5`. */
  function Units(ages: seq<int>, parentIsole: bool): real
    decreases |ages|
  {
    if ages == [] then 0.5
    else Units(ages[..|ages| - 1], parentIsole) + MemberUnits(ages[|ages| - 1], parentIsole)
  }

  /** `unites_consommation_paris`: the loop over the members of the household. */
  method UnitesConsommationParis(ages: seq<int>, parentIsole: bool) returns (uc: real)
    ensures uc == Units(ages, parentIsole)
  {
    uc := 0.5;
    for i := 0 to |ages|
      invariant uc == Units(ages[..i], parentIsole)
    {
      assert ages[..i + 1][..i] == ages[..i];
      uc := uc + MemberUnits(ages[i], parentIsole);
    }
    assert ages[..|ages|] == ages;
  }

  /** The number of adults among `ages`. */
  function Adults(ages: seq<int>): (n: nat)
    ensures n <= |ages|
    decreases |ages|
  {
    if ages == [] then 0
    else Adults(ages[..|ages| - 1]) + (if Adulte(ages[|ages| - 1]) then 1 else 0)
  }

  /** The number of children among `ages`. */
  function Children(ages: seq<int>): (n: nat)
    ensures n <= |ages|
    decreases |ages|
  {
    if ages == [] then 0
    else Children(ages[..|ages| - 1]) + (if Enfant(ages[|ages| - 1]) then 1 else 0)
  }

  /** Consumption units per child: 0.3, or 0.5 in a single-parent household. */
  function ChildUnits(parentIsole: bool): real {
    if parentIsole then 0.5 else 0.3
  }

  /**
   * The units in closed form: 0.5 for the household, 0.5 per adult, and 0.3
   * per child, 0.5 in a single-parent household.
   */
  lemma {:induction false} UnitsClosedForm(ages: seq<int>, parentIsole: bool)
    ensures Units(ages, parentIsole) ==
            0.5 + 0.5 * (Adults(ages) as real) + ChildUnits(parentIsole) * (Children(ages) as real)
    decreases |ages|
  {
    if ages != [] {
      var front := ages[..|ages| - 1];
      UnitsClosedForm(front, parentIsole);
      var a, c := Adults(front) as real, Children(front) as real;
      var age := ages[|ages| - 1];
      BracketsDisjoint(age);
      if Adulte(age) {
        assert Adults(ages) as real == a + 1.0;
      } else if Enfant(age) {
        assert Children(ages) as real == c + 1.0;
        assert ChildUnits(parentIsole) * (c + 1.0) == ChildUnits(parentIsole) * c + ChildUnits(parentIsole);
      }
    }
  }

  /** A household always has at least half a unit. */
  lemma {:induction false} UnitsAtLeastHalf(ages: seq<int>, parentIsole: bool)
    ensures 0.5 <= Units(ages, parentIsole)
    decreases |ages|
  {
    if ages != [] {
      UnitsAtLeastHalf(ages[..|ages| - 1], parentIsole);
    }
  }

  /** A further member never lowers the units. */
  lemma UnitsAddMember(ages: seq<int>, age: int, parentIsole: bool)
    ensures Units(ages, parentIsole) <= Units(ages + [age], parentIsole)
  {
    assert (ages + [age])[..|ages|] == ages;
  }

  /** Visiting two groups of members in either order gives the same units. */
  lemma {:induction false} UnitsAppend(a: seq<int>, b: seq<int>, parentIsole: bool)
    ensures Units(a + b, parentIsole) == Units(a, parentIsole) + Units(b, parentIsole) - 0.5
    decreases |b|
  {
    if b != [] {
      var n := |b| - 1;
      UnitsAppend(a, b[..n], parentIsole);
      assert (a + b)[..|a + b| - 1] == a + b[..n];
      assert (a + b)[|a + b| - 1] == b[n];
    } else {
      assert a + b == a;
    }
  }

  lemma UnitsOrder(a: seq<int>, b: seq<int>, parentIsole: bool)
    ensures Units(a + b, parentIsole) == Units(b + a, parentIsole)
  {
    UnitsAppend(a, b, parentIsole);
    UnitsAppend(b, a, parentIsole);
  }

  /** `plafond_personne_seule` */
  const PlafondPersonneSeule := 1390.0

  /**
   * `eligibilite_logement`: the sum of the four tests `statut_occupation == 3`,
   * `== 4`, `== 5` and `== 7` (the tenant statuses), so 0 or 1.
   */
  function EligibiliteLogement(statut: int): (r: int)
    ensures r == 0 || r == 1
    ensures r == 1 <==> statut == 3 || statut == 4 || statut == 5 || statut == 7
  {
    (if statut == 3 then 1 else 0) + (if statut == 4 then 1 else 0) +
    (if statut == 5 then 1 else 0) + (if statut == 7 then 1 else 0)
  }

  /**
   * `fsl_eligibilite`: `eligibilite_logement * (ass_base_ressources < 1390 * uc)`,
   * where `ass_base_ressources` sums the members' resources.
   */
  function FslEligibilite(statut: int, ressources: seq<real>, uc: real): (r: real)
    ensures r == 0.0 || r == 1.0
    ensures r == 1.0 <==> EligibiliteLogement(statut) == 1 && Sum(ressources) < PlafondPersonneSeule * uc
  {
    var logement := EligibiliteLogement(statut) as real;
    var ressourcesOk := if Sum(ressources) < PlafondPersonneSeule * uc then 1.0 else 0.0;
    logement * ressourcesOk
  }

  /** A household that is eligible stays eligible when a member without resources joins it. */
  lemma FslLargerHousehold(statut: int, ressources: seq<real>, ages: seq<int>, age: int, parentIsole: bool)
    requires FslEligibilite(statut, ressources, Units(ages, parentIsole)) == 1.0
    ensures FslEligibilite(statut, ressources + [0.0], Units(ages + [age], parentIsole)) == 1.0
  {
    UnitsAddMember(ages, age, parentIsole);
    SumAppendZero(ressources);
    var u, u' := Units(ages, parentIsole), Units(ages + [age], parentIsole);
    assert PlafondPersonneSeule * u <= PlafondPersonneSeule * u';
  }

  lemma {:induction false} SumAppendZero(s: seq<real>)
    ensures Sum(s + [0.0]) == Sum(s)
    decreases |s|
  {
    if s != [] {
      assert (s + [0.0])[1..] == s[1..] + [0.0];
      SumAppendZero(s[1..]);
    }
  }

  /** Whatever the household, resources under 1390 per consumption unit pass the resource test, so 695 suffice. */
  lemma FslSingleCeiling(statut: int, ressources: seq<real>, ages: seq<int>, parentIsole: bool)
    requires EligibiliteLogement(statut) == 1 && Sum(ressources) < 695.0
    ensures FslEligibilite(statut, ressources, Units(ages, parentIsole)) == 1.0
  {
    UnitsAtLeastHalf(ages, parentIsole);
  }
}
