/**
 * `reductions`: the income-tax reductions of a fiscal household, added up
 * and capped by the net tax `ip_net`. Which reductions are added depends on
 * the year; the model holds, for every dated variant, the list of reductions
 * it adds. The amount of each reduction is computed elsewhere and arrives
 * here as the function `amount`.
 */
module Reductions {
  import opened MinMax
  import opened Dated

  /** Every reduction some year adds to the total. */
  datatype Reduction =
    | Accult | Adhcga | Assvie | Cappme | Cotsyn | Creaen | Daepad | Deffor | Dfppce
    | Doment | Domlog | Domsoc | Donapd | Duflot | Ecodev | Ecpess | Garext | Intagr
    | Intcon | Intemp | Invfor | Invlst | Invrev | Locmeu | Mecena | Mohist | Patnat
    | Prcomp | Repsoc | Resimm | Rsceha | Saldom | Scelli | Sofica | Sofipe | Spfcpi

  /** The alphabetical rank of a reduction's name. */
  function Rank(c: Reduction): (r: nat)
    ensures r < 36
  {
    match c
    case Accult => 0  case Adhcga => 1  case Assvie => 2  case Cappme => 3
    case Cotsyn => 4  case Creaen => 5  case Daepad => 6  case Deffor => 7
    case Dfppce => 8  case Doment => 9  case Domlog => 10 case Domsoc => 11
    case Donapd => 12 case Duflot => 13 case Ecodev => 14 case Ecpess => 15
    case Garext => 16 case Intagr => 17 case Intcon => 18 case Intemp => 19
    case Invfor => 20 case Invlst => 21 case Invrev => 22 case Locmeu => 23
    case Mecena => 24 case Mohist => 25 case Patnat => 26 case Prcomp => 27
    case Repsoc => 28 case Resimm => 29 case Rsceha => 30 case Saldom => 31
    case Scelli => 32 case Sofica => 33 case Sofipe => 34 case Spfcpi => 35
  }

  /** The reduction of a given alphabetical rank. */
  function FromRank(n: nat): Reduction
    requires n < 36
  {
    if n == 0 then Accult else
    if n == 1 then Adhcga else
    if n == 2 then Assvie else
    if n == 3 then Cappme else
    if n == 4 then Cotsyn else
    if n == 5 then Creaen else
    if n == 6 then Daepad else
    if n == 7 then Deffor else
    if n == 8 then Dfppce else
    if n == 9 then Doment else
    if n == 10 then Domlog else
    if n == 11 then Domsoc else
    if n == 12 then Donapd else
    if n == 13 then Duflot else
    if n == 14 then Ecodev else
    if n == 15 then Ecpess else
    if n == 16 then Garext else
    if n == 17 then Intagr else
    if n == 18 then Intcon else
    if n == 19 then Intemp else
    if n == 20 then Invfor else
    if n == 21 then Invlst else
    if n == 22 then Invrev else
    if n == 23 then Locmeu else
    if n == 24 then Mecena else
    if n == 25 then Mohist else
    if n == 26 then Patnat else
    if n == 27 then Prcomp else
    if n == 28 then Repsoc else
    if n == 29 then Resimm else
    if n == 30 then Rsceha else
    if n == 31 then Saldom else
    if n == 32 then Scelli else
    if n == 33 then Sofica else
    if n == 34 then Sofipe else
    Spfcpi
  }

  lemma RankRoundTrip(c: Reduction)
    ensures FromRank(Rank(c)) == c
  {
  }

  lemma FromRankRoundTrip(n: nat)
    requires n < 36
    ensures Rank(FromRank(n)) == n
  {
  }

  // The reductions each variant adds.

  const Added2002: set<Reduction> := {
    Adhcga, Assvie, Cappme, Cotsyn, Daepad, Dfppce, Doment, Domlog, Donapd, Ecpess, Garext, Intemp,
    Invfor, Invrev, Prcomp, Rsceha, Saldom, Spfcpi
  }

  const Added2003: set<Reduction> := {
    Adhcga, Assvie, Cappme, Cotsyn, Daepad, Dfppce, Doment, Domlog, Donapd, Ecpess, Garext, Intemp,
    Invfor, Invrev, Prcomp, Repsoc, Rsceha, Saldom, Spfcpi
  }

  const Added2005: set<Reduction> := {
    Adhcga, Cappme, Cotsyn, Daepad, Dfppce, Doment, Domlog, Donapd, Ecpess, Intagr, Intcon, Invfor,
    Invlst, Prcomp, Repsoc, Rsceha, Saldom, Spfcpi
  }

  /** The 2006 and 2007 variants add the same reductions. */
  const Added2006: set<Reduction> := {
    Adhcga, Cappme, Cotsyn, Creaen, Daepad, Deffor, Dfppce, Doment, Domlog, Donapd, Ecpess, Intagr,
    Invfor, Invlst, Prcomp, Repsoc, Rsceha, Saldom, Sofica, Spfcpi
  }

  const Added2008: set<Reduction> := {
    Adhcga, Cappme, Cotsyn, Creaen, Daepad, Deffor, Dfppce, Doment, Domlog, Donapd, Ecpess, Intagr,
    Invfor, Invlst, Mohist, Prcomp, Repsoc, Rsceha, Saldom, Sofica, Spfcpi
  }

  const Added2009: set<Reduction> := {
    Adhcga, Cappme, Cotsyn, Creaen, Daepad, Deffor, Dfppce, Doment, Domlog, Domsoc, Donapd, Ecodev,
    Ecpess, Intagr, Invfor, Invlst, Locmeu, Mohist, Prcomp, Repsoc, Resimm, Rsceha, Saldom, Scelli,
    Sofica, Sofipe, Spfcpi
  }

  /** The 2010 and 2011 variants add the same reductions. */
  const Added2010: set<Reduction> := {
    Adhcga, Cappme, Cotsyn, Creaen, Daepad, Deffor, Dfppce, Doment, Domlog, Domsoc, Donapd, Ecpess,
    Intagr, Invfor, Invlst, Locmeu, Mohist, Patnat, Prcomp, Repsoc, Resimm, Rsceha, Saldom, Scelli,
    Sofica, Sofipe, Spfcpi
  }

  const Added2012: set<Reduction> := {
    Adhcga, Cappme, Creaen, Daepad, Deffor, Dfppce, Doment, Domlog, Domsoc, Donapd, Ecpess, Intagr,
    Invfor, Invlst, Locmeu, Mohist, Patnat, Prcomp, Repsoc, Resimm, Rsceha, Saldom, Scelli, Sofica,
    Spfcpi
  }

  const Added2013: set<Reduction> := {
    Accult, Adhcga, Cappme, Creaen, Daepad, Deffor, Dfppce, Doment, Domlog, Donapd, Duflot, Ecpess,
    Garext, Intagr, Invfor, Invlst, Locmeu, Mecena, Mohist, Patnat, Prcomp, Repsoc, Resimm, Rsceha,
    Saldom, Scelli, Sofica, Spfcpi
  }

  const Table: seq<Variant<set<Reduction>>> := [
    Variant(YearStart(2002), YearEnd(2002), Added2002),
    Variant(YearStart(2003), YearEnd(2004), Added2003),
    Variant(YearStart(2005), YearEnd(2005), Added2005),
    Variant(YearStart(2006), YearEnd(2006), Added2006),
    Variant(YearStart(2007), YearEnd(2007), Added2006),
    Variant(YearStart(2008), YearEnd(2008), Added2008),
    Variant(YearStart(2009), YearEnd(2009), Added2009),
    Variant(YearStart(2010), YearEnd(2010), Added2010),
    Variant(YearStart(2011), YearEnd(2011), Added2010),
    Variant(YearStart(2012), YearEnd(2012), Added2012),
    Variant(YearStart(2013), YearEnd(2013), Added2013)
  ]

  /** The amounts of the reductions of rank below `n` that `added` holds, added up by rank. */
  function SumBelow(n: nat, added: set<Reduction>, amount: Reduction -> real): real
    requires n <= 36
  {
    if n == 0 then 0.0
    else SumBelow(n - 1, added, amount) + (if FromRank(n - 1) in added then amount(FromRank(n - 1)) else 0.0)
  }

  /** `total_reductions`: the amounts of the reductions a variant adds. */
  function Total(added: set<Reduction>, amount: Reduction -> real): real {
    SumBelow(36, added, amount)
  }

  /** `min_(ip_net, total_reductions)` for the variant holding `d`; `None` outside 2002-2013. */
  function ReductionsAt(d: Date, amount: Reduction -> real, ipNet: real): (r: Option<real>)
    ensures r.Some? ==> r.value <= ipNet
  {
    match Select(Table, d)
    case None => None
    case Some(added) => Some(Min(ipNet, Total(added, amount)))
  }

  /** The table runs day after day from 2002-01-01 to 2013-12-31, so at most one variant holds a date. */
  lemma TableWellFormed()
    ensures Contiguous(Table) && PairwiseDisjoint(Table)
    ensures Table[0].start == Date(2002, 1, 1) && Table[|Table| - 1].stop == Date(2013, 12, 31)
  {
    ByYearsContiguous(Table);
    ContiguousDisjoint(Table);
  }

  /** Every valid date of 2002-2013 finds its variant; no date before 2002 or after 2013 does. */
  lemma ReductionsDefined(d: Date, amount: Reduction -> real, ipNet: real)
    ensures ValidDate(d) && 2002 <= d.year <= 2013 ==> ReductionsAt(d, amount, ipNet).Some?
    ensures d.year < 2002 || 2013 < d.year ==> ReductionsAt(d, amount, ipNet) == None
  {
    TableWellFormed();
    if ValidDate(d) && 2002 <= d.year <= 2013 {
      ContiguousCovers(Table, d);
    }
    if d.year < 2002 || 2013 < d.year {
      ContiguousOutside(Table, d);
    }
  }

  /**
   * The capped total is at most `ip_net` and at most the total; it is the
   * total when that fits under `ip_net`, and `ip_net` otherwise.
   */
  lemma CappedByNetTax(d: Date, amount: Reduction -> real, ipNet: real)
    ensures match Select(Table, d)
            case None => ReductionsAt(d, amount, ipNet) == None
            case Some(added) =>
              var r := ReductionsAt(d, amount, ipNet).value;
              var total := Total(added, amount);
              r <= ipNet && r <= total &&
              (total <= ipNet ==> r == total) && (ipNet < total ==> r == ipNet)
  {
  }

  lemma {:induction false} SumNonNegative(n: nat, added: set<Reduction>, amount: Reduction -> real)
    requires n <= 36
    requires forall c :: 0.0 <= amount(c)
    ensures 0.0 <= SumBelow(n, added, amount)
  {
    if n > 0 {
      SumNonNegative(n - 1, added, amount);
    }
  }

  /** Non-negative reductions under a non-negative net tax give a non-negative result. */
  lemma ReductionsNonNegative(d: Date, amount: Reduction -> real, ipNet: real)
    requires forall c :: 0.0 <= amount(c)
    requires 0.0 <= ipNet
    ensures ReductionsAt(d, amount, ipNet).Some? ==> 0.0 <= ReductionsAt(d, amount, ipNet).value
  {
    if Select(Table, d).Some? {
      SumNonNegative(36, Select(Table, d).value, amount);
    }
  }

  lemma {:induction false} SumReadsAdded(n: nat, added: set<Reduction>, a1: Reduction -> real, a2: Reduction -> real)
    requires n <= 36
    requires forall c :: c in added ==> a1(c) == a2(c)
    ensures SumBelow(n, added, a1) == SumBelow(n, added, a2)
  {
    if n > 0 {
      SumReadsAdded(n - 1, added, a1, a2);
    }
  }

  /** Reductions a variant does not add do not enter its total. */
  lemma TotalReadsAdded(added: set<Reduction>, a1: Reduction -> real, a2: Reduction -> real)
    requires forall c :: c in added ==> a1(c) == a2(c)
    ensures Total(added, a1) == Total(added, a2)
  {
    SumReadsAdded(36, added, a1, a2);
  }

  lemma {:induction false} SumMonotone(n: nat, added: set<Reduction>, a1: Reduction -> real, a2: Reduction -> real)
    requires n <= 36
    requires forall c :: a1(c) <= a2(c)
    ensures SumBelow(n, added, a1) <= SumBelow(n, added, a2)
  {
    if n > 0 {
      SumMonotone(n - 1, added, a1, a2);
    }
  }

  /** Raising any reduction never lowers the capped total. */
  lemma ReductionsMonotone(d: Date, a1: Reduction -> real, a2: Reduction -> real, ipNet: real)
    requires forall c :: a1(c) <= a2(c)
    ensures match Select(Table, d)
            case None => true
            case Some(_) => ReductionsAt(d, a1, ipNet).value <= ReductionsAt(d, a2, ipNet).value
  {
    if Select(Table, d).Some? {
      SumMonotone(36, Select(Table, d).value, a1, a2);
    }
  }

  /** A reduction of rank below `n` is met once on the way down from `n`. */
  lemma {:induction false} SumAddOne(n: nat, added: set<Reduction>, c: Reduction, amount: Reduction -> real)
    requires n <= 36 && c !in added
    ensures SumBelow(n, added + {c}, amount) ==
            SumBelow(n, added, amount) + (if Rank(c) < n then amount(c) else 0.0)
  {
    if n > 0 {
      SumAddOne(n - 1, added, c, amount);
      RankRoundTrip(c);
      FromRankRoundTrip(n - 1);
    }
  }

  /** A variant extended with one more reduction adds exactly its amount. */
  lemma TotalAddOne(added: set<Reduction>, c: Reduction, amount: Reduction -> real)
    requires c !in added
    ensures Total(added + {c}, amount) == Total(added, amount) + amount(c)
  {
    SumAddOne(36, added, c, amount);
  }

  /** 2003-2004 adds `repsoc` to the reductions of 2002. */
  lemma Total2003(amount: Reduction -> real)
    ensures Total(Added2003, amount) == Total(Added2002, amount) + amount(Repsoc)
  {
    assert Added2003 == Added2002 + {Repsoc};
    TotalAddOne(Added2002, Repsoc, amount);
  }

  /** 2008 adds `mohist` to the reductions of 2006-2007. */
  lemma Total2008(amount: Reduction -> real)
    ensures Total(Added2008, amount) == Total(Added2006, amount) + amount(Mohist)
  {
    assert Added2008 == Added2006 + {Mohist};
    TotalAddOne(Added2006, Mohist, amount);
  }

  /** 2012 drops `cotsyn` and `sofipe` from the reductions of 2010-2011. */
  lemma Total2012(amount: Reduction -> real)
    ensures Total(Added2010, amount) == Total(Added2012, amount) + amount(Cotsyn) + amount(Sofipe)
  {
    assert Added2010 == Added2012 + {Cotsyn} + {Sofipe};
    TotalAddOne(Added2012, Cotsyn, amount);
    TotalAddOne(Added2012 + {Cotsyn}, Sofipe, amount);
  }

  lemma {:induction false} SumOfOne(n: nat, added: set<Reduction>, c: Reduction, amount: Reduction -> real)
    requires n <= 36
    requires forall x :: x != c ==> amount(x) == 0.0
    ensures SumBelow(n, added, amount) == if Rank(c) < n && c in added then amount(c) else 0.0
  {
    if n > 0 {
      SumOfOne(n - 1, added, c, amount);
      RankRoundTrip(c);
      FromRankRoundTrip(n - 1);
    }
  }

  /** Each year counts a reduction it adds exactly once, and one it does not add not at all. */
  lemma CountedOnce(d: Date, c: Reduction, amount: Reduction -> real, ipNet: real)
    requires forall x :: x != c ==> amount(x) == 0.0
    ensures match Select(Table, d)
            case None => true
            case Some(added) =>
              ReductionsAt(d, amount, ipNet) == Some(Min(ipNet, if c in added then amount(c) else 0.0))
  {
    if Select(Table, d).Some? {
      SumOfOne(36, Select(Table, d).value, c, amount);
    }
  }
}
