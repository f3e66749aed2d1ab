# OpenFisca-France: income-tax reductions, housing aids, ARS and Paris aids in Dafny

This project models part of OpenFisca-France, a microsimulation engine for the French tax and benefit system:

- the cap on the income-tax reductions of a fiscal household (`reductions`) and several of the reductions it adds up;
- the housing aids (`aides_logement`): the resource base, the gross amount, the split between APL, ALF and ALS, and the APL zone table of the communes;
- the school-start allowance (`ars`);
- the city of Paris's consumption units and its housing solidarity fund (`ville_paris`).

The engine hands each formula the variables it asks for (`simulation.calculate`), the household's legislation parameters (`legislation_at(...)`) and the role splits. Here these are plain arguments. Parameters are records with a `Valid()` predicate: rates lie in [0, 1] and ceilings are non-negative. Every formula stays total, and the bounds it promises are stated under `Valid()`.

Money is `real`, so the sums and products are exact. A formula dated by `@dated_function(start, stop)` becomes a table of `Dated.Variant`s. `Dated.Select` picks the variant whose days hold the date, and each table is proved contiguous: the variants follow one another day by day, with no gap and no overlap. A numpy mask `(cond) * x` is `MinMax.When(cond, x)`. `min_` and `max_` are `MinMax.Min` and `MinMax.Max`, taken on one entity at a time.

Modules:

- `MinMax`: `Min`, `Max`, `mini`, `maxi`, the mask and the payment threshold.
- `Dated`: dates and dated tables.
- `Cascade`: the pattern shared by the reductions. Several boxes consume one ceiling in turn, each with its own rate. It proves that the bases kept add up to `min(ceiling, total)`.
- Reductions: `Reductions`, `Resimm`, `Invfor`, `Funds` (`sofica`, `spfcpi`), `Saldom`, `Cappme`, `Capped` (`deffor`, `mohist`, `donapd`, `cotsyn`) and `Prcomp`.
- Housing aids: `HousingResources`, `HousingAmount`, `HousingAids` and `ZoneApl`.
- `Ars` and `VilleParis`.

The Paris consumption units are a loop in the source. They are a method with a loop, proved equal to a recursive definition, and that definition is proved equal to a closed form. The subcommune step of the APL zone table is also a loop in the source. It is a method proved equal to a fold, whose properties are lemmas.

Where the source and its documentation differ, the model follows the source, with two exceptions. Two formulas look wrong: `invfor` in 2011, 2012 and 2013 (the same line three times) and `prcomp`. They are listed under "## Findings". For these two, `Invfor.InvforAt` and `Prcomp.Prcomp` use a corrected form. The form as written is kept beside it, together with an input on which the two differ.

## Model

| member | source | states |
|---|---|---|
| Reductions.ReductionsAt | openfisca_france/model/prelevements_obligatoires/impot_revenu/reductions_impot.py:70-72 | the reductions granted never exceed the net tax `ip_net` |
| Reductions.Total | openfisca_france/model/prelevements_obligatoires/impot_revenu/reductions_impot.py:70-71 | computes `total_reductions`, the sum of the amounts of the reductions a variant adds; `Reductions.TotalAddOne` and `Reductions.CountedOnce` pin it down |
| Reductions.CappedByNetTax | openfisca_france/model/prelevements_obligatoires/impot_revenu/reductions_impot.py:70-72 | the result is `min(ip_net, total)`: the whole total when it is within the net tax, the net tax otherwise, and never more than either |
| Reductions.ReductionsDefined | openfisca_france/model/prelevements_obligatoires/impot_revenu/reductions_impot.py:44-430 | the variable is defined on every valid day of 2002-2013 and undefined before 2002 and after 2013 |
| Reductions.TableWellFormed | openfisca_france/model/prelevements_obligatoires/impot_revenu/reductions_impot.py:44-391 | the eleven dated variants run from 2002-01-01 to 2013-12-31, day after day, and no two overlap |
| Reductions.ReductionsNonNegative | openfisca_france/model/prelevements_obligatoires/impot_revenu/reductions_impot.py:70-72 | with non-negative reductions and net tax, the result is non-negative |
| Reductions.ReductionsMonotone | openfisca_france/model/prelevements_obligatoires/impot_revenu/reductions_impot.py:70-72 | raising any reduction never lowers the result |
| Reductions.TotalReadsAdded | openfisca_france/model/prelevements_obligatoires/impot_revenu/reductions_impot.py:44-72 | the total depends only on the reductions the variant adds |
| Reductions.TotalAddOne | openfisca_france/model/prelevements_obligatoires/impot_revenu/reductions_impot.py:44-72 | adding one more reduction to a variant adds exactly its amount to the total |
| Reductions.CountedOnce | openfisca_france/model/prelevements_obligatoires/impot_revenu/reductions_impot.py:44-430 | every reduction is counted once, in every year that adds it, and not at all in the other years |
| Reductions.Total2003 | openfisca_france/model/prelevements_obligatoires/impot_revenu/reductions_impot.py:74-103 | the 2003-2004 total is the 2002 total plus `repsoc` |
| Reductions.Total2008 | openfisca_france/model/prelevements_obligatoires/impot_revenu/reductions_impot.py:200-231 | the 2008 total is the 2006-2007 total plus `mohist` |
| Reductions.Total2012 | openfisca_france/model/prelevements_obligatoires/impot_revenu/reductions_impot.py:353-389 | the 2012 total is the 2010-2011 total less `cotsyn` and `sofipe` |
| MinMax.Mini | openfisca_france/model/prelevements_obligatoires/impot_revenu/reductions_impot.py:3145-3149 | `mini` is below every argument and equal to one of them |
| MinMax.Maxi | openfisca_france/model/prelevements_obligatoires/impot_revenu/reductions_impot.py:3152-3156 | `maxi` is above every argument and equal to one of them |
| MinMax.MiniThree | openfisca_france/model/prelevements_obligatoires/impot_revenu/reductions_impot.py:3145-3149 | with three arguments `mini` is the nested binary minimum |
| MinMax.MiniMaxiDual | openfisca_france/model/prelevements_obligatoires/impot_revenu/reductions_impot.py:3145-3156 | `mini` of some values is minus `maxi` of their negations |
| Cascade.RetainedTotal | openfisca_france/model/prelevements_obligatoires/impot_revenu/reductions_impot.py:2511-2516 | when boxes consume one ceiling in turn, each keeping `min(box, what is left)`, the kept bases add up to `min(ceiling, total of the boxes)` |
| Cascade.CascadeBounds | openfisca_france/model/prelevements_obligatoires/impot_revenu/reductions_impot.py:2511-2516 | with rates in [0, 1], the reduction of such a cascade lies between 0 and `min(ceiling, total of the boxes)` |
| Resimm.FormIsCascade | openfisca_france/model/prelevements_obligatoires/impot_revenu/reductions_impot.py:2483-2564 | each yearly form of `resimm` is the cascade of its boxes under `P.max`, in the order the source consumes the ceiling |
| Resimm.Resimm2009 | openfisca_france/model/prelevements_obligatoires/impot_revenu/reductions_impot.py:2483-2496 | computes the 2009-2010 form; `Resimm.Cascade2009` states it as a cascade |
| Resimm.Resimm2011 | openfisca_france/model/prelevements_obligatoires/impot_revenu/reductions_impot.py:2498-2516 | computes the 2011 form; `Resimm.Cascade2011` states it as a cascade |
| Resimm.Resimm2012 | openfisca_france/model/prelevements_obligatoires/impot_revenu/reductions_impot.py:2518-2539 | computes the 2012 form; `Resimm.Cascade2012` states it as a cascade |
| Resimm.Resimm2013 | openfisca_france/model/prelevements_obligatoires/impot_revenu/reductions_impot.py:2541-2564 | computes the 2013 form; `Resimm.Cascade2013` states it as a cascade |
| Resimm.ResimmAt | openfisca_france/model/prelevements_obligatoires/impot_revenu/reductions_impot.py:2478-2564 | computes `resimm` for the variant holding the date; `Resimm.ResimmBounds` bounds it |
| Resimm.Cascade2009 | openfisca_france/model/prelevements_obligatoires/impot_revenu/reductions_impot.py:2494-2496 | the 2009-2010 form is 7RB then 7RA under `P.max` |
| Resimm.Cascade2011 | openfisca_france/model/prelevements_obligatoires/impot_revenu/reductions_impot.py:2511-2516 | the 2011 form is 7RD, 7RB, 7RC, then 7RA under `P.max` |
| Resimm.Cascade2012 | openfisca_france/model/prelevements_obligatoires/impot_revenu/reductions_impot.py:2533-2539 | the 2012 form is 7RD, 7RB, 7RC + 7RF, 7RA, then 7RE under `P.max` |
| Resimm.Cascade2013 | openfisca_france/model/prelevements_obligatoires/impot_revenu/reductions_impot.py:2558-2564 | the 2013 form adds 7SY to the third base and 7SX to the last |
| Resimm.Bases2011 | openfisca_france/model/prelevements_obligatoires/impot_revenu/reductions_impot.py:2511-2516 | the four 2011 bases add up to `min(P.max, 7RD + 7RB + 7RC + 7RA)` |
| Resimm.ApplyBounds | openfisca_france/model/prelevements_obligatoires/impot_revenu/reductions_impot.py:2483-2564 | every form lies between 0 and `P.max` |
| Resimm.ResimmBounds | openfisca_france/model/prelevements_obligatoires/impot_revenu/reductions_impot.py:2478-2564 | whatever the date, `resimm` lies between 0 and `P.max` |
| Resimm.TableContiguous | openfisca_france/model/prelevements_obligatoires/impot_revenu/reductions_impot.py:2483-2542 | the variants run day after day from 2009-01-01 to 2013-12-31 |
| Invfor.Invfor2002 | openfisca_france/model/prelevements_obligatoires/impot_revenu/reductions_impot.py:1789-1790 | the 2002-2005 form lies between 0 and the acquisitions of box 7UN |
| Invfor.Invfor2006 | openfisca_france/model/prelevements_obligatoires/impot_revenu/reductions_impot.py:1802 | the uncapped 2006-2008 form lies between 0 and 7UN |
| Invfor.Invfor2009 | openfisca_france/model/prelevements_obligatoires/impot_revenu/reductions_impot.py:1817-1818 | the 2009 form lies between 0 and 7UN + 7UP + 7UQ |
| Invfor.Invfor2010 | openfisca_france/model/prelevements_obligatoires/impot_revenu/reductions_impot.py:1835-1838 | the 2010 form lies between 0 and the boxes it counts |
| Invfor.SharedIsCascade | openfisca_france/model/prelevements_obligatoires/impot_revenu/reductions_impot.py:1858-1931 | each corrected 2011-2013 form is the part outside the works ceiling plus the cascade of 7UL, the carry-overs and 7UP under the works ceiling |
| Invfor.LeftAfter2010AsWritten | openfisca_france/model/prelevements_obligatoires/impot_revenu/reductions_impot.py:1859 | computes the ceiling left after the 2010 carry-over as the source writes it, `max0 - f7uu + f7te + f7uv + f7tf`, floored at 0 |
| Invfor.LeftAfter2010 | openfisca_france/model/prelevements_obligatoires/impot_revenu/reductions_impot.py:1859 | computes the corrected ceiling left after the 2010 carry-over, all four boxes taken off |
| Invfor.Invfor2011AsWritten | openfisca_france/model/prelevements_obligatoires/impot_revenu/reductions_impot.py:1840-1865 | computes the 2011 form as written; `Invfor.Invfor2011ExceedsCeiling` shows it exceeding the works ceiling |
| Invfor.Invfor2012AsWritten | openfisca_france/model/prelevements_obligatoires/impot_revenu/reductions_impot.py:1867-1896 | computes the 2012 form as written; `Invfor.Invfor2012ExceedsCeiling` shows it exceeding the works ceiling |
| Invfor.Invfor2013AsWritten | openfisca_france/model/prelevements_obligatoires/impot_revenu/reductions_impot.py:1898-1931 | computes the 2013 form as written; `Invfor.Invfor2013ExceedsCeiling` shows it exceeding the works ceiling |
| Invfor.Invfor2011 | openfisca_france/model/prelevements_obligatoires/impot_revenu/reductions_impot.py:1840-1865 | computes the corrected 2011 form; `Invfor.WorksCeilingShared` keeps it within the works ceiling |
| Invfor.Invfor2012 | openfisca_france/model/prelevements_obligatoires/impot_revenu/reductions_impot.py:1867-1896 | computes the corrected 2012 form; `Invfor.WorksCeilingShared` keeps it within the works ceiling |
| Invfor.Invfor2013 | openfisca_france/model/prelevements_obligatoires/impot_revenu/reductions_impot.py:1898-1931 | computes the corrected 2013 form; `Invfor.WorksCeilingShared` keeps it within the works ceiling |
| Invfor.InvforAt | openfisca_france/model/prelevements_obligatoires/impot_revenu/reductions_impot.py:1773-1931 | computes `invfor` for the variant holding the date, with the corrected 2011-2013 forms; `Invfor.InvforNonNegative` bounds it |
| Invfor.Cascade2011 | openfisca_france/model/prelevements_obligatoires/impot_revenu/reductions_impot.py:1858-1865 | the part of the corrected 2011 form under the works ceiling is the cascade of its boxes |
| Invfor.Cascade2012 | openfisca_france/model/prelevements_obligatoires/impot_revenu/reductions_impot.py:1887-1896 | the part of the corrected 2012 form under the works ceiling is the cascade of its boxes |
| Invfor.Cascade2013 | openfisca_france/model/prelevements_obligatoires/impot_revenu/reductions_impot.py:1920-1931 | the part of the corrected 2013 form under the works ceiling is the cascade of its boxes |
| Invfor.WorksCeilingShared | openfisca_france/model/prelevements_obligatoires/impot_revenu/reductions_impot.py:1858-1931 | in the corrected forms, the bases that use the works ceiling add up to `min(ceiling, their total)`, and their part of the reduction lies between 0 and the ceiling |
| Invfor.Invfor2011ExceedsCeiling | openfisca_france/model/prelevements_obligatoires/impot_revenu/reductions_impot.py:1858-1865 | as written, the 2011 form lets bases of 200 use a works ceiling of 100 |
| Invfor.Invfor2011WithinCeiling | openfisca_france/model/prelevements_obligatoires/impot_revenu/reductions_impot.py:1858-1865 | the corrected form keeps the same household within the ceiling |
| Invfor.LaterFormsWithoutLaterCarryOver | openfisca_france/model/prelevements_obligatoires/impot_revenu/reductions_impot.py:1858-1931 | with nothing carried over from 2011 or 2012, the 2012 and 2013 forms reduce to the 2011 form, both as written and corrected |
| Invfor.Invfor2012ExceedsCeiling | openfisca_france/model/prelevements_obligatoires/impot_revenu/reductions_impot.py:1887-1896 | on the same household, the as-written 2012 form again lets bases of 200 use a works ceiling of 100, and the corrected form gives 100 |
| Invfor.Invfor2013ExceedsCeiling | openfisca_france/model/prelevements_obligatoires/impot_revenu/reductions_impot.py:1920-1931 | on the same household, the as-written 2013 form again lets bases of 200 use a works ceiling of 100, and the corrected form gives 100 |
| Invfor.AsWrittenAgreesWithoutOtherCarryOver | openfisca_france/model/prelevements_obligatoires/impot_revenu/reductions_impot.py:1858-1931 | when 7TE, 7UV and 7TF are empty, the as-written and corrected 2011-2013 forms agree |
| Invfor.InvforNonNegative | openfisca_france/model/prelevements_obligatoires/impot_revenu/reductions_impot.py:1773-1931 | whatever the date, `invfor` is non-negative |
| Invfor.TableContiguous | openfisca_france/model/prelevements_obligatoires/impot_revenu/reductions_impot.py:1778-1899 | the variants run day after day from 2002-01-01 to 2013-12-31 |
| Funds.SoficaCeiling | openfisca_france/model/prelevements_obligatoires/impot_revenu/reductions_impot.py:3024 | `max0` is at most `P.max`, and non-negative with valid parameters |
| Funds.Sofica | openfisca_france/model/prelevements_obligatoires/impot_revenu/reductions_impot.py:3013-3026 | computes `sofica`; `Funds.SoficaIsCascade` and `Funds.SoficaBounds` state what it is |
| Funds.SoficaAt | openfisca_france/model/prelevements_obligatoires/impot_revenu/reductions_impot.py:3007-3026 | `sofica` exists exactly from 2006-01-01 |
| Funds.SoficaIsCascade | openfisca_france/model/prelevements_obligatoires/impot_revenu/reductions_impot.py:3024-3026 | `sofica` is 7GN then 7FN under `max0` |
| Funds.SoficaBounds | openfisca_france/model/prelevements_obligatoires/impot_revenu/reductions_impot.py:3024-3026 | the two bases add up to `min(max0, 7GN + 7FN)`, and `sofica` lies between 0 and `max0` |
| Funds.SoficaNeedsIncome | openfisca_france/model/prelevements_obligatoires/impot_revenu/reductions_impot.py:3024 | a negative net global income gives no reduction |
| Funds.SpfcpiBounds | openfisca_france/model/prelevements_obligatoires/impot_revenu/reductions_impot.py:3059-3142 | every form lies between 0 and the boxes it counts, and each box contributes at most `max1` |
| Funds.Spfcpi | openfisca_france/model/prelevements_obligatoires/impot_revenu/reductions_impot.py:3059-3142 | computes each form of `spfcpi`, every box capped by `max1` on its own; `Funds.SpfcpiBounds` bounds it |
| Funds.SpfcpiAt | openfisca_france/model/prelevements_obligatoires/impot_revenu/reductions_impot.py:3054-3142 | computes `spfcpi` for the variant holding the date; `Funds.Spfcpi2014Zero` gives its 2014 value |
| Funds.SpfcpiCoupleNotLower | openfisca_france/model/prelevements_obligatoires/impot_revenu/reductions_impot.py:3072-3130 | a married or pacsed household never gets less |
| Funds.Spfcpi2014Zero | openfisca_france/model/prelevements_obligatoires/impot_revenu/reductions_impot.py:3132-3142 | on every day of 2014 the reduction is 0, whatever the boxes |
| Funds.SpfcpiTableContiguous | openfisca_france/model/prelevements_obligatoires/impot_revenu/reductions_impot.py:3059-3133 | the variants run day after day from 2002-01-01 to 2014-12-31 |
| Saldom.NonDisabledCeiling | openfisca_france/model/prelevements_obligatoires/impot_revenu/reductions_impot.py:2625-2628 | the ceiling without disability is the smaller of `maxBase + P.pac * nbpacmin` and its top amount, where `nbpacmin = nb_pac2 + f7dl` may hold half shares; it is non-negative |
| Saldom.EffectiveCeiling | openfisca_france/model/prelevements_obligatoires/impot_revenu/reductions_impot.py:2607-2678 | disability (7DG) sets the ceiling to `P.max3`; the ceiling is non-negative when `nb_pac2` is |
| Saldom.ReductionBounds | openfisca_france/model/prelevements_obligatoires/impot_revenu/reductions_impot.py:2594-2680 | `saldom` lies between 0 and `P.taux * maxEffectif` |
| Saldom.Reduction | openfisca_france/model/prelevements_obligatoires/impot_revenu/reductions_impot.py:2594-2680 | computes each form of `saldom`, the rate on the expenses within the ceiling; `Saldom.ReductionBounds` bounds it |
| Saldom.SaldomAt | openfisca_france/model/prelevements_obligatoires/impot_revenu/reductions_impot.py:2594-2680 | computes `saldom` for the variant holding the date |
| Saldom.LeftWithinCeiling | openfisca_france/model/prelevements_obligatoires/impot_revenu/reductions_impot.py:2653-2679 | `max1` lies in [0, maxEffectif], and from 2007 it is `max(maxEffectif - 7DB, 0)` |
| Saldom.CeilingShared | openfisca_france/model/prelevements_obligatoires/impot_revenu/reductions_impot.py:2653-2680 | from 2007, the bases of 7DB and 7DF together stay within `maxEffectif` |
| Saldom.EarlyFormsIgnoreTaxCredit | openfisca_france/model/prelevements_obligatoires/impot_revenu/reductions_impot.py:2594-2630 | before 2007, box 7DB has no effect |
| Saldom.CeilingWithinTop | openfisca_france/model/prelevements_obligatoires/impot_revenu/reductions_impot.py:2628-2677 | without disability the ceiling never exceeds `maxDuMaxNonInv` |
| Saldom.CeilingGrowsWithDependants | openfisca_france/model/prelevements_obligatoires/impot_revenu/reductions_impot.py:2625-2677 | one more child in 7DL never lowers the ceiling |
| Saldom.CeilingGrowsWithShares | openfisca_france/model/prelevements_obligatoires/impot_revenu/reductions_impot.py:2625-2677 | a larger `nb_pac2`, by a whole dependant or a half share, never lowers the ceiling |
| Saldom.DependantsRaise | openfisca_france/model/prelevements_obligatoires/impot_revenu/reductions_impot.py:2625-2677 | of two households that differ only in their dependants, the one with more has a ceiling at least as high, in every form |
| Saldom.NonDisabledMonotone | openfisca_france/model/prelevements_obligatoires/impot_revenu/reductions_impot.py:2628 | the ceiling without disability grows with `nbpacmin` |
| Saldom.HalfShare | openfisca_france/model/prelevements_obligatoires/impot_revenu/reductions_impot.py:2625-2628 | below the top amount, half a share of `nb_pac2` (a child in alternating residence) raises the ceiling by half of `P.pac` |
| Saldom.TableContiguous | openfisca_france/model/prelevements_obligatoires/impot_revenu/reductions_impot.py:2594-2656 | the variants run day after day from 2002-01-01 to 2013-12-31 |
| Cappme.TpeAwareCeiling | openfisca_france/model/prelevements_obligatoires/impot_revenu/reductions_impot.py:575 | the ceiling is `P.seuil_tpe` per spouse when 7CU is filled, and `P.seuil` per spouse otherwise |
| Cappme.EarlyBounds | openfisca_france/model/prelevements_obligatoires/impot_revenu/reductions_impot.py:487-576 | up to 2010, the reduction lies between 0 and `P.taux` times the ceiling, and is at most the base |
| Cappme.EarlyBase | openfisca_france/model/prelevements_obligatoires/impot_revenu/reductions_impot.py:487-576 | computes the boxes each form up to 2010 counts; `Cappme.EarlyFormsGrow` orders them |
| Cappme.Cappme2011Of | openfisca_france/model/prelevements_obligatoires/impot_revenu/reductions_impot.py:578-598 | computes the 2011 form, two buckets under one ceiling; `Cappme.Bounds2011` bounds it |
| Cappme.Cappme2012Of | openfisca_france/model/prelevements_obligatoires/impot_revenu/reductions_impot.py:600-623 | computes the 2012 form; `Cappme.LateFormsNonNegative` and `Cappme.Cappme2012NeedsLargeTpeCeiling` state when it is non-negative |
| Cappme.Cappme2013Of | openfisca_france/model/prelevements_obligatoires/impot_revenu/reductions_impot.py:625-648 | computes the 2013 form; `Cappme.LateFormsNonNegative` states when it is non-negative |
| Cappme.CappmeAt | openfisca_france/model/prelevements_obligatoires/impot_revenu/reductions_impot.py:482-648 | computes `cappme` for the variant holding the date |
| Cappme.EarlyFormsGrow | openfisca_france/model/prelevements_obligatoires/impot_revenu/reductions_impot.py:487-555 | from 2002 to 2008 each form counts at least the boxes of the one before |
| Cappme.BucketsShareCeiling | openfisca_france/model/prelevements_obligatoires/impot_revenu/reductions_impot.py:596-598 | in 2011 the two buckets keep `min(seuil, all boxes)` together, and the reduction lies between 0 and the ceiling |
| Cappme.Bounds2011 | openfisca_france/model/prelevements_obligatoires/impot_revenu/reductions_impot.py:578-598 | the 2011 form lies between 0 and its ceiling |
| Cappme.TpeCeilings | openfisca_france/model/prelevements_obligatoires/impot_revenu/reductions_impot.py:619-621 | when `P.seuil_tpe` is at least twice `P.seuil`, `seuil3` lies in [0, seuil1] and the bases it caps stay within the very-small-firm ceiling |
| Cappme.NonNegative2012 | openfisca_france/model/prelevements_obligatoires/impot_revenu/reductions_impot.py:619-623 | when the very-small-firm ceiling is at least twice `seuil1`, the 2012 formula is non-negative |
| Cappme.NonNegative2013 | openfisca_france/model/prelevements_obligatoires/impot_revenu/reductions_impot.py:644-648 | when the very-small-firm ceiling is at least twice `seuil1`, the 2013 formula is non-negative |
| Cappme.LateFormsNonNegative | openfisca_france/model/prelevements_obligatoires/impot_revenu/reductions_impot.py:578-648 | when `P.seuil_tpe` is at least twice `P.seuil`, the 2011-2013 forms are non-negative |
| Cappme.Cappme2012NeedsLargeTpeCeiling | openfisca_france/model/prelevements_obligatoires/impot_revenu/reductions_impot.py:619-623 | without that condition the 2012 formula can go below 0 |
| Cappme.TableContiguous | openfisca_france/model/prelevements_obligatoires/impot_revenu/reductions_impot.py:487-626 | the variants run day after day from 2002-01-01 to 2013-12-31 |
| Capped.DefforAt | openfisca_france/model/prelevements_obligatoires/impot_revenu/reductions_impot.py:768-783 | `deffor` exists exactly from 2006-01-01, lies between 0 and `P.taux * P.max`, and is at most box 7UC |
| Capped.MohistAt | openfisca_france/model/prelevements_obligatoires/impot_revenu/reductions_impot.py:2343-2358 | `mohist` exists exactly from 2008-01-01, lies between 0 and `P.taux * P.max`, and is at most box 7NZ |
| Capped.DonapdBase | openfisca_france/model/prelevements_obligatoires/impot_revenu/reductions_impot.py:1576-1588 | the gifts counted lie between 7UD and 7UD + 7VA |
| Capped.DonapdBounds | openfisca_france/model/prelevements_obligatoires/impot_revenu/reductions_impot.py:1562-1588 | `donapd` lies between 0 and `P.taux * P.max`, and is at most the gifts |
| Capped.DonapdAt | openfisca_france/model/prelevements_obligatoires/impot_revenu/reductions_impot.py:1562-1588 | computes `donapd` for the variant holding the date; `Capped.DonapdBounds` and `Capped.DonapdBoxes` state what it is |
| Capped.DonapdBoxes | openfisca_france/model/prelevements_obligatoires/impot_revenu/reductions_impot.py:1567-1588 | on every day of 2002-2010, 7VA has no effect; on every day of 2011-2013, it counts like 7UD |
| Capped.DonapdTableContiguous | openfisca_france/model/prelevements_obligatoires/impot_revenu/reductions_impot.py:1567-1579 | the variants run day after day from 2002-01-01 to 2013-12-31 |
| Capped.DuesCeiling | openfisca_france/model/prelevements_obligatoires/impot_revenu/reductions_impot.py:679-686 | a person's ceiling on union dues lies between 0 and that person's incomes |
| Capped.KeptDues | openfisca_france/model/prelevements_obligatoires/impot_revenu/reductions_impot.py:688 | the dues kept are the smaller of the dues paid and the ceiling |
| Capped.Cotsyn | openfisca_france/model/prelevements_obligatoires/impot_revenu/reductions_impot.py:660-688 | `cotsyn` lies between 0 and the dues paid, and is at most the three ceilings |
| Capped.CotsynNeedsIncome | openfisca_france/model/prelevements_obligatoires/impot_revenu/reductions_impot.py:683-688 | a spouse without income counts no dues |
| Prcomp.Divisor | openfisca_france/model/prelevements_obligatoires/impot_revenu/reductions_impot.py:2444 | `div` is 1 for a zero total, the total otherwise, and positive for a non-negative total |
| Prcomp.PrcompRule | openfisca_france/model/prelevements_obligatoires/impot_revenu/reductions_impot.py:2446-2453 | the corrected reduction is the rate on the amount paid, cut to the share `seuil / 7WO` over the ceiling, when the amount counts, plus the rate on the carry-over 7WP |
| Prcomp.Prcomp | openfisca_france/model/prelevements_obligatoires/impot_revenu/reductions_impot.py:2446-2453 | computes the corrected `prcomp`; `Prcomp.PrcompRule` states it as one rule |
| Prcomp.PrcompAsWritten | openfisca_france/model/prelevements_obligatoires/impot_revenu/reductions_impot.py:2446-2453 | computes `prcomp` as the source writes it; `Prcomp.AsWrittenCountsTwiceAtCeiling` and `Prcomp.AsWrittenDropsCeilingFactor` show where it departs from the rule |
| Prcomp.WithCapitalAsWritten | openfisca_france/model/prelevements_obligatoires/impot_revenu/reductions_impot.py:2449-2452 | computes the part where 7WM is filled as the source writes it |
| Prcomp.RuleWithoutCapital | openfisca_france/model/prelevements_obligatoires/impot_revenu/reductions_impot.py:2446-2448 | with 7WM empty, the amount paid counts when it is at most the total |
| Prcomp.RuleWithCapital | openfisca_france/model/prelevements_obligatoires/impot_revenu/reductions_impot.py:2449-2452 | with 7WM filled, the amount paid counts when it is at least the capital |
| Prcomp.PrcompBounds | openfisca_france/model/prelevements_obligatoires/impot_revenu/reductions_impot.py:2446-2453 | the reduction lies between 0 and `P.taux * (7WN + 7WP)` |
| Prcomp.PrcompWithinCeiling | openfisca_france/model/prelevements_obligatoires/impot_revenu/reductions_impot.py:2446-2452 | within the ceiling, an amount that counts counts in full |
| Prcomp.ProRataOfTotal | openfisca_france/model/prelevements_obligatoires/impot_revenu/reductions_impot.py:2448 | when the amount paid in the year is the whole total, the pro-rata reduction is the rate times the ceiling |
| Prcomp.AsWrittenAgrees | openfisca_france/model/prelevements_obligatoires/impot_revenu/reductions_impot.py:2446-2453 | with 7WM empty, or a total below the ceiling, the as-written formula and the corrected one agree |
| Prcomp.AsWrittenCountsTwiceAtCeiling | openfisca_france/model/prelevements_obligatoires/impot_revenu/reductions_impot.py:2449-2450 | at the ceiling, the as-written formula counts the amount paid twice |
| Prcomp.AsWrittenDropsCeilingFactor | openfisca_france/model/prelevements_obligatoires/impot_revenu/reductions_impot.py:2450-2452 | over the ceiling, the as-written formula drops the factor `P.seuil` |
| HousingResources.Abatement | openfisca_france/model/prestations/aides_logement.py:111-117 | the professional-expenses abatement is at most `max`, at least `min`, and `taux * salaries` between the two |
| HousingResources.EvalForfaitaire | openfisca_france/model/prestations/aides_logement.py:99-120 | the flat-rate base is non-negative, at most twelve months of salary, and at least those salaries less the abatement |
| HousingResources.EvalForfaitaireMonotone | openfisca_france/model/prestations/aides_logement.py:111-118 | a higher salary never lowers the flat-rate base |
| HousingResources.BaseRessourcesDefaut | openfisca_france/model/prestations/aides_logement.py:167-194 | the default base is the resources less the abatements, less `dar_1` for a two-earner household, and 0 when that would go negative |
| HousingResources.Hundreds | openfisca_france/model/prestations/aides_logement.py:246 | `ceil(x / 100)`: the least number of hundreds that reaches `x` |
| HousingResources.RoundUp100 | openfisca_france/model/prestations/aides_logement.py:246 | rounding up to the hundred lands in `[x, x + 100)` |
| HousingResources.RoundUpLeast | openfisca_france/model/prestations/aides_logement.py:246 | the rounded amount is the least multiple of 100 that is at least `x` |
| HousingResources.RoundUpMonotone | openfisca_france/model/prestations/aides_logement.py:246 | rounding up keeps the order |
| HousingResources.SelectedBase | openfisca_france/model/prestations/aides_logement.py:219-233 | the flat-rate base is used exactly when the default base is at most `1015 * smic`, the flat-rate base is positive, there is no AAH and the young-household neutralisation does not apply; the default base is used otherwise |
| HousingResources.StudentFloor | openfisca_france/model/prestations/aides_logement.py:235-242 | the student floor is non-negative, 0 for a non-student, and `dar_4` for a student without a grant |
| HousingResources.BaseRessources | openfisca_france/model/prestations/aides_logement.py:198-248 | the base is at least the selected base and the student floor, and it is their maximum rounded up to the hundred |
| HousingResources.BaseRessourcesLeast | openfisca_france/model/prestations/aides_logement.py:242-246 | the base is the least multiple of 100 above both |
| HousingResources.DisabilityUsesDefault | openfisca_france/model/prestations/aides_logement.py:228-233 | with AAH, the default base is used |
| HousingResources.YoungUsesDefault | openfisca_france/model/prestations/aides_logement.py:224-233 | a young head with salaries under the ceiling gets the default base |
| HousingAmount.CeilingScale | openfisca_france/model/prestations/aides_logement.py:312-314 | the single scale applies exactly to a room or to a person alone without dependants; otherwise the family scale applies exactly when there is a dependant, and the couple scale exactly to a couple without dependants |
| HousingAmount.RetainedRent | openfisca_france/model/prestations/aides_logement.py:336-340 | the rent retained is the smaller of the rent paid and the rent ceiling |
| HousingAmount.RetainedRentBounds | openfisca_france/model/prestations/aides_logement.py:305-340 | statut 5 pays two thirds of the rent; the retained rent is within the rent paid and the ceiling |
| HousingAmount.FamilyRate | openfisca_france/model/prestations/aides_logement.py:379-387 | the family rate `TF` is non-negative with valid parameters |
| HousingAmount.RentRate | openfisca_france/model/prestations/aides_logement.py:390-397 | the rent rate `TL` is non-negative |
| HousingAmount.MinimumParticipation | openfisca_france/model/prestations/aides_logement.py:376 | the minimum participation is at least `pp.min` |
| HousingAmount.ParticipationRate | openfisca_france/model/prestations/aides_logement.py:400-402 | the participation rate `Tp` is non-negative |
| HousingAmount.ParticipationNonNegative | openfisca_france/model/prestations/aides_logement.py:373-404 | the personal participation is at least `pp.min` |
| HousingAmount.ParticipationMonotone | openfisca_france/model/prestations/aides_logement.py:373-404 | more resources never lower the participation |
| HousingAmount.MontantBrutBounds | openfisca_france/model/prestations/aides_logement.py:404-413 | the gross aid is non-negative and 0 for a non-tenant; when it is not 0 it is at least the payment threshold and equals the expense less the participation, and so at most the expense |
| HousingAmount.MontantBrutMonotone | openfisca_france/model/prestations/aides_logement.py:404-413 | more resources never raise the gross aid |
| HousingAmount.RentPaid | openfisca_france/model/prestations/aides_logement.py:305 | computes `L1`, the rent paid, two thirds of it for statut 5; `HousingAmount.RetainedRentBounds` states it |
| HousingAmount.RentCeiling | openfisca_france/model/prestations/aides_logement.py:308-337 | computes `L2`, the ceiling of the zone for the household scale times the share for a room or a shared tenancy |
| HousingAmount.Charges | openfisca_france/model/prestations/aides_logement.py:344-347 | computes `C`, the flat allowance for charges |
| HousingAmount.Expense | openfisca_france/model/prestations/aides_logement.py:350 | computes `E = L + C`, the eligible expense |
| HousingAmount.ExemptResources | openfisca_france/model/prestations/aides_logement.py:357-371 | computes `Ro`, the resources left out of the participation |
| HousingAmount.ReferenceRent | openfisca_france/model/prestations/aides_logement.py:390-395 | computes `L_Ref`, the reference rent from the zone 2 ceilings |
| HousingAmount.Participation | openfisca_france/model/prestations/aides_logement.py:373-404 | computes `PP = Po + Tp * Rp`; `HousingAmount.ParticipationNonNegative` and `HousingAmount.ParticipationMonotone` state it |
| HousingAmount.MontantBrut | openfisca_france/model/prestations/aides_logement.py:252-413 | computes `aide_logement_montant_brut`; `HousingAmount.MontantBrutBounds` and `HousingAmount.MontantBrutMonotone` state it |
| HousingAids.AideLogementMontant | openfisca_france/model/prestations/aides_logement.py:417-428 | the net aid lies between 0 and the gross aid |
| HousingAids.CrdsLogement | openfisca_france/model/prestations/aides_logement.py:572-583 | the CRDS is non-positive, and 0 without a rate or without an aid |
| HousingAids.AidsExclusive | openfisca_france/model/prestations/aides_logement.py:432-533 | APL, ALF, ALS (student or not) are each the amount exactly when the family is entitled to that aid, and 0 otherwise; at most one of them is due |
| HousingAids.Alf | openfisca_france/model/prestations/aides_logement.py:432-448 | computes `alf`; `HousingAids.AidsExclusive` states when it is paid |
| HousingAids.AlsNonet | openfisca_france/model/prestations/aides_logement.py:452-471 | computes `als_nonet`; `HousingAids.AidsExclusive` states when it is paid |
| HousingAids.Alset | openfisca_france/model/prestations/aides_logement.py:475-497 | computes `alset`; `HousingAids.AidsExclusive` states when it is paid |
| HousingAids.Als | openfisca_france/model/prestations/aides_logement.py:501-514 | computes `als`, the sum of the two ALS; `HousingAids.AidsExclusive` states when it is paid |
| HousingAids.Apl | openfisca_france/model/prestations/aides_logement.py:518-533 | computes `apl`; `HousingAids.AidsExclusive` states when it is paid |
| HousingAids.AideLogement | openfisca_france/model/prestations/aides_logement.py:557-568 | computes `aide_logement`, the largest of the three aids; `HousingAids.AideLogementIsEntitlement` states it |
| HousingAids.AideLogementIsEntitlement | openfisca_france/model/prestations/aides_logement.py:557-568 | `aide_logement` is the amount, floored at 0, for an entitled family, and 0 otherwise |
| HousingAids.NonCalculable | openfisca_france/model/prestations/aides_logement.py:537-553 | the result is 1 exactly for statut 1, 2 exactly for statut 7, and 0 otherwise |
| HousingAids.NonCalculableCases | openfisca_france/model/prestations/aides_logement.py:537-553 | statut 1 (`primo_accedant`, a first-time buyer) gets no gross aid, since only tenants get one; statut 7 (`locataire_foyer`, a tenant of a residence) is one of the renting statuses |
| ZoneApl.ZoneOfZonage | openfisca_france/model/prestations/aides_logement.py:644 | a `Zonage` cell gives a zone exactly when its first character is a digit, and the zone is that digit, so `1bis` is zone 1 |
| ZoneApl.ZonesOfRows | openfisca_france/model/prestations/aides_logement.py:643-646 | computes the table of the zoning rows, or the error of the first unreadable row; `ZoneApl.ZonesOfRowsOk`, `ZoneApl.ZonesOfRowsKeys` and `ZoneApl.ZonesOfRowsLast` state it |
| ZoneApl.ZonageExamples | openfisca_france/model/prestations/aides_logement.py:645 | `1bis` reads as zone 1, `3` as zone 3, and an empty cell gives no zone |
| ZoneApl.ZonesOfRowsOk | openfisca_france/model/prestations/aides_logement.py:643-646 | the zoning file loads exactly when every row's zone can be read |
| ZoneApl.ZonesOfRowsKeys | openfisca_france/model/prestations/aides_logement.py:643-646 | the table holds exactly the codes of the rows |
| ZoneApl.ZonesOfRowsLast | openfisca_france/model/prestations/aides_logement.py:643-646 | each code has the zone of the last row that names it |
| ZoneApl.AddSubcommunes | openfisca_france/model/prestations/aides_logement.py:653-654 | the loop over the subcommunes computes the fold `WithSubcommunes`, including the error on a missing parent |
| ZoneApl.WithSubcommunes | openfisca_france/model/prestations/aides_logement.py:653-654 | computes the table with the subcommunes added, or the error of a missing parent; `ZoneApl.SubcommunesOk`, `ZoneApl.SubcommunesKeep` and `ZoneApl.SubcommunesInherit` state it |
| ZoneApl.LoadZones | openfisca_france/model/prestations/aides_logement.py:634-654 | a bad zoning row stops the load; otherwise the subcommunes are added to the table |
| ZoneApl.SubcommunesOk | openfisca_france/model/prestations/aides_logement.py:653-654 | when no parent is itself a subcommune and no subcommune is listed twice, the subcommunes load exactly when every parent is in the table |
| ZoneApl.SubcommunesKeep | openfisca_france/model/prestations/aides_logement.py:653-654 | a code that is not a subcommune keeps its zone, and no other code is added |
| ZoneApl.SubcommunesInherit | openfisca_france/model/prestations/aides_logement.py:653-654 | under the same conditions, every subcommune gets its parent's zone |
| ZoneApl.ZoneOf | openfisca_france/model/prestations/aides_logement.py:624-627 | an unknown code is in zone 2; a known code has its zone from the table |
| ZoneApl.LookupSubcommune | openfisca_france/model/prestations/aides_logement.py:625-654 | looking up a subcommune after the load gives its parent's zone from the zoning file |
| Ars.EnfPrimaire | openfisca_france/model/prestations/prestations_familiales/ars.py:66 | there are no primary-school children exactly when both primary counts are 0 |
| Ars.ArsNbEnf | openfisca_france/model/prestations/prestations_familiales/ars.py:70 | `arsnbenf` is 0 exactly when every school count is 0, and it is at least each count |
| Ars.PlafondRessources | openfisca_france/model/prestations/prestations_familiales/ars.py:73 | the resource ceiling is at least `P.ars.plaf` |
| Ars.PlafondMonotone | openfisca_france/model/prestations/prestations_familiales/ars.py:73 | more dependent children never lower the ceiling |
| Ars.ArsBase | openfisca_france/model/prestations/prestations_familiales/ars.py:74-76 | the full allowance is non-negative, and 0 without children |
| Ars.Divisor | openfisca_france/model/prestations/prestations_familiales/ars.py:79 | `max_(1, arsnbenf)` is never below 1, and is `arsnbenf` when there is a child |
| Ars.Excess | openfisca_france/model/prestations/prestations_familiales/ars.py:79 | each child's share of the excess of resources is non-negative, 0 under the ceiling, and over the ceiling the shares add up to the excess |
| Ars.ExcessMonotone | openfisca_france/model/prestations/prestations_familiales/ars.py:79 | more resources never lower each child's share of the excess |
| Ars.ExcessCeilingMonotone | openfisca_france/model/prestations/prestations_familiales/ars.py:79 | a higher ceiling never raises each child's share of the excess |
| Ars.ArsBrut | openfisca_france/model/prestations/prestations_familiales/ars.py:79 | the allowance before the threshold is non-negative, and 0 without a child |
| Ars.Ars | openfisca_france/model/prestations/prestations_familiales/ars.py:82 | the allowance paid is 0, or the allowance before the threshold; it is the latter exactly when that amount is 0 or reaches `seuil_nv` |
| Ars.ArsNoChild | openfisca_france/model/prestations/prestations_familiales/ars.py:79 | no child, no allowance |
| Ars.ArsBounds | openfisca_france/model/prestations/prestations_familiales/ars.py:79-82 | the allowance lies between 0 and `arsbase` |
| Ars.ArsUnderCeiling | openfisca_france/model/prestations/prestations_familiales/ars.py:79-82 | under the ceiling the full allowance is due, subject to the threshold |
| Ars.ArsDifferential | openfisca_france/model/prestations/prestations_familiales/ars.py:79 | over the ceiling, the allowance is `arsbase` less the excess divided by the number of children, floored at 0 |
| Ars.ArsResourcesMonotone | openfisca_france/model/prestations/prestations_familiales/ars.py:73-82 | more resources never raise the allowance |
| Ars.ArsDependentsMonotone | openfisca_france/model/prestations/prestations_familiales/ars.py:73-82 | more dependent children never lower the allowance |
| VilleParis.ParentIsoleMenage | openfisca_france/model/prestations/ville_paris.py:40-45 | the household is single-parent exactly when some member's flag is set |
| VilleParis.BracketsDisjoint | openfisca_france/model/prestations/ville_paris.py:87-88 | no member is both adult and child; ages outside [0, 150] are neither; ages in [0, 150] are one of the two |
| VilleParis.MemberUnits | openfisca_france/model/prestations/ville_paris.py:82-90 | an adult adds 0.5; a child adds 0.3, or 0.5 in a single-parent household; anyone else adds nothing |
| VilleParis.Units | openfisca_france/model/prestations/ville_paris.py:82-91 | computes the units of the members visited in order from 0.5; `VilleParis.UnitsClosedForm` gives its closed form |
| VilleParis.UnitesConsommationParis | openfisca_france/model/prestations/ville_paris.py:76-91 | the loop computes the units of the members, starting from 0.5 |
| VilleParis.UnitsClosedForm | openfisca_france/model/prestations/ville_paris.py:82-90 | the units are 0.5 + 0.5 per adult + 0.3 per child (0.5 in a single-parent household) |
| VilleParis.UnitsAtLeastHalf | openfisca_france/model/prestations/ville_paris.py:85-90 | a household has at least half a unit |
| VilleParis.UnitsAddMember | openfisca_france/model/prestations/ville_paris.py:86-90 | a further member never lowers the units |
| VilleParis.UnitsAppend | openfisca_france/model/prestations/ville_paris.py:85-90 | the units of two groups of members together are the sum of their units, less the 0.5 of the household counted twice |
| VilleParis.UnitsOrder | openfisca_france/model/prestations/ville_paris.py:86 | the order in which the roles are visited does not change the units |
| VilleParis.EligibiliteLogement | openfisca_france/model/prestations/ville_paris.py:61-62 | the housing term is 0 or 1, and 1 exactly for statuts 3, 4, 5 and 7 |
| VilleParis.FslEligibilite | openfisca_france/model/prestations/ville_paris.py:56-67 | the household is eligible (1) exactly when the housing term is 1 and the resources are under 1390 times its units; ineligible (0) otherwise |
| VilleParis.FslLargerHousehold | openfisca_france/model/prestations/ville_paris.py:56-90 | an eligible household stays eligible when a member without resources joins it |
| VilleParis.FslSingleCeiling | openfisca_france/model/prestations/ville_paris.py:56-90 | resources under 695 always pass the resource test, whatever the household |

## Left out

- Computing each reduction's amount inside `reductions`: the amounts arrive as a function. The reductions other than those modelled here (`adhcga`, `assvie`, `creaen`, `daepad`, `dfppce`, `doment`, `domlog`, `domsoc`, `duflot`, `ecodev`, `ecpess`, `garext`, `intagr`, `intcon`, `intemp`, `invlst`, `invrev`, `locmeu`, `mecena`, `patnat`, `repsoc`, `rsceha`, `scelli`, `sofipe`, `accult`) appear only as amounts.
- Reductions.Total: adds the amounts in alphabetical order, where the source uses its own order (in 2002-2004 it lists `dfppce` before `daepad`). With exact reals the order does not change the sum.
- Rounding: numpy's `round` is left out in five places: the eval-forfaitaire abatement (aides_logement.py:112), `L1` and `L2` to the cent (305, 337), `Ro` to the euro (371), and `aide_logement_montant` to the cent (426). Amounts are exact reals. Only the rounding up to the hundred of the resource base is modelled.
- HousingResources.Abatement: the abatement is not rounded to the euro, as the source's `round` does.
- HousingAids.AideLogementMontant: `round(..., 2)` is left out, so the contract states bounds and not the rounded value.
- HousingAmount.RentRate: the source divides by `L_Ref`. A zero reference rent is written as a rate of 0 instead of numpy's division result.
- Prcomp.Quotient: a total of 7WO equal to -1 makes `div` zero. The model writes that quotient as 0 instead of numpy's infinity or NaN, since amounts are not negative.
- Reading the zoning CSV and the subcommune JSON, and the module-level cache `zone_apl_by_depcom`, are left out: the rows and entries arrive as sequences.
- ZoneApl.SubcommunesInherit: the property holds when no parent commune is itself a subcommune and each subcommune is listed once, as the keys of a JSON object are. Otherwise the loop's result depends on the dictionary's iteration order, which is not modelled.
- The household's entity mechanics (`split_by_roles`, `sum_by_entity`, `filter_role`, `EntityToPersonColumn`, `PersonToEntityColumn`) are left out. Their results arrive as arguments.
- `nb_pac2` (a real count, in which a child in alternating residence counts for one half), `al_pac`, `nb_enf`, `af_nbenf`, `br_pf` and the ALS, ALF and APL entitlement inputs are computed elsewhere and arrive as arguments.
- Period arithmetic (`period.start.offset(...)`, the previous month, the year `n-2` of the SMIC) is left out; the parameters for the right dates arrive as arguments.
- `aide_logement_abattement_chomage_indemnise` and `aide_logement_abattement_depart_retraite` arrive as amounts.
- Cappme.LateFormsNonNegative: the 2012 and 2013 forms are proved non-negative only when `P.seuil_tpe` is at least twice `P.seuil`, as the legislation's amounts are. `Cappme.Cappme2012NeedsLargeTpeCeiling` shows the formula can go negative otherwise.
- The numpy `int16` result type of `zone_apl` is left out; zones are integers.

## Findings

| source | as written | input that shows it | evidently intended | confidence | as-written member | corrected member |
|---|---|---|---|---|---|---|
| openfisca_france/model/prelevements_obligatoires/impot_revenu/reductions_impot.py:1859 | `max1 = max_(0, max0 - f7uu + f7te + f7uv + f7tf)` takes 7UU off the works ceiling but adds 7TE, 7UV and 7TF back | works ceiling 100, 7TE = 50, 7UP = 150: the ceiling left grows to 150 and bases of 200 use a ceiling of 100 | `max_(0, max0 - (f7uu + f7te + f7uv + f7tf))`, the 2010 carry-over taken off as one group | not executed | Invfor.Invfor2011ExceedsCeiling | Invfor.WorksCeilingShared |
| openfisca_france/model/prelevements_obligatoires/impot_revenu/reductions_impot.py:1888 | the 2012 form repeats the line: `max1 = max_(0, max0 - f7uu + f7te + f7uv + f7tf)` | the same household, with nothing carried over from 2011: 200 of bases under a works ceiling of 100 | `max_(0, max0 - (f7uu + f7te + f7uv + f7tf))` | not executed | Invfor.Invfor2012ExceedsCeiling | Invfor.WorksCeilingShared |
| openfisca_france/model/prelevements_obligatoires/impot_revenu/reductions_impot.py:1921 | the 2013 form repeats the line: `max1 = max_(0, max0 - f7uu + f7te + f7uv + f7tf)` | the same household, with nothing carried over from 2011 or 2012: 200 of bases under a works ceiling of 100 | `max_(0, max0 - (f7uu + f7te + f7uv + f7tf))` | not executed | Invfor.Invfor2013ExceedsCeiling | Invfor.WorksCeilingShared |
| openfisca_france/model/prelevements_obligatoires/impot_revenu/reductions_impot.py:2449-2452 | with 7WM filled, the full amount applies when `f7wo <= P.seuil` and the pro-rata amount when `f7wo >= P.seuil`, written `P.taux * f7wm / div` | 7WM = 7WN = 50 and 7WO = 100 = `P.seuil`, rate 0.25: 12.625 instead of 12.5; 7WM = 7WN = 100, 7WO = 200, `P.seuil` = 100: 0.125 instead of 12.5 | a strict `f7wo > P.seuil` and the factor `P.seuil`, `P.taux * P.seuil * f7wm / div`, as in the part where 7WM is empty | not executed | Prcomp.AsWrittenCountsTwiceAtCeiling | Prcomp.PrcompRule |
