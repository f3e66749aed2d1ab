/**
 * Dated variants as data. A variable whose rule changes over the years is
 * written in the source as several methods tagged `@dated_function(start,
 * stop)`, both bounds inclusive. Here such a variable is a table: a sequence
 * of variants, each a closed date interval with the formula it selects.
 * `Select` returns the formula whose interval holds a date. A table whose
 * intervals follow each other day after day is pairwise disjoint, so at most
 * one formula applies to any date, and every date between the first start
 * and the last stop finds one.
 */
module Dated {

  datatype Option<T> = None | Some(value: T)

  datatype Date = Date(year: int, month: int, day: int)

  predicate IsLeapYear(y: int) {
    (y % 4 == 0 && y % 100 != 0) || y % 400 == 0
  }

  function DaysInMonth(y: int, m: int): (n: int)
    requires 1 <= m <= 12
    ensures 28 <= n <= 31
  {
    if m == 2 then (if IsLeapYear(y) then 29 else 28)
    else if m == 4 || m == 6 || m == 9 || m == 11 then 30
    else 31
  }

  predicate ValidDate(d: Date) {
    1 <= d.month <= 12 && 1 <= d.day <= DaysInMonth(d.year, d.month)
  }

  /** Calendar order: by year, then month, then day. */
  predicate Before(a: Date, b: Date) {
    a.year < b.year ||
    (a.year == b.year && (a.month < b.month || (a.month == b.month && a.day < b.day)))
  }

  predicate NotAfter(a: Date, b: Date) {
    a == b || Before(a, b)
  }

  /** The calendar day that follows `d`. */
  function NextDay(d: Date): (n: Date)
    requires ValidDate(d)
    ensures ValidDate(n) && Before(d, n)
    ensures forall e :: ValidDate(e) && Before(d, e) ==> NotAfter(n, e)
  {
    if d.day < DaysInMonth(d.year, d.month) then Date(d.year, d.month, d.day + 1)
    else if d.month < 12 then Date(d.year, d.month + 1, 1)
    else Date(d.year + 1, 1, 1)
  }

  function YearStart(y: int): Date { Date(y, 1, 1) }
  function YearEnd(y: int): Date { Date(y, 12, 31) }

  /** One `@dated_function(start, stop)`: both bounds belong to the interval. */
  datatype Variant<T> = Variant(start: Date, stop: Date, formula: T)

  predicate Covers<T>(v: Variant<T>, d: Date) {
    NotAfter(v.start, d) && NotAfter(d, v.stop)
  }

  /** The formula of the first variant whose interval holds `d`. */
  function Select<T>(table: seq<Variant<T>>, d: Date): (r: Option<T>)
    ensures r.None? <==> forall i :: 0 <= i < |table| ==> !Covers(table[i], d)
    ensures r.Some? ==> exists i :: 0 <= i < |table| && Covers(table[i], d) && table[i].formula == r.value
  {
    if table == [] then None
    else if Covers(table[0], d) then Some(table[0].formula)
    else
      var r := Select(table[1..], d);
      assert forall i :: 1 <= i < |table| ==> table[i] == table[1..][i - 1];
      r
  }

  predicate ValidVariant<T>(v: Variant<T>) {
    ValidDate(v.start) && ValidDate(v.stop) && NotAfter(v.start, v.stop)
  }

  /** Each interval starts the day after the previous one stops. */
  predicate Contiguous<T>(table: seq<Variant<T>>) {
    (forall i :: 0 <= i < |table| ==> ValidVariant(table[i])) &&
    (forall i :: 0 <= i < |table| - 1 ==> table[i + 1].start == NextDay(table[i].stop))
  }

  ghost predicate PairwiseDisjoint<T>(table: seq<Variant<T>>) {
    forall i, j, d :: 0 <= i < j < |table| && Covers(table[i], d) ==> !Covers(table[j], d)
  }

  lemma BeforeTransitive(a: Date, b: Date, c: Date)
    requires (NotAfter(a, b) && Before(b, c)) || (Before(a, b) && NotAfter(b, c))
    ensures Before(a, c)
  {
  }

  /** In a contiguous table every later variant starts after an earlier one stops. */
  lemma {:induction false} ContiguousOrdered<T>(table: seq<Variant<T>>, i: int, j: int)
    requires Contiguous(table)
    requires 0 <= i < j < |table|
    ensures Before(table[i].stop, table[j].start)
    decreases j - i
  {
    if j == i + 1 {
      assert table[i + 1].start == NextDay(table[i].stop);
    } else {
      ContiguousOrdered(table, i, j - 1);
      assert table[j].start == NextDay(table[j - 1].stop);
      BeforeTransitive(table[i].stop, table[j - 1].start, table[j - 1].stop);
      BeforeTransitive(table[i].stop, table[j - 1].stop, table[j].start);
    }
  }

  lemma ContiguousDisjoint<T>(table: seq<Variant<T>>)
    requires Contiguous(table)
    ensures PairwiseDisjoint(table)
  {
    forall i, j, d | 0 <= i < j < |table| && Covers(table[i], d)
      ensures !Covers(table[j], d)
    {
      ContiguousOrdered(table, i, j);
      BeforeTransitive(d, table[i].stop, table[j].start);
    }
  }

  /** In a disjoint table the selected formula is that of the one variant holding the date. */
  lemma SelectUnique<T>(table: seq<Variant<T>>, d: Date, k: int)
    requires PairwiseDisjoint(table)
    requires 0 <= k < |table| && Covers(table[k], d)
    ensures Select(table, d) == Some(table[k].formula)
    ensures forall i :: 0 <= i < |table| && i != k ==> !Covers(table[i], d)
  {
    var r := Select(table, d);
    var i :| 0 <= i < |table| && Covers(table[i], d) && table[i].formula == r.value;
    assert i == k;
  }

  /** A contiguous table leaves no gap between its first start and its last stop. */
  lemma {:induction false} ContiguousCovers<T>(table: seq<Variant<T>>, d: Date)
    requires Contiguous(table) && |table| > 0
    requires ValidDate(d)
    requires NotAfter(table[0].start, d) && NotAfter(d, table[|table| - 1].stop)
    ensures Select(table, d).Some?
    decreases |table|
  {
    if !Covers(table[0], d) {
      assert Before(table[0].stop, d);
      var tail := table[1..];
      assert tail[0].start == NextDay(table[0].stop);
      assert Contiguous(tail) by {
        forall i | 0 <= i < |tail| - 1 ensures tail[i + 1].start == NextDay(tail[i].stop) {
          assert tail[i + 1] == table[i + 2] && tail[i] == table[i + 1];
        }
      }
      ContiguousCovers(tail, d);
      var r := Select(tail, d);
      var i :| 0 <= i < |tail| && Covers(tail[i], d) && tail[i].formula == r.value;
      assert Covers(table[i + 1], d);
    }
  }

  /** Dates before the first start or after the last stop find no formula. */
  lemma ContiguousOutside<T>(table: seq<Variant<T>>, d: Date)
    requires Contiguous(table) && |table| > 0
    requires Before(d, table[0].start) || Before(table[|table| - 1].stop, d)
    ensures Select(table, d) == None
  {
    forall i | 0 <= i < |table| ensures !Covers(table[i], d) {
      if Before(d, table[0].start) {
        BeforeFirst(table, d, i);
      } else {
        AfterLast(table, d, i);
      }
    }
  }

  lemma BeforeFirst<T>(table: seq<Variant<T>>, d: Date, i: int)
    requires Contiguous(table) && 0 <= i < |table| && Before(d, table[0].start)
    ensures !Covers(table[i], d)
  {
    if i > 0 {
      ContiguousOrdered(table, 0, i);
      BeforeTransitive(table[0].start, table[0].stop, table[i].start);
      BeforeTransitive(d, table[0].start, table[i].start);
    }
  }

  lemma AfterLast<T>(table: seq<Variant<T>>, d: Date, i: int)
    requires Contiguous(table) && 0 <= i < |table| && Before(table[|table| - 1].stop, d)
    ensures !Covers(table[i], d)
  {
    var last := |table| - 1;
    if i < last {
      ContiguousOrdered(table, i, last);
      BeforeTransitive(table[i].stop, table[last].start, table[last].stop);
      BeforeTransitive(table[i].stop, table[last].stop, d);
    }
  }

  /** A variant running from the first of January of one year to the thirty-first of December of a later one. */
  predicate WholeYears<T>(v: Variant<T>) {
    v.start == YearStart(v.start.year) && v.stop == YearEnd(v.stop.year) && v.start.year <= v.stop.year
  }

  /** A table of whole years, each variant starting the year after the previous one stops. */
  predicate ByYears<T>(table: seq<Variant<T>>) {
    (forall i :: 0 <= i < |table| ==> WholeYears(table[i])) &&
    (forall i :: 0 <= i < |table| - 1 ==> table[i + 1].start.year == table[i].stop.year + 1)
  }

  /** A table of consecutive whole years is contiguous. */
  lemma ByYearsContiguous<T>(table: seq<Variant<T>>)
    requires ByYears(table)
    ensures Contiguous(table)
  {
    forall i | 0 <= i < |table| ensures ValidVariant(table[i]) {
      assert WholeYears(table[i]);
    }
    forall i | 0 <= i < |table| - 1 ensures table[i + 1].start == NextDay(table[i].stop) {
      assert WholeYears(table[i]) && WholeYears(table[i + 1]);
    }
  }
}
