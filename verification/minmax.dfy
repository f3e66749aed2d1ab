/**
 * The elementwise minimum and maximum that every formula of the model is
 * built from (numpy's `minimum` and `maximum`, taken on one entity slot),
 * and the variadic helpers `mini` and `maxi` of the income-tax reductions.
 */
module MinMax {

  function Min(a: real, b: real): (r: real)
    ensures r <= a && r <= b
  {
    if a <= b then a else b
  }

  function Max(a: real, b: real): (r: real)
    ensures a <= r && b <= r
  {
    if a >= b then a else b
  }

  /** `mini(a, b, *args)`: at least two arguments, folded from the right. */
  function Mini(a: real, b: real, rest: seq<real>): (r: real)
    ensures r <= a && r <= b
    ensures forall i :: 0 <= i < |rest| ==> r <= rest[i]
    ensures r == a || r == b || r in rest
    decreases |rest|
  {
    if rest == [] then Min(a, b)
    else Min(a, Mini(b, rest[0], rest[1..]))
  }

  /** `maxi(a, b, *args)`: the dual of `Mini`. */
  function Maxi(a: real, b: real, rest: seq<real>): (r: real)
    ensures a <= r && b <= r
    ensures forall i :: 0 <= i < |rest| ==> rest[i] <= r
    ensures r == a || r == b || r in rest
    decreases |rest|
  {
    if rest == [] then Max(a, b)
    else Max(a, Maxi(b, rest[0], rest[1..]))
  }

  /** With three arguments `mini` is the nested binary minimum. */
  lemma MiniThree(a: real, b: real, c: real)
    ensures Mini(a, b, [c]) == Min(a, Min(b, c))
  {
    assert [c][1..] == [];
  }

  /** `mini` and `maxi` mirror each other under negation. */
  lemma {:induction false} MiniMaxiDual(a: real, b: real, rest: seq<real>)
    ensures Mini(a, b, rest) == -Maxi(-a, -b, Negated(rest))
    decreases |rest|
  {
    if rest != [] {
      MiniMaxiDual(b, rest[0], rest[1..]);
      assert Negated(rest)[0] == -rest[0];
      assert Negated(rest)[1..] == Negated(rest[1..]);
    }
  }

  function Negated(s: seq<real>): (r: seq<real>)
    ensures |r| == |s|
    ensures forall i :: 0 <= i < |s| ==> r[i] == -s[i]
  {
    seq(|s|, i requires 0 <= i < |s| => -s[i])
  }

  /** `(condition) * x`: a numpy boolean mask multiplying an amount. */
  function When(c: bool, x: real): (r: real)
    ensures c ==> r == x
    ensures !c ==> r == 0.0
  {
    if c then x else 0.0
  }

  /** `x * (marpac + 1)`: an amount counted once per spouse of a married or pacsed household. */
  function TimesSpouses(x: real, marpac: bool): (r: real)
    ensures 0.0 <= x ==> x <= r
  {
    if marpac then 2.0 * x else x
  }

  /** `x * (x >= seuil)`: an amount below the minimum payment is not paid. */
  function Threshold(x: real, seuil: real): (r: real)
    ensures x < seuil ==> r == 0.0
    ensures seuil <= x ==> r == x
  {
    When(x >= seuil, x)
  }

  lemma ThresholdMonotone(x: real, y: real, seuil: real)
    requires 0.0 <= x <= y
    ensures Threshold(x, seuil) <= Threshold(y, seuil)
  {
  }
}
