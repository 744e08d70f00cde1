/** Sums and order operations over exact reals, shared by the accounting models. */
module Arith {

  function Min(a: real, b: real): real {
    if a <= b then a else b
  }

  function Max(a: real, b: real): real {
    if a >= b then a else b
  }

  function Abs(a: real): real {
    if a >= 0.0 then a else -a
  }

  /** Left-to-right sum, matching an accumulating loop. */
  function Sum(xs: seq<real>): real {
    if xs == [] then 0.0 else Sum(xs[..|xs| - 1]) + xs[|xs| - 1]
  }

  lemma SumOfNothing()
    ensures Sum([]) == 0.0
  {
  }

  lemma SumSnoc(xs: seq<real>, x: real)
    ensures Sum(xs + [x]) == Sum(xs) + x
  {
  }

  lemma {:induction false} SumAppend(xs: seq<real>, ys: seq<real>)
    ensures Sum(xs + ys) == Sum(xs) + Sum(ys)
  {
    if ys == [] {
      assert xs + ys == xs;
    } else {
      assert (xs + ys)[..|xs + ys| - 1] == xs + ys[..|ys| - 1];
      SumAppend(xs, ys[..|ys| - 1]);
    }
  }

  lemma SumHead(xs: seq<real>)
    ensures xs != [] ==> Sum(xs) == xs[0] + Sum(xs[1..])
  {
    if xs != [] {
      SumAppend(xs[..1], xs[1..]);
      assert xs == xs[..1] + xs[1..] && xs[..1][..0] == [];
    }
  }

  ghost predicate NonNegative(xs: seq<real>) {
    forall i :: 0 <= i < |xs| ==> xs[i] >= 0.0
  }

  lemma {:induction false} SumNonNegative(xs: seq<real>)
    requires NonNegative(xs)
    ensures Sum(xs) >= 0.0
  {
    if xs != [] {
      SumNonNegative(xs[..|xs| - 1]);
    }
  }

  // ----- Products -----

  /** A product the solver does not look inside of; proofs use the laws below. */
  function Times(a: real, b: real): real {
    a * b
  }

  lemma TimesZero(a: real)
    ensures Times(0.0, a) == 0.0 && Times(a, 0.0) == 0.0
  {
  }

  lemma TimesOne(a: real)
    ensures Times(1.0, a) == a
  {
  }

  lemma TimesSwap(a: real, b: real)
    ensures Times(a, b) == Times(b, a)
  {
  }

  lemma TimesMono(a: real, b: real, c: real)
    requires a <= b && c >= 0.0
    ensures Times(a, c) <= Times(b, c)
  {
  }

  lemma TimesSplit(a: real, b: real, c: real)
    ensures Times(a + b, c) == Times(a, c) + Times(b, c)
  {
  }

  lemma DivideSplit(a: real, b: real, d: real)
    requires d > 0.0
    ensures (a + b) / d == a / d + b / d && d / d == 1.0
  {
  }

  /** A square root of what is not negative. */
  ghost predicate IsSqrt(sqrt: real -> real) {
    forall x: real :: x >= 0.0 ==> sqrt(x) >= 0.0 && Times(sqrt(x), sqrt(x)) == x
  }
}
