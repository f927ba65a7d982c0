/** The independence formulas that turn child selectivities into the
    selectivity of an OR, MINUS, XOR or AND node, and what they guarantee. */
module Selectivity {

  /** Every value is a probability. */
  predicate AllProbabilities(xs: seq<real>) {
    forall i :: 0 <= i < |xs| ==> 0.0 <= xs[i] <= 1.0
  }

  /** The product of the values, multiplied in from the left. */
  function Product(xs: seq<real>): (p: real) {
    if xs == [] then 1.0 else Product(xs[..|xs| - 1]) * xs[|xs| - 1]
  }

  /** Multiplying one more factor in from the right. */
  lemma ProductAppend(xs: seq<real>, x: real)
    ensures Product(xs + [x]) == Product(xs) * x
  {
    assert (xs + [x])[..|xs|] == xs;
  }

  /** The complements 1 - x of the values, in order. */
  function Complements(xs: seq<real>): (cs: seq<real>)
  {
    seq(|xs|, i requires 0 <= i < |xs| => 1.0 - xs[i])
  }

  /** The product of the complements 1 - x: the chance that none of the
      independent events happens. */
  function ComplementProduct(xs: seq<real>): (p: real) {
    Product(Complements(xs))
  }

  /** Multiplying one more complement in from the right. */
  lemma ComplementProductAppend(xs: seq<real>, x: real)
    ensures ComplementProduct(xs + [x]) == ComplementProduct(xs) * (1.0 - x)
  {
    assert Complements(xs + [x]) == Complements(xs) + [1.0 - x];
    ProductAppend(Complements(xs), 1.0 - x);
  }

  /** OR: 1 - product of (1 - sel_i). */
  function OrSelectivity(xs: seq<real>): (sel: real)
    requires |xs| >= 1
  {
    1.0 - ComplementProduct(xs)
  }

  /** MINUS: sel_0 * product over i >= 1 of (1 - sel_i). */
  function MinusSelectivity(xs: seq<real>): (sel: real)
    requires |xs| >= 1
  {
    xs[0] * ComplementProduct(xs[1..])
  }

  /** One XOR step: the union term times the not-both term. */
  function XorStep(s: real, x: real): (sel: real) {
    (1.0 - (1.0 - s) * (1.0 - x)) * (1.0 - s * x)
  }

  /** XOR: XorStep folded from the left, starting from sel_0. */
  function XorSelectivity(xs: seq<real>): (sel: real)
    requires |xs| >= 1
  {
    if |xs| == 1 then xs[0] else XorStep(XorSelectivity(xs[..|xs| - 1]), xs[|xs| - 1])
  }

  // ---------------------------------------------------------------------
  // Ranges

  /** A product of two probabilities is a probability. */
  lemma ProductOfProbabilities(a: real, b: real)
    requires 0.0 <= a <= 1.0 && 0.0 <= b <= 1.0
    ensures 0.0 <= a * b <= b && a * b <= a
  {
  }

  /** Scaling by a non-negative factor keeps the order. */
  lemma ScaleMonotone(a: real, b: real, c: real)
    requires 0.0 <= a && b <= c
    ensures a * b <= a * c
  {
    assert a * c - a * b == a * (c - b);
  }

  lemma {:induction false} ProductIsProbability(xs: seq<real>)
    requires AllProbabilities(xs)
    ensures 0.0 <= Product(xs) <= 1.0
    decreases |xs|
  {
    if xs != [] {
      ProductIsProbability(xs[..|xs| - 1]);
      ProductOfProbabilities(Product(xs[..|xs| - 1]), xs[|xs| - 1]);
    }
  }

  lemma ComplementProductIsProbability(xs: seq<real>)
    requires AllProbabilities(xs)
    ensures 0.0 <= ComplementProduct(xs) <= 1.0
  {
    assert AllProbabilities(Complements(xs));
    ProductIsProbability(Complements(xs));
  }

  /** OR of probabilities is a probability. */
  lemma OrIsProbability(xs: seq<real>)
    requires |xs| >= 1 && AllProbabilities(xs)
    ensures 0.0 <= OrSelectivity(xs) <= 1.0
  {
    ComplementProductIsProbability(xs);
  }

  /** MINUS of probabilities is a probability, and never exceeds sel_0. */
  lemma MinusIsProbability(xs: seq<real>)
    requires |xs| >= 1 && AllProbabilities(xs)
    ensures 0.0 <= MinusSelectivity(xs) <= xs[0] <= 1.0
  {
    var head, rest := xs[0], xs[1..];
    assert 0.0 <= head <= 1.0;
    assert AllProbabilities(rest);
    ComplementProductIsProbability(rest);
    ProductBelowFactor(MinusSelectivity(xs), head, ComplementProduct(rest));
  }

  /** A probability times a probability is at most the first factor. */
  lemma ProductBelowFactor(m: real, h: real, c: real)
    requires m == h * c && 0.0 <= h <= 1.0 && 0.0 <= c <= 1.0
    ensures 0.0 <= m <= h
  {
    ProductOfProbabilities(h, c);
  }

  /** One XOR step keeps probabilities probabilities. */
  lemma XorStepIsProbability(s: real, x: real)
    requires 0.0 <= s <= 1.0 && 0.0 <= x <= 1.0
    ensures 0.0 <= XorStep(s, x) <= 1.0
  {
    var neither := (1.0 - s) * (1.0 - x);
    var both := s * x;
    ProductOfProbabilities(1.0 - s, 1.0 - x);
    ProductOfProbabilities(s, x);
    ProductOfProbabilities(1.0 - neither, 1.0 - both);
  }

  /** XOR of probabilities is a probability. */
  lemma {:induction false} XorIsProbability(xs: seq<real>)
    requires |xs| >= 1 && AllProbabilities(xs)
    ensures 0.0 <= XorSelectivity(xs) <= 1.0
    decreases |xs|
  {
    if |xs| > 1 {
      XorIsProbability(xs[..|xs| - 1]);
      XorStepIsProbability(XorSelectivity(xs[..|xs| - 1]), xs[|xs| - 1]);
    }
  }

  /** The XOR step exceeds the exact XOR probability of two independent
      events, s + x - 2sx, by s * x * (1 - s) * (1 - x). */
  lemma XorStepExcess(s: real, x: real)
    ensures XorStep(s, x) == (s + x - 2.0 * s * x) + s * x * (1.0 - s) * (1.0 - x)
  {
  }

  // ---------------------------------------------------------------------
  // Adding a child

  /** Adding a child never lowers the OR selectivity. */
  lemma OrGrowsWithChild(xs: seq<real>, x: real)
    requires |xs| >= 1 && AllProbabilities(xs) && 0.0 <= x <= 1.0
    ensures OrSelectivity(xs) <= OrSelectivity(xs + [x])
  {
    var c := ComplementProduct(xs);
    ComplementProductAppend(xs, x);
    ComplementProductIsProbability(xs);
    ProductOfProbabilities(c, 1.0 - x);
  }

  /** Adding a child never raises the MINUS selectivity. */
  lemma MinusShrinksWithChild(xs: seq<real>, x: real)
    requires |xs| >= 1 && AllProbabilities(xs) && 0.0 <= x <= 1.0
    ensures MinusSelectivity(xs + [x]) <= MinusSelectivity(xs)
  {
    var h, rest := xs[0], xs[1..];
    var c := ComplementProduct(rest);
    assert (xs + [x])[1..] == rest + [x];
    ComplementProductAppend(rest, x);
    assert AllProbabilities(rest);
    ComplementProductIsProbability(rest);
    ScaledComplementShrinks(MinusSelectivity(xs + [x]), MinusSelectivity(xs), h, c, x);
  }

  /** Multiplying in one more complement does not raise h * c. */
  lemma ScaledComplementShrinks(after: real, before: real, h: real, c: real, x: real)
    requires after == h * (c * (1.0 - x)) && before == h * c
    requires 0.0 <= h && 0.0 <= c && 0.0 <= x <= 1.0
    ensures after <= before
  {
    ProductOfProbabilities(1.0 - x, 1.0);
    assert c * (1.0 - x) <= c;
    ScaleMonotone(h, c * (1.0 - x), c);
  }

  /** Adding a child never raises the AND (product) selectivity. */
  lemma AndShrinksWithChild(xs: seq<real>, x: real)
    requires AllProbabilities(xs) && 0.0 <= x <= 1.0
    ensures Product(xs + [x]) <= Product(xs)
  {
    ProductAppend(xs, x);
    ProductIsProbability(xs);
    ProductOfProbabilities(Product(xs), x);
  }
}
