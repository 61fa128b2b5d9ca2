/**
 * The four fitness strategies of the population engine. Each maps the population matrix and the
 * per-trait targets to a matrix of per-individual, per-trait fitness scores.
 */
module Fitness {
  import opened Matrices

  /** The strategy `calc_total_fitness` invokes through `fitness_function`. */
  datatype Strategy = Gaussian | Linear | Equal | Direct

  /**
   * The normal probability density at a value for a mean and a scale (scipy's `norm.pdf`),
   * a foreign transcendental function that the model leaves uninterpreted.
   */
  type Density = (real, real, real) -> real

  /** Default spread of `targetted_fitness_gaus` and default slope of `targetted_fitness_lin`. */
  const GaussianSigma: real := 1.0
  const LinearSlope: real := 0.1

  /** The population has one column per target. */
  predicate Conforms(pop: Matrix, targets: seq<real>)
  {
    IsShape(pop, |pop|, |targets|)
  }

  /** Gaussian-target fitness: the density of the trait value around the trait's target. */
  function GaussianFitness(pop: Matrix, targets: seq<real>, sigma: real, pdf: Density): (f: Matrix)
    requires Conforms(pop, targets)
    ensures IsShape(f, |pop|, |targets|)
  {
    seq(|pop|, i requires 0 <= i < |pop| =>
      seq(|targets|, j requires 0 <= j < |targets| => pdf(pop[i][j], targets[j], sigma)))
  }

  /**
   * Linear-target fitness: |s * mu| - |s * (target - value)|, where mu is the single largest
   * entry of the whole population. np.max raises on an empty matrix, hence the requires.
   */
  function LinearFitness(pop: Matrix, targets: seq<real>, s: real): (f: Matrix)
    requires Conforms(pop, targets) && |pop| > 0 && |targets| > 0
    ensures IsShape(f, |pop|, |targets|)
  {
    var mu := MatrixMax(pop);
    seq(|pop|, i requires 0 <= i < |pop| =>
      seq(|targets|, j requires 0 <= j < |targets| => LinearCell(s, mu, targets[j], pop[i][j])))
  }

  /**
   * The linear score of one trait value against its target, for slope s and population maximum
   * mu. It peaks at the target: no value scores more than |s * mu|, and a value scores exactly that
   * much only when it sits on its target (or s is zero).
   */
  function LinearCell(s: real, mu: real, target: real, value: real): (r: real)
    ensures r <= Abs(s * mu)
    ensures r == Abs(s * mu) <==> (s == 0.0 || value == target)
  {
    ProductIsZero(s, target - value);
    Abs(s * mu) - Abs(s * (target - value))
  }

  /** A strategy can be evaluated: only the linear one fails, on a population with no entries. */
  predicate Evaluable(strategy: Strategy, pop: Matrix, targets: seq<real>)
  {
    strategy == Linear ==> |pop| > 0 && |targets| > 0
  }

  /** The trait-fitness matrix a strategy produces, called with its default parameters. */
  function TraitFitness(strategy: Strategy, pop: Matrix, targets: seq<real>, pdf: Density): (f: Matrix)
    requires Conforms(pop, targets) && Evaluable(strategy, pop, targets)
    ensures IsShape(f, |pop|, |targets|)
  {
    match strategy
    case Gaussian => GaussianFitness(pop, targets, GaussianSigma, pdf)
    case Linear => LinearFitness(pop, targets, LinearSlope)
    case Equal => Full(|pop|, |targets|, 1.0)
    case Direct => pop
  }

  /** Under the uniform strategy every trait scores 1, so every individual's total is the trait count. */
  lemma {:induction false} EqualFitnessTotals(pop: Matrix, targets: seq<real>, pdf: Density)
    requires Conforms(pop, targets)
    ensures forall i, j :: 0 <= i < |pop| && 0 <= j < |targets| ==> TraitFitness(Equal, pop, targets, pdf)[i][j] == 1.0
    ensures forall i :: 0 <= i < |pop| ==> RowSums(TraitFitness(Equal, pop, targets, pdf))[i] == |targets| as real
  {
    var f := TraitFitness(Equal, pop, targets, pdf);
    forall i | 0 <= i < |pop| ensures RowSums(f)[i] == |targets| as real {
      assert f[i] == seq(|targets|, _ => 1.0);
      SumOfConstant(|targets|, 1.0);
    }
  }

  /** Under the identity strategy each total is the sum of the individual's own trait values. */
  lemma {:induction false} DirectFitnessTotals(pop: Matrix, targets: seq<real>, pdf: Density)
    requires Conforms(pop, targets)
    ensures forall i :: 0 <= i < |pop| ==> RowSums(TraitFitness(Direct, pop, targets, pdf))[i] == Sum(pop[i])
  {
  }

  lemma ProductIsZero(x: real, y: real)
    ensures Abs(x * y) == 0.0 <==> (x == 0.0 || y == 0.0)
  {
    AbsOfProduct(x, y);
  }

  /**
   * Linear fitness peaks at the target: a trait equal to its target scores |s * mu|, no trait scores
   * more, and a trait scores exactly that much only when it sits on its target (or s is zero).
   */
  lemma {:induction false} LinearPeak(pop: Matrix, targets: seq<real>, s: real, i: nat, j: nat)
    requires Conforms(pop, targets) && i < |pop| && j < |targets|
    ensures LinearFitness(pop, targets, s)[i][j] <= Abs(s * MatrixMax(pop))
    ensures LinearFitness(pop, targets, s)[i][j] == Abs(s * MatrixMax(pop)) <==> (s == 0.0 || pop[i][j] == targets[j])
  {
    LinearFitnessAt(pop, targets, s, i, j);
  }

  lemma LinearFitnessAt(pop: Matrix, targets: seq<real>, s: real, i: nat, j: nat)
    requires Conforms(pop, targets) && i < |pop| && j < |targets|
    ensures LinearFitness(pop, targets, s)[i][j] == LinearCell(s, MatrixMax(pop), targets[j], pop[i][j])
  {
  }

  /** Linear fitness is the same decreasing function of the distance to the target in every cell. */
  lemma {:induction false} LinearCloserIsFitter(pop: Matrix, targets: seq<real>, s: real, i: nat, j: nat, h: nat, k: nat)
    requires Conforms(pop, targets) && i < |pop| && h < |pop| && j < |targets| && k < |targets|
    requires Abs(targets[j] - pop[i][j]) <= Abs(targets[k] - pop[h][k])
    ensures LinearFitness(pop, targets, s)[i][j] >= LinearFitness(pop, targets, s)[h][k]
  {
    LinearFitnessAt(pop, targets, s, i, j);
    LinearFitnessAt(pop, targets, s, h, k);
    LinearCellMonotone(s, MatrixMax(pop), targets[j], pop[i][j], targets[k], pop[h][k]);
  }

  lemma LinearCellMonotone(s: real, mu: real, t1: real, v1: real, t2: real, v2: real)
    requires Abs(t1 - v1) <= Abs(t2 - v2)
    ensures LinearCell(s, mu, t1, v1) >= LinearCell(s, mu, t2, v2)
  {
    AbsScaleMonotone(s, t1 - v1, t2 - v2);
    var peak := Abs(s * mu);
    assert LinearCell(s, mu, t1, v1) == peak - Abs(s * (t1 - v1));
    assert LinearCell(s, mu, t2, v2) == peak - Abs(s * (t2 - v2));
  }

  lemma AbsScaleMonotone(s: real, d1: real, d2: real)
    requires Abs(d1) <= Abs(d2)
    ensures Abs(s * d1) <= Abs(s * d2)
  {
    AbsOfProduct(s, d1);
    AbsOfProduct(s, d2);
    var a := Abs(s);
    assert a * Abs(d2) - a * Abs(d1) == a * (Abs(d2) - Abs(d1));
    assert 0.0 <= a * (Abs(d2) - Abs(d1));
  }

  lemma AbsOfProduct(x: real, y: real)
    ensures Abs(x * y) == Abs(x) * Abs(y)
  {
    if x < 0.0 && y >= 0.0 {
      assert x * y <= 0.0;
    } else if x >= 0.0 && y < 0.0 {
      assert x * y <= 0.0;
    } else if x < 0.0 && y < 0.0 {
      assert x * y == (-x) * (-y);
    }
  }

  /**
   * The shift |s * mu| does not keep linear fitness non-negative: one individual with a single
   * trait at 0 and target 10 scores -1 with the default slope.
   */
  lemma LinearFitnessCanBeNegative()
    ensures LinearFitness([[0.0]], [10.0], LinearSlope)[0][0] == -1.0
  {
    assert MatrixMax([[0.0]]) == 0.0;
    assert LinearFitness([[0.0]], [10.0], LinearSlope)[0][0] == LinearCell(LinearSlope, 0.0, 10.0, 0.0);
  }

  /** With a non-negative density every Gaussian total is non-negative. */
  /** With a strictly positive density and at least one trait, every Gaussian total is positive. */
  lemma {:induction false} GaussianTotalsPositive(pop: Matrix, targets: seq<real>, sigma: real, pdf: Density)
    requires Conforms(pop, targets) && |targets| > 0
    requires forall x, m, sd :: 0.0 < pdf(x, m, sd)
    ensures forall i :: 0 <= i < |pop| ==> 0.0 < RowSums(GaussianFitness(pop, targets, sigma, pdf))[i]
  {
    var f := GaussianFitness(pop, targets, sigma, pdf);
    forall i | 0 <= i < |pop| ensures 0.0 < Sum(f[i]) {
      forall k | 0 <= k < |f[i]| ensures 0.0 < f[i][k] {
        var x: real, m: real := pop[i][k], targets[k];
        assert 0.0 < pdf(x, m, sigma);
        assert f[i][k] == pdf(x, m, sigma);
      }
      PositiveSum(f[i]);
    }
  }

  lemma {:induction false} GaussianTotalsNonNegative(pop: Matrix, targets: seq<real>, sigma: real, pdf: Density)
    requires Conforms(pop, targets)
    requires forall x, m, sd :: 0.0 <= pdf(x, m, sd)
    ensures forall i :: 0 <= i < |pop| ==> 0.0 <= RowSums(GaussianFitness(pop, targets, sigma, pdf))[i]
  {
    var f := GaussianFitness(pop, targets, sigma, pdf);
    forall i | 0 <= i < |pop| ensures 0.0 <= Sum(f[i]) {
      forall k | 0 <= k < |f[i]| ensures 0.0 <= f[i][k] {
        var x: real, m: real := pop[i][k], targets[k];
        assert 0.0 <= pdf(x, m, sigma);
        assert f[i][k] == pdf(x, m, sigma);
      }
      EntryAtMostSum(f[i]);
    }
  }
}
