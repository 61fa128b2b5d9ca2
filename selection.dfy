/** Fitness-proportionate (roulette-wheel) selection over the individuals' total fitnesses. */
module Selection {
  import opened Matrices

  /**
   * roulette_wheel: each individual's share of the summed fitness. The source divides by the
   * sum, so a zero sum is excluded.
   */
  function RouletteWheel(totals: seq<real>): (probs: seq<real>)
    requires Sum(totals) != 0.0
    ensures |probs| == |totals|
    ensures forall i :: 0 <= i < |totals| ==> probs[i] * Sum(totals) == totals[i]
  {
    var z := Sum(totals);
    seq(|totals|, i requires 0 <= i < |totals| => totals[i] / z)
  }

  /**
   * The probabilities are ones np.random.choice accepts: the sum is not zero (so they exist)
   * and no probability is negative. Otherwise sampling raises.
   */
  predicate Viable(totals: seq<real>)
  {
    Sum(totals) != 0.0 && forall i :: 0 <= i < |totals| ==> 0.0 <= totals[i] / Sum(totals)
  }

  /** Sampling accepts the totals exactly when their sum is not zero and every total is zero or has the sign of the sum. */
  lemma ViableIffSignsAgree(totals: seq<real>)
    ensures Viable(totals) <==>
      (Sum(totals) != 0.0 &&
       forall i :: 0 <= i < |totals| ==> totals[i] == 0.0 || (totals[i] > 0.0 <==> Sum(totals) > 0.0))
  {
    var z := Sum(totals);
    if z != 0.0 {
      QuotientSigns(totals, z);
    }
  }

  /** A quotient by z is non-negative exactly when the dividend is zero or has the sign of z. */
  lemma QuotientSigns(totals: seq<real>, z: real)
    requires z != 0.0
    ensures forall i :: 0 <= i < |totals| ==>
      (0.0 <= totals[i] / z <==> totals[i] == 0.0 || (totals[i] > 0.0 <==> z > 0.0))
  {
    forall i | 0 <= i < |totals|
      ensures 0.0 <= totals[i] / z <==> totals[i] == 0.0 || (totals[i] > 0.0 <==> z > 0.0)
    {
      QuotientSign(totals[i], z);
    }
  }

  lemma QuotientSign(x: real, z: real)
    requires z != 0.0
    ensures 0.0 <= x / z <==> x == 0.0 || (x > 0.0 <==> z > 0.0)
  {
    var q := x / z;
    assert q * z == x;
  }

  /** Accepted probabilities form a distribution: each lies in [0, 1] and together they sum to 1. */
  lemma {:induction false} RouletteIsDistribution(totals: seq<real>)
    requires Viable(totals)
    ensures Sum(RouletteWheel(totals)) == 1.0
    ensures forall i :: 0 <= i < |totals| ==> 0.0 <= RouletteWheel(totals)[i] <= 1.0
  {
    var z := Sum(totals);
    var p := RouletteWheel(totals);
    SumOfQuotients(totals, z);
    assert p == seq(|totals|, i requires 0 <= i < |totals| => totals[i] / z);
    EntryAtMostSum(p);
  }

  /** Non-negative fitnesses with a positive sum are always accepted. */
  lemma {:induction false} NonNegativeTotalsAreViable(totals: seq<real>)
    requires forall i :: 0 <= i < |totals| ==> 0.0 <= totals[i]
    requires Sum(totals) > 0.0
    ensures Viable(totals)
  {
  }

  /**
   * Fitnesses that are all negative (as the linear strategy can produce) are accepted as well:
   * dividing by a negative sum makes every probability positive.
   */
  lemma {:induction false} NegativeTotalsAreViable(totals: seq<real>)
    requires |totals| > 0
    requires forall i :: 0 <= i < |totals| ==> totals[i] < 0.0
    ensures Sum(totals) < 0.0
    ensures Viable(totals)
  {
    SumAtMost(totals[1..], 0.0);
    assert Sum(totals) == totals[0] + Sum(totals[1..]);
    var z := Sum(totals);
    forall i | 0 <= i < |totals| ensures 0.0 <= totals[i] / z {
      NegativeQuotient(totals[i], z);
    }
  }

  lemma NegativeQuotient(x: real, z: real)
    requires x < 0.0 && z < 0.0
    ensures 0.0 < x / z
  {
  }

  /**
   * Selection favours the fitter individual when the fitness sum is positive, and the LESS fit
   * one when the sum is negative: the wheel preserves the order of fitnesses only for a positive sum.
   */
  lemma {:induction false} RouletteOrder(totals: seq<real>, i: nat, j: nat)
    requires Sum(totals) != 0.0 && i < |totals| && j < |totals|
    requires totals[i] < totals[j]
    ensures Sum(totals) > 0.0 ==> RouletteWheel(totals)[i] < RouletteWheel(totals)[j]
    ensures Sum(totals) < 0.0 ==> RouletteWheel(totals)[i] > RouletteWheel(totals)[j]
  {
    var p, z := RouletteWheel(totals), Sum(totals);
    var d := p[i] - p[j];
    assert d * z == totals[i] - totals[j];
    SignOfFactor(d, z);
  }

  lemma SignOfFactor(d: real, z: real)
    requires d * z < 0.0
    ensures z > 0.0 ==> d < 0.0
    ensures z < 0.0 ==> d > 0.0
  {
  }

  /** An individual has probability zero of being chosen exactly when its fitness is zero. */
  lemma {:induction false} ZeroProbabilityIffZeroFitness(totals: seq<real>, i: nat)
    requires Sum(totals) != 0.0 && i < |totals|
    ensures RouletteWheel(totals)[i] == 0.0 <==> totals[i] == 0.0
  {
    var p, z := RouletteWheel(totals), Sum(totals);
    assert p[i] * z == totals[i];
    if totals[i] != 0.0 {
      assert p[i] != 0.0;
    }
  }
}
