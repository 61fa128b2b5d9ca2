/**
 * Masked additive mutation. Each entry of the population gets its noise delta added when its
 * mask entry, round(u + rate - 0.5) for a uniform draw u, is 1.
 */
module Mutation {
  import opened Matrices

  /** Default rate of `mutate_traits`, which is what both reproduction modes call it with. */
  const MutationRate: real := 0.02

  /**
   * numpy's round: an integer within 1/2 of x, and when x lies halfway between two integers,
   * the even one of them.
   */
  function RoundHalfEven(x: real): (r: int)
    ensures x - 0.5 <= r as real <= x + 0.5
    ensures (r as real == x - 0.5 || r as real == x + 0.5) ==> r % 2 == 0
  {
    var f := x.Floor;
    var frac := x - f as real;
    if frac < 0.5 then f
    else if frac > 0.5 then f + 1
    else if f % 2 == 0 then f
    else f + 1
  }

  /**
   * One entry of the mutation mask for draw u. For a draw in [0, 1) and a rate in [0, 1] it is
   * 1 exactly when u + rate exceeds 1 and 0 otherwise (a sum of exactly 1 rounds half to the even 0).
   */
  function MaskEntry(u: real, rate: real): (m: real)
    ensures 0.0 <= u < 1.0 && 0.0 <= rate <= 1.0 ==> m == if u + rate > 1.0 then 1.0 else 0.0
  {
    RoundHalfEven(u + rate - 0.5) as real
  }

  /** The noise and the draws have the population's shape. */
  predicate Fits(pop: Matrix, m: Matrix)
  {
    |m| == |pop| && forall i :: 0 <= i < |pop| ==> |m[i]| == |pop[i]|
  }

  /** mutate_traits: population + mask * deltas, entry by entry. */
  function Mutated(pop: Matrix, uniforms: Matrix, rate: real, deltas: Matrix): (r: Matrix)
    requires Fits(pop, uniforms) && Fits(pop, deltas)
    ensures Fits(pop, r)
  {
    seq(|pop|, i requires 0 <= i < |pop| =>
      seq(|pop[i]|, j requires 0 <= j < |pop[i]| => pop[i][j] + MaskEntry(uniforms[i][j], rate) * deltas[i][j]))
  }

  /** Each entry moves by exactly its mask times its delta, and the mask decides whether it moves. */
  lemma {:induction false} MutatedAt(pop: Matrix, uniforms: Matrix, rate: real, deltas: Matrix, i: nat, j: nat)
    requires Fits(pop, uniforms) && Fits(pop, deltas) && IsUniform(uniforms) && 0.0 <= rate <= 1.0
    requires i < |pop| && j < |pop[i]|
    ensures Mutated(pop, uniforms, rate, deltas)[i][j] - pop[i][j] == MaskEntry(uniforms[i][j], rate) * deltas[i][j]
    ensures Mutated(pop, uniforms, rate, deltas)[i][j] ==
      if uniforms[i][j] + rate > 1.0 then pop[i][j] + deltas[i][j] else pop[i][j]
  {
  }

  /** With rate 0 no entry is ever mutated: the population comes back unchanged. */
  lemma {:induction false} RateZeroIsIdentity(pop: Matrix, uniforms: Matrix, deltas: Matrix)
    requires Fits(pop, uniforms) && Fits(pop, deltas) && IsUniform(uniforms)
    ensures Mutated(pop, uniforms, 0.0, deltas) == pop
  {
    var r := Mutated(pop, uniforms, 0.0, deltas);
    forall i | 0 <= i < |pop| ensures r[i] == pop[i] {
      forall j | 0 <= j < |pop[i]| ensures r[i][j] == pop[i][j] {
        MutatedAt(pop, uniforms, 0.0, deltas, i, j);
      }
    }
  }

  /**
   * With rate 1 every entry whose draw is positive is shifted by exactly its delta; an entry
   * whose draw is exactly 0.0 is not shifted, because 0.5 rounds to 0.
   */
  lemma {:induction false} RateOneShifts(pop: Matrix, uniforms: Matrix, deltas: Matrix, i: nat, j: nat)
    requires Fits(pop, uniforms) && Fits(pop, deltas) && IsUniform(uniforms)
    requires i < |pop| && j < |pop[i]|
    ensures uniforms[i][j] > 0.0 ==> Mutated(pop, uniforms, 1.0, deltas)[i][j] == pop[i][j] + deltas[i][j]
    ensures uniforms[i][j] == 0.0 ==> Mutated(pop, uniforms, 1.0, deltas)[i][j] == pop[i][j]
  {
    MutatedAt(pop, uniforms, 1.0, deltas, i, j);
  }
}
