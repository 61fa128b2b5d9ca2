/**
 * The `Population` object: a population matrix, per-trait targets, fitness buffers, a reproduction
 * mode and a history of snapshots, updated in place by its methods. Each method is proved against
 * the functions of the Generation, Fitness, Selection and Mutation modules.
 */
module Genetic {
  import opened Matrices
  import opened Fitness
  import opened Selection
  import opened Mutation
  import opened Generation

  /** The entries of a two-dimensional array, row by row. */
  function Cells(a: array2<real>): (m: Matrix)
    reads a
    ensures IsShape(m, a.Length0, a.Length1)
    ensures forall i, j :: 0 <= i < a.Length0 && 0 <= j < a.Length1 ==> m[i][j] == a[i, j]
  {
    seq(a.Length0, i requires 0 <= i < a.Length0 reads a =>
      seq(a.Length1, j requires 0 <= j < a.Length1 reads a => a[i, j]))
  }

  /** A fresh array holding the entries of an n-by-t matrix (what np.full, np.abs(...) and .copy() allocate). */
  method NewArray(m: Matrix, n: nat, t: nat) returns (a: array2<real>)
    requires IsShape(m, n, t)
    ensures fresh(a) && a.Length0 == n && a.Length1 == t
    ensures Cells(a) == m
  {
    a := new real[n, t]((i, j) requires 0 <= i < n && 0 <= j < t => m[i][j]);
    assert forall i | 0 <= i < n :: Cells(a)[i] == m[i];
  }

  class Population {
    /** The shape (npop, ntraits) fixed by the constructor. */
    const npop: nat
    const ntraits: nat
    /** scipy's norm.pdf, which the Gaussian strategy evaluates. */
    const normPdf: Density

    var population: Matrix
    var fitnessFunction: Strategy
    var fitnessTargets: seq<real>
    var totalFitnesses: seq<real>
    var traitFitnesses: array2<real>
    var reproduction: string
    var recordHistory: bool
    var history: seq<Matrix>

    /** The settings a generation reads but does not change. */
    ghost function Configuration(): Config
      reads this
    {
      Config(npop, ntraits, fitnessFunction, reproduction, recordHistory, fitnessTargets, normPdf)
    }

    /** The values a generation changes. */
    ghost function Abstract(): State
      reads this, traitFitnesses
    {
      State(population, Cells(traitFitnesses), totalFitnesses, history)
    }

    /** Every matrix and vector has the shape the constructor fixed. */
    ghost predicate Valid()
      reads this, traitFitnesses
    {
      traitFitnesses.Length0 == npop && traitFitnesses.Length1 == ntraits &&
      WellFormed(Configuration(), Abstract())
    }

    /** __init__: an all-zero population, zero targets and buffers, Gaussian fitness, clonal mode, recording on, no history. */
    constructor (npop: nat, ntraits: nat, normPdf: Density)
      ensures Valid() && fresh(traitFitnesses)
      ensures this.npop == npop && this.ntraits == ntraits && this.normPdf == normPdf
      ensures population == Full(npop, ntraits, 0.0)
      ensures fitnessFunction == Gaussian && fitnessTargets == seq(ntraits, _ => 0.0)
      ensures totalFitnesses == seq(npop, _ => 0.0) && Cells(traitFitnesses) == Full(npop, ntraits, 0.0)
      ensures reproduction == "clonal" && recordHistory && history == []
    {
      this.npop := npop;
      this.ntraits := ntraits;
      this.normPdf := normPdf;
      var zeros := NewArray(Full(npop, ntraits, 0.0), npop, ntraits);
      population := Full(npop, ntraits, 0.0);
      fitnessFunction := Gaussian;
      fitnessTargets := seq(ntraits, _ => 0.0);
      totalFitnesses := seq(npop, _ => 0.0);
      traitFitnesses := zeros;
      reproduction := "clonal";
      recordHistory := true;
      history := [];
    }

    /** init_random, with np.random.random's draws as the argument. */
    method InitRandom(draws: Matrix)
      requires Valid() && IsShape(draws, npop, ntraits) && IsUniform(draws)
      modifies this`population
      ensures Valid() && population == draws
    {
      population := draws;
    }

    /** init_num: every entry becomes num. */
    method InitNum(num: real)
      requires Valid()
      modifies this`population
      ensures Valid() && population == Full(npop, ntraits, num)
    {
      population := Full(npop, ntraits, num);
    }

    /**
     * init_population: an explicit array (of the population's shape) wins; otherwise 'random',
     * a number, or an unknown value that leaves the population alone and is reported
     * (`defined` is false). Recording appends exactly one snapshot in every branch.
     */
    method InitPopulation(init: InitArg, arr: Option<Matrix>) returns (defined: bool)
      requires Valid()
      requires arr.Some? ==> IsShape(arr.value, npop, ntraits)
      requires init.RandomInit? ==> IsShape(init.draws, npop, ntraits) && IsUniform(init.draws)
      modifies this`population, this`history
      ensures Valid()
      ensures population == Initialised(npop, ntraits, old(population), init, arr)
      ensures history == Record(recordHistory, old(history), population)
      ensures defined == (arr.Some? || !init.OtherInit?)
    {
      defined := true;
      if arr.Some? {
        population := arr.value;
      } else if init.RandomInit? {
        InitRandom(init.draws);
      } else if init.NumberInit? {
        InitNum(init.num);
      } else {
        defined := false;
      }
      if recordHistory {
        history := history + [population];
      }
    }

    /**
     * set_targets: a vector of a different length is rejected (`accepted` is false) and the
     * targets stay as they were; one of the right length replaces them.
     */
    method SetTargets(arr: seq<real>) returns (accepted: bool)
      requires Valid()
      modifies this`fitnessTargets
      ensures Valid()
      ensures accepted <==> |arr| == |old(fitnessTargets)|
      ensures fitnessTargets == if accepted then arr else old(fitnessTargets)
    {
      if |fitnessTargets| != |arr| {
        return false;
      }
      fitnessTargets := arr;
      accepted := true;
    }

    /** targetted_fitness_gaus: writes the density of every (individual, trait) cell into the buffer in place. */
    method TargettedFitnessGaus(sigma: real)
      requires Valid()
      modifies traitFitnesses
      ensures Valid()
      ensures forall i, j :: 0 <= i < npop && 0 <= j < ntraits ==>
        traitFitnesses[i, j] == normPdf(population[i][j], fitnessTargets[j], sigma)
      ensures Cells(traitFitnesses) == GaussianFitness(population, fitnessTargets, sigma, normPdf)
    {
      var ind := 0;
      while ind < |population|
        invariant 0 <= ind <= npop
        invariant forall i, j :: 0 <= i < ind && 0 <= j < ntraits ==>
          traitFitnesses[i, j] == normPdf(population[i][j], fitnessTargets[j], sigma)
      {
        var traitIdx := 0;
        while traitIdx < |population[ind]|
          invariant 0 <= traitIdx <= ntraits
          invariant forall i, j :: 0 <= i < ind && 0 <= j < ntraits ==>
            traitFitnesses[i, j] == normPdf(population[i][j], fitnessTargets[j], sigma)
          invariant forall j :: 0 <= j < traitIdx ==>
            traitFitnesses[ind, j] == normPdf(population[ind][j], fitnessTargets[j], sigma)
        {
          traitFitnesses[ind, traitIdx] := normPdf(population[ind][traitIdx], fitnessTargets[traitIdx], sigma);
          traitIdx := traitIdx + 1;
        }
        ind := ind + 1;
      }
      var expected := GaussianFitness(population, fitnessTargets, sigma, normPdf);
      assert forall i | 0 <= i < npop :: Cells(traitFitnesses)[i] == expected[i];
    }

    /** targetted_fitness_lin: a fresh buffer of linear scores. np.max raises on an empty population. */
    method TargettedFitnessLin(s: real)
      requires Valid() && npop > 0 && ntraits > 0
      modifies this`traitFitnesses
      ensures Valid() && fresh(traitFitnesses)
      ensures Cells(traitFitnesses) == LinearFitness(population, fitnessTargets, s)
    {
      traitFitnesses := NewArray(LinearFitness(population, fitnessTargets, s), npop, ntraits);
    }

    /** equal_fitness: a fresh buffer of ones. */
    method EqualFitness()
      requires Valid()
      modifies this`traitFitnesses
      ensures Valid() && fresh(traitFitnesses)
      ensures Cells(traitFitnesses) == Full(npop, ntraits, 1.0)
    {
      traitFitnesses := NewArray(Full(npop, ntraits, 1.0), npop, ntraits);
    }

    /** direct_fitness: a fresh copy of the population. */
    method DirectFitness()
      requires Valid()
      modifies this`traitFitnesses
      ensures Valid() && fresh(traitFitnesses)
      ensures Cells(traitFitnesses) == population
    {
      traitFitnesses := NewArray(population, npop, ntraits);
    }

    /**
     * calc_total_fitness: run the configured strategy with its default parameter, then sum each
     * individual's trait fitnesses.
     */
    method CalcTotalFitness()
      requires Valid() && Evaluable(fitnessFunction, population, fitnessTargets)
      modifies this`traitFitnesses, this`totalFitnesses, traitFitnesses
      ensures Valid() && (traitFitnesses == old(traitFitnesses) || fresh(traitFitnesses))
      ensures Cells(traitFitnesses) == TraitFitness(fitnessFunction, population, fitnessTargets, normPdf)
      ensures totalFitnesses == RowSums(Cells(traitFitnesses))
    {
      match fitnessFunction {
        case Gaussian => TargettedFitnessGaus(GaussianSigma);
        case Linear => TargettedFitnessLin(LinearSlope);
        case Equal => EqualFitness();
        case Direct => DirectFitness();
      }
      totalFitnesses := RowSums(Cells(traitFitnesses));
    }

    /** max_fitness: the largest total (Python's max raises on no individuals). */
    function MaxFitness(): (r: real)
      reads this
      requires |totalFitnesses| > 0
      ensures r in totalFitnesses
      ensures forall k :: 0 <= k < |totalFitnesses| ==> totalFitnesses[k] <= r
    {
      Max(totalFitnesses)
    }

    /** mean_fitness: the average total, which never exceeds the maximum. */
    function MeanFitness(): (r: real)
      reads this
      requires |totalFitnesses| > 0
      ensures r <= Max(totalFitnesses)
    {
      MeanAtMostMax(totalFitnesses);
      Mean(totalFitnesses)
    }

    /**
     * choose_parents_indices: for each of the npop slots, the nparents indices np.random.choice
     * draws in turn (draws[i][j] is the j-th draw for slot i). Sampling accepts only viable
     * probabilities, and samples at all only when there is a draw to make.
     */
    method ChooseParentsIndices(nparents: nat, draws: seq<seq<int>>) returns (nextGen: seq<seq<int>>)
      requires |population| == npop && (npop > 0 && nparents > 0 ==> Viable(totalFitnesses))
      requires |draws| == npop && forall i :: 0 <= i < npop ==> |draws[i]| == nparents
      requires forall i, j :: 0 <= i < npop && 0 <= j < nparents ==> 0 <= draws[i][j] < npop
      ensures nextGen == draws
      ensures forall i :: 0 <= i < npop ==> |nextGen[i]| == nparents
      ensures forall i, j :: 0 <= i < npop && 0 <= j < nparents ==> 0 <= nextGen[i][j] < npop
    {
      nextGen := [];
      for i := 0 to |population|
        invariant nextGen == draws[..i]
      {
        nextGen := nextGen + [[]];
        for j := 0 to nparents
          invariant nextGen == draws[..i] + [draws[i][..j]]
        {
          nextGen := nextGen[i := nextGen[i] + [draws[i][j]]];
          assert draws[i][..j + 1] == draws[i][..j] + [draws[i][j]];
        }
        assert draws[i][..nparents] == draws[i];
        assert draws[..i + 1] == draws[..i] + [draws[i]];
      }
      assert draws[..npop] == draws;
    }

    /** mutate_traits, with np.random.random's and np.random.normal's draws as arguments. */
    method MutateTraits(rate: real, uniforms: Matrix, deltas: Matrix)
      requires IsShape(population, npop, ntraits) && IsShape(uniforms, npop, ntraits) && IsUniform(uniforms) && IsShape(deltas, npop, ntraits)
      modifies this`population
      ensures IsShape(population, npop, ntraits)
      ensures population == Mutated(old(population), uniforms, rate, deltas)
    {
      population := Mutated(population, uniforms, rate, deltas);
    }

    /** renew_population_exact: mutation at the default rate, no selection. */
    method RenewPopulationExact(roll: Roll)
      requires Valid() && RollFits(Configuration(), roll)
      modifies this`population
      ensures Valid()
      ensures Abstract() == Exact(old(Configuration()), old(Abstract()), roll).state
    {
      MutateTraits(MutationRate, roll.uniforms, roll.deltas);
    }

    /**
     * The breeding half of renew_population_clonal: choose one parent per slot, replace the
     * population by a fresh array of the parents' rows, then mutate it.
     */
    method BreedClones(roll: Roll)
      requires Valid() && RollFits(Configuration(), roll)
      requires npop > 0 ==> Viable(totalFitnesses)
      modifies this`population
      ensures Valid()
      ensures population == Mutated(CloneRows(old(population), roll.picks), roll.uniforms, MutationRate, roll.deltas)
    {
      var nextGenIndices := ChooseParentsIndices(1, seq(npop, i requires 0 <= i < npop => [roll.picks[i]]));
      population := CopyParents(population, nextGenIndices, ntraits);
      assert population == CloneRows(old(population), roll.picks);
      MutateTraits(MutationRate, roll.uniforms, roll.deltas);
    }

    /**
     * renew_population_clonal: evaluate fitness, then breed the next generation from it. The two
     * exceptions the source can raise on the way come back as failed outcomes, with the state the
     * source leaves behind.
     */
    method RenewPopulationClonal(roll: Roll) returns (outcome: Outcome)
      requires Valid() && RollFits(Configuration(), roll)
      modifies this`population, this`traitFitnesses, this`totalFitnesses, traitFitnesses
      ensures Valid() && (traitFitnesses == old(traitFitnesses) || fresh(traitFitnesses))
      ensures StepResult(Abstract(), outcome) == Clonal(old(Configuration()), old(Abstract()), roll)
    {
      ghost var cfg, s0 := Configuration(), Abstract();
      ClonalOutcomes(cfg, s0, roll);
      if !Evaluable(fitnessFunction, population, fitnessTargets) {
        return FitnessUndefined;
      }
      CalcTotalFitness();
      ghost var evaluated := Abstract();
      if (|population| > 0 || ntraits == 0) && !Viable(totalFitnesses) {
        return NoViableParents;
      }
      BreedClones(roll);
      outcome := Stepped;
      assert Cells(traitFitnesses) == evaluated.traitFitnesses;
    }

    /**
     * next_gen: reproduce by the configured mode, then record the population when recording is
     * on, also in an unrecognised mode (reported as NoReproductionMode).
     */
    method NextGen(roll: Roll) returns (outcome: Outcome)
      requires Valid() && RollFits(Configuration(), roll)
      modifies this`population, this`traitFitnesses, this`totalFitnesses, this`history, traitFitnesses
      ensures Valid() && (traitFitnesses == old(traitFitnesses) || fresh(traitFitnesses))
      ensures StepResult(Abstract(), outcome) == Step(old(Configuration()), old(Abstract()), roll)
    {
      if reproduction == "clonal" {
        outcome := RenewPopulationClonal(roll);
        if outcome.Failed() {
          return;
        }
      } else if reproduction == "exact" {
        RenewPopulationExact(roll);
        outcome := Stepped;
      } else {
        outcome := NoReproductionMode;
      }
      if recordHistory {
        history := history + [population];
      }
    }

    /**
     * run_generations: next_gen once per generation (a negative count runs none), each with its
     * own random input; a generation that raises ends the run.
     */
    method RunGenerations(gens: int, rolls: seq<Roll>) returns (completed: nat)
      requires Valid()
      requires |rolls| == if gens < 0 then 0 else gens
      requires forall k :: 0 <= k < |rolls| ==> RollFits(Configuration(), rolls[k])
      modifies this`population, this`traitFitnesses, this`totalFitnesses, this`history, traitFitnesses
      ensures Valid()
      ensures RunResult(Abstract(), completed) == Run(old(Configuration()), old(Abstract()), rolls)
    {
      ghost var cfg := Configuration();
      ghost var final := Run(cfg, Abstract(), rolls);
      completed := 0;
      while completed < |rolls|
        invariant completed <= |rolls|
        invariant Valid() && Configuration() == cfg
        invariant traitFitnesses == old(traitFitnesses) || fresh(traitFitnesses)
        invariant Run(cfg, Abstract(), rolls[completed..]).state == final.state
        invariant completed + Run(cfg, Abstract(), rolls[completed..]).completed == final.completed
        decreases |rolls| - completed
      {
        ghost var before := Abstract();
        ghost var rest := rolls[completed..];
        assert rest[0] == rolls[completed] && rest[1..] == rolls[completed + 1..];
        var outcome := NextGen(rolls[completed]);
        ghost var step := Step(cfg, before, rest[0]);
        assert StepResult(Abstract(), outcome) == step;
        if outcome.Failed() {
          assert Run(cfg, before, rest) == RunResult(Abstract(), 0);
          return;
        }
        completed := completed + 1;
      }
    }
  }

  /**
   * The loop of renew_population_clonal: a fresh zero array whose row i becomes a copy of the row
   * of the first parent chosen for slot i.
   */
  method CopyParents(pop: Matrix, parents: seq<seq<int>>, t: nat) returns (next: Matrix)
    requires IsShape(pop, |pop|, t)
    requires forall i :: 0 <= i < |parents| ==> |parents[i]| > 0 && 0 <= parents[i][0] < |pop|
    ensures |next| == |parents|
    ensures forall i :: 0 <= i < |parents| ==> next[i] == pop[parents[i][0]]
  {
    var a := new real[|parents|, t];
    for i := 0 to |parents|
      invariant forall r, j :: 0 <= r < i && 0 <= j < t ==> a[r, j] == pop[parents[r][0]][j]
    {
      var parent := parents[i][0];
      forall j | 0 <= j < t {
        a[i, j] := pop[parent][j];
      }
    }
    next := Cells(a);
    assert forall i | 0 <= i < |parents| :: next[i] == pop[parents[i][0]];
  }
}
