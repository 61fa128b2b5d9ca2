/**
 * The generation engine as a function of the engine's state: initialisation, one generation step
 * in each reproduction mode, and a run of steps. The `Population` class is proved against these.
 */
module Generation {
  import opened Matrices
  import opened Fitness
  import opened Selection
  import opened Mutation

  datatype Option<T> = None | Some(value: T)

  /**
   * The `init` argument of init_population: the string 'random' (carrying the matrix of uniform
   * draws np.random.random returns), an int or float, or any other value.
   */
  datatype InitArg = RandomInit(draws: Matrix) | NumberInit(num: real) | OtherInit

  /** The population after init_population: an explicit array wins over `init`; an unknown `init` keeps the old one. */
  function Initialised(n: nat, t: nat, pop: Matrix, init: InitArg, arr: Option<Matrix>): (r: Matrix)
    ensures arr.Some? ==> r == arr.value
    ensures arr.None? && init.RandomInit? ==> r == init.draws
    ensures arr.None? && init.NumberInit? ==>
      IsShape(r, n, t) && forall i, j :: 0 <= i < n && 0 <= j < t ==> r[i][j] == init.num
    ensures arr.None? && init.OtherInit? ==> r == pop
  {
    if arr.Some? then arr.value
    else
      match init
      case RandomInit(draws) => draws
      case NumberInit(v) => Full(n, t, v)
      case OtherInit => pop
  }

  /** The history after a snapshot of `pop` is offered to it. */
  function Record(enabled: bool, history: seq<Matrix>, pop: Matrix): (r: seq<Matrix>)
    ensures |r| == |history| + (if enabled then 1 else 0)
    ensures r[..|history|] == history
    ensures enabled ==> r[|history|] == pop
  {
    if enabled then history + [pop] else history
  }

  /** What stays fixed while generations run: the shape, the strategy, the mode, the recording switch, the targets and the density. */
  datatype Config = Config(npop: nat, ntraits: nat, strategy: Strategy, reproduction: string,
                           recordHistory: bool, targets: seq<real>, pdf: Density)

  /** What generations change. */
  datatype State = State(population: Matrix, traitFitnesses: Matrix, totals: seq<real>, history: seq<Matrix>)

  /**
   * The random input of one generation: the parent index np.random.choice draws for each slot,
   * the uniform draws of the mutation mask and the normal mutation deltas.
   */
  datatype Roll = Roll(picks: seq<int>, uniforms: Matrix, deltas: Matrix)

  /**
   * How a generation ended. The last two stand for the exceptions the source raises: np.max on an
   * empty population (linear strategy), and selection failing on the totals, either because
   * np.random.choice rejects the probabilities or because, with no traits, Python's `sum` left a
   * scalar 0 that roulette_wheel cannot sum again.
   */
  datatype Outcome = Stepped | NoReproductionMode | FitnessUndefined | NoViableParents
  {
    predicate Failed()
    {
      this == FitnessUndefined || this == NoViableParents
    }
  }

  datatype StepResult = StepResult(state: State, outcome: Outcome)
  datatype RunResult = RunResult(state: State, completed: nat)

  /** Every matrix has shape (npop, ntraits), including every snapshot in the history. */
  predicate WellFormed(cfg: Config, s: State)
  {
    IsShape(s.population, cfg.npop, cfg.ntraits) && |cfg.targets| == cfg.ntraits
    && IsShape(s.traitFitnesses, cfg.npop, cfg.ntraits) && |s.totals| == cfg.npop
    && forall k :: 0 <= k < |s.history| ==> IsShape(s.history[k], cfg.npop, cfg.ntraits)
  }

  /** A generation's random input has the shapes and ranges its sources produce. */
  predicate RollFits(cfg: Config, roll: Roll)
  {
    |roll.picks| == cfg.npop && (forall i :: 0 <= i < |roll.picks| ==> 0 <= roll.picks[i] < cfg.npop)
    && IsShape(roll.uniforms, cfg.npop, cfg.ntraits) && IsUniform(roll.uniforms)
    && IsShape(roll.deltas, cfg.npop, cfg.ntraits)
  }

  /** The next generation before mutation: slot i holds a copy of parent picks[i]. */
  function CloneRows(pop: Matrix, picks: seq<int>): (next: Matrix)
    requires forall i :: 0 <= i < |picks| ==> 0 <= picks[i] < |pop|
    ensures |next| == |picks|
  {
    seq(|picks|, i requires 0 <= i < |picks| => pop[picks[i]])
  }

  /**
   * renew_population_clonal: evaluate fitness, select one parent per slot, copy it, mutate.
   * Sampling (and so its rejection of the probabilities) happens only when there is a slot to fill;
   * with no traits the totals are a scalar 0 in the source and roulette_wheel raises regardless.
   * The zero vector the model keeps instead sums to 0, so Viable fails on it.
   */
  function Clonal(cfg: Config, s: State, roll: Roll): (r: StepResult)
    requires WellFormed(cfg, s) && RollFits(cfg, roll)
    ensures WellFormed(cfg, r.state)
  {
    if !Evaluable(cfg.strategy, s.population, cfg.targets) then StepResult(s, FitnessUndefined)
    else
      var tf := TraitFitness(cfg.strategy, s.population, cfg.targets, cfg.pdf);
      var totals := RowSums(tf);
      if (|s.population| > 0 || cfg.ntraits == 0) && !Viable(totals) then StepResult(s.(traitFitnesses := tf, totals := totals), NoViableParents)
      else
        var children := CloneRows(s.population, roll.picks);
        assert IsShape(children, cfg.npop, cfg.ntraits);
        var pop := Mutated(children, roll.uniforms, MutationRate, roll.deltas);
        StepResult(State(pop, tf, totals, s.history), Stepped)
  }

  /** The three ways a clonal step ends, with the state each leaves behind. */
  lemma ClonalOutcomes(cfg: Config, s: State, roll: Roll)
    requires WellFormed(cfg, s) && RollFits(cfg, roll)
    ensures !Evaluable(cfg.strategy, s.population, cfg.targets) ==> Clonal(cfg, s, roll) == StepResult(s, FitnessUndefined)
    ensures Evaluable(cfg.strategy, s.population, cfg.targets) ==>
      var tf := TraitFitness(cfg.strategy, s.population, cfg.targets, cfg.pdf);
      if (cfg.npop > 0 || cfg.ntraits == 0) && !Viable(RowSums(tf)) then
        Clonal(cfg, s, roll) == StepResult(s.(traitFitnesses := tf, totals := RowSums(tf)), NoViableParents)
      else
        Clonal(cfg, s, roll) ==
          StepResult(State(Mutated(CloneRows(s.population, roll.picks), roll.uniforms, MutationRate, roll.deltas),
                           tf, RowSums(tf), s.history), Stepped)
  {
  }

  /** renew_population_exact: mutate the current population, with no selection. */
  function Exact(cfg: Config, s: State, roll: Roll): (r: StepResult)
    requires WellFormed(cfg, s) && RollFits(cfg, roll)
    ensures WellFormed(cfg, r.state)
  {
    StepResult(s.(population := Mutated(s.population, roll.uniforms, MutationRate, roll.deltas)), Stepped)
  }

  /**
   * next_gen: reproduce by the configured mode, then snapshot the population into the history
   * when recording is on, also when the mode is not recognised. A step that raises records nothing.
   */
  function Step(cfg: Config, s: State, roll: Roll): (r: StepResult)
    requires WellFormed(cfg, s) && RollFits(cfg, roll)
    ensures WellFormed(cfg, r.state)
    ensures r.state.history == if cfg.recordHistory && !r.outcome.Failed() then s.history + [r.state.population] else s.history
    ensures r.outcome.Failed() ==> cfg.reproduction == "clonal" && r.state.population == s.population
  {
    var inner :=
      if cfg.reproduction == "clonal" then Clonal(cfg, s, roll)
      else if cfg.reproduction == "exact" then Exact(cfg, s, roll)
      else StepResult(s, NoReproductionMode);
    if inner.outcome.Failed() then inner
    else StepResult(inner.state.(history := Record(cfg.recordHistory, inner.state.history, inner.state.population)), inner.outcome)
  }

  /**
   * run_generations: one step per roll, in order. A step that raises ends the run (the exception
   * propagates); `completed` counts the steps that finished.
   */
  function Run(cfg: Config, s: State, rolls: seq<Roll>): (r: RunResult)
    requires WellFormed(cfg, s) && forall k :: 0 <= k < |rolls| ==> RollFits(cfg, rolls[k])
    ensures WellFormed(cfg, r.state) && r.completed <= |rolls|
    ensures |r.state.history| == |s.history| + (if cfg.recordHistory then r.completed else 0)
    ensures r.state.history[..|s.history|] == s.history
    decreases |rolls|
  {
    if rolls == [] then RunResult(s, 0)
    else
      var step := Step(cfg, s, rolls[0]);
      if step.outcome.Failed() then RunResult(step.state, 0)
      else
        var rest := Run(cfg, step.state, rolls[1..]);
        RunResult(rest.state, rest.completed + 1)
  }

  /** Every branch of init_population leaves a population of the current shape. */
  lemma InitKeepsShape(n: nat, t: nat, pop: Matrix, init: InitArg, arr: Option<Matrix>)
    requires IsShape(pop, n, t)
    requires arr.Some? ==> IsShape(arr.value, n, t)
    requires init.RandomInit? ==> IsShape(init.draws, n, t)
    ensures IsShape(Initialised(n, t, pop, init, arr), n, t)
  {
  }

  /** Every child of a clonal step is, before mutation, a copy of some individual of the previous generation. */
  lemma {:induction false} CloneLineage(pop: Matrix, picks: seq<int>)
    requires forall i :: 0 <= i < |picks| ==> 0 <= picks[i] < |pop|
    ensures forall i :: 0 <= i < |picks| ==> CloneRows(pop, picks)[i] in pop
  {
    forall i | 0 <= i < |picks| ensures CloneRows(pop, picks)[i] in pop {
      assert CloneRows(pop, picks)[i] == pop[picks[i]];
    }
  }

  /**
   * A clonal step that completes replaces the population by the mutated copies of the picked
   * parents, and records the trait and total fitnesses of the evaluated strategy.
   */
  lemma {:induction false} ClonalStepReplaces(cfg: Config, s: State, roll: Roll)
    requires WellFormed(cfg, s) && RollFits(cfg, roll) && cfg.reproduction == "clonal"
    ensures Step(cfg, s, roll).outcome == Stepped <==>
      Evaluable(cfg.strategy, s.population, cfg.targets) &&
      ((cfg.npop == 0 && cfg.ntraits > 0) || Viable(RowSums(TraitFitness(cfg.strategy, s.population, cfg.targets, cfg.pdf))))
    ensures Step(cfg, s, roll).outcome == Stepped ==>
      Step(cfg, s, roll).state.population ==
        Mutated(CloneRows(s.population, roll.picks), roll.uniforms, MutationRate, roll.deltas)
  {
  }

  /** A step in an unrecognised mode changes nothing but the history, which still gains the current population. */
  lemma {:induction false} UnknownModeStep(cfg: Config, s: State, roll: Roll)
    requires WellFormed(cfg, s) && RollFits(cfg, roll)
    requires cfg.reproduction != "clonal" && cfg.reproduction != "exact"
    ensures Step(cfg, s, roll) == StepResult(s.(history := Record(cfg.recordHistory, s.history, s.population)), NoReproductionMode)
  {
  }

  /**
   * A run in an unrecognised mode completes every step, never changes the population, and, when
   * recording, appends one copy of it per step.
   */
  lemma {:induction false} UnknownModeRun(cfg: Config, s: State, rolls: seq<Roll>)
    requires WellFormed(cfg, s) && forall k :: 0 <= k < |rolls| ==> RollFits(cfg, rolls[k])
    requires cfg.reproduction != "clonal" && cfg.reproduction != "exact"
    ensures Run(cfg, s, rolls).completed == |rolls|
    ensures Run(cfg, s, rolls).state.population == s.population
    ensures Run(cfg, s, rolls).state.history ==
      s.history + (if cfg.recordHistory then seq(|rolls|, _ => s.population) else [])
    decreases |rolls|
  {
    if rolls != [] {
      var s1 := Step(cfg, s, rolls[0]).state;
      UnknownModeRun(cfg, s1, rolls[1..]);
      if cfg.recordHistory {
        assert [s.population] + seq(|rolls| - 1, _ => s.population) == seq(|rolls|, _ => s.population);
      }
    }
  }

  /**
   * Only selection can stop a run: outside the clonal mode every step completes, so the history
   * grows by exactly the number of generations when recording.
   */
  lemma {:induction false} RunWithoutSelectionCompletes(cfg: Config, s: State, rolls: seq<Roll>)
    requires WellFormed(cfg, s) && forall k :: 0 <= k < |rolls| ==> RollFits(cfg, rolls[k])
    requires cfg.reproduction != "clonal"
    ensures Run(cfg, s, rolls).completed == |rolls|
    ensures |Run(cfg, s, rolls).state.history| == |s.history| + (if cfg.recordHistory then |rolls| else 0)
    decreases |rolls|
  {
    if rolls != [] {
      RunWithoutSelectionCompletes(cfg, Step(cfg, s, rolls[0]).state, rolls[1..]);
    }
  }

  /** Under equal fitness with at least one individual and one trait, sampling always accepts the totals. */
  lemma {:induction false} EqualTotalsViable(pop: Matrix, targets: seq<real>, pdf: Density)
    requires Conforms(pop, targets) && |pop| > 0 && |targets| > 0
    ensures Viable(RowSums(TraitFitness(Equal, pop, targets, pdf)))
  {
    var totals := RowSums(TraitFitness(Equal, pop, targets, pdf));
    var t := |targets| as real;
    EqualFitnessTotals(pop, targets, pdf);
    assert totals == seq(|pop|, _ => t);
    SumOfConstant(|pop|, t);
    PositiveProduct(|pop| as real, t);
    NonNegativeTotalsAreViable(totals);
  }

  lemma PositiveProduct(x: real, y: real)
    requires x > 0.0 && y > 0.0
    ensures x * y > 0.0
  {
  }

  /**
   * Selection does not stop a clonal run under equal fitness: with at least one individual and one
   * trait every generation completes, and recording grows the history by exactly one snapshot each.
   */
  lemma {:induction false} EqualClonalRunCompletes(cfg: Config, s: State, rolls: seq<Roll>)
    requires WellFormed(cfg, s) && forall k :: 0 <= k < |rolls| ==> RollFits(cfg, rolls[k])
    requires cfg.reproduction == "clonal" && cfg.strategy == Equal && cfg.npop > 0 && cfg.ntraits > 0
    ensures Run(cfg, s, rolls).completed == |rolls|
    ensures |Run(cfg, s, rolls).state.history| == |s.history| + (if cfg.recordHistory then |rolls| else 0)
    decreases |rolls|
  {
    if rolls != [] {
      EqualTotalsViable(s.population, cfg.targets, cfg.pdf);
      ClonalStepReplaces(cfg, s, rolls[0]);
      EqualClonalRunCompletes(cfg, Step(cfg, s, rolls[0]).state, rolls[1..]);
    }
  }

  /**
   * Under the Gaussian strategy with a strictly positive density and at least one individual
   * and one trait, sampling accepts the totals.
   */
  lemma {:induction false} GaussianTotalsViable(pop: Matrix, targets: seq<real>, pdf: Density)
    requires Conforms(pop, targets) && |pop| > 0 && |targets| > 0
    requires forall x, m, sd :: 0.0 < pdf(x, m, sd)
    ensures Viable(RowSums(TraitFitness(Gaussian, pop, targets, pdf)))
  {
    var totals := RowSums(TraitFitness(Gaussian, pop, targets, pdf));
    GaussianTotalsPositive(pop, targets, GaussianSigma, pdf);
    PositiveSum(totals);
    NonNegativeTotalsAreViable(totals);
  }

  /**
   * The driver's scenario: a clonal run under the Gaussian strategy completes every generation
   * when the density never vanishes, so recording grows the history by one snapshot each.
   */
  lemma {:induction false} GaussianClonalRunCompletes(cfg: Config, s: State, rolls: seq<Roll>)
    requires WellFormed(cfg, s) && forall k :: 0 <= k < |rolls| ==> RollFits(cfg, rolls[k])
    requires cfg.reproduction == "clonal" && cfg.strategy == Gaussian && cfg.npop > 0 && cfg.ntraits > 0
    requires forall x, m, sd :: 0.0 < cfg.pdf(x, m, sd)
    ensures Run(cfg, s, rolls).completed == |rolls|
    ensures |Run(cfg, s, rolls).state.history| == |s.history| + (if cfg.recordHistory then |rolls| else 0)
    decreases |rolls|
  {
    if rolls != [] {
      GaussianTotalsViable(s.population, cfg.targets, cfg.pdf);
      ClonalStepReplaces(cfg, s, rolls[0]);
      GaussianClonalRunCompletes(cfg, Step(cfg, s, rolls[0]).state, rolls[1..]);
    }
  }
}
