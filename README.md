# A verified model of the `Population` genetic-algorithm engine

`Model/genetic.py` defines one class, `Population`: a matrix of `npop` individuals by `ntraits`
real-valued traits that evolves generation by generation. A clonal generation
- scores every trait of every individual against a per-trait target, under one of four fitness
  strategies (Gaussian density, linear distance, equal, identity) — the scores sum to one total
  per individual;
- selects one parent per slot by roulette wheel and copies it;
- adds Gaussian noise to the entries chosen by a rounding-based mutation mask.

An exact generation only mutates, without scoring or selection. An unrecognised reproduction mode
neither scores nor mutates. In every mode a generation that does not raise appends a snapshot of
the population to a history when recording is on.

This project models that class in Dafny and proves properties of it.

The model has two layers:

- **The specification layer** holds pure functions and lemmas over values.
  - `Matrices` covers numpy's shapes and reductions: `np.full`, row sums, `max`, `np.max`, `np.mean`.
  - `Fitness` covers the four strategies.
  - `Selection` covers the roulette wheel and the condition under which `np.random.choice` accepts its probabilities.
  - `Mutation` covers numpy's round-half-even and the masked additive mutation.
  - `Generation` covers initialisation, one generation in each reproduction mode, and a run of generations. The engine state is a `State` value and the fixed settings a `Config` value.
- **The object layer** is `Genetic.Population`, a class with the object's fields.
  - `population` is a sequence-valued field. The source only ever rebinds it, never writing into it: to a fresh array in every operation except `init_population(arr=...)`, which binds the caller's array (see "## Left out" on aliasing).
  - `trait_fitnesses` is an `array2<real>` field, because `targetted_fitness_gaus` writes it cell by cell.
  - Every method is proved against the specification layer. `NextGen` is proved equal to `Step`, and `RunGenerations` to `Run`, on the object's abstract state.

Randomness is an input, not an effect.
- `np.random.random` for initialisation and the mutation mask, `np.random.normal` for the noise, and the parent indices `np.random.choice` draws are all parameters. A generation's draws form a `Roll`.
- scipy's `norm.pdf` is an uninterpreted function (`Density`) fixed when the object is built.

The exceptions the source can raise inside a generation become failed outcomes:
- `np.max` of an empty population under the linear strategy gives `FitnessUndefined`;
- `np.random.choice` rejecting the probabilities gives `NoViableParents`.

A failed step propagates like the exception: the generation records nothing and the run stops.

Where the code and its own comments or messages disagree, the model follows the code:

- An unrecognised `init` keeps the current population, although the message printed at `Model/genetic.py:42` says it reverts to zeros. The two agree only while the population is all zeros, as on a fresh object.
- A rejected target vector is reported by the return value `accepted`. The source only prints and returns.
- Roulette selection accepts a negative fitness sum when every total is zero or has the sign of the sum, as `np.random.choice` does (`Selection.ViableIffSignsAgree`). The comment at `Model/genetic.py:68-70` says the linear shift is there to keep fitness non-negative, but the linear strategy can produce negative totals (`Fitness.LinearFitnessCanBeNegative`), and selection then favours the less fit (`Selection.RouletteOrder`).
- A zero fitness sum with at least one individual makes `np.random.choice` reject the probabilities, which gives `NoViableParents`. With no traits, Python's `sum` at `Model/genetic.py:88` returns the integer 0, and `roulette_wheel` raises when it sums that again at `:114`. That is also `NoViableParents`, whatever the population size. Only with no individuals and at least one trait is nothing sampled, and the step completes.
- An unrecognised reproduction mode still appends a snapshot to the history (`Generation.UnknownModeStep`).
- The mutation mask `round(u + rate - 0.5)` for `u` in [0, 1) fires exactly when `u + rate > 1` (`Mutation.MaskEntry`). That is probability `rate`, except that with `rate = 1` a draw of exactly 0.0 rounds half to even and does not fire (`Mutation.RateOneShifts`).
- The comment at `Model/genetic.py:68-70` speaks of the maximum of each trait. The code takes the single maximum of the whole matrix.

## Model

| member | source | states |
|---|---|---|
| Matrices.Full | Model/genetic.py:28-30 | `np.full((n, t), v)` has shape (n, t) and every entry equal to v |
| Matrices.SumAppend | Model/genetic.py:88 | Python's `sum` accumulates left to right: appending x to a vector adds x to its sum |
| Matrices.RowSums | Model/genetic.py:88 | one total per individual, each the sum of that individual's trait fitnesses |
| Matrices.Max | Model/genetic.py:92 | the maximum is one of the totals and no total exceeds it |
| Matrices.MatrixMax | Model/genetic.py:71 | `np.max` over the whole population is one of its entries and no entry exceeds it |
| Matrices.Mean | Model/genetic.py:96 | the mean times the number of totals is their sum |
| Matrices.MeanAtMostMax | Model/genetic.py:90-96 | the mean fitness never exceeds the maximum fitness |
| Fitness.GaussianFitness | Model/genetic.py:57-65 | the Gaussian scores have the population's shape, one column per target |
| Fitness.LinearFitness | Model/genetic.py:67-72 | the linear scores have the population's shape, one column per target |
| Fitness.TraitFitness | Model/genetic.py:85-87 | every strategy yields one score per individual and trait |
| Fitness.EqualFitnessTotals | Model/genetic.py:75-77 | under equal fitness every score is 1 and every total is the number of traits |
| Fitness.DirectFitnessTotals | Model/genetic.py:79-82 | under direct fitness each total is the sum of the individual's own trait values |
| Fitness.LinearCell | Model/genetic.py:72 | one linear score never exceeds abs(s * max), and reaches it exactly when the value is on its target or s is 0 |
| Fitness.LinearPeak | Model/genetic.py:67-72 | no linear score exceeds abs(s * max), and a score reaches it exactly when the trait is on its target or s is 0 |
| Fitness.LinearCloserIsFitter | Model/genetic.py:67-72 | a trait closer to its target never scores lower, across individuals and traits |
| Fitness.LinearFitnessCanBeNegative | Model/genetic.py:67-72 | one trait at 0 with target 10 scores -1 under the default slope: the shift does not keep scores non-negative |
| Fitness.GaussianTotalsPositive | Model/genetic.py:57-65 | with a strictly positive density and at least one trait every Gaussian total is positive |
| Fitness.GaussianTotalsNonNegative | Model/genetic.py:57-65 | with a non-negative density every Gaussian total is non-negative |
| Selection.RouletteWheel | Model/genetic.py:113-114 | one probability per individual, each its total divided by the sum of totals |
| Selection.RouletteIsDistribution | Model/genetic.py:113-114 | accepted probabilities lie in [0, 1] and sum to exactly 1 |
| Selection.ViableIffSignsAgree | Model/genetic.py:126 | `np.random.choice` accepts the probabilities exactly when the sum is not zero and every total is zero or has the sign of the sum |
| Selection.NonNegativeTotalsAreViable | Model/genetic.py:116-127 | non-negative totals with a positive sum are always accepted by sampling |
| Selection.NegativeTotalsAreViable | Model/genetic.py:116-127 | totals that are all negative have a negative sum and are accepted too |
| Selection.RouletteOrder | Model/genetic.py:113-114 | a fitter individual gets the larger probability when the sum is positive and the smaller one when it is negative |
| Selection.ZeroProbabilityIffZeroFitness | Model/genetic.py:113-114 | an individual has probability 0 exactly when its total is 0 |
| Mutation.Mutated | Model/genetic.py:100-108 | mutation keeps the population's shape |
| Mutation.RoundHalfEven | Model/genetic.py:105 | `np.round` gives an integer within 1/2 of its argument, and the even one when the argument lies halfway between two integers |
| Mutation.MaskEntry | Model/genetic.py:105 | for a draw in [0, 1) and a rate in [0, 1] the mask entry is 1 when draw + rate > 1 and 0 otherwise; a sum of exactly 1 rounds to 0 |
| Mutation.MutatedAt | Model/genetic.py:105-108 | each entry moves by its mask times its delta: by the delta when draw + rate > 1, otherwise not at all |
| Mutation.RateZeroIsIdentity | Model/genetic.py:100-108 | at rate 0 mutation returns the population unchanged |
| Mutation.RateOneShifts | Model/genetic.py:105-108 | at rate 1 an entry with a positive draw moves by its delta, and one with draw 0.0 does not |
| Generation.Clonal | Model/genetic.py:135-146 | a clonal generation keeps every matrix, vector and snapshot in shape |
| Generation.Exact | Model/genetic.py:131-133 | an exact generation keeps every matrix, vector and snapshot in shape |
| Generation.CloneRows | Model/genetic.py:141-143 | the next generation has one row per chosen parent index |
| Generation.Step | Model/genetic.py:148-158 | a generation keeps all shapes; it appends the new population to the history exactly when recording is on and it did not raise; only the clonal mode raises, and then the population is untouched |
| Generation.Run | Model/genetic.py:160-163 | a run keeps all shapes, completes at most the requested generations, grows the history by the completed ones when recording, and never rewrites earlier snapshots |
| Generation.Initialised | Model/genetic.py:35-42 | an explicit array wins; otherwise 'random' gives the draws, a number gives an (n, t) matrix of that number, and an unknown `init` keeps the population |
| Generation.Record | Model/genetic.py:44-45 | recording appends exactly the current population and leaves every earlier snapshot as it was; not recording leaves the history unchanged |
| Generation.InitKeepsShape | Model/genetic.py:32-45 | every branch of initialisation leaves a population of the current shape |
| Generation.CloneLineage | Model/genetic.py:141-143 | before mutation, every child of a clonal generation is a copy of an individual of the previous generation |
| Generation.ClonalOutcomes | Model/genetic.py:135-146 | a clonal generation raises on an unevaluable strategy (state unchanged), or, when there is a draw to make or no trait, on totals that sampling rejects (new fitnesses kept, population unchanged); otherwise it mutates the clones and keeps the history |
| Generation.ClonalStepReplaces | Model/genetic.py:135-146 | a clonal generation completes exactly when the strategy is evaluable and either sampling accepts the totals or there is no individual but at least one trait; then the population becomes the mutated clones of the picked parents |
| Generation.UnknownModeStep | Model/genetic.py:148-158 | in an unrecognised mode a generation changes nothing but still records the population |
| Generation.UnknownModeRun | Model/genetic.py:160-163 | in an unrecognised mode every generation completes, the population never changes, and recording appends one copy of it per generation |
| Generation.RunWithoutSelectionCompletes | Model/genetic.py:160-163 | outside the clonal mode no generation raises, so the history grows by exactly the number of generations when recording |
| Generation.EqualTotalsViable | Model/genetic.py:75-77 | under equal fitness with at least one individual and one trait, sampling accepts the totals |
| Generation.GaussianTotalsViable | Model/genetic.py:57-65 | under the Gaussian strategy with a strictly positive density, at least one individual and one trait, sampling accepts the totals |
| Generation.GaussianClonalRunCompletes | Model/genetic.py:160-163 | a clonal run under the Gaussian strategy with a strictly positive density, at least one individual and one trait completes every generation, recording one snapshot each |
| Generation.EqualClonalRunCompletes | Model/genetic.py:160-163 | a clonal run under equal fitness with at least one individual and one trait completes every generation, growing the recorded history by exactly one snapshot each |
| Genetic.CopyParents | Model/genetic.py:140-143 | row i of the new generation is a copy of the row of slot i's first chosen parent |
| Genetic.Population.constructor | Model/genetic.py:11-22 | a zero population of shape (npop, ntraits), zero targets and buffers, Gaussian fitness, clonal mode, recording on, empty history |
| Genetic.Population.InitRandom | Model/genetic.py:24-26 | the population becomes the uniform draws |
| Genetic.Population.InitNum | Model/genetic.py:28-30 | every entry becomes the given number |
| Genetic.Population.InitPopulation | Model/genetic.py:32-45 | an explicit array wins, then 'random', then a number; an unknown `init` keeps the population and is reported; recording appends exactly one snapshot |
| Genetic.Population.SetTargets | Model/genetic.py:49-55 | the targets are replaced exactly when the new vector has the old one's length, and are kept otherwise |
| Genetic.Population.TargettedFitnessGaus | Model/genetic.py:57-65 | after the nested loop, each buffer cell holds the density of its trait value around the trait's target |
| Genetic.Population.TargettedFitnessLin | Model/genetic.py:67-72 | the buffer becomes a fresh array of the linear scores |
| Genetic.Population.EqualFitness | Model/genetic.py:75-77 | the buffer becomes a fresh array of ones |
| Genetic.Population.DirectFitness | Model/genetic.py:79-82 | the buffer becomes a fresh copy of the population |
| Genetic.Population.CalcTotalFitness | Model/genetic.py:85-88 | the buffer holds the configured strategy's scores and the totals are their row sums |
| Genetic.Population.MaxFitness | Model/genetic.py:90-92 | the result is one of the totals and no total exceeds it |
| Genetic.Population.MeanFitness | Model/genetic.py:94-96 | the mean fitness never exceeds the largest total |
| Genetic.Population.ChooseParentsIndices | Model/genetic.py:116-129 | one list of nparents indices per individual, in draw order, every index naming an individual |
| Genetic.Population.MutateTraits | Model/genetic.py:100-108 | the population becomes its masked mutation, with its shape kept |
| Genetic.Population.RenewPopulationExact | Model/genetic.py:131-133 | the new state is the exact step of the old state |
| Genetic.Population.BreedClones | Model/genetic.py:138-146 | the population becomes the mutated copies of the parents picked for each slot |
| Genetic.Population.RenewPopulationClonal | Model/genetic.py:135-146 | the new state and the outcome are those of the clonal step of the old state |
| Genetic.Population.NextGen | Model/genetic.py:148-158 | the new state and the outcome are those of `Generation.Step` on the old state |
| Genetic.Population.RunGenerations | Model/genetic.py:160-163 | the new state and the number of completed generations are those of `Generation.Run` on the old state; a negative count runs none |

## Left out

- Plotting (`plot_history` and the matplotlib code) and the example driver script: they only consume the history.
- The values of scipy's `norm.pdf`: the density is an uninterpreted parameter. The Gaussian peak value `1/(sigma * sqrt(2 pi))` is therefore not stated, and `Fitness.GaussianTotalsNonNegative` takes non-negativity of the density as a hypothesis.
- The distributions of `np.random.random`, `np.random.normal` (mean 0, spread 2) and `np.random.choice`. The model takes their results as inputs, including the parent indices, so it states which draws are accepted, not how often each index is drawn. Statistical claims (the expected mutation rate, fitness rising over a run) are outside what the model can state.
- Floating point: all arithmetic is on unbounded reals. numpy's tolerance on probabilities summing to 1 is not modelled, because the exact sum is 1 (`Selection.RouletteIsDistribution`).
- numpy dtypes: `np.full(shape, 1)` and `np.full(shape, num)` with an int give integer arrays, and the Gaussian loop would then truncate densities written into an integer buffer. The model keeps every array real.
- Aliasing: the history stores references in the source. An array passed to `init_population(arr=...)` shares storage with the caller, who could change a recorded snapshot later. The model stores values.
- Assigning a user-supplied callable to `fitness_function`: the model's strategy is one of the four methods, dispatched with their default parameters.
- The `mean_fitness` comment says "min": the model follows the code, which returns the mean.
- Genetic.Population.InitPopulation: requires an explicit array to have the population's shape, as the comment at lines 33-34 demands; a differently shaped array is not modelled.
- Genetic.Population.InitPopulation: an `init` of type `bool` counts as unknown in the source (`type(init) in [int, float]`); the model's `NumberInit` stands for an int or float.
- Genetic.Population.SetTargets: targets of a different rank (a nested list) are not modelled; the vector is one-dimensional.
- Genetic.Population.CalcTotalFitness: with zero traits Python's `sum` returns the integer 0 rather than a vector of zeros. The model gives a zero vector. Afterwards `max_fitness`, `roulette_wheel` and therefore `choose_parents_indices` raise in the source on that integer. The model's `MaxFitness` returns 0 instead. `Genetic.Population.ChooseParentsIndices` on such an object returns one empty slot list per individual (none when `npop` is 0) instead of raising. In a generation, the zero vector's zero sum gives the `NoViableParents` outcome, as the source raises.
- Genetic.Population.MaxFitness: requires at least one total; Python's `max` raises on an empty population.
- Genetic.Population.MeanFitness: requires at least one total (numpy returns NaN for an empty one). It states only the upper bound; the defining identity (mean times count is the sum) is stated on `Matrices.Mean`.
- Genetic.Population.TargettedFitnessLin: requires a non-empty population, since `np.max` raises on an empty one; inside a generation that case is the `FitnessUndefined` outcome.
- Genetic.Population.ChooseParentsIndices: requires the probabilities to be accepted whenever a draw is made, since `np.random.choice` raises otherwise; inside a generation that case is the `NoViableParents` outcome.
- Completion of a clonal run under the default Gaussian strategy (the driver script's 100 generations giving 101 snapshots): it depends on the totals never summing to 0, which an uninterpreted density cannot guarantee (a density that is 0 everywhere, like a `norm.pdf` that underflows, makes sampling raise). `Generation.GaussianClonalRunCompletes` proves completion under the hypothesis that the density is strictly positive.
- Generation.RollFits: parent picks are only required to name an individual. The model also allows a pick of an individual whose probability is zero, which `np.random.choice` never draws (`Selection.ZeroProbabilityIffZeroFitness` states which ones those are).
- Selection.RouletteWheel: requires a non-zero sum; numpy would return NaN or infinite probabilities, which sampling then rejects (the `NoViableParents` outcome).
