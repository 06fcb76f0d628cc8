# Genetic knapsack search and its experiment harness, in Dafny

This project models two parts of a Python desktop application that searches for
item quantities in a bounded multi-choice knapsack with a genetic algorithm.

* **The engine**, `problem/genetic.py`, class `GeneticAlgorithm`. An individual is a
  list with one gene per catalog item. Gene `i` is a quantity in `[0, Max_quantity_i]`.
  * `initialPopulation` draws every gene with `random.randint`.
  * `selection` is a tournament among three members of `self.population`, drawn with
    replacement.
  * `crossover` is one-point crossover behind a rate gate.
  * `mutate` resets genes in place, each behind its own rate gate.
  * `run` logs the best, mean and worst fitness of each generation, then breeds the
    next population from tournaments and cuts it to `populationSize`.
* **The harness**, `utils/AVG.py`, class `GAApp`, without its window.
  * `modify_value` steps a parameter up or down, or draws it at random, and clamps it.
  * `run_trials` has three modes: comparison, sweep and default.
    * Comparison mode runs three series with the three selection strategies, then one
      extra series with the chosen strategy.
    * Sweep mode recomputes the selected parameters on every run from a fresh copy of
      `base_params`, so they differ between runs only in `random` mode. It groups the
      results by label in `results_per_label`.
    * Default mode repeats the base configuration. It keeps the best run's fitness, its
      index and its per-generation columns.

The modules follow the program's structure:

* `Wrappers` holds `Option`, `Result` and `Clamp`, which gives how often `range(n)`
  iterates.
* `Statistics` holds `sum`, `max`, `min`, the mean and the first arg-max.
* `Randomness` replaces Python's global `random` module.
  * `Source` is an object that hands out the entries of a fixed stream of raw draws,
    in order.
  * Each of its methods maps a raw draw into the range of `random()`, `randint` or
    `choices`.
  * Every method that draws says, in its contract, which draws it consumed and what it
    made of them. The engine's methods that can raise, from `Run` down to `Mate`, say it
    through the specification functions (`StageAt`, `NextStage`, `Bred`, `Pass`, `Mated`)
    when they succeed; on an exception they state the error, not the draws.
* `Genetic` models the engine.
  * The operators are stated first as functions on values: `OnePoint`, `Recombine`,
    `Mutated` and `Summarize`.
  * The class `GeneticAlgorithm` then follows the Python object. Its individuals are
    `array<int>`, and its methods update them in place. `evaluateFitness` is
    `EvaluateFitness`, a call-through to the given fitness function.
  * The methods are proved against those functions. Because arrays are objects, the
    model keeps the Python aliasing. When the gate stays shut, `crossover` returns the
    parent objects of `self.population` themselves. `mutate` then changes them, so a
    member of `self.population` can change.
* `Experiments` models the harness.
  * The class `GAApp` holds the call counter and the four best-run fields.
  * Its loops are proved against recursive specification functions: `Trials`,
    `Lineup`, `SweepTrials`, `Swept`, `Grouped` and `FirstSeen`.
  * The properties of those functions are proved as lemmas.

The engine is seen from the harness as a given function `engine(config, k)`. It returns
the log of the `k`-th run that the harness starts, or the failure that run raised. The
engine's own random draws are folded into `k`. The knapsack fitness lives in
`problem/knapsack.py`, which is not part of this model. It enters as a total,
deterministic function `fitness: seq<int> -> real`.

## Model

| member | source | states |
|---|---|---|
| Statistics.Max | problem/genetic.py:48 | `max(fitnesses)` bounds every element and is one of them |
| Statistics.Min | problem/genetic.py:50 | `min(fitnesses)` is below every element and is one of them |
| Statistics.FirstArgMax | problem/genetic.py:24-25 | the index of the first highest value: every value is at most the one there, and each earlier value is strictly smaller |
| Statistics.ExtendByOne | utils/AVG.py:277-279 | appending `x` moves the first arg-max to the new position exactly when `x` is strictly above the maximum so far |
| Statistics.MaxAtFirstArgMax | utils/AVG.py:277-279 | the maximum sits at the first arg-max |
| Statistics.SumBetween | problem/genetic.py:49 | `Sum`, the left fold of `sum(fitnesses)`: a sum of `n` values that lie in `[lo, hi]` lies in `[n * lo, n * hi]` |
| Statistics.MeanBetween | problem/genetic.py:48-50 | `Mean`, `sum(fitnesses)/len(fitnesses)`, lies between `min` and `max` of a non-empty list |
| Randomness.UnitValue | problem/genetic.py:32 | a `random.random()` value lies in `[0, 1)` |
| Randomness.IntValue | problem/genetic.py:18 | a `random.randint(lo, hi)` value lies in `[lo, hi]` |
| Randomness.IndexValue | problem/genetic.py:23 | the index `random.choices` takes lies below the population size |
| Randomness.Source.Random | problem/genetic.py:32 | consumes exactly one draw and returns its unit value |
| Randomness.Source.RandInt | problem/genetic.py:18 | consumes exactly one draw and returns its value in `[lo, hi]` |
| Randomness.Source.Choice | problem/genetic.py:23 | consumes exactly one draw and returns an index below `n` |
| Genetic.ChoicesAt | problem/genetic.py:23 | `Choices`, the indices of `random.choices(population, k=k)`: entry `j` is the index made from raw draw `first + j` |
| Genetic.ChoicesAre | problem/genetic.py:23 | indices made one by one from consecutive draws are `Choices` of those draws |
| Genetic.Summarize | problem/genetic.py:47-51 | the log entry carries the generation number; `best` and `worst` bound every fitness and are ones of them; `average` is the `Mean`, `sum/len`, so that `len` times it gives back the sum; `worst <= average <= best` |
| Genetic.Drop | problem/genetic.py:34-35 | Python's `s[k:]`: the elements from `k` on, and `Take(s, k)`, Python's `s[:k]`, followed by them gives back `s` |
| Genetic.OnePointShape | problem/genetic.py:34-35 | `OnePoint`, the two slicing expressions (`Take` and `Drop`): each child keeps the parents' length, takes its own parent's genes before the cut and the other parent's genes from the cut on |
| Genetic.OnePointConserves | problem/genetic.py:34-35 | between them the two children hold exactly the genes of the two parents, as multisets |
| Genetic.RecombineSkipped | problem/genetic.py:32-37 | a gate draw `>= crossoverRate` returns the parents unchanged |
| Genetic.RecombineRateZero | problem/genetic.py:32-37 | at rate 0 every `random()` draw returns the parents unchanged |
| Genetic.RecombineRateOne | problem/genetic.py:32-36 | at rate 1 every draw gives the one-point exchange |
| Genetic.RecombineFails | problem/genetic.py:32-33 | crossover raises exactly when the gate opens on a catalog of fewer than two items (`randint(1, 0)`) |
| Genetic.RecombineConforms | problem/genetic.py:31-37 | `Recombine`, the whole of `crossover` on values: children of parents that fit the catalog fit it too, and at every position they hold the two parents' genes in one order or the other |
| Genetic.RecombineConserves | problem/genetic.py:31-37 | whether the gate opens or not, a successful crossover neither loses nor invents a gene |
| Genetic.RecombineTwoItems | problem/genetic.py:33-36 | for two items the only cut is 1: parents `[a, b]` and `[c, d]` give `[a, d]` and `[c, b]` |
| Genetic.MutatedConforms | problem/genetic.py:38-41 | mutation keeps the length and every gene in `[0, Max_quantity_i]` |
| Genetic.MutatedResets | problem/genetic.py:38-41 | `Mutated`, what the loop of `mutate` leaves: it keeps the length; a gene whose gate opened holds its reset draw, and a gene that changed had its gate open |
| Genetic.MutatedKeeps | problem/genetic.py:40 | a gene whose gate draw is `>= mutationRate` is unchanged |
| Genetic.MutatedRateZero | problem/genetic.py:40 | at rate 0 mutation is the identity |
| Genetic.GeneticAlgorithm.constructor | problem/genetic.py:5-12 | stores the settings, with defaults 0.8 and 0.05, and starts with an empty population and an empty log |
| Genetic.GeneticAlgorithm.Fits | problem/genetic.py:17-19 | an array fits exactly when its contents conform to the catalog |
| Genetic.GeneticAlgorithm.InitialGenome | problem/genetic.py:17-19 | the individual made from consecutive draws conforms to the catalog |
| Genetic.GeneticAlgorithm.RandomIndividual | problem/genetic.py:16-19 | a fresh array whose gene `i` is `randint(0, Max_quantity_i)` of draw `i`, using one draw per item |
| Genetic.GeneticAlgorithm.InitializedContents | problem/genetic.py:14-20 | the contents `initialPopulation` leaves: the members before it, then individual `k` built from the raw draws after the one-per-item draws of the `k` before it |
| Genetic.GeneticAlgorithm.InitialPopulation | problem/genetic.py:14-20 | appends exactly `populationSize` fresh individuals, one draw per gene; the contents of `self.population` become `Initialized` of the old contents and the draws; the earlier members are kept; only `self.population` and the source change; the population still fits |
| Genetic.GeneticAlgorithm.AppendIndividual | problem/genetic.py:15-20 | one pass of the outer loop: one fresh individual appended, its genes the next `len(items)` draws, the earlier members' contents untouched |
| Genetic.GeneticAlgorithm.TournamentBest | problem/genetic.py:22-25 | `Tournament`, the first of the stable descending sort by `EvaluateFitness` (the call-through to the problem's `fitness`): the winner is one of the candidates, of highest fitness, and every candidate drawn before it is strictly worse |
| Genetic.GeneticAlgorithm.WinnerIsTournament | problem/genetic.py:22-25 | the tournament among the drawn members (`Pick`) is won by `self.population[Winner(...)]`, of the indices alone |
| Genetic.GeneticAlgorithm.LeaderIsFirstArgMax | problem/genetic.py:24-25 | `Leader`, the running choice of the best candidate so far, is the first arg-max of the candidates' fitnesses |
| Genetic.GeneticAlgorithm.Selection | problem/genetic.py:22-25 | draws `numChoices` members of `self.population` with replacement, one draw each: the indices are `Choices` of the draws it consumed, the candidates `Pick` of them, and the winner is their `Tournament`, which is `self.population[Winner(...)]` of those indices; the winner of a fitting population fits |
| Genetic.GeneticAlgorithm.ParentFits | problem/genetic.py:23 | a winner drawn from a fitting `self.population` fits the catalog |
| Genetic.GeneticAlgorithm.Crossover | problem/genetic.py:31-37 | agrees with `Recombine` on the gate and cut draws it consumed: two draws when the gate opens on at least two items, one otherwise; uncrossed children are the parent objects themselves, crossed ones are fresh and distinct; fitting parents give fitting children |
| Genetic.GeneticAlgorithm.Mutate | problem/genetic.py:38-41 | gene `i`'s gate is the `random()` value of draw `positions[i]`, its reset the `randint(0, Max_quantity_i)` value of the draw right after it when the gate opens, and the next gate takes the following draw; the array afterwards is `Mutated` of its old contents under those draws; gates lie in `[0, 1)`, resets within the gene's bound; a fitting individual still fits |
| Genetic.GeneticAlgorithm.MutateGene | problem/genetic.py:39-41 | one pass over gene `i`: one gate draw, and a reset draw only when the gate opens; gene `i` becomes the reset or stays, and no other gene changes |
| Genetic.GeneticAlgorithm.GatePositions | problem/genetic.py:38-41 | the draws `mutate` records put gene `i`'s gate at `GatePosition(i)`: one draw after the previous gate, two when that gate opened |
| Genetic.GeneticAlgorithm.MutationFollows | problem/genetic.py:38-41 | `MutatedFrom`, mutation of a list as a function of the raw draws, is `Mutated` of the gates and resets `mutate` draws, and ends at the draw `mutate` ends at |
| Genetic.GeneticAlgorithm.MatedCases | problem/genetic.py:55-57 | `Mated`, the start of a pass: two tournaments of three draws each, the gate at the seventh draw and the cut at the eighth; the two winners themselves when the gate stays shut, fresh one-point children when it opens, and the cut-range error when it opens on fewer than two items |
| Genetic.GeneticAlgorithm.PassFrom | problem/genetic.py:55-59 | `Pass`: a pass whose mating succeeds mutates the first child and then the second, the second from where the first left the draws and `self.population` |
| Genetic.GeneticAlgorithm.PassesCover | problem/genetic.py:54 | `Passes`, the number of times the while loop runs: the pairs cover `populationSize` children with at most one to spare |
| Genetic.GeneticAlgorithm.BredStep | problem/genetic.py:54-60 | `Bred`, the first passes of the while loop: one more pass extends it by the `Pass` from where the passes so far left the draws and the contents, or stops it with that pass's error |
| Genetic.GeneticAlgorithm.BredStops | problem/genetic.py:54-60 | once a prefix of the passes fails, every longer prefix fails with the same error |
| Genetic.GeneticAlgorithm.BredFails | problem/genetic.py:53-60 | breeding fails only with the cut-range error, with fewer than two items and after at least one pass; with two or more items it always succeeds |
| Genetic.GeneticAlgorithm.StageAtOutcome | problem/genetic.py:46-61 | `StageAt`, where `run` stands at generation `g` (each generation is `NextStage`, the while loop cut to `populationSize`): it is `max([])` exactly when generation 0 is empty or a later one has `populationSize <= 0`, the cut-range error only with fewer than two items, and no error with two or more items and a positive size |
| Genetic.GeneticAlgorithm.StagesStop | problem/genetic.py:46-61 | once a generation fails, `run` stands at that failure for every later generation |
| Genetic.GeneticAlgorithm.TracedAt | problem/genetic.py:46-51 | in a `Traced` list of snapshots, snapshot `g` is the contents of the population where `StageAt` says `run` stands at generation `g` |
| Genetic.GeneticAlgorithm.RepresentsContents | problem/genetic.py:45-61 | lists that hold the children `children` (members of `self.population` themselves, or lists of their own) have the contents `Contents` gives those children |
| Genetic.GeneticAlgorithm.Run | problem/genetic.py:43-63 | appends `populationSize` individuals and one log entry per generation (see `Chronicle`); generation 0 is logged on exactly the contents `initialPopulation` made (`Initialized`); snapshot `g` is the contents of the population where `StageAt` says `run` stands at generation `g` (`Traced`), so every later generation is the mutated crossover of tournaments among `self.population`; fails exactly when `StageAt` of the last generation fails, with its error, and on success leaves `self.population` and the draws where it says; `max([])` exactly in the cases stated; with at least two items and a positive population size it always succeeds |
| Genetic.GeneticAlgorithm.Evolve | problem/genetic.py:44-62 | the generation loop keeps the population fitting; the first snapshot holds the contents of `self.population` at the start, every later one has `populationSize` members, and snapshot `g` is the contents where `StageAt` puts generation `g` (`Traced`); the result, the contents of `self.population` and the draws are those of `StageAt` after `generations` generations, with the same error; `max([])` or the cut-range error exactly in the cases stated |
| Genetic.GeneticAlgorithm.Advance | problem/genetic.py:46-61 | one generation: its entry extends the chronicle with the current contents, and from `stages[g]` the loop moves to `stages[g + 1]`: the next population, `self.population` and the draws stand there, or generation `g + 1` fails with its error |
| Genetic.GeneticAlgorithm.Generations | problem/genetic.py:46-62 | the `for` loop over the generations ends as `Ended` says: the population fits, the log has one entry per snapshot, the first snapshot is the initial contents, and the result, the contents and the draws are those of the last stage, or its error |
| Genetic.GeneticAlgorithm.ChronicleStep | problem/genetic.py:51 | logging one more generation extends the chronicle by its entry |
| Genetic.GeneticAlgorithm.ChronicleEntry | problem/genetic.py:46-51 | entry `g` has generation `g` (0-based) and is the max, mean and min of generation `g`'s fitnesses, with `worst <= average <= best` |
| Genetic.GeneticAlgorithm.SteadyStep | problem/genetic.py:61 | a replacement population of `populationSize` keeps every snapshot after the first at that size |
| Genetic.GeneticAlgorithm.Generation | problem/genetic.py:47-61 | logs the summary of the current population, then returns what `NextStage` breeds from there: the new contents of `self.population`, the draws and the `populationSize` returned lists are the while loop's children cut to `populationSize`, all fitting, or the same cut-range error |
| Genetic.GeneticAlgorithm.Breed | problem/genetic.py:53-60 | the while loop is `Bred` of `Passes()` passes from the current draw and contents: the same error, or on success the contents of `self.population`, the draws and the children are Bred's; `populationSize` or `populationSize + 1` fitting lists that hold those children |
| Genetic.GeneticAlgorithm.BreedLoop | problem/genetic.py:54-60 | the while loop ends where the trace of `Bred` says after `Passes()` passes: fitting lists that hold the children, with the contents and the draws of that stage, or the failing pass's cut-range error |
| Genetic.GeneticAlgorithm.BreedPass | problem/genetic.py:55-60 | one pass of the while loop moves from one entry of the trace of `Bred` to the next, appending two lists, or fails with the next entry's error |
| Genetic.GeneticAlgorithm.Offspring | problem/genetic.py:55-60 | one pass is `Pass`: the same error, or on success the new contents of `self.population`, the draws and the two children's lists are Pass's, although mutation works in place; the children of the passes before still hold their contents, and everything keeps fitting |
| Genetic.GeneticAlgorithm.FitParent | problem/genetic.py:55-56 | consumes three draws; the parent is `self.population[Winner(pool, Choices(...))]` of those draws, and fits |
| Genetic.GeneticAlgorithm.Mate | problem/genetic.py:55-57 | agrees with `Mated`: the same error, or on success the draws it consumed and the two lists holding its children, which are fresh and distinct when crossed; the children fit |
| Genetic.GeneticAlgorithm.MutatePair | problem/genetic.py:58-59 | mutates the first child and then the second as `MutatedChild` says: the contents of `self.population`, the draws and the two children; everything keeps fitting |
| Genetic.GeneticAlgorithm.MutateFitting | problem/genetic.py:58-59 | mutating one child in place is `MutatedChild`: the new contents of `self.population` (mutating a member child changes `self.population`), the child's genes and the next draw; the child, `self.population` and every other list keep fitting |
| Experiments.ModifyInt | utils/AVG.py:295-310 | `increase` gives `min(value + step, max_val)`; `decrease` gives `max(value - step, min_val)`; `random` gives the `randint` draw in `[min_val, max_val]`, or the value itself when `min_val > max_val`; other modes return the value |
| Experiments.ModifyRate | utils/AVG.py:295-310 | the same for a float parameter, whose random branch uses the `random.uniform` draw |
| Experiments.UniformValue | utils/AVG.py:306 | a `random.uniform(lo, hi)` value lies in `[lo, hi]` |
| Experiments.SweptNext | utils/AVG.py:214-226 | one more parameter of the `for p` loop takes the next raw draw and appends its label part |
| Experiments.Swept | utils/AVG.py:309-310 | under a mode that `modify_value` does not know, the configuration stays `base_params` |
| Experiments.SweptSameEveryRun | utils/AVG.py:210-226 | parameters start from a fresh copy of `base_params`, so outside random mode every run gets the same configuration and label |
| Experiments.StepShape | utils/AVG.py:214-226 | `Step`, one branch of the `for p` loop: it changes only its own parameter, keeps it within the clamp of the mode, and labels it with its new value |
| Experiments.SweptKeeps | utils/AVG.py:211-226 | the operator types and every parameter that is not selected keep their base values |
| Experiments.SweptBounded | utils/AVG.py:214-226 | every selected parameter ends within the clamp of its mode: `increase` bounds it from above only (by 200, 300, 1.0, 0.3), `decrease` from below only (by 10, 10, 0.3, 0.01), `random` on both sides |
| Experiments.SweptLabels | utils/AVG.py:212-228 | the label has one part per selected parameter, in order, and the last part for a parameter shows its final value |
| Experiments.Bests | utils/AVG.py:280 | `[float(log["best"]) for log in logs]`, entry by entry |
| Experiments.Averages | utils/AVG.py:281 | the `average` column, entry by entry |
| Experiments.BestOfRun | utils/AVG.py:171 | a run has a reported fitness exactly when its log is non-empty |
| Experiments.BestOfRunIsMax | utils/AVG.py:171 | the reported fitness is `max` of the `best` column: it bounds every entry and is one of them |
| Experiments.TrialOutcome | utils/AVG.py:273-274 | `Trial`, one run's `best_fitness`: it reports the engine's exception, fails on an empty log (`max()` of nothing), and otherwise reports the highest `best` of its log |
| Experiments.Trials | utils/AVG.py:262-275 | a series of runs that succeeds has one result per run |
| Experiments.TrialsInOrder | utils/AVG.py:262-275 | a series succeeds exactly when every run does, and result `k` is run `k`'s fitness |
| Experiments.TrialsNext | utils/AVG.py:273-275 | one more run appends its fitness or stops the series with its error |
| Experiments.TrialsStop | utils/AVG.py:273-274 | the first error stops every longer series with that error |
| Experiments.Lineup | utils/AVG.py:157-195 | a successful comparison has one series per selection type, each of `runs` results |
| Experiments.LineupSeries | utils/AVG.py:157-195 | series `i` is `runs` runs with selection type `i`, after the runs of the series before it |
| Experiments.OffsetProduct | utils/AVG.py:157-195 | `Offset`, the engine run a series starts from: `i` series of `n` runs make `i * n` runs |
| Experiments.LineupNext | utils/AVG.py:157-195 | one more series appends its results or stops the comparison with its error |
| Experiments.LineupStop | utils/AVG.py:157-195 | a failed series stops the whole comparison with that error |
| Experiments.SweepTrials | utils/AVG.py:210-245 | a successful sweep has one label and one result per run |
| Experiments.SweepTrialsNext | utils/AVG.py:210-245 | one more sweep run appends its label and fitness, or stops the sweep with its error |
| Experiments.SweepTrialsStop | utils/AVG.py:242-243 | the first error stops every longer sweep with that error |
| Experiments.SweepTrialsSucceed | utils/AVG.py:210-245 | a sweep succeeds exactly when every run does |
| Experiments.SweepTrialsInOrder | utils/AVG.py:210-245 | run `k` contributes its own plan's label and its own engine run's fitness |
| Experiments.SweepOneLabel | utils/AVG.py:210-230 | outside random mode all the results of a sweep fall under a single label |
| Experiments.FirstSeen | utils/AVG.py:229-230 | the keys in insertion order are exactly the labels that occurred, each once |
| Experiments.FirstSeenConstant | utils/AVG.py:229-230 | labels that are all equal make a single key |
| Experiments.GroupedStep | utils/AVG.py:229-245 | one run creates an empty list for a new label, which becomes the last key, and appends its fitness to its label's list |
| Experiments.GroupedByLabel | utils/AVG.py:229-245 | `Grouped` is `results_per_label`: it has a key for each label that occurred and no other, and each list holds that label's results in run order |
| Experiments.OnlyAbsent | utils/AVG.py:229-245 | a label that never occurred has no results |
| Experiments.GroupedTotal | utils/AVG.py:229-245 | the lists of all the keys together hold exactly one result per run |
| Experiments.TotalBump | utils/AVG.py:245 | appending to one key's list adds one to the total |
| Experiments.TotalAgree | utils/AVG.py:245 | dictionaries that agree on the keys have the same total |
| Experiments.AvgColumnMissing | utils/AVG.py:281 | as written, `log["avg"]` raises for every non-empty log, because `Record`, the dictionary `run` appends (problem/genetic.py:51), has only the keys `generation`, `best`, `average` and `worst` |
| Experiments.Column | utils/AVG.py:280-281 | `[float(log[key]) for log in logs]` over the `Record` dictionaries, when it yields, has one value per log, read from that log's dictionary |
| Experiments.NamedColumns | utils/AVG.py:280 | the `best` and `average` keys of the `Record` dictionaries read back the fields of the entries, in generation order |
| Experiments.TrackedImprove | utils/AVG.py:277-281 | a strictly better run takes over the best-run fields, which again describe the first run of highest fitness |
| Experiments.TrackedKeep | utils/AVG.py:277 | a run that ties or falls short leaves the best-run fields describing the first run of highest fitness |
| Experiments.GAApp.constructor | utils/AVG.py:259-260 | no engine run started yet; best fitness `-inf`, index `-1` and empty columns, which stand for the best-run fields that `__init__` does not set and default mode creates |
| Experiments.GAApp.RunOnce | utils/AVG.py:170-172 | one engine run; its fitness is `BestOfRun` of its log, or the error |
| Experiments.GAApp.Series | utils/AVG.py:158-172 | the loop computes `Trials` for the runs it starts |
| Experiments.GAApp.CompareSelection | utils/AVG.py:153-198 | the three strategies and then the chosen one, each `runs` times: the three series and the extra one of `Lineup`, or its error |
| Experiments.GAApp.Adjust | utils/AVG.py:211-226 | the configuration and label of `Swept`, consuming one draw per parameter in random mode and none otherwise |
| Experiments.GAApp.Change | utils/AVG.py:214-226 | one branch of the `for p` loop is `Step` of the draw it consumes |
| Experiments.GAApp.SweepRun | utils/AVG.py:210-243 | one sweep run: the run's planned configuration and label, then one engine run on it |
| Experiments.GAApp.SweepStep | utils/AVG.py:228-245 | one sweep run with its bookkeeping: the dictionary and key order become `Grouped` and `FirstSeen` of one more run, or the run's error |
| Experiments.GAApp.SweepParameters | utils/AVG.py:207-245 | the sweep loop yields `Grouped` and `FirstSeen` of `SweepTrials`, or its error |
| Experiments.GAApp.Repeat | utils/AVG.py:257-281 | the results are `Trials`; afterwards `best_run_fitness` is the maximum of the results, `best_run_index` the first index reaching it (strict `>`), and the per-generation columns are that run's `best` and `average` columns; with no run the columns are unchanged |
| Experiments.GAApp.TrackRun | utils/AVG.py:262-281 | one default-mode run appends its fitness and keeps the best-run fields tracked |
| Experiments.GAApp.RunTrials | utils/AVG.py:150-281 | comparison mode exactly when `compare` is set and no parameter is selected, the sweep exactly when parameters are selected and `compare` is not, default mode otherwise; in each mode it fails exactly when that mode's specification fails, with the same error, and on success yields that specification's result: the three series and the extra one of `Lineup`; `Grouped` and `FirstSeen` of `SweepTrials`, with the sweep's draws; the `Trials` results with the best-run fields `Tracked`, `best_run_fitness` their maximum; comparison mode and the sweep leave the four best-run fields as they were; on success it starts four series of `runs` engine runs in comparison mode and `runs` otherwise; only the sweep draws from the source |

## Left out

- The Tk window: widgets, layout, message boxes, file dialogs, `log_text` and the plots (`utils/AVG.py:21-90`, `177-205`, `250-255`, `286-294`, `311-357`). `utils/GUI.py` is not part of this model.
- Excel import through pandas (`utils/AVG.py:92-115`). It is I/O through a library that is not visible.
- The background thread of `run_experiments`. `RunTrials` is the sequential procedure that thread runs.
- Python's Mersenne Twister. `Source` hands out a given stream of raw draws. Only the ranges and the order of the draws are modelled, not which numbers Python would produce.
- The order of draws between the harness and the engine. Python has one global `random` stream, so `modify_value`'s draws (`utils/AVG.py:4`, `306-308`) and the engine's draws (`problem/genetic.py:2`) interleave run by run. The model gives the sweep its own `Source` and folds the engine's draws into the run number `k` of `engine(config, k)`, so it does not state which raw draws a run's engine consumes after the sweep's.
- Floating point. Fitness values, rates and means are exact reals. `round(random.uniform(...), 2)` at `utils/AVG.py:306` is modelled without the rounding, and the `:.2f` formatting of rate labels (`utils/AVG.py:223`, `226`) without truncation: a label part carries the exact value.
- Labels are kept as sequences of parts, not as the joined string (`utils/AVG.py:228`). Two runs therefore share a key exactly when their parts agree.
- `problem/knapsack.py` is not part of this model. Its `fitness` is a parameter of the engine, and `Max_quantity` of each item is a `nat`, so negative bounds are not modelled.
- The engine as the harness sees it. `GAApp.engine` is a given function from the configuration and the run number to a log or a failure. The harness calls `GeneticAlgorithm` with eight arguments naming crossover, selection and mutation types. The constructor at `problem/genetic.py:5` takes five and knows no such operators. The model passes the types along in `Config` and does not tie the engine to `Genetic.GeneticAlgorithm.Run`.
- The parameter listbox yields only the four known entries (`Param`). The source silently skips an unknown entry there.
- Experiments.GAApp.SweepParameters: on an error it states only the error, not how many draws and engine runs were made before the failing run.
- Experiments.GAApp.RunTrials: on an error it states only the error, not how many engine runs were started, not the sweep's draw count, and in default mode not the best-run fields.
- Genetic.GeneticAlgorithm.Run: on an exception it states the error, not the draws consumed or the contents `self.population` was left with. Every tournament draws from `self.population`, as `Selection` states, never from the local `population` that `run` rebinds, and the model keeps that.
- Genetic.GeneticAlgorithm.Evolve, `Advance`, `Generation`, `Breed`, `Offspring` and `Mate`: likewise, on an exception each states the error and not the draws it consumed.

## Findings

| source | as written | input that shows it | evidently intended | confidence | as-written member | corrected member |
|---|---|---|---|---|---|---|
| utils/AVG.py:281 | `self.avg_fitness_per_gen = [float(log["avg"]) for log in logs]`, but `run` writes the key `"average"` (`problem/genetic.py:51`) | default mode with `runs >= 1` and an engine run whose log is non-empty: the first run beats `-inf`, and `log["avg"]` raises `KeyError`. As written, the eight-argument call at `utils/AVG.py:263-272` meets the five-parameter constructor at `problem/genetic.py:5` and raises `TypeError` first, so line 281 is reached only once that call is repaired | read `log["average"]`, the mean fitness per generation. `utils/GUI.py:89` also reads `log["avg"]`, so the repair may instead belong on the engine side, renaming the key at `problem/genetic.py:51` | not executed | Experiments.AvgColumnMissing | Experiments.NamedColumns |

The rest of the model uses the corrected column. `Experiments.GAApp.Repeat` stores `Averages` of the best run's log, and `Experiments.NamedColumns` proves that this is what `log["average"]` reads.
