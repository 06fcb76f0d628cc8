/**
 * The genetic-algorithm engine of problem/genetic.py: a search for integer item
 * quantities in a bounded multi-choice knapsack. An individual holds one gene per
 * item type of the catalog, gene `i` being a quantity in `[0, Max_quantity_i]`.
 *
 * The first part states each operator on values; the class `GeneticAlgorithm`
 * then follows the Python object, with individuals as arrays that its methods
 * update in place, so that an individual returned uncrossed by `crossover` is the
 * very parent object of `self.population` that `mutate` then changes.
 */
module Genetic {
  import opened Wrappers
  import opened Statistics
  import opened Randomness

  /** One entry of `self.logs`: the 0-based generation and its fitness statistics. */
  datatype LogEntry = LogEntry(generation: int, best: real, average: real, worst: real)

  /** The exceptions the engine raises. */
  datatype Failure =
    | EmptyPopulation  // `max(fitnesses)` over a generation with no individual
    | EmptyCutRange    // `random.randint(1, n - 1)` for a catalog of fewer than two items

  /** One gene per catalog item, gene `i` in `[0, maxQuantities[i]]`. */
  predicate Conforms(genes: seq<int>, maxQuantities: seq<nat>)
  {
    |genes| == |maxQuantities| &&
    forall i {:trigger genes[i]} :: 0 <= i < |genes| ==> 0 <= genes[i] <= maxQuantities[i]
  }

  /** Every individual of a population fits the catalog. */
  predicate AllConform(genomes: seq<seq<int>>, maxQuantities: seq<nat>)
  {
    forall k :: 0 <= k < |genomes| ==> Conforms(genomes[k], maxQuantities)
  }

  /** The current contents of a list of individuals. */
  function Genomes(individuals: seq<array<int>>): (genomes: seq<seq<int>>)
    reads individuals
    ensures |genomes| == |individuals|
    ensures forall k :: 0 <= k < |individuals| ==> genomes[k] == individuals[k][..]
  {
    seq(|individuals|, k requires 0 <= k < |individuals| reads individuals => individuals[k][..])
  }

  /** Arrays that no step has written still hold their old contents. */
  twostate lemma GenomesUnchanged(individuals: seq<array<int>>)
    requires forall k :: 0 <= k < |individuals| ==> old(allocated(individuals[k])) && unchanged(individuals[k])
    ensures Genomes(individuals) == old(Genomes(individuals))
  {
  }

  /** No list object occurs twice in `individuals`. */
  ghost predicate Distinct(individuals: seq<array<int>>)
  {
    forall i, j :: 0 <= i < j < |individuals| ==> individuals[i] != individuals[j]
  }

  /** Appending an individual appends its contents. */
  lemma GenomesSnoc(individuals: seq<array<int>>, individual: array<int>)
    ensures Genomes(individuals + [individual]) == Genomes(individuals) + [individual[..]]
  {
    var extended := individuals + [individual];
    assert forall k :: 0 <= k < |individuals| ==> extended[k] == individuals[k];
  }

  /** Python's `s[:k]` for `k >= 0`: the first `k` elements, or all of them when there are fewer. */
  function Take(s: seq<int>, k: nat): (t: seq<int>)
    ensures |t| == (if k <= |s| then k else |s|)
    ensures forall i :: 0 <= i < |t| ==> t[i] == s[i]
  {
    if k <= |s| then s[..k] else s
  }

  /** Python's `s[k:]` for `k >= 0`: what `s[:k]` leaves, so that `s[:k] + s[k:] == s`. */
  function Drop(s: seq<int>, k: nat): (d: seq<int>)
    ensures |d| == (if k <= |s| then |s| - k else 0)
    ensures forall i :: 0 <= i < |d| ==> d[i] == s[k + i]
    ensures Take(s, k) + d == s
  {
    if k <= |s| then s[k..] else []
  }

  /** The two children of one-point crossover at `point`. */
  function OnePoint(parent1: seq<int>, parent2: seq<int>, point: nat): (seq<int>, seq<int>)
  {
    (Take(parent1, point) + Drop(parent2, point), Take(parent2, point) + Drop(parent1, point))
  }

  /**
   * What `crossover` returns for the gate draw `gate` (of `random.random()`) and the cut
   * draw `point` (of `random.randint(1, items - 1)`, only drawn when the gate opens),
   * where `items` is the size of the catalog.
   */
  function Recombine(parent1: seq<int>, parent2: seq<int>, rate: real, items: nat, gate: real, point: int)
    : Result<(seq<int>, seq<int>), Failure>
    requires gate < rate && items >= 2 ==> 1 <= point <= items - 1
  {
    if gate < rate then
      if items < 2 then Err(EmptyCutRange) else Ok(OnePoint(parent1, parent2, point))
    else
      Ok((parent1, parent2))
  }

  /** What `mutate` leaves in an individual for per-gene gate draws and reset draws. */
  function Mutated(genes: seq<int>, gates: seq<real>, resets: seq<int>, rate: real): seq<int>
    requires |gates| == |genes| && |resets| == |genes|
  {
    seq(|genes|, i requires 0 <= i < |genes| => if gates[i] < rate then resets[i] else genes[i])
  }

  /** The log entry of one generation: `max`, `sum / len` and `min` of its fitnesses. */
  function Summarize(generation: int, fitnesses: seq<real>): (e: LogEntry)
    requires fitnesses != []
    ensures e.generation == generation
    ensures forall k :: 0 <= k < |fitnesses| ==> e.worst <= fitnesses[k] <= e.best
    ensures (exists k :: 0 <= k < |fitnesses| && fitnesses[k] == e.best) &&
            (exists k :: 0 <= k < |fitnesses| && fitnesses[k] == e.worst)
    ensures e.average == Sum(fitnesses) / (|fitnesses| as real)
    ensures e.worst <= e.average <= e.best
  {
    var best, average, worst := Max(fitnesses), Mean(fitnesses), Min(fitnesses);
    MeanBetween(fitnesses);
    LogEntry(generation, best, average, worst)
  }

  // ---- properties of the operators ----

  /**
   * One-point crossover of equal-length parents keeps their length; before the cut
   * each child keeps its own parent's genes and from the cut on the other's.
   */
  lemma OnePointShape(parent1: seq<int>, parent2: seq<int>, point: nat)
    requires |parent1| == |parent2| && point <= |parent1|
    ensures var (child1, child2) := OnePoint(parent1, parent2, point);
      |child1| == |parent1| && |child2| == |parent1| &&
      (forall i :: 0 <= i < point ==> child1[i] == parent1[i] && child2[i] == parent2[i]) &&
      (forall i :: point <= i < |parent1| ==> child1[i] == parent2[i] && child2[i] == parent1[i])
  {
  }

  /** Between them the two children of one-point crossover hold exactly the parents' genes. */
  lemma OnePointConserves(parent1: seq<int>, parent2: seq<int>, point: nat)
    ensures var (child1, child2) := OnePoint(parent1, parent2, point);
      multiset(child1) + multiset(child2) == multiset(parent1) + multiset(parent2)
  {
    var head1, tail1, head2, tail2 := Take(parent1, point), Drop(parent1, point), Take(parent2, point), Drop(parent2, point);
    assert multiset(parent1) == multiset(head1) + multiset(tail1) by { assert head1 + tail1 == parent1; }
    assert multiset(parent2) == multiset(head2) + multiset(tail2) by { assert head2 + tail2 == parent2; }
  }

  /** When the gate stays shut (`gate >= rate`) the parents come back unchanged. */
  lemma RecombineSkipped(parent1: seq<int>, parent2: seq<int>, rate: real, items: nat, gate: real, point: int)
    requires gate >= rate
    ensures Recombine(parent1, parent2, rate, items, gate, point) == Ok((parent1, parent2))
  {
  }

  /** At rate 0 no draw of `random.random()` opens the gate. */
  lemma RecombineRateZero(parent1: seq<int>, parent2: seq<int>, items: nat, gate: real, point: int)
    requires 0.0 <= gate < 1.0
    ensures Recombine(parent1, parent2, 0.0, items, gate, point) == Ok((parent1, parent2))
  {
  }

  /** At rate 1 every draw opens the gate: the children are always the one-point exchange. */
  lemma RecombineRateOne(parent1: seq<int>, parent2: seq<int>, items: nat, gate: real, point: int)
    requires 0.0 <= gate < 1.0 && items >= 2 && 1 <= point <= items - 1
    ensures Recombine(parent1, parent2, 1.0, items, gate, point) == Ok(OnePoint(parent1, parent2, point))
  {
  }

  /** Crossover fails exactly when the gate opens on a catalog of fewer than two items. */
  lemma RecombineFails(parent1: seq<int>, parent2: seq<int>, rate: real, items: nat, gate: real, point: int)
    requires gate < rate && items >= 2 ==> 1 <= point <= items - 1
    ensures Recombine(parent1, parent2, rate, items, gate, point).Err? <==> gate < rate && items < 2
  {
  }

  /**
   * For parents that fit the catalog, both children of crossover fit it, and at every
   * position the two children hold the two parents' genes, in one order or the other.
   */
  lemma RecombineConforms(parent1: seq<int>, parent2: seq<int>, maxQuantities: seq<nat>, rate: real, gate: real, point: int)
    requires Conforms(parent1, maxQuantities) && Conforms(parent2, maxQuantities)
    requires gate < rate && |maxQuantities| >= 2 ==> 1 <= point <= |maxQuantities| - 1
    requires Recombine(parent1, parent2, rate, |maxQuantities|, gate, point).Ok?
    ensures var (child1, child2) := Recombine(parent1, parent2, rate, |maxQuantities|, gate, point).value;
      Conforms(child1, maxQuantities) && Conforms(child2, maxQuantities) &&
      forall i :: 0 <= i < |maxQuantities| ==>
        (child1[i] == parent1[i] && child2[i] == parent2[i]) ||
        (child1[i] == parent2[i] && child2[i] == parent1[i])
  {
    if gate < rate {
      OnePointShape(parent1, parent2, point);
    }
  }

  /** Crossover never loses or invents a gene: between them the children hold exactly the parents' genes. */
  lemma RecombineConserves(parent1: seq<int>, parent2: seq<int>, rate: real, items: nat, gate: real, point: int)
    requires gate < rate && items >= 2 ==> 1 <= point <= items - 1
    requires Recombine(parent1, parent2, rate, items, gate, point).Ok?
    ensures var (child1, child2) := Recombine(parent1, parent2, rate, items, gate, point).value;
      multiset(child1) + multiset(child2) == multiset(parent1) + multiset(parent2)
  {
    if gate < rate {
      OnePointConserves(parent1, parent2, point);
    }
  }

  /**
   * The two-item case of one-point crossover, where `random.randint(1, 1)` can only cut
   * at 1: each child keeps its own parent's first gene and takes the other's second.
   */
  lemma RecombineTwoItems(parent1: seq<int>, parent2: seq<int>, rate: real, gate: real)
    requires |parent1| == 2 && |parent2| == 2 && gate < rate
    ensures Recombine(parent1, parent2, rate, 2, gate, 1) == Ok(([parent1[0], parent2[1]], [parent2[0], parent1[1]]))
  {
    assert Take(parent1, 1) + Drop(parent2, 1) == [parent1[0], parent2[1]];
    assert Take(parent2, 1) + Drop(parent1, 1) == [parent2[0], parent1[1]];
  }

  /** Mutation keeps the length, and keeps every gene within its bound when every reset draw is. */
  lemma MutatedConforms(genes: seq<int>, gates: seq<real>, resets: seq<int>, rate: real, maxQuantities: seq<nat>)
    requires |gates| == |genes| && |resets| == |genes|
    requires Conforms(genes, maxQuantities)
    requires forall i :: 0 <= i < |genes| && gates[i] < rate ==> 0 <= resets[i] <= maxQuantities[i]
    ensures Conforms(Mutated(genes, gates, resets, rate), maxQuantities)
  {
  }

  /** A gene whose gate draw is at least the rate is left as it was. */
  lemma MutatedKeeps(genes: seq<int>, gates: seq<real>, resets: seq<int>, rate: real, i: nat)
    requires |gates| == |genes| && |resets| == |genes|
    requires i < |genes| && gates[i] >= rate
    ensures Mutated(genes, gates, resets, rate)[i] == genes[i]
  {
  }

  /** A gene whose gate draw is below the rate becomes its reset draw; no other gene changes. */
  lemma MutatedResets(genes: seq<int>, gates: seq<real>, resets: seq<int>, rate: real)
    requires |gates| == |genes| && |resets| == |genes|
    ensures var m := Mutated(genes, gates, resets, rate);
      |m| == |genes| &&
      (forall i :: 0 <= i < |genes| && gates[i] < rate ==> m[i] == resets[i]) &&
      (forall i :: 0 <= i < |genes| && m[i] != genes[i] ==> gates[i] < rate)
  {
  }

  /** At rate 0 no draw of `random.random()` opens a gate: mutation is the identity. */
  lemma MutatedRateZero(genes: seq<int>, gates: seq<real>, resets: seq<int>)
    requires |gates| == |genes| && |resets| == |genes|
    requires forall i :: 0 <= i < |gates| ==> 0.0 <= gates[i] < 1.0
    ensures Mutated(genes, gates, resets, 0.0) == genes
  {
  }

  /**
   * The draws of `mutate` for its first `|gates|` genes, starting at `positions[0]`: gene
   * `i`'s gate takes draw `positions[i]` and, when it opens, its reset the one after.
   */
  ghost predicate MutationDraws(raw: nat -> nat, maxQuantities: seq<nat>, rate: real,
                                gates: seq<real>, resets: seq<int>, positions: seq<nat>)
  {
    |resets| == |gates| && |positions| == |gates| + 1 && |gates| <= |maxQuantities| &&
    (forall i :: 0 <= i < |gates| ==> positions[i + 1] == positions[i] + (if gates[i] < rate then 2 else 1)) &&
    (forall i :: 0 <= i < |gates| ==> gates[i] == UnitValue(raw(positions[i]))) &&
    (forall i :: 0 <= i < |gates| && gates[i] < rate ==>
      resets[i] == IntValue(raw(positions[i] + 1), 0, maxQuantities[i]))
  }

  /** One more gene's draws extend `MutationDraws`. */
  lemma MutationDrawsStep(raw: nat -> nat, maxQuantities: seq<nat>, rate: real, gates: seq<real>, resets: seq<int>,
                          positions: seq<nat>, gate: real, reset: int, next: nat)
    requires MutationDraws(raw, maxQuantities, rate, gates, resets, positions) && |gates| < |maxQuantities|
    requires gate == UnitValue(raw(positions[|gates|]))
    requires gate < rate ==> reset == IntValue(raw(positions[|gates|] + 1), 0, maxQuantities[|gates|])
    requires next == positions[|gates|] + (if gate < rate then 2 else 1)
    ensures MutationDraws(raw, maxQuantities, rate, gates + [gate], resets + [reset], positions + [next])
  {
  }

  /** Every gate draw `MutationDraws` records is in [0, 1), and every reset it records is within the item's bound. */
  lemma MutationDrawsBounded(raw: nat -> nat, maxQuantities: seq<nat>, rate: real,
                             gates: seq<real>, resets: seq<int>, positions: seq<nat>)
    requires MutationDraws(raw, maxQuantities, rate, gates, resets, positions)
    ensures forall i :: 0 <= i < |gates| ==> 0.0 <= gates[i] < 1.0
    ensures forall i :: 0 <= i < |gates| && gates[i] < rate ==> 0 <= resets[i] <= maxQuantities[i]
  {
  }

  // ---- the children of a generation, as values ----

  /**
   * A member of a population that `run` breeds. `Member(i)` is the list object
   * `self.population[i]` itself: an uncrossed child is its parent, and a later `mutate` of
   * that parent changes it wherever it occurs. `Born(genes)` is a list that crossover
   * created, with its contents.
   */
  datatype Child = Member(index: nat) | Born(genes: seq<int>)

  /**
   * Where `run` stands at the start of a generation: the contents of `self.population`,
   * how many raw draws have been made, and the local `population`.
   */
  datatype Stage = Stage(pool: seq<seq<int>>, drawn: nat, current: seq<Child>)

  /**
   * Where breeding stands after some passes: the contents of `self.population`, how many
   * raw draws have been made and the children so far; or the exception a pass raised.
   */
  type Breeding = Result<(seq<seq<int>>, nat, seq<Child>), Failure>

  /** The contents of a child while `self.population` holds `pool`. */
  function Resolve(pool: seq<seq<int>>, c: Child): seq<int>
  {
    match c
    case Member(i) => if i < |pool| then pool[i] else []
    case Born(genes) => genes
  }

  /** The contents of a list of children while `self.population` holds `pool`. */
  function Contents(pool: seq<seq<int>>, children: seq<Child>): (genomes: seq<seq<int>>)
    ensures |genomes| == |children|
  {
    seq(|children|, t requires 0 <= t < |children| => Resolve(pool, children[t]))
  }

  /** `population = self.population`: the first `n` members, in order. */
  function Members(n: nat): (children: seq<Child>)
    ensures |children| == n
  {
    seq(n, i requires 0 <= i < n => Member(i))
  }

  /** The `k` indices that `random.choices` over `size` members takes from raw draw `first` on. */
  function Choices(raw: nat -> nat, first: nat, size: nat, k: nat): (choices: seq<nat>)
    requires size > 0
    ensures |choices| == k && forall j :: 0 <= j < k ==> choices[j] < size
  {
    if k == 0 then []
    else Choices(raw, first, size, k - 1) + [IndexValue(UnitValue(raw(first + k - 1)), size)]
  }
  /** Entry `j` of `Choices` is the index made from raw draw `first + j`. */
  lemma {:induction false} ChoicesAt(raw: nat -> nat, first: nat, size: nat, k: nat)
    requires size > 0
    ensures forall j :: 0 <= j < k ==> Choices(raw, first, size, k)[j] == IndexValue(UnitValue(raw(first + j)), size)
  {
    if k > 0 {
      ChoicesAt(raw, first, size, k - 1);
    }
  }


  /** Indices made one by one from the draws on from `first` are `Choices` of those draws. */
  lemma ChoicesAre(raw: nat -> nat, first: nat, size: nat, choices: seq<nat>)
    requires size > 0
    requires forall j :: 0 <= j < |choices| ==> choices[j] == IndexValue(UnitValue(raw(first + j)), size)
    ensures choices == Choices(raw, first, size, |choices|)
  {
    ChoicesAt(raw, first, size, |choices|);
  }

  // ---- the engine object ----

  class GeneticAlgorithm {
    /** `Max_quantity` of each item of `problem.items`, in catalog order. */
    const maxQuantities: seq<nat>
    /** `problem.fitness`: total, deterministic, higher is better. */
    const fitness: seq<int> -> real
    const populationSize: int
    const generations: int
    const crossoverRate: real
    const mutationRate: real
    /** `self.population`: only `initialPopulation` changes this list. */
    var population: seq<array<int>>
    /** `self.logs`: one entry appended per generation. */
    var logs: seq<LogEntry>

    constructor (maxQuantities: seq<nat>, fitness: seq<int> -> real, populationSize: int, generations: int,
                 crossoverRate: real := 0.8, mutationRate: real := 0.05)
      ensures this.maxQuantities == maxQuantities && this.fitness == fitness
      ensures this.populationSize == populationSize && this.generations == generations
      ensures this.crossoverRate == crossoverRate && this.mutationRate == mutationRate
      ensures population == [] && logs == []
      ensures Valid()
    {
      this.maxQuantities := maxQuantities;
      this.fitness := fitness;
      this.populationSize := populationSize;
      this.generations := generations;
      this.crossoverRate := crossoverRate;
      this.mutationRate := mutationRate;
      population := [];
      logs := [];
    }

    /** Every individual in `individuals` currently fits the catalog. */
    ghost predicate Fit(individuals: seq<array<int>>)
      reads individuals
    {
      forall k :: 0 <= k < |individuals| ==> Fits(individuals[k])
    }

    /** The individual fits the catalog: `Conforms` read element by element from the array. */
    ghost predicate Fits(individual: array<int>)
      reads individual
      ensures Fits(individual) <==> Conforms(individual[..], maxQuantities)
    {
      individual.Length == |maxQuantities| &&
      forall i {:trigger individual[i]} :: 0 <= i < individual.Length ==> 0 <= individual[i] <= maxQuantities[i]
    }

    /**
     * The object invariant: every member of `self.population` fits the catalog, and each is
     * a list object of its own, as `initialPopulation` creates them.
     */
    ghost predicate Valid()
      reads this, population
    {
      Fit(population) && Distinct(population)
    }

    /** `evaluateFitness`: a call-through to the problem's fitness. */
    function EvaluateFitness(individual: seq<int>): real
    {
      fitness(individual)
    }

    /** The fitness of each genome, in order. */
    function Fitnesses(genomes: seq<seq<int>>): seq<real>
    {
      seq(|genomes|, k requires 0 <= k < |genomes| => EvaluateFitness(genomes[k]))
    }

    /** The individual that `initialPopulation` makes from the draws `raw(first)`, `raw(first + 1)`, .... */
    function InitialGenome(raw: nat -> nat, first: nat): (genes: seq<int>)
      ensures Conforms(genes, maxQuantities)
    {
      seq(|maxQuantities|, i requires 0 <= i < |maxQuantities| =>
        IntValue(raw(first + i), 0, maxQuantities[i]))
    }

    /**
     * The contents of `self.population` after `initialPopulation`: the individuals `before`
     * it, then `n` new ones, individual `k` made from the draws after those of the `k`
     * before it, starting at raw draw `first`.
     */
    ghost function Initialized(before: seq<seq<int>>, raw: nat -> nat, first: nat, n: nat): (genomes: seq<seq<int>>)
      ensures |genomes| == |before| + n
    {
      if n == 0 then before
      else Initialized(before, raw, first, n - 1) + [InitialGenome(raw, first + DrawsBefore(n - 1))]
    }

    /**
     * `Initialized` keeps the individuals before it, and individual `k` after them is made
     * from the draws that follow the `DrawsBefore(k)` draws of the ones before it.
     */
    lemma {:induction false} InitializedContents(before: seq<seq<int>>, raw: nat -> nat, first: nat, n: nat)
      ensures var genomes := Initialized(before, raw, first, n);
        genomes[..|before|] == before &&
        forall k :: 0 <= k < n ==> genomes[|before| + k] == InitialGenome(raw, first + DrawsBefore(k))
    {
      if n > 0 {
        InitializedContents(before, raw, first, n - 1);
        var shorter := Initialized(before, raw, first, n - 1);
        assert Initialized(before, raw, first, n)[..|before| + n - 1] == shorter;
      }
    }

    /** How many draws `initialPopulation` makes for its first `k` individuals: one per gene. */
    function DrawsBefore(k: nat): nat
    {
      if k == 0 then 0 else DrawsBefore(k - 1) + |maxQuantities|
    }

    /**
     * The tournament winner: the candidate that a stable sort by descending fitness
     * puts first, i.e. one of highest fitness, and among those the earliest drawn.
     */
    function Tournament(candidates: seq<array<int>>): (winner: array<int>)
      requires candidates != []
      reads candidates
    {
      candidates[FirstArgMax(Fitnesses(Genomes(candidates)))]
    }

    /**
     * The tournament winner is one of the candidates, of highest fitness, and every
     * candidate drawn before it is strictly worse.
     */
    lemma TournamentBest(candidates: seq<array<int>>)
      requires candidates != []
      ensures var winner := Tournament(candidates);
        exists j :: (0 <= j < |candidates| && winner == candidates[j] &&
        (forall i :: 0 <= i < |candidates| ==> EvaluateFitness(candidates[i][..]) <= EvaluateFitness(winner[..])) &&
        (forall i :: 0 <= i < j ==> EvaluateFitness(candidates[i][..]) < EvaluateFitness(winner[..])))
    {
      var fits := Fitnesses(Genomes(candidates));
      assert forall i :: 0 <= i < |candidates| ==> fits[i] == EvaluateFitness(candidates[i][..]);
      var j := FirstArgMax(fits);
      assert Tournament(candidates) == candidates[j];
    }

    /** The body of `initialPopulation`'s outer loop: one individual, one `randint` per item, in catalog order. */
    method RandomIndividual(rng: Source) returns (individual: array<int>)
      modifies rng
      ensures fresh(individual)
      ensures individual[..] == InitialGenome(rng.raw, old(rng.drawn))
      ensures rng.drawn == old(rng.drawn) + |maxQuantities|
    {
      individual := new int[|maxQuantities|];
      for i := 0 to |maxQuantities|
        modifies individual, rng
        invariant rng.drawn == old(rng.drawn) + i
        invariant forall j :: 0 <= j < i ==> individual[j] == IntValue(rng.raw(old(rng.drawn) + j), 0, maxQuantities[j])
      {
        individual[i] := rng.RandInt(0, maxQuantities[i]);
      }
      assert individual[..] == InitialGenome(rng.raw, old(rng.drawn));
    }

    /**
     * `self.population` is `before` followed by `k` individuals made as `initialPopulation`
     * makes them from raw draw `first` on, and every member fits the catalog.
     */
    ghost predicate Populated(before: seq<array<int>>, initial: seq<seq<int>>, raw: nat -> nat, first: nat, k: nat)
      reads this, population
    {
      |population| == |before| + k && population[..|before|] == before &&
      Genomes(population) == Initialized(initial, raw, first, k) && Valid()
    }

    /** `initialPopulation`: appends `populationSize` fresh individuals, gene by gene from the source. */
    method InitialPopulation(rng: Source)
      requires Valid()
      modifies this`population, rng
      ensures Valid()
      ensures |population| == |old(population)| + Clamp(populationSize)
      ensures population[..|old(population)|] == old(population)
      ensures forall k :: |old(population)| <= k < |population| ==> fresh(population[k])
      ensures rng.drawn == old(rng.drawn) + DrawsBefore(Clamp(populationSize))
      ensures Genomes(population) == Initialized(old(Genomes(population)), rng.raw, old(rng.drawn), Clamp(populationSize))
    {
      ghost var before, initial := population, Genomes(population);
      for k := 0 to Clamp(populationSize)
        modifies this`population, rng
        invariant Populated(before, initial, rng.raw, old(rng.drawn), k)
        invariant rng.drawn == old(rng.drawn) + DrawsBefore(k)
        invariant forall j :: |before| <= j < |population| ==> fresh(population[j])
      {
        AppendIndividual(rng, before, initial, old(rng.drawn), k);
      }
    }

    /** One pass of `initialPopulation`'s loop: individual `k` is drawn and appended. */
    method AppendIndividual(rng: Source, ghost before: seq<array<int>>, ghost initial: seq<seq<int>>, ghost first: nat, ghost k: nat)
      requires Populated(before, initial, rng.raw, first, k) && rng.drawn == first + DrawsBefore(k)
      modifies this`population, rng
      ensures Populated(before, initial, rng.raw, first, k + 1) && rng.drawn == first + DrawsBefore(k + 1)
      ensures |population| == |old(population)| + 1 && population[..|old(population)|] == old(population)
      ensures fresh(population[|old(population)|])
    {
      label Drawing:
      var individual := RandomIndividual(rng);
      GenomesUnchanged@Drawing(population);
      assert Fits(individual);
      GenomesSnoc(population, individual);
      population := population + [individual];
      assert Genomes(population) == Initialized(initial, rng.raw, first, k) + [InitialGenome(rng.raw, first + DrawsBefore(k))];
    }

    /** `selection`: a tournament among `numChoices` members of `self.population` drawn with replacement. */
    method Selection(rng: Source, numChoices: nat := 3) returns (winner: array<int>, ghost choices: seq<nat>)
      requires population != [] && numChoices > 0
      modifies rng
      ensures rng.drawn == old(rng.drawn) + numChoices
      ensures |choices| == numChoices && forall j :: 0 <= j < |choices| ==> choices[j] < |population|
      ensures forall j :: 0 <= j < |choices| ==>
        choices[j] == IndexValue(UnitValue(rng.raw(old(rng.drawn) + j)), |population|)
      ensures winner == Tournament(Pick(population, choices))
      ensures choices == Choices(rng.raw, old(rng.drawn), |population|, numChoices)
      ensures winner == population[Winner(Genomes(population), choices)]
      ensures Valid() ==> Fits(winner)
    {
      var selections: seq<array<int>> := [];
      choices := [];
      for j := 0 to numChoices
        invariant |selections| == j && |choices| == j && rng.drawn == old(rng.drawn) + j
        invariant forall t :: 0 <= t < j ==>
          choices[t] == IndexValue(UnitValue(rng.raw(old(rng.drawn) + t)), |population|) &&
          selections[t] == population[choices[t]]
      {
        var k := rng.Choice(|population|);
        selections := selections + [population[k]];
        choices := choices + [k];
      }
      assert selections == Pick(population, choices);
      winner := Tournament(selections);
      ChoicesAre(rng.raw, old(rng.drawn), |population|, choices);
      WinnerIsTournament(choices);
      if Valid() {
        ParentFits(choices, winner);
      }
    }

    /** `crossover`: one-point crossover behind the rate gate; uncrossed children are the parents themselves. */
    method Crossover(rng: Source, parent1: array<int>, parent2: array<int>)
      returns (r: Result<(array<int>, array<int>), Failure>, ghost gate: real, ghost point: int)
      modifies rng
      ensures gate == UnitValue(rng.raw(old(rng.drawn)))
      ensures gate < crossoverRate && |maxQuantities| >= 2 ==>
        point == IntValue(rng.raw(old(rng.drawn) + 1), 1, |maxQuantities| - 1) &&
        rng.drawn == old(rng.drawn) + 2
      ensures !(gate < crossoverRate && |maxQuantities| >= 2) ==> rng.drawn == old(rng.drawn) + 1
      ensures var spec := Recombine(parent1[..], parent2[..], crossoverRate, |maxQuantities|, gate, point);
        (r.Err? <==> spec.Err?) &&
        (r.Err? ==> r.error == spec.error) &&
        (r.Ok? ==> r.value.0[..] == spec.value.0 && r.value.1[..] == spec.value.1)
      ensures r.Ok? && gate >= crossoverRate ==> r.value.0 == parent1 && r.value.1 == parent2
      ensures r.Ok? && gate < crossoverRate ==>
        fresh(r.value.0) && fresh(r.value.1) && r.value.0 != r.value.1
      ensures r.Ok? && Fits(parent1) && Fits(parent2) ==> Fits(r.value.0) && Fits(r.value.1)
    {
      var x := rng.Random();
      gate, point := x, 0;
      if x < crossoverRate {
        if |maxQuantities| < 2 {
          r := Err(EmptyCutRange);  // random.randint(1, 0) raises ValueError
          return;
        }
        var cut := rng.RandInt(1, |maxQuantities| - 1);
        point := cut;
        var (genes1, genes2) := OnePoint(parent1[..], parent2[..], cut);
        var firstChild := new int[|genes1|](i requires 0 <= i < |genes1| => genes1[i]);
        var secondChild := new int[|genes2|](i requires 0 <= i < |genes2| => genes2[i]);
        assert firstChild[..] == genes1 && secondChild[..] == genes2;
        if Fits(parent1) && Fits(parent2) {
          RecombineConforms(parent1[..], parent2[..], maxQuantities, crossoverRate, x, cut);
        }
        r := Ok((firstChild, secondChild));
      } else {
        r := Ok((parent1, parent2));
      }
    }

    /**
     * `mutate`: resets, in place, each gene whose gate draw falls below `mutationRate`.
     * `positions[i]` is the draw that gene `i`'s gate takes: one after the previous gate,
     * or two when that gate opened and its reset, `random.randint(0, Max_quantity_i)`,
     * took the draw in between.
     */
    method Mutate(rng: Source, individual: array<int>)
      returns (ghost gates: seq<real>, ghost resets: seq<int>, ghost positions: seq<nat>)
      requires individual.Length <= |maxQuantities|
      modifies rng, individual
      ensures |gates| == individual.Length && |resets| == individual.Length
      ensures |positions| == |gates| + 1 && positions[0] == old(rng.drawn) && rng.drawn == positions[|gates|]
      ensures forall i :: 0 <= i < |gates| ==>
        positions[i + 1] == positions[i] + (if gates[i] < mutationRate then 2 else 1)
      ensures forall i :: 0 <= i < |gates| ==> gates[i] == UnitValue(rng.raw(positions[i]))
      ensures forall i :: 0 <= i < |gates| && gates[i] < mutationRate ==>
        resets[i] == IntValue(rng.raw(positions[i] + 1), 0, maxQuantities[i])
      ensures forall i :: 0 <= i < |gates| ==> 0.0 <= gates[i] < 1.0
      ensures forall i :: 0 <= i < |gates| && gates[i] < mutationRate ==> 0 <= resets[i] <= maxQuantities[i]
      ensures individual[..] == Mutated(old(individual[..]), gates, resets, mutationRate)
      ensures old(Fits(individual)) ==> Fits(individual)
    {
      ghost var before := individual[..];
      gates, resets, positions := [], [], [rng.drawn];
      for i := 0 to individual.Length
        invariant |gates| == i && MutationDraws(rng.raw, maxQuantities, mutationRate, gates, resets, positions)
        invariant positions[0] == old(rng.drawn) && rng.drawn == positions[i]
        invariant Mutating(individual, before, gates, resets, i)
      {
        var gate, reset := MutateGene(rng, individual, i, before, gates, resets);
        MutationDrawsStep(rng.raw, maxQuantities, mutationRate, gates, resets, positions, gate, reset, rng.drawn);
        gates, resets, positions := gates + [gate], resets + [reset], positions + [rng.drawn];
      }
      assert individual[..] == Mutated(before, gates, resets, mutationRate);
      MutationDrawsBounded(rng.raw, maxQuantities, mutationRate, gates, resets, positions);
      if Conforms(before, maxQuantities) {
        MutatedConforms(before, gates, resets, mutationRate, maxQuantities);
      }
    }

    /**
     * `mutate` has passed over the first `i` genes of `individual`, which held `before`:
     * those whose gate opened hold their reset draw, the rest are as they were.
     */
    ghost predicate Mutating(individual: array<int>, before: seq<int>, gates: seq<real>, resets: seq<int>, i: nat)
      reads individual
    {
      individual.Length == |before| && i <= |before| && |gates| == i && |resets| == i &&
      (forall j :: 0 <= j < i ==> individual[j] == if gates[j] < mutationRate then resets[j] else before[j]) &&
      (forall j :: i <= j < individual.Length ==> individual[j] == before[j])
    }

    /** One pass of `mutate`'s loop: the gate draw of gene `i`, then its reset draw when the gate opens. */
    method MutateGene(rng: Source, individual: array<int>, i: nat, ghost before: seq<int>, ghost gates: seq<real>, ghost resets: seq<int>)
      returns (ghost gate: real, ghost reset: int)
      requires i < individual.Length && individual.Length <= |maxQuantities|
      requires Mutating(individual, before, gates, resets, i)
      modifies rng, individual
      ensures Mutating(individual, before, gates + [gate], resets + [reset], i + 1)
      ensures gate == UnitValue(rng.raw(old(rng.drawn)))
      ensures gate < mutationRate ==> reset == IntValue(rng.raw(old(rng.drawn) + 1), 0, maxQuantities[i])
      ensures rng.drawn == old(rng.drawn) + 1 + (if gate < mutationRate then 1 else 0)
      ensures individual[i] == if gate < mutationRate then reset else old(individual[i])
      ensures forall j :: 0 <= j < individual.Length && j != i ==> individual[j] == old(individual[j])
    {
      var x := rng.Random();
      gate, reset := x, 0;  // the reset draw of a gene that keeps its value is never made
      if x < mutationRate {
        var selected := rng.RandInt(0, maxQuantities[i]);
        individual[i] := selected;
        reset := selected;
      }
    }

    // ---- breeding on values ----

    /** The index in `self.population` of the tournament winner among `choices` while it holds `pool`. */
    function Winner(pool: seq<seq<int>>, choices: seq<nat>): (w: nat)
      requires choices != [] && forall j :: 0 <= j < |choices| ==> choices[j] < |pool|
      ensures w < |pool|
    {
      choices[Leader(pool, choices, |choices|)]
    }

    /** The position, among the first `n` choices, of the first one of highest fitness. */
    function Leader(pool: seq<seq<int>>, choices: seq<nat>, n: nat): (w: nat)
      requires 0 < n <= |choices| && forall j :: 0 <= j < |choices| ==> choices[j] < |pool|
      ensures w < n
    {
      if n == 1 then 0
      else
        var w := Leader(pool, choices, n - 1);
        if EvaluateFitness(pool[choices[w]]) < EvaluateFitness(pool[choices[n - 1]]) then n - 1 else w
    }

    /** The raw draw that gene `i`'s gate takes when `mutate` starts at raw draw `first`. */
    function GatePosition(raw: nat -> nat, first: nat, i: nat): nat
    {
      if i == 0 then first
      else
        var previous := GatePosition(raw, first, i - 1);
        previous + if UnitValue(raw(previous)) < mutationRate then 2 else 1
    }

    /** What `mutate` leaves in `genes` when it starts at raw draw `first`, and the next raw draw. */
    function MutatedFrom(raw: nat -> nat, first: nat, genes: seq<int>): (seq<int>, nat)
      requires |genes| <= |maxQuantities|
    {
      (seq(|genes|, i requires 0 <= i < |genes| =>
         var p := GatePosition(raw, first, i);
         if UnitValue(raw(p)) < mutationRate then IntValue(raw(p + 1), 0, maxQuantities[i]) else genes[i]),
       GatePosition(raw, first, |genes|))
    }

    /**
     * `mutate` of one child from raw draw `first`: the new contents of `self.population`,
     * the child, and the next raw draw. Mutating `Member(i)` changes `self.population[i]`.
     * Every list the engine builds has one gene per item, so the other branches do not occur.
     */
    function MutatedChild(raw: nat -> nat, first: nat, pool: seq<seq<int>>, c: Child): (r: (seq<seq<int>>, Child, nat))
      ensures |r.0| == |pool|
    {
      match c
      case Member(i) =>
        if i < |pool| && |pool[i]| <= |maxQuantities| then
          var (genes, next) := MutatedFrom(raw, first, pool[i]);
          (pool[i := genes], c, next)
        else (pool, c, first)
      case Born(g) =>
        if |g| <= |maxQuantities| then
          var (genes, next) := MutatedFrom(raw, first, g);
          (pool, Born(genes), next)
        else (pool, c, first)
    }

    /**
     * The start of a pass of `run`'s `while` loop from raw draw `first`, while
     * `self.population` holds `pool`: two tournaments of three draws each, the crossover
     * gate, and the cut when the gate opens. Yields the two children and the next raw draw.
     */
    function Mated(raw: nat -> nat, first: nat, pool: seq<seq<int>>): (r: Result<(Child, Child, nat), Failure>)
      requires pool != []
    {
      var winner1 := Winner(pool, Choices(raw, first, |pool|, 3));
      var winner2 := Winner(pool, Choices(raw, first + 3, |pool|, 3));
      var gate := UnitValue(raw(first + 6));
      if gate < crossoverRate then
        if |maxQuantities| < 2 then Err(EmptyCutRange)
        else
          var children := OnePoint(pool[winner1], pool[winner2], IntValue(raw(first + 7), 1, |maxQuantities| - 1));
          Ok((Born(children.0), Born(children.1), first + 8))
      else Ok((Member(winner1), Member(winner2), first + 7))
    }

    /**
     * One pass of `run`'s `while` loop from raw draw `first`, while `self.population` holds
     * `pool`: `Mated`, then the mutation of the first child and then of the second. Yields
     * the new contents of `self.population`, the next raw draw and the two children.
     */
    function Pass(raw: nat -> nat, first: nat, pool: seq<seq<int>>): (r: Result<(seq<seq<int>>, nat, Child, Child), Failure>)
      requires pool != []
      ensures r.Ok? ==> |r.value.0| == |pool|
    {
      match Mated(raw, first, pool)
      case Err(e) => Err(e)
      case Ok((child1, child2, next)) =>
        var (pool1, mutated1, next1) := MutatedChild(raw, next, pool, child1);
        var (pool2, mutated2, next2) := MutatedChild(raw, next1, pool1, child2);
        Ok((pool2, next2, mutated1, mutated2))
    }

    /** A pass whose mating succeeds is that mating followed by the two mutations. */
    lemma PassFrom(raw: nat -> nat, first: nat, pool: seq<seq<int>>, born1: Child, born2: Child, next: nat)
      requires pool != [] && Mated(raw, first, pool) == Ok((born1, born2, next))
      ensures var one := MutatedChild(raw, next, pool, born1);
        var two := MutatedChild(raw, one.2, one.0, born2);
        Pass(raw, first, pool) == Ok((two.0, two.2, one.1, two.1))
    {
    }

    /** How many passes the `while` loop makes: pairs until there are `populationSize` children. */
    function Passes(): nat
    {
      (Clamp(populationSize) + 1) / 2
    }

    /** The `Passes()` pairs cover `populationSize` children, with at most one to spare. */
    lemma PassesCover()
      ensures Clamp(populationSize) <= 2 * Passes() <= Clamp(populationSize) + 1
    {
    }

    /** The first `passes` passes of the `while` loop from raw draw `first`, while `self.population` holds `pool`. */
    function Bred(raw: nat -> nat, first: nat, pool: seq<seq<int>>, passes: nat): (r: Breeding)
      requires passes > 0 ==> pool != []
      ensures r.Ok? ==> |r.value.0| == |pool| && |r.value.2| == 2 * passes
    {
      if passes == 0 then Ok((pool, first, []))
      else
        match Bred(raw, first, pool, passes - 1)
        case Err(e) => Err(e)
        case Ok((pool1, next1, children)) =>
          match Pass(raw, next1, pool1)
          case Err(e) => Err(e)
          case Ok((pool2, next2, child1, child2)) => Ok((pool2, next2, children + [child1, child2]))
    }

    /** The breeding of one generation: the `while` loop, then `new_population[:self.populationSize]`. */
    function NextStage(raw: nat -> nat, s: Stage): (r: Result<Stage, Failure>)
      requires Passes() > 0 ==> s.pool != []
      ensures r.Ok? ==> |r.value.pool| == |s.pool| && |r.value.current| == Clamp(populationSize)
    {
      match Bred(raw, s.drawn, s.pool, Passes())
      case Err(e) => Err(e)
      case Ok((pool, drawn, children)) => Ok(Stage(pool, drawn, children[..Clamp(populationSize)]))
    }

    /**
     * Where `run` stands at the start of generation `g` when generation 0 starts at `s0`, or
     * the exception an earlier generation raised: `max([])` of an empty population, or the
     * cut-range error of its breeding.
     */
    function StageAt(raw: nat -> nat, s0: Stage, g: nat): (r: Result<Stage, Failure>)
      requires Passes() > 0 ==> s0.pool != []
      ensures r.Ok? ==> |r.value.pool| == |s0.pool|
    {
      if g == 0 then Ok(s0)
      else
        match StageAt(raw, s0, g - 1)
        case Err(e) => Err(e)
        case Ok(s) => if s.current == [] then Err(EmptyPopulation) else NextStage(raw, s)
    }

    /**
     * Breeding fails only at the cut: `randint(1, len(maxQuantities) - 1)` with fewer than
     * two items, after at least one pass; with two or more items it always succeeds.
     */
    lemma {:induction false} BredFails(raw: nat -> nat, first: nat, pool: seq<seq<int>>, passes: nat)
      requires passes > 0 ==> pool != []
      ensures var b := Bred(raw, first, pool, passes);
        (b.Err? ==> b.error == EmptyCutRange && |maxQuantities| < 2 && passes >= 1) &&
        (|maxQuantities| >= 2 ==> b.Ok?)
    {
      if passes > 0 {
        BredFails(raw, first, pool, passes - 1);
      }
    }

    /**
     * When `run` raises, generation by generation: `max([])` exactly when generation 0 has an
     * empty population or a later one has `populationSize <= 0`; the cut-range error only
     * with fewer than two items; and with two or more items and a positive size, never.
     */
    lemma {:induction false} StageAtOutcome(raw: nat -> nat, s0: Stage, g: nat)
      requires Passes() > 0 ==> s0.pool != []
      ensures var o := StageAt(raw, s0, g);
        (o == Err(EmptyPopulation) <==> g >= 1 && (s0.current == [] || (g >= 2 && populationSize <= 0))) &&
        (o == Err(EmptyCutRange) ==> |maxQuantities| < 2 && populationSize >= 1) &&
        (|maxQuantities| >= 2 && populationSize >= 1 && s0.current != [] ==> o.Ok?) &&
        (o.Ok? && g >= 1 ==> s0.current != [] && (g >= 2 ==> populationSize >= 1))
    {
      if g > 0 {
        StageAtOutcome(raw, s0, g - 1);
        var before := StageAt(raw, s0, g - 1);
        if before.Ok? && before.value.current != [] {
          BredFails(raw, before.value.drawn, before.value.pool, Passes());
        }
      }
    }

    // ---- the engine's lists as children ----

    /**
     * The list `x` is the child `c`: the member `self.population[i]` itself, or a list of
     * its own, outside `self.population`, that holds the child's genes.
     */
    ghost predicate Holds(x: array<int>, c: Child)
      reads this, x
    {
      match c
      case Member(i) => i < |population| && x == population[i]
      case Born(genes) => x !in population && x[..] == genes
    }

    /** The lists `xs` are the children `children`, one by one. */
    ghost predicate Represents(xs: seq<array<int>>, children: seq<Child>)
      reads this, xs
    {
      |xs| == |children| && forall t :: 0 <= t < |xs| ==> Holds(xs[t], children[t])
    }

    /** Lists that are children hold the contents `Contents` gives those children. */
    lemma RepresentsContents(xs: seq<array<int>>, children: seq<Child>)
      requires Represents(xs, children)
      ensures Genomes(xs) == Contents(Genomes(population), children)
    {
      forall t | 0 <= t < |xs| ensures Genomes(xs)[t] == Contents(Genomes(population), children)[t] {
        assert Holds(xs[t], children[t]);
      }
    }

    /** The first `n` lists are the first `n` children. */
    lemma RepresentsPrefix(xs: seq<array<int>>, children: seq<Child>, n: nat)
      requires Represents(xs, children) && n <= |xs|
      ensures Represents(xs[..n], children[..n])
    {
      forall t | 0 <= t < n ensures Holds(xs[..n][t], children[..n][t]) {
        assert Holds(xs[t], children[t]);
      }
    }

    /** Two more fitting lists keep a list of lists fitting. */
    lemma FitPair(xs: seq<array<int>>, x1: array<int>, x2: array<int>)
      requires Fit(xs) && Fits(x1) && Fits(x2)
      ensures Fit(xs + [x1, x2])
    {
      var ys := xs + [x1, x2];
      forall t | 0 <= t < |ys| ensures Fits(ys[t]) {
        if t < |xs| {
          assert ys[t] == xs[t];
        }
      }
    }

    /** Two more lists that are two more children. */
    lemma RepresentsPair(xs: seq<array<int>>, children: seq<Child>, x1: array<int>, x2: array<int>, c1: Child, c2: Child)
      requires Represents(xs, children) && Holds(x1, c1) && Holds(x2, c2)
      ensures Represents(xs + [x1, x2], children + [c1, c2])
    {
      var ys, ds := xs + [x1, x2], children + [c1, c2];
      forall t | 0 <= t < |ys| ensures Holds(ys[t], ds[t]) {
        if t < |xs| {
          assert ys[t] == xs[t] && ds[t] == children[t];
        }
      }
    }

    /** `self.population` is its own first `|population|` members. */
    lemma MembersRepresent()
      ensures Represents(population, Members(|population|))
    {
    }

    /** The tournament among the drawn members is won by the member at index `Winner`. */
    lemma WinnerIsTournament(choices: seq<nat>)
      requires choices != [] && forall j :: 0 <= j < |choices| ==> choices[j] < |population|
      ensures Tournament(Pick(population, choices)) == population[Winner(Genomes(population), choices)]
    {
      var pool := Genomes(population);
      var fits := Fitnesses(Genomes(Pick(population, choices)));
      LeaderIsFirstArgMax(pool, choices, fits, |choices|);
      assert fits[..|choices|] == fits;
    }

    /** `Leader` is the first arg-max of the fitnesses of the chosen members. */
    lemma {:induction false} LeaderIsFirstArgMax(pool: seq<seq<int>>, choices: seq<nat>, fits: seq<real>, n: nat)
      requires 0 < n <= |choices| && forall j :: 0 <= j < |choices| ==> choices[j] < |pool|
      requires |fits| == |choices| && forall j :: 0 <= j < |choices| ==> fits[j] == EvaluateFitness(pool[choices[j]])
      ensures Leader(pool, choices, n) == FirstArgMax(fits[..n])
    {
      if n > 1 {
        LeaderIsFirstArgMax(pool, choices, fits, n - 1);
        assert fits[..n] == fits[..n - 1] + [fits[n - 1]];
        ExtendByOne(fits[..n - 1], fits[n - 1]);
      }
    }

    /** Under `MutationDraws` from `positions[0]`, gene `i`'s gate takes raw draw `GatePosition(i)`. */
    lemma {:induction false} GatePositions(raw: nat -> nat, gates: seq<real>, resets: seq<int>, positions: seq<nat>, i: nat)
      requires MutationDraws(raw, maxQuantities, mutationRate, gates, resets, positions) && i <= |gates|
      ensures positions[i] == GatePosition(raw, positions[0], i)
    {
      if i > 0 {
        GatePositions(raw, gates, resets, positions, i - 1);
      }
    }

    /** The draws `Mutate` records leave exactly what `MutatedFrom` says, and end where it says. */
    lemma MutationFollows(raw: nat -> nat, genes: seq<int>, gates: seq<real>, resets: seq<int>, positions: seq<nat>)
      requires MutationDraws(raw, maxQuantities, mutationRate, gates, resets, positions) && |genes| == |gates|
      ensures MutatedFrom(raw, positions[0], genes) == (Mutated(genes, gates, resets, mutationRate), positions[|gates|])
    {
      var mutated := Mutated(genes, gates, resets, mutationRate);
      var genes' := MutatedFrom(raw, positions[0], genes).0;
      forall i | 0 <= i < |genes| ensures genes'[i] == mutated[i] {
        GatePositions(raw, gates, resets, positions, i);
      }
      assert genes' == mutated;
      GatePositions(raw, gates, resets, positions, |gates|);
    }

    /** One more pass extends `Bred` by the `Pass` from where the passes so far stand. */
    lemma BredStep(raw: nat -> nat, first: nat, pool: seq<seq<int>>, k: nat, stand: (seq<seq<int>>, nat, seq<Child>))
      requires pool != [] && Bred(raw, first, pool, k) == Ok(stand)
      ensures stand.0 != []
      ensures var pass := Pass(raw, stand.1, stand.0);
        Bred(raw, first, pool, k + 1) ==
          if pass.Err? then Err(pass.error) else Ok((pass.value.0, pass.value.1, stand.2 + [pass.value.2, pass.value.3]))
    {
    }

    /** Once a prefix of the passes fails, every longer prefix fails the same way. */
    lemma {:induction false} BredStops(raw: nat -> nat, first: nat, pool: seq<seq<int>>, k: nat, m: nat)
      requires k <= m && (m > 0 ==> pool != []) && Bred(raw, first, pool, k).Err?
      ensures Bred(raw, first, pool, m) == Bred(raw, first, pool, k)
    {
      if m > k {
        BredStops(raw, first, pool, k, m - 1);
        assert Bred(raw, first, pool, m) == Err(Bred(raw, first, pool, m - 1).error);
      }
    }

    /** `trace` lists the outcomes of the first passes, `Bred` of none, of one, and so on. */
    ghost predicate Traces(raw: nat -> nat, first: nat, pool: seq<seq<int>>, trace: seq<Breeding>)
    {
      (|trace| > 1 ==> pool != []) &&
      forall k {:trigger Bred(raw, first, pool, k)} :: 0 <= k < |trace| ==> trace[k] == Bred(raw, first, pool, k)
    }

    /** The outcomes of the first `n` passes and of none. */
    ghost function BredTrace(raw: nat -> nat, first: nat, pool: seq<seq<int>>, n: nat): (trace: seq<Breeding>)
      requires n > 0 ==> pool != []
      ensures |trace| == n + 1 && Traces(raw, first, pool, trace)
    {
      seq(n + 1, k requires 0 <= k <= n => Bred(raw, first, pool, k))
    }

    /** Along a trace, no pass has been made yet at the start. */
    lemma TracesStart(raw: nat -> nat, first: nat, pool: seq<seq<int>>, trace: seq<Breeding>)
      requires Traces(raw, first, pool, trace) && trace != []
      ensures trace[0] == Ok((pool, first, []))
    {
      assert trace[0] == Bred(raw, first, pool, 0);
    }

    /** Along a trace, once a pass fails, every later outcome is that failure. */
    lemma TracesStop(raw: nat -> nat, first: nat, pool: seq<seq<int>>, trace: seq<Breeding>, k: nat, m: nat)
      requires Traces(raw, first, pool, trace) && k <= m < |trace| && trace[k].Err?
      ensures trace[m] == trace[k]
    {
      assert trace[k] == Bred(raw, first, pool, k);
      BredStops(raw, first, pool, k, m);
    }

    /** Once a generation fails, `run` stands at that failure for every later generation. */
    lemma {:induction false} StagesStop(raw: nat -> nat, s0: Stage, g: nat, m: nat)
      requires g <= m && (Passes() > 0 ==> s0.pool != []) && StageAt(raw, s0, g).Err?
      ensures StageAt(raw, s0, m) == StageAt(raw, s0, g)
    {
      if m > g {
        StagesStop(raw, s0, g, m - 1);
        assert StageAt(raw, s0, m) == Err(StageAt(raw, s0, m - 1).error);
      }
    }

    /**
     * Each snapshot, in order, is the contents of the population of the stage where `run`
     * stands at that generation; `TracedAt` reads it off for one generation.
     */
    ghost predicate Traced(raw: nat -> nat, s0: Stage, snapshots: seq<seq<seq<int>>>)
      requires Passes() > 0 ==> s0.pool != []
      decreases |snapshots|
    {
      snapshots == [] ||
      (Traced(raw, s0, snapshots[..|snapshots| - 1]) &&
       var stage := StageAt(raw, s0, |snapshots| - 1);
       stage.Ok? && snapshots[|snapshots| - 1] == Contents(stage.value.pool, stage.value.current))
    }

    /** In a trace, snapshot `g` is the contents of the population where `run` stands at generation `g`. */
    lemma {:induction false} TracedAt(raw: nat -> nat, s0: Stage, snapshots: seq<seq<seq<int>>>, g: nat)
      requires Passes() > 0 ==> s0.pool != []
      requires Traced(raw, s0, snapshots) && g < |snapshots|
      ensures var stage := StageAt(raw, s0, g);
        stage.Ok? && snapshots[g] == Contents(stage.value.pool, stage.value.current)
    {
      if g < |snapshots| - 1 {
        var shorter := snapshots[..|snapshots| - 1];
        TracedAt(raw, s0, shorter, g);
        assert snapshots[g] == shorter[g];
      }
    }

    /** `stages` lists where `run` stands at generations 0, 1, and so on, from `s0`. */
    ghost predicate Staged(raw: nat -> nat, s0: Stage, stages: seq<Result<Stage, Failure>>)
    {
      (Passes() > 0 ==> s0.pool != []) &&
      forall g {:trigger StageAt(raw, s0, g)} :: 0 <= g < |stages| ==> stages[g] == StageAt(raw, s0, g)
    }

    /** Where `run` stands at generations 0 to `n`. */
    ghost function StageTrace(raw: nat -> nat, s0: Stage, n: nat): (stages: seq<Result<Stage, Failure>>)
      requires Passes() > 0 ==> s0.pool != []
      ensures |stages| == n + 1 && Staged(raw, s0, stages)
    {
      seq(n + 1, g requires 0 <= g <= n => StageAt(raw, s0, g))
    }

    /** Generation 0 stands at `s0`. */
    lemma StagedStart(raw: nat -> nat, s0: Stage, stages: seq<Result<Stage, Failure>>)
      requires Staged(raw, s0, stages) && stages != []
      ensures stages[0] == Ok(s0)
    {
      assert stages[0] == StageAt(raw, s0, 0);
    }

    /** A generation whose population is empty makes the next one stand at `max([])`'s failure. */
    lemma StagedEmpty(raw: nat -> nat, s0: Stage, stages: seq<Result<Stage, Failure>>, g: nat, s: Stage)
      requires Staged(raw, s0, stages) && g + 1 < |stages| && stages[g] == Ok(s) && s.current == []
      ensures stages[g + 1] == Err(EmptyPopulation)
    {
      assert stages[g] == StageAt(raw, s0, g);
      assert stages[g + 1] == StageAt(raw, s0, g + 1);
    }

    /** Along `stages`, once a generation fails, every later one stands at that failure. */
    lemma StagedStop(raw: nat -> nat, s0: Stage, stages: seq<Result<Stage, Failure>>, g: nat, m: nat)
      requires Staged(raw, s0, stages) && g <= m < |stages| && stages[g].Err?
      ensures stages[m] == stages[g]
    {
      assert stages[g] == StageAt(raw, s0, g);
      StagesStop(raw, s0, g, m);
    }

    /** Snapshot `g`, for each one, is the contents of the population where `stages[g]` stands. */
    ghost predicate Along(stages: seq<Result<Stage, Failure>>, snapshots: seq<seq<seq<int>>>)
    {
      |snapshots| <= |stages| &&
      forall g :: 0 <= g < |snapshots| ==>
        stages[g].Ok? && snapshots[g] == Contents(stages[g].value.pool, stages[g].value.current)
    }

    /** Logging the contents of the next stage extends `Along`. */
    lemma AlongStep(stages: seq<Result<Stage, Failure>>, snapshots: seq<seq<seq<int>>>, s: Stage)
      requires Along(stages, snapshots) && |snapshots| < |stages| && stages[|snapshots|] == Ok(s)
      ensures Along(stages, snapshots + [Contents(s.pool, s.current)])
    {
    }

    /** Snapshots along the stages where `run` stands are its trace. */
    lemma {:induction false} AlongTraced(raw: nat -> nat, s0: Stage, stages: seq<Result<Stage, Failure>>,
                                         snapshots: seq<seq<seq<int>>>)
      requires Staged(raw, s0, stages) && Along(stages, snapshots)
      ensures Traced(raw, s0, snapshots)
      decreases |snapshots|
    {
      if snapshots != [] {
        var n := |snapshots| - 1;
        AlongTraced(raw, s0, stages, snapshots[..n]);
        assert stages[n] == StageAt(raw, s0, n);
      }
    }

    /**
     * `run`: `initialPopulation`, then per generation one log entry for the current
     * population and a new population bred from tournaments among `self.population`,
     * the initial one, cut to `populationSize`. `snapshots[g]` is the contents of the
     * population that generation `g` logged, at the time it was logged: the stage where
     * `StageAt` says `run` stands, from the initialized population on.
     */
    method Run(rng: Source) returns (r: Result<seq<LogEntry>, Failure>, ghost snapshots: seq<seq<seq<int>>>)
      requires Valid()
      modifies this, rng, population
      ensures Valid()
      ensures |population| == |old(population)| + Clamp(populationSize)
      ensures population[..|old(population)|] == old(population)
      ensures Chronicle(logs, old(logs), snapshots)
      ensures |snapshots| > 0 ==>
        snapshots[0] == Initialized(old(Genomes(population)), rng.raw, old(rng.drawn), Clamp(populationSize))
      ensures Steady(snapshots, populationSize)
      ensures |snapshots| <= Clamp(generations)
      ensures r.Ok? ==> r.value == logs && |snapshots| == Clamp(generations)
      ensures r == Err(EmptyPopulation) <==>
        generations >= 1 && (|old(population)| + Clamp(populationSize) == 0 || (generations >= 2 && populationSize <= 0))
      ensures r == Err(EmptyCutRange) ==> |maxQuantities| < 2 && populationSize >= 1
      ensures |maxQuantities| >= 2 && populationSize >= 1 ==> r.Ok?
      ensures var s0 := Stage(Initialized(old(Genomes(population)), rng.raw, old(rng.drawn), Clamp(populationSize)),
                              old(rng.drawn) + DrawsBefore(Clamp(populationSize)),
                              Members(|old(population)| + Clamp(populationSize)));
        var outcome := StageAt(rng.raw, s0, Clamp(generations));
        Traced(rng.raw, s0, snapshots) &&
        (r.Err? <==> outcome.Err?) && (r.Err? ==> r.error == outcome.error) &&
        (r.Ok? ==> Genomes(population) == outcome.value.pool && rng.drawn == outcome.value.drawn)
    {
      ghost var s0 := Stage(Initialized(Genomes(population), rng.raw, rng.drawn, Clamp(populationSize)),
                            rng.drawn + DrawsBefore(Clamp(populationSize)),
                            Members(|population| + Clamp(populationSize)));
      // the stage generation 0 starts at, in terms of the state on entry
      assert s0 == Stage(Initialized(old(Genomes(population)), rng.raw, old(rng.drawn), Clamp(populationSize)),
                         old(rng.drawn) + DrawsBefore(Clamp(populationSize)),
                         Members(|old(population)| + Clamp(populationSize)));
      InitialPopulation(rng);
      r, snapshots := Evolve(rng, s0);
    }

    /**
     * The generation loop of `run`, from `population = self.population` on: generation `g`
     * logs the contents of the stage `StageAt` gives for `g`, and the loop ends where
     * `StageAt` of the last generation says.
     */
    method Evolve(rng: Source, ghost s0: Stage) returns (r: Result<seq<LogEntry>, Failure>, ghost snapshots: seq<seq<seq<int>>>)
      requires Valid() && (populationSize >= 1 ==> population != [])
      requires s0 == Stage(Genomes(population), rng.drawn, Members(|population|))
      modifies this`logs, rng, population
      ensures Valid()
      ensures Chronicle(logs, old(logs), snapshots)
      ensures |snapshots| > 0 ==> snapshots[0] == old(Genomes(population))
      ensures Steady(snapshots, populationSize)
      ensures |snapshots| <= Clamp(generations)
      ensures r.Ok? ==> r.value == logs && |snapshots| == Clamp(generations)
      ensures r == Err(EmptyPopulation) <==>
        generations >= 1 && (population == [] || (generations >= 2 && populationSize <= 0))
      ensures r == Err(EmptyCutRange) ==> |maxQuantities| < 2 && populationSize >= 1
      ensures |maxQuantities| >= 2 && populationSize >= 1 ==> r.Ok?
      ensures var outcome := StageAt(rng.raw, s0, Clamp(generations));
        Traced(rng.raw, s0, snapshots) &&
        (r.Err? <==> outcome.Err?) && (r.Err? ==> r.error == outcome.error) &&
        (r.Ok? ==> Genomes(population) == outcome.value.pool && rng.drawn == outcome.value.drawn)
    {
      ghost var stages := StageTrace(rng.raw, s0, Clamp(generations));
      r, snapshots := Generations(rng, s0, stages);
      AlongTraced(rng.raw, s0, stages, snapshots);
      assert stages[Clamp(generations)] == StageAt(rng.raw, s0, Clamp(generations));
      StageAtOutcome(rng.raw, s0, Clamp(generations));
    }

    /** The loop of `Evolve`, along the stages `stages` where `run` stands generation by generation. */
    method Generations(rng: Source, ghost s0: Stage, ghost stages: seq<Result<Stage, Failure>>)
      returns (r: Result<seq<LogEntry>, Failure>, ghost snapshots: seq<seq<seq<int>>>)
      requires Valid() && (populationSize >= 1 ==> population != [])
      requires s0 == Stage(Genomes(population), rng.drawn, Members(|population|))
      requires Staged(rng.raw, s0, stages) && |stages| == Clamp(generations) + 1
      modifies this`logs, rng, population
      ensures Ended(rng, r, stages, old(logs), snapshots, old(Genomes(population)))
    {
      var current := population;
      snapshots := [];
      ghost var initial := Genomes(population);
      ghost var children := s0.current;
      Begin(rng, s0, stages);
      var generation := 0;
      while generation < Clamp(generations)
        invariant generation <= Clamp(generations)
        invariant Running(rng, stages, generation, current, children, old(logs), snapshots, initial)
        invariant initial == old(Genomes(population))
      {
        var bred, logged, next := Turn(rng, generation, current, children, old(logs), snapshots, initial, s0, stages);
        snapshots := logged;
        if bred.Err? {
          r := Err(bred.error);
          return;
        }
        current, children := bred.value, next;
        generation := generation + 1;
      }
      r := Ok(logs);
      Finish(rng, stages, current, children, old(logs), snapshots, initial);
    }

    /**
     * One generation of `run`'s `for` loop along `stages`: `max()` of an empty population
     * raises before anything is logged; otherwise `Advance` logs it and breeds the next.
     */
    method Turn(rng: Source, generation: nat, current: seq<array<int>>, ghost children: seq<Child>,
                ghost start: seq<LogEntry>, ghost snapshots: seq<seq<seq<int>>>, ghost initial: seq<seq<int>>,
                ghost s0: Stage, ghost stages: seq<Result<Stage, Failure>>)
      returns (r: Result<seq<array<int>>, Failure>, ghost logged: seq<seq<seq<int>>>, ghost next: seq<Child>)
      requires Running(rng, stages, generation, current, children, start, snapshots, initial)
      requires populationSize >= 1 ==> population != []
      requires Staged(rng.raw, s0, stages) && |stages| == Clamp(generations) + 1 && generation < Clamp(generations)
      modifies this`logs, rng, population
      ensures r.Ok? ==> Running(rng, stages, generation + 1, r.value, next, start, logged, initial)
      ensures r.Err? ==> Ended(rng, Err(r.error), stages, start, logged, initial)
    {
      Unlayer(rng, stages, generation, current, children, start, snapshots, initial);
      if current == [] {
        r := Err(EmptyPopulation);  // max() of an empty sequence raises ValueError
        logged, next := snapshots, children;
        StagedEmpty(rng.raw, s0, stages, generation, Stage(Genomes(population), rng.drawn, children));
        Halt(rng, EmptyPopulation, s0, stages, generation, start, logged, initial);
        return;
      }
      ghost var genomes;
      r, genomes, next := Advance(rng, generation, current, children, start, snapshots, s0, stages);
      logged := snapshots + [genomes];
      if r.Err? {
        Halt(rng, r.error, s0, stages, generation, start, logged, initial);
      } else {
        assert logged[0] == initial;
        Resume(rng, stages, generation + 1, r.value, next, start, logged, initial);
      }
    }

    /** A generation that raised `e` ends the loop with `e`. */
    lemma Halt(rng: Source, e: Failure, s0: Stage, stages: seq<Result<Stage, Failure>>, generation: nat,
               start: seq<LogEntry>, logged: seq<seq<seq<int>>>, initial: seq<seq<int>>)
      requires Staged(rng.raw, s0, stages) && |stages| == Clamp(generations) + 1 && generation < Clamp(generations)
      requires stages[generation + 1] == Err(e)
      requires Valid() && Logged(start, stages, logged) && |logged| <= generation + 1
      requires |logged| > 0 ==> logged[0] == initial
      ensures Ended(rng, Err(e), stages, start, logged, initial)
    {
      StagedStop(rng.raw, s0, stages, generation + 1, Clamp(generations));
    }

    /** A generation that bred the next population leaves the loop running at the next stage. */
    lemma Resume(rng: Source, stages: seq<Result<Stage, Failure>>, generation: nat,
                 current: seq<array<int>>, children: seq<Child>,
                 start: seq<LogEntry>, logged: seq<seq<seq<int>>>, initial: seq<seq<int>>)
      requires AtStage(rng, stages, generation, current, children) && Logged(start, stages, logged)
      requires generation >= 1 && |logged| == generation && logged[0] == initial
      requires |current| == Clamp(populationSize)
      ensures Running(rng, stages, generation, current, children, start, logged, initial)
    {
      Unlayer(rng, stages, generation, current, children, start, logged, initial);
    }

    /**
     * Where the generation loop stands before generation `generation`: at its stage, with
     * one snapshot logged per generation so far, the first of them the initial contents.
     */
    ghost predicate Running(rng: Source, stages: seq<Result<Stage, Failure>>, generation: nat,
                            current: seq<array<int>>, children: seq<Child>,
                            start: seq<LogEntry>, snapshots: seq<seq<seq<int>>>, initial: seq<seq<int>>)
      reads this, population, rng, current
    {
      Layered(1, rng, stages, generation, current, children, start, snapshots, initial)
    }

    /**
     * `Running` behind `layer` unfoldings of itself, so that the generation loop and the
     * contract of `Turn` carry it whole; `Unlayer` opens it where a proof needs what it says.
     */
    ghost predicate Layered(layer: nat, rng: Source, stages: seq<Result<Stage, Failure>>, generation: nat,
                            current: seq<array<int>>, children: seq<Child>,
                            start: seq<LogEntry>, snapshots: seq<seq<seq<int>>>, initial: seq<seq<int>>)
      reads this, population, rng, current
      decreases layer
    {
      if layer > 0 then Layered(layer - 1, rng, stages, generation, current, children, start, snapshots, initial)
      else
        AtStage(rng, stages, generation, current, children) && Logged(start, stages, snapshots) &&
        |snapshots| == generation && (generation >= 1 ==> |current| == Clamp(populationSize)) &&
        (generation == 0 ==> Genomes(current) == initial) && (generation > 0 ==> snapshots[0] == initial)
    }

    /** `Running` says what its innermost layer says. */
    lemma Unlayer(rng: Source, stages: seq<Result<Stage, Failure>>, generation: nat,
                  current: seq<array<int>>, children: seq<Child>,
                  start: seq<LogEntry>, snapshots: seq<seq<seq<int>>>, initial: seq<seq<int>>)
      ensures Running(rng, stages, generation, current, children, start, snapshots, initial) <==>
              Layered(0, rng, stages, generation, current, children, start, snapshots, initial)
    {
    }

    /**
     * Where the generation loop ends with `r`: `self.population` well formed, one snapshot
     * logged per generation run, the first the initial contents `initial`, and `r` and the
     * state those of the last stage, `stages[Clamp(generations)]`.
     */
    ghost predicate Ended(rng: Source, r: Result<seq<LogEntry>, Failure>, stages: seq<Result<Stage, Failure>>,
                          start: seq<LogEntry>, snapshots: seq<seq<seq<int>>>, initial: seq<seq<int>>)
      reads this, population, rng
    {
      Valid() && Logged(start, stages, snapshots) &&
      (|snapshots| > 0 ==> snapshots[0] == initial) &&
      |snapshots| <= Clamp(generations) < |stages| &&
      (r.Ok? ==> r.value == logs && |snapshots| == Clamp(generations)) &&
      var outcome := stages[Clamp(generations)];
      (r.Err? <==> outcome.Err?) && (r.Err? ==> r.error == outcome.error) &&
      (r.Ok? ==> Genomes(population) == outcome.value.pool && rng.drawn == outcome.value.drawn)
    }

    /** The generation loop starts at stage 0 with nothing logged. */
    lemma Begin(rng: Source, s0: Stage, stages: seq<Result<Stage, Failure>>)
      requires Valid()
      requires s0 == Stage(Genomes(population), rng.drawn, Members(|population|))
      requires Staged(rng.raw, s0, stages) && |stages| == Clamp(generations) + 1
      ensures Running(rng, stages, 0, population, s0.current, logs, [], Genomes(population))
    {
      MembersRepresent();
      StagedStart(rng.raw, s0, stages);
      Unlayer(rng, stages, 0, population, s0.current, logs, [], Genomes(population));
    }

    /** Running through every generation ends the loop at the last stage. */
    lemma Finish(rng: Source, stages: seq<Result<Stage, Failure>>, current: seq<array<int>>, children: seq<Child>,
                 start: seq<LogEntry>, snapshots: seq<seq<seq<int>>>, initial: seq<seq<int>>)
      requires Running(rng, stages, Clamp(generations), current, children, start, snapshots, initial)
      requires |stages| == Clamp(generations) + 1
      ensures Ended(rng, Ok(logs), stages, start, snapshots, initial)
    {
      Unlayer(rng, stages, Clamp(generations), current, children, start, snapshots, initial);
    }

    /**
     * Where `run` stands at generation `generation`, along `stages`: `self.population` is
     * well formed, the local `population` fits the catalog and is the children `children`,
     * and both and the draws are at `stages[generation]`.
     */
    ghost predicate AtStage(rng: Source, stages: seq<Result<Stage, Failure>>, generation: nat,
                            current: seq<array<int>>, children: seq<Child>)
      reads this, population, rng, current
    {
      Valid() && Fit(current) && Represents(current, children) &&
      generation < |stages| && stages[generation] == Ok(Stage(Genomes(population), rng.drawn, children))
    }

    /**
     * What the generations so far have logged after the entries `start`: one entry per
     * snapshot, steady sizes, and each snapshot the contents of its stage.
     */
    ghost predicate Logged(start: seq<LogEntry>, stages: seq<Result<Stage, Failure>>, snapshots: seq<seq<seq<int>>>)
      reads this
    {
      Chronicle(logs, start, snapshots) && Steady(snapshots, populationSize) && Along(stages, snapshots)
    }

    /**
     * `Generation`, with what it adds to the log, from where `run` stands at generation
     * `generation` to where it stands at the next, `stages[generation + 1]`.
     */
    method Advance(rng: Source, generation: nat, current: seq<array<int>>, ghost children: seq<Child>,
                   ghost start: seq<LogEntry>, ghost snapshots: seq<seq<seq<int>>>,
                   ghost s0: Stage, ghost stages: seq<Result<Stage, Failure>>)
      returns (r: Result<seq<array<int>>, Failure>, ghost genomes: seq<seq<int>>, ghost next: seq<Child>)
      requires AtStage(rng, stages, generation, current, children) && current != []
      requires populationSize >= 1 ==> population != []
      requires Logged(start, stages, snapshots) && generation == |snapshots|
      requires snapshots != [] ==> |current| == populationSize
      requires Staged(rng.raw, s0, stages) && generation + 1 < |stages|
      modifies this`logs, rng, population
      ensures Valid()
      ensures genomes == old(Genomes(current)) && Logged(start, stages, snapshots + [genomes])
      ensures r.Ok? ==> |r.value| == Clamp(populationSize) && AtStage(rng, stages, generation + 1, r.value, next)
      ensures r.Err? ==> r.error == EmptyCutRange && |maxQuantities| < 2 && populationSize >= 1
      ensures (r.Err? <==> stages[generation + 1].Err?) && (r.Err? ==> r.error == stages[generation + 1].error)
    {
      assert stages[generation] == StageAt(rng.raw, s0, generation);
      assert stages[generation + 1] == StageAt(rng.raw, s0, generation + 1);
      ghost var stage := Stage(Genomes(population), rng.drawn, children);
      ghost var prev := logs;
      r, genomes := Generation(rng, generation, current, children);
      ChronicleStep(prev, start, snapshots, genomes);
      SteadyStep(snapshots, genomes, populationSize);
      AlongStep(stages, snapshots, stage);
      next := children;
      if r.Ok? {
        next := stages[generation + 1].value.current;
      }
    }

    /**
     * `entries` is `before` followed by one entry per snapshot, entry `g` summarizing
     * generation `g`'s non-empty, fitting population.
     */
    ghost predicate Chronicle(entries: seq<LogEntry>, before: seq<LogEntry>, snapshots: seq<seq<seq<int>>>)
    {
      |entries| == |before| + |snapshots| && entries[..|before|] == before &&
      forall g :: 0 <= g < |snapshots| ==>
        snapshots[g] != [] && AllConform(snapshots[g], maxQuantities) &&
        entries[|before| + g] == Summarize(g, Fitnesses(snapshots[g]))
    }

    /** Logging one more generation extends the chronicle. */
    lemma ChronicleStep(entries: seq<LogEntry>, before: seq<LogEntry>, snapshots: seq<seq<seq<int>>>, genomes: seq<seq<int>>)
      requires Chronicle(entries, before, snapshots)
      requires genomes != [] && AllConform(genomes, maxQuantities)
      ensures Chronicle(entries + [Summarize(|snapshots|, Fitnesses(genomes))], before, snapshots + [genomes])
    {
      var extended := entries + [Summarize(|snapshots|, Fitnesses(genomes))];
      assert extended[..|before|] == entries[..|before|];
    }

    /**
     * Entry `g` of a chronicle is the log line of generation `g`: 0-based generation
     * number, and the maximum, mean and minimum of that generation's fitnesses, in order.
     */
    lemma ChronicleEntry(entries: seq<LogEntry>, before: seq<LogEntry>, snapshots: seq<seq<seq<int>>>, g: nat)
      requires Chronicle(entries, before, snapshots) && g < |snapshots|
      ensures var e, f := entries[|before| + g], Fitnesses(snapshots[g]);
        f != [] && e.generation == g && e.best == Max(f) && e.average == Mean(f) && e.worst == Min(f) &&
        e.worst <= e.average <= e.best
    {
      var f := Fitnesses(snapshots[g]);
      var e := entries[|before| + g];
      assert e == Summarize(g, f);
      MaxUnique(f, e.best);
      MinUnique(f, e.worst);
    }

    /** Every snapshot after the first has `n` members. */
    ghost predicate Steady(snapshots: seq<seq<seq<int>>>, n: int)
    {
      forall g :: 0 < g < |snapshots| ==> |snapshots[g]| == n
    }

    /** A snapshot of `n` members, after the first, keeps the snapshots steady. */
    lemma SteadyStep(snapshots: seq<seq<seq<int>>>, genomes: seq<seq<int>>, n: int)
      requires Steady(snapshots, n) && (snapshots != [] ==> |genomes| == n)
      ensures Steady(snapshots + [genomes], n)
    {
    }

    /**
     * One pass of `run`'s generation loop over a non-empty population `current`, the
     * lists of the children `children`: its log entry, then the next population as
     * `NextStage` breeds it.
     */
    method Generation(rng: Source, generation: nat, current: seq<array<int>>, ghost children: seq<Child>)
      returns (r: Result<seq<array<int>>, Failure>, ghost genomes: seq<seq<int>>)
      requires Valid() && Fit(current) && current != [] && Represents(current, children)
      requires populationSize >= 1 ==> population != []
      modifies this`logs, rng, population
      ensures Valid()
      ensures genomes == old(Genomes(current)) && genomes == Contents(old(Genomes(population)), children)
      ensures genomes != [] && AllConform(genomes, maxQuantities)
      ensures logs == old(logs) + [Summarize(generation, Fitnesses(genomes))]
      ensures r.Ok? ==> Fit(r.value) && |r.value| == Clamp(populationSize)
      ensures r.Err? ==> r.error == EmptyCutRange && |maxQuantities| < 2 && populationSize >= 1
      ensures var spec := NextStage(rng.raw, Stage(old(Genomes(population)), old(rng.drawn), children));
        (r.Err? <==> spec.Err?) && (r.Err? ==> r.error == spec.error) &&
        (r.Ok? ==> Genomes(population) == spec.value.pool && rng.drawn == spec.value.drawn &&
                   Represents(r.value, spec.value.current))
    {
      var contents := Genomes(current);
      RepresentsContents(current, children);
      genomes := contents;
      logs := logs + [Summarize(generation, Fitnesses(contents))];
      var bred, born := Breed(rng);
      if bred.Err? {
        r := Err(bred.error);
        return;
      }
      RepresentsPrefix(bred.value, born, Clamp(populationSize));
      r := Ok(bred.value[..Clamp(populationSize)]);
    }

    /**
     * The `while` loop of one generation of `run`: pairs of children, each pair from two
     * tournaments, one crossover and two mutations, until there are at least
     * `populationSize` of them. It makes the `Passes()` passes of `Bred`.
     */
    method Breed(rng: Source) returns (r: Result<seq<array<int>>, Failure>, ghost children: seq<Child>)
      requires Valid() && (populationSize >= 1 ==> population != [])
      modifies rng, population
      ensures Valid()
      ensures var spec := Bred(rng.raw, old(rng.drawn), old(Genomes(population)), Passes());
        (r.Err? <==> spec.Err?) && (r.Err? ==> r.error == spec.error) &&
        (r.Ok? ==> Genomes(population) == spec.value.0 && rng.drawn == spec.value.1 && children == spec.value.2)
      ensures r.Ok? ==>
        Clamp(populationSize) <= |r.value| <= Clamp(populationSize) + 1 && Fit(r.value) && Represents(r.value, children)
      ensures r.Err? ==> r.error == EmptyCutRange && |maxQuantities| < 2 && populationSize >= 1
    {
      PassesCover();
      ghost var trace := BredTrace(rng.raw, rng.drawn, Genomes(population), Passes());
      r, children := BreedLoop(rng, trace);
      assert trace[Passes()] == Bred(rng.raw, old(rng.drawn), old(Genomes(population)), Passes());
    }

    /**
     * The loop of `Breed`, along the outcomes `trace` of its first passes: it stands at
     * `trace[Passes()]`, the last of them, or at the failure of a pass.
     */
    method BreedLoop(rng: Source, ghost trace: seq<Breeding>) returns (r: Result<seq<array<int>>, Failure>, ghost children: seq<Child>)
      requires Valid() && (populationSize >= 1 ==> population != [])
      requires Clamp(populationSize) <= 2 * Passes() <= Clamp(populationSize) + 1
      requires Traces(rng.raw, rng.drawn, Genomes(population), trace) && |trace| == Passes() + 1
      modifies rng, population
      ensures Valid()
      ensures r.Ok? ==>
        Fit(r.value) && Represents(r.value, children) && trace[Passes()] == Ok((Genomes(population), rng.drawn, children))
      ensures r.Err? ==>
        r.error == EmptyCutRange && |maxQuantities| < 2 && populationSize >= 1 && trace[Passes()] == Err(r.error)
    {
      ghost var pool, first := Genomes(population), rng.drawn;
      var newPopulation: seq<array<int>> := [];
      children := [];
      ghost var passes: nat := 0;
      TracesStart(rng.raw, first, pool, trace);
      while |newPopulation| < populationSize
        invariant |newPopulation| == 2 * passes && passes <= Passes()
        invariant Stands(rng, trace, passes, newPopulation, children)
        decreases populationSize - |newPopulation|
      {
        var step, next := BreedPass(rng, newPopulation, first, pool, trace, passes, children);
        if step.Err? {
          r := Err(step.error);
          TracesStop(rng.raw, first, pool, trace, passes + 1, Passes());
          return;
        }
        newPopulation, children, passes := step.value, next, passes + 1;
      }
      assert passes == Passes();
      r := Ok(newPopulation);
    }

    /**
     * Where the loop stands after `passes` passes, along the outcomes `trace`: its local
     * `new_population` so far fits the catalog and is the children `children`,
     * `self.population` is well formed, and both and the draws are at `trace[passes]`.
     */
    ghost predicate Stands(rng: Source, trace: seq<Breeding>, passes: nat, newPopulation: seq<array<int>>, children: seq<Child>)
      reads this, population, rng, newPopulation
    {
      Valid() && Fit(newPopulation) && Represents(newPopulation, children) &&
      passes < |trace| && trace[passes] == Ok((Genomes(population), rng.drawn, children))
    }

    /**
     * One more pass of that loop after `passes` passes, which stand at `trace[passes]`: it
     * appends the pass's two children to `newPopulation` and stands at `trace[passes + 1]`.
     */
    method BreedPass(rng: Source, newPopulation: seq<array<int>>, ghost first: nat, ghost pool: seq<seq<int>>,
                     ghost trace: seq<Breeding>, ghost passes: nat, ghost children: seq<Child>)
      returns (r: Result<seq<array<int>>, Failure>, ghost next: seq<Child>)
      requires Traces(rng.raw, first, pool, trace) && passes + 1 < |trace|
      requires Stands(rng, trace, passes, newPopulation, children)
      modifies rng, population
      ensures Valid()
      ensures r.Err? ==> r.error == EmptyCutRange && |maxQuantities| < 2 && trace[passes + 1] == Err(r.error)
      ensures r.Ok? ==>
        |r.value| == |newPopulation| + 2 && Stands(rng, trace, passes + 1, r.value, next)
    {
      assert trace[passes] == Bred(rng.raw, first, pool, passes);
      assert trace[passes + 1] == Bred(rng.raw, first, pool, passes + 1);
      ghost var pass := Pass(rng.raw, rng.drawn, Genomes(population));
      BredStep(rng.raw, first, pool, passes, (Genomes(population), rng.drawn, children));
      var offspring := Offspring(rng, newPopulation, children);
      if offspring.Err? {
        r, next := Err(offspring.error), children;
        return;
      }
      var (child1, child2) := offspring.value;
      RepresentsPair(newPopulation, children, child1, child2, pass.value.2, pass.value.3);
      FitPair(newPopulation, child1, child2);
      r, next := Ok(newPopulation + [child1, child2]), children + [pass.value.2, pass.value.3];
    }

    /**
     * One pass of that loop: `Mate`, and the mutation of the first child and then of the
     * second, in place. It is `Pass` on the contents of `self.population`, and everything
     * that fitted the catalog before still does.
     */
    method Offspring(rng: Source, ghost others: seq<array<int>>, ghost kin: seq<Child>)
      returns (r: Result<(array<int>, array<int>), Failure>)
      requires Valid() && population != [] && Fit(others) && Represents(others, kin)
      modifies rng, population
      ensures Valid() && Fit(others) && Represents(others, kin)
      ensures r.Ok? ==> Fits(r.value.0) && Fits(r.value.1)
      ensures r.Err? ==> r.error == EmptyCutRange && |maxQuantities| < 2
      ensures var spec := Pass(rng.raw, old(rng.drawn), old(Genomes(population)));
        (r.Err? <==> spec.Err?) && (r.Err? ==> r.error == spec.error) &&
        (r.Ok? ==> Genomes(population) == spec.value.0 && rng.drawn == spec.value.1 &&
                   Holds(r.value.0, spec.value.2) && Holds(r.value.1, spec.value.3))
    {
      ghost var pool, first := Genomes(population), rng.drawn;
      var children := Mate(rng);
      if children.Err? {
        r := Err(children.error);
        return;
      }
      var (child1, child2) := children.value;
      ghost var (born1, born2, next) := Mated(rng.raw, first, pool).value;
      assert Genomes(population) == pool && rng.drawn == next;
      assert born1.Member? ==> child1 in population;
      assert born2.Member? ==> child2 in population;
      ghost var one := MutatedChild(rng.raw, next, pool, born1);
      ghost var two := MutatedChild(rng.raw, one.2, one.0, born2);
      MutatePair(rng, child1, child2, born1, born2, others, kin);
      assert Genomes(population) == two.0 && rng.drawn == two.2;
      PassFrom(rng.raw, first, pool, born1, born2, next);
      r := Ok((child1, child2));
    }

    /**
     * The mutations of a pass: `mutate` of the first child and then of the second, which
     * are the lists of the children `born1` and `born2`. `MutatedChild` twice says what
     * becomes of `self.population`, of the children and of the draws; the lists `others`
     * still fit and are still the children `kin`.
     */
    method MutatePair(rng: Source, child1: array<int>, child2: array<int>, ghost born1: Child, ghost born2: Child,
                      ghost others: seq<array<int>>, ghost kin: seq<Child>)
      requires Valid() && Fit(others) && Represents(others, kin)
      requires Fits(child1) && Fits(child2) && Holds(child1, born1) && Holds(child2, born2)
      requires born1.Born? && born2.Born? ==> child1 != child2
      requires (born1.Born? ==> child1 !in others) && (born2.Born? ==> child2 !in others)
      modifies rng, child1, child2
      ensures Valid() && Fit(others) && Represents(others, kin) && Fits(child1) && Fits(child2)
      ensures var one := MutatedChild(rng.raw, old(rng.drawn), old(Genomes(population)), born1);
        var two := MutatedChild(rng.raw, one.2, one.0, born2);
        Genomes(population) == two.0 && rng.drawn == two.2 && Holds(child1, one.1) && Holds(child2, two.1)
    {
      ghost var one := MutatedChild(rng.raw, rng.drawn, Genomes(population), born1);
      MutateFitting(rng, child1, born1, others);
      assert Holds(child2, born2);
      MutateFitting(rng, child2, born2, others);
      assert Holds(child1, one.1);
      forall t | 0 <= t < |others| ensures Holds(others[t], kin[t]) {
        assert old(Holds(others[t], kin[t]));
      }
    }

    /**
     * The start of that pass: two tournaments and one crossover. It is `Mated` on the
     * contents of `self.population`, the children fit the catalog, and crossed children
     * are two new lists.
     */
    method Mate(rng: Source) returns (r: Result<(array<int>, array<int>), Failure>)
      requires Valid() && population != []
      modifies rng
      ensures r.Ok? ==> Fits(r.value.0) && Fits(r.value.1)
      ensures var spec := Mated(rng.raw, old(rng.drawn), old(Genomes(population)));
        (r.Err? <==> spec.Err?) && (r.Err? ==> r.error == spec.error) &&
        (r.Ok? ==> rng.drawn == spec.value.2 && Holds(r.value.0, spec.value.0) && Holds(r.value.1, spec.value.1) &&
                   (spec.value.0.Born? ==> fresh(r.value.0) && fresh(r.value.1) && r.value.0 != r.value.1))
    {
      ghost var pool, first := Genomes(population), rng.drawn;
      var parent1, choices1, winner1 := FitParent(rng, pool);
      var parent2, choices2, winner2 := FitParent(rng, pool);
      var children, gate, point := Crossover(rng, parent1, parent2);
      r := children;
      MatedCases(rng.raw, first, pool, winner1, winner2, point);
      if gate >= crossoverRate {
        assert Holds(r.value.0, Member(winner1)) && Holds(r.value.1, Member(winner2));
      } else if |maxQuantities| >= 2 {
        var genes := OnePoint(pool[winner1], pool[winner2], point);
        assert r.value.0[..] == genes.0 && r.value.1[..] == genes.1;
        assert r.value.0 !in population && r.value.1 !in population;
        assert Holds(r.value.0, Born(genes.0)) && Holds(r.value.1, Born(genes.1));
      }
    }

    /** `Mated` in terms of the two winners and the cut draw. */
    lemma MatedCases(raw: nat -> nat, first: nat, pool: seq<seq<int>>, winner1: nat, winner2: nat, point: int)
      requires pool != []
      requires winner1 == Winner(pool, Choices(raw, first, |pool|, 3))
      requires winner2 == Winner(pool, Choices(raw, first + 3, |pool|, 3))
      requires UnitValue(raw(first + 6)) < crossoverRate && |maxQuantities| >= 2 ==>
        point == IntValue(raw(first + 7), 1, |maxQuantities| - 1)
      ensures var gate := UnitValue(raw(first + 6));
        Mated(raw, first, pool) ==
          if gate >= crossoverRate then Ok((Member(winner1), Member(winner2), first + 7))
          else if |maxQuantities| < 2 then Err(EmptyCutRange)
          else
            var children := OnePoint(pool[winner1], pool[winner2], point);
            Ok((Born(children.0), Born(children.1), first + 8))
    {
    }

    /** `selection` as `run` calls it: a tournament among three members drawn from raw draw `rng.drawn` on. */
    method FitParent(rng: Source, ghost pool: seq<seq<int>>) returns (parent: array<int>, ghost choices: seq<nat>, ghost winner: nat)
      requires Valid() && population != [] && pool == Genomes(population)
      modifies rng
      ensures rng.drawn == old(rng.drawn) + 3
      ensures choices == Choices(rng.raw, old(rng.drawn), |pool|, 3)
      ensures winner == Winner(pool, choices) && winner < |population| && parent == population[winner]
      ensures Fits(parent)
    {
      parent, choices := Selection(rng);
      winner := Winner(pool, choices);
    }

    /**
     * `mutate` applied to a fitting individual, the list of the child `c`: `MutatedChild`
     * says what becomes of `self.population`, of the child and of the draws. It,
     * `self.population` and `others` still fit.
     */
    method MutateFitting(rng: Source, individual: array<int>, ghost c: Child, ghost others: seq<array<int>>)
      requires Valid() && Fit(others) && Fits(individual) && Holds(individual, c)
      modifies rng, individual
      ensures Valid() && Fit(others) && Fits(individual)
      ensures var spec := MutatedChild(rng.raw, old(rng.drawn), old(Genomes(population)), c);
        Genomes(population) == spec.0 && Holds(individual, spec.1) && rng.drawn == spec.2
    {
      ghost var before, pool := individual[..], Genomes(population);
      ghost var gates, resets, positions := Mutate(rng, individual);
      assert MutationDraws(rng.raw, maxQuantities, mutationRate, gates, resets, positions);
      MutationFollows(rng.raw, before, gates, resets, positions);
      forall k | 0 <= k < |others| ensures Fits(others[k]) {
        if others[k] != individual {
          assert old(Fits(others[k]));
        }
      }
      forall k | 0 <= k < |population|
        ensures Fits(population[k]) && population[k][..] == if population[k] == individual then individual[..] else pool[k]
      {
        if population[k] != individual {
          assert old(Fits(population[k]));
        }
      }
    }

    /** A tournament winner drawn from `self.population` fits the catalog. */
    lemma ParentFits(choices: seq<nat>, winner: array<int>)
      requires Valid() && choices != []
      requires forall j :: 0 <= j < |choices| ==> choices[j] < |population|
      requires winner == Tournament(Pick(population, choices))
      ensures Fits(winner)
    {
      var candidates := Pick(population, choices);
      TournamentBest(candidates);
      var j :| 0 <= j < |candidates| && winner == candidates[j];
      assert winner == population[choices[j]];
    }
  }

  /** `random.choices(population, k)` as the list of drawn members. */
  function Pick(population: seq<array<int>>, choices: seq<nat>): (picked: seq<array<int>>)
    requires forall j :: 0 <= j < |choices| ==> choices[j] < |population|
    ensures |picked| == |choices| && (picked != [] <==> choices != [])
  {
    seq(|choices|, j requires 0 <= j < |choices| => population[choices[j]])
  }
}
