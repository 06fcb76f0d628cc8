/**
 * The experiment harness of utils/AVG.py without its window: `modify_value`, and the
 * bookkeeping of `run_trials` in its three modes over an engine whose runs are given.
 *
 * The engine is `GeneticAlgorithm(...).run()` seen from outside: the outcome of the
 * `k`-th run the harness starts, for a configuration `c`, is `engine(c, k)` (its own
 * random draws are folded into `k`), either a log or the exception it raised.
 * `modify_value`'s own draws come from a `Source`.
 */
module Experiments {
  import opened Wrappers
  import opened Statistics
  import opened Randomness
  import opened Genetic

  /** The value of the "Parameter Change Mode" combobox; `Other` is any other string. */
  datatype ChangeMode = Increase | Decrease | Random | Other(name: string)

  /** The entries of the parameter listbox. */
  datatype Param = PopulationSize | Generations | CrossoverRate | MutationRate

  /** One part of a sweep label: `Pop n`, `Gen n`, `Crossover r`, `Mutation r`. */
  datatype LabelPart = Pop(size: int) | Gen(count: int) | Crossover(rate: real) | Mutation(rate: real)

  /** A sweep label: its parts, which the source joins with `", "`. */
  type Label = seq<LabelPart>

  /** The arguments of one engine run: `base_params` and the three operator comboboxes. */
  datatype Config = Config(
    popSize: int, generations: int, crossoverRate: real, mutationRate: real,
    crossoverType: string, selectionType: string, mutationType: string)

  /** Why `run_trials` stopped: the engine raised, or `max()` met a run with an empty log. */
  datatype TrialsError = EngineFailed(failure: Failure) | EmptyLog

  /** `float('-inf')` or a fitness. */
  datatype ExtReal = NegInf | Fin(value: real)

  /** What `run_trials` plots, per mode. */
  datatype Report =
    | Comparison(series: seq<seq<real>>, extra: seq<real>)      // one series per strategy, then the extra one
    | Sweep(perLabel: map<Label, seq<real>>, order: seq<Label>) // `results_per_label`, keys in insertion order
    | Repeated(results: seq<real>)

  /** The three selection strategies that comparison mode runs, in order. */
  const Strategies: seq<string> := ["tournament", "random", "roulette"]

  // ---- modify_value ----
  // The one Python function `modify_value` is dynamically typed: its random branch tests
  // `isinstance(value, float)`. `ModifyInt` is its `int` branch (`random.randint`) and
  // `ModifyRate` its `float` branch (`random.uniform`); the other branches are shared.

  /**
   * `modify_value` on an integer; `draw` is what `random.randint(minVal, maxVal)` returned,
   * and is only used in random mode with `minVal <= maxVal`.
   */
  function ModifyInt(value: int, mode: ChangeMode, minVal: int, maxVal: int, step: int, draw: int): (r: int)
    requires mode.Random? && minVal <= maxVal ==> minVal <= draw <= maxVal
    ensures mode.Increase? ==> r <= maxVal && r <= value + step && (r == value + step || r == maxVal)
    ensures mode.Decrease? ==> r >= minVal && r >= value - step && (r == value - step || r == minVal)
    ensures mode.Random? && minVal <= maxVal ==> minVal <= r <= maxVal && r == draw
    ensures mode.Random? && minVal > maxVal ==> r == value
    ensures mode.Other? ==> r == value
  {
    match mode
    case Increase => if value + step < maxVal then value + step else maxVal
    case Decrease => if value - step > minVal then value - step else minVal
    case Random => if minVal > maxVal then value else draw
    case Other(_) => value
  }

  /**
   * `modify_value` on a float; `draw` is what `random.uniform(minVal, maxVal)` returned,
   * and is only used in random mode with `minVal <= maxVal`.
   */
  function ModifyRate(value: real, mode: ChangeMode, minVal: real, maxVal: real, step: real, draw: real): (r: real)
    requires mode.Random? && minVal <= maxVal ==> minVal <= draw <= maxVal
    ensures mode.Increase? ==> r <= maxVal && r <= value + step && (r == value + step || r == maxVal)
    ensures mode.Decrease? ==> r >= minVal && r >= value - step && (r == value - step || r == minVal)
    ensures mode.Random? && minVal <= maxVal ==> minVal <= r <= maxVal && r == draw
    ensures mode.Random? && minVal > maxVal ==> r == value
    ensures mode.Other? ==> r == value
  {
    match mode
    case Increase => if value + step < maxVal then value + step else maxVal
    case Decrease => if value - step > minVal then value - step else minVal
    case Random => if minVal > maxVal then value else draw
    case Other(_) => value
  }

  /** `random.uniform(lo, hi)`, `lo + (hi - lo) * random()`, made from one raw draw. */
  function UniformValue(w: nat, lo: real, hi: real): (x: real)
    requires lo <= hi
    ensures lo <= x <= hi
  {
    var u, width := UnitValue(w), hi - lo;
    ScaleBetween(width, u);
    lo + width * u
  }

  /** Scaling by a factor in `[0, 1)` keeps a non-negative width within `[0, width]`. */
  lemma ScaleBetween(width: real, u: real)
    requires width >= 0.0 && 0.0 <= u < 1.0
    ensures 0.0 <= width * u <= width
  {
    assert width - width * u == width * (1.0 - u);
  }

  // ---- the parameters of one sweep run ----

  /** How many draws `modify_value` makes for `n` parameters: one each in random mode. */
  function DrawsFor(mode: ChangeMode, n: nat): nat
  {
    if mode.Random? then n else 0
  }

  /** One branch of the sweep's `for p in params_to_change`, with raw draw `w`. */
  function Step(c: Config, p: Param, mode: ChangeMode, w: nat): (Config, LabelPart)
  {
    match p
    case PopulationSize =>
      var v := ModifyInt(c.popSize, mode, 10, 200, 5, IntValue(w, 10, 200));
      (c.(popSize := v), Pop(v))
    case Generations =>
      var v := ModifyInt(c.generations, mode, 10, 300, 5, IntValue(w, 10, 300));
      (c.(generations := v), Gen(v))
    case CrossoverRate =>
      var v := ModifyRate(c.crossoverRate, mode, 0.3, 1.0, 0.05, UniformValue(w, 0.3, 1.0));
      (c.(crossoverRate := v), Crossover(v))
    case MutationRate =>
      var v := ModifyRate(c.mutationRate, mode, 0.01, 0.3, 0.01, UniformValue(w, 0.01, 0.3));
      (c.(mutationRate := v), Mutation(v))
  }

  /**
   * The configuration and label of one sweep run: the selected parameters changed in
   * order, starting from `base` and from raw draw `first`. Under a mode `modify_value`
   * does not know, the configuration is `base` itself.
   */
  function Swept(base: Config, params: seq<Param>, mode: ChangeMode, raw: nat -> nat, first: nat): (r: (Config, Label))
    ensures mode.Other? ==> r.0 == base
  {
    if params == [] then (base, [])
    else
      var (c, tag) := Swept(base, params[..|params| - 1], mode, raw, first);
      var (c', part) := Step(c, params[|params| - 1], mode, raw(first + DrawsFor(mode, |params| - 1)));
      (c', tag + [part])
  }

  /** The configuration lies within the clamp that `mode` puts on parameter `p`. */
  predicate Bounded(c: Config, p: Param, mode: ChangeMode)
  {
    match p
    case PopulationSize =>
      (mode.Increase? ==> c.popSize <= 200) && (mode.Decrease? ==> c.popSize >= 10) &&
      (mode.Random? ==> 10 <= c.popSize <= 200)
    case Generations =>
      (mode.Increase? ==> c.generations <= 300) && (mode.Decrease? ==> c.generations >= 10) &&
      (mode.Random? ==> 10 <= c.generations <= 300)
    case CrossoverRate =>
      (mode.Increase? ==> c.crossoverRate <= 1.0) && (mode.Decrease? ==> c.crossoverRate >= 0.3) &&
      (mode.Random? ==> 0.3 <= c.crossoverRate <= 1.0)
    case MutationRate =>
      (mode.Increase? ==> c.mutationRate <= 0.3) && (mode.Decrease? ==> c.mutationRate >= 0.01) &&
      (mode.Random? ==> 0.01 <= c.mutationRate <= 0.3)
  }

  /** One more parameter of the sweep: the step for `params[i]`, taking raw draw `at`. */
  lemma SweptNext(base: Config, params: seq<Param>, mode: ChangeMode, raw: nat -> nat, first: nat, i: nat, at: nat,
                  config: Config, tag: Label)
    requires i < |params| && at == first + DrawsFor(mode, i)
    requires Swept(base, params[..i], mode, raw, first) == (config, tag)
    ensures var (c, part) := Step(config, params[i], mode, raw(at));
      Swept(base, params[..i + 1], mode, raw, first) == (c, tag + [part])
  {
    assert params[..i + 1][..i] == params[..i];
  }

  /** `c` and `c'` agree on parameter `p`. */
  predicate Agree(c: Config, c': Config, p: Param)
  {
    match p
    case PopulationSize => c'.popSize == c.popSize
    case Generations => c'.generations == c.generations
    case CrossoverRate => c'.crossoverRate == c.crossoverRate
    case MutationRate => c'.mutationRate == c.mutationRate
  }

  /** The label part that parameter `p` contributes, for the value it has in `c`. */
  function PartOf(c: Config, p: Param): LabelPart
  {
    match p
    case PopulationSize => Pop(c.popSize)
    case Generations => Gen(c.generations)
    case CrossoverRate => Crossover(c.crossoverRate)
    case MutationRate => Mutation(c.mutationRate)
  }

  /**
   * Each run starts from a fresh copy of `base_params`: outside random mode the sweep
   * makes the same configuration and label on every run, whatever the draws.
   */
  lemma {:induction false} SweptSameEveryRun(base: Config, params: seq<Param>, mode: ChangeMode,
                                             raw1: nat -> nat, first1: nat, raw2: nat -> nat, first2: nat)
    requires !mode.Random?
    ensures Swept(base, params, mode, raw1, first1) == Swept(base, params, mode, raw2, first2)
  {
    if params != [] {
      SweptSameEveryRun(base, params[..|params| - 1], mode, raw1, first1, raw2, first2);
    }
  }

  /** One step changes only its own parameter, leaves it within its clamp, and labels it with its new value. */
  lemma StepShape(c: Config, p: Param, mode: ChangeMode, w: nat)
    ensures var (c', part) := Step(c, p, mode, w);
      c'.crossoverType == c.crossoverType && c'.selectionType == c.selectionType &&
      c'.mutationType == c.mutationType &&
      (forall q :: q != p ==> Agree(c, c', q)) &&
      Bounded(c', p, mode) && part == PartOf(c', p)
  {
    match p
    case PopulationSize =>
    case Generations =>
    case CrossoverRate =>
    case MutationRate =>
  }

  /** A swept configuration keeps the operator types and every parameter that is not selected. */
  lemma {:induction false} SweptKeeps(base: Config, params: seq<Param>, mode: ChangeMode, raw: nat -> nat, first: nat)
    ensures var c := Swept(base, params, mode, raw, first).0;
      c.crossoverType == base.crossoverType && c.selectionType == base.selectionType &&
      c.mutationType == base.mutationType &&
      forall p :: p !in params ==> Agree(base, c, p)
  {
    if params != [] {
      var prefix := params[..|params| - 1];
      SweptKeeps(base, prefix, mode, raw, first);
      var c0 := Swept(base, prefix, mode, raw, first).0;
      StepShape(c0, params[|params| - 1], mode, raw(first + DrawsFor(mode, |prefix|)));
      forall p | p !in params
        ensures Agree(base, Swept(base, params, mode, raw, first).0, p)
      {
        assert p !in prefix;
      }
    }
  }

  /** Every selected parameter of a swept configuration is within the clamp of the mode. */
  lemma {:induction false} SweptBounded(base: Config, params: seq<Param>, mode: ChangeMode, raw: nat -> nat, first: nat)
    ensures forall p :: p in params ==> Bounded(Swept(base, params, mode, raw, first).0, p, mode)
  {
    if params != [] {
      var prefix, last := params[..|params| - 1], params[|params| - 1];
      SweptBounded(base, prefix, mode, raw, first);
      var c0 := Swept(base, prefix, mode, raw, first).0;
      StepShape(c0, last, mode, raw(first + DrawsFor(mode, |prefix|)));
      var c := Swept(base, params, mode, raw, first).0;
      forall p | p in params
        ensures Bounded(c, p, mode)
      {
        if p != last {
          assert p in prefix && Agree(c0, c, p);
        }
      }
    }
  }

  /**
   * The label has one part per selected parameter, in order; the part of the last
   * occurrence of a parameter shows the value it ends with.
   */
  lemma {:induction false} SweptLabels(base: Config, params: seq<Param>, mode: ChangeMode, raw: nat -> nat, first: nat)
    ensures var (c, tag) := Swept(base, params, mode, raw, first);
      |tag| == |params| &&
      forall i :: 0 <= i < |params| && params[i] !in params[i + 1..] ==> tag[i] == PartOf(c, params[i])
  {
    if params != [] {
      var prefix, last := params[..|params| - 1], params[|params| - 1];
      SweptLabels(base, prefix, mode, raw, first);
      var (c0, tag0) := Swept(base, prefix, mode, raw, first);
      StepShape(c0, last, mode, raw(first + DrawsFor(mode, |prefix|)));
      var (c, tag) := Swept(base, params, mode, raw, first);
      forall i | 0 <= i < |params| && params[i] !in params[i + 1..]
        ensures tag[i] == PartOf(c, params[i])
      {
        if i < |prefix| {
          assert last in params[i + 1..];
          assert prefix[i] == params[i] && params[i] != last && Agree(c0, c, params[i]);
          assert tag[i] == tag0[i];
        }
      }
    }
  }

  // ---- one run and its log ----

  /** `[float(log["best"]) for log in logs]`. */
  function Bests(logs: seq<LogEntry>): (bests: seq<real>)
    ensures |bests| == |logs| && forall g :: 0 <= g < |logs| ==> bests[g] == logs[g].best
  {
    if logs == [] then [] else Bests(logs[..|logs| - 1]) + [logs[|logs| - 1].best]
  }

  /** The `average` field of every entry of a log. */
  function Averages(logs: seq<LogEntry>): (averages: seq<real>)
    ensures |averages| == |logs| && forall g :: 0 <= g < |logs| ==> averages[g] == logs[g].average
  {
    if logs == [] then [] else Averages(logs[..|logs| - 1]) + [logs[|logs| - 1].average]
  }

  /**
   * A run's reported fitness, `max(float(log["best"]) for log in logs)`: the largest
   * `best` of the log, one that it holds; `None` for an empty log, where `max` raises.
   */
  function BestOfRun(logs: seq<LogEntry>): (b: Option<real>)
    ensures b.Some? <==> logs != []
  {
    if logs == [] then None
    else
      var earlier := BestOfRun(logs[..|logs| - 1]);
      var last := logs[|logs| - 1].best;
      if earlier.None? || earlier.value < last then Some(last) else earlier
  }

  /** That value is the maximum of the log's `best` column: it bounds every entry and is one of them. */
  lemma {:induction false} BestOfRunIsMax(logs: seq<LogEntry>)
    requires logs != []
    ensures BestOfRun(logs) == Some(Max(Bests(logs)))
    ensures forall g :: 0 <= g < |logs| ==> logs[g].best <= BestOfRun(logs).value
    ensures exists g :: 0 <= g < |logs| && logs[g].best == BestOfRun(logs).value
  {
    if |logs| > 1 {
      var prefix := logs[..|logs| - 1];
      BestOfRunIsMax(prefix);
      assert Bests(logs)[..|logs| - 1] == Bests(prefix);
    }
  }

  /** The reported fitness of the engine run numbered `call`, or why there is none. */
  function Trial(engine: (Config, nat) -> Result<seq<LogEntry>, Failure>, config: Config, call: nat): Result<real, TrialsError>
  {
    match engine(config, call)
    case Err(f) => Err(EngineFailed(f))
    case Ok(logs) => if logs == [] then Err(EmptyLog) else Ok(BestOfRun(logs).value)
  }

  /**
   * A run's reported fitness: the engine's exception, `max()` of an empty log, or the
   * highest `best` of its log.
   */
  lemma TrialOutcome(engine: (Config, nat) -> Result<seq<LogEntry>, Failure>, config: Config, call: nat)
    ensures var r := Trial(engine, config, call);
      (r.Err? <==> engine(config, call).Err? || engine(config, call).value == []) &&
      (engine(config, call).Err? ==> r == Err(EngineFailed(engine(config, call).error))) &&
      (r.Ok? ==> r.value == Max(Bests(engine(config, call).value)))
  {
    if engine(config, call).Ok? && engine(config, call).value != [] {
      BestOfRunIsMax(engine(config, call).value);
    }
  }

  /** The log of engine run `call`, empty when it raised. */
  function RunLogs(engine: (Config, nat) -> Result<seq<LogEntry>, Failure>, config: Config, call: nat): seq<LogEntry>
  {
    match engine(config, call)
    case Err(_) => []
    case Ok(logs) => logs
  }

  /**
   * The `results` of `count` runs of one configuration, numbered from `first`: the
   * first error stops the loop, as the exception does in the source.
   */
  function Trials(engine: (Config, nat) -> Result<seq<LogEntry>, Failure>, config: Config, count: nat, first: nat)
    : (r: Result<seq<real>, TrialsError>)
    ensures r.Ok? ==> |r.value| == count
  {
    if count == 0 then Ok([])
    else
      match Trials(engine, config, count - 1, first)
      case Err(e) => Err(e)
      case Ok(results) =>
        match Trial(engine, config, first + count - 1)
        case Err(e) => Err(e)
        case Ok(best) => Ok(results + [best])
  }

  /** `count` runs succeed exactly when each does, and the results are theirs, in run order. */
  lemma {:induction false} TrialsInOrder(engine: (Config, nat) -> Result<seq<LogEntry>, Failure>, config: Config, count: nat, first: nat)
    ensures Trials(engine, config, count, first).Ok? <==>
      forall k :: first <= k < first + count ==> Trial(engine, config, k).Ok?
    ensures Trials(engine, config, count, first).Ok? ==>
      forall i :: 0 <= i < count ==> Ok(Trials(engine, config, count, first).value[i]) == Trial(engine, config, first + i)
  {
    if count > 0 {
      TrialsInOrder(engine, config, count - 1, first);
    }
  }

  /** After `count` successful runs, the next run (engine run `next`) decides the loop of `count + 1`. */
  lemma TrialsNext(engine: (Config, nat) -> Result<seq<LogEntry>, Failure>, config: Config, count: nat, first: nat,
                   next: nat, results: seq<real>)
    requires next == first + count && Trials(engine, config, count, first) == Ok(results)
    ensures var t := Trial(engine, config, next);
      Trials(engine, config, count + 1, first) == if t.Err? then Err(t.error) else Ok(results + [t.value])
  {
  }

  /** Once `k` runs stop with an error, any longer loop stops with the same error. */
  lemma {:induction false} TrialsStop(engine: (Config, nat) -> Result<seq<LogEntry>, Failure>, config: Config, k: nat, count: nat, first: nat)
    requires k <= count && Trials(engine, config, k, first).Err?
    ensures Trials(engine, config, count, first) == Trials(engine, config, k, first)
  {
    if k < count {
      TrialsStop(engine, config, k, count - 1, first);
    }
  }

  /**
   * The series of comparison mode, one per selection type in `kinds`, each of `n`
   * runs, the engine runs numbered on from `first`.
   */
  function Lineup(engine: (Config, nat) -> Result<seq<LogEntry>, Failure>, base: Config, kinds: seq<string>, n: nat, first: nat)
    : (r: Result<seq<seq<real>>, TrialsError>)
    ensures r.Ok? ==> |r.value| == |kinds| && forall i :: 0 <= i < |kinds| ==> |r.value[i]| == n
  {
    if kinds == [] then Ok([])
    else
      match Lineup(engine, base, kinds[..|kinds| - 1], n, first)
      case Err(e) => Err(e)
      case Ok(series) =>
        match Trials(engine, base.(selectionType := kinds[|kinds| - 1]), n, first + Offset(|kinds| - 1, n))
        case Err(e) => Err(e)
        case Ok(results) => Ok(series + [results])
  }

  /** `i * n`, the number of engine runs that `i` series of `n` runs make. */
  function Offset(i: nat, n: nat): nat
  {
    if i == 0 then 0 else Offset(i - 1, n) + n
  }

  /** `Offset` counts `i` series of `n` runs each. */
  lemma {:induction false} OffsetProduct(i: nat, n: nat)
    ensures Offset(i, n) == i * n
  {
    if i > 0 {
      OffsetProduct(i - 1, n);
    }
  }

  /** Series `i` of a lineup is `n` runs with selection type `kinds[i]`, after the `i * n` runs before it. */
  lemma {:induction false} LineupSeries(engine: (Config, nat) -> Result<seq<LogEntry>, Failure>, base: Config, kinds: seq<string>, n: nat, first: nat, i: nat)
    requires Lineup(engine, base, kinds, n, first).Ok? && i < |kinds|
    ensures Ok(Lineup(engine, base, kinds, n, first).value[i]) == Trials(engine, base.(selectionType := kinds[i]), n, first + Offset(i, n))
  {
    var prefix := kinds[..|kinds| - 1];
    if i < |prefix| {
      LineupSeries(engine, base, prefix, n, first, i);
      assert kinds[i] == prefix[i];
    }
  }

  /** One more series of the lineup: series `i` takes the engine runs from call `next` on. */
  lemma LineupNext(engine: (Config, nat) -> Result<seq<LogEntry>, Failure>, base: Config, kinds: seq<string>, i: nat,
                   n: nat, first: nat, next: nat, series: seq<seq<real>>)
    requires i < |kinds| && next == first + Offset(i, n)
    requires Lineup(engine, base, kinds[..i], n, first) == Ok(series)
    ensures var t := Trials(engine, base.(selectionType := kinds[i]), n, next);
      Lineup(engine, base, kinds[..i + 1], n, first) == if t.Err? then Err(t.error) else Ok(series + [t.value])
  {
    assert kinds[..i + 1][..i] == kinds[..i];
  }

  /** Once the first `j` series stop with an error, the whole lineup stops with it. */
  lemma {:induction false} LineupStop(engine: (Config, nat) -> Result<seq<LogEntry>, Failure>, base: Config, kinds: seq<string>, j: nat, n: nat, first: nat)
    requires j <= |kinds| && Lineup(engine, base, kinds[..j], n, first).Err?
    ensures Lineup(engine, base, kinds, n, first) == Lineup(engine, base, kinds[..j], n, first)
  {
    if j < |kinds| {
      var prefix := kinds[..|kinds| - 1];
      assert prefix[..j] == kinds[..j];
      LineupStop(engine, base, prefix, j, n, first);
    } else {
      assert kinds[..j] == kinds;
    }
  }

  // ---- the sweep ----

  /**
   * The labels and `best_fitness` values of `count` sweep runs: run `k` adjusts the
   * parameters with the raw draws from `first + k * DrawsFor(mode, |params|)` on and is
   * engine run `call + k`; the first error stops the sweep.
   */
  function SweepTrials(engine: (Config, nat) -> Result<seq<LogEntry>, Failure>, base: Config, params: seq<Param>,
                       mode: ChangeMode, raw: nat -> nat, first: nat, count: nat, call: nat)
    : (r: Result<(seq<Label>, seq<real>), TrialsError>)
    ensures r.Ok? ==> |r.value.0| == count && |r.value.1| == count
  {
    if count == 0 then Ok(([], []))
    else
      match SweepTrials(engine, base, params, mode, raw, first, count - 1, call)
      case Err(e) => Err(e)
      case Ok((labels, results)) =>
        var (config, tag) := RunPlan(base, params, mode, raw, first, count - 1);
        match Trial(engine, config, call + (count - 1))
        case Err(e) => Err(e)
        case Ok(best) => Ok((labels + [tag], results + [best]))
  }

  /** After `count` sweep runs, the next run (engine run `next`) decides the sweep of `count + 1`. */
  lemma SweepTrialsNext(engine: (Config, nat) -> Result<seq<LogEntry>, Failure>, base: Config, params: seq<Param>,
                        mode: ChangeMode, raw: nat -> nat, first: nat, count: nat, call: nat, next: nat,
                        labels: seq<Label>, results: seq<real>)
    requires next == call + count
    requires SweepTrials(engine, base, params, mode, raw, first, count, call) == Ok((labels, results))
    ensures var (config, tag) := RunPlan(base, params, mode, raw, first, count);
      var t := Trial(engine, config, next);
      SweepTrials(engine, base, params, mode, raw, first, count + 1, call) ==
        if t.Err? then Err(t.error) else Ok((labels + [tag], results + [t.value]))
  {
  }

  /** Once `k` sweep runs stop with an error, any longer sweep stops with the same error. */
  lemma {:induction false} SweepTrialsStop(engine: (Config, nat) -> Result<seq<LogEntry>, Failure>, base: Config,
                                           params: seq<Param>, mode: ChangeMode, raw: nat -> nat, first: nat,
                                           k: nat, count: nat, call: nat)
    requires k <= count && SweepTrials(engine, base, params, mode, raw, first, k, call).Err?
    ensures SweepTrials(engine, base, params, mode, raw, first, count, call) ==
      SweepTrials(engine, base, params, mode, raw, first, k, call)
  {
    if k < count {
      SweepTrialsStop(engine, base, params, mode, raw, first, k, count - 1, call);
    }
  }

  /** The parameters and label of sweep run `k`, after the draws of the `k` runs before it. */
  function RunPlan(base: Config, params: seq<Param>, mode: ChangeMode, raw: nat -> nat, first: nat, k: nat): (Config, Label)
  {
    Swept(base, params, mode, raw, first + Offset(k, DrawsFor(mode, |params|)))
  }

  /** Engine run `call + k`, on the parameters of sweep run `k`, succeeds. */
  predicate RunSucceeds(engine: (Config, nat) -> Result<seq<LogEntry>, Failure>, base: Config, params: seq<Param>,
                        mode: ChangeMode, raw: nat -> nat, first: nat, call: nat, k: nat)
  {
    Trial(engine, RunPlan(base, params, mode, raw, first, k).0, call + k).Ok?
  }

  /** A sweep succeeds exactly when each of its runs does. */
  lemma {:induction false} SweepTrialsSucceed(engine: (Config, nat) -> Result<seq<LogEntry>, Failure>, base: Config,
                                              params: seq<Param>, mode: ChangeMode, raw: nat -> nat, first: nat,
                                              count: nat, call: nat)
    ensures SweepTrials(engine, base, params, mode, raw, first, count, call).Ok? <==>
      forall k :: 0 <= k < count ==> RunSucceeds(engine, base, params, mode, raw, first, call, k)
  {
    if count > 0 {
      SweepTrialsSucceed(engine, base, params, mode, raw, first, count - 1, call);
      SweepTrialsOkStep(engine, base, params, mode, raw, first, count, call);
      assert (forall k :: 0 <= k < count ==> RunSucceeds(engine, base, params, mode, raw, first, call, k)) <==>
        (forall k :: 0 <= k < count - 1 ==> RunSucceeds(engine, base, params, mode, raw, first, call, k)) &&
        RunSucceeds(engine, base, params, mode, raw, first, call, count - 1);
    }
  }

  /** A sweep of `count` runs succeeds when the first `count - 1` do and the last one does. */
  lemma SweepTrialsOkStep(engine: (Config, nat) -> Result<seq<LogEntry>, Failure>, base: Config,
                          params: seq<Param>, mode: ChangeMode, raw: nat -> nat, first: nat, count: nat, call: nat)
    requires count > 0
    ensures SweepTrials(engine, base, params, mode, raw, first, count, call).Ok? <==>
      SweepTrials(engine, base, params, mode, raw, first, count - 1, call).Ok? &&
      RunSucceeds(engine, base, params, mode, raw, first, call, count - 1)
  {
  }

  /** Run `k` of a successful sweep contributes the label of its plan and the fitness of its engine run. */
  lemma {:induction false} SweepTrialsInOrder(engine: (Config, nat) -> Result<seq<LogEntry>, Failure>, base: Config,
                                              params: seq<Param>, mode: ChangeMode, raw: nat -> nat, first: nat,
                                              count: nat, call: nat, k: nat)
    requires SweepTrials(engine, base, params, mode, raw, first, count, call).Ok? && k < count
    ensures var r := SweepTrials(engine, base, params, mode, raw, first, count, call).value;
      r.0[k] == RunPlan(base, params, mode, raw, first, k).1 &&
      Ok(r.1[k]) == Trial(engine, RunPlan(base, params, mode, raw, first, k).0, call + k)
  {
    if k < count - 1 {
      SweepTrialsInOrder(engine, base, params, mode, raw, first, count - 1, call, k);
    }
  }

  /** Without random draws every sweep run has the same parameters, so all results share one label. */
  lemma SweepOneLabel(engine: (Config, nat) -> Result<seq<LogEntry>, Failure>, base: Config, params: seq<Param>,
                      mode: ChangeMode, raw: nat -> nat, first: nat, count: nat, call: nat)
    requires !mode.Random? && count > 0
    requires SweepTrials(engine, base, params, mode, raw, first, count, call).Ok?
    ensures var labels := SweepTrials(engine, base, params, mode, raw, first, count, call).value.0;
      FirstSeen(labels) == [Swept(base, params, mode, raw, first).1]
  {
    var labels := SweepTrials(engine, base, params, mode, raw, first, count, call).value.0;
    forall k | 0 <= k < count
      ensures labels[k] == Swept(base, params, mode, raw, first).1
    {
      SweepTrialsInOrder(engine, base, params, mode, raw, first, count, call, k);
      SweptSameEveryRun(base, params, mode, raw, first + Offset(k, DrawsFor(mode, |params|)), raw, first);
    }
    FirstSeenConstant(labels, Swept(base, params, mode, raw, first).1);
  }

  // ---- results_per_label ----

  /** `results_per_label` after the runs with these labels and results. */
  function Grouped(labels: seq<Label>, results: seq<real>): (m: map<Label, seq<real>>)
    requires |labels| == |results|
  {
    if labels == [] then map[]
    else
      var m := Grouped(labels[..|labels| - 1], results[..|results| - 1]);
      var tag := labels[|labels| - 1];
      m[tag := (if tag in m then m[tag] else []) + [results[|results| - 1]]]
  }

  /** The distinct labels in the order they first occur: the key order of the dictionary. */
  function FirstSeen(labels: seq<Label>): (order: seq<Label>)
    ensures forall l :: l in order <==> l in labels
    ensures forall i, j :: 0 <= i < j < |order| ==> order[i] != order[j]
  {
    if labels == [] then []
    else
      var order := FirstSeen(labels[..|labels| - 1]);
      var tag := labels[|labels| - 1];
      assert forall l :: l in labels <==> l in labels[..|labels| - 1] || l == tag;
      if tag in order then order else order + [tag]
  }

  /** Labels that are all the same make a single key. */
  lemma {:induction false} FirstSeenConstant(labels: seq<Label>, tag: Label)
    requires labels != [] && forall k :: 0 <= k < |labels| ==> labels[k] == tag
    ensures FirstSeen(labels) == [tag]
  {
    if |labels| > 1 {
      FirstSeenConstant(labels[..|labels| - 1], tag);
    }
  }

  /**
   * One more run of label `tag` and fitness `x`: its list gets `x` at the end, created
   * empty first when the label is new, which also puts the label last in the key order.
   */
  lemma GroupedStep(labels: seq<Label>, results: seq<real>, tag: Label, x: real)
    requires |labels| == |results|
    ensures var m := Grouped(labels, results);
      Grouped(labels + [tag], results + [x]) == m[tag := (if tag in m then m[tag] else []) + [x]]
    ensures FirstSeen(labels + [tag]) ==
      if tag in FirstSeen(labels) then FirstSeen(labels) else FirstSeen(labels) + [tag]
  {
    assert (labels + [tag])[..|labels|] == labels;
    assert (results + [x])[..|results|] == results;
  }

  /** The results of the runs labelled `label`, in run order. */
  function Only(labels: seq<Label>, results: seq<real>, tag: Label): seq<real>
    requires |labels| == |results|
  {
    if labels == [] then []
    else
      Only(labels[..|labels| - 1], results[..|results| - 1], tag) +
      (if labels[|labels| - 1] == tag then [results[|results| - 1]] else [])
  }

  /** How many results the lists of `order` hold together. */
  function Total(order: seq<Label>, perLabel: map<Label, seq<real>>): nat
    requires forall l :: l in order ==> l in perLabel
  {
    if order == [] then 0 else Total(order[..|order| - 1], perLabel) + |perLabel[order[|order| - 1]]|
  }

  /**
   * The dictionary has a key for each label that occurred, and no other, and each key's
   * list is the results of the runs with that label, in run order.
   */
  lemma {:induction false} GroupedByLabel(labels: seq<Label>, results: seq<real>)
    requires |labels| == |results|
    ensures forall l :: l in Grouped(labels, results) <==> l in labels
    ensures forall l :: l in labels ==> Grouped(labels, results)[l] == Only(labels, results, l)
  {
    if labels != [] {
      var prefix := labels[..|labels| - 1];
      GroupedByLabel(prefix, results[..|results| - 1]);
      assert forall l :: l in labels <==> l in prefix || l == labels[|labels| - 1];
      forall l | l in labels && l !in prefix
        ensures Only(prefix, results[..|results| - 1], l) == []
      {
        OnlyAbsent(prefix, results[..|results| - 1], l);
      }
    }
  }

  /** A label that never occurred has no results. */
  lemma {:induction false} OnlyAbsent(labels: seq<Label>, results: seq<real>, tag: Label)
    requires |labels| == |results| && tag !in labels
    ensures Only(labels, results, tag) == []
  {
    if labels != [] {
      OnlyAbsent(labels[..|labels| - 1], results[..|results| - 1], tag);
    }
  }

  /** Over the labels in key order, the lists hold exactly one result per run. */
  lemma {:induction false} GroupedTotal(labels: seq<Label>, results: seq<real>)
    requires |labels| == |results|
    ensures forall l :: l in FirstSeen(labels) ==> l in Grouped(labels, results)
    ensures Total(FirstSeen(labels), Grouped(labels, results)) == |results|
  {
    GroupedByLabel(labels, results);
    if labels != [] {
      var prefix, before := labels[..|labels| - 1], results[..|results| - 1];
      var tag := labels[|labels| - 1];
      GroupedTotal(prefix, before);
      GroupedByLabel(prefix, before);
      var m, m' := Grouped(prefix, before), Grouped(labels, results);
      var order := FirstSeen(prefix);
      if tag in order {
        TotalBump(order, m, tag, results[|results| - 1]);
      } else {
        TotalAgree(order, m, m');
        assert FirstSeen(labels) == order + [tag];
        assert (order + [tag])[..|order|] == order;
      }
    }
  }

  /** Appending one result to one listed label's list adds one to the total. */
  lemma {:induction false} TotalBump(order: seq<Label>, perLabel: map<Label, seq<real>>, tag: Label, x: real)
    requires forall l :: l in order ==> l in perLabel
    requires tag in order && forall i, j :: 0 <= i < j < |order| ==> order[i] != order[j]
    ensures Total(order, perLabel[tag := perLabel[tag] + [x]]) == Total(order, perLabel) + 1
  {
    var bumped := perLabel[tag := perLabel[tag] + [x]];
    var prefix := order[..|order| - 1];
    if order[|order| - 1] == tag {
      assert tag !in prefix;
      TotalAgree(prefix, perLabel, bumped);
    } else {
      assert tag in prefix;
      TotalBump(prefix, perLabel, tag, x);
    }
  }

  /** Two dictionaries that agree on the labels of `order` have the same total over it. */
  lemma {:induction false} TotalAgree(order: seq<Label>, m1: map<Label, seq<real>>, m2: map<Label, seq<real>>)
    requires forall l :: l in order ==> l in m1 && l in m2 && m1[l] == m2[l]
    ensures Total(order, m1) == Total(order, m2)
  {
    if order != [] {
      TotalAgree(order[..|order| - 1], m1, m2);
    }
  }

  // ---- log["avg"] ----

  /** A log entry as the dictionary `run` appends, with its four keys. */
  function Record(e: LogEntry): (r: map<string, real>)
    ensures r.Keys == {"generation", "best", "average", "worst"}
    ensures r["best"] == e.best && r["average"] == e.average && r["worst"] == e.worst
  {
    map["generation" := e.generation as real, "best" := e.best, "average" := e.average, "worst" := e.worst]
  }

  /** `[float(log[key]) for log in logs]`; `None` where a log lacks the key and Python raises `KeyError`. */
  function Column(logs: seq<LogEntry>, key: string): (r: Option<seq<real>>)
    ensures r.Some? ==> |r.value| == |logs| && forall i :: 0 <= i < |logs| ==> key in Record(logs[i]) && r.value[i] == Record(logs[i])[key]
  {
    if logs == [] then Some([])
    else
      match Column(logs[..|logs| - 1], key)
      case None => None
      case Some(values) =>
        var record := Record(logs[|logs| - 1]);
        if key in record then Some(values + [record[key]]) else None
  }

  /** As written, the default mode reads `log["avg"]`, a key no log entry has: any non-empty log raises. */
  lemma {:induction false} AvgColumnMissing(logs: seq<LogEntry>)
    requires logs != []
    ensures Column(logs, "avg") == None
  {
    if |logs| > 1 {
      AvgColumnMissing(logs[..|logs| - 1]);
    } else {
      assert "avg" !in Record(logs[0]);
    }
  }

  /** The `best` and `average` columns are the fields themselves, in generation order. */
  lemma {:induction false} NamedColumns(logs: seq<LogEntry>)
    ensures Column(logs, "best") == Some(Bests(logs))
    ensures Column(logs, "average") == Some(Averages(logs))
  {
    if logs != [] {
      NamedColumns(logs[..|logs| - 1]);
      assert Bests(logs) == Bests(logs[..|logs| - 1]) + [logs[|logs| - 1].best];
      assert Averages(logs) == Averages(logs[..|logs| - 1]) + [logs[|logs| - 1].average];
    }
  }

  /**
   * The best-run fields after the default-mode runs `results`, numbered from call
   * `first`: none yet, or the first run of highest fitness with that run's columns.
   */
  ghost predicate Tracked(engine: (Config, nat) -> Result<seq<LogEntry>, Failure>, config: Config, first: nat,
                          results: seq<real>, fitness: ExtReal, index: int, bests: seq<real>, averages: seq<real>)
  {
    if results == [] then fitness == NegInf && index == -1
    else
      index == FirstArgMax(results) && fitness == Fin(results[index]) &&
      bests == Bests(RunLogs(engine, config, first + index)) &&
      averages == Averages(RunLogs(engine, config, first + index))
  }

  /**
   * A run of fitness `x` that strictly beats the best so far takes over the best-run
   * fields, with the columns of its own log `logs`: they then describe the first run
   * of highest fitness again.
   */
  lemma TrackedImprove(engine: (Config, nat) -> Result<seq<LogEntry>, Failure>, config: Config, first: nat,
                       results: seq<real>, x: real, fitness: ExtReal, index: int, bests: seq<real>, averages: seq<real>,
                       call: nat, logs: seq<LogEntry>)
    requires Tracked(engine, config, first, results, fitness, index, bests, averages)
    requires fitness.NegInf? || x > fitness.value
    requires call == first + |results| && logs == RunLogs(engine, config, call)
    ensures Tracked(engine, config, first, results + [x], Fin(x), |results|, Bests(logs), Averages(logs))
  {
    if results != [] {
      ExtendByOne(results, x);
    }
  }

  /** A run that only ties or falls short of the best so far leaves the best-run fields as they are. */
  lemma TrackedKeep(engine: (Config, nat) -> Result<seq<LogEntry>, Failure>, config: Config, first: nat,
                    results: seq<real>, x: real, fitness: ExtReal, index: int, bests: seq<real>, averages: seq<real>)
    requires Tracked(engine, config, first, results, fitness, index, bests, averages)
    requires fitness.Fin? && x <= fitness.value
    ensures Tracked(engine, config, first, results + [x], fitness, index, bests, averages)
  {
    ExtendByOne(results, x);
    assert (results + [x])[index] == results[index];
  }

  // ---- the harness object ----

  class GAApp {
    /** The outcome of the `k`-th engine run of configuration `c`. */
    const engine: (Config, nat) -> Result<seq<LogEntry>, Failure>
    /** How many engine runs have been started. */
    var calls: nat
    /**
     * `self.best_run_fitness`, `self.best_run_index`, `self.best_fitness_per_gen`, `self.avg_fitness_per_gen`.
     * `__init__` does not create them; default mode does. Until then `NegInf`, `-1` and `[]`
     * stand for "not yet set".
     */
    var bestRunFitness: ExtReal
    var bestRunIndex: int
    var bestFitnessPerGen: seq<real>
    var avgFitnessPerGen: seq<real>

    constructor (engine: (Config, nat) -> Result<seq<LogEntry>, Failure>)
      ensures this.engine == engine && calls == 0
      ensures bestRunFitness == NegInf && bestRunIndex == -1
      ensures bestFitnessPerGen == [] && avgFitnessPerGen == []
    {
      this.engine := engine;
      calls := 0;
      bestRunFitness, bestRunIndex := NegInf, -1;
      bestFitnessPerGen, avgFitnessPerGen := [], [];
    }

    /** `ga = GeneticAlgorithm(...)`, `logs = ga.run()` and the run's `best_fitness`. */
    method RunOnce(config: Config) returns (r: Result<real, TrialsError>, logs: seq<LogEntry>)
      modifies this`calls
      ensures calls == old(calls) + 1
      ensures r == Trial(engine, config, old(calls)) && logs == RunLogs(engine, config, old(calls))
    {
      var outcome := engine(config, calls);
      calls := calls + 1;
      if outcome.Err? {
        r, logs := Err(EngineFailed(outcome.error)), [];
        return;
      }
      logs := outcome.value;
      var best := BestOfRun(logs);
      r := if best.None? then Err(EmptyLog) else Ok(best.value);
    }

    /** One `for run in range(1, runs + 1)` loop of comparison mode. */
    method Series(config: Config, count: nat) returns (r: Result<seq<real>, TrialsError>)
      modifies this`calls
      ensures r == Trials(engine, config, count, old(calls))
      ensures r.Ok? ==> calls == old(calls) + count
    {
      var results := [];
      for run := 0 to count
        invariant calls == old(calls) + run
        invariant Trials(engine, config, run, old(calls)) == Ok(results)
      {
        var best, _ := RunOnce(config);
        if best.Err? {
          assert Trials(engine, config, run + 1, old(calls)).Err?;
          TrialsStop(engine, config, run + 1, count, old(calls));
          r := Err(best.error);
          return;
        }
        assert Trials(engine, config, run + 1, old(calls)) == Ok(results + [best.value]);
        results := results + [best.value];
      }
      r := Ok(results);
    }

    /** Comparison mode: `runs` runs with each strategy of `Strategies`, then `runs` with the chosen one. */
    method CompareSelection(base: Config, count: nat) returns (r: Result<Report, TrialsError>)
      modifies this`calls
      ensures var lineup := Lineup(engine, base, Strategies + [base.selectionType], count, old(calls));
        (r.Err? <==> lineup.Err?) && (r.Err? ==> r.error == lineup.error) &&
        (r.Ok? ==> r == Ok(Comparison(lineup.value[..3], lineup.value[3])))
      ensures r.Ok? ==> calls == old(calls) + (|Strategies| + 1) * count
    {
      var kinds := Strategies + [base.selectionType];
      var series := [];
      for i := 0 to 4
        invariant calls == old(calls) + Offset(i, count)
        invariant Lineup(engine, base, kinds[..i], count, old(calls)) == Ok(series)
      {
        LineupNext(engine, base, kinds, i, count, old(calls), calls, series);
        var results := Series(base.(selectionType := kinds[i]), count);
        if results.Err? {
          LineupStop(engine, base, kinds, i + 1, count, old(calls));
          r := Err(results.error);
          return;
        }
        series := series + [results.value];
      }
      assert kinds[..4] == kinds;
      OffsetProduct(4, count);
      r := Ok(Comparison(series[..3], series[3]));
    }

    /** The parameters and label of one sweep run: `params = base_params.copy()` and the `for p` loop. */
    method Adjust(rng: Source, base: Config, params: seq<Param>, mode: ChangeMode) returns (config: Config, tag: Label)
      modifies rng
      ensures (config, tag) == Swept(base, params, mode, rng.raw, old(rng.drawn))
      ensures rng.drawn == old(rng.drawn) + DrawsFor(mode, |params|)
    {
      config, tag := base, [];
      for i := 0 to |params|
        invariant (config, tag) == Swept(base, params[..i], mode, rng.raw, old(rng.drawn))
        invariant rng.drawn == old(rng.drawn) + DrawsFor(mode, i)
      {
        SweptNext(base, params, mode, rng.raw, old(rng.drawn), i, rng.drawn, config, tag);
        var part;
        config, part := Change(rng, config, params[i], mode);
        tag := tag + [part];
      }
      assert params[..|params|] == params;
    }

    /** One pass of the `for p` loop of the sweep: the branch of `modify_value` for parameter `p`. */
    method Change(rng: Source, c: Config, p: Param, mode: ChangeMode) returns (config: Config, part: LabelPart)
      modifies rng
      ensures (config, part) == Step(c, p, mode, rng.raw(old(rng.drawn)))
      ensures rng.drawn == old(rng.drawn) + DrawsFor(mode, 1)
    {
      match p
      case PopulationSize =>
        var draw := 0;
        if mode.Random? {
          draw := rng.RandInt(10, 200);
        }
        var v := ModifyInt(c.popSize, mode, 10, 200, 5, draw);
        config, part := c.(popSize := v), Pop(v);
      case Generations =>
        var draw := 0;
        if mode.Random? {
          draw := rng.RandInt(10, 300);
        }
        var v := ModifyInt(c.generations, mode, 10, 300, 5, draw);
        config, part := c.(generations := v), Gen(v);
      case CrossoverRate =>
        var draw := 0.3;
        if mode.Random? {
          var u := rng.Random();
          draw := 0.3 + (1.0 - 0.3) * u;
        }
        var v := ModifyRate(c.crossoverRate, mode, 0.3, 1.0, 0.05, draw);
        config, part := c.(crossoverRate := v), Crossover(v);
      case MutationRate =>
        var draw := 0.01;
        if mode.Random? {
          var u := rng.Random();
          draw := 0.01 + (0.3 - 0.01) * u;
        }
        var v := ModifyRate(c.mutationRate, mode, 0.01, 0.3, 0.01, draw);
        config, part := c.(mutationRate := v), Mutation(v);
    }

    /** One sweep run: its parameters and label from `Adjust`, then the engine run on them. */
    method SweepRun(rng: Source, base: Config, params: seq<Param>, mode: ChangeMode, ghost first: nat, ghost run: nat)
      returns (tag: Label, best: Result<real, TrialsError>)
      requires rng.drawn == first + Offset(run, DrawsFor(mode, |params|))
      modifies this`calls, rng
      ensures calls == old(calls) + 1 && rng.drawn == first + Offset(run + 1, DrawsFor(mode, |params|))
      ensures tag == RunPlan(base, params, mode, rng.raw, first, run).1
      ensures best == Trial(engine, RunPlan(base, params, mode, rng.raw, first, run).0, old(calls))
    {
      var config, logs;
      config, tag := Adjust(rng, base, params, mode);
      best, logs := RunOnce(config);
    }

    /**
     * One sweep run together with its bookkeeping: the label gets a list when it is new,
     * and, when the run succeeds, its fitness is appended to that list.
     */
    method SweepStep(rng: Source, base: Config, params: seq<Param>, mode: ChangeMode, ghost first: nat, ghost run: nat,
                     ghost labels: seq<Label>, ghost results: seq<real>, perLabel: map<Label, seq<real>>, order: seq<Label>)
      returns (r: Result<(map<Label, seq<real>>, seq<Label>), TrialsError>, ghost tag: Label, ghost best: real)
      requires |labels| == |results| && rng.drawn == first + Offset(run, DrawsFor(mode, |params|))
      requires perLabel == Grouped(labels, results) && order == FirstSeen(labels)
      modifies this`calls, rng
      ensures calls == old(calls) + 1 && rng.drawn == first + Offset(run + 1, DrawsFor(mode, |params|))
      ensures var plan := RunPlan(base, params, mode, rng.raw, first, run);
        var t := Trial(engine, plan.0, old(calls));
        (r.Err? <==> t.Err?) && (r.Err? ==> r.error == t.error) &&
        (r.Ok? ==> tag == plan.1 && best == t.value &&
                   r.value == (Grouped(labels + [tag], results + [best]), FirstSeen(labels + [tag])))
    {
      GroupedByLabel(labels, results);
      var key, outcome := SweepRun(rng, base, params, mode, first, run);
      var grouped, seen := perLabel, order;
      if key !in grouped {
        grouped := grouped[key := []];
        seen := seen + [key];
      }
      tag := key;
      if outcome.Err? {
        best := 0.0;
        r := Err(outcome.error);
        return;
      }
      best := outcome.value;
      grouped := grouped[key := grouped[key] + [outcome.value]];
      GroupedStep(labels, results, tag, best);
      assert grouped == perLabel[key := (if key in perLabel then perLabel[key] else []) + [best]];
      r := Ok((grouped, seen));
    }

    /**
     * Sweep mode: `count` runs, each with the parameters `Adjust` makes, its result
     * appended to the list of its label, the labels kept in the order they first appear.
     */
    method SweepParameters(rng: Source, base: Config, count: nat, params: seq<Param>, mode: ChangeMode)
      returns (r: Result<Report, TrialsError>)
      modifies this`calls, rng
      ensures var outcome := SweepTrials(engine, base, params, mode, rng.raw, old(rng.drawn), count, old(calls));
        (r.Ok? <==> outcome.Ok?) && (r.Err? ==> r.error == outcome.error) &&
        (r.Ok? ==> r.value == Sweep(Grouped(outcome.value.0, outcome.value.1), FirstSeen(outcome.value.0)))
      ensures r.Ok? ==>
        calls == old(calls) + count && rng.drawn == old(rng.drawn) + Offset(count, DrawsFor(mode, |params|))
    {
      var perLabel: map<Label, seq<real>> := map[];
      var order: seq<Label> := [];
      ghost var labels: seq<Label>, results: seq<real> := [], [];
      for run := 0 to count
        invariant calls == old(calls) + run
        invariant rng.drawn == old(rng.drawn) + Offset(run, DrawsFor(mode, |params|))
        invariant SweepTrials(engine, base, params, mode, rng.raw, old(rng.drawn), run, old(calls)) == Ok((labels, results))
        invariant perLabel == Grouped(labels, results) && order == FirstSeen(labels)
      {
        ghost var call := calls;
        SweepTrialsNext(engine, base, params, mode, rng.raw, old(rng.drawn), run, old(calls), call, labels, results);
        var next, tag, best := SweepStep(rng, base, params, mode, old(rng.drawn), run, labels, results, perLabel, order);
        if next.Err? {
          SweepTrialsStop(engine, base, params, mode, rng.raw, old(rng.drawn), run + 1, count, old(calls));
          r := Err(next.error);
          return;
        }
        perLabel, order := next.value.0, next.value.1;
        labels, results := labels + [tag], results + [best];
      }
      r := Ok(Sweep(perLabel, order));
    }

    /**
     * Default mode: `count` runs of `base`, keeping `best_run_fitness`, `best_run_index`
     * and the per-generation columns of the best run up to date.
     */
    method Repeat(config: Config, count: nat) returns (r: Result<seq<real>, TrialsError>)
      modifies this`calls, this`bestRunFitness, this`bestRunIndex, this`bestFitnessPerGen, this`avgFitnessPerGen
      ensures r == Trials(engine, config, count, old(calls))
      ensures r.Ok? ==> calls == old(calls) + count
      ensures r.Ok? && count == 0 ==>
        bestFitnessPerGen == old(bestFitnessPerGen) && avgFitnessPerGen == old(avgFitnessPerGen)
      ensures r.Ok? ==>
        Tracked(engine, config, old(calls), r.value, bestRunFitness, bestRunIndex, bestFitnessPerGen, avgFitnessPerGen)
      ensures r.Ok? && count > 0 ==> bestRunFitness == Fin(Max(r.value))
    {
      var results := [];
      bestRunFitness, bestRunIndex := NegInf, -1;
      for run := 0 to count
        invariant calls == old(calls) + run && |results| == run
        invariant Trials(engine, config, run, old(calls)) == Ok(results)
        invariant Tracked(engine, config, old(calls), results, bestRunFitness, bestRunIndex, bestFitnessPerGen, avgFitnessPerGen)
        invariant run == 0 ==> bestFitnessPerGen == old(bestFitnessPerGen) && avgFitnessPerGen == old(avgFitnessPerGen)
      {
        TrialsNext(engine, config, run, old(calls), calls, results);
        var next := TrackRun(config, old(calls), results);
        if next.Err? {
          TrialsStop(engine, config, run + 1, count, old(calls));
          r := Err(next.error);
          return;
        }
        results := next.value;
      }
      if count > 0 {
        assert results != [] && bestRunIndex == FirstArgMax(results);
        MaxAtFirstArgMax(results);
      }
      r := Ok(results);
    }

    /**
     * One run of default mode, run number `run + 1` of the loop: its `best_fitness`,
     * and, when that beats `best_run_fitness` strictly, the new best run with its
     * per-generation columns.
     */
    method TrackRun(config: Config, ghost first: nat, results: seq<real>) returns (r: Result<seq<real>, TrialsError>)
      requires calls == first + |results|
      requires Tracked(engine, config, first, results, bestRunFitness, bestRunIndex, bestFitnessPerGen, avgFitnessPerGen)
      modifies this`calls, this`bestRunFitness, this`bestRunIndex, this`bestFitnessPerGen, this`avgFitnessPerGen
      ensures calls == old(calls) + 1
      ensures var t := Trial(engine, config, old(calls)); r == if t.Err? then Err(t.error) else Ok(results + [t.value])
      ensures r.Ok? ==>
        Tracked(engine, config, first, r.value, bestRunFitness, bestRunIndex, bestFitnessPerGen, avgFitnessPerGen)
    {
      ghost var call := calls;
      var best, logs := RunOnce(config);
      if best.Err? {
        r := Err(best.error);
        return;
      }
      if bestRunFitness.NegInf? || best.value > bestRunFitness.value {
        TrackedImprove(engine, config, first, results, best.value, bestRunFitness, bestRunIndex,
                       bestFitnessPerGen, avgFitnessPerGen, call, logs);
        bestRunFitness, bestRunIndex := Fin(best.value), |results|;
        bestFitnessPerGen, avgFitnessPerGen := Bests(logs), Averages(logs);
      } else {
        TrackedKeep(engine, config, first, results, best.value, bestRunFitness, bestRunIndex,
                    bestFitnessPerGen, avgFitnessPerGen);
      }
      var extended := results + [best.value];
      assert Tracked(engine, config, first, extended, bestRunFitness, bestRunIndex, bestFitnessPerGen, avgFitnessPerGen);
      r := Ok(extended);
    }

    /**
     * `run_trials`: comparison mode when `compare` is set and no parameter is selected,
     * the sweep when parameters are selected and `compare` is not, otherwise repeated
     * runs of the base configuration.
     */
    method RunTrials(rng: Source, base: Config, runs: int, params: seq<Param>, mode: ChangeMode, compare: bool)
      returns (r: Result<Report, TrialsError>)
      modifies this, rng
      ensures r.Ok? ==> (r.value.Comparison? <==> compare && params == [])
      ensures r.Ok? ==> (r.value.Sweep? <==> !compare && params != [])
      ensures r.Ok? ==> (r.value.Repeated? <==> compare == (params != []))
      ensures r.Ok? && r.value.Comparison? ==>
        |r.value.series| == |Strategies| && |r.value.extra| == Clamp(runs) &&
        forall i :: 0 <= i < |Strategies| ==> |r.value.series[i]| == Clamp(runs)
      ensures r.Ok? && r.value.Sweep? ==>
        (forall l :: l in r.value.order <==> l in r.value.perLabel) &&
        Total(r.value.order, r.value.perLabel) == Clamp(runs)
      ensures r.Ok? && r.value.Repeated? ==>
        Ok(r.value.results) == Trials(engine, base, Clamp(runs), old(calls))
      ensures compare && params == [] ==>
        var lineup := Lineup(engine, base, Strategies + [base.selectionType], Clamp(runs), old(calls));
        (r.Err? <==> lineup.Err?) && (r.Err? ==> r.error == lineup.error) &&
        (r.Ok? ==> r.value.series + [r.value.extra] == lineup.value)
      ensures !compare && params != [] ==>
        var outcome := SweepTrials(engine, base, params, mode, rng.raw, old(rng.drawn), Clamp(runs), old(calls));
        (r.Err? <==> outcome.Err?) && (r.Err? ==> r.error == outcome.error) &&
        (r.Ok? ==> r.value == Sweep(Grouped(outcome.value.0, outcome.value.1), FirstSeen(outcome.value.0)) &&
                   rng.drawn == old(rng.drawn) + Offset(Clamp(runs), DrawsFor(mode, |params|)))
      ensures compare == (params != []) ==>
        var results := Trials(engine, base, Clamp(runs), old(calls));
        (r.Err? <==> results.Err?) && (r.Err? ==> r.error == results.error) &&
        (r.Ok? ==> Tracked(engine, base, old(calls), r.value.results, bestRunFitness, bestRunIndex,
                           bestFitnessPerGen, avgFitnessPerGen) &&
                   (runs > 0 ==> bestRunFitness == Fin(Max(r.value.results))))
      ensures !(!compare && params != []) ==> rng.drawn == old(rng.drawn)
      ensures r.Ok? && compare && params == [] ==> calls == old(calls) + (|Strategies| + 1) * Clamp(runs)
      ensures r.Ok? && !(compare && params == []) ==> calls == old(calls) + Clamp(runs)
      ensures compare != (params != []) ==>
        bestRunFitness == old(bestRunFitness) && bestRunIndex == old(bestRunIndex) &&
        bestFitnessPerGen == old(bestFitnessPerGen) && avgFitnessPerGen == old(avgFitnessPerGen)
    {
      var count := Clamp(runs);
      if compare && params == [] {
        ghost var first := calls;
        r := CompareSelection(base, count);
        if r.Ok? {
          var lineup := Lineup(engine, base, Strategies + [base.selectionType], count, first);
          assert lineup.Ok? && |lineup.value| == 4;
        }
      } else if !compare && params != [] {
        ghost var draws, first := rng.drawn, calls;
        r := SweepParameters(rng, base, count, params, mode);
        if r.Ok? {
          var outcome := SweepTrials(engine, base, params, mode, rng.raw, draws, count, first);
          GroupedTotal(outcome.value.0, outcome.value.1);
          GroupedByLabel(outcome.value.0, outcome.value.1);
        }
      } else {
        var results := Repeat(base, count);
        r := if results.Ok? then Ok(Repeated(results.value)) else Err(results.error);
      }
    }
  }
}
