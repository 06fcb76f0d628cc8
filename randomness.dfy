/**
 * An explicit stand-in for Python's global `random` module: a source that hands out
 * the entries of a fixed stream of raw draws, one per call, in order. The three
 * methods have the ranges of `random.random()`, `random.randint(lo, hi)` and the index
 * that `random.choices` takes, `floor(random() * n)`. Given the same stream, every
 * method of the model that draws from a source makes the same draws.
 */
module Randomness {

  /** `random.random()` returns a multiple of 2^-53. */
  const Resolution: nat := 0x20_0000_0000_0000

  /** The value of `random.random()` made from one raw draw: in `[0, 1)`. */
  function UnitValue(w: nat): (x: real)
    ensures 0.0 <= x < 1.0
  {
    (w % Resolution) as real / Resolution as real
  }

  /** The value of `random.randint(lo, hi)` made from one raw draw: in `[lo, hi]`. */
  function IntValue(w: nat, lo: int, hi: int): (k: int)
    requires lo <= hi
    ensures lo <= k <= hi
  {
    lo + w % (hi - lo + 1)
  }

  /** `floor(x * n)` for `x` in `[0, 1)`: an index below `n`. */
  function IndexValue(x: real, n: nat): (k: nat)
    requires 0.0 <= x < 1.0 && n > 0
    ensures k < n
  {
    assert 0.0 <= x * (n as real) < n as real;
    (x * (n as real)).Floor
  }

  class Source {
    /** The raw draws, in the order they are handed out. */
    const raw: nat -> nat
    /** How many draws have been handed out so far. */
    var drawn: nat

    constructor (raw: nat -> nat)
      ensures this.raw == raw && drawn == 0
    {
      this.raw := raw;
      drawn := 0;
    }

    /** `random.random()`. */
    method Random() returns (x: real)
      modifies this
      ensures drawn == old(drawn) + 1
      ensures x == UnitValue(raw(old(drawn)))
    {
      x := UnitValue(raw(drawn));
      drawn := drawn + 1;
    }

    /** `random.randint(lo, hi)`; Python raises `ValueError` when `lo > hi`. */
    method RandInt(lo: int, hi: int) returns (k: int)
      requires lo <= hi
      modifies this
      ensures drawn == old(drawn) + 1
      ensures k == IntValue(raw(old(drawn)), lo, hi)
    {
      k := IntValue(raw(drawn), lo, hi);
      drawn := drawn + 1;
    }

    /** One index of `random.choices(population)`: `floor(random() * len(population))`. */
    method Choice(n: nat) returns (k: nat)
      requires n > 0
      modifies this
      ensures drawn == old(drawn) + 1
      ensures k == IndexValue(UnitValue(raw(old(drawn))), n)
    {
      var x := Random();
      k := IndexValue(x, n);
    }
  }
}
