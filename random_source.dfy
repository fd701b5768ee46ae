/**
 * Python 2.7's `random.Random`. Every call the modelled code makes consumes
 * exactly one `random()` value: `randint(a, b)` is `a + int(random() * (b - a + 1))`
 * and `choice(xs)` is `xs[int(random() * len(xs))]`.
 */
module RandomSource {

  /** A value of `random()`: a real in [0, 1). */
  type Unit = r: real | 0.0 <= r < 1.0 witness 0.0

  /** The values `random()` returns, one after the other. */
  type Draws = nat -> Unit

  /** `randint(a, b)` for the draw `r`. */
  function RandIntOf(r: Unit, a: int, b: int): (k: int)
    requires a <= b
    ensures a <= k <= b
  {
    var width := (b - a + 1) as real;
    assert 0.0 <= width * r < width;
    a + (width * r).Floor
  }

  /** The index `choice(xs)` picks from a list of `n` items for the draw `r`. */
  function ChoiceIndex(r: Unit, n: nat): (i: nat)
    requires n > 0
    ensures i < n
  {
    var width := n as real;
    assert 0.0 <= width * r < width;
    (width * r).Floor
  }

  /** A generator: its stream of values and how many it has handed out. */
  class Random {
    const draws: Draws
    var pos: nat

    constructor (draws: Draws, pos: nat)
      ensures this.draws == draws && this.pos == pos
    {
      this.draws := draws;
      this.pos := pos;
    }

    /** `random()`. */
    method Next() returns (r: Unit)
      modifies this
      ensures r == draws(old(pos)) && pos == old(pos) + 1
    {
      r := draws(pos);
      pos := pos + 1;
    }

    /** `randint(a, b)`. */
    method RandInt(a: int, b: int) returns (k: int)
      requires a <= b
      modifies this
      ensures k == RandIntOf(draws(old(pos)), a, b) && pos == old(pos) + 1
    {
      var r := Next();
      k := RandIntOf(r, a, b);
    }
  }
}
