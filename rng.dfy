/**
 * The reversible pseudo-random stream a logical process owns (ROSS's
 * `tw_rng_stream`), as an abstract stream: a fixed sequence of draws in the
 * unit interval, indexed by an integer position. `Unif` is `tw_rand_unif`
 * (return the draw at the position, advance); `ReverseUnif` is
 * `tw_rand_reverse_unif` (step the position back by one). The generator
 * behind the stream is foreign code and is not modelled; the stream is
 * unbounded in both directions, as the underlying seed arithmetic is.
 */
module Rng {

  /** Every draw of the stream lies in [0, 1]. */
  ghost predicate InUnitInterval(sample: int -> real)
  {
    forall n :: 0.0 <= sample(n) <= 1.0
  }

  class Stream {
    /** The value `tw_rand_unif` returns at each stream position. */
    const sample: int -> real
    /** How many draws have been taken (net of reversals). */
    var position: int

    ghost predicate Valid()
    {
      InUnitInterval(sample)
    }

    constructor (sample: int -> real, position: int)
      requires InUnitInterval(sample)
      ensures Valid()
      ensures this.sample == sample && this.position == position
    {
      this.sample := sample;
      this.position := position;
    }

    /** `tw_rand_unif`: the draw at the current position; the position moves forward by one. */
    method Unif() returns (u: real)
      requires Valid()
      modifies this
      ensures u == sample(old(position))
      ensures position == old(position) + 1
      ensures 0.0 <= u <= 1.0
    {
      u := sample(position);
      position := position + 1;
    }

    /** `tw_rand_reverse_unif`: the position moves back by one, so the last draw is taken again next. */
    method ReverseUnif()
      modifies this
      ensures position == old(position) - 1
    {
      position := position - 1;
    }
  }
}
