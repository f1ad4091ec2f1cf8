/** The source of standard normal draws (class RandomEngine), seen as a fixed
    stream that is consumed one draw at a time. */
module Draws {

  class NormalStream {
    /** The i-th draw the generator hands out; how it is produced (the Mersenne
        Twister and the normal transform) is not part of this model. */
    const source: nat -> real
    /** Number of draws handed out so far. */
    var consumed: nat

    constructor (source: nat -> real)
      ensures this.source == source && consumed == 0
    {
      this.source := source;
      consumed := 0;
    }

    /** Hands out the next draw of the stream. */
    method Normal() returns (z: real)
      modifies this
      ensures consumed == old(consumed) + 1 && z == source(old(consumed))
    {
      z := source(consumed);
      consumed := consumed + 1;
    }
  }

  /** The n draws handed out after the first `start` ones. */
  function Window(source: nat -> real, start: nat, n: nat): seq<real>
  {
    seq(n, i requires 0 <= i < n => source(start + i))
  }
}
