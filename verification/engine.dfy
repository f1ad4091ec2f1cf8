/** The simulation engine (class MonteCarloEngine): draws n standard normals and
    folds the sampler's estimates into a running OnlineStatistics. */
module Engine {
  import opened Samplers
  import opened Draws
  import opened Statistics

  class MonteCarloEngine {
    /** The sampler the engine runs; it is never changed. */
    const sampler: Sampler

    constructor (sampler: Sampler)
      ensures this.sampler == sampler
    {
      this.sampler := sampler;
    }

    /** Runs nPaths paths: one draw per path, in order, each turned into an estimate
        and added to a fresh accumulator. The engine itself is not modified. */
    method Run(nPaths: nat, rng: NormalStream) returns (stats: OnlineStatistics)
      modifies rng
      ensures fresh(stats) && stats.Valid()
      ensures rng.consumed == old(rng.consumed) + nPaths
      ensures stats.samples == Outputs(sampler, Window(rng.source, old(rng.consumed), nPaths))
    {
      stats := new OnlineStatistics();
      ghost var start := rng.consumed;
      ghost var draws := Window(rng.source, start, nPaths);
      for i := 0 to nPaths
        invariant fresh(stats) && stats.Valid()
        invariant rng.consumed == start + i
        invariant stats.samples == Outputs(sampler, draws[..i])
      {
        var z := rng.Normal();
        var estimate := Sample(sampler, z);
        stats.Add(estimate);
        assert draws[..i + 1] == draws[..i] + [z];
      }
      assert draws[..nPaths] == draws;
    }
  }
}
