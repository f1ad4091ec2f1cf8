/** The stochastic asset model behind the samplers (interface Model). */
module Models {

  /** A model maps a time t and a standard normal draw z to the simulated price of
      the underlying at t. Its dynamics (geometric Brownian motion in BlackScholesModel)
      are not part of this model: simulate is an arbitrary function. */
  datatype Model = Model(simulate: (real, real) -> real)
}
