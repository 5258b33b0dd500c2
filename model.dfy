/** The Keras regressor as the walk-forward loop sees it: a parameter state that `predict`
    reads and `fit` replaces. The layer stack, the optimiser and the float arithmetic are
    outside the model; they enter only as the two functions a network is built with. */
module Model {

  /** The whole training state of a network, opaque to the loop: the trainable parameters,
      the Adam optimiser's moment estimates and step counter, and the state of the random
      generator that draws the dropout masks during `fit`. `fit` is a function of all three,
      not of the parameters alone. */
  type Weights = seq<real>

  /** One call the loop makes on a network, as the network receives it. */
  datatype Call = PredictCall(input: seq<real>) | FitCall(input: seq<real>, target: real, epochs: nat)

  class Network {
    /** Forward pass (`model.predict`); dropout is inactive at inference, so it is pure. */
    const forward: (Weights, seq<real>) -> real
    /** Training state after `model.fit` on one (window, target) example for the given epochs. */
    const update: (Weights, seq<real>, real, nat) -> Weights

    var weights: Weights
    /** Every call made on this network, in order. */
    ghost var calls: seq<Call>

    /** A network as `model_create` returns it: already trained, with the given weights. */
    constructor (forward: (Weights, seq<real>) -> real, update: (Weights, seq<real>, real, nat) -> Weights, trained: Weights)
      ensures this.forward == forward && this.update == update
      ensures weights == trained && calls == []
    {
      this.forward := forward;
      this.update := update;
      weights := trained;
      calls := [];
    }

    method Predict(input: seq<real>) returns (y: real)
      modifies this`calls
      ensures y == forward(weights, input)
      ensures calls == old(calls) + [PredictCall(input)]
    {
      y := forward(weights, input);
      calls := calls + [PredictCall(input)];
    }

    method Fit(input: seq<real>, target: real, epochs: nat)
      modifies this`weights, this`calls
      ensures weights == update(old(weights), input, target, epochs)
      ensures calls == old(calls) + [FitCall(input, target, epochs)]
    {
      weights := update(weights, input, target, epochs);
      calls := calls + [FitCall(input, target, epochs)];
    }
  }
}
