/**
 * The numbers of a feedforward tanh network, as values.
 *
 * A network with layer sizes `layers` has one activation vector per layer,
 * and one bias vector and one weight matrix per NON-input layer.  Biases and
 * weights are therefore indexed one below the layer of the neurons they feed:
 * `biases[l]` and `weights[l]` belong to layer `l + 1`, and row `j` of
 * `weights[l]` holds the weights from every neuron of layer `l` into neuron
 * `j` of layer `l + 1`.
 *
 * The functions here are the specification of the in-place methods of the
 * NeuralNetwork class: its forward pass and its back-propagation step.
 */
module NetworkValues {

  /** The hyperbolic tangent.  It is left uninterpreted: no property proved
      here depends on its values. */
  const Tanh: real -> real

  /** The learning rate every network uses (a constant 0.05). */
  const LearningRate: real := 0.05

  type Vec = seq<real>
  type Mat = seq<Vec>

  /** The state of one network: activations, biases and weights. */
  datatype NetState = NetState(neurons: seq<Vec>, biases: seq<Vec>, weights: seq<Mat>)

  datatype Option<T> = None | Some(value: T)

  /** Derivative of tanh, written in terms of tanh's OUTPUT `value`
      (tanh'(s) = 1 - tanh(s)^2), not of the weighted sum `s`.  The bounds
      document the derivative only: since `Tanh` is uninterpreted, no lemma
      here puts a neuron's value in [-1, 1], and no proof relies on them. */
  function DerivativeOfTanh(value: real): (d: real)
    ensures d <= 1.0
    ensures -1.0 <= value <= 1.0 ==> 0.0 <= d
  {
    SquareBounds(value);
    1.0 - value * value
  }

  lemma SquareBounds(v: real)
    ensures 0.0 <= v * v
    ensures -1.0 <= v <= 1.0 ==> v * v <= 1.0
  {
    var a := if v < 0.0 then -v else v;
    assert v * v == a * a;
    if a <= 1.0 { assert a * a <= a; }
  }

  /** One bias per neuron of every non-input layer. */
  ghost predicate BiasesShaped(layers: seq<nat>, biases: seq<Vec>)
  {
    |biases| == |layers| - 1 && forall l :: 0 <= l < |biases| ==> |biases[l]| == layers[l + 1]
  }

  /** One weight row per neuron of every non-input layer, one weight per
      neuron of the layer before it. */
  ghost predicate WeightsShaped(layers: seq<nat>, weights: seq<Mat>)
  {
    && |weights| == |layers| - 1
    && (forall l {:trigger weights[l]} :: 0 <= l < |weights| ==> |weights[l]| == layers[l + 1])
    && (forall l :: 0 <= l < |weights| ==> forall j :: 0 <= j < |weights[l]| ==> |weights[l][j]| == layers[l])
  }

  /** Biases and weights have the shapes the layer sizes dictate. */
  ghost predicate ParamsShaped(layers: seq<nat>, biases: seq<Vec>, weights: seq<Mat>)
  {
    |layers| >= 2 && BiasesShaped(layers, biases) && WeightsShaped(layers, weights)
  }

  /** One activation vector per layer, of that layer's size. */
  ghost predicate NeuronsShaped(layers: seq<nat>, neurons: seq<Vec>)
  {
    |neurons| == |layers| && forall l :: 0 <= l < |neurons| ==> |neurons[l]| == layers[l]
  }

  ghost predicate Shaped(layers: seq<nat>, s: NetState)
  {
    ParamsShaped(layers, s.biases, s.weights) && NeuronsShaped(layers, s.neurons)
  }

  /** The sum of w[k] * v[k] over k < n, accumulated from 0 in ascending k. */
  function Dot(w: Vec, v: Vec, n: nat): real
    requires n <= |w| && n <= |v|
  {
    if n == 0 then 0.0 else Dot(w, v, n - 1) + w[n - 1] * v[n - 1]
  }

  /** The activations of a layer, given its weights, biases and the previous layer. */
  function LayerOutput(w: Mat, b: Vec, prev: Vec): Vec
    requires |w| == |b|
    requires forall j :: 0 <= j < |w| ==> |w[j]| == |prev|
  {
    seq(|b|, j requires 0 <= j < |b| => Tanh(Dot(w[j], prev, |prev|) + b[j]))
  }

  /** The activations of layers 0..n when layer 0 holds x0. */
  function Activations(layers: seq<nat>, biases: seq<Vec>, weights: seq<Mat>, x0: Vec, n: nat): (acts: seq<Vec>)
    requires ParamsShaped(layers, biases, weights)
    requires |x0| == layers[0] && n < |layers|
    ensures |acts| == n + 1
    ensures forall l :: 0 <= l <= n ==> |acts[l]| == layers[l]
  {
    if n == 0 then [x0]
    else
      var prev := Activations(layers, biases, weights, x0, n - 1);
      prev + [LayerOutput(weights[n - 1], biases[n - 1], prev[n - 1])]
  }

  /** The input layer after the inputs are copied over its first |inputs| neurons. */
  function InputLayer(inputs: Vec, current: Vec): Vec
    requires |inputs| <= |current|
  {
    inputs + current[|inputs|..]
  }

  /** The forward pass: the input layer is overwritten, every later layer recomputed. */
  function Forward(layers: seq<nat>, s: NetState, inputs: Vec): (f: NetState)
    requires Shaped(layers, s) && |inputs| <= layers[0]
    ensures Shaped(layers, f)
    ensures f.biases == s.biases && f.weights == s.weights
  {
    var x0 := InputLayer(inputs, s.neurons[0]);
    s.(neurons := Activations(layers, s.biases, s.weights, x0, |layers| - 1))
  }

  /** Output-layer deltas: (output - expected) * tanh'(output). */
  function OutputGamma(output: Vec, expected: Vec): Vec
    requires |output| <= |expected|
  {
    seq(|output|, i requires 0 <= i < |output| => (output[i] - expected[i]) * DerivativeOfTanh(output[i]))
  }

  /** b[j] -= gamma[j] * LearningRate, for every neuron j. */
  function AdjustBiases(b: Vec, gamma: Vec): Vec
    requires |b| == |gamma|
  {
    seq(|b|, j requires 0 <= j < |b| => b[j] - gamma[j] * LearningRate)
  }

  /** w[j][k] -= gamma[j] * prev[k] * LearningRate, for every neuron j and input k. */
  function AdjustWeights(w: Mat, gamma: Vec, prev: Vec): Mat
    requires |w| == |gamma|
    requires forall j :: 0 <= j < |w| ==> |w[j]| == |prev|
  {
    seq(|w|, j requires 0 <= j < |w| =>
      seq(|prev|, k requires 0 <= k < |prev| => w[j][k] - gamma[j] * prev[k] * LearningRate))
  }

  /** The error that reaches neuron j of a layer: the sum over k < n of
      gammaNext[k] * wNext[k][j], accumulated from 0 in ascending k. */
  function BackError(gammaNext: Vec, wNext: Mat, j: nat, n: nat): real
    requires n <= |gammaNext| && n <= |wNext|
    requires forall k :: 0 <= k < n ==> j < |wNext[k]|
  {
    if n == 0 then 0.0 else BackError(gammaNext, wNext, j, n - 1) + gammaNext[n - 1] * wNext[n - 1][j]
  }

  /** Deltas of a hidden layer with activations `act`, from the deltas of the
      next layer and the weights into that next layer. */
  function HiddenGamma(gammaNext: Vec, wNext: Mat, act: Vec): Vec
    requires |gammaNext| == |wNext|
    requires forall k :: 0 <= k < |wNext| ==> |wNext[k]| == |act|
  {
    seq(|act|, j requires 0 <= j < |act| =>
      BackError(gammaNext, wNext, j, |gammaNext|) * DerivativeOfTanh(act[j]))
  }

  /** Adjusts the biases and weights into layer m + 1 with that layer's
      deltas `gamma`, using the activations of layer m.  No vector or matrix
      changes shape. */
  function AdjustLayer(layers: seq<nat>, s: NetState, gamma: Vec, m: nat): (r: NetState)
    requires Shaped(layers, s)
    requires m + 1 < |layers| && |gamma| == layers[m + 1]
    ensures Shaped(layers, r)
  {
    var r := s.(biases := s.biases[m := AdjustBiases(s.biases[m], gamma)],
                weights := s.weights[m := AdjustWeights(s.weights[m], gamma, s.neurons[m])]);
    assert BiasesShaped(layers, r.biases);
    assert WeightsShaped(layers, r.weights) by {
      forall l {:trigger r.weights[l]} | 0 <= l < |r.weights|
        ensures |r.weights[l]| == layers[l + 1]
        ensures forall j :: 0 <= j < |r.weights[l]| ==> |r.weights[l][j]| == layers[l]
      {
        if l == m {
          assert r.weights[l] == AdjustWeights(s.weights[m], gamma, s.neurons[m]);
        } else {
          assert r.weights[l] == s.weights[l];
        }
      }
    }
    r
  }

  /** The hidden step of back-propagation, for layers i down to 1: `gamma` is
      the delta of layer i + 1, and s.weights[i] (into layer i + 1) has already
      been adjusted.  Neurons are left alone. */
  function Backward(layers: seq<nat>, s: NetState, gamma: Vec, i: nat): (r: NetState)
    requires Shaped(layers, s)
    requires i + 1 < |layers| && |gamma| == layers[i + 1]
    ensures Shaped(layers, r)
    ensures r.neurons == s.neurons
    decreases i
  {
    if i == 0 then s
    else
      var g := HiddenGamma(gamma, s.weights[i], s.neurons[i]);
      Backward(layers, AdjustLayer(layers, s, g, i - 1), g, i - 1)
  }

  /** One training step on one sample: forward pass, output step, hidden steps. */
  function TrainStep(layers: seq<nat>, s: NetState, inputs: Vec, expected: Vec): (t: NetState)
    requires Shaped(layers, s)
    requires |inputs| <= layers[0] && layers[|layers| - 1] <= |expected|
    ensures Shaped(layers, t)
    ensures t.neurons == Forward(layers, s, inputs).neurons
  {
    var f := Forward(layers, s, inputs);
    var top := |layers| - 1;
    var g := OutputGamma(f.neurons[top], expected);
    Backward(layers, AdjustLayer(layers, f, g, top - 1), g, top - 1)
  }

  // ---------------------------------------------------------------------
  // Properties of the forward pass
  // ---------------------------------------------------------------------

  /** Layer 0 holds x0, and every later neuron is tanh of its weighted sum plus bias. */
  lemma ActivationsAt(layers: seq<nat>, biases: seq<Vec>, weights: seq<Mat>, x0: Vec, n: nat, l: nat, j: nat)
    requires ParamsShaped(layers, biases, weights)
    requires |x0| == layers[0] && n < |layers|
    requires 0 < l <= n && j < layers[l]
    ensures Activations(layers, biases, weights, x0, n)[l][j] ==
            Tanh(Dot(weights[l - 1][j], Activations(layers, biases, weights, x0, n)[l - 1], layers[l - 1]) + biases[l - 1][j])
  {
    ActivationsLayer(layers, biases, weights, x0, n, l);
  }

  /** Every layer after the input layer is the output of the layer before it. */
  lemma {:induction false} ActivationsLayer(layers: seq<nat>, biases: seq<Vec>, weights: seq<Mat>, x0: Vec, n: nat, l: nat)
    requires ParamsShaped(layers, biases, weights)
    requires |x0| == layers[0] && n < |layers|
    requires 0 < l <= n
    ensures var acts := Activations(layers, biases, weights, x0, n);
            acts[l] == LayerOutput(weights[l - 1], biases[l - 1], acts[l - 1])
  {
    if l < n {
      ActivationsLayer(layers, biases, weights, x0, n - 1, l);
    }
  }

  /** Layer 0 of the activations is x0 itself. */
  lemma {:induction false} ActivationsInput(layers: seq<nat>, biases: seq<Vec>, weights: seq<Mat>, x0: Vec, n: nat)
    requires ParamsShaped(layers, biases, weights)
    requires |x0| == layers[0] && n < |layers|
    ensures Activations(layers, biases, weights, x0, n)[0] == x0
  {
    if n > 0 {
      ActivationsInput(layers, biases, weights, x0, n - 1);
    }
  }

  /** The forward pass copies the inputs, keeps the rest of layer 0, and
      computes each later neuron from the previous layer. */
  lemma ForwardAt(layers: seq<nat>, s: NetState, inputs: Vec)
    requires Shaped(layers, s) && |inputs| <= layers[0]
    ensures var f := Forward(layers, s, inputs);
      && (forall i :: 0 <= i < |inputs| ==> f.neurons[0][i] == inputs[i])
      && (forall i :: |inputs| <= i < layers[0] ==> f.neurons[0][i] == s.neurons[0][i])
      && (forall l, j {:trigger s.weights[l][j]} :: 0 <= l < |layers| - 1 && 0 <= j < layers[l + 1] ==>
            f.neurons[l + 1][j] == Tanh(Dot(s.weights[l][j], f.neurons[l], layers[l]) + s.biases[l][j]))
  {
    ForwardInput(layers, s, inputs);
    ForwardLayers(layers, s, inputs);
  }

  lemma ForwardInput(layers: seq<nat>, s: NetState, inputs: Vec)
    requires Shaped(layers, s) && |inputs| <= layers[0]
    ensures Forward(layers, s, inputs).neurons[0] == InputLayer(inputs, s.neurons[0])
  {
    ActivationsInput(layers, s.biases, s.weights, InputLayer(inputs, s.neurons[0]), |layers| - 1);
  }

  lemma ForwardLayers(layers: seq<nat>, s: NetState, inputs: Vec)
    requires Shaped(layers, s) && |inputs| <= layers[0]
    ensures var acts := Forward(layers, s, inputs).neurons;
      forall l, j {:trigger s.weights[l][j]} :: 0 <= l < |layers| - 1 && 0 <= j < layers[l + 1] ==>
        acts[l + 1][j] == Tanh(Dot(s.weights[l][j], acts[l], layers[l]) + s.biases[l][j])
  {
    var acts := Forward(layers, s, inputs).neurons;
    forall l, j {:trigger s.weights[l][j]} | 0 <= l < |layers| - 1 && 0 <= j < layers[l + 1]
      ensures acts[l + 1][j] == Tanh(Dot(s.weights[l][j], acts[l], layers[l]) + s.biases[l][j])
    {
      ForwardNeuron(layers, s, inputs, l + 1, j);
    }
  }

  lemma ForwardNeuron(layers: seq<nat>, s: NetState, inputs: Vec, l: nat, j: nat)
    requires Shaped(layers, s) && |inputs| <= layers[0]
    requires 0 < l < |layers| && j < layers[l]
    ensures var acts := Forward(layers, s, inputs).neurons;
      acts[l][j] == Tanh(Dot(s.weights[l - 1][j], acts[l - 1], layers[l - 1]) + s.biases[l - 1][j])
  {
    ActivationsAt(layers, s.biases, s.weights, InputLayer(inputs, s.neurons[0]), |layers| - 1, l, j);
  }

  /** With a full-width input, the forward pass depends only on the
      parameters and the input: the activations left by earlier calls do not matter. */
  lemma ForwardIgnoresPreviousActivations(layers: seq<nat>, s1: NetState, s2: NetState, inputs: Vec)
    requires Shaped(layers, s1) && Shaped(layers, s2)
    requires s1.biases == s2.biases && s1.weights == s2.weights
    requires |inputs| == layers[0]
    ensures Forward(layers, s1, inputs) == Forward(layers, s2, inputs)
  {
    assert InputLayer(inputs, s1.neurons[0]) == inputs == InputLayer(inputs, s2.neurons[0]);
  }

  // ---------------------------------------------------------------------
  // Properties of the training step
  // ---------------------------------------------------------------------

  /** The deltas of layer m, for m <= top, when layer `top` has delta `gamma`
      and every layer below takes HiddenGamma through `weights`. */
  function Delta(layers: seq<nat>, neurons: seq<Vec>, weights: seq<Mat>, gamma: Vec, top: nat, m: nat): (d: Vec)
    requires WeightsShaped(layers, weights) && NeuronsShaped(layers, neurons)
    requires m <= top < |layers| && |gamma| == layers[top]
    ensures |d| == layers[m]
    decreases top - m
  {
    if m == top then gamma
    else HiddenGamma(Delta(layers, neurons, weights, gamma, top, m + 1), weights[m], neurons[m])
  }

  /** Starting the chain of deltas one layer lower, from the delta that the
      chain gives there, yields the same deltas. */
  lemma {:induction false} DeltaShift(layers: seq<nat>, neurons: seq<Vec>, weights: seq<Mat>, gamma: Vec, top: nat, m: nat)
    requires WeightsShaped(layers, weights) && NeuronsShaped(layers, neurons)
    requires m < top < |layers| && |gamma| == layers[top]
    ensures Delta(layers, neurons, weights, gamma, top, m) ==
            Delta(layers, neurons, weights, HiddenGamma(gamma, weights[top - 1], neurons[top - 1]), top - 1, m)
    decreases top - m
  {
    if m < top - 1 {
      DeltaShift(layers, neurons, weights, gamma, top, m + 1);
    }
  }

  /** The hidden step leaves layers i and above alone, and adjusts every
      layer m below i with the delta of layer m + 1, where those deltas are
      computed through the weights as they are AFTER the step. */
  lemma BackwardClosedForm(layers: seq<nat>, s: NetState, gamma: Vec, i: nat)
    requires Shaped(layers, s)
    requires i + 1 < |layers| && |gamma| == layers[i + 1]
    ensures var r := Backward(layers, s, gamma, i);
      && (forall m :: i <= m < |layers| - 1 ==> r.biases[m] == s.biases[m] && r.weights[m] == s.weights[m])
      && (forall m :: 0 <= m < i ==>
            var d := Delta(layers, s.neurons, r.weights, gamma, i + 1, m + 1);
            r.biases[m] == AdjustBiases(s.biases[m], d) &&
            r.weights[m] == AdjustWeights(s.weights[m], d, s.neurons[m]))
  {
    forall m | i <= m < |layers| - 1
      ensures Backward(layers, s, gamma, i).biases[m] == s.biases[m]
      ensures Backward(layers, s, gamma, i).weights[m] == s.weights[m]
    {
      BackwardAbove(layers, s, gamma, i, m);
    }
    forall m | 0 <= m < i
      ensures var r := Backward(layers, s, gamma, i);
        var d := Delta(layers, s.neurons, r.weights, gamma, i + 1, m + 1);
        r.biases[m] == AdjustBiases(s.biases[m], d) &&
        r.weights[m] == AdjustWeights(s.weights[m], d, s.neurons[m])
    {
      BackwardBelow(layers, s, gamma, i, m);
    }
  }

  /** The hidden step leaves layer m alone when m >= i. */
  lemma {:induction false} BackwardAbove(layers: seq<nat>, s: NetState, gamma: Vec, i: nat, m: nat)
    requires Shaped(layers, s)
    requires i + 1 < |layers| && |gamma| == layers[i + 1]
    requires i <= m < |layers| - 1
    ensures Backward(layers, s, gamma, i).biases[m] == s.biases[m]
    ensures Backward(layers, s, gamma, i).weights[m] == s.weights[m]
    decreases i
  {
    if i > 0 {
      var g := HiddenGamma(gamma, s.weights[i], s.neurons[i]);
      var s' := AdjustLayer(layers, s, g, i - 1);
      assert Backward(layers, s', g, i - 1) == Backward(layers, s, gamma, i);
      BackwardAbove(layers, s', g, i - 1, m);
      AdjustLayerElsewhere(layers, s, g, i - 1, m);
    }
  }

  /** The hidden step adjusts layer m < i once, with the delta of layer m + 1
      computed through the weights as they are after the step. */
  lemma {:induction false} BackwardBelow(layers: seq<nat>, s: NetState, gamma: Vec, i: nat, m: nat)
    requires Shaped(layers, s)
    requires i + 1 < |layers| && |gamma| == layers[i + 1]
    requires m < i
    ensures var r := Backward(layers, s, gamma, i);
      var d := Delta(layers, s.neurons, r.weights, gamma, i + 1, m + 1);
      r.biases[m] == AdjustBiases(s.biases[m], d) &&
      r.weights[m] == AdjustWeights(s.weights[m], d, s.neurons[m])
    decreases i
  {
    var g := HiddenGamma(gamma, s.weights[i], s.neurons[i]);
    var s' := AdjustLayer(layers, s, g, i - 1);
    var r := Backward(layers, s', g, i - 1);
    assert r == Backward(layers, s, gamma, i);
    BackwardAbove(layers, s', g, i - 1, i);
    AdjustLayerElsewhere(layers, s, g, i - 1, i);
    DeltaShift(layers, s.neurons, r.weights, gamma, i + 1, m + 1);
    assert HiddenGamma(gamma, r.weights[i], s.neurons[i]) == g;
    if m == i - 1 {
      BackwardAbove(layers, s', g, i - 1, m);
    } else {
      BackwardBelow(layers, s', g, i - 1, m);
      AdjustLayerElsewhere(layers, s, g, i - 1, m);
    }
  }

  /** Adjusting layer m + 1 leaves the biases and weights of every other layer alone. */
  lemma AdjustLayerElsewhere(layers: seq<nat>, s: NetState, gamma: Vec, m: nat, l: nat)
    requires Shaped(layers, s)
    requires m + 1 < |layers| && |gamma| == layers[m + 1]
    requires l + 1 < |layers| && l != m
    ensures AdjustLayer(layers, s, gamma, m).biases[l] == s.biases[l]
    ensures AdjustLayer(layers, s, gamma, m).weights[l] == s.weights[l]
  {
  }

  /** Every layer m < top of `t` is that of `s` adjusted once with the delta
      of layer m + 1, the deltas coming down from `gamma` at `top` through the
      weights of `t`. */
  ghost predicate AdjustedByDeltas(layers: seq<nat>, s: NetState, t: NetState, neurons: seq<Vec>, gamma: Vec, top: nat)
    requires Shaped(layers, s) && Shaped(layers, t) && NeuronsShaped(layers, neurons)
    requires top < |layers| && |gamma| == layers[top]
  {
    forall m :: 0 <= m < top ==>
      var d := Delta(layers, neurons, t.weights, gamma, top, m + 1);
      t.biases[m] == AdjustBiases(s.biases[m], d) &&
      t.weights[m] == AdjustWeights(s.weights[m], d, neurons[m])
  }

  /** Back-propagation in closed form.  The activations are those of the
      forward pass.  Every layer's biases and weights are adjusted once, with
      that layer's delta: the output delta for the last layer, and for a hidden
      layer the delta back-propagated through the weights of the layer above
      as they are after this very step (they were adjusted earlier in it). */
  lemma TrainStepClosedForm(layers: seq<nat>, s: NetState, inputs: Vec, expected: Vec)
    requires Shaped(layers, s)
    requires |inputs| <= layers[0] && layers[|layers| - 1] <= |expected|
    ensures var f := Forward(layers, s, inputs);
      var t := TrainStep(layers, s, inputs, expected);
      && t.neurons == f.neurons
      && AdjustedByDeltas(layers, s, t, f.neurons, OutputGamma(f.neurons[|layers| - 1], expected), |layers| - 1)
  {
    var f := Forward(layers, s, inputs);
    var t := TrainStep(layers, s, inputs, expected);
    var top := |layers| - 1;
    var g := OutputGamma(f.neurons[top], expected);
    forall m | 0 <= m < top
      ensures var d := Delta(layers, f.neurons, t.weights, g, top, m + 1);
        t.biases[m] == AdjustBiases(s.biases[m], d) &&
        t.weights[m] == AdjustWeights(s.weights[m], d, f.neurons[m])
    {
      TrainStepLayer(layers, s, inputs, expected, m);
    }
  }

  /** The training step adjusts layer m + 1 once, with its delta. */
  lemma TrainStepLayer(layers: seq<nat>, s: NetState, inputs: Vec, expected: Vec, m: nat)
    requires Shaped(layers, s)
    requires |inputs| <= layers[0] && layers[|layers| - 1] <= |expected|
    requires m + 1 < |layers|
    ensures var f := Forward(layers, s, inputs);
      var t := TrainStep(layers, s, inputs, expected);
      var d := Delta(layers, f.neurons, t.weights, OutputGamma(f.neurons[|layers| - 1], expected), |layers| - 1, m + 1);
      t.biases[m] == AdjustBiases(s.biases[m], d) &&
      t.weights[m] == AdjustWeights(s.weights[m], d, f.neurons[m])
  {
    var f := Forward(layers, s, inputs);
    var top := |layers| - 1;
    var g := OutputGamma(f.neurons[top], expected);
    var adjusted := AdjustLayer(layers, f, g, top - 1);
    var t := Backward(layers, adjusted, g, top - 1);
    assert t == TrainStep(layers, s, inputs, expected);
    if m == top - 1 {
      BackwardAbove(layers, adjusted, g, top - 1, m);
    } else {
      BackwardBelow(layers, adjusted, g, top - 1, m);
      AdjustLayerElsewhere(layers, f, g, top - 1, m);
    }
  }
}
