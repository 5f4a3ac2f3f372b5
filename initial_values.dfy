/**
 * The starting values of a new network.  Neurons start at zero.  Every bias
 * and every weight takes one random integer k from [0, 100000) and becomes
 * (k - 50000) / 100000.  The integers are drawn in parameter-file order:
 * every bias, then every weight.  The random source itself is not modelled;
 * the integers it would return are an input.
 */
module InitialValues {
  import opened NetworkValues
  import opened ParameterFile

  /** The exclusive upper bound of a random draw. */
  const DrawBound: int := 100000

  /** A draw the random source can return. */
  predicate ValidDraw(k: int)
  {
    0 <= k < DrawBound
  }

  /** The starting value made from one draw. */
  function RandomValue(k: int): (v: real)
    ensures ValidDraw(k) ==> -0.5 <= v < 0.5
  {
    (k - 50000) as real / 100000.0
  }

  /** The starting values made from a list of draws, in order. */
  function RandomValues(draws: seq<int>): (vs: Vec)
    ensures |vs| == |draws|
    ensures forall i {:trigger vs[i]} :: 0 <= i < |draws| ==> vs[i] == RandomValue(draws[i])
  {
    seq(|draws|, i requires 0 <= i < |draws| => RandomValue(draws[i]))
  }

  /** n zeros. */
  function Zeros(n: nat): (v: Vec)
    ensures |v| == n && forall i :: 0 <= i < n ==> v[i] == 0.0
  {
    seq(n, _ => 0.0)
  }

  /** A matrix of zeros. */
  function ZeroMatrix(rows: nat, cols: nat): (m: Mat)
    ensures |m| == rows && forall j :: 0 <= j < rows ==> m[j] == Zeros(cols)
  {
    seq(rows, _ => Zeros(cols))
  }

  /** A network of the given layer sizes with every number zero. */
  function ZeroState(layers: seq<nat>): (s: NetState)
    requires |layers| >= 2
    ensures Shaped(layers, s)
    ensures forall l :: 0 <= l < |layers| ==> s.neurons[l] == Zeros(layers[l])
    ensures forall l :: 0 <= l < |layers| - 1 ==> s.biases[l] == Zeros(layers[l + 1])
    ensures forall l {:trigger s.weights[l]} :: 0 <= l < |layers| - 1 ==> s.weights[l] == ZeroMatrix(layers[l + 1], layers[l])
  {
    var s := NetState(
      seq(|layers|, l requires 0 <= l < |layers| => Zeros(layers[l])),
      seq(|layers| - 1, l requires 0 <= l < |layers| - 1 => Zeros(layers[l + 1])),
      seq(|layers| - 1, l requires 0 <= l < |layers| - 1 => ZeroMatrix(layers[l + 1], layers[l])));
    assert WeightsShaped(layers, s.weights) by {
      forall l {:trigger s.weights[l]} | 0 <= l < |s.weights|
        ensures |s.weights[l]| == layers[l + 1]
        ensures forall j :: 0 <= j < |s.weights[l]| ==> |s.weights[l][j]| == layers[l]
      {
      }
    }
    s
  }

  /** A new network: zero neurons, and the draws taken as a parameter file
      read over a network of zeros. */
  function InitialState(layers: seq<nat>, draws: seq<int>): (s: NetState)
    requires |layers| >= 2
    ensures Shaped(layers, s)
  {
    LoadValues(layers, ZeroState(layers), RandomValues(draws))
  }

  /** A new network row by row: zero neurons; the biases of layer l + 1
      overlaid by the draws from that layer's first bias position on; the
      weights into layer l + 1 overlaid by the draws from that layer's first
      weight position on. */
  lemma InitialRows(layers: seq<nat>, draws: seq<int>)
    requires |layers| >= 2
    ensures var s := InitialState(layers, draws);
            && (forall l :: 0 <= l < |layers| ==> s.neurons[l] == Zeros(layers[l]))
            && (forall l :: 0 <= l < |layers| - 1 ==>
                  s.biases[l] == PickAll(Zeros(layers[l + 1]), RandomValues(draws), BiasOffset(layers, l)))
            && (forall l {:trigger s.weights[l]} :: 0 <= l < |layers| - 1 ==>
                  s.weights[l] == LoadMatrix(ZeroMatrix(layers[l + 1], layers[l]), layers[l], RandomValues(draws), WeightStart(layers, l)))
  {
    var z, r := ZeroState(layers), RandomValues(draws);
    forall l | 0 <= l < |layers| - 1
      ensures InitialState(layers, draws).biases[l] == PickAll(Zeros(layers[l + 1]), r, BiasOffset(layers, l))
      ensures InitialState(layers, draws).weights[l] ==
              LoadMatrix(ZeroMatrix(layers[l + 1], layers[l]), layers[l], r, WeightStart(layers, l))
    {
      LoadedBiases(layers, z, r, l);
      LoadedWeights(layers, z, r, l);
    }
  }

  /** The weight from neuron k of layer l into neuron j of layer l + 1 of a
      new network is the value of the draw at its position in the file. */
  lemma InitialWeightAt(layers: seq<nat>, draws: seq<int>, l: nat, j: nat, k: nat)
    requires |layers| >= 2 && ParamCount(layers) <= |draws|
    requires l + 1 < |layers| && j < layers[l + 1] && k < layers[l]
    ensures WeightPos(layers, l, j, k) < |draws|
    ensures InitialState(layers, draws).weights[l][j][k] == RandomValue(draws[WeightPos(layers, l, j, k)])
  {
    PositionsInRange(layers, l, j, k);
    LoadedWeightAt(layers, ZeroState(layers), RandomValues(draws), l, j, k);
  }

  /** Every draw the random source can return. */
  predicate ValidDraws(draws: seq<int>)
  {
    forall i :: 0 <= i < |draws| ==> ValidDraw(draws[i])
  }

  /** Saving a new network writes back, in order, the values of the draws
      it was made from. */
  lemma InitialSaved(layers: seq<nat>, draws: seq<int>)
    requires |layers| >= 2 && |draws| == ParamCount(layers)
    ensures var s := InitialState(layers, draws);
            Flatten(s.biases, s.weights) == RandomValues(draws)
  {
    var z := ZeroState(layers);
    LoadInFileOrder(layers, z, RandomValues(draws));
    assert RandomValues(draws)[..ParamCount(layers)] == RandomValues(draws);
  }

  /** Every starting bias and weight lies in [-0.5, 0.5), and every neuron
      starts at zero. */
  lemma InitialInRange(layers: seq<nat>, draws: seq<int>)
    requires |layers| >= 2 && |draws| == ParamCount(layers) && ValidDraws(draws)
    ensures var s := InitialState(layers, draws);
            && (forall l, j :: 0 <= l < |layers| && 0 <= j < layers[l] ==> s.neurons[l][j] == 0.0)
            && (forall l, j :: 0 <= l < |layers| - 1 && 0 <= j < layers[l + 1] ==> -0.5 <= s.biases[l][j] < 0.5)
            && (forall l, j, k :: 0 <= l < |layers| - 1 && 0 <= j < layers[l + 1] && 0 <= k < layers[l] ==>
                  -0.5 <= s.weights[l][j][k] < 0.5)
  {
    var s := InitialState(layers, draws);
    var saved := Flatten(s.biases, s.weights);
    InitialSaved(layers, draws);
    forall l, j | 0 <= l < |layers| - 1 && 0 <= j < layers[l + 1]
      ensures -0.5 <= s.biases[l][j] < 0.5
    {
      FlattenBiasAt(layers, s.biases, s.weights, l, j);
      assert s.biases[l][j] == RandomValue(draws[BiasOffset(layers, l) + j]);
    }
    forall l, j, k | 0 <= l < |layers| - 1 && 0 <= j < layers[l + 1] && 0 <= k < layers[l]
      ensures -0.5 <= s.weights[l][j][k] < 0.5
    {
      FlattenWeightAt(layers, s.biases, s.weights, l, j, k);
      assert s.weights[l][j][k] == RandomValue(draws[WeightPos(layers, l, j, k)]);
    }
  }
}
