/**
 * The formula a network with one input and one output stands for, as an
 * expression tree in the input x.  Neuron j of layer l is
 *   tanh(w0 * e0 + w1 * e1 + ... + b)
 * over the expressions e0, e1, ... of layer l - 1, summed left to right as
 * the emitted text parses.  A layer with no predecessor neurons contributes
 * tanh(b).
 *
 * The construction keeps a map from (layer, neuron) to expressions.  After
 * a layer is built, the entries of the previous layer that were read are
 * removed; Live says which keys remain.
 */
module NetworkFormula {
  import opened NetworkValues

  datatype Expr =
    | X
    | Const(c: real)
    | Add(left: Expr, right: Expr)
    | Mul(left: Expr, right: Expr)
    | TanhOf(arg: Expr)

  /** The value of e when the input is x. */
  function Eval(e: Expr, x: real): real
  {
    match e
    case X => x
    case Const(c) => c
    case Add(a, b) => Eval(a, x) + Eval(b, x)
    case Mul(a, b) => Eval(a, x) * Eval(b, x)
    case TanhOf(a) => Tanh(Eval(a, x))
  }

  /** w[0] * prev[0] + ... + w[n-1] * prev[n-1], summed left to right. */
  function WeightedSum(w: Vec, prev: seq<Expr>, n: nat): Expr
    requires 1 <= n <= |w| && n <= |prev|
  {
    var term := Mul(Const(w[n - 1]), prev[n - 1]);
    if n == 1 then term else Add(WeightedSum(w, prev, n - 1), term)
  }

  /** A neuron with incoming weights w and bias b over the previous layer's expressions. */
  function NeuronExpr(w: Vec, b: real, prev: seq<Expr>): Expr
    requires |w| == |prev|
  {
    TanhOf(if |prev| == 0 then Const(b) else Add(WeightedSum(w, prev, |prev|), Const(b)))
  }

  /** The expressions of the neurons of layer l, for a network with one input. */
  function LayerExprs(layers: seq<nat>, biases: seq<Vec>, weights: seq<Mat>, l: nat): (es: seq<Expr>)
    requires ParamsShaped(layers, biases, weights) && layers[0] == 1 && l < |layers|
    ensures |es| == layers[l]
  {
    if l == 0 then [X]
    else
      var prev := LayerExprs(layers, biases, weights, l - 1);
      seq(layers[l], j requires 0 <= j < layers[l] => NeuronExpr(weights[l - 1][j], biases[l - 1][j], prev))
  }

  /** The weighted sum evaluates to the dot product of the weights with the
      values of the summed expressions. */
  lemma {:induction false} WeightedSumEval(w: Vec, prev: seq<Expr>, v: Vec, n: nat, x: real)
    requires 1 <= n <= |w| && n <= |prev| && n <= |v|
    requires forall k :: 0 <= k < n ==> Eval(prev[k], x) == v[k]
    ensures Eval(WeightedSum(w, prev, n), x) == Dot(w, v, n)
  {
    var term := Mul(Const(w[n - 1]), prev[n - 1]);
    assert Eval(term, x) == w[n - 1] * v[n - 1];
    if n > 1 {
      WeightedSumEval(w, prev, v, n - 1, x);
      assert WeightedSum(w, prev, n) == Add(WeightedSum(w, prev, n - 1), term);
    }
  }

  /** Every neuron's expression evaluates to that neuron's activation in the
      forward pass of the input x. */
  lemma {:induction false} LayerExprsEval(layers: seq<nat>, biases: seq<Vec>, weights: seq<Mat>, l: nat, x: real)
    requires ParamsShaped(layers, biases, weights) && layers[0] == 1 && l < |layers|
    ensures forall j :: 0 <= j < layers[l] ==>
              Eval(LayerExprs(layers, biases, weights, l)[j], x) == Activations(layers, biases, weights, [x], l)[l][j]
  {
    if l > 0 {
      LayerExprsEval(layers, biases, weights, l - 1, x);
      var prev := LayerExprs(layers, biases, weights, l - 1);
      var acts := Activations(layers, biases, weights, [x], l);
      var v := Activations(layers, biases, weights, [x], l - 1)[l - 1];
      ActivationsLayer(layers, biases, weights, [x], l, l);
      assert acts[l - 1] == v;
      forall j | 0 <= j < layers[l]
        ensures Eval(LayerExprs(layers, biases, weights, l)[j], x) == acts[l][j]
      {
        var w, b := weights[l - 1][j], biases[l - 1][j];
        assert LayerExprs(layers, biases, weights, l)[j] == NeuronExpr(w, b, prev);
        assert acts[l][j] == Tanh(Dot(w, v, layers[l - 1]) + b);
        if layers[l - 1] > 0 {
          var sum := WeightedSum(w, prev, layers[l - 1]);
          WeightedSumEval(w, prev, v, layers[l - 1], x);
          assert Eval(Add(sum, Const(b)), x) == Dot(w, v, layers[l - 1]) + b;
        }
      }
    }
  }

  /** The formula of the output neuron computes what the forward pass of a
      network with one input and one output returns. */
  lemma FormulaIsForward(layers: seq<nat>, s: NetState, x: real)
    requires Shaped(layers, s) && layers[0] == 1 && layers[|layers| - 1] == 1
    ensures Eval(LayerExprs(layers, s.biases, s.weights, |layers| - 1)[0], x) ==
            Forward(layers, s, [x]).neurons[|layers| - 1][0]
  {
    assert InputLayer([x], s.neurons[0]) == [x];
    LayerExprsEval(layers, s.biases, s.weights, |layers| - 1, x);
  }

  // ---------------------------------------------------------------------
  // Keys of the map of expressions
  // ---------------------------------------------------------------------

  /** A map key: a neuron of a layer. */
  datatype Key = Key(layer: nat, neuron: nat)

  /** The keys of neurons 0..n-1 of layer l. */
  function KeysBelow(l: nat, n: nat): (ks: set<Key>)
    ensures forall key :: key in ks <==> key.layer == l && key.neuron < n
  {
    set j | 0 <= j < n :: Key(l, j)
  }

  /** The keys of the neurons of layer l. */
  function LayerKeys(layers: seq<nat>, l: nat): (ks: set<Key>)
    requires l < |layers|
    ensures forall key :: key in ks <==> key.layer == l && key.neuron < layers[l]
  {
    KeysBelow(l, layers[l])
  }

  /** The keys left in the map after layer l is built.  Building a layer reads
      every entry of the layer before it once per neuron, so those entries are
      removed exactly when the new layer has a neuron. */
  function Live(layers: seq<nat>, l: nat): set<Key>
    requires layers != [] && layers[0] == 1 && l < |layers|
  {
    if l == 0 then {Key(0, 0)}
    else
      var read := if layers[l] == 0 then {} else LayerKeys(layers, l - 1);
      LayerKeys(layers, l) + (Live(layers, l - 1) - read)
  }

  /** The keys live after layer l is built: layer l's, and those live before
      except the previous layer's when layer l has a neuron. */
  lemma LiveStep(layers: seq<nat>, l: nat)
    requires layers != [] && layers[0] == 1 && 0 < l < |layers|
    ensures forall key :: key in Live(layers, l) <==>
              (key.layer == l && key.neuron < layers[l]) ||
              (key in Live(layers, l - 1) && !(layers[l] > 0 && key.layer == l - 1 && key.neuron < layers[l - 1]))
  {
  }

  /** Layer l's keys are live after layer l is built, and every live key names
      a neuron of layer l or an earlier one. */
  lemma {:induction false} LiveKeys(layers: seq<nat>, l: nat)
    requires layers != [] && layers[0] == 1 && l < |layers|
    ensures LayerKeys(layers, l) <= Live(layers, l)
    ensures forall key :: key in Live(layers, l) ==> key.layer <= l && key.neuron < layers[key.layer]
  {
    if l > 0 {
      LiveKeys(layers, l - 1);
    }
  }

  /** Every entry of the map is the expression of the neuron its key names. */
  ghost predicate ExprsAgree(layers: seq<nat>, biases: seq<Vec>, weights: seq<Mat>, values: map<Key, Expr>)
  {
    && ParamsShaped(layers, biases, weights) && layers[0] == 1
    && forall key :: key in values ==>
         key.layer < |layers| && key.neuron < layers[key.layer] && values[key] == LayerExprs(layers, biases, weights, key.layer)[key.neuron]
  }

  /** Every neuron of layer l is built from the expressions of layer l - 1. */
  lemma LayerExprsRows(layers: seq<nat>, biases: seq<Vec>, weights: seq<Mat>, l: nat)
    requires ParamsShaped(layers, biases, weights) && layers[0] == 1 && 0 < l < |layers|
    ensures forall j :: 0 <= j < layers[l] ==>
              LayerExprs(layers, biases, weights, l)[j] ==
              NeuronExpr(weights[l - 1][j], biases[l - 1][j], LayerExprs(layers, biases, weights, l - 1))
  {
  }

  /** Before layer l is built, the map holds every expression of layer l - 1. */
  lemma PreviousLayerExprs(layers: seq<nat>, biases: seq<Vec>, weights: seq<Mat>, values: map<Key, Expr>, l: nat)
    requires ExprsAgree(layers, biases, weights, values) && 0 < l < |layers|
    requires values.Keys == Live(layers, l - 1)
    ensures forall key :: key in values ==> key.layer <= l - 1
    ensures forall key: Key :: key.layer == l - 1 && key.neuron < layers[l - 1] ==>
              key in values && values[key] == LayerExprs(layers, biases, weights, l - 1)[key.neuron]
  {
    LiveKeys(layers, l - 1);
  }

  /** Building layer l -- adding its neurons' expressions, then removing the
      keys read -- leaves the keys Live(layers, l), each mapped to the
      expression of the neuron it names. */
  lemma LayerBuilt(layers: seq<nat>, biases: seq<Vec>, weights: seq<Mat>, values: map<Key, Expr>,
                   next: map<Key, Expr>, l: nat, read: seq<Key>)
    requires ExprsAgree(layers, biases, weights, values) && 0 < l < |layers|
    requires values.Keys == Live(layers, l - 1)
    requires forall key :: key in read <==> layers[l] > 0 && key.layer == l - 1 && key.neuron < layers[l - 1]
    requires forall key :: key in next <==> (key in values || (key.layer == l && key.neuron < layers[l])) && key !in read
    requires forall key :: key in next ==>
               next[key] == if key in values then values[key] else LayerExprs(layers, biases, weights, l)[key.neuron]
    ensures next.Keys == Live(layers, l) && ExprsAgree(layers, biases, weights, next)
  {
    LiveStep(layers, l);
    LiveKeys(layers, l - 1);
    assert next.Keys == Live(layers, l);
  }

  /** Once the last layer is built, the map holds the expression of the
      output neuron. */
  lemma OutputExpr(layers: seq<nat>, biases: seq<Vec>, weights: seq<Mat>, values: map<Key, Expr>)
    requires ExprsAgree(layers, biases, weights, values) && layers[|layers| - 1] == 1
    requires values.Keys == Live(layers, |layers| - 1)
    ensures Key(|layers| - 1, 0) in values
    ensures values[Key(|layers| - 1, 0)] == LayerExprs(layers, biases, weights, |layers| - 1)[0]
  {
    LiveKeys(layers, |layers| - 1);
  }

  /** What the formula operation returns: a notice when the network does not
      have exactly one input and one output, else the output's formula. */
  datatype FormulaText =
    | OneInputOneOutputOnly
    | FormulaOf(y: Expr)

  /** When no layer up to l is empty, exactly layer l's keys are live. */
  lemma {:induction false} LiveIsLastLayer(layers: seq<nat>, l: nat)
    requires layers != [] && layers[0] == 1 && l < |layers|
    requires forall m :: 0 < m <= l ==> layers[m] > 0
    ensures Live(layers, l) == LayerKeys(layers, l)
  {
    if l > 0 {
      LiveIsLastLayer(layers, l - 1);
    }
  }
}
