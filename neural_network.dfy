/**
 * The NeuralNetwork class: a feedforward tanh network whose activations,
 * biases and weights are arrays overwritten in place, and the registry that
 * keeps every network by its id.
 *
 * The outer levels of the source's jagged arrays are created once, at
 * construction, and never replaced; they are therefore immutable sequences of
 * array references here.  A layer's weight rows all have the length of the
 * previous layer, so each layer's weights are one two-dimensional array
 * (row j = neuron j of the layer, column k = neuron k of the previous layer).
 */
module NeuralNetworkModel {
  import opened NetworkValues
  import opened ParameterFile
  import opened InitialValues
  import opened NetworkFormula

  /** The contents of a sequence of arrays. */
  ghost function Contents(arrays: seq<array<real>>): (v: seq<Vec>)
    reads set a | a in arrays
    ensures |v| == |arrays|
    ensures forall l :: 0 <= l < |arrays| ==> v[l] == arrays[l][..]
  {
    if arrays == [] then [] else Contents(arrays[..|arrays| - 1]) + [arrays[|arrays| - 1][..]]
  }

  /** The contents of a two-dimensional array, row by row. */
  ghost function Matrix(a: array2<real>): (m: Mat)
    reads a
    ensures |m| == a.Length0
    ensures forall j :: 0 <= j < a.Length0 ==> |m[j]| == a.Length1
    ensures forall j, k :: 0 <= j < a.Length0 && 0 <= k < a.Length1 ==> m[j][k] == a[j, k]
  {
    seq(a.Length0, j reads a requires 0 <= j < a.Length0 =>
      seq(a.Length1, k reads a requires 0 <= k < a.Length1 => a[j, k]))
  }

  /** The contents of a sequence of two-dimensional arrays. */
  ghost function Matrices(arrays: seq<array2<real>>): (v: seq<Mat>)
    reads set a | a in arrays
    ensures |v| == |arrays|
    ensures forall l :: 0 <= l < |arrays| ==> v[l] == Matrix(arrays[l])
  {
    if arrays == [] then [] else Matrices(arrays[..|arrays| - 1]) + [Matrix(arrays[|arrays| - 1])]
  }

  // ---------------------------------------------------------------------
  // Allocation of a new network's arrays
  // ---------------------------------------------------------------------

  /** One zeroed activation array per layer. */
  method NewNeurons(layers: seq<nat>) returns (neurons: seq<array<real>>)
    ensures |neurons| == |layers|
    ensures forall l :: 0 <= l < |layers| ==> fresh(neurons[l]) && neurons[l][..] == Zeros(layers[l])
    ensures forall l, m :: 0 <= l < m < |neurons| ==> neurons[l] != neurons[m]
  {
    neurons := [];
    for l := 0 to |layers|
      invariant |neurons| == l
      invariant forall l' :: 0 <= l' < l ==> fresh(neurons[l']) && neurons[l'][..] == Zeros(layers[l'])
      invariant forall l', m :: 0 <= l' < m < l ==> neurons[l'] != neurons[m]
    {
      var a := new real[layers[l]](_ => 0.0);
      neurons := neurons + [a];
    }
  }

  /** A bias array of n entries, each made from the next draw, starting at draw `start`. */
  method NewBiasRow(n: nat, draws: seq<int>, start: nat) returns (row: array<real>)
    requires start + n <= |draws|
    ensures fresh(row)
    ensures row[..] == PickAll(Zeros(n), RandomValues(draws), start)
  {
    row := new real[n];
    var index := start;
    for j := 0 to n
      invariant index == start + j
      invariant forall j' :: 0 <= j' < j ==> row[j'] == RandomValue(draws[start + j'])
    {
      row[j] := RandomValue(draws[index]);
      index := index + 1;
    }
  }

  /** The bias arrays of every non-input layer, from the first draws. */
  method NewBiases(layers: seq<nat>, draws: seq<int>) returns (biases: seq<array<real>>)
    requires |layers| >= 2 && BiasCount(layers) <= |draws|
    ensures |biases| == |layers| - 1
    ensures forall l :: 0 <= l < |biases| ==> fresh(biases[l]) && InitialBiasArray(layers, draws, l, biases[l])
    ensures forall l, m :: 0 <= l < m < |biases| ==> biases[l] != biases[m]
  {
    biases := [];
    var index := 0;
    for l := 0 to |layers| - 1
      invariant |biases| == l && index == BiasOffset(layers, l)
      invariant forall l' :: 0 <= l' < l ==> fresh(biases[l']) && InitialBiasArray(layers, draws, l', biases[l'])
      invariant forall l', m :: 0 <= l' < m < l ==> biases[l'] != biases[m]
    {
      var row;
      row, index := NewLayerBiases(layers, draws, l, index);
      biases := biases + [row];
    }
  }

  /** b holds the draws at the bias positions of layer l + 1, over zeros. */
  ghost predicate InitialBiasArray(layers: seq<nat>, draws: seq<int>, l: nat, b: array<real>)
    reads b
  {
    && l + 1 < |layers|
    && b[..] == PickAll(Zeros(layers[l + 1]), RandomValues(draws), BiasOffset(layers, l))
  }

  /** The bias array of layer l + 1, from the draws at that layer's bias
      positions; `next` is the position after them. */
  method NewLayerBiases(layers: seq<nat>, draws: seq<int>, l: nat, start: nat) returns (b: array<real>, next: nat)
    requires l + 1 < |layers| && BiasCount(layers) <= |draws| && start == BiasOffset(layers, l)
    ensures fresh(b) && InitialBiasArray(layers, draws, l, b)
    ensures next == BiasOffset(layers, l + 1)
  {
    BiasRowFits(layers, l);
    b := NewBiasRow(layers[l + 1], draws, start);
    next := start + layers[l + 1];
  }

  /** A weight array of the given size, filled row by row from the next
      draws, starting at draw `start`. */
  method NewWeightMatrix(rows: nat, cols: nat, draws: seq<int>, start: nat) returns (w: array2<real>)
    requires start + rows * cols <= |draws|
    ensures fresh(w) && w.Length0 == rows && w.Length1 == cols
    ensures Matrix(w) == LoadMatrix(ZeroMatrix(rows, cols), cols, RandomValues(draws), start)
  {
    w := new real[rows, cols];
    ghost var r := RandomValues(draws);
    var index := start;
    for j := 0 to rows
      invariant index == start + j * cols
      invariant forall j', k :: 0 <= j' < j && 0 <= k < cols ==> w[j', k] == Pick(r, start + j' * cols + k, 0.0)
    {
      for k := 0 to cols
        invariant index == start + j * cols + k
        invariant forall j', k' :: 0 <= j' < j && 0 <= k' < cols ==> w[j', k'] == Pick(r, start + j' * cols + k', 0.0)
        invariant forall k' :: 0 <= k' < k ==> w[j, k'] == Pick(r, start + j * cols + k', 0.0)
      {
        RowStart(cols, j, k, rows);
        w[j, k] := RandomValue(draws[index]);
        index := index + 1;
      }
      assert index == start + (j + 1) * cols;
    }
    ghost var m := LoadMatrix(ZeroMatrix(rows, cols), cols, r, start);
    forall j | 0 <= j < rows
      ensures Matrix(w)[j] == m[j]
    {
      assert m[j] == PickAll(Zeros(cols), r, start + j * cols);
    }
  }

  /** The weight arrays of every non-input layer, from the draws after the biases. */
  method NewWeights(layers: seq<nat>, draws: seq<int>) returns (weights: seq<array2<real>>)
    requires |layers| >= 2 && ParamCount(layers) <= |draws|
    ensures |weights| == |layers| - 1
    ensures forall l :: 0 <= l < |weights| ==> fresh(weights[l]) && InitialWeightArray(layers, draws, l, weights[l])
    ensures forall l, m :: 0 <= l < m < |weights| ==> weights[l] != weights[m]
  {
    weights := [];
    var index := BiasCount(layers);
    for l := 0 to |layers| - 1
      invariant |weights| == l && index == WeightStart(layers, l)
      invariant forall l' :: 0 <= l' < l ==> fresh(weights[l']) && InitialWeightArray(layers, draws, l', weights[l'])
      invariant forall l', m :: 0 <= l' < m < l ==> weights[l'] != weights[m]
    {
      var w;
      w, index := NewLayerWeights(layers, draws, l, index);
      weights := weights + [w];
    }
  }

  /** w has the shape of the weights into layer l + 1 and holds the draws
      at their positions, over zeros. */
  ghost predicate InitialWeightArray(layers: seq<nat>, draws: seq<int>, l: nat, w: array2<real>)
    reads w
  {
    && l + 1 < |layers|
    && w.Length0 == layers[l + 1] && w.Length1 == layers[l]
    && Matrix(w) == LoadMatrix(ZeroMatrix(layers[l + 1], layers[l]), layers[l], RandomValues(draws), WeightStart(layers, l))
  }

  /** The weight array into layer l + 1, from the draws at that layer's
      weight positions; `next` is the position after them. */
  method NewLayerWeights(layers: seq<nat>, draws: seq<int>, l: nat, start: nat) returns (w: array2<real>, next: nat)
    requires l + 1 < |layers| && ParamCount(layers) <= |draws| && start == WeightStart(layers, l)
    ensures fresh(w) && InitialWeightArray(layers, draws, l, w)
    ensures next == WeightStart(layers, l + 1)
  {
    WeightRowsFit(layers, l);
    w := NewWeightMatrix(layers[l + 1], layers[l], draws, start);
    next := start + layers[l + 1] * layers[l];
  }

  /** Every array of a network. */
  ghost function Objects(neurons: seq<array<real>>, biases: seq<array<real>>, weights: seq<array2<real>>): set<object>
  {
    (set l | 0 <= l < |neurons| :: neurons[l] as object) + (set l | 0 <= l < |biases| :: biases[l] as object) +
    (set l | 0 <= l < |weights| :: weights[l] as object)
  }

  /** Array sizes follow the layer sizes, and no two arrays are the same. */
  ghost predicate ArraysShaped(layers: seq<nat>, neurons: seq<array<real>>, biases: seq<array<real>>, weights: seq<array2<real>>)
  {
    && |layers| >= 2
    && |neurons| == |layers| && |biases| == |layers| - 1 && |weights| == |layers| - 1
    && (forall l :: 0 <= l < |neurons| ==> neurons[l].Length == layers[l])
    && (forall l {:trigger biases[l]} :: 0 <= l < |biases| ==> biases[l].Length == layers[l + 1])
    && (forall l {:trigger weights[l]} :: 0 <= l < |weights| ==> weights[l].Length0 == layers[l + 1])
    && (forall l :: 0 <= l < |weights| ==> weights[l].Length1 == layers[l])
    && (forall l, m {:trigger Apart(neurons[l], neurons[m])} ::
          0 <= l < |neurons| && 0 <= m < |neurons| && l != m ==> Apart(neurons[l], neurons[m]))
    && (forall l, m {:trigger Apart(biases[l], biases[m])} ::
          0 <= l < |biases| && 0 <= m < |biases| && l != m ==> Apart(biases[l], biases[m]))
    && (forall l, m {:trigger Apart(weights[l], weights[m])} ::
          0 <= l < |weights| && 0 <= m < |weights| && l != m ==> Apart(weights[l], weights[m]))
    && (forall l, m {:trigger Apart(neurons[l], biases[m])} ::
          0 <= l < |neurons| && 0 <= m < |biases| ==> Apart(neurons[l], biases[m]))
  }

  /** Two different arrays.  The shape invariant states distinctness through
      this predicate so that the solver uses it only where a proof names the
      pair. */
  predicate Apart(a: object, b: object)
  {
    a != b
  }

  /** The arrays hold what a new network starts with: zero neurons, and the
      draws at the bias and weight positions of the parameter file. */
  ghost predicate InitialArrays(layers: seq<nat>, draws: seq<int>,
                                neurons: seq<array<real>>, biases: seq<array<real>>, weights: seq<array2<real>>)
    reads Objects(neurons, biases, weights)
  {
    && |neurons| == |layers| && |biases| == |layers| - 1 && |weights| == |layers| - 1
    && (forall l :: 0 <= l < |neurons| ==> neurons[l][..] == Zeros(layers[l]))
    && (forall l :: 0 <= l < |biases| ==> InitialBiasArray(layers, draws, l, biases[l]))
    && (forall l :: 0 <= l < |weights| ==> InitialWeightArray(layers, draws, l, weights[l]))
  }

  /** Every array of a new network, filled from the draws. */
  method NewArrays(layers: seq<nat>, draws: seq<int>)
    returns (neurons: seq<array<real>>, biases: seq<array<real>>, weights: seq<array2<real>>)
    requires |layers| >= 2 && ParamCount(layers) <= |draws|
    ensures ArraysShaped(layers, neurons, biases, weights)
    ensures fresh(Objects(neurons, biases, weights))
    ensures InitialArrays(layers, draws, neurons, biases, weights)
  {
    neurons := NewNeurons(layers);
    biases := NewBiases(layers, draws);
    weights := NewWeights(layers, draws);
  }

  /** Zeroed activation arrays are a new network's neurons. */
  lemma InitialNeurons(layers: seq<nat>, draws: seq<int>, neurons: seq<array<real>>)
    requires |layers| >= 2 && |neurons| == |layers|
    requires forall l :: 0 <= l < |neurons| ==> neurons[l][..] == Zeros(layers[l])
    ensures Contents(neurons) == InitialState(layers, draws).neurons
  {
  }

  /** Bias arrays holding the draws at the bias positions are a new network's biases. */
  lemma InitialBiases(layers: seq<nat>, draws: seq<int>, biases: seq<array<real>>)
    requires |layers| >= 2 && |biases| == |layers| - 1
    requires forall l :: 0 <= l < |biases| ==> InitialBiasArray(layers, draws, l, biases[l])
    ensures Contents(biases) == InitialState(layers, draws).biases
  {
    InitialRows(layers, draws);
  }

  /** Weight arrays holding the draws at the weight positions are a new network's weights. */
  lemma InitialWeights(layers: seq<nat>, draws: seq<int>, weights: seq<array2<real>>)
    requires |layers| >= 2 && |weights| == |layers| - 1
    requires forall l :: 0 <= l < |weights| ==> InitialWeightArray(layers, draws, l, weights[l])
    ensures Matrices(weights) == InitialState(layers, draws).weights
  {
    InitialRows(layers, draws);
  }

  // ---------------------------------------------------------------------
  // Writing and reading the parameter file, one array at a time
  // ---------------------------------------------------------------------

  /** lines followed by the entries of a, in order. */
  method AppendArray(lines: Vec, a: array<real>) returns (r: Vec)
    ensures r == lines + a[..]
  {
    r := lines;
    for j := 0 to a.Length
      invariant r == lines + a[..j]
    {
      r := r + [a[j]];
      assert a[..j + 1] == a[..j] + [a[j]];
    }
    assert a[..a.Length] == a[..];
  }

  /** lines followed by the rows of w, in order. */
  method AppendMatrix(lines: Vec, w: array2<real>) returns (r: Vec)
    ensures r == lines + Concat(Matrix(w))
  {
    ghost var m := Matrix(w);
    r := lines;
    for j := 0 to w.Length0
      invariant r == lines + Concat(m[..j])
    {
      for k := 0 to w.Length1
        invariant r == lines + Concat(m[..j]) + m[j][..k]
      {
        r := r + [w[j, k]];
        assert m[j][..k + 1] == m[j][..k] + [m[j][k]];
      }
      assert m[j][..w.Length1] == m[j];
      assert m[..j + 1][..j] == m[..j];
    }
    assert m[..w.Length0] == m;
  }

  /** lines followed by the entries of every array of arrays, in order. */
  method AppendArrays(lines: Vec, arrays: seq<array<real>>) returns (r: Vec)
    ensures r == lines + Concat(Contents(arrays))
  {
    ghost var cs := Contents(arrays);
    r := lines;
    for l := 0 to |arrays|
      invariant r == lines + Concat(cs[..l])
    {
      r := AppendArray(r, arrays[l]);
      assert cs[..l + 1][..l] == cs[..l];
    }
    assert cs[..|arrays|] == cs;
  }

  /** Appending vs[l] after the concatenation of the vectors before it gives the concatenation up to vs[l]. */
  lemma ConcatPrefixStep(lines: Vec, before: Vec, after: Vec, vs: seq<Vec>, l: nat)
    requires l < |vs| && before == lines + Concat(vs[..l]) && after == before + vs[l]
    ensures after == lines + Concat(vs[..l + 1])
  {
    assert vs[..l + 1][..l] == vs[..l];
  }

  /** lines followed by the rows of every matrix of arrays, in order. */
  method AppendMatrices(lines: Vec, arrays: seq<array2<real>>) returns (r: Vec)
    ensures r == lines + Concat(LayerWeights(Matrices(arrays)))
  {
    ghost var ws := LayerWeights(Matrices(arrays));
    r := lines;
    for l := 0 to |arrays|
      invariant r == lines + Concat(ws[..l])
    {
      ghost var before := r;
      r := AppendMatrix(r, arrays[l]);
      ConcatPrefixStep(lines, before, r, ws, l);
    }
    assert ws[..|arrays|] == ws;
  }

  /** The entries of a read from the file from line `start` on, stopping at the
      first line the file lacks; ok says whether every entry was read. */
  method LoadArray(a: array<real>, lines: Vec, start: nat) returns (ok: bool)
    requires start <= |lines|
    modifies a
    ensures a[..] == PickAll(old(a[..]), lines, start)
    ensures ok <==> start + a.Length <= |lines|
  {
    ghost var a0 := a[..];
    var index := start;
    for j := 0 to a.Length
      invariant index == start + j <= |lines|
      invariant forall j' :: 0 <= j' < a.Length ==> a[j'] == if j' < j then Pick(lines, start + j', a0[j']) else a0[j']
    {
      if index >= |lines| {
        assert a[..] == PickAll(a0, lines, start);
        return false;
      }
      a[j] := lines[index];
      index := index + 1;
    }
    ok := true;
    assert a[..] == PickAll(a0, lines, start);
  }

  /** Row j of w read from the file from line `start` on, stopping at the
      first line the file lacks; ok says whether the whole row was read. */
  method LoadRow(w: array2<real>, j: nat, lines: Vec, start: nat) returns (ok: bool)
    requires j < w.Length0 && start <= |lines|
    modifies w
    ensures forall r, k :: 0 <= r < w.Length0 && 0 <= k < w.Length1 ==>
              w[r, k] == if r == j then Pick(lines, start + k, old(w[r, k])) else old(w[r, k])
    ensures ok <==> start + w.Length1 <= |lines|
  {
    var index := start;
    for k := 0 to w.Length1
      invariant index == start + k <= |lines|
      invariant forall r, k' :: 0 <= r < w.Length0 && 0 <= k' < w.Length1 ==>
                  w[r, k'] == if r == j && k' < k then Pick(lines, start + k', old(w[r, k'])) else old(w[r, k'])
    {
      if index >= |lines| {
        return false;
      }
      w[j, k] := lines[index];
      index := index + 1;
    }
    ok := true;
  }

  /** The rows of w read from the file from line `start` on, stopping at the
      first line the file lacks; ok says whether every entry was read. */
  method LoadMatrixRows(w: array2<real>, lines: Vec, start: nat) returns (ok: bool)
    requires start <= |lines|
    modifies w
    ensures Matrix(w) == LoadMatrix(old(Matrix(w)), w.Length1, lines, start)
    ensures ok <==> start + w.Length0 * w.Length1 <= |lines|
  {
    ghost var w0 := Matrix(w);
    var n := w.Length1;
    var index: int := start;
    for j := 0 to w.Length0
      invariant index == start + j * n <= |lines|
      invariant forall r, k :: 0 <= r < w.Length0 && 0 <= k < n ==>
                  w[r, k] == if r < j then Pick(lines, start + r * n + k, w0[r][k]) else w0[r][k]
    {
      ok := LoadRow(w, j, lines, index);
      if !ok {
        forall r, k | 0 <= r < w.Length0 && 0 <= k < n
          ensures w[r, k] == Pick(lines, start + r * n + k, w0[r][k])
        {
          if j < r {
            RowAfter(n, j, r);
          }
        }
        MatrixLoaded(w, w0, lines, start);
        RowAfter(n, j, w.Length0);
        return;
      }
      assert (j + 1) * n == j * n + n;
      index := index + n;
    }
    ok := true;
    MatrixLoaded(w, w0, lines, start);
  }

  /** A matrix holding, at every entry, what the file gives that entry's line
      is the matrix loaded from the file. */
  lemma MatrixLoaded(w: array2<real>, w0: Mat, lines: Vec, start: nat)
    requires |w0| == w.Length0 && forall r :: 0 <= r < |w0| ==> |w0[r]| == w.Length1
    requires forall r, k :: 0 <= r < w.Length0 && 0 <= k < w.Length1 ==>
               w[r, k] == Pick(lines, start + r * w.Length1 + k, w0[r][k])
    ensures Matrix(w) == LoadMatrix(w0, w.Length1, lines, start)
  {
    var m := LoadMatrix(w0, w.Length1, lines, start);
    forall r | 0 <= r < w.Length0
      ensures Matrix(w)[r] == m[r]
    {
      assert m[r] == PickAll(w0[r], lines, start + r * w.Length1);
    }
  }

  /** Row j of w moves against the inputs, scaled by step: entry k loses
      step * inputs[k]; every other row is left as it was. */
  method AdjustRow(w: array2<real>, j: nat, inputs: array<real>, step: real)
    requires j < w.Length0 && inputs.Length == w.Length1
    modifies w
    ensures forall r, k :: 0 <= r < w.Length0 && 0 <= k < w.Length1 ==>
              w[r, k] == if r == j then old(w[r, k]) - step * inputs[k] else old(w[r, k])
  {
    for k := 0 to w.Length1
      invariant forall r, k' :: 0 <= r < w.Length0 && 0 <= k' < w.Length1 ==>
                  w[r, k'] == if r == j && k' < k then old(w[r, k']) - step * inputs[k'] else old(w[r, k'])
    {
      w[j, k] := w[j, k] - step * inputs[k];
    }
  }

  /** The bias arrays read from line 0 on, layer by layer, stopping at the
      first line the file lacks; ok says whether the file held them all. */
  method LoadBiasArrays(layers: seq<nat>, biases: seq<array<real>>, lines: Vec, ghost b0: seq<Vec>) returns (ok: bool)
    requires |layers| >= 2 && |biases| == |layers| - 1 && |b0| == |biases|
    requires forall l :: 0 <= l < |biases| ==> biases[l][..] == b0[l]
    requires forall l {:trigger biases[l]} :: 0 <= l < |biases| ==> biases[l].Length == layers[l + 1]
    requires forall l, m {:trigger Apart(biases[l], biases[m])} ::
               0 <= l < |biases| && 0 <= m < |biases| && l != m ==> Apart(biases[l], biases[m])
    modifies set a | a in biases
    ensures forall l :: 0 <= l < |biases| ==> biases[l][..] == PickAll(b0[l], lines, BiasOffset(layers, l))
    ensures ok <==> BiasCount(layers) <= |lines|
  {
    var index: int := 0;
    for l := 0 to |biases|
      invariant index == BiasOffset(layers, l) <= |lines|
      invariant BiasesLoadedUpTo(layers, biases, lines, b0, l)
    {
      ok, index := LoadLayerBiases(layers, biases, lines, l, index, b0);
      if !ok {
        BiasesLoaded(layers, biases, lines, b0, l + 1);
        return;
      }
    }
    ok := true;
    BiasesLoaded(layers, biases, lines, b0, |biases|);
  }

  /** Once the file has run out before layer l + 1, or l is past the last
      layer, every bias array holds what the file gives it. */
  lemma BiasesLoaded(layers: seq<nat>, biases: seq<array<real>>, lines: Vec, b0: seq<Vec>, l: nat)
    requires |layers| >= 2 && |biases| == |layers| - 1 && |b0| == |biases| && 1 <= l <= |biases|
    requires BiasesLoadedUpTo(layers, biases, lines, b0, l)
    requires l == |biases| || |lines| < BiasOffset(layers, l)
    ensures BiasesLoadedUpTo(layers, biases, lines, b0, |biases|)
    ensures l < |biases| ==> |lines| < BiasCount(layers)
  {
    if l < |biases| {
      LaterBiasesUnread(layers, b0, lines, l - 1);
    }
  }

  /** The bias arrays before layer l + 1 hold what the file gives them over
      b0; the rest still hold b0. */
  ghost predicate BiasesLoadedUpTo(layers: seq<nat>, biases: seq<array<real>>, lines: Vec, b0: seq<Vec>, l: nat)
    requires |biases| == |b0| && |biases| < |layers|
    reads set a | a in biases
  {
    forall m :: 0 <= m < |biases| ==>
      biases[m][..] == if m < l then PickAll(b0[m], lines, BiasOffset(layers, m)) else b0[m]
  }

  /** One step of LoadBiasArrays: the biases of layer l + 1 read from line
      `index` on, every other bias array left as it was. */
  method LoadLayerBiases(layers: seq<nat>, biases: seq<array<real>>, lines: Vec, l: nat, index: nat, ghost b0: seq<Vec>)
    returns (ok: bool, next: nat)
    requires |layers| >= 2 && |biases| == |layers| - 1 && |b0| == |biases| && l < |biases|
    requires forall l {:trigger biases[l]} :: 0 <= l < |biases| ==> biases[l].Length == layers[l + 1]
    requires forall l, m {:trigger Apart(biases[l], biases[m])} ::
               0 <= l < |biases| && 0 <= m < |biases| && l != m ==> Apart(biases[l], biases[m])
    requires index == BiasOffset(layers, l) <= |lines|
    requires BiasesLoadedUpTo(layers, biases, lines, b0, l)
    modifies biases[l]
    ensures BiasesLoadedUpTo(layers, biases, lines, b0, l + 1)
    ensures next == BiasOffset(layers, l + 1)
    ensures ok <==> next <= |lines|
  {
    ok := LoadArray(biases[l], lines, index);
    next := index + biases[l].Length;
    forall m | 0 <= m < |biases| && m != l
      ensures biases[m][..] == old(biases[m][..])
    {
      assert Apart(biases[m], biases[l]);
    }
  }

  /** The weight arrays read from the line after the last bias on, layer by
      layer, stopping at the first line the file lacks; ok says whether the
      file held them all. */
  method LoadWeightArrays(layers: seq<nat>, weights: seq<array2<real>>, lines: Vec, ghost w0: seq<Mat>) returns (ok: bool)
    requires |layers| >= 2 && |weights| == |layers| - 1 && BiasCount(layers) <= |lines| && |w0| == |weights|
    requires forall l :: 0 <= l < |weights| ==> Matrix(weights[l]) == w0[l]
    requires forall l {:trigger weights[l]} :: 0 <= l < |weights| ==> weights[l].Length0 == layers[l + 1] && weights[l].Length1 == layers[l]
    requires forall l, m {:trigger Apart(weights[l], weights[m])} ::
               0 <= l < |weights| && 0 <= m < |weights| && l != m ==> Apart(weights[l], weights[m])
    modifies set a | a in weights
    ensures forall l :: 0 <= l < |weights| ==>
              Matrix(weights[l]) == LoadMatrix(w0[l], layers[l], lines, WeightStart(layers, l))
    ensures ok <==> ParamCount(layers) <= |lines|
  {
    var index: int := BiasCount(layers);
    for l := 0 to |weights|
      invariant index == WeightStart(layers, l) <= |lines|
      invariant WeightsLoadedUpTo(layers, weights, lines, w0, l)
    {
      ok, index := LoadLayerWeights(layers, weights, lines, l, index, w0);
      if !ok {
        WeightsLoaded(layers, weights, lines, w0, l + 1);
        return;
      }
    }
    ok := true;
    WeightsLoaded(layers, weights, lines, w0, |weights|);
  }

  /** The weight arrays into the layers up to l hold what the file gives
      them over w0; the rest still hold w0. */
  ghost predicate WeightsLoadedUpTo(layers: seq<nat>, weights: seq<array2<real>>, lines: Vec, w0: seq<Mat>, l: nat)
    requires |weights| == |w0| && |weights| < |layers|
    reads set a | a in weights
  {
    forall m :: 0 <= m < |weights| ==>
      Matrix(weights[m]) == if m < l then LoadMatrix(w0[m], layers[m], lines, WeightStart(layers, m)) else w0[m]
  }

  /** Once the file has run out within the weights into layer l, or l is
      past the last layer, every weight array holds what the file gives it. */
  lemma WeightsLoaded(layers: seq<nat>, weights: seq<array2<real>>, lines: Vec, w0: seq<Mat>, l: nat)
    requires |layers| >= 2 && |weights| == |layers| - 1 && |w0| == |weights| && 1 <= l <= |weights|
    requires WeightsLoadedUpTo(layers, weights, lines, w0, l)
    requires l == |weights| || |lines| < WeightStart(layers, l)
    ensures WeightsLoadedUpTo(layers, weights, lines, w0, |weights|)
    ensures l < |weights| ==> |lines| < ParamCount(layers)
  {
    if l < |weights| {
      LaterWeightsUnread(layers, w0, lines, l - 1);
    }
  }

  /** One step of reading the weights: the weights into layer l + 1, from
      line `index` on, after those into the layers before it. */
  method LoadLayerWeights(layers: seq<nat>, weights: seq<array2<real>>, lines: Vec, l: nat, index: nat, ghost w0: seq<Mat>)
    returns (ok: bool, next: nat)
    requires |layers| >= 2 && |weights| == |layers| - 1 && |w0| == |weights| && l < |weights|
    requires forall l {:trigger weights[l]} :: 0 <= l < |weights| ==> weights[l].Length0 == layers[l + 1] && weights[l].Length1 == layers[l]
    requires forall l, m {:trigger Apart(weights[l], weights[m])} ::
               0 <= l < |weights| && 0 <= m < |weights| && l != m ==> Apart(weights[l], weights[m])
    requires index == WeightStart(layers, l) <= |lines|
    requires WeightsLoadedUpTo(layers, weights, lines, w0, l)
    modifies weights[l]
    ensures WeightsLoadedUpTo(layers, weights, lines, w0, l + 1)
    ensures next == WeightStart(layers, l + 1)
    ensures ok <==> next <= |lines|
  {
    ok := LoadMatrixRows(weights[l], lines, index);
    WeightStartNext(layers, l);
    next := index + weights[l].Length0 * weights[l].Length1;
    forall m | 0 <= m < |weights| && m != l
      ensures Matrix(weights[m]) == old(Matrix(weights[m]))
    {
      assert Apart(weights[m], weights[l]);
    }
  }

  /** The expression of neuron j of the next layer: the previous layer's
      expressions (read from values under the keys of layer l) weighted by
      row j of w and summed left to right, plus the bias b, under tanh.
      Every key read is recorded in `read` unless it is there already. */
  method NeuronFormula(w: array2<real>, j: nat, b: real, values: map<Key, Expr>, l: nat, ghost prev: seq<Expr>,
                       read: seq<Key>) returns (e: Expr, read': seq<Key>)
    requires j < w.Length0 && w.Length1 == |prev|
    requires forall k :: 0 <= k < |prev| ==> Key(l, k) in values && values[Key(l, k)] == prev[k]
    ensures e == NeuronExpr(Matrix(w)[j], b, prev)
    ensures forall key :: key in read' <==> key in read || (key.layer == l && key.neuron < |prev|)
  {
    ghost var row := Matrix(w)[j];
    var sum := Const(0.0);  // the empty sum; replaced by the first term
    read' := read;
    for k := 0 to w.Length1
      invariant k > 0 ==> sum == WeightedSum(row, prev, k)
      invariant forall key :: key in read' <==> key in read || (key.layer == l && key.neuron < k)
    {
      var key := Key(l, k);
      var term := Mul(Const(w[j, k]), values[key]);
      if key !in read' {
        read' := read' + [key];
      }
      sum := if k == 0 then term else Add(sum, term);
    }
    e := TanhOf(if w.Length1 == 0 then Const(b) else Add(sum, Const(b)));
  }

  /** Adds to values the expression of every neuron of layer l + 1, whose
      incoming weights are w and biases b, over the expressions prev of layer
      l; read lists the keys of layer l that were read, each once. */
  method AddLayerFormula(w: array2<real>, b: array<real>, values: map<Key, Expr>, l: nat,
                         ghost prev: seq<Expr>, ghost cur: seq<Expr>) returns (next: map<Key, Expr>, read: seq<Key>)
    requires w.Length0 == b.Length == |cur| && w.Length1 == |prev|
    requires forall key: Key :: key.layer == l && key.neuron < |prev| ==> key in values && values[key] == prev[key.neuron]
    requires forall j :: 0 <= j < |cur| ==> cur[j] == NeuronExpr(Matrix(w)[j], b[j], prev)
    requires forall key :: key in values ==> key.layer <= l
    ensures forall key :: key in next <==> key in values || (key.layer == l + 1 && key.neuron < |cur|)
    ensures forall key :: key in next ==> next[key] == if key in values then values[key] else cur[key.neuron]
    ensures forall key :: key in read <==> |cur| > 0 && key.layer == l && key.neuron < |prev|
  {
    read := [];
    next := values;
    for j := 0 to w.Length0
      invariant forall key :: key in next <==> key in values || (key.layer == l + 1 && key.neuron < j)
      invariant forall key :: key in next ==> next[key] == if key in values then values[key] else cur[key.neuron]
      invariant forall key :: key in read <==> j > 0 && key.layer == l && key.neuron < |prev|
    {
      var e;
      e, read := NeuronFormula(w, j, b[j], next, l, prev, read);
      next := next[Key(l + 1, j) := e];
    }
  }

  /** The map m without the keys listed in keys. */
  method RemoveKeys(m: map<Key, Expr>, keys: seq<Key>) returns (r: map<Key, Expr>)
    ensures forall key :: key in r <==> key in m && key !in keys
    ensures forall key :: key in r ==> r[key] == m[key]
  {
    r := m;
    for i := 0 to |keys|
      invariant forall key :: key in r <==> key in m && key !in keys[..i]
      invariant forall key :: key in r ==> r[key] == m[key]
    {
      assert keys[..i + 1] == keys[..i] + [keys[i]];
      r := r - {keys[i]};
    }
    assert keys[..|keys|] == keys;
  }

  /** What a read failure tells the caller of a load. */
  datatype LoadOutcome =
    | NoFile      // there is no file: nothing is read
    | Loaded      // every bias and weight was read
    | Unreadable  // the file ran out before the last weight

  class NeuralNetwork {
    /** The id of the network, also its key in the registry. */
    const Id: int
    /** Layer sizes: input layer first, output layer last. */
    const Layers: seq<nat>
    /** Neurons[l][j]: the activation of neuron j of layer l. */
    const Neurons: seq<array<real>>
    /** Biases[l][j]: the bias of neuron j of layer l + 1. */
    const Biases: seq<array<real>>
    /** Weights[l][j, k]: from neuron k of layer l into neuron j of layer l + 1. */
    const Weights: seq<array2<real>>

    /** Every array the network owns. */
    ghost function Repr(): set<object>
    {
      Objects(Neurons, Biases, Weights)
    }

    /** Every array of the network is allocated. */
    lemma ReprAllocated()
      ensures forall o :: o in Repr() ==> allocated(o)
    {
    }

    /** A new network with the given id and layer sizes, its biases and
        weights made from the random draws in file order.  Entering it in the
        registry, the constructor's last step, is done by Create. */
    constructor(id: int, layerDefinition: seq<nat>, draws: seq<int>)
      requires |layerDefinition| >= 2 && |draws| == ParamCount(layerDefinition)
      ensures Valid() && Id == id && Layers == layerDefinition
      ensures fresh(Repr())
      ensures Initial(draws)
    {
      var neurons, biases, weights := NewArrays(layerDefinition, draws);
      Id := id;
      Layers := layerDefinition;
      Neurons, Biases, Weights := neurons, biases, weights;
    }

    /** The arrays hold the values a network made from draws starts with. */
    ghost predicate Initial(draws: seq<int>)
      reads Repr()
    {
      InitialArrays(Layers, draws, Neurons, Biases, Weights)
    }

    /** A network holding the values made from draws is in the initial state. */
    lemma InitialIsInitialState(draws: seq<int>)
      requires Valid() && Initial(draws)
      ensures State() == InitialState(Layers, draws)
    {
      InitialNeurons(Layers, draws, Neurons);
      InitialBiases(Layers, draws, Biases);
      InitialWeights(Layers, draws, Weights);
    }

    /** The shape invariant: array sizes follow Layers, and no two arrays are the same. */
    ghost predicate Valid()
    {
      ArraysShaped(Layers, Neurons, Biases, Weights)
    }

    /** The activation array of layer l is no other array of the network. */
    lemma NeuronsApart(l: nat)
      requires Valid() && l < |Neurons|
      ensures forall m :: 0 <= m < |Neurons| && m != l ==> Neurons[m] != Neurons[l]
      ensures forall m :: 0 <= m < |Biases| ==> Biases[m] != Neurons[l]
    {
      forall m | 0 <= m < |Neurons| && m != l
        ensures Neurons[m] != Neurons[l]
      {
        assert Apart(Neurons[m], Neurons[l]);
      }
      forall m | 0 <= m < |Biases|
        ensures Biases[m] != Neurons[l]
      {
        assert Apart(Neurons[l], Biases[m]);
      }
    }

    /** The bias array of layer l + 1 is no other array of the network. */
    lemma BiasesApart(l: nat)
      requires Valid() && l < |Biases|
      ensures forall m :: 0 <= m < |Biases| && m != l ==> Biases[m] != Biases[l]
      ensures forall m :: 0 <= m < |Neurons| ==> Neurons[m] != Biases[l]
    {
      forall m | 0 <= m < |Biases| && m != l
        ensures Biases[m] != Biases[l]
      {
        assert Apart(Biases[m], Biases[l]);
      }
      forall m | 0 <= m < |Neurons|
        ensures Neurons[m] != Biases[l]
      {
        assert Apart(Neurons[m], Biases[l]);
      }
    }

    /** The weight array into layer l + 1 is no other weight array. */
    lemma WeightsApart(l: nat)
      requires Valid() && l < |Weights|
      ensures forall m :: 0 <= m < |Weights| && m != l ==> Weights[m] != Weights[l]
    {
      forall m | 0 <= m < |Weights| && m != l
        ensures Weights[m] != Weights[l]
      {
        assert Apart(Weights[m], Weights[l]);
      }
    }

    /** The network's numbers as a value. */
    ghost function State(): (s: NetState)
      reads Repr()
      ensures Valid() ==> Shaped(Layers, s)
    {
      NetState(Contents(Neurons), Contents(Biases), Matrices(Weights))
    }

    lemma StateShaped()
      requires Valid()
      ensures Shaped(Layers, State())
    {
    }

    /** Layers 0..n-1 of the neurons hold acts. */
    ghost predicate NeuronsAgree(acts: seq<Vec>, n: nat)
      reads Neurons
    {
      forall l, j :: 0 <= l < n && l < |Neurons| && l < |acts| && 0 <= j < Neurons[l].Length && j < |acts[l]| ==>
        Neurons[l][j] == acts[l][j]
    }

    /** The biases and weights hold the given values. */
    ghost predicate ParamsAgree(biases: seq<Vec>, weights: seq<Mat>)
      reads Biases, Weights
    {
      && (forall l, j :: 0 <= l < |Biases| && l < |biases| && 0 <= j < Biases[l].Length && j < |biases[l]| ==>
            Biases[l][j] == biases[l][j])
      && (forall l, j, k ::
            (0 <= l < |Weights| && l < |weights| && 0 <= j < Weights[l].Length0 && j < |weights[l]| &&
             0 <= k < Weights[l].Length1 && k < |weights[l][j]|) ==>
            Weights[l][j, k] == weights[l][j][k])
    }

    /** The state is determined array by array. */
    lemma StateIs(s: NetState)
      requires Valid() && Shaped(Layers, s)
      requires NeuronsAgree(s.neurons, |Layers|) && ParamsAgree(s.biases, s.weights)
      ensures State() == s
    {
      forall l | 0 <= l < |Neurons| ensures Neurons[l][..] == s.neurons[l] { }
      forall l | 0 <= l < |Biases| ensures Biases[l][..] == s.biases[l] { }
      forall l | 0 <= l < |Weights| ensures Matrix(Weights[l]) == s.weights[l]
      {
        var m := Matrix(Weights[l]);
        assert |m| == |s.weights[l]| == Layers[l + 1];
        forall j | 0 <= j < Layers[l + 1] ensures m[j] == s.weights[l][j]
        {
          assert |m[j]| == |s.weights[l][j]| == Layers[l];
        }
      }
      assert Contents(Neurons) == s.neurons;
      assert Contents(Biases) == s.biases;
      assert Matrices(Weights) == s.weights;
    }

    /** The forward pass.  The inputs are copied into layer 0 (an input shorter
        than layer 0 leaves the remaining input neurons as they were), then
        every later layer is recomputed in order.  The returned array IS the
        output layer's neuron array.  Biases and weights are not modified. */
    method FeedForward(inputs: array<real>) returns (output: array<real>)
      requires Valid()
      requires inputs.Length <= Layers[0]
      modifies set a | a in Neurons
      ensures output == Neurons[|Neurons| - 1]
      ensures State() == Forward(Layers, old(State()), old(inputs[..]))
    {
      StateShaped();
      ghost var s0 := State();
      ghost var x0 := InputLayer(inputs[..], s0.neurons[0]);
      ghost var acts := Activations(Layers, s0.biases, s0.weights, x0, |Layers| - 1);
      ActivationsInput(Layers, s0.biases, s0.weights, x0, |Layers| - 1);
      assert ParamsAgree(s0.biases, s0.weights);

      NeuronsApart(0);
      CopyInputs(inputs);
      assert NeuronsAgree(acts, 1);

      for layer := 1 to |Layers|
        invariant NeuronsAgree(acts, layer) && ParamsAgree(s0.biases, s0.weights)
      {
        ActivationsLayer(Layers, s0.biases, s0.weights, x0, |Layers| - 1, layer);
        NeuronsApart(layer);
        ComputeLayer(layer, acts, s0.biases, s0.weights);
      }
      output := Neurons[|Neurons| - 1];
      StateIs(s0.(neurons := acts));
    }

    /** The first step of the forward pass: the inputs overwrite the first
        neurons of the input layer. */
    method CopyInputs(inputs: array<real>)
      requires Valid()
      requires inputs.Length <= Layers[0]
      modifies Neurons[0]
      ensures Neurons[0][..] == InputLayer(old(inputs[..]), old(Neurons[0][..]))
    {
      ghost var x0 := InputLayer(inputs[..], Neurons[0][..]);
      for i := 0 to inputs.Length
        invariant forall k :: 0 <= k < i ==> Neurons[0][k] == x0[k]
        invariant forall k :: i <= k < Layers[0] ==> Neurons[0][k] == old(Neurons[0][k])
        invariant forall k :: i <= k < inputs.Length ==> inputs[k] == x0[k]
      {
        Neurons[0][i] := inputs[i];
      }
    }

    /** One step of the forward pass: every neuron of layer `layer` becomes tanh
        of its weighted sum over the previous layer plus its bias.  The layers
        before it, the biases and the weights are left as they were. */
    method ComputeLayer(layer: nat, ghost acts: seq<Vec>, ghost biases: seq<Vec>, ghost weights: seq<Mat>)
      requires Valid() && 0 < layer < |Layers| && ParamsShaped(Layers, biases, weights)
      requires |acts| == |Layers| && forall l :: 0 <= l < |acts| ==> |acts[l]| == Layers[l]
      requires acts[layer] == LayerOutput(weights[layer - 1], biases[layer - 1], acts[layer - 1])
      requires NeuronsAgree(acts, layer) && ParamsAgree(biases, weights)
      modifies Neurons[layer]
      ensures NeuronsAgree(acts, layer + 1) && ParamsAgree(biases, weights)
    {
      ghost var w, b, prev := weights[layer - 1], biases[layer - 1], acts[layer - 1];
      NeuronsApart(layer);
      for j := 0 to Layers[layer]
        invariant forall j' :: 0 <= j' < j ==> Neurons[layer][j'] == acts[layer][j']
      {
        var value := 0.0;
        for k := 0 to Layers[layer - 1]
          invariant value == Dot(w[j], prev, k)
        {
          value := value + Weights[layer - 1][j, k] * Neurons[layer - 1][k];
        }
        Neurons[layer][j] := Tanh(value + Biases[layer - 1][j]);
      }
    }

    /** Back-propagation of one sample: a forward pass, then the output
        layer's deltas adjust the last biases and weights, then each hidden
        layer's deltas, from the last hidden layer down to layer 1, adjust the
        biases and weights into that layer.  A hidden layer's deltas are
        computed from the weights out of it, which this same call has already
        adjusted.  `expected` must be a separate array from the network's own. */
    method BackPropagate(inputs: array<real>, expected: array<real>)
      requires Valid()
      requires inputs.Length <= Layers[0] && Layers[|Layers| - 1] <= expected.Length
      requires expected !in Neurons
      modifies Repr()
      ensures State() == TrainStep(Layers, old(State()), old(inputs[..]), old(expected[..]))
    {
      StateShaped();
      ghost var e := expected[..];
      var output := FeedForward(inputs);
      assert expected[..] == e;
      var gamma := OutputStep(expected);
      HiddenSteps(|Layers| - 2, gamma);
    }

    /** The output layer's deltas, and the adjustment of the biases and
        weights into the output layer by them. */
    method OutputStep(expected: array<real>) returns (gamma: array<real>)
      requires Valid()
      requires Layers[|Layers| - 1] <= expected.Length
      modifies Biases[|Biases| - 1], Weights[|Weights| - 1]
      ensures fresh(gamma)
      ensures gamma[..] == OutputGamma(old(State()).neurons[|Layers| - 1], old(expected[..]))
      ensures State() == AdjustLayer(Layers, old(State()), gamma[..], |Layers| - 2)
    {
      StateShaped();
      gamma := OutputDeltas(expected);
      AdjustParameters(|Layers| - 2, gamma);
    }

    /** The hidden layers' steps, from layer top down to layer 1: each layer's
        deltas come from the deltas of the layer above it and the weights out
        of it, and adjust the biases and weights into it. */
    method HiddenSteps(top: nat, gamma: array<real>)
      requires Valid()
      requires top + 1 < |Layers| && gamma.Length == Layers[top + 1]
      modifies Repr()
      ensures State() == Backward(Layers, old(State()), old(gamma[..]), top)
    {
      StateShaped();
      ghost var t := Backward(Layers, State(), gamma[..], top);
      var g := gamma;
      var i := top;
      while i > 0
        invariant 0 <= i <= top && g.Length == Layers[i + 1] && Shaped(Layers, State())
        invariant Backward(Layers, State(), g[..], i) == t
        decreases i
      {
        g, i := HiddenStep(i, g, t);
      }
    }

    /** Hidden layer i's deltas, from the deltas of layer i + 1 and the
        weights out of layer i, and the adjustment of the biases and weights
        into layer i by them: one step of the backward recursion. */
    method HiddenStep(i: nat, gammaNext: array<real>, ghost t: NetState) returns (gamma: array<real>, below: nat)
      requires Valid()
      requires 0 < i < |Layers| - 1 && gammaNext.Length == Layers[i + 1]
      requires Shaped(Layers, State()) && Backward(Layers, State(), gammaNext[..], i) == t
      modifies Biases[i - 1], Weights[i - 1]
      ensures below == i - 1 && fresh(gamma) && gamma.Length == Layers[below + 1]
      ensures gamma[..] == HiddenGamma(old(gammaNext[..]), old(State()).weights[i], old(State()).neurons[i])
      ensures State() == AdjustLayer(Layers, old(State()), gamma[..], below)
      ensures Backward(Layers, State(), gamma[..], below) == t
    {
      StateShaped();
      below := i - 1;
      gamma := HiddenDeltas(i, gammaNext);
      AdjustParameters(below, gamma);
    }

    /** The output layer's deltas: (output[j] - expected[j]) * tanh'(output[j]). */
    method OutputDeltas(expected: array<real>) returns (gamma: array<real>)
      requires Valid()
      requires Layers[|Layers| - 1] <= expected.Length
      ensures fresh(gamma)
      ensures gamma[..] == OutputGamma(Neurons[|Layers| - 1][..], expected[..])
    {
      var output := Neurons[|Layers| - 1];
      gamma := new real[output.Length](_ => 0.0);
      ghost var g := OutputGamma(output[..], expected[..]);
      for j := 0 to output.Length
        invariant forall j' :: 0 <= j' < j ==> gamma[j'] == g[j']
      {
        gamma[j] := (output[j] - expected[j]) * DerivativeOfTanh(output[j]);
      }
    }

    /** The deltas of hidden layer i: for neuron j, the sum over the neurons k
        of layer i + 1 of gammaNext[k] * Weights[i][k, j], times tanh'(Neurons[i][j]). */
    method HiddenDeltas(i: nat, gammaNext: array<real>) returns (gamma: array<real>)
      requires Valid()
      requires 0 < i < |Layers| - 1 && gammaNext.Length == Layers[i + 1]
      ensures fresh(gamma)
      ensures gamma[..] == HiddenGamma(gammaNext[..], Matrix(Weights[i]), Neurons[i][..])
    {
      gamma := new real[Layers[i]](_ => 0.0);
      ghost var gn, w, act := gammaNext[..], Matrix(Weights[i]), Neurons[i][..];
      ghost var g := HiddenGamma(gn, w, act);
      for j := 0 to Layers[i]
        invariant forall j' :: 0 <= j' < j ==> gamma[j'] == g[j']
      {
        var error := 0.0;
        for k := 0 to gammaNext.Length
          invariant error == BackError(gn, w, j, k)
        {
          error := error + gammaNext[k] * Weights[i][k, j];
        }
        gamma[j] := error * DerivativeOfTanh(Neurons[i][j]);
      }
    }

    /** Every neuron j of layer m + 1 moves its bias and its incoming weights
        against its delta gamma[j], in neuron order. */
    method AdjustParameters(m: nat, gamma: array<real>)
      requires Valid()
      requires m < |Biases| && gamma.Length == Layers[m + 1]
      requires gamma !in Biases
      modifies Biases[m], Weights[m]
      ensures State() == AdjustLayer(Layers, old(State()), old(gamma[..]), m)
    {
      StateShaped();
      ghost var s0 := State();
      ghost var g := gamma[..];
      ghost var b0, w0 := Biases[m][..], Matrix(Weights[m]);
      BiasesApart(m);
      WeightsApart(m);
      for j := 0 to Layers[m + 1]
        invariant AdjustedUpTo(m, b0, w0, g, j)
      {
        AdjustNeuron(m, j, b0, w0, g, gamma[j]);
      }
      AdjustedAll(m, b0, w0, g);
      StateIs(AdjustLayer(Layers, s0, g, m));
    }

    /** Bias j of layer m + 1 and the weights into neuron j move against its
        delta g[j]; neurons before j have been adjusted already. */
    method AdjustNeuron(m: nat, j: nat, ghost b0: Vec, ghost w0: Mat, ghost g: Vec, delta: real)
      requires Valid()
      requires m < |Biases| && j < Layers[m + 1] && |g| == Layers[m + 1] && delta == g[j]
      requires |b0| == Layers[m + 1] && |w0| == Layers[m + 1]
      requires forall r :: 0 <= r < |w0| ==> |w0[r]| == Layers[m]
      requires AdjustedUpTo(m, b0, w0, g, j)
      modifies Biases[m], Weights[m]
      ensures AdjustedUpTo(m, b0, w0, g, j + 1)
    {
      BiasesApart(m);
      Biases[m][j] := Biases[m][j] - delta * LearningRate;
      AdjustRow(Weights[m], j, Neurons[m], delta * LearningRate);
    }

    /** Neurons 0..n-1 of layer m + 1 have had their bias and incoming weights
        adjusted by their deltas g, from the values b0 and w0; the rest of that
        layer still holds b0 and w0. */
    ghost predicate AdjustedUpTo(m: nat, b0: Vec, w0: Mat, g: Vec, n: nat)
      requires m < |Biases| && m < |Weights| && m < |Neurons|
      reads Biases[m], Weights[m], Neurons[m]
    {
      && (forall j :: 0 <= j < Biases[m].Length && j < |b0| && j < |g| ==>
            Biases[m][j] == if j < n then b0[j] - g[j] * LearningRate else b0[j])
      && (forall j, k ::
            (0 <= j < Weights[m].Length0 && 0 <= k < Weights[m].Length1 && j < |w0| && k < |w0[j]| &&
             j < |g| && k < Neurons[m].Length) ==>
            Weights[m][j, k] == if j < n then w0[j][k] - g[j] * Neurons[m][k] * LearningRate else w0[j][k])
    }

    /** Once every neuron of layer m + 1 is adjusted, its biases and weights
        are the value-level adjustment of b0 and w0. */
    lemma AdjustedAll(m: nat, b0: Vec, w0: Mat, g: Vec)
      requires Valid() && m < |Biases|
      requires |g| == Layers[m + 1] && |b0| == Layers[m + 1] && |w0| == Layers[m + 1]
      requires forall j :: 0 <= j < |w0| ==> |w0[j]| == Layers[m]
      requires AdjustedUpTo(m, b0, w0, g, Layers[m + 1])
      ensures Biases[m][..] == AdjustBiases(b0, g)
      ensures Matrix(Weights[m]) == AdjustWeights(w0, g, Neurons[m][..])
    {
      var w := AdjustWeights(w0, g, Neurons[m][..]);
      var a := Matrix(Weights[m]);
      forall j | 0 <= j < Layers[m + 1]
        ensures a[j] == w[j]
      {
        assert |w[j]| == Layers[m];
        forall k | 0 <= k < Layers[m]
          ensures a[j][k] == w[j][k]
        {
        }
      }
    }

    /** The formula of a network with one input and one output: the output
        neuron's expression in the input x.  Any other network gets the notice
        instead. */
    method Formula() returns (f: FormulaText)
      requires Valid()
      ensures f == OneInputOneOutputOnly <==> Layers[0] != 1 || Layers[|Layers| - 1] != 1
      ensures f.FormulaOf? ==> f.y == LayerExprs(Layers, Contents(Biases), Matrices(Weights), |Layers| - 1)[0]
    {
      if Layers[0] != 1 || Layers[|Layers| - 1] != 1 {
        return OneInputOneOutputOnly;
      }
      StateShaped();
      ghost var bs, ws := Contents(Biases), Matrices(Weights);
      var values := FormulaExprs(bs, ws);
      OutputExpr(Layers, bs, ws, values);
      f := FormulaOf(values[Key(|Layers| - 1, 0)]);
    }

    /** The map of expressions once every layer is built. */
    method FormulaExprs(ghost bs: seq<Vec>, ghost ws: seq<Mat>) returns (values: map<Key, Expr>)
      requires Valid() && Layers[0] == 1
      requires bs == Contents(Biases) && ws == Matrices(Weights)
      ensures values.Keys == Live(Layers, |Layers| - 1) && ExprsAgree(Layers, bs, ws, values)
    {
      StateShaped();
      values := map[Key(0, 0) := X];
      for layer := 1 to |Layers|
        invariant values.Keys == Live(Layers, layer - 1)
        invariant ExprsAgree(Layers, bs, ws, values)
      {
        values := FormulaLayer(values, layer, bs, ws);
      }
    }

    /** One layer of the formula: an entry for every neuron of the layer,
        then the entries of the previous layer that were read are removed. */
    method FormulaLayer(values: map<Key, Expr>, layer: nat, ghost bs: seq<Vec>, ghost ws: seq<Mat>)
      returns (next: map<Key, Expr>)
      requires Valid() && Layers[0] == 1 && 1 <= layer < |Layers|
      requires bs == Contents(Biases) && ws == Matrices(Weights)
      requires values.Keys == Live(Layers, layer - 1) && ExprsAgree(Layers, bs, ws, values)
      ensures next.Keys == Live(Layers, layer) && ExprsAgree(Layers, bs, ws, next)
    {
      ghost var prev := LayerExprs(Layers, bs, ws, layer - 1);
      ghost var cur := LayerExprs(Layers, bs, ws, layer);
      PreviousLayerExprs(Layers, bs, ws, values, layer);
      LayerExprsRows(Layers, bs, ws, layer);
      assert forall j :: 0 <= j < |cur| ==> cur[j] == NeuronExpr(Matrix(Weights[layer - 1])[j], Biases[layer - 1][j], prev);
      var built, read := AddLayerFormula(Weights[layer - 1], Biases[layer - 1], values, layer - 1, prev, cur);
      next := RemoveKeys(built, read);
      LayerBuilt(Layers, bs, ws, values, next, layer, read);
    }

    /** The parameter file: every bias, layer by layer and neuron by neuron,
        then every weight, layer by layer, neuron by neuron and by neuron of
        the layer before. */
    method Save() returns (lines: Vec)
      requires Valid()
      ensures lines == Flatten(State().biases, State().weights)
    {
      lines := AppendArrays([], Biases);
      assert lines == Concat(Contents(Biases));
      lines := AppendMatrices(lines, Weights);
    }

    /** Reading a parameter file.  With no file nothing changes.  Otherwise
        the biases, then the weights, are read in file order from line 0;
        the first line the file lacks ends the load, leaving that parameter
        and every later one as it was.  A file with more lines than the
        network has parameters loads, the surplus unread. */
    method Load(file: Option<Vec>) returns (outcome: LoadOutcome)
      requires Valid()
      modifies set a | a in Biases, set a | a in Weights
      ensures file.None? ==> outcome == NoFile && State() == old(State())
      ensures file.Some? ==> State() == LoadValues(Layers, old(State()), file.value)
      ensures file.Some? ==> outcome == if ParamCount(Layers) <= |file.value| then Loaded else Unreadable
    {
      if file.None? {
        return NoFile;
      }
      StateShaped();
      ghost var s0 := State();
      var lines := file.value;
      var ok := LoadBiases(lines);
      if ok {
        ok := LoadWeights(lines);
      } else {
        ShortFileKeepsWeights(Layers, s0, lines);
        BiasCountAtMostParamCount(Layers);
      }
      outcome := if ok then Loaded else Unreadable;
    }

    /** The first half of a load: every bias, in file order from line 0. */
    method LoadBiases(lines: Vec) returns (ok: bool)
      requires Valid()
      modifies set a | a in Biases
      ensures State() == old(State()).(biases := LoadValues(Layers, old(State()), lines).biases)
      ensures ok <==> BiasCount(Layers) <= |lines|
    {
      StateShaped();
      ghost var s0 := State();
      ghost var t := s0.(biases := LoadValues(Layers, s0, lines).biases);
      ok := LoadBiasArrays(Layers, Biases, lines, s0.biases);
      forall l | 0 <= l < |Neurons|
        ensures Neurons[l][..] == t.neurons[l]
      {
        NeuronsApart(l);
      }
      forall l | 0 <= l < |Biases|
        ensures Biases[l][..] == t.biases[l]
      {
        LoadedBiases(Layers, s0, lines, l);
      }
      StateOfRows(t);
    }

    /** The second half of a load: every weight, in file order from the line
        after the last bias. */
    method LoadWeights(lines: Vec) returns (ok: bool)
      requires Valid() && BiasCount(Layers) <= |lines|
      modifies set a | a in Weights
      ensures State() == old(State()).(weights := LoadValues(Layers, old(State()), lines).weights)
      ensures ok <==> ParamCount(Layers) <= |lines|
    {
      StateShaped();
      ghost var s0 := State();
      ghost var t := s0.(weights := LoadValues(Layers, s0, lines).weights);
      forall l, m | 0 <= l < m < |Weights|
        ensures Weights[l] != Weights[m]
      {
        assert Apart(Weights[l], Weights[m]);
      }
      ok := LoadWeightArrays(Layers, Weights, lines, s0.weights);
      forall l | 0 <= l < |Weights|
        ensures Matrix(Weights[l]) == t.weights[l]
      {
        LoadedWeights(Layers, s0, lines, l);
      }
      StateOfRows(t);
    }

    /** The state is determined by the arrays' rows. */
    lemma StateOfRows(s: NetState)
      requires Valid() && Shaped(Layers, s)
      requires forall l :: 0 <= l < |Neurons| ==> Neurons[l][..] == s.neurons[l]
      requires forall l :: 0 <= l < |Biases| ==> Biases[l][..] == s.biases[l]
      requires forall l :: 0 <= l < |Weights| ==> Matrix(Weights[l]) == s.weights[l]
      ensures State() == s
    {
      assert Contents(Neurons) == s.neurons;
      assert Contents(Biases) == s.biases;
      assert Matrices(Weights) == s.weights;
    }
  }

  /** The networks by id. */
  class Registry {
    var networks: map<int, NeuralNetwork>

    constructor()
      ensures networks == map[] && Valid()
    {
      networks := map[];
    }

    /** Every network is kept under its own id, is well formed, and shares no
        array with any other. */
    ghost predicate Valid()
      reads this
    {
      && (forall id :: id in networks ==> networks[id].Id == id && networks[id].Valid())
      && (forall a, b :: a in networks && b in networks && a != b ==> networks[a].Repr() !! networks[b].Repr())
    }

    method Clear()
      modifies this
      ensures networks == map[] && Valid()
    {
      networks := map[];
    }

    /** The arrays of the networks registered before objs was allocated are not in objs. */
    twostate lemma NoneFresh(new objs: set<object>)
      requires fresh(objs)
      ensures forall id :: id in old(networks) ==> old(networks)[id].Repr() !! objs
    {
      forall id | id in old(networks)
        ensures old(networks)[id].Repr() !! objs
      {
        var n := old(networks)[id];
        assert old(allocated(n));
        forall o | o in n.Repr()
          ensures old(allocated(o))
        {
        }
      }
    }

    /** Enters n under its id, replacing any network already there. */
    method Register(n: NeuralNetwork)
      requires Valid() && n.Valid()
      requires forall id :: id in networks && id != n.Id ==> networks[id].Repr() !! n.Repr()
      modifies this
      ensures networks == old(networks)[n.Id := n] && Valid()
    {
      networks := networks[n.Id := n];
    }
  }

  /** Construction of a network, with the constructor's one failure: fewer
      than two layers is an error and leaves the registry as it was.
      Otherwise the new network is entered under its id, replacing an entry
      already there and keeping every other. */
  method Create(id: int, layerDefinition: seq<nat>, draws: seq<int>, registry: Registry) returns (r: Option<NeuralNetwork>)
    requires registry.Valid()
    requires |layerDefinition| >= 2 ==> |draws| == ParamCount(layerDefinition)
    modifies registry
    ensures registry.Valid()
    ensures r.None? <==> |layerDefinition| < 2
    ensures r.None? ==> registry.networks == old(registry.networks)
    ensures r.Some? ==>
              && r.value.Valid() && r.value.Id == id && r.value.Layers == layerDefinition && fresh(r.value.Repr())
              && r.value.Initial(draws)
              && registry.networks == old(registry.networks)[id := r.value]
  {
    if |layerDefinition| < 2 {
      return None;
    }
    var n := new NeuralNetwork(id, layerDefinition, draws);
    registry.NoneFresh(n.Repr());
    registry.Register(n);
    r := Some(n);
  }
}
