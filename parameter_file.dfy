/**
 * The parameter file of a network: every bias, then every weight, one number
 * per line, and how a file of numbers is read back into a network.
 *
 * Biases are listed layer by layer and, within a layer, neuron by neuron.
 * Weights are listed layer by layer, then neuron by neuron, then by neuron of
 * the previous layer.  The random draws of a new network are consumed in the
 * same order, so the same positions describe both.
 */
module ParameterFile {
  import opened NetworkValues

  /** The vectors of vs, one after the other. */
  function Concat(vs: seq<Vec>): Vec
  {
    if vs == [] then [] else Concat(vs[..|vs| - 1]) + vs[|vs| - 1]
  }

  /** Where the biases of layer l + 1 start: the sizes of layers 1..l added up. */
  function BiasOffset(layers: seq<nat>, l: nat): nat
    requires l < |layers|
  {
    if l == 0 then 0 else BiasOffset(layers, l - 1) + layers[l]
  }

  /** Where the weights into layer l + 1 start, counted from the first weight. */
  function WeightOffset(layers: seq<nat>, l: nat): nat
    requires l < |layers|
  {
    if l == 0 then 0 else WeightOffset(layers, l - 1) + layers[l] * layers[l - 1]
  }

  function BiasCount(layers: seq<nat>): nat
    requires |layers| >= 1
  {
    BiasOffset(layers, |layers| - 1)
  }

  function WeightCount(layers: seq<nat>): nat
    requires |layers| >= 1
  {
    WeightOffset(layers, |layers| - 1)
  }

  /** The number of lines a parameter file of the network has. */
  function ParamCount(layers: seq<nat>): nat
    requires |layers| >= 1
  {
    BiasCount(layers) + WeightCount(layers)
  }

  /** The line of the first weight into layer l + 1. */
  function WeightStart(layers: seq<nat>, l: nat): nat
    requires l < |layers|
  {
    BiasCount(layers) + WeightOffset(layers, l)
  }

  /** The line of the weight from neuron k of layer l into neuron j of layer l + 1. */
  function WeightPos(layers: seq<nat>, l: nat, j: nat, k: nat): nat
    requires l < |layers|
  {
    BiasCount(layers) + WeightOffset(layers, l) + j * layers[l] + k
  }

  /** The weights of each layer in file order, one vector per layer. */
  function LayerWeights(weights: seq<Mat>): (rows: seq<Vec>)
    ensures |rows| == |weights|
    ensures forall l :: 0 <= l < |weights| ==> rows[l] == Concat(weights[l])
  {
    seq(|weights|, l requires 0 <= l < |weights| => Concat(weights[l]))
  }

  /** The parameters in file order. */
  function Flatten(biases: seq<Vec>, weights: seq<Mat>): Vec
  {
    Concat(biases) + Concat(LayerWeights(weights))
  }

  /** The value a parameter at line p gets from a file of `lines`: the line if
      the file reaches it, else the value it had. */
  function Pick(lines: Vec, p: nat, current: real): real
  {
    if p < |lines| then lines[p] else current
  }

  /** Element p of c replaced by line base + p of the file, where the file reaches it. */
  function PickAll(c: Vec, lines: Vec, base: nat): (r: Vec)
    ensures |r| == |c|
    ensures forall p {:trigger r[p]} :: 0 <= p < |c| ==> r[p] == Pick(lines, base + p, c[p])
  {
    seq(|c|, p requires 0 <= p < |c| => Pick(lines, base + p, c[p]))
  }

  /** A weight matrix whose rows have n entries, overlaid row by row by the
      file from line base on. */
  function LoadMatrix(m: Mat, n: nat, lines: Vec, base: nat): (r: Mat)
    ensures |r| == |m|
    ensures forall j {:trigger r[j]} :: 0 <= j < |m| ==> r[j] == PickAll(m[j], lines, base + j * n)
  {
    seq(|m|, j requires 0 <= j < |m| => PickAll(m[j], lines, base + j * n))
  }

  /** The network after a load of `lines`: every bias and weight whose line the
      file reaches takes that line, every other keeps its value.  Neurons are
      untouched. */
  function LoadValues(layers: seq<nat>, s: NetState, lines: Vec): (r: NetState)
    requires Shaped(layers, s)
    ensures Shaped(layers, r) && r.neurons == s.neurons
  {
    var b := s.biases;
    var w := s.weights;
    var r := s.(biases := seq(|b|, l requires 0 <= l < |b| => PickAll(b[l], lines, BiasOffset(layers, l))),
                weights := seq(|w|, l requires 0 <= l < |w| =>
                             LoadMatrix(w[l], layers[l], lines, WeightStart(layers, l))));
    assert WeightsShaped(layers, r.weights) by {
      forall l {:trigger r.weights[l]} | 0 <= l < |w|
        ensures |r.weights[l]| == layers[l + 1]
        ensures forall j :: 0 <= j < |r.weights[l]| ==> |r.weights[l][j]| == layers[l]
      {
      }
    }
    r
  }

  /** A vector read from a line the file does not reach keeps every value. */
  lemma PickAllBeyond(c: Vec, lines: Vec, base: nat)
    requires |lines| <= base
    ensures PickAll(c, lines, base) == c
  {
  }

  /** A vector read from lines the file wholly holds takes exactly those lines. */
  lemma PickAllWithin(c: Vec, lines: Vec, base: nat)
    requires base + |c| <= |lines|
    ensures PickAll(c, lines, base) == lines[base..base + |c|]
  {
  }

  /** A matrix read from a line the file does not reach keeps every value. */
  lemma LoadMatrixBeyond(m: Mat, n: nat, lines: Vec, base: nat)
    requires |lines| <= base
    ensures LoadMatrix(m, n, lines, base) == m
  {
    forall j | 0 <= j < |m|
      ensures LoadMatrix(m, n, lines, base)[j] == m[j]
    {
      PickAllBeyond(m[j], lines, base + j * n);
    }
  }

  /** A file that ends before the last bias leaves every weight as it was. */
  lemma ShortFileKeepsWeights(layers: seq<nat>, s: NetState, lines: Vec)
    requires Shaped(layers, s) && |lines| < BiasCount(layers)
    ensures LoadValues(layers, s, lines).weights == s.weights
  {
    forall l | 0 <= l < |s.weights|
      ensures LoadValues(layers, s, lines).weights[l] == s.weights[l]
    {
      LoadMatrixBeyond(s.weights[l], layers[l], lines, WeightStart(layers, l));
    }
  }

  /** The biases are a part of the parameter file. */
  lemma BiasCountAtMostParamCount(layers: seq<nat>)
    requires |layers| >= 1
    ensures BiasCount(layers) <= ParamCount(layers)
  {
  }

  /** The biases of layer l + 1 after a load: the file overlaid from the line
      of the first of them. */
  lemma LoadedBiases(layers: seq<nat>, t: NetState, lines: Vec, l: nat)
    requires Shaped(layers, t) && l + 1 < |layers|
    ensures LoadValues(layers, t, lines).biases[l] == PickAll(t.biases[l], lines, BiasOffset(layers, l))
  {
  }

  /** The weights into layer l + 1 after a load: the file overlaid row by row
      from the line of the first of them. */
  lemma LoadedWeights(layers: seq<nat>, t: NetState, lines: Vec, l: nat)
    requires Shaped(layers, t) && l + 1 < |layers|
    ensures LoadValues(layers, t, lines).weights[l] ==
            LoadMatrix(t.weights[l], layers[l], lines, WeightStart(layers, l))
  {
  }

  /** A loaded bias comes from its own line of the file. */
  lemma LoadedBiasAt(layers: seq<nat>, t: NetState, lines: Vec, l: nat, j: nat)
    requires Shaped(layers, t) && l + 1 < |layers| && j < layers[l + 1]
    ensures LoadValues(layers, t, lines).biases[l][j] == Pick(lines, BiasOffset(layers, l) + j, t.biases[l][j])
  {
    LoadedBiases(layers, t, lines, l);
  }

  /** A loaded weight comes from its own line of the file. */
  lemma LoadedWeightAt(layers: seq<nat>, t: NetState, lines: Vec, l: nat, j: nat, k: nat)
    requires Shaped(layers, t) && l + 1 < |layers| && j < layers[l + 1] && k < layers[l]
    ensures LoadValues(layers, t, lines).weights[l][j][k] == Pick(lines, WeightPos(layers, l, j, k), t.weights[l][j][k])
  {
    LoadedWeights(layers, t, lines, l);
  }

  // ---------------------------------------------------------------------
  // Sizes and positions
  // ---------------------------------------------------------------------

  /** The sum over every non-input layer of its neurons times (one bias plus
      one weight per neuron of the layer before it). */
  function PerLayerCount(layers: seq<nat>, n: nat): nat
    requires n < |layers|
  {
    if n == 0 then 0 else PerLayerCount(layers, n - 1) + layers[n] * (1 + layers[n - 1])
  }

  lemma {:induction false} ParamCountSplit(layers: seq<nat>, n: nat)
    requires n < |layers|
    ensures BiasOffset(layers, n) + WeightOffset(layers, n) == PerLayerCount(layers, n)
  {
    if n > 0 {
      ParamCountSplit(layers, n - 1);
      assert layers[n] * (1 + layers[n - 1]) == layers[n] + layers[n] * layers[n - 1];
    }
  }

  /** A parameter file has sum of Layers[l+1] * (1 + Layers[l]) lines. */
  lemma ParamCountIsPerLayerSum(layers: seq<nat>)
    requires |layers| >= 1
    ensures ParamCount(layers) == PerLayerCount(layers, |layers| - 1)
  {
    ParamCountSplit(layers, |layers| - 1);
  }

  lemma {:induction false} BiasOffsetMonotone(layers: seq<nat>, l: nat, m: nat)
    requires l <= m < |layers|
    ensures BiasOffset(layers, l) <= BiasOffset(layers, m)
    ensures l < m ==> BiasOffset(layers, l) + layers[l + 1] <= BiasOffset(layers, m)
    decreases m
  {
    if l < m {
      BiasOffsetMonotone(layers, l, m - 1);
    }
  }

  lemma {:induction false} WeightOffsetMonotone(layers: seq<nat>, l: nat, m: nat)
    requires l <= m < |layers|
    ensures WeightOffset(layers, l) <= WeightOffset(layers, m)
    ensures l < m ==> WeightOffset(layers, l) + layers[l + 1] * layers[l] <= WeightOffset(layers, m)
    decreases m
  {
    if l < m {
      WeightOffsetMonotone(layers, l, m - 1);
      var step: nat := layers[m] * layers[m - 1];
      assert WeightOffset(layers, m) == WeightOffset(layers, m - 1) + step;
    }
  }

  /** The biases of every layer end within the biases of the file. */
  lemma BiasRowFits(layers: seq<nat>, l: nat)
    requires l + 1 < |layers|
    ensures BiasOffset(layers, l) + layers[l + 1] <= BiasCount(layers)
  {
    BiasOffsetMonotone(layers, l + 1, |layers| - 1);
  }

  /** The weights of every layer end within the file. */
  lemma WeightRowsFit(layers: seq<nat>, l: nat)
    requires l + 1 < |layers|
    ensures WeightStart(layers, l) + layers[l + 1] * layers[l] <= ParamCount(layers)
  {
    WeightOffsetMonotone(layers, l + 1, |layers| - 1);
  }

  lemma RowStart(n: nat, j: nat, k: nat, rows: nat)
    requires j < rows && k < n
    ensures j * n + k < rows * n
  {
    assert (j + 1) * n <= rows * n;
  }

  /** When the file ends within the biases of layer l + 1, the biases of
      every later layer keep their values, and the file is short. */
  lemma LaterBiasesUnread(layers: seq<nat>, b0: seq<Vec>, lines: Vec, l: nat)
    requires l + 1 < |layers| && |b0| == |layers| - 1
    requires |lines| < BiasOffset(layers, l + 1)
    ensures forall m :: l < m < |b0| ==> PickAll(b0[m], lines, BiasOffset(layers, m)) == b0[m]
    ensures |lines| < ParamCount(layers) && |lines| < BiasCount(layers)
  {
    forall m | l < m < |b0|
      ensures PickAll(b0[m], lines, BiasOffset(layers, m)) == b0[m]
    {
      BiasOffsetMonotone(layers, l, m);
      PickAllBeyond(b0[m], lines, BiasOffset(layers, m));
    }
    BiasOffsetMonotone(layers, l, |layers| - 1);
  }

  /** When the file ends within the weights into layer l + 1, the weights
      into every later layer keep their values, and the file is short. */
  lemma LaterWeightsUnread(layers: seq<nat>, w0: seq<Mat>, lines: Vec, l: nat)
    requires l + 1 < |layers| && |w0| == |layers| - 1
    requires |lines| < WeightStart(layers, l + 1)
    ensures forall m :: l < m < |w0| ==> LoadMatrix(w0[m], layers[m], lines, WeightStart(layers, m)) == w0[m]
    ensures |lines| < ParamCount(layers)
  {
    WeightStartNext(layers, l);
    forall m | l < m < |w0|
      ensures LoadMatrix(w0[m], layers[m], lines, WeightStart(layers, m)) == w0[m]
    {
      WeightOffsetMonotone(layers, l, m);
      LoadMatrixBeyond(w0[m], layers[m], lines, WeightStart(layers, m));
    }
    WeightOffsetMonotone(layers, l, |layers| - 1);
  }

  /** The weights into layer l + 2 start where those into layer l + 1 end. */
  lemma WeightStartNext(layers: seq<nat>, l: nat)
    requires l + 1 < |layers|
    ensures WeightStart(layers, l + 1) == WeightStart(layers, l) + layers[l + 1] * layers[l]
  {
  }

  /** Row j2 of a matrix with rows of n entries starts after row j ends. */
  lemma RowAfter(n: nat, j: nat, j2: nat)
    requires j < j2
    ensures j * n + n <= j2 * n
  {
    var d: nat := j2 - j - 1;
    assert j2 * n == j * n + n + d * n;
  }

  /** Every bias line comes before every weight line, and every line is within the file. */
  lemma PositionsInRange(layers: seq<nat>, l: nat, j: nat, k: nat)
    requires l + 1 < |layers| && j < layers[l + 1]
    ensures BiasOffset(layers, l) + j < BiasCount(layers)
    ensures k < layers[l] ==> BiasCount(layers) <= WeightPos(layers, l, j, k) < ParamCount(layers)
  {
    BiasOffsetMonotone(layers, l, |layers| - 1);
    WeightOffsetMonotone(layers, l, |layers| - 1);
    if k < layers[l] {
      RowStart(layers[l], j, k, layers[l + 1]);
      assert layers[l + 1] * layers[l] == layers[l] * layers[l + 1];
    }
  }

  // ---------------------------------------------------------------------
  // Concatenation
  // ---------------------------------------------------------------------

  /** Where vs[l] starts in Concat(vs): the lengths of vs[..l] added up. */
  function Offset(vs: seq<Vec>, l: nat): nat
    requires l <= |vs|
  {
    if l == 0 then 0 else Offset(vs, l - 1) + |vs[l - 1]|
  }

  /** Dropping vectors after the first n does not move the first n. */
  lemma {:induction false} OffsetPrefix(vs: seq<Vec>, n: nat, l: nat)
    requires l <= n <= |vs|
    ensures Offset(vs[..n], l) == Offset(vs, l)
  {
    if l > 0 {
      OffsetPrefix(vs, n, l - 1);
    }
  }

  /** vs[l] starts right after the concatenation of vs[..l]. */
  lemma {:induction false} OffsetIsPrefixLength(vs: seq<Vec>, l: nat)
    requires l <= |vs|
    ensures Offset(vs, l) == |Concat(vs[..l])|
  {
    if l > 0 {
      OffsetIsPrefixLength(vs, l - 1);
      assert vs[..l][..l - 1] == vs[..l - 1];
    }
  }

  lemma ConcatLength(vs: seq<Vec>)
    ensures |Concat(vs)| == Offset(vs, |vs|)
  {
    OffsetIsPrefixLength(vs, |vs|);
    assert vs[..|vs|] == vs;
  }

  /** Element j of vs[l] sits in Concat(vs) at Offset(vs, l) + j. */
  lemma {:induction false} ConcatAt(vs: seq<Vec>, l: nat, j: nat)
    requires l < |vs| && j < |vs[l]|
    ensures Offset(vs, l) + j < |Concat(vs)|
    ensures Concat(vs)[Offset(vs, l) + j] == vs[l][j]
  {
    var n := |vs|;
    OffsetPrefix(vs, n - 1, l);
    if l < n - 1 {
      ConcatAt(vs[..n - 1], l, j);
    } else {
      OffsetIsPrefixLength(vs, n - 1);
    }
  }

  /** The length of a concatenation of vectors of one length. */
  lemma {:induction false} ConcatUniformLength(vs: seq<Vec>, n: nat)
    requires forall i :: 0 <= i < |vs| ==> |vs[i]| == n
    ensures |Concat(vs)| == |vs| * n
  {
    if vs != [] {
      ConcatUniformLength(vs[..|vs| - 1], n);
    }
  }

  /** In vectors of one length n, vs[l] starts at l * n. */
  lemma {:induction false} OffsetUniform(vs: seq<Vec>, n: nat, l: nat)
    requires forall i :: 0 <= i < |vs| ==> |vs[i]| == n
    requires l <= |vs|
    ensures Offset(vs, l) == l * n
  {
    if l > 0 {
      OffsetUniform(vs, n, l - 1);
    }
  }

  /** The biases of layer l + 1 start at BiasOffset(l). */
  lemma {:induction false} BiasOffsetIsOffset(layers: seq<nat>, biases: seq<Vec>, l: nat)
    requires BiasesShaped(layers, biases) && l < |layers|
    ensures Offset(biases, l) == BiasOffset(layers, l)
  {
    if l > 0 {
      BiasOffsetIsOffset(layers, biases, l - 1);
    }
  }

  /** The weights into layer l + 1 start at WeightOffset(l), counted from the first weight. */
  lemma {:induction false} WeightOffsetIsOffset(layers: seq<nat>, weights: seq<Mat>, l: nat)
    requires WeightsShaped(layers, weights) && l < |layers|
    ensures Offset(LayerWeights(weights), l) == WeightOffset(layers, l)
  {
    if l > 0 {
      WeightOffsetIsOffset(layers, weights, l - 1);
      ConcatUniformLength(weights[l - 1], layers[l - 1]);
    }
  }

  /** The weights into layer l + 1 start at WeightStart(l), counted from the first line. */
  lemma WeightStartIsOffset(layers: seq<nat>, weights: seq<Mat>, l: nat)
    requires WeightsShaped(layers, weights) && l < |layers|
    ensures WeightStart(layers, l) == BiasCount(layers) + Offset(LayerWeights(weights), l)
  {
    WeightOffsetIsOffset(layers, weights, l);
  }

  /** Line BiasOffset(l) + j of a saved file holds bias j of layer l + 1. */
  lemma FlattenBiasAt(layers: seq<nat>, biases: seq<Vec>, weights: seq<Mat>, l: nat, j: nat)
    requires ParamsShaped(layers, biases, weights)
    requires l + 1 < |layers| && j < layers[l + 1]
    ensures BiasOffset(layers, l) + j < |Flatten(biases, weights)|
    ensures Flatten(biases, weights)[BiasOffset(layers, l) + j] == biases[l][j]
  {
    ConcatAt(biases, l, j);
    BiasOffsetIsOffset(layers, biases, l);
  }

  /** In a matrix whose rows all have n entries, entry (j, k) is element
      j * n + k of its rows concatenated. */
  lemma MatrixAt(m: Mat, n: nat, j: nat, k: nat)
    requires forall i :: 0 <= i < |m| ==> |m[i]| == n
    requires j < |m| && k < n
    ensures |Concat(m)| == |m| * n && j * n + k < |m| * n
    ensures Concat(m)[j * n + k] == m[j][k]
  {
    ConcatUniformLength(m, n);
    OffsetUniform(m, n, j);
    ConcatAt(m, j, k);
    RowStart(n, j, k, |m|);
  }

  /** The biases of a file take BiasCount lines. */
  lemma ConcatBiasesCount(layers: seq<nat>, biases: seq<Vec>)
    requires BiasesShaped(layers, biases) && |layers| >= 1
    ensures |Concat(biases)| == BiasCount(layers)
  {
    ConcatLength(biases);
    BiasOffsetIsOffset(layers, biases, |layers| - 1);
  }

  /** Line WeightPos(l, j, k) of a saved file holds weight (j, k) into layer l + 1. */
  lemma FlattenWeightAt(layers: seq<nat>, biases: seq<Vec>, weights: seq<Mat>, l: nat, j: nat, k: nat)
    requires ParamsShaped(layers, biases, weights)
    requires l + 1 < |layers| && j < layers[l + 1] && k < layers[l]
    ensures WeightPos(layers, l, j, k) < |Flatten(biases, weights)|
    ensures Flatten(biases, weights)[WeightPos(layers, l, j, k)] == weights[l][j][k]
  {
    var rows := LayerWeights(weights);
    var n := layers[l];
    ConcatBiasesCount(layers, biases);
    WeightOffsetIsOffset(layers, weights, l);
    MatrixAt(weights[l], n, j, k);
    ConcatAt(rows, l, j * n + k);
  }

  /** A saved file has exactly ParamCount lines. */
  lemma FlattenLength(layers: seq<nat>, biases: seq<Vec>, weights: seq<Mat>)
    requires ParamsShaped(layers, biases, weights)
    ensures |Flatten(biases, weights)| == ParamCount(layers)
  {
    ConcatBiasesCount(layers, biases);
    ConcatLength(LayerWeights(weights));
    WeightOffsetIsOffset(layers, weights, |layers| - 1);
  }

  // ---------------------------------------------------------------------
  // Loading
  // ---------------------------------------------------------------------

  /** Loading the file a network saved gives it back every bias and weight
      it had; its neurons are left as they are. */
  lemma LoadSaved(layers: seq<nat>, s: NetState, t: NetState)
    requires Shaped(layers, s) && Shaped(layers, t)
    ensures LoadValues(layers, t, Flatten(s.biases, s.weights)) == t.(biases := s.biases, weights := s.weights)
  {
    LoadSavedBiases(layers, s, t);
    LoadSavedWeights(layers, s, t);
  }

  lemma LoadSavedBiases(layers: seq<nat>, s: NetState, t: NetState)
    requires Shaped(layers, s) && Shaped(layers, t)
    ensures LoadValues(layers, t, Flatten(s.biases, s.weights)).biases == s.biases
  {
    var lines := Flatten(s.biases, s.weights);
    var r := LoadValues(layers, t, lines);
    forall l | 0 <= l < |layers| - 1
      ensures r.biases[l] == s.biases[l]
    {
      LoadedBiases(layers, t, lines, l);
      forall j | 0 <= j < layers[l + 1]
        ensures PickAll(t.biases[l], lines, BiasOffset(layers, l))[j] == s.biases[l][j]
      {
        FlattenBiasAt(layers, s.biases, s.weights, l, j);
      }
    }
  }

  lemma LoadSavedWeights(layers: seq<nat>, s: NetState, t: NetState)
    requires Shaped(layers, s) && Shaped(layers, t)
    ensures LoadValues(layers, t, Flatten(s.biases, s.weights)).weights == s.weights
  {
    var lines := Flatten(s.biases, s.weights);
    var r := LoadValues(layers, t, lines);
    forall l, j, k | 0 <= l < |layers| - 1 && 0 <= j < layers[l + 1] && 0 <= k < layers[l]
      ensures r.weights[l][j][k] == s.weights[l][j][k]
    {
      FlattenWeightAt(layers, s.biases, s.weights, l, j, k);
      LoadedWeightAt(layers, t, lines, l, j, k);
    }
    forall l | 0 <= l < |layers| - 1
      ensures r.weights[l] == s.weights[l]
    {
      assert forall j :: 0 <= j < layers[l + 1] ==> r.weights[l][j] == s.weights[l][j];
    }
  }

  /** Lines past the last parameter are never read. */
  lemma LoadIgnoresSurplus(layers: seq<nat>, t: NetState, lines: Vec)
    requires Shaped(layers, t) && ParamCount(layers) <= |lines|
    ensures LoadValues(layers, t, lines) == LoadValues(layers, t, lines[..ParamCount(layers)])
  {
    var r, r' := LoadValues(layers, t, lines), LoadValues(layers, t, lines[..ParamCount(layers)]);
    forall l, j | 0 <= l < |r.biases| && 0 <= j < |r.biases[l]|
      ensures r.biases[l][j] == r'.biases[l][j]
    {
      PositionsInRange(layers, l, j, 0);
      LoadedBiasAt(layers, t, lines, l, j);
      LoadedBiasAt(layers, t, lines[..ParamCount(layers)], l, j);
    }
    forall l, j, k | 0 <= l < |r.weights| && 0 <= j < |r.weights[l]| && 0 <= k < |r.weights[l][j]|
      ensures r.weights[l][j][k] == r'.weights[l][j][k]
    {
      PositionsInRange(layers, l, j, k);
      LoadedWeightAt(layers, t, lines, l, j, k);
      LoadedWeightAt(layers, t, lines[..ParamCount(layers)], l, j, k);
    }
    assert forall l :: 0 <= l < |r.biases| ==> r.biases[l] == r'.biases[l];
    assert forall l, j :: 0 <= l < |r.weights| && 0 <= j < |r.weights[l]| ==> r.weights[l][j] == r'.weights[l][j];
    assert forall l :: 0 <= l < |r.weights| ==> r.weights[l] == r'.weights[l];
  }

  // ---------------------------------------------------------------------
  // A load, seen in file order
  // ---------------------------------------------------------------------

  lemma PickAllAppend(c: Vec, d: Vec, lines: Vec, base: nat)
    ensures PickAll(c + d, lines, base) == PickAll(c, lines, base) + PickAll(d, lines, base + |c|)
  {
  }

  /** If every vs'[l] is vs[l] overlaid by the file, counting lines from where
      vs[l] starts in Concat(vs), then the concatenations are related the
      same way. */
  lemma {:induction false} OverlayConcat(vs: seq<Vec>, vs': seq<Vec>, lines: Vec, base: nat)
    requires |vs'| == |vs|
    requires forall l {:trigger vs'[l]} :: 0 <= l < |vs| ==> vs'[l] == PickAll(vs[l], lines, base + Offset(vs, l))
    ensures Concat(vs') == PickAll(Concat(vs), lines, base)
  {
    var n := |vs|;
    if n > 0 {
      var pre, pre' := vs[..n - 1], vs'[..n - 1];
      forall l {:trigger pre'[l]} | 0 <= l < n - 1
        ensures pre'[l] == PickAll(pre[l], lines, base + Offset(pre, l))
      {
        OffsetPrefix(vs, n - 1, l);
      }
      OverlayConcat(pre, pre', lines, base);
      OffsetIsPrefixLength(vs, n - 1);
      OverlayLast(vs, vs', lines, base);
    }
  }

  /** The last step of OverlayConcat: appending one overlaid vector. */
  lemma OverlayLast(vs: seq<Vec>, vs': seq<Vec>, lines: Vec, base: nat)
    requires |vs'| == |vs| > 0
    requires Concat(vs'[..|vs| - 1]) == PickAll(Concat(vs[..|vs| - 1]), lines, base)
    requires vs'[|vs| - 1] == PickAll(vs[|vs| - 1], lines, base + |Concat(vs[..|vs| - 1])|)
    ensures Concat(vs') == PickAll(Concat(vs), lines, base)
  {
    var n := |vs|;
    var c := Concat(vs[..n - 1]);
    PickAllAppend(c, vs[n - 1], lines, base);
    calc {
      Concat(vs');
      Concat(vs'[..n - 1]) + vs'[n - 1];
      PickAll(c, lines, base) + PickAll(vs[n - 1], lines, base + |c|);
      PickAll(c + vs[n - 1], lines, base);
    }
  }

  /** A load overlays the file on the parameters in file order. */
  lemma LoadOverlaysFile(layers: seq<nat>, t: NetState, lines: Vec)
    requires Shaped(layers, t)
    ensures var r := LoadValues(layers, t, lines);
            Flatten(r.biases, r.weights) == PickAll(Flatten(t.biases, t.weights), lines, 0)
  {
    var r := LoadValues(layers, t, lines);
    var b, rows := Concat(t.biases), Concat(LayerWeights(t.weights));
    var b', rows' := Concat(r.biases), Concat(LayerWeights(r.weights));
    LoadOverlaysBiases(layers, t, lines);
    LoadOverlaysWeights(layers, t, lines);
    ConcatBiasesCount(layers, t.biases);
    OverlayAppend(b, rows, b', rows', lines);
    assert Flatten(r.biases, r.weights) == b' + rows';
    assert Flatten(t.biases, t.weights) == b + rows;
  }

  /** Two parts overlaid one after the other are the whole overlaid. */
  lemma OverlayAppend(b: Vec, rows: Vec, b': Vec, rows': Vec, lines: Vec)
    requires b' == PickAll(b, lines, 0) && rows' == PickAll(rows, lines, |b|)
    ensures PickAll(b + rows, lines, 0) == b' + rows'
  {
    PickAllAppend(b, rows, lines, 0);
  }

  lemma LoadOverlaysBiases(layers: seq<nat>, t: NetState, lines: Vec)
    requires Shaped(layers, t)
    ensures Concat(LoadValues(layers, t, lines).biases) == PickAll(Concat(t.biases), lines, 0)
  {
    var b' := LoadValues(layers, t, lines).biases;
    forall l | 0 <= l < |t.biases|
      ensures b'[l] == PickAll(t.biases[l], lines, BiasOffset(layers, l))
    {
      LoadedBiases(layers, t, lines, l);
    }
    OverlayBiases(layers, t.biases, b', lines);
  }

  /** Biases overlaid layer by layer are the biases overlaid in file order. */
  lemma OverlayBiases(layers: seq<nat>, b: seq<Vec>, b': seq<Vec>, lines: Vec)
    requires BiasesShaped(layers, b) && |b'| == |b|
    requires forall l {:trigger b'[l]} :: 0 <= l < |b| ==> b'[l] == PickAll(b[l], lines, BiasOffset(layers, l))
    ensures Concat(b') == PickAll(Concat(b), lines, 0)
  {
    forall l {:trigger b'[l]} | 0 <= l < |b|
      ensures b'[l] == PickAll(b[l], lines, 0 + Offset(b, l))
    {
      BiasOffsetIsOffset(layers, b, l);
    }
    OverlayConcat(b, b', lines, 0);
  }

  lemma LoadOverlaysWeights(layers: seq<nat>, t: NetState, lines: Vec)
    requires Shaped(layers, t)
    ensures Concat(LayerWeights(LoadValues(layers, t, lines).weights)) ==
            PickAll(Concat(LayerWeights(t.weights)), lines, BiasCount(layers))
  {
    var w' := LoadValues(layers, t, lines).weights;
    forall l | 0 <= l < |t.weights|
      ensures w'[l] == LoadMatrix(t.weights[l], layers[l], lines, WeightStart(layers, l))
    {
      LoadedWeights(layers, t, lines, l);
    }
    OverlayWeights(layers, t.weights, w', lines);
  }

  /** Weights overlaid matrix by matrix are the weights overlaid in file order. */
  lemma OverlayWeights(layers: seq<nat>, w: seq<Mat>, w': seq<Mat>, lines: Vec)
    requires WeightsShaped(layers, w) && |w'| == |w|
    requires forall l {:trigger w'[l]} :: 0 <= l < |w| ==>
               w'[l] == LoadMatrix(w[l], layers[l], lines, WeightStart(layers, l))
    ensures Concat(LayerWeights(w')) == PickAll(Concat(LayerWeights(w)), lines, BiasCount(layers))
  {
    var rows, rows' := LayerWeights(w), LayerWeights(w');
    forall l {:trigger rows'[l]} | 0 <= l < |w|
      ensures rows'[l] == PickAll(rows[l], lines, BiasCount(layers) + Offset(rows, l))
    {
      LoadOverlaysLayer(w[l], layers[l], lines, WeightStart(layers, l));
      WeightStartIsOffset(layers, w, l);
    }
    OverlayConcat(rows, rows', lines, BiasCount(layers));
  }

  lemma LoadOverlaysLayer(m: Mat, n: nat, lines: Vec, base: nat)
    requires forall j :: 0 <= j < |m| ==> |m[j]| == n
    ensures Concat(LoadMatrix(m, n, lines, base)) == PickAll(Concat(m), lines, base)
  {
    forall j | 0 <= j < |m|
      ensures Offset(m, j) == j * n
    {
      OffsetUniform(m, n, j);
    }
    OverlayConcat(m, LoadMatrix(m, n, lines, base), lines, base);
  }

  /** After a load, the parameters in file order are the lines the file has,
      followed by the old values of the parameters it does not reach; lines
      past the last parameter are ignored. */
  lemma LoadInFileOrder(layers: seq<nat>, t: NetState, lines: Vec)
    requires Shaped(layers, t)
    ensures |Flatten(t.biases, t.weights)| == ParamCount(layers)
    ensures var r := LoadValues(layers, t, lines);
            && (|lines| <= ParamCount(layers) ==>
                  Flatten(r.biases, r.weights) == lines + Flatten(t.biases, t.weights)[|lines|..])
            && (ParamCount(layers) <= |lines| ==> Flatten(r.biases, r.weights) == lines[..ParamCount(layers)])
  {
    FlattenLength(layers, t.biases, t.weights);
    LoadOverlaysFile(layers, t, lines);
    PickAllFromStart(Flatten(t.biases, t.weights), lines);
  }

  /** Overlaying a whole vector from its first position: the file, then what
      is left of the vector past it, cut to the vector's length. */
  lemma PickAllFromStart(c: Vec, lines: Vec)
    ensures |lines| <= |c| ==> PickAll(c, lines, 0) == lines + c[|lines|..]
    ensures |c| <= |lines| ==> PickAll(c, lines, 0) == lines[..|c|]
  {
  }
}
