/**
 * The training driver of the demo form.  The target curve is given by six
 * anchor points; each of the five segments between consecutive anchors is
 * cut into 51 evenly spaced samples, starting at the segment's first anchor
 * and stopping short of its second.  Nine networks of different shapes are
 * created, and every timer tick trains each of them, in id order, on every
 * sample in order, and counts the tick to decide when the graphs are redrawn.
 */
module Training {
  import opened NetworkValues
  import opened ParameterFile
  import opened NeuralNetworkModel

  /** A point of the target curve: an input x and the output y wanted for it. */
  datatype Sample = Sample(x: real, y: real)

  /** The anchors of the target curve, a step up and a step down. */
  const Anchors: seq<Sample> := [
    Sample(-1.0, -1.0), Sample(-0.32, -1.0), Sample(-0.32, 1.0),
    Sample(0.32, 1.0), Sample(0.32, 0.0), Sample(1.0, 0.0)]

  /** The number of samples taken from each segment. */
  const PointsPerLine: nat := 51

  /** Sample j of the segment from a to b: a plus j steps of a 51st of b - a. */
  function Between(a: Sample, b: Sample, j: nat): Sample
  {
    var xStep := (b.x - a.x) / PointsPerLine as real;
    var yStep := (b.y - a.y) / PointsPerLine as real;
    Sample(a.x + xStep * j as real, a.y + yStep * j as real)
  }

  /** The samples of the segment from a to b. */
  function Segment(a: Sample, b: Sample): seq<Sample>
  {
    seq(PointsPerLine, j requires 0 <= j < PointsPerLine => Between(a, b, j))
  }

  /** The samples of the first k segments of the anchors, in order. */
  function Samples(anchors: seq<Sample>, k: nat): seq<Sample>
    requires k == 0 || k < |anchors|
  {
    if k == 0 then [] else Samples(anchors, k - 1) + Segment(anchors[k - 1], anchors[k])
  }

  /** The samples of every segment of the anchors. */
  function AllSamples(anchors: seq<Sample>): seq<Sample>
  {
    if anchors == [] then [] else Samples(anchors, |anchors| - 1)
  }

  /** k segments give k * 51 samples. */
  lemma {:induction false} SampleCount(anchors: seq<Sample>, k: nat)
    requires k == 0 || k < |anchors|
    ensures |Samples(anchors, k)| == k * PointsPerLine
  {
    if k > 0 {
      SampleCount(anchors, k - 1);
    }
  }

  /** The target curve has 5 * 51 = 255 samples. */
  lemma TrainingSampleCount()
    ensures |AllSamples(Anchors)| == 255
  {
    SampleCount(Anchors, 5);
  }

  /** Sample (i - 1) * 51 + j is sample j of the segment from anchor i - 1 to
      anchor i; sample 0 of a segment is its first anchor. */
  lemma {:induction false} SampleAt(anchors: seq<Sample>, k: nat, i: nat, j: nat)
    requires k < |anchors| && 0 < i <= k && j < PointsPerLine
    ensures (i - 1) * PointsPerLine + j < |Samples(anchors, k)|
    ensures Samples(anchors, k)[(i - 1) * PointsPerLine + j] == Between(anchors[i - 1], anchors[i], j)
    ensures j == 0 ==> Samples(anchors, k)[(i - 1) * PointsPerLine + j] == anchors[i - 1]
  {
    SampleCount(anchors, k - 1);
    if i < k {
      SampleAt(anchors, k - 1, i, j);
    } else {
      assert Samples(anchors, k) == Samples(anchors, k - 1) + Segment(anchors[k - 1], anchors[k]);
    }
  }

  /** The x-coordinates of the anchors never decrease. */
  predicate XSorted(s: seq<Sample>)
  {
    forall p, q :: 0 <= p <= q < |s| ==> s[p].x <= s[q].x
  }

  /** Along a segment whose end lies no further left than its start, x grows
      with j, never falls below the start, and stays short of the end unless
      the segment is vertical, where it stays at the start. */
  lemma BetweenX(a: Sample, b: Sample, j: nat, j': nat)
    requires a.x <= b.x && j <= j' < PointsPerLine
    ensures a.x <= Between(a, b, j).x <= Between(a, b, j').x
    ensures Between(a, b, j').x < b.x || Between(a, b, j').x == a.x == b.x
  {
    var step := (b.x - a.x) / PointsPerLine as real;
    assert 0.0 <= step;
    assert step * j as real <= step * j' as real by {
      assert step * (j' - j) as real >= 0.0;
    }
    assert step * j' as real <= step * (PointsPerLine - 1) as real by {
      assert step * (PointsPerLine - 1 - j') as real >= 0.0;
    }
  }

  /** Every sample of the first k segments lies at or left of anchor k, and
      strictly left of a bound that every anchor before k is left of and
      anchor k does not pass. */
  lemma {:induction false} SamplesBelow(anchors: seq<Sample>, k: nat, bound: real)
    requires XSorted(anchors) && 0 < k < |anchors|
    requires anchors[k].x <= bound && forall i :: 0 <= i < k ==> anchors[i].x < bound
    ensures forall p :: 0 <= p < |Samples(anchors, k)| ==>
              Samples(anchors, k)[p].x <= anchors[k].x && Samples(anchors, k)[p].x < bound
  {
    var a, b := anchors[k - 1], anchors[k];
    forall j | 0 <= j < PointsPerLine
      ensures Segment(a, b)[j].x <= b.x && Segment(a, b)[j].x < bound
    {
      BetweenX(a, b, j, j);
    }
    if k > 1 {
      SamplesBelow(anchors, k - 1, a.x + (bound - a.x) / 2.0);
    }
  }

  /** The samples of the first k segments have non-decreasing x. */
  lemma {:induction false} SamplesSorted(anchors: seq<Sample>, k: nat)
    requires XSorted(anchors) && k < |anchors|
    ensures XSorted(Samples(anchors, k))
  {
    if k > 0 {
      var a, b := anchors[k - 1], anchors[k];
      var before: seq<Sample>, seg: seq<Sample> := Samples(anchors, k - 1), Segment(a, b);
      var all := before + seg;
      SamplesSorted(anchors, k - 1);
      if k > 1 {
        SamplesBelow(anchors, k - 1, a.x + 1.0);
      }
      forall p, q | 0 <= p <= q < |all|
        ensures all[p].x <= all[q].x
      {
        if q >= |before| {
          BetweenX(a, b, if p < |before| then 0 else p - |before|, q - |before|);
        }
      }
    }
  }

  /** Over the target curve, x never decreases from one sample to the next. */
  lemma TrainingSamplesSorted()
    ensures XSorted(AllSamples(Anchors))
  {
    SamplesSorted(Anchors, 5);
  }

  /** The last anchor, (1, 0), is never a sample: every sample lies left of it. */
  lemma LastAnchorNeverSampled()
    ensures forall p :: 0 <= p < |AllSamples(Anchors)| ==>
              AllSamples(Anchors)[p].x < 1.0 && AllSamples(Anchors)[p] != Anchors[5]
  {
    SamplesBelow(Anchors, 5, 1.0);
  }

  // ---------------------------------------------------------------------
  // Pixels of the plotted target curve
  // ---------------------------------------------------------------------

  /** A pixel of a 200 by 200 graph, y counted downwards. */
  datatype Point = Point(x: int, y: int)

  /** Rounding to the nearest integer, a tie going to the even neighbour. */
  function RoundHalfEven(v: real): (r: int)
    ensures -0.5 <= v - r as real <= 0.5
    ensures (v - r as real == 0.5 || v - r as real == -0.5) ==> r % 2 == 0
  {
    var f := v.Floor;
    var d := v - f as real;
    if d < 0.5 then f
    else if d > 0.5 then f + 1
    else if f % 2 == 0 then f
    else f + 1
  }

  /** The pixel of a sample: [-1, 1] is spread over pixels 0..198, y upwards. */
  function ToPoint(s: Sample): Point
  {
    Point(RoundHalfEven(s.x * 99.0 + 99.0), RoundHalfEven(199.0 - (s.y * 99.0 + 99.0)))
  }

  // ---------------------------------------------------------------------
  // Training
  // ---------------------------------------------------------------------

  /** A network's state after training on each sample of data in turn, one
      input x and one expected output y each. */
  function Epoch(layers: seq<nat>, s: NetState, data: seq<Sample>): (r: NetState)
    requires Shaped(layers, s) && 1 <= layers[0] && layers[|layers| - 1] <= 1
    ensures Shaped(layers, r)
  {
    if data == [] then s
    else
      var d := data[|data| - 1];
      TrainStep(layers, Epoch(layers, s, data[..|data| - 1]), [d.x], [d.y])
  }

  /** Training on a + b is training on a, then on b. */
  lemma {:induction false} EpochSplit(layers: seq<nat>, s: NetState, a: seq<Sample>, b: seq<Sample>)
    requires Shaped(layers, s) && 1 <= layers[0] && layers[|layers| - 1] <= 1
    ensures Epoch(layers, s, a + b) == Epoch(layers, Epoch(layers, s, a), b)
    decreases |b|
  {
    if b == [] {
      assert a + b == a;
    } else {
      var b' := b[..|b| - 1];
      assert (a + b)[..|a + b| - 1] == a + b';
      EpochSplit(layers, s, a, b');
    }
  }

  /** Training on the first t + 1 samples is training on the first t, then
      on sample t. */
  lemma EpochStep(layers: seq<nat>, s: NetState, data: seq<Sample>, t: nat)
    requires Shaped(layers, s) && 1 <= layers[0] && layers[|layers| - 1] <= 1 && t < |data|
    ensures Epoch(layers, s, data[..t + 1]) == TrainStep(layers, Epoch(layers, s, data[..t]), [data[t].x], [data[t].y])
  {
    assert data[..t + 1][..t] == data[..t];
  }

  /** A new array holding v alone. */
  method Singleton(v: real) returns (a: array<real>)
    ensures fresh(a) && a[..] == [v]
  {
    a := new real[1] [v];
  }

  /** Back-propagates one sample through n: its x as the only input, its y
      as the only expected output, each in a new array. */
  method TrainSample(n: NeuralNetwork, s: Sample)
    requires n.Valid() && 1 <= n.Layers[0] && n.Layers[|n.Layers| - 1] <= 1
    modifies n.Repr()
    ensures n.State() == TrainStep(n.Layers, old(n.State()), [s.x], [s.y])
  {
    n.StateShaped();
    var inputs := Singleton(s.x);
    var expected := Singleton(s.y);
    n.BackPropagate(inputs, expected);
  }

  /** Back-propagates every sample of data, in order, through n. */
  method TrainNetwork(n: NeuralNetwork, data: seq<Sample>)
    requires n.Valid() && 1 <= n.Layers[0] && n.Layers[|n.Layers| - 1] <= 1
    modifies n.Repr()
    ensures n.State() == Epoch(n.Layers, old(n.State()), data)
  {
    n.StateShaped();
    for t := 0 to |data|
      invariant n.State() == Epoch(n.Layers, old(n.State()), data[..t])
    {
      EpochStep(n.Layers, old(n.State()), data, t);
      TrainSample(n, data[t]);
    }
    assert data[..|data|] == data;
  }

  /** A 32-bit signed integer. */
  newtype int32 = x: int | -0x8000_0000 <= x < 0x8000_0000

  /** ++ on a 32-bit counter: one more, wrapping from the largest value to
      the smallest. */
  function Increment(c: int32): (r: int32)
    ensures (r as int - c as int - 1) % 0x1_0000_0000 == 0
  {
    if c == 0x7fff_ffff then -0x8000_0000 else c + 1
  }

  /** The counter after k increments from zero. */
  function Ticks(k: nat): int32
  {
    if k == 0 then 0 else Increment(Ticks(k - 1))
  }

  /** Until it wraps, the counter counts the ticks, so the graphs are redrawn
      on exactly every tenth tick. */
  lemma {:induction false} TicksCounted(k: nat)
    requires k < 0x8000_0000
    ensures Ticks(k) as int == k
    ensures (Ticks(k) as int % FrequencyOfUpdate == 0) <==> k % 10 == 0
  {
    if k > 0 {
      TicksCounted(k - 1);
    }
  }

  /** Every how many ticks the graphs are redrawn. */
  const FrequencyOfUpdate: int := 10

  /** The number of networks the form creates. */
  const NetworkCount: nat := 9

  /** The shape of network id: input layer first, output layer last. */
  function Shape(id: nat): seq<nat>
    requires id < NetworkCount
  {
    if id == 0 then [1, 1]
    else if id == 1 then [1, 1, 1]
    else if id == 2 then [1, 2, 1]
    else if id == 3 then [1, 3, 1]
    else if id == 4 then [1, 4, 1]
    else if id == 5 then [1, 2, 2, 1]
    else if id == 6 then [1, 3, 2, 1]
    else if id == 7 then [1, 3, 3, 1]
    else [1, 3, 2, 3, 1]
  }

  /** An input layer of one neuron and an output layer of one. */
  predicate OneInOneOut(layers: seq<nat>)
  {
    |layers| >= 2 && layers[0] == 1 && layers[|layers| - 1] == 1
  }

  /** Draws enough for a network of every shape. */
  predicate DrawsFit(draws: seq<seq<int>>)
  {
    |draws| == NetworkCount && forall id :: 0 <= id < NetworkCount ==> |draws[id]| == ParamCount(Shape(id))
  }

  /** Every array of the networks of nets. */
  ghost function Arrays(nets: map<int, NeuralNetwork>): set<object>
  {
    set id, o | id in nets && o in nets[id].Repr() :: o
  }

  /** The networks a tick trains: ids 0 up to the count, each well formed
      with one input and one output, no two sharing an array. */
  ghost predicate Trainable(nets: map<int, NeuralNetwork>)
  {
    && (forall id :: id in nets <==> 0 <= id < |nets|)
    && (forall id :: id in nets ==> nets[id].Valid() && OneInOneOut(nets[id].Layers))
    && (forall a, b :: a in nets && b in nets && a != b ==> nets[a].Repr() !! nets[b].Repr())
  }

  /** The arrays of the networks hold no form and no registry. */
  lemma ArraysOnly(nets: map<int, NeuralNetwork>, f: Form, r: Registry)
    ensures f !in Arrays(nets) && r !in Arrays(nets)
  {
  }

  /** Networks 0..k-1 of nets have been trained on data from their states
      in s0; the others are still in their states in s0. */
  ghost predicate TrainedUpTo(nets: map<int, NeuralNetwork>, s0: map<int, NetState>, data: seq<Sample>, k: int)
    reads Arrays(nets)
  {
    forall i :: i in nets ==>
      && i in s0 && Shaped(nets[i].Layers, s0[i]) && OneInOneOut(nets[i].Layers)
      && nets[i].State() == if i < k then Epoch(nets[i].Layers, s0[i], data) else s0[i]
  }

  /** Networks whose arrays are unchanged keep their states. */
  twostate lemma StatesKept(nets: map<int, NeuralNetwork>)
    requires unchanged(Arrays(nets))
    ensures forall id :: id in nets ==> nets[id].State() == old(nets[id].State())
  {
    forall id | id in nets
      ensures nets[id].State() == old(nets[id].State())
    {
      assert unchanged(nets[id].Repr());
    }
  }

  /** The states of the networks. */
  ghost function States(nets: map<int, NeuralNetwork>): (s: map<int, NetState>)
    reads Arrays(nets)
    ensures forall id :: id in nets ==> id in s && s[id] == nets[id].State()
  {
    map id | id in nets :: nets[id].State()
  }

  /** Before training, no network has been trained. */
  lemma TrainingStarts(nets: map<int, NeuralNetwork>, data: seq<Sample>)
    requires Trainable(nets)
    ensures TrainedUpTo(nets, States(nets), data, 0)
  {
    forall id | id in nets {
      nets[id].StateShaped();
    }
  }

  /** Trains network id of nets, leaving the others as they were. */
  method TrainOne(nets: map<int, NeuralNetwork>, id: int, data: seq<Sample>, ghost s0: map<int, NetState>)
    requires Trainable(nets) && id in nets && TrainedUpTo(nets, s0, data, id)
    modifies nets[id].Repr()
    ensures TrainedUpTo(nets, s0, data, id + 1)
  {
    forall i | i in nets {
      nets[i].ReprAllocated();
    }
    label before:
    TrainNetwork(nets[id], data);
    forall i | i in nets && i != id
      ensures nets[i].State() == old@before(nets[i].State())
    {
      assert nets[i].Repr() !! nets[id].Repr();
      assert unchanged@before(nets[i].Repr());
    }
  }

  /** Trains every network, in id order, on every sample of data, starting
      from the states s0. */
  method TrainAll(nets: map<int, NeuralNetwork>, data: seq<Sample>, ghost s0: map<int, NetState>)
    requires Trainable(nets) && TrainedUpTo(nets, s0, data, 0)
    modifies Arrays(nets)
    ensures forall id :: id in nets ==> nets[id].State() == Epoch(nets[id].Layers, s0[id], data)
  {
    for id := 0 to |nets|
      invariant TrainedUpTo(nets, s0, data, id)
    {
      TrainOne(nets, id, data, s0);
    }
    AllTrained(nets, s0, data);
  }

  /** Once every network is trained, each holds its epoch from s0. */
  lemma AllTrained(nets: map<int, NeuralNetwork>, s0: map<int, NetState>, data: seq<Sample>)
    requires Trainable(nets) && TrainedUpTo(nets, s0, data, |nets|)
    ensures forall id :: id in nets ==> id in s0 && nets[id].State() == Epoch(nets[id].Layers, s0[id], data)
  {
  }

  /** Networks 0..n-1 are registered, and no other; each has its shape. */
  ghost predicate Populated(r: Registry, n: nat)
    reads r
  {
    && r.Valid() && n <= NetworkCount && |r.networks| == n
    && (forall id :: id in r.networks <==> 0 <= id < n)
    && (forall id :: id in r.networks ==> r.networks[id].Layers == Shape(id) && OneInOneOut(Shape(id)))
  }

  /** Creates network id, of its shape, from the draws d. */
  method AddNetwork(r: Registry, id: nat, d: seq<int>)
    requires Populated(r, id) && id < NetworkCount
    requires OneInOneOut(Shape(id)) && |d| == ParamCount(Shape(id))
    modifies r
    ensures Populated(r, id + 1)
  {
    var _ := Create(id, Shape(id), d, r);
  }

  class Form {
    /** Set while a tick is training, so that a tick arriving meanwhile does nothing. */
    var inTimer: bool
    /** The ticks so far, as a 32-bit counter. */
    var frequencyCounter: int32
    /** The samples the networks are trained on. */
    var trainingData: seq<Sample>
    /** The pixels of the samples, for plotting the target curve. */
    var trainingPoints: seq<Point>
    /** The registry of networks. */
    const networks: Registry

    /** The registered ids are 0 up to the count, and every network takes one
        input and gives at most one output. */
    ghost predicate Valid()
      reads networks
    {
      && networks.Valid()
      && (forall id :: id in networks.networks <==> 0 <= id < |networks.networks|)
      && (forall id :: id in networks.networks ==> OneInOneOut(networks.networks[id].Layers))
    }

    /** The form: the samples, then the networks, each network's biases and
        weights made from its own draws. */
    constructor(draws: seq<seq<int>>)
      requires DrawsFit(draws)
      ensures Valid() && !inTimer && frequencyCounter == 0
      ensures trainingData == AllSamples(Anchors)
      ensures fresh(networks) && forall id :: id in networks.networks <==> 0 <= id < NetworkCount
      ensures forall id :: id in networks.networks ==> networks.networks[id].Layers == Shape(id)
    {
      inTimer := false;
      frequencyCounter := 0;
      trainingData := [];
      trainingPoints := [];
      networks := new Registry();
      new;
      CreateTrainingPoints();
      CreateNeuralNetworks(draws);
    }

    /** The samples of the target curve, segment by segment, and their pixels,
        index for index. */
    method CreateTrainingPoints()
      modifies this
      ensures trainingData == AllSamples(Anchors)
      ensures |trainingPoints| == |trainingData|
      ensures forall i :: 0 <= i < |trainingData| ==> trainingPoints[i] == ToPoint(trainingData[i])
      ensures inTimer == old(inTimer) && frequencyCounter == old(frequencyCounter)
    {
      var points: seq<Point> := [];
      var data: seq<Sample> := [];
      for i := 1 to |Anchors|
        invariant data == Samples(Anchors, i - 1)
        invariant |points| == |data| && forall p :: 0 <= p < |data| ==> points[p] == ToPoint(data[p])
      {
        var a, b := Anchors[i - 1], Anchors[i];
        ghost var before := data;
        for j := 0 to PointsPerLine
          invariant data == before + Segment(a, b)[..j]
          invariant |points| == |data| && forall p :: 0 <= p < |data| ==> points[p] == ToPoint(data[p])
        {
          var s := Between(a, b, j);
          points := points + [ToPoint(s)];
          data := data + [s];
        }
        assert Segment(a, b)[..PointsPerLine] == Segment(a, b);
      }
      trainingPoints := points;
      trainingData := data;
    }

    /** The registry emptied, then networks 0 to 8 created with their shapes. */
    method CreateNeuralNetworks(draws: seq<seq<int>>)
      requires DrawsFit(draws)
      modifies networks
      ensures Valid()
      ensures forall id :: id in networks.networks <==> 0 <= id < NetworkCount
      ensures forall id :: id in networks.networks ==> networks.networks[id].Layers == Shape(id)
    {
      networks.Clear();
      AddNetwork(networks, 0, draws[0]);
      AddNetwork(networks, 1, draws[1]);
      AddNetwork(networks, 2, draws[2]);
      AddNetwork(networks, 3, draws[3]);
      AddNetwork(networks, 4, draws[4]);
      AddNetwork(networks, 5, draws[5]);
      AddNetwork(networks, 6, draws[6]);
      AddNetwork(networks, 7, draws[7]);
      AddNetwork(networks, 8, draws[8]);
    }

    /** A tick of the timer.  A tick arriving while one is training does
        nothing.  Otherwise the counter goes up by one, each network in id
        order is trained on every sample, and the graphs are to be redrawn
        when the new count is a multiple of 10. */
    method TimerTick() returns (updateGraphs: bool)
      requires Valid()
      modifies this, Arrays(networks.networks)
      ensures Valid() && trainingData == old(trainingData) && trainingPoints == old(trainingPoints)
      ensures unchanged(networks)
      ensures old(inTimer) ==>
                && inTimer && frequencyCounter == old(frequencyCounter) && !updateGraphs
                && forall id :: id in networks.networks ==> networks.networks[id].State() == old(networks.networks[id].State())
      ensures !old(inTimer) ==>
                && !inTimer && frequencyCounter == Increment(old(frequencyCounter))
                && (updateGraphs <==> frequencyCounter as int % FrequencyOfUpdate == 0)
                && forall id :: id in networks.networks ==>
                     networks.networks[id].State() ==
                     Epoch(networks.networks[id].Layers, old(networks.networks[id].State()), trainingData)
    {
      if inTimer {
        return false;
      }
      var nets := networks.networks;
      ArraysOnly(nets, this, networks);
      updateGraphs := Train();
      ghost var target := map id | id in nets :: nets[id].State();
      Finish(nets, target);
    }

    /** A tick that is not skipped, up to the flag's reset: the flag set, the
        counter incremented and every network trained. */
    method Train() returns (updateGraphs: bool)
      requires Valid() && !inTimer
      modifies this, Arrays(networks.networks)
      ensures Valid() && trainingData == old(trainingData) && trainingPoints == old(trainingPoints)
      ensures unchanged(networks)
      ensures inTimer && frequencyCounter == Increment(old(frequencyCounter))
      ensures updateGraphs <==> frequencyCounter as int % FrequencyOfUpdate == 0
      ensures forall id :: id in networks.networks ==>
                networks.networks[id].State() ==
                Epoch(networks.networks[id].Layers, old(networks.networks[id].State()), trainingData)
    {
      var nets := networks.networks;
      assert Trainable(nets);
      ArraysOnly(nets, this, networks);
      label start:
      inTimer := true;
      frequencyCounter := Increment(frequencyCounter);
      updateGraphs := frequencyCounter as int % FrequencyOfUpdate == 0;
      StatesKept@start(nets);
      ghost var s0 := States(nets);
      TrainingStarts(nets, trainingData);
      TrainAll(nets, trainingData, s0);
    }

    /** The flag reset that ends a tick; the networks keep the states target. */
    method Finish(ghost nets: map<int, NeuralNetwork>, ghost target: map<int, NetState>)
      requires this !in Arrays(nets)
      requires forall id :: id in nets ==> id in target && nets[id].State() == target[id]
      modifies this
      ensures !inTimer && frequencyCounter == old(frequencyCounter)
      ensures trainingData == old(trainingData) && trainingPoints == old(trainingPoints)
      ensures forall id :: id in nets ==> nets[id].State() == target[id]
    {
      label before:
      inTimer := false;
      StatesKept@before(nets);
    }
  }
}
