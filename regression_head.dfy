/**
 * The regression head of RNNRegression: for every attribute an independent
 * stack of linear layers, and the order in which the forward pass applies
 * layers and the rectified-linear nonlinearity.
 */
module RegressionHead {

  /** One linear map, known only by its input and output dimensions. */
  datatype Layer = Layer(inSize: nat, outSize: nat)

  /** The value of `last_size` after walking `hidden` from `inSize`. */
  function LastSize(inSize: nat, hidden: seq<nat>): nat
  {
    if hidden == [] then inSize else hidden[|hidden| - 1]
  }

  /** The layers the loop over `enumerate(hidden_sizes)` appends. */
  function HiddenLayers(inSize: nat, hidden: seq<nat>): seq<Layer>
  {
    if hidden == [] then []
    else
      var front := hidden[..|hidden| - 1];
      HiddenLayers(inSize, front) + [Layer(LastSize(inSize, front), hidden[|hidden| - 1])]
  }

  /** One attribute's head: the hidden layers, then one layer to `outputSize`. */
  function HeadPlan(inSize: nat, hidden: seq<nat>, outputSize: nat): seq<Layer>
  {
    HiddenLayers(inSize, hidden) + [Layer(LastSize(inSize, hidden), outputSize)]
  }

  /**
   * The input size of the head of the attribute at position `k`: `last_size`
   * starts at `rnn_output_size` and is never reset, so every head after the
   * first starts from the last hidden size.
   */
  function HeadInput(k: nat, rnnOutputSize: nat, hidden: seq<nat>): nat
  {
    if k == 0 then rnnOutputSize else LastSize(rnnOutputSize, hidden)
  }

  /** The `linear_maps` dictionary after the attributes in `attrs` are processed. */
  function RegressionMaps(attrs: seq<string>, rnnOutputSize: nat, hidden: seq<nat>, outputSize: nat)
    : map<string, seq<Layer>>
  {
    if attrs == [] then map[]
    else
      var front := attrs[..|attrs| - 1];
      RegressionMaps(front, rnnOutputSize, hidden, outputSize)[
        attrs[|attrs| - 1] := HeadPlan(HeadInput(|front|, rnnOutputSize, hidden), hidden, outputSize)]
  }

  lemma {:induction false} HiddenLayersShape(inSize: nat, hidden: seq<nat>)
    ensures var ls := HiddenLayers(inSize, hidden);
      && |ls| == |hidden|
      && (forall i :: 0 <= i < |hidden| ==> ls[i].outSize == hidden[i])
      && (|ls| > 0 ==> ls[0].inSize == inSize)
      && (forall i :: 0 <= i < |ls| - 1 ==> ls[i + 1].inSize == ls[i].outSize)
  {
    if hidden != [] {
      var front := hidden[..|hidden| - 1];
      HiddenLayersShape(inSize, front);
      var ls := HiddenLayers(inSize, hidden);
      assert ls[..|front|] == HiddenLayers(inSize, front);
      forall i | 0 <= i < |front| ensures hidden[i] == front[i] { }
    }
  }

  /**
   * Every head has `|hidden| + 1` layers whose output sizes are the hidden
   * sizes followed by `outputSize`; the first layer reads `inSize` and every
   * later layer reads what the layer before it writes.
   */
  lemma HeadShape(inSize: nat, hidden: seq<nat>, outputSize: nat)
    ensures var ls := HeadPlan(inSize, hidden, outputSize);
      && |ls| == |hidden| + 1
      && (forall i :: 0 <= i < |ls| ==> ls[i].outSize == (hidden + [outputSize])[i])
      && ls[0].inSize == inSize
      && (forall i :: 0 <= i < |ls| - 1 ==> ls[i + 1].inSize == ls[i].outSize)
  {
    HiddenLayersShape(inSize, hidden);
  }

  lemma {:induction false} RegressionMapsKeys(attrs: seq<string>, rnnOutputSize: nat, hidden: seq<nat>, outputSize: nat)
    ensures RegressionMaps(attrs, rnnOutputSize, hidden, outputSize).Keys == set a | a in attrs
  {
    if attrs != [] {
      var front := attrs[..|attrs| - 1];
      RegressionMapsKeys(front, rnnOutputSize, hidden, outputSize);
      assert attrs == front + [attrs[|attrs| - 1]];
    }
  }

  /**
   * The head of the attribute at position `k`, when it does not recur
   * later, is the plan that starts from `HeadInput(k, ...)`.
   */
  lemma {:induction false} RegressionMapsHeadAt(attrs: seq<string>, rnnOutputSize: nat, hidden: seq<nat>, outputSize: nat, k: nat)
    requires k < |attrs| && attrs[k] !in attrs[k + 1..]
    ensures attrs[k] in RegressionMaps(attrs, rnnOutputSize, hidden, outputSize)
    ensures RegressionMaps(attrs, rnnOutputSize, hidden, outputSize)[attrs[k]]
         == HeadPlan(HeadInput(k, rnnOutputSize, hidden), hidden, outputSize)
  {
    var front := attrs[..|attrs| - 1];
    if k < |front| {
      // a later update is for another key, so it keeps the entry of attrs[k]
      assert attrs[k + 1..][|attrs| - k - 2] == attrs[|attrs| - 1];
      assert front[k] == attrs[k];
      assert front[k + 1..] == attrs[k + 1..|attrs| - 1];
      RegressionMapsHeadAt(front, rnnOutputSize, hidden, outputSize, k);
    }
  }

  /** The map has one entry per attribute, each the plan of its position. */
  lemma RegressionMapsHeads(attrs: seq<string>, rnnOutputSize: nat, hidden: seq<nat>, outputSize: nat)
    ensures RegressionMaps(attrs, rnnOutputSize, hidden, outputSize).Keys == set a | a in attrs
    ensures forall k :: 0 <= k < |attrs| && attrs[k] !in attrs[k + 1..] ==>
           attrs[k] in RegressionMaps(attrs, rnnOutputSize, hidden, outputSize)
           && RegressionMaps(attrs, rnnOutputSize, hidden, outputSize)[attrs[k]]
              == HeadPlan(HeadInput(k, rnnOutputSize, hidden), hidden, outputSize)
  {
    RegressionMapsKeys(attrs, rnnOutputSize, hidden, outputSize);
    forall k | 0 <= k < |attrs| && attrs[k] !in attrs[k + 1..]
      ensures attrs[k] in RegressionMaps(attrs, rnnOutputSize, hidden, outputSize)
           && RegressionMaps(attrs, rnnOutputSize, hidden, outputSize)[attrs[k]]
              == HeadPlan(HeadInput(k, rnnOutputSize, hidden), hidden, outputSize)
    {
      RegressionMapsHeadAt(attrs, rnnOutputSize, hidden, outputSize, k);
    }
  }

  /** With a non-recurring first attribute, its head's first layer reads `rnn_output_size`. */
  lemma FirstHeadReadsSummary(attrs: seq<string>, rnnOutputSize: nat, hidden: seq<nat>, outputSize: nat)
    requires attrs != [] && attrs[0] !in attrs[1..]
    ensures var maps := RegressionMaps(attrs, rnnOutputSize, hidden, outputSize);
            attrs[0] in maps && |maps[attrs[0]]| > 0 && maps[attrs[0]][0].inSize == rnnOutputSize
  {
    RegressionMapsHeads(attrs, rnnOutputSize, hidden, outputSize);
    HeadShape(rnnOutputSize, hidden, outputSize);
  }

  /** Every later attribute's head starts from the last hidden size, not from `rnn_output_size`. */
  lemma LaterHeadsReadLastHidden(attrs: seq<string>, rnnOutputSize: nat, hidden: seq<nat>, outputSize: nat, k: nat)
    requires 0 < k < |attrs| && attrs[k] !in attrs[k + 1..] && hidden != []
    ensures var maps := RegressionMaps(attrs, rnnOutputSize, hidden, outputSize);
            attrs[k] in maps && |maps[attrs[k]]| > 0 && maps[attrs[k]][0].inSize == hidden[|hidden| - 1]
  {
    RegressionMapsHeads(attrs, rnnOutputSize, hidden, outputSize);
    HeadShape(hidden[|hidden| - 1], hidden, outputSize);
  }

  /** Without hidden sizes every attribute maps `rnn_output_size` straight to `outputSize`. */
  lemma {:induction false} NoHiddenHeadsAreSingleLayer(attrs: seq<string>, rnnOutputSize: nat, outputSize: nat)
    ensures forall a :: a in RegressionMaps(attrs, rnnOutputSize, [], outputSize) ==>
              RegressionMaps(attrs, rnnOutputSize, [], outputSize)[a] == [Layer(rnnOutputSize, outputSize)]
  {
    if attrs != [] {
      var front := attrs[..|attrs| - 1];
      NoHiddenHeadsAreSingleLayer(front, rnnOutputSize, outputSize);
      assert HiddenLayers(HeadInput(|front|, rnnOutputSize, []), []) == [];
      assert HeadPlan(HeadInput(|front|, rnnOutputSize, []), [], outputSize) == [Layer(rnnOutputSize, outputSize)];
    }
  }

  /** One step of the regression forward pass. */
  datatype Op = Relu | Apply(layer: nat)

  /** What `_run_regression` does to one attribute whose head has `n` layers. */
  function HeadTrace(n: nat): seq<Op>
  {
    if n == 0 then []
    else HeadTrace(n - 1) + (if n - 1 > 0 then [Relu] else []) + [Apply(n - 1)]
  }

  /**
   * The layers are applied in order, the nonlinearity comes immediately
   * before each layer but the first, and nothing follows the last layer.
   */
  lemma {:induction false} HeadTraceOrder(n: nat)
    requires n > 0
    ensures var t := HeadTrace(n);
      && |t| == 2 * n - 1
      && (forall i :: 0 <= i < n ==> t[2 * i] == Apply(i))
      && (forall i :: 1 <= i < n ==> t[2 * i - 1] == Relu)
      && t[0] == Apply(0)
      && t[|t| - 1] == Apply(n - 1)
  {
    if n > 1 {
      HeadTraceOrder(n - 1);
      var t := HeadTrace(n);
      assert t[..2 * n - 3] == HeadTrace(n - 1);
    }
  }
}
