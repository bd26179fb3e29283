/**
 * RNNRegression: the object that owns the embedding table, the encoder
 * cascade and the regression heads. Its constructor steps and its input
 * handling update fields in place, so it is a class; what each step computes
 * is stated by the specification functions of the other modules.
 */
module Model {
  import opened Wrappers
  import opened Cascade
  import opened RegressionHead
  import opened Vocabulary

  class RNNRegression {
    var vocab: seq<string>
    var embeddingSize: nat
    var weights: seq<Vec>
    var vocabHash: map<string, nat>
    var rnnClasses: seq<RnnKind>
    var rnnHiddenSizes: seq<nat>
    var numRnnLayers: seq<nat>
    var bidirectional: seq<bool>
    var rnns: seq<Stage>
    var rnnOutputSize: nat
    var attributes: seq<string>
    var attention: bool
    var linearMaps: map<string, seq<Layer>>
    /** Set by each forward pass; None until the first one. */
    var hasBatchDim: Option<bool>

    ghost predicate Valid()
      reads this
    {
      && |weights| == |vocab|
      && vocabHash == VocabHash(vocab)
      && IndexFits(vocabHash, weights)
      && forall a :: a in attributes ==> a in linearMaps
    }

    /** The state after `_initialize_embeddings`, before the cascade is built. */
    constructor (e: Embedding)
      requires |e.weights| == |e.vocab| && e.hash == VocabHash(e.vocab)
      ensures Valid()
      ensures vocab == e.vocab && embeddingSize == e.embeddingSize && weights == e.weights
      ensures rnns == [] && attributes == [] && linearMaps == map[] && hasBatchDim == None
    {
      InitializedIndexFits(e);
      vocab := e.vocab;
      embeddingSize := e.embeddingSize;
      weights := e.weights;
      vocabHash := e.hash;
      rnnClasses, rnnHiddenSizes, numRnnLayers, bidirectional := [], [], [], [];
      rnns := [];
      rnnOutputSize := e.embeddingSize;
      attributes := [];
      attention := false;
      linearMaps := map[];
      hasBatchDim := None;
    }

    /** `_homogenize_parameters`: store every setting as a list of the broadcast length. */
    method HomogenizeParameters(classes: Setting<RnnKind>, hiddenSizes: Setting<nat>,
                                numLayers: Setting<nat>, bidi: Setting<bool>)
      modifies this
      ensures var c := Homogenize(classes, hiddenSizes, numLayers, bidi);
              rnnClasses == c.classes && rnnHiddenSizes == c.hiddenSizes
              && numRnnLayers == c.numLayers && bidirectional == c.bidirectional
      ensures vocab == old(vocab) && embeddingSize == old(embeddingSize) && weights == old(weights)
      ensures vocabHash == old(vocabHash) && attributes == old(attributes) && linearMaps == old(linearMaps)
      ensures rnns == old(rnns) && rnnOutputSize == old(rnnOutputSize) && hasBatchDim == old(hasBatchDim)
      ensures attention == old(attention)
    {
      var iterables := ListLengths(classes, hiddenSizes, numLayers, bidi);
      var maxLength := MaxLength(iterables);
      var c0 := Homogenized(classes, maxLength);
      var c1 := Homogenized(hiddenSizes, maxLength);
      var c2 := Homogenized(numLayers, maxLength);
      var c3 := Homogenized(bidi, maxLength);
      assert CascadeConfig(c0, c1, c2, c3) == Homogenize(classes, hiddenSizes, numLayers, bidi);
      rnnClasses, rnnHiddenSizes, numRnnLayers, bidirectional := c0, c1, c2, c3;
    }

    /**
     * `_initialize_rnn`: homogenise, validate (ValueError before any stage is
     * built), then build the stages, threading the output size through them.
     */
    method InitializeRnn(classes: Setting<RnnKind>, hiddenSizes: Setting<nat>,
                         numLayers: Setting<nat>, bidi: Setting<bool>) returns (r: Outcome)
      modifies this
      ensures var c := Homogenize(classes, hiddenSizes, numLayers, bidi);
              && rnnClasses == c.classes && rnnHiddenSizes == c.hiddenSizes
              && numRnnLayers == c.numLayers && bidirectional == c.bidirectional
              && r == ValidateParameters(c)
              && (r.Pass? ==> rnns == CascadeStages(embeddingSize, Zip4(c))
                              && rnnOutputSize == CascadeOutputSize(embeddingSize, Zip4(c)))
      ensures r.Fail? ==> rnns == old(rnns) && rnnOutputSize == old(rnnOutputSize)
      ensures vocab == old(vocab) && embeddingSize == old(embeddingSize) && weights == old(weights)
      ensures vocabHash == old(vocabHash) && attributes == old(attributes) && linearMaps == old(linearMaps)
      ensures hasBatchDim == old(hasBatchDim) && attention == old(attention)
    {
      HomogenizeParameters(classes, hiddenSizes, numLayers, bidi);
      var config := CascadeConfig(rnnClasses, rnnHiddenSizes, numRnnLayers, bidirectional);
      assert config == Homogenize(classes, hiddenSizes, numLayers, bidi);
      r := ValidateParameters(config);
      if r.Fail? {
        return;
      }
      var stages, outputSize := BuildStages(embeddingSize, Zip4(config));
      rnns := stages;
      rnnOutputSize := outputSize;
    }

    /**
     * `_initialize_regression`: one head per attribute; `last_size` starts at
     * `rnn_output_size` once and is carried from one attribute to the next.
     * With attention it first inspects `self.rnns[0]`, an IndexError when the
     * cascade has no stage.
     */
    method InitializeRegression(useAttention: bool, hidden: seq<nat>, outputSize: nat, attrs: seq<string>)
      returns (r: Outcome)
      requires Valid()
      modifies this
      ensures attributes == attrs && attention == useAttention
      ensures r.Fail? <==> useAttention && rnns == []
      ensures r.Fail? ==> r.error == IndexError && linearMaps == map[]
      ensures r.Pass? ==> Valid() && linearMaps == RegressionMaps(attrs, rnnOutputSize, hidden, outputSize)
      ensures vocab == old(vocab) && embeddingSize == old(embeddingSize) && weights == old(weights)
      ensures vocabHash == old(vocabHash) && rnns == old(rnns) && rnnOutputSize == old(rnnOutputSize)
      ensures rnnClasses == old(rnnClasses) && rnnHiddenSizes == old(rnnHiddenSizes)
      ensures numRnnLayers == old(numRnnLayers) && bidirectional == old(bidirectional)
      ensures hasBatchDim == old(hasBatchDim)
    {
      attributes := attrs;
      linearMaps := map[];
      attention := useAttention;
      if attention && rnns == [] {
        return Fail(IndexError);
      }
      var maps := BuildHeads(attrs, rnnOutputSize, hidden, outputSize);
      linearMaps := maps;
      RegressionMapsKeys(attrs, rnnOutputSize, hidden, outputSize);
      r := Pass;
    }

    /**
     * `_run_regression` as a trace per attribute: layer 0, then the
     * nonlinearity and layer i for every later i.
     */
    method RunRegression() returns (traces: map<string, seq<Op>>)
      requires Valid()
      ensures traces.Keys == set a | a in attributes
      ensures forall a :: a in attributes ==> traces[a] == HeadTrace(|linearMaps[a]|)
    {
      traces := map[];
      var k := 0;
      while k < |attributes|
        invariant 0 <= k <= |attributes|
        invariant traces.Keys == set a | a in attributes[..k]
        invariant forall a :: a in traces ==> a in linearMaps && traces[a] == HeadTrace(|linearMaps[a]|)
      {
        var attr := attributes[k];
        var ops: seq<Op> := [];
        var layers := linearMaps[attr];
        var i := 0;
        while i < |layers|
          invariant 0 <= i <= |layers|
          invariant ops == HeadTrace(i)
        {
          if i > 0 {
            ops := ops + [Relu];
          }
          ops := ops + [Apply(i)];
          i := i + 1;
        }
        traces := traces[attr := ops];
        assert attributes[..k + 1] == attributes[..k] + [attr];
        k := k + 1;
      }
      assert attributes[..k] == attributes;
    }

    /** `_get_inputs`: look every word up and embed it, per sentence when batched. */
    method GetInputs(items: seq<Item>) returns (r: Result<Embedded>)
      requires Valid()
      ensures r == GetInputsSpec(vocabHash, weights, hasBatchDim, items)
    {
      if hasBatchDim.None? {
        return Err(AttributeError);
      }
      if hasBatchDim.value {
        var indices: seq<seq<nat>> := [];
        var s := 0;
        while s < |items|
          invariant 0 <= s <= |items|
          invariant LookupSentences(vocabHash, items[..s]) == Ok(indices)
        {
          assert items[..s + 1][..s] == items[..s];
          var sent := Lookup(vocabHash, SentenceWords(items[s]));
          if sent.Err? {
            LookupSentencesSpec(vocabHash, items);
            return Err(sent.error);
          }
          indices := indices + [sent.value];
          s := s + 1;
        }
        assert items[..s] == items;
        if !Rectangular(indices) {
          return Err(ValueError);
        }
        LookupSentencesFit(vocabHash, weights, items);
        r := Ok(BatchRows(EmbedBatch(weights, indices)));
      } else {
        var flat := LookupFlat(vocabHash, items);
        if flat.Err? {
          return Err(flat.error);
        }
        r := Ok(FlatRows(Embed(weights, flat.value)));
      }
    }

    /**
     * The start of `forward`: record whether the words carry a batch
     * dimension (IndexError on an empty list), then embed them.
     */
    method ForwardInputs(items: seq<Item>) returns (r: Result<Embedded>)
      requires Valid()
      modifies this`hasBatchDim
      ensures Valid()
      ensures items == [] ==> r == Err(IndexError) && hasBatchDim == old(hasBatchDim)
      ensures items != [] ==> hasBatchDim == Some(items[0].Sentence?)
                              && r == GetInputsSpec(vocabHash, weights, Some(items[0].Sentence?), items)
    {
      var batched := HasBatchDim(items);
      if batched.Err? {
        return Err(batched.error);
      }
      hasBatchDim := Some(batched.value);
      r := GetInputs(items);
    }

    /** `word_embeddings`: the table of the given words, or of the whole vocabulary. */
    method WordEmbeddings(words: seq<string>) returns (r: Result<Frame>)
      requires Valid()
      ensures r == WordEmbeddingsSpec(vocab, vocabHash, weights, hasBatchDim, words)
    {
      var ws := if words == [] then vocab else words;
      var inputs := GetInputs(AsWords(ws));
      match inputs
      case Err(e) => r := Err(e);
      case Ok(FlatRows(rows)) => r := Ok(Frame(ws, rows));
      case Ok(BatchRows(batch)) =>
        r := if batch == [] then Ok(Frame(ws, [])) else Err(ValueError);
    }
  }

  /**
   * The loop of `_initialize_rnn`: each stage reads `output_size`, which then
   * becomes that stage's output size.
   */
  method BuildStages(embeddingSize: nat, specs: seq<StageSpec>) returns (stages: seq<Stage>, outputSize: nat)
    ensures stages == CascadeStages(embeddingSize, specs)
    ensures outputSize == CascadeOutputSize(embeddingSize, specs)
  {
    outputSize := embeddingSize;
    stages := [];
    var i := 0;
    while i < |specs|
      invariant 0 <= i <= |specs|
      invariant stages == CascadeStages(embeddingSize, specs[..i])
      invariant outputSize == CascadeOutputSize(embeddingSize, specs[..i])
    {
      assert specs[..i + 1][..i] == specs[..i];
      var s := specs[i];
      var inputSize := outputSize;
      stages := stages + [Stage(s.kind, inputSize, s.hiddenSize, s.numLayers, s.bidirectional)];
      outputSize := if s.bidirectional then s.hiddenSize * 2 else s.hiddenSize;
      i := i + 1;
    }
    assert specs[..i] == specs;
  }

  /**
   * The loops of `_initialize_regression`: `last_size` starts at
   * `rnn_output_size` once and is carried from one attribute to the next.
   */
  method BuildHeads(attrs: seq<string>, rnnOutputSize: nat, hidden: seq<nat>, outputSize: nat)
    returns (maps: map<string, seq<Layer>>)
    ensures maps == RegressionMaps(attrs, rnnOutputSize, hidden, outputSize)
  {
    maps := map[];
    var lastSize := rnnOutputSize;
    var k := 0;
    while k < |attrs|
      invariant 0 <= k <= |attrs|
      invariant lastSize == HeadInput(k, rnnOutputSize, hidden)
      invariant maps == RegressionMaps(attrs[..k], rnnOutputSize, hidden, outputSize)
    {
      assert attrs[..k + 1][..k] == attrs[..k];
      var start := lastSize;
      var head: seq<Layer> := [];
      var j := 0;
      while j < |hidden|
        invariant 0 <= j <= |hidden|
        invariant head == HiddenLayers(start, hidden[..j])
        invariant lastSize == LastSize(start, hidden[..j])
      {
        assert hidden[..j + 1][..j] == hidden[..j];
        head := head + [Layer(lastSize, hidden[j])];
        lastSize := hidden[j];
        j := j + 1;
      }
      assert hidden[..j] == hidden;
      head := head + [Layer(lastSize, outputSize)];
      maps := maps[attrs[k] := head];
      k := k + 1;
    }
    assert attrs[..k] == attrs;
  }

  /**
   * `RNNRegression(...)`: embeddings, then the cascade (ValueError on
   * mismatched settings), then the heads (IndexError for attention over an
   * empty cascade).
   */
  method NewRNNRegression(embeddings: Option<Table>, embeddingSize: Option<nat>, vocab: Option<seq<string>>,
                          init: nat -> Vec, classes: Setting<RnnKind>, hiddenSizes: Setting<nat>,
                          numLayers: Setting<nat>, bidi: Setting<bool>, attention: bool,
                          regressionHidden: seq<nat>, outputSize: nat, attributes: seq<string>)
    returns (r: Result<RNNRegression>)
    requires embeddings.Some? ==> WellShaped(embeddings.value)
    ensures var e := InitializeEmbeddings(embeddings, embeddingSize, vocab, init);
            var c := Homogenize(classes, hiddenSizes, numLayers, bidi);
            && (r.Ok? <==> e.Ok? && ValidateParameters(c) == Pass && !(attention && Zip4(c) == []))
            && (r.Err? ==> r.error == (if e.Err? then TypeError
                                       else if ValidateParameters(c).Fail? then ValueError
                                       else IndexError))
            && (r.Ok? ==>
                  && fresh(r.value) && r.value.Valid()
                  && r.value.vocab == e.value.vocab && r.value.weights == e.value.weights
                  && r.value.rnns == CascadeStages(e.value.embeddingSize, Zip4(c))
                  && r.value.rnnOutputSize == CascadeOutputSize(e.value.embeddingSize, Zip4(c))
                  && r.value.attributes == attributes
                  && r.value.linearMaps == RegressionMaps(attributes, r.value.rnnOutputSize, regressionHidden, outputSize)
                  && r.value.hasBatchDim == None)
  {
    var e := InitializeEmbeddings(embeddings, embeddingSize, vocab, init);
    if e.Err? {
      return Err(e.error);
    }
    var m := new RNNRegression(e.value);
    var built := m.InitializeRnn(classes, hiddenSizes, numLayers, bidi);
    if built.Fail? {
      return Err(built.error);
    }
    CascadeSizing(e.value.embeddingSize, Zip4(Homogenize(classes, hiddenSizes, numLayers, bidi)));
    var heads := m.InitializeRegression(attention, regressionHidden, outputSize, attributes);
    if heads.Fail? {
      return Err(heads.error);
    }
    r := Ok(m);
  }
}
