/**
 * The encoder cascade of RNNRegression: how the four cascade settings are
 * broadcast and validated, and how the input and output sizes of the stages
 * are chained together.
 */
module Cascade {
  import opened Wrappers
  import opened Seqs

  /** The kind of one encoder stage: a linear-chain RNN or a tree RNN. */
  datatype RnnKind = Chain | Tree

  /** A constructor argument given either as one value or as a list of values. */
  datatype Setting<T> = Scalar(v: T) | List(items: seq<T>)

  /** The four cascade settings after broadcasting, one entry per stage. */
  datatype CascadeConfig = CascadeConfig(
    classes: seq<RnnKind>,
    hiddenSizes: seq<nat>,
    numLayers: seq<nat>,
    bidirectional: seq<bool>)

  /** The settings of one stage, as `zip` pairs them up. */
  datatype StageSpec = StageSpec(kind: RnnKind, hiddenSize: nat, numLayers: nat, bidirectional: bool)

  /** One constructed encoder; its weights are not modelled. */
  datatype Stage = Stage(kind: RnnKind, inputSize: nat, hiddenSize: nat, numLayers: nat, bidirectional: bool)

  function ListLength<T>(s: Setting<T>): seq<nat>
  {
    if s.List? then [|s.items|] else []
  }

  /** The lengths of the settings that were given as lists, in argument order. */
  function ListLengths(classes: Setting<RnnKind>, hiddenSizes: Setting<nat>,
                       numLayers: Setting<nat>, bidirectional: Setting<bool>): seq<nat>
  {
    ListLength(classes) + ListLength(hiddenSizes) + ListLength(numLayers) + ListLength(bidirectional)
  }

  /** The broadcast length: the longest list, or 1 when no setting is a list. */
  function MaxLength(lengths: seq<nat>): (m: nat)
    ensures lengths == [] ==> m == 1
    ensures lengths != [] ==> m in lengths
    ensures forall i :: 0 <= i < |lengths| ==> lengths[i] <= m
  {
    if lengths == [] then 1 else Max(lengths)
  }

  /** One setting as a list: a scalar repeated `maxLength` times, a list as it is. */
  function Homogenized<T>(s: Setting<T>, maxLength: nat): (r: seq<T>)
    ensures s.Scalar? ==> |r| == maxLength && forall i :: 0 <= i < |r| ==> r[i] == s.v
    ensures s.List? ==> r == s.items
  {
    match s
    case Scalar(v) => Repeat(v, maxLength)
    case List(items) => items
  }

  function Homogenize(classes: Setting<RnnKind>, hiddenSizes: Setting<nat>,
                      numLayers: Setting<nat>, bidirectional: Setting<bool>): CascadeConfig
  {
    var m := MaxLength(ListLengths(classes, hiddenSizes, numLayers, bidirectional));
    CascadeConfig(Homogenized(classes, m), Homogenized(hiddenSizes, m),
                  Homogenized(numLayers, m), Homogenized(bidirectional, m))
  }

  /** `_validate_parameters`: all four lists must have the length of the first. */
  function ValidateParameters(c: CascadeConfig): (r: Outcome)
    ensures r.Fail? ==> r.error == ValueError
    ensures r == Pass <==> |c.hiddenSizes| == |c.classes| && |c.numLayers| == |c.classes| && |c.bidirectional| == |c.classes|
  {
    if |c.classes| == |c.hiddenSizes| && |c.classes| == |c.numLayers| && |c.classes| == |c.bidirectional|
    then Pass
    else Fail(ValueError)
  }

  /** The lengths in `ListLengths` are exactly those of the settings given as lists. */
  lemma ListLengthsMembers(classes: Setting<RnnKind>, hiddenSizes: Setting<nat>,
                           numLayers: Setting<nat>, bidirectional: Setting<bool>, x: nat)
    ensures x in ListLengths(classes, hiddenSizes, numLayers, bidirectional)
        <==> ((classes.List? && x == |classes.items|) || (hiddenSizes.List? && x == |hiddenSizes.items|)
              || (numLayers.List? && x == |numLayers.items|) || (bidirectional.List? && x == |bidirectional.items|))
  {
  }

  /** A homogenised setting has the broadcast length unless it is a list of another length. */
  lemma HomogenizedLength<T>(s: Setting<T>, m: nat)
    ensures |Homogenized(s, m)| == m <==> s.Scalar? || |s.items| == m
  {
  }

  /**
   * Construction succeeds exactly when every setting given as a list has the
   * same length; a scalar never causes a failure.
   */
  lemma ValidationIffListsAgree(classes: Setting<RnnKind>, hiddenSizes: Setting<nat>,
                                numLayers: Setting<nat>, bidirectional: Setting<bool>)
    ensures var lens := ListLengths(classes, hiddenSizes, numLayers, bidirectional);
            ValidateParameters(Homogenize(classes, hiddenSizes, numLayers, bidirectional)) == Pass
            <==> forall i, j :: 0 <= i < |lens| && 0 <= j < |lens| ==> lens[i] == lens[j]
  {
    var lens := ListLengths(classes, hiddenSizes, numLayers, bidirectional);
    var m := MaxLength(lens);
    var c := Homogenize(classes, hiddenSizes, numLayers, bidirectional);
    HomogenizedLength(classes, m);
    HomogenizedLength(hiddenSizes, m);
    HomogenizedLength(numLayers, m);
    HomogenizedLength(bidirectional, m);
    if forall i, j :: 0 <= i < |lens| && 0 <= j < |lens| ==> lens[i] == lens[j] {
      // every list has the length of the longest one
      forall x | x in lens ensures x == m {
        var k :| 0 <= k < |lens| && lens[k] == x;
        var l :| 0 <= l < |lens| && lens[l] == m;
      }
      if classes.List? { ListLengthsMembers(classes, hiddenSizes, numLayers, bidirectional, |classes.items|); }
      if hiddenSizes.List? { ListLengthsMembers(classes, hiddenSizes, numLayers, bidirectional, |hiddenSizes.items|); }
      if numLayers.List? { ListLengthsMembers(classes, hiddenSizes, numLayers, bidirectional, |numLayers.items|); }
      if bidirectional.List? { ListLengthsMembers(classes, hiddenSizes, numLayers, bidirectional, |bidirectional.items|); }
    } else {
      // two lists disagree, so their homogenised lengths differ too
      var i, j :| 0 <= i < |lens| && 0 <= j < |lens| && lens[i] != lens[j];
      ListLengthsMembers(classes, hiddenSizes, numLayers, bidirectional, lens[i]);
      ListLengthsMembers(classes, hiddenSizes, numLayers, bidirectional, lens[j]);
    }
  }

  function StageOutputSize(hiddenSize: nat, bidirectional: bool): nat
  {
    if bidirectional then hiddenSize * 2 else hiddenSize
  }

  /** The stages `zip` forms from the four lists (it stops at the shortest). */
  function Zip4(c: CascadeConfig): (r: seq<StageSpec>)
    ensures |r| <= |c.classes| && |r| <= |c.hiddenSizes| && |r| <= |c.numLayers| && |r| <= |c.bidirectional|
    ensures ValidateParameters(c) == Pass ==> |r| == |c.classes|
    ensures forall i :: 0 <= i < |r| ==>
      r[i] == StageSpec(c.classes[i], c.hiddenSizes[i], c.numLayers[i], c.bidirectional[i])
  {
    var n := |c.classes|;
    var n := if |c.hiddenSizes| < n then |c.hiddenSizes| else n;
    var n := if |c.numLayers| < n then |c.numLayers| else n;
    var n := if |c.bidirectional| < n then |c.bidirectional| else n;
    seq(n, i requires 0 <= i < n =>
      StageSpec(c.classes[i], c.hiddenSizes[i], c.numLayers[i], c.bidirectional[i]))
  }

  /** The number of stages built equals the broadcast length. */
  lemma StageCountIsMaxLength(classes: Setting<RnnKind>, hiddenSizes: Setting<nat>,
                              numLayers: Setting<nat>, bidirectional: Setting<bool>)
    requires ValidateParameters(Homogenize(classes, hiddenSizes, numLayers, bidirectional)) == Pass
    ensures |Zip4(Homogenize(classes, hiddenSizes, numLayers, bidirectional))|
            == MaxLength(ListLengths(classes, hiddenSizes, numLayers, bidirectional))
  {
    var lens := ListLengths(classes, hiddenSizes, numLayers, bidirectional);
    var m := MaxLength(lens);
    var c := Homogenize(classes, hiddenSizes, numLayers, bidirectional);
    if classes.List? {
      ValidationIffListsAgree(classes, hiddenSizes, numLayers, bidirectional);
      assert lens[0] == |classes.items|;
      var k :| 0 <= k < |lens| && lens[k] == m;
    }
  }

  /** The size a cascade of `specs` hands on: the last stage's output, or its own input. */
  function CascadeOutputSize(inputSize: nat, specs: seq<StageSpec>): nat
  {
    if specs == [] then inputSize
    else StageOutputSize(specs[|specs| - 1].hiddenSize, specs[|specs| - 1].bidirectional)
  }

  /** The stages `_initialize_rnn` builds, each fed by the previous one's output. */
  function CascadeStages(inputSize: nat, specs: seq<StageSpec>): seq<Stage>
  {
    if specs == [] then []
    else
      var front := specs[..|specs| - 1];
      var s := specs[|specs| - 1];
      CascadeStages(inputSize, front)
        + [Stage(s.kind, CascadeOutputSize(inputSize, front), s.hiddenSize, s.numLayers, s.bidirectional)]
  }

  /**
   * The shape of a cascade: one stage per spec, configured by it; the first
   * stage reads the embeddings; each later stage reads what the stage before
   * it writes (twice the hidden size when bidirectional); and the size handed
   * on is the last stage's output.
   */
  lemma {:induction false} CascadeSizing(inputSize: nat, specs: seq<StageSpec>)
    ensures var stages := CascadeStages(inputSize, specs);
      && |stages| == |specs|
      && (forall i :: 0 <= i < |specs| ==>
            stages[i].kind == specs[i].kind && stages[i].hiddenSize == specs[i].hiddenSize
            && stages[i].numLayers == specs[i].numLayers && stages[i].bidirectional == specs[i].bidirectional)
      && (|stages| > 0 ==> stages[0].inputSize == inputSize)
      && (forall i :: 0 <= i < |stages| - 1 ==>
            stages[i + 1].inputSize == (if stages[i].bidirectional then 2 * stages[i].hiddenSize else stages[i].hiddenSize))
      && CascadeOutputSize(inputSize, specs)
         == (if stages == [] then inputSize
             else if stages[|stages| - 1].bidirectional then 2 * stages[|stages| - 1].hiddenSize
             else stages[|stages| - 1].hiddenSize)
  {
    if specs != [] {
      var front := specs[..|specs| - 1];
      CascadeSizing(inputSize, front);
      var prev := CascadeStages(inputSize, front);
      var stages := CascadeStages(inputSize, specs);
      assert stages[..|front|] == prev;
      forall i | 0 <= i < |front| ensures specs[i] == front[i] { }
    }
  }

  /**
   * Running `stages` in order on inputs of width `width`: each stage must be
   * fed inputs of its own input size and hands on its output size; None when
   * some stage receives inputs of another width.
   */
  function RunStages(width: nat, stages: seq<Stage>): Option<nat>
  {
    if stages == [] then Some(width)
    else
      var s := stages[|stages| - 1];
      match RunStages(width, stages[..|stages| - 1])
      case None => None
      case Some(w) => if s.inputSize == w then Some(StageOutputSize(s.hiddenSize, s.bidirectional)) else None
  }

  /**
   * `_run_rnns` over the stages its loop visits: `h_all` and `h_last` are
   * bound only inside the loop, so visiting no stage ends in
   * UnboundLocalError at the `return`; a stage fed inputs of another width
   * is a RuntimeError of torch. Otherwise the width handed to the head.
   */
  function RunRnns(width: nat, visited: seq<Stage>): (r: Result<nat>)
    ensures visited == [] ==> r == Err(UnboundLocalError)
    ensures visited != [] ==> (r.Ok? <==> RunStages(width, visited).Some?)
    ensures r.Ok? ==> RunStages(width, visited) == Some(r.value)
  {
    if visited == [] then Err(UnboundLocalError)
    else
      match RunStages(width, visited)
      case None => Err(RuntimeError)
      case Some(w) => Ok(w)
  }

  /** `_run_rnns` as written: `zip(self.rnns, [structures])` visits the first stage only. */
  function RunRnnsStagesAsWritten(rnns: seq<Stage>): (r: seq<Stage>)
    ensures |r| <= 1 && r <= rnns
  {
    if rnns == [] then [] else [rnns[0]]
  }

  /**
   * As written, every non-empty cascade hands on the output size of its
   * first stage, whatever the later stages are; the empty cascade raises
   * UnboundLocalError.
   */
  lemma RunRnnsAsWrittenFirstStage(inputSize: nat, specs: seq<StageSpec>)
    ensures specs != [] ==>
              && RunStages(inputSize, RunRnnsStagesAsWritten(CascadeStages(inputSize, specs)))
                 == Some(StageOutputSize(specs[0].hiddenSize, specs[0].bidirectional))
              && RunRnns(inputSize, RunRnnsStagesAsWritten(CascadeStages(inputSize, specs)))
                 == Ok(StageOutputSize(specs[0].hiddenSize, specs[0].bidirectional))
    ensures specs == [] ==> RunRnns(inputSize, RunRnnsStagesAsWritten(CascadeStages(inputSize, specs))) == Err(UnboundLocalError)
  {
    CascadeSizing(inputSize, specs);
    if specs != [] {
      var first := CascadeStages(inputSize, specs)[0];
      assert [first][..0] == [];
    }
  }

  /**
   * As written, a two-stage cascade with hidden sizes 300 and 100 hands the
   * head a 300-wide summary while the head was sized for 100.
   */
  lemma RunRnnsAsWrittenMismatch()
    ensures var specs := [StageSpec(Chain, 300, 1, false), StageSpec(Chain, 100, 1, false)];
            RunStages(50, RunRnnsStagesAsWritten(CascadeStages(50, specs))) == Some(300)
            && CascadeOutputSize(50, specs) == 100
  {
    var specs := [StageSpec(Chain, 300, 1, false), StageSpec(Chain, 100, 1, false)];
    RunRnnsAsWrittenFirstStage(50, specs);
  }

  /**
   * Running every stage of the cascade in order, as the class documentation
   * describes, feeds each stage inputs of exactly its input size and hands
   * the head a summary of exactly the size `rnn_output_size` records, for
   * every cascade. `_run_rnns` then succeeds with that size for every
   * non-empty cascade; the empty one, which validation lets through when
   * every list setting is empty, raises UnboundLocalError.
   */
  lemma {:induction false} RunRnnsMatchesOutputSize(inputSize: nat, specs: seq<StageSpec>)
    ensures RunStages(inputSize, CascadeStages(inputSize, specs)) == Some(CascadeOutputSize(inputSize, specs))
    ensures RunRnns(inputSize, CascadeStages(inputSize, specs))
            == if specs == [] then Err(UnboundLocalError) else Ok(CascadeOutputSize(inputSize, specs))
  {
    CascadeSizing(inputSize, specs);
    if specs != [] {
      var front := specs[..|specs| - 1];
      RunRnnsMatchesOutputSize(inputSize, front);
      var stages := CascadeStages(inputSize, specs);
      assert stages[..|stages| - 1] == CascadeStages(inputSize, front);
    }
  }
}
