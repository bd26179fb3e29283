# factslab RNNRegression: a verified model of its discrete core

`factslab/pytorch/rnnregression.py` defines two classes.

- `RNNRegression` embeds words and runs them through a cascade of recurrent encoders. It takes the encoder output at the last real timestep of each example and feeds it to one stack of linear layers per predicted attribute.
- `RNNRegressionTrainer` builds such a model, looks up its loss function and trains it (`fit`). Training runs epoch by epoch, prints metric reports on a fixed schedule and stops early on the first drop in validation correlation. `predict` gathers the validation predictions.

This project models the discrete behaviour of both classes. Tensors, gradients, losses and correlations are left as opaque values or inputs. What is modelled:

- how the four cascade settings are broadcast and validated;
- how the encoder and regression-layer sizes are chained;
- the order in which layers and the nonlinearity apply;
- the word index and the word-to-row lookup, in both the batched and the unbatched form;
- the timestep selector;
- the table returned by `word_embeddings`;
- the loss lookup;
- in `fit`: the epochs, the early-stopping rule, the reporting schedule with its trace buffers, and the errors raised by its own bookkeeping: the AttributeError of the branch taken when `rnn_classes` is not the class `LSTM`, target lookups, the loss average, the report progress, the errors `_print_metric` raises before any numerics, and validation. The errors of the forward passes it makes are stated by the `Model` and `Timestep` members, not inside `fit` (see "## Left out");
- the concatenation in `predict`, with its KeyError and TypeError cases.

Modules, one per concern:

- `Wrappers`: `Result`, `Outcome`, `Option` and the Python exceptions raised, as an `Error` datatype.
- `Seqs`: small helpers: repeat, flatten, max, mean.
- `Cascade`: `_homogenize_parameters`, `_validate_parameters`, the size chain of `_initialize_rnn`, and the stage loop of `_run_rnns`.
- `RegressionHead`: the layer plan of `_initialize_regression` and the operation order of `_run_regression`.
- `Vocabulary`: `_initialize_embeddings`, `vocab_hash`, `_get_inputs` and `word_embeddings`.
- `Timestep`: `choose_timestep`.
- `Model`: the class `RNNRegression`, whose initialisation steps and forward pass update fields in place. Its loops are methods proved against the specification functions above.
- `Trainer`: the loss map, the control flow of `fit` (with its loops as methods proved against `FitSpec`), and the class `RNNRegressionTrainer` with `Fit` and `Predict`.

Inputs the model takes as parameters instead of computing them:

- the initial random rows of the embedding layer (`init`);
- the validation correlation of each epoch and attribute (`devCorr(epoch, attr)`);
- the number of training batches, and the number of target batches stored under each key of `Y` (`targets`);
- the number of validation batches;
- the per-batch prediction dictionaries that `predict` concatenates, each entry being what `.tolist()` gives: a list, or a bare number for a zero-dimensional output.

Where the code and the class documentation disagree, the model follows the code:

- Embeddings are always frozen. Line 152 turns their gradients off whether or not a pretrained table was given.
- The key `'acceptability'` is hard-coded: `predict` fills only that key (lines 639-642), and the progress `total` (line 503) and `_print_metric` (lines 589 and 594) read it. The validation loop (lines 572-575) indexes `predictions[attr]` for every attribute, so any other attribute is a KeyError.
- The mean validation correlation is that of the last attribute, repeated once per attribute (lines 572-581).
- `word_embeddings` reuses the `has_batch_dim` flag left behind by the last forward pass. Before any forward pass that attribute does not exist, which is an AttributeError.
- `_run_rnns` runs only the first stage of the cascade (see Findings). The model states that as-written behaviour, and states the run over every stage separately.
- `_initialize_embeddings` reads an unbound `embedding_size` (see Findings). `Vocabulary.InitializeEmbeddingsAsWritten` models the code as written. Construction (`Model.NewRNNRegression`) builds on the corrected `Vocabulary.InitializeEmbeddings`, so an explicit vocabulary with a size succeeds in the model where the code raises NameError.

`childsumtreelstm`, star-imported at line 13, is not part of this model. The model assumes it supplies `ChildSumTreeLSTM` (line 269) and `Dropout` (line 189), which this file never imports, but does not bind the name `embedding_size`.

## Model

| member | source | states |
|---|---|---|
| Cascade.MaxLength | factslab/pytorch/rnnregression.py:93-96 | The broadcast length is 1 when no setting is a list. Otherwise it is one of the list lengths and no list is longer. |
| Cascade.Homogenized | factslab/pytorch/rnnregression.py:98-116 | A scalar setting becomes that value repeated to the broadcast length; a list setting is kept as it is. |
| Cascade.ValidateParameters | factslab/pytorch/rnnregression.py:118-127 | Passes exactly when all four lists have the length of the class list; otherwise raises ValueError. |
| Cascade.ListLengthsMembers | factslab/pytorch/rnnregression.py:93-95 | A length is among the collected lengths exactly when it is the length of one of the settings given as a list. |
| Cascade.HomogenizedLength | factslab/pytorch/rnnregression.py:98-116 | A homogenised setting has the broadcast length exactly when it was a scalar or a list of that length. |
| Cascade.ValidationIffListsAgree | factslab/pytorch/rnnregression.py:90-127 | Construction passes validation exactly when every setting given as a list has the same length; scalars never cause a failure. |
| Cascade.Zip4 | factslab/pytorch/rnnregression.py:166-167 | The zipped stages are no longer than any of the four lists, and after validation there is one per class. Stage i takes the i-th entry of every list. |
| Cascade.StageCountIsMaxLength | factslab/pytorch/rnnregression.py:93-96 | After validation, the number of stages equals the broadcast length. |
| Cascade.CascadeSizing | factslab/pytorch/rnnregression.py:163-182 | One stage per spec, configured by it. The first stage reads the embedding size. Each later stage reads the previous stage's output: twice its hidden size when bidirectional. `rnn_output_size` is the last stage's output, or the embedding size when there is no stage. |
| Cascade.RunRnnsStagesAsWritten | factslab/pytorch/rnnregression.py:268 | As written, the loop visits at most one stage, a prefix of the cascade. |
| Cascade.RunRnnsAsWrittenFirstStage | factslab/pytorch/rnnregression.py:268-279 | As written, a non-empty cascade succeeds and hands on the first stage's output size, whatever the later stages are; the empty cascade raises UnboundLocalError. |
| Cascade.RunRnnsAsWrittenMismatch | factslab/pytorch/rnnregression.py:268 | Hidden sizes 300 then 100 over 50-wide embeddings: as written the head receives a 300-wide summary, but it was sized for 100. |
| Cascade.RunRnns | factslab/pytorch/rnnregression.py:264-279 | A loop over no stage raises UnboundLocalError, because `h_all` and `h_last` are bound only inside it. Otherwise it succeeds exactly when every stage is fed inputs of its own width, with the width the last stage hands on. |
| Cascade.RunRnnsMatchesOutputSize | factslab/pytorch/rnnregression.py:264-279 | For every cascade, running all stages in order through `RunStages` succeeds. That fold fails as soon as a stage is fed inputs of a width other than its input size, so success means each stage is fed exactly its own input size. `_run_rnns` then hands the head a summary of exactly the size `rnn_output_size` records for every non-empty cascade, and raises UnboundLocalError for the empty one. |
| RegressionHead.HiddenLayersShape | factslab/pytorch/rnnregression.py:200-206 | One layer per hidden size, writing that size. The first layer reads the head's input size; each later layer reads what the previous one writes. |
| RegressionHead.HeadShape | factslab/pytorch/rnnregression.py:198-210 | Each head has one layer more than there are hidden sizes. Its output sizes are the hidden sizes followed by the output size, and consecutive layers are chained. |
| RegressionHead.RegressionMapsKeys | factslab/pytorch/rnnregression.py:185-199 | `linear_maps` has exactly the attributes as keys. |
| RegressionHead.RegressionMapsHeadAt | factslab/pytorch/rnnregression.py:190-210 | The head of the attribute at position k (when the name does not recur later) is the plan that starts from that position's input size. |
| RegressionHead.RegressionMapsHeads | factslab/pytorch/rnnregression.py:184-212 | Both of the above, for every position at once. |
| RegressionHead.FirstHeadReadsSummary | factslab/pytorch/rnnregression.py:190-201 | The first attribute's head reads `rnn_output_size`. |
| RegressionHead.LaterHeadsReadLastHidden | factslab/pytorch/rnnregression.py:198-206 | Because `last_size` is never reset, each later attribute's head reads the last hidden size instead of `rnn_output_size`. |
| RegressionHead.NoHiddenHeadsAreSingleLayer | factslab/pytorch/rnnregression.py:198-210 | Without hidden sizes, every attribute's head is the single layer from `rnn_output_size` to the output size. |
| RegressionHead.HeadTraceOrder | factslab/pytorch/rnnregression.py:308-313 | The layers apply in order. The nonlinearity comes right before every layer except the first, and nothing follows the last layer. |
| Vocabulary.VocabHashSpec | factslab/pytorch/rnnregression.py:154 | The index covers exactly the vocabulary. Each word maps to a position holding that word, and the word does not occur after that position (its last occurrence wins). |
| Vocabulary.VocabHashDistinct | factslab/pytorch/rnnregression.py:154 | With distinct words, the word at position i maps to i. |
| Vocabulary.Lookup | factslab/pytorch/rnnregression.py:343 | Succeeds exactly when every word is indexed, with the indices in word order; otherwise raises KeyError. |
| Vocabulary.HasBatchDim | factslab/pytorch/rnnregression.py:243-246 | The flag is set exactly when the first element is a list. An empty input raises IndexError. |
| Vocabulary.Chars | factslab/pytorch/rnnregression.py:342-343 | Iterating over a string yields its characters as one-character strings, in order. |
| Vocabulary.FirstUnfit | factslab/pytorch/rnnregression.py:345 | The position of the first element that is not an indexed word: every element before it is one, and the one at it is not (or there is none). |
| Vocabulary.LookupFlat | factslab/pytorch/rnnregression.py:345 | Succeeds exactly when every element is an indexed word, with the indices in order. Otherwise raises the error of the first failing element (`FirstUnfit`): TypeError for a list (unhashable), KeyError for a missing word. |
| Vocabulary.LookupSentencesOk | factslab/pytorch/rnnregression.py:340-343 | The batched lookup succeeds exactly when every sentence's lookup does; otherwise raises KeyError. |
| Vocabulary.LookupSentencesValue | factslab/pytorch/rnnregression.py:341-343 | A successful batched lookup has one index list per sentence, each that sentence's lookup, in order. |
| Vocabulary.LookupSentencesSpec | factslab/pytorch/rnnregression.py:340-343 | The two lemmas above, stated together. |
| Vocabulary.Embed | factslab/pytorch/rnnregression.py:347 | Embedding a list of indices gives, at each position, the row of that index. |
| Vocabulary.EmbedBatch | factslab/pytorch/rnnregression.py:346-347 | Embedding index lists gives one embedded list per sentence. |
| Vocabulary.LookupSentencesFit | factslab/pytorch/rnnregression.py:343-347 | Every index a successful batched lookup produces names a row of the table. |
| Vocabulary.GetInputsFlatOrder | factslab/pytorch/rnnregression.py:344-347 | Without a batch dimension: success exactly when every element is an indexed word, one row per word, and the row of word i is the table row of its index. |
| Vocabulary.GetInputsBatchedOrder | factslab/pytorch/rnnregression.py:340-347 | With a batch dimension, lookup succeeds exactly when every word of every sentence is indexed and all sentences have the same length. A missing word is a KeyError; with every word indexed, a ragged batch is a ValueError from `torch.tensor`. On success there is one embedded list per sentence, with one row per word, and word k of sentence s gets the table row of its index. |
| Vocabulary.GetInputsBatchedMissingWord | factslab/pytorch/rnnregression.py:343 | With a batch dimension, any word of any sentence that is missing from the index makes the lookup a KeyError. |
| Vocabulary.VocabularyLookup | factslab/pytorch/rnnregression.py:154 | A repetition-free vocabulary, looked up word by word through its own index, succeeds and gives the positions 0, 1, 2, ... in order. |
| Vocabulary.WholeVocabularyTable | factslab/pytorch/rnnregression.py:363-366 | Without a batch dimension (the last forward pass saw plain words), an empty word list and a repetition-free vocabulary give the whole vocabulary with exactly the weight rows, in order. |
| Vocabulary.ExplicitVocabularyAsWrittenFails | factslab/pytorch/rnnregression.py:131-134 | As written, every model built from an explicit vocabulary raises NameError. |
| Vocabulary.InitializeEmbeddings | factslab/pytorch/rnnregression.py:129-154 | The corrected embedding step. Without a pretrained table it fails with TypeError exactly when the vocabulary or the embedding size is missing (`len(None)`, or `torch.nn.Embedding(n, None)`). A pretrained table gives its labels, rows and width. A vocabulary gives that vocabulary and the given size. In every case there is one row per word and the index is built from the vocabulary. |
| Vocabulary.InitializedIndexFits | factslab/pytorch/rnnregression.py:140-154 | Every index the word index hands out names a row of the embedding table. |
| Vocabulary.PretrainedRoundTrip | factslab/pytorch/rnnregression.py:135-154 | With a pretrained table whose labels do not repeat, looking up label i and embedding it gives back row i of the table. |
| Timestep.ChooseTimestep | factslab/pytorch/rnnregression.py:334-337 | Succeeds exactly when there is one length per example (or a single length broadcast to all), each between 1 and the padded length; otherwise raises RuntimeError. Example b gets the vector at its length minus one. |
| Timestep.ChooseTimestepPerExample | factslab/pytorch/rnnregression.py:336-337 | With one length per example, example b's length is within its padded length and it gets the vector at position length minus one. |
| Timestep.ChooseTimestepPicksLastReal | factslab/pytorch/rnnregression.py:334-337 | Lengths 3, 5, 2 over five padded steps select positions 2, 4 and 1, not the last padded step. |
| Model.RNNRegression.constructor | factslab/pytorch/rnnregression.py:129-154 | The state after `_initialize_embeddings`: the vocabulary, size and rows from the embedding step, an index that fits the table, no stages, no heads and no batch flag yet. |
| Model.RNNRegression.HomogenizeParameters | factslab/pytorch/rnnregression.py:90-116 | The four stored lists are the broadcast settings; nothing else changes. |
| Model.RNNRegression.InitializeRnn | factslab/pytorch/rnnregression.py:156-182 | Stores the broadcast settings and returns the validation outcome. On success the stages are the chained cascade and `rnn_output_size` its output size; on failure no stage is built. |
| Model.RNNRegression.InitializeRegression | factslab/pytorch/rnnregression.py:184-212 | Stores the attributes and the attention flag. Fails with IndexError exactly when attention is requested over an empty cascade. Otherwise `linear_maps` is the layer plan of every attribute, with `last_size` carried across attributes. |
| Model.RNNRegression.RunRegression | factslab/pytorch/rnnregression.py:299-314 | Produces one trace per attribute, each the layer and nonlinearity order of that attribute's head. |
| Model.RNNRegression.GetInputs | factslab/pytorch/rnnregression.py:339-347 | The embedded inputs, or the error, as the lookup specification gives them for the current batch flag; AttributeError when no forward pass has set it. |
| Model.RNNRegression.ForwardInputs | factslab/pytorch/rnnregression.py:243-248 | An empty input raises IndexError and leaves the flag alone. Otherwise the flag is set by whether the first element is a list, and the inputs are embedded under it. |
| Model.RNNRegression.WordEmbeddings | factslab/pytorch/rnnregression.py:349-366 | The table of the given words, or of the whole vocabulary for an empty list, as `WordEmbeddingsSpec` gives it. |
| Model.BuildStages | factslab/pytorch/rnnregression.py:163-182 | The stage loop builds exactly the chained cascade, and ends with its output size. |
| Model.BuildHeads | factslab/pytorch/rnnregression.py:190-212 | The head loops build exactly the layer plan of every attribute. |
| Model.NewRNNRegression | factslab/pytorch/rnnregression.py:72-88 | Construction on top of the corrected embedding step (see Findings; as written an explicit vocabulary raises NameError). It succeeds exactly when the embeddings can be set up, the settings agree, and attention is not asked of an empty cascade. Otherwise it raises TypeError, ValueError or IndexError, in that order. A fresh valid model holds the vocabulary, rows, cascade, output size, attributes and heads the specifications give, and no batch flag. |
| Trainer.LossFunction | factslab/pytorch/rnnregression.py:413-416 | Unknown regression types raise KeyError. "linear" gives MSELoss, "robust" L1Loss, "robust_smooth" SmoothL1Loss and "multinomial" CrossEntropyLoss. |
| Trainer.ContinuousIffNotCrossEntropy | factslab/pytorch/rnnregression.py:428 | A known regression type is continuous exactly when its loss is not cross-entropy. |
| Trainer.ScheduledMembership | factslab/pytorch/rnnregression.py:555-556 | A batch is scheduled for a report exactly when it was trained and verbosity divides its 1-based position. |
| Trainer.AllBatchesMembership | factslab/pytorch/rnnregression.py:497-504 | The batches of k epochs are exactly those of epochs 1 to k, with each index below the batch count. |
| Trainer.ScheduledAppend | factslab/pytorch/rnnregression.py:555-556 | The schedule of two runs of batches is the schedule of the first followed by that of the second. |
| Trainer.AfterBatchIds | factslab/pytorch/rnnregression.py:555-558 | One batch adds a report exactly when it is scheduled. |
| Trainer.AfterBatchTraces | factslab/pytorch/rnnregression.py:514-564 | After one batch, the reported traces followed by the open trace have gained just that batch, whether or not a report emptied the buffers. |
| Trainer.ScheduledEpochStep | factslab/pytorch/rnnregression.py:555-556 | Extending an epoch by one batch extends its schedule by that batch, when it is due. |
| Trainer.AfterBatchesIds | factslab/pytorch/rnnregression.py:504-564 | Within an epoch, reports are made after exactly the scheduled batches. |
| Trainer.AfterBatchesTraces | factslab/pytorch/rnnregression.py:504-564 | Within an epoch, no batch is lost or repeated between one report and the next. |
| Trainer.AfterBatchesEnds | factslab/pytorch/rnnregression.py:555-561 | Every report's trace ends with the batch after which it was made. |
| Trainer.AfterEpochsAccounting | factslab/pytorch/rnnregression.py:488-564 | Over whole epochs: reports follow the schedule, the buffers are not reset at epoch boundaries, and the trace contents add up to every batch trained, in order. |
| Trainer.HistoryOf | factslab/pytorch/rnnregression.py:491-495 | After k epochs the early-stopping list has k + 1 entries: 0.0, then each epoch's mean correlation. |
| Trainer.HistoryStep | factslab/pytorch/rnnregression.py:581 | Each epoch appends its mean correlation to the list. |
| Trainer.ScanFromSpec | factslab/pytorch/rnnregression.py:497-584 | Scanning from epoch e stops within the epoch budget and at no earlier drop; it stops before the budget only at a drop. |
| Trainer.RunLengthSpec | factslab/pytorch/rnnregression.py:496-584 | The loop runs no epoch for a non-positive budget, and otherwise between 1 and `epochs` epochs. No epoch before the last one run saw a strict drop, and it ends early only right after one. |
| Trainer.RunLengthWithoutDrop | factslab/pytorch/rnnregression.py:497 | Without a strict drop, exactly `epochs` epochs run. |
| Trainer.RunLengthAtFirstDrop | factslab/pytorch/rnnregression.py:583-584 | Training stops right after the epoch of the first strict drop. |
| Trainer.ValidationMean | factslab/pytorch/rnnregression.py:572-581 | Succeeds exactly when there are attributes and all have predictions. A missing prediction is a KeyError; no attributes is an AttributeError (`{}` has no `append`). The result is the last attribute's correlation. |
| Trainer.ValidationIgnoresEarlierAttributes | factslab/pytorch/rnnregression.py:572-581 | The correlations of all attributes but the last never affect early stopping. |
| Trainer.ReportError | factslab/pytorch/rnnregression.py:555-603 | A report raises nothing exactly when there are "acceptability" targets and the loss is neither robust nor "linear" without an "acceptability" attribute. With no targets the progress `i / total` is a ZeroDivisionError. Otherwise a robust loss subtracts a float from the dict `targ_trace` (TypeError), and "linear" without an "acceptability" attribute reads the missing `targ_trace['acceptability']` (KeyError). |
| Trainer.BatchesErrorStays | factslab/pytorch/rnnregression.py:504-564 | Once a batch has raised, the whole batch loop raises that error. |
| Trainer.NonLSTMFitsFail | factslab/pytorch/rnnregression.py:502-548 | When `rnn_classes` is not the class `LSTM` itself (a list such as `[LSTM]`, say), every fit of at least one epoch with a batch raises AttributeError on the first batch: `targ_trace.append` on a dict, or `losses.values()` on a list for an empty batch. The only exception is a KeyError from the loss lookup or from a missing "acceptability" target, which comes first. |
| Trainer.RobustFitsFailAtReport | factslab/pytorch/rnnregression.py:602-612 | With either robust loss, every fit of at least one epoch in which a report is due fails. |
| Trainer.BatchesErrorNone | factslab/pytorch/rnnregression.py:504-564 | If a run of batches raises nothing, then no batch in it, and no prefix of it, raises. |
| Trainer.BatchesErrorFirst | factslab/pytorch/rnnregression.py:504-564 | The error of a run of batches is that of its first failing batch. |
| Trainer.FitEarlyStopping | factslab/pytorch/rnnregression.py:491-584 | A successful fit's history is 0.0 followed by one mean correlation (the last attribute's) per epoch run. It does not decrease before the last epoch. At least one epoch runs when `epochs >= 1` and none otherwise, at most `epochs`. An early end comes right after a strict drop. |
| Trainer.FitReportSchedule | factslab/pytorch/rnnregression.py:504-564 | A report, followed by a reset of the buffers, comes after batch i of every epoch run exactly when verbosity divides i + 1. The reported traces and the open trace hold every batch trained, once each and in order. |
| Trainer.FitSilentNeverResets | factslab/pytorch/rnnregression.py:555 | With verbosity 0 nothing is reported and the buffers hold every batch trained. |
| Trainer.FitNeedsOnlyAcceptability | factslab/pytorch/rnnregression.py:570-573 | Because `predict` fills only "acceptability", a fit of at least one epoch fails whenever the attributes include any other name. |
| Trainer.EarlyStopExample | factslab/pytorch/rnnregression.py:581-584 | Mean correlations 0.5, 0.7, 0.6 stop a ten-epoch fit after exactly three epochs, with history 0.0, 0.5, 0.7, 0.6. |
| Trainer.CheckTargets | factslab/pytorch/rnnregression.py:512-513 | The target loop raises the first KeyError (missing attribute) or IndexError (too few batches), in attribute order. |
| Trainer.TrainBatches | factslab/pytorch/rnnregression.py:503-564 | The batch loop fails exactly when the batch error specification says, with that error. Otherwise it leaves the buffers and reports the schedule gives. |
| Trainer.Validate | factslab/pytorch/rnnregression.py:570-581 | Fails exactly as the validation error specification says. Otherwise it returns the last attribute's correlation for the epoch. |
| Trainer.TrainEpoch | factslab/pytorch/rnnregression.py:497-584 | One epoch fails exactly when the first-epoch error specification says. Otherwise it returns the schedule's buffers and the epoch's mean correlation. |
| Trainer.TrainEpochs | factslab/pytorch/rnnregression.py:487-584 | The epoch loop raises the first-epoch error when there is one. Without attributes and without an error it runs nothing. Otherwise it runs exactly the early-stopping run length, with its history and buffers. |
| Trainer.RNNRegressionTrainer.constructor | factslab/pytorch/rnnregression.py:418-429 | Stores the regression type, whether `rnn_classes` is the class `LSTM`, the epochs and the attributes; continuous exactly when the type is not "multinomial". |
| Trainer.RNNRegressionTrainer.Fit | factslab/pytorch/rnnregression.py:448-584 | `fit` has the outcome `FitSpec` gives for the errors of its own bookkeeping. That is KeyError for an unknown loss. Otherwise it is the first-epoch error: the targets, the AttributeError of the branch taken when `rnn_classes` is not the class `LSTM`, the loss average, a report, or validation. Otherwise it is the early-stopped run. |
| Trainer.RNNRegressionTrainer.Predict | factslab/pytorch/rnnregression.py:629-643 | Succeeds exactly when every zipped batch output has "acceptability" as a list. Otherwise it raises the error of the first batch that does not: KeyError for a missing key, TypeError when `.tolist()` gives a bare number (a zero-dimensional output). The result has only that key, holding the batches' outputs concatenated in order. |

## Left out

- Tensor numerics are not modelled: the LSTM and tree-LSTM computations, linear maps, relu values, dropout, softmax attention, loss values, gradients and optimizer steps. Stages and layers are known only by their sizes, and embedding rows are opaque reals.
- `_run_attention` and both `attention_weights` methods are not modelled. They are pure tensor algebra; only the IndexError that requesting attention raises during construction is modelled.
- The branch of `fit` at lines 528-546 runs whenever `rnn_classes` is not the class `LSTM` itself, a list of classes included. Its steps are not modelled, only that it always raises AttributeError on the first batch (`Trainer.NonLSTMFitsFail`): `targ_trace.append` on a dict at line 532, or `losses.values()` on a list at line 548 when the batch is empty.
- `_print_metric`'s statistics and printing, and every `print`, are not modelled. What is modelled: when a report is made, the `i / total` progress division, the errors `_print_metric` raises from the type of `targ_trace`, and the buffer resets.
- Trainer.Validate: does not model `dev_y[attr]` or `pearsonr`'s own errors (for example fewer than two points). The correlation is an input `devCorr`.
- Trainer.RNNRegressionTrainer.Fit: does not model the errors of the forward passes at lines 520 and 570. These are: a word missing from the vocabulary (KeyError), an unhashable element (TypeError), a ragged batch (ValueError), the empty-input IndexError, and a length outside the padded range (RuntimeError). `Model.RNNRegression.ForwardInputs`, `Vocabulary.GetInputsFlatOrder`, `Vocabulary.GetInputsBatchedOrder` and `Timestep.ChooseTimestep` state these on their own; the batches' words are not inputs of `FitSpec`.
- Trainer.RNNRegressionTrainer.Fit: does not model errors inside `_print_metric`'s numerics: `pearsonr` at line 596, and the multinomial log-probabilities at line 622.
- Trainer.Validate: does not model the TypeError `predict` raises for a one-example dev batch (stated by `Trainer.RNNRegressionTrainer.Predict`), since the dev batch sizes are not inputs of `FitSpec`.
- Trainer.RNNRegressionTrainer.Fit: does not model the construction of the regression inside `fit` (lines 471, 431-446), the optimizer set-up (lines 473-478) or the multinomial label counts (lines 479-483). Errors raised there come before the epochs; construction is modelled separately by `Model.NewRNNRegression`.
- `isinstance(p, Iterable)` also holds for strings and other iterables; the model takes each setting as either a scalar or a list.
- `torch.tensor` on a ragged batch is modelled as a ValueError, and `pd.DataFrame` on a batched (three-dimensional) input as a ValueError unless the batch is empty.
- The device, `batch_size`, `structures.words()` and `_preprocess_inputs` / `_postprocess_outputs` (identity and `squeeze`) are not modelled.
- Cascade.RunRnnsMatchesOutputSize: states the widths passed between stages (through `RunStages`), not the tensors. The empty cascade passes validation when every list setting is empty (for example `rnn_hidden_sizes=[]`). Its forward pass raises UnboundLocalError at line 279, as written and after the zip is corrected; `Cascade.RunRnns` states this. `fit` does not see it, since its forward passes are not modelled.

## Findings

| source | as written | input that shows it | evidently intended | confidence | as-written member | corrected member |
|---|---|---|---|---|---|---|
| factslab/pytorch/rnnregression.py:134 | `_initialize_embeddings` assigns `embedding_size`, a name that exists only among the constructor's parameters, so building from an explicit vocabulary raises NameError | `RNNRegression(embeddings=None, embedding_size=50, vocab=["a"])` | use the constructor's `embedding_size` | not executed; high, assuming (as the rest of the model does) that the star import at line 13 does not bind `embedding_size` | Vocabulary.ExplicitVocabularyAsWrittenFails | Vocabulary.InitializeEmbeddings |
| factslab/pytorch/rnnregression.py:268 | `zip(self.rnns, [structures])` pairs the stages with a one-element list, so only the first stage runs, while the head was sized for the last stage's output | hidden sizes 300 then 100 over 50-wide embeddings: the head expects 100 and receives 300 | run every stage in order | not executed; high | Cascade.RunRnnsAsWrittenFirstStage, Cascade.RunRnnsAsWrittenMismatch | Cascade.RunRnnsMatchesOutputSize |
