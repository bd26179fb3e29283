/**
 * RNNRegressionTrainer: the loss-function lookup, the control flow of `fit`
 * (epochs, early stopping on validation correlation, the reporting schedule
 * and its trace buffers, and the errors it raises) and `predict`.
 * Losses, gradients and correlations are not computed here: the validation
 * correlation of every epoch and attribute is an input.
 */
module Trainer {
  import opened Wrappers
  import opened Seqs

  datatype LossKind = MSELoss | L1Loss | SmoothL1Loss | CrossEntropyLoss

  /** `loss_function_map[regression_type]`. */
  function LossFunction(regressionType: string): (r: Result<LossKind>)
    ensures r.Err? <==> regressionType !in {"linear", "robust", "robust_smooth", "multinomial"}
    ensures r.Err? ==> r.error == KeyError
    ensures regressionType == "linear" ==> r == Ok(MSELoss)
    ensures regressionType == "robust" ==> r == Ok(L1Loss)
    ensures regressionType == "robust_smooth" ==> r == Ok(SmoothL1Loss)
    ensures regressionType == "multinomial" ==> r == Ok(CrossEntropyLoss)
  {
    if regressionType == "linear" then Ok(MSELoss)
    else if regressionType == "robust" then Ok(L1Loss)
    else if regressionType == "robust_smooth" then Ok(SmoothL1Loss)
    else if regressionType == "multinomial" then Ok(CrossEntropyLoss)
    else Err(KeyError)
  }

  /** `_continuous`: every regression type except "multinomial" is continuous. */
  predicate Continuous(regressionType: string)
  {
    regressionType != "multinomial"
  }

  /** A known regression type is continuous exactly when its loss is not cross-entropy. */
  lemma ContinuousIffNotCrossEntropy(regressionType: string)
    requires LossFunction(regressionType).Ok?
    ensures Continuous(regressionType) <==> LossFunction(regressionType).value != CrossEntropyLoss
  {
  }

  // ---------------------------------------------------------------------
  // Reporting schedule and trace buffers

  /** Batch `index` (0-based) of epoch `epoch` (1-based). */
  datatype BatchId = BatchId(epoch: nat, index: nat)

  /** A metric report made after batch `index`, over the batches in `trace`. */
  datatype Report = Report(epoch: nat, index: nat, trace: seq<BatchId>)

  /**
   * The trace buffers (`loss_trace`, `targ_trace`, `pred_trace` grow and are
   * reset together, so one list of batches stands for all three) and the
   * reports made so far.
   */
  datatype Progress = Progress(trace: seq<BatchId>, reports: seq<Report>)

  /**
   * `if verbosity: if not (i + 1) % verbosity`. Python's `%` floors and
   * Dafny's is Euclidean, but both are zero exactly when `verbosity` divides
   * `i + 1`, also for a negative `verbosity`.
   */
  predicate ReportsAt(verbosity: int, i: nat)
  {
    verbosity != 0 && (i + 1) % verbosity == 0
  }

  function AfterBatch(p: Progress, epoch: nat, i: nat, verbosity: int): Progress
  {
    var t := p.trace + [BatchId(epoch, i)];
    if ReportsAt(verbosity, i) then Progress([], p.reports + [Report(epoch, i, t)])
    else Progress(t, p.reports)
  }

  /** Batches `0 .. n - 1` of one epoch. */
  function AfterBatches(p: Progress, epoch: nat, n: nat, verbosity: int): Progress
  {
    if n == 0 then p
    else AfterBatch(AfterBatches(p, epoch, n - 1, verbosity), epoch, n - 1, verbosity)
  }

  /** Epochs `1 .. k`; the buffers are created once, before the first epoch. */
  function AfterEpochs(k: nat, n: nat, verbosity: int): Progress
  {
    if k == 0 then Progress([], [])
    else AfterBatches(AfterEpochs(k - 1, n, verbosity), k, n, verbosity)
  }

  function EpochBatches(epoch: nat, n: nat): (r: seq<BatchId>)
    ensures |r| == n && forall i :: 0 <= i < n ==> r[i] == BatchId(epoch, i)
  {
    seq(n, i requires 0 <= i < n => BatchId(epoch, i))
  }

  /** Every batch of epochs `1 .. k`, in the order they are trained. */
  function AllBatches(k: nat, n: nat): seq<BatchId>
  {
    if k == 0 then [] else AllBatches(k - 1, n) + EpochBatches(k, n)
  }

  /** The batches among `ids` after which a report is due. */
  function Scheduled(ids: seq<BatchId>, verbosity: int): seq<BatchId>
  {
    if ids == [] then []
    else
      var last := ids[|ids| - 1];
      Scheduled(ids[..|ids| - 1], verbosity) + (if ReportsAt(verbosity, last.index) then [last] else [])
  }

  function ReportIds(rs: seq<Report>): (r: seq<BatchId>)
    ensures |r| == |rs| && forall j :: 0 <= j < |rs| ==> r[j] == BatchId(rs[j].epoch, rs[j].index)
  {
    seq(|rs|, j requires 0 <= j < |rs| => BatchId(rs[j].epoch, rs[j].index))
  }

  function ReportTraces(rs: seq<Report>): (r: seq<seq<BatchId>>)
    ensures |r| == |rs| && forall j :: 0 <= j < |rs| ==> r[j] == rs[j].trace
  {
    seq(|rs|, j requires 0 <= j < |rs| => rs[j].trace)
  }

  /** Every report's trace ends with the batch after which it was made. */
  predicate EndsAtReports(rs: seq<Report>)
  {
    forall j :: 0 <= j < |rs| ==> rs[j].trace != [] && rs[j].trace[|rs[j].trace| - 1] == BatchId(rs[j].epoch, rs[j].index)
  }

  lemma {:induction false} ScheduledAppend(a: seq<BatchId>, b: seq<BatchId>, verbosity: int)
    ensures Scheduled(a + b, verbosity) == Scheduled(a, verbosity) + Scheduled(b, verbosity)
  {
    if b == [] {
      assert a + b == a;
    } else {
      assert (a + b)[..|a + b| - 1] == a + b[..|b| - 1];
      ScheduledAppend(a, b[..|b| - 1], verbosity);
    }
  }

  lemma {:induction false} ScheduledMembership(ids: seq<BatchId>, verbosity: int, x: BatchId)
    ensures x in Scheduled(ids, verbosity) <==> x in ids && ReportsAt(verbosity, x.index)
  {
    if ids != [] {
      ScheduledMembership(ids[..|ids| - 1], verbosity, x);
      assert ids == ids[..|ids| - 1] + [ids[|ids| - 1]];
    }
  }

  lemma {:induction false} AllBatchesMembership(k: nat, n: nat, x: BatchId)
    ensures x in AllBatches(k, n) <==> 1 <= x.epoch <= k && x.index < n
  {
    if k > 0 {
      AllBatchesMembership(k - 1, n, x);
      if x.epoch == k && x.index < n {
        assert EpochBatches(k, n)[x.index] == x;
      }
    }
  }

  /** One batch is reported exactly when it is scheduled. */
  lemma AfterBatchIds(p: Progress, epoch: nat, i: nat, verbosity: int)
    ensures ReportIds(AfterBatch(p, epoch, i, verbosity).reports)
         == ReportIds(p.reports) + (if ReportsAt(verbosity, i) then [BatchId(epoch, i)] else [])
  {
    if ReportsAt(verbosity, i) {
      var rep := Report(epoch, i, p.trace + [BatchId(epoch, i)]);
      assert ReportIds(p.reports + [rep]) == ReportIds(p.reports) + [BatchId(epoch, i)];
    }
  }

  /** One batch joins the trace, whether or not a report then empties it. */
  lemma AfterBatchTraces(p: Progress, epoch: nat, i: nat, verbosity: int)
    ensures var q := AfterBatch(p, epoch, i, verbosity);
      Flatten(ReportTraces(q.reports)) + q.trace == Flatten(ReportTraces(p.reports)) + p.trace + [BatchId(epoch, i)]
  {
    var b := BatchId(epoch, i);
    if ReportsAt(verbosity, i) {
      var rep := Report(epoch, i, p.trace + [b]);
      assert ReportTraces(p.reports + [rep]) == ReportTraces(p.reports) + [p.trace + [b]];
      FlattenAppend(ReportTraces(p.reports), [p.trace + [b]]);
      assert Flatten([p.trace + [b]]) == Flatten([]) + (p.trace + [b]);
    }
  }

  lemma ScheduledEpochStep(epoch: nat, n: nat, verbosity: int)
    requires n > 0
    ensures Scheduled(EpochBatches(epoch, n), verbosity)
         == Scheduled(EpochBatches(epoch, n - 1), verbosity) + (if ReportsAt(verbosity, n - 1) then [BatchId(epoch, n - 1)] else [])
  {
    assert EpochBatches(epoch, n)[..n - 1] == EpochBatches(epoch, n - 1);
  }

  /** Within one epoch, a report is made after exactly the scheduled batches. */
  lemma {:induction false} AfterBatchesIds(p: Progress, epoch: nat, n: nat, verbosity: int)
    ensures ReportIds(AfterBatches(p, epoch, n, verbosity).reports)
         == ReportIds(p.reports) + Scheduled(EpochBatches(epoch, n), verbosity)
  {
    if n == 0 {
      assert EpochBatches(epoch, 0) == [];
    } else {
      AfterBatchesIds(p, epoch, n - 1, verbosity);
      AfterBatchIds(AfterBatches(p, epoch, n - 1, verbosity), epoch, n - 1, verbosity);
      ScheduledEpochStep(epoch, n, verbosity);
    }
  }

  /**
   * Within one epoch, the reported traces followed by the open trace gain
   * every batch trained, each once and in order.
   */
  lemma {:induction false} AfterBatchesTraces(p: Progress, epoch: nat, n: nat, verbosity: int)
    ensures var q := AfterBatches(p, epoch, n, verbosity);
      Flatten(ReportTraces(q.reports)) + q.trace == Flatten(ReportTraces(p.reports)) + p.trace + EpochBatches(epoch, n)
  {
    if n == 0 {
      assert EpochBatches(epoch, 0) == [];
    } else {
      AfterBatchesTraces(p, epoch, n - 1, verbosity);
      AfterBatchTraces(AfterBatches(p, epoch, n - 1, verbosity), epoch, n - 1, verbosity);
      assert EpochBatches(epoch, n) == EpochBatches(epoch, n - 1) + [BatchId(epoch, n - 1)];
    }
  }

  /** Every report's trace ends with the batch after which it was made. */
  lemma {:induction false} AfterBatchesEnds(p: Progress, epoch: nat, n: nat, verbosity: int)
    requires EndsAtReports(p.reports)
    ensures EndsAtReports(AfterBatches(p, epoch, n, verbosity).reports)
  {
    if n > 0 {
      AfterBatchesEnds(p, epoch, n - 1, verbosity);
    }
  }

  /**
   * Over whole epochs: reports are made after exactly the scheduled batches,
   * the trace buffers are never reset at an epoch boundary, and nothing is
   * lost or repeated between one report and the next.
   */
  lemma {:induction false} AfterEpochsAccounting(k: nat, n: nat, verbosity: int)
    ensures var p := AfterEpochs(k, n, verbosity);
      && ReportIds(p.reports) == Scheduled(AllBatches(k, n), verbosity)
      && Flatten(ReportTraces(p.reports)) + p.trace == AllBatches(k, n)
      && EndsAtReports(p.reports)
  {
    if k > 0 {
      AfterEpochsAccounting(k - 1, n, verbosity);
      var p := AfterEpochs(k - 1, n, verbosity);
      AfterBatchesIds(p, k, n, verbosity);
      AfterBatchesTraces(p, k, n, verbosity);
      AfterBatchesEnds(p, k, n, verbosity);
      ScheduledAppend(AllBatches(k - 1, n), EpochBatches(k, n), verbosity);
    } else {
      assert ReportTraces([]) == [];
    }
  }

  // ---------------------------------------------------------------------
  // Early stopping

  /** The mean validation correlation after epoch `e`; `early_stop[0]` is 0.0. */
  function HistoryAt(devCorr: (nat, string) -> real, last: string, e: nat): real
  {
    if e == 0 then 0.0 else devCorr(e, last)
  }

  /** `early_stop[-1] - early_stop[-2] < 0` after epoch `e`. */
  predicate DropAt(devCorr: (nat, string) -> real, last: string, e: nat)
    requires e >= 1
  {
    HistoryAt(devCorr, last, e) - HistoryAt(devCorr, last, e - 1) < 0.0
  }

  /** The early-stopping list after `k` epochs. */
  function HistoryOf(devCorr: (nat, string) -> real, last: string, k: nat): (h: seq<real>)
    ensures |h| == k + 1 && forall e :: 0 <= e <= k ==> h[e] == HistoryAt(devCorr, last, e)
  {
    seq(k + 1, e requires 0 <= e <= k => HistoryAt(devCorr, last, e))
  }

  lemma HistoryStep(devCorr: (nat, string) -> real, last: string, k: nat)
    ensures HistoryOf(devCorr, last, k + 1) == HistoryOf(devCorr, last, k) + [devCorr(k + 1, last)]
  {
  }

  function ScanFrom(devCorr: (nat, string) -> real, last: string, e: nat, epochs: nat): nat
    requires 1 <= e <= epochs
    decreases epochs - e
  {
    if DropAt(devCorr, last, e) || e == epochs then e else ScanFrom(devCorr, last, e + 1, epochs)
  }

  /** How many epochs `while epoch < self.epochs` runs before it ends or breaks. */
  function RunLength(devCorr: (nat, string) -> real, last: string, epochs: int): nat
  {
    if epochs <= 0 then 0 else ScanFrom(devCorr, last, 1, epochs)
  }

  lemma {:induction false} ScanFromSpec(devCorr: (nat, string) -> real, last: string, e: nat, epochs: nat)
    requires 1 <= e <= epochs
    ensures var r := ScanFrom(devCorr, last, e, epochs);
      && e <= r <= epochs
      && (forall d :: e <= d < r ==> !DropAt(devCorr, last, d))
      && (r < epochs ==> DropAt(devCorr, last, r))
    decreases epochs - e
  {
    if !(DropAt(devCorr, last, e) || e == epochs) {
      ScanFromSpec(devCorr, last, e + 1, epochs);
    }
  }

  /**
   * Training runs at most `epochs` epochs; no epoch before the last one run
   * saw a strict decrease; and it ends early only right after the first
   * strict decrease (an equal value does not stop it).
   */
  lemma RunLengthSpec(devCorr: (nat, string) -> real, last: string, epochs: int)
    ensures var k := RunLength(devCorr, last, epochs);
      && (epochs <= 0 ==> k == 0) && (epochs > 0 ==> 1 <= k <= epochs)
      && (forall d :: 1 <= d < k ==> !DropAt(devCorr, last, d))
      && (0 < k < epochs ==> DropAt(devCorr, last, k))
  {
    if epochs > 0 {
      ScanFromSpec(devCorr, last, 1, epochs);
    }
  }

  /** Without a strict decrease, exactly `epochs` epochs run. */
  lemma RunLengthWithoutDrop(devCorr: (nat, string) -> real, last: string, epochs: int)
    requires forall d :: 1 <= d <= epochs ==> !DropAt(devCorr, last, d)
    ensures RunLength(devCorr, last, epochs) == if epochs <= 0 then 0 else epochs
  {
    RunLengthSpec(devCorr, last, epochs);
  }

  /** Training stops right after the epoch of the first strict decrease. */
  lemma RunLengthAtFirstDrop(devCorr: (nat, string) -> real, last: string, epochs: int, e: nat)
    requires 1 <= e <= epochs && DropAt(devCorr, last, e)
    requires forall d :: 1 <= d < e ==> !DropAt(devCorr, last, d)
    ensures RunLength(devCorr, last, epochs) == e
  {
    RunLengthSpec(devCorr, last, epochs);
  }

  // ---------------------------------------------------------------------
  // Validation at the end of an epoch

  /**
   * The two loops over the attributes after `predict`: `correlation` is
   * overwritten in the first loop, so `corrs` holds the last attribute's
   * value once per attribute. A missing prediction key is a KeyError;
   * without attributes `early_stop` is still the dict `{}` and has no
   * `append`.
   */
  function ValidationMean(attrs: seq<string>, predicted: set<string>, corr: string -> real): (r: Result<real>)
    ensures r.Ok? <==> attrs != [] && forall a :: a in attrs ==> a in predicted
    ensures r.Err? ==> r.error == (if exists a :: a in attrs && a !in predicted then KeyError else AttributeError)
    ensures r.Ok? ==> r.value == corr(attrs[|attrs| - 1])
  {
    if exists a :: a in attrs && a !in predicted then Err(KeyError)
    else if attrs == [] then Err(AttributeError)
    else
      var correlation := corr(attrs[|attrs| - 1]);
      var corrs := Repeat(correlation, |attrs|);
      MeanRepeat(correlation, |attrs|);
      Ok(Mean(corrs))
  }

  /** The correlations of all attributes but the last never influence early stopping. */
  lemma ValidationIgnoresEarlierAttributes(attrs: seq<string>, predicted: set<string>,
                                           corr1: string -> real, corr2: string -> real)
    requires attrs != [] && corr1(attrs[|attrs| - 1]) == corr2(attrs[|attrs| - 1])
    ensures ValidationMean(attrs, predicted, corr1) == ValidationMean(attrs, predicted, corr2)
  {
  }

  // ---------------------------------------------------------------------
  // Errors raised by fit

  /** The target loop of one batch: `self._Y[attr][i]` for each attribute in order. */
  function TargetError(attrs: seq<string>, targets: map<string, nat>, i: nat): Option<Error>
  {
    if attrs == [] then None
    else if attrs[0] !in targets then Some(KeyError)
    else if i >= targets[attrs[0]] then Some(IndexError)
    else TargetError(attrs[1..], targets, i)
  }

  /**
   * The errors of a report: the progress `i / total` when the
   * "acceptability" targets are empty; then `_print_metric`, which for the
   * two robust losses subtracts a float from the dict `targ_trace`
   * (TypeError) and for "linear" reads `targ_trace['acceptability']`,
   * whose keys are the attributes.
   */
  function ReportError(regressionType: string, attrs: seq<string>, total: nat): (r: Option<Error>)
    ensures r == None <==> total > 0 && (regressionType == "multinomial"
                                         || (regressionType == "linear" && "acceptability" in attrs)
                                         || regressionType !in {"linear", "robust", "robust_smooth"})
    ensures total == 0 ==> r == Some(ZeroDivisionError)
    ensures total > 0 && regressionType in {"robust", "robust_smooth"} ==> r == Some(TypeError)
    ensures total > 0 && regressionType == "linear" && "acceptability" !in attrs ==> r == Some(KeyError)
  {
    if total == 0 then Some(ZeroDivisionError)
    else if regressionType == "robust" || regressionType == "robust_smooth" then Some(TypeError)
    else if regressionType == "linear" && "acceptability" !in attrs then Some(KeyError)
    else None
  }

  /**
   * The first error batch `i` raises. When `rnn_classes` is not the class
   * `LSTM` (`lstmClass` false: a list of classes, say) the other branch runs:
   * it calls `append` on the dict `targ_trace`, or, for an empty batch,
   * `values` on the list `losses`, both an AttributeError. Otherwise: a
   * target lookup; the loss average over no attributes (`0 / 0`); or a
   * report due after it.
   */
  function BatchError(regressionType: string, lstmClass: bool, attrs: seq<string>, targets: map<string, nat>,
                      verbosity: int, i: nat): Option<Error>
    requires "acceptability" in targets
  {
    var t := TargetError(attrs, targets, i);
    if !lstmClass then Some(AttributeError)
    else if t.Some? then t
    else if attrs == [] then Some(ZeroDivisionError)
    else if ReportsAt(verbosity, i) then ReportError(regressionType, attrs, targets["acceptability"])
    else None
  }

  function BatchesError(regressionType: string, lstmClass: bool, attrs: seq<string>, targets: map<string, nat>, verbosity: int, n: nat): Option<Error>
    requires "acceptability" in targets
  {
    if n == 0 then None
    else
      var e := BatchesError(regressionType, lstmClass, attrs, targets, verbosity, n - 1);
      if e.Some? then e else BatchError(regressionType, lstmClass, attrs, targets, verbosity, n - 1)
  }

  /**
   * The validation step's errors: `predict` indexes every dev batch's output
   * by "acceptability", and only that key is in its result.
   */
  function ValidationError(attrs: seq<string>, devBatches: nat): Option<Error>
  {
    if devBatches > 0 && "acceptability" !in attrs then Some(KeyError)
    else if exists a :: a in attrs && a != "acceptability" then Some(KeyError)
    else if attrs == [] then Some(AttributeError)
    else None
  }

  /**
   * Every check of `fit` depends only on its inputs, so an error, if any,
   * is raised in the first epoch.
   */
  function FirstEpochError(regressionType: string, lstmClass: bool, attrs: seq<string>, targets: map<string, nat>, numBatches: nat,
                           devBatches: nat, verbosity: int): Option<Error>
  {
    if "acceptability" !in targets then Some(KeyError)
    else
      var b := BatchesError(regressionType, lstmClass, attrs, targets, verbosity, numBatches);
      if b.Some? then b else ValidationError(attrs, devBatches)
  }

  lemma {:induction false} BatchesErrorNone(regressionType: string, lstmClass: bool, attrs: seq<string>, targets: map<string, nat>, verbosity: int, n: nat, i: nat)
    requires "acceptability" in targets && BatchesError(regressionType, lstmClass, attrs, targets, verbosity, n) == None && i < n
    ensures BatchError(regressionType, lstmClass, attrs, targets, verbosity, i) == None && BatchesError(regressionType, lstmClass, attrs, targets, verbosity, i) == None
  {
    if i < n - 1 {
      BatchesErrorNone(regressionType, lstmClass, attrs, targets, verbosity, n - 1, i);
    }
  }

  lemma {:induction false} BatchesErrorFirst(regressionType: string, lstmClass: bool, attrs: seq<string>, targets: map<string, nat>, verbosity: int, n: nat, i: nat)
    requires "acceptability" in targets && i < n
    requires BatchesError(regressionType, lstmClass, attrs, targets, verbosity, i) == None && BatchError(regressionType, lstmClass, attrs, targets, verbosity, i).Some?
    ensures BatchesError(regressionType, lstmClass, attrs, targets, verbosity, n) == BatchError(regressionType, lstmClass, attrs, targets, verbosity, i)
  {
    if i < n - 1 {
      BatchesErrorFirst(regressionType, lstmClass, attrs, targets, verbosity, n - 1, i);
    }
  }

  /** The outcome of a `fit` call that returns. */
  datatype FitOutcome = FitOutcome(epochsRun: nat, history: seq<real>, progress: Progress)

  /** What `fit` does, as a function of its inputs. */
  function FitSpec(regressionType: string, lstmClass: bool, epochs: int, attrs: seq<string>, numBatches: nat,
                   targets: map<string, nat>, devBatches: nat, verbosity: int,
                   devCorr: (nat, string) -> real): Result<FitOutcome>
  {
    if LossFunction(regressionType).Err? then Err(KeyError)
    else if FitFails(regressionType, lstmClass, epochs, attrs, numBatches, targets, devBatches, verbosity) then
      Err(FirstEpochError(regressionType, lstmClass, attrs, targets, numBatches, devBatches, verbosity).value)
    else if attrs == [] then Ok(FitOutcome(0, [], Progress([], [])))
    else Ok(Trained(epochs, attrs[|attrs| - 1], numBatches, verbosity, devCorr))
  }

  /** A `fit` that raises nothing, early-stopping on the correlation of `last`. */
  function Trained(epochs: int, last: string, numBatches: nat, verbosity: int,
                   devCorr: (nat, string) -> real): FitOutcome
  {
    var k := RunLength(devCorr, last, epochs);
    FitOutcome(k, HistoryOf(devCorr, last, k), AfterEpochs(k, numBatches, verbosity))
  }

  /**
   * The early-stopping history starts with 0.0 and gains one entry per
   * epoch run, the mean correlation of that epoch; training stops after
   * the first strict decrease and otherwise runs exactly `epochs` epochs.
   */
  lemma FitEarlyStopping(regressionType: string, lstmClass: bool, epochs: int, attrs: seq<string>, numBatches: nat,
                         targets: map<string, nat>, devBatches: nat, verbosity: int,
                         devCorr: (nat, string) -> real)
    requires attrs != []
    requires FitSpec(regressionType, lstmClass, epochs, attrs, numBatches, targets, devBatches, verbosity, devCorr).Ok?
    ensures var o := FitSpec(regressionType, lstmClass, epochs, attrs, numBatches, targets, devBatches, verbosity, devCorr).value;
            var h := o.history;
      && |h| == o.epochsRun + 1 && h[0] == 0.0
      && (forall e :: 1 <= e <= o.epochsRun ==> h[e] == devCorr(e, attrs[|attrs| - 1]))
      && (forall e :: 1 <= e < o.epochsRun ==> h[e] >= h[e - 1])
      && (epochs >= 1 ==> 1 <= o.epochsRun <= epochs)
      && (epochs <= 0 ==> o.epochsRun == 0)
      && (1 <= o.epochsRun < epochs ==> h[o.epochsRun] < h[o.epochsRun - 1])
  {
    var last := attrs[|attrs| - 1];
    var o := FitSpec(regressionType, lstmClass, epochs, attrs, numBatches, targets, devBatches, verbosity, devCorr).value;
    assert o.epochsRun == RunLength(devCorr, last, epochs) && o.history == HistoryOf(devCorr, last, o.epochsRun);
    RunLengthSpec(devCorr, last, epochs);
    forall e | 1 <= e < o.epochsRun
      ensures o.history[e] >= o.history[e - 1]
    {
      assert !DropAt(devCorr, last, e);
    }
    if 1 <= o.epochsRun < epochs {
      assert DropAt(devCorr, last, o.epochsRun);
    }
  }

  /**
   * A report, followed by a reset of the trace buffers, is made after batch
   * `i` of every epoch run exactly when `verbosity != 0` and
   * `(i + 1) % verbosity == 0`; the reported traces and the open trace hold
   * every batch trained, each once and in order.
   */
  lemma FitReportSchedule(regressionType: string, lstmClass: bool, epochs: int, attrs: seq<string>, numBatches: nat,
                          targets: map<string, nat>, devBatches: nat, verbosity: int,
                          devCorr: (nat, string) -> real)
    requires FitSpec(regressionType, lstmClass, epochs, attrs, numBatches, targets, devBatches, verbosity, devCorr).Ok?
    ensures var o := FitSpec(regressionType, lstmClass, epochs, attrs, numBatches, targets, devBatches, verbosity, devCorr).value;
      && (forall e: nat, i: nat :: BatchId(e, i) in ReportIds(o.progress.reports) <==>
            1 <= e <= o.epochsRun && i < numBatches && ReportsAt(verbosity, i))
      && Flatten(ReportTraces(o.progress.reports)) + o.progress.trace == AllBatches(o.epochsRun, numBatches)
      && EndsAtReports(o.progress.reports)
  {
    var o := FitSpec(regressionType, lstmClass, epochs, attrs, numBatches, targets, devBatches, verbosity, devCorr).value;
    AfterEpochsAccounting(o.epochsRun, numBatches, verbosity);
    forall e: nat, i: nat ensures BatchId(e, i) in ReportIds(o.progress.reports) <==>
            1 <= e <= o.epochsRun && i < numBatches && ReportsAt(verbosity, i)
    {
      ScheduledMembership(AllBatches(o.epochsRun, numBatches), verbosity, BatchId(e, i));
      AllBatchesMembership(o.epochsRun, numBatches, BatchId(e, i));
    }
  }

  /** With `verbosity == 0` nothing is reported and the trace buffers are never reset. */
  lemma FitSilentNeverResets(regressionType: string, lstmClass: bool, epochs: int, attrs: seq<string>, numBatches: nat,
                             targets: map<string, nat>, devBatches: nat, devCorr: (nat, string) -> real)
    requires FitSpec(regressionType, lstmClass, epochs, attrs, numBatches, targets, devBatches, 0, devCorr).Ok?
    ensures var o := FitSpec(regressionType, lstmClass, epochs, attrs, numBatches, targets, devBatches, 0, devCorr).value;
            o.progress.reports == [] && o.progress.trace == AllBatches(o.epochsRun, numBatches)
  {
    var o := FitSpec(regressionType, lstmClass, epochs, attrs, numBatches, targets, devBatches, 0, devCorr).value;
    AfterEpochsAccounting(o.epochsRun, numBatches, 0);
    if o.progress.reports != [] {
      var b := ReportIds(o.progress.reports)[0];
      ScheduledMembership(AllBatches(o.epochsRun, numBatches), 0, b);
      assert false;
    }
    assert ReportTraces([]) == [];
  }

  /**
   * Because `predict` only ever fills "acceptability", a fit whose
   * attributes include any other name fails in its first epoch.
   */
  lemma FitNeedsOnlyAcceptability(regressionType: string, lstmClass: bool, epochs: int, attrs: seq<string>, numBatches: nat,
                                  targets: map<string, nat>, devBatches: nat, verbosity: int,
                                  devCorr: (nat, string) -> real, a: string)
    requires epochs >= 1 && a in attrs && a != "acceptability"
    ensures FitSpec(regressionType, lstmClass, epochs, attrs, numBatches, targets, devBatches, verbosity, devCorr).Err?
  {
  }

  /** Once a batch has raised, the error of the whole batch loop is that one. */
  lemma {:induction false} BatchesErrorStays(regressionType: string, lstmClass: bool, attrs: seq<string>, targets: map<string, nat>,
                                             verbosity: int, i: nat, n: nat)
    requires "acceptability" in targets && i <= n
    requires BatchesError(regressionType, lstmClass, attrs, targets, verbosity, i).Some?
    ensures BatchesError(regressionType, lstmClass, attrs, targets, verbosity, n) == BatchesError(regressionType, lstmClass, attrs, targets, verbosity, i)
  {
    if i < n {
      BatchesErrorStays(regressionType, lstmClass, attrs, targets, verbosity, i, n - 1);
    }
  }

  /**
   * With either robust loss `_print_metric` raises at its first report, so a
   * fit of at least one epoch in which any report is due fails; with the
   * default verbosity 1 that is every such fit with a batch.
   */
  lemma RobustFitsFailAtReport(regressionType: string, lstmClass: bool, epochs: int, attrs: seq<string>, numBatches: nat,
                               targets: map<string, nat>, devBatches: nat, verbosity: int,
                               devCorr: (nat, string) -> real, i: nat)
    requires regressionType == "robust" || regressionType == "robust_smooth"
    requires epochs >= 1 && i < numBatches && ReportsAt(verbosity, i)
    ensures FitSpec(regressionType, lstmClass, epochs, attrs, numBatches, targets, devBatches, verbosity, devCorr).Err?
  {
    if "acceptability" in targets {
      if BatchesError(regressionType, lstmClass, attrs, targets, verbosity, i).Some? {
        BatchesErrorStays(regressionType, lstmClass, attrs, targets, verbosity, i, numBatches);
      } else {
        BatchesErrorFirst(regressionType, lstmClass, attrs, targets, verbosity, numBatches, i);
      }
    }
  }

  /**
   * When `rnn_classes` is not the class `LSTM`, every fit of at least one
   * epoch with a batch raises AttributeError on that first batch, unless the
   * loss lookup or `len(self._Y['acceptability'])` raises KeyError first.
   */
  lemma NonLSTMFitsFail(regressionType: string, epochs: int, attrs: seq<string>, numBatches: nat,
                        targets: map<string, nat>, devBatches: nat, verbosity: int,
                        devCorr: (nat, string) -> real)
    requires epochs >= 1 && numBatches > 0
    ensures FitSpec(regressionType, false, epochs, attrs, numBatches, targets, devBatches, verbosity, devCorr)
            == Err(if LossFunction(regressionType).Err? || "acceptability" !in targets then KeyError else AttributeError)
  {
    if "acceptability" in targets {
      BatchesErrorFirst(regressionType, false, attrs, targets, verbosity, numBatches, 0);
    }
  }

  /**
   * Mean correlations 0.5, 0.7, 0.6 stop a ten-epoch fit after exactly
   * three epochs.
   */
  lemma EarlyStopExample()
    ensures var devCorr := (e: nat, a: string) => if e == 1 then 0.5 else if e == 2 then 0.7 else 0.6;
            RunLength(devCorr, "acceptability", 10) == 3
            && HistoryOf(devCorr, "acceptability", 3) == [0.0, 0.5, 0.7, 0.6]
  {
    var devCorr := (e: nat, a: string) => if e == 1 then 0.5 else if e == 2 then 0.7 else 0.6;
    assert !DropAt(devCorr, "acceptability", 1);
    assert !DropAt(devCorr, "acceptability", 2);
    assert DropAt(devCorr, "acceptability", 3);
    RunLengthAtFirstDrop(devCorr, "acceptability", 10, 3);
  }

  /** The loop `for attr in self.attributes: ... self._Y[attr][i]` of one batch. */
  method CheckTargets(attrs: seq<string>, targets: map<string, nat>, i: nat) returns (e: Option<Error>)
    ensures e == TargetError(attrs, targets, i)
    ensures e.Some? ==> e.value in {KeyError, IndexError}
  {
    var k := 0;
    while k < |attrs|
      invariant 0 <= k <= |attrs|
      invariant TargetError(attrs, targets, i) == TargetError(attrs[k..], targets, i)
    {
      var attr := attrs[k];
      if attr !in targets {
        return Some(KeyError);
      }
      if i >= targets[attr] {
        return Some(IndexError);
      }
      assert attrs[k..][1..] == attrs[k + 1..];
      k := k + 1;
    }
    return None;
  }

  /**
   * The batch loop of one epoch of `fit`, from the buffers `p` left by the
   * epochs before it.
   */
  method TrainBatches(regressionType: string, lstmClass: bool, attrs: seq<string>, targets: map<string, nat>, numBatches: nat, verbosity: int,
                      epoch: nat, p: Progress) returns (r: Result<Progress>)
    requires "acceptability" in targets
    ensures r.Err? <==> BatchesError(regressionType, lstmClass, attrs, targets, verbosity, numBatches).Some?
    ensures r.Err? ==> r.error == BatchesError(regressionType, lstmClass, attrs, targets, verbosity, numBatches).value
    ensures r.Ok? ==> r.value == AfterBatches(p, epoch, numBatches, verbosity)
  {
    var total := targets["acceptability"];
    var trace, reports := p.trace, p.reports;
    var i := 0;
    while i < numBatches
      invariant 0 <= i <= numBatches
      invariant BatchesError(regressionType, lstmClass, attrs, targets, verbosity, i) == None
      invariant Progress(trace, reports) == AfterBatches(p, epoch, i, verbosity)
    {
      if BatchError(regressionType, lstmClass, attrs, targets, verbosity, i).Some? {
        BatchesErrorFirst(regressionType, lstmClass, attrs, targets, verbosity, numBatches, i);
      }
      if !lstmClass {
        return Err(AttributeError);
      }
      var missing := CheckTargets(attrs, targets, i);
      if missing.Some? {
        return Err(missing.value);
      }
      if attrs == [] {
        return Err(ZeroDivisionError);
      }
      trace := trace + [BatchId(epoch, i)];
      if verbosity != 0 && (i + 1) % verbosity == 0 {
        var failed := ReportError(regressionType, attrs, total);
        if failed.Some? {
          return Err(failed.value);
        }
        reports := reports + [Report(epoch, i, trace)];
        trace := [];
      }
      i := i + 1;
    }
    return Ok(Progress(trace, reports));
  }

  /**
   * The validation step at the end of epoch `epoch`: `predict` on the dev
   * batches, then the mean correlation that early stopping compares.
   */
  method Validate(attrs: seq<string>, devBatches: nat, epoch: nat, devCorr: (nat, string) -> real)
    returns (r: Result<real>)
    ensures r.Err? <==> ValidationError(attrs, devBatches).Some?
    ensures r.Err? ==> r.error == ValidationError(attrs, devBatches).value
    ensures r.Ok? ==> attrs != [] && r.value == devCorr(epoch, attrs[|attrs| - 1])
  {
    if devBatches > 0 && "acceptability" !in attrs {
      return Err(KeyError);
    }
    r := ValidationMean(attrs, {"acceptability"}, c => devCorr(epoch, c));
  }

  /** What one epoch that raises nothing leaves: the trace buffers and the mean correlation. */
  datatype EpochResult = EpochResult(progress: Progress, meanCorr: real)

  /**
   * One pass of the epoch loop of `fit`: `len(self._Y['acceptability'])`,
   * the batch loop, then validation.
   */
  method TrainEpoch(regressionType: string, lstmClass: bool, attrs: seq<string>, targets: map<string, nat>, numBatches: nat, devBatches: nat,
                    verbosity: int, epoch: nat, p: Progress, devCorr: (nat, string) -> real)
    returns (r: Result<EpochResult>)
    ensures r.Err? <==> FirstEpochError(regressionType, lstmClass, attrs, targets, numBatches, devBatches, verbosity).Some?
    ensures r.Err? ==> r.error == FirstEpochError(regressionType, lstmClass, attrs, targets, numBatches, devBatches, verbosity).value
    ensures r.Ok? ==> attrs != [] && r.value.progress == AfterBatches(p, epoch, numBatches, verbosity)
                      && r.value.meanCorr == devCorr(epoch, attrs[|attrs| - 1])
  {
    if "acceptability" !in targets {
      return Err(KeyError);
    }
    var progress := TrainBatches(regressionType, lstmClass, attrs, targets, numBatches, verbosity, epoch, p);
    if progress.Err? {
      return Err(progress.error);
    }
    var mean := Validate(attrs, devBatches, epoch, devCorr);
    if mean.Err? {
      return Err(mean.error);
    }
    return Ok(EpochResult(progress.value, mean.value));
  }

  /** Whether `fit` raises once it has a loss function. */
  predicate FitFails(regressionType: string, lstmClass: bool, epochs: int, attrs: seq<string>, numBatches: nat, targets: map<string, nat>,
                     devBatches: nat, verbosity: int)
  {
    epochs >= 1 && FirstEpochError(regressionType, lstmClass, attrs, targets, numBatches, devBatches, verbosity).Some?
  }

  /** The epoch loop of `fit`, given the trainer's `epochs` and attributes. */
  method TrainEpochs(regressionType: string, lstmClass: bool, epochs: int, attrs: seq<string>, numBatches: nat, targets: map<string, nat>,
                     devBatches: nat, verbosity: int, devCorr: (nat, string) -> real)
    returns (r: Result<FitOutcome>)
    ensures FitFails(regressionType, lstmClass, epochs, attrs, numBatches, targets, devBatches, verbosity) ==>
              r == Err(FirstEpochError(regressionType, lstmClass, attrs, targets, numBatches, devBatches, verbosity).value)
    ensures !FitFails(regressionType, lstmClass, epochs, attrs, numBatches, targets, devBatches, verbosity) && attrs == [] ==>
              r == Ok(FitOutcome(0, [], Progress([], [])))
    ensures !FitFails(regressionType, lstmClass, epochs, attrs, numBatches, targets, devBatches, verbosity) && attrs != [] ==>
              r == Ok(Trained(epochs, attrs[|attrs| - 1], numBatches, verbosity, devCorr))
  {
    ghost var last := if attrs == [] then "" else attrs[|attrs| - 1];
    var trace: seq<BatchId> := [];
    var reports: seq<Report> := [];
    var earlyStop: seq<real> := if attrs == [] then [] else [0.0];
    var epoch: nat := 0;
    ghost var stopped := false;
    while epoch < epochs
      invariant !stopped
      invariant epoch == 0 || epoch <= epochs
      invariant epoch >= 1 ==> FirstEpochError(regressionType, lstmClass, attrs, targets, numBatches, devBatches, verbosity) == None
      invariant epoch >= 1 ==> attrs != []
      invariant attrs == [] ==> earlyStop == [] && epoch == 0
      invariant attrs != [] ==> earlyStop == HistoryOf(devCorr, last, epoch)
      invariant attrs != [] ==> forall d :: 1 <= d <= epoch ==> !DropAt(devCorr, last, d)
      invariant Progress(trace, reports) == AfterEpochs(epoch, numBatches, verbosity)
    {
      epoch := epoch + 1;
      var step := TrainEpoch(regressionType, lstmClass, attrs, targets, numBatches, devBatches, verbosity, epoch,
                             Progress(trace, reports), devCorr);
      if step.Err? {
        return Err(step.error);
      }
      trace, reports := step.value.progress.trace, step.value.progress.reports;
      HistoryStep(devCorr, last, epoch - 1);
      earlyStop := earlyStop + [step.value.meanCorr];
      assert earlyStop == HistoryOf(devCorr, last, epoch);
      assert Progress(trace, reports) == AfterEpochs(epoch, numBatches, verbosity);
      assert earlyStop[|earlyStop| - 1] == HistoryAt(devCorr, last, epoch);
      assert earlyStop[|earlyStop| - 2] == HistoryAt(devCorr, last, epoch - 1);
      if earlyStop[|earlyStop| - 1] - earlyStop[|earlyStop| - 2] < 0.0 {
        RunLengthAtFirstDrop(devCorr, last, epochs, epoch);
        stopped := true;
        break;
      }
      assert !DropAt(devCorr, last, epoch);
    }
    if attrs == [] {
      return Ok(FitOutcome(0, [], Progress([], [])));
    }
    if !stopped {
      RunLengthWithoutDrop(devCorr, last, epochs);
    }
    assert RunLength(devCorr, last, epochs) == epoch;
    r := Ok(FitOutcome(epoch, earlyStop, Progress(trace, reports)));
  }

  /**
   * What `.tolist()` gives for one batch's squeezed output: a bare number
   * for a zero-dimensional tensor (a batch of one example with one output),
   * a list otherwise.
   */
  datatype BatchOutput<P> = Number(x: P) | Values(items: seq<P>)

  /** A batch output `predict` can append: it has the key and is a list. */
  predicate Listed<P>(out: map<string, BatchOutput<P>>)
  {
    "acceptability" in out && out["acceptability"].Values?
  }

  class RNNRegressionTrainer {
    var regressionType: string
    /** Whether `rnn_classes` is the class `LSTM` itself, the test at line 506. */
    var lstmClass: bool
    var epochs: int
    var attributes: seq<string>
    var continuous: bool

    constructor (regressionType: string, lstmClass: bool, epochs: int, attributes: seq<string>)
      ensures this.regressionType == regressionType && this.lstmClass == lstmClass && this.epochs == epochs && this.attributes == attributes
      ensures continuous == Continuous(regressionType)
    {
      this.regressionType := regressionType;
      this.lstmClass := lstmClass;
      this.epochs := epochs;
      this.attributes := attributes;
      this.continuous := regressionType != "multinomial";
    }

    /**
     * The control flow of `fit`: `numBatches` training batches, `targets`
     * giving the number of target batches `self._Y` holds per key,
     * `devBatches` validation batches and `devCorr(e, attr)` the validation
     * correlation of `attr` after epoch `e`.
     */
    method Fit(numBatches: nat, targets: map<string, nat>, devBatches: nat, verbosity: int,
               devCorr: (nat, string) -> real) returns (r: Result<FitOutcome>)
      ensures r == FitSpec(regressionType, lstmClass, epochs, attributes, numBatches, targets, devBatches, verbosity, devCorr)
    {
      var loss := LossFunction(regressionType);
      if loss.Err? {
        return Err(loss.error);
      }
      r := TrainEpochs(regressionType, lstmClass, epochs, attributes, numBatches, targets, devBatches, verbosity, devCorr);
    }

    /**
     * `predict`: the "acceptability" output of each of the first
     * `min(|outputs|, numLengths)` validation batches (what `zip` pairs up),
     * concatenated in order. A batch whose output lacks the key is a
     * KeyError; one whose output `.tolist()` turns into a bare number makes
     * the list `+=` a TypeError.
     */
    method Predict<P>(outputs: seq<map<string, BatchOutput<P>>>, numLengths: nat)
      returns (r: Result<map<string, seq<P>>>)
      ensures var m := if |outputs| < numLengths then |outputs| else numLengths;
        && (r.Ok? <==> forall b :: 0 <= b < m ==> Listed(outputs[b]))
        && (r.Err? ==> exists b :: 0 <= b < m && (forall c :: 0 <= c < b ==> Listed(outputs[c]))
                                  && !Listed(outputs[b])
                                  && r.error == (if "acceptability" in outputs[b] then TypeError else KeyError))
        && (r.Ok? ==> r.value.Keys == {"acceptability"}
                      && r.value["acceptability"]
                         == Flatten(seq(m, b requires 0 <= b < m && Listed(outputs[b]) =>
                                                outputs[b]["acceptability"].items)))
    {
      var m := if |outputs| < numLengths then |outputs| else numLengths;
      var acc: seq<P> := [];
      ghost var parts: seq<seq<P>> := [];
      var b := 0;
      while b < m
        invariant 0 <= b <= m
        invariant forall c :: 0 <= c < b ==> Listed(outputs[c])
        invariant |parts| == b && forall c :: 0 <= c < b ==> parts[c] == outputs[c]["acceptability"].items
        invariant acc == Flatten(parts)
      {
        if "acceptability" !in outputs[b] {
          return Err(KeyError);
        }
        var out := outputs[b]["acceptability"];
        if out.Number? {
          return Err(TypeError);
        }
        acc := acc + out.items;
        assert (parts + [out.items])[..b] == parts;
        parts := parts + [out.items];
        b := b + 1;
      }
      assert parts == seq(m, c requires 0 <= c < m && Listed(outputs[c]) => outputs[c]["acceptability"].items);
      r := Ok(map["acceptability" := acc]);
    }
  }
}
