/**
 * The batch/epoch logging state machine of the Keras callback `WandbMetricsLogger`.
 *
 * The callback keeps a mode (batch-wise with a frequency, or epoch-wise) and two
 * counters, `global_step` and `global_batch`. Each record it would hand to
 * `wandb.log` is returned here as a map from prefixed key to entry.
 */
module MetricsLogger {
  import opened Wrappers

  /** The `log_freq` argument: a string ("epoch", "batch", ...) or an int. */
  datatype LogFreqArg = Named(name: string) | Every(n: int)

  /** A value in a log record: a metric as Keras passed it, a step counter or a learning rate. */
  datatype Entry<V> = Metric(value: V) | Step(n: int) | LearningRate(lr: real)

  /** What one `on_batch_end` call does with the backend. */
  datatype BatchOutcome<V> =
    | Logged(record: map<string, Entry<V>>)  // `wandb.log(record)` was called
    | Skipped                                // no record this batch
    | ZeroDivision                           // `batch % 0` raised ZeroDivisionError

  const BatchScope := "batch/"
  const EpochScope := "epoch/"

  /**
   * The constructor's reading of `log_freq`: `Some(f)` is batch-wise logging every
   * `f` batches, `None` is epoch-wise logging (`log_freq` stored as None).
   */
  function ResolveLogFreq(arg: LogFreqArg): (freq: Option<int>)
    ensures arg == Named("batch") ==> freq == Some(1)
    ensures arg.Every? ==> freq == Some(arg.n)
    ensures arg.Named? && arg.name != "batch" ==> freq == None
  {
    match arg
    case Named(name) => if name == "batch" then Some(1) else None
    case Every(n) => Some(n)
  }

  lemma {:induction false} PrefixInjective(prefix: string, a: string, b: string)
    requires prefix + a == prefix + b
    ensures a == b
  {
    assert a == (prefix + a)[|prefix|..];
    assert b == (prefix + b)[|prefix|..];
  }

  /** The names `prefix + k` of the metrics `k`. */
  function PrefixedKeys<V>(prefix: string, logs: map<string, V>): (keys: set<string>)
  {
    set k | k in logs :: prefix + k
  }

  /**
   * The metrics of a record, each key `k` renamed to `prefix + k`: a prefixed name
   * maps to the metric named by what follows the prefix.
   */
  function Prefixed<V>(prefix: string, logs: map<string, V>): (r: map<string, Entry<V>>)
  {
    map key | key in PrefixedKeys(prefix, logs) && |prefix| <= |key| && key[|prefix|..] in logs
      :: Metric(logs[key[|prefix|..]])
  }

  /** Every metric appears under its prefixed name, and nothing else does. */
  lemma PrefixedContents<V>(prefix: string, logs: map<string, V>)
    ensures Prefixed(prefix, logs).Keys == PrefixedKeys(prefix, logs)
    ensures forall k :: k in logs ==> Prefixed(prefix, logs)[prefix + k] == Metric(logs[k])
  {
    var r := Prefixed(prefix, logs);
    forall k | k in logs
      ensures prefix + k in r && r[prefix + k] == Metric(logs[k])
    {
      assert (prefix + k)[..|prefix|] == prefix && (prefix + k)[|prefix|..] == k;
    }
  }

  /**
   * The record logged at the end of an epoch or a batch: the prefixed metrics, then
   * the step key written over them, then the learning rate when one was obtained.
   */
  function LogRecord<V>(scope: string, logs: map<string, V>, stepName: string, step: int, lr: Option<real>)
    : (record: map<string, Entry<V>>)
  {
    var withStep := Prefixed(scope, logs)[scope + stepName := Step(step)];
    if lr.Some? then withStep[scope + "learning_rate" := LearningRate(lr.value)] else withStep
  }

  /**
   * What a record holds: a key per metric, the step key and the learning-rate key;
   * every metric under its prefixed name unless the step or the learning rate
   * overwrote it.
   */
  lemma LogRecordContents<V>(scope: string, logs: map<string, V>, stepName: string, step: int, lr: Option<real>)
    requires stepName != "learning_rate"
    ensures var r := LogRecord(scope, logs, stepName, step, lr);
            && r.Keys == (set k | k in logs :: scope + k) + {scope + stepName}
                         + (if lr.Some? then {scope + "learning_rate"} else {})
            && r[scope + stepName] == Step(step)
            && (lr.Some? ==> r[scope + "learning_rate"] == LearningRate(lr.value))
            && forall k :: k in logs && k != stepName && !(lr.Some? && k == "learning_rate") ==>
                 r[scope + k] == Metric(logs[k])
  {
    var r := LogRecord(scope, logs, stepName, step, lr);
    PrefixedContents(scope, logs);
    forall k | k in logs && k != stepName && !(lr.Some? && k == "learning_rate")
      ensures r[scope + k] == Metric(logs[k])
    {
      if scope + k == scope + stepName { PrefixInjective(scope, k, stepName); }
      if lr.Some? && scope + k == scope + "learning_rate" { PrefixInjective(scope, k, "learning_rate"); }
    }
    if lr.Some? && scope + stepName == scope + "learning_rate" {
      PrefixInjective(scope, stepName, "learning_rate");
    }
  }

  /** `logs if logs else {}`: a missing and an empty dict both give no metrics. */
  function MetricsOf<V>(logs: Option<map<string, V>>): (metrics: map<string, V>)
  {
    if logs.Some? then logs.value else map[]
  }

  function Abs(x: int): (a: nat) { if x < 0 then -x else x }

  /** `f` added up `n` times: what `global_batch` reaches after `n` records. */
  function Times(f: int, n: nat): (t: int)
  {
    if n == 0 then 0 else Times(f, n - 1) + f
  }

  lemma {:induction false} TimesIsProduct(f: int, n: nat)
    ensures Times(f, n) == f * n
  {
    if n > 0 {
      TimesIsProduct(f, n - 1);
      assert f * n == f * (n - 1) + f;
    }
  }

  /** A nonzero multiple of `f` is at least as large as `f` in magnitude. */
  lemma {:induction false} MultipleAtLeast(f: int, k: int)
    requires f != 0 && k != 0
    ensures Abs(f * k) >= Abs(f)
    decreases Abs(k)
  {
    if k > 1 {
      MultipleAtLeast(f, k - 1);
      assert f * k == f * (k - 1) + f;
    } else if k < -1 {
      MultipleAtLeast(f, k + 1);
      assert f * k == f * (k + 1) - f;
    }
  }

  /** `(f * n) % f == 0`: a counter advanced only in steps of `f` stays a multiple of `f`. */
  lemma MultipleOfFreq(f: int, n: int)
    requires f != 0
    ensures (f * n) % f == 0
  {
    var q, r := (f * n) / f, (f * n) % f;
    assert f * (n - q) == r by {
      assert f * n == f * q + r;
      assert f * (n - q) == f * n - f * q;
    }
    if n - q != 0 {
      MultipleAtLeast(f, n - q);
    }
  }

  class WandbMetricsLogger<V> {
    var loggingBatchWise: bool
    var logFreq: Option<int>
    var globalBatch: int
    var globalStep: int
    /** The number of batch records emitted so far. */
    ghost var batchRecords: nat

    /**
     * The object invariant: the mode agrees with the stored frequency, and
     * `global_batch` is the frequency added once per batch record emitted.
     */
    ghost predicate Valid()
      reads this
    {
      && loggingBatchWise == logFreq.Some?
      && (loggingBatchWise ==> globalBatch == Times(logFreq.value, batchRecords))
      && (!loggingBatchWise ==> globalBatch == 0 && batchRecords == 0)
    }

    /** Whether `on_batch_end(batch, ...)` emits a record (when the modulo does not raise). */
    predicate EmitsAt(batch: int)
      reads this
    {
      loggingBatchWise && logFreq.Some? && logFreq.value != 0 && batch % logFreq.value == 0
    }

    /** `runActive` stands for `wandb.run is not None`; the callback refuses to exist without a run. */
    constructor (runActive: bool, logFreqArg: LogFreqArg, initialGlobalStep: int)
      requires runActive
      ensures Valid()
      ensures logFreq == ResolveLogFreq(logFreqArg)
      ensures loggingBatchWise <==> logFreqArg.Every? || logFreqArg == Named("batch")
      ensures globalBatch == 0 && globalStep == initialGlobalStep && batchRecords == 0
    {
      var freq := ResolveLogFreq(logFreqArg);
      var batchWise := freq.Some?;
      loggingBatchWise := batchWise;
      logFreq := if batchWise then freq else None;
      globalBatch := 0;
      globalStep := initialGlobalStep;
      batchRecords := 0;
    }

    /**
     * `on_epoch_end`: the record handed to `wandb.log`. With no `logs` it holds only the
     * epoch number and, when one was obtained, the learning rate.
     */
    method OnEpochEnd(epoch: int, logs: Option<map<string, V>>, lr: Option<real>)
      returns (record: map<string, Entry<V>>)
      ensures record == LogRecord(EpochScope, MetricsOf(logs), "epoch", epoch, lr)
      ensures record[EpochScope + "epoch"] == Step(epoch)
      ensures logs.None? ==>
                record.Keys == {EpochScope + "epoch"} + (if lr.Some? then {EpochScope + "learning_rate"} else {})
    {
      record := LogRecord(EpochScope, MetricsOf(logs), "epoch", epoch, lr);
      LogRecordContents(EpochScope, MetricsOf(logs), "epoch", epoch, lr);
    }

    /**
     * `on_batch_end`: the step always advances by one; a record is emitted only in
     * batch-wise mode when `batch` is a multiple of the frequency, and then
     * `global_batch` advances by the frequency after being logged as the batch step.
     */
    method OnBatchEnd(batch: int, logs: Option<map<string, V>>, lr: Option<real>)
      returns (outcome: BatchOutcome<V>)
      requires Valid()
      modifies this
      ensures Valid()
      ensures globalStep == old(globalStep) + 1
      ensures loggingBatchWise == old(loggingBatchWise) && logFreq == old(logFreq)
      ensures outcome.ZeroDivision? <==> loggingBatchWise && logFreq == Some(0)
      ensures outcome.Logged? <==> old(EmitsAt(batch))
      ensures outcome.Logged? ==>
                && outcome.record == LogRecord(BatchScope, MetricsOf(logs), "batch_step", old(globalBatch), lr)
                && globalBatch == old(globalBatch) + logFreq.value
                && batchRecords == old(batchRecords) + 1
      ensures !outcome.Logged? ==> globalBatch == old(globalBatch) && batchRecords == old(batchRecords)
    {
      globalStep := globalStep + 1;
      if !loggingBatchWise {
        outcome := Skipped;
      } else if logFreq.value == 0 {
        outcome := ZeroDivision;
      } else if batch % logFreq.value == 0 {
        var freq := logFreq.value;
        outcome := Logged(LogRecord(BatchScope, MetricsOf(logs), "batch_step", globalBatch, lr));
        globalBatch := globalBatch + freq;
        batchRecords := batchRecords + 1;
      } else {
        outcome := Skipped;
      }
    }

    /** `on_train_batch_end`: `on_batch_end` with a missing `logs` replaced by an empty dict. */
    method OnTrainBatchEnd(batch: int, logs: Option<map<string, V>>, lr: Option<real>)
      returns (outcome: BatchOutcome<V>)
      requires Valid()
      modifies this
      ensures Valid()
      ensures globalStep == old(globalStep) + 1
      ensures loggingBatchWise == old(loggingBatchWise) && logFreq == old(logFreq)
      ensures outcome.ZeroDivision? <==> loggingBatchWise && logFreq == Some(0)
      ensures outcome.Logged? <==> old(EmitsAt(batch))
      ensures outcome.Logged? ==>
                && outcome.record == LogRecord(BatchScope, MetricsOf(logs), "batch_step", old(globalBatch), lr)
                && globalBatch == old(globalBatch) + logFreq.value
                && batchRecords == old(batchRecords) + 1
      ensures !outcome.Logged? ==> globalBatch == old(globalBatch) && batchRecords == old(batchRecords)
    {
      var passed := if logs.Some? && |logs.value| > 0 then logs.value else map[];
      outcome := OnBatchEnd(batch, Some(passed), lr);
    }
  }

  /** In batch-wise mode with a nonzero frequency, `global_batch` is always a multiple of it. */
  lemma GlobalBatchIsMultiple<V>(logger: WandbMetricsLogger<V>)
    requires logger.Valid()
    requires logger.loggingBatchWise && logger.logFreq.value != 0
    ensures logger.globalBatch % logger.logFreq.value == 0
  {
    TimesIsProduct(logger.logFreq.value, logger.batchRecords);
    MultipleOfFreq(logger.logFreq.value, logger.batchRecords);
  }
}
