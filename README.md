# wandb-addons: metrics logger and bounding-box helpers in Dafny

This project models two pieces of the `wandb_addons` package:

- **The batch/epoch logging state machine of the Keras callback `WandbMetricsLogger`.**
  - The constructor turns `log_freq` into a mode. `"batch"` means every batch, an int means every `log_freq` batches, and any other string means once per epoch.
  - The callback keeps the counters `global_step` and `global_batch`.
  - `on_batch_end` decides with a modulo rule whether to log a record.
  - Each record prefixes the Keras metric names with `batch/` or `epoch/` and adds a step key and, when one is available, the learning rate.
  - The record that would go to `wandb.log` is returned by the model instead.
- **The annotation helpers of the Ultralytics integration.**
  - Grouping predictions by `image_id`.
  - The per-label mean confidence.
  - The ground-truth box records of one image of a training batch.
  - The box records of a prediction overlay.

Files:

- `wrappers.dfy`: the `Option` type, which stands for Python's `None`.
- `metrics_logger.dfy`: module `MetricsLogger`. The callback is a class whose fields the methods update in place. A ghost field counts the batch records emitted so far. The object invariant `Valid()` ties `global_batch` to that count.
- `bbox_utils.dfy`: module `BboxUtils`. The loops of the source are methods proved against ghost specification functions:
  - `ImageIds` and `WithImageId` for the grouping;
  - `ConfidencesOf` and `Mean` for the confidences;
  - `DescribesBox` for the ground-truth records.

  The vectorised mask `batch_idx == img_idx` is the function `MatchingIndices`, which the methods call; it selects the matching positions. Lemmas about these functions carry the remaining properties.

Python semantics are written out where they matter:

- `int()` on a float truncates toward zero (`TruncToInt`).
- `zip` stops at the shorter list (`Paired`).
- `logs if logs else {}` treats a missing and an empty dict alike (`MetricsOf`).
- A failing modulo or lookup is an outcome of the operation, not a precondition, except where "## Left out" lists a precondition. The outcomes are `ZeroDivision`, `None` from `GetMeanConfidenceMap`, `MissingClass` and `NoImageShape`.
- The zero test of Python's floored `%` agrees with Dafny's Euclidean `%`, so negative frequencies are modelled as written.

## Model

| member | source | states |
|---|---|---|
| MetricsLogger.ResolveLogFreq | wandb_addons/keras/metrics_logger.py:86-90 | `"batch"` resolves to frequency 1; an int `n` to frequency `n` (batch-wise); any other string to `None` (epoch-wise) |
| MetricsLogger.WandbMetricsLogger.constructor | wandb_addons/keras/metrics_logger.py:78-92 | needs an active run; the mode is batch-wise exactly for an int or `"batch"`; the stored frequency is the resolved one; `global_batch` is 0, `global_step` is `initial_global_step`; the invariant holds |
| MetricsLogger.PrefixedContents | wandb_addons/keras/metrics_logger.py:131 | the prefixed metrics have exactly the keys `prefix + k` for the metric names `k`, each holding the metric's value |
| MetricsLogger.LogRecordContents | wandb_addons/keras/metrics_logger.py:131-149 | a record's keys are the prefixed metric names, the step key and the learning-rate key exactly when a rate was obtained; the step key holds the step, the rate key the rate; every other metric keeps its value under its prefixed name |
| MetricsLogger.WandbMetricsLogger.OnEpochEnd | wandb_addons/keras/metrics_logger.py:130-139 | the logged record is the `epoch/` record of the metrics with `epoch/epoch` set to the epoch; with no `logs` its only keys are `epoch/epoch` and, if a rate was obtained, `epoch/learning_rate` |
| MetricsLogger.WandbMetricsLogger.OnBatchEnd | wandb_addons/keras/metrics_logger.py:141-153 | `global_step` always grows by 1; the mode and frequency never change; a zero frequency in batch mode raises the division error; a record is logged iff batch-wise with `batch % log_freq == 0`, and then it is the `batch/` record with `batch/batch_step` equal to the old `global_batch`, and `global_batch` grows by the frequency; otherwise `global_batch` is unchanged; the invariant `global_batch == log_freq * records` is kept |
| MetricsLogger.WandbMetricsLogger.OnTrainBatchEnd | wandb_addons/keras/metrics_logger.py:155-158 | the same outcome and new state as `on_batch_end`, with a missing or empty `logs` giving a record without metrics |
| MetricsLogger.GlobalBatchIsMultiple | wandb_addons/keras/metrics_logger.py:145-153 | in batch mode with a nonzero frequency, `global_batch` is always a multiple of the frequency |
| BboxUtils.CreatePredictionMetadataMap | wandb_addons/ultralytics/bbox_utils.py:79-88 | the keys are exactly the image ids of the input, and each key holds exactly the predictions with that id, in input order; the order in which keys enter the dict is the first-occurrence order of the ids (`FirstSeenIds`), and it lists exactly the keys |
| BboxUtils.GroupedOfSnoc | wandb_addons/ultralytics/bbox_utils.py:84-86 | one more prediction changes the grouping only at its own id: a new id starts from an empty group (`setdefault`), and the prediction is appended to that id's group |
| BboxUtils.AbsentIdHasNoPredictions | wandb_addons/ultralytics/bbox_utils.py:84-85 | an id that no prediction carries has an empty group, which is what `setdefault` starts a new key with |
| BboxUtils.GroupKeepsEachPrediction | wandb_addons/ultralytics/bbox_utils.py:84-86 | each prediction occurs in its own id's group as often as in the input, and in no other group |
| BboxUtils.FirstSeenIdsAreDistinct | wandb_addons/ultralytics/bbox_utils.py:84-85 | the key order of the dict built by `create_prediction_metadata_map` (its ghost `keyOrder`) lists every image id of the input exactly once and nothing else |
| BboxUtils.FirstSeenIdsInFirstOccurrenceOrder | wandb_addons/ultralytics/bbox_utils.py:84-85 | the key order is the order of first occurrence: if one key comes before another, every prediction carrying the later key is preceded in the input by a prediction carrying the earlier one |
| BboxUtils.GroupSizesSumToInput | wandb_addons/ultralytics/bbox_utils.py:84-88 | the group sizes, summed over the keys, equal the number of predictions: nothing is lost or duplicated |
| BboxUtils.Paired | wandb_addons/ultralytics/bbox_utils.py:95 | `zip` pairs as many entries as the shorter list has |
| BboxUtils.GetMeanConfidenceMap | wandb_addons/ultralytics/bbox_utils.py:91-102 | fails (KeyError) iff some paired class has no label; otherwise its keys are exactly the labels, each mapped to the mean of the paired confidences whose class carries that label |
| BboxUtils.MeansOf | wandb_addons/ultralytics/bbox_utils.py:97-101 | every list is replaced by its mean, an empty list by 0, with the same keys |
| BboxUtils.UnpairedLabelIsZero | wandb_addons/ultralytics/bbox_utils.py:94-101 | a label that no paired class carries collects no confidence and gets the mean 0 |
| BboxUtils.MeanConfidenceInUnitInterval | wandb_addons/ultralytics/bbox_utils.py:97-101 | confidences between 0 and 1 give every label a mean between 0 and 1 |
| BboxUtils.TruncToInt | wandb_addons/ultralytics/bbox_utils.py:66-68 | `int()` of a float truncates toward zero: the result lies within 1 of the input, on the side of 0 |
| BboxUtils.MatchingIndices | wandb_addons/ultralytics/bbox_utils.py:36 | every selected position is in range and its `batch_idx` entry is the image index |
| BboxUtils.MatchingIndicesComplete | wandb_addons/ultralytics/bbox_utils.py:36 | every position whose `batch_idx` entry is the image index is selected |
| BboxUtils.MatchingIndicesEmpty | wandb_addons/ultralytics/bbox_utils.py:36-44 | nothing is selected exactly when no `batch_idx` entry is the image index |
| BboxUtils.MatchingIndicesAscending | wandb_addons/ultralytics/bbox_utils.py:36-38 | the selected positions are strictly increasing, so the masked boxes keep batch order and none repeats |
| BboxUtils.PickMatchingIsMasked | wandb_addons/ultralytics/bbox_utils.py:36-38 | picking the selected positions gives the boolean-mask selection `xs[batch_idx == img_idx]`: the entries whose `batch_idx` equals the image index, in batch order |
| BboxUtils.ReverseMap | wandb_addons/ultralytics/bbox_utils.py:40 | the reversed map's keys are the class names, and each name leads back to its class id |
| BboxUtils.GetGroundTruthAnnotations | wandb_addons/ultralytics/bbox_utils.py:35-76 | `None` iff no box belongs to the image; KeyError iff a selected class has no name (given names) or the names are empty and the image index is in range; IndexError iff the image index is past the per-image columns and the labels passed the name check; otherwise one record per selected box, in batch order, each describing its box |
| BboxUtils.AnnotateBoxes | wandb_addons/ultralytics/bbox_utils.py:58-76 | one record per selected box: the scaled box truncated to pixels, domain `pixel`, the class name as caption and the class id recovered through the reverse map |
| BboxUtils.PlotPredictions | wandb_addons/ultralytics/bbox_utils.py:105-141 | one record per detected box, with its position, domain `pixel`, class id, class name and confidence; the class labels are the result's names; a table row counts the records; the mean-confidence map has the names as keys and each label's mean as value |

## Left out

- `_get_lr` inspects backend tensors and catches exceptions; its result is the parameter `lr: Option<real>` of the logging methods.
- The W&B SDK calls (`wandb.log`, `define_metric`, the telemetry context, `termwarn`, `termerror`, `wandb.Image`, `Table.add_data`) are I/O to the backend. Records are returned instead of logged. The table is represented by the `TableRow` outcome.
- `wandb.run is None` raising an error becomes the constructor's precondition `runActive`.
- The Ultralytics box operations behind `scale_bounding_box_to_original_image_shape` are the uninterpreted parameter `scale`. Tensor conversions (`.to("cpu")`, `.numpy()`, `.tolist()`, `.long()`) are not modelled; `PlotPredictions` receives boxes already in whole pixels.
- `plot_validation_results` drives a dataloader and a predictor around foreign calls and is not part of this model.
- Floating point: confidences and means are exact reals, not IEEE doubles. The mean of an empty list is the real 0, where the source stores the int 0.
- The image pixels of `wandb.Image` and the `total_confidence` accumulator of `plot_predictions` are left out. The accumulator is never read.
- The `image_path` argument is only used in the warning text and is not a parameter.
- GetGroundTruthAnnotations: requires `class_name_map` to be injective. A Dafny map has no insertion order, so the reverse comprehension's choice of the last id for a repeated name is not modelled.
- GetGroundTruthAnnotations: `class_name_map` is a map, never `None`. The source's default `None` fails at the reverse comprehension.
- GetGroundTruthAnnotations: requires the batch columns to have consistent lengths (`WellFormed`), as a dataloader produces them.
- GetGroundTruthAnnotations: class labels are ints. The float labels of `.tolist()` look up the same dict entries. `str()` of a name that is already a string is the name itself.
- PlotPredictions: requires the detection columns to have equal lengths and every class to have a name, as an Ultralytics result provides. The KeyError path is not modelled there.
- GetMeanConfidenceMap: builds the means in a second map instead of overwriting the lists in place. The keys and values are the same.
- CreatePredictionMetadataMap: a Dafny map has no key order, so the insertion order of the dict is the ghost result `keyOrder`, not an order of the map itself.
- The constructor: Python's `bool` being an `int` is not modelled; a boolean `log_freq` is not one of the model's arguments.
