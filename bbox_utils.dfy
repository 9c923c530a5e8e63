/**
 * The annotation-shaping helpers of the Ultralytics integration: grouping
 * predictions by image, per-label mean confidences, ground-truth box records of
 * one image of a batch, and the box records of a prediction overlay.
 *
 * Class ids are `int`, class names and captions `string`; a confidence is an exact
 * `real`. The Ultralytics box-rescaling chain is a parameter `scale` of the
 * operation that uses it.
 */
module BboxUtils {
  import opened Wrappers

  // ---------------------------------------------------------------------------
  // Grouping predictions by image id
  // ---------------------------------------------------------------------------

  /** A model prediction: its `image_id` and the rest of its fields. */
  datatype Prediction<I, D> = Prediction(imageId: I, fields: D)

  /** The set of image ids occurring in `preds`. */
  ghost function ImageIds<I, D>(preds: seq<Prediction<I, D>>): (ids: set<I>)
  {
    if |preds| == 0 then {} else ImageIds(preds[..|preds| - 1]) + {preds[|preds| - 1].imageId}
  }

  /** The predictions of `preds` whose image id is `id`, in input order. */
  ghost function WithImageId<I, D>(preds: seq<Prediction<I, D>>, id: I): (group: seq<Prediction<I, D>>)
  {
    if |preds| == 0 then []
    else
      var last := preds[|preds| - 1];
      WithImageId(preds[..|preds| - 1], id) + (if last.imageId == id then [last] else [])
  }

  lemma {:induction false} WithImageIdOfSnoc<I, D>(preds: seq<Prediction<I, D>>, p: Prediction<I, D>, id: I)
    ensures WithImageId(preds + [p], id) == WithImageId(preds, id) + (if p.imageId == id then [p] else [])
  {
    assert (preds + [p])[..|preds|] == preds;
  }

  lemma {:induction false} ImageIdsOfSnoc<I, D>(preds: seq<Prediction<I, D>>, p: Prediction<I, D>)
    ensures ImageIds(preds + [p]) == ImageIds(preds) + {p.imageId}
  {
    assert (preds + [p])[..|preds|] == preds;
  }

  /** An image id that no prediction carries has an empty group. */
  lemma {:induction false} AbsentIdHasNoPredictions<I, D>(preds: seq<Prediction<I, D>>, id: I)
    requires id !in ImageIds(preds)
    ensures WithImageId(preds, id) == []
  {
    if |preds| > 0 {
      var init := preds[..|preds| - 1];
      assert preds == init + [preds[|preds| - 1]];
      ImageIdsOfSnoc(init, preds[|preds| - 1]);
      AbsentIdHasNoPredictions(init, id);
    }
  }

  /** The grouping the dict describes: each image id of `preds` with its predictions. */
  ghost function Grouped<I, D>(preds: seq<Prediction<I, D>>): (groups: map<I, seq<Prediction<I, D>>>)
  {
    map id | id in ImageIds(preds) :: WithImageId(preds, id)
  }

  /** One more prediction is `setdefault(id, [])` followed by an append to that id's group. */
  lemma GroupedOfSnoc<I, D>(preds: seq<Prediction<I, D>>, p: Prediction<I, D>)
    ensures var before := Grouped(preds);
            Grouped(preds + [p])
            == before[p.imageId := (if p.imageId in before then before[p.imageId] else []) + [p]]
  {
    var before := Grouped(preds);
    var expected := before[p.imageId := (if p.imageId in before then before[p.imageId] else []) + [p]];
    ImageIdsOfSnoc(preds, p);
    forall id | id in expected
      ensures Grouped(preds + [p])[id] == expected[id]
    {
      WithImageIdOfSnoc(preds, p, id);
      if id == p.imageId && p.imageId !in before {
        AbsentIdHasNoPredictions(preds, id);
      }
    }
  }

  /**
   * `create_prediction_metadata_map`: the keys are exactly the image ids of the
   * input, and each key holds the predictions with that id, in input order.
   * `keyOrder` is the order in which the keys enter the dict: the image ids in
   * order of first occurrence.
   */
  method CreatePredictionMetadataMap<I, D>(modelPredictions: seq<Prediction<I, D>>)
    returns (predMetadataMap: map<I, seq<Prediction<I, D>>>, ghost keyOrder: seq<I>)
    ensures predMetadataMap.Keys == ImageIds(modelPredictions)
    ensures forall id :: id in predMetadataMap ==> predMetadataMap[id] == WithImageId(modelPredictions, id)
    ensures keyOrder == FirstSeenIds(modelPredictions)
    ensures forall id :: id in keyOrder <==> id in predMetadataMap
  {
    predMetadataMap := map[];
    keyOrder := [];
    for i := 0 to |modelPredictions|
      invariant predMetadataMap == Grouped(modelPredictions[..i])
      invariant keyOrder == FirstSeenIds(modelPredictions[..i])
    {
      var prediction := modelPredictions[i];
      assert modelPredictions[..i + 1] == modelPredictions[..i] + [prediction];
      GroupedOfSnoc(modelPredictions[..i], prediction);
      FirstSeenIdsOfSnoc(modelPredictions[..i], prediction);
      FirstSeenIdsListImageId(modelPredictions[..i], prediction.imageId);
      if prediction.imageId !in predMetadataMap {
        predMetadataMap := predMetadataMap[prediction.imageId := []];
        keyOrder := keyOrder + [prediction.imageId];
      }
      predMetadataMap := predMetadataMap[prediction.imageId := predMetadataMap[prediction.imageId] + [prediction]];
    }
    assert modelPredictions[..|modelPredictions|] == modelPredictions;
    FirstSeenIdsAreImageIds(modelPredictions);
  }

  /**
   * Every prediction occurs in the group of its own image id exactly as often as in
   * the input, and in no other group: grouping neither loses nor duplicates.
   */
  lemma {:induction false} GroupKeepsEachPrediction<I, D>(preds: seq<Prediction<I, D>>, id: I, p: Prediction<I, D>)
    ensures multiset(WithImageId(preds, id))[p] == if p.imageId == id then multiset(preds)[p] else 0
  {
    if |preds| > 0 {
      var init, last := preds[..|preds| - 1], preds[|preds| - 1];
      assert preds == init + [last];
      GroupKeepsEachPrediction(init, id, p);
    }
  }

  /** The image ids of `preds` in order of first occurrence: the key order of the grouped map. */
  ghost function FirstSeenIds<I, D>(preds: seq<Prediction<I, D>>): (ids: seq<I>)
  {
    if |preds| == 0 then []
    else
      var ids := FirstSeenIds(preds[..|preds| - 1]);
      var id := preds[|preds| - 1].imageId;
      if id in ids then ids else ids + [id]
  }

  /** The sum, over `ids`, of the size of each id's group. */
  ghost function GroupSizes<I, D>(ids: seq<I>, preds: seq<Prediction<I, D>>): (total: nat)
  {
    if |ids| == 0 then 0
    else GroupSizes(ids[..|ids| - 1], preds) + |WithImageId(preds, ids[|ids| - 1])|
  }

  /** Each image id of the input is listed once by `FirstSeenIds`, and nothing else is. */
  lemma {:induction false} FirstSeenIdsAreDistinct<I, D>(preds: seq<Prediction<I, D>>, id: I)
    ensures multiset(FirstSeenIds(preds))[id] == if id in ImageIds(preds) then 1 else 0
  {
    if |preds| > 0 {
      var init, last := preds[..|preds| - 1], preds[|preds| - 1];
      assert preds == init + [last];
      ImageIdsOfSnoc(init, last);
      FirstSeenIdsAreDistinct(init, id);
      FirstSeenIdsAreDistinct(init, last.imageId);
    }
  }

  lemma {:induction false} FirstSeenIdsOfSnoc<I, D>(preds: seq<Prediction<I, D>>, p: Prediction<I, D>)
    ensures FirstSeenIds(preds + [p]) ==
            if p.imageId in FirstSeenIds(preds) then FirstSeenIds(preds) else FirstSeenIds(preds) + [p.imageId]
  {
    assert (preds + [p])[..|preds|] == preds;
  }

  lemma FirstSeenIdsListImageId<I, D>(preds: seq<Prediction<I, D>>, id: I)
    ensures id in FirstSeenIds(preds) <==> id in ImageIds(preds)
  {
    FirstSeenIdsAreDistinct(preds, id);
  }

  /** The ids listed by `FirstSeenIds` are exactly the image ids of the input. */
  lemma FirstSeenIdsAreImageIds<I, D>(preds: seq<Prediction<I, D>>)
    ensures forall id :: id in FirstSeenIds(preds) <==> id in ImageIds(preds)
  {
    forall id
      ensures id in FirstSeenIds(preds) <==> id in ImageIds(preds)
    {
      FirstSeenIdsListImageId(preds, id);
    }
  }

  /** The image id of every prediction is one of the input's image ids. */
  lemma {:induction false} PositionIdIsImageId<I, D>(preds: seq<Prediction<I, D>>, k: nat)
    requires k < |preds|
    ensures preds[k].imageId in ImageIds(preds)
  {
    if k < |preds| - 1 {
      var init := preds[..|preds| - 1];
      PositionIdIsImageId(init, k);
    }
  }

  /** Every image id of the input is carried by some prediction. */
  lemma {:induction false} ImageIdAtSomePosition<I, D>(preds: seq<Prediction<I, D>>, id: I)
    requires id in ImageIds(preds)
    ensures exists m :: 0 <= m < |preds| && preds[m].imageId == id
  {
    var n := |preds| - 1;
    if preds[n].imageId != id {
      ImageIdAtSomePosition(preds[..n], id);
      var m :| 0 <= m < n && preds[..n][m].imageId == id;
      assert preds[m].imageId == id;
    }
  }

  /**
   * The key order is the order of first occurrence: when the id at position
   * `a` of the order comes before the id at position `b`, every prediction
   * carrying the latter id is preceded by one carrying the former.
   */
  lemma {:induction false} FirstSeenIdsInFirstOccurrenceOrder<I, D>(preds: seq<Prediction<I, D>>, a: nat, b: nat, k: nat)
    requires a < b < |FirstSeenIds(preds)|
    requires k < |preds| && preds[k].imageId == FirstSeenIds(preds)[b]
    ensures exists m :: 0 <= m < k && preds[m].imageId == FirstSeenIds(preds)[a]
  {
    var n := |preds| - 1;
    var init, last := preds[..n], preds[n];
    var ids, earlier := FirstSeenIds(preds), FirstSeenIds(init);
    assert ids == if last.imageId in earlier then earlier else earlier + [last.imageId];
    FirstSeenIdsListImageId(init, last.imageId);
    if k < n {
      PositionIdIsImageId(init, k);
      FirstSeenIdsListImageId(init, ids[b]);
      assert b < |earlier| && ids[a] == earlier[a] && ids[b] == earlier[b];
      FirstSeenIdsInFirstOccurrenceOrder(init, a, b, k);
      var m :| 0 <= m < k && init[m].imageId == earlier[a];
      assert preds[m].imageId == ids[a];
    } else {
      assert a < |earlier| && ids[a] == earlier[a];
      FirstSeenIdsListImageId(init, ids[a]);
      ImageIdAtSomePosition(init, ids[a]);
      var m :| 0 <= m < n && init[m].imageId == ids[a];
      assert preds[m].imageId == ids[a];
    }
  }

  lemma {:induction false} GroupSizesOfSnoc<I, D>(ids: seq<I>, preds: seq<Prediction<I, D>>, p: Prediction<I, D>)
    ensures GroupSizes(ids, preds + [p]) == GroupSizes(ids, preds) + multiset(ids)[p.imageId]
  {
    if |ids| > 0 {
      var init, last := ids[..|ids| - 1], ids[|ids| - 1];
      assert ids == init + [last];
      GroupSizesOfSnoc(init, preds, p);
      WithImageIdOfSnoc(preds, p, last);
    }
  }

  lemma {:induction false} GroupSizesOfNewId<I, D>(ids: seq<I>, id: I, preds: seq<Prediction<I, D>>)
    ensures GroupSizes(ids + [id], preds) == GroupSizes(ids, preds) + |WithImageId(preds, id)|
  {
    assert (ids + [id])[..|ids|] == ids;
  }

  /**
   * The group sizes of `create_prediction_metadata_map`, summed over its keys, add
   * up to the number of predictions.
   */
  lemma {:induction false} GroupSizesSumToInput<I, D>(preds: seq<Prediction<I, D>>)
    ensures GroupSizes(FirstSeenIds(preds), preds) == |preds|
  {
    if |preds| > 0 {
      var init, last := preds[..|preds| - 1], preds[|preds| - 1];
      assert preds == init + [last];
      var ids := FirstSeenIds(init);
      GroupSizesSumToInput(init);
      GroupSizesOfSnoc(ids, init, last);
      FirstSeenIdsAreDistinct(init, last.imageId);
      if last.imageId !in ids {
        GroupSizesOfNewId(ids, last.imageId, preds);
        AbsentIdHasNoPredictions(init, last.imageId);
        WithImageIdOfSnoc(init, last, last.imageId);
        assert GroupSizes(ids, preds) == GroupSizes(ids, init);
      }
    }
  }

  // ---------------------------------------------------------------------------
  // Mean confidence per label
  // ---------------------------------------------------------------------------

  function Sum(xs: seq<real>): (total: real)
  {
    if |xs| == 0 then 0.0 else Sum(xs[..|xs| - 1]) + xs[|xs| - 1]
  }

  /** The mean of `xs`, with 0 for an empty list. */
  ghost function Mean(xs: seq<real>): (mean: real)
  {
    if |xs| == 0 then 0.0 else Sum(xs) / (|xs| as real)
  }

  /** `zip(classes, confidence)` pairs only the first `min(len(classes), len(confidence))` entries. */
  function Paired(classes: seq<int>, confidence: seq<real>): (n: nat)
    ensures n <= |classes| && n <= |confidence|
    ensures n == |classes| || n == |confidence|
  {
    if |classes| <= |confidence| then |classes| else |confidence|
  }

  /** The confidences among the first `n` pairs whose class is labelled `name`, in order. */
  ghost function ConfidencesOf(classes: seq<int>, confidence: seq<real>, classIdToLabel: map<int, string>,
                               name: string, n: nat): (confidences: seq<real>)
    requires n <= |classes| && n <= |confidence|
  {
    if n == 0 then []
    else
      ConfidencesOf(classes, confidence, classIdToLabel, name, n - 1)
      + (if classes[n - 1] in classIdToLabel && classIdToLabel[classes[n - 1]] == name
         then [confidence[n - 1]] else [])
  }

  /**
   * `get_mean_confidence_map`: `None` when a paired class has no label (the lookup
   * raises KeyError); otherwise every label of `class_id_to_label` is a key, mapped to
   * the mean of the confidences paired with a class of that label, or 0 if none is.
   */
  method GetMeanConfidenceMap(classes: seq<int>, confidence: seq<real>, classIdToLabel: map<int, string>)
    returns (result: Option<map<string, real>>)
    ensures result.None? <==>
              exists i :: 0 <= i < Paired(classes, confidence) && classes[i] !in classIdToLabel
    ensures result.Some? ==> result.value.Keys == classIdToLabel.Values
    ensures result.Some? ==> forall name :: name in result.value ==>
              result.value[name] == Mean(ConfidencesOf(classes, confidence, classIdToLabel, name,
                                                        Paired(classes, confidence)))
  {
    var n := Paired(classes, confidence);
    var confidenceMap: map<string, seq<real>> := map name | name in classIdToLabel.Values :: [];
    for i := 0 to n
      invariant confidenceMap.Keys == classIdToLabel.Values
      invariant forall j :: 0 <= j < i ==> classes[j] in classIdToLabel
      invariant forall name :: name in confidenceMap ==>
                  confidenceMap[name] == ConfidencesOf(classes, confidence, classIdToLabel, name, i)
    {
      if classes[i] !in classIdToLabel {
        return None;
      }
      var name := classIdToLabel[classes[i]];
      confidenceMap := confidenceMap[name := confidenceMap[name] + [confidence[i]]];
    }
    var means := MeansOf(confidenceMap);
    result := Some(means);
  }

  /** The second loop of `get_mean_confidence_map`: each list replaced by its mean, 0 for an empty list. */
  method MeansOf(confidenceMap: map<string, seq<real>>) returns (means: map<string, real>)
    ensures means.Keys == confidenceMap.Keys
    ensures forall name :: name in means ==> means[name] == Mean(confidenceMap[name])
  {
    means := map[];
    var pending := confidenceMap.Keys;
    while pending != {}
      invariant pending <= confidenceMap.Keys
      invariant means.Keys == confidenceMap.Keys - pending
      invariant forall name :: name in means ==> means[name] == Mean(confidenceMap[name])
      decreases pending
    {
      var name :| name in pending;
      var confidenceList := confidenceMap[name];
      if |confidenceList| > 0 {
        means := means[name := Sum(confidenceList) / (|confidenceList| as real)];
      } else {
        means := means[name := 0.0];
      }
      pending := pending - {name};
    }
  }

  lemma {:induction false} SumBounds(xs: seq<real>, lo: real, hi: real)
    requires forall i :: 0 <= i < |xs| ==> lo <= xs[i] <= hi
    ensures (|xs| as real) * lo <= Sum(xs) <= (|xs| as real) * hi
  {
    if |xs| > 0 {
      SumBounds(xs[..|xs| - 1], lo, hi);
    }
  }

  /** A mean of values between `lo` and `hi` lies between them too. */
  lemma MeanBounds(xs: seq<real>, lo: real, hi: real)
    requires |xs| > 0
    requires forall i :: 0 <= i < |xs| ==> lo <= xs[i] <= hi
    ensures lo <= Mean(xs) <= hi
  {
    SumBounds(xs, lo, hi);
    var len := |xs| as real;
    assert Sum(xs) / len >= lo by {
      assert Sum(xs) >= len * lo;
    }
    assert Sum(xs) / len <= hi by {
      assert Sum(xs) <= len * hi;
    }
  }

  /** The confidences collected for a label are among the paired confidences. */
  lemma {:induction false} ConfidencesOfAreInputs(classes: seq<int>, confidence: seq<real>,
                                                  classIdToLabel: map<int, string>, name: string, n: nat)
    requires n <= |classes| && n <= |confidence|
    ensures forall x :: x in ConfidencesOf(classes, confidence, classIdToLabel, name, n) ==>
              x in confidence[..n]
  {
    if n > 0 {
      ConfidencesOfAreInputs(classes, confidence, classIdToLabel, name, n - 1);
      assert confidence[..n - 1] <= confidence[..n];
    }
  }

  /** Confidences between 0 and 1 give mean confidences between 0 and 1. */
  lemma MeanConfidenceInUnitInterval(classes: seq<int>, confidence: seq<real>,
                                     classIdToLabel: map<int, string>, name: string)
    requires forall i :: 0 <= i < |confidence| ==> 0.0 <= confidence[i] <= 1.0
    ensures var mean := Mean(ConfidencesOf(classes, confidence, classIdToLabel, name, Paired(classes, confidence)));
            0.0 <= mean <= 1.0
  {
    var xs := ConfidencesOf(classes, confidence, classIdToLabel, name, Paired(classes, confidence));
    if |xs| > 0 {
      ConfidencesOfAreInputs(classes, confidence, classIdToLabel, name, Paired(classes, confidence));
      forall i | 0 <= i < |xs|
        ensures 0.0 <= xs[i] <= 1.0
      {
        assert xs[i] in xs;
      }
      MeanBounds(xs, 0.0, 1.0);
    }
  }

  /** A label that no paired class carries gets the mean 0. */
  lemma {:induction false} UnpairedLabelIsZero(classes: seq<int>, confidence: seq<real>,
                                               classIdToLabel: map<int, string>, name: string, n: nat)
    requires n <= |classes| && n <= |confidence|
    requires forall i :: 0 <= i < n && classes[i] in classIdToLabel ==> classIdToLabel[classes[i]] != name
    ensures ConfidencesOf(classes, confidence, classIdToLabel, name, n) == []
    ensures Mean(ConfidencesOf(classes, confidence, classIdToLabel, name, n)) == 0.0
  {
    if n > 0 {
      UnpairedLabelIsZero(classes, confidence, classIdToLabel, name, n - 1);
    }
  }

  // ---------------------------------------------------------------------------
  // Box records
  // ---------------------------------------------------------------------------

  /** A box as four coordinates: centre x, centre y, width, height. */
  datatype Xywh = Xywh(x: real, y: real, w: real, h: real)

  /** An image shape (height, width). */
  datatype Shape = Shape(height: int, width: int)

  /** The letterbox ratio and padding Ultralytics recorded for an image. */
  datatype RatioPad = RatioPad(ratio: seq<real>, pad: seq<real>)

  /** The `"position"` entry of a box record, in pixels. */
  datatype Position = Position(middle: (int, int), width: int, height: int)

  /**
   * One box record for a W&B image overlay. `confidence` is the `"scores"` entry,
   * present only in prediction records.
   */
  datatype BoxRecord = BoxRecord(position: Position, domain: string, classId: int, caption: string,
                                 confidence: Option<real>)

  const PixelDomain := "pixel"

  /** Python's `int(x)` on a float: truncation toward zero. */
  function TruncToInt(x: real): (n: int)
    ensures 0.0 <= x ==> 0 <= n && n as real <= x < n as real + 1.0
    ensures x < 0.0 ==> n <= 0 && n as real - 1.0 < x <= n as real
  {
    if x >= 0.0 then x.Floor else -((-x).Floor)
  }

  /** The pixel position of a scaled box: each coordinate truncated toward zero. */
  function PixelPosition(box: Xywh): (position: Position)
  {
    Position((TruncToInt(box.x), TruncToInt(box.y)), TruncToInt(box.w), TruncToInt(box.h))
  }

  // ---------------------------------------------------------------------------
  // Ground-truth annotations of one image of a batch
  // ---------------------------------------------------------------------------

  /**
   * A training batch: per-box columns `batch_idx`, `bboxes` (normalised xywh) and
   * `cls`, and per-image columns `ori_shape`, `resized_shape` and `ratio_pad`.
   */
  datatype Batch = Batch(batchIdx: seq<int>, bboxes: seq<Xywh>, cls: seq<int>,
                         oriShape: seq<Shape>, resizedShape: seq<Shape>, ratioPad: seq<RatioPad>)

  /** The columns of a batch have one entry per box and one entry per image respectively. */
  predicate WellFormed(batch: Batch)
  {
    && |batch.bboxes| == |batch.batchIdx|
    && |batch.cls| == |batch.batchIdx|
    && |batch.resizedShape| == |batch.oriShape|
    && |batch.ratioPad| == |batch.oriShape|
  }

  /** The positions selected by the mask `batch_idx == img_idx`. */
  function MatchingIndices(batchIdx: seq<int>, imgIdx: int): (r: seq<nat>)
    ensures forall j :: 0 <= j < |r| ==> r[j] < |batchIdx| && batchIdx[r[j]] == imgIdx
  {
    if |batchIdx| == 0 then []
    else
      var n := |batchIdx| - 1;
      MatchingIndices(batchIdx[..n], imgIdx) + (if batchIdx[n] == imgIdx then [n] else [])
  }

  /** Every position whose entry is `imgIdx` is selected. */
  lemma {:induction false} MatchingIndicesComplete(batchIdx: seq<int>, imgIdx: int)
    ensures forall i :: 0 <= i < |batchIdx| && batchIdx[i] == imgIdx ==> i in MatchingIndices(batchIdx, imgIdx)
  {
    if |batchIdx| > 0 {
      var n := |batchIdx| - 1;
      MatchingIndicesComplete(batchIdx[..n], imgIdx);
      forall i | 0 <= i < n && batchIdx[i] == imgIdx
        ensures i in MatchingIndices(batchIdx, imgIdx)
      {
        assert batchIdx[..n][i] == imgIdx;
      }
    }
  }

  /** Nothing is selected exactly when no entry of `batch_idx` is `imgIdx`. */
  lemma MatchingIndicesEmpty(batchIdx: seq<int>, imgIdx: int)
    ensures |MatchingIndices(batchIdx, imgIdx)| == 0 <==>
            forall k :: 0 <= k < |batchIdx| ==> batchIdx[k] != imgIdx
  {
    var r := MatchingIndices(batchIdx, imgIdx);
    MatchingIndicesComplete(batchIdx, imgIdx);
    if |r| > 0 {
      assert batchIdx[r[0]] == imgIdx;
    }
  }

  /** Strictly increasing: in order, and no position twice. */
  predicate Ascending(s: seq<nat>)
  {
    forall j, k :: 0 <= j < k < |s| ==> s[j] < s[k]
  }

  /** The selected positions come in batch order, each once. */
  lemma {:induction false} MatchingIndicesAscending(batchIdx: seq<int>, imgIdx: int)
    ensures Ascending(MatchingIndices(batchIdx, imgIdx))
  {
    if |batchIdx| > 0 {
      var n := |batchIdx| - 1;
      var earlier := MatchingIndices(batchIdx[..n], imgIdx);
      MatchingIndicesAscending(batchIdx[..n], imgIdx);
      var r := MatchingIndices(batchIdx, imgIdx);
      assert r == earlier + (if batchIdx[n] == imgIdx then [n] else []);
      forall j, k | 0 <= j < k < |r|
        ensures r[j] < r[k]
      {
        if k < |earlier| {
          assert r[j] == earlier[j] && r[k] == earlier[k];
        } else {
          assert r[k] == n && r[j] == earlier[j];
          assert earlier[j] < |batchIdx[..n]|;
        }
      }
    }
  }

  /** The elements of `xs` at the positions `indices`, in that order. */
  function Pick<T>(xs: seq<T>, indices: seq<nat>): (r: seq<T>)
    requires forall j :: 0 <= j < |indices| ==> indices[j] < |xs|
  {
    seq(|indices|, j requires 0 <= j < |indices| => xs[indices[j]])
  }

  /** Boolean-mask selection `xs[batch_idx == img_idx]`: the entries whose mask position matches, in order. */
  ghost function Masked<T>(xs: seq<T>, batchIdx: seq<int>, imgIdx: int): (r: seq<T>)
    requires |xs| == |batchIdx|
  {
    if |batchIdx| == 0 then []
    else
      var n := |batchIdx| - 1;
      Masked(xs[..n], batchIdx[..n], imgIdx) + (if batchIdx[n] == imgIdx then [xs[n]] else [])
  }

  /** Picking the matching positions is the masked selection of the column. */
  lemma {:induction false} PickMatchingIsMasked<T>(xs: seq<T>, batchIdx: seq<int>, imgIdx: int)
    requires |xs| == |batchIdx|
    ensures Pick(xs, MatchingIndices(batchIdx, imgIdx)) == Masked(xs, batchIdx, imgIdx)
  {
    if |batchIdx| > 0 {
      var n := |batchIdx| - 1;
      var earlier := MatchingIndices(batchIdx[..n], imgIdx);
      PickMatchingIsMasked(xs[..n], batchIdx[..n], imgIdx);
      var all := MatchingIndices(batchIdx, imgIdx);
      assert all == earlier + (if batchIdx[n] == imgIdx then [n] else []);
      var picked := Pick(xs, all);
      var expected := Pick(xs[..n], earlier) + (if batchIdx[n] == imgIdx then [xs[n]] else []);
      assert |picked| == |expected|;
      forall j | 0 <= j < |picked|
        ensures picked[j] == expected[j]
      {
        if j < |earlier| {
          assert all[j] == earlier[j] && earlier[j] < n;
        }
      }
    }
  }

  ghost predicate Injective(m: map<int, string>)
  {
    forall a, b :: a in m && b in m && m[a] == m[b] ==> a == b
  }

  /** `{v: k for k, v in class_name_map.items()}` for a map without repeated names. */
  function ReverseMap(m: map<int, string>): (r: map<string, int>)
    requires Injective(m)
    ensures r.Keys == m.Values
    ensures forall k :: k in m ==> r[m[k]] == k
  {
    map k | k in m :: m[k] := k
  }

  /**
   * `record` is the ground-truth record of box `box` of the batch: its scaled position,
   * the pixel domain, its class name as caption and its class id.
   */
  ghost predicate DescribesBox(record: BoxRecord, batch: Batch, imgIdx: nat, box: nat,
                               classNameMap: map<int, string>, scale: (Xywh, Shape, Shape, RatioPad) -> Xywh)
    requires WellFormed(batch) && imgIdx < |batch.oriShape| && box < |batch.batchIdx|
  {
    && batch.cls[box] in classNameMap
    && record.domain == PixelDomain
    && record.caption == classNameMap[batch.cls[box]]
    && record.classId == batch.cls[box]
    && record.confidence.None?
    && record.position == PixelPosition(scale(batch.bboxes[box], batch.resizedShape[imgIdx],
                                             batch.oriShape[imgIdx], batch.ratioPad[imgIdx]))
  }

  datatype GroundTruth =
    | NoBoxLabels              // no box of the batch belongs to the image: `None`
    | Annotated(data: seq<BoxRecord>)
    | MissingClass             // a class id without a name: the lookup raises KeyError
    | NoImageShape             // `batch["ori_shape"][img_idx]` raises IndexError

  /** Whether every class label has a name in `classNameMap`. */
  predicate AllNamed(labels: seq<int>, classNameMap: map<int, string>)
  {
    forall j :: 0 <= j < |labels| ==> labels[j] in classNameMap
  }

  /**
   * `get_ground_truth_annotations`: `NoBoxLabels` when no box belongs to image
   * `imgIdx`; otherwise one record per box of the image, in batch order, captioned
   * with its class name and carrying its class id back through the reverse map.
   * The failures come in the order the source meets them: a class without a name
   * (when names are given), the image index past the per-image columns, and last
   * the reverse lookup of a bare class number when `class_name_map` is empty.
   * `scale` stands for `scale_bounding_box_to_original_image_shape`.
   */
  method GetGroundTruthAnnotations(imgIdx: nat, batch: Batch, classNameMap: map<int, string>,
                                   scale: (Xywh, Shape, Shape, RatioPad) -> Xywh)
    returns (annotations: GroundTruth)
    requires WellFormed(batch)
    requires Injective(classNameMap)
    ensures annotations.NoBoxLabels? <==> |MatchingIndices(batch.batchIdx, imgIdx)| == 0
    ensures var indices := MatchingIndices(batch.batchIdx, imgIdx);
            annotations.MissingClass? <==>
              && |indices| > 0 && !AllNamed(Pick(batch.cls, indices), classNameMap)
              && (|classNameMap| > 0 || imgIdx < |batch.oriShape|)
    ensures var indices := MatchingIndices(batch.batchIdx, imgIdx);
            annotations.NoImageShape? <==>
              && |indices| > 0 && imgIdx >= |batch.oriShape|
              && (|classNameMap| == 0 || AllNamed(Pick(batch.cls, indices), classNameMap))
    ensures annotations.Annotated? ==>
              var indices := MatchingIndices(batch.batchIdx, imgIdx);
              && imgIdx < |batch.oriShape|
              && |annotations.data| == |indices|
              && forall j :: 0 <= j < |indices| ==>
                   DescribesBox(annotations.data[j], batch, imgIdx, indices[j], classNameMap, scale)
  {
    var indices := MatchingIndices(batch.batchIdx, imgIdx);
    var bboxes := Pick(batch.bboxes, indices);
    var clsLabels := Pick(batch.cls, indices);
    if |bboxes| == 0 {
      return NoBoxLabels;
    }
    if |classNameMap| > 0 && !AllNamed(clsLabels, classNameMap) {
      return MissingClass;
    }
    if imgIdx >= |batch.oriShape| {
      return NoImageShape;
    }
    if |classNameMap| == 0 {
      // the labels stay class numbers, which the empty reverse map does not hold
      assert clsLabels[0] !in classNameMap;
      return MissingClass;
    }
    var captions := seq(|clsLabels|, j requires 0 <= j < |clsLabels| => classNameMap[clsLabels[j]]);
    forall j | 0 <= j < |indices|
      ensures indices[j] < |batch.batchIdx| && batch.cls[indices[j]] in classNameMap
      ensures captions[j] == classNameMap[batch.cls[indices[j]]]
    {
      assert clsLabels[j] == batch.cls[indices[j]];
    }
    var data := AnnotateBoxes(batch, imgIdx, indices, captions, classNameMap, scale);
    annotations := Annotated(data);
  }

  /**
   * The loop of `get_ground_truth_annotations` over the selected boxes and their
   * captions: each box scaled to the original image and truncated to pixels, its
   * class id recovered from its caption through the reverse map.
   */
  method AnnotateBoxes(batch: Batch, imgIdx: nat, indices: seq<nat>, captions: seq<string>,
                       classNameMap: map<int, string>, scale: (Xywh, Shape, Shape, RatioPad) -> Xywh)
    returns (data: seq<BoxRecord>)
    requires WellFormed(batch) && imgIdx < |batch.oriShape|
    requires Injective(classNameMap)
    requires |captions| == |indices|
    requires forall j :: 0 <= j < |indices| ==>
               indices[j] < |batch.batchIdx| && batch.cls[indices[j]] in classNameMap
               && captions[j] == classNameMap[batch.cls[indices[j]]]
    ensures |data| == |indices|
    ensures forall j :: 0 <= j < |indices| ==>
              DescribesBox(data[j], batch, imgIdx, indices[j], classNameMap, scale)
  {
    var bboxes := Pick(batch.bboxes, indices);
    var classNameMapReverse := ReverseMap(classNameMap);
    var originalImageShape := batch.oriShape[imgIdx];
    var resizedImageShape := batch.resizedShape[imgIdx];
    var ratioPad := batch.ratioPad[imgIdx];
    data := [];
    for i := 0 to |bboxes|
      invariant |data| == i
      invariant forall j :: 0 <= j < i ==> DescribesBox(data[j], batch, imgIdx, indices[j], classNameMap, scale)
    {
      var box := scale(bboxes[i], resizedImageShape, originalImageShape, ratioPad);
      var name := captions[i];
      data := data + [BoxRecord(PixelPosition(box), PixelDomain, classNameMapReverse[name], name, None)];
    }
  }

  // ---------------------------------------------------------------------------
  // Prediction overlay of one result
  // ---------------------------------------------------------------------------

  /** A box of a detection result, already converted to whole pixels. */
  datatype PixelBox = PixelBox(x: int, y: int, w: int, h: int)

  /** The boxes of a detection result: one entry per detection in each column. */
  datatype DetectionResult = DetectionResult(boxes: seq<PixelBox>, classes: seq<int>, confidence: seq<real>,
                                             names: map<int, string>)

  /** The `"predictions"` entry of the overlay: box records and the class labels. */
  datatype Overlay = Overlay(boxData: seq<BoxRecord>, classLabels: map<int, string>)

  /** What `plot_predictions` hands back: a row added to a table, or the overlay itself. */
  datatype Plotted =
    | TableRow(overlay: Overlay, boxCount: nat, meanConfidence: map<string, real>)
    | Returned(overlay: Overlay, meanConfidence: map<string, real>)

  /**
   * `plot_predictions`: one box record per detected box, with its class id, the
   * class name as caption and its confidence score; a table row counts the records.
   */
  method PlotPredictions(result: DetectionResult, toTable: bool) returns (plotted: Plotted)
    requires |result.classes| == |result.boxes| && |result.confidence| == |result.boxes|
    requires forall i :: 0 <= i < |result.classes| ==> result.classes[i] in result.names
    ensures plotted.TableRow? <==> toTable
    ensures plotted.TableRow? ==> plotted.boxCount == |plotted.overlay.boxData|
    ensures plotted.overlay.classLabels == result.names
    ensures |plotted.overlay.boxData| == |result.boxes|
    ensures forall i :: 0 <= i < |result.boxes| ==>
              var record, box := plotted.overlay.boxData[i], result.boxes[i];
              && record.position == Position((box.x, box.y), box.w, box.h)
              && record.domain == PixelDomain
              && record.classId == result.classes[i]
              && record.caption == result.names[result.classes[i]]
              && record.confidence == Some(result.confidence[i])
    ensures plotted.meanConfidence.Keys == result.names.Values
    ensures forall name :: name in plotted.meanConfidence ==>
              plotted.meanConfidence[name]
              == Mean(ConfidencesOf(result.classes, result.confidence, result.names, name, |result.boxes|))
  {
    var boxes, classes, confidence := result.boxes, result.classes, result.confidence;
    var classIdToLabel := result.names;
    var meanConfidenceMap := GetMeanConfidenceMap(classes, confidence, classIdToLabel);
    var boxData: seq<BoxRecord> := [];
    for idx := 0 to |boxes|
      invariant |boxData| == idx
      invariant forall i :: 0 <= i < idx ==>
                  boxData[i] == BoxRecord(Position((boxes[i].x, boxes[i].y), boxes[i].w, boxes[i].h),
                                          PixelDomain, classes[i], classIdToLabel[classes[i]], Some(confidence[i]))
    {
      boxData := boxData + [BoxRecord(Position((boxes[idx].x, boxes[idx].y), boxes[idx].w, boxes[idx].h),
                                      PixelDomain, classes[idx], classIdToLabel[classes[idx]], Some(confidence[idx]))];
    }
    var overlay := Overlay(boxData, classIdToLabel);
    if toTable {
      plotted := TableRow(overlay, |boxData|, meanConfidenceMap.value);
    } else {
      plotted := Returned(overlay, meanConfidenceMap.value);
    }
  }
}
