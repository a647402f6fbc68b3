/** Post-inference part of the eye localizer (models/segmentation.py). The detector's
    forward pass is not modelled: its boxes are the input. */
module Segmentation {
  import opened Wrappers
  import opened Schemas
  import Config

  /** One detected box: its confidence and `xyxy` corner coordinates in pixels. */
  datatype Candidate = Candidate(conf: real, x1: real, y1: real, x2: real, y2: real)

  /** Python's `int()` on a float: truncation toward zero. */
  function Trunc(x: real): (n: int)
    ensures 0.0 <= x ==> n as real <= x < n as real + 1.0
    ensures x < 0.0 ==> n as real - 1.0 < x <= n as real
  {
    if x >= 0.0 then x.Floor else -((-x).Floor)
  }

  /** The detector's confidence floor: only boxes scoring above it are reported, in order. */
  function AboveFloor(boxes: seq<Candidate>, floor: real): (kept: seq<Candidate>)
    ensures forall i :: 0 <= i < |kept| ==> kept[i].conf > floor && kept[i] in boxes
    ensures forall b :: b in boxes && b.conf > floor ==> b in kept
    ensures |kept| <= |boxes|
  {
    if |boxes| == 0 then []
    else
      var rest := AboveFloor(boxes[1..], floor);
      assert forall b :: b in boxes[1..] ==> b in boxes;
      if boxes[0].conf > floor then [boxes[0]] + rest else rest
  }

  /** The filter keeps the detector's order: filtering a concatenation filters each part. */
  lemma {:induction false} AboveFloorConcat(a: seq<Candidate>, b: seq<Candidate>, floor: real)
    ensures AboveFloor(a + b, floor) == AboveFloor(a, floor) + AboveFloor(b, floor)
  {
    if |a| == 0 {
      assert a + b == b;
    } else {
      assert (a + b)[0] == a[0] && (a + b)[1..] == a[1..] + b;
      AboveFloorConcat(a[1..], b, floor);
    }
  }

  /** `argmax` over the confidences: the first index holding the maximum. */
  function FirstArgMax(confs: seq<real>): (k: nat)
    requires |confs| > 0
    ensures k < |confs|
    ensures forall j :: 0 <= j < |confs| ==> confs[j] <= confs[k]
    ensures forall j :: 0 <= j < k ==> confs[j] < confs[k]
  {
    if |confs| == 1 then 0
    else
      var k := FirstArgMax(confs[..|confs| - 1]);
      if confs[|confs| - 1] > confs[k] then |confs| - 1 else k
  }

  function Confidences(boxes: seq<Candidate>): (cs: seq<real>)
    ensures |cs| == |boxes| && forall i :: 0 <= i < |boxes| ==> cs[i] == boxes[i].conf
  {
    seq(|boxes|, i requires 0 <= i < |boxes| => boxes[i].conf)
  }

  /** `SegmentationModel.predict` after inference: "not detected" for no boxes, otherwise
      the highest-confidence box (the first one on a tie) with its corners truncated to
      integers. The crop URL is left for the image service to fill in. */
  function Predict(boxes: seq<Candidate>): (r: YoloResult)
    ensures |boxes| == 0 <==> !r.isDetected
    ensures |boxes| == 0 ==> r.confidence == 0.0 && r.bbox == None
    ensures r.cropImageUrl == None
    ensures |boxes| > 0 ==>
      exists k :: 0 <= k < |boxes| && r.confidence == boxes[k].conf
        && r.bbox == Some([Trunc(boxes[k].x1), Trunc(boxes[k].y1), Trunc(boxes[k].x2), Trunc(boxes[k].y2)])
        && (forall j :: 0 <= j < k ==> boxes[j].conf < r.confidence)
        && (forall j :: 0 <= j < |boxes| ==> boxes[j].conf <= r.confidence)
  {
    if |boxes| == 0 then
      YoloResult(isDetected := false, confidence := 0.0, bbox := None, cropImageUrl := None)
    else
      var k := FirstArgMax(Confidences(boxes));
      var box := boxes[k];
      YoloResult(
        isDetected := true,
        confidence := box.conf,
        bbox := Some([Trunc(box.x1), Trunc(box.y1), Trunc(box.x2), Trunc(box.y2)]),
        cropImageUrl := None)
  }

  /** The whole localizer call on the detector's raw boxes with the configured floor. */
  function Detect(raw: seq<Candidate>): YoloResult {
    Predict(AboveFloor(raw, Config.ConfThreshold))
  }

  /** The localizer detects exactly when some box clears the floor; the reported
      confidence then clears it too and bounds every box that cleared it. */
  lemma DetectAgainstFloor(raw: seq<Candidate>)
    ensures Detect(raw).isDetected <==> exists b :: b in raw && b.conf > Config.ConfThreshold
    ensures Detect(raw).isDetected ==>
      Detect(raw).confidence > Config.ConfThreshold && |Detect(raw).bbox.value| == 4
    ensures forall b :: b in raw && b.conf > Config.ConfThreshold ==> b.conf <= Detect(raw).confidence
  {
    var kept := AboveFloor(raw, Config.ConfThreshold);
    var r := Predict(kept);
    if |kept| > 0 {
      assert kept[0] in raw;
      var k :| 0 <= k < |kept| && r.confidence == kept[k].conf
               && forall j :: 0 <= j < |kept| ==> kept[j].conf <= r.confidence;
      forall b | b in raw && b.conf > Config.ConfThreshold ensures b.conf <= r.confidence {
        assert b in kept;
      }
    }
  }

  /** A single candidate at 0.30 against the 0.25 floor is detected with its confidence;
      one at 0.20 is not. */
  lemma FloorScenarios(b: Candidate)
    ensures b.conf == 0.30 ==> Detect([b]).isDetected && Detect([b]).confidence == 0.30
    ensures b.conf == 0.20 ==> !Detect([b]).isDetected && Detect([b]).confidence == 0.0
  {
    if b.conf == 0.30 {
      assert AboveFloor([b], Config.ConfThreshold) == [b];
    }
    if b.conf == 0.20 {
      assert AboveFloor([b], Config.ConfThreshold) == [];
    }
  }
}
