/** The classifier around the DenseNet (models/classify.py): letterboxing the crop, the
    dominant-condition choice, the dual-threshold status and the Grad-CAM gate. The
    network, `cv2.resize` and the overlay rendering are oracles given to the model. */
module Classify {
  import opened Wrappers
  import opened Schemas
  import Config
  import GradCam

  newtype byte = x: int | 0 <= x < 256

  /** One BGR pixel of an 8-bit colour image. */
  datatype Pixel = Pixel(b: byte, g: byte, r: byte)

  /** The neutral grey used for padding, 127 in every channel. */
  const Gray := Pixel(127, 127, 127)

  /** An image as rows of pixels. */
  type Image = seq<seq<Pixel>>

  /** `img` has `h` rows of `w` pixels. */
  ghost predicate HasShape(img: Image, h: nat, w: nat) {
    |img| == h && forall y :: 0 <= y < h ==> |img[y]| == w
  }

  /** A decoded image: at least one pixel, every row as wide as the first. */
  ghost predicate IsImage(img: Image) {
    |img| >= 1 && |img[0]| >= 1 && HasShape(img, |img|, |img[0]|)
  }

  /** `cv2.resize(image, (w, h))`: an oracle whose result, for a positive size, has that size. */
  type Resizer = (Image, nat, nat) -> Image

  ghost predicate ResizesTo(resize: Resizer) {
    forall img, w: nat, h: nat {:trigger resize(img, w, h)} :: w > 0 && h > 0 ==> HasShape(resize(img, w, h), h, w)
  }

  /** Where the resized image goes on the canvas. */
  datatype Letterbox = Letterbox(newW: nat, newH: nat, xOffset: nat, yOffset: nat)

  function MinReal(a: real, b: real): real {
    if a <= b then a else b
  }

  /** The scale `min(target_w / w, target_h / h)`. */
  function Scale(h: nat, w: nat, targetW: nat, targetH: nat): real
    requires h > 0 && w > 0
  {
    MinReal(targetW as real / w as real, targetH as real / h as real)
  }

  lemma ScaledFits(side: nat, s: real, target: nat)
    requires side > 0 && 0.0 <= s <= target as real / side as real
    ensures side as real * s <= target as real
    ensures s == target as real / side as real ==> side as real * s == target as real
  {
  }

  /** The letterbox geometry: both sides scaled by the same factor and truncated, so the
      resized image fits the target and its longer side fills it, centred with the
      offsets rounded down. */
  function Geometry(h: nat, w: nat, targetW: nat, targetH: nat): (g: Letterbox)
    requires h > 0 && w > 0
    ensures var s := Scale(h, w, targetW, targetH);
            g.newW as real <= w as real * s < g.newW as real + 1.0
            && g.newH as real <= h as real * s < g.newH as real + 1.0
    ensures g.newW <= targetW && g.newH <= targetH
    ensures g.newW == targetW || g.newH == targetH
    ensures g.xOffset + g.newW <= targetW && g.yOffset + g.newH <= targetH
    ensures targetW - g.newW - 2 * g.xOffset in {0, 1} && targetH - g.newH - 2 * g.yOffset in {0, 1}
  {
    var s := Scale(h, w, targetW, targetH);
    ScaledFits(w, s, targetW);
    ScaledFits(h, s, targetH);
    var newW := (w as real * s).Floor;
    var newH := (h as real * s).Floor;
    Letterbox(newW, newH, (targetW - newW) / 2, (targetH - newH) / 2)
  }

  /** Cell (`y`, `x`) lies in the slot the resized image is pasted into. */
  predicate InSlot(g: Letterbox, y: int, x: int) {
    g.yOffset <= y < g.yOffset + g.newH && g.xOffset <= x < g.xOffset + g.newW
  }

  /** The letterboxed canvas: grey everywhere except the pasted rectangle, which holds the
      resized image. */
  function Letterboxed(g: Letterbox, resized: Image, targetW: nat, targetH: nat): (canvas: Image)
    requires HasShape(resized, g.newH, g.newW)
    requires g.xOffset + g.newW <= targetW && g.yOffset + g.newH <= targetH
    ensures HasShape(canvas, targetH, targetW)
  {
    seq(targetH, y requires 0 <= y < targetH =>
      seq(targetW, x requires 0 <= x < targetW =>
        if InSlot(g, y, x) then resized[y - g.yOffset][x - g.xOffset] else Gray))
  }

  /** The rows of a two-dimensional pixel array. */
  function Grid(a: array2<Pixel>): (img: Image)
    reads a
    ensures HasShape(img, a.Length0, a.Length1)
  {
    seq(a.Length0, y requires 0 <= y < a.Length0 reads a =>
      seq(a.Length1, x requires 0 <= x < a.Length1 reads a => a[y, x]))
  }

  /** A canvas that is grey outside the slot and holds `resized` inside it is the letterboxed image. */
  lemma CanvasIsLetterboxed(c: array2<Pixel>, g: Letterbox, resized: Image)
    requires HasShape(resized, g.newH, g.newW)
    requires g.xOffset + g.newW <= c.Length1 && g.yOffset + g.newH <= c.Length0
    requires forall y, x :: 0 <= y < c.Length0 && 0 <= x < c.Length1 && !InSlot(g, y, x) ==> c[y, x] == Gray
    requires forall y, x :: InSlot(g, y, x) ==> c[y, x] == resized[y - g.yOffset][x - g.xOffset]
    ensures Grid(c) == Letterboxed(g, resized, c.Length1, c.Length0)
  {
    var l := Letterboxed(g, resized, c.Length1, c.Length0);
    forall y | 0 <= y < c.Length0 ensures Grid(c)[y] == l[y] {
      assert forall x :: 0 <= x < c.Length1 ==> Grid(c)[y][x] == l[y][x];
    }
  }

  /** Why a call into the classifier raised. */
  datatype Fault = ResizeFailed

  /** `_resize_with_gray_padding`: fills a `targetH` by `targetW` canvas with grey and writes
      the resized image into its centred slot. `cv2.resize` raises when a side truncates
      to zero, which gives `None`. */
  method ResizeWithGrayPadding(image: Image, resize: Resizer, targetW: nat := 224, targetH: nat := 224)
    returns (canvas: Option<array2<Pixel>>)
    requires IsImage(image) && ResizesTo(resize)
    ensures var g := Geometry(|image|, |image[0]|, targetW, targetH);
            canvas.None? <==> g.newW == 0 || g.newH == 0
    ensures canvas.Some? ==> fresh(canvas.value)
    ensures canvas.Some? ==>
      var g := Geometry(|image|, |image[0]|, targetW, targetH);
      var resized := resize(image, g.newW, g.newH);
      var c := canvas.value;
      && c.Length0 == targetH && c.Length1 == targetW
      && (forall y, x :: 0 <= y < targetH && 0 <= x < targetW && !InSlot(g, y, x) ==> c[y, x] == Gray)
      && (forall y, x :: InSlot(g, y, x) ==> c[y, x] == resized[y - g.yOffset][x - g.xOffset])
      && Grid(c) == Letterboxed(g, resized, targetW, targetH)
  {
    var g := Geometry(|image|, |image[0]|, targetW, targetH);
    if g.newW == 0 || g.newH == 0 {
      return None;
    }
    var resized := resize(image, g.newW, g.newH);
    var c := new Pixel[targetH, targetW]((y, x) => Gray);
    forall y, x | g.yOffset <= y < g.yOffset + g.newH && g.xOffset <= x < g.xOffset + g.newW {
      c[y, x] := resized[y - g.yOffset][x - g.xOffset];
    }
    assert forall y, x :: InSlot(g, y, x) ==> c[y, x] == resized[y - g.yOffset][x - g.xOffset];
    CanvasIsLetterboxed(c, g, resized);
    canvas := Some(c);
  }

  /** The condition the classification points at, its probability and the output index
      whose logit is back-propagated. */
  datatype Dominance = Dominance(disease: DiseaseType, prob: real, targetIdx: nat)

  /** Cataract dominates only when strictly more probable; a tie goes to conjunctivitis. */
  function Dominant(pCat: real, pConj: real): (d: Dominance)
    ensures d.disease == Cataract <==> pCat > pConj
    ensures d.disease == Conjunctivitis <==> pCat <= pConj
    ensures d.prob >= pCat && d.prob >= pConj && (d.prob == pCat || d.prob == pConj)
    ensures d.targetIdx == (if pCat > pConj then 0 else 1)
  {
    if pCat > pConj then Dominance(Cataract, pCat, 0) else Dominance(Conjunctivitis, pConj, 1)
  }

  /** The dual-threshold status of the dominant probability; each cut point belongs to the
      higher bucket. */
  function StatusFor(p: real): (s: DiagnosisStatus)
    ensures s == Detected <==> p >= Config.ThreshHigh
    ensures s == Risk <==> Config.ThreshLow <= p < Config.ThreshHigh
    ensures s == NotDetected <==> p < Config.ThreshLow
  {
    if p >= Config.ThreshHigh then Detected
    else if p >= Config.ThreshLow then Risk
    else NotDetected
  }

  /** The boundary cases of the thresholds: 0.75 is detected, 0.40 is a risk, 0.39 is not detected. */
  lemma ThresholdScenarios()
    ensures StatusFor(0.75) == Detected && StatusFor(0.40) == Risk && StatusFor(0.39) == NotDetected
  {
  }

  /** Grad-CAM is computed only for a risk or a detection. */
  predicate NeedsHeatmap(s: DiagnosisStatus) {
    s == Risk || s == Detected
  }

  /** The result record `predict` returns for the two probabilities. */
  function Outcome(pCat: real, pConj: real): (r: CnnResult)
    ensures r.disease != NoDisease && r.status != Unknown
    ensures r.confidence >= pCat && r.confidence >= pConj && (r.confidence == pCat || r.confidence == pConj)
    ensures r.disease == Cataract <==> pCat > pConj
    ensures r.status == StatusFor(r.confidence)
    ensures r.probCataract == pCat && r.probConjunctivitis == pConj
    ensures r.heatmapImageUrl == None
  {
    var d := Dominant(pCat, pConj);
    CnnResult(
      status := StatusFor(d.prob),
      disease := d.disease,
      confidence := d.prob,
      probCataract := pCat,
      probConjunctivitis := pConj,
      heatmapImageUrl := None)
  }

  /** What the network's forward pass yields on the padded crop: the two sigmoid outputs
      and the last feature activations. */
  datatype NetOutput = NetOutput(pCat: real, pConj: real, features: Option<GradCam.Tensor>)

  /** `predict`'s result: the record and, for a risk or a detection, the overlay image. */
  datatype Prediction = Prediction(result: CnnResult, heatmapImage: Option<Image>)

  /** The loaded classifier. Its parts are fixed after loading. */
  class ClassifyModel {
    /** `cv2.resize`. */
    const resize: Resizer
    /** The DenseNet forward pass (preprocessing included) on a padded crop. */
    const forward: Image -> NetOutput
    /** The gradient of output `i`'s logit with respect to the features, for a padded crop. */
    const backward: (Image, nat) -> Option<GradCam.Tensor>
    /** Resizing a map to the crop, the colour map and the 0.6/0.4 blend with the crop. */
    const render: (Image, seq<real>) -> Image

    ghost predicate Valid() {
      && ResizesTo(resize)
      && forall img, i {:trigger backward(img, i)} ::
           forward(img).features.Some? && backward(img, i).Some? ==>
             GradCam.Compatible(forward(img).features.value, backward(img, i).value)
    }

    constructor(resize: Resizer, forward: Image -> NetOutput,
                backward: (Image, nat) -> Option<GradCam.Tensor>, render: (Image, seq<real>) -> Image)
      ensures this.resize == resize && this.forward == forward
      ensures this.backward == backward && this.render == render
    {
      this.resize := resize;
      this.forward := forward;
      this.backward := backward;
      this.render := render;
    }

    /** The overlay for a padded crop, present only when Grad-CAM had both inputs. */
    ghost function Overlay(crop: Image, padded: Image, targetIdx: nat): Option<Image>
      requires Valid()
    {
      var f := forward(padded).features;
      var g := backward(padded, targetIdx);
      if f.Some? && g.Some? then Some(render(crop, GradCam.Heatmap(f.value, g.value))) else None
    }

    /** The letterboxed crop the network sees, when both scaled sides are positive. */
    ghost function Padded(crop: Image): (padded: Image)
      requires Valid() && IsImage(crop)
      requires Geometry(|crop|, |crop[0]|, 224, 224).newW > 0 && Geometry(|crop|, |crop[0]|, 224, 224).newH > 0
      ensures HasShape(padded, 224, 224)
    {
      var g := Geometry(|crop|, |crop[0]|, 224, 224);
      Letterboxed(g, resize(crop, g.newW, g.newH), 224, 224)
    }

    /** What `predict` returns for a crop: the outcome of the network's two probabilities on
        the letterboxed crop and, for a risk or a detection, the overlay of the dominant
        output's Grad-CAM map. */
    ghost function Classification(crop: Image): (r: Result<Prediction, Fault>)
      requires Valid() && IsImage(crop)
      ensures r.Err? <==> Geometry(|crop|, |crop[0]|, 224, 224).newW == 0 || Geometry(|crop|, |crop[0]|, 224, 224).newH == 0
      ensures r.Ok? ==>
        var out := forward(Padded(crop));
        && r.value.result == Outcome(out.pCat, out.pConj)
        && (NeedsHeatmap(r.value.result.status) ==>
              r.value.heatmapImage == Overlay(crop, Padded(crop), Dominant(out.pCat, out.pConj).targetIdx))
        && (!NeedsHeatmap(r.value.result.status) ==> r.value.heatmapImage == None)
      ensures r.Ok? ==> r.value.result.heatmapImageUrl == None
      ensures r.Ok? ==> r.value.result.disease != NoDisease && r.value.result.status != Unknown
    {
      var g := Geometry(|crop|, |crop[0]|, 224, 224);
      if g.newW == 0 || g.newH == 0 then Err(ResizeFailed)
      else
        var padded := Padded(crop);
        var out := forward(padded);
        var result := Outcome(out.pCat, out.pConj);
        var heat := if NeedsHeatmap(result.status)
                    then Overlay(crop, padded, Dominant(out.pCat, out.pConj).targetIdx)
                    else None;
        Ok(Prediction(result, heat))
    }

    /** An overlay is the rendering of a Grad-CAM map whose cells lie in [0, 1]. */
    lemma OverlayRendersUnitMap(crop: Image, padded: Image, targetIdx: nat)
      requires Valid()
      requires Overlay(crop, padded, targetIdx).Some?
      ensures exists h: seq<real> :: Overlay(crop, padded, targetIdx) == Some(render(crop, h))
                && forall k :: 0 <= k < |h| ==> 0.0 <= h[k] <= 1.0
    {
      var f, g := forward(padded).features.value, backward(padded, targetIdx).value;
      GradCam.HeatmapInUnitRange(f, g);
      var h := GradCam.Heatmap(f, g);
      assert Overlay(crop, padded, targetIdx) == Some(render(crop, h));
    }

    /** `ClassifyModel.predict`. */
    method Predict(crop: Image) returns (r: Result<Prediction, Fault>)
      requires Valid() && IsImage(crop)
      ensures r == Classification(crop)
    {
      // 1. letterbox the crop
      var canvas := ResizeWithGrayPadding(crop, resize);
      if canvas.None? {
        return Err(ResizeFailed);
      }
      var padded := Grid(canvas.value);
      // 3. forward pass
      var out := forward(padded);
      var pCat, pConj := out.pCat, out.pConj;
      // 4. dominant condition
      var d := Dominant(pCat, pConj);
      // 5. dual threshold
      var status := StatusFor(d.prob);
      // 6. Grad-CAM for a risk or a detection
      var heatmapImg: Option<Image> := None;
      if status == Risk || status == Detected {
        var gradients := backward(padded, d.targetIdx);
        var rawHeatmap := GradCam.Generate(out.features, gradients);
        if rawHeatmap.Some? {
          heatmapImg := Some(render(crop, rawHeatmap.value));
        }
      }
      r := Ok(Prediction(
        CnnResult(status, d.disease, d.prob, pCat, pConj, None),
        heatmapImg));
    }
  }
}
