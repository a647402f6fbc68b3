/** The two-phase report orchestration (services/image.py). Decoding, encoding, the
    download, the detector and the bucket's URL signing are oracles; the bucket itself is
    an object whose upload log grows. */
module Images {
  import opened Wrappers
  import opened Schemas
  import Segmentation
  import opened Classify

  type Bytes = seq<byte>

  /** One uploaded object: its folder, its owner and its bytes. The random file name is
      replaced by the upload's position in the log. */
  datatype Blob = Blob(folder: string, userId: string, data: Bytes)

  /** The storage bucket. */
  class BlobStore {
    /** Every upload, oldest first. */
    var puts: seq<Blob>
    /** The signed URL the bucket hands out for the upload at a position; `""` when
        signing fails. */
    const signedUrl: (Blob, nat) -> string

    constructor(signedUrl: (Blob, nat) -> string)
      ensures puts == [] && this.signedUrl == signedUrl
    {
      puts := [];
      this.signedUrl := signedUrl;
    }

    /** `_upload_to_gcs`: stores the bytes and returns their signed URL (or `""`). */
    method Upload(data: Bytes, folder: string, userId: string) returns (url: string)
      modifies this
      ensures puts == old(puts) + [Blob(folder, userId, data)]
      ensures url == signedUrl(Blob(folder, userId, data), |old(puts)|)
    {
      url := signedUrl(Blob(folder, userId, data), |puts|);
      puts := puts + [Blob(folder, userId, data)];
    }
  }

  /** Why a phase raised. */
  datatype PipelineError =
    | DecodeFailed              // `_bytes_to_cv2` on bytes that are no image
    | EncodeFailed              // `_cv2_to_bytes` when JPEG encoding fails
    | MissingCrop               // phase 2 on a report without a crop URL
    | DownloadFailed            // an HTTP error, or a body that is no image
    | ClassifyFailed(fault: Fault)

  /** A phase's outcome and the uploads it made, in order. */
  datatype Run = Run(result: Result<DiagnosticReport, PipelineError>, uploads: seq<Blob>)

  /** A crop box `[x1, y1, x2, y2]` in pixels. */
  datatype Box = Box(x1: int, y1: int, x2: int, y2: int)

  function MaxInt(a: int, b: int): int { if a >= b then a else b }
  function MinInt(a: int, b: int): int { if a <= b then a else b }

  /** The safe-crop clamp: a negative top-left corner moves to 0, a bottom-right corner past
      the image moves to its edge, and every other corner stays put. */
  function Clamp(b: Box, h: nat, w: nat): (c: Box)
    ensures 0 <= c.x1 && 0 <= c.y1 && c.x2 <= w && c.y2 <= h
    ensures c.x1 == (if b.x1 < 0 then 0 else b.x1)
    ensures c.y1 == (if b.y1 < 0 then 0 else b.y1)
    ensures c.x2 == (if b.x2 > w then w else b.x2)
    ensures c.y2 == (if b.y2 > h then h else b.y2)
  {
    Box(MaxInt(0, b.x1), MaxInt(0, b.y1), MinInt(w, b.x2), MinInt(h, b.y2))
  }

  /** A Python slice bound on a sequence of length `len`: a negative bound counts from the
      end, and the result lies in `0..len`. */
  function SliceIndex(i: int, len: nat): (j: nat)
    ensures j <= len
    ensures 0 <= i <= len ==> j == i
    ensures i > len ==> j == len
    ensures i < 0 && len + i >= 0 ==> j == len + i
    ensures len + i < 0 ==> j == 0
  {
    if i < 0 then MaxInt(0, len + i) else MinInt(i, len)
  }

  /** `image[y1:y2, x1:x2]` under numpy's slicing rules. */
  function Crop(img: Image, b: Box): (c: Image)
    requires IsImage(img)
  {
    var h, w := |img|, |img[0]|;
    var ys, ye := SliceIndex(b.y1, h), SliceIndex(b.y2, h);
    var xs, xe := SliceIndex(b.x1, w), SliceIndex(b.x2, w);
    seq(MaxInt(0, ye - ys), i requires 0 <= i < MaxInt(0, ye - ys) => img[ys + i][xs..MaxInt(xs, xe)])
  }

  /** A crop with positive `size`: at least one row and one column. */
  predicate NonEmpty(c: Image) {
    |c| > 0 && |c[0]| > 0
  }

  /** For corners already inside the image, the crop is exactly the window between them. */
  lemma CropIsWindow(img: Image, b: Box)
    requires IsImage(img)
    requires 0 <= b.x1 <= b.x2 <= |img[0]| && 0 <= b.y1 <= b.y2 <= |img|
    ensures HasShape(Crop(img, b), b.y2 - b.y1, b.x2 - b.x1)
    ensures forall i, j :: 0 <= i < b.y2 - b.y1 && 0 <= j < b.x2 - b.x1 ==>
              Crop(img, b)[i][j] == img[b.y1 + i][b.x1 + j]
    ensures NonEmpty(Crop(img, b)) <==> b.x1 < b.x2 && b.y1 < b.y2
  {
    var c := Crop(img, b);
    assert SliceIndex(b.y1, |img|) == b.y1 && SliceIndex(b.y2, |img|) == b.y2;
    assert SliceIndex(b.x1, |img[0]|) == b.x1 && SliceIndex(b.x2, |img[0]|) == b.x2;
    assert MaxInt(b.x1, b.x2) == b.x2 && MaxInt(0, b.y2 - b.y1) == b.y2 - b.y1;
    assert |c| == b.y2 - b.y1;
    forall i | 0 <= i < b.y2 - b.y1
      ensures |c[i]| == b.x2 - b.x1
      ensures forall j :: 0 <= j < b.x2 - b.x1 ==> c[i][j] == img[b.y1 + i][b.x1 + j]
    {
      assert |img[b.y1 + i]| == |img[0]|;
      assert c[i] == img[b.y1 + i][b.x1..b.x2];
    }
  }

  /** The box a detection reports. */
  function BoxOf(bbox: seq<int>): Box
    requires |bbox| == 4
  {
    Box(bbox[0], bbox[1], bbox[2], bbox[3])
  }

  /** The advice phase 2 attaches to a detection. */
  const HighRiskAdvice: string := "檢測到潛在高風險特徵，建議儘速就醫檢查。"

  /** A report after phase 2 has attached its classification result. */
  function Finish(report: DiagnosticReport, cnn: CnnResult): (r: DiagnosticReport)
    ensures r.cnnResult == Some(cnn) && r.currentStatus == Completed
    ensures r.suggestion == (if cnn.status == Detected then Some(HighRiskAdvice) else report.suggestion)
    ensures r.reportId == report.reportId && r.userId == report.userId && r.timestamp == report.timestamp
    ensures r.originalImageUrl == report.originalImageUrl && r.yoloResult == report.yoloResult
  {
    report.(
      cnnResult := Some(cnn),
      currentStatus := Completed,
      suggestion := if cnn.status == Detected then Some(HighRiskAdvice) else report.suggestion)
  }

  /** Phase 2 has a crop to classify: a localizer result with a non-empty crop URL. */
  predicate HasCrop(report: DiagnosticReport) {
    report.yoloResult.Some? && report.yoloResult.value.cropImageUrl.Some?
    && report.yoloResult.value.cropImageUrl.value != ""
  }

  class ImageService {
    const store: BlobStore
    /** `cv2.imdecode` of uploaded bytes; `None` when they are no image. */
    const decode: Bytes -> Option<Image>
    /** `cv2.imencode('.jpg', ...)`; `None` when encoding fails. */
    const encode: Image -> Option<Bytes>
    /** The HTTP GET of a URL and the decoding of its body; `None` on an HTTP error or a
        body that does not decode. */
    const download: string -> Option<Image>
    /** The localizer's raw candidate boxes for an image. */
    const detector: Image -> seq<Segmentation.Candidate>
    const cnn: ClassifyModel

    ghost predicate Valid() {
      && cnn.Valid()
      && (forall b {:trigger decode(b)} :: decode(b).Some? ==> IsImage(decode(b).value))
      && (forall u {:trigger download(u)} :: download(u).Some? ==> IsImage(download(u).value))
    }

    constructor(store: BlobStore, decode: Bytes -> Option<Image>, encode: Image -> Option<Bytes>,
                download: string -> Option<Image>, detector: Image -> seq<Segmentation.Candidate>,
                cnn: ClassifyModel)
      ensures this.store == store && this.decode == decode && this.encode == encode
      ensures this.download == download && this.detector == detector && this.cnn == cnn
    {
      this.store := store;
      this.decode := decode;
      this.encode := encode;
      this.download := download;
      this.detector := detector;
      this.cnn := cnn;
    }

    /** The localizer found an eye and the clamped crop of the image is non-empty. */
    ghost predicate EyeFound(img: Image)
      requires IsImage(img)
    {
      var y := Segmentation.Detect(detector(img));
      && y.isDetected && y.bbox.Some? && |y.bbox.value| == 4
      && NonEmpty(Crop(img, Clamp(BoxOf(y.bbox.value), |img|, |img[0]|)))
    }

    /** The crop phase 1 uploads: the image inside the clamped box of the detection. */
    ghost function EyeCrop(img: Image): Image
      requires IsImage(img) && EyeFound(img)
    {
      var y := Segmentation.Detect(detector(img));
      Crop(img, Clamp(BoxOf(y.bbox.value), |img|, |img[0]|))
    }

    /** Phase 1 for a user's image, given the new report's id and creation time, when the
        bucket already holds `n0` uploads. */
    ghost function YoloPhase(userId: string, imageBytes: Bytes, reportId: string, now: int, n0: nat): (run: Run)
      requires Valid()
      ensures decode(imageBytes).None? <==> run.result == Err(DecodeFailed)
      ensures decode(imageBytes).None? ==> run.uploads == []
      ensures decode(imageBytes).Some? ==>
        1 <= |run.uploads| <= 2 && run.uploads[0] == Blob("original", userId, imageBytes)
      ensures run.result.Ok? ==>
        var r := run.result.value;
        var img := decode(imageBytes).value;
        && r.reportId == reportId && r.userId == userId && r.timestamp == now
        && r.originalImageUrl == store.signedUrl(run.uploads[0], n0)
        && r.cnnResult == None && r.suggestion == None
        && r.yoloResult.Some?
        && (r.currentStatus == WaitingUser || r.currentStatus == Failed)
        && (r.currentStatus == WaitingUser <==> EyeFound(img))
        && (r.yoloResult.value.cropImageUrl.Some? <==> r.currentStatus == WaitingUser)
        && r.yoloResult.value.(cropImageUrl := None) == Segmentation.Detect(detector(img))
        && (r.currentStatus == WaitingUser ==>
              |run.uploads| == 2 && run.uploads[1].folder == "crops"
              && r.yoloResult.value.cropImageUrl == Some(store.signedUrl(run.uploads[1], n0 + 1)))
        && (r.currentStatus == Failed ==> run.uploads == [Blob("original", userId, imageBytes)])
      ensures decode(imageBytes).Some? && !EyeFound(decode(imageBytes).value) ==>
        run.result.Ok? && run.result.value.currentStatus == Failed
      ensures decode(imageBytes).Some? && EyeFound(decode(imageBytes).value) ==>
        var cropBytes := encode(EyeCrop(decode(imageBytes).value));
        && (run.result.Ok? <==> cropBytes.Some?)
        && (cropBytes.None? ==> run == Run(Err(EncodeFailed), [Blob("original", userId, imageBytes)]))
        && (cropBytes.Some? ==>
              run.result.value.currentStatus == WaitingUser
              && run.uploads[1] == Blob("crops", userId, cropBytes.value))
    {
      match decode(imageBytes)
      case None => Run(Err(DecodeFailed), [])
      case Some(img) =>
        var original := Blob("original", userId, imageBytes);
        var originalUrl := store.signedUrl(original, n0);
        var y := Segmentation.Detect(detector(img));
        Segmentation.DetectAgainstFloor(detector(img));
        var failed := DiagnosticReport(reportId, userId, now, Failed, originalUrl, Some(y), None, None);
        if y.isDetected && y.bbox.Some? && |y.bbox.value| > 0 then
          var crop := Crop(img, Clamp(BoxOf(y.bbox.value), |img|, |img[0]|));
          if NonEmpty(crop) then
            match encode(crop)
            case None => Run(Err(EncodeFailed), [original])
            case Some(cropBytes) =>
              var cropBlob := Blob("crops", userId, cropBytes);
              var cropUrl := store.signedUrl(cropBlob, n0 + 1);
              Run(Ok(DiagnosticReport(reportId, userId, now, WaitingUser, originalUrl,
                                      Some(y.(cropImageUrl := Some(cropUrl))), None, None)),
                  [original, cropBlob])
          else Run(Ok(failed), [original])
        else Run(Ok(failed), [original])
    }

    /** `run_yolo_phase`. */
    method RunYoloPhase(userId: string, imageBytes: Bytes, reportId: string, now: int)
      returns (r: Result<DiagnosticReport, PipelineError>)
      requires Valid()
      modifies store
      ensures var run := YoloPhase(userId, imageBytes, reportId, now, |old(store.puts)|);
              r == run.result && store.puts == old(store.puts) + run.uploads
    {
      ghost var n0 := |store.puts|;
      // 1. decode
      var decoded := decode(imageBytes);
      if decoded.None? {
        return Err(DecodeFailed);
      }
      var cvImage := decoded.value;
      // 2. upload the original
      var originalUrl := store.Upload(imageBytes, "original", userId);
      // 3. localizer
      var yolo := Segmentation.Detect(detector(cvImage));
      Segmentation.DetectAgainstFloor(detector(cvImage));
      // 4. decide
      var finalStatus := Failed;
      if yolo.isDetected && yolo.bbox.Some? && |yolo.bbox.value| > 0 {
        var bbox := yolo.bbox.value;
        var x1, y1, x2, y2 := bbox[0], bbox[1], bbox[2], bbox[3];
        var h, w := |cvImage|, |cvImage[0]|;
        x1, y1 := MaxInt(0, x1), MaxInt(0, y1);
        x2, y2 := MinInt(w, x2), MinInt(h, y2);
        var cropImg := Crop(cvImage, Box(x1, y1, x2, y2));
        if NonEmpty(cropImg) {
          var cropBytes := encode(cropImg);
          if cropBytes.None? {
            return Err(EncodeFailed);
          }
          var cropUrl := store.Upload(cropBytes.value, "crops", userId);
          yolo := yolo.(cropImageUrl := Some(cropUrl));
          finalStatus := WaitingUser;
        } else {
          finalStatus := Failed;
        }
      } else {
        finalStatus := Failed;
      }
      // 5. the report
      r := Ok(DiagnosticReport(
        reportId := reportId,
        userId := userId,
        timestamp := now,
        currentStatus := finalStatus,
        originalImageUrl := originalUrl,
        yoloResult := Some(yolo),
        cnnResult := None,
        suggestion := None));
    }

    /** Phase 2 on a confirmed report when the bucket already holds `n0` uploads. */
    ghost function CnnPhase(report: DiagnosticReport, n0: nat): (run: Run)
      requires Valid()
      ensures !HasCrop(report) ==> run == Run(Err(MissingCrop), [])
      ensures |run.uploads| <= 1
      ensures run.result.Ok? ==>
        var r := run.result.value;
        && r.currentStatus == Completed && r.cnnResult.Some?
        && r.reportId == report.reportId && r.userId == report.userId && r.timestamp == report.timestamp
        && r.originalImageUrl == report.originalImageUrl && r.yoloResult == report.yoloResult
        && r.suggestion == (if r.cnnResult.value.status == Detected then Some(HighRiskAdvice) else report.suggestion)
        && (r.cnnResult.value.heatmapImageUrl.Some? <==> |run.uploads| == 1)
        && (r.cnnResult.value.heatmapImageUrl.Some? ==>
              run.uploads[0].folder == "heatmaps" && run.uploads[0].userId == report.userId
              && r.cnnResult.value.heatmapImageUrl == Some(store.signedUrl(run.uploads[0], n0))
              && NeedsHeatmap(r.cnnResult.value.status))
    {
      if !HasCrop(report) then Run(Err(MissingCrop), [])
      else
        match download(report.yoloResult.value.cropImageUrl.value)
        case None => Run(Err(DownloadFailed), [])
        case Some(cropImg) =>
          match cnn.Classification(cropImg)
          case Err(f) => Run(Err(ClassifyFailed(f)), [])
          case Ok(p) =>
            if p.heatmapImage.None? then Run(Ok(Finish(report, p.result)), [])
            else
              match encode(p.heatmapImage.value)
              case None => Run(Err(EncodeFailed), [])
              case Some(heatmapBytes) =>
                var blob := Blob("heatmaps", report.userId, heatmapBytes);
                Run(Ok(Finish(report, p.result.(heatmapImageUrl := Some(store.signedUrl(blob, n0))))), [blob])
    }

    /** Phase 2 stops, uploading nothing, when the crop does not download or the
        classifier cannot letterbox it. */
    lemma CnnPhaseFailures(report: DiagnosticReport, n0: nat)
      requires Valid() && HasCrop(report)
      ensures var img := download(report.yoloResult.value.cropImageUrl.value);
        && (img.None? ==> CnnPhase(report, n0) == Run(Err(DownloadFailed), []))
        && (img.Some? && cnn.Classification(img.value).Err? ==>
              CnnPhase(report, n0) == Run(Err(ClassifyFailed(cnn.Classification(img.value).error)), []))
    {
    }

    /** On a downloaded and classified crop, phase 2 attaches exactly the classifier's
        result; it fails only when the overlay does not encode, and it uploads exactly
        when there is an overlay to upload. */
    lemma CnnPhaseAttachesClassification(report: DiagnosticReport, n0: nat, img: Image)
      requires Valid() && HasCrop(report)
      requires download(report.yoloResult.value.cropImageUrl.value) == Some(img)
      requires cnn.Classification(img).Ok?
      ensures var run, p := CnnPhase(report, n0), cnn.Classification(img).value;
        && (run.result.Ok? || run.result == Err(EncodeFailed))
        && (p.heatmapImage.None? ==> run.result.Ok?)
        && (run.result == Err(EncodeFailed) ==>
              p.heatmapImage.Some? && encode(p.heatmapImage.value).None? && run.uploads == [])
        && (run.result.Ok? ==> run.result.value == Finish(report, run.result.value.cnnResult.value)
                               && run.result.value.cnnResult.value.(heatmapImageUrl := None) == p.result)
        && (|run.uploads| == 1 <==> run.result.Ok? && p.heatmapImage.Some?)
        && (|run.uploads| == 1 ==> run.uploads[0].data == encode(p.heatmapImage.value).value)
    {
    }

    /** `run_cnn_phase`. The report's status is not consulted. */
    method RunCnnPhase(report: DiagnosticReport) returns (r: Result<DiagnosticReport, PipelineError>)
      requires Valid()
      modifies store
      ensures var run := CnnPhase(report, |old(store.puts)|);
              r == run.result && store.puts == old(store.puts) + run.uploads
    {
      if report.yoloResult.None? || report.yoloResult.value.cropImageUrl.None?
         || report.yoloResult.value.cropImageUrl.value == "" {
        return Err(MissingCrop);
      }
      // 1. download the crop
      var cropImg := download(report.yoloResult.value.cropImageUrl.value);
      if cropImg.None? {
        return Err(DownloadFailed);
      }
      // 2. classify
      var prediction := cnn.Predict(cropImg.value);
      if prediction.Err? {
        return Err(ClassifyFailed(prediction.error));
      }
      var cnnResult := prediction.value.result;
      // 3. upload the heatmap
      if prediction.value.heatmapImage.Some? {
        var heatmapBytes := encode(prediction.value.heatmapImage.value);
        if heatmapBytes.None? {
          return Err(EncodeFailed);
        }
        var heatmapUrl := store.Upload(heatmapBytes.value, "heatmaps", report.userId);
        cnnResult := cnnResult.(heatmapImageUrl := Some(heatmapUrl));
      }
      // 4. update the report
      var updated := report.(cnnResult := Some(cnnResult), currentStatus := Completed);
      if cnnResult.status == Detected {
        updated := updated.(suggestion := Some(HighRiskAdvice));
      }
      r := Ok(updated);
    }

    /** Phase 2 does not look at the report's status: a completed report is classified again. */
    lemma CnnPhaseIgnoresStatus(report: DiagnosticReport, s: ProcessStatus, n0: nat)
      requires Valid()
      ensures CnnPhase(report.(currentStatus := s), n0) == CnnPhase(report, n0)
    {
    }
  }
}
