/** Enums and records of the diagnostic pipeline (schemas.py). */
module Schemas {
  import opened Wrappers

  /** Graded classification outcome (`DiagnosisStatus`). */
  datatype DiagnosisStatus = NotDetected | Risk | Detected | Unknown {
    /** The enum's string value. */
    function Wire(): string {
      match this
      case NotDetected => "Not-Detected"
      case Risk => "Risk"
      case Detected => "Detected"
      case Unknown => "Unknown"
    }
  }

  /** Decoding a string value: exactly the member whose value it is, if any. */
  function ParseDiagnosisStatus(w: string): (r: Option<DiagnosisStatus>)
    ensures forall s: DiagnosisStatus {:trigger s.Wire()} :: r == Some(s) <==> s.Wire() == w
  {
    if w == "Not-Detected" then Some(NotDetected)
    else if w == "Risk" then Some(Risk)
    else if w == "Detected" then Some(Detected)
    else if w == "Unknown" then Some(Unknown)
    else None
  }

  /** Lifecycle position of a report (`ProcessStatus`). */
  datatype ProcessStatus = ProcessingYolo | WaitingUser | ProcessingCnn | Completed | Failed {
    function Wire(): string {
      match this
      case ProcessingYolo => "processing_yolo"
      case WaitingUser => "waiting_for_user"
      case ProcessingCnn => "processing_cnn"
      case Completed => "completed"
      case Failed => "failed"
    }
  }

  function ParseProcessStatus(w: string): (r: Option<ProcessStatus>)
    ensures forall s: ProcessStatus {:trigger s.Wire()} :: r == Some(s) <==> s.Wire() == w
  {
    if w == "processing_yolo" then Some(ProcessingYolo)
    else if w == "waiting_for_user" then Some(WaitingUser)
    else if w == "processing_cnn" then Some(ProcessingCnn)
    else if w == "completed" then Some(Completed)
    else if w == "failed" then Some(Failed)
    else None
  }

  /** The condition a classification points at (`DiseaseType`). */
  datatype DiseaseType = Cataract | Conjunctivitis | NoDisease {
    function Wire(): string {
      match this
      case Cataract => "Cataract"
      case Conjunctivitis => "Conjunctivitis"
      case NoDisease => "None"
    }
  }

  function ParseDiseaseType(w: string): (r: Option<DiseaseType>)
    ensures forall d: DiseaseType {:trigger d.Wire()} :: r == Some(d) <==> d.Wire() == w
  {
    if w == "Cataract" then Some(Cataract)
    else if w == "Conjunctivitis" then Some(Conjunctivitis)
    else if w == "None" then Some(NoDisease)
    else None
  }

  /** Distinct members carry distinct string values, for all three enums. */
  lemma WireStringsDistinct()
    ensures forall a: DiagnosisStatus, b: DiagnosisStatus {:trigger a.Wire(), b.Wire()} :: a.Wire() == b.Wire() ==> a == b
    ensures forall a: ProcessStatus, b: ProcessStatus {:trigger a.Wire(), b.Wire()} :: a.Wire() == b.Wire() ==> a == b
    ensures forall a: DiseaseType, b: DiseaseType {:trigger a.Wire(), b.Wire()} :: a.Wire() == b.Wire() ==> a == b
  {
    forall a: DiagnosisStatus, b: DiagnosisStatus | a.Wire() == b.Wire() ensures a == b {
      assert ParseDiagnosisStatus(a.Wire()) == Some(a);
    }
    forall a: ProcessStatus, b: ProcessStatus | a.Wire() == b.Wire() ensures a == b {
      assert ParseProcessStatus(a.Wire()) == Some(a);
    }
    forall a: DiseaseType, b: DiseaseType | a.Wire() == b.Wire() ensures a == b {
      assert ParseDiseaseType(a.Wire()) == Some(a);
    }
  }

  /** Phase-1 fragment (`YoloResult`); `bbox` is `[x1, y1, x2, y2]`. */
  datatype YoloResult = YoloResult(
    isDetected: bool,
    confidence: real,
    bbox: Option<seq<int>> := None,
    cropImageUrl: Option<string> := None)

  /** Phase-2 fragment (`CnnResult`). */
  datatype CnnResult = CnnResult(
    status: DiagnosisStatus,
    disease: DiseaseType,
    confidence: real,
    probCataract: real,
    probConjunctivitis: real,
    heatmapImageUrl: Option<string> := None)

  /** The persisted report (`DiagnosticReport`). The creation time, a clock reading in the
      source's default factory, is an explicit argument here. */
  datatype DiagnosticReport = DiagnosticReport(
    reportId: string,
    userId: string,
    timestamp: int,
    currentStatus: ProcessStatus,
    originalImageUrl: string,
    yoloResult: Option<YoloResult> := None,
    cnnResult: Option<CnnResult> := None,
    suggestion: Option<string> := None)

  /** The optional fields of the three records default to absent. */
  lemma RecordDefaults(det: bool, conf: real, s: DiagnosisStatus, d: DiseaseType, p: real, q: real,
                       id: string, user: string, ts: int, st: ProcessStatus, url: string)
    ensures YoloResult(det, conf).bbox == None && YoloResult(det, conf).cropImageUrl == None
    ensures CnnResult(s, d, conf, p, q).heatmapImageUrl == None
    ensures var r := DiagnosticReport(id, user, ts, st, url);
            r.yoloResult == None && r.cnnResult == None && r.suggestion == None
  {
  }
}
