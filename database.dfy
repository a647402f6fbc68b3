/** The document form of a report and the record store around it (services/database.py).
    Firestore itself is a map from report id to document. */
module Database {
  import opened Wrappers
  import opened Schemas

  /** A JSON-like document value, as `model_dump(mode='json')` produces and Firestore keeps. */
  datatype Json =
    | JNull
    | JBool(b: bool)
    | JInt(i: int)
    | JNum(r: real)
    | JStr(s: string)
    | JList(items: seq<Json>)
    | JObj(fields: map<string, Json>)

  function DumpOptStr(o: Option<string>): Json {
    match o
    case None => JNull
    case Some(s) => JStr(s)
  }

  function DumpInts(xs: seq<int>): (j: Json)
    ensures j.JList? && |j.items| == |xs|
  {
    JList(seq(|xs|, i requires 0 <= i < |xs| => JInt(xs[i])))
  }

  function DumpYolo(y: YoloResult): Json {
    JObj(map[
      "is_detected" := JBool(y.isDetected),
      "confidence" := JNum(y.confidence),
      "bbox" := (match y.bbox case None => JNull case Some(b) => DumpInts(b)),
      "crop_image_url" := DumpOptStr(y.cropImageUrl)])
  }

  function DumpCnn(c: CnnResult): Json {
    JObj(map[
      "status" := JStr(c.status.Wire()),
      "disease" := JStr(c.disease.Wire()),
      "confidence" := JNum(c.confidence),
      "prob_cataract" := JNum(c.probCataract),
      "prob_conjunctivitis" := JNum(c.probConjunctivitis),
      "heatmap_image_url" := DumpOptStr(c.heatmapImageUrl)])
  }

  /** `report.model_dump(mode='json')`: every field, absent ones as null. */
  function DumpReport(r: DiagnosticReport): Json {
    JObj(map[
      "report_id" := JStr(r.reportId),
      "user_id" := JStr(r.userId),
      "timestamp" := JInt(r.timestamp),
      "current_status" := JStr(r.currentStatus.Wire()),
      "original_image_url" := JStr(r.originalImageUrl),
      "yolo_result" := (match r.yoloResult case None => JNull case Some(y) => DumpYolo(y)),
      "cnn_result" := (match r.cnnResult case None => JNull case Some(c) => DumpCnn(c)),
      "suggestion" := DumpOptStr(r.suggestion)])
  }

  /** A field read back the way a pydantic model validates it: a missing key or null gives
      the default `None`; `Some(None)` means the value had the wrong type. */
  function LoadOptStr(fields: map<string, Json>, k: string): Option<Option<string>> {
    if k !in fields || fields[k].JNull? then Some(None)
    else if fields[k].JStr? then Some(Some(fields[k].s))
    else None
  }

  function LoadStr(fields: map<string, Json>, k: string): Option<string> {
    if k in fields && fields[k].JStr? then Some(fields[k].s) else None
  }

  /** A `float` field accepts an integer as well (pydantic's lax mode). */
  function LoadReal(fields: map<string, Json>, k: string): Option<real> {
    if k in fields && fields[k].JNum? then Some(fields[k].r)
    else if k in fields && fields[k].JInt? then Some(fields[k].i as real)
    else None
  }

  function LoadInts(j: Json): (r: Option<seq<int>>)
    ensures r.Some? ==> j.JList? && |r.value| == |j.items|
  {
    if j.JList? && forall i :: 0 <= i < |j.items| ==> j.items[i].JInt? then
      Some(seq(|j.items|, i requires 0 <= i < |j.items| && j.items[i].JInt? => j.items[i].i))
    else None
  }

  function LoadYolo(j: Json): Option<YoloResult> {
    if !j.JObj? then None
    else
      var f := j.fields;
      if !("is_detected" in f && f["is_detected"].JBool?) then None
      else
        var conf := LoadReal(f, "confidence");
        var bbox := if "bbox" !in f || f["bbox"].JNull? then Some(None)
                    else match LoadInts(f["bbox"]) case None => None case Some(b) => Some(Some(b));
        var crop := LoadOptStr(f, "crop_image_url");
        if conf.None? || bbox.None? || crop.None? then None
        else Some(YoloResult(f["is_detected"].b, conf.value, bbox.value, crop.value))
  }

  function LoadCnn(j: Json): Option<CnnResult> {
    if !j.JObj? then None
    else
      var f := j.fields;
      var status := match LoadStr(f, "status") case None => None case Some(w) => ParseDiagnosisStatus(w);
      var disease := match LoadStr(f, "disease") case None => None case Some(w) => ParseDiseaseType(w);
      var conf := LoadReal(f, "confidence");
      var pc := LoadReal(f, "prob_cataract");
      var pj := LoadReal(f, "prob_conjunctivitis");
      var heat := LoadOptStr(f, "heatmap_image_url");
      if status.None? || disease.None? || conf.None? || pc.None? || pj.None? || heat.None? then None
      else Some(CnnResult(status.value, disease.value, conf.value, pc.value, pj.value, heat.value))
  }

  /** `DiagnosticReport(**data)`: `None` when validation fails (`get_report` then returns `None`). */
  function LoadReport(j: Json): Option<DiagnosticReport> {
    if !j.JObj? then None
    else
      var f := j.fields;
      var id := LoadStr(f, "report_id");
      var user := LoadStr(f, "user_id");
      var ts := if "timestamp" in f && f["timestamp"].JInt? then Some(f["timestamp"].i) else None;
      var st := match LoadStr(f, "current_status") case None => None case Some(w) => ParseProcessStatus(w);
      var orig := LoadStr(f, "original_image_url");
      var yolo := if "yolo_result" !in f || f["yolo_result"].JNull? then Some(None)
                  else match LoadYolo(f["yolo_result"]) case None => None case Some(y) => Some(Some(y));
      var cnn := if "cnn_result" !in f || f["cnn_result"].JNull? then Some(None)
                 else match LoadCnn(f["cnn_result"]) case None => None case Some(c) => Some(Some(c));
      var sug := LoadOptStr(f, "suggestion");
      if id.None? || user.None? || ts.None? || st.None? || orig.None? || yolo.None? || cnn.None? || sug.None? then None
      else Some(DiagnosticReport(id.value, user.value, ts.value, st.value, orig.value, yolo.value, cnn.value, sug.value))
  }

  lemma IntsRoundTrip(xs: seq<int>)
    ensures LoadInts(DumpInts(xs)) == Some(xs)
  {
    var j := DumpInts(xs);
    assert forall i :: 0 <= i < |j.items| ==> j.items[i] == JInt(xs[i]);
    var back := seq(|j.items|, i requires 0 <= i < |j.items| && j.items[i].JInt? => j.items[i].i);
    assert back == xs;
  }

  lemma YoloRoundTrip(y: YoloResult)
    ensures LoadYolo(DumpYolo(y)) == Some(y)
  {
    if y.bbox.Some? {
      IntsRoundTrip(y.bbox.value);
    }
  }

  lemma CnnRoundTrip(c: CnnResult)
    ensures LoadCnn(DumpCnn(c)) == Some(c)
  {
    assert ParseDiagnosisStatus(c.status.Wire()) == Some(c.status);
    assert ParseDiseaseType(c.disease.Wire()) == Some(c.disease);
  }

  /** Each field of a dumped report reads back as the field it was dumped from. */
  lemma ReportFieldsBack(r: DiagnosticReport)
    ensures var f := DumpReport(r).fields;
      && LoadStr(f, "report_id") == Some(r.reportId)
      && LoadStr(f, "user_id") == Some(r.userId)
      && "timestamp" in f && f["timestamp"] == JInt(r.timestamp)
      && LoadStr(f, "current_status") == Some(r.currentStatus.Wire())
      && LoadStr(f, "original_image_url") == Some(r.originalImageUrl)
      && "yolo_result" in f && f["yolo_result"] == (match r.yoloResult case None => JNull case Some(y) => DumpYolo(y))
      && "cnn_result" in f && f["cnn_result"] == (match r.cnnResult case None => JNull case Some(c) => DumpCnn(c))
      && LoadOptStr(f, "suggestion") == Some(r.suggestion)
  {
  }

  /** Dumping a report and validating the document back reproduces every field,
      the nested phase results included. */
  lemma ReportRoundTrip(r: DiagnosticReport)
    ensures LoadReport(DumpReport(r)) == Some(r)
  {
    ReportFieldsBack(r);
    assert ParseProcessStatus(r.currentStatus.Wire()) == Some(r.currentStatus);
    if r.yoloResult.Some? {
      YoloRoundTrip(r.yoloResult.value);
    }
    if r.cnnResult.Some? {
      CnnRoundTrip(r.cnnResult.value);
    }
  }

  /** The report collection: document id to stored document. */
  class ReportStore {
    var docs: map<string, Json>

    constructor()
      ensures docs == map[]
    {
      docs := map[];
    }

    /** `save_report`: writes the dumped report under its id. The document carries every
        field, so a merging write replaces the stored one. */
    method SaveReport(report: DiagnosticReport) returns (ok: bool)
      modifies this
      ensures docs == old(docs)[report.reportId := DumpReport(report)]
      ensures ok
      ensures GetReport(report.reportId) == Some(report)
      ensures forall id :: id != report.reportId ==> GetReport(id) == old(GetReport(id))
    {
      docs := docs[report.reportId := DumpReport(report)];
      ok := true;
      SavedReportReadsBack(old(docs), report);
    }

    /** `get_report`: the validated document, or `None` when it is missing or invalid. */
    function GetReport(reportId: string): (r: Option<DiagnosticReport>)
      reads this
      ensures reportId in docs ==> r == LoadReport(docs[reportId])
      ensures reportId !in docs ==> r == None
    {
      if reportId in docs then LoadReport(docs[reportId]) else None
    }
  }

  /** A report that has been saved is read back unchanged under its id. */
  lemma SavedReportReadsBack(docs: map<string, Json>, r: DiagnosticReport)
    ensures var d := docs[r.reportId := DumpReport(r)];
            r.reportId in d && LoadReport(d[r.reportId]) == Some(r)
  {
    ReportRoundTrip(r);
  }
}
