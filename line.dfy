/** The content decisions of the LINE replies (services/line.py): which message each
    reply is, which images and texts it carries, how the history list is laid out and what
    data a questionnaire button posts back. The JSON templates' internals and the LINE API
    are not modelled; a template is only present or missing. */
module Line {
  import opened Wrappers
  import opened Schemas
  import PyStr
  import Images

  /** The loaded `themes.json` (theme name to placeholder values) and the template files
      that exist. */
  datatype Assets = Assets(themes: map<string, map<string, string>>, templates: set<string>)

  /** One row of the history list as `main.py` builds it. */
  datatype HistoryRecord = HistoryRecord(id: string, date: string, status: string, color: string)

  /** An entry of the history bubble's body. */
  datatype HistoryItem = Row(record: HistoryRecord) | Separator

  /** A quick-reply button: its label, the data it posts back and the text it shows. */
  datatype Button = Button(labelText: Option<string>, data: string, displayText: Option<string>)

  /** One quick-reply item of a questionnaire question. */
  datatype QuickItem = QuickItem(labelText: Option<string>, data: Option<string>, displayText: Option<string>)

  /** A questionnaire question: its id, optional text, the survey it belongs to, the
      question that follows and its quick-reply items. */
  datatype Question = Question(id: string, text: Option<string>, survey: Option<string>,
                               next: Option<string>, items: seq<QuickItem>)

  /** A reply message. */
  datatype Reply =
    | Text(text: string)
    | CropCard(cropUrl: string, reportId: string)
    | NormalResult(mainImage: string, shortId: string, altText: string)
    | WarningResult(mainImage: string, sub1: string, sub2: string, shortId: string,
                    theme: map<string, string>, surveyCmd: string, altText: string)
    | QuestionReply(text: string, buttons: seq<Button>)
    | HistoryList(contents: seq<HistoryItem>)
    | EmptyHistory(message: string)
    | TypeSelection

  const NoEyeText := "無法偵測到眼睛，請重新拍攝。"
  const CropFallbackText := "眼睛位置偵測完成，請確認是否進行分析？"
  const NoResultText := "分析失敗，無結果。"
  const ReportErrorText := "產生報告時發生錯誤。"
  const EmptyHistoryText := "目前尚無檢查紀錄。"
  const HistoryErrorText := "查詢紀錄時發生錯誤。"

  /** Python truthiness of an optional string. */
  predicate Truthy(s: Option<string>) {
    s.Some? && s.value != ""
  }

  /** `send_crop_confirmation`: a card showing the crop, a fallback text when the template
      cannot be loaded, and a retake request when there is no crop. */
  function CropConfirmation(assets: Assets, report: DiagnosticReport): (r: Reply)
    ensures r == Text(NoEyeText) <==> !Images.HasCrop(report)
    ensures r.CropCard? <==> Images.HasCrop(report) && "crop_confirmation.json" in assets.templates
    ensures r.CropCard? ==> r.cropUrl == report.yoloResult.value.cropImageUrl.value && r.reportId == report.reportId
    ensures Images.HasCrop(report) && "crop_confirmation.json" !in assets.templates ==> r == Text(CropFallbackText)
  {
    if !Images.HasCrop(report) then Text(NoEyeText)
    else if "crop_confirmation.json" !in assets.templates then Text(CropFallbackText)
    else CropCard(report.yoloResult.value.cropImageUrl.value, report.reportId)
  }

  /** The questionnaire command a warning card offers for a condition. */
  function SurveyCommand(d: DiseaseType): (cmd: string)
    ensures d == Cataract ==> cmd == "白內障檢測"
    ensures d == Conjunctivitis ==> cmd == "結膜炎檢測"
    ensures d == NoDisease ==> cmd == "文字問診模式"
  {
    match d
    case Cataract => "白內障檢測"
    case Conjunctivitis => "結膜炎檢測"
    case NoDisease => "文字問診模式"
  }

  /** The main image of a result card: the heatmap when there is one, else the crop. */
  function MainImage(cnn: CnnResult, y: YoloResult): (img: Option<string>)
    ensures Truthy(cnn.heatmapImageUrl) ==> img == cnn.heatmapImageUrl
    ensures !Truthy(cnn.heatmapImageUrl) ==> img == y.cropImageUrl
  {
    if Truthy(cnn.heatmapImageUrl) then cnn.heatmapImageUrl else y.cropImageUrl
  }

  /** `send_analysis_result`. `None` when it raises before its fallback can apply: a report
      with a result but no localizer part. Inside the fallback, a missing template, a
      missing `default` theme in the warning branch, or an image URL that is absent gives
      the error text. */
  function AnalysisResult(assets: Assets, report: DiagnosticReport): (r: Option<Reply>)
    ensures report.cnnResult.None? ==> r == Some(Text(NoResultText))
    ensures report.cnnResult.Some? && report.yoloResult.None? ==> r == None
    ensures report.cnnResult.Some? && report.yoloResult.Some? ==> r.Some?
    ensures r.Some? && r.value.NormalResult? ==>
      report.cnnResult.value.status == NotDetected
      && Some(r.value.mainImage) == MainImage(report.cnnResult.value, report.yoloResult.value)
      && r.value.shortId == PyStr.Take(report.reportId, 8)
    ensures r.Some? && r.value.WarningResult? ==>
      var cnn := report.cnnResult.value;
      && cnn.status != NotDetected
      && Some(r.value.mainImage) == MainImage(cnn, report.yoloResult.value)
      && Some(r.value.sub1) == report.yoloResult.value.cropImageUrl
      && r.value.sub2 == report.originalImageUrl
      && r.value.shortId == PyStr.Take(report.reportId, 8)
      && r.value.surveyCmd == SurveyCommand(cnn.disease)
      && "default" in assets.themes
      && r.value.theme == (if cnn.disease.Wire() in assets.themes then assets.themes[cnn.disease.Wire()]
                           else assets.themes["default"])
    ensures report.cnnResult.Some? && report.yoloResult.Some? && report.cnnResult.value.status == NotDetected
            && "result_normal.json" in assets.templates
            && MainImage(report.cnnResult.value, report.yoloResult.value).Some? ==>
      r.Some? && r.value.NormalResult?
    ensures report.cnnResult.Some? && report.yoloResult.Some? && report.cnnResult.value.status != NotDetected
            && "default" in assets.themes && "result_warning.json" in assets.templates
            && MainImage(report.cnnResult.value, report.yoloResult.value).Some?
            && report.yoloResult.value.cropImageUrl.Some? ==>
      r.Some? && r.value.WarningResult?
    ensures report.cnnResult.Some? && report.yoloResult.Some? && report.cnnResult.value.status == NotDetected
            && !("result_normal.json" in assets.templates
                 && MainImage(report.cnnResult.value, report.yoloResult.value).Some?) ==>
      r == Some(Text(ReportErrorText))
    ensures report.cnnResult.Some? && report.yoloResult.Some? && report.cnnResult.value.status != NotDetected
            && !("default" in assets.themes && "result_warning.json" in assets.templates
                 && MainImage(report.cnnResult.value, report.yoloResult.value).Some?
                 && report.yoloResult.value.cropImageUrl.Some?) ==>
      r == Some(Text(ReportErrorText))
    ensures r.Some? ==> r.value.Text? || r.value.NormalResult? || r.value.WarningResult?
    ensures r.Some? && r.value.Text? ==> r.value.text == NoResultText || r.value.text == ReportErrorText
  {
    if report.cnnResult.None? then Some(Text(NoResultText))
    else if report.yoloResult.None? then None
    else
      var cnn := report.cnnResult.value;
      var imgMain := MainImage(cnn, report.yoloResult.value);
      var imgSub1 := report.yoloResult.value.cropImageUrl;
      var imgSub2 := report.originalImageUrl;
      var shortId := PyStr.Take(report.reportId, 8);
      if cnn.status == NotDetected then
        if "result_normal.json" !in assets.templates || imgMain.None? then Some(Text(ReportErrorText))
        else Some(NormalResult(imgMain.value, shortId, "分析報告：檢測正常"))
      else
        // the default theme is looked up eagerly, whether or not the condition has its own
        if "default" !in assets.themes then Some(Text(ReportErrorText))
        else
          var key := if cnn.disease.Wire() in assets.themes then cnn.disease.Wire() else "default";
          var theme := assets.themes[key];
          if "result_warning.json" !in assets.templates || imgMain.None? || imgSub1.None? then Some(Text(ReportErrorText))
          else
            var title := if "DISEASE_NAME" in theme then theme["DISEASE_NAME"] else "檢測結果";
            Some(WarningResult(imgMain.value, imgSub1.value, imgSub2, shortId, theme,
                               SurveyCommand(cnn.disease), "分析報告：" + title))
  }

  /** The text a `None` renders as inside an f-string. */
  function Render(o: Option<string>): string {
    match o
    case None => "None"
    case Some(s) => s
  }

  /** The data a questionnaire button posts: its own data followed by the survey and the
      next question. */
  function PostbackData(original: string, survey: Option<string>, next: Option<string>): (d: string)
    ensures PyStr.StartsWith(d, original)
  {
    original + "&survey=" + Render(survey) + "&next=" + Render(next)
  }

  function Buttons(q: Question, items: seq<QuickItem>): (bs: seq<Button>)
    ensures |bs| == |items|
    ensures forall i :: 0 <= i < |items| ==>
      bs[i] == Button(items[i].labelText, PostbackData(items[i].data.GetOr(""), q.survey, q.next), items[i].displayText)
  {
    if |items| == 0 then []
    else [Button(items[0].labelText, PostbackData(items[0].data.GetOr(""), q.survey, q.next), items[0].displayText)]
         + Buttons(q, items[1..])
  }

  /** `send_question`: the question's text (or a default) with one button per item, or the
      bare text when there are no items. */
  function SendQuestion(q: Question): (r: Reply)
    ensures |q.items| == 0 ==> r == Text(q.text.GetOr("請回答以下問題"))
    ensures |q.items| > 0 ==> r.QuestionReply? && r.text == q.text.GetOr("請回答以下問題") && |r.buttons| == |q.items|
    ensures r.QuestionReply? ==> forall i :: 0 <= i < |r.buttons| ==>
      r.buttons[i].data == PostbackData(q.items[i].data.GetOr(""), q.survey, q.next)
  {
    var text := q.text.GetOr("請回答以下問題");
    var buttons := Buttons(q, q.items);
    if |buttons| > 0 then QuestionReply(text, buttons) else Text(text)
  }

  /** The history bubble's body for a non-empty list: rows alternating with separators,
      starting and ending with a row. */
  method HistoryContents(records: seq<HistoryRecord>) returns (contentBox: seq<HistoryItem>)
    requires |records| > 0
    ensures |contentBox| == 2 * |records| - 1
    ensures forall i :: 0 <= i < |contentBox| ==>
      contentBox[i] == if i % 2 == 0 then Row(records[i / 2]) else Separator
  {
    contentBox := [];
    var n := 0;
    while n < |records|
      invariant 0 <= n <= |records|
      invariant |contentBox| == 2 * n
      invariant forall i :: 0 <= i < |contentBox| ==>
        contentBox[i] == if i % 2 == 0 then Row(records[i / 2]) else Separator
    {
      contentBox := contentBox + [Row(records[n])];
      contentBox := contentBox + [Separator];
      n := n + 1;
    }
    // drop the trailing separator
    if |contentBox| > 0 && contentBox[|contentBox| - 1].Separator? {
      contentBox := contentBox[..|contentBox| - 1];
    }
  }

  /** `send_history_list`: the rows for the records, the placeholder message when there are
      none, or the error text when a template is missing. */
  method SendHistoryList(assets: Assets, records: seq<HistoryRecord>) returns (r: Reply)
    ensures "history_list.json" !in assets.templates ==> r == Text(HistoryErrorText)
    ensures "history_list.json" in assets.templates && |records| == 0 ==> r == EmptyHistory(EmptyHistoryText)
    ensures |records| > 0 && "history_row.json" !in assets.templates ==> r == Text(HistoryErrorText)
    ensures r.HistoryList? ==>
      |records| > 0 && |r.contents| == 2 * |records| - 1
      && forall i :: 0 <= i < |r.contents| ==>
           r.contents[i] == if i % 2 == 0 then Row(records[i / 2]) else Separator
    ensures "history_list.json" in assets.templates && "history_row.json" in assets.templates && |records| > 0 ==>
      r.HistoryList?
  {
    if "history_list.json" !in assets.templates {
      return Text(HistoryErrorText);
    }
    if |records| == 0 {
      return EmptyHistory(EmptyHistoryText);
    }
    if "history_row.json" !in assets.templates {
      return Text(HistoryErrorText);
    }
    var contents := HistoryContents(records);
    r := HistoryList(contents);
  }
}
