/** The bot's event handlers (main.py): the postback parser and its dispatch, the
    per-user questionnaire state and persona map, the history rows, and the text-command
    routing. Replies are returned as values instead of being sent. */
module App {
  import opened Wrappers
  import opened Schemas
  import PyStr
  import Database
  import Images
  import Line
  import Llm

  // ---------------------------------------------------------------------------
  // Postback data: `dict(x.split('=') for x in data.split('&'))`
  // ---------------------------------------------------------------------------

  /** A piece splits on `=` into exactly a key and a value. */
  predicate WellFormedPair(piece: string) {
    |PyStr.Split(piece, '=')| == 2
  }

  function Key(piece: string): string
    requires WellFormedPair(piece)
  {
    PyStr.Split(piece, '=')[0]
  }

  function Val(piece: string): string
    requires WellFormedPair(piece)
  {
    PyStr.Split(piece, '=')[1]
  }

  /** No later piece carries the same key as piece `i`. */
  predicate LastWithKey(pieces: seq<string>, i: nat)
    requires i < |pieces| && WellFormedPair(pieces[i])
  {
    forall j :: i < j < |pieces| && WellFormedPair(pieces[j]) ==> Key(pieces[j]) != Key(pieces[i])
  }

  /** Every piece is a key and a value. */
  predicate AllPairs(pieces: seq<string>) {
    forall i :: 0 <= i < |pieces| ==> WellFormedPair(pieces[i])
  }

  /** Folding the pieces into a dictionary, left to right, onto `acc`; `None` as soon as a
      piece is not a key and a value. */
  function ParsePairs(pieces: seq<string>, acc: map<string, string>): (r: Option<map<string, string>>)
    ensures r.Some? <==> AllPairs(pieces)
    decreases |pieces|
  {
    if |pieces| == 0 then Some(acc)
    else if !WellFormedPair(pieces[0]) then None
    else
      var rest := pieces[1..];
      assert forall i :: 1 <= i < |pieces| ==> pieces[i] == rest[i - 1];
      ParsePairs(rest, acc[Key(pieces[0]) := Val(pieces[0])])
  }

  /** A key no piece mentions keeps the value it had before parsing. */
  lemma {:induction false} ParsePairsKeeps(pieces: seq<string>, acc: map<string, string>, k: string)
    requires ParsePairs(pieces, acc).Some? && k in acc
    requires forall i :: 0 <= i < |pieces| && WellFormedPair(pieces[i]) ==> Key(pieces[i]) != k
    ensures k in ParsePairs(pieces, acc).value && ParsePairs(pieces, acc).value[k] == acc[k]
    decreases |pieces|
  {
    if |pieces| > 0 {
      assert WellFormedPair(pieces[0]);
      var rest := pieces[1..];
      assert forall i :: 0 <= i < |rest| ==> rest[i] == pieces[i + 1];
      ParsePairsKeeps(rest, acc[Key(pieces[0]) := Val(pieces[0])], k);
    }
  }

  /** The value of a key is the one its last piece gives. */
  lemma {:induction false} ParsePairsLastWins(pieces: seq<string>, acc: map<string, string>, i: nat)
    requires ParsePairs(pieces, acc).Some? && i < |pieces|
    requires WellFormedPair(pieces[i]) && LastWithKey(pieces, i)
    ensures Key(pieces[i]) in ParsePairs(pieces, acc).value
    ensures ParsePairs(pieces, acc).value[Key(pieces[i])] == Val(pieces[i])
    decreases |pieces|
  {
    var rest := pieces[1..];
    assert forall j :: 0 <= j < |rest| ==> rest[j] == pieces[j + 1];
    var acc' := acc[Key(pieces[0]) := Val(pieces[0])];
    if i == 0 {
      ParsePairsKeeps(rest, acc', Key(pieces[0]));
    } else {
      ParsePairsLastWins(rest, acc', i - 1);
    }
  }

  /** The postback parser: `None` unless every `&`-separated piece is `key=value`. */
  function ParsePostback(data: string): (r: Option<map<string, string>>)
    ensures r.Some? <==> AllPairs(PyStr.Split(data, '&'))
  {
    ParsePairs(PyStr.Split(data, '&'), map[])
  }

  /** For a repeated key, the later pair wins. */
  lemma PostbackLaterKeyWins(data: string, i: nat)
    requires ParsePostback(data).Some? && i < |PyStr.Split(data, '&')|
    requires WellFormedPair(PyStr.Split(data, '&')[i]) && LastWithKey(PyStr.Split(data, '&'), i)
    ensures var piece := PyStr.Split(data, '&')[i];
            Key(piece) in ParsePostback(data).value && ParsePostback(data).value[Key(piece)] == Val(piece)
  {
    ParsePairsLastWins(PyStr.Split(data, '&'), map[], i);
  }

  /** Empty data is one empty piece, which is not a pair. */
  lemma EmptyPostbackFails()
    ensures ParsePostback("") == None
  {
    assert PyStr.Split("", '&') == [""];
    assert PyStr.Split("", '=') == [""];
  }

  /** Parsing the pieces of two lists runs the second on the first's result. */
  lemma {:induction false} ParsePairsConcat(a: seq<string>, b: seq<string>, acc: map<string, string>)
    ensures ParsePairs(a + b, acc) ==
      if ParsePairs(a, acc).None? then None else ParsePairs(b, ParsePairs(a, acc).value)
    decreases |a|
  {
    if |a| == 0 {
      assert a + b == b;
    } else {
      assert (a + b)[1..] == a[1..] + b;
      if WellFormedPair(a[0]) {
        ParsePairsConcat(a[1..], b, acc[Key(a[0]) := Val(a[0])]);
      }
    }
  }

  /** `name=value` with a value free of `=` is the pair (`name`, `value`). */
  lemma PairSplits(name: string, value: string)
    requires '=' !in name && '=' !in value
    ensures PyStr.Split(name + "=" + value, '=') == [name, value]
  {
    assert name + "=" + value == name + ['='] + value;
    PyStr.SplitAround(name, '=', value);
    PyStr.SplitNoSep(value, '=');
  }

  /** The button data splits on `&` into the original pieces and the two added pairs. */
  lemma SplitButtonData(original: string, s: string, n: string)
    requires '&' !in s && '&' !in n
    ensures PyStr.Split(original + "&survey=" + s + "&next=" + n, '&')
            == PyStr.Split(original, '&') + ["survey=" + s, "next=" + n]
  {
    var t1, t2 := "survey=" + s, "next=" + n;
    calc {
      original + "&survey=" + s + "&next=" + n;
      { assert "&survey=" == ['&'] + "survey="; assert "&next=" == ['&'] + "next="; }
      original + (['&'] + "survey=") + s + (['&'] + "next=") + n;
      original + ['&'] + (t1 + ['&'] + t2);
    }
    PyStr.SplitConcat(original, '&', t1 + ['&'] + t2);
    PyStr.SplitConcat(t1, '&', t2);
    PyStr.SplitNoSep(t1, '&');
    PyStr.SplitNoSep(t2, '&');
  }

  /** The two added pairs set `survey` and then `next`. */
  lemma ParseAddedPairs(m: map<string, string>, s: string, n: string)
    requires '=' !in s && '=' !in n
    ensures ParsePairs(["survey=" + s, "next=" + n], m) == Some(m["survey" := s]["next" := n])
  {
    PairSplits("survey", s);
    PairSplits("next", n);
    assert "survey=" + s == "survey" + "=" + s;
    assert "next=" + n == "next" + "=" + n;
    var ps := ["survey=" + s, "next=" + n];
    assert ps[1..] == ["next=" + n];
    assert ps[1..][1..] == [];
    assert Key(ps[0]) == "survey" && Val(ps[0]) == s && Key(ps[1]) == "next" && Val(ps[1]) == n;
    assert ParsePairs(ps[1..][1..], m["survey" := s]["next" := n]) == Some(m["survey" := s]["next" := n]);
    assert ParsePairs(ps[1..], m["survey" := s]) == Some(m["survey" := s]["next" := n]);
  }

  /** The data a questionnaire button posts parses back into its own pairs plus the survey
      and next-question ids, provided its own data parses and the two ids contain neither
      `&` nor `=`. */
  lemma PostbackRoundTrip(original: string, survey: Option<string>, next: Option<string>)
    requires ParsePostback(original).Some?
    requires '&' !in Line.Render(survey) && '=' !in Line.Render(survey)
    requires '&' !in Line.Render(next) && '=' !in Line.Render(next)
    ensures ParsePostback(Line.PostbackData(original, survey, next)) ==
            Some(ParsePostback(original).value["survey" := Line.Render(survey)]["next" := Line.Render(next)])
  {
    var s, n := Line.Render(survey), Line.Render(next);
    SplitButtonData(original, s, n);
    ParsePairsConcat(PyStr.Split(original, '&'), ["survey=" + s, "next=" + n], map[]);
    ParseAddedPairs(ParsePostback(original).value, s, n);
  }

  // ---------------------------------------------------------------------------
  // Postback dispatch
  // ---------------------------------------------------------------------------

  datatype PostbackRoute = ConfirmCnn | SurveyAnswer | Retry | ViewReport | UnknownAction

  function Get(params: map<string, string>, k: string): Option<string> {
    if k in params then Some(params[k]) else None
  }

  /** The branch a parsed postback takes: the image confirmation first, then a questionnaire
      answer (both `survey` and `next` present, whatever the action), then retry, then
      viewing a report. */
  function Route(params: map<string, string>): (r: PostbackRoute)
    ensures r == ConfirmCnn <==> Get(params, "action") == Some("confirm_cnn")
    ensures r == SurveyAnswer <==>
      Get(params, "action") != Some("confirm_cnn") && "survey" in params && "next" in params
    ensures r in {Retry, ViewReport, UnknownAction} <==>
      Get(params, "action") != Some("confirm_cnn") && !("survey" in params && "next" in params)
    ensures r == Retry ==> Get(params, "action") == Some("retry")
    ensures r == ViewReport ==> Get(params, "action") == Some("view_report")
    ensures r == UnknownAction ==>
      Get(params, "action") !in {Some("confirm_cnn"), Some("retry"), Some("view_report")}
  {
    var action := Get(params, "action");
    if action == Some("confirm_cnn") then ConfirmCnn
    else if "survey" in params && "next" in params then SurveyAnswer
    else if action == Some("retry") then Retry
    else if action == Some("view_report") then ViewReport
    else UnknownAction
  }

  /** A questionnaire button's data, whatever it carried, is dispatched as an answer
      unless its own action was the image confirmation. */
  lemma ButtonDataIsAnAnswer(original: string, survey: Option<string>, next: Option<string>)
    requires ParsePostback(original).Some?
    requires '&' !in Line.Render(survey) && '=' !in Line.Render(survey)
    requires '&' !in Line.Render(next) && '=' !in Line.Render(next)
    requires Get(ParsePostback(original).value, "action") != Some("confirm_cnn")
    ensures var p := ParsePostback(Line.PostbackData(original, survey, next));
            p.Some? && Route(p.value) == SurveyAnswer
            && p.value["survey"] == Line.Render(survey) && p.value["next"] == Line.Render(next)
  {
    PostbackRoundTrip(original, survey, next);
    var p := ParsePostback(original).value["survey" := Line.Render(survey)]["next" := Line.Render(next)];
    assert Get(p, "action") == Get(ParsePostback(original).value, "action");
  }

  /** One user's questionnaire progress. */
  datatype SurveyState = SurveyState(currentSurvey: string, answers: seq<map<string, string>>)

  /** The answer a postback records: its pairs without the two control keys. */
  function AnswerOf(params: map<string, string>): (a: map<string, string>)
    ensures forall k :: k in a <==> k in params && k != "survey" && k != "next"
    ensures forall k :: k in a ==> a[k] == params[k]
  {
    params - {"survey", "next"}
  }

  /** The questionnaire state once an answer is recorded: the user's state is created if
      absent and the answer appended to it. */
  function Recorded(state: map<string, SurveyState>, userId: string, params: map<string, string>)
    : (s: map<string, SurveyState>)
    requires "survey" in params
    ensures forall u :: u != userId ==> (u in s <==> u in state) && (u in s ==> s[u] == state[u])
    ensures userId in s
    ensures s[userId].currentSurvey == (if userId in state then state[userId].currentSurvey else params["survey"])
    ensures s[userId].answers == (if userId in state then state[userId].answers else []) + [AnswerOf(params)]
  {
    var current := if userId in state then state[userId] else SurveyState(params["survey"], []);
    state[userId := current.(answers := current.answers + [AnswerOf(params)])]
  }

  /** The questionnaire state after an answer: recorded, and dropped again after the last
      question. */
  function AfterAnswer(state: map<string, SurveyState>, userId: string, params: map<string, string>)
    : (s: map<string, SurveyState>)
    requires "survey" in params && "next" in params
    ensures forall u :: u != userId ==> (u in s <==> u in state) && (u in s ==> s[u] == state[u])
    ensures params["next"] == "result" <==> userId !in s
    ensures params["next"] != "result" ==> s == Recorded(state, userId, params)
  {
    var rec := Recorded(state, userId, params);
    if params["next"] == "result" then rec - {userId} else rec
  }

  // ---------------------------------------------------------------------------
  // History rows
  // ---------------------------------------------------------------------------

  const DiseaseNames: map<string, string> :=
    map["Cataract" := "白內障", "Conjunctivitis" := "結膜炎", "None" := "正常"]

  const Grey := "#aaaaaa"
  const Green := "#1DB446"
  const Red := "#D32F2F"
  const Orange := "#EF6C00"

  /** The history status text and colour of a report: pending without a result, green
      when nothing was detected, otherwise a suspicion of the condition, red for
      conjunctivitis and orange for anything else. */
  function HistoryStatus(r: DiagnosticReport): (sc: (string, string))
    ensures r.cnnResult.None? ==> sc == ("檢測中", Grey)
    ensures r.cnnResult.Some? && r.cnnResult.value.status == NotDetected ==> sc == ("正常 / 低風險", Green)
    ensures r.cnnResult.Some? && r.cnnResult.value.status != NotDetected ==>
      var d := r.cnnResult.value.disease;
      && sc.0 == "疑似" + DiseaseNames[d.Wire()]
      && (sc.1 == Red <==> d == Conjunctivitis)
      && (sc.1 == Orange <==> d != Conjunctivitis)
  {
    if r.cnnResult.None? then ("檢測中", Grey)
    else if r.cnnResult.value.status == NotDetected then ("正常 / 低風險", Green)
    else
      var wire := r.cnnResult.value.disease.Wire();
      var name := if wire in DiseaseNames then DiseaseNames[wire] else wire;
      var statusText := "疑似" + name;
      assert statusText == match r.cnnResult.value.disease
        case Cataract => "疑似白內障" case Conjunctivitis => "疑似結膜炎" case NoDisease => "疑似正常";
      NameColours();
      (statusText, if PyStr.Contains(statusText, "結膜炎") then Red else Orange)
  }

  /** A string lacking the first character of `t` does not contain `t`. */
  lemma {:induction false} LacksFirstChar(s: string, t: string)
    requires |t| > 0 && t[0] !in s
    ensures !PyStr.Contains(s, t)
    decreases |s|
  {
    if |s| >= |t| {
      assert s[..|t|][0] == s[0];
      assert forall x :: x in s[1..] ==> x in s;
      LacksFirstChar(s[1..], t);
    }
  }

  /** Only the conjunctivitis suspicion text contains the conjunctivitis name. */
  lemma NameColours()
    ensures PyStr.Contains("疑似結膜炎", "結膜炎")
    ensures !PyStr.Contains("疑似白內障", "結膜炎")
    ensures !PyStr.Contains("疑似正常", "結膜炎")
  {
    assert "疑似結膜炎"[2..][..3] == "結膜炎";
    LacksFirstChar("疑似白內障", "結膜炎");
    LacksFirstChar("疑似正常", "結膜炎");
  }

  /** The date a history row shows: the formatted local date, or the raw number when
      formatting fails. */
  function DateText(timestamp: int, formatDate: int -> Option<string>): string {
    match formatDate(timestamp)
    case Some(d) => d
    case None => PyStr.IntToStr(timestamp)
  }

  /** One history row for a report. */
  function HistoryRow(r: DiagnosticReport, formatDate: int -> Option<string>): (row: Line.HistoryRecord)
    ensures row.id == r.reportId && row.date == DateText(r.timestamp, formatDate)
    ensures (row.status, row.color) == HistoryStatus(r)
  {
    var sc := HistoryStatus(r);
    Line.HistoryRecord(r.reportId, DateText(r.timestamp, formatDate), sc.0, sc.1)
  }

  /** The `history_data` loop: one row per report, in order. */
  method BuildHistory(reports: seq<DiagnosticReport>, formatDate: int -> Option<string>)
    returns (historyData: seq<Line.HistoryRecord>)
    ensures |historyData| == |reports|
    ensures forall i :: 0 <= i < |reports| ==> historyData[i] == HistoryRow(reports[i], formatDate)
  {
    historyData := [];
    for i := 0 to |reports|
      invariant |historyData| == i
      invariant forall j :: 0 <= j < i ==> historyData[j] == HistoryRow(reports[j], formatDate)
    {
      var r := reports[i];
      var statusText, color := "檢測中", Grey;
      if r.cnnResult.Some? {
        if r.cnnResult.value.status == NotDetected {
          statusText, color := "正常 / 低風險", Green;
        } else {
          var diseaseEnumVal := r.cnnResult.value.disease.Wire();
          var diseaseName := if diseaseEnumVal in DiseaseNames then DiseaseNames[diseaseEnumVal] else diseaseEnumVal;
          statusText := "疑似" + diseaseName;
          color := if PyStr.Contains(statusText, "結膜炎") then Red else Orange;
        }
      }
      var dateStr := DateText(r.timestamp, formatDate);
      historyData := historyData + [Line.HistoryRecord(r.reportId, dateStr, statusText, color)];
    }
  }

  // ---------------------------------------------------------------------------
  // Text commands
  // ---------------------------------------------------------------------------

  datatype TextCommand =
    | StyleMenu | StartCheck | History | NearbyClinics | HealthInfo | SymptomChat
    | SwitchStyle | StartSurvey | TextMode | LateHistory | Chat

  const HistoryWords: seq<string> := ["歷史紀錄", "查詢紀錄", "History"]

  /** The branch a stripped text message takes, in the handler's order. */
  function TextRoute(text: string): (cmd: TextCommand)
    ensures cmd == StyleMenu <==> text == "風格設定"
    ensures cmd == StartCheck <==> text == "開始檢測"
    ensures cmd == History <==> text in HistoryWords
    ensures cmd == NearbyClinics <==> text == "附近診所"
    ensures cmd == HealthInfo <==> text == "衛教資訊"
    ensures cmd == SymptomChat <==> text == "症狀問答"
    ensures cmd == SwitchStyle <==> PyStr.StartsWith(text, SwitchPrefix)
    ensures cmd == StartSurvey <==> text == "白內障檢測" || text == "結膜炎檢測"
    ensures cmd == TextMode <==> text == "文字問診模式"
    ensures cmd != LateHistory
  {
    // no fixed word of the later branches starts with the switch prefix
    assert !PyStr.StartsWith("History", SwitchPrefix) by { assert "History"[0] != SwitchPrefix[0]; }
    assert !PyStr.StartsWith("白內障檢測", SwitchPrefix) by { assert "白內障檢測"[0] != SwitchPrefix[0]; }
    assert !PyStr.StartsWith("結膜炎檢測", SwitchPrefix) by { assert "結膜炎檢測"[0] != SwitchPrefix[0]; }
    assert !PyStr.StartsWith("文字問診模式", SwitchPrefix) by { assert "文字問診模式"[0] != SwitchPrefix[0]; }
    if text == "風格設定" then StyleMenu
    else if text == "開始檢測" then StartCheck
    else if text in HistoryWords then History
    else if text == "附近診所" then NearbyClinics
    else if text == "衛教資訊" then HealthInfo
    else if text == "症狀問答" then SymptomChat
    else if PyStr.StartsWith(text, "切換風格：") then SwitchStyle
    else if text in ["白內障檢測", "結膜炎檢測"] then StartSurvey
    else if text == "文字問診模式" then TextMode
    else if text in ["查詢紀錄", "歷史紀錄", "History"] then LateHistory
    else Chat
  }

  /** The second history block can never run: the first one accepts the same words. */
  lemma LateHistoryUnreachable(text: string)
    ensures TextRoute(text) != LateHistory
    ensures text in ["查詢紀錄", "歷史紀錄", "History"] ==> TextRoute(text) == History
  {
  }

  const SwitchPrefix := "切換風格："

  /** The role a style switch names: the text after the first full-width colon, up to the
      next one, stripped. */
  function SelectedRole(text: string): string
    requires PyStr.StartsWith(text, SwitchPrefix)
  {
    var rest := text[|SwitchPrefix|..];
    assert text == "切換風格" + ['：'] + rest;
    PyStr.SplitAround("切換風格", '：', rest);
    PyStr.Strip(PyStr.Split(text, '：')[1])
  }

  /** The colon-free remainder of a style switch is the role it names. */
  lemma SelectedRoleOf(role: string)
    requires '：' !in role
    ensures SelectedRole(SwitchPrefix + role) == PyStr.Strip(role)
  {
    assert SwitchPrefix + role == "切換風格" + ['：'] + role;
    PyStr.SplitAround("切換風格", '：', role);
    PyStr.SplitNoSep(role, '：');
  }

  const RoleNames: map<string, string> :=
    map["doctor" := "專業醫師", "nurse" := "溫柔護理師", "comedian" := "幽默演員", "asian_parent" := "亞洲父母"]

  /** The first question with the given id. */
  function FindQuestion(qs: seq<Line.Question>, id: string): (q: Option<Line.Question>)
    ensures q.Some? ==> exists k :: 0 <= k < |qs| && qs[k] == q.value && q.value.id == id &&
                                  forall j :: 0 <= j < k ==> qs[j].id != id
    ensures q.None? ==> forall x :: x in qs ==> x.id != id
  {
    if |qs| == 0 then None
    else if qs[0].id == id then Some(qs[0])
    else FindQuestion(qs[1..], id)
  }

  const NotFoundText := "找不到此診斷紀錄，請重新上傳。"
  const AnalysisErrorText := "分析過程中發生錯誤，請稍後再試。"
  const RetryText := "好的，請重新上傳一張清楚的眼睛照片，或輸入「白內障檢測」開始問卷。"
  const ViewNotFoundText := "找不到該筆報告資料 (可能已過期)。"
  const SummaryErrorText := "產生報告時發生錯誤，但您的回答紀錄已保存。"
  const NextMissingText := "系統錯誤：找不到下一題。"
  const InvalidRoleText := "無效的角色選擇。"
  const NoEyeFeaturesText := "未能偵測到清晰的眼睛特徵，請試著靠近一點拍攝，或調整光線後再試一次。"
  const ImageErrorText := "抱歉，圖片分析時發生錯誤，請稍後再試。"

  /** The bot: the two per-user maps it keeps in memory and the services it talks to. */
  class Bot {
    /** Each user's chosen persona. */
    var userPersonas: map<string, string>
    /** Each user's questionnaire in progress. */
    var userSurveyState: map<string, SurveyState>

    const images: Images.ImageService
    const db: Database.ReportStore
    const assets: Line.Assets
    const llm: Llm.LlmService
    /** The questionnaire files that exist, by file name, with their questions. */
    const questionnaires: map<string, seq<Line.Question>>
    /** The questionnaire-summary task prompt for a survey id and answers; `None` when
        formatting it raises. */
    const taskPrompt: (string, seq<map<string, string>>) -> Option<string>
    /** The history query over the stored documents: a user's latest reports. */
    const recentReports: (map<string, Database.Json>, string) -> seq<DiagnosticReport>
    /** `datetime.fromtimestamp(t).strftime("%Y/%m/%d")`; `None` when it raises. */
    const formatDate: int -> Option<string>

    ghost predicate Valid() {
      images.Valid()
    }

    constructor(images: Images.ImageService, db: Database.ReportStore, assets: Line.Assets, llm: Llm.LlmService,
                questionnaires: map<string, seq<Line.Question>>,
                taskPrompt: (string, seq<map<string, string>>) -> Option<string>,
                recentReports: (map<string, Database.Json>, string) -> seq<DiagnosticReport>,
                formatDate: int -> Option<string>)
      ensures userPersonas == map[] && userSurveyState == map[]
      ensures this.images == images && this.db == db && this.assets == assets && this.llm == llm
      ensures this.questionnaires == questionnaires && this.taskPrompt == taskPrompt
      ensures this.recentReports == recentReports && this.formatDate == formatDate
    {
      userPersonas := map[];
      userSurveyState := map[];
      this.images := images;
      this.db := db;
      this.assets := assets;
      this.llm := llm;
      this.questionnaires := questionnaires;
      this.taskPrompt := taskPrompt;
      this.recentReports := recentReports;
      this.formatDate := formatDate;
    }

    /** The persona a user chats with: their choice, or the doctor. */
    function Persona(userId: string): string
      reads this
    {
      if userId in userPersonas then userPersonas[userId] else "doctor"
    }

    // --- postback branches ---

    /** `confirm_cnn`: phase 2 on the stored report, the updated report saved, and the
        result card; a missing report is reported and phase 2 does not run. */
    method ConfirmAnalysis(reportId: string) returns (reply: Line.Reply)
      requires Valid()
      modifies images.store, db
      ensures old(db.GetReport(reportId)).None? ==>
        reply == Line.Text(NotFoundText) && unchanged(images.store) && unchanged(db)
      ensures old(db.GetReport(reportId)).Some? ==>
        var run := images.CnnPhase(old(db.GetReport(reportId)).value, |old(images.store.puts)|);
        && images.store.puts == old(images.store.puts) + run.uploads
        && (run.result.Err? ==> reply == Line.Text(AnalysisErrorText) && unchanged(db))
        && (run.result.Ok? ==>
              db.docs == old(db.docs)[run.result.value.reportId := Database.DumpReport(run.result.value)]
              && reply == Line.AnalysisResult(assets, run.result.value).GetOr(Line.Text(AnalysisErrorText)))
    {
      var report := db.GetReport(reportId);
      if report.None? {
        return Line.Text(NotFoundText);
      }
      var finalReport := images.RunCnnPhase(report.value);
      if finalReport.Err? {
        return Line.Text(AnalysisErrorText);
      }
      var _ := db.SaveReport(finalReport.value);
      var card := Line.AnalysisResult(assets, finalReport.value);
      if card.None? {
        return Line.Text(AnalysisErrorText);
      }
      reply := card.value;
    }

    /** A questionnaire answer: the answer recorded, then the summary after the last
        question or the next question otherwise. */
    method AnswerSurvey(userId: string, params: map<string, string>) returns (reply: Line.Reply)
      requires "survey" in params && "next" in params
      modifies this
      ensures userSurveyState == AfterAnswer(old(userSurveyState), userId, params)
      ensures userPersonas == old(userPersonas)
      ensures params["next"] == "result" ==>
        var answers := Recorded(old(userSurveyState), userId, params)[userId].answers;
        var prompt := taskPrompt(params["survey"], answers);
        reply == (if prompt.None? then Line.Text(SummaryErrorText)
                  else Line.Text(Llm.GenerateResponse(llm, prompt.value, old(Persona(userId)))))
      ensures params["next"] != "result" ==>
        var qs := if params["survey"] + ".json" in questionnaires then questionnaires[params["survey"] + ".json"] else [];
        var q := FindQuestion(qs, params["next"]);
        reply == (if q.Some? then Line.SendQuestion(q.value) else Line.Text(NextMissingText))
    {
      var surveyId := params["survey"];
      var nextQId := params["next"];
      var answerData := AnswerOf(params);
      if userId !in userSurveyState {
        userSurveyState := userSurveyState[userId := SurveyState(surveyId, [])];
      }
      var state := userSurveyState[userId];
      userSurveyState := userSurveyState[userId := state.(answers := state.answers + [answerData])];
      assert userSurveyState == Recorded(old(userSurveyState), userId, params);
      if nextQId == "result" {
        var answers := userSurveyState[userId].answers;
        var prompt := taskPrompt(surveyId, answers);
        if prompt.None? {
          reply := Line.Text(SummaryErrorText);
        } else {
          var currentPersona := Persona(userId);
          reply := Line.Text(Llm.GenerateResponse(llm, prompt.value, currentPersona));
        }
        // the state is cleared whether or not the summary succeeded
        if userId in userSurveyState {
          userSurveyState := userSurveyState - {userId};
        }
        assert userSurveyState == AfterAnswer(old(userSurveyState), userId, params);
      } else {
        var filename := surveyId + ".json";
        var questions := if filename in questionnaires then questionnaires[filename] else [];
        var nextQ := FindQuestion(questions, nextQId);
        if nextQ.Some? {
          reply := Line.SendQuestion(nextQ.value);
        } else {
          reply := Line.Text(NextMissingText);
        }
      }
    }

    /** `view_report`: the stored report's result card, or a not-found text. */
    method ShowReport(reportId: string) returns (reply: Option<Line.Reply>)
      ensures db.GetReport(reportId).None? ==> reply == Some(Line.Text(ViewNotFoundText))
      ensures db.GetReport(reportId).Some? ==> reply == Line.AnalysisResult(assets, db.GetReport(reportId).value)
    {
      var report := db.GetReport(reportId);
      if report.Some? {
        reply := Line.AnalysisResult(assets, report.value);
      } else {
        reply := Some(Line.Text(ViewNotFoundText));
      }
    }

    /** `handle_postback`: parse, then dispatch; malformed data and an unknown action
        change nothing and send nothing. */
    method HandlePostback(userId: string, data: string) returns (reply: Option<Line.Reply>)
      requires Valid()
      modifies this, images.store, db
      ensures ParsePostback(data).None? ==>
        reply == None && unchanged(this) && unchanged(images.store) && unchanged(db)
      ensures ParsePostback(data).Some? ==>
        var params := ParsePostback(data).value;
        && (Route(params) != SurveyAnswer ==> unchanged(this))
        && (Route(params) != ConfirmCnn ==> unchanged(images.store) && unchanged(db))
        && (Route(params) == ConfirmCnn && !Line.Truthy(Get(params, "report_id")) ==>
              reply == None && unchanged(images.store) && unchanged(db))
        && (Route(params) == ConfirmCnn && Line.Truthy(Get(params, "report_id"))
            && old(db.GetReport(params["report_id"])).None? ==>
              reply == Some(Line.Text(NotFoundText)) && unchanged(images.store))
        && (Route(params) == ConfirmCnn && Line.Truthy(Get(params, "report_id"))
            && old(db.GetReport(params["report_id"])).Some? ==>
              var run := images.CnnPhase(old(db.GetReport(params["report_id"])).value, |old(images.store.puts)|);
              && images.store.puts == old(images.store.puts) + run.uploads
              && (run.result.Err? ==> reply == Some(Line.Text(AnalysisErrorText)) && unchanged(db))
              && (run.result.Ok? ==>
                    db.docs == old(db.docs)[run.result.value.reportId := Database.DumpReport(run.result.value)]
                    && reply == Some(Line.AnalysisResult(assets, run.result.value).GetOr(Line.Text(AnalysisErrorText)))))
        && (Route(params) == SurveyAnswer ==>
              userSurveyState == AfterAnswer(old(userSurveyState), userId, params)
              && userPersonas == old(userPersonas))
        && (Route(params) == SurveyAnswer && params["next"] == "result" ==>
              var answers := Recorded(old(userSurveyState), userId, params)[userId].answers;
              var prompt := taskPrompt(params["survey"], answers);
              reply == Some(if prompt.None? then Line.Text(SummaryErrorText)
                            else Line.Text(Llm.GenerateResponse(llm, prompt.value, old(Persona(userId))))))
        && (Route(params) == SurveyAnswer && params["next"] != "result" ==>
              var qs := if params["survey"] + ".json" in questionnaires then questionnaires[params["survey"] + ".json"] else [];
              var q := FindQuestion(qs, params["next"]);
              reply == Some(if q.Some? then Line.SendQuestion(q.value) else Line.Text(NextMissingText)))
        && (Route(params) == Retry ==> reply == Some(Line.Text(RetryText)))
        && (Route(params) == ViewReport && Line.Truthy(Get(params, "report_id")) ==>
              reply == (if db.GetReport(params["report_id"]).None? then Some(Line.Text(ViewNotFoundText))
                        else Line.AnalysisResult(assets, db.GetReport(params["report_id"]).value)))
        && (Route(params) == ViewReport && !Line.Truthy(Get(params, "report_id")) ==> reply == None)
        && (Route(params) == UnknownAction ==> reply == None)
    {
      var parsed := ParsePostback(data);
      if parsed.None? {
        return None;
      }
      var params := parsed.value;
      var action := Get(params, "action");
      if action == Some("confirm_cnn") {
        var reportId := Get(params, "report_id");
        if Line.Truthy(reportId) {
          var r := ConfirmAnalysis(reportId.value);
          reply := Some(r);
        } else {
          reply := None;
        }
      } else if "survey" in params && "next" in params {
        var r := AnswerSurvey(userId, params);
        reply := Some(r);
      } else if action == Some("retry") {
        reply := Some(Line.Text(RetryText));
      } else if action == Some("view_report") {
        var reportId := Get(params, "report_id");
        if Line.Truthy(reportId) {
          reply := ShowReport(reportId.value);
        } else {
          reply := None;
        }
      } else {
        reply := None;
      }
    }

    // --- text branches ---

    /** The style switch: the named role is stored only when the prompts define it. */
    method SwitchPersona(userId: string, text: string) returns (reply: Line.Reply)
      requires PyStr.StartsWith(text, SwitchPrefix)
      modifies this
      ensures var role := SelectedRole(text);
              && (role in llm.prompts.roles ==>
                    userPersonas == old(userPersonas)[userId := role]
                    && reply == Line.Text("已切換為【" + (if role in RoleNames then RoleNames[role] else role) + "】風格！請把照片傳給我吧！"))
              && (role !in llm.prompts.roles ==> userPersonas == old(userPersonas) && reply == Line.Text(InvalidRoleText))
      ensures userSurveyState == old(userSurveyState)
    {
      var selectedRole := SelectedRole(text);
      if selectedRole in llm.prompts.roles {
        userPersonas := userPersonas[userId := selectedRole];
        var roleName := if selectedRole in RoleNames then RoleNames[selectedRole] else selectedRole;
        reply := Line.Text("已切換為【" + roleName + "】風格！請把照片傳給我吧！");
      } else {
        reply := Line.Text(InvalidRoleText);
      }
    }

    /** Starting a questionnaire from its file: the user's state is reset and the first
        question (`Q1`) sent; a missing file changes nothing. */
    method StartQuestionnaire(userId: string, filename: string, surveyId: string, missingText: string, noFirstText: string)
      returns (reply: Line.Reply)
      modifies this
      ensures filename !in questionnaires ==> reply == Line.Text(missingText) && unchanged(this)
      ensures filename in questionnaires ==>
        userSurveyState == old(userSurveyState)[userId := SurveyState(surveyId, [])]
        && var q := FindQuestion(questionnaires[filename], "Q1");
           reply == (if q.Some? then Line.SendQuestion(q.value) else Line.Text(noFirstText))
      ensures userPersonas == old(userPersonas)
    {
      if filename !in questionnaires {
        return Line.Text(missingText);
      }
      userSurveyState := userSurveyState[userId := SurveyState(surveyId, [])];
      var firstQ := FindQuestion(questionnaires[filename], "Q1");
      if firstQ.Some? {
        reply := Line.SendQuestion(firstQ.value);
      } else {
        reply := Line.Text(noFirstText);
      }
    }

    /** The history branch: the rows of the user's recent reports sent as the history list. */
    method ShowHistory(userId: string) returns (reply: Line.Reply)
      ensures var reports := recentReports(db.docs, userId);
              var rows := seq(|reports|, i requires 0 <= i < |reports| => HistoryRow(reports[i], formatDate));
              && ("history_list.json" !in assets.templates ==> reply == Line.Text(Line.HistoryErrorText))
              && ("history_list.json" in assets.templates && |rows| == 0 ==> reply == Line.EmptyHistory(Line.EmptyHistoryText))
              && (|rows| > 0 && "history_row.json" !in assets.templates ==> reply == Line.Text(Line.HistoryErrorText))
              && ("history_list.json" in assets.templates && "history_row.json" in assets.templates && |rows| > 0 ==>
                    reply.HistoryList? && |reply.contents| == 2 * |rows| - 1
                    && forall i :: 0 <= i < |reply.contents| ==>
                         reply.contents[i] == if i % 2 == 0 then Line.Row(rows[i / 2]) else Line.Separator)
    {
      var reports := recentReports(db.docs, userId);
      var historyData := BuildHistory(reports, formatDate);
      assert historyData == seq(|reports|, i requires 0 <= i < |reports| => HistoryRow(reports[i], formatDate));
      reply := Line.SendHistoryList(assets, historyData);
    }

    /** `handle_text_message`: strips the message and routes it. */
    method HandleText(userId: string, rawText: string) returns (reply: Line.Reply)
      modifies this
      ensures var text := PyStr.Strip(rawText);
              && (TextRoute(text) != SwitchStyle ==> userPersonas == old(userPersonas))
              && (TextRoute(text) != StartSurvey && TextRoute(text) != TextMode ==> userSurveyState == old(userSurveyState))
              && (match TextRoute(text)
                  case StyleMenu =>
                    reply == (if "type_selection.json" in assets.templates then Line.TypeSelection
                              else Line.Text("暫時無法載入風格選單。"))
                  case StartCheck => reply == Line.Text("請直接傳送一張「眼睛照片」給我進行分析 📸\n\n或者輸入「白內障檢測」/「結膜炎檢測」使用文字問卷模式。")
                  case History =>
                    var reports := recentReports(db.docs, userId);
                    var rows := seq(|reports|, i requires 0 <= i < |reports| => HistoryRow(reports[i], formatDate));
                    && ("history_list.json" !in assets.templates ==> reply == Line.Text(Line.HistoryErrorText))
                    && ("history_list.json" in assets.templates && |rows| == 0 ==> reply == Line.EmptyHistory(Line.EmptyHistoryText))
                    && (|rows| > 0 && "history_row.json" !in assets.templates ==> reply == Line.Text(Line.HistoryErrorText))
                    && ("history_list.json" in assets.templates && "history_row.json" in assets.templates && |rows| > 0 ==>
                          reply.HistoryList? && |reply.contents| == 2 * |rows| - 1
                          && forall i :: 0 <= i < |reply.contents| ==>
                               reply.contents[i] == if i % 2 == 0 then Line.Row(rows[i / 2]) else Line.Separator)
                  case NearbyClinics => reply == Line.Text("請點擊對話框左下的「+」號，選擇「位置資訊」並傳送您的位置，我將為您搜尋附近的眼科診所 🏥")
                  case HealthInfo => reply == Line.Text("【常見眼疾衛教】\n\n👁️ 白內障：水晶體混濁，造成視力模糊。\n👁️ 結膜炎：眼睛發紅、分泌物增加。\n\n請保持用眼衛生，定期檢查！")
                  case SymptomChat => reply == Line.Text("請告訴我您目前的眼睛狀況，我將為您提供初步建議。(例如：眼睛紅紅的、覺得看東西模糊...)")
                  case SwitchStyle =>
                    var role := SelectedRole(text);
                    && (role in llm.prompts.roles ==>
                          userPersonas == old(userPersonas)[userId := role]
                          && reply == Line.Text("已切換為【" + (if role in RoleNames then RoleNames[role] else role) + "】風格！請把照片傳給我吧！"))
                    && (role !in llm.prompts.roles ==> userPersonas == old(userPersonas) && reply == Line.Text(InvalidRoleText))
                  case StartSurvey =>
                    var filename := if text == "白內障檢測" then "cataract.json" else "conjunctivitis.json";
                    var surveyId := if text == "白內障檢測" then "cataract" else "conjunctivitis";
                    && (filename !in questionnaires ==> reply == Line.Text("找不到問卷檔案。") && userSurveyState == old(userSurveyState))
                    && (filename in questionnaires ==>
                          userSurveyState == old(userSurveyState)[userId := SurveyState(surveyId, [])]
                          && var q := FindQuestion(questionnaires[filename], "Q1");
                             reply == (if q.Some? then Line.SendQuestion(q.value) else Line.Text("問卷格式錯誤 (找不到 Q1)。")))
                  case TextMode =>
                    && ("text_mode_flow.json" !in questionnaires ==> reply == Line.Text("系統維護中 (找不到問卷檔案)。") && userSurveyState == old(userSurveyState))
                    && ("text_mode_flow.json" in questionnaires ==>
                          userSurveyState == old(userSurveyState)[userId := SurveyState("text_mode", [])]
                          && var q := FindQuestion(questionnaires["text_mode_flow.json"], "Q1");
                             reply == (if q.Some? then Line.SendQuestion(q.value) else Line.Text("問卷啟動失敗。")))
                  case LateHistory => false
                  case Chat => reply == Line.Text(Llm.GenerateResponse(llm, text, old(Persona(userId)))))
    {
      var text := PyStr.Strip(rawText);
      reply := RouteText(userId, text);
    }

    /** The routing of a stripped text message, branch by branch in the handler's order.
        Only the style switch touches the personas and only a questionnaire start touches
        the questionnaire state. */
    method RouteText(userId: string, text: string) returns (reply: Line.Reply)
      modifies this
      ensures TextRoute(text) != SwitchStyle ==> userPersonas == old(userPersonas)
      ensures TextRoute(text) != StartSurvey && TextRoute(text) != TextMode ==> userSurveyState == old(userSurveyState)
      ensures match TextRoute(text)
        case StyleMenu =>
          reply == (if "type_selection.json" in assets.templates then Line.TypeSelection
                    else Line.Text("暫時無法載入風格選單。"))
        case StartCheck => reply == Line.Text("請直接傳送一張「眼睛照片」給我進行分析 📸\n\n或者輸入「白內障檢測」/「結膜炎檢測」使用文字問卷模式。")
        case History =>
          var reports := recentReports(db.docs, userId);
          var rows := seq(|reports|, i requires 0 <= i < |reports| => HistoryRow(reports[i], formatDate));
          && ("history_list.json" !in assets.templates ==> reply == Line.Text(Line.HistoryErrorText))
          && ("history_list.json" in assets.templates && |rows| == 0 ==> reply == Line.EmptyHistory(Line.EmptyHistoryText))
          && (|rows| > 0 && "history_row.json" !in assets.templates ==> reply == Line.Text(Line.HistoryErrorText))
          && ("history_list.json" in assets.templates && "history_row.json" in assets.templates && |rows| > 0 ==>
                reply.HistoryList? && |reply.contents| == 2 * |rows| - 1
                && forall i :: 0 <= i < |reply.contents| ==>
                     reply.contents[i] == if i % 2 == 0 then Line.Row(rows[i / 2]) else Line.Separator)
        case NearbyClinics => reply == Line.Text("請點擊對話框左下的「+」號，選擇「位置資訊」並傳送您的位置，我將為您搜尋附近的眼科診所 🏥")
        case HealthInfo => reply == Line.Text("【常見眼疾衛教】\n\n👁️ 白內障：水晶體混濁，造成視力模糊。\n👁️ 結膜炎：眼睛發紅、分泌物增加。\n\n請保持用眼衛生，定期檢查！")
        case SymptomChat => reply == Line.Text("請告訴我您目前的眼睛狀況，我將為您提供初步建議。(例如：眼睛紅紅的、覺得看東西模糊...)")
        case SwitchStyle =>
          var role := SelectedRole(text);
          && (role in llm.prompts.roles ==>
                userPersonas == old(userPersonas)[userId := role]
                && reply == Line.Text("已切換為【" + (if role in RoleNames then RoleNames[role] else role) + "】風格！請把照片傳給我吧！"))
          && (role !in llm.prompts.roles ==> userPersonas == old(userPersonas) && reply == Line.Text(InvalidRoleText))
        case StartSurvey =>
          var filename := if text == "白內障檢測" then "cataract.json" else "conjunctivitis.json";
          var surveyId := if text == "白內障檢測" then "cataract" else "conjunctivitis";
          && (filename !in questionnaires ==> reply == Line.Text("找不到問卷檔案。") && userSurveyState == old(userSurveyState))
          && (filename in questionnaires ==>
                userSurveyState == old(userSurveyState)[userId := SurveyState(surveyId, [])]
                && var q := FindQuestion(questionnaires[filename], "Q1");
                   reply == (if q.Some? then Line.SendQuestion(q.value) else Line.Text("問卷格式錯誤 (找不到 Q1)。")))
        case TextMode =>
          && ("text_mode_flow.json" !in questionnaires ==> reply == Line.Text("系統維護中 (找不到問卷檔案)。") && userSurveyState == old(userSurveyState))
          && ("text_mode_flow.json" in questionnaires ==>
                userSurveyState == old(userSurveyState)[userId := SurveyState("text_mode", [])]
                && var q := FindQuestion(questionnaires["text_mode_flow.json"], "Q1");
                   reply == (if q.Some? then Line.SendQuestion(q.value) else Line.Text("問卷啟動失敗。")))
        case LateHistory => false
        case Chat => reply == Line.Text(Llm.GenerateResponse(llm, text, old(Persona(userId))))
    {
      match TextRoute(text)
      case StyleMenu =>
        if "type_selection.json" in assets.templates {
          reply := Line.TypeSelection;
        } else {
          reply := Line.Text("暫時無法載入風格選單。");
        }
      case StartCheck =>
        reply := Line.Text("請直接傳送一張「眼睛照片」給我進行分析 📸\n\n或者輸入「白內障檢測」/「結膜炎檢測」使用文字問卷模式。");
      case History =>
        reply := ShowHistory(userId);
      case NearbyClinics =>
        reply := Line.Text("請點擊對話框左下的「+」號，選擇「位置資訊」並傳送您的位置，我將為您搜尋附近的眼科診所 🏥");
      case HealthInfo =>
        reply := Line.Text("【常見眼疾衛教】\n\n👁️ 白內障：水晶體混濁，造成視力模糊。\n👁️ 結膜炎：眼睛發紅、分泌物增加。\n\n請保持用眼衛生，定期檢查！");
      case SymptomChat =>
        reply := Line.Text("請告訴我您目前的眼睛狀況，我將為您提供初步建議。(例如：眼睛紅紅的、覺得看東西模糊...)");
      case SwitchStyle =>
        reply := SwitchPersona(userId, text);
      case StartSurvey =>
        if text == "白內障檢測" {
          reply := StartQuestionnaire(userId, "cataract.json", "cataract", "找不到問卷檔案。", "問卷格式錯誤 (找不到 Q1)。");
        } else {
          reply := StartQuestionnaire(userId, "conjunctivitis.json", "conjunctivitis", "找不到問卷檔案。", "問卷格式錯誤 (找不到 Q1)。");
        }
      case TextMode =>
        reply := StartQuestionnaire(userId, "text_mode_flow.json", "text_mode", "系統維護中 (找不到問卷檔案)。", "問卷啟動失敗。");
      case LateHistory =>
        assert false;
      case Chat =>
        var currentPersona := Persona(userId);
        reply := Line.Text(Llm.GenerateResponse(llm, text, currentPersona));
    }

    /** `handle_image_message`: phase 1, the report saved, then the crop confirmation for a
        detection or a retake hint; any failure of phase 1 gives the apology. */
    method HandleImage(userId: string, imageBytes: Images.Bytes, reportId: string, now: int)
      returns (reply: Line.Reply)
      requires Valid()
      modifies images.store, db
      ensures var run := images.YoloPhase(userId, imageBytes, reportId, now, |old(images.store.puts)|);
              && images.store.puts == old(images.store.puts) + run.uploads
              && (run.result.Err? ==> reply == Line.Text(ImageErrorText) && unchanged(db))
              && (run.result.Ok? ==>
                    var report := run.result.value;
                    && db.docs == old(db.docs)[report.reportId := Database.DumpReport(report)]
                    && reply == (if report.yoloResult.Some? && report.yoloResult.value.isDetected
                                 then Line.CropConfirmation(assets, report)
                                 else Line.Text(NoEyeFeaturesText)))
    {
      var report := images.RunYoloPhase(userId, imageBytes, reportId, now);
      if report.Err? {
        return Line.Text(ImageErrorText);
      }
      var _ := db.SaveReport(report.value);
      if report.value.yoloResult.Some? && report.value.yoloResult.value.isDetected {
        reply := Line.CropConfirmation(assets, report.value);
      } else {
        reply := Line.Text(NoEyeFeaturesText);
      }
    }
  }
}
