# Eye-screening LINE bot: a Dafny model of its core

The bot takes a user's eye photo in two phases.

- **Phase 1** decodes the photo and uploads it. An eye localizer (a YOLO-style detector) then picks the best box above a confidence floor. The image service crops that box, uploads the crop and stores a report in the state `waiting_for_user`. Without a usable eye the report is stored as `failed`.
- **Phase 2** runs when the user confirms the crop. It downloads the crop and letterboxes it onto a 224×224 grey canvas. A two-output classifier (cataract, conjunctivitis) then gives the dominant condition and a graded status (`Not-Detected`, `Risk` or `Detected`) from two thresholds. For `Risk` and `Detected` a Grad-CAM heatmap is rendered and uploaded. The report then becomes `completed`, with a suggestion when the status is `Detected`.

Around the two phases, the chat layer does the following:

- It parses postback data (`k=v&k=v`) and dispatches it.
- It runs questionnaires: each button carries `&survey=…&next=…`, the answers accumulate per user, and a summary is produced by a language model.
- It switches the chat persona.
- It lists the user's history with a colour per outcome.
- It builds the prompt and knowledge context for the language model.

The project has one module per source file:

| Module | File | Contents |
|---|---|---|
| `Wrappers` | `wrappers.dfy` | option and result types |
| `PyStr` | `pystr.dfy` | Python's `split`, `join`, `in`, `startswith`, `strip` and `str(int)` semantics |
| `Config` | `config.dfy` | the configuration thresholds |
| `Schemas` | `schemas.dfy` | enums and records |
| `Database` | `database.dfy` | the JSON form of a report and the report store |
| `Segmentation` | `segmentation.dfy` | the localizer |
| `GradCam` | `grad_cam.dfy` | the Grad-CAM arithmetic |
| `Classify` | `classify.dfy` | letterboxing and classification |
| `Images` | `image.dfy` | the two pipeline phases |
| `Line` | `line.dfy` | reply construction |
| `Llm` | `llm.dfy` | prompt helpers |
| `App` | `app.dfy` | the event handlers of `main.py` |

Effects are modelled as follows:

- The blob store and the report store are classes whose methods update their state.
- The bot's per-user dictionaries are fields of the `App.Bot` class.
- Reports and results are values.
- Everything the core calls but does not implement is a function-valued field or parameter:
  - image decode, encode and download;
  - the detector's raw boxes;
  - the network's forward and backward passes and `cv2.resize`;
  - the colormap-and-blend rendering;
  - signed-URL generation;
  - the chat client;
  - the task-prompt formatting;
  - the date formatting;
  - the history query.

Floats are modelled as `real`. Python's `int()` on a float truncates toward zero, and `Segmentation.Trunc` defines that truncation explicitly.

Behaviour of the code worth knowing:

- **Phase 2 is not idempotent.** It runs on any report with a crop URL, whatever the report's status (`Images.ImageService.CnnPhaseIgnoresStatus`).
- **Phase 2 never marks a report `failed`.**
- **An empty signed URL still counts.** A crop upload whose signing fails returns `""`, and the report is still `waiting_for_user`.
- **A decode failure raises before any upload.**
- **The stored bounding box is the unclamped one.** Only the crop uses the clamped corners.
- **A tie goes to conjunctivitis.** Equal probabilities select conjunctivitis.
- **A heatmap needs both Grad-CAM inputs.** It also requires a `Risk` or `Detected` status.
- **The warning card fails without a `default` theme.** The `default` theme is looked up even when the condition has its own theme, so a missing `default` always gives the error text.
- **Follow-up questions are looked up by the question's own `survey` field.** Each button carries the `survey` value of the question it belongs to (services/line.py:202,216), and the answer handler loads `<survey>.json` (main.py:391,439). The `text_mode` id that the text-mode start records in the user's state is never consulted.
- **The second history block in the text handler can never run** (`App.LateHistoryUnreachable`).

## Model

| member | source | states |
|---|---|---|
| Config.ThresholdsOrdered | config.py:25-33 | the detector floor, the risk threshold and the detected threshold are strictly ordered and lie in the unit interval |
| Schemas.ParseDiagnosisStatus | schemas.py:9-13 | decoding a string value yields exactly the DiagnosisStatus member carrying that value, and nothing for other strings |
| Schemas.ParseProcessStatus | schemas.py:15-20 | decoding yields exactly the ProcessStatus member with that value |
| Schemas.ParseDiseaseType | schemas.py:22-25 | decoding yields exactly the DiseaseType member with that value; "None" is the no-disease member |
| Schemas.WireStringsDistinct | schemas.py:9-25 | distinct members of each enum have distinct string values |
| Schemas.RecordDefaults | schemas.py:30-74 | the bbox and crop URL, the heatmap URL, and a report's results and suggestion default to absent |
| Database.IntsRoundTrip | services/database.py:33 | an integer list read back from its JSON form is the same list |
| Database.YoloRoundTrip | services/database.py:33 | a localizer result read back from its JSON form is unchanged |
| Database.CnnRoundTrip | services/database.py:33 | a classifier result read back from its JSON form is unchanged, enums decoded from their values |
| Database.ReportRoundTrip | services/database.py:26-65 | a report loaded from the JSON produced when saving it equals the report |
| Database.ReportStore.SaveReport | services/database.py:26-43 | the document under the report's id becomes the report's JSON form, no other document changes, and the call succeeds; afterwards `GetReport` of that id gives back exactly the saved report and every other id reads as before |
| Database.ReportStore.GetReport | services/database.py:45-65 | nothing for a missing id; for a stored id exactly the decoding of its document, which is nothing when it does not validate |
| Database.SavedReportReadsBack | services/database.py:26-65 | after a save, the document under the report's id loads back as exactly the saved report |
| Segmentation.Trunc | models/segmentation.py:40 | Python's float-to-int conversion: the result is within one of the input, rounded toward zero |
| Segmentation.AboveFloor | models/segmentation.py:19-23 | the kept boxes are exactly those of the raw boxes whose confidence exceeds the floor |
| Segmentation.AboveFloorConcat | models/segmentation.py:19-23 | the filter keeps the detector's order: filtering a concatenation gives the filtered parts one after the other |
| Segmentation.FirstArgMax | models/segmentation.py:36 | an index of a maximum confidence, and no earlier index holds that maximum |
| Segmentation.Predict | models/segmentation.py:26-48 | not detected with confidence 0 and no bbox iff there are no boxes; otherwise the first highest-confidence box, its corners truncated; never a crop URL |
| Segmentation.DetectAgainstFloor | models/segmentation.py:19-48 | detected iff some raw box beats the floor; then the confidence beats the floor, the bbox has four corners and no box above the floor scores higher |
| Segmentation.FloorScenarios | models/segmentation.py:19-33 | a single box at 0.30 is detected with that confidence; one at 0.20 is not |
| GradCam.ConstantGradientWeight | models/grad_cam.py:17-19 | a channel whose gradient is constant over every cell gets exactly that constant as its pooled weight |
| GradCam.Relu | models/grad_cam.py:28 | the map keeps its length; a non-negative cell is kept as it is and a negative cell becomes 0 |
| GradCam.Max | models/grad_cam.py:31 | the largest cell: an element of the map that no cell exceeds |
| GradCam.NormaliseUnitRange | models/grad_cam.py:30-32 | normalising a non-negative map gives cells in [0, 1], and its largest cell becomes 1 unless the map is all zero |
| GradCam.HeatmapInUnitRange | models/grad_cam.py:17-32 | every heatmap cell lies in [0, 1], and the largest is 1 unless the map is all zero |
| GradCam.ZeroGradientsGiveZeroMap | models/grad_cam.py:17-32 | all-zero gradients give an all-zero heatmap |
| GradCam.ScaleChannels | models/grad_cam.py:22-24 | each channel row of the activation array is multiplied by its pooled weight, in place |
| GradCam.NormaliseInPlace | models/grad_cam.py:31-32 | the heatmap array becomes its normalised map |
| GradCam.Generate | models/grad_cam.py:14-32 | nothing when features or gradients are missing; otherwise the pooled-weighted channel mean passed through ReLU and normalised |
| Classify.Geometry | models/classify.py:40-49 | one scale for both sides; the resized slot fits the target and fills it along one side; offsets centre the slot to within one pixel |
| Classify.ResizeWithGrayPadding | models/classify.py:38-51 | a fresh target-sized canvas, grey outside the centred slot and holding the resized crop inside it; an error when a side scales to zero |
| Classify.CanvasIsLetterboxed | models/classify.py:46-50 | a canvas that is grey outside the slot and holds the resized pixels inside it is the letterboxed image |
| Classify.Dominant | models/classify.py:77-84 | cataract iff its probability is strictly larger (ties go to conjunctivitis); reports the larger probability and the matching output index |
| Classify.StatusFor | models/classify.py:86-93 | Detected iff p ≥ 0.75, Risk iff 0.4 ≤ p < 0.75, Not-Detected iff p < 0.4 |
| Classify.ThresholdScenarios | models/classify.py:88-93 | both cut points are inclusive: 0.75 is Detected, 0.40 is Risk, 0.39 is Not-Detected |
| Classify.Outcome | models/classify.py:74-117 | the result records both probabilities unchanged, the larger one as confidence and its threshold status; it never names no-disease or Unknown and carries no heatmap URL |
| Classify.ClassifyModel.Padded | models/classify.py:38-57 | the canvas handed to the network is 224×224 |
| Classify.ClassifyModel.Classification | models/classify.py:53-117 | an error iff a side of the letterboxed slot is zero; otherwise the result is `Outcome` of the network's two probabilities on the padded canvas, with no heatmap URL, never no-disease or Unknown; for Risk or Detected the heatmap image is the overlay of the Grad-CAM map for the dominant output, for Not-Detected there is none |
| Classify.ClassifyModel.OverlayRendersUnitMap | models/classify.py:95-108 | a heatmap image, when one is produced, is the rendering of a map whose cells lie in [0, 1] |
| Classify.ClassifyModel.Predict | models/classify.py:53-117 | returns the classification of the crop |
| Images.BlobStore.Upload | services/image.py:38-63 | logs one blob under the given folder and user and returns its signed URL, which may be empty |
| Images.Clamp | services/image.py:103-105 | `max(0, ·)` on the top-left corner and `min(w, ·)`, `min(h, ·)` on the bottom-right corner, each stated for both sides of the comparison |
| Images.SliceIndex | services/image.py:107 | Python slice-bound normalisation: a bound in [0, len] is kept, one above len becomes len, a negative one counts from the end, and one below −len becomes 0 |
| Images.CropIsWindow | services/image.py:107 | a non-empty crop of clamped corners is exactly the rows y1..y2, each cut to columns x1..x2 |
| Images.Finish | services/image.py:161-167 | the report is completed with the classifier result, the high-risk advice exactly for Detected, and every other field unchanged |
| Images.ImageService.YoloPhase | services/image.py:76-136 | described below the table |
| Images.ImageService.RunYoloPhase | services/image.py:76-136 | returns phase 1's result and appends exactly its uploads to the store |
| Images.ImageService.CnnPhase | services/image.py:141-169 | described below the table |
| Images.ImageService.RunCnnPhase | services/image.py:141-169 | returns phase 2's result and appends exactly its uploads |
| Images.ImageService.CnnPhaseFailures | services/image.py:145-155 | a download that gives nothing and a classifier error each end phase 2 with that error and no upload |
| Images.ImageService.CnnPhaseAttachesClassification | services/image.py:152-169 | after a download and a classification that succeed, phase 2 ends well or with an encode error of the heatmap; on success the report is finished with the classifier result, which differs from the classification only by the heatmap URL; exactly one upload, of the encoded heatmap, iff it ends well with a heatmap |
| Images.ImageService.CnnPhaseIgnoresStatus | services/image.py:141-163 | phase 2 gives the same outcome whatever status the incoming report carries |
| Line.CropConfirmation | services/line.py:72-107 | the retake text iff there is no usable crop URL; the crop card, with that URL and the report id, iff the template loads; the fallback text when there is a crop but the template does not load |
| Line.SurveyCommand | services/line.py:168-173 | the questionnaire command offered for each condition |
| Line.MainImage | services/line.py:121 | the heatmap URL when it is non-empty, else the crop URL |
| Line.AnalysisResult | services/line.py:112-191 | described below the table |
| Line.PostbackData | services/line.py:216 | a button's data starts with its original data |
| Line.Buttons | services/line.py:208-224 | one button per quick-reply item, keeping its label and display text, with the survey and next ids appended to its data |
| Line.SendQuestion | services/line.py:193-238 | the question text (or the default prompt); buttons for its items, or the bare text when it has none |
| Line.HistoryContents | services/line.py:258-277 | 2n−1 entries: row i at position 2i, a separator between consecutive rows |
| Line.SendHistoryList | services/line.py:241-292 | the error text when a template is missing, the empty message for no records, otherwise the rows alternating with separators |
| Llm.RoleFor | services/llm.py:51-52 | the persona's role entry, else the doctor's, else an empty entry |
| Llm.SystemPrompt | services/llm.py:49-53 | starts with the common rules (or the default line) and a blank line, followed by the selected role's prompt or nothing |
| Llm.Hits | services/llm.py:73 | exactly the texts of entries whose title, or whose text's first 20 characters, contain the keyword |
| Llm.HitsConcat | services/llm.py:73 | the hits keep the corpus order and multiplicity: the hits of two corpora one after the other are the hits of the first followed by those of the second |
| Llm.FirstHitLeads | services/llm.py:73 | the first matching entry's text comes first among the hits |
| Llm.KnowledgeContext | services/llm.py:70-74 | empty for an empty keyword or no match; for a non-empty keyword with a match, the header followed by the first two hits (or the one hit), one per line |
| Llm.SystemMessage | services/llm.py:81-83 | the system prompt, extended by a blank line and the knowledge context only for a non-empty keyword |
| Llm.GenerateResponse | services/llm.py:76-98 | an echo naming the model when the client is disabled; otherwise the stripped reply, or the apology when the call fails |
| PyStr.StripLeftCutsOnlySpace | main.py:77 | what `lstrip` cuts off is a prefix of white space, and the rest is kept as it is |
| PyStr.StripRightCutsOnlySpace | main.py:77 | what `rstrip` cuts off is a suffix of white space |
| PyStr.StripCutsOnlySpace | main.py:77 | the stripped text is an infix of the input, neither starting nor ending with white space, and everything cut off on either side is white space |
| PyStr.DigitsReadBack | main.py:126 | the digits `str` writes for a natural number read back to it and have no leading zero |
| PyStr.IntToStrReadBack | main.py:126 | `str` of an integer reads back to it: the whole string for a non-negative one, the part after the `-` for a negative one |
| PyStr.SplitJoin | main.py:351 | the pieces `str.split` yields are free of the separator, and joined back with it they give the string |
| App.ParsePairs | main.py:351 | parsing succeeds iff every piece splits at `=` into exactly two parts |
| App.ParsePairsKeeps | main.py:351 | a key that no piece names keeps its earlier value |
| App.ParsePairsLastWins | main.py:351 | a key maps to the value of the last piece naming it |
| App.ParsePostback | main.py:349-354 | the parsed dictionary when every `&`-piece is a key=value pair; otherwise nothing, and the handler stops |
| App.PostbackLaterKeyWins | main.py:351 | in a parsed postback a repeated key takes its last value |
| App.EmptyPostbackFails | main.py:350-354 | empty postback data is rejected |
| App.ParsePairsConcat | main.py:351 | parsing concatenated pieces parses the second part on the first part's map |
| App.PostbackRoundTrip | main.py:351 | data built for a quiz button parses back to its own pairs plus the survey and next ids, when those ids contain no `&` or `=` |
| App.Route | main.py:361-477 | confirmation first; then an answer whenever survey and next are both present; then retry; then view; anything else is ignored |
| App.ButtonDataIsAnAnswer | main.py:390 | a questionnaire button not carrying the confirmation action is dispatched as an answer with its survey and next ids |
| App.AnswerOf | main.py:396 | the recorded answer is the postback's pairs without `survey` and `next`, values unchanged |
| App.Recorded | main.py:398-403 | the user's state is created with the survey id if absent, and the answer is appended; other users unchanged |
| App.AfterAnswer | main.py:398-433 | the answer is recorded, and the user's state is removed exactly when next is `result`; other users unchanged |
| App.HistoryStatus | main.py:108-120 | pending grey without a result; green for Not-Detected; otherwise a suspicion of the named condition, red exactly for conjunctivitis, orange otherwise |
| App.NameColours | main.py:120 | only the conjunctivitis suspicion text contains the conjunctivitis name |
| App.HistoryRow | main.py:108-128 | a row with the report id, the formatted date (or the raw timestamp) and the report's status and colour |
| App.BuildHistory | main.py:107-128 | one row per report, in the order given |
| App.TextRoute | main.py:84-309 | the branch a stripped message takes: each fixed word selects its own branch, the switch prefix selects the style switch, the late history branch is never taken, and anything else goes to the chat model |
| App.LateHistoryUnreachable | main.py:244-302 | no text reaches the second history block; its words are taken by the first |
| App.SelectedRoleOf | main.py:157-159 | for a colon-free remainder, the selected role is the stripped remainder |
| App.FindQuestion | main.py:201 | the first question of the file with the wanted id (no earlier one has it), or nothing when none has it |
| App.Bot.ConfirmAnalysis | main.py:361-385 | not-found text and no effects for an unknown report; otherwise phase 2's uploads, then the error text, or the updated report saved and its result card |
| App.Bot.AnswerSurvey | main.py:390-452 | the state becomes AfterAnswer; the summary from the recorded answers after the last question, else the next question or the missing-question text |
| App.Bot.ShowReport | main.py:461-474 | the stored report's result card, or the not-found text |
| App.Bot.HandlePostback | main.py:344-477 | described below the table |
| App.Bot.SwitchPersona | main.py:157-176 | a role the prompts define is stored for the user and confirmed by name; any other role leaves the personas unchanged and gets the invalid-role text |
| App.Bot.StartQuestionnaire | main.py:180-242 | a missing file changes nothing and gives its text; otherwise the user's state is reset to the survey and question Q1 is sent, or the format-error text |
| App.Bot.ShowHistory | main.py:104-134 | the history list of the user's recent reports, one `HistoryRow` each in order, alternating with separators; the empty message without reports; the error text when a template is missing |
| App.Bot.RouteText | main.py:84-309 | described below the table |
| App.Bot.HandleText | main.py:75-309 | the outcome of `App.Bot.RouteText` on the stripped message |
| App.Bot.HandleImage | main.py:313-340 | the store gains exactly phase 1's uploads; on failure the apology and no save; otherwise the report is saved, then the crop confirmation if detected, else the retake hint |

`Images.ImageService.YoloPhase` (services/image.py:76-136):

- A decode failure gives an error and no upload.
- Otherwise the original photo is uploaded first.
- Without an eye (no detection, or an empty clamped crop) the phase ends well with a `failed` report and only the original upload.
- With an eye, the phase ends well iff the crop encodes; the crop is uploaded second, to folder `crops`, and the report is `waiting_for_user`. A crop that does not encode is an error after the original upload.
- The report is `waiting_for_user` iff an eye with a non-empty crop is found, and it carries a crop URL iff it is `waiting_for_user`. That URL is the second upload's signed URL. In every other case the report is `failed`.
- The localizer result is stored unclamped.
- There is no classifier result and no suggestion.

`Images.ImageService.CnnPhase` (services/image.py:141-169):

- A report without a crop URL is an error, and nothing is uploaded.
- Otherwise the report is completed with its classifier result.
- The lemmas `CnnPhaseFailures` and `CnnPhaseAttachesClassification` give the outcome of each step: the download, the classification, and the heatmap encoding.
- There is at most one upload: the heatmap, in folder `heatmaps`, exactly when a heatmap exists, and only for Risk or Detected. Its signed URL is stored in the result.

`Line.AnalysisResult` (services/line.py:112-191):

- A report without a classifier result gives the no-result text.
- A report with a result but no localizer part raises.
- A report with both parts always gets a reply.
- A Not-Detected report gives the normal card when its template and a main image are present, and the error text otherwise.
- Any other status gives the warning card, which needs the `default` theme. The card has:
  - the condition's theme, or the default theme;
  - the main image, the crop and the original photo;
  - the 8-character short id;
  - the questionnaire command.
- The warning card is produced when the `default` theme, its template, a main image and a crop URL are present, and the error text otherwise.

`App.Bot.RouteText` (main.py:84-309) gives, for each branch of `App.TextRoute`:

- the style menu, or its fallback text when the template is missing;
- the fixed replies of the check, clinic, health-information and symptom branches;
- the history list as `App.Bot.ShowHistory` states it;
- the style switch as `App.Bot.SwitchPersona` states it, on the selected role;
- a questionnaire start as `App.Bot.StartQuestionnaire` states it, with the cataract or conjunctivitis file and survey id, or with `text_mode_flow.json` and `text_mode`;
- for any other text, the chat model's answer in the user's persona.

Only the style switch changes the personas, and only a questionnaire start changes the questionnaire state.

`App.Bot.HandlePostback` (main.py:344-477):

- Malformed data changes nothing and sends nothing.
- Only an answer changes the bot state.
- Only a confirmation touches the stores.
- A confirmation without a report id sends nothing. A confirmation of an unknown report gets the not-found text. A confirmation of a stored report has the same uploads, save and reply as `App.Bot.ConfirmAnalysis`.
- An answer updates the state as `App.AfterAnswer` says, and gets the same reply as in `App.Bot.AnswerSurvey`.
- A retry gets the retake text. A view gets the report's card or the not-found text, or nothing without a report id. Every other postback gets nothing.

## Left out

- Floating point: probabilities, confidences and heatmap cells are reals, so no rounding is modelled.
- Some computations are function-valued parameters:
  - the detector's and the network's inference (ultralytics and torch);
  - the `cv2.resize` interpolation;
  - JPEG encode and decode.
- GradCam.Generate: it stops after the normalisation step. The resize to the crop's size, the colormap and the 0.6/0.4 blend are folded into the rendering parameter of `Classify.ClassifyModel`.
- GradCam.Generate: the model does not state which tensor shapes torch would reject. Tensors are batch × channel × flattened cells.
- The final BGR-to-RGB conversion and the tensor normalisation before the forward pass are inside the forward parameter.
- The JSON templates' internals and their placeholder substitution. Replies are structured values with the fields substituted, and a template that fails to load is the template name being absent.
- Line.AnalysisResult: the loop that writes theme values into the warning card is not modelled. The theme is returned as a whole, with the title drawn from it.
- Images.BlobStore.Upload: always succeeds. An upload that raises (services/image.py:48 is outside any try) would abort the phase, so the handler sends its error reply and saves nothing; this is not modelled.
- Database.ReportStore.SaveReport: always succeeds. Firestore failures and `merge=True` field merging are not modelled, and a save replaces the whole document.
- The history query (`get_reports_by_user`: the descending time order and the limit of five) is a parameter of `App.Bot`.
- `get_user_state` and `save_user_state` are not part of this model. The handlers keep the questionnaire state in memory.
- Python dictionary order is not kept where maps are used. This affects the corpus order seen by the knowledge lookup, which is a sequence here, and the answer lists given to the task prompt.
- Malformed questionnaire files that raise a `KeyError` are not modelled. Questions are records whose optional parts are absent, and a file that fails to load is missing from the questionnaire map.
- The LINE SDK: reply tokens, message sending and `send_question` failing after it has built its message. Replies are returned values, and a handler that sends nothing returns `None`.
- The location handler, the follow handler, the webhook signature check and the health endpoint are not modelled. They are delivery mechanics with no state or decisions of the core.
- `get_task_prompt`'s `str.format` is a parameter of `App.Bot`, and the chat client is a function in `Llm.LlmService`. Sampling options and network failures appear only as the client returning nothing.
- The report ids (`uuid4`), the upload file names and the clock are arguments. The blob store's URL function receives the blob and its position in the upload log instead of a path.
- Images.ImageService.RunCnnPhase: the source updates the incoming report in place. The model returns an updated copy, which is the value the only caller uses.
- Images.ImageService.CnnPhase: a download that raises and one that returns nothing are the same error.

