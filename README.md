# AI interview assistant: speech capture, interview turns and report content

This project models, in Dafny, the three pieces of local logic of a web
application that interviews a candidate about their CV: a browser page asks
spoken questions, captures spoken answers with the browser's speech
recognition, submits them to a server, and the server finally writes a PDF
assessment report.

- `speech_recognition.dfy`, module `SpeechRecognition`: the class
  `BrowserSpeechRecognition` that wraps the browser's recogniser. It keeps the
  listening flag and the final and interim transcripts. `start`, `stop` and
  `abort` are guarded by those flags. Each result event is split, from its
  `resultIndex` on, into a final and an interim string. The platform
  recogniser is abstract: it is its configuration (`None` until created) and
  counters of the `start`, `stop` and `abort` calls the wrapper issues on it.
  Its `onstart`, `onresult`, `onerror` and `onend` events are methods. Each
  event method returns what the wrapper passes to its client callback.
- `interview.dfy`, module `Interview`: the page script's module-level state
  (`currentQuestion`, `isRecording`, `recognizedText`, `currentQuestionText`
  and the speech wrapper) as the class `Controller`. The page is a `Page`
  record, the visibility of the two avatars, and an eight-element array of
  progress steps. What the page script can see of the wrapper is a
  `WrapperView`, and `Started` is what the wrapper's `start()` does to it. Replies from the
  server are method inputs. Requests to the server are appended to
  `requests`, and error banners to `page.notices`. Its contracts cover:
  - answer capture, and validation of an empty answer;
  - the branches of a submit;
  - reset for the next question;
  - the progress indicator and the completion screen;
  - the record-button toggle.
- `report.dfy`, module `Report`: what goes into the assessment report, as a
  sequence of abstract items (`Title`, `Heading`, `Body`, `Spacer`). Inputs
  are decoded JSON values, with Python truthiness and `str()` written out.
  The module covers:
  - truncation with "..." at 500, 300, 500 and 1000 characters;
  - at most ten skills;
  - Q&A numbering that skips malformed entries but still uses up their
    numbers;
  - the summary section, only when there is a summary;
  - the report file name.

Behaviour of the code that the model reproduces as written:

- `stopVoiceRecognition` (main.js:33-37) clears `isRecording` before it calls
  `stopRecording`. The guard of `stopRecording` (main.js:206) therefore always
  fails from there. No platform stop is issued, and the record button keeps
  its "Stop Recording" label and the recording indicator. The error and end
  events of the recogniser go through the same path. See
  `Controller.StopVoiceRecognition`, `OnRecognitionError`,
  `OnRecognitionEnd` and `RecordClickTwice`.
- The wrapper's `isListening` becomes true only on the platform's start
  event. Two `start()` calls before that event both reach the platform.
  `StartBeforeStartEvent` shows this; `StartAfterStartEvent` shows the guarded
  case.
- On a browser without speech recognition, `startVoiceRecognition` sets
  `isRecording` before `startRecording` reports the problem. The flag stays
  set, so the next click on the record button runs the stop path.
- When the CV analysis is a truthy value that is not a dict, the logging
  call at document_service.py:17 raises. The outer handler then returns
  False, which the model represents as `None`.

Behaviour worth knowing:

- The stage of the interview is not stored anywhere: it shows only in which
  parts of the page are visible.
- `currentQuestion` is whatever number the server sends. It is not capped at
  8, and it is not forced to increase.
- `start()` is not idempotent before the start event.
- Each result event overwrites both transcripts; they are not accumulated
  across events.
- The completion screen marks all eight steps completed.

## Model

| member | source | states |
|---|---|---|
| SpeechRecognition.Summarize | static/js/speech-recognition.js:39-62 | an event reports the final and the interim concatenation of the segments from `resultIndex` on. It is final exactly when its final text is non-empty, which is exactly when some segment from `resultIndex` on is final and has text |
| SpeechRecognition.FinalTextEmpty | static/js/speech-recognition.js:45-47 | the final text is empty exactly when no final segment has text |
| SpeechRecognition.FinalTextAppend | static/js/speech-recognition.js:43-50 | final segments are concatenated in order: the final text of a split sequence is the two final texts joined |
| SpeechRecognition.InterimTextAppend | static/js/speech-recognition.js:43-50 | the same for the interim text |
| SpeechRecognition.SplitCoversAll | static/js/speech-recognition.js:45-49 | every segment's text goes to exactly one of the two strings, so their lengths add up to the whole text's |
| SpeechRecognition.AllFinalSegments | static/js/speech-recognition.js:45-49 | when every segment is final, the final text is the whole text and the interim text is empty |
| SpeechRecognition.EarlierSegmentsIgnored | static/js/speech-recognition.js:43 | changing a result before `resultIndex` changes nothing that is reported |
| SpeechRecognition.BrowserSpeechRecognition.constructor | static/js/speech-recognition.js:3-11 | no recogniser, not listening, both transcripts empty |
| SpeechRecognition.BrowserSpeechRecognition.Initialize | static/js/speech-recognition.js:19-31 | fails with the "not supported" message when the browser has no recogniser; otherwise creates it with language fr-FR, continuous, interim results and one alternative |
| SpeechRecognition.BrowserSpeechRecognition.Start | static/js/speech-recognition.js:84-94 | creates the recogniser if missing and fails only when that fails. When not listening it clears both transcripts and issues exactly one platform start; when listening it changes nothing. It never sets the listening flag |
| SpeechRecognition.BrowserSpeechRecognition.Stop | static/js/speech-recognition.js:97-101 | one platform stop exactly when a recogniser exists and is listening; the flag is untouched |
| SpeechRecognition.BrowserSpeechRecognition.Abort | static/js/speech-recognition.js:104-109 | one platform abort under the same guard, and afterwards not listening |
| SpeechRecognition.BrowserSpeechRecognition.OnStart | static/js/speech-recognition.js:34-37 | the start event sets the listening flag |
| SpeechRecognition.BrowserSpeechRecognition.OnResult | static/js/speech-recognition.js:39-62 | the loop computes `Summarize(e)`, overwrites both transcripts with it, and the current transcript becomes final followed by interim |
| SpeechRecognition.BrowserSpeechRecognition.OnError | static/js/speech-recognition.js:64-71 | the error event clears the listening flag and forwards the error |
| SpeechRecognition.BrowserSpeechRecognition.OnEnd | static/js/speech-recognition.js:73-80 | the end event clears the listening flag and forwards the final transcript |
| SpeechRecognition.BrowserSpeechRecognition.GetFinalTranscript | static/js/speech-recognition.js:112-114 | the final transcript, always a prefix of the current one |
| SpeechRecognition.BrowserSpeechRecognition.GetCurrentTranscript | static/js/speech-recognition.js:117-119 | the final transcript followed by the interim one: its length is the sum, and it splits back into the two |
| SpeechRecognition.BrowserSpeechRecognition.SetLanguage | static/js/speech-recognition.js:122-126 | changes the language of an existing recogniser; no effect without one |
| SpeechRecognition.BrowserSpeechRecognition.SetContinuous | static/js/speech-recognition.js:129-133 | changes continuous mode of an existing recogniser; no effect without one |
| SpeechRecognition.BrowserSpeechRecognition.SetInterimResults | static/js/speech-recognition.js:136-140 | changes interim reporting of an existing recogniser; no effect without one |
| SpeechRecognition.StartAfterStartEvent | static/js/speech-recognition.js:84-94 | start, start event, start: one platform start, and listening |
| SpeechRecognition.StartBeforeStartEvent | static/js/speech-recognition.js:84-94 | two starts before the start event: two platform starts, still not listening |
| Interview.Started | static/js/speech-recognition.js:84-94 | what `start()` does to the wrapper: a missing recogniser is created with the initial configuration (fr-FR, continuous, interim results, one alternative), and an existing one keeps its configuration. Unless listening, both transcripts are cleared and one platform start is added. Stop and abort counts and the listening flag never change |
| Interview.TrimSpec | static/js/main.js:163-166 | JavaScript `trim()` never lengthens its input; it gives "" exactly when every character is whitespace or a line terminator, and otherwise neither end of its result is such a character |
| Interview.TrimStartSpec | static/js/main.js:163-166 | removing leading whitespace leaves a suffix of the input: everything removed is whitespace or a line terminator, all of it is removed exactly for a blank input, and otherwise what is left starts with a non-whitespace character |
| Interview.TrimEndSpec | static/js/main.js:163-166 | removing trailing whitespace leaves a prefix of the input: everything removed is whitespace or a line terminator, what is left ends with a non-whitespace character, and a non-whitespace first character is kept |
| Interview.BlankConcat | static/js/main.js:158-159 | a concatenation is blank exactly when both parts are |
| Interview.AvatarsFor | static/js/main.js:11-23 | at most one avatar is visible: the speaking one exactly for "talking", the listening one exactly for "listening" |
| Interview.DisplayTextParts | static/js/main.js:158-159 | the shown text is the final text alone when there is no interim text; otherwise the final text, one space and the interim text |
| Interview.DisplayTextBlank | static/js/main.js:158-166 | the shown transcript is blank exactly when both the final and the interim text are blank |
| Interview.AnswerToSend | static/js/main.js:220-228 | the answer is the recognised text if non-empty, else the shown transcript; a blank answer is never sent; a non-blank recognised text is always the answer |
| Interview.NoAnswerIffNothingHeard | static/js/main.js:220-228 | nothing is sent exactly when nothing was recognised and the shown transcript is blank |
| Interview.Controller.PendingAnswer | static/js/main.js:220-228 | what a submit would send now: never a blank answer; a non-blank recognised text when there is one; with nothing recognised, the shown transcript, and nothing exactly when that is blank |
| Interview.ProgressPrefixCounts | static/js/main.js:271-282 | among the first n steps, one is active when 1 ≤ current ≤ n, and `current - 1` (clamped to 0..n) are completed |
| Interview.ProgressCounts | static/js/main.js:270-282 | exactly one active step when the current question is between 1 and 8, none otherwise; the completed steps are those before it |
| Interview.CompletionIsProgressPastLast | static/js/main.js:303-306 | the completion screen's steps equal the progress past the eighth question: eight completed, none active |
| Interview.Controller.constructor | static/js/main.js:2-6 | question 1, not recording, no wrapper, empty texts, no requests; the page and the avatars as the markup shows them |
| Interview.Controller.ShowError | static/js/main.js:343-357 | appends the message to the banners, nothing else changes |
| Interview.Controller.SetAvatarState | static/js/main.js:11-23 | the avatars become `AvatarsFor(state)`, never both visible |
| Interview.Controller.DisplayQuestion | static/js/main.js:86-90 | shows the question and remembers it as the current question text |
| Interview.Controller.StartRecording | static/js/main.js:144-202 | unsupported: a banner and nothing else. Supported: the wrapper becomes `Started` of what it was. A missing wrapper is created with the initial configuration, and an existing one keeps its own. Unless the wrapper is already listening, both transcripts are cleared and one platform start is issued. No platform stop or abort is issued, and the listening flag is unchanged. Recording is set and the button switches to stop; the avatars, question, answer and requests are unchanged |
| Interview.Controller.StopRecording | static/js/main.js:205-216 | only with a wrapper and the recording flag set: one platform stop if listening, the flag cleared, and the button and indicator reset; otherwise nothing changes. The wrapper's start and abort counts, configuration, transcripts and listening flag never change |
| Interview.Controller.StartVoiceRecognition | static/js/main.js:25-31 | while recording nothing changes. Otherwise recording is set and the listening avatar alone shows. Supported: the wrapper becomes `Started` of what it was: it is kept (or created with the initial configuration), its abort and stop counts and listening flag are unchanged, and unless it was listening its transcripts are cleared and one platform start is issued. The button and indicator switch to recording. Unsupported: the wrapper is untouched and the "not supported" banner is added. The question, answer and requests are unchanged |
| Interview.Controller.StopVoiceRecognition | static/js/main.js:33-37 | recording cleared and both avatars hidden. The wrapper is untouched: no platform stop, and the record button is left as it was |
| Interview.Controller.OnRecordClick | static/js/main.js:390-396 | the recording flag toggles. Stopping only hides the avatars: the wrapper is untouched, so no platform stop, and the page stays. Starting gives the avatars, page and wrapper of `StartVoiceRecognition`: when supported the wrapper becomes `Started` of what it was, otherwise it is untouched. The question, answer and requests are unchanged |
| Interview.Controller.HandleResult | static/js/main.js:157-173 | shows `final` plus " " and `interim` when there is an interim text. The answer section shows for non-blank text. `recognizedText` takes `final` only when the result is final and non-blank, and then the submit button shows |
| Interview.Controller.OnRecognitionStart | static/js/speech-recognition.js:34-37 | the wrapper starts listening; its platform calls, configuration and transcripts are unchanged |
| Interview.Controller.OnRecognitionResult | static/js/speech-recognition.js:52-61 | the wrapper's transcripts become the event's split; its listening flag, configuration and platform calls are unchanged. The page changes only in the shown text (the display text of the split), the answer section (shown once that text is non-blank) and the submit button (shown once a final, non-blank text arrives); that final text becomes the answer |
| Interview.Controller.OnRecognitionError | static/js/main.js:175-181 | not listening and not recording. The page changes only in the hidden avatars and the added recognition error banner. The wrapper issues no platform call and keeps its configuration and transcripts; the question, answer and requests are unchanged |
| Interview.Controller.OnRecognitionEnd | static/js/main.js:183-185 | not listening and not recording. The page changes only in the hidden avatars. The wrapper issues no platform call and keeps its configuration and transcripts; the question, answer and requests are unchanged |
| Interview.RecordClickTwice | static/js/main.js:390-396 | from an idle page, start then stop: the wrapper is `Started` of what it was, so one platform start and no platform stop; recording ends with the avatars hidden while the button still reads "Stop Recording" and the indicator stays on |
| Interview.Controller.GenerateQuestionAudio | static/js/main.js:93-128 | shows the speaking avatar and sends one audio request; the audio is loaded only on success |
| Interview.Controller.OnAudioEnded | static/js/main.js:118-121 | afterwards recording, with the listening avatar alone shown. If it was not recording, the page and wrapper are those of `StartVoiceRecognition`: when supported the wrapper becomes `Started` of what it was (configuration kept or initial, abort count kept, transcripts cleared and one platform start unless listening). If it was recording, nothing else changes. The question, answer and requests are unchanged |
| Interview.Controller.AnalyzeCV | static/js/main.js:54-83 | one analysis request is sent. Success: the first question is current and shown, the speaking avatar alone shows, its audio is requested (and loaded when that succeeds), the loading screen hides and the interview shows; nothing else on the page changes. Failure: only the analysis failure banner |
| Interview.Controller.UpdateProgress | static/js/main.js:270-285 | each step i is completed before the current question, active at it, neither after; the label shows the number |
| Interview.Controller.ResetForNextQuestion | static/js/main.js:288-293 | hides the answer section and submit button, clears the transcript and the recognised answer |
| Interview.Controller.ShowCompletionScreen | static/js/main.js:296-307 | the interview is hidden, completion shown, all eight steps completed and none active |
| Interview.Controller.SubmitAnswer | static/js/main.js:219-267 | with no answer to send (`AnswerToSend` is None), only the empty-answer banner is added and no request goes out. Otherwise the current question and the answer are sent first, then the reply decides: a next question gives the state `AdvanceTo` gives; completion marks all steps completed, hides the interview and shows completion; a failed or lost reply adds only the submit failure banner. Recording and the wrapper are untouched |
| Interview.Controller.SendAnswer | static/js/main.js:233-266 | the same three reply outcomes for a given answer, after the one answer request |
| Interview.Controller.AdvanceTo | static/js/main.js:250-257 | the server's number becomes current, the steps are `Progress(number)`, the label shows the number, the question is shown and remembered, the speaking avatar alone shows, one audio request goes out (loaded on success), the answer section, submit button, transcript and recognised answer are cleared; nothing else on the page changes |
| Report.Lookup | services/document_service.py:69 | `get` of a key the dict does not hold gives None |
| Report.LookupWithout | services/document_service.py:69-79 | removing a key only changes what `get` returns for that key |
| Report.Str | services/document_service.py:70-80 | `str()` of a value is empty exactly for the empty string |
| Report.Repr | services/document_service.py:80 | the `repr` of a value nested in a list or dict is never empty |
| Report.LastIndex | services/document_service.py:69-79 | the last binding of a key is the one `get` returns; no later member binds it |
| Report.ReprRepeatedKey | services/document_service.py:80 | a dict decoded with a key bound twice shows that key once, with its second value |
| Report.Truncate | services/document_service.py:70 | text of at most n characters is unchanged; longer text is its first n characters and "...", so at most n + 3 characters |
| Report.SkillsText | services/document_service.py:80 | no skills give ""; otherwise the text starts with `str()` of the first skill |
| Report.SkillsTextAppend | services/document_service.py:79-81 | each of the first ten skills adds `str(skill)` after ", "; skills after the tenth change nothing |
| Report.CvOverview | services/document_service.py:68-81 | one paragraph per truthy field, and for the skills only a non-empty list; every item is a body paragraph |
| Report.FalsyFieldOmitted | services/document_service.py:69-77 | a falsy field (zero years of experience, say) prints the same as an absent one |
| Report.FalsyCvHasNoItems | services/document_service.py:69-79 | a falsy CV analysis contributes no paragraph |
| Report.AppendCvOverview | services/document_service.py:68-81 | the appends add exactly `CvItems(cv)` after the story |
| Report.QaEntry | services/document_service.py:93-98 | a dict with a question and an answer gives three items, question, response and spacer; anything else gives none |
| Report.QaItemsAppend | services/document_service.py:92 | numbering continues across a split of the list |
| Report.QaItemsLength | services/document_service.py:92-98 | three items per printable entry, none for the others |
| Report.QaEntryPosition | services/document_service.py:92-96 | entry k, when printable, sits after the printable entries before it and carries number k + 1, so skipped entries use up numbers |
| Report.AppendQa | services/document_service.py:91-98 | the loop appends exactly `QaItems(qa, 1)` |
| Report.AppendSummary | services/document_service.py:104-108 | the heading and the truncated summary are appended only for a non-empty summary |
| Report.ReportShape | services/document_service.py:55-108 | the story `ReportStory` assembles has five opening items, the CV paragraphs, spacer and Q&A heading, three items per printable entry, and the summary heading and text last. With an empty summary, no summary heading anywhere |
| Report.GenerateReport | services/document_service.py:11-124 | no report for a truthy non-dict CV analysis; otherwise the story is `ReportStory` |
| Report.ReportFilename | services/document_service.py:126-131 | "assessment_report_", the session id, "_", the timestamp and ".pdf" |
| Report.ReportFilenameRoundTrip | services/document_service.py:131 | the session id and the timestamp can be read back from the file name |
| Report.ReportFilenameInjective | services/document_service.py:126-131 | two sessions with equal-length timestamps never share a file name |

## Left out

- Network transport (`fetch`, JSON decoding of replies): each server reply is an input to the method that handles it.
- Audio loading and playback, `playQuestion` and the "Unable to play audio" banner: browser media behaviour. Audio ending is the event method `OnAudioEnded`.
- The 5-second removal of error banners, and their markup: timers. `page.notices` keeps every banner shown, in order.
- The processing overlay and the loading, processing and completion CSS classes on the page body: presentation only.
- `generateReport` in main.js (310-340): a request followed by navigation to another page.
- The catch branch of `initializeAssessment` (main.js:45-50): `analyzeCV` catches every error itself, so it cannot be reached.
- Interview.Controller.StartRecording: its catch branch (main.js:196-201) is not modelled, because the model's platform start never throws. The browser's own error on a second start while already started is platform behaviour.
- Calls to the wrapper's `onResult`, `onError` and `onEnd` callbacks: these are the values the event methods return. The controller handles them.
- `isSupported`: a constant of the browser, given to the constructors.
- Logging and console output.
- reportlab styles, fonts, margins and `doc.build`. The model assumes the build succeeds; a failed build would return False.
- The inner `except` branches of the report (document_service.py:82-84, 99-101, 109-111): they catch reportlab's `Paragraph` rejecting markup it cannot parse, and markup parsing is reportlab's. The model takes every paragraph as accepted, so it does not capture the fallback paragraph each branch adds after the items already appended.
- `datetime.now()`: the formatted date and the timestamp are parameters.
- Floating-point numbers in JSON: a CV analysis holds strings, integers, booleans, lists and dicts here.
- Report.Repr: a string nested in a list or dict is written between single quotes without Python's escaping of quotes and special characters, and without its switch to double quotes for a string holding a single quote.
- gemini_service.py and main_routes.py are not part of this model: LLM prompts and Flask plumbing.
