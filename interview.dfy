/**
 * The interview page controller: the module-level state of the page script
 * (current question number, recording flag, recognised answer, current
 * question text, the speech wrapper) and the handlers that update it and the
 * page.
 *
 * The page is a record (`Page`) plus the eight progress steps, an array the
 * progress handlers update in place. Server replies are method inputs; the
 * requests the script sends are appended to `requests`; the error banners it
 * shows are appended to `page.notices`.
 */
module Interview {
  import opened Wrappers
  import opened SpeechRecognition

  /** The two CSS classes a progress step can carry. */
  datatype StepStatus = StepStatus(completed: bool, active: bool)

  /** Visibility of the speaking and the listening avatar. */
  datatype Avatars = Avatars(speaking: bool, listening: bool)

  datatype Page = Page(
    questionText: string,            // the displayed question
    progressLabel: int,              // the displayed question number
    transcribedText: string,         // the displayed transcript
    answerSectionVisible: bool,
    submitVisible: bool,
    recordButtonStops: bool,         // the record button reads "Stop Recording"
    recordingIndicatorVisible: bool,
    loadingVisible: bool,
    assessmentVisible: bool,
    completionVisible: bool,
    audioSrc: Option<string>,        // the question audio; its ended handler is armed once set
    notices: seq<string>)            // error banners shown, oldest first

  /** A request the page sends to the server. */
  datatype Request =
    | AnalyzeRequest
    | AudioRequest(text: string)
    | AnswerRequest(question: string, answer: string)

  datatype AnalyzeReply = AnalyzeOk(firstQuestion: string) | AnalyzeFailed(error: string) | AnalyzeNetworkError
  datatype AudioReply = AudioOk(url: string) | AudioFailed(error: string) | AudioNetworkError
  datatype SubmitReply =
    | SubmitCompleted
    | SubmitNext(questionNumber: int, nextQuestion: string)
    | SubmitFailed(error: string)
    | SubmitNetworkError

  const StepCount := 8

  const UnsupportedNotice: string := "Speech recognition is not supported in your browser. Please use Chrome, Edge, or Safari."
  const RecognitionErrorNotice: string := "Erreur de reconnaissance vocale. Veuillez réessayer."
  const EmptyAnswerNotice: string := "Please record an answer before submitting."
  const SubmitFailedNotice: string := "Failed to submit answer. Please try again."
  const AnalyzeFailedNotice: string := "Échec de l'analyse du CV. Veuillez réessayer."

  // ---------------------------------------------------------------------
  // String.prototype.trim

  /** The characters JavaScript's `trim` removes: WhiteSpace and LineTerminator. */
  predicate IsJsWhitespace(c: char)
  {
    c == '\t' || c == '\n' || c == '\U{000B}' || c == '\U{000C}' || c == '\r' || c == ' ' ||
    c == '\U{00A0}' || c == '\U{1680}' || ('\U{2000}' <= c <= '\U{200A}') ||
    c == '\U{2028}' || c == '\U{2029}' || c == '\U{202F}' || c == '\U{205F}' ||
    c == '\U{3000}' || c == '\U{FEFF}'
  }

  predicate Blank(s: string)
  {
    forall i :: 0 <= i < |s| ==> IsJsWhitespace(s[i])
  }

  /** `s` without its leading whitespace. */
  function TrimStart(s: string): string
  {
    if s != [] && IsJsWhitespace(s[0]) then TrimStart(s[1..]) else s
  }

  /** `s` without its trailing whitespace. */
  function TrimEnd(s: string): string
  {
    if s != [] && IsJsWhitespace(s[|s| - 1]) then TrimEnd(s[..|s| - 1]) else s
  }

  /** JavaScript's `s.trim()`. */
  function Trim(s: string): string
  {
    TrimEnd(TrimStart(s))
  }

  /**
   * `s.trim()` is a piece of `s` that is empty exactly when every character
   * of `s` is whitespace, and otherwise starts and ends with a non-space.
   */
  lemma TrimSpec(s: string)
    ensures |Trim(s)| <= |s|
    ensures Trim(s) == "" <==> Blank(s)
    ensures Trim(s) != "" ==> !IsJsWhitespace(Trim(s)[0]) && !IsJsWhitespace(Trim(s)[|Trim(s)| - 1])
  {
    TrimStartSpec(s);
    TrimEndSpec(TrimStart(s));
  }

  /**
   * Removing leading whitespace leaves a suffix of `s`: everything removed is
   * whitespace, all of `s` is removed exactly when `s` is blank, and what is
   * left starts with a non-space.
   */
  lemma {:induction false} TrimStartSpec(s: string)
    ensures |TrimStart(s)| <= |s| && TrimStart(s) == s[|s| - |TrimStart(s)|..]
    ensures TrimStart(s) == "" <==> Blank(s)
    ensures TrimStart(s) != "" ==> !IsJsWhitespace(TrimStart(s)[0])
    ensures forall k :: 0 <= k < |s| - |TrimStart(s)| ==> IsJsWhitespace(s[k])
  {
    if s != [] && IsJsWhitespace(s[0]) {
      TrimStartSpec(s[1..]);
      forall k | 1 <= k < |s| - |TrimStart(s)| ensures IsJsWhitespace(s[k]) {
        assert s[k] == s[1..][k - 1];
      }
      assert Blank(s) <==> Blank(s[1..]) by {
        if Blank(s[1..]) {
          forall i | 0 <= i < |s| ensures IsJsWhitespace(s[i]) {
            if i > 0 { assert s[i] == s[1..][i - 1]; }
          }
        }
      }
    }
  }

  /**
   * Removing trailing whitespace leaves a prefix of `s`: everything removed is
   * whitespace, what is left ends in a non-space, and a leading non-space is kept.
   */
  lemma {:induction false} TrimEndSpec(s: string)
    ensures |TrimEnd(s)| <= |s| && TrimEnd(s) == s[..|TrimEnd(s)|]
    ensures TrimEnd(s) != "" ==> !IsJsWhitespace(TrimEnd(s)[|TrimEnd(s)| - 1])
    ensures s != [] && !IsJsWhitespace(s[0]) ==> TrimEnd(s) != "" && TrimEnd(s)[0] == s[0]
    ensures forall k :: |TrimEnd(s)| <= k < |s| ==> IsJsWhitespace(s[k])
  {
    if s != [] && IsJsWhitespace(s[|s| - 1]) {
      TrimEndSpec(s[..|s| - 1]);
      forall k | |TrimEnd(s)| <= k < |s| - 1 ensures IsJsWhitespace(s[k]) {
        assert s[k] == s[..|s| - 1][k];
      }
    }
  }

  lemma BlankConcat(a: string, b: string)
    ensures Blank(a + b) <==> Blank(a) && Blank(b)
  {
    if Blank(a + b) {
      forall i | 0 <= i < |a| ensures IsJsWhitespace(a[i]) {
        assert a[i] == (a + b)[i];
      }
      forall i | 0 <= i < |b| ensures IsJsWhitespace(b[i]) {
        assert b[i] == (a + b)[|a| + i];
      }
    }
    if Blank(a) && Blank(b) {
      forall i | 0 <= i < |a + b| ensures IsJsWhitespace((a + b)[i]) {
        if i < |a| { assert (a + b)[i] == a[i]; } else { assert (a + b)[i] == b[i - |a|]; }
      }
    }
  }

  // ---------------------------------------------------------------------
  // Pure parts of the handlers

  /** Which avatars `setAvatarState(state)` leaves visible. */
  function AvatarsFor(state: string): (a: Avatars)
    ensures !(a.speaking && a.listening)
    ensures a.speaking <==> state == "talking"
    ensures a.listening <==> state == "listening"
  {
    if state == "talking" then Avatars(true, false)
    else if state == "listening" then Avatars(false, true)
    else Avatars(false, false)
  }

  /** The transcript shown for one recognition result. */
  function DisplayText(r: RecognitionResult): string
  {
    r.final + (if r.interim != "" then " " + r.interim else "")
  }

  /** The shown transcript is the final text, then a space and the interim text when there is one. */
  lemma DisplayTextParts(r: RecognitionResult)
    ensures r.interim == "" ==> DisplayText(r) == r.final
    ensures r.interim != "" ==>
      (var t := DisplayText(r);
       |t| == |r.final| + 1 + |r.interim| &&
       t[..|r.final|] == r.final && t[|r.final|] == ' ' && t[|r.final| + 1..] == r.interim)
  {
  }

  /** The shown transcript is blank exactly when both parts of the result are. */
  lemma DisplayTextBlank(r: RecognitionResult)
    ensures Trim(DisplayText(r)) == "" <==> Trim(r.final) == "" && Trim(r.interim) == ""
  {
    TrimSpec(DisplayText(r));
    TrimSpec(r.final);
    TrimSpec(r.interim);
    if r.interim != "" {
      BlankConcat(r.final, " " + r.interim);
      BlankConcat(" ", r.interim);
    } else {
      assert DisplayText(r) == r.final;
    }
  }

  /** The answer `submitAnswer` sends: the recognised text, else the shown transcript; None when blank. */
  function AnswerToSend(recognized: string, shown: string): (answer: Option<string>)
    ensures answer.Some? ==> Trim(answer.value) != ""
    ensures answer.Some? ==> answer.value == (if recognized != "" then recognized else shown)
    ensures recognized != "" && Trim(recognized) != "" ==> answer == Some(recognized)
  {
    var candidate := if recognized != "" then recognized else shown;
    if Trim(candidate) == "" then None else Some(candidate)
  }

  /** With a recognised text that is never blank, no answer is sent exactly when nothing was recognised and the transcript is blank. */
  lemma NoAnswerIffNothingHeard(recognized: string, shown: string)
    requires recognized == "" || Trim(recognized) != ""
    ensures AnswerToSend(recognized, shown).None? <==> recognized == "" && Blank(shown)
  {
    TrimSpec(shown);
  }

  // ---------------------------------------------------------------------
  // The progress indicator

  /** The classes `updateProgress` gives step `i` (1-based) when the current question is `current`. */
  function StepFor(i: int, current: int): StepStatus
  {
    if i < current then StepStatus(true, false)
    else if i == current then StepStatus(false, true)
    else StepStatus(false, false)
  }

  function ProgressPrefix(n: nat, current: int): (s: seq<StepStatus>)
    ensures |s| == n
  {
    seq(n, k => StepFor(k + 1, current))
  }

  /** All eight steps as `updateProgress` leaves them. */
  function Progress(current: int): seq<StepStatus>
  {
    ProgressPrefix(StepCount, current)
  }

  /** All eight steps as the completion screen leaves them. */
  function AllCompleted(): seq<StepStatus>
  {
    seq(StepCount, k => StepStatus(true, false))
  }

  function ActiveCount(s: seq<StepStatus>): nat
  {
    if s == [] then 0 else ActiveCount(s[..|s| - 1]) + (if s[|s| - 1].active then 1 else 0)
  }

  function CompletedCount(s: seq<StepStatus>): nat
  {
    if s == [] then 0 else CompletedCount(s[..|s| - 1]) + (if s[|s| - 1].completed then 1 else 0)
  }

  function Clamp(x: int, lo: int, hi: int): int
  {
    if x < lo then lo else if x > hi then hi else x
  }

  lemma {:induction false} ProgressPrefixCounts(n: nat, current: int)
    ensures ActiveCount(ProgressPrefix(n, current)) == (if 1 <= current <= n then 1 else 0)
    ensures CompletedCount(ProgressPrefix(n, current)) == Clamp(current - 1, 0, n)
  {
    if n > 0 {
      assert ProgressPrefix(n, current)[..n - 1] == ProgressPrefix(n - 1, current);
      ProgressPrefixCounts(n - 1, current);
    }
  }

  /**
   * Exactly one step is active when the current question is between 1 and 8
   * (none otherwise), and the steps before it are the completed ones.
   */
  lemma ProgressCounts(current: int)
    ensures ActiveCount(Progress(current)) == (if 1 <= current <= StepCount then 1 else 0)
    ensures CompletedCount(Progress(current)) == Clamp(current - 1, 0, StepCount)
  {
    ProgressPrefixCounts(StepCount, current);
  }

  /** The completion screen shows every step completed and none active: progress past the last question. */
  lemma {:induction false} CompletionIsProgressPastLast(current: int)
    requires current > StepCount
    ensures AllCompleted() == Progress(current)
    ensures ActiveCount(AllCompleted()) == 0 && CompletedCount(AllCompleted()) == StepCount
  {
    assert AllCompleted() == Progress(current);
    ProgressCounts(current);
  }

  // ---------------------------------------------------------------------
  // What the page script can observe of the speech wrapper

  /** The speech wrapper's state: platform calls issued, configuration, transcripts and listening flag. */
  datatype WrapperView = WrapperView(
    startCalls: nat, stopCalls: nat, abortCalls: nat,
    recognition: Option<Config>, transcript: string, interimTranscript: string, isListening: bool)

  /** Before the first recording there is no wrapper: nothing issued, nothing configured, nothing heard. */
  const NoWrapper := WrapperView(0, 0, 0, None, "", "", false)

  /**
   * The wrapper after its `start()` succeeds: the recogniser is created with
   * the initial configuration if missing; unless listening, both transcripts
   * are cleared and one platform start is issued. The flag is left to the
   * start event.
   */
  function Started(w: WrapperView): (r: WrapperView)
    ensures w.recognition.None? ==> r.recognition == Some(InitialConfig)
    ensures w.recognition.Some? ==> r.recognition == w.recognition
    ensures r.isListening == w.isListening
    ensures r.stopCalls == w.stopCalls && r.abortCalls == w.abortCalls
    ensures w.isListening ==> r.startCalls == w.startCalls && r.transcript == w.transcript && r.interimTranscript == w.interimTranscript
    ensures !w.isListening ==> r.startCalls == w.startCalls + 1 && r.transcript == "" && r.interimTranscript == ""
  {
    w.(recognition := if w.recognition.None? then Some(InitialConfig) else w.recognition,
       startCalls := if w.isListening then w.startCalls else w.startCalls + 1,
       transcript := if w.isListening then w.transcript else "",
       interimTranscript := if w.isListening then w.interimTranscript else "")
  }

  // ---------------------------------------------------------------------
  // The page script's state and handlers

  class Controller {
    /** Whether the browser offers speech recognition. */
    const supported: bool
    const steps: array<StepStatus>
    var currentQuestion: int
    var isRecording: bool
    var recognizer: BrowserSpeechRecognition?
    var currentQuestionText: string
    var recognizedText: string
    var page: Page
    var avatars: Avatars
    var requests: seq<Request>

    ghost predicate Valid()
      reads this, recognizer
    {
      steps.Length == StepCount &&
      (recognizer != null ==> recognizer.Valid() && recognizer.recognition.Some? && recognizer.supported == supported) &&
      (recognizedText == "" || Trim(recognizedText) != "")
    }

    /** The answer a submit would send now. */
    function PendingAnswer(): (answer: Option<string>)
      reads this
      ensures answer.Some? ==> Trim(answer.value) != ""
      ensures Trim(recognizedText) != "" ==> answer == Some(recognizedText)
      ensures recognizedText == "" ==> (answer.None? <==> Blank(page.transcribedText))
      ensures recognizedText == "" && answer.Some? ==> answer.value == page.transcribedText
    {
      TrimSpec(page.transcribedText);
      AnswerToSend(recognizedText, page.transcribedText)
    }

    /** The speech wrapper as the page script sees it; `NoWrapper` until the first recording. */
    ghost function Wrapper(): WrapperView
      reads this`recognizer, recognizer
    {
      if recognizer == null then NoWrapper
      else WrapperView(recognizer.startCalls, recognizer.stopCalls, recognizer.abortCalls,
                       recognizer.recognition, recognizer.transcript, recognizer.interimTranscript, recognizer.isListening)
    }

    /** The script's initial state on a page whose markup is `markup` and whose steps are `initialSteps`. */
    constructor (supported: bool, markup: Page, shownAvatars: Avatars, initialSteps: seq<StepStatus>)
      requires |initialSteps| == StepCount
      ensures Valid() && this.supported == supported
      ensures currentQuestion == 1 && !isRecording && recognizer == null
      ensures currentQuestionText == "" && recognizedText == ""
      ensures page == markup && avatars == shownAvatars && steps[..] == initialSteps && requests == []
      ensures fresh(steps)
    {
      this.supported := supported;
      var a := new StepStatus[StepCount];
      forall k | 0 <= k < StepCount {
        a[k] := initialSteps[k];
      }
      steps := a;
      currentQuestion := 1;
      isRecording := false;
      recognizer := null;
      currentQuestionText := "";
      recognizedText := "";
      page := markup;
      avatars := shownAvatars;
      requests := [];
    }

    method ShowError(message: string)
      modifies this`page
      ensures page == old(page).(notices := old(page.notices) + [message])
    {
      page := page.(notices := page.notices + [message]);
    }

    /** Shows at most one avatar: the speaking one for "talking", the listening one for "listening". */
    method SetAvatarState(state: string)
      modifies this`avatars
      ensures avatars == AvatarsFor(state)
      ensures !(avatars.speaking && avatars.listening)
    {
      var speaking, listening := false, false;
      if state == "talking" {
        speaking := true;
      } else if state == "listening" {
        listening := true;
      }
      avatars := Avatars(speaking, listening);
    }

    method DisplayQuestion(question: string)
      modifies this`page, this`currentQuestionText
      ensures page == old(page).(questionText := question)
      ensures currentQuestionText == question
    {
      page := page.(questionText := question);
      currentQuestionText := question;
    }

    /**
     * Starts capture: reports an unsupported browser, otherwise creates the
     * wrapper on first use, starts it and switches the record button.
     */
    method StartRecording()
      requires Valid()
      modifies this, recognizer
      ensures Valid()
      ensures !supported ==> recognizer == old(recognizer) && isRecording == old(isRecording)
      ensures !supported ==> page == old(page).(notices := old(page.notices) + [UnsupportedNotice])
      ensures supported ==> recognizer != null && isRecording
      ensures supported ==> old(recognizer) == null ==> fresh(recognizer)
      ensures supported ==> old(recognizer) != null ==> recognizer == old(recognizer)
      ensures Wrapper() == if supported then Started(old(Wrapper())) else old(Wrapper())
      ensures supported ==> page == old(page).(recordButtonStops := true, recordingIndicatorVisible := true)
      ensures avatars == old(avatars)
      ensures currentQuestion == old(currentQuestion) && recognizedText == old(recognizedText)
      ensures currentQuestionText == old(currentQuestionText) && requests == old(requests)
    {
      if !supported {
        ShowError(UnsupportedNotice);
        return;
      }
      if recognizer == null {
        recognizer := new BrowserSpeechRecognition(supported);
        var initialized := recognizer.Initialize();
      }
      var started := recognizer.Start();
      isRecording := true;
      page := page.(recordButtonStops := true, recordingIndicatorVisible := true);
    }

    /** Stops capture, but only while the wrapper exists and the recording flag is set. */
    method StopRecording()
      requires Valid()
      modifies this`isRecording, this`page, recognizer
      ensures Valid()
      ensures recognizer != null && old(isRecording) ==>
        !isRecording && recognizer.stopCalls == old(recognizer.stopCalls) + (if recognizer.isListening then 1 else 0) &&
        page == old(page).(recordButtonStops := false, recordingIndicatorVisible := false)
      ensures recognizer == null || !old(isRecording) ==>
        isRecording == old(isRecording) && page == old(page) && (recognizer != null ==> unchanged(recognizer))
      ensures recognizer != null ==> recognizer.isListening == old(recognizer.isListening) && recognizer.startCalls == old(recognizer.startCalls)
      ensures recognizer != null ==>
        recognizer.abortCalls == old(recognizer.abortCalls) && recognizer.recognition == old(recognizer.recognition) &&
        recognizer.transcript == old(recognizer.transcript) && recognizer.interimTranscript == old(recognizer.interimTranscript)
    {
      if recognizer != null && isRecording {
        recognizer.Stop();
        isRecording := false;
        page := page.(recordButtonStops := false, recordingIndicatorVisible := false);
      }
    }

    /** Acts only when not recording: sets the flag, shows the listening avatar and starts capture. */
    method StartVoiceRecognition()
      requires Valid()
      modifies this, recognizer
      ensures Valid()
      ensures old(isRecording) ==> unchanged(this) && (recognizer != null ==> unchanged(recognizer))
      ensures !old(isRecording) ==> isRecording
      ensures !old(isRecording) ==> avatars == Avatars(false, true)
      ensures !old(isRecording) && supported ==>
        recognizer != null && page == old(page).(recordButtonStops := true, recordingIndicatorVisible := true)
      ensures !old(isRecording) && !supported ==>
        recognizer == old(recognizer) && page == old(page).(notices := old(page.notices) + [UnsupportedNotice])
      ensures old(recognizer) != null ==> recognizer == old(recognizer)
      ensures recognizer != old(recognizer) ==> fresh(recognizer)
      ensures Wrapper() == if !old(isRecording) && supported then Started(old(Wrapper())) else old(Wrapper())
      ensures currentQuestion == old(currentQuestion) && recognizedText == old(recognizedText)
      ensures currentQuestionText == old(currentQuestionText) && requests == old(requests)
    {
      if !isRecording {
        isRecording := true;
        SetAvatarState("listening");
        StartRecording();
      }
    }

    /**
     * Clears the recording flag and hides both avatars before calling
     * StopRecording, whose guard then fails: no platform stop is issued and
     * the record button keeps its "Stop Recording" label.
     */
    method StopVoiceRecognition()
      requires Valid()
      modifies this, recognizer
      ensures Valid()
      ensures !isRecording
      ensures avatars == Avatars(false, false) && page == old(page)
      ensures recognizer == old(recognizer) && (recognizer != null ==> unchanged(recognizer))
      ensures Wrapper() == old(Wrapper())
      ensures currentQuestion == old(currentQuestion) && recognizedText == old(recognizedText)
      ensures currentQuestionText == old(currentQuestionText) && requests == old(requests)
    {
      isRecording := false;
      SetAvatarState("");
      StopRecording();
    }

    /** The record button: stop while recording, start otherwise. */
    method OnRecordClick()
      requires Valid()
      modifies this, recognizer
      ensures Valid()
      ensures isRecording == !old(isRecording)
      ensures old(isRecording) ==>
        avatars == Avatars(false, false) && page == old(page) &&
        recognizer == old(recognizer) && (recognizer != null ==> unchanged(recognizer))
      ensures old(recognizer) != null ==> recognizer == old(recognizer)
      ensures recognizer != old(recognizer) ==> fresh(recognizer)
      ensures Wrapper() == if !old(isRecording) && supported then Started(old(Wrapper())) else old(Wrapper())
      ensures !old(isRecording) ==> avatars == Avatars(false, true)
      ensures !old(isRecording) && supported ==>
        page == old(page).(recordButtonStops := true, recordingIndicatorVisible := true)
      ensures !old(isRecording) && !supported ==>
        page == old(page).(notices := old(page.notices) + [UnsupportedNotice])
      ensures currentQuestion == old(currentQuestion) && recognizedText == old(recognizedText)
      ensures currentQuestionText == old(currentQuestionText) && requests == old(requests)
    {
      if isRecording {
        StopVoiceRecognition();
      } else {
        StartVoiceRecognition();
      }
    }

    /**
     * The wrapper's onResult callback: shows the transcript, reveals the
     * answer section for non-blank text, and keeps a non-blank final text
     * as the answer.
     */
    method HandleResult(result: RecognitionResult)
      requires Valid()
      modifies this`page, this`recognizedText
      ensures Valid()
      ensures page == old(page).(
        transcribedText := DisplayText(result),
        answerSectionVisible := old(page.answerSectionVisible) || Trim(DisplayText(result)) != "",
        submitVisible := old(page.submitVisible) || (result.isFinal && Trim(result.final) != ""))
      ensures recognizedText == if result.isFinal && Trim(result.final) != "" then result.final else old(recognizedText)
    {
      var displayText := DisplayText(result);
      var hasText := Trim(displayText) != "";
      var hasFinal := result.isFinal && Trim(result.final) != "";
      page := page.(
        transcribedText := displayText,
        answerSectionVisible := page.answerSectionVisible || hasText,
        submitVisible := page.submitVisible || hasFinal);
      if hasFinal {
        recognizedText := result.final;
      }
    }

    /** The platform's start event, passed through the wrapper. */
    method OnRecognitionStart()
      requires Valid() && recognizer != null
      modifies recognizer
      ensures Valid() && recognizer.isListening
      ensures recognizer.startCalls == old(recognizer.startCalls) && recognizer.stopCalls == old(recognizer.stopCalls)
      ensures recognizer.abortCalls == old(recognizer.abortCalls) && recognizer.recognition == old(recognizer.recognition)
      ensures recognizer.transcript == old(recognizer.transcript) && recognizer.interimTranscript == old(recognizer.interimTranscript)
    {
      recognizer.OnStart();
    }

    /** A platform result event, passed through the wrapper to HandleResult. */
    method OnRecognitionResult(e: ResultEvent)
      requires Valid() && recognizer != null
      modifies this`page, this`recognizedText, recognizer
      ensures Valid()
      ensures recognizer.transcript == Summarize(e).final && recognizer.interimTranscript == Summarize(e).interim
      ensures page == old(page).(
        transcribedText := DisplayText(Summarize(e)),
        answerSectionVisible := old(page.answerSectionVisible) || Trim(DisplayText(Summarize(e))) != "",
        submitVisible := old(page.submitVisible) || (Summarize(e).isFinal && Trim(Summarize(e).final) != ""))
      ensures recognizedText == if Trim(FinalText(Pending(e))) != "" then FinalText(Pending(e)) else old(recognizedText)
      ensures recognizer.isListening == old(recognizer.isListening)
      ensures recognizer.startCalls == old(recognizer.startCalls) && recognizer.stopCalls == old(recognizer.stopCalls)
      ensures recognizer.abortCalls == old(recognizer.abortCalls) && recognizer.recognition == old(recognizer.recognition)
    {
      var r := recognizer.OnResult(e);
      HandleResult(r);
    }

    /** A platform error event: listening ends, recording stops and a banner is shown. */
    method OnRecognitionError(error: string)
      requires Valid() && recognizer != null
      modifies this, recognizer
      ensures recognizer == old(recognizer)
      ensures Valid() && !isRecording && !recognizer.isListening
      ensures recognizer.stopCalls == old(recognizer.stopCalls)
      ensures avatars == Avatars(false, false) && page == old(page).(notices := old(page.notices) + [RecognitionErrorNotice])
      ensures recognizedText == old(recognizedText) && currentQuestion == old(currentQuestion)
      ensures currentQuestionText == old(currentQuestionText) && requests == old(requests)
      ensures recognizer.startCalls == old(recognizer.startCalls) && recognizer.abortCalls == old(recognizer.abortCalls)
      ensures recognizer.recognition == old(recognizer.recognition)
      ensures recognizer.transcript == old(recognizer.transcript) && recognizer.interimTranscript == old(recognizer.interimTranscript)
    {
      var reported := recognizer.OnError(error);
      StopVoiceRecognition();
      ShowError(RecognitionErrorNotice);
    }

    /** A platform end event: listening ends and recording stops. */
    method OnRecognitionEnd()
      requires Valid() && recognizer != null
      modifies this, recognizer
      ensures recognizer == old(recognizer)
      ensures Valid() && !isRecording && !recognizer.isListening
      ensures recognizer.stopCalls == old(recognizer.stopCalls)
      ensures avatars == Avatars(false, false) && page == old(page)
      ensures recognizedText == old(recognizedText) && currentQuestion == old(currentQuestion)
      ensures currentQuestionText == old(currentQuestionText) && requests == old(requests)
      ensures recognizer.startCalls == old(recognizer.startCalls) && recognizer.abortCalls == old(recognizer.abortCalls)
      ensures recognizer.recognition == old(recognizer.recognition)
      ensures recognizer.transcript == old(recognizer.transcript) && recognizer.interimTranscript == old(recognizer.interimTranscript)
    {
      var finalTranscript := recognizer.OnEnd();
      StopVoiceRecognition();
    }

    /** Asks for the question's audio; on success the audio is loaded and its ended handler armed. */
    method GenerateQuestionAudio(text: string, reply: AudioReply)
      modifies this`page, this`avatars, this`requests
      ensures requests == old(requests) + [AudioRequest(text)]
      ensures avatars == AvatarsFor("talking")
      ensures page == old(page).(audioSrc := if reply.AudioOk? then Some(reply.url) else old(page.audioSrc))
    {
      SetAvatarState("talking");
      requests := requests + [AudioRequest(text)];
      if reply.AudioOk? {
        page := page.(audioSrc := Some(reply.url));
      }
    }

    /** The question audio finished playing: show the listening avatar and start capture. */
    method OnAudioEnded()
      requires Valid() && page.audioSrc.Some?
      modifies this, recognizer
      ensures Valid()
      ensures isRecording && avatars == Avatars(false, true)
      ensures !old(isRecording) && supported ==>
        page == old(page).(recordButtonStops := true, recordingIndicatorVisible := true)
      ensures !old(isRecording) && !supported ==>
        page == old(page).(notices := old(page.notices) + [UnsupportedNotice])
      ensures old(isRecording) ==>
        page == old(page) && recognizer == old(recognizer) && (recognizer != null ==> unchanged(recognizer))
      ensures old(recognizer) != null ==> recognizer == old(recognizer)
      ensures recognizer != old(recognizer) ==> fresh(recognizer)
      ensures Wrapper() == if !old(isRecording) && supported then Started(old(Wrapper())) else old(Wrapper())
      ensures currentQuestion == old(currentQuestion) && recognizedText == old(recognizedText)
      ensures currentQuestionText == old(currentQuestionText) && requests == old(requests)
    {
      SetAvatarState("listening");
      StartVoiceRecognition();
    }

    /** Asks for the CV analysis; on success shows the first question and asks for its audio. */
    method AnalyzeCV(reply: AnalyzeReply, audio: AudioReply)
      requires Valid()
      modifies this`page, this`avatars, this`requests, this`currentQuestionText
      ensures Valid()
      ensures reply.AnalyzeOk? ==>
        currentQuestionText == reply.firstQuestion &&
        requests == old(requests) + [AnalyzeRequest, AudioRequest(reply.firstQuestion)] &&
        avatars == Avatars(true, false) &&
        page == old(page).(
          questionText := reply.firstQuestion,
          audioSrc := if audio.AudioOk? then Some(audio.url) else old(page.audioSrc),
          loadingVisible := false,
          assessmentVisible := true)
      ensures !reply.AnalyzeOk? ==>
        currentQuestionText == old(currentQuestionText) && requests == old(requests) + [AnalyzeRequest] &&
        avatars == old(avatars) && page == old(page).(notices := old(page.notices) + [AnalyzeFailedNotice])
    {
      requests := requests + [AnalyzeRequest];
      if reply.AnalyzeOk? {
        currentQuestionText := reply.firstQuestion;
        DisplayQuestion(reply.firstQuestion);
        GenerateQuestionAudio(reply.firstQuestion, audio);
        page := page.(loadingVisible := false, assessmentVisible := true);
      } else {
        ShowError(AnalyzeFailedNotice);
      }
    }

    /** Marks every step before the current question completed and the current one active. */
    method UpdateProgress()
      requires Valid()
      modifies this`page, steps
      ensures Valid()
      ensures steps[..] == Progress(currentQuestion)
      ensures page == old(page).(progressLabel := currentQuestion)
    {
      for i := 1 to StepCount + 1
        invariant page == old(page)
        invariant forall k :: 0 <= k < i - 1 ==> steps[k] == StepFor(k + 1, currentQuestion)
      {
        if i < currentQuestion {
          steps[i - 1] := StepStatus(true, false);
        } else if i == currentQuestion {
          steps[i - 1] := StepStatus(false, true);
        } else {
          steps[i - 1] := StepStatus(false, false);
        }
      }
      page := page.(progressLabel := currentQuestion);
    }

    /** Hides the answer controls and clears the transcript and the recognised answer. */
    method ResetForNextQuestion()
      requires Valid()
      modifies this`page, this`recognizedText
      ensures Valid()
      ensures recognizedText == ""
      ensures page == old(page).(answerSectionVisible := false, submitVisible := false, transcribedText := "")
    {
      page := page.(answerSectionVisible := false, submitVisible := false, transcribedText := "");
      recognizedText := "";
    }

    /** Shows the completion screen with every step completed and none active. */
    method ShowCompletionScreen()
      requires Valid()
      modifies this`page, steps
      ensures Valid()
      ensures steps[..] == AllCompleted()
      ensures page == old(page).(assessmentVisible := false, completionVisible := true)
    {
      page := page.(assessmentVisible := false, completionVisible := true);
      for i := 1 to StepCount + 1
        invariant page == old(page).(assessmentVisible := false, completionVisible := true)
        invariant forall k :: 0 <= k < i - 1 ==> steps[k] == StepStatus(true, false)
      {
        steps[i - 1] := StepStatus(true, false);
      }
    }

    /**
     * Submits the answer: the recognised text, else the shown transcript. A
     * blank answer only shows a banner. Otherwise the answer is sent; on a
     * next question the server's number becomes current and the answer is
     * cleared, on completion the completion screen is shown, and on failure
     * only a banner is added.
     */
    method SubmitAnswer(reply: SubmitReply, audio: AudioReply)
      requires Valid()
      modifies this, steps
      ensures Valid()
      ensures isRecording == old(isRecording) && recognizer == old(recognizer)
      ensures old(AnswerToSend(recognizedText, page.transcribedText)).None? ==>
        requests == old(requests) && steps[..] == old(steps[..]) &&
        currentQuestion == old(currentQuestion) && recognizedText == old(recognizedText) &&
        currentQuestionText == old(currentQuestionText) &&
        avatars == old(avatars) && page == old(page).(notices := old(page.notices) + [EmptyAnswerNotice])
      ensures old(AnswerToSend(recognizedText, page.transcribedText)).Some? && reply.SubmitNext? ==>
        currentQuestion == reply.questionNumber && recognizedText == "" &&
        currentQuestionText == reply.nextQuestion && steps[..] == Progress(reply.questionNumber) &&
        requests == old(requests) + [AnswerRequest(old(currentQuestionText), old(AnswerToSend(recognizedText, page.transcribedText)).value),
                                     AudioRequest(reply.nextQuestion)] &&
        avatars == Avatars(true, false) &&
        page == old(page).(
          questionText := reply.nextQuestion,
          progressLabel := reply.questionNumber,
          audioSrc := if audio.AudioOk? then Some(audio.url) else old(page.audioSrc),
          answerSectionVisible := false,
          submitVisible := false,
          transcribedText := "")
      ensures old(AnswerToSend(recognizedText, page.transcribedText)).Some? && reply.SubmitCompleted? ==>
        currentQuestion == old(currentQuestion) && recognizedText == old(recognizedText) &&
        currentQuestionText == old(currentQuestionText) && steps[..] == AllCompleted() &&
        requests == old(requests) + [AnswerRequest(old(currentQuestionText), old(AnswerToSend(recognizedText, page.transcribedText)).value)] &&
        avatars == old(avatars) && page == old(page).(assessmentVisible := false, completionVisible := true)
      ensures old(AnswerToSend(recognizedText, page.transcribedText)).Some? && (reply.SubmitFailed? || reply.SubmitNetworkError?) ==>
        currentQuestion == old(currentQuestion) && recognizedText == old(recognizedText) &&
        currentQuestionText == old(currentQuestionText) && steps[..] == old(steps[..]) &&
        requests == old(requests) + [AnswerRequest(old(currentQuestionText), old(AnswerToSend(recognizedText, page.transcribedText)).value)] &&
        avatars == old(avatars) && page == old(page).(notices := old(page.notices) + [SubmitFailedNotice])
    {
      var answer := AnswerToSend(recognizedText, page.transcribedText);
      if answer.None? {
        ShowError(EmptyAnswerNotice);
      } else {
        SendAnswer(answer.value, reply, audio);
      }
    }

    /**
     * Sends a non-blank answer for the current question and acts on the
     * server's reply.
     */
    method SendAnswer(answer: string, reply: SubmitReply, audio: AudioReply)
      requires Valid()
      modifies this, steps
      ensures Valid()
      ensures isRecording == old(isRecording) && recognizer == old(recognizer)
      ensures reply.SubmitNext? ==>
        currentQuestion == reply.questionNumber && recognizedText == "" &&
        currentQuestionText == reply.nextQuestion && steps[..] == Progress(reply.questionNumber) &&
        requests == old(requests) + [AnswerRequest(old(currentQuestionText), answer),
                                     AudioRequest(reply.nextQuestion)] &&
        avatars == Avatars(true, false) &&
        page == old(page).(
          questionText := reply.nextQuestion,
          progressLabel := reply.questionNumber,
          audioSrc := if audio.AudioOk? then Some(audio.url) else old(page.audioSrc),
          answerSectionVisible := false,
          submitVisible := false,
          transcribedText := "")
      ensures reply.SubmitCompleted? ==>
        currentQuestion == old(currentQuestion) && recognizedText == old(recognizedText) &&
        currentQuestionText == old(currentQuestionText) && steps[..] == AllCompleted() &&
        requests == old(requests) + [AnswerRequest(old(currentQuestionText), answer)] &&
        avatars == old(avatars) && page == old(page).(assessmentVisible := false, completionVisible := true)
      ensures (reply.SubmitFailed? || reply.SubmitNetworkError?) ==>
        currentQuestion == old(currentQuestion) && recognizedText == old(recognizedText) &&
        currentQuestionText == old(currentQuestionText) && steps[..] == old(steps[..]) &&
        requests == old(requests) + [AnswerRequest(old(currentQuestionText), answer)] &&
        avatars == old(avatars) && page == old(page).(notices := old(page.notices) + [SubmitFailedNotice])
    {
      requests := requests + [AnswerRequest(currentQuestionText, answer)];
      match reply
      case SubmitCompleted =>
        ShowCompletionScreen();
      case SubmitNext(number, question) =>
        AdvanceTo(number, question, audio);
      case _ =>
        ShowError(SubmitFailedNotice);
    }

    /**
     * The server accepted the answer and sent the next question: progress
     * moves to it, it is shown and spoken, and the answer area is cleared.
     */
    method AdvanceTo(number: int, question: string, audio: AudioReply)
      requires Valid()
      modifies this, steps
      ensures Valid()
      ensures isRecording == old(isRecording) && recognizer == old(recognizer)
      ensures currentQuestion == number && recognizedText == "" &&
        currentQuestionText == question && steps[..] == Progress(number) &&
        requests == old(requests) + [AudioRequest(question)]
      ensures avatars == Avatars(true, false)
      ensures page == old(page).(
        questionText := question,
        progressLabel := number,
        audioSrc := if audio.AudioOk? then Some(audio.url) else old(page.audioSrc),
        answerSectionVisible := false,
        submitVisible := false,
        transcribedText := "")
    {
      currentQuestion := number;
      UpdateProgress();
      DisplayQuestion(question);
      GenerateQuestionAudio(question, audio);
      ResetForNextQuestion();
    }
  }

  /**
   * Two clicks on the record button from an idle page: the first starts the
   * platform recogniser, the second stops recording without stopping it, and
   * the button keeps its "Stop Recording" label.
   */
  method RecordClickTwice(c: Controller)
    requires c.Valid() && !c.isRecording && c.supported && !c.Wrapper().isListening
    modifies c, c.recognizer
    ensures c.Valid() && !c.isRecording && c.recognizer != null
    ensures c.Wrapper() == Started(old(c.Wrapper()))
    ensures c.Wrapper().startCalls == old(c.Wrapper().startCalls) + 1 && c.Wrapper().stopCalls == old(c.Wrapper().stopCalls)
    ensures c.avatars == Avatars(false, false)
    ensures c.page == old(c.page).(recordButtonStops := true, recordingIndicatorVisible := true)
  {
    c.OnRecordClick();
    c.OnRecordClick();
  }
}
