/**
 * The browser speech-recognition wrapper: a class that owns the platform
 * recogniser, keeps the listening flag and the two transcripts, and turns
 * each platform result event into a final/interim split.
 *
 * The platform recogniser is abstract: `recognition` is None until
 * `Initialize` creates it (and then holds its configuration), and the
 * counters `startCalls`, `stopCalls` and `abortCalls` record the calls the
 * wrapper issues on it. The platform's events (`onstart`, `onresult`,
 * `onerror`, `onend`) are the methods OnStart, OnResult, OnError and OnEnd;
 * each returns the value the wrapper hands to its client callback.
 */
module SpeechRecognition {
  import opened Wrappers

  /** One recognition result: the first alternative's text and its finality. */
  datatype Segment = Segment(text: string, isFinal: bool)

  /** A platform result event: every result so far, and the index of the first changed one. */
  datatype ResultEvent = ResultEvent(results: seq<Segment>, resultIndex: nat)

  /** The value handed to the client's onResult callback. */
  datatype RecognitionResult = RecognitionResult(final: string, interim: string, isFinal: bool)

  /** Configuration of the platform recogniser. */
  datatype Config = Config(lang: string, continuous: bool, interimResults: bool, maxAlternatives: nat)

  datatype Outcome = Pass | Fail(message: string)

  const UnsupportedMessage: string := "Speech recognition not supported in this browser"

  /** The configuration `initialize` gives a new recogniser. */
  const InitialConfig: Config := Config("fr-FR", true, true, 1)

  /** The texts of the final segments, concatenated in order. */
  function FinalText(segs: seq<Segment>): string
  {
    if segs == [] then ""
    else (if segs[0].isFinal then segs[0].text else "") + FinalText(segs[1..])
  }

  /** The texts of the non-final segments, concatenated in order. */
  function InterimText(segs: seq<Segment>): string
  {
    if segs == [] then ""
    else (if segs[0].isFinal then "" else segs[0].text) + InterimText(segs[1..])
  }

  /** The texts of all segments, concatenated in order. */
  function AllText(segs: seq<Segment>): string
  {
    if segs == [] then "" else segs[0].text + AllText(segs[1..])
  }

  /** The segments an event handler reads: those from `resultIndex` on. */
  function Pending(e: ResultEvent): (p: seq<Segment>)
    ensures e.resultIndex <= |e.results| ==> p == e.results[e.resultIndex..]
    ensures |e.results| <= e.resultIndex ==> p == []
  {
    if e.resultIndex <= |e.results| then e.results[e.resultIndex..] else []
  }

  /**
   * What one result event reports: the final/interim split of its pending
   * segments. It is final exactly when some pending segment is final and has
   * text; a final segment with empty text does not make it final.
   */
  function Summarize(e: ResultEvent): (r: RecognitionResult)
    ensures r.isFinal <==> r.final != ""
    ensures r.isFinal <==>
      exists j :: e.resultIndex <= j < |e.results| && e.results[j].isFinal && e.results[j].text != ""
    ensures r.final == FinalText(Pending(e)) && r.interim == InterimText(Pending(e))
  {
    var f := FinalText(Pending(e));
    FinalTextEmpty(Pending(e));
    if e.resultIndex <= |e.results| then
      assert forall j :: e.resultIndex <= j < |e.results| ==> e.results[j] == Pending(e)[j - e.resultIndex];
      RecognitionResult(f, InterimText(Pending(e)), |f| > 0)
    else
      RecognitionResult(f, InterimText(Pending(e)), |f| > 0)
  }

  /** The final text is empty exactly when no final segment has text. */
  lemma {:induction false} FinalTextEmpty(segs: seq<Segment>)
    ensures FinalText(segs) == "" <==> forall j :: 0 <= j < |segs| && segs[j].isFinal ==> segs[j].text == ""
  {
    if segs != [] {
      FinalTextEmpty(segs[1..]);
      assert forall j :: 1 <= j < |segs| ==> segs[j] == segs[1..][j - 1];
    }
  }

  /** Splitting a sequence of segments splits the final transcript at the same place. */
  lemma {:induction false} FinalTextAppend(a: seq<Segment>, b: seq<Segment>)
    ensures FinalText(a + b) == FinalText(a) + FinalText(b)
  {
    if a == [] {
      assert a + b == b;
    } else {
      assert (a + b)[0] == a[0] && (a + b)[1..] == a[1..] + b;
      FinalTextAppend(a[1..], b);
    }
  }

  /** Splitting a sequence of segments splits the interim transcript at the same place. */
  lemma {:induction false} InterimTextAppend(a: seq<Segment>, b: seq<Segment>)
    ensures InterimText(a + b) == InterimText(a) + InterimText(b)
  {
    if a == [] {
      assert a + b == b;
    } else {
      assert (a + b)[0] == a[0] && (a + b)[1..] == a[1..] + b;
      InterimTextAppend(a[1..], b);
    }
  }

  /** Every segment's text goes to exactly one of the two transcripts. */
  lemma {:induction false} SplitCoversAll(segs: seq<Segment>)
    ensures |FinalText(segs)| + |InterimText(segs)| == |AllText(segs)|
  {
    if segs != [] {
      SplitCoversAll(segs[1..]);
    }
  }

  /** When every segment is final, the final transcript is the whole text and nothing is interim. */
  lemma {:induction false} AllFinalSegments(segs: seq<Segment>)
    requires forall k :: 0 <= k < |segs| ==> segs[k].isFinal
    ensures FinalText(segs) == AllText(segs)
    ensures InterimText(segs) == ""
  {
    if segs != [] {
      AllFinalSegments(segs[1..]);
    }
  }

  /** Segments before `resultIndex` are never read: replacing one changes nothing reported. */
  lemma EarlierSegmentsIgnored(e: ResultEvent, j: nat, seg: Segment)
    requires j < e.resultIndex && j < |e.results|
    ensures Summarize(ResultEvent(e.results[j := seg], e.resultIndex)) == Summarize(e)
  {
    var e' := ResultEvent(e.results[j := seg], e.resultIndex);
    if e.resultIndex <= |e.results| {
      assert Pending(e') == Pending(e);
    }
  }

  class BrowserSpeechRecognition {
    /** Whether the browser offers a speech-recognition constructor. */
    const supported: bool
    /** The platform recogniser and its configuration, None while not created. */
    var recognition: Option<Config>
    var isListening: bool
    var transcript: string
    var interimTranscript: string
    /** Calls issued on the platform recogniser. */
    var startCalls: nat
    var stopCalls: nat
    var abortCalls: nat

    /** The listening flag is only ever set by the recogniser's own start event. */
    ghost predicate Valid()
      reads this
    {
      (recognition.Some? ==> supported) && (recognition.None? ==> !isListening)
    }

    constructor (supported: bool)
      ensures Valid() && this.supported == supported
      ensures recognition == None && !isListening
      ensures transcript == "" && interimTranscript == ""
      ensures startCalls == 0 && stopCalls == 0 && abortCalls == 0
    {
      this.supported := supported;
      recognition := None;
      isListening := false;
      transcript := "";
      interimTranscript := "";
      startCalls, stopCalls, abortCalls := 0, 0, 0;
    }

    /** Creates and configures the platform recogniser; fails when the browser has none. */
    method Initialize() returns (r: Outcome)
      requires Valid()
      modifies this`recognition
      ensures Valid()
      ensures r == (if supported then Pass else Fail(UnsupportedMessage))
      ensures recognition == if supported then Some(InitialConfig) else old(recognition)
    {
      if !supported {
        return Fail(UnsupportedMessage);
      }
      recognition := Some(InitialConfig);
      r := Pass;
    }

    /**
     * Starts listening. Creates the recogniser first if there is none. While
     * not listening it clears both transcripts and issues one platform start;
     * while listening it does nothing. The listening flag is not set here.
     */
    method Start() returns (r: Outcome)
      requires Valid()
      modifies this
      ensures Valid()
      ensures r.Fail? <==> old(recognition).None? && !supported
      ensures r.Fail? ==> r == Fail(UnsupportedMessage) && recognition == old(recognition)
      ensures r.Fail? ==> startCalls == old(startCalls)
      ensures r.Fail? || old(isListening) ==>
        transcript == old(transcript) && interimTranscript == old(interimTranscript) && startCalls == old(startCalls)
      ensures r.Pass? ==> recognition == if old(recognition).None? then Some(InitialConfig) else old(recognition)
      ensures r.Pass? && !old(isListening) ==>
        transcript == "" && interimTranscript == "" && startCalls == old(startCalls) + 1
      ensures isListening == old(isListening)
      ensures stopCalls == old(stopCalls) && abortCalls == old(abortCalls)
    {
      if recognition.None? {
        r := Initialize();
        if r.Fail? {
          return;
        }
      }
      r := Pass;
      if !isListening {
        transcript := "";
        interimTranscript := "";
        startCalls := startCalls + 1;
      }
    }

    /** Asks the recogniser to stop, only when it exists and is listening; the flag is left alone. */
    method Stop()
      requires Valid()
      modifies this`stopCalls
      ensures Valid()
      ensures stopCalls == old(stopCalls) + (if recognition.Some? && isListening then 1 else 0)
    {
      if recognition.Some? && isListening {
        stopCalls := stopCalls + 1;
      }
    }

    /** Aborts the recogniser under the same guard as Stop, and then clears the flag. */
    method Abort()
      requires Valid()
      modifies this`abortCalls, this`isListening
      ensures Valid()
      ensures abortCalls == old(abortCalls) + (if recognition.Some? && old(isListening) then 1 else 0)
      ensures !isListening
    {
      if recognition.Some? && isListening {
        abortCalls := abortCalls + 1;
        isListening := false;
      }
    }

    /** The platform's start event. */
    method OnStart()
      requires Valid() && recognition.Some?
      modifies this`isListening
      ensures Valid() && isListening
    {
      isListening := true;
    }

    /**
     * The platform's result event: splits the segments from `resultIndex` on
     * into a final and an interim string, and overwrites both transcripts.
     */
    method OnResult(e: ResultEvent) returns (r: RecognitionResult)
      requires Valid()
      modifies this`transcript, this`interimTranscript
      ensures Valid()
      ensures r == Summarize(e)
      ensures transcript == r.final && interimTranscript == r.interim
      ensures GetCurrentTranscript() == r.final + r.interim
    {
      var finalText := "";
      var interimText := "";
      var i := e.resultIndex;
      while i < |e.results|
        invariant e.resultIndex <= |e.results| ==> e.resultIndex <= i <= |e.results|
        invariant e.resultIndex <= |e.results| ==> finalText == FinalText(e.results[e.resultIndex..i])
        invariant e.resultIndex <= |e.results| ==> interimText == InterimText(e.results[e.resultIndex..i])
        invariant |e.results| < e.resultIndex ==> i == e.resultIndex && finalText == "" && interimText == ""
      {
        var seg := e.results[i];
        assert e.results[e.resultIndex..i + 1] == e.results[e.resultIndex..i] + [seg];
        FinalTextAppend(e.results[e.resultIndex..i], [seg]);
        InterimTextAppend(e.results[e.resultIndex..i], [seg]);
        if seg.isFinal {
          finalText := finalText + seg.text;
        } else {
          interimText := interimText + seg.text;
        }
        i := i + 1;
      }
      assert e.resultIndex <= |e.results| ==> e.results[e.resultIndex..i] == Pending(e);
      transcript := finalText;
      interimTranscript := interimText;
      r := RecognitionResult(finalText, interimText, |finalText| > 0);
    }

    /** The platform's error event: listening ends and the error is forwarded. */
    method OnError(error: string) returns (reported: string)
      requires Valid()
      modifies this`isListening
      ensures Valid() && !isListening
      ensures reported == error
    {
      isListening := false;
      reported := error;
    }

    /** The platform's end event: listening ends and the final transcript is forwarded. */
    method OnEnd() returns (finalTranscript: string)
      requires Valid()
      modifies this`isListening
      ensures Valid() && !isListening
      ensures finalTranscript == transcript
    {
      isListening := false;
      finalTranscript := transcript;
    }

    /** The final transcript: always the start of the current one. */
    function GetFinalTranscript(): (s: string)
      reads this
      ensures s <= GetCurrentTranscript()
    {
      transcript
    }

    /** The final transcript followed by the interim one. */
    function GetCurrentTranscript(): (s: string)
      reads this
      ensures |s| == |transcript| + |interimTranscript|
      ensures s[..|transcript|] == transcript && s[|transcript|..] == interimTranscript
    {
      transcript + interimTranscript
    }

    method SetLanguage(lang: string)
      requires Valid()
      modifies this`recognition
      ensures Valid()
      ensures recognition == if old(recognition).Some? then Some(old(recognition).value.(lang := lang)) else None
    {
      if recognition.Some? {
        recognition := Some(recognition.value.(lang := lang));
      }
    }

    method SetContinuous(continuous: bool)
      requires Valid()
      modifies this`recognition
      ensures Valid()
      ensures recognition == if old(recognition).Some? then Some(old(recognition).value.(continuous := continuous)) else None
    {
      if recognition.Some? {
        recognition := Some(recognition.value.(continuous := continuous));
      }
    }

    method SetInterimResults(interim: bool)
      requires Valid()
      modifies this`recognition
      ensures Valid()
      ensures recognition == if old(recognition).Some? then Some(old(recognition).value.(interimResults := interim)) else None
    {
      if recognition.Some? {
        recognition := Some(recognition.value.(interimResults := interim));
      }
    }
  }

  /** Two starts with the start event in between issue one platform start. */
  method StartAfterStartEvent(rec: BrowserSpeechRecognition)
    requires rec.Valid() && rec.supported && !rec.isListening
    modifies rec
    ensures rec.isListening && rec.startCalls == old(rec.startCalls) + 1
  {
    var r1 := rec.Start();
    rec.OnStart();
    var r2 := rec.Start();
  }

  /** Two starts before the start event arrives issue two platform starts: the guard lags. */
  method StartBeforeStartEvent(rec: BrowserSpeechRecognition)
    requires rec.Valid() && rec.supported && !rec.isListening
    modifies rec
    ensures !rec.isListening && rec.startCalls == old(rec.startCalls) + 2
  {
    var r1 := rec.Start();
    var r2 := rec.Start();
  }
}
