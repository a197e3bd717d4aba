/** The recording session of the AudioRecorder component: eight pieces of state,
    changed only by the component's event handlers and by the promises those
    handlers start. Each handler, and each promise resolution that writes
    state, is one atomic step. */
module AudioRecorder {
  import opened Effects

  /** The four languages the two selectors offer. */
  datatype Language = En | Hi | Es | Fr

  /** The value a selector stores and sends to the backend. */
  function Code(l: Language): (c: string)
    ensures |c| == 2 && c in ["en", "hi", "es", "fr"]
  {
    match l
    case En => "en"
    case Hi => "hi"
    case Es => "es"
    case Fr => "fr"
  }

  lemma CodeInjective(a: Language, b: Language)
    ensures Code(a) == Code(b) ==> a == b
  {
  }

  /** One snapshot of the component's state. The four strings use "" for
      "nothing yet". */
  datatype Session = Session(
    recording: bool,
    paused: bool,
    audioUrl: string,
    transcription: string,
    generatedString: string,
    result: string,
    language: Language,
    targetLanguage: Language)

  /** The state on mount. */
  const Initial := Session(false, false, "", "", "", "", En, En)

  /** Names for the fields of a Session, so that a step can say which fields
      it may change. */
  datatype Field =
    | RecordingFlag | PausedFlag | AudioUrlField | TranscriptionField
    | GeneratedField | ResultField | LanguageField | TargetField

  /** t agrees with s on every field not in `changed`. */
  predicate SameExcept(s: Session, t: Session, changed: set<Field>) {
    && (RecordingFlag !in changed ==> t.recording == s.recording)
    && (PausedFlag !in changed ==> t.paused == s.paused)
    && (AudioUrlField !in changed ==> t.audioUrl == s.audioUrl)
    && (TranscriptionField !in changed ==> t.transcription == s.transcription)
    && (GeneratedField !in changed ==> t.generatedString == s.generatedString)
    && (ResultField !in changed ==> t.result == s.result)
    && (LanguageField !in changed ==> t.language == s.language)
    && (TargetField !in changed ==> t.targetLanguage == s.targetLanguage)
  }

  /** An MP3 produced by the microphone library when a recording stops,
      together with the object URL made for it. */
  datatype Mp3 = Mp3(blob: Bytes, url: Url)

  /** The requests the component sends to the backend. */
  datatype Request =
      /** POST /process, a multipart form with the recording. */
    | Process(field: string, file: Bytes, fileName: string)
      /** GET /generate?language=... */
    | Generate(language: string)
      /** GET /ask?gen=...&trans=...&language=...&targetLanguage=... */
    | Ask(gen: string, trans: string, language: string, targetLanguage: string)

  /** The upload a completed stop sends for transcription. */
  function Upload(m: Mp3): Request {
    Process("file", m.blob, "audio.mp3")
  }

  // ---------------------------------------------------------------------
  // One function per state-changing step.
  // ---------------------------------------------------------------------

  /** `recorder.start()` settles: on success only `recording` becomes true. */
  function Start(s: Session, deviceOk: bool): (r: Session)
    ensures deviceOk ==> r.recording && SameExcept(s, r, {RecordingFlag})
    ensures !deviceOk ==> r == s
  {
    if deviceOk then s.(recording := true) else s
  }

  /** `recorder.pause()` settles: on success only `paused` becomes true. */
  function Pause(s: Session, deviceOk: bool): (r: Session)
    ensures deviceOk ==> r.paused && SameExcept(s, r, {PausedFlag})
    ensures !deviceOk ==> r == s
  {
    if deviceOk then s.(paused := true) else s
  }

  /** `recorder.resume()` settles: on success only `paused` becomes false. */
  function Resume(s: Session, deviceOk: bool): (r: Session)
    ensures deviceOk ==> !r.paused && SameExcept(s, r, {PausedFlag})
    ensures !deviceOk ==> r == s
  {
    if deviceOk then s.(paused := false) else s
  }

  /** `recorder.stop().getMp3()` settles. On success the new audio handle is
      stored and the session is neither recording nor paused, whatever it was
      before; the transcription is left for the later response. A rejected
      encoding has no handler, so nothing changes. */
  function StopComplete(s: Session, encoded: Outcome<Mp3>): (r: Session)
    ensures encoded.Ok? ==>
      && r.audioUrl == encoded.value.url
      && !r.recording && !r.paused
      && SameExcept(s, r, {AudioUrlField, RecordingFlag, PausedFlag})
    ensures encoded.Fail? ==> r == s
  {
    match encoded
    case Ok(m) => s.(audioUrl := m.url, recording := false, paused := false)
    case Fail => s
  }

  /** The response to the upload: on success only `transcription` changes. */
  function TranscriptionArrived(s: Session, response: Outcome<string>): (r: Session)
    ensures response.Ok? ==> r.transcription == response.value && SameExcept(s, r, {TranscriptionField})
    ensures response.Fail? ==> r == s
  {
    match response
    case Ok(text) => s.(transcription := text)
    case Fail => s
  }

  /** `clearRecording`: the audio, the transcription and the result become
      empty; nothing else changes. */
  function Clear(s: Session): (r: Session)
    ensures r.audioUrl == "" && r.transcription == "" && r.result == ""
    ensures SameExcept(s, r, {AudioUrlField, TranscriptionField, ResultField})
  {
    s.(audioUrl := "", transcription := "", result := "")
  }

  lemma ClearIdempotent(s: Session)
    ensures Clear(Clear(s)) == Clear(s)
  {
  }

  /** The request `generateString` sends: the code of the current source
      language. */
  function GenerateQuery(s: Session): (q: Request)
    ensures q.Generate? && q.language == Code(s.language)
  {
    Generate(Code(s.language))
  }

  /** The response to /generate: on success only `generatedString` changes;
      an earlier `result` is kept. */
  function GeneratedArrived(s: Session, response: Outcome<string>): (r: Session)
    ensures response.Ok? ==> r.generatedString == response.value && SameExcept(s, r, {GeneratedField})
    ensures response.Fail? ==> r == s
  {
    match response
    case Ok(text) => s.(generatedString := text)
    case Fail => s
  }

  /** The "Check Result" button is enabled. */
  predicate CheckEnabled(s: Session) {
    !(s.transcription == "" || s.generatedString == "")
  }

  /** What `checkResult` does with state `s`: no request if an input is
      missing, otherwise one request carrying the current values. */
  function AskQuery(s: Session): (q: Option<Request>)
    ensures q.None? <==> s.transcription == "" || s.generatedString == ""
    ensures q.None? <==> !CheckEnabled(s)
    ensures q.Some? ==>
      q.value == Ask(s.generatedString, s.transcription, Code(s.language), Code(s.targetLanguage))
  {
    if s.transcription == "" || s.generatedString == "" then None
    else Some(Ask(s.generatedString, s.transcription, Code(s.language), Code(s.targetLanguage)))
  }

  /** The response to /ask: on success only `result` changes. */
  function ResultArrived(s: Session, response: Outcome<string>): (r: Session)
    ensures response.Ok? ==> r.result == response.value && SameExcept(s, r, {ResultField})
    ensures response.Fail? ==> r == s
  {
    match response
    case Ok(verdict) => s.(result := verdict)
    case Fail => s
  }

  /** A choice in the source-language selector. */
  function LanguageSelected(s: Session, l: Language): (r: Session)
    ensures r.language == l && SameExcept(s, r, {LanguageField})
  {
    s.(language := l)
  }

  /** A choice in the target-language selector. */
  function TargetSelected(s: Session, l: Language): (r: Session)
    ensures r.targetLanguage == l && SameExcept(s, r, {TargetField})
  {
    s.(targetLanguage := l)
  }

  // ---------------------------------------------------------------------
  // What the user can make happen, through the rendered buttons.
  // ---------------------------------------------------------------------

  /** Everything that can change the session. The generate and check clicks
      change no state, so only their responses appear. A response may arrive
      at any point: the code does not track requests in flight. */
  datatype Event =
    | MainButton(deviceOk: bool, encoded: Outcome<Mp3>)
    | PauseButton(deviceOk: bool)
    | TranscriptionResponse(transcript: Outcome<string>)
    | GenerateResponse(phrase: Outcome<string>)
    | CheckResponse(verdict: Outcome<string>)
    | ClearButton
    | SourceChosen(source: Language)
    | TargetChosen(target: Language)

  /** The three states of the capture the buttons show. */
  datatype Phase = Idle | Recording | Paused

  predicate PausedImpliesRecording(s: Session) {
    s.paused ==> s.recording
  }

  function PhaseOf(s: Session): Phase {
    if !s.recording then Idle else if s.paused then Paused else Recording
  }

  /** The machine the buttons are meant to implement, stated on its own. */
  function Next(p: Phase, e: Event): Phase {
    match e
    case MainButton(deviceOk, encoded) =>
      if p == Idle then (if deviceOk then Recording else Idle)
      else if encoded.Ok? then Idle else p
    case PauseButton(deviceOk) =>
      if p == Recording && deviceOk then Paused
      else if p == Paused && deviceOk then Recording
      else p
    case _ => p
  }

  /** One event. The main button stops while recording and starts otherwise;
      the pause button exists only while recording and resumes when paused,
      pauses otherwise (a click on a button that is not shown cannot happen,
      so that event changes nothing). */
  function Step(s: Session, e: Event): (r: Session)
    ensures PausedImpliesRecording(s) ==>
      PausedImpliesRecording(r) && PhaseOf(r) == Next(PhaseOf(s), e)
  {
    match e
    case MainButton(deviceOk, encoded) =>
      if s.recording then StopComplete(s, encoded) else Start(s, deviceOk)
    case PauseButton(deviceOk) =>
      if !s.recording then s
      else if s.paused then Resume(s, deviceOk)
      else Pause(s, deviceOk)
    case TranscriptionResponse(t) => TranscriptionArrived(s, t)
    case GenerateResponse(g) => GeneratedArrived(s, g)
    case CheckResponse(v) => ResultArrived(s, v)
    case ClearButton => Clear(s)
    case SourceChosen(l) => LanguageSelected(s, l)
    case TargetChosen(l) => TargetSelected(s, l)
  }

  lemma MainButtonWhenNotRecording(s: Session, deviceOk: bool, encoded: Outcome<Mp3>)
    requires !s.recording
    ensures Step(s, MainButton(deviceOk, encoded)) == Start(s, deviceOk)
  {
  }

  /** The session after a sequence of events. */
  function Run(s: Session, es: seq<Event>): Session
    decreases |es|
  {
    if es == [] then s else Step(Run(s, es[..|es| - 1]), es[|es| - 1])
  }

  /** The reference machine after a sequence of events. */
  function Replay(p: Phase, es: seq<Event>): Phase
    decreases |es|
  {
    if es == [] then p else Next(Replay(p, es[..|es| - 1]), es[|es| - 1])
  }

  /** In every state the buttons can reach, `paused` implies `recording`, and
      the session's capture state is the one the reference machine reaches. */
  lemma {:induction false} RunFollowsMachine(s: Session, es: seq<Event>)
    requires PausedImpliesRecording(s)
    ensures PausedImpliesRecording(Run(s, es))
    ensures PhaseOf(Run(s, es)) == Replay(PhaseOf(s), es)
    decreases |es|
  {
    if es != [] {
      RunFollowsMachine(s, es[..|es| - 1]);
    }
  }

  /** Event i of es is the completion of a stop that stored handle u. */
  ghost predicate StoredByStop(es: seq<Event>, i: int, u: string)
    requires 0 <= i < |es|
  {
    && es[i].MainButton?
    && Run(Initial, es[..i]).recording
    && es[i].encoded.Ok?
    && es[i].encoded.value.url == u
  }

  /** The audio the player shows was stored by a completed stop. */
  lemma {:induction false} AudioUrlComesFromStop(es: seq<Event>)
    ensures Run(Initial, es).audioUrl != "" ==>
      exists i :: 0 <= i < |es| && StoredByStop(es, i, Run(Initial, es).audioUrl)
    decreases |es|
  {
    if es != [] {
      var n := |es| - 1;
      var pre := es[..n];
      var s := Run(Initial, pre);
      var u := Run(Initial, es).audioUrl;
      assert Run(Initial, es) == Step(s, es[n]);
      if u != "" {
        if es[n].MainButton? && s.recording && es[n].encoded.Ok? {
          assert StoredByStop(es, n, u);
        } else {
          assert s.audioUrl == u;
          AudioUrlComesFromStop(pre);
          var i :| 0 <= i < |pre| && StoredByStop(pre, i, u);
          assert pre[..i] == es[..i];
          assert StoredByStop(es, i, u);
        }
      }
    }
  }

  /** The code drops no late response: a transcription that arrives after a
      clear is shown all the same. */
  lemma LateTranscriptionIsApplied(s: Session, text: string)
    ensures Step(Clear(s), TranscriptionResponse(Ok(text))).transcription == text
  {
  }

  // ---------------------------------------------------------------------
  // The component, with its state as mutable fields.
  // ---------------------------------------------------------------------

  class Component {
    var recording: bool
    var paused: bool
    var audioUrl: string
    var transcription: string
    var generatedString: string
    var result: string
    var language: Language
    var targetLanguage: Language

    function Snapshot(): Session
      reads this
    {
      Session(recording, paused, audioUrl, transcription, generatedString, result, language, targetLanguage)
    }

    constructor ()
      ensures Snapshot() == Initial
    {
      recording, paused := false, false;
      audioUrl, transcription, generatedString, result := "", "", "", "";
      language, targetLanguage := En, En;
    }

    method StartRecording(deviceOk: bool)
      modifies this
      ensures Snapshot() == Start(old(Snapshot()), deviceOk)
    {
      if deviceOk {
        recording := true;
      }
    }

    method PauseRecording(deviceOk: bool)
      modifies this
      ensures Snapshot() == Pause(old(Snapshot()), deviceOk)
    {
      if deviceOk {
        paused := true;
      }
    }

    method ResumeRecording(deviceOk: bool)
      modifies this
      ensures Snapshot() == Resume(old(Snapshot()), deviceOk)
    {
      if deviceOk {
        paused := false;
      }
    }

    /** The completion of `stopRecording`; returns the upload it sends. */
    method StopRecording(encoded: Outcome<Mp3>) returns (upload: Option<Request>)
      modifies this
      ensures Snapshot() == StopComplete(old(Snapshot()), encoded)
      ensures upload == if encoded.Ok? then Some(Upload(encoded.value)) else None
    {
      upload := None;
      if encoded.Ok? {
        audioUrl := encoded.value.url;
        recording := false;
        paused := false;
        upload := Some(Upload(encoded.value));
      }
    }

    method ReceiveTranscription(response: Outcome<string>)
      modifies this
      ensures Snapshot() == TranscriptionArrived(old(Snapshot()), response)
    {
      if response.Ok? {
        transcription := response.value;
      }
    }

    method ClearRecording()
      modifies this
      ensures Snapshot() == Clear(old(Snapshot()))
    {
      audioUrl := "";
      transcription := "";
      result := "";
    }

    /** `generateString`: sends the request and changes nothing yet. */
    method GenerateString() returns (q: Request)
      ensures q == GenerateQuery(Snapshot())
    {
      q := Generate(Code(language));
    }

    method ReceiveGeneratedString(response: Outcome<string>)
      modifies this
      ensures Snapshot() == GeneratedArrived(old(Snapshot()), response)
    {
      if response.Ok? {
        generatedString := response.value;
      }
    }

    /** `checkResult`: returns the request it sends, if any, and changes
        nothing yet. */
    method CheckResult() returns (q: Option<Request>)
      ensures q == AskQuery(Snapshot())
    {
      if transcription == "" || generatedString == "" {
        return None;
      }
      q := Some(Ask(generatedString, transcription, Code(language), Code(targetLanguage)));
    }

    method ReceiveResult(response: Outcome<string>)
      modifies this
      ensures Snapshot() == ResultArrived(old(Snapshot()), response)
    {
      if response.Ok? {
        result := response.value;
      }
    }

    method SelectLanguage(l: Language)
      modifies this
      ensures Snapshot() == LanguageSelected(old(Snapshot()), l)
    {
      language := l;
    }

    method SelectTargetLanguage(l: Language)
      modifies this
      ensures Snapshot() == TargetSelected(old(Snapshot()), l)
    {
      targetLanguage := l;
    }

    /** The main button: stop while recording, start otherwise. */
    method PressMainButton(deviceOk: bool, encoded: Outcome<Mp3>) returns (upload: Option<Request>)
      modifies this
      ensures Snapshot() == Step(old(Snapshot()), MainButton(deviceOk, encoded))
      ensures upload == if old(recording) && encoded.Ok? then Some(Upload(encoded.value)) else None
    {
      upload := None;
      if recording {
        upload := StopRecording(encoded);
      } else {
        StartRecording(deviceOk);
      }
    }

    /** The pause/resume button, rendered only while recording. */
    method PressPauseButton(deviceOk: bool)
      requires recording
      modifies this
      ensures Snapshot() == Step(old(Snapshot()), PauseButton(deviceOk))
    {
      if paused {
        ResumeRecording(deviceOk);
      } else {
        PauseRecording(deviceOk);
      }
    }
  }
}
