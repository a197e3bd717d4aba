# A.I Language Tutor: recording session and speech synthesis, modelled in Dafny

The application records a learner's speech and sends it to a backend for
transcription. It asks the backend for a reference phrase in a chosen source
language, then asks it to compare the two (optionally translated into a target
language). A second component turns typed text into synthesized speech.

This project models the state logic of the two components:

- `AudioRecorder` (`audio_recorder.dfy`). Its eight state fields are
  `recording`, `paused`, `audioUrl`, `transcription`, `generatedString`,
  `result`, `language` and `targetLanguage`. The model holds them in the
  value `Session` and as the fields of class `AudioRecorder.Component`.
  - Each handler, and each promise resolution that writes state, has two
    members: a function on `Session` that says which fields it sets and that
    every other field stays unchanged (`SameExcept`), and a method of
    `Component` that updates the fields in place and whose `ensures` ties the
    new snapshot to that function.
  - The button rules define `Step` over user events. `Step` is proved to keep
    `paused ==> recording` and to follow a separately stated three-state
    machine (`Idle`, `Recording`, `Paused`). `RunFollowsMachine` extends this
    to every sequence of events.
- `SpeechGenerator` (`speech_generator.dfy`). This component has two fields:
  `text` and `audioUrl`, which is null on mount. `generateSpeech` is one guarded
  step. `AudioComesFromSynthesis` proves that any non-null handle was produced
  by a successful synthesis of non-empty text.
- `effects.dfy`. This file holds the shared values:
  - `Outcome` is how an unmodelled promise settles: resolved with a value, or
    rejected.
  - `Url` is a non-empty object URL.

External calls become parameters:
- `startRecording`, `pauseRecording` and `resumeRecording` take `deviceOk`, for
  `recorder.start()`, `pause()` and `resume()`.
- `StopRecording` takes `encoded: Outcome<Mp3>`, for `getMp3()` together with
  `URL.createObjectURL`.
- Each axios response is an `Outcome<string>`.
- `GenerateSpeech` takes `synthesized: Outcome<Url>`, for `fetch`, the read of
  the body and `URL.createObjectURL`.

Requests that are sent come back as values (`Request`, `SpeechRequest`), so
their contents can be stated.

The model follows what the code does, including where a richer design would
differ:
- Starting a new recording does not clear the previous `audioUrl`,
  `transcription` or `result`.
- `clearRecording` never touches `recording` or `paused`, so it works while
  recording too.
- There are no `Pending`/`Failed` statuses.
- Nothing rejects a second request while one is in flight, and no session
  generation counter drops stale responses (`LateTranscriptionIsApplied`).
- A new generated phrase does not reset `result`.
- Text that is only whitespace is not refused: the guard is JavaScript
  truthiness (`WhitespaceIsNotRefused`).
- Failures are only logged. The model carries no error values: a failure
  changes no state.

## Model

| member | source | states |
|---|---|---|
| AudioRecorder.Code | src/AudioRecorder.js:134-137 | each selector language is stored as one of the two-letter codes `en`, `hi`, `es`, `fr`, the value the requests send (lines 96, 112-113) |
| AudioRecorder.CodeInjective | src/AudioRecorder.js:134-137 | different languages have different codes |
| AudioRecorder.Start | src/AudioRecorder.js:52-56 | a successful start sets `recording` and changes no other field; a failed start changes nothing |
| AudioRecorder.Pause | src/AudioRecorder.js:58-62 | a successful pause sets `paused` and changes no other field (in particular not `audioUrl`, `transcription`, `result`); a failure changes nothing |
| AudioRecorder.Resume | src/AudioRecorder.js:64-68 | a successful resume clears `paused` and changes no other field; a failure changes nothing |
| AudioRecorder.StopComplete | src/AudioRecorder.js:70-76 | from any state, a completed encoding stores the new handle and clears `recording` and `paused`, leaving the transcription and the rest alone; a rejected encoding (no catch) changes nothing |
| AudioRecorder.TranscriptionArrived | src/AudioRecorder.js:80-84 | a successful transcription response sets only `transcription`, to the response body; a failure changes nothing |
| AudioRecorder.Clear | src/AudioRecorder.js:88-92 | clear empties `audioUrl`, `transcription` and `result` and keeps `recording`, `paused`, `generatedString`, `language`, `targetLanguage` |
| AudioRecorder.ClearIdempotent | src/AudioRecorder.js:88-92 | clearing twice is the same as clearing once |
| AudioRecorder.GenerateQuery | src/AudioRecorder.js:94-97 | the generate request carries the code of the current source language |
| AudioRecorder.GeneratedArrived | src/AudioRecorder.js:98-99 | a successful generate response sets only `generatedString`, keeping `result` and `transcription`; a failure changes nothing |
| AudioRecorder.AskQuery | src/AudioRecorder.js:102-115 | no request exactly when the transcription or the generated phrase is the empty string, which is exactly when the check button is disabled (line 207); otherwise the request carries `gen`, `trans` and the codes of `language` and `targetLanguage` from the current state |
| AudioRecorder.ResultArrived | src/AudioRecorder.js:116-117 | a successful check response sets only `result`; a failure changes nothing |
| AudioRecorder.LanguageSelected | src/AudioRecorder.js:130 | choosing a source language sets only `language` |
| AudioRecorder.TargetSelected | src/AudioRecorder.js:147 | choosing a target language sets only `targetLanguage` |
| AudioRecorder.Step | src/AudioRecorder.js:173-181 | under the button dispatch every event keeps `paused ==> recording` and moves the capture state as the reference machine `Next` says |
| AudioRecorder.MainButtonWhenNotRecording | src/AudioRecorder.js:173 | when not recording, the main button starts |
| AudioRecorder.RunFollowsMachine | src/AudioRecorder.js:173-181 | from a state with `paused ==> recording`, every sequence of events keeps it and ends in the capture state the reference machine reaches |
| AudioRecorder.AudioUrlComesFromStop | src/AudioRecorder.js:70-92 | starting from the initial state, a non-empty `audioUrl` is the handle stored by some completed stop made while recording |
| AudioRecorder.LateTranscriptionIsApplied | src/AudioRecorder.js:83-92 | a transcription arriving after a clear is shown: stale responses are not dropped |
| AudioRecorder.Component.constructor | src/AudioRecorder.js:30-37 | the component mounts not recording, not paused, with empty strings and both languages English |
| AudioRecorder.Component.StartRecording | src/AudioRecorder.js:52-56 | the fields change as `Start` says |
| AudioRecorder.Component.PauseRecording | src/AudioRecorder.js:58-62 | the fields change as `Pause` says |
| AudioRecorder.Component.ResumeRecording | src/AudioRecorder.js:64-68 | the fields change as `Resume` says |
| AudioRecorder.Component.StopRecording | src/AudioRecorder.js:70-82 | the fields change as `StopComplete` says; on success it sends the MP3 as form field `file` named `audio.mp3`, and on failure it sends nothing |
| AudioRecorder.Component.ReceiveTranscription | src/AudioRecorder.js:83-84 | the fields change as `TranscriptionArrived` says |
| AudioRecorder.Component.ClearRecording | src/AudioRecorder.js:88-92 | the fields change as `Clear` says |
| AudioRecorder.Component.GenerateString | src/AudioRecorder.js:94-97 | changes nothing and sends the request `GenerateQuery` gives for the current state |
| AudioRecorder.Component.ReceiveGeneratedString | src/AudioRecorder.js:98-99 | the fields change as `GeneratedArrived` says |
| AudioRecorder.Component.CheckResult | src/AudioRecorder.js:102-115 | changes nothing and sends the request, if any, that `AskQuery` gives for the current state |
| AudioRecorder.Component.ReceiveResult | src/AudioRecorder.js:116-117 | the fields change as `ResultArrived` says |
| AudioRecorder.Component.SelectLanguage | src/AudioRecorder.js:130 | the fields change as `LanguageSelected` says |
| AudioRecorder.Component.SelectTargetLanguage | src/AudioRecorder.js:147 | the fields change as `TargetSelected` says |
| AudioRecorder.Component.PressMainButton | src/AudioRecorder.js:173 | stops while recording and starts otherwise, as `Step` says; it sends an upload exactly when it stops a recording and the encoding succeeds, and then the MP3 of that encoding |
| AudioRecorder.Component.PressPauseButton | src/AudioRecorder.js:177-178 | only while recording, resumes when paused and pauses otherwise, as `Step` says |
| SpeechGenerator.SpeechQuery | src/SpeechGenerator.js:7-14 | no request exactly when `text` is the empty string; otherwise the request carries `text` |
| SpeechGenerator.WhitespaceIsNotRefused | src/SpeechGenerator.js:8-11 | any non-empty text made only of blanks, tabs or line breaks passes the guard and is sent unchanged |
| SpeechGenerator.Synthesize | src/SpeechGenerator.js:7-24 | `text` never changes; empty text changes nothing; a successful synthesis sets `audioUrl` to its handle; a failure leaves `audioUrl` (and any earlier audio) as it was |
| SpeechGenerator.Typed | src/SpeechGenerator.js:34 | typing sets only `text` |
| SpeechGenerator.AudioComesFromSynthesis | src/SpeechGenerator.js:5-19 | starting from mount, a non-null `audioUrl` is the handle of a successful synthesis of non-empty text |
| SpeechGenerator.Component.constructor | src/SpeechGenerator.js:4-5 | the component mounts with empty text and a null handle |
| SpeechGenerator.Component.SetText | src/SpeechGenerator.js:34 | only `text` is written, as `Typed` says |
| SpeechGenerator.Component.GenerateSpeech | src/SpeechGenerator.js:7-24 | only `audioUrl` may be written; the request sent is `SpeechQuery` of the state before the call, and the new state is `Synthesize`'s |

## Left out

- The microphone device, MP3 encoding, `FormData`, axios, `fetch`,
  `URL.createObjectURL` and `encodeURIComponent` are foreign libraries. They
  appear only as outcome parameters and as request values.
- A `fetch` rejects only on a network error. A response with an HTTP error
  status is still read as a blob and becomes the new audio. The model's `Ok`
  stands for "the promises resolved", whatever the status.
- Promise interleaving is not modelled. Each handler and its resolution is one
  atomic step, so the model cannot see a pause that resolves after a stop has
  completed. That ordering would leave `paused` true with `recording` false;
  `RunFollowsMachine` holds only for atomic steps.
- A response event may occur at any point, even without a matching request.
  For the three axios responses this admits more orderings than the code can
  produce. The properties proved over all event sequences therefore hold for
  every real schedule in which the promise of each device button (start,
  pause, resume, stop) settles before the next click. They are not claimed for
  schedules in which a device promise settles after a later click.
- `stopRecording` calls `recorder.stop()` before the encoding settles. The
  device's own state is not modelled, only the component's fields.
- The clicks on Generate and Check Result change no state, so they are not
  events of `Step`. They are modelled by `Component.GenerateString` and
  `Component.CheckResult`. A click on a disabled Check Result button cannot
  happen, and `AskQuery` shows that the handler's own guard refuses the same
  states anyway.
- The dark-mode toggle and theme, all layout and styling, and `console` and
  `alert` output are presentation only.
- `src/App.js` only composes the two components and is not part of this model.
