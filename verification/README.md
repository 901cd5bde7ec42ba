# Dictation pipeline — a Dafny model

This project models the core of a browser dictation app: record or upload
audio, have a remote service transcribe it into the document, and have a
remote chat-completion service rewrite the document in one of seven
styles. Three source files make up the core:

- `src/App.tsx` holds the state (`text`, `isProcessing`, `error`, the two
  model selections) and the two asynchronous handlers, `handleAudioInput`
  and `handleImproveText`. It also holds the text normaliser
  `handleFormat`.
- `src/components/AudioControls.tsx` is the record/stop toggle over a
  MediaRecorder. It buffers chunks and emits one payload when the recorder
  stops. It also has the file picker.
- `src/components/TextEditor.tsx` is the textarea and the table of style
  buttons, with their `disabled` test.

The Dafny modules follow those files:

- `options.dfy`: `Option`, standing for `T | null`.
- `js_text.dfy`: the ECMAScript string operations the app uses. These are
  `trim()`, the class `\s`, and `replace(/\s+/g, ' ')`. Whitespace is
  WhiteSpace plus LineTerminator (ECMA-262 sections 12.2 and 12.3). The
  module also gives a reference description of a string as its list of
  words.
- `audio_controls.dfy`: the payload type `Blob`, chunk concatenation, and
  the component as class `AudioControl`. The device callbacks are methods
  the environment calls, and they require a recorder to exist. The answer
  to the microphone prompt is a `MicAccess` outcome passed to
  `StartRecording`. `onAudioInput` is the field `emitted`, the list of
  payloads handed over so far.
- `text_editor.dfy`: the style table, the `disabled` test, and `Dispatch`.
  `Dispatch` maps a user action to the callback it fires.
- `app.dfy`: `Format` (`handleFormat`) and the two requests. Then the state
  and its transitions as functions. Then the whole app as a run of events
  (`Session`, `Next`, `Run`): each handler is split at its `await`, so
  requests can overlap. The session also holds the voice model bound into
  the `onstop` handler of the recorder that is recording. Last, the
  component as class `AppState`, whose handlers update its fields step by
  step.

A remote call is an abstract `Reply`: either `Response(status, content)` or
a `Fault`. `content` is the decoded result text (`data.text`, or
`choices[0].message.content`). A reply succeeds when the status is in
200..299 (`response.ok`). `Fault` stands for every other way the `try`
block throws. That covers a failed transport, and also a 2xx reply whose
body does not decode: `json()` throws, or `choices` is empty. Both end on
the catch path, like a non-2xx status.

Some behaviour of the code is easy to expect otherwise. The model keeps it
as the code has it:

- `error` is never reset to null. It is not cleared when a request starts.
- `handleAudioInput` has no busy guard. Audio is taken while a request is
  out, so two requests can be out at once. `OverlappingRewrites` shows
  that even two rewrites can be out at once.
- The model setters accept any identifier.
- The upload always declares `audio/webm`, whatever type the payload has.
- The text cannot be edited while `isProcessing` is true, because the
  editor is not rendered then. But once one of two overlapping requests
  settles, `isProcessing` is false and the editor is back while the other
  is still out. That request's late reply then overwrites the edit
  (`EditWhileRewriteOutIsOverwritten`).
- A recording is transcribed with the voice model selected when it
  started. The `onstop` handler is installed once, by `startRecording`,
  and calls the `onAudioInput` of that render, which reads that render's
  `selectedVoiceModel`. A model chosen during the recording is not used
  for it (`RecordingKeepsItsVoiceModel`). A loaded file uses the current
  selection.
- `isRecording` stays false while the microphone prompt is open. So a
  second click opens a second prompt, and a second grant replaces the
  recorder. Stopping then stops only the second stream's tracks. The
  first stream's tracks stay live (`SecondPromptLeaksFirstStream`).
- A refused microphone is only logged. It never reaches `error`.

Two more things the model brings out:

- `handleFormat` is defined but passed to no component. No event of the
  app reaches it.
- The editor is rendered only while `isProcessing` is false. So inside the
  editor the busy half of the `disabled` test, and the caption
  "Improving...", are never in effect (`EditorNeverSeesBusy`).

## Model

| member | source | states |
|---|---|---|
| `JsText.IsWs` | src/App.tsx:52 | the whitespace set shared by `trim()` and `\s`: WhiteSpace and LineTerminator of ECMA-262 sections 12.2 and 12.3 (its properties are in `WhitespaceIsOneCodeUnit`) |
| `JsText.WhitespaceIsOneCodeUnit` | src/App.tsx:52 | every whitespace character is a single UTF-16 code unit, and space, tab, LF, CR and NBSP are whitespace |
| `JsText.Trim` | src/App.tsx:52 | `trim()` never lengthens the text and leaves no whitespace at either end |
| `JsText.CollapseWs` | src/App.tsx:52 | `replace(/\s+/g, ' ')` never lengthens the text and gives `""` only for `""` |
| `JsText.TrimEmptyIff` | src/App.tsx:56 | `trim()` yields the empty string exactly when every character is whitespace |
| `JsText.TrimIsSlice` | src/App.tsx:52 | `trim()` yields a contiguous slice of its input; everything it removes from either end is whitespace, and the slice has no whitespace at either end, so it is the largest such slice |
| `JsText.CollapseTrimEndIsJoin` | src/App.tsx:52 | on text that starts with a word, trimming the end and then replacing `/\s+/g` by a space gives the words joined by single spaces |
| `JsText.WordsAreProper` | src/App.tsx:52 | every word of a string is non-empty and free of whitespace |
| `JsText.StripWsIsFlattenedWords` | src/App.tsx:52 | deleting all whitespace from a string leaves its words run together, in order |
| `App.Format` | src/App.tsx:51-53 | `handleFormat` never makes the text longer |
| `App.FormatIsJoinedWords` | src/App.tsx:51-53 | `handleFormat` turns the text into its words, in order, separated by exactly one space each |
| `App.FormatNormalises` | src/App.tsx:52 | the result has no whitespace at either end, and each whitespace character in it is a lone `' '` |
| `App.FormatEmptyIff` | src/App.tsx:52 | the result is `""` exactly when the input is all whitespace |
| `App.FormatKeepsWords` | src/App.tsx:52 | the result has the same words as the input, in the same order |
| `App.FormatIdempotent` | src/App.tsx:52 | formatting twice gives the same as formatting once |
| `App.FormatKeepsNonWs` | src/App.tsx:52 | deleting whitespace from the input and from the output gives the same string |
| `App.SystemPrompt` | src/App.tsx:73 | the system instruction is the fixed head, then the directive, then the fixed tail; the directive sits between them and can be read back |
| `App.SystemPromptInjective` | src/App.tsx:73 | different directives give different system instructions |
| `App.UploadIgnoresPayloadType` | src/App.tsx:23-27 | the upload is the file `audio.webm` typed `audio/webm` with the payload's bytes, whatever the payload's type, plus the given voice model and language `en` |
| `App.TranscriptionRequestFor` | src/App.tsx:21-27 | the form the transcription upload posts (its properties are in `UploadIgnoresPayloadType`) |
| `App.CompletionRequestFor` | src/App.tsx:68-79 | the body the rewrite posts (its properties are in `CompletionRequestDeterminesInputs`) |
| `App.CompletionRequestDeterminesInputs` | src/App.tsx:68-79 | the rewrite request determines the text (user message), the directive and the text model |
| `App.SettleTranscription` | src/App.tsx:37-48 | after the transcription reply the app is idle; success takes the transcript verbatim and keeps `error`; failure keeps `text` and sets the fixed transcription message; the selections stay |
| `App.SettleImprovement` | src/App.tsx:85-96 | after the rewrite reply the app is idle; success takes the reply verbatim and keeps `error`; failure keeps `text` and sets the fixed rewrite message; the selections stay |
| `App.AfterAudioInput` | src/App.tsx:16-48 | with no busy check, the handler ends idle; success sets `text` to the transcript verbatim and keeps `error`; failure keeps `text` and sets the fixed transcription message; the selections stay |
| `App.ImproveRequest` | src/App.tsx:55-83 | no request on text that trims to nothing; otherwise the rewrite of the current text with the directive and `selectedTextModel` |
| `App.AfterImproveText` | src/App.tsx:55-97 | on blank text nothing changes; otherwise the handler ends idle, success sets `text` to the reply verbatim, failure keeps `text` and sets the fixed rewrite message |
| `App.EditorProps` | src/App.tsx:124-138 | the editor is on screen exactly when `isProcessing` is false |
| `App.Next` | src/App.tsx:16-138 | one event sends at most one request, and the busy flag rises only together with a new request |
| `App.Run` | src/App.tsx:16-138 | a run of events has at most one more request out per event |
| `App.NextKeepsInvariants` | src/App.tsx:16-97 | each event keeps two invariants: the busy flag is never up without a request out, and `error` is null or one of the two fixed messages |
| `App.RunKeepsInvariants` | src/App.tsx:16-97 | every run of events keeps those two invariants |
| `App.ErrorIsNeverCleared` | src/App.tsx:43-47 | once `error` is set, no run of events sets it back to null |
| `App.RewriteStartsOnlyWhenIdle` | src/App.tsx:124-138 | a rewrite request goes out only from an idle app on non-blank text, carrying the current text and `selectedTextModel` |
| `App.AudioStartsEvenWhenBusy` | src/App.tsx:16-17 | a loaded file, or a recording's payload, starts a transcription whatever the busy flag, beside any requests already out |
| `App.RecordingKeepsItsVoiceModel` | src/components/AudioControls.tsx:22-24 | a recording's transcription goes out with the voice model selected when recording started, even if another was chosen meanwhile |
| `App.EditorNeverSeesBusy` | src/App.tsx:132-137 | whenever the editor is shown its `isProcessing` prop is false, so every caption is the button's label |
| `App.EditorClickAlwaysSends` | src/App.tsx:55-56 | an improvement click that reaches the handler always passes its blank-text check |
| `App.TypingIsVerbatim` | src/App.tsx:134 | typing sets `text` to the new value unchanged while the editor is shown, and does nothing while it is hidden |
| `App.SelectionIsUnchecked` | src/App.tsx:108-109 | the model setters store any identifier, listed or not |
| `App.InitialState` | src/App.tsx:9-14 | the app starts idle with empty text, no error, and default models that are among the listed choices |
| `App.DictateThenRewrite` | src/App.tsx:16-97 | recording "hello world" and then making it casual leaves the rewrite's answer as the text |
| `App.OverlappingRewrites` | src/App.tsx:122-138 | a transcription that finishes while a rewrite is out clears the busy flag, so a second rewrite can go out beside the first |
| `App.EditWhileRewriteOutIsOverwritten` | src/App.tsx:124-138 | in that run the editor is back while the rewrite is still out; typing changes the text, and the rewrite's late reply then overwrites the edit |
| `App.TypeThenLateRewrite` | src/App.tsx:85-95 | from any idle session with one rewrite out, any typed value becomes the text; that rewrite's successful reply then replaces it, and a failed one keeps it and sets the fixed rewrite message |
| `App.AudioEventsMatchHandler` | src/App.tsx:16-48 | a file load followed by its transcription reply, with nothing in between, leaves exactly the state that `handleAudioInput` run to completion (`AfterAudioInput`) gives |
| `App.RewriteEventsMatchHandler` | src/App.tsx:55-97 | a style click on a shown editor sends `ImproveRequest`'s request, and with its reply next the state is exactly `AfterImproveText`'s |
| `App.AppState.constructor` | src/App.tsx:9-14 | the initial state slots |
| `App.AppState.HandleAudioInput` | src/App.tsx:16-49 | sends the transcription request built from the payload and `selectedVoiceModel`, then moves to `AfterAudioInput` |
| `App.AppState.HandleImproveText` | src/App.tsx:55-97 | sends `ImproveRequest`, then moves to `AfterImproveText` |
| `App.AppState.HandleFormat` | src/App.tsx:51-53 | replaces `text` by `Format(text)` and changes nothing else |
| `App.AppState.SetText` | src/App.tsx:134 | `onTextChange` stores the value as given |
| `App.AppState.SetSelectedVoiceModel` | src/App.tsx:108 | stores any identifier |
| `App.AppState.SetSelectedTextModel` | src/App.tsx:109 | stores any identifier |
| `AudioControls.Concat` | src/components/AudioControls.tsx:23 | no chunks give no bytes, and a single chunk is passed on as it is |
| `AudioControls.ConcatSnoc` | src/components/AudioControls.tsx:18-20 | buffering one more chunk appends exactly its bytes to the eventual payload |
| `AudioControls.ConcatAppend` | src/components/AudioControls.tsx:22-26 | the payload of a split buffer is the two parts' payloads run together |
| `AudioControls.ChunkInPlace` | src/components/AudioControls.tsx:23 | every chunk's bytes sit in the payload right after the bytes of the chunks that came before it |
| `AudioControls.AudioControl.constructor` | src/components/AudioControls.tsx:9-11 | idle, no recorder, empty buffer, nothing emitted |
| `AudioControls.AudioControl.StartRecording` | src/components/AudioControls.tsx:13-33 | on access: a new recorder, recording, with every track of the new stream live; on refusal nothing changes, so without an earlier recorder none exists and no recorder event can fire |
| `AudioControls.AudioControl.OnDataAvailable` | src/components/AudioControls.tsx:18-20 | only with a recorder: the chunk joins the end of the buffer |
| `AudioControls.AudioControl.OnStop` | src/components/AudioControls.tsx:22-26 | only from a stopped recorder: emits the concatenated buffer typed `audio/webm`, then empties the buffer |
| `AudioControls.AudioControl.StopRecording` | src/components/AudioControls.tsx:35-41 | nothing unless a recorder exists and is recording; then it stops, `isRecording` drops and every track is stopped |
| `AudioControls.AudioControl.ToggleRecording` | src/components/AudioControls.tsx:58 | while recording: the recorder stops and stays, with every track stopped; otherwise a refusal changes nothing and a grant gives a recording recorder whose fresh tracks, as many as granted, are all live |
| `AudioControls.AudioControl.HandleFileUpload` | src/components/AudioControls.tsx:43-53 | no file emits nothing; otherwise exactly one payload, the first file's bytes with that file's type |
| `AudioControls.SecondPromptLeaksFirstStream` | src/components/AudioControls.tsx:13-16 | two prompts both granted, then stop: the first stream's track is still live and the second's is stopped |
| `AudioControls.RecordOnce` | src/components/AudioControls.tsx:13-41 | record, chunks, stop: the one emitted payload is the chunks' bytes in arrival order typed `audio/webm`; a refused microphone emits nothing |
| `TextEditor.IsDisabled` | src/components/TextEditor.tsx:74 | a style button is disabled exactly when busy or the text is all whitespace |
| `TextEditor.Caption` | src/components/TextEditor.tsx:80 | a table button shows its label exactly when the editor is idle |
| `TextEditor.Dispatch` | src/components/TextEditor.tsx:61-82 | a textarea change forwards its value unchanged; a click forwards exactly its button's directive, and fires exactly when the button is enabled |
| `TextEditor.EnabledIff` | src/components/TextEditor.tsx:74 | the buttons are enabled exactly when not processing and the text has a non-whitespace character |
| `TextEditor.ImproveComesFromTable` | src/components/TextEditor.tsx:70-74 | every directive sent is one of the table's, from an idle editor over non-blank text |
| `TextEditor.StyleTableWellFormed` | src/components/TextEditor.tsx:20-56 | seven rows, with pairwise distinct labels (the React keys) and pairwise distinct directives |

## Left out

- Network I/O: `fetch`, `FormData`, the bearer header and the API key from
  the environment. Each call is an abstract `Reply`.
- JSON decoding of the response body. A successful reply carries its
  result text directly. A body that lacks `data.text` (which the code
  would store as `undefined`) is not modelled.
- The sampling constants `temperature: 0.7` and `max_tokens: 4096`. They
  are request literals with no logic.
- `console.error` logging on every failure path.
- The clipboard copy (`handleCopy`), `Header`, the settings dialog and its
  open flag, JSX layout and CSS classes. The settings panel's two model
  lists appear only as constants.
- React's rendering and update batching. Each state update takes effect at
  once. A handler reads the state current when it starts, except for a
  recording's payload, which uses the voice model captured when recording
  started.
- MediaRecorder internals. The model leaves out a recorder that stops by
  itself (a track ends) and the recorder's own chunk cadence.
- `AudioControl.StartRecording`: a `new MediaRecorder(stream)` or `start()`
  that throws after access is granted is not modelled. The code then
  leaves that stream's tracks live with no recorder to stop them. The
  model's grant always yields a started recorder. A voice model chosen
  while the prompt is open is also left out: `RecordingStarted` captures
  the selection when the grant arrives, not when the button was pressed. Recorder callbacks are not tied to one recorder instance:
  the code's handlers all act on the one shared buffer, and so do the
  model's.
- The FileReader's asynchronous load and read errors.
  `AudioControl.HandleFileUpload` emits the file at once.
- UTF-16 code units. Strings are sequences of Unicode scalar values. Every
  whitespace code point is in the Basic Multilingual Plane, so trimming and
  collapsing are unaffected.
