/**
 * The orchestrating component of the dictation app (src/App.tsx). It owns
 * the document `text`, the busy flag `isProcessing`, the last `error`
 * message and the two model selections, and it runs the two remote
 * requests: transcription of an audio payload and rewriting of the text
 * under a style directive.
 *
 * The module gives, in order: the text normaliser `handleFormat`; the
 * requests the two handlers compose; the state and its transitions as
 * functions; the whole app as a sequence of user, device and network
 * events (the two handlers split at their `await`, so requests can
 * overlap); and the component itself as a class whose handlers update its
 * fields step by step.
 *
 * A remote call is an abstract `Reply`: an HTTP status with the decoded
 * result text, or a transport fault.
 */
module App {
  import opened Options
  import opened JsText
  import AudioControls
  import TextEditor

  const DefaultVoiceModel: string := "distil-whisper-large-v3-en"
  const DefaultTextModel: string := "llama-3.2-3b-preview"

  /** The choices the settings panel offers. Nothing checks a selection
      against them. */
  const VoiceModels: seq<string> :=
    ["whisper-large-v3-turbo", "whisper-large-v3", "distil-whisper-large-v3-en"]
  const TextModels: seq<string> :=
    ["llama-3.2-3b-preview", "llama3-70b-8192", "llama-3.2-11b-text-preview", "llama-3.2-90b-text-preview"]

  const TranscribeFailed: string := "Failed to transcribe audio. Please try again."
  const ImproveFailed: string := "Failed to improve text. Please try again."

  // -----------------------------------------------------------------------
  // handleFormat

  /** `text.trim().replace(/\s+/g, ' ')`. It never makes the text longer. */
  function Format(s: string): (r: string)
    ensures |r| <= |s|
  {
    CollapseWs(Trim(s))
  }

  /** The normalised text is the input's words separated by single spaces. */
  lemma FormatIsJoinedWords(s: string)
    ensures Format(s) == JoinWords(Words(s))
  {
    var t := TrimStart(s);
    WordsTrimStart(s);
    CollapseTrimEndIsJoin(t);
  }

  /** No whitespace at either end, and every whitespace run inside has
      become exactly one space. */
  lemma FormatNormalises(s: string)
    ensures IsNormalised(Format(s))
  {
    FormatIsJoinedWords(s);
    WordsAreProper(s);
    JoinWordsNormalised(Words(s));
  }

  /** Formatting gives the empty string exactly on all-whitespace input. */
  lemma FormatEmptyIff(s: string)
    ensures Format(s) == [] <==> AllWs(s)
  {
    FormatIsJoinedWords(s);
    WordsAreProper(s);
    JoinWordsEmptyIff(Words(s));
    WordsEmptyIff(s);
  }

  /** Formatting keeps the words: same words, same order. */
  lemma FormatKeepsWords(s: string)
    ensures Words(Format(s)) == Words(s)
  {
    FormatIsJoinedWords(s);
    WordsAreProper(s);
    WordsOfJoin(Words(s));
  }

  /** Formatting twice is formatting once. */
  lemma FormatIdempotent(s: string)
    ensures Format(Format(s)) == Format(s)
  {
    FormatKeepsWords(s);
    FormatIsJoinedWords(Format(s));
    FormatIsJoinedWords(s);
  }

  /** Deleting all whitespace from the input or from the output gives the
      same string: the other characters are kept, in order. */
  lemma FormatKeepsNonWs(s: string)
    ensures StripWs(Format(s)) == StripWs(s)
  {
    FormatKeepsWords(s);
    StripWsIsFlattenedWords(Format(s));
    StripWsIsFlattenedWords(s);
  }

  // -----------------------------------------------------------------------
  // The requests

  /** A file field of a multipart form. */
  datatype FormFile = FormFile(name: string, mimeType: string, bytes: seq<bv8>)

  /** The form posted to the transcription endpoint. */
  datatype TranscriptionRequest =
    TranscriptionRequest(file: FormFile, model: string, language: string)

  datatype ChatMessage = ChatMessage(role: string, content: string)

  /** The JSON body posted to the chat-completion endpoint (the sampling
      constants are left out). */
  datatype CompletionRequest = CompletionRequest(model: string, messages: seq<ChatMessage>)

  const PromptHead: string := "You are a text improvement assistant. "
  const PromptTail: string :=
    ". Maintain the core meaning while adjusting the tone and style. Organize the text into proper paragraphs and fix any grammar or spelling issues."

  /** The system instruction: the fixed head, the directive, the fixed tail.
      The directive can be read back from between the two. */
  function SystemPrompt(style: string): (p: string)
    ensures |p| == |PromptHead| + |style| + |PromptTail|
    ensures p[..|PromptHead|] == PromptHead
    ensures p[|PromptHead|..|PromptHead| + |style|] == style
    ensures p[|PromptHead| + |style|..] == PromptTail
  {
    PromptHead + style + PromptTail
  }

  /** Different directives give different instructions. */
  lemma SystemPromptInjective(a: string, b: string)
    requires SystemPrompt(a) == SystemPrompt(b)
    ensures a == b
  {
    assert |a| == |b|;
  }

  /** The transcription upload: the payload's bytes under the fixed file
      name and type, the selected voice model, and English. */
  function TranscriptionRequestFor(audio: AudioControls.Blob, voiceModel: string): TranscriptionRequest {
    TranscriptionRequest(FormFile("audio.webm", "audio/webm", audio.bytes), voiceModel, "en")
  }

  /** The upload declares audio/webm whatever the payload's own type: two
      payloads with the same bytes give the same request. */
  lemma UploadIgnoresPayloadType(a: AudioControls.Blob, b: AudioControls.Blob, voiceModel: string)
    requires a.bytes == b.bytes
    ensures TranscriptionRequestFor(a, voiceModel) == TranscriptionRequestFor(b, voiceModel)
    ensures TranscriptionRequestFor(a, voiceModel).file == FormFile("audio.webm", "audio/webm", a.bytes)
    ensures TranscriptionRequestFor(a, voiceModel).model == voiceModel
    ensures TranscriptionRequestFor(a, voiceModel).language == "en"
  {
  }

  /** The rewrite request: the selected text model, the system instruction
      built from the directive, then the text itself as the user message. */
  function CompletionRequestFor(text: string, style: string, textModel: string): CompletionRequest {
    CompletionRequest(textModel, [ChatMessage("system", SystemPrompt(style)), ChatMessage("user", text)])
  }

  /** The rewrite request determines its inputs: text, directive and model
      can all be read back from it. */
  lemma CompletionRequestDeterminesInputs(t1: string, s1: string, m1: string, t2: string, s2: string, m2: string)
    requires CompletionRequestFor(t1, s1, m1) == CompletionRequestFor(t2, s2, m2)
    ensures t1 == t2 && s1 == s2 && m1 == m2
  {
    var r := CompletionRequestFor(t1, s1, m1);
    assert r.messages[0].content == SystemPrompt(s1) == SystemPrompt(s2);
    SystemPromptInjective(s1, s2);
  }

  // -----------------------------------------------------------------------
  // The state and its transitions

  /** What a remote call comes back with: a response with its HTTP status
      and the result text decoded from its body, or a `Fault`. A fault
      stands for every other way the `try` block throws: the transport
      fails, or a 2xx body does not decode (`json()` throws, or `choices`
      is empty). */
  datatype Reply = Response(status: int, content: string) | Fault

  /** `response.ok`. */
  predicate Succeeded(r: Reply) {
    r.Response? && 200 <= r.status <= 299
  }

  datatype State = State(
    text: string,
    isProcessing: bool,
    error: Option<string>,
    selectedVoiceModel: string,
    selectedTextModel: string)

  const Initial: State := State("", false, None, DefaultVoiceModel, DefaultTextModel)

  /** Both handlers set the busy flag before their request goes out. */
  function BeginRequest(st: State): State {
    st.(isProcessing := true)
  }

  /** The rest of `handleAudioInput` once the transcription reply is in:
      always idle after; success takes the transcript verbatim and leaves
      the error alone, failure keeps the text and sets the fixed message. */
  function SettleTranscription(st: State, reply: Reply): (r: State)
    ensures !r.isProcessing
    ensures Succeeded(reply) ==> r.text == reply.content && r.error == st.error
    ensures !Succeeded(reply) ==> r.text == st.text && r.error == Some(TranscribeFailed)
    ensures r.selectedVoiceModel == st.selectedVoiceModel
    ensures r.selectedTextModel == st.selectedTextModel
  {
    if Succeeded(reply) then st.(text := reply.content, isProcessing := false)
    else st.(error := Some(TranscribeFailed), isProcessing := false)
  }

  /** The rest of `handleImproveText` once the rewrite reply is in, with
      the same shape and its own fixed message. */
  function SettleImprovement(st: State, reply: Reply): (r: State)
    ensures !r.isProcessing
    ensures Succeeded(reply) ==> r.text == reply.content && r.error == st.error
    ensures !Succeeded(reply) ==> r.text == st.text && r.error == Some(ImproveFailed)
    ensures r.selectedVoiceModel == st.selectedVoiceModel
    ensures r.selectedTextModel == st.selectedTextModel
  {
    if Succeeded(reply) then st.(text := reply.content, isProcessing := false)
    else st.(error := Some(ImproveFailed), isProcessing := false)
  }

  /** `handleAudioInput` run to completion. Whatever the state before (it
      does not look at the busy flag), it ends idle; a successful reply
      replaces the text verbatim and leaves the error as it was; a failed
      one keeps the text and sets the fixed message. The selections stay. */
  function AfterAudioInput(st: State, reply: Reply): (r: State)
    ensures !r.isProcessing
    ensures Succeeded(reply) ==> r.text == reply.content && r.error == st.error
    ensures !Succeeded(reply) ==> r.text == st.text && r.error == Some(TranscribeFailed)
    ensures r.selectedVoiceModel == st.selectedVoiceModel
    ensures r.selectedTextModel == st.selectedTextModel
  {
    SettleTranscription(BeginRequest(st), reply)
  }

  /** The request `handleImproveText` sends: none when the text trims to
      nothing, else the rewrite of the current text. */
  function ImproveRequest(st: State, style: string): (r: Option<CompletionRequest>)
    ensures r.None? <==> AllWs(st.text)
    ensures r.Some? ==> r.value == CompletionRequestFor(st.text, style, st.selectedTextModel)
  {
    TrimEmptyIff(st.text);
    if Trim(st.text) == [] then None
    else Some(CompletionRequestFor(st.text, style, st.selectedTextModel))
  }

  /** `handleImproveText` run to completion. On blank text nothing at all
      changes. Otherwise it ends idle; success replaces the text verbatim,
      failure keeps it and sets the fixed message. */
  function AfterImproveText(st: State, style: string, reply: Reply): (r: State)
    ensures AllWs(st.text) ==> r == st
    ensures !AllWs(st.text) ==> !r.isProcessing
    ensures !AllWs(st.text) && Succeeded(reply) ==> r.text == reply.content && r.error == st.error
    ensures !AllWs(st.text) && !Succeeded(reply) ==> r.text == st.text && r.error == Some(ImproveFailed)
    ensures r.selectedVoiceModel == st.selectedVoiceModel
    ensures r.selectedTextModel == st.selectedTextModel
  {
    TrimEmptyIff(st.text);
    if Trim(st.text) == [] then st
    else SettleImprovement(BeginRequest(st), reply)
  }

  // -----------------------------------------------------------------------
  // The app over time: user, device and network events

  /** A request that has gone out and whose reply has not been handled. */
  datatype Pending =
    | AwaitingTranscript(transcription: TranscriptionRequest)
    | AwaitingRewrite(rewrite: CompletionRequest)

  /** The app together with what outside it can still act on it: the
      requests that are out, and the voice model bound into the `onstop`
      handler of the recorder that is recording, if one is. That handler
      calls the `onAudioInput` of the render in which recording started,
      so its transcription uses the voice model selected at that time. */
  datatype Session = Session(state: State, pending: seq<Pending>, recordingModel: Option<string>)

  const Start: Session := Session(Initial, [], None)

  datatype Event =
    | RecordingStarted                            // a granted microphone starts a recorder
    | RecordingStopped(audio: AudioControls.Blob) // that recorder's onstop hands over its payload
    | FileLoaded(audio: AudioControls.Blob)       // a chosen file has been read
    | EditorInput(action: TextEditor.UserAction)  // typing or a style button
    | Resolved(k: nat, reply: Reply)              // the reply to pending request k
    | VoiceModelChosen(voiceModel: string)        // Settings' onVoiceModelChange
    | TextModelChosen(textModel: string)          // Settings' onTextModelChange

  /** The editor is rendered only while the app is idle. */
  function EditorProps(st: State): (p: Option<TextEditor.Props>)
    ensures p.Some? <==> !st.isProcessing
  {
    if st.isProcessing then None else Some(TextEditor.Props(st.text, st.isProcessing))
  }

  /** The first half of `handleAudioInput`, up to its `await`. */
  function SendTranscription(s: Session, audio: AudioControls.Blob, voiceModel: string): Session {
    s.(state := BeginRequest(s.state),
       pending := s.pending + [AwaitingTranscript(TranscriptionRequestFor(audio, voiceModel))])
  }

  /** One event. Audio is taken at any time; editor actions only reach the
      app when the editor is on screen; a reply finishes the handler that
      sent its request. At most one request goes out per event, and the
      busy flag rises only with one. */
  function Next(s: Session, e: Event): (n: Session)
    ensures |n.pending| <= |s.pending| + 1
    ensures !s.state.isProcessing && n.state.isProcessing ==> |n.pending| == |s.pending| + 1
  {
    match e
    case RecordingStarted => s.(recordingModel := Some(s.state.selectedVoiceModel))
    case RecordingStopped(audio) =>
      (match s.recordingModel
       case None => s
       case Some(m) => SendTranscription(s.(recordingModel := None), audio, m))
    case FileLoaded(audio) => SendTranscription(s, audio, s.state.selectedVoiceModel)
    case EditorInput(action) =>
      (match EditorProps(s.state)
       case None => s
       case Some(props) =>
         match TextEditor.Dispatch(props, action)
         case None => s
         case Some(OnTextChange(v)) => s.(state := s.state.(text := v))
         case Some(OnImprove(style)) =>
           match ImproveRequest(s.state, style)
           case None => s
           case Some(q) => s.(state := BeginRequest(s.state), pending := s.pending + [AwaitingRewrite(q)]))
    case Resolved(k, reply) =>
      if k < |s.pending| then
        var rest := s.pending[..k] + s.pending[k + 1..];
        match s.pending[k]
        case AwaitingTranscript(_) => s.(state := SettleTranscription(s.state, reply), pending := rest)
        case AwaitingRewrite(_) => s.(state := SettleImprovement(s.state, reply), pending := rest)
      else s
    case VoiceModelChosen(m) => s.(state := s.state.(selectedVoiceModel := m))
    case TextModelChosen(m) => s.(state := s.state.(selectedTextModel := m))
  }

  /** The events in order. No more requests are out than were out before
      plus one per event. */
  function Run(s: Session, events: seq<Event>): (r: Session)
    ensures |r.pending| <= |s.pending| + |events|
    decreases |events|
  {
    if events == [] then s else Run(Next(s, events[0]), events[1..])
  }

  predicate IsRewrite(p: Pending) {
    p.AwaitingRewrite?
  }

  /** The busy flag is never up without a request out. */
  predicate BusyHasPending(s: Session) {
    s.state.isProcessing ==> s.pending != []
  }

  /** The error is either unset or one of the two fixed messages. */
  predicate KnownError(st: State) {
    st.error == None || st.error == Some(TranscribeFailed) || st.error == Some(ImproveFailed)
  }

  lemma NextKeepsInvariants(s: Session, e: Event)
    requires BusyHasPending(s) && KnownError(s.state)
    ensures BusyHasPending(Next(s, e)) && KnownError(Next(s, e).state)
  {
  }

  /** Every run from any state where they hold keeps both invariants. */
  lemma {:induction false} RunKeepsInvariants(s: Session, events: seq<Event>)
    requires BusyHasPending(s) && KnownError(s.state)
    ensures BusyHasPending(Run(s, events)) && KnownError(Run(s, events).state)
    decreases |events|
  {
    if events != [] {
      NextKeepsInvariants(s, events[0]);
      RunKeepsInvariants(Next(s, events[0]), events[1..]);
    }
  }

  /** Once set, the error message never goes back to null. */
  lemma {:induction false} ErrorIsNeverCleared(s: Session, events: seq<Event>)
    requires s.state.error.Some?
    ensures Run(s, events).state.error.Some?
    decreases |events|
  {
    if events != [] {
      ErrorIsNeverCleared(Next(s, events[0]), events[1..]);
    }
  }

  /** A rewrite goes out only from an idle app and only for a non-blank
      text, and it carries the text, the directive the editor sent and
      the selected text model. */
  lemma RewriteStartsOnlyWhenIdle(s: Session, action: TextEditor.UserAction)
    requires |Next(s, EditorInput(action)).pending| > |s.pending|
    ensures !s.state.isProcessing && !AllWs(s.state.text)
    ensures exists style ::
      (Next(s, EditorInput(action)).pending
        == s.pending + [AwaitingRewrite(CompletionRequestFor(s.state.text, style, s.state.selectedTextModel))])
  {
  }

  /** Audio is accepted while busy: a loaded file, or the payload of a
      recording, sends a transcription beside the requests already out. */
  lemma AudioStartsEvenWhenBusy(s: Session, audio: AudioControls.Blob)
    ensures Next(s, FileLoaded(audio)).pending
      == s.pending + [AwaitingTranscript(TranscriptionRequestFor(audio, s.state.selectedVoiceModel))]
    ensures Next(s, FileLoaded(audio)).state.isProcessing
    ensures s.recordingModel.Some? ==>
      Next(s, RecordingStopped(audio)).pending
        == s.pending + [AwaitingTranscript(TranscriptionRequestFor(audio, s.recordingModel.value))]
      && Next(s, RecordingStopped(audio)).state.isProcessing
  {
  }

  /** A voice model chosen while recording is not used for that recording:
      its transcription goes out with the model selected when it started. */
  lemma RecordingKeepsItsVoiceModel(s: Session, m: string, audio: AudioControls.Blob)
    ensures var r := Run(s, [RecordingStarted, VoiceModelChosen(m), RecordingStopped(audio)]);
      r.pending == s.pending + [AwaitingTranscript(TranscriptionRequestFor(audio, s.state.selectedVoiceModel))]
      && r.state.selectedVoiceModel == m
  {
    var e1, e2, e3 := RecordingStarted, VoiceModelChosen(m), RecordingStopped(audio);
    var s1 := Next(s, e1);
    var s2 := Next(s1, e2);
    RunCons(s2, e3, []);
    RunCons(s1, e2, [e3]);
    RunCons(s, e1, [e2, e3]);
  }

  /** The editor's own test of the busy flag never fires: whenever the
      editor is on screen its `isProcessing` prop is false, so its buttons
      never read "Improving...". */
  lemma EditorNeverSeesBusy(st: State)
    requires EditorProps(st).Some?
    ensures !EditorProps(st).value.isProcessing
    ensures forall b :: TextEditor.Caption(b, EditorProps(st).value.isProcessing) == b.name
  {
  }

  /** The blank-text check at the top of `handleImproveText` never fires
      for a click that reaches it: the editor already disabled the button. */
  lemma EditorClickAlwaysSends(st: State, action: TextEditor.UserAction, style: string)
    requires EditorProps(st).Some?
    requires TextEditor.Dispatch(EditorProps(st).value, action) == Some(TextEditor.OnImprove(style))
    ensures ImproveRequest(st, style).Some?
  {
    TextEditor.ImproveComesFromTable(EditorProps(st).value, action, style);
  }

  /** Typing reaches the text only while the editor is shown, and then
      verbatim. */
  lemma TypingIsVerbatim(s: Session, v: string)
    ensures Next(s, EditorInput(TextEditor.Type(v))).state.text
      == if s.state.isProcessing then s.state.text else v
  {
  }

  /** The model setters take any identifier, listed or not. */
  lemma SelectionIsUnchecked(s: Session, m: string)
    ensures Next(s, VoiceModelChosen(m)).state.selectedVoiceModel == m
    ensures Next(s, TextModelChosen(m)).state.selectedTextModel == m
  {
  }

  /** The app starts idle, with an empty document, no error and the two
      default models, both among the settings panel's choices. */
  lemma InitialState()
    ensures Start.state.text == [] && !Start.state.isProcessing && Start.state.error == None
    ensures Start.state.selectedVoiceModel in VoiceModels
    ensures Start.state.selectedTextModel in TextModels
    ensures BusyHasPending(Start) && KnownError(Start.state)
  {
  }

  lemma RunCons(s: Session, e: Event, rest: seq<Event>)
    ensures Run(s, [e] + rest) == Run(Next(s, e), rest)
  {
    assert ([e] + rest)[1..] == rest;
  }

  /** A click on style button i of a shown editor over non-blank text. */
  lemma ClickSends(s: Session, i: nat)
    requires i < |TextEditor.StyleButtons| && !s.state.isProcessing
    requires !AllWs(s.state.text)
    ensures Next(s, EditorInput(TextEditor.Click(i))) == s.(
      state := BeginRequest(s.state),
      pending := s.pending + [AwaitingRewrite(CompletionRequestFor(
        s.state.text, TextEditor.StyleButtons[i].style, s.state.selectedTextModel))])
  {
  }

  /** Record "hello world", then make it casual: the document ends as the
      rewrite's answer. */
  lemma DictateThenRewrite(audio: AudioControls.Blob)
    ensures Run(Start, [
      RecordingStarted,
      RecordingStopped(audio),
      Resolved(0, Response(200, "hello world")),
      EditorInput(TextEditor.Click(4)),
      Resolved(0, Response(200, "hey, what's up"))]).state.text == "hey, what's up"
  {
    var e0, e1, e2 := RecordingStarted, RecordingStopped(audio), Resolved(0, Response(200, "hello world"));
    var e3, e4 := EditorInput(TextEditor.Click(4)), Resolved(0, Response(200, "hey, what's up"));
    var s0 := Next(Start, e0);
    var s1 := Next(s0, e1);
    var s2 := Next(s1, e2);
    assert s2.state.text == "hello world" && !s2.state.isProcessing && s2.pending == [];
    assert !IsWs(s2.state.text[0]);
    ClickSends(s2, 4);
    var s3 := Next(s2, e3);
    var s4 := Next(s3, e4);
    assert s4.state.text == "hey, what's up";
    RunCons(s3, e4, []);
    RunCons(s2, e3, [e4]);
    RunCons(s1, e2, [e3, e4]);
    RunCons(s0, e1, [e2, e3, e4]);
    RunCons(Start, e0, [e1, e2, e3, e4]);
  }

  /** Type "hi", ask for a rewrite, and load a file while it is out: the
      transcription settles first and the editor comes back. */
  function RewriteThenTranscript(audio: AudioControls.Blob): seq<Event> {
    [EditorInput(TextEditor.Type("hi")),
     EditorInput(TextEditor.Click(0)),
     FileLoaded(audio),
     Resolved(1, Response(200, "hello"))]
  }

  /** The session after `RewriteThenTranscript`: idle, with the text
      "hello" and only the rewrite still out. */
  lemma AfterRewriteThenTranscript(audio: AudioControls.Blob)
    ensures var s := Run(Start, RewriteThenTranscript(audio));
      s.state.text == "hello" && !s.state.isProcessing
      && |s.pending| == 1 && IsRewrite(s.pending[0])
  {
    var e1, e2 := EditorInput(TextEditor.Type("hi")), EditorInput(TextEditor.Click(0));
    var e3, e4 := FileLoaded(audio), Resolved(1, Response(200, "hello"));
    var s1 := Next(Start, e1);
    assert s1 == Start.(state := Initial.(text := "hi"));
    assert !IsWs(s1.state.text[0]);
    ClickSends(s1, 0);
    var s2 := Next(s1, e2);
    var s3 := Next(s2, e3);
    assert s3 == SendTranscription(s2, audio, s2.state.selectedVoiceModel);
    TranscriptSettlesFirst(s3, Response(200, "hello"));
    RunCons(s3, e4, []);
    RunCons(s2, e3, [e4]);
    RunCons(s1, e2, [e3, e4]);
    RunCons(Start, e1, [e2, e3, e4]);
  }

  /** With a rewrite and then a transcription out, the transcription's
      reply leaves the app idle with only the rewrite out. */
  lemma TranscriptSettlesFirst(s: Session, reply: Reply)
    requires |s.pending| == 2 && IsRewrite(s.pending[0]) && s.pending[1].AwaitingTranscript?
    ensures var n := Next(s, Resolved(1, reply));
      n.state == SettleTranscription(s.state, reply) && n.pending == s.pending[..1]
  {
    assert s.pending[..1] + s.pending[2..] == s.pending[..1];
  }

  /** Run `events` after `prefix`. */
  lemma RunAppend(s: Session, prefix: seq<Event>, events: seq<Event>)
    ensures Run(s, prefix + events) == Run(Run(s, prefix), events)
    decreases |prefix|
  {
    if prefix == [] {
      assert prefix + events == events;
    } else {
      assert (prefix + events)[1..] == prefix[1..] + events;
      RunAppend(Next(s, prefix[0]), prefix[1..], events);
    }
  }

  /** Two rewrites can be out at once: a transcription that finishes while
      a rewrite is still out clears the busy flag, the editor comes back,
      and a second click sends a second rewrite. */
  lemma OverlappingRewrites(audio: AudioControls.Blob)
    ensures var s := Run(Start, RewriteThenTranscript(audio) + [EditorInput(TextEditor.Click(0))]);
      |s.pending| == 2 && IsRewrite(s.pending[0]) && IsRewrite(s.pending[1])
  {
    var e := EditorInput(TextEditor.Click(0));
    AfterRewriteThenTranscript(audio);
    var s4 := Run(Start, RewriteThenTranscript(audio));
    assert !IsWs(s4.state.text[0]);
    ClickSends(s4, 0);
    RunAppend(Start, RewriteThenTranscript(audio), [e]);
    RunCons(s4, e, []);
  }

  /** The text can be edited while a request is out: once the overlapping
      transcription settles the editor is back and typing changes the
      text, and the rewrite's late reply then overwrites the edit. */
  lemma EditWhileRewriteOutIsOverwritten(audio: AudioControls.Blob)
    ensures var s := Run(Start, RewriteThenTranscript(audio) + [EditorInput(TextEditor.Type("x"))]);
      s.state.text == "x" && |s.pending| == 1 && IsRewrite(s.pending[0])
      && Next(s, Resolved(0, Response(200, "Hi!"))).state.text == "Hi!"
  {
    var e := EditorInput(TextEditor.Type("x"));
    AfterRewriteThenTranscript(audio);
    var s4 := Run(Start, RewriteThenTranscript(audio));
    TypeThenLateRewrite(s4, "x", Response(200, "Hi!"));
    RunAppend(Start, RewriteThenTranscript(audio), [e]);
    RunCons(s4, e, []);
  }

  /** From an idle session with only a rewrite out, typing sets the text
      to the typed value; the rewrite's reply then replaces the edit when
      it succeeds, and keeps it beside the fixed message when it fails. */
  lemma TypeThenLateRewrite(s: Session, v: string, reply: Reply)
    requires !s.state.isProcessing && |s.pending| == 1 && IsRewrite(s.pending[0])
    ensures var t := Next(s, EditorInput(TextEditor.Type(v)));
      var u := Next(t, Resolved(0, reply));
      t.state.text == v && t.pending == s.pending
      && (Succeeded(reply) ==> u.state.text == reply.content)
      && (!Succeeded(reply) ==> u.state.text == v && u.state.error == Some(ImproveFailed))
  {
    var t := Next(s, EditorInput(TextEditor.Type(v)));
    assert t == s.(state := s.state.(text := v));
  }

  /** The event model and the run-to-completion handler agree: a file
      whose transcription reply comes back before anything else happens
      leaves the state `AfterAudioInput` gives. */
  lemma AudioEventsMatchHandler(st: State, audio: AudioControls.Blob, reply: Reply)
    ensures Run(Session(st, [], None), [FileLoaded(audio), Resolved(0, reply)]).state
      == AfterAudioInput(st, reply)
  {
    var s0 := Session(st, [], None);
    var s1 := Next(s0, FileLoaded(audio));
    RunCons(s1, Resolved(0, reply), []);
    RunCons(s0, FileLoaded(audio), [Resolved(0, reply)]);
  }

  /** Likewise for a style click on a shown editor over non-blank text: the
      request sent is `ImproveRequest`'s, and once its reply is in the
      state is the one `AfterImproveText` gives. */
  lemma RewriteEventsMatchHandler(st: State, i: nat, reply: Reply)
    requires i < |TextEditor.StyleButtons| && !st.isProcessing && !AllWs(st.text)
    ensures var s1 := Next(Session(st, [], None), EditorInput(TextEditor.Click(i)));
      s1.pending == [AwaitingRewrite(ImproveRequest(st, TextEditor.StyleButtons[i].style).value)]
    ensures Run(Session(st, [], None), [EditorInput(TextEditor.Click(i)), Resolved(0, reply)]).state
      == AfterImproveText(st, TextEditor.StyleButtons[i].style, reply)
  {
    var s0 := Session(st, [], None);
    var e := EditorInput(TextEditor.Click(i));
    ClickSends(s0, i);
    var s1 := Next(s0, e);
    RunCons(s1, Resolved(0, reply), []);
    RunCons(s0, e, [Resolved(0, reply)]);
  }

  // -----------------------------------------------------------------------
  // The component

  /** The App component's state slots and its handlers. */
  class AppState {
    var text: string
    var isProcessing: bool
    var error: Option<string>
    var selectedVoiceModel: string
    var selectedTextModel: string

    function Snapshot(): State
      reads this
    {
      State(text, isProcessing, error, selectedVoiceModel, selectedTextModel)
    }

    constructor ()
      ensures Snapshot() == Initial
    {
      text := "";
      isProcessing := false;
      error := None;
      selectedVoiceModel := DefaultVoiceModel;
      selectedTextModel := DefaultTextModel;
    }

    /** `handleAudioInput`, with the transcription service's reply, run to
        completion with nothing in between. It uses the voice model held in
        this state; a recording's payload arrives through the handler of the
        render in which recording started, which `Session` models. */
    method HandleAudioInput(audio: AudioControls.Blob, reply: Reply) returns (request: TranscriptionRequest)
      modifies this
      ensures request == TranscriptionRequestFor(audio, old(selectedVoiceModel))
      ensures Snapshot() == AfterAudioInput(old(Snapshot()), reply)
    {
      isProcessing := true;
      request := TranscriptionRequest(FormFile("audio.webm", "audio/webm", audio.bytes), selectedVoiceModel, "en");
      if Succeeded(reply) {
        text := reply.content;
      } else {
        error := Some(TranscribeFailed);
      }
      isProcessing := false;
    }

    /** `handleImproveText`, with the completion service's reply (unused
        when no request goes out). */
    method HandleImproveText(style: string, reply: Reply) returns (request: Option<CompletionRequest>)
      modifies this
      ensures request == ImproveRequest(old(Snapshot()), style)
      ensures Snapshot() == AfterImproveText(old(Snapshot()), style, reply)
    {
      ghost var before := Snapshot();
      if Trim(text) == [] {
        request := None;
        return;
      }
      isProcessing := true;
      var messages := [ChatMessage("system", SystemPrompt(style)), ChatMessage("user", text)];
      request := Some(CompletionRequest(selectedTextModel, messages));
      if Succeeded(reply) {
        text := reply.content;
      } else {
        error := Some(ImproveFailed);
      }
      isProcessing := false;
      assert Snapshot() == SettleImprovement(BeginRequest(before), reply);
    }

    /** `handleFormat`. */
    method HandleFormat()
      modifies this
      ensures Snapshot() == old(Snapshot()).(text := Format(old(text)))
    {
      text := CollapseWs(Trim(text));
    }

    /** `setText`, which the editor gets as `onTextChange`. */
    method SetText(value: string)
      modifies this
      ensures Snapshot() == old(Snapshot()).(text := value)
    {
      text := value;
    }

    /** `setSelectedVoiceModel`: any identifier is taken. */
    method SetSelectedVoiceModel(m: string)
      modifies this
      ensures Snapshot() == old(Snapshot()).(selectedVoiceModel := m)
    {
      selectedVoiceModel := m;
    }

    /** `setSelectedTextModel`: any identifier is taken. */
    method SetSelectedTextModel(m: string)
      modifies this
      ensures Snapshot() == old(Snapshot()).(selectedTextModel := m)
    {
      selectedTextModel := m;
    }
  }
}
