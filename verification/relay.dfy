/**
 One media-stream connection of the relay (the `/media-stream` handler of
 the server) as a pure transition function. The closure variables of the
 handler become the `Bridge` record, the sockets become the `Link` state of
 the provider connection and the `farEndOpen` flag of the telephone leg, the
 process-wide tables are the `World`, and every send, close or broadcast is
 an `Effect` in the order the handler performs it.
 */
module Relay {
  import opened Common
  import opened Wire
  import opened Transcript
  import opened Registry
  import opened Notes
  import opened ProviderEvents
  import StatusLog

  const DefaultLanguage := "en-US"

  /** The provider socket `openAiWs`: never created, or in one of its ready states. */
  datatype Link = NoLink | Connecting | Open | Closing | Closed

  datatype Bridge = Bridge(
    conn: ConnId,
    callSid: Option<string>,
    streamSid: Option<string>,
    language: string,
    callActive: bool,
    aiSpeaking: bool,
    userSpeaking: bool,
    provider: Link,
    farEndOpen: bool)

  /** A connection as the handler sets it up, before any frame arrives. */
  function Fresh(conn: ConnId): Bridge
  {
    Bridge(conn, None, None, DefaultLanguage, false, false, false, NoLink, true)
  }

  /** Everything that can happen to one connection. */
  datatype Input =
      /** Telephone-leg `start` frame: `start.streamSid`, `start.callSid`,
          `start.customParameters.callSid`, `start.customParameters.language`. */
    | Start(streamSid: Option<string>, callSid: Option<string>, customCallSid: Option<string>, language: Option<string>)
    | Media(payload: string)
    | OtherFrame(event: string)
    | BadFrame(error: string)
    | FarEndClosed
    | FarEndError(error: string)
    | ProviderOpened
    | ProviderMessage(ev: ProviderEvent)
    | BadProviderMessage(error: string)
    | ProviderClosed
    | ProviderError(error: string)
      /** The delayed `sendInitialSessionUpdate` scheduled by `ScheduleSessionUpdate` fires. */
    | SessionUpdateDue

  datatype Out = Out(b: Bridge, w: World, fx: seq<Effect>)

  /** The call identifier is known and the call is live: provider messages are handled. */
  predicate Live(b: Bridge)
  {
    Present(b.callSid) && b.callActive
  }

  /**
   What every provider event handler keeps: the call's identity, language
   and connection flags, the registry and the metadata, the number of
   provider connections opened and transcripts handed off, the shared-table
   invariant, and every transcript up to one edit at its tail.
   */
  ghost predicate Keeps(o: Out, r: Out)
  {
    && r.b.conn == o.b.conn && r.b.callSid == o.b.callSid && r.b.streamSid == o.b.streamSid
    && r.b.language == o.b.language && r.b.callActive == o.b.callActive
    && r.b.provider == o.b.provider && r.b.farEndOpen == o.b.farEndOpen
    && r.w.sockets == o.w.sockets && r.w.metadata == o.w.metadata
    && Opens(r.fx) == Opens(o.fx) && HandOffs(r.fx) == HandOffs(o.fx)
    && r.w.logs == o.w.logs
    && (Inv(o.w) ==> Inv(r.w))
    && TailEditsOnly(o.w, r.w)
  }

  /** While the caller speaks, a handler plays no agent audio and leaves the caller marked as speaking. */
  ghost predicate Quiet(o: Out, r: Out)
  {
    o.b.userSpeaking ==> r.b.userSpeaking && (NoPlayback(o.fx) ==> NoPlayback(r.fx))
  }

  /**
   Broadcast a status message for the bridge's call (nothing without a call
   identifier). The status goes out at once; its log write is applied when
   the step is committed (`Commit`), which nothing in between can observe.
   */
  function Say(o: Out, msg: Note): (r: Out)
    ensures r.b == o.b && r.w == o.w
    ensures !Present(o.b.callSid) ==> r.fx == o.fx
    ensures Present(o.b.callSid) ==> r.fx == o.fx + [Announce(o.w, o.b.callSid.value, msg)]
    ensures Outbound(r.fx) == Outbound(o.fx)
    ensures Opens(r.fx) == Opens(o.fx)
    ensures HandOffs(r.fx) == HandOffs(o.fx)
    ensures NoPlayback(o.fx) ==> NoPlayback(r.fx)
  {
    if !Present(o.b.callSid) then o
    else
      var fx := o.fx + [Announce(o.w, o.b.callSid.value, msg)];
      assert fx[..|fx| - 1] == o.fx;
      o.(fx := fx)
  }

  function Send(o: Out, e: Effect): (r: Out)
    ensures r.b == o.b && r.w == o.w
    ensures r.fx == o.fx + [e]
    ensures !e.Status? ==> Outbound(r.fx) == Outbound(o.fx) + [e]
    ensures Opens(r.fx) == Opens(o.fx) + (if e.OpenProvider? then 1 else 0)
    ensures HandOffs(r.fx) == HandOffs(o.fx) + (if e.HandOff? then 1 else 0)
    ensures NoPlayback(o.fx) && !(e.ToFarEnd? && e.frame.MediaOut?) ==> NoPlayback(r.fx)
  {
    var fx := o.fx + [e];
    assert fx[..|fx| - 1] == o.fx;
    o.(fx := fx)
  }

  /** Push a caller utterance onto the call's transcript. */
  function AddCallerText(o: Out, text: string): (r: Out)
    requires Present(o.b.callSid)
    ensures r.b == o.b && r.fx == o.fx
    ensures r.w.sockets == o.w.sockets && r.w.logs == o.w.logs && r.w.metadata == o.w.metadata
    ensures TranscriptOf(r.w, o.b.callSid.value) == AddCaller(TranscriptOf(o.w, o.b.callSid.value), text)
    ensures forall k :: k != o.b.callSid.value ==> TranscriptOf(r.w, k) == TranscriptOf(o.w, k)
    ensures Inv(o.w) ==> Inv(r.w)
  {
    var cs := o.b.callSid.value;
    o.(w := EditTranscript(o.w, cs, AddCaller(TranscriptOf(o.w, cs), text)))
  }

  function AddAgentText(o: Out, part: string): (r: Out)
    requires Present(o.b.callSid)
    ensures r.b == o.b && r.fx == o.fx
    ensures r.w.sockets == o.w.sockets && r.w.logs == o.w.logs && r.w.metadata == o.w.metadata
    ensures TranscriptOf(r.w, o.b.callSid.value) == AddAgentDelta(TranscriptOf(o.w, o.b.callSid.value), part)
    ensures forall k :: k != o.b.callSid.value ==> TranscriptOf(r.w, k) == TranscriptOf(o.w, k)
    ensures Inv(o.w) ==> Inv(r.w)
  {
    var cs := o.b.callSid.value;
    o.(w := EditTranscript(o.w, cs, AddAgentDelta(TranscriptOf(o.w, cs), part)))
  }

  function SetAgentText(o: Out, text: string): (r: Out)
    requires Present(o.b.callSid)
    ensures r.b == o.b && r.fx == o.fx
    ensures r.w.sockets == o.w.sockets && r.w.logs == o.w.logs && r.w.metadata == o.w.metadata
    ensures TranscriptOf(r.w, o.b.callSid.value) == SetAgentFinal(TranscriptOf(o.w, o.b.callSid.value), text)
    ensures forall k :: k != o.b.callSid.value ==> TranscriptOf(r.w, k) == TranscriptOf(o.w, k)
    ensures Inv(o.w) ==> Inv(r.w)
  {
    var cs := o.b.callSid.value;
    o.(w := EditTranscript(o.w, cs, SetAgentFinal(TranscriptOf(o.w, cs), text)))
  }

  /** `c.text || c.input_text`, with a missing value joined as "". */
  function PartText(c: ContentPart): string
  {
    if Present(c.text) then c.text.value
    else if c.inputText.Some? then c.inputText.value
    else ""
  }

  /** Text and input-text parts of a caller item, in order. */
  function TextParts(content: seq<ContentPart>): (r: seq<string>)
    ensures |r| <= |content|
  {
    if |content| == 0 then []
    else
      var rest := TextParts(content[1..]);
      if content[0].kind == "input_text" || content[0].kind == "text" then [PartText(content[0])] + rest else rest
  }

  /** The caller's words in a `conversation.item.created` item: the text parts joined by a space. */
  function CallerText(content: seq<ContentPart>): string
  {
    Join(TextParts(content), ' ')
  }

  /** `content[0].transcript` of the first assistant item of a finished response. */
  function FinalText(output: seq<OutputItem>): Option<string>
  {
    if |output| == 0 then None
    else if output[0].role == "assistant" then
      (if |output[0].transcripts| > 0 then output[0].transcripts[0] else None)
    else FinalText(output[1..])
  }

  /** Text that survives `trim()`. */
  predicate Spoken(s: Option<string>)
  {
    s.Some? && Trim(s.value) != ""
  }

  // ---------------------------------------------------------------------
  // Telephone-leg events
  // ---------------------------------------------------------------------

  /**
   `start`: record the stream, call identifier and language. Without a call
   identifier the telephone socket is closed with code 1011 and nothing else
   happens; with one, the call is registered and activated and the provider
   connection is set up, at most once per media connection.
   */
  function OnStart(b: Bridge, w: World, streamSid: Option<string>, callSid: Option<string>,
                   customCallSid: Option<string>, language: Option<string>): (o: Out)
  {
    var cs := if Present(callSid) then callSid else customCallSid;
    var b1 := b.(streamSid := streamSid, callSid := cs, language := OrDefault(language, DefaultLanguage));
    if !Present(cs) then
      Out(b1.(farEndOpen := false), w, [CloseFarEnd(1011, "No CallSid provided")])
    else
      var o1 := Say(Out(b1.(callActive := true), w.(sockets := w.sockets[cs.value := b.conn]), []),
                    CallConnected);
      SetupProvider(o1)
  }

  /**
   `setupOpenAIConnection`: an existing provider socket is reused (and, when
   it is open, a session update is scheduled again); otherwise one is created.
   */
  function SetupProvider(o: Out): (r: Out)
    requires Live(o.b)
    ensures r.w == o.w
    ensures o.b.provider == NoLink ==> r.b == o.b.(provider := Connecting) && r.fx == o.fx + [OpenProvider]
    ensures o.b.provider == Open ==> r.b == o.b && r.fx == o.fx + [ScheduleSessionUpdate]
    ensures o.b.provider != NoLink && o.b.provider != Open ==> r == o
    ensures r.b.userSpeaking == o.b.userSpeaking
    ensures NoPlayback(o.fx) ==> NoPlayback(r.fx)
  {
    if o.b.provider != NoLink then
      if o.b.provider == Open && Live(o.b) then Send(o, ScheduleSessionUpdate) else o
    else
      Send(o.(b := o.b.(provider := Connecting)), OpenProvider)
  }

  /** `media`: forwarded unchanged to the provider only for a live call with an open provider socket. */
  function OnMedia(b: Bridge, w: World, payload: string): (o: Out)
    ensures o.b == b && o.w == w
    ensures o.fx == (if Live(b) && b.provider == Open then [ToProvider(AudioAppend(payload))] else [])
  {
    if !Live(b) then Out(b, w, [])
    else if b.provider == Open then Out(b, w, [ToProvider(AudioAppend(payload))])
    else Out(b, w, [])
  }

  /**
   Telephone socket `close` or `error`: close the provider socket unless it
   is already closed, and, when the call identifier is known, deregister the
   call, deactivate it and broadcast `msg`.
   */
  function OnFarEndGone(b: Bridge, w: World, msg: Note): (o: Out)
  {
    var closing := if b.provider in {Connecting, Open, Closing} then [CloseProvider] else [];
    var b1 := b.(farEndOpen := false,
                 provider := if b.provider in {Connecting, Open} then Closing else b.provider);
    if !Present(b.callSid) then Out(b1, w, closing)
    else
      Say(Out(b1.(callActive := false), w.(sockets := w.sockets - {b.callSid.value}), closing), msg)
  }

  // ---------------------------------------------------------------------
  // Provider socket events
  // ---------------------------------------------------------------------

  /** Provider `open`: schedule the session update when the call is live. */
  function OnProviderOpened(b: Bridge, w: World): (o: Out)
  {
    if b.provider != Connecting then Out(b, w, [])
    else Out(b.(provider := Open), w, if Live(b) then [ScheduleSessionUpdate] else [])
  }

  /**
   `sendInitialSessionUpdate`: sends the session configuration only when the
   provider socket is open and the call identifier, the active flag and the
   stream identifier are all present; otherwise it does nothing.
   */
  function OnSessionUpdateDue(b: Bridge, w: World): (o: Out)
  {
    if b.provider != Open then Out(b, w, [])
    else if !(Live(b) && Present(b.streamSid)) then Out(b, w, [])
    else
      var cmd := ToProvider(SessionUpdate(ConfigFor(b.language, MetadataOf(w, b.callSid.value))));
      Say(Out(b, w, [cmd]), SendingSessionUpdate)
  }

  /** Provider `close`: the call is deregistered and deactivated when its identifier is known. */
  function OnProviderClosed(b: Bridge, w: World): (o: Out)
  {
    var b1 := b.(provider := Closed);
    if !Present(b.callSid) then Out(b1, w, [])
    else Say(Out(b1.(callActive := false), w.(sockets := w.sockets - {b.callSid.value}), []),
             ProviderGone)
  }

  /** The state a provider message reaches the dispatch in: unchanged, with at most the echo to the status log. */
  function Echo(b: Bridge, w: World, ev: ProviderEvent): (o: Out)
    ensures o.b == b && o.w == w
    ensures Outbound(o.fx) == [] && Opens(o.fx) == 0 && HandOffs(o.fx) == 0 && NoPlayback(o.fx)
  {
    var o0 := Out(b, w, []);
    if Logged(ev) then Say(o0, EventEcho(ev)) else o0
  }

  /** A provider message: ignored unless the call is live, otherwise echoed to the log if listed and dispatched. */
  function OnProviderMessage(b: Bridge, w: World, ev: ProviderEvent): (o: Out)
    ensures Keeps(Out(b, w, []), o)
    ensures ev != SpeechStopped ==> Quiet(Out(b, w, []), o)
  {
    if !Live(b) then Out(b, w, [])
    else
      DispatchKeeps(Echo(b, w, ev), ev);
      Dispatch(Echo(b, w, ev), ev)
  }

  /** `session.updated`: a response is requested straight away. */
  function OnSessionUpdated(o: Out): (r: Out)
  {
    Say(Send(Say(o, SessionReady), ToProvider(ResponseCreate)),
        ResponseRequested)
  }

  /**
   `input_audio_buffer.speech_started`, the barge-in: flags first, then cancel
   the response, clear the provider's buffer and, while the telephone socket
   is open, the far end's playback.
   */
  function OnSpeechStarted(o: Out): (r: Out)
  {
    var o1 := o.(b := o.b.(userSpeaking := true, aiSpeaking := false));
    var o2 := Send(Send(o1, ToProvider(ResponseCancel)), ToProvider(AudioClear));
    var o3 := if o2.b.farEndOpen then Send(o2, ToFarEnd(ClearPlayback(o2.b.streamSid))) else o2;
    Say(o3, UserInterrupted)
  }

  function OnSpeechStopped(o: Out): (r: Out)
  {
    Say(o.(b := o.b.(userSpeaking := false)), UserFinished)
  }

  /** `conversation.item.created`: a user item's text parts, when not blank, become a caller entry. */
  function OnItemCreated(o: Out, item: Option<Item>): (r: Out)
    requires Present(o.b.callSid)
  {
    if item.Some? && item.value.role == "user" && item.value.content.Some?
       && Trim(CallerText(item.value.content.value)) != ""
    then AddCallerText(o, CallerText(item.value.content.value))
    else o
  }

  /** `conversation.item.input_audio_transcription.completed`: a non-blank transcript becomes a caller entry. */
  function OnInputTranscribed(o: Out, transcript: Option<string>): (r: Out)
    requires Present(o.b.callSid)
  {
    if Spoken(transcript) then AddCallerText(o, transcript.value) else o
  }

  /** `response.audio.delta`: forwarded only while the caller is silent, and only to an open telephone socket. */
  function OnAudioDelta(o: Out, delta: Option<string>): (r: Out)
  {
    if Present(delta) && !o.b.userSpeaking then
      var o1 := o.(b := o.b.(aiSpeaking := true));
      if o1.b.farEndOpen then Send(o1, ToFarEnd(MediaOut(o1.b.streamSid, delta.value))) else o1
    else o
  }

  /** `response.audio_transcript.delta`: non-blank text grows the agent's entry. */
  function OnTranscriptDelta(o: Out, part: Option<string>): (r: Out)
    requires Present(o.b.callSid)
  {
    if Spoken(part) then AddAgentText(o, part.value) else o
  }

  /** `response.done`: the agent is silent again and a non-blank final text replaces its entry. */
  function OnResponseDone(o: Out, output: seq<OutputItem>): (r: Out)
    requires Present(o.b.callSid)
  {
    var o1 := o.(b := o.b.(aiSpeaking := false));
    var final := FinalText(output);
    var o2 := if Spoken(final) then SetAgentText(o1, final.value) else o1;
    Say(o2, AgentFinished)
  }

  function OnResponseCancelled(o: Out): (r: Out)
  {
    Say(o.(b := o.b.(aiSpeaking := false)), AgentCancelled)
  }

  /** The `switch (response.type)` of the provider message handler. */
  function Dispatch(o: Out, ev: ProviderEvent): (r: Out)
    requires Live(o.b)
  {
    match ev
    case SessionUpdated => OnSessionUpdated(o)
    case SpeechStarted => OnSpeechStarted(o)
    case SpeechStopped => OnSpeechStopped(o)
    case ItemCreated(item) => OnItemCreated(o, item)
    case Committed => Send(o, ToProvider(ResponseCreate))
    case InputTranscribed(transcript) => OnInputTranscribed(o, transcript)
    case AudioDelta(delta) => OnAudioDelta(o, delta)
    case OutputItemAdded => o
    case TranscriptDelta(part) => OnTranscriptDelta(o, part)
    case TranscriptDone => o
    case ResponseDone(output) => OnResponseDone(o, output)
    case ResponseCancelled => OnResponseCancelled(o)
    case ListedOnly(_) => o
    case Unlisted(_) => o
  }

  lemma SessionUpdatedKeeps(o: Out)
    ensures Keeps(o, OnSessionUpdated(o)) && Quiet(o, OnSessionUpdated(o))
  {
  }

  lemma SpeechStartedKeeps(o: Out)
    ensures Keeps(o, OnSpeechStarted(o)) && Quiet(o, OnSpeechStarted(o))
  {
  }

  lemma SpeechStoppedKeeps(o: Out)
    ensures Keeps(o, OnSpeechStopped(o))
  {
  }

  lemma ItemCreatedKeeps(o: Out, item: Option<Item>)
    requires Present(o.b.callSid)
    ensures Keeps(o, OnItemCreated(o, item)) && Quiet(o, OnItemCreated(o, item))
  {
  }

  lemma InputTranscribedKeeps(o: Out, transcript: Option<string>)
    requires Present(o.b.callSid)
    ensures Keeps(o, OnInputTranscribed(o, transcript)) && Quiet(o, OnInputTranscribed(o, transcript))
  {
  }

  lemma AudioDeltaKeeps(o: Out, delta: Option<string>)
    ensures Keeps(o, OnAudioDelta(o, delta)) && Quiet(o, OnAudioDelta(o, delta))
  {
  }

  lemma TranscriptDeltaKeeps(o: Out, part: Option<string>)
    requires Present(o.b.callSid)
    ensures Keeps(o, OnTranscriptDelta(o, part)) && Quiet(o, OnTranscriptDelta(o, part))
  {
  }

  lemma ResponseDoneKeeps(o: Out, output: seq<OutputItem>)
    requires Present(o.b.callSid)
    ensures Keeps(o, OnResponseDone(o, output)) && Quiet(o, OnResponseDone(o, output))
  {
  }

  lemma ResponseCancelledKeeps(o: Out)
    ensures Keeps(o, OnResponseCancelled(o)) && Quiet(o, OnResponseCancelled(o))
  {
  }

  /** Every provider event keeps the frame of `Keeps`, and every one but the end of caller speech is `Quiet`. */
  lemma DispatchKeeps(o: Out, ev: ProviderEvent)
    requires Live(o.b)
    ensures Keeps(o, Dispatch(o, ev))
    ensures ev != SpeechStopped ==> Quiet(o, Dispatch(o, ev))
  {
    match ev
    case SessionUpdated => SessionUpdatedKeeps(o);
    case SpeechStarted => SpeechStartedKeeps(o);
    case SpeechStopped => SpeechStoppedKeeps(o);
    case ItemCreated(item) => ItemCreatedKeeps(o, item);
    case Committed =>
    case InputTranscribed(transcript) => InputTranscribedKeeps(o, transcript);
    case AudioDelta(delta) => AudioDeltaKeeps(o, delta);
    case OutputItemAdded =>
    case TranscriptDelta(part) => TranscriptDeltaKeeps(o, part);
    case TranscriptDone =>
    case ResponseDone(output) => ResponseDoneKeeps(o, output);
    case ResponseCancelled => ResponseCancelledKeeps(o);
    case ListedOnly(_) =>
    case Unlisted(_) =>
  }

  // ---------------------------------------------------------------------
  // The transition function
  // ---------------------------------------------------------------------

  /** One input, before its status messages are written to the logs. */
  function Handle(b: Bridge, w: World, e: Input): (o: Out)
  {
    match e
    case Start(streamSid, callSid, custom, language) => OnStart(b, w, streamSid, callSid, custom, language)
    case Media(payload) => OnMedia(b, w, payload)
    case OtherFrame(event) => Say(Out(b, w, []), FrameReceived(event))
    case BadFrame(error) => Say(Out(b, w, []), FrameUnreadable(error))
    case FarEndClosed => OnFarEndGone(b, w, FarEndGone)
    case FarEndError(error) => OnFarEndGone(b, w, FarEndFailed(error))
    case ProviderOpened => OnProviderOpened(b, w)
    case ProviderMessage(ev) => OnProviderMessage(b, w, ev)
    case BadProviderMessage(error) =>
      if !Live(b) then Out(b, w, []) else Say(Out(b, w, []), ProviderMessageUnreadable(error))
    case ProviderClosed => OnProviderClosed(b, w)
    case ProviderError(error) => Say(Out(b, w, []), ProviderFailed(error))
    case SessionUpdateDue => OnSessionUpdateDue(b, w)
  }

  /** The log writes of a handled input: its status broadcasts, in order. */
  function Commit(o: Out): (r: Out)
    ensures r.b == o.b && r.fx == o.fx
    ensures r.w.sockets == o.w.sockets && r.w.transcripts == o.w.transcripts && r.w.metadata == o.w.metadata
    ensures Bounded(o.w.logs) ==> Bounded(r.w.logs)
  {
    o.(w := o.w.(logs := Record(o.w.logs, o.fx)))
  }

  /** The transition function of one media connection. */
  function Step(b: Bridge, w: World, e: Input): (o: Out)
  {
    Commit(Handle(b, w, e))
  }

  /** Feed a sequence of inputs to one connection; effects are concatenated in order. */
  function Run(b: Bridge, w: World, inputs: seq<Input>): Out
    decreases |inputs|
  {
    if |inputs| == 0 then Out(b, w, [])
    else
      var o := Step(b, w, inputs[0]);
      var rest := Run(o.b, o.w, inputs[1..]);
      Out(rest.b, rest.w, o.fx + rest.fx)
  }
}
