/**
 What the relay does with each provider event of a live call: the barge-in
 protocol, the drop-don't-queue rule for agent audio, the response requests,
 and how caller and agent text reach the transcript.
 */
module RelayEvents {
  import opened Common
  import opened Wire
  import opened Transcript
  import opened Registry
  import opened Notes
  import opened ProviderEvents
  import opened Relay

  /** A provider message is handled by `OnProviderMessage`; the lemmas below are stated about it. */
  lemma MessageIsDispatched(b: Bridge, w: World, ev: ProviderEvent)
    ensures Step(b, w, ProviderMessage(ev)) == Commit(OnProviderMessage(b, w, ev))
  {
    assert Handle(b, w, ProviderMessage(ev)) == OnProviderMessage(b, w, ev);
  }

  /**
   Barge-in: when the caller starts speaking the agent is marked silent and
   the caller as speaking, then the in-flight response is cancelled, the
   provider's output buffer cleared and, only while the telephone socket is
   open, the far end's queued playback cleared, in that order.
   */
  lemma BargeIn(b: Bridge, w: World)
    requires Live(b)
    ensures var o := OnProviderMessage(b, w, SpeechStarted);
      && o.b == b.(userSpeaking := true, aiSpeaking := false)
      && o.w.sockets == w.sockets && o.w.transcripts == w.transcripts
      && Outbound(o.fx) == [ToProvider(ResponseCancel), ToProvider(AudioClear)]
                           + (if b.farEndOpen then [ToFarEnd(ClearPlayback(b.streamSid))] else [])
  {
    SpeechStartedDispatch(Echo(b, w, SpeechStarted));
  }

  lemma SpeechStartedDispatch(o: Out)
    requires Live(o.b)
    ensures var r := Dispatch(o, SpeechStarted);
      && r.b == o.b.(userSpeaking := true, aiSpeaking := false)
      && r.w.sockets == o.w.sockets && r.w.transcripts == o.w.transcripts
      && Outbound(r.fx) == Outbound(o.fx) + [ToProvider(ResponseCancel), ToProvider(AudioClear)]
                           + (if o.b.farEndOpen then [ToFarEnd(ClearPlayback(o.b.streamSid))] else [])
  {
    var o1 := o.(b := o.b.(userSpeaking := true, aiSpeaking := false));
    var o2 := Send(Send(o1, ToProvider(ResponseCancel)), ToProvider(AudioClear));
    assert Outbound(o2.fx) == Outbound(o.fx) + [ToProvider(ResponseCancel), ToProvider(AudioClear)];
    if o.b.farEndOpen {
      var o3 := Send(o2, ToFarEnd(ClearPlayback(o2.b.streamSid)));
      assert Dispatch(o, SpeechStarted) == Say(o3, UserInterrupted);
    } else {
      assert Dispatch(o, SpeechStarted) == Say(o2, UserInterrupted);
    }
  }

  /** The end of caller speech only clears the caller-speaking flag and sends nothing. */
  lemma SpeechStoppedOnlyClearsFlag(b: Bridge, w: World)
    requires Live(b)
    ensures var o := OnProviderMessage(b, w, SpeechStopped);
      && o.b == b.(userSpeaking := false)
      && o.w.sockets == w.sockets && o.w.transcripts == w.transcripts
      && Outbound(o.fx) == []
  {
  }

  /**
   Agent audio: a non-empty delta is forwarded to the telephone leg, tagged
   with the stream identifier, only while the caller is not speaking and the
   telephone socket is open; while the caller speaks it is dropped, never
   queued. Forwarding marks the agent as speaking even when the socket is
   closed.
   */
  lemma AudioDeltaRule(b: Bridge, w: World, delta: Option<string>)
    requires Live(b)
    ensures var o := OnProviderMessage(b, w, AudioDelta(delta));
      && o.b == (if Present(delta) && !b.userSpeaking then b.(aiSpeaking := true) else b)
      && o.w.sockets == w.sockets && o.w.transcripts == w.transcripts
      && Outbound(o.fx) == (if Present(delta) && !b.userSpeaking && b.farEndOpen
                            then [ToFarEnd(MediaOut(b.streamSid, delta.value))] else [])
  {
  }

  /** A committed caller turn and a confirmed session update each request a text-and-audio response. */
  lemma ResponseRequested(b: Bridge, w: World, ev: ProviderEvent)
    requires Live(b)
    requires ev == Committed || ev == SessionUpdated
    ensures var o := OnProviderMessage(b, w, ev);
      && o.b == b && o.w.transcripts == w.transcripts
      && Outbound(o.fx) == [ToProvider(ResponseCreate)]
  {
  }

  /** A cancelled response marks the agent silent and sends nothing. */
  lemma ResponseCancelledSilencesAgent(b: Bridge, w: World)
    requires Live(b)
    ensures var o := OnProviderMessage(b, w, ResponseCancelled);
      && o.b == b.(aiSpeaking := false) && o.w.transcripts == w.transcripts && Outbound(o.fx) == []
  {
  }

  /** A finished response marks the agent silent and sends nothing. */
  lemma ResponseDoneSilencesAgent(b: Bridge, w: World, output: seq<OutputItem>)
    requires Live(b)
    ensures var o := OnProviderMessage(b, w, ResponseDone(output));
      o.b == b.(aiSpeaking := false) && Outbound(o.fx) == []
  {
    ResponseDoneDispatch(Echo(b, w, ResponseDone(output)), output);
  }

  /**
   When the first assistant item of a finished response carries a non-blank
   transcript, that text replaces a trailing agent entry of this call's
   transcript (or becomes a new one); nothing else in any transcript changes.
   */
  lemma ResponseDoneSetsFinal(b: Bridge, w: World, output: seq<OutputItem>)
    requires Live(b)
    ensures var o := OnProviderMessage(b, w, ResponseDone(output));
      var cs := b.callSid.value;
      var final := FinalText(output);
      o.w.transcripts == (if Spoken(final) then w.transcripts[cs := SetAgentFinal(TranscriptOf(w, cs), final.value)]
                          else w.transcripts)
  {
    ResponseDoneDispatch(Echo(b, w, ResponseDone(output)), output);
  }

  lemma ResponseDoneDispatch(o: Out, output: seq<OutputItem>)
    requires Live(o.b)
    ensures var o1 := o.(b := o.b.(aiSpeaking := false));
      var final := FinalText(output);
      Dispatch(o, ResponseDone(output))
        == Say(if Spoken(final) then SetAgentText(o1, final.value) else o1, AgentFinished)
  {
  }

  /** A non-blank agent transcript delta grows a trailing agent entry or starts one; a blank one is dropped. */
  lemma TranscriptDeltaAppends(b: Bridge, w: World, part: Option<string>)
    requires Live(b)
    ensures var o := OnProviderMessage(b, w, TranscriptDelta(part));
      var cs := b.callSid.value;
      && o.b == b && Outbound(o.fx) == []
      && o.w.transcripts == (if Spoken(part) then w.transcripts[cs := AddAgentDelta(TranscriptOf(w, cs), part.value)]
                             else w.transcripts)
  {
  }

  /**
   A caller utterance, from a created user item or a completed input
   transcription, is pushed as a new caller entry exactly when its text is
   not blank.
   */
  lemma CallerTextPushedIffSpoken(b: Bridge, w: World, transcript: Option<string>)
    requires Live(b)
    ensures var o := OnProviderMessage(b, w, InputTranscribed(transcript));
      var cs := b.callSid.value;
      && o.b == b && Outbound(o.fx) == []
      && (|TranscriptOf(o.w, cs)| == |TranscriptOf(w, cs)| + 1 <==> Spoken(transcript))
      && (Spoken(transcript) ==> TranscriptOf(o.w, cs) == TranscriptOf(w, cs) + [Entry(User, transcript.value)])
      && (!Spoken(transcript) ==> o.w.transcripts == w.transcripts)
  {
  }

  /** The same rule for a created conversation item: only a user item with non-blank joined text is recorded. */
  lemma CallerItemPushedIffSpoken(b: Bridge, w: World, item: Option<Item>)
    requires Live(b)
    ensures var o := OnProviderMessage(b, w, ItemCreated(item));
      var cs := b.callSid.value;
      var pushed := item.Some? && item.value.role == "user" && item.value.content.Some?
                    && Trim(CallerText(item.value.content.value)) != "";
      && o.b == b && Outbound(o.fx) == []
      && (|TranscriptOf(o.w, cs)| == |TranscriptOf(w, cs)| + 1 <==> pushed)
      && (pushed ==> TranscriptOf(o.w, cs)
                     == TranscriptOf(w, cs) + [Entry(User, CallerText(item.value.content.value))])
      && (!pushed ==> o.w.transcripts == w.transcripts)
  {
  }

  // ---------------------------------------------------------------------
  // Properties of every step and of whole runs
  // ---------------------------------------------------------------------

  lemma UntouchedTranscripts(w: World, w': World)
    requires w'.transcripts == w.transcripts
    ensures TailEditsOnly(w, w')
  {
  }

  lemma SameTranscriptsAfter(w: World, w1: World, w2: World)
    requires TailEditsOnly(w, w1) && w2.transcripts == w1.transcripts
    ensures TailEditsOnly(w, w2)
  {
    forall k ensures TranscriptOf(w2, k) == TranscriptOf(w1, k) {
    }
  }

  /**
   No step rewrites transcript history: each call's transcript either stays as
   it was, gains one entry at the end, or has only its last entry replaced.
   */
  lemma StepEditsTranscriptTail(b: Bridge, w: World, e: Input)
    ensures TailEditsOnly(w, Step(b, w, e).w)
  {
    var h := Handle(b, w, e);
    if e.ProviderMessage? {
      assert h == OnProviderMessage(b, w, e.ev);
    } else {
      assert h.w.transcripts == w.transcripts;
      UntouchedTranscripts(w, h.w);
    }
    SameTranscriptsAfter(w, h.w, Commit(h).w);
  }

  lemma StartSilent(b: Bridge, w: World, streamSid: Option<string>, callSid: Option<string>,
                    customCallSid: Option<string>, language: Option<string>)
    ensures NoPlayback(OnStart(b, w, streamSid, callSid, customCallSid, language).fx)
    ensures OnStart(b, w, streamSid, callSid, customCallSid, language).b.userSpeaking == b.userSpeaking
  {
    var cs := if Present(callSid) then callSid else customCallSid;
    var b1 := b.(streamSid := streamSid, callSid := cs, language := OrDefault(language, DefaultLanguage));
    if !Present(cs) {
      assert NoPlayback([CloseFarEnd(1011, "No CallSid provided")]);
    } else {
      var w1 := w.(sockets := w.sockets[cs.value := b.conn]);
      var o1 := Say(Out(b1.(callActive := true), w1, []), CallConnected);
      assert NoPlayback(o1.fx) by {
        assert o1.fx == [Announce(w1, cs.value, CallConnected)];
      }
      assert o1.b.userSpeaking == b.userSpeaking;
      assert OnStart(b, w, streamSid, callSid, customCallSid, language) == SetupProvider(o1);
    }
  }

  lemma FarEndGoneSilent(b: Bridge, w: World, msg: Note)
    ensures NoPlayback(OnFarEndGone(b, w, msg).fx)
    ensures OnFarEndGone(b, w, msg).b.userSpeaking == b.userSpeaking
  {
    var closing := if b.provider in {Connecting, Open, Closing} then [CloseProvider] else [];
    assert NoPlayback(closing);
  }

  lemma SessionUpdateSilent(b: Bridge, w: World)
    ensures NoPlayback(OnSessionUpdateDue(b, w).fx)
    ensures OnSessionUpdateDue(b, w).b == b
  {
    if b.provider == Open && Live(b) && Present(b.streamSid) {
      assert NoPlayback([ToProvider(SessionUpdate(ConfigFor(b.language, MetadataOf(w, b.callSid.value))))]);
    }
  }

  /**
   One step while the caller is speaking: unless it is the end-of-speech
   event, no agent audio goes to the telephone leg and the caller is still
   marked as speaking.
   */
  lemma StepSilentWhileCallerSpeaks(b: Bridge, w: World, e: Input)
    requires b.userSpeaking
    requires e != ProviderMessage(SpeechStopped)
    ensures NoPlayback(Step(b, w, e).fx)
    ensures Step(b, w, e).b.userSpeaking
  {
    match e
    case Start(streamSid, callSid, custom, language) =>
      StartSilent(b, w, streamSid, callSid, custom, language);
    case Media(payload) =>
    case OtherFrame(event) =>
    case BadFrame(error) =>
    case FarEndClosed =>
      FarEndGoneSilent(b, w, FarEndGone);
    case FarEndError(error) =>
      FarEndGoneSilent(b, w, FarEndFailed(error));
    case ProviderOpened =>
    case ProviderMessage(ev) =>
      assert Handle(b, w, e) == OnProviderMessage(b, w, ev);
    case BadProviderMessage(error) =>
    case ProviderClosed =>
    case ProviderError(error) =>
    case SessionUpdateDue =>
      SessionUpdateSilent(b, w);
  }

  /**
   Drop, don't queue: from the moment the caller starts speaking until the
   provider reports the end of speech, not a single agent audio frame reaches
   the telephone leg, whatever else happens on either socket.
   */
  lemma {:induction false} NoPlaybackWhileCallerSpeaks(b: Bridge, w: World, inputs: seq<Input>)
    requires b.userSpeaking
    requires forall i :: 0 <= i < |inputs| ==> inputs[i] != ProviderMessage(SpeechStopped)
    ensures NoPlayback(Run(b, w, inputs).fx)
    ensures Run(b, w, inputs).b.userSpeaking
    decreases |inputs|
  {
    if |inputs| > 0 {
      var o := Step(b, w, inputs[0]);
      StepSilentWhileCallerSpeaks(b, w, inputs[0]);
      NoPlaybackWhileCallerSpeaks(o.b, o.w, inputs[1..]);
      NoPlaybackConcat(o.fx, Run(o.b, o.w, inputs[1..]).fx);
    }
  }
}
