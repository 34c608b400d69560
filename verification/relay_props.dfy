/**
 What one media connection promises, stated over `Relay.Step` and
 `Relay.Run`: provider-connection creation, the barge-in protocol, the
 drop-don't-queue rule for agent audio, transcript assembly, and the shared
 tables it touches.
 */
module RelayProps {
  import opened Common
  import opened Wire
  import opened Transcript
  import opened Registry
  import opened Notes
  import opened ProviderEvents
  import opened Relay
  import StatusLog

  /** The call identifier a `start` frame yields: `start.callSid || start.customParameters.callSid`. */
  function StartCallSid(callSid: Option<string>, customCallSid: Option<string>): Option<string>
  {
    if Present(callSid) then callSid else customCallSid
  }

  /** `Logged` is exactly membership of the event's type in the list of echoed types. */
  lemma LoggedIsListed(ev: ProviderEvent)
    requires WellKinded(ev)
    ensures Logged(ev) <==> Kind(ev) in LogEventTypes
  {
    var t := LogEventTypes;
    match ev
    case SessionUpdated =>
      assert forall i :: 0 <= i < |t| ==> t[i] != "session.updated";
    case SpeechStarted => assert t[6] == Kind(ev);
    case SpeechStopped => assert t[5] == Kind(ev);
    case Committed => assert t[4] == Kind(ev);
    case ItemCreated(_) => assert t[9] == Kind(ev);
    case InputTranscribed(_) => assert t[10] == Kind(ev);
    case AudioDelta(_) => assert t[8] == Kind(ev);
    case OutputItemAdded => assert t[14] == Kind(ev);
    case TranscriptDelta(_) => assert t[12] == Kind(ev);
    case TranscriptDone => assert t[13] == Kind(ev);
    case ResponseDone(_) => assert t[3] == Kind(ev);
    case ResponseCancelled => assert t[17] == Kind(ev);
    case ListedOnly(l) =>
      match l {
        case Error => assert t[0] == Kind(ev);
        case ContentDone => assert t[1] == Kind(ev);
        case RateLimitsUpdated => assert t[2] == Kind(ev);
        case SessionCreated => assert t[7] == Kind(ev);
        case TranscriptionFailed => assert t[11] == Kind(ev);
        case ContentPartAdded => assert t[15] == Kind(ev);
        case ContentPartDone => assert t[16] == Kind(ev);
      }
    case Unlisted(_) =>
  }

  // ---------------------------------------------------------------------
  // The shared-table invariant
  // ---------------------------------------------------------------------

  lemma HandlePreservesInv(b: Bridge, w: World, e: Input)
    requires Inv(w)
    ensures Inv(Handle(b, w, e).w)
  {
    match e
    case Start(streamSid, callSid, custom, language) =>
      var cs := StartCallSid(callSid, custom);
      if Present(cs) {
        assert Inv(w.(sockets := w.sockets[cs.value := b.conn]));
      }
    case FarEndClosed =>
      if Present(b.callSid) {
        assert Inv(w.(sockets := w.sockets - {b.callSid.value}));
      }
    case FarEndError(error) =>
      if Present(b.callSid) {
        assert Inv(w.(sockets := w.sockets - {b.callSid.value}));
      }
    case ProviderClosed =>
      if Present(b.callSid) {
        assert Inv(w.(sockets := w.sockets - {b.callSid.value}));
      }
    case _ =>
  }

  /** Every step keeps every status log within 100 entries and never leaves an empty transcript behind. */
  lemma StepPreservesInv(b: Bridge, w: World, e: Input)
    requires Inv(w)
    ensures Inv(Step(b, w, e).w)
  {
    HandlePreservesInv(b, w, e);
  }

  // ---------------------------------------------------------------------
  // At most one provider connection per media connection
  // ---------------------------------------------------------------------

  lemma OnStartOpens(b: Bridge, w: World, streamSid: Option<string>, callSid: Option<string>,
                     customCallSid: Option<string>, language: Option<string>)
    ensures var o := OnStart(b, w, streamSid, callSid, customCallSid, language);
      && Opens(o.fx) == (if b.provider == NoLink && Present(StartCallSid(callSid, customCallSid)) then 1 else 0)
      && (b.provider != NoLink ==> o.b.provider == b.provider)
      && (Opens(o.fx) > 0 ==> o.b.provider == Connecting)
  {
    var cs := StartCallSid(callSid, customCallSid);
    if !Present(cs) {
      assert Opens([CloseFarEnd(1011, "No CallSid provided")]) == 0;
    }
  }

  lemma OnFarEndGoneOpens(b: Bridge, w: World, msg: Note)
    ensures Opens(OnFarEndGone(b, w, msg).fx) == 0
    ensures b.provider != NoLink ==> OnFarEndGone(b, w, msg).b.provider != NoLink
  {
    assert Opens([CloseProvider]) == 0;
  }

  lemma OnSessionUpdateDueOpens(b: Bridge, w: World)
    ensures Opens(OnSessionUpdateDue(b, w).fx) == 0
    ensures OnSessionUpdateDue(b, w).b == b
  {
    if b.provider == Open && Live(b) && Present(b.streamSid) {
      assert Opens([ToProvider(SessionUpdate(ConfigFor(b.language, MetadataOf(w, b.callSid.value))))]) == 0;
    }
  }

  /**
   A step opens a provider connection only when none was ever created, opens
   at most one, and once one exists it is never forgotten.
   */
  lemma StepOpensAtMostOnce(b: Bridge, w: World, e: Input)
    ensures var o := Step(b, w, e);
      && Opens(o.fx) <= (if b.provider == NoLink then 1 else 0)
      && (Opens(o.fx) > 0 ==> o.b.provider != NoLink)
      && (b.provider != NoLink ==> o.b.provider != NoLink)
  {
    match e
    case Start(streamSid, callSid, custom, language) =>
      OnStartOpens(b, w, streamSid, callSid, custom, language);
    case Media(payload) =>
    case OtherFrame(event) =>
    case BadFrame(error) =>
    case FarEndClosed =>
      OnFarEndGoneOpens(b, w, FarEndGone);
    case FarEndError(error) =>
      OnFarEndGoneOpens(b, w, FarEndFailed(error));
    case ProviderOpened =>
    case ProviderMessage(ev) =>
    case BadProviderMessage(error) =>
    case ProviderClosed =>
    case ProviderError(error) =>
    case SessionUpdateDue =>
      OnSessionUpdateDueOpens(b, w);
  }

  /** However many `start` frames are replayed, one media connection opens at most one provider connection. */
  lemma {:induction false} AtMostOneProviderConnection(b: Bridge, w: World, inputs: seq<Input>)
    ensures Opens(Run(b, w, inputs).fx) <= (if b.provider == NoLink then 1 else 0)
    ensures b.provider != NoLink ==> Run(b, w, inputs).b.provider != NoLink
    decreases |inputs|
  {
    if |inputs| > 0 {
      var o := Step(b, w, inputs[0]);
      StepOpensAtMostOnce(b, w, inputs[0]);
      AtMostOneProviderConnection(o.b, o.w, inputs[1..]);
      OpensConcat(o.fx, Run(o.b, o.w, inputs[1..]).fx);
    }
  }

  // ---------------------------------------------------------------------
  // The telephone leg
  // ---------------------------------------------------------------------

  /** A `start` without any call identifier closes the telephone socket with 1011 and creates nothing. */
  lemma StartWithoutCallSid(b: Bridge, w: World, streamSid: Option<string>, callSid: Option<string>,
                            customCallSid: Option<string>, language: Option<string>)
    requires !Present(StartCallSid(callSid, customCallSid))
    ensures var o := Step(b, w, Start(streamSid, callSid, customCallSid, language));
      && o.w == w
      && o.fx == [CloseFarEnd(1011, "No CallSid provided")]
      && o.b.provider == b.provider && o.b.callActive == b.callActive && !o.b.farEndOpen
  {
    RecordSilent(w.logs, [CloseFarEnd(1011, "No CallSid provided")]);
  }

  /**
   A `start` with a call identifier registers this connection under it,
   activates the call, and sets up the provider: a new connection when none
   exists, otherwise the existing one is reused (with the session update
   scheduled again when it is open).
   */
  lemma StartWithCallSid(b: Bridge, w: World, streamSid: Option<string>, callSid: Option<string>,
                         customCallSid: Option<string>, language: Option<string>)
    requires Present(StartCallSid(callSid, customCallSid))
    ensures var o := Step(b, w, Start(streamSid, callSid, customCallSid, language));
      var cs := StartCallSid(callSid, customCallSid).value;
      && o.b.callSid == Some(cs) && o.b.streamSid == streamSid && o.b.callActive
      && o.b.language == OrDefault(language, DefaultLanguage)
      && o.w.sockets == w.sockets[cs := b.conn]
      && o.w.transcripts == w.transcripts && o.w.metadata == w.metadata
      && (b.provider == NoLink ==> o.b.provider == Connecting && Outbound(o.fx) == [OpenProvider])
      && (b.provider != NoLink ==>
            o.b.provider == b.provider
            && Outbound(o.fx) == (if b.provider == Open then [ScheduleSessionUpdate] else []))
  {
  }

  /** The telephone close runs the shared teardown with its own status note. */
  lemma FarEndClosedIsGone(b: Bridge, w: World)
    ensures Step(b, w, FarEndClosed) == Commit(OnFarEndGone(b, w, FarEndGone))
  {
    assert Handle(b, w, FarEndClosed) == OnFarEndGone(b, w, FarEndGone);
  }

  /**
   Telephone socket close or error: the provider socket is closed unless
   already closed; with a known call identifier the call is deregistered and
   deactivated and the note is logged for it; without one no log changes;
   transcripts and metadata stay for the status callback.
   */
  lemma FarEndGoneTearsDown(b: Bridge, w: World, msg: Note)
    ensures var o := Commit(OnFarEndGone(b, w, msg));
      && !o.b.farEndOpen
      && Outbound(o.fx) == (if b.provider in {Connecting, Open, Closing} then [CloseProvider] else [])
      && o.w.transcripts == w.transcripts && o.w.metadata == w.metadata
      && (Present(b.callSid) ==>
            && !o.b.callActive && o.w.sockets == w.sockets - {b.callSid.value}
            && o.w.logs == w.logs[b.callSid.value := StatusLog.Push(LogIn(w.logs, b.callSid.value), msg)])
      && (!Present(b.callSid) ==> o.w.sockets == w.sockets && o.w.logs == w.logs)
  {
    var closing := if b.provider in {Connecting, Open, Closing} then [CloseProvider] else [];
    assert Outbound(closing) == closing;
    RecordSilent(w.logs, closing);
    if Present(b.callSid) {
      var cs := b.callSid.value;
      assert OnFarEndGone(b, w, msg).fx == closing + [Status(cs, msg, false)];
      RecordThenStatus(w.logs, closing, Status(cs, msg, false));
    }
  }

  /** Telephone socket close, through the transition function. */
  lemma FarEndCloseTearsDown(b: Bridge, w: World)
    ensures var o := Step(b, w, FarEndClosed);
      && !o.b.farEndOpen
      && Outbound(o.fx) == (if b.provider in {Connecting, Open, Closing} then [CloseProvider] else [])
      && o.w.transcripts == w.transcripts && o.w.metadata == w.metadata
      && (Present(b.callSid) ==> !o.b.callActive && o.w.sockets == w.sockets - {b.callSid.value})
      && (!Present(b.callSid) ==> o.w.sockets == w.sockets && o.w.logs == w.logs)
  {
    FarEndClosedIsGone(b, w);
    FarEndGoneTearsDown(b, w, FarEndGone);
  }

  /** The telephone close of a call with a known identifier appends "Twilio socket closed" to that call's log. */
  lemma FarEndCloseLogs(b: Bridge, w: World)
    requires Present(b.callSid)
    ensures var cs := b.callSid.value;
      LogOf(Step(b, w, FarEndClosed).w, cs) == StatusLog.Push(LogOf(w, cs), FarEndGone)
  {
    FarEndClosedIsGone(b, w);
    FarEndGoneTearsDown(b, w, FarEndGone);
  }

  /** A telephone close before any `start` touches no shared table. */
  lemma FarEndCloseBeforeStart(conn: ConnId, w: World)
    ensures Step(Fresh(conn), w, FarEndClosed).w == w
    ensures Opens(Step(Fresh(conn), w, FarEndClosed).fx) == 0
  {
    FarEndClosedIsGone(Fresh(conn), w);
    assert Record(w.logs, []) == w.logs;
  }

  // ---------------------------------------------------------------------
  // Provider socket events
  // ---------------------------------------------------------------------

  /**
   The session configuration is sent exactly when the provider socket is open
   and the call identifier, the active flag and the stream identifier are all
   set; it carries the call's language and stored metadata.
   */
  lemma SessionUpdateGate(b: Bridge, w: World)
    ensures var o := Step(b, w, SessionUpdateDue);
      && o.b == b && o.w.sockets == w.sockets && o.w.transcripts == w.transcripts
      && Outbound(o.fx) ==
           (if b.provider == Open && Present(b.callSid) && b.callActive && Present(b.streamSid)
            then [ToProvider(SessionUpdate(ConfigFor(b.language, MetadataOf(w, b.callSid.value))))]
            else [])
  {
  }

  /** Provider `open` schedules the session update only for a live call. */
  lemma ProviderOpenSchedulesUpdate(b: Bridge, w: World)
    requires b.provider == Connecting
    ensures Step(b, w, ProviderOpened) == Out(b.(provider := Open), w, if Live(b) then [ScheduleSessionUpdate] else [])
  {
    assert Handle(b, w, ProviderOpened) == OnProviderOpened(b, w);
    RecordSilent(w.logs, if Live(b) then [ScheduleSessionUpdate] else []);
  }

  /** Provider `close` deactivates and deregisters the call. */
  lemma ProviderCloseDeactivates(b: Bridge, w: World)
    requires Present(b.callSid)
    ensures var o := Step(b, w, ProviderClosed);
      && o.b == b.(provider := Closed, callActive := false)
      && o.w.sockets == w.sockets - {b.callSid.value}
      && Outbound(o.fx) == []
  {
  }

  /** A provider `error` only reports: the call stays active and registered. */
  lemma ProviderErrorKeepsCall(b: Bridge, w: World, error: string)
    ensures var o := Step(b, w, ProviderError(error));
      o.b == b && o.w.sockets == w.sockets && o.w.transcripts == w.transcripts && Outbound(o.fx) == []
  {
  }

  /** Every provider message is ignored, without any effect, unless the call identifier is set and the call is active. */
  lemma MessagesIgnoredUnlessLive(b: Bridge, w: World, ev: ProviderEvent, error: string)
    requires !Present(b.callSid) || !b.callActive
    ensures Step(b, w, ProviderMessage(ev)) == Out(b, w, [])
    ensures Step(b, w, BadProviderMessage(error)) == Out(b, w, [])
  {
  }
}
