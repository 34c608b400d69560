/**
 What the relay says to the outside: commands sent to the inference
 provider, frames sent to the telephone leg, socket opens and closes,
 status broadcasts and the transcript hand-off.
 */
module Wire {
  import opened Common
  import opened Notes

  /** Caller-supplied context stored per call (hotel, city, guest details …), kept opaque. */
  datatype Metadata = Metadata(fields: map<string, string>)

  /**
   The `session.update` configuration. The voice-activity threshold (0.6) and
   the temperature (1.0) are floating-point settings and are not represented;
   the system prompt is represented by its two inputs, the call's metadata and
   language.
   */
  datatype SessionConfig = SessionConfig(
    turnDetection: string,
    prefixPaddingMs: nat,
    silenceDurationMs: nat,
    inputAudioFormat: string,
    outputAudioFormat: string,
    voice: string,
    modalities: seq<string>,
    transcriptionModel: string,
    toolChoice: string,
    maxResponseOutputTokens: nat,
    language: string,
    metadata: Option<Metadata>)

  /** The configuration sent for a call in `language` with the stored `metadata`. */
  function ConfigFor(language: string, metadata: Option<Metadata>): SessionConfig
  {
    SessionConfig("server_vad", 300, 800, "g711_ulaw", "g711_ulaw", "ballad",
                   ["text", "audio"], "whisper-1", "none", 4096, language, metadata)
  }

  /** Commands to the inference provider. */
  datatype Command =
    | SessionUpdate(config: SessionConfig)
    | AudioAppend(audio: string)
    | AudioClear
      /** `response.create` with the modalities `ResponseModalities` and the instructions `ResponseInstructions`. */
    | ResponseCreate
    | ResponseCancel

  /** The one response request the relay ever makes asks for text and audio together. */
  const ResponseModalities: seq<string> := ["text", "audio"]

  const ResponseInstructions: string :=
    "Always provide both text and audio responses. Include the text version of everything you say."

  /** Frames to the telephone leg. */
  datatype Frame =
    | MediaOut(streamSid: Option<string>, payload: string)
    | ClearPlayback(streamSid: Option<string>)

  datatype Effect =
    | ToProvider(cmd: Command)
    | ToFarEnd(frame: Frame)
    | OpenProvider
    | CloseProvider
    | CloseFarEnd(code: nat, reason: string)
    | ScheduleSessionUpdate
    | Status(callSid: string, note: Note, active: bool)
    | HandOff(callSid: string, transcript: string)

  /** The effects that leave the process on a call's sockets, i.e. all but status broadcasts, in order. */
  function Outbound(fx: seq<Effect>): (r: seq<Effect>)
    ensures |r| <= |fx|
    ensures forall i :: 0 <= i < |r| ==> !r[i].Status?
  {
    if |fx| == 0 then []
    else
      var last := fx[|fx| - 1];
      Outbound(fx[..|fx| - 1]) + (if last.Status? then [] else [last])
  }

  lemma {:induction false} OutboundConcat(a: seq<Effect>, b: seq<Effect>)
    ensures Outbound(a + b) == Outbound(a) + Outbound(b)
    decreases |b|
  {
    if |b| == 0 {
      assert a + b == a;
    } else {
      assert (a + b)[..|a + b| - 1] == a + b[..|b| - 1];
      OutboundConcat(a, b[..|b| - 1]);
    }
  }

  /** Number of provider connections the effects open. */
  function Opens(fx: seq<Effect>): nat
  {
    if |fx| == 0 then 0
    else Opens(fx[..|fx| - 1]) + (if fx[|fx| - 1].OpenProvider? then 1 else 0)
  }

  lemma {:induction false} OpensConcat(a: seq<Effect>, b: seq<Effect>)
    ensures Opens(a + b) == Opens(a) + Opens(b)
    decreases |b|
  {
    if |b| == 0 {
      assert a + b == a;
    } else {
      assert (a + b)[..|a + b| - 1] == a + b[..|b| - 1];
      OpensConcat(a, b[..|b| - 1]);
    }
  }

  /** Number of transcript hand-offs among the effects. */
  function HandOffs(fx: seq<Effect>): nat
  {
    if |fx| == 0 then 0
    else HandOffs(fx[..|fx| - 1]) + (if fx[|fx| - 1].HandOff? then 1 else 0)
  }

  lemma {:induction false} HandOffsConcat(a: seq<Effect>, b: seq<Effect>)
    ensures HandOffs(a + b) == HandOffs(a) + HandOffs(b)
    decreases |b|
  {
    if |b| == 0 {
      assert a + b == a;
    } else {
      assert (a + b)[..|a + b| - 1] == a + b[..|b| - 1];
      HandOffsConcat(a, b[..|b| - 1]);
    }
  }

  /** No agent audio reaches the telephone leg. */
  predicate NoPlayback(fx: seq<Effect>)
  {
    forall i :: 0 <= i < |fx| ==> !(fx[i].ToFarEnd? && fx[i].frame.MediaOut?)
  }

  lemma NoPlaybackConcat(a: seq<Effect>, b: seq<Effect>)
    requires NoPlayback(a) && NoPlayback(b)
    ensures NoPlayback(a + b)
  {
    forall i | 0 <= i < |a + b| ensures !((a + b)[i].ToFarEnd? && (a + b)[i].frame.MediaOut?) {
      if i < |a| {
        assert (a + b)[i] == a[i];
      } else {
        assert (a + b)[i] == b[i - |a|];
      }
    }
  }
}
