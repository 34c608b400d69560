/**
 The events the inference provider sends over its socket, by their `type`
 string, with the fields the relay reads, and the list of types the relay
 echoes to a call's status log.
 */
module ProviderEvents {
  import opened Common

  /** An element of `item.content` of a conversation item. */
  datatype ContentPart = ContentPart(kind: string, text: Option<string>, inputText: Option<string>)

  datatype Item = Item(role: string, content: Option<seq<ContentPart>>)

  /** An element of `response.output`; `transcripts` lists the `transcript` field of each content part. */
  datatype OutputItem = OutputItem(role: string, transcripts: seq<Option<string>>)

  /** The echoed event types the dispatch has no case for. */
  datatype Listed =
    | Error
    | ContentDone
    | RateLimitsUpdated
    | SessionCreated
    | TranscriptionFailed
    | ContentPartAdded
    | ContentPartDone

  function ListedName(l: Listed): string
  {
    match l
    case Error => "error"
    case ContentDone => "response.content.done"
    case RateLimitsUpdated => "rate_limits.updated"
    case SessionCreated => "session.created"
    case TranscriptionFailed => "conversation.item.input_audio_transcription.failed"
    case ContentPartAdded => "response.content_part.added"
    case ContentPartDone => "response.content_part.done"
  }

  /**
   Provider events, by their `type` string. `ListedOnly` is an echoed type
   without a case of its own; `Unlisted` stands for every other type string,
   and never for one named by another constructor (see `WellKinded`).
   `TranscriptDelta.part` is the value of the event's `delta.transcript` field.
   */
  datatype ProviderEvent =
    | SessionUpdated
    | SpeechStarted
    | SpeechStopped
    | Committed
    | ItemCreated(item: Option<Item>)
    | InputTranscribed(transcript: Option<string>)
    | AudioDelta(delta: Option<string>)
    | OutputItemAdded
    | TranscriptDelta(part: Option<string>)
    | TranscriptDone
    | ResponseDone(output: seq<OutputItem>)
    | ResponseCancelled
    | ListedOnly(listed: Listed)
    | Unlisted(kind: string)

  function Kind(ev: ProviderEvent): string
  {
    match ev
    case SessionUpdated => "session.updated"
    case SpeechStarted => "input_audio_buffer.speech_started"
    case SpeechStopped => "input_audio_buffer.speech_stopped"
    case Committed => "input_audio_buffer.committed"
    case ItemCreated(_) => "conversation.item.created"
    case InputTranscribed(_) => "conversation.item.input_audio_transcription.completed"
    case AudioDelta(_) => "response.audio.delta"
    case OutputItemAdded => "response.output_item.added"
    case TranscriptDelta(_) => "response.audio_transcript.delta"
    case TranscriptDone => "response.audio_transcript.done"
    case ResponseDone(_) => "response.done"
    case ResponseCancelled => "response.cancelled"
    case ListedOnly(l) => ListedName(l)
    case Unlisted(k) => k
  }

  /** Event types that are echoed to the status log before being handled. */
  const LogEventTypes: seq<string> := [
    "error", "response.content.done", "rate_limits.updated", "response.done",
    "input_audio_buffer.committed", "input_audio_buffer.speech_stopped",
    "input_audio_buffer.speech_started", "session.created", "response.audio.delta",
    "conversation.item.created", "conversation.item.input_audio_transcription.completed",
    "conversation.item.input_audio_transcription.failed", "response.audio_transcript.delta",
    "response.audio_transcript.done", "response.output_item.added",
    "response.content_part.added", "response.content_part.done", "response.cancelled"]

  /** The types the dispatch has a constructor for. */
  const NamedKinds: set<string> := {
    "session.updated", "input_audio_buffer.speech_started", "input_audio_buffer.speech_stopped",
    "input_audio_buffer.committed", "conversation.item.created",
    "conversation.item.input_audio_transcription.completed", "response.audio.delta",
    "response.output_item.added", "response.audio_transcript.delta", "response.audio_transcript.done",
    "response.done", "response.cancelled"}

  /** `Unlisted` carries only a type that no other constructor names and that is not echoed. */
  predicate WellKinded(ev: ProviderEvent)
  {
    ev.Unlisted? ==> ev.kind !in NamedKinds && ev.kind !in LogEventTypes
  }

  /** Whether an event is echoed to the status log: every listed type, i.e. every named one but `session.updated`. */
  predicate Logged(ev: ProviderEvent)
  {
    !ev.SessionUpdated? && !ev.Unlisted?
  }
}
