/**
 The status messages the relay and the status webhook write to a call's log
 and broadcast. Each kind of message is a constructor; `Text` gives the exact
 wording.
 */
module Notes {
  import opened ProviderEvents

  datatype Note =
    | CallConnected
    | FrameReceived(event: string)
    | FrameUnreadable(error: string)
    | FarEndGone
    | FarEndFailed(error: string)
    | SendingSessionUpdate
    | EventEcho(ev: ProviderEvent)
    | SessionReady
    | ResponseRequested
    | UserInterrupted
    | UserFinished
    | AgentFinished
    | AgentCancelled
    | ProviderMessageUnreadable(error: string)
    | ProviderGone
    | ProviderFailed(error: string)
    | CallStatusChanged(status: string)

  /** The message text of a note. */
  function Text(n: Note): string
  {
    match n
    case CallConnected => "Call connected, media stream started"
    case FrameReceived(event) => "Received event: " + event
    case FrameUnreadable(error) => "Error parsing Twilio message: " + error
    case FarEndGone => "Twilio socket closed"
    case FarEndFailed(error) => "Twilio WebSocket error: " + error
    case SendingSessionUpdate => "Sending session update to OpenAI"
    case EventEcho(ev) => "OpenAI event: " + Kind(ev)
    case SessionReady => "Session updated - ready for conversation"
    case ResponseRequested => "Requested initial response"
    case UserInterrupted => "User interrupted - AI response cancelled"
    case UserFinished => "User finished speaking"
    case AgentFinished => "AI finished speaking"
    case AgentCancelled => "AI response cancelled due to interruption"
    case ProviderMessageUnreadable(error) => "Error handling OpenAI message: " + error
    case ProviderGone => "OpenAI WebSocket closed"
    case ProviderFailed(error) => "OpenAI WebSocket error: " + error
    case CallStatusChanged(status) => "Call status: " + status
  }
}
