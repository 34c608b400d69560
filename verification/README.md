# Outbound sales-call relay: a Dafny model

The repository is an outbound phone agent. A Node server places a call via
Twilio, and Twilio opens a media WebSocket to the server. The server relays
the caller's audio to the OpenAI realtime API and the agent's audio back,
building a transcript of the call. At the end of the call it hands the
transcript off. Two Netlify serverless functions validate a web form and pass
requests to that server.

This project models three parts of the repository:

- **One media connection** (`Relay`), written as a pure transition function
  `Step(bridge, world, input) -> Out(bridge', world', effects)`.
  - The handler's closure variables become the `Bridge` record: `callSid`, `streamSid`, the language, `callActive`, `aiSpeaking`, `userSpeaking`, the provider socket state `Link`, and whether the telephone socket is open.
  - The process-wide maps are the `World`: the socket registry, the status logs, the transcripts and the call metadata.
  - Every send, close, scheduled timer and status broadcast is an `Effect`, listed in the order the handler performs it.
  - Inputs cover:
    - the telephone leg's `start`, `media`, other and unreadable frames, and its `close` and `error`;
    - the provider socket's `open`, `close`, `error` and each provider event, dispatched by its type string (`ProviderEvents`);
    - the delayed `sendInitialSessionUpdate`.
- **The shared side** (`Registry`, `StatusLog`, `Transcript`, `Supervisor`):
  - `broadcastStatus` and its per-call log, bounded at 100 entries;
  - transcript assembly and its rendering into `User: …`/`Assistant: …` lines;
  - the `/call-status` webhook, whose terminal statuses tear the call down and hand the rendered transcript off;
  - `Supervisor.Deliver`, which routes each input to its connection.
- **The small pure helpers and the serverless functions**:
  - the date reading of `formatDateForSpeech` (`DateSpeech`);
  - the local allow-list rule of `isNumberAllowed` (`AllowList`);
  - the validation ladders of `request-call` and `make-call` (`RequestCall`, `MakeCall`, over a small `Json` value type).

Status messages are the `Notes.Note` datatype. `Notes.Text` gives the exact
text the server logs for each one.

Each handled input emits its status effects at once, but writes to the logs
only when the step is committed (`Relay.Commit`, via `Registry.Record`). The
writes happen in broadcast order. The result is the same as writing
immediately, because no handler reads the logs (`Registry.BroadcastIsRecorded`).

## Model

`index.js` below stands for
`outbound-calling-speech-assistant-openai-realtime-api-node/index.js`. Every
source cell gives the full path.

| member | source | states |
|---|---|---|
| StatusLog.Push | outbound-calling-speech-assistant-openai-realtime-api-node/index.js:828-833 | A push ends the log with the new message. A log within 100 entries stays within 100. Below capacity the push is a plain append; at capacity the oldest entry leaves. |
| StatusLog.OverflowDropsOldest | outbound-calling-speech-assistant-openai-realtime-api-node/index.js:831-832 | The 101st message evicts exactly the oldest entry and the log stays at 100. |
| StatusLog.RecentOfRecentPrefix | outbound-calling-speech-assistant-openai-realtime-api-node/index.js:828-833 | Evicting early never changes which messages are the last hundred. |
| StatusLog.PushIsRecent | outbound-calling-speech-assistant-openai-realtime-api-node/index.js:828-833 | One push onto a log within capacity leaves exactly the last hundred of the log plus the message. |
| StatusLog.PushAllKeepsRecent | outbound-calling-speech-assistant-openai-realtime-api-node/index.js:821-833 | Start from any log within capacity and push any number of messages: the log is then the last 100 of everything, oldest first. |
| StatusLog.FreshLogKeepsLastHundred | outbound-calling-speech-assistant-openai-realtime-api-node/index.js:822-833 | A new call's log after n broadcasts holds the last min(n, 100) messages in broadcast order. |
| Registry.Broadcast | outbound-calling-speech-assistant-openai-realtime-api-node/index.js:814-844 | Without a call identifier nothing changes and nothing is sent. With one, that call's log gets the message pushed on (it is created on first use). No other log, socket, transcript or metadata changes. The update carries registry membership. The shared-table invariant is kept. |
| Registry.Record | outbound-calling-speech-assistant-openai-realtime-api-node/index.js:821-833 | Writing a step's status messages to the logs keeps every log within 100 entries. |
| Registry.RecordConcat | outbound-calling-speech-assistant-openai-realtime-api-node/index.js:821-833 | Writing two runs of status messages one after the other equals writing them together: log writes compose in order. |
| Registry.RecordSilent | outbound-calling-speech-assistant-openai-realtime-api-node/index.js:821-828 | Effects with no status broadcast leave every log untouched: only `broadcastStatus` writes the logs. |
| Registry.RecordIsPushAll | outbound-calling-speech-assistant-openai-realtime-api-node/index.js:821-833 | After a step, each call's log is its old log with exactly the messages broadcast for that call pushed on, in broadcast order. Broadcasts for other calls never reach it. |
| Registry.RecordKeepsLastHundred | outbound-calling-speech-assistant-openai-realtime-api-node/index.js:822-833 | Starting from bounded logs, each call's log after a step is the last 100 of its earlier entries followed by the messages broadcast for it. |
| Registry.BroadcastIsRecorded | outbound-calling-speech-assistant-openai-realtime-api-node/index.js:814-833 | Deferring a broadcast's log write to the end of the step gives the same tables as `broadcastStatus` writing at once. |
| Registry.Announce | outbound-calling-speech-assistant-openai-realtime-api-node/index.js:839-844 | The status update names the call and the message, and reports whether the call's socket is registered. |
| Registry.EditTranscript | outbound-calling-speech-assistant-openai-realtime-api-node/index.js:542-546 | A transcript edit creates the call's transcript on first use and changes no other call's transcript, log, socket or metadata. |
| Transcript.AddCaller | outbound-calling-speech-assistant-openai-realtime-api-node/index.js:575-579 | A caller utterance is always one new `user` entry at the end, and every earlier entry stays. |
| Transcript.AddAgentDelta | outbound-calling-speech-assistant-openai-realtime-api-node/index.js:621-635 | A delta is concatenated onto a trailing assistant entry, in place. Otherwise it starts a new assistant entry. Only the tail changes, and the transcript then ends with the agent. |
| Transcript.SetAgentFinal | outbound-calling-speech-assistant-openai-realtime-api-node/index.js:654-668 | The final text replaces a trailing assistant entry's text, keeping the length. Otherwise it becomes a new entry. Either way the last entry is exactly the final text. |
| Transcript.DeltasGrowLastEntry | outbound-calling-speech-assistant-openai-realtime-api-node/index.js:627-630 | Deltas after an assistant entry all grow that one entry, in arrival order. |
| Transcript.DeltasMakeOneEntry | outbound-calling-speech-assistant-openai-realtime-api-node/index.js:625-635 | A run of deltas after a caller entry yields exactly one new assistant entry holding their concatenation. |
| Transcript.FinalReplacesDeltas | outbound-calling-speech-assistant-openai-realtime-api-node/index.js:625-669 | Streamed deltas followed by the final text leave exactly one agent entry at the end, holding exactly the final text, with every earlier entry kept. The one exception: when the transcript already ended with an agent entry, that entry is the one replaced. |
| Transcript.EarlierResponseLost | outbound-calling-speech-assistant-openai-realtime-api-node/index.js:627-630 | After "first answer" with no caller entry since, the deltas "Sec" and "ond" and the final "Second" leave only "Second": the earlier response is lost. |
| Transcript.HiThereExample | outbound-calling-speech-assistant-openai-realtime-api-node/index.js:660-663 | "Hi", " there", then the final "Hi there!" yield "Hi there!", not "Hi thereHi there!". |
| Transcript.Lines | outbound-calling-speech-assistant-openai-realtime-api-node/index.js:1042-1044 | There is exactly one line per non-separator entry, in transcript order. Each line is the entry's label ("User" or "Assistant"), ": ", and its text, so it starts with "User: " or "Assistant: ". Separators produce no line. |
| Transcript.LinesOfOne | outbound-calling-speech-assistant-openai-realtime-api-node/index.js:1042-1044 | One entry renders to its own labelled line, or to no line when it is a separator. Together with `LinesOfConcat`, this fixes the rendering of every transcript. |
| Transcript.LinesAreSingleLine | outbound-calling-speech-assistant-openai-realtime-api-node/index.js:1042-1044 | Entries without line breaks render to lines without line breaks. |
| Transcript.RenderSplitsIntoLines | outbound-calling-speech-assistant-openai-realtime-api-node/index.js:1042-1045 | Splitting the handed-off text on newlines recovers the rendered lines exactly, as long as no entry contains a line break. |
| Transcript.LinesOfConcat | outbound-calling-speech-assistant-openai-realtime-api-node/index.js:1042-1045 | Rendering works entry by entry: lines never move across entries and are never reordered. |
| DateSpeech.IsoOrder | outbound-calling-speech-assistant-openai-realtime-api-node/index.js:87-92 | `YYYY-MM-DD` with a four-character year yields year, month and day as written. |
| DateSpeech.UsOrder | outbound-calling-speech-assistant-openai-realtime-api-node/index.js:87-95 | `MM/DD/YYYY` with a month of other than four characters is reordered to year, month, day. |
| DateSpeech.OrdinalIsEnglish | outbound-calling-speech-assistant-openai-realtime-api-node/index.js:102-105 | For every day below 100, the code's suffix rule equals the English ordinal rule: "th" for 11-13, otherwise by the last digit. |
| DateSpeech.ForSpeech | outbound-calling-speech-assistant-openai-realtime-api-node/index.js:84-107 | An empty text or a date `Date` rejects comes back unchanged. Otherwise the result is the month name, a space, the day and its English suffix. |
| AllowList.Check | outbound-calling-speech-assistant-openai-realtime-api-node/index.js:181-228 | A number is allowed exactly when it ends up on the list. The list either stays as it was or gains exactly that number. |
| AllowList.CheckMatchesRule | outbound-calling-speech-assistant-openai-realtime-api-node/index.js:199-225 | The decision equals a reference rule. A number is allowed when it is listed, or passes the local rule, or the incoming lookup finds it, or (only after "not found" there) the caller-ID lookup finds it. |
| AllowList.LocalRuleSuffices | outbound-calling-speech-assistant-openai-realtime-api-node/index.js:205-211 | A `+` number of at least 8 characters is added and allowed whatever the provider lookups would say. |
| AllowList.AllowedStaysAllowed | outbound-calling-speech-assistant-openai-realtime-api-node/index.js:198-211 | Once allowed, a number stays allowed on every later check and the list does not change again. |
| AllowList.CheckAsWritten | outbound-calling-speech-assistant-openai-realtime-api-node/index.js:199-202 | The decision as the code reads the list: like `Check`, except that an inherited object property name is allowed without being listed. |
| AllowList.InheritedNameAllowed | outbound-calling-speech-assistant-openai-realtime-api-node/index.js:199-202 | "constructor" is allowed as written, though it is unlisted, fails the local rule and both lookups miss it. The intended check denies it. |
| Relay.Say | outbound-calling-speech-assistant-openai-realtime-api-node/index.js:814-818 | A status broadcast without a call identifier does nothing. With one, it adds exactly one status effect, and it never sends to either socket or opens anything. |
| Relay.AddCallerText | outbound-calling-speech-assistant-openai-realtime-api-node/index.js:575-579 | Only this call's transcript changes, by one pushed caller entry. The bridge, the effects, the logs, the registry and the metadata stay. |
| Relay.AddAgentText | outbound-calling-speech-assistant-openai-realtime-api-node/index.js:621-635 | Only this call's transcript changes, by the delta rule. |
| Relay.SetAgentText | outbound-calling-speech-assistant-openai-realtime-api-node/index.js:654-668 | Only this call's transcript changes, by the final-text rule. |
| Relay.SetupProvider | outbound-calling-speech-assistant-openai-realtime-api-node/index.js:424-438 | With no provider socket yet, exactly one is opened and it is connecting. An open one is reused with the session update scheduled again. Any other existing one is reused without effect. |
| Relay.OnMedia | outbound-calling-speech-assistant-openai-realtime-api-node/index.js:378-384 | Caller audio reaches the provider unchanged, as one append. It goes only for a call that has an identifier, is active, and whose provider socket is open. Nothing else changes. |
| Relay.Echo | outbound-calling-speech-assistant-openai-realtime-api-node/index.js:474-476 | Echoing a provider event to the log changes no state and sends nothing to either socket. |
| Relay.OnProviderMessage | outbound-calling-speech-assistant-openai-realtime-api-node/index.js:451-688 | No provider event changes the call's identity, language, activity or socket states, the registry, the metadata or the logs, or opens a connection. Every transcript changes at most at its tail. Every event except `speech_stopped` keeps the caller marked as speaking and sends no agent audio. |
| Relay.DispatchKeeps | outbound-calling-speech-assistant-openai-realtime-api-node/index.js:479-683 | The same frame, case by case over the `switch (response.type)`. |
| Relay.SessionUpdatedKeeps | outbound-calling-speech-assistant-openai-realtime-api-node/index.js:480-494 | `session.updated` keeps the frame and plays no audio. |
| Relay.SpeechStartedKeeps | outbound-calling-speech-assistant-openai-realtime-api-node/index.js:496-522 | Barge-in keeps the frame and leaves the caller marked as speaking. |
| Relay.SpeechStoppedKeeps | outbound-calling-speech-assistant-openai-realtime-api-node/index.js:524-528 | End of caller speech keeps the frame. |
| Relay.ItemCreatedKeeps | outbound-calling-speech-assistant-openai-realtime-api-node/index.js:530-556 | A created item keeps the frame and plays no audio. |
| Relay.InputTranscribedKeeps | outbound-calling-speech-assistant-openai-realtime-api-node/index.js:571-582 | A completed input transcription keeps the frame and plays no audio. |
| Relay.AudioDeltaKeeps | outbound-calling-speech-assistant-openai-realtime-api-node/index.js:584-606 | An audio delta keeps the frame and plays nothing while the caller speaks. |
| Relay.TranscriptDeltaKeeps | outbound-calling-speech-assistant-openai-realtime-api-node/index.js:616-637 | A transcript delta keeps the frame and plays no audio. |
| Relay.ResponseDoneKeeps | outbound-calling-speech-assistant-openai-realtime-api-node/index.js:644-671 | `response.done` keeps the frame and plays no audio. |
| Relay.ResponseCancelledKeeps | outbound-calling-speech-assistant-openai-realtime-api-node/index.js:673-678 | `response.cancelled` keeps the frame and plays no audio. |
| Relay.Commit | outbound-calling-speech-assistant-openai-realtime-api-node/index.js:821-833 | Writing a step's log entries changes nothing but the logs, and keeps them bounded. |
| RelayEvents.BargeIn | outbound-calling-speech-assistant-openai-realtime-api-node/index.js:496-522 | `speech_started` sets caller-speaking and clears agent-speaking. It then sends, in this order: `response.cancel`, `input_audio_buffer.clear`, and (only while the telephone socket is open) `{event: clear, streamSid}`. Nothing else goes out, and the registry and transcripts stay. |
| RelayEvents.SpeechStartedDispatch | outbound-calling-speech-assistant-openai-realtime-api-node/index.js:496-522 | The barge-in appends exactly those commands, in that order, after whatever was already sent. |
| RelayEvents.SpeechStoppedOnlyClearsFlag | outbound-calling-speech-assistant-openai-realtime-api-node/index.js:524-528 | `speech_stopped` clears only the caller-speaking flag and sends no command. |
| RelayEvents.AudioDeltaRule | outbound-calling-speech-assistant-openai-realtime-api-node/index.js:584-606 | A non-empty delta goes to the telephone leg as a media frame with that exact payload and the stream identifier. It goes only while the caller is silent and the socket is open. While the caller speaks it is dropped, not queued. Forwarding marks the agent speaking. |
| RelayEvents.ResponseRequested | outbound-calling-speech-assistant-openai-realtime-api-node/index.js:558-567 | `input_audio_buffer.committed`, and also `session.updated` (index.js 480-494), each send exactly one `response.create` for text and audio. Neither changes the bridge or the transcripts. |
| RelayEvents.ResponseCancelledSilencesAgent | outbound-calling-speech-assistant-openai-realtime-api-node/index.js:673-678 | `response.cancelled` clears only agent-speaking and sends nothing. |
| RelayEvents.ResponseDoneSilencesAgent | outbound-calling-speech-assistant-openai-realtime-api-node/index.js:644-671 | `response.done` clears only agent-speaking and sends nothing. |
| RelayEvents.ResponseDoneSetsFinal | outbound-calling-speech-assistant-openai-realtime-api-node/index.js:648-669 | A non-blank transcript on the first assistant item is written as this call's final agent text. Otherwise no transcript changes. |
| RelayEvents.TranscriptDeltaAppends | outbound-calling-speech-assistant-openai-realtime-api-node/index.js:616-637 | A non-blank agent delta grows or starts this call's agent entry. A blank or missing one leaves every transcript as it was. Nothing is sent. |
| RelayEvents.CallerTextPushedIffSpoken | outbound-calling-speech-assistant-openai-realtime-api-node/index.js:571-582 | The transcript grows by one caller entry holding the text exactly when the transcription is not blank. Otherwise nothing changes. |
| RelayEvents.CallerItemPushedIffSpoken | outbound-calling-speech-assistant-openai-realtime-api-node/index.js:530-556 | Only a `user` item whose joined text parts are not blank adds a caller entry, exactly once. Any other item leaves the transcripts as they were. |
| RelayEvents.StepEditsTranscriptTail | outbound-calling-speech-assistant-openai-realtime-api-node/index.js:530-669 | No input rewrites history. Each call's transcript stays, gains one entry at the end, or has only its last entry replaced. |
| RelayEvents.StartSilent | outbound-calling-speech-assistant-openai-realtime-api-node/index.js:359-377 | A `start` plays no agent audio and does not change the caller-speaking flag. |
| RelayEvents.FarEndGoneSilent | outbound-calling-speech-assistant-openai-realtime-api-node/index.js:396-419 | A telephone close or error plays no agent audio and does not change the caller-speaking flag. |
| RelayEvents.SessionUpdateSilent | outbound-calling-speech-assistant-openai-realtime-api-node/index.js:310-343 | Sending the session update plays no agent audio and changes no flag. |
| RelayEvents.StepSilentWhileCallerSpeaks | outbound-calling-speech-assistant-openai-realtime-api-node/index.js:584-606 | While the caller speaks, every input except `speech_stopped` plays no agent audio and keeps the caller marked as speaking. |
| RelayEvents.NoPlaybackWhileCallerSpeaks | outbound-calling-speech-assistant-openai-realtime-api-node/index.js:587-605 | After barge-in, no agent audio frame reaches the telephone leg until the provider reports the end of speech, whatever arrives on either socket. |
| RelayProps.LoggedIsListed | outbound-calling-speech-assistant-openai-realtime-api-node/index.js:39-58 | An event is echoed to the log exactly when its type string is in `LOG_EVENT_TYPES`. |
| RelayProps.HandlePreservesInv | outbound-calling-speech-assistant-openai-realtime-api-node/index.js:355-419 | No handler breaks the shared-table invariant: logs within 100 entries, no empty transcript. |
| RelayProps.StepPreservesInv | outbound-calling-speech-assistant-openai-realtime-api-node/index.js:828-833 | Every step, log writes included, keeps every log within 100 entries and leaves no empty transcript. |
| RelayProps.OnStartOpens | outbound-calling-speech-assistant-openai-realtime-api-node/index.js:359-377 | A `start` opens a provider connection exactly when none exists and the frame carries a call identifier. It never forgets an existing one. |
| RelayProps.OnFarEndGoneOpens | outbound-calling-speech-assistant-openai-realtime-api-node/index.js:396-419 | A telephone close or error opens nothing and keeps an existing provider socket known. |
| RelayProps.OnSessionUpdateDueOpens | outbound-calling-speech-assistant-openai-realtime-api-node/index.js:310-343 | The delayed session update opens nothing and changes no flag. |
| RelayProps.StepOpensAtMostOnce | outbound-calling-speech-assistant-openai-realtime-api-node/index.js:424-438 | A step opens at most one provider connection, only when none was ever created, and once one exists it is never forgotten. |
| RelayProps.AtMostOneProviderConnection | outbound-calling-speech-assistant-openai-realtime-api-node/index.js:424-438 | However many `start` frames are replayed, a media connection opens at most one provider connection. |
| RelayProps.StartWithoutCallSid | outbound-calling-speech-assistant-openai-realtime-api-node/index.js:359-369 | A `start` with no call identifier closes the telephone socket with 1011 "No CallSid provided". It touches no shared table and opens nothing. |
| RelayProps.StartWithCallSid | outbound-calling-speech-assistant-openai-realtime-api-node/index.js:359-377 | A `start` with an identifier records the stream, identifier and language (default "en-US"), registers this socket and activates the call. It then opens a provider connection when there is none; an existing open one has the session update scheduled again. |
| RelayProps.FarEndGoneTearsDown | outbound-calling-speech-assistant-openai-realtime-api-node/index.js:396-419 | The provider socket is closed unless already closed. With a call identifier, the call is deregistered and deactivated and its log gets the message. Without one, neither the registry nor the logs change. Transcripts and metadata always stay. |
| RelayProps.FarEndCloseTearsDown | outbound-calling-speech-assistant-openai-realtime-api-node/index.js:396-406 | The same, for the telephone `close` through the transition function. |
| RelayProps.FarEndCloseLogs | outbound-calling-speech-assistant-openai-realtime-api-node/index.js:401-405 | A telephone close of an identified call appends "Twilio socket closed" to that call's log. |
| RelayProps.FarEndCloseBeforeStart | outbound-calling-speech-assistant-openai-realtime-api-node/index.js:396-406 | A telephone close before any `start` changes no shared table and opens nothing. |
| RelayProps.SessionUpdateGate | outbound-calling-speech-assistant-openai-realtime-api-node/index.js:310-343 | The session configuration goes out exactly when all of these hold: the provider socket is open, and the call has an identifier, is active, and has a stream identifier. It carries the call's language and stored metadata. Otherwise nothing is sent and nothing is retried. |
| RelayProps.ProviderOpenSchedulesUpdate | outbound-calling-speech-assistant-openai-realtime-api-node/index.js:441-449 | Provider `open` marks the socket open and schedules the session update only for a live call. |
| RelayProps.ProviderCloseDeactivates | outbound-calling-speech-assistant-openai-realtime-api-node/index.js:690-697 | Provider `close` deactivates and deregisters the call and sends nothing. |
| RelayProps.ProviderErrorKeepsCall | outbound-calling-speech-assistant-openai-realtime-api-node/index.js:699-702 | A provider `error` only reports. The call stays active and registered. |
| RelayProps.MessagesIgnoredUnlessLive | outbound-calling-speech-assistant-openai-realtime-api-node/index.js:451-453 | Every provider message, readable or not, is ignored without effect unless the call has an identifier and is active. |
| Supervisor.Connect | outbound-calling-speech-assistant-openai-realtime-api-node/index.js:297-307 | A new media connection gets a fresh bridge under an unused number and the shared tables stay well formed. |
| Supervisor.CallStatus | outbound-calling-speech-assistant-openai-realtime-api-node/index.js:989-1000 | A missing call identifier gets 400 "Missing CallSid" and a missing status gets 400 "Missing CallStatus", both without effect. Otherwise the reply is 204. |
| SupervisorProps.NonTerminalOnlyLogs | outbound-calling-speech-assistant-openai-realtime-api-node/index.js:1009-1012 | A non-terminal status only appends "Call status: …" to the call's log and announces it. |
| SupervisorProps.TerminalForgetsCall | outbound-calling-speech-assistant-openai-realtime-api-node/index.js:1012-1084 | `completed`, `failed`, `busy` and `no-answer` remove the call from the registry, the logs, the transcripts and the metadata, and nothing else from any of them. |
| SupervisorProps.TerminalClosesOpenSocket | outbound-calling-speech-assistant-openai-realtime-api-node/index.js:1015-1028 | The media socket is closed with 1000 "Call ended" exactly when it is registered and still open. Every other connection is untouched. |
| SupervisorProps.TerminalHandsOffTranscript | outbound-calling-speech-assistant-openai-realtime-api-node/index.js:1037-1076 | The transcript is handed off exactly once when the call has one, as its rendering, and never when it has none. |
| SupervisorProps.TeardownForgotten | outbound-calling-speech-assistant-openai-realtime-api-node/index.js:1015-1084 | Tearing down a call that is already gone closes nothing, hands nothing off, and only drops its log. |
| SupervisorProps.TeardownIdempotent | outbound-calling-speech-assistant-openai-realtime-api-node/index.js:1012-1087 | A second terminal status leaves the system as the first did. It closes nothing and hands nothing off; it only announces itself. |
| SupervisorProps.OneCallbackHandOffs | outbound-calling-speech-assistant-openai-realtime-api-node/index.js:1037-1073 | One callback hands off at most the one transcript the call has. A transcript that survives was not handed off. |
| SupervisorProps.TranscriptHandedOffAtMostOnce | outbound-calling-speech-assistant-openai-realtime-api-node/index.js:1037-1073 | Over any sequence of status callbacks alone for a call, its transcript is handed off at most once, and never if it had none. With other inputs in between, see `SupervisorProps.LateDeltaRecreatesTranscript`. |
| SupervisorProps.CallStatusPreservesValid | outbound-calling-speech-assistant-openai-realtime-api-node/index.js:1009-1087 | The webhook keeps the shared tables well formed. |
| SupervisorProps.DeliverPreservesValid | outbound-calling-speech-assistant-openai-realtime-api-node/index.js:283-288 | Delivering any input to any connection keeps the shared tables well formed and each bridge's own number. |
| SupervisorProps.LogReturnsAfterTeardown | outbound-calling-speech-assistant-openai-realtime-api-node/index.js:401-405 | After teardown, the closed socket's own `close` writes the dropped log back, with exactly "Twilio socket closed". |
| SupervisorProps.LateDeltaRecreatesTranscript | outbound-calling-speech-assistant-openai-realtime-api-node/index.js:621-635 | A terminal status leaves the media connection live. An agent transcript delta that arrives before the socket reports its close creates a fresh transcript holding just that text. A second terminal status then hands that transcript off again. |
| RequestCall.Handle | netlify-deploy/api/request-call.js:4-82 | A 200 reply always has `success` and a call identifier starting with "CA". Every other reply has no `success` and no identifier. |
| RequestCall.MethodCheckedFirst | netlify-deploy/api/request-call.js:4-9 | A method other than POST gets 405 before the body is read. |
| RequestCall.UnparseableBodyRefused | netlify-deploy/api/request-call.js:11-20 | A body that does not parse gets 400 "Invalid request body". |
| RequestCall.PresenceBeforeFormat | netlify-deploy/api/request-call.js:23-30 | A missing or empty number gets 400 "Phone number is required", before any format check. |
| RequestCall.AcceptedIff | netlify-deploy/api/request-call.js:23-82 | Accepted exactly when a POST's body holds a string number with a `+` and at least 8 characters. The reply then carries "CA" plus the random digits. |
| RequestCall.AcceptedNumbersAreAllowed | netlify-deploy/api/request-call.js:33-41 | Every accepted number also passes the server's allow-list, whatever the list holds and the lookups say. |
| RequestCall.FormatCheckIsLoose | netlify-deploy/api/request-call.js:32-41 | The check labelled E.164 accepts "+abcdefg". |
| MakeCall.Handle | netlify-deploy/api/make-call.js:4-128 | Every reply the function returns (as opposed to a thrown error) carries the same three cross-origin headers. |
| MakeCall.Answer | netlify-deploy/api/make-call.js:95-127 | The reply to a forwarded request carries the cross-origin headers whatever the call server answered. |
| MakeCall.MethodCheckedFirst | netlify-deploy/api/make-call.js:6-16 | A method other than POST gets 405 whatever the body, and nothing is forwarded. |
| MakeCall.UnparseableBodyRefused | netlify-deploy/api/make-call.js:18-32 | A body that does not parse gets 400, and nothing is forwarded. |
| MakeCall.PhoneCheckedBeforeEmail | netlify-deploy/api/make-call.js:44-54 | A missing number gets 400 "Phone number is required", even when the email is missing too. |
| MakeCall.EmailRequiredIff | netlify-deploy/api/make-call.js:56-67 | The email refusal happens exactly when a number is given, `sendToEmail` is truthy and the email is not. |
| MakeCall.ForwardedIffValid | netlify-deploy/api/make-call.js:44-93 | The call server is contacted exactly for valid requests, and then with the built payload. |
| MakeCall.PayloadDefaults | netlify-deploy/api/make-call.js:70-81 | With only a number given, the payload carries language "en-US", email null, `sendToEmail` false, `knowDates` "no", travel details null and source "netlify-frontend". |
| MakeCall.PayloadPassesThrough | netlify-deploy/api/make-call.js:70-81 | Truthy form fields reach the payload unchanged. |
| MakeCall.BackendMapping | netlify-deploy/api/make-call.js:95-127 | An ok answer is returned with 200 and the server's JSON unchanged. Anything else gives 500 with `success: false`. |
| MakeCall.SuccessOnlyWhenForwardedOk | netlify-deploy/api/make-call.js:95-112 | A 200 comes only from a valid request that the server answered ok. |

## Behaviour worth knowing

Each item below is what the code does, and the model does the same.

- A provider `session.updated` always requests a response at once (index.js 480-494). It does not wait for the caller to speak first, whatever the agent's role.
- `response.audio_transcript.done` does nothing (index.js 639-642). The overwrite with the final text happens on `response.done` (index.js 644-669).
- `speech_stopped` alone resumes audio forwarding (index.js 524-528, 587). Forwarding does not wait for a new response to start.
- A provider `error` only reports (index.js 699-702). Only provider `close` deactivates the call (index.js 690-697).
- A session update whose prerequisites are missing is not retried (index.js 310-318); the handler just returns.
- `response.audio_transcript.delta` reads `delta.transcript` (index.js 618). The event's transcript field is modelled as that value.
- A terminal status callback drops the call's log, but the media socket it closes still runs its own `close` handler. That handler writes "Twilio socket closed" into a fresh log for the finished call (`SupervisorProps.LogReturnsAfterTeardown`).
- The same window admits late provider events. A terminal callback neither deactivates the call nor closes the provider socket (index.js 1012-1087). An agent transcript delta that arrives before the telephone socket's close therefore creates a new transcript for the finished call (index.js 621-623). The telephone close never removes transcripts, so that one stays in memory, or a repeated terminal callback hands it off a second time (`SupervisorProps.LateDeltaRecreatesTranscript`). One would expect late events to be ignored and each transcript to be handed off exactly once; that holds only over status callbacks alone (`SupervisorProps.TranscriptHandedOffAtMostOnce`).
- Agent turns do not always stay separate utterances. The code merges agent text into the last entry whenever that entry is the agent's (index.js 627-630, 660-663). If the caller's text has not been recorded since the previous response (its transcription is late or blank), the new response's deltas grow the previous response. Its final text then overwrites it, so the previous response is lost (`Transcript.FinalReplacesDeltas`, `Transcript.EarlierResponseLost`).
- The number check of `request-call` is labelled E.164 but only asks for a `+` and 8 characters (request-call.js 33). Recommendation ITU-T E.164 caps numbers at 15 digits.
- In both serverless functions, a body that parses to `null` throws a `TypeError` outside every `try` (request-call.js 23, make-call.js 35-42), and so does a non-string number in `request-call` (`Outcome.Threw`).
- The 500 branch of `request-call` (request-call.js 84-94) cannot be reached, because the success path is a mock that cannot throw.
- `length` counts UTF-16 code units (`Common.JsLength`).

## Left out

- The fan-out of status updates to monitor sockets, with dead-client pruning (index.js 846-869), and the `/status-monitor` route with its pings (index.js 714-811). A broadcast is modelled as the log write plus one `Status` effect.
- Log timestamps, `Math.random` identifiers, and the `Date` parsing and month naming inside `formatDateForSpeech`. These are inputs (`DateSpeech.ForSpeech` takes what `Date` made of the text).
- `JSON.parse` of frames, provider messages and request bodies. Its outcome is an input (`Json.Parse`, `BadFrame`, `BadProviderMessage`).
- A provider event that parses but then throws inside the dispatch is not modelled: provider events are taken to be well-typed. Examples are a `user` item whose `content` is not an array (index.js 535-536), a `null` element in `response.output` (650), and a non-string `transcript` (573) or `delta.transcript` (619). In the code such an event is echoed first (474-476). The catch then reports "Error handling OpenAI message" (684-687), and for `response.done` agent-speaking has already been cleared (646). `BadProviderMessage` covers only text that does not parse, which gets the error report without the echo.
- `fetch` calls: to the transcript sink (the `HandOff` effect, whose answer is ignored, as in the code) and to the call server (`MakeCall.Backend` is its answer).
- The Twilio number lookups of `isNumberAllowed`. Their answers are inputs (`AllowList.Lookup`).
- The 100 ms `setTimeout` before the session update. It becomes the `ScheduleSessionUpdate` effect and a later `SessionUpdateDue` input, with no notion of time.
- Socket `readyState` beyond open/closed for the telephone socket, and the guard against a missing socket object (index.js 347-352).
- A throwing `new WebSocket(...)` constructor (index.js 704-707): creating the provider socket is assumed to succeed.
- `buildSystemMessage`'s prose and the floating-point session settings. `Wire.ConfigFor` records only the language and the stored metadata the configuration is built from.
- The other routes (`/`, `/call`, `/twiml`, `/status/:callSid`, `/make-call`, `/test`), `makeCall` and `generateTwiML`. They are plumbing around Twilio outside the relay.
- test-agent.js, voice-comparison.js and simple-test.js. They are interactive command-line tools around remote calls.
- Console and file logging.
- JSON numbers are kept to integers, since only their truthiness is read.
- SupervisorProps.TerminalHandsOffTranscript: the `await fetch` inside the cleanup is treated as atomic. In the code, other events can run between the hand-off and the removal of the transcript (index.js 1052-1072).
- Supervisor.CallStatus: the 500 reply of the webhook's `catch` (index.js 1091-1095) is not modelled. With the fetch failure caught inside, no modelled step can throw there.

## Findings

| source | as written | input that shows it | evidently intended | confidence | as-written member | corrected member |
|---|---|---|---|---|---|---|
| outbound-calling-speech-assistant-openai-realtime-api-node/index.js:199-202 | `global.allowedNumbers[to]` reads a plain object, so a name every object inherits counts as already listed | `to = "constructor"` (unlisted, no `+`, unknown to both lookups) is allowed | only numbers on the list, passing the local rule or found by a lookup are allowed | not executed | AllowList.CheckAsWritten | AllowList.Check |
