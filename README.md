# Chat conversation and recording state machine

This project models the `Chat` component of a web chat client (telepatia_ai_frontend_api). The client lets a
user send text or a voice recording to a language-processing backend. The model covers the
component's state (`messages`, `inputText`, `isLoading`, `isRecording`, `mediaRecorder`,
`audioBlob`) and its handlers:

- the text send path: a guard, then the user's message, validation, generation and the bot's message;
- the recording lifecycle: start, data events, stop, and the recorder's stop handler;
- the voice path: a voice message, audio validation, a transcription message, generation and a bot message;
- the effect that hands a finished recording to the voice path.

Files:

- `jstext.dfy` (module `JsText`): `String.prototype.trim` over the whitespace and line-terminator
  code points of ECMAScript, and the facts the send guard relies on.
- `recording.dfy` (module `Recording`): chunk and blob sizes, the `Recorder` class (the
  MediaRecorder together with the `chunks` array its handlers close over), and lemmas about the
  chunks kept from a stream of data events.
- `backend.dfy` (module `Backend`): the three endpoints as a `Server` value. Each endpoint is a
  total function from request body to `Reply`. A `Reply` is `Ok(body)` or `Threw`. A validation
  body is `Accepted(data)` (`success` truthy) or `Rejected(message)`. It also defines the `Request`
  log entries.
- `conversation.dfy` (module `Conversation`): the message datatypes, plus `TextTurn` and
  `VoiceTurn`. These are pure specifications of what one run of each path appends and which
  requests it issues, for every backend outcome.
- `chat.dfy` (module `ChatComponent`): the `Chat` class, with one method per handler. The
  postconditions of `HandleSendText`, `HandleKeyPress`, `ProcessRecordedAudio` and `RunAudioEffect`
  tie them to `TextTurn`/`VoiceTurn`. The recording handlers (`HandleStartRecording`,
  `HandleStopRecording`, `OnRecorderStop`) and `SetInputText` state their new state directly.
  Every handler also says what it leaves unchanged. `VoiceSession` drives a whole recording from a
  fresh component.

Each handler runs as one atomic step, from the guard to the end of its `finally` block. Every
handler returns the requests it issued, in order. This is how the model shows that no generation
request follows a rejected validation, and that generation receives `validate_text` on the text
path and `simplified_text` on the voice path. Every transcript update has the form
`messages == old(messages) + appended`, so the transcript is append-only.

The code has no timeouts and no response normaliser. A rejected validation or a failed call only
calls `alert`; no transcript entry records it (components/chat/Chat.js:112, 116, 243, 247). An
empty recording is dropped silently (components/chat/Chat.js:184-187).

On the voice path, if generation throws after a successful audio validation, the transcription
message has already been appended (components/chat/Chat.js:222) and it stays. So in that case
the transcript holds `voz` and `transcripcion`, not only `voz`.

## Model

| member | source | states |
|---|---|---|
| JsText.Lead | components/chat/Chat.js:69-71 | the leading whitespace trim removes: every character before the count is whitespace and the one at it, if any, is not |
| JsText.Trail | components/chat/Chat.js:69-71 | the trailing whitespace trim removes: every character in the last `n` is whitespace and the one before them, if any, is not |
| JsText.Trim | components/chat/Chat.js:69-71 | `inputText.trim()` is empty exactly when the input is all whitespace; otherwise it neither starts nor ends with whitespace, it is the slice after the leading whitespace, and every character outside it is whitespace |
| JsText.TrimIdempotent | components/chat/Chat.js:71 | the trimmed user text is unchanged by a second trim |
| JsText.TrimPadded | components/chat/Chat.js:69-71 | any whitespace typed around a text without whitespace margins is removed by trim, leaving exactly that text |
| ChatComponent.AcceptsSend | components/chat/Chat.js:69 | a send goes ahead exactly when the input is not all whitespace and no request is in flight; the accepted text then starts with a non-blank |
| Recording.Kept | components/chat/Chat.js:139-145 | the chunks kept from a recording's data events are no more than the events, and each has non-zero size |
| Recording.KeptConcat | components/chat/Chat.js:141-145 | keeping distributes over a split of the event stream, so kept chunks stay in arrival order |
| Recording.SumKept | components/chat/Chat.js:141-149 | dropping zero-size events does not change the total size of what was recorded |
| Recording.KeptEmpty | components/chat/Chat.js:141-145 | no chunk is kept exactly when every data event has size zero |
| Recording.BlobOf | components/chat/Chat.js:149 | the blob assembled by the stop handler has type `audio/webm` and is empty exactly when no chunk was kept |
| Recording.RecordingBlob | components/chat/Chat.js:139-150 | a recording's blob holds every delivered byte and has size zero exactly when all data events had size zero |
| Recording.Recorder.constructor | components/chat/Chat.js:138-139 | a new recorder is recording and has an empty `chunks` array |
| Recording.Recorder.OnDataAvailable | components/chat/Chat.js:141-145 | a data event appends its size to `chunks` when non-zero and otherwise changes nothing |
| Recording.Recorder.DeliverAll | components/chat/Chat.js:141-145 | a run of data events, in order, grows `chunks` by exactly the kept sizes of the run; capture state is unchanged |
| Recording.Recorder.Stop | components/chat/Chat.js:175 | stopping ends capture and keeps the chunks already collected |
| Conversation.TextTurn | components/chat/Chat.js:76-116 | the user's `texto` message comes first and validation is the first request; generation is requested, with `validate_text`, iff validation succeeds; exactly one `bot` message holding `generated_text` is appended iff both succeed; otherwise only the user message is appended |
| Conversation.VoiceTurn | components/chat/Chat.js:184-247 | an empty blob appends nothing and sends nothing; otherwise `voz` is first and the upload named `audio.mp3` is the first request; `transcripcion` holding `transcribed_text` follows iff audio validation succeeds, with generation on `simplified_text`; `bot` follows iff generation succeeds; message kinds follow the order `voz`, `transcripcion`, `bot` |
| ChatComponent.Chat.constructor | components/chat/Chat.js:7-14 | the initial state is an empty transcript, empty input, not loading, not recording, no recorder and no pending blob |
| ChatComponent.Chat.SetInputText | components/chat/Chat.js:345 | typing replaces the input and changes nothing else |
| ChatComponent.Chat.HandleSendText | components/chat/Chat.js:68-120 | when `AcceptsSend` refuses (the trimmed input is empty or a request is in flight), nothing changes and nothing is sent; otherwise the input is cleared, the transcript grows by exactly what `TextTurn` appends for the trimmed text, `isLoading` ends false on every outcome, and the recording state is untouched |
| ChatComponent.Chat.HandleKeyPress | components/chat/Chat.js:123-128 | Enter without Shift, with a non-blank input and no request in flight, runs the text path exactly as `HandleSendText` does; any other key press, or Enter on a blank input, changes nothing and sends nothing |
| ChatComponent.Chat.HandleStartRecording | components/chat/Chat.js:131-164 | a no-op while loading or already recording, or when the microphone is refused; otherwise a fresh recorder with no chunks is held and `isRecording` is set; the transcript and `isLoading` are untouched |
| ChatComponent.Chat.HandleStopRecording | components/chat/Chat.js:167-178 | a no-op unless a recorder is held and recording is on; otherwise the recorder is stopped with its chunks intact, `isRecording` becomes false and the recorder is released |
| ChatComponent.Chat.OnRecorderStop | components/chat/Chat.js:147-152 | the pending blob becomes the blob of the recorder's kept chunks; nothing else changes |
| ChatComponent.Chat.ProcessRecordedAudio | components/chat/Chat.js:181-253 | the transcript grows by exactly what `VoiceTurn` appends for the blob, `isLoading` is false on every path including the empty blob, and the input and recording state are untouched |
| ChatComponent.Chat.RunAudioEffect | components/chat/Chat.js:256-261 | a pending blob is processed and then cleared only when recording is off; otherwise nothing changes |
| ChatComponent.VoiceSession | components/chat/Chat.js:131-261 | start, data events, stop, the stop handler and the effect, from a fresh component, leave exactly the `VoiceTurn` messages for a blob of the total delivered size; the transcript stays empty exactly when no event carried data |

## Left out

- HTTP: the `fetch` calls (components/chat/Chat.js:32-65) are modelled only by the request they
  issue and by the `Server` value that answers them. The code never checks `response.ok`
  (components/chat/Chat.js:33-41, 45-50, 57-64), so a non-2xx reply with a JSON body is an `Ok`
  reply. On validation it goes through the `success` test like any other body. On generation it
  still appends a bot message, whose `contenido` is `undefined` when the body has no
  `generated_text` (components/chat/Chat.js:102, 233). The model gives generation's body as a
  string and does not model `undefined`. `Threw` stands only for `fetch` or `response.json()`
  throwing. The JSON text itself is not modelled.
- Browser media APIs: `getUserMedia` is a boolean parameter (granted or refused).
  `MediaRecorder` (`Recorder`), `Blob` construction (`BlobOf`) and `URL.createObjectURL`
  (`AudioUrl`) are modelled only by size and type: a chunk by its size, a blob by its size and
  MIME type, and a voice message's object URL by the blob it refers to. Stopping the stream's
  tracks (components/chat/Chat.js:151) is not modelled.
- The upload is labelled `audio.mp3` while the blob's type is `audio/webm`
  (components/chat/Chat.js:55, 149). The model records both constants and does not check them
  against each other.
- Asynchrony: each handler is one atomic step. React's state snapshots, re-renders and the race
  between the recorder's stop handler and the effect are not modelled.
- ChatComponent.Chat.HandleSendText: `isLoading` is true while the backend is awaited. Only
  handlers that run in the middle of another one could see that, so it is asserted in the method
  body rather than stated in the contract. The same holds for ProcessRecordedAudio.
- Message ids and timestamps (`generateId`, `toLocaleTimeString`) come from the clock and a
  random source. They are taken as opaque `Stamp` parameters, and nothing is claimed about their
  uniqueness.
- `alert` and `console` output, auto-scroll (components/chat/Chat.js:20-24), `playAudio`, the JSX
  rendering and the unused `audioChunks` and `recordingTime` state are not modelled. The alert texts
  carry no state.
- app/page.js and app/layout.js are presentation shells and are not part of this model.
