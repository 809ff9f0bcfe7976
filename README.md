# Voice session protocol of AI Avatar Interaction, in Dafny

AI Avatar Interaction is a spoken interview with an AI. The browser page
records one utterance from the microphone and sends it to a Python server
over a WebSocket as base64 audio, followed by an end marker. The server
transcribes the audio, streams a language-model reply back token by token,
synthesizes speech for the whole reply and sends it as one base64 audio
message. Status messages (`transcribing`, `thinking`, `speaking`, `ready`)
drive the page's status line and the avatar's speaking animation.

This project models both ends of that protocol and the buffers and queues
each end keeps:

| file | module | models |
|---|---|---|
| `wire.dfy` | `Wire` | the messages each side sends and the envelope the other side's JSON decoder sees; an abstract base64 codec; `atob` |
| `speech.dfy` | `Speech` | `tts.py`: the provider choice and the 4096-byte slicing of the Edge voice file |
| `session.dfy` | `ServerSession` | `session.py`: the history, the audio buffer and the recent-history window given to the model |
| `handler.dfy` | `Handler` | `websocket.py`: the receive loop and the speech-to-text, model, speech pipeline |
| `capture.dfy` | `Capture` | `AudioInput.tsx`: the recorder, its fragment buffer, and the data-URL framing of a recording |
| `playback.dfy` | `Playback` | `AudioOutput.tsx`: the playback FIFO and its single asynchronous drain loop |
| `page.dfy` | `Page` | `page.tsx`: the socket handle and its callbacks, the message dispatcher, `sendAudio` |
| `endtoend.dfy` | `EndToEnd` | properties that span both ends |

The speech-to-text engine, the language model, the speech synthesizers,
the JSON and base64 codecs and the browser's media and socket objects are
opaque. The server's services are function-typed fields of `Handler.Services`.
The browser's outcomes (a socket's `readyState`, whether the microphone or
the recorder could be obtained, whether the `AudioContext` can be created,
whether `decodeAudioData` succeeds) are
parameters of the methods that model the code reacting to them. Each point
where the browser code suspends (`await`, an event handler) is a separate step
method. So any interleaving of events can be written as a sequence of calls.

Pure parts are functions with lemmas. Stateful parts are classes whose
methods are proved against a specification function or a stated new
state:

- `HandleFrame` is proved equal to `Step`, and `HandleWebsocket` to `Serve`.
- `ProcessAudioToVoice` is proved equal to `Pipeline`.
- `HomePage.OnMessage` is proved equal to `Dispatch`.
- The classes `Session`, `AudioOutput` and `AudioInput` keep invariants
  (`Valid`) over ghost logs of what was appended, pushed, popped and emitted.

## Model

| member | source | states |
|---|---|---|
| Wire.ClientEnvelope | ai-avatar-interaction/frontend/app/page.tsx:90-99 | the client sends `audio` with a payload or `audio_end` without one, and the two are told apart by the payload's absence |
| Wire.ServerEnvelope | ai-avatar-interaction/backend/websocket.py:37-47 | every server message carries a payload except `pong` |
| Wire.ServerEnvelopeInjective | ai-avatar-interaction/backend/websocket.py:60-98 | distinct server messages arrive as distinct envelopes |
| Wire.Concat | ai-avatar-interaction/backend/websocket.py:94 | joining no pieces gives nothing, and joining one piece gives that piece |
| Wire.ConcatSnoc | ai-avatar-interaction/backend/websocket.py:76 | appending one more piece appends its contents (`response += token`) |
| Wire.ConcatAppend | ai-avatar-interaction/backend/websocket.py:94 | joining distributes over appending piece sequences |
| Wire.ConcatCons | ai-avatar-interaction/backend/tts.py:46-48 | joining a first piece and the rest puts the first piece in front |
| Wire.NonEmpty | ai-avatar-interaction/backend/websocket.py:88-91 | the kept pieces are all non-empty, join to the same bytes as all the pieces, and are no more than them |
| Wire.NonEmptyKeepsPieces | ai-avatar-interaction/backend/websocket.py:88-91 | every kept piece is one of the pieces, and pieces that are all non-empty are kept whole |
| Wire.NonEmptySnoc | ai-avatar-interaction/frontend/components/AudioInput.tsx:29-33 | one more piece is kept exactly when it is non-empty |
| Wire.EncodedHasNoComma | ai-avatar-interaction/frontend/components/AudioInput.tsx:50 | base64 text never contains the comma at which the data URL is cut |
| Wire.SentinelIsNotBase64 | ai-avatar-interaction/frontend/app/page.tsx:90 | no audio's base64 equals the end marker `__AUDIO_END__` |
| Wire.BinaryString | ai-avatar-interaction/frontend/components/AudioOutput.tsx:32 | `atob`'s result has one character per byte, whose code is the byte |
| Wire.Atob | ai-avatar-interaction/frontend/components/AudioOutput.tsx:32 | `atob` throws exactly when the base64 does not decode, and otherwise returns the binary string of the decoded bytes |
| Speech.ChooseProvider | ai-avatar-interaction/backend/tts.py:14-23 | ElevenLabs only when the provider is `"elevenlabs"` and the key is non-empty; Edge otherwise |
| Speech.EdgeChunks | ai-avatar-interaction/backend/tts.py:46-48 | no data gives no chunks; every chunk is 1 to 4096 bytes; all but the last are exactly 4096 bytes |
| Speech.EdgeChunkCount | ai-avatar-interaction/backend/tts.py:46-48 | the number of chunks is the ceiling of the length over 4096 |
| Speech.EdgeChunksUnfold | ai-avatar-interaction/backend/tts.py:47-48 | the first chunk is the first 4096 bytes, followed by the chunks of the rest |
| Speech.EdgeChunksConcat | ai-avatar-interaction/backend/tts.py:46-48 | joining the chunks gives back exactly the data read |
| Speech.TtsEdge | ai-avatar-interaction/backend/tts.py:26-54 | a failure before the read yields nothing; otherwise the chunks join to the data read and are each 1 to 4096 bytes |
| Speech.StreamTts | ai-avatar-interaction/backend/tts.py:14-23 | under Edge the chunks join to the synthesized bytes (or nothing) and are 1 to 4096 bytes; under ElevenLabs they are the chunks its stream delivered |
| ServerSession.SliceFrom | ai-avatar-interaction/backend/session.py:63 | Python's `s[start:]` is a suffix, of length `len - start` for a non-negative start and `min(-start, len)` for a negative one, clamped |
| ServerSession.RecentWindow | ai-avatar-interaction/backend/session.py:61-64 | the first message, then the last `k` messages in order, as role/content pairs without timestamps; length `1 + min(n, k)` for `k >= 1` |
| ServerSession.ShortHistoryRepeatsFirst | ai-avatar-interaction/backend/session.py:63 | a history no longer than the window is sent whole after the system message, which therefore appears twice |
| ServerSession.ZeroWindowIsWholeHistory | ai-avatar-interaction/backend/session.py:63 | `max_recent = 0` slices `[-0:]`, the whole history, giving `1 + n` entries |
| ServerSession.Session.constructor | ai-avatar-interaction/backend/session.py:37-40 | a new session holds exactly the system prompt, and an empty buffer |
| ServerSession.Session.AppendAudio | ai-avatar-interaction/backend/session.py:42-44 | the buffer becomes the old buffer followed by the chunk |
| ServerSession.Session.ConsumeAudio | ai-avatar-interaction/backend/session.py:46-53 | returns exactly the chunks appended since the last consume, joined in order, and leaves the buffer empty |
| ServerSession.Session.AddUserMessage | ai-avatar-interaction/backend/session.py:55-56 | appends one user message; earlier messages, the system prompt first, are unchanged |
| ServerSession.Session.AddAssistantMessage | ai-avatar-interaction/backend/session.py:58-59 | appends one assistant message; earlier messages are unchanged |
| Handler.TokenMessages | ai-avatar-interaction/backend/websocket.py:75-77 | one `llm_token` per token, in order |
| Handler.SpeechMessages | ai-avatar-interaction/backend/websocket.py:88-96 | at most one `audio` message, sent exactly when some chunk is non-empty, carrying the base64 of the joined chunks |
| Handler.ReplyMessages | ai-avatar-interaction/backend/websocket.py:74-96 | after `thinking`: no error or pong, the only status is `speaking`, `assistant_text` is the joined tokens, audio comes last and right after `speaking` |
| Handler.PipelineMessages | ai-avatar-interaction/backend/websocket.py:60-98 | first `transcribing` and last `ready`; only those two for an empty or `[`-prefixed transcription; `assistant_text` is the joined tokens; audio only just before `ready` and after `speaking` |
| Handler.ReplyFramed | ai-avatar-interaction/backend/websocket.py:74-98 | framing a reply between `thinking` and `ready` keeps it free of errors and pongs, keeps `assistant_text` the reply, and puts the audio second to last right after `speaking` |
| Handler.PipelineForwardsTokens | ai-avatar-interaction/backend/websocket.py:69-84 | after a usable transcription come `user_text`, `thinking` and the tokens in order, and `assistant_text` follows exactly when the reply is not empty |
| Handler.PipelineSendsAudioIff | ai-avatar-interaction/backend/websocket.py:65-96 | audio is sent if and only if the transcription is usable, the reply is not empty and some speech chunk is not empty |
| Handler.PipelineUnheard | ai-avatar-interaction/backend/websocket.py:65-67 | an unusable transcription records nothing and sends `transcribing`, `ready` |
| Handler.PipelineSilent | ai-avatar-interaction/backend/websocket.py:79-81 | an empty reply records only the user turn and sends the tokens and `ready` |
| Handler.Pipeline | ai-avatar-interaction/backend/websocket.py:53-98 | the history keeps its old messages as a prefix and grows by at most two; at least two messages go out, the first `transcribing` and the last `ready`, and none is an error or a pong |
| Handler.PipelineAnswered | ai-avatar-interaction/backend/websocket.py:69-98 | a non-empty reply records the user turn and the reply, and the model sees the window including the new user turn |
| Handler.PipelineSpoken | ai-avatar-interaction/backend/websocket.py:69-98 | the messages of an answered utterance, in their exact order |
| Handler.SpokenMessages | ai-avatar-interaction/backend/websocket.py:60-98 | the same order, at the level of the transcription, tokens and chunks |
| Handler.PipelineRecords | ai-avatar-interaction/backend/websocket.py:69-84 | the history only grows; nothing is recorded for an unusable transcription; the user turn comes first; every recorded reply was sent as `assistant_text` |
| Handler.Usable | ai-avatar-interaction/backend/websocket.py:65 | a transcription is answered exactly when it is not empty and does not start with `[` |
| Handler.Step | ai-avatar-interaction/backend/websocket.py:20-49 | a fault sends exactly one error and ends the loop with the session unchanged; an unparseable frame is such a fault; `ping` gives one `pong`; a frame of any other unknown type sends nothing and changes nothing; no other step sends an error |
| Handler.AudioStep | ai-avatar-interaction/backend/websocket.py:26-31 | audio with a missing or empty payload is skipped; otherwise its decoded bytes extend the buffer, and undecodable base64 ends the loop |
| Handler.AudioEndStep | ai-avatar-interaction/backend/websocket.py:33-40 | `audio_end` always empties the buffer; an empty buffer sends one `ready`, otherwise the pipeline runs on the buffered bytes |
| Handler.ServeStep | ai-avatar-interaction/backend/websocket.py:20-49 | serving frames is one `Step` on the first frame, then, unless it stopped the loop, serving the rest from the new session |
| Handler.UtteranceIsAnswered | ai-avatar-interaction/backend/websocket.py:26-40 | an `audio` frame of decodable non-empty base64 followed by `audio_end` sends `ready` when nothing was buffered, and otherwise exactly the pipeline's messages for the buffered bytes plus the new ones |
| Handler.Serve | ai-avatar-interaction/backend/websocket.py:15-49 | no frames send nothing; a first frame that faults (an unparseable one in particular) sends exactly its one error report and nothing more; otherwise the first frame's messages are followed by the rest |
| Handler.ErrorOnlyLast | ai-avatar-interaction/backend/websocket.py:45-49 | nothing is sent after an error report, so at most one is sent |
| Handler.ErrorFreeThenErrorIsLast | ai-avatar-interaction/backend/websocket.py:20-49 | error-free messages followed by messages whose only error report is last keep the error report last |
| Handler.PingIsAnsweredOnce | ai-avatar-interaction/backend/websocket.py:42-43 | a ping anywhere adds exactly one `pong` and leaves the rest of the conversation as it was |
| Handler.ForwardTokens | ai-avatar-interaction/backend/websocket.py:74-77 | the accumulated response is the joined tokens and the forwarded messages are one `llm_token` per token |
| Handler.CollectAudio | ai-avatar-interaction/backend/websocket.py:88-91 | the collected chunks are exactly the non-empty ones, in order |
| Handler.ProcessAudioToVoice | ai-avatar-interaction/backend/websocket.py:53-98 | the messages sent and the new history are exactly those of `Pipeline` |
| Handler.HandleFrame | ai-avatar-interaction/backend/websocket.py:21-49 | one loop iteration sends and changes exactly what `Step` says |
| Handler.HandleWebsocket | ai-avatar-interaction/backend/websocket.py:15-49 | the whole connection sends exactly `Serve` of a fresh session |
| Capture.Split | ai-avatar-interaction/frontend/components/AudioInput.tsx:50 | `split` gives at least one piece, no piece contains the separator, and joining the pieces gives back the text |
| Capture.SplitJoin | ai-avatar-interaction/frontend/components/AudioInput.tsx:50 | splitting undoes joining pieces free of the separator |
| Capture.SecondField | ai-avatar-interaction/frontend/components/AudioInput.tsx:50 | a second field exists exactly when there is a comma, and it has no comma |
| Capture.DataUrl | ai-avatar-interaction/frontend/components/AudioInput.tsx:56 | the data URL is its header and its body joined by one comma |
| Capture.DataUrlBody | ai-avatar-interaction/frontend/components/AudioInput.tsx:50 | the second field of a data URL is its base64 body |
| Capture.LoadEndCalls | ai-avatar-interaction/frontend/components/AudioInput.tsx:49-55 | a failed read or an empty or missing body sends nothing, not even the end marker; otherwise exactly the body and then the end marker |
| Capture.RecordingCalls | ai-avatar-interaction/frontend/components/AudioInput.tsx:45-56 | an empty recording sends nothing; any other sends its base64 and then the end marker |
| Capture.AudioInput.constructor | ai-avatar-interaction/frontend/components/AudioInput.tsx:11-14 | not recording, no handles, empty buffer |
| Capture.AudioInput.StartRecording | ai-avatar-interaction/frontend/components/AudioInput.tsx:16-68 | nothing when disabled or recording or the microphone is refused; the stream is kept even if the recorder then fails; the buffer is reset once a recorder exists; only a started recorder sets `recording` |
| Capture.AudioInput.OnDataAvailable | ai-avatar-interaction/frontend/components/AudioInput.tsx:29-33 | a fragment is buffered exactly when it is non-empty, after the earlier ones |
| Capture.AudioInput.StopRecording | ai-avatar-interaction/frontend/components/AudioInput.tsx:70-76 | whatever recorder and stream are held are stopped, both handles are cleared and `recording` is false |
| Capture.AudioInput.OnStop | ai-avatar-interaction/frontend/components/AudioInput.tsx:45-58 | the blob is every buffered fragment joined, which is every emitted fragment joined; the buffer is cleared after |
| Playback.InFlight | ai-avatar-interaction/frontend/components/AudioOutput.tsx:30-47 | at most one popped entry is unfinished: none when the stage is `Idle` or `Stalled`, and otherwise the entry of the stage (a running loop, or the entry whose `atob` threw) |
| Playback.Popped | ai-avatar-interaction/frontend/components/AudioOutput.tsx:31-37 | after popping an entry the loop halts exactly when `atob` rejects it, and otherwise awaits the decoding of exactly its decoded bytes |
| Playback.Uint8 | ai-avatar-interaction/frontend/components/AudioOutput.tsx:33-34 | storing a character code in a `Uint8Array` keeps a code below 256 and otherwise keeps it modulo 256 |
| Playback.CopyBinary | ai-avatar-interaction/frontend/components/AudioOutput.tsx:33-34 | the byte array is as long as the binary string and byte `i` is `charCodeAt(i)` stored in a `Uint8Array` |
| Playback.CopyOfBinaryString | ai-avatar-interaction/frontend/components/AudioOutput.tsx:32-34 | copying `atob`'s binary string gives back the decoded bytes |
| Playback.AudioOutput.constructor | ai-avatar-interaction/frontend/components/AudioOutput.tsx:14-16 | no context, an empty queue, not playing |
| Playback.AudioOutput.PlayChunk | ai-avatar-interaction/frontend/components/AudioOutput.tsx:52-59 | an empty entry changes nothing; otherwise it is pushed at the tail and `playing` is set; with `playing` already set nothing else changes; otherwise a loop starts on it and stops where `Popped` says, or, when the context cannot be created, the entry stays queued in stage `Stalled` |
| Playback.AudioOutput.ProcessQueue | ai-avatar-interaction/frontend/components/AudioOutput.tsx:18-29 | no effect while playing or with an empty queue; otherwise `playing` is set and either the context cannot be created and nothing is popped (`Stalled`), or the head is popped and reaches the stage `Popped` gives |
| Playback.AudioOutput.Resume | ai-avatar-interaction/frontend/components/AudioOutput.tsx:30-37 | the loop ends on an empty queue; otherwise it pops the head and reaches the stage `Popped` gives |
| Playback.AudioOutput.DrainEnd | ai-avatar-interaction/frontend/components/AudioOutput.tsx:49 | on normal exit the queue is empty and `playing` is false |
| Playback.AudioOutput.DrainStep | ai-avatar-interaction/frontend/components/AudioOutput.tsx:31-37 | the head is popped and attempted next, and the stage is `Popped` of it: invalid base64 halts the loop with `playing` still set; valid base64 goes to the audio decoder as its decoded bytes |
| Playback.AudioOutput.DecodeSettled | ai-avatar-interaction/frontend/components/AudioOutput.tsx:37-47 | a decodable entry starts playing; an undecodable one is finished and skipped, and the loop ends or pops the next head into the stage `Popped` gives |
| Playback.AudioOutput.PlaybackEnded | ai-avatar-interaction/frontend/components/AudioOutput.tsx:41-47 | the sounding entry is finished, and only then is the loop ended or the next head popped into the stage `Popped` gives |
| Page.Offline | ai-avatar-interaction/frontend/app/page.tsx:120-131 | the initial status shows the Connect button and disables the recorder; no status of a working session does |
| Page.Dispatch | ai-avatar-interaction/frontend/app/page.tsx:43-72 | unparseable and unknown messages change nothing; `status` sets the status and `isSpeaking` to `payload == "speaking"`, with `""` for a missing payload; the transcript only grows, by one entry with the matching role for `user_text` and `assistant_text`, which clear the streaming text; a token only extends the streaming text; audio only hands its payload to the player |
| Page.DispatchAll | ai-avatar-interaction/frontend/app/page.tsx:43-72 | over any run of messages the earlier transcript is kept, and at most one entry and one played payload are added per message |
| Page.TokensAccumulate | ai-avatar-interaction/frontend/app/page.tsx:58-59 | a run of tokens extends the streaming text by their concatenation ("Hel", "lo" gives "Hello") and changes nothing else |
| Page.DispatchAllSnoc | ai-avatar-interaction/frontend/app/page.tsx:43-72 | one more message is dispatched in the state the earlier ones left |
| Page.DispatchAllAppend | ai-avatar-interaction/frontend/app/page.tsx:43-72 | a run dispatches as its first part and then its second |
| Page.OutboundFrame | ai-avatar-interaction/frontend/app/page.tsx:90-99 | the end marker becomes `audio_end` with no payload; any other string becomes `audio` carrying it |
| Page.AudioIsFramedAsAudio | ai-avatar-interaction/frontend/app/page.tsx:90-99 | audio encoded by a valid codec is always sent as `audio` with its payload |
| Page.HomePage.constructor | ai-avatar-interaction/frontend/app/page.tsx:12-21 | the first render: initial state and no socket |
| Page.HomePage.Connect | ai-avatar-interaction/frontend/app/page.tsx:24-28 | no-op only when the current socket is open; otherwise, even while it is connecting, a new socket replaces the handle |
| Page.HomePage.OnOpen | ai-avatar-interaction/frontend/app/page.tsx:30-32 | the status becomes `connected` |
| Page.HomePage.OnClose | ai-avatar-interaction/frontend/app/page.tsx:34-37 | the status becomes `disconnected` and the handle is cleared, whichever socket closed |
| Page.HomePage.OnError | ai-avatar-interaction/frontend/app/page.tsx:39-41 | the status becomes `error` and the handle is kept |
| Page.HomePage.OnMessage | ai-avatar-interaction/frontend/app/page.tsx:43-72 | the state changes exactly as `Dispatch` says; a non-empty audio payload is pushed to the player, which is then playing and either only queues it (already playing), holds it in stage `Stalled` (the context cannot be created), or pops it into the stage `Popped` gives |
| Page.HomePage.SendAudio | ai-avatar-interaction/frontend/app/page.tsx:86-100 | something is sent exactly when the handle holds an open socket; the end marker is sent as `audio_end`, anything else as `audio` carrying it |
| EndToEnd.ClientRunAppend | ai-avatar-interaction/frontend/app/page.tsx:43-72 | the page processes a message run as its first part and then its second |
| EndToEnd.ClientRunOne | ai-avatar-interaction/frontend/app/page.tsx:43-72 | a single message is dispatched once |
| EndToEnd.ClientRunTwo | ai-avatar-interaction/frontend/app/page.tsx:43-72 | two messages are dispatched in order |
| EndToEnd.ClientRunTokens | ai-avatar-interaction/frontend/app/page.tsx:58-59 | the forwarded tokens build up the streaming text and play nothing |
| EndToEnd.ClientRunSpeech | ai-avatar-interaction/frontend/app/page.tsx:66-67 | the server's audio message is handed to the player, and nothing is when there is none |
| Handler.SilentMessages | ai-avatar-interaction/backend/websocket.py:79-81 | the exact messages of an utterance with an empty reply |
| EndToEnd.ClientSeesQuestion | ai-avatar-interaction/frontend/app/page.tsx:49-59 | after `transcribing`, `user_text`, `thinking` and the tokens, the user's turn is in the transcript and the tokens are streaming |
| EndToEnd.ClientSeesSpeechEnd | ai-avatar-interaction/frontend/app/page.tsx:49-51 | the audio is played and the final `ready` stops the avatar speaking |
| EndToEnd.ClientSeesReply | ai-avatar-interaction/frontend/app/page.tsx:60-67 | after the reply the assistant's turn is in the transcript, the streaming text is cleared, the status is `ready` |
| EndToEnd.ClientSeesAnswer | ai-avatar-interaction/frontend/app/page.tsx:43-72 | after an answered utterance the page is `ready` and silent, both turns are appended, the streaming text is empty, and exactly the speech was played |
| EndToEnd.ClientSeesExchange | ai-avatar-interaction/frontend/app/page.tsx:43-72 | the question followed by the reply leaves the page `ready`, not speaking, with both turns appended and exactly the speech played |
| EndToEnd.ClientSeesSilence | ai-avatar-interaction/frontend/app/page.tsx:43-72 | after an empty reply only the user's turn is appended and nothing is played |
| EndToEnd.ClientSeesNothingHeard | ai-avatar-interaction/frontend/app/page.tsx:49-51 | after an unusable transcription the page is `ready` and otherwise as before |
| EndToEnd.PipelineKeepsInputEnabled | ai-avatar-interaction/frontend/app/page.tsx:120-131 | no status the server sends while answering disables the recorder or shows the Connect button |
| EndToEnd.FramedStatusesOnline | ai-avatar-interaction/frontend/app/page.tsx:120-131 | framing a reply whose only status is `speaking` adds only the statuses `transcribing`, `thinking` and `ready`, none of which takes the page offline |
| EndToEnd.ServerAudioDecodes | ai-avatar-interaction/frontend/components/AudioOutput.tsx:32 | audio the server sends is never empty and always decodes to the speech bytes, so it never halts the drain loop |
| EndToEnd.NonEmptyNotEmpty | ai-avatar-interaction/backend/websocket.py:93-94 | when some chunk is non-empty the joined audio is non-empty |
| EndToEnd.EdgeSpeechRoundTrip | ai-avatar-interaction/backend/tts.py:46-48 | under Edge the page receives the base64 of exactly the synthesized bytes |
| EndToEnd.RecordingReachesPipeline | ai-avatar-interaction/frontend/components/AudioInput.tsx:49-55 | an empty recording sends no frame; a non-empty one makes the server run its pipeline on exactly the recorded bytes, after any it had buffered |
| EndToEnd.SpeakingScenario | ai-avatar-interaction/frontend/app/page.tsx:49-67 | `ready`, `speaking`, audio, `ready` ends at `ready`, not speaking, with exactly one entry handed to the player |

## Behaviour worth noting

- `connect` (page.tsx:24-28) only checks that the current socket is `OPEN`,
  and never sets a `connecting` status. A socket that is still connecting is
  replaced by a second one (`Page.HomePage.Connect`).
- Empty recording (AudioInput.tsx:51): the load-end handler returns before
  both `onAudioChunk` calls when the data URL's body is empty, so not even
  the end marker is sent (`Capture.LoadEndCalls`, `Capture.RecordingCalls`).
- Corrupt audio (AudioOutput.tsx:32-36): `atob` is outside the `try`. So
  invalid base64 ends the drain loop by an exception and leaves `playing`
  set (`Playback.AudioOutput.DrainStep`, stage `Halted`). No step method
  applies to a `Halted` stage. Every later `PlayChunk` then only queues its
  entry (`Playback.AudioOutput.PlayChunk` with `playing` set). Audio the
  server sends is always valid base64 (`EndToEnd.ServerAudioDecodes`), so
  only audio from another source can cause this.
- Context creation (AudioOutput.tsx:18-29): `new AudioContext()` runs after
  `playingRef.current = true`. If it throws, `processQueue` rejects with
  `playing` left set and nothing popped, and from then on every entry is only
  queued (`Playback.AudioOutput.ProcessQueue`, stage `Stalled`).
- Socket callbacks (page.tsx:30-41): the callbacks do not check which socket
  fired them. If an old socket closes after `connect` replaced it, the handle
  of the new socket is cleared (`Page.HomePage.OnClose`).
- Server `pong` and `error` messages (page.tsx:49-68): the page ignores
  both. A server error does not change the status (`Page.Dispatch`).

## Left out

- JSON (RFC 8259) is not modelled. A receiver sees an `Envelope` holding the
  `type` and `payload` members, or `None` when parsing or `data.get` fails.
  A sent message arrives as its envelope. Payloads that are JSON but not
  strings are not modelled.
- Base64 (section 4 of RFC 4648) is an abstract codec. Properties that need
  a real codec assume `Wire.Valid` (the round trip, empty only for no bytes,
  the base64 alphabet) as a precondition. Python's `b64decode` drops
  characters outside the alphabet; only whether it raises is modelled.
- The speech-to-text engine, the language model and the synthesizers are
  opaque functions. `stt.py` reports failures as text starting with `[`.
  `llm.py` yields an `[LLM Error: ...]` token. Neither raises, so neither
  is modelled as raising. ElevenLabs is the list of chunks its stream
  delivered before it ended or failed.
- Edge synthesis is the bytes read back from the file, or `None` when a step
  before the read fails. A failing `os.unlink` comes after every chunk was
  yielded, so it changes nothing. The temporary file itself is not modelled.
- Timestamps (`datetime.utcnow`) and the session id (`uuid4`) are parameters.
  `Handler.Pipeline` stamps the user and the assistant message of one
  utterance with the same reading (the frame's `now`), where session.py:15
  reads the clock once per message.
  The unused `metadata` dict is not modelled. The debug `print` and
  `console.error` calls are left out.
- `Handler.HandleWebsocket`: the server's sends are taken to succeed. A client
  that disconnects is seen only when the frames run out. The error report sent
  to the closed socket is dropped.
- Browser objects (WebSocket, MediaRecorder, MediaStream, FileReader,
  AudioContext) are numbers or flags. Whether acquiring the microphone,
  creating or starting the recorder, creating the `AudioContext` and decoding
  audio succeed are parameters. Stopping tracks and recorders is modelled only
  as releasing the handles. `initContext` is the flag `contextCreated`.
- Concurrency is modelled as step methods the caller may interleave. React's
  batching of state updates and stale closures (two clicks on Start before the
  first `await` finishes) are not modelled.
- `Page.HomePage.OnMessage`: the player (`audioOutputRef.current`) is taken to
  be mounted. The null case of the optional call is not modelled.
- `Playback.AudioOutput.DrainStep`: the `ArrayBuffer` slice at
  AudioOutput.tsx:35 is the whole array, so the decoder gets the copied bytes.
- The `WS_URL` choice, the JSX rendering apart from the `disabled` condition,
  FaceView.tsx, layout.tsx, next.config.js, main.py and config.py are not
  part of this model.
