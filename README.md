# Voice conversation session core, modelled in Dafny

This project models the session state machine of a real-time voice tutor client.
The client streams microphone audio to a remote speech model and plays back the
model's audio replies. It also keeps a running transcript of both sides. All of
this logic lives in the component `App()` of `src/App.tsx`, written as callbacks
over mutable references. Here it becomes a sequential state machine with four parts:

- **Playback scheduler**: a cursor on the output clock and a set of live buffer
  sources. A chunk starts at `max(cursor, now)`, and the cursor then moves past it.
  Each source's "ended" callback removes it from the set. An interruption stops
  every source, empties the set and rewinds the cursor to 0.
- **Transcript accumulator**: two pending texts that grow fragment by fragment.
  A turn completion turns them into a (user, model) pair at the end of the transcript.
- **Status**: Idle, Connecting, Listening or Speaking, as in `types.ts`.
- **Teardown**: the shared `cleanup` routine, and the stop, error and close paths
  that use it.

Files and modules:

- `types.dfy` (`Types`): `Status`, `Speaker` and `Turn` from `types.ts`. It also holds
  the predicate `Paired`, which says a transcript is a run of (user, model) pairs.
- `playback.dfy` (`Playback`): the clock arithmetic (`StartOf`, `Advance`, `Starts`,
  `Cursor`) and the scheduler's state `Scheduler`, with `Enqueue`, `Flush` and `Remove`.
- `transcript.dfy` (`Transcript`): the accumulator `Accumulator`, with `AppendInput`,
  `AppendOutput` and `Finalize`.
- `session.dfy` (`Session`): the whole client state as a value `State`. It has one
  transition function per callback or command. `Step` and `Run` feed these functions
  a sequence of events, as the event loop does.
- `session_properties.dfy` (`SessionProperties`): lemmas about those transitions,
  for one callback and for runs of callbacks.
- `conversation.dfy` (`App`): the class `Conversation`. Its fields are the
  component's state and refs, and its methods update them in place, step by step.
  Each method is proved to perform the matching `Session` transition on the
  abstract value `Snapshot()`. Each callback and command (`Start`, `Stop`, `OnOpen`,
  `OnMessage`, `OnEnded`, `OnError`, `OnClose`) also keeps the invariant `Valid()`:
  source ids are fresh, no live source has been stopped, and the transcript is paired.
  The helper methods they call (`FlushPlayback`, `Cleanup`, `Reset` and the `Take…`
  steps of the message handler) pass through intermediate states and state only
  their transition.

Modelling choices:

- Buffer sources are abstract ids (`nat`). The counter `issued` makes every new
  source distinct from all earlier ones, as `createBufferSource` does.
- The set `stopped` records the sources on which `stop()` has been called. It
  stands in for the device effect of the two `for…of` loops.
- Resource handles (session promise, the two audio contexts, the microphone
  stream, its source node, the frame tap) are booleans: "held" or "null".
- Times are `real` seconds. Durations are non-negative (`Seconds`). Floating-point
  rounding of the cursor is not modelled: the closed forms of `StartsFromBase` and
  `CursorAfter` equal the code's running `+=` only over the reals.
- The output clock reading, the decoded chunk's duration, whether the
  credential is configured, and whether the microphone was granted are all
  parameters of the callbacks.

In these places the code does something one might not expect, and the model follows the code:

- An `interrupted` message does not set the status. It only flushes playback
  (`src/App.tsx:180-186`). The status returns to Listening later: when an
  "ended" callback finds the set empty (`EndedAfterInterrupt`), or when a turn
  completion finds no live source (`src/App.tsx:176-178`, `TurnCompletePair`).
- An audio chunk does not set the status to Speaking. Only an output
  transcription fragment does (`src/App.tsx:141-144`).
- When the microphone is denied, the session is not closed and nothing is torn
  down. The error is recorded and the status becomes Idle (`src/App.tsx:131-135`).
  Almost the same happens when the microphone is granted but the capture context
  is already gone: the `!` dereference throws into the same handler, so the error
  is recorded and the status becomes Idle, but the microphone stream handle,
  assigned just before, stays held.
- `startConversation` does not check the status. The UI only offers it while Idle
  (`src/components/Controls.tsx:32-39`). It replaces the source set with a new empty
  one without stopping the old sources, and it overwrites the handles without
  releasing the old ones.
- The close callback tears down but does not drop the session handle
  (`src/App.tsx:193-199`).
- An "ended" callback that arrives for a source that is already gone still runs
  the empty-set check and sets the status to Listening, even after a stop
  (`EndedAfterStop`).

## Model

| member | source | states |
|---|---|---|
| `Types.AppendPairKeepsPaired` | src/App.tsx:169-172 | Adding the user turn and then the model turn keeps the transcript a run of (user, model) pairs, and keeps the old transcript as a prefix |
| `Playback.StartOf` | src/App.tsx:149 | A chunk starts no earlier than the clock and no earlier than the cursor. It starts at the clock reading exactly when the cursor has fallen behind, and otherwise at the cursor |
| `Playback.Starts` | src/App.tsx:146-166 | Back-to-back scheduling yields one start time per chunk |
| `Playback.StartsFromBase` | src/App.tsx:149-164 | With the clock held at t0, chunk i starts at max(cursor, t0) plus the durations of chunks 0..i-1 |
| `Playback.Gapless` | src/App.tsx:163-164 | Each chunk's end equals the next chunk's start |
| `Playback.NoOverlap` | src/App.tsx:163-164 | No chunk starts before an earlier chunk has ended |
| `Playback.CursorAfter` | src/App.tsx:149-164 | After a non-empty run of chunks, the cursor is max(cursor, t0) plus all durations. After none, it is unchanged |
| `Playback.EnqueueFresh` | src/App.tsx:152-165 | The new source was not live before, the live set grows by exactly one, and the scheduler stays well formed |
| `SessionProperties.InitialValid` | src/App.tsx:19-34 | The initial state and refs satisfy the invariant |
| `SessionProperties.MessagePreservesValid` | src/App.tsx:137-187 | The message handler keeps ids fresh, keeps live sources unstopped and keeps the transcript paired |
| `SessionProperties.StepPreservesValid` | src/App.tsx:36-199 | Every callback and command keeps the invariant |
| `SessionProperties.RunPreservesValid` | src/App.tsx:36-208 | Every sequence of callbacks and commands keeps the invariant |
| `SessionProperties.AudioScheduling` | src/App.tsx:146-166 | Without an interruption in the same message: a chunk is scheduled only when the playback context is open. It then starts at max(cursor, now), the cursor becomes that start plus its duration, and a fresh source joins the live set. Otherwise the cursor and live set are unchanged |
| `SessionProperties.FragmentsAppend` | src/App.tsx:138-144 | Without a turn completion: the input fragment is appended to the pending user text, and the output fragment to the pending model text. An output fragment sets Speaking. Otherwise the status is unchanged |
| `SessionProperties.TurnCompletePair` | src/App.tsx:168-179 | The transcript gains exactly (user, pending input) then (model, pending output), including this message's fragments and empty texts. Both pending texts become empty. The status becomes Listening only if no source is live after this message's audio was scheduled |
| `SessionProperties.InterruptFlushes` | src/App.tsx:180-186 | Every live source, including one just scheduled, is stopped. The set becomes empty and the cursor 0. Everything else equals the result of the same message without the interruption |
| `SessionProperties.TurnExample` | src/App.tsx:138-179 | The fragments "Hello" and " world", then a turn completion, add the pair (user "Hello world", model "") and empty both pending texts |
| `SessionProperties.EndedRemovesOnlyIt` | src/App.tsx:156-161 | Only that source leaves the live set. The status becomes Listening exactly when the set is empty afterwards, and is otherwise unchanged. Nothing else changes |
| `SessionProperties.EndedAfterInterrupt` | src/App.tsx:156-186 | The interrupted step leaves the status as it was. An ended callback after it sets Listening |
| `SessionProperties.EndedAfterStop` | src/App.tsx:56-69 | Stop ends Idle. An ended callback arriving afterwards sets Listening |
| `SessionProperties.StartResets` | src/App.tsx:72-101 | With a credential: the error is cleared and the status is Connecting. The transcript and both pending texts are empty. A session and both contexts are held, the cursor is 0 and the live set is empty. No earlier source gets stopped |
| `SessionProperties.StartWithoutCredential` | src/App.tsx:72-207 | Without a credential: the start error is recorded and the status is Idle. The transcript and pending texts are cleared. Teardown releases the capture and playback handles, stops every live source and rewinds the cursor |
| `SessionProperties.OpenOutcome` | src/App.tsx:102-135 | With the microphone granted and the capture context held, the status becomes Listening and the stream, source node and tap are held. Otherwise the microphone error is recorded and the status becomes Idle. Either way the session and contexts are kept and the transcript and playback are untouched |
| `SessionProperties.CleanupReleases` | src/App.tsx:36-54 | Every handle except the session becomes null. Every live source is stopped, the set is empty and the cursor is 0. Status, error, session and transcript state are unchanged |
| `SessionProperties.CleanupIdempotent` | src/App.tsx:36-54 | Running cleanup twice gives the same state as running it once |
| `SessionProperties.StopTearsDown` | src/App.tsx:56-69 | Stop ends Idle with the session handle null, whether or not a session existed, and is cleanup otherwise. Stopping again changes nothing |
| `SessionProperties.FailedTearsDown` | src/App.tsx:188-192 | A transport error records the connection error and otherwise does exactly what stop does |
| `SessionProperties.ClosedTearsDown` | src/App.tsx:193-199 | A remote close nulls every handle except the session, stops every live source, empties the set, rewinds the cursor to 0 and goes Idle. The session handle, the error and the transcript state are kept |
| `SessionProperties.StepPending` | src/App.tsx:138-144 | An event other than a start or a turn completion extends each pending text by its fragment, or by nothing |
| `SessionProperties.RunFragments` | src/App.tsx:138-144 | Between turn completions, and with no start, each pending text is its old value followed by every fragment of its side, in arrival order. This holds however the two sides, audio, ended sources and the other callbacks interleave |
| `SessionProperties.StepTranscript` | src/App.tsx:168-172 | An event other than a start grows the transcript by two on a turn completion, keeping it as a prefix. Otherwise the transcript is unchanged |
| `SessionProperties.RunTranscriptGrows` | src/App.tsx:168-172 | Within one conversation, the transcript grows by exactly two entries per turn completion, and the old transcript stays a prefix |
| `SessionProperties.RunAudioSchedule` | src/App.tsx:146-166 | With the playback context open and the clock held, a run of audio-only messages starts its chunks at the scheduler's back-to-back start times. The cursor ends where that schedule ends, and the chunks get the next ids, all live |
| `SessionProperties.RunAudioGapless` | src/App.tsx:149-165 | In such a run, chunk i starts at max(cursor, now) plus the earlier durations, and ends exactly where chunk i+1 starts |
| `App.Conversation.constructor` | src/App.tsx:19-34 | Starts Idle, with no error, no transcript, empty pending texts, no handles, cursor 0 and no sources |
| `App.Conversation.FlushPlayback` | src/App.tsx:180-186 | Stops each live source one by one, then clears the set and rewinds the cursor, as `Playback.Flush` |
| `App.Conversation.Cleanup` | src/App.tsx:36-54 | Nulls the capture and playback handles, then flushes playback, as `Session.Cleanup` |
| `App.Conversation.Stop` | src/App.tsx:56-69 | Goes Idle, drops the session handle if there is one, and cleans up, as `Session.Stop` |
| `App.Conversation.Reset` | src/App.tsx:73-77 | Clears the error, sets Connecting, and empties the transcript and pending texts |
| `App.Conversation.Start` | src/App.tsx:72-101 | Performs `Session.Start`. It resets, then either fails and tears down, or takes the contexts and session with the cursor at 0 and an empty set |
| `App.Conversation.OnOpen` | src/App.tsx:102-135 | Performs `Session.Open`, the microphone-granted and microphone-denied branches |
| `App.Conversation.TakeInput` | src/App.tsx:138-140 | Appends the input fragment, if any, to the pending user text |
| `App.Conversation.TakeOutput` | src/App.tsx:141-144 | On an output fragment, sets Speaking and appends it to the pending model text |
| `App.Conversation.TakeAudio` | src/App.tsx:146-166 | Schedules the chunk, if any, while the playback context is open. It returns the start time max(cursor, now) given to the new source |
| `App.Conversation.TakeTurnComplete` | src/App.tsx:168-179 | On a turn completion, appends the pair, empties both pending texts, and sets Listening if no source is live |
| `App.Conversation.TakeInterrupted` | src/App.tsx:180-186 | On an interruption, flushes playback |
| `App.Conversation.OnMessage` | src/App.tsx:137-187 | Performs `Session.HandleMessage`, taking the fields in the order input, output, audio, turn completion, interruption. It returns the scheduled chunk's start as `Session.ChunkStart` states, and keeps the invariant |
| `App.Conversation.OnEnded` | src/App.tsx:156-161 | Performs `Session.Ended`: removes that source, and sets Listening if the set is then empty |
| `App.Conversation.OnError` | src/App.tsx:188-192 | Records the connection error and stops, as `Session.Failed` |
| `App.Conversation.OnClose` | src/App.tsx:193-199 | Cleans up and goes Idle, as `Session.Closed` |

## Left out

- React rendering and hooks (`src/App.tsx:218-244`), and the components `Controls`, `Avatar` and `TranscriptionDisplay`: user interface only.
- The speech-model transport (`GoogleGenAI`, `ai.live.connect`, `sendRealtimeInput`, `session.close`): a foreign SDK. Its callbacks are events of the model, and closing a session is only its handle becoming null.
- Web Audio and media-device calls (creating contexts and nodes, `connect`/`disconnect`, closing contexts, stopping tracks): device I/O. Only their effect on the modelled state is kept. Stopping a source is recorded in `stopped`.
- The PCM codec `encode`, `decode` and `decodeAudioData` from `./utils/audioUtils`: utils/audioUtils is not part of this model. A chunk is represented by its decoded duration. A message whose audio payload is empty counts as having no audio.
- Audio decoding failures: the model assumes every chunk decodes. In the code, the cursor is clamped to the clock (`src/App.tsx:149`) before `await decodeAudioData(...)` (line 150). If decoding throws or rejects, or if the message has no `modelTurn.parts` so that line 146 throws, the handler stops there. The clamp stays, no source is created, and that message's turn-completion and interruption blocks (lines 168-186) do not run. `Session.HandleMessage` always runs all five steps.
- The float to 16-bit conversion of captured frames (`src/App.tsx:116`): floating point and typed-array wrap-around.
- The per-frame send chain and its failure path (`src/App.tsx:113-127`), including the "failed to send" error and its stop: promise interleaving.
- Every suspension point: the await on `decodeAudioData` between reading the cursor and starting the source, the await on `getUserMedia`, and the await on the session in stop. Each callback runs atomically here.
- The unmount effect (`src/App.tsx:210-216`): it only calls stop when a session handle is held.
- Synchronous failures of audio-context creation or of `ai.live.connect` inside `startConversation`. Only the missing credential is modelled on that catch path.
- The comparison with a stale `status` in the close callback (`src/App.tsx:196`): it reads the status captured when `startConversation` was created, which is Idle whenever the UI offers the start button (`src/components/Controls.tsx:26-32`), so the code itself does not set the status there. The model simplifies this to "the status becomes Idle" (`Session.Closed`, `App.Conversation.OnClose`, `SessionProperties.ClosedTearsDown`).
- A transcription object without a `text` field, which JavaScript would append as the text "undefined": fragments here are always strings.
- Console logging and the wording of error messages: errors are the kinds `StartFailed`, `MicrophoneDenied` and `ConnectionError`.
