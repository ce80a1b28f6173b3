# Remote audio server: session and playback state machine

This project models `RemoteAudioIO`, the server that lets remote devices
stream microphone audio to GLaDOS over websockets and play synthesized speech
back on them. Without sockets, event loop and threads, the server is a
small sequential object with these parts:

- the set of connected clients, capped at `MAX_CLIENTS = 10`;
- the FIFO sample queue of `(chunk, is_speech)` entries for the recognizer;
- the `_is_listening` flag, the `_is_playing` flag and the `_stop_event`;
- the frames and closes handed to the transport (the outbox);
- the playback timers scheduled and not yet fired.

Every public operation is modelled as one atomic step.

Files:

- `protocol.dfy` (module `Protocol`) holds the class constants and the inbound
  messages, the outbound frames and the queue entries as datatypes. It also
  holds `Configure`, the argument handling of `__init__`.
- `session.dfy` (module `Session`) gives the whole state as a value `State`,
  with one function per step and `Step`/`Run` over sequences of events.
- `remote_io.dfy` (module `RemoteIO`) holds the class `RemoteAudioIO`. Its
  fields are the source's `_clients`, `_sample_queue`, `_is_listening`,
  `_is_playing` and `_stop_event`, plus the settings; `_vad_model` becomes the
  `vad` function. The model adds an `outbox` of what was handed to the
  transport and two ghost fields for the pending timers. `_ws_server`,
  `_ws_thread` and `_client_lock` have no counterpart. The step methods
  (`StartListening`, `StopListening`, `Broadcast`, `Connect`, `Receive`,
  `Disconnect`, `StopSpeaking`, `Play`, `StartSpeaking`, `OnPlaybackComplete`)
  update the fields in place, and each one's `ensures` equates `Abstract()`
  after the call with the matching `Session` function applied to
  `old(Abstract())`. `Emit` is the loop over the client set that the
  broadcasts and the close-all share; its `ensures` give the order it visited,
  what it appended to the outbox and which clients failed. `Create` builds a
  server, and the four queries only read. The two
  broadcasts and the close-all in `stop_listening` loop over the client set as
  the source does. The broadcasts collect the clients whose send failed, then
  discard them in a second loop; the close-all ignores failures and then
  clears the set.
- `properties.dfy` (module `SessionProperties`) states what the steps promise
  as lemmas over the `Session` functions.

Abstractions:

- A client is an opaque number.
- The VAD model is a function from a chunk to a score, fixed at construction.
- Scheduling a send (or a close) for a client can fail. Which clients fail is
  an input of each broadcast (`failing`). `asyncio.create_task` raises
  `RuntimeError` when no event loop runs in the calling thread. The loop runs
  in `_ws_thread`, so a call to `start_speaking`, `stop_speaking` or
  `stop_listening` from another thread is likely to fail for every client.
  That case is `failing` equal to the whole client set: every client is
  pruned, and `stop_listening` closes none.
- A set has no order, so each loop over the client set returns the order it
  used as a ghost out-parameter. The `Session` functions take that order as an
  argument, and the lemmas hold for every order that lists each client once
  (`Enumerates`).
- The playback timer is an event `TimerFired(t)` that the environment may
  fire for any pending timer `t`.

Three behaviours of the code are worth noting:

- `_on_playback_complete` clears `_is_playing` without checking which playback
  its timer belongs to. `StaleTimerEndsNewerPlayback` shows a timer left over from the
  first playback ending a second playback whose own timer is still pending.
- The inner handler catches only `JSONDecodeError`, `KeyError` and `ValueError`. Any
  other exception reaches the outer handler and ends the session: for example,
  a JSON value that is not an object has no `get`. This is `Inbound.Unhandled`,
  whose step returns `keepReading == false`.
- `start_speaking` with `sample_rate=0` and at least one client broadcasts,
  sets `_is_playing`, and then raises `ZeroDivisionError` at line 235, before
  any timer is scheduled. `StartSpeakingBroadcasts` states this case: playback
  stays on and no new timer is scheduled; only an older pending timer or
  `stop_speaking` can end it.

## Model

| member | source | states |
|---|---|---|
| `Protocol.Configure` | src/glados/audio_io/remote_io.py:38-49 | a missing threshold becomes 0.8 and a missing port 8765; a given threshold is accepted iff it lies in [0, 1] and is then kept as given (never clamped); refusal carries the ValueError message |
| `RemoteIO.RemoteAudioIO.Create` | src/glados/audio_io/remote_io.py:31-59 | construction fails exactly when `Configure` refuses; otherwise a fresh server with empty client set and queue, all flags clear, the resolved threshold and port, and the given VAD |
| `RemoteIO.RemoteAudioIO.constructor` | src/glados/audio_io/remote_io.py:51-59 | the initial state: no clients, empty queue, not listening, not playing, stop event clear, and the invariant holds |
| `RemoteIO.RemoteAudioIO.StartListening` | src/glados/audio_io/remote_io.py:67-71 | the new state is `Session.StartListening` of the old one and the invariant is kept; only the listening flag and the stop event may change |
| `RemoteIO.RemoteAudioIO.StopListening` | src/glados/audio_io/remote_io.py:159-172 | the new state is `Session.StopListening` of the old one, with the close loop's order enumerating the old client set |
| `RemoteIO.RemoteAudioIO.Emit` | src/glados/audio_io/remote_io.py:223-228 | the loop visits every client once. It appends the action for each client whose send was scheduled, in visiting order. It returns exactly the clients whose scheduling failed |
| `RemoteIO.RemoteAudioIO.Broadcast` | src/glados/audio_io/remote_io.py:222-232 | the new state is `Session.Broadcast` of the old one: frame handed over for each non-failing client, failing clients discarded afterwards, invariant kept |
| `RemoteIO.RemoteAudioIO.Connect` | src/glados/audio_io/remote_io.py:87-105 | admitted iff fewer than 10 clients were connected; new state is `Session.Connect` of the old one; the bound of 10 is kept |
| `RemoteIO.RemoteAudioIO.Receive` | src/glados/audio_io/remote_io.py:108-129 | state and loop continuation are those of `Session.Receive` with the server's own threshold and VAD |
| `RemoteIO.RemoteAudioIO.Disconnect` | src/glados/audio_io/remote_io.py:135-137 | the new state is `Session.Disconnect` of the old one; only the client set may change |
| `RemoteIO.RemoteAudioIO.StopSpeaking` | src/glados/audio_io/remote_io.py:272-288 | the new state is `Session.StopSpeaking` of the old one; when playing, the broadcast order enumerates the old client set |
| `RemoteIO.RemoteAudioIO.StartSpeaking` | src/glados/audio_io/remote_io.py:184-236 | `sampleRate` defaults to `None` and `text` to the empty string, as in the signature. New state and raised exception are those of `Session.StartSpeaking`. The stop broadcast's order enumerates the old clients. The audio broadcast's order enumerates the clients left after stopping |
| `RemoteIO.RemoteAudioIO.Play` | src/glados/audio_io/remote_io.py:202-235 | new state and raised exception are those of `Session.Play`: the part of `start_speaking` after the stop. The audio broadcast's order enumerates the clients at that point |
| `RemoteIO.RemoteAudioIO.OnPlaybackComplete` | src/glados/audio_io/remote_io.py:238-240 | the new state is `Session.PlaybackComplete`: playing is cleared whichever timer fired, and that timer is no longer pending |
| `RemoteIO.RemoteAudioIO.MeasurePercentageSpoken` | src/glados/audio_io/remote_io.py:252-260 | `(true, 100)` when not playing and `(false, 0)` when playing, whatever the arguments |
| `RemoteIO.RemoteAudioIO.CheckIfSpeaking` | src/glados/audio_io/remote_io.py:262-268 | the result is the playing flag |
| `RemoteIO.RemoteAudioIO.GetSampleQueue` | src/glados/audio_io/remote_io.py:290-297 | the result is the queue's current contents, oldest entry first |
| `RemoteIO.RemoteAudioIO.GetConnectedClients` | src/glados/audio_io/remote_io.py:299-305 | the result is the number of connected clients, and it never exceeds 10 |
| `SessionProperties.SurvivorsMembers` | src/glados/audio_io/remote_io.py:224-228 | the clients served by a broadcast are exactly those visited whose send did not fail |
| `SessionProperties.EnumeratesMembers` | src/glados/audio_io/remote_io.py:224 | one pass of a `for` loop over the client set visits exactly the clients in the set, none of them twice |
| `SessionProperties.NotifyAt` | src/glados/audio_io/remote_io.py:224-226 | the i-th action handed to the transport by a broadcast goes to the i-th client served |
| `SessionProperties.SurvivorsEnumerate` | src/glados/audio_io/remote_io.py:224-232 | filtering one pass over the client set by the failed sends visits each non-failing client exactly once |
| `SessionProperties.NotifyDeliversOnce` | src/glados/audio_io/remote_io.py:224-226 | handing the same action to each client of a once-each list reaches every one of them exactly once and nobody else |
| `SessionProperties.BroadcastDeliversOnce` | src/glados/audio_io/remote_io.py:222-232 | a broadcast only appends to the outbox. It sends the frame once to each client whose send does not fail, and to nobody else. It discards exactly the failing clients and changes nothing else |
| `SessionProperties.ConnectAdmission` | src/glados/audio_io/remote_io.py:87-105 | with fewer than 10 clients the client is added and sent exactly one `config{16000, 1024, "float32"}`. With 10 or more it gets `error{"Server at maximum capacity"}` and a close, and the set is unchanged. Nothing else changes |
| `SessionProperties.AdmitUpToCapacity` | src/glados/audio_io/remote_io.py:87-105 | while the total stays within 10, distinct new clients connecting in turn are all admitted, and each gets the config frame, in order |
| `SessionProperties.EleventhClientRejected` | src/glados/audio_io/remote_io.py:88-94 | after ten clients are admitted, an eleventh gets the capacity error and a close, and the count stays 10 |
| `SessionProperties.PingGetsOnePong` | src/glados/audio_io/remote_io.py:123-125 | a ping yields exactly one pong, to its sender only. The queue, the clients and the playing flag do not change, and the loop goes on |
| `SessionProperties.AudioIsGated` | src/glados/audio_io/remote_io.py:114-121 | non-empty audio appends exactly one entry `(data, score > threshold)`, strict comparison, at the end. Empty audio changes nothing, and its outcome does not depend on the VAD |
| `SessionProperties.IgnoredMessages` | src/glados/audio_io/remote_io.py:112-134 | unknown and malformed messages change nothing and the loop goes on; a message raising any other exception ends the session |
| `SessionProperties.StopEventEndsLoop` | src/glados/audio_io/remote_io.py:108-110 | once the stop event is set, the next message ends the loop and nothing changes |
| `SessionProperties.DisconnectIdempotent` | src/glados/audio_io/remote_io.py:135-137 | disconnecting removes only that client; repeating it, or disconnecting an absent client, changes nothing |
| `SessionProperties.DisconnectAfterStopListening` | src/glados/audio_io/remote_io.py:166-172 | a session that ends after `stop_listening` cleared the set changes nothing |
| `SessionProperties.StartListeningIdempotent` | src/glados/audio_io/remote_io.py:67-71 | starting sets listening and clears the stop event, nothing else; a second start changes nothing |
| `SessionProperties.StopListeningIdempotent` | src/glados/audio_io/remote_io.py:159-172 | when not listening, stopping changes nothing. Otherwise it clears listening, sets the stop event, and empties the set. It schedules one close per client whose close could be scheduled, and leaves queue and playback alone. A second stop changes nothing |
| `SessionProperties.StopSpeakingEffects` | src/glados/audio_io/remote_io.py:272-288 | a no-op when not playing. Otherwise it clears playing and sends `stop_playback` once to every non-failing client. It discards exactly the failing clients and changes nothing else |
| `SessionProperties.StartSpeakingRejectsEmptyAudio` | src/glados/audio_io/remote_io.py:192-193 | empty audio raises "Invalid audio data" before any state change |
| `SessionProperties.StartSpeakingWithoutAudience` | src/glados/audio_io/remote_io.py:198-209 | with no client left after stopping the current playback: nothing more is sent, playing is false, and no timer is scheduled |
| `SessionProperties.StartSpeakingBroadcasts` | src/glados/audio_io/remote_io.py:195-236 | with clients left, `audio_playback{data, rate (16000 if absent), text}` goes once to each non-failing client. Only the failing clients are discarded and playing is true. One new timer is scheduled, or, at rate 0, the call raises with no timer |
| `SessionProperties.SpeakThenStop` | src/glados/audio_io/remote_io.py:199-288 | `start_speaking` then `stop_speaking` leaves playing false, with `stop_playback` sent exactly once to every client still connected |
| `SessionProperties.StaleTimerEndsNewerPlayback` | src/glados/audio_io/remote_io.py:235-240 | a timer left over from a first playback, firing during a second one, clears playing while the second playback's timer is still pending |
| `SessionProperties.StopSpeakingKeepsInv` | src/glados/audio_io/remote_io.py:272-288 | `stop_speaking` keeps `Inv` |
| `SessionProperties.StartSpeakingKeepsInv` | src/glados/audio_io/remote_io.py:192-236 | `start_speaking` keeps `Inv` |
| `SessionProperties.StepPreservesInv` | src/glados/audio_io/remote_io.py:67-240 | every step keeps at most 10 clients, keeps the stop event clear while listening, and keeps pending timer numbers below the count started |
| `SessionProperties.RunPreservesInv` | src/glados/audio_io/remote_io.py:87-96 | along any sequence of steps from a valid state, the invariant holds and the client count never exceeds 10 |
| `SessionProperties.StepQueue` | src/glados/audio_io/remote_io.py:114-121 | only a non-empty audio message, received with the stop event clear, changes the queue, and it appends exactly its own entry |
| `SessionProperties.RunQueueAppendOnly` | src/glados/audio_io/remote_io.py:117-121 | along any sequence of steps, the entries already queued stay in place at the front of the queue |

## Left out

- The websockets server, the asyncio event loop, the `threading.Thread` that runs it, and the join in `stop_listening` (lines 74-75, 140-155, 174-180) are left out. They are I/O and concurrency. Each public operation is modelled as one atomic step.
- Sends and closes scheduled with `asyncio.create_task` are recorded in the outbox once scheduled. A send that fails later, in the event loop, is not seen by the broadcast. It surfaces as the session ending (`Disconnect`).
- `threading.Timer` and the float duration `len(audio_data) / sample_rate` are left out, except for the division by zero at rate 0. Timing is replaced by the `TimerFired` event, which may fire a pending timer at any moment.
- JSON encoding and decoding and numpy conversion are left out. Inbound messages are the `Inbound` datatype, already classified; outbound frames are the `Frame` datatype. Samples are reals: float32 rounding is not modelled.
- `start_speaking`'s `isinstance(audio_data, np.ndarray)` check has no counterpart: a typed argument cannot have the wrong type.
- The VAD model (`VAD` from `.vad`) is not part of this model. It is the `vad` function given at construction, and its scores are arbitrary reals.
- Consuming the queue (`queue.Queue.get` by the recognizer) happens outside this object and is not modelled. The queue here only grows.
- Logging is left out.
- `get_audio_system` in `src/glados/audio_io/__init__.py` is a string dispatch over constructors and is not modelled. `SoundDeviceAudioIO`, one of those constructors, is not part of this model.
- `examples/remote_audio_client.py` (microphone capture, client-side websocket I/O) is not modelled.
- `RemoteIO.RemoteAudioIO.Connect`: a config send that fails right after admission is not part of the step. The client stays in the set until the `finally` of its session runs, which is the separate `Disconnect` step.
- Interleavings inside an operation are not modelled, because each public operation is one atomic step. The source takes the client lock only around parts of some operations, and several take it not at all. This hides:
  - a connect or disconnect between the stop broadcast of `start_speaking` (inside `stop_speaking`) and its audio broadcast (lines 199-205); the model's audio broadcast iterates exactly the clients left by the stop broadcast;
  - a timer firing between line 202, which sets `_is_playing`, and the broadcast at 205;
  - a concurrent call between the unlocked test and clear of `_is_playing` in `stop_speaking` (lines 272-273), or between `stop_listening` setting its flags (162-163) and taking the lock.
