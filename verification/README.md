# Streaming session of the dictation main process

This project models the Electron main process of a push-to-talk dictation tool.
The process holds one WebSocket connection to a streaming speech-recognition
service and keeps it alive with a 30-second heartbeat. When the socket closes it
reconnects after 3 seconds. A global `Alt+\`` shortcut starts a recognition
task (`run-task`) or finishes it (`finish-task`). While the socket is OPEN, the
renderer's PCM chunks are forwarded as binary frames. The text of every
sentence-final transcription is copied to the clipboard.

The four process-wide variables of `src/main/index.js` are `ws`,
`isRecording`, `heartbeatTimer` and `currentTaskId`. Together they form one
immutable `Session`. Every callback is a pure function from a session to the
next session plus the side effects it performs, in order. Those effects are
sends, timers, clipboard writes, renderer signals, reports and uncaught
exceptions.

The callbacks are:

- the socket's `open`, `message`, `close` and `error` handlers;
- a heartbeat tick and the reconnect timeout;
- the shortcut and the audio IPC;
- `will-quit`.

`Session.Step` dispatches one event to its callback, and `Trace.Run` folds a
sequence of events. `Trace.Enabled` states what the environment can deliver in
each state:

- a socket opens once, from CONNECTING;
- it closes once;
- timers fire only while they exist;
- the uuid generator returns uuid text.

Modules:

- `Basics`: `Option`, and `Collect`, which projects a sequence through a partial map.
- `TaskIds`: the task id derived from a uuid (hyphens removed, at most 32 characters), and its round trip.
- `Protocol`: outbound control messages and frames; inbound JSON shapes and how the `message` handler's `switch` reads them.
- `Session`: the state, the effects and every callback.
- `Trace`: the environment, the reachable-state invariant and properties of whole runs.
- `Scenarios`: short concrete runs, including the ones where the code departs from the obvious ideal.

The model follows the code as written. In these places the code does less than one might expect:

- A `close` does not clear `currentTaskId` or `isRecording`. A task survives a disconnect, and the next press sends `finish-task` for it on the new socket (`Scenarios.TaskSurvivesReconnect`).
- `task-failed` and `task-finished` from the service only log. The task stays held (`Scenarios.ServiceEndingTaskKeepsIt`).
- `sendRunTask` and `sendFinishTask` do not check the ready state before `ws.send`, and `sendRunTask` does not refuse a second task. While the socket is CONNECTING, the `ws` library's `send` throws. The hotkey has already flipped `isRecording`, so:
  - a starting press records the task, but `record-start` never reaches the renderer (`Scenarios.RunTaskThrowsWhileConnecting`);
  - a finishing press clears `isRecording`, but the id stays held and `record-stop` never reaches the renderer (`Scenarios.FinishThrowsWhileReconnecting`).
- The shortcut's alternation is what keeps tasks from overlapping (`Trace.TaskControlsAlternate`). It holds for the frames handed to `ws.send` even when a send throws.
- The heartbeat is cleared on `close` but not when the socket starts closing. A tick in CLOSING sends nothing because of the OPEN check.

## Model

| member | source | states |
|---|---|---|
| TaskIds.StripHyphens | src/main/index.js:98 | the result has no hyphen, is never longer than the input, and contains a character exactly when the input does and it is not a hyphen |
| TaskIds.StripHyphensOfChar | src/main/index.js:98 | on one character, a hyphen is deleted and any other character is kept |
| TaskIds.StripHyphensAppend | src/main/index.js:98 | deleting hyphens distributes over concatenation; with the one-character case this fixes the result as the input with every hyphen deleted, the rest in order and in number |
| TaskIds.TaskIdFromUuid | src/main/index.js:98 | the id is a prefix of the hyphen-free uuid text and hyphen-free; it is the first 32 characters of that text when there are at least 32, and the whole text otherwise |
| TaskIds.UuidRoundTrip | src/main/index.js:98 | for every canonical uuid text the task id is 32 lowercase hex digits, and putting the hyphens back gives the uuid again |
| TaskIds.DistinctUuidsGiveDistinctIds | src/main/index.js:98 | distinct uuids from the generator give distinct task ids |
| Session.InitWebSocket | src/main/index.js:24-28 | a new CONNECTING socket to the service URL replaces `ws`; no other variable changes |
| Session.OnOpen | src/main/index.js:30-40 | the socket is OPEN and a 30000 ms heartbeat is armed; an interval that was already armed keeps running unreferenced; the task and recording state are untouched |
| Session.OnHeartbeatTick | src/main/index.js:34-39 | a tick sends at most one frame, a zero-length binary one, and sends it exactly when the socket is OPEN; the state is unchanged |
| Session.OnMessage | src/main/index.js:42-81 | no inbound frame changes the session or sends anything; the clipboard receives exactly the text of a sentence-final `result-generated` transcription; a malformed frame only reports the parse failure |
| Session.OnError | src/main/index.js:91-93 | a socket error changes nothing, sends nothing and schedules no reconnect |
| Session.OnClose | src/main/index.js:83-89 | after a close the socket is CLOSED and no heartbeat is armed; exactly one reconnect of 3000 ms is scheduled; the interval is cleared exactly when one was ever set; the task and recording state survive |
| Session.OnReconnectTimer | src/main/index.js:88 | the reconnect timeout opens a new CONNECTING socket and consumes one pending reconnect; nothing else changes |
| Session.SendRunTask | src/main/index.js:97-120 | the new task id is recorded first, whatever happens next; with a socket, exactly one text frame is handed to `ws.send`, with header (`run-task`, that id, `duplex`) and parameters 16000 Hz, `pcm`, transcription enabled; the call throws exactly when `ws` is null (before the send) or CONNECTING (in it) |
| Session.SendFinishTask | src/main/index.js:123-140 | without a truthy task id it only warns and changes nothing; with one and a socket, exactly one `finish-task` naming that id with `duplex` streaming is handed to `ws.send`; the id is cleared exactly when the send returns, and a null or CONNECTING socket throws and leaves the session unchanged |
| Session.FinishTaskTwice | src/main/index.js:123-140 | one call hands at most one `finish-task` to `ws.send`; when it returns, a second call sends nothing more, does not throw and leaves the session as the first left it |
| Session.SendAudioChunk | src/main/index.js:142-149 | the chunk goes out unchanged as the only frame exactly when the socket is OPEN; otherwise it is reported dropped; the state is unchanged |
| Session.OnHotkey | src/main/index.js:171-186 | the press flips `isRecording`, even when it then throws, and changes nothing but it and the task id; from idle it hands `run-task` for the new id to `ws.send` and then signals `record-start`; from recording it hands `finish-task` for the held id and then signals `record-stop` and forgets the id, or only warns when no task is held; a CONNECTING socket throws after the send and a null one before it, so no signal is sent, and a finishing press keeps the id |
| Session.OnAppReady | src/main/index.js:166-171 | readiness opens the first socket and registers the shortcut; nothing else changes |
| Session.OnWillQuit | src/main/index.js:195-201 | quitting first unregisters the shortcuts, then closes the socket if there is one, and last clears the interval exactly when one was ever set; afterwards no heartbeat is armed and the socket is CLOSING or CLOSED; nothing is sent and no reconnect is scheduled by the handler |
| Trace.ReachableKeepsInv | src/main/index.js:18-21 | in every session reached by a feasible run: at most one reconnect is pending, and exactly one while CLOSED; no stray heartbeat runs, one is armed whenever the socket is OPEN, and only while it is OPEN or CLOSING; a task id is held whenever recording, and every held id is 32 lowercase hex digits |
| Trace.StepKeepsInv | src/main/index.js:18-21 | every enabled event preserves that invariant |
| Trace.HotkeyInReachableSession | src/main/index.js:171-186 | in a reachable session a press hands `run-task` for the new id to `ws.send`, or `finish-task` for the held id; then it signals `record-start` or `record-stop` (a finish also forgets the id), except while CONNECTING, where it throws instead and a finish keeps the id; the warning branch of `sendFinishTask` is never taken |
| Trace.HeartbeatInReachableSession | src/main/index.js:34-39 | in a reachable session every tick comes from the one armed interval and sends a heartbeat exactly when OPEN, and nothing while CLOSING |
| Trace.CloseInReachableSession | src/main/index.js:83-89 | in a reachable session a close leaves no interval running, exactly one reconnect pending and the task id as it was |
| Trace.RunReplays | src/main/index.js:97-140 | replaying the task controls handed to `ws.send` against the service's one-open-task rule never fails, and ends with the task the session regards as running (its id while recording, none otherwise) |
| Trace.TaskControlsAlternate | src/main/index.js:171-186 | over every feasible run from start, `run-task` and `finish-task` strictly alternate, starting with `run-task`, and each finish names the task just started; the session is recording exactly when the count is odd |
| Trace.StepPublishes | src/main/index.js:57-64 | in every step the clipboard receives exactly what the event's frame publishes under the sentence-final policy |
| Trace.OnlyFinalResultsReachClipboard | src/main/index.js:57-64 | over any run, the clipboard receives exactly the sentence-final transcription texts of the inbound frames, in arrival order |
| Trace.StepReconnects | src/main/index.js:88 | a step schedules one 3000 ms reconnect exactly when the event is a close, and none otherwise |
| Trace.OneReconnectPerClose | src/main/index.js:83-89 | over any run, the scheduled reconnects are exactly one 3000 ms timeout per close, in order |
| Trace.AudioRelayedInOrder | src/main/index.js:142-149 | streaming chunks leaves the session unchanged; on an OPEN socket every chunk goes out once, unchanged and in order; otherwise every chunk is reported dropped once |
| Scenarios.StartupConnects | src/main/index.js:166-171 | readiness and then the socket's `open` give an OPEN, idle session with the heartbeat armed |
| Scenarios.ResultsPublishFinal | src/main/index.js:57-64 | two partial results and then a final one publish only the final text and leave the session unchanged |
| Scenarios.ResultStep | src/main/index.js:57-64 | from any session, one `result-generated` frame with a transcription changes nothing and writes its text to the clipboard exactly when it ends a sentence |
| Scenarios.PressFromIdle | src/main/index.js:171-179 | a press on the connected idle session starts recording the uuid's task, hands its `run-task` to `ws.send`, then signals `record-start` |
| Scenarios.PressWhileRecording | src/main/index.js:180-185 | a press while recording a task on an OPEN socket hands `finish-task` for it to `ws.send`, forgets it and signals `record-stop`, ending idle |
| Scenarios.UtteranceRun | src/main/index.js:171-191 | one press, audio, results and a second press produce `run-task`, the audio, the clipboard write and `finish-task` for the same id, ending idle |
| Scenarios.OneUtterance | src/main/index.js:171-191 | on a healthy connection one utterance sends `run-task`, the chunks in order and `finish-task` for the same id, copies only the final text, and returns to idle |
| Scenarios.TaskSurvivesReconnect | src/main/index.js:83-89 | a task started before a disconnect is still held after the reconnect, and the next press finishes it on the new socket |
| Scenarios.RunTaskThrowsWhileConnecting | src/main/index.js:97-120 | a press while the first socket is CONNECTING records the task and sets `isRecording`, hands `run-task` to `ws.send`, and then throws instead of signalling `record-start` |
| Scenarios.PressThenReconnect | src/main/index.js:83-89 | a press, a close and the reconnect timeout leave a CONNECTING socket with the task still held while recording |
| Scenarios.FinishThrowsWhileReconnecting | src/main/index.js:123-140 | a finishing press while the reconnected socket is CONNECTING clears `isRecording`, hands `finish-task` to `ws.send` and throws; the id stays held and no `record-stop` is signalled |
| Scenarios.TaskEndLeavesSession | src/main/index.js:66-72 | from any session, a `task-failed` or `task-finished` frame changes no session state |
| Scenarios.ServiceEndingTaskKeepsIt | src/main/index.js:66-72 | after `task-failed` and `task-finished` the task is still held, and the next press sends `finish-task` for it |

## Left out

- The JSON text of frames: outbound messages are the structured values `JSON.stringify` would serialise. Inbound frames are the values `JSON.parse` produced, or `Malformed` when it threw. The empty `input` objects have no field.
- `ws.send` on a CLOSING or CLOSED socket: the `ws` library discards the frame without throwing. The call is still one `Send` effect, a frame handed to `ws.send`. A send while CONNECTING is modelled: it throws (`Throw(SocketNotOpen)`).
- TLS, the `Authorization` header, the API key from `.env`, its masking in the log line and the missing-key warning: configuration and logging with no effect on the session.
- Informational `console.warn` lines. Only the warnings and errors on the no-op and failure paths are kept, as `Report` effects.
- Window creation and page loading (`createMainWindow`): not part of the session logic.
- Real time: the heartbeat interval and the reconnect timeout are events (`HeartbeatTick`, `ReconnectTimer`) that the environment delivers while the timer exists.
- The uuid generator: an oracle whose output arrives with each press. Properties that need it assume only canonical lowercase uuid text.
- What the host does with an uncaught exception (a TypeError, or the `ws` error for a send while CONNECTING). The callback stops there (a `Throw` effect) and later events are still delivered.
- Inbound JSON values of unusual shape, where headers and payloads are taken to be an object or absent and `sentence_end` a boolean:
  - a primitive `header` or `payload` (`payload: 5`): in JavaScript, reading a property of it gives `undefined` rather than throwing, so a primitive payload writes nothing, while the model reads it as absent and throws;
  - a `sentence_end` or `transcription` that is truthy without being a boolean or an object;
  - a `transcription` without `text`, where `clipboard.writeText(undefined)` is called.
- The AudioWorklet processor, the renderer page and the preload bridge: they produce the PCM chunks and the IPC messages the model takes as input.
- Session.OnWillQuit: the close handshake that `ws.close()` starts is not followed through inside the handler; its later `close` event is the ordinary `SocketClosed` event, which schedules a reconnect as the code does.
- StripHyphens: its own contract fixes the characters kept but not their order or count; `StripHyphensOfChar` and `StripHyphensAppend` state those.
