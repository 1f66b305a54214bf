/**
 * The streaming session of the main process: the four pieces of process-wide
 * state (the socket handle and its ready state, `isRecording`, `heartbeatTimer`
 * and `currentTaskId`) as one immutable `Session`, and every callback that
 * touches them as a pure step from a session to the next session plus the
 * side effects the callback performs, in the order it performs them.
 */
module Session {
  import opened Basics
  import opened TaskIds
  import opened Protocol

  const ServiceUrl: string := "wss://dashscope.aliyuncs.com/api-ws/v1/inference/"
  const HeartbeatIntervalMs: nat := 30000
  const ReconnectDelayMs: nat := 3000

  /** `WebSocket.readyState` of the current socket object. */
  datatype ReadyState = Connecting | Open | Closing | Closed

  /**
   * The `heartbeatTimer` variable: `null`, a running interval, or the handle of
   * an interval already cleared (the code never resets it to `null`).
   */
  datatype HeartbeatTimer = Unset | Armed | Cleared

  datatype Session = Session(
    socket: Option<ReadyState>,    // `ws`: None while it is still `null`
    isRecording: bool,
    heartbeatTimer: HeartbeatTimer,
    strayIntervals: nat,           // heartbeat intervals still running but no longer held in `heartbeatTimer`
    currentTaskId: Option<string>,
    pendingReconnects: nat,        // `setTimeout(initWebSocket, 3000)` calls not yet fired
    hotkeyRegistered: bool)        // the `Alt+\`` shortcut is registered

  /** The state at process start, before `app.whenReady` resolves. */
  const Boot: Session := Session(None, false, Unset, 0, None, 0, false)

  /** The IPC message sent to the renderer by the hotkey callback. */
  datatype RendererSignal = RecordStart | RecordStop

  /** The `console.warn`/`console.error` reports on the error and no-op paths. */
  datatype Diagnostic =
    | ParseFailed
    | ChunkDropped
    | NoTaskToFinish
    | TaskFailedReport(errorMessage: Option<string>)
    | ServiceErrorReport(errorMessage: Option<string>)
    | UnknownEventReport(event: Option<string>)
    | SocketErrorReport

  /**
   * Why a callback stopped with an uncaught exception: a TypeError on a `null`
   * `ws` or a missing `header`/`payload`, or the `ws` library's error for a
   * `send` while the socket is still CONNECTING.
   */
  datatype Fault = SocketIsNull | HeaderIsMissing | PayloadIsMissing | SocketNotOpen

  datatype Effect =
    | OpenSocket(url: string)              // `new WebSocket(WS_URL, …)`
    | Send(frame: Frame)                   // `ws.send(…)`
    | CloseSocket                          // `ws.close()`
    | ArmHeartbeat(periodMs: nat)          // `setInterval(…, HEARTBEAT_INTERVAL)`
    | ClearHeartbeat                       // `clearInterval(heartbeatTimer)`
    | ScheduleReconnect(delayMs: nat)      // `setTimeout(initWebSocket, 3000)`
    | WriteClipboard(text: string)         // `clipboard.writeText(…)`
    | Notify(signal: RendererSignal)       // `mainWindow.webContents.send(…)`
    | UnregisterHotkeys                    // `globalShortcut.unregisterAll()`
    | Report(diagnostic: Diagnostic)
    | Throw(fault: Fault)                  // the callback ends here with an uncaught exception

  /** The session after a callback and the effects it performed, in order. */
  datatype Outcome = Outcome(session: Session, effects: seq<Effect>)

  // ------------------------------------------------------------ projections

  function SentFrame(e: Effect): Option<Frame> {
    if e.Send? then Some(e.frame) else None
  }

  function ClipboardText(e: Effect): Option<string> {
    if e.WriteClipboard? then Some(e.text) else None
  }

  function SignalOf(e: Effect): Option<RendererSignal> {
    if e.Notify? then Some(e.signal) else None
  }

  function ReconnectDelay(e: Effect): Option<nat> {
    if e.ScheduleReconnect? then Some(e.delayMs) else None
  }

  /** The task control a sent text frame carries, as the service reads it. */
  function TaskControlOf(e: Effect): Option<TaskControl> {
    if e.Send? && e.frame.TextFrame? then ControlOf(e.frame.message) else None
  }

  /** The frames handed to `ws.send`, in order. */
  function Sent(effects: seq<Effect>): seq<Frame> {
    Collect(effects, SentFrame)
  }

  predicate Aborted(effects: seq<Effect>) {
    |effects| > 0 && effects[|effects| - 1].Throw?
  }

  /** `ws && ws.readyState === WebSocket.OPEN` */
  predicate SocketIsOpen(s: Session) {
    s.socket == Some(Open)
  }

  /**
   * `ws.send` returns to its caller: there is a socket and it has left
   * CONNECTING. On CLOSING and CLOSED the library discards the frame quietly.
   */
  predicate SendReturns(s: Session) {
    s.socket.Some? && s.socket.value != Connecting
  }

  /** `currentTaskId` is truthy: present and not the empty string. */
  predicate HasTask(s: Session) {
    s.currentTaskId.Some? && s.currentTaskId.value != ""
  }

  // ------------------------------------------------------- socket callbacks

  /** `initWebSocket`: a new socket object replaces `ws`; nothing else changes. */
  function InitWebSocket(s: Session): (r: Outcome)
    ensures r.session.socket == Some(Connecting)
    ensures r.session == s.(socket := r.session.socket)
    ensures r.effects == [OpenSocket(ServiceUrl)]
  {
    Outcome(s.(socket := Some(Connecting)), [OpenSocket(ServiceUrl)])
  }

  /**
   * The socket reaches OPEN and its `open` handler arms the heartbeat. A
   * previously armed interval is overwritten, not cleared, so it keeps running.
   */
  function OnOpen(s: Session): (r: Outcome)
    ensures SocketIsOpen(r.session) && r.session.heartbeatTimer == Armed
    ensures r.session.strayIntervals == s.strayIntervals + (if s.heartbeatTimer == Armed then 1 else 0)
    ensures r.session.currentTaskId == s.currentTaskId && r.session.isRecording == s.isRecording
    ensures r.session.pendingReconnects == s.pendingReconnects
    ensures r.session.hotkeyRegistered == s.hotkeyRegistered
    ensures r.effects == [ArmHeartbeat(30000)]
  {
    var stray := if s.heartbeatTimer == Armed then s.strayIntervals + 1 else s.strayIntervals;
    Outcome(s.(socket := Some(Open), heartbeatTimer := Armed, strayIntervals := stray),
            [ArmHeartbeat(HeartbeatIntervalMs)])
  }

  /** One firing of a heartbeat interval: a zero-length frame, only while OPEN. */
  function OnHeartbeatTick(s: Session): (r: Outcome)
    ensures r.session == s
    ensures |Sent(r.effects)| <= 1
    ensures Sent(r.effects) != [] <==> SocketIsOpen(s)
    ensures forall f :: f in Sent(r.effects) ==> f == BinaryFrame([])
  {
    if SocketIsOpen(s) then Outcome(s, [Send(HeartbeatFrame)]) else Outcome(s, [])
  }

  /**
   * The `message` handler. No branch assigns any session variable; the only
   * outward effect besides reports is the clipboard write of a sentence-final
   * transcription.
   */
  function OnMessage(s: Session, data: Inbound): (r: Outcome)
    ensures r.session == s
    ensures Sent(r.effects) == [] && Collect(r.effects, ReconnectDelay) == []
    ensures Collect(r.effects, TaskControlOf) == []
    ensures Collect(r.effects, ClipboardText) == OptionToSeq(FinalText(data))
    ensures data.Malformed? ==> r.effects == [Report(ParseFailed)]
  {
    match Decode(data)
    case Unparsable => Outcome(s, [Report(ParseFailed)])
    case HeaderMissing => Outcome(s, [Throw(HeaderIsMissing)])
    case TaskStarted => Outcome(s, [])
    case ResultGenerated(transcription) =>
      if transcription.Some? && transcription.value.sentenceEnd
      then Outcome(s, [WriteClipboard(transcription.value.text)])
      else Outcome(s, [])
    case ResultPayloadMissing => Outcome(s, [Throw(PayloadIsMissing)])
    case TaskFinished => Outcome(s, [])
    case TaskFailed(msg) => Outcome(s, [Report(TaskFailedReport(msg))])
    case ServiceError(msg) => Outcome(s, [Report(ServiceErrorReport(msg))])
    case UnknownEvent(name) => Outcome(s, [Report(UnknownEventReport(name))])
  }

  /** The `error` handler only logs; reconnection is left to the `close` handler. */
  function OnError(s: Session): (r: Outcome)
    ensures r.session == s
    ensures Sent(r.effects) == [] && Collect(r.effects, ReconnectDelay) == []
  {
    Outcome(s, [Report(SocketErrorReport)])
  }

  /**
   * The remote side starts the closing handshake: `readyState` becomes CLOSING.
   * No handler of the program runs.
   */
  function OnPeerClosing(s: Session): (r: Outcome)
    ensures SocketIsOpen(s) ==> r.session.socket == Some(Closing)
    ensures !SocketIsOpen(s) ==> r.session == s
    ensures r.session == s.(socket := r.session.socket)
    ensures r.effects == []
  {
    if SocketIsOpen(s) then Outcome(s.(socket := Some(Closing)), []) else Outcome(s, [])
  }

  /**
   * The socket reaches CLOSED and its `close` handler clears the heartbeat and
   * schedules exactly one reconnect. As written it leaves `currentTaskId` and
   * `isRecording` alone, so a task survives the disconnect.
   */
  function OnClose(s: Session): (r: Outcome)
    ensures r.session.socket == Some(Closed)
    ensures r.session.heartbeatTimer != Armed
    ensures r.session.pendingReconnects == s.pendingReconnects + 1
    ensures Collect(r.effects, ReconnectDelay) == [3000]
    ensures Sent(r.effects) == []
    ensures (ClearHeartbeat in r.effects) <==> s.heartbeatTimer != Unset
    ensures r.session.currentTaskId == s.currentTaskId && r.session.isRecording == s.isRecording
    ensures r.session.strayIntervals == s.strayIntervals
    ensures r.session.hotkeyRegistered == s.hotkeyRegistered
  {
    var clear := if s.heartbeatTimer != Unset then [ClearHeartbeat] else [];
    var timer := if s.heartbeatTimer != Unset then Cleared else Unset;
    Outcome(s.(socket := Some(Closed), heartbeatTimer := timer,
               pendingReconnects := s.pendingReconnects + 1),
            clear + [ScheduleReconnect(ReconnectDelayMs)])
  }

  /**
   * The reconnect timeout fires and calls `initWebSocket` again. The count of
   * pending timeouts is the model's bookkeeping; it is only ever zero here in
   * runs the environment cannot produce.
   */
  function OnReconnectTimer(s: Session): (r: Outcome)
    ensures s.pendingReconnects > 0 ==> r.session.pendingReconnects == s.pendingReconnects - 1
    ensures r.session.socket == Some(Connecting)
    ensures r.session == s.(socket := r.session.socket, pendingReconnects := r.session.pendingReconnects)
    ensures r.effects == [OpenSocket(ServiceUrl)]
  {
    var pending := if s.pendingReconnects > 0 then s.pendingReconnects - 1 else 0;
    InitWebSocket(s.(pendingReconnects := pending))
  }

  // -------------------------------------------------------- task controller

  /**
   * `sendRunTask`: records the new task id first, then hands `run-task` to
   * `ws.send` without looking at the ready state. A `null` socket stops it with
   * a TypeError before the send, a CONNECTING one with the library's error
   * after it; either way the id is already recorded.
   */
  function SendRunTask(s: Session, uuid: string): (r: Outcome)
    ensures r.session == s.(currentTaskId := Some(TaskIdFromUuid(uuid)))
    ensures s.socket.Some? ==>
      && |Sent(r.effects)| == 1
      && Sent(r.effects)[0].TextFrame?
      && Sent(r.effects)[0].message.header == ControlHeader("run-task", TaskIdFromUuid(uuid), "duplex")
      && Sent(r.effects)[0].message.payload.RunTaskPayload?
      && Sent(r.effects)[0].message.payload.parameters == AsrParameters(16000, "pcm", true)
    ensures s.socket.None? ==> Sent(r.effects) == []
    ensures Aborted(r.effects) <==> !SendReturns(s)
  {
    var id := TaskIdFromUuid(uuid);
    var s' := s.(currentTaskId := Some(id));
    if s.socket.None? then Outcome(s', [Throw(SocketIsNull)])
    else if s.socket == Some(Connecting) then Outcome(s', [Send(TextFrame(RunTaskMessage(id))), Throw(SocketNotOpen)])
    else Outcome(s', [Send(TextFrame(RunTaskMessage(id)))])
  }

  /**
   * `sendFinishTask`: without a (truthy) current task it only warns; with one
   * it hands a single `finish-task` naming that task to `ws.send` and, if the
   * send returns, forgets the id. A send that throws leaves the id held.
   */
  function SendFinishTask(s: Session): (r: Outcome)
    ensures r.session == s.(currentTaskId := r.session.currentTaskId)
    ensures !HasTask(s) ==> r.session == s && r.effects == [Report(NoTaskToFinish)]
    ensures HasTask(s) && s.socket.Some? ==>
      Sent(r.effects) == [TextFrame(ControlMessage(ControlHeader("finish-task", s.currentTaskId.value, "duplex"),
                                                   FinishTaskPayload))]
    ensures HasTask(s) && s.socket.None? ==> Sent(r.effects) == []
    ensures HasTask(s) ==> (r.session.currentTaskId.None? <==> SendReturns(s))
    ensures HasTask(s) && !SendReturns(s) ==> r.session == s
    ensures Aborted(r.effects) <==> HasTask(s) && !SendReturns(s)
  {
    if !HasTask(s) then Outcome(s, [Report(NoTaskToFinish)])
    else if s.socket.None? then Outcome(s, [Throw(SocketIsNull)])
    else
      var frame := Send(TextFrame(FinishTaskMessage(s.currentTaskId.value)));
      if s.socket == Some(Connecting) then Outcome(s, [frame, Throw(SocketNotOpen)])
      else Outcome(s.(currentTaskId := None), [frame])
  }

  /**
   * `sendFinishTask(); sendFinishTask()` as two statements: the second runs
   * only when the first returned. Between them at most one `finish-task` is
   * handed to `ws.send`, and the second call changes nothing.
   */
  lemma FinishTaskTwice(s: Session)
    ensures
      var first := SendFinishTask(s);
      var second := SendFinishTask(first.session);
      && |Sent(first.effects)| <= 1
      && (!Aborted(first.effects) ==>
            && |Sent(first.effects + second.effects)| <= 1
            && second.session == first.session
            && !Aborted(second.effects))
  {
    var first := SendFinishTask(s);
    var second := SendFinishTask(first.session);
    CollectAppend(first.effects, second.effects, SentFrame);
  }

  /** `sendAudioChunk`: forwards the chunk unchanged while OPEN, otherwise drops it. */
  function SendAudioChunk(s: Session, chunk: seq<byte>): (r: Outcome)
    ensures r.session == s
    ensures SocketIsOpen(s) <==> Sent(r.effects) == [BinaryFrame(chunk)]
    ensures !SocketIsOpen(s) ==> r.effects == [Report(ChunkDropped)]
  {
    if SocketIsOpen(s) then Outcome(s, [Send(BinaryFrame(chunk))])
    else Outcome(s, [Report(ChunkDropped)])
  }

  /** Runs `more` after `r`, unless `r` ended with an uncaught exception. */
  function AndThen(r: Outcome, more: seq<Effect>): Outcome {
    if Aborted(r.effects) then r else r.(effects := r.effects + more)
  }

  /**
   * The `Alt+\`` callback: flips `isRecording`, then starts a task and tells the
   * renderer to record, or finishes the task and tells it to stop. The flip
   * happens first, so it stands even when the send throws and the renderer is
   * never told.
   */
  function OnHotkey(s: Session, uuid: string): (r: Outcome)
    ensures r.session.isRecording == !s.isRecording
    ensures r.session == s.(isRecording := r.session.isRecording, currentTaskId := r.session.currentTaskId)
    ensures !s.isRecording ==> r.session.currentTaskId == Some(TaskIdFromUuid(uuid))
    ensures !s.isRecording && SendReturns(s) ==>
      r.effects == [Send(TextFrame(RunTaskMessage(TaskIdFromUuid(uuid)))), Notify(RecordStart)]
    ensures !s.isRecording && s.socket == Some(Connecting) ==>
      r.effects == [Send(TextFrame(RunTaskMessage(TaskIdFromUuid(uuid)))), Throw(SocketNotOpen)]
    ensures !s.isRecording && s.socket.None? ==> r.effects == [Throw(SocketIsNull)]
    ensures s.isRecording && HasTask(s) && SendReturns(s) ==>
      && r.session.currentTaskId.None?
      && r.effects == [Send(TextFrame(FinishTaskMessage(s.currentTaskId.value))), Notify(RecordStop)]
    ensures s.isRecording && HasTask(s) && s.socket == Some(Connecting) ==>
      && r.session.currentTaskId == s.currentTaskId
      && r.effects == [Send(TextFrame(FinishTaskMessage(s.currentTaskId.value))), Throw(SocketNotOpen)]
    ensures s.isRecording && HasTask(s) && s.socket.None? ==>
      && r.session.currentTaskId == s.currentTaskId
      && r.effects == [Throw(SocketIsNull)]
    ensures s.isRecording && !HasTask(s) ==>
      && r.session == s.(isRecording := false)
      && r.effects == [Report(NoTaskToFinish), Notify(RecordStop)]
  {
    var s' := s.(isRecording := !s.isRecording);
    if s'.isRecording then AndThen(SendRunTask(s', uuid), [Notify(RecordStart)])
    else AndThen(SendFinishTask(s'), [Notify(RecordStop)])
  }

  // ------------------------------------------------------------- app events

  /** `app.whenReady`: connect, then register the hotkey (window creation is not modelled). */
  function OnAppReady(s: Session): (r: Outcome)
    ensures r.session.socket == Some(Connecting) && r.session.hotkeyRegistered
    ensures r.session == s.(socket := r.session.socket, hotkeyRegistered := true)
    ensures r.effects == [OpenSocket(ServiceUrl)]
  {
    var r := InitWebSocket(s);
    r.(session := r.session.(hotkeyRegistered := true))
  }

  /** `ws.close()` as the WebSocket API defines it: CONNECTING and OPEN become CLOSING. */
  function CloseRequested(state: ReadyState): ReadyState {
    if state == Connecting || state == Open then Closing else state
  }

  /**
   * The `will-quit` handler, in its order: unregister the shortcut, close the
   * socket, clear the heartbeat.
   */
  function OnWillQuit(s: Session): (r: Outcome)
    ensures !r.session.hotkeyRegistered
    ensures r.session.heartbeatTimer != Armed
    ensures r.session.socket.None? <==> s.socket.None?
    ensures r.session.socket.Some? ==> r.session.socket.value == Closing || r.session.socket.value == Closed
    ensures r.session.currentTaskId == s.currentTaskId && r.session.isRecording == s.isRecording
    ensures r.session.pendingReconnects == s.pendingReconnects
    ensures Sent(r.effects) == [] && Collect(r.effects, ReconnectDelay) == []
    ensures |r.effects| >= 1 && r.effects[0] == UnregisterHotkeys
    ensures s.socket.Some? ==> |r.effects| >= 2 && r.effects[1] == CloseSocket
    ensures (ClearHeartbeat in r.effects) <==> s.heartbeatTimer != Unset
    ensures s.heartbeatTimer != Unset ==> r.effects[|r.effects| - 1] == ClearHeartbeat
  {
    var close := if s.socket.Some? then [CloseSocket] else [];
    var clear := if s.heartbeatTimer != Unset then [ClearHeartbeat] else [];
    var socket := if s.socket.Some? then Some(CloseRequested(s.socket.value)) else None;
    var timer := if s.heartbeatTimer != Unset then Cleared else Unset;
    Outcome(s.(hotkeyRegistered := false, socket := socket, heartbeatTimer := timer),
            [UnregisterHotkeys] + close + clear)
  }

  // --------------------------------------------------------------- dispatch

  /** Everything that can make a callback of the main process run. */
  datatype Event =
    | AppReady
    | HotkeyPressed(uuid: string)     // the uuid oracle's next output, consumed if the press starts a task
    | SocketOpened
    | MessageReceived(data: Inbound)
    | SocketError
    | PeerClosing
    | SocketClosed
    | AudioChunk(chunk: seq<byte>)
    | HeartbeatTick
    | ReconnectTimer
    | WillQuit

  function Step(s: Session, e: Event): Outcome {
    match e
    case AppReady => OnAppReady(s)
    case HotkeyPressed(uuid) => OnHotkey(s, uuid)
    case SocketOpened => OnOpen(s)
    case MessageReceived(data) => OnMessage(s, data)
    case SocketError => OnError(s)
    case PeerClosing => OnPeerClosing(s)
    case SocketClosed => OnClose(s)
    case AudioChunk(chunk) => SendAudioChunk(s, chunk)
    case HeartbeatTick => OnHeartbeatTick(s)
    case ReconnectTimer => OnReconnectTimer(s)
    case WillQuit => OnWillQuit(s)
  }
}
