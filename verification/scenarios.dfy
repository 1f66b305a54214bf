/**
 * Short event sequences that show what the code does on the paths a reader is
 * most likely to ask about, including where it departs from the obvious
 * ideal: a task survives a disconnect and the service's own end of a task, and
 * `run-task` is sent whatever the socket's ready state.
 */
module Scenarios {
  import opened Basics
  import opened TaskIds
  import opened Protocol
  import opened Session
  import opened Trace

  /** The process has started and its first socket is OPEN; nothing is recording. */
  const ConnectedIdle: Session :=
    Session(Some(Open), false, Armed, 0, None, 0, true)

  lemma StartupConnects()
    ensures Feasible(Boot, [AppReady, SocketOpened])
    ensures Run(Boot, [AppReady, SocketOpened])
            == Outcome(ConnectedIdle, [OpenSocket(ServiceUrl), ArmHeartbeat(30000)])
  {
    RunCons(Boot, AppReady, [SocketOpened]);
    RunSingle(Step(Boot, AppReady).session, SocketOpened);
  }

  /** A `result-generated` frame carrying one transcription. */
  function ResultFrame(text: string, sentenceEnd: bool): Inbound {
    Parsed(InboundMessage(
      Some(InboundHeader(Some("result-generated"), None)),
      Some(InboundPayload(Some(Output(Some(Transcription(text, sentenceEnd))))))))
  }

  lemma {:induction false} AudioPublishesNothing(chunks: seq<seq<byte>>)
    ensures Collect(AudioEvents(chunks), PublishedText) == []
    decreases |chunks|
  {
    if chunks != [] {
      AudioPublishesNothing(chunks[1..]);
    }
  }

  /** Two partial results, then a sentence-final one. */
  function ResultEvents(partial1: string, partial2: string, final: string): seq<Event> {
    [MessageReceived(ResultFrame(partial1, false)),
     MessageReceived(ResultFrame(partial2, false)),
     MessageReceived(ResultFrame(final, true))]
  }

  /** A press, the chunks, the results, a second press. */
  function UtteranceEvents(u: string, v: string, chunks: seq<seq<byte>>,
                           partial1: string, partial2: string, final: string): seq<Event>
  {
    [HotkeyPressed(u)] + AudioEvents(chunks) + ResultEvents(partial1, partial2, final) + [HotkeyPressed(v)]
  }

  /** One result frame changes nothing and publishes its text exactly when it ends a sentence. */
  lemma ResultStep(s: Session, text: string, sentenceEnd: bool)
    ensures Step(s, MessageReceived(ResultFrame(text, sentenceEnd)))
            == Outcome(s, if sentenceEnd then [WriteClipboard(text)] else [])
  {
    EventNameLengths();
    assert Decode(ResultFrame(text, sentenceEnd)) == ResultGenerated(Some(Transcription(text, sentenceEnd)));
  }

  lemma ResultsPublishFinal(s: Session, partial1: string, partial2: string, final: string)
    ensures Run(s, ResultEvents(partial1, partial2, final)) == Outcome(s, [WriteClipboard(final)])
  {
    var e0 := MessageReceived(ResultFrame(partial1, false));
    var e1 := MessageReceived(ResultFrame(partial2, false));
    var e2 := MessageReceived(ResultFrame(final, true));
    ResultStep(s, partial1, false);
    ResultStep(s, partial2, false);
    ResultStep(s, final, true);
    RunSingle(s, e2);
    RunCons(s, e1, [e2]);
    assert [e1] + [e2] == [e1, e2];
    RunCons(s, e0, [e1, e2]);
    assert [e0] + [e1, e2] == ResultEvents(partial1, partial2, final);
  }

  /** The utterance's run, piece by piece. */
  lemma UtteranceRun(u: string, v: string, chunks: seq<seq<byte>>, partial1: string, partial2: string, final: string)
    requires IsUuidText(u)
    ensures
      var id := TaskIdFromUuid(u);
      var recording := Recording(id);
      var r := Run(ConnectedIdle, UtteranceEvents(u, v, chunks, partial1, partial2, final));
      && r.session == ConnectedIdle
      && r.effects == [Send(TextFrame(RunTaskMessage(id))), Notify(RecordStart)]
                      + Run(recording, AudioEvents(chunks)).effects
                      + [WriteClipboard(final)]
                      + [Send(TextFrame(FinishTaskMessage(id))), Notify(RecordStop)]
  {
    var id := TaskIdFromUuid(u);
    UuidRoundTrip(u);
    PressFromIdle(u);
    PressWhileRecording(id, v);
    var start := [HotkeyPressed(u)];
    var audio := AudioEvents(chunks);
    var results := ResultEvents(partial1, partial2, final);
    var stop := [HotkeyPressed(v)];
    var s1 := Recording(id);
    RunSingle(ConnectedIdle, HotkeyPressed(u));
    AudioRelayedInOrder(s1, chunks);
    ResultsPublishFinal(s1, partial1, partial2, final);
    RunSingle(s1, HotkeyPressed(v));
    RunAppendSession(ConnectedIdle, start, audio);
    RunAppendEffects(ConnectedIdle, start, audio);
    RunAppendSession(ConnectedIdle, start + audio, results);
    RunAppendEffects(ConnectedIdle, start + audio, results);
    RunAppendSession(ConnectedIdle, start + audio + results, stop);
    RunAppendEffects(ConnectedIdle, start + audio + results, stop);
  }

  /** Of two partial results and a final one, only the final text is published. */
  lemma ResultEventsPublishFinal(partial1: string, partial2: string, final: string)
    ensures Collect(ResultEvents(partial1, partial2, final), PublishedText) == [final]
  {
    var results := ResultEvents(partial1, partial2, final);
    var r0, r1, r2 := [results[0]], [results[1]], [results[2]];
    assert results == r0 + (r1 + r2);
    CollectAppend(r1, r2, PublishedText);
    CollectAppend(r0, r1 + r2, PublishedText);
  }

  lemma UtterancePublishes(u: string, v: string, chunks: seq<seq<byte>>, partial1: string, partial2: string, final: string)
    ensures Collect(UtteranceEvents(u, v, chunks, partial1, partial2, final), PublishedText) == [final]
  {
    var start, audio := [HotkeyPressed(u)], AudioEvents(chunks);
    var results, stop := ResultEvents(partial1, partial2, final), [HotkeyPressed(v)];
    ResultEventsPublishFinal(partial1, partial2, final);
    AudioPublishesNothing(chunks);
    CollectAppend(start, audio, PublishedText);
    CollectAppend(start + audio, results, PublishedText);
    CollectAppend(start + audio + results, stop, PublishedText);
  }

  /** A frame handed to `ws.send` followed by a renderer signal sends just that frame. */
  lemma SendThenNotify(f: Frame, signal: RendererSignal)
    ensures Sent([Send(f), Notify(signal)]) == [f]
  {
  }

  lemma UtteranceSends(id: string, audio: seq<Effect>, frames: seq<Frame>, final: string)
    requires Sent(audio) == frames
    ensures
      Sent([Send(TextFrame(RunTaskMessage(id))), Notify(RecordStart)]
           + audio
           + [WriteClipboard(final)]
           + [Send(TextFrame(FinishTaskMessage(id))), Notify(RecordStop)])
      == [TextFrame(RunTaskMessage(id))] + frames + [TextFrame(FinishTaskMessage(id))]
  {
    var run := TextFrame(RunTaskMessage(id));
    var finish := TextFrame(FinishTaskMessage(id));
    var e1 := [Send(run), Notify(RecordStart)];
    var e3 := [WriteClipboard(final)];
    var e4 := [Send(finish), Notify(RecordStop)];
    SendThenNotify(run, RecordStart);
    SendThenNotify(finish, RecordStop);
    assert Collect(e3, SentFrame) == [];
    var a := e1 + audio;
    CollectAppend(e1, audio, SentFrame);
    assert Collect(a, SentFrame) == [run] + frames;
    var b := a + e3;
    CollectAppend(a, e3, SentFrame);
    assert Collect(b, SentFrame) == [run] + frames;
    CollectAppend(b, e4, SentFrame);
    assert Collect(b + e4, SentFrame) == [run] + frames + [finish];
  }

  /**
   * One utterance on a healthy connection: a press starts task `id`, the
   * chunks go out unchanged and in order, two partial results and one final
   * result arrive, a second press finishes task `id`. Exactly the final text
   * reaches the clipboard and the session is idle again.
   */
  lemma OneUtterance(u: string, v: string, chunks: seq<seq<byte>>, partial1: string, partial2: string, final: string)
    requires IsUuidText(u) && IsUuidText(v)
    ensures
      var id := TaskIdFromUuid(u);
      var r := Run(ConnectedIdle, UtteranceEvents(u, v, chunks, partial1, partial2, final));
      && Sent(r.effects) == [TextFrame(RunTaskMessage(id))] + AudioFrames(chunks) + [TextFrame(FinishTaskMessage(id))]
      && Collect(r.effects, ClipboardText) == [final]
      && r.session == ConnectedIdle
  {
    var id := TaskIdFromUuid(u);
    UtteranceRun(u, v, chunks, partial1, partial2, final);
    var recording := Recording(id);
    AudioRelayedInOrder(recording, chunks);
    UtteranceSends(id, Run(recording, AudioEvents(chunks)).effects, AudioFrames(chunks), final);
    OnlyFinalResultsReachClipboard(ConnectedIdle, UtteranceEvents(u, v, chunks, partial1, partial2, final));
    UtterancePublishes(u, v, chunks, partial1, partial2, final);
  }

  /** `ConnectedIdle` after a press that started task `id`. */
  function Recording(id: string): Session {
    ConnectedIdle.(isRecording := true, currentTaskId := Some(id))
  }

  /** A press on the idle, connected session starts the task of its uuid. */
  lemma PressFromIdle(u: string)
    requires IsUuidText(u)
    ensures Step(ConnectedIdle, HotkeyPressed(u))
            == Outcome(Recording(TaskIdFromUuid(u)),
                       [Send(TextFrame(RunTaskMessage(TaskIdFromUuid(u)))), Notify(RecordStart)])
  {
    UuidRoundTrip(u);
  }

  /** A press while recording task `id` on the healthy connection finishes it. */
  lemma PressWhileRecording(id: string, v: string)
    requires IsTaskId(id)
    ensures Step(Recording(id), HotkeyPressed(v))
            == Outcome(ConnectedIdle, [Send(TextFrame(FinishTaskMessage(id))), Notify(RecordStop)])
  {
    assert HasTask(Recording(id));
  }

  /**
   * A press on the healthy connection, then a disconnect and the reconnect
   * timeout: the new socket is CONNECTING and the task is still held.
   */
  lemma PressThenReconnect(u: string)
    requires IsUuidText(u)
    ensures Feasible(ConnectedIdle, [HotkeyPressed(u), SocketClosed, ReconnectTimer])
    ensures Run(ConnectedIdle, [HotkeyPressed(u), SocketClosed, ReconnectTimer]).session
            == Recording(TaskIdFromUuid(u)).(socket := Some(Connecting), heartbeatTimer := Cleared)
  {
    PressFromIdle(u);
    var s1 := Recording(TaskIdFromUuid(u));
    var s2 := Step(s1, SocketClosed).session;
    assert s2 == s1.(socket := Some(Closed), heartbeatTimer := Cleared, pendingReconnects := 1);
    var s3 := Step(s2, ReconnectTimer).session;
    assert s3 == s1.(socket := Some(Connecting), heartbeatTimer := Cleared);
    RunSingle(s2, ReconnectTimer);
    RunCons(s1, SocketClosed, [ReconnectTimer]);
    assert [SocketClosed] + [ReconnectTimer] == [SocketClosed, ReconnectTimer];
    RunCons(ConnectedIdle, HotkeyPressed(u), [SocketClosed, ReconnectTimer]);
    assert [HotkeyPressed(u)] + [SocketClosed, ReconnectTimer] == [HotkeyPressed(u), SocketClosed, ReconnectTimer];
  }

  /**
   * As written, a disconnect does not end the task: after the socket closes,
   * the reconnect fires and a new socket opens, the old task id is still
   * held, and the next press sends `finish-task` for it on the new connection,
   * where the service never saw its `run-task`.
   */
  lemma TaskSurvivesReconnect(u: string, v: string)
    requires IsUuidText(u) && IsUuidText(v)
    ensures
      var before := [HotkeyPressed(u), SocketClosed, ReconnectTimer, SocketOpened];
      var s := Run(ConnectedIdle, before).session;
      && Feasible(ConnectedIdle, before + [HotkeyPressed(v)])
      && SocketIsOpen(s)
      && s.currentTaskId == Some(TaskIdFromUuid(u))
      && Step(s, HotkeyPressed(v)).effects
         == [Send(TextFrame(FinishTaskMessage(TaskIdFromUuid(u)))), Notify(RecordStop)]
  {
    var id := TaskIdFromUuid(u);
    var reconnect := [HotkeyPressed(u), SocketClosed, ReconnectTimer];
    var before := reconnect + [SocketOpened];
    assert before == [HotkeyPressed(u), SocketClosed, ReconnectTimer, SocketOpened];
    PressThenReconnect(u);
    var s3 := Run(ConnectedIdle, reconnect).session;
    var s4 := Step(s3, SocketOpened).session;
    assert s4 == Recording(id);
    RunSingle(s3, SocketOpened);
    RunAppendSession(ConnectedIdle, reconnect, [SocketOpened]);
    FeasibleAppend(ConnectedIdle, reconnect, [SocketOpened]);
    UuidRoundTrip(u);
    PressWhileRecording(id, v);
    RunSingle(s4, HotkeyPressed(v));
    FeasibleAppend(ConnectedIdle, before, [HotkeyPressed(v)]);
  }

  /**
   * As written, `sendRunTask` does not look at the ready state: a press while
   * the first socket is still CONNECTING records the task, sets
   * `isRecording` and hands `run-task` to `ws.send`, which throws, so
   * `record-start` never reaches the renderer.
   */
  lemma RunTaskThrowsWhileConnecting(u: string)
    requires IsUuidText(u)
    ensures Feasible(Boot, [AppReady, HotkeyPressed(u)])
    ensures Run(Boot, [AppReady]).session.socket == Some(Connecting)
    ensures Run(Boot, [AppReady, HotkeyPressed(u)]).effects
            == [OpenSocket(ServiceUrl), Send(TextFrame(RunTaskMessage(TaskIdFromUuid(u)))), Throw(SocketNotOpen)]
    ensures Run(Boot, [AppReady, HotkeyPressed(u)]).session.currentTaskId == Some(TaskIdFromUuid(u))
    ensures Run(Boot, [AppReady, HotkeyPressed(u)]).session.isRecording
  {
    RunSingle(Boot, AppReady);
    RunCons(Boot, AppReady, [HotkeyPressed(u)]);
    RunSingle(Step(Boot, AppReady).session, HotkeyPressed(u));
    assert [AppReady, HotkeyPressed(u)] == [AppReady] + [HotkeyPressed(u)];
  }

  /**
   * As written, a press that finishes the task while the reconnected socket
   * is still CONNECTING clears `isRecording`, but the send throws: the task
   * id stays held and `record-stop` never reaches the renderer, which keeps
   * recording.
   */
  lemma FinishThrowsWhileReconnecting(u: string, v: string)
    requires IsUuidText(u) && IsUuidText(v)
    ensures
      var before := [HotkeyPressed(u), SocketClosed, ReconnectTimer];
      var s := Run(ConnectedIdle, before).session;
      var r := Step(s, HotkeyPressed(v));
      && Feasible(ConnectedIdle, before + [HotkeyPressed(v)])
      && s.socket == Some(Connecting)
      && r.effects == [Send(TextFrame(FinishTaskMessage(TaskIdFromUuid(u)))), Throw(SocketNotOpen)]
      && !r.session.isRecording
      && r.session.currentTaskId == Some(TaskIdFromUuid(u))
  {
    var before := [HotkeyPressed(u), SocketClosed, ReconnectTimer];
    PressThenReconnect(u);
    var s := Run(ConnectedIdle, before).session;
    RunSingle(s, HotkeyPressed(v));
    FeasibleAppend(ConnectedIdle, before, [HotkeyPressed(v)]);
  }

  /** A `task-failed` or `task-finished` frame changes no session state. */
  lemma TaskEndLeavesSession(s: Session, failure: Option<string>)
    ensures Step(s, MessageReceived(Parsed(InboundMessage(Some(InboundHeader(Some("task-failed"), failure)), None)))).session == s
    ensures Step(s, MessageReceived(Parsed(InboundMessage(Some(InboundHeader(Some("task-finished"), None)), None)))).session == s
  {
    EventNameLengths();
  }

  /**
   * As written, `task-failed` and `task-finished` from the service leave the
   * task in place: the next press still sends `finish-task` for it.
   */
  lemma ServiceEndingTaskKeepsIt(u: string, v: string, failure: Option<string>)
    requires IsUuidText(u) && IsUuidText(v)
    ensures
      var failed := MessageReceived(Parsed(InboundMessage(Some(InboundHeader(Some("task-failed"), failure)), None)));
      var finished := MessageReceived(Parsed(InboundMessage(Some(InboundHeader(Some("task-finished"), None)), None)));
      var s := Run(ConnectedIdle, [HotkeyPressed(u), failed, finished]).session;
      && s.currentTaskId == Some(TaskIdFromUuid(u))
      && Step(s, HotkeyPressed(v)).effects
         == [Send(TextFrame(FinishTaskMessage(TaskIdFromUuid(u)))), Notify(RecordStop)]
  {
    UuidRoundTrip(u);
    var failed := MessageReceived(Parsed(InboundMessage(Some(InboundHeader(Some("task-failed"), failure)), None)));
    var finished := MessageReceived(Parsed(InboundMessage(Some(InboundHeader(Some("task-finished"), None)), None)));
    var s1 := Recording(TaskIdFromUuid(u));
    PressFromIdle(u);
    PressWhileRecording(TaskIdFromUuid(u), v);
    TaskEndLeavesSession(s1, failure);
    RunSingle(s1, finished);
    RunCons(s1, failed, [finished]);
    assert [failed] + [finished] == [failed, finished];
    RunCons(ConnectedIdle, HotkeyPressed(u), [failed, finished]);
    assert [HotkeyPressed(u)] + [failed, finished] == [HotkeyPressed(u), failed, finished];
  }
}
