/**
 * Runs of the session: what the environment (the `ws` socket, Electron, the
 * timers, the uuid generator) can deliver in each state, the invariant every
 * reachable session keeps, and properties of whole event sequences.
 */
module Trace {
  import opened Basics
  import opened TaskIds
  import opened Protocol
  import opened Session

  /**
   * Events the environment can deliver in `s`: a socket opens once, from
   * CONNECTING; it reports messages only while OPEN or CLOSING and closes once;
   * timers fire only while they exist; the hotkey and the audio channel exist
   * from `whenReady` on; the uuid generator returns uuid text.
   */
  predicate Enabled(s: Session, e: Event) {
    match e
    case AppReady => s.socket.None?
    case HotkeyPressed(uuid) => s.hotkeyRegistered && IsUuidText(uuid)
    case SocketOpened => s.socket == Some(Connecting)
    case MessageReceived(_) => s.socket == Some(Open) || s.socket == Some(Closing)
    case SocketError => s.socket.Some? && s.socket.value != Closed
    case PeerClosing => s.socket == Some(Open)
    case SocketClosed => s.socket.Some? && s.socket.value != Closed
    case AudioChunk(_) => s.socket.Some?
    case HeartbeatTick => s.heartbeatTimer == Armed || s.strayIntervals > 0
    case ReconnectTimer => s.pendingReconnects > 0
    case WillQuit => true
  }

  /** The session after `events`, and all effects performed on the way, in order. */
  function Run(s: Session, events: seq<Event>): Outcome
    decreases |events|
  {
    if events == [] then Outcome(s, [])
    else
      var first := Step(s, events[0]);
      var rest := Run(first.session, events[1..]);
      Outcome(rest.session, first.effects + rest.effects)
  }

  /** Every event of `events` is enabled when it arrives. */
  predicate Feasible(s: Session, events: seq<Event>)
    decreases |events|
  {
    events == [] || (Enabled(s, events[0]) && Feasible(Step(s, events[0]).session, events[1..]))
  }

  /**
   * What holds of every reachable session: at most one heartbeat interval
   * runs, and only while the socket is OPEN or CLOSING; a CLOSED socket has
   * exactly one reconnect pending; a task id is held whenever recording (it
   * can outlive the recording when a finishing send throws), and every held
   * id is 32 lowercase hex digits.
   */
  predicate Inv(s: Session) {
    && (s.socket.None? ==>
          s.heartbeatTimer == Unset && s.pendingReconnects == 0 && !s.hotkeyRegistered && !s.isRecording)
    && s.strayIntervals == 0
    && (s.heartbeatTimer == Armed ==> s.socket == Some(Open) || s.socket == Some(Closing))
    && (s.socket == Some(Open) ==> s.heartbeatTimer == Armed)
    && s.pendingReconnects <= 1
    && (s.pendingReconnects == 1 <==> s.socket == Some(Closed))
    && (s.isRecording ==> s.currentTaskId.Some?)
    && (s.currentTaskId.Some? ==> IsTaskId(s.currentTaskId.value))
  }

  lemma BootSatisfiesInv()
    ensures Inv(Boot)
  {
  }

  lemma StepKeepsInv(s: Session, e: Event)
    requires Inv(s) && Enabled(s, e)
    ensures Inv(Step(s, e).session)
  {
    match e
    case HotkeyPressed(uuid) =>
      UuidRoundTrip(uuid);
    case _ =>
  }

  lemma {:induction false} RunKeepsInv(s: Session, events: seq<Event>)
    requires Inv(s) && Feasible(s, events)
    ensures Inv(Run(s, events).session)
    decreases |events|
  {
    if events != [] {
      StepKeepsInv(s, events[0]);
      RunKeepsInv(Step(s, events[0]).session, events[1..]);
    }
  }

  /** A run is its first step followed by the run of the rest. */
  lemma RunCons(s: Session, e: Event, rest: seq<Event>)
    ensures Run(s, [e] + rest).session == Run(Step(s, e).session, rest).session
    ensures Run(s, [e] + rest).effects == Step(s, e).effects + Run(Step(s, e).session, rest).effects
    ensures Feasible(s, [e] + rest) <==> Enabled(s, e) && Feasible(Step(s, e).session, rest)
  {
    assert ([e] + rest)[0] == e;
    assert ([e] + rest)[1..] == rest;
  }

  lemma RunSingle(s: Session, e: Event)
    ensures Run(s, [e]) == Step(s, e)
    ensures Feasible(s, [e]) <==> Enabled(s, e)
  {
    RunCons(s, e, []);
    assert [e] + [] == [e];
  }

  /** Running `a` and then `b` ends where running `a + b` ends. */
  lemma {:induction false} RunAppendSession(s: Session, a: seq<Event>, b: seq<Event>)
    ensures Run(s, a + b).session == Run(Run(s, a).session, b).session
    decreases |a|
  {
    if a == [] {
      assert a + b == b;
    } else {
      assert (a + b)[0] == a[0];
      assert (a + b)[1..] == a[1..] + b;
      RunAppendSession(Step(s, a[0]).session, a[1..], b);
    }
  }

  /** Running `a` and then `b` performs the effects of running `a + b`. */
  lemma {:induction false} RunAppendEffects(s: Session, a: seq<Event>, b: seq<Event>)
    ensures Run(s, a + b).effects == Run(s, a).effects + Run(Run(s, a).session, b).effects
    decreases |a|
  {
    if a == [] {
      assert a + b == b;
    } else {
      var e, rest := a[0], a[1..];
      assert a == [e] + rest;
      assert a + b == [e] + (rest + b);
      RunCons(s, e, rest);
      RunCons(s, e, rest + b);
      var next := Step(s, e).session;
      RunAppendEffects(next, rest, b);
      var mid := Run(next, rest);
      var later := Run(mid.session, b).effects;
      ConcatAssociates(Step(s, e).effects, mid.effects, later);
    }
  }

  /** A run of `a + b` is feasible exactly when `a` is, and `b` is from where `a` ends. */
  lemma {:induction false} FeasibleAppend(s: Session, a: seq<Event>, b: seq<Event>)
    ensures Feasible(s, a + b) <==> Feasible(s, a) && Feasible(Run(s, a).session, b)
    decreases |a|
  {
    if a == [] {
      assert a + b == b;
    } else {
      assert (a + b)[0] == a[0];
      assert (a + b)[1..] == a[1..] + b;
      FeasibleAppend(Step(s, a[0]).session, a[1..], b);
    }
  }

  // ------------------------------------------------------------ reachability

  /** Every session reached from `Boot` by a feasible run keeps the invariant. */
  lemma ReachableKeepsInv(events: seq<Event>)
    requires Feasible(Boot, events)
    ensures Inv(Run(Boot, events).session)
  {
    BootSatisfiesInv();
    RunKeepsInv(Boot, events);
  }

  /**
   * In a reachable session each hotkey press does one of four things. From
   * not recording it hands `run-task` to `ws.send`, then signals
   * `record-start`, or throws instead of signalling while the socket is
   * CONNECTING. From recording it hands `finish-task` for the held task to
   * `ws.send`, then forgets the task and signals `record-stop`, or throws
   * while CONNECTING and keeps the task. The "no current task" branch of
   * `sendFinishTask` is never taken from the hotkey.
   */
  lemma HotkeyInReachableSession(s: Session, uuid: string)
    requires Inv(s) && Enabled(s, HotkeyPressed(uuid))
    ensures !s.isRecording && s.socket != Some(Connecting) ==>
      Step(s, HotkeyPressed(uuid)).effects
        == [Send(TextFrame(RunTaskMessage(TaskIdFromUuid(uuid)))), Notify(RecordStart)]
    ensures !s.isRecording && s.socket == Some(Connecting) ==>
      Step(s, HotkeyPressed(uuid)).effects
        == [Send(TextFrame(RunTaskMessage(TaskIdFromUuid(uuid)))), Throw(SocketNotOpen)]
    ensures s.isRecording && s.socket != Some(Connecting) ==>
      && Step(s, HotkeyPressed(uuid)).effects
         == [Send(TextFrame(FinishTaskMessage(s.currentTaskId.value))), Notify(RecordStop)]
      && Step(s, HotkeyPressed(uuid)).session.currentTaskId.None?
    ensures s.isRecording && s.socket == Some(Connecting) ==>
      && Step(s, HotkeyPressed(uuid)).effects
         == [Send(TextFrame(FinishTaskMessage(s.currentTaskId.value))), Throw(SocketNotOpen)]
      && Step(s, HotkeyPressed(uuid)).session.currentTaskId == s.currentTaskId
  {
  }

  /**
   * In a reachable session every heartbeat tick comes from the one interval
   * `heartbeatTimer` holds, and it sends one zero-length frame exactly when
   * the socket is still OPEN (not when the peer has begun closing it).
   */
  lemma HeartbeatInReachableSession(s: Session)
    requires Inv(s) && Enabled(s, HeartbeatTick)
    ensures s.heartbeatTimer == Armed && s.strayIntervals == 0
    ensures SocketIsOpen(s) ==> Step(s, HeartbeatTick).effects == [Send(HeartbeatFrame)]
    ensures !SocketIsOpen(s) ==> s.socket == Some(Closing) && Step(s, HeartbeatTick).effects == []
  {
  }

  /**
   * In a reachable session a close leaves no heartbeat interval running and
   * exactly one reconnect pending, whatever the socket's state before.
   */
  lemma CloseInReachableSession(s: Session)
    requires Inv(s) && Enabled(s, SocketClosed)
    ensures Step(s, SocketClosed).session.heartbeatTimer != Armed
    ensures Step(s, SocketClosed).session.strayIntervals == 0
    ensures Step(s, SocketClosed).session.pendingReconnects == 1
    ensures Step(s, SocketClosed).session.currentTaskId == s.currentTaskId
  {
  }

  // ------------------------------------------------------- task alternation

  /**
   * Replays task controls against the service's view of the open task:
   * `Start` needs no open task, `Finish` must name the open one. `None` when a
   * control breaks that rule; otherwise the task left open at the end.
   */
  function Replay(open: Option<string>, controls: seq<TaskControl>): Option<Option<string>>
    decreases |controls|
  {
    if controls == [] then Some(open)
    else match controls[0]
      case Start(id) => if open.None? then Replay(Some(id), controls[1..]) else None
      case Finish(id) => if open == Some(id) then Replay(None, controls[1..]) else None
  }

  /**
   * Independent statement of strict alternation: starts at even positions,
   * finishes at odd positions, each finish naming the task started just before.
   */
  predicate Alternating(controls: seq<TaskControl>) {
    forall i :: 0 <= i < |controls| ==> AlternatesAt(controls, i)
  }

  predicate AlternatesAt(controls: seq<TaskControl>, i: nat)
    requires i < |controls|
  {
    if i % 2 == 0 then controls[i].Start?
    else controls[i].Finish? && controls[i].taskId == controls[i - 1].taskId
  }

  lemma {:induction false} ReplayAppend(open: Option<string>, a: seq<TaskControl>, b: seq<TaskControl>)
    ensures Replay(open, a + b) == if Replay(open, a).None? then None else Replay(Replay(open, a).value, b)
    decreases |a|
  {
    if a == [] {
      assert a + b == b;
    } else {
      assert (a + b)[0] == a[0];
      assert (a + b)[1..] == a[1..] + b;
      match a[0]
      case Start(id) => if open.None? { ReplayAppend(Some(id), a[1..], b); }
      case Finish(id) => if open == Some(id) { ReplayAppend(None, a[1..], b); }
    }
  }

  /** `Replay` from an open task `t` accepts exactly `Finish(t)` followed by an alternating sequence. */
  lemma {:induction false} ReplayCharacterised(open: Option<string>, controls: seq<TaskControl>)
    ensures open.None? ==> (Replay(open, controls).Some? <==> Alternating(controls))
    ensures open.Some? ==>
      (Replay(open, controls).Some? <==>
         controls == [] || (controls[0] == Finish(open.value) && Alternating(controls[1..])))
    decreases |controls|, open.Some?
  {
    if controls == [] {
    } else if open.None? {
      match controls[0]
      case Finish(_) =>
        assert !AlternatesAt(controls, 0);
      case Start(id) =>
        ReplayCharacterised(Some(id), controls[1..]);
        var rest := controls[1..];
        if rest != [] && rest[0] == Finish(id) {
          ReplayCharacterised(None, rest[1..]);
          AlternatingShift(controls);
        } else {
          if rest != [] {
            assert !AlternatesAt(controls, 1);
          }
        }
    } else {
      if controls[0] == Finish(open.value) {
        ReplayCharacterised(None, controls[1..]);
      }
    }
  }

  /** An alternating sequence of length two or more is a start, its finish, then an alternating rest. */
  lemma AlternatingShift(controls: seq<TaskControl>)
    requires |controls| >= 2
    ensures Alternating(controls) <==>
      && controls[0].Start?
      && controls[1] == Finish(controls[0].taskId)
      && Alternating(controls[2..])
  {
    var rest := controls[2..];
    if controls[0].Start? && controls[1] == Finish(controls[0].taskId) && Alternating(rest) {
      forall i | 0 <= i < |controls|
        ensures AlternatesAt(controls, i)
      {
        if i >= 2 {
          assert AlternatesAt(rest, i - 2);
        }
      }
    }
    if Alternating(controls) {
      assert AlternatesAt(controls, 0) && AlternatesAt(controls, 1);
      forall j | 0 <= j < |rest|
        ensures AlternatesAt(rest, j)
      {
        assert AlternatesAt(controls, j + 2);
      }
    }
  }

  // ------------------------------------------------------ quiet steps

  /** Effects that write nothing to the clipboard, schedule no reconnect and hand no task control to `ws.send`. */
  predicate Quiet(effects: seq<Effect>) {
    && Collect(effects, ClipboardText) == []
    && Collect(effects, ReconnectDelay) == []
    && Collect(effects, TaskControlOf) == []
  }

  /** Opening, errors, the peer starting to close, heartbeat ticks and the reconnect timeout are quiet. */
  lemma SocketEventsQuiet(s: Session, e: Event)
    requires e.SocketOpened? || e.SocketError? || e.PeerClosing? || e.HeartbeatTick? || e.ReconnectTimer?
    ensures Quiet(Step(s, e).effects)
    ensures Step(s, e).session.isRecording == s.isRecording
    ensures Step(s, e).session.currentTaskId == s.currentTaskId
  {
    var r := Step(s, e);
    forall i | 0 <= i < |r.effects|
      ensures ClipboardText(r.effects[i]).None? && ReconnectDelay(r.effects[i]).None?
      ensures TaskControlOf(r.effects[i]).None?
    {
    }
  }

  /** Readiness, audio chunks and quitting are quiet. */
  lemma AppEventsQuiet(s: Session, e: Event)
    requires e.AppReady? || e.AudioChunk? || e.WillQuit?
    ensures Quiet(Step(s, e).effects)
    ensures Step(s, e).session.isRecording == s.isRecording
    ensures Step(s, e).session.currentTaskId == s.currentTaskId
  {
    match e
    case AppReady =>
      assert Step(s, e).effects == [OpenSocket(ServiceUrl)];
    case AudioChunk(chunk) =>
      var r := SendAudioChunk(s, chunk);
      forall i | 0 <= i < |r.effects|
        ensures ClipboardText(r.effects[i]).None? && ReconnectDelay(r.effects[i]).None?
        ensures TaskControlOf(r.effects[i]).None?
      {
      }
    case WillQuit =>
      WillQuitQuiet(s);
  }

  /** Quitting publishes nothing, schedules nothing and hands no task control to `ws.send`. */
  lemma WillQuitQuiet(s: Session)
    ensures Quiet(OnWillQuit(s).effects)
  {
    var close := if s.socket.Some? then [CloseSocket] else [];
    var clear := if s.heartbeatTimer != Unset then [ClearHeartbeat] else [];
    var effects := [UnregisterHotkeys] + close + clear;
    assert OnWillQuit(s).effects == effects;
    forall i | 0 <= i < |effects|
      ensures ClipboardText(effects[i]).None? && ReconnectDelay(effects[i]).None?
      ensures TaskControlOf(effects[i]).None?
    {
      assert effects[i] in {UnregisterHotkeys, CloseSocket, ClearHeartbeat};
    }
  }

  /** A hotkey press writes nothing to the clipboard and schedules no reconnect. */
  lemma HotkeyWritesNothing(s: Session, uuid: string)
    ensures Collect(OnHotkey(s, uuid).effects, ClipboardText) == []
    ensures Collect(OnHotkey(s, uuid).effects, ReconnectDelay) == []
  {
    var r := OnHotkey(s, uuid);
    if !s.isRecording {
      var run := Send(TextFrame(RunTaskMessage(TaskIdFromUuid(uuid))));
      assert r.effects in {[run, Notify(RecordStart)], [run, Throw(SocketNotOpen)], [Throw(SocketIsNull)]};
    } else if HasTask(s) {
      var finish := Send(TextFrame(FinishTaskMessage(s.currentTaskId.value)));
      assert r.effects in {[finish, Notify(RecordStop)], [finish, Throw(SocketNotOpen)], [Throw(SocketIsNull)]};
    } else {
      assert r.effects == [Report(NoTaskToFinish), Notify(RecordStop)];
    }
  }

  /** A close hands no task control to `ws.send` and leaves the task alone. */
  lemma CloseSendsNoControl(s: Session)
    ensures Collect(OnClose(s).effects, TaskControlOf) == []
  {
    var r := OnClose(s);
    forall i | 0 <= i < |r.effects|
      ensures TaskControlOf(r.effects[i]).None?
    {
    }
  }

  /** The task controls a step hands to `ws.send`, as the service reads them. */
  function StepControls(s: Session, e: Event): seq<TaskControl> {
    Collect(Step(s, e).effects, TaskControlOf)
  }

  /** The task a session regards as running: its id while recording, none otherwise. */
  function OpenTask(s: Session): Option<string> {
    if s.isRecording then s.currentTaskId else None
  }

  lemma HotkeyReplays(s: Session, uuid: string)
    requires Inv(s) && Enabled(s, HotkeyPressed(uuid))
    ensures Replay(OpenTask(s), StepControls(s, HotkeyPressed(uuid)))
            == Some(OpenTask(Step(s, HotkeyPressed(uuid)).session))
  {
    var r := Step(s, HotkeyPressed(uuid));
    UuidRoundTrip(uuid);
    HotkeyInReachableSession(s, uuid);
    assert r.effects[1..] == [r.effects[1]];
    assert StepControls(s, HotkeyPressed(uuid)) == OptionToSeq(TaskControlOf(r.effects[0]));
  }

  /** Every other event hands no task control to `ws.send` and leaves the open task alone. */
  lemma OtherEventReplays(s: Session, e: Event)
    requires !e.HotkeyPressed?
    ensures StepControls(s, e) == []
    ensures OpenTask(Step(s, e).session) == OpenTask(s)
  {
    if e.MessageReceived? {
    } else if e.SocketClosed? {
      CloseSendsNoControl(s);
    } else if e.AppReady? || e.AudioChunk? || e.WillQuit? {
      AppEventsQuiet(s, e);
    } else {
      SocketEventsQuiet(s, e);
    }
  }

  lemma StepReplays(s: Session, e: Event)
    requires Inv(s) && Enabled(s, e)
    ensures Replay(OpenTask(s), StepControls(s, e)) == Some(OpenTask(Step(s, e).session))
  {
    if e.HotkeyPressed? {
      HotkeyReplays(s, e.uuid);
    } else {
      OtherEventReplays(s, e);
    }
  }

  /**
   * Replaying the task controls a run hands to `ws.send` against the
   * service's one-open-task rule never fails, and ends with the task the
   * session regards as running.
   */
  lemma {:induction false} RunReplays(s: Session, events: seq<Event>)
    requires Inv(s) && Feasible(s, events)
    ensures Replay(OpenTask(s), Collect(Run(s, events).effects, TaskControlOf))
            == Some(OpenTask(Run(s, events).session))
    decreases |events|
  {
    if events != [] {
      var first := Step(s, events[0]);
      StepReplays(s, events[0]);
      StepKeepsInv(s, events[0]);
      RunReplays(first.session, events[1..]);
      var rest := Run(first.session, events[1..]);
      CollectAppend(first.effects, rest.effects, TaskControlOf);
      ReplayAppend(OpenTask(s), Collect(first.effects, TaskControlOf), Collect(rest.effects, TaskControlOf));
    }
  }

  /**
   * Over any feasible run from process start, the `run-task` and
   * `finish-task` messages handed to `ws.send` strictly alternate, starting
   * with `run-task`, and each `finish-task` names the task of the `run-task`
   * just before it; the run ends while recording exactly when their count is
   * odd. This holds even where a send throws, because the hotkey flips
   * `isRecording` before it sends.
   */
  lemma {:induction false} TaskControlsAlternate(events: seq<Event>)
    requires Feasible(Boot, events)
    ensures Alternating(Collect(Run(Boot, events).effects, TaskControlOf))
    ensures Run(Boot, events).session.isRecording <==>
      |Collect(Run(Boot, events).effects, TaskControlOf)| % 2 == 1
  {
    var controls := Collect(Run(Boot, events).effects, TaskControlOf);
    BootSatisfiesInv();
    RunReplays(Boot, events);
    ReachableKeepsInv(events);
    ReplayCharacterised(None, controls);
    ReplayParity(None, controls);
  }

  /** An accepted replay ends with a task open exactly after an odd number of controls. */
  lemma {:induction false} ReplayParity(open: Option<string>, controls: seq<TaskControl>)
    requires Replay(open, controls).Some?
    ensures Replay(open, controls).value.Some? <==>
      (if open.None? then |controls| % 2 == 1 else |controls| % 2 == 0)
    decreases |controls|
  {
    if controls != [] {
      match controls[0]
      case Start(id) => ReplayParity(Some(id), controls[1..]);
      case Finish(id) => ReplayParity(None, controls[1..]);
    }
  }

  // -------------------------------------------------------- per-event effects

  /**
   * `pick` sees, in every step, exactly what `f` reads off the event alone:
   * at most one item, independent of the session.
   */
  ghost predicate DeterminedByEvent<U>(pick: Effect -> Option<U>, f: Event -> Option<U>) {
    forall s: Session, e: Event {:trigger Step(s, e)} ::
      Collect(Step(s, e).effects, pick) == OptionToSeq(f(e))
  }

  lemma {:induction false} RunProjection<U>(s: Session, events: seq<Event>, pick: Effect -> Option<U>, f: Event -> Option<U>)
    requires DeterminedByEvent(pick, f)
    ensures Collect(Run(s, events).effects, pick) == Collect(events, f)
    decreases |events|
  {
    if events != [] {
      var first := Step(s, events[0]);
      RunProjection(first.session, events[1..], pick, f);
      CollectAppend(first.effects, Run(first.session, events[1..]).effects, pick);
    }
  }

  /** The text an event publishes by the result sink's policy, if any. */
  function PublishedText(e: Event): Option<string> {
    if e.MessageReceived? then FinalText(e.data) else None
  }

  /** The reconnect delay an event schedules, if any. */
  function ReconnectOnClose(e: Event): Option<nat> {
    if e.SocketClosed? then Some(ReconnectDelayMs) else None
  }

  lemma StepPublishes(s: Session, e: Event)
    ensures Collect(Step(s, e).effects, ClipboardText) == OptionToSeq(PublishedText(e))
  {
    match e
    case MessageReceived(_) =>
    case HotkeyPressed(uuid) => HotkeyWritesNothing(s, uuid);
    case SocketClosed => assert Step(s, e).effects == OnClose(s).effects;
    case AppReady => AppEventsQuiet(s, e);
    case AudioChunk(_) => AppEventsQuiet(s, e);
    case WillQuit => AppEventsQuiet(s, e);
    case _ => SocketEventsQuiet(s, e);
  }

  lemma StepReconnects(s: Session, e: Event)
    ensures Collect(Step(s, e).effects, ReconnectDelay) == OptionToSeq(ReconnectOnClose(e))
  {
    match e
    case MessageReceived(_) =>
    case SocketClosed =>
    case HotkeyPressed(uuid) => HotkeyWritesNothing(s, uuid);
    case AppReady => AppEventsQuiet(s, e);
    case AudioChunk(_) => AppEventsQuiet(s, e);
    case WillQuit => AppEventsQuiet(s, e);
    case _ => SocketEventsQuiet(s, e);
  }

  lemma ClipboardDeterminedByEvent()
    ensures DeterminedByEvent(ClipboardText, PublishedText)
  {
    forall s: Session, e: Event
      ensures Collect(Step(s, e).effects, ClipboardText) == OptionToSeq(PublishedText(e))
    {
      StepPublishes(s, e);
    }
  }

  lemma ReconnectDeterminedByEvent()
    ensures DeterminedByEvent(ReconnectDelay, ReconnectOnClose)
  {
    forall s: Session, e: Event
      ensures Collect(Step(s, e).effects, ReconnectDelay) == OptionToSeq(ReconnectOnClose(e))
    {
      StepReconnects(s, e);
    }
  }

  /**
   * Over any event sequence, from any session, the clipboard receives exactly
   * the texts of the sentence-final transcriptions among the inbound frames,
   * in arrival order; nothing else ever reaches it.
   */
  lemma {:induction false} OnlyFinalResultsReachClipboard(s: Session, events: seq<Event>)
    ensures Collect(Run(s, events).effects, ClipboardText) == Collect(events, PublishedText)
  {
    ClipboardDeterminedByEvent();
    RunProjection(s, events, ClipboardText, PublishedText);
  }

  /**
   * Over any event sequence, from any session, every close schedules exactly
   * one reconnect after 3000 ms and nothing else schedules one.
   */
  lemma OneReconnectPerClose(s: Session, events: seq<Event>)
    ensures Collect(Run(s, events).effects, ReconnectDelay) == Collect(events, ReconnectOnClose)
  {
    ReconnectDeterminedByEvent();
    RunProjection(s, events, ReconnectDelay, ReconnectOnClose);
  }

  // -------------------------------------------------------------- audio relay

  /** The audio events delivering `chunks`, one per chunk, in order. */
  function AudioEvents(chunks: seq<seq<byte>>): (events: seq<Event>)
    ensures |events| == |chunks|
  {
    if chunks == [] then [] else [AudioChunk(chunks[0])] + AudioEvents(chunks[1..])
  }

  /** The binary frames carrying `chunks`, one per chunk, in order. */
  function AudioFrames(chunks: seq<seq<byte>>): (frames: seq<Frame>)
    ensures |frames| == |chunks|
  {
    if chunks == [] then [] else [BinaryFrame(chunks[0])] + AudioFrames(chunks[1..])
  }

  /**
   * Streaming any number of chunks changes no session state. On an OPEN
   * socket every chunk goes out unchanged, one frame each, in order; on any
   * other socket nothing is sent and each chunk is reported dropped once.
   */
  lemma {:induction false} AudioRelayedInOrder(s: Session, chunks: seq<seq<byte>>)
    ensures Run(s, AudioEvents(chunks)).session == s
    ensures SocketIsOpen(s) ==> Sent(Run(s, AudioEvents(chunks)).effects) == AudioFrames(chunks)
    ensures !SocketIsOpen(s) ==>
      && |Run(s, AudioEvents(chunks)).effects| == |chunks|
      && forall i :: 0 <= i < |chunks| ==> Run(s, AudioEvents(chunks)).effects[i] == Report(ChunkDropped)
    decreases |chunks|
  {
    if chunks != [] {
      var events := AudioEvents(chunks);
      var later := AudioEvents(chunks[1..]);
      assert events == [AudioChunk(chunks[0])] + later;
      RunCons(s, AudioChunk(chunks[0]), later);
      var first := SendAudioChunk(s, chunks[0]);
      assert Step(s, AudioChunk(chunks[0])) == first;
      AudioRelayedInOrder(s, chunks[1..]);
      var rest := Run(s, later);
      assert Run(s, events).effects == first.effects + rest.effects;
      CollectAppend(first.effects, rest.effects, SentFrame);
      if !SocketIsOpen(s) {
        forall i | 0 <= i < |chunks|
          ensures Run(s, events).effects[i] == Report(ChunkDropped)
        {
          if i > 0 {
            assert Run(s, events).effects[i] == rest.effects[i - 1];
          }
        }
      }
    }
  }
}
