/**
 * The frames exchanged with the streaming speech-recognition service: the
 * outbound `run-task` / `finish-task` control messages and binary frames, and
 * the inbound JSON events. JSON text is not modelled: an outbound message is
 * the structured value that `JSON.stringify` would serialise, and an inbound
 * frame is either the value `JSON.parse` produced or `Malformed` when it threw.
 */
module Protocol {
  import opened Basics

  newtype byte = x: int | 0 <= x < 256

  const RunTaskAction: string := "run-task"
  const FinishTaskAction: string := "finish-task"
  const DuplexStreaming: string := "duplex"
  const AsrModel: string := "gummy-realtime-v1"
  const SampleRateHz: nat := 16000
  const PcmFormat: string := "pcm"

  // ---------------------------------------------------------------- outbound

  datatype AsrParameters = AsrParameters(sampleRate: nat, format: string, transcriptionEnabled: bool)

  datatype ControlHeader = ControlHeader(action: string, taskId: string, streaming: string)

  /** The `payload` object; both kinds carry an empty `input` object, which has no field here. */
  datatype ControlPayload =
    | RunTaskPayload(taskGroup: string, task: string, taskFunction: string, model: string,
                     parameters: AsrParameters)
    | FinishTaskPayload

  datatype ControlMessage = ControlMessage(header: ControlHeader, payload: ControlPayload)

  /** One websocket frame: a JSON text frame or a binary frame. */
  datatype Frame = TextFrame(message: ControlMessage) | BinaryFrame(bytes: seq<byte>)

  /** The keep-alive frame: a zero-length binary frame (`new Uint8Array(0)`). */
  const HeartbeatFrame: Frame := BinaryFrame([])

  function RunTaskMessage(taskId: string): ControlMessage {
    ControlMessage(
      ControlHeader(RunTaskAction, taskId, DuplexStreaming),
      RunTaskPayload("audio", "asr", "recognition", AsrModel,
                     AsrParameters(SampleRateHz, PcmFormat, true)))
  }

  function FinishTaskMessage(taskId: string): ControlMessage {
    ControlMessage(ControlHeader(FinishTaskAction, taskId, DuplexStreaming), FinishTaskPayload)
  }

  /** What a control message asks the service to do to a task. */
  datatype TaskControl = Start(taskId: string) | Finish(taskId: string)

  /** The service's reading of a control message, by its `header.action`. */
  function ControlOf(m: ControlMessage): Option<TaskControl> {
    if m.header.action == RunTaskAction then Some(Start(m.header.taskId))
    else if m.header.action == FinishTaskAction then Some(Finish(m.header.taskId))
    else None
  }

  // ----------------------------------------------------------------- inbound

  datatype Transcription = Transcription(text: string, sentenceEnd: bool)

  /** `payload.output`; its `transcription` is absent or null for results without text. */
  datatype Output = Output(transcription: Option<Transcription>)

  datatype InboundPayload = InboundPayload(output: Option<Output>)

  datatype InboundHeader = InboundHeader(event: Option<string>, errorMessage: Option<string>)

  /**
   * A parsed JSON value. `header` is `None` when the value has no header object
   * (a `null`, a number, an object without `header`); likewise `payload`.
   */
  datatype InboundMessage = InboundMessage(header: Option<InboundHeader>, payload: Option<InboundPayload>)

  /** One inbound text frame: the result of `JSON.parse`, or `Malformed` when it threw. */
  datatype Inbound = Malformed | Parsed(message: InboundMessage)

  const TaskStartedEvent: string := "task-started"
  const ResultGeneratedEvent: string := "result-generated"
  const TaskFinishedEvent: string := "task-finished"
  const TaskFailedEvent: string := "task-failed"
  const ErrorEvent: string := "error"

  /** The five event names the handler recognises differ in length, so they are pairwise distinct. */
  lemma EventNameLengths()
    ensures |TaskStartedEvent| == 12 && |ResultGeneratedEvent| == 16 && |TaskFinishedEvent| == 13
    ensures |TaskFailedEvent| == 11 && |ErrorEvent| == 5
  {
  }

  /** The inbound frame as the message handler's `switch` sees it. */
  datatype Decoded =
    | Unparsable
    | HeaderMissing                 // reading `msg.header.event` throws a TypeError
    | TaskStarted
    | ResultGenerated(transcription: Option<Transcription>)
    | ResultPayloadMissing          // reading `msg.payload.output` throws a TypeError
    | TaskFinished
    | TaskFailed(errorMessage: Option<string>)
    | ServiceError(errorMessage: Option<string>)
    | UnknownEvent(name: Option<string>)

  function Decode(data: Inbound): Decoded {
    match data
    case Malformed => Unparsable
    case Parsed(InboundMessage(None, _)) => HeaderMissing
    case Parsed(InboundMessage(Some(h), payload)) =>
      if h.event == Some(TaskStartedEvent) then TaskStarted
      else if h.event == Some(ResultGeneratedEvent) then
        match payload
        case None => ResultPayloadMissing
        case Some(InboundPayload(None)) => ResultGenerated(None)
        case Some(InboundPayload(Some(out))) => ResultGenerated(out.transcription)
      else if h.event == Some(TaskFinishedEvent) then TaskFinished
      else if h.event == Some(TaskFailedEvent) then TaskFailed(h.errorMessage)
      else if h.event == Some(ErrorEvent) then ServiceError(h.errorMessage)
      else UnknownEvent(h.event)
  }

  /**
   * Reference reading of the result sink's policy, straight off the inbound
   * JSON shape: the text to publish is present exactly when the frame is a
   * `result-generated` event whose `payload.output.transcription` exists and
   * has `sentence_end` set, and it is that transcription's `text`.
   */
  function FinalText(data: Inbound): Option<string> {
    if && data.Parsed?
       && data.message.header.Some?
       && data.message.header.value.event == Some("result-generated")
       && data.message.payload.Some?
       && data.message.payload.value.output.Some?
       && data.message.payload.value.output.value.transcription.Some?
       && data.message.payload.value.output.value.transcription.value.sentenceEnd
    then Some(data.message.payload.value.output.value.transcription.value.text)
    else None
  }
}
