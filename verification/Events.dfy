/** Run events as the control plane stores them (packages/contracts/src/events.ts). */
module Events {
  import opened Prelude

  datatype Level = Info | Warn | Error

  /** The kinds the transcript reducer tells apart. Every other kind is either a
      setup kind (one of the setup prefixes) or passed over. */
  datatype Kind =
    | UserMessage
    | FollowupQueued
    | AgentStart
    | AgentEnd
    | MessageStart
    | MessageDelta
    | MessageEnd
    | ToolStart
    | ToolUpdate
    | ToolEnd
    | RunIdle
    | RunError
    | TurnRewind
    | SetupKind(name: string)
    | OtherKind(name: string)

  /** An ISO string and what `Date.parse(text) || 0` makes of it. */
  datatype Timestamp = Timestamp(text: string, millis: int)

  /** A payload no reducer step looks into. */
  datatype Json = Json(text: string)

  /** What a subagent request parses to. */
  datatype Request = Request(mode: Json, agents: Json, tasks: Json)

  /** Tool arguments, with the subagent request they parse to, if any. */
  datatype Args = Args(raw: Json, request: Option<Request>)

  datatype Image = Image(mediaType: string, data: string)

  datatype Status = Running | Done

  datatype Step = Step(id: string, name: string, agent: string, subagentId: Option<string>, status: Status,
                       isError: Option<bool>, args: Option<Args>, output: Option<string>)

  /** A tool's `details` record; `steps` is present only when it is an array. */
  datatype Details = Details(steps: Option<seq<Step>>, omittedSteps: Option<int>, rest: map<string, Json>)

  /** `Number(x)` for a value that is present. */
  datatype Num = Finite(value: real) | NotFinite

  /** `event.data`. A field is absent when it is missing or has the wrong type. */
  datatype Payload = Payload(
    toolCallId: Option<string>, toolName: Option<string>, args: Option<Args>, output: Option<string>,
    details: Option<Details>, isError: Option<bool>,
    text: Option<string>, delta: Option<string>, images: Option<seq<Image>>,
    followUpId: Option<string>, actorUserId: Option<string>, actorEmail: Option<string>,
    subagent: Option<string>, subagentId: Option<string>,
    workerSeq: Option<real>, workerEpoch: Option<string>,
    replyId: Option<string>, fromSeq: Option<Num>,
    url: Option<string>, contentType: Option<string>)

  const NO_DATA := Payload(None, None, None, None, None, None, None, None, None, None, None, None, None, None,
                           None, None, None, None, None, None)

  datatype RunEvent = RunEvent(id: string, createdAt: Timestamp, level: Level, kind: Kind,
                               title: string, detail: Option<string>, data: Payload)
  {
    function ToolKey(): string {
      if data.toolCallId.Some? && data.toolCallId.value != "" then data.toolCallId.value else id
    }

    function ToolName(): string { data.toolName.GetOr("tool") }

    function Delta(): string { data.delta.GetOr("") }

    function Text(): string { data.text.GetOr("") }

    function ReplyId(): string { data.replyId.GetOr("") }

    function Epoch(): string { data.workerEpoch.GetOr("") }

    /** The event belongs to a subagent nested in a tool call. */
    predicate Nested() {
      || (data.subagent.Some? && data.subagent.value != "")
      || (data.subagentId.Some? && data.subagentId.value != "")
    }
  }
}
