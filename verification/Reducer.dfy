/**
 The transcript reducer on values (packages/contracts/src/transcript.ts).

 This is the specification the heap version in TranscriptHeap.dfy is proved
 against. A tool record that the program shares between `tools` and `blocks`
 appears once here: the k-th `ToolSlot` of `blocks` stands for `tools[k]`.
 */
module Reducer {
  import opened Prelude
  import opened Events

  const SUBAGENT_TOOL_NAME := "neo_subagent"
  const MAX_SUBAGENT_STEPS: nat := 40

  datatype Role = User | Assistant | Setup

  datatype ToolView = ToolView(id: string, name: string, status: Status, isError: Option<bool>,
                               args: Option<Args>, output: Option<string>, details: Option<Details>)

  datatype BlockView = TextBlock(text: string) | ToolSlot

  datatype MessageView = MessageView(
    id: string, role: Role, text: string, createdAt: Timestamp, updatedAt: Option<Timestamp>, streaming: bool,
    tools: seq<ToolView>, blocks: seq<BlockView>,
    kind: Option<Kind>, level: Option<Level>, detail: Option<string>, href: Option<string>, mediaType: Option<string>,
    images: Option<seq<Image>>, followUpId: Option<string>, actorUserId: Option<string>, actorEmail: Option<string>)

  /** `open` is the position of the bubble that new text goes to. */
  datatype TranscriptView = TranscriptView(messages: seq<MessageView>, open: Option<nat>)

  const EMPTY := TranscriptView([], None)

  predicate OpenOk(s: TranscriptView) {
    s.open.Some? ==> s.open.value < |s.messages| && s.messages[s.open.value].role.Assistant?
  }

  // ---- tool records ----

  function MergeDetails(previous: Details, incoming: Details): Details {
    Details(
      if previous.steps.Some? then previous.steps else incoming.steps,
      incoming.omittedSteps.Or(previous.omittedSteps),
      previous.rest + incoming.rest
      + if "tasks" in previous.rest then map["tasks" := previous.rest["tasks"]] else map[])
  }

  const NO_DETAILS := Details(None, None, map[])

  function SeedSubagentDetails(args: Option<Args>, existing: Option<Details>): Details {
    var base := existing.GetOr(NO_DETAILS);
    if args.Some? && args.value.request.Some? then
      var request := args.value.request.value;
      base.(rest := base.rest["mode" := request.mode]["agents" := request.agents]["tasks" := request.tasks])
    else base
  }

  /** What a tool event writes into the record it was matched to. */
  function Refresh(tool: ToolView, e: RunEvent): ToolView {
    var named := tool.(id := e.ToolKey(), name := e.ToolName(), args := e.data.args.Or(tool.args),
                       output := e.data.output.Or(tool.output));
    var merged := if e.data.details.Some?
      then named.(details := Some(MergeDetails(named.details.GetOr(NO_DETAILS), e.data.details.value))) else named;
    var seeded := if merged.name == SUBAGENT_TOOL_NAME
      then merged.(details := Some(SeedSubagentDetails(merged.args, merged.details))) else merged;
    if e.kind.ToolEnd? then seeded.(status := Done, isError := Some(e.data.isError == Some(true))) else seeded
  }

  function NewTool(e: RunEvent): ToolView {
    ToolView(e.ToolKey(), e.ToolName(), Running, None, None, None, None)
  }

  /** First tool with this id. */
  function ToolById(tools: seq<ToolView>, id: string): (r: Option<nat>)
    ensures r.Some? ==> r.value < |tools| && tools[r.value].id == id
    ensures r.Some? ==> forall k | 0 <= k < r.value :: tools[k].id != id
    ensures r.None? ==> forall k | 0 <= k < |tools| :: tools[k].id != id
  {
    if tools == [] then None
    else if tools[0].id == id then Some(0)
    else match ToolById(tools[1..], id) case Some(k) => Some(k + 1) case None => None
  }

  /** First running tool with this name. */
  function RunningByName(tools: seq<ToolView>, name: string): (r: Option<nat>)
    ensures r.Some? ==> r.value < |tools| && tools[r.value].name == name && tools[r.value].status.Running?
    ensures r.Some? ==> forall k | 0 <= k < r.value :: !(tools[k].name == name && tools[k].status.Running?)
    ensures r.None? ==> forall k | 0 <= k < |tools| :: !(tools[k].name == name && tools[k].status.Running?)
  {
    if tools == [] then None
    else if tools[0].name == name && tools[0].status.Running? then Some(0)
    else match RunningByName(tools[1..], name) case Some(k) => Some(k + 1) case None => None
  }

  function MatchTool(tools: seq<ToolView>, e: RunEvent): (r: Option<nat>)
    ensures r.Some? ==> r.value < |tools|
  {
    ToolById(tools, e.ToolKey()).Or(RunningByName(tools, e.ToolName()))
  }

  function FinishTool(tool: ToolView): ToolView {
    tool.(status := Done)
  }

  function FinishTools(tools: seq<ToolView>): (r: seq<ToolView>)
    ensures |r| == |tools| && forall k | 0 <= k < |r| :: r[k] == FinishTool(tools[k])
  {
    seq(|tools|, k requires 0 <= k < |tools| => FinishTool(tools[k]))
  }

  predicate AnyRunning(tools: seq<ToolView>) {
    exists k | 0 <= k < |tools| :: tools[k].status.Running?
  }

  // ---- nested subagent steps ----

  function StepById(steps: seq<Step>, id: string): (r: Option<nat>)
    ensures r.Some? ==> r.value < |steps| && steps[r.value].id == id
    ensures r.Some? ==> forall k | 0 <= k < r.value :: steps[k].id != id
    ensures r.None? ==> forall k | 0 <= k < |steps| :: steps[k].id != id
  {
    if steps == [] then None
    else if steps[0].id == id then Some(0)
    else match StepById(steps[1..], id) case Some(k) => Some(k + 1) case None => None
  }

  function FirstDone(steps: seq<Step>): (r: Option<nat>)
    ensures r.Some? ==> r.value < |steps| && steps[r.value].status.Done?
    ensures r.Some? ==> forall k | 0 <= k < r.value :: steps[k].status.Running?
    ensures r.None? ==> forall k | 0 <= k < |steps| :: steps[k].status.Running?
  {
    if steps == [] then None
    else if steps[0].status.Done? then Some(0)
    else match FirstDone(steps[1..]) case Some(k) => Some(k + 1) case None => None
  }

  function RefreshStep(step: Step, e: RunEvent): Step {
    var agent := if e.data.subagent.Some? && e.data.subagent.value != "" then e.data.subagent.value else "subagent";
    var named := step.(name := e.ToolName(), agent := agent,
                       subagentId := if e.data.subagentId.GetOr("") != "" then e.data.subagentId else step.subagentId,
                       args := e.data.args.Or(step.args), output := e.data.output.Or(step.output));
    if e.kind.ToolEnd? then named.(status := Done, isError := Some(e.data.isError == Some(true))) else named
  }

  function NewStep(e: RunEvent): Step {
    Step(e.ToolKey(), e.ToolName(), "subagent", e.data.subagentId, Running, None, None, None)
  }

  function UpsertStep(steps: seq<Step>, e: RunEvent): (r: seq<Step>)
    ensures |steps| <= |r| <= |steps| + 1
  {
    match StepById(steps, e.ToolKey())
    case Some(k) => steps[k := RefreshStep(steps[k], e)]
    case None => steps + [RefreshStep(NewStep(e), e)]
  }

  /** The first finished step goes first; only when all are running does the oldest go. */
  function EvictOne(steps: seq<Step>): (r: seq<Step>)
    requires steps != []
    ensures |r| == |steps| - 1
  {
    var k := FirstDone(steps).GetOr(0);
    steps[..k] + steps[k + 1..]
  }

  function EvictSteps(steps: seq<Step>): (r: seq<Step>)
    ensures |r| == if |steps| > MAX_SUBAGENT_STEPS then MAX_SUBAGENT_STEPS else |steps|
  {
    if |steps| > MAX_SUBAGENT_STEPS then EvictSteps(EvictOne(steps)) else steps
  }

  lemma EvictOnce(steps: seq<Step>)
    requires |steps| > MAX_SUBAGENT_STEPS
    ensures EvictSteps(steps) == EvictSteps(EvictOne(steps)) && |EvictOne(steps)| == |steps| - 1
  {
  }

  lemma NothingToEvict(steps: seq<Step>)
    requires |steps| <= MAX_SUBAGENT_STEPS
    ensures EvictSteps(steps) == steps
  {
  }

  function UpsertNestedStep(parent: ToolView, e: RunEvent): ToolView {
    var details := parent.details.GetOr(NO_DETAILS);
    var steps := UpsertStep(details.steps.GetOr([]), e);
    var kept := EvictSteps(steps);
    var omitted := if |steps| > MAX_SUBAGENT_STEPS
      then Some(details.omittedSteps.GetOr(0) + |steps| - MAX_SUBAGENT_STEPS) else details.omittedSteps;
    parent.(details := Some(Details(Some(kept), omitted, details.rest)))
  }

  lemma NestedKeepsId(parent: ToolView, e: RunEvent)
    ensures UpsertNestedStep(parent, e).id == parent.id
  {
  }

  // ---- one bubble ----

  function AppendTextBlock(blocks: seq<BlockView>, delta: string): seq<BlockView> {
    if blocks != [] && blocks[|blocks| - 1].TextBlock?
    then blocks[|blocks| - 1 := TextBlock(blocks[|blocks| - 1].text + delta)]
    else blocks + [TextBlock(delta)]
  }

  function AppendText(m: MessageView, delta: string): MessageView {
    if delta == "" then m else m.(text := m.text + delta, blocks := AppendTextBlock(m.blocks, delta))
  }

  function UpsertTool(m: MessageView, e: RunEvent): MessageView {
    match MatchTool(m.tools, e)
    case Some(k) => m.(tools := m.tools[k := Refresh(m.tools[k], e)])
    case None => m.(tools := m.tools + [Refresh(NewTool(e), e)], blocks := m.blocks + [ToolSlot])
  }

  function MarkToolsDone(m: MessageView): MessageView {
    m.(tools := FinishTools(m.tools))
  }

  function Touch(m: MessageView, at: Timestamp): MessageView {
    m.(updatedAt := Some(at))
  }

  predicate HasContent(m: MessageView) {
    !Blank(m.text) || m.tools != []
  }

  function NewAssistant(e: RunEvent): MessageView {
    MessageView(e.id, Assistant, "", e.createdAt, Some(e.createdAt), true, [], [],
                None, None, None, None, None, None, None, None, None)
  }

  function NewUser(e: RunEvent): MessageView {
    MessageView(e.id, User, e.Text(), e.createdAt, Some(e.createdAt), false, [], [],
                None, None, None, None, None, NonEmptyImages(e), e.data.followUpId, e.data.actorUserId, e.data.actorEmail)
  }

  function NonEmptyImages(e: RunEvent): Option<seq<Image>> {
    if e.data.images.Some? && e.data.images.value != [] then e.data.images else None
  }

  function SetupMessage(e: RunEvent): MessageView {
    MessageView(e.id, Setup, e.title, e.createdAt, None, false, [], [],
                Some(e.kind), Some(e.level), e.detail, e.data.url, e.data.contentType, None, None, None, None)
  }

  predicate EndsWith(text: string, suffix: string) {
    |suffix| <= |text| && text[|text| - |suffix|..] == suffix
  }

  predicate FailedKind(kind: Kind) {
    || kind.RunError?
    || (kind.SetupKind? && EndsWith(kind.name, "_failed"))
  }

  predicate SetupFailure(m: MessageView) {
    m.role.Setup? && (m.level == Some(Error) || (m.kind.Some? && FailedKind(m.kind.value)))
  }

  // ---- searching the transcript ----

  /** The newest assistant bubble that no user message follows. */
  function LastTurnAssistant(ms: seq<MessageView>): (r: Option<nat>)
    ensures r.Some? ==> r.value < |ms| && ms[r.value].role.Assistant?
    ensures r.Some? ==> forall k | r.value < k < |ms| :: ms[k].role.Setup?
  {
    if ms == [] then None
    else match ms[|ms| - 1].role
      case User => None
      case Assistant => Some(|ms| - 1)
      case Setup => LastTurnAssistant(ms[..|ms| - 1])
  }

  predicate MatchesTool(m: MessageView, e: RunEvent) {
    m.role.Assistant? && MatchTool(m.tools, e).Some?
  }

  /** The newest bubble already holding the tool this event is about. */
  function BubbleWithTool(ms: seq<MessageView>, e: RunEvent): (r: Option<nat>)
    ensures r.Some? ==> r.value < |ms| && MatchesTool(ms[r.value], e)
    ensures r.Some? ==> forall k | r.value < k < |ms| :: !MatchesTool(ms[k], e)
    ensures r.None? ==> forall k | 0 <= k < |ms| :: !MatchesTool(ms[k], e)
  {
    if ms == [] then None
    else if MatchesTool(ms[|ms| - 1], e) then Some(|ms| - 1)
    else BubbleWithTool(ms[..|ms| - 1], e)
  }

  predicate SubagentTool(tool: ToolView, runningOnly: bool) {
    tool.name == SUBAGENT_TOOL_NAME && (runningOnly ==> tool.status.Running?)
  }

  function LastSubagentTool(tools: seq<ToolView>, runningOnly: bool): (r: Option<nat>)
    ensures r.Some? ==> r.value < |tools| && SubagentTool(tools[r.value], runningOnly)
    ensures r.Some? ==> forall k | r.value < k < |tools| :: !SubagentTool(tools[k], runningOnly)
    ensures r.None? ==> forall k | 0 <= k < |tools| :: !SubagentTool(tools[k], runningOnly)
  {
    if tools == [] then None
    else if SubagentTool(tools[|tools| - 1], runningOnly) then Some(|tools| - 1)
    else LastSubagentTool(tools[..|tools| - 1], runningOnly)
  }

  predicate HoldsSubagent(m: MessageView, runningOnly: bool) {
    m.role.Assistant? && LastSubagentTool(m.tools, runningOnly).Some?
  }

  function BubbleWithSubagent(ms: seq<MessageView>, runningOnly: bool): (r: Option<nat>)
    ensures r.Some? ==> r.value < |ms| && HoldsSubagent(ms[r.value], runningOnly)
    ensures r.Some? ==> forall k | r.value < k < |ms| :: !HoldsSubagent(ms[k], runningOnly)
    ensures r.None? ==> forall k | 0 <= k < |ms| :: !HoldsSubagent(ms[k], runningOnly)
  {
    if ms == [] then None
    else if HoldsSubagent(ms[|ms| - 1], runningOnly) then Some(|ms| - 1)
    else BubbleWithSubagent(ms[..|ms| - 1], runningOnly)
  }

  predicate FollowUpOf(m: MessageView, followUpId: string) {
    m.role.User? && m.followUpId == Some(followUpId)
  }

  /** First user message of this follow-up. */
  function UserByFollowUp(ms: seq<MessageView>, followUpId: string): (r: Option<nat>)
    ensures r.Some? ==> r.value < |ms| && FollowUpOf(ms[r.value], followUpId)
    ensures r.Some? ==> forall k | 0 <= k < r.value :: !FollowUpOf(ms[k], followUpId)
    ensures r.None? ==> forall k | 0 <= k < |ms| :: !FollowUpOf(ms[k], followUpId)
  {
    if ms == [] then None
    else if FollowUpOf(ms[0], followUpId) then Some(0)
    else match UserByFollowUp(ms[1..], followUpId) case Some(k) => Some(k + 1) case None => None
  }

  // ---- transcript steps ----

  function Edit(s: TranscriptView, i: nat, m: MessageView): TranscriptView
    requires i < |s.messages|
  {
    s.(messages := s.messages[i := m])
  }

  function Push(s: TranscriptView, m: MessageView): TranscriptView {
    s.(messages := s.messages + [m])
  }

  function Without<T>(xs: seq<T>, i: nat): (r: seq<T>)
    requires i < |xs|
    ensures |r| == |xs| - 1
  {
    xs[..i] + xs[i + 1..]
  }

  function Closed(m: MessageView): MessageView {
    MarkToolsDone(m).(streaming := false)
  }

  function FinishAssistant(s: TranscriptView): (r: TranscriptView)
    requires OpenOk(s)
    ensures r.open.None?
  {
    if s.open.None? then s else
    var i := s.open.value;
    var m := Closed(s.messages[i]);
    TranscriptView(if HasContent(m) then s.messages[i := m] else Without(s.messages, i), None)
  }

  function EnsureAssistant(s: TranscriptView, e: RunEvent): (r: TranscriptView)
    requires OpenOk(s)
    ensures OpenOk(r) && r.open.Some?
  {
    if s.open.Some? then s else
    match LastTurnAssistant(s.messages)
    case Some(i) => Edit(s, i, s.messages[i].(streaming := true)).(open := Some(i))
    case None => TranscriptView(s.messages + [NewAssistant(e)], Some(|s.messages|))
  }

  function SettleOne(m: MessageView, at: Timestamp): MessageView {
    if !m.role.Assistant? then m else
    var busy := m.streaming || AnyRunning(m.tools);
    var closed := Closed(m);
    if at.text != "" && busy then Touch(closed, at) else closed
  }

  function SettleEach(ms: seq<MessageView>, at: Timestamp): (r: seq<MessageView>)
    ensures |r| == |ms| && forall k | 0 <= k < |r| :: r[k] == SettleOne(ms[k], at)
  {
    seq(|ms|, k requires 0 <= k < |ms| => SettleOne(ms[k], at))
  }

  /** Blank bubbles without a tool go; everything else stays, in order. */
  function KeepContent(ms: seq<MessageView>): seq<MessageView> {
    if ms == [] then []
    else
      var m := ms[|ms| - 1];
      KeepContent(ms[..|ms| - 1]) + if m.role.Assistant? && !HasContent(m) then [] else [m]
  }

  lemma KeepContentPush(views: seq<MessageView>, k: nat)
    requires k < |views|
    ensures KeepContent(views[..k + 1]) == KeepContent(views[..k])
      + if views[k].role.Assistant? && !HasContent(views[k]) then [] else [views[k]]
  {
    assert views[..k + 1][..k] == views[..k];
  }

  lemma NoContent()
    ensures KeepContent([]) == []
  {
  }

  function SettleAll(s: TranscriptView, at: Timestamp): (r: TranscriptView)
    ensures OpenOk(r)
  {
    TranscriptView(KeepContent(SettleEach(s.messages, at)), None)
  }

  function MarkIfAssistant(m: MessageView): MessageView {
    if m.role.Assistant? then MarkToolsDone(m) else m
  }

  function MarkEach(ms: seq<MessageView>): (r: seq<MessageView>)
    ensures |r| == |ms| && forall k | 0 <= k < |r| :: r[k] == MarkIfAssistant(ms[k])
  {
    seq(|ms|, k requires 0 <= k < |ms| => MarkIfAssistant(ms[k]))
  }

  function OpenOrLastTurn(s: TranscriptView): (r: Option<nat>)
    requires OpenOk(s)
    ensures r.Some? ==> r.value < |s.messages| && s.messages[r.value].role.Assistant?
  {
    s.open.Or(LastTurnAssistant(s.messages))
  }

  function Redeliver(m: MessageView, e: RunEvent): MessageView {
    m.(id := e.id, text := if e.Text() != "" then e.Text() else m.text, updatedAt := Some(e.createdAt),
       actorUserId := e.data.actorUserId.Or(m.actorUserId), actorEmail := e.data.actorEmail.Or(m.actorEmail),
       images := NonEmptyImages(e).Or(m.images))
  }

  function Redelivered(s: TranscriptView, e: RunEvent): (r: Option<nat>)
    ensures r.Some? ==> r.value < |s.messages| && s.messages[r.value].role.User?
    ensures r.Some? ==> e.data.followUpId.Some? && s.messages[r.value].followUpId == e.data.followUpId
  {
    if e.data.followUpId.Some? && e.data.followUpId.value != ""
    then UserByFollowUp(s.messages, e.data.followUpId.value) else None
  }

  function UserTurn(s: TranscriptView, e: RunEvent): (r: TranscriptView)
    requires OpenOk(s)
    ensures OpenOk(r)
  {
    match Redelivered(s, e)
    case Some(i) => Edit(s, i, Redeliver(s.messages[i], e))
    case None =>
      if e.Text() == "" && e.kind.FollowupQueued? then s
      else Push(FinishAssistant(s), NewUser(e))
  }

  function AgentStarted(s: TranscriptView, e: RunEvent): (r: TranscriptView)
    requires OpenOk(s)
    ensures OpenOk(r)
  {
    match OpenOrLastTurn(s)
    case Some(i) => Edit(s, i, Touch(s.messages[i].(streaming := true), e.createdAt)).(open := Some(i))
    case None => s
  }

  /** A bubble that stayed blank is dropped; any other waits for more rounds. */
  function KeepOrFinish(s: TranscriptView): (r: TranscriptView)
    requires OpenOk(s)
    ensures OpenOk(r)
  {
    match OpenOrLastTurn(s)
    case None => s
    case Some(i) =>
      if !HasContent(s.messages[i]) then FinishAssistant(s)
      else Edit(s, i, s.messages[i].(streaming := true)).(open := Some(i))
  }

  function AgentEnded(s: TranscriptView): (r: TranscriptView)
    requires OpenOk(s)
    ensures OpenOk(r)
  {
    KeepOrFinish(s.(messages := MarkEach(s.messages)))
  }

  function NestedToolEvent(s: TranscriptView, e: RunEvent): (r: TranscriptView)
    requires OpenOk(s)
    ensures OpenOk(r)
  {
    var running := BubbleWithSubagent(s.messages, true);
    var any := BubbleWithSubagent(s.messages, false);
    if running.None? && any.None? then s else
    var i := if running.Some? then running.value else any.value;
    var m := s.messages[i];
    var k := LastSubagentTool(m.tools, running.Some?).value;
    Edit(s, i, Touch(m.(tools := m.tools[k := UpsertNestedStep(m.tools[k], e)]), e.createdAt)).(open := Some(i))
  }

  function ToolTarget(s: TranscriptView, e: RunEvent): (r: TranscriptView)
    requires OpenOk(s)
    ensures OpenOk(r) && r.open.Some?
  {
    match BubbleWithTool(s.messages, e)
    case Some(i) => s.(open := Some(i))
    case None => EnsureAssistant(s, e)
  }

  function ToolEvent(s: TranscriptView, e: RunEvent): (r: TranscriptView)
    requires OpenOk(s)
    ensures OpenOk(r)
  {
    var t := ToolTarget(s, e);
    var i := t.open.value;
    Edit(t, i, Touch(UpsertTool(t.messages[i], e), e.createdAt))
  }

  function ToolStep(s: TranscriptView, e: RunEvent): (r: TranscriptView)
    requires OpenOk(s)
    ensures OpenOk(r)
  {
    if e.Nested() then NestedToolEvent(s, e) else ToolEvent(s, e)
  }

  function RunFailed(s: TranscriptView, e: RunEvent): (r: TranscriptView)
    ensures OpenOk(r)
  {
    var t := SettleAll(s, e.createdAt);
    if t.messages != [] && SetupFailure(t.messages[|t.messages| - 1]) then t else Push(t, SetupMessage(e))
  }

  /** One event. */
  function Apply(s: TranscriptView, e: RunEvent): (r: TranscriptView)
    requires OpenOk(s)
    ensures OpenOk(r)
  {
    match e.kind
    case UserMessage => UserTurn(s, e)
    case FollowupQueued => if e.data.followUpId.Some? && !Blank(e.Text()) then UserTurn(s, e) else s
    case AgentStart => AgentStarted(s, e)
    case MessageStart =>
      var t := EnsureAssistant(s, e);
      Edit(t, t.open.value, Touch(t.messages[t.open.value].(streaming := true), e.createdAt))
    case MessageDelta =>
      var t := EnsureAssistant(s, e);
      Edit(t, t.open.value, Touch(AppendText(t.messages[t.open.value], e.Delta()), e.createdAt))
    case MessageEnd =>
      if s.open.None? then s
      else Edit(s, s.open.value, Touch(s.messages[s.open.value].(streaming := false), e.createdAt))
    case AgentEnd => AgentEnded(s)
    case RunIdle => SettleAll(s, e.createdAt)
    case ToolStart => ToolStep(s, e)
    case ToolUpdate => ToolStep(s, e)
    case ToolEnd => ToolStep(s, e)
    case RunError => RunFailed(s, e)
    case SetupKind(_) => Push(s, SetupMessage(e))
    case TurnRewind => s
    case OtherKind(_) => s
  }

  /** A whole log, oldest event first. */
  function Run(s: TranscriptView, es: seq<RunEvent>): (r: TranscriptView)
    requires OpenOk(s)
    ensures OpenOk(r)
    decreases |es|
  {
    if es == [] then s else Run(Apply(s, es[0]), es[1..])
  }

  lemma {:induction false} RunConcat(s: TranscriptView, xs: seq<RunEvent>, ys: seq<RunEvent>)
    requires OpenOk(s)
    ensures Run(s, xs + ys) == Run(Run(s, xs), ys)
    decreases |xs|
  {
    if xs == [] {
      assert xs + ys == ys;
    } else {
      assert (xs + ys)[1..] == xs[1..] + ys;
      RunConcat(Apply(s, xs[0]), xs[1..], ys);
    }
  }

  lemma RunOne(s: TranscriptView, e: RunEvent)
    requires OpenOk(s)
    ensures Run(s, [e]) == Apply(s, e)
  {
    assert Run(Apply(s, e), []) == Apply(s, e);
  }

  lemma RunPush(s: TranscriptView, xs: seq<RunEvent>, e: RunEvent)
    requires OpenOk(s)
    ensures Run(s, xs + [e]) == Apply(Run(s, xs), e)
  {
    RunConcat(s, xs, [e]);
    RunOne(Run(s, xs), e);
  }
}
