/**
 What a tool event makes of a transcript, said without the steps that make it (assistantForTool and upsertTool in
 packages/contracts/src/transcript.ts, seedSubagentDetails in packages/contracts/src/subagent.ts).
 */
module ToolEffects {
  import opened Prelude
  import opened Events
  import opened Reducer
  import opened TranscriptSafety
  import opened EventEffects

  // ---- which record ----

  /** The event's own call id, or its id where it names no call. */
  predicate KeyIs(e: RunEvent, key: string) {
    key == if e.data.toolCallId.GetOr("") != "" then e.data.toolCallId.value else e.id
  }

  predicate IsRunning(tool: ToolView, name: string) {
    tool.name == name && tool.status.Running?
  }

  /** Among these tools the event is about number `k`: the first with its key, or without one the first of its name that
      runs. */
  predicate About(tools: seq<ToolView>, key: string, name: string, k: nat) {
    && k < |tools|
    && if tools[k].id == key then forall j | 0 <= j < k :: tools[j].id != key
       else
         && IsRunning(tools[k], name)
         && (forall j | 0 <= j < |tools| :: tools[j].id != key)
         && forall j | 0 <= j < k :: !IsRunning(tools[j], name)
  }

  predicate AboutNone(tools: seq<ToolView>, key: string, name: string) {
    forall j | 0 <= j < |tools| :: tools[j].id != key && !IsRunning(tools[j], name)
  }

  /** The record the event is about: in the newest bubble that has one. */
  predicate Meant(ms: seq<MessageView>, e: RunEvent, i: nat, k: nat) {
    && i < |ms| && ms[i].role.Assistant? && About(ms[i].tools, e.ToolKey(), e.ToolName(), k)
    && forall j | i < j < |ms| && ms[j].role.Assistant? :: AboutNone(ms[j].tools, e.ToolKey(), e.ToolName())
  }

  predicate NoneMeant(ms: seq<MessageView>, e: RunEvent) {
    forall j | 0 <= j < |ms| && ms[j].role.Assistant? :: AboutNone(ms[j].tools, e.ToolKey(), e.ToolName())
  }

  lemma AboutIff(tools: seq<ToolView>, e: RunEvent)
    ensures forall k: nat | k < |tools| :: About(tools, e.ToolKey(), e.ToolName(), k) <==> MatchTool(tools, e) == Some(k)
    ensures AboutNone(tools, e.ToolKey(), e.ToolName()) <==> MatchTool(tools, e).None?
  {
  }

  /** Either one record is meant or none is. */
  lemma MeantOrNone(ms: seq<MessageView>, e: RunEvent)
    ensures match BubbleWithTool(ms, e)
            case Some(i) => MatchTool(ms[i].tools, e).Some? && Meant(ms, e, i, MatchTool(ms[i].tools, e).value)
            case None => NoneMeant(ms, e)
  {
    hide About, AboutNone, MatchTool;
    forall i | 0 <= i < |ms|
      ensures ms[i].role.Assistant? ==> (AboutNone(ms[i].tools, e.ToolKey(), e.ToolName()) <==> !MatchesTool(ms[i], e))
    {
      AboutIff(ms[i].tools, e);
    }
    var found := BubbleWithTool(ms, e);
    if found.Some? {
      AboutIff(ms[found.value].tools, e);
    }
  }

  lemma MeantOnce(ms: seq<MessageView>, e: RunEvent, i: nat, k: nat)
    requires Meant(ms, e, i, k)
    ensures BubbleWithTool(ms, e) == Some(i) && MatchTool(ms[i].tools, e) == Some(k)
  {
    hide About, AboutNone, MatchTool;
    forall j | 0 <= j < |ms|
      ensures ms[j].role.Assistant? ==> (AboutNone(ms[j].tools, e.ToolKey(), e.ToolName()) <==> !MatchesTool(ms[j], e))
    {
      AboutIff(ms[j].tools, e);
    }
    AboutIff(ms[i].tools, e);
    AboutInRange(ms[i].tools, e.ToolKey(), e.ToolName(), k);
  }

  lemma AboutInRange(tools: seq<ToolView>, key: string, name: string, k: nat)
    requires About(tools, key, name, k)
    ensures k < |tools|
  {
  }

  // ---- what is written into it ----

  function Lookup(details: Option<Details>, key: string): Option<Json> {
    if details.Some? && key in details.value.rest then Some(details.value.rest[key]) else None
  }

  function StepsIn(details: Option<Details>): Option<seq<Step>> {
    if details.Some? then details.value.steps else None
  }

  function OmittedIn(details: Option<Details>): Option<int> {
    if details.Some? then details.value.omittedSteps else None
  }

  /** The subagent request in the arguments of a call of the subagent tool. */
  function Asked(tool: ToolView): Option<Request> {
    if tool.name == "neo_subagent" && tool.args.Some? then tool.args.value.request else None
  }

  /** Details, field by field: steps and tasks that are known stay, any other field is the event's if it brings one, and
      the request of a subagent call has the last word. */
  ghost predicate DetailsMerged(before: Option<Details>, brought: Option<Details>, after: ToolView) {
    && (after.details.Some? <==> before.Some? || brought.Some? || after.name == "neo_subagent")
    && StepsIn(after.details) == (if StepsIn(before).Some? then StepsIn(before) else StepsIn(brought))
    && OmittedIn(after.details) == (if OmittedIn(brought).Some? then OmittedIn(brought) else OmittedIn(before))
    && (Asked(after).Some? ==>
          && Lookup(after.details, "mode") == Some(Asked(after).value.mode)
          && Lookup(after.details, "agents") == Some(Asked(after).value.agents)
          && Lookup(after.details, "tasks") == Some(Asked(after).value.tasks))
    && (forall key: string | Asked(after).None? || key !in ["mode", "agents", "tasks"] ::
          Lookup(after.details, key) ==
            if (key == "tasks" && Lookup(before, key).Some?) || Lookup(brought, key).None? then Lookup(before, key)
            else Lookup(brought, key))
  }

  /** The record once the event is written into it. */
  ghost predicate Written(before: ToolView, e: RunEvent, after: ToolView) {
    && KeyIs(e, after.id) && after.name == e.data.toolName.GetOr("tool")
    && after.args == (if e.data.args.Some? then e.data.args else before.args)
    && after.output == (if e.data.output.Some? then e.data.output else before.output)
    && (after.status.Done? <==> before.status.Done? || e.kind.ToolEnd?)
    && after.isError == (if e.kind.ToolEnd? then Some(e.data.isError == Some(true)) else before.isError)
    && DetailsMerged(before.details, e.data.details, after)
  }

  lemma MergedDetails(previous: Option<Details>, incoming: Details)
    ensures var after := MergeDetails(previous.GetOr(NO_DETAILS), incoming);
      && after.steps == (if StepsIn(previous).Some? then StepsIn(previous) else incoming.steps)
      && after.omittedSteps == (if incoming.omittedSteps.Some? then incoming.omittedSteps else OmittedIn(previous))
      && forall key: string :: Lookup(Some(after), key) ==
           if (key == "tasks" && Lookup(previous, key).Some?) || key !in incoming.rest then Lookup(previous, key)
           else Some(incoming.rest[key])
  {
  }

  lemma SeededDetails(args: Option<Args>, existing: Option<Details>)
    ensures var after := SeedSubagentDetails(args, existing);
      && after.steps == StepsIn(existing) && after.omittedSteps == OmittedIn(existing)
      && (args.Some? && args.value.request.Some? ==>
            var request := args.value.request.value;
            && Lookup(Some(after), "mode") == Some(request.mode) && Lookup(Some(after), "agents") == Some(request.agents)
            && Lookup(Some(after), "tasks") == Some(request.tasks)
            && forall key: string | key !in ["mode", "agents", "tasks"] :: Lookup(Some(after), key) == Lookup(existing, key))
      && (args.None? || args.value.request.None? ==>
            forall key: string :: Lookup(Some(after), key) == Lookup(existing, key))
  {
  }

  lemma RefreshWrites(tool: ToolView, e: RunEvent)
    ensures Written(tool, e, Refresh(tool, e))
  {
    hide MergeDetails, SeedSubagentDetails, DetailsMerged;
    RefreshMerges(tool, e);
  }

  lemma RefreshMerges(tool: ToolView, e: RunEvent)
    ensures DetailsMerged(tool.details, e.data.details, Refresh(tool, e))
  {
    hide MergeDetails, SeedSubagentDetails;
    var args := e.data.args.Or(tool.args);
    var brought := e.data.details;
    var merged := if brought.Some? then Some(MergeDetails(tool.details.GetOr(NO_DETAILS), brought.value)) else tool.details;
    if brought.Some? {
      MergedDetails(tool.details, brought.value);
    }
    SeededDetails(args, merged);
  }

  // ---- the event on the transcript ----

  /** The same bubble with tool `k` rewritten by the event. */
  ghost predicate Rewritten(m: MessageView, e: RunEvent, k: nat, after: MessageView) {
    && k < |m.tools| == |after.tools| && Written(m.tools[k], e, after.tools[k])
    && after == m.(tools := m.tools[k := after.tools[k]], updatedAt := Some(e.createdAt))
  }

  /** An event about a record is written into it, in the bubble that has it; that bubble is open from then on, and
      nothing else changes. */
  lemma ToolEventRewrites(s: TranscriptView, e: RunEvent, i: nat, k: nat)
    requires OpenOk(s) && ToolKind(e) && !e.Nested() && Meant(s.messages, e, i, k)
    ensures var t := Apply(s, e);
      t.open == Some(i) && OnlyAt(s.messages, t.messages, i) && Rewritten(s.messages[i], e, k, t.messages[i])
  {
    hide BubbleWithTool, MatchTool, Refresh, Written, Meant;
    MeantOnce(s.messages, e, i, k);
    RefreshWrites(s.messages[i].tools[k], e);
  }

  /** A call that has no record yet: running, with nothing known of it. */
  predicate IsBlank(tool: ToolView) {
    tool.status.Running? && tool.isError.None? && tool.args.None? && tool.output.None? && tool.details.None?
  }

  /** The same bubble with one more tool, behind all others and behind all text. */
  ghost predicate Extended(m: MessageView, e: RunEvent, after: MessageView) {
    && |after.tools| == |m.tools| + 1
    && (exists blank :: IsBlank(blank) && Written(blank, e, after.tools[|m.tools|]))
    && after == m.(tools := m.tools + [after.tools[|m.tools|]], blocks := m.blocks + [ToolSlot],
                   updatedAt := Some(e.createdAt))
  }

  /** An event about no record yet adds one to the bubble at work. */
  lemma ToolEventAdds(s: TranscriptView, e: RunEvent) returns (at: nat, before: MessageView)
    requires OpenOk(s) && ToolKind(e) && !e.Nested() && NoneMeant(s.messages, e)
    ensures var t := Apply(s, e); GoesTo(s, e, t, at, before) && Extended(before, e, t.messages[at])
  {
    hide BubbleWithTool, EnsureAssistant, GoesTo, Meant, UpsertTool, About, AboutNone;
    MeantOrNone(s.messages, e);
    NotBoth(s.messages, e);
    var ensured := EnsureAssistant(s, e);
    at := ensured.open.value;
    before := ensured.messages[at];
    EnsureGoesTo(s, e, Touch(UpsertTool(before, e), e.createdAt));
    EnsuredHasNone(s, e);
    UpsertAdds(before, e);
  }

  lemma NotBoth(ms: seq<MessageView>, e: RunEvent)
    requires NoneMeant(ms, e)
    ensures BubbleWithTool(ms, e).None?
  {
    forall j | 0 <= j < |ms|
      ensures !MatchesTool(ms[j], e)
    {
      AboutIff(ms[j].tools, e);
    }
  }

  lemma EnsuredHasNone(s: TranscriptView, e: RunEvent)
    requires OpenOk(s) && BubbleWithTool(s.messages, e).None?
    ensures var ensured := EnsureAssistant(s, e); MatchTool(ensured.messages[ensured.open.value].tools, e).None?
  {
    hide BubbleWithTool;
  }

  lemma UpsertAdds(m: MessageView, e: RunEvent)
    requires MatchTool(m.tools, e).None?
    ensures Extended(m, e, Touch(UpsertTool(m, e), e.createdAt))
  {
    hide Refresh, Written, MatchTool;
    RefreshWrites(NewTool(e), e);
    assert IsBlank(NewTool(e));
  }
}
