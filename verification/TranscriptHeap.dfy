/**
 The transcript reducer as the program runs it: mutable messages, tool records
 shared between `tools` and `blocks`, and an `open` reference into the list.
 Every method is proved to do to the objects what Reducer.dfy does to values.
 */
module TranscriptHeap {
  import opened Prelude
  import opened Events
  import opened Reducer

  class Tool {
    var id: string
    var name: string
    var status: Status
    var isError: Option<bool>
    var args: Option<Args>
    var output: Option<string>
    var details: Option<Details>

    ghost function View(): ToolView
      reads this
    {
      ToolView(id, name, status, isError, args, output, details)
    }

    constructor (id: string, name: string)
      ensures View() == ToolView(id, name, Running, None, None, None, None)
    {
      this.id, this.name, status := id, name, Running;
      isError, args, output, details := None, None, None, None;
    }

    /** `{ ...tool, details: cloneDetails(tool.details) }` */
    constructor Copy(tool: Tool)
      ensures View() == tool.View()
    {
      id, name, status, isError := tool.id, tool.name, tool.status, tool.isError;
      args, output, details := tool.args, tool.output, tool.details;
    }

    /** The second half of upsertTool: write the event into the record. */
    method Refresh(e: RunEvent)
      modifies this
      ensures View() == Reducer.Refresh(old(View()), e)
    {
      id := e.ToolKey();
      name := e.ToolName();
      if e.data.args.Some? {
        args := e.data.args;
      }
      if e.data.output.Some? {
        output := e.data.output;
      }
      if e.data.details.Some? {
        details := Some(MergeDetails(details.GetOr(NO_DETAILS), e.data.details.value));
      }
      if name == SUBAGENT_TOOL_NAME {
        details := Some(SeedSubagentDetails(args, details));
      }
      if e.kind.ToolEnd? {
        status := Done;
        isError := Some(e.data.isError == Some(true));
      }
    }

    /** Record a step of a nested subagent, forgetting the oldest ones past the limit. */
    method UpsertNestedStep(e: RunEvent)
      modifies this
      ensures View() == Reducer.UpsertNestedStep(old(View()), e)
    {
      var before := details.GetOr(NO_DETAILS);
      var steps := before.steps.GetOr([]);
      var found := StepById(steps, e.ToolKey());
      if found.None? {
        steps := steps + [RefreshStep(NewStep(e), e)];
      } else {
        steps := steps[found.value := RefreshStep(steps[found.value], e)];
      }
      var kept, omitted := Evict(steps, before.omittedSteps);
      details := Some(Details(Some(kept), omitted, before.rest));
    }
  }

  method Evict(all: seq<Step>, before: Option<int>) returns (steps: seq<Step>, omitted: Option<int>)
    ensures steps == EvictSteps(all)
    ensures omitted == if |all| > MAX_SUBAGENT_STEPS then Some(before.GetOr(0) + |all| - MAX_SUBAGENT_STEPS) else before
  {
    hide EvictSteps;
    steps, omitted := all, before;
    while |steps| > MAX_SUBAGENT_STEPS
      invariant EvictSteps(steps) == EvictSteps(all)
      invariant |steps| == |all| ==> omitted == before
      invariant |steps| < |all| ==> omitted == Some(before.GetOr(0) + |all| - |steps|)
      invariant |steps| <= |all| && (|steps| < |all| ==> |steps| >= MAX_SUBAGENT_STEPS)
    {
      EvictOnce(steps);
      var done := FirstDone(steps);
      var k := if done.Some? then done.value else 0;
      steps := steps[..k] + steps[k + 1..];
      omitted := Some(omitted.GetOr(0) + 1);
    }
    NothingToEvict(steps);
  }

  /** A text segment, or the place of a tool record between text segments. */
  class Block {
    const tool: Tool?
    var text: string

    ghost function View(): BlockView
      reads this
    {
      if tool == null then TextBlock(text) else ToolSlot
    }

    constructor Text(text: string)
      ensures tool == null && View() == TextBlock(text)
    {
      this.tool, this.text := null, text;
    }

    constructor ForTool(tool: Tool)
      ensures this.tool == tool && View() == ToolSlot
    {
      this.tool, this.text := tool, "";
    }
  }

  ghost function ToolViews(tools: seq<Tool>): (r: seq<ToolView>)
    reads tools
    ensures |r| == |tools| && forall k | 0 <= k < |r| :: r[k] == tools[k].View()
  {
    seq(|tools|, k requires 0 <= k < |tools| reads tools => tools[k].View())
  }

  ghost function BlockViews(blocks: seq<Block>): (r: seq<BlockView>)
    reads blocks
    ensures |r| == |blocks| && forall k | 0 <= k < |r| :: r[k] == blocks[k].View()
  {
    seq(|blocks|, k requires 0 <= k < |blocks| reads blocks => blocks[k].View())
  }

  /** The tool records the blocks point to, in order. */
  ghost function ToolsOf(blocks: seq<Block>): seq<Tool> {
    if blocks == [] then []
    else ToolsOf(blocks[..|blocks| - 1]) + if blocks[|blocks| - 1].tool == null then [] else [blocks[|blocks| - 1].tool]
  }

  ghost predicate Distinct<T>(xs: seq<T>) {
    forall i, j | 0 <= i < j < |xs| :: xs[i] != xs[j]
  }

  lemma ToolsOfPush(blocks: seq<Block>, b: Block)
    ensures ToolsOf(blocks + [b]) == ToolsOf(blocks) + if b.tool == null then [] else [b.tool]
  {
    assert (blocks + [b])[..|blocks|] == blocks;
  }

  lemma {:induction false} ToolsOfHas(blocks: seq<Block>, k: nat)
    requires k < |blocks| && blocks[k].tool != null
    ensures blocks[k].tool in ToolsOf(blocks)
  {
    if k < |blocks| - 1 {
      ToolsOfHas(blocks[..|blocks| - 1], k);
    }
  }

  class Message {
    var id: string
    const role: Role
    var text: string
    const createdAt: Timestamp
    var updatedAt: Option<Timestamp>
    var streaming: bool
    var tools: seq<Tool>
    var blocks: seq<Block>
    const kind: Option<Kind>
    const level: Option<Level>
    const detail: Option<string>
    const href: Option<string>
    const mediaType: Option<string>
    var images: Option<seq<Image>>
    const followUpId: Option<string>
    var actorUserId: Option<string>
    var actorEmail: Option<string>
    /** Each tool record is the one its block points to, in the same order: so it is with every message that was
        compiled, and not with one that was just read off the wire. */
    ghost const lined: bool
    ghost var Repr: set<object>

    ghost predicate Valid()
      reads this
      ensures Valid() ==> this in Repr
    {
      && this in Repr
      && (forall k | 0 <= k < |tools| :: tools[k] in Repr)
      && (forall k | 0 <= k < |blocks| :: blocks[k] in Repr)
      && (forall k | 0 <= k < |ToolsOf(blocks)| :: ToolsOf(blocks)[k] in Repr)
      && Distinct(tools) && Distinct(blocks)
      && (lined ==> ToolsOf(blocks) == tools)
    }

    ghost function View(): MessageView
      reads this, tools, blocks
    {
      MessageView(id, role, text, createdAt, updatedAt, streaming, ToolViews(tools), BlockViews(blocks),
                  kind, level, detail, href, mediaType, images, followUpId, actorUserId, actorEmail)
    }

    /** A new message; `v` has neither tools nor blocks. */
    constructor (v: MessageView)
      requires v.tools == [] && v.blocks == []
      ensures Valid() && lined && Repr == {this} && View() == v
    {
      lined := true;
      id, role, text, createdAt, updatedAt, streaming := v.id, v.role, v.text, v.createdAt, v.updatedAt, v.streaming;
      tools, blocks := [], [];
      kind, level, detail, href, mediaType := v.kind, v.level, v.detail, v.href, v.mediaType;
      images, followUpId, actorUserId, actorEmail := v.images, v.followUpId, v.actorUserId, v.actorEmail;
      Repr := {this};
    }

    /** `{ ...message, tools, blocks }` */
    constructor Copy(m: Message, tools: seq<Tool>, blocks: seq<Block>)
      ensures this.tools == tools && this.blocks == blocks && (lined <==> ToolsOf(blocks) == tools)
      ensures Repr == {this as object} + (set t: object | t in tools) + (set b: object | b in blocks)
                      + (set t: object | t in ToolsOf(blocks))
      ensures View() == m.View().(tools := ToolViews(tools), blocks := BlockViews(blocks))
      ensures Distinct(tools) && Distinct(blocks) ==> Valid()
    {
      hide ToolsOf, Distinct;
      id, role, text, createdAt, updatedAt, streaming := m.id, m.role, m.text, m.createdAt, m.updatedAt, m.streaming;
      this.tools, this.blocks := tools, blocks;
      lined := ToolsOf(blocks) == tools;
      kind, level, detail, href, mediaType := m.kind, m.level, m.detail, m.href, m.mediaType;
      images, followUpId, actorUserId, actorEmail := m.images, m.followUpId, m.actorUserId, m.actorEmail;
      Repr := {this};
      new;
      Repr := Repr + (set t: object | t in tools) + (set b: object | b in blocks)
              + (set t: object | t in ToolsOf(blocks));
    }

    method ExtendLastBlock(delta: string)
      requires Distinct(blocks) && blocks != [] && blocks[|blocks| - 1].tool == null
      modifies blocks[|blocks| - 1]
      ensures BlockViews(blocks)
           == old(BlockViews(blocks))[|blocks| - 1 := TextBlock(old(BlockViews(blocks))[|blocks| - 1].text + delta)]
    {
      var last := blocks[|blocks| - 1];
      last.text := last.text + delta;
    }

    method PushBlock(b: Block)
      requires b !in blocks && Distinct(blocks)
      modifies this`blocks
      ensures blocks == old(blocks) + [b] && Distinct(blocks)
      ensures BlockViews(blocks) == old(BlockViews(blocks)) + [b.View()]
      ensures ToolsOf(blocks) == old(ToolsOf(blocks)) + if b.tool == null then [] else [b.tool]
    {
      ToolsOfPush(blocks, b);
      blocks := blocks + [b];
    }

    method AppendToBlocks(delta: string)
      requires Valid()
      modifies blocks, this`blocks, this`Repr
      ensures Valid() && fresh(Repr - old(Repr))
      ensures BlockViews(blocks) == AppendTextBlock(old(BlockViews(blocks)), delta)
    {
      hide ToolsOf, Distinct;
      if blocks != [] && blocks[|blocks| - 1].tool == null {
        ExtendLastBlock(delta);
      } else {
        var b := new Block.Text(delta);
        PushBlock(b);
        Repr := Repr + {b};
      }
    }

    method AppendText(delta: string)
      requires Valid()
      modifies Repr
      ensures Valid() && fresh(Repr - old(Repr))
      ensures View() == Reducer.AppendText(old(View()), delta)
    {
      if delta == "" {
        return;
      }
      text := text + delta;
      AppendToBlocks(delta);
      assert ToolViews(tools) == old(ToolViews(tools));
    }

    /** First tool the event is about: by id, else a running one by name. */
    method FindTool(e: RunEvent) returns (found: Option<nat>)
      ensures found == MatchTool(ToolViews(tools), e)
    {
      var id, name := e.ToolKey(), e.ToolName();
      for k := 0 to |tools|
        invariant forall j | 0 <= j < k :: tools[j].View().id != id
      {
        if tools[k].id == id {
          return Some(k);
        }
      }
      for k := 0 to |tools|
        invariant forall j | 0 <= j < k :: !(tools[j].View().name == name && tools[j].View().status.Running?)
      {
        if tools[k].name == name && tools[k].status.Running? {
          return Some(k);
        }
      }
      return None;
    }

    /** One record, reachable from `tools` and from `blocks`. */
    method PushTool(tool: Tool)
      requires Valid() && tool !in tools
      modifies this`tools, this`blocks, this`Repr
      ensures Valid() && tools == old(tools) + [tool] && fresh(Repr - old(Repr) - {tool})
      ensures BlockViews(blocks) == old(BlockViews(blocks)) + [ToolSlot]
    {
      hide ToolsOf;
      var b := new Block.ForTool(tool);
      tools := tools + [tool];
      PushBlock(b);
      Repr := Repr + {tool, b};
    }

    method AddTool(e: RunEvent)
      requires Valid()
      modifies this`tools, this`blocks, this`Repr
      ensures Valid() && fresh(Repr - old(Repr))
      ensures BlockViews(blocks) == old(BlockViews(blocks)) + [ToolSlot]
      ensures ToolViews(tools) == old(ToolViews(tools)) + [Reducer.Refresh(Reducer.NewTool(e), e)]
    {
      var tool := new Tool(e.ToolKey(), e.ToolName());
      PushTool(tool);
      assert ToolViews(tools) == old(ToolViews(tools)) + [Reducer.NewTool(e)];
      RefreshTool(|tools| - 1, e);
    }

    method RefreshTool(k: nat, e: RunEvent)
      requires Distinct(tools) && k < |tools|
      modifies tools[k]
      ensures ToolViews(tools) == old(ToolViews(tools))[k := Reducer.Refresh(old(ToolViews(tools))[k], e)]
    {
      tools[k].Refresh(e);
    }

    method UpsertTool(e: RunEvent)
      requires Valid()
      modifies Repr
      ensures Valid() && fresh(Repr - old(Repr))
      ensures View() == Reducer.UpsertTool(old(View()), e)
    {
      var found := FindTool(e);
      if found.None? {
        AddTool(e);
      } else {
        RefreshTool(found.value, e);
        assert BlockViews(blocks) == old(BlockViews(blocks));
      }
    }

    method FinishListed()
      requires Valid()
      modifies tools
      ensures forall j | 0 <= j < |tools| :: tools[j].View() == FinishTool(old(tools[j].View()))
    {
      hide ToolsOf;
      for k := 0 to |tools|
        invariant forall j | 0 <= j < k :: tools[j].View() == FinishTool(old(tools[j].View()))
        invariant forall j | k <= j < |tools| :: tools[j].View() == old(tools[j].View())
      {
        if tools[k].status.Running? {
          tools[k].status := Done;
        }
      }
    }

    method FinishShown()
      requires forall j | 0 <= j < |tools| :: tools[j].status.Done?
      modifies ToolsOf(blocks)
      ensures forall j | 0 <= j < |tools| :: tools[j].View() == old(tools[j].View())
    {
      for k := 0 to |blocks|
        invariant forall j | 0 <= j < |tools| :: tools[j].View() == old(tools[j].View())
      {
        if blocks[k].tool != null && blocks[k].tool.status.Running? {
          ToolsOfHas(blocks, k);
          blocks[k].tool.status := Done;
        }
      }
    }

    method MarkToolsDone()
      requires Valid()
      modifies tools, ToolsOf(blocks)
      ensures View() == Reducer.MarkToolsDone(old(View()))
    {
      hide ToolsOf;
      ghost var was := ToolViews(tools);
      FinishListed();
      assert forall j | 0 <= j < |tools| :: tools[j].View().status.Done?;
      FinishShown();
      assert ToolViews(tools) == FinishTools(was);
    }

    /** touch */
    method Touch(at: Timestamp)
      modifies this`updatedAt
      ensures View() == Reducer.Touch(old(View()), at)
    {
      updatedAt := Some(at);
      assert ToolViews(tools) == old(ToolViews(tools)) && BlockViews(blocks) == old(BlockViews(blocks));
    }

    /** The same follow-up again: the message is updated where it stands. */
    method Redeliver(e: RunEvent)
      requires Valid()
      modifies this
      ensures Valid() && Repr == old(Repr)
      ensures View() == Reducer.Redeliver(old(View()), e)
    {
      hide ToolsOf, Distinct;
      id := e.id;
      if e.Text() != "" {
        text := e.Text();
      }
      updatedAt := Some(e.createdAt);
      actorUserId := e.data.actorUserId.Or(actorUserId);
      actorEmail := e.data.actorEmail.Or(actorEmail);
      if NonEmptyImages(e).Some? {
        images := NonEmptyImages(e);
      }
      assert ToolViews(tools) == old(ToolViews(tools)) && BlockViews(blocks) == old(BlockViews(blocks));
    }

    /** The bubble holds the tool this event is about. */
    method HoldsTool(e: RunEvent) returns (r: bool)
      ensures r == MatchesTool(View(), e)
    {
      if !role.Assistant? {
        return false;
      }
      var found := FindTool(e);
      return found.Some?;
    }

    method NestedStep(k: nat, e: RunEvent)
      requires Distinct(tools) && k < |tools|
      modifies tools[k]
      ensures ToolViews(tools) == old(ToolViews(tools))[k := Reducer.UpsertNestedStep(old(ToolViews(tools))[k], e)]
    {
      tools[k].UpsertNestedStep(e);
    }

    /** Last subagent tool, running only or any. */
    method LastSubagent(runningOnly: bool) returns (found: Option<nat>)
      ensures found == LastSubagentTool(ToolViews(tools), runningOnly)
    {
      var k := |tools|;
      while k > 0
        invariant 0 <= k <= |tools|
        invariant forall j | k <= j < |tools| :: !SubagentTool(tools[j].View(), runningOnly)
      {
        k := k - 1;
        var tool := tools[k];
        if tool.name != SUBAGENT_TOOL_NAME {
          continue;
        }
        if runningOnly && tool.status != Running {
          continue;
        }
        return Some(k);
      }
      return None;
    }

    /** A bubble's share of finishAssistant. */
    method Close()
      requires Valid()
      modifies this`streaming, tools, ToolsOf(blocks)
      ensures View() == Closed(old(View()))
    {
      streaming := false;
      MarkToolsDone();
      assert BlockViews(blocks) == old(BlockViews(blocks));
    }

    method HeldSubagent(runningOnly: bool) returns (found: Option<nat>)
      ensures found.Some? <==> Reducer.HoldsSubagent(View(), runningOnly)
      ensures found.Some? ==> LastSubagentTool(View().tools, runningOnly) == found
    {
      if !role.Assistant? {
        return None;
      }
      found := LastSubagent(runningOnly);
    }

    method ToolRunning() returns (running: bool)
      ensures running == AnyRunning(ToolViews(tools))
    {
      for k := 0 to |tools|
        invariant forall j | 0 <= j < k :: !tools[j].View().status.Running?
      {
        if tools[k].status.Running? {
          assert ToolViews(tools)[k].status.Running?;
          return true;
        }
      }
      return false;
    }

    /** A bubble's share of settleAll. */
    method Settle(at: Timestamp)
      requires Valid() && role.Assistant?
      modifies this`streaming, this`updatedAt, tools, ToolsOf(blocks)
      ensures View() == SettleOne(old(View()), at)
    {
      hide ToolsOf, Distinct, FinishTools;
      var busy := ToolRunning();
      busy := streaming || busy;
      streaming := false;
      if at.text != "" && busy {
        updatedAt := Some(at);
      }
      MarkToolsDone();
      assert BlockViews(blocks) == old(BlockViews(blocks));
    }

    /** `text.trim()` is not empty, or there is a tool. */
    method HasContent() returns (r: bool)
      ensures r == Reducer.HasContent(View())
    {
      r := !Blank(text) || |tools| > 0;
    }
  }

  // ---- a list of messages ----

  /** `messages.lastIndexOf(m)` */
  function IndexOf(ms: seq<Message>, m: Message?): (r: Option<nat>)
    ensures r.Some? ==> r.value < |ms| && ms[r.value] == m
    ensures r.None? ==> m == null || m !in ms
  {
    if ms == [] || m == null then None
    else if ms[|ms| - 1] == m then Some(|ms| - 1)
    else IndexOf(ms[..|ms| - 1], m)
  }

  lemma WithoutUpdated<T>(xs: seq<T>, i: nat, x: T)
    requires i < |xs|
    ensures Without(xs[i := x], i) == Without(xs, i)
  {
  }

  class BuildState {
    var messages: seq<Message>
    var open: Message?
    ghost var Repr: set<object>

    /** The messages that came in with blocks and tools apart. */
    ghost const apart: set<Message>

    ghost predicate Valid()
      reads this, Repr
      ensures Valid() ==> this in Repr
    {
      && this in Repr
      && (forall k | 0 <= k < |messages| ::
            messages[k] in Repr && messages[k].Repr <= Repr && this !in messages[k].Repr && messages[k].Valid())
      && (forall i, j | 0 <= i < j < |messages| :: messages[i] != messages[j] && messages[i].Repr !! messages[j].Repr)
      && (open != null ==> open in messages && open.role.Assistant?)
      && (forall k | 0 <= k < |messages| :: messages[k].lined || messages[k] in apart)
    }

    ghost function Views(): (r: seq<MessageView>)
      requires Valid()
      reads this, Repr
      ensures |r| == |messages| && forall k | 0 <= k < |r| :: r[k] == messages[k].View()
    {
      seq(|messages|, k requires Valid() && 0 <= k < |messages| reads this, Repr => messages[k].View())
    }

    ghost function View(): (r: TranscriptView)
      requires Valid()
      reads this, Repr
      ensures OpenOk(r)
    {
      TranscriptView(Views(), IndexOf(messages, open))
    }

    constructor ()
      ensures Valid() && fresh(Repr) && View() == EMPTY && messages == [] && apart == {}
    {
      apart := {};
      messages, open := [], null;
      Repr := {this};
    }

    /** A state of messages that share nothing, none of them open; `parts` are the objects they are made of. */
    constructor Of(ms: seq<Message>, ghost parts: set<object>)
      requires forall k | 0 <= k < |ms| :: ms[k].Valid() && ms[k].Repr <= parts
      requires forall i, j | 0 <= i < j < |ms| :: ms[i] != ms[j] && ms[i].Repr !! ms[j].Repr
      ensures Valid() && messages == ms && open == null && Repr == {this} + parts
      ensures apart == set m | m in ms && !m.lined
      ensures View().open.None? && |View().messages| == |ms|
      ensures forall k | 0 <= k < |ms| :: View().messages[k] == ms[k].View()
    {
      hide Message.Valid, Message.View;
      apart := set m | m in ms && !m.lined;
      messages, open := ms, null;
      Repr := {this};
      new;
      Repr := Repr + parts;
    }

    twostate lemma Untouched(i: nat)
      requires old(Valid()) && messages == old(messages) && i < |messages|
      requires forall o: object | o in old(Repr) && o != this && o !in old(messages[i].Repr) :: unchanged(o)
      ensures forall k | 0 <= k < |messages| && k != i ::
                unchanged(messages[k]) && messages[k].View() == old(messages[k].View())
    {
      forall k | 0 <= k < |messages| && k != i
        ensures unchanged(messages[k]) && messages[k].View() == old(messages[k].View())
      {
        var m := messages[k];
        assert old(m.Repr) !! old(messages[i].Repr);
        assert unchanged(m);
        assert ToolViews(m.tools) == old(ToolViews(m.tools));
        assert BlockViews(m.blocks) == old(BlockViews(m.blocks));
      }
    }

    /** Work on message `i` alone changes the view of message `i` alone. */
    twostate lemma Edited(i: nat)
      requires old(Valid()) && messages == old(messages) && open == old(open) && i < |messages|
      requires forall o: object | o in old(Repr) && o != this && o !in old(messages[i].Repr) :: unchanged(o)
      requires messages[i].Valid() && fresh(messages[i].Repr - old(messages[i].Repr))
      requires Repr == old(Repr) + messages[i].Repr
      ensures Valid() && fresh(Repr - old(Repr))
      ensures Views() == old(Views())[i := messages[i].View()]
    {
      Untouched(i);
    }

    // ---- work on one message of the list ----

    method SetStreaming(m: Message, ghost i: nat, streaming: bool)
      requires Valid() && i < |messages| && messages[i] == m
      modifies Repr
      ensures Valid() && fresh(Repr - old(Repr)) && messages == old(messages)
      ensures View() == Edit(old(View()), i, old(View()).messages[i].(streaming := streaming))
    {
      m.streaming := streaming;
      Edited(i);
    }

    method TouchStreaming(m: Message, ghost i: nat, streaming: bool, at: Timestamp)
      requires Valid() && i < |messages| && messages[i] == m
      modifies Repr
      ensures Valid() && fresh(Repr - old(Repr)) && messages == old(messages)
      ensures View() == Edit(old(View()), i, Touch(old(View()).messages[i].(streaming := streaming), at))
    {
      m.streaming := streaming;
      m.updatedAt := Some(at);
      Edited(i);
    }

    method AppendDelta(m: Message, ghost i: nat, delta: string, at: Timestamp)
      requires Valid() && i < |messages| && messages[i] == m
      modifies Repr
      ensures Valid() && fresh(Repr - old(Repr)) && messages == old(messages)
      ensures View() == Edit(old(View()), i, Touch(AppendText(old(View()).messages[i], delta), at))
    {
      hide Reducer.AppendText, Reducer.Touch, ToolsOf, Distinct;
      m.AppendText(delta);
      m.Touch(at);
      Repr := Repr + m.Repr;
      Edited(i);
    }

    method UpsertToolIn(m: Message, ghost i: nat, e: RunEvent)
      requires Valid() && i < |messages| && messages[i] == m
      modifies Repr
      ensures Valid() && fresh(Repr - old(Repr)) && messages == old(messages)
      ensures View() == Edit(old(View()), i, Touch(UpsertTool(old(View()).messages[i], e), e.createdAt))
    {
      hide Reducer.UpsertTool, Reducer.Touch, ToolsOf, Distinct;
      m.UpsertTool(e);
      m.Touch(e.createdAt);
      Repr := Repr + m.Repr;
      Edited(i);
    }

    method NestedStepIn(m: Message, ghost i: nat, k: nat, e: RunEvent)
      requires Valid() && i < |messages| && messages[i] == m && k < |m.tools|
      modifies Repr
      ensures Valid() && fresh(Repr - old(Repr)) && messages == old(messages)
      ensures View() == Edit(old(View()), i, 
                                   var v := old(View()).messages[i];
                                   Touch(v.(tools := v.tools[k := UpsertNestedStep(v.tools[k], e)]), e.createdAt))
    {
      m.NestedStep(k, e);
      assert BlockViews(m.blocks) == old(BlockViews(m.blocks));
      m.Touch(e.createdAt);
      Edited(i);
    }

    method Redeliver(m: Message, ghost i: nat, e: RunEvent)
      requires Valid() && i < |messages| && messages[i] == m
      modifies Repr
      ensures Valid() && fresh(Repr - old(Repr)) && messages == old(messages)
      ensures View() == Edit(old(View()), i, Reducer.Redeliver(old(View()).messages[i], e))
    {
      m.Redeliver(e);
      Edited(i);
    }

    method MarkMessage(m: Message, ghost i: nat)
      requires Valid() && i < |messages| && messages[i] == m
      modifies Repr
      ensures Valid() && fresh(Repr - old(Repr)) && messages == old(messages)
      ensures View() == Edit(old(View()), i, MarkToolsDone(old(View()).messages[i]))
    {
      m.MarkToolsDone();
      Edited(i);
    }

    method SettleMessage(m: Message, ghost i: nat, at: Timestamp)
      requires Valid() && i < |messages| && messages[i] == m && m.role.Assistant?
      modifies Repr
      ensures Valid() && fresh(Repr - old(Repr)) && messages == old(messages)
      ensures View() == Edit(old(View()), i, SettleOne(old(View()).messages[i], at))
    {
      m.Settle(at);
      Edited(i);
    }

    method CloseMessage(m: Message, ghost i: nat) returns (content: bool)
      requires Valid() && i < |messages| && messages[i] == m
      modifies Repr
      ensures Valid() && fresh(Repr - old(Repr)) && messages == old(messages)
      ensures View() == Edit(old(View()), i, Closed(old(View()).messages[i]))
      ensures content == Reducer.HasContent(View().messages[i])
    {
      m.Close();
      Edited(i);
      content := m.HasContent();
    }

    // ---- work on the list ----

    method Adopt(m: Message)
      requires Valid() && m.Valid() && m.Repr !! Repr && m.lined
      modifies this
      ensures Valid() && Repr == old(Repr) + m.Repr && open == old(open) && messages == old(messages) + [m]
      ensures View() == Reducer.Push(old(View()), m.View())
    {
      hide Message.Valid, Message.View;
      messages := messages + [m];
      Repr := Repr + m.Repr;
      assert Views() == old(Views()) + [m.View()];
      assert open != null ==> IndexOf(messages, open) == old(IndexOf(messages, open)) by {
        assert messages[..|messages| - 1] == old(messages);
      }
    }

    method Push(v: MessageView) returns (m: Message)
      requires Valid() && v.tools == [] && v.blocks == []
      modifies this
      ensures Valid() && fresh(Repr - old(Repr))
      ensures fresh(m) && m.lined && m.role == v.role && messages == old(messages) + [m]
      ensures View() == Reducer.Push(old(View()), v)
    {
      m := new Message(v);
      Adopt(m);
    }

    /** The position of a message is where it stands. */
    lemma IndexOfDistinct(i: nat)
      requires Valid() && i < |messages|
      ensures IndexOf(messages, messages[i]) == Some(i)
    {
    }

    lemma OpenIsListed()
      requires Valid()
      ensures open != null ==> open.role.Assistant? && IndexOf(messages, open).Some?
    {
    }

    method SetOpen(m: Message, ghost i: nat)
      requires Valid() && i < |messages| && messages[i] == m && m.role.Assistant?
      modifies this`open
      ensures Valid() && open == m && View() == old(View()).(open := Some(i))
    {
      hide Message.Valid, Message.View, IndexOf;
      IndexOfDistinct(i);
      open := m;
      assert Views() == old(Views());
    }

    method ClearOpen()
      requires Valid()
      modifies this`open
      ensures Valid() && View() == old(View()).(open := None)
    {
      hide Message.Valid, Message.View;
      open := null;
      assert Views() == old(Views());
    }

    /** Keep some of the messages, in order, and close the cursor. */
    method Keep(kept: seq<Message>, ghost from: seq<nat>)
      requires Valid()
      requires |from| == |kept| && forall k | 0 <= k < |kept| :: from[k] < |messages| && kept[k] == messages[from[k]]
      requires forall j, k | 0 <= j < k < |from| :: from[j] < from[k]
      modifies this`messages, this`open
      ensures Valid() && View().open == None && |View().messages| == |kept|
      ensures forall k | 0 <= k < |kept| :: View().messages[k] == old(View()).messages[from[k]]
    {
      messages := kept;
      open := null;
    }

    method Splice(i: nat)
      requires Valid() && i < |messages|
      modifies this`messages, this`open
      ensures Valid() && View() == TranscriptView(Without(old(View()).messages, i), None)
    {
      hide Valid, Views;
      ghost var n := |messages| - 1;
      ghost var from: seq<nat> := seq(n, k requires 0 <= k < n => if k < i then k else k + 1);
      Keep(Without(messages, i), from);
      assert View().messages == Without(old(View()).messages, i);
    }

    method FinishAssistant()
      requires Valid()
      modifies Repr
      ensures Valid() && fresh(Repr - old(Repr))
      ensures View() == Reducer.FinishAssistant(old(View()))
    {
      hide Valid, Views, IndexOf, Reducer.UpsertTool, Reducer.Touch, Reducer.BubbleWithTool, Reducer.BubbleWithSubagent;
      hide Reducer.LastTurnAssistant, Reducer.LastSubagentTool, Reducer.UserByFollowUp, Reducer.UpsertNestedStep;
      ghost var s := View();
      if open == null {
        return;
      }
      OpenIsListed();
      var i := IndexOf(messages, open).value;
      var content := CloseMessage(open, i);
      if content {
        ClearOpen();
      } else {
        Splice(i);
        WithoutUpdated(s.messages, i, Closed(s.messages[i]));
      }
    }

    // ---- searching ----

    method LastTurnAssistant() returns (found: Message?)
      requires Valid()
      ensures match Reducer.LastTurnAssistant(Views())
              case None => found == null
              case Some(i) => found == messages[i]
    {
      hide Valid, Views, IndexOf, Reducer.UpsertTool, Reducer.Touch, Reducer.BubbleWithTool, Reducer.BubbleWithSubagent;
      ghost var views := Views();
      var index := |messages|;
      assert views[..index] == views;
      while index > 0
        invariant 0 <= index <= |messages|
        invariant Reducer.LastTurnAssistant(views[..index]) == Reducer.LastTurnAssistant(views)
      {
        assert views[..index][..index - 1] == views[..index - 1];
        index := index - 1;
        var message := messages[index];
        if message.role.User? {
          return null;
        }
        if message.role.Assistant? {
          return message;
        }
      }
      return null;
    }

    /** The newest bubble holding this event's tool, else the open one. */
    method AssistantForTool(e: RunEvent) returns (found: Message?)
      requires Valid()
      ensures match BubbleWithTool(Views(), e)
              case None => found == open
              case Some(i) => found == messages[i]
    {
      hide Valid, Views, IndexOf, Reducer.UpsertTool, Reducer.Touch, Reducer.BubbleWithTool, Reducer.BubbleWithSubagent;
      hide Reducer.MatchesTool;
      hide Reducer.LastTurnAssistant, Reducer.LastSubagentTool, Reducer.UserByFollowUp, Reducer.UpsertNestedStep;
      ghost var views := Views();
      var index := |messages|;
      while index > 0
        invariant 0 <= index <= |messages|
        invariant forall k | index <= k < |messages| :: !MatchesTool(views[k], e)
      {
        index := index - 1;
        var holds := messages[index].HoldsTool(e);
        if holds {
          return messages[index];
        }
      }
      return open;
    }

    method PickSubagent(runningOnly: bool) returns (found: Message?, k: nat)
      requires Valid()
      ensures match BubbleWithSubagent(Views(), runningOnly)
              case None => found == null
              case Some(i) => found == messages[i] && LastSubagentTool(Views()[i].tools, runningOnly) == Some(k)
    {
      hide Valid, Views, IndexOf, Reducer.UpsertTool, Reducer.Touch, Reducer.BubbleWithTool, Reducer.BubbleWithSubagent;
      hide Reducer.LastTurnAssistant, Reducer.LastSubagentTool, Reducer.UserByFollowUp, Reducer.UpsertNestedStep;
      ghost var views := Views();
      var index := |messages|;
      while index > 0
        invariant 0 <= index <= |messages|
        invariant forall j | index <= j < |messages| :: !HoldsSubagent(views[j], runningOnly)
      {
        index := index - 1;
        var tool := messages[index].HeldSubagent(runningOnly);
        if tool.Some? {
          return messages[index], tool.value;
        }
      }
      return null, 0;
    }

    method FindFollowUp(followUpId: string) returns (found: Message?)
      requires Valid()
      ensures match UserByFollowUp(Views(), followUpId)
              case None => found == null
              case Some(i) => found == messages[i]
    {
      hide Valid, Views, IndexOf, Reducer.UpsertTool, Reducer.Touch, Reducer.BubbleWithTool, Reducer.BubbleWithSubagent;
      hide Reducer.LastTurnAssistant, Reducer.LastSubagentTool, Reducer.UserByFollowUp, Reducer.UpsertNestedStep;
      ghost var views := Views();
      for k := 0 to |messages|
        invariant forall j | 0 <= j < k :: !FollowUpOf(views[j], followUpId)
      {
        if messages[k].role.User? && messages[k].followUpId == Some(followUpId) {
          assert FollowUpOf(views[k], followUpId);
          return messages[k];
        }
      }
      return null;
    }

    // ---- the reducer ----

    method EnsureAssistant(e: RunEvent) returns (assistant: Message)
      requires Valid()
      modifies Repr
      ensures Valid() && fresh(Repr - old(Repr)) && open == assistant
      ensures View() == Reducer.EnsureAssistant(old(View()), e)
    {
      hide Valid, Views, IndexOf, Reducer.UpsertTool, Reducer.Touch, Reducer.BubbleWithTool, Reducer.BubbleWithSubagent;
      hide Reducer.LastTurnAssistant, Reducer.LastSubagentTool, Reducer.UserByFollowUp, Reducer.UpsertNestedStep;
      ghost var s := View();
      OpenIsListed();
      if open == null {
        var existing := LastTurnAssistant();
        if existing != null {
          ghost var i := Reducer.LastTurnAssistant(s.messages).value;
          SetOpen(existing, i);
          SetStreaming(existing, i, true);
          return existing;
        }
        assistant := Push(NewAssistant(e));
        SetOpen(assistant, |messages| - 1);
        return;
      }
      return open;
    }

    method ApplyUserTurn(e: RunEvent)
      requires Valid()
      modifies Repr
      ensures Valid() && fresh(Repr - old(Repr))
      ensures View() == UserTurn(old(View()), e)
    {
      hide Valid, Views, IndexOf, Reducer.UpsertTool, Reducer.Touch, Reducer.BubbleWithTool, Reducer.BubbleWithSubagent;
      hide Reducer.LastTurnAssistant, Reducer.LastSubagentTool, Reducer.UserByFollowUp, Reducer.UpsertNestedStep;
      ghost var s := View();
      var existing: Message? := null;
      if e.data.followUpId.Some? && e.data.followUpId.value != "" {
        existing := FindFollowUp(e.data.followUpId.value);
      }
      if existing != null {
        ghost var i := Redelivered(s, e).value;
        Redeliver(existing, i, e);
        return;
      }
      if e.Text() == "" && e.kind.FollowupQueued? {
        return;
      }
      FinishAssistant();
      var m := Push(NewUser(e));
    }

    method AgentStarted(e: RunEvent)
      requires Valid()
      modifies Repr
      ensures Valid() && fresh(Repr - old(Repr))
      ensures View() == Reducer.AgentStarted(old(View()), e)
    {
      hide Valid, Views, IndexOf, Reducer.UpsertTool, Reducer.Touch, Reducer.BubbleWithTool, Reducer.BubbleWithSubagent;
      hide Reducer.LastTurnAssistant, Reducer.LastSubagentTool, Reducer.UserByFollowUp, Reducer.UpsertNestedStep;
      ghost var s := View();
      OpenIsListed();
      var bubble := open;
      if bubble == null {
        bubble := LastTurnAssistant();
      }
      if bubble != null {
        ghost var i := OpenOrLastTurn(s).value;
        SetOpen(bubble, i);
        TouchStreaming(bubble, i, true, e.createdAt);
      }
    }

    method KeepOrFinish()
      requires Valid()
      modifies Repr
      ensures Valid() && fresh(Repr - old(Repr))
      ensures View() == Reducer.KeepOrFinish(old(View()))
    {
      hide Valid, Views, IndexOf, Reducer.UpsertTool, Reducer.Touch, Reducer.BubbleWithTool, Reducer.BubbleWithSubagent;
      hide Reducer.LastTurnAssistant, Reducer.LastSubagentTool, Reducer.UserByFollowUp, Reducer.UpsertNestedStep;
      ghost var s := View();
      OpenIsListed();
      var bubble := open;
      if bubble == null {
        bubble := LastTurnAssistant();
      }
      if bubble == null {
        return;
      }
      ghost var i := OpenOrLastTurn(s).value;
      var content := bubble.HasContent();
      if !content {
        FinishAssistant();
        return;
      }
      SetOpen(bubble, i);
      SetStreaming(bubble, i, true);
    }

    method MarkAll()
      requires Valid()
      modifies Repr
      ensures Valid() && fresh(Repr - old(Repr))
      ensures View() == old(View()).(messages := MarkEach(old(View()).messages))
    {
      hide Valid, Views, IndexOf, Reducer.UpsertTool, Reducer.Touch, Reducer.BubbleWithTool, Reducer.BubbleWithSubagent;
      hide Reducer.LastTurnAssistant, Reducer.LastSubagentTool, Reducer.UserByFollowUp, Reducer.UpsertNestedStep;
      ghost var s := View();
      for k := 0 to |messages|
        invariant Valid() && fresh(Repr - old(Repr)) && messages == old(messages) && View().open == s.open
        invariant |View().messages| == |messages|
        invariant forall j | 0 <= j < k :: View().messages[j] == MarkIfAssistant(s.messages[j])
        invariant forall j | k <= j < |messages| :: View().messages[j] == s.messages[j]
      {
        var message := messages[k];
        if message.role.Assistant? {
          MarkMessage(message, k);
        }
      }
      assert View().messages == MarkEach(s.messages);
    }

    method AgentEnded()
      requires Valid()
      modifies Repr
      ensures Valid() && fresh(Repr - old(Repr))
      ensures View() == Reducer.AgentEnded(old(View()))
    {
      hide Valid, Views, IndexOf, Reducer.UpsertTool, Reducer.Touch, Reducer.BubbleWithTool, Reducer.BubbleWithSubagent;
      hide Reducer.LastTurnAssistant, Reducer.LastSubagentTool, Reducer.UserByFollowUp, Reducer.UpsertNestedStep;
      MarkAll();
      KeepOrFinish();
    }

    /** The running subagent, or any other when none runs. */
    method PickParent() returns (parent: Message?, k: nat, ghost i: nat)
      requires Valid()
      ensures var running := BubbleWithSubagent(Views(), true);
        var any := BubbleWithSubagent(Views(), false);
        if parent == null then running.None? && any.None?
        else
          && Some(i) == (if running.Some? then running else any)
          && parent == messages[i] && LastSubagentTool(Views()[i].tools, running.Some?) == Some(k)
    {
      hide Valid, Views, IndexOf, Reducer.BubbleWithSubagent, Reducer.LastSubagentTool;
      parent, k := PickSubagent(true);
      if parent != null {
        i := BubbleWithSubagent(Views(), true).value;
        return;
      }
      parent, k := PickSubagent(false);
      i := BubbleWithSubagent(Views(), false).GetOr(0);
    }

    method NestedToolEvent(e: RunEvent)
      requires Valid()
      modifies Repr
      ensures Valid() && fresh(Repr - old(Repr))
      ensures View() == Reducer.NestedToolEvent(old(View()), e)
    {
      hide Valid, Views, IndexOf, Reducer.Touch, Reducer.BubbleWithSubagent, Reducer.LastSubagentTool;
      hide Reducer.UpsertNestedStep, OpenOk;
      OpenIsListed();
      ghost var s := View();
      ghost var i: nat;
      var parent, k;
      parent, k, i := PickParent();
      if parent == null {
        return;
      }
      SetOpen(parent, i);
      NestedStepIn(parent, i, k, e);
    }

    method ToolTarget(e: RunEvent) returns (assistant: Message, ghost i: nat)
      requires Valid()
      modifies Repr
      ensures Valid() && fresh(Repr - old(Repr)) && i < |messages| && messages[i] == assistant
      ensures View() == Reducer.ToolTarget(old(View()), e) && View().open == Some(i)
    {
      hide Valid, Views, IndexOf, Reducer.BubbleWithTool, Reducer.LastTurnAssistant;
      ghost var s := View();
      OpenIsListed();
      var found := AssistantForTool(e);
      if found != null {
        i := BubbleWithTool(s.messages, e).GetOr(IndexOf(messages, found).value);
        SetOpen(found, i);
        assistant := found;
      } else {
        assistant := EnsureAssistant(e);
        i := IndexOf(messages, assistant).value;
      }
    }

    method ToolEvent(e: RunEvent)
      requires Valid()
      modifies Repr
      ensures Valid() && fresh(Repr - old(Repr))
      ensures View() == Reducer.ToolEvent(old(View()), e)
    {
      hide Valid, View, Reducer.UpsertTool, Reducer.Touch, Reducer.ToolTarget;
      ghost var i;
      var assistant: Message;
      assistant, i := ToolTarget(e);
      UpsertToolIn(assistant, i, e);
    }

    method SettleEachMessage(at: Timestamp)
      requires Valid()
      modifies Repr
      ensures Valid() && fresh(Repr - old(Repr))
      ensures View() == old(View()).(messages := SettleEach(old(View()).messages, at))
    {
      hide Valid, Views, IndexOf, Reducer.Touch;
      ghost var s := View();
      for k := 0 to |messages|
        invariant Valid() && fresh(Repr - old(Repr)) && messages == old(messages) && View().open == s.open
        invariant |View().messages| == |messages|
        invariant forall j | 0 <= j < k :: View().messages[j] == SettleOne(s.messages[j], at)
        invariant forall j | k <= j < |messages| :: View().messages[j] == s.messages[j]
      {
        var message := messages[k];
        if message.role.Assistant? {
          SettleMessage(message, k, at);
        }
      }
      assert View().messages == SettleEach(s.messages, at);
    }

    /** The messages `filter` keeps, with the positions they come from. */
    method Filtered() returns (kept: seq<Message>, ghost from: seq<nat>)
      requires Valid()
      ensures |from| == |kept| && forall k | 0 <= k < |kept| :: from[k] < |messages| && kept[k] == messages[from[k]]
      ensures forall j, k | 0 <= j < k < |from| :: from[j] < from[k]
      ensures |KeepContent(Views())| == |kept|
      ensures forall k | 0 <= k < |kept| :: KeepContent(Views())[k] == Views()[from[k]]
    {
      hide Valid, Blank, Reducer.HasContent, Views, Reducer.KeepContent;
      ghost var views := Views();
      ghost var content: seq<MessageView> := [];
      kept, from := [], [];
      NoContent();
      for k := 0 to |messages|
        invariant |from| == |kept| == |content| && content == KeepContent(views[..k])
        invariant forall j | 0 <= j < |kept| :: from[j] < k && kept[j] == messages[from[j]] && content[j] == views[from[j]]
        invariant forall i, j | 0 <= i < j < |kept| :: from[i] < from[j]
      {
        KeepContentPush(views, k);
        var message := messages[k];
        var holds := message.HasContent();
        if !message.role.Assistant? || holds {
          kept := kept + [message];
          from := from + [k];
          content := content + [views[k]];
        }
      }
      assert views[..|messages|] == views;
    }

    /** `messages = messages.filter(...)`: blank bubbles without a tool go. */
    method DropBlank()
      requires Valid()
      modifies this`messages, this`open
      ensures Valid() && View() == TranscriptView(KeepContent(old(View()).messages), None)
    {
      hide Valid, Views, KeepContent;
      ghost var content := KeepContent(Views());
      var kept, from := Filtered();
      Keep(kept, from);
      assert View().messages == content;
    }

    method SettleAll(at: Timestamp)
      requires Valid()
      modifies Repr
      ensures Valid() && fresh(Repr - old(Repr))
      ensures View() == Reducer.SettleAll(old(View()), at)
    {
      hide Valid, Views, IndexOf, KeepContent, SettleEach;
      SettleEachMessage(at);
      DropBlank();
    }

    method RunFailed(e: RunEvent)
      requires Valid()
      modifies Repr
      ensures Valid() && fresh(Repr - old(Repr))
      ensures View() == Reducer.RunFailed(old(View()), e)
    {
      hide Valid, IndexOf, KeepContent, SettleEach, Reducer.SettleAll, FailedKind;
      SettleAll(e.createdAt);
      if |messages| > 0 {
        var last := messages[|messages| - 1];
        assert last.View() == View().messages[|messages| - 1];
        if last.role.Setup? && (last.level == Some(Error) || (last.kind.Some? && FailedKind(last.kind.value))) {
          return;
        }
      }
      var m := Push(SetupMessage(e));
    }

    method ToolStep(e: RunEvent)
      requires Valid()
      modifies Repr
      ensures Valid() && fresh(Repr - old(Repr))
      ensures View() == Reducer.ToolStep(old(View()), e)
    {
      hide Valid, View;
      if e.Nested() {
        NestedToolEvent(e);
      } else {
        ToolEvent(e);
      }
    }

    method MessageStep(e: RunEvent)
      requires Valid() && (e.kind.MessageStart? || e.kind.MessageDelta?)
      modifies Repr
      ensures Valid() && fresh(Repr - old(Repr))
      ensures View() == Apply(old(View()), e)
    {
      hide Valid, Views, IndexOf, Reducer.AppendText, Reducer.EnsureAssistant;
      ghost var s := View();
      var assistant := EnsureAssistant(e);
      OpenIsListed();
      ghost var i := IndexOf(messages, assistant).value;
      if e.kind.MessageStart? {
        TouchStreaming(assistant, i, true, e.createdAt);
      } else {
        AppendDelta(assistant, i, e.Delta(), e.createdAt);
      }
    }

    method MessageEnded(e: RunEvent)
      requires Valid() && e.kind.MessageEnd?
      modifies Repr
      ensures Valid() && fresh(Repr - old(Repr))
      ensures View() == Apply(old(View()), e)
    {
      hide Valid, Views, IndexOf;
      OpenIsListed();
      if open != null {
        ghost var i := IndexOf(messages, open).value;
        TouchStreaming(open, i, false, e.createdAt);
      }
    }

    /** applyEventToState */
    method ApplyEvent(e: RunEvent)
      requires Valid()
      modifies Repr
      ensures Valid() && fresh(Repr - old(Repr))
      ensures View() == Apply(old(View()), e)
    {
      hide Valid, View, UserTurn, Reducer.AgentStarted, Reducer.AgentEnded, Reducer.SettleAll;
      hide Reducer.ToolStep, Reducer.RunFailed;
      match e.kind
      case UserMessage => ApplyUserTurn(e);
      case FollowupQueued =>
        if e.data.followUpId.Some? && !Blank(e.Text()) {
          ApplyUserTurn(e);
        }
      case AgentStart => AgentStarted(e);
      case MessageStart => MessageStep(e);
      case MessageDelta => MessageStep(e);
      case MessageEnd => MessageEnded(e);
      case AgentEnd => AgentEnded();
      case RunIdle => SettleAll(e.createdAt);
      case ToolStart => ToolStep(e);
      case ToolUpdate => ToolStep(e);
      case ToolEnd => ToolStep(e);
      case RunError => RunFailed(e);
      case SetupKind(_) => var m := Push(SetupMessage(e));
      case TurnRewind =>
      case OtherKind(_) =>
    }

    method ApplyEvents(es: seq<RunEvent>)
      requires Valid()
      modifies Repr
      ensures Valid() && fresh(Repr - old(Repr))
      ensures View() == Run(old(View()), es)
    {
      hide Valid, View, Apply;
      ghost var s := View();
      for k := 0 to |es|
        invariant Valid() && fresh(Repr - old(Repr))
        invariant View() == Run(s, es[..k])
      {
        assert es[..k + 1] == es[..k] + [es[k]];
        RunPush(s, es[..k], es[k]);
        ApplyEvent(es[k]);
      }
      assert es[..|es|] == es;
    }
  }
}
