/**
 Copying compiled messages and working on from the copy
 (cloneTranscriptMessage, stateFromMessages, applyRunEventsToMessages).
 */
module TranscriptResume {
  import opened Prelude
  import opened Events
  import opened Reducer
  import opened TranscriptHeap
  import Snapshot
  import Resume

  /** The condition under which a copy keeps `tools` and `blocks` in step. */
  ghost predicate DistinctNamed(tools: seq<ToolView>) {
    && (forall k | 0 <= k < |tools| :: tools[k].id != "")
    && (forall j, k | 0 <= j < k < |tools| :: tools[j].id != tools[k].id)
  }

  /** Last tool with this id. */
  ghost function LastById(tools: seq<ToolView>, id: string): (r: Option<nat>)
    ensures r.Some? ==> r.value < |tools| && tools[r.value].id == id && forall k | r.value < k < |tools| :: tools[k].id != id
    ensures r.None? ==> forall k | 0 <= k < |tools| :: tools[k].id != id
  {
    if tools == [] then None
    else if tools[|tools| - 1].id == id then Some(|tools| - 1)
    else LastById(tools[..|tools| - 1], id)
  }

  /** `byId` of cloneTranscriptMessage: the last copy made for each id. */
  ghost predicate LastCopies(byId: map<string, Tool>, tools: seq<Tool>, views: seq<ToolView>)
    requires |tools| == |views|
  {
    && (forall id | LastById(views, id).Some? :: id in byId)
    && (forall id | id in byId :: LastById(views, id).Some? && byId[id] == tools[LastById(views, id).value])
  }

  lemma LastCopiesPush(byId: map<string, Tool>, tools: seq<Tool>, views: seq<ToolView>, tool: Tool, view: ToolView)
    requires |tools| == |views| && LastCopies(byId, tools, views)
    ensures LastCopies(byId[view.id := tool], tools + [tool], views + [view])
  {
    assert (views + [view])[..|views|] == views;
  }

  lemma NoCopies()
    ensures LastCopies(map[], [], [])
  {
  }

  lemma {:induction false} EveryIdIsFiled(byId: map<string, Tool>, tools: seq<Tool>, views: seq<ToolView>)
    requires |tools| == |views| && LastCopies(byId, tools, views)
    ensures forall k | 0 <= k < |views| :: views[k].id in byId
  {
    assert forall k | 0 <= k < |views| :: LastById(views, views[k].id).Some?;
  }

  method CloneTools(source: seq<Tool>) returns (tools: seq<Tool>, byId: map<string, Tool>)
    ensures |tools| == |source| && Distinct(tools)
    ensures forall k | 0 <= k < |tools| :: fresh(tools[k])
    ensures ToolViews(tools) == ToolViews(source)
    ensures LastCopies(byId, tools, ToolViews(source))
    ensures forall k | 0 <= k < |source| :: source[k].id in byId
    ensures forall t | t in byId.Values :: t in tools
  {
    hide LastCopies;
    ghost var views := ToolViews(source);
    tools, byId := [], map[];
    NoCopies();
    for k := 0 to |source|
      invariant |tools| == k && Distinct(tools)
      invariant forall j | 0 <= j < k :: fresh(tools[j]) && tools[j].View() == views[j]
      invariant LastCopies(byId, tools, views[..k])
    {
      var t := new Tool.Copy(source[k]);
      LastCopiesPush(byId, tools, views[..k], t, views[k]);
      assert views[..k + 1] == views[..k] + [views[k]];
      tools := tools + [t];
      byId := byId[source[k].id := t];
    }
    assert views[..|source|] == views;
    EveryIdIsFiled(byId, tools, views);
    FiledAreCopies(byId, tools, views);
  }

  lemma FiledAreCopies(byId: map<string, Tool>, tools: seq<Tool>, views: seq<ToolView>)
    requires |tools| == |views| && LastCopies(byId, tools, views)
    ensures forall t | t in byId.Values :: t in tools
  {
    forall t | t in byId.Values
      ensures t in tools
    {
      var id :| id in byId && byId[id] == t;
      assert tools[LastById(views, id).value] == t;
    }
  }

  lemma {:induction false} ToolsOfPrefix(blocks: seq<Block>, k: nat)
    requires k <= |blocks|
    ensures ToolsOf(blocks[..k]) <= ToolsOf(blocks)
  {
    var n := |blocks|;
    if k < n {
      ToolsOfPrefix(blocks[..n - 1], k);
      assert blocks[..n - 1][..k] == blocks[..k];
    } else {
      assert blocks[..k] == blocks;
    }
  }

  /** The next tool block of a message points to its next tool. */
  lemma NextTool(blocks: seq<Block>, k: nat)
    requires k < |blocks|
    ensures ToolsOf(blocks[..k + 1]) == ToolsOf(blocks[..k]) + if blocks[k].tool == null then [] else [blocks[k].tool]
  {
    var head := blocks[..k];
    assert blocks[..k + 1] == head + [blocks[k]];
    ToolsOfPush(head, blocks[k]);
  }

  ghost function IdsOf(tools: seq<Tool>): (r: seq<string>)
    reads tools
    ensures |r| == |tools| && forall k | 0 <= k < |r| :: r[k] == tools[k].id
  {
    seq(|tools|, k requires 0 <= k < |tools| reads tools => tools[k].id)
  }

  ghost predicate Filed(id: string, byId: map<string, Tool>) {
    id != "" && id in byId
  }

  /** What the tool blocks with these ids get: the copied tool filed under the id, and where none is filed a copy apart
      from those tools, one for all blocks of the same id and one for each block without an id. */
  ghost predicate Copied(copies: seq<Tool>, ids: seq<string>, tools: seq<Tool>, byId: map<string, Tool>) {
    && |copies| == |ids|
    && (forall k | 0 <= k < |ids| :: if Filed(ids[k], byId) then copies[k] == byId[ids[k]] else copies[k] !in tools)
    && (forall j, k | 0 <= j < k < |ids| && !Filed(ids[j], byId) && !Filed(ids[k], byId) ::
          copies[j] == copies[k] <==> ids[j] == ids[k] != "")
  }

  /** `byId` on its way through the blocks: what was filed stays, and the copies made since are filed too. */
  ghost predicate FiledSince(filed: map<string, Tool>, copies: seq<Tool>, ids: seq<string>, byId: map<string, Tool>)
    requires |copies| == |ids|
  {
    && (forall id | id in byId :: id in filed && filed[id] == byId[id])
    && (forall k | 0 <= k < |ids| && ids[k] != "" :: ids[k] in filed && filed[ids[k]] == copies[k])
    && (forall id | id in filed && id !in byId :: id in ids && id != "")
  }

  lemma CopiedPush(copies: seq<Tool>, ids: seq<string>, tools: seq<Tool>, byId: map<string, Tool>,
                   filed: map<string, Tool>, copy: Tool, id: string)
    requires Copied(copies, ids, tools, byId) && FiledSince(filed, copies, ids, byId)
    requires if Filed(id, filed) then copy == filed[id] else copy !in copies && copy !in tools
    ensures Copied(copies + [copy], ids + [id], tools, byId)
    ensures FiledSince(if id == "" then filed else filed[id := copy], copies + [copy], ids + [id], byId)
  {
    if Filed(id, filed) && id !in byId {
      var j :| 0 <= j < |ids| && ids[j] == id;
      assert copies[j] == copy;
    }
  }

  method CloneBlock(block: Block, filed: map<string, Tool>) returns (b: Block, after: map<string, Tool>)
    ensures fresh(b) && b.View() == block.View()
    ensures b.tool == null <==> block.tool == null
    ensures block.tool == null ==> after == filed
    ensures block.tool != null ==>
      var id := block.tool.id;
      && (if Filed(id, filed) then b.tool == filed[id] else fresh(b.tool) && b.tool.View() == block.tool.View())
      && after == if id == "" then filed else filed[id := b.tool]
  {
    var tool := block.tool;
    after := filed;
    if tool == null {
      b := new Block.Text(block.text);
      return;
    }
    var shared: Tool;
    if tool.id != "" && tool.id in filed {
      shared := filed[tool.id];
    } else {
      shared := new Tool.Copy(tool);
    }
    if tool.id != "" {
      after := filed[tool.id := shared];
    }
    b := new Block.ForTool(shared);
  }

  method CloneBlocks(source: seq<Block>, ghost tools: seq<Tool>, byId: map<string, Tool>) returns (blocks: seq<Block>)
    requires forall t | t in byId.Values :: t in tools
    ensures Distinct(blocks) && forall k | 0 <= k < |blocks| :: fresh(blocks[k])
    ensures BlockViews(blocks) == BlockViews(source)
    ensures Copied(ToolsOf(blocks), IdsOf(ToolsOf(source)), tools, byId)
    ensures forall k | 0 <= k < |ToolsOf(blocks)| :: fresh(ToolsOf(blocks)[k]) || ToolsOf(blocks)[k] in tools
  {
    hide ToolsOf, Copied, FiledSince;
    ghost var ids := IdsOf(ToolsOf(source));
    ghost var had := ToolsOf(source);
    var filed := byId;
    ghost var done: nat := 0;
    ghost var copies: seq<Tool> := [];
    blocks := [];
    NoBlocks();
    NoneCopied(tools, byId);
    for k := 0 to |source|
      invariant |blocks| == k && Distinct(blocks)
      invariant forall j | 0 <= j < k :: fresh(blocks[j]) && blocks[j].View() == old(source[j].View())
      invariant done <= |had| && ToolsOf(source[..k]) == had[..done] && ToolsOf(blocks) == copies && |copies| == done
      invariant forall t | t in copies || t in filed.Values :: fresh(t) || t in tools
      invariant Copied(copies, ids[..done], tools, byId)
      invariant FiledSince(filed, copies, ids[..done], byId)
    {
      NextTool(source, k);
      ToolsOfPrefix(source, k + 1);
      assert ToolsOf(source[..k + 1]) <= had;
      var b: Block;
      ghost var before := filed;
      b, filed := CloneBlock(source[k], filed);
      ToolsOfPush(blocks, b);
      if b.tool != null {
        assert ToolsOf(source[..k + 1]) == had[..done] + [source[k].tool];
        NextOf(had, done, source[k].tool);
        CopiedPush(copies, ids[..done], tools, byId, before, b.tool, ids[done]);
        assert ids[..done + 1] == ids[..done] + [ids[done]];
        copies := copies + [b.tool];
        done := done + 1;
      }
      blocks := blocks + [b];
    }
    assert source[..|source|] == source;
    assert ids[..done] == ids;
  }

  lemma NextOf<T>(xs: seq<T>, k: nat, x: T)
    requires k <= |xs| && xs[..k] + [x] <= xs
    ensures k < |xs| && xs[k] == x && xs[..k + 1] == xs[..k] + [x]
  {
    assert (xs[..k] + [x])[k] == x;
  }

  lemma NoneCopied(tools: seq<Tool>, byId: map<string, Tool>)
    ensures Copied([], [], tools, byId) && FiledSince(byId, [], [], byId)
  {
  }

  lemma NoBlocks()
    ensures ToolsOf([]) == []
  {
  }

  /** The blocks name the tools, in the same order, and every tool has an id of its own. */
  ghost predicate Named(ids: seq<string>, tools: seq<ToolView>) {
    && DistinctNamed(tools)
    && |ids| == |tools| && forall k | 0 <= k < |ids| :: ids[k] == tools[k].id
  }

  lemma NamedLineUp(copies: seq<Tool>, ids: seq<string>, tools: seq<Tool>, views: seq<ToolView>, byId: map<string, Tool>)
    requires |tools| == |views| && LastCopies(byId, tools, views)
    requires Copied(copies, ids, tools, byId) && Named(ids, views)
    ensures copies == tools
  {
    hide LastById;
    forall k | 0 <= k < |tools|
      ensures copies[k] == tools[k]
    {
      LastNamed(views, k);
      assert Filed(ids[k], byId);
    }
  }

  lemma LastNamed(views: seq<ToolView>, k: nat)
    requires k < |views| && forall j | k < j < |views| :: views[j].id != views[k].id
    ensures LastById(views, views[k].id) == Some(k)
  {
  }

  lemma LinedUpIsNamed(copies: seq<Tool>, ids: seq<string>, tools: seq<Tool>, views: seq<ToolView>, byId: map<string, Tool>)
    requires |tools| == |views| && Distinct(tools) && LastCopies(byId, tools, views)
    requires Copied(copies, ids, tools, byId) && copies == tools
    ensures Named(ids, views)
  {
    hide LastCopies, Copied, Distinct;
    CopiedCount(copies, ids, tools, byId);
    forall k | 0 <= k < |views|
      ensures ids[k] != "" && views[k].id == ids[k] && forall j | k < j < |views| :: views[j].id != ids[k]
    {
      LinedUpAt(copies, ids, tools, views, byId, k);
    }
  }

  lemma CopiedCount(copies: seq<Tool>, ids: seq<string>, tools: seq<Tool>, byId: map<string, Tool>)
    requires Copied(copies, ids, tools, byId)
    ensures |copies| == |ids|
  {
  }

  lemma LinedUpAt(copies: seq<Tool>, ids: seq<string>, tools: seq<Tool>, views: seq<ToolView>, byId: map<string, Tool>,
                  k: nat)
    requires |tools| == |views| && Distinct(tools) && LastCopies(byId, tools, views)
    requires Copied(copies, ids, tools, byId) && copies == tools && k < |views|
    ensures |ids| == |views| && ids[k] != "" && views[k].id == ids[k]
    ensures forall j | k < j < |views| :: views[j].id != ids[k]
  {
    hide LastById;
    assert copies[k] in tools;
    assert Filed(ids[k], byId);
    var i := LastById(views, ids[k]).value;
    assert tools[i] == tools[k];
    assert i == k;
  }

  /** The copies the blocks got are the copied tools, exactly when the blocks named them all. */
  lemma CopiesLineUp(copies: seq<Tool>, ids: seq<string>, tools: seq<Tool>, views: seq<ToolView>, byId: map<string, Tool>)
    requires |tools| == |views| && Distinct(tools) && LastCopies(byId, tools, views)
    requires Copied(copies, ids, tools, byId)
    ensures copies == tools <==> Named(ids, views)
  {
    hide LastCopies, Copied, Named, Distinct;
    if Named(ids, views) {
      NamedLineUp(copies, ids, tools, views, byId);
    }
    if copies == tools {
      LinedUpIsNamed(copies, ids, tools, views, byId);
    }
  }

  /** The tools of the blocks are named as the tools of the message are, if they are the same objects or not. */
  ghost predicate NamedAlike(m: Message)
    requires m.Valid()
    reads m, m.Repr
  {
    Named(IdsOf(ToolsOf(m.blocks)), ToolViews(m.tools))
  }

  method CloneParts(m: Message) returns (tools: seq<Tool>, blocks: seq<Block>)
    requires m.Valid()
    ensures Distinct(tools) && Distinct(blocks)
    ensures forall k | 0 <= k < |tools| :: fresh(tools[k])
    ensures forall k | 0 <= k < |blocks| :: fresh(blocks[k])
    ensures forall k | 0 <= k < |ToolsOf(blocks)| :: fresh(ToolsOf(blocks)[k])
    ensures ToolViews(tools) == m.View().tools && BlockViews(blocks) == m.View().blocks
    ensures ToolsOf(blocks) == tools <==> NamedAlike(m)
  {
    hide LastCopies, Copied, Named, ToolsOf;
    ghost var views, ids := ToolViews(m.tools), IdsOf(ToolsOf(m.blocks));
    var byId: map<string, Tool>;
    tools, byId := CloneTools(m.tools);
    blocks := CloneBlocks(m.blocks, tools, byId);
    CopiesLineUp(ToolsOf(blocks), ids, tools, views, byId);
  }

  /** A copy shares no object with the original and looks the same. Its blocks point into its tools exactly when the
      original's blocks name the original's tools, and each tool has an id of its own. */
  method CloneTranscriptMessage(m: Message) returns (c: Message)
    requires m.Valid()
    ensures c.Valid() && fresh(c.Repr)
    ensures c.View() == m.View()
    ensures ToolsOf(c.blocks) == c.tools <==> NamedAlike(m)
    ensures c.lined <==> NamedAlike(m)
  {
    hide Named, ToolsOf, Message.View, ToolViews, BlockViews;
    var tools, blocks := CloneParts(m);
    c := new Message.Copy(m, tools, blocks);
  }

  /** What a client reads from a page of messages. */
  ghost function PageViews(ms: seq<Message>): (r: seq<MessageView>)
    requires forall k | 0 <= k < |ms| :: ms[k].Valid()
    reads ms, set m: Message, o: object | m in ms && o in m.Repr :: o
    ensures |r| == |ms| && forall k | 0 <= k < |r| :: r[k] == ms[k].View()
  {
    if ms == [] then [] else
      var last := ms[|ms| - 1];
      assert last in ms && last.Valid();
      PageViews(ms[..|ms| - 1]) + [last.View()]
  }

  /** Messages that can be shown. */
  ghost predicate Readable(ms: seq<Message>)
    reads ms, set m: Message, o: object | m in ms && o in m.Repr :: o
  {
    forall k | 0 <= k < |ms| :: ms[k].Valid()
  }

  /** Every block names its tool. */
  ghost predicate AllNamed(ms: seq<Message>)
    requires Readable(ms)
    reads ms, set m: Message, o: object | m in ms && o in m.Repr :: o
  {
    forall k | 0 <= k < |ms| :: NamedAlike(ms[k])
  }

  /** `messages.map(cloneTranscriptMessage)` */
  method CloneAll(ms: seq<Message>) returns (cloned: seq<Message>, ghost parts: set<object>)
    requires Readable(ms)
    ensures fresh(parts) && |cloned| == |ms|
    ensures forall k | 0 <= k < |ms| :: cloned[k].Valid() && cloned[k].Repr <= parts
    ensures forall i, j | 0 <= i < j < |ms| :: cloned[i] != cloned[j] && cloned[i].Repr !! cloned[j].Repr
    ensures forall k | 0 <= k < |ms| :: cloned[k].View() == ms[k].View() && (cloned[k].lined <==> NamedAlike(ms[k]))
  {
    hide Message.Valid, Message.View, NamedAlike, ToolsOf;
    ghost var views := PageViews(ms);
    cloned, parts := [], {};
    for k := 0 to |ms|
      invariant fresh(parts) && |cloned| == k
      invariant forall j | 0 <= j < k :: cloned[j].Valid() && cloned[j].Repr <= parts
      invariant forall i, j | 0 <= i < j < k :: cloned[i] != cloned[j] && cloned[i].Repr !! cloned[j].Repr
      invariant forall j | 0 <= j < k :: cloned[j].View() == views[j]
      invariant forall j | 0 <= j < k :: cloned[j].lined <==> NamedAlike(ms[j])
    {
      var c := CloneTranscriptMessage(ms[k]);
      cloned := cloned + [c];
      parts := parts + c.Repr;
    }
  }

  method LastAssistant(s: BuildState) returns (found: Option<nat>)
    requires s.Valid()
    ensures found == Resume.LastAssistant(s.View().messages)
    ensures found.Some? ==> s.messages[found.value].role.Assistant?
  {
    ghost var views := s.View().messages;
    var k := |s.messages|;
    while k > 0
      invariant 0 <= k <= |s.messages|
      invariant forall j | k <= j < |views| :: !views[j].role.Assistant?
    {
      k := k - 1;
      if s.messages[k].role.Assistant? {
        return Some(k);
      }
    }
    return None;
  }

  /** The newest bubble is open if it is still at work. */
  method ResumeCursor(s: BuildState)
    requires s.Valid() && s.View().open.None?
    modifies s`open
    ensures s.Valid() && s.View() == TranscriptView(old(s.View()).messages, Resume.ResumedOpen(old(s.View()).messages))
  {
    hide BuildState.Valid, Message.Valid, Message.View, BuildState.Views, Resume.LastAssistant, Resume.Busy;
    var last := LastAssistant(s);
    if last.Some? {
      var m := s.messages[last.value];
      var busy := IsBusy(m);
      if busy {
        s.SetOpen(m, last.value);
      }
    }
  }

  method IsBusy(m: Message) returns (busy: bool)
    ensures busy == Resume.Busy(m.View())
  {
    var running := m.ToolRunning();
    busy := m.streaming || running;
  }

  lemma StatePage(s: BuildState)
    requires s.Valid()
    ensures Readable(s.messages) && forall k | 0 <= k < |s.messages| :: s.messages[k].Repr <= s.Repr
    ensures forall k | 0 <= k < |s.messages| :: s.messages[k].lined || s.messages[k] in s.apart
    ensures PageViews(s.messages) == s.View().messages
  {
  }

  /** A page becomes a state of fresh objects that shows it; a message's blocks point into its tools exactly if those of
      the page name them, and only what came in apart may ever be. */
  method StateFromMessages(ms: seq<Message>) returns (s: BuildState)
    requires Readable(ms)
    ensures s.Valid() && fresh(s.Repr) && |s.messages| == |ms|
    ensures s.View() == Resume.StateFromMessages(PageViews(ms))
    ensures s.View().messages == PageViews(ms) && Resume.CursorShowsOnPage(PageViews(ms), s.View().open)
    ensures forall k | 0 <= k < |ms| :: s.messages[k].lined <==> NamedAlike(ms[k])
    ensures s.apart == set m | m in s.messages && !m.lined
  {
    hide NamedAlike, BuildState.Valid, Message.Valid, Message.View, BuildState.View, PageViews;
    hide Resume.ResumedOpen, Resume.CursorShowsOnPage;
    ghost var views := PageViews(ms);
    Resume.ResumedIff(views);
    ghost var parts;
    var cloned;
    cloned, parts := CloneAll(ms);
    s := new BuildState.Of(cloned, parts);
    assert s.View().messages == views;
    ResumeCursor(s);
  }

  /** Live events on a page; the page itself is left alone. */
  method ApplyRunEventsToMessages(ms: seq<Message>, es: seq<RunEvent>) returns (result: seq<Message>)
    requires Readable(ms)
    ensures Readable(result)
    ensures if es == [] then result == ms else forall k | 0 <= k < |result| :: fresh(result[k].Repr)
    ensures es != [] && AllNamed(ms) ==> forall k | 0 <= k < |result| :: result[k].lined
    ensures PageViews(result) == Resume.ApplyRunEventsToMessages(PageViews(ms), es)
  {
    hide NamedAlike, BuildState.Valid, Message.Valid, BuildState.View, Run, PageViews, Readable;
    hide Resume.StateFromMessages, Snapshot.Processed;
    ReadableIsValid(ms);
    if es == [] {
      return ms;
    }
    var s := StateFromMessages(ms);
    s.ApplyEvents(Snapshot.Processed(es));
    StatePage(s);
    result := s.messages;
  }

  lemma ReadableIsValid(ms: seq<Message>)
    requires Readable(ms)
    ensures forall k | 0 <= k < |ms| :: ms[k].Valid()
  {
  }

  /** The blocks of a page point to as many tools as it has, by the same names: so they do in what the compiler makes,
      and still once it was sent. */
  ghost predicate Labelled(m: Message)
    requires m.Valid()
    reads m, m.Repr
  {
    IdsOf(ToolsOf(m.blocks)) == IdsOf(m.tools)
  }

  lemma CompiledIsNamed(ms: seq<Message>, es: seq<RunEvent>)
    requires Readable(ms) && PageViews(ms) == Snapshot.Compile(es).messages && forall e | e in es :: e.id != ""
    requires forall k | 0 <= k < |ms| :: Labelled(ms[k])
    ensures AllNamed(ms)
  {
    hide Message.Valid, Message.View, Snapshot.Compile, PageViews, NamedAlike, Labelled, DistinctNamed;
    DistinctlyNamed(es);
    var compiled := Snapshot.Compile(es).messages;
    forall k | 0 <= k < |ms|
      ensures NamedAlike(ms[k])
    {
      assert ms[k].View() == PageViews(ms)[k];
      assert compiled[k] in compiled;
      LabelledIsNamed(ms[k]);
    }
  }

  lemma DistinctlyNamed(es: seq<RunEvent>)
    requires forall e | e in es :: e.id != ""
    ensures forall m | m in Snapshot.Compile(es).messages :: DistinctNamed(m.tools)
  {
    hide Snapshot.Compile;
    Snapshot.ToolIdsAreDistinct(es);
  }

  lemma LabelledIsNamed(m: Message)
    requires m.Valid() && Labelled(m) && DistinctNamed(m.View().tools)
    ensures NamedAlike(m)
  {
    hide DistinctNamed, ToolsOf;
    assert forall k | 0 <= k < |m.tools| :: IdsOf(m.tools)[k] == ToolViews(m.tools)[k].id;
  }

  method BuildTranscriptSnapshot(es: seq<RunEvent>) returns (s: BuildState)
    ensures s.Valid() && fresh(s.Repr)
    ensures s.View() == Snapshot.Compile(es)
    ensures forall k | 0 <= k < |s.messages| :: s.messages[k].lined
  {
    hide BuildState.Valid, Message.Valid, Message.View, BuildState.View, Run, Snapshot.Processed;
    s := new BuildState();
    s.ApplyEvents(Snapshot.Processed(es));
    StatePage(s);
  }

  lemma LinedIsLabelled(m: Message)
    requires m.Valid() && m.lined
    ensures Labelled(m)
  {
  }

  /** A record of its own for every tool block. */
  method SendBlocks(source: seq<Block>, ghost had: seq<Tool>) returns (blocks: seq<Block>)
    requires ToolsOf(source) == had
    ensures Distinct(blocks) && forall k | 0 <= k < |blocks| :: fresh(blocks[k])
    ensures BlockViews(blocks) == BlockViews(source)
    ensures Distinct(ToolsOf(blocks)) && forall k | 0 <= k < |ToolsOf(blocks)| :: fresh(ToolsOf(blocks)[k])
    ensures ToolViews(ToolsOf(blocks)) == ToolViews(had)
  {
    hide ToolsOf;
    ghost var copies: seq<Tool> := [];
    blocks := [];
    NoBlocks();
    for k := 0 to |source|
      invariant |blocks| == k && Distinct(blocks)
      invariant forall j | 0 <= j < k :: fresh(blocks[j]) && blocks[j].View() == old(source[j].View())
      invariant |copies| <= |had| && ToolsOf(source[..k]) == had[..|copies|] && ToolsOf(blocks) == copies && Distinct(copies)
      invariant forall j | 0 <= j < |copies| :: fresh(copies[j]) && copies[j].View() == old(had[j].View())
    {
      NextTool(source, k);
      ToolsOfPrefix(source, k + 1);
      assert ToolsOf(source[..k + 1]) <= had;
      var b: Block;
      if source[k].tool == null {
        b := new Block.Text(source[k].text);
      } else {
        NextOf(had, |copies|, source[k].tool);
        var tool := new Tool.Copy(source[k].tool);
        copies := copies + [tool];
        b := new Block.ForTool(tool);
      }
      ToolsOfPush(blocks, b);
      blocks := blocks + [b];
    }
    assert source[..|source|] == source;
  }

  method SendParts(m: Message) returns (tools: seq<Tool>, blocks: seq<Block>, ghost sent: seq<Tool>)
    requires m.Valid()
    ensures Distinct(tools) && Distinct(blocks)
    ensures sent == ToolsOf(blocks)
    ensures forall k | 0 <= k < |tools| :: fresh(tools[k]) && tools[k] !in sent
    ensures forall k | 0 <= k < |blocks| :: fresh(blocks[k])
    ensures forall k | 0 <= k < |sent| :: fresh(sent[k])
    ensures ToolViews(tools) == m.View().tools && BlockViews(blocks) == m.View().blocks
    ensures ToolViews(sent) == ToolViews(ToolsOf(m.blocks))
  {
    hide ToolsOf, LastCopies, LastById;
    ghost var had := ToolsOf(m.blocks);
    var byId: map<string, Tool>;
    tools, byId := CloneTools(m.tools);
    blocks := SendBlocks(m.blocks, had);
    sent := ToolsOf(blocks);
  }

  /** No block points into the tools. */
  ghost predicate Unshared(m: Message)
    reads m
  {
    forall k | 0 <= k < |m.tools| :: m.tools[k] !in ToolsOf(m.blocks)
  }

  /** A message as it is read off the wire: it looks the same, and nothing of it is shared any more, within it or with
      the one that was sent. */
  method SendMessage(m: Message) returns (c: Message)
    requires m.Valid()
    ensures c.Valid() && fresh(c.Repr)
    ensures c.View() == m.View() && ToolViews(ToolsOf(c.blocks)) == ToolViews(ToolsOf(m.blocks))
    ensures Unshared(c) && (Labelled(m) <==> Labelled(c))
  {
    hide ToolsOf, Message.View, ToolViews, BlockViews, Labelled;
    ghost var sent;
    var tools, blocks;
    tools, blocks, sent := SendParts(m);
    c := new Message.Copy(m, tools, blocks);
    SentAlike(m, c);
  }

  lemma SentAlike(m: Message, c: Message)
    requires m.Valid() && c.Valid() && m.View() == c.View()
    requires ToolViews(ToolsOf(c.blocks)) == ToolViews(ToolsOf(m.blocks))
    ensures Labelled(m) <==> Labelled(c)
  {
    hide ToolsOf, BlockViews, Message.Valid;
    SameNames(m.tools, c.tools);
    SameNames(ToolsOf(m.blocks), ToolsOf(c.blocks));
  }

  lemma SameNames(tools: seq<Tool>, others: seq<Tool>)
    requires ToolViews(tools) == ToolViews(others)
    ensures IdsOf(tools) == IdsOf(others)
  {
    forall k | 0 <= k < |tools|
      ensures tools[k].id == others[k].id
    {
      assert ToolViews(tools)[k] == ToolViews(others)[k];
    }
  }

  /** Live events on a compiled page, whoever it was read from: it ends with what compiling the whole log shows, and
      every tool event shows in the block of its tool. */
  method ResumePage(page: seq<Message>, ghost xs: seq<RunEvent>, ys: seq<RunEvent>) returns (resumed: seq<Message>)
    requires Readable(page) && PageViews(page) == Snapshot.Compile(xs).messages
    requires forall k | 0 <= k < |page| :: Labelled(page[k])
    requires forall e | e in xs :: e.id != ""
    requires Resume.Continues(xs, ys)
    requires Snapshot.Processed(xs) != [] && Resume.ClosesTurn(Snapshot.Processed(xs)[|Snapshot.Processed(xs)| - 1])
    ensures Readable(resumed) && PageViews(resumed) == Snapshot.Compile(xs + ys).messages
    ensures if ys == [] then resumed == page else forall k | 0 <= k < |resumed| :: resumed[k].lined
  {
    hide Message.Valid, Labelled, NamedAlike, PageViews;
    hide Resume.Continues, Resume.ClosesTurn, Snapshot.Processed, Snapshot.Compile, Resume.ApplyRunEventsToMessages;
    CompiledIsNamed(page, xs);
    resumed := ApplyRunEventsToMessages(page, ys);
    Resume.ResumeEqualsReplay(xs, ys);
  }

  /** A page as a client reads it off the wire. */
  method SendPage(ms: seq<Message>) returns (page: seq<Message>)
    requires Readable(ms)
    ensures Readable(page) && PageViews(page) == PageViews(ms)
    ensures forall k | 0 <= k < |page| :: fresh(page[k].Repr) && Unshared(page[k])
    ensures forall k | 0 <= k < |page| :: Labelled(page[k]) <==> Labelled(ms[k])
  {
    hide Message.Valid, Message.View, Labelled, Unshared;
    ghost var views := PageViews(ms);
    page := [];
    for k := 0 to |ms|
      invariant |page| == k
      invariant forall j | 0 <= j < k :: page[j].Valid() && fresh(page[j].Repr) && Unshared(page[j])
      invariant forall j | 0 <= j < k :: page[j].View() == views[j] && (Labelled(page[j]) <==> Labelled(ms[j]))
    {
      var sent := SendMessage(ms[k]);
      page := page + [sent];
    }
  }

  /** A client that compiles a log and works the rest in from its own page. */
  method CompileThenResume(xs: seq<RunEvent>, ys: seq<RunEvent>) returns (resumed: seq<Message>)
    requires forall e | e in xs :: e.id != ""
    requires Resume.Continues(xs, ys)
    requires Snapshot.Processed(xs) != [] && Resume.ClosesTurn(Snapshot.Processed(xs)[|Snapshot.Processed(xs)| - 1])
    ensures Readable(resumed) && forall k | 0 <= k < |resumed| :: resumed[k].lined
    ensures PageViews(resumed) == Snapshot.Compile(xs + ys).messages
  {
    hide BuildState.Valid, Message.Valid, BuildState.View, PageViews, Labelled;
    hide Resume.Continues, Resume.ClosesTurn, Snapshot.Processed, Snapshot.Compile;
    var page := BuildTranscriptSnapshot(xs);
    StatePage(page);
    AllLabelled(page.messages);
    resumed := ResumePage(page.messages, xs, ys);
  }

  lemma AllLabelled(ms: seq<Message>)
    requires Readable(ms) && forall k | 0 <= k < |ms| :: ms[k].lined
    ensures forall k | 0 <= k < |ms| :: Labelled(ms[k])
  {
    forall k | 0 <= k < |ms|
      ensures Labelled(ms[k])
    {
      LinedIsLabelled(ms[k]);
    }
  }

  /** A client that reads the compiled page off the wire, where no block shares its record with the list of tools: once
      live events are worked in, every block does again. */
  method SendThenResume(xs: seq<RunEvent>, ys: seq<RunEvent>) returns (resumed: seq<Message>)
    requires forall e | e in xs :: e.id != ""
    requires Resume.Continues(xs, ys)
    requires Snapshot.Processed(xs) != [] && Resume.ClosesTurn(Snapshot.Processed(xs)[|Snapshot.Processed(xs)| - 1])
    ensures Readable(resumed) && PageViews(resumed) == Snapshot.Compile(xs + ys).messages
    ensures ys != [] ==> forall k | 0 <= k < |resumed| :: resumed[k].lined
  {
    hide BuildState.Valid, Message.Valid, BuildState.View, PageViews, Labelled;
    hide Resume.Continues, Resume.ClosesTurn, Snapshot.Processed, Snapshot.Compile;
    var compiled := BuildTranscriptSnapshot(xs);
    StatePage(compiled);
    AllLabelled(compiled.messages);
    var page := SendPage(compiled.messages);
    resumed := ResumePage(page, xs, ys);
  }
}
