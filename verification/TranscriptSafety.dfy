/** Safety over whole runs: what holds of every transcript any event log produces. */
module TranscriptSafety {
  import opened Prelude
  import opened Events
  import opened Reducer
  import opened TranscriptInvariants

  predicate ToolKind(e: RunEvent) {
    e.kind.ToolStart? || e.kind.ToolUpdate? || e.kind.ToolEnd?
  }

  /** The event is about a tool no bubble has yet. */
  predicate OpensTool(s: TranscriptView, e: RunEvent) {
    ToolKind(e) && !e.Nested() && BubbleWithTool(s.messages, e).None?
  }

  function DeltaInk(e: RunEvent): multiset<char> {
    if e.kind.MessageDelta? then Ink(e.Delta()) else multiset{}
  }

  /** `after` is a good transcript holding `before` and this much more. */
  predicate Gained(before: TranscriptView, after: TranscriptView, ink: multiset<char>, tools: nat) {
    && Inv(after)
    && TallyAll(after.messages).ink == TallyAll(before.messages).ink + ink
    && TallyAll(after.messages).tools == TallyAll(before.messages).tools + tools
  }

  lemma EditGains(s: TranscriptView, i: nat, m: MessageView, ink: multiset<char>, tools: nat)
    requires Inv(s) && i < |s.messages| && Shape(m) && m.role == s.messages[i].role
    requires TallyOf(m) == TallyOf(s.messages[i]).Gain(ink, tools)
    ensures Gained(s, Edit(s, i, m), ink, tools)
    ensures TallyAll(Edit(s, i, m).messages) == TallyAll(s.messages).Gain(ink, tools)
  {
    hide Shape, TallyAll, TallyOf, ListOk;
    EditKeeps(s.messages, i, m, ink, tools);
  }

  lemma NothingGained(s: TranscriptView)
    requires Inv(s)
    ensures Gained(s, s, multiset{}, 0)
  {
    AddNothing(TallyAll(s.messages));
  }

  lemma ClosedShape(m: MessageView)
    requires Shape(m)
    ensures Shape(Closed(m)) && Shape(MarkToolsDone(m))
  {
  }

  lemma FinishGains(s: TranscriptView)
    requires Inv(s)
    ensures Inv(FinishAssistant(s))
    ensures TallyAll(FinishAssistant(s).messages) == TallyAll(s.messages)
  {
    if s.open.Some? {
      var i := s.open.value;
      var m := Closed(s.messages[i]);
      ClosedShape(s.messages[i]);
      assert TallyOf(m) == TallyOf(s.messages[i]).Gain(multiset{}, 0);
      EditKeeps(s.messages, i, m, multiset{}, 0);
      assert TallyAll(s.messages).Gain(multiset{}, 0) == TallyAll(s.messages);
      if !HasContent(m) {
        WithoutKeeps(s.messages[i := m], i);
        assert Without(s.messages[i := m], i) == Without(s.messages, i);
      }
    }
  }

  lemma NewAssistantShape(e: RunEvent)
    ensures Shape(NewAssistant(e)) && TallyOf(NewAssistant(e)) == NOTHING
  {
  }

  lemma InvOpen(s: TranscriptView)
    requires Inv(s)
    ensures OpenOk(s)
  {
  }

  lemma EnsureGains(s: TranscriptView, e: RunEvent)
    requires Inv(s)
    ensures Gained(s, EnsureAssistant(s, e), multiset{}, 0)
  {
    hide Slots, BlockText, DistinctToolIds, TextBlocksOk, TallyAll, LastTurnAssistant;
    var last := LastTurnAssistant(s.messages);
    if s.open.None? && last.Some? {
      var i := last.value;
      EditGains(s, i, s.messages[i].(streaming := true), multiset{}, 0);
    } else if s.open.None? {
      var m := NewAssistant(e);
      NewAssistantShape(e);
      PushKeeps(s.messages, m);
      AddNothing(TallyAll(s.messages));
    }
  }

  lemma {:induction false} FollowUpAbsent(ms: seq<MessageView>, f: string)
    requires f != "" && UserByFollowUp(ms, f).None?
    ensures f !in TallyAll(ms).followUps
  {
    if ms != [] {
      assert !FollowUpOf(ms[0], f);
      FollowUpAbsent(ms[1..], f);
    }
  }

  lemma UserTurnGains(s: TranscriptView, e: RunEvent)
    requires Inv(s)
    ensures Gained(s, UserTurn(s, e), multiset{}, 0)
  {
    hide Slots, BlockText, DistinctToolIds, TextBlocksOk, TallyAll, LastTurnAssistant, FinishAssistant;
    var again := Redelivered(s, e);
    if again.Some? {
      var i := again.value;
      EditGains(s, i, Redeliver(s.messages[i], e), multiset{}, 0);
    } else if e.Text() != "" || !e.kind.FollowupQueued? {
      FinishGains(s);
      if e.data.followUpId.Some? && e.data.followUpId.value != "" {
        FollowUpAbsent(s.messages, e.data.followUpId.value);
      }
      PushKeeps(FinishAssistant(s).messages, NewUser(e));
    }
  }

  lemma MarkEachGains(s: TranscriptView)
    requires Inv(s)
    ensures Gained(s, s.(messages := MarkEach(s.messages)), multiset{}, 0)
  {
    var ms, ns := s.messages, MarkEach(s.messages);
    forall k | 0 <= k < |ms|
      ensures TallyOf(ns[k]) == TallyOf(ms[k]) && Shape(ns[k])
    {
      ClosedShape(ms[k]);
    }
    PointwiseKeeps(ms, ns);
  }

  lemma AgentEndedGains(s: TranscriptView)
    requires Inv(s)
    ensures Gained(s, AgentEnded(s), multiset{}, 0)
  {
    MarkEachGains(s);
    var marked := s.(messages := MarkEach(s.messages));
    var open := OpenOrLastTurn(marked);
    if open.Some? {
      if HasContent(marked.messages[open.value]) {
        EditGains(marked, open.value, marked.messages[open.value].(streaming := true), multiset{}, 0);
      } else {
        FinishGains(marked);
      }
    }
  }

  lemma SettledShape(m: MessageView, at: Timestamp)
    requires Shape(m)
    ensures Shape(SettleOne(m, at)) && TallyOf(SettleOne(m, at)) == TallyOf(m) && SettleOne(m, at).role == m.role
  {
    ClosedShape(m);
  }

  lemma SettleGains(s: TranscriptView, at: Timestamp)
    requires Inv(s)
    ensures Gained(s, SettleAll(s, at), multiset{}, 0)
    ensures TallyAll(SettleAll(s, at).messages) == TallyAll(s.messages)
  {
    hide TallyAll, TallyOf, Shape, SettleOne, KeepContent, Roles, OneBubble;
    var ms, ns := s.messages, SettleEach(s.messages, at);
    forall k | 0 <= k < |ms|
      ensures TallyOf(ns[k]) == TallyOf(ms[k]) && ns[k].role == ms[k].role && Shape(ns[k])
    {
      SettledShape(ms[k], at);
    }
    PointwiseKeeps(ms, ns);
    KeepContentKeeps(ns);
    AddNothing(TallyAll(ms));
  }

  lemma PushSetupGains(s: TranscriptView, e: RunEvent)
    requires Inv(s)
    ensures Gained(s, Push(s, SetupMessage(e)), multiset{}, 0)
  {
    PushKeeps(s.messages, SetupMessage(e));
    AddNothing(TallyAll(s.messages));
  }

  /** A tool record may change in place as long as it keeps its id. */
  lemma ToolInPlace(m: MessageView, k: nat, tool: ToolView, at: Timestamp)
    requires Shape(m) && k < |m.tools| && tool.id == m.tools[k].id
    ensures var after := Touch(m.(tools := m.tools[k := tool]), at);
      Shape(after) && after.role == m.role && TallyOf(after) == TallyOf(m).Gain(multiset{}, 0)
  {
    assert forall j | 0 <= j < |m.tools| :: m.tools[k := tool][j].id == m.tools[j].id;
  }

  lemma NestedGains(s: TranscriptView, e: RunEvent)
    requires Inv(s)
    ensures Gained(s, NestedToolEvent(s, e), multiset{}, 0)
  {
    hide Shape, TallyOf, TallyAll, UpsertNestedStep, LastSubagentTool, Touch;
    var running := BubbleWithSubagent(s.messages, true);
    var any := BubbleWithSubagent(s.messages, false);
    if running.Some? || any.Some? {
      var i := if running.Some? then running.value else any.value;
      var m := s.messages[i];
      var k := LastSubagentTool(m.tools, running.Some?).value;
      NestedKeepsId(m.tools[k], e);
      ToolInPlace(m, k, UpsertNestedStep(m.tools[k], e), e.createdAt);
      EditGains(s, i, Touch(m.(tools := m.tools[k := UpsertNestedStep(m.tools[k], e)]), e.createdAt), multiset{}, 0);
    } else {
      NothingGained(s);
    }
  }

  lemma ThenGained(s: TranscriptView, t: TranscriptView, u: TranscriptView, ink: multiset<char>, tools: nat)
    requires Gained(s, t, multiset{}, 0) && Gained(t, u, ink, tools)
    ensures Gained(s, u, ink, tools)
  {
    var was := TallyAll(s.messages).ink;
    assert was + multiset{} == was;
  }

  lemma UpsertToolGains(t: TranscriptView, i: nat, e: RunEvent)
    requires Inv(t) && i < |t.messages| && t.messages[i].role.Assistant?
    ensures Gained(t, Edit(t, i, Touch(UpsertTool(t.messages[i], e), e.createdAt)), multiset{},
                   if MatchTool(t.messages[i].tools, e).None? then 1 else 0)
  {
    hide Shape, TallyOf, TallyAll, UpsertTool, Touch, MatchTool;
    var m := t.messages[i];
    UpsertToolTally(m, e);
    EditGains(t, i, Touch(UpsertTool(m, e), e.createdAt), multiset{}, if MatchTool(m.tools, e).None? then 1 else 0);
  }

  lemma UpsertToolTally(m: MessageView, e: RunEvent)
    requires m.role.Assistant? && Shape(m)
    ensures var after := Touch(UpsertTool(m, e), e.createdAt);
      && Shape(after) && after.role == m.role
      && TallyOf(after) == TallyOf(m).Gain(multiset{}, if MatchTool(m.tools, e).None? then 1 else 0)
  {
    UpsertToolShape(m, e);
  }

  lemma EnsureMatchesNothingNew(s: TranscriptView, e: RunEvent)
    requires OpenOk(s) && BubbleWithTool(s.messages, e).None?
    ensures var t := EnsureAssistant(s, e); MatchTool(t.messages[t.open.value].tools, e).None?
  {
    var t := EnsureAssistant(s, e);
    var i := t.open.value;
    if i < |s.messages| {
      assert !MatchesTool(s.messages[i], e);
      assert t.messages[i].tools == s.messages[i].tools;
    }
  }

  lemma ToolEventGains(s: TranscriptView, e: RunEvent)
    requires Inv(s)
    ensures Gained(s, ToolEvent(s, e), multiset{}, if BubbleWithTool(s.messages, e).None? then 1 else 0)
  {
    var found := BubbleWithTool(s.messages, e);
    if found.Some? {
      UpsertToolGains(s.(open := found), found.value, e);
    } else {
      var t := EnsureAssistant(s, e);
      EnsureGains(s, e);
      EnsureMatchesNothingNew(s, e);
      UpsertToolGains(t, t.open.value, e);
      ThenGained(s, t, ToolEvent(s, e), multiset{}, 1);
    }
  }

  lemma AppendTextGains(t: TranscriptView, i: nat, delta: string, at: Timestamp)
    requires Inv(t) && i < |t.messages| && t.messages[i].role.Assistant?
    ensures Gained(t, Edit(t, i, Touch(AppendText(t.messages[i], delta), at)), Ink(delta), 0)
  {
    var m := t.messages[i];
    AppendTextShape(m, delta);
    InkConcat(m.text, delta);
    EditGains(t, i, Touch(AppendText(m, delta), at), Ink(delta), 0);
  }

  lemma DeltaGains(s: TranscriptView, e: RunEvent)
    requires Inv(s) && e.kind.MessageDelta?
    ensures Gained(s, Apply(s, e), Ink(e.Delta()), 0)
  {
    hide Inv, AppendText, TallyAll, EnsureAssistant;
    InvOpen(s);
    var t := EnsureAssistant(s, e);
    EnsureGains(s, e);
    InvOpen(t);
    AppendTextGains(t, t.open.value, e.Delta(), e.createdAt);
    ThenGained(s, t, Apply(s, e), Ink(e.Delta()), 0);
  }

  lemma TouchGains(s: TranscriptView, i: nat, streaming: bool, at: Timestamp)
    requires Inv(s) && i < |s.messages|
    ensures Gained(s, Edit(s, i, Touch(s.messages[i].(streaming := streaming), at)), multiset{}, 0)
  {
    EditGains(s, i, Touch(s.messages[i].(streaming := streaming), at), multiset{}, 0);
  }

  lemma MessageStartGains(s: TranscriptView, e: RunEvent)
    requires Inv(s) && e.kind.MessageStart?
    ensures Gained(s, Apply(s, e), multiset{}, 0)
  {
    hide Inv, TallyAll, EnsureAssistant;
    InvOpen(s);
    var t := EnsureAssistant(s, e);
    EnsureGains(s, e);
    InvOpen(t);
    TouchGains(t, t.open.value, true, e.createdAt);
    ThenGained(s, t, Apply(s, e), multiset{}, 0);
  }

  lemma AgentStartedGains(s: TranscriptView, e: RunEvent)
    requires Inv(s)
    ensures Gained(s, AgentStarted(s, e), multiset{}, 0)
  {
    var open := OpenOrLastTurn(s);
    if open.Some? {
      TouchGains(s, open.value, true, e.createdAt);
    }
  }

  lemma RunFailedGains(s: TranscriptView, e: RunEvent)
    requires Inv(s)
    ensures Gained(s, RunFailed(s, e), multiset{}, 0)
  {
    var t := SettleAll(s, e.createdAt);
    SettleGains(s, e.createdAt);
    PushSetupGains(t, e);
    ThenGained(s, t, Push(t, SetupMessage(e)), multiset{}, 0);
  }

  /** Every event keeps the invariant, adds exactly its own characters and at most one tool. */
  lemma StepGains(s: TranscriptView, e: RunEvent)
    requires Inv(s)
    ensures Gained(s, Apply(s, e), DeltaInk(e), if OpensTool(s, e) then 1 else 0)
  {
    hide Inv, Gained, ToolStep, BubbleWithTool;
    InvOpen(s);
    if e.kind.MessageDelta? {
      DeltaGains(s, e);
    } else if ToolKind(e) {
      ToolStepGains(s, e);
    } else {
      QuietStepGains(s, e);
    }
  }

  lemma ToolStepGains(s: TranscriptView, e: RunEvent)
    requires Inv(s)
    ensures Gained(s, ToolStep(s, e), multiset{}, if !e.Nested() && BubbleWithTool(s.messages, e).None? then 1 else 0)
  {
    hide Inv, Gained, NestedToolEvent, ToolEvent, BubbleWithTool;
    if e.Nested() {
      NestedGains(s, e);
    } else {
      ToolEventGains(s, e);
    }
  }

  /** Events that carry neither reply text nor a tool add nothing to either. */
  lemma QuietStepGains(s: TranscriptView, e: RunEvent)
    requires Inv(s) && !ToolKind(e) && !e.kind.MessageDelta?
    ensures Gained(s, Apply(s, e), multiset{}, 0)
  {
    hide Inv, Gained, UserTurn, SettleAll, AgentEnded, AgentStarted, RunFailed;
    InvOpen(s);
    NothingGained(s);
    match e.kind
    case UserMessage => UserTurnGains(s, e);
    case FollowupQueued => UserTurnGains(s, e);
    case AgentStart => AgentStartedGains(s, e);
    case MessageStart => MessageStartGains(s, e);
    case MessageEnd => if s.open.Some? { TouchGains(s, s.open.value, false, e.createdAt); }
    case AgentEnd => AgentEndedGains(s);
    case RunIdle => SettleGains(s, e.createdAt);
    case RunError => RunFailedGains(s, e);
    case SetupKind(_) => PushSetupGains(s, e);
    case TurnRewind =>
    case OtherKind(_) =>
  }

  // ---- whole runs ----

  function AllDeltaInk(es: seq<RunEvent>): multiset<char> {
    if es == [] then multiset{} else DeltaInk(es[0]) + AllDeltaInk(es[1..])
  }

  function ToolsOpened(s: TranscriptView, es: seq<RunEvent>): nat
    requires OpenOk(s)
    decreases |es|
  {
    if es == [] then 0 else (if OpensTool(s, es[0]) then 1 else 0) + ToolsOpened(Apply(s, es[0]), es[1..])
  }

  /** Over any run: reply characters are conserved, and a tool record that was opened is never lost. */
  lemma {:induction false} RunGains(s: TranscriptView, es: seq<RunEvent>)
    requires Inv(s)
    ensures Gained(s, Run(s, es), AllDeltaInk(es), ToolsOpened(s, es))
    decreases |es|
  {
    if es == [] {
      var ink := TallyAll(s.messages).ink;
      assert ink + multiset{} == ink;
    } else {
      var t := Apply(s, es[0]);
      StepGains(s, es[0]);
      RunGains(t, es[1..]);
      var ink, first, rest := TallyAll(s.messages).ink, DeltaInk(es[0]), AllDeltaInk(es[1..]);
      assert ink + first + rest == ink + (first + rest);
    }
  }

  lemma EmptyInv()
    ensures Inv(EMPTY) && TallyAll(EMPTY.messages) == NOTHING
  {
  }

  /** A delta need not land in the newest turn: a late event of a tool moves the cursor back to the turn that has it. */
  lemma LateToolReopensOldTurn(start: RunEvent, user: RunEvent, late: RunEvent, delta: RunEvent)
    requires start.kind.ToolStart? && user.kind.UserMessage? && late.kind.ToolUpdate? && delta.kind.MessageDelta?
    requires !start.Nested() && !late.Nested() && late.ToolKey() == start.ToolKey() && user.data.followUpId.None?
    ensures var ms := Run(EMPTY, [start, user, late, delta]).messages;
      |ms| == 2 && ms[0].role.Assistant? && ms[1].role.User? && ms[0].text == delta.Delta() && ms[1].text == user.Text()
  {
    hide Apply, Run;
    StartOpensBubble(start);
    var one := Apply(EMPTY, start);
    UserClosesBubble(one, user);
    var two := Apply(one, user);
    LateToolReopens(two, late);
    var three := Apply(two, late);
    DeltaLandsOnOpen(three, delta);
    Unroll(EMPTY, start, [user, late, delta]);
    Unroll(one, user, [late, delta]);
    Unroll(two, late, [delta]);
    Unroll(three, delta, []);
    RunNothing(Apply(three, delta));
    assert [start] + [user, late, delta] == [start, user, late, delta];
    assert [user] + [late, delta] == [user, late, delta] && [late] + [delta] == [late, delta] && [delta] + [] == [delta];
  }

  /** One bubble without text that holds one tool. */
  predicate ToolBubble(m: MessageView, key: string) {
    m.role.Assistant? && m.text == "" && |m.tools| == 1 && m.tools[0].id == key
  }

  lemma StartOpensBubble(start: RunEvent)
    requires start.kind.ToolStart? && !start.Nested()
    ensures var one := Apply(EMPTY, start);
      |one.messages| == 1 && one.open == Some(0) && ToolBubble(one.messages[0], start.ToolKey())
  {
    hide Refresh;
    RefreshKeepsKey(NewTool(start), start);
  }

  lemma UserClosesBubble(s: TranscriptView, user: RunEvent)
    requires |s.messages| == 1 && s.open == Some(0) && s.messages[0].role.Assistant? && s.messages[0].tools != []
    requires user.kind.UserMessage? && user.data.followUpId.None?
    ensures var t := Apply(s, user);
      && t.open.None? && t.messages == [Closed(s.messages[0]), NewUser(user)]
      && forall key :: ToolBubble(s.messages[0], key) ==> ToolBubble(t.messages[0], key)
  {
  }

  lemma LateToolReopens(s: TranscriptView, late: RunEvent)
    requires |s.messages| == 2 && s.open.None? && ToolBubble(s.messages[0], late.ToolKey()) && s.messages[1].role.User?
    requires late.kind.ToolUpdate? && !late.Nested()
    ensures var t := Apply(s, late);
      && t.open == Some(0) && |t.messages| == 2 && t.messages[1] == s.messages[1]
      && t.messages[0].role.Assistant? && t.messages[0].text == ""
  {
    hide Refresh;
    assert MatchesTool(s.messages[0], late);
    assert BubbleWithTool(s.messages, late) == Some(0);
  }

  lemma DeltaLandsOnOpen(s: TranscriptView, delta: RunEvent)
    requires OpenOk(s) && s.open.Some? && delta.kind.MessageDelta?
    ensures var t, i := Apply(s, delta), s.open.value;
      && |t.messages| == |s.messages| && t.messages[i].role == s.messages[i].role
      && t.messages[i].text == s.messages[i].text + delta.Delta()
      && forall k | 0 <= k < |t.messages| && k != i :: t.messages[k] == s.messages[k]
  {
  }

  lemma RunNothing(s: TranscriptView)
    requires OpenOk(s)
    ensures Run(s, []) == s
  {
  }

  lemma RefreshKeepsKey(tool: ToolView, e: RunEvent)
    ensures Refresh(tool, e).id == e.ToolKey()
  {
  }

  lemma Unroll(s: TranscriptView, e: RunEvent, es: seq<RunEvent>)
    requires OpenOk(s)
    ensures Run(s, [e] + es) == Run(Apply(s, e), es)
  {
    assert ([e] + es)[1..] == es;
  }
}
