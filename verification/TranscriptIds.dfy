/** Message ids come from event ids, each at most once. */
module TranscriptIds {
  import opened Events
  import opened Reducer

  /** Ids come from `used`, and no two messages share one. */
  predicate IdsOk(ms: seq<MessageView>, used: set<string>) {
    && (forall k | 0 <= k < |ms| :: ms[k].id in used)
    && (forall i, j | 0 <= i < j < |ms| :: ms[i].id != ms[j].id)
  }

  predicate SameIds(ms: seq<MessageView>, ns: seq<MessageView>) {
    |ms| == |ns| && forall k | 0 <= k < |ms| :: ns[k].id == ms[k].id
  }

  lemma {:induction false} KeepContentIds(ms: seq<MessageView>, used: set<string>)
    requires IdsOk(ms, used)
    ensures IdsOk(KeepContent(ms), used)
    ensures forall k | 0 <= k < |KeepContent(ms)| :: exists i | 0 <= i < |ms| :: ms[i] == KeepContent(ms)[k]
  {
    if ms != [] {
      var n := |ms| - 1;
      var head := KeepContent(ms[..n]);
      KeepContentIds(ms[..n], used);
      forall k | 0 <= k < |head|
        ensures exists i | 0 <= i < n :: ms[i] == head[k]
      {
        var i :| 0 <= i < n && ms[..n][i] == head[k];
        assert ms[i] == head[k];
      }
      assert KeepContent(ms) == if ms[n].role.Assistant? && !HasContent(ms[n]) then head else head + [ms[n]];
    }
  }

  lemma WithoutIds(ms: seq<MessageView>, i: nat, used: set<string>)
    requires IdsOk(ms, used) && i < |ms|
    ensures IdsOk(Without(ms, i), used)
  {
  }

  lemma FinishIds(s: TranscriptView, used: set<string>)
    requires OpenOk(s) && IdsOk(s.messages, used)
    ensures IdsOk(FinishAssistant(s).messages, used)
  {
    if s.open.Some? {
      WithoutIds(s.messages, s.open.value, used);
    }
  }

  lemma SettleIds(s: TranscriptView, at: Timestamp, used: set<string>)
    requires IdsOk(s.messages, used)
    ensures IdsOk(SettleAll(s, at).messages, used)
  {
    KeepContentIds(SettleEach(s.messages, at), used);
  }

  lemma UserTurnIds(s: TranscriptView, e: RunEvent, used: set<string>)
    requires OpenOk(s) && IdsOk(s.messages, used) && e.id !in used
    ensures IdsOk(UserTurn(s, e).messages, used + {e.id})
  {
    FinishIds(s, used);
  }

  /** Messages that keep their ids keep them distinct, whatever else comes into use. */
  lemma SameIdsOk(ms: seq<MessageView>, ns: seq<MessageView>, used: set<string>, id: string)
    requires IdsOk(ms, used) && SameIds(ms, ns)
    ensures IdsOk(ns, used) && IdsOk(ns, used + {id})
  {
  }

  lemma NestedIds(s: TranscriptView, e: RunEvent)
    requires OpenOk(s)
    ensures SameIds(s.messages, NestedToolEvent(s, e).messages)
  {
    hide UpsertNestedStep, BubbleWithSubagent, LastSubagentTool;
  }

  lemma ToolEventIds(s: TranscriptView, e: RunEvent, used: set<string>)
    requires OpenOk(s) && IdsOk(s.messages, used) && e.id !in used
    ensures IdsOk(ToolEvent(s, e).messages, used + {e.id})
  {
    hide IdsOk, BubbleWithTool, EnsureAssistant;
    SameIdsOk(s.messages, s.messages, used, e.id);
    EnsureIds(s, e, used);
    var t := if BubbleWithTool(s.messages, e).Some? then s else EnsureAssistant(s, e);
    assert SameIds(t.messages, ToolEvent(s, e).messages);
    SameIdsOk(t.messages, ToolEvent(s, e).messages, used + {e.id}, e.id);
  }

  lemma ToolStepIds(s: TranscriptView, e: RunEvent, used: set<string>)
    requires OpenOk(s) && IdsOk(s.messages, used) && e.id !in used
    ensures IdsOk(ToolStep(s, e).messages, used + {e.id})
  {
    hide IdsOk, SameIds, ToolEvent, NestedToolEvent;
    if e.Nested() {
      NestedIds(s, e);
      SameIdsOk(s.messages, NestedToolEvent(s, e).messages, used, e.id);
    } else {
      ToolEventIds(s, e, used);
    }
  }

  lemma AgentEndedIds(s: TranscriptView, used: set<string>)
    requires OpenOk(s) && IdsOk(s.messages, used)
    ensures IdsOk(AgentEnded(s).messages, used)
  {
    var marked := s.(messages := MarkEach(s.messages));
    assert SameIds(s.messages, marked.messages);
    FinishIds(marked, used);
  }

  lemma EnsureIds(s: TranscriptView, e: RunEvent, used: set<string>)
    requires OpenOk(s) && IdsOk(s.messages, used) && e.id !in used
    ensures IdsOk(EnsureAssistant(s, e).messages, used + {e.id})
  {
  }

  lemma TextStepIds(s: TranscriptView, e: RunEvent, used: set<string>)
    requires OpenOk(s) && IdsOk(s.messages, used) && e.id !in used
    requires e.kind.MessageStart? || e.kind.MessageDelta?
    ensures IdsOk(Apply(s, e).messages, used + {e.id})
  {
    EnsureIds(s, e, used);
    assert SameIds(EnsureAssistant(s, e).messages, Apply(s, e).messages);
  }

  lemma RunFailedIds(s: TranscriptView, e: RunEvent, used: set<string>)
    requires IdsOk(s.messages, used) && e.id !in used
    ensures IdsOk(RunFailed(s, e).messages, used + {e.id})
  {
    SettleIds(s, e.createdAt, used);
  }

  /** Settling or ending drops messages or keeps them: no new id comes into use. */
  lemma MoreInUse(ms: seq<MessageView>, used: set<string>, id: string)
    requires IdsOk(ms, used)
    ensures IdsOk(ms, used + {id})
  {
  }

  lemma QuietStepIds(s: TranscriptView, e: RunEvent, used: set<string>)
    requires OpenOk(s) && IdsOk(s.messages, used) && e.id !in used
    requires e.kind.AgentStart? || e.kind.MessageEnd? || e.kind.SetupKind?
    ensures IdsOk(Apply(s, e).messages, used + {e.id})
  {
    if !e.kind.SetupKind? {
      assert SameIds(s.messages, Apply(s, e).messages);
    }
  }

  lemma StepIds(s: TranscriptView, e: RunEvent, used: set<string>)
    requires OpenOk(s) && IdsOk(s.messages, used) && e.id !in used
    ensures IdsOk(Apply(s, e).messages, used + {e.id})
  {
    hide IdsOk, UserTurn, AgentStarted, AgentEnded, ToolStep, SettleAll, RunFailed;
    MoreInUse(s.messages, used, e.id);
    match e.kind
    case UserMessage => UserTurnIds(s, e, used);
    case FollowupQueued => UserTurnIds(s, e, used);
    case AgentStart => QuietStepIds(s, e, used);
    case MessageStart => TextStepIds(s, e, used);
    case MessageDelta => TextStepIds(s, e, used);
    case MessageEnd => QuietStepIds(s, e, used);
    case AgentEnd =>
      AgentEndedIds(s, used);
      MoreInUse(AgentEnded(s).messages, used, e.id);
    case RunIdle =>
      SettleIds(s, e.createdAt, used);
      MoreInUse(SettleAll(s, e.createdAt).messages, used, e.id);
    case RunError => RunFailedIds(s, e, used);
    case ToolStart => ToolStepIds(s, e, used);
    case ToolUpdate => ToolStepIds(s, e, used);
    case ToolEnd => ToolStepIds(s, e, used);
    case SetupKind(_) => QuietStepIds(s, e, used);
    case TurnRewind =>
    case OtherKind(_) =>
  }

  function EventIds(es: seq<RunEvent>): set<string> {
    set k | 0 <= k < |es| :: es[k].id
  }

  predicate DistinctEventIds(es: seq<RunEvent>) {
    forall i, j | 0 <= i < j < |es| :: es[i].id != es[j].id
  }

  lemma {:induction false} RunIds(s: TranscriptView, es: seq<RunEvent>, used: set<string>)
    requires OpenOk(s) && IdsOk(s.messages, used)
    requires DistinctEventIds(es) && EventIds(es) !! used
    ensures IdsOk(Run(s, es).messages, used + EventIds(es))
    decreases |es|
  {
    if es == [] {
      assert used + EventIds(es) == used;
    } else {
      assert es[0].id in EventIds(es);
      StepIds(s, es[0], used);
      forall k | 0 <= k < |es[1..]|
        ensures es[1..][k].id in EventIds(es) && es[1..][k].id != es[0].id
      {
        assert es[1..][k] == es[k + 1];
      }
      RunIds(Apply(s, es[0]), es[1..], used + {es[0].id});
      assert used + {es[0].id} + EventIds(es[1..]) == used + EventIds(es) by {
        forall id | id in EventIds(es)
          ensures id in {es[0].id} + EventIds(es[1..])
        {
          var k :| 0 <= k < |es| && es[k].id == id;
          if k > 0 { assert es[1..][k - 1].id == id; }
        }
      }
    }
  }

  // ---- tool ids ----

  predicate ToolsNamed(m: MessageView) {
    forall k | 0 <= k < |m.tools| :: m.tools[k].id != ""
  }

  /** Every tool record has an id. */
  predicate AllNamed(ms: seq<MessageView>) {
    forall k | 0 <= k < |ms| :: ToolsNamed(ms[k])
  }

  lemma {:induction false} KeepContentNamed(ms: seq<MessageView>)
    requires AllNamed(ms)
    ensures AllNamed(KeepContent(ms))
  {
    if ms != [] {
      KeepContentNamed(ms[..|ms| - 1]);
    }
  }

  lemma FinishNamed(s: TranscriptView)
    requires OpenOk(s) && AllNamed(s.messages)
    ensures AllNamed(FinishAssistant(s).messages)
  {
    if s.open.Some? {
      assert ToolsNamed(s.messages[s.open.value]);
      assert ToolsNamed(Closed(s.messages[s.open.value]));
    }
  }

  lemma SettleNamed(s: TranscriptView, at: Timestamp)
    requires AllNamed(s.messages)
    ensures AllNamed(SettleAll(s, at).messages)
  {
    forall k | 0 <= k < |s.messages|
      ensures ToolsNamed(SettleEach(s.messages, at)[k])
    {
      assert ToolsNamed(s.messages[k]);
    }
    KeepContentNamed(SettleEach(s.messages, at));
  }

  lemma AgentEndedNamed(s: TranscriptView)
    requires OpenOk(s) && AllNamed(s.messages)
    ensures AllNamed(AgentEnded(s).messages)
  {
    var marked := s.(messages := MarkEach(s.messages));
    forall k | 0 <= k < |s.messages|
      ensures ToolsNamed(marked.messages[k])
    {
      assert ToolsNamed(s.messages[k]);
    }
    FinishNamed(marked);
    var open := OpenOrLastTurn(marked);
    if open.Some? {
      assert ToolsNamed(marked.messages[open.value].(streaming := true));
    }
  }

  lemma NestedNamed(s: TranscriptView, e: RunEvent)
    requires OpenOk(s) && AllNamed(s.messages)
    ensures AllNamed(NestedToolEvent(s, e).messages)
  {
    hide UpsertNestedStep, BubbleWithSubagent, LastSubagentTool;
    var running, any := BubbleWithSubagent(s.messages, true), BubbleWithSubagent(s.messages, false);
    if running.Some? || any.Some? {
      var i := if running.Some? then running.value else any.value;
      assert ToolsNamed(s.messages[i]);
      NestedKeepsId(s.messages[i].tools[LastSubagentTool(s.messages[i].tools, running.Some?).value], e);
      assert ToolsNamed(NestedToolEvent(s, e).messages[i]);
    }
  }

  lemma UpsertToolNamed(m: MessageView, e: RunEvent)
    requires ToolsNamed(m) && e.ToolKey() != ""
    ensures ToolsNamed(UpsertTool(m, e))
  {
    assert Refresh(NewTool(e), e).id == e.ToolKey();
    var k := MatchTool(m.tools, e);
    assert k.Some? ==> Refresh(m.tools[k.value], e).id == e.ToolKey();
  }

  lemma ToolStepNamed(s: TranscriptView, e: RunEvent)
    requires OpenOk(s) && AllNamed(s.messages) && e.ToolKey() != ""
    ensures AllNamed(ToolStep(s, e).messages)
  {
    hide UpsertTool, BubbleWithTool, NestedToolEvent;
    if e.Nested() {
      NestedNamed(s, e);
    } else {
      var found := BubbleWithTool(s.messages, e);
      var t := if found.Some? then s.(open := found) else EnsureAssistant(s, e);
      assert AllNamed(t.messages);
      UpsertToolNamed(t.messages[t.open.value], e);
    }
  }

  lemma UserTurnNamed(s: TranscriptView, e: RunEvent)
    requires OpenOk(s) && AllNamed(s.messages)
    ensures AllNamed(UserTurn(s, e).messages)
  {
    FinishNamed(s);
    var again := Redelivered(s, e);
    if again.Some? {
      assert ToolsNamed(s.messages[again.value]);
    }
  }

  lemma TextStepNamed(s: TranscriptView, e: RunEvent)
    requires OpenOk(s) && AllNamed(s.messages)
    requires e.kind.MessageStart? || e.kind.MessageDelta? || e.kind.MessageEnd? || e.kind.AgentStart?
    ensures AllNamed(Apply(s, e).messages)
  {
    assert AllNamed(EnsureAssistant(s, e).messages);
  }

  lemma RunFailedNamed(s: TranscriptView, e: RunEvent)
    requires AllNamed(s.messages)
    ensures AllNamed(RunFailed(s, e).messages)
  {
    SettleNamed(s, e.createdAt);
  }

  lemma SetupNamed(s: TranscriptView, e: RunEvent)
    requires AllNamed(s.messages)
    ensures AllNamed(Push(s, SetupMessage(e)).messages)
  {
  }

  lemma StepNamed(s: TranscriptView, e: RunEvent)
    requires OpenOk(s) && AllNamed(s.messages) && e.id != ""
    ensures AllNamed(Apply(s, e).messages)
  {
    hide AllNamed, UserTurn, AgentStarted, AgentEnded, ToolStep, SettleAll, RunFailed;
    match e.kind
    case UserMessage => UserTurnNamed(s, e);
    case FollowupQueued => UserTurnNamed(s, e);
    case AgentStart => TextStepNamed(s, e);
    case MessageStart => TextStepNamed(s, e);
    case MessageDelta => TextStepNamed(s, e);
    case MessageEnd => TextStepNamed(s, e);
    case AgentEnd => AgentEndedNamed(s);
    case RunIdle => SettleNamed(s, e.createdAt);
    case ToolStart => ToolStepNamed(s, e);
    case ToolUpdate => ToolStepNamed(s, e);
    case ToolEnd => ToolStepNamed(s, e);
    case RunError => RunFailedNamed(s, e);
    case SetupKind(_) => SetupNamed(s, e);
    case TurnRewind =>
    case OtherKind(_) =>
  }

  lemma {:induction false} RunNamed(s: TranscriptView, es: seq<RunEvent>)
    requires OpenOk(s) && AllNamed(s.messages)
    requires forall k | 0 <= k < |es| :: es[k].id != ""
    ensures AllNamed(Run(s, es).messages)
    decreases |es|
  {
    if es != [] {
      StepNamed(s, es[0]);
      RunNamed(Apply(s, es[0]), es[1..]);
    }
  }
}
