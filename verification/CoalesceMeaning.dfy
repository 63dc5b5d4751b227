/** Coalescing token deltas does not change what the reader shows. */
module CoalesceMeaning {
  import opened Events
  import opened Reducer
  import opened ClientStream

  /** The same message, except that a reply bubble may have another id and creation time. */
  predicate Alike(m: MessageView, n: MessageView) {
    if m.role.Assistant? then n == m.(id := n.id, createdAt := n.createdAt) else n == m
  }

  predicate AlikeLists(ms: seq<MessageView>, ns: seq<MessageView>) {
    |ms| == |ns| && forall k | 0 <= k < |ms| :: Alike(ms[k], ns[k])
  }

  predicate AlikeStates(s: TranscriptView, t: TranscriptView) {
    s.open == t.open && AlikeLists(s.messages, t.messages)
  }

  // ---- the reducer cannot tell them apart ----

  lemma {:induction false} SearchesAgree(ms: seq<MessageView>, ns: seq<MessageView>, e: RunEvent)
    requires AlikeLists(ms, ns)
    ensures LastTurnAssistant(ns) == LastTurnAssistant(ms)
    ensures BubbleWithTool(ns, e) == BubbleWithTool(ms, e)
    ensures BubbleWithSubagent(ns, true) == BubbleWithSubagent(ms, true)
    ensures BubbleWithSubagent(ns, false) == BubbleWithSubagent(ms, false)
  {
    if ms != [] {
      assert Alike(ms[|ms| - 1], ns[|ns| - 1]);
      SearchesAgree(ms[..|ms| - 1], ns[..|ns| - 1], e);
    }
  }

  lemma {:induction false} FollowUpsAgree(ms: seq<MessageView>, ns: seq<MessageView>, followUpId: string)
    requires AlikeLists(ms, ns)
    ensures UserByFollowUp(ns, followUpId) == UserByFollowUp(ms, followUpId)
  {
    if ms != [] {
      assert Alike(ms[0], ns[0]);
      FollowUpsAgree(ms[1..], ns[1..], followUpId);
    }
  }

  lemma {:induction false} KeepContentAlike(ms: seq<MessageView>, ns: seq<MessageView>)
    requires AlikeLists(ms, ns)
    ensures AlikeLists(KeepContent(ms), KeepContent(ns))
  {
    if ms != [] {
      KeepContentAlike(ms[..|ms| - 1], ns[..|ns| - 1]);
      assert Alike(ms[|ms| - 1], ns[|ns| - 1]);
    }
  }

  lemma SettleAlike(s: TranscriptView, t: TranscriptView, at: Timestamp)
    requires AlikeLists(s.messages, t.messages)
    ensures AlikeStates(SettleAll(s, at), SettleAll(t, at))
  {
    var a, b := SettleEach(s.messages, at), SettleEach(t.messages, at);
    forall k | 0 <= k < |a|
      ensures Alike(a[k], b[k])
    {
      assert Alike(s.messages[k], t.messages[k]);
    }
    KeepContentAlike(a, b);
  }

  lemma EditAlike(s: TranscriptView, t: TranscriptView, i: nat, m: MessageView, n: MessageView)
    requires AlikeStates(s, t) && i < |s.messages| && Alike(m, n)
    ensures AlikeStates(Edit(s, i, m), Edit(t, i, n))
  {
  }

  lemma FinishAlike(s: TranscriptView, t: TranscriptView)
    requires OpenOk(s) && OpenOk(t) && AlikeStates(s, t)
    ensures AlikeStates(FinishAssistant(s), FinishAssistant(t))
  {
    if s.open.Some? {
      assert Alike(s.messages[s.open.value], t.messages[t.open.value]);
      assert Alike(Closed(s.messages[s.open.value]), Closed(t.messages[t.open.value]));
    }
  }

  lemma EnsureAlike(s: TranscriptView, t: TranscriptView, e: RunEvent, f: RunEvent)
    requires OpenOk(s) && OpenOk(t) && AlikeStates(s, t) && e.createdAt == f.createdAt
    ensures AlikeStates(EnsureAssistant(s, e), EnsureAssistant(t, f))
  {
    SearchesAgree(s.messages, t.messages, e);
  }

  lemma UserTurnAlike(s: TranscriptView, t: TranscriptView, e: RunEvent)
    requires OpenOk(s) && OpenOk(t) && AlikeStates(s, t)
    ensures AlikeStates(UserTurn(s, e), UserTurn(t, e))
  {
    FollowUpsAgree(s.messages, t.messages, e.data.followUpId.GetOr(""));
    FinishAlike(s, t);
    var again := Redelivered(s, e);
    if again.Some? {
      assert Alike(s.messages[again.value], t.messages[again.value]);
    }
  }

  lemma MarkEachAlike(ms: seq<MessageView>, ns: seq<MessageView>)
    requires AlikeLists(ms, ns)
    ensures AlikeLists(MarkEach(ms), MarkEach(ns))
  {
    forall k | 0 <= k < |ms|
      ensures Alike(MarkEach(ms)[k], MarkEach(ns)[k])
    {
      assert Alike(ms[k], ns[k]);
    }
  }

  lemma KeepOrFinishAlike(a: TranscriptView, b: TranscriptView, e: RunEvent)
    requires OpenOk(a) && OpenOk(b) && AlikeStates(a, b)
    ensures AlikeStates(KeepOrFinish(a), KeepOrFinish(b))
  {
    hide FinishAssistant;
    SearchesAgree(a.messages, b.messages, e);
    FinishAlike(a, b);
    var open := OpenOrLastTurn(a);
    if open.Some? {
      var m, n := a.messages[open.value], b.messages[open.value];
      assert Alike(m, n);
      EditAlike(a, b, open.value, m.(streaming := true), n.(streaming := true));
    }
  }

  lemma AgentEndedAlike(s: TranscriptView, t: TranscriptView, e: RunEvent)
    requires OpenOk(s) && OpenOk(t) && AlikeStates(s, t)
    ensures AlikeStates(AgentEnded(s), AgentEnded(t))
  {
    MarkEachAlike(s.messages, t.messages);
    KeepOrFinishAlike(s.(messages := MarkEach(s.messages)), t.(messages := MarkEach(t.messages)), e);
  }

  lemma NestedAlike(s: TranscriptView, t: TranscriptView, e: RunEvent)
    requires OpenOk(s) && OpenOk(t) && AlikeStates(s, t)
    ensures AlikeStates(NestedToolEvent(s, e), NestedToolEvent(t, e))
  {
    hide UpsertNestedStep, BubbleWithSubagent, LastSubagentTool;
    SearchesAgree(s.messages, t.messages, e);
    var running, any := BubbleWithSubagent(s.messages, true), BubbleWithSubagent(s.messages, false);
    if running.Some? || any.Some? {
      var i := if running.Some? then running.value else any.value;
      assert Alike(s.messages[i], t.messages[i]);
    }
  }

  lemma ToolEventAlike(s: TranscriptView, t: TranscriptView, e: RunEvent)
    requires OpenOk(s) && OpenOk(t) && AlikeStates(s, t)
    ensures AlikeStates(ToolEvent(s, e), ToolEvent(t, e))
  {
    SearchesAgree(s.messages, t.messages, e);
    EnsureAlike(s, t, e, e);
    var found := BubbleWithTool(s.messages, e);
    var a := if found.Some? then s.(open := found) else EnsureAssistant(s, e);
    var b := if found.Some? then t.(open := found) else EnsureAssistant(t, e);
    var i := a.open.value;
    assert Alike(a.messages[i], b.messages[i]);
    EditAlike(a, b, i, Touch(UpsertTool(a.messages[i], e), e.createdAt), Touch(UpsertTool(b.messages[i], e), e.createdAt));
  }

  lemma TextStepAlike(s: TranscriptView, t: TranscriptView, e: RunEvent)
    requires OpenOk(s) && OpenOk(t) && AlikeStates(s, t) && (e.kind.MessageStart? || e.kind.MessageDelta?)
    ensures AlikeStates(Apply(s, e), Apply(t, e))
  {
    EnsureAlike(s, t, e, e);
    var a, b := EnsureAssistant(s, e), EnsureAssistant(t, e);
    assert Alike(a.messages[a.open.value], b.messages[b.open.value]);
  }

  lemma TouchAlike(s: TranscriptView, t: TranscriptView, i: nat, streaming: bool, at: Timestamp)
    requires AlikeStates(s, t) && i < |s.messages|
    ensures AlikeStates(Edit(s, i, Touch(s.messages[i].(streaming := streaming), at)),
                        Edit(t, i, Touch(t.messages[i].(streaming := streaming), at)))
  {
    assert Alike(s.messages[i], t.messages[i]);
  }

  lemma AgentStartedAlike(s: TranscriptView, t: TranscriptView, e: RunEvent)
    requires OpenOk(s) && OpenOk(t) && AlikeStates(s, t)
    ensures AlikeStates(AgentStarted(s, e), AgentStarted(t, e))
  {
    SearchesAgree(s.messages, t.messages, e);
    var open := OpenOrLastTurn(s);
    if open.Some? {
      TouchAlike(s, t, open.value, true, e.createdAt);
    }
  }

  lemma ToolStepAlike(s: TranscriptView, t: TranscriptView, e: RunEvent)
    requires OpenOk(s) && OpenOk(t) && AlikeStates(s, t)
    ensures AlikeStates(ToolStep(s, e), ToolStep(t, e))
  {
    if e.Nested() {
      NestedAlike(s, t, e);
    } else {
      ToolEventAlike(s, t, e);
    }
  }

  lemma RunFailedAlike(s: TranscriptView, t: TranscriptView, e: RunEvent)
    requires AlikeStates(s, t)
    ensures AlikeStates(RunFailed(s, e), RunFailed(t, e))
  {
    SettleAlike(s, t, e.createdAt);
    var a, b := SettleAll(s, e.createdAt).messages, SettleAll(t, e.createdAt).messages;
    if a != [] {
      assert Alike(a[|a| - 1], b[|b| - 1]);
    }
  }

  lemma ApplyAlike(s: TranscriptView, t: TranscriptView, e: RunEvent)
    requires OpenOk(s) && OpenOk(t) && AlikeStates(s, t)
    ensures AlikeStates(Apply(s, e), Apply(t, e))
  {
    match e.kind
    case UserMessage => UserTurnAlike(s, t, e);
    case FollowupQueued => UserTurnAlike(s, t, e);
    case AgentStart => AgentStartedAlike(s, t, e);
    case MessageStart => TextStepAlike(s, t, e);
    case MessageDelta => TextStepAlike(s, t, e);
    case MessageEnd => if s.open.Some? { TouchAlike(s, t, s.open.value, false, e.createdAt); }
    case AgentEnd => AgentEndedAlike(s, t, e);
    case RunIdle => SettleAlike(s, t, e.createdAt);
    case ToolStart => ToolStepAlike(s, t, e);
    case ToolUpdate => ToolStepAlike(s, t, e);
    case ToolEnd => ToolStepAlike(s, t, e);
    case RunError => RunFailedAlike(s, t, e);
    case SetupKind(_) =>
    case TurnRewind =>
    case OtherKind(_) =>
  }

  lemma {:induction false} RunAlike(s: TranscriptView, t: TranscriptView, es: seq<RunEvent>)
    requires OpenOk(s) && OpenOk(t) && AlikeStates(s, t)
    ensures AlikeStates(Run(s, es), Run(t, es))
    decreases |es|
  {
    if es != [] {
      ApplyAlike(s, t, es[0]);
      RunAlike(Apply(s, es[0]), Apply(t, es[0]), es[1..]);
    }
  }

  // ---- two deltas or one ----

  lemma AppendTextTwice(m: MessageView, a: string, b: string)
    ensures AppendText(AppendText(m, a), b) == AppendText(m, a + b)
  {
    if a == "" {
      assert a + b == b;
    } else if b == "" {
      assert a + b == a;
    } else {
      assert m.text + a + b == m.text + (a + b);
      var n := |m.blocks|;
      if n > 0 && m.blocks[n - 1].TextBlock? {
        assert m.blocks[n - 1].text + a + b == m.blocks[n - 1].text + (a + b);
      }
    }
  }

  /** A bubble is there for the next delta. */
  predicate HasBubble(s: TranscriptView)
    requires OpenOk(s)
  {
    OpenOrLastTurn(s).Some?
  }

  lemma DeltaOnOpen(s: TranscriptView, e: RunEvent)
    requires OpenOk(s) && s.open.Some? && e.kind.MessageDelta?
    ensures var i := s.open.value;
      Apply(s, e) == Edit(s, i, Touch(AppendText(s.messages[i], e.Delta()), e.createdAt))
  {
  }

  lemma TwoDeltasOnOpen(t: TranscriptView, first: RunEvent, second: RunEvent)
    requires OpenOk(t) && t.open.Some? && first.kind.MessageDelta? && second.kind.MessageDelta?
    ensures Apply(Apply(t, first), second) == Apply(t, MergeDelta(first, second))
  {
    var i := t.open.value;
    var m := t.messages[i];
    DeltaOnOpen(t, first);
    DeltaOnOpen(Apply(t, first), second);
    DeltaOnOpen(t, MergeDelta(first, second));
    AppendTextTwice(m, first.Delta(), second.Delta());
    var one := Touch(AppendText(m, first.Delta()), first.createdAt);
    assert Touch(AppendText(one, second.Delta()), second.createdAt)
        == Touch(AppendText(m, first.Delta() + second.Delta()), second.createdAt);
  }

  /** Before a delta writes, its bubble is open. */
  lemma DeltaOpensFirst(s: TranscriptView, e: RunEvent)
    requires OpenOk(s) && e.kind.MessageDelta?
    ensures Apply(s, e) == Apply(EnsureAssistant(s, e), e)
  {
  }

  lemma TwoDeltasOrOne(s: TranscriptView, first: RunEvent, second: RunEvent)
    requires OpenOk(s) && first.kind.MessageDelta? && second.kind.MessageDelta?
    ensures AlikeStates(Apply(Apply(s, first), second), Apply(s, MergeDelta(first, second)))
    ensures HasBubble(s) ==> Apply(Apply(s, first), second) == Apply(s, MergeDelta(first, second))
  {
    var merged := MergeDelta(first, second);
    var a, b := EnsureAssistant(s, first), EnsureAssistant(s, merged);
    DeltaOpensFirst(s, first);
    DeltaOpensFirst(s, merged);
    TwoDeltasOnOpen(a, first, second);
    if HasBubble(s) {
      assert a == b;
    } else {
      DeltaOnOpen(a, merged);
      DeltaOnOpen(b, merged);
    }
  }

  // ---- the coalesced list ----

  lemma CoalesceStep(s: TranscriptView, list: seq<RunEvent>, e: RunEvent)
    requires OpenOk(s)
    ensures AlikeStates(Run(s, Coalesce(list, e)), Apply(Run(s, list), e))
    ensures DeltasHaveBubble(s, list) ==> Run(s, Coalesce(list, e)) == Apply(Run(s, list), e)
  {
    var n := |list|;
    if e.kind.MessageDelta? && n > 0 && list[n - 1].kind.MessageDelta? {
      var front, last := list[..n - 1], list[n - 1];
      assert list == front + [last] && Coalesce(list, e) == front + [MergeDelta(last, e)];
      RunPush(s, front, last);
      RunPush(s, front, MergeDelta(last, e));
      TwoDeltasOrOne(Run(s, front), last, e);
      DeltasConcat(s, front, [last]);
    } else {
      RunPush(s, list, e);
    }
  }

  /** Running the coalesced list shows the same replies, texts, blocks and tools as running the raw stream. */
  lemma {:induction false} CoalescingPreserves(s: TranscriptView, list: seq<RunEvent>, es: seq<RunEvent>)
    requires OpenOk(s)
    ensures AlikeStates(Run(s, CoalesceAll(list, es)), Run(s, list + es))
    decreases |es|
  {
    if es == [] {
      assert list + es == list;
    } else {
      var e, rest := es[0], es[1..];
      assert list + es == list + [e] + rest;
      CoalescingPreserves(s, Coalesce(list, e), rest);
      CoalesceStep(s, list, e);
      RunConcat(s, Coalesce(list, e), rest);
      RunConcat(s, list + [e], rest);
      RunPush(s, list, e);
      RunAlike(Run(s, Coalesce(list, e)), Run(s, list + [e]), rest);
    }
  }

  /** No delta of the stream has to open a bubble of its own. */
  predicate DeltasHaveBubble(s: TranscriptView, es: seq<RunEvent>)
    requires OpenOk(s)
    decreases |es|
  {
    es == [] || ((es[0].kind.MessageDelta? ==> HasBubble(s)) && DeltasHaveBubble(Apply(s, es[0]), es[1..]))
  }

  lemma {:induction false} DeltasConcat(s: TranscriptView, a: seq<RunEvent>, b: seq<RunEvent>)
    requires OpenOk(s)
    ensures DeltasHaveBubble(s, a + b) <==> DeltasHaveBubble(s, a) && DeltasHaveBubble(Run(s, a), b)
    decreases |a|
  {
    if a == [] {
      assert a + b == b;
    } else {
      assert (a + b)[1..] == a[1..] + b;
      DeltasConcat(Apply(s, a[0]), a[1..], b);
    }
  }

  lemma OneHasBubble(s: TranscriptView, e: RunEvent)
    requires OpenOk(s)
    ensures DeltasHaveBubble(s, [e]) <==> (e.kind.MessageDelta? ==> HasBubble(s))
  {
  }

  lemma CoalesceStillHasBubble(s: TranscriptView, list: seq<RunEvent>, e: RunEvent)
    requires OpenOk(s) && DeltasHaveBubble(s, list + [e])
    ensures DeltasHaveBubble(s, Coalesce(list, e))
  {
    hide DeltasHaveBubble, Run, HasBubble;
    var n := |list|;
    DeltasConcat(s, list, [e]);
    if e.kind.MessageDelta? && n > 0 && list[n - 1].kind.MessageDelta? {
      var front, last := list[..n - 1], list[n - 1];
      assert list == front + [last] && Coalesce(list, e) == front + [MergeDelta(last, e)];
      DeltasConcat(s, front, [last]);
      DeltasConcat(s, front, [MergeDelta(last, e)]);
      OneHasBubble(Run(s, front), last);
      OneHasBubble(Run(s, front), MergeDelta(last, e));
    }
  }

  /** Then nothing differs at all, ids and creation times included. */
  lemma {:induction false} CoalescingIsExact(s: TranscriptView, list: seq<RunEvent>, es: seq<RunEvent>)
    requires OpenOk(s) && DeltasHaveBubble(s, list + es)
    ensures Run(s, CoalesceAll(list, es)) == Run(s, list + es)
    decreases |es|
  {
    hide Run, DeltasHaveBubble, Coalesce;
    if es == [] {
      assert list + es == list;
    } else {
      var e, rest := es[0], es[1..];
      assert list + es == list + [e] + rest;
      DeltasConcat(s, list + [e], rest);
      DeltasConcat(s, list, [e]);
      CoalesceStillHasBubble(s, list, e);
      CoalesceStep(s, list, e);
      RunPush(s, list, e);
      DeltasConcat(s, Coalesce(list, e), rest);
      CoalescingIsExact(s, Coalesce(list, e), rest);
      RunConcat(s, Coalesce(list, e), rest);
      RunConcat(s, list + [e], rest);
    }
  }
}
