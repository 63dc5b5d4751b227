/** When reply text lands in the newest turn (packages/contracts/src/transcript.ts). */
module NewestTurn {
  import opened Prelude
  import opened Events
  import opened Reducer
  import opened TranscriptSafety

  /** No user message stands behind message `i`. */
  predicate InNewestTurn(ms: seq<MessageView>, i: nat) {
    i < |ms| && forall k | i < k < |ms| :: !ms[k].role.User?
  }

  /** The cursor is unset or on a bubble of the newest turn. */
  predicate Current(s: TranscriptView) {
    s.open.Some? ==> InNewestTurn(s.messages, s.open.value)
  }

  /** The bubble a tool event is about, if one is there. */
  function Matched(s: TranscriptView, e: RunEvent): Option<nat> {
    if !ToolKind(e) then None
    else if !e.Nested() then BubbleWithTool(s.messages, e)
    else BubbleWithSubagent(s.messages, true).Or(BubbleWithSubagent(s.messages, false))
  }

  /** A tool event whose bubble has a user message behind it. */
  predicate ReopensOldTurn(s: TranscriptView, e: RunEvent) {
    Matched(s, e).Some? && !InNewestTurn(s.messages, Matched(s, e).value)
  }

  predicate SameRoles(ms: seq<MessageView>, ns: seq<MessageView>) {
    |ms| == |ns| && forall k | 0 <= k < |ms| :: ns[k].role == ms[k].role
  }

  lemma SameRolesSameTurn(ms: seq<MessageView>, ns: seq<MessageView>, i: nat)
    requires SameRoles(ms, ns)
    ensures InNewestTurn(ms, i) <==> InNewestTurn(ns, i)
  {
  }

  /** A bubble that is opened for a reply is one of the newest turn, unless another was open already. */
  lemma EnsureIsCurrent(s: TranscriptView, e: RunEvent)
    requires OpenOk(s)
    ensures var t := EnsureAssistant(s, e); InNewestTurn(t.messages, t.open.value) <==> Current(s)
  {
    hide LastTurnAssistant;
    if s.open.None? {
      var t := EnsureAssistant(s, e);
      var last := LastTurnAssistant(s.messages);
      if last.Some? {
        assert SameRoles(s.messages, t.messages);
      }
    }
  }

  /** Reply text lands in the newest turn exactly if the cursor was unset or there before. */
  lemma DeltaLandsIff(s: TranscriptView, e: RunEvent)
    requires OpenOk(s) && e.kind.MessageDelta?
    ensures var t := Apply(s, e);
      t.open.Some? && (InNewestTurn(t.messages, t.open.value) <==> Current(s))
  {
    hide EnsureAssistant, AppendText;
    var t := EnsureAssistant(s, e);
    EnsureIsCurrent(s, e);
    assert SameRoles(t.messages, Apply(s, e).messages);
    SameRolesSameTurn(t.messages, Apply(s, e).messages, t.open.value);
  }

  lemma ToolEventCurrent(s: TranscriptView, e: RunEvent)
    requires OpenOk(s) && Current(s)
    ensures Current(ToolEvent(s, e))
      <==> (BubbleWithTool(s.messages, e).Some? ==> InNewestTurn(s.messages, BubbleWithTool(s.messages, e).value))
  {
    hide BubbleWithTool, EnsureAssistant, UpsertTool;
    EnsureIsCurrent(s, e);
    var t := ToolTarget(s, e);
    assert SameRoles(t.messages, ToolEvent(s, e).messages);
    SameRolesSameTurn(t.messages, ToolEvent(s, e).messages, t.open.value);
  }

  lemma NestedCurrent(s: TranscriptView, e: RunEvent)
    requires OpenOk(s) && Current(s)
    ensures var found := BubbleWithSubagent(s.messages, true).Or(BubbleWithSubagent(s.messages, false));
      Current(NestedToolEvent(s, e)) <==> (found.Some? ==> InNewestTurn(s.messages, found.value))
  {
    hide BubbleWithSubagent, LastSubagentTool, UpsertNestedStep;
    var found := BubbleWithSubagent(s.messages, true).Or(BubbleWithSubagent(s.messages, false));
    if found.Some? {
      assert SameRoles(s.messages, NestedToolEvent(s, e).messages);
      SameRolesSameTurn(s.messages, NestedToolEvent(s, e).messages, found.value);
    }
  }

  lemma UserTurnCurrent(s: TranscriptView, e: RunEvent)
    requires OpenOk(s) && Current(s)
    ensures Current(UserTurn(s, e))
  {
    hide FinishAssistant, Redelivered;
    var again := Redelivered(s, e);
    if again.Some? && s.open.Some? {
      assert SameRoles(s.messages, UserTurn(s, e).messages);
      SameRolesSameTurn(s.messages, UserTurn(s, e).messages, s.open.value);
    }
  }

  /** Waiting for the reply of this turn leaves the cursor in it. */
  lemma StartedCurrent(s: TranscriptView, e: RunEvent)
    requires OpenOk(s) && Current(s)
    ensures Current(AgentStarted(s, e))
  {
    hide LastTurnAssistant;
    var open := OpenOrLastTurn(s);
    if open.Some? {
      assert InNewestTurn(s.messages, open.value);
      assert SameRoles(s.messages, AgentStarted(s, e).messages);
    }
  }

  lemma EndedCurrent(s: TranscriptView)
    requires OpenOk(s) && Current(s)
    ensures Current(AgentEnded(s))
  {
    hide LastTurnAssistant, FinishAssistant, HasContent;
    var marked := s.(messages := MarkEach(s.messages));
    assert SameRoles(s.messages, marked.messages);
    var open := OpenOrLastTurn(marked);
    if open.Some? && HasContent(marked.messages[open.value]) {
      assert InNewestTurn(marked.messages, open.value);
      assert SameRoles(marked.messages, AgentEnded(s).messages);
    }
  }

  lemma QuietCurrent(s: TranscriptView, e: RunEvent)
    requires OpenOk(s) && Current(s) && !ToolKind(e)
    requires e.kind.MessageEnd? || e.kind.RunIdle? || e.kind.RunError? || e.kind.SetupKind? || e.kind.MessageStart?
    ensures Current(Apply(s, e))
  {
    hide EnsureAssistant, KeepContent;
    if e.kind.MessageStart? {
      EnsureIsCurrent(s, e);
      assert SameRoles(EnsureAssistant(s, e).messages, Apply(s, e).messages);
    }
  }

  /** The cursor leaves the newest turn exactly at a tool event of an old one. */
  lemma CurrentStep(s: TranscriptView, e: RunEvent)
    requires OpenOk(s) && Current(s)
    ensures Current(Apply(s, e)) <==> !ReopensOldTurn(s, e)
  {
    hide Current, UserTurn, AgentStarted, AgentEnded, ToolEvent, NestedToolEvent, SettleAll, RunFailed;
    match e.kind
    case UserMessage => UserTurnCurrent(s, e);
    case FollowupQueued => UserTurnCurrent(s, e);
    case AgentStart => StartedCurrent(s, e);
    case AgentEnd => EndedCurrent(s);
    case MessageDelta => DeltaKeeps(s, e);
    case ToolStart => ToolCurrent(s, e);
    case ToolUpdate => ToolCurrent(s, e);
    case ToolEnd => ToolCurrent(s, e);
    case TurnRewind =>
    case OtherKind(_) =>
    case _ => QuietCurrent(s, e);
  }

  lemma DeltaKeeps(s: TranscriptView, e: RunEvent)
    requires OpenOk(s) && Current(s) && e.kind.MessageDelta?
    ensures Current(Apply(s, e))
  {
    hide Apply;
    DeltaLandsIff(s, e);
  }

  lemma ToolCurrent(s: TranscriptView, e: RunEvent)
    requires OpenOk(s) && Current(s) && ToolKind(e)
    ensures Current(ToolStep(s, e)) <==> !ReopensOldTurn(s, e)
  {
    hide Current, ToolEvent, NestedToolEvent;
    if e.Nested() {
      NestedCurrent(s, e);
    } else {
      ToolEventCurrent(s, e);
    }
  }

  // ---- over whole runs ----

  /** The cursor is in the newest turn before the run and after each of its events. */
  predicate AlwaysCurrent(s: TranscriptView, es: seq<RunEvent>)
    requires OpenOk(s)
    decreases |es|
  {
    Current(s) && (es != [] ==> AlwaysCurrent(Apply(s, es[0]), es[1..]))
  }

  /** No event of the run is about a tool of an old turn. */
  predicate NeverReopens(s: TranscriptView, es: seq<RunEvent>)
    requires OpenOk(s)
    decreases |es|
  {
    es != [] ==> !ReopensOldTurn(s, es[0]) && NeverReopens(Apply(s, es[0]), es[1..])
  }

  /** Each delta of the run writes to a bubble of the newest turn. */
  predicate DeltasLandNewest(s: TranscriptView, es: seq<RunEvent>)
    requires OpenOk(s)
    decreases |es|
  {
    es != [] ==>
      var t := Apply(s, es[0]);
      && (es[0].kind.MessageDelta? ==> t.open.Some? && InNewestTurn(t.messages, t.open.value))
      && DeltasLandNewest(t, es[1..])
  }

  /** A run stays in the newest turn exactly if none of its events is about a tool of an old one. */
  lemma {:induction false} CurrentThroughout(s: TranscriptView, es: seq<RunEvent>)
    requires OpenOk(s) && Current(s)
    ensures AlwaysCurrent(s, es) <==> NeverReopens(s, es)
    decreases |es|
  {
    hide Current, ReopensOldTurn, Apply;
    if es != [] {
      CurrentStep(s, es[0]);
      if Current(Apply(s, es[0])) {
        CurrentThroughout(Apply(s, es[0]), es[1..]);
      }
    }
  }

  /** The cursor is in the newest turn at each delta of the run. */
  predicate CurrentAtDeltas(s: TranscriptView, es: seq<RunEvent>)
    requires OpenOk(s)
    decreases |es|
  {
    es != [] ==> (es[0].kind.MessageDelta? ==> Current(s)) && CurrentAtDeltas(Apply(s, es[0]), es[1..])
  }

  /** All reply text of a run lands in the newest turn exactly if the cursor is there at each delta. */
  lemma {:induction false} DeltasLandIff(s: TranscriptView, es: seq<RunEvent>)
    requires OpenOk(s)
    ensures DeltasLandNewest(s, es) <==> CurrentAtDeltas(s, es)
    decreases |es|
  {
    hide Current, InNewestTurn, Apply;
    if es != [] {
      if es[0].kind.MessageDelta? {
        DeltaLandsIff(s, es[0]);
      }
      DeltasLandIff(Apply(s, es[0]), es[1..]);
    }
  }

  /** So it does in every log without an event about a tool of an old turn. */
  lemma {:induction false} DeltasLandUnlessReopened(s: TranscriptView, es: seq<RunEvent>)
    requires OpenOk(s) && Current(s) && NeverReopens(s, es)
    ensures DeltasLandNewest(s, es)
    decreases |es|
  {
    hide Current, InNewestTurn, Apply, ReopensOldTurn;
    if es != [] {
      CurrentStep(s, es[0]);
      if es[0].kind.MessageDelta? {
        DeltaLandsIff(s, es[0]);
      }
      DeltasLandUnlessReopened(Apply(s, es[0]), es[1..]);
    }
  }

  /** From the first event of a log on. */
  lemma LogStaysInNewestTurn(es: seq<RunEvent>)
    ensures AlwaysCurrent(EMPTY, es) <==> NeverReopens(EMPTY, es)
    ensures DeltasLandNewest(EMPTY, es) <==> CurrentAtDeltas(EMPTY, es)
    ensures NeverReopens(EMPTY, es) ==> DeltasLandNewest(EMPTY, es)
  {
    assert Current(EMPTY);
    DeltasLandIff(EMPTY, es);
    CurrentThroughout(EMPTY, es);
    if NeverReopens(EMPTY, es) {
      DeltasLandUnlessReopened(EMPTY, es);
    }
  }
}
