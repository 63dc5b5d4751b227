/**
 Which calls have a tool record under their own id (toolKey, upsertTool and assistantForTool in
 packages/contracts/src/transcript.ts). A record that still runs is taken over by the next call of its name.
 */
module ToolRecords {
  import opened Prelude
  import opened Events
  import opened Reducer
  import opened TranscriptSafety

  function Ids(tools: seq<ToolView>): (r: seq<string>)
    ensures |r| == |tools| && forall k | 0 <= k < |r| :: r[k] == tools[k].id
  {
    seq(|tools|, k requires 0 <= k < |tools| => tools[k].id)
  }

  /** The ids of all tool records of a transcript. */
  function RecordIds(ms: seq<MessageView>): multiset<string> {
    if ms == [] then multiset{} else RecordIds(ms[..|ms| - 1]) + multiset(Ids(ms[|ms| - 1].tools))
  }

  // ---- how they add up ----

  lemma RecordsPush(ms: seq<MessageView>, m: MessageView)
    ensures RecordIds(ms + [m]) == RecordIds(ms) + multiset(Ids(m.tools))
  {
    assert (ms + [m])[..|ms|] == ms;
  }

  lemma NoTools(m: MessageView)
    requires m.tools == []
    ensures multiset(Ids(m.tools)) == multiset{}
  {
    assert Ids(m.tools) == [];
  }

  lemma {:induction false} RecordsEdit(ms: seq<MessageView>, i: nat, m: MessageView)
    requires i < |ms|
    ensures RecordIds(ms[i := m]) + multiset(Ids(ms[i].tools)) == RecordIds(ms) + multiset(Ids(m.tools))
  {
    hide RecordIds;
    var n := |ms| - 1;
    var front, last := ms[..n], ms[n];
    assert ms == front + [last];
    RecordsPush(front, last);
    if i < n {
      RecordsEdit(front, i, m);
      assert ms[i := m] == front[i := m] + [last];
      RecordsPush(front[i := m], last);
      AddBoth(RecordIds(front[i := m]), RecordIds(front), multiset(Ids(ms[i].tools)), multiset(Ids(m.tools)),
              multiset(Ids(last.tools)));
    } else {
      assert ms[i := m] == front + [m];
      RecordsPush(front, m);
    }
  }

  lemma AddBoth(a: multiset<string>, b: multiset<string>, c: multiset<string>, d: multiset<string>, more: multiset<string>)
    requires a + c == b + d
    ensures a + more + c == b + more + d
  {
    assert a + more + c == a + c + more;
    assert b + more + d == b + d + more;
  }

  lemma SameIds(ms: seq<MessageView>, i: nat, m: MessageView)
    requires i < |ms| && Ids(m.tools) == Ids(ms[i].tools)
    ensures RecordIds(ms[i := m]) == RecordIds(ms)
  {
    RecordsEdit(ms, i, m);
    Cancel(RecordIds(ms[i := m]), RecordIds(ms), multiset(Ids(m.tools)));
  }

  lemma Cancel(a: multiset<string>, b: multiset<string>, c: multiset<string>)
    requires a + c == b + c
    ensures a == b
  {
    assert a == a + c - c;
    assert b == b + c - c;
  }

  lemma {:induction false} RecordsWithout(ms: seq<MessageView>, i: nat)
    requires i < |ms| && ms[i].tools == []
    ensures RecordIds(Without(ms, i)) == RecordIds(ms)
  {
    var n := |ms| - 1;
    assert ms == ms[..n] + [ms[n]];
    RecordsPush(ms[..n], ms[n]);
    if i < n {
      RecordsWithout(ms[..n], i);
      assert Without(ms, i) == Without(ms[..n], i) + [ms[n]];
      RecordsPush(Without(ms[..n], i), ms[n]);
    } else {
      NoTools(ms[n]);
      assert Without(ms, i) == ms[..n];
    }
  }

  lemma {:induction false} RecordsPointwise(ms: seq<MessageView>, ns: seq<MessageView>)
    requires |ms| == |ns| && forall k | 0 <= k < |ms| :: Ids(ns[k].tools) == Ids(ms[k].tools)
    ensures RecordIds(ns) == RecordIds(ms)
  {
    if ms != [] {
      RecordsPointwise(ms[..|ms| - 1], ns[..|ns| - 1]);
    }
  }

  lemma {:induction false} RecordsKeepContent(ms: seq<MessageView>)
    ensures RecordIds(KeepContent(ms)) == RecordIds(ms)
  {
    if ms != [] {
      var n := |ms| - 1;
      RecordsKeepContent(ms[..n]);
      if ms[n].role.Assistant? && !HasContent(ms[n]) {
        NoTools(ms[n]);
        assert KeepContent(ms) == KeepContent(ms[..n]);
      } else {
        RecordsPush(KeepContent(ms[..n]), ms[n]);
      }
    }
  }

  // ---- events without a tool ----

  lemma FinishedIds(tools: seq<ToolView>)
    ensures Ids(FinishTools(tools)) == Ids(tools)
  {
  }

  lemma FinishRecords(s: TranscriptView)
    requires OpenOk(s)
    ensures RecordIds(FinishAssistant(s).messages) == RecordIds(s.messages)
  {
    if s.open.Some? {
      var i := s.open.value;
      FinishedIds(s.messages[i].tools);
      SameIds(s.messages, i, Closed(s.messages[i]));
      if !HasContent(Closed(s.messages[i])) {
        RecordsWithout(s.messages, i);
      }
    }
  }

  lemma EnsureRecords(s: TranscriptView, e: RunEvent)
    requires OpenOk(s)
    ensures RecordIds(EnsureAssistant(s, e).messages) == RecordIds(s.messages)
  {
    var last := LastTurnAssistant(s.messages);
    if s.open.None? && last.Some? {
      SameIds(s.messages, last.value, s.messages[last.value].(streaming := true));
    } else if s.open.None? {
      NoTools(NewAssistant(e));
      RecordsPush(s.messages, NewAssistant(e));
    }
  }

  lemma UserTurnRecords(s: TranscriptView, e: RunEvent)
    requires OpenOk(s)
    ensures RecordIds(UserTurn(s, e).messages) == RecordIds(s.messages)
  {
    hide FinishAssistant;
    var again := Redelivered(s, e);
    if again.Some? {
      SameIds(s.messages, again.value, Redeliver(s.messages[again.value], e));
    } else {
      FinishRecords(s);
      NoTools(NewUser(e));
      RecordsPush(FinishAssistant(s).messages, NewUser(e));
    }
  }

  lemma SettleRecords(s: TranscriptView, at: Timestamp)
    ensures RecordIds(SettleAll(s, at).messages) == RecordIds(s.messages)
  {
    var each := SettleEach(s.messages, at);
    forall k | 0 <= k < |each|
      ensures Ids(each[k].tools) == Ids(s.messages[k].tools)
    {
      FinishedIds(s.messages[k].tools);
    }
    RecordsPointwise(s.messages, each);
    RecordsKeepContent(each);
  }

  lemma SetupRecords(s: TranscriptView, e: RunEvent)
    ensures RecordIds(Push(s, SetupMessage(e)).messages) == RecordIds(s.messages)
  {
    NoTools(SetupMessage(e));
    RecordsPush(s.messages, SetupMessage(e));
  }

  lemma AgentEndedRecords(s: TranscriptView)
    requires OpenOk(s)
    ensures RecordIds(AgentEnded(s).messages) == RecordIds(s.messages)
  {
    hide FinishAssistant;
    var marked := s.(messages := MarkEach(s.messages));
    forall k | 0 <= k < |s.messages|
      ensures Ids(marked.messages[k].tools) == Ids(s.messages[k].tools)
    {
      FinishedIds(s.messages[k].tools);
    }
    RecordsPointwise(s.messages, marked.messages);
    FinishRecords(marked);
    var open := OpenOrLastTurn(marked);
    if open.Some? {
      SameIds(marked.messages, open.value, marked.messages[open.value].(streaming := true));
    }
  }

  lemma NestedRecords(s: TranscriptView, e: RunEvent)
    requires OpenOk(s)
    ensures RecordIds(NestedToolEvent(s, e).messages) == RecordIds(s.messages)
  {
    hide UpsertNestedStep;
    var running, any := BubbleWithSubagent(s.messages, true), BubbleWithSubagent(s.messages, false);
    if running.Some? || any.Some? {
      var i := if running.Some? then running.value else any.value;
      var m := s.messages[i];
      var k := LastSubagentTool(m.tools, running.Some?).value;
      NestedKeepsId(m.tools[k], e);
      var after := Touch(m.(tools := m.tools[k := UpsertNestedStep(m.tools[k], e)]), e.createdAt);
      assert Ids(after.tools) == Ids(m.tools);
      SameIds(s.messages, i, after);
    }
  }

  lemma TextEditRecords(s: TranscriptView, i: nat, m: MessageView)
    requires i < |s.messages| && m.tools == s.messages[i].tools
    ensures RecordIds(Edit(s, i, m).messages) == RecordIds(s.messages)
  {
    SameIds(s.messages, i, m);
  }

  lemma TextRecords(s: TranscriptView, e: RunEvent)
    requires OpenOk(s) && (e.kind.MessageStart? || e.kind.MessageDelta? || e.kind.MessageEnd?)
    ensures RecordIds(Apply(s, e).messages) == RecordIds(s.messages)
  {
    hide EnsureAssistant, AppendTextBlock, RecordIds;
    if e.kind.MessageEnd? {
      if s.open.Some? {
        var i := s.open.value;
        TextEditRecords(s, i, Touch(s.messages[i].(streaming := false), e.createdAt));
      }
    } else {
      EnsureRecords(s, e);
      var t := EnsureAssistant(s, e);
      var i := t.open.value;
      var m := t.messages[i];
      TextEditRecords(t, i, Touch(m.(streaming := true), e.createdAt));
      TextEditRecords(t, i, Touch(AppendText(m, e.Delta()), e.createdAt));
    }
  }

  lemma QuietRecords(s: TranscriptView, e: RunEvent)
    requires OpenOk(s) && !ToolKind(e)
    ensures RecordIds(Apply(s, e).messages) == RecordIds(s.messages)
  {
    hide RecordIds, UserTurn, SettleAll, AgentEnded, EnsureAssistant, AppendText, LastTurnAssistant;
    match e.kind
    case UserMessage => UserTurnRecords(s, e);
    case FollowupQueued => UserTurnRecords(s, e);
    case AgentStart =>
      var open := OpenOrLastTurn(s);
      if open.Some? {
        SameIds(s.messages, open.value, Touch(s.messages[open.value].(streaming := true), e.createdAt));
      }
    case AgentEnd => AgentEndedRecords(s);
    case RunIdle => SettleRecords(s, e.createdAt);
    case RunError =>
      SettleRecords(s, e.createdAt);
      SetupRecords(SettleAll(s, e.createdAt), e);
    case SetupKind(_) => SetupRecords(s, e);
    case TurnRewind =>
    case OtherKind(_) =>
    case _ => TextRecords(s, e);
  }

  // ---- tool events ----

  /** The event is of a call without a record where its name is found running: that record becomes the call's. */
  predicate TakesOver(s: TranscriptView, e: RunEvent) {
    && ToolKind(e) && !e.Nested()
    && var i := BubbleWithTool(s.messages, e);
       i.Some? && ToolById(s.messages[i.value].tools, e.ToolKey()).None?
  }

  /** The call whose record it was. */
  function TakenOver(s: TranscriptView, e: RunEvent): (id: string)
    requires TakesOver(s, e)
    ensures id != e.ToolKey()
  {
    var tools := s.messages[BubbleWithTool(s.messages, e).value].tools;
    tools[RunningByName(tools, e.ToolName()).value].id
  }

  lemma UpdatedIds(ids: seq<string>, k: nat, id: string)
    requires k < |ids|
    ensures multiset(ids[k := id]) == multiset(ids) - multiset{ids[k]} + multiset{id}
  {
  }

  lemma RefreshedIds(m: MessageView, e: RunEvent)
    ensures var found := MatchTool(m.tools, e);
      var after := multiset(Ids(UpsertTool(m, e).tools));
      && (found.None? ==> after == multiset(Ids(m.tools)) + multiset{e.ToolKey()})
      && (found.Some? ==> after == multiset(Ids(m.tools)) - multiset{m.tools[found.value].id} + multiset{e.ToolKey()})
  {
    hide Refresh;
    var found := MatchTool(m.tools, e);
    if found.Some? {
      var k := found.value;
      RefreshedId(m.tools[k], e);
      assert Ids(UpsertTool(m, e).tools) == Ids(m.tools)[k := e.ToolKey()];
      UpdatedIds(Ids(m.tools), k, e.ToolKey());
    } else {
      RefreshedId(NewTool(e), e);
      assert Ids(UpsertTool(m, e).tools) == Ids(m.tools) + [e.ToolKey()];
    }
  }

  lemma RefreshedId(tool: ToolView, e: RunEvent)
    ensures Refresh(tool, e).id == e.ToolKey()
  {
  }

  /** A tool event adds the call's own id unless its bubble has it, and only a takeover removes another. */
  lemma ToolEventRecords(s: TranscriptView, e: RunEvent)
    requires OpenOk(s) && ToolKind(e) && !e.Nested()
    ensures var before, after := RecordIds(s.messages), RecordIds(ToolEvent(s, e).messages);
      if TakesOver(s, e) then after == before - multiset{TakenOver(s, e)} + multiset{e.ToolKey()}
      else if OpensTool(s, e) then after == before + multiset{e.ToolKey()}
      else after == before
    ensures e.ToolKey() in RecordIds(ToolEvent(s, e).messages)
    ensures TakesOver(s, e) ==> TakenOver(s, e) in RecordIds(s.messages)
  {
    hide RecordIds, UpsertTool, EnsureAssistant;
    var t := ToolTarget(s, e);
    var i := t.open.value;
    TargetMatches(s, e);
    EnsureRecords(s, e);
    UpsertRecords(t.messages, i, e);
  }

  lemma UpsertRecords(ms: seq<MessageView>, i: nat, e: RunEvent)
    requires i < |ms|
    ensures var m := ms[i];
      var found := MatchTool(m.tools, e);
      var before, after := RecordIds(ms), RecordIds(ms[i := Touch(UpsertTool(m, e), e.createdAt)]);
      && (found.None? ==> after == before + multiset{e.ToolKey()})
      && (found.Some? ==> after == before - multiset{m.tools[found.value].id} + multiset{e.ToolKey()})
      && (found.Some? ==> m.tools[found.value].id in before)
  {
    hide RecordIds, UpsertTool;
    var m := ms[i];
    var found := MatchTool(m.tools, e);
    var before, after := RecordIds(ms), RecordIds(ms[i := Touch(UpsertTool(m, e), e.createdAt)]);
    var had := multiset(Ids(m.tools));
    RefreshedIds(m, e);
    RecordsEdit(ms, i, Touch(UpsertTool(m, e), e.createdAt));
    if found.Some? {
      var id := m.tools[found.value].id;
      RecordsContain(ms, i);
      assert Ids(m.tools)[found.value] == id;
      assert id in had;
      Exchange(after, before, had, id, e.ToolKey());
    } else {
      AddOne(after, before, had, e.ToolKey());
    }
  }

  lemma AddOne(after: multiset<string>, before: multiset<string>, had: multiset<string>, key: string)
    requires after + had == before + (had + multiset{key})
    ensures after == before + multiset{key}
  {
    assert after + had == before + multiset{key} + had;
    Cancel(after, before + multiset{key}, had);
  }

  lemma Exchange(after: multiset<string>, before: multiset<string>, had: multiset<string>, id: string, key: string)
    requires after + had == before + (had - multiset{id} + multiset{key}) && id in had && had <= before
    ensures after == before - multiset{id} + multiset{key}
  {
    assert had == had - multiset{id} + multiset{id};
    assert before == before - multiset{id} + multiset{id};
    assert after + had == before - multiset{id} + multiset{key} + had;
    Cancel(after, before - multiset{id} + multiset{key}, had);
  }

  lemma {:induction false} RecordsContain(ms: seq<MessageView>, i: nat)
    requires i < |ms|
    ensures multiset(Ids(ms[i].tools)) <= RecordIds(ms)
  {
    if i < |ms| - 1 {
      RecordsContain(ms[..|ms| - 1], i);
    }
  }

  /** The bubble a tool event goes to holds its tool exactly if any bubble does. */
  lemma TargetMatches(s: TranscriptView, e: RunEvent)
    requires OpenOk(s)
    ensures var t := ToolTarget(s, e);
      var found := BubbleWithTool(s.messages, e);
      && (found.Some? ==> t == s.(open := found))
      && (found.None? ==> t == EnsureAssistant(s, e) && MatchTool(t.messages[t.open.value].tools, e).None?)
  {
    hide BubbleWithTool;
  }

  lemma StepRecords(s: TranscriptView, e: RunEvent)
    requires OpenOk(s)
    ensures var before, after := RecordIds(s.messages), RecordIds(Apply(s, e).messages);
      if TakesOver(s, e) then after == before - multiset{TakenOver(s, e)} + multiset{e.ToolKey()}
      else if OpensTool(s, e) then after == before + multiset{e.ToolKey()}
      else after == before
    ensures TakesOver(s, e) ==> TakenOver(s, e) in RecordIds(s.messages)
    ensures ToolKind(e) && !e.Nested() ==> e.ToolKey() in RecordIds(Apply(s, e).messages)
  {
    hide RecordIds, ToolEvent, NestedToolEvent, BubbleWithTool, TakenOver;
    if !ToolKind(e) {
      QuietRecords(s, e);
    } else if e.Nested() {
      NestedRecords(s, e);
    } else {
      ToolEventRecords(s, e);
    }
  }

  // ---- losing a record ----

  /** The last record of another call is taken over. */
  predicate LosesRecord(s: TranscriptView, e: RunEvent) {
    TakesOver(s, e) && RecordIds(s.messages)[TakenOver(s, e)] == 1
  }

  predicate KeepsRecords(ms: seq<MessageView>, ns: seq<MessageView>) {
    forall id | id in RecordIds(ms) :: id in RecordIds(ns)
  }

  /** Each call on record stays on record under its own id exactly if none is taken over. */
  lemma StepKeepsRecordsIff(s: TranscriptView, e: RunEvent)
    requires OpenOk(s)
    ensures KeepsRecords(s.messages, Apply(s, e).messages) <==> !LosesRecord(s, e)
  {
    hide RecordIds, Apply, TakesOver, TakenOver, OpensTool;
    StepRecords(s, e);
    var before, after := RecordIds(s.messages), RecordIds(Apply(s, e).messages);
    if TakesOver(s, e) {
      var id := TakenOver(s, e);
      assert after[id] == before[id] - 1;
    }
  }

  predicate AlwaysKeepsRecords(s: TranscriptView, es: seq<RunEvent>)
    requires OpenOk(s)
    decreases |es|
  {
    es != [] ==> KeepsRecords(s.messages, Apply(s, es[0]).messages) && AlwaysKeepsRecords(Apply(s, es[0]), es[1..])
  }

  predicate NeverLosesRecord(s: TranscriptView, es: seq<RunEvent>)
    requires OpenOk(s)
    decreases |es|
  {
    es != [] ==> !LosesRecord(s, es[0]) && NeverLosesRecord(Apply(s, es[0]), es[1..])
  }

  /** Throughout a run each call that got a record keeps one under its own id exactly if no other call takes it over. */
  lemma {:induction false} RecordsKeptIff(s: TranscriptView, es: seq<RunEvent>)
    requires OpenOk(s)
    ensures AlwaysKeepsRecords(s, es) <==> NeverLosesRecord(s, es)
    decreases |es|
  {
    hide KeepsRecords, LosesRecord, Apply;
    if es != [] {
      StepKeepsRecordsIff(s, es[0]);
      RecordsKeptIff(Apply(s, es[0]), es[1..]);
    }
  }

  /** Then every call that was started is on record at the end. */
  lemma {:induction false} StartedCallsOnRecord(s: TranscriptView, es: seq<RunEvent>, i: nat)
    requires OpenOk(s) && NeverLosesRecord(s, es) && i < |es| && ToolKind(es[i]) && !es[i].Nested()
    ensures es[i].ToolKey() in RecordIds(Run(s, es).messages)
    decreases |es|
  {
    hide KeepsRecords, LosesRecord, Apply, RecordIds, ToolKind;
    var t := Apply(s, es[0]);
    if i > 0 {
      StartedCallsOnRecord(t, es[1..], i - 1);
    } else {
      StepRecords(s, es[0]);
      OnRecordStays(t, es[1..], es[0].ToolKey());
    }
  }

  lemma {:induction false} OnRecordStays(s: TranscriptView, es: seq<RunEvent>, id: string)
    requires OpenOk(s) && NeverLosesRecord(s, es) && id in RecordIds(s.messages)
    ensures id in RecordIds(Run(s, es).messages)
    decreases |es|
  {
    hide LosesRecord, Apply, RecordIds;
    if es != [] {
      StepKeepsRecordsIff(s, es[0]);
      OnRecordStays(Apply(s, es[0]), es[1..], id);
    }
  }

  /** Two calls of one tool that start before either ends leave one record, under the second call's id. */
  lemma SecondStartTakesOver(first: RunEvent, second: RunEvent)
    requires first.kind.ToolStart? && second.kind.ToolStart? && !first.Nested() && !second.Nested()
    requires first.ToolName() == second.ToolName() && first.ToolKey() != second.ToolKey()
    ensures RecordIds(Run(EMPTY, [first, second]).messages) == multiset{second.ToolKey()}
    ensures LosesRecord(Apply(EMPTY, first), second)
  {
    hide RecordIds;
    var one := Apply(EMPTY, first);
    OneRecord(first);
    StepRecords(one, second);
    RunPush(EMPTY, [first], second);
    RunOne(EMPTY, first);
    assert [first] + [second] == [first, second];
  }

  lemma OneRecord(first: RunEvent)
    requires first.kind.ToolStart? && !first.Nested()
    ensures var one := Apply(EMPTY, first);
      && |one.messages| == 1 && one.messages[0].role.Assistant? && |one.messages[0].tools| == 1
      && one.messages[0].tools[0].id == first.ToolKey() && one.messages[0].tools[0].name == first.ToolName()
      && one.messages[0].tools[0].status.Running?
      && RecordIds(one.messages) == multiset{first.ToolKey()}
  {
    hide Refresh, RecordIds, Apply;
    var one := Apply(EMPTY, first);
    FirstStart(first);
    StartedRecord(first);
    assert one.messages[0].tools == [Refresh(NewTool(first), first)];
    assert Ids(one.messages[0].tools) == [first.ToolKey()];
    RecordsPush([], one.messages[0]);
    NoRecords();
    assert [] + [one.messages[0]] == one.messages;
  }

  lemma FirstStart(e: RunEvent)
    requires e.kind.ToolStart? && !e.Nested()
    ensures Apply(EMPTY, e) == TranscriptView([Touch(UpsertTool(NewAssistant(e), e), e.createdAt)], Some(0))
  {
    hide UpsertTool;
  }

  lemma StartedRecord(e: RunEvent)
    requires e.kind.ToolStart?
    ensures var tool := Refresh(NewTool(e), e);
      tool.id == e.ToolKey() && tool.name == e.ToolName() && tool.status.Running?
  {
  }

  lemma NoRecords()
    ensures RecordIds([]) == multiset{}
  {
  }
}
