/** What the record of one call shows over a whole run (upsertTool in packages/contracts/src/transcript.ts). */
module CallShows {
  import opened Prelude
  import opened Events
  import opened Reducer
  import opened TurnSteps
  import opened TranscriptInvariants
  import opened TranscriptSafety
  import opened EventEffects
  import opened ToolEffects
  import opened NestedEffects
  import opened ToolRecords

  datatype Shown = Shown(name: string, args: Option<Args>, output: Option<string>)

  predicate EventOf(e: RunEvent, key: string) {
    (e.kind.ToolStart? || e.kind.ToolUpdate? || e.kind.ToolEnd?) && !e.Nested() && KeyIs(e, key)
  }

  /** The last name, arguments and output that the events of a call bring. */
  function Brought(es: seq<RunEvent>, key: string): Shown {
    if es == [] then Shown("", None, None)
    else
      var n := |es| - 1;
      var before := Brought(es[..n], key);
      if EventOf(es[n], key) then Newer(before, es[n]) else before
  }

  function Newer(before: Shown, e: RunEvent): Shown {
    Shown(e.data.toolName.GetOr("tool"), if e.data.args.Some? then e.data.args else before.args,
          if e.data.output.Some? then e.data.output else before.output)
  }

  predicate ShowsAs(tool: ToolView, shown: Shown) {
    tool.name == shown.name && tool.args == shown.args && tool.output == shown.output
  }

  /** Every record of the call shows this. */
  predicate AllShow(ms: seq<MessageView>, key: string, shown: Shown) {
    forall i | 0 <= i < |ms| :: ToolsShow(ms[i].tools, key, shown)
  }

  predicate ToolsShow(tools: seq<ToolView>, key: string, shown: Shown) {
    forall k | 0 <= k < |tools| && tools[k].id == key :: ShowsAs(tools[k], shown)
  }

  /** The same tools, whatever became of their status and their steps. */
  predicate SameTools(tools: seq<ToolView>, after: seq<ToolView>) {
    |after| == |tools| && forall k | 0 <= k < |tools| :: after[k] == tools[k].(status := after[k].status, details := after[k].details)
  }

  lemma SameShow(tools: seq<ToolView>, after: seq<ToolView>, key: string, shown: Shown)
    requires SameTools(tools, after) && ToolsShow(tools, key, shown)
    ensures ToolsShow(after, key, shown)
  {
    forall k | 0 <= k < |after| && after[k].id == key
      ensures ShowsAs(after[k], shown)
    {
      assert tools[k].id == key;
    }
  }

  /** A message that is there had the same tools before, or has none. */
  predicate Inherits(ms: seq<MessageView>, m: MessageView) {
    m.tools == [] || exists j :: 0 <= j < |ms| && SameTools(ms[j].tools, m.tools)
  }

  lemma InheritedShow(ms: seq<MessageView>, ns: seq<MessageView>, key: string, shown: Shown)
    requires AllShow(ms, key, shown) && forall i | 0 <= i < |ns| :: Inherits(ms, ns[i])
    ensures AllShow(ns, key, shown)
  {
    forall i | 0 <= i < |ns|
      ensures ToolsShow(ns[i].tools, key, shown)
    {
      if ns[i].tools != [] {
        var j :| 0 <= j < |ms| && SameTools(ms[j].tools, ns[i].tools);
        SameShow(ms[j].tools, ns[i].tools, key, shown);
      }
    }
  }

  lemma InheritsFrom(ms: seq<MessageView>, j: nat, m: MessageView)
    requires j < |ms| && |m.tools| == |ms[j].tools|
    requires forall k | 0 <= k < |m.tools| :: m.tools[k] == ms[j].tools[k].(status := m.tools[k].status)
    ensures Inherits(ms, m)
  {
    assert SameTools(ms[j].tools, m.tools);
  }

  lemma InheritsItself(ms: seq<MessageView>, j: nat)
    requires j < |ms|
    ensures Inherits(ms, ms[j])
  {
    InheritsFrom(ms, j, ms[j]);
  }

  // ---- events that are not the call's ----

  lemma SettledInherit(ms: seq<MessageView>, at: Timestamp, after: seq<MessageView>, from: seq<nat>)
    requires StaysInOrder(ms, at, after, from)
    ensures forall i | 0 <= i < |after| :: Inherits(ms, after[i])
  {
    forall i | 0 <= i < |after|
      ensures Inherits(ms, after[i])
    {
      SettledTools(ms[from[i]], at, after[i]);
      InheritsFrom(ms, from[i], after[i]);
    }
  }

  lemma SettledTools(m: MessageView, at: Timestamp, after: MessageView)
    requires SettledAs(m, at, after)
    ensures |after.tools| == |m.tools| && forall k | 0 <= k < |m.tools| :: after.tools[k] == m.tools[k].(status := after.tools[k].status)
  {
  }

  lemma GoesToInherit(s: TranscriptView, e: RunEvent, t: TranscriptView, at: nat, before: MessageView)
    requires GoesTo(s, e, t, at, before) && t.messages[at].tools == before.tools
    ensures forall i | 0 <= i < |t.messages| :: Inherits(s.messages, t.messages[i])
  {
    forall i | 0 <= i < |t.messages|
      ensures Inherits(s.messages, t.messages[i])
    {
      if i < |s.messages| {
        assert t.messages[i].tools == s.messages[i].tools by {
          if NoneAtWork(s) {
            assert t.messages[..at][i] == s.messages[i];
          }
        }
        InheritsFrom(s.messages, i, t.messages[i]);
      }
    }
  }

  lemma OverInherit(ms: seq<MessageView>, j: nat, m: MessageView, after: MessageView)
    requires j < |ms| && ms[j].tools == m.tools && ToolsOver(m, after)
    ensures Inherits(ms, after)
  {
    InheritsFrom(ms, j, after);
  }

  lemma AgentEndInherit(s: TranscriptView, e: RunEvent)
    requires OpenOk(s) && e.kind.AgentEnd?
    ensures forall i | 0 <= i < |Apply(s, e).messages| :: Inherits(s.messages, Apply(s, e).messages[i])
  {
    hide Apply, ToolsOver, Inherits, Shows;
    AgentEnds(s, e);
    var ms, t := s.messages, Apply(s, e);
    forall i | 0 <= i < |t.messages|
      ensures Inherits(ms, t.messages[i])
    {
      if NoneAtWork(s) {
        OverInherit(ms, i, ms[i], t.messages[i]);
      } else {
        var at: nat :| at < |ms| && AtWork(s, at);
        if Shows(ms[at]) {
          OverInherit(ms, i, if i == at then ms[i].(streaming := true) else ms[i], t.messages[i]);
        } else {
          var left := if s.open.Some? then ms[..at] + ms[at + 1..] else ms;
          var j := if s.open.Some? && i >= at then i + 1 else i;
          assert left[i] == ms[j];
          OverInherit(ms, j, ms[j], t.messages[i]);
        }
      }
    }
  }

  lemma UserTurnInherit(s: TranscriptView, e: RunEvent)
    requires OpenOk(s) && IsUserTurn(e)
    ensures forall i | 0 <= i < |Apply(s, e).messages| :: Inherits(s.messages, Apply(s, e).messages[i])
  {
    hide Apply, Inherits, Shows, CameBefore, IsUserTurn;
    var ms, t := s.messages, Apply(s, e);
    if i: nat :| i < |ms| && CameBefore(ms, e, i) {
      UserMessageAgain(s, e, i);
      forall k | 0 <= k < |t.messages|
        ensures Inherits(ms, t.messages[k])
      {
        InheritsFrom(ms, k, t.messages[k]);
      }
    } else {
      UserMessageIsShown(s, e);
      var n := |t.messages| - 1;
      forall k | 0 <= k < |t.messages|
        ensures Inherits(ms, t.messages[k])
      {
        if k < n {
          OverReplyInherits(s, t.messages[..n], k);
        } else {
          NoToolsInherits(ms, t.messages[k]);
        }
      }
    }
  }

  lemma NoToolsInherits(ms: seq<MessageView>, m: MessageView)
    requires m.tools == []
    ensures Inherits(ms, m)
  {
  }

  lemma OverReplyInherits(s: TranscriptView, after: seq<MessageView>, k: nat)
    requires OpenOk(s) && ReplyOver(s, after) && k < |after|
    ensures Inherits(s.messages, after[k])
  {
    hide Inherits;
    var ms := s.messages;
    var gone := s.open.Some? && !Shows(ms[s.open.value]);
    var j := if gone && k >= s.open.value then k + 1 else k;
    InheritsFrom(ms, j, after[k]);
  }

  /** An event without a tool of its own leaves what records show. */
  lemma QuietInherit(s: TranscriptView, e: RunEvent)
    requires OpenOk(s) && !ToolKind(e)
    ensures forall i | 0 <= i < |Apply(s, e).messages| :: Inherits(s.messages, Apply(s, e).messages[i])
  {
    hide Apply, Inherits, StaysInOrder, IsUserTurn, GoesTo, TellsOfFailure;
    var ms, t := s.messages, Apply(s, e);
    forall j | 0 <= j < |ms|
      ensures Inherits(ms, ms[j])
    {
      InheritsItself(ms, j);
    }
    match e.kind {
      case AgentStart =>
        AgentStarts(s, e);
        AllInherit(s, t);
      case AgentEnd => AgentEndInherit(s, e);
      case MessageStart =>
        var at, before := MessageStarts(s, e);
        GoesToInherit(s, e, t, at, before);
      case MessageDelta =>
        var at, before := DeltaShows(s, e);
        GoesToInherit(s, e, t, at, before);
      case MessageEnd =>
        MessageEnds(s, e);
        AllInherit(s, t);
      case RunIdle =>
        var from := RunIdles(s, e);
        SettledInherit(ms, e.createdAt, t.messages, from);
      case RunError =>
        var from := RunFails(s, e);
        SettledInherit(ms, e.createdAt, t.messages[..|from|], from);
        forall i | 0 <= i < |t.messages|
          ensures Inherits(ms, t.messages[i])
        {
          if i < |from| {
            assert t.messages[..|from|][i] == t.messages[i];
          } else {
            NoToolsInherits(ms, t.messages[i]);
          }
        }
      case SetupKind(_) =>
        SetupShows(s, e);
        forall i | 0 <= i < |t.messages|
          ensures Inherits(ms, t.messages[i])
        {
          if i < |ms| {
            assert t.messages[..|ms|][i] == ms[i];
          } else {
            NoToolsInherits(ms, t.messages[i]);
          }
        }
      case _ =>
        if IsUserTurn(e) {
          UserTurnInherit(s, e);
        } else {
          PassedOver(s, e);
        }
    }
  }

  lemma PassedOver(s: TranscriptView, e: RunEvent)
    requires OpenOk(s) && !IsUserTurn(e)
    requires e.kind.UserMessage? || e.kind.FollowupQueued? || e.kind.TurnRewind? || e.kind.OtherKind?
    ensures Apply(s, e) == s
  {
    NothingShows(s, e);
  }

  lemma AllInherit(s: TranscriptView, t: TranscriptView)
    requires |t.messages| == |s.messages| && forall i | 0 <= i < |s.messages| :: t.messages[i].tools == s.messages[i].tools
    ensures forall i | 0 <= i < |t.messages| :: Inherits(s.messages, t.messages[i])
  {
    forall i | 0 <= i < |t.messages|
      ensures Inherits(s.messages, t.messages[i])
    {
      InheritsFrom(s.messages, i, t.messages[i]);
    }
  }

  lemma NestedInherit(s: TranscriptView, e: RunEvent)
    requires OpenOk(s) && ToolKind(e) && e.Nested()
    ensures forall i | 0 <= i < |Apply(s, e).messages| :: Inherits(s.messages, Apply(s, e).messages[i])
  {
    hide Apply, Inherits, IsParent, NoSubagentIn, StepRecorded;
    var ms, t := s.messages, Apply(s, e);
    if NoSubagentIn(ms, false) {
      NestedEventPassed(s, e);
      AllInherit(s, t);
    } else {
      ParentOrNone(ms);
      var i: nat, k: nat :| IsParent(ms, i, k);
      ParentInRange(ms, i, k);
      var all, from := NestedEventRecords(s, e, i, k);
      RecordedKeeps(ms[i].tools[k], e, all, from, t.messages[i].tools[k]);
      forall j | 0 <= j < |t.messages|
        ensures Inherits(ms, t.messages[j])
      {
        if j == i {
          NestedTools(ms, t.messages[i], i, k);
        } else {
          InheritsItself(ms, j);
        }
      }
    }
  }

  lemma ParentInRange(ms: seq<MessageView>, i: nat, k: nat)
    requires IsParent(ms, i, k)
    ensures i < |ms| && k < |ms[i].tools|
  {
  }

  lemma RecordedKeeps(before: ToolView, e: RunEvent, all: seq<Step>, from: seq<nat>, after: ToolView)
    requires StepRecorded(before, e, all, from, after)
    ensures after == before.(details := after.details)
  {
  }

  lemma NestedTools(ms: seq<MessageView>, m: MessageView, i: nat, k: nat)
    requires i < |ms| && k < |ms[i].tools| == |m.tools| && m.tools == ms[i].tools[k := m.tools[k]]
    requires m.tools[k] == ms[i].tools[k].(details := m.tools[k].details)
    ensures Inherits(ms, m)
  {
    assert SameTools(ms[i].tools, m.tools);
  }

  // ---- events of calls ----

  lemma {:induction false} CountsOnce(ms: seq<MessageView>, key: string, i: nat, k: nat)
    requires i < |ms| && k < |ms[i].tools| && ms[i].tools[k].id == key
    ensures key in RecordIds(ms)
  {
    RecordsContain(ms, i);
    assert Ids(ms[i].tools)[k] == key;
    assert key in multiset(Ids(ms[i].tools));
  }

  lemma TwiceIn(ids: seq<string>, j: nat, k: nat)
    requires j < k < |ids| && ids[j] == ids[k]
    ensures multiset(ids)[ids[k]] >= 2
  {
    assert ids == ids[..k] + [ids[k]] + ids[k + 1..];
    assert ids[..k][j] == ids[k];
    assert ids[k] in multiset(ids[..k]);
  }

  /** With one record of a call there is no second place that has it. */
  lemma {:induction false} OnlyPlace(ms: seq<MessageView>, key: string, i: nat, k: nat, j: nat, l: nat)
    requires RecordIds(ms)[key] <= 1
    requires i < |ms| && k < |ms[i].tools| && ms[i].tools[k].id == key
    requires j < |ms| && l < |ms[j].tools| && ms[j].tools[l].id == key
    ensures i == j && k == l
  {
    var n := |ms| - 1;
    if i == j {
      RecordsContain(ms, i);
      var ids := Ids(ms[i].tools);
      assert ids[k] == key && ids[l] == key;
      if k < l {
        TwiceIn(ids, k, l);
      } else if l < k {
        TwiceIn(ids, l, k);
      }
    } else if i == n || j == n {
      var first, at := if i == n then j else i, if i == n then l else k;
      assert Ids(ms[n].tools)[if i == n then k else l] == key;
      assert key in multiset(Ids(ms[n].tools));
      CountsOnce(ms[..n], key, first, at);
    } else {
      OnlyPlace(ms[..n], key, i, k, j, l);
    }
  }

  /** The event has nothing to do with a takeover of the call or by it. */
  predicate Apart(s: TranscriptView, e: RunEvent, key: string) {
    !(TakesOver(s, e) && (e.ToolKey() == key || TakenOver(s, e) == key))
  }

  /** What one event does to what the call's record shows. */
  lemma EventShows(s: TranscriptView, e: RunEvent, key: string, shown: Shown)
    requires Inv(s) && Apart(s, e, key) && RecordIds(s.messages)[key] <= 1 && AllShow(s.messages, key, shown)
    requires key !in RecordIds(s.messages) ==> shown == Shown("", None, None)
    ensures AllShow(Apply(s, e).messages, key, if EventOf(e, key) then Newer(shown, e) else shown)
    ensures RecordIds(Apply(s, e).messages)[key] == if EventOf(e, key) then 1 else RecordIds(s.messages)[key]
  {
    hide Inv, AllShow, Apply, TakesOver, TakenOver, RecordIds, OpensTool, ToolKind, Inherits;
    InvOpen(s);
    KeyIsKey(e, key);
    if !ToolKind(e) {
      QuietInherit(s, e);
      InheritedShow(s.messages, Apply(s, e).messages, key, shown);
      QuietRecords(s, e);
      NoToolOfIts(e, key);
    } else if e.Nested() {
      NestedInherit(s, e);
      InheritedShow(s.messages, Apply(s, e).messages, key, shown);
      StepRecords(s, e);
      NoTakeover(s, e);
    } else {
      CountAfter(s, e, key);
      ItsToolKind(e, key);
      CallEventShows(s, e, key, shown);
    }
  }

  lemma KeyIsKey(e: RunEvent, key: string)
    ensures KeyIs(e, key) <==> e.ToolKey() == key
  {
  }

  lemma NoToolOfIts(e: RunEvent, key: string)
    requires !ToolKind(e)
    ensures !EventOf(e, key)
  {
  }

  lemma ItsToolKind(e: RunEvent, key: string)
    requires ToolKind(e) && !e.Nested()
    ensures EventOf(e, key) <==> e.ToolKey() == key
  {
  }

  lemma NoTakeover(s: TranscriptView, e: RunEvent)
    requires e.Nested()
    ensures !TakesOver(s, e) && !OpensTool(s, e)
  {
  }

  lemma CountAfter(s: TranscriptView, e: RunEvent, key: string)
    requires OpenOk(s) && ToolKind(e) && !e.Nested() && Apart(s, e, key) && RecordIds(s.messages)[key] <= 1
    requires Inv(s)
    ensures RecordIds(Apply(s, e).messages)[key] == if e.ToolKey() == key then 1 else RecordIds(s.messages)[key]
  {
    hide Inv, Apply, TakesOver, TakenOver, RecordIds, OpensTool, ToolKind;
    StepRecords(s, e);
    if e.ToolKey() == key && OpensTool(s, e) {
      NewKey(s, e);
    }
  }

  /** A call that opens a record has none. */
  lemma NewKey(s: TranscriptView, e: RunEvent)
    requires Inv(s) && OpensTool(s, e)
    ensures e.ToolKey() !in RecordIds(s.messages)
  {
    NoneHasKey(s.messages, e);
  }

  lemma {:induction false} NoneHasKey(ms: seq<MessageView>, e: RunEvent)
    requires (forall k | 0 <= k < |ms| :: Shape(ms[k])) && BubbleWithTool(ms, e).None?
    ensures e.ToolKey() !in RecordIds(ms)
  {
    hide Slots, BlockText, TextBlocksOk, DistinctToolIds;
    if ms != [] {
      var n := |ms| - 1;
      assert forall k | 0 <= k < n :: !MatchesTool(ms[..n][k], e);
      NoneHasKey(ms[..n], e);
      assert Shape(ms[n]) && !MatchesTool(ms[n], e);
      assert forall k | 0 <= k < |ms[n].tools| :: Ids(ms[n].tools)[k] != e.ToolKey();
    }
  }

  lemma CallEventShows(s: TranscriptView, e: RunEvent, key: string, shown: Shown)
    requires Inv(s) && ToolKind(e) && !e.Nested() && Apart(s, e, key)
    requires RecordIds(s.messages)[key] <= 1 && AllShow(s.messages, key, shown)
    requires key !in RecordIds(s.messages) ==> shown == Shown("", None, None)
    ensures AllShow(Apply(s, e).messages, key, if e.ToolKey() == key then Newer(shown, e) else shown)
  {
    hide Apply, Meant, NoneMeant, MatchTool, TakesOver, GoesTo, Extended, Rewritten, ListOk;
    MeantOrNone(s.messages, e);
    var found := BubbleWithTool(s.messages, e);
    if found.Some? {
      var i := found.value;
      var k := MatchTool(s.messages[i].tools, e).value;
      ToolEventRewrites(s, e, i, k);
      RewrittenShow(s, e, i, k, key, shown);
    } else {
      var at, before := ToolEventAdds(s, e);
      AddedShow(s, e, at, before, key, shown);
    }
  }

  lemma RewrittenShow(s: TranscriptView, e: RunEvent, i: nat, k: nat, key: string, shown: Shown)
    requires OpenOk(s) && ToolKind(e) && !e.Nested() && Apart(s, e, key)
    requires BubbleWithTool(s.messages, e) == Some(i) && MatchTool(s.messages[i].tools, e) == Some(k)
    requires RecordIds(s.messages)[key] <= 1 && AllShow(s.messages, key, shown)
    requires OnlyAt(s.messages, Apply(s, e).messages, i)
    requires Rewritten(s.messages[i], e, k, Apply(s, e).messages[i])
    ensures AllShow(Apply(s, e).messages, key, if e.ToolKey() == key then Newer(shown, e) else shown)
  {
    hide Apply, BubbleWithTool, RecordIds, DetailsMerged;
    var ms, ns := s.messages, Apply(s, e).messages;
    var now := if e.ToolKey() == key then Newer(shown, e) else shown;
    TakesOverWhat(s, e, i, k);
    KeyIsKey(e, ns[i].tools[k].id);
    forall j | 0 <= j < |ns|
      ensures ToolsShow(ns[j].tools, key, now)
    {
      forall l | 0 <= l < |ns[j].tools| && ns[j].tools[l].id == key
        ensures ShowsAs(ns[j].tools[l], now)
      {
        assert ToolsShow(ms[j].tools, key, shown);
        if j == i && l == k {
          assert ms[i].tools[k].id == key;
          assert ShowsAs(ms[i].tools[k], shown);
        } else {
          assert ns[j].tools[l] == ms[j].tools[l];
          if e.ToolKey() == key {
            OnlyPlace(ms, key, i, k, j, l);
          }
        }
      }
    }
  }

  /** Without a takeover the record met is the call's own. */
  lemma TakesOverWhat(s: TranscriptView, e: RunEvent, i: nat, k: nat)
    requires ToolKind(e) && !e.Nested()
    requires BubbleWithTool(s.messages, e) == Some(i) && MatchTool(s.messages[i].tools, e) == Some(k)
    ensures !TakesOver(s, e) ==> s.messages[i].tools[k].id == e.ToolKey()
    ensures TakesOver(s, e) ==> TakenOver(s, e) == s.messages[i].tools[k].id
  {
  }

  /** A tool of the transcript that is not the one just added was there before, in its place. */
  lemma WasThere(s: TranscriptView, e: RunEvent, t: TranscriptView, at: nat, before: MessageView, j: nat, l: nat)
    requires GoesTo(s, e, t, at, before) && Extended(before, e, t.messages[at])
    requires j < |t.messages| && l < |t.messages[j].tools| && !(j == at && l == |before.tools|)
    ensures j < |s.messages| && l < |s.messages[j].tools| && t.messages[j].tools[l] == s.messages[j].tools[l]
  {
    hide Written, IsBlank, AtWork, NoneAtWork;
    assert j < at ==> NoneAtWork(s) ==> t.messages[j] == t.messages[..at][j];
  }

  lemma AddedIs(before: MessageView, e: RunEvent, after: MessageView)
    requires Extended(before, e, after)
    ensures |after.tools| == |before.tools| + 1
    ensures KeyIs(e, after.tools[|before.tools|].id) && ShowsAs(after.tools[|before.tools|], Newer(Shown("", None, None), e))
  {
    hide DetailsMerged;
  }

  lemma AddedShow(s: TranscriptView, e: RunEvent, at: nat, before: MessageView, key: string, shown: Shown)
    requires Inv(s) && ToolKind(e) && !e.Nested() && AllShow(s.messages, key, shown)
    requires BubbleWithTool(s.messages, e).None?
    requires key !in RecordIds(s.messages) ==> shown == Shown("", None, None)
    requires GoesTo(s, e, Apply(s, e), at, before) && Extended(before, e, Apply(s, e).messages[at])
    ensures AllShow(Apply(s, e).messages, key, if e.ToolKey() == key then Newer(shown, e) else shown)
  {
    hide Apply, GoesTo, Extended, RecordIds, BubbleWithTool, Inv, KeyIs;
    InvOpen(s);
    var ms, t := s.messages, Apply(s, e);
    var now := if e.ToolKey() == key then Newer(shown, e) else shown;
    NewKey(s, e);
    AddedAt(s, e, t, at, before);
    AddedIs(before, e, t.messages[at]);
    KeyIsKey(e, t.messages[at].tools[|before.tools|].id);
    forall j | 0 <= j < |t.messages|
      ensures ToolsShow(t.messages[j].tools, key, now)
    {
      forall l | 0 <= l < |t.messages[j].tools| && t.messages[j].tools[l].id == key
        ensures ShowsAs(t.messages[j].tools[l], now)
      {
        if !(j == at && l == |before.tools|) {
          WasThere(s, e, t, at, before, j, l);
          CountsOnce(ms, key, j, l);
          assert ToolsShow(ms[j].tools, key, shown);
        }
      }
    }
  }

  lemma AddedAt(s: TranscriptView, e: RunEvent, t: TranscriptView, at: nat, before: MessageView)
    requires GoesTo(s, e, t, at, before)
    ensures at < |t.messages|
  {
  }

  // ---- over a whole run ----

  /** Nothing in the run takes the call's record over, and its events take none over. */
  predicate NeverTaken(s: TranscriptView, es: seq<RunEvent>, key: string)
    requires OpenOk(s)
    decreases |es|
  {
    es != [] ==> Apart(s, es[0], key) && NeverTaken(Apply(s, es[0]), es[1..], key)
  }

  lemma {:induction false} NeverTakenPush(s: TranscriptView, es: seq<RunEvent>, e: RunEvent, key: string)
    requires OpenOk(s) && NeverTaken(s, es + [e], key)
    ensures NeverTaken(s, es, key) && Apart(Run(s, es), e, key)
    decreases |es|
  {
    hide Apart, Apply;
    if es == [] {
      assert (es + [e])[0] == e;
    } else {
      assert (es + [e])[0] == es[0] && (es + [e])[1..] == es[1..] + [e];
      NeverTakenPush(Apply(s, es[0]), es[1..], e, key);
    }
  }

  predicate AnyOf(es: seq<RunEvent>, key: string) {
    exists i :: 0 <= i < |es| && EventOf(es[i], key)
  }

  lemma {:induction false} BroughtNothing(es: seq<RunEvent>, key: string)
    requires !AnyOf(es, key)
    ensures Brought(es, key) == Shown("", None, None)
  {
    hide EventOf;
    if es != [] {
      assert !EventOf(es[|es| - 1], key);
      BroughtNothing(es[..|es| - 1], key);
    }
  }

  /** A call that is never taken over has one record once an event of it came, and that shows the last name, arguments
      and output its events brought. */
  lemma {:induction false} CallShowsLast(s: TranscriptView, es: seq<RunEvent>, key: string)
    requires Inv(s) && key !in RecordIds(s.messages) && NeverTaken(s, es, key)
    ensures Inv(Run(s, es))
    ensures RecordIds(Run(s, es).messages)[key] == if AnyOf(es, key) then 1 else 0
    ensures AllShow(Run(s, es).messages, key, Brought(es, key))
    decreases |es|
  {
    hide Inv, Run, Apply, RecordIds, AllShow, NeverTaken, EventOf, Apart;
    RunGains(s, es);
    InvOpen(s);
    if es == [] {
      NothingRun(s, key);
    } else {
      var n := |es| - 1;
      var front, e := es[..n], es[n];
      assert es == front + [e];
      NeverTakenPush(s, front, e, key);
      CallShowsLast(s, front, key);
      RunPush(s, front, e);
      if !AnyOf(front, key) {
        BroughtNothing(front, key);
      }
      EventShows(Run(s, front), e, key, Brought(front, key));
      assert AnyOf(es, key) <==> AnyOf(front, key) || EventOf(e, key) by {
        if AnyOf(front, key) {
          var i :| 0 <= i < n && EventOf(front[i], key);
          assert EventOf(es[i], key);
        }
        if EventOf(e, key) {
          assert EventOf(es[n], key);
        }
        if AnyOf(es, key) {
          var i :| 0 <= i < |es| && EventOf(es[i], key);
          assert i < n ==> EventOf(front[i], key);
        }
      }
    }
  }

  lemma NothingRun(s: TranscriptView, key: string)
    requires OpenOk(s) && key !in RecordIds(s.messages)
    ensures Run(s, []) == s && AllShow(s.messages, key, Brought([], key))
  {
    hide RecordIds;
    forall i | 0 <= i < |s.messages|
      ensures ToolsShow(s.messages[i].tools, key, Brought([], key))
    {
      forall k | 0 <= k < |s.messages[i].tools|
        ensures s.messages[i].tools[k].id != key
      {
        if s.messages[i].tools[k].id == key {
          CountsOnce(s.messages, key, i, k);
        }
      }
    }
  }
}
