/**
 What each kind of event makes of a transcript, said without the steps that make it (applyEventToState in
 packages/contracts/src/transcript.ts). Tool events are in ToolEffects.dfy and NestedEffects.dfy, user messages and
 settling in TurnSteps.dfy.
 */
module EventEffects {
  import opened Prelude
  import opened Events
  import opened Reducer
  import opened TurnSteps

  // ---- which bubble is at work ----

  /** Message `i` is the bubble new work goes to: the open one, or with none open the newest bubble that only setup
      cards follow. */
  predicate AtWork(s: TranscriptView, i: nat) {
    if s.open.Some? then s.open == Some(i)
    else i < |s.messages| && s.messages[i].role.Assistant? && forall k | i < k < |s.messages| :: s.messages[k].role.Setup?
  }

  predicate NoneAtWork(s: TranscriptView) {
    forall i: nat | i < |s.messages| :: !AtWork(s, i)
  }

  lemma {:induction false} LastTurnIff(ms: seq<MessageView>, i: nat)
    ensures LastTurnAssistant(ms) == Some(i)
      <==> i < |ms| && ms[i].role.Assistant? && forall k | i < k < |ms| :: ms[k].role.Setup?
  {
    if ms != [] {
      var n := |ms| - 1;
      if ms[n].role.Setup? {
        LastTurnIff(ms[..n], i);
        assert i < n ==> (forall k | i < k < n :: ms[..n][k] == ms[k]);
      } else if i < n {
        assert !ms[n].role.Setup?;
      }
    }
  }

  lemma AtWorkIff(s: TranscriptView)
    requires OpenOk(s)
    ensures forall i: nat | i < |s.messages| :: AtWork(s, i) <==> OpenOrLastTurn(s) == Some(i)
    ensures NoneAtWork(s) <==> OpenOrLastTurn(s).None?
  {
    hide LastTurnAssistant;
    forall i: nat | i < |s.messages|
      ensures AtWork(s, i) <==> OpenOrLastTurn(s) == Some(i)
    {
      LastTurnIff(s.messages, i);
    }
  }

  predicate OnlyAt(ms: seq<MessageView>, ns: seq<MessageView>, i: nat) {
    i < |ms| == |ns| && forall k | 0 <= k < |ms| && k != i :: ns[k] == ms[k]
  }

  /** The bubble an event opens when none is at work. */
  predicate IsNewBubble(e: RunEvent, m: MessageView) {
    m == MessageView(e.id, Assistant, "", e.createdAt, Some(e.createdAt), true, [], [],
                     None, None, None, None, None, None, None, None, None)
  }

  /** Where the reply to an event goes: `at` is its place, `before` the bubble as it was found or opened. */
  predicate GoesTo(s: TranscriptView, e: RunEvent, t: TranscriptView, at: nat, before: MessageView) {
    && t.open == Some(at) && at < |t.messages|
    && if NoneAtWork(s) then at == |s.messages| && t.messages[..at] == s.messages && |t.messages| == at + 1 && IsNewBubble(e, before)
       else
         && AtWork(s, at) && OnlyAt(s.messages, t.messages, at)
         && before == s.messages[at].(streaming := s.open.None? || s.messages[at].streaming)
  }

  lemma EnsureGoesTo(s: TranscriptView, e: RunEvent, m: MessageView)
    requires OpenOk(s)
    ensures var ensured := EnsureAssistant(s, e);
      GoesTo(s, e, Edit(ensured, ensured.open.value, m), ensured.open.value, ensured.messages[ensured.open.value])
  {
    hide LastTurnAssistant;
    AtWorkIff(s);
    var ensured := EnsureAssistant(s, e);
    var at := ensured.open.value;
    assert AtWork(s, at) || NoneAtWork(s);
    if NoneAtWork(s) {
      assert Edit(ensured, at, m).messages[..at] == s.messages;
    }
  }

  // ---- text ----

  /** A round starts: its bubble is at work, and streams. */
  lemma MessageStarts(s: TranscriptView, e: RunEvent) returns (at: nat, before: MessageView)
    requires OpenOk(s) && e.kind.MessageStart?
    ensures var t := Apply(s, e);
      && GoesTo(s, e, t, at, before)
      && t.messages[at] == before.(streaming := true, updatedAt := Some(e.createdAt))
  {
    hide EnsureAssistant, GoesTo;
    var ensured := EnsureAssistant(s, e);
    at := ensured.open.value;
    before := ensured.messages[at];
    EnsureGoesTo(s, e, Touch(before.(streaming := true), e.createdAt));
  }

  /** `text` is behind all text before; it continues the last block if that is text. */
  predicate TextBehind(before: seq<BlockView>, text: string, after: seq<BlockView>) {
    var n := |before|;
    if text == "" then after == before
    else if n > 0 && before[n - 1].TextBlock?
    then |after| == n && after[..n - 1] == before[..n - 1] && after[n - 1] == TextBlock(before[n - 1].text + text)
    else |after| == n + 1 && after[..n] == before && after[n] == TextBlock(text)
  }

  /** A delta is shown behind the text of the bubble at work. */
  lemma DeltaShows(s: TranscriptView, e: RunEvent) returns (at: nat, before: MessageView)
    requires OpenOk(s) && e.kind.MessageDelta?
    ensures var t := Apply(s, e);
      && GoesTo(s, e, t, at, before)
      && t.messages[at] == before.(text := before.text + e.data.delta.GetOr(""), blocks := t.messages[at].blocks,
                                   updatedAt := Some(e.createdAt))
      && TextBehind(before.blocks, e.data.delta.GetOr(""), t.messages[at].blocks)
  {
    hide EnsureAssistant, GoesTo;
    var ensured := EnsureAssistant(s, e);
    at := ensured.open.value;
    before := ensured.messages[at];
    EnsureGoesTo(s, e, Touch(AppendText(before, e.Delta()), e.createdAt));
  }

  /** The open bubble stops streaming and stays open. */
  lemma MessageEnds(s: TranscriptView, e: RunEvent)
    requires OpenOk(s) && e.kind.MessageEnd?
    ensures var t := Apply(s, e);
      if s.open.None? then t == s
      else
        && t.open == s.open && OnlyAt(s.messages, t.messages, s.open.value)
        && t.messages[s.open.value]
           == s.messages[s.open.value].(streaming := false, updatedAt := Some(e.createdAt))
  {
  }

  // ---- rounds ----

  /** An agent that starts takes up the bubble at work; it opens none. */
  lemma AgentStarts(s: TranscriptView, e: RunEvent)
    requires OpenOk(s) && e.kind.AgentStart?
    ensures var t := Apply(s, e);
      && (NoneAtWork(s) ==> t == s)
      && (forall i: nat | i < |s.messages| && AtWork(s, i) ::
            && t.open == Some(i) && OnlyAt(s.messages, t.messages, i)
            && t.messages[i] == s.messages[i].(streaming := true, updatedAt := Some(e.createdAt)))
  {
    hide LastTurnAssistant;
    AtWorkIff(s);
  }

  predicate ToolsOver(m: MessageView, after: MessageView) {
    && |after.tools| == |m.tools| && after == m.(tools := after.tools)
    && forall k | 0 <= k < |m.tools| :: after.tools[k] == m.tools[k].(status := if m.role.Assistant? then Done else m.tools[k].status)
  }

  lemma MarkedOver(m: MessageView)
    ensures ToolsOver(m, MarkIfAssistant(m))
  {
    var after := MarkIfAssistant(m);
    if !m.role.Assistant? {
      assert forall k | 0 <= k < |m.tools| :: after.tools[k] == m.tools[k].(status := m.tools[k].status);
    }
  }

  /** An agent that ends leaves no tool of any bubble running. The bubble at work stays open for more rounds if it
      shows something; else it goes if it was open. */
  lemma AgentEnds(s: TranscriptView, e: RunEvent)
    requires OpenOk(s) && e.kind.AgentEnd?
    ensures var t := Apply(s, e);
      && (NoneAtWork(s) ==>
            |t.messages| == |s.messages| && t.open == None
            && forall k | 0 <= k < |s.messages| :: ToolsOver(s.messages[k], t.messages[k]))
      && (forall i: nat | i < |s.messages| && AtWork(s, i) && Shows(s.messages[i]) ::
            && |t.messages| == |s.messages| && t.open == Some(i) && t.messages[i].streaming
            && ToolsOver(s.messages[i].(streaming := true), t.messages[i])
            && forall k | 0 <= k < |s.messages| && k != i :: ToolsOver(s.messages[k], t.messages[k]))
      && (forall i: nat | i < |s.messages| && AtWork(s, i) && !Shows(s.messages[i]) ::
            && t.open == None
            && var left := if s.open.Some? then s.messages[..i] + s.messages[i + 1..] else s.messages;
               |t.messages| == |left| && forall k | 0 <= k < |left| :: ToolsOver(left[k], t.messages[k]))
  {
    hide MarkIfAssistant, LastTurnAssistant, HasContent, Shows, ToolsOver;
    var ms := s.messages;
    var marked := s.(messages := MarkEach(ms));
    forall k | 0 <= k < |ms|
      ensures ToolsOver(ms[k], marked.messages[k]) && marked.messages[k].role == ms[k].role
      ensures HasContent(marked.messages[k]) <==> Shows(ms[k])
    {
      MarkedOver(ms[k]);
      OverShows(ms[k], marked.messages[k]);
    }
    AtWorkIff(s);
    AtWorkIff(marked);
    SameAtWork(s, marked);
    forall i: nat | i < |ms| && AtWork(s, i)
      ensures OpenOrLastTurn(marked) == Some(i)
    {
      assert AtWork(marked, i);
    }
    EndsOn(s, marked, e);
  }

  lemma OverShows(m: MessageView, after: MessageView)
    requires ToolsOver(m, after)
    ensures after.role == m.role && (HasContent(after) <==> Shows(m))
    ensures ToolsOver(m.(streaming := true), after.(streaming := true))
  {
    SameContent(m);
    SameContent(after);
  }

  lemma SameAtWork(s: TranscriptView, marked: TranscriptView)
    requires |marked.messages| == |s.messages| && marked.open == s.open
    requires forall k | 0 <= k < |s.messages| :: marked.messages[k].role == s.messages[k].role
    ensures forall i: nat | i < |s.messages| :: AtWork(marked, i) <==> AtWork(s, i)
  {
  }

  lemma EndsOn(s: TranscriptView, marked: TranscriptView, e: RunEvent)
    requires OpenOk(s) && marked == s.(messages := MarkEach(s.messages)) && OpenOk(marked)
    requires |marked.messages| == |s.messages| && forall k | 0 <= k < |s.messages| ::
               ToolsOver(s.messages[k], marked.messages[k]) && (HasContent(marked.messages[k]) <==> Shows(s.messages[k]))
    ensures var t, found := AgentEnded(s), OpenOrLastTurn(marked);
      if found.None? then t == marked
      else
        var i := found.value;
        if Shows(s.messages[i]) then
          && t.open == Some(i) && |t.messages| == |s.messages|
          && t.messages[i].streaming && ToolsOver(s.messages[i].(streaming := true), t.messages[i])
          && forall k | 0 <= k < |s.messages| && k != i :: t.messages[k] == marked.messages[k]
        else t == FinishAssistant(marked)
    ensures var t, found := AgentEnded(s), OpenOrLastTurn(marked);
      found.Some? && !Shows(s.messages[found.value]) ==>
        && t.open == None
        && var left := if s.open.Some? then s.messages[..found.value] + s.messages[found.value + 1..] else s.messages;
           |t.messages| == |left| && forall k | 0 <= k < |left| :: ToolsOver(left[k], t.messages[k])
  {
    hide MarkEach, LastTurnAssistant, HasContent, Shows, ToolsOver;
    var found := OpenOrLastTurn(marked);
    if found.Some? {
      var i := found.value;
      OverShows(s.messages[i], marked.messages[i]);
      if !Shows(s.messages[i]) && s.open.Some? {
        assert !HasContent(Closed(marked.messages[i])) by {
          SameContent(marked.messages[i]);
        }
        var left := s.messages[..i] + s.messages[i + 1..];
        assert Without(marked.messages, i) == marked.messages[..i] + marked.messages[i + 1..];
        forall k | 0 <= k < |left|
          ensures ToolsOver(left[k], Without(marked.messages, i)[k])
        {
          var from := if k < i then k else k + 1;
          assert left[k] == s.messages[from] && Without(marked.messages, i)[k] == marked.messages[from];
        }
      }
    }
  }

  // ---- cards ----

  /** The card of a setup event. */
  predicate IsCard(e: RunEvent, m: MessageView) {
    m == MessageView(e.id, Setup, e.title, e.createdAt, None, false, [], [], Some(e.kind), Some(e.level), e.detail,
                     e.data.url, e.data.contentType, None, None, None, None)
  }

  lemma SetupShows(s: TranscriptView, e: RunEvent)
    requires OpenOk(s) && e.kind.SetupKind?
    ensures var t := Apply(s, e);
      t.open == s.open && |t.messages| == |s.messages| + 1 && t.messages[..|s.messages|] == s.messages
      && IsCard(e, t.messages[|s.messages|])
  {
  }

  ghost predicate TellsOfFailure(m: MessageView) {
    && m.role.Setup?
    && (m.level == Some(Error) || m.kind == Some(RunError)
        || exists name, front :: m.kind == Some(SetupKind(name)) && name == front + "_failed")
  }

  lemma TellsIff(m: MessageView)
    ensures TellsOfFailure(m) <==> SetupFailure(m)
  {
    if m.kind.Some? && m.kind.value.SetupKind? {
      var name := m.kind.value.name;
      var n := |name| - |"_failed"|;
      if EndsWith(name, "_failed") {
        assert name == name[..n] + "_failed";
      }
      forall front | name == front + "_failed"
        ensures EndsWith(name, "_failed")
      {
        assert |front| == n;
      }
    }
  }

  /** A run that fails settles everything; its card is left out if the last message on show tells of a failure. */
  lemma RunFails(s: TranscriptView, e: RunEvent) returns (from: seq<nat>)
    requires OpenOk(s) && e.kind.RunError?
    ensures var t := Apply(s, e);
      && t.open == None && |from| <= |t.messages|
      && StaysInOrder(s.messages, e.createdAt, t.messages[..|from|], from)
      && if from != [] && TellsOfFailure(t.messages[|from| - 1]) then |t.messages| == |from|
         else |t.messages| == |from| + 1 && IsCard(e, t.messages[|from|])
  {
    hide StaysInOrder, SettleAll, SetupFailure;
    from := SettledFrom(s, e.createdAt);
    SettlingKeepsWhatShows(s, e.createdAt);
    var settled := SettleAll(s, e.createdAt).messages;
    if settled != [] {
      TellsIff(settled[|settled| - 1]);
    }
    assert (settled + [SetupMessage(e)])[..|settled|] == settled;
    assert settled[..|settled|] == settled;
  }

  lemma RunIdles(s: TranscriptView, e: RunEvent) returns (from: seq<nat>)
    requires OpenOk(s) && e.kind.RunIdle?
    ensures var t := Apply(s, e); t.open == None && StaysInOrder(s.messages, e.createdAt, t.messages, from)
  {
    hide StaysInOrder;
    from := SettledFrom(s, e.createdAt);
  }

  /** Rewinds, queued follow-ups without a text or an id, and kinds the transcript does not know change nothing. */
  lemma NothingShows(s: TranscriptView, e: RunEvent)
    requires OpenOk(s)
    requires e.kind.TurnRewind? || e.kind.OtherKind? || (e.kind.FollowupQueued? && !IsUserTurn(e))
    ensures Apply(s, e) == s
  {
  }
}
