/** What a user message and the end of a run do to the bubbles on show (applyUserTurn and settleAll). */
module TurnSteps {
  import opened Prelude
  import opened Events
  import opened Reducer

  /** The bubble with its work over: not streaming, no tool running, else as it was. */
  predicate Finished(m: MessageView, after: MessageView) {
    && !after.streaming && |after.tools| == |m.tools|
    && (forall k | 0 <= k < |m.tools| :: after.tools[k] == m.tools[k].(status := Done))
    && after == m.(streaming := false, tools := after.tools)
  }

  /** There is something to see of the message: a tool, or a character that is no white space. */
  predicate Shows(m: MessageView) {
    m.tools != [] || exists k | 0 <= k < |m.text| :: !IsSpace(m.text[k])
  }

  /** The reply in progress, if any, is over: finished in its place, or gone if it shows nothing. */
  predicate ReplyOver(s: TranscriptView, after: seq<MessageView>)
    requires OpenOk(s)
  {
    match s.open
    case None => after == s.messages
    case Some(i) =>
      if Shows(s.messages[i]) then
        && |after| == |s.messages| && Finished(s.messages[i], after[i])
        && forall k | 0 <= k < |after| && k != i :: after[k] == s.messages[k]
      else after == s.messages[..i] + s.messages[i + 1..]
  }

  predicate IsUserTurn(e: RunEvent) {
    e.kind.UserMessage? || (e.kind.FollowupQueued? && e.data.followUpId.Some? && !Blank(e.Text()))
  }

  /** Message `i` is the first of the user's that carries the event's follow-up id. */
  predicate CameBefore(ms: seq<MessageView>, e: RunEvent, i: nat) {
    && e.data.followUpId.Some? && e.data.followUpId.value != ""
    && i < |ms| && ms[i].role.User? && ms[i].followUpId == e.data.followUpId
    && forall k | 0 <= k < i :: !(ms[k].role.User? && ms[k].followUpId == e.data.followUpId)
  }

  lemma CameBeforeIff(s: TranscriptView, e: RunEvent)
    ensures forall i: nat | i < |s.messages| :: CameBefore(s.messages, e, i) <==> Redelivered(s, e) == Some(i)
    ensures Redelivered(s, e).None? <==> forall i: nat | i < |s.messages| :: !CameBefore(s.messages, e, i)
  {
  }

  /** A user message as it is first shown. */
  predicate IsUserMessage(e: RunEvent, m: MessageView) {
    m == MessageView(e.id, User, e.data.text.GetOr(""), e.createdAt, Some(e.createdAt), false, [], [],
                     None, None, None, None, None, if e.data.images == Some([]) then None else e.data.images,
                     e.data.followUpId, e.data.actorUserId, e.data.actorEmail)
  }

  /** A user message that is new ends the reply in progress and is shown behind everything. */
  lemma UserMessageIsShown(s: TranscriptView, e: RunEvent)
    requires OpenOk(s) && IsUserTurn(e)
    requires forall i: nat | i < |s.messages| :: !CameBefore(s.messages, e, i)
    ensures var t := Apply(s, e);
      && t.open.None? && t.messages != []
      && var n := |t.messages| - 1;
         ReplyOver(s, t.messages[..n]) && IsUserMessage(e, t.messages[n])
  {
    hide Redelivered, HasContent, CameBefore, Shows;
    CameBeforeIff(s, e);
    if s.open.Some? {
      var i := s.open.value;
      SameContent(s.messages[i]);
    }
  }

  lemma SameContent(m: MessageView)
    ensures HasContent(Closed(m)) <==> HasContent(m)
    ensures HasContent(m) <==> Shows(m)
    ensures Finished(m, Closed(m))
  {
  }

  /** One that is delivered again is updated where it stands, and nothing else changes: what the event brings is taken
      over, the rest kept. */
  lemma UserMessageAgain(s: TranscriptView, e: RunEvent, i: nat)
    requires OpenOk(s) && IsUserTurn(e) && CameBefore(s.messages, e, i)
    ensures var t := Apply(s, e);
      && t.open == s.open && |t.messages| == |s.messages|
      && (forall k | 0 <= k < |t.messages| && k != i :: t.messages[k] == s.messages[k])
      && var m := s.messages[i];
         t.messages[i] == m.(id := e.id, updatedAt := Some(e.createdAt),
           text := if e.data.text.GetOr("") != "" then e.data.text.value else m.text,
           actorUserId := if e.data.actorUserId.Some? then e.data.actorUserId else m.actorUserId,
           actorEmail := if e.data.actorEmail.Some? then e.data.actorEmail else m.actorEmail,
           images := if e.data.images.Some? && e.data.images.value != [] then e.data.images else m.images)
  {
    hide Redelivered;
    CameBeforeIff(s, e);
  }

  // ---- settling ----

  predicate ShowsNothing(m: MessageView) {
    m.role.Assistant? && !Shows(m)
  }

  /** A message as settling leaves it: a bubble is finished, and touched only if it was still at work. */
  predicate SettledAs(m: MessageView, at: Timestamp, after: MessageView) {
    if m.role.Assistant? then
      && Finished(m, after.(updatedAt := m.updatedAt))
      && after.updatedAt ==
         if at.text != "" && (m.streaming || exists k | 0 <= k < |m.tools| :: m.tools[k].status.Running?) then Some(at)
         else m.updatedAt
    else after == m
  }

  /** `from` says which of the messages stay, in their order: those that show something. */
  predicate StaysInOrder(ms: seq<MessageView>, at: Timestamp, after: seq<MessageView>, from: seq<nat>) {
    && |from| == |after|
    && (forall k | 0 <= k < |from| :: from[k] < |ms| && !ShowsNothing(ms[from[k]]) && SettledAs(ms[from[k]], at, after[k]))
    && (forall j, k | 0 <= j < k < |from| :: from[j] < from[k])
    && (forall i: nat | i < |ms| && !ShowsNothing(ms[i]) :: i in from)
  }

  lemma SettleOneShows(m: MessageView, at: Timestamp)
    ensures m.role.Assistant? && !HasContent(SettleOne(m, at)) <==> ShowsNothing(m)
    ensures SettleOne(m, at).role == m.role
    ensures SettledAs(m, at, SettleOne(m, at))
  {
    SameContent(m);
  }

  lemma DropOne(ms: seq<MessageView>, at: Timestamp, m: MessageView, kept: seq<MessageView>, from: seq<nat>)
    requires StaysInOrder(ms, at, kept, from) && ShowsNothing(m)
    ensures StaysInOrder(ms + [m], at, kept, from)
  {
    hide ShowsNothing, SettledAs;
    var more := ms + [m];
    assert forall i: nat | i < |ms| :: more[i] == ms[i];
  }

  lemma KeepOne(ms: seq<MessageView>, at: Timestamp, m: MessageView, kept: seq<MessageView>, from: seq<nat>,
                after: MessageView)
    requires StaysInOrder(ms, at, kept, from) && !ShowsNothing(m) && SettledAs(m, at, after)
    ensures StaysInOrder(ms + [m], at, kept + [after], from + [|ms|])
  {
    hide ShowsNothing, SettledAs;
    var more, now, longer := ms + [m], kept + [after], from + [|ms|];
    forall k | 0 <= k < |longer|
      ensures longer[k] < |more| && !ShowsNothing(more[longer[k]]) && SettledAs(more[longer[k]], at, now[k])
    {
      if k < |from| {
        assert more[from[k]] == ms[from[k]];
      }
    }
    forall j, k | 0 <= j < k < |longer|
      ensures longer[j] < longer[k]
    {
      assert longer[j] == from[j] && from[j] < |ms|;
    }
    forall i: nat | i < |more| && !ShowsNothing(more[i])
      ensures i in longer
    {
      if i < |ms| {
        assert more[i] == ms[i] && i in from;
      } else {
        assert longer[|from|] == i;
      }
    }
  }

  lemma {:induction false} KeepsInOrder(ms: seq<MessageView>, at: Timestamp) returns (from: seq<nat>)
    ensures StaysInOrder(ms, at, KeepContent(SettleEach(ms, at)), from)
  {
    hide StaysInOrder, SettledAs, SettleOne, HasContent, KeepContent;
    if ms == [] {
      from := [];
      NothingStays(at);
    } else {
      var n := |ms| - 1;
      var each := SettleEach(ms, at);
      from := KeepsInOrder(ms[..n], at);
      SettleOneShows(ms[n], at);
      assert each[..n] == SettleEach(ms[..n], at) && each[..n + 1] == each;
      KeepContentPush(each, n);
      assert ms[..n] + [ms[n]] == ms;
      assert KeepContent(each[..n]) + [] == KeepContent(each[..n]);
      if ShowsNothing(ms[n]) {
        DropOne(ms[..n], at, ms[n], KeepContent(each[..n]), from);
      } else {
        KeepOne(ms[..n], at, ms[n], KeepContent(each[..n]), from, each[n]);
        from := from + [n];
      }
    }
  }

  lemma NothingStays(at: Timestamp)
    ensures StaysInOrder([], at, KeepContent(SettleEach([], at)), [])
  {
  }

  lemma SettledFrom(s: TranscriptView, at: Timestamp) returns (from: seq<nat>)
    ensures StaysInOrder(s.messages, at, SettleAll(s, at).messages, from) && |from| == |SettleAll(s, at).messages|
  {
    from := KeepsInOrder(s.messages, at);
  }

  /** Settling drops the bubbles that show nothing and no other message, keeps the order, and leaves no work running. */
  lemma SettlingKeepsWhatShows(s: TranscriptView, at: Timestamp)
    ensures SettleAll(s, at).open.None?
    ensures exists from :: StaysInOrder(s.messages, at, SettleAll(s, at).messages, from)
  {
    var from := KeepsInOrder(s.messages, at);
  }
}
