/** Resuming from a compiled page (stateFromMessages, applyRunEventsToMessages). */
module Resume {
  import opened Prelude
  import opened Events
  import opened Reducer
  import opened TurnSteps
  import opened Rewind
  import opened EventOrder
  import opened Snapshot

  function LastAssistant(ms: seq<MessageView>): (r: Option<nat>)
    ensures r.Some? ==> r.value < |ms| && ms[r.value].role.Assistant?
    ensures r.Some? ==> forall k | r.value < k < |ms| :: !ms[k].role.Assistant?
    ensures r.None? ==> forall k | 0 <= k < |ms| :: !ms[k].role.Assistant?
  {
    if ms == [] then None
    else if ms[|ms| - 1].role.Assistant? then Some(|ms| - 1)
    else LastAssistant(ms[..|ms| - 1])
  }

  predicate Busy(m: MessageView) {
    m.streaming || AnyRunning(m.tools)
  }

  /** The cursor a resumed client starts with: the newest bubble, if it is still at work. */
  function ResumedOpen(ms: seq<MessageView>): Option<nat> {
    var last := LastAssistant(ms);
    if last.Some? && Busy(ms[last.value]) then last else None
  }

  function StateFromMessages(ms: seq<MessageView>): (r: TranscriptView)
    ensures OpenOk(r)
  {
    TranscriptView(ms, ResumedOpen(ms))
  }

  // ---- what a resumed client takes for open ----

  predicate IsLastBubble(ms: seq<MessageView>, i: nat) {
    i < |ms| && ms[i].role.Assistant? && forall k | i < k < |ms| :: !ms[k].role.Assistant?
  }

  predicate AtWork(m: MessageView) {
    m.streaming || exists k :: 0 <= k < |m.tools| && m.tools[k].status.Running?
  }

  /** The cursor is on the last bubble if that streams or has a tool running, and on nothing else. */
  predicate CursorShowsOnPage(ms: seq<MessageView>, open: Option<nat>) {
    && (forall i: nat | i < |ms| :: open == Some(i) <==> IsLastBubble(ms, i) && AtWork(ms[i]))
    && (open.Some? ==> open.value < |ms|)
  }

  /** A resumed client shows the page, with exactly that cursor. */
  lemma ResumedIff(ms: seq<MessageView>)
    ensures StateFromMessages(ms).messages == ms
    ensures forall open :: StateFromMessages(ms).open == open <==> CursorShowsOnPage(ms, open)
  {
    var last := LastAssistant(ms);
    forall i: nat | i < |ms|
      ensures last == Some(i) <==> IsLastBubble(ms, i)
    {
      if IsLastBubble(ms, i) {
        assert last.Some?;
      }
    }
    forall open | CursorShowsOnPage(ms, open)
      ensures open == ResumedOpen(ms)
    {
      if ResumedOpen(ms).Some? {
        assert open == Some(last.value);
      }
    }
  }

  /** A new user message on any page is shown last, and leaves a last bubble that was at work finished, or gone if it
      shows nothing. */
  lemma UserMessageOnPage(ms: seq<MessageView>, e: RunEvent)
    requires IsUserTurn(e) && forall i: nat | i < |ms| :: !CameBefore(ms, e, i)
    ensures var r := ApplyRunEventsToMessages(ms, [e]);
      && r != [] && IsUserMessage(e, r[|r| - 1])
      && (forall i: nat | IsLastBubble(ms, i) && AtWork(ms[i]) :: ReplyOver(TranscriptView(ms, Some(i)), r[..|r| - 1]))
      && ((forall i: nat | IsLastBubble(ms, i) :: !AtWork(ms[i])) ==> r[..|r| - 1] == ms)
  {
    assert !e.kind.TurnRewind?;
    hide Apply, StateFromMessages, IsUserMessage, Processed, IsUserTurn, CameBefore, ReplyOver, IsLastBubble, AtWork;
    ResumedIff(ms);
    var s := StateFromMessages(ms);
    assert s == TranscriptView(ms, s.open) && CursorShowsOnPage(ms, s.open);
    ProcessedOne(e);
    RunOne(s, e);
    UserMessageIsShown(s, e);
    var r := ApplyRunEventsToMessages(ms, [e]);
    assert r == Apply(s, e).messages;
    InRange(ms);
    if s.open.None? {
      NothingOpen(s, r[..|r| - 1]);
    }
  }

  lemma InRange(ms: seq<MessageView>)
    ensures forall i: nat | IsLastBubble(ms, i) :: i < |ms|
  {
  }

  lemma NothingOpen(s: TranscriptView, after: seq<MessageView>)
    requires s.open.None? && ReplyOver(s, after)
    ensures after == s.messages
  {
  }

  lemma ProcessedOne(e: RunEvent)
    requires !e.kind.TurnRewind?
    ensures Processed([e]) == [e]
  {
    FoldIsRemembered([e]);
    NothingForgotten([e]);
    SortIsTheArrangement([e], Tag([e], 0));
    assert Untag(Tag([e], 0)) == [e];
  }

  function ApplyRunEventsToMessages(ms: seq<MessageView>, es: seq<RunEvent>): seq<MessageView> {
    if es == [] then ms else Run(StateFromMessages(ms), Processed(es)).messages
  }

  // ---- exactly when resuming is safe ----

  /** A `message.end` whose time stamp no message carries. */
  function Probe(at: Timestamp): RunEvent {
    RunEvent("probe", at, Info, MessageEnd, "", None, NO_DATA)
  }

  /** Some time stamp other than these two. */
  function Unlike(a: Option<Timestamp>, b: Option<Timestamp>): (t: Timestamp)
    ensures Some(t) != a && Some(t) != b
  {
    if Some(Timestamp("", 0)) != a && Some(Timestamp("", 0)) != b then Timestamp("", 0)
    else if Some(Timestamp("", 1)) != a && Some(Timestamp("", 1)) != b then Timestamp("", 1)
    else Timestamp("", 2)
  }

  lemma CursorShows(s: TranscriptView, t: TranscriptView)
    requires OpenOk(s) && OpenOk(t) && s.messages == t.messages && s.open != t.open
    ensures exists e: RunEvent :: e.kind.MessageEnd? && Apply(s, e).messages != Apply(t, e).messages
  {
    var a := if s.open.Some? then s.messages[s.open.value].updatedAt else None;
    var b := if t.open.Some? then t.messages[t.open.value].updatedAt else None;
    var at := Unlike(a, b);
    var e := Probe(at);
    var ms, ns := Apply(s, e).messages, Apply(t, e).messages;
    if s.open.Some? {
      var i := s.open.value;
      assert ms[i].updatedAt == Some(at) && ns[i].updatedAt == s.messages[i].updatedAt;
    } else {
      var i := t.open.value;
      assert ns[i].updatedAt == Some(at) && ms[i].updatedAt == t.messages[i].updatedAt;
    }
  }

  /** A resumed client sees what a replaying one sees, whatever comes next,
      exactly when the live cursor is the one a client recomputes from the page. */
  lemma ResumeIsExact(s: TranscriptView)
    requires OpenOk(s)
    ensures (forall es: seq<RunEvent> :: Run(StateFromMessages(s.messages), es).messages == Run(s, es).messages)
            <==> CursorShowsOnPage(s.messages, s.open)
  {
    hide CursorShowsOnPage;
    ResumedIff(s.messages);
    var t := StateFromMessages(s.messages);
    if s.open == t.open {
      assert s == t;
    } else {
      CursorShows(s, t);
      var e: RunEvent :| e.kind.MessageEnd? && Apply(s, e).messages != Apply(t, e).messages;
      RunOne(s, e);
      RunOne(t, e);
      var es := [e];
      assert Run(t, es).messages != Run(s, es).messages;
    }
  }

  // ---- after a turn has settled ----

  predicate Settled(s: TranscriptView) {
    s.open.None? && forall k | 0 <= k < |s.messages| :: s.messages[k].role.Assistant? ==> !Busy(s.messages[k])
  }

  lemma {:induction false} KeptFrom(ms: seq<MessageView>)
    ensures forall k | 0 <= k < |KeepContent(ms)| :: KeepContent(ms)[k] in ms
  {
    if ms != [] {
      KeptFrom(ms[..|ms| - 1]);
    }
  }

  lemma SettleAllSettles(s: TranscriptView, at: Timestamp)
    ensures Settled(SettleAll(s, at))
  {
    var each := SettleEach(s.messages, at);
    KeptFrom(each);
    assert forall k | 0 <= k < |each| :: each[k].role.Assistant? ==> !Busy(each[k]);
  }

  predicate ClosesTurn(e: RunEvent) {
    e.kind.RunIdle? || e.kind.RunError?
  }

  lemma ClosingSettles(s: TranscriptView, e: RunEvent)
    requires OpenOk(s) && ClosesTurn(e)
    ensures Settled(Apply(s, e))
  {
    SettleAllSettles(s, e.createdAt);
  }

  /** The tail of the log sorts behind what was compiled, and no rewind in it reaches back. */
  predicate Continues(xs: seq<RunEvent>, ys: seq<RunEvent>) {
    && (forall x, y | x in FoldRewoundEvents(xs) && y in FoldRewoundEvents(ys) :: Follows(x, y))
    && (forall x | x in FoldRewoundEvents(xs) :: !ForgottenBy(ys, x))
  }

  lemma {:induction false} NothingCut(es: seq<RunEvent>, later: seq<RunEvent>)
    requires forall e | e in es :: !ForgottenBy(later, e)
    ensures CutBy(es, later) == es
  {
    if es != [] {
      assert es[0] in es;
      NothingCut(es[1..], later);
    }
  }

  lemma CompileConcat(xs: seq<RunEvent>, ys: seq<RunEvent>)
    requires Continues(xs, ys)
    ensures Compile(xs + ys) == Run(Compile(xs), Processed(ys))
  {
    FoldConcat(xs, ys);
    NothingCut(FoldRewoundEvents(xs), ys);
    SortConcat(FoldRewoundEvents(xs), FoldRewoundEvents(ys));
    RunConcat(EMPTY, Processed(xs), Processed(ys));
  }

  // ---- the same, the other way round ----

  lemma {:induction false} CutShorter(es: seq<RunEvent>, later: seq<RunEvent>)
    ensures |CutBy(es, later)| <= |es|
    ensures |CutBy(es, later)| == |es| ==> forall e | e in es :: !ForgottenBy(later, e)
  {
    if es != [] {
      CutShorter(es[1..], later);
      assert es == [es[0]] + es[1..];
    }
  }

  /** Events of the tail stand behind all of the head. */
  lemma BehindHead(xs: seq<RunEvent>, ys: seq<RunEvent>, sorted: seq<Item>, q: nat, p: nat)
    requires EachOnce(xs + ys) && Untag(sorted) == SortRunEvents(xs) + SortRunEvents(ys)
    requires q < |sorted| && p < |sorted| && sorted[q].event in xs && sorted[p].event in ys
    ensures q < p
  {
    hide SortRunEvents;
    EachOnceSplit(xs, ys);
    SortRearranges(xs);
    SortRearranges(ys);
    var front, later := SortRunEvents(xs), SortRunEvents(ys);
    assert forall k | 0 <= k < |front| :: front[k] in multiset(xs);
    assert forall k | 0 <= k < |later| :: later[k] in multiset(ys);
    assert sorted[q].event == (front + later)[q] && sorted[p].event == (front + later)[p];
  }

  lemma FollowsAt(x: RunEvent, y: RunEvent, i: nat, j: nat)
    requires i < j
    ensures Follows(x, y) <==> Before(Item(x, i), Item(y, j))
  {
  }

  lemma Place(items: seq<Item>, sorted: seq<Item>, i: nat) returns (q: nat)
    requires multiset(sorted) == multiset(items) && i < |items|
    ensures q < |sorted| && sorted[q] == items[i]
  {
    assert items[i] in multiset(sorted);
    q :| 0 <= q < |sorted| && sorted[q] == items[i];
  }

  /** Where the sort of both is one sort behind the other, the tail follows the head. */
  lemma SortedApartFollows(xs: seq<RunEvent>, ys: seq<RunEvent>)
    requires EachOnce(xs + ys) && Transitive(Tag(xs + ys, 0))
    requires SortRunEvents(xs + ys) == SortRunEvents(xs) + SortRunEvents(ys)
    ensures forall x, y | x in xs && y in ys :: Follows(x, y)
  {
    hide Before, Follows, SortItems, Transitive, EachOnce;
    var items := Tag(xs + ys, 0);
    var sorted := SortItems(items);
    SortArranges(items);
    SortIsPermutation(items);
    forall x, y | x in xs && y in ys
      ensures Follows(x, y)
    {
      var i :| 0 <= i < |xs| && xs[i] == x;
      var j :| 0 <= j < |ys| && ys[j] == y;
      assert items[i] == Item(x, i) && items[|xs| + j] == Item(y, |xs| + j);
      var q := Place(items, sorted, i);
      var p := Place(items, sorted, |xs| + j);
      BehindHead(xs, ys, sorted, q, p);
      FollowsAt(x, y, i, |xs| + j);
    }
  }

  /** A log is worked in piece by piece exactly if the tail sorts behind the head and rewinds nothing of it. */
  lemma ProcessedConcatIff(xs: seq<RunEvent>, ys: seq<RunEvent>)
    requires EachOnce(FoldRewoundEvents(xs) + FoldRewoundEvents(ys))
    requires Transitive(Tag(FoldRewoundEvents(xs) + FoldRewoundEvents(ys), 0))
    ensures Processed(xs + ys) == Processed(xs) + Processed(ys) <==> Continues(xs, ys)
  {
    hide SortRunEvents, FoldRewoundEvents, Transitive, EachOnce, Follows, ForgottenBy;
    var front, later := FoldRewoundEvents(xs), FoldRewoundEvents(ys);
    FoldConcat(xs, ys);
    if Continues(xs, ys) {
      NothingCut(front, ys);
      SortConcat(front, later);
    }
    if Processed(xs + ys) == Processed(xs) + Processed(ys) {
      SortKeepsLength(front);
      SortKeepsLength(later);
      SortKeepsLength(CutBy(front, ys) + later);
      CutShorter(front, ys);
      NothingCut(front, ys);
      SortedApartFollows(front, later);
    }
  }

  lemma SortKeepsLength(es: seq<RunEvent>)
    ensures |SortRunEvents(es)| == |es|
  {
  }

  /** Resuming anywhere the two cursors agree shows what compiling the whole log shows. */
  lemma ResumeWhereCursorsAgree(xs: seq<RunEvent>, ys: seq<RunEvent>)
    requires Continues(xs, ys)
    requires CursorShowsOnPage(Compile(xs).messages, Compile(xs).open)
    ensures ApplyRunEventsToMessages(Compile(xs).messages, ys) == Compile(xs + ys).messages
  {
    hide CursorShowsOnPage;
    ResumedIff(Compile(xs).messages);
    assert StateFromMessages(Compile(xs).messages) == Compile(xs);
    CompileConcat(xs, ys);
    if ys == [] {
      assert xs + ys == xs;
    }
  }

  /** They agree once a turn has settled. */
  lemma ResumeEqualsReplay(xs: seq<RunEvent>, ys: seq<RunEvent>)
    requires Continues(xs, ys)
    requires Processed(xs) != [] && ClosesTurn(Processed(xs)[|Processed(xs)| - 1])
    ensures ApplyRunEventsToMessages(Compile(xs).messages, ys) == Compile(xs + ys).messages
  {
    var n := |Processed(xs)| - 1;
    var last := Processed(xs)[n];
    assert Processed(xs) == Processed(xs)[..n] + [last];
    RunPush(EMPTY, Processed(xs)[..n], last);
    ClosingSettles(Run(EMPTY, Processed(xs)[..n]), last);
    SettledCursor(Compile(xs));
    ResumeWhereCursorsAgree(xs, ys);
  }

  lemma SettledCursor(s: TranscriptView)
    requires Settled(s)
    ensures CursorShowsOnPage(s.messages, s.open)
  {
  }

  /** In the middle of a turn it can fail: the blank bubble a `message.start` opened outlives a user message. */
  lemma ResumeMidTurnDiffers(start: RunEvent, end: RunEvent, user: RunEvent)
    requires start.kind.MessageStart? && end.kind.MessageEnd? && user.kind.UserMessage?
    requires user.data.followUpId.None?
    ensures var s := Run(EMPTY, [start, end]);
      |Run(s, [user]).messages| == 1 && |Run(StateFromMessages(s.messages), [user]).messages| == 2
  {
    RunPush(EMPTY, [start], end);
    assert [start] + [end] == [start, end];
    var one := Apply(EMPTY, start);
    assert one.messages == [one.messages[0]] && one.open == Some(0);
    var s := Apply(one, end);
    assert s == Run(EMPTY, [start, end]);
    assert s.messages == [s.messages[0]] && s.open == Some(0) && !Busy(s.messages[0]) && !HasContent(s.messages[0]);
    assert LastAssistant(s.messages) == Some(0);
    assert Run(s, [user]) == Apply(s, user);
    assert Run(StateFromMessages(s.messages), [user]) == Apply(StateFromMessages(s.messages), user);
  }
}
