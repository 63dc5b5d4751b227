/**
 A client that works one batch after another into its page, mid-turn as often as not (applyRunEventsToMessages in
 packages/contracts/src/transcript.ts, once per animation frame).
 */
module LiveChain {
  import opened Events
  import opened Framing
  import opened Reducer
  import opened Rewind
  import opened EventOrder
  import opened Snapshot
  import opened Resume

  /** The page after each batch was worked in. */
  function Chain(ms: seq<MessageView>, batches: seq<seq<RunEvent>>): seq<MessageView>
    decreases |batches|
  {
    if batches == [] then ms else Chain(ApplyRunEventsToMessages(ms, batches[0]), batches[1..])
  }

  /** A reader that keeps its state instead. */
  function Replay(s: TranscriptView, batches: seq<seq<RunEvent>>): (r: TranscriptView)
    requires OpenOk(s)
    ensures OpenOk(r)
    decreases |batches|
  {
    if batches == [] then s else Replay(Run(s, Processed(batches[0])), batches[1..])
  }

  /** At the start and after each batch the live cursor is the one the page gives away. */
  predicate CursorsAgree(s: TranscriptView, batches: seq<seq<RunEvent>>)
    requires OpenOk(s)
    decreases |batches|
  {
    CursorShowsOnPage(s.messages, s.open) && (batches != [] ==> CursorsAgree(Run(s, Processed(batches[0])), batches[1..]))
  }

  /** Any next batch shows on the page what it shows in the state. */
  ghost predicate Follow(s: TranscriptView)
    requires OpenOk(s)
  {
    forall es: seq<RunEvent> :: ApplyRunEventsToMessages(s.messages, es) == Run(s, Processed(es)).messages
  }

  /** So it does at the start and after each batch. */
  ghost predicate FollowThroughout(s: TranscriptView, batches: seq<seq<RunEvent>>)
    requires OpenOk(s)
    decreases |batches|
  {
    Follow(s) && (batches != [] ==> FollowThroughout(Run(s, Processed(batches[0])), batches[1..]))
  }

  lemma NothingProcessed()
    ensures Processed([]) == []
  {
    FoldIsRemembered([]);
  }

  lemma FollowIff(s: TranscriptView)
    requires OpenOk(s)
    ensures Follow(s) <==> CursorShowsOnPage(s.messages, s.open)
  {
    hide Processed, Run, Apply, ResumedOpen, CursorShowsOnPage;
    ResumedIff(s.messages);
    var t := StateFromMessages(s.messages);
    if s.open == t.open {
      assert s == t;
      forall es: seq<RunEvent>
        ensures ApplyRunEventsToMessages(s.messages, es) == Run(s, Processed(es)).messages
      {
        if es == [] {
          NothingProcessed();
          RunConcat(s, [], []);
          NothingHappens(s);
        }
      }
    } else {
      CursorShows(s, t);
      var e: RunEvent :| e.kind.MessageEnd? && Apply(s, e).messages != Apply(t, e).messages;
      ProcessedOne(e);
      RunOne(s, e);
      RunOne(t, e);
      assert ApplyRunEventsToMessages(s.messages, [e]) != Run(s, Processed([e])).messages;
    }
  }

  lemma NothingHappens(s: TranscriptView)
    requires OpenOk(s)
    ensures Run(s, []) == s
  {
  }

  /** Working batches into a page follows the state, whatever comes next, exactly if the cursors agree throughout. */
  lemma {:induction false} FollowThroughoutIff(s: TranscriptView, batches: seq<seq<RunEvent>>)
    requires OpenOk(s)
    ensures FollowThroughout(s, batches) <==> CursorsAgree(s, batches)
    decreases |batches|
  {
    hide Processed, Run, Follow;
    FollowIff(s);
    if batches != [] {
      FollowThroughoutIff(Run(s, Processed(batches[0])), batches[1..]);
    }
  }

  /** Then the last page is the last state's. */
  lemma {:induction false} ChainIsReplay(s: TranscriptView, batches: seq<seq<RunEvent>>)
    requires OpenOk(s) && CursorsAgree(s, batches)
    ensures Chain(s.messages, batches) == Replay(s, batches).messages
    decreases |batches|
  {
    hide Processed, Run, Follow, ApplyRunEventsToMessages;
    if batches != [] {
      FollowIff(s);
      NextPage(s, batches[0]);
      ChainIsReplay(Run(s, Processed(batches[0])), batches[1..]);
    }
  }

  lemma NextPage(s: TranscriptView, es: seq<RunEvent>)
    requires OpenOk(s) && Follow(s)
    ensures ApplyRunEventsToMessages(s.messages, es) == Run(s, Processed(es)).messages
  {
  }

  /** Each batch sorts behind what came before it and rewinds nothing of it. */
  predicate EachContinues(done: seq<RunEvent>, batches: seq<seq<RunEvent>>)
    decreases |batches|
  {
    batches != [] ==> Continues(done, batches[0]) && EachContinues(done + batches[0], batches[1..])
  }

  lemma {:induction false} ReplayIsCompile(done: seq<RunEvent>, batches: seq<seq<RunEvent>>)
    requires EachContinues(done, batches)
    ensures Replay(Compile(done), batches) == Compile(done + Joined(batches))
    decreases |batches|
  {
    hide Processed, Run, Compile, Continues;
    if batches == [] {
      assert done + Joined(batches) == done;
    } else {
      CompileConcat(done, batches[0]);
      ReplayIsCompile(done + batches[0], batches[1..]);
      assert done + batches[0] + Joined(batches[1..]) == done + Joined(batches);
    }
  }

  // ---- exactly when the batches are worked in as compiling works them in ----

  /** Every event a client works in, in its order. */
  function WorkedIn(batches: seq<seq<RunEvent>>): seq<RunEvent> {
    if batches == [] then []
    else WorkedIn(batches[..|batches| - 1]) + Processed(batches[|batches| - 1])
  }

  /** After each batch these are the events that compiling works in, in the same order. */
  predicate WorkedInAsCompiled(batches: seq<seq<RunEvent>>) {
    && WorkedIn(batches) == Processed(Joined(batches))
    && (batches != [] ==> WorkedInAsCompiled(batches[..|batches| - 1]))
  }

  /** No event comes twice, and the comparator is consistent, wherever a batch meets what came before it. */
  ghost predicate Orderly(batches: seq<seq<RunEvent>>) {
    batches != [] ==>
      var n := |batches| - 1;
      var both := FoldRewoundEvents(Joined(batches[..n])) + FoldRewoundEvents(batches[n]);
      EachOnce(both) && Transitive(Tag(both, 0)) && Orderly(batches[..n])
  }

  lemma {:induction false} EachContinuesPush(done: seq<RunEvent>, batches: seq<seq<RunEvent>>, batch: seq<RunEvent>)
    ensures EachContinues(done, batches + [batch])
      <==> EachContinues(done, batches) && Continues(done + Joined(batches), batch)
    decreases |batches|
  {
    hide Continues;
    var all := batches + [batch];
    if batches == [] {
      assert done + Joined(batches) == done;
      assert all[0] == batch && all[1..] == [];
    } else {
      EachContinuesPush(done + batches[0], batches[1..], batch);
      assert all[0] == batches[0] && all[1..] == batches[1..] + [batch];
      assert done + batches[0] + Joined(batches[1..]) == done + Joined(batches);
    }
  }

  /** A stream is worked in batch by batch as compiling would exactly if each batch sorts behind and rewinds nothing of
      what came before it. */
  lemma {:induction false} WorkedInIff(batches: seq<seq<RunEvent>>)
    requires Orderly(batches)
    ensures WorkedInAsCompiled(batches) <==> EachContinues([], batches)
  {
    hide Processed, FoldRewoundEvents, EachOnce, Transitive, Continues;
    if batches == [] {
      NothingProcessed();
    } else {
      var n := |batches| - 1;
      var front, batch := batches[..n], batches[n];
      assert batches == front + [batch];
      WorkedInIff(front);
      EachContinuesPush([], front, batch);
      assert [] + Joined(front) == Joined(front);
      JoinedPush(front, batch);
      ProcessedConcatIff(Joined(front), batch);
    }
  }

  /** A stream worked in batch by batch shows what compiling it shows. */
  lemma ChainIsCompile(batches: seq<seq<RunEvent>>)
    requires EachContinues([], batches) && CursorsAgree(EMPTY, batches)
    ensures Chain([], batches) == Compile(Joined(batches)).messages
  {
    hide Processed, Run, CursorsAgree, EachContinues;
    ChainIsReplay(EMPTY, batches);
    CompileNothing();
    ReplayIsCompile([], batches);
    assert [] + Joined(batches) == Joined(batches);
  }

  lemma CompileNothing()
    ensures Compile([]) == EMPTY
  {
    NothingProcessed();
  }

  /** A rewind that comes in a later batch than what it takes back takes back nothing. */
  lemma LateRewindKeepsText(text: RunEvent, rewind: RunEvent)
    requires text.kind.MessageDelta? && rewind.kind.TurnRewind? && Forgets(rewind, text)
    ensures var shown := Chain([], [[text], [rewind]]); |shown| == 1 && shown[0].text == text.Delta()
    ensures Compile([text, rewind]).messages == []
    ensures !EachContinues([], [[text], [rewind]])
  {
    hide Apply, Run;
    ProcessedOne(text);
    RewindLeavesNothing(text, rewind);
    var page := ApplyRunEventsToMessages([], [text]);
    assert StateFromMessages([]) == EMPTY;
    RunOne(EMPTY, text);
    ShowsText(text);
    NothingHappens(StateFromMessages(page));
    NothingHappens(EMPTY);
    var batches := [[text], [rewind]];
    assert batches[1..] == [[rewind]] && batches[1..][1..] == [];
    assert Chain(page, [[rewind]]) == Chain(ApplyRunEventsToMessages(page, [rewind]), [[rewind]][1..]);
    NotContinued(text, rewind);
  }

  lemma ShowsText(e: RunEvent)
    requires e.kind.MessageDelta?
    ensures var ms := Apply(EMPTY, e).messages; |ms| == 1 && ms[0].text == e.Delta()
  {
  }

  lemma RewindLeavesNothing(text: RunEvent, rewind: RunEvent)
    requires text.kind.MessageDelta? && rewind.kind.TurnRewind? && Forgets(rewind, text)
    ensures Processed([rewind]) == [] && Processed([text, rewind]) == []
  {
    NothingProcessed();
    FoldIsRemembered([rewind]);
    FoldIsRemembered([text, rewind]);
    assert ForgottenBy([rewind], text) by {
      assert Forgets([rewind][0], text);
    }
    assert [text, rewind][1..] == [rewind] && [rewind][1..] == [];
    assert Remembered([rewind]) == [] && Remembered([text, rewind]) == [];
    FoldIsRemembered([]);
  }

  lemma NotContinued(text: RunEvent, rewind: RunEvent)
    requires text.kind.MessageDelta? && rewind.kind.TurnRewind? && Forgets(rewind, text)
    ensures !EachContinues([], [[text], [rewind]])
  {
    var batches := [[text], [rewind]];
    assert batches[1..] == [[rewind]] && [] + [text] == [text];
    FoldIsRemembered([text]);
    NothingForgotten([text]);
    assert text in FoldRewoundEvents([text]);
    assert Forgets([rewind][0], text);
    assert ForgottenBy([rewind], text);
    assert !Continues([text], [rewind]);
    assert !EachContinues([text], [[rewind]]);
  }
}
