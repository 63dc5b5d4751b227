/**
 With what each request settles, said without the steps that settle it (runMcpStdio in
 packages/extensions/src/mcp-client.ts).
 */
module McpOutcomes {
  import opened Prelude
  import opened Framing
  import opened McpStdio

  /** What matters to a request, in the order it comes: requests made, answers read, timers run out, the child gone. */
  datatype Happening = Asked(id: int) | Answered(id: int, result: seq<byte>) | Refused(id: int, message: seq<byte>)
                     | RanOut(id: int) | Gone

  /** The answers among delivered messages; what does not parse, or names no request, is passed over. */
  function AnswersIn(messages: seq<Option<seq<byte>>>, parse: seq<byte> -> Reply): seq<Happening> {
    if messages == [] then []
    else
      (if messages[0].None? then []
       else match parse(messages[0].value)
         case Result(id, result) => [Answered(id, result)]
         case Failure(id, message) => [Refused(id, message)]
         case _ => [])
      + AnswersIn(messages[1..], parse)
  }

  /** The happenings of a run, from the bytes left over and the next id on. */
  function Happenings(left: seq<byte>, nextId: nat, es: seq<Event>, parse: seq<byte> -> Reply): seq<Happening>
    decreases |es|
  {
    if es == [] then []
    else match es[0]
      case Request => [Asked(nextId)] + Happenings(left, nextId + 1, es[1..], parse)
      case Data(chunk) =>
        var (messages, rest) := Messages(left + chunk);
        AnswersIn(messages, parse) + Happenings(rest, nextId, es[1..], parse)
      case Timeout(id) => [RanOut(id)] + Happenings(left, nextId, es[1..], parse)
      case Exit => [Gone] + Happenings(left, nextId, es[1..], parse)
  }

  /** The happening decides the request, if that still waits. */
  predicate Decides(h: Happening, id: int, outcome: Outcome) {
    match outcome
    case Resolved(result) => h == Answered(id, result)
    case Rejected(message) => h == Refused(id, message)
    case TimedOut => h == RanOut(id)
    case Exited => h == Gone
  }

  predicate Touches(h: Happening, id: int) {
    h == Gone || ((h.Answered? || h.Refused? || h.RanOut?) && h.id == id)
  }

  /** The request was made, and the first happening behind it that decides it decided so. */
  predicate DecidedBy(hs: seq<Happening>, id: int, outcome: Outcome) {
    exists made, decided ::
      && 0 <= made < decided < |hs| && hs[made] == Asked(id) && Decides(hs[decided], id, outcome)
      && forall k | made < k < decided :: !Touches(hs[k], id)
  }

  /** The request was made and nothing decided it yet. */
  predicate StillWaits(hs: seq<Happening>, id: int) {
    exists made :: 0 <= made < |hs| && hs[made] == Asked(id) && forall k | made < k < |hs| :: !Touches(hs[k], id)
  }

  // ---- the same, happening by happening ----

  datatype Fate = Unasked | Waiting | Decided(outcome: Outcome)

  function OutcomeOf(h: Happening): Outcome {
    match h
    case Answered(_, result) => Resolved(result)
    case Refused(_, message) => Rejected(message)
    case RanOut(_) => TimedOut
    case _ => Exited
  }

  function NextFate(before: Fate, h: Happening, id: int): Fate {
    match before
    case Unasked => if h == Asked(id) then Waiting else Unasked
    case Waiting => if Touches(h, id) then Decided(OutcomeOf(h)) else Waiting
    case Decided(_) => before
  }

  function FateOf(hs: seq<Happening>, id: int): Fate {
    if hs == [] then Unasked else NextFate(FateOf(hs[..|hs| - 1], id), hs[|hs| - 1], id)
  }

  lemma DecidesIff(h: Happening, id: int)
    ensures forall outcome :: Decides(h, id, outcome) <==> Touches(h, id) && outcome == OutcomeOf(h)
    ensures h == Asked(id) ==> !Touches(h, id)
  {
  }

  /** Each id is asked for once, and only these were. */
  predicate AskedBelow(hs: seq<Happening>, nextId: nat) {
    && (forall k | 0 <= k < |hs| && hs[k].Asked? :: 1 <= hs[k].id < nextId)
    && (forall j, k | 0 <= j < k < |hs| && hs[j].Asked? && hs[k].Asked? :: hs[j].id != hs[k].id)
  }

  /** What the fate of a request means. */
  predicate Means(hs: seq<Happening>, id: int, fate: Fate) {
    match fate
    case Unasked => NeverAsked(hs, id)
    case Waiting => StillWaits(hs, id)
    case Decided(outcome) => DecidedBy(hs, id, outcome)
  }

  predicate NeverAsked(hs: seq<Happening>, id: int) {
    forall k | 0 <= k < |hs| :: hs[k] != Asked(id)
  }

  lemma NeverAskedPush(front: seq<Happening>, h: Happening, id: int)
    ensures NeverAsked(front + [h], id) <==> NeverAsked(front, id) && h != Asked(id)
  {
    var hs := front + [h];
    assert hs[|front|] == h;
    assert forall k | 0 <= k < |front| :: front[k] == hs[k];
  }

  lemma {:induction false} FateMeans(hs: seq<Happening>, nextId: nat, id: int)
    requires AskedBelow(hs, nextId)
    ensures forall fate :: Means(hs, id, fate) <==> FateOf(hs, id) == fate
  {
    hide DecidedBy, StillWaits, NeverAsked, Decides, Touches, AskedBelow, OutcomeOf;
    if hs == [] {
      NothingHappened(id);
    } else {
      var n := |hs| - 1;
      var front, h := hs[..n], hs[n];
      assert hs == front + [h];
      BelowFront(front, h, nextId);
      FateMeans(front, nextId, id);
      StillWaitsPush(front, h, id);
      NeverAskedPush(front, h, id);
      DecidesIff(h, id);
      forall outcome
        ensures Means(hs, id, Decided(outcome))
          <==> Means(front, id, Decided(outcome)) || (Means(front, id, Waiting) && Decides(h, id, outcome))
      {
        DecidedByPush(front, h, id, outcome);
      }
      if h == Asked(id) {
        MadeOnce(front, h, nextId, id);
        assert !Means(front, id, Waiting) && forall outcome :: !Means(front, id, Decided(outcome));
      }
      forall fate
        ensures Means(hs, id, fate) <==> FateOf(hs, id) == fate
      {
        assert Means(front, id, Unasked) <==> FateOf(front, id) == Unasked;
        assert Means(front, id, Waiting) <==> FateOf(front, id) == Waiting;
      }
    }
  }

  lemma BelowFront(front: seq<Happening>, h: Happening, nextId: nat)
    requires AskedBelow(front + [h], nextId)
    ensures AskedBelow(front, nextId)
  {
    var hs := front + [h];
    assert forall k | 0 <= k < |front| :: front[k] == hs[k];
  }

  lemma NothingHappened(id: int)
    ensures NeverAsked([], id) && !StillWaits([], id) && forall outcome :: !DecidedBy([], id, outcome)
  {
  }

  lemma StillWaitsPush(front: seq<Happening>, h: Happening, id: int)
    ensures StillWaits(front + [h], id) <==> h == Asked(id) || (StillWaits(front, id) && !Touches(h, id))
  {
    var hs := front + [h];
    if StillWaits(hs, id) {
      var made :| 0 <= made < |hs| && hs[made] == Asked(id) && forall k | made < k < |hs| :: !Touches(hs[k], id);
      if made < |front| {
        assert front[made] == Asked(id) && !Touches(hs[|front|], id);
        assert forall k | made < k < |front| :: front[k] == hs[k];
      }
    }
    if h == Asked(id) {
      assert hs[|front|] == Asked(id);
    }
    if StillWaits(front, id) && !Touches(h, id) {
      var made :| 0 <= made < |front| && front[made] == Asked(id) && forall k | made < k < |front| :: !Touches(front[k], id);
      assert hs[made] == Asked(id);
    }
  }

  lemma DecidedByPush(front: seq<Happening>, h: Happening, id: int, outcome: Outcome)
    ensures DecidedBy(front + [h], id, outcome)
      <==> DecidedBy(front, id, outcome) || (StillWaits(front, id) && Decides(h, id, outcome))
  {
    var hs := front + [h];
    if DecidedBy(hs, id, outcome) {
      var made, decided :| 0 <= made < decided < |hs| && hs[made] == Asked(id) && Decides(hs[decided], id, outcome)
        && forall k | made < k < decided :: !Touches(hs[k], id);
      assert front[made] == Asked(id);
      assert forall k | 0 <= k < |front| :: front[k] == hs[k];
    }
    if DecidedBy(front, id, outcome) {
      var made, decided :| 0 <= made < decided < |front| && front[made] == Asked(id) && Decides(front[decided], id, outcome)
        && forall k | made < k < decided :: !Touches(front[k], id);
      assert hs[made] == Asked(id) && Decides(hs[decided], id, outcome);
    }
    if StillWaits(front, id) && Decides(h, id, outcome) {
      var made :| 0 <= made < |front| && front[made] == Asked(id) && forall k | made < k < |front| :: !Touches(front[k], id);
      assert hs[made] == Asked(id) && Decides(hs[|front|], id, outcome);
    }
  }

  /** A request that was made is not made again. */
  lemma MadeOnce(front: seq<Happening>, h: Happening, nextId: nat, id: int)
    requires AskedBelow(front + [h], nextId) && h == Asked(id)
    ensures !StillWaits(front, id) && forall outcome :: !DecidedBy(front, id, outcome)
  {
    var hs := front + [h];
    assert hs[|front|] == h;
    assert forall k | 0 <= k < |front| :: front[k] == hs[k];
  }

  // ---- the client keeps to it ----

  /** The client waits for and has settled exactly what the happenings say. */
  ghost predicate Follows(c: Client, hs: seq<Happening>) {
    && c.nextId >= 1 && AskedBelow(hs, c.nextId)
    && (forall k | 1 <= k < c.nextId :: FateOf(hs, k) != Unasked)
    && (forall j, k | 0 <= j < k < |c.pending| :: c.pending[j] != c.pending[k])
    && (forall id :: id in c.pending <==> FateOf(hs, id) == Waiting)
    && (forall id, outcome :: Settlement(id, outcome) in c.settled <==> FateOf(hs, id) == Decided(outcome))
  }

  lemma FateStep(hs: seq<Happening>, h: Happening, id: int)
    ensures FateOf(hs + [h], id) == NextFate(FateOf(hs, id), h, id)
  {
    assert (hs + [h])[..|hs|] == hs;
  }

  lemma BelowPush(hs: seq<Happening>, h: Happening, nextId: nat)
    requires AskedBelow(hs, nextId)
    ensures !h.Asked? ==> AskedBelow(hs + [h], nextId)
    ensures h == Asked(nextId) && nextId >= 1 ==> AskedBelow(hs + [h], nextId + 1)
  {
  }

  lemma {:induction false} RemoveLeaves(ids: seq<int>, id: int)
    requires forall j, k | 0 <= j < k < |ids| :: ids[j] != ids[k]
    ensures var left := Remove(ids, id);
      && (forall x :: x in left <==> x in ids && x != id)
      && (forall j, k | 0 <= j < k < |left| :: left[j] != left[k])
  {
    if ids != [] && ids[0] != id {
      RemoveLeaves(ids[1..], id);
      var rest := Remove(ids[1..], id);
      assert forall x :: x in ids <==> x == ids[0] || x in ids[1..];
      assert ids[0] !in ids[1..];
    } else if ids != [] {
      assert forall x :: x in ids <==> x == ids[0] || x in ids[1..];
      assert ids[0] !in ids[1..];
    }
  }

  /** One request is decided. */
  lemma SettlePush(c: Client, hs: seq<Happening>, h: Happening, id: int)
    requires Follows(c, hs) && (h.Answered? || h.Refused? || h.RanOut?) && h.id == id
    ensures Follows(Settle(c, id, OutcomeOf(h)), hs + [h])
  {
    hide FateOf, AskedBelow, Remove;
    var after := Settle(c, id, OutcomeOf(h));
    BelowPush(hs, h, c.nextId);
    RemoveLeaves(c.pending, id);
    forall x
      ensures FateOf(hs + [h], x) == if x == id && FateOf(hs, x) == Waiting then Decided(OutcomeOf(h)) else FateOf(hs, x)
    {
      FateStep(hs, h, x);
    }
    assert forall x :: x in after.pending <==> x in c.pending && x != id;
    assert forall s :: s in after.settled <==> s in c.settled || (id in c.pending && s == Settlement(id, OutcomeOf(h)));
  }

  lemma AskPush(c: Client, hs: seq<Happening>, parse: seq<byte> -> Reply)
    requires Follows(c, hs)
    ensures Follows(Step(c, Request, parse), hs + [Asked(c.nextId)])
  {
    hide FateOf, AskedBelow;
    var h, after := Asked(c.nextId), Step(c, Request, parse);
    BelowPush(hs, h, c.nextId);
    NotAsked(hs, c.nextId);
    forall x
      ensures FateOf(hs + [h], x) == if x == c.nextId then Waiting else FateOf(hs, x)
    {
      FateStep(hs, h, x);
    }
    assert forall x :: x in after.pending <==> x in c.pending || x == c.nextId;
    assert c.nextId !in c.pending;
  }

  lemma {:induction false} NotAsked(hs: seq<Happening>, nextId: nat)
    requires AskedBelow(hs, nextId)
    ensures FateOf(hs, nextId) == Unasked
  {
    hide Touches, OutcomeOf;
    if hs != [] {
      var n := |hs| - 1;
      assert hs == hs[..n] + [hs[n]];
      BelowFront(hs[..n], hs[n], nextId);
      NotAsked(hs[..n], nextId);
    }
  }

  lemma GonePush(c: Client, hs: seq<Happening>, parse: seq<byte> -> Reply)
    requires Follows(c, hs)
    ensures Follows(Step(c, Exit, parse), hs + [Gone])
  {
    hide FateOf, AskedBelow;
    var after := Step(c, Exit, parse);
    BelowPush(hs, Gone, c.nextId);
    forall x
      ensures FateOf(hs + [Gone], x) == if FateOf(hs, x) == Waiting then Decided(Exited) else FateOf(hs, x)
    {
      FateStep(hs, Gone, x);
    }
    ExitSettles(c.pending);
    assert forall s :: s in after.settled <==> s in c.settled || s in AllExited(c.pending);
  }

  lemma ExitSettles(ids: seq<int>)
    ensures forall id, outcome :: Settlement(id, outcome) in AllExited(ids) <==> id in ids && outcome == Exited
  {
    forall id | id in ids
      ensures Settlement(id, Exited) in AllExited(ids)
    {
      var k :| 0 <= k < |ids| && ids[k] == id;
      assert AllExited(ids)[k] == Settlement(id, Exited);
    }
  }

  lemma {:induction false} AnswersPush(c: Client, hs: seq<Happening>, messages: seq<Option<seq<byte>>>,
                                      parse: seq<byte> -> Reply)
    requires Follows(c, hs)
    ensures Follows(ReceiveAll(c, messages, parse), hs + AnswersIn(messages, parse))
    decreases |messages|
  {
    hide Follows, Settle;
    if messages == [] {
      assert hs + [] == hs;
    } else {
      var m := messages[0];
      var reply := if m.Some? then parse(m.value) else Malformed;
      var rest := AnswersIn(messages[1..], parse);
      if reply.Result? {
        SettlePush(c, hs, Answered(reply.id, reply.result), reply.id);
        AnswersPush(Receive(c, m, parse), hs + [Answered(reply.id, reply.result)], messages[1..], parse);
        assert hs + [Answered(reply.id, reply.result)] + rest == hs + ([Answered(reply.id, reply.result)] + rest);
      } else if reply.Failure? {
        SettlePush(c, hs, Refused(reply.id, reply.message), reply.id);
        AnswersPush(Receive(c, m, parse), hs + [Refused(reply.id, reply.message)], messages[1..], parse);
        assert hs + [Refused(reply.id, reply.message)] + rest == hs + ([Refused(reply.id, reply.message)] + rest);
      } else {
        AnswersPush(c, hs, messages[1..], parse);
        assert [] + rest == rest;
      }
    }
  }

  lemma BufferIsNotAnswered(c: Client, hs: seq<Happening>, buffer: seq<byte>)
    requires Follows(c, hs)
    ensures Follows(c.(buffer := buffer), hs)
  {
  }

  lemma {:induction false} RunFollows(c: Client, hs: seq<Happening>, es: seq<Event>, parse: seq<byte> -> Reply)
    requires Follows(c, hs)
    ensures Follows(Run(c, es, parse), hs + Happenings(c.buffer, c.nextId, es, parse))
    decreases |es|
  {
    hide Follows, ReceiveAll, Messages, AnswersIn, Settle;
    if es == [] {
      assert hs + [] == hs;
    } else {
      var next, rest := Step(c, es[0], parse), Happenings(Step(c, es[0], parse).buffer, Step(c, es[0], parse).nextId, es[1..], parse);
      match es[0] {
        case Request =>
          AskPush(c, hs, parse);
          RunFollows(next, hs + [Asked(c.nextId)], es[1..], parse);
          assert hs + [Asked(c.nextId)] + rest == hs + ([Asked(c.nextId)] + rest);
        case Data(chunk) =>
          var (messages, left) := Messages(c.buffer + chunk);
          BufferIsNotAnswered(c, hs, left);
          AnswersPush(c.(buffer := left), hs, messages, parse);
          ReceiveAllIgnoresBuffer(c, messages, left, parse);
          RepliesKeepIds(c.(buffer := left), messages, parse);
          RunFollows(next, hs + AnswersIn(messages, parse), es[1..], parse);
          assert hs + AnswersIn(messages, parse) + rest == hs + (AnswersIn(messages, parse) + rest);
        case Timeout(id) =>
          SettlePush(c, hs, RanOut(id), id);
          SettleKeepsRest(c, id);
          RunFollows(next, hs + [RanOut(id)], es[1..], parse);
          assert hs + [RanOut(id)] + rest == hs + ([RanOut(id)] + rest);
        case Exit =>
          GonePush(c, hs, parse);
          RunFollows(next, hs + [Gone], es[1..], parse);
          assert hs + [Gone] + rest == hs + ([Gone] + rest);
      }
    }
  }

  lemma SettleKeepsRest(c: Client, id: int)
    ensures Settle(c, id, TimedOut).buffer == c.buffer && Settle(c, id, TimedOut).nextId == c.nextId
  {
  }

  lemma StartFollows()
    ensures Follows(START, [])
  {
  }

  /** A request settles with an outcome if and only if the first happening behind it that decides it decides so, and it
      waits as long as there is none. */
  lemma SettlesAsDecided(es: seq<Event>, parse: seq<byte> -> Reply)
    ensures var c, hs := Run(START, es, parse), Happenings([], 1, es, parse);
      && (forall id, outcome :: Settlement(id, outcome) in c.settled <==> DecidedBy(hs, id, outcome))
      && (forall id :: id in c.pending <==> StillWaits(hs, id))
  {
    hide Run, Happenings, FateOf, DecidedBy, StillWaits, AskedBelow;
    StartFollows();
    RunFollows(START, [], es, parse);
    var c, hs := Run(START, es, parse), Happenings([], 1, es, parse);
    assert [] + hs == hs;
    forall id, outcome
      ensures Settlement(id, outcome) in c.settled <==> DecidedBy(hs, id, outcome)
    {
      FateMeans(hs, c.nextId, id);
      assert Means(hs, id, Decided(outcome)) <==> FateOf(hs, id) == Decided(outcome);
    }
    forall id
      ensures id in c.pending <==> StillWaits(hs, id)
    {
      FateMeans(hs, c.nextId, id);
      assert Means(hs, id, Waiting) <==> FateOf(hs, id) == Waiting;
    }
  }
}
