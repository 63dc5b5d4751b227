/** What every event keeps, and so what holds of every transcript the program compiles. */
module TranscriptInvariants {
  import opened Prelude
  import opened Events
  import opened Reducer

  // ---- the shape of one message ----

  function Slots(blocks: seq<BlockView>): nat {
    if blocks == [] then 0 else Slots(blocks[..|blocks| - 1]) + if blocks[|blocks| - 1].ToolSlot? then 1 else 0
  }

  function BlockText(blocks: seq<BlockView>): string {
    if blocks == [] then ""
    else BlockText(blocks[..|blocks| - 1]) + if blocks[|blocks| - 1].TextBlock? then blocks[|blocks| - 1].text else ""
  }

  predicate DistinctToolIds(tools: seq<ToolView>) {
    forall j, k | 0 <= j < k < |tools| :: tools[j].id != tools[k].id
  }

  predicate TextBlocksOk(blocks: seq<BlockView>) {
    && (forall k | 0 <= k < |blocks| :: blocks[k].TextBlock? ==> blocks[k].text != "")
    && (forall k | 0 < k < |blocks| :: blocks[k].TextBlock? ==> blocks[k - 1].ToolSlot?)
  }

  predicate Shape(m: MessageView) {
    if m.role.Assistant? then
      && Slots(m.blocks) == |m.tools|
      && DistinctToolIds(m.tools)
      && TextBlocksOk(m.blocks)
      && BlockText(m.blocks) == m.text
    else m.tools == [] && m.blocks == []
  }

  lemma AppendBlock(blocks: seq<BlockView>, b: BlockView)
    ensures Slots(blocks + [b]) == Slots(blocks) + if b.ToolSlot? then 1 else 0
    ensures BlockText(blocks + [b]) == BlockText(blocks) + if b.TextBlock? then b.text else ""
  {
    assert (blocks + [b])[..|blocks|] == blocks;
  }

  lemma AppendTextBlocksOk(blocks: seq<BlockView>, delta: string)
    requires delta != "" && TextBlocksOk(blocks)
    ensures TextBlocksOk(AppendTextBlock(blocks, delta))
  {
    var n := |blocks|;
    var r := AppendTextBlock(blocks, delta);
    if n > 0 && blocks[n - 1].TextBlock? {
      assert r[n - 1].text != "";
      assert forall k | 0 <= k < n - 1 :: r[k] == blocks[k];
    }
  }

  lemma AppendTextBlockSums(blocks: seq<BlockView>, delta: string)
    ensures Slots(AppendTextBlock(blocks, delta)) == Slots(blocks)
    ensures BlockText(AppendTextBlock(blocks, delta)) == BlockText(blocks) + delta
  {
    var n := |blocks|;
    if n > 0 && blocks[n - 1].TextBlock? {
      var was := blocks[n - 1].text;
      var head := blocks[..n - 1];
      assert AppendTextBlock(blocks, delta) == head + [TextBlock(was + delta)];
      AppendBlock(head, TextBlock(was + delta));
      assert BlockText(head) + (was + delta) == BlockText(head) + was + delta;
    } else {
      AppendBlock(blocks, TextBlock(delta));
    }
  }

  lemma AppendTextShape(m: MessageView, delta: string)
    requires m.role.Assistant? && Shape(m)
    ensures Shape(AppendText(m, delta))
  {
    if delta != "" {
      AppendTextBlocksOk(m.blocks, delta);
      AppendTextBlockSums(m.blocks, delta);
    }
  }

  lemma UpsertToolShape(m: MessageView, e: RunEvent)
    requires m.role.Assistant? && Shape(m)
    ensures Shape(UpsertTool(m, e))
  {
    AppendBlock(m.blocks, ToolSlot);
    assert Refresh(NewTool(e), e).id == e.ToolKey();
    var k := MatchTool(m.tools, e);
    if k.Some? {
      assert Refresh(m.tools[k.value], e).id == e.ToolKey();
    }
  }

  // ---- one reply bubble per turn ----

  function Roles(ms: seq<MessageView>): (r: seq<Role>)
    ensures |r| == |ms| && forall k | 0 <= k < |r| :: r[k] == ms[k].role
  {
    seq(|ms|, k requires 0 <= k < |ms| => ms[k].role)
  }

  /** Since the last user message there already is a bubble. */
  predicate TurnHasBubble(rs: seq<Role>) {
    rs != [] && (rs[|rs| - 1].Assistant? || (rs[|rs| - 1].Setup? && TurnHasBubble(rs[..|rs| - 1])))
  }

  predicate OneBubble(rs: seq<Role>) {
    rs == [] || (OneBubble(rs[..|rs| - 1]) && (rs[|rs| - 1].Assistant? ==> !TurnHasBubble(rs[..|rs| - 1])))
  }

  lemma AppendRole(rs: seq<Role>, r: Role)
    ensures OneBubble(rs + [r]) == (OneBubble(rs) && (r.Assistant? ==> !TurnHasBubble(rs)))
    ensures TurnHasBubble(rs + [r]) == (r.Assistant? || (r.Setup? && TurnHasBubble(rs)))
  {
    assert (rs + [r])[..|rs|] == rs;
  }

  lemma {:induction false} RemoveBubbleRole(rs: seq<Role>, i: nat)
    requires i < |rs| && rs[i].Assistant?
    requires OneBubble(rs)
    ensures OneBubble(Without(rs, i))
    ensures TurnHasBubble(Without(rs, i)) ==> TurnHasBubble(rs)
  {
    var n := |rs| - 1;
    if i == n {
      assert Without(rs, i) == rs[..n];
    } else {
      RemoveBubbleRole(rs[..n], i);
      assert Without(rs, i) == Without(rs[..n], i) + [rs[n]];
      AppendRole(Without(rs[..n], i), rs[n]);
    }
  }

  lemma {:induction false} UserClosedTurn(rs: seq<Role>, i: nat)
    requires i < |rs| && rs[i].Assistant? && !TurnHasBubble(rs)
    ensures exists k | i < k < |rs| :: rs[k].User?
  {
    var n := |rs| - 1;
    if rs[n].User? {
    } else {
      UserClosedTurn(rs[..n], i);
      var k :| i < k < n && rs[..n][k].User?;
      assert rs[k].User?;
    }
  }

  /** Between any two reply bubbles the user spoke. */
  ghost predicate UserBetweenBubbles(rs: seq<Role>) {
    forall i, j | 0 <= i < j < |rs| && rs[i].Assistant? && rs[j].Assistant? :: exists k | i < k < j :: rs[k].User?
  }

  lemma {:induction false} OneBubbleMeaning(rs: seq<Role>)
    requires OneBubble(rs)
    ensures UserBetweenBubbles(rs)
  {
    if rs != [] {
      var n := |rs| - 1;
      OneBubbleMeaning(rs[..n]);
      forall i, j | 0 <= i < j < |rs| && rs[i].Assistant? && rs[j].Assistant?
        ensures exists k | i < k < j :: rs[k].User?
      {
        if j < n {
          assert rs[..n][i].Assistant? && rs[..n][j].Assistant?;
          var k :| i < k < j && rs[..n][k].User?;
          assert rs[k].User?;
        } else {
          UserClosedTurn(rs[..n], i);
          var k :| i < k < n && rs[..n][k].User?;
          assert rs[k].User?;
        }
      }
    }
  }

  lemma {:induction false} LastTurnIsTurnBubble(ms: seq<MessageView>)
    ensures LastTurnAssistant(ms).Some? == TurnHasBubble(Roles(ms))
  {
    if ms != [] {
      LastTurnIsTurnBubble(ms[..|ms| - 1]);
      assert Roles(ms)[..|ms| - 1] == Roles(ms[..|ms| - 1]);
    }
  }

  // ---- what a transcript adds up to ----

  /** The characters of a text that are not whitespace, with their multiplicity. */
  function Ink(text: string): multiset<char> {
    if text == "" then multiset{}
    else Ink(text[..|text| - 1]) + if IsSpace(text[|text| - 1]) then multiset{} else multiset{text[|text| - 1]}
  }

  lemma {:induction false} InkConcat(a: string, b: string)
    ensures Ink(a + b) == Ink(a) + Ink(b)
  {
    if b == "" {
      assert a + b == a;
    } else {
      assert (a + b)[..|a + b| - 1] == a + b[..|b| - 1];
      InkConcat(a, b[..|b| - 1]);
    }
  }

  lemma BlankPush(text: string, c: char)
    ensures Blank(text + [c]) <==> Blank(text) && IsSpace(c)
    ensures Ink(text + [c]) == if IsSpace(c) then Ink(text) else Ink(text) + multiset{c}
  {
    assert (text + [c])[..|text|] == text;
    if Blank(text + [c]) {
      assert forall i | 0 <= i < |text| :: text[i] == (text + [c])[i];
      assert (text + [c])[|text|] == c;
    }
  }

  lemma {:induction false} BlankHasNoInk(text: string)
    ensures Blank(text) <==> Ink(text) == multiset{}
  {
    if text != "" {
      hide Blank, Ink;
      var n := |text| - 1;
      BlankHasNoInk(text[..n]);
      assert text == text[..n] + [text[n]];
      BlankPush(text[..n], text[n]);
      if !IsSpace(text[n]) {
        assert text[n] in Ink(text);
      }
    }
  }

  /** The follow-ups delivered, the reply characters shown and the tool records kept. */
  datatype Tally = Tally(followUps: multiset<string>, ink: multiset<char>, tools: nat) {
    function Add(other: Tally): Tally {
      Tally(followUps + other.followUps, ink + other.ink, tools + other.tools)
    }

    function Gain(moreInk: multiset<char>, moreTools: nat): Tally {
      Tally(followUps, ink + moreInk, tools + moreTools)
    }
  }

  const NOTHING := Tally(multiset{}, multiset{}, 0)

  function TallyOf(m: MessageView): Tally {
    match m.role
    case User => NOTHING.(followUps := if m.followUpId.GetOr("") != "" then multiset{m.followUpId.value} else multiset{})
    case Assistant => Tally(multiset{}, Ink(m.text), |m.tools|)
    case Setup => NOTHING
  }

  function TallyAll(ms: seq<MessageView>): Tally {
    if ms == [] then NOTHING else TallyOf(ms[0]).Add(TallyAll(ms[1..]))
  }

  lemma AddAssociative(a: Tally, b: Tally, c: Tally)
    ensures a.Add(b).Add(c) == a.Add(b.Add(c))
  {
    assert a.followUps + b.followUps + c.followUps == a.followUps + (b.followUps + c.followUps);
    assert a.ink + b.ink + c.ink == a.ink + (b.ink + c.ink);
  }

  lemma AddNothing(a: Tally)
    ensures a.Add(NOTHING) == a && NOTHING.Add(a) == a
  {
    assert multiset{} + a.followUps == a.followUps;
    assert multiset{} + a.ink == a.ink;
    assert a.followUps + multiset{} == a.followUps;
    assert a.ink + multiset{} == a.ink;
  }

  lemma AddGain(a: Tally, b: Tally, c: Tally, moreInk: multiset<char>, moreTools: nat)
    ensures a.Add(b.Gain(moreInk, moreTools)).Add(c) == a.Add(b).Add(c).Gain(moreInk, moreTools)
  {
    assert a.ink + (b.ink + moreInk) + c.ink == a.ink + b.ink + c.ink + moreInk;
  }

  lemma {:induction false} TallyConcat(a: seq<MessageView>, b: seq<MessageView>)
    ensures TallyAll(a + b) == TallyAll(a).Add(TallyAll(b))
  {
    if a == [] {
      assert a + b == b;
      AddNothing(TallyAll(b));
    } else {
      assert (a + b)[1..] == a[1..] + b;
      TallyConcat(a[1..], b);
      AddAssociative(TallyOf(a[0]), TallyAll(a[1..]), TallyAll(b));
    }
  }

  lemma TallyPush(ms: seq<MessageView>, m: MessageView)
    ensures TallyAll(ms + [m]) == TallyAll(ms).Add(TallyOf(m))
  {
    TallyConcat(ms, [m]);
    AddNothing(TallyOf(m));
  }

  lemma SplitLast(ms: seq<MessageView>)
    requires ms != []
    ensures TallyAll(ms) == TallyAll(ms[..|ms| - 1]).Add(TallyOf(ms[|ms| - 1]))
  {
    assert ms == ms[..|ms| - 1] + [ms[|ms| - 1]];
    TallyPush(ms[..|ms| - 1], ms[|ms| - 1]);
  }

  lemma TallyAround(ms: seq<MessageView>, i: nat, m: MessageView)
    requires i < |ms|
    ensures TallyAll(ms[i := m]) == TallyAll(ms[..i]).Add(TallyOf(m)).Add(TallyAll(ms[i + 1..]))
  {
    assert ms[i := m] == ms[..i] + [m] + ms[i + 1..];
    TallyConcat(ms[..i] + [m], ms[i + 1..]);
    TallyPush(ms[..i], m);
  }

  lemma TallyEdit(ms: seq<MessageView>, i: nat, m: MessageView, moreInk: multiset<char>, moreTools: nat)
    requires i < |ms| && TallyOf(m) == TallyOf(ms[i]).Gain(moreInk, moreTools)
    ensures TallyAll(ms[i := m]) == TallyAll(ms).Gain(moreInk, moreTools)
  {
    TallyAround(ms, i, m);
    TallyAround(ms, i, ms[i]);
    assert ms[i := ms[i]] == ms;
    AddGain(TallyAll(ms[..i]), TallyOf(ms[i]), TallyAll(ms[i + 1..]), moreInk, moreTools);
  }

  lemma TallyWithout(ms: seq<MessageView>, i: nat)
    requires i < |ms| && TallyOf(ms[i]) == NOTHING
    ensures TallyAll(Without(ms, i)) == TallyAll(ms)
  {
    var before, after := TallyAll(ms[..i]), TallyAll(ms[i + 1..]);
    assert TallyAll(Without(ms, i)) == before.Add(after) by {
      TallyConcat(ms[..i], ms[i + 1..]);
    }
    assert TallyAll(ms) == before.Add(NOTHING).Add(after) by {
      TallyAround(ms, i, ms[i]);
      assert ms[i := ms[i]] == ms;
    }
    AddNothing(before);
  }

  lemma BlankBubble(m: MessageView)
    requires m.role.Assistant? && !HasContent(m)
    ensures TallyOf(m) == NOTHING
  {
    BlankHasNoInk(m.text);
  }

  // ---- the invariant ----

  predicate NoRepeat(xs: multiset<string>) {
    forall f | f in xs :: xs[f] == 1
  }

  predicate ListOk(ms: seq<MessageView>) {
    && (forall k | 0 <= k < |ms| :: Shape(ms[k]))
    && OneBubble(Roles(ms))
    && NoRepeat(TallyAll(ms).followUps)
  }

  predicate Inv(s: TranscriptView) {
    OpenOk(s) && ListOk(s.messages)
  }

  /** Change one message in place. */
  lemma EditKeeps(ms: seq<MessageView>, i: nat, m: MessageView, moreInk: multiset<char>, moreTools: nat)
    requires ListOk(ms) && i < |ms| && Shape(m) && m.role == ms[i].role
    requires TallyOf(m) == TallyOf(ms[i]).Gain(moreInk, moreTools)
    ensures ListOk(ms[i := m])
    ensures TallyAll(ms[i := m]) == TallyAll(ms).Gain(moreInk, moreTools)
  {
    TallyEdit(ms, i, m, moreInk, moreTools);
    assert Roles(ms[i := m]) == Roles(ms);
  }

  lemma BubblesAfterPush(ms: seq<MessageView>, m: MessageView)
    ensures OneBubble(Roles(ms + [m])) == (OneBubble(Roles(ms)) && (m.role.Assistant? ==> LastTurnAssistant(ms).None?))
    ensures TurnHasBubble(Roles(ms + [m])) == (m.role.Assistant? || (m.role.Setup? && TurnHasBubble(Roles(ms))))
  {
    assert Roles(ms + [m]) == Roles(ms) + [m.role];
    AppendRole(Roles(ms), m.role);
    LastTurnIsTurnBubble(ms);
  }

  lemma BubblesAfterRemoval(ms: seq<MessageView>, i: nat)
    requires i < |ms| && ms[i].role.Assistant? && OneBubble(Roles(ms))
    ensures OneBubble(Roles(Without(ms, i)))
  {
    assert Roles(Without(ms, i)) == Without(Roles(ms), i);
    RemoveBubbleRole(Roles(ms), i);
  }

  lemma NoRepeatUnion(a: multiset<string>, b: multiset<string>)
    requires NoRepeat(a) && NoRepeat(b) && a !! b
    ensures NoRepeat(a + b)
  {
  }

  lemma PushKeeps(ms: seq<MessageView>, m: MessageView)
    requires ListOk(ms) && Shape(m)
    requires m.role.Assistant? ==> LastTurnAssistant(ms).None?
    requires TallyOf(m).followUps !! TallyAll(ms).followUps
    ensures ListOk(ms + [m])
    ensures TallyAll(ms + [m]) == TallyAll(ms).Add(TallyOf(m))
  {
    BubblesAfterPush(ms, m);
    TallyPush(ms, m);
    NoRepeatUnion(TallyAll(ms).followUps, TallyOf(m).followUps);
  }

  lemma WithoutKeeps(ms: seq<MessageView>, i: nat)
    requires ListOk(ms) && i < |ms| && ms[i].role.Assistant? && !HasContent(ms[i])
    ensures ListOk(Without(ms, i))
    ensures TallyAll(Without(ms, i)) == TallyAll(ms)
  {
    BubblesAfterRemoval(ms, i);
    BlankBubble(ms[i]);
    TallyWithout(ms, i);
  }

  lemma {:induction false} KeepContentShapes(ms: seq<MessageView>)
    requires forall k | 0 <= k < |ms| :: Shape(ms[k])
    ensures forall k | 0 <= k < |KeepContent(ms)| :: Shape(KeepContent(ms)[k])
  {
    if ms != [] {
      KeepContentShapes(ms[..|ms| - 1]);
    }
  }

  lemma {:induction false} KeepContentTally(ms: seq<MessageView>)
    ensures TallyAll(KeepContent(ms)) == TallyAll(ms)
  {
    hide TallyAll, TallyOf, HasContent, KeepContent;
    if ms == [] {
      NoContent();
    } else {
      var n := |ms| - 1;
      KeepContentTally(ms[..n]);
      SplitLast(ms);
      KeepContentPush(ms, n);
      assert ms[..n + 1] == ms;
      if ms[n].role.Assistant? && !HasContent(ms[n]) {
        BlankBubble(ms[n]);
        AddNothing(TallyAll(ms[..n]));
        assert KeepContent(ms[..n]) + [] == KeepContent(ms[..n]);
      } else {
        TallyPush(KeepContent(ms[..n]), ms[n]);
      }
    }
  }

  lemma {:induction false} KeepContentBubbles(ms: seq<MessageView>)
    requires OneBubble(Roles(ms))
    ensures OneBubble(Roles(KeepContent(ms)))
    ensures TurnHasBubble(Roles(KeepContent(ms))) ==> TurnHasBubble(Roles(ms))
  {
    if ms != [] {
      var n := |ms| - 1;
      var head := KeepContent(ms[..n]);
      assert ms == ms[..n] + [ms[n]];
      BubblesAfterPush(ms[..n], ms[n]);
      KeepContentBubbles(ms[..n]);
      LastTurnIsTurnBubble(ms[..n]);
      LastTurnIsTurnBubble(head);
      BubblesAfterPush(head, ms[n]);
      assert KeepContent(ms) == if ms[n].role.Assistant? && !HasContent(ms[n]) then head else head + [ms[n]];
    }
  }

  lemma KeepContentKeeps(ms: seq<MessageView>)
    requires ListOk(ms)
    ensures ListOk(KeepContent(ms))
    ensures TallyAll(KeepContent(ms)) == TallyAll(ms)
  {
    KeepContentShapes(ms);
    KeepContentTally(ms);
    KeepContentBubbles(ms);
  }

  /** Change every message in place without adding anything. */
  lemma {:induction false} TallyPointwise(ms: seq<MessageView>, ns: seq<MessageView>)
    requires |ms| == |ns| && forall k | 0 <= k < |ms| :: TallyOf(ns[k]) == TallyOf(ms[k])
    ensures TallyAll(ns) == TallyAll(ms)
  {
    if ms != [] {
      TallyPointwise(ms[1..], ns[1..]);
    }
  }

  lemma PointwiseKeeps(ms: seq<MessageView>, ns: seq<MessageView>)
    requires ListOk(ms) && |ms| == |ns|
    requires forall k | 0 <= k < |ms| :: TallyOf(ns[k]) == TallyOf(ms[k]) && ns[k].role == ms[k].role && Shape(ns[k])
    ensures ListOk(ns)
    ensures TallyAll(ns) == TallyAll(ms)
  {
    TallyPointwise(ms, ns);
    assert Roles(ns) == Roles(ms);
  }
}
