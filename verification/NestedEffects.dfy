/**
 What an event of a nested subagent makes of a transcript, said without the steps that make it (findParentSubagent and
 upsertNestedStep in packages/contracts/src/transcript.ts).
 */
module NestedEffects {
  import opened Prelude
  import opened Events
  import opened Reducer
  import opened TranscriptSafety
  import opened EventEffects
  import opened ToolEffects
  import opened SubagentSteps

  // ---- the parent ----

  predicate IsSubagent(tool: ToolView, runningOnly: bool) {
    tool.name == "neo_subagent" && (runningOnly ==> tool.status.Running?)
  }

  predicate NoSubagent(tools: seq<ToolView>, runningOnly: bool) {
    forall k | 0 <= k < |tools| :: !IsSubagent(tools[k], runningOnly)
  }

  predicate NoSubagentIn(ms: seq<MessageView>, runningOnly: bool) {
    forall j | 0 <= j < |ms| && ms[j].role.Assistant? :: NoSubagent(ms[j].tools, runningOnly)
  }

  /** The last subagent call of the newest bubble that has one. */
  predicate NewestSubagent(ms: seq<MessageView>, i: nat, k: nat, runningOnly: bool) {
    && i < |ms| && ms[i].role.Assistant? && k < |ms[i].tools| && IsSubagent(ms[i].tools[k], runningOnly)
    && (forall j | k < j < |ms[i].tools| :: !IsSubagent(ms[i].tools[j], runningOnly))
    && NoSubagentIn(ms[i + 1..], runningOnly)
  }

  /** The newest subagent call that runs, or the newest of all when none does. */
  predicate IsParent(ms: seq<MessageView>, i: nat, k: nat) {
    NewestSubagent(ms, i, k, true) || (NoSubagentIn(ms, true) && NewestSubagent(ms, i, k, false))
  }

  lemma HoldsIff(m: MessageView, runningOnly: bool)
    ensures HoldsSubagent(m, runningOnly) <==> m.role.Assistant? && !NoSubagent(m.tools, runningOnly)
    ensures match LastSubagentTool(m.tools, runningOnly)
            case None => NoSubagent(m.tools, runningOnly)
            case Some(k) =>
              && IsSubagent(m.tools[k], runningOnly)
              && forall j | k < j < |m.tools| :: !IsSubagent(m.tools[j], runningOnly)
  {
    var tools := m.tools;
    assert forall k | 0 <= k < |tools| :: IsSubagent(tools[k], runningOnly) <==> SubagentTool(tools[k], runningOnly);
  }

  lemma BubbleIs(ms: seq<MessageView>, runningOnly: bool)
    ensures match BubbleWithSubagent(ms, runningOnly)
            case None => NoSubagentIn(ms, runningOnly)
            case Some(i) =>
              && LastSubagentTool(ms[i].tools, runningOnly).Some?
              && NewestSubagent(ms, i, LastSubagentTool(ms[i].tools, runningOnly).value, runningOnly)
  {
    hide NoSubagent, LastSubagentTool, HoldsSubagent;
    forall j | 0 <= j < |ms|
      ensures HoldsSubagent(ms[j], runningOnly) <==> ms[j].role.Assistant? && !NoSubagent(ms[j].tools, runningOnly)
    {
      HoldsIff(ms[j], runningOnly);
    }
    var found := BubbleWithSubagent(ms, runningOnly);
    if found.Some? {
      HoldsIff(ms[found.value], runningOnly);
      var rest := ms[found.value + 1..];
      assert forall j | 0 <= j < |rest| :: rest[j] == ms[found.value + 1 + j];
    }
  }

  lemma OneNewest(ms: seq<MessageView>, i: nat, k: nat, runningOnly: bool)
    requires NewestSubagent(ms, i, k, runningOnly)
    ensures BubbleWithSubagent(ms, runningOnly) == Some(i) && LastSubagentTool(ms[i].tools, runningOnly) == Some(k)
    ensures !NoSubagentIn(ms, runningOnly)
  {
    hide LastSubagentTool, HoldsSubagent;
    forall j | 0 <= j < |ms|
      ensures HoldsSubagent(ms[j], runningOnly) <==> ms[j].role.Assistant? && !NoSubagent(ms[j].tools, runningOnly)
    {
      HoldsIff(ms[j], runningOnly);
    }
    HoldsIff(ms[i], runningOnly);
    assert !NoSubagent(ms[i].tools, runningOnly);
    forall j | i < j < |ms|
      ensures ms[j].role.Assistant? ==> NoSubagent(ms[j].tools, runningOnly)
    {
      assert ms[i + 1..][j - i - 1] == ms[j];
    }
  }

  // ---- the step ----

  predicate StepWritten(before: Step, e: RunEvent, after: Step) {
    && after.id == before.id && after.name == e.data.toolName.GetOr("tool")
    && after.agent == (if e.data.subagent.GetOr("") != "" then e.data.subagent.value else "subagent")
    && after.subagentId == (if e.data.subagentId.GetOr("") != "" then e.data.subagentId else before.subagentId)
    && after.args == (if e.data.args.Some? then e.data.args else before.args)
    && after.output == (if e.data.output.Some? then e.data.output else before.output)
    && (after.status.Done? <==> before.status.Done? || e.kind.ToolEnd?)
    && after.isError == (if e.kind.ToolEnd? then Some(e.data.isError == Some(true)) else before.isError)
  }

  predicate IsBlankStep(step: Step, e: RunEvent) {
    && KeyIs(e, step.id) && step.subagentId == e.data.subagentId
    && step.status.Running? && step.isError.None? && step.args.None? && step.output.None?
  }

  /** The event is written into the first step of its key, or into a new last one. */
  ghost predicate StepsWritten(before: seq<Step>, e: RunEvent, all: seq<Step>) {
    if exists k :: 0 <= k < |before| && KeyIs(e, before[k].id) then
      exists k: nat | k < |before| ::
        && KeyIs(e, before[k].id) && (forall j | 0 <= j < k :: !KeyIs(e, before[j].id))
        && |all| == |before| && all == before[k := all[k]] && StepWritten(before[k], e, all[k])
    else
      && |all| == |before| + 1 && all[..|before|] == before
      && exists blank: Step :: IsBlankStep(blank, e) && StepWritten(blank, e, all[|before|])
  }

  lemma UpsertWrites(steps: seq<Step>, e: RunEvent)
    ensures StepsWritten(steps, e, UpsertStep(steps, e))
  {
    hide StepWritten;
    var found := StepById(steps, e.ToolKey());
    if found.Some? {
      RefreshStepWrites(steps[found.value], e);
      assert KeyIs(e, steps[found.value].id);
    } else {
      RefreshStepWrites(NewStep(e), e);
      assert IsBlankStep(NewStep(e), e);
    }
  }

  lemma RefreshStepWrites(step: Step, e: RunEvent)
    ensures StepWritten(step, e, RefreshStep(step, e))
  {
  }

  // ---- forgetting steps past the limit ----

  /** `from` says which steps stay: at most forty, in their order; a finished one goes only after all finished ones before
      it, a running one only after every finished one and all running ones before it. */
  predicate Stay(all: seq<Step>, from: seq<nat>) {
    && |from| == (if |all| > 40 then 40 else |all|)
    && (forall k | 0 <= k < |from| :: from[k] < |all|)
    && (forall j, k | 0 <= j < k < |from| :: from[j] < from[k])
    && (forall i, j | 0 <= j < i < |all| && i !in from && all[j].status == all[i].status :: j !in from)
    && (forall i, j | 0 <= i < |all| && 0 <= j < |all| && i !in from && all[i].status.Running? && all[j].status.Done? ::
          j !in from)
  }

  predicate Picked(all: seq<Step>, from: seq<nat>, kept: seq<Step>) {
    |kept| == |from| && forall k | 0 <= k < |from| :: from[k] < |all| && kept[k] == all[from[k]]
  }

  lemma {:induction false} EvictedFrom(all: seq<Step>) returns (from: seq<nat>)
    ensures Stay(all, from) && Picked(all, from, EvictSteps(all))
    decreases |all|
  {
    hide EvictSteps, EvictOne, FirstDone, Stay, Picked;
    if |all| > MAX_SUBAGENT_STEPS {
      EvictOnce(all);
      var k := FirstDone(all).GetOr(0);
      var rest := EvictedFrom(EvictOne(all));
      from := Skipping(rest, k);
      StayBefore(all, k, rest);
      PickedBefore(all, k, rest, EvictSteps(all));
    } else {
      NothingToEvict(all);
      from := seq(|all|, k requires 0 <= k < |all| => k);
      AllStay(all, from);
    }
  }

  lemma AllStay(all: seq<Step>, from: seq<nat>)
    requires |all| <= 40 && |from| == |all| && forall k | 0 <= k < |from| :: from[k] == k
    ensures Stay(all, from) && Picked(all, from, all)
  {
    forall i | 0 <= i < |all|
      ensures i in from
    {
      assert from[i] == i;
    }
  }

  /** Places in a list without number `k`, as places in the list. */
  function Skipping(from: seq<nat>, k: nat): (r: seq<nat>)
    ensures |r| == |from| && forall j | 0 <= j < |r| :: r[j] == if from[j] < k then from[j] else from[j] + 1
  {
    seq(|from|, j requires 0 <= j < |from| => if from[j] < k then from[j] else from[j] + 1)
  }

  lemma SkippingHas(from: seq<nat>, k: nat, i: nat)
    ensures i in Skipping(from, k) <==> i != k && (if i < k then i in from else (i - 1) in from)
  {
    var r := Skipping(from, k);
    if i in r {
      var j :| 0 <= j < |r| && r[j] == i;
      assert from[j] in from;
    }
    if i < k && i in from {
      var j :| 0 <= j < |from| && from[j] == i;
      assert r[j] == i;
    }
    if i > k && i - 1 in from {
      var j :| 0 <= j < |from| && from[j] == i - 1;
      assert r[j] == i;
    }
  }

  lemma StayBefore(all: seq<Step>, k: nat, rest: seq<nat>)
    requires |all| > 40 && k == FirstDone(all).GetOr(0) && Stay(EvictOne(all), rest)
    ensures Stay(all, Skipping(rest, k))
  {
    hide FirstDone;
    var less, from := EvictOne(all), Skipping(rest, k);
    forall i: nat | i < |all|
      ensures i in from <==> i != k && Shrunk(i, k) in rest
      ensures i != k ==> Shrunk(i, k) < |less| && less[Shrunk(i, k)] == all[i]
    {
      SkippingHas(rest, k, i);
    }
    forall i, j | 0 <= j < i < |all| && i !in from && all[j].status == all[i].status
      ensures j !in from
    {
      if i != k && j != k {
        assert Shrunk(j, k) < Shrunk(i, k);
      }
    }
    forall i, j | 0 <= i < |all| && 0 <= j < |all| && i !in from && all[i].status.Running? && all[j].status.Done?
      ensures j !in from
    {
      if i != k && j != k {
        assert less[Shrunk(i, k)].status.Running? && less[Shrunk(j, k)].status.Done?;
      }
    }
  }

  function Shrunk(i: nat, k: nat): nat { if i <= k then i else i - 1 }

  lemma PickedBefore(all: seq<Step>, k: nat, rest: seq<nat>, kept: seq<Step>)
    requires all != [] && k == FirstDone(all).GetOr(0) && Picked(EvictOne(all), rest, kept)
    ensures Picked(all, Skipping(rest, k), kept)
  {
    hide FirstDone;
  }

  // ---- the event on the transcript ----

  /** The call with the event recorded among its steps. */
  ghost predicate StepRecorded(before: ToolView, e: RunEvent, all: seq<Step>, from: seq<nat>, after: ToolView) {
    && after == before.(details := after.details) && after.details.Some?
    && StepsWritten(Recorded(before), e, all)
    && Stay(all, from) && after.details.value.steps.Some? && Picked(all, from, after.details.value.steps.value)
    && after.details.value.rest == (if before.details.Some? then before.details.value.rest else map[])
    && OmittedIn(after.details) ==
       (if |all| > 40 then Some(OmittedIn(before.details).GetOr(0) + |all| - 40) else OmittedIn(before.details))
  }

  lemma RecordedAs(parent: ToolView, e: RunEvent) returns (all: seq<Step>, from: seq<nat>)
    ensures StepRecorded(parent, e, all, from, UpsertNestedStep(parent, e))
  {
    hide EvictSteps, UpsertStep, StepsWritten, Stay, Picked;
    all := UpsertStep(Recorded(parent), e);
    UpsertWrites(Recorded(parent), e);
    from := EvictedFrom(all);
  }

  /** An event of a nested subagent is recorded in its parent call, whose bubble is open from then on; nothing else
      changes. */
  lemma NestedEventRecords(s: TranscriptView, e: RunEvent, i: nat, k: nat) returns (all: seq<Step>, from: seq<nat>)
    requires OpenOk(s) && ToolKind(e) && e.Nested() && IsParent(s.messages, i, k)
    ensures var t := Apply(s, e);
      && t.open == Some(i) && OnlyAt(s.messages, t.messages, i)
      && |t.messages[i].tools| == |s.messages[i].tools|
      && t.messages[i] == s.messages[i].(tools := s.messages[i].tools[k := t.messages[i].tools[k]],
                                         updatedAt := Some(e.createdAt))
      && StepRecorded(s.messages[i].tools[k], e, all, from, t.messages[i].tools[k])
  {
    hide UpsertNestedStep, StepRecorded, BubbleWithSubagent, LastSubagentTool, NoSubagentIn;
    var ms := s.messages;
    if NewestSubagent(ms, i, k, true) {
      OneNewest(ms, i, k, true);
    } else {
      BubbleIs(ms, true);
      if BubbleWithSubagent(ms, true).Some? {
        var j := BubbleWithSubagent(ms, true).value;
        OneNewest(ms, j, LastSubagentTool(ms[j].tools, true).value, true);
      }
      OneNewest(ms, i, k, false);
    }
    all, from := RecordedAs(ms[i].tools[k], e);
  }

  /** Without a subagent call it is passed over. */
  lemma NestedEventPassed(s: TranscriptView, e: RunEvent)
    requires OpenOk(s) && ToolKind(e) && e.Nested() && NoSubagentIn(s.messages, false)
    ensures Apply(s, e) == s
  {
    hide NoSubagentIn, NewestSubagent, LastSubagentTool;
    var ms := s.messages;
    NoneRuns(ms);
    BubbleIs(ms, true);
    BubbleIs(ms, false);
    if BubbleWithSubagent(ms, true).Some? {
      OneNewest(ms, BubbleWithSubagent(ms, true).value,
                LastSubagentTool(ms[BubbleWithSubagent(ms, true).value].tools, true).value, true);
    }
    if BubbleWithSubagent(ms, false).Some? {
      OneNewest(ms, BubbleWithSubagent(ms, false).value,
                LastSubagentTool(ms[BubbleWithSubagent(ms, false).value].tools, false).value, false);
    }
  }

  lemma NoneRuns(ms: seq<MessageView>)
    requires NoSubagentIn(ms, false)
    ensures NoSubagentIn(ms, true)
  {
    forall j | 0 <= j < |ms| && ms[j].role.Assistant?
      ensures NoSubagent(ms[j].tools, true)
    {
      assert NoSubagent(ms[j].tools, false);
      assert forall k | 0 <= k < |ms[j].tools| :: !IsSubagent(ms[j].tools[k], false);
    }
  }

  /** Some call is the parent unless there is no subagent call at all. */
  lemma ParentOrNone(ms: seq<MessageView>)
    ensures NoSubagentIn(ms, false) || exists i: nat, k: nat :: IsParent(ms, i, k)
  {
    hide NoSubagentIn, NewestSubagent, LastSubagentTool;
    BubbleIs(ms, true);
    BubbleIs(ms, false);
    var running, any := BubbleWithSubagent(ms, true), BubbleWithSubagent(ms, false);
    if running.Some? {
      assert IsParent(ms, running.value, LastSubagentTool(ms[running.value].tools, true).value);
    } else if any.Some? {
      assert IsParent(ms, any.value, LastSubagentTool(ms[any.value].tools, false).value);
    }
  }

  // ---- a step over many events ----

  function RecordAll(parent: ToolView, es: seq<RunEvent>): ToolView
    decreases |es|
  {
    if es == [] then parent else RecordAll(UpsertNestedStep(parent, es[0]), es[1..])
  }

  /** The last output the events of a call bring. */
  function LastOutput(es: seq<RunEvent>, key: string): Option<string> {
    if es == [] then None
    else
      var n := |es| - 1;
      if KeyIs(es[n], key) && es[n].data.output.Some? then es[n].data.output else LastOutput(es[..n], key)
  }

  /** At most one step has the key, and it shows this output. */
  predicate ShowsOutput(steps: seq<Step>, key: string, output: Option<string>) {
    && (forall k | 0 <= k < |steps| && steps[k].id == key :: steps[k].output == output)
    && (forall j, k | 0 <= j < k < |steps| && steps[j].id == key :: steps[k].id != key)
  }

  predicate OnRecord(steps: seq<Step>, key: string) {
    exists k :: 0 <= k < |steps| && steps[k].id == key
  }

  lemma RecordPush(parent: ToolView, es: seq<RunEvent>, e: RunEvent)
    ensures RecordAll(parent, es + [e]) == UpsertNestedStep(RecordAll(parent, es), e)
    decreases |es|
  {
    hide UpsertNestedStep;
    if es == [] {
      assert es + [e] == [e] && [e][1..] == [];
    } else {
      assert (es + [e])[1..] == es[1..] + [e];
      RecordPush(UpsertNestedStep(parent, es[0]), es[1..], e);
    }
  }

  /** A step that stays on record from its first event on shows the last output its events brought. */
  lemma {:induction false} StepShowsLastOutput(parent: ToolView, es: seq<RunEvent>, key: string)
    requires !OnRecord(Recorded(parent), key)
    requires forall n, i | 0 <= i < n <= |es| && KeyIs(es[i], key) :: OnRecord(Recorded(RecordAll(parent, es[..n])), key)
    ensures ShowsOutput(Recorded(RecordAll(parent, es)), key, LastOutput(es, key))
    ensures OnRecord(Recorded(RecordAll(parent, es)), key) ==> exists i :: 0 <= i < |es| && KeyIs(es[i], key)
  {
    hide UpsertNestedStep, Recorded, KeyIs, ShowsOutput, OnRecord;
    if es == [] {
      NothingRecorded(parent, key);
    } else {
      var n := |es| - 1;
      assert forall m | 0 <= m <= n :: es[..n][..m] == es[..m];
      assert es[..|es|] == es && es == es[..n] + [es[n]];
      StepShowsLastOutput(parent, es[..n], key);
      RecordPush(parent, es[..n], es[n]);
      FirstOutput(es[..n], key);
      OneMoreStep(RecordAll(parent, es[..n]), es[n], key, LastOutput(es[..n], key));
    }
  }

  lemma NothingRecorded(parent: ToolView, key: string)
    requires !OnRecord(Recorded(parent), key)
    ensures ShowsOutput(Recorded(RecordAll(parent, [])), key, LastOutput([], key))
  {
  }

  /** A call that brought no event brought no output. */
  lemma {:induction false} FirstOutput(es: seq<RunEvent>, key: string)
    ensures (forall i | 0 <= i < |es| :: !KeyIs(es[i], key)) ==> LastOutput(es, key).None?
  {
    hide KeyIs;
    if es != [] {
      FirstOutput(es[..|es| - 1], key);
    }
  }

  lemma OneMoreStep(parent: ToolView, e: RunEvent, key: string, output: Option<string>)
    requires ShowsOutput(Recorded(parent), key, output)
    requires !OnRecord(Recorded(parent), key) ==> output.None?
    ensures var after := Recorded(UpsertNestedStep(parent, e));
      && ShowsOutput(after, key, if KeyIs(e, key) && e.data.output.Some? then e.data.output else output)
      && (OnRecord(after, key) ==> OnRecord(Recorded(parent), key) || KeyIs(e, key))
  {
    hide UpsertNestedStep, StepsWritten, EvictSteps, KeyIs;
    var all, from := RecordedAs(parent, e);
    WrittenShows(Recorded(parent), e, all, key, output);
    var kept, now := Recorded(UpsertNestedStep(parent, e)), if KeyIs(e, key) && e.data.output.Some? then e.data.output else output;
    PickedShows(all, from, kept, key, now);
  }

  lemma PickedShows(all: seq<Step>, from: seq<nat>, kept: seq<Step>, key: string, output: Option<string>)
    requires Stay(all, from) && Picked(all, from, kept) && ShowsOutput(all, key, output)
    ensures ShowsOutput(kept, key, output)
    ensures OnRecord(kept, key) ==> OnRecord(all, key)
  {
    forall k | 0 <= k < |kept| && kept[k].id == key
      ensures kept[k].output == output && OnRecord(all, key)
    {
      assert kept[k] == all[from[k]];
    }
    forall j, k | 0 <= j < k < |kept| && kept[j].id == key
      ensures kept[k].id != key
    {
      assert from[j] < from[k] && kept[j] == all[from[j]] && kept[k] == all[from[k]];
    }
  }

  lemma WrittenShows(before: seq<Step>, e: RunEvent, all: seq<Step>, key: string, output: Option<string>)
    requires StepsWritten(before, e, all) && ShowsOutput(before, key, output)
    requires !OnRecord(before, key) ==> output.None?
    ensures ShowsOutput(all, key, if KeyIs(e, key) && e.data.output.Some? then e.data.output else output)
    ensures OnRecord(all, key) ==> OnRecord(before, key) || KeyIs(e, key)
  {
    if exists k :: 0 <= k < |before| && KeyIs(e, before[k].id) {
      var k: nat :| k < |before| && KeyIs(e, before[k].id) && all == before[k := all[k]] && |all| == |before|
        && StepWritten(before[k], e, all[k]);
      assert forall j | 0 <= j < |before| && j != k :: all[j] == before[j];
      assert all[k].id == before[k].id;
    } else {
      var n := |before|;
      assert forall j | 0 <= j < n :: all[j] == all[..n][j];
      assert all[n].id == key ==> !OnRecord(before, key);
    }
  }
}
