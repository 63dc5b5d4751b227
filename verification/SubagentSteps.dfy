/** What a parent tool remembers of the steps of its subagents (upsertNestedStep, seedSubagentDetails). */
module SubagentSteps {
  import opened Events
  import opened Reducer

  function Recorded(tool: ToolView): seq<Step> {
    tool.details.GetOr(NO_DETAILS).steps.GetOr([])
  }

  function Omitted(tool: ToolView): int {
    tool.details.GetOr(NO_DETAILS).omittedSteps.GetOr(0)
  }

  /** No step is lost from the count: each is on record or counted as omitted, and at most the limit is on record. */
  lemma StepsAreCounted(parent: ToolView, e: RunEvent)
    ensures var after := UpsertNestedStep(parent, e);
      && |Recorded(after)| + Omitted(after)
         == |Recorded(parent)| + Omitted(parent) + (if StepById(Recorded(parent), e.ToolKey()).None? then 1 else 0)
      && |Recorded(after)| <= MAX_SUBAGENT_STEPS
  {
  }

  function RunningSteps(steps: seq<Step>): (r: seq<Step>)
    ensures |r| <= |steps|
  {
    if steps == [] then []
    else if steps[0].status.Running? then [steps[0]] + RunningSteps(steps[1..])
    else RunningSteps(steps[1..])
  }

  lemma {:induction false} RunningConcat(a: seq<Step>, b: seq<Step>)
    ensures RunningSteps(a + b) == RunningSteps(a) + RunningSteps(b)
  {
    if a == [] {
      assert a + b == b;
    } else {
      assert (a + b)[1..] == a[1..] + b;
      RunningConcat(a[1..], b);
    }
  }

  lemma {:induction false} AllRunning(steps: seq<Step>)
    requires forall k | 0 <= k < |steps| :: steps[k].status.Running?
    ensures RunningSteps(steps) == steps
  {
    if steps != [] {
      AllRunning(steps[1..]);
    }
  }

  /** Giving one step up costs a running one only when all are running, and then the oldest. */
  lemma EvictOneSparesRunning(steps: seq<Step>)
    requires steps != []
    ensures FirstDone(steps).Some? ==> RunningSteps(EvictOne(steps)) == RunningSteps(steps)
    ensures FirstDone(steps).None? ==> RunningSteps(steps) == steps && EvictOne(steps) == steps[1..]
  {
    hide RunningSteps;
    var done := FirstDone(steps);
    if done.Some? {
      var k := done.value;
      assert steps == steps[..k] + ([steps[k]] + steps[k + 1..]);
      RunningConcat(steps[..k], [steps[k]] + steps[k + 1..]);
      RunningConcat([steps[k]], steps[k + 1..]);
      RunningConcat(steps[..k], steps[k + 1..]);
      DoneIsNotRunning(steps[k]);
    } else {
      AllRunning(steps);
      assert steps[..0] + steps[1..] == steps[1..];
    }
  }

  lemma DoneIsNotRunning(step: Step)
    requires step.status.Done?
    ensures RunningSteps([step]) == []
  {
  }

  /** The last `n`. */
  function Newest<T>(xs: seq<T>, n: nat): seq<T> {
    if |xs| <= n then xs else xs[|xs| - n..]
  }

  lemma NewestOfRest<T>(xs: seq<T>, n: nat)
    requires |xs| > n
    ensures Newest(xs[1..], n) == Newest(xs, n)
  {
  }

  lemma NewestOfFew<T>(xs: seq<T>, n: nat)
    requires |xs| <= n
    ensures Newest(xs, n) == xs
  {
  }

  /** Past the limit, the newest running steps stay on record: all of them if they fit. */
  lemma {:induction false} EvictionSparesRunning(steps: seq<Step>)
    ensures RunningSteps(EvictSteps(steps)) == Newest(RunningSteps(steps), MAX_SUBAGENT_STEPS)
    decreases |steps|
  {
    hide RunningSteps, FirstDone, EvictOne, EvictSteps, Newest;
    if |steps| > MAX_SUBAGENT_STEPS {
      EvictOnce(steps);
      EvictOneSparesRunning(steps);
      EvictionSparesRunning(EvictOne(steps));
      if FirstDone(steps).None? {
        RestRunning(steps);
        NewestOfRest(steps, MAX_SUBAGENT_STEPS);
      }
    } else {
      NothingToEvict(steps);
      NewestOfFew(RunningSteps(steps), MAX_SUBAGENT_STEPS);
    }
  }

  lemma RestRunning(steps: seq<Step>)
    requires steps != [] && RunningSteps(steps) == steps
    ensures RunningSteps(steps[1..]) == steps[1..]
  {
    assert steps[0].status.Running?;
    assert RunningSteps(steps)[1..] == RunningSteps(steps[1..]);
  }

  /** A later event of the parent itself keeps the steps on record; it may only bring the first ones. */
  lemma RefreshKeepsSteps(tool: ToolView, e: RunEvent)
    requires tool.details.Some? && tool.details.value.steps.Some?
    ensures Recorded(Refresh(tool, e)) == Recorded(tool)
    ensures e.data.details.None? || e.data.details.value.omittedSteps.None? ==> Omitted(Refresh(tool, e)) == Omitted(tool)
  {
  }

  /** Tasks once known are kept, unless the arguments say better. */
  lemma RefreshKeepsTasks(tool: ToolView, e: RunEvent)
    requires tool.details.Some? && "tasks" in tool.details.value.rest
    requires e.ToolName() == SUBAGENT_TOOL_NAME ==>
      e.data.args.Or(tool.args).None? || e.data.args.Or(tool.args).value.request.None?
    ensures var after := Refresh(tool, e).details;
      after.Some? && "tasks" in after.value.rest && after.value.rest["tasks"] == tool.details.value.rest["tasks"]
  {
  }
}
