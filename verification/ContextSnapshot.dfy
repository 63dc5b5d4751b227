/**
 The snapshot shown by the context-usage panel (packages/contracts/src/context-usage.ts): buckets with their
 children, and the tokens of a draft laid over them.
 */
module ContextSnapshot {
  import opened Prelude
  import opened ContextUsage

  datatype Texts = Texts(system: string, rules: string, memory: string, skills: string, subagents: string,
                         tools: string, cloudTools: string, mcp: string, summarized: string, conversation: string)

  datatype Draft = Draft(id: string, caption: string, text: Option<string>, tokens: Option<real>)

  datatype Bucket = Bucket(id: BucketId, tokens: int, children: Option<seq<Item>>)

  datatype Origin = Session | Estimate

  datatype Snapshot = Snapshot(tokens: int, contextWindow: Option<int>, percent: Option<real>, origin: Origin,
                               buckets: seq<Bucket>)

  function RoundHalfUp(x: real): (r: int)
    ensures r as real <= x + 0.5 < r as real + 1.0
  {
    (x + 0.5).Floor
  }

  /** Four characters a token, rounded up. */
  function EstimateTokens(text: string): (r: nat)
    ensures 4 * r >= |text| > 4 * (r - 1)
  {
    (|text| + 3) / 4
  }

  /** The draft's own count, rounded, where it has one; else four characters a token. */
  function DraftTokens(draft: Draft): (r: nat)
    ensures draft.tokens.Some? && draft.tokens.value > 0.0 ==> r as real <= draft.tokens.value + 0.5 < r as real + 1.0
    ensures draft.tokens.None? || draft.tokens.value <= 0.0 ==> 4 * r >= |draft.text.GetOr("")| > 4 * (r - 1)
  {
    if draft.tokens.Some? && draft.tokens.value > 0.0 then RoundHalfUp(draft.tokens.value)
    else EstimateTokens(draft.text.GetOr(""))
  }

  function DraftItems(drafts: seq<Draft>): (r: seq<Item>)
    ensures |r| == |drafts|
    ensures forall k | 0 <= k < |r| :: r[k] == Item(drafts[k].id, drafts[k].caption, DraftTokens(drafts[k]))
  {
    seq(|drafts|, k requires 0 <= k < |drafts| => Item(drafts[k].id, drafts[k].caption, DraftTokens(drafts[k])))
  }

  /** What itemsFor returns. */
  ghost predicate ItemsOf(drafts: seq<Draft>, parent: int, children: Option<seq<Item>>) {
    var estimated := Positive(DraftItems(drafts));
    if estimated == [] then children.None? else children.Some? && ItemsScaled(estimated, parent, children.value)
  }

  method ItemsFor(drafts: seq<Draft>, parent: int) returns (children: Option<seq<Item>>)
    ensures ItemsOf(drafts, parent, children)
  {
    hide Positive, ItemsScaled;
    if |drafts| == 0 {
      NothingDrafted();
      assert DraftItems(drafts) == [];
      return None;
    }
    var estimated := Positive(DraftItems(drafts));
    if |estimated| == 0 {
      return None;
    }
    var scaled := ScaleItems(estimated, parent);
    children := Some(scaled);
  }

  lemma NothingDrafted()
    ensures Positive([]) == []
  {
  }

  // ---- assembleContextUsage ----

  /** What is left of the system prompt once the sections that live inside it are taken out. */
  function SystemRest(texts: Texts): nat {
    Max(0, EstimateTokens(texts.system) - EstimateTokens(texts.rules) - EstimateTokens(texts.memory)
           - EstimateTokens(texts.skills) - EstimateTokens(texts.subagents))
  }

  /** The estimates in render order. */
  function Estimates(texts: Texts): (r: seq<nat>)
    ensures |r| == BUCKETS
  {
    [SystemRest(texts), EstimateTokens(texts.rules), EstimateTokens(texts.memory), EstimateTokens(texts.skills),
     EstimateTokens(texts.tools), EstimateTokens(texts.cloudTools), EstimateTokens(texts.mcp),
     EstimateTokens(texts.subagents), EstimateTokens(texts.summarized), EstimateTokens(texts.conversation)]
  }

  function Total(texts: Texts): nat {
    NotNegative(Estimates(texts));
    Sum(Estimates(texts))
  }

  /** The report counts only from half the fixed prefix on. */
  predicate HasReported(texts: Texts, reported: Option<real>) {
    && reported.Some? && reported.value > 0.0
    && reported.value >= (Total(texts) - Estimates(texts)[TALK]) as real * 0.5
  }

  function SnapshotTokens(texts: Texts, reported: Option<real>): nat {
    if HasReported(texts, reported) then RoundHalfUp(reported.value) else Total(texts)
  }

  /** The tokens of each bucket before the empty ones are dropped. */
  ghost predicate Resolved(texts: Texts, reported: Option<real>, resolved: seq<int>) {
    var estimates, total, tokens := Estimates(texts), Total(texts), SnapshotTokens(texts, reported);
    if !HasReported(texts, reported) then resolved == estimates
    else if total == 0 then resolved == estimates[TALK := tokens]
    else ScaledTo(estimates, total, tokens, resolved)
  }

  /** A rounded report passes the gate that the report itself passed. */
  lemma GateSurvivesRounding(texts: Texts, reported: Option<real>)
    requires HasReported(texts, reported)
    ensures HalfPrefix(Estimates(texts), Total(texts), SnapshotTokens(texts, reported))
  {
    var tokens, prefix := SnapshotTokens(texts, reported), Total(texts) - Estimates(texts)[TALK];
    assert 2.0 * tokens as real > prefix as real - 1.0;
    assert (2 * tokens) as real == 2.0 * tokens as real;
  }

  lemma {:induction false} AllZero(xs: seq<nat>)
    requires Sum(xs) == 0
    ensures forall k | 0 <= k < |xs| :: xs[k] == 0
  {
    if xs != [] {
      NotNegative(xs[..|xs| - 1]);
      AllZero(xs[..|xs| - 1]);
    }
  }

  /** The buckets account for every token, and for no more once there are 63 of them. */
  lemma ResolvedSum(texts: Texts, reported: Option<real>, resolved: seq<int>)
    requires Resolved(texts, reported, resolved)
    ensures |resolved| == BUCKETS && forall k | 0 <= k < BUCKETS :: resolved[k] >= 0
    ensures Sum(resolved) >= SnapshotTokens(texts, reported)
    ensures !HasReported(texts, reported) || Total(texts) == 0 || SnapshotTokens(texts, reported) >= 63
      ==> Sum(resolved) == SnapshotTokens(texts, reported)
  {
    hide Sum, Estimates, ParkedOn, Parts, Rounded;
    var estimates, total, tokens := Estimates(texts), Total(texts), SnapshotTokens(texts, reported);
    if HasReported(texts, reported) {
      if total == 0 {
        AllZero(estimates);
        SumUpdate(estimates, TALK, tokens);
      } else {
        GateSurvivesRounding(texts, reported);
        var parts := Parts(estimates, total, tokens);
        var p: nat :| p < BUCKETS && ParkedOn(estimates, parts, p) && resolved == Adjusted(parts, p, tokens);
        AdjustedSum(parts, p, tokens);
        if tokens >= 63 {
          ReportedSumIsExact(estimates, total, tokens, resolved);
        }
      }
    }
  }

  function BucketTokens(buckets: seq<Bucket>): (r: seq<int>)
    ensures |r| == |buckets| && forall k | 0 <= k < |r| :: r[k] == buckets[k].tokens
  {
    seq(|buckets|, k requires 0 <= k < |buckets| => buckets[k].tokens)
  }

  /** The first `n` buckets in render order, the empty ones dropped. */
  function Shown(resolved: seq<int>, children: seq<Option<seq<Item>>>, n: nat): (r: seq<Bucket>)
    requires |resolved| == |children| == BUCKETS && n <= BUCKETS
  {
    if n == 0 then []
    else
      var front := Shown(resolved, children, n - 1);
      if resolved[n - 1] > 0 then front + [Bucket(CONTEXT_BUCKET_ORDER[n - 1], resolved[n - 1], children[n - 1])]
      else front
  }

  lemma {:induction false} ShownSum(resolved: seq<int>, children: seq<Option<seq<Item>>>, n: nat)
    requires |resolved| == |children| == BUCKETS && n <= BUCKETS
    requires forall k | 0 <= k < BUCKETS :: resolved[k] >= 0
    ensures Sum(BucketTokens(Shown(resolved, children, n))) == Sum(resolved[..n])
  {
    if n > 0 {
      ShownSum(resolved, children, n - 1);
      assert resolved[..n] == resolved[..n - 1] + [resolved[n - 1]];
      SumPush(resolved[..n - 1], resolved[n - 1]);
      var front := Shown(resolved, children, n - 1);
      if resolved[n - 1] > 0 {
        var bucket := Bucket(CONTEXT_BUCKET_ORDER[n - 1], resolved[n - 1], children[n - 1]);
        assert BucketTokens(front + [bucket]) == BucketTokens(front) + [bucket.tokens];
        SumPush(BucketTokens(front), bucket.tokens);
      }
    }
  }

  /** Whose drafts hang below which bucket. */
  datatype Drafts = Drafts(rules: seq<Draft>, skills: seq<Draft>, tools: seq<Draft>, cloudTools: seq<Draft>, mcp: seq<Draft>)
  {
    function Of(id: BucketId): seq<Draft> {
      match id
      case Rules => rules
      case Skills => skills
      case Tools => tools
      case CloudTools => cloudTools
      case Mcp => mcp
      case _ => []
    }
  }

  ghost predicate ChildrenFor(drafts: Drafts, resolved: seq<int>, children: seq<Option<seq<Item>>>, n: nat)
    requires |resolved| == BUCKETS && n <= BUCKETS
  {
    && |children| == n
    && forall k | 0 <= k < n :: ItemsOf(drafts.Of(CONTEXT_BUCKET_ORDER[k]), resolved[k], children[k])
  }

  function Percent(tokens: int, contextWindow: Option<int>): (r: Option<real>)
    ensures r.Some? <==> contextWindow.Some? && contextWindow.value != 0
  {
    if contextWindow.Some? && contextWindow.value != 0 then Some(tokens as real / contextWindow.value as real * 100.0)
    else None
  }

  /** So many hundredths of the window. */
  lemma PercentIs(tokens: int, contextWindow: int)
    requires contextWindow != 0
    ensures Percent(tokens, Some(contextWindow)).value * contextWindow as real == 100.0 * tokens as real
  {
    var window := contextWindow as real;
    assert tokens as real / window * window == tokens as real;
  }

  /** What assembleContextUsage promises about the buckets. */
  ghost predicate Assembled(texts: Texts, drafts: Drafts, reported: Option<real>, buckets: seq<Bucket>) {
    exists resolved: seq<int>, children | |resolved| == |children| == BUCKETS ::
      && Resolved(texts, reported, resolved) && ChildrenFor(drafts, resolved, children, BUCKETS)
      && buckets == Shown(resolved, children, BUCKETS)
  }

  method AssembleContextUsage(texts: Texts, drafts: Drafts, reported: Option<real>, window: Option<real>,
                              catalogWindow: Option<int>, origin: Option<Origin>) returns (snapshot: Snapshot)
    ensures snapshot.tokens == SnapshotTokens(texts, reported)
    ensures snapshot.contextWindow ==
      if window.Some? && window.value > 0.0 then Some(RoundHalfUp(window.value)) else catalogWindow
    ensures snapshot.percent == Percent(snapshot.tokens, snapshot.contextWindow)
    ensures snapshot.origin.Session? <==> HasReported(texts, reported) || origin == Some(Session)
    ensures Assembled(texts, drafts, reported, snapshot.buckets)
  {
    hide ItemsOf, ScaledTo, Shown, Sum;
    var contextWindow := if window.Some? && window.value > 0.0 then Some(RoundHalfUp(window.value)) else catalogWindow;
    var estimates, total := Estimates(texts), Total(texts);
    var tokens := SnapshotTokens(texts, reported);
    var resolved: seq<int> := estimates;
    if HasReported(texts, reported) {
      resolved := ScaleToReported(estimates, total, tokens);
    }
    ResolvedSum(texts, reported, resolved);
    var children := [];
    for k := 0 to BUCKETS
      invariant ChildrenFor(drafts, resolved, children, k)
    {
      var items := ItemsFor(drafts.Of(CONTEXT_BUCKET_ORDER[k]), resolved[k]);
      children := children + [items];
    }
    snapshot := Snapshot(tokens, contextWindow, Percent(tokens, contextWindow),
                         if HasReported(texts, reported) || origin == Some(Session) then Session else Estimate,
                         Shown(resolved, children, BUCKETS));
  }

  /** The buckets on show sum to the snapshot: never to less, and to exactly it unless a report below 63 tokens
      was spread. */
  lemma BucketsSumToSnapshot(texts: Texts, drafts: Drafts, reported: Option<real>, buckets: seq<Bucket>)
    requires Assembled(texts, drafts, reported, buckets)
    ensures Sum(BucketTokens(buckets)) >= SnapshotTokens(texts, reported)
    ensures !HasReported(texts, reported) || Total(texts) == 0 || SnapshotTokens(texts, reported) >= 63
      ==> Sum(BucketTokens(buckets)) == SnapshotTokens(texts, reported)
  {
    hide Sum, Shown, ChildrenFor, Resolved;
    var resolved: seq<int>, children :| |resolved| == |children| == BUCKETS
      && Resolved(texts, reported, resolved) && ChildrenFor(drafts, resolved, children, BUCKETS)
      && buckets == Shown(resolved, children, BUCKETS);
    ResolvedSum(texts, reported, resolved);
    ShownSum(resolved, children, BUCKETS);
    assert resolved[..BUCKETS] == resolved;
  }

  // ---- what the snapshot shows, text by text ----

  predicate Quarters(text: string, n: nat) {
    4 * n >= |text| > 4 * (n - 1)
  }

  /** The text a bucket stands for, `None` for the system prompt, which also holds other buckets' texts. */
  function TextOf(texts: Texts, id: BucketId): Option<string> {
    match id
    case System => None
    case Rules => Some(texts.rules)
    case Memory => Some(texts.memory)
    case Skills => Some(texts.skills)
    case Tools => Some(texts.tools)
    case CloudTools => Some(texts.cloudTools)
    case Mcp => Some(texts.mcp)
    case Subagents => Some(texts.subagents)
    case Summarized => Some(texts.summarized)
    case Conversation => Some(texts.conversation)
  }

  /** A quarter of the text's length, rounded up; of the system prompt what rules, memory, skills and subagents leave. */
  ghost predicate EstimateIs(texts: Texts, id: BucketId, n: nat) {
    match TextOf(texts, id)
    case Some(text) => Quarters(text, n)
    case None =>
      forall whole: nat, rules: nat, memory: nat, skills: nat, subagents: nat |
        Quarters(texts.system, whole) && Quarters(texts.rules, rules) && Quarters(texts.memory, memory)
        && Quarters(texts.skills, skills) && Quarters(texts.subagents, subagents) ::
        var left := whole - rules - memory - skills - subagents;
        n == if left > 0 then left else 0
  }

  /** The buckets are estimated in render order, each from its own text. */
  lemma EstimatesAre(texts: Texts)
    ensures forall k | 0 <= k < BUCKETS :: EstimateIs(texts, CONTEXT_BUCKET_ORDER[k], Estimates(texts)[k])
    ensures CONTEXT_BUCKET_ORDER == [System, Rules, Memory, Skills, Tools, CloudTools, Mcp, Subagents, Summarized, Conversation]
  {
    forall whole: nat, rules: nat, memory: nat, skills: nat, subagents: nat |
      Quarters(texts.system, whole) && Quarters(texts.rules, rules) && Quarters(texts.memory, memory)
      && Quarters(texts.skills, skills) && Quarters(texts.subagents, subagents)
      ensures SystemRest(texts) == Max(0, whole - rules - memory - skills - subagents)
    {
    }
  }

  /** The report is taken from half of all estimates but the conversation's on, rounded; else the estimates count. */
  lemma ReportOrEstimate(texts: Texts, reported: Option<real>)
    ensures var tokens, all := SnapshotTokens(texts, reported), Sum(Estimates(texts));
      if reported.Some? && reported.value > 0.0 && 2.0 * reported.value >= (all - Estimates(texts)[9]) as real
      then tokens as real <= reported.value + 0.5 < tokens as real + 1.0
      else tokens == all
  {
    hide Sum, Estimates;
  }

  /** `from` says which of the first `n` buckets are on show: those that are not empty, in render order. */
  predicate ShownAt(resolved: seq<int>, children: seq<Option<seq<Item>>>, n: nat, buckets: seq<Bucket>, from: seq<nat>)
    requires |resolved| == |children| == BUCKETS && n <= BUCKETS
  {
    && |from| == |buckets|
    && (forall k | 0 <= k < |from| ::
          from[k] < n && resolved[from[k]] > 0
          && buckets[k] == Bucket(CONTEXT_BUCKET_ORDER[from[k]], resolved[from[k]], children[from[k]]))
    && (forall j, k | 0 <= j < k < |from| :: from[j] < from[k])
    && (forall i: nat | i < n && resolved[i] > 0 :: i in from)
  }

  lemma {:induction false} ShownFrom(resolved: seq<int>, children: seq<Option<seq<Item>>>, n: nat) returns (from: seq<nat>)
    requires |resolved| == |children| == BUCKETS && n <= BUCKETS
    ensures ShownAt(resolved, children, n, Shown(resolved, children, n), from)
  {
    hide ShownAt, Shown;
    ShownStep(resolved, children, n);
    if n == 0 {
      from := [];
      NoneShown(resolved, children);
    } else {
      from := ShownFrom(resolved, children, n - 1);
      if resolved[n - 1] > 0 {
        ShownLast(resolved, children, n - 1, Shown(resolved, children, n - 1), from);
        from := from + [n - 1];
      } else {
        NotShown(resolved, children, n - 1, Shown(resolved, children, n - 1), from);
      }
    }
  }

  lemma ShownStep(resolved: seq<int>, children: seq<Option<seq<Item>>>, n: nat)
    requires |resolved| == |children| == BUCKETS && n <= BUCKETS
    ensures Shown(resolved, children, n) ==
      if n == 0 then []
      else if resolved[n - 1] > 0
      then Shown(resolved, children, n - 1) + [Bucket(CONTEXT_BUCKET_ORDER[n - 1], resolved[n - 1], children[n - 1])]
      else Shown(resolved, children, n - 1)
  {
  }

  lemma NoneShown(resolved: seq<int>, children: seq<Option<seq<Item>>>)
    requires |resolved| == |children| == BUCKETS
    ensures ShownAt(resolved, children, 0, [], [])
  {
  }

  lemma NotShown(resolved: seq<int>, children: seq<Option<seq<Item>>>, n: nat, front: seq<Bucket>, from: seq<nat>)
    requires |resolved| == |children| == BUCKETS && n < BUCKETS && resolved[n] <= 0
    requires ShownAt(resolved, children, n, front, from)
    ensures ShownAt(resolved, children, n + 1, front, from)
  {
  }

  lemma ShownLast(resolved: seq<int>, children: seq<Option<seq<Item>>>, n: nat, front: seq<Bucket>, from: seq<nat>)
    requires |resolved| == |children| == BUCKETS && n < BUCKETS && resolved[n] > 0
    requires ShownAt(resolved, children, n, front, from)
    ensures ShownAt(resolved, children, n + 1, front + [Bucket(CONTEXT_BUCKET_ORDER[n], resolved[n], children[n])], from + [n])
  {
    var all := from + [n];
    assert all[|from|] == n;
    forall i: nat | i < n + 1 && resolved[i] > 0
      ensures i in all
    {
      if i < n {
        assert i in from;
      }
    }
  }

  /** Without a report that counts, the buckets on show are the estimates of their texts that are not zero. */
  lemma EstimatedBuckets(texts: Texts, drafts: Drafts, reported: Option<real>, buckets: seq<Bucket>)
    returns (resolved: seq<int>, children: seq<Option<seq<Item>>>, from: seq<nat>)
    requires Assembled(texts, drafts, reported, buckets)
    ensures |resolved| == |children| == BUCKETS && ShownAt(resolved, children, BUCKETS, buckets, from)
    ensures Resolved(texts, reported, resolved) && ChildrenFor(drafts, resolved, children, BUCKETS)
    ensures reported.None? || reported.value <= 0.0
            || 2.0 * reported.value < (Sum(Estimates(texts)) - Estimates(texts)[9]) as real ==>
      forall k | 0 <= k < BUCKETS :: resolved[k] >= 0 && EstimateIs(texts, CONTEXT_BUCKET_ORDER[k], resolved[k])
  {
    hide Sum, Shown, ShownAt, ChildrenFor, Estimates, EstimateIs, ScaledTo;
    resolved, children :| |resolved| == |children| == BUCKETS
      && Resolved(texts, reported, resolved) && ChildrenFor(drafts, resolved, children, BUCKETS)
      && buckets == Shown(resolved, children, BUCKETS);
    from := ShownFrom(resolved, children, BUCKETS);
    EstimatesAre(texts);
  }

  // ---- overlayContextUsage ----

  predicate FirstTalk(buckets: seq<Bucket>, k: nat) {
    && k < |buckets| && buckets[k].id == Conversation
    && forall j | 0 <= j < k :: buckets[j].id != Conversation
  }

  /** What overlayContextUsage makes of the buckets. */
  ghost predicate Overlaid(base: seq<Bucket>, add: nat, buckets: seq<Bucket>) {
    if exists k :: 0 <= k < |base| && base[k].id == Conversation then
      exists k: nat | k < |base| :: FirstTalk(base, k) && buckets == base[k := base[k].(tokens := base[k].tokens + add)]
    else buckets == base + [Bucket(Conversation, add, None)]
  }

  lemma OverlaidAt(base: seq<Bucket>, add: nat, k: nat)
    requires k <= |base| && (forall j | 0 <= j < k :: base[j].id != Conversation)
    requires k < |base| ==> base[k].id == Conversation
    ensures k < |base| ==> Overlaid(base, add, base[k := base[k].(tokens := base[k].tokens + add)])
    ensures k == |base| ==> Overlaid(base, add, base + [Bucket(Conversation, add, None)])
  {
    if k < |base| {
      assert FirstTalk(base, k);
    }
  }

  method OverlayContextUsage(base: Snapshot, draft: string, streaming: string) returns (r: Snapshot)
    ensures var add := EstimateTokens(draft) + EstimateTokens(streaming);
      if add == 0 then r == base
      else
        && Overlaid(base.buckets, add, r.buckets)
        && r == Snapshot(base.tokens + add, base.contextWindow, Percent(base.tokens + add, base.contextWindow),
                         base.origin, r.buckets)
  {
    hide Percent, Overlaid, EstimateTokens;
    var add := EstimateTokens(draft) + EstimateTokens(streaming);
    if add == 0 {
      return base;
    }
    var buckets := base.buckets;
    var k: nat := 0;
    while k < |buckets| && buckets[k].id != Conversation
      invariant k <= |buckets| && forall j | 0 <= j < k :: buckets[j].id != Conversation
    {
      k := k + 1;
    }
    OverlaidAt(base.buckets, add, k);
    if k < |buckets| {
      buckets := buckets[k := buckets[k].(tokens := buckets[k].tokens + add)];
    } else {
      buckets := buckets + [Bucket(Conversation, add, None)];
    }
    r := base.(tokens := base.tokens + add, percent := Percent(base.tokens + add, base.contextWindow), buckets := buckets);
  }

  /** The overlay adds to the buckets what it adds to the total, so an exact snapshot stays exact. */
  lemma OverlayAddsToBuckets(base: seq<Bucket>, add: nat, buckets: seq<Bucket>)
    requires Overlaid(base, add, buckets)
    ensures Sum(BucketTokens(buckets)) == Sum(BucketTokens(base)) + add
  {
    if exists k :: 0 <= k < |base| && base[k].id == Conversation {
      var k: nat :| k < |base| && FirstTalk(base, k) && buckets == base[k := base[k].(tokens := base[k].tokens + add)];
      SumUpdate(BucketTokens(base), k, base[k].tokens + add);
      assert BucketTokens(buckets) == BucketTokens(base)[k := base[k].tokens + add];
    } else {
      assert BucketTokens(buckets) == BucketTokens(base) + [add];
      SumPush(BucketTokens(base), add);
    }
  }
}
