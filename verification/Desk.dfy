/**
 The local runs of one desk process (packages/desk/app/host.ts), as steps between awaits. Every start that waits is
 kept with the place it waits at; control-plane answers, spawns, claims and exits come in any order.
 */
module Desk {
  import opened Prelude
  import opened Admission

  type Pid = nat

  /** One entry of the insertion-ordered map `localRuns`; no child while it spawns. */
  datatype Entry = Entry(runId: string, folder: string, child: Option<Pid>)

  /** Where a start waits. */
  datatype Start =
    | Reaping(runId: string, folder: string, candidates: seq<string>)
    | Rechecking(runId: string, folder: string, freed: bool)
    | Preparing(runId: string)
    | Claiming(runId: string)

  /** `awake`: the power-save blocker is held. */
  datatype State = State(localRuns: seq<Entry>, starts: map<nat, Start>, awake: bool)

  /** What the desk is told by preferences and the file system when it decides. */
  datatype Setting = Setting(maxLocalRuns: Option<real>, insensitive: bool)

  datatype Event =
    | Begin(id: nat, runId: string, folder: string, setting: Setting)
    | Answered(id: nat, finished: set<string>)
    | Rechecked(id: nat, setting: Setting)
    | Spawned(id: nat, workspace: string, child: Pid)
    | StartFailed(id: nat, blocked: bool)
    | Claimed(id: nat)
    | ChildError(runId: string)
    | ChildExit(runId: string)
    | Cancel(runId: string)
    | Quit

  const IDLE := State([], map[], false)

  // ---- the map ----

  predicate Has(runs: seq<Entry>, runId: string) {
    exists entry :: entry in runs && entry.runId == runId
  }

  predicate Distinct(runs: seq<Entry>) {
    forall j, k | 0 <= j < k < |runs| :: runs[j].runId != runs[k].runId
  }

  function Delete(runs: seq<Entry>, runId: string): (r: seq<Entry>)
    ensures forall entry :: entry in r <==> entry in runs && entry.runId != runId
    ensures |r| <= |runs|
    ensures Distinct(runs) ==> Distinct(r)
  {
    if runs == [] then []
    else
      var last, front := runs[|runs| - 1], Delete(runs[..|runs| - 1], runId);
      assert runs == runs[..|runs| - 1] + [last];
      if last.runId != runId then front + [last] else front
  }

  function DeleteAll(runs: seq<Entry>, runIds: seq<string>): (r: seq<Entry>)
    ensures forall entry :: entry in r <==> entry in runs && entry.runId !in runIds
    ensures |r| <= |runs|
    ensures Distinct(runs) ==> Distinct(r)
  {
    if runIds == [] then runs else Delete(DeleteAll(runs, runIds[..|runIds| - 1]), runIds[|runIds| - 1])
  }

  /** `localRuns.set`: an entry that is there keeps its place. */
  function Put(runs: seq<Entry>, entry: Entry): (r: seq<Entry>)
    requires Distinct(runs)
    ensures forall other :: other in r <==> other == entry || (other in runs && other.runId != entry.runId)
    ensures Distinct(r)
    ensures |r| == if Has(runs, entry.runId) then |runs| else |runs| + 1
  {
    if runs == [] then [entry]
    else
      assert forall other | other in runs[1..] :: other.runId != runs[0].runId;
      assert runs == [runs[0]] + runs[1..];
      if runs[0].runId == entry.runId then [entry] + runs[1..] else [runs[0]] + Put(runs[1..], entry)
  }

  function Active(runs: seq<Entry>): (r: seq<ActiveRun>)
    ensures |r| == |runs| && forall k | 0 <= k < |r| :: r[k] == ActiveRun(runs[k].runId, runs[k].folder)
  {
    seq(|runs|, k requires 0 <= k < |runs| => ActiveRun(runs[k].runId, runs[k].folder))
  }

  /** With distinct runs, the others are all but the one. */
  lemma {:induction false} OthersCount(runs: seq<Entry>, runId: string)
    requires Distinct(runs)
    ensures |Others(Active(runs), runId)| == if Has(runs, runId) then |runs| - 1 else |runs|
  {
    if runs != [] {
      var n := |runs| - 1;
      OthersCount(runs[..n], runId);
      assert Active(runs)[..n] == Active(runs[..n]);
      assert runs == runs[..n] + [runs[n]];
      if runs[n].runId == runId {
        assert !Has(runs[..n], runId);
      }
    }
  }

  /** The runs with a child, but for the one that asks, in map order. */
  function Candidates(runs: seq<Entry>, keep: string): seq<string> {
    if runs == [] then []
    else
      var last, front := runs[|runs| - 1], Candidates(runs[..|runs| - 1], keep);
      if last.runId != keep && last.child.Some? then front + [last.runId] else front
  }

  function Ended(candidates: seq<string>, finished: set<string>): (r: seq<string>)
    ensures forall runId :: runId in r <==> runId in candidates && runId in finished
  {
    if candidates == [] then []
    else
      var last, front := candidates[|candidates| - 1], Ended(candidates[..|candidates| - 1], finished);
      assert candidates == candidates[..|candidates| - 1] + [last];
      if last in finished then front + [last] else front
  }

  // ---- the steps ----

  function Decide(runs: seq<Entry>, runId: string, folder: string, setting: Setting): Decision {
    AdmitLocalRun(runId, folder, Active(runs), setting.maxLocalRuns, setting.insensitive)
  }

  predicate Waits(s: State, id: nat, runId: string) {
    id in s.starts && s.starts[id] == Preparing(runId)
  }

  predicate WaitsToReap(s: State, id: nat) {
    id in s.starts && s.starts[id].Reaping?
  }

  function Reserve(s: State, id: nat, runId: string, folder: string): State
    requires Distinct(s.localRuns)
  {
    s.(localRuns := Put(s.localRuns, Entry(runId, folder, None)), starts := s.starts[id := Preparing(runId)])
  }

  function Drop(s: State, runId: string): State {
    s.(localRuns := Delete(s.localRuns, runId))
  }

  /** The machine may sleep again once no run is left. */
  function ReleaseIfIdle(s: State): State {
    s.(awake := s.awake && s.localRuns != [])
  }

  /** What one step makes of the desk. An event whose start does not wait for it changes nothing. */
  function Step(s: State, e: Event): (r: State)
    requires Distinct(s.localRuns)
    ensures Distinct(r.localRuns)
  {
    match e
    case Begin(id, runId, folder, setting) =>
      if id in s.starts || Has(s.localRuns, runId) then s
      else if Decide(s.localRuns, runId, folder, setting).Admitted? then Reserve(s, id, runId, folder)
      else s.(starts := s.starts[id := Reaping(runId, folder, Candidates(s.localRuns, runId))])
    case Answered(id, finished) =>
      if !WaitsToReap(s, id) then s
      else
        var start := s.starts[id];
        var ended := Ended(start.candidates, finished);
        s.(localRuns := DeleteAll(s.localRuns, ended),
           starts := s.starts[id := Rechecking(start.runId, start.folder, ended != [])])
    case Rechecked(id, setting) =>
      if id !in s.starts || !s.starts[id].Rechecking? then s
      else
        var start := s.starts[id];
        if start.freed && Decide(s.localRuns, start.runId, start.folder, setting).Admitted?
        then Reserve(s, id, start.runId, start.folder)
        else s.(starts := s.starts - {id})
    case Spawned(id, workspace, child) =>
      if id in s.starts && s.starts[id].Preparing? then
        var runId := s.starts[id].runId;
        State(Put(s.localRuns, Entry(runId, workspace, Some(child))), s.starts[id := Claiming(runId)], true)
      else s
    case StartFailed(id, blocked) =>
      if id in s.starts && (s.starts[id].Preparing? || s.starts[id].Claiming?) then
        Drop(s, s.starts[id].runId).(starts := s.starts - {id}, awake := s.awake || (blocked && s.starts[id].Preparing?))
      else s
    case Claimed(id) =>
      if id in s.starts && s.starts[id].Claiming? then s.(starts := s.starts - {id}) else s
    case ChildError(runId) => if Has(s.localRuns, runId) then ReleaseIfIdle(Drop(s, runId)) else s
    case ChildExit(runId) => ReleaseIfIdle(Drop(s, runId))
    case Cancel(runId) => Drop(s, runId)
    case Quit => s.(localRuns := [])
  }

  function Run(es: seq<Event>): (r: State)
    ensures Distinct(r.localRuns)
  {
    if es == [] then IDLE else Step(Run(es[..|es| - 1]), es[|es| - 1])
  }

  // ---- the limit ----

  /** The limits the step may decide with stay within `bound`. */
  predicate LimitsWithin(e: Event, bound: nat) {
    e.Begin? || e.Rechecked? ==> NormalizeMaxLocalRuns(e.setting.maxLocalRuns) <= bound
  }

  predicate AllWithin(es: seq<Event>, bound: nat) {
    forall k | 0 <= k < |es| :: LimitsWithin(es[k], bound)
  }

  /** A worker comes up for a run that lost its slot, on a full desk. */
  predicate SpawnsWithoutSlot(s: State, e: Event, bound: nat) {
    && e.Spawned? && e.id in s.starts && s.starts[e.id].Preparing?
    && !Has(s.localRuns, s.starts[e.id].runId) && |s.localRuns| == bound
  }

  lemma ReserveWithin(s: State, id: nat, runId: string, folder: string, setting: Setting, bound: nat)
    requires Distinct(s.localRuns) && Decide(s.localRuns, runId, folder, setting).Admitted?
    requires NormalizeMaxLocalRuns(setting.maxLocalRuns) <= bound
    ensures |Reserve(s, id, runId, folder).localRuns| <= bound
  {
    OthersCount(s.localRuns, runId);
  }

  /** Exactly one kind of step takes the desk over its limit. */
  lemma OverLimitIff(s: State, e: Event, bound: nat)
    requires Distinct(s.localRuns) && |s.localRuns| <= bound && LimitsWithin(e, bound)
    ensures |Step(s, e).localRuns| > bound <==> SpawnsWithoutSlot(s, e, bound)
  {
    hide Decide, Put, NormalizeMaxLocalRuns;
    match e {
      case Begin(id, runId, folder, setting) =>
        if Decide(s.localRuns, runId, folder, setting).Admitted? {
          ReserveWithin(s, id, runId, folder, setting, bound);
        }
      case Rechecked(id, setting) =>
        if id in s.starts && s.starts[id].Rechecking? {
          var start := s.starts[id];
          if Decide(s.localRuns, start.runId, start.folder, setting).Admitted? {
            ReserveWithin(s, id, start.runId, start.folder, setting, bound);
          }
        }
      case _ =>
    }
  }

  ghost predicate Reserved(s: State, runId: string) {
    exists id :: Waits(s, id, runId)
  }

  /** The step deletes the entry of a run that is still between reservation and spawn. */
  ghost predicate Loses(s: State, e: Event, runId: string)
    requires Distinct(s.localRuns)
  {
    Has(s.localRuns, runId) && Reserved(Step(s, e), runId) && !Has(Step(s, e).localRuns, runId)
  }

  /** What can do so: a cancel, the exit or error of a child of the run, quitting, a reap that found the run
      finished, and the failure of another start of the same run. */
  ghost predicate CanLose(s: State, e: Event, runId: string) {
    match e
    case Cancel(id) => id == runId
    case ChildExit(id) => id == runId
    case ChildError(id) => id == runId
    case Quit => true
    case Answered(id, finished) => WaitsToReap(s, id) && runId in Ended(s.starts[id].candidates, finished)
    case StartFailed(id, _) =>
      && id in s.starts && s.starts[id].runId == runId
      && exists other :: other != id && Waits(s, other, runId)
    case _ => false
  }

  lemma PutKeeps(runs: seq<Entry>, entry: Entry, runId: string)
    requires Distinct(runs) && Has(runs, runId)
    ensures Has(Put(runs, entry), runId)
  {
    var was :| was in runs && was.runId == runId;
    assert (if was.runId == entry.runId then entry else was) in Put(runs, entry);
  }

  lemma DeleteKeeps(runs: seq<Entry>, runIds: seq<string>, runId: string)
    requires Has(runs, runId) && runId !in runIds
    ensures Has(DeleteAll(runs, runIds), runId)
    ensures forall other :: other != runId ==> Has(Delete(runs, other), runId)
  {
    var entry :| entry in runs && entry.runId == runId;
    assert entry in DeleteAll(runs, runIds);
    assert forall other :: other != runId ==> entry in Delete(runs, other);
  }

  /** Nothing else disturbs a start. */
  lemma LosesOnlyBy(s: State, e: Event, runId: string)
    requires Distinct(s.localRuns) && !CanLose(s, e, runId)
    ensures !Loses(s, e, runId)
  {
    hide Decide, Has;
    if Has(s.localRuns, runId) {
      DeleteKeeps(s.localRuns, [], runId);
      match e {
        case Begin(id, run, folder, _) => PutKeeps(s.localRuns, Entry(run, folder, None), runId);
        case Spawned(id, workspace, child) =>
          if id in s.starts {
            PutKeeps(s.localRuns, Entry(s.starts[id].runId, workspace, Some(child)), runId);
          }
        case Answered(id, finished) =>
          if WaitsToReap(s, id) {
            DeleteKeeps(s.localRuns, Ended(s.starts[id].candidates, finished), runId);
          }
        case Rechecked(id, _) =>
          if id in s.starts && s.starts[id].Rechecking? {
            PutKeeps(s.localRuns, Entry(s.starts[id].runId, s.starts[id].folder, None), runId);
          }
        case StartFailed(id, _) =>
          if id in s.starts && s.starts[id].runId == runId {
            assert forall other :: Waits(Step(s, e), other, runId) ==> other != id && Waits(s, other, runId);
          }
        case _ =>
      }
    }
  }

  /** No entry is deleted while its run is between reservation and spawn. */
  ghost predicate Undisturbed(es: seq<Event>) {
    forall k, runId | 0 <= k < |es| :: !Loses(Run(es[..k]), es[k], runId)
  }

  ghost predicate Held(s: State) {
    forall runId | Reserved(s, runId) :: Has(s.localRuns, runId)
  }

  /** A slot without a child belongs to a start that still prepares; a slot with one keeps the machine awake. */
  ghost predicate Accounted(s: State) {
    forall entry | entry in s.localRuns ::
      if entry.child.None? then Reserved(s, entry.runId) else s.awake
  }

  /** Slots never leak, whatever happens. */
  lemma AccountedStep(s: State, e: Event)
    requires Distinct(s.localRuns) && Accounted(s)
    ensures Accounted(Step(s, e))
  {
    hide Decide;
    var r := Step(s, e);
    forall entry | entry in r.localRuns
      ensures if entry.child.None? then Reserved(r, entry.runId) else r.awake
    {
      if entry in s.localRuns {
        if entry.child.None? {
          var id :| Waits(s, id, entry.runId);
          assert Waits(r, id, entry.runId);
        }
      } else {
        assert e.Begin? || e.Rechecked? || e.Spawned?;
        if !e.Spawned? {
          assert Waits(r, e.id, entry.runId);
        }
      }
    }
  }

  lemma HeldStep(s: State, e: Event)
    requires Distinct(s.localRuns) && Held(s) && forall runId :: !Loses(s, e, runId)
    ensures Held(Step(s, e))
  {
    hide Decide;
    var r := Step(s, e);
    forall runId | Reserved(r, runId)
      ensures Has(r.localRuns, runId)
    {
      var id :| Waits(r, id, runId);
      if Waits(s, id, runId) {
        assert Has(s.localRuns, runId);
        assert !Loses(s, e, runId);
      } else {
        assert e.Begin? || e.Rechecked?;
        assert exists folder :: Entry(runId, folder, None) in r.localRuns;
      }
    }
  }

  lemma {:induction false} UndisturbedPrefix(es: seq<Event>, n: nat)
    requires n <= |es| && Undisturbed(es)
    ensures Undisturbed(es[..n])
  {
    forall k, runId | 0 <= k < n
      ensures !Loses(Run(es[..n][..k]), es[..n][k], runId)
    {
      assert es[..n][..k] == es[..k];
    }
  }

  /** In every interleaving that deletes no run between reservation and spawn, the desk stays within its limit. */
  lemma {:induction false} DeskStaysWithinLimit(es: seq<Event>, bound: nat)
    requires Undisturbed(es) && AllWithin(es, bound)
    ensures |Run(es).localRuns| <= bound && Held(Run(es))
  {
    if es != [] {
      var n := |es| - 1;
      var s, e := Run(es[..n]), es[n];
      UndisturbedPrefix(es, n);
      DeskStaysWithinLimit(es[..n], bound);
      assert forall runId :: !Loses(s, e, runId);
      HeldStep(s, e);
      OverLimitIff(s, e, bound);
      if SpawnsWithoutSlot(s, e, bound) {
        assert Waits(s, e.id, s.starts[e.id].runId);
      }
    }
  }

  /** The desk is within the bound after every event. */
  predicate StaysWithin(es: seq<Event>, bound: nat) {
    |Run(es).localRuns| <= bound && (es != [] ==> StaysWithin(es[..|es| - 1], bound))
  }

  /** No worker comes up without its slot on a full desk. */
  predicate NeverWithoutSlot(es: seq<Event>, bound: nat) {
    es != [] ==>
      var n := |es| - 1;
      NeverWithoutSlot(es[..n], bound) && !SpawnsWithoutSlot(Run(es[..n]), es[n], bound)
  }

  /** A run stays within its limit from end to end exactly if no worker ever comes up like that. */
  lemma {:induction false} WithinThroughoutIff(es: seq<Event>, bound: nat)
    requires AllWithin(es, bound)
    ensures StaysWithin(es, bound) <==> NeverWithoutSlot(es, bound)
  {
    hide Step, SpawnsWithoutSlot, LimitsWithin;
    if es != [] {
      var n := |es| - 1;
      WithinThroughoutIff(es[..n], bound);
      if StaysWithin(es[..n], bound) {
        OverLimitIff(Run(es[..n]), es[n], bound);
      }
    }
  }

  lemma NextState(es: seq<Event>, k: nat)
    requires k < |es|
    ensures Run(es[..k + 1]) == Step(Run(es[..k]), es[k])
  {
    assert es[..k + 1][..k] == es[..k];
  }

  /** Whatever the preference says and however often it changes, that is at most sixteen. */
  lemma NeverMoreThanCeiling(es: seq<Event>)
    requires Undisturbed(es)
    ensures |Run(es).localRuns| <= MAX_LOCAL_RUNS_CEILING
  {
    DeskStaysWithinLimit(es, MAX_LOCAL_RUNS_CEILING);
  }

  /** In every run at all, no slot leaks and no worker is left to a sleeping machine. */
  lemma {:induction false} SlotsAccounted(es: seq<Event>)
    ensures Accounted(Run(es))
  {
    if es != [] {
      SlotsAccounted(es[..|es| - 1]);
      AccountedStep(Run(es[..|es| - 1]), es[|es| - 1]);
    }
  }

  /** A cancel during the spawn breaks the limit: the slot is given away and the worker comes up all the same. */
  lemma CancelDuringSpawnOverfills(setting: Setting)
    requires NormalizeMaxLocalRuns(setting.maxLocalRuns) == 1
    ensures var es := [Begin(0, "a", "x", setting), Cancel("a"), Begin(1, "b", "y", setting), Spawned(0, "x", 7)];
      |Run(es).localRuns| == 2 && Loses(Run(es[..1]), es[1], "a")
  {
    var es := [Begin(0, "a", "x", setting), Cancel("a"), Begin(1, "b", "y", setting), Spawned(0, "x", 7)];
    assert es[..3][..2] == es[..2] && es[..2][..1] == es[..1] && es[..1][..0] == [];
    assert es[..1] == [es[0]] && Run([]) == IDLE;
    var s1 := Reserve(IDLE, 0, "a", "x");
    assert Run(es[..1]) == s1;
    assert s1.localRuns == [Entry("a", "x", None)];
    var s2 := Drop(s1, "a");
    assert Run(es[..2]) == s2 && s2.localRuns == [];
    assert s2 == State([], s1.starts, false);
    var s3 := Reserve(s2, 1, "b", "y");
    assert Run(es[..3]) == s3;
    assert es[..4] == es;
    assert s3.localRuns == [Entry("b", "y", None)];
    assert s3.starts[0] == Preparing("a");
    assert Waits(s2, 0, "a");
    assert s1.localRuns[0] in s1.localRuns;
  }

  // ---- a machine kept awake for nothing ----

  predicate Stranded(s: State) {
    s.awake && s.localRuns == []
  }

  /** No run but these has a slot. */
  predicate OnlyRuns(runs: seq<Entry>, runIds: set<string>) {
    forall entry | entry in runs :: entry.runId in runIds
  }

  /** The event takes the last slots away without a word about the machine: a cancel, quitting, a reap, or the failure
      of a start, which may have taken the blocker itself. */
  predicate Strands(s: State, e: Event) {
    match e
    case Cancel(runId) => s.awake && OnlyRuns(s.localRuns, {runId})
    case Quit => s.awake
    case Answered(id, finished) =>
      && WaitsToReap(s, id) && s.awake
      && OnlyRuns(s.localRuns, set runId | runId in Ended(s.starts[id].candidates, finished))
    case StartFailed(id, blocked) =>
      && id in s.starts && (s.starts[id].Preparing? || s.starts[id].Claiming?)
      && OnlyRuns(s.localRuns, {s.starts[id].runId}) && (s.awake || (blocked && s.starts[id].Preparing?))
    case _ => false
  }

  lemma DeletesAllIff(runs: seq<Entry>, runIds: seq<string>)
    ensures DeleteAll(runs, runIds) == [] <==> OnlyRuns(runs, set runId | runId in runIds)
    ensures forall runId :: Delete(runs, runId) == [] <==> OnlyRuns(runs, {runId})
  {
    var rest := DeleteAll(runs, runIds);
    if rest != [] {
      assert rest[0] in rest;
    }
    forall runId
      ensures Delete(runs, runId) == [] <==> OnlyRuns(runs, {runId})
    {
      var left := Delete(runs, runId);
      if left != [] {
        assert left[0] in left;
      }
    }
  }

  /** The machine comes to be kept awake without a run exactly by such an event. */
  lemma StrandsIff(s: State, e: Event)
    requires Distinct(s.localRuns) && !Stranded(s)
    ensures Stranded(Step(s, e)) <==> Strands(s, e)
  {
    hide Decide, Put, Delete, DeleteAll, OnlyRuns, Ended;
    DeletesAllIff(s.localRuns, []);
    match e {
      case Answered(id, finished) =>
        if WaitsToReap(s, id) {
          DeletesAllIff(s.localRuns, Ended(s.starts[id].candidates, finished));
        }
      case _ =>
    }
  }

  /** And it stays so until a child's exit is reported or a run takes a slot. */
  lemma StrandedUntil(s: State, e: Event)
    requires Stranded(s)
    ensures Stranded(Step(s, e)) <==> !e.ChildExit? && Step(s, e).localRuns == []
  {
    hide Decide, Put;
  }

  predicate NeverStranded(es: seq<Event>) {
    !Stranded(Run(es)) && (es != [] ==> NeverStranded(es[..|es| - 1]))
  }

  predicate NoneStrands(es: seq<Event>) {
    es != [] ==> var n := |es| - 1; NoneStrands(es[..n]) && !Strands(Run(es[..n]), es[n])
  }

  /** A run is never without a use for the blocker it holds exactly if none of its events is of that kind. */
  lemma {:induction false} NeverStrandedIff(es: seq<Event>)
    ensures NeverStranded(es) <==> NoneStrands(es)
  {
    hide Step, Strands, Stranded;
    if es == [] {
      IdleIsNotStranded();
    } else {
      var n := |es| - 1;
      NeverStrandedIff(es[..n]);
      if NeverStranded(es[..n]) {
        StrandsIff(Run(es[..n]), es[n]);
      }
    }
  }

  lemma IdleIsNotStranded()
    ensures !Stranded(IDLE)
  {
  }

  /** A spawn that fails once the blocker is taken leaves it held on an empty desk. */
  lemma FailedSpawnStaysAwake(runId: string, folder: string, setting: Setting)
    ensures Stranded(Run([Begin(0, runId, folder, setting), StartFailed(0, true)]))
  {
    var es := [Begin(0, runId, folder, setting), StartFailed(0, true)];
    assert es[..1] == [es[0]] && es[..1][..0] == [] && Run([]) == IDLE;
    assert Others([], runId) == [];
    var one := Reserve(IDLE, 0, runId, folder);
    assert Run(es[..1]) == one && one.localRuns == [Entry(runId, folder, None)];
    assert OnlyRuns(one.localRuns, {runId});
    assert !Stranded(one);
    StrandsIff(one, es[1]);
  }
}
