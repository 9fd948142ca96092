/**
  Spawns with a negative lifetime: whether the main loop ever leaves one depends on the stage in
  which it reaches it.
*/
module SpawnLoops {
  import opened Wrappers
  import opened Contracts
  import opened StableSort
  import opened Scheduler
  import opened RuntimeState
  import opened Replay
  import opened WarningForecast

  /** A successful spawn adds its entry to the roster, known clip or not. */
  lemma SpawnEnrolls(host: Host, pack: AssetPack, stage: Stage, source: ScheduledAction)
    requires IsSpawn(source.action) && SpawnedBy(host, pack, stage, source).Some?
    ensures SpawnedEntry(host, pack, source).Some?
    ensures RosterOf(ApplyAction(host, pack, stage, source).objects)
         == Added(RosterOf(stage.objects), SpawnedEntry(host, pack, source).value)
  {
    hide ApplyAction, RosterOf, Added, InsertOrReplaceObject, Resolves;
    PresetIsFound(host, pack, stage, source);
    SpawnedAsForecast(host, pack, stage, source);
    SpawnChanges(host, pack, stage, source);
    RosterOfInserted(stage, SpawnedBy(host, pack, stage, source).value);
  }

  lemma PresetIsFound(host: Host, pack: AssetPack, stage: Stage, source: ScheduledAction)
    requires IsSpawn(source.action) && SpawnedBy(host, pack, stage, source).Some?
    ensures FindPreset(pack.objectPresets, source.action.presetId).Some?
  {
  }

  lemma AddedTwice(roster: seq<Entry>, entry: Entry)
    ensures Added(Added(roster, entry), entry) == Added(roster, entry)
  {
    var others := (other: Entry) => other.id != entry.id;
    KeepSnoc(Keep(roster, others), entry, others);
    KeepAll(Keep(roster, others), others);
  }

  /** Whether a spawn succeeds is a matter of the roster alone. */
  lemma SameRosterSameSpawn(host: Host, pack: AssetPack, one: Stage, other: Stage, source: ScheduledAction)
    requires IsSpawn(source.action) && RosterOf(one.objects) == RosterOf(other.objects)
    ensures SpawnedBy(host, pack, one, source).Some? <==> SpawnedBy(host, pack, other, source).Some?
  {
    hide RosterOf, Resolves;
    if FindPreset(pack.objectPresets, source.action.presetId).Some? {
      SpawnedAsForecast(host, pack, one, source);
      SpawnedAsForecast(host, pack, other, source);
    }
  }

  /** Once it has succeeded twice in a row a spawn goes on succeeding. */
  lemma SucceedsAgain(host: Host, pack: AssetPack, stage: Stage, source: ScheduledAction, roster: seq<Entry>)
    requires IsSpawn(source.action) && SpawnedBy(host, pack, stage, source).Some?
    requires SpawnedEntry(host, pack, source).Some?
    requires RosterOf(stage.objects) == Added(roster, SpawnedEntry(host, pack, source).value)
    ensures RosterOf(ApplyAction(host, pack, stage, source).objects) == RosterOf(stage.objects)
    ensures SpawnedBy(host, pack, ApplyAction(host, pack, stage, source), source).Some?
  {
    hide ApplyAction, RosterOf, Added, SpawnedBy, SpawnedEntry;
    SpawnEnrolls(host, pack, stage, source);
    AddedTwice(roster, SpawnedEntry(host, pack, source).value);
    SameRosterSameSpawn(host, pack, stage, ApplyAction(host, pack, stage, source), source);
  }

  /** A spawn that fails warns, and then fails again. */
  lemma FailsAgain(host: Host, pack: AssetPack, stage: Stage, source: ScheduledAction)
    requires ClipsAdvance(pack) && IsSpawn(source.action) && SpawnedBy(host, pack, stage, source).None?
    ensures FollowUps(host, pack, stage, source) == []
    ensures SpawnedBy(host, pack, ApplyAction(host, pack, stage, source), source).None?
  {
    hide ApplyAction, SpawnedBy, RosterOf;
    Branches(host, pack, stage, source);
    WarnIsSeen(host, stage, source, SpawnFailure(pack, source));
    SameRosterSameSpawn(host, pack, stage, ApplyAction(host, pack, stage, source), source);
  }

  lemma SpawnPushesIntoPast(host: Host, pack: AssetPack, stage: Stage, job: ScheduledAction)
    requires ClipsAdvance(pack) && IsSpawn(job.action) && !LifetimeOk(job.action)
    requires SpawnedBy(host, pack, stage, job).Some?
    ensures LastIsPast(job, FollowUps(host, pack, stage, job))
  {
    var action := job.action;
    var spawned := SpawnedBy(host, pack, stage, job).value;
    var after := RemovalOf(job, spawned.id, LifetimeOf(action));
    assert |after| == 1 && !RunsNoLater(job, after[0]);
    if action.SpawnEffect? {
      var targetId := if action.onCompleteTargetId.None? then None
                      else action.onCompleteTargetId.value.OrElse(action.nearId);
      var before := CompletionOf(pack, job, spawned.currentAnimationId, targetId, action.onCompleteState);
      CompletionLater(pack, job, spawned.currentAnimationId, targetId, action.onCompleteState);
      assert (before + after)[..|before|] == before;
    }
    hide SpawnedBy, CompletionOf;
  }

  /** A due spawn with a negative lifetime that the main loop has reached is never left exactly
      when it succeeds in the stage it finds and in the one it leaves. */
  lemma SpawnIsNeverLeftIff(host: Host, pack: AssetPack, items: seq<ScheduledAction>, index: nat, stage: Stage,
                            timeMs: real)
    requires ClipsAdvance(pack) && index < |items|
    requires var job := Sort(items, RunsNoLater)[index];
             IsSpawn(job.action) && !LifetimeOk(job.action) && Due(job, timeMs)
    ensures var job := Sort(items, RunsNoLater)[index];
            && SpawnedBy(host, pack, stage, job).Some?
            && SpawnedBy(host, pack, ApplyAction(host, pack, stage, job), job).Some?
            <==>
            forall n: nat :: IsAt(Iterations(RuntimeEngine(host, pack), items, index, stage, timeMs, n), index + n, job)
  {
    hide ApplyAction, SpawnedBy, FollowUps, Iterations, Sort, RunsNoLater, IsAt, LifetimeOk, RosterOf;
    var engine, job := RuntimeEngine(host, pack), Sort(items, RunsNoLater)[index];
    if SpawnedBy(host, pack, stage, job).None? {
      var n := FailingIsLeft(host, pack, items, index, stage, timeMs, job);
    } else {
      var next := Iterate(engine, items, index, stage, timeMs);
      if SpawnedBy(host, pack, next.2, job).None? {
        var n := FailingIsLeft(host, pack, next.0, next.1, next.2, timeMs, job);
        FirstIteration(engine, items, index, stage, timeMs, n);
        assert !IsAt(Iterations(engine, items, index, stage, timeMs, n + 1), index + (n + 1), job);
      } else {
        forall n: nat ensures IsAt(Iterations(engine, items, index, stage, timeMs, n), index + n, job) {
          SucceedingIsNeverLeft(host, pack, items, index, stage, timeMs, n);
        }
      }
    }
  }

  lemma FailingIsLeft(host: Host, pack: AssetPack, items: seq<ScheduledAction>, index: nat, stage: Stage, timeMs: real,
                      job: ScheduledAction) returns (n: nat)
    requires ClipsAdvance(pack) && index <= |items|
    requires IsSpawn(job.action) && Due(job, timeMs) && SpawnedBy(host, pack, stage, job).None?
    ensures !IsAt(Iterations(RuntimeEngine(host, pack), items, index, stage, timeMs, n), index + n, job)
  {
    hide ApplyAction, SpawnedBy, FollowUps, Iterations, Sort, RunsNoLater, IsAt;
    var engine := RuntimeEngine(host, pack);
    var idle := (s: Stage) => SpawnedBy(host, pack, s, job).None?;
    forall s: Stage | idle(s) ensures engine.push(s, job) == [] && idle(engine.apply(s, job)) {
      FailsAgain(host, pack, s, job);
    }
    n := IdleIsLeft(engine, items, index, stage, timeMs, job, idle);
  }

  lemma SucceedingIsNeverLeft(host: Host, pack: AssetPack, items: seq<ScheduledAction>, index: nat, stage: Stage,
                              timeMs: real,
                              n: nat)
    requires ClipsAdvance(pack) && index < |items|
    requires var job := Sort(items, RunsNoLater)[index];
             && IsSpawn(job.action) && !LifetimeOk(job.action) && Due(job, timeMs)
             && SpawnedBy(host, pack, stage, job).Some?
             && SpawnedBy(host, pack, ApplyAction(host, pack, stage, job), job).Some?
    ensures IsAt(Iterations(RuntimeEngine(host, pack), items, index, stage, timeMs, n), index + n,
            Sort(items, RunsNoLater)[index])
  {
    hide ApplyAction, SpawnedBy, FollowUps, Iterations, Sort, RunsNoLater, LifetimeOk, RosterOf, SpawnedEntry,
        LastIsPast;
    var engine, job := RuntimeEngine(host, pack), Sort(items, RunsNoLater)[index];
    if n == 0 {
      NoIteration(engine, items, index, stage, timeMs);
    } else {
      SpawnEnrolls(host, pack, stage, job);
      SpawnPushesIntoPast(host, pack, stage, job);
      PastPushIterates(engine, items, index, stage, timeMs);
      var next := Iterate(engine, items, index, stage, timeMs);
      var before, after := RosterOf(stage.objects), RosterOf(next.2.objects);
      var stays := (s: Stage) => RosterOf(s.objects) == after && SpawnedBy(host, pack, s, job).Some?;
      forall s: Stage | stays(s) ensures LastIsPast(job, engine.push(s, job)) && stays(engine.apply(s, job)) {
        SpawnPushesIntoPast(host, pack, s, job);
        SucceedsAgain(host, pack, s, job, before);
      }
      PastPushLoopsWhile(engine, next.0, next.1, next.2, timeMs, n - 1, stays);
      FirstIteration(engine, items, index, stage, timeMs, n - 1);
    }
  }
}
