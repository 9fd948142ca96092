/** Replaying a feed of events up to a virtual time (`buildSceneRuntimeState`). */
module Replay {
  import opened Wrappers
  import opened Contracts
  import opened StableSort
  import opened BindingEngine
  import opened Sampling
  import opened Scheduler
  import opened RuntimeState
  import AnimationRuntime
  import SamplingProperties

  // -------------------------------------------------------------- initial schedule

  predicate HappensNoLater(a: VisualEvent, b: VisualEvent) { a.ts <= b.ts }

  function ScheduledFrom(event: VisualEvent, rule: BindingRule, i: nat): ScheduledAction
    requires i < |rule.actions|
  {
    ScheduledAction(rule.actions[i].action, i as real, event, rule.id, event.ts + rule.actions[i].delayMs.GetOr(0.0))
  }

  function ActionsOfRule(event: VisualEvent, rule: BindingRule): seq<ScheduledAction> {
    seq(|rule.actions|, i requires 0 <= i < |rule.actions| => ScheduledFrom(event, rule, i))
  }

  function ActionsOfRules(event: VisualEvent, rules: seq<BindingRule>): seq<ScheduledAction> {
    if rules == [] then [] else ActionsOfRules(event, rules[..|rules| - 1]) + ActionsOfRule(event, rules[|rules| - 1])
  }

  function ActionCount(rules: seq<BindingRule>): nat {
    if rules == [] then 0 else ActionCount(rules[..|rules| - 1]) + |rules[|rules| - 1].actions|
  }

  function RuleIds(rules: seq<BindingRule>): seq<string> {
    seq(|rules|, i requires 0 <= i < |rules| => rules[i].id)
  }

  /** The work list before the first action runs. */
  function Schedule(events: seq<VisualEvent>, rules: seq<BindingRule>, timeMs: real): seq<ScheduledAction> {
    if events == [] then []
    else
      var event := events[|events| - 1];
      Schedule(events[..|events| - 1], rules, timeMs)
      + (if event.ts > timeMs then [] else ActionsOfRules(event, GetMatchingBindingRules(event, rules)))
  }

  function Dispatched(events: seq<VisualEvent>, rules: seq<BindingRule>, timeMs: real): seq<DispatchedEvent> {
    if events == [] then []
    else
      var event := events[|events| - 1];
      var matching := GetMatchingBindingRules(event, rules);
      Dispatched(events[..|events| - 1], rules, timeMs)
      + (if event.ts > timeMs then [] else [DispatchedEvent(event, RuleIds(matching), ActionCount(matching))])
  }

  function CloneInitialObject(item: SceneObject): SceneObject {
    var state := item.visualState.GetOr(item.state);
    item.(state := state, visualState := Some(state))
  }

  function InitialStage(objects: seq<SceneObject>): Stage {
    Stage(seq(|objects|, i requires 0 <= i < |objects| => CloneInitialObject(objects[i])), [], [])
  }

  // ------------------------------------------------------- the engine of the runtime

  function LifetimeOf(action: VisualAction): Option<real> {
    match action
    case PlayAnimation(_, _, lifetimeMs, _) => lifetimeMs
    case SpawnEffect(_, _, _, _, _, _, _, lifetimeMs, _, _, _) => lifetimeMs
    case SpawnFromObject(_, _, _, _, _, _, lifetimeMs, _) => lifetimeMs
    case SpawnAttachedEffect(_, _, _, _, _, _, _, lifetimeMs, _) => lifetimeMs
    case _ => None
  }

  /** The lifetime of an action, if it has one, is not negative. */
  predicate LifetimeOk(action: VisualAction) {
    LifetimeOf(action).GetOr(0.0) >= 0.0
  }

  /** The action pushes nothing into its past: its lifetime is not negative, or its preset is
      missing and it pushes nothing at all. */
  predicate PushesForward(pack: AssetPack, action: VisualAction) {
    LifetimeOk(action) || (IsSpawn(action) && FindPreset(pack.objectPresets, action.presetId).None?)
  }

  /** No scheduled action that is due pushes into its past. */
  predicate DueLifetimesOk(pack: AssetPack, events: seq<VisualEvent>, rules: seq<BindingRule>, timeMs: real) {
    forall x | x in Schedule(Sort(events, HappensNoLater), rules, timeMs) && Due(x, timeMs) ::
        PushesForward(pack, x.action)
  }

  predicate DelaysOk(rules: seq<BindingRule>) {
    forall i, j | 0 <= i < |rules| && 0 <= j < |rules[i].actions| :: rules[i].actions[j].delayMs.GetOr(0.0) >= 0.0
  }

  /** An action can push at most two more, and those push none. */
  function Weight(action: VisualAction): nat {
    if action.PlayAnimation? || IsSpawn(action) then 3 else 1
  }

  function RuntimeEngine(host: Host, pack: AssetPack): Engine<Stage>
    requires ClipsAdvance(pack)
  {
    Engine((stage: Stage, job: ScheduledAction) => ApplyAction(host, pack, stage, job),
           (stage: Stage, job: ScheduledAction) => FollowUps(host, pack, stage, job),
           (job: ScheduledAction) => Weight(job.action),
           (job: ScheduledAction) => PushesForward(pack, job.action))
  }

  lemma FollowUpsLighter(host: Host, pack: AssetPack, stage: Stage, source: ScheduledAction)
    requires ClipsAdvance(pack)
    ensures TotalWeight(RuntimeEngine(host, pack).weight, FollowUps(host, pack, stage, source)) < Weight(source.action)
  {
    var f := FollowUps(host, pack, stage, source);
    FollowUpsAreFew(host, pack, stage, source);
    hide FollowUps;
    WeightBounds(RuntimeEngine(host, pack).weight, f, 1);
  }

  lemma CompletionIsOne(pack: AssetPack, source: ScheduledAction, clipId: Option<string>, targetId: Option<string>,
                        state: Option<string>)
    requires ClipsAdvance(pack)
    ensures |CompletionOf(pack, source, clipId, targetId, state)| <= 1
    ensures forall x | x in CompletionOf(pack, source, clipId, targetId, state) :: x.action.SetState?
  {
  }

  /** An action that weighs three pushes at most two state changes or removals, and any other
      action pushes nothing. */
  lemma FollowUpsAreFew(host: Host, pack: AssetPack, stage: Stage, source: ScheduledAction)
    requires ClipsAdvance(pack)
    ensures |FollowUps(host, pack, stage, source)| < Weight(source.action)
    ensures forall x | x in FollowUps(host, pack, stage, source) :: x.action.SetState? || x.action.RemoveObject?
  {
    var action := source.action;
    if action.PlayAnimation? {
      CompletionIsOne(pack, source, Some(action.animationId), Some(action.targetId), action.onCompleteState);
    } else if action.SpawnEffect? && SpawnedBy(host, pack, stage, source).Some? {
      CompletionIsOne(pack, source, SpawnedBy(host, pack, stage, source).value.currentAnimationId,
                      if action.onCompleteTargetId.None? then None
                      else action.onCompleteTargetId.value.OrElse(action.nearId),
                      action.onCompleteState);
    }
    hide CompletionOf, SpawnedBy;
  }

  /** What an action pushes runs at or after it, behind it in the run order. */
  lemma FollowUpsLater(host: Host, pack: AssetPack, stage: Stage, source: ScheduledAction)
    requires ClipsAdvance(pack) && PushesForward(pack, source.action)
    ensures forall x | x in FollowUps(host, pack, stage, source) ::
            RunsNoLater(source, x) && PushesForward(pack, x.action)
  {
    forall i | 0 <= i < |pack.animations|
      ensures AnimationRuntime.GetAnimationDurationMs(pack.animations[i]) >= 1
    {
      AnimationRuntime.DurationIsPositive(pack.animations[i]);
    }
  }

  lemma EngineRuns(host: Host, pack: AssetPack)
    requires ClipsAdvance(pack)
    ensures Exhausts(RuntimeEngine(host, pack)) && LooksForward(RuntimeEngine(host, pack))
  {
    var engine := RuntimeEngine(host, pack);
    forall stage: Stage, job
      ensures TotalWeight(engine.weight, engine.push(stage, job)) < engine.weight(job)
      ensures engine.timely(job) ==> AllBehind(engine, job, engine.push(stage, job))
    {
      FollowUpsLighter(host, pack, stage, job);
      if PushesForward(pack, job.action) { FollowUpsLater(host, pack, stage, job); }
    }
  }

  ghost function RunFrom(host: Host, pack: AssetPack, stage: Stage, pending: seq<ScheduledAction>,
                         timeMs: real): Run<Stage>
    requires ClipsAdvance(pack)
  {
    EngineRuns(host, pack);
    Simulate(RuntimeEngine(host, pack), stage, pending, timeMs)
  }

  /** The reference run: events in time order, then the simulator. */
  ghost function ReferenceRun(host: Host, pack: AssetPack, events: seq<VisualEvent>, rules: seq<BindingRule>,
                              objects: seq<SceneObject>, timeMs: real): Run<Stage>
    requires ClipsAdvance(pack)
  {
    RunFrom(host, pack, InitialStage(objects), Schedule(Sort(events, HappensNoLater), rules, timeMs), timeMs)
  }

  // -------------------------------------------------------------- the main loop

  /** The runtime's main loop. It ends, it executes what the reference simulator executes, in
      that order, it leaves the simulator's stage, and the array then holds the executed
      actions followed by actions that are not due, at most three entries for each initial
      one. */
  method RunWorkList(host: Host, pack: AssetPack, start: Stage, workList: WorkList, timeMs: real)
    returns (stage: Stage, ghost executed: seq<ScheduledAction>)
    requires ClipsAdvance(pack) && AllTimely(RuntimeEngine(host, pack), workList.items, timeMs)
    modifies workList
    ensures var run := RunFrom(host, pack, start, old(workList.items), timeMs);
            && stage == run.state
            && executed == run.trace
            && executed <= Sort(workList.items, RunsNoLater)
            && (forall x | x in Sort(workList.items, RunsNoLater)[|executed|..] :: !Due(x, timeMs))
    ensures |workList.items| <= 3 * |old(workList.items)|
  {
    hide Simulate, ApplyAction, FollowUps, RunsNoLater;
    ghost var engine, initial := RuntimeEngine(host, pack), workList.items;
    EngineRuns(host, pack);
    ghost var whole := Simulate(engine, start, initial, timeMs);
    executed := [];
    ghost var pushed, pending := [], initial;
    LoopStarts(engine, timeMs, initial, start);
    WeightBounds(engine.weight, initial, 3);
    stage := start;
    var index := 0;
    while index < |workList.items|
      invariant LoopInvariant(engine, timeMs, whole, workList.items, index, stage, executed, pushed, pending)
      invariant TotalWeight(engine.weight, pending) + |executed| <= 3 * |initial|
      decreases TotalWeight(engine.weight, pending) - (index - |executed|)
    {
      WeightBounds(engine.weight, pending, 3);
      ghost var before := workList.items;
      workList.SortByTime();
      var scheduledAction := workList.items[index];
      if scheduledAction.runAt > timeMs {
        LoopSkips(engine, timeMs, whole, before, index, stage, executed, pushed, pending);
        index := index + 1;
        continue;
      }
      LoopRuns(engine, timeMs, whole, before, index, stage, executed, pushed, pending);
      RemainingIsLighter(engine, stage, pending);
      ghost var remaining := Remaining(engine, stage, pending);
      ghost var more := engine.push(stage, scheduledAction);
      stage := ApplyScheduledAction(host, pack, stage, scheduledAction, workList);
      executed, pushed, pending := executed + [scheduledAction], pushed + more, remaining;
      index := index + 1;
    }
    WeightBounds(engine.weight, pending, 3);
    LoopEnds(engine, timeMs, whole, workList.items, index, stage, executed, pushed, pending);
  }

  method PushActionsOfRule(event: VisualEvent, rule: BindingRule, workList: WorkList)
    modifies workList
    ensures workList.items == old(workList.items) + ActionsOfRule(event, rule)
  {
    for actionIndex := 0 to |rule.actions|
      invariant workList.items == old(workList.items) + ActionsOfRule(event, rule)[..actionIndex]
    {
      workList.Push(ScheduledFrom(event, rule, actionIndex));
    }
  }

  method PushActionsOfRules(event: VisualEvent, matchingRules: seq<BindingRule>, workList: WorkList)
    modifies workList
    ensures workList.items == old(workList.items) + ActionsOfRules(event, matchingRules)
  {
    for j := 0 to |matchingRules|
      invariant workList.items == old(workList.items) + ActionsOfRules(event, matchingRules[..j])
    {
      assert matchingRules[..j + 1][..j] == matchingRules[..j];
      PushActionsOfRule(event, matchingRules[j], workList);
    }
    assert matchingRules[..|matchingRules|] == matchingRules;
  }

  /** Dispatches the events, collecting the actions of the rules they match. */
  method DispatchEvents(events: seq<VisualEvent>, rules: seq<BindingRule>, workList: WorkList, timeMs: real)
    returns (dispatched: seq<DispatchedEvent>)
    requires workList.items == []
    modifies workList
    ensures dispatched == Dispatched(Sort(events, HappensNoLater), rules, timeMs)
    ensures workList.items == Schedule(Sort(events, HappensNoLater), rules, timeMs)
  {
    dispatched := [];
    var sortedEvents := Sort(events, HappensNoLater);
    for i := 0 to |sortedEvents|
      invariant dispatched == Dispatched(sortedEvents[..i], rules, timeMs)
      invariant workList.items == Schedule(sortedEvents[..i], rules, timeMs)
    {
      var event := sortedEvents[i];
      assert sortedEvents[..i + 1][..i] == sortedEvents[..i];
      if event.ts > timeMs {
        continue;
      }
      var matchingRules := GetMatchingBindingRules(event, rules);
      dispatched := dispatched + [DispatchedEvent(event, RuleIds(matchingRules), ActionCount(matchingRules))];
      PushActionsOfRules(event, matchingRules, workList);
    }
    assert sortedEvents[..|sortedEvents|] == sortedEvents;
  }

  /** The order in which objects are layered. */
  predicate NotAbove(a: SceneObject, b: SceneObject) { a.zIndex.GetOr(0.0) <= b.zIndex.GetOr(0.0) }

  /** The state the runtime returns for a stage reached by a run. */
  function Snapshot(host: Host, stage: Stage, dispatched: seq<DispatchedEvent>, timeMs: real): SceneRuntimeState {
    var sampled := SampleObjects(host, stage.objects, stage.visualTracks, timeMs);
    SceneRuntimeState(
      Sort(sampled, NotAbove),
      Keep(sampled, (item: SceneObject) => item.spawned),
      Keep(sampled, (item: SceneObject) => item.kind == "effect" && !item.hidden),
      RetainedTracks(stage.visualTracks, timeMs), dispatched, stage.warnings)
  }

  /** The whole replay. It equals the snapshot of the reference run, drawn from all tracks:
      neither the re-sorted array nor the dropped tracks can be told from the outside. */
  method BuildSceneRuntimeState(host: Host, pack: AssetPack, events: seq<VisualEvent>, rules: seq<BindingRule>,
                                objects: seq<SceneObject>, timeMs: real)
    returns (result: SceneRuntimeState)
    requires ClipsAdvance(pack) && DueLifetimesOk(pack, events, rules, timeMs)
    ensures result == Snapshot(host, ReferenceRun(host, pack, events, rules, objects, timeMs).state,
                               Dispatched(Sort(events, HappensNoLater), rules, timeMs), timeMs)
  {
    var workList := new WorkList();
    var dispatched := DispatchEvents(events, rules, workList, timeMs);
    var stage, executed := RunWorkList(host, pack, InitialStage(objects), workList, timeMs);
    var retainedTracks := RetainedTracks(stage.visualTracks, timeMs);
    var sampledObjects := SampleObjectsFromTracks(host, stage.objects, retainedTracks, timeMs);
    SamplingProperties.SamplingIgnoresDroppedTracks(host, stage.objects, stage.visualTracks, timeMs);
    result := SceneRuntimeState(
      Sort(sampledObjects, NotAbove),
      Keep(sampledObjects, (item: SceneObject) => item.spawned),
      Keep(sampledObjects, (item: SceneObject) => item.kind == "effect" && !item.hidden),
      retainedTracks, dispatched, stage.warnings);
  }

  // ------------------------------------------------------- what is on the schedule

  /** The action comes from a rule of the list and is due no earlier than its event. */
  ghost predicate FromRules(item: ScheduledAction, rules: seq<BindingRule>) {
    exists i, j | 0 <= i < |rules| && 0 <= j < |rules[i].actions| ::
      item == ScheduledFrom(item.event, rules[i], j)
  }

  lemma {:induction false} RuleActionsFromRules(event: VisualEvent, some: seq<BindingRule>, rules: seq<BindingRule>)
    requires forall r | r in some :: r in rules
    ensures forall x | x in ActionsOfRules(event, some) :: x.event == event && FromRules(x, rules)
    ensures |ActionsOfRules(event, some)| == ActionCount(some)
  {
    if some != [] {
      var front, last := some[..|some| - 1], some[|some| - 1];
      RuleActionsFromRules(event, front, rules);
      forall x | x in ActionsOfRule(event, last) ensures x.event == event && FromRules(x, rules) {
        var j :| 0 <= j < |last.actions| && x == ActionsOfRule(event, last)[j];
        assert last in rules;
        var i :| 0 <= i < |rules| && rules[i] == last;
        assert x == ScheduledFrom(x.event, rules[i], j);
      }
    }
  }

  lemma {:induction false} ScheduleFromRules(events: seq<VisualEvent>, rules: seq<BindingRule>, timeMs: real)
    ensures forall x | x in Schedule(events, rules, timeMs) ::
              x.event in events && x.event.ts <= timeMs && FromRules(x, rules)
  {
    if events != [] {
      var event := events[|events| - 1];
      ScheduleFromRules(events[..|events| - 1], rules, timeMs);
      RuleActionsFromRules(event, GetMatchingBindingRules(event, rules), rules);
    }
  }

  function TotalActions(dispatched: seq<DispatchedEvent>): nat {
    if dispatched == [] then 0
    else TotalActions(dispatched[..|dispatched| - 1]) + dispatched[|dispatched| - 1].actionCount
  }

  /** The action counts of the dispatched events add up to the initial work list. */
  lemma {:induction false} DispatchCountsActions(events: seq<VisualEvent>, rules: seq<BindingRule>, timeMs: real)
    ensures TotalActions(Dispatched(events, rules, timeMs)) == |Schedule(events, rules, timeMs)|
  {
    if events != [] {
      var front, event := events[..|events| - 1], events[|events| - 1];
      DispatchCountsActions(front, rules, timeMs);
      if event.ts <= timeMs {
        RuleActionsFromRules(event, GetMatchingBindingRules(event, rules), rules);
        var all := Dispatched(events, rules, timeMs);
        assert all[..|all| - 1] == Dispatched(front, rules, timeMs);
      } else {
        assert Dispatched(front, rules, timeMs) + [] == Dispatched(front, rules, timeMs);
      }
    }
  }

  // ------------------------------------------------------------ seek equals resume

  lemma {:induction false} LaterEventsNotDue(events: seq<VisualEvent>, rules: seq<BindingRule>, t: real, u: real)
    requires DelaysOk(rules) && t <= u
    ensures DueItems(Schedule(events, rules, t), t) == DueItems(Schedule(events, rules, u), t)
  {
    if events != [] {
      var front, event := events[..|events| - 1], events[|events| - 1];
      LaterEventsNotDue(front, rules, t, u);
      var actions := ActionsOfRules(event, GetMatchingBindingRules(event, rules));
      KeepAppend(Schedule(front, rules, t), if event.ts > t then [] else actions, item => Due(item, t));
      KeepAppend(Schedule(front, rules, u), if event.ts > u then [] else actions, item => Due(item, t));
      RuleActionsFromRules(event, GetMatchingBindingRules(event, rules), rules);
      if event.ts > t {
        KeepNone(actions, item => Due(item, t));
        assert DueItems([], t) == [];
      }
    }
  }

  lemma {:induction false} DispatchedPrefix(events: seq<VisualEvent>, rules: seq<BindingRule>, t: real, u: real)
    requires Sorted(events, HappensNoLater) && t <= u
    ensures Dispatched(events, rules, t) <= Dispatched(events, rules, u)
    ensures events != [] && events[|events| - 1].ts <= t ==>
            Dispatched(events, rules, t) == Dispatched(events, rules, u)
  {
    if events != [] {
      var front, event := events[..|events| - 1], events[|events| - 1];
      DispatchedPrefix(front, rules, t, u);
      if event.ts <= t && front != [] { assert HappensNoLater(front[|front| - 1], event); }
    }
  }

  /** Seeking to `u` at once is playing to `t` and resuming: what runs until `t` runs first
      and alike, the stage at `u` is the stage at `t` with the rest of the run applied, and
      what was dispatched or warned about until `t` stays. */
  lemma SeekIsResume(host: Host, pack: AssetPack, events: seq<VisualEvent>, rules: seq<BindingRule>,
                     objects: seq<SceneObject>, t: real, u: real)
    requires ClipsAdvance(pack) && DelaysOk(rules) && t <= u
    ensures var early := ReferenceRun(host, pack, events, rules, objects, t);
            var late := ReferenceRun(host, pack, events, rules, objects, u);
            && early.trace <= late.trace
            && late.state == ApplyAll(RuntimeEngine(host, pack), early.state, late.trace[|early.trace|..])
            && early.state.warnings <= late.state.warnings
    ensures Dispatched(Sort(events, HappensNoLater), rules, t) <= Dispatched(Sort(events, HappensNoLater), rules, u)
  {
    EngineRuns(host, pack);
    var engine, sorted := RuntimeEngine(host, pack), Sort(events, HappensNoLater);
    LaterEventsNotDue(sorted, rules, t, u);
    RunsAlikeUntil(engine, InitialStage(objects), Schedule(sorted, rules, t), Schedule(sorted, rules, u), t, u);
    var early := ReferenceRun(host, pack, events, rules, objects, t);
    var late := ReferenceRun(host, pack, events, rules, objects, u);
    WarningsOnlyGrow(host, pack, early.state, late.trace[|early.trace|..]);
    EventOrderIsPreorder();
    SortSorted(events, HappensNoLater);
    DispatchedPrefix(sorted, rules, t, u);
  }

  lemma EventOrderIsPreorder()
    ensures TotalPreorder(HappensNoLater)
  {
  }

  lemma RemoveKeepsWarnings(host: Host, stage: Stage, victimId: Option<string>, tag: Option<string>,
                            selector: Option<MetadataSelector>, source: ScheduledAction)
    ensures stage.warnings <= RemoveObjects(host, stage, victimId, tag, selector, source).warnings
  {
  }

  lemma UpdateKeepsWarnings(host: Host, pack: AssetPack, stage: Stage, source: ScheduledAction)
    requires IsUpdate(source.action)
    ensures stage.warnings <= ApplyAction(host, pack, stage, source).warnings
  {
  }

  lemma TargetWarningsGrow(host: Host, stage: Stage, id: string, source: ScheduledAction)
    ensures stage.warnings <= TrackTargetWarning(host, stage, id, source).warnings
    ensures stage.warnings <= AttachmentTargetWarning(host, stage, id, source).warnings
  {
    WarnGrows(host, stage, source, "Track target " + id + " was not found.");
    WarnGrows(host, stage, source, "Attachment target " + id + " was not found.");
    hide FindObject;
  }

  lemma WarnGrows(host: Host, stage: Stage, source: ScheduledAction, message: string)
    ensures stage.warnings <= Warn(host, stage, source, message).warnings
    ensures Warn(host, stage, source, message).objects == stage.objects
  {
  }

  lemma TrackWarningsGrow(host: Host, stage: Stage, source: ScheduledAction)
    ensures stage.warnings <= TrackWarnings(host, stage, source).warnings
  {
    hide Warn, TrackTargetWarning, AttachmentTargetWarning, FindObject;
    if IsTrackAction(source.action) {
      TargetWarningsGrow(host, stage, source.action.targetId, source);
      var next := TrackTargetWarning(host, stage, source.action.targetId, source);
      if source.action.MoveToObject? || source.action.OrbitAround? || source.action.AttachToObject? {
        TargetWarningsGrow(host, next, source.action.targetObjectId, source);
      }
      WarnGrows(host, next, source, "Move path must contain at least two points.");
      WarnGrows(host, stage, source, "Route trail must contain at least two points.");
    }
  }

  lemma TrackActionKeepsWarnings(host: Host, pack: AssetPack, stage: Stage, source: ScheduledAction)
    requires IsTrackAction(source.action)
    ensures stage.warnings <= ApplyAction(host, pack, stage, source).warnings
  {
    hide ApplyAction, TrackOf, TrackWarnings;
    TrackWarningsGrow(host, stage, source);
    Branches(host, pack, stage, source);
  }

  lemma SpawnKeepsWarnings(host: Host, pack: AssetPack, stage: Stage, source: ScheduledAction)
    requires IsSpawn(source.action)
    ensures stage.warnings <= ApplyAction(host, pack, stage, source).warnings
  {
    hide ApplyAction, SpawnedBy, Warn, FindClip, FindObject;
    Branches(host, pack, stage, source);
    var spawned := SpawnedBy(host, pack, stage, source);
    if spawned.None? {
      WarnGrows(host, stage, source, SpawnFailure(pack, source));
    } else {
      WarnGrows(host, stage, source, "Animation " + spawned.value.currentAnimationId.GetOr("") + " was not found.");
    }
  }

  lemma DespawnKeepsWarnings(host: Host, pack: AssetPack, stage: Stage, source: ScheduledAction)
    requires source.action.DespawnAtObject?
    ensures stage.warnings <= ApplyAction(host, pack, stage, source).warnings
  {
    hide ApplyAction, DockedObject, RemoveObjects, TrackTargetWarning, AttachmentTargetWarning;
    Branches(host, pack, stage, source);
    TargetWarningsGrow(host, stage, source.action.targetId, source);
    TargetWarningsGrow(host, TrackTargetWarning(host, stage, source.action.targetId, source),
        source.action.targetObjectId, source);
    var next := DespawnWarnings(host, stage, source);
    var docked := DockedObject(host, next, source);
    if docked.Some? {
      RemoveKeepsWarnings(host, InsertOrReplaceObject(next, docked.value), Some(docked.value.id), None, None, source);
    }
  }

  /** Warnings are only ever appended. */
  lemma ActionKeepsWarnings(host: Host, pack: AssetPack, stage: Stage, source: ScheduledAction)
    ensures stage.warnings <= ApplyAction(host, pack, stage, source).warnings
  {
    if IsUpdate(source.action) {
      UpdateKeepsWarnings(host, pack, stage, source);
    } else if IsSpawn(source.action) {
      SpawnKeepsWarnings(host, pack, stage, source);
    } else if IsTrackAction(source.action) {
      TrackActionKeepsWarnings(host, pack, stage, source);
    } else if source.action.DespawnAtObject? {
      DespawnKeepsWarnings(host, pack, stage, source);
    } else if source.action.RemoveObject? {
      RemoveKeepsWarnings(host, stage, source.action.victimId, source.action.tag, source.action.selector, source);
    }
  }

  lemma {:induction false} WarningsOnlyGrow(host: Host, pack: AssetPack, stage: Stage, jobs: seq<ScheduledAction>)
    requires ClipsAdvance(pack)
    ensures stage.warnings <= ApplyAll(RuntimeEngine(host, pack), stage, jobs).warnings
    decreases |jobs|
  {
    if jobs != [] {
      ActionKeepsWarnings(host, pack, stage, jobs[0]);
      WarningsOnlyGrow(host, pack, ApplyAction(host, pack, stage, jobs[0]), jobs[1..]);
    }
  }

  /** A warning of the first job is still there at the end. */
  lemma FirstWarningStays(host: Host, pack: AssetPack, stage: Stage, pending: seq<ScheduledAction>, timeMs: real)
    requires ClipsAdvance(pack) && !Finished(pending, timeMs)
    ensures ApplyAction(host, pack, stage, pending[Earliest(pending)]).warnings <= RunFrom(host, pack, stage,
            pending, timeMs).state.warnings
  {
    EngineRuns(host, pack);
    var engine := RuntimeEngine(host, pack);
    var after, remaining := ApplyAction(host, pack, stage, pending[Earliest(pending)]),
        Remaining(engine, stage, pending);
    hide ApplyAction, FollowUps;
    StateIsFoldOfTrace(engine, after, remaining, timeMs);
    WarningsOnlyGrow(host, pack, after, Simulate(engine, after, remaining, timeMs).trace);
  }

  /** The whole run in one statement: exactly the due actions among the scheduled and the
      pushed ones execute, once each, by time, action index and insertion. */
  lemma RunExecutesDueInOrder(host: Host, pack: AssetPack, events: seq<VisualEvent>, rules: seq<BindingRule>,
                              objects: seq<SceneObject>, timeMs: real)
    requires ClipsAdvance(pack) && DueLifetimesOk(pack, events, rules, timeMs)
    ensures var run := ReferenceRun(host, pack, events, rules, objects, timeMs);
            var scheduled := Schedule(Sort(events, HappensNoLater), rules, timeMs);
            && run.trace == DueItems(Sort(scheduled + run.pushed, RunsNoLater), timeMs)
            && run.state == ApplyAll(RuntimeEngine(host, pack), InitialStage(objects), run.trace)
  {
    EngineRuns(host, pack);
    var scheduled := Schedule(Sort(events, HappensNoLater), rules, timeMs);
    ExecutesDueInOrder(RuntimeEngine(host, pack), InitialStage(objects), scheduled, timeMs);
    StateIsFoldOfTrace(RuntimeEngine(host, pack), InitialStage(objects), scheduled, timeMs);
  }

  // ------------------------------------------------------------ when the main loop ends

  /** If its lifetime is negative, the action pushes its removal into the past, on whatever
      stage: it plays an animation, or spawns an effect of a known preset near nothing. */
  predicate PushesOnAnyStage(pack: AssetPack, action: VisualAction) {
    || action.PlayAnimation?
    || (action.SpawnEffect? && !Truthy(action.nearId) && FindPreset(pack.objectPresets, action.presetId).Some?)
  }

  lemma NegativeLifetimePushesIntoPast(host: Host, pack: AssetPack, stage: Stage, job: ScheduledAction)
    requires ClipsAdvance(pack) && PushesOnAnyStage(pack, job.action) && !LifetimeOk(job.action)
    ensures LastIsPast(job, FollowUps(host, pack, stage, job))
  {
    var action := job.action;
    var spawned := if action.SpawnEffect? then SpawnedBy(host, pack, stage, job) else None;
    var clipId := if action.PlayAnimation? then Some(action.animationId) else spawned.value.currentAnimationId;
    var targetId := if action.PlayAnimation? then Some(action.targetId)
                    else if action.onCompleteTargetId.None? then None
                    else action.onCompleteTargetId.value.OrElse(action.nearId);
    var before := CompletionOf(pack, job, clipId, targetId, action.onCompleteState);
    var after := RemovalOf(job, if action.PlayAnimation? then action.targetId else spawned.value.id, action.lifetimeMs);
    CompletionLater(pack, job, clipId, targetId, action.onCompleteState);
    assert |after| == 1 && !RunsNoLater(job, after[0]);
    assert (before + after)[..|before|] == before;
  }

  /** The due negative lifetimes are of such actions. A spawn near a target is not: its object
      may take the place of the target, and then the second run finds no target and pushes
      nothing (`SpawnReplacesItsSource`). */
  predicate NegativesPush(pack: AssetPack, items: seq<ScheduledAction>, timeMs: real) {
    forall x | x in items && Due(x, timeMs) :: PushesForward(pack, x.action) || PushesOnAnyStage(pack, x.action)
  }

  lemma NegativesAreDecided(host: Host, pack: AssetPack, items: seq<ScheduledAction>, timeMs: real)
    requires ClipsAdvance(pack) && NegativesPush(pack, items, timeMs)
    ensures Decided(RuntimeEngine(host, pack), items, timeMs)
    ensures forall x | x in items && Due(x, timeMs) && !PushesForward(pack, x.action) ::
            PushesIntoPast(RuntimeEngine(host, pack), x)
  {
    var engine := RuntimeEngine(host, pack);
    forall x | x in items && Due(x, timeMs) && !PushesForward(pack, x.action) ensures PushesIntoPast(engine, x) {
      forall stage: Stage ensures LastIsPast(x, engine.push(stage, x)) {
        NegativeLifetimePushesIntoPast(host, pack, stage, x);
      }
    }
  }

  /** One due action with a negative lifetime, anywhere in the work list, is enough: the loop
      makes any number of iterations without getting to the end of its array. */
  lemma NegativeLifetimeLoopsForEver(host: Host, pack: AssetPack, items: seq<ScheduledAction>, stage: Stage,
                                     timeMs: real, n: nat)
    requires ClipsAdvance(pack) && NegativesPush(pack, items, timeMs)
    requires exists x :: x in items && Due(x, timeMs) && !PushesForward(pack, x.action)
    ensures var now := Iterations(RuntimeEngine(host, pack), items, 0, stage, timeMs, n); now.1 == n < |now.0|
  {
    var engine := RuntimeEngine(host, pack);
    EngineRuns(host, pack);
    NegativesAreDecided(host, pack, items, timeMs);
    SortedMembers(items);
    hide PushesIntoPast, Sort;
    var x :| x in items && Due(x, timeMs) && !PushesForward(pack, x.action);
    var sorted := Sort(items, RunsNoLater);
    var k :| 0 <= k < |sorted| && sorted[k] == x;
    assert PushesIntoPast(engine, sorted[k]);
    PastPushIsReached(engine, items, 0, stage, timeMs, n);
  }

  /** The main loop after `n` iterations, started on the schedule of a feed. */
  ghost function LoopAfter(host: Host, pack: AssetPack, events: seq<VisualEvent>, rules: seq<BindingRule>,
                           objects: seq<SceneObject>, timeMs: real, n: nat): (seq<ScheduledAction>, nat, Stage)
    requires ClipsAdvance(pack)
  {
    Iterations(RuntimeEngine(host, pack), Schedule(Sort(events, HappensNoLater), rules, timeMs), 0,
        InitialStage(objects), timeMs, n)
  }

  /** The main loop gets to the end of its array exactly when no due scheduled action has a
      negative lifetime, spawns without their preset excepted. */
  lemma MainLoopEndsIff(host: Host, pack: AssetPack, events: seq<VisualEvent>, rules: seq<BindingRule>,
                        objects: seq<SceneObject>, timeMs: real)
    requires ClipsAdvance(pack) && NegativesPush(pack, Schedule(Sort(events, HappensNoLater), rules, timeMs), timeMs)
    ensures (exists n: nat :: AtEnd(LoopAfter(host, pack, events, rules, objects, timeMs, n))) <==>
            DueLifetimesOk(pack, events, rules, timeMs)
  {
    var engine, items := RuntimeEngine(host, pack), Schedule(Sort(events, HappensNoLater), rules, timeMs);
    EngineRuns(host, pack);
    NegativesAreDecided(host, pack, items, timeMs);
    assert AllTimely(engine, items, timeMs) <==> DueLifetimesOk(pack, events, rules, timeMs);
    hide Schedule, Iterations;
    LoopEndsIffTimely(engine, items, InitialStage(objects), timeMs);
    if AllTimely(engine, items, timeMs) {
      var n: nat :| AtEnd(Iterations(engine, items, 0, InitialStage(objects), timeMs, n));
      assert AtEnd(LoopAfter(host, pack, events, rules, objects, timeMs, n));
    } else {
      forall n: nat ensures !AtEnd(LoopAfter(host, pack, events, rules, objects, timeMs, n)) {
        assert !AtEnd(Iterations(engine, items, 0, InitialStage(objects), timeMs, n));
      }
    }
  }

  /** A rule that plays an animation with a lifetime of minus one millisecond. */
  function PlayBackwards(): BindingRule {
    BindingRule("r", [], [RuleAction(PlayAnimation("a", "c", Some(-1.0), None), None)])
  }

  lemma OneRuleSchedule(event: VisualEvent, rule: BindingRule, timeMs: real)
    requires event.ts <= timeMs && rule.conditions == []
    ensures Schedule(Sort([event], HappensNoLater), [rule], timeMs) == ActionsOfRule(event, rule)
  {
    OneEventSorted(event);
    OneRuleMatches(event, rule);
    hide Sort, GetMatchingBindingRules, ActionsOfRules;
    assert [event][..0] == [];
  }

  lemma OneEventSorted(event: VisualEvent)
    ensures Sort([event], HappensNoLater) == [event]
  {
    assert [event][..0] == [];
  }

  lemma OneRuleMatches(event: VisualEvent, rule: BindingRule)
    requires rule.conditions == []
    ensures ActionsOfRules(event, GetMatchingBindingRules(event, [rule])) == ActionsOfRule(event, rule)
  {
    assert [rule][..0] == [];
    assert GetMatchingBindingRules(event, [rule]) == [rule];
  }

  /** One event and one rule are enough: from the event's time on the loop never ends,
      whatever the scene. */
  lemma OneEventLoopsForEver(host: Host, pack: AssetPack, event: VisualEvent, objects: seq<SceneObject>,
                             timeMs: real, n: nat)
    requires ClipsAdvance(pack) && event.ts <= timeMs
    ensures !AtEnd(LoopAfter(host, pack, [event], [PlayBackwards()], objects, timeMs, n))
  {
    OneRuleSchedule(event, PlayBackwards(), timeMs);
    OnlyJobPlaysBackwards(event, timeMs);
    hide Schedule, Iterations, ActionsOfRule, InitialStage, PlaysBackwards, PushesForward, PushesOnAnyStage;
    BackwardsPushes(pack);
    NegativeLifetimeLoopsForEver(host, pack, ActionsOfRule(event, PlayBackwards()), InitialStage(objects), timeMs, n);
  }

  lemma BackwardsPushes(pack: AssetPack)
    ensures forall job | PlaysBackwards(job) :: PushesOnAnyStage(pack, job.action) && !PushesForward(pack, job.action)
  {
  }

  lemma OnlyJobPlaysBackwards(event: VisualEvent, timeMs: real)
    requires event.ts <= timeMs
    ensures var items := ActionsOfRule(event, PlayBackwards());
            && (forall x | x in items :: PlaysBackwards(x) && Due(x, timeMs))
            && (exists x :: x in items && Due(x, timeMs) && PlaysBackwards(x))
  {
    var job := ScheduledFrom(event, PlayBackwards(), 0);
    assert ActionsOfRule(event, PlayBackwards()) == [job];
    assert job in ActionsOfRule(event, PlayBackwards());
  }

  predicate PlaysBackwards(job: ScheduledAction) { job.action == PlayAnimation("a", "c", Some(-1.0), None) }

  /** Why spawns near a target are left open: this one replaces the object it spawns from, so
      that it pushes its removal only the first time it runs. */
  lemma SpawnReplacesItsSource(host: Host, pack: AssetPack, stage: Stage, job: ScheduledAction)
    requires ClipsAdvance(pack) && FindPreset(pack.objectPresets, "p").Some?
    requires job.action == SpawnFromObject("p", "x", "e", None, None, Point(0.0, 0.0), Some(-1.0), map[])
    requires |stage.objects| == 1 && stage.objects[0].id == "x" && stage.objects[0].entityId == Some("e")
    ensures LastIsPast(job, FollowUps(host, pack, stage, job))
    ensures FollowUps(host, pack, ApplyAction(host, pack, stage, job), job) == []
  {
    OneSourceIsFound(host, stage, job.runAt);
    hide FindSampledObject;
    var next := ApplyAction(host, pack, stage, job);
    var spawned := SpawnedBy(host, pack, stage, job).value;
    assert next.objects == [spawned] by {
      assert stage.objects[..0] == [];
    }
    assert spawned.id == "x" && spawned.entityId == None;
    NoSourceIsFound(host, next, job.runAt);
  }

  lemma OneSourceIsFound(host: Host, stage: Stage, timeMs: real)
    requires |stage.objects| == 1 && stage.objects[0].entityId == Some("e")
    ensures FindSampledObject(host, stage, "e", timeMs).Some?
  {
    SamplingProperties.SamplingKeepsItems(host, stage.objects, RetainedTracks(stage.visualTracks, timeMs), timeMs);
    SamplingProperties.FindInSame(stage.objects,
        SampleObjects(host, stage.objects, RetainedTracks(stage.visualTracks, timeMs), timeMs), "e");
  }

  lemma NoSourceIsFound(host: Host, stage: Stage, timeMs: real)
    requires forall item | item in stage.objects :: !Answers(item, "e")
    ensures FindSampledObject(host, stage, "e", timeMs).None?
  {
    SamplingProperties.SamplingKeepsItems(host, stage.objects, RetainedTracks(stage.visualTracks, timeMs), timeMs);
    SamplingProperties.FindInSame(stage.objects,
        SampleObjects(host, stage.objects, RetainedTracks(stage.visualTracks, timeMs), timeMs), "e");
  }

  lemma CompletionLater(pack: AssetPack, source: ScheduledAction, clipId: Option<string>, targetId: Option<string>,
                        state: Option<string>)
    requires ClipsAdvance(pack)
    ensures forall x | x in CompletionOf(pack, source, clipId, targetId, state) :: RunsNoLater(source, x)
  {
    if Truthy(clipId) && FindClip(pack.animations, clipId.value).Some? {
      AnimationRuntime.DurationIsPositive(FindClip(pack.animations, clipId.value).value);
    }
  }

  /** A completion state is set at the first millisecond at which the clip is complete. */
  lemma CompletionWaitsForClip(pack: AssetPack, source: ScheduledAction, clipId: Option<string>,
                               targetId: Option<string>,
                               state: Option<string>, elapsedMs: int)
    requires ClipsAdvance(pack)
    ensures forall x | x in CompletionOf(pack, source, clipId, targetId, state) ::
              && FindClip(pack.animations, clipId.GetOr("")).Some?
              && (AnimationRuntime.IsAnimationComplete(FindClip(pack.animations, clipId.GetOr("")).value,
                  elapsedMs as real)
                  <==> source.runAt + elapsedMs as real >= x.runAt)
  {
    if Truthy(clipId) {
      var clip := FindClip(pack.animations, clipId.value);
      if clip.Some? && clip.value.playback == Once {
        AnimationRuntime.DurationIsLeastCompleteMs(clip.value, elapsedMs);
      }
    }
  }

  // --------------------------------------------------------------- the orders, in words

  /** The order of execution: by time, then by action index, then by insertion, over exactly
      the actions that are due among those scheduled and pushed. */
  lemma ExecutionOrder(host: Host, pack: AssetPack, events: seq<VisualEvent>, rules: seq<BindingRule>,
                       objects: seq<SceneObject>, timeMs: real)
    requires ClipsAdvance(pack) && DueLifetimesOk(pack, events, rules, timeMs)
    ensures var run := ReferenceRun(host, pack, events, rules, objects, timeMs);
            var all := Schedule(Sort(events, HappensNoLater), rules, timeMs) + run.pushed;
            IsStableSortOf(run.trace, Keep(all, (x: ScheduledAction) => x.runAt <= timeMs),
              (a: ScheduledAction, b: ScheduledAction) =>
                a.runAt < b.runAt || (a.runAt == b.runAt && a.actionIndex <= b.actionIndex))
  {
    RunExecutesDueInOrder(host, pack, events, rules, objects, timeMs);
    var run := ReferenceRun(host, pack, events, rules, objects, timeMs);
    DueInOrder(Schedule(Sort(events, HappensNoLater), rules, timeMs) + run.pushed, timeMs);
    hide Schedule, IsStableSortOf, Keep, Sort;
  }

  lemma DueInOrder(all: seq<ScheduledAction>, timeMs: real)
    ensures IsStableSortOf(DueItems(Sort(all, RunsNoLater), timeMs),
            Keep(all, (x: ScheduledAction) => x.runAt <= timeMs),
              (a: ScheduledAction, b: ScheduledAction) =>
                a.runAt < b.runAt || (a.runAt == b.runAt && a.actionIndex <= b.actionIndex))
  {
    RunOrderIsPreorder();
    SortKept(all, item => Due(item, timeMs), RunsNoLater);
    var due := Keep(all, item => Due(item, timeMs));
    KeepAlike(all, item => Due(item, timeMs), (x: ScheduledAction) => x.runAt <= timeMs);
    SortIsStable(due, RunsNoLater);
    StableAlike(Sort(due, RunsNoLater), due, RunsNoLater, (a: ScheduledAction, b: ScheduledAction) =>
                  a.runAt < b.runAt || (a.runAt == b.runAt && a.actionIndex <= b.actionIndex));
    hide Sort, Keep, IsStableSortOf;
  }

  /** Events are dispatched by time, and events of one time as they are listed. */
  lemma EventOrder(events: seq<VisualEvent>)
    ensures IsStableSortOf(Sort(events, HappensNoLater), events, (a: VisualEvent, b: VisualEvent) => a.ts <= b.ts)
  {
    EventOrderIsPreorder();
    SortIsStable(events, HappensNoLater);
    StableAlike(Sort(events, HappensNoLater), events, HappensNoLater, (a: VisualEvent, b: VisualEvent) => a.ts <= b.ts);
  }
}
