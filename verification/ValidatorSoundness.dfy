/** What a document the validator accepts promises about its replay. */
module ValidatorSoundness {
  import opened Wrappers
  import opened Contracts
  import opened StableSort
  import opened Sampling
  import opened Scheduler
  import opened RuntimeState
  import opened Replay
  import opened WarningForecast
  import BindingEngine
  import Validation = AuthoringValidation

  // -------------------------------------------------- exactly when the replay is silent

  lemma ClipInPack(pack: AssetPack, id: string)
    requires id in Validation.AnimationIds(pack)
    ensures FindClip(pack.animations, id).Some?
  {
  }

  lemma ClipRefKnown(pack: AssetPack, id: Option<string>)
    requires Validation.RefOk(id, Validation.AnimationIds(pack))
    ensures ClipKnown(pack, id)
  {
  }

  lemma ConsistentIsPlain(pack: AssetPack, rules: seq<BindingRule>, scene: seq<SceneObject>, i: nat, j: nat)
    requires Validation.Consistent(scene, rules, pack) && i < |rules| && j < |rules[i].actions|
    ensures Plain(pack, rules[i].actions[j].action)
  {
    var action := rules[i].actions[j].action;
    assert Validation.ActionOk(action, Validation.SceneNames(scene) + Validation.SpawnIds(rules),
                               Validation.AnimationIds(pack), Validation.PresetIds(pack));
    if IsSpawn(action) {
      ConsistentSpawnIsPlain(pack, rules, scene, i, j);
    }
    hide Validation.Consistent, PlainSpawn;
  }

  lemma ConsistentSpawnIsPlain(pack: AssetPack, rules: seq<BindingRule>, scene: seq<SceneObject>, i: nat, j: nat)
    requires Validation.Consistent(scene, rules, pack) && i < |rules| && j < |rules[i].actions|
    requires IsSpawn(rules[i].actions[j].action)
    ensures PlainSpawn(pack, rules[i].actions[j].action)
  {
    var action := rules[i].actions[j].action;
    assert Validation.ActionOk(action, Validation.SceneNames(scene) + Validation.SpawnIds(rules),
                               Validation.AnimationIds(pack), Validation.PresetIds(pack));
    assert FindPreset(pack.objectPresets, action.presetId).Some?;
    var preset := FindPreset(pack.objectPresets, action.presetId).value;
    assert preset in pack.objectPresets;
    var p :| 0 <= p < |pack.objectPresets| && pack.objectPresets[p] == preset;
    assert Validation.PresetOk(preset, Validation.AssetKeys(pack), Validation.AnimationIds(pack));
    ClipRefKnown(pack, preset.defaultAnimationId);
    ClipRefKnown(pack, Validation.AnimationIdOf(action));
    forall s | 0 <= s < |preset.animationsByState|
      ensures FindClip(pack.animations, preset.animationsByState[s].animationId).Some?
    {
      ClipInPack(pack, preset.animationsByState[s].animationId);
    }
  }

  lemma ScheduledIsOwn(x: ScheduledAction, rules: seq<BindingRule>)
    requires FromRules(x, rules)
    ensures IsOwn(x)
  {
  }

  /** A feed whose document the validator accepts replays without a warning exactly when the
      actions foreseen for it each find what they look up, starting from the scene. */
  lemma ValidatedSilentIff(host: Host, pack: AssetPack, events: seq<VisualEvent>, rules: seq<BindingRule>,
                           scene: seq<SceneObject>, timeMs: real)
    requires ClipsAdvance(pack) && DueLifetimesOk(pack, events, rules, timeMs)
    requires Validation.ValidationWarnings(scene, rules, pack) == []
    ensures ReferenceRun(host, pack, events, rules, scene, timeMs).state.warnings == [] <==>
            AllResolve(host, pack, RosterOf(scene),
                       Foreseen(host, pack, Schedule(Sort(events, HappensNoLater), rules, timeMs), timeMs))
  {
    Validation.SilentIffConsistent(scene, rules, pack);
    var scheduled := Schedule(Sort(events, HappensNoLater), rules, timeMs);
    ScheduleFromRules(Sort(events, HappensNoLater), rules, timeMs);
    hide Validation.Consistent, Schedule, Plain, IsOwn, PushesForward, Foreseen, AllResolve, RosterOf;
    forall x | x in scheduled ensures IsOwn(x) && Plain(pack, x.action) {
      ScheduledIsOwn(x, rules);
      var i, j :| 0 <= i < |rules| && 0 <= j < |rules[i].actions| && x == ScheduledFrom(x.event, rules[i], j);
      ConsistentIsPlain(pack, rules, scene, i, j);
    }
    SilentIffForeseenResolve(host, pack, scene, scheduled, timeMs);
  }

  // ------------------------------------------------ references to the scene alone

  predicate Known(scene: seq<SceneObject>, id: string) { id in Validation.SceneNames(scene) }

  predicate KnownIfAny(scene: seq<SceneObject>, id: Option<string>) { Truthy(id) ==> Known(scene, id.value) }

  predicate Apart(scene: seq<SceneObject>, id: string) {
    forall i | 0 <= i < |scene| :: scene[i].id != id
  }

  /** The action looks up scene objects only, removes nothing and replaces no scene object. */
  predicate Safe(host: Host, pack: AssetPack, scene: seq<SceneObject>, source: ScheduledAction) {
    var action := source.action;
    && RemovesNothing(action)
    && (IsUpdate(action) || IsTrackAction(action) || action.SpawnAttachedEffect? ==> Known(scene, action.targetId))
    && (action.MoveToObject? || action.OrbitAround? || action.AttachToObject? ==> Known(scene, action.targetObjectId))
    && (action.PlayAnimation? ==> FindClip(pack.animations, action.animationId).Some?)
    && (action.SpawnFromObject? ==> Known(scene, action.sourceObjectId))
    && (action.SpawnEffect? || action.SpawnObject? ==> KnownIfAny(scene, action.nearId))
    && (action.SpawnEffect? && action.onCompleteTargetId.Some? ==> KnownIfAny(scene, action.onCompleteTargetId.value))
    && (SpawnedEntry(host, pack, source).Some? ==> Apart(scene, SpawnedEntry(host, pack, source).value.id))
  }

  /** Every scene object is on the roster, under its names. */
  predicate KeepsScene(scene: seq<SceneObject>, roster: seq<Entry>) {
    forall i | 0 <= i < |scene| :: OnRoster(scene[i], roster)
  }

  predicate OnRoster(item: SceneObject, roster: seq<Entry>) {
    exists j | 0 <= j < |roster| :: roster[j].id == item.id && roster[j].entityId == item.entityId
  }

  lemma {:induction false} NameOfObject(scene: seq<SceneObject>, id: string)
    requires Known(scene, id)
    ensures exists i | 0 <= i < |scene| :: Answers(scene[i], id)
  {
    NamesFromObjects(scene, id);
  }

  lemma {:induction false} NamesFromObjects(scene: seq<SceneObject>, id: string)
    requires id in Validation.ObjectIds(scene) || id in Validation.EntityIds(scene)
    ensures exists i | 0 <= i < |scene| :: Answers(scene[i], id)
  {
    if scene != [] {
      var front, last := scene[..|scene| - 1], scene[|scene| - 1];
      if Answers(last, id) {
        assert Answers(scene[|scene| - 1], id);
      } else {
        NamesFromObjects(front, id);
        var i :| 0 <= i < |front| && Answers(front[i], id);
        assert Answers(scene[i], id);
      }
    }
  }

  lemma {:induction false} EntryIsNamed(roster: seq<Entry>, name: string, j: nat)
    requires j < |roster| && roster[j].Answers(name)
    ensures Named(roster, name)
  {
    if j > 0 && !roster[0].Answers(name) {
      EntryIsNamed(roster[1..], name, j - 1);
    }
  }

  /** A name of the scene is still a name. */
  lemma KnownIsNamed(scene: seq<SceneObject>, roster: seq<Entry>, id: string)
    requires KeepsScene(scene, roster) && Known(scene, id)
    ensures Named(roster, id)
  {
    NameOfObject(scene, id);
    var i :| 0 <= i < |scene| && Answers(scene[i], id);
    assert OnRoster(scene[i], roster);
    var j :| 0 <= j < |roster| && roster[j].id == scene[i].id && roster[j].entityId == scene[i].entityId;
    EntryIsNamed(roster, id, j);
  }

  lemma SafeResolves(host: Host, pack: AssetPack, scene: seq<SceneObject>, roster: seq<Entry>, source: ScheduledAction)
    requires Safe(host, pack, scene, source) && KeepsScene(scene, roster)
    ensures Resolves(pack, roster, source.action)
  {
    forall id | Known(scene, id) ensures Named(roster, id) {
      KnownIsNamed(scene, roster, id);
    }
    hide Known, KeepsScene, Named, SpawnedEntry;
  }

  lemma SafeKeepsScene(host: Host, pack: AssetPack, scene: seq<SceneObject>, roster: seq<Entry>,
                       source: ScheduledAction)
    requires Safe(host, pack, scene, source) && KeepsScene(scene, roster)
    ensures KeepsScene(scene, Enroll(host, pack, roster, source))
  {
    var spawned := SpawnedEntry(host, pack, source);
    if spawned.Some? {
      AddedKeepsScene(scene, roster, spawned.value);
    } else if source.action.SetProperty? && source.action.property.Metadata? {
      var next := Enroll(host, pack, roster, source);
      forall i | 0 <= i < |scene| ensures OnRoster(scene[i], next) {
        assert OnRoster(scene[i], roster);
        var j :| 0 <= j < |roster| && roster[j].id == scene[i].id && roster[j].entityId == scene[i].entityId;
        assert next[j].id == scene[i].id && next[j].entityId == scene[i].entityId;
      }
    }
    hide Known, SpawnedEntry, KeepsScene, Added;
  }

  lemma AddedKeepsScene(scene: seq<SceneObject>, roster: seq<Entry>, added: Entry)
    requires KeepsScene(scene, roster) && Apart(scene, added.id)
    ensures KeepsScene(scene, Added(roster, added))
  {
    var kept := Keep(roster, (entry: Entry) => entry.id != added.id);
    forall i | 0 <= i < |scene| ensures OnRoster(scene[i], Added(roster, added)) {
      assert OnRoster(scene[i], roster);
      var j :| 0 <= j < |roster| && roster[j].id == scene[i].id && roster[j].entityId == scene[i].entityId;
      assert roster[j] in roster && roster[j] in kept;
      var k :| 0 <= k < |kept| && kept[k] == roster[j];
      assert Added(roster, added)[k] == roster[j];
    }
  }

  lemma {:induction false} SafeJobsResolve(host: Host, pack: AssetPack, scene: seq<SceneObject>, roster: seq<Entry>,
                                           jobs: seq<ScheduledAction>)
    requires KeepsScene(scene, roster) && forall x | x in jobs :: Safe(host, pack, scene, x)
    ensures AllResolve(host, pack, roster, jobs)
    decreases |jobs|
  {
    hide Safe, KeepsScene, Resolves, Enroll;
    if jobs != [] {
      SafeResolves(host, pack, scene, roster, jobs[0]);
      SafeKeepsScene(host, pack, scene, roster, jobs[0]);
      SafeJobsResolve(host, pack, scene, Enroll(host, pack, roster, jobs[0]), jobs[1..]);
    }
  }

  lemma PushesSafe(host: Host, pack: AssetPack, scene: seq<SceneObject>, source: ScheduledAction)
    requires ClipsAdvance(pack) && Safe(host, pack, scene, source)
    ensures forall x | x in ForeseenPush(host, pack, source) :: Safe(host, pack, scene, x)
  {
    hide SpawnedClip, Known, FindClip;
  }

  // ----------------------------------------------------------- what authors must add

  /** The ids an action cannot do without are not empty. */
  predicate IdsGiven(action: VisualAction) {
    && (!action.SpawnEffect? && !action.SpawnObject? && !action.SpawnFromObject? && !action.RemoveObject? ==>
        action.targetId != "")
    && (Validation.TargetObjectIdOf(action) != Some(""))
    && (Validation.SourceObjectIdOf(action) != Some(""))
    && (action.PlayAnimation? ==> action.animationId != "")
  }

  predicate RemovesNothing(action: VisualAction) {
    !action.RemoveObject? && !action.DespawnAtObject? && LifetimeOf(action).None?
  }

  /** What the action refers to is in the scene. */
  predicate RefersToScene(action: VisualAction, scene: seq<SceneObject>) {
    && KnownIfAny(scene, Validation.TargetIdOf(action))
    && KnownIfAny(scene, Validation.TargetObjectIdOf(action))
    && KnownIfAny(scene, Validation.SourceObjectIdOf(action))
    && KnownIfAny(scene, Validation.CompleteTargetIdOf(action))
  }

  predicate Settled(rules: seq<BindingRule>, scene: seq<SceneObject>) {
    forall i, j | 0 <= i < |rules| && 0 <= j < |rules[i].actions| ::
      var action := rules[i].actions[j].action;
      IdsGiven(action) && RemovesNothing(action) && RefersToScene(action, scene)
  }

  /** No spawned object, under a given or a generated id, replaces a scene object. */
  ghost predicate SpawnsApart(host: Host, pack: AssetPack, events: seq<VisualEvent>, rules: seq<BindingRule>,
                              scene: seq<SceneObject>) {
    forall event, i, j, preset |
      event in events && 0 <= i < |rules| && 0 <= j < |rules[i].actions|
      && IsSpawn(rules[i].actions[j].action) && preset in pack.objectPresets ::
      Apart(scene, SpecOf(host, preset, ScheduledFrom(event, rules[i], j)).id)
  }

  lemma SettledActionSafe(host: Host, pack: AssetPack, events: seq<VisualEvent>, rules: seq<BindingRule>,
                          scene: seq<SceneObject>, event: VisualEvent, i: nat, j: nat)
    requires Validation.Consistent(scene, rules, pack) && Settled(rules, scene)
    requires SpawnsApart(host, pack, events, rules, scene)
    requires event in events && i < |rules| && j < |rules[i].actions|
    ensures Safe(host, pack, scene, ScheduledFrom(event, rules[i], j))
  {
    var action := rules[i].actions[j].action;
    assert Validation.ActionOk(action, Validation.SceneNames(scene) + Validation.SpawnIds(rules),
                               Validation.AnimationIds(pack), Validation.PresetIds(pack));
    assert IdsGiven(action) && RemovesNothing(action) && RefersToScene(action, scene);
    SpawnIsApart(host, pack, events, rules, scene, event, i, j);
    ActionSafe(host, pack, scene, ScheduledFrom(event, rules[i], j),
        Validation.SceneNames(scene) + Validation.SpawnIds(rules));
    hide Validation.Consistent, Settled, SpawnsApart, Safe, Validation.ActionOk, IdsGiven, RefersToScene, Known;
  }

  lemma SpawnIsApart(host: Host, pack: AssetPack, events: seq<VisualEvent>, rules: seq<BindingRule>,
                     scene: seq<SceneObject>, event: VisualEvent, i: nat, j: nat)
    requires SpawnsApart(host, pack, events, rules, scene)
    requires event in events && i < |rules| && j < |rules[i].actions|
    ensures var entry := SpawnedEntry(host, pack, ScheduledFrom(event, rules[i], j));
            entry.Some? ==> Apart(scene, entry.value.id)
  {
  }

  lemma ActionSafe(host: Host, pack: AssetPack, scene: seq<SceneObject>, source: ScheduledAction, known: set<string>)
    requires Validation.ActionOk(source.action, known, Validation.AnimationIds(pack), Validation.PresetIds(pack))
    requires IdsGiven(source.action) && RemovesNothing(source.action) && RefersToScene(source.action, scene)
    requires var entry := SpawnedEntry(host, pack, source); entry.Some? ==> Apart(scene, entry.value.id)
    ensures Safe(host, pack, scene, source)
  {
    ClipRefKnown(pack, Validation.AnimationIdOf(source.action));
    hide Known, SpawnedEntry;
  }

  /** Soundness for the documents whose references are all to the scene. If the validator
      reports nothing, required ids are given, nothing is removed, actions refer to the scene
      and spawned ids stay clear of it, then the replay of the feed raises no warning at any
      time. */
  lemma ValidatedReplayIsSilent(host: Host, pack: AssetPack, events: seq<VisualEvent>, rules: seq<BindingRule>,
                                scene: seq<SceneObject>, timeMs: real)
    requires ClipsAdvance(pack)
    requires Validation.ValidationWarnings(scene, rules, pack) == []
    requires Settled(rules, scene) && SpawnsApart(host, pack, events, rules, scene)
    ensures ReferenceRun(host, pack, events, rules, scene, timeMs).state.warnings == []
  {
    Validation.SilentIffConsistent(scene, rules, pack);
    SortedEvents(events);
    var scheduled := Schedule(Sort(events, HappensNoLater), rules, timeMs);
    ScheduleFromRules(Sort(events, HappensNoLater), rules, timeMs);
    hide Validation.Consistent, Settled, SpawnsApart, Schedule, Sort, Foreseen, AllResolve, RosterOf;
    forall x | x in scheduled ensures Safe(host, pack, scene, x) && PushesForward(pack, x.action) {
      var i, j :| 0 <= i < |rules| && 0 <= j < |rules[i].actions| && x == ScheduledFrom(x.event, rules[i], j);
      SettledActionSafe(host, pack, events, rules, scene, x.event, i, j);
    }
    ForeseenAreSafe(host, pack, scene, scheduled, timeMs);
    SceneKeepsItself(scene);
    SafeJobsResolve(host, pack, scene, RosterOf(scene), Foreseen(host, pack, scheduled, timeMs));
    ValidatedSilentIff(host, pack, events, rules, scene, timeMs);
  }

  lemma SortedEvents(events: seq<VisualEvent>)
    ensures forall event | event in Sort(events, HappensNoLater) :: event in events
  {
    SortMultiset(events, HappensNoLater);
  }

  lemma SceneKeepsItself(scene: seq<SceneObject>)
    ensures KeepsScene(scene, RosterOf(scene))
  {
    forall i | 0 <= i < |scene| ensures OnRoster(scene[i], RosterOf(scene)) {
      assert RosterOf(scene)[i] == EntryOf(scene[i]);
    }
  }

  lemma ForeseenAreSafe(host: Host, pack: AssetPack, scene: seq<SceneObject>, scheduled: seq<ScheduledAction>,
                        timeMs: real)
    requires ClipsAdvance(pack) && forall x | x in scheduled :: Safe(host, pack, scene, x)
    ensures forall x | x in Foreseen(host, pack, scheduled, timeMs) :: Safe(host, pack, scene, x)
  {
    hide Safe, ForeseenPush, ForeseenPushes, Sort;
    var due := DueItems(Sort(scheduled, RunsNoLater), timeMs);
    var pushed := ForeseenPushes(host, pack, due);
    SortedMembers(scheduled);
    SortedMembers(scheduled + pushed);
    forall x | x in pushed ensures Safe(host, pack, scene, x) {
      var job := PusherOf(host, pack, due, x);
      PushesSafe(host, pack, scene, job);
    }
  }

  // ---------------------------------------------- why references must be to the scene

  /** A rule that shows an object and then spawns it. */
  function ShowThenSpawn(): BindingRule {
    BindingRule("r", [],
      [RuleAction(ShowObject("drone"), None),
       RuleAction(SpawnObject("p", "drone", None, None, None, None, None, Point(0.0, 0.0), map[]), None)])
  }

  function OnePreset(): AssetPack {
    AssetPack(["k"], [], [ObjectPreset("p", "P", "effect", "k", None, 1.0, 1.0, None, [], map[])])
  }

  /** The validator alone is not enough: it accepts a reference to an object that only a
      later action spawns, and the replay then warns. */
  lemma ValidatorAcceptsUseBeforeSpawn(host: Host)
    ensures Validation.ValidationWarnings([], [ShowThenSpawn()], OnePreset()) == []
    ensures ReferenceRun(host, OnePreset(), [VisualEvent("e", 0.0, None, "t", map[])], [ShowThenSpawn()], [],
            0.0).state.warnings != []
  {
    AcceptsUseBeforeSpawn();
    WarnsOnUseBeforeSpawn(host);
  }

  lemma DroneIsSpawned()
    ensures Validation.SpawnIds([ShowThenSpawn()]) == {"drone"}
  {
    var actions := ShowThenSpawn().actions;
    assert actions[..2] == actions && actions[..2][..1] == actions[..1] && actions[..1][..0] == [];
    assert Validation.SpawnIdsOfActions(actions[..1]) == {};
    assert Validation.SpawnIdsOfActions(actions) == {"drone"};
    assert [ShowThenSpawn()][..0] == [];
  }

  lemma AcceptsUseBeforeSpawn()
    ensures Validation.ValidationWarnings([], [ShowThenSpawn()], OnePreset()) == []
  {
    DroneIsSpawned();
    Validation.SilentIffConsistent([], [ShowThenSpawn()], OnePreset());
    hide Validation.SpawnIds, Validation.SpawnIdsOfActions, Validation.ValidationWarnings;
    assert OnePreset().objectPresets[0] in OnePreset().objectPresets;
  }

  lemma FirstJob(event: VisualEvent)
    requires event.ts == 0.0
    ensures var pending := Schedule(Sort([event], HappensNoLater), [ShowThenSpawn()], 0.0);
            pending != [] && pending[Earliest(pending)] == ScheduledFrom(event, ShowThenSpawn(), 0)
  {
    var rule := ShowThenSpawn();
    OneRuleSchedule(event, rule, 0.0);
    hide Schedule;
    var pending := ActionsOfRule(event, rule);
    assert |pending| == 2 && pending[0].actionIndex == 0.0 && pending[1].actionIndex == 1.0;
    assert pending[0].runAt == pending[1].runAt;
    assert pending[..1] == [pending[0]];
  }

  lemma WarnsOnUseBeforeSpawn(host: Host)
    ensures ReferenceRun(host, OnePreset(), [VisualEvent("e", 0.0, None, "t", map[])], [ShowThenSpawn()], [],
                         0.0).state.warnings != []
  {
    hide Schedule, ApplyAction, InitialStage, Earliest;
    var event := VisualEvent("e", 0.0, None, "t", map[]);
    FirstJob(event);
    var pending := Schedule(Sort([event], HappensNoLater), [ShowThenSpawn()], 0.0);
    FirstShowWarns(host, event);
    FirstWarningStays(host, OnePreset(), InitialStage([]), pending, 0.0);
  }

  lemma FirstShowWarns(host: Host, event: VisualEvent)
    ensures ApplyAction(host, OnePreset(), InitialStage([]), ScheduledFrom(event, ShowThenSpawn(), 0)).warnings != []
  {
    hide ApplyAction, Warn;
    var job := ScheduledFrom(event, ShowThenSpawn(), 0);
    Branches(host, OnePreset(), InitialStage([]), job);
    WarnIsSeen(host, InitialStage([]), job, "Binding target " + job.action.targetId + " was not found.");
  }

  // -------------------------------------------------------- references to what is spawned

  /** A rule that spawns an object and then shows it. */
  function SpawnThenShow(): BindingRule {
    BindingRule("r", [], [ShowThenSpawn().actions[1], ShowThenSpawn().actions[0]])
  }

  /** The event that triggers it. */
  function Trigger(): VisualEvent { VisualEvent("e", 0.0, None, "t", map[]) }

  lemma SpawnAndShow(event: VisualEvent) returns (spawn: ScheduledAction, show: ScheduledAction)
    requires event.ts == 0.0
    ensures ActionsOfRule(event, SpawnThenShow()) == [spawn, show]
    ensures spawn.action == ShowThenSpawn().actions[1].action && show.action == ShowThenSpawn().actions[0].action
    ensures spawn.runAt == show.runAt == 0.0 && spawn.actionIndex == 0.0 && show.actionIndex == 1.0
  {
    spawn, show := ScheduledFrom(event, SpawnThenShow(), 0), ScheduledFrom(event, SpawnThenShow(), 1);
    assert ActionsOfRule(event, SpawnThenShow()) == [spawn, show];
  }

  lemma TwoInOrder(a: ScheduledAction, b: ScheduledAction)
    requires RunsNoLater(a, b)
    ensures Sort([a, b], RunsNoLater) == [a, b]
  {
    assert [a, b][..1] == [a] && [a][..0] == [];
  }

  lemma ForeseenOfTwo(host: Host, pack: AssetPack, a: ScheduledAction, b: ScheduledAction)
    requires ClipsAdvance(pack) && RunsNoLater(a, b) && a.runAt <= 0.0 && b.runAt <= 0.0
    requires ForeseenPush(host, pack, a) == ForeseenPush(host, pack, b) == []
    ensures Foreseen(host, pack, [a, b], 0.0) == [a, b]
  {
    TwoInOrder(a, b);
    hide ForeseenPush, Sort, RunsNoLater;
    KeepAll([a, b], item => Due(item, 0.0));
    ForeseenPushesAppend(host, pack, [a], [b]);
    PushesOfOne(host, pack, a);
    PushesOfOne(host, pack, b);
    assert [a] + [b] == [a, b];
    assert [a, b] + [] == [a, b];
  }

  /** In this order the validator accepts the rule as well, and the replay is silent: the
      condition is about what has been spawned by the time of the reference. */
  lemma UseAfterSpawnIsSilent(host: Host)
    ensures Validation.ValidationWarnings([], [SpawnThenShow()], OnePreset()) == []
    ensures ReferenceRun(host, OnePreset(), [Trigger()], [SpawnThenShow()], [], 0.0).state.warnings == []
  {
    hide *;
    TriggerIsAtZero();
    AcceptsUseAfterSpawn();
    OneRuleSchedule(Trigger(), SpawnThenShow(), 0.0);
    var spawn, show := SpawnAndShow(Trigger());
    TwoJobsSilent(host, spawn, show);
    RunOfSchedule(host, Trigger());
  }

  lemma TriggerIsAtZero()
    ensures Trigger().ts == 0.0 && SpawnThenShow().conditions == []
  {
  }

  lemma RunOfSchedule(host: Host, event: VisualEvent)
    ensures ReferenceRun(host, OnePreset(), [event], [SpawnThenShow()], [], 0.0)
         == RunFrom(host, OnePreset(), InitialStage([]),
             Schedule(Sort([event], HappensNoLater), [SpawnThenShow()], 0.0), 0.0)
  {
  }

  lemma TwoJobsSilent(host: Host, spawn: ScheduledAction, show: ScheduledAction)
    requires spawn.action == ShowThenSpawn().actions[1].action && show.action == ShowThenSpawn().actions[0].action
    requires spawn.runAt == show.runAt == 0.0 && spawn.actionIndex == 0.0 && show.actionIndex == 1.0
    ensures RunFrom(host, OnePreset(), InitialStage([]), [spawn, show], 0.0).state.warnings == []
  {
    hide Foreseen, ForeseenPush, AllResolve, RosterOf, InitialStage;
    SpawnThenShowResolves(host, spawn, show);
    ForeseenOfTwo(host, OnePreset(), spawn, show);
    assert forall x | x in [spawn, show] :: x == spawn || x == show;
    SilentIffForeseenResolve(host, OnePreset(), [], [spawn, show], 0.0);
  }

  lemma SpawnThenShowResolves(host: Host, spawn: ScheduledAction, show: ScheduledAction)
    requires spawn.action == ShowThenSpawn().actions[1].action && show.action == ShowThenSpawn().actions[0].action
    ensures AllResolve(host, OnePreset(), RosterOf([]), [spawn, show])
    ensures ForeseenPush(host, OnePreset(), spawn) == ForeseenPush(host, OnePreset(), show) == []
  {
    var roster := Enroll(host, OnePreset(), RosterOf([]), spawn);
    DroneIsEnrolled(host, spawn);
    hide Named, Enroll, BuildSpawnedObject, AllResolve;
    AllResolved(host, roster);
    FirstResolves(host, OnePreset(), roster, show, []);
    FirstResolves(host, OnePreset(), RosterOf([]), spawn, [show]);
    assert [show] + [] == [show] && [spawn] + [show] == [spawn, show];
  }

  lemma DroneIsEnrolled(host: Host, spawn: ScheduledAction)
    requires spawn.action == ShowThenSpawn().actions[1].action
    ensures Named(Enroll(host, OnePreset(), RosterOf([]), spawn), "drone")
  {
    var roster := Enroll(host, OnePreset(), RosterOf([]), spawn);
    assert roster[|roster| - 1].id == "drone";
    hide Enroll, Named;
    EntryIsNamed(roster, "drone", |roster| - 1);
  }

  lemma AllResolved(host: Host, roster: seq<Entry>)
    ensures forall show :: AllResolve(host, OnePreset(), Enroll(host, OnePreset(), roster, show), [])
  {
  }

  lemma AcceptsUseAfterSpawn()
    ensures Validation.ValidationWarnings([], [SpawnThenShow()], OnePreset()) == []
  {
    DroneIsSpawnedFirst();
    Validation.SilentIffConsistent([], [SpawnThenShow()], OnePreset());
    hide Validation.SpawnIds, Validation.SpawnIdsOfActions, Validation.ValidationWarnings;
    assert OnePreset().objectPresets[0] in OnePreset().objectPresets;
  }

  lemma DroneIsSpawnedFirst()
    ensures Validation.SpawnIds([SpawnThenShow()]) == {"drone"}
  {
    var actions := SpawnThenShow().actions;
    assert actions[..2] == actions && actions[..2][..1] == actions[..1] && actions[..1][..0] == [];
    assert Validation.SpawnIdsOfActions(actions[..1]) == {"drone"};
    assert Validation.SpawnIdsOfActions(actions) == {"drone"};
    assert [SpawnThenShow()][..0] == [];
  }
}
