/**
  Which replays raise no warning, told from the feed alone.

  Whether an action warns depends on the stage only through the names, tags and metadata of its
  objects, and how an action changes those depends on the action alone. So the warnings can be
  forecast from a roster of these, without positions, states, tracks or drawing.
*/
module WarningForecast {
  import opened Wrappers
  import opened Contracts
  import opened StableSort
  import opened Sampling
  import opened Scheduler
  import opened RuntimeState
  import opened Replay
  import opened RuntimeInvariants
  import ActionEffects

  // ---------------------------------------------------------- what can be looked up

  /** What actions look an object up by. */
  datatype Entry = Entry(id: string, entityId: Option<string>, tag: Option<string>, metadata: map<string, Value>) {
    predicate Answers(name: string) { id == name || entityId == Some(name) }

    function Property(key: string): Value { if key in metadata then metadata[key] else Undefined }

    predicate Selected(victimId: Option<string>, chosenTag: Option<string>, selector: Option<MetadataSelector>) {
      || (Truthy(victimId) && Answers(victimId.value))
      || (Truthy(chosenTag) && tag == chosenTag)
      || (selector.Some? && SameValue(Property(selector.value.key), selector.value.value))
    }
  }

  function EntryOf(item: SceneObject): Entry { Entry(item.id, item.entityId, item.tag, item.metadata) }

  function RosterOf(objects: seq<SceneObject>): seq<Entry> {
    seq(|objects|, i requires 0 <= i < |objects| => EntryOf(objects[i]))
  }

  function FirstNamed(roster: seq<Entry>, name: string): Option<Entry> {
    if roster == [] then None
    else if roster[0].Answers(name) then Some(roster[0])
    else FirstNamed(roster[1..], name)
  }

  predicate Named(roster: seq<Entry>, name: string) { FirstNamed(roster, name).Some? }

  lemma {:induction false} FindInRoster(objects: seq<SceneObject>, name: string)
    ensures FindObject(objects, name).Some? <==> Named(RosterOf(objects), name)
    ensures FindObject(objects, name).Some? ==>
              FirstNamed(RosterOf(objects), name) == Some(EntryOf(FindObject(objects, name).value))
  {
    if objects != [] {
      assert RosterOf(objects)[1..] == RosterOf(objects[1..]);
      FindInRoster(objects[1..], name);
    }
  }

  lemma RosterSnoc(objects: seq<SceneObject>, last: SceneObject)
    ensures RosterOf(objects + [last]) == RosterOf(objects) + [EntryOf(last)]
  {
    hide EntryOf;
  }

  lemma {:induction false} RosterOfKept(objects: seq<SceneObject>, p: SceneObject -> bool, q: Entry -> bool)
    requires forall item :: p(item) == q(EntryOf(item))
    ensures RosterOf(Keep(objects, p)) == Keep(RosterOf(objects), q)
  {
    hide EntryOf;
    if objects == [] {
      assert RosterOf(objects) == [];
    } else {
      var front, last := objects[..|objects| - 1], objects[|objects| - 1];
      assert objects == front + [last];
      RosterOfKept(front, p, q);
      RosterSnoc(front, last);
      RosterSnoc(Keep(front, p), last);
      KeepSnoc(RosterOf(front), EntryOf(last), q);
    }
  }

  /** What a spawning action adds to the roster. It does not depend on the stage. */
  function SpawnedEntry(host: Host, pack: AssetPack, source: ScheduledAction): Option<Entry> {
    if !IsSpawn(source.action) then None
    else
      var preset := FindPreset(pack.objectPresets, source.action.presetId);
      if preset.None? then None
      else Some(EntryOf(BuildSpawnedObject(preset.value, SpecOf(host, preset.value, source), source, None)))
  }

  predicate SelectsAny(roster: seq<Entry>, victimId: Option<string>, tag: Option<string>,
                       selector: Option<MetadataSelector>) {
    exists i | 0 <= i < |roster| :: roster[i].Selected(victimId, tag, selector)
  }

  function Removed(roster: seq<Entry>, victimId: Option<string>, tag: Option<string>,
                   selector: Option<MetadataSelector>): seq<Entry> {
    Keep(roster, (entry: Entry) => !entry.Selected(victimId, tag, selector))
  }

  /** The roster with the entry at its end, in place of one that has its id already. */
  function Added(roster: seq<Entry>, added: Entry): seq<Entry> {
    Keep(roster, (entry: Entry) => entry.id != added.id) + [added]
  }

  function Described(entry: Entry, name: string, key: string, value: Value): Entry {
    if entry.Answers(name) then entry.(metadata := entry.metadata[key := value]) else entry
  }

  /** The roster after an action that finds what it looks up. */
  function Enroll(host: Host, pack: AssetPack, roster: seq<Entry>, source: ScheduledAction): seq<Entry> {
    var action := source.action;
    var spawned := SpawnedEntry(host, pack, source);
    if spawned.Some? then Added(roster, spawned.value)
    else if action.RemoveObject? then Removed(roster, action.victimId, action.tag, action.selector)
    else if action.DespawnAtObject? && Named(roster, action.targetId) then
      Removed(roster, Some(FirstNamed(roster, action.targetId).value.id), None, None)
    else if action.SetProperty? && action.property.Metadata? then
      seq(|roster|,
          i requires 0 <= i < |roster| => Described(roster[i], action.targetId, action.property.key, action.value))
    else roster
  }

  /** The action finds everything it looks up. */
  predicate Resolves(pack: AssetPack, roster: seq<Entry>, action: VisualAction) {
    && (IsUpdate(action) || IsTrackAction(action) || action.SpawnAttachedEffect? || action.DespawnAtObject? ==>
          Named(roster, action.targetId))
    && (action.MoveToObject? || action.OrbitAround? || action.AttachToObject? || action.DespawnAtObject? ==>
          Named(roster, action.targetObjectId))
    && (action.SpawnFromObject? ==> Named(roster, action.sourceObjectId))
    && (action.SpawnEffect? || action.SpawnObject? ==> Truthy(action.nearId) ==> Named(roster, action.nearId.value))
    && (action.PlayAnimation? ==> FindClip(pack.animations, action.animationId).Some?)
    && (action.RemoveObject? ==> SelectsAny(roster, action.victimId, action.tag, action.selector))
    && (action.DespawnAtObject? && Named(roster, action.targetId) ==>
        FirstNamed(roster, action.targetId).value.id != "")
  }

  /** The actions, in this order, each find what they look up. */
  predicate AllResolve(host: Host, pack: AssetPack, roster: seq<Entry>, jobs: seq<ScheduledAction>)
    decreases |jobs|
  {
    jobs == []
    || (Resolves(pack, roster, jobs[0].action)
        && AllResolve(host, pack, Enroll(host, pack, roster, jobs[0]), jobs[1..]))
  }

  // -------------------------------------------------------- what actions push, foreseen

  /** The clip of what an action spawns. */
  function SpawnedClip(host: Host, preset: ObjectPreset, source: ScheduledAction): Option<string>
    requires IsSpawn(source.action)
  {
    BuildSpawnedObject(preset, SpecOf(host, preset, source), source, None).currentAnimationId
  }

  /** The actions an action pushes if it finds what it looks up. */
  function ForeseenPush(host: Host, pack: AssetPack, source: ScheduledAction): seq<ScheduledAction>
    requires ClipsAdvance(pack)
  {
    var action := source.action;
    if action.PlayAnimation? then
      CompletionOf(pack, source, Some(action.animationId), Some(action.targetId), action.onCompleteState)
      + RemovalOf(source, action.targetId, action.lifetimeMs)
    else if !IsSpawn(action) then []
    else
      var preset := FindPreset(pack.objectPresets, action.presetId);
      if preset.None? then []
      else
        var removal := RemovalOf(source, SpecOf(host, preset.value, source).id, LifetimeOf(action));
        if !action.SpawnEffect? then removal
        else
          var targetId := if action.onCompleteTargetId.None? then None
                          else action.onCompleteTargetId.value.OrElse(action.nearId);
          CompletionOf(pack, source, SpawnedClip(host, preset.value, source), targetId,
              action.onCompleteState) + removal
  }

  function ForeseenPushes(host: Host, pack: AssetPack, jobs: seq<ScheduledAction>): seq<ScheduledAction>
    requires ClipsAdvance(pack)
    decreases |jobs|
  {
    if jobs == [] then []
    else ForeseenPush(host, pack, jobs[0]) + ForeseenPushes(host, pack, jobs[1..])
  }

  /** The actions a replay executes until a time if each finds what it looks up: the due ones
      among the scheduled actions and what the due scheduled ones push, in run order. */
  function Foreseen(host: Host, pack: AssetPack, scheduled: seq<ScheduledAction>, timeMs: real): seq<ScheduledAction>
    requires ClipsAdvance(pack)
  {
    DueItems(Sort(scheduled + ForeseenPushes(host, pack, DueItems(Sort(scheduled, RunsNoLater), timeMs)),
        RunsNoLater), timeMs)
  }

  // ----------------------------------------------------------------- single actions

  predicate ClipKnown(pack: AssetPack, id: Option<string>) {
    Truthy(id) ==> FindClip(pack.animations, id.value).Some?
  }

  /** The action can warn only about what it looks up: its path is long enough, and what it
      spawns has a preset and known clips. */
  predicate Plain(pack: AssetPack, action: VisualAction) {
    && (action.MoveAlongPath? || action.ShowRouteTrail? ==> |action.path| >= 2)
    && (IsSpawn(action) ==> PlainSpawn(pack, action))
  }

  predicate PlainSpawn(pack: AssetPack, action: VisualAction)
    requires IsSpawn(action)
  {
    var preset := FindPreset(pack.objectPresets, action.presetId);
    && preset.Some?
    && (action.SpawnEffect? || action.SpawnAttachedEffect? ==> ClipKnown(pack, action.clipId))
    && ClipKnown(pack, preset.value.defaultAnimationId)
    && (forall i | 0 <= i < |preset.value.animationsByState| ::
          FindClip(pack.animations, preset.value.animationsByState[i].animationId).Some?)
  }

  /** What the forecast says of one action on a stage: if it finds what it looks up, it does
      not warn, and its roster and pushed actions are as foreseen; otherwise it warns. */
  predicate AsForecast(host: Host, pack: AssetPack, stage: Stage, source: ScheduledAction)
    requires ClipsAdvance(pack)
  {
    var roster, next := RosterOf(stage.objects), ApplyAction(host, pack, stage, source);
    if Resolves(pack, roster, source.action) then
      && next.warnings == stage.warnings
      && RosterOf(next.objects) == Enroll(host, pack, roster, source)
      && FollowUps(host, pack, stage, source) == ForeseenPush(host, pack, source)
    else
      stage.warnings == [] ==> next.warnings != []
  }

  lemma WarnIsSeen(host: Host, stage: Stage, source: ScheduledAction, message: string)
    ensures Warn(host, stage, source, message).warnings != []
    ensures Warn(host, stage, source, message).objects == stage.objects
  {
  }

  lemma TargetWarnings(host: Host, stage: Stage, id: string, source: ScheduledAction)
    ensures var first, second := TrackTargetWarning(host, stage, id, source),
            AttachmentTargetWarning(host, stage, id, source);
            if Named(RosterOf(stage.objects), id) then first == second == stage
            else first.warnings != [] && second.warnings != [] && first.objects == second.objects == stage.objects
    ensures stage.warnings != [] ==> TrackTargetWarning(host, stage, id, source).warnings != []
    ensures stage.warnings != [] ==> AttachmentTargetWarning(host, stage, id, source).warnings != []
  {
    FindInRoster(stage.objects, id);
    WarnIsSeen(host, stage, source, "Track target " + id + " was not found.");
    WarnIsSeen(host, stage, source, "Attachment target " + id + " was not found.");
    hide Warn, FindObject, Named;
  }

  /** An update changes the roster only by setting metadata. */
  lemma UpdatedEntry(source: ScheduledAction, item: SceneObject)
    requires IsUpdate(source.action)
    ensures var action := source.action;
            EntryOf(UpdatedItem(source, item)) ==
            if action.SetProperty? && action.property.Metadata?
            then EntryOf(item).(metadata := item.metadata[action.property.key := action.value])
            else EntryOf(item)
  {
  }

  lemma RosterOfUpdated(host: Host, pack: AssetPack, objects: seq<SceneObject>, source: ScheduledAction)
    requires IsUpdate(source.action)
    ensures RosterOf(UpdateSampledObject(objects, source.action.targetId,
            (item: SceneObject) => UpdatedItem(source, item)))
         == Enroll(host, pack, RosterOf(objects), source)
  {
    hide UpdatedItem;
    var updated := UpdateSampledObject(objects, source.action.targetId,
        (item: SceneObject) => UpdatedItem(source, item));
    var roster := Enroll(host, pack, RosterOf(objects), source);
    forall i | 0 <= i < |objects| ensures EntryOf(updated[i]) == roster[i] {
      UpdatedEntry(source, objects[i]);
    }
    assert RosterOf(updated) == roster;
  }

  lemma UpdateAsForecast(host: Host, pack: AssetPack, stage: Stage, source: ScheduledAction)
    requires ClipsAdvance(pack) && IsUpdate(source.action)
    ensures AsForecast(host, pack, stage, source)
  {
    hide ApplyAction, UpdatedItem, Warn, FindObject, Named, FindClip, CompletionOf, RemovalOf, RosterOf, Enroll;
    var action := source.action;
    Branches(host, pack, stage, source);
    FindInRoster(stage.objects, action.targetId);
    RosterOfUpdated(host, pack, stage.objects, source);
    var missing := "Binding target " + action.targetId + " was not found.";
    WarnIsSeen(host, stage, source, missing);
    if action.PlayAnimation? {
      var message := "Animation " + action.animationId + " was not found.";
      WarnIsSeen(host, stage, source, message);
      WarnIsSeen(host, Warn(host, stage, source, message), source, missing);
    }
  }

  lemma TrackAsForecast(host: Host, pack: AssetPack, stage: Stage, source: ScheduledAction)
    requires ClipsAdvance(pack) && IsTrackAction(source.action) && Plain(pack, source.action)
    ensures AsForecast(host, pack, stage, source)
  {
    hide ApplyAction, TrackOf, TrackTargetWarning, AttachmentTargetWarning, Named, RosterOf;
    var action := source.action;
    Branches(host, pack, stage, source);
    TargetWarnings(host, stage, action.targetId, source);
    if action.MoveToObject? || action.OrbitAround? || action.AttachToObject? {
      TargetWarnings(host, TrackTargetWarning(host, stage, action.targetId, source), action.targetObjectId, source);
    }
  }

  lemma RosterOfInserted(stage: Stage, item: SceneObject)
    ensures RosterOf(InsertOrReplaceObject(stage, item).objects) == Added(RosterOf(stage.objects), EntryOf(item))
  {
    var kept := Keep(stage.objects, (existing: SceneObject) => existing.id != item.id);
    RosterOfKept(stage.objects, (existing: SceneObject) => existing.id != item.id,
        (entry: Entry) => entry.id != item.id);
    assert RosterOf(kept + [item]) == RosterOf(kept) + [EntryOf(item)];
  }

  lemma {:induction false} AnimationOfState(states: seq<StateAnimation>, state: string)
    requires AnimationForState(states, state).Some?
    ensures exists i | 0 <= i < |states| :: states[i].animationId == AnimationForState(states, state).value
  {
    if states[0].state != state {
      AnimationOfState(states[1..], state);
      var i :| 0 <= i < |states[1..]| && states[1..][i].animationId == AnimationForState(states, state).value;
      assert states[i + 1].animationId == AnimationForState(states, state).value;
    }
  }

  lemma PlainSpawnClip(host: Host, pack: AssetPack, source: ScheduledAction)
    requires IsSpawn(source.action) && PlainSpawn(pack, source.action)
    ensures ClipKnown(pack, SpawnedClip(host, FindPreset(pack.objectPresets, source.action.presetId).value, source))
  {
    var preset := FindPreset(pack.objectPresets, source.action.presetId).value;
    var state := SpecOf(host, preset, source).look.OrElse(preset.defaultVisualState).GetOr("active");
    if AnimationForState(preset.animationsByState, state).Some? {
      AnimationOfState(preset.animationsByState, state);
    }
    hide FindClip, EffectId;
  }

  lemma SpawnSucceedsIff(host: Host, pack: AssetPack, stage: Stage, source: ScheduledAction)
    requires IsSpawn(source.action) && FindPreset(pack.objectPresets, source.action.presetId).Some?
    ensures SpawnedBy(host, pack, stage, source).Some? <==> Resolves(pack, RosterOf(stage.objects), source.action)
  {
    hide FindSampledObject, FindObject, Named, RosterOf, SpecOf, BuildSpawnedObject;
    var action := source.action;
    if action.SpawnFromObject? {
      SampledIsLive(host, stage, action.sourceObjectId, source.runAt);
      FindInRoster(stage.objects, action.sourceObjectId);
    } else if action.SpawnAttachedEffect? {
      FindInRoster(stage.objects, action.targetId);
    } else if Truthy(action.nearId) {
      FindInRoster(stage.objects, action.nearId.value);
    }
  }

  lemma SpawnedIsBuilt(host: Host, pack: AssetPack, stage: Stage, source: ScheduledAction)
    returns (target: Option<SceneObject>)
    requires IsSpawn(source.action) && SpawnedBy(host, pack, stage, source).Some?
    ensures var preset := FindPreset(pack.objectPresets, source.action.presetId);
            && preset.Some?
            && SpawnedBy(host, pack, stage, source).value
               == BuildSpawnedObject(preset.value, SpecOf(host, preset.value, source), source, target)
  {
    hide FindSampledObject, FindObject, SpecOf, BuildSpawnedObject;
    var action := source.action;
    if action.SpawnFromObject? {
      target := FindSampledObject(host, stage, action.sourceObjectId, source.runAt);
    } else if action.SpawnAttachedEffect? {
      target := FindObject(stage.objects, action.targetId);
    } else {
      target := if Truthy(action.nearId) then FindObject(stage.objects, action.nearId.value) else None;
    }
  }

  /** The target of a spawn decides nothing but where the object is. */
  lemma BuiltAlike(preset: ObjectPreset, spec: SpawnSpec, source: ScheduledAction, target: Option<SceneObject>)
    ensures var built, anywhere := BuildSpawnedObject(preset, spec, source, target),
            BuildSpawnedObject(preset, spec, source, None);
            && built == anywhere.(x := built.x, y := built.y)
            && built.id == spec.id
  {
  }

  /** A spawn succeeds exactly when its target is found; id, entry and clip are as foreseen. */
  lemma SpawnedAsForecast(host: Host, pack: AssetPack, stage: Stage, source: ScheduledAction)
    requires IsSpawn(source.action) && FindPreset(pack.objectPresets, source.action.presetId).Some?
    ensures var spawned := SpawnedBy(host, pack, stage, source);
            var preset := FindPreset(pack.objectPresets, source.action.presetId).value;
            && (spawned.Some? <==> Resolves(pack, RosterOf(stage.objects), source.action))
            && (spawned.Some? ==>
                  && spawned.value.id == SpecOf(host, preset, source).id
                  && Some(EntryOf(spawned.value)) == SpawnedEntry(host, pack, source)
                  && spawned.value.currentAnimationId == SpawnedClip(host, preset, source))
  {
    hide SpawnedBy, Resolves, RosterOf, BuildSpawnedObject, SpecOf;
    SpawnSucceedsIff(host, pack, stage, source);
    if SpawnedBy(host, pack, stage, source).Some? {
      var target := SpawnedIsBuilt(host, pack, stage, source);
      var preset := FindPreset(pack.objectPresets, source.action.presetId).value;
      BuiltAlike(preset, SpecOf(host, preset, source), source, target);
    }
  }

  lemma SpawnAsForecast(host: Host, pack: AssetPack, stage: Stage, source: ScheduledAction)
    requires ClipsAdvance(pack) && IsSpawn(source.action) && Plain(pack, source.action)
    ensures AsForecast(host, pack, stage, source)
  {
    hide ApplyAction, SpawnedBy, Warn, FindClip, FindObject, RosterOf, InsertOrReplaceObject, CompletionOf, RemovalOf;
    hide SpawnedClip, SpecOf, Resolves, Added, SpawnedEntry;
    Branches(host, pack, stage, source);
    SpawnedAsForecast(host, pack, stage, source);
    PlainSpawnClip(host, pack, source);
    var spawned := SpawnedBy(host, pack, stage, source);
    if spawned.None? {
      WarnIsSeen(host, stage, source, SpawnFailure(pack, source));
    } else {
      SpawnChanges(host, pack, stage, source);
      RosterOfInserted(stage, spawned.value);
      SpawnPushes(host, pack, stage, source);
    }
  }

  lemma SpawnPushes(host: Host, pack: AssetPack, stage: Stage, source: ScheduledAction)
    requires ClipsAdvance(pack) && IsSpawn(source.action) && PlainSpawn(pack, source.action)
    requires SpawnedBy(host, pack, stage, source).Some?
    ensures FollowUps(host, pack, stage, source) == ForeseenPush(host, pack, source)
  {
    hide SpawnedBy, SpecOf, SpawnedClip, CompletionOf, Resolves;
    SpawnedAsForecast(host, pack, stage, source);
  }

  /** A successful spawn changes the objects by its insertion and warns only about its clip. */
  lemma SpawnChanges(host: Host, pack: AssetPack, stage: Stage, source: ScheduledAction)
    requires IsSpawn(source.action) && SpawnedBy(host, pack, stage, source).Some?
    ensures var next := ApplyAction(host, pack, stage, source);
            && (ClipKnown(pack, SpawnedBy(host, pack, stage, source).value.currentAnimationId) ==>
                  next.warnings == stage.warnings)
            && next.objects == InsertOrReplaceObject(stage, SpawnedBy(host, pack, stage, source).value).objects
  {
    hide ApplyAction, SpawnedBy, FindClip, FindObject, Keep, Warn;
    Branches(host, pack, stage, source);
    var clipId := SpawnedBy(host, pack, stage, source).value.currentAnimationId;
    WarnIsSeen(host, stage, source, "Animation " + clipId.GetOr("") + " was not found.");
    if source.action.SpawnAttachedEffect? {
      AttachedTargetIsFound(host, pack, stage, source);
    }
  }

  lemma RosterOfRest(objects: seq<SceneObject>, victimId: Option<string>, tag: Option<string>,
                     selector: Option<MetadataSelector>)
    ensures RosterOf(Keep(objects, (item: SceneObject) => !Selected(item, victimId, tag, selector)))
         == Removed(RosterOf(objects), victimId, tag, selector)
  {
    RosterOfKept(objects, (item: SceneObject) => !Selected(item, victimId, tag, selector),
                 (entry: Entry) => !entry.Selected(victimId, tag, selector));
  }

  lemma {:induction false} KeepShortens<T>(s: seq<T>, p: T -> bool, i: nat)
    requires i < |s| && !p(s[i])
    ensures |Keep(s, p)| < |s|
  {
    if i < |s| - 1 {
      KeepShortens(s[..|s| - 1], p, i);
    }
  }

  /** What a removal spares is everything exactly when it selects nothing. */
  lemma SparedIsAllIff(objects: seq<SceneObject>, victimId: Option<string>, tag: Option<string>,
                       selector: Option<MetadataSelector>)
    ensures var spared := (item: SceneObject) => !Selected(item, victimId, tag, selector);
            |Keep(objects, spared)| == |objects| <==> !SelectsAny(RosterOf(objects), victimId, tag, selector)
  {
    hide Keep;
    var roster := RosterOf(objects);
    var spared := (item: SceneObject) => !Selected(item, victimId, tag, selector);
    if SelectsAny(roster, victimId, tag, selector) {
      var i :| 0 <= i < |roster| && roster[i].Selected(victimId, tag, selector);
      KeepShortens(objects, spared, i);
    } else {
      forall item | item in objects ensures spared(item) {
        var i :| 0 <= i < |objects| && objects[i] == item;
        assert !roster[i].Selected(victimId, tag, selector);
      }
      KeepAll(objects, spared);
    }
  }

  lemma NothingChosen(roster: seq<Entry>, victimId: Option<string>, tag: Option<string>,
                      selector: Option<MetadataSelector>)
    requires !Truthy(victimId) && !Truthy(tag) && selector.None?
    ensures !SelectsAny(roster, victimId, tag, selector)
  {
  }

  /** A removal warns exactly when it selects nothing. */
  lemma RemovalAsForecast(host: Host, stage: Stage, victimId: Option<string>, tag: Option<string>,
                          selector: Option<MetadataSelector>, source: ScheduledAction)
    ensures var next, roster := RemoveObjects(host, stage, victimId, tag, selector, source), RosterOf(stage.objects);
            if SelectsAny(roster, victimId, tag, selector)
            then next.warnings == stage.warnings && RosterOf(next.objects) == Removed(roster, victimId, tag, selector)
            else next.warnings != []
  {
    hide Warn, RosterOf, Keep, Removed, SelectsAny, Selected;
    var spared := (item: SceneObject) => !Selected(item, victimId, tag, selector);
    RosterOfRest(stage.objects, victimId, tag, selector);
    SparedIsAllIff(stage.objects, victimId, tag, selector);
    WarnIsSeen(host, stage, source, "Remove action did not include a selector.");
    WarnIsSeen(host, stage.(objects := Keep(stage.objects, spared)), source,
        "Remove action did not match any objects.");
    if !Truthy(victimId) && !Truthy(tag) && selector.None? {
      NothingChosen(RosterOf(stage.objects), victimId, tag, selector);
    }
  }

  lemma DespawnAsForecast(host: Host, pack: AssetPack, stage: Stage, source: ScheduledAction)
    requires ClipsAdvance(pack) && source.action.DespawnAtObject?
    ensures AsForecast(host, pack, stage, source)
  {
    var action := source.action;
    FindInRoster(stage.objects, action.targetId);
    FindInRoster(stage.objects, action.targetObjectId);
    if Resolves(pack, RosterOf(stage.objects), action) {
      DespawnUnlists(host, pack, stage, source);
    } else if Named(RosterOf(stage.objects), action.targetId) && Named(RosterOf(stage.objects), action.targetObjectId) {
      NamelessDespawnWarns(host, pack, stage, source);
    } else {
      LostDespawnWarns(host, pack, stage, source);
    }
    hide ApplyAction, FindObject, Named, FirstNamed, RosterOf, Keep;
  }

  lemma DespawnUnlists(host: Host, pack: AssetPack, stage: Stage, source: ScheduledAction)
    requires source.action.DespawnAtObject?
    requires FindObject(stage.objects, source.action.targetId).Some?
    requires FindObject(stage.objects, source.action.targetObjectId).Some?
    requires FindObject(stage.objects, source.action.targetId).value.id != ""
    ensures var next := ApplyAction(host, pack, stage, source);
            var id := FindObject(stage.objects, source.action.targetId).value.id;
            next.warnings == stage.warnings
                && RosterOf(next.objects) == Removed(RosterOf(stage.objects), Some(id), None, None)
  {
    hide ApplyAction, FindObject;
    ActionEffects.DespawnRemoves(host, pack, stage, source);
    var id := FindObject(stage.objects, source.action.targetId).value.id;
    KeepAlike(stage.objects, (item: SceneObject) => !Answers(item, id),
        (item: SceneObject) => !Selected(item, Some(id), None, None));
    RosterOfRest(stage.objects, Some(id), None, None);
  }

  /** An object without an id cannot be removed by it. */
  lemma NamelessDespawnWarns(host: Host, pack: AssetPack, stage: Stage, source: ScheduledAction)
    requires source.action.DespawnAtObject?
    requires FindObject(stage.objects, source.action.targetId).Some?
    requires FindObject(stage.objects, source.action.targetObjectId).Some?
    requires FindObject(stage.objects, source.action.targetId).value.id == ""
    ensures ApplyAction(host, pack, stage, source).warnings != []
  {
    hide ApplyAction, RemoveObjects, FindObject, DockedObject;
    ActionEffects.DespawnDocksFirst(host, pack, stage, source);
    var inserted := InsertOrReplaceObject(stage, DockedObject(host, stage, source).value);
    RemovalAsForecast(host, inserted, Some(""), None, None, source);
  }

  /** Without its object or without its target nothing is removed. */
  lemma LostDespawnWarns(host: Host, pack: AssetPack, stage: Stage, source: ScheduledAction)
    requires source.action.DespawnAtObject?
    requires !Named(RosterOf(stage.objects), source.action.targetId)
             || !Named(RosterOf(stage.objects), source.action.targetObjectId)
    ensures ApplyAction(host, pack, stage, source).warnings != []
  {
    hide ApplyAction, RemoveObjects, TrackTargetWarning, AttachmentTargetWarning, Named, FindObject,
        FindSampledObject, RosterOf;
    Branches(host, pack, stage, source);
    var action := source.action;
    TargetWarnings(host, stage, action.targetId, source);
    TargetWarnings(host, TrackTargetWarning(host, stage, action.targetId, source), action.targetObjectId, source);
    var next := DespawnWarnings(host, stage, source);
    assert next.warnings != [] && next.objects == stage.objects;
    FindInRoster(stage.objects, action.targetId);
    FindInRoster(stage.objects, action.targetObjectId);
    SampledIsLive(host, next, action.targetObjectId, source.runAt);
    assert DockedObject(host, next, source).None?;
  }

  /** Every action does what the forecast says. */
  lemma ActionAsForecast(host: Host, pack: AssetPack, stage: Stage, source: ScheduledAction)
    requires ClipsAdvance(pack) && Plain(pack, source.action)
    ensures AsForecast(host, pack, stage, source)
  {
    if IsUpdate(source.action) {
      UpdateAsForecast(host, pack, stage, source);
    } else if IsTrackAction(source.action) {
      TrackAsForecast(host, pack, stage, source);
    } else if IsSpawn(source.action) {
      SpawnAsForecast(host, pack, stage, source);
    } else if source.action.DespawnAtObject? {
      DespawnAsForecast(host, pack, stage, source);
    } else {
      OtherAsForecast(host, pack, stage, source);
    }
    hide AsForecast;
  }

  lemma OtherAsForecast(host: Host, pack: AssetPack, stage: Stage, source: ScheduledAction)
    requires ClipsAdvance(pack)
    requires source.action.RemoveObject? || source.action.DetachFromObject? || source.action.HideRouteTrail?
    ensures AsForecast(host, pack, stage, source)
  {
    hide ApplyAction, RemoveObjects, RosterOf, SelectsAny, RemoveTracksForObject;
    hide FollowUps, ForeseenPush, Enroll, Resolves;
    Branches(host, pack, stage, source);
    OthersInRoster(host, pack, RosterOf(stage.objects), source);
    OthersPushNothing(host, pack, stage, source);
    if source.action.RemoveObject? {
      RemovalAsForecast(host, stage, source.action.victimId, source.action.tag, source.action.selector, source);
    } else {
      TracksRemoved(stage, source.action.targetId, AttachTrack);
      TracksRemoved(stage, source.action.targetId, RouteTrailTrack);
    }
  }

  lemma TracksRemoved(stage: Stage, id: string, kind: TrackKind)
    ensures var next := RemoveTracksForObject(stage, id, kind);
            next.objects == stage.objects && next.warnings == stage.warnings
  {
    hide Keep, FindObject;
  }

  lemma OthersInRoster(host: Host, pack: AssetPack, roster: seq<Entry>, source: ScheduledAction)
    requires source.action.RemoveObject? || source.action.DetachFromObject? || source.action.HideRouteTrail?
    ensures var action := source.action;
            && Enroll(host, pack, roster, source) ==
               (if action.RemoveObject? then Removed(roster, action.victimId, action.tag, action.selector) else roster)
            && (Resolves(pack, roster, action) <==>
                  action.RemoveObject? ==> SelectsAny(roster, action.victimId, action.tag, action.selector))
  {
    hide Named, Removed, SelectsAny;
  }

  lemma OthersPushNothing(host: Host, pack: AssetPack, stage: Stage, source: ScheduledAction)
    requires ClipsAdvance(pack)
    requires source.action.RemoveObject? || source.action.DetachFromObject? || source.action.HideRouteTrail?
    ensures FollowUps(host, pack, stage, source) == ForeseenPush(host, pack, source) == []
  {
  }

  // -------------------------------------------------------------------- whole runs

  lemma ForeseenPushIsSmall(host: Host, pack: AssetPack, source: ScheduledAction)
    requires ClipsAdvance(pack)
    ensures |ForeseenPush(host, pack, source)| < Weight(source.action)
    ensures forall x | x in ForeseenPush(host, pack, source) ::
              x.action.SetState? || x.action.RemoveObject?
    ensures forall x | x in ForeseenPush(host, pack, source) ::
              x.actionIndex == source.actionIndex + 0.1 || x.actionIndex == source.actionIndex + 0.2
  {
    hide SpawnedClip, SpecOf, FindPreset, Truthy, FindClip;
  }

  lemma ForeseenPushIsLater(host: Host, pack: AssetPack, source: ScheduledAction)
    requires ClipsAdvance(pack) && PushesForward(pack, source.action)
    ensures forall x | x in ForeseenPush(host, pack, source) :: RunsNoLater(source, x) && PushesForward(pack, x.action)
  {
    var action := source.action;
    if action.PlayAnimation? {
      CompletionLater(pack, source, Some(action.animationId), Some(action.targetId), action.onCompleteState);
    } else if action.SpawnEffect? && FindPreset(pack.objectPresets, action.presetId).Some? {
      var targetId := if action.onCompleteTargetId.None? then None
                      else action.onCompleteTargetId.value.OrElse(action.nearId);
      var clipId := SpawnedClip(host, FindPreset(pack.objectPresets, action.presetId).value, source);
      CompletionLater(pack, source, clipId, targetId, action.onCompleteState);
    }
    ForeseenPushIsSmall(host, pack, source);
    hide SpawnedClip, SpecOf, FindPreset, CompletionOf;
  }

  /** The replay on rosters alone. */
  function RosterEngine(host: Host, pack: AssetPack): Engine<seq<Entry>>
    requires ClipsAdvance(pack)
  {
    Engine((roster: seq<Entry>, job: ScheduledAction) => Enroll(host, pack, roster, job),
           (roster: seq<Entry>, job: ScheduledAction) => ForeseenPush(host, pack, job),
           (job: ScheduledAction) => Weight(job.action),
           (job: ScheduledAction) => PushesForward(pack, job.action))
  }

  lemma RosterEngineRuns(host: Host, pack: AssetPack)
    requires ClipsAdvance(pack)
    ensures Exhausts(RosterEngine(host, pack)) && LooksForward(RosterEngine(host, pack))
  {
    var engine := RosterEngine(host, pack);
    forall roster: seq<Entry>, job
      ensures TotalWeight(engine.weight, engine.push(roster, job)) < engine.weight(job)
      ensures engine.timely(job) ==> AllBehind(engine, job, engine.push(roster, job))
    {
      ForeseenPushIsSmall(host, pack, job);
      WeightBounds(engine.weight, ForeseenPush(host, pack, job), 1);
      if PushesForward(pack, job.action) {
        ForeseenPushIsLater(host, pack, job);
      }
    }
  }

  lemma FirstResolves(host: Host, pack: AssetPack, roster: seq<Entry>, first: ScheduledAction,
                      rest: seq<ScheduledAction>)
    ensures AllResolve(host, pack, roster, [first] + rest) <==>
            Resolves(pack, roster, first.action) && AllResolve(host, pack, Enroll(host, pack, roster, first), rest)
  {
    hide Resolves, Enroll;
    assert ([first] + rest)[1..] == rest;
  }

  lemma ForeseenPushIsPlain(host: Host, pack: AssetPack, source: ScheduledAction)
    requires ClipsAdvance(pack)
    ensures forall x | x in ForeseenPush(host, pack, source) :: Plain(pack, x.action)
  {
    ForeseenPushIsSmall(host, pack, source);
    hide ForeseenPush;
  }

  /** One step that resolves: the stage and its roster go on with the same pending actions. */
  lemma StepResolved(host: Host, pack: AssetPack, stage: Stage, pending: seq<ScheduledAction>, timeMs: real)
    requires ClipsAdvance(pack) && stage.warnings == [] && forall x | x in pending :: Plain(pack, x.action)
    requires !Finished(pending, timeMs)
    requires Resolves(pack, RosterOf(stage.objects), pending[Earliest(pending)].action)
    ensures var next := ApplyAction(host, pack, stage, pending[Earliest(pending)]);
            var remaining := Remaining(RuntimeEngine(host, pack), stage, pending);
            && next.warnings == []
            && RosterOf(next.objects) == Enroll(host, pack, RosterOf(stage.objects), pending[Earliest(pending)])
            && Remaining(RosterEngine(host, pack), RosterOf(stage.objects), pending) == remaining
            && forall x | x in remaining :: Plain(pack, x.action)
  {
    var next := pending[Earliest(pending)];
    assert next in pending;
    ActionAsForecast(host, pack, stage, next);
    ForeseenPushIsPlain(host, pack, next);
    assert forall x | x in Without(pending, Earliest(pending)) :: x in pending;
    hide ApplyAction, FollowUps, Enroll, ForeseenPush, Resolves, Plain, RosterOf;
  }

  /** A replay is silent exactly when the replay on rosters resolves at every step. */
  lemma {:induction false} SilentIffRosterResolves(host: Host, pack: AssetPack, stage: Stage,
                                                   pending: seq<ScheduledAction>,
                                                 timeMs: real)
    requires ClipsAdvance(pack) && stage.warnings == [] && forall x | x in pending :: Plain(pack, x.action)
    requires Exhausts(RosterEngine(host, pack))
    ensures RunFrom(host, pack, stage, pending, timeMs).state.warnings == [] <==>
            AllResolve(host, pack, RosterOf(stage.objects),
                       Simulate(RosterEngine(host, pack), RosterOf(stage.objects), pending, timeMs).trace)
    decreases TotalWeight(RuntimeEngine(host, pack).weight, pending)
  {
    EngineRuns(host, pack);
    var engine, rosters, roster := RuntimeEngine(host, pack), RosterEngine(host, pack), RosterOf(stage.objects);
    if Finished(pending, timeMs) {
      SimulateFinished(engine, stage, pending, timeMs);
      SimulateFinished(rosters, roster, pending, timeMs);
    } else {
      var next := pending[Earliest(pending)];
      var remaining := Remaining(engine, stage, pending);
      SimulateStep(rosters, roster, pending, timeMs);
      FirstResolves(host, pack, roster, next,
        Simulate(rosters, rosters.apply(roster, next), Remaining(rosters, roster, pending), timeMs).trace);
      if Resolves(pack, roster, next.action) {
        StepResolved(host, pack, stage, pending, timeMs);
        SimulateStep(engine, stage, pending, timeMs);
        RemainingIsLighter(engine, stage, pending);
        SilentIffRosterResolves(host, pack, ApplyAction(host, pack, stage, next), remaining, timeMs);
      } else {
        assert next in pending;
        ActionAsForecast(host, pack, stage, next);
        FirstWarningStays(host, pack, stage, pending, timeMs);
      }
    }
    hide ApplyAction, FollowUps, Enroll, ForeseenPush, Resolves, Plain, RosterOf, Simulate, Remaining, AllResolve;
  }

  // ------------------------------------------------------ the rosters' run, in closed form

  /** The action index of a rule's own action; what is pushed lies between two of them. */
  predicate IsOwn(job: ScheduledAction) { job.actionIndex.Floor as real == job.actionIndex }

  lemma {:induction false} ForeseenPushesAppend(host: Host, pack: AssetPack, a: seq<ScheduledAction>,
                                                b: seq<ScheduledAction>)
    requires ClipsAdvance(pack)
    ensures ForeseenPushes(host, pack, a + b) == ForeseenPushes(host, pack, a) + ForeseenPushes(host, pack, b)
  {
    hide ForeseenPush;
    if a == [] {
      assert a + b == b;
    } else {
      assert (a + b)[1..] == a[1..] + b;
      ForeseenPushesAppend(host, pack, a[1..], b);
    }
  }

  /** What is pushed is the actions' foreseen pushes, in execution order. */
  lemma {:induction false} PushedAsForeseen(host: Host, pack: AssetPack, roster: seq<Entry>,
                                            pending: seq<ScheduledAction>, timeMs: real)
    requires ClipsAdvance(pack) && Exhausts(RosterEngine(host, pack))
    ensures var run := Simulate(RosterEngine(host, pack), roster, pending, timeMs);
            run.pushed == ForeseenPushes(host, pack, run.trace)
    decreases TotalWeight(RosterEngine(host, pack).weight, pending)
  {
    hide Enroll, ForeseenPush, Remaining, TotalWeight, Simulate;
    var rosters := RosterEngine(host, pack);
    if Finished(pending, timeMs) {
      SimulateFinished(rosters, roster, pending, timeMs);
    } else {
      var next := pending[Earliest(pending)];
      SimulateStep(rosters, roster, pending, timeMs);
      RemainingIsLighter(rosters, roster, pending);
      var after, remaining := rosters.apply(roster, next), Remaining(rosters, roster, pending);
      PushedAsForeseen(host, pack, after, remaining, timeMs);
      var rest := Simulate(rosters, after, remaining, timeMs);
      assert ([next] + rest.trace)[1..] == rest.trace;
    }
  }

  /** Leaving out actions that push nothing leaves the pushes as they are. */
  lemma {:induction false} IdleDropped(host: Host, pack: AssetPack, jobs: seq<ScheduledAction>,
                                       p: ScheduledAction -> bool)
    requires ClipsAdvance(pack) && forall x | x in jobs && !p(x) :: ForeseenPush(host, pack, x) == []
    ensures ForeseenPushes(host, pack, Keep(jobs, p)) == ForeseenPushes(host, pack, jobs)
  {
    hide ForeseenPush;
    if jobs != [] {
      var front, last := jobs[..|jobs| - 1], jobs[|jobs| - 1];
      assert jobs == front + [last];
      IdleDropped(host, pack, front, p);
      ForeseenPushesAppend(host, pack, front, [last]);
      ForeseenPushesAppend(host, pack, Keep(front, p), [last]);
      PushesOfOne(host, pack, last);
    }
  }

  lemma PushesOfOne(host: Host, pack: AssetPack, job: ScheduledAction)
    requires ClipsAdvance(pack)
    ensures ForeseenPushes(host, pack, [job]) == ForeseenPush(host, pack, job)
  {
    hide ForeseenPush;
    assert [job][1..] == [];
  }

  lemma {:induction false} PusherOf(host: Host, pack: AssetPack, jobs: seq<ScheduledAction>, x: ScheduledAction)
    returns (job: ScheduledAction)
    requires ClipsAdvance(pack) && x in ForeseenPushes(host, pack, jobs)
    ensures job in jobs && x in ForeseenPush(host, pack, job)
  {
    hide ForeseenPush;
    if x in ForeseenPush(host, pack, jobs[0]) {
      job := jobs[0];
    } else {
      job := PusherOf(host, pack, jobs[1..], x);
    }
  }

  lemma PushesAreNotOwn(host: Host, pack: AssetPack, job: ScheduledAction)
    requires ClipsAdvance(pack)
    ensures IsOwn(job) ==> forall x | x in ForeseenPush(host, pack, job) :: !IsOwn(x)
    ensures job.action.SetState? || job.action.RemoveObject? ==> ForeseenPush(host, pack, job) == []
  {
    ForeseenPushIsSmall(host, pack, job);
  }

  /** The run on rosters executes exactly the foreseen actions. */
  lemma RosterRunIsForeseen(host: Host, pack: AssetPack, roster: seq<Entry>, scheduled: seq<ScheduledAction>,
                            timeMs: real)
    requires ClipsAdvance(pack) && Exhausts(RosterEngine(host, pack)) && LooksForward(RosterEngine(host, pack))
    requires forall x | x in scheduled :: IsOwn(x) && (Due(x, timeMs) ==> PushesForward(pack, x.action))
    ensures Simulate(RosterEngine(host, pack), roster, scheduled, timeMs).trace
            == Foreseen(host, pack, scheduled, timeMs)
  {
    var run := Simulate(RosterEngine(host, pack), roster, scheduled, timeMs);
    ExecutesDueInOrder(RosterEngine(host, pack), roster, scheduled, timeMs);
    PushedAsForeseen(host, pack, roster, scheduled, timeMs);
    var all := scheduled + run.pushed;
    SortedMembers(all);
    RunOrderIsPreorder();
    hide ForeseenPush, Simulate, Sort, RunsNoLater, IsOwn, ForeseenPushes;
    forall x | x in run.pushed ensures !IsOwn(x) && ForeseenPush(host, pack, x) == [] {
      PushedIsIdle(host, pack, scheduled, run.trace, run.pushed, x);
    }
    KeepAppend(scheduled, run.pushed, x => IsOwn(x));
    KeepAll(scheduled, x => IsOwn(x));
    KeepNone(run.pushed, x => IsOwn(x));
    assert Keep(all, x => IsOwn(x)) == scheduled;
    SortKept(all, x => IsOwn(x), RunsNoLater);
    KeepBoth(Sort(all, RunsNoLater), x => Due(x, timeMs), x => IsOwn(x));
    assert Keep(run.trace, x => IsOwn(x)) == DueItems(Sort(scheduled, RunsNoLater), timeMs);
    IdleDropped(host, pack, run.trace, x => IsOwn(x));
  }

  lemma PushedIsIdle(host: Host, pack: AssetPack, scheduled: seq<ScheduledAction>, trace: seq<ScheduledAction>,
                     pushed: seq<ScheduledAction>, x: ScheduledAction)
    requires ClipsAdvance(pack) && pushed == ForeseenPushes(host, pack, trace) && x in pushed
    requires forall job | job in trace :: job in scheduled || job in pushed
    requires forall job | job in scheduled :: IsOwn(job)
    ensures !IsOwn(x) && ForeseenPush(host, pack, x) == []
  {
    hide ForeseenPush, IsOwn;
    var job := PusherOf(host, pack, trace, x);
    ForeseenPushIsSmall(host, pack, job);
    PushesAreNotOwn(host, pack, x);
    PushesAreNotOwn(host, pack, job);
    if job !in scheduled {
      var source := PusherOf(host, pack, trace, job);
      ForeseenPushIsSmall(host, pack, source);
    }
  }

  /** A replay raises no warning exactly when the foreseen actions all resolve, starting from
      the roster of the initial objects. */
  lemma SilentIffForeseenResolve(host: Host, pack: AssetPack, objects: seq<SceneObject>,
                                 scheduled: seq<ScheduledAction>, timeMs: real)
    requires ClipsAdvance(pack) && forall x | x in scheduled :: IsOwn(x) && Plain(pack, x.action)
    requires forall x | x in scheduled && Due(x, timeMs) :: PushesForward(pack, x.action)
    ensures RunFrom(host, pack, InitialStage(objects), scheduled, timeMs).state.warnings == [] <==>
            AllResolve(host, pack, RosterOf(objects), Foreseen(host, pack, scheduled, timeMs))
  {
    RosterEngineRuns(host, pack);
    assert RosterOf(InitialStage(objects).objects) == RosterOf(objects);
    hide InitialStage, Plain, IsOwn, Foreseen, AllResolve, Simulate;
    SilentIffRosterResolves(host, pack, InitialStage(objects), scheduled, timeMs);
    RosterRunIsForeseen(host, pack, RosterOf(objects), scheduled, timeMs);
  }
}
