/**
  What each action of the switch leaves on the stage, said field by field and without the
  functions that compute it.
*/
module ActionMeaning {
  import opened Wrappers
  import opened Contracts
  import opened StableSort
  import opened TrackRuntime
  import opened Sampling
  import opened SamplingProperties
  import opened Scheduler
  import opened RuntimeState
  import opened Replay
  import opened RuntimeInvariants
  import opened ActionEffects
  import RuleDispatch

  // ---------------------------------------------------------------------- warnings

  function Joined(parts: seq<string>): string
    requires parts != []
  {
    if |parts| == 1 then parts[0] else parts[0] + ":" + Joined(parts[1..])
  }

  /** The parts of a warning's id: an empty id and an index of zero are left out. */
  function IdParts(host: Host, source: ScheduledAction, message: string): seq<string> {
    (if source.event.eventId != "" then [source.event.eventId] else [])
    + (if source.ruleId != "" then [source.ruleId] else [])
    + (if source.actionIndex != 0.0 then [host.numberText(source.actionIndex)] else [])
    + [message]
  }

  lemma JoinedPrefix(head: string, rest: seq<string>)
    requires rest != []
    ensures Joined([head] + rest) == head + ":" + Joined(rest)
  {
    assert ([head] + rest)[1..] == rest;
  }

  lemma WarningIdIsJoined(host: Host, source: ScheduledAction, message: string)
    ensures WarningId(host, source, message) == Joined(IdParts(host, source, message))
  {
    var tail := (if source.actionIndex != 0.0 then [host.numberText(source.actionIndex)] else []) + [message];
    if source.actionIndex != 0.0 {
      JoinedPrefix(host.numberText(source.actionIndex), [message]);
    }
    var middle := (if source.ruleId != "" then [source.ruleId] else []) + tail;
    if source.ruleId != "" {
      JoinedPrefix(source.ruleId, tail);
    } else {
      assert middle == tail;
    }
    if source.event.eventId != "" {
      JoinedPrefix(source.event.eventId, middle);
      assert IdParts(host, source, message) == [source.event.eventId] + middle;
    } else {
      assert IdParts(host, source, message) == middle;
    }
  }

  /** The stage with this warning of the action, unless it has one of the same id. */
  ghost predicate Warned(host: Host, before: Stage, after: Stage, source: ScheduledAction, message: string) {
    var id := Joined(IdParts(host, source, message));
    && after.objects == before.objects && after.visualTracks == before.visualTracks
    && after.warnings ==
       if exists w | w in before.warnings :: w.id == id then before.warnings
       else before.warnings + [RuntimeWarning(id, message, source.event.eventId, source.ruleId, source.action)]
  }

  lemma WarnMeans(host: Host, stage: Stage, source: ScheduledAction, message: string)
    ensures Warned(host, stage, Warn(host, stage, source, message), source, message)
  {
    WarningIdIsJoined(host, source, message);
    hide WarningId, IdParts, Joined;
  }

  /** Two warnings of one action get the same id only if they say the same. */
  lemma OtherMessageOtherId(host: Host, source: ScheduledAction, one: string, other: string)
    ensures WarningId(host, source, one) == WarningId(host, source, other) ==> one == other
  {
    var number := if source.actionIndex == 0.0 then "" else host.numberText(source.actionIndex) + ":";
    var prefix := (if source.event.eventId == "" then "" else source.event.eventId + ":")
                  + (if source.ruleId == "" then "" else source.ruleId + ":") + number;
    assert WarningId(host, source, one) == prefix + one;
    assert WarningId(host, source, other) == prefix + other;
    assert (prefix + one)[|prefix|..] == one && (prefix + other)[|prefix|..] == other;
  }

  // ----------------------------------------------------------------------- updates

  /** Entry `k` is the first one for the state. */
  predicate FirstFor(states: seq<StateAnimation>, state: string, k: nat) {
    k < |states| && states[k].state == state && forall j | 0 <= j < k :: states[j].state != state
  }

  lemma {:induction false} AnimationForStateIsFirst(states: seq<StateAnimation>, state: string)
    ensures forall k: nat | FirstFor(states, state, k) ::
            AnimationForState(states, state) == Some(states[k].animationId)
    ensures (forall k | 0 <= k < |states| :: states[k].state != state) ==> AnimationForState(states, state) == None
  {
    if states != [] && states[0].state != state {
      AnimationForStateIsFirst(states[1..], state);
      forall k: nat | FirstFor(states, state, k) ensures AnimationForState(states, state)
          == Some(states[k].animationId) {
        assert FirstFor(states[1..], state, k - 1);
      }
      assert forall k | 0 <= k < |states[1..]| :: states[1..][k] == states[k + 1];
    }
  }

  /** The clip an object shows in a state: that of the first entry for the state, else the
      fallback. */
  ghost predicate ClipIn(states: seq<StateAnimation>, state: string, fallback: Option<string>, clip: Option<string>) {
    && (forall k: nat | FirstFor(states, state, k) :: clip == Some(states[k].animationId))
    && ((forall k | 0 <= k < |states| :: states[k].state != state) ==> clip == fallback)
  }

  /** What an update makes of an object that answers to its target. */
  ghost predicate Updates(action: VisualAction, runAt: real, o: SceneObject, n: SceneObject) {
    match action
    case SetState(_, state) =>
      && ClipIn(o.animationsByState, state, o.currentAnimationId, n.currentAnimationId)
      && n == o.(state := state, visualState := Some(state), currentAnimationId := n.currentAnimationId,
                 animationStartedAt := if n.currentAnimationId == o.currentAnimationId then o.animationStartedAt
                                       else Some(runAt))
    case ShowObject(_) => n == o.(hidden := false)
    case HideObject(_) => n == o.(hidden := true)
    case PlayAnimation(_, animationId, _, _) =>
      n == o.(currentAnimationId := Some(animationId), animationStartedAt := Some(runAt))
    case SetProperty(_, Metadata(key), value) => n == o.(metadata := o.metadata[key := value])
    case SetProperty(_, Numeric(name), value) =>
      if !value.Num? then n == o
      else
        (match name
         case Opacity => n == o.(opacity := Some(value.num))
         case Rotation => n == o.(rotation := Some(value.num))
         case X => n == o.(x := value.num)
         case Y => n == o.(y := value.num)
         case ZIndex => n == o.(zIndex := Some(value.num)))
    case _ => false
  }

  lemma UpdatedItemMeans(source: ScheduledAction, item: SceneObject)
    requires IsUpdate(source.action)
    ensures Updates(source.action, source.runAt, item, UpdatedItem(source, item))
  {
    if source.action.SetState? {
      AnimationForStateIsFirst(item.animationsByState, source.action.state);
    }
  }

  /** The stage on which an update acts: one that has been told of a missing clip. */
  ghost predicate ClipChecked(host: Host, pack: AssetPack, before: Stage, after: Stage, source: ScheduledAction) {
    if source.action.PlayAnimation? && forall clip | clip in pack.animations :: clip.id != source.action.animationId
    then Warned(host, before, after, source, "Animation " + source.action.animationId + " was not found.")
    else after == before
  }

  /** An update rewrites exactly the objects that answer to its target, each as it says, and
      warns exactly about a missing clip and, if nothing answers, about the target. */
  lemma UpdateMeans(host: Host, pack: AssetPack, stage: Stage, source: ScheduledAction) returns (checked: Stage)
    requires IsUpdate(source.action)
    ensures ClipChecked(host, pack, stage, checked, source)
    ensures var next, id := ApplyAction(host, pack, stage, source), source.action.targetId;
            if exists item | item in stage.objects :: item.id == id || item.entityId == Some(id) then
              && next.visualTracks == stage.visualTracks && next.warnings == checked.warnings
              && |next.objects| == |stage.objects|
              && forall i | 0 <= i < |stage.objects| ::
                   if stage.objects[i].id == id || stage.objects[i].entityId == Some(id)
                   then Updates(source.action, source.runAt, stage.objects[i], next.objects[i])
                   else next.objects[i] == stage.objects[i]
            else Warned(host, checked, next, source, "Binding target " + id + " was not found.")
  {
    hide ApplyAction, UpdatedItem, Warn, Updates, Warned;
    Branches(host, pack, stage, source);
    var id := source.action.targetId;
    var clipId := if source.action.PlayAnimation? then source.action.animationId else "";
    var missing := "Animation " + clipId + " was not found.";
    checked := if source.action.PlayAnimation? && FindClip(pack.animations, source.action.animationId).None?
               then Warn(host, stage, source, missing) else stage;
    WarnMeans(host, stage, source, missing);
    WarnMeans(host, checked, source, "Binding target " + id + " was not found.");
    WarnedKeepsObjects(host, stage, checked, source, missing);
    forall i | 0 <= i < |stage.objects| ensures Updates(source.action, source.runAt, stage.objects[i],
        UpdatedItem(source, stage.objects[i])) {
      UpdatedItemMeans(source, stage.objects[i]);
    }
  }

  lemma WarnedKeepsObjects(host: Host, before: Stage, after: Stage, source: ScheduledAction, message: string)
    ensures after == before || Warned(host, before, after, source, message) ==>
              after.objects == before.objects && after.visualTracks == before.visualTracks
  {
  }

  // ------------------------------------------------------------------- finding things

  /** Object `k` is the first whose id or entity id is this. */
  predicate FirstAnswering(objects: seq<SceneObject>, id: string, k: nat) {
    && k < |objects| && (objects[k].id == id || objects[k].entityId == Some(id))
    && forall j | 0 <= j < k :: objects[j].id != id && objects[j].entityId != Some(id)
  }

  predicate NoneAnswers(objects: seq<SceneObject>, id: string) {
    forall j | 0 <= j < |objects| :: objects[j].id != id && objects[j].entityId != Some(id)
  }

  lemma {:induction false} FindIsFirst(objects: seq<SceneObject>, id: string)
    ensures forall k: nat | FirstAnswering(objects, id, k) :: FindObject(objects, id) == Some(objects[k])
    ensures NoneAnswers(objects, id) <==> FindObject(objects, id) == None
    ensures FindObject(objects, id).Some? ==> exists k: nat :: FirstAnswering(objects, id, k)
  {
    if objects != [] {
      FindIsFirst(objects[1..], id);
      if Answers(objects[0], id) {
        assert FirstAnswering(objects, id, 0);
      } else {
        forall k: nat | FirstAnswering(objects, id, k) ensures FindObject(objects, id) == Some(objects[k]) {
          assert FirstAnswering(objects[1..], id, k - 1);
        }
        if k: nat :| FirstAnswering(objects[1..], id, k) {
          FirstAnsweringShifts(objects, id, k);
        }
        assert NoneAnswers(objects, id) <==> NoneAnswers(objects[1..], id);
      }
    }
  }

  lemma FirstAnsweringShifts(objects: seq<SceneObject>, id: string, k: nat)
    requires objects != [] && objects[0].id != id && objects[0].entityId != Some(id)
    requires FirstAnswering(objects[1..], id, k)
    ensures FirstAnswering(objects, id, k + 1)
  {
    forall j | 0 <= j < k + 1 ensures objects[j].id != id && objects[j].entityId != Some(id) {
      assert j > 0 ==> objects[j] == objects[1..][j - 1];
    }
  }

  predicate FirstPreset(pack: AssetPack, id: string, k: nat) {
    && k < |pack.objectPresets| && pack.objectPresets[k].id == id
    && forall j | 0 <= j < k :: pack.objectPresets[j].id != id
  }

  lemma {:induction false} FindPresetIsFirst(presets: seq<ObjectPreset>, id: string, k: nat)
    requires k < |presets| && presets[k].id == id && forall j | 0 <= j < k :: presets[j].id != id
    ensures FindPreset(presets, id) == Some(presets[k])
  {
    if k > 0 {
      FindPresetIsFirst(presets[1..], id, k - 1);
    }
  }

  // --------------------------------------------------------------------------- pushes

  /** The removal a lifetime asks for. */
  predicate RemovesLater(source: ScheduledAction, objectId: string, lifetimeMs: Option<real>,
                         jobs: seq<ScheduledAction>) {
    jobs == if lifetimeMs.None? then []
            else [ScheduledAction(RemoveObject(Some(objectId), None, None), source.actionIndex + 0.2, source.event,
                                  source.ruleId, source.runAt + lifetimeMs.value)]
  }

  /** The jobs are the completion, if there is one, and then the removal, if there is one. */
  ghost predicate Pushes(pack: AssetPack, source: ScheduledAction, clipId: Option<string>, targetId: Option<string>,
                         state: Option<string>, objectId: string, lifetimeMs: Option<real>,
                         completions: seq<ScheduledAction>, removals: seq<ScheduledAction>) {
    && |completions| <= 1
    && (forall job :: job in completions <==> Completes(pack, source, clipId, targetId, state, job))
    && RemovesLater(source, objectId, lifetimeMs, removals)
  }

  /** What playing an animation pushes, whether or not its target is there. */
  lemma PlayPushes(host: Host, pack: AssetPack, stage: Stage, source: ScheduledAction)
    returns (completions: seq<ScheduledAction>, removals: seq<ScheduledAction>)
    requires ClipsAdvance(pack) && source.action.PlayAnimation?
    ensures FollowUps(host, pack, stage, source) == completions + removals
    ensures var action := source.action;
            Pushes(pack, source, Some(action.animationId), Some(action.targetId), action.onCompleteState,
                   action.targetId, action.lifetimeMs, completions, removals)
  {
    hide CompletionOf, Completes;
    var action := source.action;
    completions := CompletionOf(pack, source, Some(action.animationId), Some(action.targetId), action.onCompleteState);
    removals := RemovalOf(source, action.targetId, action.lifetimeMs);
    CompletionMeans(pack, source, Some(action.animationId), Some(action.targetId), action.onCompleteState);
  }

  /** Actions that neither play an animation nor spawn push nothing. */
  lemma OthersPush(host: Host, pack: AssetPack, stage: Stage, source: ScheduledAction)
    requires ClipsAdvance(pack) && !source.action.PlayAnimation? && !IsSpawn(source.action)
    ensures FollowUps(host, pack, stage, source) == []
  {
  }

  // ------------------------------------------------------------------------- spawning

  /** The object a spawn refers to: the drawn source, or the target as it is on the stage, or
      none if no target is named. */
  ghost predicate TargetIs(host: Host, stage: Stage, source: ScheduledAction, target: Option<SceneObject>)
    requires IsSpawn(source.action)
  {
    match source.action
    case SpawnFromObject(_, _, id, _, _, _, _, _) =>
      var drawn := SampleObjects(host, stage.objects, stage.visualTracks, source.runAt);
      exists k: nat :: FirstAnswering(drawn, id, k) && target == Some(drawn[k])
    case SpawnAttachedEffect(_, id, _, _, _, _, _, _, _) =>
      exists k: nat :: FirstAnswering(stage.objects, id, k) && target == Some(stage.objects[k])
    case _ =>
      if source.action.nearId.Some? && source.action.nearId.value != ""
      then exists k: nat ::
          FirstAnswering(stage.objects, source.action.nearId.value, k) && target == Some(stage.objects[k])
      else target.None?
  }

  function GeneratedId(host: Host, preset: ObjectPreset, source: ScheduledAction, tag: Option<string>): string {
    host.sanitizeId((if tag.Some? then tag.value else preset.id) + "_" + source.event.eventId + "_"
                    + host.numberText(source.actionIndex))
  }

  /** Where and as what an object enters the stage. */
  ghost predicate Enters(host: Host, preset: ObjectPreset, source: ScheduledAction, target: Option<SceneObject>,
                         o: SceneObject)
    requires IsSpawn(source.action)
  {
    var action := source.action;
    var named := action.SpawnObject? || action.SpawnFromObject?;
    var nearX := if target.Some? then target.value.x else 50.0;
    var nearY := if target.Some? then target.value.y else 50.0;
    && o.id == (if named then action.objectId
                else if action.effectId.Some? then action.effectId.value
                else GeneratedId(host, preset, source, action.tag))
    && o.x == (if action.SpawnObject? && action.atX.Some? then action.atX.value else nearX + action.offset.x)
    && o.y == (if action.SpawnObject? && action.atY.Some? then action.atY.value else nearY + action.offset.y)
    && o.state == (if action.look.Some? then action.look.value
                   else if preset.defaultVisualState.Some? then preset.defaultVisualState.value
                   else "active")
    && (if !named && action.clipId.Some? then o.currentAnimationId == action.clipId
        else ClipIn(preset.animationsByState, o.state, preset.defaultAnimationId, o.currentAnimationId))
    && o == SceneObject(
         o.id, None, preset.name, preset.kind, o.state, Some(o.state), o.x, o.y, preset.defaultWidth,
         Some(preset.defaultHeight), "#6b79b8", "Spawned from " + preset.id + ".", false, None, None,
         Some(if "overlay" in preset.metadata && preset.metadata["overlay"] == Flag(true) then 20.0 else 10.0),
         None, o.currentAnimationId, preset.animationsByState, Some(source.runAt),
         (preset.metadata + action.metadata)["spawnedAt" := Num(source.runAt)], true, Some(source.event.eventId),
             action.tag)
  }

  lemma BuiltEnters(host: Host, preset: ObjectPreset, source: ScheduledAction, target: Option<SceneObject>)
    requires IsSpawn(source.action)
    ensures Enters(host, preset, source, target,
            BuildSpawnedObject(preset, SpecOf(host, preset, source), source, target))
  {
    var spec := SpecOf(host, preset, source);
    SpecMeans(host, preset, source);
    BuiltFrom(preset, spec, source, target);
    hide BuildSpawnedObject, SpecOf, ClipIn, GeneratedId;
    assert spec.metadata == source.action.metadata && spec.tag == source.action.tag;
  }

  /** What the spawning actions ask for. */
  lemma SpecMeans(host: Host, preset: ObjectPreset, source: ScheduledAction)
    requires IsSpawn(source.action)
    ensures var action, spec := source.action, SpecOf(host, preset, source);
            && spec.id == (if action.SpawnObject? || action.SpawnFromObject? then action.objectId
                           else if action.effectId.Some? then action.effectId.value
                           else GeneratedId(host, preset, source, action.tag))
            && spec.tag == action.tag && spec.look == action.look && spec.offset == action.offset
            && spec.metadata == action.metadata
            && spec.clipId == (if action.SpawnObject? || action.SpawnFromObject? then None else action.clipId)
            && spec.atX == (if action.SpawnObject? then action.atX else None)
            && spec.atY == (if action.SpawnObject? then action.atY else None)
  {
  }

  /** What is built of them. */
  lemma BuiltFrom(preset: ObjectPreset, spec: SpawnSpec, source: ScheduledAction, target: Option<SceneObject>)
    ensures var o := BuildSpawnedObject(preset, spec, source, target);
            && o.id == spec.id
            && o.x == (if spec.atX.Some? then spec.atX.value
                       else (if target.Some? then target.value.x else 50.0) + spec.offset.x)
            && o.y == (if spec.atY.Some? then spec.atY.value
                       else (if target.Some? then target.value.y else 50.0) + spec.offset.y)
            && o.state == (if spec.look.Some? then spec.look.value
                           else if preset.defaultVisualState.Some? then preset.defaultVisualState.value
                           else "active")
            && (if spec.clipId.Some? then o.currentAnimationId == spec.clipId
                else ClipIn(preset.animationsByState, o.state, preset.defaultAnimationId, o.currentAnimationId))
            && o == SceneObject(
                 o.id, None, preset.name, preset.kind, o.state, Some(o.state), o.x, o.y, preset.defaultWidth,
                 Some(preset.defaultHeight), "#6b79b8", "Spawned from " + preset.id + ".", false, None, None,
                 Some(if "overlay" in preset.metadata && preset.metadata["overlay"] == Flag(true) then 20.0 else 10.0),
                 None, o.currentAnimationId, preset.animationsByState, Some(source.runAt),
                 (preset.metadata + spec.metadata)["spawnedAt" := Num(source.runAt)], true, Some(source.event.eventId),
                 spec.tag)
  {
    hide AnimationForState;
    var o := BuildSpawnedObject(preset, spec, source, target);
    AnimationForStateIsFirst(preset.animationsByState, o.state);
    assert (preset.metadata + spec.metadata)["spawnedAt" := Num(source.runAt)]
        == preset.metadata + spec.metadata + map["spawnedAt" := Num(source.runAt)];
  }

  lemma TargetFound(host: Host, pack: AssetPack, stage: Stage, source: ScheduledAction, k: nat,
                    target: Option<SceneObject>)
    requires IsSpawn(source.action) && FirstPreset(pack, source.action.presetId, k)
    requires TargetIs(host, stage, source, target)
    ensures SpawnedBy(host, pack, stage, source)
         == Some(BuildSpawnedObject(pack.objectPresets[k], SpecOf(host, pack.objectPresets[k], source), source, target))
  {
    FindPresetIsFirst(pack.objectPresets, source.action.presetId, k);
    SamplingIgnoresDroppedTracks(host, stage.objects, stage.visualTracks, source.runAt);
    hide BuildSpawnedObject, SpecOf, SampleObjects, FindObject, FindPreset, FirstAnswering, RetainedTracks;
    var action := source.action;
    if action.SpawnFromObject? {
      FindIsFirst(SampleObjects(host, stage.objects, stage.visualTracks, source.runAt), action.sourceObjectId);
    } else if action.SpawnAttachedEffect? {
      FindIsFirst(stage.objects, action.targetId);
    } else if action.nearId.Some? {
      FindIsFirst(stage.objects, action.nearId.value);
    }
  }

  /** A spawn that is not attached names a clip that the pack does not hold. */
  ghost predicate MissesClip(pack: AssetPack, action: VisualAction, clipId: Option<string>) {
    && !action.SpawnAttachedEffect? && clipId.Some? && clipId.value != ""
    && forall clip | clip in pack.animations :: clip.id != clipId.value
  }

  /** The stage that has been told of a spawned object's missing clip. */
  ghost predicate SpawnClipChecked(host: Host, pack: AssetPack, before: Stage, after: Stage, source: ScheduledAction,
                                   clipId: Option<string>) {
    if MissesClip(pack, source.action, clipId)
    then Warned(host, before, after, source, "Animation " + clipId.value + " was not found.")
    else after == before
  }

  function TrackName(host: Host, source: ScheduledAction, suffix: string): string {
    host.sanitizeId(source.event.eventId + "_" + source.ruleId
                    + "_" + host.numberText(source.actionIndex) + "_" + suffix)
  }

  /** The attachment of a spawned effect to its target. */
  function EffectTrack(host: Host, source: ScheduledAction, effectId: string, targetId: string): VisualTrack
    requires source.action.SpawnAttachedEffect?
  {
    var action := source.action;
    VisualTrack(TrackName(host, source, "attached_effect"), AttachTrack, effectId, source.runAt,
                if action.lifetimeMs.Some? then action.lifetimeMs.value else 60000.0, Linear, map[], map[], [],
                Some(targetId), action.offset, None, None, action.lifetimeMs.None?, None, action.metadata)
  }

  function WithTrack(tracks: seq<VisualTrack>, track: VisualTrack): seq<VisualTrack> {
    Keep(tracks, (existing: VisualTrack) => existing.id != track.id) + [track]
  }

  function WithItem(objects: seq<SceneObject>, item: SceneObject): seq<SceneObject> {
    Keep(objects, (existing: SceneObject) => existing.id != item.id) + [item]
  }

  /** A spawn whose preset and target are there: the object enters behind the others, in place
      of one with its id, and an attached effect gets its track. */
  lemma SpawnMeans(host: Host, pack: AssetPack, stage: Stage, source: ScheduledAction, k: nat,
                   target: Option<SceneObject>)
    returns (o: SceneObject, checked: Stage)
    requires IsSpawn(source.action) && FirstPreset(pack, source.action.presetId, k)
    requires TargetIs(host, stage, source, target)
    ensures Enters(host, pack.objectPresets[k], source, target, o)
    ensures SpawnClipChecked(host, pack, stage, checked, source, o.currentAnimationId)
    ensures var next := ApplyAction(host, pack, stage, source);
            && next.objects == WithItem(stage.objects, o)
            && next.warnings == checked.warnings
            && if source.action.SpawnAttachedEffect?
               then target.Some?
                   && next.visualTracks
                       == WithTrack(stage.visualTracks, EffectTrack(host, source, o.id, target.value.id))
               else next.visualTracks == stage.visualTracks
  {
    hide ApplyAction, BuildSpawnedObject, SpecOf, SpawnedBy, Enters, Warn, Warned, Keep, FindObject, FirstAnswering;
    TargetFound(host, pack, stage, source, k, target);
    var preset := pack.objectPresets[k];
    o := BuildSpawnedObject(preset, SpecOf(host, preset, source), source, target);
    BuiltEnters(host, preset, source, target);
    Branches(host, pack, stage, source);
    if source.action.SpawnAttachedEffect? {
      FindIsFirst(stage.objects, source.action.targetId);
      checked := stage;
    } else {
      checked := ClipWarning(host, pack, stage, o.currentAnimationId, source);
      var message := "Animation " + o.currentAnimationId.GetOr("") + " was not found.";
      WarnMeans(host, stage, source, message);
      WarnedKeepsObjects(host, stage, Warn(host, stage, source, message), source, message);
    }
  }

  /** What a spawn pushes: the removal at the end of its lifetime and, for an effect with a
      completion target, the completion of its clip. */
  lemma SpawnPushesMeans(host: Host, pack: AssetPack, stage: Stage, source: ScheduledAction, k: nat,
                         target: Option<SceneObject>)
    returns (o: SceneObject, completions: seq<ScheduledAction>, removals: seq<ScheduledAction>)
    requires ClipsAdvance(pack) && IsSpawn(source.action) && FirstPreset(pack, source.action.presetId, k)
    requires TargetIs(host, stage, source, target)
    ensures Enters(host, pack.objectPresets[k], source, target, o)
    ensures FollowUps(host, pack, stage, source) == completions + removals
    ensures var action := source.action;
            if action.SpawnEffect? then
              var follower := if action.onCompleteTargetId.None? then None
                              else if action.onCompleteTargetId.value.Some? then action.onCompleteTargetId.value
                              else action.nearId;
              Pushes(pack, source, o.currentAnimationId, follower, action.onCompleteState, o.id, action.lifetimeMs,
                     completions, removals)
            else if action.SpawnObject? then completions == [] && removals == []
            else completions == [] && RemovesLater(source, o.id, action.lifetimeMs, removals)
  {
    hide BuildSpawnedObject, SpecOf, SpawnedBy, Enters, Completes, CompletionOf;
    TargetFound(host, pack, stage, source, k, target);
    var preset, action := pack.objectPresets[k], source.action;
    o := BuildSpawnedObject(preset, SpecOf(host, preset, source), source, target);
    BuiltEnters(host, preset, source, target);
    completions := [];
    removals := RemovalOf(source, o.id, LifetimeOf(action));
    if action.SpawnEffect? {
      var follower :=
        if action.onCompleteTargetId.None? then None else action.onCompleteTargetId.value.OrElse(action.nearId);
      completions := CompletionOf(pack, source, o.currentAnimationId, follower, action.onCompleteState);
      CompletionMeans(pack, source, o.currentAnimationId, follower, action.onCompleteState);
    }
  }

  /** A spawn without its preset or its target only says so, and pushes nothing. */
  lemma SpawnFails(host: Host, pack: AssetPack, stage: Stage, source: ScheduledAction)
    requires ClipsAdvance(pack) && IsSpawn(source.action)
    ensures var action, next := source.action, ApplyAction(host, pack, stage, source);
            && ((forall preset | preset in pack.objectPresets :: preset.id != action.presetId) ==>
                  && Warned(host, stage, next, source, "Preset " + action.presetId + " was not found.")
                  && FollowUps(host, pack, stage, source) == [])
            && ((exists k: nat :: FirstPreset(pack, action.presetId, k))
                && (forall target :: !TargetIs(host, stage, source, target)) ==>
                  && Warned(host, stage, next, source,
                       match action
                       case SpawnFromObject(_, _, id, _, _, _, _, _) => "Spawn source " + id + " was not found."
                       case SpawnAttachedEffect(_, id, _, _, _, _, _, _, _) =>
                         "Attachment target " + id + " was not found."
                       case _ => "Spawn target " + action.nearId.GetOr("") + " was not found.")
                  && FollowUps(host, pack, stage, source) == [])
  {
    hide ApplyAction, Warn, Warned, FirstAnswering;
    Branches(host, pack, stage, source);
    WarnMeans(host, stage, source, SpawnFailure(pack, source));
    if k: nat :| FirstPreset(pack, source.action.presetId, k) {
      FindPresetIsFirst(pack.objectPresets, source.action.presetId, k);
      if forall target :: !TargetIs(host, stage, source, target) {
        NoTargetNoSpawn(host, pack, stage, source);
      }
    }
    hide SpawnedBy, FindPreset;
  }

  lemma NoTargetNoSpawn(host: Host, pack: AssetPack, stage: Stage, source: ScheduledAction)
    requires IsSpawn(source.action) && forall target :: !TargetIs(host, stage, source, target)
    ensures SpawnedBy(host, pack, stage, source).None?
  {
    SamplingIgnoresDroppedTracks(host, stage.objects, stage.visualTracks, source.runAt);
    hide BuildSpawnedObject, SpecOf, SampleObjects, FindObject, FindPreset, FirstAnswering, RetainedTracks;
    var action := source.action;
    if action.SpawnFromObject? {
      var drawn := SampleObjects(host, stage.objects, stage.visualTracks, source.runAt);
      FindIsFirst(drawn, action.sourceObjectId);
      if k: nat :| FirstAnswering(drawn, action.sourceObjectId, k) {
        DrawnIsTarget(host, stage, source, k);
      }
    } else {
      var id := if action.SpawnAttachedEffect? then action.targetId else action.nearId.GetOr("");
      FindIsFirst(stage.objects, id);
      if k: nat :| FirstAnswering(stage.objects, id, k) {
        assert TargetIs(host, stage, source, Some(FindObject(stage.objects, id).value))
            || (!action.SpawnAttachedEffect? && !Truthy(action.nearId));
      }
      NoneIsTarget(host, stage, source);
    }
  }

  lemma NoneIsTarget(host: Host, stage: Stage, source: ScheduledAction)
    requires IsSpawn(source.action)
    ensures (source.action.SpawnEffect? || source.action.SpawnObject?) && !Truthy(source.action.nearId) ==>
              TargetIs(host, stage, source, None)
  {
  }

  lemma DrawnIsTarget(host: Host, stage: Stage, source: ScheduledAction, k: nat)
    requires source.action.SpawnFromObject?
    requires FirstAnswering(SampleObjects(host, stage.objects, stage.visualTracks, source.runAt),
             source.action.sourceObjectId, k)
    ensures TargetIs(host, stage, source, Some(SampleObjects(host, stage.objects, stage.visualTracks, source.runAt)[k]))
  {
  }

  // --------------------------------------------------------------------------- tracks

  /** The track a track action adds: its owner and target are on the stage, and all its fields. */
  ghost predicate TrackFor(host: Host, stage: Stage, source: ScheduledAction, track: VisualTrack) {
    var objects, at := stage.objects, source.runAt;
    match source.action
    case MoveTo(targetId, to, from, durationMs, easing, metadata) =>
      exists k: nat :: FirstAnswering(objects, targetId, k) &&
        var start := if from.Some? then from.value else Point(objects[k].x, objects[k].y);
        track == VisualTrack(TrackName(host, source, "move_to"), MoveToTrack, objects[k].id, at, durationMs, easing,
                             map["x" := start.x, "y" := start.y], map["x" := to.x, "y" := to.y], [],
                             None, Point(0.0, 0.0), None, None, false, None, metadata)
    case MoveToObject(targetId, targetObjectId, durationMs, easing, offset, metadata) =>
      var drawn := SampleObjects(host, objects, stage.visualTracks, at);
      exists k: nat, m: nat :: FirstAnswering(drawn, targetId, k) && FirstAnswering(drawn, targetObjectId, m) &&
        track == VisualTrack(TrackName(host, source, "move_to_object"), MoveToTrack, drawn[k].id, at, durationMs,
            easing,
                             map["x" := drawn[k].x, "y" := drawn[k].y],
                             map["x" := drawn[m].x + offset.x, "y" := drawn[m].y + offset.y], [],
                             None, Point(0.0, 0.0), None, None, false, None, metadata)
    case MoveAlongPath(targetId, path, durationMs, easing, metadata) =>
      && |path| >= 2
      && exists k: nat ::
           && FirstAnswering(objects, targetId, k)
           && track == VisualTrack(TrackName(host, source, "move_path"), PathTrack, objects[k].id, at, durationMs,
               easing,
                                   map[], map[], path, None, Point(0.0, 0.0), None, None, false, None, metadata)
    case OrbitAround(targetId, targetObjectId, radius, durationMs, speed, offset, metadata) =>
      exists k: nat, m: nat :: FirstAnswering(objects, targetId, k) && FirstAnswering(objects, targetObjectId, m) &&
        track == VisualTrack(TrackName(host, source, "orbit"), OrbitTrack, objects[k].id, at, durationMs, Linear,
                             map[], map[], [], Some(objects[m].id), offset, Some(radius), speed, false, None, metadata)
    case AttachToObject(targetId, targetObjectId, offset, showMs, metadata) =>
      exists k: nat, m: nat :: FirstAnswering(objects, targetId, k) && FirstAnswering(objects, targetObjectId, m) &&
        track == VisualTrack(TrackName(host, source, "attach"), AttachTrack, objects[k].id, at,
                             if showMs.Some? then showMs.value else 60000.0, Linear, map[], map[], [],
                             Some(objects[m].id), offset, None, None, showMs.None?, None, metadata)
    case ShowRouteTrail(targetId, path, showMs, metadata) =>
      && |path| >= 2
      && exists k: nat ::
           && FirstAnswering(objects, targetId, k)
           && track == VisualTrack(TrackName(host, source, "route_trail"), RouteTrailTrack, objects[k].id, at,
                                   if showMs.Some? then showMs.value else 60000.0, Linear, map[], map[], path,
                                   None, Point(0.0, 0.0), None, None, showMs.None?, None, metadata)
    case _ => false
  }

  lemma TrackOfMeans(host: Host, stage: Stage, source: ScheduledAction, track: VisualTrack)
    requires IsTrackAction(source.action)
    ensures TrackFor(host, stage, source, track) <==> TrackOf(host, stage, source) == Some(track)
  {
    hide SampleObjects, FindObject, FirstAnswering, RetainedTracks;
    var action := source.action;
    if action.MoveToObject? {
      MoveToObjectTrackMeans(host, stage, source, track);
    } else {
      FindIsFirst(stage.objects, action.targetId);
      if action.OrbitAround? || action.AttachToObject? {
        FindIsFirst(stage.objects, action.targetObjectId);
      }
    }
  }

  lemma MoveToObjectTrackMeans(host: Host, stage: Stage, source: ScheduledAction, track: VisualTrack)
    requires source.action.MoveToObject?
    ensures TrackFor(host, stage, source, track) <==> TrackOf(host, stage, source) == Some(track)
  {
    SamplingIgnoresDroppedTracks(host, stage.objects, stage.visualTracks, source.runAt);
    hide SampleObjects, FindObject, FirstAnswering, RetainedTracks;
    var drawn := SampleObjects(host, stage.objects, stage.visualTracks, source.runAt);
    FindIsFirst(drawn, source.action.targetId);
    FindIsFirst(drawn, source.action.targetObjectId);
  }

  /** The warning about a missing object, if it is missing. */
  ghost predicate Asked(host: Host, before: Stage, after: Stage, source: ScheduledAction, id: string, message: string) {
    if NoneAnswers(before.objects, id) then Warned(host, before, after, source, message) else after == before
  }

  /** The warnings of a track action, in order. */
  ghost predicate Complains(host: Host, stage: Stage, source: ScheduledAction, asked: Stage, after: Stage)
    requires IsTrackAction(source.action)
  {
    var action := source.action;
    var owner := "Track target " + action.targetId + " was not found.";
    match action
    case MoveTo(_, _, _, _, _, _) => Asked(host, stage, asked, source, action.targetId, owner) && after == asked
    case MoveAlongPath(_, path, _, _, _) =>
      && Asked(host, stage, asked, source, action.targetId, owner)
      && (if |path| < 2 then Warned(host, asked, after, source, "Move path must contain at least two points.")
          else after == asked)
    case ShowRouteTrail(_, path, _, _) =>
      && asked == stage
      && (if |path| < 2 then Warned(host, stage, after, source, "Route trail must contain at least two points.")
          else Asked(host, stage, after, source, action.targetId, owner))
    case _ =>
      && Asked(host, stage, asked, source, action.targetId, owner)
      && Asked(host, asked, after, source, action.targetObjectId,
               "Attachment target " + action.targetObjectId + " was not found.")
  }

  lemma TargetAsked(host: Host, stage: Stage, source: ScheduledAction, id: string)
    ensures Asked(host, stage, TrackTargetWarning(host, stage, id, source), source, id,
                  "Track target " + id + " was not found.")
    ensures Asked(host, stage, AttachmentTargetWarning(host, stage, id, source), source, id,
                  "Attachment target " + id + " was not found.")
  {
    hide Warned, Warn, FindObject, NoneAnswers;
    FindIsFirst(stage.objects, id);
    WarnMeans(host, stage, source, "Track target " + id + " was not found.");
    WarnMeans(host, stage, source, "Attachment target " + id + " was not found.");
  }

  lemma TwoTargetsMean(host: Host, stage: Stage, source: ScheduledAction)
    requires source.action.MoveToObject? || source.action.OrbitAround? || source.action.AttachToObject?
    ensures Complains(host, stage, source, TrackTargetWarning(host, stage, source.action.targetId, source),
                      TrackWarnings(host, stage, source))
  {
    hide Warned, Warn, Asked, TrackTargetWarning, AttachmentTargetWarning;
    TargetAsked(host, stage, source, source.action.targetId);
    TargetAsked(host, TrackTargetWarning(host, stage, source.action.targetId, source), source,
        source.action.targetObjectId);
  }

  lemma PathsMean(host: Host, stage: Stage, source: ScheduledAction)
    requires source.action.MoveTo? || source.action.MoveAlongPath?
    ensures Complains(host, stage, source, TrackTargetWarning(host, stage, source.action.targetId, source),
                      TrackWarnings(host, stage, source))
  {
    hide Warned, Warn, Asked, TrackTargetWarning, AttachmentTargetWarning;
    TargetAsked(host, stage, source, source.action.targetId);
    WarnMeans(host, TrackTargetWarning(host, stage, source.action.targetId, source), source,
              "Move path must contain at least two points.");
  }

  lemma TrailMeans(host: Host, stage: Stage, source: ScheduledAction)
    requires source.action.ShowRouteTrail?
    ensures Complains(host, stage, source, stage, TrackWarnings(host, stage, source))
  {
    hide Warned, Warn, Asked, TrackTargetWarning, AttachmentTargetWarning;
    TargetAsked(host, stage, source, source.action.targetId);
    WarnMeans(host, stage, source, "Route trail must contain at least two points.");
  }

  lemma TrackWarningsMean(host: Host, stage: Stage, source: ScheduledAction) returns (asked: Stage)
    requires IsTrackAction(source.action)
    ensures Complains(host, stage, source, asked, TrackWarnings(host, stage, source))
  {
    hide Complains, TrackWarnings;
    var action := source.action;
    if action.ShowRouteTrail? {
      asked := stage;
      TrailMeans(host, stage, source);
    } else {
      asked := TrackTargetWarning(host, stage, action.targetId, source);
      if action.MoveTo? || action.MoveAlongPath? {
        PathsMean(host, stage, source);
      } else {
        TwoTargetsMean(host, stage, source);
      }
    }
  }

  lemma ComplainsKeepsRest(host: Host, stage: Stage, source: ScheduledAction, asked: Stage, after: Stage)
    requires IsTrackAction(source.action) && Complains(host, stage, source, asked, after)
    ensures after.objects == stage.objects && after.visualTracks == stage.visualTracks
  {
    hide NoneAnswers, IdParts, Joined;
  }

  lemma SameStageSameTrack(host: Host, stage: Stage, other: Stage, source: ScheduledAction, track: VisualTrack)
    requires stage.objects == other.objects && stage.visualTracks == other.visualTracks
    ensures TrackFor(host, stage, source, track) <==> TrackFor(host, other, source, track)
  {
    hide FirstAnswering, SampleObjects;
  }

  /** A track action warns as it should, changes no object, and adds its one track behind the
      others, in place of one with its id, if its owner, its target and its path allow it. */
  lemma TrackMeans(host: Host, pack: AssetPack, stage: Stage, source: ScheduledAction)
    returns (asked: Stage, warned: Stage)
    requires IsTrackAction(source.action)
    ensures Complains(host, stage, source, asked, warned)
    ensures var next := ApplyAction(host, pack, stage, source);
            && next.objects == stage.objects && next.warnings == warned.warnings
            && (forall track | TrackFor(host, stage, source, track) ::
                  next.visualTracks == WithTrack(stage.visualTracks, track))
            && ((forall track :: !TrackFor(host, stage, source, track)) ==> next.visualTracks == stage.visualTracks)
  {
    hide ApplyAction, TrackFor, TrackOf, TrackWarnings, Complains, Keep;
    Branches(host, pack, stage, source);
    asked := TrackWarningsMean(host, stage, source);
    warned := TrackWarnings(host, stage, source);
    ComplainsKeepsRest(host, stage, source, asked, warned);
    forall track ensures TrackFor(host, stage, source, track) <==> TrackOf(host, warned, source) == Some(track) {
      TrackOfMeans(host, warned, source, track);
      SameStageSameTrack(host, stage, warned, source, track);
    }
    var added := TrackOf(host, warned, source);
    assert added.Some? ==> TrackFor(host, stage, source, added.value);
  }

  /** The id of the object that answers first, or the name itself if none does. */
  ghost predicate OwnerIs(objects: seq<SceneObject>, name: string, owner: string) {
    || (exists k: nat :: FirstAnswering(objects, name, k) && owner == objects[k].id)
    || (NoneAnswers(objects, name) && owner == name)
  }

  /** Detaching and hiding a trail take off all tracks of their kind of the one object that
      answers first, and nothing else. */
  lemma TakeOffMeans(host: Host, pack: AssetPack, stage: Stage, source: ScheduledAction, owner: string)
    requires source.action.DetachFromObject? || source.action.HideRouteTrail?
    requires OwnerIs(stage.objects, source.action.targetId, owner)
    ensures var kind := if source.action.DetachFromObject? then AttachTrack else RouteTrailTrack;
            ApplyAction(host, pack, stage, source)
            == stage.(visualTracks := Keep(stage.visualTracks,
                                           (track: VisualTrack) => !(track.objectId == owner && track.kind == kind)))
  {
    hide ApplyAction, FindObject, FirstAnswering, NoneAnswers;
    Branches(host, pack, stage, source);
    FindIsFirst(stage.objects, source.action.targetId);
    var kind := if source.action.DetachFromObject? then AttachTrack else RouteTrailTrack;
    KeepAlike(stage.visualTracks, (track: VisualTrack) => track.objectId != owner || track.kind != kind,
              (track: VisualTrack) => !(track.objectId == owner && track.kind == kind));
  }

  // ------------------------------------------------------------------------- removing

  /** What a removal chooses: by id or entity id, by tag, or by a metadata value. */
  predicate Chosen(item: SceneObject, victimId: Option<string>, tag: Option<string>,
                   selector: Option<MetadataSelector>) {
    || (victimId.Some? && victimId.value != "" && (item.id == victimId.value || item.entityId == victimId))
    || (tag.Some? && tag.value != "" && item.tag == tag)
    || (selector.Some? &&
        RuleDispatch.Is(if selector.value.key in item.metadata then item.metadata[selector.value.key] else Undefined,
                        selector.value.value))
  }

  predicate IsAmong(objects: seq<SceneObject>, id: string) { exists k | 0 <= k < |objects| :: objects[k].id == id }

  /** A removal takes out exactly what it chooses, and the tracks whose object is gone; it warns
      exactly when it has nothing to choose by or chooses nothing. */
  lemma RemoveMeans(host: Host, pack: AssetPack, stage: Stage, source: ScheduledAction)
    requires source.action.RemoveObject?
    ensures var action, next := source.action, ApplyAction(host, pack, stage, source);
            var rest := Keep(stage.objects,
                (item: SceneObject) => !Chosen(item, action.victimId, action.tag, action.selector));
            if action.victimId.GetOr("") == "" && action.tag.GetOr("") == "" && action.selector.None? then
              Warned(host, stage, next, source, "Remove action did not include a selector.")
            else if forall item | item in stage.objects ::
                !Chosen(item, action.victimId, action.tag, action.selector) then
              Warned(host, stage, next, source, "Remove action did not match any objects.")
            else
              && next.objects == rest && next.warnings == stage.warnings
              && next.visualTracks == Keep(stage.visualTracks, (track: VisualTrack) => IsAmong(rest, track.objectId))
  {
    hide ApplyAction, Warn, Warned;
    Branches(host, pack, stage, source);
    var action := source.action;
    var spared := (item: SceneObject) => !Selected(item, action.victimId, action.tag, action.selector);
    var rest := (item: SceneObject) => !Chosen(item, action.victimId, action.tag, action.selector);
    KeepAlike(stage.objects, spared, rest);
    WarnMeans(host, stage, source, "Remove action did not include a selector.");
    WarnMeans(host, stage, source, "Remove action did not match any objects.");
    if forall item | item in stage.objects :: rest(item) {
      KeepAll(stage.objects, rest);
    } else {
      if |Keep(stage.objects, rest)| == |stage.objects| {
        KeepSameLength(stage.objects, rest);
      }
    }
    KeepAlike(stage.visualTracks, (track: VisualTrack) => HasId(Keep(stage.objects, spared), track.objectId),
              (track: VisualTrack) => IsAmong(Keep(stage.objects, rest), track.objectId));
    hide Keep, Chosen, Selected;
  }

  // -------------------------------------------------------------------- the beginning

  /** A replay begins with the scene's objects, each in its visual state if it has one. */
  lemma BeginningMeans(objects: seq<SceneObject>)
    ensures var stage := InitialStage(objects);
            && stage.visualTracks == [] && stage.warnings == [] && |stage.objects| == |objects|
            && forall i | 0 <= i < |objects| ::
                 var shown := if objects[i].visualState.Some? then objects[i].visualState.value else objects[i].state;
                 stage.objects[i] == objects[i].(state := shown, visualState := Some(shown))
  {
  }

  // ----------------------------------------------------------------------- despawning

  /** Despawning asks for the object and for its target as a track action does. If both are
      there, the object is put where the target is drawn plus the offset and then removed by
      its id; without an id it stays there, with a warning. */
  lemma DespawnMeans(host: Host, pack: AssetPack, stage: Stage, source: ScheduledAction)
    returns (asked: Stage, warned: Stage)
    requires source.action.DespawnAtObject?
    ensures var action := source.action;
            && Asked(host, stage, asked, source, action.targetId, "Track target " + action.targetId + " was not found.")
            && Asked(host, asked, warned, source, action.targetObjectId,
                     "Attachment target " + action.targetObjectId + " was not found.")
    ensures var next, action := ApplyAction(host, pack, stage, source), source.action;
            var drawn := SampleObjects(host, stage.objects, stage.visualTracks, source.runAt);
            && (NoneAnswers(stage.objects, action.targetId) || NoneAnswers(drawn, action.targetObjectId) ==>
                next == warned)
            && (forall k: nat, m: nat |
                  FirstAnswering(stage.objects, action.targetId, k)
                      && FirstAnswering(drawn, action.targetObjectId, m) ::
                  next == RemoveObjects(host,
                            stage.(objects := WithItem(stage.objects,
                                     stage.objects[k].(x := drawn[m].x + action.offset.x,
                                         y := drawn[m].y + action.offset.y))),
                            Some(stage.objects[k].id), None, None, source))
  {
    hide ApplyAction, RemoveObjects, TrackTargetWarning, AttachmentTargetWarning, Asked, FindObject, SampleObjects,
        Keep;
    hide FirstAnswering, NoneAnswers, RetainedTracks;
    Branches(host, pack, stage, source);
    var action := source.action;
    asked := TrackTargetWarning(host, stage, action.targetId, source);
    warned := AttachmentTargetWarning(host, asked, action.targetObjectId, source);
    TargetAsked(host, stage, source, action.targetId);
    TargetAsked(host, asked, source, action.targetObjectId);
    AskedKeepsRest(host, stage, asked, source, action.targetId, "Track target " + action.targetId + " was not found.");
    AskedKeepsRest(host, asked, warned, source, action.targetObjectId,
                   "Attachment target " + action.targetObjectId + " was not found.");
    SamplingIgnoresDroppedTracks(host, stage.objects, stage.visualTracks, source.runAt);
    var drawn := SampleObjects(host, stage.objects, stage.visualTracks, source.runAt);
    FindIsFirst(stage.objects, action.targetId);
    FindIsFirst(drawn, action.targetObjectId);
    if FindObject(stage.objects, action.targetId).Some? && FindObject(drawn, action.targetObjectId).Some? {
      FoundIsNotAsked(host, stage, source, drawn);
    }
  }

  lemma AskedKeepsRest(host: Host, before: Stage, after: Stage, source: ScheduledAction, id: string, message: string)
    requires Asked(host, before, after, source, id, message)
    ensures after.objects == before.objects && after.visualTracks == before.visualTracks
  {
    hide NoneAnswers, IdParts, Joined;
  }

  lemma FoundIsNotAsked(host: Host, stage: Stage, source: ScheduledAction, drawn: seq<SceneObject>)
    requires source.action.DespawnAtObject?
    requires drawn == SampleObjects(host, stage.objects, stage.visualTracks, source.runAt)
    requires FindObject(stage.objects, source.action.targetId).Some?
             && FindObject(drawn, source.action.targetObjectId).Some?
    ensures DespawnWarnings(host, stage, source) == stage
  {
    SamplingKeepsItems(host, stage.objects, stage.visualTracks, source.runAt);
    FindInSame(stage.objects, drawn, source.action.targetObjectId);
    hide SampleObjects, FindObject, Warn;
  }

  // ----------------------------------------------------------------------- the result

  /** The returned state: the drawn objects from bottom to top, the spawned ones and the shown
      effects among them in drawn order, the tracks that go on, and what was dispatched and
      warned about. */
  lemma ResultMeans(host: Host, stage: Stage, dispatched: seq<DispatchedEvent>, t: real)
    ensures var result := Snapshot(host, stage, dispatched, t);
            var drawn := SampleObjects(host, stage.objects, stage.visualTracks, t);
            && IsStableSortOf(result.objects, drawn,
                 (a: SceneObject, b: SceneObject) =>
                   (if a.zIndex.Some? then a.zIndex.value else 0.0) <= (if b.zIndex.Some? then b.zIndex.value else 0.0))
            && result.spawnedObjects == Keep(drawn, (item: SceneObject) => item.spawned)
            && result.activeEffects == Keep(drawn, (item: SceneObject) => item.kind == "effect" && item.hidden == false)
            && result.visualTracks ==
                 Keep(stage.visualTracks, (track: VisualTrack) =>
                   track.startTimeMs <= t
                   && (track.persistent || track.kind == MoveToTrack || track.kind == PathTrack
                       || track.kind == PropertyTrack || t <= track.startTimeMs + track.durationMs))
            && result.dispatchedEvents == dispatched && result.warnings == stage.warnings
  {
    var drawn := SampleObjects(host, stage.objects, stage.visualTracks, t);
    var above := (a: SceneObject, b: SceneObject) =>
      (if a.zIndex.Some? then a.zIndex.value else 0.0) <= (if b.zIndex.Some? then b.zIndex.value else 0.0);
    SameLayers(drawn, above);
    KeepAlike(drawn, (item: SceneObject) => item.kind == "effect" && !item.hidden,
              (item: SceneObject) => item.kind == "effect" && item.hidden == false);
    KeepAlike(stage.visualTracks, track => ShouldRetainTrack(track, t), (track: VisualTrack) =>
                track.startTimeMs <= t
                && (track.persistent || track.kind == MoveToTrack || track.kind == PathTrack
                    || track.kind == PropertyTrack || t <= track.startTimeMs + track.durationMs));
    hide SampleObjects, Keep, Sort, IsStableSortOf;
  }

  lemma SameLayers(drawn: seq<SceneObject>, above: (SceneObject, SceneObject) -> bool)
    requires forall a: SceneObject, b: SceneObject ::
               above(a, b) <==>
                   (if a.zIndex.Some? then a.zIndex.value else 0.0) <= (if b.zIndex.Some? then b.zIndex.value else 0.0)
    ensures IsStableSortOf(Sort(drawn, NotAbove), drawn, above)
  {
    SortIsStable(drawn, NotAbove);
    StableAlike(Sort(drawn, NotAbove), drawn, NotAbove, above);
  }
}
