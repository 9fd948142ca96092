/**
  What one scheduled action does to the stage and which further actions it schedules
  (`runtimeState.ts`, up to `applyScheduledAction`).
*/
module RuntimeState {
  import opened Wrappers
  import opened Contracts
  import opened StableSort
  import opened TrackRuntime
  import opened Sampling
  import opened Scheduler
  import AnimationRuntime

  // ----------------------------------------------------------------- warnings

  /** `[...].filter(Boolean).join(":")`, where an action index of zero is falsy. */
  function WarningId(host: Host, source: ScheduledAction, message: string): string {
    JoinNonEmpty(source.event.eventId,
      JoinNonEmpty(source.ruleId,
        if source.actionIndex == 0.0 then message else host.numberText(source.actionIndex) + ":" + message))
  }

  function JoinNonEmpty(head: string, rest: string): string {
    if head == "" then rest else head + ":" + rest
  }

  function AddWarning(stage: Stage, warning: RuntimeWarning): Stage {
    if exists existing | existing in stage.warnings :: existing.id == warning.id then stage
    else stage.(warnings := stage.warnings + [warning])
  }

  function Warn(host: Host, stage: Stage, source: ScheduledAction, message: string): Stage {
    AddWarning(stage,
      RuntimeWarning(WarningId(host, source, message), message, source.event.eventId, source.ruleId, source.action))
  }

  function TrackTargetWarning(host: Host, stage: Stage, id: string, source: ScheduledAction): Stage {
    if FindObject(stage.objects, id).Some? then stage
    else Warn(host, stage, source, "Track target " + id + " was not found.")
  }

  function AttachmentTargetWarning(host: Host, stage: Stage, id: string, source: ScheduledAction): Stage {
    if FindObject(stage.objects, id).Some? then stage
    else Warn(host, stage, source, "Attachment target " + id + " was not found.")
  }

  // ------------------------------------------------------------------ objects

  /** Rewrites the objects that answer to `id`, or warns that there is none. */
  function UpdateOrWarn(host: Host, stage: Stage, id: string, updater: SceneObject -> SceneObject,
                        source: ScheduledAction): Stage {
    if FindObject(stage.objects, id).Some? then stage.(objects := UpdateSampledObject(stage.objects, id, updater))
    else Warn(host, stage, source, "Binding target " + id + " was not found.")
  }

  function AnimationForState(animations: seq<StateAnimation>, state: string): Option<string> {
    if animations == [] then None
    else if animations[0].state == state then Some(animations[0].animationId)
    else AnimationForState(animations[1..], state)
  }

  function EnterState(item: SceneObject, state: string, timeMs: real): SceneObject {
    var next := AnimationForState(item.animationsByState, state).OrElse(item.currentAnimationId);
    item.(animationStartedAt := if next != item.currentAnimationId then Some(timeMs) else item.animationStartedAt,
          currentAnimationId := next, state := state, visualState := Some(state))
  }

  function WithProperty(item: SceneObject, property: Property, value: Value): SceneObject {
    match property
    case Metadata(key) => item.(metadata := item.metadata[key := value])
    case Numeric(name) => if value.Num? then WithNumber(item, name, value.num) else item
  }

  function MetadataValue(item: SceneObject, key: string): Value {
    if key in item.metadata then item.metadata[key] else Undefined
  }

  predicate Selected(item: SceneObject, victimId: Option<string>, tag: Option<string>,
                     selector: Option<MetadataSelector>) {
    || (Truthy(victimId) && Answers(item, victimId.value))
    || (Truthy(tag) && item.tag == tag)
    || (selector.Some? && SameValue(MetadataValue(item, selector.value.key), selector.value.value))
  }

  predicate HasId(objects: seq<SceneObject>, id: string) {
    exists i | 0 <= i < |objects| :: objects[i].id == id
  }

  function RemoveObjects(host: Host, stage: Stage, victimId: Option<string>, tag: Option<string>,
                         selector: Option<MetadataSelector>, source: ScheduledAction): Stage {
    if !Truthy(victimId) && !Truthy(tag) && selector.None? then
      Warn(host, stage, source, "Remove action did not include a selector.")
    else
      var objects := Keep(stage.objects, (item: SceneObject) => !Selected(item, victimId, tag, selector));
      if |objects| == |stage.objects| then
        Warn(host, stage.(objects := objects), source, "Remove action did not match any objects.")
      else
        stage.(objects := objects,
               visualTracks := Keep(stage.visualTracks, (track: VisualTrack) => HasId(objects, track.objectId)))
  }

  function InsertOrReplaceObject(stage: Stage, item: SceneObject): Stage {
    stage.(objects := Keep(stage.objects, (existing: SceneObject) => existing.id != item.id) + [item])
  }

  // ------------------------------------------------------------------- tracks

  function TrackId(host: Host, source: ScheduledAction, suffix: string): string {
    host.sanitizeId(
      source.event.eventId + "_" + source.ruleId + "_" + host.numberText(source.actionIndex) + "_" + suffix)
  }

  function NewTrack(id: string, kind: TrackKind, objectId: string, startTimeMs: real, durationMs: real,
                    metadata: map<string, Value>): VisualTrack {
    VisualTrack(id, kind, objectId, startTimeMs, durationMs, Linear, map[], map[], [], None, Point(0.0, 0.0),
                None, None, false, None, metadata)
  }

  function PointRecord(p: Point): map<string, real> { map["x" := p.x, "y" := p.y] }

  function AddVisualTrack(stage: Stage, track: VisualTrack): Stage {
    stage.(visualTracks := Keep(stage.visualTracks, (existing: VisualTrack) => existing.id != track.id) + [track])
  }

  function RemoveTracksForObject(stage: Stage, id: string, kind: TrackKind): Stage {
    var found := FindObject(stage.objects, id);
    var objectId := if found.Some? then found.value.id else id;
    stage.(visualTracks := Keep(stage.visualTracks, (track: VisualTrack) => track.objectId != objectId
        || track.kind != kind))
  }

  /** The object as it is drawn at a time: `findSampledObject`. */
  function FindSampledObject(host: Host, stage: Stage, id: string, timeMs: real): Option<SceneObject> {
    FindObject(SampleObjects(host, stage.objects, RetainedTracks(stage.visualTracks, timeMs), timeMs), id)
  }

  // ----------------------------------------------------------------- spawning

  function FindPreset(presets: seq<ObjectPreset>, id: string): (r: Option<ObjectPreset>)
    ensures r.Some? ==> r.value in presets && r.value.id == id
    ensures r.None? ==> forall p | p in presets :: p.id != id
  {
    if presets == [] then None
    else if presets[0].id == id then Some(presets[0])
    else FindPreset(presets[1..], id)
  }

  function FindClip(clips: seq<AnimationClip>, id: string): (r: Option<AnimationClip>)
    ensures r.Some? ==> r.value in clips && r.value.id == id
    ensures r.None? ==> forall c | c in clips :: c.id != id
  {
    if clips == [] then None
    else if clips[0].id == id then Some(clips[0])
    else FindClip(clips[1..], id)
  }

  /** The fields of the four spawning actions that `buildSpawnedObject` reads. */
  datatype SpawnSpec = SpawnSpec(
    id: string, tag: Option<string>, look: Option<string>, clipId: Option<string>,
    offset: Point, atX: Option<real>, atY: Option<real>, metadata: map<string, Value>)

  function EffectId(host: Host, explicit: Option<string>, tag: Option<string>, preset: ObjectPreset,
                    source: ScheduledAction): string {
    explicit.GetOr(
      host.sanitizeId(tag.GetOr(preset.id) + "_" + source.event.eventId + "_" + host.numberText(source.actionIndex)))
  }

  function BuildSpawnedObject(preset: ObjectPreset, spec: SpawnSpec, source: ScheduledAction,
                              target: Option<SceneObject>): SceneObject {
    var state := spec.look.OrElse(preset.defaultVisualState).GetOr("active");
    var clipId := spec.clipId.OrElse(AnimationForState(preset.animationsByState,
        state)).OrElse(preset.defaultAnimationId);
    var near := if target.Some? then Point(target.value.x, target.value.y) else Point(50.0, 50.0);
    SceneObject(
      spec.id, None, preset.name, preset.kind, state, Some(state),
      spec.atX.GetOr(near.x + spec.offset.x), spec.atY.GetOr(near.y + spec.offset.y),
      preset.defaultWidth, Some(preset.defaultHeight), "#6b79b8", "Spawned from " + preset.id + ".",
      false, None, None,
      Some(if "overlay" in preset.metadata && preset.metadata["overlay"] == Flag(true) then 20.0 else 10.0),
      None, clipId, preset.animationsByState, Some(source.runAt),
      preset.metadata + spec.metadata + map["spawnedAt" := Num(source.runAt)],
      true, Some(source.event.eventId), spec.tag)
  }

  /** Actions that rewrite the objects answering to one id. */
  predicate IsUpdate(action: VisualAction) {
    action.SetState? || action.ShowObject? || action.HideObject? || action.PlayAnimation? || action.SetProperty?
  }

  /** Actions that add a track. */
  predicate IsTrackAction(action: VisualAction) {
    || action.MoveTo? || action.MoveToObject? || action.MoveAlongPath? || action.OrbitAround?
    || action.AttachToObject? || action.ShowRouteTrail?
  }

  predicate IsSpawn(action: VisualAction) {
    action.SpawnEffect? || action.SpawnObject? || action.SpawnFromObject? || action.SpawnAttachedEffect?
  }

  function SpecOf(host: Host, preset: ObjectPreset, source: ScheduledAction): SpawnSpec
    requires IsSpawn(source.action)
  {
    match source.action
    case SpawnEffect(_, _, effectId, tag, look, clipId, offset, _, _, _, metadata) =>
      SpawnSpec(EffectId(host, effectId, tag, preset, source), tag, look, clipId, offset, None, None, metadata)
    case SpawnAttachedEffect(_, _, effectId, tag, look, clipId, offset, _, metadata) =>
      SpawnSpec(EffectId(host, effectId, tag, preset, source), tag, look, clipId, offset, None, None, metadata)
    case SpawnObject(_, objectId, _, tag, look, atX, atY, offset, metadata) =>
      SpawnSpec(objectId, tag, look, None, offset, atX, atY, metadata)
    case SpawnFromObject(_, objectId, _, tag, look, offset, _, metadata) =>
      SpawnSpec(objectId, tag, look, None, offset, None, None, metadata)
  }

  /** Warns when the clip of a spawned object is not in the asset pack. */
  function ClipWarning(host: Host, pack: AssetPack, stage: Stage, clipId: Option<string>,
                       source: ScheduledAction): Stage {
    if Truthy(clipId) && FindClip(pack.animations, clipId.value).None?
    then Warn(host, stage, source, "Animation " + clipId.value + " was not found.")
    else stage
  }

  /** The object a spawning action creates, if its preset and its target exist. */
  function SpawnedBy(host: Host, pack: AssetPack, stage: Stage, source: ScheduledAction): Option<SceneObject>
    requires IsSpawn(source.action)
  {
    var preset := FindPreset(pack.objectPresets, source.action.presetId);
    if preset.None? then None
    else
      var spec := SpecOf(host, preset.value, source);
      if source.action.SpawnFromObject? then
        var from := FindSampledObject(host, stage, source.action.sourceObjectId, source.runAt);
        if from.None? then None else Some(BuildSpawnedObject(preset.value, spec, source, from))
      else if source.action.SpawnAttachedEffect? then
        var target := FindObject(stage.objects, source.action.targetId);
        if target.None? then None else Some(BuildSpawnedObject(preset.value, spec, source, target))
      else
        var nearId := source.action.nearId;
        var target := if Truthy(nearId) then FindObject(stage.objects, nearId.value) else None;
        if Truthy(nearId) && target.None? then None else Some(BuildSpawnedObject(preset.value, spec, source, target))
  }

  function SpawnFailure(pack: AssetPack, source: ScheduledAction): string
    requires IsSpawn(source.action)
  {
    if FindPreset(pack.objectPresets, source.action.presetId).None?
    then "Preset " + source.action.presetId + " was not found."
    else if source.action.SpawnFromObject? then "Spawn source " + source.action.sourceObjectId + " was not found."
    else if source.action.SpawnAttachedEffect? then "Attachment target " + source.action.targetId + " was not found."
    else "Spawn target " + source.action.nearId.GetOr("") + " was not found."
  }

  // ------------------------------------------------------- the action switch

  /** The state after one action: the returned value of `applyScheduledAction`. */
  function ApplyAction(host: Host, pack: AssetPack, stage: Stage, source: ScheduledAction): Stage {
    match source.action
    case SetState(_, _) => ApplyUpdate(host, pack, stage, source)
    case ShowObject(_) => ApplyUpdate(host, pack, stage, source)
    case HideObject(_) => ApplyUpdate(host, pack, stage, source)
    case PlayAnimation(_, _, _, _) => ApplyUpdate(host, pack, stage, source)
    case SetProperty(_, _, _) => ApplyUpdate(host, pack, stage, source)
    case SpawnEffect(_, _, _, _, _, _, _, _, _, _, _) => ApplySpawn(host, pack, stage, source)
    case SpawnObject(_, _, _, _, _, _, _, _, _) => ApplySpawn(host, pack, stage, source)
    case SpawnFromObject(_, _, _, _, _, _, _, _) => ApplySpawn(host, pack, stage, source)
    case SpawnAttachedEffect(_, _, _, _, _, _, _, _, _) => ApplySpawn(host, pack, stage, source)
    case RemoveObject(victimId, tag, selector) => RemoveObjects(host, stage, victimId, tag, selector, source)
    case DespawnAtObject(_, _, _) => ApplyDespawn(host, stage, source)
    case DetachFromObject(targetId) => RemoveTracksForObject(stage, targetId, AttachTrack)
    case HideRouteTrail(targetId) => RemoveTracksForObject(stage, targetId, RouteTrailTrack)
    case _ => ApplyTrack(host, stage, source)
  }

  /** The branch each kind of action takes. */
  lemma Branches(host: Host, pack: AssetPack, stage: Stage, source: ScheduledAction)
    ensures var next := ApplyAction(host, pack, stage, source);
            && (IsUpdate(source.action) ==> next == ApplyUpdate(host, pack, stage, source))
            && (IsSpawn(source.action) ==> next == ApplySpawn(host, pack, stage, source))
            && (IsTrackAction(source.action) ==> next == ApplyTrack(host, stage, source))
            && (source.action.DespawnAtObject? ==> next == ApplyDespawn(host, stage, source))
            && (source.action.DetachFromObject? ==>
                next == RemoveTracksForObject(stage, source.action.targetId, AttachTrack))
            && (source.action.RemoveObject? ==>
                  next == RemoveObjects(host, stage, source.action.victimId, source.action.tag,
                      source.action.selector, source))
            && (source.action.HideRouteTrail? ==>
                next == RemoveTracksForObject(stage, source.action.targetId, RouteTrailTrack))
  {
    hide ApplyUpdate, ApplySpawn, ApplyTrack, ApplyDespawn, RemoveObjects, RemoveTracksForObject;
  }

  /** One object as an update action leaves it. */
  function UpdatedItem(source: ScheduledAction, item: SceneObject): SceneObject
    requires IsUpdate(source.action)
  {
    match source.action
    case SetState(_, state) => EnterState(item, state, source.runAt)
    case ShowObject(_) => item.(hidden := false)
    case HideObject(_) => item.(hidden := true)
    case PlayAnimation(_, animationId, _, _) =>
      item.(animationStartedAt := Some(source.runAt), currentAnimationId := Some(animationId))
    case SetProperty(_, property, value) => WithProperty(item, property, value)
  }

  function ApplyUpdate(host: Host, pack: AssetPack, stage: Stage, source: ScheduledAction): Stage
    requires IsUpdate(source.action)
  {
    var next := if source.action.PlayAnimation? && FindClip(pack.animations, source.action.animationId).None?
                then Warn(host, stage, source, "Animation " + source.action.animationId + " was not found.")
                else stage;
    UpdateOrWarn(host, next, source.action.targetId, (item: SceneObject) => UpdatedItem(source, item), source)
  }

  function AttachedEffectTrack(host: Host, source: ScheduledAction, effectId: string, targetId: string): VisualTrack
    requires source.action.SpawnAttachedEffect?
  {
    var action := source.action;
    NewTrack(TrackId(host, source, "attached_effect"), AttachTrack, effectId, source.runAt,
             action.lifetimeMs.GetOr(60000.0), action.metadata)
    .(offset := action.offset, persistent := action.lifetimeMs.None?, targetObjectId := Some(targetId))
  }

  function ApplySpawn(host: Host, pack: AssetPack, stage: Stage, source: ScheduledAction): Stage
    requires IsSpawn(source.action)
  {
    var spawned := SpawnedBy(host, pack, stage, source);
    if spawned.None? then Warn(host, stage, source, SpawnFailure(pack, source))
    else if source.action.SpawnAttachedEffect? then
      AddVisualTrack(InsertOrReplaceObject(stage, spawned.value),
        AttachedEffectTrack(host, source, spawned.value.id, FindObject(stage.objects, source.action.targetId).value.id))
    else
      InsertOrReplaceObject(ClipWarning(host, pack, stage, spawned.value.currentAnimationId, source), spawned.value)
  }

  function DespawnWarnings(host: Host, stage: Stage, source: ScheduledAction): Stage
    requires source.action.DespawnAtObject?
  {
    AttachmentTargetWarning(host, TrackTargetWarning(host, stage, source.action.targetId, source),
                            source.action.targetObjectId, source)
  }

  /** The despawning object, moved to where its target is drawn. */
  function DockedObject(host: Host, stage: Stage, source: ScheduledAction): Option<SceneObject>
    requires source.action.DespawnAtObject?
  {
    var item := FindObject(stage.objects, source.action.targetId);
    var target := FindSampledObject(host, stage, source.action.targetObjectId, source.runAt);
    if item.None? || target.None? then None
    else Some(item.value.(x := target.value.x + source.action.offset.x, y := target.value.y + source.action.offset.y))
  }

  function ApplyDespawn(host: Host, stage: Stage, source: ScheduledAction): Stage
    requires source.action.DespawnAtObject?
  {
    var next := DespawnWarnings(host, stage, source);
    var docked := DockedObject(host, next, source);
    if docked.None? then next
    else RemoveObjects(host, InsertOrReplaceObject(next, docked.value), Some(docked.value.id), None, None, source)
  }

  /** The track an action adds to a stage in which its objects exist. */
  function TrackOf(host: Host, stage: Stage, source: ScheduledAction): Option<VisualTrack> {
    var runAt := source.runAt;
    match source.action
    case MoveTo(targetId, to, from, durationMs, easing, metadata) =>
      var target := FindObject(stage.objects, targetId);
      if target.None? then None
      else Some(NewTrack(TrackId(host, source, "move_to"), MoveToTrack, target.value.id, runAt, durationMs, metadata)
                .(easing := easing, from := PointRecord(from.GetOr(Point(target.value.x, target.value.y))),
                    to := PointRecord(to)))
    case MoveToObject(targetId, targetObjectId, durationMs, easing, offset, metadata) =>
      var mover := FindSampledObject(host, stage, targetId, runAt);
      var target := FindSampledObject(host, stage, targetObjectId, runAt);
      if mover.None? || target.None? then None
      else Some(NewTrack(TrackId(host, source, "move_to_object"), MoveToTrack, mover.value.id, runAt, durationMs,
          metadata)
                .(easing := easing, from := PointRecord(Point(mover.value.x, mover.value.y)),
                  to := PointRecord(Point(target.value.x + offset.x, target.value.y + offset.y))))
    case MoveAlongPath(targetId, path, durationMs, easing, metadata) =>
      var target := FindObject(stage.objects, targetId);
      if |path| < 2 || target.None? then None
      else Some(NewTrack(TrackId(host, source, "move_path"), PathTrack, target.value.id, runAt, durationMs, metadata)
                .(easing := easing, path := path))
    case OrbitAround(targetId, targetObjectId, radius, durationMs, speed, offset, metadata) =>
      var mover := FindObject(stage.objects, targetId);
      var target := FindObject(stage.objects, targetObjectId);
      if mover.None? || target.None? then None
      else Some(NewTrack(TrackId(host, source, "orbit"), OrbitTrack, mover.value.id, runAt, durationMs, metadata)
                .(offset := offset, radius := Some(radius), speed := speed, targetObjectId := Some(target.value.id)))
    case AttachToObject(targetId, targetObjectId, offset, showMs, metadata) =>
      var mover := FindObject(stage.objects, targetId);
      var target := FindObject(stage.objects, targetObjectId);
      if mover.None? || target.None? then None
      else Some(NewTrack(TrackId(host, source, "attach"), AttachTrack, mover.value.id, runAt, showMs.GetOr(60000.0),
          metadata)
                .(offset := offset, persistent := showMs.None?, targetObjectId := Some(target.value.id)))
    case ShowRouteTrail(targetId, path, showMs, metadata) =>
      var target := FindObject(stage.objects, targetId);
      if |path| < 2 || target.None? then None
      else Some(NewTrack(TrackId(host, source, "route_trail"), RouteTrailTrack, target.value.id, runAt,
          showMs.GetOr(60000.0), metadata)
                .(path := path, persistent := showMs.None?))
    case _ => None
  }

  /** The warnings of a track action, in the order the runtime raises them. */
  function TrackWarnings(host: Host, stage: Stage, source: ScheduledAction): Stage {
    match source.action
    case MoveTo(targetId, _, _, _, _, _) => TrackTargetWarning(host, stage, targetId, source)
    case MoveToObject(targetId, targetObjectId, _, _, _, _) =>
      AttachmentTargetWarning(host, TrackTargetWarning(host, stage, targetId, source), targetObjectId, source)
    case MoveAlongPath(targetId, path, _, _, _) =>
      var next := TrackTargetWarning(host, stage, targetId, source);
      if |path| < 2 then Warn(host, next, source, "Move path must contain at least two points.") else next
    case OrbitAround(targetId, targetObjectId, _, _, _, _, _) =>
      AttachmentTargetWarning(host, TrackTargetWarning(host, stage, targetId, source), targetObjectId, source)
    case AttachToObject(targetId, targetObjectId, _, _, _) =>
      AttachmentTargetWarning(host, TrackTargetWarning(host, stage, targetId, source), targetObjectId, source)
    case ShowRouteTrail(targetId, path, _, _) =>
      if |path| < 2 then Warn(host, stage, source, "Route trail must contain at least two points.")
      else TrackTargetWarning(host, stage, targetId, source)
    case _ => stage
  }

  function ApplyTrack(host: Host, stage: Stage, source: ScheduledAction): Stage {
    var next := TrackWarnings(host, stage, source);
    var track := TrackOf(host, next, source);
    if track.None? then next else AddVisualTrack(next, track.value)
  }

  // -------------------------------------------------------------- further actions

  /** Every clip of the asset pack advances. */
  predicate ClipsAdvance(pack: AssetPack) {
    forall i | 0 <= i < |pack.animations| :: pack.animations[i].fps > 0.0
  }

  /** The state change a `once` clip schedules for its end. */
  function CompletionOf(pack: AssetPack, source: ScheduledAction, clipId: Option<string>, targetId: Option<string>,
                        explicitState: Option<string>): seq<ScheduledAction>
    requires ClipsAdvance(pack)
  {
    if !Truthy(clipId) || !Truthy(targetId) then []
    else
      var clip := FindClip(pack.animations, clipId.value);
      if clip.None? || clip.value.playback != Once then []
      else
        var state := explicitState.OrElse(clip.value.onCompleteState);
        if !Truthy(state) then []
        else [ScheduledAction(SetState(targetId.value, state.value), source.actionIndex + 0.1, source.event,
            source.ruleId,
                              source.runAt + AnimationRuntime.GetAnimationDurationMs(clip.value) as real)]
  }

  /** Clip `k` is the first of that id. */
  predicate FirstClip(pack: AssetPack, id: string, k: nat) {
    && k < |pack.animations| && pack.animations[k].id == id
    && forall j | 0 <= j < k :: pack.animations[j].id != id
  }

  /** The job sets the target to the state that follows a clip, at the first whole millisecond
      at which the clip is complete: the state given, else the clip's own. */
  ghost predicate Completes(pack: AssetPack, source: ScheduledAction, clipId: Option<string>, targetId: Option<string>,
                            explicitState: Option<string>, job: ScheduledAction) {
    && clipId.Some? && clipId.value != "" && targetId.Some? && targetId.value != ""
    && exists k: nat, ms: int ::
         && FirstClip(pack, clipId.value, k)
         && AnimationRuntime.CompletionDelay(pack.animations[k], ms)
         && pack.animations[k].playback == Once
         && var state := if explicitState.Some? then explicitState else pack.animations[k].onCompleteState;
            && state.Some? && state.value != ""
            && job == ScheduledAction(SetState(targetId.value, state.value), source.actionIndex + 0.1, source.event,
                                      source.ruleId, source.runAt + ms as real)
  }

  lemma {:induction false} FindClipIsFirst(clips: seq<AnimationClip>, id: string)
    ensures FindClip(clips, id).Some? ==>
              exists k | 0 <= k < |clips| ::
                clips[k] == FindClip(clips, id).value && clips[k].id == id && forall j | 0 <= j < k :: clips[j].id != id
  {
    if clips != [] {
      if clips[0].id == id {
        assert clips[0] == FindClip(clips, id).value;
      } else if FindClip(clips, id).Some? {
        FindClipIsFirst(clips[1..], id);
        var k :| 0 <= k < |clips[1..]| && clips[1..][k] == FindClip(clips[1..], id).value
                 && clips[1..][k].id == id && forall j | 0 <= j < k :: clips[1..][j].id != id;
        assert clips[k + 1] == FindClip(clips, id).value;
        forall j | 0 <= j < k + 1 ensures clips[j].id != id {
          assert j > 0 ==> clips[j] == clips[1..][j - 1];
        }
      }
    }
  }

  /** Exactly one completion is scheduled when there is one, and nothing otherwise. */
  lemma CompletionMeans(pack: AssetPack, source: ScheduledAction, clipId: Option<string>, targetId: Option<string>,
                        explicitState: Option<string>)
    requires ClipsAdvance(pack)
    ensures var jobs := CompletionOf(pack, source, clipId, targetId, explicitState);
            && |jobs| <= 1
            && forall job :: job in jobs <==> Completes(pack, source, clipId, targetId, explicitState, job)
  {
    var jobs := CompletionOf(pack, source, clipId, targetId, explicitState);
    forall job ensures job in jobs <==> Completes(pack, source, clipId, targetId, explicitState, job) {
      if job in jobs {
        CompletionCompletes(pack, source, clipId, targetId, explicitState);
      }
      if Completes(pack, source, clipId, targetId, explicitState, job) {
        CompletesIsScheduled(pack, source, clipId, targetId, explicitState, job);
      }
    }
  }

  lemma CompletionCompletes(pack: AssetPack, source: ScheduledAction, clipId: Option<string>, targetId: Option<string>,
                            explicitState: Option<string>)
    requires ClipsAdvance(pack)
    ensures forall job | job in CompletionOf(pack, source, clipId, targetId, explicitState) ::
              Completes(pack, source, clipId, targetId, explicitState, job)
  {
    forall job | job in CompletionOf(pack, source, clipId, targetId, explicitState)
      ensures Completes(pack, source, clipId, targetId, explicitState, job)
    {
      FindClipIsFirst(pack.animations, clipId.value);
      var clip := FindClip(pack.animations, clipId.value).value;
      var k :| 0 <= k < |pack.animations| && pack.animations[k] == clip && clip.id == clipId.value
               && forall j | 0 <= j < k :: pack.animations[j].id != clipId.value;
      AnimationRuntime.DurationMeans(clip, AnimationRuntime.GetAnimationDurationMs(clip));
      assert FirstClip(pack, clipId.value, k);
      assert AnimationRuntime.CompletionDelay(pack.animations[k], AnimationRuntime.GetAnimationDurationMs(clip));
    }
  }

  lemma CompletesIsScheduled(pack: AssetPack, source: ScheduledAction, clipId: Option<string>, targetId: Option<string>,
                             explicitState: Option<string>, job: ScheduledAction)
    requires ClipsAdvance(pack) && Completes(pack, source, clipId, targetId, explicitState, job)
    ensures job in CompletionOf(pack, source, clipId, targetId, explicitState)
  {
    var k: nat, ms: int :| FirstClip(pack, clipId.value, k) && AnimationRuntime.CompletionDelay(pack.animations[k], ms)
      && pack.animations[k].playback == Once
      && var state := if explicitState.Some? then explicitState else pack.animations[k].onCompleteState;
         && state.Some? && state.value != ""
         && job == ScheduledAction(SetState(targetId.value, state.value), source.actionIndex + 0.1, source.event,
                                   source.ruleId, source.runAt + ms as real);
    assert pack.animations[k] in pack.animations;
    FindClipIsFirst(pack.animations, clipId.value);
    var clip := FindClip(pack.animations, clipId.value).value;
    assert clip == pack.animations[k];
    AnimationRuntime.DurationMeans(clip, ms);
  }

  /** The removal a lifetime schedules. */
  function RemovalOf(source: ScheduledAction, objectId: string, lifetimeMs: Option<real>): seq<ScheduledAction> {
    if lifetimeMs.None? then []
    else [ScheduledAction(RemoveObject(Some(objectId), None, None), source.actionIndex + 0.2, source.event,
        source.ruleId,
                          source.runAt + lifetimeMs.value)]
  }

  /** The actions one action pushes onto the work list, in push order. */
  function FollowUps(host: Host, pack: AssetPack, stage: Stage, source: ScheduledAction): seq<ScheduledAction>
    requires ClipsAdvance(pack)
  {
    match source.action
    case PlayAnimation(targetId, animationId, lifetimeMs, onCompleteState) =>
      CompletionOf(pack, source, Some(animationId), Some(targetId), onCompleteState) + RemovalOf(source, targetId,
          lifetimeMs)
    case SpawnEffect(_, nearId, _, _, _, _, _, lifetimeMs, onCompleteState, onCompleteTargetId, _) =>
      var spawned := SpawnedBy(host, pack, stage, source);
      if spawned.None? then []
      else CompletionOf(pack, source, spawned.value.currentAnimationId,
                        if onCompleteTargetId.None? then None else onCompleteTargetId.value.OrElse(nearId),
                            onCompleteState)
           + RemovalOf(source, spawned.value.id, lifetimeMs)
    case SpawnFromObject(_, _, _, _, _, _, lifetimeMs, _) =>
      var spawned := SpawnedBy(host, pack, stage, source);
      if spawned.None? then [] else RemovalOf(source, spawned.value.id, lifetimeMs)
    case SpawnAttachedEffect(_, _, _, _, _, _, _, lifetimeMs, _) =>
      var spawned := SpawnedBy(host, pack, stage, source);
      if spawned.None? then [] else RemovalOf(source, spawned.value.id, lifetimeMs)
    case _ => []
  }

  /** The growing array of scheduled actions, sorted in place. */
  class WorkList {
    var items: seq<ScheduledAction>

    constructor ()
      ensures items == []
    {
      items := [];
    }

    method Push(item: ScheduledAction)
      modifies this
      ensures items == old(items) + [item]
    {
      items := items + [item];
    }

    method SortByTime()
      modifies this
      ensures items == Sort(old(items), RunsNoLater)
    {
      items := Sort(items, RunsNoLater);
    }
  }

  method ScheduleOnceCompletion(workList: WorkList, source: ScheduledAction, clipId: Option<string>,
                                targetId: Option<string>, explicitState: Option<string>, pack: AssetPack)
    requires ClipsAdvance(pack)
    modifies workList
    ensures workList.items == old(workList.items) + CompletionOf(pack, source, clipId, targetId, explicitState)
    ensures |workList.items| <= |old(workList.items)| + 1
    ensures forall job ::
              job in workList.items[|old(workList.items)|..] <==>
              Completes(pack, source, clipId, targetId, explicitState, job)
  {
    CompletionMeans(pack, source, clipId, targetId, explicitState);
    hide Completes;
    if !Truthy(clipId) || !Truthy(targetId) {
      return;
    }
    var clip := FindClip(pack.animations, clipId.value);
    if clip.None? || clip.value.playback != Once {
      return;
    }
    var state := explicitState.OrElse(clip.value.onCompleteState);
    if !Truthy(state) {
      return;
    }
    workList.Push(ScheduledAction(SetState(targetId.value, state.value), source.actionIndex + 0.1, source.event,
      source.ruleId, source.runAt + AnimationRuntime.GetAnimationDurationMs(clip.value) as real));
  }

  method ScheduleLifetimeRemoval(workList: WorkList, source: ScheduledAction, objectId: string,
                                 lifetimeMs: Option<real>)
    modifies workList
    ensures workList.items == old(workList.items) + RemovalOf(source, objectId, lifetimeMs)
  {
    if lifetimeMs.None? {
      return;
    }
    workList.Push(ScheduledAction(RemoveObject(Some(objectId), None, None), source.actionIndex + 0.2, source.event,
      source.ruleId, source.runAt + lifetimeMs.value));
  }

  /** One action: the next stage is returned, further actions are pushed. */
  method ApplyScheduledAction(host: Host, pack: AssetPack, stage: Stage, source: ScheduledAction, workList: WorkList)
    returns (next: Stage)
    requires ClipsAdvance(pack)
    modifies workList
    ensures next == ApplyAction(host, pack, stage, source)
    ensures workList.items == old(workList.items) + FollowUps(host, pack, stage, source)
  {
    hide SpawnedBy, ApplyAction, RemovalOf;
    ghost var before := workList.items;
    match source.action {
      case PlayAnimation(targetId, animationId, lifetimeMs, onCompleteState) =>
        ScheduleOnceCompletion(workList, source, Some(animationId), Some(targetId), onCompleteState, pack);
        ScheduleLifetimeRemoval(workList, source, targetId, lifetimeMs);
      case SpawnEffect(_, nearId, _, _, _, _, _, lifetimeMs, onCompleteState, onCompleteTargetId, _) =>
        var spawned := SpawnedBy(host, pack, stage, source);
        if spawned.Some? {
          ScheduleOnceCompletion(workList, source, spawned.value.currentAnimationId,
            if onCompleteTargetId.None? then None else onCompleteTargetId.value.OrElse(nearId), onCompleteState, pack);
          ScheduleLifetimeRemoval(workList, source, spawned.value.id, lifetimeMs);
        }
      case SpawnFromObject(_, _, _, _, _, _, lifetimeMs, _) =>
        var spawned := SpawnedBy(host, pack, stage, source);
        if spawned.Some? {
          ScheduleOnceCompletion(workList, source, spawned.value.currentAnimationId, None, None, pack);
          ScheduleLifetimeRemoval(workList, source, spawned.value.id, lifetimeMs);
        }
      case SpawnAttachedEffect(_, _, _, _, _, _, _, lifetimeMs, _) =>
        var spawned := SpawnedBy(host, pack, stage, source);
        if spawned.Some? {
          ScheduleLifetimeRemoval(workList, source, spawned.value.id, lifetimeMs);
        }
      case _ =>
    }
    assert workList.items == before + FollowUps(host, pack, stage, source);
    next := ApplyAction(host, pack, stage, source);
  }
}
