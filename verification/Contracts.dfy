/**
  The data the visual event runtime exchanges (`contracts.ts`).

  Every number is an exact real. Optional offsets, easings, flags and metadata records whose
  absence the runtime reads as a default are stored with that default.
*/
module Contracts {
  import opened Wrappers

  /** JavaScript library functions the runtime calls and whose results it takes as given. */
  datatype Host = Host(
    numberText: real -> string,
    sanitizeId: string -> string,
    hypot: (real, real) -> real,
    cosine: real -> real,
    sine: real -> real,
    pi: real
  )

  /** What the path sampler needs of `Math.hypot`: a length, zero only for the zero vector. */
  ghost predicate MeasuresLength(host: Host) {
    forall dx, dy :: host.hypot(dx, dy) >= 0.0 && (host.hypot(dx, dy) == 0.0 ==> dx == 0.0 && dy == 0.0)
  }

  /** A JSON value; objects and arrays carry the reference `Object.is` compares. */
  datatype Value =
    | Undefined
    | Null
    | Flag(flag: bool)
    | Num(num: real)
    | Text(text: string)
    | Node(ref: nat, fields: map<string, Value>)

  /** `Object.is` on values without NaN or negative zero. */
  predicate SameValue(a: Value, b: Value) {
    match (a, b)
    case (Node(r, _), Node(q, _)) => r == q
    case _ => a == b
  }

  datatype Point = Point(x: real, y: real)

  datatype Easing = Linear | EaseIn | EaseOut | EaseInOut

  datatype NumericProperty = Opacity | Rotation | X | Y | ZIndex

  datatype Property = Numeric(name: NumericProperty) | Metadata(key: string)

  // ------------------------------------------------------------------- assets

  datatype Playback = Once | Loop

  datatype AnimationClip = AnimationClip(
    id: string, assetKey: string, frameCount: int, fps: real, playback: Playback,
    onCompleteState: Option<string>)

  /** One entry of an `animationsByState` record. */
  datatype StateAnimation = StateAnimation(state: string, animationId: string)

  datatype ObjectPreset = ObjectPreset(
    id: string, name: string, kind: string, defaultAssetKey: string,
    defaultAnimationId: Option<string>, defaultWidth: real, defaultHeight: real,
    defaultVisualState: Option<string>, animationsByState: seq<StateAnimation>,
    metadata: map<string, Value>)

  datatype AssetPack = AssetPack(
    assetKeys: seq<string>, animations: seq<AnimationClip>, objectPresets: seq<ObjectPreset>)

  // -------------------------------------------------------------------- scene

  datatype SceneObject = SceneObject(
    id: string, entityId: Option<string>, name: string, kind: string, state: string,
    visualState: Option<string>, x: real, y: real, width: real, height: Option<real>,
    accent: string, detail: string, hidden: bool, opacity: Option<real>,
    rotation: Option<real>, zIndex: Option<real>, assetKey: Option<string>,
    currentAnimationId: Option<string>, animationsByState: seq<StateAnimation>,
    animationStartedAt: Option<real>, metadata: map<string, Value>,
    // The fields `RuntimeSceneObject` adds; a scene file leaves them at their defaults.
    spawned: bool, sourceEventId: Option<string>, tag: Option<string>)

  datatype VisualEvent = VisualEvent(
    eventId: string, ts: real, offsetMs: Option<real>, kind: string, data: map<string, Value>)

  // ------------------------------------------------------------------ actions

  datatype MetadataSelector = MetadataSelector(key: string, value: Value)

  datatype VisualAction =
    | SetState(targetId: string, state: string)
    | ShowObject(targetId: string)
    | HideObject(targetId: string)
    | PlayAnimation(targetId: string, animationId: string, lifetimeMs: Option<real>,
                    onCompleteState: Option<string>)
      // `onCompleteTargetId` is None when the action has no such property at all.
    | SpawnEffect(presetId: string, nearId: Option<string>, effectId: Option<string>,
                  tag: Option<string>, look: Option<string>, clipId: Option<string>,
                  offset: Point, lifetimeMs: Option<real>, onCompleteState: Option<string>,
                  onCompleteTargetId: Option<Option<string>>, metadata: map<string, Value>)
    | SpawnObject(presetId: string, objectId: string, nearId: Option<string>,
                  tag: Option<string>, look: Option<string>, atX: Option<real>,
                  atY: Option<real>, offset: Point, metadata: map<string, Value>)
    | SpawnFromObject(presetId: string, objectId: string, sourceObjectId: string,
                      tag: Option<string>, look: Option<string>, offset: Point,
                      lifetimeMs: Option<real>, metadata: map<string, Value>)
    | RemoveObject(victimId: Option<string>, tag: Option<string>,
                   selector: Option<MetadataSelector>)
    | SetProperty(targetId: string, property: Property, value: Value)
    | MoveTo(targetId: string, to: Point, from: Option<Point>, durationMs: real,
             easing: Easing, metadata: map<string, Value>)
    | MoveToObject(targetId: string, targetObjectId: string, durationMs: real,
                   easing: Easing, offset: Point, metadata: map<string, Value>)
    | MoveAlongPath(targetId: string, path: seq<Point>, durationMs: real, easing: Easing,
                    metadata: map<string, Value>)
    | OrbitAround(targetId: string, targetObjectId: string, radius: real, durationMs: real,
                  speed: Option<real>, offset: Point, metadata: map<string, Value>)
    | AttachToObject(targetId: string, targetObjectId: string, offset: Point,
                     showMs: Option<real>, metadata: map<string, Value>)
    | DetachFromObject(targetId: string)
    | DespawnAtObject(targetId: string, targetObjectId: string, offset: Point)
    | SpawnAttachedEffect(presetId: string, targetId: string, effectId: Option<string>,
                          tag: Option<string>, look: Option<string>, clipId: Option<string>,
                          offset: Point, lifetimeMs: Option<real>, metadata: map<string, Value>)
    | ShowRouteTrail(targetId: string, path: seq<Point>, showMs: Option<real>,
                     metadata: map<string, Value>)
    | HideRouteTrail(targetId: string)

  /** An action as a rule lists it, with its optional `delayMs`. */
  datatype RuleAction = RuleAction(action: VisualAction, delayMs: Option<real>)

  /** What one path of a rule's `when` clause has to equal: a value or one of several. */
  datatype Expected = Exactly(value: Value) | OneOf(values: seq<Value>)

  /** A condition; the dotted path is given by its segments. */
  datatype Condition = Condition(path: seq<string>, expected: Expected)

  datatype BindingRule = BindingRule(id: string, conditions: seq<Condition>, actions: seq<RuleAction>)

  // ------------------------------------------------------------------- tracks

  datatype TrackKind = MoveToTrack | PathTrack | PropertyTrack | OrbitTrack | AttachTrack | RouteTrailTrack

  datatype VisualTrack = VisualTrack(
    id: string, kind: TrackKind, objectId: string, startTimeMs: real, durationMs: real,
    easing: Easing, from: map<string, real>, to: map<string, real>, path: seq<Point>,
    targetObjectId: Option<string>, offset: Point, radius: Option<real>, speed: Option<real>,
    persistent: bool, property: Option<NumericProperty>, metadata: map<string, Value>)

  // -------------------------------------------------------------------- state

  datatype RuntimeWarning = RuntimeWarning(
    id: string, message: string, eventId: string, ruleId: string, action: VisualAction)

  datatype DispatchedEvent = DispatchedEvent(
    event: VisualEvent, matchedRuleIds: seq<string>, actionCount: nat)

  /** The part of the runtime state that actions read and rewrite. */
  datatype Stage = Stage(
    objects: seq<SceneObject>, visualTracks: seq<VisualTrack>, warnings: seq<RuntimeWarning>)

  datatype SceneRuntimeState = SceneRuntimeState(
    objects: seq<SceneObject>, spawnedObjects: seq<SceneObject>,
    activeEffects: seq<SceneObject>, visualTracks: seq<VisualTrack>,
    dispatchedEvents: seq<DispatchedEvent>, warnings: seq<RuntimeWarning>)
}
