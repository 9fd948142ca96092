/**
  Drawing the scene at a time: motion tracks first, in start order, then attachments
  (`runtimeState.ts`, `shouldRetainTrack` to `sampleObjectsFromTracks`).
*/
module Sampling {
  import opened Wrappers
  import opened Contracts
  import opened StableSort
  import opened TrackRuntime

  /** `object.id === id || object.entityId === id` */
  predicate Answers(item: SceneObject, id: string) {
    item.id == id || item.entityId == Some(id)
  }

  /** The first object that answers to `id`: `findObject`. */
  function FindObject(objects: seq<SceneObject>, id: string): (r: Option<SceneObject>)
    ensures r.Some? ==> r.value in objects && Answers(r.value, id)
    ensures r.None? ==> forall o | o in objects :: !Answers(o, id)
  {
    if objects == [] then None
    else if Answers(objects[0], id) then Some(objects[0])
    else FindObject(objects[1..], id)
  }

  /** The first object whose own id is `id`. */
  function FindById(objects: seq<SceneObject>, id: string): (r: Option<SceneObject>)
    ensures r.Some? ==> r.value in objects && r.value.id == id
    ensures r.None? ==> forall o | o in objects :: o.id != id
  {
    if objects == [] then None
    else if objects[0].id == id then Some(objects[0])
    else FindById(objects[1..], id)
  }

  predicate StartsNoLater(a: VisualTrack, b: VisualTrack) { a.startTimeMs <= b.startTimeMs }

  predicate ShouldRetainTrack(track: VisualTrack, timeMs: real) {
    && track.startTimeMs <= timeMs
    && (track.persistent
        || track.kind in {MoveToTrack, PathTrack, PropertyTrack}
        || IsTrackVisibleAtTime(track, timeMs))
  }

  function RetainedTracks(tracks: seq<VisualTrack>, timeMs: real): seq<VisualTrack> {
    Keep(tracks, track => ShouldRetainTrack(track, timeMs))
  }

  /** Rewrites every object that answers to `id`. */
  function UpdateSampledObject(objects: seq<SceneObject>, id: string,
                               updater: SceneObject -> SceneObject): (r: seq<SceneObject>)
    ensures |r| == |objects|
    ensures forall i | 0 <= i < |r| :: r[i] == if Answers(objects[i], id) then updater(objects[i]) else objects[i]
  {
    seq(|objects|, i requires 0 <= i < |objects| => if Answers(objects[i], id) then updater(objects[i]) else objects[i])
  }

  // ---------------------------------------------------------------- first pass

  /** Whether the first pass applies the track: it has started, it moves something and, for
      an orbit, it is still visible. */
  predicate MovesAt(track: VisualTrack, timeMs: real) {
    && track.startTimeMs <= timeMs
    && (track.kind in {MoveToTrack, PathTrack, PropertyTrack}
        || (track.kind == OrbitTrack && IsTrackVisibleAtTime(track, timeMs)))
  }

  function WithNumber(item: SceneObject, property: NumericProperty, value: real): SceneObject {
    match property
    case Opacity => item.(opacity := Some(value))
    case Rotation => item.(rotation := Some(value))
    case X => item.(x := value)
    case Y => item.(y := value)
    case ZIndex => item.(zIndex := Some(value))
  }

  function WithPosition(item: SceneObject, p: Point): SceneObject { item.(x := p.x, y := p.y) }

  /** One object as the track draws it in the scene `drawn` of the tracks before it. */
  function Moved(host: Host, drawn: seq<SceneObject>, item: SceneObject, track: VisualTrack,
                 timeMs: real): SceneObject {
    match track.kind
    case MoveToTrack => WithPosition(item, SampleMoveToTrack(track, timeMs))
    case PathTrack => WithPosition(item, SamplePathTrack(host, track, timeMs))
    case OrbitTrack =>
      var target := if track.targetObjectId.Some? then FindById(drawn, track.targetObjectId.value) else None;
      WithPosition(item, SampleOrbitTrack(host, track, timeMs, target))
    case PropertyTrack =>
      if track.property.None? then item
      else WithNumber(item, track.property.value, InterpolateKey(track, PropertyKey(track.property.value), timeMs))
    case AttachTrack => item
    case RouteTrailTrack => item
  }

  function MoveOne(host: Host, drawn: seq<SceneObject>, track: VisualTrack, timeMs: real): (r: seq<SceneObject>)
    ensures |r| == |drawn|
  {
    if !MovesAt(track, timeMs) then drawn
    else UpdateSampledObject(drawn, track.objectId, item => Moved(host, drawn, item, track, timeMs))
  }

  function MoveAll(host: Host, objects: seq<SceneObject>, tracks: seq<VisualTrack>, timeMs: real): (r: seq<SceneObject>)
    ensures |r| == |objects|
  {
    if tracks == [] then objects
    else MoveOne(host, MoveAll(host, objects, tracks[..|tracks| - 1], timeMs), tracks[|tracks| - 1], timeMs)
  }

  // --------------------------------------------------------------- second pass

  predicate AttachesAt(track: VisualTrack, timeMs: real) {
    track.kind == AttachTrack && IsTrackVisibleAtTime(track, timeMs) && Truthy(track.targetObjectId)
  }

  function AttachOne(drawn: seq<SceneObject>, track: VisualTrack, timeMs: real): (r: seq<SceneObject>)
    ensures |r| == |drawn|
  {
    if !AttachesAt(track, timeMs) then drawn
    else
      var target := FindById(drawn, track.targetObjectId.value);
      if target.None? then drawn
      else UpdateSampledObject(drawn, track.objectId, item => ApplyAttachment(item, target.value, track.offset))
  }

  function AttachAll(objects: seq<SceneObject>, tracks: seq<VisualTrack>, timeMs: real): (r: seq<SceneObject>)
    ensures |r| == |objects|
  {
    if tracks == [] then objects
    else AttachOne(AttachAll(objects, tracks[..|tracks| - 1], timeMs), tracks[|tracks| - 1], timeMs)
  }

  function SampleObjects(host: Host, objects: seq<SceneObject>, tracks: seq<VisualTrack>,
                         timeMs: real): (r: seq<SceneObject>)
    ensures |r| == |objects|
  {
    var ordered := Sort(tracks, StartsNoLater);
    AttachAll(MoveAll(host, objects, ordered, timeMs), ordered, timeMs)
  }

  /** The sampler's two loops. */
  method SampleObjectsFromTracks(host: Host, objects: seq<SceneObject>, tracks: seq<VisualTrack>, timeMs: real)
    returns (sampledObjects: seq<SceneObject>)
    ensures sampledObjects == SampleObjects(host, objects, tracks, timeMs)
  {
    hide UpdateSampledObject, Moved, FindById, Sort, ApplyAttachment;
    sampledObjects := objects;
    var orderedTracks := Sort(tracks, StartsNoLater);
    for i := 0 to |orderedTracks|
      invariant sampledObjects == MoveAll(host, objects, orderedTracks[..i], timeMs)
    {
      var track := orderedTracks[i];
      assert orderedTracks[..i + 1][..i] == orderedTracks[..i];
      if timeMs < track.startTimeMs || track.kind == RouteTrailTrack {
        continue;
      }
      if track.kind in {OrbitTrack, AttachTrack} && !IsTrackVisibleAtTime(track, timeMs) {
        continue;
      }
      if track.kind == AttachTrack {
        continue;
      }
      var before := sampledObjects;
      sampledObjects := UpdateSampledObject(before, track.objectId, item => Moved(host, before, item, track, timeMs));
    }
    assert orderedTracks[..|orderedTracks|] == orderedTracks;
    ghost var moved := sampledObjects;
    for i := 0 to |orderedTracks|
      invariant sampledObjects == AttachAll(moved, orderedTracks[..i], timeMs)
    {
      var track := orderedTracks[i];
      assert orderedTracks[..i + 1][..i] == orderedTracks[..i];
      if track.kind != AttachTrack || !IsTrackVisibleAtTime(track, timeMs) || !Truthy(track.targetObjectId) {
        continue;
      }
      var before := sampledObjects;
      var targetObject := FindById(before, track.targetObjectId.value);
      if targetObject.None? {
        continue;
      }
      sampledObjects := UpdateSampledObject(before, track.objectId,
          item => ApplyAttachment(item, targetObject.value, track.offset));
    }
    assert orderedTracks[..|orderedTracks|] == orderedTracks;
  }
}
