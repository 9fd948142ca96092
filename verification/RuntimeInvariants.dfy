/** What holds of every stage a replay can reach. */
module RuntimeInvariants {
  import opened Wrappers
  import opened Contracts
  import opened StableSort
  import opened TrackRuntime
  import opened Sampling
  import opened SamplingProperties
  import opened Scheduler
  import opened RuntimeState
  import opened Replay

  predicate DifferentItems(a: SceneObject, b: SceneObject) { a.id != b.id }

  predicate DifferentTracks(a: VisualTrack, b: VisualTrack) { a.id != b.id }

  predicate DifferentWarnings(a: RuntimeWarning, b: RuntimeWarning) { a.id != b.id }

  predicate TrackOk(objects: seq<SceneObject>, track: VisualTrack, now: real) {
    HasId(objects, track.objectId) && track.startTimeMs <= now && track.kind != PropertyTrack
  }

  /** Object, track and warning ids are unique; every track belongs to a live object, has
      started by `now`, animates no bare property; and the tracks are in start order. */
  ghost predicate StageOk(stage: Stage, now: real) {
    && Sorted(stage.objects, DifferentItems)
    && Sorted(stage.visualTracks, DifferentTracks)
    && Sorted(stage.warnings, DifferentWarnings)
    && Sorted(stage.visualTracks, StartsNoLater)
    && forall i | 0 <= i < |stage.visualTracks| :: TrackOk(stage.objects, stage.visualTracks[i], now)
  }

  // ---------------------------------------------------------------- building blocks

  lemma LaterIsOk(stage: Stage, now: real, later: real)
    requires StageOk(stage, now) && now <= later
    ensures StageOk(stage, later)
  {
  }

  lemma WarnKeepsOk(host: Host, stage: Stage, source: ScheduledAction, message: string, now: real)
    requires StageOk(stage, now)
    ensures StageOk(Warn(host, stage, source, message), now)
  {
  }

  lemma TargetWarningsKeepOk(host: Host, stage: Stage, id: string, source: ScheduledAction, now: real)
    requires StageOk(stage, now)
    ensures StageOk(TrackTargetWarning(host, stage, id, source), now)
    ensures StageOk(AttachmentTargetWarning(host, stage, id, source), now)
  {
    WarnKeepsOk(host, stage, source, "Track target " + id + " was not found.", now);
    WarnKeepsOk(host, stage, source, "Attachment target " + id + " was not found.", now);
  }

  lemma TrackWarningsKeepOk(host: Host, stage: Stage, source: ScheduledAction, now: real)
    requires StageOk(stage, now) && IsTrackAction(source.action)
    ensures StageOk(TrackWarnings(host, stage, source), now)
  {
    hide StageOk, Warn;
    var action := source.action;
    TargetWarningsKeepOk(host, stage, action.targetId, source, now);
    var next := TrackTargetWarning(host, stage, action.targetId, source);
    if action.MoveToObject? || action.OrbitAround? || action.AttachToObject? {
      TargetWarningsKeepOk(host, next, action.targetObjectId, source, now);
    } else if action.MoveAlongPath? {
      WarnKeepsOk(host, next, source, "Move path must contain at least two points.", now);
    } else if action.ShowRouteTrail? {
      WarnKeepsOk(host, stage, source, "Route trail must contain at least two points.", now);
    }
  }

  lemma UpdateKeepsOk(host: Host, stage: Stage, id: string, updater: SceneObject -> SceneObject,
                      source: ScheduledAction, now: real)
    requires StageOk(stage, now)
    requires forall item :: updater(item).id == item.id
    ensures StageOk(UpdateOrWarn(host, stage, id, updater, source), now)
  {
    if FindObject(stage.objects, id).Some? {
      var objects := UpdateSampledObject(stage.objects, id, updater);
      assert forall i | 0 <= i < |objects| :: objects[i].id == stage.objects[i].id;
      SameIdsSameTracks(stage.objects, objects, stage.visualTracks, now);
    } else {
      WarnKeepsOk(host, stage, source, "Binding target " + id + " was not found.", now);
    }
  }

  lemma SameIdsSameTracks(before: seq<SceneObject>, after: seq<SceneObject>, tracks: seq<VisualTrack>, now: real)
    requires |before| == |after| && forall i | 0 <= i < |after| :: after[i].id == before[i].id
    requires Sorted(before, DifferentItems)
    ensures Sorted(after, DifferentItems)
    ensures forall track | TrackOk(before, track, now) :: TrackOk(after, track, now)
  {
    forall track | TrackOk(before, track, now) ensures TrackOk(after, track, now) {
      var i :| 0 <= i < |before| && before[i].id == track.objectId;
      assert after[i].id == track.objectId;
    }
  }

  lemma {:induction false} KeepSameLength<T>(s: seq<T>, p: T -> bool)
    requires |Keep(s, p)| == |s|
    ensures Keep(s, p) == s
  {
    if s != [] {
      KeepSameLength(s[..|s| - 1], p);
      assert s == s[..|s| - 1] + [s[|s| - 1]];
    }
  }

  lemma KeptTracksOk(stage: Stage, p: VisualTrack -> bool, now: real)
    requires StageOk(stage, now)
    ensures StageOk(stage.(visualTracks := Keep(stage.visualTracks, p)), now)
  {
    KeepSorted(stage.visualTracks, p, DifferentTracks);
    KeepSorted(stage.visualTracks, p, StartsNoLater);
    var kept := Keep(stage.visualTracks, p);
    forall i | 0 <= i < |kept| ensures TrackOk(stage.objects, kept[i], now) {
      assert kept[i] in stage.visualTracks;
    }
  }

  lemma RemoveKeepsOk(host: Host, stage: Stage, victimId: Option<string>, tag: Option<string>,
                      selector: Option<MetadataSelector>, source: ScheduledAction, now: real)
    requires StageOk(stage, now)
    ensures StageOk(RemoveObjects(host, stage, victimId, tag, selector, source), now)
  {
    var spared := (item: SceneObject) => !Selected(item, victimId, tag, selector);
    var objects := Keep(stage.objects, spared);
    if !Truthy(victimId) && !Truthy(tag) && selector.None? {
      WarnKeepsOk(host, stage, source, "Remove action did not include a selector.", now);
    } else if |objects| == |stage.objects| {
      KeepSameLength(stage.objects, spared);
      WarnKeepsOk(host, stage, source, "Remove action did not match any objects.", now);
    } else {
      KeepSorted(stage.objects, spared, DifferentItems);
      var live := (track: VisualTrack) => HasId(objects, track.objectId);
      KeptTracksOk(stage, live, now);
      var kept := Keep(stage.visualTracks, live);
      forall i | 0 <= i < |kept| ensures TrackOk(objects, kept[i], now) {
        assert kept[i] in kept;
        assert TrackOk(stage.objects, kept[i], now);
      }
    }
  }

  lemma InsertKeepsOk(stage: Stage, item: SceneObject, now: real)
    requires StageOk(stage, now)
    ensures StageOk(InsertOrReplaceObject(stage, item), now)
  {
    var others := Keep(stage.objects, (existing: SceneObject) => existing.id != item.id);
    KeepSorted(stage.objects, (existing: SceneObject) => existing.id != item.id, DifferentItems);
    var objects := others + [item];
    forall i | 0 <= i < |others| ensures others[i].id != item.id {
      assert others[i] in others;
    }
    forall i | 0 <= i < |stage.visualTracks| ensures TrackOk(objects, stage.visualTracks[i], now) {
      var id := stage.visualTracks[i].objectId;
      assert TrackOk(stage.objects, stage.visualTracks[i], now);
      if id == item.id {
        assert objects[|others|].id == id;
      } else {
        var k :| 0 <= k < |stage.objects| && stage.objects[k].id == id;
        assert stage.objects[k] in others;
        var m :| 0 <= m < |others| && others[m] == stage.objects[k];
        assert objects[m].id == id;
      }
    }
  }

  lemma AddTrackKeepsOk(stage: Stage, track: VisualTrack, now: real)
    requires StageOk(stage, now) && TrackOk(stage.objects, track, now) && track.startTimeMs == now
    ensures StageOk(AddVisualTrack(stage, track), now)
  {
    var other := (existing: VisualTrack) => existing.id != track.id;
    KeptTracksOk(stage, other, now);
    var others := Keep(stage.visualTracks, other);
    forall i | 0 <= i < |others| ensures others[i].id != track.id {
      assert others[i] in others;
    }
  }

  // ------------------------------------------------------------------ the actions

  /** Drawing finds the same objects as the stage does. */
  lemma SampledIsLive(host: Host, stage: Stage, id: string, t: real)
    ensures FindSampledObject(host, stage, id, t).Some? == FindObject(stage.objects, id).Some?
    ensures FindSampledObject(host, stage, id, t).Some? ==>
              FindSampledObject(host, stage, id, t).value.id == FindObject(stage.objects, id).value.id
              && HasId(stage.objects, FindSampledObject(host, stage, id, t).value.id)
  {
    SamplingKeepsItems(host, stage.objects, RetainedTracks(stage.visualTracks, t), t);
    FindInSame(stage.objects, SampleObjects(host, stage.objects, RetainedTracks(stage.visualTracks, t), t), id);
  }

  lemma TrackOfIsOk(host: Host, stage: Stage, source: ScheduledAction)
    ensures TrackOf(host, stage, source).Some? ==>
              TrackOk(stage.objects, TrackOf(host, stage, source).value, source.runAt)
              && TrackOf(host, stage, source).value.startTimeMs == source.runAt
  {
    if source.action.MoveToObject? { SampledIsLive(host, stage, source.action.targetId, source.runAt); }
    hide FindSampledObject;
  }

  lemma TrackActionKeepsOk(host: Host, pack: AssetPack, stage: Stage, source: ScheduledAction)
    requires IsTrackAction(source.action) && StageOk(stage, source.runAt)
    ensures StageOk(ApplyAction(host, pack, stage, source), source.runAt)
  {
    hide ApplyAction, TrackOf, TrackWarnings, StageOk;
    Branches(host, pack, stage, source);
    TrackWarningsKeepOk(host, stage, source, source.runAt);
    var next := TrackWarnings(host, stage, source);
    TrackOfIsOk(host, next, source);
    if TrackOf(host, next, source).Some? {
      AddTrackKeepsOk(next, TrackOf(host, next, source).value, source.runAt);
    }
  }

  lemma UpdatedItemKeepsId(source: ScheduledAction)
    requires IsUpdate(source.action)
    ensures forall item: SceneObject :: UpdatedItem(source, item).id == item.id
  {
  }

  lemma UpdateActionKeepsOk(host: Host, pack: AssetPack, stage: Stage, source: ScheduledAction)
    requires IsUpdate(source.action) && StageOk(stage, source.runAt)
    ensures StageOk(ApplyAction(host, pack, stage, source), source.runAt)
  {
    hide ApplyAction, StageOk, UpdateOrWarn, Warn, UpdatedItem, FindClip;
    Branches(host, pack, stage, source);
    UpdatedItemKeepsId(source);
    var updater := (item: SceneObject) => UpdatedItem(source, item);
    UpdateKeepsOk(host, stage, source.action.targetId, updater, source, source.runAt);
    if source.action.PlayAnimation? {
      var message := "Animation " + source.action.animationId + " was not found.";
      WarnKeepsOk(host, stage, source, message, source.runAt);
      UpdateKeepsOk(host, Warn(host, stage, source, message), source.action.targetId, updater, source, source.runAt);
    }
  }

  lemma InsertedIsLive(stage: Stage, item: SceneObject)
    ensures HasId(InsertOrReplaceObject(stage, item).objects, item.id)
  {
    var objects := InsertOrReplaceObject(stage, item).objects;
    assert objects[|objects| - 1].id == item.id;
  }

  lemma AttachedTargetIsFound(host: Host, pack: AssetPack, stage: Stage, source: ScheduledAction)
    requires source.action.SpawnAttachedEffect? && SpawnedBy(host, pack, stage, source).Some?
    ensures FindObject(stage.objects, source.action.targetId).Some?
  {
  }

  lemma SpawnKeepsOk(host: Host, pack: AssetPack, stage: Stage, source: ScheduledAction)
    requires IsSpawn(source.action) && StageOk(stage, source.runAt)
    ensures StageOk(ApplyAction(host, pack, stage, source), source.runAt)
  {
    hide ApplyAction, StageOk, SpawnedBy, InsertOrReplaceObject, AddVisualTrack, Warn, FindObject, FindClip, HasId;
    Branches(host, pack, stage, source);
    var now, spawned := source.runAt, SpawnedBy(host, pack, stage, source);
    if spawned.None? {
      WarnKeepsOk(host, stage, source, SpawnFailure(pack, source), now);
    } else if source.action.SpawnAttachedEffect? {
      AttachedTargetIsFound(host, pack, stage, source);
      InsertKeepsOk(stage, spawned.value, now);
      InsertedIsLive(stage, spawned.value);
      var track := AttachedEffectTrack(host, source, spawned.value.id,
          FindObject(stage.objects, source.action.targetId).value.id);
      AddTrackKeepsOk(InsertOrReplaceObject(stage, spawned.value), track, now);
    } else {
      var clipId := spawned.value.currentAnimationId;
      WarnKeepsOk(host, stage, source, "Animation " + clipId.GetOr("") + " was not found.", now);
      InsertKeepsOk(ClipWarning(host, pack, stage, clipId, source), spawned.value, now);
    }
  }

  lemma DespawnKeepsOk(host: Host, pack: AssetPack, stage: Stage, source: ScheduledAction)
    requires source.action.DespawnAtObject? && StageOk(stage, source.runAt)
    ensures StageOk(ApplyAction(host, pack, stage, source), source.runAt)
  {
    hide ApplyAction, StageOk, DockedObject, RemoveObjects, InsertOrReplaceObject, TrackTargetWarning,
        AttachmentTargetWarning;
    Branches(host, pack, stage, source);
    var action, now := source.action, source.runAt;
    TargetWarningsKeepOk(host, stage, action.targetId, source, now);
    TargetWarningsKeepOk(host, TrackTargetWarning(host, stage, action.targetId, source), action.targetObjectId,
        source, now);
    var next := DespawnWarnings(host, stage, source);
    var docked := DockedObject(host, next, source);
    if docked.Some? {
      InsertKeepsOk(next, docked.value, now);
      RemoveKeepsOk(host, InsertOrReplaceObject(next, docked.value), Some(docked.value.id), None, None, source, now);
    }
  }

  /** Every action keeps the stage in order. */
  lemma ActionKeepsOk(host: Host, pack: AssetPack, stage: Stage, source: ScheduledAction, now: real)
    requires StageOk(stage, now) && now <= source.runAt
    ensures StageOk(ApplyAction(host, pack, stage, source), source.runAt)
  {
    LaterIsOk(stage, now, source.runAt);
    hide StageOk;
    if IsUpdate(source.action) {
      UpdateActionKeepsOk(host, pack, stage, source);
    } else if IsSpawn(source.action) {
      SpawnKeepsOk(host, pack, stage, source);
    } else if IsTrackAction(source.action) {
      TrackActionKeepsOk(host, pack, stage, source);
    } else if source.action.DespawnAtObject? {
      DespawnKeepsOk(host, pack, stage, source);
    } else if source.action.RemoveObject? {
      var action := source.action;
      RemoveKeepsOk(host, stage, action.victimId, action.tag, action.selector, source, source.runAt);
    } else {
      RemoveTracksKeepsOk(stage, source.action.targetId, AttachTrack, source.runAt);
      RemoveTracksKeepsOk(stage, source.action.targetId, RouteTrailTrack, source.runAt);
    }
  }

  lemma RemoveTracksKeepsOk(stage: Stage, id: string, kind: TrackKind, now: real)
    requires StageOk(stage, now)
    ensures StageOk(RemoveTracksForObject(stage, id, kind), now)
  {
    var found := FindObject(stage.objects, id);
    var objectId := if found.Some? then found.value.id else id;
    KeptTracksOk(stage, (track: VisualTrack) => track.objectId != objectId || track.kind != kind, now);
  }

  // ------------------------------------------------------------------- whole runs

  lemma {:induction false} RunKeepsOk(host: Host, pack: AssetPack, stage: Stage, pending: seq<ScheduledAction>,
                                      timeMs: real, now: real)
    requires ClipsAdvance(pack) && AllTimely(RuntimeEngine(host, pack), pending, timeMs)
    requires StageOk(stage, now) && now <= timeMs && forall p | p in pending :: now <= p.runAt
    ensures StageOk(RunFrom(host, pack, stage, pending, timeMs).state, timeMs)
    decreases TotalWeight(RuntimeEngine(host, pack).weight, pending)
  {
    EngineRuns(host, pack);
    var engine := RuntimeEngine(host, pack);
    if Finished(pending, timeMs) {
      LaterIsOk(stage, now, timeMs);
    } else {
      var next := pending[Earliest(pending)];
      RemainingIsLighter(engine, stage, pending);
      EarliestIsLeast(pending);
      RemainingBehind(engine, stage, pending, timeMs, next);
      ActionKeepsOk(host, pack, stage, next, now);
      hide StageOk, ApplyAction, FollowUps;
      var remaining := Remaining(engine, stage, pending);
      assert forall p | p in remaining :: RunsNoLater(next, p) && next.runAt <= p.runAt;
      RunKeepsOk(host, pack, ApplyAction(host, pack, stage, next), remaining, timeMs, next.runAt);
    }
  }

  /** In every state a replay reaches, ids are unique, tracks belong to live objects, and the
      track list is in start order, so the sampler's own sort changes nothing. */
  lemma ReachedStageOk(host: Host, pack: AssetPack, events: seq<VisualEvent>, rules: seq<BindingRule>,
                       objects: seq<SceneObject>, timeMs: real)
    requires ClipsAdvance(pack) && DueLifetimesOk(pack, events, rules, timeMs) && Sorted(objects, DifferentItems)
    ensures var stage := ReferenceRun(host, pack, events, rules, objects, timeMs).state;
            StageOk(stage, timeMs) && Sort(stage.visualTracks, StartsNoLater) == stage.visualTracks
  {
    var pending := Schedule(Sort(events, HappensNoLater), rules, timeMs);
    var start := InitialStage(objects);
    EngineRuns(host, pack);
    if !Finished(pending, timeMs) {
      EarliestIsLeast(pending);
      RunKeepsOk(host, pack, start, pending, timeMs, pending[Earliest(pending)].runAt);
    }
    SortOfSorted(ReferenceRun(host, pack, events, rules, objects, timeMs).state.visualTracks, StartsNoLater);
  }

  /** Object `k` is drawn where its last attachment puts it, at its parent's drawn place plus
      the offset; without one, at the sample of its last motion; without either, at its base. */
  ghost predicate DrawnInPlace(host: Host, stage: Stage, timeMs: real, k: nat)
    requires k < |stage.objects|
  {
    var objects, tracks := stage.objects, stage.visualTracks;
    var drawn := SampleObjects(host, objects, tracks, timeMs);
    && (forall n: nat, p: nat | n < |tracks| && p < |objects| && LastAttachment(objects, tracks, timeMs, n, k)
          && tracks[n].targetObjectId == Some(objects[p].id) ::
          Position(drawn[k]) == Plus(Position(drawn[p]), tracks[n].offset))
    && (Unattached(objects, tracks, timeMs, k) ==>
          && (forall n: nat | n < |tracks| && tracks[n].kind != PropertyTrack && Moves(objects, tracks, timeMs, n, k)
                && (forall m: nat | n < m < |tracks| :: !Moves(objects, tracks, timeMs, m, k)) ::
                Position(drawn[k])
                    == MotionSample(host, MoveAll(host, objects, tracks[..n], timeMs), tracks[n], timeMs))
          && ((forall n: nat | n < |tracks| :: !Moves(objects, tracks, timeMs, n, k)) ==> drawn[k] == objects[k]))
  }

  /** The picture of a reached state, object by object: attached objects follow their
      parents, the others sit where their last motion put them. */
  lemma ReachedScenePositions(host: Host, pack: AssetPack, events: seq<VisualEvent>, rules: seq<BindingRule>,
                              objects: seq<SceneObject>, timeMs: real)
    requires ClipsAdvance(pack) && DueLifetimesOk(pack, events, rules, timeMs) && Sorted(objects, DifferentItems)
    ensures var stage := ReferenceRun(host, pack, events, rules, objects, timeMs).state;
            ParentsBeforeChildren(stage.objects, stage.visualTracks, timeMs) ==>
              forall k: nat | k < |stage.objects| :: DrawnInPlace(host, stage, timeMs, k)
  {
    ReachedStageOk(host, pack, events, rules, objects, timeMs);
    var stage := ReferenceRun(host, pack, events, rules, objects, timeMs).state;
    if ParentsBeforeChildren(stage.objects, stage.visualTracks, timeMs) {
      forall k: nat | k < |stage.objects| ensures DrawnInPlace(host, stage, timeMs, k) {
        OkScenePositions(host, stage, timeMs, k);
      }
    }
  }

  lemma OkScenePositions(host: Host, stage: Stage, timeMs: real, k: nat)
    requires StageOk(stage, timeMs) && k < |stage.objects|
    requires ParentsBeforeChildren(stage.objects, stage.visualTracks, timeMs)
    ensures DrawnInPlace(host, stage, timeMs, k)
  {
    ScenePositions(host, stage.objects, stage.visualTracks, timeMs, k);
    LastMotionWins(host, stage.objects, stage.visualTracks, timeMs, k);
    hide SampleObjects, MotionSample, MoveAll;
  }

  // ---------------------------------------------------------- moving to an object

  /** The track `moveToObject` adds leaves from where the mover is drawn and leads to where
      the target is drawn, plus the offset. */
  lemma MoveToObjectTrack(host: Host, stage: Stage, source: ScheduledAction)
    requires source.action.MoveToObject?
    requires FindObject(stage.objects, source.action.targetId).Some?
             && FindObject(stage.objects, source.action.targetObjectId).Some?
    ensures var track := TrackOf(host, stage, source);
            var mover := FindSampledObject(host, stage, source.action.targetId, source.runAt);
            var target := FindSampledObject(host, stage, source.action.targetObjectId, source.runAt);
            && track.Some? && mover.Some? && target.Some?
            && TrackWarnings(host, stage, source) == stage
            && track.value.objectId == mover.value.id == FindObject(stage.objects, source.action.targetId).value.id
            && (source.action.durationMs > 0.0 ==> StartsFrom(track.value, source.runAt, Position(mover.value)))
            && track.value.to == PointRecord(Plus(Position(target.value), source.action.offset))
  {
    hide FindSampledObject, FindObject;
    SampledIsLive(host, stage, source.action.targetId, source.runAt);
    SampledIsLive(host, stage, source.action.targetObjectId, source.runAt);
  }

  /** `moveToObject` does not make anything jump. With a positive duration, an unused track id
      and no visible attachment on what answers to the mover's id, the picture of the moment
      is unchanged if and only if all that answers to the mover's id is drawn at its place. */
  lemma MoveToObjectDoesNotJump(host: Host, pack: AssetPack, stage: Stage, source: ScheduledAction)
    requires source.action.MoveToObject? && source.action.durationMs > 0.0
    requires StageOk(stage, source.runAt)
    requires FindObject(stage.objects, source.action.targetId).Some?
             && FindObject(stage.objects, source.action.targetObjectId).Some?
    requires forall track | track in stage.visualTracks :: track.id != TrackId(host, source, "move_to_object")
    requires var moverId := FindObject(stage.objects, source.action.targetId).value.id;
             forall i | 0 <= i < |stage.objects| && Answers(stage.objects[i], moverId) ::
               Unattached(stage.objects, stage.visualTracks, source.runAt, i)
    ensures var next := ApplyAction(host, pack, stage, source);
            var mover := FindSampledObject(host, stage, source.action.targetId, source.runAt);
            var before := SampleObjects(host, stage.objects, stage.visualTracks, source.runAt);
            && mover.Some?
            && (SampleObjects(host, next.objects, next.visualTracks, source.runAt) == before <==>
                  forall i | 0 <= i < |stage.objects| && Answers(stage.objects[i], mover.value.id) ::
                    Position(before[i]) == Position(mover.value))
  {
    MoveToObjectTrack(host, stage, source);
    var track := TrackOf(host, stage, source).value;
    var mover := FindSampledObject(host, stage, source.action.targetId, source.runAt).value;
    MoveToObjectAdds(host, pack, stage, source);
    SortOfSorted(stage.visualTracks, StartsNoLater);
    assert forall other | other in stage.visualTracks :: other.startTimeMs <= source.runAt;
    hide TrackOf, FindSampledObject, SampleObjects, StageOk, ApplyAction;
    StartingMoveIsInvisible(host, stage.objects, stage.visualTracks, track, source.runAt, Position(mover));
  }

  lemma MoveToObjectAdds(host: Host, pack: AssetPack, stage: Stage, source: ScheduledAction)
    requires source.action.MoveToObject?
    requires FindObject(stage.objects, source.action.targetId).Some?
             && FindObject(stage.objects, source.action.targetObjectId).Some?
    requires forall track | track in stage.visualTracks :: track.id != TrackId(host, source, "move_to_object")
    ensures TrackOf(host, stage, source).Some?
    ensures ApplyAction(host, pack, stage, source)
            == stage.(visualTracks := stage.visualTracks + [TrackOf(host, stage, source).value])
  {
    MoveToObjectTrack(host, stage, source);
    var track := TrackOf(host, stage, source).value;
    assert track.id == TrackId(host, source, "move_to_object") by { hide FindSampledObject; }
    KeepAll(stage.visualTracks, (existing: VisualTrack) => existing.id != track.id);
    hide TrackOf, TrackWarnings;
    assert ApplyAction(host, pack, stage, source) == ApplyTrack(host, stage, source);
  }

  /** The attachment an action added still draws its object at its target's drawn place plus
      the offset: in every stage that holds its track, from its start to its end, while no
      later attachment acts on the object and the target is attached by earlier tracks only. */
  lemma AttachmentHolds(host: Host, stage: Stage, source: ScheduledAction, later: Stage, t: real, n: nat, k: nat,
                        p: nat)
    requires source.action.AttachToObject? && TrackOf(host, stage, source).Some?
    requires StageOk(later, t) && n < |later.visualTracks|
             && later.visualTracks[n] == TrackOf(host, stage, source).value
    requires source.runAt <= t && (source.action.showMs.Some? ==> t <= source.runAt + source.action.showMs.value)
    requires k < |later.objects| && Answers(later.objects[k], later.visualTracks[n].objectId)
    requires p < |later.objects| && later.objects[p].id != ""
             && later.visualTracks[n].targetObjectId == Some(later.objects[p].id)
    requires SettledBefore(later.objects, later.visualTracks, t, n + 1, k)
    requires SettledBefore(later.objects, later.visualTracks, t, n, p)
    ensures var drawn := SampleObjects(host, later.objects, later.visualTracks, t);
            Position(drawn[k]) == Plus(Position(drawn[p]), source.action.offset)
  {
    AttachTrackShows(host, stage, source, t);
    hide TrackOf, SampleObjects;
    IsFoundById(later.objects, p);
    AttachedSitsAtParent(host, later.objects, later.visualTracks, t, n, k, p);
  }

  lemma AttachTrackShows(host: Host, stage: Stage, source: ScheduledAction, t: real)
    requires source.action.AttachToObject? && TrackOf(host, stage, source).Some?
    requires source.runAt <= t && (source.action.showMs.Some? ==> t <= source.runAt + source.action.showMs.value)
    ensures var track := TrackOf(host, stage, source).value;
            track.offset == source.action.offset && (Truthy(track.targetObjectId) ==> AttachesAt(track, t))
  {
    hide FindObject;
  }

  /** `attachToObject` takes effect at once, and in the stage it leaves it holds until its end:
      its object is drawn at its target's drawn place plus the offset, if the target is
      another object that no attachment starting now or later acts on. */
  lemma AttachTakesEffect(host: Host, pack: AssetPack, stage: Stage, source: ScheduledAction, t: real, k: nat, p: nat)
    requires source.action.AttachToObject?
    requires source.runAt <= t && (source.action.showMs.Some? ==> t <= source.runAt + source.action.showMs.value)
    requires StageOk(stage, source.runAt) && k < |stage.objects| && p < |stage.objects|
    requires FindObject(stage.objects, source.action.targetId) == Some(stage.objects[k])
    requires FindObject(stage.objects, source.action.targetObjectId) == Some(stage.objects[p])
             && stage.objects[p].id != ""
    requires !Answers(stage.objects[p], stage.objects[k].id)
    requires forall track | track in stage.visualTracks :: track.id != TrackId(host, source, "attach")
    ensures var next := ApplyAction(host, pack, stage, source);
            var drawn := SampleObjects(host, next.objects, next.visualTracks, t);
            next.objects == stage.objects && Position(drawn[k]) == Plus(Position(drawn[p]), source.action.offset)
  {
    AttachAdds(host, pack, stage, source);
    ActionKeepsOk(host, pack, stage, source, source.runAt);
    var next := ApplyAction(host, pack, stage, source);
    LaterIsOk(next, source.runAt, t);
    hide ApplyAction, SampleObjects, TrackOf, StageOk;
    AttachmentHolds(host, stage, source, next, t, |stage.visualTracks|, k, p);
  }

  lemma IsFoundById(objects: seq<SceneObject>, p: nat)
    requires p < |objects|
    ensures FindById(objects, objects[p].id).Some?
  {
  }

  lemma AttachAdds(host: Host, pack: AssetPack, stage: Stage, source: ScheduledAction)
    requires source.action.AttachToObject?
    requires FindObject(stage.objects, source.action.targetId).Some?
             && FindObject(stage.objects, source.action.targetObjectId).Some?
    requires forall track | track in stage.visualTracks :: track.id != TrackId(host, source, "attach")
    ensures TrackOf(host, stage, source).Some?
    ensures ApplyAction(host, pack, stage, source)
            == stage.(visualTracks := stage.visualTracks + [TrackOf(host, stage, source).value])
    ensures var track := TrackOf(host, stage, source).value;
            && (FindObject(stage.objects, source.action.targetObjectId).value.id != ""
                && source.action.showMs.GetOr(0.0) >= 0.0
                ==> AttachesAt(track, source.runAt))
            && track.objectId == FindObject(stage.objects, source.action.targetId).value.id
            && track.targetObjectId == Some(FindObject(stage.objects, source.action.targetObjectId).value.id)
            && track.offset == source.action.offset && track.kind == AttachTrack
            && track.id == TrackId(host, source, "attach")
  {
    var track := TrackOf(host, stage, source).value;
    KeepAll(stage.visualTracks, (existing: VisualTrack) => existing.id != track.id);
    assert ApplyAction(host, pack, stage, source) == ApplyTrack(host, stage, source);
  }

  // ----------------------------------------------------------------- the returned state

  /** The returned state of a run fits together: its objects are the drawn ones, layered from
      bottom to top with ties in stage order; spawned objects and effects are among them; and
      every returned track belongs to one of them. */
  lemma SnapshotFitsTogether(host: Host, stage: Stage, dispatched: seq<DispatchedEvent>, timeMs: real)
    requires StageOk(stage, timeMs)
    ensures var result := Snapshot(host, stage, dispatched, timeMs);
            var drawn := SampleObjects(host, stage.objects, stage.visualTracks, timeMs);
            && IsStableSortOf(result.objects, drawn, NotAbove)
            && (forall item | item in result.spawnedObjects || item in result.activeEffects :: item in result.objects)
            && (forall track | track in result.visualTracks :: HasId(result.objects, track.objectId))
  {
    var drawn := SampleObjects(host, stage.objects, stage.visualTracks, timeMs);
    LayersAreStable(drawn);
    forall track | track in RetainedTracks(stage.visualTracks, timeMs)
      ensures HasId(Sort(drawn, NotAbove), track.objectId) {
      assert track in stage.visualTracks;
      var n :| 0 <= n < |stage.visualTracks| && stage.visualTracks[n] == track;
      assert TrackOk(stage.objects, stage.visualTracks[n], timeMs);
      DrawnHasId(host, stage, timeMs, track.objectId);
    }
    hide SampleObjects, StageOk, IsStableSortOf, HasId, Sort;
  }

  lemma LayersAreStable(drawn: seq<SceneObject>)
    ensures IsStableSortOf(Sort(drawn, NotAbove), drawn, NotAbove)
    ensures forall item | item in drawn :: item in Sort(drawn, NotAbove)
  {
    SortIsStable(drawn, NotAbove);
    SortMultiset(drawn, NotAbove);
    assert forall item | item in drawn :: item in multiset(drawn);
  }

  lemma DrawnHasId(host: Host, stage: Stage, timeMs: real, id: string)
    requires HasId(stage.objects, id)
    ensures HasId(Sort(SampleObjects(host, stage.objects, stage.visualTracks, timeMs), NotAbove), id)
  {
    var drawn := SampleObjects(host, stage.objects, stage.visualTracks, timeMs);
    SamplingKeepsItems(host, stage.objects, stage.visualTracks, timeMs);
    LayersAreStable(drawn);
    hide SampleObjects, Sort;
    var i :| 0 <= i < |stage.objects| && stage.objects[i].id == id;
    assert SameItem(stage.objects[i], drawn[i]);
    var layers := Sort(drawn, NotAbove);
    assert drawn[i] in layers;
    var j :| 0 <= j < |layers| && layers[j] == drawn[i];
  }

  /** A move to an object arrives: in every stage that holds its track, once its duration is
      over, the mover is drawn where the target was drawn at the start plus the offset, while
      no later motion and no attachment acts on the mover. */
  lemma MoveToObjectArrives(host: Host, stage: Stage, source: ScheduledAction, later: Stage, t: real, n: nat, k: nat)
    requires source.action.MoveToObject?
    requires FindObject(stage.objects, source.action.targetId).Some?
    requires FindObject(stage.objects, source.action.targetObjectId).Some?
    requires StageOk(later, t) && n < |later.visualTracks|
    requires Some(later.visualTracks[n]) == TrackOf(host, stage, source)
    requires t >= source.runAt && t >= source.runAt + source.action.durationMs
    requires k < |later.objects| && Answers(later.objects[k], later.visualTracks[n].objectId)
    requires forall m: nat | n < m < |later.visualTracks| :: !Moves(later.objects, later.visualTracks, t, m, k)
    requires Unattached(later.objects, later.visualTracks, t, k)
    ensures var target := FindSampledObject(host, stage, source.action.targetObjectId, source.runAt);
            && target.Some?
            && Position(SampleObjects(host, later.objects, later.visualTracks, t)[k])
               == Plus(Position(target.value), source.action.offset)
  {
    MoveToObjectTrack(host, stage, source);
    MoveToObjectTimes(host, stage, source);
    hide TrackOf, FindSampledObject, SampleObjects, FindObject;
    FinishedMoveRests(host, later.objects, later.visualTracks, t, n, k);
  }

  lemma MoveToObjectTimes(host: Host, stage: Stage, source: ScheduledAction)
    requires source.action.MoveToObject? && TrackOf(host, stage, source).Some?
    ensures var track := TrackOf(host, stage, source).value;
            && track.kind == MoveToTrack
            && track.startTimeMs == source.runAt && track.durationMs == source.action.durationMs
  {
    hide FindSampledObject;
  }

  // -------------------------------------------------- a move that does make things jump

  /** An object "a" and, elsewhere, an object that is also called "a". */
  function TwoNamedA(item: SceneObject): Stage {
    Stage([item.(id := "a", entityId := None, x := 0.0, y := 0.0),
           item.(id := "b", entityId := Some("a"), x := 1.0, y := 0.0)], [], [])
  }

  /** Moving "a" to "b" makes the second object jump to the place of the first. */
  lemma MoveToObjectJumps(host: Host, pack: AssetPack, item: SceneObject, source: ScheduledAction)
    requires source.action == MoveToObject("a", "b", 1.0, Linear, Point(0.0, 0.0), map[])
    ensures var stage := TwoNamedA(item);
            var next := ApplyAction(host, pack, stage, source);
            && StageOk(stage, source.runAt)
            && SampleObjects(host, next.objects, next.visualTracks, source.runAt)
               != SampleObjects(host, stage.objects, stage.visualTracks, source.runAt)
  {
    var stage := TwoNamedA(item);
    assert FindObject(stage.objects, "a") == Some(stage.objects[0]);
    assert FindObject(stage.objects, "b") == Some(stage.objects[1]) by {
      assert stage.objects[1..][0] == stage.objects[1];
    }
    assert SampleObjects(host, stage.objects, [], source.runAt) == stage.objects;
    assert FindSampledObject(host, stage, "a", source.runAt) == Some(stage.objects[0]);
    hide ApplyAction, FindSampledObject, FindObject, SampleObjects;
    MoveToObjectDoesNotJump(host, pack, stage, source);
    assert Answers(stage.objects[1], "a") && Position(stage.objects[1]) != Position(stage.objects[0]);
  }
}
