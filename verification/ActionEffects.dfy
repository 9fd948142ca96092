/** What single actions mean for the stage, and which actions undo which. */
module ActionEffects {
  import opened Wrappers
  import opened Contracts
  import opened StableSort
  import opened TrackRuntime
  import opened Sampling
  import opened SamplingProperties
  import opened Scheduler
  import opened RuntimeState
  import opened Replay
  import opened RuntimeInvariants

  lemma {:induction false} KeepKept<T>(s: seq<T>, p: T -> bool, q: T -> bool)
    requires forall x :: q(x) ==> p(x)
    ensures Keep(Keep(s, p), q) == Keep(s, q)
  {
    if s != [] {
      var front, last := s[..|s| - 1], s[|s| - 1];
      KeepKept(front, p, q);
      KeepSnoc(Keep(front, p), last, q);
    }
  }

  // -------------------------------------------------------------------- updates

  /** An update leaves tracks, the list of objects and every object alone that does not
      answer to its target; of those that do, identity and origin are kept. */
  lemma UpdateTouchesOnlyTargets(host: Host, pack: AssetPack, stage: Stage, source: ScheduledAction, i: nat)
    requires IsUpdate(source.action) && i < |stage.objects|
    ensures var next := ApplyAction(host, pack, stage, source);
            && next.visualTracks == stage.visualTracks
            && |next.objects| == |stage.objects|
            && (!Answers(stage.objects[i], source.action.targetId) ==> next.objects[i] == stage.objects[i])
            && next.objects[i].id == stage.objects[i].id
            && next.objects[i].entityId == stage.objects[i].entityId
            && next.objects[i].kind == stage.objects[i].kind
            && next.objects[i].spawned == stage.objects[i].spawned
  {
    Branches(host, pack, stage, source);
    hide ApplyAction;
    UpdateKeepsIdentity(source, stage.objects[i]);
    hide UpdatedItem;
  }

  lemma UpdateKeepsIdentity(source: ScheduledAction, item: SceneObject)
    requires IsUpdate(source.action)
    ensures var updated := UpdatedItem(source, item);
            updated.id == item.id && updated.entityId == item.entityId && updated.kind == item.kind
                && updated.spawned == item.spawned
  {
  }

  predicate ChangesItems(action: VisualAction) {
    action.ShowObject? || action.HideObject? || action.SetState?
  }

  /** `next` is `stage` with one object rewritten by the update, if it answers to its target. */
  predicate UpdatedAt(source: ScheduledAction, before: SceneObject, after: SceneObject)
    requires IsUpdate(source.action)
  {
    after == if Answers(before, source.action.targetId) then UpdatedItem(source, before) else before
  }

  lemma UpdateApplies(host: Host, pack: AssetPack, stage: Stage, source: ScheduledAction)
    requires ChangesItems(source.action) && FindObject(stage.objects, source.action.targetId).Some?
    ensures var next := ApplyAction(host, pack, stage, source);
            && next == stage.(objects := next.objects)
            && |next.objects| == |stage.objects|
            && forall i | 0 <= i < |stage.objects| :: UpdatedAt(source, stage.objects[i], next.objects[i])
  {
    Branches(host, pack, stage, source);
    hide ApplyAction, UpdatedItem, FindObject;
  }

  lemma {:induction false} UpdatedIsFound(objects: seq<SceneObject>, updated: seq<SceneObject>, id: string)
    requires |objects| == |updated|
    requires forall i | 0 <= i < |objects| :: Answers(objects[i], id) <==> Answers(updated[i], id)
    ensures FindObject(objects, id).Some? <==> FindObject(updated, id).Some?
  {
    if objects != [] {
      assert Answers(objects[0], id) <==> Answers(updated[0], id);
      UpdatedIsFound(objects[1..], updated[1..], id);
    }
  }

  /** The second of two updates of one target finds what the first one left. */
  lemma UpdateTwice(host: Host, pack: AssetPack, stage: Stage, first: ScheduledAction, second: ScheduledAction)
    requires ChangesItems(first.action) && ChangesItems(second.action)
             && first.action.targetId == second.action.targetId
    requires FindObject(stage.objects, first.action.targetId).Some?
    ensures var between := ApplyAction(host, pack, stage, first);
            var next := ApplyAction(host, pack, between, second);
            && next == stage.(objects := next.objects)
            && |next.objects| == |between.objects| == |stage.objects|
            && forall i | 0 <= i < |stage.objects| ::
                 UpdatedAt(first, stage.objects[i], between.objects[i])
                     && UpdatedAt(second, between.objects[i], next.objects[i])
  {
    hide ApplyAction, UpdatedItem;
    UpdateApplies(host, pack, stage, first);
    var between := ApplyAction(host, pack, stage, first);
    forall i | 0 <= i < |stage.objects|
      ensures Answers(stage.objects[i], first.action.targetId) <==> Answers(between.objects[i], first.action.targetId) {
      assert UpdatedAt(first, stage.objects[i], between.objects[i]);
      UpdateKeepsIdentity(first, stage.objects[i]);
    }
    UpdatedIsFound(stage.objects, between.objects, first.action.targetId);
    UpdateApplies(host, pack, between, second);
  }

  /** Showing undoes hiding exactly when everything hidden was visible before. */
  lemma ShowUndoesHide(host: Host, pack: AssetPack, stage: Stage, hiding: ScheduledAction, showing: ScheduledAction)
    requires hiding.action.HideObject? && showing.action == ShowObject(hiding.action.targetId)
    requires FindObject(stage.objects, hiding.action.targetId).Some?
    ensures ApplyAction(host, pack, ApplyAction(host, pack, stage, hiding), showing) == stage <==>
            forall i | 0 <= i < |stage.objects| && Answers(stage.objects[i], hiding.action.targetId) ::
                !stage.objects[i].hidden
  {
    UpdateTwice(host, pack, stage, hiding, showing);
    hide *;
    var between := ApplyAction(host, pack, stage, hiding);
    var next := ApplyAction(host, pack, between, showing);
    forall i | 0 <= i < |stage.objects|
      ensures next.objects[i] == stage.objects[i] <==>
              (Answers(stage.objects[i], hiding.action.targetId) ==> !stage.objects[i].hidden) {
      HiddenThenShown(hiding, showing, stage.objects[i], between.objects[i], next.objects[i]);
    }
    assert next == stage <==> next.objects == stage.objects;
    assert next.objects == stage.objects <==>
        forall i | 0 <= i < |stage.objects| :: next.objects[i] == stage.objects[i];
  }

  lemma HiddenThenShown(hiding: ScheduledAction, showing: ScheduledAction, before: SceneObject, between: SceneObject,
                        after: SceneObject)
    requires hiding.action.HideObject? && showing.action == ShowObject(hiding.action.targetId)
    requires UpdatedAt(hiding, before, between) && UpdatedAt(showing, between, after)
    ensures Answers(before, hiding.action.targetId) ==> between.hidden && after == before.(hidden := false)
    ensures !Answers(before, hiding.action.targetId) ==> after == before
  {
  }

  /** Entering a state an object is already in, at whatever time, does not restart its
      animation or change anything else. */
  lemma ReenteringStateChangesNothing(host: Host, pack: AssetPack, stage: Stage, first: ScheduledAction,
                                      again: ScheduledAction)
    requires first.action.SetState? && again.action == first.action
    requires FindObject(stage.objects, first.action.targetId).Some?
    ensures ApplyAction(host, pack, ApplyAction(host, pack, stage, first), again)
            == ApplyAction(host, pack, stage, first)
  {
    UpdateTwice(host, pack, stage, first, again);
    UpdateApplies(host, pack, stage, first);
    hide *;
    var once := ApplyAction(host, pack, stage, first);
    var twice := ApplyAction(host, pack, once, again);
    forall i | 0 <= i < |stage.objects| ensures once.objects[i] == twice.objects[i] {
      EnteredTwice(first, again, stage.objects[i], once.objects[i], twice.objects[i]);
    }
    assert once.objects == twice.objects;
  }

  lemma EnteredTwice(first: ScheduledAction, again: ScheduledAction, before: SceneObject, once: SceneObject,
                     twice: SceneObject)
    requires first.action.SetState? && again.action == first.action
    requires UpdatedAt(first, before, once) && UpdatedAt(again, once, twice)
    ensures once == twice
    ensures Answers(before, first.action.targetId) ==> once.state == first.action.state
  {
  }

  // ------------------------------------------------------------ tracks put on and taken off

  /** The stage holds no track of this kind for the object. */
  predicate NoTrack(stage: Stage, objectId: string, kind: TrackKind) {
    forall track | track in stage.visualTracks :: !(track.objectId == objectId && track.kind == kind)
  }

  predicate FreshTrackId(stage: Stage, id: string) {
    forall track | track in stage.visualTracks :: track.id != id
  }

  lemma TakenOffAgain(stage: Stage, id: string, track: VisualTrack)
    requires FreshTrackId(stage, track.id)
    requires FindObject(stage.objects, id).Some? && track.objectId == FindObject(stage.objects, id).value.id
    ensures RemoveTracksForObject(stage.(visualTracks := stage.visualTracks + [track]), id, track.kind) == stage <==>
            NoTrack(stage, track.objectId, track.kind)
  {
    hide FindObject, Keep;
    var spared := (other: VisualTrack) => other.objectId != track.objectId || other.kind != track.kind;
    KeepSnoc(stage.visualTracks, track, spared);
    var removed := RemoveTracksForObject(stage.(visualTracks := stage.visualTracks + [track]), id, track.kind);
    assert removed.visualTracks == Keep(stage.visualTracks, spared) + [];
    if NoTrack(stage, track.objectId, track.kind) {
      KeepAll(stage.visualTracks, spared);
    }
    if removed == stage {
      forall other | other in stage.visualTracks ensures !(other.objectId == track.objectId
          && other.kind == track.kind) {
        assert other in Keep(stage.visualTracks, spared);
      }
    }
  }

  /** Detaching right after attaching restores the stage exactly when the object was not
      attached before: a detachment takes off all attachments of the object. */
  lemma DetachUndoesAttach(host: Host, pack: AssetPack, stage: Stage, attach: ScheduledAction, detach: ScheduledAction)
    requires attach.action.AttachToObject? && detach.action == DetachFromObject(attach.action.targetId)
    requires FindObject(stage.objects, attach.action.targetId).Some?
             && FindObject(stage.objects, attach.action.targetObjectId).Some?
    requires FreshTrackId(stage, TrackId(host, attach, "attach"))
    ensures ApplyAction(host, pack, ApplyAction(host, pack, stage, attach), detach) == stage <==>
            NoTrack(stage, FindObject(stage.objects, attach.action.targetId).value.id, AttachTrack)
  {
    hide ApplyAction, TrackOf, FindObject, RemoveTracksForObject, NoTrack;
    AttachAdds(host, pack, stage, attach);
    Branches(host, pack, ApplyAction(host, pack, stage, attach), detach);
    TakenOffAgain(stage, attach.action.targetId, TrackOf(host, stage, attach).value);
  }

  /** Likewise for route trails. */
  lemma HideTrailUndoesShowTrail(host: Host, pack: AssetPack, stage: Stage, show: ScheduledAction,
                                 cover: ScheduledAction)
    requires show.action.ShowRouteTrail? && cover.action == HideRouteTrail(show.action.targetId)
    requires |show.action.path| >= 2 && FindObject(stage.objects, show.action.targetId).Some?
    requires FreshTrackId(stage, TrackId(host, show, "route_trail"))
    ensures ApplyAction(host, pack, ApplyAction(host, pack, stage, show), cover) == stage <==>
            NoTrack(stage, FindObject(stage.objects, show.action.targetId).value.id, RouteTrailTrack)
  {
    hide ApplyAction, TrackOf, FindObject, RemoveTracksForObject, NoTrack;
    TrailAdds(host, pack, stage, show);
    Branches(host, pack, ApplyAction(host, pack, stage, show), cover);
    TakenOffAgain(stage, show.action.targetId, TrackOf(host, stage, show).value);
  }

  lemma TrailAdds(host: Host, pack: AssetPack, stage: Stage, show: ScheduledAction)
    requires show.action.ShowRouteTrail? && |show.action.path| >= 2
             && FindObject(stage.objects, show.action.targetId).Some?
    requires FreshTrackId(stage, TrackId(host, show, "route_trail"))
    ensures TrackOf(host, stage, show).Some?
    ensures var track := TrackOf(host, stage, show).value;
            && ApplyAction(host, pack, stage, show) == stage.(visualTracks := stage.visualTracks + [track])
            && track.objectId == FindObject(stage.objects, show.action.targetId).value.id
            && track.kind == RouteTrailTrack && track.id == TrackId(host, show, "route_trail")
  {
    hide ApplyAction, FindObject, AddVisualTrack;
    Branches(host, pack, stage, show);
    AddFresh(stage, TrackOf(host, stage, show).value);
  }

  // ------------------------------------------------------- objects put in and taken out

  predicate FreshObjectId(stage: Stage, id: string) {
    forall item | item in stage.objects :: !Answers(item, id)
  }

  /** Removing an object by its id takes out all that answers to the id, and the tracks of
      what is gone. */
  lemma RemoveById(host: Host, stage: Stage, id: string, source: ScheduledAction)
    requires id != "" && FindObject(stage.objects, id).Some?
    ensures var next := RemoveObjects(host, stage, Some(id), None, None, source);
            && next.objects == Keep(stage.objects, (item: SceneObject) => !Answers(item, id))
            && next.visualTracks
                == Keep(stage.visualTracks, (track: VisualTrack) => HasId(next.objects, track.objectId))
            && next.warnings == stage.warnings
            && FreshObjectId(next, id)
  {
    var spared := (item: SceneObject) => !Selected(item, Some(id), None, None);
    KeepAlike(stage.objects, spared, (item: SceneObject) => !Answers(item, id));
    if |Keep(stage.objects, spared)| == |stage.objects| {
      KeepSameLength(stage.objects, spared);
    }
  }

  lemma InsertFresh(stage: Stage, item: SceneObject)
    requires FreshObjectId(stage, item.id)
    ensures InsertOrReplaceObject(stage, item) == stage.(objects := stage.objects + [item])
  {
    KeepAll(stage.objects, (existing: SceneObject) => existing.id != item.id);
  }

  lemma AddFresh(stage: Stage, track: VisualTrack)
    requires FreshTrackId(stage, track.id)
    ensures AddVisualTrack(stage, track) == stage.(visualTracks := stage.visualTracks + [track])
  {
    KeepAll(stage.visualTracks, (existing: VisualTrack) => existing.id != track.id);
  }

  /** The tracks a spawning adds. */
  function SpawnTracks(host: Host, pack: AssetPack, stage: Stage, source: ScheduledAction): seq<VisualTrack>
    requires IsSpawn(source.action) && SpawnedBy(host, pack, stage, source).Some?
  {
    if source.action.SpawnAttachedEffect? then
      [AttachedEffectTrack(host, source, SpawnedBy(host, pack, stage, source).value.id,
                           FindObject(stage.objects, source.action.targetId).value.id)]
    else []
  }

  /** A spawning adds its object last and, for an attached effect, one track of that object. */
  lemma SpawnAdds(host: Host, pack: AssetPack, stage: Stage, source: ScheduledAction)
    requires IsSpawn(source.action) && SpawnedBy(host, pack, stage, source).Some?
    requires FreshObjectId(stage, SpawnedBy(host, pack, stage, source).value.id)
    requires source.action.SpawnAttachedEffect? ==> FreshTrackId(stage, TrackId(host, source, "attached_effect"))
    ensures var next := ApplyAction(host, pack, stage, source);
            && next.objects == stage.objects + [SpawnedBy(host, pack, stage, source).value]
            && next.visualTracks == stage.visualTracks + SpawnTracks(host, pack, stage, source)
  {
    Branches(host, pack, stage, source);
    var spawned := SpawnedBy(host, pack, stage, source).value;
    if source.action.SpawnAttachedEffect? {
      hide ApplyAction, InsertOrReplaceObject, AddVisualTrack, SpawnedBy, FindObject;
      InsertFresh(stage, spawned);
      AddFresh(InsertOrReplaceObject(stage, spawned), SpawnTracks(host, pack, stage, source)[0]);
    } else {
      hide ApplyAction, InsertOrReplaceObject, SpawnedBy, FindObject;
      InsertFresh(ClipWarning(host, pack, stage, spawned.currentAnimationId, source), spawned);
    }
  }

  lemma AddedThenRemoved(objects: seq<SceneObject>, item: SceneObject, id: string)
    requires Answers(item, id) && forall o | o in objects :: !Answers(o, id)
    ensures Keep(objects + [item], (o: SceneObject) => !Answers(o, id)) == objects
  {
    KeepSnoc(objects, item, (o: SceneObject) => !Answers(o, id));
    KeepAll(objects, (o: SceneObject) => !Answers(o, id));
  }

  lemma OnlyLiveTracksStay(objects: seq<SceneObject>, tracks: seq<VisualTrack>, added: seq<VisualTrack>)
    requires forall i | 0 <= i < |tracks| :: HasId(objects, tracks[i].objectId)
    requires forall track | track in added :: !HasId(objects, track.objectId)
    ensures Keep(tracks + added, (track: VisualTrack) => HasId(objects, track.objectId)) == tracks
  {
    var live := (track: VisualTrack) => HasId(objects, track.objectId);
    KeepAppend(tracks, added, live);
    KeepAll(tracks, live);
    KeepNone(added, live);
  }

  /** The removal a lifetime schedules undoes the spawning: with fresh ids, objects and
      tracks are as they were before the object came. */
  lemma LifetimeUndoesSpawn(host: Host, pack: AssetPack, stage: Stage, source: ScheduledAction)
    requires ClipsAdvance(pack) && StageOk(stage, source.runAt)
    requires IsSpawn(source.action) && LifetimeOf(source.action).Some?
    requires SpawnedBy(host, pack, stage, source).Some?
    requires var id := SpawnedBy(host, pack, stage, source).value.id; id != "" && FreshObjectId(stage, id)
    requires source.action.SpawnAttachedEffect? ==> FreshTrackId(stage, TrackId(host, source, "attached_effect"))
    ensures var pushed := FollowUps(host, pack, stage, source);
            && pushed != []
            && var removal := pushed[|pushed| - 1];
            && removal.runAt == source.runAt + LifetimeOf(source.action).value
            && var after := ApplyAction(host, pack, ApplyAction(host, pack, stage, source), removal);
            && after.objects == stage.objects
            && after.visualTracks == stage.visualTracks
  {
    hide *;
    LifetimeRemovalIsLast(host, pack, stage, source);
    SpawnAdds(host, pack, stage, source);
    SpawnTracksBelong(host, pack, stage, source);
    OkTracksLive(stage, source.runAt);
    var spawned := SpawnedBy(host, pack, stage, source).value;
    var pushed := FollowUps(host, pack, stage, source);
    var removal := pushed[|pushed| - 1];
    var next := ApplyAction(host, pack, stage, source);
    Branches(host, pack, next, removal);
    TakenOutAgain(host, stage, next, SpawnTracks(host, pack, stage, source), spawned, removal);
  }

  lemma SpawnTracksBelong(host: Host, pack: AssetPack, stage: Stage, source: ScheduledAction)
    requires IsSpawn(source.action) && SpawnedBy(host, pack, stage, source).Some?
    ensures forall track | track in SpawnTracks(host, pack, stage, source) ::
              track.objectId == SpawnedBy(host, pack, stage, source).value.id
  {
    hide SpawnedBy;
  }

  lemma OkTracksLive(stage: Stage, now: real)
    requires StageOk(stage, now)
    ensures forall i | 0 <= i < |stage.visualTracks| :: HasId(stage.objects, stage.visualTracks[i].objectId)
  {
    assert forall i | 0 <= i < |stage.visualTracks| :: TrackOk(stage.objects, stage.visualTracks[i], now);
  }

  /** Whatever runs between a spawning and the end of its lifetime: the removal then takes out
      exactly what answers to the spawned id, with the tracks of what is gone, and touches
      nothing else; if the object is gone already, objects and tracks stay as they are. */
  lemma LifetimeEndsObject(host: Host, pack: AssetPack, stage: Stage, source: ScheduledAction,
                           between: seq<ScheduledAction>)
    requires ClipsAdvance(pack) && IsSpawn(source.action) && LifetimeOf(source.action).Some?
    requires SpawnedBy(host, pack, stage, source).Some? && SpawnedBy(host, pack, stage, source).value.id != ""
    ensures var id := SpawnedBy(host, pack, stage, source).value.id;
            var pushed := FollowUps(host, pack, stage, source);
            && pushed != []
            && var before := ApplyAll(RuntimeEngine(host, pack), ApplyAction(host, pack, stage, source), between);
            var after := ApplyAction(host, pack, before, pushed[|pushed| - 1]);
            && FreshObjectId(after, id)
            && after.objects == Keep(before.objects, (item: SceneObject) => !Answers(item, id))
            && after.visualTracks == (if FindObject(before.objects, id).None? then before.visualTracks
                                      else Keep(before.visualTracks,
                                          (track: VisualTrack) => HasId(after.objects, track.objectId)))
  {
    hide *;
    LifetimeRemovalIsLast(host, pack, stage, source);
    var before := ApplyAll(RuntimeEngine(host, pack), ApplyAction(host, pack, stage, source), between);
    var pushed := FollowUps(host, pack, stage, source);
    RemovalEndsObject(host, pack, before, SpawnedBy(host, pack, stage, source).value.id, pushed[|pushed| - 1]);
  }

  lemma RemovalEndsObject(host: Host, pack: AssetPack, before: Stage, id: string, removal: ScheduledAction)
    requires removal.action == RemoveObject(Some(id), None, None) && id != ""
    ensures var after := ApplyAction(host, pack, before, removal);
            && FreshObjectId(after, id)
            && after.objects == Keep(before.objects, (item: SceneObject) => !Answers(item, id))
            && after.visualTracks == (if FindObject(before.objects, id).None? then before.visualTracks
                                      else Keep(before.visualTracks,
                                          (track: VisualTrack) => HasId(after.objects, track.objectId)))
  {
    Branches(host, pack, before, removal);
    hide ApplyAction, RemoveObjects, FindObject;
    if FindObject(before.objects, id).Some? {
      RemoveById(host, before, id, removal);
    } else {
      NothingToRemove(host, before, id, removal);
    }
  }

  lemma NothingToRemove(host: Host, stage: Stage, id: string, source: ScheduledAction)
    requires id != "" && FindObject(stage.objects, id).None?
    ensures var next := RemoveObjects(host, stage, Some(id), None, None, source);
            && next.objects == stage.objects && next.visualTracks == stage.visualTracks
            && stage.objects == Keep(stage.objects, (item: SceneObject) => !Answers(item, id))
            && FreshObjectId(stage, id)
  {
    KeepAll(stage.objects, (item: SceneObject) => !Answers(item, id));
    KeepAll(stage.objects, (item: SceneObject) => !Selected(item, Some(id), None, None));
  }

  lemma LifetimeRemovalIsLast(host: Host, pack: AssetPack, stage: Stage, source: ScheduledAction)
    requires ClipsAdvance(pack) && IsSpawn(source.action) && LifetimeOf(source.action).Some?
    requires SpawnedBy(host, pack, stage, source).Some?
    ensures var pushed := FollowUps(host, pack, stage, source);
            && pushed != []
            && pushed[|pushed| - 1].action
                == RemoveObject(Some(SpawnedBy(host, pack, stage, source).value.id), None, None)
            && pushed[|pushed| - 1].runAt == source.runAt + LifetimeOf(source.action).value
  {
    hide SpawnedBy, CompletionOf;
  }

  lemma TakenOutAgain(host: Host, stage: Stage, next: Stage, added: seq<VisualTrack>, spawned: SceneObject,
                      removal: ScheduledAction)
    requires forall i | 0 <= i < |stage.visualTracks| :: HasId(stage.objects, stage.visualTracks[i].objectId)
    requires spawned.id != "" && FreshObjectId(stage, spawned.id)
    requires next.objects == stage.objects + [spawned] && next.visualTracks == stage.visualTracks + added
    requires forall track | track in added :: track.objectId == spawned.id
    ensures var after := RemoveObjects(host, next, Some(spawned.id), None, None, removal);
            after.objects == stage.objects && after.visualTracks == stage.visualTracks
  {
    hide RemoveObjects, FindObject;
    assert spawned in next.objects && Answers(spawned, spawned.id);
    RemoveById(host, next, spawned.id, removal);
    AddedThenRemoved(stage.objects, spawned, spawned.id);
    assert forall i | 0 <= i < |stage.objects| :: !Answers(stage.objects[i], spawned.id);
    assert !HasId(stage.objects, spawned.id);
    OnlyLiveTracksStay(stage.objects, stage.visualTracks, added);
  }

  /** A despawning object leaves the stage with all that answers to its id, and with their
      tracks; an object without an id is only moved and stays. */
  lemma DespawnRemoves(host: Host, pack: AssetPack, stage: Stage, source: ScheduledAction)
    requires source.action.DespawnAtObject?
    requires FindObject(stage.objects, source.action.targetId).Some?
             && FindObject(stage.objects, source.action.targetObjectId).Some?
    ensures var next := ApplyAction(host, pack, stage, source);
            var id := FindObject(stage.objects, source.action.targetId).value.id;
            && (id != "" ==>
                  && next.objects == Keep(stage.objects, (item: SceneObject) => !Answers(item, id))
                  && next.visualTracks
                      == Keep(stage.visualTracks, (track: VisualTrack) => HasId(next.objects, track.objectId))
                  && next.warnings == stage.warnings)
            && (FreshObjectId(next, id) <==> id != "")
  {
    DespawnDocksFirst(host, pack, stage, source);
    var docked := DockedObject(host, stage, source).value;
    var id := docked.id;
    DockedIsInserted(stage, docked);
    hide ApplyAction, DockedObject, FindObject, InsertOrReplaceObject, RemoveObjects;
    var inserted := InsertOrReplaceObject(stage, docked);
    if id != "" {
      RemoveById(host, inserted, id, source);
    } else {
      NothingSelected(host, inserted, source);
      assert docked in inserted.objects;
    }
  }

  lemma NothingSelected(host: Host, stage: Stage, source: ScheduledAction)
    ensures RemoveObjects(host, stage, Some(""), None, None, source).objects == stage.objects
  {
  }

  lemma DockedIsInserted(stage: Stage, docked: SceneObject)
    ensures var inserted := InsertOrReplaceObject(stage, docked);
            && docked in inserted.objects && Answers(docked, docked.id)
            && FindObject(inserted.objects, docked.id).Some?
            && inserted.visualTracks == stage.visualTracks && inserted.warnings == stage.warnings
            && Keep(inserted.objects, (item: SceneObject) => !Answers(item, docked.id))
               == Keep(stage.objects, (item: SceneObject) => !Answers(item, docked.id))
  {
    var others := (existing: SceneObject) => existing.id != docked.id;
    var spared := (item: SceneObject) => !Answers(item, docked.id);
    KeepSnoc(Keep(stage.objects, others), docked, spared);
    KeepKept(stage.objects, others, spared);
    hide Keep, FindObject;
    assert docked in InsertOrReplaceObject(stage, docked).objects;
  }

  lemma DespawnDocksFirst(host: Host, pack: AssetPack, stage: Stage, source: ScheduledAction)
    requires source.action.DespawnAtObject?
    requires FindObject(stage.objects, source.action.targetId).Some?
             && FindObject(stage.objects, source.action.targetObjectId).Some?
    ensures var docked := DockedObject(host, stage, source);
            && docked.Some?
            && docked.value.id == FindObject(stage.objects, source.action.targetId).value.id
            && ApplyAction(host, pack, stage, source)
               == RemoveObjects(host, InsertOrReplaceObject(stage, docked.value), Some(docked.value.id), None, None,
                   source)
  {
    Branches(host, pack, stage, source);
    SampledIsLive(host, stage, source.action.targetObjectId, source.runAt);
    hide ApplyAction, FindSampledObject, FindObject, InsertOrReplaceObject, RemoveObjects;
    assert DespawnWarnings(host, stage, source) == stage;
  }
}
