/** What the validator reports of each kind of action, in terms of the action's own fields. */
module ValidatorReports {
  import opened Wrappers
  import opened Contracts
  import opened AuthoringValidation

  // ----------------------------------------------------- the fields of each kind of action

  /** The objects an action refers to, in the order in which they are checked. */
  function References(action: VisualAction): seq<string> {
    match action
    case SetState(id, _) => [id]
    case ShowObject(id) => [id]
    case HideObject(id) => [id]
    case PlayAnimation(id, _, _, _) => [id]
    case SpawnEffect(_, near, _, _, _, _, _, _, _, follower, _) =>
      OneIf(near) + (if follower.Some? then OneIf(follower.value) else [])
    case SpawnObject(_, _, near, _, _, _, _, _, _) => OneIf(near)
    case SpawnFromObject(_, _, from, _, _, _, _, _) => [from]
    case RemoveObject(victim, _, _) => OneIf(victim)
    case SetProperty(id, _, _) => [id]
    case MoveTo(id, _, _, _, _, _) => [id]
    case MoveToObject(id, target, _, _, _, _) => [id, target]
    case MoveAlongPath(id, _, _, _, _) => [id]
    case OrbitAround(id, target, _, _, _, _, _) => [id, target]
    case AttachToObject(id, target, _, _, _) => [id, target]
    case DetachFromObject(id) => [id]
    case DespawnAtObject(id, target, _) => [id, target]
    case SpawnAttachedEffect(_, id, _, _, _, _, _, _, _) => [id]
    case ShowRouteTrail(id, _, _, _) => [id]
    case HideRouteTrail(id) => [id]
  }

  function OneIf(id: Option<string>): seq<string> { if id.Some? then [id.value] else [] }

  function MissingReferences(ruleId: string, ids: seq<string>, known: set<string>): seq<string> {
    if ids == [] then []
    else
      (if ids[0] != "" && ids[0] !in known then [ruleId + " targets missing object " + ids[0] + "."] else [])
      + MissingReferences(ruleId, ids[1..], known)
  }

  /** The clip an action names. */
  function ClipNamed(action: VisualAction): seq<string> {
    match action
    case PlayAnimation(_, clip, _, _) => [clip]
    case SpawnEffect(_, _, _, _, _, clip, _, _, _, _, _) => OneIf(clip)
    case SpawnAttachedEffect(_, _, _, _, _, clip, _, _, _) => OneIf(clip)
    case _ => []
  }

  function PresetNamed(action: VisualAction): seq<string> {
    match action
    case SpawnEffect(preset, _, _, _, _, _, _, _, _, _, _) => [preset]
    case SpawnObject(preset, _, _, _, _, _, _, _, _) => [preset]
    case SpawnFromObject(preset, _, _, _, _, _, _, _) => [preset]
    case SpawnAttachedEffect(preset, _, _, _, _, _, _, _, _) => [preset]
    case _ => []
  }

  /** The id an action gives to what it spawns is this one. */
  predicate Gives(action: VisualAction, id: string) {
    match action
    case SpawnEffect(_, _, given, _, _, _, _, _, _, _, _) => given == Some(id)
    case SpawnObject(_, given, _, _, _, _, _, _, _) => given == id
    case SpawnFromObject(_, given, _, _, _, _, _, _) => given == id
    case SpawnAttachedEffect(_, _, given, _, _, _, _, _, _) => given == Some(id)
    case _ => false
  }

  /** What is reported of a duration at or below zero. */
  function BadDuration(ruleId: string, action: VisualAction): seq<string> {
    match action
    case MoveTo(_, _, _, ms, _, _) =>
      if ms <= 0.0 then [ruleId + " has invalid durationMs on moveTo."] else []
    case MoveToObject(_, _, ms, _, _, _) =>
      if ms <= 0.0 then [ruleId + " has invalid durationMs on moveToObject."] else []
    case MoveAlongPath(_, _, ms, _, _) =>
      if ms <= 0.0 then [ruleId + " has invalid durationMs on moveAlongPath."] else []
    case OrbitAround(_, _, _, ms, _, _, _) =>
      if ms <= 0.0 then [ruleId + " has invalid durationMs on orbitAround."] else []
    case AttachToObject(_, _, _, ms, _) =>
      if ms.Some? && ms.value <= 0.0 then [ruleId + " has invalid durationMs on attachToObject."] else []
    case ShowRouteTrail(_, _, ms, _) =>
      if ms.Some? && ms.value <= 0.0 then [ruleId + " has invalid durationMs on showRouteTrail."] else []
    case _ => []
  }

  function ShortPath(ruleId: string, action: VisualAction): seq<string> {
    match action
    case MoveAlongPath(_, path, _, _, _) =>
      if |path| < 2 then [ruleId + " has a " + "moveAlongPath" + " path with fewer than 2 points."] else []
    case ShowRouteTrail(_, path, _, _) =>
      if |path| < 2 then [ruleId + " has a " + "showRouteTrail" + " path with fewer than 2 points."] else []
    case _ => []
  }

  // --------------------------------------------------------------------- the reports

  lemma ReferencesReported(ruleId: string, action: VisualAction, known: set<string>)
    ensures MissingTarget(ruleId, TargetIdOf(action), known)
            + MissingTarget(ruleId, TargetObjectIdOf(action), known)
            + MissingTarget(ruleId, SourceObjectIdOf(action), known)
            + MissingTarget(ruleId, CompleteTargetIdOf(action), known)
         == MissingReferences(ruleId, References(action), known)
  {
    var t, o, f, c := OneIf(TargetIdOf(action)), OneIf(TargetObjectIdOf(action)), OneIf(SourceObjectIdOf(action)),
                      OneIf(CompleteTargetIdOf(action));
    ReferencesInOrder(action);
    MissingOfBoth(ruleId, t + o + f, c, known);
    MissingOfBoth(ruleId, t + o, f, known);
    MissingOfBoth(ruleId, t, o, known);
    MissingOfOne(ruleId, TargetIdOf(action), known);
    MissingOfOne(ruleId, TargetObjectIdOf(action), known);
    MissingOfOne(ruleId, SourceObjectIdOf(action), known);
    MissingOfOne(ruleId, CompleteTargetIdOf(action), known);
    hide MissingReferences, MissingTarget, References, OneIf;
  }

  lemma ReferencesInOrder(action: VisualAction)
    ensures References(action) == OneIf(TargetIdOf(action)) + OneIf(TargetObjectIdOf(action))
                                  + OneIf(SourceObjectIdOf(action)) + OneIf(CompleteTargetIdOf(action))
  {
  }

  lemma {:induction false} MissingOfBoth(ruleId: string, a: seq<string>, b: seq<string>, known: set<string>)
    ensures MissingReferences(ruleId, a + b, known)
         == MissingReferences(ruleId, a, known) + MissingReferences(ruleId, b, known)
  {
    if a == [] {
      assert a + b == b;
    } else {
      assert (a + b)[1..] == a[1..] + b;
      MissingOfBoth(ruleId, a[1..], b, known);
    }
  }

  lemma MissingOfOne(ruleId: string, one: Option<string>, known: set<string>)
    ensures MissingReferences(ruleId, OneIf(one), known) == MissingTarget(ruleId, one, known)
  {
    assert one.Some? ==> OneIf(one)[1..] == [];
  }

  lemma DurationReported(ruleId: string, action: VisualAction)
    ensures WarnIf(DurationOf(action).GetOr(1.0) <= 0.0,
            ruleId + " has invalid durationMs on " + KindName(action) + ".")
         == BadDuration(ruleId, action)
  {
    SameText(ruleId + " has invalid durationMs on ", KindName(action), ".");
    assert ruleId + " has invalid durationMs on " + "moveTo" + "." == ruleId + " has invalid durationMs on moveTo.";
    assert ruleId + " has invalid durationMs on " + "moveToObject" + "."
        == ruleId + " has invalid durationMs on moveToObject.";
    assert ruleId + " has invalid durationMs on " + "moveAlongPath" + "."
        == ruleId + " has invalid durationMs on moveAlongPath.";
    assert ruleId + " has invalid durationMs on " + "orbitAround" + "."
        == ruleId + " has invalid durationMs on orbitAround.";
    assert ruleId + " has invalid durationMs on " + "attachToObject" + "."
        == ruleId + " has invalid durationMs on attachToObject.";
    assert ruleId + " has invalid durationMs on " + "showRouteTrail" + "."
        == ruleId + " has invalid durationMs on showRouteTrail.";
  }

  lemma SameText(a: string, b: string, c: string)
    ensures a + b + c == a + (b + c)
  {
  }

  lemma PathReported(ruleId: string, action: VisualAction)
    ensures PathWarnings(ruleId, action) == ShortPath(ruleId, action)
  {
  }

  /** Everything reported of an action, in order, from its own fields. */
  lemma ActionReports(ruleId: string, action: VisualAction, known: set<string>, clips: set<string>,
                      presets: set<string>)
    ensures ActionWarnings(ruleId, action, known, clips, presets) ==
            MissingReferences(ruleId, References(action), known)
            + (if ClipNamed(action) != [] && ClipNamed(action)[0] != "" && ClipNamed(action)[0] !in clips
               then [ruleId + " references missing animation " + ClipNamed(action)[0] + "."] else [])
            + (if PresetNamed(action) != [] && PresetNamed(action)[0] !in presets
               then [ruleId + " references missing preset " + PresetNamed(action)[0] + "."] else [])
            + ShortPath(ruleId, action)
            + BadDuration(ruleId, action)
  {
    ReferencesReported(ruleId, action, known);
    PathReported(ruleId, action);
    DurationReported(ruleId, action);
    ClipReported(ruleId, action, clips);
    PresetReported(ruleId, action, presets);
    hide References, MissingReferences, MissingTarget, ClipNamed, PresetNamed, ShortPath, PathWarnings, BadDuration;
    hide TargetIdOf, TargetObjectIdOf, SourceObjectIdOf, CompleteTargetIdOf, AnimationIdOf, PresetIdOf, DurationOf,
        KindName;
    hide WarnIf;
  }

  lemma ClipReported(ruleId: string, action: VisualAction, clips: set<string>)
    ensures WarnIf(Truthy(AnimationIdOf(action)) && AnimationIdOf(action).value !in clips,
                   ruleId + " references missing animation " + AnimationIdOf(action).GetOr("") + ".")
         == if ClipNamed(action) != [] && ClipNamed(action)[0] != "" && ClipNamed(action)[0] !in clips
            then [ruleId + " references missing animation " + ClipNamed(action)[0] + "."] else []
  {
  }

  lemma PresetReported(ruleId: string, action: VisualAction, presets: set<string>)
    ensures WarnIf(PresetIdOf(action).Some? && PresetIdOf(action).value !in presets,
                   ruleId + " references missing preset " + PresetIdOf(action).GetOr("") + ".")
         == if PresetNamed(action) != [] && PresetNamed(action)[0] !in presets
            then [ruleId + " references missing preset " + PresetNamed(action)[0] + "."] else []
  {
  }

  // ------------------------------------------------------------------- what is known

  lemma {:induction false} SpawnIdsOfActionsMean(actions: seq<RuleAction>, id: string)
    ensures id in SpawnIdsOfActions(actions) <==>
            id != "" && exists j | 0 <= j < |actions| :: Gives(actions[j].action, id)
  {
    if actions != [] {
      var front, last := actions[..|actions| - 1], actions[|actions| - 1];
      SpawnIdsOfActionsMean(front, id);
      assert actions == front + [last];
      if Gives(last.action, id) {
        assert Gives(actions[|actions| - 1].action, id);
      }
      if j :| 0 <= j < |front| && Gives(front[j].action, id) {
        assert Gives(actions[j].action, id);
      }
      hide Gives;
      GivesIsObjectId(last.action, id);
    }
  }

  lemma GivesIsObjectId(action: VisualAction, id: string)
    ensures Gives(action, id) <==> ObjectIdOf(action) == Some(id)
  {
  }

  /** The ids actions give: those that are not empty. */
  lemma {:induction false} SpawnIdsMean(rules: seq<BindingRule>, id: string)
    ensures id in SpawnIds(rules) <==>
            id != "" && exists i, j | 0 <= i < |rules| && 0 <= j < |rules[i].actions| ::
                Gives(rules[i].actions[j].action, id)
  {
    hide Gives, SpawnIdsOfActions;
    if rules != [] {
      var front, last := rules[..|rules| - 1], rules[|rules| - 1];
      SpawnIdsMean(front, id);
      SpawnIdsOfActionsMean(last.actions, id);
      assert rules == front + [last];
      if j :| 0 <= j < |last.actions| && Gives(last.actions[j].action, id) {
        assert Gives(rules[|rules| - 1].actions[j].action, id);
      }
      if i, j :| 0 <= i < |front| && 0 <= j < |front[i].actions| && Gives(front[i].actions[j].action, id) {
        assert Gives(rules[i].actions[j].action, id);
      }
    }
  }

  /** The names of the scene: the ids and entity ids of its objects that are not empty. */
  lemma {:induction false} SceneNamesMean(objects: seq<SceneObject>, id: string)
    ensures id in SceneNames(objects) <==>
            id != "" && exists i | 0 <= i < |objects| :: objects[i].id == id || objects[i].entityId == Some(id)
  {
    if objects != [] {
      var front, last := objects[..|objects| - 1], objects[|objects| - 1];
      SceneNamesMean(front, id);
      assert objects == front + [last];
      if last.id == id || last.entityId == Some(id) {
        assert objects[|objects| - 1].id == id || objects[|objects| - 1].entityId == Some(id);
      }
      if i :| 0 <= i < |front| && (front[i].id == id || front[i].entityId == Some(id)) {
        assert objects[i].id == id || objects[i].entityId == Some(id);
      }
    }
  }

  // ----------------------------------------------------------------------- duplicates

  /** The element occurs once before this place: it is repeated here for the first time. */
  predicate RepeatsAt(ids: seq<string>, k: nat) {
    k < |ids| && multiset(ids[..k])[ids[k]] == 1
  }

  lemma {:induction false} DuplicatedIff(ids: seq<string>, x: string)
    ensures x in Duplicates(ids) <==> multiset(ids)[x] >= 2
  {
    if ids != [] {
      var front, last := ids[..|ids| - 1], ids[|ids| - 1];
      DuplicatedIff(front, x);
      DuplicatedIff(front, last);
      assert ids == front + [last];
      assert last in front <==> multiset(front)[last] >= 1;
    }
  }

  /** The duplicates are listed once each, in the order of their first repetitions. */
  lemma {:induction false} DuplicatesMean(ids: seq<string>) returns (places: seq<nat>)
    ensures forall i, j | 0 <= i < j < |places| :: places[i] < places[j]
    ensures forall k: nat :: k in places <==> RepeatsAt(ids, k)
    ensures |Duplicates(ids)| == |places|
    ensures forall i | 0 <= i < |places| :: places[i] < |ids| && Duplicates(ids)[i] == ids[places[i]]
  {
    hide RepeatsAt;
    if ids == [] {
      places := [];
      forall k: nat ensures !RepeatsAt(ids, k) {
        RepeatsInside(ids, k);
      }
    } else {
      var n := |ids| - 1;
      var front, last := ids[..n], ids[n];
      var before := DuplicatesMean(front);
      LastRepeats(ids);
      places := before;
      forall k: nat ensures k in before <==> k < n && RepeatsAt(ids, k) {
        RepeatsInFront(ids, k);
      }
      forall k: nat ensures RepeatsAt(ids, k) ==> k <= n {
        RepeatsInside(ids, k);
      }
      if RepeatsAt(ids, n) {
        places := before + [n];
        ListedNext(before, n);
      }
    }
  }

  lemma ListedNext(places: seq<nat>, n: nat)
    requires forall i, j | 0 <= i < j < |places| :: places[i] < places[j]
    requires forall i | 0 <= i < |places| :: places[i] < n
    ensures forall i, j | 0 <= i < j <= |places| :: (places + [n])[i] < (places + [n])[j]
    ensures forall k: nat :: k in places + [n] <==> k in places || k == n
  {
  }

  lemma RepeatsInside(ids: seq<string>, k: nat)
    ensures RepeatsAt(ids, k) ==> k < |ids|
  {
  }

  lemma LastRepeats(ids: seq<string>)
    requires ids != []
    ensures var front, last := ids[..|ids| - 1], ids[|ids| - 1];
            RepeatsAt(ids, |ids| - 1) <==> last in front && last !in Duplicates(front)
  {
    var front, last := ids[..|ids| - 1], ids[|ids| - 1];
    DuplicatedIff(front, last);
    assert last in front <==> multiset(front)[last] >= 1;
  }

  lemma RepeatsInFront(ids: seq<string>, k: nat)
    requires ids != []
    ensures k < |ids| - 1 ==> (RepeatsAt(ids[..|ids| - 1], k) <==> RepeatsAt(ids, k))
    ensures RepeatsAt(ids[..|ids| - 1], k) ==> k < |ids| - 1
  {
    if k < |ids| - 1 {
      assert ids[..|ids| - 1][..k] == ids[..k];
    }
  }

  // -------------------------------------------------------------------- the whole report

  predicate LacksClip(pack: AssetPack, id: string) { forall clip | clip in pack.animations :: clip.id != id }

  /** What is reported of the clips that an owner maps its states to. */
  function StateReports(owner: string, states: seq<StateAnimation>, pack: AssetPack): seq<string> {
    if states == [] then []
    else
      (if LacksClip(pack, states[0].animationId)
       then [owner + " maps state " + states[0].state + " to missing animation " + states[0].animationId + "."] else [])
      + StateReports(owner, states[1..], pack)
  }

  function ObjectReports(item: SceneObject, pack: AssetPack): seq<string> {
    (if item.entityId == None || item.entityId == Some("") then [item.id + " is missing entityId."] else [])
    + (if item.assetKey.GetOr("") != "" && item.assetKey.value !in pack.assetKeys
       then [item.id + " references missing asset " + item.assetKey.value + "."] else [])
    + (if item.currentAnimationId.GetOr("") != "" && LacksClip(pack, item.currentAnimationId.value)
       then [item.id + " references missing animation " + item.currentAnimationId.value + "."] else [])
    + StateReports(item.id, item.animationsByState, pack)
  }

  function PresetReports(preset: ObjectPreset, pack: AssetPack): seq<string> {
    (if preset.defaultAssetKey !in pack.assetKeys
     then [preset.id + " references missing asset " + preset.defaultAssetKey + "."] else [])
    + (if preset.defaultAnimationId.GetOr("") != "" && LacksClip(pack, preset.defaultAnimationId.value)
       then [preset.id + " references missing animation " + preset.defaultAnimationId.value + "."] else [])
    + StateReports(preset.id, preset.animationsByState, pack)
  }

  function ClipReports(clip: AnimationClip, pack: AssetPack): seq<string> {
    if clip.assetKey !in pack.assetKeys then [clip.id + " references missing asset " + clip.assetKey + "."] else []
  }

  function DuplicateReports(what: string, ids: seq<string>): seq<seq<string>> {
    seq(|ids|, i requires 0 <= i < |ids| => ["Duplicate " + what + ": " + ids[i] + "."])
  }

  function All(parts: seq<seq<string>>): seq<string> { if parts == [] then [] else parts[0] + All(parts[1..]) }

  lemma {:induction false} AllSnoc(parts: seq<seq<string>>, last: seq<string>)
    ensures All(parts + [last]) == All(parts) + last
  {
    if parts == [] {
      assert [] + [last] == [last] && [last][1..] == [];
    } else {
      assert (parts + [last])[1..] == parts[1..] + [last];
      AllSnoc(parts[1..], last);
    }
  }

  /** Reports item by item, put one behind the other. */
  lemma {:induction false} ItemByItem<T>(items: seq<T>, f: T -> seq<string>, parts: seq<seq<string>>)
    requires |parts| == |items| && forall i | 0 <= i < |items| :: parts[i] == f(items[i])
    ensures FlatMap(items, f) == All(parts)
  {
    if items != [] {
      var n := |items| - 1;
      ItemByItem(items[..n], f, parts[..n]);
      AllSnoc(parts[..n], parts[n]);
      assert parts[..n] + [parts[n]] == parts;
    }
  }

  lemma {:induction false} StateReportsSnoc(owner: string, states: seq<StateAnimation>, last: StateAnimation,
                                            pack: AssetPack)
    ensures StateReports(owner, states + [last], pack)
         == StateReports(owner, states, pack) + StateReports(owner, [last], pack)
  {
    if states == [] {
      assert [] + [last] == [last];
    } else {
      assert (states + [last])[1..] == states[1..] + [last];
      StateReportsSnoc(owner, states[1..], last, pack);
    }
  }

  lemma {:induction false} StatesReported(owner: string, states: seq<StateAnimation>, pack: AssetPack)
    ensures StateWarnings(owner, states, AnimationIds(pack)) == StateReports(owner, states, pack)
  {
    if states != [] {
      var front, last := states[..|states| - 1], states[|states| - 1];
      StatesReported(owner, front, pack);
      StateReportsSnoc(owner, front, last, pack);
      assert front + [last] == states;
      assert [last][1..] == [];
    }
  }

  lemma ObjectReported(item: SceneObject, pack: AssetPack)
    ensures ObjectWarnings(item, AssetKeys(pack), AnimationIds(pack)) == ObjectReports(item, pack)
  {
    StatesReported(item.id, item.animationsByState, pack);
    hide StateWarnings, StateReports;
  }

  lemma PresetReportedWhole(preset: ObjectPreset, pack: AssetPack)
    ensures PresetWarnings(preset, AssetKeys(pack), AnimationIds(pack)) == PresetReports(preset, pack)
  {
    StatesReported(preset.id, preset.animationsByState, pack);
    hide StateWarnings, StateReports;
  }

  lemma DuplicatesReported(what: string, prefix: string, ids: seq<string>)
    requires prefix == "Duplicate " + what + ": "
    ensures FlatMap(ids, Report(prefix)) == All(DuplicateReports(what, ids))
  {
    ItemByItem(ids, Report(prefix), DuplicateReports(what, ids));
  }

  /** The whole report: objects, their duplicate ids and entity ids, presets, clips, the rules
      action by action, and duplicate rule ids, in this order. */
  lemma WholeReport(objects: seq<SceneObject>, rules: seq<BindingRule>, pack: AssetPack)
    returns (perObject: seq<seq<string>>, perPreset: seq<seq<string>>, perClip: seq<seq<string>>,
             perRule: seq<seq<string>>)
    ensures |perObject| == |objects| && forall i | 0 <= i < |objects| :: perObject[i] == ObjectReports(objects[i], pack)
    ensures |perPreset| == |pack.objectPresets|
            && forall i | 0 <= i < |perPreset| :: perPreset[i] == PresetReports(pack.objectPresets[i], pack)
    ensures |perClip| == |pack.animations|
            && forall i | 0 <= i < |perClip| :: perClip[i] == ClipReports(pack.animations[i], pack)
    ensures |perRule| == |rules|
            && forall i | 0 <= i < |rules| ::
                 perRule[i] == RuleWarnings(rules[i], SceneNames(objects) + SpawnIds(rules), pack)
    ensures ValidationWarnings(objects, rules, pack) ==
            All(perObject)
            + All(DuplicateReports("object id", Duplicates(ObjectIds(objects))))
            + All(DuplicateReports("entityId", Duplicates(EntityIds(objects))))
            + All(perPreset) + All(perClip) + All(perRule)
            + All(DuplicateReports("binding rule id", Duplicates(RuleIds(rules))))
  {
    hide ObjectWarnings, PresetWarnings, RuleWarnings, Duplicates, DuplicateReports, ObjectReports, PresetReports;
    hide SceneNames, SpawnIds, ObjectIds, EntityIds, RuleIds, FlatMap, All, Report;
    var known := SceneNames(objects) + SpawnIds(rules);
    perObject := seq(|objects|, i requires 0 <= i < |objects| => ObjectReports(objects[i], pack));
    perPreset := seq(|pack.objectPresets|,
        i requires 0 <= i < |pack.objectPresets| => PresetReports(pack.objectPresets[i], pack));
    perClip := seq(|pack.animations|, i requires 0 <= i < |pack.animations| => ClipReports(pack.animations[i], pack));
    perRule := seq(|rules|, i requires 0 <= i < |rules| => RuleWarnings(rules[i], known, pack));
    forall item: SceneObject
      ensures ObjectWarnings(item, AssetKeys(pack), AnimationIds(pack)) == ObjectReports(item, pack) {
      ObjectReported(item, pack);
    }
    forall preset: ObjectPreset
      ensures PresetWarnings(preset, AssetKeys(pack), AnimationIds(pack)) == PresetReports(preset, pack) {
      PresetReportedWhole(preset, pack);
    }
    ItemByItem(objects, (item: SceneObject) => ObjectWarnings(item, AssetKeys(pack), AnimationIds(pack)), perObject);
    ItemByItem(pack.objectPresets, (preset: ObjectPreset) => PresetWarnings(preset, AssetKeys(pack),
        AnimationIds(pack)), perPreset);
    ItemByItem(pack.animations, (clip: AnimationClip) => ClipWarnings(clip, AssetKeys(pack)), perClip);
    ItemByItem(rules, (rule: BindingRule) => RuleWarnings(rule, known, pack), perRule);
    DuplicatesReported("object id", "Duplicate object id: ", Duplicates(ObjectIds(objects)));
    DuplicatesReported("entityId", "Duplicate entityId: ", Duplicates(EntityIds(objects)));
    DuplicatesReported("binding rule id", "Duplicate binding rule id: ", Duplicates(RuleIds(rules)));
  }

  /** A rule is reported on action by action. */
  lemma RuleReports(rule: BindingRule, known: set<string>, pack: AssetPack) returns (perAction: seq<seq<string>>)
    ensures |perAction| == |rule.actions|
            && forall i | 0 <= i < |perAction| ::
                 perAction[i] == ActionWarnings(rule.id, rule.actions[i].action, known, AnimationIds(pack),
                                                PresetIds(pack))
    ensures RuleWarnings(rule, known, pack) == All(perAction)
  {
    hide ActionWarnings;
    perAction := seq(|rule.actions|, i requires 0 <= i < |rule.actions| =>
        ActionWarnings(rule.id, rule.actions[i].action, known, AnimationIds(pack), PresetIds(pack)));
    ItemByItem(rule.actions, (entry: RuleAction) =>
        ActionWarnings(rule.id, entry.action, known, AnimationIds(pack), PresetIds(pack)), perAction);
  }

  /** The ids whose duplicates are looked for: one of each object and of each rule, and the
      entity ids that are there and not empty. */
  lemma {:induction false} ObjectIdsMean(objects: seq<SceneObject>)
    ensures |ObjectIds(objects)| == |objects|
    ensures forall i | 0 <= i < |objects| :: ObjectIds(objects)[i] == objects[i].id
  {
    if objects != [] {
      ObjectIdsMean(objects[..|objects| - 1]);
    }
  }

  lemma {:induction false} RuleIdsMean(rules: seq<BindingRule>)
    ensures |RuleIds(rules)| == |rules|
    ensures forall i | 0 <= i < |rules| :: RuleIds(rules)[i] == rules[i].id
  {
    if rules != [] {
      RuleIdsMean(rules[..|rules| - 1]);
    }
  }

  lemma {:induction false} EntityIdsMean(objects: seq<SceneObject>, parts: seq<seq<string>>)
    requires |parts| == |objects|
    requires forall i | 0 <= i < |objects| ::
               parts[i] == if objects[i].entityId.GetOr("") == "" then [] else [objects[i].entityId.value]
    ensures EntityIds(objects) == All(parts)
  {
    if objects != [] {
      var n := |objects| - 1;
      EntityIdsMean(objects[..n], parts[..n]);
      AllSnoc(parts[..n], parts[n]);
      assert parts[..n] + [parts[n]] == parts;
    }
  }
}
