/** The authoring checks (`authoringValidation.ts`, `validateAuthoringState`). */
module AuthoringValidation {
  import opened Wrappers
  import opened Contracts

  // ------------------------------------------------- the fields the checks look at

  /** `"targetId" in action ? action.targetId : undefined` */
  function TargetIdOf(action: VisualAction): Option<string> {
    match action
    case SpawnEffect(_, nearId, _, _, _, _, _, _, _, _, _) => nearId
    case SpawnObject(_, _, nearId, _, _, _, _, _, _) => nearId
    case SpawnFromObject(_, _, _, _, _, _, _, _) => None
    case RemoveObject(victimId, _, _) => victimId
    case _ => Some(action.targetId)
  }

  function TargetObjectIdOf(action: VisualAction): Option<string> {
    match action
    case MoveToObject(_, id, _, _, _, _) => Some(id)
    case OrbitAround(_, id, _, _, _, _, _) => Some(id)
    case AttachToObject(_, id, _, _, _) => Some(id)
    case DespawnAtObject(_, id, _) => Some(id)
    case _ => None
  }

  function SourceObjectIdOf(action: VisualAction): Option<string> {
    if action.SpawnFromObject? then Some(action.sourceObjectId) else None
  }

  function CompleteTargetIdOf(action: VisualAction): Option<string> {
    if action.SpawnEffect? then action.onCompleteTargetId.GetOr(None) else None
  }

  /** The id an action gives to what it spawns. */
  function ObjectIdOf(action: VisualAction): Option<string> {
    match action
    case SpawnEffect(_, _, effectId, _, _, _, _, _, _, _, _) => effectId
    case SpawnObject(_, objectId, _, _, _, _, _, _, _) => Some(objectId)
    case SpawnFromObject(_, objectId, _, _, _, _, _, _) => Some(objectId)
    case SpawnAttachedEffect(_, _, effectId, _, _, _, _, _, _) => effectId
    case _ => None
  }

  function AnimationIdOf(action: VisualAction): Option<string> {
    match action
    case PlayAnimation(_, animationId, _, _) => Some(animationId)
    case SpawnEffect(_, _, _, _, _, clipId, _, _, _, _, _) => clipId
    case SpawnAttachedEffect(_, _, _, _, _, clipId, _, _, _) => clipId
    case _ => None
  }

  function PresetIdOf(action: VisualAction): Option<string> {
    match action
    case SpawnEffect(presetId, _, _, _, _, _, _, _, _, _, _) => Some(presetId)
    case SpawnObject(presetId, _, _, _, _, _, _, _, _) => Some(presetId)
    case SpawnFromObject(presetId, _, _, _, _, _, _, _) => Some(presetId)
    case SpawnAttachedEffect(presetId, _, _, _, _, _, _, _, _) => Some(presetId)
    case _ => None
  }

  function DurationOf(action: VisualAction): Option<real> {
    match action
    case MoveTo(_, _, _, durationMs, _, _) => Some(durationMs)
    case MoveToObject(_, _, durationMs, _, _, _) => Some(durationMs)
    case MoveAlongPath(_, _, durationMs, _, _) => Some(durationMs)
    case OrbitAround(_, _, _, durationMs, _, _, _) => Some(durationMs)
    case AttachToObject(_, _, _, showMs, _) => showMs
    case ShowRouteTrail(_, _, showMs, _) => showMs
    case _ => None
  }

  function KindName(action: VisualAction): string {
    match action
    case MoveTo(_, _, _, _, _, _) => "moveTo"
    case MoveToObject(_, _, _, _, _, _) => "moveToObject"
    case MoveAlongPath(_, _, _, _, _) => "moveAlongPath"
    case OrbitAround(_, _, _, _, _, _, _) => "orbitAround"
    case AttachToObject(_, _, _, _, _) => "attachToObject"
    case ShowRouteTrail(_, _, _, _) => "showRouteTrail"
    case _ => "other"
  }

  // ---------------------------------------------------------- the expected warnings

  function WarnIf(condition: bool, warning: string): seq<string> { if condition then [warning] else [] }

  function MissingTarget(ruleId: string, id: Option<string>, known: set<string>): seq<string> {
    WarnIf(Truthy(id) && id.value !in known, ruleId + " targets missing object " + id.GetOr("") + ".")
  }

  function StateWarnings(ownerId: string, states: seq<StateAnimation>, animationIds: set<string>): seq<string> {
    if states == [] then []
    else
      var last := states[|states| - 1];
      StateWarnings(ownerId, states[..|states| - 1], animationIds)
      + WarnIf(last.animationId !in animationIds,
               ownerId + " maps state " + last.state + " to missing animation " + last.animationId + ".")
  }

  function ObjectWarnings(item: SceneObject, assetKeys: set<string>, animationIds: set<string>): seq<string> {
    WarnIf(!Truthy(item.entityId), item.id + " is missing entityId.")
    + WarnIf(Truthy(item.assetKey) && item.assetKey.value !in assetKeys,
             item.id + " references missing asset " + item.assetKey.GetOr("") + ".")
    + WarnIf(Truthy(item.currentAnimationId) && item.currentAnimationId.value !in animationIds,
             item.id + " references missing animation " + item.currentAnimationId.GetOr("") + ".")
    + StateWarnings(item.id, item.animationsByState, animationIds)
  }

  function PresetWarnings(preset: ObjectPreset, assetKeys: set<string>, animationIds: set<string>): seq<string> {
    WarnIf(preset.defaultAssetKey !in assetKeys,
        preset.id + " references missing asset " + preset.defaultAssetKey + ".")
    + WarnIf(Truthy(preset.defaultAnimationId) && preset.defaultAnimationId.value !in animationIds,
             preset.id + " references missing animation " + preset.defaultAnimationId.GetOr("") + ".")
    + StateWarnings(preset.id, preset.animationsByState, animationIds)
  }

  function ClipWarnings(clip: AnimationClip, assetKeys: set<string>): seq<string> {
    WarnIf(clip.assetKey !in assetKeys, clip.id + " references missing asset " + clip.assetKey + ".")
  }

  function PathWarnings(ruleId: string, action: VisualAction): seq<string> {
    WarnIf((action.MoveAlongPath? || action.ShowRouteTrail?) && |action.path| < 2,
           ruleId + " has a " + KindName(action) + " path with fewer than 2 points.")
  }

  function ActionWarnings(ruleId: string, action: VisualAction, known: set<string>, animationIds: set<string>,
                          presetIds: set<string>): seq<string> {
    MissingTarget(ruleId, TargetIdOf(action), known)
    + MissingTarget(ruleId, TargetObjectIdOf(action), known)
    + MissingTarget(ruleId, SourceObjectIdOf(action), known)
    + MissingTarget(ruleId, CompleteTargetIdOf(action), known)
    + WarnIf(Truthy(AnimationIdOf(action)) && AnimationIdOf(action).value !in animationIds,
             ruleId + " references missing animation " + AnimationIdOf(action).GetOr("") + ".")
    + WarnIf(PresetIdOf(action).Some? && PresetIdOf(action).value !in presetIds,
             ruleId + " references missing preset " + PresetIdOf(action).GetOr("") + ".")
    + PathWarnings(ruleId, action)
    + WarnIf(DurationOf(action).GetOr(1.0) <= 0.0, ruleId + " has invalid durationMs on " + KindName(action) + ".")
  }

  function FlatMap<T>(items: seq<T>, f: T -> seq<string>): seq<string> {
    if items == [] then [] else FlatMap(items[..|items| - 1], f) + f(items[|items| - 1])
  }

  /** The values that occur again, each once, in the order in which they do. */
  function Duplicates(ids: seq<string>): (r: seq<string>)
    ensures forall x | x in r :: x in ids
  {
    if ids == [] then []
    else
      var front, last := ids[..|ids| - 1], ids[|ids| - 1];
      var earlier := Duplicates(front);
      if last in front && last !in earlier then earlier + [last] else earlier
  }

  function ObjectIds(objects: seq<SceneObject>): seq<string> {
    if objects == [] then [] else ObjectIds(objects[..|objects| - 1]) + [objects[|objects| - 1].id]
  }

  /** The entity ids that are present and not empty. */
  function EntityIds(objects: seq<SceneObject>): seq<string> {
    if objects == [] then []
    else
      var last := objects[|objects| - 1].entityId;
      EntityIds(objects[..|objects| - 1]) + if Truthy(last) then [last.value] else []
  }

  function RuleIds(rules: seq<BindingRule>): seq<string> {
    if rules == [] then [] else RuleIds(rules[..|rules| - 1]) + [rules[|rules| - 1].id]
  }

  /** The non-empty ids and entity ids of the scene. */
  function SceneNames(objects: seq<SceneObject>): set<string> {
    (set x | x in ObjectIds(objects) && x != "") + (set x | x in EntityIds(objects))
  }

  function SpawnIdsOfActions(actions: seq<RuleAction>): set<string> {
    if actions == [] then {}
    else
      var id := ObjectIdOf(actions[|actions| - 1].action);
      SpawnIdsOfActions(actions[..|actions| - 1]) + if Truthy(id) then {id.value} else {}
  }

  /** The non-empty ids that actions give to what they spawn. */
  function SpawnIds(rules: seq<BindingRule>): set<string> {
    if rules == [] then {} else SpawnIds(rules[..|rules| - 1]) + SpawnIdsOfActions(rules[|rules| - 1].actions)
  }

  function AnimationIds(pack: AssetPack): set<string> { set clip | clip in pack.animations :: clip.id }

  function AssetKeys(pack: AssetPack): set<string> { set key | key in pack.assetKeys }

  function PresetIds(pack: AssetPack): set<string> { set preset | preset in pack.objectPresets :: preset.id }

  function RuleWarnings(rule: BindingRule, known: set<string>, pack: AssetPack): seq<string> {
    FlatMap(rule.actions,
        (entry: RuleAction) => ActionWarnings(rule.id, entry.action, known, AnimationIds(pack), PresetIds(pack)))
  }

  function Report(prefix: string): string -> seq<string> {
    (id: string) => [prefix + id + "."]
  }

  /** Everything the validator reports, in its order. */
  function ValidationWarnings(objects: seq<SceneObject>, rules: seq<BindingRule>, pack: AssetPack): seq<string> {
    FlatMap(objects, (item: SceneObject) => ObjectWarnings(item, AssetKeys(pack), AnimationIds(pack)))
    + FlatMap(Duplicates(ObjectIds(objects)), Report("Duplicate object id: "))
    + FlatMap(Duplicates(EntityIds(objects)), Report("Duplicate entityId: "))
    + FlatMap(pack.objectPresets, (preset: ObjectPreset) => PresetWarnings(preset, AssetKeys(pack), AnimationIds(pack)))
    + FlatMap(pack.animations, (clip: AnimationClip) => ClipWarnings(clip, AssetKeys(pack)))
    + FlatMap(rules, (rule: BindingRule) => RuleWarnings(rule, SceneNames(objects) + SpawnIds(rules), pack))
    + FlatMap(Duplicates(RuleIds(rules)), Report("Duplicate binding rule id: "))
  }

  // ------------------------------------------------------------------ the validator

  /** Adds an element to an insertion-ordered set. */
  function Add(ordered: seq<string>, id: string): seq<string> {
    if id in ordered then ordered else ordered + [id]
  }

  method ValidateStates(ownerId: string, states: seq<StateAnimation>, animationIds: set<string>)
    returns (warnings: seq<string>)
    ensures warnings == StateWarnings(ownerId, states, animationIds)
  {
    warnings := [];
    for i := 0 to |states|
      invariant warnings == StateWarnings(ownerId, states[..i], animationIds)
    {
      assert states[..i + 1][..i] == states[..i];
      if states[i].animationId !in animationIds {
        warnings := warnings
          + [ownerId + " maps state " + states[i].state + " to missing animation " + states[i].animationId + "."];
      }
    }
    assert states[..|states|] == states;
  }

  method ValidateObject(item: SceneObject, assetKeys: set<string>, animationIds: set<string>)
    returns (warnings: seq<string>)
    ensures warnings == ObjectWarnings(item, assetKeys, animationIds)
  {
    hide StateWarnings;
    warnings := [];
    if !Truthy(item.entityId) {
      warnings := warnings + [item.id + " is missing entityId."];
    }
    if Truthy(item.assetKey) && item.assetKey.value !in assetKeys {
      warnings := warnings + [item.id + " references missing asset " + item.assetKey.value + "."];
    }
    if Truthy(item.currentAnimationId) && item.currentAnimationId.value !in animationIds {
      warnings := warnings + [item.id + " references missing animation " + item.currentAnimationId.value + "."];
    }
    var states := ValidateStates(item.id, item.animationsByState, animationIds);
    warnings := warnings + states;
  }

  /** The first loop: object checks and the two insertion-ordered sets of duplicates. */
  method ValidateObjects(objects: seq<SceneObject>, pack: AssetPack)
    returns (warnings: seq<string>, duplicateIds: seq<string>, duplicateEntityIds: seq<string>)
    ensures warnings
            == FlatMap(objects, (item: SceneObject) => ObjectWarnings(item, AssetKeys(pack), AnimationIds(pack)))
    ensures duplicateIds == Duplicates(ObjectIds(objects))
    ensures duplicateEntityIds == Duplicates(EntityIds(objects))
  {
    hide ObjectWarnings, AssetKeys, AnimationIds, Duplicates;
    warnings, duplicateIds, duplicateEntityIds := [], [], [];
    var objectIds, entityIds: set<string> := {}, {};
    DuplicatesEmpty([]);
    for i := 0 to |objects|
      invariant warnings
                == FlatMap(objects[..i],
                    (item: SceneObject) => ObjectWarnings(item, AssetKeys(pack), AnimationIds(pack)))
      invariant forall x :: x in objectIds <==> x in ObjectIds(objects[..i])
      invariant forall x :: x in entityIds <==> x in EntityIds(objects[..i])
      invariant duplicateIds == Duplicates(ObjectIds(objects[..i]))
      invariant duplicateEntityIds == Duplicates(EntityIds(objects[..i]))
    {
      var item := objects[i];
      assert objects[..i + 1][..i] == objects[..i];
      DuplicatesSnoc(ObjectIds(objects[..i]), item.id);
      if item.id in objectIds {
        duplicateIds := Add(duplicateIds, item.id);
      }
      objectIds := objectIds + {item.id};
      if Truthy(item.entityId) {
        DuplicatesSnoc(EntityIds(objects[..i]), item.entityId.value);
        if item.entityId.value in entityIds {
          duplicateEntityIds := Add(duplicateEntityIds, item.entityId.value);
        }
        entityIds := entityIds + {item.entityId.value};
      } else {
        assert EntityIds(objects[..i + 1]) == EntityIds(objects[..i]);
      }
      var more := ValidateObject(item, AssetKeys(pack), AnimationIds(pack));
      warnings := warnings + more;
    }
    assert objects[..|objects|] == objects;
  }

  lemma DuplicatesSnoc(ids: seq<string>, id: string)
    ensures Duplicates(ids + [id]) == if id in ids then Add(Duplicates(ids), id) else Duplicates(ids)
  {
    assert (ids + [id])[..|ids|] == ids;
  }

  method ReportAll(ids: seq<string>, prefix: string) returns (warnings: seq<string>)
    ensures warnings == FlatMap(ids, Report(prefix))
  {
    warnings := [];
    for i := 0 to |ids|
      invariant warnings == FlatMap(ids[..i], Report(prefix))
    {
      assert ids[..i + 1][..i] == ids[..i];
      warnings := warnings + [prefix + ids[i] + "."];
    }
    assert ids[..|ids|] == ids;
  }

  method ValidatePreset(preset: ObjectPreset, assetKeys: set<string>, animationIds: set<string>)
    returns (warnings: seq<string>)
    ensures warnings == PresetWarnings(preset, assetKeys, animationIds)
  {
    warnings := [];
    if preset.defaultAssetKey !in assetKeys {
      warnings := warnings + [preset.id + " references missing asset " + preset.defaultAssetKey + "."];
    }
    if Truthy(preset.defaultAnimationId) && preset.defaultAnimationId.value !in animationIds {
      warnings := warnings + [preset.id + " references missing animation " + preset.defaultAnimationId.value + "."];
    }
    var states := ValidateStates(preset.id, preset.animationsByState, animationIds);
    warnings := warnings + states;
  }

  method ValidatePresets(pack: AssetPack) returns (warnings: seq<string>)
    ensures warnings
            == FlatMap(pack.objectPresets,
                (preset: ObjectPreset) => PresetWarnings(preset, AssetKeys(pack), AnimationIds(pack)))
  {
    hide PresetWarnings;
    warnings := [];
    var presets := pack.objectPresets;
    for i := 0 to |presets|
      invariant warnings
                == FlatMap(presets[..i],
                    (preset: ObjectPreset) => PresetWarnings(preset, AssetKeys(pack), AnimationIds(pack)))
    {
      assert presets[..i + 1][..i] == presets[..i];
      var more := ValidatePreset(presets[i], AssetKeys(pack), AnimationIds(pack));
      warnings := warnings + more;
    }
    assert presets[..|presets|] == presets;
  }

  method ValidateClips(pack: AssetPack) returns (warnings: seq<string>)
    ensures warnings == FlatMap(pack.animations, (clip: AnimationClip) => ClipWarnings(clip, AssetKeys(pack)))
  {
    warnings := [];
    var clips := pack.animations;
    for i := 0 to |clips|
      invariant warnings == FlatMap(clips[..i], (clip: AnimationClip) => ClipWarnings(clip, AssetKeys(pack)))
    {
      assert clips[..i + 1][..i] == clips[..i];
      if clips[i].assetKey !in AssetKeys(pack) {
        warnings := warnings + [clips[i].id + " references missing asset " + clips[i].assetKey + "."];
      }
    }
    assert clips[..|clips|] == clips;
  }

  method ValidateTarget(ruleId: string, id: Option<string>, known: set<string>) returns (warnings: seq<string>)
    ensures warnings == MissingTarget(ruleId, id, known)
  {
    warnings := [];
    if Truthy(id) && id.value !in known {
      warnings := [ruleId + " targets missing object " + id.value + "."];
    }
  }

  method ValidateAction(ruleId: string, action: VisualAction, known: set<string>, animationIds: set<string>,
                        presetIds: set<string>)
    returns (warnings: seq<string>)
    ensures warnings == ActionWarnings(ruleId, action, known, animationIds, presetIds)
  {
    hide TargetIdOf, TargetObjectIdOf, SourceObjectIdOf, CompleteTargetIdOf, AnimationIdOf, PresetIdOf, DurationOf,
        KindName;
    hide MissingTarget, PathWarnings;
    var target := ValidateTarget(ruleId, TargetIdOf(action), known);
    var targetObject := ValidateTarget(ruleId, TargetObjectIdOf(action), known);
    var sourceObject := ValidateTarget(ruleId, SourceObjectIdOf(action), known);
    var completeTarget := ValidateTarget(ruleId, CompleteTargetIdOf(action), known);
    var missingAnimation, missingPreset, badDuration := [], [], [];
    var animationId := AnimationIdOf(action);
    if Truthy(animationId) && animationId.value !in animationIds {
      missingAnimation := [ruleId + " references missing animation " + animationId.value + "."];
    }
    var presetId := PresetIdOf(action);
    if presetId.Some? && presetId.value !in presetIds {
      missingPreset := [ruleId + " references missing preset " + presetId.value + "."];
    }
    var badPath := ValidatePath(ruleId, action);
    if DurationOf(action).Some? && DurationOf(action).value <= 0.0 {
      badDuration := [ruleId + " has invalid durationMs on " + KindName(action) + "."];
    }
    warnings := target + targetObject + sourceObject + completeTarget
                + missingAnimation + missingPreset + badPath + badDuration;
  }

  method ValidatePath(ruleId: string, action: VisualAction) returns (warnings: seq<string>)
    ensures warnings == PathWarnings(ruleId, action)
  {
    warnings := [];
    if action.MoveAlongPath? && |action.path| < 2 {
      warnings := [ruleId + " has a " + "moveAlongPath" + " path with fewer than 2 points."];
    }
    if action.ShowRouteTrail? && |action.path| < 2 {
      warnings := [ruleId + " has a " + "showRouteTrail" + " path with fewer than 2 points."];
    }
  }

  method ValidateRule(rule: BindingRule, known: set<string>, pack: AssetPack) returns (warnings: seq<string>)
    ensures warnings == RuleWarnings(rule, known, pack)
  {
    warnings := [];
    for j := 0 to |rule.actions|
      invariant warnings == FlatMap(rule.actions[..j],
        (entry: RuleAction) => ActionWarnings(rule.id, entry.action, known, AnimationIds(pack), PresetIds(pack)))
    {
      assert rule.actions[..j + 1][..j] == rule.actions[..j];
      var more := ValidateAction(rule.id, rule.actions[j].action, known, AnimationIds(pack), PresetIds(pack));
      warnings := warnings + more;
    }
    assert rule.actions[..|rule.actions|] == rule.actions;
  }

  /** Adds every id an action gives to what it spawns to the known ids. */
  method CollectSpawnIds(rules: seq<BindingRule>, start: set<string>) returns (known: set<string>)
    ensures known == start + SpawnIds(rules)
  {
    known := start;
    for i := 0 to |rules|
      invariant known == start + SpawnIds(rules[..i])
    {
      var actions := rules[i].actions;
      assert rules[..i + 1][..i] == rules[..i];
      for j := 0 to |actions|
        invariant known == start + SpawnIds(rules[..i]) + SpawnIdsOfActions(actions[..j])
      {
        assert actions[..j + 1][..j] == actions[..j];
        var id := ObjectIdOf(actions[j].action);
        if Truthy(id) {
          known := known + {id.value};
        }
      }
      assert actions[..|actions|] == actions;
    }
    assert rules[..|rules|] == rules;
  }

  /** The last loop: rule checks and the insertion-ordered set of duplicate rule ids. */
  method ValidateRules(rules: seq<BindingRule>, known: set<string>, pack: AssetPack)
    returns (warnings: seq<string>, duplicateRuleIds: seq<string>)
    ensures warnings == FlatMap(rules, (rule: BindingRule) => RuleWarnings(rule, known, pack))
    ensures duplicateRuleIds == Duplicates(RuleIds(rules))
  {
    hide RuleWarnings, Duplicates;
    warnings, duplicateRuleIds := [], [];
    var ruleIds: set<string> := {};
    DuplicatesEmpty([]);
    for i := 0 to |rules|
      invariant warnings == FlatMap(rules[..i], (rule: BindingRule) => RuleWarnings(rule, known, pack))
      invariant forall x :: x in ruleIds <==> x in RuleIds(rules[..i])
      invariant duplicateRuleIds == Duplicates(RuleIds(rules[..i]))
    {
      var rule := rules[i];
      assert rules[..i + 1][..i] == rules[..i];
      DuplicatesSnoc(RuleIds(rules[..i]), rule.id);
      if rule.id in ruleIds {
        duplicateRuleIds := Add(duplicateRuleIds, rule.id);
      }
      ruleIds := ruleIds + {rule.id};
      var more := ValidateRule(rule, known, pack);
      warnings := warnings + more;
    }
    assert rules[..|rules|] == rules;
  }

  /** The validator: it reports exactly the expected warnings, in order. */
  method ValidateAuthoringState(objects: seq<SceneObject>, rules: seq<BindingRule>, pack: AssetPack)
    returns (warnings: seq<string>)
    ensures warnings == ValidationWarnings(objects, rules, pack)
  {
    var fromObjects, duplicateIds, duplicateEntityIds := ValidateObjects(objects, pack);
    var fromIds := ReportAll(duplicateIds, "Duplicate object id: ");
    var fromEntityIds := ReportAll(duplicateEntityIds, "Duplicate entityId: ");
    var fromPresets := ValidatePresets(pack);
    var fromClips := ValidateClips(pack);
    var knownObjectIds := CollectSpawnIds(rules, SceneNames(objects));
    var fromRules, duplicateRuleIds := ValidateRules(rules, knownObjectIds, pack);
    var fromRuleIds := ReportAll(duplicateRuleIds, "Duplicate binding rule id: ");
    hide FlatMap, Duplicates;
    warnings := fromObjects + fromIds + fromEntityIds + fromPresets + fromClips + fromRules + fromRuleIds;
  }

  // ------------------------------------------------------------ what silence means

  predicate Distinct(ids: seq<string>) {
    forall i, j | 0 <= i < j < |ids| :: ids[i] != ids[j]
  }

  predicate StatesOk(states: seq<StateAnimation>, animationIds: set<string>) {
    forall i | 0 <= i < |states| :: states[i].animationId in animationIds
  }

  /** An optional reference is absent, empty, or known. */
  predicate RefOk(id: Option<string>, known: set<string>) {
    Truthy(id) ==> id.value in known
  }

  predicate ObjectOk(item: SceneObject, assetKeys: set<string>, animationIds: set<string>) {
    Truthy(item.entityId) && RefOk(item.assetKey, assetKeys) && RefOk(item.currentAnimationId, animationIds)
    && StatesOk(item.animationsByState, animationIds)
  }

  predicate PresetOk(preset: ObjectPreset, assetKeys: set<string>, animationIds: set<string>) {
    preset.defaultAssetKey in assetKeys && RefOk(preset.defaultAnimationId, animationIds)
    && StatesOk(preset.animationsByState, animationIds)
  }

  predicate ActionOk(action: VisualAction, known: set<string>, animationIds: set<string>, presetIds: set<string>) {
    && RefOk(TargetIdOf(action), known)
    && RefOk(TargetObjectIdOf(action), known)
    && RefOk(SourceObjectIdOf(action), known)
    && RefOk(CompleteTargetIdOf(action), known)
    && RefOk(AnimationIdOf(action), animationIds)
    && (PresetIdOf(action).Some? ==> PresetIdOf(action).value in presetIds)
    && (action.MoveAlongPath? || action.ShowRouteTrail? ==> |action.path| >= 2)
    && DurationOf(action).GetOr(1.0) > 0.0
  }

  /** Ids are unique where they must be, every object has an entity id, and every reference
      an object, a preset, a clip or an action makes can be resolved. */
  predicate Consistent(objects: seq<SceneObject>, rules: seq<BindingRule>, pack: AssetPack) {
    && (forall i | 0 <= i < |objects| :: ObjectOk(objects[i], AssetKeys(pack), AnimationIds(pack)))
    && Distinct(ObjectIds(objects)) && Distinct(EntityIds(objects)) && Distinct(RuleIds(rules))
    && (forall i | 0 <= i < |pack.objectPresets| ::
        PresetOk(pack.objectPresets[i], AssetKeys(pack), AnimationIds(pack)))
    && (forall i | 0 <= i < |pack.animations| :: pack.animations[i].assetKey in AssetKeys(pack))
    && (forall i, j | 0 <= i < |rules| && 0 <= j < |rules[i].actions| ::
          ActionOk(rules[i].actions[j].action, SceneNames(objects) + SpawnIds(rules), AnimationIds(pack),
              PresetIds(pack)))
  }

  lemma {:induction false} FlatMapSilent<T>(items: seq<T>, f: T -> seq<string>)
    ensures FlatMap(items, f) == [] <==> forall i | 0 <= i < |items| :: f(items[i]) == []
  {
    if items != [] {
      FlatMapSilent(items[..|items| - 1], f);
      assert forall i | 0 <= i < |items| - 1 :: items[..|items| - 1][i] == items[i];
    }
  }

  lemma {:induction false} StatesSilent(ownerId: string, states: seq<StateAnimation>, animationIds: set<string>)
    ensures StateWarnings(ownerId, states, animationIds) == [] <==> StatesOk(states, animationIds)
  {
    if states != [] {
      StatesSilent(ownerId, states[..|states| - 1], animationIds);
      assert forall i | 0 <= i < |states| - 1 :: states[..|states| - 1][i] == states[i];
    }
  }

  lemma {:induction false} DuplicatesEmpty(ids: seq<string>)
    ensures Duplicates(ids) == [] <==> Distinct(ids)
  {
    if ids != [] {
      var front, last := ids[..|ids| - 1], ids[|ids| - 1];
      DuplicatesEmpty(front);
      assert forall i | 0 <= i < |front| :: front[i] == ids[i];
      if last in front { var i :| 0 <= i < |front| && front[i] == last; }
    }
  }

  lemma DuplicatesSilent(ids: seq<string>, prefix: string)
    ensures FlatMap(Duplicates(ids), Report(prefix)) == [] <==> Distinct(ids)
  {
    DuplicatesEmpty(ids);
    FlatMapSilent(Duplicates(ids), Report(prefix));
    assert Duplicates(ids) != [] ==> Report(prefix)(Duplicates(ids)[0]) != [];
  }

  lemma ObjectSilent(item: SceneObject, assetKeys: set<string>, animationIds: set<string>)
    ensures ObjectWarnings(item, assetKeys, animationIds) == [] <==> ObjectOk(item, assetKeys, animationIds)
  {
    StatesSilent(item.id, item.animationsByState, animationIds);
  }

  lemma PresetSilent(preset: ObjectPreset, assetKeys: set<string>, animationIds: set<string>)
    ensures PresetWarnings(preset, assetKeys, animationIds) == [] <==> PresetOk(preset, assetKeys, animationIds)
  {
    StatesSilent(preset.id, preset.animationsByState, animationIds);
  }

  lemma ActionSilent(ruleId: string, action: VisualAction, known: set<string>, animationIds: set<string>,
                     presetIds: set<string>)
    ensures ActionWarnings(ruleId, action, known, animationIds, presetIds) == [] <==>
            ActionOk(action, known, animationIds, presetIds)
  {
  }

  lemma RulesSilent(rules: seq<BindingRule>, known: set<string>, pack: AssetPack)
    ensures FlatMap(rules, (rule: BindingRule) => RuleWarnings(rule, known, pack)) == [] <==>
              forall i, j | 0 <= i < |rules| && 0 <= j < |rules[i].actions| ::
                ActionOk(rules[i].actions[j].action, known, AnimationIds(pack), PresetIds(pack))
  {
    FlatMapSilent(rules, (rule: BindingRule) => RuleWarnings(rule, known, pack));
    forall i | 0 <= i < |rules|
      ensures RuleWarnings(rules[i], known, pack) == [] <==>
                forall j | 0 <= j < |rules[i].actions| ::
                    ActionOk(rules[i].actions[j].action, known, AnimationIds(pack), PresetIds(pack))
    {
      var rule := rules[i];
      FlatMapSilent(rule.actions,
          (entry: RuleAction) => ActionWarnings(rule.id, entry.action, known, AnimationIds(pack), PresetIds(pack)));
      forall j | 0 <= j < |rule.actions|
        ensures ActionWarnings(rule.id, rule.actions[j].action, known, AnimationIds(pack), PresetIds(pack)) == [] <==>
                  ActionOk(rule.actions[j].action, known, AnimationIds(pack), PresetIds(pack))
      {
        ActionSilent(rule.id, rule.actions[j].action, known, AnimationIds(pack), PresetIds(pack));
      }
    }
  }

  lemma ObjectsSilent(objects: seq<SceneObject>, keys: set<string>, clips: set<string>)
    ensures FlatMap(objects, (item: SceneObject) => ObjectWarnings(item, keys, clips)) == [] <==>
              forall i | 0 <= i < |objects| :: ObjectOk(objects[i], keys, clips)
  {
    FlatMapSilent(objects, (item: SceneObject) => ObjectWarnings(item, keys, clips));
    forall i | 0 <= i < |objects| ensures ObjectWarnings(objects[i], keys, clips) == [] <==>
        ObjectOk(objects[i], keys, clips) {
      ObjectSilent(objects[i], keys, clips);
    }
  }

  lemma PresetsSilent(presets: seq<ObjectPreset>, keys: set<string>, clips: set<string>)
    ensures FlatMap(presets, (preset: ObjectPreset) => PresetWarnings(preset, keys, clips)) == [] <==>
              forall i | 0 <= i < |presets| :: PresetOk(presets[i], keys, clips)
  {
    FlatMapSilent(presets, (preset: ObjectPreset) => PresetWarnings(preset, keys, clips));
    forall i | 0 <= i < |presets| ensures PresetWarnings(presets[i], keys, clips) == [] <==>
        PresetOk(presets[i], keys, clips) {
      PresetSilent(presets[i], keys, clips);
    }
  }

  lemma ClipsSilent(clips: seq<AnimationClip>, keys: set<string>)
    ensures FlatMap(clips, (clip: AnimationClip) => ClipWarnings(clip, keys)) == [] <==>
              forall i | 0 <= i < |clips| :: clips[i].assetKey in keys
  {
    FlatMapSilent(clips, (clip: AnimationClip) => ClipWarnings(clip, keys));
    assert forall i | 0 <= i < |clips| :: ClipWarnings(clips[i], keys) == [] <==> clips[i].assetKey in keys;
  }

  /** The validator is silent exactly on consistent documents. */
  lemma SilentIffConsistent(objects: seq<SceneObject>, rules: seq<BindingRule>, pack: AssetPack)
    ensures ValidationWarnings(objects, rules, pack) == [] <==> Consistent(objects, rules, pack)
  {
    ObjectsSilent(objects, AssetKeys(pack), AnimationIds(pack));
    DuplicatesSilent(ObjectIds(objects), "Duplicate object id: ");
    DuplicatesSilent(EntityIds(objects), "Duplicate entityId: ");
    PresetsSilent(pack.objectPresets, AssetKeys(pack), AnimationIds(pack));
    ClipsSilent(pack.animations, AssetKeys(pack));
    RulesSilent(rules, SceneNames(objects) + SpawnIds(rules), pack);
    DuplicatesSilent(RuleIds(rules), "Duplicate binding rule id: ");
    hide FlatMap, Duplicates, ObjectOk, PresetOk, ActionOk, ObjectWarnings, PresetWarnings, RuleWarnings, Distinct;
  }
}
