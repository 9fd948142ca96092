# Replay, launch and stream models, with proofs

Three parts of the repository are modelled and proved correct, from the code as it stands.

**The visual event replay engine** (`experiments/visual-event-runtime/src`). Events match
binding rules; each match schedules timed actions; actions rewrite a stage of objects and motion
tracks, and some schedule further actions; the stage is then drawn at a virtual time.
`Scheduler.dfy` proves, for any engine whose jobs push lighter and later jobs, that walking an
index over an array that is re-sorted before every step and grows while it is walked ends, never
moves a visited entry, and executes what a reference simulator executes that always takes the
earliest pending job. `Replay.dfy` applies this to the runtime, whose main loop, pushes, event
dispatch and result are methods proved against the reference run. `RuntimeState.dfy` is the
action switch, `Sampling.dfy` the drawing of a stage, `TrackRuntime.dfy` and
`AnimationRuntime.dfy` the arithmetic of tracks and clips. What these compute is said a second
time, without their functions: `RuleDispatch.dfy` says which actions and events a feed puts on
the schedule, by positions in its lists, `ActionMeaning.dfy` what every action leaves on the
stage, field by field, and pushes, and `TrackLaws.dfy` where tracks are between their ends, as
equations in elapsed time and duration. On top stand the invariants of every reachable stage
(`RuntimeInvariants.dfy`), what is drawn where (`SamplingProperties.dfy`), which actions undo
which (`ActionEffects.dfy`), and the soundness of the authoring validator
(`AuthoringValidation.dfy`, whose reports `ValidatorReports.dfy` spells out, and
`ValidatorSoundness.dfy`), for which `WarningForecast.dfy` tells the warnings of a replay from
the feed alone. `EventAuthoring.dfy` treats the timeline editor. Sorting is stable, as section
23.1.3.30 of ECMA-262 (2024 edition) has it; `StableSort.dfy` proves that a stable sorting is
unique, so nothing depends on how it is done.

**The queue launch protocol** (`apps/desktop/src-tauri/src`). Launches and their background
workers share a mutex-guarded registry. `ActiveRunRegistry.dfy` holds the locked sections as
methods of a class; `LaunchProtocol.dfy` is a state machine in which each locked call, or each
attempt to record a result, is one step, and quantifies over every interleaving.

**Three loops over data.** Decoding a chunked body (`ChunkedBody.dfy`), reading a stream up to
a cap (`CappedReader.dfy`), and adding up a diff (`DiffTotals.dfy`).

## What is assumed of the environment

* Numbers of the TypeScript code are exact reals, indices and counts are integers.
* `Host` bundles the library functions whose results the model takes as given: number
  printing, the id sanitiser, `Math.hypot`, cosine and sine. The statements hold for all of
  them; path statements ask of `hypot` only that it is a length (`MeasuresLength`).
* The clips of the asset pack advance: `fps > 0` (`ClipsAdvance`). Statements about order and
  about reached stages ask that no scheduled action that is due has a negative lifetime
  (`DueLifetimesOk`), statements about seeking that delays are not negative (`DelaysOk`). The
  validator checks none of these; it looks at `durationMs` alone.
* Others who register runs use run ids and cancellation tokens that no queue launch uses, and a
  worker's calls return.
  They may start runs on any widget and do not ask whether it is busy
  (`apps/desktop/src-tauri/src/workspace_commands.rs:463-475`); `foreign` is the set of widgets
  on which they do.

## Where the code does less than it might

* A due animation with a negative lifetime keeps the main loop from ever ending, and one event
  and one rule are enough (`Replay.OneEventLoopsForEver`). The loop ends exactly when no due
  scheduled action has a negative lifetime (`Replay.MainLoopEndsIff`). That statement covers
  negative lifetimes on animations and on effects spawned near nothing. A negative lifetime on
  a spawn near a target is not decided from the schedule, because whether it repeats depends on
  the stage at that moment: the spawned object may take its target's place, and then the second
  run pushes nothing (`Replay.SpawnReplacesItsSource`). Once the loop stands at such a spawn, it
  never leaves it exactly when the spawn succeeds in the stage it finds and in the one it leaves
  (`SpawnLoops.SpawnIsNeverLeftIff`).
* The validator accepts a reference to an object that only a later action spawns, and the
  replay then warns (`ValidatorSoundness.ValidatorAcceptsUseBeforeSpawn`); in the other order it
  does not (`ValidatorSoundness.UseAfterSpawnIsSilent`). A document the validator accepts
  replays without a warning exactly when the actions foreseen for its feed each find what they
  look up (`ValidatorSoundness.ValidatedSilentIff`). That condition (`AllResolve` over
  `Foreseen`) follows ids, entity ids, tags and metadata through the sorted schedule and needs
  no replay; spawns, removals, lifetimes and completions are all part of it. References to the
  scene alone, with nothing removed or replaced, always satisfy it
  (`ValidatorSoundness.ValidatedReplayIsSilent`).
* Two launches that both look at a widget before either registers put two runs on it
  (`LaunchProtocol.RaceRuns`), and so does a run that is started from elsewhere on the widget
  of a single launch, however launches are serialised (`LaunchProtocol.OthersBreakExclusivity`).
  `LaunchProtocol.SerialExclusiveIffOthersApart` and
  `LaunchProtocol.ExclusiveIffNoRivalsAndOthersApart` say exactly when a widget has at most one
  active run. Among queue runs alone, serialised launches are always enough
  (`LaunchProtocol.SerialLaunchesKeepQueueRunsExclusive`).
* The chunked decoder gives up on chunk extensions, which section 7.1.1 of RFC 9112 has
  recipients ignore (`ChunkedBody.ExtensionsAreRefused`), and accepts any two bytes after a
  chunk's data (`ChunkedBody.WhatDecodes`).
* Normalising a timeline is not idempotent: a single event at 0 with offset 5 goes to 5 and then
  to 10 (`EventAuthoring.NormalizingDrifts`). It is exactly when the start of the timeline
  holds (`EventAuthoring.NormalizeIdempotentIff`); aligned timelines always qualify.
* A move to an object can make another object jump, one whose entity id is the mover's id
  (`RuntimeInvariants.MoveToObjectJumps`). The picture is unchanged exactly when all objects
  that answer to the mover's id are drawn at one place
  (`RuntimeInvariants.MoveToObjectDoesNotJump`).
* An object whose id is empty is moved but not removed by `despawnAtObject`
  (`ActionEffects.DespawnRemoves`).

## Model

| member | source | states |
|---|---|---|
| Scheduler.LoopRuns | experiments/visual-event-runtime/src/runtimeState.ts:1133-1151 | At a due entry the array loop stands at the earliest pending job; running it, pushing and re-sorting keeps the relation between array and reference simulator |
| Scheduler.LoopSkips | experiments/visual-event-runtime/src/runtimeState.ts:1141-1143 | Once the loop meets an entry that is not due, no later entry is due either |
| Scheduler.LoopEnds | experiments/visual-event-runtime/src/runtimeState.ts:1133-1151 | When the index passes the array, the state and the executed jobs are those of the whole reference run, and what follows them in the array is not due |
| Scheduler.VisitedEntriesStay | experiments/visual-event-runtime/src/runtimeState.ts:1133-1139 | Pushing behind the current entry and sorting again moves no entry the loop has visited |
| Scheduler.ExecutesDueInOrder | experiments/visual-event-runtime/src/runtimeState.ts:1133-1151 | The executed jobs are exactly the due ones among the initial and all pushed jobs, once each, by time, then action index, then insertion |
| Scheduler.StateIsFoldOfTrace | experiments/visual-event-runtime/src/runtimeState.ts:1145-1150 | The final state is the executed jobs applied in order to the initial state |
| Scheduler.RunsAlikeUntil | experiments/visual-event-runtime/src/runtimeState.ts:1133-1151 | Work lists with the same jobs due by t run alike up to t; a run to a later time only continues |
| Scheduler.PastPushLoopsForEver | experiments/visual-event-runtime/src/runtimeState.ts:1133-1151 | A due job that pushes in front of itself is about to be run again after any number of further iterations |
| Scheduler.PastPushIsReached | experiments/visual-event-runtime/src/runtimeState.ts:1133-1151 | If such a job stands anywhere ahead, the loop gets to it, and the index stays inside the array for ever |
| Scheduler.LoopReachesEnd | experiments/visual-event-runtime/src/runtimeState.ts:1133-1151 | With jobs that push forward only, finitely many iterations bring the index to the end of the array, in the state of the reference run |
| Scheduler.LoopEndsIffTimely | experiments/visual-event-runtime/src/runtimeState.ts:1133-1151 | Where every due job either pushes forward only or pushes in front of itself, the loop ends if and only if none of the latter is due |
| Replay.RunWorkList | experiments/visual-event-runtime/src/runtimeState.ts:1133-1151 | If no due entry pushes into its past, the main loop ends, executes what the reference simulator executes, once each and in that order, and leaves its stage; the array then holds the executed actions and only undue ones behind, at most three entries per initial one |
| Replay.DispatchEvents | experiments/visual-event-runtime/src/runtimeState.ts:1103-1131 | The loops leave the schedule and the dispatch records of the events in time order, which `RuleDispatch` characterises by events, conditions and places |
| Replay.PushActionsOfRules | experiments/visual-event-runtime/src/runtimeState.ts:1118-1130 | The actions of all matching rules are pushed rule by rule, in action order, and nothing else changes |
| Replay.BuildSceneRuntimeState | experiments/visual-event-runtime/src/runtimeState.ts:1080-1173 | The result is that of the reference run drawn from all its tracks: neither the re-sorted array nor the dropped tracks show; the steps of that run are characterised in `ActionMeaning` |
| Replay.ExecutionOrder | experiments/visual-event-runtime/src/runtimeState.ts:1134-1137 | The executed jobs are the stable sorting, by time and then by action index, of exactly those scheduled and pushed jobs whose time has come |
| Replay.RunExecutesDueInOrder | experiments/visual-event-runtime/src/runtimeState.ts:1080-1151 | A replay executes exactly the due actions among the scheduled and the pushed ones, once each, in order, and its stage is their fold |
| Replay.SeekIsResume | experiments/visual-event-runtime/src/runtimeState.ts:1080-1151 | For t no later than u, the actions, dispatched events and warnings at t are prefixes of those at u, and the stage at u is the stage at t with the remaining actions applied |
| Replay.ScheduleFromRules | experiments/visual-event-runtime/src/runtimeState.ts:1107-1131 | Every scheduled action comes from an action of a listed rule and an event that has happened, at the event's time plus the delay |
| Replay.DispatchCountsActions | experiments/visual-event-runtime/src/runtimeState.ts:1107-1131 | The action counts of the dispatched events add up to the initial work list |
| Replay.WarningsOnlyGrow | experiments/visual-event-runtime/src/runtimeState.ts:153-162 | No sequence of actions removes or reorders a warning |
| Replay.FollowUpsLater | experiments/visual-event-runtime/src/runtimeState.ts:341-400 | What an action pushes runs no earlier than the action and behind it, if its lifetime is not negative |
| Replay.MainLoopEndsIff | experiments/visual-event-runtime/src/runtimeState.ts:1133-1151 | Started on the schedule of a feed, the main loop gets to the end of its array if and only if no due scheduled action has a negative lifetime (spawns of a missing preset excepted, spawns near a target left open) |
| Replay.NegativeLifetimeLoopsForEver | experiments/visual-event-runtime/src/runtimeState.ts:1133-1151 | In a work list whose due negative lifetimes are on animations or on effects spawned near nothing, one of them anywhere is enough: after any number of iterations the index is still inside the array |
| Replay.OneEventLoopsForEver | experiments/visual-event-runtime/src/runtimeState.ts:1080-1151 | One event and one rule that plays an animation with lifetime -1 never let the loop end, on any scene |
| Replay.SpawnReplacesItsSource | experiments/visual-event-runtime/src/runtimeState.ts:560-618 | A spawn with a negative lifetime that takes the place of its source pushes a removal the first time it runs and nothing the second time |
| SpawnLoops.SpawnIsNeverLeftIff | experiments/visual-event-runtime/src/runtimeState.ts:1133-1151 | Standing at a due spawn with a negative lifetime, of any kind, the loop runs it again for ever if and only if it succeeds in the stage it finds and in the one it leaves |
| Scheduler.IdleIsLeft | experiments/visual-event-runtime/src/runtimeState.ts:1133-1151 | A job that pushes nothing more is left in the end, also when copies of it follow |
| Replay.CompletionWaitsForClip | experiments/visual-event-runtime/src/runtimeState.ts:366-376 | A completion state that is pushed is due at a whole millisecond exactly when the clip is complete by then; `RuntimeState.CompletionMeans` says when one is pushed |
| RuntimeState.ScheduleOnceCompletion | experiments/visual-event-runtime/src/runtimeState.ts:341-377 | Appends at most one job, which is there if and only if it is the completion of a once clip with target and state, as `Completes` says it; the rest of the array stays |
| RuntimeState.CompletionMeans | experiments/visual-event-runtime/src/runtimeState.ts:341-377 | At most one job is pushed, and a job is pushed if and only if clip and target are named, the first clip of that id plays once, and the explicit or else the clip's state is not empty; it sets that state on the target, for the same event and rule, behind its source, after the least whole number of milliseconds at which the clip is complete |
| ActionMeaning.PlayPushes | experiments/visual-event-runtime/src/runtimeState.ts:511-559 | Playing an animation pushes that completion for the clip played and its target, and then the removal its lifetime asks for |
| ActionMeaning.SpawnPushesMeans | experiments/visual-event-runtime/src/runtimeState.ts:560-684 | A spawn pushes the removal of what it spawned at the end of its lifetime, an effect also the completion of its clip on the explicit target or else the object it is near, and a spawned object nothing |
| RuntimeState.ScheduleLifetimeRemoval | experiments/visual-event-runtime/src/runtimeState.ts:379-400 | Appends the removal of the object at the end of its lifetime if it has one |
| RuntimeState.WorkList.Push | experiments/visual-event-runtime/src/runtimeState.ts:366-376 | The entry is appended |
| RuntimeState.WorkList.SortByTime | experiments/visual-event-runtime/src/runtimeState.ts:1134-1137 | The array becomes its stable sorting by time, then action index |
| ActionEffects.UpdateTouchesOnlyTargets | experiments/visual-event-runtime/src/runtimeState.ts:92-115 | An update leaves tracks, list and every object not answering to its target alone, and keeps identity and origin of those it rewrites |
| ActionMeaning.UpdateMeans | experiments/visual-event-runtime/src/runtimeState.ts:92-151 | Each object that answers to the target becomes exactly what the update says (state, visual state and clip of the first entry for the state, with the start reset only if the clip changes; hidden or shown; clip and start; one property), every other object stays, and a missing clip and a missing target are reported |
| ActionMeaning.WarnMeans | experiments/visual-event-runtime/src/runtimeState.ts:50-68 | A warning is added behind the others under the id its non-empty parts make, unless one of that id is there |
| ActionMeaning.OtherMessageOtherId | experiments/visual-event-runtime/src/runtimeState.ts:50-68 | Two warnings of one action share an id only if they say the same |
| ActionMeaning.SpawnMeans | experiments/visual-event-runtime/src/runtimeState.ts:178-239 | A spawned object enters last, in place of one with its id: at the drawn place of its source, the stage place of its target or (50, 50), plus the offset, or at the coordinates given; in the state given, the preset's, or "active"; with the clip given, the preset's for that state, or its default; an attached effect gets its track |
| ActionMeaning.SpawnFails | experiments/visual-event-runtime/src/runtimeState.ts:560-684 | A spawn whose preset or target is missing pushes nothing and leaves the stage but for the one warning that names what is missing |
| ActionMeaning.TrackMeans | experiments/visual-event-runtime/src/runtimeState.ts:702-836 | A track action changes no object, raises its warnings in order, and adds exactly one track behind the others, with the owner, ends, path, radius, turns, target, offset, duration and easing its fields ask for, if its objects are there and its path has two points |
| ActionMeaning.TakeOffMeans | experiments/visual-event-runtime/src/runtimeState.ts:412-427 | Detaching and hiding a trail take off all tracks of their kind of the one object that answers first, and nothing else |
| ActionMeaning.RemoveMeans | experiments/visual-event-runtime/src/runtimeState.ts:274-326 | A removal takes out exactly what answers to the id, has the tag or has the metadata value, and the tracks whose object is gone; it warns exactly when it names nothing or finds nothing |
| ActionMeaning.DespawnMeans | experiments/visual-event-runtime/src/runtimeState.ts:839-874 | A despawning object is put where its target is drawn plus the offset and then removed by its id, if both are there; what is missing is reported |
| ActionMeaning.BeginningMeans | experiments/visual-event-runtime/src/runtimeState.ts:40-48 | A replay begins with the objects of the scene, each in its visual state if it has one, without tracks and warnings |
| ActionEffects.ShowUndoesHide | experiments/visual-event-runtime/src/runtimeState.ts:479-510 | Showing undoes hiding exactly when everything hidden was visible before |
| ActionEffects.ReenteringStateChangesNothing | experiments/visual-event-runtime/src/runtimeState.ts:121-151 | Entering a state again, at any later time, neither restarts the animation nor changes anything else |
| ActionEffects.DetachUndoesAttach | experiments/visual-event-runtime/src/runtimeState.ts:811-838 | Detaching right after attaching restores the stage exactly when the object was not attached before |
| ActionEffects.HideTrailUndoesShowTrail | experiments/visual-event-runtime/src/runtimeState.ts:927-954 | Hiding a route trail right after showing it restores the stage exactly when the object had no trail |
| ActionEffects.RemoveById | experiments/visual-event-runtime/src/runtimeState.ts:274-326 | Removing by id takes out all that answers to the id and exactly the tracks whose object is gone, without a warning |
| ActionEffects.LifetimeUndoesSpawn | experiments/visual-event-runtime/src/runtimeState.ts:379-400 | The removal a lifetime schedules, applied straight after the spawning, restores objects and tracks, for fresh ids |
| ActionEffects.LifetimeEndsObject | experiments/visual-event-runtime/src/runtimeState.ts:379-400 | Whatever jobs run in between, that removal takes out exactly what answers to the spawned id and the tracks of what is gone, or nothing if the object is gone already |
| ActionEffects.DespawnRemoves | experiments/visual-event-runtime/src/runtimeState.ts:839-874 | A despawned object leaves with all that answers to its id and with their tracks, if and only if it has an id |
| RuntimeInvariants.ActionKeepsOk | experiments/visual-event-runtime/src/runtimeState.ts:462-956 | Every action keeps object, track and warning ids unique, tracks on live objects, and tracks in start order |
| RuntimeInvariants.ReachedStageOk | experiments/visual-event-runtime/src/runtimeState.ts:1080-1151 | The same holds of the stage every replay reaches, so the sampler's own sort changes nothing there |
| RuntimeInvariants.ReachedScenePositions | experiments/visual-event-runtime/src/runtimeState.ts:988-1078 | In every reached stage whose parents are attached before their children, attached objects are drawn at their parent's drawn place plus offset, others at the sample of their last motion track, or at their base |
| RuntimeInvariants.SampledIsLive | experiments/visual-event-runtime/src/runtimeState.ts:76-90 | Looking an object up in the drawn scene finds it exactly when the stage has it, under the same id |
| RuntimeInvariants.MoveToObjectTrack | experiments/visual-event-runtime/src/runtimeState.ts:722-757 | The new track leads from where the mover is drawn to where the target is drawn plus the offset, on the mover's id |
| RuntimeInvariants.MoveToObjectDoesNotJump | experiments/visual-event-runtime/src/runtimeState.ts:722-757 | With positive duration, a fresh track id and no visible attachment, the picture of the moment is unchanged if and only if all that answers to the mover's id is drawn at one place |
| RuntimeInvariants.MoveToObjectJumps | experiments/visual-event-runtime/src/runtimeState.ts:722-757 | A stage, an object "a" and elsewhere one whose entity id is "a", in which moving "a" changes the picture of the moment |
| RuntimeInvariants.MoveToObjectArrives | experiments/visual-event-runtime/src/runtimeState.ts:722-757 | In every later stage that holds the track, from the end of its duration on, the mover is drawn where the target was drawn at the start plus the offset, while no later motion and no attachment acts on the mover |
| RuntimeInvariants.AttachTakesEffect | experiments/visual-event-runtime/src/runtimeState.ts:811-836 | In the stage an attachment leaves, its object is drawn at the target's drawn place plus the offset at every time from its start to its end, if the track id is fresh and the target has an id and does not answer, by id or entity id, to the id of the object attached |
| RuntimeInvariants.AttachmentHolds | experiments/visual-event-runtime/src/runtimeState.ts:988-1078 | The same in every later stage that holds the track, while no later attachment acts on the object and the target is attached by earlier tracks only |
| RuntimeInvariants.SnapshotFitsTogether | experiments/visual-event-runtime/src/runtimeState.ts:1153-1172 | The returned objects are the drawn ones in a stable layering by zIndex; spawned objects, effects and the objects of all returned tracks are among them |
| ActionMeaning.ResultMeans | experiments/visual-event-runtime/src/runtimeState.ts:1153-1173 | The objects are the drawn ones stably layered by zIndex, absent as 0; the spawned ones are exactly those marked so and the active effects exactly the effects not hidden, both in drawn order; the tracks are those that have started and are persistent, leave their object somewhere or still run |
| Sampling.SampleObjectsFromTracks | experiments/visual-event-runtime/src/runtimeState.ts:988-1078 | The two passes, over motion tracks and over attachments in start order, give the scene the sampling properties are about |
| SamplingProperties.SamplingKeepsItems | experiments/visual-event-runtime/src/runtimeState.ts:978-1078 | Drawing keeps number, order and every field of objects but the five animated numbers |
| SamplingProperties.SamplingIgnoresDroppedTracks | experiments/visual-event-runtime/src/runtimeState.ts:958-976 | For every object list, track list and time, the picture of the retained tracks is the picture of all tracks |
| SamplingProperties.ScenePositions | experiments/visual-event-runtime/src/runtimeState.ts:988-1078 | When parents are attached before their children, an attached object is drawn at its parent's drawn place plus offset, and an unattached one where the first pass left it |
| SamplingProperties.AttachedSitsAtParent | experiments/visual-event-runtime/src/runtimeState.ts:1058-1078 | For one attachment it is enough that its parent is attached by earlier tracks only |
| SamplingProperties.LastMotionWins | experiments/visual-event-runtime/src/runtimeState.ts:1001-1056 | The first pass leaves an object at the sample of the last motion track acting on it, or untouched |
| TrackLaws.NumberTrackShows | experiments/visual-event-runtime/src/runtimeState.ts:1001-1056 | A property track that acts last leaves its number where the law of its easing puts it between start and end value, and every other field as it was drawn before |
| TrackLaws.PictureOfShownTracks | experiments/visual-event-runtime/src/runtimeState.ts:988-1078 | The picture is that of the tracks left when those are dropped that have not started, are route trails, are orbits or attachments that are over, or are attached to nothing |
| SamplingProperties.FinishedMoveRests | experiments/visual-event-runtime/src/runtimeState.ts:988-1078 | After a move is over its object stays at the destination while no later motion and no attachment, earlier ones included, acts on it |
| SamplingProperties.StartingMoveIsInvisible | experiments/visual-event-runtime/src/runtimeState.ts:988-1078 | A move that starts where its object is drawn leaves the whole picture unchanged if and only if all objects it acts on are drawn there |
| TrackRuntime.SampleMoveAlongPathTrack | experiments/visual-event-runtime/src/trackRuntime.ts:71-112 | The loop that spends the remaining length returns the sample the arc-length statements are about |
| TrackRuntime.PathSampleAtArc | experiments/visual-event-runtime/src/trackRuntime.ts:71-112 | On a path of positive length a point is the sample if and only if it lies at the eased share of the total arc length; the fall-through is never reached |
| TrackRuntime.PathArcMonotone | experiments/visual-event-runtime/src/trackRuntime.ts:9-35 | The arc length covered never decreases with time, for each of the four easings |
| TrackRuntime.PathEnds | experiments/visual-event-runtime/src/trackRuntime.ts:71-112 | A track starts at the first point of its path and ends at the last, degenerate segments and paths included |
| TrackLaws.MoveMeans | experiments/visual-event-runtime/src/trackRuntime.ts:26-65 | At time t after the start, with duration d, each coordinate of a move from a to b satisfies (v - a) * d = (b - a) * t if linear, and the quadratic law of its easing otherwise; before the start it is a, from the end on b |
| TrackLaws.PathMeans | experiments/visual-event-runtime/src/trackRuntime.ts:71-112 | A track on a path of positive length is the one point whose arc length from the start follows the same law from 0 to the length of the path |
| TrackLaws.ShortPathMeans | experiments/visual-event-runtime/src/trackRuntime.ts:71-91 | Without points it stays at the start of the track, with one point or without length at the last point |
| TrackLaws.OrbitMeans | experiments/visual-event-runtime/src/trackRuntime.ts:114-129 | An orbit is on the circle of its radius, 8 if none, around its target or (50, 50) plus the offset, at the linear share of its turns, one if none |
| TrackLaws.NumberMeans | experiments/visual-event-runtime/src/trackRuntime.ts:131-146 | An animated number starts at the start value, 0 if none, ends at the end value, the start value if none, and follows the law of its easing between |
| TrackRuntime.EasingRange | experiments/visual-event-runtime/src/trackRuntime.ts:9-24 | Every easing maps into [0, 1], 0 and below to 0, 1 and above to 1 |
| TrackRuntime.EasingMonotone | experiments/visual-event-runtime/src/trackRuntime.ts:9-24 | All four easings are non-decreasing |
| TrackRuntime.EasedEnds | experiments/visual-event-runtime/src/trackRuntime.ts:26-35 | A track has covered nothing before it starts and everything once its duration is over |
| AnimationRuntime.DurationIsLeastCompleteMs | experiments/visual-event-runtime/src/animationRuntime.ts:18-43 | The duration is the least whole millisecond at which a once clip is complete |
| AnimationRuntime.FramesStayInRange | experiments/visual-event-runtime/src/animationRuntime.ts:3-16 | Every frame at every time is on the sheet exactly when the rate is not negative or the clip loops over one frame |
| AnimationRuntime.FrameMeans | experiments/visual-event-runtime/src/animationRuntime.ts:3-16 | With a rate that is not negative, a looping clip shows the number of whole frames elapsed modulo the frame count, any other clip that number up to the last frame |
| AnimationRuntime.DurationMeans | experiments/visual-event-runtime/src/animationRuntime.ts:32-43 | For a positive rate, the duration is the least whole number of milliseconds in which as many frames elapse as the clip has |
| AnimationRuntime.FrameInRange | experiments/visual-event-runtime/src/animationRuntime.ts:3-16 | With a rate that is not negative the frame is at least 0 and below the frame count |
| AnimationRuntime.CompleteShowsLastFrame | experiments/visual-event-runtime/src/animationRuntime.ts:3-30 | A complete clip shows its last frame |
| AnimationRuntime.NonPositiveRateNeverCompletes | experiments/visual-event-runtime/src/animationRuntime.ts:18-30 | A clip whose rate is not positive never completes |
| BindingEngine.PathsCompose | experiments/visual-event-runtime/src/bindingEngine.ts:8-20 | Following a path is following its start and then the rest, also past the end of the data |
| RuleDispatch.PathIsFollowed | experiments/visual-event-runtime/src/bindingEngine.ts:8-20 | The value looked up is the one value to which the path leads, segment by segment, from the named fields of the event |
| RuleDispatch.FiresIffMatches | experiments/visual-event-runtime/src/bindingEngine.ts:22-41 | A rule matches an event if and only if, for each of its conditions, the value to which the path leads is the expected one or one of those listed, where objects are equal only to themselves |
| RuleDispatch.ScheduledIff | experiments/visual-event-runtime/src/runtimeState.ts:1103-1131 | An action is on the schedule if and only if some event has happened, some listed rule fires for it, and it is an action of that rule, with the place in the rule as its index, at the time of the event plus the delay |
| RuleDispatch.ScheduleInOrder | experiments/visual-event-runtime/src/runtimeState.ts:1103-1131 | The schedule has one entry for each such event, rule and action, and no other, in the order of their places |
| RuleDispatch.DispatchedInOrder | experiments/visual-event-runtime/src/runtimeState.ts:1107-1117 | Exactly the events that have happened are dispatched, in order, each with the ids of the rules that fire for it, in list order, and the number of their actions |
| StableSort.SortIsStable | experiments/visual-event-runtime/src/runtimeState.ts:1134-1137 | Sorting orders the list and keeps the order of ties |
| StableSort.StableSortIsUnique | experiments/visual-event-runtime/src/runtimeState.ts:1134-1137 | There is only one stable sorting, so the results hold for any conforming sort |
| AuthoringValidation.ValidateAuthoringState | experiments/visual-event-runtime/src/authoringValidation.ts:44-241 | The validator reports exactly the expected warnings, each with its text and in order; points and durations are real numbers |
| AuthoringValidation.ValidatePath | experiments/visual-event-runtime/src/authoringValidation.ts:26-42 | A path action is reported exactly when its path has fewer than two points; points are real numbers and hence valid |
| AuthoringValidation.ValidateObjects | experiments/visual-event-runtime/src/authoringValidation.ts:69-115 | Object checks in order, and each repeated id or entity id reported once, in order of its first repetition |
| AuthoringValidation.CollectSpawnIds | experiments/visual-event-runtime/src/authoringValidation.ts:44-241 | The known ids grow by exactly the non-empty ids actions give to what they spawn |
| AuthoringValidation.SilentIffConsistent | experiments/visual-event-runtime/src/authoringValidation.ts:44-241 | Nothing is reported if and only if ids are unique, entity ids present, every reference resolves, paths have two points and durations are positive |
| ValidatorReports.WholeReport | experiments/visual-event-runtime/src/authoringValidation.ts:44-241 | The report is that of each object, of duplicate ids and entity ids, of each preset, each clip and each rule, and of duplicate rule ids, in this order, each with its text and read from the fields of the entity |
| ValidatorReports.ActionReports | experiments/visual-event-runtime/src/authoringValidation.ts:161-231 | What is reported of an action, constructor by constructor: each reference that is unknown, its clip, its preset, a short path, and a duration at or below zero of each timed kind |
| ValidatorReports.DuplicatesMean | experiments/visual-event-runtime/src/authoringValidation.ts:69-115 | The ids listed as duplicates are those at the places where an id occurs for the second time, in order |
| ValidatorReports.SpawnIdsMean | experiments/visual-event-runtime/src/authoringValidation.ts:149-156 | An id counts as spawned if and only if it is not empty and some action gives it |
| ValidatorReports.SceneNamesMean | experiments/visual-event-runtime/src/authoringValidation.ts:56-62 | A name belongs to the scene if and only if it is not empty and the id or entity id of some object |
| ValidatorSoundness.ValidatedSilentIff | experiments/visual-event-runtime/src/authoringValidation.ts:44-241 | For a document the validator accepts, without due negative lifetimes, the replay of a feed to a time warns of nothing if and only if the actions foreseen for it, in run order, each find what they look up, starting from the scene |
| ValidatorSoundness.ValidatedReplayIsSilent | experiments/visual-event-runtime/src/authoringValidation.ts:44-241 | In particular no replay of any feed to any time warns if required ids are given, nothing is removed, references are to the scene, and spawned ids are separate from scene ids |
| WarningForecast.SilentIffForeseenResolve | experiments/visual-event-runtime/src/runtimeState.ts:462-956 | The same for any schedule of actions whose paths, presets and spawned clips are in order |
| WarningForecast.ActionAsForecast | experiments/visual-event-runtime/src/runtimeState.ts:462-956 | On any stage an action that finds what it looks up does not warn and changes ids, entity ids, tags, metadata and the work list as foreseen from the action alone; otherwise it warns |
| WarningForecast.RosterRunIsForeseen | experiments/visual-event-runtime/src/runtimeState.ts:1107-1151 | What is executed, pushed completions and removals included, is the due part of one sorting of the schedule and of what its due actions push |
| ValidatorSoundness.ValidatorAcceptsUseBeforeSpawn | experiments/visual-event-runtime/src/authoringValidation.ts:160-241 | A document the validator accepts whose replay warns, since it shows an object before spawning it |
| ValidatorSoundness.UseAfterSpawnIsSilent | experiments/visual-event-runtime/src/authoringValidation.ts:150-156 | A document that spawns an object and then shows it: the validator accepts it and its replay is silent |
| EventAuthoring.MakeEventId | experiments/visual-event-runtime/src/eventAuthoring.ts:70-81 | The search ends and finds the first free candidate |
| EventAuthoring.FirstFreeIsFree | experiments/visual-event-runtime/src/eventAuthoring.ts:70-81 | The search tries at most one candidate more than ids are taken, skips only taken ones and stops at a free one |
| EventAuthoring.FreshIdIsFree | experiments/visual-event-runtime/src/eventAuthoring.ts:70-81 | No event has the new id, which is among the first events.length + 1 candidates |
| EventAuthoring.FreshIdMeans | experiments/visual-event-runtime/src/eventAuthoring.ts:70-81 | The new id is the base with the least number above the number of events that no event has |
| EventAuthoring.DecimalRoundTrip | experiments/visual-event-runtime/src/eventAuthoring.ts:74-78 | Reading a printed index gives it back, so different candidates differ |
| EventAuthoring.NormalizeAligned | experiments/visual-event-runtime/src/eventAuthoring.ts:58-68 | On an aligned timeline normalising only sorts, keeps the start, and is idempotent |
| EventAuthoring.NormalizeMeans | experiments/visual-event-runtime/src/eventAuthoring.ts:58-68 | Every event with an offset is put at the earliest time plus its offset, the others stay, and the list is sorted |
| EventAuthoring.TimelineMeans | experiments/visual-event-runtime/src/eventAuthoring.ts:14-18 | The timeline is stably sorted by time and then by id |
| EventAuthoring.NewEventMeans | experiments/visual-event-runtime/src/eventAuthoring.ts:83-106 | A new event comes one second after the latest offset, or at 0 in an empty timeline, under a fresh id |
| EventAuthoring.CopyMeans | experiments/visual-event-runtime/src/eventAuthoring.ts:222-232 | A copy comes 250 ms after its original, under a fresh id and with its kind and data |
| EventAuthoring.NormalizeIdempotentIff | experiments/visual-event-runtime/src/eventAuthoring.ts:58-68 | Normalising is idempotent exactly when no offset lies before the start and some event is put on it, or no event has an offset |
| EventAuthoring.NormalizingDrifts | experiments/visual-event-runtime/src/eventAuthoring.ts:58-68 | One event at 0 with offset 5 goes to 5, and normalised again to 10 |
| EventAuthoring.EditKeepsTimeline | experiments/visual-event-runtime/src/eventAuthoring.ts:83-106 | Creating, duplicating and normalising keep alignment, start, every existing event and distinct ids |
| EventAuthoring.EditsNeverDrift | experiments/visual-event-runtime/src/eventAuthoring.ts:222-232 | Any sequence of such edits keeps every existing event, its time included, and distinct ids |
| ActiveRunRegistry.DirectWorkActiveRunRegistry.Register | apps/desktop/src-tauri/src/app_state.rs:134-141 | The run is stored under its id, replacing an earlier one |
| ActiveRunRegistry.DirectWorkActiveRunRegistry.TryRegister | apps/desktop/src-tauri/src/app_state.rs:143-155 | Succeeds exactly when the id is free, and changes nothing otherwise |
| ActiveRunRegistry.DirectWorkActiveRunRegistry.HasActiveRun | apps/desktop/src-tauri/src/app_state.rs:157-162 | Whether the id is registered |
| ActiveRunRegistry.DirectWorkActiveRunRegistry.HasActiveWidgetRun | apps/desktop/src-tauri/src/app_state.rs:220-235 | Whether some registered run belongs to the workspace, workbench and widget |
| ActiveRunRegistry.DirectWorkActiveRunRegistry.RequestCancellation | apps/desktop/src-tauri/src/app_state.rs:164-190 | Succeeds exactly when the run is registered for the widget; then its token alone is cancelled |
| ActiveRunRegistry.DirectWorkActiveRunRegistry.RequestForceKill | apps/desktop/src-tauri/src/app_state.rs:192-218 | The same for the force-kill flag |
| ActiveRunRegistry.DirectWorkActiveRunRegistry.Unregister | apps/desktop/src-tauri/src/app_state.rs:245-250 | The id is free afterwards, all other runs stay |
| LaunchProtocol.RunIdsAreExclusive | apps/desktop/src-tauri/src/agent_queue_direct_work_launcher.rs:65-110 | In every interleaving no two launches hold one run id, the registry holds exactly the held queue ids, and each launch has tried to record its result exactly as often as its phase says: once before its id is released |
| LaunchProtocol.CancellationReachesHolder | apps/desktop/src-tauri/src/app_state.rs:164-190 | In every reachable state a request, whatever run and widget it names, cancels exactly the launch that holds that run on that widget; no other launch is cancelled and nothing else changes |
| LaunchProtocol.LaunchesEnd | apps/desktop/src-tauri/src/agent_queue_direct_work_launcher.rs:65-180 | Every single launch with its worker takes at most the steps its phase leaves it, seven in all, in every interleaving |
| LaunchProtocol.QuietMeansReleased | apps/desktop/src-tauri/src/agent_queue_direct_work_launcher.rs:65-110 | When no launch can move, all are over and no queue run is left registered |
| LaunchProtocol.SerialLaunchesKeepQueueRunsExclusive | apps/desktop/src-tauri/src/agent_queue_direct_work_launcher.rs:71-95 | With serialised launches, and workers, cancellations and runs from elsewhere at any point, no two active queue runs share a widget |
| LaunchProtocol.SerialExclusiveIffOthersApart | apps/desktop/src-tauri/src/agent_queue_direct_work_launcher.rs:71-95 | With serialised launches a queue widget never has two active runs if and only if the widgets on which others start runs are none of the launches' |
| LaunchProtocol.OthersBreakExclusivity | apps/desktop/src-tauri/src/workspace_commands.rs:463-475 | One launch and one run started from elsewhere on its widget, serialised, put two active runs on the widget |
| LaunchProtocol.DisciplineKeepsQueueRunsExclusive | apps/desktop/src-tauri/src/agent_queue_direct_work_launcher.rs:74-86 | For queue runs it is enough that no launch checks its widget between a rival's check and registration, whatever others register |
| LaunchProtocol.RaceRuns | apps/desktop/src-tauri/src/agent_queue_direct_work_launcher.rs:74-86 | The interleaving of two rival launches that puts two runs on one widget |
| LaunchProtocol.QueueRunsExclusiveIffNoRivals | apps/desktop/src-tauri/src/agent_queue_direct_work_launcher.rs:74-86 | Unserialised launches keep queue runs exclusive in all interleavings if and only if no two share a widget under different run ids |
| LaunchProtocol.ExclusiveIffNoRivalsAndOthersApart | apps/desktop/src-tauri/src/agent_queue_direct_work_launcher.rs:74-86 | Unserialised launches keep queue widgets exclusive in all interleavings if and only if there are no such rivals and others start no runs on their widgets |
| LaunchProtocol.UndisturbedLaunch | apps/desktop/src-tauri/src/agent_queue_direct_work_launcher.rs:65-110 | A launch on an active run or a busy widget leaves the registry unchanged; the latter records its run as failed once; otherwise exactly its run is added |
| LaunchProtocol.SpawnBackgroundRun | apps/desktop/src-tauri/src/agent_queue_direct_work_launcher.rs:65-110 | The code of a launch left undisturbed leaves registry and finish attempts as the protocol's steps do, and adds a run with a fresh token only when it spawns |
| LaunchProtocol.UndisturbedWorker | apps/desktop/src-tauri/src/agent_queue_direct_work_launcher.rs:138-180 | The steps of a worker, whether the service opens or not, record one result, release its run and touch nothing else |
| LaunchProtocol.RunBackground | apps/desktop/src-tauri/src/agent_queue_direct_work_launcher.rs:138-180 | The code of the worker leaves registry and finish attempts as those steps do, whatever the service and the stream return, and records the summary's status or failed |
| ChunkedBody.DecodeChunkedBody | apps/desktop/src-tauri/src/agent_chat_ai_provider.rs:182-199 | The loop ends on every input with the decoding the statements below are about |
| ChunkedBody.WhatDecodes | apps/desktop/src-tauri/src/agent_chat_ai_provider.rs:182-199 | A body decodes to a text if and only if it is frames, each measured in bytes by its size line and followed by any two bytes, up to a zero line, and the text is their data |
| ChunkedBody.DecodingUndoesEncoding | apps/desktop/src-tauri/src/agent_chat_ai_provider.rs:182-199 | Decoding the encoding of non-empty chunks by section 7.1 of RFC 9112, with sizes in any hexadecimal spelling and any trailer, gives their concatenation |
| ChunkedBody.HexRoundTrip | apps/desktop/src-tauri/src/agent_chat_ai_provider.rs:188 | Reading a printed hexadecimal size gives it back |
| ChunkedBody.SizeMeans | apps/desktop/src-tauri/src/agent_chat_ai_provider.rs:188 | A size is read if and only if, after an optional plus sign, there are digits, all hexadecimal, of a value below 2 to the 64 |
| ChunkedBody.TrimMeans | apps/desktop/src-tauri/src/agent_chat_ai_provider.rs:188 | Trimming takes off white space at both ends and leaves none there |
| ChunkedBody.ExtensionsAreRefused | apps/desktop/src-tauri/src/agent_chat_ai_provider.rs:188 | A body with a chunk extension, after any valid chunks, is not decoded at all |
| CappedReader.ReadCappedText | crates/hobit-tools/src/process.rs:263-301 | Keeps the first min(cap, total) delivered bytes, is truncated exactly when there were more, and reports a read error with what came before it |
| CappedReader.Stream.Read | crates/hobit-tools/src/process.rs:268-271 | A read yields a non-empty piece of what is to come, the end, or an error |
| CappedReader.SplitDoesNotMatter | crates/hobit-tools/src/process.rs:263-301 | For an error-free stream the result depends only on the bytes, not on how they are split into reads |
| CappedReader.FailureKeepsPrefix | crates/hobit-tools/src/process.rs:271-279 | A failing stream keeps what came before the failure; what would follow it has no influence |
| DiffTotals.AggregateStatusFiles | crates/hobit-tools/src/git_diff.rs:525-558 | One entry per changed path, in path order, whose status and flags are determined by all changes of that path |
| DiffTotals.MergingStatuses | crates/hobit-tools/src/git_diff.rs:560-576 | Merging kinds one by one gives: conflicted if any is; else the common kind from the first known one on; else modified |
| DiffTotals.StatusMeans | crates/hobit-tools/src/git_diff.rs:560-576 | The status by places in the list of kinds: conflicted if one is; unknown if all are; else the kind of the first known one if all from there on agree, and modified if not |
| DiffTotals.FileTable.Entry | crates/hobit-tools/src/git_diff.rs:531-545 | The entry of the path is found or a new one inserted in order; nothing else changes |
| DiffTotals.ApplyLineDeltas | crates/hobit-tools/src/git_diff.rs:620-627 | Every file gains exactly the lines of its own rows; other rows are ignored |
| DiffTotals.SummarizeFiles | crates/hobit-tools/src/git_diff.rs:629-656 | Each count is the number of paths with the flag; the line totals are the sums over the files |
| DiffTotals.LinesAreConserved | crates/hobit-tools/src/git_diff.rs:620-664 | The files' lines add up to the lines of all rows whose path is one of theirs, none lost or counted twice |
| DiffTotals.RowOrderDoesNotMatter | crates/hobit-tools/src/git_diff.rs:620-664 | The counted lines do not depend on the order of the rows |
| DiffTotals.CountedAppend | crates/hobit-tools/src/git_diff.rs:658-664 | Optional sums add up over joined row lists, absent only when no row has a count |
| DiffTotals.FileListIsUnique | crates/hobit-tools/src/git_diff.rs:525-558 | Changes and rows determine the list of files |
| DiffTotals.SummarizeDiff | crates/hobit-tools/src/git_diff.rs:248-282 | Totals cover every changed path and every unstaged and staged row of such a path, whatever the file limit cuts from the list |
| DiffTotals.FileMeans | crates/hobit-tools/src/git_diff.rs:525-627 | Each flag of a listed file tells whether a change of its path has that area or is a conflict, and its lines on either side are those of the rows for its path, absent if none has a count |
| DiffTotals.LimitMeans | crates/hobit-tools/src/git_diff.rs:808-810 | As many files are listed as asked for, at most 500, and 100 if nothing is asked |

## Left out

- Floating point: rounding, NaN and infinite numbers. Points are therefore always valid, and the validator's report of an invalid path point never arises.
- Prototype properties of JavaScript objects: records hold exactly the keys given.
- Dotted rule paths are given by their segments; an object or array of a value carries the reference that `Object.is` compares.
- Absent easings, offsets, flags and metadata are stored as the defaults the runtime reads them as.
- Orbit sampling is modelled, but cosine and sine are arbitrary functions.
- The id sanitiser may map different texts to one id; freshness is stated where it matters.
- `localeCompare` is any total preorder of ids.
- EventAuthoring.MakeEventId: takes the lower-cased base, with everything but letters and digits dashed, as given.
- What the event templates fill in: kind and data are parameters of `EventAuthoring.CreateEventFromTemplate`.
- The append-and-sort of the editor's state update is modelled, its user interface is not.
- The document-level check beside the validator, asset diagnostics and serialisation: shape checks without interplay.
- AuthoringValidation.ValidateAuthoringState: does not model the reports of durations and points that are not finite numbers, because both are reals.
- AuthoringValidation.ValidatePath: does not model the reports of points that are not finite numbers, because coordinates are reals.
- Replay.MainLoopEndsIff: does not decide from the schedule due spawns near a target with a negative lifetime, whose repetition depends on the stage in which they run; SpawnLoops.SpawnIsNeverLeftIff decides them there.
- Replay.NegativeLifetimeLoopsForEver: the same spawns are excluded from the work list.
- ValidatorSoundness.ValidatedSilentIff: with a due negative lifetime the main loop need not end, and no result is stated.
- RuntimeState.ApplyScheduledAction: the pure branches that return a new stage are the function it calls, since they change nothing in place; only the pushes are imperative.
- TrackRuntime.PathSampleAtArc: the path is drawn in exact arithmetic, so the fall-through return that rounding can reach is not met.
- LaunchProtocol.SpawnBackgroundRun: the method is one launch without interference; interference is the business of the state machine.
- LaunchProtocol.RunIdsAreExclusive: a worker that never returns or panics holds its id for ever; both are excluded.
- Host artifacts, event emission, error printing and the database behind a finish attempt, which is a step that succeeds or fails.
- Force-kill requests are not protocol steps: they touch the registry exactly as cancellations do.
- ChunkedBody.DecodeChunkedBody: a size within two of the largest 64-bit number, for which the addition overflows, is treated as longer than the body; a wrapping build also ends without a result there, a checked build panics.
- Chunks cut inside a character: the body is then not text before it reaches the decoder.
- CappedReader.ReadCappedText: the lossy conversion of the kept bytes to text, and a stream that never ends.
- DiffTotals.SummarizeDiff: 64-bit overflow of line counts, patch previews, running Git and parsing its output; the parsed changes and rows are inputs.
- DiffTotals.AggregateStatusFiles: the ordered map is a list of files in path order; changes and file statuses share one type.
- User interface, animation-frame clock, SQLite, process spawning, timeouts, sockets, terminals and the queue runner's own session state.
