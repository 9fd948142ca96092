/**
  Launching queued direct work (`agent_queue_direct_work_launcher.rs`).

  Several launches run side by side, each followed by its own background worker; they share
  the run registry. One step is one locked registry call or one attempt to record the result
  of a run in the database. The statements below quantify over every interleaving of steps.
*/
module LaunchProtocol {
  import opened ActiveRunRegistry

  datatype Launch = Launch(runId: string, widget: WidgetKey)

  datatype LaunchStatus = Spawned | AlreadyActive | BlockedActiveWidget | Failed

  /** Where one launch, and then its worker, stands. */
  datatype Phase =
    | Idle            // before `has_active_run`
    | RunChecked      // before `has_active_widget_run`
    | Blocked         // the widget is busy; the run is to be recorded as failed
    | WidgetChecked   // before `try_register`
    | Registered      // before the worker is spawned
    | Opening         // the worker opens the workspace service
    | Streaming       // the worker runs the work
    | Releasing       // the result is recorded; before `unregister`
    | Over(status: LaunchStatus)

  /** The launches are numbered; the number of a launch stands for its cancellation token. */
  datatype State = State(runs: Runs<nat>, phases: seq<Phase>, finishAttempts: seq<nat>, cancelled: set<nat>)

  datatype Step =
    | CheckRun(l: nat)
    | CheckWidget(l: nat)
    | FinishBlocked(l: nat, recorded: bool)
    | TryRegister(l: nat)
    | Spawn(l: nat)
    | OpenService(l: nat, available: bool)
    | FinishStream(l: nat, recorded: bool)
    | Release(l: nat)
    | RequestCancellation(widget: WidgetKey, runId: string)
    | RegisterOther(run: ActiveRun<nat>)
    | UnregisterOther(runId: string)

  predicate IsQueueId(launches: seq<Launch>, runId: string) {
    exists l | 0 <= l < |launches| :: launches[l].runId == runId
  }

  predicate IsQueueWidget(launches: seq<Launch>, widget: WidgetKey) {
    exists l | 0 <= l < |launches| :: launches[l].widget == widget
  }

  function Init(launches: seq<Launch>): State {
    State(map[], seq(|launches|, _ => Idle), seq(|launches|, _ => 0), {})
  }

  predicate At(s: State, l: nat, phase: Phase) {
    l < |s.phases| && s.phases[l] == phase
  }

  /** Other parts of the application register and release runs of their own, under tokens of
      their own. */
  predicate Enabled(launches: seq<Launch>, s: State, step: Step) {
    match step
    case CheckRun(l) => At(s, l, Idle)
    case CheckWidget(l) => At(s, l, RunChecked)
    case FinishBlocked(l, _) => At(s, l, Blocked)
    case TryRegister(l) => At(s, l, WidgetChecked)
    case Spawn(l) => At(s, l, Registered)
    case OpenService(l, _) => At(s, l, Opening)
    case FinishStream(l, _) => At(s, l, Streaming)
    case Release(l) => At(s, l, Releasing)
    case RequestCancellation(_, _) => true
    case RegisterOther(run) => !IsQueueId(launches, run.runId) && run.token >= |launches|
    case UnregisterOther(runId) => !IsQueueId(launches, runId)
  }

  function Goto(s: State, l: nat, phase: Phase): State
    requires l < |s.phases|
  {
    s.(phases := s.phases[l := phase])
  }

  function Finishing(s: State, l: nat, phase: Phase): State
    requires l < |s.phases| == |s.finishAttempts|
  {
    Goto(s, l, phase).(finishAttempts := s.finishAttempts[l := s.finishAttempts[l] + 1])
  }

  predicate WellFormed(launches: seq<Launch>, s: State) {
    |s.phases| == |s.finishAttempts| == |launches|
  }

  function RunOf(launches: seq<Launch>, l: nat): ActiveRun<nat>
    requires l < |launches|
  {
    ActiveRun(launches[l].runId, launches[l].widget, l)
  }

  function After(launches: seq<Launch>, s: State, step: Step): (next: State)
    requires WellFormed(launches, s) && Enabled(launches, s, step)
    ensures WellFormed(launches, next)
  {
    match step
    case CheckRun(l) => Goto(s, l, if launches[l].runId in s.runs then Over(AlreadyActive) else RunChecked)
    case CheckWidget(l) => Goto(s, l, if WidgetBusy(s.runs, launches[l].widget) then Blocked else WidgetChecked)
    case FinishBlocked(l, recorded) => Finishing(s, l, Over(if recorded then BlockedActiveWidget else Failed))
    case TryRegister(l) =>
      Goto(s, l, if launches[l].runId in s.runs then Over(AlreadyActive) else Registered)
      .(runs := TryRegistered(s.runs, RunOf(launches, l)))
    case Spawn(l) => Goto(s, l, Opening)
    case OpenService(l, available) => if available then Goto(s, l, Streaming) else Finishing(s, l, Releasing)
    case FinishStream(l, _) => Finishing(s, l, Releasing)
    case Release(l) => Goto(s, l, Over(Spawned)).(runs := Unregistered(s.runs, launches[l].runId))
    case RequestCancellation(widget, runId) =>
      if Cancels(s.runs, widget, runId) then s.(cancelled := s.cancelled + {s.runs[runId].token}) else s
    case RegisterOther(run) => s.(runs := s.runs[run.runId := run])
    case UnregisterOther(runId) => s.(runs := Unregistered(s.runs, runId))
  }

  /** The steps can be taken one after the other. */
  predicate Executable(launches: seq<Launch>, s: State, steps: seq<Step>)
    requires WellFormed(launches, s)
    decreases |steps|
  {
    steps == [] || (Enabled(launches, s, steps[0]) && Executable(launches, After(launches, s, steps[0]), steps[1..]))
  }

  function AfterAll(launches: seq<Launch>, s: State, steps: seq<Step>): (next: State)
    requires WellFormed(launches, s) && Executable(launches, s, steps)
    ensures WellFormed(launches, next)
    decreases |steps|
  {
    if steps == [] then s else AfterAll(launches, After(launches, s, steps[0]), steps[1..])
  }

  lemma FirstStep(launches: seq<Launch>, s: State, step: Step, rest: seq<Step>)
    requires WellFormed(launches, s) && Enabled(launches, s, step)
             && Executable(launches, After(launches, s, step), rest)
    ensures Executable(launches, s, [step] + rest)
    ensures AfterAll(launches, s, [step] + rest) == AfterAll(launches, After(launches, s, step), rest)
  {
    assert ([step] + rest)[1..] == rest;
  }

  lemma OneStep(launches: seq<Launch>, s: State, a: Step)
    requires WellFormed(launches, s) && Enabled(launches, s, a)
    ensures Executable(launches, s, [a]) && AfterAll(launches, s, [a]) == After(launches, s, a)
  {
    hide Enabled, After;
    assert [a][1..] == [];
  }

  lemma TwoSteps(launches: seq<Launch>, s: State, a: Step, b: Step)
    requires WellFormed(launches, s) && Enabled(launches, s, a) && Enabled(launches, After(launches, s, a), b)
    ensures Executable(launches, s, [a, b])
            && AfterAll(launches, s, [a, b]) == After(launches, After(launches, s, a), b)
  {
    hide *;
    OneStep(launches, After(launches, s, a), b);
    FirstStep(launches, s, a, [b]);
    assert [a] + [b] == [a, b];
  }

  lemma ThreeSteps(launches: seq<Launch>, s: State, a: Step, b: Step, c: Step)
    requires WellFormed(launches, s) && Enabled(launches, s, a) && Enabled(launches, After(launches, s, a), b)
    requires Enabled(launches, After(launches, After(launches, s, a), b), c)
    ensures Executable(launches, s, [a, b, c])
    ensures AfterAll(launches, s, [a, b, c]) == After(launches, After(launches, After(launches, s, a), b), c)
  {
    hide *;
    TwoSteps(launches, After(launches, s, a), b, c);
    FirstStep(launches, s, a, [b, c]);
    assert [a] + [b, c] == [a, b, c];
  }

  lemma FourSteps(launches: seq<Launch>, s: State, a: Step, b: Step, c: Step, d: Step)
    requires WellFormed(launches, s) && Enabled(launches, s, a) && Enabled(launches, After(launches, s, a), b)
    requires Enabled(launches, After(launches, After(launches, s, a), b), c)
    requires Enabled(launches, After(launches, After(launches, After(launches, s, a), b), c), d)
    ensures Executable(launches, s, [a, b, c, d])
    ensures AfterAll(launches, s, [a, b, c, d])
         == After(launches, After(launches, After(launches, After(launches, s, a), b), c), d)
  {
    hide *;
    ThreeSteps(launches, After(launches, s, a), b, c, d);
    FirstStep(launches, s, a, [b, c, d]);
    assert [a] + [b, c, d] == [a, b, c, d];
  }

  // ------------------------------------------------------- run ids are exclusive

  /** The launch has registered its run and not released it: its worker holds the run id. */
  predicate Holds(s: State, l: nat) {
    l < |s.phases|
        && (s.phases[l] == Registered || s.phases[l] == Opening || s.phases[l] == Streaming || s.phases[l] == Releasing)
  }

  /** How often a launch in this phase has tried to record its result. */
  function AttemptsIn(phase: Phase): nat {
    match phase
    case Releasing => 1
    case Over(status) => if status == AlreadyActive then 0 else 1
    case _ => 0
  }

  predicate HeldIsRegistered(launches: seq<Launch>, s: State)
    requires WellFormed(launches, s)
  {
    forall l | 0 <= l < |launches| && Holds(s, l) ::
      launches[l].runId in s.runs && s.runs[launches[l].runId] == RunOf(launches, l)
  }

  predicate HeldBySomeLaunch(launches: seq<Launch>, s: State, id: string)
    requires WellFormed(launches, s)
  {
    exists l :: 0 <= l < |launches| && Holds(s, l) && launches[l].runId == id
  }

  predicate OthersHaveOwnTokens(launches: seq<Launch>, s: State) {
    forall id | id in s.runs && !IsQueueId(launches, id) :: s.runs[id].token >= |launches|
  }

  /** The registry holds exactly the ids of held runs, each under the token of its holder,
      runs from elsewhere have other tokens, and every launch has made exactly the finish
      attempts its phase implies. */
  predicate Inv(launches: seq<Launch>, s: State) {
    && WellFormed(launches, s)
    && HeldIsRegistered(launches, s)
    && (forall id | id in s.runs && IsQueueId(launches, id) :: HeldBySomeLaunch(launches, s, id))
    && (forall id | id in s.runs :: s.runs[id].runId == id)
    && OthersHaveOwnTokens(launches, s)
    && (forall l | 0 <= l < |launches| :: s.finishAttempts[l] == AttemptsIn(s.phases[l]))
  }

  lemma InitInv(launches: seq<Launch>)
    ensures Inv(launches, Init(launches))
  {
  }

  lemma StepKeepsHeldRegistered(launches: seq<Launch>, s: State, step: Step)
    requires WellFormed(launches, s) && HeldIsRegistered(launches, s) && Enabled(launches, s, step)
    ensures HeldIsRegistered(launches, After(launches, s, step))
  {
    var next := After(launches, s, step);
    forall l | 0 <= l < |launches| && Holds(next, l)
      ensures launches[l].runId in next.runs && next.runs[launches[l].runId] == RunOf(launches, l)
    {
      if step.RegisterOther? || step.UnregisterOther? {
        assert IsQueueId(launches, launches[l].runId);
      } else if !(step.TryRegister? && step.l == l) {
        assert Holds(s, l);
        if step.Release? {
          assert s.runs[launches[step.l].runId] == RunOf(launches, step.l);
          assert s.runs[launches[l].runId].token == l;
        }
      }
    }
  }

  lemma StepKeepsHolder(launches: seq<Launch>, s: State, step: Step, id: string)
    requires WellFormed(launches, s) && Enabled(launches, s, step)
    requires id in s.runs ==> HeldBySomeLaunch(launches, s, id)
    requires IsQueueId(launches, id) && id in After(launches, s, step).runs
    ensures HeldBySomeLaunch(launches, After(launches, s, step), id)
  {
    var next := After(launches, s, step);
    if id in s.runs {
      var l :| 0 <= l < |launches| && Holds(s, l) && launches[l].runId == id;
      assert Holds(next, l);
    } else {
      assert step.TryRegister? && Holds(next, step.l);
    }
  }

  lemma StepKeepsKeysAndAttempts(launches: seq<Launch>, s: State, step: Step)
    requires WellFormed(launches, s) && Enabled(launches, s, step)
    requires forall id | id in s.runs :: s.runs[id].runId == id
    requires forall l | 0 <= l < |launches| :: s.finishAttempts[l] == AttemptsIn(s.phases[l])
    ensures forall id | id in After(launches, s, step).runs :: After(launches, s, step).runs[id].runId == id
    ensures forall l | 0 <= l < |launches| ::
              After(launches, s, step).finishAttempts[l] == AttemptsIn(After(launches, s, step).phases[l])
  {
  }

  lemma StepKeepsTokens(launches: seq<Launch>, s: State, step: Step)
    requires WellFormed(launches, s) && Enabled(launches, s, step) && OthersHaveOwnTokens(launches, s)
    ensures OthersHaveOwnTokens(launches, After(launches, s, step))
  {
    if step.TryRegister? {
      assert IsQueueId(launches, launches[step.l].runId);
    }
    hide WidgetBusy, Cancels;
  }

  lemma StepKeepsInv(launches: seq<Launch>, s: State, step: Step)
    requires Inv(launches, s) && Enabled(launches, s, step)
    ensures Inv(launches, After(launches, s, step))
  {
    var next := After(launches, s, step);
    StepKeepsHeldRegistered(launches, s, step);
    StepKeepsKeysAndAttempts(launches, s, step);
    StepKeepsTokens(launches, s, step);
    forall id | id in next.runs && IsQueueId(launches, id)
      ensures HeldBySomeLaunch(launches, next, id)
    {
      StepKeepsHolder(launches, s, step, id);
    }
  }

  lemma {:induction false} RunKeepsInv(launches: seq<Launch>, s: State, steps: seq<Step>)
    requires Inv(launches, s) && Executable(launches, s, steps)
    ensures Inv(launches, AfterAll(launches, s, steps))
    decreases |steps|
  {
    if steps != [] {
      StepKeepsInv(launches, s, steps[0]);
      RunKeepsInv(launches, After(launches, s, steps[0]), steps[1..]);
    }
  }

  /** Whatever the interleaving: no two launches hold the same run id, the registry holds
      exactly the held queue ids, and a launch has tried to record its result exactly once
      if it released its run or was blocked, and never before. */
  lemma RunIdsAreExclusive(launches: seq<Launch>, steps: seq<Step>)
    requires Executable(launches, Init(launches), steps)
    ensures var s := AfterAll(launches, Init(launches), steps);
            && (forall l, m | 0 <= l < m < |launches| && Holds(s, l) && Holds(s, m) ::
                launches[l].runId != launches[m].runId)
            && (forall id | IsQueueId(launches, id) ::
                  id in s.runs <==> HeldBySomeLaunch(launches, s, id))
            && (forall l | 0 <= l < |launches| :: s.finishAttempts[l] == AttemptsIn(s.phases[l]))
  {
    InitInv(launches);
    RunKeepsInv(launches, Init(launches), steps);
  }

  /** In every reachable state a request to cancel, whatever it names, reaches exactly the
      launch whose worker holds the named run on the named widget; no other launch is
      cancelled and nothing else changes. */
  lemma CancellationReachesHolder(launches: seq<Launch>, steps: seq<Step>, widget: WidgetKey, runId: string)
    requires Executable(launches, Init(launches), steps)
    ensures var s := AfterAll(launches, Init(launches), steps);
            var next := After(launches, s, RequestCancellation(widget, runId));
            && next == s.(cancelled := next.cancelled) && s.cancelled <= next.cancelled
            && forall l | 0 <= l < |launches| ::
                 l in next.cancelled <==> l in s.cancelled || (Holds(s, l) && launches[l] == Launch(runId, widget))
  {
    InitInv(launches);
    RunKeepsInv(launches, Init(launches), steps);
    InvCancels(launches, AfterAll(launches, Init(launches), steps), widget, runId);
  }

  lemma InvCancels(launches: seq<Launch>, s: State, widget: WidgetKey, runId: string)
    requires Inv(launches, s)
    ensures var next := After(launches, s, RequestCancellation(widget, runId));
            && next == s.(cancelled := next.cancelled) && s.cancelled <= next.cancelled
            && forall l | 0 <= l < |launches| ::
                 l in next.cancelled <==> l in s.cancelled || (Holds(s, l) && launches[l] == Launch(runId, widget))
  {
    if Cancels(s.runs, widget, runId) && IsQueueId(launches, runId) {
      assert HeldBySomeLaunch(launches, s, runId);
      var m :| 0 <= m < |launches| && Holds(s, m) && launches[m].runId == runId;
      assert s.runs[runId] == RunOf(launches, m);
    }
  }

  // ------------------------------------------------------------ launches come to an end

  function StepsLeft(phase: Phase): nat {
    match phase
    case Idle => 7
    case RunChecked => 6
    case WidgetChecked => 5
    case Registered => 4
    case Opening => 3
    case Streaming => 2
    case Releasing => 1
    case Blocked => 1
    case Over(_) => 0
  }

  predicate OfLaunch(step: Step) {
    !step.RequestCancellation? && !step.RegisterOther? && !step.UnregisterOther?
  }

  /** How many of the steps are the launch's own. */
  function StepsOf(steps: seq<Step>, l: nat): nat {
    if steps == [] then 0 else StepsOf(steps[1..], l) + if OfLaunch(steps[0]) && steps[0].l == l then 1 else 0
  }

  /** Every launch, from wherever it stands, takes at most the steps its phase leaves it,
      seven in all, whatever the others do. */
  lemma {:induction false} LaunchesEnd(launches: seq<Launch>, s: State, steps: seq<Step>, l: nat)
    requires WellFormed(launches, s) && Executable(launches, s, steps) && l < |launches|
    ensures StepsOf(steps, l) + StepsLeft(AfterAll(launches, s, steps).phases[l]) <= StepsLeft(s.phases[l]) <= 7
    decreases |steps|
  {
    if steps != [] {
      StepCounts(launches, s, steps[0], l);
      hide After, Enabled;
      LaunchesEnd(launches, After(launches, s, steps[0]), steps[1..], l);
    }
  }

  lemma StepCounts(launches: seq<Launch>, s: State, step: Step, l: nat)
    requires WellFormed(launches, s) && Enabled(launches, s, step) && l < |launches|
    ensures var next := After(launches, s, step).phases[l];
            StepsLeft(next) + (if OfLaunch(step) && step.l == l then 1 else 0) <= StepsLeft(s.phases[l])
  {
    hide IsQueueId, WidgetBusy, Cancels;
  }

  /** When no launch can take a step, all are over and no queue run is left registered. */
  lemma QuietMeansReleased(launches: seq<Launch>, s: State)
    requires Inv(launches, s)
    requires forall step | OfLaunch(step) :: !Enabled(launches, s, step)
    ensures forall l | 0 <= l < |launches| :: s.phases[l].Over?
    ensures forall id | id in s.runs :: !IsQueueId(launches, id)
  {
    forall l | 0 <= l < |launches| ensures s.phases[l].Over? {
      assert !Enabled(launches, s, CheckRun(l)) && !Enabled(launches, s, CheckWidget(l));
      assert !Enabled(launches, s, FinishBlocked(l, true)) && !Enabled(launches, s, TryRegister(l));
      assert !Enabled(launches, s, Spawn(l)) && !Enabled(launches, s, OpenService(l, true));
      assert !Enabled(launches, s, FinishStream(l, true)) && !Enabled(launches, s, Release(l));
    }
  }

  // -------------------------------------------------- widgets are exclusive only if...

  /** A queue widget has at most one active run. */
  predicate WidgetsExclusive(launches: seq<Launch>, s: State) {
    forall id, other | id in s.runs && other in s.runs
      && s.runs[id].widget == s.runs[other].widget && IsQueueWidget(launches, s.runs[id].widget) :: id == other
  }

  /** No two active queue runs share a widget. */
  predicate QueueRunsExclusive(launches: seq<Launch>, s: State) {
    forall id, other | id in s.runs && other in s.runs && IsQueueId(launches, id) && IsQueueId(launches, other)
      && s.runs[id].widget == s.runs[other].widget :: id == other
  }

  /** The two launches compete for one widget with different runs. */
  predicate Rivals(launches: seq<Launch>, l: nat, m: nat) {
    && l < |launches| && m < |launches|
    && launches[l].widget == launches[m].widget && launches[l].runId != launches[m].runId
  }

  /** No rival of the launch is between its own check of the widget and its registration. */
  predicate NoRivalIsClose(launches: seq<Launch>, s: State, l: nat)
    requires WellFormed(launches, s)
  {
    forall m | 0 <= m < |launches| && Rivals(launches, l, m) :: s.phases[m] != WidgetChecked
  }

  /** No launch checks its widget while a rival is between its own check and its
      registration. */
  predicate Disciplined(launches: seq<Launch>, s: State, steps: seq<Step>)
    requires WellFormed(launches, s) && Executable(launches, s, steps)
    decreases |steps|
  {
    steps == []
    || (&& (steps[0].CheckWidget? ==> NoRivalIsClose(launches, s, steps[0].l))
        && Disciplined(launches, After(launches, s, steps[0]), steps[1..]))
  }

  /** A launch that has found its widget free has no rival that holds or could take it. */
  predicate WidgetInv(launches: seq<Launch>, s: State)
    requires WellFormed(launches, s)
  {
    && QueueRunsExclusive(launches, s)
    && (forall l | 0 <= l < |launches| && s.phases[l] == WidgetChecked ::
          forall id | id in s.runs && IsQueueId(launches, id) && s.runs[id].widget == launches[l].widget ::
              id == launches[l].runId)
    && (forall l, m | 0 <= l < |launches| && 0 <= m < |launches| && Rivals(launches, l, m) ::
          !(s.phases[l] == WidgetChecked && s.phases[m] == WidgetChecked))
  }

  lemma RegisteringKeepsExclusive(launches: seq<Launch>, s: State, l: nat)
    requires Inv(launches, s) && WidgetInv(launches, s) && At(s, l, WidgetChecked) && launches[l].runId !in s.runs
    ensures WidgetInv(launches, After(launches, s, TryRegister(l)))
  {
    var next := After(launches, s, TryRegister(l));
    forall m | 0 <= m < |launches| && next.phases[m] == WidgetChecked && launches[m].widget == launches[l].widget
      ensures launches[m].runId == launches[l].runId
    {
      assert s.phases[m] == WidgetChecked && s.phases[l] == WidgetChecked;
      assert !Rivals(launches, l, m);
    }
  }

  lemma CheckingKeepsExclusive(launches: seq<Launch>, s: State, l: nat)
    requires WellFormed(launches, s) && WidgetInv(launches, s) && At(s, l, RunChecked)
    requires NoRivalIsClose(launches, s, l)
    ensures WidgetInv(launches, After(launches, s, CheckWidget(l)))
  {
  }

  /** Nothing gets into `WidgetChecked`, and no queue run into the registry. */
  predicate AddsNothing(launches: seq<Launch>, s: State, next: State)
    requires WellFormed(launches, s) && WellFormed(launches, next)
  {
    && (forall l | 0 <= l < |launches| && next.phases[l] == WidgetChecked :: s.phases[l] == WidgetChecked)
    && (forall id | id in next.runs && IsQueueId(launches, id) :: id in s.runs && next.runs[id] == s.runs[id])
  }

  lemma OtherStepsAddNothing(launches: seq<Launch>, s: State, step: Step)
    requires WellFormed(launches, s) && Enabled(launches, s, step) && !step.CheckWidget?
    requires step.TryRegister? ==> launches[step.l].runId in s.runs
    ensures AddsNothing(launches, s, After(launches, s, step))
  {
    hide IsQueueId, WidgetBusy, Cancels;
  }

  lemma AddingNothingKeepsExclusive(launches: seq<Launch>, s: State, next: State)
    requires WellFormed(launches, s) && WellFormed(launches, next)
    requires WidgetInv(launches, s) && AddsNothing(launches, s, next)
    ensures WidgetInv(launches, next)
  {
    hide IsQueueId;
    assert QueueRunsExclusive(launches, next);
  }

  lemma StepKeepsWidgetInv(launches: seq<Launch>, s: State, step: Step)
    requires Inv(launches, s) && WidgetInv(launches, s) && Enabled(launches, s, step)
    requires step.CheckWidget? ==> NoRivalIsClose(launches, s, step.l)
    ensures WidgetInv(launches, After(launches, s, step))
  {
    hide WidgetInv, After, NoRivalIsClose;
    if step.CheckWidget? {
      CheckingKeepsExclusive(launches, s, step.l);
    } else if step.TryRegister? && launches[step.l].runId !in s.runs {
      RegisteringKeepsExclusive(launches, s, step.l);
    } else {
      OtherStepsAddNothing(launches, s, step);
      AddingNothingKeepsExclusive(launches, s, After(launches, s, step));
    }
  }

  lemma {:induction false} RunKeepsWidgetInv(launches: seq<Launch>, s: State, steps: seq<Step>)
    requires Inv(launches, s) && WidgetInv(launches, s) && Executable(launches, s, steps)
             && Disciplined(launches, s, steps)
    ensures WidgetInv(launches, AfterAll(launches, s, steps))
    decreases |steps|
  {
    if steps != [] {
      var next := After(launches, s, steps[0]);
      StepKeepsInv(launches, s, steps[0]);
      StepKeepsWidgetInv(launches, s, steps[0]);
      RunKeepsWidgetInv(launches, next, steps[1..]);
    }
  }

  /** Without overlapping checks no two active queue runs share a widget, whatever runs are
      registered elsewhere. */
  lemma DisciplineKeepsQueueRunsExclusive(launches: seq<Launch>, steps: seq<Step>)
    requires Executable(launches, Init(launches), steps) && Disciplined(launches, Init(launches), steps)
    ensures QueueRunsExclusive(launches, AfterAll(launches, Init(launches), steps))
  {
    InitInv(launches);
    RunKeepsWidgetInv(launches, Init(launches), steps);
  }

  /** A launch is under way: it has begun and its worker is not spawned yet. */
  predicate Launching(phase: Phase) {
    phase == RunChecked || phase == Blocked || phase == WidgetChecked || phase == Registered
  }

  predicate NoneLaunching(s: State, except: nat) {
    forall m | 0 <= m < |s.phases| && m != except :: !Launching(s.phases[m])
  }

  /** Launches are serialised: one begins only when no other is under way. Workers and
      cancellations may come in between at any point. */
  predicate Serialised(launches: seq<Launch>, s: State, steps: seq<Step>)
    requires WellFormed(launches, s) && Executable(launches, s, steps)
    decreases |steps|
  {
    steps == []
    || ((steps[0].CheckRun? ==> NoneLaunching(s, steps[0].l))
        && Serialised(launches, After(launches, s, steps[0]), steps[1..]))
  }

  predicate OneLaunching(s: State) {
    forall l, m | 0 <= l < |s.phases| && 0 <= m < |s.phases| && Launching(s.phases[l]) && Launching(s.phases[m]) ::
        l == m
  }

  lemma {:induction false} SerialIsDisciplined(launches: seq<Launch>, s: State, steps: seq<Step>)
    requires WellFormed(launches, s) && Executable(launches, s, steps)
    requires OneLaunching(s) && Serialised(launches, s, steps)
    ensures Disciplined(launches, s, steps)
    decreases |steps|
  {
    if steps != [] {
      var next := After(launches, s, steps[0]);
      assert OneLaunching(next) by {
        forall l, m | 0 <= l < |next.phases| && 0 <= m < |next.phases| && Launching(next.phases[l])
            && Launching(next.phases[m]) ensures l == m {
          if !steps[0].CheckRun? {
            assert Launching(s.phases[l]) && Launching(s.phases[m]);
          }
        }
      }
      SerialIsDisciplined(launches, next, steps[1..]);
    }
  }

  /** Serialised launches never put two active queue runs on one widget, whatever runs are
      registered elsewhere. */
  lemma SerialLaunchesKeepQueueRunsExclusive(launches: seq<Launch>, steps: seq<Step>)
    requires Executable(launches, Init(launches), steps) && Serialised(launches, Init(launches), steps)
    ensures QueueRunsExclusive(launches, AfterAll(launches, Init(launches), steps))
  {
    SerialIsDisciplined(launches, Init(launches), steps);
    DisciplineKeepsQueueRunsExclusive(launches, steps);
  }

  // ------------------------------------------------------- runs registered elsewhere

  /** Runs registered elsewhere are on these widgets. Registering them asks nobody whether
      the widget is busy. */
  predicate OthersOn(foreign: set<WidgetKey>, steps: seq<Step>) {
    forall i | 0 <= i < |steps| && steps[i].RegisterOther? :: steps[i].run.widget in foreign
  }

  /** None of these widgets is one of a launch. */
  predicate Apart(launches: seq<Launch>, foreign: set<WidgetKey>) {
    forall l | 0 <= l < |launches| :: launches[l].widget !in foreign
  }

  predicate OthersWithin(launches: seq<Launch>, s: State, foreign: set<WidgetKey>) {
    forall id | id in s.runs && !IsQueueId(launches, id) :: s.runs[id].widget in foreign
  }

  lemma {:induction false} RunKeepsOthersWithin(launches: seq<Launch>, s: State, steps: seq<Step>,
                                                foreign: set<WidgetKey>)
    requires Inv(launches, s) && Executable(launches, s, steps)
    requires OthersWithin(launches, s, foreign) && OthersOn(foreign, steps)
    ensures OthersWithin(launches, AfterAll(launches, s, steps), foreign)
    decreases |steps|
  {
    if steps != [] {
      StepKeepsInv(launches, s, steps[0]);
      StepKeepsOthersWithin(launches, s, steps[0], foreign);
      RunKeepsOthersWithin(launches, After(launches, s, steps[0]), steps[1..], foreign);
    }
  }

  lemma StepKeepsOthersWithin(launches: seq<Launch>, s: State, step: Step, foreign: set<WidgetKey>)
    requires Inv(launches, s) && Enabled(launches, s, step)
    requires OthersWithin(launches, s, foreign) && (step.RegisterOther? ==> step.run.widget in foreign)
    ensures OthersWithin(launches, After(launches, s, step), foreign)
  {
    if step.TryRegister? {
      assert IsQueueId(launches, launches[step.l].runId);
    }
    hide Inv, WidgetBusy, Cancels;
  }

  /** Where others stay off queue widgets, exclusive queue runs are exclusive altogether. */
  lemma ApartIsExclusive(launches: seq<Launch>, steps: seq<Step>, foreign: set<WidgetKey>)
    requires Executable(launches, Init(launches), steps)
    requires OthersOn(foreign, steps) && Apart(launches, foreign)
    requires QueueRunsExclusive(launches, AfterAll(launches, Init(launches), steps))
    ensures WidgetsExclusive(launches, AfterAll(launches, Init(launches), steps))
  {
    InitInv(launches);
    RunKeepsOthersWithin(launches, Init(launches), steps, foreign);
  }

  /** An id that is longer than the run ids of all launches. */
  function OtherId(launches: seq<Launch>): string {
    if launches == [] then "x" else OtherId(launches[..|launches| - 1]) + launches[|launches| - 1].runId
  }

  lemma {:induction false} OtherIdIsLonger(launches: seq<Launch>, l: nat)
    requires l < |launches|
    ensures |OtherId(launches)| > |launches[l].runId|
  {
    var n := |launches| - 1;
    if l < n {
      OtherIdIsLonger(launches[..n], l);
    } else {
      OtherIdIsLong(launches[..n]);
    }
  }

  lemma {:induction false} OtherIdIsLong(launches: seq<Launch>)
    ensures |OtherId(launches)| > 0
  {
    if launches != [] {
      OtherIdIsLong(launches[..|launches| - 1]);
    }
  }

  /** One launch registers its run and spawns its worker; then another run is started on the
      same widget from elsewhere. */
  function OtherRunSteps(launches: seq<Launch>, l: nat): seq<Step>
    requires l < |launches|
  {
    [CheckRun(l), CheckWidget(l), TryRegister(l), Spawn(l),
     RegisterOther(ActiveRun(OtherId(launches), launches[l].widget, |launches|))]
  }

  /** A single launch, serialised or not, shares its widget with a run that others start. */
  lemma OthersBreakExclusivity(launches: seq<Launch>, l: nat)
    requires l < |launches|
    ensures var steps := OtherRunSteps(launches, l);
            && Executable(launches, Init(launches), steps)
            && Serialised(launches, Init(launches), steps)
            && OthersOn({launches[l].widget}, steps)
            && !WidgetsExclusive(launches, AfterAll(launches, Init(launches), steps))
  {
    var other := ActiveRun(OtherId(launches), launches[l].widget, |launches|);
    OtherIdIsOther(launches);
    SpawnedAlone(launches, l);
    hide *;
    var s0 := Init(launches);
    var s1 := After(launches, s0, CheckRun(l));
    var s2 := After(launches, s1, CheckWidget(l));
    var s3 := After(launches, s2, TryRegister(l));
    var s4 := After(launches, s3, Spawn(l));
    OtherJoins(launches, s4, l, other);
    FirstSerial(launches, s3, Spawn(l), [RegisterOther(other)]);
    FirstSerial(launches, s2, TryRegister(l), [Spawn(l), RegisterOther(other)]);
    FirstSerial(launches, s1, CheckWidget(l), [TryRegister(l), Spawn(l), RegisterOther(other)]);
    FirstSerial(launches, s0, CheckRun(l), [CheckWidget(l), TryRegister(l), Spawn(l), RegisterOther(other)]);
    OtherRunIsOn(launches, l);
  }

  lemma OtherRunIsOn(launches: seq<Launch>, l: nat)
    requires l < |launches|
    ensures var other := ActiveRun(OtherId(launches), launches[l].widget, |launches|);
            OtherRunSteps(launches, l)
                == [CheckRun(l)] + [CheckWidget(l), TryRegister(l), Spawn(l), RegisterOther(other)]
    ensures OthersOn({launches[l].widget}, OtherRunSteps(launches, l))
  {
  }

  /** The first launch from the start registers and spawns its worker. */
  lemma SpawnedAlone(launches: seq<Launch>, l: nat)
    requires l < |launches|
    ensures var s0 := Init(launches);
            && WellFormed(launches, s0) && Enabled(launches, s0, CheckRun(l)) && NoneLaunching(s0, l)
            && var s1 := After(launches, s0, CheckRun(l));
            && Enabled(launches, s1, CheckWidget(l))
            && var s2 := After(launches, s1, CheckWidget(l));
            && Enabled(launches, s2, TryRegister(l))
            && var s3 := After(launches, s2, TryRegister(l));
            && Enabled(launches, s3, Spawn(l))
            && After(launches, s3, Spawn(l)).runs == map[launches[l].runId := RunOf(launches, l)]
  {
  }

  lemma OtherJoins(launches: seq<Launch>, s: State, l: nat, other: ActiveRun<nat>)
    requires WellFormed(launches, s) && l < |launches| && s.runs == map[launches[l].runId := RunOf(launches, l)]
    requires !IsQueueId(launches, other.runId) && other.widget == launches[l].widget && other.token >= |launches|
    ensures var steps := [RegisterOther(other)];
            && Executable(launches, s, steps) && Serialised(launches, s, steps)
            && !WidgetsExclusive(launches, AfterAll(launches, s, steps))
  {
    var next := After(launches, s, RegisterOther(other));
    NoSteps(launches, next);
    FirstSerial(launches, s, RegisterOther(other), []);
    assert [RegisterOther(other)] + [] == [RegisterOther(other)];
    assert IsQueueId(launches, launches[l].runId);
    assert launches[l].runId in next.runs && other.runId in next.runs && IsQueueWidget(launches, other.widget);
  }

  lemma OtherIdIsOther(launches: seq<Launch>)
    ensures !IsQueueId(launches, OtherId(launches))
  {
    forall l | 0 <= l < |launches| ensures launches[l].runId != OtherId(launches) {
      OtherIdIsLonger(launches, l);
    }
  }

  lemma NoSteps(launches: seq<Launch>, s: State)
    requires WellFormed(launches, s)
    ensures Executable(launches, s, []) && Serialised(launches, s, []) && AfterAll(launches, s, []) == s
  {
  }

  lemma FirstSerial(launches: seq<Launch>, s: State, step: Step, rest: seq<Step>)
    requires WellFormed(launches, s) && Enabled(launches, s, step)
             && Executable(launches, After(launches, s, step), rest)
    requires step.CheckRun? ==> NoneLaunching(s, step.l)
    requires Serialised(launches, After(launches, s, step), rest)
    ensures Executable(launches, s, [step] + rest) && Serialised(launches, s, [step] + rest)
    ensures AfterAll(launches, s, [step] + rest) == AfterAll(launches, After(launches, s, step), rest)
  {
    assert ([step] + rest)[1..] == rest;
  }

  /** With serialised launches, and workers and cancellations at any point, a queue widget
      never has two active runs exactly when others start no runs on queue widgets. */
  lemma SerialExclusiveIffOthersApart(launches: seq<Launch>, foreign: set<WidgetKey>)
    ensures Apart(launches, foreign) <==>
            forall steps | Executable(launches, Init(launches), steps) && Serialised(launches, Init(launches), steps)
                && OthersOn(foreign, steps) ::
              WidgetsExclusive(launches, AfterAll(launches, Init(launches), steps))
  {
    if Apart(launches, foreign) {
      forall steps | Executable(launches, Init(launches), steps) && Serialised(launches, Init(launches), steps)
          && OthersOn(foreign, steps)
        ensures WidgetsExclusive(launches, AfterAll(launches, Init(launches), steps))
      {
        SerialLaunchesKeepQueueRunsExclusive(launches, steps);
        ApartIsExclusive(launches, steps, foreign);
      }
    } else {
      var l :| 0 <= l < |launches| && launches[l].widget in foreign;
      OthersBreakExclusivity(launches, l);
      assert OthersOn(foreign, OtherRunSteps(launches, l));
    }
  }

  // ------------------------------------------------------------ a launch left undisturbed

  /** How a launch ends, or whether it spawns its worker, when nothing interleaves. */
  function Outcome<T>(runs: Runs<T>, launch: Launch, recorded: bool): LaunchStatus {
    if launch.runId in runs then AlreadyActive
    else if !WidgetBusy(runs, launch.widget) then Spawned
    else if recorded then BlockedActiveWidget
    else Failed
  }

  /** The steps of a launch with that outcome, up to the spawning of the worker. */
  function UndisturbedSteps(l: nat, outcome: LaunchStatus, recorded: bool): seq<Step> {
    match outcome
    case AlreadyActive => [CheckRun(l)]
    case Spawned => [CheckRun(l), CheckWidget(l), TryRegister(l), Spawn(l)]
    case _ => [CheckRun(l), CheckWidget(l), FinishBlocked(l, recorded)]
  }

  /** A launch on an active run or on a busy widget leaves the registry as it was; the latter
      records its own run as failed, once. Otherwise it registers its run and nothing else. */
  lemma UndisturbedLaunch(launches: seq<Launch>, s: State, l: nat, recorded: bool)
    requires WellFormed(launches, s) && At(s, l, Idle)
    ensures var outcome := Outcome(s.runs, launches[l], recorded);
            var steps := UndisturbedSteps(l, outcome, recorded);
            && Executable(launches, s, steps)
            && var next := AfterAll(launches, s, steps);
            && next.phases == s.phases[l := if outcome == Spawned then Opening else Over(outcome)]
            && next.runs == (if outcome == Spawned then s.runs[launches[l].runId := RunOf(launches, l)] else s.runs)
            && next.finishAttempts == s.finishAttempts[l := s.finishAttempts[l] +
                 if outcome == BlockedActiveWidget || outcome == Failed then 1 else 0]
            && next.cancelled == s.cancelled
  {
    hide Executable, AfterAll, WidgetBusy;
    var outcome := Outcome(s.runs, launches[l], recorded);
    if outcome == AlreadyActive {
      OneStep(launches, s, CheckRun(l));
    } else if outcome == Spawned {
      FourSteps(launches, s, CheckRun(l), CheckWidget(l), TryRegister(l), Spawn(l));
    } else {
      ThreeSteps(launches, s, CheckRun(l), CheckWidget(l), FinishBlocked(l, recorded));
    }
  }

  // ------------------------------------------------------- the interleaving that breaks it

  /** Both rivals check before either registers. */
  function RaceSteps(l: nat, m: nat): seq<Step> {
    [CheckRun(l), CheckRun(m), CheckWidget(l), CheckWidget(m), TryRegister(l), TryRegister(m)]
  }

  lemma RaceRuns(launches: seq<Launch>, l: nat, m: nat)
    requires Rivals(launches, l, m)
    ensures Executable(launches, Init(launches), RaceSteps(l, m))
    ensures !QueueRunsExclusive(launches, AfterAll(launches, Init(launches), RaceSteps(l, m)))
    ensures !WidgetsExclusive(launches, AfterAll(launches, Init(launches), RaceSteps(l, m)))
  {
    var s0 := Init(launches);
    var s1 := After(launches, s0, CheckRun(l));
    var s2 := After(launches, s1, CheckRun(m));
    var s3 := After(launches, s2, CheckWidget(l));
    var s4 := After(launches, s3, CheckWidget(m));
    var s5 := After(launches, s4, TryRegister(l));
    var s6 := After(launches, s5, TryRegister(m));
    FirstStep(launches, s5, TryRegister(m), []);
    FirstStep(launches, s4, TryRegister(l), [TryRegister(m)]);
    FirstStep(launches, s3, CheckWidget(m), [TryRegister(l), TryRegister(m)]);
    FirstStep(launches, s2, CheckWidget(l), [CheckWidget(m), TryRegister(l), TryRegister(m)]);
    FirstStep(launches, s1, CheckRun(m), [CheckWidget(l), CheckWidget(m), TryRegister(l), TryRegister(m)]);
    FirstStep(launches, s0, CheckRun(l), RaceSteps(l, m)[1..]);
    assert launches[l].runId in s6.runs && launches[m].runId in s6.runs;
    assert IsQueueId(launches, launches[l].runId) && IsQueueId(launches, launches[m].runId);
  }

  predicate NoRivals(launches: seq<Launch>) {
    forall l, m | 0 <= l < |launches| && 0 <= m < |launches| :: !Rivals(launches, l, m)
  }

  /** Unserialised launches keep queue runs exclusive in every interleaving exactly when no
      two of them are rivals, whatever runs are registered elsewhere. */
  lemma QueueRunsExclusiveIffNoRivals(launches: seq<Launch>)
    ensures NoRivals(launches) <==>
            forall steps | Executable(launches, Init(launches), steps) ::
              QueueRunsExclusive(launches, AfterAll(launches, Init(launches), steps))
  {
    if NoRivals(launches) {
      forall steps | Executable(launches, Init(launches), steps)
        ensures QueueRunsExclusive(launches, AfterAll(launches, Init(launches), steps))
      {
        NoRivalsDisciplined(launches, Init(launches), steps);
        DisciplineKeepsQueueRunsExclusive(launches, steps);
      }
    } else {
      var l: nat, m: nat :| l < |launches| && m < |launches| && Rivals(launches, l, m);
      RaceRuns(launches, l, m);
    }
  }

  /** Unserialised launches keep widgets exclusive in every interleaving exactly when no two
      of them are rivals and others start no runs on queue widgets. */
  lemma ExclusiveIffNoRivalsAndOthersApart(launches: seq<Launch>, foreign: set<WidgetKey>)
    ensures NoRivals(launches) && Apart(launches, foreign) <==>
            forall steps | Executable(launches, Init(launches), steps) && OthersOn(foreign, steps) ::
              WidgetsExclusive(launches, AfterAll(launches, Init(launches), steps))
  {
    if NoRivals(launches) && Apart(launches, foreign) {
      forall steps | Executable(launches, Init(launches), steps) && OthersOn(foreign, steps)
        ensures WidgetsExclusive(launches, AfterAll(launches, Init(launches), steps))
      {
        NoRivalsDisciplined(launches, Init(launches), steps);
        DisciplineKeepsQueueRunsExclusive(launches, steps);
        ApartIsExclusive(launches, steps, foreign);
      }
    } else if !Apart(launches, foreign) {
      var l :| 0 <= l < |launches| && launches[l].widget in foreign;
      OthersBreakExclusivity(launches, l);
      assert OthersOn(foreign, OtherRunSteps(launches, l));
    } else {
      var l: nat, m: nat :| l < |launches| && m < |launches| && Rivals(launches, l, m);
      RaceRuns(launches, l, m);
      assert OthersOn(foreign, RaceSteps(l, m));
    }
  }

  lemma {:induction false} NoRivalsDisciplined(launches: seq<Launch>, s: State, steps: seq<Step>)
    requires WellFormed(launches, s) && Executable(launches, s, steps)
    requires NoRivals(launches)
    ensures Disciplined(launches, s, steps)
    decreases |steps|
  {
    if steps != [] {
      NoRivalsDisciplined(launches, After(launches, s, steps[0]), steps[1..]);
    }
  }

  // ------------------------------------------------------------ the code of a launch

  datatype Attempt = Attempt(runId: string, status: string)

  /** The database as far as launches go: a log of the attempts to record a result. */
  class TaskStore {
    var attempts: seq<Attempt>

    constructor ()
      ensures attempts == []
    {
      attempts := [];
    }

    /** One attempt, which may fail for reasons of the database. */
    method Finish(launch: Launch, status: string, succeeds: bool) returns (recorded: bool)
      modifies this
      ensures attempts == old(attempts) + [Attempt(launch.runId, status)]
      ensures recorded == succeeds
    {
      attempts := attempts + [Attempt(launch.runId, status)];
      recorded := succeeds;
    }
  }

  /** Which run ids are registered for which widgets, whatever stands for the tokens. */
  function Held<T>(runs: Runs<T>): map<string, WidgetKey> {
    map id | id in runs :: runs[id].widget
  }

  lemma HeldDecides<T, U>(runs: Runs<T>, others: Runs<U>, launch: Launch, recorded: bool)
    requires Held(runs) == Held(others)
    ensures Outcome(runs, launch, recorded) == Outcome(others, launch, recorded)
  {
    forall id ensures id in runs <==> id in others {
      assert id in Held(runs) <==> id in Held(others);
    }
    forall id | id in runs ensures runs[id].widget == others[id].widget {
      assert Held(runs)[id] == Held(others)[id];
    }
  }

  lemma HeldRegistered<T, U>(runs: Runs<T>, others: Runs<U>, run: ActiveRun<T>, other: ActiveRun<U>)
    requires Held(runs) == Held(others) && run.runId == other.runId && run.widget == other.widget
    ensures Held(runs[run.runId := run]) == Held(others[other.runId := other])
  {
    forall id ensures id in runs <==> id in others {
      assert id in Held(runs) <==> id in Held(others);
    }
    forall id | id in runs ensures runs[id].widget == others[id].widget {
      assert Held(runs)[id] == Held(others)[id];
    }
  }

  lemma HeldUnregistered<T, U>(runs: Runs<T>, others: Runs<U>, runId: string)
    requires Held(runs) == Held(others)
    ensures Held(Unregistered(runs, runId)) == Held(Unregistered(others, runId))
  {
    forall id ensures id in runs <==> id in others {
      assert id in Held(runs) <==> id in Held(others);
    }
    forall id | id in runs ensures runs[id].widget == others[id].widget {
      assert Held(runs)[id] == Held(others)[id];
    }
  }

  /** `spawn_queue_direct_work_background_run` when nothing interleaves: it has the outcome of
      the protocol's undisturbed steps and leaves the registry and the number of attempts in
      which they leave the protocol's state. */
  method SpawnBackgroundRun(registry: DirectWorkActiveRunRegistry, store: TaskStore, launch: Launch, succeeds: bool,
                            ghost launches: seq<Launch>, ghost s: State, ghost l: nat)
    returns (status: LaunchStatus)
    requires WellFormed(launches, s) && At(s, l, Idle) && launches[l] == launch && Held(registry.runs) == Held(s.runs)
    modifies registry, store
    ensures status == Outcome(old(registry.runs), launch, succeeds)
    ensures var steps := UndisturbedSteps(l, status, succeeds);
            && Executable(launches, s, steps)
            && var next := AfterAll(launches, s, steps);
            && next.phases[l] == (if status == Spawned then Opening else Over(status))
            && Held(registry.runs) == Held(next.runs)
            && s.finishAttempts[l] + |store.attempts| == next.finishAttempts[l] + |old(store.attempts)|
    ensures status != Spawned ==> registry.runs == old(registry.runs)
    ensures status == Spawned ==>
              exists token: CancellationToken :: fresh(token)
                && registry.runs == old(registry.runs)[launch.runId := ActiveRun(launch.runId, launch.widget, token)]
    ensures store.attempts == old(store.attempts)
              + if status == BlockedActiveWidget || status == Failed then [Attempt(launch.runId, "failed")] else []
  {
    HeldDecides(registry.runs, s.runs, launch, succeeds);
    UndisturbedLaunch(launches, s, l, succeeds);
    hide AfterAll, Executable, Held, UndisturbedSteps;
    var active := registry.HasActiveRun(launch.runId);
    if active {
      return AlreadyActive;
    }
    var busy := registry.HasActiveWidgetRun(launch.widget);
    if busy {
      var recorded := store.Finish(launch, "failed", succeeds);
      return if recorded then BlockedActiveWidget else Failed;
    }
    var token := new CancellationToken();
    var run := ActiveRun(launch.runId, launch.widget, token);
    HeldRegistered(registry.runs, s.runs, run, RunOf(launches, l));
    var registered := registry.TryRegister(run);
    if !registered {
      return AlreadyActive;
    }
    status := Spawned;
  }

  /** What the stream of the work returns. */
  datatype StreamResult = Summary(status: string) | NoSummary | StreamError

  /** The steps of a worker left undisturbed. */
  function WorkerSteps(l: nat, serviceOpens: bool, recorded: bool): seq<Step> {
    if serviceOpens then [OpenService(l, true), FinishStream(l, recorded), Release(l)]
    else [OpenService(l, false), Release(l)]
  }

  /** They record one result and release the run, and touch nothing else. */
  lemma UndisturbedWorker(launches: seq<Launch>, s: State, l: nat, serviceOpens: bool, recorded: bool)
    requires WellFormed(launches, s) && At(s, l, Opening)
    ensures var steps := WorkerSteps(l, serviceOpens, recorded);
            && Executable(launches, s, steps)
            && AfterAll(launches, s, steps) ==
               s.(phases := s.phases[l := Over(Spawned)], runs := Unregistered(s.runs, launches[l].runId),
                  finishAttempts := s.finishAttempts[l := s.finishAttempts[l] + 1])
  {
    hide Executable, AfterAll;
    if serviceOpens {
      ThreeSteps(launches, s, OpenService(l, true), FinishStream(l, recorded), Release(l));
    } else {
      TwoSteps(launches, s, OpenService(l, false), Release(l));
    }
  }

  /** The worker and the release that follows it take the protocol's steps: whatever the
      service and the stream return, they leave the registry and the number of attempts in
      which those steps leave the protocol's state. */
  method RunBackground(registry: DirectWorkActiveRunRegistry, store: TaskStore, launch: Launch, serviceOpens: bool,
                       stream: StreamResult, succeeds: bool,
                       ghost launches: seq<Launch>, ghost s: State, ghost l: nat)
    returns (failed: bool)
    requires WellFormed(launches, s) && At(s, l, Opening) && launches[l] == launch
             && Held(registry.runs) == Held(s.runs)
    modifies registry, store
    ensures var steps := WorkerSteps(l, serviceOpens, succeeds);
            && Executable(launches, s, steps)
            && var next := AfterAll(launches, s, steps);
            && next.phases[l] == Over(Spawned)
            && Held(registry.runs) == Held(next.runs)
            && s.finishAttempts[l] + |store.attempts| == next.finishAttempts[l] + |old(store.attempts)|
    ensures registry.runs == Unregistered(old(registry.runs), launch.runId)
    ensures store.attempts == old(store.attempts)
              + [Attempt(launch.runId, if serviceOpens && stream.Summary? then stream.status else "failed")]
    ensures failed <==> !serviceOpens || stream.StreamError? || !succeeds
  {
    UndisturbedWorker(launches, s, l, serviceOpens, succeeds);
    HeldUnregistered(registry.runs, s.runs, launch.runId);
    hide AfterAll, Executable, Held, WorkerSteps;
    if !serviceOpens {
      var _ := store.Finish(launch, "failed", succeeds);
      failed := true;
    } else {
      match stream {
        case Summary(status) =>
          var recorded := store.Finish(launch, status, succeeds);
          failed := !recorded;
        case NoSummary =>
          var recorded := store.Finish(launch, "failed", succeeds);
          failed := !recorded;
        case StreamError =>
          var _ := store.Finish(launch, "failed", succeeds);
          failed := true;
      }
    }
    registry.Unregister(launch.runId);
  }
}
