/**
  A discrete-event scheduler whose jobs may schedule further jobs.

  `Simulate` is the reference: it repeatedly runs the earliest pending job. The runtime
  (`runtimeState.ts`, lines 1133-1151) instead walks an index over an array that it re-sorts
  before every step and that grows while it is walked; `LoopInvariant` relates the two.
  Nothing here depends on what a job does: the effect of a job is the engine's.
*/
module Scheduler {
  import opened Contracts
  import opened StableSort

  datatype ScheduledAction = ScheduledAction(
    action: VisualAction, actionIndex: real, event: VisualEvent, ruleId: string, runAt: real)

  /** The comparator of the work list: by time, then by action index. */
  predicate RunsNoLater(a: ScheduledAction, b: ScheduledAction) {
    a.runAt < b.runAt || (a.runAt == b.runAt && a.actionIndex <= b.actionIndex)
  }

  lemma RunOrderIsPreorder()
    ensures TotalPreorder(RunsNoLater)
  {
  }

  lemma SortedByTime(items: seq<ScheduledAction>)
    ensures Sorted(Sort(items, RunsNoLater), RunsNoLater)
  {
    RunOrderIsPreorder();
    SortSorted(items, RunsNoLater);
  }

  /** What a job does to the state and which jobs it pushes, in push order. */
  datatype Engine<!S> = Engine(
    apply: (S, ScheduledAction) -> S,
    push: (S, ScheduledAction) -> seq<ScheduledAction>,
    weight: ScheduledAction -> nat,
    timely: ScheduledAction -> bool)

  function TotalWeight(weight: ScheduledAction -> nat, items: seq<ScheduledAction>): nat {
    if items == [] then 0 else TotalWeight(weight, items[..|items| - 1]) + weight(items[|items| - 1])
  }

  /** What a job pushes weighs less than the job itself: pushing comes to an end. */
  ghost predicate Exhausts<S(!new)>(engine: Engine<S>) {
    forall s, job :: TotalWeight(engine.weight, engine.push(s, job)) < engine.weight(job)
  }

  /** A timely job pushes only timely jobs that come behind it in the run order. */
  ghost predicate LooksForward<S(!new)>(engine: Engine<S>) {
    forall s, job | engine.timely(job) :: AllBehind(engine, job, engine.push(s, job))
  }

  ghost predicate AllBehind<S>(engine: Engine<S>, job: ScheduledAction, pushed: seq<ScheduledAction>) {
    forall x | x in pushed :: RunsNoLater(job, x) && engine.timely(x)
  }

  /** The jobs that are due are timely; the others never run. */
  ghost predicate AllTimely<S>(engine: Engine<S>, items: seq<ScheduledAction>, timeMs: real) {
    forall x | x in items && Due(x, timeMs) :: engine.timely(x)
  }

  lemma {:induction false} WeightAppend(weight: ScheduledAction -> nat, a: seq<ScheduledAction>,
                                        b: seq<ScheduledAction>)
    ensures TotalWeight(weight, a + b) == TotalWeight(weight, a) + TotalWeight(weight, b)
  {
    if b == [] {
      assert a + b == a;
    } else {
      assert (a + b)[..|a + b| - 1] == a + b[..|b| - 1];
      WeightAppend(weight, a, b[..|b| - 1]);
    }
  }

  lemma NoWeight(weight: ScheduledAction -> nat)
    ensures TotalWeight(weight, []) == 0
  {
  }

  lemma WeightSnoc(weight: ScheduledAction -> nat, items: seq<ScheduledAction>, x: ScheduledAction)
    ensures TotalWeight(weight, items + [x]) == TotalWeight(weight, items) + weight(x)
  {
    assert (items + [x])[..|items|] == items;
  }

  lemma {:induction false} WeightBounds(weight: ScheduledAction -> nat, items: seq<ScheduledAction>, most: nat)
    requires forall x | x in items :: 1 <= weight(x) <= most
    ensures |items| <= TotalWeight(weight, items) <= most * |items|
  {
    hide *;
    if items == [] {
      NoWeight(weight);
    } else {
      var front, last := items[..|items| - 1], items[|items| - 1];
      assert items == front + [last];
      WeightBounds(weight, front, most);
      WeightSnoc(weight, front, last);
      assert most * |items| == most * |front| + most;
    }
  }

  lemma {:induction false} WeightCounts(weight: ScheduledAction -> nat, items: seq<ScheduledAction>)
    requires forall x | x in items :: weight(x) >= 1
    ensures |items| <= TotalWeight(weight, items)
  {
    hide *;
    if items == [] {
      NoWeight(weight);
    } else {
      var front, last := items[..|items| - 1], items[|items| - 1];
      assert items == front + [last];
      WeightCounts(weight, front);
      WeightSnoc(weight, front, last);
    }
  }

  lemma WeightWithout(weight: ScheduledAction -> nat, items: seq<ScheduledAction>, m: nat)
    requires m < |items|
    ensures TotalWeight(weight, items) == TotalWeight(weight, Without(items, m)) + weight(items[m])
  {
    hide *;
    var front, back := items[..m], items[m + 1..];
    SplitAround(items, m);
    WeightAppend(weight, front, back);
    WeightAppend(weight, front + [items[m]], back);
    WeightSnoc(weight, front, items[m]);
  }

  // ----------------------------------------------------------- reference simulator

  /** A finished run: the final state, the executed jobs in order, and the jobs they pushed
      in push order. */
  datatype Run<S> = Run(state: S, trace: seq<ScheduledAction>, pushed: seq<ScheduledAction>)

  predicate Due(item: ScheduledAction, timeMs: real) { item.runAt <= timeMs }

  function DueItems(items: seq<ScheduledAction>, timeMs: real): seq<ScheduledAction> {
    Keep(items, item => Due(item, timeMs))
  }

  /** The first of the earliest pending jobs. */
  function Earliest(pending: seq<ScheduledAction>): nat
    requires pending != []
  {
    FirstMin(pending, RunsNoLater)
  }

  predicate Finished(pending: seq<ScheduledAction>, timeMs: real) {
    pending == [] || !Due(pending[Earliest(pending)], timeMs)
  }

  /** The pending jobs after the earliest one ran. */
  function Remaining<S>(engine: Engine<S>, state: S, pending: seq<ScheduledAction>): seq<ScheduledAction>
    requires pending != []
  {
    Without(pending, Earliest(pending)) + engine.push(state, pending[Earliest(pending)])
  }

  lemma RemainingIsLighter<S(!new)>(engine: Engine<S>, state: S, pending: seq<ScheduledAction>)
    requires Exhausts(engine) && pending != []
    ensures TotalWeight(engine.weight, Remaining(engine, state, pending)) < TotalWeight(engine.weight, pending)
  {
    var m := Earliest(pending);
    WeightWithout(engine.weight, pending, m);
    WeightAppend(engine.weight, Without(pending, m), engine.push(state, pending[m]));
  }

  ghost function Simulate<S(!new)>(engine: Engine<S>, state: S, pending: seq<ScheduledAction>, timeMs: real): Run<S>
    requires Exhausts(engine)
    decreases TotalWeight(engine.weight, pending)
  {
    if Finished(pending, timeMs) then Run(state, [], [])
    else
      var next := pending[Earliest(pending)];
      RemainingIsLighter(engine, state, pending);
      var rest := Simulate(engine, engine.apply(state, next), Remaining(engine, state, pending), timeMs);
      Run(rest.state, [next] + rest.trace, engine.push(state, next) + rest.pushed)
  }

  lemma SimulateStep<S(!new)>(engine: Engine<S>, state: S, pending: seq<ScheduledAction>, timeMs: real)
    requires Exhausts(engine) && !Finished(pending, timeMs)
    ensures var next := pending[Earliest(pending)];
            var rest := Simulate(engine, engine.apply(state, next), Remaining(engine, state, pending), timeMs);
            Simulate(engine, state, pending, timeMs)
            == Run(rest.state, [next] + rest.trace, engine.push(state, next) + rest.pushed)
  {
    RemainingIsLighter(engine, state, pending);
  }

  lemma SimulateFinished<S(!new)>(engine: Engine<S>, state: S, pending: seq<ScheduledAction>, timeMs: real)
    requires Exhausts(engine) && Finished(pending, timeMs)
    ensures Simulate(engine, state, pending, timeMs) == Run(state, [], [])
  {
  }

  ghost function ApplyAll<S>(engine: Engine<S>, state: S, jobs: seq<ScheduledAction>): S {
    if jobs == [] then state
    else ApplyAll(engine, engine.apply(state, jobs[0]), jobs[1..])
  }

  lemma {:induction false} ApplyAllAppend<S>(engine: Engine<S>, state: S, a: seq<ScheduledAction>,
                                             b: seq<ScheduledAction>)
    ensures ApplyAll(engine, state, a + b) == ApplyAll(engine, ApplyAll(engine, state, a), b)
  {
    if a == [] {
      assert a + b == b;
    } else {
      assert (a + b)[1..] == a[1..] + b;
      ApplyAllAppend(engine, engine.apply(state, a[0]), a[1..], b);
    }
  }

  /** The final state of a run is the fold of its trace. */
  lemma {:induction false} StateIsFoldOfTrace<S(!new)>(engine: Engine<S>, state: S, pending: seq<ScheduledAction>,
                                                timeMs: real)
    requires Exhausts(engine)
    ensures var run := Simulate(engine, state, pending, timeMs);
            run.state == ApplyAll(engine, state, run.trace)
    decreases TotalWeight(engine.weight, pending)
  {
    if !Finished(pending, timeMs) {
      var next := pending[Earliest(pending)];
      RemainingIsLighter(engine, state, pending);
      StateIsFoldOfTrace(engine, engine.apply(state, next), Remaining(engine, state, pending), timeMs);
      var rest := Simulate(engine, engine.apply(state, next), Remaining(engine, state, pending), timeMs);
      assert ([next] + rest.trace)[1..] == rest.trace;
    }
  }

  // ------------------------------------------------------------- execution order

  lemma RemainingBehind<S(!new)>(engine: Engine<S>, state: S, pending: seq<ScheduledAction>, timeMs: real,
                          x: ScheduledAction)
    requires LooksForward(engine) && AllTimely(engine, pending, timeMs) && !Finished(pending, timeMs)
    requires forall p | p in pending :: RunsNoLater(x, p)
    ensures AllTimely(engine, Remaining(engine, state, pending), timeMs)
    ensures forall p | p in Remaining(engine, state, pending) :: RunsNoLater(x, p)
  {
    var next := pending[Earliest(pending)];
    assert next in pending && AllBehind(engine, next, engine.push(state, next));
    assert forall p | p in Without(pending, Earliest(pending)) :: p in pending;
  }

  /** Nothing is pushed in front of what bounds the pending jobs from below. */
  lemma {:induction false} PushedBehind<S(!new)>(engine: Engine<S>, state: S, pending: seq<ScheduledAction>,
                                          timeMs: real, x: ScheduledAction)
    requires Exhausts(engine) && LooksForward(engine) && AllTimely(engine, pending, timeMs)
    requires forall p | p in pending :: RunsNoLater(x, p)
    ensures forall p | p in Simulate(engine, state, pending, timeMs).pushed :: RunsNoLater(x, p)
    decreases TotalWeight(engine.weight, pending)
  {
    if !Finished(pending, timeMs) {
      var next := pending[Earliest(pending)];
      RemainingIsLighter(engine, state, pending);
      RemainingBehind(engine, state, pending, timeMs, x);
      assert forall p | p in engine.push(state, next) :: p in Remaining(engine, state, pending);
      PushedBehind(engine, engine.apply(state, next), Remaining(engine, state, pending), timeMs, x);
    }
  }

  /** The executed jobs are exactly the due ones among the initial jobs and all that were
      pushed, once each, in order of time, then action index, then insertion. */
  lemma {:induction false} ExecutesDueInOrder<S(!new)>(engine: Engine<S>, state: S, pending: seq<ScheduledAction>,
                                                timeMs: real)
    requires Exhausts(engine) && LooksForward(engine) && AllTimely(engine, pending, timeMs)
    ensures var run := Simulate(engine, state, pending, timeMs);
            run.trace == DueItems(Sort(pending + run.pushed, RunsNoLater), timeMs)
    decreases TotalWeight(engine.weight, pending)
  {
    if Finished(pending, timeMs) {
      assert pending + [] == pending;
      NothingDue(pending, timeMs);
    } else {
      var m := Earliest(pending);
      var next, rest, pushed := pending[m], Without(pending, m), engine.push(state, pending[m]);
      var after := engine.apply(state, next);
      RemainingIsLighter(engine, state, pending);
      EarliestIsLeast(pending);
      RemainingBehind(engine, state, pending, timeMs, next);
      ExecutesDueInOrder(engine, after, rest + pushed, timeMs);
      PushedBehind(engine, after, rest + pushed, timeMs, next);
      FirstDueFirst(pending, pushed, Simulate(engine, after, rest + pushed, timeMs).pushed, timeMs);
    }
  }

  lemma FirstDueFirst(pending: seq<ScheduledAction>, pushed: seq<ScheduledAction>, later: seq<ScheduledAction>,
                      timeMs: real)
    requires !Finished(pending, timeMs)
    requires forall p | p in Without(pending, Earliest(pending)) + pushed :: RunsNoLater(pending[Earliest(pending)], p)
    requires forall p | p in later :: RunsNoLater(pending[Earliest(pending)], p)
    ensures DueItems(Sort(pending + (pushed + later), RunsNoLater), timeMs)
            == [pending[Earliest(pending)]]
               + DueItems(Sort(Without(pending, Earliest(pending)) + pushed + later, RunsNoLater), timeMs)
  {
    hide Sort, Keep, FirstMin, Without, RunsNoLater;
    var next, rest := pending[Earliest(pending)], Without(pending, Earliest(pending));
    assert forall p | p in pushed :: p in rest + pushed;
    EarliestSortsFirst(pending, pushed + later);
    assert rest + (pushed + later) == rest + pushed + later;
    KeepAppend([next], Sort(rest + pushed + later, RunsNoLater), item => Due(item, timeMs));
    KeepAll([next], item => Due(item, timeMs));
  }

  lemma EarliestIsLeast(pending: seq<ScheduledAction>)
    requires pending != []
    ensures forall p | p in pending :: RunsNoLater(pending[Earliest(pending)], p)
  {
    RunOrderIsPreorder();
    FirstMinLeast(pending, RunsNoLater);
  }

  lemma NothingDue(pending: seq<ScheduledAction>, timeMs: real)
    requires Finished(pending, timeMs)
    ensures forall p | p in pending :: !Due(p, timeMs)
    ensures DueItems(Sort(pending, RunsNoLater), timeMs) == []
  {
    if pending != [] { EarliestIsLeast(pending); }
    SortMultiset(pending, RunsNoLater);
    KeepNone(Sort(pending, RunsNoLater), item => Due(item, timeMs));
  }

  /** Sorting puts the earliest pending job first. */
  lemma EarliestIsFirst(pending: seq<ScheduledAction>)
    requires pending != []
    ensures var m := Earliest(pending);
            Sort(pending, RunsNoLater) == [pending[m]] + Sort(Without(pending, m), RunsNoLater)
  {
    RunOrderIsPreorder();
    SortTakesFirstMin(pending, RunsNoLater);
  }

  lemma EarliestSortsFirst(pending: seq<ScheduledAction>, more: seq<ScheduledAction>)
    requires pending != []
    requires forall p | p in more :: RunsNoLater(pending[Earliest(pending)], p)
    ensures var m := Earliest(pending);
            Sort(pending + more, RunsNoLater) == [pending[m]] + Sort(Without(pending, m) + more, RunsNoLater)
  {
    RunOrderIsPreorder();
    var m := Earliest(pending);
    SortAppend(pending, more, RunsNoLater);
    SortTakesFirstMin(pending, RunsNoLater);
    InsertAllBehind([pending[m]], Sort(Without(pending, m), RunsNoLater), more, RunsNoLater);
    SortAppend(Without(pending, m), more, RunsNoLater);
  }

  // -------------------------------------------------------------- the array loop

  /** Pushing behind the current entry and sorting again moves no visited entry. */
  lemma VisitedEntriesStay(items: seq<ScheduledAction>, index: nat, pushed: seq<ScheduledAction>)
    requires index < |items| && Sorted(items, RunsNoLater)
    requires forall x | x in pushed :: RunsNoLater(items[index], x)
    ensures Sort(items + pushed, RunsNoLater)[..index + 1] == items[..index + 1]
  {
    RunOrderIsPreorder();
    var visited, rest := items[..index + 1], items[index + 1..];
    assert items == visited + rest;
    forall y, x | y in visited && x in pushed ensures RunsNoLater(y, x) {
      var i :| 0 <= i <= index && items[i] == y;
      assert i < index ==> RunsNoLater(items[i], items[index]);
    }
    SortKeepsFront(visited, rest, pushed, RunsNoLater);
  }

  /** The state of the array loop in terms of the reference simulator: the array holds the
      executed jobs in order and, behind them, the pending ones. */
  ghost predicate LoopInvariant<S(!new)>(engine: Engine<S>, timeMs: real, whole: Run<S>, items: seq<ScheduledAction>,
                                  index: nat,
                                         state: S, executed: seq<ScheduledAction>, pushed: seq<ScheduledAction>,
                                         pending: seq<ScheduledAction>)
    requires Exhausts(engine)
  {
    var rest := Simulate(engine, state, pending, timeMs);
    && whole == Run(rest.state, executed + rest.trace, pushed + rest.pushed)
    && Sort(items, RunsNoLater) == executed + Sort(pending, RunsNoLater)
    && (forall e, p | e in executed && p in pending :: RunsNoLater(e, p))
    && AllTimely(engine, pending, timeMs)
    && |executed| <= index <= |items| == |executed| + |pending|
    && (index > |executed| ==> Finished(pending, timeMs))
  }

  lemma LoopStarts<S(!new)>(engine: Engine<S>, timeMs: real, items: seq<ScheduledAction>, state: S)
    requires Exhausts(engine) && AllTimely(engine, items, timeMs)
    ensures LoopInvariant(engine, timeMs, Simulate(engine, state, items, timeMs), items, 0, state, [], [], items)
  {
    var run := Simulate(engine, state, items, timeMs);
    assert [] + run.trace == run.trace && [] + run.pushed == run.pushed;
    assert [] + Sort(items, RunsNoLater) == Sort(items, RunsNoLater);
  }

  /** An entry that is not due is skipped, and from then on no entry is due. */
  lemma LoopSkips<S(!new)>(engine: Engine<S>, timeMs: real, whole: Run<S>, items: seq<ScheduledAction>, index: nat,
                           state: S, executed: seq<ScheduledAction>, pushed: seq<ScheduledAction>,
                               pending: seq<ScheduledAction>)
    requires Exhausts(engine)
    requires LoopInvariant(engine, timeMs, whole, items, index, state, executed, pushed, pending)
    requires index < |items| && !Due(Sort(items, RunsNoLater)[index], timeMs)
    ensures LoopInvariant(engine, timeMs, whole, Sort(items, RunsNoLater), index + 1, state, executed, pushed, pending)
  {
    RunOrderIsPreorder();
    SortSorted(items, RunsNoLater);
    SortOfSorted(Sort(items, RunsNoLater), RunsNoLater);
    SortTakesFirstMin(pending, RunsNoLater);
  }

  /** An entry that is due is the earliest pending job, and running it is one step of the
      reference simulator. */
  lemma LoopRuns<S(!new)>(engine: Engine<S>, timeMs: real, whole: Run<S>, items: seq<ScheduledAction>, index: nat,
                          state: S, executed: seq<ScheduledAction>, pushed: seq<ScheduledAction>,
                              pending: seq<ScheduledAction>)
    requires Exhausts(engine) && LooksForward(engine)
    requires LoopInvariant(engine, timeMs, whole, items, index, state, executed, pushed, pending)
    requires index < |items| && Due(Sort(items, RunsNoLater)[index], timeMs)
    ensures pending != [] && Sort(items, RunsNoLater)[index] == pending[Earliest(pending)]
    ensures var next := Sort(items, RunsNoLater)[index];
            var more := engine.push(state, next);
            LoopInvariant(engine, timeMs, whole, Sort(items, RunsNoLater) + more, index + 1, engine.apply(state, next),
                          executed + [next], pushed + more, Remaining(engine, state, pending))
  {
    var next := Sort(items, RunsNoLater)[index];
    LoopMeetsEarliest(engine, timeMs, whole, items, index, state, executed, pushed, pending);
    LoopKeepsOrder(engine, state, executed, pending, timeMs);
    LoopResorts(items, executed, pending, engine.push(state, next));
    RunSplits(engine, state, pending, timeMs, whole, executed, pushed);
  }

  lemma LoopKeepsOrder<S(!new)>(engine: Engine<S>, state: S, executed: seq<ScheduledAction>,
                         pending: seq<ScheduledAction>, timeMs: real)
    requires LooksForward(engine) && AllTimely(engine, pending, timeMs) && !Finished(pending, timeMs)
    requires forall e, p | e in executed && p in pending :: RunsNoLater(e, p)
    ensures var next := pending[Earliest(pending)];
            && AllTimely(engine, Remaining(engine, state, pending), timeMs)
            && (forall x | x in engine.push(state, next) :: RunsNoLater(next, x))
            && forall e, p | e in executed + [next] && p in Remaining(engine, state, pending) :: RunsNoLater(e, p)
  {
    var next := pending[Earliest(pending)];
    assert next in pending;
    EarliestIsLeast(pending);
    RemainingBehind(engine, state, pending, timeMs, next);
    assert AllBehind(engine, next, engine.push(state, next));
    forall e, p | e in executed && p in Remaining(engine, state, pending) ensures RunsNoLater(e, p) {
      assert RunsNoLater(e, next) && RunsNoLater(next, p);
    }
  }

  lemma RunSplits<S(!new)>(engine: Engine<S>, state: S, pending: seq<ScheduledAction>, timeMs: real, whole: Run<S>,
                           executed: seq<ScheduledAction>, pushed: seq<ScheduledAction>)
    requires Exhausts(engine) && !Finished(pending, timeMs)
    requires var rest := Simulate(engine, state, pending, timeMs);
             whole == Run(rest.state, executed + rest.trace, pushed + rest.pushed)
    ensures var next := pending[Earliest(pending)];
            var rest := Simulate(engine, engine.apply(state, next), Remaining(engine, state, pending), timeMs);
            whole == Run(rest.state, executed + [next] + rest.trace, pushed + engine.push(state, next) + rest.pushed)
  {
    hide Simulate, Remaining, RunsNoLater, FirstMin, TotalWeight;
    SimulateStep(engine, state, pending, timeMs);
    var next := pending[Earliest(pending)];
    var rest := Simulate(engine, engine.apply(state, next), Remaining(engine, state, pending), timeMs);
    AppendTwice(executed, [next], rest.trace);
    AppendTwice(pushed, engine.push(state, next), rest.pushed);
  }

  lemma AppendTwice<T>(a: seq<T>, b: seq<T>, c: seq<T>)
    ensures a + (b + c) == a + b + c
  {
  }

  lemma LoopMeetsEarliest<S(!new)>(engine: Engine<S>, timeMs: real, whole: Run<S>, items: seq<ScheduledAction>,
                            index: nat,
                                   state: S, executed: seq<ScheduledAction>, pushed: seq<ScheduledAction>,
                                       pending: seq<ScheduledAction>)
    requires Exhausts(engine)
    requires LoopInvariant(engine, timeMs, whole, items, index, state, executed, pushed, pending)
    requires index < |items| && Due(Sort(items, RunsNoLater)[index], timeMs)
    ensures !Finished(pending, timeMs) && index == |executed|
    ensures Sort(items, RunsNoLater)[index] == pending[Earliest(pending)]
  {
    var next := Sort(items, RunsNoLater)[index];
    assert next == Sort(pending, RunsNoLater)[index - |executed|];
    SortMultiset(pending, RunsNoLater);
    if Finished(pending, timeMs) { NothingDue(pending, timeMs); }
    EarliestIsFirst(pending);
  }

  /** Re-sorting after a push keeps the executed jobs in front. */
  lemma LoopResorts(items: seq<ScheduledAction>, executed: seq<ScheduledAction>, pending: seq<ScheduledAction>,
                    more: seq<ScheduledAction>)
    requires pending != [] && Sort(items, RunsNoLater) == executed + Sort(pending, RunsNoLater)
    requires forall e, p | e in executed && p in pending :: RunsNoLater(e, p)
    requires forall x | x in more :: RunsNoLater(pending[Earliest(pending)], x)
    ensures Sort(Sort(items, RunsNoLater) + more, RunsNoLater)
            == executed + [pending[Earliest(pending)]] + Sort(Without(pending, Earliest(pending)) + more, RunsNoLater)
    ensures forall e, x | e in executed && x in more :: RunsNoLater(e, x)
  {
    RunOrderIsPreorder();
    var next, rest := pending[Earliest(pending)], Without(pending, Earliest(pending));
    var front, tail := executed + [next], Sort(rest, RunsNoLater);
    SortTakesFirstMin(pending, RunsNoLater);
    assert Sort(items, RunsNoLater) == front + tail;
    assert next in pending;
    forall e, x | e in executed && x in more ensures RunsNoLater(e, x) {
      assert RunsNoLater(e, next) && RunsNoLater(next, x);
    }
    SortSorted(items, RunsNoLater);
    SortKeepsFront(front, tail, more, RunsNoLater);
    SortResorted(rest, more, RunsNoLater);
  }

  /** When the index has passed the array, the run is over. */
  lemma LoopEnds<S(!new)>(engine: Engine<S>, timeMs: real, whole: Run<S>, items: seq<ScheduledAction>, index: nat,
                          state: S, executed: seq<ScheduledAction>, pushed: seq<ScheduledAction>,
                              pending: seq<ScheduledAction>)
    requires Exhausts(engine)
    requires LoopInvariant(engine, timeMs, whole, items, index, state, executed, pushed, pending)
    requires index == |items|
    ensures whole.state == state && whole.trace == executed
    ensures executed <= Sort(items, RunsNoLater)
    ensures forall x | x in Sort(items, RunsNoLater)[|executed|..] :: !Due(x, timeMs)
  {
    assert Finished(pending, timeMs);
    NothingDue(pending, timeMs);
    SortMultiset(pending, RunsNoLater);
    assert executed + [] == executed;
    assert Sort(items, RunsNoLater)[|executed|..] == Sort(pending, RunsNoLater);
  }

  // ------------------------------------------------------------ seeking and resuming

  /** Whether the earliest job is due shows in the due jobs alone, and so does what remains. */
  lemma EarliestOfDue(pending: seq<ScheduledAction>, timeMs: real)
    requires pending != [] && Due(pending[Earliest(pending)], timeMs)
    ensures var kept := DueItems(pending, timeMs);
            && kept != []
            && kept[Earliest(kept)] == pending[Earliest(pending)]
            && DueItems(Without(pending, Earliest(pending)), timeMs) == Without(kept, Earliest(kept))
  {
    RunOrderIsPreorder();
    FirstMinKept(pending, item => Due(item, timeMs), RunsNoLater);
  }

  lemma FinishedShowsInDue(pending: seq<ScheduledAction>, timeMs: real)
    ensures Finished(pending, timeMs) <==> DueItems(pending, timeMs) == []
  {
    if Finished(pending, timeMs) {
      NothingDue(pending, timeMs);
      KeepNone(pending, item => Due(item, timeMs));
    } else {
      EarliestOfDue(pending, timeMs);
    }
  }

  /** Two work lists with the same due jobs at `t` run alike up to `t`; whatever the second
      one runs on to `u` comes after that. */
  lemma {:induction false} RunsAlikeUntil<S(!new)>(engine: Engine<S>, state: S, p: seq<ScheduledAction>,
                                            q: seq<ScheduledAction>, t: real, u: real)
    requires Exhausts(engine) && t <= u
    requires DueItems(p, t) == DueItems(q, t)
    ensures var early, late := Simulate(engine, state, p, t), Simulate(engine, state, q, u);
            && early.trace <= late.trace
            && late.state == ApplyAll(engine, early.state, late.trace[|early.trace|..])
    decreases TotalWeight(engine.weight, p)
  {
    hide Simulate, Remaining, DueItems, TotalWeight, RunsNoLater;
    FinishedShowsInDue(p, t);
    FinishedShowsInDue(q, t);
    var late := Simulate(engine, state, q, u);
    if Finished(p, t) {
      SimulateFinished(engine, state, p, t);
      StateIsFoldOfTrace(engine, state, q, u);
      assert late.trace[0..] == late.trace;
    } else {
      SimulateStep(engine, state, p, t);
      SimulateStep(engine, state, q, u);
      SameDueStep(engine, state, p, q, t);
      RemainingIsLighter(engine, state, p);
      var next := p[Earliest(p)];
      var after, p', q' := engine.apply(state, next), Remaining(engine, state, p), Remaining(engine, state, q);
      RunsAlikeUntil(engine, after, p', q', t, u);
      var early', late' := Simulate(engine, after, p', t), Simulate(engine, after, q', u);
      PrefixBehind(next, early'.trace, late'.trace);
    }
  }

  lemma PrefixBehind<T>(x: T, a: seq<T>, b: seq<T>)
    requires a <= b
    ensures [x] + a <= [x] + b && ([x] + b)[|[x] + a|..] == b[|a|..]
  {
  }

  lemma SameDueStep<S>(engine: Engine<S>, state: S, p: seq<ScheduledAction>, q: seq<ScheduledAction>, t: real)
    requires DueItems(p, t) == DueItems(q, t) && !Finished(p, t) && !Finished(q, t)
    ensures p[Earliest(p)] == q[Earliest(q)]
    ensures DueItems(Remaining(engine, state, p), t) == DueItems(Remaining(engine, state, q), t)
  {
    EarliestOfDue(p, t);
    EarliestOfDue(q, t);
    var more := engine.push(state, p[Earliest(p)]);
    KeepAppend(Without(p, Earliest(p)), more, item => Due(item, t));
    KeepAppend(Without(q, Earliest(q)), more, item => Due(item, t));
  }

  // ----------------------------------------------- a job that pushes into the past

  /** One iteration of the array loop. */
  ghost function Iterate<S>(engine: Engine<S>, items: seq<ScheduledAction>, index: nat, state: S,
                            timeMs: real): (seq<ScheduledAction>, nat, S)
    requires index < |items|
  {
    var sorted := Sort(items, RunsNoLater);
    var next := sorted[index];
    if Due(next, timeMs) then (sorted + engine.push(state, next), index + 1, engine.apply(state, next))
    else (sorted, index + 1, state)
  }

  lemma {:induction false} InsertShifts<T(!new)>(s: seq<T>, i: nat, x: T, le: (T, T) -> bool)
    requires TotalPreorder(le) && Sorted(s, le) && i < |s|
    ensures le(s[i], x) ==> Insert(s, x, le)[i] == s[i]
    ensures !le(s[i], x) ==> Insert(s, x, le)[i + 1] == s[i]
  {
    var n := |s| - 1;
    if !le(s[n], x) && i < n {
      InsertShifts(s[..n], i, x, le);
    }
  }

  /** A push into the past makes the loop visit the same job again at the next index. */
  lemma PastPushRepeats<S>(engine: Engine<S>, items: seq<ScheduledAction>, index: nat, state: S, timeMs: real,
                           before: seq<ScheduledAction>, last: ScheduledAction)
    requires index < |items| && Due(Sort(items, RunsNoLater)[index], timeMs)
    requires engine.push(state, Sort(items, RunsNoLater)[index]) == before + [last]
    requires !RunsNoLater(Sort(items, RunsNoLater)[index], last)
    requires forall x | x in before :: RunsNoLater(Sort(items, RunsNoLater)[index], x)
    ensures var next := Iterate(engine, items, index, state, timeMs);
            next.1 == index + 1 < |next.0| && Sort(next.0, RunsNoLater)[index + 1] == Sort(items, RunsNoLater)[index]
  {
    SortedByTime(items);
    PastPushShifts(Sort(items, RunsNoLater), index, before, last);
    assert Sort(items, RunsNoLater) + (before + [last]) == Sort(items, RunsNoLater) + before + [last];
  }

  lemma PastPushShifts(sorted: seq<ScheduledAction>, index: nat, before: seq<ScheduledAction>, last: ScheduledAction)
    requires index < |sorted| && Sorted(sorted, RunsNoLater)
    requires !RunsNoLater(sorted[index], last) && forall x | x in before :: RunsNoLater(sorted[index], x)
    ensures Sort(sorted + before + [last], RunsNoLater)[index + 1] == sorted[index]
  {
    VisitedEntriesStay(sorted, index, before);
    var grown := Sort(sorted + before, RunsNoLater);
    assert grown[index] == grown[..index + 1][index];
    LastShifts(sorted + before, index, last);
  }

  lemma LastShifts(items: seq<ScheduledAction>, index: nat, last: ScheduledAction)
    requires index < |items| && !RunsNoLater(Sort(items, RunsNoLater)[index], last)
    ensures Sort(items + [last], RunsNoLater)[index + 1] == Sort(items, RunsNoLater)[index]
  {
    RunOrderIsPreorder();
    assert (items + [last])[..|items|] == items;
    SortSorted(items, RunsNoLater);
    InsertShifts(Sort(items, RunsNoLater), index, last, RunsNoLater);
  }

  /** Whatever the state, the job's last push comes before the job itself. */
  ghost predicate PushesIntoPast<S(!new)>(engine: Engine<S>, job: ScheduledAction) {
    forall state :: LastIsPast(job, engine.push(state, job))
  }

  ghost predicate LastIsPast(job: ScheduledAction, pushed: seq<ScheduledAction>) {
    && pushed != []
    && !RunsNoLater(job, pushed[|pushed| - 1])
    && forall x | x in pushed[..|pushed| - 1] :: RunsNoLater(job, x)
  }

  /** The array loop after `n` more iterations, as long as it has entries. */
  ghost function Iterations<S>(engine: Engine<S>, items: seq<ScheduledAction>, index: nat, state: S, timeMs: real,
                               n: nat)
    : (seq<ScheduledAction>, nat, S)
    decreases n
  {
    if n == 0 || index >= |items| then (items, index, state)
    else
      var next := Iterate(engine, items, index, state, timeMs);
      Iterations(engine, next.0, next.1, next.2, timeMs, n - 1)
  }

  lemma FirstIteration<S>(engine: Engine<S>, items: seq<ScheduledAction>, index: nat, state: S, timeMs: real, m: nat)
    requires index < |items|
    ensures var next := Iterate(engine, items, index, state, timeMs);
            Iterations(engine, items, index, state, timeMs, m + 1)
                == Iterations(engine, next.0, next.1, next.2, timeMs, m)
  {
    hide Iterate;
  }

  lemma NoIteration<S>(engine: Engine<S>, items: seq<ScheduledAction>, index: nat, state: S, timeMs: real)
    ensures Iterations(engine, items, index, state, timeMs, 0) == (items, index, state)
  {
  }

  /** The loop is about to run the job at this index. */
  predicate IsAt<S>(loop: (seq<ScheduledAction>, nat, S), index: nat, job: ScheduledAction) {
    loop.1 == index < |loop.0| && Sort(loop.0, RunsNoLater)[index] == job
  }

  /** A due job that pushes into the past on states that it does not leave is never left: after
      any number of further iterations the loop is about to run it again. */
  lemma {:induction false} PastPushLoopsWhile<S(!new)>(engine: Engine<S>, items: seq<ScheduledAction>, index: nat,
                                                state: S,
                                                       timeMs: real, n: nat, stays: S -> bool)
    requires index < |items| && Due(Sort(items, RunsNoLater)[index], timeMs) && stays(state)
    requires var job := Sort(items, RunsNoLater)[index];
             forall s | stays(s) :: LastIsPast(job, engine.push(s, job)) && stays(engine.apply(s, job))
    ensures IsAt(Iterations(engine, items, index, state, timeMs, n), index + n, Sort(items, RunsNoLater)[index])
    decreases n
  {
    hide Iterations, LastIsPast, RunsNoLater, Sort;
    if n == 0 {
      NoIteration(engine, items, index, state, timeMs);
    } else {
      PastPushIterates(engine, items, index, state, timeMs);
      var next := Iterate(engine, items, index, state, timeMs);
      PastPushLoopsWhile(engine, next.0, next.1, next.2, timeMs, n - 1, stays);
      FirstIteration(engine, items, index, state, timeMs, n - 1);
    }
  }

  /** A due job that pushes into the past on every state is never left once it is reached. */
  lemma PastPushLoopsForEver<S(!new)>(engine: Engine<S>, items: seq<ScheduledAction>, index: nat, state: S,
                               timeMs: real, n: nat)
    requires index < |items| && Due(Sort(items, RunsNoLater)[index], timeMs)
    requires PushesIntoPast(engine, Sort(items, RunsNoLater)[index])
    ensures IsAt(Iterations(engine, items, index, state, timeMs, n), index + n, Sort(items, RunsNoLater)[index])
  {
    hide Iterations, LastIsPast, RunsNoLater, Sort, IsAt;
    PastPushLoopsWhile(engine, items, index, state, timeMs, n, _ => true);
  }

  /** A job that pushes nothing on states that it does not leave is left in the end. */
  lemma {:induction false} IdleIsLeft<S(!new)>(engine: Engine<S>, items: seq<ScheduledAction>, index: nat, state: S,
                                        timeMs: real,
                                               job: ScheduledAction, idle: S -> bool) returns (n: nat)
    requires index <= |items| && Due(job, timeMs) && idle(state)
    requires forall s | idle(s) :: engine.push(s, job) == [] && idle(engine.apply(s, job))
    ensures !IsAt(Iterations(engine, items, index, state, timeMs, n), index + n, job)
    decreases |items| - index
  {
    hide Iterations, RunsNoLater, Sort;
    if index == |items| || Sort(items, RunsNoLater)[index] != job {
      NoIteration(engine, items, index, state, timeMs);
      n := 0;
    } else {
      var next := Iterate(engine, items, index, state, timeMs);
      var m := IdleIsLeft(engine, next.0, next.1, next.2, timeMs, job, idle);
      FirstIteration(engine, items, index, state, timeMs, m);
      n := m + 1;
    }
  }

  lemma PastPushIterates<S>(engine: Engine<S>, items: seq<ScheduledAction>, index: nat, state: S, timeMs: real)
    requires index < |items| && Due(Sort(items, RunsNoLater)[index], timeMs)
    requires LastIsPast(Sort(items, RunsNoLater)[index], engine.push(state, Sort(items, RunsNoLater)[index]))
    ensures var next := Iterate(engine, items, index, state, timeMs);
            next.1 == index + 1 < |next.0| && Sort(next.0, RunsNoLater)[index + 1] == Sort(items, RunsNoLater)[index]
  {
    var pushed := engine.push(state, Sort(items, RunsNoLater)[index]);
    var before, last := pushed[..|pushed| - 1], pushed[|pushed| - 1];
    assert pushed == before + [last];
    PastPushRepeats(engine, items, index, state, timeMs, before, last);
  }

  // ----------------------------------------------------------- when the loop ends

  /** The index has passed the array. */
  predicate AtEnd<S>(loop: (seq<ScheduledAction>, nat, S)) { loop.1 >= |loop.0| }

  lemma LoopBounds<S(!new)>(engine: Engine<S>, timeMs: real, whole: Run<S>, items: seq<ScheduledAction>, index: nat,
                            state: S, executed: seq<ScheduledAction>, pushed: seq<ScheduledAction>,
                                pending: seq<ScheduledAction>)
    requires Exhausts(engine) && forall x :: engine.weight(x) >= 1
    requires LoopInvariant(engine, timeMs, whole, items, index, state, executed, pushed, pending)
    ensures index <= |items| && index <= |executed| + TotalWeight(engine.weight, pending)
  {
    WeightCounts(engine.weight, pending);
    hide Simulate, Sort, AllTimely, Finished;
  }

  /** With timely jobs the loop gets to the end of its array, in the state of the run. */
  lemma {:induction false} LoopReachesEnd<S(!new)>(engine: Engine<S>, timeMs: real, whole: Run<S>,
                                            items: seq<ScheduledAction>, index: nat,
                                                   state: S, executed: seq<ScheduledAction>,
                                                       pushed: seq<ScheduledAction>,
                                                   pending: seq<ScheduledAction>) returns (n: nat)
    requires Exhausts(engine) && LooksForward(engine) && forall x :: engine.weight(x) >= 1
    requires LoopInvariant(engine, timeMs, whole, items, index, state, executed, pushed, pending)
    ensures AtEnd(Iterations(engine, items, index, state, timeMs, n))
    ensures Iterations(engine, items, index, state, timeMs, n).2 == whole.state
    decreases TotalWeight(engine.weight, pending) + |executed| - index
  {
    hide LoopInvariant, Simulate, Sort, Remaining, RunsNoLater, TotalWeight;
    LoopBounds(engine, timeMs, whole, items, index, state, executed, pushed, pending);
    if index == |items| {
      LoopEnds(engine, timeMs, whole, items, index, state, executed, pushed, pending);
      return 0;
    }
    var sorted := Sort(items, RunsNoLater);
    var m: nat;
    if Due(sorted[index], timeMs) {
      var more := engine.push(state, sorted[index]);
      LoopRuns(engine, timeMs, whole, items, index, state, executed, pushed, pending);
      RemainingIsLighter(engine, state, pending);
      LoopBounds(engine, timeMs, whole, sorted + more, index + 1, engine.apply(state, sorted[index]),
          executed + [sorted[index]],
        pushed + more, Remaining(engine, state, pending));
      m := LoopReachesEnd(engine, timeMs, whole, sorted + more, index + 1, engine.apply(state, sorted[index]),
        executed + [sorted[index]], pushed + more, Remaining(engine, state, pending));
    } else {
      LoopSkips(engine, timeMs, whole, items, index, state, executed, pushed, pending);
      LoopBounds(engine, timeMs, whole, sorted, index + 1, state, executed, pushed, pending);
      m := LoopReachesEnd(engine, timeMs, whole, sorted, index + 1, state, executed, pushed, pending);
    }
    FirstIteration(engine, items, index, state, timeMs, m);
    n := m + 1;
  }

  /** Some entry from `index` on is due and pushes into the past. */
  ghost predicate PastPushAhead<S(!new)>(engine: Engine<S>, sorted: seq<ScheduledAction>, index: nat, timeMs: real) {
    exists k | index <= k < |sorted| :: Due(sorted[k], timeMs) && PushesIntoPast(engine, sorted[k])
  }

  /** Every due entry is timely or pushes into the past. */
  ghost predicate Decided<S(!new)>(engine: Engine<S>, items: seq<ScheduledAction>, timeMs: real) {
    forall x | x in items && Due(x, timeMs) :: engine.timely(x) || PushesIntoPast(engine, x)
  }

  lemma TailHas<T>(front: seq<T>, rest: seq<T>, more: seq<T>, tail: seq<T>, x: T)
    requires multiset(front + tail) == multiset(front + rest + more) && x in rest
    ensures x in tail
  {
    assert multiset(front + tail)[x] == multiset(front)[x] + multiset(tail)[x];
    assert multiset(front + rest + more)[x] == multiset(front)[x] + multiset(rest)[x] + multiset(more)[x];
    assert x in multiset(rest);
  }

  /** A forward push and a re-sorting leave an entry behind the visited ones behind them. */
  lemma StaysBehind(sorted: seq<ScheduledAction>, index: nat, more: seq<ScheduledAction>, k: nat) returns (j: nat)
    requires index < k < |sorted| && Sorted(sorted, RunsNoLater)
    requires forall x | x in more :: RunsNoLater(sorted[index], x)
    ensures var grown := Sort(sorted + more, RunsNoLater); index < j < |grown| && grown[j] == sorted[k]
  {
    VisitedEntriesStay(sorted, index, more);
    SortMultiset(sorted + more, RunsNoLater);
    j := BehindFront(sorted, index, more, k, Sort(sorted + more, RunsNoLater));
  }

  lemma BehindFront<T>(s: seq<T>, index: nat, more: seq<T>, k: nat, grown: seq<T>) returns (j: nat)
    requires index < k < |s| && index < |grown| && grown[..index + 1] == s[..index + 1]
    requires multiset(grown) == multiset(s + more)
    ensures index < j < |grown| && grown[j] == s[k]
  {
    var front, rest, tail := s[..index + 1], s[index + 1..], grown[index + 1..];
    assert s == front + rest && grown == front + tail;
    assert s[k] == rest[k - index - 1];
    TailHas(front, rest, more, tail, s[k]);
    var i :| 0 <= i < |tail| && tail[i] == s[k];
    j := index + 1 + i;
  }

  lemma SortedMembers(items: seq<ScheduledAction>)
    ensures forall x :: x in Sort(items, RunsNoLater) <==> x in items
  {
    SortMultiset(items, RunsNoLater);
    assert forall x :: x in items <==> x in multiset(items);
    assert forall x :: x in Sort(items, RunsNoLater) <==> x in multiset(Sort(items, RunsNoLater));
  }

  /** Entries before a due one are due. */
  lemma DueBefore(items: seq<ScheduledAction>, index: nat, k: nat, timeMs: real)
    requires index <= k < |items| && Due(Sort(items, RunsNoLater)[k], timeMs)
    ensures Due(Sort(items, RunsNoLater)[index], timeMs)
  {
    SortedByTime(items);
    hide Sort;
    var sorted := Sort(items, RunsNoLater);
    assert index < k ==> RunsNoLater(sorted[index], sorted[k]);
  }

  lemma StaysDecided<S(!new)>(engine: Engine<S>, items: seq<ScheduledAction>, state: S, job: ScheduledAction,
                       timeMs: real)
    requires LooksForward(engine) && Decided(engine, items, timeMs) && engine.timely(job)
    ensures Decided(engine, Sort(items, RunsNoLater) + engine.push(state, job), timeMs)
  {
    hide PushesIntoPast, Sort, RunsNoLater;
    SortedMembers(items);
    assert AllBehind(engine, job, engine.push(state, job));
  }

  /** One iteration at a timely entry keeps a due job that pushes into the past ahead. */
  lemma PastPushStaysAhead<S(!new)>(engine: Engine<S>, items: seq<ScheduledAction>, index: nat, state: S,
                             timeMs: real, k: nat)
    requires LooksForward(engine) && index < k < |items|
    requires var sorted := Sort(items, RunsNoLater);
             engine.timely(sorted[index]) && Due(sorted[k], timeMs) && PushesIntoPast(engine, sorted[k])
    ensures var sorted := Sort(items, RunsNoLater);
            PastPushAhead(engine, Sort(sorted + engine.push(state, sorted[index]), RunsNoLater), index + 1, timeMs)
  {
    hide PushesIntoPast, Sort, RunsNoLater;
    var sorted := Sort(items, RunsNoLater);
    var more := engine.push(state, sorted[index]);
    assert AllBehind(engine, sorted[index], more);
    SortedByTime(items);
    var j := StaysBehind(sorted, index, more, k);
  }

  /** A due job that pushes into the past is reached, and then the loop never ends. */
  lemma {:induction false} PastPushIsReached<S(!new)>(engine: Engine<S>, items: seq<ScheduledAction>, index: nat,
                                               state: S, timeMs: real, n: nat)
    requires LooksForward(engine) && Decided(engine, items, timeMs)
    requires PastPushAhead(engine, Sort(items, RunsNoLater), index, timeMs)
    ensures var now := Iterations(engine, items, index, state, timeMs, n); now.1 == index + n < |now.0|
    decreases n
  {
    hide Iterations, LastIsPast, RunsNoLater, PushesIntoPast, Sort;
    var sorted := Sort(items, RunsNoLater);
    var k :| index <= k < |sorted| && Due(sorted[k], timeMs) && PushesIntoPast(engine, sorted[k]);
    DueBefore(items, index, k, timeMs);
    SortedMembers(items);
    assert sorted[index] in sorted;
    if PushesIntoPast(engine, sorted[index]) {
      PastPushLoopsForEver(engine, items, index, state, timeMs, n);
    } else if n > 0 {
      StaysDecided(engine, items, state, sorted[index], timeMs);
      PastPushStaysAhead(engine, items, index, state, timeMs, k);
      var next := Iterate(engine, items, index, state, timeMs);
      PastPushIsReached(engine, next.0, next.1, next.2, timeMs, n - 1);
      FirstIteration(engine, items, index, state, timeMs, n - 1);
    } else {
      NoIteration(engine, items, index, state, timeMs);
    }
  }

  /** The loop ends, from the start of its array, exactly when every due job is timely, if
      those that are not push into the past. */
  lemma LoopEndsIffTimely<S(!new)>(engine: Engine<S>, items: seq<ScheduledAction>, state: S, timeMs: real)
    requires Exhausts(engine) && LooksForward(engine) && forall x :: engine.weight(x) >= 1
    requires Decided(engine, items, timeMs)
    ensures (exists n: nat :: AtEnd(Iterations(engine, items, 0, state, timeMs, n))) <==>
            AllTimely(engine, items, timeMs)
  {
    if AllTimely(engine, items, timeMs) {
      LoopStarts(engine, timeMs, items, state);
      var n := LoopReachesEnd(engine, timeMs, Simulate(engine, state, items, timeMs), items, 0, state, [], [], items);
    } else {
      var x :| x in items && Due(x, timeMs) && !engine.timely(x);
      SortedMembers(items);
      var sorted := Sort(items, RunsNoLater);
      var k :| 0 <= k < |sorted| && sorted[k] == x;
      forall n: nat ensures !AtEnd(Iterations(engine, items, 0, state, timeMs, n)) {
        PastPushIsReached(engine, items, 0, state, timeMs, n);
      }
    }
  }
}
