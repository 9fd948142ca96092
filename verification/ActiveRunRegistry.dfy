/**
  The registry of active direct-work runs (`app_state.rs`, `DirectWorkActiveRunRegistry`).
  Each method is one critical section of the registry's mutex.
*/
module ActiveRunRegistry {

  datatype WidgetKey = WidgetKey(workspaceId: string, workbenchId: string, widgetInstanceId: string)

  /** The flags a running worker polls; the registry and the worker share the object. */
  class CancellationToken {
    var cancellationRequested: bool
    var forceKillRequested: bool

    constructor ()
      ensures !cancellationRequested && !forceKillRequested
    {
      cancellationRequested, forceKillRequested := false, false;
    }
  }

  datatype ActiveRun<T> = ActiveRun(runId: string, widget: WidgetKey, token: T)

  type Runs<T> = map<string, ActiveRun<T>>

  // What the locked sections compute, for any representation of tokens.

  function TryRegistered<T>(runs: Runs<T>, run: ActiveRun<T>): Runs<T> {
    if run.runId in runs then runs else runs[run.runId := run]
  }

  function Unregistered<T>(runs: Runs<T>, runId: string): Runs<T> { runs - {runId} }

  predicate WidgetBusy<T>(runs: Runs<T>, widget: WidgetKey) {
    exists id | id in runs :: runs[id].widget == widget
  }

  predicate Cancels<T>(runs: Runs<T>, widget: WidgetKey, runId: string) {
    runId in runs && runs[runId].widget == widget
  }

  class DirectWorkActiveRunRegistry {
    var runs: Runs<CancellationToken>

    constructor ()
      ensures runs == map[]
    {
      runs := map[];
    }

    method Register(run: ActiveRun<CancellationToken>)
      modifies this
      ensures runs == old(runs)[run.runId := run]
    {
      runs := runs[run.runId := run];
    }

    method TryRegister(run: ActiveRun<CancellationToken>) returns (registered: bool)
      modifies this
      ensures registered <==> run.runId !in old(runs)
      ensures runs == TryRegistered(old(runs), run)
    {
      if run.runId in runs {
        return false;
      }
      runs := runs[run.runId := run];
      registered := true;
    }

    method HasActiveRun(runId: string) returns (active: bool)
      ensures active <==> runId in runs
    {
      active := runId in runs;
    }

    method HasActiveWidgetRun(widget: WidgetKey) returns (active: bool)
      ensures active <==> WidgetBusy(runs, widget)
    {
      var ids := runs.Keys;
      active := false;
      while ids != {}
        invariant ids <= runs.Keys
        invariant active <==> exists id | id in runs.Keys - ids :: runs[id].widget == widget
        decreases ids
      {
        var id :| id in ids;
        active := active || runs[id].widget == widget;
        ids := ids - {id};
      }
    }

    /** Cancels the run if it is active and belongs to the widget; no other token changes. */
    method RequestCancellation(widget: WidgetKey, runId: string) returns (found: bool)
      modifies if runId in runs then {runs[runId].token} else {}
      ensures runs == old(runs)
      ensures found <==> Cancels(runs, widget, runId)
      ensures runId in runs ==>
                runs[runId].token.cancellationRequested == (found || old(runs[runId].token.cancellationRequested))
                && runs[runId].token.forceKillRequested == old(runs[runId].token.forceKillRequested)
    {
      if runId !in runs {
        return false;
      }
      var run := runs[runId];
      if run.widget != widget {
        return false;
      }
      run.token.cancellationRequested := true;
      found := true;
    }

    method RequestForceKill(widget: WidgetKey, runId: string) returns (found: bool)
      modifies if runId in runs then {runs[runId].token} else {}
      ensures runs == old(runs)
      ensures found <==> Cancels(runs, widget, runId)
      ensures runId in runs ==>
                runs[runId].token.forceKillRequested == (found || old(runs[runId].token.forceKillRequested))
                && runs[runId].token.cancellationRequested == old(runs[runId].token.cancellationRequested)
    {
      if runId !in runs {
        return false;
      }
      var run := runs[runId];
      if run.widget != widget {
        return false;
      }
      run.token.forceKillRequested := true;
      found := true;
    }

    method Unregister(runId: string)
      modifies this
      ensures runs == Unregistered(old(runs), runId)
    {
      runs := runs - {runId};
    }
  }
}
