/** The engine lifecycle as the controller drives it: the defaults set at the
    start of every reconciliation, the routing of (engineState, engineStatus)
    to a handler, and the transitions each handler writes back (stopped,
    restarted, completed). Everything here is a value computation; the
    store calls that persist these values are in ChaosEngineController. */
module EngineLifecycle {
  import opened Wrappers
  import opened EngineTypes

  /** The finalizer the controller puts on every engine it initialises. */
  const Finalizer := "chaosengine.litmuschaos.io/finalizer"

  // ---------------------------------------------------------------------
  // Finalizers (utils.RemoveString)
  // ---------------------------------------------------------------------

  /** `xs` without any occurrence of `s`, the others kept in order. */
  function RemoveString(xs: seq<string>, s: string): (r: seq<string>)
    ensures forall x :: x in r <==> x in xs && x != s
    ensures |r| <= |xs|
    ensures s !in xs ==> r == xs
  {
    if xs == [] then []
    else if xs[0] == s then RemoveString(xs[1..], s)
    else [xs[0]] + RemoveString(xs[1..], s)
  }

  /** Removing the only finalizer there is leaves none. */
  lemma {:induction false} RemoveStringAll(xs: seq<string>, s: string)
    requires forall x :: x in xs ==> x == s
    ensures RemoveString(xs, s) == []
  {
    if xs != [] {
      assert xs[0] in xs;
      assert forall x :: x in xs[1..] ==> x in xs;
      RemoveStringAll(xs[1..], s);
    }
  }

  // ---------------------------------------------------------------------
  // initEngine
  // ---------------------------------------------------------------------

  /** The defaults: an unset engine state becomes active, and an active engine with
      no status becomes initialized. Only state and status change. */
  function Defaulted(instance: ChaosEngine): (r: ChaosEngine)
    ensures r.spec.engineState != StateUnset
    ensures r.spec.engineState == StateActive ==> r.status.engineStatus != StatusUnset
    ensures instance.spec.engineState == StateUnset ==> r.spec.engineState == StateActive
    ensures instance.spec.engineState != StateUnset ==> r.spec.engineState == instance.spec.engineState
    ensures r.spec.engineState == StateActive && instance.status.engineStatus == StatusUnset
            ==> r.status.engineStatus == StatusInitialized
    ensures r.spec.engineState != StateActive ==> r.status.engineStatus == instance.status.engineStatus
    ensures instance.status.engineStatus != StatusUnset ==> r.status.engineStatus == instance.status.engineStatus
    ensures r == instance.(spec := instance.spec.(engineState := r.spec.engineState),
                           status := instance.status.(engineStatus := r.status.engineStatus))
  {
    var state := if instance.spec.engineState == StateUnset then StateActive else instance.spec.engineState;
    var status :=
      if state == StateActive && instance.status.engineStatus == StatusUnset then StatusInitialized
      else instance.status.engineStatus;
    instance.(spec := instance.spec.(engineState := state), status := instance.status.(engineStatus := status))
  }

  /** An initialized engine without finalizers gets the controller's finalizer. */
  predicate FinalizerDue(instance: ChaosEngine)
  {
    instance.status.engineStatus == StatusInitialized && instance.meta.finalizers == []
  }

  /** The engine after initEngine's changes in memory. */
  function InitInstance(instance: ChaosEngine): (r: ChaosEngine)
    ensures r.spec.engineState != StateUnset
    ensures r.spec.engineState == StateActive ==> r.status.engineStatus != StatusUnset
    ensures instance.spec.engineState == StateUnset ==> r.spec.engineState == StateActive
    ensures r.spec.engineState == StateActive && instance.status.engineStatus == StatusUnset
            ==> r.status.engineStatus == StatusInitialized
    ensures r.status.engineStatus == StatusInitialized ==> r.meta.finalizers != []
    ensures FinalizerDue(Defaulted(instance)) ==> r.meta.finalizers == [Finalizer]
    ensures !FinalizerDue(Defaulted(instance)) ==> r.meta.finalizers == instance.meta.finalizers
    ensures r.meta == instance.meta.(finalizers := r.meta.finalizers)
    ensures r.spec == Defaulted(instance).spec && r.status == Defaulted(instance).status
  {
    var d := Defaulted(instance);
    if FinalizerDue(d) then d.(meta := d.meta.(finalizers := [Finalizer])) else d
  }

  /** Initialising an initialised engine changes nothing and adds no finalizer. */
  lemma InitInstanceIdempotent(instance: ChaosEngine)
    ensures InitInstance(InitInstance(instance)) == InitInstance(instance)
    ensures !FinalizerDue(Defaulted(InitInstance(instance)))
  {
    var r := InitInstance(instance);
    assert Defaulted(r) == r;
  }

  // ---------------------------------------------------------------------
  // Routing (Reconcile, lines after initEngine)
  // ---------------------------------------------------------------------

  datatype Route = ToCreationAndRunning | ToComplete | ToForceAbort | ToRestart | ToNothing

  /** The handler chosen for an engine: run while active and initialized, clean up
      after completion, abort a stop request before completion, restart an active
      engine that completed or was stopped. The guards do not overlap. */
  function RouteOf(instance: ChaosEngine): (r: Route)
    ensures r == ToCreationAndRunning
            <==> instance.spec.engineState == StateActive && instance.status.engineStatus == StatusInitialized
    ensures r == ToComplete
            <==> instance.spec.engineState == StateStop && instance.status.engineStatus == StatusCompleted
    ensures r == ToForceAbort
            <==> instance.spec.engineState == StateStop && instance.status.engineStatus != StatusCompleted
    ensures r == ToRestart
            <==> instance.spec.engineState == StateActive
                 && (instance.status.engineStatus == StatusCompleted || instance.status.engineStatus == StatusStopped)
  {
    var state, status := instance.spec.engineState, instance.status.engineStatus;
    if state == StateActive && status == StatusInitialized then ToCreationAndRunning
    else if state == StateStop && status == StatusCompleted then ToComplete
    else if state == StateStop && status != StatusCompleted then ToForceAbort
    else if state == StateActive && (status == StatusCompleted || status == StatusStopped) then ToRestart
    else ToNothing
  }

  /** After the defaults, only an engine state outside active/stop, or an active engine
      with a status outside the known ones, is left without a handler. */
  lemma InitLeavesOnlyUnknownIdle(instance: ChaosEngine)
    ensures var r := InitInstance(instance);
            RouteOf(r) == ToNothing
            <==> r.spec.engineState.StateOther?
                 || (r.spec.engineState == StateActive && r.status.engineStatus.StatusOther?)
  {
  }

  /** A freshly created engine (no state, no status) is initialised with the
      finalizer and routed to creation and running. */
  lemma FreshEngineStartsRunning(instance: ChaosEngine)
    requires instance.spec.engineState == StateUnset && instance.status.engineStatus == StatusUnset
    requires instance.meta.finalizers == []
    ensures FinalizerDue(Defaulted(instance))
    ensures InitInstance(instance).meta.finalizers == [Finalizer]
    ensures RouteOf(InitInstance(instance)) == ToCreationAndRunning
  {
  }

  // ---------------------------------------------------------------------
  // updateExperimentStatusesForStop
  // ---------------------------------------------------------------------

  /** Experiments still in flight: these are aborted on a stop. */
  predicate InFlight(s: ExperimentStatus)
  {
    s == ExperimentRunning || s == ExperimentWaiting
  }

  /** One experiment after a stop at time `now`. */
  function StopOne(x: ExperimentStatuses, now: Time): (r: ExperimentStatuses)
    ensures !InFlight(r.status)
    ensures InFlight(x.status) ==> r == x.(status := ExperimentAborted, verdict := "Stopped", lastUpdateTime := now)
    ensures !InFlight(x.status) ==> r == x
  {
    if InFlight(x.status) then x.(status := ExperimentAborted, verdict := "Stopped", lastUpdateTime := now) else x
  }

  /** Every experiment after a stop at time `now`. */
  function StopAll(xs: seq<ExperimentStatuses>, now: Time): (r: seq<ExperimentStatuses>)
    ensures |r| == |xs|
    ensures forall i :: 0 <= i < |xs| ==> r[i] == StopOne(xs[i], now)
  {
    seq(|xs|, i requires 0 <= i < |xs| => StopOne(xs[i], now))
  }

  /** updateExperimentStatusesForStop: aborts, in place and in order, every experiment
      that is running or waiting, stamping it with `now`; the others are untouched. */
  method UpdateExperimentStatusesForStop(xs: seq<ExperimentStatuses>, now: Time) returns (r: seq<ExperimentStatuses>)
    ensures r == StopAll(xs, now)
    ensures forall i :: 0 <= i < |r| ==> !InFlight(r[i].status)
    ensures forall i :: 0 <= i < |r| ==> r[i].name == xs[i].name
  {
    r := xs;
    for i := 0 to |r|
      invariant |r| == |xs|
      invariant forall j :: 0 <= j < i ==> r[j] == StopOne(xs[j], now)
      invariant forall j :: i <= j < |r| ==> r[j] == xs[j]
    {
      if r[i].status == ExperimentRunning || r[i].status == ExperimentWaiting {
        r := r[i := r[i].(status := ExperimentAborted, verdict := "Stopped", lastUpdateTime := now)];
      }
    }
  }

  /** A second stop, at any later time, changes nothing: stopped experiments keep
      their verdict and time stamp. */
  lemma StopAllIdempotent(xs: seq<ExperimentStatuses>, now: Time, later: Time)
    ensures StopAll(StopAll(xs, now), later) == StopAll(xs, now)
  {
  }

  // ---------------------------------------------------------------------
  // The transitions written back by the handlers
  // ---------------------------------------------------------------------

  /** reconcileForDelete: the finalizer removed, experiments stopped, status stopped. */
  function StoppedInstance(instance: ChaosEngine, now: Time): (r: ChaosEngine)
    ensures Finalizer !in r.meta.finalizers
    ensures forall f :: f in r.meta.finalizers <==> f in instance.meta.finalizers && f != Finalizer
    ensures r.status.engineStatus == StatusStopped
    ensures forall i :: 0 <= i < |r.status.experiments| ==> !InFlight(r.status.experiments[i].status)
    ensures r.status.experiments == StopAll(instance.status.experiments, now)
    ensures r.spec == instance.spec
    ensures r.meta == instance.meta.(finalizers := r.meta.finalizers)
  {
    instance.(meta := instance.meta.(finalizers := RemoveString(instance.meta.finalizers, Finalizer)),
              status := ChaosEngineStatus(StatusStopped, StopAll(instance.status.experiments, now)))
  }

  /** Stopping a stopped engine again, at any time, writes the same engine. */
  lemma StoppedInstanceIdempotent(instance: ChaosEngine, now: Time, later: Time)
    ensures StoppedInstance(StoppedInstance(instance, now), later) == StoppedInstance(instance, now)
  {
    StopAllIdempotent(instance.status.experiments, now, later);
  }

  /** updateEngineForRestart: initialized again, with the experiment statuses cleared. */
  function RestartedInstance(instance: ChaosEngine): (r: ChaosEngine)
    ensures r.status == ChaosEngineStatus(StatusInitialized, [])
    ensures r.spec == instance.spec && r.meta == instance.meta
  {
    instance.(status := ChaosEngineStatus(StatusInitialized, []))
  }

  /** updateEngineForComplete: status completed and state stop. */
  function CompletedInstance(instance: ChaosEngine): (r: ChaosEngine)
    ensures r.status.engineStatus == StatusCompleted && r.spec.engineState == StateStop
    ensures r.spec == instance.spec.(engineState := StateStop)
    ensures r.meta == instance.meta && r.status.experiments == instance.status.experiments
  {
    instance.(spec := instance.spec.(engineState := StateStop),
              status := instance.status.(engineStatus := StatusCompleted))
  }

  // ---------------------------------------------------------------------
  // The lifecycle across reconciliations
  // ---------------------------------------------------------------------

  /** A completed engine, read back on the next reconciliation, is left as it is by
      the defaults and routed to completion clean-up. */
  lemma CompletedIsCleanedUp(instance: ChaosEngine)
    ensures InitInstance(CompletedInstance(instance)) == CompletedInstance(instance)
    ensures RouteOf(CompletedInstance(instance)) == ToComplete
  {
  }

  /** A restarted active engine is routed to creation and running on the next
      reconciliation. */
  lemma RestartedRunsAgain(instance: ChaosEngine)
    requires instance.spec.engineState == StateActive
    ensures RouteOf(InitInstance(RestartedInstance(instance))) == ToCreationAndRunning
  {
  }

  /** An engine aborted by a stop request stays stopped: the next reconciliation
      routes it to the abort handler again, which writes the very same engine. */
  lemma AbortIsStable(instance: ChaosEngine, now: Time, later: Time)
    requires instance.spec.engineState == StateStop && instance.status.engineStatus != StatusCompleted
    ensures var s := StoppedInstance(instance, now);
            && InitInstance(s) == s
            && RouteOf(s) == ToForceAbort
            && StoppedInstance(s, later) == s
  {
    StoppedInstanceIdempotent(instance, now, later);
  }

  /** Setting a stopped or completed engine active again leads to a restart. */
  lemma ReactivatedRestarts(instance: ChaosEngine)
    requires instance.status.engineStatus == StatusStopped || instance.status.engineStatus == StatusCompleted
    requires instance.spec.engineState == StateActive
    ensures RouteOf(InitInstance(instance)) == ToRestart
  {
  }
}
