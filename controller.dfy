/** The ChaosEngine reconciler: one call of `Reconcile` reads the engine named by
    the request, initialises it and dispatches on its lifecycle to creation and
    running of the chaos runner, completion clean-up, forced abort (also used for
    deletion) or restart.

    Every step threads the `World` (store and event trace) through explicitly.
    The engine the source keeps in a package-level variable for the duration of
    one reconciliation is passed from step to step instead. The outcome of each
    handler is stated by a ghost predicate over the world before and after, so
    that `Reconcile` can state its own outcome in terms of the handler it
    dispatches to. */
module ChaosEngineController {
  import opened Wrappers
  import opened EngineTypes
  import opened Store
  import opened Resource
  import opened RunnerSpec
  import opened EngineLifecycle

  /** The operator's environment and built-in defaults: CHAOS_RUNNER_IMAGE, the
      default runner image, the default annotation check and the analytics client UID. */
  datatype Config = Config(
    runnerImageEnv: string,
    defaultRunnerImage: string,
    defaultAnnotationCheck: string,
    clientUUID: string)

  /** The errors a reconciliation returns (and which make it be retried). */
  datatype Error =
    | StoreFailure(call: Call)                  // a store call's own error, passed on
    | ChaosResourcesNotDeleted(kinds: seq<Kind>) // "Unable to delete ChaosResources due to ..."
    | FinalizerNotRemoved(call: Call)           // "Unable to remove Finalizer from chaosEngine Resource, ..."
    | AnnotationCheckNotSupported(value: string)
    | ExperimentListOrUUIDEmpty

  // ---------------------------------------------------------------------
  // Events
  // ---------------------------------------------------------------------

  const OperationFailedReason := "ChaosResourcesOperationFailed"

  function Warn(message: string): Event
  {
    Event(Warning, OperationFailedReason, message)
  }

  const DeleteFailedEvent := Warn("Unable to delete chaos resources")
  const UpdateFailedEvent := Warn("Unable to update chaosengine")
  const GetResourcesFailedEvent := Warn("Unable to get chaos resources")
  const GateFailedEvent := Warn("Unable to get chaosengine")
  const StoppedEvent := Event(Normal, "ChaosEngineStopped", " Chaos resources deleted successfully")
  const CompletedEvent := Event(Normal, "ChaosEngineCompleted",
    "Chaos Engine completed, will delete or retain the resources according to jobCleanUpPolicy")
  const RestartEvent := Event(Normal, "RestartInProgress", "Chaos Engine restarted, will re-create all chaos-resources")

  function InitializedEvent(instance: ChaosEngine): Event
  {
    Event(Normal, "ChaosEngineInitialized", RunnerName(instance) + " created successfully")
  }

  // ---------------------------------------------------------------------
  // initEngine
  // ---------------------------------------------------------------------

  /** The world after initEngine: when the finalizer is due, the event is recorded and
      the initialised engine is updated; otherwise the defaults stay in memory only. */
  function InitWorld(w: World, instance: ChaosEngine, fails: Faults): World
  {
    if FinalizerDue(Defaulted(instance)) then
      AfterUpdate(Record(w, InitializedEvent(InitInstance(instance))), InitInstance(instance), fails)
    else w
  }

  function InitError(instance: ChaosEngine, fails: Faults): Option<Error>
  {
    if FinalizerDue(Defaulted(instance)) && fails(UpdateEngine(InitInstance(instance)))
    then Some(StoreFailure(UpdateEngine(InitInstance(instance))))
    else None
  }

  /** initEngine: applies the defaults, adds the finalizer to an initialized engine
      that has none and then, only then, updates the engine in the store. */
  method InitEngine(w: World, instance: ChaosEngine, fails: Faults)
    returns (w': World, instance': ChaosEngine, err: Option<Error>)
    ensures instance' == InitInstance(instance)
    ensures w' == InitWorld(w, instance, fails) && err == InitError(instance, fails)
    ensures !FinalizerDue(Defaulted(instance)) ==> w' == w && err.None?
    ensures err.Some? <==> FinalizerDue(Defaulted(instance)) && fails(UpdateEngine(instance'))
    ensures w'.objects == w.objects
    ensures err.None? && FinalizerDue(Defaulted(instance)) && instance.meta.deletionTimestamp.None?
            ==> EngineKey(instance) in w'.engines && w'.engines[EngineKey(instance)] == instance'
  {
    instance' := instance;
    if instance'.spec.engineState == StateUnset {
      instance' := instance'.(spec := instance'.spec.(engineState := StateActive));
    }
    if instance'.spec.engineState == StateActive && instance'.status.engineStatus == StatusUnset {
      instance' := instance'.(status := instance'.status.(engineStatus := StatusInitialized));
    }
    assert instance' == Defaulted(instance);
    w' := w;
    err := None;
    if instance'.status.engineStatus == StatusInitialized {
      if instance'.meta.finalizers == [] {
        instance' := instance'.(meta := instance'.meta.(finalizers := instance'.meta.finalizers + [Finalizer]));
        w' := Record(w', InitializedEvent(instance'));
        var ok;
        w', ok := Update(w', instance', fails);
        if !ok {
          err := Some(StoreFailure(UpdateEngine(instance')));
        }
      }
    }
  }

  /** initEngine on an engine it has already initialised issues no update, records
      no event and cannot fail. */
  lemma InitEngineTwice(w: World, instance: ChaosEngine, fails: Faults)
    ensures InitInstance(InitInstance(instance)) == InitInstance(instance)
    ensures InitWorld(w, InitInstance(instance), fails) == w
    ensures InitError(InitInstance(instance), fails).None?
  {
    InitInstanceIdempotent(instance);
  }

  // ---------------------------------------------------------------------
  // forceRemoveAllChaosPods
  // ---------------------------------------------------------------------

  /** The resource names listed in the failure event. */
  function KindPlural(k: Kind): string
  {
    match k
    case KindDeployment => "Deployments, "
    case KindDaemonSet => "DaemonSets, "
    case KindJob => "Jobs, "
    case KindPod => "Pods, "
  }

  function KindNames(kinds: seq<Kind>): string
  {
    if kinds == [] then "" else KindPlural(kinds[0]) + KindNames(kinds[1..])
  }

  function ForceRemoveFailedEvent(failed: seq<Kind>): Event
  {
    Warn("Unable to delete chaos resources: " + KindNames(failed) + " allocated to chaosengine")
  }

  /** The position of a kind in the order of deletion. */
  function KindRank(k: Kind): nat
  {
    match k
    case KindDeployment => 0
    case KindDaemonSet => 1
    case KindJob => 2
    case KindPod => 3
  }

  /** The kind, when its deletion fails. */
  function Failure(kind: Kind, ns: string, selector: map<string, string>, fails: Faults): seq<Kind>
  {
    if fails(DeleteAllOf(kind, ns, selector)) then [kind] else []
  }

  /** The kind, when its deletion succeeds. */
  function Removal(kind: Kind, ns: string, selector: map<string, string>, fails: Faults): set<Kind>
  {
    if fails(DeleteAllOf(kind, ns, selector)) then {} else {kind}
  }

  /** The kinds whose deletion fails, in the order they are deleted. */
  function FailedKinds(ns: string, selector: map<string, string>, fails: Faults): (r: seq<Kind>)
    ensures forall i, j :: 0 <= i < j < |r| ==> KindRank(r[i]) < KindRank(r[j])
  {
    Failure(KindDeployment, ns, selector, fails) + Failure(KindDaemonSet, ns, selector, fails)
    + Failure(KindJob, ns, selector, fails) + Failure(KindPod, ns, selector, fails)
  }

  /** The kinds whose deletion succeeds. */
  function RemovedKinds(ns: string, selector: map<string, string>, fails: Faults): set<Kind>
  {
    Removal(KindDeployment, ns, selector, fails) + Removal(KindDaemonSet, ns, selector, fails)
    + Removal(KindJob, ns, selector, fails) + Removal(KindPod, ns, selector, fails)
  }

  /** A kind is reported exactly when its deletion fails. */
  lemma FailedKindsMembers(ns: string, selector: map<string, string>, fails: Faults)
    ensures forall k :: k in FailedKinds(ns, selector, fails) <==> fails(DeleteAllOf(k, ns, selector))
  {
    forall k ensures k in FailedKinds(ns, selector, fails) <==> fails(DeleteAllOf(k, ns, selector)) {
      match k
      case KindDeployment =>
      case KindDaemonSet =>
      case KindJob =>
      case KindPod =>
    }
  }

  /** A kind is purged exactly when its deletion succeeds. */
  lemma RemovedKindsMembers(ns: string, selector: map<string, string>, fails: Faults)
    ensures forall k :: k in RemovedKinds(ns, selector, fails) <==> !fails(DeleteAllOf(k, ns, selector))
  {
    forall k ensures k in RemovedKinds(ns, selector, fails) <==> !fails(DeleteAllOf(k, ns, selector)) {
      match k
      case KindDeployment =>
      case KindDaemonSet =>
      case KindJob =>
      case KindPod =>
    }
  }

  /** The four delete-all calls, always all issued, in order. */
  function ForceRemoveCalls(ns: string, selector: map<string, string>): seq<Step>
  {
    [ Issued(DeleteAllOf(KindDeployment, ns, selector)),
      Issued(DeleteAllOf(KindDaemonSet, ns, selector)),
      Issued(DeleteAllOf(KindJob, ns, selector)),
      Issued(DeleteAllOf(KindPod, ns, selector)) ]
  }

  /** The world after forced removal of everything labelled with the engine's UID. */
  function ForceRemovedWorld(w: World, instance: ChaosEngine, ns: string, fails: Faults): World
  {
    var selector := ChaosUIDSelector(instance.meta.uid);
    var failed := FailedKinds(ns, selector, fails);
    w.(objects := Purge(w.objects, RemovedKinds(ns, selector, fails), ns, selector),
       trace := w.trace + ForceRemoveCalls(ns, selector)
                + (if failed == [] then [] else [Recorded(ForceRemoveFailedEvent(failed))]))
  }

  function ForceRemoveError(instance: ChaosEngine, ns: string, fails: Faults): Option<Error>
  {
    var failed := FailedKinds(ns, ChaosUIDSelector(instance.meta.uid), fails);
    if failed == [] then None else Some(ChaosResourcesNotDeleted(failed))
  }

  /** Forced removal fails exactly when one of the four deletions fails; when none
      fails, nothing labelled with the engine's UID is left in the namespace; the
      objects of a kind whose deletion failed, and every object the selector does not
      reach, are left as they were; the engines are untouched. */
  lemma ForceRemovalFacts(w: World, instance: ChaosEngine, ns: string, fails: Faults)
    ensures var w' := ForceRemovedWorld(w, instance, ns, fails);
            var err := ForceRemoveError(instance, ns, fails);
            var selector := ChaosUIDSelector(instance.meta.uid);
            && w'.engines == w.engines
            && (err.None? <==> forall k :: !fails(DeleteAllOf(k, ns, selector)))
            && (err.None? ==> forall key :: key in w'.objects && key.namespace == ns
                                ==> !Matches(w'.objects[key].labels, selector))
            && (forall key :: key in w.objects && fails(DeleteAllOf(key.kind, ns, selector))
                  ==> key in w'.objects && w'.objects[key] == w.objects[key])
            && (forall key :: key in w.objects && !(key.namespace == ns && Matches(w.objects[key].labels, selector))
                  ==> key in w'.objects && w'.objects[key] == w.objects[key])
  {
    FailedKindsMembers(ns, ChaosUIDSelector(instance.meta.uid), fails);
    RemovedKindsMembers(ns, ChaosUIDSelector(instance.meta.uid), fails);
  }

  /** One delete-all call, collecting the kind when it fails. */
  method DeleteKind(w: World, kind: Kind, ns: string, selector: map<string, string>, fails: Faults,
                    failed: seq<Kind>, ghost base: map<ObjKey, StoredObject>, ghost removed: set<Kind>)
    returns (w': World, failed': seq<Kind>)
    requires w.objects == Purge(base, removed, ns, selector)
    ensures w'.engines == w.engines && w'.trace == w.trace + [Issued(DeleteAllOf(kind, ns, selector))]
    ensures w'.objects == Purge(base, removed + Removal(kind, ns, selector, fails), ns, selector)
    ensures failed' == failed + Failure(kind, ns, selector, fails)
  {
    var ok;
    w', ok := DeleteAll(w, kind, ns, selector, fails);
    failed' := failed;
    if !ok {
      failed' := failed' + [kind];
      assert removed + Removal(kind, ns, selector, fails) == removed;
    } else {
      PurgeTwice(base, removed, {kind}, ns, selector);
    }
  }

  /** forceRemoveAllChaosPods: issues the delete-all of deployments, daemonsets, jobs and
      pods labelled with the engine's UID, every one of them even after a failure; a
      failure is reported once, by one event naming every kind that failed. */
  method ForceRemoveAllChaosPods(w: World, instance: ChaosEngine, ns: string, fails: Faults)
    returns (w': World, err: Option<Error>)
    ensures w' == ForceRemovedWorld(w, instance, ns, fails) && err == ForceRemoveError(instance, ns, fails)
  {
    var selector := ChaosUIDSelector(instance.meta.uid);
    PurgeNothing(w.objects, ns, selector);
    ghost var r1 := Removal(KindDeployment, ns, selector, fails);
    ghost var r2 := Removal(KindDaemonSet, ns, selector, fails);
    ghost var r3 := Removal(KindJob, ns, selector, fails);
    var failed: seq<Kind> := [];
    var w1, w2, w3;
    w1, failed := DeleteKind(w, KindDeployment, ns, selector, fails, failed, w.objects, {});
    assert {} + r1 == r1;
    w2, failed := DeleteKind(w1, KindDaemonSet, ns, selector, fails, failed, w.objects, r1);
    w3, failed := DeleteKind(w2, KindJob, ns, selector, fails, failed, w.objects, r1 + r2);
    w', failed := DeleteKind(w3, KindPod, ns, selector, fails, failed, w.objects, r1 + r2 + r3);
    assert failed == FailedKinds(ns, selector, fails);
    assert w'.trace == w.trace + ForceRemoveCalls(ns, selector);
    if failed != [] {
      w' := Record(w', ForceRemoveFailedEvent(failed));
      err := Some(ChaosResourcesNotDeleted(failed));
    } else {
      err := None;
    }
  }

  // ---------------------------------------------------------------------
  // gracefullyRemoveChaosPods
  // ---------------------------------------------------------------------

  /** The deletions issued for the pods of `order`, one call per pod, in that order. */
  function DeleteCalls(order: seq<ObjKey>): seq<Step>
  {
    seq(|order|, i requires 0 <= i < |order| => Issued(DeleteObject(order[i])))
  }

  function KeysOf(order: seq<ObjKey>): set<ObjKey>
  {
    set k | k in order
  }

  ghost predicate Distinct(order: seq<ObjKey>)
  {
    forall i, j :: 0 <= i < j < |order| ==> order[i] != order[j]
  }

  /** The pods a run of deletions removed: all of them, or all but the failing last. */
  function Removed(order: seq<ObjKey>, failed: bool): set<ObjKey>
  {
    if failed && |order| > 0 then KeysOf(order[..|order| - 1]) else KeysOf(order)
  }

  /** A run of deletions over the listed pods: each listed pod is deleted at most
      once and no other pod; every deletion but the last succeeded; the run either
      failed on its last deletion or deleted every listed pod without a failure. */
  ghost predicate DeleteRun(order: seq<ObjKey>, listed: set<ObjKey>, fails: Faults, failed: bool)
  {
    && KeysOf(order) <= listed
    && Distinct(order)
    && (forall i :: 0 <= i < |order| - 1 ==> !fails(DeleteObject(order[i])))
    && (if failed then |order| > 0 && fails(DeleteObject(order[|order| - 1]))
        else KeysOf(order) == listed && (|order| > 0 ==> !fails(DeleteObject(order[|order| - 1]))))
  }

  /** A sequence without repetition has as many distinct elements as entries. */
  lemma {:induction false} DistinctCard(order: seq<ObjKey>)
    requires Distinct(order)
    ensures |KeysOf(order)| == |order|
  {
    if |order| > 0 {
      var init := order[..|order| - 1];
      assert order == init + [order[|order| - 1]];
      assert Distinct(init);
      DistinctCard(init);
      KeysOfSnoc(init, order[|order| - 1]);
    }
  }

  lemma SubsetCard(a: set<ObjKey>, b: set<ObjKey>)
    requires a <= b
    ensures |a| <= |b|
  {
    assert b == a + (b - a);
  }

  /** The loop's progress: `order` deleted successfully, each once, `pending` left. */
  ghost predicate RunSoFar(order: seq<ObjKey>, pending: set<ObjKey>, listed: set<ObjKey>, fails: Faults)
  {
    && pending + KeysOf(order) == listed && pending !! KeysOf(order)
    && Distinct(order)
    && (forall i :: 0 <= i < |order| ==> !fails(DeleteObject(order[i])))
  }

  lemma DeleteCallsSnoc(trace: seq<Step>, order: seq<ObjKey>, key: ObjKey)
    ensures trace + DeleteCalls(order + [key]) == trace + DeleteCalls(order) + [Issued(DeleteObject(key))]
  {
    assert DeleteCalls(order + [key]) == DeleteCalls(order) + [Issued(DeleteObject(key))];
  }

  lemma KeysOfSnoc(order: seq<ObjKey>, key: ObjKey)
    ensures KeysOf(order + [key]) == KeysOf(order) + {key}
  {
  }

  /** A successful deletion of a pending pod moves it from `pending` to the run. */
  lemma RunContinues(order: seq<ObjKey>, pending: set<ObjKey>, listed: set<ObjKey>, fails: Faults, key: ObjKey)
    requires RunSoFar(order, pending, listed, fails) && key in pending && !fails(DeleteObject(key))
    ensures RunSoFar(order + [key], pending - {key}, listed, fails)
    ensures KeysOf(order + [key]) == KeysOf(order) + {key}
  {
    KeysOfSnoc(order, key);
  }

  /** A failed deletion of a pending pod ends the run; the pods removed are those before it. */
  lemma RunStops(order: seq<ObjKey>, pending: set<ObjKey>, listed: set<ObjKey>, fails: Faults, key: ObjKey)
    requires RunSoFar(order, pending, listed, fails) && key in pending && fails(DeleteObject(key))
    ensures DeleteRun(order + [key], listed, fails, true)
    ensures Removed(order + [key], true) == KeysOf(order)
  {
    KeysOfSnoc(order, key);
    assert (order + [key])[..|order|] == order;
  }

  /** With nothing pending, the run deleted every listed pod. */
  lemma RunFinishes(order: seq<ObjKey>, listed: set<ObjKey>, fails: Faults)
    requires RunSoFar(order, {}, listed, fails)
    ensures DeleteRun(order, listed, fails, false) && Removed(order, false) == listed
  {
  }

  /** The world after deleting the pods of `order` one by one, each successfully. */
  ghost predicate DeletedSoFar(w: World, w': World, order: seq<ObjKey>)
  {
    && w'.engines == w.engines
    && w'.objects == w.objects - KeysOf(order)
    && w'.trace == w.trace + DeleteCalls(order)
  }

  /** One more deletion: a success extends the run, a failure adds its call only. */
  lemma DeleteStep(w: World, w0: World, w1: World, order: seq<ObjKey>, key: ObjKey, ok: bool)
    requires DeletedSoFar(w, w0, order)
    requires w1.engines == w0.engines && w1.trace == w0.trace + [Issued(DeleteObject(key))]
    requires w1.objects == if ok then w0.objects - {key} else w0.objects
    ensures ok ==> DeletedSoFar(w, w1, order + [key])
    ensures !ok ==> && w1.engines == w.engines && w1.objects == w.objects - KeysOf(order)
                    && w1.trace == w.trace + DeleteCalls(order + [key])
  {
    DeleteCallsSnoc(w.trace, order, key);
    KeysOfSnoc(order, key);
    assert w.objects - (KeysOf(order) + {key}) == (w.objects - KeysOf(order)) - {key};
  }

  /** The outcome of graceful removal: the pods owned by the engine are listed and
      deleted one by one, each once, stopping at the first failure. */
  ghost predicate GracefulOutcome(w: World, instance: ChaosEngine, ns: string, fails: Faults, w': World, err: Option<Error>)
  {
    var selector := OwnerSelector(instance);
    var listCall := ListPods(ns, selector);
    var listed := Listed(w.objects, ns, selector);
    && w'.engines == w.engines
    && (fails(listCall) ==> w' == Issue(w, listCall) && err == Some(StoreFailure(listCall)))
    && (!fails(listCall) ==>
          exists order ::
            && DeleteRun(order, listed, fails, err.Some?)
            && w'.trace == w.trace + [Issued(listCall)] + DeleteCalls(order)
            && w'.objects == w.objects - Removed(order, err.Some?)
            && (err.Some? ==> err == Some(StoreFailure(DeleteObject(order[|order| - 1])))))
  }

  /** The loop of gracefullyRemoveChaosPods: deletes the listed pods one at a time,
      in the order the store lists them, and stops at the first failure. */
  method DeleteListed(w: World, listed: set<ObjKey>, fails: Faults)
    returns (w': World, err: Option<Error>, ghost order: seq<ObjKey>)
    ensures w'.engines == w.engines
    ensures DeleteRun(order, listed, fails, err.Some?)
    ensures w'.trace == w.trace + DeleteCalls(order)
    ensures w'.objects == w.objects - Removed(order, err.Some?)
    ensures err.Some? ==> err == Some(StoreFailure(DeleteObject(order[|order| - 1])))
  {
    var pending := listed;
    order := [];
    w' := w;
    while pending != {}
      invariant RunSoFar(order, pending, listed, fails)
      invariant DeletedSoFar(w, w', order)
      decreases |pending|
    {
      var key :| key in pending;
      var ok;
      ghost var w0 := w';
      w', ok := Delete(w', key, fails);
      DeleteStep(w, w0, w', order, key, ok);
      if !ok {
        RunStops(order, pending, listed, fails, key);
        order := order + [key];
        return w', Some(StoreFailure(DeleteObject(key))), order;
      }
      RunContinues(order, pending, listed, fails, key);
      order := order + [key];
      pending := pending - {key};
    }
    RunFinishes(order, listed, fails);
    err := None;
  }

  /** gracefullyRemoveChaosPods: lists the pods in the namespace that carry the
      engine's ownership labels and deletes each; the first failure is returned. */
  method GracefullyRemoveChaosPods(w: World, instance: ChaosEngine, ns: string, fails: Faults)
    returns (w': World, err: Option<Error>)
    ensures GracefulOutcome(w, instance, ns, fails, w', err)
  {
    var selector := OwnerSelector(instance);
    var listed;
    w', listed := List(w, ns, selector, fails);
    if listed.None? {
      err := Some(StoreFailure(ListPods(ns, selector)));
      return;
    }
    var wl := w';
    ghost var order;
    w', err, order := DeleteListed(wl, listed.value, fails);
  }

  /** What graceful removal promises once the listing succeeded: it succeeds exactly
      when no listed pod's deletion fails, and then every listed pod is gone; it
      removes listed pods only, and changes no object it keeps; a failure names the
      deletion of a listed pod that failed, the last store call made. */
  lemma GracefulFacts(w: World, instance: ChaosEngine, ns: string, fails: Faults, w': World, err: Option<Error>)
    requires GracefulOutcome(w, instance, ns, fails, w', err)
    requires !fails(ListPods(ns, OwnerSelector(instance)))
    ensures var listed := Listed(w.objects, ns, OwnerSelector(instance));
            && (err.None? <==> forall k :: k in listed ==> !fails(DeleteObject(k)))
            && (err.None? ==> w'.objects == w.objects - listed)
            && w'.objects.Keys <= w.objects.Keys
            && w.objects.Keys - w'.objects.Keys <= listed
            && (forall k :: k in w'.objects ==> w'.objects[k] == w.objects[k])
            && (err.Some? ==> && err.value.StoreFailure? && err.value.call.DeleteObject?
                              && err.value.call.key in listed && fails(err.value.call)
                              && |w'.trace| > 0 && w'.trace[|w'.trace| - 1] == Issued(err.value.call))
  {
    var listed := Listed(w.objects, ns, OwnerSelector(instance));
    var order :| && DeleteRun(order, listed, fails, err.Some?)
                 && w'.trace == w.trace + [Issued(ListPods(ns, OwnerSelector(instance)))] + DeleteCalls(order)
                 && w'.objects == w.objects - Removed(order, err.Some?)
                 && (err.Some? ==> err == Some(StoreFailure(DeleteObject(order[|order| - 1]))));
    assert Removed(order, err.Some?) <= listed;
    if err.Some? {
      assert order[|order| - 1] in KeysOf(order);
    } else {
      forall k | k in listed
        ensures !fails(DeleteObject(k))
      {
        var i :| 0 <= i < |order| && order[i] == k;
      }
    }
  }

  /** After the list call, graceful removal makes one call per listed pod at most,
      exactly that many when it succeeds, and at least one when it fails. */
  lemma GracefulCallCount(w: World, instance: ChaosEngine, ns: string, fails: Faults, w': World, err: Option<Error>)
    requires GracefulOutcome(w, instance, ns, fails, w', err)
    requires !fails(ListPods(ns, OwnerSelector(instance)))
    ensures var listed := Listed(w.objects, ns, OwnerSelector(instance));
            && |w'.trace| <= |w.trace| + 1 + |listed|
            && (err.None? ==> |w'.trace| == |w.trace| + 1 + |listed|)
            && (err.Some? ==> |w'.trace| >= |w.trace| + 2)
  {
    var listed := Listed(w.objects, ns, OwnerSelector(instance));
    var order :| && DeleteRun(order, listed, fails, err.Some?)
                 && w'.trace == w.trace + [Issued(ListPods(ns, OwnerSelector(instance)))] + DeleteCalls(order)
                 && w'.objects == w.objects - Removed(order, err.Some?)
                 && (err.Some? ==> err == Some(StoreFailure(DeleteObject(order[|order| - 1]))));
    DistinctCard(order);
    SubsetCard(KeysOf(order), listed);
  }

  /** Once graceful removal succeeds, no pod of the namespace carries the engine's
      ownership labels any more. */
  lemma GracefulLeavesNoOwnedPod(w: World, instance: ChaosEngine, ns: string, fails: Faults, w': World)
    requires GracefulOutcome(w, instance, ns, fails, w', None)
    ensures forall key :: key in w'.objects && key.kind == KindPod && key.namespace == ns
              ==> !Matches(w'.objects[key].labels, OwnerSelector(instance))
  {
    GracefulFacts(w, instance, ns, fails, w', None);
  }

  // ---------------------------------------------------------------------
  // engineRunnerPod, checkEngineRunnerPod, checkRunnerPodCompletedStatus
  // ---------------------------------------------------------------------

  /** The outcome of ensuring the runner pod: created only when the read says it is
      missing; an existing pod is left as it is. */
  ghost predicate RunnerOutcome(w: World, pod: Pod, fails: Faults, w': World, err: Option<Error>)
  {
    var key := PodKey(pod);
    var wg := Issue(w, GetObject(key));
    if fails(GetObject(key)) then w' == wg && err == Some(StoreFailure(GetObject(key)))
    else if key in w.objects then w' == wg && err.None?
    else
      && w'.engines == w.engines
      && w'.trace == wg.trace + [Issued(CreatePod(pod))]
      && (fails(CreatePod(pod)) ==> w'.objects == w.objects && err == Some(StoreFailure(CreatePod(pod))))
      && (!fails(CreatePod(pod)) ==> w'.objects == w.objects[key := CreatedObject(pod)] && err.None?)
  }

  /** engineRunnerPod: reads the runner pod and creates it when it is not found. */
  method EngineRunnerPod(w: World, pod: Pod, fails: Faults) returns (w': World, err: Option<Error>)
    ensures RunnerOutcome(w, pod, fails, w', err)
    ensures PodKey(pod) in w.objects ==> w'.objects == w.objects
    ensures err.None? ==> PodKey(pod) in w'.objects
    ensures w'.objects.Keys <= w.objects.Keys + {PodKey(pod)}
    ensures forall k :: k in w.objects ==> k in w'.objects && w'.objects[k] == w.objects[k]
  {
    var r;
    w', r := Get(w, PodKey(pod), fails);
    match r
    case NotFound =>
      var ok;
      w', ok := Create(w', pod, fails);
      err := if ok then None else Some(StoreFailure(CreatePod(pod)));
    case LookupFailed =>
      err := Some(StoreFailure(GetObject(PodKey(pod))));
    case Found(_) =>
      err := None;
  }

  /** checkEngineRunnerPod: refuses when the runner's precondition fails; otherwise
      builds the runner of the spec's type and ensures it exists. */
  method CheckEngineRunnerPod(w: World, engine: EngineInfo, clientUUID: string, fails: Faults)
    returns (w': World, err: Option<Error>)
    ensures RunnerPreconditionFails(engine) ==> w' == w && err == Some(ExperimentListOrUUIDEmpty)
    ensures !RunnerPreconditionFails(engine) ==> RunnerOutcome(w, NewRunnerPodForCR(engine, clientUUID).value, fails, w', err)
    ensures err.None? ==> RunnerKey(engine.instance) in w'.objects
    ensures RunnerKey(engine.instance) in w.objects ==> w'.objects == w.objects
    ensures forall k :: k in w.objects ==> k in w'.objects && w'.objects[k] == w.objects[k]
    ensures w'.objects.Keys <= w.objects.Keys + {RunnerKey(engine.instance)}
  {
    if (|engine.appExperiments| == 0 || engine.appUUID == "") && engine.instance.spec.annotationCheck == "true" {
      return w, Some(ExperimentListOrUUIDEmpty);
    }
    var pod := NewRunnerPodForCR(engine, clientUUID).value;
    RunnerPodIsOwned(pod, engine.instance);
    w', err := EngineRunnerPod(w, pod, fails);
  }

  /** The runner pod is read successfully and its phase is Succeeded. */
  predicate RunnerSucceeded(w: World, instance: ChaosEngine, fails: Faults)
  {
    var key := RunnerKey(instance);
    !fails(GetObject(key)) && key in w.objects && w.objects[key].phase == PodSucceeded
  }

  /** checkRunnerPodCompletedStatus: the runner has completed exactly when its pod is
      read and has succeeded; a failed read counts as not completed. */
  method CheckRunnerPodCompletedStatus(w: World, instance: ChaosEngine, fails: Faults)
    returns (w': World, completed: bool)
    ensures w' == Issue(w, GetObject(RunnerKey(instance)))
    ensures completed <==> RunnerSucceeded(w, instance, fails)
    ensures fails(GetObject(RunnerKey(instance))) ==> !completed
  {
    var r;
    w', r := Get(w, RunnerKey(instance), fails);
    completed := r.Found? && r.value.phase == PodSucceeded;
  }

  // ---------------------------------------------------------------------
  // updateEngineForComplete, updateEngineState, updateEngineForRestart
  // ---------------------------------------------------------------------

  ghost predicate CompletionOutcome(w: World, instance: ChaosEngine, fails: Faults, w': World, err: Option<Error>)
  {
    if instance.status.engineStatus == StatusCompleted then w' == w && err.None?
    else
      var completed := CompletedInstance(instance);
      var wu := AfterUpdate(w, completed, fails);
      if fails(UpdateEngine(completed)) then w' == wu && err == Some(StoreFailure(UpdateEngine(completed)))
      else w' == Record(wu, CompletedEvent) && err.None?
  }

  /** updateEngineForComplete: marks a not yet completed engine completed and stopped,
      and announces it only once the update succeeded; a completed engine is left alone. */
  method UpdateEngineForComplete(w: World, instance: ChaosEngine, fails: Faults) returns (w': World, err: Option<Error>)
    ensures CompletionOutcome(w, instance, fails, w', err)
    ensures w'.objects == w.objects
    ensures err.None? && instance.status.engineStatus != StatusCompleted && instance.meta.deletionTimestamp.None?
            ==> w'.engines[EngineKey(instance)].status.engineStatus == StatusCompleted
                && w'.engines[EngineKey(instance)].spec.engineState == StateStop
  {
    if instance.status.engineStatus != StatusCompleted {
      var completed := instance.(status := instance.status.(engineStatus := StatusCompleted));
      completed := completed.(spec := completed.spec.(engineState := StateStop));
      var ok;
      w', ok := Update(w, completed, fails);
      if !ok {
        return w', Some(StoreFailure(UpdateEngine(completed)));
      }
      w' := Record(w', CompletedEvent);
    } else {
      w' := w;
    }
    err := None;
  }

  /** updateEngineState: sets the engine state and updates the engine. */
  method UpdateEngineState(w: World, instance: ChaosEngine, state: EngineState, fails: Faults)
    returns (w': World, err: Option<Error>)
    ensures w' == AfterUpdate(w, instance.(spec := instance.spec.(engineState := state)), fails)
    ensures err.Some? <==> fails(UpdateEngine(instance.(spec := instance.spec.(engineState := state))))
    ensures err.Some? ==> err == Some(StoreFailure(UpdateEngine(instance.(spec := instance.spec.(engineState := state)))))
  {
    var updated := instance.(spec := instance.spec.(engineState := state));
    var ok;
    w', ok := Update(w, updated, fails);
    err := if ok then None else Some(StoreFailure(UpdateEngine(updated)));
  }

  /** updateEngineForRestart: announces the restart, then updates the engine as
      initialized with no experiment statuses. */
  method UpdateEngineForRestart(w: World, instance: ChaosEngine, fails: Faults) returns (w': World, err: Option<Error>)
    ensures w' == AfterUpdate(Record(w, RestartEvent), RestartedInstance(instance), fails)
    ensures err.Some? <==> fails(UpdateEngine(RestartedInstance(instance)))
    ensures err.Some? ==> err == Some(StoreFailure(UpdateEngine(RestartedInstance(instance))))
  {
    w' := Record(w, RestartEvent);
    var restarted := instance.(status := instance.status.(engineStatus := StatusInitialized, experiments := []));
    var ok;
    w', ok := Update(w', restarted, fails);
    err := if ok then None else Some(StoreFailure(UpdateEngine(restarted)));
  }

  // ---------------------------------------------------------------------
  // validateAnnontatedApplication
  // ---------------------------------------------------------------------

  /** The engine once setChaosResourceImage and getAnnotationCheck have written their
      resolved values into its spec. */
  function PreparedInstance(instance: ChaosEngine, cfg: Config): (r: ChaosEngine)
    ensures r.spec.runner.image == ResolveImage(instance.spec.runner.image, cfg.runnerImageEnv, cfg.defaultRunnerImage)
    ensures r.spec.runner == instance.spec.runner.(image := r.spec.runner.image)
    ensures r.spec.annotationCheck == ResolveAnnotationCheck(instance.spec.annotationCheck, cfg.defaultAnnotationCheck).value
    ensures r.meta == instance.meta && r.status == instance.status
    ensures r.spec.appInfo == instance.spec.appInfo && r.spec.experiments == instance.spec.experiments
    ensures r == instance.(spec := instance.spec.(runner := r.spec.runner, annotationCheck := r.spec.annotationCheck))
  {
    var image := ResolveImage(instance.spec.runner.image, cfg.runnerImageEnv, cfg.defaultRunnerImage);
    var check := ResolveAnnotationCheck(instance.spec.annotationCheck, cfg.defaultAnnotationCheck);
    instance.(spec := instance.spec.(runner := instance.spec.runner.(image := image), annotationCheck := check.value))
  }

  /** Where the source reads the label, it must contain `=`. */
  predicate LabelParsable(instance: ChaosEngine, cfg: Config)
  {
    ResolveAnnotationCheck(instance.spec.annotationCheck, cfg.defaultAnnotationCheck).supported
    ==> '=' in instance.spec.appInfo.appLabel
  }

  ghost predicate ValidationOutcome(w: World, engine: EngineInfo, cfg: Config, gate: GateEnv,
                                    w': World, engine': EngineInfo, err: Option<Error>)
  {
    var prepared := PreparedInstance(engine.instance, cfg);
    var check := ResolveAnnotationCheck(engine.instance.spec.annotationCheck, cfg.defaultAnnotationCheck);
    if !check.supported then
      w' == w && engine' == engine.(instance := prepared) && err == Some(AnnotationCheckNotSupported(check.value))
    else
      && '=' in prepared.spec.appInfo.appLabel
      && err.None?
      && var detailed := WithAppDetail(engine.(instance := prepared));
         if check.value == ChaosAnnotationValue then
           var reply := CheckChaosAnnotation(detailed, gate);
           engine' == reply.engine && w' == if reply.err.Some? then Record(w, GateFailedEvent) else w
         else engine' == detailed && w' == w
  }

  /** validateAnnontatedApplication: resolves the runner image and the annotation
      check, refusing an unsupported check; records the application details; when the
      check is on, runs the annotation gate, whose failure is only reported as an
      event and never fails the validation. */
  method ValidateAnnotatedApplication(w: World, engine: EngineInfo, cfg: Config, gate: GateEnv)
    returns (w': World, engine': EngineInfo, err: Option<Error>)
    requires LabelParsable(engine.instance, cfg)
    ensures ValidationOutcome(w, engine, cfg, gate, w', engine', err)
    ensures err.Some? <==> !ResolveAnnotationCheck(engine.instance.spec.annotationCheck, cfg.defaultAnnotationCheck).supported
    ensures engine'.instance == PreparedInstance(engine.instance, cfg)
    ensures w'.engines == w.engines && w'.objects == w.objects
    ensures |w'.trace| <= |w.trace| + 1
  {
    var instance := engine.instance;
    var image := ResolveImage(instance.spec.runner.image, cfg.runnerImageEnv, cfg.defaultRunnerImage);
    instance := instance.(spec := instance.spec.(runner := instance.spec.runner.(image := image)));
    var check := ResolveAnnotationCheck(instance.spec.annotationCheck, cfg.defaultAnnotationCheck);
    instance := instance.(spec := instance.spec.(annotationCheck := check.value));
    engine' := engine.(instance := instance);
    w' := w;
    if !check.supported {
      return w', engine', Some(AnnotationCheckNotSupported(check.value));
    }
    engine' := GetApplicationDetail(engine');
    if instance.spec.annotationCheck == ChaosAnnotationValue {
      var reply := CheckChaosAnnotation(engine', gate);
      engine' := reply.engine;
      if reply.err.Some? {
        w' := Record(w', GateFailedEvent);
      }
    }
    err := None;
  }

  // ---------------------------------------------------------------------
  // The handlers
  // ---------------------------------------------------------------------

  ghost predicate AfterRunner(wr: World, rerr: Option<Error>, instance: ChaosEngine, fails: Faults,
                              w': World, err: Option<Error>)
  {
    if rerr.Some? then w' == Record(wr, GetResourcesFailedEvent) && err == rerr
    else
      var wc := Issue(wr, GetObject(RunnerKey(instance)));
      if RunnerSucceeded(wr, instance, fails) then CompletionOutcome(wc, instance, fails, w', err)
      else w' == wc && err.None?
  }

  ghost predicate AfterValidation(wv: World, ev: EngineInfo, verr: Option<Error>, cfg: Config, fails: Faults,
                                  w': World, err: Option<Error>)
  {
    if verr.Some? then w' == wv && err == verr
    else if RunnerPreconditionFails(ev) then
      w' == Record(wv, GetResourcesFailedEvent) && err == Some(ExperimentListOrUUIDEmpty)
    else
      exists wr, rerr :: RunnerOutcome(wv, NewRunnerPodForCR(ev, cfg.clientUUID).value, fails, wr, rerr)
                         && AfterRunner(wr, rerr, ev.instance, fails, w', err)
  }

  ghost predicate RunOutcome(w: World, engine: EngineInfo, cfg: Config, gate: GateEnv, fails: Faults,
                             w': World, err: Option<Error>)
  {
    exists wv, ev, verr :: ValidationOutcome(w, engine, cfg, gate, wv, ev, verr)
                           && AfterValidation(wv, ev, verr, cfg, fails, w', err)
  }

  /** reconcileForCreationAndRunning: validates, ensures the runner pod, and marks the
      engine completed once the runner has succeeded. */
  method ReconcileForCreationAndRunning(w: World, engine: EngineInfo, cfg: Config, gate: GateEnv, fails: Faults)
    returns (w': World, err: Option<Error>)
    requires LabelParsable(engine.instance, cfg)
    ensures RunOutcome(w, engine, cfg, gate, fails, w', err)
  {
    var wv, ev, verr := ValidateAnnotatedApplication(w, engine, cfg, gate);
    if verr.Some? {
      return wv, verr;
    }
    var wr, rerr := CheckEngineRunnerPod(wv, ev, cfg.clientUUID, fails);
    if rerr.Some? {
      w' := Record(wr, GetResourcesFailedEvent);
      err := rerr;
      assert AfterValidation(wv, ev, verr, cfg, fails, w', err) by {
        if !RunnerPreconditionFails(ev) {
          assert AfterRunner(wr, rerr, ev.instance, fails, w', err);
        }
      }
      return;
    }
    var wc, completed := CheckRunnerPodCompletedStatus(wr, ev.instance, fails);
    w', err := wc, None;
    if completed {
      w', err := UpdateEngineForComplete(wc, ev.instance, fails);
    }
    assert AfterRunner(wr, rerr, ev.instance, fails, w', err);
  }

  /** Validation changes neither the store nor the engine's identity. */
  lemma ValidationKeepsStore(w: World, engine: EngineInfo, cfg: Config, gate: GateEnv,
                             wv: World, ev: EngineInfo, verr: Option<Error>)
    requires ValidationOutcome(w, engine, cfg, gate, wv, ev, verr)
    ensures wv.engines == w.engines && wv.objects == w.objects
    ensures ev.instance.meta == engine.instance.meta
  {
  }

  /** Ensuring the runner pod changes no engine and no stored object; it may add only
      the runner pod, which is then pending. */
  lemma RunnerOutcomeKeepsStore(w: World, pod: Pod, fails: Faults, wr: World, rerr: Option<Error>)
    requires RunnerOutcome(w, pod, fails, wr, rerr)
    ensures wr.engines == w.engines
    ensures forall k :: k in w.objects ==> k in wr.objects && wr.objects[k] == w.objects[k]
    ensures wr.objects.Keys <= w.objects.Keys + {PodKey(pod)}
    ensures PodKey(pod) in wr.objects && PodKey(pod) !in w.objects ==> wr.objects[PodKey(pod)].phase == PodPending
  {
  }

  /** After the runner is ensured, the engine is written back only when the runner has
      succeeded, and no object changes. */
  lemma AfterRunnerKeepsObjects(wr: World, rerr: Option<Error>, instance: ChaosEngine, fails: Faults,
                                w': World, err: Option<Error>)
    requires AfterRunner(wr, rerr, instance, fails, w', err)
    ensures w'.objects == wr.objects
    ensures w'.engines != wr.engines ==> RunnerSucceeded(wr, instance, fails)
  {
  }

  /** The creation-and-running handler changes the stored engine only to mark it
      completed, and only when the runner pod was already stored and had succeeded; a
      runner it has just created is pending. Stored objects are never changed or
      removed, and the only object it may add is the runner pod. */
  lemma RunFacts(w: World, engine: EngineInfo, cfg: Config, gate: GateEnv, fails: Faults, w': World, err: Option<Error>)
    requires RunOutcome(w, engine, cfg, gate, fails, w', err)
    ensures w'.engines != w.engines ==>
              && RunnerKey(engine.instance) in w.objects
              && w.objects[RunnerKey(engine.instance)].phase == PodSucceeded
    ensures forall k :: k in w.objects ==> k in w'.objects && w'.objects[k] == w.objects[k]
    ensures w'.objects.Keys <= w.objects.Keys + {RunnerKey(engine.instance)}
  {
    var wv, ev, verr :| ValidationOutcome(w, engine, cfg, gate, wv, ev, verr)
                        && AfterValidation(wv, ev, verr, cfg, fails, w', err);
    ValidationKeepsStore(w, engine, cfg, gate, wv, ev, verr);
    AfterValidationFacts(wv, ev, verr, cfg, fails, w', err);
  }

  /** The part of RunFacts after validation. */
  lemma AfterValidationFacts(wv: World, ev: EngineInfo, verr: Option<Error>, cfg: Config, fails: Faults,
                             w': World, err: Option<Error>)
    requires AfterValidation(wv, ev, verr, cfg, fails, w', err)
    ensures w'.engines != wv.engines ==>
              && RunnerKey(ev.instance) in wv.objects
              && wv.objects[RunnerKey(ev.instance)].phase == PodSucceeded
    ensures forall k :: k in wv.objects ==> k in w'.objects && w'.objects[k] == wv.objects[k]
    ensures w'.objects.Keys <= wv.objects.Keys + {RunnerKey(ev.instance)}
  {
    if verr.None? && !RunnerPreconditionFails(ev) {
      var pod := NewRunnerPodForCR(ev, cfg.clientUUID).value;
      RunnerPodIsOwned(pod, ev.instance);
      var wr, rerr :| RunnerOutcome(wv, pod, fails, wr, rerr) && AfterRunner(wr, rerr, ev.instance, fails, w', err);
      RunnerOutcomeKeepsStore(wv, pod, fails, wr, rerr);
      AfterRunnerKeepsObjects(wr, rerr, ev.instance, fails, w', err);
    }
  }

  ghost predicate AfterCleanup(wg: World, gerr: Option<Error>, stopping: ChaosEngine, fails: Faults,
                               w': World, err: Option<Error>)
  {
    if gerr.Some? then w' == Record(wg, DeleteFailedEvent) && err == gerr
    else
      var wu := AfterUpdate(wg, stopping, fails);
      if fails(UpdateEngine(stopping)) then
        w' == Record(wu, UpdateFailedEvent) && err == Some(StoreFailure(UpdateEngine(stopping)))
      else w' == wu && err.None?
  }

  ghost predicate CompleteOutcome(w: World, instance: ChaosEngine, ns: string, fails: Faults, w': World, err: Option<Error>)
  {
    var stopping := instance.(spec := instance.spec.(engineState := StateStop));
    if instance.spec.jobCleanUpPolicy == CleanUpDelete then
      exists wg, gerr :: GracefulOutcome(w, instance, ns, fails, wg, gerr) && AfterCleanup(wg, gerr, stopping, fails, w', err)
    else AfterCleanup(w, None, stopping, fails, w', err)
  }

  /** reconcileForComplete: under the Delete clean-up policy removes the engine's pods
      gracefully, then sets the engine state to stop. */
  method ReconcileForComplete(w: World, instance: ChaosEngine, ns: string, fails: Faults)
    returns (w': World, err: Option<Error>)
    ensures CompleteOutcome(w, instance, ns, fails, w', err)
  {
    var wg, gerr := w, None;
    if instance.spec.jobCleanUpPolicy == CleanUpDelete {
      wg, gerr := GracefullyRemoveChaosPods(w, instance, ns, fails);
    }
    if gerr.Some? {
      w', err := Record(wg, DeleteFailedEvent), gerr;
      return;
    }
    var uerr;
    w', uerr := UpdateEngineState(wg, instance, StateStop, fails);
    if uerr.Some? {
      w' := Record(w', UpdateFailedEvent);
    }
    err := uerr;
  }

  /** Completion clean-up keeps every object under the Retain policy; under the Delete
      policy a successful clean-up leaves no pod of the namespace with the engine's
      ownership labels. A success leaves the engine stored with state stop. */
  lemma CompleteFacts(w: World, instance: ChaosEngine, ns: string, fails: Faults, w': World, err: Option<Error>)
    requires CompleteOutcome(w, instance, ns, fails, w', err)
    ensures instance.spec.jobCleanUpPolicy != CleanUpDelete ==> w'.objects == w.objects
    ensures instance.spec.jobCleanUpPolicy == CleanUpDelete && err.None?
            ==> forall key :: key in w'.objects && key.kind == KindPod && key.namespace == ns
                  ==> !Matches(w'.objects[key].labels, OwnerSelector(instance))
    ensures err.None? && instance.meta.deletionTimestamp.None?
            ==> EngineKey(instance) in w'.engines && w'.engines[EngineKey(instance)].spec.engineState == StateStop
  {
    if instance.spec.jobCleanUpPolicy == CleanUpDelete {
      var stopping := instance.(spec := instance.spec.(engineState := StateStop));
      var wg, gerr :| GracefulOutcome(w, instance, ns, fails, wg, gerr) && AfterCleanup(wg, gerr, stopping, fails, w', err);
      if err.None? {
        GracefulLeavesNoOwnedPod(w, instance, ns, fails, wg);
      }
    }
  }

  ghost predicate DeleteOutcome(w: World, instance: ChaosEngine, ns: string, now: Time, fails: Faults,
                                w': World, err: Option<Error>)
  {
    var wf := ForceRemovedWorld(w, instance, ns, fails);
    var ferr := ForceRemoveError(instance, ns, fails);
    if ferr.Some? then w' == Record(wf, DeleteFailedEvent) && err == ferr
    else
      var stopped := StoppedInstance(instance, now);
      var wn := if instance.meta.finalizers != [] then Record(wf, StoppedEvent) else wf;
      var wu := AfterUpdate(wn, stopped, fails);
      if fails(UpdateEngine(stopped)) then
        w' == Record(wu, UpdateFailedEvent) && err == Some(FinalizerNotRemoved(UpdateEngine(stopped)))
      else w' == wu && err.None?
  }

  /** reconcileForDelete: removes every chaos resource by force, then writes the engine
      back without the finalizer, its experiments aborted and its status stopped. An
      engine being deleted that carried no other finalizer is then released. */
  method ReconcileForDelete(w: World, instance: ChaosEngine, ns: string, now: Time, fails: Faults)
    returns (w': World, err: Option<Error>)
    ensures DeleteOutcome(w, instance, ns, now, fails, w', err)
  {
    var ferr;
    w', ferr := ForceRemoveAllChaosPods(w, instance, ns, fails);
    if ferr.Some? {
      w' := Record(w', DeleteFailedEvent);
      return w', ferr;
    }
    var stopped := instance;
    if stopped.meta.finalizers != [] {
      stopped := stopped.(meta := stopped.meta.(finalizers := RemoveString(stopped.meta.finalizers, Finalizer)));
      w' := Record(w', StoppedEvent);
    }
    var experiments := UpdateExperimentStatusesForStop(stopped.status.experiments, now);
    stopped := stopped.(status := stopped.status.(experiments := experiments));
    stopped := stopped.(status := stopped.status.(engineStatus := StatusStopped));
    assert stopped == StoppedInstance(instance, now);
    var ok;
    w', ok := Update(w', stopped, fails);
    if !ok {
      w' := Record(w', UpdateFailedEvent);
      return w', Some(FinalizerNotRemoved(UpdateEngine(stopped)));
    }
    err := None;
  }

  /** A successful delete handler leaves nothing labelled with the engine's UID in the
      namespace, and the engine, if still stored, without the finalizer, stopped and
      with no experiment in flight; an engine being deleted that carried no other
      finalizer is released by the store. */
  lemma DeleteFacts(w: World, instance: ChaosEngine, ns: string, now: Time, fails: Faults, w': World, err: Option<Error>)
    requires DeleteOutcome(w, instance, ns, now, fails, w', err)
    ensures err.None? ==> forall key :: key in w'.objects && key.namespace == ns
                            ==> !Matches(w'.objects[key].labels, ChaosUIDSelector(instance.meta.uid))
    ensures err.None? && EngineKey(instance) in w'.engines ==>
              var stored := w'.engines[EngineKey(instance)];
              && Finalizer !in stored.meta.finalizers
              && stored.status.engineStatus == StatusStopped
              && (forall i :: 0 <= i < |stored.status.experiments| ==> !InFlight(stored.status.experiments[i].status))
              && stored.status.experiments == StopAll(instance.status.experiments, now)
              && stored == StoppedInstance(instance, now)
    ensures err.None? && instance.meta.deletionTimestamp.Some?
            && (forall f :: f in instance.meta.finalizers ==> f == Finalizer)
            ==> EngineKey(instance) !in w'.engines
  {
    ForceRemovalFacts(w, instance, ns, fails);
    if forall f :: f in instance.meta.finalizers ==> f == Finalizer {
      RemoveStringAll(instance.meta.finalizers, Finalizer);
    }
  }

  /** The delete handler issues no update when forced removal fails; otherwise it
      issues the update of the stopped engine as its last store call, followed only by
      the warning when that update fails. */
  lemma DeleteTraceFacts(w: World, instance: ChaosEngine, ns: string, now: Time, fails: Faults, w': World, err: Option<Error>)
    requires DeleteOutcome(w, instance, ns, now, fails, w', err)
    ensures ForceRemoveError(instance, ns, fails).Some? ==>
              && err == ForceRemoveError(instance, ns, fails) && w'.engines == w.engines
              && |w'.trace| > |w.trace|
              && forall i :: |w.trace| <= i < |w'.trace| ==> !(w'.trace[i].Issued? && w'.trace[i].call.UpdateEngine?)
    ensures ForceRemoveError(instance, ns, fails).None? ==>
              var update := Issued(UpdateEngine(StoppedInstance(instance, now)));
              if fails(UpdateEngine(StoppedInstance(instance, now)))
              then w'.trace[|w'.trace| - 2..] == [update, Recorded(UpdateFailedEvent)]
              else w'.trace[|w'.trace| - 1] == update
  {
  }

  ghost predicate RestartOutcome(w: World, instance: ChaosEngine, ns: string, fails: Faults, w': World, err: Option<Error>)
  {
    var wf := ForceRemovedWorld(w, instance, ns, fails);
    var ferr := ForceRemoveError(instance, ns, fails);
    if ferr.Some? then w' == wf && err == ferr
    else w' == AfterUpdate(Record(wf, RestartEvent), RestartedInstance(instance), fails) && err.None?
  }

  /** reconcileForRestart: removes every chaos resource by force, then announces the
      restart and writes the engine back initialized. A failure of that last update is
      not returned. */
  method ReconcileForRestart(w: World, instance: ChaosEngine, ns: string, fails: Faults)
    returns (w': World, err: Option<Error>)
    ensures RestartOutcome(w, instance, ns, fails, w', err)
  {
    var ferr;
    w', ferr := ForceRemoveAllChaosPods(w, instance, ns, fails);
    if ferr.Some? {
      return w', ferr;
    }
    var uerr;
    w', uerr := UpdateEngineForRestart(w', instance, fails);
    err := None;
  }

  /** The restart handler fails exactly when forced removal fails; the update of the
      restarted engine is issued only after a successful removal, and its own failure
      is not reported. */
  lemma RestartFacts(w: World, instance: ChaosEngine, ns: string, fails: Faults, w': World, err: Option<Error>)
    requires RestartOutcome(w, instance, ns, fails, w', err)
    ensures err.None? <==> forall k :: !fails(DeleteAllOf(k, ns, ChaosUIDSelector(instance.meta.uid)))
    ensures err.None? ==> w'.trace[|w'.trace| - 1] == Issued(UpdateEngine(RestartedInstance(instance)))
    ensures err.None? && !fails(UpdateEngine(RestartedInstance(instance))) && instance.meta.deletionTimestamp.None?
            ==> w'.engines[EngineKey(instance)] == RestartedInstance(instance)
    ensures err.Some? ==> w'.engines == w.engines
  {
    ForceRemovalFacts(w, instance, ns, fails);
  }

  // ---------------------------------------------------------------------
  // Reconcile
  // ---------------------------------------------------------------------

  /** The request reaches the creation-and-running handler: the engine is read, is not
      being deleted, is initialised without error and routed there. */
  ghost predicate ReachesCreation(w: World, request: NamespacedName, fails: Faults)
  {
    && request in w.engines
    && !fails(GetEngine(request))
    && w.engines[request].meta.deletionTimestamp.None?
    && InitError(w.engines[request], fails).None?
    && RouteOf(InitInstance(w.engines[request])) == ToCreationAndRunning
  }

  /** The outcome of the dispatch on an initialised engine. */
  ghost predicate DispatchOutcome(w: World, instance: ChaosEngine, ns: string, cfg: Config, gate: GateEnv,
                                  now: Time, fails: Faults, w': World, err: Option<Error>)
  {
    match RouteOf(instance)
    case ToCreationAndRunning => RunOutcome(w, NewEngineInfo(instance), cfg, gate, fails, w', err)
    case ToComplete => CompleteOutcome(w, instance, ns, fails, w', err)
    case ToForceAbort => DeleteOutcome(w, instance, ns, now, fails, w', err)
    case ToRestart => RestartOutcome(w, instance, ns, fails, w', err)
    case ToNothing => w' == w && err.None?
  }

  /** Reconcile: a missing engine ends the reconciliation quietly and a failed read
      returns the error; an engine being deleted goes to the delete handler as read,
      before any default or finalizer is applied; otherwise the engine is initialised
      and, unless that fails, dispatched on its state and status. */
  method Reconcile(w: World, request: NamespacedName, cfg: Config, gate: GateEnv, now: Time, fails: Faults)
    returns (w': World, err: Option<Error>)
    requires ReachesCreation(w, request, fails) ==> LabelParsable(w.engines[request], cfg)
    ensures fails(GetEngine(request)) ==> w' == Issue(w, GetEngine(request)) && err == Some(StoreFailure(GetEngine(request)))
    ensures !fails(GetEngine(request)) && request !in w.engines ==> w' == Issue(w, GetEngine(request)) && err.None?
    ensures !fails(GetEngine(request)) && request in w.engines ==>
              var instance := w.engines[request];
              var w1 := Issue(w, GetEngine(request));
              if instance.meta.deletionTimestamp.Some? then
                DeleteOutcome(w1, instance, request.namespace, now, fails, w', err)
              else if InitError(instance, fails).Some? then
                w' == InitWorld(w1, instance, fails) && err == InitError(instance, fails)
              else
                DispatchOutcome(InitWorld(w1, instance, fails), InitInstance(instance), request.namespace,
                                cfg, gate, now, fails, w', err)
  {
    var r;
    w', r := ReadEngine(w, request, fails);
    match r
    case NotFound =>
      return w', None;
    case LookupFailed =>
      return w', Some(StoreFailure(GetEngine(request)));
    case Found(instance) =>
      if instance.meta.deletionTimestamp.Some? {
        w', err := ReconcileForDelete(w', instance, request.namespace, now, fails);
        return;
      }
      var ierr;
      var initialised;
      w', initialised, ierr := InitEngine(w', instance, fails);
      if ierr.Some? {
        return w', ierr;
      }
      var ns := request.namespace;
      if initialised.spec.engineState == StateActive && initialised.status.engineStatus == StatusInitialized {
        assert initialised.spec == instance.spec.(engineState := initialised.spec.engineState);
        w', err := ReconcileForCreationAndRunning(w', NewEngineInfo(initialised), cfg, gate, fails);
      } else if initialised.spec.engineState == StateStop && initialised.status.engineStatus == StatusCompleted {
        w', err := ReconcileForComplete(w', initialised, ns, fails);
      } else if initialised.spec.engineState == StateStop && initialised.status.engineStatus != StatusCompleted {
        w', err := ReconcileForDelete(w', initialised, ns, now, fails);
      } else if initialised.spec.engineState == StateActive
                && (initialised.status.engineStatus == StatusCompleted || initialised.status.engineStatus == StatusStopped) {
        w', err := ReconcileForRestart(w', initialised, ns, fails);
      } else {
        err := None;
      }
  }
}
