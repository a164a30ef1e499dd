# ChaosEngine controller of the chaos operator, in Dafny

This project models the reconciler of the Litmus chaos operator. The reconciler
drives one ChaosEngine custom resource through its lifecycle:

- it reads the engine named by a request;
- an engine being deleted goes straight to the delete handler, before anything is
  initialised;
- otherwise it applies the defaults and the finalizer (`initEngine`);
- it then dispatches on the pair (spec.engineState, status.engineStatus) to one of
  four handlers, or does nothing.

The four handlers are:

- **creation and running**: resolves the runner image and the annotation check;
  derives the application details; runs the annotation gate, whose failure never
  blocks; builds the chaos-runner pod and creates it when it is missing; marks the
  engine completed once the runner pod has succeeded;
- **completion**: under the Delete clean-up policy, deletes the pods owned by the
  engine one by one and stops at the first failure; then sets the engine state to
  stop;
- **forced abort or deletion**: issues the delete-all of deployments, daemonsets,
  jobs and pods labelled with the engine's UID, all four even after a failure;
  then removes the finalizer, aborts the experiments in flight and writes the
  engine back as stopped;
- **restart**: forced removal as above; then resets the status to initialized
  with no experiment statuses.

The annotation gate of `pkg/controller/resource/resource.go` is modelled too:

- the annotation key it reads;
- the case-insensitive routing of the application kind to a per-kind checker;
- the wrapping of a checker's error;
- the counter of chaos-enabled applications.

## How the model is built

- **Values.** Every resource and working copy is a datatype: `ChaosEngine`,
  `EngineInfo`, `ApplicationInfo`, `Pod` (module `EngineTypes`). The string enums
  of the API are closed datatypes. Each keeps an `...Other(value)` case, so no
  input is excluded. The value of an `...Other` case is never one of the named
  spellings, so each string has exactly one encoding. The API package that
  declares the constants (`EngineStateActive` and the others) is not part of
  this model. The model relies only on the named constants being distinct
  strings; the spellings it gives them (`active`, `stop`, `initialized`,
  `completed`, `stopped`, `running`, `waiting`, `aborted`, `delete`, `retain`)
  are used only to state that each string has one encoding.
- **The store and the event recorder** are one value, `Store.World`:
  - the engines, keyed by namespace and name;
  - the other objects, keyed by kind, namespace and name, with their labels and
    a pod phase;
  - the trace of every store call issued and every event recorded, in order.

  Each store call of the source is a method of module `Store` that takes a world
  and returns the next one. Whether a call fails is decided by a failure oracle
  `fails: Call -> bool`. A failed call changes nothing but the trace.
- **The engine variable.** In the source, one package-level variable holds the
  engine for the duration of a reconciliation and is mutated in place. Here the
  engine is passed from step to step, and each step returns the engine it wrote.
  The handlers are imperative methods that thread the world.
- **Outcomes.** For each handler, a ghost predicate (`RunOutcome`,
  `CompleteOutcome`, `DeleteOutcome`, `RestartOutcome`) describes its outcome:
  the world it leaves and the error it returns, for every failure pattern.
  `Reconcile` is proved to end in the outcome of the handler it dispatches to.
  Separate lemmas (`RunFacts`, `CompleteFacts`, `DeleteFacts`, `DeleteTraceFacts`,
  `RestartFacts`) derive what the handlers promise from those outcomes.
- **Pure decisions.** These are functions with their properties proved as lemmas:
  - the defaults, the routing and the transitions (module `EngineLifecycle`);
  - the application details, the image and annotation-check decisions, the runner
    environment and the runner pod (module `RunnerSpec`).
- **Environment and defaults.** The operator's environment (CHAOS_RUNNER_IMAGE,
  CUSTOM_ANNOTATION), the built-in defaults, the analytics client UID and the
  current time are parameters (`ChaosEngineController.Config`,
  `Resource.GateEnv`, `now`).

Behaviour of the source kept as written:

- **The gate never blocks.** A failure of the annotation gate is only recorded as
  an event. Validation still succeeds.
- **An `=` is needed in the label.** The label split indexes the second piece
  without a check, so a label without `=` makes the source panic. The model
  requires `=` wherever the source reaches the split:
  - `InitializeApplicationInfo` and `GetApplicationDetail` require it;
  - `Reconcile` requires it exactly when the request reaches the creation
    handler and the annotation check is supported (`ReachesCreation`).
- **The restart update error is dropped.** The restart handler returns no error
  when its final update fails; `RestartOutcome` states this.
- **The runner read error is not reported.** `checkRunnerPodCompletedStatus`
  treats a failed read of the runner pod as "not completed".
- **Defaults live in memory.** The defaulted image and annotation check are
  written only into the in-memory engine. They reach the store with the next
  update the handler issues.

## Model

| member | source | states |
|---|---|---|
| `Resource.GetAnnotationKey` | pkg/controller/resource/resource.go:40-48 | the key is the CUSTOM_ANNOTATION value when non-empty, otherwise "litmuschaos.io/chaos"; it is never empty |
| `Resource.CountTotalChaosEnabled` | pkg/controller/resource/resource.go:82-87 | the count goes up by one exactly when the value is "true", and is unchanged otherwise |
| `Resource.CountChaosCandidatesCounts` | pkg/controller/resource/resource.go:82-87 | applied over a list of values, the counter adds the number of "true" values |
| `Resource.ToLower` | pkg/controller/resource/resource.go:58 | lower-casing keeps the length and lower-cases each character |
| `Resource.NamesKindUnique` | pkg/controller/resource/resource.go:58-73 | no spelling is accepted for two resource types, so the switch cases do not overlap |
| `Resource.ParseAppKindAccepts` | pkg/controller/resource/resource.go:58-73 | a kind is routed to a resource type's checker iff, lower-cased, it is that type's name or plural |
| `Resource.ParseAppKindRefuses` | pkg/controller/resource/resource.go:74-75 | a kind is unsupported iff, lower-cased, it names no resource type |
| `Resource.ParseAppKindIgnoresCase` | pkg/controller/resource/resource.go:58 | two kinds equal up to letter case are routed alike |
| `Resource.CheckChaosAnnotation` | pkg/controller/resource/resource.go:51-79 | a clientset failure returns before any routing; an unsupported kind is refused, naming it; otherwise the kind's checker runs, its reported app name and UID are recorded, and its error is wrapped with the resource type's name (no error iff the checker reports none) |
| `EngineTypes.EngineStateSpelling` | pkg/controller/chaosengine/chaosengine_controller.go:556-559 | every spec.engineState string has exactly one encoding, and each encoding spells back to its string |
| `EngineTypes.EngineStatusSpelling` | pkg/controller/chaosengine/chaosengine_controller.go:559-562 | every status.engineStatus string has exactly one encoding, and each encoding spells back to its string |
| `EngineTypes.ExperimentStatusSpelling` | pkg/controller/chaosengine/chaosengine_controller.go:603-604 | every experiment status string has exactly one encoding, and each encoding spells back to its string |
| `EngineTypes.CleanUpPolicySpelling` | pkg/controller/chaosengine/chaosengine_controller.go:499 | every clean-up policy string has exactly one encoding, and each encoding spells back to its string |
| `EngineTypes.NewEngineInfo` | pkg/controller/chaosengine/chaosengine_controller.go:331-333 | the working copy holds the engine as read, with no experiments and no application UID |
| `Store.ReadEngine` | pkg/controller/chaosengine/chaosengine_controller.go:324-335 | a read of the engine returns it, reports it missing, or fails, and changes only the trace |
| `Store.Get` | pkg/controller/chaosengine/chaosengine_controller.go:306 | a read of an object returns it, reports it missing, or fails, and changes only the trace |
| `Store.Create` | pkg/controller/chaosengine/chaosengine_controller.go:309 | a successful create stores the pod as a pending pod with its labels; a failed one stores nothing |
| `Store.Update` | pkg/controller/chaosengine/chaosengine_controller.go:566 | a successful update persists the engine (and releases an engine being deleted once it carries no finalizer); a failed one persists nothing |
| `Store.List` | pkg/controller/chaosengine/chaosengine_controller.go:510-516 | the list returns exactly the pods of the namespace that the selector matches, unless it fails |
| `Store.Delete` | pkg/controller/chaosengine/chaosengine_controller.go:518 | a successful delete removes exactly that object |
| `Store.DeleteAll` | pkg/controller/chaosengine/chaosengine_controller.go:452-458 | a successful delete-all removes exactly the objects of that kind in the namespace that the selector matches |
| `Store.PurgeTwice` | pkg/controller/chaosengine/chaosengine_controller.go:455-473 | deleting kind after kind removes the same objects as deleting all those kinds at once |
| `RunnerSpec.Split` | pkg/controller/chaosengine/chaosengine_controller.go:292 | a split yields at least one piece, two or more exactly when the separator occurs, and the first piece holds no separator |
| `RunnerSpec.SplitJoin` | pkg/controller/chaosengine/chaosengine_controller.go:190 | splitting a join of parts that do not contain the separator gives the parts back |
| `RunnerSpec.LabelKeyValueRoundTrip` | pkg/controller/chaosengine/chaosengine_controller.go:292-296 | a label written `key=value` yields that key and that value |
| `RunnerSpec.InitializeApplicationInfo` | pkg/controller/chaosengine/chaosengine_controller.go:288-302 | the application details carry the label's key and value as the only label, and the spec's namespace, kind, experiments and service account |
| `RunnerSpec.ExperimentNames` | pkg/controller/chaosengine/chaosengine_controller.go:346-350 | the names of the experiments, one per experiment, in order |
| `RunnerSpec.GetApplicationDetail` | pkg/controller/chaosengine/chaosengine_controller.go:338-360 | the loop collects the experiment names in order and records the application details; nothing else of the working copy changes |
| `RunnerSpec.ResolveImage` | pkg/controller/chaosengine/chaosengine_controller.go:401-410 | the image is the spec's, else the operator's environment value, else the built-in default |
| `RunnerSpec.ResolveImageIdempotent` | pkg/controller/chaosengine/chaosengine_controller.go:401-410 | resolving a resolved image changes nothing |
| `RunnerSpec.ResolveAnnotationCheck` | pkg/controller/chaosengine/chaosengine_controller.go:413-423 | an empty flag takes the default; the flag is supported iff it is then "true" or "false" |
| `RunnerSpec.ResolveAnnotationCheckRefuses` | pkg/controller/chaosengine/chaosengine_controller.go:419-421 | a non-empty flag other than "true"/"false" is refused whatever the default, and kept as written |
| `RunnerSpec.GetChaosRunnerENV` | pkg/controller/chaosengine/chaosengine_controller.go:174-209 | the runner gets the eight variables CHAOSENGINE … CHAOS_NAMESPACE, in that order |
| `RunnerSpec.EnvValueFound` | pkg/controller/chaosengine/chaosengine_controller.go:174-209 | a variable reads back a value iff some entry declares it, and then the value of such an entry |
| `RunnerSpec.RunnerEnvNamesDistinct` | pkg/controller/chaosengine/chaosengine_controller.go:174-209 | no variable of the runner is declared twice |
| `RunnerSpec.RunnerEnvValues` | pkg/controller/chaosengine/chaosengine_controller.go:174-209 | each variable reads back its source: the engine's name and namespace, the application label and namespace, the comma-joined experiment names, the chaos service account, the auxiliary application info and the client UUID |
| `RunnerSpec.RunnerEnvCarriesExperiments` | pkg/controller/chaosengine/chaosengine_controller.go:189-191 | EXPERIMENT_LIST, split on commas, gives back the experiment names when none contains a comma |
| `RunnerSpec.RunnerPodIsOwned` | pkg/controller/chaosengine/chaosengine_controller.go:244-252 | the runner pod is stored under `<name>-runner` and is matched by both the ownership selector and the chaosUID selector |
| `RunnerSpec.NewGoRunnerPodForCR` | pkg/controller/chaosengine/chaosengine_controller.go:224-253 | the go runner has the runner identity, the spec's image and pull policy (default IfNotPresent), and the application annotation |
| `RunnerSpec.NewAnsibleRunnerPodForCR` | pkg/controller/chaosengine/chaosengine_controller.go:256-285 | the ansible runner has the runner identity and no annotation |
| `RunnerSpec.NewRunnerPodForCR` | pkg/controller/chaosengine/chaosengine_controller.go:212-221 | building is refused iff the annotation check is "true" and the experiment list or application UID is empty; otherwise the pod has the runner identity and environment, and the spec's command and arguments when given, else the playbook ones for the ansible type and none for the go type |
| `EngineLifecycle.RemoveString` | pkg/controller/chaosengine/chaosengine_controller.go:434-435 | the finalizers without the controller's finalizer, the others kept |
| `EngineLifecycle.RemoveStringAll` | pkg/controller/chaosengine/chaosengine_controller.go:434-435 | removing the only finalizer there is leaves none |
| `EngineLifecycle.Defaulted` | pkg/controller/chaosengine/chaosengine_controller.go:556-561 | an empty state becomes active, and any other state is kept; an active engine with empty status becomes initialized, and any other status is kept; nothing else changes |
| `EngineLifecycle.InitInstance` | pkg/controller/chaosengine/chaosengine_controller.go:555-572 | an empty state becomes active and an active engine with empty status becomes initialized (the defaults); the finalizer is added exactly when the defaulted engine is initialized and has no finalizer; the rest of the metadata is kept |
| `EngineLifecycle.InitInstanceIdempotent` | pkg/controller/chaosengine/chaosengine_controller.go:555-572 | initialising twice is initialising once, and the second time adds no finalizer |
| `EngineLifecycle.RouteOf` | pkg/controller/chaosengine/chaosengine_controller.go:150-170 | each handler is chosen iff its guard holds; the guards are mutually exclusive |
| `EngineLifecycle.InitLeavesOnlyUnknownIdle` | pkg/controller/chaosengine/chaosengine_controller.go:145-170 | after the defaults, only an unknown state, or an active engine with an unknown status, reaches no handler |
| `EngineLifecycle.FreshEngineStartsRunning` | pkg/controller/chaosengine/chaosengine_controller.go:555-572 | a new engine gets the finalizer and goes to creation and running |
| `EngineLifecycle.StopOne` | pkg/controller/chaosengine/chaosengine_controller.go:603-607 | a running or waiting experiment becomes aborted, verdict "Stopped", stamped now; any other is untouched |
| `EngineLifecycle.StopAll` | pkg/controller/chaosengine/chaosengine_controller.go:601-609 | each experiment is stopped in place; the length is unchanged |
| `EngineLifecycle.UpdateExperimentStatusesForStop` | pkg/controller/chaosengine/chaosengine_controller.go:601-609 | the loop yields the stopped list: no experiment is left in flight, names and order are kept |
| `EngineLifecycle.StopAllIdempotent` | pkg/controller/chaosengine/chaosengine_controller.go:601-609 | a second stop at any later time changes nothing |
| `EngineLifecycle.StoppedInstance` | pkg/controller/chaosengine/chaosengine_controller.go:435-442 | the stopped engine has no controller finalizer and keeps the others, has status stopped and its experiments stopped as `StopAll` does (none in flight, length and order kept), the same spec and the rest of the metadata |
| `EngineLifecycle.StoppedInstanceIdempotent` | pkg/controller/chaosengine/chaosengine_controller.go:435-442 | stopping a stopped engine again writes the same engine |
| `EngineLifecycle.RestartedInstance` | pkg/controller/chaosengine/chaosengine_controller.go:659-662 | the restarted engine is initialized with no experiment statuses, spec and metadata unchanged |
| `EngineLifecycle.CompletedInstance` | pkg/controller/chaosengine/chaosengine_controller.go:648-650 | the completed engine has status completed and state stop; the rest of the spec, the metadata and the experiment statuses are kept |
| `EngineLifecycle.CompletedIsCleanedUp` | pkg/controller/chaosengine/chaosengine_controller.go:154-156 | on the next reconciliation a completed engine is left alone by the defaults and goes to clean-up |
| `EngineLifecycle.RestartedRunsAgain` | pkg/controller/chaosengine/chaosengine_controller.go:150-152 | a restarted active engine goes to creation and running next |
| `EngineLifecycle.AbortIsStable` | pkg/controller/chaosengine/chaosengine_controller.go:159-161 | an aborted engine is routed to the abort handler again, which writes the same engine |
| `EngineLifecycle.ReactivatedRestarts` | pkg/controller/chaosengine/chaosengine_controller.go:164-166 | a stopped or completed engine set active again is restarted |
| `ChaosEngineController.InitEngine` | pkg/controller/chaosengine/chaosengine_controller.go:555-572 | applies the defaults and the finalizer; records the event and updates the engine only when the finalizer is due; fails iff that update fails |
| `ChaosEngineController.InitEngineTwice` | pkg/controller/chaosengine/chaosengine_controller.go:562-570 | on an initialised engine a second initEngine issues no update, records nothing and cannot fail |
| `ChaosEngineController.FailedKinds` | pkg/controller/chaosengine/chaosengine_controller.go:455-473 | the failed kinds are listed in the fixed order deployments, daemonsets, jobs, pods |
| `ChaosEngineController.FailedKindsMembers` | pkg/controller/chaosengine/chaosengine_controller.go:455-477 | a kind is reported iff its delete-all fails |
| `ChaosEngineController.RemovedKindsMembers` | pkg/controller/chaosengine/chaosengine_controller.go:455-473 | a kind is purged iff its delete-all succeeds |
| `ChaosEngineController.DeleteKind` | pkg/controller/chaosengine/chaosengine_controller.go:455-458 | one delete-all call: the kind joins the removed set on success, the failed list on failure |
| `ChaosEngineController.ForceRemoveAllChaosPods` | pkg/controller/chaosengine/chaosengine_controller.go:451-480 | all four delete-all calls are issued in order, even after a failure; one event names every failed kind; the error is returned iff some kind failed |
| `ChaosEngineController.ForceRemovalFacts` | pkg/controller/chaosengine/chaosengine_controller.go:451-480 | forced removal fails iff a delete-all fails; on success nothing in the namespace carries the engine's UID; objects of a failed kind and objects the selector misses are kept |
| `ChaosEngineController.DeleteListed` | pkg/controller/chaosengine/chaosengine_controller.go:517-522 | the loop issues one delete per listed pod, each pod at most once and no other pod; every delete before the last succeeded; it stops at the first failed delete and returns that error, and otherwise has deleted every listed pod; exactly the pods whose delete succeeded are removed |
| `ChaosEngineController.GracefullyRemoveChaosPods` | pkg/controller/chaosengine/chaosengine_controller.go:508-523 | a list failure is returned with no delete; otherwise the list call is followed by the deletes of the loop above, and nothing else (`GracefulOutcome`) |
| `ChaosEngineController.RunContinues` | pkg/controller/chaosengine/chaosengine_controller.go:517-521 | a successful delete moves a pending pod into the run and keeps every pod deleted once |
| `ChaosEngineController.RunStops` | pkg/controller/chaosengine/chaosengine_controller.go:518-520 | a failed delete ends the run, reporting the only failure met; the pods removed are those deleted before it |
| `ChaosEngineController.RunFinishes` | pkg/controller/chaosengine/chaosengine_controller.go:517-522 | once no pod is pending, every listed pod has been deleted, with no failure |
| `ChaosEngineController.GracefulFacts` | pkg/controller/chaosengine/chaosengine_controller.go:508-523 | after a successful list: no error iff no listed pod's delete fails, and then none of the listed pods remains; only listed pods are removed, kept objects are unchanged; an error is a listed pod's failed delete, the last store call |
| `ChaosEngineController.GracefulCallCount` | pkg/controller/chaosengine/chaosengine_controller.go:513-522 | after the list, at most one delete per listed pod, exactly one each on success, and at least one on failure |
| `ChaosEngineController.DeleteStep` | pkg/controller/chaosengine/chaosengine_controller.go:518 | a successful delete extends the run of deletions by that pod; a failed one adds only its call |
| `ChaosEngineController.DistinctCard` | pkg/controller/chaosengine/chaosengine_controller.go:517 | a run that deletes no pod twice issues as many deletes as pods it names |
| `ChaosEngineController.GracefulLeavesNoOwnedPod` | pkg/controller/chaosengine/chaosengine_controller.go:508-523 | after a successful graceful removal no pod of the namespace carries the ownership labels |
| `ChaosEngineController.EngineRunnerPod` | pkg/controller/chaosengine/chaosengine_controller.go:305-321 | create is issued iff the read reports not found; a read error is returned without a create; an existing pod is not changed |
| `ChaosEngineController.CheckEngineRunnerPod` | pkg/controller/chaosengine/chaosengine_controller.go:363-396 | refuses without a store call when the runner precondition fails; otherwise ensures the runner pod of the spec's type; on success the runner is stored; no other object changes |
| `ChaosEngineController.CheckRunnerPodCompletedStatus` | pkg/controller/chaosengine/chaosengine_controller.go:490-494 | completed iff the runner pod is read and has succeeded; a failed read is "not completed" |
| `ChaosEngineController.UpdateEngineForComplete` | pkg/controller/chaosengine/chaosengine_controller.go:647-657 | a completed engine is left alone; otherwise it is stored completed and stopped, and the event is recorded only after the update succeeded |
| `ChaosEngineController.UpdateEngineState` | pkg/controller/chaosengine/chaosengine_controller.go:483-487 | updates the engine with the new state; fails iff that update fails |
| `ChaosEngineController.UpdateEngineForRestart` | pkg/controller/chaosengine/chaosengine_controller.go:659-667 | records the restart event, then updates the engine as restarted; fails iff the update fails |
| `ChaosEngineController.PreparedInstance` | pkg/controller/chaosengine/chaosengine_controller.go:401-423 | the engine with the resolved image and the defaulted annotation check; the rest of the runner (type, pull policy, command, arguments) and of the engine is kept |
| `ChaosEngineController.ValidateAnnotatedApplication` | pkg/controller/chaosengine/chaosengine_controller.go:617-645 | fails iff the annotation check is unsupported; otherwise records the application details and, when the check is "true", runs the gate, whose failure only records an event; the store is untouched |
| `ChaosEngineController.ValidationKeepsStore` | pkg/controller/chaosengine/chaosengine_controller.go:617-645 | validation changes no engine, no object, and not the engine's metadata |
| `ChaosEngineController.RunnerOutcomeKeepsStore` | pkg/controller/chaosengine/chaosengine_controller.go:305-321 | ensuring the runner changes no engine and no stored object, and may add only the runner, as a pending pod |
| `ChaosEngineController.AfterRunnerKeepsObjects` | pkg/controller/chaosengine/chaosengine_controller.go:589-595 | after the runner is ensured, the engine is written only when the runner has succeeded |
| `ChaosEngineController.AfterValidationFacts` | pkg/controller/chaosengine/chaosengine_controller.go:582-595 | after validation, no stored object changes, and the engine changes only when the runner pod was already stored and had succeeded |
| `ChaosEngineController.ReconcileForCreationAndRunning` | pkg/controller/chaosengine/chaosengine_controller.go:575-598 | validation, then the runner, then completion, each failure reported as the source does (`RunOutcome`) |
| `ChaosEngineController.RunFacts` | pkg/controller/chaosengine/chaosengine_controller.go:575-598 | the creation handler marks the engine completed only when the runner pod was already stored and had succeeded; it never changes or removes an object and may add only the runner |
| `ChaosEngineController.ReconcileForComplete` | pkg/controller/chaosengine/chaosengine_controller.go:526-539 | graceful removal under the Delete policy, then the state is set to stop; each failure is recorded and returned (`CompleteOutcome`) |
| `ChaosEngineController.CompleteFacts` | pkg/controller/chaosengine/chaosengine_controller.go:497-539 | under Retain nothing is deleted; under Delete a success leaves no owned pod; a success stores the engine with state stop |
| `ChaosEngineController.ReconcileForDelete` | pkg/controller/chaosengine/chaosengine_controller.go:426-448 | forced removal, then the stopped engine is written back; either failure is recorded and returned (`DeleteOutcome`) |
| `ChaosEngineController.DeleteFacts` | pkg/controller/chaosengine/chaosengine_controller.go:426-448 | a success leaves nothing with the engine's UID in the namespace and the engine stored as the stopped engine: without the finalizer, stopped, its experiments stopped as `StopAll` does; an engine being deleted that carried only this finalizer is released |
| `ChaosEngineController.DeleteTraceFacts` | pkg/controller/chaosengine/chaosengine_controller.go:427-446 | no update is issued after a failed forced removal; otherwise the stopped engine's update is the last store call |
| `ChaosEngineController.ReconcileForRestart` | pkg/controller/chaosengine/chaosengine_controller.go:542-552 | forced removal, then the restart update, whose failure is not returned (`RestartOutcome`) |
| `ChaosEngineController.RestartFacts` | pkg/controller/chaosengine/chaosengine_controller.go:542-552 | the restart fails iff forced removal fails, and then no engine changes; otherwise the restarted engine's update is the last call and, if it succeeds, the engine is stored restarted |
| `ChaosEngineController.Reconcile` | pkg/controller/chaosengine/chaosengine_controller.go:126-171 | a failed read is returned and a missing engine ends quietly; an engine being deleted goes to the delete handler before any initialisation; an init failure is returned; otherwise the outcome is that of the handler its state and status select, or nothing changes |

## Left out

- `ChaosEngineController.CheckEngineRunnerPod` builds the pod through `RunnerSpec.NewRunnerPodForCR`. The source's checkEngineRunnerPod (lines 363-396) does not call newRunnerPodForCR: it repeats the precondition and calls the two builders itself. The two are the same here only because building a pod cannot fail in the model.

- The controller-runtime wiring (`Add`, `newReconciler`, `add`, `watchChaosResources`, lines 81-119) and the request logger: framework glue and logging.
- Requeue results: every handler returns an empty `reconcile.Result`, so only the error is modelled.
- Concurrent reconciliations, resource versions and update conflicts: nothing in the source synchronises them, so each store call succeeds or fails according to `fails` alone.
- The Kubernetes client and `k8s.CreateClientSet`: the store is the `World` value, and clientset creation is the `clientSetError` input of `Resource.GateEnv`.
- The per-kind annotation checkers (`CheckDeploymentAnnotation` and the others) are not part of this model. They are the `checker` function of `Resource.GateEnv`. The working copy they return is assumed to differ from the one passed only in the application name and UID.
- The packages chaosTypes, utils and analytics are not part of this model:
  - the default runner image, the default annotation check and the client UID are fields of `ChaosEngineController.Config`;
  - `utils.RemoveString` is modelled as `EngineLifecycle.RemoveString` (every occurrence removed, order kept).
- The package-level `AppLabelKey`/`AppLabelValue` written by `initializeApplicationInfo` are not kept as global state. The model uses the label's key and value directly; the source reads the globals back at line 296 to build `appInfo.Label`, which gives the same map. Their other use is the logging at lines 352-353.
- The container and pod builder libraries: a pod is the plain `Pod` record, and building it cannot fail. The builder error branches of `checkEngineRunnerPod` (lines 369-371, 375-377) are therefore absent.
- `initializeApplicationInfo`'s nil-engine error and the resulting error branch of `getApplicationDetail` (lines 289-291, 341-343, 630-633): the engine is never nil.
- Nil versus empty slices: a nil finalizer list, or nil experiment list, is the empty sequence. A finalizer list that is non-nil and empty, which the source treats as present (lines 434, 563), is not distinguished.
- Event timestamps and `metav1.Now()`: the time is the parameter `now`. `EngineLifecycle.StopAll` stamps every aborted experiment with the same `now`, where the source reads the clock once per experiment (line 606).
- The status subresource: an update writes the whole engine.
- `Resource.ToLower`: lower-cases ASCII letters only, not the Unicode case mapping of `strings.ToLower`.
- `ChaosEngineController.GracefullyRemoveChaosPods`: the pods are deleted in an order the model leaves open; the source deletes them in list order. The model does state that each listed pod is deleted at most once, that every delete before the failing one succeeded, and that the run stops there. It does not say which listed pod comes first, so not which listed pod's failure is reported when several would fail.
- Failures are decided per call by `fails` and are not transient: a call repeated with the same arguments gets the same answer. For example, the second read of the runner pod in `checkRunnerPodCompletedStatus` cannot fail once the first one succeeded.
- The message texts of the annotation gate's errors: `Resource.GateError` keeps what each error names, not its formatted text.
- `ChaosEngineController.Reconcile`: requires that the application label contain `=` on the path that reaches the label split. The source panics there instead.
