/** The resource types the chaos-engine controller reads and writes: the
    ChaosEngine custom resource (metadata, spec, status), the controller's
    per-reconciliation view of it (EngineInfo), and the parts of a Kubernetes
    pod that the controller builds for the chaos runner.

    The string-typed enums of the API (engine state, engine status, experiment
    status, cleanup policy) are closed datatypes here; a value outside the
    known ones is kept as an `...Other` case so that no input is excluded.
    The API package that declares their spellings is not part of this model;
    the spellings used are the documented lower-case values. */
module EngineTypes {
  import opened Wrappers

  /** An abstract timestamp (metav1.Time). */
  type Time = nat

  // The string-typed enums of the API. Each named case stands for one spelling;
  // the `...Other` case holds any other string and, by its subset type, never
  // one of the named spellings, so every string has exactly one encoding.

  type OtherEngineState = s: string | s != "" && s != "active" && s != "stop" witness "paused"

  /** spec.engineState: the user's intent. `StateUnset` is the empty string. */
  datatype EngineState = StateUnset | StateActive | StateStop | StateOther(value: OtherEngineState)
  {
    function Spelling(): string
    {
      match this
      case StateUnset => ""
      case StateActive => "active"
      case StateStop => "stop"
      case StateOther(v) => v
    }
  }

  function ParseEngineState(s: string): EngineState
  {
    if s == "" then StateUnset else if s == "active" then StateActive else if s == "stop" then StateStop
    else StateOther(s)
  }

  /** Every spelling has exactly one engine state, and every state one spelling. */
  lemma EngineStateSpelling(s: string, e: EngineState)
    ensures ParseEngineState(s).Spelling() == s
    ensures ParseEngineState(e.Spelling()) == e
  {
  }

  type OtherEngineStatus = s: string | s != "" && s != "initialized" && s != "completed" && s != "stopped"
    witness "running"

  /** status.engineStatus: the controller's record of the lifecycle. */
  datatype EngineStatus =
    | StatusUnset
    | StatusInitialized
    | StatusCompleted
    | StatusStopped
    | StatusOther(value: OtherEngineStatus)
  {
    function Spelling(): string
    {
      match this
      case StatusUnset => ""
      case StatusInitialized => "initialized"
      case StatusCompleted => "completed"
      case StatusStopped => "stopped"
      case StatusOther(v) => v
    }
  }

  function ParseEngineStatus(s: string): EngineStatus
  {
    if s == "" then StatusUnset else if s == "initialized" then StatusInitialized
    else if s == "completed" then StatusCompleted else if s == "stopped" then StatusStopped
    else StatusOther(s)
  }

  lemma EngineStatusSpelling(s: string, e: EngineStatus)
    ensures ParseEngineStatus(s).Spelling() == s
    ensures ParseEngineStatus(e.Spelling()) == e
  {
  }

  type OtherExperimentStatus = s: string | s != "running" && s != "waiting" && s != "aborted" witness ""

  /** The status of one experiment, as reported in status.experiments. */
  datatype ExperimentStatus =
    | ExperimentRunning
    | ExperimentWaiting
    | ExperimentAborted
    | ExperimentOther(value: OtherExperimentStatus)
  {
    function Spelling(): string
    {
      match this
      case ExperimentRunning => "running"
      case ExperimentWaiting => "waiting"
      case ExperimentAborted => "aborted"
      case ExperimentOther(v) => v
    }
  }

  function ParseExperimentStatus(s: string): ExperimentStatus
  {
    if s == "running" then ExperimentRunning else if s == "waiting" then ExperimentWaiting
    else if s == "aborted" then ExperimentAborted else ExperimentOther(s)
  }

  lemma ExperimentStatusSpelling(s: string, e: ExperimentStatus)
    ensures ParseExperimentStatus(s).Spelling() == s
    ensures ParseExperimentStatus(e.Spelling()) == e
  {
  }

  type OtherCleanUpPolicy = s: string | s != "delete" && s != "retain" witness ""

  /** spec.jobCleanUpPolicy. */
  datatype CleanUpPolicy = CleanUpDelete | CleanUpRetain | CleanUpOther(value: OtherCleanUpPolicy)
  {
    function Spelling(): string
    {
      match this
      case CleanUpDelete => "delete"
      case CleanUpRetain => "retain"
      case CleanUpOther(v) => v
    }
  }

  function ParseCleanUpPolicy(s: string): CleanUpPolicy
  {
    if s == "delete" then CleanUpDelete else if s == "retain" then CleanUpRetain else CleanUpOther(s)
  }

  lemma CleanUpPolicySpelling(s: string, e: CleanUpPolicy)
    ensures ParseCleanUpPolicy(s).Spelling() == s
    ensures ParseCleanUpPolicy(e.Spelling()) == e
  {
  }

  /** One entry of spec.experiments. */
  datatype ExperimentList = ExperimentList(name: string)

  /** One entry of status.experiments. */
  datatype ExperimentStatuses = ExperimentStatuses(
    name: string,
    status: ExperimentStatus,
    verdict: string,
    lastUpdateTime: Time)

  /** spec.appinfo: selector label (`key=value`), namespace and kind of the target. */
  datatype ApplicationParams = ApplicationParams(appLabel: string, appNamespace: string, appKind: string)

  /** spec.components.runner. A nil `args` or `command` slice is `None`. */
  datatype RunnerInfo = RunnerInfo(
    runnerType: string,
    image: string,
    imagePullPolicy: string,
    args: Option<seq<string>>,
    command: Option<seq<string>>)

  /** spec.appAnnotations: the annotation stamped on the go-based runner pod. */
  datatype AppAnnotations = AppAnnotations(name: string, value: string)

  datatype ChaosEngineSpec = ChaosEngineSpec(
    engineState: EngineState,
    appInfo: ApplicationParams,
    annotationCheck: string,
    chaosServiceAccount: string,
    auxiliaryAppInfo: string,
    experiments: seq<ExperimentList>,
    jobCleanUpPolicy: CleanUpPolicy,
    runner: RunnerInfo,
    appAnnotations: AppAnnotations)

  datatype ChaosEngineStatus = ChaosEngineStatus(
    engineStatus: EngineStatus,
    experiments: seq<ExperimentStatuses>)

  /** The metadata the controller uses. A nil finalizer list is the empty sequence. */
  datatype ObjectMeta = ObjectMeta(
    name: string,
    namespace: string,
    uid: string,
    finalizers: seq<string>,
    deletionTimestamp: Option<Time>)

  datatype ChaosEngine = ChaosEngine(meta: ObjectMeta, spec: ChaosEngineSpec, status: ChaosEngineStatus)

  /** The application details derived from the engine spec on each reconciliation. */
  datatype ApplicationInfo = ApplicationInfo(
    namespace: string,
    labels: map<string, string>,
    experimentList: seq<ExperimentList>,
    serviceAccountName: string,
    kind: string)

  const EmptyApplicationInfo := ApplicationInfo("", map[], [], "", "")

  /** The controller's working copy of one engine during one reconciliation. */
  datatype EngineInfo = EngineInfo(
    instance: ChaosEngine,
    appInfo: ApplicationInfo,
    appExperiments: seq<string>,
    appUUID: string,
    appName: string)

  /** The working copy made right after the engine is read from the store. */
  function NewEngineInfo(instance: ChaosEngine): (e: EngineInfo)
    ensures e.instance == instance && e.appExperiments == [] && e.appUUID == ""
  {
    EngineInfo(instance, EmptyApplicationInfo, [], "", "")
  }

  /** The parts of a pod and its container that the runner builder sets. */
  datatype EnvVar = EnvVar(name: string, value: string)

  datatype Container = Container(
    name: string,
    image: string,
    imagePullPolicy: string,
    command: seq<string>,
    args: seq<string>,
    env: seq<EnvVar>)

  datatype Pod = Pod(
    name: string,
    namespace: string,
    labels: map<string, string>,
    annotations: map<string, string>,
    serviceAccountName: string,
    restartPolicy: string,
    container: Container)
}
