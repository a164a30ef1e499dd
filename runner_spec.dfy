/** The pure derivations the controller makes from an engine's spec before it
    touches the store: the application details (label split, experiment
    names), the runner image and annotation-check decisions, the runner's
    environment, and the runner pod itself, in its go-based and
    ansible-based variants.

    The pod and container builders of the source are foreign libraries; here
    a pod is the plain `Pod` record, and building it never fails. */
module RunnerSpec {
  import opened Wrappers
  import opened EngineTypes
  import opened Store

  // ---------------------------------------------------------------------
  // Joining and splitting strings (strings.Join, strings.Split)
  // ---------------------------------------------------------------------

  function Join(parts: seq<string>, sep: string): string
  {
    if |parts| == 0 then ""
    else if |parts| == 1 then parts[0]
    else parts[0] + sep + Join(parts[1..], sep)
  }

  /** The position of the first `c` in `s`. */
  function IndexOf(s: string, c: char): (i: nat)
    requires c in s
    ensures i < |s| && s[i] == c && c !in s[..i]
  {
    if s[0] == c then 0
    else
      var j := IndexOf(s[1..], c);
      assert s[..j + 1] == [s[0]] + s[1..][..j];
      j + 1
  }

  /** The pieces of `s` between occurrences of `sep`; there is always at least one. */
  function Split(s: string, sep: char): (parts: seq<string>)
    ensures |parts| >= 1
    ensures |parts| >= 2 <==> sep in s
    ensures sep !in parts[0]
    decreases |s|
  {
    if sep !in s then [s]
    else
      var i := IndexOf(s, sep);
      [s[..i]] + Split(s[i + 1..], sep)
  }

  lemma IndexOfAfter(a: string, c: char, b: string)
    requires c !in a
    ensures c in a + [c] + b && IndexOf(a + [c] + b, c) == |a|
  {
    var s := a + [c] + b;
    assert s[|a|] == c;
    assert s[..|a|] == a;
  }

  /** Splitting a join on a separator that no part contains gives the parts back. */
  lemma {:induction false} SplitJoin(parts: seq<string>, sep: char)
    requires |parts| >= 1
    requires forall p :: p in parts ==> sep !in p
    ensures Split(Join(parts, [sep]), sep) == parts
  {
    if |parts| > 1 {
      var head, tail := parts[0], Join(parts[1..], [sep]);
      var s := head + [sep] + tail;
      assert Join(parts, [sep]) == s;
      IndexOfAfter(head, sep, tail);
      assert s[..|head|] == head;
      assert s[|head| + 1..] == tail;
      SplitJoin(parts[1..], sep);
      assert parts == [head] + parts[1..];
    }
  }

  // ---------------------------------------------------------------------
  // Application details
  // ---------------------------------------------------------------------

  /** The application label's key and value: the first two pieces of the label split on `=`. */
  function LabelKeyValue(appLabel: string): (string, string)
    requires '=' in appLabel
  {
    var parts := Split(appLabel, '=');
    (parts[0], parts[1])
  }

  /** A label written `key=value` gives back its key and value. */
  lemma LabelKeyValueRoundTrip(key: string, value: string)
    requires '=' !in key && '=' !in value
    ensures '=' in key + "=" + value
    ensures LabelKeyValue(key + "=" + value) == (key, value)
  {
    assert Join([key, value], "=") == key + "=" + value by {
      assert Join([value], "=") == value;
    }
    SplitJoin([key, value], '=');
  }

  /** initializeApplicationInfo: the application details copied from the spec. The
      label must contain `=`: the source indexes the second piece of the split. */
  function InitializeApplicationInfo(instance: ChaosEngine): (info: ApplicationInfo)
    requires '=' in instance.spec.appInfo.appLabel
    ensures var (key, value) := LabelKeyValue(instance.spec.appInfo.appLabel);
            info.labels == map[key := value] && '=' !in key
    ensures info.namespace == instance.spec.appInfo.appNamespace
    ensures info.kind == instance.spec.appInfo.appKind
    ensures info.experimentList == instance.spec.experiments
    ensures info.serviceAccountName == instance.spec.chaosServiceAccount
  {
    var (key, value) := LabelKeyValue(instance.spec.appInfo.appLabel);
    ApplicationInfo(
      instance.spec.appInfo.appNamespace,
      map[key := value],
      instance.spec.experiments,
      instance.spec.chaosServiceAccount,
      instance.spec.appInfo.appKind)
  }

  /** The names of a list of experiments, in order. */
  function ExperimentNames(experiments: seq<ExperimentList>): (names: seq<string>)
    ensures |names| == |experiments|
    ensures forall i :: 0 <= i < |names| ==> names[i] == experiments[i].name
  {
    seq(|experiments|, i requires 0 <= i < |experiments| => experiments[i].name)
  }

  /** The working copy once the application details are recorded. */
  function WithAppDetail(engine: EngineInfo): EngineInfo
    requires '=' in engine.instance.spec.appInfo.appLabel
  {
    engine.(appInfo := InitializeApplicationInfo(engine.instance),
            appExperiments := ExperimentNames(engine.instance.spec.experiments))
  }

  /** getApplicationDetail: records the application details and collects the names of
      the spec's experiments, in order; nothing else of the working copy changes. */
  method GetApplicationDetail(engine: EngineInfo) returns (engine': EngineInfo)
    requires '=' in engine.instance.spec.appInfo.appLabel
    ensures engine' == WithAppDetail(engine)
    ensures engine'.instance == engine.instance && engine'.appUUID == engine.appUUID && engine'.appName == engine.appName
    ensures |engine'.appExperiments| == |engine.instance.spec.experiments|
    ensures forall i :: 0 <= i < |engine'.appExperiments| ==> engine'.appExperiments[i] == engine.instance.spec.experiments[i].name
  {
    var appInfo := InitializeApplicationInfo(engine.instance);
    var appExperiments: seq<string> := [];
    for i := 0 to |appInfo.experimentList|
      invariant |appExperiments| == i
      invariant forall j :: 0 <= j < i ==> appExperiments[j] == appInfo.experimentList[j].name
    {
      appExperiments := appExperiments + [appInfo.experimentList[i].name];
    }
    engine' := engine.(appInfo := appInfo, appExperiments := appExperiments);
  }

  // ---------------------------------------------------------------------
  // Image and annotation-check decisions
  // ---------------------------------------------------------------------

  /** setChaosResourceImage: the runner image is the spec's, else the operator's
      CHAOS_RUNNER_IMAGE, else the built-in default. */
  function ResolveImage(specImage: string, envImage: string, defaultImage: string): (image: string)
    ensures specImage != "" ==> image == specImage
    ensures specImage == "" && envImage != "" ==> image == envImage
    ensures specImage == "" && envImage == "" ==> image == defaultImage
  {
    if specImage == "" && envImage == "" then defaultImage
    else if specImage == "" then envImage
    else specImage
  }

  /** Resolving an already resolved image changes nothing. */
  lemma ResolveImageIdempotent(specImage: string, envImage: string, defaultImage: string)
    ensures ResolveImage(ResolveImage(specImage, envImage, defaultImage), envImage, defaultImage)
            == ResolveImage(specImage, envImage, defaultImage)
  {
  }

  /** The annotation-check flag after defaulting, and whether it is supported. */
  datatype AnnotationCheck = AnnotationCheck(value: string, supported: bool)

  /** getAnnotationCheck: an empty flag takes the default; only "true" and "false" are supported. */
  function ResolveAnnotationCheck(value: string, defaultValue: string): (r: AnnotationCheck)
    ensures r.value == if value == "" then defaultValue else value
    ensures r.supported <==> r.value == "true" || r.value == "false"
  {
    var v := if value == "" then defaultValue else value;
    AnnotationCheck(v, v == "true" || v == "false")
  }

  /** A non-empty flag other than "true" or "false" is refused, whatever the default. */
  lemma ResolveAnnotationCheckRefuses(value: string, defaultValue: string)
    requires value != "" && value != "true" && value != "false"
    ensures !ResolveAnnotationCheck(value, defaultValue).supported
    ensures ResolveAnnotationCheck(value, defaultValue).value == value
  {
  }

  // ---------------------------------------------------------------------
  // The runner pod
  // ---------------------------------------------------------------------

  const RunnerContainerName := "chaos-runner"
  const DefaultImagePullPolicy := "IfNotPresent"
  const RunnerRestartPolicy := "OnFailure"
  const AnsibleRunnerType := "ansible"
  const AnsibleCommand: seq<string> := ["/bin/bash"]
  const AnsibleArgs: seq<string> := ["-c", "ansible-playbook ./executor/test.yml -i /etc/ansible/hosts; exit 0"]

  /** The names of the runner's environment variables, in order. */
  const RunnerEnvNames: seq<string> := [
    "CHAOSENGINE", "APP_LABEL", "APP_NAMESPACE", "EXPERIMENT_LIST",
    "CHAOS_SVC_ACC", "AUXILIARY_APPINFO", "CLIENT_UUID", "CHAOS_NAMESPACE"]

  /** The value a container sees for `name`: the first entry that declares it. */
  function EnvValue(env: seq<EnvVar>, name: string): Option<string>
  {
    if |env| == 0 then None
    else if env[0].name == name then Some(env[0].value)
    else EnvValue(env[1..], name)
  }

  /** getChaosRunnerENV: the environment handed to the runner; the experiment
      names are joined with commas. */
  function GetChaosRunnerENV(cr: ChaosEngine, aExList: seq<string>, clientUUID: string): (env: seq<EnvVar>)
    ensures |env| == |RunnerEnvNames|
    ensures forall i :: 0 <= i < |env| ==> env[i].name == RunnerEnvNames[i]
  {
    [ EnvVar("CHAOSENGINE", cr.meta.name),
      EnvVar("APP_LABEL", cr.spec.appInfo.appLabel),
      EnvVar("APP_NAMESPACE", cr.spec.appInfo.appNamespace),
      EnvVar("EXPERIMENT_LIST", Join(aExList, ",")),
      EnvVar("CHAOS_SVC_ACC", cr.spec.chaosServiceAccount),
      EnvVar("AUXILIARY_APPINFO", cr.spec.auxiliaryAppInfo),
      EnvVar("CLIENT_UUID", clientUUID),
      EnvVar("CHAOS_NAMESPACE", cr.meta.namespace) ]
  }

  /** A name reads back a value exactly when some entry declares it, and then the
      value of an entry that declares it. */
  lemma {:induction false} EnvValueFound(env: seq<EnvVar>, name: string)
    ensures EnvValue(env, name).None? <==> forall i :: 0 <= i < |env| ==> env[i].name != name
    ensures EnvValue(env, name).Some? ==>
              exists i :: 0 <= i < |env| && env[i] == EnvVar(name, EnvValue(env, name).value)
  {
    if |env| > 0 && env[0].name != name {
      EnvValueFound(env[1..], name);
      if EnvValue(env, name).Some? {
        var i :| 0 <= i < |env[1..]| && env[1..][i] == EnvVar(name, EnvValue(env, name).value);
        assert env[i + 1] == env[1..][i];
      }
    }
  }

  /** A name declared at `i` and at no earlier position reads back the value at `i`. */
  lemma {:induction false} EnvValueAt(env: seq<EnvVar>, i: nat)
    requires i < |env|
    requires forall j :: 0 <= j < i ==> env[j].name != env[i].name
    ensures EnvValue(env, env[i].name) == Some(env[i].value)
  {
    if i > 0 {
      EnvValueAt(env[1..], i - 1);
    }
  }

  /** No name is declared twice: no two names agree in length and first two letters. */
  lemma RunnerEnvNamesDistinct()
    ensures forall i, j :: 0 <= i < j < |RunnerEnvNames| ==> RunnerEnvNames[i] != RunnerEnvNames[j]
  {
    var keys := seq(|RunnerEnvNames|, i requires 0 <= i < |RunnerEnvNames| =>
      (|RunnerEnvNames[i]|, RunnerEnvNames[i][0], RunnerEnvNames[i][1]));
    assert keys == [(11, 'C', 'H'), (9, 'A', 'P'), (13, 'A', 'P'), (15, 'E', 'X'),
                    (13, 'C', 'H'), (17, 'A', 'U'), (11, 'C', 'L'), (15, 'C', 'H')];
  }

  /** Each variable of the runner is declared once, so the runner reads back
      exactly the value the controller put under each name. */
  lemma RunnerEnvValues(cr: ChaosEngine, aExList: seq<string>, clientUUID: string)
    ensures var env := GetChaosRunnerENV(cr, aExList, clientUUID);
            && EnvValue(env, "CHAOSENGINE") == Some(cr.meta.name)
            && EnvValue(env, "APP_LABEL") == Some(cr.spec.appInfo.appLabel)
            && EnvValue(env, "APP_NAMESPACE") == Some(cr.spec.appInfo.appNamespace)
            && EnvValue(env, "EXPERIMENT_LIST") == Some(Join(aExList, ","))
            && EnvValue(env, "CHAOS_SVC_ACC") == Some(cr.spec.chaosServiceAccount)
            && EnvValue(env, "AUXILIARY_APPINFO") == Some(cr.spec.auxiliaryAppInfo)
            && EnvValue(env, "CLIENT_UUID") == Some(clientUUID)
            && EnvValue(env, "CHAOS_NAMESPACE") == Some(cr.meta.namespace)
  {
    var env := GetChaosRunnerENV(cr, aExList, clientUUID);
    assert EnvValue(env, "CHAOSENGINE") == Some(cr.meta.name) by { NamedEnvValue(env, 0); }
    assert EnvValue(env, "APP_LABEL") == Some(cr.spec.appInfo.appLabel) by { NamedEnvValue(env, 1); }
    assert EnvValue(env, "APP_NAMESPACE") == Some(cr.spec.appInfo.appNamespace) by { NamedEnvValue(env, 2); }
    assert EnvValue(env, "EXPERIMENT_LIST") == Some(Join(aExList, ",")) by { NamedEnvValue(env, 3); }
    assert EnvValue(env, "CHAOS_SVC_ACC") == Some(cr.spec.chaosServiceAccount) by { NamedEnvValue(env, 4); }
    assert EnvValue(env, "AUXILIARY_APPINFO") == Some(cr.spec.auxiliaryAppInfo) by { NamedEnvValue(env, 5); }
    assert EnvValue(env, "CLIENT_UUID") == Some(clientUUID) by { NamedEnvValue(env, 6); }
    assert EnvValue(env, "CHAOS_NAMESPACE") == Some(cr.meta.namespace) by { NamedEnvValue(env, 7); }
  }

  /** In an environment named as the runner's, each name reads back its own entry. */
  lemma NamedEnvValue(env: seq<EnvVar>, i: nat)
    requires |env| == |RunnerEnvNames| && i < |env|
    requires forall k :: 0 <= k < |env| ==> env[k].name == RunnerEnvNames[k]
    ensures EnvValue(env, RunnerEnvNames[i]) == Some(env[i].value)
  {
    RunnerEnvNamesDistinct();
    EnvValueAt(env, i);
  }

  /** The runner reads back the engine it serves and the experiment list it runs:
      splitting EXPERIMENT_LIST on commas gives the experiment names, when there is
      at least one and none contains a comma. */
  lemma RunnerEnvCarriesExperiments(cr: ChaosEngine, aExList: seq<string>, clientUUID: string)
    requires |aExList| >= 1
    requires forall x :: x in aExList ==> ',' !in x
    ensures var env := GetChaosRunnerENV(cr, aExList, clientUUID);
            && env[0] == EnvVar("CHAOSENGINE", cr.meta.name)
            && env[7] == EnvVar("CHAOS_NAMESPACE", cr.meta.namespace)
            && env[3].name == "EXPERIMENT_LIST"
            && Split(env[3].value, ',') == aExList
  {
    SplitJoin(aExList, ',');
  }

  function RunnerName(instance: ChaosEngine): string
  {
    instance.meta.name + "-runner"
  }

  function RunnerKey(instance: ChaosEngine): ObjKey
  {
    ObjKey(KindPod, instance.meta.namespace, RunnerName(instance))
  }

  /** The ownership label pair stamped on the runner and matched by graceful cleanup. */
  function OwnerSelector(instance: ChaosEngine): map<string, string>
  {
    map["app" := instance.meta.name, "chaosUID" := instance.meta.uid]
  }

  /** The label matched by forced cleanup. */
  function ChaosUIDSelector(uid: string): map<string, string>
  {
    map["chaosUID" := uid]
  }

  /** The identity every runner pod of `instance` has, whichever variant builds it. */
  ghost predicate IsRunnerPodFor(pod: Pod, instance: ChaosEngine)
  {
    && pod.name == RunnerName(instance)
    && pod.namespace == instance.meta.namespace
    && pod.labels == OwnerSelector(instance)
    && pod.serviceAccountName == instance.spec.chaosServiceAccount
    && pod.restartPolicy == RunnerRestartPolicy
    && pod.container.name == RunnerContainerName
    && pod.container.image == instance.spec.runner.image
    && pod.container.imagePullPolicy
       == (if instance.spec.runner.imagePullPolicy != "" then instance.spec.runner.imagePullPolicy else DefaultImagePullPolicy)
  }

  /** A runner pod is found by both cleanups: its labels carry the ownership pair
      and the chaosUID label, and it is stored under the runner's key. */
  lemma RunnerPodIsOwned(pod: Pod, instance: ChaosEngine)
    requires IsRunnerPodFor(pod, instance)
    ensures Matches(pod.labels, OwnerSelector(instance))
    ensures Matches(pod.labels, ChaosUIDSelector(instance.meta.uid))
    ensures PodKey(pod) == RunnerKey(instance)
  {
  }

  function PullPolicy(runner: RunnerInfo): string
  {
    if runner.imagePullPolicy != "" then runner.imagePullPolicy else DefaultImagePullPolicy
  }

  /** newGoRunnerPodForCR: command and arguments only when the spec gives them,
      and the spec's application annotation. */
  function NewGoRunnerPodForCR(engine: EngineInfo, clientUUID: string): (pod: Pod)
    ensures IsRunnerPodFor(pod, engine.instance)
    ensures pod.annotations == map[engine.instance.spec.appAnnotations.name := engine.instance.spec.appAnnotations.value]
  {
    var cr := engine.instance;
    var runner := cr.spec.runner;
    var container := Container(
      RunnerContainerName,
      runner.image,
      PullPolicy(runner),
      if runner.command.Some? then runner.command.value else [],
      if runner.args.Some? then runner.args.value else [],
      GetChaosRunnerENV(cr, engine.appExperiments, clientUUID));
    Pod(RunnerName(cr), cr.meta.namespace, OwnerSelector(cr),
        map[cr.spec.appAnnotations.name := cr.spec.appAnnotations.value],
        cr.spec.chaosServiceAccount, RunnerRestartPolicy, container)
  }

  /** newAnsibleRunnerPodForCR: the playbook command and arguments unless the spec
      overrides them, and no annotation. */
  function NewAnsibleRunnerPodForCR(engine: EngineInfo, clientUUID: string): (pod: Pod)
    ensures IsRunnerPodFor(pod, engine.instance)
    ensures pod.annotations == map[]
  {
    var cr := engine.instance;
    var runner := cr.spec.runner;
    var container := Container(
      RunnerContainerName,
      runner.image,
      PullPolicy(runner),
      if runner.command.Some? then runner.command.value else AnsibleCommand,
      if runner.args.Some? then runner.args.value else AnsibleArgs,
      GetChaosRunnerENV(cr, engine.appExperiments, clientUUID));
    Pod(RunnerName(cr), cr.meta.namespace, OwnerSelector(cr), map[],
        cr.spec.chaosServiceAccount, RunnerRestartPolicy, container)
  }

  /** The builder refuses when annotation checking is on and the experiment list or
      the application UID is empty. */
  predicate RunnerPreconditionFails(engine: EngineInfo)
  {
    (|engine.appExperiments| == 0 || engine.appUUID == "") && engine.instance.spec.annotationCheck == "true"
  }

  /** newRunnerPodForCR: refuses exactly when the precondition fails; otherwise builds
      the runner of the spec's type, carrying the runner identity, the spec's image and
      the runner environment, with the command and arguments the type prescribes. */
  function NewRunnerPodForCR(engine: EngineInfo, clientUUID: string): (r: Option<Pod>)
    ensures r.None? <==> RunnerPreconditionFails(engine)
    ensures r.Some? ==> IsRunnerPodFor(r.value, engine.instance)
    ensures r.Some? ==> r.value.container.env == GetChaosRunnerENV(engine.instance, engine.appExperiments, clientUUID)
    ensures r.Some? ==> var runner := engine.instance.spec.runner;
              var ansible := runner.runnerType == AnsibleRunnerType;
              && r.value.container.command
                 == (if runner.command.Some? then runner.command.value else if ansible then AnsibleCommand else [])
              && r.value.container.args
                 == (if runner.args.Some? then runner.args.value else if ansible then AnsibleArgs else [])
  {
    if RunnerPreconditionFails(engine) then None
    else if engine.instance.spec.runner.runnerType == AnsibleRunnerType then Some(NewAnsibleRunnerPodForCR(engine, clientUUID))
    else Some(NewGoRunnerPodForCR(engine, clientUUID))
  }
}
