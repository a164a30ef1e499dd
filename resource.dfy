/** The annotation gate of pkg/controller/resource/resource.go: which
    annotation key the gate reads, the routing of the application kind to a
    per-kind checker, and the counter of chaos-enabled candidates.

    The per-kind checkers (deployment, statefulset, daemonset) live in files
    that are not part of this model; they are the `checker` parameter of a
    `GateEnv`, which also carries the outcome of creating the clientset and
    the CUSTOM_ANNOTATION environment value. */
module Resource {
  import opened Wrappers
  import opened EngineTypes

  /** The annotation value that enables chaos on an application. */
  const ChaosAnnotationValue := "true"

  /** The annotation key used when CUSTOM_ANNOTATION is unset or empty. */
  const DefaultChaosAnnotationKey := "litmuschaos.io/chaos"

  /** The annotation key the gate reads: the CUSTOM_ANNOTATION value when it is
      non-empty, the default key otherwise. The key is never empty. */
  function GetAnnotationKey(customAnnotation: string): (key: string)
    ensures key != ""
    ensures customAnnotation != "" ==> key == customAnnotation
    ensures customAnnotation == "" ==> key == DefaultChaosAnnotationKey
  {
    if |customAnnotation| != 0 then customAnnotation else DefaultChaosAnnotationKey
  }

  /** One step of counting chaos-enabled applications: the count goes up by one
      exactly when the annotation value is the enabling value. */
  function CountTotalChaosEnabled(annotationValue: string, chaosCandidates: int): (r: int)
    ensures r == chaosCandidates + 1 <==> annotationValue == ChaosAnnotationValue
    ensures r == chaosCandidates <==> annotationValue != ChaosAnnotationValue
  {
    if annotationValue == ChaosAnnotationValue then chaosCandidates + 1 else chaosCandidates
  }

  /** The counter applied to the annotation values of a list of candidates, in order. */
  function CountChaosCandidates(annotationValues: seq<string>, chaosCandidates: int): int
    decreases |annotationValues|
  {
    if annotationValues == [] then chaosCandidates
    else CountChaosCandidates(annotationValues[1..], CountTotalChaosEnabled(annotationValues[0], chaosCandidates))
  }

  /** Counting over a list adds the number of candidates whose annotation is the
      enabling value, whatever their order. */
  lemma {:induction false} CountChaosCandidatesCounts(annotationValues: seq<string>, chaosCandidates: int)
    ensures CountChaosCandidates(annotationValues, chaosCandidates)
            == chaosCandidates + multiset(annotationValues)[ChaosAnnotationValue]
  {
    if annotationValues != [] {
      var v, rest := annotationValues[0], annotationValues[1..];
      assert annotationValues == [v] + rest;
      assert multiset(annotationValues) == multiset{v} + multiset(rest);
      CountChaosCandidatesCounts(rest, CountTotalChaosEnabled(v, chaosCandidates));
    }
  }

  /** ASCII lower-casing of one character. */
  function LowerChar(c: char): char
  {
    if 'A' <= c <= 'Z' then (c as int - 'A' as int + 'a' as int) as char else c
  }

  /** Lower-casing of a string (strings.ToLower on ASCII text). */
  function ToLower(s: string): (r: string)
    ensures |r| == |s|
    ensures forall i :: 0 <= i < |s| ==> r[i] == LowerChar(s[i])
  {
    if s == [] then [] else [LowerChar(s[0])] + ToLower(s[1..])
  }

  /** The application kinds the gate supports. */
  datatype AppKind = AppDeployment | AppStatefulSet | AppDaemonSet

  /** The resource type named in a checker's wrapped error. */
  function ResourceTypeName(k: AppKind): string
  {
    match k
    case AppDeployment => "deployment"
    case AppStatefulSet => "statefulset"
    case AppDaemonSet => "daemonset"
  }

  /** Whether a lower-cased kind names resource type `k`, singular or plural. */
  predicate NamesKind(lowerKind: string, k: AppKind)
  {
    lowerKind == ResourceTypeName(k) || lowerKind == ResourceTypeName(k) + "s"
  }

  /** The `switch` on the lower-cased kind: singular and plural names are accepted. */
  function ParseAppKind(kind: string): Option<AppKind>
  {
    var lk := ToLower(kind);
    if NamesKind(lk, AppDeployment) then Some(AppDeployment)
    else if NamesKind(lk, AppStatefulSet) then Some(AppStatefulSet)
    else if NamesKind(lk, AppDaemonSet) then Some(AppDaemonSet)
    else None
  }

  /** No spelling names two resource types. */
  lemma NamesKindUnique(lowerKind: string, k: AppKind, k': AppKind)
    requires NamesKind(lowerKind, k) && NamesKind(lowerKind, k')
    ensures k == k'
  {
    assert lowerKind[..2] == ResourceTypeName(k)[..2] == ResourceTypeName(k')[..2];
    assert ResourceTypeName(AppDeployment)[..2] == "de";
    assert ResourceTypeName(AppStatefulSet)[..2] == "st";
    assert ResourceTypeName(AppDaemonSet)[..2] == "da";
  }

  /** A kind is routed to checker `k` exactly when, lower-cased, it is the resource
      type's name or its plural. */
  lemma ParseAppKindAccepts(kind: string, k: AppKind)
    ensures ParseAppKind(kind) == Some(k) <==> NamesKind(ToLower(kind), k)
  {
    var lk := ToLower(kind);
    if NamesKind(lk, k) && ParseAppKind(kind).Some? {
      NamesKindUnique(lk, k, ParseAppKind(kind).value);
    }
  }

  /** Any other kind is unsupported. */
  lemma ParseAppKindRefuses(kind: string)
    ensures ParseAppKind(kind).None? <==> forall k :: !NamesKind(ToLower(kind), k)
  {
    if ParseAppKind(kind).None? {
      forall k ensures !NamesKind(ToLower(kind), k) {
        match k
        case AppDeployment =>
        case AppStatefulSet =>
        case AppDaemonSet =>
      }
    } else {
      assert NamesKind(ToLower(kind), ParseAppKind(kind).value);
    }
  }

  /** The routing ignores letter case. */
  lemma ParseAppKindIgnoresCase(a: string, b: string)
    requires ToLower(a) == ToLower(b)
    ensures ParseAppKind(a) == ParseAppKind(b)
  {
  }

  /** What a per-kind checker reports: the identity of the application it found
      (recorded on the engine) and its error, if any. */
  datatype CheckerReply = CheckerReply(appName: string, appUUID: string, err: Option<string>)

  /** The collaborators of the gate. `checker(kind, annotationKey, appInfo)` stands for
      CheckDeploymentAnnotation, CheckStatefulSetAnnotation and CheckDaemonSetAnnotation. */
  datatype GateEnv = GateEnv(
    customAnnotation: string,
    clientSetError: Option<string>,
    checker: (AppKind, string, ApplicationInfo) -> CheckerReply)

  /** The errors of CheckChaosAnnotation, with what each names; their message text is not modelled. */
  datatype GateError =
    | ClientSetFailed(cause: string)
    | ResourceTypeFailed(resourceType: string, cause: string)
    | ResourceTypeNotSupported(kind: string)

  datatype GateReply = GateReply(engine: EngineInfo, err: Option<GateError>)

  /** CheckChaosAnnotation: fails before any routing when the clientset cannot be
      created; refuses an unsupported kind, naming it; otherwise hands the engine's
      application to the checker of its kind, records the application identity the
      checker reports, and wraps a checker error with the resource type's name. */
  function CheckChaosAnnotation(engine: EngineInfo, env: GateEnv): (r: GateReply)
    ensures env.clientSetError.Some? ==> r == GateReply(engine, Some(ClientSetFailed(env.clientSetError.value)))
    ensures env.clientSetError.None? && ParseAppKind(engine.appInfo.kind).None?
            ==> r == GateReply(engine, Some(ResourceTypeNotSupported(engine.appInfo.kind)))
    ensures env.clientSetError.None? && ParseAppKind(engine.appInfo.kind).Some? ==>
              var k := ParseAppKind(engine.appInfo.kind).value;
              var reply := env.checker(k, GetAnnotationKey(env.customAnnotation), engine.appInfo);
              && r.engine == engine.(appName := reply.appName, appUUID := reply.appUUID)
              && (r.err.None? <==> reply.err.None?)
              && (reply.err.Some? ==> r.err == Some(ResourceTypeFailed(ResourceTypeName(k), reply.err.value)))
    ensures r.engine.instance == engine.instance && r.engine.appInfo == engine.appInfo
    ensures r.engine.appExperiments == engine.appExperiments
  {
    if env.clientSetError.Some? then GateReply(engine, Some(ClientSetFailed(env.clientSetError.value)))
    else
      match ParseAppKind(engine.appInfo.kind)
      case None => GateReply(engine, Some(ResourceTypeNotSupported(engine.appInfo.kind)))
      case Some(k) =>
        var reply := env.checker(k, GetAnnotationKey(env.customAnnotation), engine.appInfo);
        var checked := engine.(appName := reply.appName, appUUID := reply.appUUID);
        match reply.err
        case Some(cause) => GateReply(checked, Some(ResourceTypeFailed(ResourceTypeName(k), cause)))
        case None => GateReply(checked, None)
  }
}
