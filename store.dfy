/** The external resource store (the Kubernetes API behind the controller's
    client) and the event recorder, as a value that the controller threads
    through every call.

    A `World` holds the persisted engines, the child objects keyed by
    (kind, namespace, name) with their label sets, and the trace of every
    store call issued and every event recorded, in order. Whether a store
    call fails is decided by a `Faults` oracle given by the caller: the
    same call gets the same answer, and a failing call changes nothing but
    the trace. */
module Store {
  import opened Wrappers
  import opened EngineTypes

  /** The child kinds the controller deletes by label. */
  datatype Kind = KindDeployment | KindDaemonSet | KindJob | KindPod

  datatype NamespacedName = NamespacedName(namespace: string, name: string)

  datatype ObjKey = ObjKey(kind: Kind, namespace: string, name: string)

  datatype PodPhase = PodPending | PodRunning | PodSucceeded | PodFailed | PodUnknown

  /** What the controller observes of a child object: its labels and, for a pod, its phase. */
  datatype StoredObject = StoredObject(labels: map<string, string>, phase: PodPhase)

  /** A call issued to the store. */
  datatype Call =
    | GetEngine(request: NamespacedName)
    | UpdateEngine(engine: ChaosEngine)
    | GetObject(key: ObjKey)
    | CreatePod(pod: Pod)
    | ListPods(namespace: string, selector: map<string, string>)
    | DeleteObject(key: ObjKey)
    | DeleteAllOf(kind: Kind, namespace: string, selector: map<string, string>)

  datatype EventType = Normal | Warning

  /** An event handed to the recorder (fire-and-forget). */
  datatype Event = Event(eventType: EventType, reason: string, message: string)

  datatype Step = Issued(call: Call) | Recorded(event: Event)

  datatype World = World(
    engines: map<NamespacedName, ChaosEngine>,
    objects: map<ObjKey, StoredObject>,
    trace: seq<Step>)

  /** Which store calls fail. */
  type Faults = Call -> bool

  /** The answer to a read by key. */
  datatype Lookup<T> = Found(value: T) | NotFound | LookupFailed

  function EngineKey(e: ChaosEngine): NamespacedName
  {
    NamespacedName(e.meta.namespace, e.meta.name)
  }

  function PodKey(pod: Pod): ObjKey
  {
    ObjKey(KindPod, pod.namespace, pod.name)
  }

  /** A label selector matches when every selector pair is among the labels. */
  predicate Matches(labels: map<string, string>, selector: map<string, string>)
  {
    forall l :: l in selector ==> l in labels && labels[l] == selector[l]
  }

  /** The object that the store holds once a pod is created: a pending pod with the pod's labels. */
  function CreatedObject(pod: Pod): StoredObject
  {
    StoredObject(pod.labels, PodPending)
  }

  /** `objects` without every object of one of `kinds` in namespace `ns` that `selector` matches. */
  function Purge(objects: map<ObjKey, StoredObject>, kinds: set<Kind>, ns: string, selector: map<string, string>)
    : (r: map<ObjKey, StoredObject>)
    ensures forall k :: k in r <==> k in objects && !(k.kind in kinds && k.namespace == ns && Matches(objects[k].labels, selector))
    ensures forall k :: k in r ==> r[k] == objects[k]
  {
    map k | k in objects && !(k.kind in kinds && k.namespace == ns && Matches(objects[k].labels, selector)) :: objects[k]
  }

  /** The keys of the pods in namespace `ns` that `selector` matches. */
  function Listed(objects: map<ObjKey, StoredObject>, ns: string, selector: map<string, string>): (r: set<ObjKey>)
    ensures forall k :: k in r <==> k in objects && k.kind == KindPod && k.namespace == ns && Matches(objects[k].labels, selector)
  {
    set k | k in objects && k.kind == KindPod && k.namespace == ns && Matches(objects[k].labels, selector)
  }

  /** The persisted engines after a successful update of `e`. An engine that is being
      deleted and carries no finalizer any more is removed by the store. */
  function Persist(engines: map<NamespacedName, ChaosEngine>, e: ChaosEngine): (r: map<NamespacedName, ChaosEngine>)
    ensures e.meta.deletionTimestamp.Some? && e.meta.finalizers == [] ==> EngineKey(e) !in r
    ensures !(e.meta.deletionTimestamp.Some? && e.meta.finalizers == []) ==> EngineKey(e) in r && r[EngineKey(e)] == e
    ensures forall n :: n != EngineKey(e) ==> (n in r <==> n in engines) && (n in r ==> r[n] == engines[n])
  {
    if e.meta.deletionTimestamp.Some? && e.meta.finalizers == [] then engines - {EngineKey(e)}
    else engines[EngineKey(e) := e]
  }

  function Issue(w: World, c: Call): (w': World)
    ensures w'.engines == w.engines && w'.objects == w.objects && w'.trace == w.trace + [Issued(c)]
  {
    w.(trace := w.trace + [Issued(c)])
  }

  /** Hands an event to the recorder; the store is unchanged. */
  function Record(w: World, ev: Event): (w': World)
    ensures w'.engines == w.engines && w'.objects == w.objects && w'.trace == w.trace + [Recorded(ev)]
  {
    w.(trace := w.trace + [Recorded(ev)])
  }

  /** The world after an update of `e`: issued, and persisted unless it fails. */
  function AfterUpdate(w: World, e: ChaosEngine, fails: Faults): (w': World)
    ensures w'.objects == w.objects && w'.trace == w.trace + [Issued(UpdateEngine(e))]
    ensures w'.engines == if fails(UpdateEngine(e)) then w.engines else Persist(w.engines, e)
  {
    var issued := Issue(w, UpdateEngine(e));
    if fails(UpdateEngine(e)) then issued else issued.(engines := Persist(w.engines, e))
  }

  method ReadEngine(w: World, request: NamespacedName, fails: Faults) returns (w': World, r: Lookup<ChaosEngine>)
    ensures w' == Issue(w, GetEngine(request))
    ensures fails(GetEngine(request)) ==> r == LookupFailed
    ensures !fails(GetEngine(request)) ==> r == if request in w.engines then Found(w.engines[request]) else NotFound
  {
    w' := Issue(w, GetEngine(request));
    if fails(GetEngine(request)) {
      r := LookupFailed;
    } else if request in w.engines {
      r := Found(w.engines[request]);
    } else {
      r := NotFound;
    }
  }

  method Update(w: World, e: ChaosEngine, fails: Faults) returns (w': World, ok: bool)
    ensures ok == !fails(UpdateEngine(e))
    ensures w' == AfterUpdate(w, e, fails)
  {
    ok := !fails(UpdateEngine(e));
    w' := Issue(w, UpdateEngine(e));
    if ok {
      w' := w'.(engines := Persist(w.engines, e));
    }
  }

  method Get(w: World, key: ObjKey, fails: Faults) returns (w': World, r: Lookup<StoredObject>)
    ensures w' == Issue(w, GetObject(key))
    ensures fails(GetObject(key)) ==> r == LookupFailed
    ensures !fails(GetObject(key)) ==> r == if key in w.objects then Found(w.objects[key]) else NotFound
  {
    w' := Issue(w, GetObject(key));
    if fails(GetObject(key)) {
      r := LookupFailed;
    } else if key in w.objects {
      r := Found(w.objects[key]);
    } else {
      r := NotFound;
    }
  }

  method Create(w: World, pod: Pod, fails: Faults) returns (w': World, ok: bool)
    ensures ok == !fails(CreatePod(pod))
    ensures w'.engines == w.engines && w'.trace == w.trace + [Issued(CreatePod(pod))]
    ensures w'.objects == if ok then w.objects[PodKey(pod) := CreatedObject(pod)] else w.objects
  {
    ok := !fails(CreatePod(pod));
    w' := Issue(w, CreatePod(pod));
    if ok {
      w' := w'.(objects := w.objects[PodKey(pod) := CreatedObject(pod)]);
    }
  }

  method List(w: World, ns: string, selector: map<string, string>, fails: Faults)
    returns (w': World, r: Option<set<ObjKey>>)
    ensures w' == Issue(w, ListPods(ns, selector))
    ensures r == if fails(ListPods(ns, selector)) then None else Some(Listed(w.objects, ns, selector))
  {
    w' := Issue(w, ListPods(ns, selector));
    r := if fails(ListPods(ns, selector)) then None else Some(Listed(w.objects, ns, selector));
  }

  method Delete(w: World, key: ObjKey, fails: Faults) returns (w': World, ok: bool)
    ensures ok == !fails(DeleteObject(key))
    ensures w'.engines == w.engines && w'.trace == w.trace + [Issued(DeleteObject(key))]
    ensures w'.objects == if ok then w.objects - {key} else w.objects
  {
    ok := !fails(DeleteObject(key));
    w' := Issue(w, DeleteObject(key));
    if ok {
      w' := w'.(objects := w.objects - {key});
    }
  }

  method DeleteAll(w: World, kind: Kind, ns: string, selector: map<string, string>, fails: Faults)
    returns (w': World, ok: bool)
    ensures ok == !fails(DeleteAllOf(kind, ns, selector))
    ensures w'.engines == w.engines && w'.trace == w.trace + [Issued(DeleteAllOf(kind, ns, selector))]
    ensures w'.objects == if ok then Purge(w.objects, {kind}, ns, selector) else w.objects
  {
    ok := !fails(DeleteAllOf(kind, ns, selector));
    w' := Issue(w, DeleteAllOf(kind, ns, selector));
    if ok {
      w' := w'.(objects := Purge(w.objects, {kind}, ns, selector));
    }
  }

  /** Purging kind by kind is purging the union of the kinds at once. */
  lemma PurgeTwice(objects: map<ObjKey, StoredObject>, a: set<Kind>, b: set<Kind>, ns: string, selector: map<string, string>)
    ensures Purge(Purge(objects, a, ns, selector), b, ns, selector) == Purge(objects, a + b, ns, selector)
  {
    var lhs := Purge(Purge(objects, a, ns, selector), b, ns, selector);
    var rhs := Purge(objects, a + b, ns, selector);
    assert forall k :: k in lhs <==> k in rhs;
    assert lhs.Keys == rhs.Keys;
  }

  /** Purging no kind changes nothing. */
  lemma PurgeNothing(objects: map<ObjKey, StoredObject>, ns: string, selector: map<string, string>)
    ensures Purge(objects, {}, ns, selector) == objects
  {
    assert Purge(objects, {}, ns, selector).Keys == objects.Keys;
  }
}
