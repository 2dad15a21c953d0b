/**
 * The create-if-absent step for the indexer deployment: look the deployment up by
 * name, create it when the lookup reports NotFound, pass any other lookup error on,
 * and leave an existing deployment alone. The cluster is a store of deployments by
 * namespaced name; the client's failures are inputs (`getFault`, `createFault`).
 */
module IndexerApply {
  import opened Wrappers
  import opened SearchTypes
  import opened Workloads
  import IndexerBuilder

  /** A namespaced name: how the cluster addresses an object. */
  datatype Key = Key(namespace: string, name: string)

  /** The deployments held by the cluster, by namespaced name. */
  type Store = map<Key, Deployment>

  /** A reconciliation request: the namespaced name of the Search resource being reconciled. */
  datatype Request = Request(namespace: string, name: string)

  datatype ApiError = NotFound | AlreadyExists | Other(reason: string)

  /** The controller's requeue directive; the zero value asks for no requeue. */
  datatype ReconcileResult = ReconcileResult(requeue: bool, requeueAfterSeconds: nat)

  const NoRequeue := ReconcileResult(false, 0)

  /** What the step hands back: a result that may be nil and an error that may be nil. */
  datatype Outcome = Outcome(result: Option<ReconcileResult>, err: Option<ApiError>)

  datatype GetResult = Found(obj: Deployment) | GetFailed(err: ApiError)

  datatype CreateResult = CreateResult(store: Store, err: Option<ApiError>)

  function KeyOf(d: Deployment): Key {
    Key(d.meta.namespace, d.meta.name)
  }

  /**
   * The client's answer to a read of `key`. A `fault` is an answer the client reports
   * instead of the store's: a transport failure, a NotFound from a stale cache, or an
   * object a stale cache still holds.
   */
  function Lookup(store: Store, key: Key, fault: Option<GetResult>): GetResult {
    match fault
    case Some(answer) => answer
    case None => if key in store then Found(store[key]) else GetFailed(NotFound)
  }

  /** True when the client answered a read with an object instead of the store's answer. */
  predicate StaleFound(fault: Option<GetResult>) {
    fault.Some? && fault.value.Found?
  }

  /**
   * The cluster's handling of a create: a `fault` leaves the store as it is; a create
   * for a name already taken is refused with AlreadyExists; otherwise `d` is stored.
   */
  function Insert(store: Store, d: Deployment, fault: Option<ApiError>): CreateResult {
    if fault.Some? then CreateResult(store, fault)
    else if KeyOf(d) in store then CreateResult(store, Some(AlreadyExists))
    else CreateResult(store[KeyOf(d) := d], None)
  }

  /** One run of the step: the store afterwards, what it returns, and whether it issued a create. */
  datatype Step = Step(store: Store, out: Outcome, createCalled: bool)

  /**
   * The step. The lookup uses the request's namespace and the deployment's name; the
   * create stores the deployment under its own namespace. It never updates an object:
   * the store is unchanged or gains exactly `deploy`, under a key that was free. The
   * result is nil exactly when the error is nil, a create is issued exactly when the
   * lookup reports NotFound, and then the create's error is the one returned.
   */
  function CreateIfAbsent(store: Store, requestNs: string, deploy: Deployment,
                          getFault: Option<GetResult>, createFault: Option<ApiError>): (s: Step)
    ensures s.store == store || (KeyOf(deploy) !in store && s.store == store[KeyOf(deploy) := deploy])
    ensures s.out.result.None? <==> s.out.err.None?
    ensures s.createCalled <==> Lookup(store, Key(requestNs, deploy.meta.name), getFault) == GetFailed(NotFound)
    ensures s.createCalled ==> s.out.err == Insert(store, deploy, createFault).err
    ensures s.out.err.None? && requestNs == deploy.meta.namespace ==> KeyOf(deploy) in s.store || StaleFound(getFault)
  {
    match Lookup(store, Key(requestNs, deploy.meta.name), getFault)
    case GetFailed(NotFound) =>
      var c := Insert(store, deploy, createFault);
      Step(c.store, if c.err.Some? then Outcome(Some(NoRequeue), c.err) else Outcome(None, None), true)
    case GetFailed(e) => Step(store, Outcome(Some(NoRequeue), Some(e)), false)
    case Found(_) => Step(store, Outcome(None, None), false)
  }

  /** A deployment already stored under the looked-up name is left alone, whatever it holds. */
  lemma ExistingLeftAlone(store: Store, requestNs: string, deploy: Deployment, createFault: Option<ApiError>)
    requires Key(requestNs, deploy.meta.name) in store
    ensures CreateIfAbsent(store, requestNs, deploy, None, createFault) == Step(store, Outcome(None, None), false)
  {
  }

  /**
   * After a NotFound, `deploy` itself is created; a create error, whether the client's
   * or the cluster's refusal of a taken name, comes back with an empty result, a
   * successful create with a nil result and a nil error.
   */
  lemma NotFoundCreates(store: Store, requestNs: string, deploy: Deployment,
                        getFault: Option<GetResult>, createFault: Option<ApiError>)
    requires Lookup(store, Key(requestNs, deploy.meta.name), getFault) == GetFailed(NotFound)
    ensures var s := CreateIfAbsent(store, requestNs, deploy, getFault, createFault);
      && s.createCalled
      && (createFault.Some? ==> s == Step(store, Outcome(Some(NoRequeue), createFault), true))
      && (createFault.None? && KeyOf(deploy) in store ==>
            s == Step(store, Outcome(Some(NoRequeue), Some(AlreadyExists)), true))
      && (createFault.None? && KeyOf(deploy) !in store ==>
            s.store == store[KeyOf(deploy) := deploy] && s.out == Outcome(None, None))
  {
  }

  /** Any lookup error other than NotFound is handed back and nothing is created. */
  lemma LookupErrorPropagated(store: Store, requestNs: string, deploy: Deployment,
                              e: ApiError, createFault: Option<ApiError>)
    requires e != NotFound
    ensures CreateIfAbsent(store, requestNs, deploy, Some(GetFailed(e)), createFault)
         == Step(store, Outcome(Some(NoRequeue), Some(e)), false)
  {
  }

  /**
   * A read answered from a stale cache with an object the store no longer holds takes
   * the found path: no create, nothing stored, a nil result and a nil error.
   */
  lemma StaleFoundSkipsCreate(store: Store, requestNs: string, deploy: Deployment,
                              observed: Deployment, createFault: Option<ApiError>)
    ensures CreateIfAbsent(store, requestNs, deploy, Some(Found(observed)), createFault)
         == Step(store, Outcome(None, None), false)
  {
  }

  /**
   * Once a step has succeeded on an answer that did not come from a stale cache's
   * object, a second step with a working lookup issues no create and changes nothing,
   * when the request names the deployment's namespace.
   */
  lemma SecondPassIsQuiet(store: Store, requestNs: string, deploy: Deployment,
                          getFault: Option<GetResult>, createFault: Option<ApiError>, createFault2: Option<ApiError>)
    requires requestNs == deploy.meta.namespace
    requires !StaleFound(getFault)
    requires CreateIfAbsent(store, requestNs, deploy, getFault, createFault).out.err.None?
    ensures var s1 := CreateIfAbsent(store, requestNs, deploy, getFault, createFault);
      CreateIfAbsent(s1.store, requestNs, deploy, None, createFault2) == Step(s1.store, Outcome(None, None), false)
  {
  }

  /**
   * When the request's namespace differs from the deployment's, the lookup never sees
   * the deployment it created: each further step issues a create that is refused.
   */
  lemma LookupNamespaceMismatch(store: Store, requestNs: string, deploy: Deployment)
    requires requestNs != deploy.meta.namespace
    requires KeyOf(deploy) in store && Key(requestNs, deploy.meta.name) !in store
    ensures var s := CreateIfAbsent(store, requestNs, deploy, None, None);
      s.createCalled && s.store == store && s.out == Outcome(Some(NoRequeue), Some(AlreadyExists))
  {
  }

  /**
   * Reconciling an instance whose namespace holds no indexer yet, with a working
   * client, stores the built deployment under search-indexer in that namespace and
   * returns a nil result and a nil error.
   */
  lemma FreshInstallCreatesIndexer(store: Store, request: Request, instance: Search, image: string,
                                   serviceAccount: string, scheme: Option<string>)
    requires request.namespace == instance.meta.namespace
    requires Key(instance.meta.namespace, IndexerBuilder.IndexerName) !in store
    ensures var d := IndexerBuilder.IndexerDeployment(instance, image, serviceAccount, scheme);
      CreateIfAbsent(store, request.namespace, d, None, None)
        == Step(store[Key(instance.meta.namespace, "search-indexer") := d], Outcome(None, None), true)
  {
  }

  /** The client failures one step meets. */
  datatype Faults = Faults(getFault: Option<GetResult>, createFault: Option<ApiError>)

  /** The store after a series of steps, and how many of them created an object. */
  datatype Run = Run(store: Store, creates: nat)

  /** Runs the step once per entry of `faults`, in order. */
  function Repeat(store: Store, requestNs: string, deploy: Deployment, faults: seq<Faults>): Run
    decreases |faults|
  {
    if faults == [] then Run(store, 0)
    else
      var s := CreateIfAbsent(store, requestNs, deploy, faults[0].getFault, faults[0].createFault);
      var rest := Repeat(s.store, requestNs, deploy, faults[1..]);
      Run(rest.store, rest.creates + if s.store == store then 0 else 1)
  }

  /** With the deployment present, any series of steps changes nothing. */
  lemma {:induction false} RepeatOnPresentIsNoop(store: Store, requestNs: string, deploy: Deployment, faults: seq<Faults>)
    requires KeyOf(deploy) in store
    ensures Repeat(store, requestNs, deploy, faults) == Run(store, 0)
    decreases |faults|
  {
    if faults != [] {
      RepeatOnPresentIsNoop(store, requestNs, deploy, faults[1..]);
    }
  }

  /**
   * Whatever namespace the request names and however the client fails along the way,
   * repeating the step creates at most once, and the store ends either as it began or
   * with `deploy` added under a free key.
   */
  lemma {:induction false} RepeatCreatesAtMostOnce(store: Store, requestNs: string, deploy: Deployment, faults: seq<Faults>)
    ensures var r := Repeat(store, requestNs, deploy, faults);
      && r.creates <= 1
      && (r.creates == 0 <==> r.store == store)
      && (r.store == store || (KeyOf(deploy) !in store && r.store == store[KeyOf(deploy) := deploy]))
    decreases |faults|
  {
    if faults != [] {
      var s := CreateIfAbsent(store, requestNs, deploy, faults[0].getFault, faults[0].createFault);
      if s.store == store {
        RepeatCreatesAtMostOnce(store, requestNs, deploy, faults[1..]);
      } else {
        RepeatOnPresentIsNoop(s.store, requestNs, deploy, faults[1..]);
      }
    }
  }

  /** The reconciler's view of the cluster: the deployments it can read and create. */
  class SearchReconciler {
    var deployments: Store

    constructor (initial: Store)
      ensures deployments == initial
    {
      deployments := initial;
    }

    /** The client's read; it changes nothing. */
    method Get(key: Key, fault: Option<GetResult>) returns (r: GetResult)
      ensures r == Lookup(deployments, key, fault)
    {
      r := Lookup(deployments, key, fault);
    }

    /** The client's create. */
    method Create(d: Deployment, fault: Option<ApiError>) returns (err: Option<ApiError>)
      modifies this
      ensures var c := Insert(old(deployments), d, fault); deployments == c.store && err == c.err
    {
      var c := Insert(deployments, d, fault);
      deployments, err := c.store, c.err;
    }

    /**
     * Looks up `deploy` by name in the request's namespace and creates it when it is
     * not found. `instance` is the owning resource; the step does not read it.
     */
    method CreateIndexerDeployment(request: Request, deploy: Deployment, instance: Search,
                                   getFault: Option<GetResult>, createFault: Option<ApiError>)
      returns (result: Option<ReconcileResult>, err: Option<ApiError>)
      modifies this
      ensures var s := CreateIfAbsent(old(deployments), request.namespace, deploy, getFault, createFault);
        deployments == s.store && Outcome(result, err) == s.out
      ensures deployments == old(deployments)
           || (KeyOf(deploy) !in old(deployments) && deployments == old(deployments)[KeyOf(deploy) := deploy])
    {
      var found := Get(Key(request.namespace, deploy.meta.name), getFault);
      if found == GetFailed(NotFound) {
        var createErr := Create(deploy, createFault);
        if createErr.Some? {
          return Some(NoRequeue), createErr;
        } else {
          return None, None;
        }
      } else if found.GetFailed? {
        return Some(NoRequeue), Some(found.err);
      }
      return None, None;
    }
  }
}
