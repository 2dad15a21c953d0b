# Search operator: indexer deployment

A Dafny model of the part of the search operator that produces and installs the
search indexer's Deployment. The operator reconciles a `Search` custom resource into
the workloads of the search application; this model covers the indexer only:

- **The builder** (`IndexerBuilder.IndexerDeployment`, module in `indexer_deployment.dfy`):
  a pure function from the owning `Search` resource and the indexer image to the desired
  Deployment. It gives one replica of one container named `search-indexer`. That container
  reads the database credentials from the `search-postgres` secret, finds the database at
  `search-postgres.<namespace>.svc`, mounts the `search-indexer-certs` secret at `/sslcert`,
  and has HTTPS readiness and liveness checks on port 3010.
- **The create-if-absent step** (`IndexerApply`, in `create_indexer.dfy`): look the
  deployment up by name; on NotFound create it; hand back any other lookup error; leave
  an existing deployment untouched. `IndexerApply.CreateIfAbsent` is its specification
  as a function of the cluster store. `SearchReconciler.CreateIndexerDeployment` is the
  same step written as a method over a mutable store, proved against that function.
  `Repeat` runs the step many times, so the lemmas can talk about idempotence.

The cluster is a map from namespaced name to Deployment. The client's behaviour is
modelled as follows:
- A read returns the stored object or NotFound, unless a `fault` input gives the
  client's answer instead. That answer can be any error, including a spurious NotFound,
  or an object that a stale cache still holds.
- A create fails with its `fault` input if one is given.
- Otherwise a create is refused with AlreadyExists when the name is taken, as the
  cluster's API server does, and stores the object when it is free.

The `Search` record types of `api/v1alpha1/search_types.go` are in `search_types.dfy`.
The subset of the cluster's workload types that the builder fills in is in
`workloads.dfy`. The integer fields of that API are 32-bit, so they use an `int32`
newtype.

Behaviour of the code that the model keeps:
- The step never updates a deployment it finds, even one that differs from the desired
  one.
- The owner reference is set by the builder, and a failure to set it is dropped.
- The builder never returns an error, whatever the owner's identity fields hold.
- The replica count is always 1, whatever `ReplicaCount` and `EnableHA` say.

## Model

| member | source | states |
|---|---|---|
| IndexerBuilder.IndexerDeployment | controllers/create_indexerdeployment.go:47-136 | Always returns a deployment. It is named search-indexer, lives in the instance's namespace and has one replica. The selector equals the pod template's labels. Every volume mount has a declared volume. There is exactly one container, named search-indexer, running the given image and the given service account. The owner link is present exactly when the scheme lookup succeeds; a failure is not returned |
| IndexerBuilder.SpecIgnored | controllers/create_indexerdeployment.go:124-125 | Two instances with the same metadata give the same deployment, whatever their spec holds (replica count, HA flag, per-component config) and whatever their status holds |
| IndexerBuilder.OnlyNamespaceMatters | controllers/create_indexerdeployment.go:53-57 | Apart from the owner link, the deployment depends on the instance only through its namespace. A failed owner link changes nothing else |
| IndexerBuilder.IndexerEnv | controllers/create_indexerdeployment.go:72-77 | The container has four env entries. DB_USER, DB_PASS and DB_NAME come from secret search-postgres under keys database-user, database-password and database-name. DB_HOST is the literal search-postgres.<namespace>.svc |
| IndexerBuilder.ContainerEnv | controllers/create_indexerdeployment.go:69-77 | The same env facts, for the container built for a given namespace |
| IndexerBuilder.IndexerProbes | controllers/create_indexerdeployment.go:90-111 | Readiness is an HTTPS GET of /readiness on port 3010 with initial delay 15 and timeout 30. Liveness is an HTTPS GET of /liveness on port 3010 with initial delay 20 and timeout 30 |
| IndexerBuilder.CertsVolumeBacked | controllers/create_indexerdeployment.go:78-123 | The only mount is search-indexer-certs at /sslcert. The pod's volumes are non-empty, and every volume is named search-indexer-certs and is backed by the secret of its own name |
| IndexerApply.CreateIfAbsent | controllers/create_indexerdeployment.go:22-45 | The store is either unchanged or gains exactly the desired deployment under a key that was free, so no object is ever updated. The result is nil exactly when the error is nil. A create is issued exactly when the lookup reports NotFound, and then the create's error is the one returned. A clean success with matching namespaces leaves the deployment stored, unless the read answered with an object from a stale cache |
| IndexerApply.ExistingLeftAlone | controllers/create_indexerdeployment.go:27-44 | If the name is taken in the request's namespace and the lookup works, the step issues no create, leaves the store unchanged and returns nil, nil. This holds even when the stored object differs from the desired one |
| IndexerApply.NotFoundCreates | controllers/create_indexerdeployment.go:32-39 | After a NotFound, a create is issued. A create error comes back with an empty result and nothing stored; this includes the AlreadyExists refusal when the name is already taken, as after a stale NotFound. A successful create stores the desired deployment verbatim and returns nil, nil |
| IndexerApply.LookupErrorPropagated | controllers/create_indexerdeployment.go:40-42 | Any lookup error other than NotFound is returned with an empty result. No create is issued and the store is unchanged |
| IndexerApply.StaleFoundSkipsCreate | controllers/create_indexerdeployment.go:27-44 | A read answered with an object from a stale cache takes the found path, even when the store lacks the object: no create, nothing stored, nil result and nil error |
| IndexerApply.SecondPassIsQuiet | controllers/create_indexerdeployment.go:27-44 | After a successful step whose read did not answer with a stale object, a second step with a working lookup issues no create and changes nothing |
| IndexerApply.LookupNamespaceMismatch | controllers/create_indexerdeployment.go:28-34 | The lookup uses the request's namespace and the create uses the deployment's own namespace. When these differ and only the deployment's key is taken, the step calls create anyway and gets AlreadyExists back |
| IndexerApply.FreshInstallCreatesIndexer | controllers/create_indexerdeployment.go:22-56 | Building the deployment and running the step on a store with no indexer in the instance's namespace stores the built deployment under search-indexer in that namespace and returns nil, nil |
| IndexerApply.RepeatOnPresentIsNoop | controllers/create_indexerdeployment.go:27-44 | Once the deployment is present, any series of steps, for any request namespace and under any client failures, leaves the store unchanged and creates nothing |
| IndexerApply.RepeatCreatesAtMostOnce | controllers/create_indexerdeployment.go:22-45 | For any request namespace and under any client failures, repeating the step creates at most once. The store ends as it began, or with the desired deployment added under a free key |
| IndexerApply.SearchReconciler.Get | controllers/create_indexerdeployment.go:27-31 | The read returns the client's injected answer, or else the stored object or NotFound, and does not change the store |
| IndexerApply.SearchReconciler.Create | controllers/create_indexerdeployment.go:34 | The create either stores the object under a free key or leaves the store unchanged and returns an error |
| IndexerApply.SearchReconciler.CreateIndexerDeployment | controllers/create_indexerdeployment.go:22-45 | The new store and the returned (result, error) pair are those of CreateIfAbsent on the old store. The store is unchanged or gains exactly the desired deployment |

## Left out

- Reading the image from the environment (`INDEXER_IMAGE`) is left out. The image is a parameter of the builder.
- Logging is left out; it has no effect on the results.
- The real cluster client, its context and its deadlines are left out. They are replaced by the map store and the `getFault`/`createFault` inputs.
- The scheme is reduced to an input: the API version it registers for the Search kind, or None when the lookup fails. Setting the controller reference is modelled as appending one owner reference, and only on success.
- `generateLabels`, `newSecretEnvVar`, `newEnvVar` and `getServiceAccountName` are not part of this model.
  - `generateLabels` is modelled as the one-entry map it is called with. The proved label property (selector equals template labels) does not depend on its content.
  - The two env helpers are modelled as the secret-key and literal entries their arguments name.
  - The service account name is a parameter.
- Resource quantities (`20m`, `100Mi`) are kept as strings; quantity parsing and arithmetic are not modelled.
- The scheme registration in `api/v1alpha1/search_types.go` is left out. That file holds only record types, which are in `search_types.dfy`.
- Updating a drifted deployment, HA replica defaults, status and condition handling, and the builders of the other components are not in the modelled code. The model does not invent them.
- The concurrency token and conflict handling are left out, because the step never updates an object.
