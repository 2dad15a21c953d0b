/**
 * The Search custom resource (api/v1alpha1/search_types.go): the owning entity whose
 * namespace the indexer deployment lives in. These are record types only; the operator
 * code in this model reads nothing but the metadata.
 */
module SearchTypes {
  import opened Wrappers

  /** A compute resource list, quantities kept as their textual form ("20m", "100Mi"). */
  type ResourceList = map<string, string>

  datatype ResourceRequirements = ResourceRequirements(limits: ResourceList, requests: ResourceList)

  /** Per-component deployment customisation. */
  datatype DeploymentConfig = DeploymentConfig(
    replicaCount: int,
    resources: Option<ResourceRequirements>,
    imageOverride: string,
    imagePullSecret: string,
    imagePullPolicy: string,
    nodeSelector: map<string, string>,
    proxyConfig: map<string, string>)

  datatype SearchDeployments = SearchDeployments(
    database: DeploymentConfig,
    indexer: DeploymentConfig,
    collector: DeploymentConfig,
    api: DeploymentConfig,
    remoteCollector: DeploymentConfig)

  datatype StorageSpec = StorageSpec(storageClassName: string, size: Option<string>)

  datatype FilterSpec = FilterSpec(
    allowedResources: map<string, seq<string>>,
    deniedResources: map<string, seq<string>>)

  datatype SearchSpec = SearchSpec(
    customDbConfig: string,
    dbStorage: StorageSpec,
    dbConfig: string,
    deployments: SearchDeployments,
    enableHA: bool,
    allowDenyResources: FilterSpec)

  datatype ConditionStatus = True | False | Unknown

  datatype SearchCondition = SearchCondition(
    conditionType: string,
    status: ConditionStatus,
    lastTransitionTime: int,
    reason: string,
    message: string)

  datatype SearchStatus = SearchStatus(
    searchHealth: string,
    dbInUse: string,
    storageInUse: string,
    conditions: seq<SearchCondition>)

  /** The identity part of the resource's object metadata. */
  datatype SearchMeta = SearchMeta(name: string, namespace: string, uid: string)

  datatype Search = Search(meta: SearchMeta, spec: SearchSpec, status: SearchStatus)
}
