/**
 * The indexer workload builder: maps the owning Search resource and the indexer image
 * to the one Deployment the operator wants for the search indexer. Pure: it never
 * contacts the cluster and never fails.
 */
module IndexerBuilder {
  import opened Wrappers
  import opened SearchTypes
  import opened Workloads

  /** The fixed name of the indexer deployment and of its one container. */
  const IndexerName := "search-indexer"
  /** The secret holding the database user, password and database name. */
  const PostgresSecret := "search-postgres"
  /** The secret holding the indexer's TLS material, and the volume that carries it. */
  const CertsName := "search-indexer-certs"
  const CertsMountPath := "/sslcert"
  /** The port the indexer serves its health checks on. */
  const IndexerPort: int32 := 3010

  /** The label map for a component; its real definition is not part of this model. */
  function GenerateLabels(key: string, value: string): map<string, string> {
    map[key := value]
  }

  function NewSecretEnvVar(name: string, key: string, secretName: string): EnvVar {
    SecretKeyRef(name, secretName, key)
  }

  function NewEnvVar(name: string, value: string): EnvVar {
    Literal(name, value)
  }

  /** The controller reference that links a child to its owning Search resource. */
  function ControllerReference(owner: Search, apiVersion: string): OwnerReference {
    OwnerReference(apiVersion, "Search", owner.meta.name, owner.meta.uid, true, true)
  }

  /**
   * Links `d` to `owner`. `scheme` is the API version the scheme registers for the
   * Search kind, None when the lookup fails; on failure `d` is returned as it was.
   */
  function SetControllerReference(owner: Search, d: Deployment, scheme: Option<string>): Deployment {
    match scheme
    case None => d
    case Some(apiVersion) =>
      d.(meta := d.meta.(ownerReferences := d.meta.ownerReferences + [ControllerReference(owner, apiVersion)]))
  }

  /** The cluster-local host name of the database service in namespace `ns`. */
  function DatabaseHost(ns: string): string {
    "search-postgres." + ns + ".svc"
  }

  function IndexerContainer(ns: string, image: string): Container {
    Container(
      IndexerName,
      image,
      [ NewSecretEnvVar("DB_USER", "database-user", PostgresSecret),
        NewSecretEnvVar("DB_PASS", "database-password", PostgresSecret),
        NewSecretEnvVar("DB_NAME", "database-name", PostgresSecret),
        NewEnvVar("DB_HOST", DatabaseHost(ns)) ],
      [VolumeMount(CertsName, CertsMountPath)],
      map["cpu" := "20m", "memory" := "100Mi"],
      Some(HttpGetProbe(15, 30, IndexerPort, "/readiness", HTTPS)),
      Some(HttpGetProbe(20, 30, IndexerPort, "/liveness", HTTPS)))
  }

  /**
   * The desired indexer deployment for `instance`. `image` stands for the indexer image
   * taken from the environment, `serviceAccount` for the operator's service account name,
   * `scheme` for the outcome of the scheme lookup that setting the owner needs.
   * Whatever the spec holds, the result is named search-indexer, lives in the
   * instance's namespace, runs one replica of one container, selects its own pods and
   * mounts only volumes it declares; the owner link is present exactly when it could be set.
   */
  function IndexerDeployment(instance: Search, image: string, serviceAccount: string, scheme: Option<string>)
    : (d: Deployment)
    ensures d.meta.name == IndexerName && d.meta.namespace == instance.meta.namespace
    ensures d.spec.replicas == Some(1)
    ensures SelectorMatchesTemplate(d)
    ensures MountsBacked(d.spec.template.spec)
    ensures |d.spec.template.spec.containers| == 1
    ensures d.spec.template.spec.containers[0].name == IndexerName
    ensures d.spec.template.spec.containers[0].image == image
    ensures d.spec.template.spec.serviceAccountName == serviceAccount
    ensures d.meta.ownerReferences == if scheme.Some? then [ControllerReference(instance, scheme.value)] else []
  {
    var labels := GenerateLabels("name", IndexerName);
    var pod := PodSpec([IndexerContainer(instance.meta.namespace, image)],
                       [SecretVolume(CertsName, CertsName)],
                       serviceAccount);
    var deployment := Deployment(
      ObjectMeta(IndexerName, instance.meta.namespace, map[], []),
      DeploymentSpec(Some(1), Some(LabelSelector(labels)), PodTemplateSpec(ObjectMeta("", "", labels, []), pod)));
    SetControllerReference(instance, deployment, scheme)
  }

  /** The deployment with its owner links removed. */
  function Unowned(d: Deployment): Deployment {
    d.(meta := d.meta.(ownerReferences := []))
  }

  /** The spec and status of the instance (replica count, HA flag, overrides) play no part. */
  lemma SpecIgnored(i1: Search, i2: Search, image: string, serviceAccount: string, scheme: Option<string>)
    requires i1.meta == i2.meta
    ensures IndexerDeployment(i1, image, serviceAccount, scheme) == IndexerDeployment(i2, image, serviceAccount, scheme)
  {
  }

  /** Apart from the owner link, the instance matters only through its namespace. */
  lemma OnlyNamespaceMatters(i1: Search, i2: Search, image: string, serviceAccount: string, scheme: Option<string>)
    requires i1.meta.namespace == i2.meta.namespace
    ensures Unowned(IndexerDeployment(i1, image, serviceAccount, scheme))
         == Unowned(IndexerDeployment(i2, image, serviceAccount, None))
  {
  }

  /** The database credentials come from the search-postgres secret; the host is the namespaced service. */
  lemma IndexerEnv(instance: Search, image: string, serviceAccount: string, scheme: Option<string>)
    ensures var env := IndexerDeployment(instance, image, serviceAccount, scheme).spec.template.spec.containers[0].env;
      && |env| == 4
      && FindEnv(env, "DB_USER") == Some(SecretKeyRef("DB_USER", PostgresSecret, "database-user"))
      && FindEnv(env, "DB_PASS") == Some(SecretKeyRef("DB_PASS", PostgresSecret, "database-password"))
      && FindEnv(env, "DB_NAME") == Some(SecretKeyRef("DB_NAME", PostgresSecret, "database-name"))
      && FindEnv(env, "DB_HOST") == Some(Literal("DB_HOST", "search-postgres." + instance.meta.namespace + ".svc"))
  {
    var ns := instance.meta.namespace;
    assert IndexerDeployment(instance, image, serviceAccount, scheme).spec.template.spec.containers[0]
        == IndexerContainer(ns, image);
    ContainerEnv(ns, image);
  }

  /** The environment of the indexer container built for namespace `ns`. */
  lemma ContainerEnv(ns: string, image: string)
    ensures var env := IndexerContainer(ns, image).env;
      && |env| == 4
      && FindEnv(env, "DB_USER") == Some(SecretKeyRef("DB_USER", PostgresSecret, "database-user"))
      && FindEnv(env, "DB_PASS") == Some(SecretKeyRef("DB_PASS", PostgresSecret, "database-password"))
      && FindEnv(env, "DB_NAME") == Some(SecretKeyRef("DB_NAME", PostgresSecret, "database-name"))
      && FindEnv(env, "DB_HOST") == Some(Literal("DB_HOST", "search-postgres." + ns + ".svc"))
  {
    var env := IndexerContainer(ns, image).env;
    assert "DB_USER"[3] == 'U' && "DB_PASS"[3] == 'P' && "DB_NAME"[3] == 'N' && "DB_HOST"[3] == 'H';
    assert FindEnv(env[3..], "DB_HOST") == Some(env[3]);
    assert FindEnv(env[2..], "DB_NAME") == Some(env[2]);
    assert FindEnv(env[2..], "DB_HOST") == FindEnv(env[3..], "DB_HOST");
    assert FindEnv(env[1..], "DB_PASS") == Some(env[1]);
  }

  /** Both health checks are HTTPS GETs on port 3010 with their own paths and timings. */
  lemma IndexerProbes(instance: Search, image: string, serviceAccount: string, scheme: Option<string>)
    ensures var c := IndexerDeployment(instance, image, serviceAccount, scheme).spec.template.spec.containers[0];
      && c.readinessProbe == Some(HttpGetProbe(15, 30, 3010, "/readiness", HTTPS))
      && c.livenessProbe == Some(HttpGetProbe(20, 30, 3010, "/liveness", HTTPS))
  {
  }

  /** The certificate mount at /sslcert is backed by a volume of the same name drawn from the same-named secret. */
  lemma CertsVolumeBacked(instance: Search, image: string, serviceAccount: string, scheme: Option<string>)
    ensures var pod := IndexerDeployment(instance, image, serviceAccount, scheme).spec.template.spec;
      && pod.containers[0].volumeMounts == [VolumeMount(CertsName, CertsMountPath)]
      && (forall v :: v in pod.volumes ==> v.name == CertsName && v.secretName == v.name)
      && (exists v :: v in pod.volumes)
  {
  }
}
