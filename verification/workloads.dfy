/**
 * The part of the cluster's workload API (apps/v1 Deployment and the core/v1 pod
 * template pieces it holds) that the indexer builder fills in, with the structural
 * predicates a well-formed deployment satisfies.
 */
module Workloads {
  import opened Wrappers

  /** The API's 32-bit signed integer fields (replicas, probe timings, ports). */
  newtype int32 = x: int | -0x8000_0000 <= x < 0x8000_0000

  /** An owner reference: the link garbage collection follows from a child to its owner. */
  datatype OwnerReference = OwnerReference(
    apiVersion: string,
    kind: string,
    name: string,
    uid: string,
    controller: bool,
    blockOwnerDeletion: bool)

  datatype ObjectMeta = ObjectMeta(
    name: string,
    namespace: string,
    labels: map<string, string>,
    ownerReferences: seq<OwnerReference>)

  /** An environment variable: a literal value, or one key of a named secret. */
  datatype EnvVar =
    | Literal(name: string, value: string)
    | SecretKeyRef(name: string, secretName: string, key: string)

  datatype VolumeMount = VolumeMount(name: string, mountPath: string)

  /** A pod volume; the only source the model needs is a secret. */
  datatype Volume = SecretVolume(name: string, secretName: string)

  datatype URIScheme = HTTP | HTTPS

  /** A probe whose handler is an HTTP GET. */
  datatype Probe = HttpGetProbe(
    initialDelaySeconds: int32,
    timeoutSeconds: int32,
    port: int32,
    path: string,
    scheme: URIScheme)

  datatype Container = Container(
    name: string,
    image: string,
    env: seq<EnvVar>,
    volumeMounts: seq<VolumeMount>,
    requests: map<string, string>,
    readinessProbe: Option<Probe>,
    livenessProbe: Option<Probe>)

  datatype PodSpec = PodSpec(containers: seq<Container>, volumes: seq<Volume>, serviceAccountName: string)

  datatype PodTemplateSpec = PodTemplateSpec(meta: ObjectMeta, spec: PodSpec)

  datatype LabelSelector = LabelSelector(matchLabels: map<string, string>)

  datatype DeploymentSpec = DeploymentSpec(
    replicas: Option<int32>,
    selector: Option<LabelSelector>,
    template: PodTemplateSpec)

  datatype Deployment = Deployment(meta: ObjectMeta, spec: DeploymentSpec)

  /** The deployment selects exactly the pods its template stamps out. */
  predicate SelectorMatchesTemplate(d: Deployment) {
    d.spec.selector.Some? && d.spec.selector.value.matchLabels == d.spec.template.meta.labels
  }

  /** Every volume mount of every container names a volume the pod declares. */
  predicate MountsBacked(p: PodSpec) {
    forall c, m :: c in p.containers && m in c.volumeMounts ==>
      exists v :: v in p.volumes && v.name == m.name
  }

  /** The first environment entry called `name`, if any. */
  function FindEnv(env: seq<EnvVar>, name: string): (r: Option<EnvVar>)
    ensures r.Some? ==> r.value in env && r.value.name == name
    ensures r.None? <==> forall e :: e in env ==> e.name != name
  {
    if env == [] then None
    else if env[0].name == name then Some(env[0])
    else FindEnv(env[1..], name)
  }

  /** What FindEnv finds is the first entry with that name. */
  lemma {:induction false} FindEnvFirst(env: seq<EnvVar>, name: string)
    requires FindEnv(env, name).Some?
    ensures exists i :: 0 <= i < |env| && env[i] == FindEnv(env, name).value
                        && forall j :: 0 <= j < i ==> env[j].name != name
  {
    if env[0].name != name {
      FindEnvFirst(env[1..], name);
      var i :| 0 <= i < |env[1..]| && env[1..][i] == FindEnv(env[1..], name).value
               && forall j :: 0 <= j < i ==> env[1..][j].name != name;
      assert env[i + 1] == FindEnv(env, name).value;
      forall j | 0 <= j < i + 1 ensures env[j].name != name {
        if j > 0 { assert env[j] == env[1..][j - 1]; }
      }
    } else {
      assert env[0] == FindEnv(env, name).value;
    }
  }
}
