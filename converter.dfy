/** The operator side (controllers/converter.go): how one `Agent` custom resource is
    turned into the ServiceAccount, Role, RoleBinding and StatefulSet that run the
    agent, and how missing spec fields are defaulted first.  Kubernetes quantities,
    affinities and tolerations are carried as opaque values. */
module Converter {
  import opened Wrappers
  import opened Strings

  /** A `resource.Quantity`, kept as the text it was parsed from. */
  datatype Quantity = Quantity(text: string)
  type ResourceList = map<string, Quantity>
  datatype ResourceRequirements = ResourceRequirements(limits: ResourceList, requests: ResourceList)

  /** Where a variable's value comes from when it is not given literally (opaque). */
  datatype EnvVarSource = EnvVarSource(ref: string)
  datatype EnvVar = EnvVar(name: string, value: string, valueFrom: Option<EnvVarSource>)
  datatype Affinity = Affinity(rules: string)
  datatype Toleration = Toleration(key: string, operator: string, value: string, effect: string)

  datatype AgentSpec = AgentSpec(
    image: string,
    env: seq<EnvVar>,
    storageClassName: string,
    storageSize: Quantity,
    labels: map<string, string>,
    volumePath: string,
    resources: Option<ResourceRequirements>,
    affinity: Option<Affinity>,
    annotations: map<string, string>,
    nodeSelector: map<string, string>,
    tolerations: seq<Toleration>)

  datatype Agent = Agent(name: string, namespace: string, spec: AgentSpec)

  /** The controller reference the reconciler's callback attaches to each object. */
  datatype OwnerReference = OwnerReference(kind: string, name: string)

  datatype ObjectMeta = ObjectMeta(
    name: string,
    namespace: string,
    labels: map<string, string>,
    annotations: map<string, string>,
    ownerReferences: seq<OwnerReference>)

  datatype ServiceAccount = ServiceAccount(meta: ObjectMeta)
  datatype PolicyRule = PolicyRule(apiGroups: seq<string>, resources: seq<string>, verbs: seq<string>)
  datatype Role = Role(meta: ObjectMeta, rules: seq<PolicyRule>)
  datatype RoleRef = RoleRef(apiGroup: string, kind: string, name: string)
  datatype Subject = Subject(kind: string, name: string, namespace: string)
  datatype RoleBinding = RoleBinding(meta: ObjectMeta, roleRef: RoleRef, subjects: seq<Subject>)

  datatype PersistentVolumeClaim = PersistentVolumeClaim(
    meta: ObjectMeta,
    storageClassName: string,
    accessModes: seq<string>,
    requests: ResourceList)
  datatype VolumeMount = VolumeMount(name: string, mountPath: string, readOnly: bool)
  datatype Container = Container(
    name: string,
    image: string,
    env: seq<EnvVar>,
    resources: ResourceRequirements,
    imagePullPolicy: string,
    volumeMounts: seq<VolumeMount>)
  datatype PodSpec = PodSpec(
    containers: seq<Container>,
    serviceAccountName: string,
    affinity: Option<Affinity>,
    tolerations: seq<Toleration>,
    nodeSelector: map<string, string>)
  datatype PodTemplate = PodTemplate(meta: ObjectMeta, spec: PodSpec)
  datatype StatefulSet = StatefulSet(
    meta: ObjectMeta,
    replicas: int,
    selector: map<string, string>,
    template: PodTemplate,
    volumeClaimTemplates: seq<PersistentVolumeClaim>)

  datatype AgentResources = AgentResources(
    statefulSet: StatefulSet,
    serviceAccount: ServiceAccount,
    roleBinding: RoleBinding,
    role: Role)

  const NamePrefixText: string := "source-cov-"
  const VolumeName: string := "data"
  const ContainerName: string := "sourcecov-agent"
  const DefaultVolumePath: string := "/jacoco/work"

  /** Every companion object's name starts with `source-cov-<agent>`. */
  function NamePrefix(app: Agent): string
  {
    NamePrefixText + app.name
  }

  function ServiceAccountName(app: Agent): (r: string)
    ensures HasPrefix(r, NamePrefixText) && HasSuffix(r, "-sa")
    ensures |r| == |NamePrefixText| + |app.name| + 3 && r[|NamePrefixText|..|r| - 3] == app.name
  {
    NamePrefix(app) + "-sa"
  }

  function RoleName(app: Agent): (r: string)
    ensures HasPrefix(r, NamePrefixText) && HasSuffix(r, "-role")
    ensures |r| == |NamePrefixText| + |app.name| + 5 && r[|NamePrefixText|..|r| - 5] == app.name
  {
    NamePrefix(app) + "-role"
  }

  function RoleBindingName(app: Agent): (r: string)
    ensures HasPrefix(r, NamePrefixText) && HasSuffix(r, "-rb")
    ensures |r| == |NamePrefixText| + |app.name| + 3 && r[|NamePrefixText|..|r| - 3] == app.name
  {
    NamePrefix(app) + "-rb"
  }

  /** The one-entry label map `agents.<group> -> <agent name>`; `group` is the API
      group of the Agent kind. */
  function Labels(group: string, app: Agent): (r: map<string, string>)
    ensures |r| == 1 && "agents." + group in r && r["agents." + group] == app.name
  {
    map["agents." + group := app.name]
  }

  /** Within one agent the three companion names are pairwise distinct, and each
      determines the agent's name, so two agents of a namespace never share one. */
  lemma CompanionNamesDistinct(app: Agent, other: Agent)
    ensures ServiceAccountName(app) != RoleName(app)
    ensures ServiceAccountName(app) != RoleBindingName(app)
    ensures RoleName(app) != RoleBindingName(app)
    ensures ServiceAccountName(app) == ServiceAccountName(other) ==> app.name == other.name
    ensures RoleName(app) == RoleName(other) ==> app.name == other.name
    ensures RoleBindingName(app) == RoleBindingName(other) ==> app.name == other.name
  {
  }

  function ConvertServiceAccount(app: Agent, owner: OwnerReference): (r: ServiceAccount)
    ensures r.meta.name == ServiceAccountName(app) && r.meta.namespace == app.namespace
    ensures r.meta.labels == map[] && r.meta.ownerReferences == [owner]
  {
    ServiceAccount(ObjectMeta(ServiceAccountName(app), app.namespace, map[], map[], [owner]))
  }

  /** Read access to deployments, statefulsets and pods, and the right to exec into pods. */
  const AgentRules: seq<PolicyRule> := [
    PolicyRule(["apps"], ["deployments"], ["get", "watch", "list"]),
    PolicyRule(["apps"], ["statefulsets"], ["get", "watch", "list"]),
    PolicyRule([""], ["pods"], ["get", "watch", "list"]),
    PolicyRule([""], ["pods/exec"], ["create"])
  ]

  function ConvertRole(group: string, app: Agent, owner: OwnerReference): (r: Role)
    ensures r.meta.name == RoleName(app) && r.meta.namespace == app.namespace
    ensures r.meta.labels == Labels(group, app) && r.meta.ownerReferences == [owner]
    ensures r.rules == AgentRules
  {
    Role(ObjectMeta(RoleName(app), app.namespace, Labels(group, app), map[], [owner]), AgentRules)
  }

  function ConvertRoleBinding(group: string, app: Agent, owner: OwnerReference): (r: RoleBinding)
    ensures r.meta.name == RoleBindingName(app) && r.meta.namespace == app.namespace
    ensures r.meta.labels == Labels(group, app) && r.meta.ownerReferences == [owner]
    ensures r.roleRef == RoleRef("rbac.authorization.k8s.io", "Role", RoleName(app))
    ensures r.subjects == [Subject("ServiceAccount", ServiceAccountName(app), "")]
  {
    RoleBinding(
      ObjectMeta(RoleBindingName(app), app.namespace, Labels(group, app), map[], [owner]),
      RoleRef("rbac.authorization.k8s.io", "Role", RoleName(app)),
      [Subject("ServiceAccount", ServiceAccountName(app), "")])
  }

  /** The environment as the container receives it: names and literal values only. */
  function CopyEnv(env: seq<EnvVar>): (r: seq<EnvVar>)
  {
    seq(|env|, i requires 0 <= i < |env| => EnvVar(env[i].name, env[i].value, None))
  }

  /** The single agent container; the caller must have filled in `Resources`. */
  function AgentContainer(app: Agent): Container
    requires app.spec.resources.Some?
  {
    Container(ContainerName, app.spec.image, CopyEnv(app.spec.env), app.spec.resources.value,
      "IfNotPresent", [VolumeMount(VolumeName, app.spec.volumePath, false)])
  }

  /** The container list of the agent's pod, building the environment entry by entry.
      A nil `Resources` would make the source dereference nil, so it is required. */
  method NewContainers(app: Agent) returns (cs: seq<Container>)
    requires app.spec.resources.Some?
    ensures cs == [AgentContainer(app)]
    ensures |cs| == 1 && cs[0].name == ContainerName && cs[0].image == app.spec.image
    ensures |cs[0].env| == |app.spec.env|
    ensures forall i :: 0 <= i < |app.spec.env| ==>
      cs[0].env[i].name == app.spec.env[i].name && cs[0].env[i].value == app.spec.env[i].value
      && cs[0].env[i].valueFrom.None?
    ensures cs[0].resources == app.spec.resources.value && cs[0].imagePullPolicy == "IfNotPresent"
    ensures cs[0].volumeMounts == [VolumeMount(VolumeName, app.spec.volumePath, false)]
  {
    var envs: seq<EnvVar> := [];
    var i := 0;
    while i < |app.spec.env|
      invariant 0 <= i <= |app.spec.env|
      invariant |envs| == i
      invariant forall j :: 0 <= j < i ==>
        envs[j] == EnvVar(app.spec.env[j].name, app.spec.env[j].value, None)
    {
      var e := app.spec.env[i];
      envs := envs + [EnvVar(e.name, e.value, None)];
      i := i + 1;
    }
    assert envs == CopyEnv(app.spec.env);
    var mounts := [VolumeMount(VolumeName, app.spec.volumePath, false)];
    cs := [Container(ContainerName, app.spec.image, envs, app.spec.resources.value,
      "IfNotPresent", mounts)];
  }

  function ConvertSts(group: string, app: Agent, owner: OwnerReference): (r: StatefulSet)
    requires app.spec.resources.Some?
    ensures r.meta.name == app.name && r.meta.namespace == app.namespace
    ensures r.meta.labels == r.selector == r.template.meta.labels == Labels(group, app)
    ensures r.meta.ownerReferences == [owner]
    ensures r.replicas == 1
    ensures r.template.meta.annotations == app.spec.annotations
    ensures r.template.spec.containers == [AgentContainer(app)]
    ensures r.template.spec.serviceAccountName == ServiceAccountName(app)
    ensures r.template.spec.affinity == app.spec.affinity
    ensures r.template.spec.tolerations == app.spec.tolerations
    ensures r.template.spec.nodeSelector == app.spec.nodeSelector
    ensures |r.volumeClaimTemplates| == 1
    ensures r.volumeClaimTemplates[0].meta.name == VolumeName
    ensures r.volumeClaimTemplates[0].storageClassName == app.spec.storageClassName
    ensures r.volumeClaimTemplates[0].accessModes == ["ReadWriteOnce"]
    ensures r.volumeClaimTemplates[0].requests == map["storage" := app.spec.storageSize]
  {
    var labels := Labels(group, app);
    var claim := PersistentVolumeClaim(ObjectMeta(VolumeName, "", map[], map[], []),
      app.spec.storageClassName, ["ReadWriteOnce"], map["storage" := app.spec.storageSize]);
    var pod := PodSpec([AgentContainer(app)], NamePrefix(app) + "-sa", app.spec.affinity,
      app.spec.tolerations, app.spec.nodeSelector);
    StatefulSet(ObjectMeta(app.name, app.namespace, labels, map[], [owner]), 1, labels,
      PodTemplate(ObjectMeta("", "", labels, app.spec.annotations, []), pod), [claim])
  }

  /** All four objects for one agent, each handed the same controller reference. */
  function ConvertAgent(group: string, app: Agent, owner: OwnerReference): (r: AgentResources)
    requires app.spec.resources.Some?
    // The binding grants exactly the generated Role to exactly the generated account,
    // which is the account the agent's pods run as.
    ensures r.roleBinding.roleRef.kind == "Role" && r.roleBinding.roleRef.name == r.role.meta.name
    ensures |r.roleBinding.subjects| == 1
    ensures r.roleBinding.subjects[0].kind == "ServiceAccount"
    ensures r.roleBinding.subjects[0].name == r.serviceAccount.meta.name
    ensures r.statefulSet.template.spec.serviceAccountName == r.serviceAccount.meta.name
    // One namespace and one label set for everything.
    ensures r.serviceAccount.meta.namespace == r.role.meta.namespace == app.namespace
    ensures r.roleBinding.meta.namespace == r.statefulSet.meta.namespace == app.namespace
    ensures r.role.meta.labels == r.roleBinding.meta.labels == Labels(group, app)
    ensures r.statefulSet.meta.labels == r.statefulSet.selector == Labels(group, app)
    ensures r.statefulSet.template.meta.labels == Labels(group, app)
    // The selector picks the pods of the template.
    ensures forall k :: k in r.statefulSet.selector ==>
      k in r.statefulSet.template.meta.labels
      && r.statefulSet.template.meta.labels[k] == r.statefulSet.selector[k]
    // One replica, whose only container mounts the only claim template.
    ensures r.statefulSet.replicas == 1 && |r.statefulSet.volumeClaimTemplates| == 1
    ensures |r.statefulSet.template.spec.containers| == 1
    ensures r.statefulSet.template.spec.containers[0].volumeMounts
      == [VolumeMount(r.statefulSet.volumeClaimTemplates[0].meta.name, app.spec.volumePath, false)]
    ensures r.serviceAccount.meta.ownerReferences == r.role.meta.ownerReferences == [owner]
    ensures r.roleBinding.meta.ownerReferences == r.statefulSet.meta.ownerReferences == [owner]
  {
    AgentResources(ConvertSts(group, app, owner), ConvertServiceAccount(app, owner),
      ConvertRoleBinding(group, app, owner), ConvertRole(group, app, owner))
  }

  /** Two CPUs and four GiB of memory, as both limit and request. */
  const DefaultResources: ResourceRequirements :=
    ResourceRequirements(
      map["cpu" := Quantity("2"), "memory" := Quantity("4Gi")],
      map["cpu" := Quantity("2"), "memory" := Quantity("4Gi")])

  /** A copy of the agent with an empty volume path and a missing resource block
      defaulted; the argument, being a value, is left as it was. */
  function FillDefaultValue(origin: Agent): (r: Agent)
    ensures r.name == origin.name && r.namespace == origin.namespace
    ensures r.spec.volumePath == (if origin.spec.volumePath == "" then DefaultVolumePath
                                  else origin.spec.volumePath)
    ensures r.spec.resources == (if origin.spec.resources.None? then Some(DefaultResources)
                                 else origin.spec.resources)
    ensures r.spec.(volumePath := origin.spec.volumePath, resources := origin.spec.resources)
      == origin.spec
    // What makes the defaults stick: both defaulted fields end up set.
    ensures r.spec.volumePath != "" && r.spec.resources.Some?
  {
    var withPath :=
      if origin.spec.volumePath == "" then origin.(spec := origin.spec.(volumePath := DefaultVolumePath))
      else origin;
    if withPath.spec.resources.None? then withPath.(spec := withPath.spec.(resources := Some(DefaultResources)))
    else withPath
  }

  /** Defaulting twice is defaulting once. */
  lemma FillDefaultValueIdempotent(a: Agent)
    ensures FillDefaultValue(FillDefaultValue(a)) == FillDefaultValue(a)
  {
  }

  /** A defaulted agent can always be converted (its `Resources` is never nil). */
  lemma DefaultedAgentConverts(group: string, a: Agent, owner: OwnerReference)
    ensures FillDefaultValue(a).spec.resources.Some?
    ensures ConvertAgent(group, FillDefaultValue(a), owner).statefulSet.template.spec.containers[0].volumeMounts[0].mountPath != ""
  {
  }
}
