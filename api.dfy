/** Resource types of the build service: the CNBBuild custom resource, the
    Knative Build derived from it, and what the metadata retriever returns. */
module Api {

  datatype Option<T> = None | Some(value: T)

  /** A resource identity: namespace and name (the reconcile key "namespace/name"). */
  datatype Key = Key(namespace: string, name: string)

  /** Tri-state status of a condition. */
  datatype ConditionStatus = True | False | Unknown

  /** A Knative duck-typed condition (timestamps and severity are not modelled). */
  datatype Condition = Condition(kind: string, status: ConditionStatus, reason: string, message: string)

  const ConditionSucceeded: string := "Succeeded"

  datatype CnbBuildSpec = CnbBuildSpec(
    image: string,
    serviceAccount: string,
    gitUrl: string,
    gitRevision: string,
    builder: string)

  /** One entry of the CNBBuild's buildpack list: identity and version only. */
  datatype BuildpackMetadata = BuildpackMetadata(id: string, version: string)

  datatype CnbBuildStatus = CnbBuildStatus(
    conditions: seq<Condition>,
    observedGeneration: int,
    sha: string,
    buildMetadata: seq<BuildpackMetadata>)

  /** The CNBBuild resource; `generation` is bumped by its owner on every spec edit. */
  datatype CnbBuild = CnbBuild(key: Key, generation: int, spec: CnbBuildSpec, status: CnbBuildStatus)

  /** A controller owner reference (API version and UID are not modelled). */
  datatype OwnerReference = OwnerReference(kind: string, name: string, controller: bool, blockOwnerDeletion: bool)

  datatype ArgumentSpec = ArgumentSpec(name: string, value: string)
  datatype GitSourceSpec = GitSourceSpec(url: string, revision: string)
  datatype TemplateSpec = TemplateSpec(name: string, arguments: seq<ArgumentSpec>)

  datatype KnBuildSpec = KnBuildSpec(serviceAccountName: string, git: GitSourceSpec, template: TemplateSpec)

  /** The Knative Build; its conditions are written by the build executor. */
  datatype KnBuild = KnBuild(key: Key, ownerReferences: seq<OwnerReference>, spec: KnBuildSpec, conditions: seq<Condition>)

  /** A buildpack entry as decoded from the built image's label; layers are named only. */
  datatype LifecycleBuildpack = LifecycleBuildpack(id: string, version: string, layers: seq<string>)

  /** What the metadata retriever reports about a built image (completion time not modelled). */
  datatype BuiltImage = BuiltImage(sha: string, buildpacks: seq<LifecycleBuildpack>)

  datatype Retrieval = Retrieved(image: BuiltImage) | RetrievalFailed(reason: string)

  /** Result of one reconcile pass: nil or an error returned to the dispatcher. */
  datatype Outcome = Ok | Err(reason: string)
}
