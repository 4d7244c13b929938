# CNBBuild reconciler

A model of the reconcile step of the build service's CNBBuild controller. A
CNBBuild resource names an image, a builder, a service account and a git
source. The controller keeps it consistent with the Knative Build derived from
it:

- it creates the Build once, when none exists for the CNBBuild's key;
- on every pass it copies the Build's conditions onto the CNBBuild;
- once the Build has succeeded, it asks the metadata retriever for the built
  image's digest and buildpacks. It stops asking once the retriever answers with
  at least one buildpack, and a failed call is retried on the next pass;
- it records the generation it has observed.

The reconciler's own source is not part of this model. Its behaviour comes from
its test suite, `pkg/reconciler/v1alpha1/cnbbuild/cnbbuild_test.go`.

Layout:

- `api.dfy` (`Api`): the resources as datatypes. These are the CNBBuild, the
  Knative Build, conditions, owner references, template arguments, the
  retriever's `BuiltImage` and the pass `Outcome`.
- `conditions.dfy` (`Conditions`): condition lookup. The first condition of a
  type wins, and a missing Succeeded condition is not True.
- `derive.dfy` (`Derive`): the Build built from a CNBBuild. This is a pure
  function. Its partner `SpecOf` reads the spec back out of the Build.
- `metadata.dfy` (`Metadata`): the projection of the retriever's buildpacks to
  (id, version).
- `reconciliation.dfy` (`Reconciliation`): one pass as a function `Reconciled`
  over both stores and the record of retriever calls. The properties of a pass,
  and of repeated passes, are proved about it.
- `controller.dfy` (`Controller`): the stateful side. It has the two stores as
  classes over maps, the retriever as an oracle function with a record of its
  calls, and `Reconciler.Reconcile`. `Reconcile` is proved to perform exactly
  the pass `Reconciled` describes.
- `scenarios.dfy` (`Scenarios`): client methods. They drive the classes through
  the test suite's situations and check the expected stores with assertions.

The check that decides whether metadata is needed looks at the length of the
buildpack list, not at the digest. The test at lines 308-360 relies on this: it
stores an empty digest and still expects a single call. So if the retriever
answers with an empty buildpack list, the key never settles. The next pass calls
the retriever again and overwrites the digest. `MetadataFetchedAtMostOnce`
therefore assumes the retriever always returns at least one buildpack.
`EmptyAnswerIsFetchedAgain` shows the case this excludes: two passes make two
calls.

## Model

| member | source | states |
|---|---|---|
| `Derive.ControllerRef` | pkg/reconciler/v1alpha1/cnbbuild/cnbbuild_test.go:104-106 | the owner reference is a controller reference of kind CNBBuild naming the CNBBuild, with block-owner-deletion set |
| `Derive.DeriveBuild` | pkg/reconciler/v1alpha1/cnbbuild/cnbbuild_test.go:100-124 | the Build has the CNBBuild's name and namespace, a single controller owner reference, no conditions, template `buildpacks-cnb`, and a spec from which the CNBBuild's spec is read back unchanged |
| `Derive.DerivedBuildSpecLayout` | pkg/reconciler/v1alpha1/cnbbuild/cnbbuild_test.go:108-123 | service account and git URL/revision come from the spec; the template arguments are exactly IMAGE then BUILDER_IMAGE with the image and builder |
| `Derive.DeriveBuildInjective` | pkg/reconciler/v1alpha1/cnbbuild/cnbbuild_test.go:100-124 | two CNBBuilds get the same Build if and only if they have the same identity and spec |
| `Conditions.FindCondition` | pkg/reconciler/v1alpha1/cnbbuild/cnbbuild_test.go:168-175 | finds a condition of the given type if and only if one exists, and returns the first such one |
| `Conditions.SucceededIsTrueIff` | pkg/reconciler/v1alpha1/cnbbuild/cnbbuild_test.go:243-250 | Succeeded counts as True exactly when the first Succeeded condition has status True |
| `Metadata.ProjectMetadata` | pkg/reconciler/v1alpha1/cnbbuild/cnbbuild_test.go:227-267 | the stored list has one entry per returned buildpack, in order, with its id and version |
| `Metadata.ProjectMetadataIgnoresLayers` | pkg/reconciler/v1alpha1/cnbbuild/cnbbuild_test.go:230-234 | two buildpack lists project to the same metadata if and only if they agree on every id and version (layers are dropped) |
| `Reconciliation.DeletedKeyIsNoop` | pkg/reconciler/v1alpha1/cnbbuild/cnbbuild_test.go:363-371 | reconciling a key whose CNBBuild is gone returns no error and changes nothing |
| `Reconciliation.DerivedBuildCreatedOnce` | pkg/reconciler/v1alpha1/cnbbuild/cnbbuild_test.go:128-156 | the Build is created from the current CNBBuild exactly when absent; an existing Build is never changed, whatever the spec is now |
| `Reconciliation.ConditionsMirrored` | pkg/reconciler/v1alpha1/cnbbuild/cnbbuild_test.go:158-195 | after a successful pass the CNBBuild's conditions equal the Build's conditions |
| `Reconciliation.ObservedGenerationTracked` | pkg/reconciler/v1alpha1/cnbbuild/cnbbuild_test.go:197-220 | after a successful pass observedGeneration equals the generation; identity, generation and spec are untouched |
| `Reconciliation.RetrieverCalledOnlyWhenNeeded` | pkg/reconciler/v1alpha1/cnbbuild/cnbbuild_test.go:257-271 | the retriever is called once, with the CNBBuild carrying the copied conditions, if and only if Succeeded is True and the metadata list is empty; otherwise not at all |
| `Reconciliation.MetadataRecorded` | pkg/reconciler/v1alpha1/cnbbuild/cnbbuild_test.go:222-272 | when the retriever is called, the pass succeeds if and only if it answers; then the digest is its SHA and the metadata its projected buildpacks |
| `Reconciliation.MetadataNeverOverwritten` | pkg/reconciler/v1alpha1/cnbbuild/cnbbuild_test.go:308-360 | with a non-empty metadata list the pass succeeds, calls nobody and keeps digest and metadata |
| `Reconciliation.UnsucceededBuildGetsNoMetadata` | pkg/reconciler/v1alpha1/cnbbuild/cnbbuild_test.go:274-306 | when Succeeded is not True the pass succeeds, calls nobody and keeps digest and metadata |
| `Reconciliation.RetrievalFailureLeavesStatus` | pkg/reconciler/v1alpha1/cnbbuild/cnbbuild_test.go:236 | a failing retriever fails the pass after one call, leaving digest, metadata and observedGeneration as they were |
| `Reconciliation.OtherKeysUntouched` | pkg/reconciler/v1alpha1/cnbbuild/cnbbuild_test.go:68-70 | a pass changes no other key in either store, deletes nothing and only appends to the call record |
| `Reconciliation.WellFormedPreserved` | pkg/reconciler/v1alpha1/cnbbuild/cnbbuild_test.go:100-103 | every stored object stays under its own namespace/name after a pass |
| `Reconciliation.SettledPassIsIdempotent` | pkg/reconciler/v1alpha1/cnbbuild/cnbbuild_test.go:341-359 | once a pass succeeds and leaves nothing to fetch, the next pass changes nothing |
| `Reconciliation.SuccessfulPassSettles` | pkg/reconciler/v1alpha1/cnbbuild/cnbbuild_test.go:308-341 | if the retriever always returns some buildpacks, every pass succeeds and leaves nothing to fetch |
| `Reconciliation.SettledStaysSettled` | pkg/reconciler/v1alpha1/cnbbuild/cnbbuild_test.go:344-359 | any number of passes over a settled key leave the stores and the call record unchanged |
| `Reconciliation.MetadataFetchedAtMostOnce` | pkg/reconciler/v1alpha1/cnbbuild/cnbbuild_test.go:308-360 | if the retriever always answers with at least one buildpack, any number of passes call it at most once, and never when Succeeded is not True |
| `Reconciliation.UnsucceededBuildNeverGetsMetadata` | pkg/reconciler/v1alpha1/cnbbuild/cnbbuild_test.go:274-306 | for any retriever, any number of passes over a build whose Succeeded is not True call nobody and keep digest and metadata |
| `Reconciliation.EmptyAnswerIsFetchedAgain` | pkg/reconciler/v1alpha1/cnbbuild/cnbbuild_test.go:351-359 | the guard is the list length: if the retriever answers with no buildpacks, two passes make two calls |
| `Controller.Reconciler.constructor` | pkg/reconciler/v1alpha1/cnbbuild/cnbbuild_test.go:46-56 | holds the two stores and the retriever it is given, and is valid when the stores keep each object under its own key |
| `Controller.Reconciler.Reconcile` | pkg/reconciler/v1alpha1/cnbbuild/cnbbuild_test.go:46-56 | the stores and call record after `Reconcile(key)`, and its result, are exactly those of `Reconciled`; stores stay well-formed |
| `Controller.MetadataRetriever.GetBuiltImage` | pkg/reconciler/v1alpha1/cnbbuild/cnbbuild_test.go:236 | returns the oracle's answer for the argument and appends the argument to the call record |
| `Controller.CnbBuildStore.Get` | pkg/reconciler/v1alpha1/cnbbuild/cnbbuild_test.go:184-185 | returns the stored CNBBuild, or none if and only if the key is absent |
| `Controller.CnbBuildStore.Create` | pkg/reconciler/v1alpha1/cnbbuild/cnbbuild_test.go:88-89 | adds the object if and only if its key is free; otherwise fails and changes nothing |
| `Controller.CnbBuildStore.Update` | pkg/reconciler/v1alpha1/cnbbuild/cnbbuild_test.go:133-145 | replaces the whole object if and only if it exists; otherwise fails and changes nothing |
| `Controller.CnbBuildStore.UpdateStatus` | pkg/reconciler/v1alpha1/cnbbuild/cnbbuild_test.go:184-187 | replaces only the status of an existing object; otherwise fails and changes nothing |
| `Controller.CnbBuildStore.Delete` | pkg/reconciler/v1alpha1/cnbbuild/cnbbuild_test.go:365-366 | removes the key; succeeds if and only if it was present |
| `Controller.KnBuildStore.Get` | pkg/reconciler/v1alpha1/cnbbuild/cnbbuild_test.go:97-98 | returns the stored Build, or none if and only if the key is absent |
| `Controller.KnBuildStore.Create` | pkg/reconciler/v1alpha1/cnbbuild/cnbbuild_test.go:97-98 | adds the Build if and only if its key is free; otherwise fails and changes nothing |
| `Controller.KnBuildStore.UpdateStatus` | pkg/reconciler/v1alpha1/cnbbuild/cnbbuild_test.go:162-179 | replaces the conditions of an existing Build; otherwise fails and changes nothing |

## Left out

- `pkg/registry/image_factory.go` is not modelled:
  - `ImageFactory.NewRemote` wraps a foreign registry call, `imgutil.NewRemoteImage`, with a keychain.
  - `RemoteImage`, `KeychainFactory`, `ImageRef` and `RemoteImageFactory` are interfaces only.
  - `noAuthImageRef` returns its repository name and two empty strings.
- The metadata retriever is an oracle function of its argument, which the source calls `MetadataRetriever.GetBuiltImage`. Registry access, credential lookup and the JSON decoding of the buildpack label are external. `CompletedAt` and buildpack layer contents are not modelled, and layers are names only.
- Informers, listers, cache synchronisation and work-queue dispatch are left out. So are `context.Context` and the parsing of the `"namespace/name"` key string. `Reconcile` takes a `Key`, so an unparseable key is not modelled.
- The stores fail only with NotFound and AlreadyExists. Update conflicts and transport errors are not modelled. `Reconcile` does not branch on the Build creation result, because it has just seen the key absent.
- Reconciliation.MetadataFetchedAtMostOnce: holds only for a retriever that always answers with at least one buildpack. A failed call is retried, and an empty answer leaves the list empty, so both are asked again (`EmptyAnswerIsFetchedAgain`). The retriever is a fixed function, so a retriever that fails and later succeeds is not expressed.
- Reconciliation.RetrievalFailureLeavesStatus: does not say whether the condition copy survives a failed retrieval. The test never asserts it. The model makes no status write on that path, and the Build creation of that pass is kept.
- Controller.MetadataRetriever.GetBuiltImage: records the CNBBuild as passed at call time. The test's fake records a pointer, and line 271 compares it with the object as finally stored, so that aliasing is not modelled.
- Controller.KnBuildStore.UpdateStatus: replaces the Build's conditions only. The test's fake client replaces the whole object, but only the conditions are read afterwards.
- Owner references carry kind, name and the controller and block-owner-deletion flags. API version and UID are not modelled. Conditions carry no timestamps or severity.
